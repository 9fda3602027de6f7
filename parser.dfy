/** The two argparse actions of src/util/parser.py. BooleanOptionalAction turns each
    long option "--x" into the pair "--x", "--no-x" and stores true or false depending
    on which of the two was given. The development override action stores its own
    values and then a fixed list of (destination, value) overrides. The argparse
    namespace is modelled as a map from attribute name to value. */
module ArgParser {
  import opened Wrappers
  import opened Text

  /** The attribute values the actions store. */
  datatype Value = BoolValue(b: bool) | StringValue(s: string) | ListValue(items: seq<string>) | NoneValue

  const NEGATION_PREFIX := "--no-"

  predicate IsLong(s: string) {
    StartsWith(s, "--")
  }

  /** "--x" becomes "--no-x". */
  function Negated(s: string): (r: string)
    requires IsLong(s)
    ensures StartsWith(r, NEGATION_PREFIX) && r[|NEGATION_PREFIX|..] == s[2..]
    ensures |r| == |s| + 3
  {
    NEGATION_PREFIX + s[2..]
  }

  /** The option strings one given option string contributes. */
  function Contribution(s: string): seq<string> {
    if IsLong(s) then [s, Negated(s)] else [s]
  }

  /** The option strings the action registers for the given ones, in order. */
  function Expand(given: seq<string>): seq<string>
    decreases |given|
  {
    if given == [] then [] else Contribution(given[0]) + Expand(given[1..])
  }

  lemma {:induction false} ExpandAppend(given: seq<string>, s: string)
    ensures Expand(given + [s]) == Expand(given) + Contribution(s)
    decreases |given|
  {
    if given == [] {
      assert Expand([s]) == Contribution(s) + Expand([]);
    } else {
      assert (given + [s])[1..] == given[1..] + [s];
      ExpandAppend(given[1..], s);
    }
  }

  /** Drops the negated string that follows each long option: the inverse of Expand. */
  function Collapse(registered: seq<string>): seq<string>
    decreases |registered|
  {
    if registered == [] then []
    else if IsLong(registered[0]) && |registered| >= 2 then [registered[0]] + Collapse(registered[2..])
    else [registered[0]] + Collapse(registered[1..])
  }

  /** The given option strings can be read back from the registered ones: every given
      string is kept, in order, and only negations were added after long ones. */
  lemma {:induction false} CollapseExpand(given: seq<string>)
    ensures Collapse(Expand(given)) == given
    decreases |given|
  {
    if given != [] {
      var e := Expand(given);
      CollapseExpand(given[1..]);
      if IsLong(given[0]) {
        assert e == [given[0], Negated(given[0])] + Expand(given[1..]);
        assert e[2..] == Expand(given[1..]);
      } else {
        assert e == [given[0]] + Expand(given[1..]);
        assert e[1..] == Expand(given[1..]);
      }
    }
  }

  /** The number of long options among the given ones. */
  function LongCount(given: seq<string>): nat
    decreases |given|
  {
    if given == [] then 0 else (if IsLong(given[0]) then 1 else 0) + LongCount(given[1..])
  }

  /** Every given string is registered, every long one together with its negation, and
      nothing else is. */
  lemma {:induction false} ExpandMembers(given: seq<string>)
    ensures |Expand(given)| == |given| + LongCount(given)
    ensures forall s :: s in given ==> s in Expand(given)
    ensures forall s :: s in given && IsLong(s) ==> Negated(s) in Expand(given)
    ensures forall r :: r in Expand(given) ==>
      r in given || exists s :: s in given && IsLong(s) && r == Negated(s)
    decreases |given|
  {
    if given != [] {
      ExpandMembers(given[1..]);
      var e := Expand(given);
      assert e == Contribution(given[0]) + Expand(given[1..]);
      forall r | r in e
        ensures r in given || exists s :: s in given && IsLong(s) && r == Negated(s)
      {
        if r in Contribution(given[0]) {
          if r != given[0] {
            assert IsLong(given[0]) && r == Negated(given[0]);
          }
        } else {
          assert r in Expand(given[1..]);
          if r !in given[1..] {
            var s :| s in given[1..] && IsLong(s) && r == Negated(s);
            assert s in given;
          }
        }
      }
    }
  }

  /** The stored flag for an option string: false exactly for the "--no-" spellings. */
  function FlagFor(optionString: string): bool {
    !StartsWith(optionString, NEGATION_PREFIX)
  }

  /** For a long option that is not itself spelled "--no-...", the option sets true
      and its negation sets false, and both are registered. */
  lemma PairSetsOppositeFlags(given: seq<string>, s: string)
    requires s in given && IsLong(s) && !StartsWith(s, NEGATION_PREFIX)
    ensures s in Expand(given) && Negated(s) in Expand(given)
    ensures FlagFor(s) && !FlagFor(Negated(s))
  {
    ExpandMembers(given);
  }

  /** The help text: " (default: D)" is appended only when both the help and the
      default (in its printed form) are present. */
  function HelpText(help: Option<string>, default: Option<string>): (r: Option<string>)
    ensures r.None? <==> help.None?
    ensures help.Some? ==> StartsWith(r.value, help.value)
    ensures help.Some? ==> (r == help <==> default.None?)
  {
    if help.Some? && default.Some? then Some(help.value + " (default: " + default.value + ")")
    else help
  }

  /** format_usage: the registered strings separated by " | ". */
  function Usage(optionStrings: seq<string>): string {
    Join(optionStrings, " | ")
  }

  /** Every registered option string appears in the usage text. */
  lemma {:induction false} UsageMentionsEach(optionStrings: seq<string>, i: nat)
    requires i < |optionStrings|
    ensures Contains(Usage(optionStrings), optionStrings[i])
    decreases |optionStrings|
  {
    var tail := Join(optionStrings[1..], " | ");
    if |optionStrings| == 1 {
      ContainsConcat("", optionStrings[0], "");
      assert "" + optionStrings[0] + "" == optionStrings[0];
    } else if i == 0 {
      ContainsConcat("", optionStrings[0], " | " + tail);
      assert "" + optionStrings[0] + (" | " + tail) == Usage(optionStrings);
    } else {
      UsageMentionsEach(optionStrings[1..], i - 1);
      var j :| 0 <= j <= |tail| && OccursAt(tail, optionStrings[i], j);
      var prefix := optionStrings[0] + " | ";
      assert Usage(optionStrings) == prefix + tail;
      assert (prefix + tail)[|prefix| + j..|prefix| + j + |optionStrings[i]|] == tail[j..j + |optionStrings[i]|];
      assert OccursAt(Usage(optionStrings), optionStrings[i], |prefix| + j);
    }
  }

  /** The argparse namespace. */
  class Namespace {
    var attrs: map<string, Value>

    constructor(attrs: map<string, Value>)
      ensures this.attrs == attrs
    {
      this.attrs := attrs;
    }
  }

  class BooleanOptionalAction {
    const optionStrings: seq<string>
    const dest: string
    const default: Option<string>
    const help: Option<string>

    /** __init__: the registered option strings are built one given string at a time. */
    constructor(given: seq<string>, dest: string, default: Option<string>, help: Option<string>)
      ensures optionStrings == Expand(given) && this.dest == dest && this.default == default
      ensures this.help == HelpText(help, default)
    {
      var registered: seq<string> := [];
      var i := 0;
      while i < |given|
        invariant 0 <= i <= |given|
        invariant registered == Expand(given[..i])
      {
        var s := given[i];
        registered := registered + [s];
        if IsLong(s) {
          registered := registered + [Negated(s)];
        }
        ExpandAppend(given[..i], s);
        assert given[..i + 1] == given[..i] + [s];
        i := i + 1;
      }
      assert given[..i] == given;
      optionStrings := registered;
      this.dest := dest;
      this.default := default;
      this.help := HelpText(help, default);
    }

    /** __call__: a registered option string stores its flag; anything else, or no
        option string at all, changes nothing. */
    method Call(ns: Namespace, optionString: Option<string>)
      modifies ns
      ensures optionString.Some? && optionString.value in optionStrings ==>
        ns.attrs == old(ns.attrs)[dest := BoolValue(FlagFor(optionString.value))]
      ensures !(optionString.Some? && optionString.value in optionStrings) ==> ns.attrs == old(ns.attrs)
    {
      if optionString.Some? && optionString.value in optionStrings {
        ns.attrs := ns.attrs[dest := BoolValue(!StartsWith(optionString.value, NEGATION_PREFIX))];
      }
    }

    function FormatUsage(): (r: string)
      ensures forall i :: 0 <= i < |optionStrings| ==> Contains(r, optionStrings[i])
    {
      forall i | 0 <= i < |optionStrings|
        ensures Contains(Usage(optionStrings), optionStrings[i])
      {
        UsageMentionsEach(optionStrings, i);
      }
      Usage(optionStrings)
    }
  }

  /** The namespace after the overrides are set in list order. */
  function ApplyOverrides(attrs: map<string, Value>, overrides: seq<(string, Value)>): map<string, Value>
    decreases |overrides|
  {
    if overrides == [] then attrs
    else
      var last := overrides[|overrides| - 1];
      ApplyOverrides(attrs, overrides[..|overrides| - 1])[last.0 := last.1]
  }

  /** The value of the last override for `key`, if any. */
  function LastOverride(overrides: seq<(string, Value)>, key: string): (r: Option<Value>)
    ensures r.Some? ==>
      exists i :: 0 <= i < |overrides| && overrides[i] == (key, r.value) &&
                  forall j | i < j < |overrides| :: overrides[j].0 != key
    ensures r.None? ==> forall i :: 0 <= i < |overrides| ==> overrides[i].0 != key
    decreases |overrides|
  {
    if overrides == [] then None
    else if overrides[|overrides| - 1].0 == key then
      assert overrides[|overrides| - 1] == (key, overrides[|overrides| - 1].1);
      Some(overrides[|overrides| - 1].1)
    else
      var front := overrides[..|overrides| - 1];
      assert forall i :: 0 <= i < |front| ==> front[i] == overrides[i];
      LastOverride(front, key)
  }

  /** After the overrides, each attribute holds the last override given for it, or
      else what it held before; no other attribute appears. */
  lemma {:induction false} OverridesLastWins(attrs: map<string, Value>, overrides: seq<(string, Value)>, key: string)
    ensures key in ApplyOverrides(attrs, overrides) <==> key in attrs || LastOverride(overrides, key).Some?
    ensures key in ApplyOverrides(attrs, overrides) ==>
      ApplyOverrides(attrs, overrides)[key] ==
        (if LastOverride(overrides, key).Some? then LastOverride(overrides, key).value else attrs[key])
    decreases |overrides|
  {
    if overrides != [] {
      OverridesLastWins(attrs, overrides[..|overrides| - 1], key);
    }
  }

  /** The action class DevelopmentOverrideActionFactory builds for a list of overrides. */
  class DevelopmentOverrideAction {
    const dest: string
    const overrides: seq<(string, Value)>

    constructor(dest: string, overrides: seq<(string, Value)>)
      ensures this.dest == dest && this.overrides == overrides
    {
      this.dest := dest;
      this.overrides := overrides;
    }

    /** __call__: the action's own destination gets the received values, then every
        override is set in order. */
    method Call(ns: Namespace, values: Value)
      modifies ns
      ensures ns.attrs == ApplyOverrides(old(ns.attrs)[dest := values], overrides)
    {
      ns.attrs := ns.attrs[dest := values];
      ghost var start := ns.attrs;
      var i := 0;
      while i < |overrides|
        invariant 0 <= i <= |overrides|
        invariant ns.attrs == ApplyOverrides(start, overrides[..i])
      {
        assert overrides[..i + 1][..i] == overrides[..i];
        ns.attrs := ns.attrs[overrides[i].0 := overrides[i].1];
        i := i + 1;
      }
      assert overrides[..i] == overrides;
    }
  }
}
