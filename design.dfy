/** The kiosk screens (src/gui/design.py) as far as they hold logic: the inactivity
    timer every screen arms on Tk's event loop, the tag entry of the start screen with
    its digit filter and auto-clear debounce, the start screen's self-clearing error
    line, and the description box of the temporary-storage screen with its 256-character
    cap and counter. Widgets themselves are not modelled; Tk's `after` scheduling is a
    map from handles to the callbacks still pending. */
module Design {
  import opened Wrappers
  import opened Text
  import opened Events

  const MAX_DESCRIPTION_LENGTH: nat := 256
  const TIMEOUT_TIMER_PERIOD_MS: nat := 60 * 1000
  /** StartGui.debounce_time, used unless the constructor is given another. */
  const DEFAULT_DEBOUNCE_TIME_MS: nat := 100
  /** The start screen's error line clears itself after this long. */
  const ERROR_MESSAGE_CLEAR_MS: nat := 5000
  const DESCRIPTION_PLACEHOLDER := "Describe what you want to store here..."

  /** The callbacks a screen hands to `after`; each belongs to one screen. */
  datatype JobKind = TimeoutJob | ClearTagEntryJob | ClearErrorMessageJob
  datatype Job = Job(kind: JobKind, screen: nat, delayMs: nat)

  /** A call queued with `after_idle`: a GUI event for one screen's callback. */
  datatype IdleCall = IdleCall(screen: nat, event: GuiEvent)

  /** The Tk root: the callbacks pending under their handles, the idle queue, the
      mouse cursor, and a counter naming the screens drawn on it. */
  class Master {
    var pending: map<nat, Job>
    var nextHandle: nat
    var nextScreen: nat
    var idle: seq<IdleCall>
    var cursor: string

    /** Handles are never reused and every job belongs to a screen already drawn. */
    ghost predicate Valid()
      reads this
    {
      forall h | h in pending :: h < nextHandle && pending[h].screen < nextScreen
    }

    constructor()
      ensures Valid() && pending == map[] && idle == [] && cursor == ""
    {
      pending := map[];
      nextHandle := 0;
      nextScreen := 0;
      idle := [];
      cursor := "";
    }

    /** A name for a screen about to be drawn; no job belongs to it yet. */
    method NewScreen() returns (screen: nat)
      requires Valid()
      modifies this
      ensures Valid() && screen == old(nextScreen) && nextScreen == screen + 1
      ensures forall h | h in pending :: pending[h].screen != screen
      ensures pending == old(pending) && idle == old(idle) && cursor == old(cursor)
      ensures nextHandle == old(nextHandle)
    {
      screen := nextScreen;
      nextScreen := nextScreen + 1;
    }

    /** after(ms, callback): a fresh handle. */
    method After(delayMs: nat, kind: JobKind, screen: nat) returns (h: nat)
      requires Valid() && screen < nextScreen
      modifies this
      ensures Valid() && h !in old(pending) && h == old(nextHandle) && nextHandle == h + 1
      ensures pending == old(pending)[h := Job(kind, screen, delayMs)]
      ensures nextScreen == old(nextScreen) && idle == old(idle) && cursor == old(cursor)
    {
      h := nextHandle;
      nextHandle := nextHandle + 1;
      pending := pending[h := Job(kind, screen, delayMs)];
    }

    /** after_cancel(h); a handle that already ran or was cancelled is ignored. */
    method AfterCancel(h: nat)
      requires Valid()
      modifies this
      ensures Valid() && pending == old(pending) - {h}
      ensures nextHandle == old(nextHandle) && nextScreen == old(nextScreen) && idle == old(idle) && cursor == old(cursor)
    {
      pending := pending - {h};
    }

    method AfterIdle(call: IdleCall)
      requires Valid()
      modifies this
      ensures Valid() && idle == old(idle) + [call]
      ensures nextHandle == old(nextHandle) && pending == old(pending) && nextScreen == old(nextScreen) && cursor == old(cursor)
    {
      idle := idle + [call];
    }

    /** The event loop runs a due job: it is no longer pending. */
    method Run(h: nat) returns (job: Job)
      requires Valid() && h in pending
      modifies this
      ensures Valid() && job == old(pending)[h] && pending == old(pending) - {h}
      ensures nextHandle == old(nextHandle) && nextScreen == old(nextScreen) && idle == old(idle) && cursor == old(cursor)
    {
      job := pending[h];
      pending := pending - {h};
    }

    /** master.config(cursor=...) */
    method Config(cursor: string)
      modifies this
      ensures this.cursor == cursor
      ensures pending == old(pending) && nextHandle == old(nextHandle)
      ensures nextScreen == old(nextScreen) && idle == old(idle)
    {
      this.cursor := cursor;
    }
  }

  /** Of the jobs of one kind belonging to one screen, none is pending anywhere but at
      `at`: with `at == None` none is pending at all. */
  ghost predicate AtMostAt(pending: map<nat, Job>, screen: nat, kind: JobKind, at: Option<nat>, delayMs: nat) {
    forall h | h in pending && pending[h].screen == screen && pending[h].kind == kind ::
      at == Some(h) && pending[h].delayMs == delayMs
  }

  lemma AtMostAtRemove(pending: map<nat, Job>, screen: nat, kind: JobKind, at: Option<nat>, delayMs: nat, x: nat)
    requires AtMostAt(pending, screen, kind, at, delayMs)
    ensures AtMostAt(pending - {x}, screen, kind, if at == Some(x) then None else at, delayMs)
  {
  }

  lemma AtMostAtOther(pending: map<nat, Job>, screen: nat, kind: JobKind, at: Option<nat>, delayMs: nat, x: nat, job: Job)
    requires AtMostAt(pending, screen, kind, at, delayMs)
    requires job.screen != screen || job.kind != kind
    ensures AtMostAt(pending[x := job], screen, kind, at, delayMs)
  {
  }

  lemma AtMostAtAdd(pending: map<nat, Job>, screen: nat, kind: JobKind, delayMs: nat, x: nat)
    requires AtMostAt(pending, screen, kind, None, delayMs)
    ensures AtMostAt(pending[x := Job(kind, screen, delayMs)], screen, kind, Some(x), delayMs)
  {
  }

  /** The tag entry filter: the entry with every non-digit removed, in order. */
  function KeepDigits(s: string): (r: string)
    ensures AllAsciiDigits(r) && |r| <= |s|
  {
    if s == [] then []
    else if IsAsciiDigit(s[0]) then [s[0]] + KeepDigits(s[1..])
    else KeepDigits(s[1..])
  }

  lemma {:induction false} KeepDigitsAppend(a: string, b: string)
    ensures KeepDigits(a + b) == KeepDigits(a) + KeepDigits(b)
  {
    if a != [] {
      assert (a + b)[0] == a[0];
      assert (a + b)[1..] == a[1..] + b;
      KeepDigitsAppend(a[1..], b);
      if IsAsciiDigit(a[0]) {
        calc {
          KeepDigits(a + b);
          [a[0]] + KeepDigits(a[1..] + b);
          [a[0]] + (KeepDigits(a[1..]) + KeepDigits(b));
          ([a[0]] + KeepDigits(a[1..])) + KeepDigits(b);
        }
      } else {
        assert KeepDigits(a + b) == KeepDigits(a[1..] + b);
        assert KeepDigits(a) == KeepDigits(a[1..]);
      }
    } else {
      assert a + b == b;
    }
  }

  /** The entry is left as it is exactly when it holds only digits. */
  lemma {:induction false} KeepDigitsUnchanged(s: string)
    ensures KeepDigits(s) == s <==> AllAsciiDigits(s)
  {
    if s != [] && AllAsciiDigits(s) {
      assert AllAsciiDigits(s[1..]) by {
        forall i | 0 <= i < |s| - 1 ensures IsAsciiDigit(s[1..][i]) {
          assert s[1..][i] == s[i + 1];
        }
      }
      KeepDigitsUnchanged(s[1..]);
      assert s == [s[0]] + s[1..];
    }
  }

  /** Filtering twice removes nothing more. */
  lemma KeepDigitsIdempotent(s: string)
    ensures KeepDigits(KeepDigits(s)) == KeepDigits(s)
  {
    KeepDigitsUnchanged(KeepDigits(s));
  }

  /** Every digit survives as often as it occurs; nothing else survives. */
  lemma {:induction false} KeepDigitsCounts(s: string, c: char)
    ensures multiset(KeepDigits(s))[c] == if IsAsciiDigit(c) then multiset(s)[c] else 0
  {
    if s != [] {
      KeepDigitsCounts(s[1..], c);
      assert s == [s[0]] + s[1..];
      assert multiset(s) == multiset([s[0]]) + multiset(s[1..]);
      if IsAsciiDigit(s[0]) {
        assert multiset(KeepDigits(s)) == multiset([s[0]]) + multiset(KeepDigits(s[1..]));
      }
    }
  }

  /** The description after a key: its first 256 characters. */
  function Truncate(text: string): (r: string)
    ensures |r| == if |text| < MAX_DESCRIPTION_LENGTH then |text| else MAX_DESCRIPTION_LENGTH
    ensures r == text[..|r|]
  {
    if |text| >= MAX_DESCRIPTION_LENGTH then text[..MAX_DESCRIPTION_LENGTH] else text
  }

  /** Cutting a second time changes nothing. */
  lemma TruncateIdempotent(text: string)
    ensures Truncate(Truncate(text)) == Truncate(text)
  {
  }

  lemma MaxLengthText()
    ensures IntToString(MAX_DESCRIPTION_LENGTH) == "256"
  {
    assert NatToDecimal(256) == NatToDecimal(25) + [DigitChar(6)];
    assert NatToDecimal(25) == NatToDecimal(2) + [DigitChar(5)];
  }

  /** The character counter: "<n> / 256". */
  function CounterText(n: nat): (r: string)
    ensures |r| > |" / 256"| && r[|r| - |" / 256"|..] == " / 256"
    ensures AllAsciiDigits(r[..|r| - |" / 256"|])
    ensures DecimalValue(r[..|r| - |" / 256"|]) == n
  {
    var digits := IntToString(n);
    var r := digits + " / " + IntToString(MAX_DESCRIPTION_LENGTH);
    MaxLengthText();
    assert r == digits + " / 256";
    assert r[..|digits|] == digits == NatToDecimal(n);
    DecimalRoundTrip(n);
    r
  }

  /** The three screens. Every screen has the timeout timer; the start screen also has
      the tag entry and the error line, the temporary-storage screen the description
      box and its counter. The other screens show errors in a warning dialog. */
  datatype Screen = StartScreen | MemberInformationScreen | TemporaryStorageScreen

  /** The buttons of the member screen and the temporary-storage screen. */
  datatype Button = StorageLabelButton | BoxLabelButton | LogOutButton | PrintButton | CancelButton

  /** One screen drawn on `master` (GuiTemplate with its subclasses). */
  class Gui {
    const master: Master
    const id: nat
    const screen: Screen
    /** The start screen's tag_verifier. */
    const verifyTag: string -> bool
    const debounceTime: nat
    var timer: nat
    var tagEntry: string
    var debouncer: Option<nat>
    var errorText: string
    var errorDebouncer: Option<nat>
    var progressBarRunning: bool
    /** The description box, without the newline Tk keeps at its end. */
    var textBox: string
    /** The placeholder is still shown and keys are not yet handled. */
    var placeholderShown: bool
    var counterText: string
    /** The messages shown with messagebox.showwarning. */
    var warnings: seq<string>

    ghost predicate Registered()
      reads this, master
    {
      master.Valid() && id < master.nextScreen && timer < master.nextHandle
    }

    /** No inactivity callback of this screen is pending. */
    ghost predicate TimerStopped()
      reads this, master
    {
      AtMostAt(master.pending, id, TimeoutJob, None, TIMEOUT_TIMER_PERIOD_MS)
    }

    /** Exactly one inactivity callback of this screen is pending: the one at `timer`. */
    ghost predicate TimerArmed()
      reads this, master
    {
      timer in master.pending && master.pending[timer] == Job(TimeoutJob, id, TIMEOUT_TIMER_PERIOD_MS) &&
      AtMostAt(master.pending, id, TimeoutJob, Some(timer), TIMEOUT_TIMER_PERIOD_MS)
    }

    /** A pending clear of the entry or of the error line sits at the recorded handle,
        so at most one of each is pending; a recorded handle was handed out before and
        is not the timer's. */
    ghost predicate ClearsTracked()
      reads this, master
    {
      AtMostAt(master.pending, id, ClearTagEntryJob, debouncer, debounceTime) &&
      AtMostAt(master.pending, id, ClearErrorMessageJob, errorDebouncer, ERROR_MESSAGE_CLEAR_MS) &&
      (debouncer.Some? ==> debouncer.value < master.nextHandle && debouncer.value != timer) &&
      (errorDebouncer.Some? ==> errorDebouncer.value < master.nextHandle && errorDebouncer.value != timer)
    }

    ghost predicate Valid()
      reads this, master
    {
      Registered() && TimerArmed() && ClearsTracked()
    }

    /** Draws a screen: it gets a fresh name and arms its timer. `debounceTime` is the
        start screen's optional override. */
    constructor(master: Master, screen: Screen, verifyTag: string -> bool, debounceTime: Option<nat>)
      requires master.Valid()
      modifies master
      ensures Valid() && this.master == master && this.screen == screen && this.verifyTag == verifyTag
      ensures id == old(master.nextScreen) && timer !in old(master.pending)
      ensures master.pending == old(master.pending)[timer := Job(TimeoutJob, id, TIMEOUT_TIMER_PERIOD_MS)]
      ensures master.idle == old(master.idle) && master.cursor == old(master.cursor)
      ensures master.nextHandle == old(master.nextHandle) + 1 && master.nextScreen == old(master.nextScreen) + 1
      ensures this.debounceTime == debounceTime.GetOr(DEFAULT_DEBOUNCE_TIME_MS)
      ensures tagEntry == "" && debouncer == None && errorText == "" && errorDebouncer == None
      ensures !progressBarRunning && warnings == []
      ensures textBox == DESCRIPTION_PLACEHOLDER && placeholderShown && counterText == CounterText(0)
    {
      var name := master.NewScreen();
      var h := master.After(TIMEOUT_TIMER_PERIOD_MS, TimeoutJob, name);
      this.master := master;
      this.id := name;
      this.screen := screen;
      this.verifyTag := verifyTag;
      this.debounceTime := debounceTime.GetOr(DEFAULT_DEBOUNCE_TIME_MS);
      timer := h;
      tagEntry := "";
      debouncer := None;
      errorText := "";
      errorDebouncer := None;
      progressBarRunning := false;
      textBox := DESCRIPTION_PLACEHOLDER;
      placeholderShown := true;
      counterText := IntToString(0) + " / " + IntToString(MAX_DESCRIPTION_LENGTH);
      warnings := [];
    }

    /** timeout_timer_start: arms the timer under a fresh handle. */
    method TimeoutTimerStart()
      requires Registered() && TimerStopped() && ClearsTracked()
      modifies this, master
      ensures Valid() && timer !in old(master.pending) && timer == old(master.nextHandle)
      ensures master.pending == old(master.pending)[timer := Job(TimeoutJob, id, TIMEOUT_TIMER_PERIOD_MS)]
      ensures master.idle == old(master.idle) && master.cursor == old(master.cursor)
      ensures tagEntry == old(tagEntry) && debouncer == old(debouncer) && errorText == old(errorText)
      ensures errorDebouncer == old(errorDebouncer) && progressBarRunning == old(progressBarRunning)
      ensures textBox == old(textBox) && placeholderShown == old(placeholderShown)
      ensures counterText == old(counterText) && warnings == old(warnings)
    {
      timer := master.After(TIMEOUT_TIMER_PERIOD_MS, TimeoutJob, id);
    }

    /** timeout_timer_cancel: nothing of the timer is left pending. */
    method TimeoutTimerCancel()
      requires Valid()
      modifies master
      ensures Registered() && TimerStopped() && ClearsTracked()
      ensures master.pending == old(master.pending) - {timer}
      ensures master.idle == old(master.idle) && master.cursor == old(master.cursor)
      ensures master.nextHandle == old(master.nextHandle) && master.nextScreen == old(master.nextScreen)
    {
      master.AfterCancel(timer);
    }

    /** timeout_timer_reset: the old handle is cancelled before a new one is armed. */
    method TimeoutTimerReset()
      requires Valid()
      modifies this, master
      ensures Valid() && timer !in old(master.pending)
      ensures master.pending == (old(master.pending) - {old(timer)})[timer := Job(TimeoutJob, id, TIMEOUT_TIMER_PERIOD_MS)]
      ensures master.idle == old(master.idle) && master.cursor == old(master.cursor)
      ensures tagEntry == old(tagEntry) && debouncer == old(debouncer) && errorText == old(errorText)
      ensures errorDebouncer == old(errorDebouncer) && progressBarRunning == old(progressBarRunning)
      ensures textBox == old(textBox) && placeholderShown == old(placeholderShown)
      ensures counterText == old(counterText) && warnings == old(warnings)
    {
      TimeoutTimerCancel();
      TimeoutTimerStart();
    }

    /** timeout_timer_expired, run by the loop once the timer's job has been taken:
        the expiry is queued for the screen's callback and the timer is armed again. */
    method TimeoutTimerExpired()
      requires Registered() && TimerStopped() && ClearsTracked()
      modifies this, master
      ensures Valid() && timer !in old(master.pending)
      ensures master.idle == old(master.idle) + [IdleCall(id, GuiEvent(GuiTimeoutTimerExpired, None))]
      ensures master.pending == old(master.pending)[timer := Job(TimeoutJob, id, TIMEOUT_TIMER_PERIOD_MS)]
      ensures master.cursor == old(master.cursor)
      ensures tagEntry == old(tagEntry) && debouncer == old(debouncer) && errorText == old(errorText)
      ensures errorDebouncer == old(errorDebouncer) && progressBarRunning == old(progressBarRunning)
      ensures textBox == old(textBox) && placeholderShown == old(placeholderShown)
      ensures counterText == old(counterText) && warnings == old(warnings)
    {
      master.AfterIdle(IdleCall(id, GuiEvent(GuiTimeoutTimerExpired, None)));
      TimeoutTimerStart();
    }

    /** show_error_message. The start screen writes the message on its error line,
        cancels a clear still pending and schedules a new one; the other screens open a
        warning dialog. */
    method ShowErrorMessage(message: string)
      requires Registered() && ClearsTracked()
      modifies this, master
      ensures Registered() && ClearsTracked()
      ensures screen == StartScreen ==>
        errorText == message && errorDebouncer.Some? && errorDebouncer.value !in old(master.pending) &&
        master.pending == (old(master.pending) - (if old(errorDebouncer).Some? then {old(errorDebouncer).value} else {}))
                            [errorDebouncer.value := Job(ClearErrorMessageJob, id, ERROR_MESSAGE_CLEAR_MS)] &&
        warnings == old(warnings)
      ensures screen != StartScreen ==>
        warnings == old(warnings) + [message] && master.pending == old(master.pending) &&
        errorText == old(errorText) && errorDebouncer == old(errorDebouncer)
      ensures old(TimerArmed()) ==> TimerArmed()
      ensures old(TimerStopped()) ==> TimerStopped()
      ensures timer == old(timer) && master.idle == old(master.idle) && master.cursor == old(master.cursor)
      ensures tagEntry == old(tagEntry) && debouncer == old(debouncer) && progressBarRunning == old(progressBarRunning)
      ensures textBox == old(textBox) && placeholderShown == old(placeholderShown) && counterText == old(counterText)
    {
      if screen != StartScreen {
        warnings := warnings + [message];
        return;
      }
      if errorDebouncer.Some? {
        master.AfterCancel(errorDebouncer.value);
      }
      errorText := message;
      var h := master.After(ERROR_MESSAGE_CLEAR_MS, ClearErrorMessageJob, id);
      errorDebouncer := Some(h);
    }

    /** The scheduled clear of the error line. The handle is left as it is. */
    method ClearErrorMessage()
      modifies this
      ensures errorText == "" && errorDebouncer == old(errorDebouncer)
      ensures timer == old(timer) && tagEntry == old(tagEntry) && debouncer == old(debouncer)
      ensures progressBarRunning == old(progressBarRunning) && warnings == old(warnings)
      ensures textBox == old(textBox) && placeholderShown == old(placeholderShown) && counterText == old(counterText)
    {
      errorText := "";
    }

    /** reset_gui: empties the entry and stops the progress bar. */
    method ResetGui()
      modifies this
      ensures tagEntry == "" && !progressBarRunning
      ensures timer == old(timer) && debouncer == old(debouncer) && errorText == old(errorText)
      ensures errorDebouncer == old(errorDebouncer) && warnings == old(warnings)
      ensures textBox == old(textBox) && placeholderShown == old(placeholderShown) && counterText == old(counterText)
    {
      tagEntry := "";
      StopProgressBar();
    }

    method StartProgressBar()
      modifies this
      ensures progressBarRunning
      ensures timer == old(timer) && tagEntry == old(tagEntry) && debouncer == old(debouncer)
      ensures errorText == old(errorText) && errorDebouncer == old(errorDebouncer) && warnings == old(warnings)
      ensures textBox == old(textBox) && placeholderShown == old(placeholderShown) && counterText == old(counterText)
    {
      progressBarRunning := true;
    }

    method StopProgressBar()
      modifies this
      ensures !progressBarRunning
      ensures timer == old(timer) && tagEntry == old(tagEntry) && debouncer == old(debouncer)
      ensures errorText == old(errorText) && errorDebouncer == old(errorDebouncer) && warnings == old(warnings)
      ensures textBox == old(textBox) && placeholderShown == old(placeholderShown) && counterText == old(counterText)
    {
      progressBarRunning := false;
    }

    /** tag_read: the entry's text goes to the screen's callback. */
    method TagRead() returns (event: GuiEvent)
      ensures event == GuiEvent(GuiTagRead, Some(tagEntry))
    {
      event := GuiEvent(GuiTagRead, Some(tagEntry));
    }

    /** filter_tag_input: the entry keeps only its digits, in order; an entry of
        digits only is not rewritten. */
    method FilterTagInput() returns (tag: string)
      modifies this
      ensures tag == KeepDigits(old(tagEntry)) && tagEntry == tag
      ensures AllAsciiDigits(old(tagEntry)) ==> tagEntry == old(tagEntry)
      ensures timer == old(timer) && debouncer == old(debouncer) && errorText == old(errorText)
      ensures errorDebouncer == old(errorDebouncer) && progressBarRunning == old(progressBarRunning)
      ensures warnings == old(warnings)
      ensures textBox == old(textBox) && placeholderShown == old(placeholderShown) && counterText == old(counterText)
    {
      tag := tagEntry;
      KeepDigitsUnchanged(tag);
      if AllAsciiDigits(tag) {
        return;
      }
      tagEntry := "";
      tag := KeepDigits(tag);
      tagEntry := tag;
    }

    /** clear_tag_entry, the debounced job. */
    method ClearTagEntry()
      modifies this
      ensures tagEntry == "" && debouncer == old(debouncer)
      ensures timer == old(timer) && errorText == old(errorText) && errorDebouncer == old(errorDebouncer)
      ensures progressBarRunning == old(progressBarRunning) && warnings == old(warnings)
      ensures textBox == old(textBox) && placeholderShown == old(placeholderShown) && counterText == old(counterText)
    {
      tagEntry := "";
    }

    /** touch_cleanup_timeout: the pending clear, if any, is replaced by a new one, so
        at most one stays pending. */
    method TouchCleanupTimeout()
      requires Registered() && ClearsTracked()
      modifies this, master
      ensures Registered() && ClearsTracked()
      ensures debouncer.Some? && debouncer.value !in old(master.pending)
      ensures master.pending == (old(master.pending) - (if old(debouncer).Some? then {old(debouncer).value} else {}))
                                 [debouncer.value := Job(ClearTagEntryJob, id, debounceTime)]
      ensures forall h | h in master.pending && master.pending[h].screen == id && master.pending[h].kind == ClearTagEntryJob ::
                h == debouncer.value
      ensures old(TimerArmed()) ==> TimerArmed()
      ensures timer == old(timer) && master.idle == old(master.idle) && master.cursor == old(master.cursor)
      ensures tagEntry == old(tagEntry) && errorText == old(errorText) && errorDebouncer == old(errorDebouncer)
      ensures progressBarRunning == old(progressBarRunning) && warnings == old(warnings)
      ensures textBox == old(textBox) && placeholderShown == old(placeholderShown) && counterText == old(counterText)
    {
      if debouncer.Some? {
        master.AfterCancel(debouncer.value);
      }
      var h := master.After(debounceTime, ClearTagEntryJob, id);
      debouncer := Some(h);
    }

    /** keyup on the tag entry: filter, restart the auto-clear, and hand the filtered
        tag to the callback exactly when the verifier accepts it. */
    method Keyup() returns (event: Option<GuiEvent>)
      requires Valid()
      modifies this, master
      ensures Valid()
      ensures tagEntry == KeepDigits(old(tagEntry))
      ensures event == if verifyTag(tagEntry) then Some(GuiEvent(GuiTagRead, Some(tagEntry))) else None
      ensures debouncer.Some? && debouncer.value !in old(master.pending)
      ensures master.pending == (old(master.pending) - (if old(debouncer).Some? then {old(debouncer).value} else {}))
                                 [debouncer.value := Job(ClearTagEntryJob, id, debounceTime)]
      ensures timer == old(timer) && master.idle == old(master.idle) && master.cursor == old(master.cursor)
      ensures errorText == old(errorText) && errorDebouncer == old(errorDebouncer)
      ensures progressBarRunning == old(progressBarRunning) && warnings == old(warnings)
      ensures textBox == old(textBox) && placeholderShown == old(placeholderShown) && counterText == old(counterText)
    {
      var tag := FilterTagInput();
      TouchCleanupTimeout();
      if verifyTag(tag) {
        var e := TagRead();
        return Some(e);
      }
      return None;
    }

    /** text_box_callback_focusin: the placeholder goes and keys are handled from now on. */
    method TextBoxFocusIn()
      requires placeholderShown
      modifies this
      ensures textBox == "" && !placeholderShown
      ensures timer == old(timer) && counterText == old(counterText) && warnings == old(warnings)
      ensures tagEntry == old(tagEntry) && debouncer == old(debouncer) && errorText == old(errorText)
      ensures errorDebouncer == old(errorDebouncer) && progressBarRunning == old(progressBarRunning)
    {
      textBox := "";
      placeholderShown := false;
    }

    /** character_label_update */
    method CharacterLabelUpdate()
      modifies this
      ensures counterText == CounterText(|textBox|)
      ensures textBox == old(textBox) && timer == old(timer) && warnings == old(warnings)
      ensures placeholderShown == old(placeholderShown)
      ensures tagEntry == old(tagEntry) && debouncer == old(debouncer) && errorText == old(errorText)
      ensures errorDebouncer == old(errorDebouncer) && progressBarRunning == old(progressBarRunning)
    {
      counterText := IntToString(|textBox|) + " / " + IntToString(MAX_DESCRIPTION_LENGTH);
    }

    /** text_box_callback_key: restarts the inactivity timer, cuts the description to
        256 characters when it reached that length, and updates the counter. */
    method TextBoxCallbackKey()
      requires Valid() && !placeholderShown
      modifies this, master
      ensures Valid() && timer !in old(master.pending)
      ensures master.pending == (old(master.pending) - {old(timer)})[timer := Job(TimeoutJob, id, TIMEOUT_TIMER_PERIOD_MS)]
      ensures textBox == Truncate(old(textBox)) && |textBox| <= MAX_DESCRIPTION_LENGTH
      ensures counterText == CounterText(|textBox|)
      ensures !placeholderShown && warnings == old(warnings) && master.idle == old(master.idle)
      ensures tagEntry == old(tagEntry) && debouncer == old(debouncer) && errorText == old(errorText)
      ensures errorDebouncer == old(errorDebouncer) && progressBarRunning == old(progressBarRunning)
    {
      var length := |textBox|;
      TimeoutTimerReset();
      if length >= MAX_DESCRIPTION_LENGTH {
        textBox := textBox[..MAX_DESCRIPTION_LENGTH];
      }
      CharacterLabelUpdate();
    }

    /** The event a button hands to the callback. The print button sends the box's
        text as it stands, the placeholder included if it is still shown. */
    method Press(button: Button) returns (event: GuiEvent)
      ensures button == StorageLabelButton ==> event == GuiEvent(GuiDrawStorageLabelGui, None)
      ensures button == BoxLabelButton ==> event == GuiEvent(GuiPrintBoxLabel, None)
      ensures button == LogOutButton ==> event == GuiEvent(GuiLogOut, None)
      ensures button == PrintButton ==> event == GuiEvent(GuiPrintTemporaryStorageLabel, Some(textBox))
      ensures button == CancelButton ==> event == GuiEvent(GuiCancel, None)
    {
      match button
      case StorageLabelButton => event := GuiEvent(GuiDrawStorageLabelGui, None);
      case BoxLabelButton => event := GuiEvent(GuiPrintBoxLabel, None);
      case LogOutButton => event := GuiEvent(GuiLogOut, None);
      case PrintButton => event := GuiEvent(GuiPrintTemporaryStorageLabel, Some(textBox));
      case CancelButton => event := GuiEvent(GuiCancel, None);
    }
  }
}
