/** The earlier kiosk state machine (src/application_states.py). It has the same three
    states as the current one, over the older member record and the older screens. It
    differs in three ways:
    - a log-in button, not the tag entry, raises the tag;
    - any lookup failure builds a fresh Waiting state instead of keeping the old one;
    - errors always open a warning dialog.
    The screens are modelled only by what the states do with them: the inactivity
    timer each one arms, the progress bar and the warnings. The Tk root counts the
    armed timers. */
module EarlyStates {
  import opened Wrappers
  import opened Events
  import LegacyMember
  import States
  import Text

  type Member = LegacyMember.Member

  const NO_MEMBER_MESSAGE := "Could not find a member that matches the specific tag"

  /** Member.from_tagid: a member, or any exception. */
  datatype LookupOutcome = Found(member: Member) | LookupRaised

  datatype StateKind = Waiting | MemberIdentified | EditTemporaryStorageLabel

  datatype Step = Stay | Enter(kind: StateKind, member: Option<Member>)

  /** The three on_event methods. */
  function Transition(kind: StateKind, member: Option<Member>, ev: Event, lookup: LookupOutcome): Step {
    match kind
    case Waiting =>
      if ev.kind != TagRead then Stay
      else if lookup.Found? then Enter(MemberIdentified, Some(lookup.member))
      else Enter(Waiting, None)
    case MemberIdentified =>
      if ev.kind == LogOut then Enter(Waiting, None)
      else if ev.kind == PrintTemporaryStorageLabel then Enter(EditTemporaryStorageLabel, member)
      else Stay
    case EditTemporaryStorageLabel =>
      if ev.kind == Cancel || ev.kind == PrintingSucceeded then Enter(MemberIdentified, member)
      else if ev.kind == LogOut then Enter(Waiting, None)
      else Stay
  }

  function After(kind: StateKind, member: Option<Member>, ev: Event, lookup: LookupOutcome): (StateKind, Option<Member>) {
    match Transition(kind, member, ev, lookup)
    case Stay => (kind, member)
    case Enter(k, m) => (k, m)
  }

  /** The three gui_callback methods: the one event each passes on, if any. */
  function Raised(kind: StateKind, ge: GuiEvent, noPrinter: bool, outcome: States.PrintOutcome): Option<Event> {
    match kind
    case Waiting =>
      if ge.kind == GuiLogIn then Some(Event(TagRead, ge.data)) else None
    case MemberIdentified =>
      if ge.kind == GuiDrawStorageLabelGui then Some(Plain(PrintTemporaryStorageLabel))
      else if ge.kind == GuiLogOut || ge.kind == GuiTimeoutTimerExpired then Some(Plain(LogOut))
      else if ge.kind == GuiPrintBoxLabel then Some(Plain(States.PrintResult(noPrinter, outcome)))
      else None
    case EditTemporaryStorageLabel =>
      if ge.kind == GuiCancel then Some(Plain(Cancel))
      else if ge.kind == GuiTimeoutTimerExpired then Some(Plain(LogOut))
      else if ge.kind == GuiPrintTemporaryStorageLabel then Some(Plain(States.PrintResult(noPrinter, outcome)))
      else None
  }

  predicate Prints(kind: StateKind, ge: GuiEvent) {
    (kind == MemberIdentified && ge.kind == GuiPrintBoxLabel) ||
    (kind == EditTemporaryStorageLabel && ge.kind == GuiPrintTemporaryStorageLabel)
  }

  /** A failed lookup replaces Waiting by a new Waiting without a member, where the
      current version keeps the same state object. */
  lemma FailedLookupRestarts(member: Option<Member>, ev: Event)
    requires ev.kind == TagRead
    ensures Transition(Waiting, member, ev, LookupRaised) == Enter(Waiting, None)
    ensures States.Transition(States.Waiting, None, ev, States.NoMatchingTag) == States.Stay
  {
  }

  /** Apart from the failed lookup, both versions move between the same states with
      the same members. */
  lemma AgreesWithCurrent(kind: StateKind, m: Option<Member>, cm: Option<States.Member>, ev: Event,
                          lookup: LookupOutcome, current: States.LookupOutcome)
    requires lookup.Found? <==> current.Found?
    requires kind == Waiting ==> lookup.Found? || ev.kind != TagRead
    ensures var early := Transition(kind, m, ev, lookup);
      var now := States.Transition(Current(kind), cm, ev, current);
      early.Stay? == now.Stay? && (early.Enter? ==> Current(early.kind) == now.kind)
  {
  }

  function Current(kind: StateKind): States.StateKind {
    match kind
    case Waiting => States.Waiting
    case MemberIdentified => States.MemberIdentified
    case EditTemporaryStorageLabel => States.EditTemporaryStorageLabel
  }

  /** The Tk root as the states use it: how many inactivity timers are armed, and the
      cursor. */
  class Root {
    var armedTimers: nat
    var cursor: string

    constructor()
      ensures armedTimers == 0 && cursor == ""
    {
      armedTimers := 0;
      cursor := "";
    }
  }

  /** A screen of src/gui.py, as far as the states use it. */
  class Screen {
    const root: Root
    var timerArmed: bool
    var progressBarRunning: bool
    var warnings: seq<string>

    /** Drawing a screen arms its timer. */
    constructor(root: Root)
      modifies root
      ensures this.root == root && timerArmed && !progressBarRunning && warnings == []
      ensures root.armedTimers == old(root.armedTimers) + 1 && root.cursor == old(root.cursor)
    {
      this.root := root;
      timerArmed := true;
      progressBarRunning := false;
      warnings := [];
      root.armedTimers := root.armedTimers + 1;
    }

    method TimeoutTimerCancel()
      requires timerArmed && root.armedTimers >= 1
      modifies this, root
      ensures !timerArmed && root.armedTimers == old(root.armedTimers) - 1
      ensures progressBarRunning == old(progressBarRunning) && warnings == old(warnings)
      ensures root.cursor == old(root.cursor)
    {
      timerArmed := false;
      root.armedTimers := root.armedTimers - 1;
    }

    method StartProgressBar()
      modifies this
      ensures progressBarRunning && timerArmed == old(timerArmed) && warnings == old(warnings)
    {
      progressBarRunning := true;
    }

    /** GuiTemplate.show_error_message: a warning dialog. */
    method ShowErrorMessage(message: string)
      modifies this
      ensures warnings == old(warnings) + [message]
      ensures timerArmed == old(timerArmed) && progressBarRunning == old(progressBarRunning)
    {
      warnings := warnings + [message];
    }
  }

  class State {
    const kind: StateKind
    const root: Root
    var member: Option<Member>
    var gui: Screen?

    /** The screen is drawn, its timer is the only one armed, and the member and label
        screens have a member. */
    ghost predicate Ready()
      reads this, gui, root
    {
      gui != null && gui.root == root && gui.timerArmed && root.armedTimers == 1 &&
      (kind != Waiting ==> member.Some?)
    }

    constructor(kind: StateKind, root: Root, member: Option<Member>)
      modifies root
      ensures this.kind == kind && this.root == root && this.member == member
      ensures fresh(gui) && gui.root == root && gui.timerArmed && gui.warnings == []
      ensures root.armedTimers == old(root.armedTimers) + 1 && root.cursor == old(root.cursor)
    {
      var g := new Screen(root);
      this.kind := kind;
      this.root := root;
      this.member := member;
      gui := g;
    }

    method ChangeState()
      requires gui != null && gui.root == root && gui.timerArmed && root.armedTimers >= 1
      modifies this, gui, root
      ensures gui == null && member == old(member) && !old(gui).timerArmed
      ensures root.armedTimers == old(root.armedTimers) - 1 && root.cursor == old(root.cursor)
      ensures old(gui).warnings == old(gui.warnings) && old(gui).progressBarRunning == old(gui.progressBarRunning)
    {
      gui.TimeoutTimerCancel();
      gui := null;
    }

    /** Creates the returned state, then change_state. */
    method MoveTo(kind': StateKind, member': Option<Member>) returns (next: State)
      requires Ready() && (kind' != Waiting ==> member'.Some?)
      modifies this, gui, root
      ensures fresh(next) && fresh(next.gui) && next.root == root && next.Ready()
      ensures next.kind == kind' && next.member == member'
      ensures gui == null && member == old(member) && !old(gui).timerArmed
      ensures old(gui).warnings == old(gui.warnings) && root.cursor == old(root.cursor)
      ensures old(gui).progressBarRunning == old(gui.progressBarRunning)
    {
      next := new State(kind', root, member');
      ChangeState();
    }

    /** on_event. A failed lookup shows the message on the old screen before the new
        Waiting state replaces it. */
    method OnEvent(ev: Event, lookup: LookupOutcome) returns (next: State)
      requires Ready()
      modifies this, gui, root
      ensures Transition(kind, old(member), ev, lookup).Stay? ==> next == this && gui == old(gui) && Ready()
      ensures Transition(kind, old(member), ev, lookup).Enter? ==>
        fresh(next) && next.root == root && next.Ready() &&
        next.kind == Transition(kind, old(member), ev, lookup).kind &&
        next.member == Transition(kind, old(member), ev, lookup).member &&
        gui == null && !old(gui).timerArmed
      ensures kind == Waiting && ev.kind == TagRead ==>
        old(gui).progressBarRunning &&
        (lookup.Found? ==> member == Some(lookup.member) && old(gui).warnings == old(gui.warnings)) &&
        (lookup.LookupRaised? ==> member == old(member) && old(gui).warnings == old(gui.warnings) + [NO_MEMBER_MESSAGE])
      ensures !(kind == Waiting && ev.kind == TagRead) ==> member == old(member) && old(gui).warnings == old(gui.warnings)
      ensures Transition(kind, old(member), ev, lookup).Stay? ==>
        member == old(member) && root.armedTimers == old(root.armedTimers) && gui.timerArmed == old(gui.timerArmed) &&
        gui.progressBarRunning == old(gui.progressBarRunning) && gui.warnings == old(gui.warnings)
      ensures root.cursor == old(root.cursor)
    {
      next := this;
      match kind {
        case Waiting =>
          if ev.kind == TagRead {
            gui.StartProgressBar();
            match lookup {
              case Found(m) =>
                member := Some(m);
                next := MoveTo(MemberIdentified, member);
              case LookupRaised =>
                gui.ShowErrorMessage(NO_MEMBER_MESSAGE);
                next := MoveTo(Waiting, None);
            }
          }
        case EditTemporaryStorageLabel =>
          if ev.kind == Cancel || ev.kind == PrintingSucceeded {
            next := MoveTo(MemberIdentified, member);
          } else if ev.kind == LogOut {
            next := MoveTo(Waiting, None);
          }
        case MemberIdentified =>
          if ev.kind == LogOut {
            next := MoveTo(Waiting, None);
          } else if ev.kind == PrintTemporaryStorageLabel {
            next := MoveTo(EditTemporaryStorageLabel, member);
          }
      }
    }
  }

  class Application {
    const root: Root
    /** config.ns.no_printing */
    const noPrinter: bool
    var state: State
    var log: seq<Event>
    var busyLog: seq<bool>
    var requests: seq<States.LabelRequest>
    var saved: seq<string>

    ghost predicate Valid()
      reads this, state, state.gui, root
    {
      state.root == root && state.Ready()
    }

    constructor(root: Root, noPrinter: bool)
      requires root.armedTimers == 0
      modifies root
      ensures Valid() && this.root == root && this.noPrinter == noPrinter
      ensures state.kind == Waiting && state.member == None
      ensures log == [] && busyLog == [] && requests == [] && saved == []
    {
      this.root := root;
      this.noPrinter := noPrinter;
      state := new State(Waiting, root, None);
      log := [];
      busyLog := [];
      requests := [];
      saved := [];
    }

    method Busy()
      modifies this, root
      ensures root.cursor == "watch" && busyLog == old(busyLog) + [true]
      ensures root.armedTimers == old(root.armedTimers)
      ensures state == old(state) && log == old(log) && requests == old(requests) && saved == old(saved)
    {
      root.cursor := "watch";
      busyLog := busyLog + [true];
    }

    method NotBusy()
      modifies this, root
      ensures root.cursor == "" && busyLog == old(busyLog) + [false]
      ensures root.armedTimers == old(root.armedTimers)
      ensures state == old(state) && log == old(log) && requests == old(requests) && saved == old(saved)
    {
      root.cursor := "";
      busyLog := busyLog + [false];
    }

    /** on_event: the state's answer is installed. */
    method OnEvent(ev: Event, lookup: LookupOutcome)
      requires Valid()
      modifies this, state, state.gui, root
      ensures Valid() && log == old(log) + [ev]
      ensures (state.kind, state.member) == After(old(state.kind), old(state.member), ev, lookup)
      ensures Transition(old(state.kind), old(state.member), ev, lookup).Stay? ==> state == old(state)
      ensures Transition(old(state.kind), old(state.member), ev, lookup).Enter? ==>
        fresh(state) && !old(state.gui).timerArmed
      ensures busyLog == old(busyLog) && requests == old(requests) && saved == old(saved)
      ensures root.cursor == old(root.cursor)
      ensures !(old(state.kind) == Waiting && ev.kind == TagRead) ==> old(state.gui).warnings == old(state.gui.warnings)
    {
      log := log + [ev];
      state := state.OnEvent(ev, lookup);
    }

    /** gui_print: exactly one printing event, success exactly when there is no
        printer or the printer printed; an error is shown first. */
    method GuiPrint(outcome: States.PrintOutcome, now: int, lookup: LookupOutcome)
      requires Valid() && state.kind != Waiting
      modifies this, state, state.gui, root
      ensures Valid()
      ensures log == old(log) + [Plain(States.PrintResult(noPrinter, outcome))]
      ensures (state.kind, state.member) ==
        After(old(state.kind), old(state.member), Plain(States.PrintResult(noPrinter, outcome)), lookup)
      ensures saved == old(saved) +
        (if noPrinter then [States.ImageFileName(old(state.member).value.memberNumber, now)] else [])
      ensures !noPrinter && States.PrintErrorMessage(outcome).Some? ==>
        old(state.gui).warnings == old(state.gui.warnings) + [States.PrintErrorMessage(outcome).value]
      ensures busyLog == old(busyLog) && requests == old(requests) && root.cursor == old(root.cursor)
    {
      var event := Plain(PrintingFailed);
      if noPrinter {
        saved := saved + [States.ImageFileName(state.member.value.memberNumber, now)];
        event := Plain(PrintingSucceeded);
        OnEvent(event, lookup);
        return;
      }
      match outcome {
        case Printed =>
          event := Plain(PrintingSucceeded);
        case PrinterErrors(errors) =>
          state.gui.ShowErrorMessage(States.PRINTER_ERROR_PREFIX + Text.Join(errors, ", "));
        case PrinterNotFound =>
          state.gui.ShowErrorMessage(States.PRINTER_NOT_FOUND_MESSAGE);
        case PrinterCrashed =>
          state.gui.ShowErrorMessage(States.UNKNOWN_PRINTER_ERROR_MESSAGE);
      }
      OnEvent(event, lookup);
    }

    method PrintLabel(request: States.LabelRequest, outcome: States.PrintOutcome, now: int, lookup: LookupOutcome)
      requires Valid() && state.kind != Waiting
      modifies this, state, state.gui, root
      ensures Valid()
      ensures log == old(log) + [Plain(States.PrintResult(noPrinter, outcome))]
      ensures (state.kind, state.member) ==
        After(old(state.kind), old(state.member), Plain(States.PrintResult(noPrinter, outcome)), lookup)
      ensures busyLog == old(busyLog) + [true, false] && root.cursor == ""
      ensures requests == old(requests) + [request]
    {
      Busy();
      requests := requests + [request];
      GuiPrint(outcome, now, lookup);
      NotBusy();
    }

    /** gui_callback of the installed state. */
    method GuiCallback(ge: GuiEvent, lookup: LookupOutcome, outcome: States.PrintOutcome, now: int)
      requires Valid()
      modifies this, state, state.gui, root
      ensures Valid()
      ensures var raised := Raised(old(state.kind), ge, noPrinter, outcome);
        log == old(log) + (if raised.Some? then [raised.value] else []) &&
        (state.kind, state.member) ==
          (if raised.Some? then After(old(state.kind), old(state.member), raised.value, lookup)
           else (old(state.kind), old(state.member)))
      ensures Prints(old(state.kind), ge) ==> busyLog == old(busyLog) + [true, false] && root.cursor == ""
      ensures !Prints(old(state.kind), ge) ==> busyLog == old(busyLog) && requests == old(requests)
      ensures old(state.kind) == MemberIdentified && ge.kind == GuiPrintBoxLabel ==>
        requests == old(requests) +
          [States.BoxRequest(old(state.member).value.memberNumber, LegacyMember.GetName(old(state.member).value))]
      ensures old(state.kind) == EditTemporaryStorageLabel && ge.kind == GuiPrintTemporaryStorageLabel ==>
        requests == old(requests) +
          [States.TemporaryStorageRequest(old(state.member).value.memberNumber, LegacyMember.GetName(old(state.member).value), ge.data)]
    {
      match state.kind {
        case Waiting =>
          if ge.kind == GuiLogIn {
            OnEvent(Event(TagRead, ge.data), lookup);
          }
        case EditTemporaryStorageLabel =>
          if ge.kind == GuiCancel {
            OnEvent(Plain(Cancel), lookup);
          } else if ge.kind == GuiTimeoutTimerExpired {
            OnEvent(Plain(LogOut), lookup);
          } else if ge.kind == GuiPrintTemporaryStorageLabel {
            var m := state.member.value;
            PrintLabel(States.TemporaryStorageRequest(m.memberNumber, LegacyMember.GetName(m), ge.data), outcome, now, lookup);
          }
        case MemberIdentified =>
          if ge.kind == GuiDrawStorageLabelGui {
            OnEvent(Plain(PrintTemporaryStorageLabel), lookup);
          } else if ge.kind == GuiLogOut || ge.kind == GuiTimeoutTimerExpired {
            OnEvent(Plain(LogOut), lookup);
          } else if ge.kind == GuiPrintBoxLabel {
            var m := state.member.value;
            PrintLabel(States.BoxRequest(m.memberNumber, LegacyMember.GetName(m)), outcome, now, lookup);
          }
      }
    }
  }
}
