/** The first prototype of the kiosk (main.py): a Waiting state that a member-information
    event moves on, and a MemberIdentified state whose screen is swapped in place for
    the temporary-storage screen. The prototype has no timers and no member lookup;
    labels carry a fixed placeholder member.

    The member-identified GUI callback is modelled twice. CallbackAsWritten and
    Application.GuiCallbackAsWritten follow the code as it stands. Callback and
    Application.GuiCallback are the evidently intended versions (see Findings in
    README.md). */
module Prototype {
  import opened Wrappers
  import opened Events

  /** The member number and name every prototype label is made for. */
  const PLACEHOLDER_NUMBER := "1234"
  const PLACEHOLDER_NAME := "Stockholm Makerspace"

  datatype StateKind = Waiting | MemberIdentified

  /** The screens of src/sms_gui.py. */
  datatype ProtoScreen = StartScreen | MemberInformationScreen | TemporaryStorageScreen

  datatype Step = Stay | Enter(kind: StateKind)

  /** on_event of the two states. */
  function Transition(kind: StateKind, ev: Event): Step {
    match kind
    case Waiting => if ev.kind == MemberInformationReceived then Enter(MemberIdentified) else Stay
    case MemberIdentified => if ev.kind == LogOut then Enter(Waiting) else Stay
  }

  function After(kind: StateKind, ev: Event): StateKind {
    match Transition(kind, ev)
    case Stay => kind
    case Enter(k) => k
  }

  /** The screen a freshly built state draws. */
  function InitialScreen(kind: StateKind): ProtoScreen {
    match kind
    case Waiting => StartScreen
    case MemberIdentified => MemberInformationScreen
  }

  /** Waiting leaves only on a member-information event; a read tag keeps it. */
  lemma WaitingTransitions(ev: Event)
    ensures Transition(Waiting, ev) == Enter(MemberIdentified) <==> ev.kind == MemberInformationReceived
    ensures Transition(Waiting, ev) == Stay <==> ev.kind != MemberInformationReceived
    ensures ev.kind == TagRead ==> Transition(Waiting, ev) == Stay
  {
  }

  /** MemberIdentified leaves only on log-out; the temporary-storage event keeps it. */
  lemma MemberIdentifiedTransitions(ev: Event)
    ensures Transition(MemberIdentified, ev) == Enter(Waiting) <==> ev.kind == LogOut
    ensures Transition(MemberIdentified, ev) == Stay <==> ev.kind != LogOut
    ensures ev.kind == PrintTemporaryStorageLabel ==> Transition(MemberIdentified, ev) == Stay
  {
  }

  /** The state after a sequence of events. */
  function Run(kind: StateKind, events: seq<Event>): StateKind
    decreases |events|
  {
    if events == [] then kind else Run(After(kind, events[0]), events[1..])
  }

  /** Without a member-information event the prototype never identifies anybody,
      however many tags are read. */
  lemma {:induction false} NoInformationStaysWaiting(events: seq<Event>)
    requires forall i :: 0 <= i < |events| ==> events[i].kind != MemberInformationReceived
    ensures Run(Waiting, events) == Waiting
    decreases |events|
  {
    if events != [] {
      WaitingTransitions(events[0]);
      NoInformationStaysWaiting(events[1..]);
    }
  }

  /** Without a log-out event an identified member stays identified. */
  lemma {:induction false} NoLogOutStaysIdentified(events: seq<Event>)
    requires forall i :: 0 <= i < |events| ==> events[i].kind != LogOut
    ensures Run(MemberIdentified, events) == MemberIdentified
    decreases |events|
  {
    if events != [] {
      MemberIdentifiedTransitions(events[0]);
      NoLogOutStaysIdentified(events[1..]);
    }
  }

  /** The labels the prototype can hand to the printer. */
  datatype ProtoLabel =
    | BoxLabel(memberNumber: string, name: string)
    | TemporaryStorageLabel(memberNumber: string, name: string, description: Option<string>)

  /** What MemberIdentified.gui_callback does with a GUI event: pass an event on to
      the application, enter the busy-bracketed print branch (with the label it hands
      to the printer, if any), or nothing. */
  datatype Reaction = Forward(event: Event) | PrintBranch(made: Option<ProtoLabel>) | Ignore

  /** The callback as written. The print-branch test `event == PRINT_BOX_LABEL or
      PRINT_TEMPORARY_STORAGE_LABEL` is true for every event, and the test for the
      temporary-storage label names a GuiEvent attribute that does not exist, so it
      raises, and the bare except swallows it before any label is made. */
  function CallbackAsWritten(ge: GuiEvent): Reaction {
    if ge.kind == GuiDrawStorageLabelGui then Forward(Plain(PrintTemporaryStorageLabel))
    else if ge.kind == GuiLogOut then Forward(Plain(LogOut))
    else if ge.kind == GuiPrintBoxLabel then PrintBranch(Some(BoxLabel(PLACEHOLDER_NUMBER, PLACEHOLDER_NAME)))
    else PrintBranch(None)
  }

  /** The callback as evidently intended: only the two print events enter the print
      branch, and each prints its own label, the temporary-storage one with the
      description the screen sent. */
  function Callback(ge: GuiEvent): Reaction {
    if ge.kind == GuiDrawStorageLabelGui then Forward(Plain(PrintTemporaryStorageLabel))
    else if ge.kind == GuiLogOut then Forward(Plain(LogOut))
    else if ge.kind == GuiPrintBoxLabel then PrintBranch(Some(BoxLabel(PLACEHOLDER_NUMBER, PLACEHOLDER_NAME)))
    else if ge.kind == GuiPrintTemporaryStorageLabel then
      PrintBranch(Some(TemporaryStorageLabel(PLACEHOLDER_NUMBER, PLACEHOLDER_NAME, ge.data)))
    else Ignore
  }

  /** As written, the cancel button of the temporary-storage screen enters the print
      branch: the cursor goes busy and back although nothing is printed. */
  lemma CancelEntersPrintBranch()
    ensures CallbackAsWritten(GuiEvent(GuiCancel, None)) == PrintBranch(None)
    ensures Callback(GuiEvent(GuiCancel, None)) == Ignore
  {
  }

  /** As written, no event ever makes a temporary-storage label: pressing Print on the
      temporary-storage screen goes busy and back with nothing printed. */
  lemma TemporaryStorageNeverPrinted(ge: GuiEvent)
    ensures CallbackAsWritten(ge) != PrintBranch(Some(TemporaryStorageLabel(PLACEHOLDER_NUMBER, PLACEHOLDER_NAME, ge.data)))
    ensures CallbackAsWritten(GuiEvent(GuiPrintTemporaryStorageLabel, Some("drill"))) == PrintBranch(None)
    ensures Callback(GuiEvent(GuiPrintTemporaryStorageLabel, Some("drill"))) ==
      PrintBranch(Some(TemporaryStorageLabel(PLACEHOLDER_NUMBER, PLACEHOLDER_NAME, Some("drill"))))
  {
  }

  /** The intended callback enters the print branch exactly for the two print events,
      always with a label of the kind the event asks for, and forwards exactly the
      draw and log-out events. */
  lemma CallbackPrintsExactlyPrintEvents(ge: GuiEvent)
    ensures Callback(ge).PrintBranch? <==> ge.kind == GuiPrintBoxLabel || ge.kind == GuiPrintTemporaryStorageLabel
    ensures Callback(ge).PrintBranch? ==> Callback(ge).made.Some?
    ensures Callback(ge) == PrintBranch(Some(BoxLabel(PLACEHOLDER_NUMBER, PLACEHOLDER_NAME))) <==> ge.kind == GuiPrintBoxLabel
    ensures Callback(ge).PrintBranch? && Callback(ge).made.value.TemporaryStorageLabel? ==>
      Callback(ge).made.value.description == ge.data
    ensures Callback(ge).Forward? <==> ge.kind == GuiDrawStorageLabelGui || ge.kind == GuiLogOut
  {
  }

  /** The correction changes nothing for the draw, log-out and box events. */
  lemma CallbackAgreesOnOtherEvents(ge: GuiEvent)
    requires ge.kind in {GuiDrawStorageLabelGui, GuiLogOut, GuiPrintBoxLabel}
    ensures Callback(ge) == CallbackAsWritten(ge)
  {
  }

  /** The Tk root, as far as busy/notbusy change it. */
  class Root {
    var cursor: string

    constructor()
      ensures cursor == ""
    {
      cursor := "";
    }
  }

  class State {
    const kind: StateKind
    var screen: ProtoScreen
    var progressBarRunning: bool

    constructor(kind: StateKind)
      ensures this.kind == kind && screen == InitialScreen(kind) && !progressBarRunning
    {
      this.kind := kind;
      screen := InitialScreen(kind);
      progressBarRunning := false;
    }

    /** on_event: Waiting starts the progress bar for a read tag or member information;
        MemberIdentified swaps its screen for the temporary-storage one and stays. */
    method OnEvent(ev: Event) returns (next: State)
      modifies this
      ensures Transition(kind, ev).Stay? ==> next == this
      ensures Transition(kind, ev).Enter? ==>
        fresh(next) && next.kind == Transition(kind, ev).kind &&
        next.screen == InitialScreen(next.kind) && !next.progressBarRunning
      ensures progressBarRunning <==>
        old(progressBarRunning) || (kind == Waiting && ev.kind in {TagRead, MemberInformationReceived})
      ensures screen ==
        (if kind == MemberIdentified && ev.kind == PrintTemporaryStorageLabel then TemporaryStorageScreen
         else old(screen))
    {
      next := this;
      match kind {
        case Waiting =>
          if ev.kind == TagRead {
            progressBarRunning := true;
          } else if ev.kind == MemberInformationReceived {
            progressBarRunning := true;
            next := new State(MemberIdentified);
          }
        case MemberIdentified =>
          if ev.kind == LogOut {
            next := new State(Waiting);
          } else if ev.kind == PrintTemporaryStorageLabel {
            screen := TemporaryStorageScreen;
          }
      }
    }
  }

  class Application {
    const root: Root
    var state: State
    var log: seq<Event>
    /** The cursor changes, true for busy and false for notbusy, in order. */
    var busyLog: seq<bool>
    /** The labels handed to the printer, in order. */
    var printed: seq<ProtoLabel>

    constructor(root: Root)
      ensures this.root == root && state.kind == Waiting && state.screen == StartScreen
      ensures log == [] && busyLog == [] && printed == []
    {
      this.root := root;
      state := new State(Waiting);
      log := [];
      busyLog := [];
      printed := [];
    }

    method Busy()
      modifies this, root
      ensures root.cursor == "watch" && busyLog == old(busyLog) + [true]
      ensures state == old(state) && log == old(log) && printed == old(printed)
    {
      root.cursor := "watch";
      busyLog := busyLog + [true];
    }

    method NotBusy()
      modifies this, root
      ensures root.cursor == "" && busyLog == old(busyLog) + [false]
      ensures state == old(state) && log == old(log) && printed == old(printed)
    {
      root.cursor := "";
      busyLog := busyLog + [false];
    }

    /** on_event: whatever the state returns is installed. */
    method OnEvent(ev: Event)
      modifies this, state
      ensures state.kind == After(old(state.kind), ev) && log == old(log) + [ev]
      ensures Transition(old(state.kind), ev).Stay? ==> state == old(state)
      ensures Transition(old(state.kind), ev).Enter? ==> fresh(state)
      ensures busyLog == old(busyLog) && printed == old(printed)
    {
      log := log + [ev];
      state := state.OnEvent(ev);
    }

    /** The print branch: busy, the label (if one was made) to the printer, and
        notbusy in `finally`. The printer's status is only logged. */
    method RunPrintBranch(made: Option<ProtoLabel>)
      modifies this, root
      ensures busyLog == old(busyLog) + [true, false] && root.cursor == ""
      ensures printed == old(printed) + (if made.Some? then [made.value] else [])
      ensures state == old(state) && log == old(log)
    {
      Busy();
      if made.Some? {
        printed := printed + [made.value];
      }
      NotBusy();
    }

    /** MemberIdentified.gui_callback as written; Waiting's screen has no callback. */
    method GuiCallbackAsWritten(ge: GuiEvent)
      modifies this, state, root
      ensures old(state.kind) == Waiting ==>
        state == old(state) && log == old(log) && busyLog == old(busyLog) && printed == old(printed)
      ensures old(state.kind) == MemberIdentified ==> match CallbackAsWritten(ge)
        case Forward(ev) =>
          log == old(log) + [ev] && state.kind == After(MemberIdentified, ev) &&
          busyLog == old(busyLog) && printed == old(printed)
        case PrintBranch(made) =>
          busyLog == old(busyLog) + [true, false] && root.cursor == "" &&
          printed == old(printed) + (if made.Some? then [made.value] else []) &&
          state == old(state) && log == old(log)
        case Ignore => false
    {
      if state.kind == MemberIdentified {
        if ge.kind == GuiDrawStorageLabelGui {
          OnEvent(Plain(PrintTemporaryStorageLabel));
        } else if ge.kind == GuiLogOut {
          OnEvent(Plain(LogOut));
        } else {
          var made: Option<ProtoLabel> := None;
          if ge.kind == GuiPrintBoxLabel {
            made := Some(BoxLabel(PLACEHOLDER_NUMBER, PLACEHOLDER_NAME));
          }
          RunPrintBranch(made);
        }
      }
    }

    /** MemberIdentified.gui_callback as evidently intended. */
    method GuiCallback(ge: GuiEvent)
      modifies this, state, root
      ensures old(state.kind) == Waiting ==>
        state == old(state) && log == old(log) && busyLog == old(busyLog) && printed == old(printed)
      ensures old(state.kind) == MemberIdentified ==> match Callback(ge)
        case Forward(ev) =>
          log == old(log) + [ev] && state.kind == After(MemberIdentified, ev) &&
          busyLog == old(busyLog) && printed == old(printed)
        case PrintBranch(made) =>
          busyLog == old(busyLog) + [true, false] && root.cursor == "" &&
          printed == old(printed) + (if made.Some? then [made.value] else []) &&
          state == old(state) && log == old(log)
        case Ignore =>
          state == old(state) && log == old(log) && busyLog == old(busyLog) && printed == old(printed)
    {
      if state.kind == MemberIdentified {
        if ge.kind == GuiDrawStorageLabelGui {
          OnEvent(Plain(PrintTemporaryStorageLabel));
        } else if ge.kind == GuiLogOut {
          OnEvent(Plain(LogOut));
        } else if ge.kind == GuiPrintBoxLabel {
          RunPrintBranch(Some(BoxLabel(PLACEHOLDER_NUMBER, PLACEHOLDER_NAME)));
        } else if ge.kind == GuiPrintTemporaryStorageLabel {
          RunPrintBranch(Some(TemporaryStorageLabel(PLACEHOLDER_NUMBER, PLACEHOLDER_NAME, ge.data)));
        }
      }
    }
  }
}
