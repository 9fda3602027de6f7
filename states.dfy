/** The kiosk's state machine (src/gui/states.py). Three states: waiting for a tag,
    a member identified, and editing a temporary-storage label. Each state draws its
    screen when it is created. `on_event` returns the state itself or a new one; a new
    one makes the old state cancel its screen's inactivity timer and drop its screen.
    The application installs whatever `on_event` returns. The member lookup and the
    printer are collaborators whose outcomes are inputs. */
module States {
  import opened Wrappers
  import opened Text
  import opened Events
  import opened Design
  import Backend
  import KeyReader

  type Member = Backend.Member

  const NO_MEMBER_MESSAGE := "Could not find a member that matches the specific tag"
  const LOOKUP_ERROR_PREFIX := "Error... \n"
  const PRINTER_ERROR_PREFIX := "Printer reported error: "
  const PRINTER_NOT_FOUND_MESSAGE :=
    "Printer not found, ensure that printer is connected and turned on. Also ensure that the \"Editor Line\" function is disabled."
  const UNKNOWN_PRINTER_ERROR_MESSAGE := "Unknow printer error occured!"
  const TAG_LENGTH: nat := 9

  /** tag_verifier: re.search with '^[0-9]{9}$'. The match is anchored at the start;
      `$` matches at the end or just before a final newline. */
  predicate TagVerifier(tag: string) {
    (|tag| == TAG_LENGTH || (|tag| == TAG_LENGTH + 1 && tag[TAG_LENGTH] == '\n')) &&
    forall i | 0 <= i < TAG_LENGTH :: IsAsciiDigit(tag[i])
  }

  const VERIFY_TAG: string -> bool := (tag: string) => TagVerifier(tag)
  /** The member and label screens read no tags. */
  const NO_TAGS: string -> bool := (tag: string) => false

  /** Exactly nine digits pass; so do nine digits and one newline, and nothing else. */
  lemma TagVerifierExactly(tag: string)
    ensures TagVerifier(tag) <==>
      (|tag| == TAG_LENGTH && AllAsciiDigits(tag)) ||
      (|tag| == TAG_LENGTH + 1 && AllAsciiDigits(tag[..TAG_LENGTH]) && tag[TAG_LENGTH] == '\n')
  {
    if |tag| >= TAG_LENGTH {
      assert forall i | 0 <= i < TAG_LENGTH :: tag[..TAG_LENGTH][i] == tag[i];
    }
  }

  /** The Aptus id the key reader produces always passes the verifier. */
  lemma AptusTagIdAccepted(readout: string)
    requires KeyReader.IsTagReadout(readout)
    ensures TagVerifier(KeyReader.AptusTagId(readout))
  {
  }

  /** What the tag entry forwards after filtering passes exactly when it is nine
      digits long. */
  lemma FilteredEntryAccepted(entry: string)
    ensures TagVerifier(KeepDigits(entry)) <==> |KeepDigits(entry)| == TAG_LENGTH
  {
  }

  /** What Member.from_tagid does for the tag: a member, NoMatchingTagId, or another
      exception with its message. */
  datatype LookupOutcome = Found(member: Member) | NoMatchingTag | LookupFailed(message: string)

  /** What printing does: did_print, did_print false with the printer's error list,
      ValueError (no printer), or any other exception. */
  datatype PrintOutcome = Printed | PrinterErrors(errors: seq<string>) | PrinterNotFound | PrinterCrashed

  /** The label a print callback asks of the label creator. */
  datatype LabelRequest =
    | TemporaryStorageRequest(memberNumber: int, name: string, description: Option<string>)
    | BoxRequest(memberNumber: int, name: string)

  datatype StateKind = Waiting | MemberIdentified | EditTemporaryStorageLabel

  /** on_event's answer: the same state object, or a new state of this kind and member. */
  datatype Step = Stay | Enter(kind: StateKind, member: Option<Member>)

  function ScreenOf(kind: StateKind): Screen {
    match kind
    case Waiting => StartScreen
    case MemberIdentified => MemberInformationScreen
    case EditTemporaryStorageLabel => TemporaryStorageScreen
  }

  /** The three on_event methods. */
  function Transition(kind: StateKind, member: Option<Member>, ev: Event, lookup: LookupOutcome): Step {
    match kind
    case Waiting =>
      if ev.kind == TagRead && lookup.Found? then Enter(MemberIdentified, Some(lookup.member)) else Stay
    case MemberIdentified =>
      if ev.kind == LogOut then Enter(Waiting, None)
      else if ev.kind == PrintTemporaryStorageLabel then Enter(EditTemporaryStorageLabel, member)
      else Stay
    case EditTemporaryStorageLabel =>
      if ev.kind == Cancel || ev.kind == PrintingSucceeded then Enter(MemberIdentified, member)
      else if ev.kind == LogOut then Enter(Waiting, None)
      else Stay
  }

  /** The kind and member of the installed state after an event. */
  function After(kind: StateKind, member: Option<Member>, ev: Event, lookup: LookupOutcome): (StateKind, Option<Member>) {
    match Transition(kind, member, ev, lookup)
    case Stay => (kind, member)
    case Enter(k, m) => (k, m)
  }

  /** A member screen or a label screen always has a member. */
  predicate Consistent(kind: StateKind, member: Option<Member>) {
    kind != Waiting ==> member.Some?
  }

  /** The event that gui_print passes on: success exactly when there is no printer or
      the printer printed. */
  function PrintResult(noPrinter: bool, outcome: PrintOutcome): EventKind {
    if noPrinter || outcome.Printed? then PrintingSucceeded else PrintingFailed
  }

  /** The GUI events whose callback prints a label. */
  predicate Prints(kind: StateKind, ge: GuiEvent) {
    (kind == MemberIdentified && ge.kind == GuiPrintBoxLabel) ||
    (kind == EditTemporaryStorageLabel && ge.kind == GuiPrintTemporaryStorageLabel)
  }

  /** The three gui_callback methods: the one event each passes to the application,
      if any. A print callback passes the printing result. */
  function Raised(kind: StateKind, ge: GuiEvent, noPrinter: bool, outcome: PrintOutcome): Option<Event> {
    match kind
    case Waiting =>
      if ge.kind == GuiTagRead then Some(Event(TagRead, ge.data)) else None
    case MemberIdentified =>
      if ge.kind == GuiDrawStorageLabelGui then Some(Plain(PrintTemporaryStorageLabel))
      else if ge.kind == GuiLogOut || ge.kind == GuiTimeoutTimerExpired then Some(Plain(LogOut))
      else if ge.kind == GuiPrintBoxLabel then Some(Plain(PrintResult(noPrinter, outcome)))
      else None
    case EditTemporaryStorageLabel =>
      if ge.kind == GuiCancel then Some(Plain(Cancel))
      else if ge.kind == GuiTimeoutTimerExpired then Some(Plain(LogOut))
      else if ge.kind == GuiPrintTemporaryStorageLabel then Some(Plain(PrintResult(noPrinter, outcome)))
      else None
  }

  /** The message a failed print shows, if any. */
  function PrintErrorMessage(outcome: PrintOutcome): Option<string> {
    match outcome
    case Printed => None
    case PrinterErrors(errors) => Some(PRINTER_ERROR_PREFIX + Join(errors, ", "))
    case PrinterNotFound => Some(PRINTER_NOT_FOUND_MESSAGE)
    case PrinterCrashed => Some(UNKNOWN_PRINTER_ERROR_MESSAGE)
  }

  /** The file the label image is saved to when there is no printer. */
  function ImageFileName(memberNumber: int, now: int): string {
    IntToString(memberNumber) + "_" + IntToString(now) + ".png"
  }

  /** Every transition keeps a member on the member and label screens. */
  lemma TransitionConsistent(kind: StateKind, member: Option<Member>, ev: Event, lookup: LookupOutcome)
    requires Consistent(kind, member)
    ensures Consistent(After(kind, member, ev, lookup).0, After(kind, member, ev, lookup).1)
  {
  }

  /** In Waiting only a tag whose lookup finds a member moves on, and it moves on to
      exactly that member; a failed lookup or any other event keeps the state. */
  lemma WaitingTransitions(member: Option<Member>, ev: Event, lookup: LookupOutcome)
    ensures Transition(Waiting, member, ev, lookup).Enter? <==> ev.kind == TagRead && lookup.Found?
    ensures Transition(Waiting, member, ev, lookup).Enter? ==>
      Transition(Waiting, member, ev, lookup) == Enter(MemberIdentified, Some(lookup.member))
  {
  }

  /** The member screen leaves on a log-out (to Waiting without a member) and on a
      storage-label request (to the label screen, same member), and on nothing else. */
  lemma MemberIdentifiedTransitions(member: Option<Member>, ev: Event, lookup: LookupOutcome)
    ensures ev.kind == LogOut ==> Transition(MemberIdentified, member, ev, lookup) == Enter(Waiting, None)
    ensures ev.kind == PrintTemporaryStorageLabel ==>
      Transition(MemberIdentified, member, ev, lookup) == Enter(EditTemporaryStorageLabel, member)
    ensures ev.kind != LogOut && ev.kind != PrintTemporaryStorageLabel ==>
      Transition(MemberIdentified, member, ev, lookup) == Stay
  {
  }

  /** The label screen goes back to the member on cancel or a successful print, to
      Waiting on a log-out, and stays otherwise, a failed print included. */
  lemma EditTransitions(member: Option<Member>, ev: Event, lookup: LookupOutcome)
    ensures ev.kind == Cancel || ev.kind == PrintingSucceeded ==>
      Transition(EditTemporaryStorageLabel, member, ev, lookup) == Enter(MemberIdentified, member)
    ensures ev.kind == LogOut ==> Transition(EditTemporaryStorageLabel, member, ev, lookup) == Enter(Waiting, None)
    ensures ev.kind == PrintingFailed ==> Transition(EditTemporaryStorageLabel, member, ev, lookup) == Stay
  {
  }

  /** A GUI timeout or log-out button on a member or label screen ends in Waiting
      with no member. */
  lemma TimeoutLogsOut(kind: StateKind, member: Option<Member>, ge: GuiEvent, noPrinter: bool, outcome: PrintOutcome, lookup: LookupOutcome)
    requires kind != Waiting
    requires ge.kind == GuiTimeoutTimerExpired || (kind == MemberIdentified && ge.kind == GuiLogOut)
    ensures Raised(kind, ge, noPrinter, outcome) == Some(Plain(LogOut))
    ensures After(kind, member, Raised(kind, ge, noPrinter, outcome).value, lookup) == (Waiting, None)
  {
  }

  /** Printing from the label screen goes back to the member exactly when it
      succeeded; printing a box label never leaves the member screen. */
  lemma PrintingOutcomes(member: Option<Member>, ge: GuiEvent, noPrinter: bool, outcome: PrintOutcome, lookup: LookupOutcome)
    ensures ge.kind == GuiPrintTemporaryStorageLabel ==>
      After(EditTemporaryStorageLabel, member, Raised(EditTemporaryStorageLabel, ge, noPrinter, outcome).value, lookup) ==
      (if noPrinter || outcome.Printed? then (MemberIdentified, member) else (EditTemporaryStorageLabel, member))
    ensures ge.kind == GuiPrintBoxLabel ==>
      After(MemberIdentified, member, Raised(MemberIdentified, ge, noPrinter, outcome).value, lookup) ==
      (MemberIdentified, member)
  {
  }

  /** A sequence of events, each with the lookup outcome it would meet. */
  function Run(kind: StateKind, member: Option<Member>, events: seq<Event>, lookups: seq<LookupOutcome>): (StateKind, Option<Member>)
    requires |lookups| == |events|
    decreases |events|
  {
    if events == [] then (kind, member)
    else
      var (k, m) := After(kind, member, events[0], lookups[0]);
      Run(k, m, events[1..], lookups[1..])
  }

  /** Whatever happens, the member and label screens always have a member. */
  lemma {:induction false} RunConsistent(kind: StateKind, member: Option<Member>, events: seq<Event>, lookups: seq<LookupOutcome>)
    requires |lookups| == |events| && Consistent(kind, member)
    ensures Consistent(Run(kind, member, events, lookups).0, Run(kind, member, events, lookups).1)
    decreases |events|
  {
    if events != [] {
      TransitionConsistent(kind, member, events[0], lookups[0]);
      var (k, m) := After(kind, member, events[0], lookups[0]);
      RunConsistent(k, m, events[1..], lookups[1..]);
    }
  }

  /** The member a run ends with is the one it started with or one a tag lookup
      found along the way. */
  lemma {:induction false} RunMemberOrigin(kind: StateKind, member: Option<Member>, events: seq<Event>, lookups: seq<LookupOutcome>)
    requires |lookups| == |events|
    ensures var (k, m) := Run(kind, member, events, lookups);
      m.None? || m == member ||
      exists i | 0 <= i < |events| :: events[i].kind == TagRead && lookups[i] == Found(m.value)
    decreases |events|
  {
    if events != [] {
      var (k1, m1) := After(kind, member, events[0], lookups[0]);
      RunMemberOrigin(k1, m1, events[1..], lookups[1..]);
      var (k, m) := Run(kind, member, events, lookups);
      assert (k, m) == Run(k1, m1, events[1..], lookups[1..]);
      if m.Some? && m != member && m != m1 {
        var i :| 0 <= i < |events[1..]| && events[1..][i].kind == TagRead && lookups[1..][i] == Found(m.value);
        assert events[i + 1].kind == TagRead && lookups[i + 1] == Found(m.value);
      } else if m.Some? && m != member {
        assert m == m1 && m1 != member;
        assert events[0].kind == TagRead && lookups[0] == Found(m.value);
      }
    }
  }

  /** Without a successful lookup the kiosk can never leave Waiting. */
  lemma {:induction false} NoLookupStaysWaiting(member: Option<Member>, events: seq<Event>, lookups: seq<LookupOutcome>)
    requires |lookups| == |events|
    requires forall i | 0 <= i < |events| :: !lookups[i].Found?
    ensures Run(Waiting, member, events, lookups) == (Waiting, member)
    decreases |events|
  {
    if events != [] {
      assert !lookups[0].Found?;
      NoLookupStaysWaiting(member, events[1..], lookups[1..]);
    }
  }

  /** No inactivity timer is pending except the one at `timer`. */
  ghost predicate SoleTimer(master: Master, timer: nat)
    reads master
  {
    forall h | h in master.pending && master.pending[h].kind == TimeoutJob :: h == timer
  }

  /** A state object (State and its three subclasses). */
  class State {
    const kind: StateKind
    const master: Master
    var member: Option<Member>
    var gui: Gui?

    /** The screen is drawn, its timer armed and no other timer pending. */
    ghost predicate Ready()
      reads this, gui, master
    {
      gui != null && gui.master == master && gui.Valid() && gui.screen == ScreenOf(kind) &&
      (kind == Waiting ==> gui.verifyTag == VERIFY_TAG) &&
      Consistent(kind, member) && SoleTimer(master, gui.timer)
    }

    /** Creating a state draws its screen, which arms a new timer. */
    constructor(kind: StateKind, master: Master, member: Option<Member>)
      requires master.Valid()
      modifies master
      ensures this.kind == kind && this.master == master && this.member == member
      ensures fresh(gui) && gui.master == master && gui.Valid() && gui.screen == ScreenOf(kind)
      ensures kind == Waiting ==> gui.verifyTag == VERIFY_TAG
      ensures gui.timer !in old(master.pending) && gui.id == old(master.nextScreen)
      ensures master.pending == old(master.pending)[gui.timer := Job(TimeoutJob, gui.id, TIMEOUT_TIMER_PERIOD_MS)]
      ensures master.idle == old(master.idle) && master.cursor == old(master.cursor)
      ensures master.nextHandle == old(master.nextHandle) + 1 && master.nextScreen == old(master.nextScreen) + 1
      ensures gui.tagEntry == "" && gui.errorText == "" && !gui.progressBarRunning && gui.warnings == []
    {
      var g := new Gui(master, ScreenOf(kind), if kind == Waiting then VERIFY_TAG else NO_TAGS, None);
      this.kind := kind;
      this.master := master;
      this.member := member;
      gui := g;
    }

    /** change_state: the timer is cancelled and the screen dropped. */
    method ChangeState()
      requires gui != null && gui.master == master && gui.Valid()
      modifies this, master
      ensures gui == null && member == old(member)
      ensures master.pending == old(master.pending) - {old(gui).timer}
      ensures old(gui).TimerStopped() && master.Valid()
      ensures master.nextHandle == old(master.nextHandle) && master.nextScreen == old(master.nextScreen)
      ensures master.idle == old(master.idle) && master.cursor == old(master.cursor)
    {
      gui.TimeoutTimerCancel();
      gui := null;
    }

    /** Creates the state on_event returns and, since it is not this one, runs
        change_state: the new screen's timer is the only one left pending. */
    method MoveTo(kind': StateKind, member': Option<Member>) returns (next: State)
      requires Ready() && Consistent(kind', member')
      modifies this, master
      ensures fresh(next) && fresh(next.gui) && next.master == master && next.Ready()
      ensures next.kind == kind' && next.member == member'
      ensures gui == null && member == old(member) && old(gui).TimerStopped()
      ensures old(gui).warnings == old(gui.warnings)
      ensures master.idle == old(master.idle) && master.cursor == old(master.cursor)
    {
      next := new State(kind', master, member');
      var g := next.gui;
      assert g.id != gui.id;
      var job := master.pending[g.timer];
      AtMostAtOther(old(master.pending), gui.id, TimeoutJob, Some(gui.timer), TIMEOUT_TIMER_PERIOD_MS, g.timer, job);
      AtMostAtOther(old(master.pending), gui.id, ClearTagEntryJob, gui.debouncer, gui.debounceTime, g.timer, job);
      AtMostAtOther(old(master.pending), gui.id, ClearErrorMessageJob, gui.errorDebouncer, ERROR_MESSAGE_CLEAR_MS, g.timer, job);
      ghost var before := master.pending;
      ChangeState();
      AtMostAtRemove(before, g.id, TimeoutJob, Some(g.timer), TIMEOUT_TIMER_PERIOD_MS, old(gui).timer);
      AtMostAtRemove(before, g.id, ClearTagEntryJob, None, g.debounceTime, old(gui).timer);
      AtMostAtRemove(before, g.id, ClearErrorMessageJob, None, ERROR_MESSAGE_CLEAR_MS, old(gui).timer);
    }

    /** The handlers of a tag lookup that gives no member: the error line shows why, the
        entry is emptied and the progress bar stopped. */
    method RefuseTag(lookup: LookupOutcome)
      requires Ready() && kind == Waiting && !lookup.Found?
      modifies gui, master
      ensures Ready()
      ensures gui.errorText == (if lookup.NoMatchingTag? then NO_MEMBER_MESSAGE else LOOKUP_ERROR_PREFIX + lookup.message)
      ensures gui.tagEntry == "" && !gui.progressBarRunning
      ensures gui.errorDebouncer.Some? && gui.errorDebouncer.value !in old(master.pending) &&
        master.pending == (old(master.pending) - (if old(gui.errorDebouncer).Some? then {old(gui.errorDebouncer).value} else {}))
                            [gui.errorDebouncer.value := Job(ClearErrorMessageJob, gui.id, ERROR_MESSAGE_CLEAR_MS)]
      ensures gui.timer == old(gui.timer) && gui.debouncer == old(gui.debouncer) && gui.warnings == old(gui.warnings)
      ensures gui.textBox == old(gui.textBox) && gui.placeholderShown == old(gui.placeholderShown)
      ensures gui.counterText == old(gui.counterText)
      ensures master.idle == old(master.idle) && master.cursor == old(master.cursor)
    {
      match lookup {
        case NoMatchingTag =>
          gui.ResetGui();
          gui.ShowErrorMessage(NO_MEMBER_MESSAGE);
        case LookupFailed(message) =>
          gui.ShowErrorMessage(LOOKUP_ERROR_PREFIX + message);
          gui.ResetGui();
      }
    }

    /** on_event. */
    method OnEvent(ev: Event, lookup: LookupOutcome) returns (next: State)
      requires Ready()
      modifies this, gui, master
      ensures Transition(kind, old(member), ev, lookup).Stay? ==> next == this && gui == old(gui) && Ready()
      ensures Transition(kind, old(member), ev, lookup).Enter? ==>
        fresh(next) && fresh(next.gui) && next.master == master && next.Ready() &&
        next.kind == Transition(kind, old(member), ev, lookup).kind &&
        next.member == Transition(kind, old(member), ev, lookup).member &&
        gui == null && old(gui).TimerStopped()
      ensures kind == Waiting && ev.kind == TagRead ==>
        match lookup
        case Found(m) => member == Some(m)
        case NoMatchingTag =>
          member == old(member) && gui.tagEntry == "" && !gui.progressBarRunning && gui.errorText == NO_MEMBER_MESSAGE
        case LookupFailed(message) =>
          member == old(member) && gui.tagEntry == "" && !gui.progressBarRunning &&
          gui.errorText == LOOKUP_ERROR_PREFIX + message
      ensures !(kind == Waiting && ev.kind == TagRead) ==> member == old(member)
      ensures Transition(kind, old(member), ev, lookup).Stay? && !(kind == Waiting && ev.kind == TagRead) ==>
        master.pending == old(master.pending) && master.nextHandle == old(master.nextHandle) &&
        master.nextScreen == old(master.nextScreen) && gui.timer == old(gui.timer) &&
        gui.tagEntry == old(gui.tagEntry) && gui.debouncer == old(gui.debouncer) &&
        gui.errorText == old(gui.errorText) && gui.errorDebouncer == old(gui.errorDebouncer) &&
        gui.progressBarRunning == old(gui.progressBarRunning) && gui.warnings == old(gui.warnings) &&
        gui.textBox == old(gui.textBox) && gui.placeholderShown == old(gui.placeholderShown) &&
        gui.counterText == old(gui.counterText)
      ensures kind == Waiting && ev.kind == TagRead && !lookup.Found? ==>
        gui.errorDebouncer.Some? && gui.errorDebouncer.value !in old(master.pending) &&
        master.pending == (old(master.pending) - (if old(gui.errorDebouncer).Some? then {old(gui.errorDebouncer).value} else {}))
                            [gui.errorDebouncer.value := Job(ClearErrorMessageJob, gui.id, ERROR_MESSAGE_CLEAR_MS)] &&
        gui.timer == old(gui.timer) && gui.debouncer == old(gui.debouncer) && gui.warnings == old(gui.warnings) &&
        gui.textBox == old(gui.textBox) && gui.placeholderShown == old(gui.placeholderShown) &&
        gui.counterText == old(gui.counterText)
      ensures master.idle == old(master.idle) && master.cursor == old(master.cursor)
      ensures old(gui).warnings == old(gui.warnings)
    {
      next := this;
      match kind {
        case Waiting =>
          if ev.kind == TagRead {
            gui.StartProgressBar();
            match lookup {
              case Found(m) =>
                member := Some(m);
                next := MoveTo(MemberIdentified, member);
              case _ =>
                RefuseTag(lookup);
            }
          }
        case EditTemporaryStorageLabel =>
          if ev.kind == Cancel || ev.kind == PrintingSucceeded {
            next := MoveTo(MemberIdentified, member);
          } else if ev.kind == LogOut {
            next := MoveTo(Waiting, None);
          }
        case MemberIdentified =>
          if ev.kind == LogOut {
            next := MoveTo(Waiting, None);
          } else if ev.kind == PrintTemporaryStorageLabel {
            next := MoveTo(EditTemporaryStorageLabel, member);
          }
      }
    }
  }

  /** The application: the Tk root, the installed state, and the record of what the
      collaborators were asked to do. `log` holds the events passed to on_event, in
      order; `busyLog` the busy (true) and notbusy (false) calls. */
  class Application {
    const master: Master
    /** config.no_printer */
    const noPrinter: bool
    var state: State
    var log: seq<Event>
    var busyLog: seq<bool>
    var requests: seq<LabelRequest>
    var saved: seq<string>

    ghost predicate Valid()
      reads this, state, state.gui, master
    {
      state.master == master && state.Ready()
    }

    /** Starts in Waiting on a fresh Tk root. */
    constructor(master: Master, noPrinter: bool)
      requires master.Valid() && master.pending == map[]
      modifies master
      ensures Valid() && this.master == master && this.noPrinter == noPrinter
      ensures state.kind == Waiting && state.member == None && fresh(state)
      ensures log == [] && busyLog == [] && requests == [] && saved == []
    {
      this.master := master;
      this.noPrinter := noPrinter;
      state := new State(Waiting, master, None);
      log := [];
      busyLog := [];
      requests := [];
      saved := [];
    }

    method Busy()
      modifies this, master
      ensures master.cursor == "watch" && busyLog == old(busyLog) + [true]
      ensures state == old(state) && log == old(log) && requests == old(requests) && saved == old(saved)
      ensures master.pending == old(master.pending) && master.nextHandle == old(master.nextHandle)
      ensures master.nextScreen == old(master.nextScreen) && master.idle == old(master.idle)
    {
      master.Config("watch");
      busyLog := busyLog + [true];
    }

    method NotBusy()
      modifies this, master
      ensures master.cursor == "" && busyLog == old(busyLog) + [false]
      ensures state == old(state) && log == old(log) && requests == old(requests) && saved == old(saved)
      ensures master.pending == old(master.pending) && master.nextHandle == old(master.nextHandle)
      ensures master.nextScreen == old(master.nextScreen) && master.idle == old(master.idle)
    {
      master.Config("");
      busyLog := busyLog + [false];
    }

    /** on_event: the state's answer is installed. */
    method OnEvent(ev: Event, lookup: LookupOutcome)
      requires Valid()
      modifies this, state, state.gui, master
      ensures Valid() && log == old(log) + [ev]
      ensures (state.kind, state.member) == After(old(state.kind), old(state.member), ev, lookup)
      ensures Transition(old(state.kind), old(state.member), ev, lookup).Stay? ==> state == old(state)
      ensures Transition(old(state.kind), old(state.member), ev, lookup).Enter? ==>
        fresh(state) && old(state).gui == null && old(state.gui).TimerStopped()
      ensures busyLog == old(busyLog) && requests == old(requests) && saved == old(saved)
      ensures master.idle == old(master.idle) && master.cursor == old(master.cursor)
      ensures old(state.gui).warnings == old(state.gui.warnings)
    {
      log := log + [ev];
      state := state.OnEvent(ev, lookup);
    }

    /** gui_print of the installed state, which has a member. Without a printer the
        image is saved and success passed on. With one, exactly one event is passed
        on, success exactly when the printer printed, after any error is shown. */
    method GuiPrint(outcome: PrintOutcome, now: int, lookup: LookupOutcome)
      requires Valid() && state.kind != Waiting
      modifies this, state, state.gui, master
      ensures Valid()
      ensures log == old(log) + [Plain(PrintResult(noPrinter, outcome))]
      ensures (state.kind, state.member) ==
        After(old(state.kind), old(state.member), Plain(PrintResult(noPrinter, outcome)), lookup)
      ensures saved == old(saved) + (if noPrinter then [ImageFileName(old(state.member).value.memberNumber, now)] else [])
      ensures !noPrinter && PrintErrorMessage(outcome).Some? ==>
        old(state.gui).warnings == old(state.gui.warnings) + [PrintErrorMessage(outcome).value]
      ensures noPrinter || PrintErrorMessage(outcome).None? ==> old(state.gui).warnings == old(state.gui.warnings)
      ensures busyLog == old(busyLog) && requests == old(requests)
      ensures master.idle == old(master.idle) && master.cursor == old(master.cursor)
    {
      var event := Plain(PrintingFailed);
      if noPrinter {
        saved := saved + [ImageFileName(state.member.value.memberNumber, now)];
        event := Plain(PrintingSucceeded);
        OnEvent(event, lookup);
        return;
      }
      match outcome {
        case Printed =>
          event := Plain(PrintingSucceeded);
        case PrinterErrors(errors) =>
          state.gui.ShowErrorMessage(PRINTER_ERROR_PREFIX + Join(errors, ", "));
        case PrinterNotFound =>
          state.gui.ShowErrorMessage(PRINTER_NOT_FOUND_MESSAGE);
        case PrinterCrashed =>
          state.gui.ShowErrorMessage(UNKNOWN_PRINTER_ERROR_MESSAGE);
      }
      OnEvent(event, lookup);
    }

    /** A print callback: busy, ask the label creator, gui_print, notbusy. */
    method PrintLabel(request: LabelRequest, outcome: PrintOutcome, now: int, lookup: LookupOutcome)
      requires Valid() && state.kind != Waiting
      modifies this, state, state.gui, master
      ensures Valid()
      ensures log == old(log) + [Plain(PrintResult(noPrinter, outcome))]
      ensures (state.kind, state.member) ==
        After(old(state.kind), old(state.member), Plain(PrintResult(noPrinter, outcome)), lookup)
      ensures busyLog == old(busyLog) + [true, false] && master.cursor == ""
      ensures requests == old(requests) + [request]
    {
      Busy();
      requests := requests + [request];
      GuiPrint(outcome, now, lookup);
      NotBusy();
    }

    /** gui_callback of the installed state: it passes on at most one event, and a
        print is bracketed by busy and notbusy. */
    method GuiCallback(ge: GuiEvent, lookup: LookupOutcome, outcome: PrintOutcome, now: int)
      requires Valid()
      modifies this, state, state.gui, master
      ensures Valid()
      ensures var raised := Raised(old(state.kind), ge, noPrinter, outcome);
        log == old(log) + (if raised.Some? then [raised.value] else []) &&
        (state.kind, state.member) ==
          (if raised.Some? then After(old(state.kind), old(state.member), raised.value, lookup)
           else (old(state.kind), old(state.member)))
      ensures Prints(old(state.kind), ge) ==> busyLog == old(busyLog) + [true, false] && master.cursor == ""
      ensures !Prints(old(state.kind), ge) ==> busyLog == old(busyLog) && master.cursor == old(master.cursor)
      ensures old(state.kind) == MemberIdentified && ge.kind == GuiPrintBoxLabel ==>
        requests == old(requests) + [BoxRequest(old(state.member).value.memberNumber, Backend.GetName(old(state.member).value))]
      ensures old(state.kind) == EditTemporaryStorageLabel && ge.kind == GuiPrintTemporaryStorageLabel ==>
        requests == old(requests) +
          [TemporaryStorageRequest(old(state.member).value.memberNumber, Backend.GetName(old(state.member).value), ge.data)]
      ensures !Prints(old(state.kind), ge) ==> requests == old(requests) && saved == old(saved)
    {
      match state.kind {
        case Waiting =>
          if ge.kind == GuiTagRead {
            OnEvent(Event(TagRead, ge.data), lookup);
          }
        case EditTemporaryStorageLabel =>
          if ge.kind == GuiCancel {
            OnEvent(Plain(Cancel), lookup);
          } else if ge.kind == GuiTimeoutTimerExpired {
            OnEvent(Plain(LogOut), lookup);
          } else if ge.kind == GuiPrintTemporaryStorageLabel {
            var m := state.member.value;
            PrintLabel(TemporaryStorageRequest(m.memberNumber, Backend.GetName(m), ge.data), outcome, now, lookup);
          }
        case MemberIdentified =>
          if ge.kind == GuiDrawStorageLabelGui {
            OnEvent(Plain(PrintTemporaryStorageLabel), lookup);
          } else if ge.kind == GuiLogOut || ge.kind == GuiTimeoutTimerExpired {
            OnEvent(Plain(LogOut), lookup);
          } else if ge.kind == GuiPrintBoxLabel {
            var m := state.member.value;
            PrintLabel(BoxRequest(m.memberNumber, Backend.GetName(m)), outcome, now, lookup);
          }
      }
    }
  }
}
