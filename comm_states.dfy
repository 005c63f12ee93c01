/**
 * The printer connection's communication states, the read-only projections
 * the rest of the program asks about, and the bookkeeping the
 * CommunicationState setter does when the state changes.
 */
module CommStates {

  datatype CommunicationState =
    | Disconnected
    | AttemptingToConnect
    | FailedToConnect
    | Connected
    | PreparingToPrint
    | Printing
    | PrintingFromSd
    | Paused
    | FinishedPrint
    | Disconnecting
    | ConnectionLost

  /** PrinterIsConnected: every state except the four without a live link. */
  function PrinterIsConnected(s: CommunicationState): (connected: bool)
    ensures connected <==> s !in {Disconnected, AttemptingToConnect, ConnectionLost, FailedToConnect}
  {
    match s
    case Disconnected | AttemptingToConnect | ConnectionLost | FailedToConnect => false
    case Disconnecting | Connected | PreparingToPrint | Printing | PrintingFromSd | Paused | FinishedPrint => true
  }

  function PrinterIsPaused(s: CommunicationState): bool
  {
    s == Paused
  }

  /** PrinterIsPrinting: only while streaming from the host or printing from the SD card. */
  function PrinterIsPrinting(s: CommunicationState): (printing: bool)
    ensures printing <==> s in {Printing, PrintingFromSd}
    ensures printing ==> PrinterIsConnected(s) && !PrinterIsPaused(s)
  {
    match s
    case Disconnected | Disconnecting | AttemptingToConnect | ConnectionLost | FailedToConnect
      | Connected | PreparingToPrint | Paused | FinishedPrint => false
    case Printing | PrintingFromSd => true
  }

  /** PrintIsActive: a print is under way, including preparation and a pause. */
  function PrintIsActive(s: CommunicationState): (active: bool)
    ensures active <==> s in {Printing, PrintingFromSd, PreparingToPrint, Paused}
    ensures PrinterIsPrinting(s) || PrinterIsPaused(s) ==> active
    ensures active ==> PrinterIsConnected(s)
  {
    match s
    case Disconnected | Disconnecting | AttemptingToConnect | ConnectionLost | FailedToConnect
      | Connected | FinishedPrint => false
    case Printing | PrintingFromSd | PreparingToPrint | Paused => true
  }

  function PrintIsFinished(s: CommunicationState): (finished: bool)
    ensures finished <==> s == FinishedPrint
    ensures finished ==> PrinterIsConnected(s) && !PrintIsActive(s)
  {
    s == FinishedPrint
  }

  function IsDisconnecting(s: CommunicationState): bool
  {
    s == Disconnecting
  }

  /** What the setter announces: each real change, and the end of a print. */
  datatype Event = StateChanged(to: CommunicationState) | PrintFinished

  /**
   * The fields the CommunicationState setter reads and writes: the state,
   * the state to return to after a pause, whether the print-duration
   * stopwatch is running, and the events raised so far.
   */
  datatype StateMachine = StateMachine(
    state: CommunicationState,
    prePause: CommunicationState,
    printTimerRunning: bool,
    events: seq<Event>)

  /**
   * The CommunicationState setter. Nothing happens when the value is the
   * current state. Otherwise leaving Printing or PrintingFromSd stops the
   * print stopwatch, a pause records which of the two was left, and reaching
   * FinishedPrint announces the end of the print; from any other state,
   * entering Printing (re)starts the stopwatch.
   */
  function SetState(m: StateMachine, value: CommunicationState): (r: StateMachine)
    ensures value == m.state ==> r == m
    ensures r.state == value
  {
    if m.state == value then m
    else
      var changed := match m.state
        case PrintingFromSd | Printing =>
          if value == Paused then
            m.(prePause := if m.state == Printing then Printing else PrintingFromSd, printTimerRunning := false)
          else if value == FinishedPrint then
            m.(printTimerRunning := false, events := m.events + [PrintFinished])
          else
            m.(printTimerRunning := false)
        case Paused =>
          if value == Printing then m.(printTimerRunning := true) else m
        case _ =>
          if !m.printTimerRunning && value == Printing then m.(printTimerRunning := true) else m;
      changed.(state := value, events := changed.events + [StateChanged(value)])
  }

  /**
   * The setter's bookkeeping on a real change: the events it raises, the
   * pause source it records, and when the print stopwatch stops or starts.
   */
  lemma SetStateBookkeeping(m: StateMachine, value: CommunicationState)
    ensures var r := SetState(m, value);
      && (value != m.state ==>
            r.events == m.events
              + (if PrinterIsPrinting(m.state) && value == FinishedPrint then [PrintFinished] else [])
              + [StateChanged(value)])
      && (r.prePause != m.prePause ==> PrinterIsPrinting(m.state) && value == Paused && r.prePause == m.state)
      && (PrinterIsPrinting(m.state) && value == Paused ==> r.prePause == m.state)
      && (value != m.state && PrinterIsPrinting(m.state) ==> !r.printTimerRunning)
      && (value == Printing && !PrinterIsPrinting(m.state) ==> r.printTimerRunning)
  {
  }

  /** The state Resume moves to: back to where the pause came from, or nowhere when not paused. */
  function ResumeTarget(m: StateMachine): (target: CommunicationState)
    ensures m.state != Paused ==> target == m.state
    ensures m.state == Paused ==> PrinterIsPrinting(target)
  {
    if m.state != Paused then m.state
    else if m.prePause == PrintingFromSd then PrintingFromSd
    else Printing
  }

  /** Pausing a print and resuming it returns to exactly the state the print was in. */
  lemma PauseThenResume(m: StateMachine)
    requires PrinterIsPrinting(m.state)
    ensures ResumeTarget(SetState(m, Paused)) == m.state
    ensures SetState(SetState(m, Paused), m.state).state == m.state
  {
  }
}
