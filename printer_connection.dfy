/**
 * PrinterConnectionAndCommunication with the serial port, threads and
 * stopwatches taken out: the fields the connection keeps about the print in
 * progress and the operations that change them.
 *
 * A stopwatch's elapsed-time test becomes a boolean parameter; "is it
 * running" becomes a boolean field. The serial port is the `portOpen` flag
 * plus the `output` log of what was written to it. The active slice
 * settings the connection reads (pause, resume, cancel and connect G-code)
 * are parameters, and so are the restore lines formatted from the current
 * destination.
 */
module PrinterComm {
  import opened Strings
  import opened CommStates
  import opened GCodeText
  import opened GCodeQueue
  import opened ChecksumLedger

  /**
   * ReadThreadHolder's two static counters: the generation of the current
   * reader and the number of readers still running.
   */
  class ReadThreads {
    var currentIndex: int
    var numRunning: int

    constructor ()
      ensures currentIndex == 0 && numRunning == 0
    {
      currentIndex := 0;
      numRunning := 0;
    }

    /** A new reader: one more running, and it is the current generation. */
    method Start() returns (creationIndex: int)
      modifies this
      ensures numRunning == old(numRunning) + 1
      ensures currentIndex == old(currentIndex) + 1
      ensures creationIndex == currentIndex && IsCurrentThread(creationIndex)
    {
      numRunning := numRunning + 1;
      currentIndex := currentIndex + 1;
      creationIndex := currentIndex;
    }

    /** Join: retires every reader started so far without waiting for it. */
    method Join()
      modifies this
      ensures currentIndex == old(currentIndex) + 1 && numRunning == old(numRunning)
      ensures forall c :: c <= old(currentIndex) ==> !IsCurrentThread(c)
    {
      currentIndex := currentIndex + 1;
    }

    /** A reader finished (RunWorkerCompleted). */
    method Completed()
      modifies this
      ensures numRunning == old(numRunning) - 1 && currentIndex == old(currentIndex)
    {
      numRunning := numRunning - 1;
    }

    function IsCurrentThread(creationIndex: int): bool
      reads this
    {
      currentIndex == creationIndex
    }
  }

  /** What the wait for the printer's `ok` decides at the start of a writer tick. */
  datatype OkGate = Wait | Proceed | ForceResend

  /** A line the printer acts on as a move (and so may take long to answer). */
  predicate IsMove(line: string)
  {
    Contains(line, "G0 ") || Contains(line, "G1 ")
  }

  /**
   * The wait for `ok`: only while the wait runs and the cursor is strictly
   * inside the program is a line held back; after too long without any
   * answer, or after a move that should long be done, the last line is
   * sent again instead.
   */
  function GateOnOk(waitingForOk: bool, cursor: int, program: seq<string>,
                    noResponseTimeout: bool, moveOverdue: bool): (g: OkGate)
    ensures g == Wait ==> waitingForOk && 0 < cursor < |program| - 1 && !noResponseTimeout
    ensures g == ForceResend <==>
      waitingForOk && 0 < cursor < |program| - 1 && (noResponseTimeout || (moveOverdue && IsMove(program[cursor - 1])))
    ensures !waitingForOk || cursor <= 0 || cursor >= |program| - 1 ==> g == Proceed
  {
    if waitingForOk && 0 < cursor < |program| - 1 then
      if noResponseTimeout || (IsMove(program[cursor - 1]) && moveOverdue) then ForceResend else Wait
    else Proceed
  }

  /** The first line of every print: restart the printer's line numbering. */
  const ResetLineNumber: string := "M110 S1"

  /** The reset line goes out as it is written. */
  lemma ResetLineIsNormalized()
    ensures Normalized(ResetLineNumber) == ResetLineNumber
  {
    assert forall i :: 0 <= i < |ResetLineNumber| ==> ResetLineNumber[i] in "M110 S1" && UpperChar(ResetLineNumber[i]) == ResetLineNumber[i];
    NormalizedClean(ResetLineNumber);
  }

  /** The command FanSpeed0To255's setter sends. */
  function FanCommand(speed: int): string
  {
    "M106 S" + IntToString(speed)
  }

  /** The command TargetBedTemperature's setter sends (whole degrees). */
  function BedCommand(temperature: int): string
  {
    "M140 S" + IntToString(temperature)
  }

  /** The command SetTargetExtruderTemperature sends (whole degrees). */
  function ExtruderCommand(index: int, temperature: int): string
  {
    "M104 T" + IntToString(index) + " S" + IntToString(temperature)
  }

  /** A setter's send: only when the value changed and the printer is connected. */
  function SendIfConnected(k: Link, changed: bool, text: string): (r: Link)
    ensures !changed || !PrinterIsConnected(k.machine.state) ==> r == k
    ensures changed && PrinterIsConnected(k.machine.state) ==> r == SendLine(k, text)
  {
    if changed && PrinterIsConnected(k.machine.state) then SendLine(k, text) else k
  }

  /** A state change seen on the fields SendLineToPrinterNow works on. */
  function SetStateOf(k: Link, value: CommunicationState): (r: Link)
    ensures r.machine == SetState(k.machine, value) && r.machine.state == value
  {
    k.(machine := SetState(k.machine, value))
  }

  /** TurnOffBedAndExtruders's sends, given the targets before it. */
  function TurnOffSends(k: Link, extruderTargets: seq<int>, bedTarget: int): Link
    requires |extruderTargets| >= 2
  {
    SendIfConnected(
      SendIfConnected(
        SendIfConnected(k, extruderTargets[0] != 0, ExtruderCommand(0, 0)),
        extruderTargets[1] != 0, ExtruderCommand(1, 0)),
      bedTarget != 0, BedCommand(0))
  }

  /** The program CancelPrint leaves: the cancel macro's lines, or nothing. */
  function CancelProgram(cancelGCode: string, restore: RestoreLines): seq<string>
  {
    if Trim(cancelGCode) != [] then KeptLines(cancelGCode, restore) else []
  }

  /** ClearQueuedGCode's effect on the link: no program, cursor 0, the reset line written. */
  function Cleared(k: Link, resetLine: string): Link
  {
    Write(k.(program := [], cursor := 0), resetLine + "\r\n")
  }

  /** CancelSDCardPrint's effect on the link. */
  function CancelSdSends(k: Link, resetLine: string, extruderTargets: seq<int>, bedTarget: int): Link
    requires |extruderTargets| >= 2
  {
    var stopped := SendLine(SendLine(SetStateOf(Cleared(k, resetLine), Connected), "M25"), "M26");
    SendLine(TurnOffSends(SetStateOf(stopped, FinishedPrint), extruderTargets, bedTarget), "M84")
  }

  /** Closing the port while the state passes through Disconnecting to Disconnected. */
  function CloseLink(k: Link): (r: Link)
    ensures !r.portOpen && r.machine.state == Disconnected
  {
    SetStateOf(SetStateOf(k, Disconnecting).(portOpen := false), Disconnected)
  }

  /** Each queued line as written to the port. */
  function WithLineEnds(lines: seq<string>): (r: seq<string>)
    ensures |r| == |lines|
    ensures forall i :: 0 <= i < |lines| ==> r[i] == lines[i] + "\r\n"
  {
    if lines == [] then [] else [lines[0] + "\r\n"] + WithLineEnds(lines[1..])
  }

  /**
   * OnIdle's drain of the queue: while there is a queued line and no `ok` is
   * awaited (or it has been awaited too long), the first line is taken off
   * the queue and written.
   */
  function Drain(k: Link, waitedTooLong: bool): Link
    decreases |k.queue|
  {
    if k.queue != [] && (!k.waitingForOk || waitedTooLong) then
      Drain(Write(k.(queue := k.queue[1..]), k.queue[0] + "\r\n"), waitedTooLong)
    else k
  }

  /**
   * The drain takes a prefix of the queue and nothing else from the
   * program; it stops only with an empty queue or an `ok` still awaited.
   */
  lemma {:induction false} DrainTakesPrefix(k: Link, waitedTooLong: bool)
    ensures var r := Drain(k, waitedTooLong);
      && |r.queue| <= |k.queue| && r.queue == k.queue[|k.queue| - |r.queue|..]
      && r.program == k.program && r.cursor == k.cursor
      && (r.queue == [] || (r.waitingForOk && !waitedTooLong))
    decreases |k.queue|
  {
    if k.queue != [] && (!k.waitingForOk || waitedTooLong) {
      var k1 := Write(k.(queue := k.queue[1..]), k.queue[0] + "\r\n");
      DrainTakesPrefix(k1, waitedTooLong);
      var r := Drain(k1, waitedTooLong);
      assert k.queue[1..][|k1.queue| - |r.queue|..] == k.queue[|k.queue| - |r.queue|..];
    }
  }

  /** On an open link the drain writes the lines it takes, in queue order, and the state stays. */
  lemma {:induction false} DrainWritesInOrder(k: Link, waitedTooLong: bool)
    requires CanWrite(k.machine.state) && k.portOpen
    ensures var r := Drain(k, waitedTooLong);
      && |r.queue| <= |k.queue|
      && r.machine == k.machine && r.portOpen
      && r.output == k.output + WithLineEnds(k.queue[..|k.queue| - |r.queue|])
    decreases |k.queue|
  {
    DrainTakesPrefix(k, waitedTooLong);
    var r := Drain(k, waitedTooLong);
    if k.queue != [] && (!k.waitingForOk || waitedTooLong) {
      var k1 := Write(k.(queue := k.queue[1..]), k.queue[0] + "\r\n");
      DrainWritesInOrder(k1, waitedTooLong);
      var n1 := |k1.queue| - |r.queue|;
      assert k.queue[..n1 + 1] == [k.queue[0]] + k.queue[1..][..n1];
      assert WithLineEnds(k.queue[..n1 + 1]) == [k.queue[0] + "\r\n"] + WithLineEnds(k.queue[1..][..n1]);
    } else {
      assert k.queue[..0] == [];
    }
  }

  /** Until the wait for `ok` runs too long, an open link gets one queued line per idle tick. */
  lemma OneLinePerTick(k: Link)
    requires CanWrite(k.machine.state) && k.portOpen
    ensures |k.queue| - |Drain(k, false).queue| == (if k.queue != [] && !k.waitingForOk then 1 else 0)
  {
    if k.queue != [] && !k.waitingForOk {
      var k1 := Write(k.(queue := k.queue[1..]), k.queue[0] + "\r\n");
      assert Drain(k1, false) == k1;
    }
  }

  /** DoPause on the link: only a running print becomes paused. */
  function DoPauseLink(k: Link): (r: Link)
    ensures PrinterIsPrinting(k.machine.state) ==> r.machine.state == Paused
  {
    if PrinterIsPrinting(k.machine.state) then SetStateOf(k, Paused) else k
  }

  /**
   * A host print paused at `start` (inside the program or at its end):
   * PausedProgram's lines in place; without a pause macro the print pauses
   * at once, with one it runs on until the writer reaches the marker.
   */
  function PauseAt(k: Link, start: nat, pauseGCode: string, resumeGCode: string, restore: RestoreLines): Link
    requires start <= |k.program|
  {
    var paused := k.(program := PausedProgram(k.program, start, pauseGCode, resumeGCode, restore));
    if Trim(pauseGCode) == [] then SetStateOf(paused, Paused) else paused
  }

  /** What the writer tick does with a program line. */
  datatype LineAction =
    | Skip       // white space or a comment only: the cursor just moves on
    | MarkPause  // the pause marker: the print pauses when the tick ends
    | PauseHere  // M226 or @pause: a pause is requested just after this line
    | Send       // anything else: numbered, checksummed and written

  /** The tick tests the line as it stands, except that blankness is judged on its command part. */
  function ActionFor(line: string): LineAction
  {
    if ToUpper(Trim(FirstField(line, ';'))) == [] then Skip
    else if line == PauseMarker then MarkPause
    else if line == "M226" || line == "@pause" then PauseHere
    else Send
  }

  /**
   * With a pause macro, the line just after the macro's lines is the marker,
   * and the writer tick takes the marker for a pause.
   */
  lemma MarkerFollowsPauseMacro(k: Link, start: nat, pauseGCode: string, resumeGCode: string, restore: RestoreLines)
    requires start <= |k.program| && Trim(pauseGCode) != []
    ensures var r := PauseAt(k, start, pauseGCode, resumeGCode, restore);
      var at := start + |KeptLines(pauseGCode, restore)|;
      && r.machine == k.machine
      && at < |r.program| && r.program[at] == PauseMarker && ActionFor(r.program[at]) == MarkPause
  {
    MarkerInPausedProgram(k.program, start, pauseGCode, resumeGCode, restore);
    MarkerIsPause();
  }

  /** The marker is a line the writer tick takes for a pause. */
  lemma MarkerIsPause()
    ensures ActionFor(PauseMarker) == MarkPause
  {
    var m := PauseMarker;
    assert ';' !in m && m[0] == 'M' && m[|m| - 1] == 'E';
    CommandNotBlank(m);
  }

  /** A line with no comment and with text at both ends is not blank to the tick. */
  lemma CommandNotBlank(line: string)
    requires ';' !in line && line != [] && !IsWhiteSpace(line[0]) && !IsWhiteSpace(line[|line| - 1])
    ensures ToUpper(Trim(FirstField(line, ';'))) != []
  {
    TrimOfTrimmed(line, false);
  }

  /** A resend: the recorded line (when the slot could be read) written again, with a bare line feed. */
  function Replayed(k: Link, entry: Option<string>): Link
  {
    match entry
    case None => k
    case Some(line) => Write(k, line + "\n")
  }

  /** The fields of the connection that sending and injecting leave alone. */
  datatype Others = Others(
    resendIndex: int,
    printWasCanceled: bool,
    waitingForPosition: bool,
    fanSpeed: int,
    extruderTargets: seq<int>,
    bedTarget: int,
    pending: string,
    linesRead: seq<string>,
    connectionFailureMessage: string)

  /** Everything the writer tick reads and writes: the link, the other fields, and the ledger's lines. */
  datatype Conn = Conn(link: Link, rest: Others, sent: seq<string>)

  /** RequestPause at an index just past the cursor, which is never negative and never past the program's end. */
  function RequestPauseLink(k: Link, start: nat, pauseGCode: string, resumeGCode: string, restore: RestoreLines): Link
    requires start <= |k.program|
  {
    if !PrinterIsPrinting(k.machine.state) then k
    else if k.machine.state == PrintingFromSd then SendLine(SetStateOf(k, Paused), "M25")
    else PauseAt(k, start, pauseGCode, resumeGCode, restore)
  }

  /** A pause request keeps the cursor and never shortens the program. */
  lemma RequestPauseLinkKeeps(k: Link, start: nat, pauseGCode: string, resumeGCode: string, restore: RestoreLines)
    requires start <= |k.program|
    ensures var r := RequestPauseLink(k, start, pauseGCode, resumeGCode, restore);
      r.cursor == k.cursor && |r.program| >= |k.program|
  {
    var r := RequestPauseLink(k, start, pauseGCode, resumeGCode, restore);
    if !PrinterIsPrinting(k.machine.state) {
      assert r == k;
    } else if k.machine.state == PrintingFromSd {
      assert r == SendLine(SetStateOf(k, Paused), "M25");
      SendLineSends(SetStateOf(k, Paused), "M25");
    } else {
      assert r == PauseAt(k, start, pauseGCode, resumeGCode, restore);
      PauseAtKeeps(k, start, pauseGCode, resumeGCode, restore);
    }
  }

  /** Injecting the pause lines keeps the cursor and only adds lines. */
  lemma PauseAtKeeps(k: Link, start: nat, pauseGCode: string, resumeGCode: string, restore: RestoreLines)
    requires start <= |k.program|
    ensures var r := PauseAt(k, start, pauseGCode, resumeGCode, restore);
      r.cursor == k.cursor && |r.program| >= |k.program|
  {
    var p := PausedProgram(k.program, start, pauseGCode, resumeGCode, restore);
    assert |p| >= |k.program[..start]| + |k.program[start..]|;
  }

  /** The heaters off and the motors released, at the end of a print (canceled or finished). */
  function ShutDown(k: Link, o: Others, to: CommunicationState): Conn
    requires |o.extruderTargets| >= 2
  {
    Conn(TurnOffSends(SendLine(SetStateOf(k, to), "M84"), o.extruderTargets, o.bedTarget),
         o.(extruderTargets := o.extruderTargets[0 := 0][1 := 0], bedTarget := 0), [])
  }

  /** A send that happens only when asked keeps the cursor, and outside streaming the program too. */
  lemma SendIfConnectedKeeps(k: Link, changed: bool, text: string)
    ensures var r := SendIfConnected(k, changed, text);
      r.cursor == k.cursor && Streaming(r.machine.state) == Streaming(k.machine.state)
      && (!Streaming(k.machine.state) ==> r.program == k.program)
  {
    if changed && PrinterIsConnected(k.machine.state) {
      SendLineSends(k, text);
    }
  }

  /** Shutting down after a print, into a state that is not streaming, moves neither the cursor nor the program. */
  lemma ShutDownKeeps(k: Link, o: Others, to: CommunicationState)
    requires |o.extruderTargets| >= 2 && !Streaming(to)
    ensures ShutDown(k, o, to).link.cursor == k.cursor && ShutDown(k, o, to).link.program == k.program
  {
    var k1 := SetStateOf(k, to);
    SendLineSends(k1, "M84");
    var k2 := SendLine(k1, "M84");
    var k3 := SendIfConnected(k2, o.extruderTargets[0] != 0, ExtruderCommand(0, 0));
    SendIfConnectedKeeps(k2, o.extruderTargets[0] != 0, ExtruderCommand(0, 0));
    var k4 := SendIfConnected(k3, o.extruderTargets[1] != 0, ExtruderCommand(1, 0));
    SendIfConnectedKeeps(k3, o.extruderTargets[1] != 0, ExtruderCommand(1, 0));
    SendIfConnectedKeeps(k4, o.bedTarget != 0, BedCommand(0));
  }

  /**
   * The command on a line taken from the program: the marker does nothing
   * yet (its pause comes once the tick is done); M226 and @pause request a
   * pause just after the cursor; any other line is normalized, numbered,
   * checksummed, recorded and written.
   */
  function CommandEffect(c: Conn, action: LineAction, line: string, pauseGCode: string, resumeGCode: string,
                         restore: RestoreLines, checksum: string -> Int32): Conn
    requires 0 <= c.link.cursor < |c.link.program|
  {
    var k := c.link;
    match action
    case Skip | MarkPause => c
    case PauseHere => c.(link := RequestPauseLink(k, k.cursor + 1, pauseGCode, resumeGCode, restore))
    case Send =>
      var framed := FrameLine(|c.sent|, Normalized(line), checksum);
      Conn(Write(k, framed + "\r\n"), c.rest, c.sent + [framed])
  }

  /** The replay point moved on by one line. */
  function Counted(c: Conn): Conn
  {
    c.(rest := c.rest.(resendIndex := c.rest.resendIndex + 1))
  }

  /**
   * The line at the cursor taken from the program: a request for the
   * position starts the wait for it; a command is run and moves the replay
   * point on; the cursor moves on.
   */
  function TakeLine(c: Conn, pauseGCode: string, resumeGCode: string, restore: RestoreLines,
                    checksum: string -> Int32): Conn
    requires 0 <= c.link.cursor < |c.link.program|
  {
    var k := c.link;
    var line := k.program[k.cursor];
    var action := ActionFor(line);
    var watched := c.(rest := c.rest.(waitingForPosition := c.rest.waitingForPosition || Contains(line, "M114")));
    var r := if action == Skip then watched
             else Counted(CommandEffect(watched, action, line, pauseGCode, resumeGCode, restore, checksum));
    r.(link := r.link.(cursor := k.cursor + 1))
  }

  /**
   * The writer tick once the wait for `ok` has let it through; `replay` is
   * what the ledger holds at the replay point. With the cursor inside the
   * program: a pending replay is written first; a position report still
   * awaited holds everything back; otherwise the line at the cursor is
   * taken, and a marker then pauses the print. Past the program, a
   * canceled print returns to Connected and a finished one to
   * FinishedPrint, each with the motors released and the heaters off.
   */
  function NextLine(c: Conn, replay: Option<string>, positionWaitExpired: bool, pauseGCode: string,
                    resumeGCode: string, restore: RestoreLines, checksum: string -> Int32): Conn
    requires |c.rest.extruderTargets| >= 2
  {
    var k := c.link;
    var o := c.rest;
    if k.cursor < |k.program| then
      if o.resendIndex < |c.sent| then
        c.(link := Replayed(k, replay), rest := o.(resendIndex := o.resendIndex + 1))
      else if (o.waitingForPosition && !positionWaitExpired) || k.cursor < 0 then
        // waiting for the position; or the line before the program cannot be fetched
        c
      else
        var t := TakeLine(c, pauseGCode, resumeGCode, restore, checksum);
        if ActionFor(k.program[k.cursor]) == MarkPause then t.(link := DoPauseLink(t.link)) else t
    else if o.printWasCanceled then
      var s := ShutDown(k, o, Connected);
      s.(rest := s.rest.(printWasCanceled := false), sent := c.sent)
    else if k.cursor == |k.program| then
      ShutDown(k, o, FinishedPrint).(sent := c.sent)
    else if !PrinterIsPaused(k.machine.state) then
      c.(link := SetStateOf(k, Connected))
    else c
  }

  /**
   * The ledger grows by at most one line per tick: the line at the cursor,
   * in upper case and trimmed, numbered one past the ledger, which the
   * printer reads back with that number and that text.
   */
  lemma NextLineLedger(c: Conn, replay: Option<string>, positionWaitExpired: bool, pauseGCode: string,
                       resumeGCode: string, restore: RestoreLines, checksum: string -> Int32)
    requires |c.rest.extruderTargets| >= 2
    ensures var r := NextLine(c, replay, positionWaitExpired, pauseGCode, resumeGCode, restore, checksum);
      || r.sent == c.sent
      || (&& 0 <= c.link.cursor < |c.link.program|
          && ActionFor(c.link.program[c.link.cursor]) == Send
          && |r.sent| == |c.sent| + 1 && r.sent[..|c.sent|] == c.sent
          && var text := ToUpper(Trim(c.link.program[c.link.cursor]));
             Unframe(r.sent[|c.sent|]) == Some(Framed(|c.sent| + 1, text, checksum(LineWithCount(|c.sent|, text)))))
  {
    var k := c.link;
    var o := c.rest;
    var r := NextLine(c, replay, positionWaitExpired, pauseGCode, resumeGCode, restore, checksum);
    if k.cursor >= |k.program| || o.resendIndex < |c.sent| || (o.waitingForPosition && !positionWaitExpired) || k.cursor < 0 {
      assert r.sent == c.sent;
    } else {
      assert r.sent == TakeLine(c, pauseGCode, resumeGCode, restore, checksum).sent by {
        NextLineTakes(c, replay, positionWaitExpired, pauseGCode, resumeGCode, restore, checksum);
      }
      TakeLineFramed(c, pauseGCode, resumeGCode, restore, checksum);
    }
  }

  /** A line taken and sent is recorded so that the printer reads back its number and its normalized text. */
  lemma TakeLineFramed(c: Conn, pauseGCode: string, resumeGCode: string, restore: RestoreLines,
                       checksum: string -> Int32)
    requires 0 <= c.link.cursor < |c.link.program|
    ensures var r := TakeLine(c, pauseGCode, resumeGCode, restore, checksum);
      || r.sent == c.sent
      || (&& ActionFor(c.link.program[c.link.cursor]) == Send
          && |r.sent| == |c.sent| + 1 && r.sent[..|c.sent|] == c.sent
          && var text := ToUpper(Trim(c.link.program[c.link.cursor]));
             Unframe(r.sent[|c.sent|]) == Some(Framed(|c.sent| + 1, text, checksum(LineWithCount(|c.sent|, text)))))
  {
    var line := c.link.program[c.link.cursor];
    TakeLineLedger(c, pauseGCode, resumeGCode, restore, checksum);
    if ActionFor(line) == Send {
      UnframeFrameLine(|c.sent|, Normalized(line), checksum);
      var framed := FrameLine(|c.sent|, Normalized(line), checksum);
      assert (c.sent + [framed])[..|c.sent|] == c.sent;
    }
  }

  /** A tick with nothing to replay and no position report awaited takes the line at the cursor. */
  lemma NextLineTakes(c: Conn, replay: Option<string>, positionWaitExpired: bool, pauseGCode: string,
                      resumeGCode: string, restore: RestoreLines, checksum: string -> Int32)
    requires |c.rest.extruderTargets| >= 2
    requires 0 <= c.link.cursor < |c.link.program| && c.rest.resendIndex >= |c.sent|
    requires !c.rest.waitingForPosition || positionWaitExpired
    ensures var t := TakeLine(c, pauseGCode, resumeGCode, restore, checksum);
      NextLine(c, replay, positionWaitExpired, pauseGCode, resumeGCode, restore, checksum)
        == if ActionFor(c.link.program[c.link.cursor]) == MarkPause then t.(link := DoPauseLink(t.link)) else t
  {
  }

  /** Taking the marker only moves the cursor on. */
  lemma TakeMarker(c: Conn, pauseGCode: string, resumeGCode: string, restore: RestoreLines, checksum: string -> Int32)
    requires 0 <= c.link.cursor < |c.link.program| && ActionFor(c.link.program[c.link.cursor]) == MarkPause
    ensures var t := TakeLine(c, pauseGCode, resumeGCode, restore, checksum);
      t.link == c.link.(cursor := c.link.cursor + 1) && t.sent == c.sent
  {
  }

  /** Taking a line records it, upper case, trimmed and framed, exactly when it is sent. */
  lemma TakeLineLedger(c: Conn, pauseGCode: string, resumeGCode: string, restore: RestoreLines,
                       checksum: string -> Int32)
    requires 0 <= c.link.cursor < |c.link.program|
    ensures var line := c.link.program[c.link.cursor];
      TakeLine(c, pauseGCode, resumeGCode, restore, checksum).sent
        == if ActionFor(line) == Send then c.sent + [FrameLine(|c.sent|, ToUpper(Trim(line)), checksum)] else c.sent
  {
  }

  /**
   * The cursor moves by at most one line per tick, and it moves exactly
   * when a line of the program is taken: none to replay, no position
   * report awaited.
   */
  lemma NextLineCursor(c: Conn, replay: Option<string>, positionWaitExpired: bool, pauseGCode: string,
                       resumeGCode: string, restore: RestoreLines, checksum: string -> Int32)
    requires |c.rest.extruderTargets| >= 2
    ensures var r := NextLine(c, replay, positionWaitExpired, pauseGCode, resumeGCode, restore, checksum);
      && (r.link.cursor == c.link.cursor || r.link.cursor == c.link.cursor + 1)
      && (r.link.cursor == c.link.cursor + 1 <==>
            && 0 <= c.link.cursor < |c.link.program| && c.rest.resendIndex >= |c.sent|
            && (!c.rest.waitingForPosition || positionWaitExpired))
  {
    var k := c.link;
    var o := c.rest;
    var r := NextLine(c, replay, positionWaitExpired, pauseGCode, resumeGCode, restore, checksum);
    if k.cursor < |k.program| {
      if o.resendIndex < |c.sent| {
        assert r.link == Replayed(k, replay);
      } else if (o.waitingForPosition && !positionWaitExpired) || k.cursor < 0 {
        assert r == c;
      } else {
        assert r.link.cursor == k.cursor + 1 by {
          var line := k.program[k.cursor];
          var next := k.cursor + 1;
          match ActionFor(line)
          case Skip =>
          case MarkPause =>
          case PauseHere =>
          case Send =>
        }
      }
    } else if o.printWasCanceled {
      ShutDownKeeps(k, o, Connected);
      assert r.link == ShutDown(k, o, Connected).link;
    } else if k.cursor == |k.program| {
      ShutDownKeeps(k, o, FinishedPrint);
      assert r.link == ShutDown(k, o, FinishedPrint).link;
    } else if !PrinterIsPaused(k.machine.state) {
      assert r.link == SetStateOf(k, Connected);
    } else {
      assert r == c;
    }
  }

  /**
   * Reaching the marker a pause with a pause macro left in a host print
   * pauses the print and sends nothing.
   */
  lemma NextLineAtMarker(c: Conn, replay: Option<string>, positionWaitExpired: bool, pauseGCode: string,
                         resumeGCode: string, restore: RestoreLines, checksum: string -> Int32)
    requires |c.rest.extruderTargets| >= 2
    requires c.link.machine.state == Printing
    requires 0 <= c.link.cursor < |c.link.program| && c.link.program[c.link.cursor] == PauseMarker
    requires c.rest.resendIndex >= |c.sent| && !c.rest.waitingForPosition
    ensures var r := NextLine(c, replay, positionWaitExpired, pauseGCode, resumeGCode, restore, checksum);
      && r.link.machine.state == Paused && r.link.cursor == c.link.cursor + 1
      && r.sent == c.sent && r.link.output == c.link.output && r.link.program == c.link.program
  {
    MarkerIsPause();
    TakeMarker(c, pauseGCode, resumeGCode, restore, checksum);
    NextLineTakes(c, replay, positionWaitExpired, pauseGCode, resumeGCode, restore, checksum);
  }

  // ---- the reader ----

  /** The reason given when the handshake fails. */
  const InvalidResponse: string := "Invalid printer response"

  /** AbortConnectionAttempt, leaving the reader running: a closed port, FailedToConnect, the reason kept. */
  function Aborted(c: Conn, reason: string): (r: Conn)
    ensures r.link.machine.state == FailedToConnect && !r.link.portOpen
    ensures r.rest == c.rest.(connectionFailureMessage := reason) && r.sent == c.sent
  {
    c.(link := SetStateOf(CloseLink(c.link), FailedToConnect), rest := c.rest.(connectionFailureMessage := reason))
  }

  /**
   * One complete line from the printer: it is handed on, and while
   * connecting it settles the handshake, either connecting (and sending the
   * connect G-code) or aborting the attempt.
   */
  function HandleLine(c: Conn, line: string, connectGCode: string): (r: Conn)
    ensures r.rest.linesRead == c.rest.linesRead + [line] && r.rest.pending == c.rest.pending && r.sent == c.sent
    ensures c.link.machine.state != AttemptingToConnect ==> r.link == c.link
  {
    var heard := c.(rest := c.rest.(linesRead := c.rest.linesRead + [line]));
    if c.link.machine.state != AttemptingToConnect then heard
    else if HandshakeAccepts(line) then heard.(link := SendLine(SetStateOf(c.link, Connected), connectGCode))
    else Aborted(heard, InvalidResponse)
  }

  /**
   * The reader's inner loop over the text received so far: each time a line
   * feed is found the line before it is taken off and handled; once none is
   * left, a connection attempt whose text holds too many `?` is aborted.
   */
  function ReadPending(c: Conn, connectGCode: string): Conn
    decreases |c.rest.pending|
  {
    var buffer := c.rest.pending;
    var i := IndexOf(buffer, '\n');
    if i < 0 then
      if c.link.machine.state == AttemptingToConnect && BufferRejected(buffer) then Aborted(c, InvalidResponse) else c
    else
      ReadPending(HandleLine(c.(rest := c.rest.(pending := buffer[i + 1..])), buffer[..i], connectGCode), connectGCode)
  }

  /** One pass of the reader's loop. */
  lemma ReadPendingStep(c: Conn, connectGCode: string)
    requires IndexOf(c.rest.pending, '\n') >= 0
    ensures var buffer := c.rest.pending;
      var i := IndexOf(buffer, '\n');
      ReadPending(c, connectGCode)
        == ReadPending(HandleLine(c.(rest := c.rest.(pending := buffer[i + 1..])), buffer[..i], connectGCode), connectGCode)
  {
  }

  /** The reader's loop once no line feed is left. */
  lemma ReadPendingDone(c: Conn, connectGCode: string)
    requires IndexOf(c.rest.pending, '\n') < 0
    ensures ReadPending(c, connectGCode)
      == if c.link.machine.state == AttemptingToConnect && BufferRejected(c.rest.pending) then Aborted(c, InvalidResponse) else c
  {
  }

  /** Taking the first line off the text leaves the other complete lines and the same remainder. */
  lemma {:induction false} LinesAfterFirst(buffer: string, i: int)
    requires 0 <= i < |buffer| && IndexOf(buffer, '\n') == i
    ensures CompleteLines(buffer) == [buffer[..i]] + CompleteLines(buffer[i + 1..])
    ensures Remainder(buffer) == Remainder(buffer[i + 1..])
  {
    SplitAt(buffer, '\n', i);
    LinesAfterSplit(buffer, buffer[..i], buffer[i + 1..]);
  }

  /** When the first piece of the text is `first`, it is the first line and the rest is cut as `tail` is. */
  lemma {:induction false} LinesAfterSplit(buffer: string, first: string, tail: string)
    requires Split(buffer, '\n') == [first] + Split(tail, '\n')
    ensures CompleteLines(buffer) == [first] + CompleteLines(tail)
    ensures Remainder(buffer) == Remainder(tail)
  {
    var pieces := Split(buffer, '\n');
    var rest := Split(tail, '\n');
    LinesOfPieces(buffer, pieces);
    LinesOfPieces(tail, rest);
    ConsParts(first, rest, pieces, CompleteLines(buffer), CompleteLines(tail), Remainder(buffer), Remainder(tail));
  }

  /** The complete lines and the remainder are the pieces before the last and the last. */
  lemma {:induction false} LinesOfPieces(buffer: string, pieces: seq<string>)
    requires pieces == Split(buffer, '\n')
    ensures |pieces| > 0 && CompleteLines(buffer) == pieces[..|pieces| - 1] && Remainder(buffer) == pieces[|pieces| - 1]
  {
  }

  /** A line handed on before the rest of the lines. */
  lemma Reassociate(heard: seq<string>, line: string, more: seq<string>)
    ensures heard + [line] + more == heard + ([line] + more)
  {
  }

  /** With one element put in front, the part before the last element gains it and the last element stays. */
  lemma ConsParts<T>(x: T, q: seq<T>, p: seq<T>, front: seq<T>, qFront: seq<T>, last: T, qLast: T)
    requires p == [x] + q && |q| > 0
    requires front == p[..|p| - 1] && qFront == q[..|q| - 1]
    requires last == p[|p| - 1] && qLast == q[|q| - 1]
    ensures front == [x] + qFront && last == qLast
  {
  }

  /**
   * The reader hands on exactly the complete lines of what it received, in
   * order, and keeps what follows the last line feed for the next read.
   */
  lemma {:induction false} ReadPendingSplits(c: Conn, connectGCode: string)
    ensures var r := ReadPending(c, connectGCode);
      && r.rest.pending == Remainder(c.rest.pending)
      && r.rest.linesRead == c.rest.linesRead + CompleteLines(c.rest.pending)
      && r.sent == c.sent
    decreases |c.rest.pending|
  {
    var buffer := c.rest.pending;
    var i := IndexOf(buffer, '\n');
    if i >= 0 {
      var next := HandleLine(c.(rest := c.rest.(pending := buffer[i + 1..])), buffer[..i], connectGCode);
      assert next.rest.pending == buffer[i + 1..];
      assert next.rest.linesRead == c.rest.linesRead + [buffer[..i]];
      ReadPendingSplits(next, connectGCode);
      LinesAfterFirst(buffer, i);
      ReadPendingStep(c, connectGCode);
      Reassociate(c.rest.linesRead, buffer[..i], CompleteLines(buffer[i + 1..]));
    } else {
      ReadPendingDone(c, connectGCode);
      assert Split(buffer, '\n') == [buffer];
    }
  }

  /** Once the connection attempt is over, reading never touches the link. */
  lemma {:induction false} ReadPendingKeepsLink(c: Conn, connectGCode: string)
    requires c.link.machine.state != AttemptingToConnect
    ensures ReadPending(c, connectGCode).link == c.link
    decreases |c.rest.pending|
  {
    var buffer := c.rest.pending;
    var i := IndexOf(buffer, '\n');
    if i >= 0 {
      var next := HandleLine(c.(rest := c.rest.(pending := buffer[i + 1..])), buffer[..i], connectGCode);
      assert next.link == c.link && next.rest.pending == buffer[i + 1..];
      ReadPendingKeepsLink(next, connectGCode);
      ReadPendingStep(c, connectGCode);
    } else {
      ReadPendingDone(c, connectGCode);
    }
  }

  /**
   * The handshake: while connecting, the first complete line decides it,
   * connecting the printer when it holds fewer than three `?` and aborting
   * the attempt otherwise; with no complete line yet, more than three `?`
   * abort it. Outside a connection attempt the link is left as it is.
   */
  lemma ReadPendingHandshake(c: Conn, connectGCode: string)
    ensures var r := ReadPending(c, connectGCode);
      var buffer := c.rest.pending;
      var lines := CompleteLines(buffer);
      r.link == if c.link.machine.state != AttemptingToConnect then c.link
                else if lines == [] then
                  (if BufferRejected(buffer) then SetStateOf(CloseLink(c.link), FailedToConnect) else c.link)
                else if HandshakeAccepts(lines[0]) then SendLine(SetStateOf(c.link, Connected), connectGCode)
                else SetStateOf(CloseLink(c.link), FailedToConnect)
  {
    var buffer := c.rest.pending;
    var i := IndexOf(buffer, '\n');
    if c.link.machine.state != AttemptingToConnect {
      ReadPendingKeepsLink(c, connectGCode);
    } else if i < 0 {
      assert Split(buffer, '\n') == [buffer];
    } else {
      LinesAfterFirst(buffer, i);
      var next := HandleLine(c.(rest := c.rest.(pending := buffer[i + 1..])), buffer[..i], connectGCode);
      if HandshakeAccepts(buffer[..i]) {
        var k := SetStateOf(c.link, Connected);
        SendLineSends(k, connectGCode);
        assert next.link == SendLine(k, connectGCode);
      }
      ReadPendingKeepsLink(next, connectGCode);
    }
  }

  class PrinterConnection {
    // communicationState, prePauseCommunicationState, whether the print
    // stopwatch runs, and the state events raised so far
    var state: CommunicationState
    var prePause: CommunicationState
    var printTimerRunning: bool
    var events: seq<Event>
    // loadedGCode and printerCommandQueueLineIndex
    var program: seq<string>
    var cursor: int
    // LinesToWriteQueue, the port and what was written to it
    var queue: seq<string>
    var output: seq<string>
    var waitingForOk: bool
    var portOpen: bool
    var forceImmediateWrites: bool
    // firstLineToResendIndex and the rest
    var resendIndex: int
    var printWasCanceled: bool
    var waitingForPosition: bool
    var fanSpeed: int
    var extruderTargets: seq<int>
    var bedTarget: int
    // the reader's unfinished line, the lines it handed on, the failure message
    var pending: string
    var linesRead: seq<string>
    var connectionFailureMessage: string

    const ledger: CheckSumLines
    const readThreads: ReadThreads
    /** GCodeFile.CalculateChecksum. */
    const checksum: string -> Int32

    ghost predicate Valid()
      reads this, ledger, ledger.ringBuffer
    {
      && ledger.Valid()
      && |extruderTargets| == MaxExtruders
      && -1 <= cursor <= |program|
      && 0 <= fanSpeed <= 255
      && CleanQueue(queue)
    }

    ghost function Machine(): StateMachine
      reads this
    {
      StateMachine(state, prePause, printTimerRunning, events)
    }

    ghost function Snapshot(): Link
      reads this
    {
      GCodeQueue.Link(Machine(), program, cursor, queue, output, waitingForOk, portOpen, forceImmediateWrites)
    }

    ghost function Rest(): Others
      reads this
    {
      Others(resendIndex, printWasCanceled, waitingForPosition, fanSpeed, extruderTargets,
             bedTarget, pending, linesRead, connectionFailureMessage)
    }

    /** What the writer tick reads and writes. */
    ghost function Now(): Conn
      reads this, ledger
    {
      Conn(Snapshot(), Rest(), ledger.lines)
    }

    /** The field initialisers: disconnected, no program, cursor before it. */
    constructor (checksum: string -> Int32)
      ensures Valid() && fresh(ledger) && fresh(readThreads)
      ensures state == Disconnected && prePause == Printing && events == []
      ensures program == [] && cursor == -1 && resendIndex == 0 && ledger.lines == []
      ensures queue == [] && output == [] && !portOpen && !forceImmediateWrites
      ensures this.checksum == checksum
    {
      state := Disconnected;
      prePause := Printing;
      printTimerRunning := false;
      events := [];
      program := [];
      cursor := -1;
      queue := [];
      output := [];
      waitingForOk := false;
      portOpen := false;
      forceImmediateWrites := false;
      resendIndex := 0;
      printWasCanceled := false;
      waitingForPosition := false;
      fanSpeed := 0;
      extruderTargets := seq(MaxExtruders, _ => 0);
      bedTarget := 0;
      pending := "";
      linesRead := [];
      connectionFailureMessage := "";
      ledger := new CheckSumLines();
      readThreads := new ReadThreads();
      this.checksum := checksum;
    }

    /** The CommunicationState setter (the bookkeeping is SetState's). */
    method SetCommunicationState(value: CommunicationState)
      requires Valid()
      modifies this
      ensures Valid()
      ensures Snapshot() == SetStateOf(old(Snapshot()), value)
      ensures Rest() == old(Rest())
    {
      var m := SetState(StateMachine(state, prePause, printTimerRunning, events), value);
      SetMachine(m);
    }

    /** The four fields the setter writes, given their new values. */
    method SetMachine(m: StateMachine)
      requires Valid()
      modifies this
      ensures Valid()
      ensures Snapshot() == old(Snapshot()).(machine := m)
      ensures Rest() == old(Rest())
    {
      state, prePause, printTimerRunning, events := m.state, m.prePause, m.printTimerRunning, m.events;
    }

    /** OnConnectionFailed: the state becomes FailedToConnect. */
    method OnConnectionFailed()
      requires Valid()
      modifies this
      ensures Valid()
      ensures Snapshot() == old(Snapshot()).(machine := SetState(old(Machine()), FailedToConnect))
      ensures Rest() == old(Rest())
    {
      SetCommunicationState(FailedToConnect);
    }

    /** WriteToPrinter. */
    method WriteToPrinter(text: string)
      requires Valid()
      modifies this
      ensures Valid()
      ensures Snapshot() == Write(old(Snapshot()), text)
      ensures Rest() == old(Rest())
    {
      if PrinterIsConnected(state) || state == AttemptingToConnect {
        if portOpen {
          output := output + [text];
          waitingForOk := true;
        } else {
          OnConnectionFailed();
        }
      }
    }

    /**
     * SendLineToPrinterNow: text holding line feeds (after `\\n` is
     * unescaped) goes to SendLinesToPrinterNow; otherwise the command before
     * any `;`, trimmed, is sent.
     */
    method SendLineToPrinterNow(text: string)
      requires Valid()
      modifies this
      ensures Valid()
      ensures Snapshot() == SendLine(old(Snapshot()), text)
      ensures Rest() == old(Rest())
      decreases |text|, 2
    {
      var u := UnescapeNewlines(text);
      if '\n' in u {
        SendLinesToPrinterNow(Split(u, '\n'));
      } else {
        SendCommandNow(u);
      }
    }

    /**
     * The rest of SendLineToPrinterNow for text without line feeds: while
     * streaming the command is slipped in after the cursor unless the next
     * line already holds it; otherwise it is written at once when immediate
     * writes are forced, or queued unless it repeats the last queued line.
     */
    method SendCommandNow(u: string)
      requires Valid() && '\n' !in u
      modifies this
      ensures Valid()
      ensures Snapshot() == QueueCommand(old(Snapshot()), Trim(FirstField(u, ';')))
      ensures Rest() == old(Rest())
    {
      var line := Trim(FirstField(u, ';'));
      if line == [] {
        return;
      }
      StrippedIsClean(u);
      if PrinterIsPrinting(state) && state != PrintingFromSd {
        SlipIn(line);
      } else if forceImmediateWrites {
        WriteToPrinter(line + "\r\n");
      } else {
        Enqueue(line);
      }
    }

    /** While streaming: the command goes just after the cursor unless the next line already holds it. */
    method SlipIn(line: string)
      requires Valid() && line != [] && Streaming(state)
      modifies this
      ensures Valid()
      ensures Snapshot() == QueueCommand(old(Snapshot()), line)
      ensures Rest() == old(Rest())
    {
      if 0 <= cursor < |program| - 1 && !Contains(program[cursor + 1], line) {
        program := Insert(program, cursor + 1, line);
      }
    }

    /** Otherwise: the command is queued unless it repeats the last queued line. */
    method Enqueue(line: string)
      requires Valid() && CleanCommand(line) && !Streaming(state) && !forceImmediateWrites
      modifies this
      ensures Valid()
      ensures Snapshot() == QueueCommand(old(Snapshot()), line)
      ensures Rest() == old(Rest())
    {
      if queue == [] || queue[|queue| - 1] != line {
        queue := queue + [line];
      }
    }

    /** SendLinesToPrinterNow: last line first while streaming, first line first otherwise. */
    method SendLinesToPrinterNow(lines: seq<string>)
      requires Valid()
      modifies this
      ensures Valid()
      ensures Snapshot() == SendLines(old(Snapshot()), lines)
      ensures Rest() == old(Rest())
      decreases MaxLen(lines) + 1, 1
    {
      if PrinterIsPrinting(state) && state != PrintingFromSd {
        SendLastFirst(lines);
      } else {
        SendFirstFirst(lines);
      }
    }

    /** SendLinesToPrinterNow's loop while streaming. */
    method SendLastFirst(lines: seq<string>)
      requires Valid()
      modifies this
      ensures Valid()
      ensures Snapshot() == SendBackward(old(Snapshot()), lines)
      ensures Rest() == old(Rest())
      decreases MaxLen(lines) + 1, 0
    {
      var i := |lines|;
      assert lines[..i] == lines;
      while i > 0
        invariant 0 <= i <= |lines|
        invariant Valid()
        invariant SendBackward(Snapshot(), lines[..i]) == SendBackward(old(Snapshot()), lines)
        invariant Rest() == old(Rest())
        decreases i
      {
        assert lines[..i][..i - 1] == lines[..i - 1];
        i := i - 1;
        var line := Trim(lines[i]);
        if line != [] {
          SendLineToPrinterNow(line);
        }
      }
    }

    /** SendLinesToPrinterNow's loop otherwise. */
    method SendFirstFirst(lines: seq<string>)
      requires Valid()
      modifies this
      ensures Valid()
      ensures Snapshot() == SendForward(old(Snapshot()), lines)
      ensures Rest() == old(Rest())
      decreases MaxLen(lines) + 1, 0
    {
      var i := 0;
      while i < |lines|
        invariant 0 <= i <= |lines|
        invariant Valid()
        invariant SendForward(Snapshot(), lines[i..]) == SendForward(old(Snapshot()), lines)
        invariant Rest() == old(Rest())
      {
        assert lines[i..][1..] == lines[i + 1..];
        var line := Trim(lines[i]);
        if line != [] {
          SendLineToPrinterNow(line);
        }
        i := i + 1;
      }
    }

      /** FanSpeed0To255's setter. */
    method SetFanSpeed(value: int)
      requires Valid()
      modifies this
      ensures Valid()
      ensures fanSpeed == ClampFanSpeed(value)
      ensures Snapshot() == SendIfConnected(old(Snapshot()), true, FanCommand(fanSpeed))
      ensures Rest() == old(Rest()).(fanSpeed := fanSpeed)
    {
      fanSpeed := ClampFanSpeed(value);
      if PrinterIsConnected(state) {
        SendLineToPrinterNow(FanCommand(fanSpeed));
      }
    }

    /** TargetBedTemperature's setter: nothing happens unless the target changes. */
    method SetTargetBedTemperature(temperature: int)
      requires Valid()
      modifies this
      ensures Valid()
      ensures bedTarget == temperature
      ensures Snapshot() == SendIfConnected(old(Snapshot()), old(bedTarget) != temperature, BedCommand(temperature))
      ensures Rest() == old(Rest()).(bedTarget := temperature)
    {
      if bedTarget != temperature {
        bedTarget := temperature;
        if PrinterIsConnected(state) {
          SendLineToPrinterNow(BedCommand(temperature));
        }
      }
    }

    /**
     * SetTargetExtruderTemperature: the index is clamped from above only, so
     * a negative index fails (the array access throws) and changes nothing.
     */
    method SetTargetExtruderTemperature(extruderIndex: int, temperature: int)
      requires Valid()
      modifies this
      ensures Valid()
      ensures ClampExtruderIndex(extruderIndex) < 0 ==> Snapshot() == old(Snapshot()) && Rest() == old(Rest())
      ensures var i := ClampExtruderIndex(extruderIndex);
        i >= 0 ==>
          && extruderTargets == old(extruderTargets)[i := temperature]
          && Snapshot() == SendIfConnected(old(Snapshot()), old(extruderTargets)[i] != temperature, ExtruderCommand(i, temperature))
          && Rest() == old(Rest()).(extruderTargets := extruderTargets)
    {
      var i := ClampExtruderIndex(extruderIndex);
      if i < 0 {
        return;
      }
      if extruderTargets[i] != temperature {
        extruderTargets := extruderTargets[i := temperature];
        if PrinterIsConnected(state) {
          SendLineToPrinterNow(ExtruderCommand(i, temperature));
        }
      }
    }

    /** ReadPosition: asks for the position with M114. */
    method ReadPosition()
      requires Valid()
      modifies this
      ensures Valid()
      ensures Snapshot() == SendLine(old(Snapshot()), "M114")
      ensures Rest() == old(Rest())
    {
      SendLineToPrinterNow("M114");
    }

    /** ReleaseMotors: M84. */
    method ReleaseMotors()
      requires Valid()
      modifies this
      ensures Valid()
      ensures Snapshot() == SendLine(old(Snapshot()), "M84")
      ensures Rest() == old(Rest())
    {
      SendLineToPrinterNow("M84");
    }

    /** HomeAxis: the homing command, then a position request. */
    method HomeAxis(axis: bv8)
      requires Valid()
      modifies this
      ensures Valid()
      ensures Snapshot() == SendLine(SendLine(old(Snapshot()), HomeAxisCommand(axis)), "M114")
      ensures Rest() == old(Rest())
    {
      SendLineToPrinterNow(HomeAxisCommand(axis));
      ReadPosition();
    }

    /** TurnOffBedAndExtruders: the first two extruders and the bed get a target of zero. */
    method TurnOffBedAndExtruders()
      requires Valid()
      modifies this
      ensures Valid()
      ensures extruderTargets == old(extruderTargets)[0 := 0][1 := 0] && bedTarget == 0
      ensures Snapshot() == TurnOffSends(old(Snapshot()), old(extruderTargets), old(bedTarget))
      ensures Rest() == old(Rest()).(extruderTargets := extruderTargets, bedTarget := 0)
    {
      SetTargetExtruderTemperature(0, 0);
      SetTargetExtruderTemperature(1, 0);
      SetTargetBedTemperature(0);
    }

    /** PrinterRequestsResend: a readable request moves the replay point to the line before it. */
    method PrinterRequestsResend(line: string)
      requires Valid()
      modifies this
      ensures Valid()
      ensures ParseResend(line).Some? ==> resendIndex == ParseResend(line).value - 1
      ensures ParseResend(line).None? ==> resendIndex == old(resendIndex)
      ensures Snapshot() == old(Snapshot())
      ensures Rest() == old(Rest()).(resendIndex := resendIndex)
    {
      var n := ParseResend(line);
      if n.Some? {
        resendIndex := n.value - 1;
      }
    }

    /** PrintingCanContinue: the `ok` arrived, so the wait for it stops. */
    method PrintingCanContinue()
      requires Valid()
      modifies this
      ensures Valid()
      ensures Snapshot() == old(Snapshot()).(waitingForOk := false)
      ensures Rest() == old(Rest())
    {
      waitingForOk := false;
    }

    /**
     * WriteChecksumLineToPrinter: the line, in upper case and trimmed as
     * ApplyExtrusionMultiplier leaves it, is numbered one past the ledger,
     * checksummed, recorded in the ledger and written (UnframeFrameLine
     * shows how the printer reads it back).
     */
    method WriteChecksumLineToPrinter(line: string)
      requires Valid()
      modifies this, ledger, ledger.ringBuffer
      ensures Valid()
      ensures ledger.lines == old(ledger.lines) + [FrameLine(|old(ledger.lines)|, ToUpper(Trim(line)), checksum)]
      ensures Snapshot() == Write(old(Snapshot()), FrameLine(|old(ledger.lines)|, ToUpper(Trim(line)), checksum) + "\r\n")
      ensures Rest() == old(Rest())
    {
      var framed := FrameLine(ledger.Count(), Normalized(line), checksum);
      ledger.Add(framed);
      WriteToPrinter(framed + "\r\n");
    }

    /** WriteNextLineFromQueue: the first queued line leaves the queue and is written. */
    method WriteNextLineFromQueue()
      requires Valid() && queue != []
      modifies this
      ensures Valid()
      ensures Snapshot() == Write(old(Snapshot()).(queue := old(queue)[1..]), old(queue)[0] + "\r\n")
      ensures Rest() == old(Rest())
    {
      var line := queue[0];
      queue := queue[1..];
      WriteToPrinter(line + "\r\n");
    }

    /** OnIdle's loop over the queue. */
    method WriteQueuedLines(waitedTooLong: bool)
      requires Valid()
      modifies this
      ensures Valid()
      ensures Snapshot() == Drain(old(Snapshot()), waitedTooLong)
      ensures Rest() == old(Rest())
    {
      while queue != [] && (!waitingForOk || waitedTooLong)
        invariant Valid()
        invariant Drain(Snapshot(), waitedTooLong) == Drain(old(Snapshot()), waitedTooLong)
        invariant Rest() == old(Rest())
        decreases |queue|
      {
        WriteNextLineFromQueue();
      }
    }

    /** ClearQueuedGCode: an empty program, a fresh ledger that starts with `M110 S1`, replay from line one. */
    method ClearQueuedGCode()
      requires Valid()
      modifies this, ledger, ledger.ringBuffer
      ensures Valid()
      ensures ledger.lines == [FrameLine(0, ResetLineNumber, checksum)]
      ensures Snapshot() == Cleared(old(Snapshot()), FrameLine(0, ResetLineNumber, checksum))
      ensures resendIndex == 1
      ensures Rest() == old(Rest()).(resendIndex := 1)
    {
      DropProgram();
      ledger.Clear();
      ResetLineIsNormalized();
      WriteChecksumLineToPrinter(ResetLineNumber);
      resendIndex := 1;
    }

    /** The first half of ClearQueuedGCode: no program, the cursor at its start. */
    method DropProgram()
      requires Valid()
      modifies this
      ensures Valid()
      ensures Snapshot() == old(Snapshot()).(program := [], cursor := 0)
      ensures Rest() == old(Rest())
    {
      program := [];
      cursor := 0;
    }
      /**
     * InjectGCode: the text's pieces, last first, each stripped of its
     * comment, trimmed and upper-cased, macro-expanded and inserted at
     * `start` (or added at the end when `start` is past it); the result is
     * `start` plus the number of lines added.
     */
    method InjectGCode(code: string, start: nat, restore: RestoreLines) returns (next: nat)
      requires Valid()
      modifies this
      ensures Valid()
      ensures program == Inject(old(program), start, code, restore)
      ensures next == start + |KeptLines(code, restore)|
      ensures Snapshot() == old(Snapshot()).(program := program)
      ensures Rest() == old(Rest())
    {
      // the program is edited in a local and stored once the loop is done
      var pieces := Split(UnescapeNewlines(code), '\n');
      var edited := program;
      var added := 0;
      var i := |pieces|;
      while i > 0
        invariant 0 <= i <= |pieces|
        invariant edited == InjectPieces(program, start, pieces[i..], restore)
        invariant added == |Kept(pieces[i..], restore)|
        decreases i
      {
        i := i - 1;
        assert pieces[i..][1..] == pieces[i + 1..];
        var line := Injected(pieces[i], restore);
        if line.Some? {
          if |edited| > start {
            edited := Insert(edited, start, line.value);
          } else {
            edited := edited + [line.value];
          }
          added := added + 1;
        }
      }
      assert pieces[0..] == pieces;
      InjectGrows(program, start, pieces, restore);
      program := edited;
      next := start + added;
    }

    /** DoPause: a running print becomes paused. */
    method DoPause()
      requires Valid()
      modifies this
      ensures Valid()
      ensures Snapshot() == DoPauseLink(old(Snapshot()))
      ensures Rest() == old(Rest())
    {
      if PrinterIsPrinting(state) {
        SetCommunicationState(Paused);
      }
    }

    /**
     * RequestPause. An index of 0 means "at the cursor". An SD print is
     * paused by M25. A host print gets its pause block injected (PauseAt
     * says what the program then holds); a negative index fails in the
     * injection and changes nothing. Each injection starts where the
     * previous one's lines end, except that without a pause macro the
     * restore line is injected at the same index as the resume macro, and so
     * lands in front of it.
     */
    method RequestPause(injectionStartIndex: int, pauseGCode: string, resumeGCode: string, restore: RestoreLines)
      requires Valid()
      modifies this
      ensures Valid()
      ensures Rest() == old(Rest())
      ensures !PrinterIsPrinting(old(state)) ==> Snapshot() == old(Snapshot())
      ensures old(state) == PrintingFromSd ==> Snapshot() == SendLine(SetStateOf(old(Snapshot()), Paused), "M25")
      ensures var start := if injectionStartIndex == 0 then old(cursor) else injectionStartIndex;
        old(state) == Printing ==>
          && (start < 0 ==> Snapshot() == old(Snapshot()))
          && (0 <= start <= |old(program)| ==> Snapshot() == PauseAt(old(Snapshot()), start, pauseGCode, resumeGCode, restore))
          && (|old(program)| < start ==> AddedAfter(old(program), program, PauseLines(pauseGCode, resumeGCode, restore)))
          && (|old(program)| < start && Trim(pauseGCode) == [] ==>
                Snapshot() == SetStateOf(old(Snapshot()).(program := program), Paused))
          && (|old(program)| < start && Trim(pauseGCode) != [] ==> Snapshot() == old(Snapshot()).(program := program))
    {
      var start := if injectionStartIndex == 0 then cursor else injectionStartIndex;
      if PrinterIsPrinting(state) {
        if state == PrintingFromSd {
          SetCommunicationState(Paused);
          SendLineToPrinterNow("M25");
          return;
        }
        if start < 0 {
          return;
        }
        if Trim(pauseGCode) == [] {
          PauseNow(start, pauseGCode, resumeGCode, restore);
        } else {
          PauseAtMarker(start, pauseGCode, resumeGCode, restore);
        }
      }
    }

    /** RequestPause without a pause macro: the resume macro, then the restore line in front of it, then DoPause. */
    method PauseNow(start: nat, pauseGCode: string, resumeGCode: string, restore: RestoreLines)
      requires Valid() && Trim(pauseGCode) == []
      modifies this
      ensures Valid()
      ensures Snapshot() == DoPauseLink(old(Snapshot()).(program := program))
      ensures start <= |old(program)| ==> program == PausedProgram(old(program), start, pauseGCode, resumeGCode, restore)
      ensures |old(program)| <= start ==> AddedAfter(old(program), program, PauseLines(pauseGCode, resumeGCode, restore))
      ensures Rest() == old(Rest())
    {
      ghost var k := Snapshot();
      var _ := InjectGCode(resumeGCode, start, restore);
      var _ := InjectGCode(restore.xyz, start, restore);
      assert Snapshot() == k.(program := program);
      if start <= |k.program| {
        ResumeBlock(k.program, start, resumeGCode, restore);
      }
      if |k.program| <= start {
        ResumeBlockPast(k.program, start, pauseGCode, resumeGCode, restore);
      }
      ghost var injected := program;
      DoPause();
      assert program == injected;
    }

    /** RequestPause with a pause macro: the macro, the marker, the resume macro and the restore line, in order. */
    method PauseAtMarker(start: nat, pauseGCode: string, resumeGCode: string, restore: RestoreLines)
      requires Valid() && Trim(pauseGCode) != []
      modifies this
      ensures Valid()
      ensures Snapshot() == old(Snapshot()).(program := program)
      ensures start <= |old(program)| ==> program == PausedProgram(old(program), start, pauseGCode, resumeGCode, restore)
      ensures |old(program)| <= start ==> AddedAfter(old(program), program, PauseLines(pauseGCode, resumeGCode, restore))
      ensures Rest() == old(Rest())
    {
      ghost var before := program;
      var i1 := InjectGCode(pauseGCode, start, restore);
      var i2 := InjectGCode(PauseMarker, i1, restore);
      var i3 := InjectGCode(resumeGCode, i2, restore);
      var _ := InjectGCode(restore.xyz, i3, restore);
      if start <= |before| {
        KeptMarker(restore);
        PauseBlock(before, start, pauseGCode, PauseMarker, resumeGCode, restore, i1, i2, i3);
      }
      if |before| <= start {
        PauseBlockPast(before, start, pauseGCode, resumeGCode, restore, i1, i2, i3);
      }
    }

    /**
     * TryWriteNextLineFromGCodeFile, the writer tick of a host print. While
     * the `ok` for the last line is awaited in the middle of the program the
     * tick waits, unless the printer has gone quiet or a move is overdue: then
     * the replay point steps back one line, so that the last line is sent
     * again. The rest is NextLine's.
     */
    method TryWriteNextLineFromGCodeFile(noResponseTimeout: bool, moveOverdue: bool, positionWaitExpired: bool,
                                         pauseGCode: string, resumeGCode: string, restore: RestoreLines)
      requires Valid()
      modifies this, ledger, ledger.ringBuffer
      ensures Valid()
      ensures var g := GateOnOk(old(waitingForOk), old(cursor), old(program), noResponseTimeout, moveOverdue);
        var from := if g == ForceResend then old(resendIndex) - 1 else old(resendIndex);
        && (g == Wait ==> Now() == old(Now()))
        && (g != Wait ==>
              Now() == NextLine(old(Now()).(rest := old(Rest()).(resendIndex := from)), old(ledger.Get(from)),
                                positionWaitExpired, pauseGCode, resumeGCode, restore, checksum))
    {
      var gate := GateOnOk(waitingForOk, cursor, program, noResponseTimeout, moveOverdue);
      if gate == Wait {
        return;
      }
      if gate == ForceResend {
        resendIndex := resendIndex - 1;
      }
      WriteNextLine(positionWaitExpired, pauseGCode, resumeGCode, restore);
    }

    /**
     * The tick past the wait for `ok`. The cursor never passes the end of
     * the program, so past it the print is either canceled or finished.
     */
    method WriteNextLine(positionWaitExpired: bool, pauseGCode: string, resumeGCode: string, restore: RestoreLines)
      requires Valid()
      modifies this, ledger, ledger.ringBuffer
      ensures Valid()
      ensures Now() == NextLine(old(Now()), old(ledger.Get(resendIndex)), positionWaitExpired,
                                pauseGCode, resumeGCode, restore, checksum)
    {
      if cursor < |program| {
        if resendIndex < ledger.Count() {
          ReplayNext();
        } else if waitingForPosition && !positionWaitExpired {
          return;
        } else if cursor < 0 {
          // loadedGCode.Instruction(-1) throws before anything changes
          return;
        } else {
          var pauseRequested := TakeProgramLine(pauseGCode, resumeGCode, restore);
          if pauseRequested {
            DoPause();
          }
        }
      } else if printWasCanceled {
        EndCanceledPrint();
      } else {
        FinishPrint();
      }
    }

    /**
     * A resend: the ledger's line at the replay point is written again and
     * the replay point moves on (it moves on even when the slot cannot be
     * read and the indexer throws).
     */
    method ReplayNext()
      requires Valid()
      modifies this
      ensures Valid()
      ensures Snapshot() == Replayed(old(Snapshot()), old(ledger.Get(resendIndex)))
      ensures Rest() == old(Rest()).(resendIndex := old(resendIndex) + 1)
    {
      var entry := ledger.Get(resendIndex);
      resendIndex := resendIndex + 1;
      if entry.Some? {
        WriteToPrinter(entry.value + "\n");
      }
    }

    /**
     * The line at the cursor taken (TakeLine); the result says whether it
     * was the pause marker. ActionFor makes the source's tests on the line:
     * no command, the marker, a pause command, anything else.
     */
    method TakeProgramLine(pauseGCode: string, resumeGCode: string, restore: RestoreLines) returns (pauseRequested: bool)
      requires Valid() && 0 <= cursor < |program|
      modifies this, ledger, ledger.ringBuffer
      ensures Valid()
      ensures pauseRequested <==> ActionFor(old(program)[old(cursor)]) == MarkPause
      ensures Now() == TakeLine(old(Now()), pauseGCode, resumeGCode, restore, checksum)
    {
      ghost var c := Now();
      var line := program[cursor];
      var action := ActionFor(line);
      WatchForPosition(line);
      ghost var watched := Now();
      pauseRequested := action == MarkPause;
      if action != Skip {
        RunLineCommand(action, line, pauseGCode, resumeGCode, restore);
        CountLine();
      }
      assert Now() == if action == Skip then watched
                      else Counted(CommandEffect(watched, action, line, pauseGCode, resumeGCode, restore, checksum));
      MoveCursor();
    }

    /** `printerCommandQueueLineIndex++`: the cursor on to the next line. */
    method MoveCursor()
      requires Valid() && cursor < |program|
      modifies this
      ensures Valid()
      ensures Now() == old(Now()).(link := old(Snapshot()).(cursor := old(cursor) + 1))
    {
      cursor := cursor + 1;
    }

    /** A line asking for the position starts the wait for the position report. */
    method WatchForPosition(line: string)
      requires Valid()
      modifies this
      ensures Valid()
      ensures cursor == old(cursor) && program == old(program)
      ensures Now() == old(Now()).(rest := old(Rest()).(waitingForPosition := old(waitingForPosition) || Contains(line, "M114")))
    {
      if Contains(line, "M114") {
        waitingForPosition := true;
      }
    }

    /** The command of a line taken from the program. */
    method RunLineCommand(action: LineAction, line: string, pauseGCode: string, resumeGCode: string, restore: RestoreLines)
      requires Valid() && 0 <= cursor < |program|
      modifies this, ledger, ledger.ringBuffer
      ensures Valid()
      ensures cursor == old(cursor) && |program| >= |old(program)|
      ensures Now() == CommandEffect(old(Now()), action, line, pauseGCode, resumeGCode, restore, checksum)
    {
      if action == PauseHere {
        PauseLineCommand(line, pauseGCode, resumeGCode, restore);
      } else if action == Send {
        SendLineCommand(line, pauseGCode, resumeGCode, restore);
      }
    }

    /** M226 or @pause: a pause requested just after the cursor. */
    method PauseLineCommand(line: string, pauseGCode: string, resumeGCode: string, restore: RestoreLines)
      requires Valid() && 0 <= cursor < |program|
      modifies this
      ensures Valid()
      ensures cursor == old(cursor) && |program| >= |old(program)|
      ensures Now() == CommandEffect(old(Now()), PauseHere, line, pauseGCode, resumeGCode, restore, checksum)
    {
      PauseAfterCursor(pauseGCode, resumeGCode, restore);
    }

    /** Any other command: numbered, checksummed, recorded and written. */
    method SendLineCommand(line: string, pauseGCode: string, resumeGCode: string, restore: RestoreLines)
      requires Valid() && 0 <= cursor < |program|
      modifies this, ledger, ledger.ringBuffer
      ensures Valid()
      ensures cursor == old(cursor) && program == old(program)
      ensures Now() == CommandEffect(old(Now()), Send, line, pauseGCode, resumeGCode, restore, checksum)
    {
      WriteChecksumLineToPrinter(line);
    }

    /** `firstLineToResendIndex++` once a command is taken. */
    method CountLine()
      requires Valid()
      modifies this
      ensures Valid()
      ensures cursor == old(cursor) && program == old(program)
      ensures Now() == Counted(old(Now()))
    {
      resendIndex := resendIndex + 1;
    }

    /** RequestPause at the line just after the cursor. */
    method PauseAfterCursor(pauseGCode: string, resumeGCode: string, restore: RestoreLines)
      requires Valid() && 0 <= cursor < |program|
      modifies this
      ensures Valid()
      ensures Snapshot() == RequestPauseLink(old(Snapshot()), old(cursor) + 1, pauseGCode, resumeGCode, restore)
      ensures cursor == old(cursor) && |program| >= |old(program)|
      ensures Rest() == old(Rest())
    {
      ghost var k := Snapshot();
      RequestPause(cursor + 1, pauseGCode, resumeGCode, restore);
      RequestPauseLinkKeeps(k, k.cursor + 1, pauseGCode, resumeGCode, restore);
      if k.machine.state == Printing {
        assert Snapshot() == PauseAt(k, k.cursor + 1, pauseGCode, resumeGCode, restore);
      } else if k.machine.state == PrintingFromSd {
        assert Snapshot() == SendLine(SetStateOf(k, Paused), "M25");
      } else {
        assert Snapshot() == k;
      }
    }

    /** The tick past the end of a canceled print: connected again, motors released, heaters off. */
    method EndCanceledPrint()
      requires Valid()
      modifies this
      ensures Valid()
      ensures var s := ShutDown(old(Snapshot()), old(Rest()), Connected);
        Now() == s.(rest := s.rest.(printWasCanceled := false), sent := old(ledger.lines))
    {
      ShutDownTo(Connected);
      ClearCanceled();
    }

    /** `printWasCanceled = false`. */
    method ClearCanceled()
      requires Valid()
      modifies this
      ensures Valid()
      ensures Now() == old(Now()).(rest := old(Rest()).(printWasCanceled := false))
    {
      printWasCanceled := false;
    }

    /** The tick at the end of a finished print: FinishedPrint, motors released, heaters off. */
    method FinishPrint()
      requires Valid()
      modifies this
      ensures Valid()
      ensures Now() == ShutDown(old(Snapshot()), old(Rest()), FinishedPrint).(sent := old(ledger.lines))
    {
      ShutDownTo(FinishedPrint);
    }

    /** The state set, the motors released and the heaters turned off (ShutDown). */
    method ShutDownTo(to: CommunicationState)
      requires Valid()
      modifies this
      ensures Valid()
      ensures Now() == ShutDown(old(Snapshot()), old(Rest()), to).(sent := old(ledger.lines))
    {
      SetCommunicationState(to);
      ReleaseMotors();
      TurnOffBedAndExtruders();
    }

    /** Resume: a paused print goes back to how it was printing; an SD print is restarted with M24. */
    method Resume()
      requires Valid()
      modifies this
      ensures Valid()
      ensures Rest() == old(Rest())
      ensures !PrinterIsPaused(old(state)) ==> Snapshot() == old(Snapshot())
      ensures PrinterIsPaused(old(state)) ==>
        var resumed := SetStateOf(old(Snapshot()), ResumeTarget(old(Machine())));
        Snapshot() == if old(prePause) == PrintingFromSd then SendLine(resumed, "M24") else resumed
    {
      if PrinterIsPaused(state) {
        if prePause == PrintingFromSd {
          SetCommunicationState(PrintingFromSd);
          SendLineToPrinterNow("M24");
        } else {
          SetCommunicationState(Printing);
        }
      }
    }

    /** DonePrintingSdFile: the print is finished, the heaters are turned off and the motors released. */
    method DonePrintingSdFile()
      requires Valid()
      modifies this
      ensures Valid()
      ensures Snapshot() == SendLine(TurnOffSends(SetStateOf(old(Snapshot()), FinishedPrint), old(extruderTargets), old(bedTarget)), "M84")
      ensures extruderTargets == old(extruderTargets)[0 := 0][1 := 0] && bedTarget == 0
      ensures Rest() == old(Rest()).(extruderTargets := extruderTargets, bedTarget := 0)
    {
      SetCommunicationState(FinishedPrint);
      TurnOffBedAndExtruders();
      ReleaseMotors();
    }

    /**
     * CancelPrint: the program is dropped (ClearQueuedGCode) and the cancel
     * macro, if any, becomes the whole program; the print is marked canceled.
     */
    method CancelPrint(cancelGCode: string, restore: RestoreLines)
      requires Valid()
      modifies this, ledger, ledger.ringBuffer
      ensures Valid()
      ensures program == CancelProgram(cancelGCode, restore)
      ensures ledger.lines == [FrameLine(0, ResetLineNumber, checksum)]
      ensures Snapshot() == Cleared(old(Snapshot()), FrameLine(0, ResetLineNumber, checksum)).(program := program)
      ensures Rest() == old(Rest()).(resendIndex := 1, printWasCanceled := true)
    {
      ClearQueuedGCode();
      ghost var cleared := Snapshot();
      ghost var rest := Rest();
      if Trim(cancelGCode) != [] {
        InjectIntoEmpty(cancelGCode, restore);
        var _ := InjectGCode(cancelGCode, 0, restore);
      }
      assert Snapshot() == cleared.(program := program) && Rest() == rest;
      printWasCanceled := true;
    }

    /**
     * CancelSDCardPrint: the program is dropped, the printer told to stop
     * (M25) and rewind (M26) its SD print, and the print is then finished as
     * DonePrintingSdFile finishes it.
     */
    method CancelSDCardPrint()
      requires Valid()
      modifies this, ledger, ledger.ringBuffer
      ensures Valid()
      ensures ledger.lines == [FrameLine(0, ResetLineNumber, checksum)]
      ensures Snapshot() == CancelSdSends(old(Snapshot()), FrameLine(0, ResetLineNumber, checksum), old(extruderTargets), old(bedTarget))
      ensures Rest() == old(Rest()).(resendIndex := 1, extruderTargets := old(extruderTargets)[0 := 0][1 := 0], bedTarget := 0)
    {
      ghost var targets := extruderTargets;
      ghost var bed := bedTarget;
      ClearQueuedGCode();
      ghost var cleared := Snapshot();
      SetCommunicationState(Connected);
      assert Snapshot() == SetStateOf(cleared, Connected);
      SendLineToPrinterNow("M25");
      SendLineToPrinterNow("M26");
      ghost var stopped := Snapshot();
      DonePrintingSdFile();
      assert Snapshot() == SendLine(TurnOffSends(SetStateOf(stopped, FinishedPrint), targets, bed), "M84");
    }
      /**
     * Stop, by state: an SD print is canceled on the card; a host print is
     * canceled (its cancel macro still to be printed); a paused print the
     * same, an SD one then left connected and a host one set printing to
     * run the cancel macro; a connection attempt is abandoned, its reader
     * retired and its port closed; slicing is abandoned. Otherwise nothing.
     */
    method Stop(cancelGCode: string, restore: RestoreLines)
      requires Valid()
      modifies this, ledger, ledger.ringBuffer, readThreads
      ensures Valid()
      ensures var reset := FrameLine(0, ResetLineNumber, checksum);
        var targets := old(extruderTargets);
        var canceled := Cleared(old(Snapshot()), reset).(program := CancelProgram(cancelGCode, restore));
        Snapshot() == match old(state)
          case PrintingFromSd => CancelSdSends(old(Snapshot()), reset, targets, old(bedTarget))
          case Printing => canceled
          case Paused =>
            if old(prePause) == PrintingFromSd
            then SetStateOf(CancelSdSends(old(Snapshot()), reset, targets, old(bedTarget)), Connected)
            else SetStateOf(canceled, Printing)
          case AttemptingToConnect => CloseLink(SetStateOf(old(Snapshot()), FailedToConnect))
          case PreparingToPrint => SetStateOf(old(Snapshot()), Connected)
          case _ => old(Snapshot())
      ensures var sd := old(state) == PrintingFromSd || (old(state) == Paused && old(prePause) == PrintingFromSd);
        var host := old(state) == Printing || (old(state) == Paused && old(prePause) != PrintingFromSd);
        && (sd || host ==> ledger.lines == [FrameLine(0, ResetLineNumber, checksum)])
        && (sd ==> Rest() == old(Rest()).(resendIndex := 1, extruderTargets := old(extruderTargets)[0 := 0][1 := 0], bedTarget := 0))
        && (host ==> Rest() == old(Rest()).(resendIndex := 1, printWasCanceled := true))
        && (!sd && !host ==> Rest() == old(Rest()) && ledger.lines == old(ledger.lines))
      ensures readThreads.currentIndex == old(readThreads.currentIndex) + (if old(state) == AttemptingToConnect then 1 else 0)
      ensures readThreads.numRunning == old(readThreads.numRunning)
    {
      match state {
        case PrintingFromSd =>
          CancelSDCardPrint();
        case Printing =>
          CancelPrint(cancelGCode, restore);
        case Paused =>
          if prePause == PrintingFromSd {
            CancelPausedSdPrint();
          } else {
            CancelPausedPrint(cancelGCode, restore);
          }
        case AttemptingToConnect =>
          AbandonConnection();
        case PreparingToPrint =>
          SetCommunicationState(Connected);
        case _ =>
      }
    }

    /** Stop on a paused SD print: canceled on the card, then left connected. */
    method CancelPausedSdPrint()
      requires Valid()
      modifies this, ledger, ledger.ringBuffer
      ensures Valid()
      ensures ledger.lines == [FrameLine(0, ResetLineNumber, checksum)]
      ensures Snapshot() == SetStateOf(CancelSdSends(old(Snapshot()), FrameLine(0, ResetLineNumber, checksum), old(extruderTargets), old(bedTarget)), Connected)
      ensures Rest() == old(Rest()).(resendIndex := 1, extruderTargets := old(extruderTargets)[0 := 0][1 := 0], bedTarget := 0)
    {
      CancelSDCardPrint();
      SetCommunicationState(Connected);
    }

    /** Stop on a paused host print: canceled, then set printing so the cancel macro runs. */
    method CancelPausedPrint(cancelGCode: string, restore: RestoreLines)
      requires Valid()
      modifies this, ledger, ledger.ringBuffer
      ensures Valid()
      ensures ledger.lines == [FrameLine(0, ResetLineNumber, checksum)]
      ensures Snapshot() == SetStateOf(Cleared(old(Snapshot()), FrameLine(0, ResetLineNumber, checksum)).(program := CancelProgram(cancelGCode, restore)), Printing)
      ensures Rest() == old(Rest()).(resendIndex := 1, printWasCanceled := true)
    {
      CancelPrint(cancelGCode, restore);
      SetCommunicationState(Printing);
    }

    /** Stop while connecting: FailedToConnect, then through Disconnecting (the reader retired) to a closed port. */
    method AbandonConnection()
      requires Valid()
      modifies this, readThreads
      ensures Valid()
      ensures Snapshot() == CloseLink(SetStateOf(old(Snapshot()), FailedToConnect))
      ensures Rest() == old(Rest())
      ensures readThreads.currentIndex == old(readThreads.currentIndex) + 1
      ensures readThreads.numRunning == old(readThreads.numRunning)
    {
      SetCommunicationState(FailedToConnect);
      ClosePort(true);
    }

    /**
     * The shutdown Stop and AbortConnectionAttempt share: Disconnecting, the
     * reader retired if asked, the port closed, Disconnected. The reader's
     * counters are apart from the connection's fields, so retiring it after
     * the port is closed changes nothing the model sees.
     */
    method ClosePort(shutdownReadLoop: bool)
      requires Valid()
      modifies this, readThreads
      ensures Valid()
      ensures Snapshot() == CloseLink(old(Snapshot()))
      ensures Rest() == old(Rest())
      ensures readThreads.currentIndex == old(readThreads.currentIndex) + (if shutdownReadLoop then 1 else 0)
      ensures readThreads.numRunning == old(readThreads.numRunning)
    {
      ClosePortOnly();
      if shutdownReadLoop {
        readThreads.Join();
      }
    }

    /** Disconnecting, the port closed, Disconnected. */
    method ClosePortOnly()
      requires Valid()
      modifies this
      ensures Valid()
      ensures Snapshot() == CloseLink(old(Snapshot()))
      ensures Rest() == old(Rest())
    {
      SetCommunicationState(Disconnecting);
      portOpen := false;
      SetCommunicationState(Disconnected);
    }

    /**
     * AbortConnectionAttempt: through Disconnecting (retiring the reader if
     * asked), the port closed, Disconnected, the reason kept, and finally
     * FailedToConnect.
     */
    method AbortConnectionAttempt(abortReason: string, shutdownReadLoop: bool)
      requires Valid()
      modifies this, readThreads
      ensures Valid()
      ensures Snapshot() == SetStateOf(CloseLink(old(Snapshot())), FailedToConnect)
      ensures state == FailedToConnect && !portOpen
      ensures Rest() == old(Rest()).(connectionFailureMessage := abortReason)
      ensures readThreads.currentIndex == old(readThreads.currentIndex) + (if shutdownReadLoop then 1 else 0)
      ensures readThreads.numRunning == old(readThreads.numRunning)
    {
      if shutdownReadLoop {
        readThreads.Join();
      }
      FailConnection(abortReason);
    }

    /** AbortConnectionAttempt leaving the reader running, as the reader itself calls it. */
    method FailConnection(abortReason: string)
      requires Valid()
      modifies this
      ensures Valid()
      ensures Now() == Aborted(old(Now()), abortReason)
    {
      ClosePortOnly();
      connectionFailureMessage := abortReason;
      OnConnectionFailed();
    }

    /**
     * ReadFromPrinter's handling of one read from the port: carriage returns
     * become line feeds, the text joins what is pending, and ReadPending
     * takes it apart.
     */
    method ReceiveChunk(chunk: string, connectGCode: string)
      requires Valid()
      modifies this
      ensures Valid()
      ensures Now() == ReadPending(old(Now()).(rest := old(Rest()).(pending := Received(old(pending), chunk))), connectGCode)
    {
      pending := Received(pending, chunk);
      TakeCompleteLines(connectGCode);
      ReadPendingDone(Now(), connectGCode);
      // the source tests for too many `?` at the top of every pass, but the
      // test needs a text without line feed, which only the last pass sees
      if state == AttemptingToConnect && CountChar(pending, '?') > MaxInvalidConnectionChars {
        FailConnection(InvalidResponse);
      }
    }

    /** The passes of the reader's loop that find a line feed. */
    method TakeCompleteLines(connectGCode: string)
      requires Valid()
      modifies this
      ensures Valid()
      ensures IndexOf(pending, '\n') < 0
      ensures ReadPending(Now(), connectGCode) == ReadPending(old(Now()), connectGCode)
    {
      ghost var target := ReadPending(Now(), connectGCode);
      while IndexOf(pending, '\n') >= 0
        invariant Valid()
        invariant ReadPending(Now(), connectGCode) == target
        decreases |pending|
      {
        ghost var c := Now();
        var line := TakeFirstLine();
        HandleReceivedLine(line, connectGCode);
        ReadPendingStep(c, connectGCode);
      }
    }

    /** The text up to the first line feed taken off what is pending. */
    method TakeFirstLine() returns (line: string)
      requires Valid() && IndexOf(pending, '\n') >= 0
      modifies this
      ensures Valid()
      ensures var i := IndexOf(old(pending), '\n');
        line == old(pending)[..i] && Now() == old(Now()).(rest := old(Rest()).(pending := old(pending)[i + 1..]))
      ensures |pending| < |old(pending)|
    {
      var returnPosition := IndexOf(pending, '\n');
      line := pending[..returnPosition];
      pending := pending[returnPosition + 1..];
    }

    /** One complete line: handed on, and while connecting, the handshake test. */
    method HandleReceivedLine(line: string, connectGCode: string)
      requires Valid()
      modifies this
      ensures Valid()
      ensures Now() == HandleLine(old(Now()), line, connectGCode)
      ensures pending == old(pending)
    {
      linesRead := linesRead + [line];
      if state == AttemptingToConnect {
        if |Split(line, '?')| <= MaxInvalidConnectionChars {
          SetCommunicationState(Connected);
          SendLineToPrinterNow(connectGCode);
        } else {
          FailConnection(InvalidResponse);
        }
      }
    }

    /**
     * StartPrint, with the file's lines given: only a connected printer that
     * is not printing starts; the queue and program are cleared, the file
     * becomes the program, and a printer preparing to print starts printing.
     */
    method StartPrint(fileLines: seq<string>)
      requires Valid()
      modifies this, ledger, ledger.ringBuffer
      ensures Valid()
      ensures !PrinterIsConnected(old(state)) || PrinterIsPrinting(old(state)) ==>
        Snapshot() == old(Snapshot()) && Rest() == old(Rest()) && ledger.lines == old(ledger.lines)
      ensures PrinterIsConnected(old(state)) && !PrinterIsPrinting(old(state)) ==>
        var loaded := Cleared(old(Snapshot()).(queue := []), FrameLine(0, ResetLineNumber, checksum)).(program := fileLines);
        && Snapshot() == (if loaded.machine.state == PreparingToPrint then SetStateOf(loaded, Printing) else loaded)
        && ledger.lines == [FrameLine(0, ResetLineNumber, checksum)]
        && Rest() == old(Rest()).(printWasCanceled := false, waitingForPosition := false, resendIndex := 1)
    {
      if !PrinterIsConnected(state) || PrinterIsPrinting(state) {
        return;
      }
      ResetForPrint();
      ClearQueuedGCode();
      LoadedProgram(fileLines);
    }

    /** StartPrint's resets: not canceled, no position awaited, nothing queued. */
    method ResetForPrint()
      requires Valid()
      modifies this
      ensures Valid()
      ensures Snapshot() == old(Snapshot()).(queue := [])
      ensures Rest() == old(Rest()).(printWasCanceled := false, waitingForPosition := false)
    {
      printWasCanceled := false;
      waitingForPosition := false;
      queue := [];
    }

    /**
     * The file loader's completion (its loading done, with the cursor at the
     * start): the file becomes the program, and a printer preparing to print
     * starts printing; in any other state nothing more happens.
     */
    method LoadedProgram(fileLines: seq<string>)
      requires Valid() && cursor == 0
      modifies this
      ensures Valid()
      ensures var loaded := old(Snapshot()).(program := fileLines);
        Snapshot() == if old(state) == PreparingToPrint then SetStateOf(loaded, Printing) else loaded
      ensures Rest() == old(Rest())
    {
      program := fileLines;
      if state == PreparingToPrint {
        SetCommunicationState(Printing);
      }
    }
  }
}
