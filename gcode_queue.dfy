/**
 * What the printer connection does with G-code it is asked to send: the
 * program being printed (`loadedGCode`) with its cursor, the out-of-band
 * queue of immediate commands (`LinesToWriteQueue`), the lines written to
 * the serial port, and the communication state a failed write changes.
 *
 * SendLineToPrinterNow either slips a command into the running program just
 * after the cursor, writes it at once, or queues it; InjectGCode inserts a
 * block of macro lines into the program at a given position.
 */
module GCodeQueue {
  import opened Strings
  import opened CommStates
  import opened GCodeText

  /**
   * The fields SendLineToPrinterNow and InjectGCode read and write.
   * `waitingForOk` is whether the wait-for-ok stopwatch runs; `portOpen`
   * whether the serial port exists and is open.
   */
  datatype Link = Link(
    machine: StateMachine,
    program: seq<string>,
    cursor: int,
    queue: seq<string>,
    output: seq<string>,
    waitingForOk: bool,
    portOpen: bool,
    forceImmediateWrites: bool)

  /** Lines are slipped into the program only while streaming it from the host. */
  predicate Streaming(s: CommunicationState)
  {
    PrinterIsPrinting(s) && s != PrintingFromSd
  }

  /** WriteToPrinter's guard: a live link, or one being set up. */
  predicate CanWrite(s: CommunicationState)
  {
    PrinterIsConnected(s) || s == AttemptingToConnect
  }

  /**
   * WriteToPrinter: with a live link and an open port the text goes out and
   * the wait for `ok` restarts; with a live link and no port the connection
   * has failed (OnConnectionFailed); with no link nothing happens.
   */
  function Write(k: Link, text: string): (r: Link)
    ensures r.program == k.program && r.cursor == k.cursor && r.queue == k.queue
    ensures r.portOpen == k.portOpen && r.forceImmediateWrites == k.forceImmediateWrites
    ensures r.output == k.output || (r.output == k.output + [text] && CanWrite(k.machine.state) && k.portOpen)
    ensures CanWrite(k.machine.state) && k.portOpen ==> r.output == k.output + [text] && r.waitingForOk
    ensures r.machine != k.machine ==> CanWrite(k.machine.state) && !k.portOpen && r.machine.state == FailedToConnect
  {
    if !CanWrite(k.machine.state) then k
    else if k.portOpen then k.(output := k.output + [text], waitingForOk := true)
    else k.(machine := SetState(k.machine, FailedToConnect))
  }

  /** `program` with `line` inserted so that it ends up at `index`. */
  function Insert(program: seq<string>, index: int, line: string): (r: seq<string>)
    requires 0 <= index <= |program|
    ensures |r| == |program| + 1 && r[index] == line
    ensures r[..index] == program[..index] && r[index + 1..] == program[index..]
  {
    program[..index] + [line] + program[index..]
  }

  /**
   * The tail of SendLineToPrinterNow for one command already stripped of its
   * comment and surrounding white space.
   */
  function QueueCommand(k: Link, line: string): Link
  {
    if line == [] then k
    else if Streaming(k.machine.state) then
      if 0 <= k.cursor < |k.program| - 1 && !Contains(k.program[k.cursor + 1], line) then
        k.(program := Insert(k.program, k.cursor + 1, line))
      else k
    else if k.forceImmediateWrites then Write(k, line + "\r\n")
    else if k.queue == [] || k.queue[|k.queue| - 1] != line then k.(queue := k.queue + [line])
    else k
  }

  /** The longest of `lines`. */
  function MaxLen(lines: seq<string>): (m: nat)
    ensures forall i :: 0 <= i < |lines| ==> |lines[i]| <= m
    ensures m == 0 || exists i :: 0 <= i < |lines| && |lines[i]| == m
  {
    if lines == [] then 0
    else
      var rest := MaxLen(lines[1..]);
      if |lines[0]| > rest then |lines[0]| else rest
  }

  lemma MaxLenOfPart(lines: seq<string>, lo: nat, hi: nat)
    requires lo <= hi <= |lines|
    ensures MaxLen(lines[lo..hi]) <= MaxLen(lines)
  {
    var m := MaxLen(lines[lo..hi]);
    if m != 0 {
      var i :| 0 <= i < hi - lo && |lines[lo..hi][i]| == m;
      assert lines[lo..hi][i] == lines[lo + i];
    }
  }

  /**
   * SendLineToPrinterNow: the escape `\n` becomes a line feed; text with line
   * feeds is sent piece by piece (SendLinesToPrinterNow); otherwise the
   * command is what precedes the first `;`, trimmed.
   */
  function SendLine(k: Link, text: string): Link
    decreases |text|, 2
  {
    var u := UnescapeNewlines(text);
    if '\n' in u then SendLines(k, Split(u, '\n'))
    else QueueCommand(k, Trim(FirstField(u, ';')))
  }

  /**
   * SendLinesToPrinterNow: each trimmed, non-empty line is sent; while
   * streaming the lines are sent last first, so that each one, slipped in
   * just after the cursor, ends up in front of those sent before it.
   */
  function SendLines(k: Link, lines: seq<string>): Link
    decreases MaxLen(lines) + 1, 1
  {
    if Streaming(k.machine.state) then SendBackward(k, lines) else SendForward(k, lines)
  }

  function SendForward(k: Link, lines: seq<string>): Link
    decreases MaxLen(lines) + 1, 0, |lines|
  {
    if lines == [] then k
    else
      var line := Trim(lines[0]);
      MaxLenOfPart(lines, 1, |lines|);
      SendForward(if line != [] then SendLine(k, line) else k, lines[1..])
  }

  function SendBackward(k: Link, lines: seq<string>): Link
    decreases MaxLen(lines) + 1, 0, |lines|
  {
    if lines == [] then k
    else
      var line := Trim(lines[|lines| - 1]);
      MaxLenOfPart(lines, 0, |lines| - 1);
      SendBackward(if line != [] then SendLine(k, line) else k, lines[..|lines| - 1])
  }

  // ---- what sending does to the program, the queue and the output ----

  /** A command fit for the queue: non-empty, trimmed, free of comments and line feeds. */
  predicate CleanCommand(line: string)
  {
    && line != []
    && !IsWhiteSpace(line[0]) && !IsWhiteSpace(line[|line| - 1])
    && ';' !in line && '\n' !in line
  }

  /** The queue invariant: clean commands, never the same one twice in a row. */
  predicate CleanQueue(q: seq<string>)
  {
    && (forall i :: 0 <= i < |q| ==> CleanCommand(q[i]))
    && (forall i :: 0 < i < |q| ==> q[i - 1] != q[i])
  }

  /**
   * `after` is `before` with lines slipped in just after position `cursor`:
   * everything up to the cursor is kept, and so is everything after it.
   */
  predicate InsertedAfter(before: seq<string>, after: seq<string>, cursor: int)
  {
    if -1 <= cursor < |before| then
      && |before| <= |after|
      && after[..cursor + 1] == before[..cursor + 1]
      && after[|after| - (|before| - cursor - 1)..] == before[cursor + 1..]
    else after == before
  }

  /**
   * How any sending relates the fields before and after: the cursor and the
   * port are untouched; while streaming only the program changes, by lines
   * slipped in after the cursor; otherwise the program is untouched, the
   * queue only grows, and without immediate writes nothing else changes.
   * The state stays, unless a write finds the port gone.
   */
  predicate SendsFrom(k: Link, r: Link)
  {
    && r.cursor == k.cursor && r.portOpen == k.portOpen
    && (r.machine.state == k.machine.state || r.machine.state == FailedToConnect)
    && r.forceImmediateWrites == k.forceImmediateWrites
    && Streaming(r.machine.state) == Streaming(k.machine.state)
    && (Streaming(k.machine.state) ==>
          && r.machine == k.machine && r.queue == k.queue && r.output == k.output
          && r.waitingForOk == k.waitingForOk
          && InsertedAfter(k.program, r.program, k.cursor))
    && (!Streaming(k.machine.state) ==>
          && r.program == k.program && k.queue <= r.queue
          && (!k.forceImmediateWrites ==> r.machine == k.machine && r.output == k.output && r.waitingForOk == k.waitingForOk)
          && (k.forceImmediateWrites ==> r.queue == k.queue))
    && (CleanQueue(k.queue) ==> CleanQueue(r.queue))
  }

  lemma SendsFromRefl(k: Link)
    ensures SendsFrom(k, k)
  {
  }

  lemma InsertedAfterTrans(a: seq<string>, b: seq<string>, c: seq<string>, cursor: int)
    requires InsertedAfter(a, b, cursor) && InsertedAfter(b, c, cursor)
    ensures InsertedAfter(a, c, cursor)
  {
    if -1 <= cursor < |a| {
      var n := |a| - cursor - 1;
      assert c[|c| - n..] == c[|c| - (|b| - cursor - 1)..][|b| - cursor - 1 - n..];
      assert b[|b| - n..] == a[cursor + 1..];
    }
  }

  lemma SendsFromTrans(a: Link, b: Link, c: Link)
    requires SendsFrom(a, b) && SendsFrom(b, c)
    ensures SendsFrom(a, c)
  {
    if Streaming(a.machine.state) {
      InsertedAfterTrans(a.program, b.program, c.program, a.cursor);
    }
  }

  /** The command SendLineToPrinterNow keeps from a line without line feeds. */
  lemma StrippedIsClean(u: string)
    requires '\n' !in u
    requires Trim(FirstField(u, ';')) != []
    ensures CleanCommand(Trim(FirstField(u, ';')))
  {
    var f := FirstField(u, ';');
    var l := Trim(f);
    TrimIsInfix(f);
    var start := TextStart(f, 0, false);
    assert l == f[start..start + |l|];
    forall j | 0 <= j < |l| ensures l[j] != ';' && l[j] != '\n' {
      assert l[j] == f[start + j] == u[start + j];
    }
  }

  lemma QueueCommandSends(k: Link, line: string)
    requires line == [] || CleanCommand(line)
    ensures SendsFrom(k, QueueCommand(k, line))
  {
    if Streaming(k.machine.state) {
      StreamedCommandSends(k, line);
    } else {
      QueuedCommandSends(k, line);
    }
  }

  /** QueueCommandSends while streaming: at most one line slipped in after the cursor. */
  lemma StreamedCommandSends(k: Link, line: string)
    requires Streaming(k.machine.state)
    ensures SendsFrom(k, QueueCommand(k, line))
  {
    if line != [] && 0 <= k.cursor < |k.program| - 1 && !Contains(k.program[k.cursor + 1], line) {
      InsertKeepsSides(k.program, k.cursor, line);
    } else {
      assert QueueCommand(k, line) == k;
    }
  }

  /** QueueCommandSends otherwise: the queue grows by a clean command, or the line is written. */
  lemma QueuedCommandSends(k: Link, line: string)
    requires line == [] || CleanCommand(line)
    requires !Streaming(k.machine.state)
    ensures SendsFrom(k, QueueCommand(k, line))
  {
    if line != [] && !k.forceImmediateWrites && (k.queue == [] || k.queue[|k.queue| - 1] != line) {
      AppendKeepsClean(k.queue, line);
      assert QueueCommand(k, line) == k.(queue := k.queue + [line]);
    }
  }

  /** A clean command that differs from the queue's last one keeps the queue clean. */
  lemma AppendKeepsClean(q: seq<string>, line: string)
    requires CleanCommand(line) && (q == [] || q[|q| - 1] != line)
    ensures CleanQueue(q) ==> CleanQueue(q + [line])
    ensures q <= q + [line]
  {
  }

  /** A line inserted just after the cursor leaves what lies on either side of it in place. */
  lemma InsertKeepsSides(program: seq<string>, cursor: int, line: string)
    requires -1 <= cursor < |program|
    ensures InsertedAfter(program, Insert(program, cursor + 1, line), cursor)
  {
    var r := Insert(program, cursor + 1, line);
    assert r[|r| - (|program| - cursor - 1)..] == r[cursor + 2..];
  }

  /** Every way of sending relates the fields as SendsFrom says. */
  lemma {:induction false} SendLineSends(k: Link, text: string)
    ensures SendsFrom(k, SendLine(k, text))
    decreases |text|, 2
  {
    var u := UnescapeNewlines(text);
    if '\n' in u {
      SendLinesSends(k, Split(u, '\n'));
    } else {
      var l := Trim(FirstField(u, ';'));
      if l != [] {
        StrippedIsClean(u);
      }
      QueueCommandSends(k, l);
    }
  }

  lemma {:induction false} SendLinesSends(k: Link, lines: seq<string>)
    ensures SendsFrom(k, SendLines(k, lines))
    decreases MaxLen(lines) + 1, 1
  {
    if Streaming(k.machine.state) {
      SendBackwardSends(k, lines);
    } else {
      SendForwardSends(k, lines);
    }
  }

  lemma {:induction false} SendForwardSends(k: Link, lines: seq<string>)
    ensures SendsFrom(k, SendForward(k, lines))
    decreases MaxLen(lines) + 1, 0, |lines|
  {
    if lines == [] {
      SendsFromRefl(k);
    } else {
      var line := Trim(lines[0]);
      MaxLenOfPart(lines, 1, |lines|);
      var k1 := if line != [] then SendLine(k, line) else k;
      if line != [] {
        SendLineSends(k, line);
      } else {
        SendsFromRefl(k);
      }
      SendForwardSends(k1, lines[1..]);
      SendsFromTrans(k, k1, SendForward(k1, lines[1..]));
    }
  }

  lemma {:induction false} SendBackwardSends(k: Link, lines: seq<string>)
    ensures SendsFrom(k, SendBackward(k, lines))
    decreases MaxLen(lines) + 1, 0, |lines|
  {
    if lines == [] {
      SendsFromRefl(k);
    } else {
      var line := Trim(lines[|lines| - 1]);
      MaxLenOfPart(lines, 0, |lines| - 1);
      var k1 := if line != [] then SendLine(k, line) else k;
      if line != [] {
        SendLineSends(k, line);
      } else {
        SendsFromRefl(k);
      }
      SendBackwardSends(k1, lines[..|lines| - 1]);
      SendsFromTrans(k, k1, SendBackward(k1, lines[..|lines| - 1]));
    }
  }

  /** The command SendLineToPrinterNow makes of a line without line feeds. */
  function Stripped(text: string): string
  {
    Trim(FirstField(UnescapeNewlines(text), ';'))
  }

  /**
   * One command: a blank one (after the comment is cut off) changes nothing;
   * while streaming it is slipped in right after the cursor exactly when the
   * next program line does not already contain it; otherwise, without
   * immediate writes, it joins the queue exactly when it differs from the
   * queue's last command, and with them it is written at once.
   */
  lemma SendCommand(k: Link, text: string)
    requires '\n' !in UnescapeNewlines(text)
    ensures Stripped(text) == [] ==> SendLine(k, text) == k
    ensures Streaming(k.machine.state) ==>
      (SendLine(k, text).program != k.program <==>
        Stripped(text) != [] && 0 <= k.cursor < |k.program| - 1 && !Contains(k.program[k.cursor + 1], Stripped(text)))
    ensures Streaming(k.machine.state) && SendLine(k, text).program != k.program ==>
      SendLine(k, text).program == Insert(k.program, k.cursor + 1, Stripped(text))
    ensures !Streaming(k.machine.state) && !k.forceImmediateWrites ==>
      (SendLine(k, text).queue != k.queue <==>
        Stripped(text) != [] && (k.queue == [] || k.queue[|k.queue| - 1] != Stripped(text)))
    ensures !Streaming(k.machine.state) && !k.forceImmediateWrites && SendLine(k, text).queue != k.queue ==>
      SendLine(k, text).queue == k.queue + [Stripped(text)]
    ensures !Streaming(k.machine.state) && k.forceImmediateWrites && Stripped(text) != [] ==>
      SendLine(k, text) == Write(k, Stripped(text) + "\r\n")
  {
    assert SendLine(k, text) == QueueCommand(k, Stripped(text));
    QueueCommandCases(k, Stripped(text));
  }

  /** SendCommand's cases, for a command already stripped. */
  lemma QueueCommandCases(k: Link, l: string)
    ensures l == [] ==> QueueCommand(k, l) == k
    ensures Streaming(k.machine.state) ==>
      (QueueCommand(k, l).program != k.program <==>
        l != [] && 0 <= k.cursor < |k.program| - 1 && !Contains(k.program[k.cursor + 1], l))
    ensures Streaming(k.machine.state) && QueueCommand(k, l).program != k.program ==>
      QueueCommand(k, l).program == Insert(k.program, k.cursor + 1, l)
    ensures !Streaming(k.machine.state) && !k.forceImmediateWrites ==>
      (QueueCommand(k, l).queue != k.queue <==> l != [] && (k.queue == [] || k.queue[|k.queue| - 1] != l))
    ensures !Streaming(k.machine.state) && !k.forceImmediateWrites && QueueCommand(k, l).queue != k.queue ==>
      QueueCommand(k, l).queue == k.queue + [l]
    ensures !Streaming(k.machine.state) && k.forceImmediateWrites && l != [] ==>
      QueueCommand(k, l) == Write(k, l + "\r\n")
  {
    var r := QueueCommand(k, l);
    if l == [] {
    } else if Streaming(k.machine.state) {
      if 0 <= k.cursor < |k.program| - 1 && !Contains(k.program[k.cursor + 1], l) {
        assert |r.program| == |k.program| + 1;
      }
    } else if !k.forceImmediateWrites && (k.queue == [] || k.queue[|k.queue| - 1] != l) {
      assert |r.queue| == |k.queue| + 1;
    }
  }

  /**
   * Asking for the same command twice in a row sends it once, unless it is
   * written immediately.
   */
  lemma SendCommandTwice(k: Link, text: string)
    requires '\n' !in UnescapeNewlines(text)
    requires Streaming(k.machine.state) || !k.forceImmediateWrites
    ensures SendLine(SendLine(k, text), text) == SendLine(k, text)
  {
    var r := SendLine(k, text);
    var l := Stripped(text);
    assert r == QueueCommand(k, l);
    assert SendLine(r, text) == QueueCommand(r, l);
    if l != [] && Streaming(k.machine.state) && r != k {
      assert r.program[k.cursor + 1] == l;
      assert OccursAt(l, l, 0);  // so the next line already contains the command
    }
  }

  // ---- InjectGCode ----

  /** The program line InjectGCode makes of one piece, or nothing for a blank piece. */
  function Injected(piece: string, restore: RestoreLines): (r: Option<string>)
    ensures r.Some? <==> ToUpper(Trim(FirstField(piece, ';'))) != []
  {
    var line := ToUpper(Trim(FirstField(piece, ';')));
    if line == [] then None else Some(ReplacePrinterMacros(line, restore))
  }

  /** `loadedGCode.Insert(index, line)` when the index is inside the program, `Add(line)` otherwise. */
  function InsertOrAdd(program: seq<string>, index: nat, line: string): (r: seq<string>)
    ensures |r| == |program| + 1
  {
    if |program| > index then Insert(program, index, line) else program + [line]
  }

  /**
   * InjectGCode's loop over the pieces, last piece first: every piece that is
   * not blank is inserted at the same index, so each lands in front of the
   * ones inserted before it.
   */
  function InjectPieces(program: seq<string>, start: nat, pieces: seq<string>, restore: RestoreLines): seq<string>
  {
    if pieces == [] then program
    else
      var rest := InjectPieces(program, start, pieces[1..], restore);
      match Injected(pieces[0], restore)
      case None => rest
      case Some(line) => InsertOrAdd(rest, start, line)
  }

  /** The lines InjectGCode adds for `pieces`, in their order. */
  function Kept(pieces: seq<string>, restore: RestoreLines): seq<string>
  {
    if pieces == [] then []
    else
      match Injected(pieces[0], restore)
      case None => Kept(pieces[1..], restore)
      case Some(line) => [line] + Kept(pieces[1..], restore)
  }

  /** The pieces InjectGCode cuts its text into (macro values are left as they are). */
  function InjectionPieces(code: string): seq<string>
  {
    Split(UnescapeNewlines(code), '\n')
  }

  /**
   * Injecting inside the program (or at its end) puts the kept lines there
   * as one block, in their order, and moves nothing else.
   */
  lemma {:induction false} InjectContiguous(program: seq<string>, start: nat, pieces: seq<string>, restore: RestoreLines)
    requires start <= |program|
    ensures InjectPieces(program, start, pieces, restore)
      == program[..start] + Kept(pieces, restore) + program[start..]
  {
    if pieces != [] {
      InjectContiguous(program, start, pieces[1..], restore);
      var rest := InjectPieces(program, start, pieces[1..], restore);
      var kept := Kept(pieces[1..], restore);
      match Injected(pieces[0], restore)
      case None =>
      case Some(line) =>
        InsertBeforeBlock(program[..start], kept, program[start..], line);
    }
  }

  /** Inserting at the front of a block that sits between two parts puts the line at the block's front. */
  lemma InsertBeforeBlock(pre: seq<string>, block: seq<string>, post: seq<string>, line: string)
    ensures InsertOrAdd(pre + block + post, |pre|, line) == pre + ([line] + block) + post
  {
    var s := pre + block + post;
    if |s| > |pre| {
      assert s[..|pre|] == pre && s[|pre|..] == block + post;
    } else {
      assert s == pre && block == [] && post == [];
    }
  }

  /** Wherever it starts, InjectGCode adds exactly the kept lines, at most one per piece. */
  lemma {:induction false} InjectGrows(program: seq<string>, start: nat, pieces: seq<string>, restore: RestoreLines)
    ensures |InjectPieces(program, start, pieces, restore)| == |program| + |Kept(pieces, restore)|
    ensures |Kept(pieces, restore)| <= |pieces|
  {
    if pieces != [] {
      InjectGrows(program, start, pieces[1..], restore);
    }
  }

  /** InjectGCode's new program. */
  function Inject(program: seq<string>, start: nat, code: string, restore: RestoreLines): seq<string>
  {
    InjectPieces(program, start, InjectionPieces(code), restore)
  }

  /** The lines InjectGCode adds for `code`; its result is `start` plus their number. */
  function KeptLines(code: string, restore: RestoreLines): seq<string>
  {
    Kept(InjectionPieces(code), restore)
  }

  /** Injected into an empty program, the kept lines become the whole program. */
  lemma InjectIntoEmpty(code: string, restore: RestoreLines)
    ensures Inject([], 0, code, restore) == KeptLines(code, restore)
  {
    InjectContiguous([], 0, InjectionPieces(code), restore);
    assert [][..0] + KeptLines(code, restore) + [][0..] == KeptLines(code, restore);
  }

  /** The marker that ends an injected pause block. */
  const PauseMarker: string := "MH_PAUSE"

  /**
   * A single line with no escapes, line feeds, comment, surrounding white
   * space, lower-case letters or leading `@` survives injection as itself.
   */
  lemma KeptPlainLine(s: string, restore: RestoreLines)
    requires '\\' !in s && '\n' !in s && ';' !in s
    requires s != [] && !IsWhiteSpace(s[0]) && !IsWhiteSpace(s[|s| - 1])
    requires forall i :: 0 <= i < |s| ==> UpperChar(s[i]) == s[i]
    requires s[0] != '@'
    ensures KeptLines(s, restore) == [s]
  {
    assert UnescapeNewlines(s) == s;
    assert IndexOf(s, '\n') == -1;
    assert InjectionPieces(s) == [s];
    assert FirstField(s, ';') == s;
    TrimOfTrimmed(s, false);
    assert ToUpper(s) == s;
    assert s[..1] != "@";
    assert Injected(s, restore) == Some(s);
    assert [s][1..] == [];
    assert Kept([s], restore) == [s] + Kept([], restore);
  }

  /** The marker survives injection as the single line it is. */
  lemma KeptMarker(restore: RestoreLines)
    ensures KeptLines(PauseMarker, restore) == [PauseMarker]
  {
    var s := PauseMarker;
    assert forall i :: 0 <= i < |s| ==> s[i] in "MH_PAUSE" && UpperChar(s[i]) == s[i];
    KeptPlainLine(s, restore);
  }

  /** Injecting at the boundary between `pre` and `post` puts the kept lines there. */
  lemma InjectBetween(program: seq<string>, start: nat, pre: seq<string>, post: seq<string>, code: string, restore: RestoreLines)
    requires program == pre + post && start == |pre|
    ensures Inject(program, start, code, restore) == pre + KeptLines(code, restore) + post
  {
    InjectContiguous(program, start, InjectionPieces(code), restore);
    assert program[..start] == pre && program[start..] == post;
  }

  /**
   * RequestPause with a pause macro: at the pause position the program gets,
   * as one block and in this order, the pause macro's lines, the marker
   * (which KeptMarker shows survives as itself), the resume macro's lines
   * and the line restoring the position. Each injection starts where the
   * previous one's lines end.
   */
  lemma PauseBlock(program: seq<string>, start: nat, pause: string, marker: string, resume: string,
                   restore: RestoreLines, i1: nat, i2: nat, i3: nat)
    requires start <= |program|
    requires KeptLines(marker, restore) == [marker]
    requires i1 == start + |KeptLines(pause, restore)|
    requires i2 == i1 + |KeptLines(marker, restore)|
    requires i3 == i2 + |KeptLines(resume, restore)|
    ensures Inject(Inject(Inject(Inject(program, start, pause, restore), i1, marker, restore), i2, resume, restore),
                   i3, restore.xyz, restore)
      == program[..start] + KeptLines(pause, restore) + [marker]
         + KeptLines(resume, restore) + KeptLines(restore.xyz, restore) + program[start..]
  {
    var pre := program[..start];
    var post := program[start..];
    var kp := KeptLines(pause, restore);
    var kr := KeptLines(resume, restore);
    var p1 := Inject(program, start, pause, restore);
    var p2 := Inject(p1, i1, marker, restore);
    var p3 := Inject(p2, i2, resume, restore);
    InjectBetween(program, start, pre, post, pause, restore);
    InjectBetween(p1, i1, pre + kp, post, marker, restore);
    InjectBetween(p2, i2, pre + kp + [marker], post, resume, restore);
    InjectBetween(p3, i3, pre + kp + [marker] + kr, post, restore.xyz, restore);
  }

  /**
   * RequestPause without a pause macro injects the resume lines and then the
   * restore line at the same position, so the restore line ends up in front
   * of the resume lines.
   */
  lemma ResumeBlock(program: seq<string>, start: nat, resume: string, restore: RestoreLines)
    requires start <= |program|
    ensures Inject(Inject(program, start, resume, restore), start, restore.xyz, restore)
      == program[..start] + KeptLines(restore.xyz, restore) + KeptLines(resume, restore) + program[start..]
  {
    var pre := program[..start];
    var post := program[start..];
    assert program == pre + post;
    InjectBetween(program, start, pre, post, resume, restore);
    InjectInFront(Inject(program, start, resume, restore), start, pre, KeptLines(resume, restore), post,
                  restore.xyz, restore);
  }

  /** Injecting in front of a block that sits between two parts puts the kept lines before the block. */
  lemma InjectInFront(program: seq<string>, start: nat, pre: seq<string>, block: seq<string>, post: seq<string>,
                      code: string, restore: RestoreLines)
    requires program == pre + block + post && start == |pre|
    ensures Inject(program, start, code, restore) == pre + KeptLines(code, restore) + block + post
  {
    Regroup(pre, block, post);
    InjectBetween(program, start, pre, block + post, code, restore);
    Regroup(pre + KeptLines(code, restore), block, post);
  }

  /** Concatenation regrouped. */
  lemma Regroup(a: seq<string>, b: seq<string>, c: seq<string>)
    ensures a + b + c == a + (b + c)
  {
  }

  /**
   * What a host pause at `start` leaves in the program: without a pause
   * macro, the restore line and then the resume macro's lines; with one,
   * the pause macro's lines, the marker, the resume macro's lines and the
   * restore line.
   */
  function PausedProgram(program: seq<string>, start: nat, pauseGCode: string, resumeGCode: string,
                         restore: RestoreLines): seq<string>
    requires start <= |program|
  {
    if Trim(pauseGCode) == [] then
      program[..start] + KeptLines(restore.xyz, restore) + KeptLines(resumeGCode, restore) + program[start..]
    else
      program[..start] + KeptLines(pauseGCode, restore) + [PauseMarker]
        + KeptLines(resumeGCode, restore) + KeptLines(restore.xyz, restore) + program[start..]
  }

  /** The lines a host pause adds, in the order PausedProgram places them. */
  function PauseLines(pauseGCode: string, resumeGCode: string, restore: RestoreLines): seq<string>
  {
    if Trim(pauseGCode) == [] then
      KeptLines(restore.xyz, restore) + KeptLines(resumeGCode, restore)
    else
      KeptLines(pauseGCode, restore) + [PauseMarker] + KeptLines(resumeGCode, restore) + KeptLines(restore.xyz, restore)
  }

  /** `p` is `base` followed by `lines`, in any order. */
  predicate AddedAfter(base: seq<string>, p: seq<string>, lines: seq<string>)
  {
    base <= p && multiset(p[|base|..]) == multiset(lines)
  }

  /**
   * Injecting at or past the end of `base` leaves `base` in front and adds
   * the kept lines behind it. Their order is not a block: while the program
   * is no longer than the index each line is appended, last piece first,
   * and once it is longer they are inserted at the index.
   */
  lemma {:induction false} InjectAfter(base: seq<string>, program: seq<string>, start: nat, pieces: seq<string>,
                                       restore: RestoreLines)
    requires base <= program && |base| <= start
    ensures base <= InjectPieces(program, start, pieces, restore)
    ensures multiset(InjectPieces(program, start, pieces, restore)[|base|..])
      == multiset(program[|base|..]) + multiset(Kept(pieces, restore))
  {
    if pieces != [] {
      InjectAfter(base, program, start, pieces[1..], restore);
      var rest := InjectPieces(program, start, pieces[1..], restore);
      match Injected(pieces[0], restore)
      case None =>
      case Some(line) =>
        AddLineAfter(base, rest, InsertOrAdd(rest, start, line), line, start);
    }
  }

  /** One line inserted or appended at or past the end of `base` is one more line behind it. */
  lemma AddLineAfter<T>(base: seq<T>, rest: seq<T>, r: seq<T>, line: T, start: nat)
    requires base <= rest && |base| <= start
    requires if |rest| > start then r == rest[..start] + [line] + rest[start..] else r == rest + [line]
    ensures base <= r && multiset(r[|base|..]) == multiset(rest[|base|..]) + multiset{line}
  {
    if |rest| > start {
      assert r[|base|..] == rest[|base|..start] + [line] + rest[start..];
      assert rest[|base|..] == rest[|base|..start] + rest[start..];
    } else {
      assert r[|base|..] == rest[|base|..] + [line];
    }
  }

  /** InjectAfter for InjectGCode's text, starting from a program that is `base` plus `added`. */
  lemma InjectCodeAfter(base: seq<string>, program: seq<string>, added: seq<string>, start: nat, code: string,
                        restore: RestoreLines)
    requires AddedAfter(base, program, added) && |base| <= start
    ensures AddedAfter(base, Inject(program, start, code, restore), added + KeptLines(code, restore))
  {
    InjectAfter(base, program, start, InjectionPieces(code), restore);
  }

  /** InjectCodeAfter from the program itself: its kept lines behind it. */
  lemma InjectCodePast(program: seq<string>, start: nat, code: string, restore: RestoreLines)
    requires |program| <= start
    ensures AddedAfter(program, Inject(program, start, code, restore), KeptLines(code, restore))
  {
    assert program[|program|..] == [];
    InjectAfter(program, program, start, InjectionPieces(code), restore);
  }

  /** ResumeBlock at or past the program's end: the restore and resume lines, in some order, behind it. */
  lemma ResumeBlockPast(program: seq<string>, start: nat, pauseGCode: string, resumeGCode: string, restore: RestoreLines)
    requires |program| <= start && Trim(pauseGCode) == []
    ensures AddedAfter(program, Inject(Inject(program, start, resumeGCode, restore), start, restore.xyz, restore),
                       PauseLines(pauseGCode, resumeGCode, restore))
  {
    var kr := KeptLines(resumeGCode, restore);
    var kx := KeptLines(restore.xyz, restore);
    InjectCodePast(program, start, resumeGCode, restore);
    InjectCodeAfter(program, Inject(program, start, resumeGCode, restore), kr, start, restore.xyz, restore);
    assert multiset(kr + kx) == multiset(kx + kr);
  }

  /** PauseBlock at or past the program's end: the block's lines, in some order, behind it. */
  lemma PauseBlockPast(program: seq<string>, start: nat, pauseGCode: string, resumeGCode: string,
                       restore: RestoreLines, i1: nat, i2: nat, i3: nat)
    requires |program| <= start && Trim(pauseGCode) != []
    requires start <= i1 <= i2 <= i3
    ensures AddedAfter(program, Inject(Inject(Inject(Inject(program, start, pauseGCode, restore), i1, PauseMarker, restore),
                                              i2, resumeGCode, restore), i3, restore.xyz, restore),
                       PauseLines(pauseGCode, resumeGCode, restore))
  {
    var kp := KeptLines(pauseGCode, restore);
    var kr := KeptLines(resumeGCode, restore);
    var kx := KeptLines(restore.xyz, restore);
    var p1 := Inject(program, start, pauseGCode, restore);
    var p2 := Inject(p1, i1, PauseMarker, restore);
    var p3 := Inject(p2, i2, resumeGCode, restore);
    var p4 := Inject(p3, i3, restore.xyz, restore);
    assert AddedAfter(program, p1, kp) by {
      InjectCodePast(program, start, pauseGCode, restore);
    }
    assert AddedAfter(program, p2, kp + [PauseMarker]) by {
      KeptMarker(restore);
      InjectCodeAfter(program, p1, kp, i1, PauseMarker, restore);
    }
    assert AddedAfter(program, p3, kp + [PauseMarker] + kr) by {
      InjectCodeAfter(program, p2, kp + [PauseMarker], i2, resumeGCode, restore);
    }
    assert AddedAfter(program, p4, kp + [PauseMarker] + kr + kx) by {
      InjectCodeAfter(program, p3, kp + [PauseMarker] + kr, i3, restore.xyz, restore);
    }
  }

  /** With a pause macro, the marker sits right after the macro's kept lines. */
  lemma MarkerInPausedProgram(program: seq<string>, start: nat, pauseGCode: string, resumeGCode: string,
                              restore: RestoreLines)
    requires start <= |program| && Trim(pauseGCode) != []
    ensures var at := start + |KeptLines(pauseGCode, restore)|;
      at < |PausedProgram(program, start, pauseGCode, resumeGCode, restore)|
      && PausedProgram(program, start, pauseGCode, resumeGCode, restore)[at] == PauseMarker
  {
    LineAfter(program[..start], KeptLines(pauseGCode, restore), PauseMarker,
              KeptLines(resumeGCode, restore), KeptLines(restore.xyz, restore), program[start..]);
  }

  /** The single line placed after two blocks is found at the sum of their lengths. */
  lemma LineAfter(a: seq<string>, b: seq<string>, line: string, c: seq<string>, d: seq<string>, e: seq<string>)
    ensures |a| + |b| < |a + b + [line] + c + d + e| && (a + b + [line] + c + d + e)[|a| + |b|] == line
  {
  }
}
