/**
 * The pure text rules of the printer connection: the clamps on fan speed and
 * extruder index, the homing command, the `@` macros, the `N<k> ... *<sum>`
 * framing of numbered lines, the printer's resend request, and how received
 * bytes are cut into lines and judged during the connection handshake.
 */
module GCodeText {
  import opened Strings

  const MaxExtruders: int := 16
  const MaxInvalidConnectionChars: int := 3

  type Int32 = n: int | InInt32(n)

  // ---- clamps ----

  /** FanSpeed0To255's setter: the value clamped into 0..255. */
  function ClampFanSpeed(value: int): (speed: int)
    ensures 0 <= speed <= 255
    ensures 0 <= value <= 255 ==> speed == value
    ensures value < 0 ==> speed == 0
    ensures value > 255 ==> speed == 255
  {
    if value < 0 then 0 else if value > 255 then 255 else value
  }

  /**
   * The extruder index clamp: indices past the last extruder are folded onto
   * it; there is no lower bound, so a negative index stays negative.
   */
  function ClampExtruderIndex(index: int): (clamped: int)
    ensures clamped <= MaxExtruders - 1
    ensures index <= MaxExtruders - 1 ==> clamped == index
    ensures index > MaxExtruders - 1 ==> clamped == MaxExtruders - 1
  {
    if index < MaxExtruders - 1 then index else MaxExtruders - 1
  }

  // ---- homing ----

  const AxisX: bv8 := 1
  const AxisY: bv8 := 2
  const AxisZ: bv8 := 4
  const AxisE: bv8 := 8

  function HomeWords(axis: bv8): seq<string>
  {
    (if axis & AxisX == AxisX then ["X0"] else [])
    + (if axis & AxisY == AxisY then ["Y0"] else [])
    + (if axis & AxisZ == AxisZ then ["Z0"] else [])
  }

  /**
   * HomeAxis's command: G28 followed by one word per requested axis among
   * X, Y and Z, in that order; the E flag adds nothing.
   */
  function HomeAxisCommand(axis: bv8): (command: string)
    ensures Split(command, ' ') == ["G28"] + HomeWords(axis)
  {
    HomeCommandWords(axis);
    SplitJoin(["G28"] + HomeWords(axis), ' ');
    "G28"
      + (if axis & AxisX == AxisX then " X0" else "")
      + (if axis & AxisY == AxisY then " Y0" else "")
      + (if axis & AxisZ == AxisZ then " Z0" else "")
  }

  lemma HomeCommandWords(axis: bv8)
    ensures Join(["G28"] + HomeWords(axis), ' ') ==
      "G28"
      + (if axis & AxisX == AxisX then " X0" else "")
      + (if axis & AxisY == AxisY then " Y0" else "")
      + (if axis & AxisZ == AxisZ then " Z0" else "")
    ensures forall i :: 0 <= i < |["G28"] + HomeWords(axis)| ==> ' ' !in (["G28"] + HomeWords(axis))[i]
  {
    var x := axis & AxisX == AxisX;
    var y := axis & AxisY == AxisY;
    var z := axis & AxisZ == AxisZ;
    var w1 := ["G28"] + (if x then ["X0"] else []);
    var w2 := w1 + (if y then ["Y0"] else []);
    var w3 := w2 + (if z then ["Z0"] else []);
    JoinMaybe(["G28"], "G28", x, "X0");
    JoinMaybe(w1, "G28" + (if x then " X0" else ""), y, "Y0");
    JoinMaybe(w2, "G28" + (if x then " X0" else "") + (if y then " Y0" else ""), z, "Z0");
    assert w3 == ["G28"] + HomeWords(axis);
    assert forall i :: 0 <= i < |w3| ==> w3[i] in {"G28", "X0", "Y0", "Z0"};
  }

  /** One optional axis word appended to the words and to their joined text. */
  lemma JoinMaybe(words: seq<string>, text: string, add: bool, word: string)
    requires |words| > 0 && Join(words, ' ') == text
    ensures Join(words + (if add then [word] else []), ' ') == text + (if add then " " + word else "")
  {
    if add {
      JoinSnoc(words, word, ' ');
    } else {
      assert words + [] == words;
    }
  }

  /** Homing all three axes, with or without the extruder flag. */
  lemma HomeAllAxes()
    ensures HomeAxisCommand(AxisX | AxisY | AxisZ) == "G28 X0 Y0 Z0"
    ensures HomeAxisCommand(AxisX | AxisY | AxisZ | AxisE) == "G28 X0 Y0 Z0"
  {
  }

  // ---- macros ----

  /** The two restore lines, as formatted from the current destination. */
  datatype RestoreLines = RestoreLines(xyz: string, e: string)

  /**
   * ReplacePrinterMacros: an upper-cased injected line naming one of the two
   * restore macros becomes the matching restore line; every other line,
   * including an unknown `@` word, is kept.
   */
  function ReplacePrinterMacros(line: string, restore: RestoreLines): (r: string)
    ensures !StartsWith(line, "@") ==> r == line
    ensures r != line ==> line in {"@RESTORE_XYZ_POSITION", "@RESTORE_E_POSITION"}
    ensures line == "@RESTORE_XYZ_POSITION" ==> r == restore.xyz
    ensures line == "@RESTORE_E_POSITION" ==> r == restore.e
  {
    if StartsWith(line, "@") then
      if line == "@RESTORE_XYZ_POSITION" then restore.xyz
      else if line == "@RESTORE_E_POSITION" then restore.e
      else line
    else line
  }

  // ---- numbered lines ----

  /**
   * The first step of ApplyExtrusionMultiplier, which every line goes
   * through before it is numbered: upper case, white space trimmed.
   */
  function Normalized(line: string): (r: string)
    ensures |r| <= |line|
    ensures r == [] || (!IsWhiteSpace(r[0]) && !IsWhiteSpace(r[|r| - 1]))
    ensures forall i :: 0 <= i < |r| ==> UpperChar(r[i]) == r[i]
  {
    ToUpper(Trim(line))
  }

  /** A trimmed, upper-case line is already normalized. */
  lemma NormalizedClean(line: string)
    requires line == [] || (!IsWhiteSpace(line[0]) && !IsWhiteSpace(line[|line| - 1]))
    requires forall i :: 0 <= i < |line| ==> UpperChar(line[i]) == line[i]
    ensures Normalized(line) == line
  {
    TrimOfTrimmed(line, false);
    assert ToUpper(line) == line;
  }

  /** Normalizing twice is normalizing once. */
  lemma NormalizedIdempotent(line: string)
    ensures Normalized(Normalized(line)) == Normalized(line)
  {
    NormalizedClean(Normalized(line));
  }

  /**
   * Normalizing keeps the text between the white space, only in upper
   * case: the result is ToUpper of a piece of the line, and everything
   * around that piece is white space.
   */
  lemma NormalizedKeepsText(line: string)
    ensures var start := TextStart(line, 0, false);
      && start + |Normalized(line)| <= |line|
      && (forall i :: 0 <= i < |Normalized(line)| ==> Normalized(line)[i] == UpperChar(line[start + i]))
      && (forall j :: 0 <= j < start ==> IsWhiteSpace(line[j]))
      && (forall j :: start + |Normalized(line)| <= j < |line| ==> IsWhiteSpace(line[j]))
  {
    TrimIsInfix(line);
    var start := TextStart(line, 0, false);
    assert Trim(line) == line[start..start + |Trim(line)|];
  }

  /** The numbered part of a framed line: `N<count+1> <line>`. */
  function LineWithCount(count: nat, line: string): string
  {
    "N" + NatToString(count + 1) + " " + line
  }

  /**
   * WriteChecksumLineToPrinter's framing: the line numbered one past the
   * lines already in the ledger, then `*` and the checksum of everything
   * before the `*`.
   */
  function FrameLine(count: nat, line: string, checksum: string -> Int32): string
  {
    var numbered := LineWithCount(count, line);
    numbered + "*" + IntToString(checksum(numbered))
  }

  datatype Framed = Framed(lineNumber: nat, command: string, checksum: int)

  /** String.LastIndexOf(char): the last position holding `c`, or -1. */
  function LastIndexOf(s: string, c: char): (r: int)
    ensures r == -1 <==> c !in s
    ensures r != -1 ==> 0 <= r < |s| && s[r] == c
    ensures forall i :: r < i < |s| ==> s[i] != c
  {
    LastIndexBefore(s, c, |s|)
  }

  /** The last position below `end` holding `c`, or -1. */
  function LastIndexBefore(s: string, c: char, end: nat): (r: int)
    requires end <= |s|
    ensures r == -1 <==> c !in s[..end]
    ensures r != -1 ==> 0 <= r < end && s[r] == c
    ensures forall i :: r < i < end ==> s[i] != c
  {
    if end == 0 then -1
    else if s[end - 1] == c then end - 1
    else LastIndexBefore(s, c, end - 1)
  }

  /** The `<digits> <command>` part of a framed line after the `N`. */
  function ParseNumbered(head: string): Option<(nat, string)>
  {
    var space := IndexOf(head, ' ');
    if space <= 0 || !AllDigits(head[..space]) then None
    else Some((DigitsValue(head[..space]), head[space + 1..]))
  }

  /** How a printer reads a framed line back: number, command and checksum. */
  function Unframe(s: string): Option<Framed>
  {
    if |s| == 0 || s[0] != 'N' then None
    else
      var star := LastIndexOf(s, '*');
      if star < 1 then None
      else
        var head := ParseNumbered(s[1..star]);
        var sum := TryParseInt(s[star + 1..]);
        if head.None? || sum.None? then None
        else Some(Framed(head.value.0, head.value.1, sum.value))
  }

  /** The position of the only `*` after which no `*` follows. */
  lemma LastStar(numbered: string, sum: string)
    requires '*' !in sum
    ensures LastIndexOf(numbered + "*" + sum, '*') == |numbered|
  {
    var s := numbered + "*" + sum;
    assert s[|numbered|] == '*';
    forall i | |numbered| < i < |s| ensures s[i] != '*' {
      assert s[i] == sum[i - |numbered| - 1];
    }
  }

  /** Digits end at the first space. */
  lemma ParseNumberedDigits(digits: string, line: string)
    requires AllDigits(digits) && |digits| > 0
    ensures ParseNumbered(digits + " " + line) == Some((DigitsValue(digits), line))
  {
    var h := digits + " " + line;
    assert h[|digits|] == ' ';
    forall i | 0 <= i < |digits| ensures h[i] != ' ' {
      assert h[i] == digits[i];
    }
    assert IndexOf(h, ' ') == |digits|;
    assert h[..|digits|] == digits;
    assert h[|digits| + 1..] == line;
  }

  lemma NoStarInNumber(n: int)
    ensures '*' !in IntToString(n)
  {
    var r := IntToString(n);
    forall i | 0 <= i < |r| ensures r[i] != '*' {
      assert IsDigit(r[i]) || r[i] == '-';
    }
  }

  /**
   * A framed line reads back as the line number one past the ledger count,
   * the original command (whatever it contains, `*` included) and the
   * checksum of the numbered part.
   */
  lemma UnframeFrameLine(count: nat, line: string, checksum: string -> Int32)
    ensures Unframe(FrameLine(count, line, checksum))
      == Some(Framed(count + 1, line, checksum(LineWithCount(count, line))))
  {
    var numbered := LineWithCount(count, line);
    var value: int := checksum(numbered);
    var s := numbered + "*" + IntToString(value);
    assert s == FrameLine(count, line, checksum);
    FramedParts(count, line, value);
  }

  lemma FramedParts(count: nat, line: string, value: int)
    requires InInt32(value)
    ensures Unframe(LineWithCount(count, line) + "*" + IntToString(value))
      == Some(Framed(count + 1, line, value))
  {
    var digits := NatToString(count + 1);
    var numbered := LineWithCount(count, line);
    assert numbered[0] == 'N' && numbered[1..] == digits + " " + line;
    ParseNumberedDigits(digits, line);
    DigitsValueOfNatToString(count + 1);
    NoStarInNumber(value);
    ParseIntToString(value);
    UnframeParts(numbered, IntToString(value), count + 1, line, value);
  }

  /** Unframe splits at the last `*`, which is the one before a star-free checksum. */
  lemma UnframeParts(numbered: string, sum: string, number: nat, line: string, value: int)
    requires |numbered| >= 1 && numbered[0] == 'N'
    requires ParseNumbered(numbered[1..]) == Some((number, line))
    requires '*' !in sum && TryParseInt(sum) == Some(value)
    ensures Unframe(numbered + "*" + sum) == Some(Framed(number, line, value))
  {
    var s := numbered + "*" + sum;
    LastStar(numbered, sum);
    assert s[1..|numbered|] == numbered[1..];
    assert s[|numbered| + 1..] == sum;
  }

  // ---- resend requests ----

  /**
   * PrinterRequestsResend's reading of a printer line: the text between the
   * first and second colon, if there is one and Int32.TryParse accepts it.
   */
  function ParseResend(line: string): (n: Option<int>)
    ensures ':' !in line ==> n == None
    ensures n.Some? ==> InInt32(n.value)
  {
    var parts := Split(line, ':');
    if |parts| > 1 then TryParseInt(parts[1]) else None
  }

  /** A `key:value` line with no other colon is read as TryParse of the value. */
  lemma ParseKeyValue(key: string, value: string)
    requires ':' !in key && ':' !in value
    ensures ParseResend(key + ":" + value) == TryParseInt(value)
  {
    assert Join([key, value], ':') == key + ":" + value;
    SplitJoin([key, value], ':');
  }

  lemma NoColonInNumber(pad: string, n: int)
    requires forall i :: 0 <= i < |pad| ==> IsParseSpace(pad[i])
    ensures ':' !in pad + IntToString(n)
  {
    var r := pad + IntToString(n);
    forall i | 0 <= i < |r| ensures r[i] != ':' {
      if i >= |pad| {
        assert r[i] == IntToString(n)[i - |pad|];
      }
    }
  }

  /** The firmware's `Resend: <n>` request, with or without white space, is read back as `n`. */
  lemma ParseResendRequest(pad: string, n: int)
    requires InInt32(n)
    requires forall i :: 0 <= i < |pad| ==> IsParseSpace(pad[i])
    ensures ParseResend("Resend:" + pad + IntToString(n)) == Some(n)
  {
    NoColonInNumber(pad, n);
    assert "Resend:" + pad + IntToString(n) == "Resend" + ":" + (pad + IntToString(n));
    ParseKeyValue("Resend", pad + IntToString(n));
    ParseIgnoresPadding(pad, n, "");
    assert pad + IntToString(n) + "" == pad + IntToString(n);
  }

  // ---- received text ----

  /** The reader's accumulator after a read: carriage returns become line feeds. */
  function Received(pending: string, chunk: string): string
  {
    pending + ReplaceChar(chunk, '\r', '\n')
  }

  /** The complete lines in `buffer`, in order, without their line feeds. */
  function CompleteLines(buffer: string): (lines: seq<string>)
    ensures |lines| == CountChar(buffer, '\n')
    ensures forall i :: 0 <= i < |lines| ==> '\n' !in lines[i]
  {
    var pieces := Split(buffer, '\n');
    pieces[..|pieces| - 1]
  }

  /** What is left of `buffer` after its last line feed. */
  function Remainder(buffer: string): (rest: string)
    ensures '\n' !in rest
  {
    var pieces := Split(buffer, '\n');
    pieces[|pieces| - 1]
  }

  /** Nothing is lost or invented: the lines and the remainder rebuild the buffer. */
  lemma LinesRebuildBuffer(buffer: string)
    ensures Join(CompleteLines(buffer) + [Remainder(buffer)], '\n') == buffer
  {
    var pieces := Split(buffer, '\n');
    assert CompleteLines(buffer) + [Remainder(buffer)] == pieces;
  }

  /**
   * The handshake test on a complete line while connecting: the line is
   * accepted when splitting it on `?` gives at most three pieces, that is,
   * when it holds fewer than three `?` characters.
   */
  function HandshakeAccepts(line: string): (accepted: bool)
    ensures accepted <==> CountChar(line, '?') < MaxInvalidConnectionChars
  {
    |Split(line, '?')| <= MaxInvalidConnectionChars
  }

  /** The handshake test on text with no line feed yet: more than three `?` abort the attempt. */
  function BufferRejected(buffer: string): bool
  {
    CountChar(buffer, '?') > MaxInvalidConnectionChars
  }
}
