/**
 * The .NET string operations the printer and settings code relies on
 * (Trim, Split, IndexOf, Contains, Replace, ToUpper, int.ToString and
 * int.TryParse), restricted to what those call sites need.
 */
module Strings {

  datatype Option<T> = None | Some(value: T)

  /** The white space Int32.TryParse skips around a number: tab, line feed, vertical tab, form feed, carriage return, space. */
  predicate IsParseSpace(c: char)
  {
    c == ' ' || c == '\t' || c == '\n' || c == '\r' || c == '\U{0B}' || c == '\U{0C}'
  }

  /**
   * Char.IsWhiteSpace, which String.Trim() strips: the ASCII white space
   * above, next line, the no-break spaces, the Unicode space separators,
   * and the line and paragraph separators.
   */
  predicate IsWhiteSpace(c: char)
  {
    || IsParseSpace(c)
    || c == '\U{85}' || c == '\U{A0}' || c == '\U{1680}'
    || ('\U{2000}' <= c <= '\U{200A}')
    || c == '\U{2028}' || c == '\U{2029}' || c == '\U{202F}' || c == '\U{205F}' || c == '\U{3000}'
  }

  /** The white space a trim strips: Char.IsWhiteSpace for String.Trim(), the narrower set for Int32.TryParse. */
  predicate IsSpace(c: char, parsing: bool)
  {
    if parsing then IsParseSpace(c) else IsWhiteSpace(c)
  }

  function CountChar(s: string, c: char): (n: nat)
    ensures n <= |s|
    ensures n == 0 <==> c !in s
  {
    if s == [] then 0 else (if s[0] == c then 1 else 0) + CountChar(s[1..], c)
  }

  lemma {:induction false} CountCharAppend(a: string, b: string, c: char)
    ensures CountChar(a + b, c) == CountChar(a, c) + CountChar(b, c)
  {
    if a == [] {
      assert a + b == b;
    } else {
      assert (a + b)[1..] == a[1..] + b;
      CountCharAppend(a[1..], b, c);
    }
  }

  /** String.IndexOf(char): the first position of `c`, or -1. */
  function IndexOf(s: string, c: char): (r: int)
    ensures r == -1 <==> c !in s
    ensures r != -1 ==> 0 <= r < |s| && s[r] == c
    ensures forall i :: 0 <= i < r ==> s[i] != c
  {
    if s == [] then -1
    else if s[0] == c then 0
    else
      var k := IndexOf(s[1..], c);
      if k < 0 then -1 else k + 1
  }

  /** `sub` occurs in `s` starting at position `i`. */
  predicate OccursAt(s: string, sub: string, i: int)
  {
    0 <= i && i + |sub| <= |s| && s[i..i + |sub|] == sub
  }

  /** String.Contains(string): `sub` occurs in `s` at some position. */
  predicate Contains(s: string, sub: string)
  {
    exists i :: 0 <= i <= |s| - |sub| && OccursAt(s, sub, i)
  }

  /** String.StartsWith(string), ordinal. */
  predicate StartsWith(s: string, prefix: string)
  {
    |prefix| <= |s| && s[..|prefix|] == prefix
  }

  /** The first position at or after `i` that is not white space (or |s|). */
  function TextStart(s: string, i: nat, parsing: bool): (r: nat)
    requires i <= |s|
    ensures i <= r <= |s|
    ensures r < |s| ==> !IsSpace(s[r], parsing)
    ensures forall j :: i <= j < r ==> IsSpace(s[j], parsing)
    decreases |s| - i
  {
    if i < |s| && IsSpace(s[i], parsing) then TextStart(s, i + 1, parsing) else i
  }

  /** The end of the text in s[lo..e] once white space at its end is dropped. */
  function TextEnd(s: string, lo: nat, e: nat, parsing: bool): (r: nat)
    requires lo <= e <= |s|
    ensures lo <= r <= e
    ensures r > lo ==> !IsSpace(s[r - 1], parsing)
    ensures forall j :: r <= j < e ==> IsSpace(s[j], parsing)
  {
    if e > lo && IsSpace(s[e - 1], parsing) then TextEnd(s, lo, e - 1, parsing) else e
  }

  /** White space stripped at both ends and nothing else. */
  function TrimSpace(s: string, parsing: bool): (r: string)
    ensures r == [] || (!IsSpace(r[0], parsing) && !IsSpace(r[|r| - 1], parsing))
    ensures |r| <= |s|
  {
    var start := TextStart(s, 0, parsing);
    s[start..TextEnd(s, start, |s|, parsing)]
  }

  /** String.Trim(): strips Char.IsWhiteSpace at both ends and nothing else. */
  function Trim(s: string): (r: string)
    ensures r == [] || (!IsWhiteSpace(r[0]) && !IsWhiteSpace(r[|r| - 1]))
    ensures |r| <= |s|
  {
    TrimSpace(s, false)
  }

  /**
   * What Trim leaves is a piece of the original, and everything it dropped
   * on either side of that piece is white space.
   */
  lemma TrimIsInfix(s: string)
    ensures OccursAt(s, Trim(s), TextStart(s, 0, false))
    ensures forall j :: 0 <= j < TextStart(s, 0, false) ==> IsWhiteSpace(s[j])
    ensures forall j :: TextStart(s, 0, false) + |Trim(s)| <= j < |s| ==> IsWhiteSpace(s[j])
  {
  }

  /** A string that starts and ends with a non-white character is its own trim. */
  lemma TrimOfTrimmed(s: string, parsing: bool)
    requires s == [] || (!IsSpace(s[0], parsing) && !IsSpace(s[|s| - 1], parsing))
    ensures TrimSpace(s, parsing) == s
  {
  }

  function UpperChar(c: char): (u: char)
  {
    if 'a' <= c <= 'z' then (c as int - 32) as char else c
  }

  /** String.ToUpper() on the ASCII letters; every other character is kept. */
  function ToUpper(s: string): (r: string)
    ensures |r| == |s|
    ensures forall i :: 0 <= i < |s| ==> r[i] == UpperChar(s[i])
  {
    seq(|s|, i requires 0 <= i < |s| => UpperChar(s[i]))
  }

  /** String.Replace(char, char). */
  function ReplaceChar(s: string, from: char, to: char): (r: string)
    ensures |r| == |s|
    ensures forall i :: 0 <= i < |s| ==> r[i] == if s[i] == from then to else s[i]
  {
    seq(|s|, i requires 0 <= i < |s| => if s[i] == from then to else s[i])
  }

  /**
   * String.Replace("\\n", "\n"): every two-character escape backslash-n,
   * scanned left to right without overlap, becomes a real line feed.
   */
  function UnescapeNewlines(s: string): (r: string)
    ensures |r| <= |s|
    ensures '\\' !in s ==> r == s
    decreases |s|
  {
    if |s| >= 2 && s[0] == '\\' && s[1] == 'n' then "\n" + UnescapeNewlines(s[2..])
    else if s == [] then []
    else [s[0]] + UnescapeNewlines(s[1..])
  }

  /** `parts` joined with `sep` between consecutive parts. */
  function Join(parts: seq<string>, sep: char): string
    requires |parts| > 0
  {
    if |parts| == 1 then parts[0] else parts[0] + [sep] + Join(parts[1..], sep)
  }

  /** Appending a part appends the separator and the part. */
  lemma {:induction false} JoinSnoc(parts: seq<string>, last: string, sep: char)
    requires |parts| > 0
    ensures Join(parts + [last], sep) == Join(parts, sep) + [sep] + last
  {
    if |parts| > 1 {
      assert (parts + [last])[1..] == parts[1..] + [last];
      JoinSnoc(parts[1..], last, sep);
    }
  }

  /**
   * String.Split(char): the pieces between occurrences of `sep`, empty
   * pieces included, so there is always one more piece than separators.
   */
  function Split(s: string, sep: char): (parts: seq<string>)
    ensures |parts| == CountChar(s, sep) + 1
    ensures forall i :: 0 <= i < |parts| ==> sep !in parts[i]
    ensures Join(parts, sep) == s
    ensures forall i :: 0 <= i < |parts| ==> |parts[i]| <= |s|
    ensures sep in s ==> forall i :: 0 <= i < |parts| ==> |parts[i]| < |s|
    decreases |s|
  {
    var k := IndexOf(s, sep);
    if k < 0 then [s]
    else
      var rest := Split(s[k + 1..], sep);
      SplitStep(s, sep, k, rest);
      [s[..k]] + rest
  }

  /** Split's contract carried from the text after the first separator to the whole text. */
  lemma SplitStep(s: string, sep: char, k: int, rest: seq<string>)
    requires 0 <= k < |s| && s[k] == sep
    requires forall i :: 0 <= i < k ==> s[i] != sep
    requires |rest| == CountChar(s[k + 1..], sep) + 1
    requires forall i :: 0 <= i < |rest| ==> sep !in rest[i]
    requires Join(rest, sep) == s[k + 1..]
    requires forall i :: 0 <= i < |rest| ==> |rest[i]| <= |s[k + 1..]|
    ensures var parts := [s[..k]] + rest;
      && |parts| == CountChar(s, sep) + 1
      && (forall i :: 0 <= i < |parts| ==> sep !in parts[i])
      && Join(parts, sep) == s
      && (forall i :: 0 <= i < |parts| ==> |parts[i]| < |s|)
  {
    var parts := [s[..k]] + rest;
    assert sep !in s[..k] by {
      forall j | 0 <= j < k ensures s[..k][j] != sep {
        assert s[..k][j] == s[j];
      }
    }
    assert s == s[..k] + [sep] + s[k + 1..];
    CountCharAppend(s[..k] + [sep], s[k + 1..], sep);
    CountCharAppend(s[..k], [sep], sep);
    assert parts[1..] == rest;
    forall i | 0 <= i < |parts|
      ensures sep !in parts[i] && |parts[i]| < |s|
    {
      if i > 0 {
        assert parts[i] == rest[i - 1];
      }
    }
  }

  /** Split undoes Join when no part contains the separator. */
  lemma {:induction false} SplitJoin(parts: seq<string>, sep: char)
    requires |parts| > 0
    requires forall i :: 0 <= i < |parts| ==> sep !in parts[i]
    ensures Split(Join(parts, sep), sep) == parts
  {
    var s := Join(parts, sep);
    if |parts| == 1 {
      assert s == parts[0];
    } else {
      var tail := Join(parts[1..], sep);
      var k := |parts[0]|;
      assert s == parts[0] + [sep] + tail;
      assert s[..k] == parts[0] && s[k + 1..] == tail;
      calc {
        Split(s, sep);
      == { IndexOfAfter(parts[0], sep, tail); SplitAt(s, sep, k); }
        [s[..k]] + Split(s[k + 1..], sep);
      ==
        [parts[0]] + Split(tail, sep);
      == { SplitJoin(parts[1..], sep); }
        [parts[0]] + parts[1..];
      ==
        parts;
      }
    }
  }

  /** Split at the first separator. */
  lemma SplitAt(s: string, sep: char, k: int)
    requires 0 <= k < |s| && IndexOf(s, sep) == k
    ensures Split(s, sep) == [s[..k]] + Split(s[k + 1..], sep)
  {
  }

  /** The first `sep` of `a + [sep] + b` is the one after `a` when `a` has none. */
  lemma IndexOfAfter(a: string, sep: char, b: string)
    requires sep !in a
    ensures IndexOf(a + [sep] + b, sep) == |a|
  {
    var s := a + [sep] + b;
    assert s[|a|] == sep;
    assert forall i :: 0 <= i < |a| ==> s[i] == a[i];
  }

  /** The text before the first `sep` (`s.Split(sep)[0]`). */
  function FirstField(s: string, sep: char): (r: string)
    ensures sep !in r
    ensures |r| <= |s| && r == s[..|r|]
    ensures r == s <==> sep !in s
  {
    var k := IndexOf(s, sep);
    if k < 0 then s else s[..k]
  }

  /** The first field is exactly the first piece String.Split produces. */
  lemma FirstFieldIsFirstPiece(s: string, sep: char)
    ensures FirstField(s, sep) == Split(s, sep)[0]
  {
  }

  // ---- integers as text ----

  predicate IsDigit(c: char) { '0' <= c <= '9' }

  function DigitChar(d: nat): (c: char)
    requires d < 10
    ensures IsDigit(c)
  {
    ('0' as int + d) as char
  }

  function DigitValue(c: char): (d: nat)
    requires IsDigit(c)
    ensures d < 10
  {
    c as int - '0' as int
  }

  /** Int32.ToString() of a non-negative value: its decimal digits, no leading zeros. */
  function NatToString(n: nat): (r: string)
    ensures |r| > 0
    ensures forall i :: 0 <= i < |r| ==> IsDigit(r[i])
    ensures |r| > 1 ==> r[0] != '0'
  {
    if n < 10 then [DigitChar(n)] else NatToString(n / 10) + [DigitChar(n % 10)]
  }

  /** Int32.ToString(): a minus sign for negative values, then the digits. */
  function IntToString(n: int): (r: string)
    ensures |r| > 0 && !IsWhiteSpace(r[0]) && !IsWhiteSpace(r[|r| - 1])
    ensures forall i :: 0 <= i < |r| ==> IsDigit(r[i]) || r[i] == '-'
  {
    if n < 0 then "-" + NatToString(-n) else NatToString(n)
  }

  predicate AllDigits(s: string)
  {
    forall i :: 0 <= i < |s| ==> IsDigit(s[i])
  }

  /** The value of a run of decimal digits. */
  function DigitsValue(s: string): (v: nat)
    requires AllDigits(s)
  {
    if s == [] then 0 else DigitsValue(s[..|s| - 1]) * 10 + DigitValue(s[|s| - 1])
  }

  lemma {:induction false} DigitsValueOfNatToString(n: nat)
    ensures DigitsValue(NatToString(n)) == n
  {
    var r := NatToString(n);
    if n >= 10 {
      DigitsValueOfNatToString(n / 10);
      assert r[..|r| - 1] == NatToString(n / 10);
    }
  }

  const Int32Min: int := -0x8000_0000
  const Int32Max: int := 0x7FFF_FFFF

  predicate InInt32(n: int) { Int32Min <= n <= Int32Max }

  /** The value of an optional sign followed by at least one digit, if it fits in 32 bits. */
  function ParseSignedDigits(t: string): (r: Option<int>)
    ensures r.Some? ==> InInt32(r.value)
  {
    if |t| > 1 && (t[0] == '-' || t[0] == '+') && AllDigits(t[1..]) then
      var v: int := if t[0] == '-' then -(DigitsValue(t[1..]) as int) else DigitsValue(t[1..]);
      if InInt32(v) then Some(v) else None
    else if |t| > 0 && AllDigits(t) && InInt32(DigitsValue(t)) then
      Some(DigitsValue(t))
    else
      None
  }

  /**
   * Int32.TryParse(string) with the default integer style: optional white
   * space around an optional sign and at least one decimal digit; a value
   * outside the 32-bit range is a failure.
   */
  function TryParseInt(s: string): (r: Option<int>)
    ensures r.Some? ==> InInt32(r.value)
  {
    ParseSignedDigits(TrimSpace(s, true))
  }

  /** Int32.TryParse reads back what Int32.ToString writes. */
  lemma ParseIntToString(n: int)
    requires InInt32(n)
    ensures TryParseInt(IntToString(n)) == Some(n)
  {
    var s := IntToString(n);
    TrimOfTrimmed(s, true);
    if n < 0 {
      DigitsValueOfNatToString(-n);
      assert s[1..] == NatToString(-n);
    } else {
      DigitsValueOfNatToString(n);
    }
  }

  /** White space Int32.TryParse skips around a number does not change what it reads. */
  lemma ParseIgnoresPadding(left: string, n: int, right: string)
    requires InInt32(n)
    requires forall i :: 0 <= i < |left| ==> IsParseSpace(left[i])
    requires forall i :: 0 <= i < |right| ==> IsParseSpace(right[i])
    ensures TryParseInt(left + IntToString(n) + right) == Some(n)
  {
    var s := IntToString(n);
    var t := left + s + right;
    var k := |left| + |s|;
    assert t[|left|..k] == s;
    TextStartOfPadded(t, |left|, 0, true);
    TextEndOfPadded(t, |left|, k, |t|, true);
    ParseIntToString(n);
    TrimOfTrimmed(s, true);
  }

  /** White space from i up to a non-white character at k: the text starts at k. */
  lemma {:induction false} TextStartOfPadded(t: string, k: nat, i: nat, parsing: bool)
    requires i <= k < |t| && !IsSpace(t[k], parsing)
    requires forall j :: i <= j < k ==> IsSpace(t[j], parsing)
    ensures TextStart(t, i, parsing) == k
    decreases k - i
  {
    if i < k {
      TextStartOfPadded(t, k, i + 1, parsing);
    }
  }

  /** A non-white character just before k and white space from k up to e: the text ends at k. */
  lemma {:induction false} TextEndOfPadded(t: string, lo: nat, k: nat, e: nat, parsing: bool)
    requires lo < k <= e <= |t| && !IsSpace(t[k - 1], parsing)
    requires forall j :: k <= j < e ==> IsSpace(t[j], parsing)
    ensures TextEnd(t, lo, e, parsing) == k
  {
    if k < e {
      TextEndOfPadded(t, lo, k, e - 1, parsing);
    }
  }
}
