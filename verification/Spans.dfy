/** Source line spans: printing, parsing, and when the two are inverse. */
module Spans {
  import opened Prelude

  const U32_MAX := 0xFFFF_FFFF

  type u32 = n: nat | n <= U32_MAX

  datatype Span = Span(start: u32, end: u32)

  // ---- decimal numbers -----------------------------------------------------

  predicate IsDigit(c: char) {
    '0' <= c <= '9'
  }

  function DigitChar(d: nat): char
    requires d < 10
  {
    '0' + d as char
  }

  function DigitValue(c: char): nat
    requires IsDigit(c)
  {
    (c - '0') as nat
  }

  function Decimal(n: nat): string {
    if n < 10 then [DigitChar(n)] else Decimal(n / 10) + [DigitChar(n % 10)]
  }

  /** Digits read onto an accumulator; anything else, or a value past 32 bits, is an error. */
  function ReadDigits(acc: u32, s: string): Option<u32>
    decreases |s|
  {
    if s == "" then Some(acc)
    else if !IsDigit(s[0]) then None
    else
      var next := acc * 10 + DigitValue(s[0]);
      if next > U32_MAX then None else ReadDigits(next, s[1..])
  }

  /** `str::parse::<u32>`: digits, with one optional leading plus. */
  function ParseU32(s: string): Option<u32> {
    if s == "" || s == "+" then None
    else if s[0] == '+' then ReadDigits(0, s[1..])
    else ReadDigits(0, s)
  }

  lemma {:induction false} ReadConcat(acc: u32, a: string, b: string)
    ensures ReadDigits(acc, a + b) ==
            match ReadDigits(acc, a) case None => None case Some(v) => ReadDigits(v, b)
    decreases |a|
  {
    if a == "" {
      assert a + b == b;
    } else {
      assert (a + b)[1..] == a[1..] + b;
      if IsDigit(a[0]) && acc * 10 + DigitValue(a[0]) <= U32_MAX {
        ReadConcat(acc * 10 + DigitValue(a[0]), a[1..], b);
      }
    }
  }

  lemma {:induction false} DecimalIsDigits(n: nat)
    ensures Decimal(n) != "" && forall i :: 0 <= i < |Decimal(n)| ==> IsDigit(Decimal(n)[i])
  {
    if n >= 10 {
      DecimalIsDigits(n / 10);
    }
  }

  lemma {:induction false} ReadDecimal(n: u32)
    ensures ReadDigits(0, Decimal(n)) == Some(n)
    decreases n
  {
    if n >= 10 {
      ReadDecimal(n / 10);
      ReadConcat(0, Decimal(n / 10), [DigitChar(n % 10)]);
      assert [DigitChar(n % 10)][1..] == "";
      assert n == n / 10 * 10 + n % 10;
    } else {
      assert [DigitChar(n)][1..] == "";
    }
  }

  /** Every 32-bit number reads back from its decimal form. */
  lemma ParseDecimal(n: u32)
    ensures ParseU32(Decimal(n)) == Some(n)
  {
    DecimalIsDigits(n);
    assert IsDigit(Decimal(n)[0]);
    ReadDecimal(n);
  }

  // ---- spans ---------------------------------------------------------------

  function Render(s: Span): string {
    if s.end > s.start then "L" + Decimal(s.start) + "-L" + Decimal(s.end) else "L" + Decimal(s.start)
  }

  /** Split at the first "-L". */
  function SplitOnce(s: string): Option<(string, string)> {
    if |s| < 2 then None
    else if s[..2] == "-L" then Some(("", s[2..]))
    else
      match SplitOnce(s[1..])
      case None => None
      case Some(r) => Some(([s[0]] + r.0, r.1))
  }

  function Parse(s: string): Option<Span> {
    if s == "" || s[0] != 'L' then None
    else
      match SplitOnce(s[1..])
      case Some(r) =>
        var a, b := ParseU32(r.0), ParseU32(r.1);
        if a.Some? && b.Some? then Some(Span(a.value, b.value)) else None
      case None =>
        var n := ParseU32(s[1..]);
        if n.Some? then Some(Span(n.value, n.value)) else None
  }

  /** A split is at a "-L". */
  lemma {:induction false} SplitIsBehind(s: string)
    requires SplitOnce(s).Some?
    ensures var r := SplitOnce(s).value; s == r.0 + "-L" + r.1
  {
    if s[..2] == "-L" {
      assert s == "" + "-L" + s[2..];
    } else {
      SplitIsBehind(s[1..]);
      assert s == [s[0]] + s[1..];
    }
  }

  /** And at the first one, which is where the first dash is when an L follows it. */
  lemma {:induction false} SplitAtFirstDash(a: string, b: string)
    requires '-' !in a
    ensures SplitOnce(a + "-L" + b) == Some((a, b))
  {
    var s := a + "-L" + b;
    if a != "" {
      assert s[0] == a[0] && s[1..] == a[1..] + "-L" + b;
      assert a[0] in a && s[..2][0] != '-';
      SplitAtFirstDash(a[1..], b);
      assert [a[0]] + a[1..] == a;
    } else {
      assert s[..2] == "-L" && s[2..] == b;
    }
  }

  lemma {:induction false} NoDashNoSplit(s: string)
    requires '-' !in s
    ensures SplitOnce(s) == None
  {
    if |s| >= 2 {
      assert s[..2][0] != '-';
      NoDashNoSplit(s[1..]);
    }
  }

  /** What parsing a rendered span gives back, for every span of 32-bit numbers. */
  lemma ParseOfRender(s: Span)
    ensures Parse(Render(s)) == Some(if s.end > s.start then s else Span(s.start, s.start))
  {
    var a, b := Decimal(s.start), Decimal(s.end);
    DecimalIsDigits(s.start);
    assert '-' !in a;
    ParseDecimal(s.start);
    if s.end > s.start {
      ParseDecimal(s.end);
      SplitAtFirstDash(a, b);
      assert Render(s)[1..] == a + "-L" + b;
    } else {
      NoDashNoSplit(a);
      assert Render(s)[1..] == a;
    }
  }

  /** `parse` inverts `render` exactly on spans whose end is not before their start. */
  lemma RoundTripIffOrdered(s: Span)
    ensures Parse(Render(s)) == Some(s) <==> s.start <= s.end
  {
    ParseOfRender(s);
  }

  /** A dash is printed exactly for a span of more than one line. */
  lemma DashIffLines(s: Span)
    ensures '-' in Render(s) <==> s.start < s.end
  {
    DecimalIsDigits(s.start);
    var a := Decimal(s.start);
    if s.end > s.start {
      assert Render(s)[1 + |a|] == '-';
    } else {
      assert forall i :: 0 <= i < |a| ==> Render(s)[1 + i] == a[i];
      assert forall i :: 0 < i < |Render(s)| ==> Render(s)[i] == a[i - 1];
    }
  }

  /** So distinct ordered spans print differently. */
  lemma RenderIsInjective(s: Span, t: Span)
    requires s.start <= s.end && t.start <= t.end && Render(s) == Render(t)
    ensures s == t
  {
    RoundTripIffOrdered(s);
    RoundTripIffOrdered(t);
  }

  // ---- exactly what parses -------------------------------------------------

  predicate AllDigits(s: string) {
    forall i :: 0 <= i < |s| ==> IsDigit(s[i])
  }

  /** What a row of digits is worth. */
  function Worth(s: string): nat
    requires AllDigits(s)
  {
    if s == "" then 0 else Worth(s[..|s| - 1]) * 10 + DigitValue(s[|s| - 1])
  }

  /** One digit or more, perhaps behind a plus, worth `n`. */
  predicate Numeral(s: string, n: nat) {
    var d := if s != "" && s[0] == '+' then s[1..] else s;
    d != "" && AllDigits(d) && Worth(d) == n
  }

  lemma {:induction false} ReadsDigits(acc: u32, s: string)
    requires ReadDigits(acc, s).Some?
    ensures AllDigits(s)
    decreases |s|
  {
    if s != "" {
      ReadsDigits(acc * 10 + DigitValue(s[0]), s[1..]);
      assert forall i :: 0 < i < |s| ==> s[i] == s[1..][i - 1];
    }
  }

  lemma {:induction false} ReadIsWorth(s: string)
    requires AllDigits(s)
    ensures ReadDigits(0, s) == if Worth(s) <= U32_MAX then Some(Worth(s)) else None
  {
    if s != "" {
      var front, last := s[..|s| - 1], s[|s| - 1];
      ReadIsWorth(front);
      assert s == front + [last] && [last][1..] == "";
      ReadConcat(0, front, [last]);
    }
  }

  /** A number parses exactly from its numerals: leading zeros and one plus allowed, nothing past 32 bits. */
  lemma ParseU32Iff(s: string, n: u32)
    ensures ParseU32(s) == Some(n) <==> Numeral(s, n)
  {
    var d := if s != "" && s[0] == '+' then s[1..] else s;
    if AllDigits(d) {
      ReadIsWorth(d);
    } else if ReadDigits(0, d).Some? {
      ReadsDigits(0, d);
      assert false;
    }
  }

  lemma NumeralHasNoDash(s: string, n: nat)
    requires Numeral(s, n)
    ensures '-' !in s
  {
    var d := if s[0] == '+' then s[1..] else s;
    assert forall i :: 0 <= i < |d| ==> d[i] != '-';
    assert forall i :: 0 < i < |s| ==> s[i] == s[1..][i - 1];
  }

  /** `s` writes the span: an L and a numeral for one line, or one for each end with a dash between. */
  ghost predicate Writes(s: string, span: Span) {
    || (s != "" && s[0] == 'L' && Numeral(s[1..], span.start) && span.start == span.end)
    || exists a: string, b: string :: s == "L" + a + "-L" + b && Numeral(a, span.start) && Numeral(b, span.end)
  }

  lemma BothEnds(rest: string, a: string, b: string, span: Span)
    requires rest == a + "-L" + b && ParseU32(a) == Some(span.start) && ParseU32(b) == Some(span.end)
    ensures Writes("L" + rest, span)
  {
    ParseU32Iff(a, span.start);
    ParseU32Iff(b, span.end);
    assert "L" + rest == "L" + a + "-L" + b;
  }

  lemma ParsedIsWritten(s: string, span: Span)
    requires Parse(s) == Some(span)
    ensures Writes(s, span)
  {
    var rest := s[1..];
    assert s == "L" + rest;
    match SplitOnce(rest)
    case Some(r) =>
      SplitIsBehind(rest);
      BothEnds(rest, r.0, r.1, span);
    case None => ParseU32Iff(rest, span.start);
  }

  lemma TwoNumeralsParse(a: string, b: string, span: Span)
    requires Numeral(a, span.start) && Numeral(b, span.end)
    ensures Parse("L" + a + "-L" + b) == Some(span)
  {
    var s := "L" + a + "-L" + b;
    assert s[1..] == a + "-L" + b;
    NumeralHasNoDash(a, span.start);
    SplitAtFirstDash(a, b);
    ParseU32Iff(a, span.start);
    ParseU32Iff(b, span.end);
  }

  lemma OneNumeralParses(s: string, n: u32)
    requires s != "" && s[0] == 'L' && Numeral(s[1..], n)
    ensures Parse(s) == Some(Span(n, n))
  {
    NumeralHasNoDash(s[1..], n);
    NoDashNoSplit(s[1..]);
    ParseU32Iff(s[1..], n);
  }

  /** A string parses to a span exactly when it writes it, and to nothing when it writes none. */
  lemma ParseIffWritten(s: string, span: Span)
    ensures Parse(s) == Some(span) <==> Writes(s, span)
  {
    if Parse(s) == Some(span) {
      ParsedIsWritten(s, span);
    } else if Writes(s, span) {
      if s[0] == 'L' && Numeral(s[1..], span.start) && span.start == span.end {
        OneNumeralParses(s, span.start);
      } else {
        var a, b :| s == "L" + a + "-L" + b && Numeral(a, span.start) && Numeral(b, span.end);
        TwoNumeralsParse(a, b, span);
      }
    }
  }
}
