/** The token-budget cutter over UTF-8 bytes. */
module Budget {
  import opened Prelude

  type byte = b: nat | b < 256

  type Text = seq<byte>

  const CHARS_PER_TOKEN := 3
  const USIZE_MAX := 0xFFFF_FFFF_FFFF_FFFF
  /** No string is longer than this many bytes. */
  const ISIZE_MAX := 0x7FFF_FFFF_FFFF_FFFF
  const NEWLINE: byte := 10
  const RETURN: byte := 13
  /** The bytes of "NODE ". */
  const NODE_TAG: Text := [78, 79, 68, 69, 32]

  function SaturatingMul(a: nat, b: nat): nat {
    if a * b > USIZE_MAX then USIZE_MAX else a * b
  }

  function Min(a: nat, b: nat): nat {
    if a <= b then a else b
  }

  /** A continuation byte is the one kind a character cannot start with. */
  predicate IsContinuation(b: byte) {
    128 <= b < 192
  }

  predicate IsBoundary(t: Text, i: nat) {
    i == 0 || i == |t| || (i < |t| && !IsContinuation(t[i]))
  }

  function FirstNewline(t: Text): (r: Option<nat>)
    ensures r.None? ==> NEWLINE !in t
    ensures r.Some? ==> r.value < |t| && t[r.value] == NEWLINE && NEWLINE !in t[..r.value]
  {
    if t == [] then None
    else if t[0] == NEWLINE then Some(0)
    else
      match FirstNewline(t[1..])
      case None => None
      case Some(i) => assert t[..i + 1] == [t[0]] + t[1..][..i]; Some(i + 1)
  }

  function LastNewline(t: Text): (r: Option<nat>)
    ensures r.None? ==> NEWLINE !in t
    ensures r.Some? ==> r.value < |t| && t[r.value] == NEWLINE && forall j :: r.value < j < |t| ==> t[j] != NEWLINE
  {
    if t == [] then None
    else if t[|t| - 1] == NEWLINE then Some(|t| - 1)
    else LastNewline(t[..|t| - 1])
  }

  function StripReturn(line: Text): Text {
    if line != [] && line[|line| - 1] == RETURN then line[..|line| - 1] else line
  }

  /** `str::lines`: terminated lines lose their break, an unterminated last line counts when not empty. */
  function Lines(t: Text): seq<Text>
    decreases |t|
  {
    if t == [] then []
    else
      match FirstNewline(t)
      case None => [t]
      case Some(i) => [StripReturn(t[..i])] + Lines(t[i + 1..])
  }

  predicate IsNode(line: Text) {
    NODE_TAG <= line
  }

  function CountNodes(lines: seq<Text>): nat {
    if lines == [] then 0 else (if IsNode(lines[0]) then 1 else 0) + CountNodes(lines[1..])
  }

  function NodeLines(t: Text): nat {
    CountNodes(Lines(t))
  }

  lemma NodeLinesFirst(t: Text, i: nat)
    requires FirstNewline(t) == Some(i)
    ensures NodeLines(t) == (if IsNode(StripReturn(t[..i])) then 1 else 0) + NodeLines(t[i + 1..])
  {
    assert ([StripReturn(t[..i])] + Lines(t[i + 1..]))[1..] == Lines(t[i + 1..]);
  }

  lemma NodeLinesOne(t: Text)
    requires FirstNewline(t).None?
    ensures NodeLines(t) == if IsNode(t) then 1 else 0
  {
    if t != [] {
      var one := Lines(t);
      assert one == [t];
      assert CountNodes(one) == (if IsNode(one[0]) then 1 else 0) + CountNodes(one[1..]);
    }
  }

  lemma {:induction false} FirstNewlineOfPrefix(t: Text, k: nat)
    requires k <= |t|
    ensures var i := FirstNewline(t);
            FirstNewline(t[..k]) == if i.Some? && i.value < k then i else None
  {
    if k > 0 && t[0] != NEWLINE {
      FirstNewlineOfPrefix(t[1..], k - 1);
      assert t[..k][1..] == t[1..][..k - 1];
    }
  }

  /** The places where a line starts with the tag. */
  ghost function NodeStarts(t: Text): set<nat> {
    set i: nat | i < |t| && IsStart(t, i)
  }

  predicate IsStart(t: Text, i: nat) {
    i + 5 <= |t| && (i == 0 || t[i - 1] == NEWLINE) && t[i..i + 5] == NODE_TAG
  }

  ghost function Shifted(s: set<nat>, shift: nat): set<nat> {
    set i | i in s :: i + shift
  }

  lemma {:induction false} ShiftedCount(s: set<nat>, shift: nat)
    ensures |Shifted(s, shift)| == |s|
  {
    if s == {} {
      assert Shifted(s, shift) == {};
    } else {
      var i :| i in s;
      ShiftedCount(s - {i}, shift);
      var less := Shifted(s - {i}, shift);
      forall x ensures x in Shifted(s, shift) <==> x in less + {i + shift} {
        if x in Shifted(s, shift) {
          var j :| j in s && x == j + shift;
          assert j == i || j in s - {i};
        }
        if x in less {
          var j :| j in s - {i} && x == j + shift;
          assert j in s;
        }
      }
      assert Shifted(s, shift) == less + {i + shift};
    }
  }

  /** The tag has no line break in it, so it is found within one line. */
  lemma FirstLineStarts(t: Text, i: nat)
    requires FirstNewline(t) == Some(i)
    ensures IsStart(t, 0) <==> IsNode(StripReturn(t[..i]))
    ensures forall k: nat :: 0 < k <= i ==> !IsStart(t, k)
  {
    var line := t[..i];
    if IsStart(t, 0) {
      assert t[..5] == NODE_TAG;
      assert forall j :: 0 <= j < 5 ==> t[..5][j] != NEWLINE;
      assert forall j :: 0 <= j < 5 ==> t[j] == t[..5][j];
      assert line[..5] == t[..5];
      StripKeepsNode(line);
    }
    if IsNode(StripReturn(line)) {
      assert NODE_TAG <= line;
      assert t[0..5] == line[..5];
    }
    forall k: nat | 0 < k <= i ensures !IsStart(t, k) {
      assert t[k - 1] == line[k - 1];
    }
  }

  /** A node line is a place where a line starts with the tag, and they are counted one by one. */
  lemma {:induction false} NodeLinesAreStarts(t: Text)
    ensures NodeLines(t) == |NodeStarts(t)|
    decreases |t|
  {
    var first := FirstNewline(t);
    if first.None? {
      NodeLinesOne(t);
      forall k: nat | 0 < k < |t| ensures !IsStart(t, k) {
        assert t[k - 1] in t;
      }
      assert IsStart(t, 0) <==> IsNode(t) by {
        assert |t| >= 5 ==> t[0..5] == t[..5];
      }
      assert NodeStarts(t) == if IsNode(t) then {0} else {};
    } else {
      var i := first.value;
      var rest := t[i + 1..];
      NodeLinesFirst(t, i);
      NodeLinesAreStarts(rest);
      FirstLineStarts(t, i);
      ShiftedCount(NodeStarts(rest), i + 1);
      LaterStarts(t, i);
    }
  }

  lemma LaterStarts(t: Text, i: nat)
    requires i < |t| && t[i] == NEWLINE && forall k: nat :: 0 < k <= i ==> !IsStart(t, k)
    ensures NodeStarts(t) == (if IsStart(t, 0) then {0} else {}) + Shifted(NodeStarts(t[i + 1..]), i + 1)
    ensures 0 !in Shifted(NodeStarts(t[i + 1..]), i + 1)
  {
    var rest := t[i + 1..];
    forall k: nat | i < k < |t| ensures IsStart(t, k) <==> k - i - 1 in NodeStarts(rest) {
      StartBehind(t, i, k);
    }
    forall k: nat ensures k in NodeStarts(t) <==> (k == 0 && IsStart(t, 0)) || k in Shifted(NodeStarts(rest), i + 1) {
      if i < k < |t| && IsStart(t, k) {
        assert k == (k - i - 1) + (i + 1);
      }
    }
  }

  lemma StartBehind(t: Text, i: nat, k: nat)
    requires i < k < |t| && t[i] == NEWLINE
    ensures IsStart(t, k) <==> IsStart(t[i + 1..], k - i - 1)
  {
    var rest := t[i + 1..];
    if k + 5 <= |t| {
      assert rest[k - i - 1..k - i - 1 + 5] == t[k..k + 5];
    }
    assert k > i + 1 ==> rest[k - i - 2] == t[k - 1];
  }

  /** Stripping a carriage return never uncovers or hides a node tag. */
  lemma StripKeepsNode(line: Text)
    ensures IsNode(line) ==> IsNode(StripReturn(line))
  {
    if IsNode(line) && |line| == 5 {
      assert line == NODE_TAG;
      assert line[4] == 32;
    }
  }

  /** A text and its cut beyond the first line share that line. */
  lemma CutSharesFirstLine(t: Text, k: nat, i: nat)
    requires k <= |t| && FirstNewline(t) == Some(i) && i < k
    ensures FirstNewline(t[..k]) == Some(i)
    ensures t[..k][..i] == t[..i] && t[..k][i + 1..] == t[i + 1..][..k - i - 1]
  {
    FirstNewlineOfPrefix(t, k);
  }

  /** So it comes off both alike. */
  lemma FirstLineComesOff(t: Text, k: nat, i: nat)
    requires k <= |t| && FirstNewline(t) == Some(i) && i < k
    ensures NodeLines(t[..k]) - NodeLines(t[i + 1..][..k - i - 1]) == NodeLines(t) - NodeLines(t[i + 1..])
  {
    CutSharesFirstLine(t, k, i);
    NodeLinesFirst(t[..k], i);
    NodeLinesFirst(t, i);
  }

  /** Cutting a text never shows more node lines than it has. */
  lemma {:induction false} PrefixShowsNoMore(t: Text, k: nat)
    requires k <= |t|
    ensures NodeLines(t[..k]) <= NodeLines(t)
    decreases |t|
  {
    var i := FirstNewline(t);
    FirstNewlineOfPrefix(t, k);
    if i.Some? && i.value < k {
      FirstLineComesOff(t, k, i.value);
      PrefixShowsNoMore(t[i.value + 1..], k - i.value - 1);
    } else {
      FirstLineShowsNoMore(t, k);
    }
  }

  /** A cut within the first line. */
  lemma FirstLineShowsNoMore(t: Text, k: nat)
    requires k <= |t| && FirstNewline(t[..k]).None?
    requires FirstNewline(t).Some? ==> k <= FirstNewline(t).value
    ensures NodeLines(t[..k]) <= NodeLines(t)
  {
    var i := FirstNewline(t);
    NodeLinesOne(t[..k]);
    if i.Some? {
      NodeLinesFirst(t, i.value);
      LongerKeepsNode(t[..k], t[..i.value]);
      StripKeepsNode(t[..i.value]);
    } else {
      NodeLinesOne(t);
      LongerKeepsNode(t[..k], t);
    }
  }

  lemma LongerKeepsNode(a: Text, b: Text)
    requires a <= b
    ensures IsNode(a) ==> IsNode(b)
  {
  }

  /** Untouched, or the kept prefix and what the marker behind it reports. */
  datatype Cut = Whole(body: Text) | Cut(kept: Text, dropped: nat, budget: nat)

  /** The largest character boundary not past `limit`. */
  ghost predicate LastBoundary(t: Text, limit: nat, cap: nat) {
    cap <= limit <= |t| && IsBoundary(t, cap) && forall b: nat :: cap < b <= limit ==> !IsBoundary(t, b)
  }

  /** Where the text is cut: the last line break of the window after position 0, or the window's end. */
  ghost predicate CutsAt(t: Text, cap: nat, at: nat) {
    && at <= cap <= |t|
    && (forall j :: 0 < j < cap && t[j] == NEWLINE ==> j <= at)
    && (at < cap ==> 0 < at && t[at] == NEWLINE)
    && (at == cap ==> forall j :: 0 < j < cap ==> t[j] != NEWLINE)
  }

  /**
   * `budget_cut`: a body within three bytes a token is returned unchanged; otherwise a prefix is kept
   * that ends on a character boundary and, where the window has a line break past its start, on the
   * last one; and what is reported dropped plus what is shown is all the node lines there were.
   */
  method BudgetCut(body: Text, tokenBudget: nat) returns (r: Cut)
    requires |body| <= ISIZE_MAX && tokenBudget <= USIZE_MAX
    ensures r.Whole? <==> |body| <= 3 * tokenBudget
    ensures r.Whole? ==> r.body == body
    ensures r.Cut? ==>
              && r.budget == tokenBudget
              && |r.kept| <= 3 * tokenBudget
              && r.kept == body[..|r.kept|] && IsBoundary(body, |r.kept|)
              && (exists cap :: LastBoundary(body, 3 * tokenBudget, cap) && CutsAt(body, cap, |r.kept|))
              && r.dropped + NodeLines(r.kept) == NodeLines(body)
  {
    var charBudget := SaturatingMul(tokenBudget, CHARS_PER_TOKEN);
    if |body| <= charBudget {
      return Whole(body);
    }
    assert charBudget == 3 * tokenBudget;
    var cap := Min(charBudget, |body|);
    while cap > 0 && !IsBoundary(body, cap)
      invariant 0 <= cap <= charBudget
      invariant forall b: nat :: cap < b <= charBudget ==> !IsBoundary(body, b)
    {
      cap := cap - 1;
    }
    var lineBreak := LastNewline(body[..cap]);
    var cutAt := if lineBreak.Some? && lineBreak.value > 0 then lineBreak.value else cap;
    assert LastBoundary(body, 3 * tokenBudget, cap);
    forall j | 0 < j < cap && body[j] == NEWLINE ensures lineBreak.Some? && j <= lineBreak.value {
      assert body[..cap][j] == NEWLINE;
    }
    assert CutsAt(body, cap, cutAt);
    var total := NodeLines(body);
    var shown := NodeLines(body[..cutAt]);
    PrefixShowsNoMore(body, cutAt);
    var dropped := if total < shown then 0 else total - shown;
    r := Cut(body[..cutAt], dropped, tokenBudget);
  }
}
