/** The WhatsApp rich-text sanitizer. */
module RichText {
  // Code spans pass through, and in the rest a leftover last `*` and a leftover last `_`
  // are dropped. Text is a sequence of code points.

  datatype Seg = Seg(text: string, code: bool)

  // ------------------------------------------------------------------ markers

  predicate IsWord(c: char) {
    c == '_' || 'a' <= c <= 'z' || 'A' <= c <= 'Z' || '0' <= c <= '9' || c as int > 127
  }

  predicate IsSpace(c: char) {
    c == ' ' || c == '\t' || c == '\n' || c == '\r'
  }

  /** A marker starting a bulleted line. */
  predicate IsListBullet(s: string, i: nat)
    requires i < |s|
  {
    (i == 0 || s[i - 1] == '\n') && i + 1 < |s| && s[i + 1] == ' '
  }

  predicate IsFormatMarker(s: string, i: nat)
    requires i < |s|
  {
    var hasLeft, hasRight := i > 0, i + 1 < |s|;
    if hasLeft && hasRight && IsWord(s[i - 1]) && IsWord(s[i + 1]) then false
    else if (!hasLeft || IsSpace(s[i - 1])) && (!hasRight || IsSpace(s[i + 1])) then !hasRight
    else true
  }

  /** What balanceRune collects. */
  predicate Marks(s: string, mark: char, i: nat) {
    i < |s| && s[i] == mark && !IsListBullet(s, i) && IsFormatMarker(s, i)
  }

  /** The characters of words, and blanks, by code point. */
  lemma CharactersMean(c: char)
    ensures IsWord(c) <==> 48 <= c as int <= 57 || 65 <= c as int <= 90 || c as int == 95 || 97 <= c as int <= 122 || c as int > 127
    ensures IsSpace(c) <==> c as int in {9, 10, 13, 32}
  {
  }

  /** A marker formats unless it opens a bulleted line, stands inside a word, or has blanks or
      the text's start before it and a blank after it. One with nothing after it counts
      whatever stands before. */
  lemma MarksMean(s: string, mark: char, i: nat)
    requires i < |s|
    ensures Marks(s, mark, i) <==>
            && s[i] == mark
            && !(i + 1 < |s| && s[i + 1] == ' ' && (i == 0 || s[i - 1] == '\n'))
            && !(0 < i && i + 1 < |s| && IsWord(s[i - 1]) && IsWord(s[i + 1]))
            && !(i + 1 < |s| && IsSpace(s[i + 1]) && (i == 0 || IsSpace(s[i - 1])))
  {
  }

  function Indices(s: string, mark: char, n: nat): (idx: seq<nat>)
    requires n <= |s|
    ensures forall a :: 0 <= a < |idx| ==> idx[a] < n && Marks(s, mark, idx[a])
  {
    if n == 0 then []
    else Indices(s, mark, n - 1) + (if Marks(s, mark, n - 1) then [n - 1] else [])
  }

  function Without(s: string, d: nat): string
    requires d < |s|
  {
    s[..d] + s[d + 1..]
  }

  function Last(xs: seq<nat>): nat
    requires xs != []
  {
    xs[|xs| - 1]
  }

  lemma {:induction false} IndicesMean(s: string, mark: char, n: nat)
    requires n <= |s|
    ensures forall i: nat :: i in Indices(s, mark, n) <==> i < n && Marks(s, mark, i)
    ensures forall a, b :: 0 <= a < b < |Indices(s, mark, n)| ==> Indices(s, mark, n)[a] < Indices(s, mark, n)[b]
  {
    if n > 0 {
      IndicesMean(s, mark, n - 1);
      assert forall a :: 0 <= a < |Indices(s, mark, n - 1)| ==> Indices(s, mark, n)[a] == Indices(s, mark, n - 1)[a];
    }
  }

  function Balance1(s: string, mark: char): string {
    var idx := Indices(s, mark, |s|);
    if |s| <= 1 || |idx| % 2 == 0 then s
    else Without(s, Last(idx))
  }

  function Balance(s: string): string {
    Balance1(Balance1(s, '*'), '_')
  }

  // ------------------------------------------------- what dropping one changes

  /** How many markers lie in [lo, hi). */
  function Count(s: string, mark: char, lo: nat, hi: nat): nat
    decreases hi, lo
  {
    if hi <= lo then 0 else Count(s, mark, lo, hi - 1) + (if Marks(s, mark, hi - 1) then 1 else 0)
  }

  lemma {:induction false} CountIsLength(s: string, mark: char, n: nat)
    requires n <= |s|
    ensures |Indices(s, mark, n)| == Count(s, mark, 0, n)
  {
    if n > 0 { CountIsLength(s, mark, n - 1); }
  }

  lemma {:induction false} CountSplits(s: string, mark: char, lo: nat, mid: nat, hi: nat)
    requires lo <= mid <= hi
    ensures Count(s, mark, lo, hi) == Count(s, mark, lo, mid) + Count(s, mark, mid, hi)
    decreases hi
  {
    if mid < hi { CountSplits(s, mark, lo, mid, hi - 1); }
  }

  lemma {:induction false} CountBefore(s: string, mark: char, d: nat, hi: nat)
    requires d < |s| && (hi < d || hi == 0)
    ensures Count(s, mark, 0, hi) == Count(Without(s, d), mark, 0, hi)
  {
    if hi > 0 {
      CountBefore(s, mark, d, hi - 1);
    }
  }

  lemma {:induction false} CountBeyond(s: string, mark: char, d: nat, hi: nat)
    requires d + 2 <= hi <= |s|
    ensures Count(s, mark, d + 2, hi) == Count(Without(s, d), mark, d + 1, hi - 1)
  {
    if hi > d + 2 {
      CountBeyond(s, mark, d, hi - 1);
    }
  }

  function One(b: bool): nat {
    if b then 1 else 0
  }

  /** The markers around d: those before lo, d's neighbourhood, and those from hi on. */
  lemma Around(s: string, mark: char, d: nat)
    requires d < |s|
    ensures var lo, hi := if d > 0 then d - 1 else 0, if d + 2 <= |s| then d + 2 else |s|;
            Count(s, mark, 0, |s|) == Count(s, mark, 0, lo) + One(d > 0 && Marks(s, mark, d - 1)) + One(Marks(s, mark, d))
                                      + One(Marks(s, mark, d + 1)) + Count(s, mark, hi, |s|)
  {
    var lo, hi := if d > 0 then d - 1 else 0, if d + 2 <= |s| then d + 2 else |s|;
    CountSplits(s, mark, 0, lo, |s|);
    CountSplits(s, mark, lo, hi, |s|);
    CountSplits(s, mark, lo, d, hi);
  }

  lemma AroundGap(t: string, mark: char, d: nat)
    requires d <= |t|
    ensures var lo, hi := if d > 0 then d - 1 else 0, if d + 1 <= |t| then d + 1 else |t|;
            Count(t, mark, 0, |t|) == Count(t, mark, 0, lo) + One(d > 0 && Marks(t, mark, d - 1)) + One(Marks(t, mark, d))
                                      + Count(t, mark, hi, |t|)
  {
    var lo, hi := if d > 0 then d - 1 else 0, if d + 1 <= |t| then d + 1 else |t|;
    CountSplits(t, mark, 0, lo, |t|);
    CountSplits(t, mark, lo, hi, |t|);
    CountSplits(t, mark, lo, d, hi);
  }

  /** Dropping position d changes the count by d itself and by its two neighbours. */
  lemma DropIsLocal(s: string, mark: char, d: nat)
    requires d < |s|
    ensures var t := Without(s, d);
            Count(s, mark, 0, |s|) + One(d > 0 && Marks(t, mark, d - 1)) + One(Marks(t, mark, d)) ==
            Count(t, mark, 0, |t|) + One(d > 0 && Marks(s, mark, d - 1)) + One(Marks(s, mark, d)) + One(Marks(s, mark, d + 1))
  {
    hide Marks;
    Around(s, mark, d);
    AroundGap(Without(s, d), mark, d);
    CountBefore(s, mark, d, if d > 0 then d - 1 else 0);
    if d + 2 <= |s| { CountBeyond(s, mark, d, |s|); }
  }

  // ------------------------------------------------------- when a mark balances

  /** Dropping the last marker at d leaves an odd number: read off d's neighbours. */
  predicate LeavesOdd(s: string, mark: char, d: nat)
    requires d < |s|
  {
    var before := d > 1; // a character precedes the left neighbour
    var spaceBefore := !before || IsSpace(s[d - 2]);
    var wordBefore := before && IsWord(s[d - 2]);
    var hasRight := d + 1 < |s|;
    if mark == '*' then
      && d > 0 && s[d - 1] == '*' && hasRight
      && ((spaceBefore && IsSpace(s[d + 1])) || (wordBefore && IsWord(s[d + 1])))
    else
      || (hasRight && s[d + 1] == '_')
      || (d > 0 && s[d - 1] == '_' && (wordBefore || (hasRight && spaceBefore && IsSpace(s[d + 1]))))
  }

  predicate IsMark(c: char) {
    c == '*' || c == '_'
  }

  lemma LastIsLast(s: string, mark: char)
    requires Indices(s, mark, |s|) != []
    ensures var d := Last(Indices(s, mark, |s|)); Marks(s, mark, d) && forall i: nat :: i > d ==> !Marks(s, mark, i)
  {
    IndicesMean(s, mark, |s|);
    var idx := Indices(s, mark, |s|);
    assert Last(idx) in idx;
    forall i: nat | Marks(s, mark, i) ensures i <= Last(idx) { assert i in idx; }
  }

  lemma NeighboursDecide(s: string, mark: char, d: nat)
    requires IsMark(mark) && |s| > 1 && Marks(s, mark, d) && !Marks(s, mark, d + 1)
    ensures var t := Without(s, d);
            (One(d > 0 && Marks(t, mark, d - 1)) + One(Marks(t, mark, d)) + One(d > 0 && Marks(s, mark, d - 1))) % 2
            == One(LeavesOdd(s, mark, d))
  {
  }

  function Evenness(s: string, mark: char): bool {
    Count(s, mark, 0, |s|) % 2 == 0
  }

  /** The mark went in even, or there is a character besides the dropped marker, whose
      neighbours do not leave it odd. */
  predicate PairsUp(s: string, mark: char) {
    var idx := Indices(s, mark, |s|);
    Evenness(s, mark) || (|s| > 1 && |idx| > 0 && !LeavesOdd(s, mark, Last(idx)))
  }

  /** One mark comes out even exactly when it went in even, or the text is longer than one
      character and the dropped marker's neighbours do not leave it odd. */
  lemma {:induction false} EvenExactlyWhen(s: string, mark: char)
    requires IsMark(mark)
    ensures Evenness(Balance1(s, mark), mark) <==> PairsUp(s, mark)
  {
    hide Marks, LeavesOdd, Indices;
    CountIsLength(s, mark, |s|);
    var idx := Indices(s, mark, |s|);
    if |s| > 1 && |idx| % 2 == 1 {
      LastIsLast(s, mark);
      DropIsLocal(s, mark, Last(idx));
      NeighboursDecide(s, mark, Last(idx));
    }
  }

  /** In particular whenever the dropped marker has no neighbour of its own kind. */
  lemma LonelyMarkBalances(s: string, mark: char)
    requires IsMark(mark) && |s| > 1
    requires Indices(s, mark, |s|) != [] ==>
               var d := Last(Indices(s, mark, |s|)); (d == 0 || s[d - 1] != mark) && (d + 1 >= |s| || s[d + 1] != mark)
    ensures Evenness(Balance1(s, mark), mark)
  {
    EvenExactlyWhen(s, mark);
    CountIsLength(s, mark, |s|);
  }

  const TOUCHING := "*c a**b"
  const LEFT_ODD := "*c a*b"

  lemma TouchingMarks(i: nat)
    requires i < 7
    ensures Marks(TOUCHING, '*', i) <==> i == 0 || i == 4 || i == 5
  {
  }

  lemma TouchingStars()
    ensures Indices(TOUCHING, '*', 7) == [0, 4, 5]
  {
    hide Marks;
    forall i: nat | i < 7 ensures Marks(TOUCHING, '*', i) <==> i == 0 || i == 4 || i == 5 { TouchingMarks(i); }
    assert Indices(TOUCHING, '*', 1) == [0];
    assert Indices(TOUCHING, '*', 3) == [0];
    assert Indices(TOUCHING, '*', 5) == [0, 4];
  }

  lemma LeftOddStar()
    ensures Indices(LEFT_ODD, '*', 6) == [0]
  {
    assert Indices(LEFT_ODD, '*', 2) == [0];
    assert Indices(LEFT_ODD, '*', 4) == [0];
  }

  /** A mark does not always pair: dropping the last of three stars here leaves the one
      beside it inside a word, where it no longer formats. */
  lemma TouchingStarsStayOdd()
    ensures Balance1(TOUCHING, '*') == LEFT_ODD && !Evenness(TOUCHING, '*') && !Evenness(LEFT_ODD, '*')
  {
    hide Marks, Indices;
    TouchingStars();
    LeftOddStar();
    assert Without(TOUCHING, 5) == LEFT_ODD;
    CountIsLength(TOUCHING, '*', 7);
    CountIsLength(LEFT_ODD, '*', 6);
  }

  /** Balancing again changes nothing exactly when the mark came out even, or nothing is
      left to pair it with. */
  lemma SettledExactlyWhen(s: string, mark: char)
    ensures var t := Balance1(s, mark);
            Balance1(t, mark) == t <==> Evenness(t, mark) || |t| <= 1
  {
    var t := Balance1(s, mark);
    CountIsLength(t, mark, |t|);
    if |t| > 1 && !Evenness(t, mark) {
      var d := Last(Indices(t, mark, |t|));
      assert Balance1(t, mark) == Without(t, d);
      assert |Without(t, d)| == |t| - 1;
    }
  }

  /** Dropping the `_` at d changes the standing of the star on its left: one inside a word
      but for the `_` begins to format, one the `_` alone made format stops. */
  predicate LeftFlips(s: string, d: nat)
    requires d < |s|
  {
    var hasRight := d + 1 < |s|;
    && d > 0 && s[d - 1] == '*'
    && if d > 1 && IsWord(s[d - 2]) then !(hasRight && IsWord(s[d + 1]))
       else (d == 1 || IsSpace(s[d - 2])) && hasRight && IsSpace(s[d + 1])
  }

  /** And that of the star on its right. */
  predicate RightFlips(s: string, d: nat)
    requires d < |s|
  {
    && d + 2 < |s| && s[d + 1] == '*'
    && if IsWord(s[d + 2]) then !(d > 0 && IsWord(s[d - 1]))
       else (d == 0 || IsSpace(s[d - 1])) && IsSpace(s[d + 2])
  }

  /** No `_` is dropped, or the one that is flips both neighbouring stars or neither. */
  predicate StarsKept(s: string) {
    var idx := Indices(s, '_', |s|);
    |s| <= 1 || |idx| % 2 == 0 || (LeftFlips(s, Last(idx)) <==> RightFlips(s, Last(idx)))
  }

  lemma LeftStar(s: string, d: nat)
    requires d < |s| && s[d] == '_'
    ensures d > 0 && Marks(s, '*', d - 1) != Marks(Without(s, d), '*', d - 1) <==> LeftFlips(s, d)
  {
  }

  lemma RightStar(s: string, d: nat)
    requires d < |s| && s[d] == '_'
    ensures Marks(s, '*', d + 1) != Marks(Without(s, d), '*', d) <==> RightFlips(s, d)
  {
  }

  /** Balancing the `_` keeps the parity of the stars exactly then. */
  lemma StarParityExactlyWhen(s: string)
    ensures (Evenness(Balance1(s, '_'), '*') <==> Evenness(s, '*')) <==> StarsKept(s)
  {
    var idx := Indices(s, '_', |s|);
    if |s| > 1 && |idx| % 2 == 1 {
      var d := Last(idx);
      assert !Marks(s, '*', d);
      LeftStar(s, d);
      RightStar(s, d);
      hide Marks;
      DropIsLocal(s, '*', d);
    }
  }

  /** So, for the whole text: its stars come out even exactly when they pair up and the `_`
      pass keeps them, or neither; its `_` exactly when they pair up after the star pass. */
  lemma BothEvenExactlyWhen(s: string)
    ensures Evenness(Balance(s), '*') <==> (PairsUp(s, '*') <==> StarsKept(Balance1(s, '*')))
    ensures Evenness(Balance(s), '_') <==> PairsUp(Balance1(s, '*'), '_')
  {
    hide Evenness, PairsUp, StarsKept, Balance1;
    EvenExactlyWhen(s, '*');
    StarParityExactlyWhen(Balance1(s, '*'));
    EvenExactlyWhen(Balance1(s, '*'), '_');
  }

  const PAIRED := "*_ *"
  const PARTED := "* *"

  lemma PairedStars()
    ensures Indices(PAIRED, '*', 4) == [0, 3]
  {
    assert Indices(PAIRED, '*', 1) == [0];
    assert Indices(PAIRED, '*', 3) == [0];
  }

  lemma LoneUnderscore()
    ensures Indices(PAIRED, '_', 4) == [1]
  {
    assert Indices(PAIRED, '_', 2) == [1];
    assert Indices(PAIRED, '_', 3) == [1];
  }

  lemma LoneStar()
    ensures Indices(PARTED, '*', 3) == [2]
  {
    assert Indices(PARTED, '*', 2) == [];
  }

  /** So the two marks do not balance independently: here the `_` that is dropped was what
      made the star beside it a formatting marker. */
  lemma UnderscoreCanUnbalanceStars()
    ensures Balance1(PAIRED, '*') == PAIRED && Balance(PAIRED) == PARTED && !Evenness(PARTED, '*')
  {
    hide Marks, Indices;
    PairedStars();
    LoneUnderscore();
    LoneStar();
    assert Without(PAIRED, 1) == PARTED;
    CountIsLength(PARTED, '*', 3);
  }

  // ------------------------------------------------------------------ segments

  const TICK := '`'

  predicate FenceAt(s: string, j: nat, fence: nat) {
    j + fence <= |s| && forall k :: j <= k < j + fence ==> s[k] == TICK
  }

  /** The first closing fence at or after `from`; |s| when there is none. */
  function Closer(s: string, from: nat, fence: nat): (end: nat)
    requires fence > 0 && from <= |s|
    ensures from <= end <= |s| && (end < |s| ==> FenceAt(s, end, fence))
    ensures forall j :: from <= j < end ==> !FenceAt(s, j, fence)
    decreases |s| - from
  {
    if from == |s| then |s| else if FenceAt(s, from, fence) then from else Closer(s, from + 1, fence)
  }

  /** How many backticks would open a span at i; 0 for none, as for two in a row. */
  function Opening(s: string, i: nat): (fence: nat)
    requires i < |s|
    ensures fence > 0 ==> FenceAt(s, i, fence)
  {
    if s[i] != TICK then 0
    else if i + 2 < |s| && s[i + 1] == TICK && s[i + 2] == TICK then 3
    else if i + 1 < |s| && s[i + 1] == TICK then 0
    else 1
  }

  /** Where the span opening at i ends; 0 when none opens there or none closes. */
  function SpanEnd(s: string, i: nat): (end: nat)
    requires i < |s|
    ensures end == 0 || i < end <= |s|
  {
    var fence := Opening(s, i);
    if fence == 0 then 0
    else
      var end := Closer(s, i + fence, fence);
      if end < |s| then end + fence else 0
  }

  function Flushed(cur: string): seq<Seg> {
    if cur == "" then [] else [Seg(cur, false)]
  }

  /** The segments still to come at i with `cur` pending. */
  function Segments(s: string, i: nat, cur: string): seq<Seg>
    requires i <= |s|
    decreases |s| - i
  {
    if i == |s| then Flushed(cur)
    else
      var end := SpanEnd(s, i);
      if end == 0 then Segments(s, i + 1, cur + [s[i]])
      else Flushed(cur) + [Seg(s[i..end], true)] + Segments(s, end, "")
  }

  function Cleaned(seg: Seg): string {
    if seg.code then seg.text else Balance(seg.text)
  }

  function Join(ps: seq<string>): string {
    if ps == [] then "" else ps[0] + Join(ps[1..])
  }

  function Texts(segs: seq<Seg>): seq<string> {
    seq(|segs|, k requires 0 <= k < |segs| => segs[k].text)
  }

  function Pieces(segs: seq<Seg>): seq<string> {
    seq(|segs|, k requires 0 <= k < |segs| => Cleaned(segs[k]))
  }

  function Sanitized(s: string): string {
    Join(Pieces(Segments(s, 0, "")))
  }

  lemma {:induction false} JoinSnoc(ps: seq<string>, p: string)
    ensures Join(ps + [p]) == Join(ps) + p
  {
    if ps == [] {
      assert ps + [p] == [p];
      assert Join([p][1..]) == "";
    } else {
      JoinSnoc(ps[1..], p);
      assert (ps + [p])[1..] == ps[1..] + [p];
    }
  }

  /** Nothing is lost or repeated in splitting. */
  lemma {:induction false} SegmentsConcatenate(s: string, i: nat, cur: string)
    requires i <= |s|
    ensures Join(Texts(Segments(s, i, cur))) == cur + s[i..]
    decreases |s| - i
  {
    hide SpanEnd;
    if i < |s| {
      var end := SpanEnd(s, i);
      if end == 0 {
        SegmentsConcatenate(s, i + 1, cur + [s[i]]);
        assert cur + s[i..] == cur + [s[i]] + s[i + 1..];
      } else {
        SegmentsConcatenate(s, end, "");
        JoinSpan(cur, Seg(s[i..end], true), Segments(s, end, ""));
        assert cur + s[i..] == cur + (s[i..end] + ("" + s[end..]));
      }
    } else {
      assert cur + s[i..] == cur;
      if cur != "" { assert Texts(Flushed(cur))[1..] == []; }
    }
  }

  lemma JoinSpan(cur: string, span: Seg, rest: seq<Seg>)
    ensures Join(Texts(Flushed(cur) + [span] + rest)) == cur + (span.text + Join(Texts(rest)))
  {
    var tail := [span] + rest;
    assert Texts(tail)[1..] == Texts(rest);
    assert Flushed(cur) + [span] + rest == Flushed(cur) + tail;
    if cur != "" {
      assert Texts(Flushed(cur) + tail)[1..] == Texts(tail);
    } else {
      assert Flushed(cur) + tail == tail;
    }
  }

  /** A span of one fence: the fence, a body without it, the fence. */
  predicate IsSpan(t: string, fence: nat) {
    && |t| >= 2 * fence && FenceAt(t, 0, fence) && FenceAt(t, |t| - fence, fence)
    && forall j: nat :: fence <= j < |t| - fence ==> !FenceAt(t, j, fence)
  }

  predicate WellCut(seg: Seg) {
    seg.text != "" && (seg.code ==> IsSpan(seg.text, 1) || IsSpan(seg.text, 3))
  }

  lemma FenceShifts(s: string, i: nat, end: nat, j: nat, fence: nat)
    requires i <= end <= |s| && i + j + fence <= end
    ensures FenceAt(s[i..end], j, fence) <==> FenceAt(s, i + j, fence)
  {
    var t := s[i..end];
    assert forall k :: i + j <= k < i + j + fence ==> s[k] == t[k - i];
    assert forall k :: j <= k < j + fence ==> t[k] == s[k + i];
  }

  lemma ClosedSpan(s: string, i: nat)
    requires i < |s| && SpanEnd(s, i) != 0
    ensures IsSpan(s[i..SpanEnd(s, i)], 1) || IsSpan(s[i..SpanEnd(s, i)], 3)
  {
    var fence := Opening(s, i);
    var end := Closer(s, i + fence, fence);
    var t := s[i..end + fence];
    forall j: nat | fence <= j < |t| - fence ensures !FenceAt(t, j, fence) {
      FenceShifts(s, i, end + fence, j, fence);
    }
    assert IsSpan(t, fence);
  }

  /** Every segment is non-empty, and every code segment is one closed span. */
  lemma {:induction false} SegmentsAreWellCut(s: string, i: nat, cur: string)
    requires i <= |s|
    ensures forall k :: 0 <= k < |Segments(s, i, cur)| ==> WellCut(Segments(s, i, cur)[k])
    decreases |s| - i
  {
    hide IsSpan, SpanEnd;
    if i < |s| {
      var end := SpanEnd(s, i);
      if end == 0 {
        SegmentsAreWellCut(s, i + 1, cur + [s[i]]);
      } else {
        ClosedSpan(s, i);
        SegmentsAreWellCut(s, end, "");
      }
    }
  }

  /** From `at` on the segments lie end to end over s: a code segment is the span that
      opens where it starts, and in a text segment no span opens anywhere. */
  ghost predicate Covers(s: string, segs: seq<Seg>, at: nat)
    decreases |segs|
  {
    if segs == [] then at == |s|
    else
      var end := at + |segs[0].text|;
      && end <= |s| && segs[0].text == s[at..end]
      && (if segs[0].code then at < end && SpanEnd(s, at) == end else forall p :: at <= p < end ==> SpanEnd(s, p) == 0)
      && Covers(s, segs[1..], end)
  }

  lemma CoversFlushed(s: string, cur: string, i: nat, rest: seq<Seg>)
    requires |cur| <= i <= |s| && cur == s[i - |cur|..i] && Covers(s, rest, i)
    requires forall p :: i - |cur| <= p < i ==> SpanEnd(s, p) == 0
    ensures Covers(s, Flushed(cur) + rest, i - |cur|)
  {
    hide SpanEnd;
    var segs := Flushed(cur) + rest;
    if cur == "" {
      assert segs == rest;
    } else {
      assert segs[1..] == rest;
    }
  }

  /** Every complete code span is found where it first opens, and nothing else is one. */
  lemma {:induction false} SegmentsCover(s: string, i: nat, cur: string)
    requires |cur| <= i <= |s| && cur == s[i - |cur|..i]
    requires forall p :: i - |cur| <= p < i ==> SpanEnd(s, p) == 0
    ensures Covers(s, Segments(s, i, cur), i - |cur|)
    decreases |s| - i
  {
    hide SpanEnd;
    if i == |s| {
      CoversFlushed(s, cur, i, []);
      assert Flushed(cur) + [] == Flushed(cur);
    } else {
      var end := SpanEnd(s, i);
      if end == 0 {
        SegmentsCover(s, i + 1, cur + [s[i]]);
      } else {
        SegmentsCover(s, end, "");
        var rest := [Seg(s[i..end], true)] + Segments(s, end, "");
        assert rest[1..] == Segments(s, end, "");
        CoversFlushed(s, cur, i, rest);
        assert Flushed(cur) + rest == Flushed(cur) + [Seg(s[i..end], true)] + Segments(s, end, "");
      }
    }
  }

  /** A span opens with three backticks or with one that another does not follow, and ends
      with the first equal fence after that; without one there is no span. */
  lemma SpanEndMeans(s: string, i: nat)
    requires i < |s|
    ensures var fence := if FenceAt(s, i, 3) then 3 else if FenceAt(s, i, 1) && !FenceAt(s, i, 2) then 1 else 0;
            var end := SpanEnd(s, i);
            && (end == 0 <==> fence == 0 || forall j :: i + fence <= j < |s| ==> !FenceAt(s, j, fence))
            && (end != 0 ==>
                  && i + 2 * fence <= end && FenceAt(s, end - fence, fence)
                  && forall j :: i + fence <= j < end - fence ==> !FenceAt(s, j, fence))
  {
    if FenceAt(s, i, 2) { assert s[i] == TICK && s[i + 1] == TICK; }
    if FenceAt(s, i, 3) { assert s[i] == TICK && s[i + 1] == TICK && s[i + 2] == TICK; }
  }

  /** One backtick or three around a letter make a span, two do not. */
  lemma FencesOneAndThree()
    ensures SpanEnd("`a`", 0) == 3 && SpanEnd("```a```", 0) == 7 && SpanEnd("``a``", 0) == 0
  {
    assert "`a`"[1] == 'a' && "```a```"[3] == 'a';
    assert FenceAt("`a`", 2, 1) && Closer("`a`", 1, 1) == 2;
    assert FenceAt("```a```", 4, 3) && Closer("```a```", 3, 3) == 4;
  }

  /** t is s less at most one `mark`. */
  predicate LosesAtMostOne(s: string, t: string, mark: char) {
    t == s || exists d: nat :: d < |s| && s[d] == mark && t == Without(s, d)
  }

  /** With an odd number of formatting markers, and more than one character, the last of
      them goes; otherwise nothing does. */
  lemma DropsTheLeftover(s: string, mark: char, d: nat)
    requires d < |s|
    ensures |s| > 1 && !Evenness(s, mark) && Marks(s, mark, d) && (forall i: nat :: i > d ==> !Marks(s, mark, i))
            ==> Balance1(s, mark) == Without(s, d)
    ensures |s| <= 1 || Evenness(s, mark) ==> Balance1(s, mark) == s
  {
    hide Marks;
    CountIsLength(s, mark, |s|);
    if |s| > 1 && !Evenness(s, mark) { LastIsLast(s, mark); }
  }

  lemma LosesItsLastMarker(s: string, mark: char)
    ensures LosesAtMostOne(s, Balance1(s, mark), mark)
    ensures s != "" ==> Balance1(s, mark) != ""
  {
    var idx := Indices(s, mark, |s|);
    if |s| > 1 && |idx| % 2 == 1 {
      assert s[Last(idx)] == mark;
    }
  }

  /** t is s less at most one `*` and then at most one `_`. */
  ghost predicate LosesLittle(s: string, t: string) {
    exists u :: LosesAtMostOne(s, u, '*') && LosesAtMostOne(u, t, '_')
  }

  /** Plain text loses at most one `*` and then at most one `_`, and never all it has. */
  lemma PlainTextLosesLittle(s: string)
    ensures LosesLittle(s, Balance(s))
    ensures s != "" ==> Balance(s) != ""
  {
    LosesItsLastMarker(s, '*');
    LosesItsLastMarker(Balance1(s, '*'), '_');
  }

  /** The whole promise: the input is cut into segments that concatenate to it, the output
      is one piece a segment, code spans are their own pieces verbatim, and every other
      piece is its segment less at most one `*` and one `_`, never empty. */
  lemma SanitizeTouchesOnlyLoneMarks(s: string)
    ensures var segs := Segments(s, 0, ""); var ps := Pieces(segs);
            && Covers(s, segs, 0) && Join(Texts(segs)) == s && Sanitized(s) == Join(ps)
            && (forall k :: 0 <= k < |segs| ==> WellCut(segs[k]))
            && (forall k :: 0 <= k < |segs| && segs[k].code ==> ps[k] == segs[k].text)
            && (forall k :: 0 <= k < |segs| && !segs[k].code ==>
                  LosesLittle(segs[k].text, ps[k]) && ps[k] != "")
  {
    hide WellCut, LosesLittle, Balance1, Segments, SpanEnd, Covers;
    SegmentsCover(s, 0, "");
    SegmentsConcatenate(s, 0, "");
    SegmentsAreWellCut(s, 0, "");
    var segs := Segments(s, 0, "");
    assert "" + s[0..] == s;
    forall k | 0 <= k < |segs| ensures segs[k].text != "" { NotEmpty(segs[k]); }
    forall k | 0 <= k < |segs| && !segs[k].code
      ensures LosesLittle(segs[k].text, Balance(segs[k].text)) && Balance(segs[k].text) != ""
    {
      PlainTextLosesLittle(segs[k].text);
    }
  }

  lemma NotEmpty(seg: Seg)
    ensures WellCut(seg) ==> seg.text != ""
  {
  }

  /** A message that has something to say is never sanitized into an empty send. */
  lemma NeverEmptied(s: string)
    requires s != ""
    ensures Sanitized(s) != ""
  {
    hide WellCut, LosesLittle, Balance1, Balance;
    SanitizeTouchesOnlyLoneMarks(s);
    var segs := Segments(s, 0, "");
    assert segs != [];
    NotEmpty(segs[0]);
    assert Pieces(segs)[0] != "";
  }

  // ------------------------------------------------------------------ the loops

  method BalanceRune(s: string, mark: char) returns (t: string)
    ensures t == Balance1(s, mark)
  {
    if |s| <= 1 { return s; }
    var idx: seq<nat> := [];
    for i := 0 to |s|
      invariant idx == Indices(s, mark, i)
    {
      if s[i] != mark { continue; }
      if IsListBullet(s, i) || !IsFormatMarker(s, i) { continue; }
      idx := idx + [i];
    }
    if |idx| % 2 == 0 { return s; }
    var drop := idx[|idx| - 1];
    t := s[..drop] + s[drop + 1..];
  }

  method BalanceMarkers(s: string) returns (t: string)
    ensures t == Balance(s)
  {
    t := s;
    t := BalanceRune(t, '*');
    t := BalanceRune(t, '_');
  }

  method FindCloser(s: string, from: nat, fence: nat) returns (end: int)
    requires fence > 0 && from <= |s|
    ensures end == (if Closer(s, from, fence) < |s| then Closer(s, from, fence) else -1)
  {
    var j := from;
    while j + fence <= |s|
      invariant from <= j <= |s| && Closer(s, j, fence) == Closer(s, from, fence)
    {
      var match_ := true;
      var k := 0;
      while k < fence
        invariant k <= fence && (match_ ==> forall m :: j <= m < j + k ==> s[m] == TICK)
        invariant !match_ ==> !FenceAt(s, j, fence)
      {
        if s[j + k] != TICK { match_ := false; break; }
        k := k + 1;
      }
      if match_ { return j; }
      j := j + 1;
    }
    NoRoom(s, j, fence);
    end := -1;
  }

  lemma {:induction false} NoRoom(s: string, j: nat, fence: nat)
    requires fence > 0 && j <= |s| < j + fence
    ensures Closer(s, j, fence) == |s|
    decreases |s| - j
  {
    if j < |s| { NoRoom(s, j + 1, fence); }
  }

  /** The end of the span opening at i, -1 for literal text. */
  method Span(s: string, i: nat) returns (end: int)
    requires i < |s| && s[i] == TICK
    ensures end == (if SpanEnd(s, i) == 0 then -1 else SpanEnd(s, i))
  {
    var fence := 1;
    if i + 2 < |s| && s[i + 1] == TICK && s[i + 2] == TICK {
      fence := 3;
    } else if i + 1 < |s| && s[i + 1] == TICK {
      return -1;
    }
    end := FindCloser(s, i + fence, fence);
    if end >= 0 { end := end + fence; }
  }

  method Cut(s: string) returns (segs: seq<Seg>)
    ensures segs == Segments(s, 0, "")
  {
    hide SpanEnd;
    segs := [];
    var cur := "";
    var i := 0;
    while i < |s|
      invariant i <= |s|
      invariant segs + Segments(s, i, cur) == Segments(s, 0, "")
    {
      if s[i] == TICK {
        var end := Span(s, i);
        if end >= 0 {
          SpanCut(segs, cur, Seg(s[i..end], true), Segments(s, end, ""));
          if cur != "" { segs := segs + [Seg(cur, false)]; }
          segs := segs + [Seg(s[i..end], true)];
          cur := "";
          i := end;
          continue;
        }
      } else {
        NoSpan(s, i);
      }
      cur := cur + [s[i]];
      i := i + 1;
    }
    if cur != "" { segs := segs + [Seg(cur, false)]; }
  }

  lemma NoSpan(s: string, i: nat)
    requires i < |s| && s[i] != TICK
    ensures SpanEnd(s, i) == 0
  {
  }

  lemma SpanCut(segs: seq<Seg>, cur: string, span: Seg, rest: seq<Seg>)
    ensures segs + (Flushed(cur) + [span] + rest) == (if cur != "" then segs + [Seg(cur, false)] else segs) + [span] + rest
  {
  }

  lemma NextPiece(segs: seq<Seg>, i: nat)
    requires i < |segs|
    ensures Join(Pieces(segs)[..i + 1]) == Join(Pieces(segs)[..i]) + Cleaned(segs[i])
  {
    hide Cleaned;
    assert Pieces(segs)[..i + 1] == Pieces(segs)[..i] + [Cleaned(segs[i])];
    JoinSnoc(Pieces(segs)[..i], Cleaned(segs[i]));
  }

  method WriteOut(segs: seq<Seg>) returns (out: string)
    ensures out == Join(Pieces(segs))
  {
    hide Balance, Join;
    out := "";
    assert out == Join(Pieces(segs)[..0]) by { JoinNone(); }
    for i := 0 to |segs|
      invariant out == Join(Pieces(segs)[..i])
    {
      NextPiece(segs, i);
      var piece := segs[i].text;
      if !segs[i].code { piece := BalanceMarkers(segs[i].text); }
      out := out + piece;
    }
    assert Pieces(segs)[..|segs|] == Pieces(segs);
  }

  lemma JoinNone()
    ensures Join([]) == ""
  {
  }

  method SanitizeWhatsAppRichText(s: string) returns (out: string)
    ensures out == Sanitized(s)
  {
    hide Join, Pieces, Segments;
    var segs := Cut(s);
    out := WriteOut(segs);
  }
}
