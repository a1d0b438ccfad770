/** Outcomes of the three-colour game and the queries every strategy variant
    makes over the tail of a history: windows, colour counts, the non-white
    subsequence, colour changes, alternation and the current streak. */
module Hist {

  datatype Option<T> = None | Some(value: T)

  /** One drawn outcome. */
  datatype Color = Red | Black | White

  /** What a heuristic proposes: a colour to bet on, 'skip', or the
      'continue' answer of the anti-pattern filter of backend/backtest.py. */
  datatype Pick = Bet(color: Color) | Skip | Continue

  /** A heuristic's opinion: the proposed pick and its confidence (0..100). */
  datatype Signal = Signal(pick: Pick, conf: real)

  /** True of the two picks a strategy may bet on: 'red' and 'black'. */
  predicate IsColourBet(p: Pick) {
    p == Bet(Red) || p == Bet(Black)
  }

  /** Python's min(a, b) on two numbers. */
  function Min(a: real, b: real): (r: real)
    ensures r <= a && r <= b
    ensures r == a || r == b
  {
    if b < a then b else a
  }

  function Abs(x: real): (r: real)
    ensures r >= 0.0 && (r == x || r == -x)
  {
    if x < 0.0 then -x else x
  }

  function AbsInt(x: int): (r: nat)
    ensures r == x || r == -x
  {
    if x < 0 then -x else x
  }

  /** 'black' if c == 'red' else 'red': the opposite that most reversal
      strategies propose (white maps to red). */
  function OppositeOf(c: Color): (r: Color)
    ensures r != White && (c != White ==> r != c)
    ensures c == White ==> r == Red
  {
    if c == Red then Black else Red
  }

  /** 'red' if c == 'black' else 'black': the continuation that the block
      pattern detectors propose (white maps to black). */
  function NextAfter(c: Color): (r: Color)
    ensures r != White && (c != White ==> r != c)
    ensures c == White ==> r == Black
  {
    if c == Black then Red else Black
  }

  lemma OppositeAgreesOffWhite(c: Color)
    requires c != White
    ensures OppositeOf(c) == NextAfter(c)
  {
  }

  /** Python's xs[-n:] for n > 0: the last n elements, or the whole list when
      it is shorter than n. */
  function Last(h: seq<Color>, n: nat): (r: seq<Color>)
    ensures |r| == if n <= |h| then n else |h|
  {
    if n <= |h| then h[|h| - n..] else h
  }

  /** list.count(c). */
  function Count(s: seq<Color>, c: Color): (r: nat)
    ensures r <= |s|
  {
    if s == [] then 0 else Count(s[..|s| - 1], c) + (if s[|s| - 1] == c then 1 else 0)
  }

  lemma {:induction false} CountTotal(s: seq<Color>)
    ensures Count(s, Red) + Count(s, Black) + Count(s, White) == |s|
  {
    if s != [] {
      CountTotal(s[..|s| - 1]);
    }
  }

  lemma CountBound(s: seq<Color>, c: Color)
    ensures Count(s, c) <= |s|
  {
  }

  lemma {:induction false} CountNone(s: seq<Color>, c: Color)
    requires forall k :: 0 <= k < |s| ==> s[k] != c
    ensures Count(s, c) == 0
  {
    if s != [] {
      CountNone(s[..|s| - 1], c);
    }
  }

  /** Counting distributes over concatenation. */
  lemma {:induction false} CountAppend(a: seq<Color>, b: seq<Color>, c: Color)
    ensures Count(a + b, c) == Count(a, c) + Count(b, c)
  {
    if b != [] {
      assert (a + b)[..|a + b| - 1] == a + b[..|b| - 1];
      CountAppend(a, b[..|b| - 1], c);
    } else {
      assert a + b == a;
    }
  }

  /** [x for x in s if x != 'white'], kept in order. */
  function NonWhite(s: seq<Color>): (r: seq<Color>)
    ensures forall k :: 0 <= k < |r| ==> r[k] != White
    ensures Count(r, Red) == Count(s, Red) && Count(r, Black) == Count(s, Black)
    ensures |r| == Count(s, Red) + Count(s, Black)
  {
    if s == [] then []
    else
      var init, x := s[..|s| - 1], s[|s| - 1];
      assert s == init + [x];
      if x == White then NonWhite(init)
      else
        var r := NonWhite(init) + [x];
        assert r[..|r| - 1] == NonWhite(init) && r[|r| - 1] == x;
        r
  }

  lemma {:induction false} NonWhiteAppend(a: seq<Color>, b: seq<Color>)
    ensures NonWhite(a + b) == NonWhite(a) + NonWhite(b)
  {
    if b != [] {
      var b', x := b[..|b| - 1], b[|b| - 1];
      var tail := if x == White then [] else [x];
      assert (a + b)[..|a + b| - 1] == a + b' && (a + b)[|a + b| - 1] == x;
      NonWhiteSnoc(a + b);
      NonWhiteSnoc(b);
      NonWhiteAppend(a, b');
      AppendAssoc(NonWhite(a), NonWhite(b'), tail);
    } else {
      assert a + b == a;
    }
  }

  lemma AppendAssoc(a: seq<Color>, b: seq<Color>, c: seq<Color>)
    ensures (a + b) + c == a + (b + c)
  {
  }

  /** One more outcome adds itself to the non-white subsequence unless it is
      white. */
  lemma NonWhiteSnoc(s: seq<Color>)
    requires s != []
    ensures NonWhite(s) == NonWhite(s[..|s| - 1]) + (if s[|s| - 1] == White then [] else [s[|s| - 1]])
  {
  }

  /** Red share of a list: list.count('red') / len(list), or 0.5 when the
      list is empty (the calc_red_ratio / get_ratio helpers). */
  function RedRatio(s: seq<Color>): (r: real)
    ensures 0.0 <= r <= 1.0
    ensures |s| == 0 ==> r == 0.5
  {
    if |s| == 0 then 0.5
    else
      CountBound(s, Red);
      FractionBounds(Count(s, Red), |s|);
      Count(s, Red) as real / |s| as real
  }

  /** get_ratio(n) of the ultra and final trend strategies: the red share of
      the non-white outcomes among the last n, 0.5 when there are none. */
  function Ratio(h: seq<Color>, n: nat): (r: real)
    ensures 0.0 <= r <= 1.0
    ensures |NonWhite(Last(h, n))| == 0 ==> r == 0.5
  {
    RedRatio(NonWhite(Last(h, n)))
  }

  lemma FractionBounds(a: nat, b: nat)
    requires 0 < b && a <= b
    ensures 0.0 <= a as real / b as real <= 1.0
  {
  }

  /** sum(1 for i in range(len(s)-1) if s[i] != s[i+1]). */
  function Changes(s: seq<Color>): (r: nat)
    ensures r <= if |s| == 0 then 0 else |s| - 1
  {
    if |s| < 2 then 0
    else Changes(s[..|s| - 1]) + (if s[|s| - 2] != s[|s| - 1] then 1 else 0)
  }

  /** all(s[i] != s[i+1] for i in range(len(s)-1)). */
  predicate Alternates(s: seq<Color>) {
    forall i :: 0 <= i < |s| - 1 ==> s[i] != s[i + 1]
  }

  /** Number of trailing elements of s equal to c. */
  function RunOf(s: seq<Color>, c: Color): (r: nat)
    ensures r <= |s|
    ensures forall k :: |s| - r <= k < |s| ==> s[k] == c
    ensures r < |s| ==> s[|s| - 1 - r] != c
  {
    if s == [] || s[|s| - 1] != c then 0 else 1 + RunOf(s[..|s| - 1], c)
  }

  /** The streak of the server's analyze_with_reversao: how many trailing
      outcomes equal the last one, white included. */
  function Streak(s: seq<Color>): (r: nat)
    requires |s| > 0
    ensures 1 <= r <= |s|
  {
    RunOf(s, s[|s| - 1])
  }

  /** The streak of the loops that stop at white (`c == last_color and
      c != 'white'`): 1 when the last outcome is white. */
  function ColourStreak(s: seq<Color>): (r: nat)
    requires |s| > 0
    ensures 1 <= r <= |s|
    ensures s[|s| - 1] == White ==> r == 1
    ensures s[|s| - 1] != White ==> forall k :: |s| - r <= k < |s| ==> s[k] == s[|s| - 1]
  {
    if s[|s| - 1] == White then 1 else RunOf(s, s[|s| - 1])
  }

  /** The streak over the non-white subsequence, 1 when it is empty. */
  function NonWhiteStreak(s: seq<Color>): (r: nat)
    ensures r >= 1
    ensures NonWhite(s) != [] ==> r <= |NonWhite(s)|
  {
    var nw := NonWhite(s);
    if nw == [] then 1 else RunOf(nw, nw[|nw| - 1])
  }

  /** The step that closes every streak loop: once s[i..] all equal c and the
      element before them (if any) does not, the run is exactly |s| - i. */
  lemma {:induction false} RunOfExact(s: seq<Color>, c: Color, i: nat)
    requires i <= |s|
    requires forall k :: i <= k < |s| ==> s[k] == c
    requires i == 0 || s[i - 1] != c
    ensures RunOf(s, c) == |s| - i
  {
    if i < |s| {
      var s' := s[..|s| - 1];
      assert forall k :: i <= k < |s'| ==> s'[k] == c;
      RunOfExact(s', c, i);
    }
  }

  /** The loop `streak = 1; for c in reversed(s[:-1]): if c == last: streak
      += 1 else: break`. */
  method CountStreak(s: seq<Color>) returns (streak: nat)
    requires |s| > 0
    ensures streak == Streak(s)
  {
    var last := s[|s| - 1];
    streak := 1;
    var i := |s| - 1;
    while i > 0 && s[i - 1] == last
      invariant 0 <= i <= |s| - 1
      invariant streak == |s| - i
      invariant forall k :: i <= k < |s| ==> s[k] == last
    {
      streak := streak + 1;
      i := i - 1;
    }
    RunOfExact(s, last, i);
  }

  /** The loop `streak = 1; for c in reversed(s[:-1]): if c == last_color and
      c != 'white': streak += 1 else: break`. */
  method CountColourStreak(s: seq<Color>) returns (streak: nat)
    requires |s| > 0
    ensures streak == ColourStreak(s)
  {
    var last := s[|s| - 1];
    streak := 1;
    var i := |s| - 1;
    while i > 0 && s[i - 1] == last && s[i - 1] != White
      invariant 0 <= i <= |s| - 1
      invariant streak == |s| - i
      invariant forall k :: i <= k < |s| ==> s[k] == last
      invariant last == White ==> i == |s| - 1
    {
      streak := streak + 1;
      i := i - 1;
    }
    if last != White {
      RunOfExact(s, last, i);
    }
  }

  /** The streak loops run over `non_white = [c for c in colors if c !=
      'white']` behind an `if non_white:` guard. */
  method CountNonWhiteStreak(s: seq<Color>) returns (streak: nat)
    ensures streak == NonWhiteStreak(s)
  {
    var nw := NonWhite(s);
    if |nw| > 0 {
      streak := CountStreak(nw);
    } else {
      streak := 1;
    }
  }

  /** The 2-2 block of six: AABBCC with A != B and B != C (A may equal C). */
  predicate Block22(w: seq<Color>) {
    |w| == 6 && w[0] == w[1] && w[2] == w[3] && w[4] == w[5] && w[0] != w[2] && w[2] != w[4]
  }

  /** The 3-3 block of nine: AAABBBCCC with A != B and B != C. */
  predicate Block33(w: seq<Color>) {
    |w| == 9 && w[0] == w[1] == w[2] && w[3] == w[4] == w[5] && w[6] == w[7] == w[8] &&
    w[0] != w[3] && w[3] != w[6]
  }

  /** A shorter window is a suffix of a longer one, so it never counts more. */
  lemma WindowCounts(h: seq<Color>, m: nat, n: nat, c: Color)
    requires m <= n
    ensures Count(Last(h, m), c) <= Count(Last(h, n), c)
  {
    var big, small := Last(h, n), Last(h, m);
    assert big == big[..|big| - |small|] + small;
    CountAppend(big[..|big| - |small|], small, c);
  }

  /** A window with no white is its own non-white subsequence. */
  lemma {:induction false} NonWhiteOfColours(s: seq<Color>)
    requires |NonWhite(s)| == |s|
    ensures NonWhite(s) == s
  {
    if s != [] {
      var init, x := s[..|s| - 1], s[|s| - 1];
      assert s == init + [x];
      CountBound(init, Red);
      assert |NonWhite(init)| <= |init| by {
        CountTotal(init);
      }
      if x == White {
        assert false;
      }
      NonWhiteOfColours(init);
    }
  }

  /** A share of at least p > 1/2 of a + b means a is the strict majority. */
  lemma MajorityFromShare(a: nat, b: nat, p: real)
    requires a + b > 0 && p > 0.5
    requires a as real / (a + b) as real >= p
    ensures a > b
  {
    var t := (a + b) as real;
    var q := a as real / t;
    assert q * t == a as real;
    ScaleLower(p, q, t);
    ScaleStrict(0.5, p, t);
    assert q * t >= p * t > 0.5 * t;
  }

  /** A share of at most p < 1/2 of a + b means b is the strict majority. */
  lemma MinorityFromShare(a: nat, b: nat, p: real)
    requires a + b > 0 && p < 0.5
    requires a as real / (a + b) as real <= p
    ensures a < b
  {
    var t := (a + b) as real;
    var q := a as real / t;
    assert q * t == a as real;
    ScaleLower(q, p, t);
    ScaleStrict(p, 0.5, t);
    assert q * t <= p * t < 0.5 * t;
  }

  lemma ScaleStrict(x: real, y: real, t: real)
    requires x < y && t > 0.0
    ensures x * t < y * t
  {
  }

  lemma ScaleLower(x: real, y: real, t: real)
    requires x <= y && t > 0.0
    ensures x * t <= y * t
  {
  }
}
