/** The weighted vote that every combiner runs over its dict of strategies:
    each signal that names red or black (and clears the variant's confidence
    bar) adds conf/100 * weight to its colour, its confidence is collected,
    and the strongest signal so far is remembered. */
module Voting {
  import opened Hist

  /** One entry of a combiner's strategies dict, with its weight. */
  datatype Ballot = Ballot(name: string, signal: Signal, weight: real)

  /** What a filter gate returns: whether to skip, and why ("ok" when not). */
  datatype Verdict = Verdict(skip: bool, reason: string)

  /** What the later combiners return: the colour (or 'skip'), the confidence,
      the credited strategy or the reason for skipping, and should_enter. */
  datatype Decision = Decision(pick: Pick, conf: real, strategy: string, enter: bool)

  /** The confidence bar a signal must clear to vote: none (backend/backtest.py),
      strictly above a bound (`confidence > 55`), or at least a bound
      (`conf >= 70`, `conf >= 60`). */
  datatype Threshold = AnyConfidence | Above(bound: real) | AtLeast(bound: real)

  /** The best-strategy record: the pick, confidence and name of the strongest
      voting signal, or the initial placeholder. */
  datatype Best = Best(pick: Pick, conf: real, name: string)

  /** votes['red'], votes['black'], every collected confidence in order, the
      confidences per colour, and the best record. */
  datatype Tally = Tally(red: real, black: real, confs: seq<real>,
                         redConfs: seq<real>, blackConfs: seq<real>, best: Best)

  predicate Clears(conf: real, th: Threshold) {
    match th
    case AnyConfidence => true
    case Above(b) => conf > b
    case AtLeast(b) => conf >= b
  }

  /** `color in ['red', 'black']` together with the variant's confidence bar. */
  predicate Eligible(s: Signal, th: Threshold) {
    IsColourBet(s.pick) && Clears(s.conf, th)
  }

  /** One iteration of the voting loop. */
  function Cast(t: Tally, b: Ballot, th: Threshold): Tally {
    if !Eligible(b.signal, th) then t
    else
      var c := b.signal.conf;
      var power := c / 100.0 * b.weight;
      var best := if c > t.best.conf then Best(b.signal.pick, c, b.name) else t.best;
      if b.signal.pick == Bet(Red) then
        Tally(t.red + power, t.black, t.confs + [c], t.redConfs + [c], t.blackConfs, best)
      else
        Tally(t.red, t.black + power, t.confs + [c], t.redConfs, t.blackConfs + [c], best)
  }

  /** The state of the voting loop after the ballots bs, in dict order. */
  function Fold(bs: seq<Ballot>, th: Threshold, init: Best): (t: Tally)
    ensures |t.confs| == |t.redConfs| + |t.blackConfs|
    ensures forall x :: x in t.redConfs ==> x in t.confs
    ensures forall x :: x in t.blackConfs ==> x in t.confs
    ensures forall x :: x in t.confs ==> x <= t.best.conf
    ensures t.best == init || (t.best.conf > init.conf && IsColourBet(t.best.pick) && t.best.conf in t.confs)
    ensures t.best.pick == Bet(Red) && t.best != init ==> t.best.conf in t.redConfs
    ensures t.best.pick == Bet(Black) && t.best != init ==> t.best.conf in t.blackConfs
  {
    if bs == [] then Tally(0.0, 0.0, [], [], [], init)
    else Cast(Fold(bs[..|bs| - 1], th, init), bs[|bs| - 1], th)
  }

  /** The loop `for name, (color, conf) in strategies.items(): ...`. */
  method CastVotes(bs: seq<Ballot>, th: Threshold, init: Best) returns (t: Tally)
    ensures t == Fold(bs, th, init)
  {
    t := Tally(0.0, 0.0, [], [], [], init);
    var i := 0;
    while i < |bs|
      invariant 0 <= i <= |bs|
      invariant t == Fold(bs[..i], th, init)
    {
      assert bs[..i + 1][..i] == bs[..i];
      t := Cast(t, bs[i], th);
      i := i + 1;
    }
    assert bs[..|bs|] == bs;
  }

  /** Every ballot has a positive weight, and every voting signal a positive
      confidence. */
  predicate PositiveBallots(bs: seq<Ballot>, th: Threshold) {
    forall k :: 0 <= k < |bs| ==>
      bs[k].weight > 0.0 && (Eligible(bs[k].signal, th) ==> bs[k].signal.conf > 0.0)
  }

  /** With positive ballots a colour's tally is positive exactly when some
      signal voted for it, so the total is zero exactly when nobody voted. */
  lemma {:induction false} FoldVotesPositive(bs: seq<Ballot>, th: Threshold, init: Best)
    requires PositiveBallots(bs, th)
    ensures Fold(bs, th, init).red >= 0.0 && Fold(bs, th, init).black >= 0.0
    ensures Fold(bs, th, init).red > 0.0 <==> |Fold(bs, th, init).redConfs| > 0
    ensures Fold(bs, th, init).black > 0.0 <==> |Fold(bs, th, init).blackConfs| > 0
  {
    if bs != [] {
      var init' := bs[..|bs| - 1];
      assert PositiveBallots(init', th) by {
        forall k | 0 <= k < |init'| ensures init'[k] == bs[k] { }
      }
      FoldVotesPositive(init', th, init);
      CastVotesPositive(Fold(init', th, init), bs[|bs| - 1], th);
    }
  }

  /** One positive ballot keeps each colour's tally positive exactly when
      that colour has collected a confidence. */
  lemma CastVotesPositive(t: Tally, b: Ballot, th: Threshold)
    requires t.red >= 0.0 && t.black >= 0.0
    requires (t.red > 0.0 <==> |t.redConfs| > 0) && (t.black > 0.0 <==> |t.blackConfs| > 0)
    requires b.weight > 0.0 && (Eligible(b.signal, th) ==> b.signal.conf > 0.0)
    ensures var t' := Cast(t, b, th);
      t'.red >= 0.0 && t'.black >= 0.0 &&
      (t'.red > 0.0 <==> |t'.redConfs| > 0) && (t'.black > 0.0 <==> |t'.blackConfs| > 0)
  {
    if Eligible(b.signal, th) {
      PositiveProduct(b.signal.conf / 100.0, b.weight);
    }
  }

  /** When every ballot is eligible, every one of them votes. */
  lemma {:induction false} FoldAllVote(bs: seq<Ballot>, th: Threshold, init: Best)
    requires forall k :: 0 <= k < |bs| ==> Eligible(bs[k].signal, th)
    ensures |Fold(bs, th, init).confs| == |bs|
  {
    if bs != [] {
      var init' := bs[..|bs| - 1];
      assert forall k :: 0 <= k < |init'| ==> init'[k] == bs[k];
      FoldAllVote(init', th, init);
    }
  }

  /** Nobody votes exactly when no ballot clears the bar, and then the tally
      is still the empty one it started as. */
  lemma {:induction false} FoldSilent(bs: seq<Ballot>, th: Threshold, init: Best)
    ensures |Fold(bs, th, init).confs| == 0 <==> forall k :: 0 <= k < |bs| ==> !Eligible(bs[k].signal, th)
    ensures (forall k :: 0 <= k < |bs| ==> !Eligible(bs[k].signal, th)) ==>
              Fold(bs, th, init) == Tally(0.0, 0.0, [], [], [], init)
  {
    if bs != [] {
      var init' := bs[..|bs| - 1];
      assert forall k :: 0 <= k < |init'| ==> init'[k] == bs[k];
      FoldSilent(init', th, init);
    }
  }

  /** A ballot that does not vote can be replaced by any other ballot that
      does not vote: the tally is unchanged. */
  lemma {:induction false} FoldIgnoresIneligible(bs: seq<Ballot>, th: Threshold, init: Best, k: nat, b: Ballot)
    requires k < |bs| && !Eligible(bs[k].signal, th) && !Eligible(b.signal, th)
    ensures Fold(bs[k := b], th, init) == Fold(bs, th, init)
  {
    var n := |bs|;
    if k < n - 1 {
      assert bs[k := b][..n - 1] == bs[..n - 1][k := b];
      FoldIgnoresIneligible(bs[..n - 1], th, init, k, b);
    } else {
      assert bs[k := b][..n - 1] == bs[..n - 1];
    }
  }

  lemma PositiveProduct(a: real, b: real)
    requires a > 0.0 && b > 0.0
    ensures a * b > 0.0
  {
  }

  /** When every voting signal's confidence lies in [lo, hi], so does every
      collected confidence, and the best record stays at most hi. */
  lemma {:induction false} FoldConfidenceBounds(bs: seq<Ballot>, th: Threshold, init: Best, lo: real, hi: real)
    requires forall k :: 0 <= k < |bs| && Eligible(bs[k].signal, th) ==> lo <= bs[k].signal.conf <= hi
    ensures forall x :: x in Fold(bs, th, init).confs ==> lo <= x <= hi
    ensures init.conf <= hi ==> Fold(bs, th, init).best.conf <= hi
  {
    if bs != [] {
      var init' := bs[..|bs| - 1];
      assert forall k :: 0 <= k < |init'| ==> init'[k] == bs[k];
      FoldConfidenceBounds(init', th, init, lo, hi);
    }
  }

  /** Every voting signal's confidence lies in [lo, hi]. */
  predicate Bounded(bs: seq<Ballot>, th: Threshold, lo: real, hi: real) {
    forall k :: 0 <= k < |bs| && Eligible(bs[k].signal, th) ==> lo <= bs[k].signal.conf <= hi
  }

  /** Three ballots of positive weight whose colour signals lie in [lo, hi],
      with lo above zero, are positive and bounded. */
  lemma ThreeBallotsSound(a: Ballot, b: Ballot, c: Ballot, th: Threshold, lo: real, hi: real)
    requires lo > 0.0 && a.weight > 0.0 && b.weight > 0.0 && c.weight > 0.0
    requires IsColourBet(a.signal.pick) ==> lo <= a.signal.conf <= hi
    requires IsColourBet(b.signal.pick) ==> lo <= b.signal.conf <= hi
    requires IsColourBet(c.signal.pick) ==> lo <= c.signal.conf <= hi
    ensures PositiveBallots([a, b, c], th) && Bounded([a, b, c], th, lo, hi)
  {
    var bs := [a, b, c];
    assert bs[0] == a && bs[1] == b && bs[2] == c;
  }

  /** The facts about a finished tally that the combiners' decisions rely
      on: collected confidences within the signals' bounds, a best record
      that is the placeholder or a colour, and a positive total exactly when
      some signal voted. */
  lemma TallySound(bs: seq<Ballot>, th: Threshold, init: Best, lo: real, hi: real)
    requires PositiveBallots(bs, th) && Bounded(bs, th, lo, hi) && init.conf <= hi
    ensures var t := Fold(bs, th, init);
      (forall x :: x in t.confs ==> lo <= x <= hi) && t.best.conf <= hi &&
      t.red >= 0.0 && t.black >= 0.0 &&
      (t.red + t.black > 0.0 <==> |t.confs| > 0) &&
      (t.best == init || (t.best.conf > init.conf && IsColourBet(t.best.pick)))
  {
    FoldVotesPositive(bs, th, init);
    FoldConfidenceBounds(bs, th, init, lo, hi);
  }

  /** What one ballot adds to colour c's tally. */
  function Power(b: Ballot, th: Threshold, c: Color): real {
    if Eligible(b.signal, th) && b.signal.pick == Bet(c) then b.signal.conf / 100.0 * b.weight else 0.0
  }

  /** votes['red'] as a plain sum over the ballots. */
  function RedVotes(bs: seq<Ballot>, th: Threshold): real {
    if bs == [] then 0.0 else RedVotes(bs[..|bs| - 1], th) + Power(bs[|bs| - 1], th, Red)
  }

  lemma {:induction false} FoldRedIsSum(bs: seq<Ballot>, th: Threshold, init: Best)
    ensures Fold(bs, th, init).red == RedVotes(bs, th)
  {
    if bs != [] {
      FoldRedIsSum(bs[..|bs| - 1], th, init);
    }
  }

  /** The monotonicity of the weighted vote: raising the confidence of one
      red ballot (same pick, same weight) never lowers the red tally. */
  lemma FoldMonotone(bs: seq<Ballot>, th: Threshold, init: Best, k: nat, c: real)
    requires k < |bs| && bs[k].signal.pick == Bet(Red) && bs[k].weight >= 0.0
    requires c >= bs[k].signal.conf && c >= 0.0
    ensures Fold(bs, th, init).red <=
            Fold(bs[k := Ballot(bs[k].name, Signal(Bet(Red), c), bs[k].weight)], th, init).red
  {
    var bs' := bs[k := Ballot(bs[k].name, Signal(Bet(Red), c), bs[k].weight)];
    FoldRedIsSum(bs, th, init);
    FoldRedIsSum(bs', th, init);
    RedVotesMonotone(bs, th, k, c);
  }

  lemma {:induction false} RedVotesMonotone(bs: seq<Ballot>, th: Threshold, k: nat, c: real)
    requires k < |bs| && bs[k].signal.pick == Bet(Red) && bs[k].weight >= 0.0
    requires c >= bs[k].signal.conf && c >= 0.0
    ensures RedVotes(bs, th) <= RedVotes(bs[k := Ballot(bs[k].name, Signal(Bet(Red), c), bs[k].weight)], th)
  {
    var b := bs[k];
    var b' := Ballot(b.name, Signal(Bet(Red), c), b.weight);
    var bs' := bs[k := b'];
    var n := |bs|;
    if k == n - 1 {
      assert bs'[..n - 1] == bs[..n - 1];
      PowerMonotone(b, th, c);
    } else {
      assert bs'[..n - 1] == bs[..n - 1][k := b'];
      RedVotesMonotone(bs[..n - 1], th, k, c);
    }
  }

  lemma PowerMonotone(b: Ballot, th: Threshold, c: real)
    requires b.signal.pick == Bet(Red) && b.weight >= 0.0
    requires c >= b.signal.conf && c >= 0.0
    ensures Power(b, th, Red) <= Power(Ballot(b.name, Signal(Bet(Red), c), b.weight), th, Red)
  {
    if Eligible(b.signal, th) {
      assert Clears(c, th);
      ScaleMonotone(b.signal.conf / 100.0, c / 100.0, b.weight);
    } else {
      NonNegativeProduct(c / 100.0, b.weight);
    }
  }

  lemma ScaleMonotone(a: real, b: real, w: real)
    requires a <= b && w >= 0.0
    ensures a * w <= b * w
  {
  }

  lemma NonNegativeProduct(a: real, b: real)
    requires a >= 0.0 && b >= 0.0
    ensures a * b >= 0.0
  {
  }

  function Sum(xs: seq<real>): real {
    if xs == [] then 0.0 else Sum(xs[..|xs| - 1]) + xs[|xs| - 1]
  }

  /** statistics.mean: the sum divided by the length. */
  function Mean(xs: seq<real>): real
    requires |xs| > 0
  {
    Sum(xs) / |xs| as real
  }

  lemma {:induction false} SumBounds(xs: seq<real>, lo: real, hi: real)
    requires forall x :: x in xs ==> lo <= x <= hi
    ensures lo * |xs| as real <= Sum(xs) <= hi * |xs| as real
  {
    if xs != [] {
      var init, last := xs[..|xs| - 1], xs[|xs| - 1];
      assert forall x :: x in init ==> x in xs;
      SumBounds(init, lo, hi);
      assert last in xs;
      var n := |init| as real;
      assert |xs| as real == n + 1.0;
      assert Sum(xs) == Sum(init) + last;
      Distribute(lo, n);
      Distribute(hi, n);
    }
  }

  lemma Distribute(a: real, n: real)
    ensures a * (n + 1.0) == a * n + a
  {
  }

  /** A mean of values in [lo, hi] lies in [lo, hi]. */
  lemma MeanBounds(xs: seq<real>, lo: real, hi: real)
    requires |xs| > 0
    requires forall x :: x in xs ==> lo <= x <= hi
    ensures lo <= Mean(xs) <= hi
  {
    SumBounds(xs, lo, hi);
    var n := |xs| as real;
    DivideBounds(Sum(xs), n, lo, hi);
  }

  lemma DivideBounds(s: real, n: real, lo: real, hi: real)
    requires n > 0.0 && lo * n <= s <= hi * n
    ensures lo <= s / n <= hi
  {
    assert s / n * n == s;
    if s / n < lo {
      ScaleMonotone(s / n, lo, n);
    }
    if s / n > hi {
      ScaleMonotone(hi, s / n, n);
    }
  }
}
