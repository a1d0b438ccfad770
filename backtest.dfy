/** The first backtesting variant (backend/backtest.py): six heuristics, an
    anti-pattern gate, the weighted vote of combined_strategy_v2 and the
    martingale simulation of simulate_with_martingale. */
module Backtest {
  import opened Hist
  import opened Voting
  import opened Martingale

  /** What combined_strategy_v2 returns: colour, confidence and the label of
      the strategy it credits. */
  datatype Prediction = Prediction(pick: Pick, conf: real, strategy: string)

  /** strategy_tendencia_v2 with its lookback of 15: follow a clear (60%+)
      majority of the non-white outcomes of the last 15. */
  function Tendencia(h: seq<Color>): (s: Signal)
    ensures IsColourBet(s.pick) && 50.0 <= s.conf <= 90.0
    ensures |h| < 15 ==> s == Signal(Bet(Red), 50.0)
    ensures s.conf > 55.0 && s.pick == Bet(Red) ==> Count(Last(h, 15), Red) > Count(Last(h, 15), Black)
    ensures s.conf > 55.0 && s.pick == Bet(Black) ==> Count(Last(h, 15), Black) > Count(Last(h, 15), Red)
  {
    if |h| < 15 then Signal(Bet(Red), 50.0)
    else
      var recent := Last(h, 15);
      var rc, bc := Count(recent, Red), Count(recent, Black);
      if rc + bc == 0 then Signal(Bet(Red), 50.0)
      else
        var pct := rc as real / (rc + bc) as real;
        if pct >= 0.6 then
          MajorityFromShare(rc, bc, 0.6);
          Signal(Bet(Red), Min(50.0 + (pct - 0.5) * 80.0, 90.0))
        else if pct <= 0.4 then
          MinorityFromShare(rc, bc, 0.4);
          Signal(Bet(Black), Min(50.0 + (0.5 - pct) * 80.0, 90.0))
        else Signal(Bet(if rc >= bc then Red else Black), 55.0)
  }

  /** strategy_reversao_v2: after a run of at least minStreak equal colours
      (white ends a run), bet on the opposite colour. */
  function Reversao(h: seq<Color>, minStreak: int): (s: Signal)
    ensures IsColourBet(s.pick) && 50.0 <= s.conf <= 85.0
    ensures |h| < 5 ==> s == Signal(Bet(Red), 50.0)
    ensures |h| >= 5 && h[|h| - 1] == White ==> s == Signal(Bet(Red), 55.0)
    ensures s.conf >= 60.0 <==> |h| >= 5 && h[|h| - 1] != White && ColourStreak(h) >= minStreak
    ensures s.conf >= 60.0 ==> s.pick == Bet(OppositeOf(h[|h| - 1]))
  {
    if |h| < 5 then Signal(Bet(Red), 50.0)
    else
      var last := h[|h| - 1];
      if last == White then Signal(Bet(Red), 55.0)
      else
        var streak := ColourStreak(h);
        if streak >= minStreak then
          Signal(Bet(OppositeOf(last)), 60.0 + Min(((streak - minStreak) * 5) as real, 25.0))
        else Signal(Bet(Red), 50.0)
  }

  /** strategy_reversao_v2 as written, with its streak loop. */
  method ComputeReversao(h: seq<Color>, minStreak: int) returns (s: Signal)
    ensures s == Reversao(h, minStreak)
  {
    if |h| < 5 {
      return Signal(Bet(Red), 50.0);
    }
    var last := h[|h| - 1];
    if last == White {
      return Signal(Bet(Red), 55.0);
    }
    var streak := CountColourStreak(h);
    if streak >= minStreak {
      s := Signal(Bet(OppositeOf(last)), 60.0 + Min(((streak - minStreak) * 5) as real, 25.0));
    } else {
      s := Signal(Bet(Red), 50.0);
    }
  }

  /** strategy_padrao_duplo: a 2-2 block over the last six (72) or, failing
      that, a 3-3 block over the last nine (75) predicts a change of colour. */
  function PadraoDuplo(h: seq<Color>): (s: Signal)
    ensures IsColourBet(s.pick)
    ensures s.conf == 50.0 || s.conf == 72.0 || s.conf == 75.0
    ensures s.conf == 72.0 <==> |h| >= 6 && Block22(Last(h, 6))
    ensures s.conf == 75.0 <==> |h| >= 9 && !Block22(Last(h, 6)) && Block33(Last(h, 9))
    ensures s.conf != 50.0 ==> s.pick == Bet(OppositeOf(h[|h| - 1]))
  {
    if |h| < 6 then Signal(Bet(Red), 50.0)
    else if Block22(Last(h, 6)) then Signal(Bet(OppositeOf(h[|h| - 1])), 72.0)
    else if |h| >= 9 && Block33(Last(h, 9)) then Signal(Bet(OppositeOf(h[|h| - 1])), 75.0)
    else Signal(Bet(Red), 50.0)
  }

  /** strategy_equilibrio_forcado with its window of 30: when one colour leads
      the other by more than ten in the last 30, bet on the other. */
  function Equilibrio(h: seq<Color>): (s: Signal)
    ensures IsColourBet(s.pick) && 50.0 <= s.conf <= 85.0
    ensures |h| < 30 ==> s == Signal(Bet(Red), 50.0)
    ensures |h| >= 30 && Count(Last(h, 30), Red) > Count(Last(h, 30), Black) + 10 ==>
              s.pick == Bet(Black) && s.conf > 65.0
    ensures |h| >= 30 && Count(Last(h, 30), Black) > Count(Last(h, 30), Red) + 10 ==>
              s.pick == Bet(Red) && s.conf > 65.0
    ensures s.conf > 50.0 ==> |h| >= 30 && AbsInt(Count(Last(h, 30), Red) - Count(Last(h, 30), Black)) > 10
    ensures s.pick == Bet(Black) ==> Count(Last(h, 30), Red) > Count(Last(h, 30), Black) + 10
  {
    if |h| < 30 then Signal(Bet(Red), 50.0)
    else
      var recent := Last(h, 30);
      var rc, bc := Count(recent, Red), Count(recent, Black);
      var total := rc + bc;
      if total == 0 then Signal(Bet(Red), 50.0)
      else
        var expected := total as real / 2.0;
        var redDev := rc as real - expected;
        var blackDev := bc as real - expected;
        if redDev > 5.0 then Signal(Bet(Black), 55.0 + Min(redDev * 2.0, 30.0))
        else if blackDev > 5.0 then Signal(Bet(Red), 55.0 + Min(blackDev * 2.0, 30.0))
        else Signal(Bet(Red), 50.0)
  }

  /** strategy_anti_padrao: the gate of combined_strategy_v2. */
  function AntiPadrao(h: seq<Color>): (s: Signal)
    ensures s == Signal(Skip, 0.0) || s == Signal(Continue, 100.0)
    ensures s.pick == Skip <==>
              |h| < 10 || Count(Last(h, 10), White) >= 2 ||
              AbsInt(Count(Last(h, 10), Red) - Count(Last(h, 10), Black)) <= 1
  {
    if |h| < 10 then Signal(Skip, 0.0)
    else
      var last10 := Last(h, 10);
      if Count(last10, White) >= 2 then Signal(Skip, 0.0)
      else if AbsInt(Count(last10, Red) - Count(last10, Black)) <= 1 then Signal(Skip, 0.0)
      else Signal(Continue, 100.0)
  }

  /** strategy_momentum: three equal non-white outcomes are followed (68);
      a changing last three is answered with the opposite of the last (65). */
  function Momentum(h: seq<Color>): (s: Signal)
    ensures IsColourBet(s.pick)
    ensures s.conf == 50.0 || s.conf == 65.0 || s.conf == 68.0
    ensures s.conf == 68.0 <==>
              |h| >= 8 && h[|h| - 1] != White && h[|h| - 3] == h[|h| - 2] == h[|h| - 1]
    ensures s.conf == 68.0 ==> s.pick == Bet(h[|h| - 1])
    ensures s.conf == 65.0 <==> |h| >= 8 && h[|h| - 3] != h[|h| - 2] && h[|h| - 2] != h[|h| - 1]
    ensures s.conf == 65.0 ==> s.pick == Bet(OppositeOf(h[|h| - 1]))
  {
    if |h| < 8 then Signal(Bet(Red), 50.0)
    else
      var l3 := Last(h, 3);
      assert l3 == [h[|h| - 3], h[|h| - 2], h[|h| - 1]];
      if l3[0] == l3[1] == l3[2] && l3[0] != White then
        assert l3[0] == Red || l3[0] == Black;
        Signal(Bet(l3[0]), 68.0)
      else if l3[0] != l3[1] && l3[1] != l3[2] then Signal(Bet(OppositeOf(l3[2])), 65.0)
      else Signal(Bet(Red), 50.0)
  }

  /** The strategies dict of combined_strategy_v2, in its order, with the
      weights 1.2, 1.5, 1.8, 1.0 and 1.1. */
  function Ballots(h: seq<Color>, reversao: Signal): seq<Ballot> {
    [Ballot("tendencia", Tendencia(h), 1.2),
     Ballot("reversao", reversao, 1.5),
     Ballot("padrao_duplo", PadraoDuplo(h), 1.8),
     Ballot("equilibrio", Equilibrio(h), 1.0),
     Ballot("momentum", Momentum(h), 1.1)]
  }

  /** best_confidence = 0, best_strategy = 'combined'. */
  const NoBest: Best := Best(Skip, 0.0, "combined")

  /** Every signal of the dict is a colour bet with confidence in [50, 90]. */
  lemma BallotsBounded(h: seq<Color>)
    ensures forall k :: 0 <= k < 5 ==>
      IsColourBet(Ballots(h, Reversao(h, 4))[k].signal.pick) &&
      50.0 <= Ballots(h, Reversao(h, 4))[k].signal.conf <= 90.0 &&
      Ballots(h, Reversao(h, 4))[k].weight > 0.0
  {
  }

  /** The decision of combined_strategy_v2 once the votes are tallied. */
  function Decide(t: Tally): Prediction {
    var total := t.red + t.black;
    if total == 0.0 then Prediction(Bet(Red), 50.0, "default")
    else
      var redPct := t.red / total;
      if redPct >= 0.6 then Prediction(Bet(Red), Min(50.0 + (redPct - 0.5) * 80.0, 92.0), t.best.name)
      else if redPct <= 0.4 then Prediction(Bet(Black), Min(50.0 + (0.5 - redPct) * 80.0, 92.0), t.best.name)
      else if t.best.conf >= 65.0 then Prediction(t.best.pick, t.best.conf, t.best.name)
      else Prediction(Bet(if t.red >= t.black then Red else Black), 55.0, "low_confidence")
  }

  /** combined_strategy_v2: always a colour, with confidence in [50, 92];
      an anti-pattern skip falls back to the balance strategy's colour at 55. */
  function Combined(h: seq<Color>): (p: Prediction)
    ensures IsColourBet(p.pick) && 50.0 <= p.conf <= 92.0
    ensures |h| < 10 ==> p == Prediction(Bet(Red), 50.0, "default")
  {
    if |h| < 10 then Prediction(Bet(Red), 50.0, "default")
    else if AntiPadrao(h).pick == Skip then Prediction(Equilibrio(h).pick, 55.0, "equilibrio_conservador")
    else Voted(h)
  }

  /** The tally of the five strategies of combined_strategy_v2. */
  function Vote(h: seq<Color>): Tally {
    Fold(Ballots(h, Reversao(h, 4)), AnyConfidence, NoBest)
  }

  /** The decision of the vote: a colour with confidence in [50, 92]. */
  function Voted(h: seq<Color>): (p: Prediction)
    ensures IsColourBet(p.pick) && 50.0 <= p.conf <= 92.0
  {
    VoteFacts(h);
    VotedDecision(Vote(h));
    Decide(Vote(h))
  }

  /** On an anti-pattern skip combined_strategy_v2 falls back to the colour of
      the balance strategy with confidence 55 and label
      'equilibrio_conservador'. */
  lemma CombinedOnSkip(h: seq<Color>)
    requires |h| >= 10
    ensures AntiPadrao(h).pick == Skip ==>
              Combined(h) == Prediction(Equilibrio(h).pick, 55.0, "equilibrio_conservador")
  {
  }

  /** What the vote of combined_strategy_v2 always satisfies: both tallies
      are positive sums (all five strategies vote) and the best confidence
      is at most 90. */
  lemma VoteFacts(h: seq<Color>)
    ensures var t := Vote(h);
      t.red >= 0.0 && t.black >= 0.0 && t.red + t.black > 0.0 &&
      (t.best == NoBest || (t.best.conf > 0.0 && IsColourBet(t.best.pick))) &&
      t.best.conf <= 90.0
  {
    var bs := Ballots(h, Reversao(h, 4));
    BallotsBounded(h);
    assert PositiveBallots(bs, AnyConfidence);
    FoldVotesPositive(bs, AnyConfidence, NoBest);
    FoldConfidenceBounds(bs, AnyConfidence, NoBest, 50.0, 90.0);
    FoldAllVote(bs, AnyConfidence, NoBest);
  }

  /** Once some colour was voted, the decision is a colour with confidence in
      [50, 92]. */
  lemma VotedDecision(t: Tally)
    requires t.red >= 0.0 && t.black >= 0.0 && t.red + t.black > 0.0
    requires t.best == NoBest || (t.best.conf > 0.0 && IsColourBet(t.best.pick))
    requires t.best.conf <= 90.0
    ensures IsColourBet(Decide(t).pick) && 50.0 <= Decide(t).conf <= 92.0
  {
    var total := t.red + t.black;
    var redPct := t.red / total;
    assert 0.0 <= redPct <= 1.0 by { DivideBounds(t.red, total, 0.0, 1.0); }
  }

  /** combined_strategy_v2 as written: the reversal loop, then the vote loop. */
  method CombinedStrategy(h: seq<Color>) returns (p: Prediction)
    ensures p == Combined(h)
  {
    if |h| < 10 {
      return Prediction(Bet(Red), 50.0, "default");
    }
    if AntiPadrao(h).pick == Skip {
      return Prediction(Equilibrio(h).pick, 55.0, "equilibrio_conservador");
    }
    var reversao := ComputeReversao(h, 4);
    var t := CastVotes(Ballots(h, reversao), AnyConfidence, NoBest);
    assert t == Vote(h);
    p := Decide(t);
    assert p == Voted(h);
  }

  /** The results dict of simulate_with_martingale. */
  datatype Report = Report(
    entries: nat, wins: nat, losses: nat,
    winPrincipal: nat, winMg1: nat, winMg2: nat, skipped: nat,
    strategiesUsed: multiset<string>, confidenceLevels: seq<real>,
    winRate: real, principalRate: real, avgConfidence: real)

  /** The counters of the results dict while the games run. */
  datatype Counters = Counters(
    entries: nat, wins: nat, losses: nat,
    winPrincipal: nat, winMg1: nat, winMg2: nat, skipped: nat,
    strategiesUsed: multiset<string>, confidenceLevels: seq<real>)

  /** The bookkeeping facts every state of the simulation keeps. */
  predicate Consistent(c: Counters, minConfidence: real) {
    c.wins + c.losses == c.entries && c.wins == c.winPrincipal + c.winMg1 + c.winMg2 &&
    |c.strategiesUsed| == c.entries && |c.confidenceLevels| == c.entries &&
    forall k :: 0 <= k < |c.confidenceLevels| ==> minConfidence <= c.confidenceLevels[k] <= 92.0
  }

  /** The counters after an entry with prediction p ended as a. */
  function Record(c: Counters, p: Prediction, a: Attempt): (c': Counters)
    ensures c'.entries == c.entries + 1 && c'.skipped == c.skipped
    ensures c'.wins == c.wins + (if a.Won? then 1 else 0)
    ensures c'.strategiesUsed == c.strategiesUsed + multiset{p.strategy}
    ensures c'.confidenceLevels == c.confidenceLevels + [p.conf]
  {
    var c1 := c.(entries := c.entries + 1, strategiesUsed := c.strategiesUsed + multiset{p.strategy},
                 confidenceLevels := c.confidenceLevels + [p.conf]);
    match a
    case Lost => c1.(losses := c.losses + 1)
    case Won(0) => c1.(wins := c.wins + 1, winPrincipal := c.winPrincipal + 1)
    case Won(1) => c1.(wins := c.wins + 1, winMg1 := c.winMg1 + 1)
    case Won(_) => c1.(wins := c.wins + 1, winMg2 := c.winMg2 + 1)
  }

  /** Recording an entry whose confidence cleared the bar keeps the books
      consistent. */
  lemma RecordConsistent(c: Counters, p: Prediction, a: Attempt, minConfidence: real)
    requires Consistent(c, minConfidence) && minConfidence <= p.conf <= 92.0
    ensures Consistent(Record(c, p, a), minConfidence)
  {
    var c' := Record(c, p, a);
    assert forall k :: 0 <= k < |c.confidenceLevels| ==> c'.confidenceLevels[k] == c.confidenceLevels[k];
  }

  /** The derived rates of the results dict. */
  function Finish(c: Counters): Report
    requires |c.confidenceLevels| == c.entries
  {
    if c.entries > 0 then
      Report(c.entries, c.wins, c.losses, c.winPrincipal, c.winMg1, c.winMg2, c.skipped,
             c.strategiesUsed, c.confidenceLevels,
             c.wins as real / c.entries as real * 100.0,
             c.winPrincipal as real / c.entries as real * 100.0,
             Mean(c.confidenceLevels))
    else
      Report(c.entries, c.wins, c.losses, c.winPrincipal, c.winMg1, c.winMg2, c.skipped,
             c.strategiesUsed, c.confidenceLevels, 0.0, 0.0, 0.0)
  }

  /** What the simulation does with a history: skip the game when the
      combined confidence is below the minimum, otherwise enter with the
      combined prediction. */
  datatype Game = SkipGame | Enter(prediction: Prediction)

  function Choice(h: seq<Color>, minConfidence: real): (g: Game)
    ensures g.Enter? ==> IsColourBet(g.prediction.pick) && minConfidence <= g.prediction.conf <= 92.0
    ensures minConfidence <= 50.0 ==> g.Enter?
    ensures minConfidence > 92.0 ==> g == SkipGame
  {
    var p := Combined(h);
    if p.conf < minConfidence then SkipGame else Enter(p)
  }

  /** Choice with the minimum confidence fixed, as the simulation applies it. */
  function ChoiceAt(minConfidence: real): seq<Color> -> Game {
    h => Choice(h, minConfidence)
  }

  /** A chooser whose entries all have a confidence in [minConfidence, 92]. */
  ghost predicate Capped(choose: seq<Color> -> Game, minConfidence: real) {
    forall h :: choose(h).Enter? ==> minConfidence <= choose(h).prediction.conf <= 92.0
  }

  /** The simulation's chooser enters only at a confidence in [minConfidence, 92]. */
  lemma ChoiceAtCapped(minConfidence: real)
    ensures Capped(ChoiceAt(minConfidence), minConfidence)
  {
    forall h | ChoiceAt(minConfidence)(h).Enter?
      ensures minConfidence <= ChoiceAt(minConfidence)(h).prediction.conf <= 92.0
    {
      assert ChoiceAt(minConfidence)(h) == Choice(h, minConfidence);
    }
  }

  /** One pass of the while loop of simulate_with_martingale as a function of the
      chooser, the number of ladder levels, the counters, the history so far and the
      stream of draws: a skipped game draws one outcome; an entry records its strategy
      and confidence, plays the ladder on the next draws and records its result. */
  function Round(choose: seq<Color> -> Game, levels: nat, c: Counters, h: seq<Color>, draws: seq<real>)
    : (g: (Counters, seq<Color>))
    requires |h| + (if levels >= 1 then levels else 1) <= |draws|
    ensures |h| <= |g.1| <= |h| + (if levels >= 1 then levels else 1) && g.1[..|h|] == h
  {
    match choose(h)
    case SkipGame => (c.(skipped := c.skipped + 1), h + [Generator.BlazeResult(draws[|h|])])
    case Enter(p) =>
      var a := Ladder(p.pick, Outcomes(draws[|h|..|h| + levels]), levels);
      (Record(c, p, a), h + Outcomes(draws[|h|..|h| + Consumed(a, levels)]))
  }

  /** A round is either a skip, which draws one outcome, or an entry, which draws one
      outcome per level played and no more than `levels`; without levels nothing is
      won. */
  lemma RoundShape(choose: seq<Color> -> Game, levels: nat, c: Counters, h: seq<Color>, draws: seq<real>)
    requires |h| + (if levels >= 1 then levels else 1) <= |draws|
    ensures var g := Round(choose, levels, c, h, draws);
            && (levels == 0 ==> g.0.wins == c.wins)
            && (|| (g.0.entries == c.entries && g.0.skipped == c.skipped + 1 && |g.1| == |h| + 1)
                || (g.0.entries == c.entries + 1 && g.0.skipped == c.skipped &&
                    |h| + (if levels > 0 then 1 else 0) <= |g.1| <= |h| + levels))
  {
  }

  /** A round keeps the counters consistent when the chooser's entries have a
      confidence in [minConfidence, 92]. */
  lemma RoundConsistent(choose: seq<Color> -> Game, minConfidence: real, levels: nat, c: Counters, h: seq<Color>, draws: seq<real>)
    requires Consistent(c, minConfidence) && Capped(choose, minConfidence)
    requires |h| + (if levels >= 1 then levels else 1) <= |draws|
    ensures Consistent(Round(choose, levels, c, h, draws).0, minConfidence)
  {
    if choose(h).Enter? {
      var p := choose(h).prediction;
      RecordConsistent(c, p, Ladder(p.pick, Outcomes(draws[|h|..|h| + levels]), levels), minConfidence);
    }
  }

  /** n rounds played one after the other from counters c and history h. */
  function Rounds(choose: seq<Color> -> Game, levels: nat, n: nat, c: Counters, h: seq<Color>, draws: seq<real>)
    : (g: (Counters, seq<Color>))
    requires |h| + Budget(n, if levels >= 1 then levels else 1) <= |draws|
    ensures |h| <= |g.1| <= |draws|
  {
    if n == 0 then (c, h)
    else
      var g := Round(choose, levels, c, h, draws);
      Rounds(choose, levels, n - 1, g.0, g.1, draws)
  }

  /** Over n rounds every game is counted once, and the history grows by at least one
      outcome per skip and by at least one per entry when the ladder has a level. */
  lemma {:induction false} RoundsGrowAtLeast(choose: seq<Color> -> Game, levels: nat, n: nat, c: Counters, h: seq<Color>, draws: seq<real>)
    requires |h| + Budget(n, if levels >= 1 then levels else 1) <= |draws|
    ensures var g := Rounds(choose, levels, n, c, h, draws);
            && g.0.entries + g.0.skipped == c.entries + c.skipped + n
            && c.entries <= g.0.entries && c.skipped <= g.0.skipped
            && (levels == 0 ==> g.0.wins == c.wins)
            && |h| + g.0.skipped + (if levels > 0 then g.0.entries else 0)
               <= |g.1| + c.skipped + (if levels > 0 then c.entries else 0)
  {
    if n > 0 {
      var g := Round(choose, levels, c, h, draws);
      RoundShape(choose, levels, c, h, draws);
      RoundsGrowAtLeast(choose, levels, n - 1, g.0, g.1, draws);
    }
  }

  /** One round adds at most `levels` outcomes per entry and exactly one per skip. */
  lemma RoundAtMost(choose: seq<Color> -> Game, levels: nat, c: Counters, h: seq<Color>, draws: seq<real>)
    requires |h| + (if levels >= 1 then levels else 1) <= |draws|
    ensures var g := Round(choose, levels, c, h, draws);
            |g.1| + c.skipped + Budget(c.entries, levels) <= |h| + g.0.skipped + Budget(g.0.entries, levels)
  {
    var g := Round(choose, levels, c, h, draws);
    RoundShape(choose, levels, c, h, draws);
    if g.0.entries == c.entries + 1 {
      assert Budget(g.0.entries, levels) == Budget(c.entries, levels) + levels;
    }
  }

  /** Over n rounds the history grows by exactly one outcome per skip and by at most
      `levels` outcomes per entry. */
  lemma {:induction false} RoundsGrowAtMost(choose: seq<Color> -> Game, levels: nat, n: nat, c: Counters, h: seq<Color>, draws: seq<real>)
    requires |h| + Budget(n, if levels >= 1 then levels else 1) <= |draws|
    ensures var g := Rounds(choose, levels, n, c, h, draws);
            |g.1| + c.skipped + Budget(c.entries, levels) <= |h| + g.0.skipped + Budget(g.0.entries, levels)
  {
    if n > 0 {
      var g := Round(choose, levels, c, h, draws);
      RoundAtMost(choose, levels, c, h, draws);
      RoundsGrowAtMost(choose, levels, n - 1, g.0, g.1, draws);
    }
  }

  /** So do n rounds. */
  lemma {:induction false} RoundsConsistent(choose: seq<Color> -> Game, minConfidence: real, levels: nat, n: nat, c: Counters, h: seq<Color>, draws: seq<real>)
    requires Consistent(c, minConfidence) && Capped(choose, minConfidence)
    requires |h| + Budget(n, if levels >= 1 then levels else 1) <= |draws|
    ensures Consistent(Rounds(choose, levels, n, c, h, draws).0, minConfidence)
  {
    if n > 0 {
      var g := Round(choose, levels, c, h, draws);
      RoundConsistent(choose, minConfidence, levels, c, h, draws);
      RoundsConsistent(choose, minConfidence, levels, n - 1, g.0, g.1, draws);
    }
  }

  /** The counters simulate_with_martingale starts from. */
  const Start: Counters := Counters(0, 0, 0, 0, 0, 0, 0, multiset{}, [])

  /** From consistent counters with nothing recorded yet, such as Start, and a chooser
      whose entries have a confidence in [minConfidence, 92]: every game is counted once,
      the counters stay consistent, and the history grows by one outcome per skip and by
      one to `levels` outcomes per entry. */
  lemma RoundsFromStart(choose: seq<Color> -> Game, minConfidence: real, levels: nat, n: nat, c: Counters, h: seq<Color>, draws: seq<real>)
    requires c.entries == 0 && c.skipped == 0 && c.wins == 0 && Consistent(c, minConfidence)
    requires Capped(choose, minConfidence)
    requires |h| + Budget(n, if levels >= 1 then levels else 1) <= |draws|
    ensures var g := Rounds(choose, levels, n, c, h, draws);
            && Consistent(g.0, minConfidence) && g.0.entries + g.0.skipped == n
            && (levels == 0 ==> g.0.wins == 0)
            && |h| + g.0.skipped + (if levels > 0 then g.0.entries else 0) <= |g.1|
            && |g.1| <= |h| + g.0.skipped + Budget(g.0.entries, levels)
  {
    RoundsGrowAtLeast(choose, levels, n, c, h, draws);
    RoundsGrowAtMost(choose, levels, n, c, h, draws);
    RoundsConsistent(choose, minConfidence, levels, n, c, h, draws);
  }

  /** The report of n rounds from the initial counters with a chooser whose entries
      have a confidence in [minConfidence, 92]: every game is counted once, the wins split over the levels, every
      recorded confidence lies in [minConfidence, 92], the rates are the ratios of the
      results dict (0 without entries) with the average confidence in the same range, and
      the history grows by one outcome per skip and by one to `levels` outcomes per
      entry. */
  lemma RoundsReport(choose: seq<Color> -> Game, minConfidence: real, levels: nat, n: nat, h: seq<Color>, draws: seq<real>)
    requires Capped(choose, minConfidence)
    requires |h| + Budget(n, if levels >= 1 then levels else 1) <= |draws|
    ensures var g := Rounds(choose, levels, n, Start, h, draws);
            && Consistent(g.0, minConfidence)
            && var r := Finish(g.0);
            && r.entries + r.skipped == n
            && r.wins + r.losses == r.entries
            && r.wins == r.winPrincipal + r.winMg1 + r.winMg2
            && |r.strategiesUsed| == r.entries && |r.confidenceLevels| == r.entries
            && (forall k :: 0 <= k < |r.confidenceLevels| ==> minConfidence <= r.confidenceLevels[k] <= 92.0)
            && (levels == 0 ==> r.wins == 0)
            && |h| + r.skipped + (if levels > 0 then r.entries else 0) <= |g.1|
            && |g.1| <= |h| + r.skipped + r.entries * levels
            && (r.entries > 0 ==>
                  r.winRate == r.wins as real / r.entries as real * 100.0 &&
                  r.principalRate == r.winPrincipal as real / r.entries as real * 100.0 &&
                  r.avgConfidence == Mean(r.confidenceLevels) &&
                  minConfidence <= r.avgConfidence <= 92.0)
            && (r.entries == 0 ==> r.winRate == 0.0 && r.principalRate == 0.0 && r.avgConfidence == 0.0)
  {
    assert Consistent(Start, minConfidence);
    RoundsFromStart(choose, minConfidence, levels, n, Start, h, draws);
    var c := Rounds(choose, levels, n, Start, h, draws).0;
    BudgetIsProduct(c.entries, levels);
    if c.entries > 0 {
      assert forall x :: x in c.confidenceLevels ==> minConfidence <= x <= 92.0;
      MeanBounds(c.confidenceLevels, minConfidence, 92.0);
    }
  }

  /** The rest of one pass of the while loop of simulate_with_martingale once the game g
      is chosen: a skip draws one outcome and counts the skip, an entry plays the ladder
      and records the prediction's strategy and confidence and the result. */
  method Settle(c: Counters, history: seq<Color>, draws: seq<real>, levels: nat, g: Game)
    returns (c': Counters, history': seq<Color>)
    requires Drawn(history, draws)
    requires |history| + (if levels >= 1 then levels else 1) <= |draws|
    ensures Drawn(history', draws)
    ensures g == SkipGame ==>
              c' == c.(skipped := c.skipped + 1) &&
              history' == history + [Generator.BlazeResult(draws[|history|])]
    ensures g.Enter? ==>
              var a := Ladder(g.prediction.pick, Outcomes(draws[|history|..|history| + levels]), levels);
              c' == Record(c, g.prediction, a) &&
              |history'| == |history| + Consumed(a, levels) &&
              history' == history + Outcomes(draws[|history|..|history'|])
  {
    if g == SkipGame {
      history' := DrawOne(draws, history);
      c' := c.(skipped := c.skipped + 1);
    } else {
      var a;
      a, history' := PlayNext(g.prediction.pick, draws, levels, history);
      c' := Record(c, g.prediction, a);
    }
  }

  /** One pass of the while loop of simulate_with_martingale: the chooser's decision on
      the history, then Settle. */
  method PlayGame(choose: seq<Color> -> Game, levels: nat, c: Counters, history: seq<Color>, draws: seq<real>)
    returns (c': Counters, history': seq<Color>)
    requires Drawn(history, draws)
    requires |history| + (if levels >= 1 then levels else 1) <= |draws|
    ensures (c', history') == Round(choose, levels, c, history, draws) && Drawn(history', draws)
  {
    var g := choose(history);
    c', history' := Settle(c, history, draws, levels, g);
  }

  /** The first of k rounds is one Round; the other k - 1 follow from where it leaves
      off. */
  lemma RoundsStep(choose: seq<Color> -> Game, levels: nat, k: nat, c: Counters, h: seq<Color>, draws: seq<real>)
    requires k > 0
    requires |h| + Budget(k, if levels >= 1 then levels else 1) <= |draws|
    ensures |h| + (if levels >= 1 then levels else 1) <= |draws|
    ensures var g := Round(choose, levels, c, h, draws);
            && |g.1| + Budget(k - 1, if levels >= 1 then levels else 1) <= |draws|
            && Rounds(choose, levels, k - 1, g.0, g.1, draws)
               == Rounds(choose, levels, k, c, h, draws)
  {
  }

  /** One pass of the loop of Run with k games left: the games still to play after it
      end where the k games from before it would. */
  method Advance(choose: seq<Color> -> Game, levels: nat, k: nat, c: Counters, history: seq<Color>, draws: seq<real>)
    returns (c': Counters, history': seq<Color>)
    requires k > 0 && Drawn(history, draws)
    requires Fits(levels, k, history, draws)
    ensures Drawn(history', draws) && Fits(levels, k - 1, history', draws)
    ensures Rounds(choose, levels, k - 1, c', history', draws)
            == Rounds(choose, levels, k, c, history, draws)
  {
    RoundsStep(choose, levels, k, c, history, draws);
    c', history' := PlayGame(choose, levels, c, history, draws);
  }

  /** The while loop of simulate_with_martingale over n games, from counters c0. */
  method Run(choose: seq<Color> -> Game, n: nat, levels: nat, c0: Counters, draws: seq<real>, history0: seq<Color>)
    returns (c: Counters, history: seq<Color>)
    requires Drawn(history0, draws)
    requires |history0| + Budget(n, if levels >= 1 then levels else 1) <= |draws|
    ensures (c, history) == Rounds(choose, levels, n, c0, history0, draws) && Drawn(history, draws)
  {
    history := history0;
    c := c0;
    var i: nat := 0;
    while i < n
      invariant i <= n
      invariant Fits(levels, n - i, history, draws)
      invariant Rounds(choose, levels, n - i, c, history, draws) == Rounds(choose, levels, n, c0, history0, draws)
      invariant Drawn(history, draws)
    {
      c, history := Advance(choose, levels, n - i, c, history, draws);
      i := i + 1;
    }
  }

  /** Size of the random initial history, generate_history(50). */
  const InitialHistory: nat := 50

  /** simulate_with_martingale with the stream of random draws as input: the first 50
      draws make the initial history, and the games are those of combined_strategy_v2
      with the minimum confidence. */
  method Simulate(nGames: int, maxMg: int, minConfidence: real, draws: seq<real>)
    returns (r: Report, history: seq<Color>)
    requires |draws| >= InitialHistory + Budget(if nGames < 0 then 0 else nGames, PerGame(maxMg))
    ensures var g := Rounds(ChoiceAt(minConfidence), Levels(maxMg), if nGames < 0 then 0 else nGames, Start,
                            Outcomes(draws[..InitialHistory]), draws);
              Consistent(g.0, minConfidence) && r == Finish(g.0) && history == g.1
    ensures r.entries + r.skipped == (if nGames < 0 then 0 else nGames)
    ensures r.wins + r.losses == r.entries
    ensures r.wins == r.winPrincipal + r.winMg1 + r.winMg2
    ensures |r.strategiesUsed| == r.entries && |r.confidenceLevels| == r.entries
    ensures forall k :: 0 <= k < |r.confidenceLevels| ==> minConfidence <= r.confidenceLevels[k] <= 92.0
    ensures Drawn(history, draws)
    ensures |history| <= InitialHistory + r.skipped + r.entries * Levels(maxMg)
    ensures |history| >= InitialHistory + r.skipped + (if maxMg >= 0 then r.entries else 0)
    ensures maxMg < 0 ==> r.wins == 0
    ensures r.entries > 0 ==>
              r.winRate == r.wins as real / r.entries as real * 100.0 &&
              r.principalRate == r.winPrincipal as real / r.entries as real * 100.0 &&
              r.avgConfidence == Mean(r.confidenceLevels) &&
              minConfidence <= r.avgConfidence <= 92.0
    ensures r.entries == 0 ==> r.winRate == 0.0 && r.principalRate == 0.0 && r.avgConfidence == 0.0
  {
    var n: nat := if nGames < 0 then 0 else nGames;
    var c;
    ChoiceAtCapped(minConfidence);
    c, history := Run(ChoiceAt(minConfidence), n, Levels(maxMg), Start, draws, Outcomes(draws[..InitialHistory]));
    RoundsReport(ChoiceAt(minConfidence), minConfidence, Levels(maxMg), n, Outcomes(draws[..InitialHistory]), draws);
    r := Finish(c);
  }
}
