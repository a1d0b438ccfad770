/** The prediction logic of the live server (backend/server.py): the five
    per-strategy heuristics, the optimised filter and vote (whose three
    strategies are, line for line, those of backend/backtest_final.py and are
    taken from module Final), the martingale ladder shown with a prediction,
    and the per-strategy performance record. Roll parsing is
    Generator.ParseBlazeColor. */
module LiveServer {
  import opened Hist
  import opened Voting
  import Final

  // ---------------------------------------------------------------------
  // The analyze_with_* heuristics. Each returns a colour and a confidence;
  // the human-readable reason text is not modelled.
  // ---------------------------------------------------------------------

  /** The answer of every heuristic on a history too short for it. */
  const TooShort: Signal := Signal(Bet(Red), 50.0)

  /** analyze_with_tendencia: the majority colour of the last 20 (black on a
      tie), 50 plus 2.5 per outcome of lead, capped at 85. */
  function Tendencia(h: seq<Color>): (s: Signal)
    ensures |h| < 10 ==> s == TooShort
    ensures IsColourBet(s.pick) && 50.0 <= s.conf <= 85.0
    ensures |h| >= 10 ==>
              (s.pick == Bet(Red) <==> Count(Last(h, 20), Red) > Count(Last(h, 20), Black))
    ensures |h| >= 10 ==>
              (s.conf == 50.0 <==> Count(Last(h, 20), Red) == Count(Last(h, 20), Black))
    ensures |h| >= 10 ==>
              (s.conf == 85.0 <==> AbsInt(Count(Last(h, 20), Red) - Count(Last(h, 20), Black)) >= 14)
  {
    if |h| < 10 then TooShort
    else
      var r, b := Count(Last(h, 20), Red), Count(Last(h, 20), Black);
      if r > b then Signal(Bet(Red), Min(50.0 + (r - b) as real * 2.5, 85.0))
      else Signal(Bet(Black), Min(50.0 + (b - r) as real * 2.5, 85.0))
  }

  /** analyze_with_reversao: after a run of four or more equal outcomes
      (white counts as a colour of the run) the opposite colour, 60 plus 8
      per extra outcome, capped at 90; otherwise a lean against the red
      count of the last 10. */
  function Reversao(h: seq<Color>): (s: Signal)
    ensures |h| < 5 ==> s == TooShort
    ensures IsColourBet(s.pick) && 50.0 <= s.conf <= 90.0
    ensures |h| >= 5 ==> (s.conf >= 60.0 <==> Streak(h) >= 4)
    ensures |h| >= 5 && Streak(h) >= 4 ==> s.pick == Bet(OppositeOf(h[|h| - 1]))
    ensures |h| >= 5 && Streak(h) >= 4 ==> (s.conf == 90.0 <==> Streak(h) >= 8)
    ensures |h| >= 5 && Streak(h) < 4 ==>
              s == (if Count(Last(h, 10), Red) > 5 then Signal(Bet(Black), 55.0)
                    else if Count(Last(h, 10), Red) < 5 then Signal(Bet(Red), 55.0)
                    else TooShort)
  {
    if |h| < 5 then TooShort
    else
      var streak := Streak(h);
      if streak >= 4 then
        Signal(Bet(OppositeOf(h[|h| - 1])), Min(60.0 + (streak - 4) as real * 8.0, 90.0))
      else
        var r := Count(Last(h, 10), Red);
        if r > 5 then Signal(Bet(Black), 55.0)
        else if r < 5 then Signal(Bet(Red), 55.0)
        else Signal(Bet(Red), 50.0)
  }

  /** analyze_with_reversao as written, with its streak loop. */
  method ComputeReversao(h: seq<Color>) returns (s: Signal)
    ensures s == Reversao(h)
  {
    if |h| < 5 {
      return TooShort;
    }
    var streak := CountStreak(h);
    if streak >= 4 {
      return Signal(Bet(OppositeOf(h[|h| - 1])), Min(60.0 + (streak - 4) as real * 8.0, 90.0));
    }
    var r := Count(Last(h, 10), Red);
    if r > 5 {
      s := Signal(Bet(Black), 55.0);
    } else if r < 5 {
      s := Signal(Bet(Red), 55.0);
    } else {
      s := Signal(Bet(Red), 50.0);
    }
  }

  /** The pattern_22 test: every complete pair (w[0], w[1]), (w[2], w[3]),
      ... is made of two equal outcomes. */
  predicate PairedUp(w: seq<Color>) {
    forall j :: 0 <= j && j + 1 < |w| && j % 2 == 0 ==> w[j] == w[j + 1]
  }

  /** The pattern_22 loop, which stops at the first unequal pair. */
  method CheckPairs(w: seq<Color>) returns (paired: bool)
    ensures paired == PairedUp(w)
  {
    paired := true;
    var i := 0;
    while i < |w| - 1
      invariant 0 <= i <= |w| && i % 2 == 0
      invariant forall j :: 0 <= j && j + 1 < i && j % 2 == 0 ==> w[j] == w[j + 1]
    {
      if w[i] != w[i + 1] {
        paired := false;
        return;
      }
      i := i + 2;
    }
  }

  /** analyze_with_alternancia: six or more changes among the last 8 bet on
      the opposite of the last outcome (70 or 75, as there are at most
      seven changes); otherwise a 2-2 pairing bets 65 on the last colour
      when the history has even length and on its opposite when odd. */
  function Alternancia(h: seq<Color>): (s: Signal)
    ensures |h| < 6 ==> s == TooShort
    ensures IsColourBet(s.pick) || s.pick == Bet(White)
    ensures s.conf in {50.0, 65.0, 70.0, 75.0}
    ensures |h| >= 6 ==> (s.conf >= 70.0 <==> Changes(Last(h, 8)) >= 6)
    ensures |h| >= 6 && Changes(Last(h, 8)) >= 6 ==> s.pick == Bet(OppositeOf(h[|h| - 1]))
    ensures |h| >= 6 && Changes(Last(h, 8)) < 6 ==>
              s == (if !PairedUp(Last(h, 8)) then TooShort
                    else if |h| % 2 == 0 then Signal(Bet(h[|h| - 1]), 65.0)
                    else Signal(Bet(OppositeOf(h[|h| - 1])), 65.0))
  {
    if |h| < 6 then TooShort
    else
      var w := Last(h, 8);
      var n := Changes(w);
      if n >= 6 then Signal(Bet(OppositeOf(h[|h| - 1])), Min(70.0 + (n - 6) as real * 5.0, 88.0))
      else if PairedUp(w) && |w| >= 4 then
        if |h| % 2 == 0 then Signal(Bet(h[|h| - 1]), 65.0)
        else Signal(Bet(OppositeOf(h[|h| - 1])), 65.0)
      else TooShort
  }

  /** analyze_with_alternancia as written, with the pattern_22 loop. */
  method ComputeAlternancia(h: seq<Color>) returns (s: Signal)
    ensures s == Alternancia(h)
  {
    if |h| < 6 {
      return TooShort;
    }
    var w := Last(h, 8);
    var n := Changes(w);
    if n >= 6 {
      return Signal(Bet(OppositeOf(h[|h| - 1])), Min(70.0 + (n - 6) as real * 5.0, 88.0));
    }
    var paired := CheckPairs(w);
    if paired && |w| >= 4 {
      if |h| % 2 == 0 {
        s := Signal(Bet(h[|h| - 1]), 65.0);
      } else {
        s := Signal(Bet(OppositeOf(h[|h| - 1])), 65.0);
      }
    } else {
      s := TooShort;
    }
  }

  /** The Fibonacci distances from the end of the history. */
  const FibPositions: seq<nat> := [1, 2, 3, 5, 8, 13, 21]

  /** fib_colors: the outcome at each distance that fits in the history, in
      the order of the distances. */
  function FibSample(h: seq<Color>, ps: seq<nat>): seq<Color> {
    if ps == [] then []
    else
      var p := ps[|ps| - 1];
      FibSample(h, ps[..|ps| - 1]) + (if 0 < p <= |h| then [h[|h| - p]] else [])
  }

  /** The fib_colors loop. */
  method CollectFibColours(h: seq<Color>) returns (fc: seq<Color>)
    ensures fc == FibSample(h, FibPositions)
  {
    fc := [];
    var i := 0;
    while i < |FibPositions|
      invariant 0 <= i <= |FibPositions|
      invariant fc == FibSample(h, FibPositions[..i])
    {
      var p := FibPositions[i];
      assert FibPositions[..i + 1][..i] == FibPositions[..i];
      if p <= |h| {
        fc := fc + [h[|h| - p]];
      }
      i := i + 1;
    }
    assert FibPositions[..i] == FibPositions;
  }

  /** Once the history reaches 21, every distance fits: fib_colors holds
      exactly the seven outcomes at distances 1, 2, 3, 5, 8, 13 and 21. */
  lemma FibSampleFull(h: seq<Color>)
    requires |h| >= 21
    ensures FibSample(h, FibPositions) ==
              [h[|h| - 1], h[|h| - 2], h[|h| - 3], h[|h| - 5], h[|h| - 8], h[|h| - 13], h[|h| - 21]]
  {
    FibSampleFits(h, FibPositions);
  }

  /** When every distance fits, fib_colors has one outcome per distance. */
  lemma {:induction false} FibSampleFits(h: seq<Color>, ps: seq<nat>)
    requires forall k :: 0 <= k < |ps| ==> 0 < ps[k] <= |h|
    ensures |FibSample(h, ps)| == |ps|
    ensures forall k :: 0 <= k < |ps| ==> FibSample(h, ps)[k] == h[|h| - ps[k]]
  {
    if ps != [] {
      var init, p := ps[..|ps| - 1], ps[|ps| - 1];
      assert forall k :: 0 <= k < |init| ==> init[k] == ps[k];
      FibSampleFits(h, init);
      var r := FibSample(h, init);
      assert FibSample(h, ps) == r + [h[|h| - p]];
      forall k | 0 <= k < |ps|
        ensures FibSample(h, ps)[k] == h[|h| - ps[k]]
      {
        if k < |init| {
          assert r[k] == h[|h| - init[k]];
        }
      }
    }
  }

  /** analyze_with_fibonacci: a lead of two or more at the Fibonacci
      distances bets on the leading colour with 60 plus 5 per outcome of
      lead (so at least 70), capped at 80; otherwise red at 52. */
  function Fibonacci(h: seq<Color>): (s: Signal)
    ensures |h| < 21 ==> s == TooShort
    ensures IsColourBet(s.pick) && 50.0 <= s.conf <= 80.0
    ensures |h| >= 21 ==>
              var f := FibSample(h, FibPositions);
              (s.pick == Bet(Red) && s.conf != 52.0 <==> Count(f, Red) > Count(f, Black) + 1) &&
              (s.pick == Bet(Black) <==> Count(f, Black) > Count(f, Red) + 1) &&
              (s.conf == 52.0 <==> Count(f, Red) <= Count(f, Black) + 1 && Count(f, Black) <= Count(f, Red) + 1) &&
              (s.conf != 52.0 ==> 70.0 <= s.conf)
  {
    if |h| < 21 then TooShort
    else
      var f := FibSample(h, FibPositions);
      var r, b := Count(f, Red), Count(f, Black);
      if r > b + 1 then Signal(Bet(Red), Min(60.0 + (r - b) as real * 5.0, 80.0))
      else if b > r + 1 then Signal(Bet(Black), Min(60.0 + (b - r) as real * 5.0, 80.0))
      else Signal(Bet(Red), 52.0)
  }

  /** analyze_with_fibonacci as written, with the fib_colors loop. */
  method ComputeFibonacci(h: seq<Color>) returns (s: Signal)
    ensures s == Fibonacci(h)
  {
    if |h| < 21 {
      return TooShort;
    }
    var f := CollectFibColours(h);
    var r, b := Count(f, Red), Count(f, Black);
    if r > b + 1 {
      s := Signal(Bet(Red), Min(60.0 + (r - b) as real * 5.0, 80.0));
    } else if b > r + 1 {
      s := Signal(Bet(Black), Min(60.0 + (b - r) as real * 5.0, 80.0));
    } else {
      s := Signal(Bet(Red), 52.0);
    }
  }

  /** How far the count of colour c falls short of 48.65% of the history
      (the negated red_deviation / black_deviation). */
  function Deficit(h: seq<Color>, c: Color): real {
    |h| as real * 0.4865 - Count(h, c) as real
  }

  /** analyze_with_estatistica: a colour more than 3 below its expected
      count is owed (55 plus 1.5 per outcome of shortfall, capped at 78);
      otherwise the red count of the last 30 is corrected at 62, and the
      rest bets 51 on the rarer colour overall. */
  function Estatistica(h: seq<Color>): (s: Signal)
    ensures |h| < 30 ==> s == TooShort
    ensures IsColourBet(s.pick) && 50.0 <= s.conf <= 78.0
    ensures |h| >= 30 && Deficit(h, Red) > 3.0 ==> s.pick == Bet(Red) && 59.5 < s.conf
    ensures |h| >= 30 && Deficit(h, Red) <= 3.0 && Deficit(h, Black) > 3.0 ==>
              s.pick == Bet(Black) && 59.5 < s.conf
    ensures |h| >= 30 && Deficit(h, Red) <= 3.0 && Deficit(h, Black) <= 3.0 ==>
              s == (if Count(Last(h, 30), Red) > 17 then Signal(Bet(Black), 62.0)
                    else if Count(Last(h, 30), Red) < 13 then Signal(Bet(Red), 62.0)
                    else if Count(h, Red) <= Count(h, Black) then Signal(Bet(Red), 51.0)
                    else Signal(Bet(Black), 51.0))
  {
    if |h| < 30 then TooShort
    else if Deficit(h, Red) > 3.0 then Signal(Bet(Red), Min(55.0 + Deficit(h, Red) * 1.5, 78.0))
    else if Deficit(h, Black) > 3.0 then Signal(Bet(Black), Min(55.0 + Deficit(h, Black) * 1.5, 78.0))
    else
      var recent := Count(Last(h, 30), Red);
      if recent > 17 then Signal(Bet(Black), 62.0)
      else if recent < 13 then Signal(Bet(Red), 62.0)
      else Signal(Bet(if Count(h, Red) <= Count(h, Black) then Red else Black), 51.0)
  }

  // ---------------------------------------------------------------------
  // The optimised prediction.
  // ---------------------------------------------------------------------

  /** optimized_filter: the veto list of advanced_filter without its final
      alternation test, with the reasons spelt with spaces. */
  function OptimizedFilter(h: seq<Color>): (v: Verdict)
    ensures |h| < 20 ==> v == Verdict(true, "histórico insuficiente")
    ensures !v.skip ==> v.reason == "ok"
    ensures !v.skip <==>
              |h| >= 20 && Count(Last(h, 20), White) < 2 && !Final.Balanced(h) &&
              Changes(Last(h, 20)) < 14 && NonWhiteStreak(h) < 6
  {
    if |h| < 20 then Verdict(true, "histórico insuficiente")
    else if Count(Last(h, 20), White) >= 2 then Verdict(true, "branco recente")
    else if Final.Balanced(h) then Verdict(true, "equilibrado")
    else if Changes(Last(h, 20)) >= 14 then Verdict(true, "caótico")
    else if NonWhiteStreak(h) >= 6 then Verdict(true, "sequência longa")
    else Verdict(false, "ok")
  }

  /** The reason of each veto, in priority order. */
  lemma OptimizedFilterReasons(h: seq<Color>)
    ensures var v := OptimizedFilter(h);
      (v.reason == "branco recente" <==> |h| >= 20 && Count(Last(h, 20), White) >= 2) &&
      (v.reason == "equilibrado" <==> |h| >= 20 && Count(Last(h, 20), White) < 2 && Final.Balanced(h)) &&
      (v.reason == "caótico" <==>
         |h| >= 20 && Count(Last(h, 20), White) < 2 && !Final.Balanced(h) && Changes(Last(h, 20)) >= 14) &&
      (v.reason == "sequência longa" <==>
         |h| >= 20 && Count(Last(h, 20), White) < 2 && !Final.Balanced(h) && Changes(Last(h, 20)) < 14 &&
         NonWhiteStreak(h) >= 6) &&
      (!v.skip <==> v.reason == "ok")
  {
  }

  /** optimized_filter as written, with its streak loop. */
  method ComputeOptimizedFilter(h: seq<Color>) returns (v: Verdict)
    ensures v == OptimizedFilter(h)
  {
    if |h| < 20 {
      return Verdict(true, "histórico insuficiente");
    }
    if Count(Last(h, 20), White) >= 2 {
      return Verdict(true, "branco recente");
    }
    if Final.Balanced(h) {
      return Verdict(true, "equilibrado");
    }
    if Changes(Last(h, 20)) >= 14 {
      return Verdict(true, "caótico");
    }
    var streak := CountNonWhiteStreak(h);
    if streak >= 6 {
      return Verdict(true, "sequência longa");
    }
    v := Verdict(false, "ok");
  }

  /** The backtest's advanced_filter vetoes exactly what optimized_filter
      vetoes plus the long alternations. */
  lemma FilterAgreesWithAdvanced(h: seq<Color>)
    ensures Final.AdvancedFilter(h).skip <==> OptimizedFilter(h).skip || Final.LongAlternation(h)
    ensures !OptimizedFilter(h).skip && Final.AdvancedFilter(h).skip ==>
              Final.AdvancedFilter(h).reason == "alternância"
  {
  }

  /** The dictionary get_optimized_prediction returns: should_enter, the
      colour, the confidence, the credited strategy (absent on the two
      fallbacks) and the reason. */
  datatype Prediction = Prediction(enter: bool, color: Color, conf: real,
                                   strategy: Option<string>, reason: string)

  function Fallback(reason: string): Prediction {
    Prediction(false, Red, 50.0, None, reason)
  }

  /** The decision of get_optimized_prediction after the vote, where wait is
      the filter's veto: it does not stop the vote, but every branch then
      has should_enter False. */
  function Predict(t: Tally, wait: bool): (p: Prediction)
    ensures wait ==> !p.enter
    ensures t.red + t.black == 0.0 ==> p == Fallback("sem_sinal")
    ensures t.red + t.black != 0.0 && t.red / (t.red + t.black) >= 0.70 ==>
              p.color == Red && p.conf <= 92.0 && p.enter == !wait &&
              p.reason == "consenso_alto_vermelho" && p.strategy == Some(t.best.name)
    ensures t.red + t.black != 0.0 && t.red / (t.red + t.black) <= 0.30 ==>
              p.color == Black && p.conf <= 92.0 && p.enter == !wait &&
              p.reason == "consenso_alto_preto" && p.strategy == Some(t.best.name)
    ensures t.red + t.black != 0.0 && 0.30 < t.red / (t.red + t.black) < 0.70 ==>
              p == (if t.best.conf >= 75.0 && t.best.pick.Bet?
                    then Prediction(!wait, t.best.pick.color, t.best.conf, Some(t.best.name), "melhor_estrategia")
                    else Fallback("consenso_baixo"))
  {
    var total := t.red + t.black;
    if total == 0.0 then Fallback("sem_sinal")
    else
      var ratio := t.red / total;
      var avg := if |t.confs| > 0 then Mean(t.confs) else 60.0;
      if ratio >= 0.70 then
        Prediction(!wait, Red, Min(avg + 5.0, 92.0), Some(t.best.name), "consenso_alto_vermelho")
      else if ratio <= 0.30 then
        Prediction(!wait, Black, Min(avg + 5.0, 92.0), Some(t.best.name), "consenso_alto_preto")
      else if t.best.conf >= 75.0 && t.best.pick.Bet? then
        Prediction(!wait, t.best.pick.color, t.best.conf, Some(t.best.name), "melhor_estrategia")
      else Fallback("consenso_baixo")
  }

  /** get_optimized_prediction: the optimised filter, then the vote of the
      three strategies of final_combined_strategy with the same weights and
      bar. A veto forbids entering; an entry is red or black with
      confidence in [65, 92]. */
  function OptimizedPrediction(h: seq<Color>): (p: Prediction)
    ensures OptimizedFilter(h).skip ==> !p.enter
    ensures p.enter ==> p.color != White && 65.0 <= p.conf <= 92.0
  {
    Final.VoteFacts(h);
    PredictBounds(Final.Vote(h), OptimizedFilter(h).skip);
    Predict(Final.Vote(h), OptimizedFilter(h).skip)
  }

  /** optimized_trend_strategy, optimized_reversal_strategy and
      optimized_pattern_strategy are, line for line, the trend, reversal and
      pattern strategies of backend/backtest_final.py, so the live vote runs
      on Final's signals. What the prediction relies on from each: the trend
      abstains below 40 outcomes and otherwise bets in [78, 90] on the side of
      its score; the reversal bets only after a non-white streak of four, on
      the colour opposite the last non-white outcome, at most 88; the pattern
      bets 78 on a 2-2 block, which is tested first, and 80 on a 3-3 block. */
  lemma OptimizedStrategies(h: seq<Color>)
    ensures var t := Final.FinalTrend(h);
      (|h| < 40 ==> t == Signal(Skip, 0.0)) &&
      (t.pick != Skip ==> IsColourBet(t.pick) && 78.0 <= t.conf <= 90.0) &&
      (t.pick == Bet(Red) ==> Final.TrendScore(h) >= 0.62) &&
      (t.pick == Bet(Black) ==> Final.TrendScore(h) <= 0.38)
    ensures var r := Final.FinalReversal(h);
      r.pick != Skip ==>
        NonWhiteStreak(h) >= 4 && |NonWhite(h)| > 0 &&
        r.pick == Bet(OppositeOf(NonWhite(h)[|NonWhite(h)| - 1])) && r.conf <= 88.0
    ensures var p, nw := Final.FinalPattern(h), Final.Recent(h);
      (p.pick != Skip ==> |nw| >= 8 && p.pick == Bet(OppositeOf(nw[|nw| - 1]))) &&
      (|h| >= 12 && |nw| >= 8 && Block22(nw[|nw| - 6..]) ==> p.conf == 78.0) &&
      (|h| >= 12 && |nw| >= 9 && !Block22(nw[|nw| - 6..]) && Block33(nw[|nw| - 9..]) ==> p.conf == 80.0)
  {
  }

  /** With no signal of at least 60 the answer is the 'sem_sinal' fallback,
      whatever the filter says. */
  lemma SilentPrediction(h: seq<Color>)
    requires !Eligible(Final.FinalTrend(h), Final.Bar) && !Eligible(Final.FinalReversal(h), Final.Bar) &&
             !Eligible(Final.FinalPattern(h), Final.Bar)
    ensures OptimizedPrediction(h) == Fallback("sem_sinal")
  {
    Final.Silent(h);
  }

  /** With the tally facts the vote guarantees, an entry is a colour in
      [65, 92]. */
  lemma PredictBounds(t: Tally, wait: bool)
    requires forall x :: x in t.confs ==> 60.0 <= x <= 90.0
    requires t.best.conf <= 90.0 && (t.red + t.black != 0.0 ==> |t.confs| > 0)
    requires t.best.conf > 0.0 ==> IsColourBet(t.best.pick)
    ensures var p := Predict(t, wait); p.enter ==> p.color != White && 65.0 <= p.conf <= 92.0
  {
    if |t.confs| > 0 {
      MeanBounds(t.confs, 60.0, 90.0);
    }
  }

  /** The server and the backtest decide alike on one tally: the server
      enters exactly when it is not told to wait and the backtest's decision
      enters, and then on the same colour, confidence and strategy. */
  lemma PredictMatchesDecide(t: Tally, wait: bool)
    ensures var p, d := Predict(t, wait), Final.Decide(t);
      (p.enter <==> !wait && d.enter) &&
      (p.enter ==> d.pick == Bet(p.color) && d.conf == p.conf && p.strategy == Some(d.strategy))
  {
  }

  /** Wherever the backtest's filter passes, the live prediction enters
      exactly when final_combined_strategy does, with the same colour,
      confidence and strategy; it can only enter more often, on the long
      alternations the live filter lets through. */
  lemma PredictionAgreesWithFinal(h: seq<Color>)
    ensures var p, d := OptimizedPrediction(h), Final.FinalCombined(h);
      (!Final.AdvancedFilter(h).skip ==>
         (p.enter <==> d.enter) &&
         (p.enter ==> d.pick == Bet(p.color) && d.conf == p.conf && p.strategy == Some(d.strategy))) &&
      (p.enter && !d.enter ==> Final.LongAlternation(h))
  {
    FilterAgreesWithAdvanced(h);
    PredictMatchesDecide(Final.Vote(h), OptimizedFilter(h).skip);
  }

  /** get_optimized_prediction as written: the filter, the reversal loop and
      the vote loop. */
  method GetOptimizedPrediction(h: seq<Color>) returns (p: Prediction)
    ensures p == OptimizedPrediction(h)
  {
    var v := ComputeOptimizedFilter(h);
    var reversal := Final.ComputeFinalReversal(h);
    var t := CastVotes(Final.Ballots(h, reversal), Final.Bar, Final.NoBest);
    p := Predict(t, v.skip);
  }

  // ---------------------------------------------------------------------
  // generate_martingale_levels, without the clock times and the display
  // rounding.
  // ---------------------------------------------------------------------

  /** 'Principal', 'kº Martingale' or 'Loss'. */
  datatype LevelName = Principal | Martingale(k: nat) | Loss

  datatype Level = Level(name: LevelName, probability: real, status: string)

  /** range(max_levels): no martingale rows for a negative count. */
  function Rounds(maxLevels: int): nat {
    if maxLevels < 0 then 0 else maxLevels
  }

  /** remaining_prob after i martingale rows: 100 - base, then 40% of it
      after the first row and 60% of what is left after each later one. */
  function Remaining(base: real, i: nat): real {
    if i == 0 then 100.0 - base
    else Remaining(base, i - 1) * (if i == 1 then 0.4 else 0.6)
  }

  /** The probability of martingale row i + 1 (counting from 0): 60% of the
      remainder for the first row, 40% for the others. */
  function MgProbability(base: real, i: nat): real {
    Remaining(base, i) * (if i == 0 then 0.6 else 0.4)
  }

  /** The probabilities of a list of rows, summed. */
  function TotalProbability(ls: seq<Level>): real {
    if ls == [] then 0.0 else TotalProbability(ls[..|ls| - 1]) + ls[|ls| - 1].probability
  }

  /** generate_martingale_levels: the principal row at the base confidence,
      one row per martingale, and the loss row with what remains; all
      pending, with probabilities that add up to 100. */
  method MartingaleLevels(base: real, maxLevels: int) returns (levels: seq<Level>)
    ensures |levels| == Rounds(maxLevels) + 2
    ensures forall k :: 0 <= k < |levels| ==> levels[k].status == "pending"
    ensures levels[0] == Level(Principal, base, "pending")
    ensures forall k :: 1 <= k <= Rounds(maxLevels) ==>
              levels[k] == Level(Martingale(k), MgProbability(base, k - 1), "pending")
    ensures levels[|levels| - 1] == Level(Loss, Remaining(base, Rounds(maxLevels)), "pending")
    ensures TotalProbability(levels) == 100.0
  {
    levels := [Level(Principal, base, "pending")];
    var remaining := 100.0 - base;
    var n := Rounds(maxLevels);
    var i := 0;
    assert TotalProbability(levels) == base by {
      assert levels[..0] == [];
    }
    while i < n
      invariant 0 <= i <= n && |levels| == i + 1
      invariant forall k :: 0 <= k < |levels| ==> levels[k].status == "pending"
      invariant levels[0] == Level(Principal, base, "pending")
      invariant forall k :: 1 <= k <= i ==> levels[k] == Level(Martingale(k), MgProbability(base, k - 1), "pending")
      invariant remaining == Remaining(base, i)
      invariant TotalProbability(levels) + remaining == 100.0
    {
      var mg := remaining * (if i == 0 then 0.6 else 0.4);
      remaining := remaining - mg;
      var row := Level(Martingale(i + 1), mg, "pending");
      assert (levels + [row])[..|levels|] == levels;
      levels := levels + [row];
      i := i + 1;
    }
    var loss := Level(Loss, remaining, "pending");
    assert (levels + [loss])[..|levels|] == levels;
    levels := levels + [loss];
  }

  /** With a base confidence between 0 and 100 every row's probability lies
      in [0, 100 - base], and each martingale after the first is 60% of the
      one before. */
  lemma {:induction false} RemainingBounds(base: real, i: nat)
    requires 0.0 <= base <= 100.0
    ensures 0.0 <= Remaining(base, i) <= 100.0 - base
    ensures 0.0 <= MgProbability(base, i) <= 100.0 - base
    ensures i >= 1 ==> MgProbability(base, i + 1) == MgProbability(base, i) * 0.6
  {
    if i > 0 {
      RemainingBounds(base, i - 1);
    }
  }

  // ---------------------------------------------------------------------
  // update_strategy_performance.
  // ---------------------------------------------------------------------

  /** One entry of perf["strategies"]: wins, losses, the signed streak
      (positive for wins, negative for losses) and last_loss_count. */
  datatype Record = Record(wins: nat, losses: nat, streak: int, lastLossCount: nat)

  /** The record every strategy starts with. */
  const Zero: Record := Record(0, 0, 0, 0)

  /** A record whose streak is backed by that many wins or losses. */
  predicate Coherent(r: Record) {
    (r.streak > 0 ==> r.wins >= r.streak) && (r.streak < 0 ==> r.losses >= -r.streak)
  }

  /** The record after one result: a win extends a winning streak or starts
      one at 1, a loss extends a losing streak or starts one at -1. */
  function Recorded(r: Record, won: bool): (r': Record)
    ensures won <==> r'.streak > 0
    ensures !won <==> r'.streak < 0
    ensures won ==> r'.wins == r.wins + 1 && r'.losses == r.losses && r'.lastLossCount == r.lastLossCount
    ensures !won ==> r'.wins == r.wins && r'.losses == r.losses + 1 && r'.lastLossCount == r.lastLossCount + 1
    ensures (won && r.streak > 0) || (!won && r.streak < 0) ==> AbsInt(r'.streak) == AbsInt(r.streak) + 1
    ensures (won && r.streak <= 0) || (!won && r.streak >= 0) ==> AbsInt(r'.streak) == 1
    ensures Coherent(r) ==> Coherent(r')
  {
    if won then Record(r.wins + 1, r.losses, (if r.streak > 0 then r.streak else 0) + 1, r.lastLossCount)
    else Record(r.wins, r.losses + 1, (if r.streak < 0 then r.streak else 0) - 1, r.lastLossCount + 1)
  }

  /** The record of a strategy after a sequence of results from Zero. */
  function Replay(results: seq<bool>): Record {
    if results == [] then Zero else Recorded(Replay(results[..|results| - 1]), results[|results| - 1])
  }

  /** The number of results equal to the last one at the end of the list. */
  function TrailingRun(results: seq<bool>): nat {
    if results == [] then 0
    else if |results| == 1 || results[|results| - 2] != results[|results| - 1] then 1
    else 1 + TrailingRun(results[..|results| - 1])
  }

  function Wins(results: seq<bool>): nat {
    multiset(results)[true]
  }

  /** What a record replayed from Zero means: wins and losses count the
      results, last_loss_count equals losses, and the streak is the length
      of the final run, positive for wins and negative for losses. */
  lemma {:induction false} ReplayMeaning(results: seq<bool>)
    ensures var r := Replay(results);
      r.wins == Wins(results) && r.wins + r.losses == |results| && r.lastLossCount == r.losses &&
      (results == [] ==> r.streak == 0) &&
      (results != [] && results[|results| - 1] ==> r.streak == TrailingRun(results)) &&
      (results != [] && !results[|results| - 1] ==> r.streak + TrailingRun(results) == 0)
  {
    if results != [] {
      var init := results[..|results| - 1];
      ReplayMeaning(init);
      assert results == init + [results[|results| - 1]];
      assert multiset(results) == multiset(init) + multiset{results[|results| - 1]};
    }
  }

  /** The performance document of one user: perf["strategies"] and
      perf["total_losses_streak"]. */
  class Performance {
    var strategies: map<string, Record>
    var totalLossesStreak: nat

    /** Every record is coherent. */
    predicate Valid()
      reads this
    {
      forall s :: s in strategies ==> Coherent(strategies[s])
    }

    /** The document of get_user_strategy_performance for a new user: a zero
        record for every strategy. */
    constructor(names: set<string>)
      ensures strategies == map s | s in names :: Zero
      ensures totalLossesStreak == 0
      ensures Valid()
    {
      strategies := map s | s in names :: Zero;
      totalLossesStreak := 0;
    }

    /** update_strategy_performance: an unknown strategy changes nothing;
        otherwise its record takes the result, and total_losses_streak is
        reset by a win and incremented by a loss. */
    method Update(strategy: string, won: bool)
      modifies this
      ensures strategy !in old(strategies) ==>
                strategies == old(strategies) && totalLossesStreak == old(totalLossesStreak)
      ensures strategy in old(strategies) ==>
                strategies == old(strategies)[strategy := Recorded(old(strategies)[strategy], won)] &&
                totalLossesStreak == (if won then 0 else old(totalLossesStreak) + 1)
      ensures old(Valid()) ==> Valid()
    {
      if strategy in strategies {
        strategies := strategies[strategy := Recorded(strategies[strategy], won)];
        if won {
          totalLossesStreak := 0;
        } else {
          totalLossesStreak := totalLossesStreak + 1;
        }
      }
    }
  }
}
