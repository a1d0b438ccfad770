/** The second backtesting variant (backend/backtest_v2.py): a veto filter,
    a confidence bonus, four "smart" heuristics, the high-consensus vote of
    ultra_combined_strategy and the simulation simulate_ultra_optimized. */
module BacktestV2 {
  import opened Hist
  import opened Voting
  import opened Martingale
  import Generator

  /** should_skip_entry: the first matching veto wins; SkipEntryReasons
      names the condition behind each reason. */
  function SkipEntry(h: seq<Color>): (v: Verdict)
    ensures |h| < 15 ==> v == Verdict(true, "histórico insuficiente")
    ensures !v.skip ==> v.reason == "ok"
    ensures !v.skip ==> |h| >= 15 && Count(Last(h, 15), White) <= 1 && ColourStreak(h) < 7
  {
    if |h| < 15 then Verdict(true, "histórico insuficiente")
    else
      var last15 := Last(h, 15);
      if Count(last15, White) >= 2 then Verdict(true, "muito branco recente")
      else if AbsInt(Count(last15, Red) - Count(last15, Black)) <= 2 then Verdict(true, "sem tendência clara")
      else if Changes(last15) >= 11 then Verdict(true, "padrão caótico")
      else if ColourStreak(h) >= 7 then Verdict(true, "sequência muito longa")
      else Verdict(false, "ok")
  }

  /** The reason of each veto, in priority order, and "ok" exactly when no
      veto applies. */
  lemma SkipEntryReasons(h: seq<Color>)
    ensures var v := SkipEntry(h);
      var l15 := Last(h, 15);
      (v.reason == "muito branco recente" <==> |h| >= 15 && Count(l15, White) >= 2) &&
      (v.reason == "sem tendência clara" <==>
         |h| >= 15 && Count(l15, White) < 2 && AbsInt(Count(l15, Red) - Count(l15, Black)) <= 2) &&
      (v.reason == "padrão caótico" <==>
         |h| >= 15 && Count(l15, White) < 2 && AbsInt(Count(l15, Red) - Count(l15, Black)) > 2 &&
         Changes(l15) >= 11) &&
      (v.reason == "sequência muito longa" <==>
         |h| >= 15 && Count(l15, White) < 2 && AbsInt(Count(l15, Red) - Count(l15, Black)) > 2 &&
         Changes(l15) < 11 && ColourStreak(h) >= 7) &&
      (!v.skip <==> v.reason == "ok")
  {
  }

  /** should_skip_entry as written, with its streak loop. */
  method ShouldSkipEntry(h: seq<Color>) returns (v: Verdict)
    ensures v == SkipEntry(h)
  {
    if |h| < 15 {
      return Verdict(true, "histórico insuficiente");
    }
    var last15 := Last(h, 15);
    if Count(last15, White) >= 2 {
      return Verdict(true, "muito branco recente");
    }
    if AbsInt(Count(last15, Red) - Count(last15, Black)) <= 2 {
      return Verdict(true, "sem tendência clara");
    }
    if Changes(last15) >= 11 {
      return Verdict(true, "padrão caótico");
    }
    var streak := CountColourStreak(h);
    if streak >= 7 {
      return Verdict(true, "sequência muito longa");
    }
    v := Verdict(false, "ok");
  }

  /** A history the filter lets through has at least 14 non-white outcomes
      among its last 30, so the division of the statistical strategy is safe. */
  lemma PassedHasColours(h: seq<Color>)
    requires !SkipEntry(h).skip
    ensures |NonWhite(Last(h, 30))| >= 14 && EdgeDefined(h)
  {
    var l15 := Last(h, 15);
    CountTotal(l15);
    WindowCounts(h, 15, 30, Red);
    WindowCounts(h, 15, 30, Black);
  }

  /** The three parts of calculate_confidence_bonus for a bet on colour c. */
  predicate TrendBonus(h: seq<Color>, c: Color)
    requires |h| >= 20
  {
    var red20 := Count(Last(h, 20), Red);
    (c == Red && red20 >= 12) || (c == Black && red20 <= 8)
  }

  predicate MomentumBonus(h: seq<Color>, c: Color)
    requires |h| >= 20
  {
    var red5 := Count(Last(h, 5), Red);
    (c == Red && red5 >= 4) || (c == Black && red5 <= 1)
  }

  predicate ReversalBonus(h: seq<Color>, c: Color)
    requires |h| >= 20
  {
    var l5 := Last(h, 5);
    l5[0] == l5[1] == l5[2] && c != l5[0]
  }

  /** calculate_confidence_bonus: a sum of the bonuses 5, 3 and 4, so one of
      0, 3, 4, 5, 7, 8, 9 and 12. */
  function Bonus(h: seq<Color>, c: Color): (b: real)
    ensures |h| < 20 ==> b == 0.0
    ensures b in {0.0, 3.0, 4.0, 5.0, 7.0, 8.0, 9.0, 12.0}
    ensures 0.0 <= b <= 12.0
    ensures |h| >= 20 ==> (b >= 5.0 && b != 7.0 <==> TrendBonus(h, c))
  {
    if |h| < 20 then 0.0
    else
      (if TrendBonus(h, c) then 5.0 else 0.0) +
      (if MomentumBonus(h, c) then 3.0 else 0.0) +
      (if ReversalBonus(h, c) then 4.0 else 0.0)
  }

  /** calculate_confidence_bonus as written: bonus starts at 0 and grows. */
  method ConfidenceBonus(h: seq<Color>, c: Color) returns (bonus: real)
    ensures bonus == Bonus(h, c)
  {
    if |h| < 20 {
      return 0.0;
    }
    bonus := 0.0;
    var red20 := Count(Last(h, 20), Red);
    if (c == Red && red20 >= 12) || (c == Black && red20 <= 8) {
      bonus := bonus + 5.0;
    }
    var red5 := Count(Last(h, 5), Red);
    if (c == Red && red5 >= 4) || (c == Black && red5 <= 1) {
      bonus := bonus + 3.0;
    }
    var l5 := Last(h, 5);
    if l5[0] == l5[1] == l5[2] && c != l5[0] {
      bonus := bonus + 4.0;
    }
  }

  /** The red share of window n of h, over all n outcomes (white included). */
  function Share(h: seq<Color>, n: nat): (r: real)
    requires 0 < n <= |h|
    ensures 0.0 <= r <= 1.0
  {
    CountBound(Last(h, n), Red);
    FractionBounds(Count(Last(h, n), Red), n);
    Count(Last(h, n), Red) as real / n as real
  }

  /** The weighted red score of strategy_smart_trend over the windows 5, 10,
      20 and 30. */
  function SmartScore(h: seq<Color>): (s: real)
    requires |h| >= 30
    ensures 0.0 <= s <= 1.0
  {
    Share(h, 5) * 0.35 + Share(h, 10) * 0.30 + Share(h, 20) * 0.20 + Share(h, 30) * 0.15
  }

  /** strategy_smart_trend: a score of at least 0.58 bets red, at most 0.42
      bets black, with confidence between 69.6 and 88; otherwise 52. */
  function SmartTrend(h: seq<Color>): (s: Signal)
    ensures IsColourBet(s.pick) && 50.0 <= s.conf <= 88.0
    ensures |h| < 30 ==> s == Signal(Bet(Red), 50.0)
    ensures |h| >= 30 ==> s.conf == 52.0 || 69.6 <= s.conf
    ensures |h| >= 30 && s.conf > 52.0 ==>
              (s.pick == Bet(Red) ==> SmartScore(h) >= 0.58) && (s.pick == Bet(Black) ==> SmartScore(h) <= 0.42)
    ensures |h| >= 30 && s.conf == 52.0 ==> 0.42 < SmartScore(h) < 0.58
  {
    if |h| < 30 then Signal(Bet(Red), 50.0)
    else
      var score := SmartScore(h);
      if score >= 0.58 then Signal(Bet(Red), Min(60.0 + (score - 0.5) * 120.0, 88.0))
      else if score <= 0.42 then Signal(Bet(Black), Min(60.0 + (0.5 - score) * 120.0, 88.0))
      else Signal(Bet(if score >= 0.5 then Red else Black), 52.0)
  }

  /** confidence_map.get(streak, 80). */
  function ReversalBase(streak: nat): (c: real)
    ensures 62.0 <= c <= 80.0
  {
    if streak == 4 then 62.0
    else if streak == 5 then 68.0
    else if streak == 6 then 74.0
    else if streak == 7 then 78.0
    else 80.0
  }

  /** The owed-colour test of strategy_smart_reversal: the opposite colour is
      under 35% of the last 30. */
  predicate Owed(h: seq<Color>, opposite: Color) {
    var l30 := Last(h, 30);
    Count(l30, opposite) as real < |l30| as real * 0.35
  }

  /** strategy_smart_reversal: after a run of at least four, bet on the
      opposite colour with the mapped confidence, plus 5 when it is owed. The
      cap at 85 never binds, since the map tops out at 80. */
  function SmartReversal(h: seq<Color>): (s: Signal)
    ensures IsColourBet(s.pick) && 50.0 <= s.conf <= 85.0
    ensures |h| < 8 ==> s == Signal(Bet(Red), 50.0)
    ensures |h| >= 8 && h[|h| - 1] == White ==> s == Signal(Bet(Red), 52.0)
    ensures s.conf >= 62.0 <==> |h| >= 8 && h[|h| - 1] != White && ColourStreak(h) >= 4
    ensures s.conf >= 62.0 ==>
              s.pick == Bet(OppositeOf(h[|h| - 1])) &&
              s.conf == ReversalBase(ColourStreak(h)) + (if Owed(h, OppositeOf(h[|h| - 1])) then 5.0 else 0.0)
  {
    if |h| < 8 then Signal(Bet(Red), 50.0)
    else
      var last := h[|h| - 1];
      if last == White then Signal(Bet(Red), 52.0)
      else
        var streak := ColourStreak(h);
        if streak >= 4 then
          var opposite := OppositeOf(last);
          var conf := ReversalBase(streak) + (if Owed(h, opposite) then 5.0 else 0.0);
          Signal(Bet(opposite), Min(conf, 85.0))
        else Signal(Bet(Red), 50.0)
  }

  /** strategy_smart_reversal as written, with its streak loop. */
  method ComputeSmartReversal(h: seq<Color>) returns (s: Signal)
    ensures s == SmartReversal(h)
  {
    if |h| < 8 {
      return Signal(Bet(Red), 50.0);
    }
    var last := h[|h| - 1];
    if last == White {
      return Signal(Bet(Red), 52.0);
    }
    var streak := CountColourStreak(h);
    if streak >= 4 {
      var opposite := OppositeOf(last);
      var conf := ReversalBase(streak);
      var l30 := Last(h, 30);
      if (Count(l30, opposite) as real) < |l30| as real * 0.35 {
        conf := conf + 5.0;
      }
      s := Signal(Bet(opposite), Min(conf, 85.0));
    } else {
      s := Signal(Bet(Red), 50.0);
    }
  }

  /** The AABBCC test of strategy_pattern_recognition over the non-white
      outcomes among the last six. */
  predicate TwoTwoTwo(h: seq<Color>) {
    var c := NonWhite(Last(h, 6));
    |c| >= 6 && Block22(c)
  }

  /** The perfect-alternation test over the non-white outcomes among the last
      eight. */
  predicate Alternation(h: seq<Color>) {
    var c := NonWhite(Last(h, 8));
    |c| >= 6 && Alternates(c)
  }

  /** strategy_pattern_recognition: AABBCC (75), alternation (70), extreme
      dominance of the last 12 (68), in that order. */
  function PatternRecognition(h: seq<Color>): (s: Signal)
    ensures IsColourBet(s.pick)
    ensures s.conf == 50.0 || s.conf == 68.0 || s.conf == 70.0 || s.conf == 75.0
    ensures |h| < 12 ==> s == Signal(Bet(Red), 50.0)
    ensures s.conf == 75.0 <==> |h| >= 12 && TwoTwoTwo(h)
    ensures s.conf == 75.0 ==> s.pick == Bet(OppositeOf(h[|h| - 1]))
    ensures s.conf == 70.0 <==> |h| >= 12 && !TwoTwoTwo(h) && Alternation(h)
    ensures s.conf == 70.0 ==>
              var c := NonWhite(Last(h, 8)); s.pick == Bet(OppositeOf(c[|c| - 1]))
    ensures s.conf == 68.0 ==>
              (s.pick == Bet(Black) <==> Count(Last(h, 12), Red) >= 9) &&
              (s.pick == Bet(Red) <==> Count(Last(h, 12), Red) <= 3)
  {
    if |h| < 12 then Signal(Bet(Red), 50.0)
    else if TwoTwoTwo(h) then Pairs(h)
    else if Alternation(h) then Alternating(h)
    else Dominance(Count(Last(h, 12), Red))
  }

  /** The AABBCC branch: the colour that continues the pattern, which is
      the opposite of the last outcome, at 75. */
  function Pairs(h: seq<Color>): (s: Signal)
    requires |h| >= 6 && TwoTwoTwo(h)
    ensures s == Signal(Bet(OppositeOf(h[|h| - 1])), 75.0) && IsColourBet(s.pick)
  {
    var c := NonWhite(Last(h, 6));
    LastSixColours(h);
    Signal(Bet(NextAfter(c[4])), 75.0)
  }

  /** The alternation branch: the opposite of the last non-white outcome
      among the last eight, at 70. */
  function Alternating(h: seq<Color>): (s: Signal)
    requires Alternation(h)
    ensures var c := NonWhite(Last(h, 8));
      s == Signal(Bet(OppositeOf(c[|c| - 1])), 70.0) && IsColourBet(s.pick)
  {
    var c := NonWhite(Last(h, 8));
    Signal(Bet(OppositeOf(c[|c| - 1])), 70.0)
  }

  /** The last branch of strategy_pattern_recognition: nine or more reds
      among the last 12 call black, three or fewer call red, both at 68. */
  function Dominance(red12: nat): (s: Signal)
    ensures IsColourBet(s.pick) && (s.conf == 50.0 || s.conf == 68.0)
    ensures s.conf == 68.0 <==> red12 >= 9 || red12 <= 3
    ensures s.conf == 68.0 ==> (s.pick == Bet(Black) <==> red12 >= 9) && (s.pick == Bet(Red) <==> red12 <= 3)
  {
    if red12 >= 9 then Signal(Bet(Black), 68.0)
    else if red12 <= 3 then Signal(Bet(Red), 68.0)
    else Signal(Bet(Red), 50.0)
  }

  /** When the last six hold six colours they are the last six outcomes, so
      the AABBCC continuation is the opposite of the last outcome. */
  lemma LastSixColours(h: seq<Color>)
    requires |h| >= 6 && TwoTwoTwo(h)
    ensures NextAfter(NonWhite(Last(h, 6))[4]) == OppositeOf(h[|h| - 1])
  {
    var l6 := Last(h, 6);
    NonWhiteOfColours(l6);
    assert l6[5] == h[|h| - 1];
  }

  /** The z-test of strategy_statistical_edge: |deviation| > 2 * sqrt(expected
      * 0.5), written without the square root as deviation^2 > 2 * expected
      (both sides are non-negative). */
  predicate ZFires(h: seq<Color>) {
    var rc, bc := Count(h, Red), Count(h, Black);
    var expected := (rc + bc) as real / 2.0;
    var dev := rc as real - expected;
    dev * dev > 2.0 * expected
  }

  /** strategy_statistical_edge: for at least 50 outcomes, a significant
      deviation is corrected (65); otherwise a recent red share more than 0.1
      away from the overall share is corrected (62). The share of the last 30
      divides by their non-white count, which must not be zero. */
  function StatisticalEdge(h: seq<Color>): (s: Signal)
    requires EdgeDefined(h)
    ensures IsColourBet(s.pick) && s.conf in {50.0, 62.0, 65.0}
    ensures |h| < 50 ==> s == Signal(Bet(Red), 50.0)
    ensures s.conf == 65.0 <==> |h| >= 50 && ZFires(h)
    ensures s.conf == 65.0 ==>
              (s.pick == Bet(Black) <==> Count(h, Red) > Count(h, Black))
  {
    if |h| < 50 then Signal(Bet(Red), 50.0)
    else
      var rc, bc := Count(h, Red), Count(h, Black);
      CountTotal(h);
      var expected := (|h| - Count(h, White)) as real / 2.0;
      var redDev := rc as real - expected;
      if ZFires(h) then
        if redDev > 0.0 then Signal(Bet(Black), 65.0) else Signal(Bet(Red), 65.0)
      else
        var recent := Last(h, 30);
        var pctRecent := Count(recent, Red) as real / |NonWhite(recent)| as real;
        var pctTotal := if rc + bc > 0 then rc as real / (rc + bc) as real else 0.5;
        if pctRecent > pctTotal + 0.1 then Signal(Bet(Black), 62.0)
        else if pctRecent < pctTotal - 0.1 then Signal(Bet(Red), 62.0)
        else Signal(Bet(Red), 50.0)
  }

  /** The strategies dict of ultra_combined_strategy with the weights 1.0,
      1.5, 1.8 and 1.2. */
  function Ballots(h: seq<Color>, reversal: Signal): seq<Ballot>
    requires EdgeDefined(h)
  {
    [Ballot("smart_trend", SmartTrend(h), 1.0),
     Ballot("smart_reversal", reversal, 1.5),
     Ballot("pattern", PatternRecognition(h), 1.8),
     Ballot("statistical", StatisticalEdge(h), 1.2)]
  }

  /** Where strategy_statistical_edge does not divide by zero. */
  predicate EdgeDefined(h: seq<Color>) {
    |h| < 50 || ZFires(h) || |NonWhite(Last(h, 30))| > 0
  }

  /** Only red or black signals with confidence above 55 vote. */
  const Bar: Threshold := Above(55.0)

  const NoBest: Best := Best(Skip, 0.0, "combined")

  function Vote(h: seq<Color>): Tally
    requires EdgeDefined(h)
  {
    Fold(Ballots(h, SmartReversal(h)), Bar, NoBest)
  }

  /** A skipped decision. */
  function Skipped(reason: string): Decision {
    Decision(Skip, 0.0, reason, false)
  }

  /** The decision after the vote, given the bonus for each colour: a red
      share of at least 0.65 bets red on the mean red confidence plus the red
      bonus, at most 0.35 the same for black; in between only a best signal of
      at least 70 is taken; below 65 nothing is entered. */
  function Decide(t: Tally, redBonus: real, blackBonus: real): (d: Decision)
    ensures t.red + t.black == 0.0 ==> d == Skipped("sem_consenso")
    ensures !d.enter ==> d.pick == Skip && d.conf == 0.0
    ensures d.enter ==> d.pick.Bet? && 65.0 <= d.conf && d.strategy == t.best.name
    ensures d.enter ==> d.conf <= 92.0 || d.conf == t.best.conf
    ensures t.red + t.black != 0.0 && t.red / (t.red + t.black) >= 0.65 ==>
              d.pick == Bet(Red) || d == Skipped("confianca_baixa")
    ensures t.red + t.black != 0.0 && t.red / (t.red + t.black) <= 0.35 ==>
              d.pick == Bet(Black) || d == Skipped("confianca_baixa")
    ensures t.red + t.black != 0.0 && 0.35 < t.red / (t.red + t.black) < 0.65 && d.enter ==>
              d.pick == t.best.pick && d.conf == t.best.conf && d.conf >= 70.0
  {
    var total := t.red + t.black;
    if total == 0.0 then Skipped("sem_consenso")
    else
      var ratio := t.red / total;
      var chosen :=
        if ratio >= 0.65 then
          var avg := if |t.redConfs| > 0 then Mean(t.redConfs) else 60.0;
          Some((Red, Min(avg + redBonus, 92.0)))
        else if ratio <= 0.35 then
          var avg := if |t.blackConfs| > 0 then Mean(t.blackConfs) else 60.0;
          Some((Black, Min(avg + blackBonus, 92.0)))
        else if t.best.conf >= 70.0 && t.best.pick.Bet? then
          Some((t.best.pick.color, t.best.conf))
        else None;
      match chosen
      case None => Skipped("baixo_consenso")
      case Some(pair) =>
        if pair.1 < 65.0 then Skipped("confianca_baixa")
        else Decision(Bet(pair.0), pair.1, t.best.name, true)
  }

  /** ultra_combined_strategy: nothing is entered when the filter vetoes;
      an entry is a colour with confidence in [65, 92]. */
  function UltraCombined(h: seq<Color>): (d: Decision)
    ensures SkipEntry(h).skip ==> d == Skipped(SkipEntry(h).reason)
    ensures d.enter ==> IsColourBet(d.pick) && 65.0 <= d.conf <= 92.0
    ensures !d.enter ==> d.pick == Skip && d.conf == 0.0
  {
    var v := SkipEntry(h);
    if v.skip then Skipped(v.reason) else Voted(h)
  }

  /** The decision of the vote for a history the filter lets through. */
  function Voted(h: seq<Color>): (d: Decision)
    requires !SkipEntry(h).skip
    ensures d.enter ==> IsColourBet(d.pick) && 65.0 <= d.conf <= 92.0
    ensures !d.enter ==> d.pick == Skip && d.conf == 0.0
  {
    PassedHasColours(h);
    VoteBounds(h);
    Decide(Vote(h), Bonus(h, Red), Bonus(h, Black))
  }

  /** No strategy of the dict reports a confidence above 88. */
  lemma BallotsBounded(h: seq<Color>)
    requires EdgeDefined(h)
    ensures forall k :: 0 <= k < |Ballots(h, SmartReversal(h))| ==>
              Ballots(h, SmartReversal(h))[k].signal.conf <= 88.0
  {
    var bs := Ballots(h, SmartReversal(h));
    forall k | 0 <= k < |bs| ensures bs[k].signal.conf <= 88.0 {
      var confs := [SmartTrend(h).conf, SmartReversal(h).conf, PatternRecognition(h).conf, StatisticalEdge(h).conf];
      assert bs[k].signal.conf == confs[k];
    }
  }

  /** Every collected confidence lies in (55, 88], and so does the best
      record unless it is still the placeholder. */
  lemma VoteBounds(h: seq<Color>)
    requires EdgeDefined(h)
    ensures var t := Vote(h);
      (forall x :: x in t.confs ==> 55.0 <= x <= 88.0) && t.best.conf <= 88.0
  {
    BallotsBounded(h);
    FoldConfidenceBounds(Ballots(h, SmartReversal(h)), Bar, NoBest, 55.0, 88.0);
  }

  /** ultra_combined_strategy as written: the filter, the reversal loop, the
      vote loop and the bonus. */
  method UltraCombinedStrategy(h: seq<Color>) returns (d: Decision)
    ensures d == UltraCombined(h)
  {
    var v := ShouldSkipEntry(h);
    if v.skip {
      return Skipped(v.reason);
    }
    PassedHasColours(h);
    var reversal := ComputeSmartReversal(h);
    var t := CastVotes(Ballots(h, reversal), Bar, NoBest);
    var redBonus := ConfidenceBonus(h, Red);
    var blackBonus := ConfidenceBonus(h, Black);
    d := Decide(t, redBonus, blackBonus);
  }

  /** The results dict of simulate_ultra_optimized; the rates exist only when
      there were entries. */
  datatype Report = Report(
    entries: nat, wins: nat, losses: nat,
    winPrincipal: nat, winMg1: nat, winMg2: nat, winMg3: nat, skipped: nat,
    skipReasons: multiset<string>, strategies: multiset<string>,
    winRate: Option<real>, principalRate: Option<real>)

  datatype Counters = Counters(
    entries: nat, wins: nat, losses: nat,
    winPrincipal: nat, winMg1: nat, winMg2: nat, winMg3: nat, skipped: nat,
    skipReasons: multiset<string>, strategies: multiset<string>)

  predicate Consistent(c: Counters) {
    c.wins + c.losses == c.entries &&
    c.wins == c.winPrincipal + c.winMg1 + c.winMg2 + c.winMg3 &&
    |c.skipReasons| == c.skipped && |c.strategies| == c.entries
  }

  /** The counters after a skipped game. */
  function RecordSkip(c: Counters, reason: string): (c': Counters)
    ensures Consistent(c) ==> Consistent(c')
    ensures c'.skipped == c.skipped + 1 && c'.entries == c.entries && c'.wins == c.wins
    ensures c'.skipReasons == c.skipReasons + multiset{reason}
  {
    c.(skipped := c.skipped + 1, skipReasons := c.skipReasons + multiset{reason})
  }

  /** The counters after an entry credited to strategy that ended as a. */
  function RecordEntry(c: Counters, strategy: string, a: Attempt): (c': Counters)
    ensures Consistent(c) ==> Consistent(c')
    ensures c'.entries == c.entries + 1 && c'.skipped == c.skipped
    ensures c'.wins == c.wins + (if a.Won? then 1 else 0)
    ensures c'.strategies == c.strategies + multiset{strategy} && c'.skipReasons == c.skipReasons
  {
    var c1 := c.(entries := c.entries + 1, strategies := c.strategies + multiset{strategy});
    match a
    case Lost => c1.(losses := c.losses + 1)
    case Won(0) => c1.(wins := c.wins + 1, winPrincipal := c.winPrincipal + 1)
    case Won(1) => c1.(wins := c.wins + 1, winMg1 := c.winMg1 + 1)
    case Won(2) => c1.(wins := c.wins + 1, winMg2 := c.winMg2 + 1)
    case Won(_) => c1.(wins := c.wins + 1, winMg3 := c.winMg3 + 1)
  }

  function Finish(c: Counters): Report {
    Report(c.entries, c.wins, c.losses, c.winPrincipal, c.winMg1, c.winMg2, c.winMg3, c.skipped,
           c.skipReasons, c.strategies,
           if c.entries > 0 then Some(c.wins as real / c.entries as real * 100.0) else None,
           if c.entries > 0 then Some(c.winPrincipal as real / c.entries as real * 100.0) else None)
  }

  /** The rates of a report are percentages of the entries, and absent without entries. */
  lemma FinishRates(c: Counters, r: Report)
    requires r == Finish(c)
    ensures r.entries > 0 ==>
              r.winRate == Some(r.wins as real / r.entries as real * 100.0) &&
              r.principalRate == Some(r.winPrincipal as real / r.entries as real * 100.0)
    ensures r.entries == 0 ==> r.winRate == None && r.principalRate == None
  {
  }

  /** The decision the simulation acts on for a history. */
  function Choice(h: seq<Color>): Decision
  {
    UltraCombined(h)
  }

  /** The rest of one pass of the while loop of simulate_ultra_optimized once
      the decision d is taken: a skip draws one outcome and records its
      reason, an entry plays the ladder and records its strategy and result. */
  method Settle(c: Counters, history: seq<Color>, draws: seq<real>, levels: nat, d: Decision)
    returns (c': Counters, history': seq<Color>)
    requires Drawn(history, draws)
    requires |history| + (if levels >= 1 then levels else 1) <= |draws|
    ensures Drawn(history', draws)
    ensures !d.enter ==>
              c' == RecordSkip(c, d.strategy) &&
              history' == history + [Generator.BlazeResult(draws[|history|])]
    ensures d.enter ==>
              var a := Ladder(d.pick, Outcomes(draws[|history|..|history| + levels]), levels);
              c' == RecordEntry(c, d.strategy, a) &&
              |history'| == |history| + Consumed(a, levels) &&
              history' == history + Outcomes(draws[|history|..|history'|])
  {
    if !d.enter {
      history' := DrawOne(draws, history);
      c' := RecordSkip(c, d.strategy);
    } else {
      var a;
      a, history' := PlayNext(d.pick, draws, levels, history);
      c' := RecordEntry(c, d.strategy, a);
    }
  }

  /** One game of the loop of simulate_ultra_optimized as a function of the strategy, the
      number of ladder levels, the counters, the history so far and the stream of draws:
      the strategy decides on the history; a skip draws one outcome and records its
      reason, an entry plays the ladder on the next draws and records its strategy and
      result. */
  function Game(strategy: seq<Color> -> Decision, levels: nat, c: Counters, h: seq<Color>, draws: seq<real>)
    : (g: (Counters, seq<Color>))
    requires |h| + (if levels >= 1 then levels else 1) <= |draws|
    ensures |h| <= |g.1| <= |h| + (if levels >= 1 then levels else 1) && g.1[..|h|] == h
  {
    var d := strategy(h);
    if !d.enter then (RecordSkip(c, d.strategy), h + [Generator.BlazeResult(draws[|h|])])
    else
      var outs := Outcomes(draws[|h|..|h| + levels]);
      var a := Ladder(d.pick, outs, levels);
      (RecordEntry(c, d.strategy, a), h + Outcomes(draws[|h|..|h| + Consumed(a, levels)]))
  }

  /** A game is either a skip, which draws one outcome, or an entry, which draws one
      outcome per level played and no more than `levels`; without levels nothing is won;
      and a game keeps the counters consistent. */
  lemma GameShape(strategy: seq<Color> -> Decision, levels: nat, c: Counters, h: seq<Color>, draws: seq<real>)
    requires |h| + (if levels >= 1 then levels else 1) <= |draws|
    ensures var g := Game(strategy, levels, c, h, draws);
            && (levels == 0 ==> g.0.wins == c.wins)
            && (Consistent(c) ==> Consistent(g.0))
            && (|| (g.0.entries == c.entries && g.0.skipped == c.skipped + 1 && |g.1| == |h| + 1)
                || (g.0.entries == c.entries + 1 && g.0.skipped == c.skipped &&
                    |h| + (if levels > 0 then 1 else 0) <= |g.1| <= |h| + levels))
  {
  }

  /** n games played one after the other from counters c and history h. */
  function Games(strategy: seq<Color> -> Decision, levels: nat, n: nat, c: Counters, h: seq<Color>, draws: seq<real>)
    : (g: (Counters, seq<Color>))
    requires |h| + Budget(n, if levels >= 1 then levels else 1) <= |draws|
  {
    if n == 0 then (c, h)
    else
      var g := Game(strategy, levels, c, h, draws);
      Games(strategy, levels, n - 1, g.0, g.1, draws)
  }

  /** Over n games every game is counted once, the counters stay consistent, and the
      history grows by at least one outcome per skip and by at least one per entry when
      the ladder has a level. */
  lemma {:induction false} GamesGrowAtLeast(strategy: seq<Color> -> Decision, levels: nat, n: nat, c: Counters, h: seq<Color>, draws: seq<real>)
    requires |h| + Budget(n, if levels >= 1 then levels else 1) <= |draws|
    ensures var g := Games(strategy, levels, n, c, h, draws);
            && g.0.entries + g.0.skipped == c.entries + c.skipped + n
            && c.entries <= g.0.entries && c.skipped <= g.0.skipped
            && (levels == 0 ==> g.0.wins == c.wins)
            && (Consistent(c) ==> Consistent(g.0))
            && |h| + g.0.skipped + (if levels > 0 then g.0.entries else 0)
               <= |g.1| + c.skipped + (if levels > 0 then c.entries else 0)
  {
    if n > 0 {
      var g := Game(strategy, levels, c, h, draws);
      GameShape(strategy, levels, c, h, draws);
      GamesGrowAtLeast(strategy, levels, n - 1, g.0, g.1, draws);
    }
  }

  /** One game adds at most `levels` outcomes per entry and exactly one per skip. */
  lemma GameAtMost(strategy: seq<Color> -> Decision, levels: nat, c: Counters, h: seq<Color>, draws: seq<real>)
    requires |h| + (if levels >= 1 then levels else 1) <= |draws|
    ensures var g := Game(strategy, levels, c, h, draws);
            |g.1| + c.skipped + Budget(c.entries, levels) <= |h| + g.0.skipped + Budget(g.0.entries, levels)
  {
    var g := Game(strategy, levels, c, h, draws);
    GameShape(strategy, levels, c, h, draws);
    if g.0.entries == c.entries + 1 {
      assert Budget(g.0.entries, levels) == Budget(c.entries, levels) + levels;
    }
  }

  /** Over n games the history grows by exactly one outcome per skip and by at most
      `levels` outcomes per entry. */
  lemma {:induction false} GamesGrowAtMost(strategy: seq<Color> -> Decision, levels: nat, n: nat, c: Counters, h: seq<Color>, draws: seq<real>)
    requires |h| + Budget(n, if levels >= 1 then levels else 1) <= |draws|
    ensures var g := Games(strategy, levels, n, c, h, draws);
            |g.1| + c.skipped + Budget(c.entries, levels) <= |h| + g.0.skipped + Budget(g.0.entries, levels)
  {
    if n > 0 {
      var g := Game(strategy, levels, c, h, draws);
      GameAtMost(strategy, levels, c, h, draws);
      GamesGrowAtMost(strategy, levels, n - 1, g.0, g.1, draws);
    }
  }

  /** The counters simulate_ultra_optimized starts from. */
  const Start: Counters := Counters(0, 0, 0, 0, 0, 0, 0, 0, multiset{}, multiset{})

  /** From consistent counters with nothing recorded yet, such as Start, whatever the
      strategy: every game is counted once, the counters stay consistent, and the history
      grows by one outcome per skip and by one to `levels` outcomes per entry. */
  lemma GamesFromStart(strategy: seq<Color> -> Decision, levels: nat, n: nat, c: Counters, h: seq<Color>, draws: seq<real>)
    requires c.entries == 0 && c.skipped == 0 && c.wins == 0 && Consistent(c)
    requires |h| + Budget(n, if levels >= 1 then levels else 1) <= |draws|
    ensures var g := Games(strategy, levels, n, c, h, draws);
            && Consistent(g.0) && g.0.entries + g.0.skipped == n
            && (levels == 0 ==> g.0.wins == 0)
            && |h| + g.0.skipped + (if levels > 0 then g.0.entries else 0) <= |g.1|
            && |g.1| <= |h| + g.0.skipped + Budget(g.0.entries, levels)
  {
    GamesGrowAtLeast(strategy, levels, n, c, h, draws);
    GamesGrowAtMost(strategy, levels, n, c, h, draws);
  }

  /** The report of n games from the initial counters, whatever the strategy: every game
      is counted once with its strategy or its skip reason, the wins split over the
      levels, and the history grows by one outcome per skip and by one to `levels`
      outcomes per entry. */
  lemma GamesReport(strategy: seq<Color> -> Decision, levels: nat, n: nat, h: seq<Color>, draws: seq<real>)
    requires |h| + Budget(n, if levels >= 1 then levels else 1) <= |draws|
    ensures var g := Games(strategy, levels, n, Start, h, draws);
            var r := Finish(g.0);
            && r.entries + r.skipped == n
            && r.wins + r.losses == r.entries
            && r.wins == r.winPrincipal + r.winMg1 + r.winMg2 + r.winMg3
            && |r.skipReasons| == r.skipped && |r.strategies| == r.entries
            && (levels == 0 ==> r.wins == 0)
            && |h| + r.skipped + (if levels > 0 then r.entries else 0) <= |g.1|
            && |g.1| <= |h| + r.skipped + r.entries * levels
  {
    GamesFromStart(strategy, levels, n, Start, h, draws);
    BudgetIsProduct(Games(strategy, levels, n, Start, h, draws).0.entries, levels);
  }

  /** One pass of the while loop of simulate_ultra_optimized: the strategy's decision on
      the history, then Settle. */
  method PlayGame(strategy: seq<Color> -> Decision, levels: nat, c: Counters, history: seq<Color>, draws: seq<real>)
    returns (c': Counters, history': seq<Color>)
    requires Drawn(history, draws)
    requires |history| + (if levels >= 1 then levels else 1) <= |draws|
    ensures (c', history') == Game(strategy, levels, c, history, draws) && Drawn(history', draws)
  {
    var d := strategy(history);
    c', history' := Settle(c, history, draws, levels, d);
  }

  /** The first of k games is one Game; the other k - 1 follow from where it leaves off. */
  lemma GamesStep(strategy: seq<Color> -> Decision, levels: nat, k: nat, c: Counters, h: seq<Color>, draws: seq<real>)
    requires k > 0
    requires |h| + Budget(k, if levels >= 1 then levels else 1) <= |draws|
    ensures |h| + (if levels >= 1 then levels else 1) <= |draws|
    ensures var g := Game(strategy, levels, c, h, draws);
            && |g.1| + Budget(k - 1, if levels >= 1 then levels else 1) <= |draws|
            && Games(strategy, levels, k - 1, g.0, g.1, draws) == Games(strategy, levels, k, c, h, draws)
  {
  }

  /** One pass of the loop of Run with k games left: the games still to play after it
      end where the k games from before it would. */
  method Advance(strategy: seq<Color> -> Decision, levels: nat, k: nat, c: Counters, history: seq<Color>, draws: seq<real>)
    returns (c': Counters, history': seq<Color>)
    requires k > 0 && Drawn(history, draws)
    requires Fits(levels, k, history, draws)
    ensures Drawn(history', draws) && Fits(levels, k - 1, history', draws)
    ensures Games(strategy, levels, k - 1, c', history', draws) == Games(strategy, levels, k, c, history, draws)
  {
    GamesStep(strategy, levels, k, c, history, draws);
    c', history' := PlayGame(strategy, levels, c, history, draws);
  }

  /** The while loop of simulate_ultra_optimized over n games, from counters c0. */
  method Run(strategy: seq<Color> -> Decision, n: nat, levels: nat, c0: Counters, draws: seq<real>, history0: seq<Color>)
    returns (c: Counters, history: seq<Color>)
    requires Drawn(history0, draws)
    requires |history0| + Budget(n, if levels >= 1 then levels else 1) <= |draws|
    ensures (c, history) == Games(strategy, levels, n, c0, history0, draws) && Drawn(history, draws)
  {
    history := history0;
    c := c0;
    var i: nat := 0;
    while i < n
      invariant i <= n
      invariant Fits(levels, n - i, history, draws)
      invariant Games(strategy, levels, n - i, c, history, draws) == Games(strategy, levels, n, c0, history0, draws)
      invariant Drawn(history, draws)
    {
      c, history := Advance(strategy, levels, n - i, c, history, draws);
      i := i + 1;
    }
  }

  /** Size of the random initial history, generate_history(100). */
  const InitialHistory: nat := 100

  /** simulate_ultra_optimized with the stream of random draws as input: the games are
      those of ultra_combined_strategy on the history that grows from the first 100
      draws. */
  method Simulate(nGames: int, maxMg: int, draws: seq<real>) returns (r: Report, history: seq<Color>)
    requires |draws| >= InitialHistory + Budget(if nGames < 0 then 0 else nGames, PerGame(maxMg))
    ensures var g := Games(Choice, Levels(maxMg), if nGames < 0 then 0 else nGames, Start,
                           Outcomes(draws[..InitialHistory]), draws);
              r == Finish(g.0) && history == g.1
    ensures r.entries + r.skipped == (if nGames < 0 then 0 else nGames)
    ensures r.wins + r.losses == r.entries
    ensures r.wins == r.winPrincipal + r.winMg1 + r.winMg2 + r.winMg3
    ensures |r.skipReasons| == r.skipped && |r.strategies| == r.entries
    ensures Drawn(history, draws)
    ensures |history| <= InitialHistory + r.skipped + r.entries * Levels(maxMg)
    ensures |history| >= InitialHistory + r.skipped + (if maxMg >= 0 then r.entries else 0)
    ensures maxMg < 0 ==> r.wins == 0
    ensures r.entries > 0 ==>
              r.winRate == Some(r.wins as real / r.entries as real * 100.0) &&
              r.principalRate == Some(r.winPrincipal as real / r.entries as real * 100.0)
    ensures r.entries == 0 ==> r.winRate == None && r.principalRate == None
  {
    var n: nat := if nGames < 0 then 0 else nGames;
    var c;
    c, history := Run(Choice, n, Levels(maxMg), Start, draws, Outcomes(draws[..InitialHistory]));
    r := Finish(c);
    FinishRates(c, r);
    GamesReport(Choice, Levels(maxMg), n, Outcomes(draws[..InitialHistory]), draws);
  }
}
