/** The "final" backtesting variant (backend/backtest_final.py): the advanced
    veto filter, three strategies that abstain or speak with at least 60, a
    vote that needs 70% consensus, and a simulation with up to four
    martingales whose wins are counted per level. */
module Final {
  import opened Hist
  import opened Voting
  import opened Martingale
  import Generator

  /** The ('skip', 0) answer of a strategy that abstains. */
  const Abstain: Signal := Signal(Skip, 0.0)

  /** abs(red_20 - black_20) / total_20 < 0.15, guarded by total_20 > 0. */
  predicate Balanced(h: seq<Color>) {
    var r, b := Count(Last(h, 20), Red), Count(Last(h, 20), Black);
    r + b > 0 && (AbsInt(r - b) as real) / ((r + b) as real) < 0.15
  }

  /** Alternation of at least eight non-white outcomes among the last ten. */
  predicate LongAlternation(h: seq<Color>) {
    var nw := NonWhite(Last(h, 10));
    |nw| >= 8 && Alternates(nw)
  }

  /** advanced_filter: the first matching veto wins; AdvancedFilterReasons
      names the condition behind each reason. */
  function AdvancedFilter(h: seq<Color>): (v: Verdict)
    ensures |h| < 20 ==> v == Verdict(true, "histórico_insuficiente")
    ensures !v.skip ==> v.reason == "ok"
    ensures !v.skip ==>
              |h| >= 20 && Count(Last(h, 20), White) <= 1 && Changes(Last(h, 20)) < 14 &&
              NonWhiteStreak(h) < 6
  {
    if |h| < 20 then Verdict(true, "histórico_insuficiente")
    else if Count(Last(h, 20), White) >= 2 then Verdict(true, "branco_recente")
    else if Balanced(h) then Verdict(true, "equilibrado")
    else if Changes(Last(h, 20)) >= 14 then Verdict(true, "caótico")
    else if NonWhiteStreak(h) >= 6 then Verdict(true, "sequência_longa")
    else if LongAlternation(h) then Verdict(true, "alternância")
    else Verdict(false, "ok")
  }

  /** The reason of each veto, in priority order. */
  lemma AdvancedFilterReasons(h: seq<Color>)
    ensures var v := AdvancedFilter(h);
      (v.reason == "branco_recente" <==> |h| >= 20 && Count(Last(h, 20), White) >= 2) &&
      (v.reason == "equilibrado" <==> |h| >= 20 && Count(Last(h, 20), White) < 2 && Balanced(h)) &&
      (v.reason == "caótico" <==>
         |h| >= 20 && Count(Last(h, 20), White) < 2 && !Balanced(h) && Changes(Last(h, 20)) >= 14) &&
      (v.reason == "sequência_longa" <==>
         |h| >= 20 && Count(Last(h, 20), White) < 2 && !Balanced(h) && Changes(Last(h, 20)) < 14 &&
         NonWhiteStreak(h) >= 6) &&
      (v.reason == "alternância" <==>
         |h| >= 20 && Count(Last(h, 20), White) < 2 && !Balanced(h) && Changes(Last(h, 20)) < 14 &&
         NonWhiteStreak(h) < 6 && LongAlternation(h)) &&
      (!v.skip <==> v.reason == "ok")
  {
  }

  /** advanced_filter as written, with its streak loop. */
  method ComputeAdvancedFilter(h: seq<Color>) returns (v: Verdict)
    ensures v == AdvancedFilter(h)
  {
    if |h| < 20 {
      return Verdict(true, "histórico_insuficiente");
    }
    if Count(Last(h, 20), White) >= 2 {
      return Verdict(true, "branco_recente");
    }
    if Balanced(h) {
      return Verdict(true, "equilibrado");
    }
    if Changes(Last(h, 20)) >= 14 {
      return Verdict(true, "caótico");
    }
    var streak := CountNonWhiteStreak(h);
    if streak >= 6 {
      return Verdict(true, "sequência_longa");
    }
    if LongAlternation(h) {
      return Verdict(true, "alternância");
    }
    v := Verdict(false, "ok");
  }


  /** Every timeframe of final_trend_strategy holds a non-white outcome. */
  predicate AllTimeframes(h: seq<Color>) {
    |NonWhite(Last(h, 5))| > 0 && |NonWhite(Last(h, 10))| > 0 &&
    |NonWhite(Last(h, 20))| > 0 && |NonWhite(Last(h, 40))| > 0
  }

  function TrendScore(h: seq<Color>): (s: real)
    ensures 0.0 <= s <= 1.0
  {
    Ratio(h, 5) * 0.40 + Ratio(h, 10) * 0.30 + Ratio(h, 20) * 0.20 + Ratio(h, 40) * 0.10
  }

  /** final_trend_strategy: a score of at least 0.62 bets red, at most 0.38
      black, with confidence in [78, 90]. */
  function FinalTrend(h: seq<Color>): (s: Signal)
    ensures s.pick == Skip <==> s == Abstain
    ensures |h| < 40 ==> s == Abstain
    ensures s.pick != Skip ==> IsColourBet(s.pick) && 78.0 <= s.conf <= 90.0
    ensures s.pick == Bet(Red) <==> |h| >= 40 && AllTimeframes(h) && TrendScore(h) >= 0.62
    ensures s.pick == Bet(Black) <==> |h| >= 40 && AllTimeframes(h) && TrendScore(h) <= 0.38
  {
    if |h| < 40 || !AllTimeframes(h) then Abstain
    else
      var score := TrendScore(h);
      if score >= 0.62 then Signal(Bet(Red), Min(60.0 + (score - 0.5) * 150.0, 90.0))
      else if score <= 0.38 then Signal(Bet(Black), Min(60.0 + (0.5 - score) * 150.0, 90.0))
      else Abstain
  }

  /** opposite_ratio: the opposite colour's share of the non-white outcomes
      among the last 30, 0.5 when there are none. */
  function OppositeShare(h: seq<Color>, opposite: Color): (r: real)
    ensures 0.0 <= r <= 1.0
  {
    var l30 := NonWhite(Last(h, 30));
    if |l30| == 0 then 0.5
    else
      CountBound(l30, opposite);
      FractionBounds(Count(l30, opposite), |l30|);
      Count(l30, opposite) as real / |l30| as real
  }

  /** The colour final_reversal_strategy bets on: the opposite of the last
      non-white outcome. */
  function Opposite(h: seq<Color>): Color
    requires |NonWhite(h)| > 0
  {
    OppositeOf(NonWhite(h)[|NonWhite(h)| - 1])
  }

  /** final_reversal_strategy: after a non-white streak of at least four,
      the opposite colour; with confidence in (69, 88] when that colour is
      under 40% of the last 30 non-whites, in [60, 80] otherwise. */
  function FinalReversal(h: seq<Color>): (s: Signal)
    ensures s.pick != Skip ==> IsColourBet(s.pick) && 60.0 <= s.conf <= 88.0
    ensures s.pick == Skip <==> s == Abstain
    ensures s.pick != Skip <==> |h| >= 15 && |NonWhite(h)| >= 10 && NonWhiteStreak(h) >= 4
    ensures s.pick != Skip ==> s.pick == Bet(Opposite(h))
    ensures s.pick != Skip && OppositeShare(h, Opposite(h)) < 0.40 ==> 69.0 < s.conf <= 88.0
    ensures s.pick != Skip && OppositeShare(h, Opposite(h)) >= 0.40 ==> 60.0 <= s.conf <= 80.0
  {
    if |h| < 15 then Abstain
    else
      var nw := NonWhite(h);
      if |nw| < 10 then Abstain
      else
        var streak := NonWhiteStreak(h);
        if streak >= 4 then
          var opposite := Opposite(h);
          Reversing(opposite, streak, OppositeShare(h, opposite))
        else Abstain
  }

  /** The signal of a non-white streak of at least four: against the streak,
      stronger when the opposite colour has been scarce. */
  function Reversing(opposite: Color, streak: nat, ratio: real): (s: Signal)
    requires streak >= 4
    ensures s.pick == Bet(opposite)
    ensures ratio < 0.40 ==> 69.0 < s.conf <= 88.0
    ensures ratio >= 0.40 ==> 60.0 <= s.conf <= 80.0
  {
    if ratio < 0.40 then
      Signal(Bet(opposite), Min(65.0 + (streak - 4) as real * 5.0 + (0.5 - ratio) * 40.0, 88.0))
    else
      Signal(Bet(opposite), Min(60.0 + (streak - 4) as real * 4.0, 80.0))
  }

  /** final_reversal_strategy as written, with its streak loop. */
  method ComputeFinalReversal(h: seq<Color>) returns (s: Signal)
    ensures s == FinalReversal(h)
  {
    if |h| < 15 {
      return Abstain;
    }
    var nw := NonWhite(h);
    if |nw| < 10 {
      return Abstain;
    }
    var streak := CountNonWhiteStreak(h);
    if streak >= 4 {
      var opposite := Opposite(h);
      s := Reversing(opposite, streak, OppositeShare(h, opposite));
    } else {
      s := Abstain;
    }
  }

  /** The non-white outcomes among the last 12. */
  function Recent(h: seq<Color>): seq<Color> {
    NonWhite(Last(h, 12))
  }

  /** final_pattern_strategy: over the non-whites of the last 12 (at least
      eight), a 2-2-2 block ending the list gives 78, a 3-3-3 block 80, both
      for the colour opposite the last non-white outcome. */
  function FinalPattern(h: seq<Color>): (s: Signal)
    ensures s.pick != Skip ==> IsColourBet(s.pick) && 78.0 <= s.conf <= 80.0
    ensures s.pick == Skip <==> s == Abstain
    ensures s.pick != Skip ==>
              |Recent(h)| >= 8 && s.pick == Bet(OppositeOf(Recent(h)[|Recent(h)| - 1]))
    ensures s.conf == 78.0 <==> |h| >= 12 && |Recent(h)| >= 8 && Block22(Recent(h)[|Recent(h)| - 6..])
    ensures s.conf == 80.0 <==>
              |h| >= 12 && |Recent(h)| >= 9 && !Block22(Recent(h)[|Recent(h)| - 6..]) &&
              Block33(Recent(h)[|Recent(h)| - 9..])
    ensures s.conf in {0.0, 78.0, 80.0}
  {
    if |h| < 12 then Abstain
    else
      var nw := Recent(h);
      if |nw| < 8 then Abstain
      else
        OppositeAgreesOffWhite(nw[|nw| - 1]);
        if Block22(nw[|nw| - 6..]) then Signal(Bet(NextAfter(nw[|nw| - 1])), 78.0)
        else if |nw| >= 9 && Block33(nw[|nw| - 9..]) then Signal(Bet(NextAfter(nw[|nw| - 1])), 80.0)
        else Abstain
  }

  /** Twelve outcomes in the period-two block R,R,B,B,... : the last six are
      a 2-2-2 block ending in black, so the pattern votes red at 78. */
  lemma PeriodTwoExample()
    ensures FinalPattern([Red, Red, Black, Black, Red, Red, Black, Black, Red, Red, Black, Black])
            == Signal(Bet(Red), 78.0)
  {
    var h := [Red, Red, Black, Black, Red, Red, Black, Black, Red, Red, Black, Black];
    CountNone(h, White);
    CountTotal(h);
    NonWhiteOfColours(h);
    assert Last(h, 12) == h;
    assert h[6..] == [Black, Black, Red, Red, Black, Black];
  }

  /** The strategies dict of final_combined_strategy with the weights 1.0,
      1.3 and 1.5. */
  function Ballots(h: seq<Color>, reversal: Signal): seq<Ballot> {
    [Ballot("trend", FinalTrend(h), 1.0),
     Ballot("reversal", reversal, 1.3),
     Ballot("pattern", FinalPattern(h), 1.5)]
  }

  /** Only red or black signals of at least 60 vote. */
  const Bar: Threshold := AtLeast(60.0)

  const NoBest: Best := Best(Skip, 0.0, "none")

  function Vote(h: seq<Color>): Tally {
    Fold(Ballots(h, FinalReversal(h)), Bar, NoBest)
  }

  function Skipped(reason: string): Decision {
    Decision(Skip, 0.0, reason, false)
  }

  /** The decision after the vote: no vote gives 'sem_sinal'; a 70% share
      enters on the mean confidence plus 5, capped at 92; in between only a
      best signal of 75 is entered. */
  function Decide(t: Tally): (d: Decision)
    ensures t.red + t.black == 0.0 ==> d == Skipped("sem_sinal")
    ensures !d.enter ==> d.pick == Skip && d.conf == 0.0
    ensures d.enter ==> d.pick.Bet? && d.strategy == t.best.name
    ensures t.red + t.black != 0.0 && t.red / (t.red + t.black) >= 0.70 ==> d.pick == Bet(Red) && d.conf <= 92.0
    ensures t.red + t.black != 0.0 && t.red / (t.red + t.black) <= 0.30 ==> d.pick == Bet(Black) && d.conf <= 92.0
    ensures t.red + t.black != 0.0 && 0.30 < t.red / (t.red + t.black) < 0.70 ==>
              d == (if t.best.conf >= 75.0 && t.best.pick.Bet?
                    then Decision(t.best.pick, t.best.conf, t.best.name, true)
                    else Skipped("consenso_baixo"))
  {
    var total := t.red + t.black;
    if total == 0.0 then Skipped("sem_sinal")
    else
      var ratio := t.red / total;
      var avg := if |t.confs| > 0 then Mean(t.confs) else 60.0;
      if ratio >= 0.70 then Decision(Bet(Red), Min(avg + 5.0, 92.0), t.best.name, true)
      else if ratio <= 0.30 then Decision(Bet(Black), Min(avg + 5.0, 92.0), t.best.name, true)
      else if t.best.conf >= 75.0 && t.best.pick.Bet? then
        Decision(t.best.pick, t.best.conf, t.best.name, true)
      else Skipped("consenso_baixo")
  }

  /** final_combined_strategy: a veto skips with its reason; every entry is
      a colour with confidence in [65, 92]. */
  function FinalCombined(h: seq<Color>): (d: Decision)
    ensures AdvancedFilter(h).skip ==> d == Skipped(AdvancedFilter(h).reason)
    ensures d.enter ==> IsColourBet(d.pick) && 65.0 <= d.conf <= 92.0
    ensures !d.enter ==> d.pick == Skip && d.conf == 0.0
  {
    var v := AdvancedFilter(h);
    if v.skip then Skipped(v.reason) else Voted(h)
  }

  /** A run of six or more equal non-white outcomes is never entered,
      whatever the strategies propose. */
  lemma LongRunNeverEnters(h: seq<Color>)
    ensures NonWhiteStreak(h) >= 6 ==> FinalCombined(h) == Skipped(AdvancedFilter(h).reason)
  {
  }

  function Voted(h: seq<Color>): (d: Decision)
    ensures d.enter ==> IsColourBet(d.pick) && 65.0 <= d.conf <= 92.0
    ensures !d.enter ==> d.pick == Skip && d.conf == 0.0
  {
    VoteFacts(h);
    VotedDecision(Vote(h));
    Decide(Vote(h))
  }

  /** Every valid confidence lies in [60, 90], a positive total means some
      signal voted, and a best record above 0 names a colour. */
  lemma VoteFacts(h: seq<Color>)
    ensures var t := Vote(h);
      (forall x :: x in t.confs ==> 60.0 <= x <= 90.0) && t.best.conf <= 90.0 &&
      (t.red + t.black != 0.0 ==> |t.confs| > 0) &&
      (t.best.conf > 0.0 ==> IsColourBet(t.best.pick))
  {
    BallotsSound(h);
    TallySound(Ballots(h, FinalReversal(h)), Bar, NoBest, 60.0, 90.0);
  }

  /** Each strategy's colour signals lie in [60, 90], one strategy at a time. */
  lemma TrendInRange(h: seq<Color>)
    ensures IsColourBet(FinalTrend(h).pick) ==> 60.0 <= FinalTrend(h).conf <= 90.0
  {
  }

  lemma ReversalInRange(h: seq<Color>)
    ensures IsColourBet(FinalReversal(h).pick) ==> 60.0 <= FinalReversal(h).conf <= 90.0
  {
  }

  lemma PatternInRange(h: seq<Color>)
    ensures IsColourBet(FinalPattern(h).pick) ==> 60.0 <= FinalPattern(h).conf <= 90.0
  {
  }

  /** Every ballot has weight and every voting signal a confidence in
      [60, 90]. */
  lemma BallotsSound(h: seq<Color>)
    ensures PositiveBallots(Ballots(h, FinalReversal(h)), Bar) && Bounded(Ballots(h, FinalReversal(h)), Bar, 60.0, 90.0)
  {
    var t, r, p := FinalTrend(h), FinalReversal(h), FinalPattern(h);
    TrendInRange(h);
    ReversalInRange(h);
    PatternInRange(h);
    ThreeBallotsSound(Ballot("trend", t, 1.0), Ballot("reversal", r, 1.3), Ballot("pattern", p, 1.5), Bar, 60.0, 90.0);
  }

  /** No signal of at least 60 is the same as a zero total, and with the gate
      open it yields 'sem_sinal' and no entry. */
  lemma Silent(h: seq<Color>)
    ensures Vote(h).red + Vote(h).black == 0.0 <==>
              !Eligible(FinalTrend(h), Bar) && !Eligible(FinalReversal(h), Bar) && !Eligible(FinalPattern(h), Bar)
    ensures !AdvancedFilter(h).skip && !Eligible(FinalTrend(h), Bar) &&
            !Eligible(FinalReversal(h), Bar) && !Eligible(FinalPattern(h), Bar) ==>
              FinalCombined(h) == Skipped("sem_sinal")
  {
    var bs := Ballots(h, FinalReversal(h));
    BallotsSound(h);
    TallySound(bs, Bar, NoBest, 60.0, 90.0);
    FoldSilent(bs, Bar, NoBest);
    assert bs[0].signal == FinalTrend(h) && bs[1].signal == FinalReversal(h) && bs[2].signal == FinalPattern(h);
  }

  /** The decision of a tally with those facts is a colour in [65, 92]. */
  lemma VotedDecision(t: Tally)
    requires forall x :: x in t.confs ==> 60.0 <= x <= 90.0
    requires t.best.conf <= 90.0 && (t.red + t.black != 0.0 ==> |t.confs| > 0)
    requires t.best.conf > 0.0 ==> IsColourBet(t.best.pick)
    ensures var d := Decide(t); d.enter ==> IsColourBet(d.pick) && 65.0 <= d.conf <= 92.0
  {
    if |t.confs| > 0 {
      MeanBounds(t.confs, 60.0, 90.0);
    }
  }

  /** final_combined_strategy as written: the filter loop, the reversal loop
      and the vote loop. */
  method FinalCombinedStrategy(h: seq<Color>) returns (d: Decision)
    ensures d == FinalCombined(h)
  {
    var v := ComputeAdvancedFilter(h);
    if v.skip {
      return Skipped(v.reason);
    }
    var reversal := ComputeFinalReversal(h);
    var t := CastVotes(Ballots(h, reversal), Bar, NoBest);
    d := Decide(t);
  }

  /** Number of slots of win_levels: principal and MG1 to MG4. */
  const Slots: nat := 5

  function SumNat(s: seq<nat>): nat {
    if s == [] then 0 else SumNat(s[..|s| - 1]) + s[|s| - 1]
  }

  /** `win_levels[mg] += 1` adds one to the sum of win_levels. */
  lemma {:induction false} SumNatIncrement(s: seq<nat>, k: nat)
    requires k < |s|
    ensures SumNat(s[k := s[k] + 1]) == SumNat(s) + 1
  {
    var n := |s|;
    if k < n - 1 {
      assert s[k := s[k] + 1][..n - 1] == s[..n - 1][k := s[..n - 1][k] + 1];
      SumNatIncrement(s[..n - 1], k);
    } else {
      assert s[k := s[k] + 1][..n - 1] == s[..n - 1];
    }
  }

  /** The stats dict of simulate_final; the win rate is 0 without entries. */
  datatype Report = Report(
    entries: nat, wins: nat, losses: nat, skipped: nat, winLevels: seq<nat>,
    strategies: multiset<string>, skipReasons: multiset<string>, winRate: real)

  datatype Counters = Counters(
    entries: nat, wins: nat, losses: nat, skipped: nat, winLevels: seq<nat>,
    strategies: multiset<string>, skipReasons: multiset<string>)

  predicate Consistent(c: Counters) {
    |c.winLevels| == Slots && SumNat(c.winLevels) == c.wins && c.wins + c.losses == c.entries &&
    |c.strategies| == c.entries && |c.skipReasons| == c.skipped
  }

  function RecordSkip(c: Counters, reason: string): (c': Counters)
    ensures c'.skipped == c.skipped + 1 && c'.entries == c.entries && c'.wins == c.wins
    ensures c'.skipReasons == c.skipReasons + multiset{reason}
  {
    c.(skipped := c.skipped + 1, skipReasons := c.skipReasons + multiset{reason})
  }

  /** The counters after an entry: a win at level k also counts in slot k. */
  function RecordEntry(c: Counters, strategy: string, a: Attempt): (c': Counters)
    requires |c.winLevels| == Slots && (a.Won? ==> a.level < Slots)
    ensures |c'.winLevels| == Slots
    ensures c'.entries == c.entries + 1 && c'.skipped == c.skipped
    ensures c'.wins == c.wins + (if a.Won? then 1 else 0)
    ensures a.Won? ==> c'.winLevels == c.winLevels[a.level := c.winLevels[a.level] + 1]
    ensures a.Lost? ==> c'.winLevels == c.winLevels && c'.losses == c.losses + 1
    ensures c'.strategies == c.strategies + multiset{strategy}
  {
    var c1 := c.(entries := c.entries + 1, strategies := c.strategies + multiset{strategy});
    match a
    case Lost => c1.(losses := c.losses + 1)
    case Won(k) => c1.(wins := c.wins + 1, winLevels := c.winLevels[k := c.winLevels[k] + 1])
  }

  /** Recording a skip or an entry keeps the counters consistent. */
  lemma RecordKeepsConsistent(c: Counters, name: string, a: Attempt)
    requires Consistent(c) && (a.Won? ==> a.level < Slots)
    ensures Consistent(RecordSkip(c, name)) && Consistent(RecordEntry(c, name, a))
  {
    if a.Won? {
      SumNatIncrement(c.winLevels, a.level);
    }
  }

  function Finish(c: Counters): Report {
    Report(c.entries, c.wins, c.losses, c.skipped, c.winLevels, c.strategies, c.skipReasons,
           if c.entries > 0 then c.wins as real / c.entries as real * 100.0 else 0.0)
  }

  function Choice(h: seq<Color>): Decision {
    FinalCombined(h)
  }

  /** The rest of one iteration of the for loop of simulate_final once the
      decision d is taken: a skip draws one outcome and records its reason,
      an entry plays the ladder and records its strategy and the level of
      its win. */
  method Settle(c: Counters, history: seq<Color>, draws: seq<real>, levels: nat, d: Decision)
    returns (c': Counters, history': seq<Color>)
    requires Drawn(history, draws) && |c.winLevels| == Slots && levels <= Slots
    requires |history| + (if levels >= 1 then levels else 1) <= |draws|
    ensures Drawn(history', draws)
    ensures !d.enter ==>
              c' == RecordSkip(c, d.strategy) &&
              history' == history + [Generator.BlazeResult(draws[|history|])]
    ensures d.enter ==>
              var a := Ladder(d.pick, Outcomes(draws[|history|..|history| + levels]), levels);
              c' == RecordEntry(c, d.strategy, a) &&
              |history'| == |history| + Consumed(a, levels) &&
              history' == history + Outcomes(draws[|history|..|history'|])
  {
    if !d.enter {
      history' := DrawOne(draws, history);
      c' := RecordSkip(c, d.strategy);
    } else {
      var a;
      a, history' := PlayNext(d.pick, draws, levels, history);
      c' := RecordEntry(c, d.strategy, a);
    }
  }

  /** One game of the loop of simulate_final as a function of the strategy, the number
      of ladder levels, the counters, the history so far and the stream of draws: the
      strategy decides on the history; a skip draws one outcome and records its reason, an
      entry plays the ladder on the next draws and records its strategy and the level of
      its win. */
  function Game(strategy: seq<Color> -> Decision, levels: nat, c: Counters, h: seq<Color>, draws: seq<real>)
    : (g: (Counters, seq<Color>))
    requires |c.winLevels| == Slots && levels <= Slots
    requires |h| + (if levels >= 1 then levels else 1) <= |draws|
    ensures |g.0.winLevels| == Slots
    ensures |h| <= |g.1| <= |h| + (if levels >= 1 then levels else 1) && g.1[..|h|] == h
  {
    var d := strategy(h);
    if !d.enter then (RecordSkip(c, d.strategy), h + [Generator.BlazeResult(draws[|h|])])
    else
      var outs := Outcomes(draws[|h|..|h| + levels]);
      var a := Ladder(d.pick, outs, levels);
      (RecordEntry(c, d.strategy, a), h + Outcomes(draws[|h|..|h| + Consumed(a, levels)]))
  }

  /** A game is either a skip, which draws one outcome, or an entry, which draws one
      outcome per level played and no more than `levels`; without levels nothing is won. */
  lemma GameShape(strategy: seq<Color> -> Decision, levels: nat, c: Counters, h: seq<Color>, draws: seq<real>)
    requires |c.winLevels| == Slots && levels <= Slots
    requires |h| + (if levels >= 1 then levels else 1) <= |draws|
    ensures var g := Game(strategy, levels, c, h, draws);
            && (levels == 0 ==> g.0.wins == c.wins)
            && (|| (g.0.entries == c.entries && g.0.skipped == c.skipped + 1 && |g.1| == |h| + 1)
                || (g.0.entries == c.entries + 1 && g.0.skipped == c.skipped &&
                    |h| + (if levels > 0 then 1 else 0) <= |g.1| <= |h| + levels))
  {
  }

  /** n games played one after the other from counters c and history h. */
  function Games(strategy: seq<Color> -> Decision, levels: nat, n: nat, c: Counters, h: seq<Color>, draws: seq<real>)
    : (g: (Counters, seq<Color>))
    requires |c.winLevels| == Slots && levels <= Slots
    requires |h| + Budget(n, if levels >= 1 then levels else 1) <= |draws|
    ensures |g.0.winLevels| == Slots
  {
    if n == 0 then (c, h)
    else
      var g := Game(strategy, levels, c, h, draws);
      Games(strategy, levels, n - 1, g.0, g.1, draws)
  }

  /** Over n games every game is counted once, and the history grows by at least one
      outcome per skip and by at least one per entry when the ladder has a level. */
  lemma {:induction false} GamesGrowAtLeast(strategy: seq<Color> -> Decision, levels: nat, n: nat, c: Counters, h: seq<Color>, draws: seq<real>)
    requires |c.winLevels| == Slots && levels <= Slots
    requires |h| + Budget(n, if levels >= 1 then levels else 1) <= |draws|
    ensures var g := Games(strategy, levels, n, c, h, draws);
            && g.0.entries + g.0.skipped == c.entries + c.skipped + n
            && c.entries <= g.0.entries && c.skipped <= g.0.skipped
            && (levels == 0 ==> g.0.wins == c.wins)
            && |h| + g.0.skipped + (if levels > 0 then g.0.entries else 0)
               <= |g.1| + c.skipped + (if levels > 0 then c.entries else 0)
  {
    if n > 0 {
      var g := Game(strategy, levels, c, h, draws);
      GameShape(strategy, levels, c, h, draws);
      GamesGrowAtLeast(strategy, levels, n - 1, g.0, g.1, draws);
    }
  }

  /** Over n games the history grows by exactly one outcome per skip and by at most
      `levels` outcomes per entry. */
  lemma {:induction false} GamesGrowAtMost(strategy: seq<Color> -> Decision, levels: nat, n: nat, c: Counters, h: seq<Color>, draws: seq<real>)
    requires |c.winLevels| == Slots && levels <= Slots
    requires |h| + Budget(n, if levels >= 1 then levels else 1) <= |draws|
    ensures var g := Games(strategy, levels, n, c, h, draws);
            |g.1| + c.skipped + Budget(c.entries, levels) <= |h| + g.0.skipped + Budget(g.0.entries, levels)
  {
    if n > 0 {
      var g := Game(strategy, levels, c, h, draws);
      GameAtMost(strategy, levels, c, h, draws);
      GamesGrowAtMost(strategy, levels, n - 1, g.0, g.1, draws);
    }
  }

  /** One game adds at most `levels` outcomes per entry and exactly one per skip. */
  lemma GameAtMost(strategy: seq<Color> -> Decision, levels: nat, c: Counters, h: seq<Color>, draws: seq<real>)
    requires |c.winLevels| == Slots && levels <= Slots
    requires |h| + (if levels >= 1 then levels else 1) <= |draws|
    ensures var g := Game(strategy, levels, c, h, draws);
            |g.1| + c.skipped + Budget(c.entries, levels) <= |h| + g.0.skipped + Budget(g.0.entries, levels)
  {
    var g := Game(strategy, levels, c, h, draws);
    if g.0.entries == c.entries + 1 {
      assert Budget(g.0.entries, levels) == Budget(c.entries, levels) + levels;
    }
  }

  /** The counters simulate_final starts from. */
  const Start: Counters := Counters(0, 0, 0, 0, [0, 0, 0, 0, 0], multiset{}, multiset{})

  lemma StartConsistent()
    ensures Consistent(Start)
  {
    assert SumNat([0, 0, 0, 0, 0]) == 0 by {
      assert [0, 0, 0, 0, 0][..4] == [0, 0, 0, 0];
      assert [0, 0, 0, 0][..3] == [0, 0, 0];
      assert [0, 0, 0][..2] == [0, 0];
      assert [0, 0][..1] == [0];
      assert [0][..0] == [];
    }
  }

  /** A game keeps the counters consistent. */
  lemma GameConsistent(strategy: seq<Color> -> Decision, levels: nat, c: Counters, h: seq<Color>, draws: seq<real>)
    requires Consistent(c) && levels <= Slots
    requires |h| + (if levels >= 1 then levels else 1) <= |draws|
    ensures Consistent(Game(strategy, levels, c, h, draws).0)
  {
    var d := strategy(h);
    RecordKeepsConsistent(c, d.strategy, Ladder(d.pick, Outcomes(draws[|h|..|h| + levels]), levels));
  }

  /** So do n games. */
  lemma {:induction false} GamesConsistent(strategy: seq<Color> -> Decision, levels: nat, n: nat, c: Counters, h: seq<Color>, draws: seq<real>)
    requires Consistent(c) && levels <= Slots
    requires |h| + Budget(n, if levels >= 1 then levels else 1) <= |draws|
    ensures Consistent(Games(strategy, levels, n, c, h, draws).0)
  {
    if n > 0 {
      var g := Game(strategy, levels, c, h, draws);
      GameConsistent(strategy, levels, c, h, draws);
      GamesConsistent(strategy, levels, n - 1, g.0, g.1, draws);
    }
  }

  /** The initial counters are consistent, hence so are those after n games. */
  lemma StartGamesConsistent(strategy: seq<Color> -> Decision, levels: nat, n: nat, h: seq<Color>, draws: seq<real>)
    requires levels <= Slots
    requires |h| + Budget(n, if levels >= 1 then levels else 1) <= |draws|
    ensures Consistent(Games(strategy, levels, n, Start, h, draws).0)
  {
    StartConsistent();
    GamesConsistent(strategy, levels, n, Start, h, draws);
  }

  /** From the initial counters, whatever the strategy: every game is counted once, the
      counters stay consistent, and the history grows by one outcome per skip and by one
      to `levels` outcomes per entry. */
  lemma GamesFromStart(strategy: seq<Color> -> Decision, levels: nat, n: nat, h: seq<Color>, draws: seq<real>)
    requires levels <= Slots
    requires |h| + Budget(n, if levels >= 1 then levels else 1) <= |draws|
    ensures var g := Games(strategy, levels, n, Start, h, draws);
            && Consistent(g.0) && g.0.entries + g.0.skipped == n
            && (levels == 0 ==> g.0.wins == 0)
            && |h| + g.0.skipped + (if levels > 0 then g.0.entries else 0) <= |g.1|
            && |g.1| <= |h| + g.0.skipped + Budget(g.0.entries, levels)
  {
    GamesGrowAtLeast(strategy, levels, n, Start, h, draws);
    GamesGrowAtMost(strategy, levels, n, Start, h, draws);
    StartGamesConsistent(strategy, levels, n, h, draws);
  }

  /** The report of n games from the initial counters, whatever the strategy: every game
      is counted once with its strategy or its skip reason, the five win levels add up to
      the wins, and the history grows by one outcome per skip and by one to `levels`
      outcomes per entry. */
  lemma GamesReport(strategy: seq<Color> -> Decision, levels: nat, n: nat, h: seq<Color>, draws: seq<real>)
    requires levels <= Slots
    requires |h| + Budget(n, if levels >= 1 then levels else 1) <= |draws|
    ensures var g := Games(strategy, levels, n, Start, h, draws);
            var r := Finish(g.0);
            && r.entries + r.skipped == n
            && r.wins + r.losses == r.entries
            && |r.winLevels| == 5 && SumNat(r.winLevels) == r.wins
            && |r.strategies| == r.entries && |r.skipReasons| == r.skipped
            && (levels == 0 ==> r.wins == 0)
            && |h| + r.skipped + (if levels > 0 then r.entries else 0) <= |g.1|
            && |g.1| <= |h| + r.skipped + r.entries * levels
  {
    GamesFromStart(strategy, levels, n, h, draws);
    BudgetIsProduct(Games(strategy, levels, n, Start, h, draws).0.entries, levels);
  }

  /** One iteration of the for loop of simulate_final: the strategy's decision on the
      history, then Settle. */
  method PlayGame(strategy: seq<Color> -> Decision, levels: nat, c: Counters, history: seq<Color>, draws: seq<real>)
    returns (c': Counters, history': seq<Color>)
    requires Drawn(history, draws) && |c.winLevels| == Slots && levels <= Slots
    requires |history| + (if levels >= 1 then levels else 1) <= |draws|
    ensures (c', history') == Game(strategy, levels, c, history, draws) && Drawn(history', draws)
  {
    var d := strategy(history);
    c', history' := Settle(c, history, draws, levels, d);
  }

  /** The first of k games is one Game; the other k - 1 follow from where it leaves off. */
  lemma GamesStep(strategy: seq<Color> -> Decision, levels: nat, k: nat, c: Counters, h: seq<Color>, draws: seq<real>)
    requires k > 0 && |c.winLevels| == Slots && levels <= Slots
    requires |h| + Budget(k, if levels >= 1 then levels else 1) <= |draws|
    ensures |h| + (if levels >= 1 then levels else 1) <= |draws|
    ensures var g := Game(strategy, levels, c, h, draws);
            && |g.0.winLevels| == Slots
            && |g.1| + Budget(k - 1, if levels >= 1 then levels else 1) <= |draws|
            && Games(strategy, levels, k - 1, g.0, g.1, draws) == Games(strategy, levels, k, c, h, draws)
  {
  }

  /** One iteration of the loop of Run with k games left: the games still to play after
      it end where the k games from before it would. */
  method Advance(strategy: seq<Color> -> Decision, levels: nat, k: nat, c: Counters, history: seq<Color>, draws: seq<real>)
    returns (c': Counters, history': seq<Color>)
    requires k > 0 && |c.winLevels| == Slots && levels <= Slots && Drawn(history, draws)
    requires Fits(levels, k, history, draws)
    ensures |c'.winLevels| == Slots && Drawn(history', draws)
    ensures Fits(levels, k - 1, history', draws)
    ensures Games(strategy, levels, k - 1, c', history', draws) == Games(strategy, levels, k, c, history, draws)
  {
    GamesStep(strategy, levels, k, c, history, draws);
    c', history' := PlayGame(strategy, levels, c, history, draws);
  }

  /** The for loop of simulate_final over n games, from counters c0. */
  method Run(strategy: seq<Color> -> Decision, n: nat, levels: nat, c0: Counters, draws: seq<real>, history0: seq<Color>)
    returns (c: Counters, history: seq<Color>)
    requires |c0.winLevels| == Slots && levels <= Slots && Drawn(history0, draws)
    requires |history0| + Budget(n, if levels >= 1 then levels else 1) <= |draws|
    ensures (c, history) == Games(strategy, levels, n, c0, history0, draws) && Drawn(history, draws)
  {
    history := history0;
    c := c0;
    var i: nat := 0;
    while i < n
      invariant i <= n && |c.winLevels| == Slots
      invariant Fits(levels, n - i, history, draws)
      invariant Games(strategy, levels, n - i, c, history, draws) == Games(strategy, levels, n, c0, history0, draws)
      invariant Drawn(history, draws)
    {
      c, history := Advance(strategy, levels, n - i, c, history, draws);
      i := i + 1;
    }
  }

  const InitialHistory: nat := 100

  /** simulate_final with the stream of random draws as input: the games are those of
      final_combined_strategy on the history that grows from the first 100 draws. win_levels
      has five slots, so max_mg may be at most 4. */
  method Simulate(nGames: int, maxMg: int, draws: seq<real>) returns (r: Report, history: seq<Color>)
    requires maxMg <= 4
    requires |draws| >= InitialHistory + Budget(if nGames < 0 then 0 else nGames, PerGame(maxMg))
    ensures var g := Games(Choice, Levels(maxMg), if nGames < 0 then 0 else nGames, Start,
                           Outcomes(draws[..InitialHistory]), draws);
              r == Finish(g.0) && history == g.1
    ensures r.entries + r.skipped == (if nGames < 0 then 0 else nGames)
    ensures r.wins + r.losses == r.entries
    ensures |r.winLevels| == 5 && SumNat(r.winLevels) == r.wins
    ensures |r.strategies| == r.entries && |r.skipReasons| == r.skipped
    ensures Drawn(history, draws)
    ensures |history| <= InitialHistory + r.skipped + r.entries * Levels(maxMg)
    ensures |history| >= InitialHistory + r.skipped + (if maxMg >= 0 then r.entries else 0)
    ensures maxMg < 0 ==> r.wins == 0
  {
    var n: nat := if nGames < 0 then 0 else nGames;
    var c;
    c, history := Run(Choice, n, Levels(maxMg), Start, draws, Outcomes(draws[..InitialHistory]));
    GamesReport(Choice, Levels(maxMg), n, Outcomes(draws[..InitialHistory]), draws);
    r := Finish(c);
  }

}
