/** The "ultra" backtesting variant (backend/backtest_ultra.py): a strict veto
    filter, three strategies that either abstain or speak with confidence of
    at least 70, a vote that needs 75% consensus, and a simulation with two
    martingales (three levels). */
module Ultra {
  import opened Hist
  import opened Voting
  import opened Martingale
  import Generator

  /** The ('skip', 0) answer of a strategy that abstains. */
  const Abstain: Signal := Signal(Skip, 0.0)

  /** The trend of a window: red at or above hi reds, black at or below lo,
      neutral (None) in between. */
  function TrendOf(reds: nat, hi: nat, lo: nat): (t: Option<Color>)
    ensures t == Some(Red) <==> reds >= hi
    ensures t == Some(Black) <==> reds < hi && reds <= lo
    ensures t.Some? ==> t.value != White
  {
    if reds >= hi then Some(Red) else if reds <= lo then Some(Black) else None
  }

  /** The contradictory-trend test: the 5-window trend (red at three reds or
      more, black at two or fewer) and the 10-window trend (red at six or
      more, black at four or fewer) are both non-neutral and differ. */
  predicate Contradictory(h: seq<Color>) {
    var t5 := TrendOf(Count(Last(h, 5), Red), 3, 2);
    var t10 := TrendOf(Count(Last(h, 10), Red), 6, 4);
    t5.Some? && t10.Some? && t5 != t10
  }

  /** The 5-window trend is never neutral, so the test fires exactly when the
      two windows lean to opposite colours. */
  lemma ContradictoryExactly(h: seq<Color>)
    ensures TrendOf(Count(Last(h, 5), Red), 3, 2).Some?
    ensures Contradictory(h) <==>
              (Count(Last(h, 5), Red) >= 3 && Count(Last(h, 10), Red) <= 4) ||
              (Count(Last(h, 5), Red) <= 2 && Count(Last(h, 10), Red) >= 6)
  {
  }

  /** abs(red_20 - black_20) / total_20 < 0.20, guarded by total_20 > 0. */
  predicate Balanced(h: seq<Color>) {
    var r, b := Count(Last(h, 20), Red), Count(Last(h, 20), Black);
    r + b > 0 && (AbsInt(r - b) as real) / ((r + b) as real) < 0.20
  }

  /** Perfect alternation of at least seven non-white outcomes among the last
      ten. */
  predicate PerfectAlternation(h: seq<Color>) {
    var nw := NonWhite(Last(h, 10));
    |nw| >= 7 && Alternates(nw)
  }

  /** ultra_filter: the first matching veto wins; UltraFilterReasons names
      the condition behind each reason. */
  function UltraFilter(h: seq<Color>): (v: Verdict)
    ensures |h| < 30 ==> v == Verdict(true, "histórico_insuficiente")
    ensures !v.skip ==> v.reason == "ok"
    ensures !v.skip ==>
              |h| >= 30 && Count(Last(h, 15), White) == 0 && NonWhiteStreak(h) < 6 &&
              !Contradictory(h)
  {
    if |h| < 30 then Verdict(true, "histórico_insuficiente")
    else if Count(Last(h, 15), White) >= 1 then Verdict(true, "branco_recente")
    else if Balanced(h) then Verdict(true, "equilibrado")
    else if Changes(Last(h, 20)) >= 13 then Verdict(true, "caótico")
    else if NonWhiteStreak(h) >= 6 then Verdict(true, "sequência_longa")
    else if PerfectAlternation(h) then Verdict(true, "alternância_perfeita")
    else if Contradictory(h) then Verdict(true, "tendência_contraditória")
    else Verdict(false, "ok")
  }

  /** The reason of each veto, in priority order. */
  lemma UltraFilterReasons(h: seq<Color>)
    ensures var v := UltraFilter(h);
      (v.reason == "branco_recente" <==> |h| >= 30 && Count(Last(h, 15), White) >= 1) &&
      (v.reason == "equilibrado" <==> |h| >= 30 && Count(Last(h, 15), White) == 0 && Balanced(h)) &&
      (v.reason == "caótico" <==>
         |h| >= 30 && Count(Last(h, 15), White) == 0 && !Balanced(h) && Changes(Last(h, 20)) >= 13) &&
      (v.reason == "sequência_longa" <==>
         |h| >= 30 && Count(Last(h, 15), White) == 0 && !Balanced(h) && Changes(Last(h, 20)) < 13 &&
         NonWhiteStreak(h) >= 6) &&
      (v.reason == "alternância_perfeita" <==>
         |h| >= 30 && Count(Last(h, 15), White) == 0 && !Balanced(h) && Changes(Last(h, 20)) < 13 &&
         NonWhiteStreak(h) < 6 && PerfectAlternation(h)) &&
      (v.reason == "tendência_contraditória" <==>
         |h| >= 30 && Count(Last(h, 15), White) == 0 && !Balanced(h) && Changes(Last(h, 20)) < 13 &&
         NonWhiteStreak(h) < 6 && !PerfectAlternation(h) && Contradictory(h)) &&
      (!v.skip <==> v.reason == "ok")
  {
  }

  /** ultra_filter as written, with its streak loop. */
  method ComputeUltraFilter(h: seq<Color>) returns (v: Verdict)
    ensures v == UltraFilter(h)
  {
    if |h| < 30 {
      return Verdict(true, "histórico_insuficiente");
    }
    if Count(Last(h, 15), White) >= 1 {
      return Verdict(true, "branco_recente");
    }
    if Balanced(h) {
      return Verdict(true, "equilibrado");
    }
    if Changes(Last(h, 20)) >= 13 {
      return Verdict(true, "caótico");
    }
    var streak := CountNonWhiteStreak(h);
    if streak >= 6 {
      return Verdict(true, "sequência_longa");
    }
    if PerfectAlternation(h) {
      return Verdict(true, "alternância_perfeita");
    }
    if Contradictory(h) {
      return Verdict(true, "tendência_contraditória");
    }
    v := Verdict(false, "ok");
  }


  function TrendScore(h: seq<Color>): (s: real)
    ensures 0.0 <= s <= 1.0
  {
    Ratio(h, 5) * 0.35 + Ratio(h, 10) * 0.25 + Ratio(h, 20) * 0.20 + Ratio(h, 30) * 0.12 + Ratio(h, 50) * 0.08
  }

  /** ultra_trend: red needs a score of at least 0.65 confirmed by the 5, 10
      and 20 windows, black the mirror image; the confidence is then in
      [85, 92]. */
  function UltraTrend(h: seq<Color>): (s: Signal)
    ensures s.pick == Skip <==> s == Abstain
    ensures |h| < 50 ==> s == Abstain
    ensures s.pick != Skip ==> IsColourBet(s.pick) && 85.0 <= s.conf <= 92.0
    ensures s.pick == Bet(Red) <==>
              |h| >= 50 && TrendScore(h) >= 0.65 &&
              Ratio(h, 5) >= 0.6 && Ratio(h, 10) >= 0.55 && Ratio(h, 20) >= 0.52
    ensures s.pick == Bet(Black) <==>
              |h| >= 50 && TrendScore(h) <= 0.35 &&
              Ratio(h, 5) <= 0.4 && Ratio(h, 10) <= 0.45 && Ratio(h, 20) <= 0.48
  {
    if |h| < 50 then Abstain
    else
      var r5, r10, r20 := Ratio(h, 5), Ratio(h, 10), Ratio(h, 20);
      var score := TrendScore(h);
      if score >= 0.65 then
        if r5 >= 0.6 && r10 >= 0.55 && r20 >= 0.52 then
          Signal(Bet(Red), Min(70.0 + (score - 0.5) * 100.0, 92.0))
        else Abstain
      else if score <= 0.35 then
        if r5 <= 0.4 && r10 <= 0.45 && r20 <= 0.48 then
          Signal(Bet(Black), Min(70.0 + (0.5 - score) * 100.0, 92.0))
        else Abstain
      else Abstain
  }

  /** The share of the opposite colour among the non-white outcomes of the
      last 40, when there are any. */
  function OppositeShare(h: seq<Color>, opposite: Color): (r: real)
    requires |NonWhite(Last(h, 40))| > 0
    ensures 0.0 <= r <= 1.0
  {
    var l40 := NonWhite(Last(h, 40));
    CountBound(l40, opposite);
    FractionBounds(Count(l40, opposite), |l40|);
    Count(l40, opposite) as real / |l40| as real
  }

  /** ultra_reversal: only after a non-white streak of exactly four or five,
      and only when the opposite colour is under 42% of the last 40
      non-whites; the confidence then lies in (76, 90]. */
  function UltraReversal(h: seq<Color>): (s: Signal)
    ensures s.pick == Skip <==> s == Abstain
    ensures s.pick != Skip <==> Reverses(h)
    ensures s.pick != Skip ==> s.pick == Bet(Against(h)) && IsColourBet(s.pick) && 76.0 < s.conf <= 90.0
  {
    if |h| < 20 then Abstain
    else
      var nw := NonWhite(h);
      if |nw| < 15 then Abstain
      else
        var streak := NonWhiteStreak(h);
        if streak == 4 || streak == 5 then
          var opposite := Against(h);
          if |NonWhite(Last(h, 40))| > 0 then
            var ratio := OppositeShare(h, opposite);
            if ratio < 0.42 then Reversing(opposite, streak, ratio)
            else Abstain
          else Abstain
        else Abstain
  }

  /** The colour ultra_reversal bets on: the opposite of the last non-white
      outcome. */
  function Against(h: seq<Color>): Color
    requires |NonWhite(h)| > 0
  {
    OppositeOf(NonWhite(h)[|NonWhite(h)| - 1])
  }

  /** The conditions under which ultra_reversal fires, in the order it
      checks them. */
  predicate Reverses(h: seq<Color>) {
    |h| >= 20 && |NonWhite(h)| >= 15 && (NonWhiteStreak(h) == 4 || NonWhiteStreak(h) == 5) &&
    |NonWhite(Last(h, 40))| > 0 && OppositeShare(h, Against(h)) < 0.42
  }

  /** The signal against a streak of four or five when the opposite colour
      has been scarce: above 76 and capped at 90. */
  function Reversing(opposite: Color, streak: nat, ratio: real): (s: Signal)
    requires (streak == 4 || streak == 5) && 0.0 <= ratio < 0.42
    ensures s.pick == Bet(opposite) && 76.0 < s.conf <= 90.0
  {
    Signal(Bet(opposite), Min(72.0 + (streak - 4) as real * 5.0 + (0.5 - ratio) * 50.0, 90.0))
  }

  /** ultra_reversal as written, with its streak loop. */
  method ComputeUltraReversal(h: seq<Color>) returns (s: Signal)
    ensures s == UltraReversal(h)
  {
    if |h| < 20 {
      return Abstain;
    }
    var nw := NonWhite(h);
    if |nw| < 15 {
      return Abstain;
    }
    var last := nw[|nw| - 1];
    var streak := CountNonWhiteStreak(h);
    s := Abstain;
    if streak == 4 || streak == 5 {
      var opposite := OppositeOf(last);
      assert opposite == Against(h);
      var l40 := NonWhite(Last(h, 40));
      if |l40| > 0 {
        var ratio := OppositeShare(h, opposite);
        if ratio < 0.42 {
          s := Reversing(opposite, streak, ratio);
        }
      }
    }
  }

  /** AABBCCDD with each pair different from the next. */
  predicate Block2222(w: seq<Color>) {
    |w| == 8 && w[0] == w[1] && w[2] == w[3] && w[4] == w[5] && w[6] == w[7] &&
    w[0] != w[2] && w[2] != w[4] && w[4] != w[6]
  }

  /** The non-white outcomes among the last 15. */
  function Recent(h: seq<Color>): seq<Color> {
    NonWhite(Last(h, 15))
  }

  /** ultra_pattern: over the non-whites of the last 15 (at least ten), the
      2-2-2-2 block gives 85 and the 3-3-3 block 88, both for the colour
      opposite the last non-white outcome. */
  function UltraPattern(h: seq<Color>): (s: Signal)
    ensures s.pick != Skip ==> IsColourBet(s.pick) && 85.0 <= s.conf <= 88.0
    ensures s.pick == Skip <==> s == Abstain
    ensures s.pick != Skip ==>
              |Recent(h)| >= 10 && s.pick == Bet(OppositeOf(Recent(h)[|Recent(h)| - 1]))
    ensures s.conf == 85.0 <==> |h| >= 15 && |Recent(h)| >= 10 && Block2222(Recent(h)[|Recent(h)| - 8..])
    ensures s.conf == 88.0 <==>
              |h| >= 15 && |Recent(h)| >= 10 && !Block2222(Recent(h)[|Recent(h)| - 8..]) &&
              Block33(Recent(h)[|Recent(h)| - 9..])
    ensures s.conf in {0.0, 85.0, 88.0}
  {
    if |h| < 15 then Abstain
    else
      var nw := Recent(h);
      if |nw| < 10 then Abstain
      else
        var l8 := nw[|nw| - 8..];
        var l9 := nw[|nw| - 9..];
        OppositeAgreesOffWhite(nw[|nw| - 1]);
        if Block2222(l8) then Signal(Bet(NextAfter(l8[7])), 85.0)
        else if Block33(l9) then Signal(Bet(NextAfter(l9[8])), 88.0)
        else Abstain
  }

  /** The strategies dict of ultra_combined with the weights 1.0, 1.3 and 2.0. */
  function Ballots(h: seq<Color>, reversal: Signal): seq<Ballot> {
    [Ballot("trend", UltraTrend(h), 1.0),
     Ballot("reversal", reversal, 1.3),
     Ballot("pattern", UltraPattern(h), 2.0)]
  }

  /** Only red or black signals of at least 70 vote. */
  const Bar: Threshold := AtLeast(70.0)

  const NoBest: Best := Best(Skip, 0.0, "none")

  function Vote(h: seq<Color>): Tally {
    Fold(Ballots(h, UltraReversal(h)), Bar, NoBest)
  }

  function Skipped(reason: string): Decision {
    Decision(Skip, 0.0, reason, false)
  }

  /** The decision after the vote. A 75% share (with two agreeing strategies
      or a best signal of 85) enters on the mean valid confidence plus 3,
      capped at 95; failing consensus, a best signal of 85 is entered as it
      is. The mean is taken over every valid strategy, because the `_` of
      the comprehension is rebound to the colour, which always passes its
      test. */
  function Decide(t: Tally): (d: Decision)
    ensures |t.confs| == 0 ==> d == Skipped("sem_sinal_forte")
    ensures |t.confs| > 0 && t.red + t.black == 0.0 ==> d == Skipped("sem_votos")
    ensures !d.enter ==> d.pick == Skip && d.conf == 0.0
    ensures d.enter ==> d.pick.Bet? && d.strategy == t.best.name
    ensures |t.confs| > 0 && t.red + t.black != 0.0 && t.red / (t.red + t.black) >= 0.75 ==>
              d == (if |t.redConfs| >= 2 || t.best.conf >= 85.0
                    then Decision(Bet(Red), Min(Mean(t.confs) + 3.0, 95.0), t.best.name, true)
                    else Skipped("consenso_insuficiente"))
    ensures |t.confs| > 0 && t.red + t.black != 0.0 && t.red / (t.red + t.black) <= 0.25 ==>
              d == (if |t.blackConfs| >= 2 || t.best.conf >= 85.0
                    then Decision(Bet(Black), Min(Mean(t.confs) + 3.0, 95.0), t.best.name, true)
                    else Skipped("consenso_insuficiente"))
    ensures |t.confs| > 0 && t.red + t.black != 0.0 && 0.25 < t.red / (t.red + t.black) < 0.75 ==>
              d == (if t.best.conf >= 85.0 && t.best.pick.Bet?
                    then Decision(t.best.pick, t.best.conf, t.best.name, true)
                    else Skipped("consenso_insuficiente"))
  {
    if |t.confs| == 0 then Skipped("sem_sinal_forte")
    else
      var total := t.red + t.black;
      if total == 0.0 then Skipped("sem_votos")
      else
        var ratio := t.red / total;
        if ratio >= 0.75 && (|t.redConfs| >= 2 || t.best.conf >= 85.0) then
          Decision(Bet(Red), Min(Mean(t.confs) + 3.0, 95.0), t.best.name, true)
        else if ratio <= 0.25 && (|t.blackConfs| >= 2 || t.best.conf >= 85.0) then
          Decision(Bet(Black), Min(Mean(t.confs) + 3.0, 95.0), t.best.name, true)
        else if t.best.conf >= 85.0 && t.best.pick.Bet? then
          Decision(t.best.pick, t.best.conf, t.best.name, true)
        else Skipped("consenso_insuficiente")
  }

  /** ultra_combined: a veto or the absence of any signal of 70 skips; every
      entry is a colour with confidence in [70, 95]. */
  function UltraCombined(h: seq<Color>): (d: Decision)
    ensures UltraFilter(h).skip ==> d == Skipped(UltraFilter(h).reason)
    ensures d.enter ==> IsColourBet(d.pick) && 70.0 <= d.conf <= 95.0
    ensures !d.enter ==> d.pick == Skip && d.conf == 0.0
  {
    var v := UltraFilter(h);
    if v.skip then Skipped(v.reason) else Voted(h)
  }

  /** A run of six or more equal non-white outcomes is never entered,
      whatever the strategies propose. */
  lemma LongRunNeverEnters(h: seq<Color>)
    ensures NonWhiteStreak(h) >= 6 ==> UltraCombined(h) == Skipped(UltraFilter(h).reason)
  {
  }

  function Voted(h: seq<Color>): (d: Decision)
    ensures d.enter ==> IsColourBet(d.pick) && 70.0 <= d.conf <= 95.0
    ensures !d.enter ==> d.pick == Skip && d.conf == 0.0
  {
    VoteFacts(h);
    VotedDecision(Vote(h));
    Decide(Vote(h))
  }

  /** Every valid confidence lies in [70, 92], and a best record above 0
      names a colour. The total is positive once something voted, so the
      'sem_votos' branch of ultra_combined is never taken. */
  lemma VoteFacts(h: seq<Color>)
    ensures var t := Vote(h);
      (forall x :: x in t.confs ==> 70.0 <= x <= 92.0) && t.best.conf <= 92.0 &&
      (|t.confs| > 0 ==> t.red + t.black > 0.0) &&
      (t.best.conf > 0.0 ==> IsColourBet(t.best.pick))
  {
    BallotsSound(h);
    TallySound(Ballots(h, UltraReversal(h)), Bar, NoBest, 70.0, 92.0);
  }

  /** Each strategy's colour signals lie in [70, 92], one strategy at a time. */
  lemma TrendInRange(h: seq<Color>)
    ensures IsColourBet(UltraTrend(h).pick) ==> 70.0 <= UltraTrend(h).conf <= 92.0
  {
  }

  lemma ReversalInRange(h: seq<Color>)
    ensures IsColourBet(UltraReversal(h).pick) ==> 70.0 <= UltraReversal(h).conf <= 92.0
  {
  }

  lemma PatternInRange(h: seq<Color>)
    ensures IsColourBet(UltraPattern(h).pick) ==> 70.0 <= UltraPattern(h).conf <= 92.0
  {
  }

  /** Every ballot has weight and every voting signal a confidence in
      [70, 92]. */
  /** No signal of at least 70 means nothing was collected, and with the gate
      open the decision is 'sem_sinal_forte' and no entry. */
  lemma Silent(h: seq<Color>)
    ensures |Vote(h).confs| == 0 <==>
              !Eligible(UltraTrend(h), Bar) && !Eligible(UltraReversal(h), Bar) && !Eligible(UltraPattern(h), Bar)
    ensures !UltraFilter(h).skip && !Eligible(UltraTrend(h), Bar) &&
            !Eligible(UltraReversal(h), Bar) && !Eligible(UltraPattern(h), Bar) ==>
              UltraCombined(h) == Skipped("sem_sinal_forte")
  {
    var bs := Ballots(h, UltraReversal(h));
    FoldSilent(bs, Bar, NoBest);
    assert bs[0].signal == UltraTrend(h) && bs[1].signal == UltraReversal(h) && bs[2].signal == UltraPattern(h);
  }

  lemma BallotsSound(h: seq<Color>)
    ensures PositiveBallots(Ballots(h, UltraReversal(h)), Bar) && Bounded(Ballots(h, UltraReversal(h)), Bar, 70.0, 92.0)
  {
    var t, r, p := UltraTrend(h), UltraReversal(h), UltraPattern(h);
    TrendInRange(h);
    ReversalInRange(h);
    PatternInRange(h);
    ThreeBallotsSound(Ballot("trend", t, 1.0), Ballot("reversal", r, 1.3), Ballot("pattern", p, 2.0), Bar, 70.0, 92.0);
  }

  /** The decision of a tally with those facts is a colour in [70, 95]. */
  lemma VotedDecision(t: Tally)
    requires forall x :: x in t.confs ==> 70.0 <= x <= 92.0
    requires t.best.conf <= 92.0 && (|t.confs| > 0 ==> t.red + t.black > 0.0)
    requires t.best.conf > 0.0 ==> IsColourBet(t.best.pick)
    ensures var d := Decide(t);
      d.enter ==> IsColourBet(d.pick) && 70.0 <= d.conf <= 95.0
  {
    if |t.confs| > 0 {
      MeanBounds(t.confs, 70.0, 92.0);
    }
  }

  /** ultra_combined as written: the filter loop, the reversal loop and the
      vote loop. */
  method UltraCombinedStrategy(h: seq<Color>) returns (d: Decision)
    ensures d == UltraCombined(h)
  {
    var v := ComputeUltraFilter(h);
    if v.skip {
      return Skipped(v.reason);
    }
    var reversal := ComputeUltraReversal(h);
    var t := CastVotes(Ballots(h, reversal), Bar, NoBest);
    d := Decide(t);
  }

  /** The stats dict of simulate_ultra; the rates are 0 without entries. */
  datatype Report = Report(
    entries: nat, wins: nat, losses: nat, skipped: nat,
    winPrincipal: nat, winMg1: nat, winMg2: nat,
    strategies: multiset<string>, skipReasons: multiset<string>,
    winRate: real, entryRate: real)

  datatype Counters = Counters(
    entries: nat, wins: nat, losses: nat, skipped: nat,
    winPrincipal: nat, winMg1: nat, winMg2: nat,
    strategies: multiset<string>, skipReasons: multiset<string>)

  predicate Consistent(c: Counters) {
    c.wins + c.losses == c.entries &&
    c.wins == c.winPrincipal + c.winMg1 + c.winMg2 &&
    |c.strategies| == c.entries && |c.skipReasons| == c.skipped
  }

  function RecordSkip(c: Counters, reason: string): (c': Counters)
    ensures Consistent(c) ==> Consistent(c')
    ensures c'.skipped == c.skipped + 1 && c'.entries == c.entries && c'.wins == c.wins
    ensures c'.skipReasons == c.skipReasons + multiset{reason}
  {
    c.(skipped := c.skipped + 1, skipReasons := c.skipReasons + multiset{reason})
  }

  /** The counters after an entry; every win beyond level 1 is counted as a
      win at mg2 (the `else` of the level test). */
  function RecordEntry(c: Counters, strategy: string, a: Attempt): (c': Counters)
    ensures Consistent(c) ==> Consistent(c')
    ensures c'.entries == c.entries + 1 && c'.skipped == c.skipped
    ensures c'.wins == c.wins + (if a.Won? then 1 else 0)
    ensures c'.strategies == c.strategies + multiset{strategy}
  {
    var c1 := c.(entries := c.entries + 1, strategies := c.strategies + multiset{strategy});
    match a
    case Lost => c1.(losses := c.losses + 1)
    case Won(0) => c1.(wins := c.wins + 1, winPrincipal := c.winPrincipal + 1)
    case Won(1) => c1.(wins := c.wins + 1, winMg1 := c.winMg1 + 1)
    case Won(_) => c1.(wins := c.wins + 1, winMg2 := c.winMg2 + 1)
  }

  function Finish(c: Counters): Report {
    Report(c.entries, c.wins, c.losses, c.skipped, c.winPrincipal, c.winMg1, c.winMg2,
           c.strategies, c.skipReasons,
           if c.entries > 0 then c.wins as real / c.entries as real * 100.0 else 0.0,
           if c.entries > 0 then c.entries as real / (c.entries + c.skipped) as real * 100.0 else 0.0)
  }

  /** The rates of the stats dict: wins over entries and entries over all games, both
      times 100, and both 0 without entries. */
  lemma FinishRates(c: Counters, r: Report)
    requires r == Finish(c)
    ensures r.entries > 0 ==>
              r.winRate == r.wins as real / r.entries as real * 100.0 &&
              r.entryRate == r.entries as real / (r.entries + r.skipped) as real * 100.0
    ensures r.entries == 0 ==> r.winRate == 0.0 && r.entryRate == 0.0
  {
  }

  /** `for mg in range(3)`: the principal bet and two martingales. */
  const LevelsPlayed: nat := 3

  function Choice(h: seq<Color>): Decision {
    UltraCombined(h)
  }

  /** The rest of one iteration of the for loop of simulate_ultra once the
      decision d is taken: a skip draws one outcome and records its reason,
      an entry plays the ladder and records its strategy and result. */
  method Settle(c: Counters, history: seq<Color>, draws: seq<real>, d: Decision)
    returns (c': Counters, history': seq<Color>)
    requires Drawn(history, draws) && |history| + LevelsPlayed <= |draws|
    ensures Drawn(history', draws) && (Consistent(c) ==> Consistent(c'))
    ensures !d.enter ==>
              c' == RecordSkip(c, d.strategy) &&
              history' == history + [Generator.BlazeResult(draws[|history|])]
    ensures d.enter ==>
              var a := Ladder(d.pick, Outcomes(draws[|history|..|history| + LevelsPlayed]), LevelsPlayed);
              c' == RecordEntry(c, d.strategy, a) &&
              |history'| == |history| + Consumed(a, LevelsPlayed) &&
              history' == history + Outcomes(draws[|history|..|history'|])
    ensures !d.enter ==> c'.entries == c.entries && c'.skipped == c.skipped + 1 && |history'| == |history| + 1
    ensures d.enter ==>
              c'.entries == c.entries + 1 && c'.skipped == c.skipped &&
              |history| < |history'| <= |history| + LevelsPlayed
  {
    if !d.enter {
      history' := DrawOne(draws, history);
      c' := RecordSkip(c, d.strategy);
    } else {
      var a;
      a, history' := PlayNext(d.pick, draws, LevelsPlayed, history);
      c' := RecordEntry(c, d.strategy, a);
    }
  }

  /** One game of the loop of simulate_ultra as a function of the strategy, the counters,
      the history so far and the stream of draws: the strategy decides on the history; a
      skip draws one outcome and records its reason, an entry plays the three-round ladder
      on the next draws and records its strategy and result. */
  function Game(strategy: seq<Color> -> Decision, c: Counters, h: seq<Color>, draws: seq<real>): (g: (Counters, seq<Color>))
    requires |h| + LevelsPlayed <= |draws|
    ensures Consistent(c) ==> Consistent(g.0)
    ensures || (g.0.entries == c.entries && g.0.skipped == c.skipped + 1 && |g.1| == |h| + 1)
            || (g.0.entries == c.entries + 1 && g.0.skipped == c.skipped && |h| < |g.1| <= |h| + LevelsPlayed)
    ensures g.1[..|h|] == h
  {
    var d := strategy(h);
    if !d.enter then (RecordSkip(c, d.strategy), h + [Generator.BlazeResult(draws[|h|])])
    else
      var outs := Outcomes(draws[|h|..|h| + LevelsPlayed]);
      var a := Ladder(d.pick, outs, LevelsPlayed);
      (RecordEntry(c, d.strategy, a), h + Outcomes(draws[|h|..|h| + Consumed(a, LevelsPlayed)]))
  }

  /** n games played one after the other from counters c and history h. */
  function Games(strategy: seq<Color> -> Decision, n: nat, c: Counters, h: seq<Color>, draws: seq<real>): (Counters, seq<Color>)
    requires |h| + Budget(n, LevelsPlayed) <= |draws|
  {
    if n == 0 then (c, h)
    else
      var g := Game(strategy, c, h, draws);
      Games(strategy, n - 1, g.0, g.1, draws)
  }

  /** Over n games every game is counted once, the counters stay consistent, and the
      history grows by one to three outcomes per game: exactly one per skip and at most
      three per entry. */
  lemma {:induction false} GamesShape(strategy: seq<Color> -> Decision, n: nat, c: Counters, h: seq<Color>, draws: seq<real>)
    requires |h| + Budget(n, LevelsPlayed) <= |draws|
    ensures var g := Games(strategy, n, c, h, draws);
            && g.0.entries + g.0.skipped == c.entries + c.skipped + n
            && c.entries <= g.0.entries && c.skipped <= g.0.skipped
            && (Consistent(c) ==> Consistent(g.0))
            && |h| + g.0.skipped + g.0.entries <= |g.1| + c.skipped + c.entries
            && |g.1| + c.skipped + 3 * c.entries <= |h| + g.0.skipped + 3 * g.0.entries
  {
    if n > 0 {
      var g := Game(strategy, c, h, draws);
      GamesShape(strategy, n - 1, g.0, g.1, draws);
    }
  }

  /** The counters simulate_ultra starts from. */
  const Start: Counters := Counters(0, 0, 0, 0, 0, 0, 0, multiset{}, multiset{})

  /** From consistent counters with nothing recorded yet, such as Start, whatever the
      strategy: every game is counted once, the counters stay consistent, and the history
      grows by one outcome per skip and by one to three outcomes per entry. */
  lemma GamesFromStart(strategy: seq<Color> -> Decision, n: nat, c: Counters, h: seq<Color>, draws: seq<real>)
    requires c.entries == 0 && c.skipped == 0 && Consistent(c)
    requires |h| + Budget(n, LevelsPlayed) <= |draws|
    ensures var g := Games(strategy, n, c, h, draws);
            Consistent(g.0) && g.0.entries + g.0.skipped == n &&
            |h| + g.0.skipped + g.0.entries <= |g.1| <= |h| + g.0.skipped + 3 * g.0.entries
  {
    GamesShape(strategy, n, c, h, draws);
  }

  /** The report of n games from the initial counters, whatever the strategy: every game
      is counted once with its strategy or its skip reason, wins and losses split the
      entries, and the history grows by one outcome per skip and by one to three outcomes
      per entry. */
  lemma GamesReport(strategy: seq<Color> -> Decision, n: nat, h: seq<Color>, draws: seq<real>)
    requires |h| + Budget(n, LevelsPlayed) <= |draws|
    ensures var g := Games(strategy, n, Start, h, draws);
            var r := Finish(g.0);
            && r.entries + r.skipped == n
            && r.wins + r.losses == r.entries
            && r.wins == r.winPrincipal + r.winMg1 + r.winMg2
            && |r.strategies| == r.entries && |r.skipReasons| == r.skipped
            && |h| + r.skipped + r.entries <= |g.1| <= |h| + r.skipped + 3 * r.entries
  {
    GamesFromStart(strategy, n, Start, h, draws);
  }

  /** One iteration of the for loop of simulate_ultra: the strategy's decision on the
      history, then Settle. */
  method PlayGame(strategy: seq<Color> -> Decision, c: Counters, history: seq<Color>, draws: seq<real>)
    returns (c': Counters, history': seq<Color>)
    requires Drawn(history, draws) && |history| + LevelsPlayed <= |draws|
    ensures (c', history') == Game(strategy, c, history, draws) && Drawn(history', draws)
  {
    var d := strategy(history);
    c', history' := Settle(c, history, draws, d);
  }

  /** The first of k games is one Game; the other k - 1 follow from where it leaves off. */
  lemma GamesStep(strategy: seq<Color> -> Decision, k: nat, c: Counters, h: seq<Color>, draws: seq<real>)
    requires k > 0
    requires |h| + Budget(k, LevelsPlayed) <= |draws|
    ensures |h| + LevelsPlayed <= |draws|
    ensures var g := Game(strategy, c, h, draws);
            && |g.1| + Budget(k - 1, LevelsPlayed) <= |draws|
            && Games(strategy, k - 1, g.0, g.1, draws) == Games(strategy, k, c, h, draws)
  {
  }

  /** One iteration of the loop of Run with k games left: the games still to play after
      it end where the k games from before it would. */
  method Advance(strategy: seq<Color> -> Decision, k: nat, c: Counters, history: seq<Color>, draws: seq<real>)
    returns (c': Counters, history': seq<Color>)
    requires k > 0 && Drawn(history, draws)
    requires Fits(LevelsPlayed, k, history, draws)
    ensures Drawn(history', draws) && Fits(LevelsPlayed, k - 1, history', draws)
    ensures Games(strategy, k - 1, c', history', draws) == Games(strategy, k, c, history, draws)
  {
    GamesStep(strategy, k, c, history, draws);
    c', history' := PlayGame(strategy, c, history, draws);
  }

  /** The for loop of simulate_ultra over n games, from counters c0. */
  method Run(strategy: seq<Color> -> Decision, n: nat, c0: Counters, draws: seq<real>, history0: seq<Color>)
    returns (c: Counters, history: seq<Color>)
    requires Drawn(history0, draws) && |history0| + Budget(n, LevelsPlayed) <= |draws|
    ensures (c, history) == Games(strategy, n, c0, history0, draws) && Drawn(history, draws)
  {
    history := history0;
    c := c0;
    var i: nat := 0;
    while i < n
      invariant i <= n
      invariant Fits(LevelsPlayed, n - i, history, draws)
      invariant Games(strategy, n - i, c, history, draws) == Games(strategy, n, c0, history0, draws)
      invariant Drawn(history, draws)
    {
      c, history := Advance(strategy, n - i, c, history, draws);
      i := i + 1;
    }
  }

  const InitialHistory: nat := 100

  /** simulate_ultra with the stream of random draws as input: the games are those of
      ultra_combined on the history that grows from the first 100 draws. */
  method Simulate(nGames: int, draws: seq<real>) returns (r: Report, history: seq<Color>)
    requires |draws| >= InitialHistory + Budget(if nGames < 0 then 0 else nGames, LevelsPlayed)
    ensures var g := Games(Choice, if nGames < 0 then 0 else nGames, Start, Outcomes(draws[..InitialHistory]), draws);
              r == Finish(g.0) && history == g.1
    ensures r.entries + r.skipped == (if nGames < 0 then 0 else nGames)
    ensures r.wins + r.losses == r.entries
    ensures r.wins == r.winPrincipal + r.winMg1 + r.winMg2
    ensures |r.strategies| == r.entries && |r.skipReasons| == r.skipped
    ensures Drawn(history, draws)
    ensures InitialHistory + r.skipped + r.entries <= |history| <= InitialHistory + r.skipped + 3 * r.entries
    ensures r.entries > 0 ==>
              r.winRate == r.wins as real / r.entries as real * 100.0 &&
              r.entryRate == r.entries as real / (r.entries + r.skipped) as real * 100.0
    ensures r.entries == 0 ==> r.winRate == 0.0 && r.entryRate == 0.0
  {
    var n: nat := if nGames < 0 then 0 else nGames;
    var c;
    c, history := Run(Choice, n, Start, draws, Outcomes(draws[..InitialHistory]));
    GamesReport(Choice, n, Outcomes(draws[..InitialHistory]), draws);
    r := Finish(c);
    FinishRates(c, r);
  }

}
