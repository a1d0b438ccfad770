/** The "premium" backtesting variant (backend/backtest_premium.py): one
    detector of high-confidence patterns over the non-white outcomes, a light
    filter, and a simulation with two martingales that counts wins and
    losses per pattern. */
module Premium {
  import opened Hist
  import opened Voting
  import opened Martingale
  import Generator

  /** What detect_high_confidence_pattern returns: the colour or 'skip', the
      confidence and the pattern's name (or the reason for skipping). */
  datatype Detection = Detection(pick: Pick, conf: real, pattern: string)

  /** The reversal test: a streak of exactly four or five whose opposite
      colour is under 38% of the last 30 non-whites. */
  predicate StrongReversal(nw: seq<Color>)
    requires |nw| > 0
  {
    var streak := RunOf(nw, nw[|nw| - 1]);
    var l30 := Last(nw, 30);
    (streak == 4 || streak == 5) &&
    Count(l30, OppositeOf(nw[|nw| - 1])) as real / |l30| as real < 0.38
  }

  /** AABBCCDD with each pair different from the next. */
  predicate Block2222(w: seq<Color>) {
    |w| == 8 && w[0] == w[1] && w[2] == w[3] && w[4] == w[5] && w[6] == w[7] &&
    w[0] != w[2] && w[2] != w[4] && w[4] != w[6]
  }

  /** Red dominating (or black dominating) every timeframe of the last 5,
      10, 20 and 30 non-whites. */
  predicate RedEverywhere(nw: seq<Color>) {
    Count(Last(nw, 5), Red) >= 4 && Count(Last(nw, 10), Red) >= 7 &&
    Count(Last(nw, 20), Red) >= 13 && Count(Last(nw, 30), Red) >= 19
  }

  predicate BlackEverywhere(nw: seq<Color>) {
    Count(Last(nw, 5), Red) <= 1 && Count(Last(nw, 10), Red) <= 3 &&
    Count(Last(nw, 20), Red) <= 7 && Count(Last(nw, 30), Red) <= 11
  }

  /** red_30 / 30: the count is divided by 30 even when fewer than 30
      non-white outcomes exist. */
  function RedShare30(nw: seq<Color>): real {
    Count(Last(nw, 30), Red) as real / 30.0
  }

  /** detect_high_confidence_pattern, in priority order: the strong reversal
      (confidence above 87.6, at most 95), the 2-2 block (88), the 3-3 block
      (90), the all-timeframe trend (85) and the statistical correction (80).
      The two blocks bet on the colour opposite the last non-white outcome. */
  function HighConfidencePattern(h: seq<Color>): (d: Detection)
    ensures |h| < 30 ==> d == Detection(Skip, 0.0, "histórico_insuficiente")
    ensures |h| >= 30 && |NonWhite(h)| < 25 ==> d == Detection(Skip, 0.0, "dados_insuficientes")
    ensures d.pick == Skip ==> d.conf == 0.0
    ensures d.pick != Skip ==> IsColourBet(d.pick) && 80.0 <= d.conf <= 95.0
    ensures |h| >= 30 && |NonWhite(h)| >= 25 ==>
              var nw := NonWhite(h);
              (StrongReversal(nw) ==> d.pick == Bet(OppositeOf(nw[|nw| - 1])) && d.conf > 87.6) &&
              (!StrongReversal(nw) && Block2222(nw[|nw| - 8..]) ==>
                 d == Detection(Bet(OppositeOf(nw[|nw| - 1])), 88.0, "padrão_2-2")) &&
              (!StrongReversal(nw) && !Block2222(nw[|nw| - 8..]) && Block33(nw[|nw| - 9..]) ==>
                 d == Detection(Bet(OppositeOf(nw[|nw| - 1])), 90.0, "padrão_3-3"))
    ensures d.pick == Skip && |h| >= 30 && |NonWhite(h)| >= 25 ==> d.pattern == "sem_padrão_forte"
  {
    if |h| < 30 then Detection(Skip, 0.0, "histórico_insuficiente")
    else
      var nw := NonWhite(h);
      if |nw| < 25 then Detection(Skip, 0.0, "dados_insuficientes")
      else Detect(nw)
  }

  /** The pattern tests over at least 25 non-white outcomes. */
  function Detect(nw: seq<Color>): (d: Detection)
    requires |nw| >= 25 && forall k :: 0 <= k < |nw| ==> nw[k] != White
    ensures d.pick == Skip ==> d == Detection(Skip, 0.0, "sem_padrão_forte")
    ensures d.pick != Skip ==> IsColourBet(d.pick) && 80.0 <= d.conf <= 95.0
    ensures StrongReversal(nw) ==> d.pick == Bet(OppositeOf(nw[|nw| - 1])) && d.conf > 87.6
    ensures !StrongReversal(nw) && Block2222(nw[|nw| - 8..]) ==>
              d == Detection(Bet(OppositeOf(nw[|nw| - 1])), 88.0, "padrão_2-2")
    ensures !StrongReversal(nw) && !Block2222(nw[|nw| - 8..]) && Block33(nw[|nw| - 9..]) ==>
              d == Detection(Bet(OppositeOf(nw[|nw| - 1])), 90.0, "padrão_3-3")
  {
    var last := nw[|nw| - 1];
    OppositeAgreesOffWhite(last);
    if StrongReversal(nw) then Reversal(nw)
    else if Block2222(nw[|nw| - 8..]) then Detection(Bet(NextAfter(last)), 88.0, "padrão_2-2")
    else if Block33(nw[|nw| - 9..]) then Detection(Bet(NextAfter(last)), 90.0, "padrão_3-3")
    else TrendOrCorrection(nw)
  }

  /** The strong reversal: the opposite colour with confidence
      78 + (0.5 - ratio) * 80 + (streak - 4) * 3, capped at 95, and so above
      87.6. */
  function Reversal(nw: seq<Color>): (d: Detection)
    requires |nw| >= 25 && StrongReversal(nw)
    ensures d.pick == Bet(OppositeOf(nw[|nw| - 1])) && 87.6 < d.conf <= 95.0
  {
    var last := nw[|nw| - 1];
    var streak := RunOf(nw, last);
    var opposite := OppositeOf(last);
    var l30 := Last(nw, 30);
    var ratio := Count(l30, opposite) as real / |l30| as real;
    Detection(Bet(opposite), Min(78.0 + (0.5 - ratio) * 80.0 + (streak - 4) as real * 3.0, 95.0),
              if streak == 4 then "reversão_forte_4x" else "reversão_forte_5x")
  }

  /** The last two tests: the all-timeframe trend (85), then the
      statistical correction (80). */
  function TrendOrCorrection(nw: seq<Color>): (d: Detection)
    ensures d.pick == Skip ==> d == Detection(Skip, 0.0, "sem_padrão_forte")
    ensures d.pick != Skip ==> IsColourBet(d.pick) && (d.conf == 80.0 || d.conf == 85.0)
    ensures RedEverywhere(nw) ==> d == Detection(Bet(Red), 85.0, "tendência_vermelha_total")
    ensures d.conf == 80.0 ==> !RedEverywhere(nw) && !BlackEverywhere(nw)
    ensures BlackEverywhere(nw) ==> d == Detection(Bet(Black), 85.0, "tendência_preta_total")
    ensures !RedEverywhere(nw) && !BlackEverywhere(nw) && RedShare30(nw) < 0.33 && Count(Last(nw, 5), Red) >= 2 ==>
              d == Detection(Bet(Red), 80.0, "correção_vermelha")
    ensures !RedEverywhere(nw) && !BlackEverywhere(nw) && !(RedShare30(nw) < 0.33 && Count(Last(nw, 5), Red) >= 2) &&
            RedShare30(nw) > 0.67 && Count(Last(nw, 5), Red) <= 3 ==>
              d == Detection(Bet(Black), 80.0, "correção_preta")
    ensures !RedEverywhere(nw) && !BlackEverywhere(nw) && !(RedShare30(nw) < 0.33 && Count(Last(nw, 5), Red) >= 2) &&
            !(RedShare30(nw) > 0.67 && Count(Last(nw, 5), Red) <= 3) ==>
              d == Detection(Skip, 0.0, "sem_padrão_forte")
  {
    if RedEverywhere(nw) then Detection(Bet(Red), 85.0, "tendência_vermelha_total")
    else if BlackEverywhere(nw) then Detection(Bet(Black), 85.0, "tendência_preta_total")
    else if RedShare30(nw) < 0.33 && Count(Last(nw, 5), Red) >= 2 then Detection(Bet(Red), 80.0, "correção_vermelha")
    else if RedShare30(nw) > 0.67 && Count(Last(nw, 5), Red) <= 3 then Detection(Bet(Black), 80.0, "correção_preta")
    else Detection(Skip, 0.0, "sem_padrão_forte")
  }

  /** detect_high_confidence_pattern as written, with its streak loop. */
  method DetectPattern(h: seq<Color>) returns (d: Detection)
    ensures d == HighConfidencePattern(h)
  {
    if |h| < 30 {
      return Detection(Skip, 0.0, "histórico_insuficiente");
    }
    var nw := NonWhite(h);
    if |nw| < 25 {
      return Detection(Skip, 0.0, "dados_insuficientes");
    }
    var streak := CountNonWhiteStreak(h);
    var last := nw[|nw| - 1];
    var l30 := Last(nw, 30);
    if streak == 4 || streak == 5 {
      var opposite := OppositeOf(last);
      var ratio := Count(l30, opposite) as real / |l30| as real;
      if ratio < 0.38 {
        var name := if streak == 4 then "reversão_forte_4x" else "reversão_forte_5x";
        return Detection(Bet(opposite), Min(78.0 + (0.5 - ratio) * 80.0 + (streak - 4) as real * 3.0, 95.0), name);
      }
    }
    if Block2222(nw[|nw| - 8..]) {
      return Detection(Bet(NextAfter(last)), 88.0, "padrão_2-2");
    }
    if Block33(nw[|nw| - 9..]) {
      return Detection(Bet(NextAfter(last)), 90.0, "padrão_3-3");
    }
    d := TrendOrCorrection(nw);
  }

  /** premium_filter: fewer than 25 outcomes, a white among the last ten, or
      at least 11 changes among the last 15 skip, in that order. */
  function PremiumFilter(h: seq<Color>): (v: Verdict)
    ensures v.skip <==> |h| < 25 || Count(Last(h, 10), White) >= 1 || Changes(Last(h, 15)) >= 11
    ensures !v.skip <==> v.reason == "ok"
    ensures |h| < 25 ==> v.reason == "histórico_insuficiente"
    ensures v.reason == "branco_recente" <==> |h| >= 25 && Count(Last(h, 10), White) >= 1
    ensures v.reason == "caótico" <==>
              |h| >= 25 && Count(Last(h, 10), White) == 0 && Changes(Last(h, 15)) >= 11
  {
    if |h| < 25 then Verdict(true, "histórico_insuficiente")
    else if Count(Last(h, 10), White) >= 1 then Verdict(true, "branco_recente")
    else if Changes(Last(h, 15)) >= 11 then Verdict(true, "caótico")
    else Verdict(false, "ok")
  }

  /** premium_strategy: enters exactly when the filter passes and a pattern
      of confidence 78 or more (in fact 80 or more) is detected. */
  function PremiumStrategy(h: seq<Color>): (d: Decision)
    ensures d.enter <==> !PremiumFilter(h).skip && HighConfidencePattern(h).pick != Skip
    ensures d.enter ==> IsColourBet(d.pick) && 80.0 <= d.conf <= 95.0 &&
                        d.pick == HighConfidencePattern(h).pick && d.strategy == HighConfidencePattern(h).pattern
    ensures !d.enter ==> d.pick == Skip && d.conf == 0.0
    ensures PremiumFilter(h).skip ==> d.strategy == PremiumFilter(h).reason
  {
    var v := PremiumFilter(h);
    if v.skip then Decision(Skip, 0.0, v.reason, false)
    else
      var p := HighConfidencePattern(h);
      if p.pick == Skip || p.conf < 78.0 then Decision(Skip, 0.0, p.pattern, false)
      else Decision(p.pick, p.conf, p.pattern, true)
  }

  /** premium_strategy with the detector's loop. */
  method ComputePremiumStrategy(h: seq<Color>) returns (d: Decision)
    ensures d == PremiumStrategy(h)
  {
    var v := PremiumFilter(h);
    if v.skip {
      return Decision(Skip, 0.0, v.reason, false);
    }
    var p := DetectPattern(h);
    if p.pick == Skip || p.conf < 78.0 {
      return Decision(Skip, 0.0, p.pattern, false);
    }
    d := Decision(p.pick, p.conf, p.pattern, true);
  }

  /** The stats dict of simulate_premium; patterns[p]['wins'] is
      patternWins[p] and patterns[p]['losses'] is patternLosses[p]. */
  datatype Report = Report(
    entries: nat, wins: nat, losses: nat, skipped: nat,
    winPrincipal: nat, winMg1: nat, winMg2: nat,
    patternWins: multiset<string>, patternLosses: multiset<string>, winRate: real)

  datatype Counters = Counters(
    entries: nat, wins: nat, losses: nat, skipped: nat,
    winPrincipal: nat, winMg1: nat, winMg2: nat,
    patternWins: multiset<string>, patternLosses: multiset<string>)

  predicate Consistent(c: Counters) {
    c.wins + c.losses == c.entries &&
    c.wins == c.winPrincipal + c.winMg1 + c.winMg2 &&
    |c.patternWins| == c.wins && |c.patternLosses| == c.losses
  }

  function RecordSkip(c: Counters): (c': Counters)
    ensures Consistent(c) ==> Consistent(c')
    ensures c'.skipped == c.skipped + 1 && c'.entries == c.entries && c'.wins == c.wins
  {
    c.(skipped := c.skipped + 1)
  }

  /** The counters after an entry on pattern that ended as a. */
  function RecordEntry(c: Counters, pattern: string, a: Attempt): (c': Counters)
    ensures Consistent(c) ==> Consistent(c')
    ensures c'.entries == c.entries + 1 && c'.skipped == c.skipped
    ensures a.Won? ==> c'.patternWins == c.patternWins + multiset{pattern} && c'.patternLosses == c.patternLosses
    ensures a.Lost? ==> c'.patternLosses == c.patternLosses + multiset{pattern} && c'.patternWins == c.patternWins
  {
    var c1 := c.(entries := c.entries + 1);
    match a
    case Lost => c1.(losses := c.losses + 1, patternLosses := c.patternLosses + multiset{pattern})
    case Won(k) =>
      var c2 := c1.(wins := c.wins + 1, patternWins := c.patternWins + multiset{pattern});
      if k == 0 then c2.(winPrincipal := c.winPrincipal + 1)
      else if k == 1 then c2.(winMg1 := c.winMg1 + 1)
      else c2.(winMg2 := c.winMg2 + 1)
  }

  function Finish(c: Counters): Report {
    Report(c.entries, c.wins, c.losses, c.skipped, c.winPrincipal, c.winMg1, c.winMg2,
           c.patternWins, c.patternLosses,
           if c.entries > 0 then c.wins as real / c.entries as real * 100.0 else 0.0)
  }

  /** `for mg in range(3)`: the principal bet and two martingales. */
  const LevelsPlayed: nat := 3

  function Choice(h: seq<Color>): Decision {
    PremiumStrategy(h)
  }

  /** One game of the loop of simulate_premium as a function of the strategy, the
      counters, the history so far and the stream of draws: the strategy decides on the
      history; a skip draws one outcome, an entry plays the three-round ladder on the
      next draws. */
  function Game(strategy: seq<Color> -> Decision, c: Counters, h: seq<Color>, draws: seq<real>): (g: (Counters, seq<Color>))
    requires |h| + LevelsPlayed <= |draws|
    ensures Consistent(c) ==> Consistent(g.0)
    ensures || (g.0.entries == c.entries && g.0.skipped == c.skipped + 1 && |g.1| == |h| + 1)
            || (g.0.entries == c.entries + 1 && g.0.skipped == c.skipped && |h| < |g.1| <= |h| + LevelsPlayed)
    ensures g.1[..|h|] == h
  {
    var d := strategy(h);
    if !d.enter then (RecordSkip(c), h + [Generator.BlazeResult(draws[|h|])])
    else
      var outs := Outcomes(draws[|h|..|h| + LevelsPlayed]);
      var a := Ladder(d.pick, outs, LevelsPlayed);
      (RecordEntry(c, d.strategy, a), h + Outcomes(draws[|h|..|h| + Consumed(a, LevelsPlayed)]))
  }

  /** n games played one after the other from counters c and history h. */
  function Games(strategy: seq<Color> -> Decision, n: nat, c: Counters, h: seq<Color>, draws: seq<real>): (Counters, seq<Color>)
    requires |h| + Budget(n, LevelsPlayed) <= |draws|
  {
    if n == 0 then (c, h)
    else
      var g := Game(strategy, c, h, draws);
      Games(strategy, n - 1, g.0, g.1, draws)
  }

  /** Over n games every game is counted once, the counters stay consistent, and the
      history grows by one to three outcomes per game: exactly one per skip and at most
      three per entry. */
  lemma {:induction false} GamesShape(strategy: seq<Color> -> Decision, n: nat, c: Counters, h: seq<Color>, draws: seq<real>)
    requires |h| + Budget(n, LevelsPlayed) <= |draws|
    ensures var g := Games(strategy, n, c, h, draws);
            && g.0.entries + g.0.skipped == c.entries + c.skipped + n
            && c.entries <= g.0.entries && c.skipped <= g.0.skipped
            && (Consistent(c) ==> Consistent(g.0))
            && |h| + g.0.skipped + g.0.entries <= |g.1| + c.skipped + c.entries
            && |g.1| + c.skipped + 3 * c.entries <= |h| + g.0.skipped + 3 * g.0.entries
  {
    if n > 0 {
      var g := Game(strategy, c, h, draws);
      GamesShape(strategy, n - 1, g.0, g.1, draws);
    }
  }

  /** The counters simulate_premium starts from. */
  const Start: Counters := Counters(0, 0, 0, 0, 0, 0, 0, multiset{}, multiset{})

  /** From consistent counters with nothing recorded yet, such as Start, whatever the
      strategy: every game is counted once, the counters stay consistent, and the history
      grows by one outcome per skip and by one to three outcomes per entry. */
  lemma GamesFromStart(strategy: seq<Color> -> Decision, n: nat, c: Counters, h: seq<Color>, draws: seq<real>)
    requires c.entries == 0 && c.skipped == 0 && Consistent(c)
    requires |h| + Budget(n, LevelsPlayed) <= |draws|
    ensures var g := Games(strategy, n, c, h, draws);
            Consistent(g.0) && g.0.entries + g.0.skipped == n &&
            |h| + g.0.skipped + g.0.entries <= |g.1| <= |h| + g.0.skipped + 3 * g.0.entries
  {
    GamesShape(strategy, n, c, h, draws);
  }

  /** The report of n games from the initial counters, whatever the strategy: every game
      is counted once, wins and losses split the entries, and the history grows by one
      outcome per skip and by one to three outcomes per entry. */
  lemma GamesReport(strategy: seq<Color> -> Decision, n: nat, h: seq<Color>, draws: seq<real>)
    requires |h| + Budget(n, LevelsPlayed) <= |draws|
    ensures var g := Games(strategy, n, Start, h, draws);
            var r := Finish(g.0);
            && r.entries + r.skipped == n
            && r.wins + r.losses == r.entries
            && r.wins == r.winPrincipal + r.winMg1 + r.winMg2
            && |r.patternWins| == r.wins && |r.patternLosses| == r.losses
            && |h| + r.skipped + r.entries <= |g.1| <= |h| + r.skipped + 3 * r.entries
  {
    GamesFromStart(strategy, n, Start, h, draws);
  }

  /** One iteration of the for loop of simulate_premium: the strategy decides on the
      history; a skip draws one outcome, an entry plays the ladder. */
  method PlayGame(strategy: seq<Color> -> Decision, c: Counters, history: seq<Color>, draws: seq<real>)
    returns (c': Counters, history': seq<Color>)
    requires Drawn(history, draws) && |history| + LevelsPlayed <= |draws|
    ensures (c', history') == Game(strategy, c, history, draws) && Drawn(history', draws)
  {
    var d := strategy(history);
    if !d.enter {
      history' := DrawOne(draws, history);
      c' := RecordSkip(c);
    } else {
      var a;
      a, history' := PlayNext(d.pick, draws, LevelsPlayed, history);
      c' := RecordEntry(c, d.strategy, a);
    }
  }

  /** The first of k games is one Game; the other k - 1 follow from where it leaves off. */
  lemma GamesStep(strategy: seq<Color> -> Decision, k: nat, c: Counters, h: seq<Color>, draws: seq<real>)
    requires k > 0
    requires |h| + Budget(k, LevelsPlayed) <= |draws|
    ensures |h| + LevelsPlayed <= |draws|
    ensures var g := Game(strategy, c, h, draws);
            && |g.1| + Budget(k - 1, LevelsPlayed) <= |draws|
            && Games(strategy, k - 1, g.0, g.1, draws) == Games(strategy, k, c, h, draws)
  {
  }

  /** One iteration of the loop of Run with k games left: the games still to play after
      it end where the k games from before it would. */
  method Advance(strategy: seq<Color> -> Decision, k: nat, c: Counters, history: seq<Color>, draws: seq<real>)
    returns (c': Counters, history': seq<Color>)
    requires k > 0 && Drawn(history, draws)
    requires Fits(LevelsPlayed, k, history, draws)
    ensures Drawn(history', draws) && Fits(LevelsPlayed, k - 1, history', draws)
    ensures Games(strategy, k - 1, c', history', draws) == Games(strategy, k, c, history, draws)
  {
    GamesStep(strategy, k, c, history, draws);
    c', history' := PlayGame(strategy, c, history, draws);
  }

  /** The for loop of simulate_premium over n games, from counters c0. */
  method Run(strategy: seq<Color> -> Decision, n: nat, c0: Counters, draws: seq<real>, history0: seq<Color>)
    returns (c: Counters, history: seq<Color>)
    requires Drawn(history0, draws) && |history0| + Budget(n, LevelsPlayed) <= |draws|
    ensures (c, history) == Games(strategy, n, c0, history0, draws) && Drawn(history, draws)
  {
    history := history0;
    c := c0;
    var i: nat := 0;
    while i < n
      invariant i <= n
      invariant Fits(LevelsPlayed, n - i, history, draws)
      invariant Games(strategy, n - i, c, history, draws) == Games(strategy, n, c0, history0, draws)
      invariant Drawn(history, draws)
    {
      c, history := Advance(strategy, n - i, c, history, draws);
      i := i + 1;
    }
  }

  const InitialHistory: nat := 100

  /** simulate_premium with the stream of random draws as input. */
  method Simulate(nGames: int, draws: seq<real>) returns (r: Report, history: seq<Color>)
    requires |draws| >= InitialHistory + Budget(if nGames < 0 then 0 else nGames, LevelsPlayed)
    ensures var g := Games(Choice, if nGames < 0 then 0 else nGames, Start, Outcomes(draws[..InitialHistory]), draws);
              r == Finish(g.0) && history == g.1
    ensures r.entries + r.skipped == (if nGames < 0 then 0 else nGames)
    ensures r.wins + r.losses == r.entries
    ensures r.wins == r.winPrincipal + r.winMg1 + r.winMg2
    ensures |r.patternWins| == r.wins && |r.patternLosses| == r.losses
    ensures Drawn(history, draws)
    ensures InitialHistory + r.skipped + r.entries <= |history| <= InitialHistory + r.skipped + 3 * r.entries
  {
    var n: nat := if nGames < 0 then 0 else nGames;
    var c;
    c, history := Run(Choice, n, Start, draws, Outcomes(draws[..InitialHistory]));
    GamesReport(Choice, n, Outcomes(draws[..InitialHistory]), draws);
    r := Finish(c);
  }
}
