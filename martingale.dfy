/** The martingale ladder that every simulator plays once it decides to enter:
    up to `max_mg + 1` draws (level 0 is the principal bet), stopping at the
    first outcome that equals the predicted colour; every draw is appended to
    the history. Draws come from an explicit stream of uniform numbers, each
    turned into a colour by Generator.BlazeResult. */
module Martingale {
  import opened Hist
  import Generator

  /** len(range(max_mg + 1)). */
  function Levels(maxMg: int): (n: nat)
    ensures maxMg >= 0 ==> n == maxMg + 1
  {
    if maxMg + 1 <= 0 then 0 else maxMg + 1
  }

  /** Most draws one game of a simulation can take: one for a skip, one per
      level for an entry. */
  function PerGame(maxMg: int): (n: nat)
    ensures n >= 1 && n >= Levels(maxMg)
  {
    if Levels(maxMg) >= 1 then Levels(maxMg) else 1
  }

  /** How a ladder ends: won at a level, or lost once every level missed. */
  datatype Attempt = Won(level: nat) | Lost

  /** The colours of a stretch of draws, in order. */
  function Outcomes(ds: seq<real>): (r: seq<Color>)
    ensures |r| == |ds|
  {
    if ds == [] then [] else Outcomes(ds[..|ds| - 1]) + [Generator.BlazeResult(ds[|ds| - 1])]
  }

  /** Each outcome is the colour of its draw. */
  lemma {:induction false} OutcomesAt(ds: seq<real>, i: nat)
    requires i < |ds|
    ensures Outcomes(ds)[i] == Generator.BlazeResult(ds[i])
  {
    if i < |ds| - 1 {
      OutcomesAt(ds[..|ds| - 1], i);
    }
  }

  /** The k-th colour of the stretch draws[i..j] is that of draws[i + k]. */
  lemma OutcomesSliceAt(ds: seq<real>, i: nat, j: nat, k: nat)
    requires i + k < j <= |ds|
    ensures Outcomes(ds[i..j])[k] == Generator.BlazeResult(ds[i + k])
  {
    OutcomesAt(ds[i..j], k);
  }

  /** Extending a stretch of draws by one adds that draw's colour. */
  lemma OutcomesSnoc(ds: seq<real>, i: nat, j: nat)
    requires i < j <= |ds|
    ensures Outcomes(ds[i..j]) == Outcomes(ds[i..j - 1]) + [Generator.BlazeResult(ds[j - 1])]
  {
    assert ds[i..j][..j - 1 - i] == ds[i..j - 1];
  }

  /** The colours of two adjacent stretches are the colours of their union. */
  lemma {:induction false} OutcomesSplit(ds: seq<real>, i: nat, j: nat)
    requires i <= j <= |ds|
    ensures Outcomes(ds[..i]) + Outcomes(ds[i..j]) == Outcomes(ds[..j])
  {
    if i < j {
      OutcomesSplit(ds, i, j - 1);
      OutcomesSnoc(ds, i, j);
      assert ds[..j][..j - 1] == ds[..j - 1];
      var last := [Generator.BlazeResult(ds[j - 1])];
      calc {
        Outcomes(ds[..i]) + Outcomes(ds[i..j]);
        Outcomes(ds[..i]) + (Outcomes(ds[i..j - 1]) + last);
        (Outcomes(ds[..i]) + Outcomes(ds[i..j - 1])) + last;
        Outcomes(ds[..j - 1]) + last;
        Outcomes(ds[..j]);
      }
    } else {
      assert ds[i..j] == [];
    }
  }


  /** The ladder as a value: the first of the first `levels` outcomes that
      hits the pick wins at its level; if none does, the ladder is lost. */
  function Ladder(pick: Pick, outs: seq<Color>, levels: nat): (a: Attempt)
    requires |outs| >= levels
    ensures a.Won? ==> a.level < levels && pick == Bet(outs[a.level])
    ensures a.Won? ==> forall j :: 0 <= j < a.level ==> pick != Bet(outs[j])
    ensures a.Lost? ==> forall j :: 0 <= j < levels ==> pick != Bet(outs[j])
  {
    if levels == 0 then Lost
    else if pick == Bet(outs[0]) then Won(0)
    else
      match Ladder(pick, outs[1..], levels - 1)
      case Won(k) => Won(k + 1)
      case Lost => Lost
  }

  /** Number of outcomes a ladder draws: up to and including the winning
      level, or every level when it is lost. */
  function Consumed(a: Attempt, levels: nat): (n: nat)
    ensures a.Won? ==> n == a.level + 1
    ensures a.Lost? ==> n == levels
  {
    if a.Won? then a.level + 1 else levels
  }

  /** The loop `for mg in range(max_mg + 1): actual = generate_result();
      history.append(actual); if actual == color: won = True; break`. */
  method Play(pick: Pick, draws: seq<real>, pos: nat, levels: nat, history: seq<Color>)
    returns (a: Attempt, history': seq<Color>)
    requires pos + levels <= |draws|
    ensures a == Ladder(pick, Outcomes(draws[pos..pos + levels]), levels)
    ensures Consumed(a, levels) <= levels
    ensures history' == history + Outcomes(draws[pos..pos + Consumed(a, levels)])
  {
    history' := history;
    a := Lost;
    var mg := 0;
    while mg < levels
      invariant 0 <= mg <= levels
      invariant |history'| == |history| + mg && history'[..|history|] == history
      invariant forall i :: |history| <= i < |history'| ==> history'[i] == Generator.BlazeResult(draws[pos + (i - |history|)])
      invariant forall j :: pos <= j < pos + mg ==> pick != Bet(Generator.BlazeResult(draws[j]))
    {
      var actual := Generator.BlazeResult(draws[pos + mg]);
      history' := history' + [actual];
      if pick == Bet(actual) {
        a := Won(mg);
        DrawnStretch(history, history', draws, pos, mg + 1);
        LadderHitOnDraws(pick, draws, pos, levels, mg);
        return;
      }
      mg := mg + 1;
    }
    DrawnStretch(history, history', draws, pos, levels);
    LadderMissOnDraws(pick, draws, pos, levels);
  }

  /** A history extended, position by position, with the colours of
      draws[pos..pos + k] is the history followed by those colours. */
  lemma DrawnStretch(h0: seq<Color>, h1: seq<Color>, ds: seq<real>, pos: nat, k: nat)
    requires pos + k <= |ds| && |h1| == |h0| + k && h1[..|h0|] == h0
    requires forall i :: |h0| <= i < |h1| ==> h1[i] == Generator.BlazeResult(ds[pos + (i - |h0|)])
    ensures h1 == h0 + Outcomes(ds[pos..pos + k])
  {
    var outs := Outcomes(ds[pos..pos + k]);
    forall j | 0 <= j < k
      ensures outs[j] == Generator.BlazeResult(ds[pos + j])
    {
      OutcomesSliceAt(ds, pos, pos + k, j);
    }
    forall i | 0 <= i < |h1|
      ensures h1[i] == (h0 + outs)[i]
    {
      if i < |h0| {
        assert h1[..|h0|][i] == h0[i];
      }
    }
  }

  /** The ladder over the colours of draws[pos..pos + levels] wins at the
      first draw whose colour hits the pick. */
  lemma LadderHitOnDraws(pick: Pick, ds: seq<real>, pos: nat, levels: nat, k: nat)
    requires pos + levels <= |ds| && k < levels
    requires pick == Bet(Generator.BlazeResult(ds[pos + k]))
    requires forall j :: pos <= j < pos + k ==> pick != Bet(Generator.BlazeResult(ds[j]))
    ensures Ladder(pick, Outcomes(ds[pos..pos + levels]), levels) == Won(k)
  {
    var outs := Outcomes(ds[pos..pos + levels]);
    forall j | 0 <= j < levels
      ensures outs[j] == Generator.BlazeResult(ds[pos + j])
    {
      OutcomesSliceAt(ds, pos, pos + levels, j);
    }
    LadderFirstHit(pick, outs, levels, k);
  }

  /** ... and is lost when no draw's colour hits it. */
  lemma LadderMissOnDraws(pick: Pick, ds: seq<real>, pos: nat, levels: nat)
    requires pos + levels <= |ds|
    requires forall j :: pos <= j < pos + levels ==> pick != Bet(Generator.BlazeResult(ds[j]))
    ensures Ladder(pick, Outcomes(ds[pos..pos + levels]), levels) == Lost
  {
    var outs := Outcomes(ds[pos..pos + levels]);
    forall j | 0 <= j < levels
      ensures outs[j] == Generator.BlazeResult(ds[pos + j])
    {
      OutcomesSliceAt(ds, pos, pos + levels, j);
    }
    LadderNoHit(pick, outs, levels);
  }

  /** The ladder wins at the first level whose outcome hits the pick. */
  lemma {:induction false} LadderFirstHit(pick: Pick, outs: seq<Color>, levels: nat, k: nat)
    requires |outs| >= levels && k < levels
    requires pick == Bet(outs[k]) && forall j :: 0 <= j < k ==> pick != Bet(outs[j])
    ensures Ladder(pick, outs, levels) == Won(k)
  {
    if k > 0 {
      assert pick != Bet(outs[0]);
      LadderFirstHit(pick, outs[1..], levels - 1, k - 1);
    }
  }

  /** The ladder is lost when no level hits. */
  lemma {:induction false} LadderNoHit(pick: Pick, outs: seq<Color>, levels: nat)
    requires |outs| >= levels && forall j :: 0 <= j < levels ==> pick != Bet(outs[j])
    ensures Ladder(pick, outs, levels) == Lost
  {
    if levels > 0 {
      assert pick != Bet(outs[0]);
      LadderNoHit(pick, outs[1..], levels - 1);
    }
  }

  /** The history holds exactly the colours of the draws consumed so far, so
      its length is the position in the draw stream. */
  predicate Drawn(history: seq<Color>, draws: seq<real>) {
    |history| <= |draws| && history == Outcomes(draws[..|history|])
  }

  /** actual = generate_result(); history.append(actual). */
  method DrawOne(draws: seq<real>, history: seq<Color>) returns (history': seq<Color>)
    requires Drawn(history, draws) && |history| < |draws|
    ensures history' == history + [Generator.BlazeResult(draws[|history|])]
    ensures Drawn(history', draws)
  {
    var pos := |history|;
    history' := history + [Generator.BlazeResult(draws[pos])];
    assert draws[..pos + 1] == draws[..pos] + [draws[pos]];
  }

  /** One martingale ladder played from the current stream position. */
  method PlayNext(pick: Pick, draws: seq<real>, levels: nat, history: seq<Color>)
    returns (a: Attempt, history': seq<Color>)
    requires Drawn(history, draws) && |history| + levels <= |draws|
    ensures a == Ladder(pick, Outcomes(draws[|history|..|history| + levels]), levels)
    ensures |history'| == |history| + Consumed(a, levels) && Drawn(history', draws)
    ensures |history'| <= |history| + levels && (levels > 0 ==> |history'| > |history|)
    ensures history' == history + Outcomes(draws[|history|..|history'|])
  {
    var pos := |history|;
    a, history' := Play(pick, draws, pos, levels, history);
    var k := Consumed(a, levels);
    assert |history'| == pos + k;
    assert draws[pos..pos + k] == draws[pos..|history'|];
    OutcomesSplit(draws, pos, pos + k);
  }

  /** k games of at most per draws each: k * per, built up one game at a time
      so that loops can count it without multiplying. */
  function Budget(k: nat, per: nat): nat {
    if k == 0 then 0 else Budget(k - 1, per) + per
  }

  /** After the history h the stream still holds the draws of k more games, each game
      taking at most `levels` draws and at least one. */
  predicate Fits(levels: nat, k: nat, h: seq<Color>, draws: seq<real>) {
    |h| + Budget(k, if levels >= 1 then levels else 1) <= |draws|
  }

  lemma {:induction false} BudgetIsProduct(k: nat, per: nat)
    ensures Budget(k, per) == k * per
  {
    if k > 0 {
      BudgetIsProduct(k - 1, per);
      assert (k - 1) * per + per == k * per;
    }
  }

  lemma BudgetMonotone(k: nat, m: nat, per: nat)
    requires k <= m
    ensures Budget(k, per) <= Budget(m, per)
  {
  }

  /** Two ladders with two martingales (three levels) and a red pick:
      black-black-red wins at level 2 after three draws, and
      black-black-black is lost after three draws. */
  lemma WorkedExamples()
    ensures Ladder(Bet(Red), [Black, Black, Red], Levels(2)) == Won(2)
    ensures Consumed(Won(2), Levels(2)) == 3
    ensures Ladder(Bet(Red), [Black, Black, Black], Levels(2)) == Lost
    ensures Consumed(Lost, Levels(2)) == 3
  {
    assert [Black, Black, Red][1..] == [Black, Red];
    assert [Black, Red][1..] == [Red];
    assert [Black, Black, Black][1..] == [Black, Black];
    assert [Black, Black][1..] == [Black];
  }

  /** A lost ladder drew exactly `levels` outcomes, and a won one at most that. */
  lemma ConsumedAtMostLevels(pick: Pick, outs: seq<Color>, levels: nat)
    requires |outs| >= levels
    ensures Consumed(Ladder(pick, outs, levels), levels) <= levels
    ensures Ladder(pick, outs, levels).Lost? ==> Consumed(Ladder(pick, outs, levels), levels) == levels
  {
  }
}
