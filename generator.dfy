/** Where outcomes come from: the simulated draw of generate_blaze_result /
    generate_result (identical in the five backtest modules) and the live
    server's mapping from a wheel roll to a colour. The uniform random number
    itself is an input here. */
module Generator {
  import opened Hist

  const ProbRed: real := 0.4667
  const ProbBlack: real := 0.4667
  const ProbWhite: real := 0.0666

  /** Maps a draw u from [0, 1) to a colour: red below ProbRed, black below
      ProbRed + ProbBlack, white above. */
  function BlazeResult(u: real): Color {
    if u < ProbRed then Red
    else if u < ProbRed + ProbBlack then Black
    else White
  }

  /** Each colour owns one slice of the line, white the top ProbWhite of
      [0, 1). */
  lemma BlazeSlices(u: real)
    ensures BlazeResult(u) == Red <==> u < ProbRed
    ensures BlazeResult(u) == Black <==> ProbRed <= u < ProbRed + ProbBlack
    ensures BlazeResult(u) == White <==> ProbRed + ProbBlack <= u
    ensures 0.0 <= u < 1.0 ==> (BlazeResult(u) == White <==> 1.0 - ProbWhite <= u)
  {
  }

  /** Widths of the three slices of [0, 1): the configured probabilities,
      which add up to exactly one. */
  lemma SlicesAreTheProbabilities(u: real, v: real)
    requires 0.0 <= u <= v <= 1.0
    ensures BlazeResult(u) == White ==> BlazeResult(v) == White
    ensures BlazeResult(v) == Red ==> BlazeResult(u) == Red
    ensures ProbRed + ProbBlack + ProbWhite == 1.0
  {
  }

  /** The live server's parse_blaze_color: roll 0 is white, rolls 1..7 red,
      every other roll black. */
  function ParseBlazeColor(roll: int): (c: Color)
    ensures c == White <==> roll == 0
    ensures c == Red <==> 1 <= roll <= 7
    ensures c == Black <==> roll < 0 || roll > 7
  {
    if roll == 0 then White
    else if roll in [1, 2, 3, 4, 5, 6, 7] then Red
    else Black
  }

  /** On the wheel 0..14 red owns the seven numbers 1..7, the 7/15 share that
      ProbRed rounds. */
  lemma RedWheelShare()
    ensures (set r | 0 <= r < 15 && ParseBlazeColor(r) == Red) == {1, 2, 3, 4, 5, 6, 7}
    ensures Abs(ProbRed - 7.0 / 15.0) < 0.0001
  {
  }

  /** Black owns the seven numbers 8..14, white the single number 0: the 1/15
      share that ProbWhite rounds. */
  lemma BlackAndWhiteWheelShares()
    ensures (set r | 0 <= r < 15 && ParseBlazeColor(r) == Black) == {8, 9, 10, 11, 12, 13, 14}
    ensures (set r | 0 <= r < 15 && ParseBlazeColor(r) == White) == {0}
    ensures Abs(ProbWhite - 1.0 / 15.0) < 0.0001
  {
  }
}
