/** Cricket overs notation. In "W.B" the first decimal digit B counts balls
    of the current over (0 to 5 are legal), so 19.3 is 19 overs and 3 balls,
    that is 19.5 overs as a decimal. */
module Overs {
  import opened Numeric

  /** The ball digit of the notation: the first decimal digit, rounded
      (Math.round((overs - fullOvers) * 10)). */
  function BallDigit(overs: real): (b: int)
    ensures 0 <= b <= 10
  {
    Round((overs - Floor(overs) as real) * 10.0)
  }

  /** A decimal overs value made of whole balls: six times it is whole. */
  predicate IsWholeBalls(d: real) {
    Floor(d * 6.0) as real == d * 6.0
  }

  /** cricketOversToDecimal: a ball digit of 6 or more carries to the next
      whole over; otherwise each ball is a sixth of an over. */
  function ToDecimal(overs: real): (d: real)
    ensures Floor(overs) as real <= d <= Floor(overs) as real + 1.0
    ensures IsWholeBalls(d)
  {
    var fullOvers := Floor(overs);
    var balls := BallDigit(overs);
    if balls >= 6 then
      assert (fullOvers as real + 1.0) * 6.0 == (6 * fullOvers + 6) as real;
      fullOvers as real + 1.0
    else
      assert (fullOvers as real + balls as real / 6.0) * 6.0 == (6 * fullOvers + balls) as real;
      fullOvers as real + balls as real / 6.0
  }

  /** Legal notation W.B with B in 0..5 is W + B/6 overs, inside [W, W+1). */
  lemma ToDecimalLegal(whole: int, ball: int)
    requires 0 <= ball <= 5
    ensures ToDecimal(whole as real + ball as real / 10.0) == whole as real + ball as real / 6.0
    ensures whole as real <= ToDecimal(whole as real + ball as real / 10.0) < whole as real + 1.0
  {
    var x := whole as real + ball as real / 10.0;
    assert Floor(x) == whole;
    assert (x - whole as real) * 10.0 == ball as real;
    RoundOfWhole(ball);
  }

  /** A ball digit of 6 to 9 is a completed over: W.B is exactly W+1. */
  lemma ToDecimalCarry(whole: int, ball: int)
    requires 6 <= ball <= 9
    ensures ToDecimal(whole as real + ball as real / 10.0) == whole as real + 1.0
  {
    var x := whole as real + ball as real / 10.0;
    assert Floor(x) == whole;
    assert (x - whole as real) * 10.0 == ball as real;
    RoundOfWhole(ball);
  }

  /** Whole overs are left as they are. */
  lemma ToDecimalWhole(n: int)
    ensures ToDecimal(n as real) == n as real
  {
    assert Floor(n as real) == n;
    RoundOfWhole(0);
  }

  /** More overs in notation never give fewer decimal overs. */
  lemma ToDecimalMonotone(x: real, y: real)
    requires x <= y
    ensures ToDecimal(x) <= ToDecimal(y)
  {
    if Floor(x) == Floor(y) {
      RoundMonotone((x - Floor(x) as real) * 10.0, (y - Floor(y) as real) * 10.0);
    }
  }

  /** The whole overs and balls of a decimal overs value, as
      formatOversDisplay splits it: Math.floor, then Math.round of the
      remainder times six. */
  function DisplayParts(overs: real): (parts: (int, int))
    ensures 0 <= parts.1 <= 5
    ensures parts.0 as real + parts.1 as real / 6.0 == ToDecimal(overs)
  {
    var decimal := ToDecimal(overs);
    var fullOvers := Floor(decimal);
    var k := Floor(decimal * 6.0);
    assert (decimal - fullOvers as real) * 6.0 == (k - 6 * fullOvers) as real;
    RoundOfWhole(k - 6 * fullOvers);
    var remainingBalls := Round((decimal - fullOvers as real) * 6.0);
    (fullOvers, remainingBalls)
  }

  /** formatOversDisplay: "W" when no balls of the next over are bowled,
      "W.B" otherwise. No ".0" is ever emitted. */
  function FormatOversDisplay(overs: real): string
  {
    var (fullOvers, remainingBalls) := DisplayParts(overs);
    if remainingBalls == 0 then IntToString(fullOvers)
    else IntToString(fullOvers) + "." + IntToString(remainingBalls)
  }

  /** Legal notation reads back as itself: W.B with B in 1..5 gives "W.B",
      W.0 gives "W", and W.6 to W.9 give the next whole over. */
  lemma FormatLegalNotation(whole: nat, ball: int)
    requires 0 <= ball <= 9
    ensures FormatOversDisplay(whole as real + ball as real / 10.0) ==
      if ball == 0 then NatToString(whole)
      else if ball <= 5 then NatToString(whole) + "." + NatToString(ball)
      else NatToString(whole + 1)
  {
    var x := whole as real + ball as real / 10.0;
    if ball <= 5 {
      ToDecimalLegal(whole, ball);
    } else {
      ToDecimalCarry(whole, ball);
    }
    var (w, b) := DisplayParts(x);
    if ball <= 5 {
      assert w as real + b as real / 6.0 == whole as real + ball as real / 6.0;
      assert w == whole && b == ball;
    } else {
      assert w == whole + 1 && b == 0;
    }
  }

  /** A decimal value of W overs and B sixths, read again as notation, has
      ball digit round(10B/6); it stays put exactly when B is 0. */
  lemma SixthsReadAsNotation(whole: int, b: int)
    requires 0 <= b <= 5
    ensures whole as real + b as real / 6.0 <= ToDecimal(whole as real + b as real / 6.0)
    ensures ToDecimal(whole as real + b as real / 6.0) == whole as real + b as real / 6.0 <==> b == 0
  {
    var d := whole as real + b as real / 6.0;
    assert Floor(d) == whole;
    assert (d - whole as real) * 10.0 == b as real * 10.0 / 6.0;
    if b == 0 { RoundOfWhole(0); }
    else if b == 1 { assert BallDigit(d) == 2; }
    else if b == 2 { assert BallDigit(d) == 3; }
    else if b == 3 { RoundOfWhole(5); }
    else if b == 4 { assert BallDigit(d) == 7; }
    else { assert BallDigit(d) == 8; }
  }

  /** Applying the conversion to its own output never moves backwards, and
      it leaves the value alone exactly when no ball of an unfinished over
      is in it. */
  lemma ToDecimalReapplied(overs: real)
    ensures ToDecimal(overs) <= ToDecimal(ToDecimal(overs))
    ensures ToDecimal(ToDecimal(overs)) == ToDecimal(overs) <==> DisplayParts(overs).1 == 0
  {
    var (w, b) := DisplayParts(overs);
    SixthsReadAsNotation(w, b);
  }

  /** A value is left alone by the conversion exactly when it is a whole
      number of overs: any other fixed point would be W + B/6 with B in
      1..5, and those are all moved. */
  lemma ToDecimalFixedIffWhole(x: real)
    ensures ToDecimal(x) == x <==> Floor(x) as real == x
  {
    if Floor(x) as real == x {
      ToDecimalWhole(Floor(x));
    }
  }
}
