/** getParScoreAt: the score team 2 should have reached after a number of
    overs with a number of wickets down, to be on track for its target.
    Team 2's resource used so far takes the place of its whole allotment in
    the target formula. */
module LivePar {
  import opened Numeric
  import opened Overs
  import opened ResourceLookup
  import opened Target

  /** r2Used: team 2's resource at the start less the resource left after
      `bowled` decimal overs with `wicketsLost` down. */
  function Team2ResourceUsed(s: DLSState, bowled: real, wicketsLost: real): real {
    Team2ResourceAvailable(s) - Resource(MaxReal(0.0, s.team2RevisedOvers - bowled), wicketsLost)
  }

  /** The divisor of the branch taken is non-zero: r1Used in the
      proportional branch (it exceeds r2Total >= 0 there), r2Total in the
      surplus branch. Otherwise the source computes 0 / 0 and returns NaN. */
  predicate DivisorsNonZero(r1Used: real, r2Total: real) {
    0.0 <= r2Total && (r2Total > 0.0 || r2Total < r1Used)
  }

  /** The branch of the live par: with less resource for team 2 than
      team 1 used, team 1's runs scaled by r2Used / r1Used; otherwise the
      score adjusted at G50 for the surplus, scaled by r2Used / r2Total.
      Either way clamped at 0. */
  function LiveParFormula(runs: real, r1Used: real, r2Total: real, r2Used: real): (par: int)
    requires DivisorsNonZero(r1Used, r2Total)
    ensures par >= 0
  {
    if r2Total < r1Used then
      ScaledPar(runs, r2Used, r1Used)
    else
      var adjustedScore := runs + (r2Total - r1Used) / 100.0 * G50;
      ScaledPar(adjustedScore, r2Used, r2Total)
  }

  /** Math.max(0, Math.round(score * (used / whole))). */
  function ScaledPar(score: real, used: real, whole: real): int
    requires whole > 0.0
  {
    MaxInt(0, Round(score * (used / whole)))
  }

  /** The states for which getParScoreAt yields a number. */
  predicate LiveParDefined(s: DLSState) {
    DivisorsNonZero(Team1ResourceUsed(s), Team2ResourceAvailable(s))
  }

  /** getParScoreAt yields a number exactly when team 2 has overs to bat or
      less resource than team 1 used. With no overs (r2Total = 0) and team 1
      having used none either, the surplus branch divides 0 by 0. */
  lemma LiveParDefinedIff(s: DLSState)
    ensures LiveParDefined(s) <==>
      s.team2RevisedOvers > 0.0 || Team2ResourceAvailable(s) < Team1ResourceUsed(s)
  {
    if s.team2RevisedOvers > 0.0 {
      FreshInningsHasResource(s.team2RevisedOvers);
    } else {
      NoOversRemaining(s.team2RevisedOvers, 0.0);
    }
  }

  /** Every state calculateDLS accepts has a live par. */
  lemma ValidStateHasLivePar(s: DLSState)
    requires ValidState(s)
    ensures LiveParDefined(s)
  {
    LiveParDefinedIff(s);
  }

  /** The live par at a decimal number of overs bowled. */
  function ParAtDecimal(s: DLSState, bowled: real, wicketsLost: real): (par: int)
    requires LiveParDefined(s)
    ensures par >= 0
  {
    LiveParFormula(s.firstInningsRuns, Team1ResourceUsed(s), Team2ResourceAvailable(s),
                   Team2ResourceUsed(s, bowled, wicketsLost))
  }

  /** The scaled par grows with the resource used. */
  lemma ScaledParMonotone(score: real, u1: real, u2: real, whole: real)
    requires score >= 0.0 && u1 <= u2 && whole > 0.0
    ensures ScaledPar(score, u1, whole) <= ScaledPar(score, u2, whole)
  {
    ScaledRatioMonotone(score, u1, u2, whole);
    RoundMonotone(score * (u1 / whole), score * (u2 / whole));
  }

  /** More resource used never lowers the live par. */
  lemma LiveParFormulaMonotone(runs: real, r1Used: real, r2Total: real, u1: real, u2: real)
    requires runs >= 0.0 && DivisorsNonZero(r1Used, r2Total) && u1 <= u2
    ensures LiveParFormula(runs, r1Used, r2Total, u1) <= LiveParFormula(runs, r1Used, r2Total, u2)
  {
    if r2Total < r1Used {
      ScaledParMonotone(runs, u1, u2, r1Used);
    } else {
      SurplusRunsLinear(r2Total - r1Used);
      ScaledParMonotone(runs + (r2Total - r1Used) / 100.0 * G50, u1, u2, r2Total);
    }
  }

  /** With no resource used the live par is 0. */
  lemma LiveParFormulaAtZero(runs: real, r1Used: real, r2Total: real)
    requires DivisorsNonZero(r1Used, r2Total)
    ensures LiveParFormula(runs, r1Used, r2Total, 0.0) == 0
  {
    if r2Total < r1Used {
      assert 0.0 / r1Used == 0.0;
    } else {
      assert 0.0 / r2Total == 0.0;
    }
  }

  /** With team 2's whole resource used the live par is the target's par. */
  lemma LiveParFormulaAtEnd(runs: real, r1Used: real, r2Total: real)
    requires runs >= 0.0 && DivisorsNonZero(r1Used, r2Total)
    ensures LiveParFormula(runs, r1Used, r2Total, r2Total) == ParFormula(runs, r1Used, r2Total)
  {
    ParFormulaNonNegative(runs, r1Used, r2Total);
    if r2Total >= r1Used {
      assert r2Total / r2Total == 1.0;
    }
  }

  /** getParScoreAt: team 2's overs are given in cricket notation. */
  function ParScoreAt(s: DLSState, team2OversBowled: real, team2WicketsLost: real): (par: int)
    requires LiveParDefined(s)
    ensures par >= 0
  {
    ParAtDecimal(s, ToDecimal(team2OversBowled), team2WicketsLost)
  }

  /** More overs bowled or more wickets down never leave team 2 with less
      resource used. */
  lemma Team2ResourceUsedMonotone(s: DLSState, b1: real, b2: real, wl1: real, wl2: real)
    requires b1 <= b2 && wl1 <= wl2
    ensures Team2ResourceUsed(s, b1, wl1) <= Team2ResourceUsed(s, b2, wl2)
  {
    var left1, left2 := MaxReal(0.0, s.team2RevisedOvers - b1), MaxReal(0.0, s.team2RevisedOvers - b2);
    ResourceMonotoneInWickets(left2, wl1, wl2);
    ResourceMonotoneInOvers(left2, left1, wl1);
  }

  /** The live par never falls as the innings goes on: more overs bowled or
      more wickets down never lower it (for a non-negative first-innings
      score). */
  lemma LiveParMonotone(s: DLSState, b1: real, b2: real, wl1: real, wl2: real)
    requires LiveParDefined(s) && s.firstInningsRuns >= 0.0
    requires b1 <= b2 && wl1 <= wl2
    ensures ParAtDecimal(s, b1, wl1) <= ParAtDecimal(s, b2, wl2)
  {
    Team2ResourceUsedMonotone(s, b1, b2, wl1, wl2);
    LiveParFormulaMonotone(s.firstInningsRuns, Team1ResourceUsed(s), Team2ResourceAvailable(s),
                           Team2ResourceUsed(s, b1, wl1), Team2ResourceUsed(s, b2, wl2));
  }

  /** Notation form: a later point of the innings in cricket notation never
      has a lower par. */
  lemma ParScoreAtMonotone(s: DLSState, overs1: real, overs2: real, wl1: real, wl2: real)
    requires LiveParDefined(s) && s.firstInningsRuns >= 0.0
    requires overs1 <= overs2 && wl1 <= wl2
    ensures ParScoreAt(s, overs1, wl1) <= ParScoreAt(s, overs2, wl2)
  {
    ToDecimalMonotone(overs1, overs2);
    LiveParMonotone(s, ToDecimal(overs1), ToDecimal(overs2), wl1, wl2);
  }

  /** Before a ball is bowled, with no wicket down, the par is 0. */
  lemma ParAtStartIsZero(s: DLSState, wicketsLost: real)
    requires LiveParDefined(s) && Round(wicketsLost) <= 0
    ensures ParScoreAt(s, 0.0, wicketsLost) == 0
  {
    ToDecimalWhole(0);
    if s.team2RevisedOvers > 0.0 {
      assert MaxReal(0.0, s.team2RevisedOvers - 0.0) == s.team2RevisedOvers;
      SameColumnSameResource(s.team2RevisedOvers, wicketsLost, 0.0);
    } else {
      NoOversRemaining(0.0, wicketsLost);
      NoOversRemaining(s.team2RevisedOvers, 0.0);
    }
    assert Team2ResourceUsed(s, 0.0, wicketsLost) == 0.0;
    LiveParFormulaAtZero(s.firstInningsRuns, Team1ResourceUsed(s), Team2ResourceAvailable(s));
  }

  /** Once team 2's allotment is used up, or it is all out, the live par is
      the par of the target calculation. */
  lemma ParAtEndIsFinalPar(s: DLSState, bowled: real, wicketsLost: real)
    requires ValidState(s)
    requires bowled >= s.team2RevisedOvers || Round(wicketsLost) >= 10
    ensures LiveParDefined(s) && ParAtDecimal(s, bowled, wicketsLost) == ParScore(s)
  {
    ValidStateHasLivePar(s);
    var left := MaxReal(0.0, s.team2RevisedOvers - bowled);
    if Round(wicketsLost) >= 10 {
      AllOutHasNoResource(left, wicketsLost);
    } else {
      NoOversRemaining(left, wicketsLost);
    }
    assert Team2ResourceUsed(s, bowled, wicketsLost) == Team2ResourceAvailable(s);
    ClampsNeverBite(s);
    LiveParDefinedIff(s);
    LiveParFormulaAtEnd(s.firstInningsRuns, Team1ResourceUsed(s), Team2ResourceAvailable(s));
  }

  /** Notation form of the end of the innings. */
  lemma ParScoreAtEndIsFinalPar(s: DLSState, team2OversBowled: real, wicketsLost: real)
    requires ValidState(s)
    requires ToDecimal(team2OversBowled) >= s.team2RevisedOvers || Round(wicketsLost) >= 10
    ensures LiveParDefined(s) && ParScoreAt(s, team2OversBowled, wicketsLost) == ParScore(s)
  {
    ValidStateHasLivePar(s);
    ParAtEndIsFinalPar(s, ToDecimal(team2OversBowled), wicketsLost);
  }

  /** At no point of team 2's innings is the live par above the final par. */
  lemma LiveParAtMostFinalPar(s: DLSState, bowled: real, wicketsLost: real)
    requires ValidState(s)
    ensures LiveParDefined(s) && ParAtDecimal(s, bowled, wicketsLost) <= ParScore(s)
  {
    ValidStateHasLivePar(s);
    var end := MaxReal(bowled, s.team2RevisedOvers);
    LiveParMonotone(s, bowled, end, wicketsLost, wicketsLost);
    ParAtEndIsFinalPar(s, end, wicketsLost);
  }

  /** With no overs allotted to team 2 (and team 1 having used some
      resource) the source takes the proportional branch with nothing used:
      the par is 0 at any point at or past the start. */
  lemma NoAllotmentParIsZero(s: DLSState, bowled: real, wicketsLost: real)
    requires s.team2RevisedOvers <= 0.0 && LiveParDefined(s)
    requires bowled >= s.team2RevisedOvers
    ensures ParAtDecimal(s, bowled, wicketsLost) == 0
  {
    NoOversRemaining(s.team2RevisedOvers, 0.0);
    NoOversRemaining(MaxReal(0.0, s.team2RevisedOvers - bowled), wicketsLost);
    assert Team2ResourceUsed(s, bowled, wicketsLost) == 0.0;
    assert 0.0 / Team1ResourceUsed(s) == 0.0;
  }

  /** 250/5 in 50 overs with team 2's allotment cleared to 0: team 1 used
      83.8, team 2 has 0, and the par at 10 overs for 2 wickets is 0. */
  lemma NoAllotmentExample()
    ensures LiveParDefined(DLSState(250.0, 5.0, 50.0, 50.0, 0.0))
    ensures ParScoreAt(DLSState(250.0, 5.0, 50.0, 50.0, 0.0), 10.0, 2.0) == 0
  {
    var s := DLSState(250.0, 5.0, 50.0, 50.0, 0.0);
    ToDecimalWhole(50);
    NoOversRemaining(0.0, 5.0);
    FullResourceAtFifty();
    assert Team1ResourceUsed(s) == 83.8;
    NoOversRemaining(0.0, 0.0);
    ToDecimalWhole(10);
    NoAllotmentParIsZero(s, 10.0, 2.0);
  }
}
