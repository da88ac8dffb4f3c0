/** calculateDLS: the revised target for team 2 once team 1's innings is
    over, by the Standard Edition rule. Team 1's resource used is compared
    with team 2's resource available; a smaller team 2 resource scales team
    1's runs down in proportion, an equal or larger one adds the surplus
    resource at G50 = 245 runs per 100%. */
module Target {
  import opened Numeric
  import opened Overs
  import opened ResourceLookup
  import ResourceTable

  datatype Option<T> = None | Some(value: T)

  /** DLSState: the first innings and the overs of the match. Overs are in
      cricket notation where the source converts them (firstInningsOvers)
      and plain numbers elsewhere; every field is a JavaScript number. */
  datatype DLSState = DLSState(
    firstInningsRuns: real,
    firstInningsWickets: real,
    firstInningsOvers: real,
    totalOvers: real,
    team2RevisedOvers: real)

  /** DLSResult. */
  datatype DLSResult = DLSResult(
    parScore: int,
    revisedTarget: int,
    resourceTeam1: real,
    resourceTeam2: real)

  /** Runs per 100% of resource used to convert a resource surplus into runs. */
  const G50: real := 245.0

  /** r1Used: team 1's resource at the start of a `totalOvers` innings less
      the resource left when its innings ended. */
  function Team1ResourceUsed(s: DLSState): real {
    var firstInningsOvers := ToDecimal(s.firstInningsOvers);
    Resource(s.totalOvers, 0.0) - Resource(MaxReal(0.0, s.totalOvers - firstInningsOvers), s.firstInningsWickets)
  }

  /** r2Available: team 2's resource for its revised overs, no wicket lost. */
  function Team2ResourceAvailable(s: DLSState): (r2: real)
    ensures 0.0 <= r2 <= ResourceTable.FullResource
  {
    ResourceBounds(s.team2RevisedOvers, 0.0);
    Resource(s.team2RevisedOvers, 0.0)
  }

  /** Team 1 never used a negative share of resource, nor more than the
      full resource, once its innings was under way. */
  lemma Team1ResourceUsedBounds(s: DLSState)
    requires s.totalOvers > 0.0 && ToDecimal(s.firstInningsOvers) > 0.0
    ensures 0.0 <= Team1ResourceUsed(s) <= ResourceTable.FullResource
  {
    var remaining := MaxReal(0.0, s.totalOvers - ToDecimal(s.firstInningsOvers));
    ResourceMonotoneInOvers(remaining, s.totalOvers, s.firstInningsWickets);
    if s.firstInningsWickets >= 0.0 {
      ResourceMonotoneInWickets(s.totalOvers, 0.0, s.firstInningsWickets);
    } else {
      assert WicketColumn(s.firstInningsWickets) == WicketColumn(0.0);
    }
    ResourceBounds(s.totalOvers, 0.0);
    ResourceBounds(remaining, s.firstInningsWickets);
  }

  /** The inputs calculateDLS accepts; anything else yields null. */
  predicate ValidState(s: DLSState) {
    && s.firstInningsRuns >= 0.0
    && ToDecimal(s.firstInningsOvers) > 0.0
    && s.totalOvers > 0.0
    && s.team2RevisedOvers > 0.0
  }

  /** The Standard Edition branch: strictly less resource for team 2 scales
      the runs in proportion; otherwise the surplus is converted at G50. */
  function ParFormula(runs: real, r1Used: real, r2: real): int
    requires 0.0 <= r2
  {
    if r2 < r1Used then Round(runs * (r2 / r1Used))
    else Round(runs + (r2 - r1Used) / 100.0 * G50)
  }

  /** The surplus-resource runs are linear in the surplus: 2.45 runs per 1%. */
  lemma SurplusRunsLinear(extraResource: real)
    ensures extraResource / 100.0 * G50 == 2.45 * extraResource
  {
  }

  function MaxInt(a: int, b: int): int { if a >= b then a else b }

  /** Math.round(x * 10) / 10: a percentage rounded to one decimal place. */
  function OneDecimal(x: real): real {
    Round(x * 10.0) as real / 10.0
  }

  /** calculateDLS. */
  function CalculateDLS(s: DLSState): (result: Option<DLSResult>)
    ensures result.None? <==> !ValidState(s)
    ensures result.Some? ==> result.value.parScore >= 0
    ensures result.Some? ==> result.value.revisedTarget == result.value.parScore + 1
  {
    var firstInningsOvers := ToDecimal(s.firstInningsOvers);
    if s.firstInningsRuns < 0.0 || firstInningsOvers <= 0.0 || s.totalOvers <= 0.0 || s.team2RevisedOvers <= 0.0 then
      None
    else
      var r1Used := Team1ResourceUsed(s);
      var r2Available := Team2ResourceAvailable(s);
      var parScore := ParFormula(s.firstInningsRuns, r1Used, r2Available);
      var revisedTarget := parScore + 1;
      Some(DLSResult(
        MaxInt(0, parScore),
        MaxInt(1, revisedTarget),
        OneDecimal(r1Used),
        OneDecimal(r2Available)))
  }

  /** The par of a valid state, read off the result. */
  function ParScore(s: DLSState): int
    requires ValidState(s)
  {
    CalculateDLS(s).value.parScore
  }

  /** With runs and team 2's resource non-negative the formula's par is
      non-negative. */
  lemma ParFormulaNonNegative(runs: real, r1Used: real, r2: real)
    requires runs >= 0.0 && 0.0 <= r2
    ensures ParFormula(runs, r1Used, r2) >= 0
  {
    if r2 < r1Used {
      ProportionBelowWhole(runs, r2, r1Used);
    } else {
      SurplusRunsLinear(r2 - r1Used);
    }
  }

  /** The clamps `max(0, ·)` and `max(1, ·)` never change anything: the
      formula's par is already non-negative. */
  lemma ClampsNeverBite(s: DLSState)
    requires ValidState(s)
    ensures ParScore(s) == ParFormula(s.firstInningsRuns, Team1ResourceUsed(s), Team2ResourceAvailable(s))
  {
    ParFormulaNonNegative(s.firstInningsRuns, Team1ResourceUsed(s), Team2ResourceAvailable(s));
  }

  /** In the proportional branch team 1 used a positive share of resource
      (so the division is defined) and the par never exceeds team 1's
      rounded score. */
  lemma ProportionalBranch(s: DLSState)
    requires ValidState(s) && Team2ResourceAvailable(s) < Team1ResourceUsed(s)
    ensures Team1ResourceUsed(s) > 0.0
    ensures ParScore(s) <= Round(s.firstInningsRuns)
  {
    ClampsNeverBite(s);
    ProportionalParBound(s.firstInningsRuns, Team1ResourceUsed(s), Team2ResourceAvailable(s));
  }

  lemma ProportionalParBound(runs: real, r1Used: real, r2: real)
    requires runs >= 0.0 && 0.0 <= r2 < r1Used
    ensures ParFormula(runs, r1Used, r2) <= Round(runs)
  {
    ProportionBelowWhole(runs, r2, r1Used);
    RoundMonotone(runs * (r2 / r1Used), runs);
  }

  /** runs * (part / whole) <= runs for 0 <= part < whole and runs >= 0. */
  lemma ProportionBelowWhole(runs: real, part: real, whole: real)
    requires runs >= 0.0 && 0.0 <= part < whole
    ensures 0.0 <= runs * (part / whole) <= runs
  {
    MulNonNegative(part, 1.0 / whole);
    assert part / whole == part * (1.0 / whole);
    assert part / whole < 1.0;
    MulNonNegative(runs, part / whole);
    MulNonNegative(runs, 1.0 - part / whole);
  }

  lemma SurplusParAtLeastRuns(runs: real, r1Used: real, r2: real)
    requires 0.0 <= r2 && r1Used <= r2
    ensures ParFormula(runs, r1Used, r2) >= Round(runs)
  {
    SurplusRunsLinear(r2 - r1Used);
    RoundMonotone(runs, runs + (r2 - r1Used) / 100.0 * G50);
  }

  /** Otherwise (team 2 has at least team 1's resource) the par is never
      below team 1's rounded score. */
  lemma SurplusBranch(s: DLSState)
    requires ValidState(s) && Team2ResourceAvailable(s) >= Team1ResourceUsed(s)
    ensures ParScore(s) >= Round(s.firstInningsRuns)
  {
    ClampsNeverBite(s);
    SurplusParAtLeastRuns(s.firstInningsRuns, Team1ResourceUsed(s), Team2ResourceAvailable(s));
  }

  /** The two formulas agree where the branch changes: at equal resources
      the surplus branch taken gives what the proportional formula would,
      team 1's rounded score, so the strict comparison decides nothing
      there. */
  lemma BranchesMeetAtEqualResources(runs: real, r: real)
    requires r > 0.0
    ensures ParFormula(runs, r, r) == Round(runs * (r / r))
    ensures ParFormula(runs, r, r) == Round(runs)
  {
    assert r / r == 1.0;
  }

  /** In the surplus branch every 1% of extra resource is worth 2.45 runs
      before rounding (G50 = 245 runs per 100%). */
  lemma SurplusParLinear(runs: real, r1Used: real, r2: real)
    requires 0.0 <= r2 && r1Used <= r2
    ensures ParFormula(runs, r1Used, r2) == Round(runs + 2.45 * (r2 - r1Used))
  {
    SurplusRunsLinear(r2 - r1Used);
  }

  /** The reported resources are the true ones rounded to one decimal
      place: ten times them is whole, and they are off by at most 0.05. */
  lemma ReportedResourcesRounded(s: DLSState)
    requires ValidState(s)
    ensures var res := CalculateDLS(s).value;
      && Floor(res.resourceTeam1 * 10.0) as real == res.resourceTeam1 * 10.0
      && Floor(res.resourceTeam2 * 10.0) as real == res.resourceTeam2 * 10.0
      && -0.05 < res.resourceTeam1 - Team1ResourceUsed(s) <= 0.05
      && -0.05 < res.resourceTeam2 - Team2ResourceAvailable(s) <= 0.05
  {
  }

  /** When team 1 batted out its overs (or was all out) and team 2 gets the
      same overs, the par is team 1's (rounded) score: nothing was lost. */
  lemma NoInterruptionKeepsScore(s: DLSState)
    requires ValidState(s)
    requires ToDecimal(s.firstInningsOvers) >= s.totalOvers || Round(s.firstInningsWickets) >= 10
    requires s.team2RevisedOvers == s.totalOvers
    ensures ParScore(s) == Round(s.firstInningsRuns)
  {
    var remaining := MaxReal(0.0, s.totalOvers - ToDecimal(s.firstInningsOvers));
    if Round(s.firstInningsWickets) >= 10 {
      AllOutHasNoResource(remaining, s.firstInningsWickets);
    } else {
      NoOversRemaining(remaining, s.firstInningsWickets);
    }
    assert Team1ResourceUsed(s) == Team2ResourceAvailable(s);
    ClampsNeverBite(s);
  }

  /** Team 2's par as a function of its resource alone: more resource never
      lowers it. */
  lemma ParFormulaMonotone(runs: real, r1Used: real, r2a: real, r2b: real)
    requires runs >= 0.0 && 0.0 <= r2a <= r2b
    ensures ParFormula(runs, r1Used, r2a) <= ParFormula(runs, r1Used, r2b)
  {
    if r2b < r1Used {
      ScaledRatioMonotone(runs, r2a, r2b, r1Used);
      RoundMonotone(runs * (r2a / r1Used), runs * (r2b / r1Used));
    } else if r2a < r1Used {
      ProportionalParBound(runs, r1Used, r2a);
      SurplusParAtLeastRuns(runs, r1Used, r2b);
    } else {
      SurplusRunsLinear(r2a - r1Used);
      SurplusRunsLinear(r2b - r1Used);
      RoundMonotone(runs + (r2a - r1Used) / 100.0 * G50, runs + (r2b - r1Used) / 100.0 * G50);
    }
  }

  /** Giving team 2 more overs never lowers its target. */
  lemma MoreOversNeverLowerTarget(s: DLSState, moreOvers: real)
    requires ValidState(s) && s.team2RevisedOvers <= moreOvers
    ensures ValidState(s.(team2RevisedOvers := moreOvers))
    ensures ParScore(s) <= ParScore(s.(team2RevisedOvers := moreOvers))
  {
    var t := s.(team2RevisedOvers := moreOvers);
    var r1Used := Team1ResourceUsed(s);
    assert Team1ResourceUsed(t) == r1Used;
    ResourceMonotoneInOvers(s.team2RevisedOvers, moreOvers, 0.0);
    ParFormulaMonotone(s.firstInningsRuns, r1Used, Team2ResourceAvailable(s), Team2ResourceAvailable(t));
    ClampsNeverBite(s);
    ClampsNeverBite(t);
  }

  /** A first innings of 0 overs is rejected. */
  lemma NoOversBowledRejected()
    ensures CalculateDLS(DLSState(10.0, 0.0, 0.0, 50.0, 50.0)).None?
  {
    ToDecimalWhole(0);
  }

  /** 250/5 in 50 overs with no interruption: equal resources (83.8 each),
      par 250, target 251. */
  lemma UninterruptedExample()
    ensures CalculateDLS(DLSState(250.0, 5.0, 50.0, 50.0, 50.0)) == Some(DLSResult(250, 251, 83.8, 83.8))
  {
    var s := DLSState(250.0, 5.0, 50.0, 50.0, 50.0);
    ToDecimalWhole(50);
    NoOversRemaining(0.0, 5.0);
    FullResourceAtFifty();
  }

  /** 280/4 in 50 overs, team 2 cut to 30 overs: R[30][0] = 63.0 against
      83.8 used, so par = round(280 * 63.0 / 83.8) = 211, target 212. */
  lemma ReducedChaseExample()
    ensures CalculateDLS(DLSState(280.0, 4.0, 50.0, 50.0, 30.0)) == Some(DLSResult(211, 212, 83.8, 63.0))
  {
    ToDecimalWhole(50);
    NoOversRemaining(0.0, 4.0);
    FullResourceAtFifty();
    WholeOversExact(30, 0.0);
    assert ResourceTable.Entry(30, 0) == 63.0;
  }
}
