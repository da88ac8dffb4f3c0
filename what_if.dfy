/** generateWhatIfScenarios: from team 2's current position, the par now
    and the par at up to four nearby milestones (one or two more wickets,
    five more overs, five more overs and a wicket), in that fixed order. */
module WhatIf {
  import opened Numeric
  import opened Overs
  import opened Target
  import opened LivePar

  /** Which milestone a scenario describes. The labels and descriptions the
      source renders for display are abstracted to this tag. */
  datatype ScenarioKind = CurrentPar | NextWicket | TwoMoreWickets | MoreOvers | MoreOversAndWicket

  /** WhatIfScenario: `overs` is decimal overs, `wickets` the wickets down. */
  datatype WhatIfScenario = WhatIfScenario(kind: ScenarioKind, parScore: int, overs: real, wickets: real)

  /** Position of each kind in the output. */
  function Rank(kind: ScenarioKind): nat {
    match kind
    case CurrentPar => 0
    case NextWicket => 1
    case TwoMoreWickets => 2
    case MoreOvers => 3
    case MoreOversAndWicket => 4
  }

  /** futureOvers: five overs on from the current (decimal) position, capped
      at team 2's allotment. It is a decimal value. */
  function FutureOvers(s: DLSState, currentOvers: real): real {
    MinReal(ToDecimal(currentOvers) + 5.0, s.team2RevisedOvers)
  }

  /** Whether a kind of scenario is produced for this position. */
  predicate Included(s: DLSState, currentOvers: real, currentWickets: real, kind: ScenarioKind) {
    match kind
    case CurrentPar => true
    case NextWicket => currentWickets < 9.0
    case TwoMoreWickets => currentWickets + 2.0 <= 9.0
    case MoreOvers => FutureOvers(s, currentOvers) > ToDecimal(currentOvers)
    case MoreOversAndWicket => FutureOvers(s, currentOvers) > ToDecimal(currentOvers) && currentWickets < 9.0
  }

  /** The scenario of a kind. The five-overs scenarios hand the decimal
      futureOvers to getParScoreAt, which reads it as cricket notation
      again. */
  function Projection(s: DLSState, currentOvers: real, currentWickets: real, kind: ScenarioKind): WhatIfScenario
    requires LiveParDefined(s)
  {
    var t2Bowled := ToDecimal(currentOvers);
    var futureOvers := FutureOvers(s, currentOvers);
    match kind
    case CurrentPar =>
      WhatIfScenario(kind, ParScoreAt(s, currentOvers, currentWickets), t2Bowled, currentWickets)
    case NextWicket =>
      WhatIfScenario(kind, ParScoreAt(s, currentOvers, currentWickets + 1.0), t2Bowled, currentWickets + 1.0)
    case TwoMoreWickets =>
      WhatIfScenario(kind, ParScoreAt(s, currentOvers, currentWickets + 2.0), t2Bowled, currentWickets + 2.0)
    case MoreOvers =>
      WhatIfScenario(kind, ParScoreAt(s, futureOvers, currentWickets), futureOvers, currentWickets)
    case MoreOversAndWicket =>
      WhatIfScenario(kind, ParScoreAt(s, futureOvers, currentWickets + 1.0), futureOvers, currentWickets + 1.0)
  }

  /** The kind at each position of the fixed order. */
  function KindOfRank(n: nat): (kind: ScenarioKind)
    requires n < 5
    ensures Rank(kind) == n
  {
    if n == 0 then CurrentPar
    else if n == 1 then NextWicket
    else if n == 2 then TwoMoreWickets
    else if n == 3 then MoreOvers
    else MoreOversAndWicket
  }

  /** The kinds that are produced for this position. */
  function IncludedKinds(s: DLSState, currentOvers: real, currentWickets: real): (inc: set<ScenarioKind>)
    ensures forall kind :: kind in inc <==> Included(s, currentOvers, currentWickets, kind)
  {
    (if Included(s, currentOvers, currentWickets, CurrentPar) then {CurrentPar} else {}) +
    (if Included(s, currentOvers, currentWickets, NextWicket) then {NextWicket} else {}) +
    (if Included(s, currentOvers, currentWickets, TwoMoreWickets) then {TwoMoreWickets} else {}) +
    (if Included(s, currentOvers, currentWickets, MoreOvers) then {MoreOvers} else {}) +
    (if Included(s, currentOvers, currentWickets, MoreOversAndWicket) then {MoreOversAndWicket} else {})
  }

  /** The kinds of `inc` ranked below `n`, in rank order. */
  function KindsBelow(inc: set<ScenarioKind>, n: nat): seq<ScenarioKind>
    requires n <= 5
  {
    if n == 0 then []
    else KindsBelow(inc, n - 1) + (if KindOfRank(n - 1) in inc then [KindOfRank(n - 1)] else [])
  }

  lemma RankDeterminesKind(kind: ScenarioKind)
    ensures KindOfRank(Rank(kind)) == kind
  {
  }

  /** KindsBelow has at most `n` entries. */
  lemma {:induction false} KindsBelowLength(inc: set<ScenarioKind>, n: nat)
    requires n <= 5
    ensures |KindsBelow(inc, n)| <= n
  {
    if n > 0 {
      KindsBelowLength(inc, n - 1);
    }
  }

  /** Every kind listed is ranked below `n`. */
  predicate RanksBelow(kinds: seq<ScenarioKind>, n: nat) {
    forall i :: 0 <= i < |kinds| ==> Rank(kinds[i]) < n
  }

  /** Each kind listed is ranked above the one before it. */
  predicate Ascending(kinds: seq<ScenarioKind>) {
    forall i :: 0 < i < |kinds| ==> Rank(kinds[i - 1]) < Rank(kinds[i])
  }

  /** KindsBelow lists kinds ranked below `n` in strictly increasing rank. */
  lemma {:induction false} KindsBelowOrdered(inc: set<ScenarioKind>, n: nat)
    requires n <= 5
    ensures RanksBelow(KindsBelow(inc, n), n) && Ascending(KindsBelow(inc, n))
  {
    if n > 0 {
      KindsBelowOrdered(inc, n - 1);
      var prefix := KindsBelow(inc, n - 1);
      var next := KindOfRank(n - 1);
      var kinds := KindsBelow(inc, n);
      if next in inc {
        assert kinds == prefix + [next];
        forall i | 0 <= i < |kinds|
          ensures Rank(kinds[i]) < n
        {
          if i < |prefix| {
            assert kinds[i] == prefix[i];
            assert Rank(prefix[i]) < n - 1;
          } else {
            assert kinds[i] == next;
          }
        }
        forall i | 0 < i < |kinds|
          ensures Rank(kinds[i - 1]) < Rank(kinds[i])
        {
          assert kinds[i - 1] == prefix[i - 1];
          assert Rank(prefix[i - 1]) < n - 1;
          if i < |prefix| {
            assert kinds[i] == prefix[i];
            assert Rank(prefix[i - 1]) < Rank(prefix[i]);
          } else {
            assert kinds[i] == next;
          }
        }
      } else {
        assert kinds == prefix;
        assert RanksBelow(prefix, n - 1);
      }
    }
  }

  /** A kind is listed exactly when it is in `inc` and ranked below `n`. */
  lemma {:induction false} KindsBelowMembers(inc: set<ScenarioKind>, n: nat)
    requires n <= 5
    ensures forall kind :: kind in KindsBelow(inc, n) <==> kind in inc && Rank(kind) < n
  {
    if n > 0 {
      KindsBelowMembers(inc, n - 1);
      var prefix := KindsBelow(inc, n - 1);
      var next := KindOfRank(n - 1);
      var kinds := KindsBelow(inc, n);
      assert kinds == prefix + (if next in inc then [next] else []);
      forall kind
        ensures kind in kinds <==> kind in inc && Rank(kind) < n
      {
        if Rank(kind) == n - 1 {
          RankDeterminesKind(kind);
        }
      }
    }
  }

  /** When the current par is included it comes first. */
  lemma {:induction false} KindsBelowFirst(inc: set<ScenarioKind>, n: nat)
    requires 1 <= n <= 5 && CurrentPar in inc
    ensures |KindsBelow(inc, n)| >= 1 && KindsBelow(inc, n)[0] == CurrentPar
  {
    if n > 1 {
      KindsBelowFirst(inc, n - 1);
      var prefix := KindsBelow(inc, n - 1);
      assert KindsBelow(inc, n)[0] == prefix[0];
    }
  }

  /** The kinds generateWhatIfScenarios produces, in output order. */
  function ScheduledKinds(s: DLSState, currentOvers: real, currentWickets: real): seq<ScenarioKind> {
    KindsBelow(IncludedKinds(s, currentOvers, currentWickets), 5)
  }

  /** The scheduled kinds: the current par first, then strictly increasing
      rank, and a kind is there exactly when it is included. */
  lemma ScheduledKindsCorrect(s: DLSState, currentOvers: real, currentWickets: real)
    ensures var kinds := ScheduledKinds(s, currentOvers, currentWickets);
      && 1 <= |kinds| <= 5
      && kinds[0] == CurrentPar
      && Ascending(kinds)
      && (forall kind :: kind in kinds <==> Included(s, currentOvers, currentWickets, kind))
  {
    var inc := IncludedKinds(s, currentOvers, currentWickets);
    KindsBelowLength(inc, 5);
    KindsBelowOrdered(inc, 5);
    KindsBelowMembers(inc, 5);
    KindsBelowFirst(inc, 5);
  }

  /** The projection of each kind in a list, in order. */
  function ProjectAll(s: DLSState, currentOvers: real, currentWickets: real, kinds: seq<ScenarioKind>): seq<WhatIfScenario>
    requires LiveParDefined(s)
  {
    if kinds == [] then []
    else ProjectAll(s, currentOvers, currentWickets, kinds[..|kinds| - 1]) +
           [Projection(s, currentOvers, currentWickets, kinds[|kinds| - 1])]
  }

  lemma {:induction false} ProjectAllIndex(s: DLSState, currentOvers: real, currentWickets: real, kinds: seq<ScenarioKind>)
    requires LiveParDefined(s)
    ensures var sc := ProjectAll(s, currentOvers, currentWickets, kinds);
      && |sc| == |kinds|
      && forall i :: 0 <= i < |kinds| ==> sc[i] == Projection(s, currentOvers, currentWickets, kinds[i])
  {
    if kinds != [] {
      ProjectAllIndex(s, currentOvers, currentWickets, kinds[..|kinds| - 1]);
    }
  }

  /** The same list built one rank at a time, as the generator builds it. */
  function ScenariosBelow(s: DLSState, currentOvers: real, currentWickets: real, n: nat): seq<WhatIfScenario>
    requires LiveParDefined(s) && n <= 5
  {
    if n == 0 then []
    else
      var kind := KindOfRank(n - 1);
      ScenariosBelow(s, currentOvers, currentWickets, n - 1) +
        (if Included(s, currentOvers, currentWickets, kind) then [Projection(s, currentOvers, currentWickets, kind)] else [])
  }

  lemma {:induction false} ScenariosBelowAgree(s: DLSState, currentOvers: real, currentWickets: real, n: nat)
    requires LiveParDefined(s) && n <= 5
    ensures ScenariosBelow(s, currentOvers, currentWickets, n) ==
            ProjectAll(s, currentOvers, currentWickets, KindsBelow(IncludedKinds(s, currentOvers, currentWickets), n))
  {
    if n > 0 {
      ScenariosBelowAgree(s, currentOvers, currentWickets, n - 1);
      var inc := IncludedKinds(s, currentOvers, currentWickets);
      var kind := KindOfRank(n - 1);
      var kinds := KindsBelow(inc, n - 1);
      if kind in inc {
        assert (kinds + [kind])[..|kinds|] == kinds;
      } else {
        assert kinds + [] == kinds;
      }
    }
  }

  /** The scenarios the position calls for: the projection of each
      scheduled kind. */
  function Scenarios(s: DLSState, currentOvers: real, currentWickets: real): seq<WhatIfScenario>
    requires LiveParDefined(s)
  {
    ProjectAll(s, currentOvers, currentWickets, ScheduledKinds(s, currentOvers, currentWickets))
  }

  /** The scenario list follows the scheduled kinds one for one: the
      current par first, at most five entries, each the projection of its
      kind (so the order and presence facts of ScheduledKindsCorrect carry
      over to the scenarios). */
  lemma ScenariosCorrect(s: DLSState, currentOvers: real, currentWickets: real)
    requires LiveParDefined(s)
    ensures var sc, kinds := Scenarios(s, currentOvers, currentWickets), ScheduledKinds(s, currentOvers, currentWickets);
      && |sc| == |kinds|
      && 1 <= |sc| <= 5
      && sc[0] == Projection(s, currentOvers, currentWickets, CurrentPar)
      && (forall i :: 0 <= i < |sc| ==> sc[i].kind == kinds[i] && sc[i] == Projection(s, currentOvers, currentWickets, kinds[i]))
  {
    var kinds := ScheduledKinds(s, currentOvers, currentWickets);
    ScheduledKindsCorrect(s, currentOvers, currentWickets);
    ProjectAllIndex(s, currentOvers, currentWickets, kinds);
    forall i | 0 <= i < |kinds|
      ensures Projection(s, currentOvers, currentWickets, kinds[i]).kind == kinds[i]
    {
      ProjectionKind(s, currentOvers, currentWickets, kinds[i]);
    }
  }

  lemma ProjectionKind(s: DLSState, currentOvers: real, currentWickets: real, kind: ScenarioKind)
    requires LiveParDefined(s)
    ensures Projection(s, currentOvers, currentWickets, kind).kind == kind
  {
  }

  /** Every scenario that is produced asks at least the current par: it
      describes the same innings with more overs bowled or more wickets
      down. */
  lemma ProjectionAtLeastCurrent(s: DLSState, currentOvers: real, currentWickets: real, kind: ScenarioKind)
    requires LiveParDefined(s) && s.firstInningsRuns >= 0.0
    requires Included(s, currentOvers, currentWickets, kind)
    ensures Projection(s, currentOvers, currentWickets, CurrentPar).parScore <=
            Projection(s, currentOvers, currentWickets, kind).parScore
  {
    if kind == NextWicket {
      WicketsAtLeastCurrent(s, currentOvers, currentWickets);
    } else if kind == TwoMoreWickets {
      WicketsAtLeastCurrent(s, currentOvers, currentWickets);
    } else if kind == MoreOvers {
      LookAheadAtLeastCurrent(s, currentOvers, currentWickets);
    } else if kind == MoreOversAndWicket {
      LookAheadAtLeastCurrent(s, currentOvers, currentWickets);
    }
  }

  /** The wicket scenarios keep the overs and add wickets. */
  lemma WicketsAtLeastCurrent(s: DLSState, currentOvers: real, currentWickets: real)
    requires LiveParDefined(s) && s.firstInningsRuns >= 0.0
    ensures Projection(s, currentOvers, currentWickets, CurrentPar).parScore <=
            Projection(s, currentOvers, currentWickets, NextWicket).parScore
    ensures Projection(s, currentOvers, currentWickets, CurrentPar).parScore <=
            Projection(s, currentOvers, currentWickets, TwoMoreWickets).parScore
  {
    ParScoreAtMonotone(s, currentOvers, currentOvers, currentWickets, currentWickets + 1.0);
    ParScoreAtMonotone(s, currentOvers, currentOvers, currentWickets, currentWickets + 2.0);
  }

  /** The five-overs scenarios, when produced, look past the overs already
      bowled even after futureOvers is read as notation again. */
  lemma LookAheadAtLeastCurrent(s: DLSState, currentOvers: real, currentWickets: real)
    requires LiveParDefined(s) && s.firstInningsRuns >= 0.0
    requires FutureOvers(s, currentOvers) > ToDecimal(currentOvers)
    ensures Projection(s, currentOvers, currentWickets, CurrentPar).parScore <=
            Projection(s, currentOvers, currentWickets, MoreOvers).parScore
    ensures Projection(s, currentOvers, currentWickets, CurrentPar).parScore <=
            Projection(s, currentOvers, currentWickets, MoreOversAndWicket).parScore
  {
    FutureParAtLeastCurrent(s, currentOvers, currentWickets, currentWickets);
    FutureParAtLeastCurrent(s, currentOvers, currentWickets, currentWickets + 1.0);
  }

  /** Re-reading futureOvers as notation never takes it below the overs
      already bowled, so the par there is no lower. */
  lemma FutureParAtLeastCurrent(s: DLSState, currentOvers: real, currentWickets: real, futureWickets: real)
    requires LiveParDefined(s) && s.firstInningsRuns >= 0.0
    requires FutureOvers(s, currentOvers) > ToDecimal(currentOvers) && currentWickets <= futureWickets
    ensures ParScoreAt(s, currentOvers, currentWickets) <= ParScoreAt(s, FutureOvers(s, currentOvers), futureWickets)
  {
    var d := ToDecimal(currentOvers);
    var futureOvers := FutureOvers(s, currentOvers);
    ToDecimalReapplied(currentOvers);
    ToDecimalMonotone(d, futureOvers);
    LiveParMonotone(s, d, ToDecimal(futureOvers), currentWickets, futureWickets);
  }

  /** One more wicket on top of a milestone never lowers its par. */
  lemma WicketRaisesProjection(s: DLSState, currentOvers: real, currentWickets: real)
    requires LiveParDefined(s) && s.firstInningsRuns >= 0.0
    ensures Projection(s, currentOvers, currentWickets, NextWicket).parScore <=
            Projection(s, currentOvers, currentWickets, TwoMoreWickets).parScore
    ensures Projection(s, currentOvers, currentWickets, MoreOvers).parScore <=
            Projection(s, currentOvers, currentWickets, MoreOversAndWicket).parScore
  {
    ParScoreAtMonotone(s, currentOvers, currentOvers, currentWickets + 1.0, currentWickets + 2.0);
    var futureOvers := FutureOvers(s, currentOvers);
    ParScoreAtMonotone(s, futureOvers, futureOvers, currentWickets, currentWickets + 1.0);
  }

  /** The whole list: no scenario asks less than the first one, the
      current par. */
  lemma ScenariosNeverBelowCurrent(s: DLSState, currentOvers: real, currentWickets: real)
    requires LiveParDefined(s) && s.firstInningsRuns >= 0.0
    ensures var sc := Scenarios(s, currentOvers, currentWickets);
      forall i :: 0 <= i < |sc| ==> sc[0].parScore <= sc[i].parScore
  {
    var sc, kinds := Scenarios(s, currentOvers, currentWickets), ScheduledKinds(s, currentOvers, currentWickets);
    ScenariosCorrect(s, currentOvers, currentWickets);
    ScheduledKindsCorrect(s, currentOvers, currentWickets);
    forall i | 0 <= i < |sc|
      ensures sc[0].parScore <= sc[i].parScore
    {
      assert kinds[i] in kinds;
      ProjectionAtLeastCurrent(s, currentOvers, currentWickets, kinds[i]);
    }
  }

  /** The five-overs scenarios record futureOvers as decimal overs but ask
      for the par at futureOvers read as cricket notation. The two agree
      exactly when futureOvers is a whole number of overs; at 19.3 overs
      (19.5 decimal) with a 50-over allotment the scenario says 24.5 overs
      but carries the par at 24.5 read as 24 overs and 5 balls. */
  lemma FutureOversReadAsNotation(s: DLSState, currentOvers: real)
    ensures ToDecimal(currentOvers) + 5.0 <= s.team2RevisedOvers ==>
      (ToDecimal(FutureOvers(s, currentOvers)) == FutureOvers(s, currentOvers) <==> DisplayParts(currentOvers).1 == 0)
    ensures currentOvers == 19.3 && s.team2RevisedOvers == 50.0 ==>
      FutureOvers(s, currentOvers) == 24.5 && ToDecimal(FutureOvers(s, currentOvers)) == 24.0 + 5.0 / 6.0
  {
    var d := ToDecimal(currentOvers);
    var (w, b) := DisplayParts(currentOvers);
    if d + 5.0 <= s.team2RevisedOvers {
      var n := w + 5;
      assert FutureOvers(s, currentOvers) == n as real + b as real / 6.0;
      SixthsReadAsNotation(n, b);
    }
    if currentOvers == 19.3 && s.team2RevisedOvers == 50.0 {
      ToDecimalLegal(19, 3);
      ToDecimalLegal(24, 5);
    }
  }

  /** generateWhatIfScenarios: the scenarios the position calls for. */
  method GenerateWhatIfScenarios(s: DLSState, currentOvers: real, currentWickets: real)
    returns (scenarios: seq<WhatIfScenario>)
    requires LiveParDefined(s)
    ensures scenarios == Scenarios(s, currentOvers, currentWickets)
  {
    var t2Bowled := ToDecimal(currentOvers);

    var currentPar := ParScoreAt(s, currentOvers, currentWickets);
    scenarios := [WhatIfScenario(CurrentPar, currentPar, t2Bowled, currentWickets)];
    assert scenarios == ScenariosBelow(s, currentOvers, currentWickets, 1);

    if currentWickets < 9.0 {
      var par1w := ParScoreAt(s, currentOvers, currentWickets + 1.0);
      scenarios := scenarios + [WhatIfScenario(NextWicket, par1w, t2Bowled, currentWickets + 1.0)];
    }
    assert scenarios == ScenariosBelow(s, currentOvers, currentWickets, 2);

    if currentWickets + 2.0 <= 9.0 {
      var par2w := ParScoreAt(s, currentOvers, currentWickets + 2.0);
      scenarios := scenarios + [WhatIfScenario(TwoMoreWickets, par2w, t2Bowled, currentWickets + 2.0)];
    }
    assert scenarios == ScenariosBelow(s, currentOvers, currentWickets, 3);

    var futureOvers := FutureOvers(s, currentOvers);
    if futureOvers > t2Bowled {
      var par5ov := ParScoreAt(s, futureOvers, currentWickets);
      scenarios := scenarios + [WhatIfScenario(MoreOvers, par5ov, futureOvers, currentWickets)];
    }
    assert scenarios == ScenariosBelow(s, currentOvers, currentWickets, 4);

    if futureOvers > t2Bowled && currentWickets < 9.0 {
      var par5ov1w := ParScoreAt(s, futureOvers, currentWickets + 1.0);
      scenarios := scenarios + [WhatIfScenario(MoreOversAndWicket, par5ov1w, futureOvers, currentWickets + 1.0)];
    }
    ScenariosBelowAgree(s, currentOvers, currentWickets, 5);
  }
}
