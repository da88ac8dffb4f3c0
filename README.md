# CricketDLS calculation engine in Dafny

This project models the calculation engine of CricketDLS (`src/lib/dls-logic.ts`).
That engine applies the Duckworth-Lewis-Stern method to a limited-overs cricket
match cut short by an interruption. The model covers:

- the Standard Edition resource table `RESOURCE_TABLE`, with 51 rows (overs
  remaining, 0 to 50) and 11 columns (wickets lost, 0 to 10);
- `cricketOversToDecimal` and `formatOversDisplay`, which convert cricket overs
  notation ("19.3" is 19 overs and 3 balls, that is 19.5 overs);
- `getResourcePercentage`, the table lookup with linear interpolation between
  whole overs;
- `calculateDLS`, the revised target for team 2;
- `getParScoreAt`, the par score at a point of team 2's innings;
- `generateWhatIfScenarios`, the list of par scores at nearby milestones.

Every JavaScript number is an exact `real`.

- `Math.floor`, `Math.ceil` and `Math.round` are written out in module `Numeric`.
  `Math.round` rounds a half up, towards +infinity.
- The five match fields that the source passes around together are bundled
  into a `DLSState` value: first-innings runs, wickets and overs, total overs,
  and team 2's revised overs.
- The operations that only compute a value are functions.
- `generateWhatIfScenarios` builds its list by pushing onto an array, one `if`
  at a time. It is a method that extends a sequence in the same order. Its
  postcondition ties the result to the specification function
  `WhatIf.Scenarios`.

Modules, in dependency order:

- `Numeric`: rounding, clamping, interpolation, decimal rendering.
- `Overs`: the notation.
- `ResourceTable`: the table literal.
- `ResourceLookup`: `getResourcePercentage`.
- `Target`: `calculateDLS`.
- `LivePar`: `getParScoreAt`.
- `WhatIf`: `generateWhatIfScenarios`.

The model follows `dls-logic.ts` as written in four places worth knowing:

- The full-resources entry `R[50][0]` is 83.8. Published DLS tables put it at
  100%, but this table's percentages are not rescaled, and every formula works
  with them as they are. Take 280/4 in 50 overs, with team 2 cut to 30 overs:
  the par is round(280 × 63.0 / 83.8) = 211 and the target 212, as
  `Target.ReducedChaseExample` states.
- `formatOversDisplay` never emits ".0". The doc comment at line 82 shows
  "20.0" and "15.0", but the code returns "20" and "15"
  (`Overs.FormatLegalNotation`).
- `calculateDLS` takes the proportional branch only when team 2's resource is
  strictly smaller than team 1's resource used. `getParScoreAt` splits the same
  way, but its surplus branch scales by team 2's used share of its own total.
- The two five-overs scenarios of `generateWhatIfScenarios` hand the decimal
  `futureOvers` to `getParScoreAt`, which reads it again as notation. At 19.3
  overs (19.5 decimal) the scenario records 24.5 overs but carries the par at
  24 overs and 5 balls. The conversion leaves a value alone exactly when it is
  a whole number of overs (`Overs.ToDecimalFixedIffWhole`). Below the
  allotment cap, that is exactly when the current position is a whole number
  of overs (`WhatIf.FutureOversReadAsNotation`). The model keeps this
  behaviour.
- `getParScoreAt` divides by r1Used in its proportional branch and by r2Total
  in its surplus branch. With no overs allotted to team 2, r2Total is 0:
  - if team 1 used some resource, the proportional branch is taken and the
    par is 0 (`LivePar.NoAllotmentParIsZero`);
  - if team 1 used none, the surplus branch computes 0 / 0 and the source
    returns NaN.

  The model admits every state except that last one (`LivePar.LiveParDefined`).

## Model

| member | source | states |
|---|---|---|
| Numeric.Round | src/lib/dls-logic.ts:75 | Math.round gives the integer n with x - 0.5 < n <= x + 0.5, a half rounding up |
| Numeric.Floor | src/lib/dls-logic.ts:74 | Math.floor gives the integer n with n <= x < n + 1 |
| Numeric.Ceil | src/lib/dls-logic.ts:103 | Math.ceil gives the integer n with x <= n < x + 1 |
| Numeric.IntToString | src/lib/dls-logic.ts:88-89 | `${n}` is non-empty and starts with '-' exactly when n is negative; the digits after it are NatToString's |
| Numeric.NatToStringRoundTrip | src/lib/dls-logic.ts:88-89 | the decimal text of a whole number reads back as that number, so `${n}` loses nothing |
| Numeric.NatToStringInjective | src/lib/dls-logic.ts:88-89 | different whole numbers render as different texts |
| Numeric.LerpBetween | src/lib/dls-logic.ts:109-113 | the interpolated value lies between its two end points |
| Overs.ToDecimal | src/lib/dls-logic.ts:73-78 | the decimal overs lie in [floor(overs), floor(overs) + 1] and are a whole number of balls (six times it is whole) |
| Overs.BallDigit | src/lib/dls-logic.ts:75 | the rounded first decimal digit lies in 0..10 |
| Overs.ToDecimalLegal | src/lib/dls-logic.ts:68-78 | legal notation W.B with B in 0..5 is W + B/6 overs, inside [W, W + 1) |
| Overs.ToDecimalCarry | src/lib/dls-logic.ts:76 | a ball digit of 6 to 9 is a completed over: W.B is W + 1 |
| Overs.ToDecimalWhole | src/lib/dls-logic.ts:73-78 | whole overs are unchanged |
| Overs.ToDecimalMonotone | src/lib/dls-logic.ts:73-78 | more overs in notation never give fewer decimal overs |
| Overs.SixthsReadAsNotation | src/lib/dls-logic.ts:73-78 | W + B/6 read as notation is never less than itself, and is itself exactly when B = 0 |
| Overs.ToDecimalReapplied | src/lib/dls-logic.ts:73-78 | converting a converted value never moves it back, and leaves it alone exactly when it has no balls of an unfinished over |
| Overs.ToDecimalFixedIffWhole | src/lib/dls-logic.ts:73-78 | the conversion leaves a value unchanged exactly when it is a whole number of overs |
| Overs.DisplayParts | src/lib/dls-logic.ts:85-87 | the displayed balls are 0..5, and whole overs plus balls/6 recompose the decimal overs |
| Overs.FormatLegalNotation | src/lib/dls-logic.ts:80-90 | W.0 displays "W", W.B with B in 1..5 displays "W.B", and W.6 to W.9 display the next whole over |
| Overs.FormatOversDisplay | src/lib/dls-logic.ts:84-90 | formatOversDisplay; no contract of its own: FormatLegalNotation states its output for every legal notation and for digits 6 to 9, and DisplayParts its parts |
| ResourceTable.TableRow | src/lib/dls-logic.ts:13-66 | every row is non-increasing in wickets lost, and its all-out column is 0 |
| ResourceTable.Entry | src/lib/dls-logic.ts:13-66 | RESOURCE_TABLE[o][w]; no contract of its own: the ResourceTable lemmas below state its monotonicity, zeros and bounds |
| ResourceTable.ColumnMonotone | src/lib/dls-logic.ts:13-66 | down each column, more overs remaining never give less resource |
| ResourceTable.RowMonotone | src/lib/dls-logic.ts:13-66 | along each row, more wickets lost never give more resource |
| ResourceTable.NoOversRow | src/lib/dls-logic.ts:15 | row 0 is all zeros |
| ResourceTable.AllOutColumn | src/lib/dls-logic.ts:13-66 | column 10 is all zeros |
| ResourceTable.EntryBounds | src/lib/dls-logic.ts:13-66 | every entry lies in [0, R[50][0]] and R[50][0] = 83.8 |
| ResourceTable.FreshBatsmenHaveResource | src/lib/dls-logic.ts:16-65 | with at least one over remaining and no wicket lost the entry is at least R[1][0] = 3.2 |
| ResourceLookup.WicketColumn | src/lib/dls-logic.ts:97 | the column lies in 0..10, and it is 10 exactly when the wickets round to 10 or more |
| ResourceLookup.ClampOvers | src/lib/dls-logic.ts:98 | the clamped overs lie in [0, 50] and are unchanged inside that range |
| ResourceLookup.Resource | src/lib/dls-logic.ts:96-114 | getResourcePercentage; no contract of its own: the ResourceLookup lemmas below state its bounds, table agreement, interpolation and monotonicity |
| ResourceLookup.SameColumnSameResource | src/lib/dls-logic.ts:97 | wickets that round to the same column give the same resource |
| ResourceLookup.UpperRowInTable | src/lib/dls-logic.ts:102-105 | after the clamp, 0 <= floor <= ceil <= 50, so the `upper > 50` guard never fires |
| ResourceLookup.AllOutHasNoResource | src/lib/dls-logic.ts:100 | a side whose wickets round to 10 or more has 0 resource |
| ResourceLookup.WholeOversExact | src/lib/dls-logic.ts:105-106 | at whole overs the lookup is the table entry of the clamped row |
| ResourceLookup.FiftyOrMoreOvers | src/lib/dls-logic.ts:98-106 | 50 or more overs remaining read row 50 |
| ResourceLookup.NoOversRemaining | src/lib/dls-logic.ts:98-106 | no overs remaining (or fewer) give 0 resource |
| ResourceLookup.LookupAsInterpolation | src/lib/dls-logic.ts:102-113 | below 50 overs, with wickets in hand, the lookup is the interpolation between the two whole overs around it |
| ResourceLookup.BetweenBracketingEntries | src/lib/dls-logic.ts:109-113 | the lookup lies between the table entries of the whole overs around it |
| ResourceLookup.ResourceBounds | src/lib/dls-logic.ts:96-114 | every lookup lies in [0, 83.8] |
| ResourceLookup.FullResourceAtFifty | src/lib/dls-logic.ts:65 | 50 overs remaining with no wicket lost give the full 83.8 |
| ResourceLookup.ResourceMonotoneInOvers | src/lib/dls-logic.ts:96-114 | more overs remaining never give less resource, fractional overs included |
| ResourceLookup.ResourceMonotoneInWickets | src/lib/dls-logic.ts:96-114 | more wickets lost never give more resource |
| ResourceLookup.FreshInningsHasResource | src/lib/dls-logic.ts:96-114 | any positive overs with no wicket lost leave positive resource |
| Target.Team2ResourceAvailable | src/lib/dls-logic.ts:145 | team 2's available resource lies in [0, 83.8] |
| Target.Team1ResourceUsed | src/lib/dls-logic.ts:139-142 | r1Used; no contract of its own: Team1ResourceUsedBounds bounds it to [0, 83.8] |
| Target.Team1ResourceUsedBounds | src/lib/dls-logic.ts:139-142 | once team 1's innings is under way, its resource used lies in [0, 83.8] |
| Target.CalculateDLS | src/lib/dls-logic.ts:119-168 | null exactly when runs < 0, the converted first-innings overs <= 0, total overs <= 0 or revised overs <= 0; otherwise par >= 0 and target = par + 1 |
| Target.ParFormula | src/lib/dls-logic.ts:152-160 | the branch of calculateDLS; no contract of its own: ParFormulaNonNegative, ProportionalBranch, SurplusBranch, SurplusParLinear, BranchesMeetAtEqualResources and ParFormulaMonotone state it |
| Target.OneDecimal | src/lib/dls-logic.ts:165-166 | Math.round(x × 10) / 10; no contract of its own: ReportedResourcesRounded states it is x to within 0.05 with one decimal |
| Target.ParFormulaNonNegative | src/lib/dls-logic.ts:152-160 | with non-negative runs the unclamped par is non-negative |
| Target.ClampsNeverBite | src/lib/dls-logic.ts:152-164 | the max(0, ·) and max(1, ·) clamps never change a valid result |
| Target.ProportionalBranch | src/lib/dls-logic.ts:152-155 | in the proportional branch team 1 used positive resource (the division is defined) and the par is at most team 1's rounded runs |
| Target.SurplusBranch | src/lib/dls-logic.ts:156-160 | in the surplus branch the par is at least team 1's rounded runs |
| Target.SurplusParLinear | src/lib/dls-logic.ts:148-160 | in the surplus branch the par is round(runs + 2.45 × (r2 − r1Used)): G50 = 245 runs per 100% of extra resource |
| Target.BranchesMeetAtEqualResources | src/lib/dls-logic.ts:152-160 | at r2 = r1Used the surplus branch taken gives round(runs × (r2 / r1Used)), what the proportional formula would give, which is round(runs) |
| Target.ReportedResourcesRounded | src/lib/dls-logic.ts:165-166 | the reported resources are the true ones rounded to one decimal place |
| Target.NoInterruptionKeepsScore | src/lib/dls-logic.ts:119-168 | if team 1 batted out its overs or was all out, and team 2 gets the same overs, the par is team 1's rounded runs |
| Target.ParFormulaMonotone | src/lib/dls-logic.ts:152-160 | more resource for team 2 never lowers the par |
| Target.MoreOversNeverLowerTarget | src/lib/dls-logic.ts:119-168 | giving team 2 more overs keeps the state valid and never lowers the par |
| Target.NoOversBowledRejected | src/lib/dls-logic.ts:127-136 | a first innings of 0.0 overs gives null |
| Target.UninterruptedExample | src/lib/dls-logic.ts:119-168 | 250/5 in 50 overs against 50 overs: par 250, target 251, both resources 83.8 |
| Target.ReducedChaseExample | src/lib/dls-logic.ts:119-168 | 280/4 in 50 overs against 30 overs: par 211, target 212, resources 83.8 and 63.0 |
| LivePar.LiveParFormula | src/lib/dls-logic.ts:205-215 | the live par is never negative |
| LivePar.DivisorsNonZero | src/lib/dls-logic.ts:205-215 | the divisor of the branch taken is non-zero: r1Used in the proportional branch, r2Total in the surplus branch |
| LivePar.ScaledPar | src/lib/dls-logic.ts:207-214 | Math.max(0, Math.round(score × ratio)); no contract of its own: ScaledParMonotone states it grows with the used share |
| LivePar.LiveParDefined | src/lib/dls-logic.ts:176-216 | the states for which getParScoreAt yields a number; no contract of its own: LiveParDefinedIff characterises them |
| LivePar.LiveParDefinedIff | src/lib/dls-logic.ts:194-215 | getParScoreAt yields a number exactly when team 2 has overs to bat or less resource than team 1 used |
| LivePar.ValidStateHasLivePar | src/lib/dls-logic.ts:129-136 | every state calculateDLS accepts has a live par |
| LivePar.Team2ResourceUsed | src/lib/dls-logic.ts:194-201 | r2Used; no contract of its own: Team2ResourceUsedMonotone states it grows with overs and wickets |
| LivePar.ParAtDecimal | src/lib/dls-logic.ts:186-215 | the par at decimal overs bowled is never negative |
| LivePar.ParScoreAt | src/lib/dls-logic.ts:176-216 | getParScoreAt is never negative |
| LivePar.ScaledParMonotone | src/lib/dls-logic.ts:207-214 | a larger used share never gives a lower scaled par |
| LivePar.LiveParFormulaMonotone | src/lib/dls-logic.ts:205-215 | more of team 2's resource used never lowers the live par |
| LivePar.LiveParFormulaAtZero | src/lib/dls-logic.ts:205-215 | with no resource used the live par is 0 |
| LivePar.LiveParFormulaAtEnd | src/lib/dls-logic.ts:205-215 | with all of team 2's resource used the live par equals calculateDLS's par formula |
| LivePar.Team2ResourceUsedMonotone | src/lib/dls-logic.ts:194-201 | more overs bowled or more wickets down never mean less resource used |
| LivePar.LiveParMonotone | src/lib/dls-logic.ts:186-215 | more decimal overs bowled or more wickets down never lower the par |
| LivePar.ParScoreAtMonotone | src/lib/dls-logic.ts:176-216 | the same in overs notation |
| LivePar.ParAtStartIsZero | src/lib/dls-logic.ts:176-216 | at 0 overs with no wicket down the par is 0 |
| LivePar.ParAtEndIsFinalPar | src/lib/dls-logic.ts:186-215 | for every state calculateDLS accepts, the live par is defined, and once the allotment is bowled, or team 2 is all out, it is calculateDLS's par |
| LivePar.ParScoreAtEndIsFinalPar | src/lib/dls-logic.ts:176-216 | the same with overs in notation, the live par again defined for every state calculateDLS accepts |
| LivePar.LiveParAtMostFinalPar | src/lib/dls-logic.ts:186-215 | for every state calculateDLS accepts, the live par is defined and at no point of the innings above calculateDLS's par |
| LivePar.NoAllotmentParIsZero | src/lib/dls-logic.ts:194-208 | with no overs allotted to team 2 (and team 1 having used resource) the par is 0 at any point at or past the start |
| LivePar.NoAllotmentExample | src/lib/dls-logic.ts:176-216 | 250/5 in 50 overs with the allotment cleared to 0: the par is defined and is 0 at 10 overs for 2 wickets |
| WhatIf.KindOfRank | src/lib/dls-logic.ts:234-306 | the kind in slot n of the fixed five-slot order has rank n (KindOfRank inverts Rank) |
| WhatIf.FutureOvers | src/lib/dls-logic.ts:278 | futureOvers = min(t2Bowled + 5, team2RevisedOvers); no contract of its own: FutureOversReadAsNotation and FutureParAtLeastCurrent state its use |
| WhatIf.Included | src/lib/dls-logic.ts:248-294 | the guards of the four optional scenarios; no contract of its own: IncludedKinds and ScheduledKindsCorrect state that a kind is produced exactly when its guard holds |
| WhatIf.Projection | src/lib/dls-logic.ts:234-305 | the scenario of each kind: its par, overs and wickets as pushed; no contract of its own: ProjectionKind, ProjectionAtLeastCurrent and WicketRaisesProjection state it |
| WhatIf.Scenarios | src/lib/dls-logic.ts:231-308 | the scenario list of a position; no contract of its own: ScenariosCorrect and ScenariosNeverBelowCurrent state it, and GenerateWhatIfScenarios returns it |
| WhatIf.RankDeterminesKind | src/lib/dls-logic.ts:234-306 | a scenario's rank determines its kind |
| WhatIf.IncludedKinds | src/lib/dls-logic.ts:248-294 | a kind is included exactly when its guard holds: always; wickets < 9; wickets + 2 <= 9; futureOvers > t2Bowled; futureOvers > t2Bowled and wickets < 9 |
| WhatIf.KindsBelowLength | src/lib/dls-logic.ts:231-306 | the first n positions hold at most n scenarios |
| WhatIf.KindsBelowOrdered | src/lib/dls-logic.ts:231-306 | scenarios come in strictly increasing position |
| WhatIf.KindsBelowMembers | src/lib/dls-logic.ts:231-306 | a kind is listed exactly when it is included and its position is below n |
| WhatIf.KindsBelowFirst | src/lib/dls-logic.ts:234-245 | the current par comes first |
| WhatIf.ScheduledKindsCorrect | src/lib/dls-logic.ts:231-308 | 1 to 5 scenarios, the current par first, in fixed order, each kind present exactly when its guard holds |
| WhatIf.ScenariosBelowAgree | src/lib/dls-logic.ts:231-308 | pushing the included scenarios one position at a time gives the projections of the scheduled kinds |
| WhatIf.ProjectAllIndex | src/lib/dls-logic.ts:231-308 | the i-th scenario is the projection of the i-th scheduled kind |
| WhatIf.ScenariosCorrect | src/lib/dls-logic.ts:231-308 | the list has one scenario per scheduled kind, between 1 and 5 of them, the current par first |
| WhatIf.ProjectionKind | src/lib/dls-logic.ts:239-305 | each scenario carries its own kind |
| WhatIf.ProjectionAtLeastCurrent | src/lib/dls-logic.ts:234-306 | every included scenario's par is at least the current par |
| WhatIf.WicketsAtLeastCurrent | src/lib/dls-logic.ts:247-275 | the one- and two-wicket scenarios' pars are at least the current par |
| WhatIf.LookAheadAtLeastCurrent | src/lib/dls-logic.ts:277-306 | when produced, the five-overs scenarios' pars are at least the current par |
| WhatIf.FutureParAtLeastCurrent | src/lib/dls-logic.ts:278-283 | re-reading futureOvers as notation never puts it before the overs bowled, so its par is no lower |
| WhatIf.WicketRaisesProjection | src/lib/dls-logic.ts:247-306 | two wickets ask at least as much as one; five overs plus a wicket ask at least as much as five overs |
| WhatIf.ScenariosNeverBelowCurrent | src/lib/dls-logic.ts:222-309 | no scenario in the list asks less than the first, the current par |
| WhatIf.FutureOversReadAsNotation | src/lib/dls-logic.ts:278-283 | before the cap, the re-read futureOvers equals futureOvers exactly when the current decimal overs are whole; 19.3 of 50 overs gives 24.5, which is re-read as 24 + 5/6 |
| WhatIf.GenerateWhatIfScenarios | src/lib/dls-logic.ts:222-309 | the method returns exactly the scenario list `Scenarios` of the position |

## Left out

- The scenario labels and descriptions: their text, including `Math.round(futureOvers - t2Bowled)` and `formatOversDisplay` inside them, is abstracted to the `ScenarioKind` tag. The fields `parScore`, `overs` and `wickets` are modelled.
- IEEE-754 arithmetic: numbers are exact reals. Binary rounding of notation such as 19.3 is not modelled, and neither are NaN and Infinity.
- LivePar.ParScoreAt: requires LiveParDefined. The one state it excludes is the one where the source returns NaN: team 2 has no overs (r2Total = 0) and team 1 used no resource, so the surplus branch computes 0 / 0. LivePar.ParAtDecimal, WhatIf.Projection, WhatIf.Scenarios and WhatIf.GenerateWhatIfScenarios carry the same precondition for the same reason.
- WhatIf.ProjectionAtLeastCurrent, WhatIf.ScenariosNeverBelowCurrent and the monotonicity lemmas of LivePar: these assume first-innings runs >= 0. A negative score scales the wrong way, and calculateDLS rejects it anyway.
- The user interface (`src/app/page.tsx`, `src/components/*`), the live-match API client (`src/lib/api.ts`) and the type declarations (`src/types/index.ts`): they are not part of this model. `DLSState` and `DLSResult` carry the fields that `dls-logic.ts` reads and writes.
