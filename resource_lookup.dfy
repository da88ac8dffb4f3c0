/** getResourcePercentage: the resource remaining for a (possibly fractional)
    number of overs remaining and a number of wickets lost, read from the
    Standard Edition table with linear interpolation between whole overs. */
module ResourceLookup {
  import opened Numeric
  import opened ResourceTable

  /** The table column for a wicket count: Math.round, clamped to 0..10. */
  function WicketColumn(wicketsLost: real): (w: int)
    ensures 0 <= w <= 10
    ensures w == 10 <==> Round(wicketsLost) >= 10
  {
    ClampInt(Round(wicketsLost), 0, 10)
  }

  /** Overs remaining clamped to [0, 50]. */
  function ClampOvers(oversRemaining: real): (o: real)
    ensures 0.0 <= o <= 50.0
    ensures 0.0 <= oversRemaining <= 50.0 ==> o == oversRemaining
  {
    MaxReal(0.0, MinReal(50.0, oversRemaining))
  }

  /** getResourcePercentage. */
  function Resource(oversRemaining: real, wicketsLost: real): real
  {
    var w := WicketColumn(wicketsLost);
    var o := ClampOvers(oversRemaining);
    if w == 10 then 0.0
    else
      var lower := Floor(o);
      var upper := Ceil(o);
      if lower == upper || upper > 50 then
        Entry(if lower < 50 then lower else 50, w)
      else
        Lerp(Entry(lower, w), Entry(upper, w), o - lower as real)
  }

  /** The wickets enter the lookup only through their table column. */
  lemma SameColumnSameResource(oversRemaining: real, wl1: real, wl2: real)
    requires WicketColumn(wl1) == WicketColumn(wl2)
    ensures Resource(oversRemaining, wl1) == Resource(oversRemaining, wl2)
  {
  }

  /** After the clamp the ceiling never passes row 50, so the `upper > 50`
      guard of the lookup never decides anything. */
  lemma UpperRowInTable(oversRemaining: real)
    ensures 0 <= Floor(ClampOvers(oversRemaining)) <= Ceil(ClampOvers(oversRemaining)) <= 50
  {
  }

  /** A side that is all out (wickets round to 10 or more) has no resource
      left, whatever the overs. */
  lemma AllOutHasNoResource(oversRemaining: real, wicketsLost: real)
    requires Round(wicketsLost) >= 10
    ensures Resource(oversRemaining, wicketsLost) == 0.0
  {
  }

  /** At whole overs the lookup is exactly the table entry of the clamped
      row: no interpolation happens. */
  lemma WholeOversExact(overs: int, wicketsLost: real)
    ensures Resource(overs as real, wicketsLost) ==
            Entry(ClampInt(overs, 0, 50), WicketColumn(wicketsLost))
  {
    var o := ClampOvers(overs as real);
    assert o == ClampInt(overs, 0, 50) as real;
    assert Floor(o) == Ceil(o) == ClampInt(overs, 0, 50);
    AllOutColumn(ClampInt(overs, 0, 50));
  }

  /** Fifty or more overs remaining read row 50. */
  lemma FiftyOrMoreOvers(oversRemaining: real, wicketsLost: real)
    requires oversRemaining >= 50.0
    ensures Resource(oversRemaining, wicketsLost) == Entry(50, WicketColumn(wicketsLost))
  {
    AllOutColumn(50);
  }

  /** No overs remaining (or fewer than none) read row 0, which is empty. */
  lemma NoOversRemaining(oversRemaining: real, wicketsLost: real)
    requires oversRemaining <= 0.0
    ensures Resource(oversRemaining, wicketsLost) == 0.0
  {
    var w := WicketColumn(wicketsLost);
    if w < 10 {
      NoOversRow(w);
    }
  }

  /** Between two whole overs the lookup lies between the two table entries
      that bracket it. */
  lemma BetweenBracketingEntries(oversRemaining: real, wicketsLost: real)
    requires 0.0 <= oversRemaining < 50.0
    ensures var lower, w := Floor(oversRemaining), WicketColumn(wicketsLost);
      Entry(lower, w) <= Resource(oversRemaining, wicketsLost) <= Entry(lower + 1, w)
  {
    var lower, w := Floor(oversRemaining), WicketColumn(wicketsLost);
    EntryOverStep(lower, w);
    if w == 10 {
      AllOutColumn(lower);
      AllOutColumn(lower + 1);
    } else if lower != Ceil(oversRemaining) {
      LerpBetween(Entry(lower, w), Entry(lower + 1, w), oversRemaining - lower as real);
    }
  }

  /** Every lookup lies in [0, R[50][0]] = [0, 83.8]. */
  lemma ResourceBounds(oversRemaining: real, wicketsLost: real)
    ensures 0.0 <= Resource(oversRemaining, wicketsLost) <= FullResource
  {
    var o, w := ClampOvers(oversRemaining), WicketColumn(wicketsLost);
    if o == 50.0 {
      FiftyOrMoreOvers(oversRemaining, wicketsLost);
      EntryBounds(50, w);
    } else {
      BetweenBracketingEntries(o, wicketsLost);
      EntryBounds(Floor(o), w);
      EntryBounds(Floor(o) + 1, w);
    }
  }

  /** The full-resources value: 50 overs remaining, no wicket lost. */
  lemma FullResourceAtFifty()
    ensures Resource(50.0, 0.0) == FullResource
  {
    WholeOversExact(50, 0.0);
    EntryBounds(50, 0);
  }

  /** Below 50 overs, with wickets in hand, the lookup is the interpolation
      between the two whole overs around it (at a whole over the fraction is
      0 and the interpolation is the entry itself). */
  lemma LookupAsInterpolation(oversRemaining: real, wicketsLost: real)
    requires 0.0 <= oversRemaining < 50.0 && WicketColumn(wicketsLost) < 10
    ensures var lower, w := Floor(oversRemaining), WicketColumn(wicketsLost);
      Resource(oversRemaining, wicketsLost) ==
      Lerp(Entry(lower, w), Entry(lower + 1, w), oversRemaining - lower as real)
  {
  }

  /** More overs remaining never give less resource. */
  lemma ResourceMonotoneInOvers(o1: real, o2: real, wicketsLost: real)
    requires o1 <= o2
    ensures Resource(o1, wicketsLost) <= Resource(o2, wicketsLost)
  {
    var c1, c2 := ClampOvers(o1), ClampOvers(o2);
    assert Resource(o1, wicketsLost) == Resource(c1, wicketsLost);
    assert Resource(o2, wicketsLost) == Resource(c2, wicketsLost);
    ClampedMonotoneInOvers(c1, c2, wicketsLost);
  }

  lemma ClampedMonotoneInOvers(c1: real, c2: real, wicketsLost: real)
    requires 0.0 <= c1 <= c2 <= 50.0
    ensures Resource(c1, wicketsLost) <= Resource(c2, wicketsLost)
  {
    var w := WicketColumn(wicketsLost);
    if w == 10 {
    } else if c2 == 50.0 {
      FiftyOrMoreOvers(c2, wicketsLost);
      if c1 < 50.0 {
        BetweenBracketingEntries(c1, wicketsLost);
        ColumnMonotone(Floor(c1) + 1, 50, w);
      }
    } else if Floor(c1) == Floor(c2) {
      var lower := Floor(c1);
      EntryOverStep(lower, w);
      LookupAsInterpolation(c1, wicketsLost);
      LookupAsInterpolation(c2, wicketsLost);
      LerpMonotoneInFraction(Entry(lower, w), Entry(lower + 1, w), c1 - lower as real, c2 - lower as real);
    } else {
      BetweenBracketingEntries(c1, wicketsLost);
      BetweenBracketingEntries(c2, wicketsLost);
      ColumnMonotone(Floor(c1) + 1, Floor(c2), w);
    }
  }

  /** More wickets lost never give more resource. */
  lemma ResourceMonotoneInWickets(oversRemaining: real, wl1: real, wl2: real)
    requires wl1 <= wl2
    ensures Resource(oversRemaining, wl2) <= Resource(oversRemaining, wl1)
  {
    var o := ClampOvers(oversRemaining);
    var w1, w2 := WicketColumn(wl1), WicketColumn(wl2);
    RoundMonotone(wl1, wl2);
    if w2 == 10 {
      ResourceBounds(oversRemaining, wl1);
    } else {
      var lower, upper := Floor(o), Ceil(o);
      if lower == upper || upper > 50 {
        RowMonotone(if lower < 50 then lower else 50, w1, w2);
      } else {
        RowMonotone(lower, w1, w2);
        RowMonotone(upper, w1, w2);
        LerpMonotoneInEnds(Entry(lower, w2), Entry(upper, w2), Entry(lower, w1), Entry(upper, w1), o - lower as real);
      }
    }
  }

  /** Any positive number of overs with no wicket lost leaves resource. */
  lemma FreshInningsHasResource(overs: real)
    requires overs > 0.0
    ensures Resource(overs, 0.0) > 0.0
  {
    var o := ClampOvers(overs);
    if o >= 1.0 {
      ResourceMonotoneInOvers(1.0, overs, 0.0);
      WholeOversExact(1, 0.0);
      FreshBatsmenHaveResource(1);
    } else {
      assert Floor(o) == 0 && Ceil(o) == 1;
      NoOversRow(0);
      FreshBatsmenHaveResource(1);
      assert Resource(overs, 0.0) == Lerp(0.0, Entry(1, 0), o);
      MulNonNegative(o, Entry(1, 0));
      assert o * Entry(1, 0) >= o * 3.2 by {
        MulNonNegative(o, Entry(1, 0) - 3.2);
      }
    }
  }
}
