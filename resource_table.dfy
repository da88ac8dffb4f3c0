/** The Standard Edition resource table RESOURCE_TABLE: rows are whole overs
    remaining (0 to 50), columns are wickets lost (0 to 10), entries are the
    percentage of batting resource remaining. The literal is laid out in
    blocks of five rows so that the solver looks a row up in a few steps;
    `Entry` is the one access point the rest of the model uses. */
module ResourceTable {

  /** One row of the table: the resource for 0, 1, ..., 10 wickets lost. */
  datatype Row = Row(w0: real, w1: real, w2: real, w3: real, w4: real, w5: real,
                     w6: real, w7: real, w8: real, w9: real, w10: real)
  {
    /** The entry in column `w` (wickets lost). */
    function At(w: int): real
      requires 0 <= w <= 10
    {
      match w
      case 0 => w0 case 1 => w1 case 2 => w2 case 3 => w3 case 4 => w4 case 5 => w5
      case 6 => w6 case 7 => w7 case 8 => w8 case 9 => w9 case _ => w10
    }

    /** Along the row, losing one more wicket never adds resource, and the
        all-out column holds nothing. */
    predicate Shaped() {
      w1 <= w0 && w2 <= w1 && w3 <= w2 && w4 <= w3 && w5 <= w4 &&
      w6 <= w5 && w7 <= w6 && w8 <= w7 && w9 <= w8 && w10 <= w9 && w10 == 0.0
    }

    /** Column by column, this row is at most row `b`. */
    predicate Below(b: Row) {
      w0 <= b.w0 && w1 <= b.w1 && w2 <= b.w2 && w3 <= b.w3 && w4 <= b.w4 && w5 <= b.w5 &&
      w6 <= b.w6 && w7 <= b.w7 && w8 <= b.w8 && w9 <= b.w9 && w10 <= b.w10
    }
  }

  /** Rows 0 to 4 (overs remaining). */
  function Rows0To4(o: int): (r: Row)
    requires 0 <= o <= 4
    ensures r.Shaped()
  {
    match o
    case 0 => Row(0.0, 0.0, 0.0, 0.0, 0.0, 0.0, 0.0, 0.0, 0.0, 0.0, 0.0)
    case 1 => Row(3.2, 3.2, 3.1, 3.0, 2.8, 2.5, 2.1, 1.5, 0.9, 0.3, 0.0)
    case 2 => Row(6.3, 6.2, 6.0, 5.8, 5.4, 4.9, 4.0, 2.9, 1.8, 0.7, 0.0)
    case 3 => Row(9.2, 9.1, 8.9, 8.5, 7.9, 7.1, 5.8, 4.3, 2.7, 1.0, 0.0)
    case _ => Row(12.1, 11.9, 11.6, 11.1, 10.3, 9.2, 7.6, 5.6, 3.5, 1.3, 0.0)  // 4
  }

  /** Rows 5 to 9 (overs remaining). */
  function Rows5To9(o: int): (r: Row)
    requires 5 <= o <= 9
    ensures r.Shaped()
  {
    match o
    case 5 => Row(14.9, 14.7, 14.2, 13.6, 12.6, 11.2, 9.3, 6.9, 4.3, 1.6, 0.0)
    case 6 => Row(17.6, 17.3, 16.8, 16.0, 14.8, 13.2, 10.9, 8.1, 5.1, 1.9, 0.0)
    case 7 => Row(20.2, 19.9, 19.2, 18.3, 17.0, 15.1, 12.5, 9.3, 5.8, 2.2, 0.0)
    case 8 => Row(22.7, 22.3, 21.6, 20.6, 19.1, 16.9, 14.0, 10.4, 6.6, 2.5, 0.0)
    case _ => Row(25.2, 24.7, 23.9, 22.8, 21.1, 18.7, 15.5, 11.5, 7.3, 2.7, 0.0)  // 9
  }

  /** Rows 10 to 14 (overs remaining). */
  function Rows10To14(o: int): (r: Row)
    requires 10 <= o <= 14
    ensures r.Shaped()
  {
    match o
    case 10 => Row(27.5, 27.0, 26.1, 24.9, 23.0, 20.5, 16.9, 12.6, 7.9, 3.0, 0.0)
    case 11 => Row(29.8, 29.3, 28.3, 26.9, 24.9, 22.1, 18.3, 13.6, 8.6, 3.2, 0.0)
    case 12 => Row(32.1, 31.5, 30.4, 28.9, 26.8, 23.8, 19.7, 14.6, 9.2, 3.5, 0.0)
    case 13 => Row(34.2, 33.6, 32.4, 30.8, 28.6, 25.4, 21.0, 15.6, 9.8, 3.7, 0.0)
    case _ => Row(36.3, 35.6, 34.4, 32.7, 30.3, 26.9, 22.3, 16.5, 10.4, 3.9, 0.0)  // 14
  }

  /** Rows 15 to 19 (overs remaining). */
  function Rows15To19(o: int): (r: Row)
    requires 15 <= o <= 19
    ensures r.Shaped()
  {
    match o
    case 15 => Row(38.4, 37.6, 36.3, 34.5, 32.0, 28.4, 23.5, 17.5, 11.0, 4.1, 0.0)
    case 16 => Row(40.4, 39.6, 38.2, 36.3, 33.6, 29.9, 24.7, 18.4, 11.5, 4.3, 0.0)
    case 17 => Row(42.3, 41.5, 40.0, 38.0, 35.2, 31.3, 25.9, 19.2, 12.1, 4.5, 0.0)
    case 18 => Row(44.2, 43.3, 41.8, 39.7, 36.8, 32.7, 27.0, 20.1, 12.6, 4.7, 0.0)
    case _ => Row(46.0, 45.1, 43.5, 41.3, 38.3, 34.0, 28.1, 20.9, 13.1, 4.9, 0.0)  // 19
  }

  /** Rows 20 to 24 (overs remaining). */
  function Rows20To24(o: int): (r: Row)
    requires 20 <= o <= 24
    ensures r.Shaped()
  {
    match o
    case 20 => Row(47.8, 46.8, 45.2, 42.9, 39.7, 35.3, 29.2, 21.7, 13.6, 5.1, 0.0)
    case 21 => Row(49.5, 48.5, 46.8, 44.4, 41.1, 36.6, 30.2, 22.5, 14.1, 5.3, 0.0)
    case 22 => Row(51.2, 50.1, 48.4, 45.9, 42.5, 37.8, 31.3, 23.2, 14.6, 5.5, 0.0)
    case 23 => Row(52.8, 51.7, 49.9, 47.4, 43.9, 39.0, 32.3, 24.0, 15.0, 5.6, 0.0)
    case _ => Row(54.4, 53.3, 51.4, 48.8, 45.2, 40.2, 33.2, 24.7, 15.5, 5.8, 0.0)  // 24
  }

  /** Rows 25 to 29 (overs remaining). */
  function Rows25To29(o: int): (r: Row)
    requires 25 <= o <= 29
    ensures r.Shaped()
  {
    match o
    case 25 => Row(55.9, 54.8, 52.9, 50.2, 46.5, 41.3, 34.2, 25.4, 15.9, 6.0, 0.0)
    case 26 => Row(57.4, 56.3, 54.3, 51.5, 47.7, 42.4, 35.1, 26.1, 16.3, 6.1, 0.0)
    case 27 => Row(58.9, 57.7, 55.7, 52.9, 48.9, 43.5, 36.0, 26.7, 16.8, 6.3, 0.0)
    case 28 => Row(60.3, 59.1, 57.0, 54.1, 50.1, 44.6, 36.9, 27.4, 17.2, 6.4, 0.0)
    case _ => Row(61.7, 60.4, 58.3, 55.4, 51.3, 45.6, 37.7, 28.0, 17.6, 6.6, 0.0)  // 29
  }

  /** Rows 30 to 34 (overs remaining). */
  function Rows30To34(o: int): (r: Row)
    requires 30 <= o <= 34
    ensures r.Shaped()
  {
    match o
    case 30 => Row(63.0, 61.7, 59.6, 56.6, 52.4, 46.6, 38.6, 28.6, 18.0, 6.7, 0.0)
    case 31 => Row(64.3, 63.0, 60.8, 57.7, 53.5, 47.6, 39.4, 29.2, 18.3, 6.9, 0.0)
    case 32 => Row(65.6, 64.2, 62.0, 58.9, 54.6, 48.5, 40.2, 29.8, 18.7, 7.0, 0.0)
    case 33 => Row(66.8, 65.5, 63.2, 60.0, 55.6, 49.4, 40.9, 30.4, 19.1, 7.1, 0.0)
    case _ => Row(68.0, 66.7, 64.3, 61.1, 56.6, 50.3, 41.7, 30.9, 19.4, 7.3, 0.0)  // 34
  }

  /** Rows 35 to 39 (overs remaining). */
  function Rows35To39(o: int): (r: Row)
    requires 35 <= o <= 39
    ensures r.Shaped()
  {
    match o
    case 35 => Row(69.2, 67.8, 65.4, 62.1, 57.6, 51.2, 42.4, 31.5, 19.8, 7.4, 0.0)
    case 36 => Row(70.3, 68.9, 66.5, 63.2, 58.5, 52.0, 43.1, 32.0, 20.1, 7.5, 0.0)
    case 37 => Row(71.4, 70.0, 67.6, 64.2, 59.4, 52.9, 43.8, 32.5, 20.4, 7.6, 0.0)
    case 38 => Row(72.5, 71.1, 68.6, 65.1, 60.3, 53.7, 44.4, 33.0, 20.7, 7.8, 0.0)
    case _ => Row(73.6, 72.1, 69.6, 66.1, 61.2, 54.5, 45.1, 33.5, 21.0, 7.9, 0.0)  // 39
  }

  /** Rows 40 to 44 (overs remaining). */
  function Rows40To44(o: int): (r: Row)
    requires 40 <= o <= 44
    ensures r.Shaped()
  {
    match o
    case 40 => Row(74.6, 73.1, 70.6, 67.0, 62.1, 55.2, 45.7, 34.0, 21.3, 8.0, 0.0)
    case 41 => Row(75.6, 74.1, 71.5, 67.9, 62.9, 56.0, 46.3, 34.4, 21.6, 8.1, 0.0)
    case 42 => Row(76.6, 75.1, 72.4, 68.8, 63.7, 56.7, 46.9, 34.9, 21.9, 8.2, 0.0)
    case 43 => Row(77.6, 76.0, 73.3, 69.6, 64.5, 57.4, 47.5, 35.3, 22.2, 8.3, 0.0)
    case _ => Row(78.5, 76.9, 74.2, 70.5, 65.3, 58.1, 48.1, 35.7, 22.4, 8.4, 0.0)  // 44
  }

  /** Rows 45 to 49 (overs remaining). */
  function Rows45To49(o: int): (r: Row)
    requires 45 <= o <= 49
    ensures r.Shaped()
  {
    match o
    case 45 => Row(79.4, 77.8, 75.1, 71.3, 66.1, 58.8, 48.7, 36.1, 22.7, 8.5, 0.0)
    case 46 => Row(80.3, 78.7, 75.9, 72.1, 66.8, 59.4, 49.2, 36.6, 22.9, 8.6, 0.0)
    case 47 => Row(81.2, 79.5, 76.7, 72.9, 67.5, 60.1, 49.7, 36.9, 23.2, 8.7, 0.0)
    case 48 => Row(82.0, 80.3, 77.5, 73.6, 68.2, 60.7, 50.3, 37.3, 23.4, 8.8, 0.0)
    case _ => Row(82.8, 81.1, 78.3, 74.4, 68.9, 61.3, 50.8, 37.7, 23.7, 8.9, 0.0)  // 49
  }

  /** Row 50: a full fifty-over innings still to bat. */
  const Row50: Row := Row(83.8, 82.0, 79.2, 75.2, 69.7, 62.0, 51.3, 38.1, 23.9, 9.0, 0.0)

  /** The row for `o` overs remaining, found by stepping through the table
      five rows at a time from row `lo`. Being recursive, it is unfolded one
      step at a time, which keeps proofs about an unknown row cheap. */
  function RowFrom(lo: int, o: int): (r: Row)
    requires 0 <= lo <= o <= 50 && lo % 5 == 0
    ensures r.Shaped()
    decreases o - lo
  {
    if o >= lo + 5 then RowFrom(lo + 5, o)
    else if lo == 50 then Row50
    else
      match lo
      case 0 => Rows0To4(o)
      case 5 => Rows5To9(o)
      case 10 => Rows10To14(o)
      case 15 => Rows15To19(o)
      case 20 => Rows20To24(o)
      case 25 => Rows25To29(o)
      case 30 => Rows30To34(o)
      case 35 => Rows35To39(o)
      case 40 => Rows40To44(o)
      case _ => Rows45To49(o)
  }

  /** RESOURCE_TABLE[o]: the row for `o` whole overs remaining. */
  function TableRow(o: int): (r: Row)
    requires 0 <= o <= 50
    ensures r.Shaped()
  {
    RowFrom(0, o)
  }

  /** RESOURCE_TABLE[o][w]. */
  function Entry(o: int, w: int): real
    requires 0 <= o <= 50 && 0 <= w <= 10
  {
    TableRow(o).At(w)
  }

  lemma ColumnStepFrom0(o: int)
    requires 0 <= o <= 4
    ensures TableRow(o).Below(TableRow(o + 1))
  {
    match o
    case 0 => assert TableRow(0).Below(TableRow(1));
    case 1 => assert TableRow(1).Below(TableRow(2));
    case 2 => assert TableRow(2).Below(TableRow(3));
    case 3 => assert TableRow(3).Below(TableRow(4));
    case _ => assert TableRow(4).Below(TableRow(5));
  }

  lemma ColumnStepFrom5(o: int)
    requires 5 <= o <= 9
    ensures TableRow(o).Below(TableRow(o + 1))
  {
    match o
    case 5 => assert TableRow(5).Below(TableRow(6));
    case 6 => assert TableRow(6).Below(TableRow(7));
    case 7 => assert TableRow(7).Below(TableRow(8));
    case 8 => assert TableRow(8).Below(TableRow(9));
    case _ => assert TableRow(9).Below(TableRow(10));
  }

  lemma ColumnStepFrom10(o: int)
    requires 10 <= o <= 14
    ensures TableRow(o).Below(TableRow(o + 1))
  {
    match o
    case 10 => assert TableRow(10).Below(TableRow(11));
    case 11 => assert TableRow(11).Below(TableRow(12));
    case 12 => assert TableRow(12).Below(TableRow(13));
    case 13 => assert TableRow(13).Below(TableRow(14));
    case _ => assert TableRow(14).Below(TableRow(15));
  }

  lemma ColumnStepFrom15(o: int)
    requires 15 <= o <= 19
    ensures TableRow(o).Below(TableRow(o + 1))
  {
    match o
    case 15 => assert TableRow(15).Below(TableRow(16));
    case 16 => assert TableRow(16).Below(TableRow(17));
    case 17 => assert TableRow(17).Below(TableRow(18));
    case 18 => assert TableRow(18).Below(TableRow(19));
    case _ => assert TableRow(19).Below(TableRow(20));
  }

  lemma ColumnStepFrom20(o: int)
    requires 20 <= o <= 24
    ensures TableRow(o).Below(TableRow(o + 1))
  {
    match o
    case 20 => assert TableRow(20).Below(TableRow(21));
    case 21 => assert TableRow(21).Below(TableRow(22));
    case 22 => assert TableRow(22).Below(TableRow(23));
    case 23 => assert TableRow(23).Below(TableRow(24));
    case _ => assert TableRow(24).Below(TableRow(25));
  }

  lemma ColumnStepFrom25(o: int)
    requires 25 <= o <= 29
    ensures TableRow(o).Below(TableRow(o + 1))
  {
    match o
    case 25 => assert TableRow(25).Below(TableRow(26));
    case 26 => assert TableRow(26).Below(TableRow(27));
    case 27 => assert TableRow(27).Below(TableRow(28));
    case 28 => assert TableRow(28).Below(TableRow(29));
    case _ => assert TableRow(29).Below(TableRow(30));
  }

  lemma ColumnStepFrom30(o: int)
    requires 30 <= o <= 34
    ensures TableRow(o).Below(TableRow(o + 1))
  {
    match o
    case 30 => assert TableRow(30).Below(TableRow(31));
    case 31 => assert TableRow(31).Below(TableRow(32));
    case 32 => assert TableRow(32).Below(TableRow(33));
    case 33 => assert TableRow(33).Below(TableRow(34));
    case _ => assert TableRow(34).Below(TableRow(35));
  }

  lemma ColumnStepFrom35(o: int)
    requires 35 <= o <= 39
    ensures TableRow(o).Below(TableRow(o + 1))
  {
    match o
    case 35 => assert TableRow(35).Below(TableRow(36));
    case 36 => assert TableRow(36).Below(TableRow(37));
    case 37 => assert TableRow(37).Below(TableRow(38));
    case 38 => assert TableRow(38).Below(TableRow(39));
    case _ => assert TableRow(39).Below(TableRow(40));
  }

  lemma ColumnStepFrom40(o: int)
    requires 40 <= o <= 44
    ensures TableRow(o).Below(TableRow(o + 1))
  {
    match o
    case 40 => assert TableRow(40).Below(TableRow(41));
    case 41 => assert TableRow(41).Below(TableRow(42));
    case 42 => assert TableRow(42).Below(TableRow(43));
    case 43 => assert TableRow(43).Below(TableRow(44));
    case _ => assert TableRow(44).Below(TableRow(45));
  }

  lemma ColumnStepFrom45(o: int)
    requires 45 <= o <= 49
    ensures TableRow(o).Below(TableRow(o + 1))
  {
    match o
    case 45 => assert TableRow(45).Below(TableRow(46));
    case 46 => assert TableRow(46).Below(TableRow(47));
    case 47 => assert TableRow(47).Below(TableRow(48));
    case 48 => assert TableRow(48).Below(TableRow(49));
    case _ => assert TableRow(49).Below(TableRow(50));
  }

  /** One more over remaining never gives less resource, column by column. */
  lemma ColumnStep(o: int)
    requires 0 <= o < 50
    ensures TableRow(o).Below(TableRow(o + 1))
  {
    if o <= 4 { ColumnStepFrom0(o); }
    else if o <= 9 { ColumnStepFrom5(o); }
    else if o <= 14 { ColumnStepFrom10(o); }
    else if o <= 19 { ColumnStepFrom15(o); }
    else if o <= 24 { ColumnStepFrom20(o); }
    else if o <= 29 { ColumnStepFrom25(o); }
    else if o <= 34 { ColumnStepFrom30(o); }
    else if o <= 39 { ColumnStepFrom35(o); }
    else if o <= 44 { ColumnStepFrom40(o); }
    else { ColumnStepFrom45(o); }
  }

  /** Losing one more wicket never adds resource. */
  lemma EntryWicketStep(o: int, w: int)
    requires 0 <= o <= 50 && 0 <= w < 10
    ensures Entry(o, w + 1) <= Entry(o, w)
  {
    var r := TableRow(o);
    match w
    case 0 => case 1 => case 2 => case 3 => case 4 => case 5 => case 6 => case 7 => case 8 =>
    case _ =>
  }

  /** One more over remaining never removes resource. */
  lemma EntryOverStep(o: int, w: int)
    requires 0 <= o < 50 && 0 <= w <= 10
    ensures Entry(o, w) <= Entry(o + 1, w)
  {
    ColumnStep(o);
    var r, s := TableRow(o), TableRow(o + 1);
    match w
    case 0 => case 1 => case 2 => case 3 => case 4 => case 5 => case 6 => case 7 => case 8 => case 9 =>
    case _ =>
  }

  /** Down each column the table is non-decreasing: more overs remaining,
      at least as much resource. */
  lemma {:induction false} ColumnMonotone(o1: int, o2: int, w: int)
    requires 0 <= o1 <= o2 <= 50 && 0 <= w <= 10
    ensures Entry(o1, w) <= Entry(o2, w)
    decreases o2 - o1
  {
    if o1 < o2 {
      EntryOverStep(o1, w);
      ColumnMonotone(o1 + 1, o2, w);
    }
  }

  /** Along each row the table is non-increasing: more wickets lost, at
      most as much resource. */
  lemma {:induction false} RowMonotone(o: int, w1: int, w2: int)
    requires 0 <= o <= 50 && 0 <= w1 <= w2 <= 10
    ensures Entry(o, w2) <= Entry(o, w1)
    decreases w2 - w1
  {
    if w1 < w2 {
      EntryWicketStep(o, w1);
      RowMonotone(o, w1 + 1, w2);
    }
  }

  /** Row 0 (no overs remaining) is all zeros. */
  lemma NoOversRow(w: int)
    requires 0 <= w <= 10
    ensures Entry(0, w) == 0.0
  {
    var r := TableRow(0);
    assert r == Row(0.0, 0.0, 0.0, 0.0, 0.0, 0.0, 0.0, 0.0, 0.0, 0.0, 0.0);
  }

  /** Column 10 (all out) is all zeros. */
  lemma AllOutColumn(o: int)
    requires 0 <= o <= 50
    ensures Entry(o, 10) == 0.0
  {
  }

  /** The full-resources entry: 50 overs remaining, no wicket lost. */
  const FullResource: real := 83.8

  /** Every entry lies between 0 and the full-resources entry R[50][0]. */
  lemma EntryBounds(o: int, w: int)
    requires 0 <= o <= 50 && 0 <= w <= 10
    ensures 0.0 <= Entry(o, w) <= FullResource == Entry(50, 0)
  {
    RowMonotone(o, w, 10);
    AllOutColumn(o);
    RowMonotone(o, 0, w);
    ColumnMonotone(o, 50, 0);
  }

  /** With at least one over remaining and no wicket lost there is resource
      left (R[1][0] = 3.2). */
  lemma FreshBatsmenHaveResource(o: int)
    requires 1 <= o <= 50
    ensures Entry(o, 0) >= 3.2
  {
    ColumnMonotone(1, o, 0);
  }
}
