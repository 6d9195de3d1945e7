/**
 * The drawing loops of the Piper diagram (piper/js/piper.js): the reduce and
 * filter passes of plotConcentrations, the per-group colour, the loop over
 * groups and their records, and the legend.
 *
 * Each loop is a method whose postcondition ties its result to the
 * specification function of the Piper module that it computes; the
 * properties of the drawing are lemmas about those functions.
 */
module PiperDrawing {
  import opened Wrappers
  import opened Ions
  import opened Piper
  import opened Geometry

  // ---------------------------------------------------------------------
  // The passes of plotConcentrations

  /** `ions.reduce((a, sym) => { a[sym] = IonFactory.get(sym); return a; }, {})` */
  method BuildIonObjects(syms: seq<string>) returns (objs: map<string, Ion>)
    requires forall i :: 0 <= i < |syms| ==> Get(syms[i]).Some?
    ensures objs == IonObjectsOf(syms)
  {
    objs := map[];
    var i := 0;
    while i < |syms|
      invariant 0 <= i <= |syms|
      invariant objs == IonObjectsPrefix(syms, i)
    {
      var sym := syms[i];
      objs := objs[sym := Get(sym).value];
      i := i + 1;
    }
  }

  /** `ions.filter(sym => ionObj[sym].getValence() > 0)`, or `< 0` when `positive` is false. */
  method FilterBySign(syms: seq<string>, objs: map<string, Ion>, positive: bool) returns (sel: seq<string>)
    requires forall i :: 0 <= i < |syms| ==> syms[i] in objs
    ensures sel == SelectBySign(syms, objs, positive)
  {
    sel := [];
    var i := 0;
    while i < |syms|
      invariant 0 <= i <= |syms|
      invariant sel == SelectPrefix(syms, objs, positive, i)
    {
      var v := objs[syms[i]].valence;
      if (positive && v > 0) || (!positive && v < 0) {
        sel := sel + [syms[i]];
      }
      i := i + 1;
    }
  }

  /** `ions.reduce((a, sym) => { a[sym] = ionObj[sym].getMeqL(conc[sym]); return a; }, {})` */
  method BuildEquivalents(syms: seq<string>, objs: map<string, Ion>, conc: Conc) returns (meq: map<string, real>)
    requires PositiveWeights(objs) && forall s :: s in syms ==> s in objs && s in conc
    ensures meq == EquivalentsOf(syms, objs, conc)
  {
    meq := map[];
    var i := 0;
    while i < |syms|
      invariant 0 <= i <= |syms|
      invariant meq == EquivalentsPrefix(syms, objs, conc, i)
    {
      var sym := syms[i];
      meq := meq[sym := MeqL(objs[sym], conc[sym])];
      i := i + 1;
    }
  }

  /** `cations.reduce((a, sym) => a + meqL[sym], 0)`, and the same for the anions. */
  method SideTotal(syms: seq<string>, meq: map<string, real>) returns (total: real)
    requires Keyed(syms, meq)
    ensures total == SumOver(syms, meq)
  {
    total := 0.0;
    var i := 0;
    while i < |syms|
      invariant 0 <= i <= |syms|
      invariant total == SumPrefix(syms, meq, i)
    {
      total := total + meq[syms[i]];
      i := i + 1;
    }
  }

  /** `syms.reduce((a, sym) => { a[sym] = meqL[sym] / total; return a; }, proportion)` */
  method NormaliseLoop(acc: map<string, real>, syms: seq<string>, meq: map<string, real>, total: real)
    returns (p: map<string, real>)
    requires total != 0.0 && Keyed(syms, meq)
    ensures p == NormaliseInto(acc, syms, meq, total)
  {
    p := acc;
    var i := 0;
    while i < |syms|
      invariant 0 <= i <= |syms|
      invariant p == NormalisePrefix(acc, syms, meq, total, i)
    {
      p := p[syms[i] := meq[syms[i]] / total];
      i := i + 1;
    }
  }

  /**
   * plotConcentrations: the three data points of one sample, in the order
   * they are appended (cation triangle, anion triangle, diamond).
   */
  method PlotConcentrations(conc: Conc, hue: nat, r: real) returns (pts: seq<DataPoint>)
    requires IsRootThree(r) && SamplePlottable(conc)
    ensures pts == RecordPoints(IonOrder, IonObjects(), conc, hue, r)
  {
    var ions := IonOrder;
    IonOrderKnown();
    var ionObj := BuildIonObjects(ions);
    assert ionObj == IonObjects();
    var cations := FilterBySign(ions, ionObj, true);
    var anions := FilterBySign(ions, ionObj, false);
    var meqL := BuildEquivalents(ions, ionObj, conc);
    var cationTotal := SideTotal(cations, meqL);
    var anionTotal := SideTotal(anions, meqL);
    var proportion := NormaliseLoop(map[], cations, meqL, cationTotal);
    proportion := NormaliseLoop(proportion, anions, meqL, anionTotal);
    assert proportion == ProportionsOf(ions, ionObj, meqL);
    pts := [DataPoint(CationPoint(proportion["Ca"], proportion["Mg"], r), hue),
            DataPoint(AnionPoint(proportion["Cl"], proportion["SO4"], r), hue),
            DataPoint(DiamondPoint(proportion["Ca"], proportion["Mg"], proportion["Cl"], r), hue)];
  }

  // ---------------------------------------------------------------------
  // Group colours

  /** getGroupColor: the hue of `hsl((54 * i) % 360, 100%, 45%)`; the post-increment does not affect it. */
  function GroupHue(i: nat): (h: nat)
    ensures h < 360
  {
    (54 * i) % 360
  }

  /** `a % 360` is the remainder of any division of `a` by 360. */
  lemma RemainderOf(a: int, q: int, h: int)
    requires 0 <= h < 360 && a == 360 * q + h
    ensures a % 360 == h
  {
  }

  /** The hues are the multiples of 18 below 360, in the order of `3 * i` modulo 20. */
  lemma GroupHueSteps(i: nat)
    ensures GroupHue(i) == 18 * ((3 * i) % 20)
  {
    var q := (3 * i) / 20;
    var m := (3 * i) % 20;
    assert 3 * i == 20 * q + m;
    RemainderOf(54 * i, q, 18 * m);
  }

  /** The colours repeat after twenty groups. */
  lemma GroupHuePeriod(i: nat)
    ensures GroupHue(i + 20) == GroupHue(i)
  {
    RemainderOf(54 * (i + 20), 54 * i / 360 + 3, GroupHue(i));
  }

  /** The first twenty groups all get different colours. */
  lemma GroupHuesDistinct(i: nat, j: nat)
    requires i < j < 20
    ensures GroupHue(i) != GroupHue(j)
  {
    var qi, qj := 54 * i / 360, 54 * j / 360;
    assert 54 * i == 360 * qi + GroupHue(i);
    assert 54 * j == 360 * qj + GroupHue(j);
  }

  // ---------------------------------------------------------------------
  // Groups of samples

  /** A group: its name and its concentration sets. */
  datatype Group = Group(name: string, values: seq<Conc>)

  /**
   * A record plotter: the points drawn for a concentration set in a colour.
   * The loops over groups are modelled for any plotter, and instantiated
   * with plotConcentrations' points by `SamplePlotter`.
   */
  type Plotter = (Conc, nat) -> seq<DataPoint>

  /** The points of a group's records, in record order. */
  function GroupPoints(plot: Plotter, values: seq<Conc>, hue: nat): seq<DataPoint> {
    GroupPointsPrefix(plot, values, hue, |values|)
  }

  /** The points of the first `n` records. */
  function GroupPointsPrefix(plot: Plotter, values: seq<Conc>, hue: nat, n: nat): seq<DataPoint>
    requires n <= |values|
  {
    if n == 0 then [] else GroupPointsPrefix(plot, values, hue, n - 1) + plot(values[n - 1], hue)
  }

  /** The plotter draws three points, all in the requested colour, for each of these records. */
  predicate Triples(plot: Plotter, values: seq<Conc>, hue: nat) {
    forall j :: 0 <= j < |values| ==>
      |plot(values[j], hue)| == 3 && forall k :: 0 <= k < 3 ==> plot(values[j], hue)[k].hue == hue
  }

  /** Record `j` of a group owns points `3j` to `3j + 2`, and they carry the group's hue. */
  lemma GroupPointsAt(plot: Plotter, values: seq<Conc>, hue: nat, j: nat)
    requires Triples(plot, values, hue) && j < |values|
    ensures |GroupPoints(plot, values, hue)| == 3 * |values|
    ensures GroupPoints(plot, values, hue)[3 * j..3 * j + 3] == plot(values[j], hue)
  {
    GroupPointsPrefixAt(plot, values, hue, |values|, j);
  }

  lemma {:induction false} GroupPointsPrefixAt(plot: Plotter, values: seq<Conc>, hue: nat, n: nat, j: nat)
    requires Triples(plot, values, hue) && j < n <= |values|
    ensures |GroupPointsPrefix(plot, values, hue, n)| == 3 * n
    ensures GroupPointsPrefix(plot, values, hue, n)[3 * j..3 * j + 3] == plot(values[j], hue)
  {
    var prev := GroupPointsPrefix(plot, values, hue, n - 1);
    var last := plot(values[n - 1], hue);
    if j == n - 1 {
      if n > 1 {
        GroupPointsPrefixAt(plot, values, hue, n - 1, 0);
      }
      assert (prev + last)[3 * j..3 * j + 3] == last;
    } else {
      GroupPointsPrefixAt(plot, values, hue, n - 1, j);
      assert (prev + last)[3 * j..3 * j + 3] == prev[3 * j..3 * j + 3];
    }
  }

  /** Every point of a group carries the group's hue. */
  lemma GroupPointsHue(plot: Plotter, values: seq<Conc>, hue: nat)
    requires Triples(plot, values, hue)
    ensures forall k :: 0 <= k < |GroupPoints(plot, values, hue)| ==> GroupPoints(plot, values, hue)[k].hue == hue
  {
    GroupPointsPrefixHue(plot, values, hue, |values|);
  }

  lemma {:induction false} GroupPointsPrefixHue(plot: Plotter, values: seq<Conc>, hue: nat, n: nat)
    requires Triples(plot, values, hue) && n <= |values|
    ensures forall k :: 0 <= k < |GroupPointsPrefix(plot, values, hue, n)| ==> GroupPointsPrefix(plot, values, hue, n)[k].hue == hue
  {
    if n > 0 {
      GroupPointsPrefixHue(plot, values, hue, n - 1);
      var prev: seq<DataPoint> := GroupPointsPrefix(plot, values, hue, n - 1);
      var last: seq<DataPoint> := plot(values[n - 1], hue);
      forall k | 0 <= k < |prev + last|
        ensures (prev + last)[k].hue == hue
      {
        if k < |prev| {
          assert (prev + last)[k] == prev[k];
        } else {
          assert (prev + last)[k] == last[k - |prev|];
        }
      }
    }
  }

  /** The number of records in the groups before group `n`. */
  function RecordsBefore(groups: seq<Group>, n: nat): nat
    requires n <= |groups|
  {
    if n == 0 then 0 else RecordsBefore(groups, n - 1) + |groups[n - 1].values|
  }

  /** All data points of the diagram, group by group, in the order the loops append them. */
  function DiagramPoints(plot: Plotter, groups: seq<Group>): seq<DataPoint> {
    DiagramPrefix(plot, groups, |groups|)
  }

  /** The points of the first `n` groups. */
  function DiagramPrefix(plot: Plotter, groups: seq<Group>, n: nat): seq<DataPoint>
    requires n <= |groups|
  {
    if n == 0 then [] else DiagramPrefix(plot, groups, n - 1) + GroupPoints(plot, groups[n - 1].values, GroupHue(n - 1))
  }

  /** Every group's records are drawn as triples in the group's colour. */
  predicate AllTriples(plot: Plotter, groups: seq<Group>) {
    forall i :: 0 <= i < |groups| ==> Triples(plot, groups[i].values, GroupHue(i))
  }

  /** Group `i` owns one contiguous block of points. */
  lemma DiagramGroupBlock(plot: Plotter, groups: seq<Group>, i: nat)
    requires AllTriples(plot, groups) && i < |groups|
    ensures |DiagramPoints(plot, groups)| == 3 * RecordsBefore(groups, |groups|)
    ensures 3 * RecordsBefore(groups, i + 1) <= |DiagramPoints(plot, groups)|
    ensures DiagramPoints(plot, groups)[3 * RecordsBefore(groups, i)..3 * RecordsBefore(groups, i + 1)]
         == GroupPoints(plot, groups[i].values, GroupHue(i))
  {
    var all := DiagramPoints(plot, groups);
    var before, upTo := DiagramPrefix(plot, groups, i), DiagramPrefix(plot, groups, i + 1);
    DiagramPrefixLength(plot, groups, i);
    DiagramPrefixLength(plot, groups, i + 1);
    DiagramPrefixLength(plot, groups, |groups|);
    DiagramPrefixExtends(plot, groups, i + 1, |groups|);
    assert all[|before|..|upTo|] == upTo[|before|..];
  }

  /** A group of `m` records gives `3m` points. */
  lemma GroupPointsLength(plot: Plotter, values: seq<Conc>, hue: nat)
    requires Triples(plot, values, hue)
    ensures |GroupPoints(plot, values, hue)| == 3 * |values|
  {
    if |values| > 0 {
      GroupPointsAt(plot, values, hue, 0);
    }
  }

  lemma {:induction false} DiagramPrefixLength(plot: Plotter, groups: seq<Group>, n: nat)
    requires AllTriples(plot, groups) && n <= |groups|
    ensures |DiagramPrefix(plot, groups, n)| == 3 * RecordsBefore(groups, n)
  {
    if n > 0 {
      DiagramPrefixLength(plot, groups, n - 1);
      GroupPointsLength(plot, groups[n - 1].values, GroupHue(n - 1));
    }
  }

  /** The points of the first `m` groups are a prefix of the points of the first `n`. */
  lemma {:induction false} DiagramPrefixExtends(plot: Plotter, groups: seq<Group>, m: nat, n: nat)
    requires m <= n <= |groups|
    ensures |DiagramPrefix(plot, groups, m)| <= |DiagramPrefix(plot, groups, n)|
    ensures DiagramPrefix(plot, groups, n)[..|DiagramPrefix(plot, groups, m)|] == DiagramPrefix(plot, groups, m)
  {
    if m < n {
      DiagramPrefixExtends(plot, groups, m, n - 1);
      var prev := DiagramPrefix(plot, groups, n - 1);
      var k := |DiagramPrefix(plot, groups, m)|;
      assert (prev + GroupPoints(plot, groups[n - 1].values, GroupHue(n - 1)))[..k] == prev[..k];
    }
  }

  /**
   * Record `j` of group `i` is plotted exactly once, at its place: after the
   * records of the earlier groups and the earlier records of its own group,
   * in its group's colour.
   */
  lemma DiagramRecordAt(plot: Plotter, groups: seq<Group>, i: nat, j: nat)
    requires AllTriples(plot, groups) && i < |groups| && j < |groups[i].values|
    ensures 3 * (RecordsBefore(groups, i) + j) + 3 <= |DiagramPoints(plot, groups)|
    ensures DiagramPoints(plot, groups)[3 * (RecordsBefore(groups, i) + j)..3 * (RecordsBefore(groups, i) + j) + 3]
         == plot(groups[i].values[j], GroupHue(i))
  {
    var all := DiagramPoints(plot, groups);
    var lo, hi := 3 * RecordsBefore(groups, i), 3 * RecordsBefore(groups, i + 1);
    DiagramGroupBlock(plot, groups, i);
    GroupPointsAt(plot, groups[i].values, GroupHue(i), j);
    assert lo + 3 * j + 3 <= hi;
    SliceOfSlice(all, lo, hi, 3 * j, 3 * j + 3);
  }

  /** A slice of a slice is a slice of the whole sequence. */
  lemma SliceOfSlice<T>(s: seq<T>, lo: nat, hi: nat, a: nat, b: nat)
    requires lo <= hi <= |s| && a <= b <= hi - lo
    ensures s[lo..hi][a..b] == s[lo + a..lo + b]
  {
    var t := s[lo..hi];
    forall k | 0 <= k < b - a
      ensures t[a..b][k] == s[lo + a..lo + b][k]
    {
      assert t[a..b][k] == t[a + k] == s[lo + a + k];
    }
  }

  // ---------------------------------------------------------------------
  // The diagram's own plotter

  /** plotConcentrations can draw `conc`: all eight ions present, neither side's total zero. */
  predicate SamplePlottable(conc: Conc) {
    Plottable(IonOrder, IonObjects(), conc)
  }

  predicate GroupPlottable(values: seq<Conc>) {
    forall j :: 0 <= j < |values| ==> SamplePlottable(values[j])
  }

  /** Every record of every group can be plotted: all eight ions present, neither side's total zero. */
  predicate DiagramPlottable(groups: seq<Group>) {
    forall i :: 0 <= i < |groups| ==> GroupPlottable(groups[i].values)
  }

  /** plotConcentrations as a plotter (a record it cannot plot gives no points). */
  function SamplePlotter(r: real): Plotter {
    (conc: Conc, hue: nat) =>
      if IsRootThree(r) && SamplePlottable(conc)
      then RecordPoints(IonOrder, IonObjects(), conc, hue, r) else []
  }

  /** It draws three points in the group's colour for each plottable record. */
  lemma SamplePlotterTriples(groups: seq<Group>, r: real)
    requires IsRootThree(r) && DiagramPlottable(groups)
    ensures AllTriples(SamplePlotter(r), groups)
  {
    forall i | 0 <= i < |groups|
      ensures Triples(SamplePlotter(r), groups[i].values, GroupHue(i))
    {
      var values := groups[i].values;
      assert GroupPlottable(values);
      forall j | 0 <= j < |values|
        ensures SamplePlotter(r)(values[j], GroupHue(i)) == RecordPoints(IonOrder, IonObjects(), values[j], GroupHue(i), r)
      {
        assert SamplePlottable(values[j]);
      }
    }
  }

  /** In the drawn diagram, record `j` of group `i` gets plotConcentrations' points in colour `GroupHue(i)`. */
  lemma DiagramRecordPoints(groups: seq<Group>, r: real, i: nat, j: nat)
    requires IsRootThree(r) && DiagramPlottable(groups) && i < |groups| && j < |groups[i].values|
    ensures 3 * (RecordsBefore(groups, i) + j) + 3 <= |DiagramPoints(SamplePlotter(r), groups)|
    ensures DiagramPoints(SamplePlotter(r), groups)[3 * (RecordsBefore(groups, i) + j)..3 * (RecordsBefore(groups, i) + j) + 3]
         == RecordPoints(IonOrder, IonObjects(), groups[i].values[j], GroupHue(i), r)
  {
    SamplePlotterTriples(groups, r);
    DiagramRecordAt(SamplePlotter(r), groups, i, j);
    assert GroupPlottable(groups[i].values);
  }

  /** Appending plotConcentrations' points for record `j` extends the group's points by that record. */
  lemma GroupPointsStep(values: seq<Conc>, hue: nat, r: real, j: nat, pts: seq<DataPoint>)
    requires IsRootThree(r) && j < |values| && SamplePlottable(values[j])
    requires pts == RecordPoints(IonOrder, IonObjects(), values[j], hue, r)
    ensures GroupPointsPrefix(SamplePlotter(r), values, hue, j) + pts == GroupPointsPrefix(SamplePlotter(r), values, hue, j + 1)
  {
  }

  /** `group.values.forEach(conc => plotConcentrations(conc, color))` */
  method PlotGroup(values: seq<Conc>, hue: nat, r: real) returns (points: seq<DataPoint>)
    requires IsRootThree(r) && GroupPlottable(values)
    ensures points == GroupPoints(SamplePlotter(r), values, hue)
  {
    points := [];
    var j := 0;
    while j < |values|
      invariant 0 <= j <= |values|
      invariant points == GroupPointsPrefix(SamplePlotter(r), values, hue, j)
    {
      var pts := PlotConcentrations(values[j], hue, r);
      GroupPointsStep(values, hue, r, j, pts);
      points := points + pts;
      j := j + 1;
    }
  }

  /** The `groups.forEach` loop: each group's records in the group's colour. */
  method PlotGroups(groups: seq<Group>, r: real) returns (points: seq<DataPoint>)
    requires IsRootThree(r) && DiagramPlottable(groups)
    ensures points == DiagramPoints(SamplePlotter(r), groups)
  {
    points := [];
    var i := 0;
    while i < |groups|
      invariant 0 <= i <= |groups|
      invariant points == DiagramPrefix(SamplePlotter(r), groups, i)
    {
      var color := GroupHue(i);
      var pts := PlotGroup(groups[i].values, color, r);
      points := points + pts;
      i := i + 1;
    }
  }

  // ---------------------------------------------------------------------
  // Legend

  const LegendRowHeight: real := 15.0
  const LegendX: real := PiperWidth * 0.73
  const LegendY: real := 30.0
  const LegendWidth: real := PiperWidth - LegendX - LegendY

  /** One row per group plus a margin. */
  function LegendHeight(groupCount: nat): real {
    LegendRowHeight * groupCount as real + 7.0
  }

  datatype Rect = Rect(x: real, y: real, width: real, height: real)

  /** A legend row: a marker circle in the group's colour and the position of the group's name. */
  datatype LegendRow = LegendRow(marker: DataPoint, labelAt: Point, name: string)

  function LegendRowOf(i: nat, name: string): LegendRow {
    LegendRow(DataPoint(Point(LegendX + 14.0, LegendY + LegendRowHeight * (i as real + 0.5) + 4.0), GroupHue(i)),
              Point(LegendX + 25.0, LegendY + LegendRowHeight * (i as real + 1.0)),
              name)
  }

  /**
   * A row's marker circle lies inside the border, and its label starts to
   * the right of the marker on a baseline inside the border.
   */
  predicate RowInside(row: LegendRow, b: Rect) {
    && b.x <= row.marker.at.x - PointRadius && row.marker.at.x + PointRadius <= b.x + b.width
    && b.y <= row.marker.at.y - PointRadius && row.marker.at.y + PointRadius <= b.y + b.height
    && row.marker.at.x + PointRadius < row.labelAt.x && row.labelAt.y <= b.y + b.height
  }

  /**
   * createLegend: the border, then a marker and a label per group. Every row
   * fits inside the border, and the marker circles of different rows do not
   * overlap.
   */
  method CreateLegend(groups: seq<Group>) returns (border: Rect, rows: seq<LegendRow>)
    ensures border == Rect(LegendX, LegendY, LegendWidth, LegendHeight(|groups|))
    ensures |rows| == |groups|
    ensures forall i :: 0 <= i < |rows| ==> rows[i] == LegendRowOf(i, groups[i].name)
    ensures forall i :: 0 <= i < |rows| ==> RowInside(rows[i], border)
    ensures forall i, j :: 0 <= i < j < |rows| ==> rows[j].marker.at.y - rows[i].marker.at.y > 2.0 * PointRadius
  {
    border := Rect(LegendX, LegendY, LegendWidth, LegendHeight(|groups|));
    rows := [];
    var i := 0;
    while i < |groups|
      invariant 0 <= i <= |groups| && |rows| == i
      invariant forall k :: 0 <= k < i ==> rows[k] == LegendRowOf(k, groups[k].name)
    {
      var marker := DataPoint(Point(LegendX + 14.0, LegendY + LegendRowHeight * (i as real + 0.5) + 4.0), GroupHue(i));
      var labelAt := Point(LegendX + 25.0, LegendY + LegendRowHeight * (i as real + 1.0));
      rows := rows + [LegendRow(marker, labelAt, groups[i].name)];
      i := i + 1;
    }
    forall i | 0 <= i < |rows|
      ensures RowInside(rows[i], border)
    {
      LegendRowInside(|groups|, i, groups[i].name);
    }
    forall i, j | 0 <= i < j < |rows|
      ensures rows[j].marker.at.y - rows[i].marker.at.y > 2.0 * PointRadius
    {
      LegendMarkersApart(i, j, groups[i].name, groups[j].name);
    }
  }

  /** With `n` groups, row `i` fits inside the legend border. */
  lemma LegendRowInside(n: nat, i: nat, name: string)
    requires i < n
    ensures RowInside(LegendRowOf(i, name), Rect(LegendX, LegendY, LegendWidth, LegendHeight(n)))
  {
    assert i as real + 1.0 <= n as real;
  }

  /** Markers of different rows are at least a row height apart, so they never overlap. */
  lemma LegendMarkersApart(i: nat, j: nat, a: string, b: string)
    requires i < j
    ensures LegendRowOf(j, b).marker.at.y - LegendRowOf(i, a).marker.at.y >= LegendRowHeight > 2.0 * PointRadius
  {
    assert j as real - i as real >= 1.0;
  }

  /** Every data point of group `i` has the colour of legend row `i`. */
  lemma LegendMatchesGroup(plot: Plotter, groups: seq<Group>, i: nat, k: nat)
    requires AllTriples(plot, groups) && i < |groups|
    requires 3 * RecordsBefore(groups, i) <= k < 3 * RecordsBefore(groups, i + 1)
    ensures k < |DiagramPoints(plot, groups)|
    ensures DiagramPoints(plot, groups)[k].hue == LegendRowOf(i, groups[i].name).marker.hue
  {
    var all := DiagramPoints(plot, groups);
    var lo, hi := 3 * RecordsBefore(groups, i), 3 * RecordsBefore(groups, i + 1);
    DiagramGroupBlock(plot, groups, i);
    GroupPointsHue(plot, groups[i].values, GroupHue(i));
    assert all[k] == all[lo..hi][k - lo];
  }

  /**
   * The diagram's drawing: the grid lines of one triangle, the data points
   * of every record of every group, and the legend.
   */
  method PiperDiagram(groups: seq<Group>, r: real)
    returns (grid: seq<Segment>, points: seq<DataPoint>, border: Rect, legend: seq<LegendRow>)
    requires IsRootThree(r) && DiagramPlottable(groups)
    ensures |grid| == NumGridIntervals + 1 && forall i :: 0 <= i < |grid| ==> grid[i] == GridLine(i, r)
    ensures points == DiagramPoints(SamplePlotter(r), groups)
    ensures border == Rect(LegendX, LegendY, LegendWidth, LegendHeight(|groups|))
    ensures |legend| == |groups| && forall i :: 0 <= i < |legend| ==> legend[i] == LegendRowOf(i, groups[i].name)
  {
    grid := TriangleGridRight(r);
    points := PlotGroups(groups, r);
    border, legend := CreateLegend(groups);
  }
}
