/**
 * What the Stiff diagram draws (stiff/js/stiff.js): the ticks of the
 * horizontal milliequivalent axis, the point labels and the polygon, as
 * values returned instead of SVG elements appended to the document.
 */
module StiffDrawing {
  import opened Wrappers
  import opened Ions
  import opened Stiff
  import opened Geometry

  // Tick constants of the horizontal axis.
  const HorzAxisMajorTicks: int := 2
  const HorzAxisMinorTicks: int := 10
  const HorzAxisMajorTickLength: real := 15.0
  const HorzAxisMinorTickLength: real := 10.0
  const HorzAxisTickLabelOffsetY: real := 25.0

  // ---------------------------------------------------------------------------
  // Axis ticks
  // ---------------------------------------------------------------------------

  /** The value printed under a major tick, at its position. */
  datatype TickLabel = TickLabel(at: Point, value: real)

  /** A tick: a vertical stroke at x from startY to endY, with a label if it is major. */
  datatype Tick = Tick(x: real, startY: real, endY: real, caption: Option<TickLabel>)

  /**
   * Tick i is major when `i % (10 / 2)` is zero. JavaScript's remainder takes
   * the sign of i and Dafny's is never negative, but either is zero exactly
   * when 5 divides i.
   */
  predicate IsMajor(i: int) {
    i % (HorzAxisMinorTicks / HorzAxisMajorTicks) == 0
  }

  /** The tick the loop draws for i: its stroke, and for a major tick its label. */
  function TickAt(i: int, maxMeqL: real): Tick {
    var major := IsMajor(i);
    var x := VertAxisX + (i as real / HorzAxisMinorTicks as real) * HorzAxisWidth;
    var value := (Abs(i) as real / HorzAxisMinorTicks as real) * maxMeqL;
    Tick(x,
         HorzAxisY + (if major then HorzAxisMajorTickLength else 0.0),
         HorzAxisY - (if major then HorzAxisMajorTickLength else HorzAxisMinorTickLength),
         if major then Some(TickLabel(Point(x, HorzAxisY - HorzAxisTickLabelOffsetY), value)) else None)
  }

  /** The first n ticks the loop draws, from i = -10 upwards. */
  function TicksPrefix(n: nat, maxMeqL: real): (ticks: seq<Tick>)
    ensures |ticks| == n
  {
    if n == 0 then [] else TicksPrefix(n - 1, maxMeqL) + [TickAt(n - 1 - HorzAxisMinorTicks, maxMeqL)]
  }

  /** All the ticks of the axis, i = -10 to 10. */
  function AxisTicks(maxMeqL: real): seq<Tick> {
    TicksPrefix(2 * HorzAxisMinorTicks + 1, maxMeqL)
  }

  /** createHorzAxisTicks: the counted loop over i = -10 .. 10. */
  method CreateHorzAxisTicks(maxMeqL: real) returns (ticks: seq<Tick>)
    ensures ticks == AxisTicks(maxMeqL)
  {
    ticks := [];
    var i := -HorzAxisMinorTicks;
    while i <= HorzAxisMinorTicks
      invariant -HorzAxisMinorTicks <= i <= HorzAxisMinorTicks + 1
      invariant ticks == TicksPrefix(i + HorzAxisMinorTicks, maxMeqL)
    {
      var tickIsMajor := i % (HorzAxisMinorTicks / HorzAxisMajorTicks) == 0;
      var tickMeqL := (Abs(i) as real / HorzAxisMinorTicks as real) * maxMeqL;
      var tickX := VertAxisX + (i as real / HorzAxisMinorTicks as real) * HorzAxisWidth;
      var caption := if tickIsMajor then Some(TickLabel(Point(tickX, HorzAxisY - HorzAxisTickLabelOffsetY), tickMeqL)) else None;
      var tick := Tick(tickX,
                       HorzAxisY + (if tickIsMajor then HorzAxisMajorTickLength else 0.0),
                       HorzAxisY - (if tickIsMajor then HorzAxisMajorTickLength else HorzAxisMinorTickLength),
                       caption);
      assert tick == TickAt(i, maxMeqL);
      assert TicksPrefix(i + HorzAxisMinorTicks + 1, maxMeqL) == ticks + [tick];
      ticks := ticks + [tick];
      i := i + 1;
    }
  }

  /** There are 21 ticks, and tick k is the one drawn for i = k - 10. */
  lemma AxisTicksAt(maxMeqL: real)
    ensures |AxisTicks(maxMeqL)| == 21
    ensures forall k :: 0 <= k < 21 ==> AxisTicks(maxMeqL)[k] == TickAt(k - 10, maxMeqL)
  {
    TicksPrefixAt(21, maxMeqL);
  }

  lemma {:induction false} TicksPrefixAt(n: nat, maxMeqL: real)
    ensures forall k :: 0 <= k < n ==> TicksPrefix(n, maxMeqL)[k] == TickAt(k - 10, maxMeqL)
  {
    if n > 0 {
      TicksPrefixAt(n - 1, maxMeqL);
    }
  }

  /** The number of ticks that carry a label. */
  function CountLabelled(ticks: seq<Tick>): nat {
    CountLabelledPrefix(ticks, |ticks|)
  }

  function CountLabelledPrefix(ticks: seq<Tick>, n: nat): nat
    requires n <= |ticks|
  {
    if n == 0 then 0
    else CountLabelledPrefix(ticks, n - 1) + (if ticks[n - 1].caption.Some? then 1 else 0)
  }

  /** Tick k is major exactly when 5 divides k, and 5 of the 21 ticks are major: at 0, 5, 10, 15 and 20. */
  lemma MajorTicks(maxMeqL: real)
    ensures forall k :: 0 <= k < 21 ==> (AxisTicks(maxMeqL)[k].caption.Some? <==> k % 5 == 0)
    ensures CountLabelled(AxisTicks(maxMeqL)) == 5
  {
    var ticks := AxisTicks(maxMeqL);
    AxisTicksAt(maxMeqL);
    forall k | 0 <= k < 21
      ensures ticks[k].caption.Some? <==> k % 5 == 0
    {
      assert (k - 10) % 5 == k % 5;
    }
    MajorCountPrefix(ticks, 21);
  }

  lemma {:induction false} MajorCountPrefix(ticks: seq<Tick>, n: nat)
    requires n <= |ticks| == 21
    requires forall k :: 0 <= k < 21 ==> (ticks[k].caption.Some? <==> k % 5 == 0)
    ensures CountLabelledPrefix(ticks, n) == (n + 4) / 5
  {
    if n > 0 {
      MajorCountPrefix(ticks, n - 1);
    }
  }

  /**
   * The axis is symmetrical: ticks i and -i lie mirrored about the vertical
   * axis, are both major or both minor, and a major pair prints the same value.
   */
  lemma TicksSymmetric(i: int, maxMeqL: real)
    ensures TickAt(-i, maxMeqL).x == 2.0 * VertAxisX - TickAt(i, maxMeqL).x
    ensures TickAt(-i, maxMeqL).caption.Some? <==> TickAt(i, maxMeqL).caption.Some?
    ensures TickAt(i, maxMeqL).caption.Some? ==>
      TickAt(-i, maxMeqL).caption.value.value == TickAt(i, maxMeqL).caption.value.value
  {
    assert (-i) % 5 == 0 <==> i % 5 == 0;
  }

  /** Tick positions increase with i. */
  lemma TicksIncrease(i: int, j: int, maxMeqL: real)
    requires i < j
    ensures TickAt(i, maxMeqL).x < TickAt(j, maxMeqL).x
  {
    assert i as real / 10.0 < j as real / 10.0;
  }

  /**
   * The axis runs from x = 125 at i = -10 to x = 475 at i = 10, and both ends
   * print the scale; the middle tick, on the vertical axis, prints 0.
   */
  lemma AxisEnds(maxMeqL: real)
    ensures TickAt(-10, maxMeqL).caption == Some(TickLabel(Point(125.0, 95.0), maxMeqL))
    ensures TickAt(10, maxMeqL).caption == Some(TickLabel(Point(475.0, 95.0), maxMeqL))
    ensures TickAt(0, maxMeqL).caption == Some(TickLabel(Point(VertAxisX, 95.0), 0.0))
  {
    assert VertAxisX == 300.0 && HorzAxisY - HorzAxisTickLabelOffsetY == 95.0;
    assert IsMajor(-10) && IsMajor(10) && IsMajor(0);
    assert Abs(-10) == 10 && Abs(10) == 10 && Abs(0) == 0;
    var lo, hi := TickAt(-10, maxMeqL), TickAt(10, maxMeqL);
    assert lo.x == 300.0 + (-1.0) * 175.0;
    assert lo.caption.value.value == 1.0 * maxMeqL;
    assert hi.x == 300.0 + 1.0 * 175.0;
    assert hi.caption.value.value == 1.0 * maxMeqL;
  }

  /**
   * The axis reads true: a group whose meqL is the value printed at tick i
   * (0 <= i <= 10) is plotted at that tick's x on the anion side and at tick
   * -i's x on the cation side.
   */
  lemma TickMarksPoint(i: int, g: IonGroup, row: nat, maxMeqL: real, rows: nat)
    requires 0 <= i <= 10 && Spread(maxMeqL, rows)
    requires g.meqL == (i as real / 10.0) * maxMeqL
    ensures PointAt(AnionSide, g, row, maxMeqL, rows).x == TickAt(i, maxMeqL).x
    ensures PointAt(CationSide, g, row, maxMeqL, rows).x == TickAt(-i, maxMeqL).x
  {
    var f := i as real / 10.0;
    assert g.meqL / maxMeqL == f;
  }

  // ---------------------------------------------------------------------------
  // Point labels
  // ---------------------------------------------------------------------------

  /** The `text-anchor` of a label: `end` on the cation side, `start` on the anion side. */
  datatype Anchor = Start | End

  /** A label's position, anchor and text. */
  datatype PointLabel = PointLabel(at: Point, anchor: Anchor, text: string)

  /** `ions.map(ion => ion.getSymbol())`. */
  function SymbolsOf(ions: seq<Ion>): (syms: seq<string>)
    ensures |syms| == |ions|
  {
    SymbolsPrefix(ions, |ions|)
  }

  function SymbolsPrefix(ions: seq<Ion>, n: nat): (syms: seq<string>)
    requires n <= |ions|
    ensures |syms| == n
  {
    if n == 0 then [] else SymbolsPrefix(ions, n - 1) + [ions[n - 1].symbol]
  }

  /** Array.prototype.join: the parts with `sep` between neighbours. */
  function Join(parts: seq<string>, sep: string): string {
    JoinPrefix(parts, sep, |parts|)
  }

  function JoinPrefix(parts: seq<string>, sep: string, n: nat): string
    requires n <= |parts|
  {
    if n == 0 then ""
    else if n == 1 then parts[0]
    else JoinPrefix(parts, sep, n - 1) + sep + parts[n - 1]
  }

  /** The total length of the parts. */
  function TotalLength(parts: seq<string>, n: nat): nat
    requires n <= |parts|
  {
    if n == 0 then 0 else TotalLength(parts, n - 1) + |parts[n - 1]|
  }

  /**
   * The joined text starts with the first part, ends with the last, and is
   * as long as the parts plus one separator between each neighbouring pair.
   */
  lemma JoinShape(parts: seq<string>, sep: string)
    requires |parts| > 0
    ensures |Join(parts, sep)| == TotalLength(parts, |parts|) + |sep| * (|parts| - 1)
    ensures parts[0] <= Join(parts, sep)
    ensures Join(parts, sep)[|Join(parts, sep)| - |parts[|parts| - 1]|..] == parts[|parts| - 1]
  {
    JoinPrefixShape(parts, sep, |parts|);
  }

  /**
   * Join is the empty text on no parts and the part itself on one, and adding
   * a part appends the separator and that part: its defining equations.
   */
  lemma JoinAppend(parts: seq<string>, q: string, sep: string)
    ensures Join([], sep) == "" && Join([q], sep) == q
    ensures |parts| > 0 ==> Join(parts + [q], sep) == Join(parts, sep) + sep + q
  {
    JoinPrefixAgree(parts, parts + [q], sep, |parts|);
  }

  /** Parts that agree up to `n` join to the same prefix text. */
  lemma {:induction false} JoinPrefixAgree(parts: seq<string>, more: seq<string>, sep: string, n: nat)
    requires n <= |parts| && n <= |more| && parts[..n] == more[..n]
    ensures JoinPrefix(parts, sep, n) == JoinPrefix(more, sep, n)
  {
    if n > 0 {
      assert parts[..n - 1] == parts[..n][..n - 1];
      assert more[..n - 1] == more[..n][..n - 1];
      JoinPrefixAgree(parts, more, sep, n - 1);
      assert parts[n - 1] == parts[..n][n - 1];
      assert more[n - 1] == more[..n][n - 1];
    }
  }

  lemma {:induction false} JoinPrefixShape(parts: seq<string>, sep: string, n: nat)
    requires 0 < n <= |parts|
    ensures |JoinPrefix(parts, sep, n)| == TotalLength(parts, n) + |sep| * (n - 1)
    ensures parts[0] <= JoinPrefix(parts, sep, n)
    ensures |parts[n - 1]| <= |JoinPrefix(parts, sep, n)|
    ensures JoinPrefix(parts, sep, n)[|JoinPrefix(parts, sep, n)| - |parts[n - 1]|..] == parts[n - 1]
  {
    if n > 1 {
      JoinPrefixShape(parts, sep, n - 1);
      var prev := JoinPrefix(parts, sep, n - 1);
      assert TotalLength(parts, 1) == |parts[0]|;
      assert parts[0] <= prev;
      assert (prev + sep + parts[n - 1])[..|parts[0]|] == prev[..|parts[0]|];
    } else {
      assert TotalLength(parts, 0) == 0;
    }
  }

  /** The label createIonLabels places for group g drawn at point p. */
  function LabelOf(g: IonGroup, p: Point, side: real): PointLabel {
    PointLabel(Point(p.x + side * PointLabelOffsetX, p.y + PointLabelOffsetY),
               if side < 0.0 then End else Start,
               Join(SymbolsOf(g.ions), " + "))
  }

  /** The labels of the first n groups. */
  function LabelsPrefix(gs: seq<IonGroup>, points: seq<Point>, side: real, n: nat): (labels: seq<PointLabel>)
    requires n <= |gs| <= |points|
    ensures |labels| == n
  {
    if n == 0 then [] else LabelsPrefix(gs, points, side, n - 1) + [LabelOf(gs[n - 1], points[n - 1], side)]
  }

  function IonLabels(gs: seq<IonGroup>, points: seq<Point>, side: real): seq<PointLabel>
    requires |gs| <= |points|
  {
    LabelsPrefix(gs, points, side, |gs|)
  }

  /** createIonLabels: the forEach that labels group i at point i. */
  method CreateIonLabels(gs: seq<IonGroup>, points: seq<Point>, side: real) returns (labels: seq<PointLabel>)
    requires |gs| <= |points|
    ensures labels == IonLabels(gs, points, side)
  {
    labels := [];
    var i := 0;
    while i < |gs|
      invariant 0 <= i <= |gs|
      invariant labels == LabelsPrefix(gs, points, side, i)
    {
      var x := points[i].x + side * PointLabelOffsetX;
      var y := points[i].y + PointLabelOffsetY;
      var anchor := if side < 0.0 then End else Start;
      labels := labels + [PointLabel(Point(x, y), anchor, Join(SymbolsOf(gs[i].ions), " + "))];
      i := i + 1;
    }
  }

  /**
   * Label k belongs to group k and point k: 15 units outward from the point
   * (left and end-anchored on the cation side, right and start-anchored on
   * the anion side), 5 units below it.
   */
  lemma IonLabelsAt(gs: seq<IonGroup>, points: seq<Point>, side: real)
    requires |gs| <= |points| && (side == CationSide || side == AnionSide)
    ensures |IonLabels(gs, points, side)| == |gs|
    ensures forall k :: 0 <= k < |gs| ==> IonLabels(gs, points, side)[k] == LabelOf(gs[k], points[k], side)
    ensures forall k :: 0 <= k < |gs| ==>
      IonLabels(gs, points, side)[k].at == Point(points[k].x + 15.0 * side, points[k].y + 5.0)
    ensures forall k :: 0 <= k < |gs| ==>
      IonLabels(gs, points, side)[k].anchor == (if side == CationSide then End else Start)
  {
    LabelsPrefixAt(gs, points, side, |gs|);
  }

  lemma {:induction false} LabelsPrefixAt(gs: seq<IonGroup>, points: seq<Point>, side: real, n: nat)
    requires n <= |gs| <= |points|
    ensures forall k :: 0 <= k < n ==> LabelsPrefix(gs, points, side, n)[k] == LabelOf(gs[k], points[k], side)
  {
    if n > 0 {
      LabelsPrefixAt(gs, points, side, n - 1);
    }
  }

  /** Symbol k of a list of ions is ion k's symbol. */
  lemma SymbolsOfAt(ions: seq<Ion>)
    ensures forall k :: 0 <= k < |ions| ==> SymbolsOf(ions)[k] == ions[k].symbol
  {
    SymbolsPrefixAt(ions, |ions|);
  }

  lemma {:induction false} SymbolsPrefixAt(ions: seq<Ion>, n: nat)
    requires n <= |ions|
    ensures forall k :: 0 <= k < n ==> SymbolsPrefix(ions, n)[k] == ions[k].symbol
  {
    if n > 0 {
      SymbolsPrefixAt(ions, n - 1);
    }
  }

  /**
   * A label names exactly the symbols its group was given, in order: the
   * group's ions carry back the symbols they were looked up by.
   */
  lemma LabelNamesGroup(groups: seq<seq<string>>, conc: map<string, real>, i: nat, p: Point, side: real)
    requires Resolvable(groups, conc) && i < |groups|
    ensures SymbolsOf(IonGroups(groups, conc)[i].ions) == groups[i]
    ensures LabelOf(IonGroups(groups, conc)[i], p, side).text == Join(groups[i], " + ")
  {
    var g := IonGroups(groups, conc)[i];
    IonGroupsAt(groups, conc);
    MakeGroupSymbols(groups[i], conc);
    SymbolsOfAt(g.ions);
  }

  // ---------------------------------------------------------------------------
  // The whole diagram
  // ---------------------------------------------------------------------------

  /**
   * The StiffDiagram constructor, less the SVG: the axis ticks, the polygon's
   * vertices and the labels of both sides.
   */
  method StiffDiagram(groups: seq<seq<string>>, conc: map<string, real>)
    returns (ticks: seq<Tick>, polygon: seq<Point>, cationLabels: seq<PointLabel>, anionLabels: seq<PointLabel>)
    requires Resolvable(groups, conc) && Placeable(IonGroups(groups, conc))
    ensures ticks == AxisTicks(MaxMeqL(IonGroups(groups, conc)))
    ensures polygon == Polygon(CationPoints(IonGroups(groups, conc)), AnionPoints(IonGroups(groups, conc)))
    ensures cationLabels == IonLabels(CationGroups(IonGroups(groups, conc)), CationPoints(IonGroups(groups, conc)), CationSide)
    ensures anionLabels == IonLabels(AnionGroups(IonGroups(groups, conc)), AnionPoints(IonGroups(groups, conc)), AnionSide)
  {
    var ionGroups := IonGroups(groups, conc);
    var cationGroups, anionGroups := CationGroups(ionGroups), AnionGroups(ionGroups);
    var maxMeqL := MaxMeqL(ionGroups);
    ticks := CreateHorzAxisTicks(maxMeqL);
    var cationPoints, anionPoints := CationPoints(ionGroups), AnionPoints(ionGroups);
    polygon := Polygon(cationPoints, anionPoints);
    cationLabels := CreateIonLabels(cationGroups, cationPoints, CationSide);
    anionLabels := CreateIonLabels(anionGroups, anionPoints, AnionSide);
  }

  /** Labels read only the groups' ions and the points, not the meqL. */
  lemma LabelsRescaled(gs: seq<IonGroup>, gs': seq<IonGroup>, points: seq<Point>, side: real, k: real)
    requires Rescaled(gs, gs', k) && |gs| <= |points|
    ensures IonLabels(gs', points, side) == IonLabels(gs, points, side)
  {
    LabelsPrefixRescaled(gs, gs', points, side, k, |gs|);
  }

  lemma {:induction false} LabelsPrefixRescaled(gs: seq<IonGroup>, gs': seq<IonGroup>, points: seq<Point>, side: real, k: real, n: nat)
    requires Rescaled(gs, gs', k) && n <= |gs| <= |points|
    ensures LabelsPrefix(gs', points, side, n) == LabelsPrefix(gs, points, side, n)
  {
    if n > 0 {
      LabelsPrefixRescaled(gs, gs', points, side, k, n - 1);
      assert gs'[n - 1].ions == gs[n - 1].ions;
    }
  }

  /** A tick stays where it is when the scale is multiplied by k, and its printed value is multiplied by k. */
  lemma TickRescaled(i: int, maxMeqL: real, k: real)
    ensures TickAt(i, k * maxMeqL).x == TickAt(i, maxMeqL).x
    ensures TickAt(i, k * maxMeqL).caption.Some? <==> TickAt(i, maxMeqL).caption.Some?
    ensures TickAt(i, maxMeqL).caption.Some? ==>
      TickAt(i, maxMeqL).caption.value.at == TickAt(i, k * maxMeqL).caption.value.at &&
      TickAt(i, k * maxMeqL).caption.value.value == k * TickAt(i, maxMeqL).caption.value.value
  {
    var f := Abs(i) as real / HorzAxisMinorTicks as real;
    assert f * (k * maxMeqL) == k * (f * maxMeqL);
  }

  /**
   * A water sample diluted or concentrated by a factor k > 0 draws the same
   * polygon and the same labels; only the numbers on the axis change, by k.
   */
  lemma StiffScaleInvariant(groups: seq<seq<string>>, conc: map<string, real>, conc': map<string, real>, k: real)
    requires k > 0.0 && Resolvable(groups, conc) && Placeable(IonGroups(groups, conc)) && ScaledBy(conc, conc', k)
    ensures Resolvable(groups, conc') && Placeable(IonGroups(groups, conc'))
    ensures MaxMeqL(IonGroups(groups, conc')) == k * MaxMeqL(IonGroups(groups, conc))
    ensures Polygon(CationPoints(IonGroups(groups, conc')), AnionPoints(IonGroups(groups, conc')))
         == Polygon(CationPoints(IonGroups(groups, conc)), AnionPoints(IonGroups(groups, conc)))
    ensures IonLabels(CationGroups(IonGroups(groups, conc')), CationPoints(IonGroups(groups, conc')), CationSide)
         == IonLabels(CationGroups(IonGroups(groups, conc)), CationPoints(IonGroups(groups, conc)), CationSide)
    ensures IonLabels(AnionGroups(IonGroups(groups, conc')), AnionPoints(IonGroups(groups, conc')), AnionSide)
         == IonLabels(AnionGroups(IonGroups(groups, conc)), AnionPoints(IonGroups(groups, conc)), AnionSide)
  {
    IonGroupsRescaled(groups, conc, conc', k);
    var gs, gs' := IonGroups(groups, conc), IonGroups(groups, conc');
    DiagramScaleInvariant(gs, gs', k);
    PlaceableRescaled(gs, gs', k);
    LabelsRescaled(CationGroups(gs), CationGroups(gs'), CationPoints(gs), CationSide, k);
    LabelsRescaled(AnionGroups(gs), AnionGroups(gs'), AnionPoints(gs), AnionSide, k);
  }
}
