/**
 * The coordinate arithmetic of the Piper diagram (piper/js/piper.js).
 *
 * `tan(pi/3)` is the symbolic constant `r` with `r > 0` and `r * r == 3`;
 * `sin(pi/3)` is `r / 2`. Screen coordinates have y growing downwards.
 * Element construction is replaced by returned values: grid segments, and
 * data points carrying the hue of their group colour.
 */
module Piper {
  import opened Wrappers
  import opened Ions
  import opened Geometry

  /** r stands for tan(pi/3), the square root of three. */
  predicate IsRootThree(r: real) {
    r > 0.0 && r * r == 3.0
  }

  // Layout constants
  const PiperWidth: real := 800.0
  const TriangleWidth: real := 300.0
  const TriangleTranslateY: real := 350.0
  const TriangleBaseY: real := TriangleWidth
  const TriangleCentreMargin: real := 50.0
  const NumGridIntervals: nat := 10
  const PointRadius: real := 5.0

  /** tan(pi/3) * triangleWidth / 2 */
  function TriangleHeight(r: real): real {
    r * (TriangleWidth / 2.0)
  }

  const CationTranslateX: real := PiperWidth / 2.0 - TriangleCentreMargin - TriangleWidth
  const AnionTranslateX: real := PiperWidth / 2.0 + TriangleCentreMargin
  const DiamondFieldTranslateX: real := PiperWidth / 2.0 - TriangleWidth / 2.0

  /** Lifts the diamond so that its sides line up with the triangles' sides. */
  function DiamondFieldTranslateY(r: real): real {
    (TriangleTranslateY + TriangleBaseY) - r * TriangleCentreMargin - TriangleHeight(r) - TriangleBaseY
  }

  /** Absolute y of both triangles' base. */
  const BaseLineY: real := TriangleTranslateY + TriangleBaseY

  /** Collinearity of three points. */
  predicate Collinear(p: Point, q: Point, s: Point) {
    (q.x - p.x) * (s.y - p.y) == (s.x - p.x) * (q.y - p.y)
  }

  /** The two triangles sit symmetrically about the vertical centre line. */
  lemma TrianglesSymmetric()
    ensures CationTranslateX + TriangleWidth + TriangleCentreMargin == PiperWidth / 2.0
    ensures PiperWidth / 2.0 == AnionTranslateX - TriangleCentreMargin
    ensures (CationTranslateX + AnionTranslateX + TriangleWidth) / 2.0 == PiperWidth / 2.0
  {
  }

  /**
   * The triangles are equilateral, and the diamond's lower vertex, its right
   * vertex and the cation triangle's right corner are collinear (and
   * symmetrically on the other side), so the diamond's lower sides extend the
   * sides of the spacer triangle between the two base corners.
   */
  lemma DiamondAligned(r: real)
    requires IsRootThree(r)
    ensures (TriangleWidth / 2.0) * (TriangleWidth / 2.0) + TriangleHeight(r) * TriangleHeight(r)
      == TriangleWidth * TriangleWidth
    ensures Collinear(Point(CationTranslateX + TriangleWidth, BaseLineY),
                      Point(DiamondFieldTranslateX + TriangleWidth / 2.0,
                            DiamondFieldTranslateY(r) + TriangleBaseY + TriangleHeight(r)),
                      Point(DiamondFieldTranslateX + TriangleWidth, DiamondFieldTranslateY(r) + TriangleBaseY))
    ensures Collinear(Point(AnionTranslateX, BaseLineY),
                      Point(DiamondFieldTranslateX + TriangleWidth / 2.0,
                            DiamondFieldTranslateY(r) + TriangleBaseY + TriangleHeight(r)),
                      Point(DiamondFieldTranslateX, DiamondFieldTranslateY(r) + TriangleBaseY))
  {
    calc {
      TriangleHeight(r) * TriangleHeight(r);
      (r * r) * (150.0 * 150.0);
      3.0 * 22500.0;
    }
  }

  // ---------------------------------------------------------------------
  // Grid lines of the triangle-grid-right symbol

  datatype Segment = Segment(x1: real, y1: real, x2: real, y2: real)

  /**
   * Grid line `i`: it starts on the base, i tenths along, runs parallel to the
   * left side and ends on the right side, halfway between its start and the
   * right corner.
   */
  function GridLine(i: nat, r: real): (g: Segment)
    requires i <= NumGridIntervals
    ensures g.y1 == TriangleBaseY && 0.0 <= g.x1 <= TriangleWidth
    ensures g.x1 * NumGridIntervals as real == i as real * TriangleWidth
    ensures g.x2 * 2.0 == g.x1 + TriangleWidth
    ensures g.y1 - g.y2 == r * (g.x2 - g.x1)
    ensures g.y2 == TriangleBaseY - r * (TriangleWidth - g.x2)
  {
    var x1 := i as real * (TriangleWidth / NumGridIntervals as real);
    var y1 := TriangleBaseY;
    var x2 := x1 + ((TriangleWidth - x1) / 2.0);
    var y2 := y1 - r * (x2 - x1);
    Segment(x1, y1, x2, y2)
  }

  /** createTriangleGridRight: the for-loop appending one grid path per step. */
  method TriangleGridRight(r: real) returns (lines: seq<Segment>)
    ensures |lines| == NumGridIntervals + 1
    ensures forall i :: 0 <= i < |lines| ==> lines[i] == GridLine(i, r)
  {
    lines := [];
    var i := 0;
    while i <= NumGridIntervals
      invariant 0 <= i <= NumGridIntervals + 1
      invariant |lines| == i
      invariant forall k :: 0 <= k < i ==> lines[k] == GridLine(k, r)
    {
      var gridIntervalWidth := TriangleWidth / NumGridIntervals as real;
      var x1 := i as real * gridIntervalWidth;
      var y1 := TriangleBaseY;
      var x2 := x1 + ((TriangleWidth - x1) / 2.0);
      var y2 := y1 - r * (x2 - x1);
      lines := lines + [Segment(x1, y1, x2, y2)];
      i := i + 1;
    }
  }

  // ---------------------------------------------------------------------
  // Ion selection, equivalents, totals and proportions


  /** The `ions` array of the diagram. */
  const IonOrder: seq<string> := ["Ca", "Mg", "Na", "K", "Cl", "SO4", "CO3", "HCO3"]

  /** What selecting `IonOrder` by valence sign yields (lemma CationsAndAnions). */
  const CationSymbols: seq<string> := ["Ca", "Mg", "Na", "K"]
  const AnionSymbols: seq<string> := ["Cl", "SO4", "CO3", "HCO3"]

  lemma IonOrderKnown()
    ensures forall i :: 0 <= i < |IonOrder| ==> Get(IonOrder[i]).Some?
  {
    assert IonOrder == Symbols;
    forall i | 0 <= i < |IonOrder| ensures Get(IonOrder[i]).Some? {
      GetKnownExactly(IonOrder[i]);
    }
  }

  /** Every ion of a dictionary has a positive formula weight. */
  predicate PositiveWeights(objs: map<string, Ion>) {
    forall s :: s in objs ==> objs[s].formulaWeight > 0.0
  }

  /** `syms.reduce((a, sym) => { a[sym] = IonFactory.get(sym); return a; }, {})` */
  function IonObjectsOf(syms: seq<string>): (objs: map<string, Ion>)
    requires forall i :: 0 <= i < |syms| ==> Get(syms[i]).Some?
    ensures forall i :: 0 <= i < |syms| ==> syms[i] in objs
    ensures forall s :: s in objs ==> s in syms
    ensures PositiveWeights(objs)
  {
    IonObjectsPrefix(syms, |syms|)
  }

  /** Every entry of the dictionary is what IonFactory.get returns for its key. */
  lemma IonObjectsLookedUp(syms: seq<string>)
    requires forall i :: 0 <= i < |syms| ==> Get(syms[i]).Some?
    ensures forall s :: s in IonObjectsOf(syms) ==> Get(s) == Some(IonObjectsOf(syms)[s])
  {
    IonObjectsPrefixLookedUp(syms, |syms|);
  }

  lemma {:induction false} IonObjectsPrefixLookedUp(syms: seq<string>, n: nat)
    requires (forall i :: 0 <= i < |syms| ==> Get(syms[i]).Some?) && n <= |syms|
    ensures forall s :: s in IonObjectsPrefix(syms, n) ==> Get(s) == Some(IonObjectsPrefix(syms, n)[s])
  {
    if n > 0 {
      IonObjectsPrefixLookedUp(syms, n - 1);
    }
  }

  /** The dictionary after the reduce has visited the first `n` symbols. */
  function IonObjectsPrefix(syms: seq<string>, n: nat): (objs: map<string, Ion>)
    requires (forall i :: 0 <= i < |syms| ==> Get(syms[i]).Some?) && n <= |syms|
    ensures forall i :: 0 <= i < n ==> syms[i] in objs
    ensures forall s :: s in objs ==> s in syms
    ensures PositiveWeights(objs)
  {
    if n == 0 then map[]
    else
      var prev, sym := IonObjectsPrefix(syms, n - 1), syms[n - 1];
      prev[sym := Get(sym).value]
  }

  /** The `ionObj` dictionary of the diagram. */
  function IonObjects(): (objs: map<string, Ion>)
    ensures forall i :: 0 <= i < |IonOrder| ==> IonOrder[i] in objs
    ensures PositiveWeights(objs)
  {
    IonOrderKnown();
    IonObjectsOf(IonOrder)
  }

  /** The entry of each symbol in `ionObj`. */
  lemma IonObjectValues()
    ensures "Ca" in IonObjects() && IonObjects()["Ca"] == Calcium
    ensures "Mg" in IonObjects() && IonObjects()["Mg"] == Magnesium
    ensures "Na" in IonObjects() && IonObjects()["Na"] == Sodium
    ensures "K" in IonObjects() && IonObjects()["K"] == Potassium
    ensures "Cl" in IonObjects() && IonObjects()["Cl"] == Chloride
    ensures "SO4" in IonObjects() && IonObjects()["SO4"] == Sulfate
    ensures "CO3" in IonObjects() && IonObjects()["CO3"] == Carbonate
    ensures "HCO3" in IonObjects() && IonObjects()["HCO3"] == Bicarbonate
  {
    var objs := IonObjects();
    IonOrderKnown();
    IonObjectsLookedUp(IonOrder);
    GetSymbols();
    assert IonOrder[0] in objs && IonOrder[1] in objs && IonOrder[2] in objs && IonOrder[3] in objs;
    assert IonOrder[4] in objs && IonOrder[5] in objs && IonOrder[6] in objs && IonOrder[7] in objs;
  }

  predicate HasSign(objs: map<string, Ion>, s: string, positive: bool)
    requires s in objs
  {
    if positive then objs[s].valence > 0 else objs[s].valence < 0
  }

  /** `ions.filter(sym => ionObj[sym].getValence() > 0)` (or `< 0`). */
  function SelectBySign(syms: seq<string>, objs: map<string, Ion>, positive: bool): (sel: seq<string>)
    requires forall i :: 0 <= i < |syms| ==> syms[i] in objs
    ensures forall k :: 0 <= k < |sel| ==> sel[k] in syms && sel[k] in objs && HasSign(objs, sel[k], positive)
    ensures forall i :: 0 <= i < |syms| && HasSign(objs, syms[i], positive) ==> syms[i] in sel
  {
    SelectPrefix(syms, objs, positive, |syms|)
  }

  /** What the filter has kept after visiting the first `n` symbols. */
  function SelectPrefix(syms: seq<string>, objs: map<string, Ion>, positive: bool, n: nat): (sel: seq<string>)
    requires (forall i :: 0 <= i < |syms| ==> syms[i] in objs) && n <= |syms|
    ensures forall k :: 0 <= k < |sel| ==> sel[k] in syms && sel[k] in objs && HasSign(objs, sel[k], positive)
    ensures forall i :: 0 <= i < n && HasSign(objs, syms[i], positive) ==> syms[i] in sel
  {
    if n == 0 then []
    else
      var kept := SelectPrefix(syms, objs, positive, n - 1);
      if HasSign(objs, syms[n - 1], positive) then kept + [syms[n - 1]] else kept
  }

  /** Selection distributes over concatenation, so it keeps the original order. */
  lemma SelectAppend(a: seq<string>, b: seq<string>, objs: map<string, Ion>, positive: bool)
    requires forall i :: 0 <= i < |a| ==> a[i] in objs
    requires forall i :: 0 <= i < |b| ==> b[i] in objs
    ensures SelectBySign(a + b, objs, positive) == SelectBySign(a, objs, positive) + SelectBySign(b, objs, positive)
  {
    SelectPrefixAppend(a, b, objs, positive, |b|);
  }

  /** Past the end of `a`, selecting from `a + b` continues with the selection from `b`. */
  lemma {:induction false} SelectPrefixAppend(a: seq<string>, b: seq<string>, objs: map<string, Ion>, positive: bool, j: nat)
    requires forall i :: 0 <= i < |a| ==> a[i] in objs
    requires forall i :: 0 <= i < |b| ==> b[i] in objs
    requires j <= |b|
    ensures SelectPrefix(a + b, objs, positive, |a| + j)
         == SelectBySign(a, objs, positive) + SelectPrefix(b, objs, positive, j)
  {
    if j == 0 {
      SelectPrefixOfFront(a, b, objs, positive, |a|);
    } else {
      SelectPrefixAppend(a, b, objs, positive, j - 1);
      assert (a + b)[|a| + j - 1] == b[j - 1];
    }
  }

  /** Within `a`, selecting from `a + b` is selecting from `a`. */
  lemma {:induction false} SelectPrefixOfFront(a: seq<string>, b: seq<string>, objs: map<string, Ion>, positive: bool, n: nat)
    requires forall i :: 0 <= i < |a| ==> a[i] in objs
    requires forall i :: 0 <= i < |b| ==> b[i] in objs
    requires n <= |a|
    ensures SelectPrefix(a + b, objs, positive, n) == SelectPrefix(a, objs, positive, n)
  {
    if n > 0 {
      SelectPrefixOfFront(a, b, objs, positive, n - 1);
      assert (a + b)[n - 1] == a[n - 1];
    }
  }

  /** Selecting from a list whose members all have (or all lack) the sign. */
  lemma SelectUniform(syms: seq<string>, objs: map<string, Ion>, positive: bool, all: bool)
    requires forall i :: 0 <= i < |syms| ==> syms[i] in objs && HasSign(objs, syms[i], positive) == all
    ensures SelectBySign(syms, objs, positive) == if all then syms else []
  {
    SelectPrefixUniform(syms, objs, positive, all, |syms|);
    assert syms[..|syms|] == syms;
  }

  lemma {:induction false} SelectPrefixUniform(syms: seq<string>, objs: map<string, Ion>, positive: bool, all: bool, n: nat)
    requires forall i :: 0 <= i < |syms| ==> syms[i] in objs && HasSign(objs, syms[i], positive) == all
    requires n <= |syms|
    ensures SelectPrefix(syms, objs, positive, n) == if all then syms[..n] else []
  {
    if n > 0 {
      SelectPrefixUniform(syms, objs, positive, all, n - 1);
      assert syms[..n] == syms[..n - 1] + [syms[n - 1]];
    }
  }

  /** Selecting by valence sign splits the ion list into its first and last four, in order. */
  lemma CationsAndAnions()
    ensures forall i :: 0 <= i < |IonOrder| ==> IonOrder[i] in IonObjects()
    ensures SelectBySign(IonOrder, IonObjects(), true) == CationSymbols
    ensures SelectBySign(IonOrder, IonObjects(), false) == AnionSymbols
  {
    IonObjectValues();
    SelectionOfTable(IonObjects());
  }

  /** The table's valences decide the selection. */
  predicate TableEntries(objs: map<string, Ion>) {
    "Ca" in objs && objs["Ca"] == Calcium && "Mg" in objs && objs["Mg"] == Magnesium
    && "Na" in objs && objs["Na"] == Sodium && "K" in objs && objs["K"] == Potassium
    && "Cl" in objs && objs["Cl"] == Chloride && "SO4" in objs && objs["SO4"] == Sulfate
    && "CO3" in objs && objs["CO3"] == Carbonate && "HCO3" in objs && objs["HCO3"] == Bicarbonate
  }

  lemma SelectionOfTable(objs: map<string, Ion>)
    requires TableEntries(objs)
    ensures Keyed(IonOrder, objs)
    ensures SelectBySign(IonOrder, objs, true) == CationSymbols
    ensures SelectBySign(IonOrder, objs, false) == AnionSymbols
  {
    var cats, ans := CationSymbols, AnionSymbols;
    assert IonOrder == cats + ans;
    SidesUniform(objs);
    KeyedAppend(cats, ans, objs);
    SelectAppend(cats, ans, objs, true);
    SelectAppend(cats, ans, objs, false);
    assert cats + [] == cats && [] + ans == ans;
  }

  lemma KeyedAppend<V>(a: seq<string>, b: seq<string>, m: map<string, V>)
    requires Keyed(a, m) && Keyed(b, m)
    ensures Keyed(a + b, m)
  {
    forall i | 0 <= i < |a + b|
      ensures (a + b)[i] in m
    {
      if i < |a| {
        assert (a + b)[i] == a[i];
      } else {
        assert (a + b)[i] == b[i - |a|];
      }
    }
  }

  lemma SidesUniform(objs: map<string, Ion>)
    requires TableEntries(objs)
    ensures forall i :: 0 <= i < |CationSymbols| ==> CationSymbols[i] in objs
    ensures forall i :: 0 <= i < |AnionSymbols| ==> AnionSymbols[i] in objs
    ensures SelectBySign(CationSymbols, objs, true) == CationSymbols
    ensures SelectBySign(CationSymbols, objs, false) == []
    ensures SelectBySign(AnionSymbols, objs, true) == []
    ensures SelectBySign(AnionSymbols, objs, false) == AnionSymbols
  {
    forall i | 0 <= i < |CationSymbols|
      ensures CationSymbols[i] in objs && HasSign(objs, CationSymbols[i], true)
      ensures !HasSign(objs, CationSymbols[i], false)
    {
    }
    forall i | 0 <= i < |AnionSymbols|
      ensures AnionSymbols[i] in objs && !HasSign(objs, AnionSymbols[i], true)
      ensures HasSign(objs, AnionSymbols[i], false)
    {
    }
    SelectUniform(CationSymbols, objs, true, true);
    SelectUniform(CationSymbols, objs, false, false);
    SelectUniform(AnionSymbols, objs, true, false);
    SelectUniform(AnionSymbols, objs, false, true);
  }

  // ---------------------------------------------------------------------
  // Side totals and proportions

  /** Every listed symbol has an entry. */
  predicate Keyed<V>(syms: seq<string>, m: map<string, V>) {
    forall i :: 0 <= i < |syms| ==> syms[i] in m
  }

  /** No symbol is listed on both sides. */
  predicate Disjoint(xs: seq<string>, ys: seq<string>) {
    forall s :: s in xs ==> s !in ys
  }

  /** `syms.reduce((a, sym) => a + m[sym], 0)` */
  function SumOver(syms: seq<string>, m: map<string, real>): real
    requires Keyed(syms, m)
  {
    SumPrefix(syms, m, |syms|)
  }

  /** The running total after the reduce has visited the first `n` symbols. */
  function SumPrefix(syms: seq<string>, m: map<string, real>, n: nat): real
    requires Keyed(syms, m) && n <= |syms|
  {
    if n == 0 then 0.0 else SumPrefix(syms, m, n - 1) + m[syms[n - 1]]
  }

  /** A sum of non-negative terms is non-negative. */
  lemma SumOverNonNegative(syms: seq<string>, m: map<string, real>)
    requires Keyed(syms, m) && forall i :: 0 <= i < |syms| ==> m[syms[i]] >= 0.0
    ensures SumOver(syms, m) >= 0.0
  {
    SumPrefixNonNegative(syms, m, |syms|);
  }

  lemma {:induction false} SumPrefixNonNegative(syms: seq<string>, m: map<string, real>, n: nat)
    requires Keyed(syms, m) && forall i :: 0 <= i < |syms| ==> m[syms[i]] >= 0.0
    requires n <= |syms|
    ensures SumPrefix(syms, m, n) >= 0.0
  {
    if n > 0 {
      SumPrefixNonNegative(syms, m, n - 1);
    }
  }

  /** No term of a sum of non-negative terms exceeds the sum. */
  lemma TermAtMostSum(syms: seq<string>, m: map<string, real>, i: nat)
    requires Keyed(syms, m) && forall j :: 0 <= j < |syms| ==> m[syms[j]] >= 0.0
    requires i < |syms|
    ensures 0.0 <= m[syms[i]] <= SumOver(syms, m)
  {
    TermAtMostPrefix(syms, m, i, |syms|);
  }

  lemma {:induction false} TermAtMostPrefix(syms: seq<string>, m: map<string, real>, i: nat, n: nat)
    requires Keyed(syms, m) && forall j :: 0 <= j < |syms| ==> m[syms[j]] >= 0.0
    requires i < n <= |syms|
    ensures m[syms[i]] <= SumPrefix(syms, m, n)
  {
    if i < n - 1 {
      TermAtMostPrefix(syms, m, i, n - 1);
    } else {
      SumPrefixNonNegative(syms, m, n - 1);
    }
  }

  /** Scaling every term scales the sum. */
  lemma SumOverScaled(syms: seq<string>, m: map<string, real>, m': map<string, real>, k: real)
    requires Keyed(syms, m) && Keyed(syms, m')
    requires forall i :: 0 <= i < |syms| ==> m'[syms[i]] == k * m[syms[i]]
    ensures SumOver(syms, m') == k * SumOver(syms, m)
  {
    SumPrefixScaled(syms, m, m', k, |syms|);
  }

  lemma {:induction false} SumPrefixScaled(syms: seq<string>, m: map<string, real>, m': map<string, real>, k: real, n: nat)
    requires Keyed(syms, m) && Keyed(syms, m') && n <= |syms|
    requires forall i :: 0 <= i < |syms| ==> m'[syms[i]] == k * m[syms[i]]
    ensures SumPrefix(syms, m', n) == k * SumPrefix(syms, m, n)
  {
    if n > 0 {
      SumPrefixScaled(syms, m, m', k, n - 1);
      ScaledStep(k, SumPrefix(syms, m, n - 1), m[syms[n - 1]], SumPrefix(syms, m', n - 1), m'[syms[n - 1]],
                 SumPrefix(syms, m, n), SumPrefix(syms, m', n));
    }
  }

  lemma ScaledStep(k: real, a: real, b: real, a': real, b': real, t: real, t': real)
    requires a' == k * a && b' == k * b && t == a + b && t' == a' + b'
    ensures t' == k * t
  {
  }

  /** `syms.reduce((a, sym) => { a[sym] = meq[sym] / total; return a; }, acc)` */
  function NormaliseInto(acc: map<string, real>, syms: seq<string>, meq: map<string, real>, total: real): (p: map<string, real>)
    requires total != 0.0 && Keyed(syms, meq)
    ensures Keyed(syms, p) && forall s :: s in acc ==> s in p
    ensures forall s :: s in p ==> s in acc || s in syms
  {
    NormalisePrefix(acc, syms, meq, total, |syms|)
  }

  /** The accumulator after the reduce has visited the first `n` symbols. */
  function NormalisePrefix(acc: map<string, real>, syms: seq<string>, meq: map<string, real>, total: real, n: nat): (p: map<string, real>)
    requires total != 0.0 && Keyed(syms, meq) && n <= |syms|
    ensures forall i :: 0 <= i < n ==> syms[i] in p
    ensures forall s :: s in acc ==> s in p
    ensures forall s :: s in p ==> s in acc || s in syms
  {
    if n == 0 then acc
    else NormalisePrefix(acc, syms, meq, total, n - 1)[syms[n - 1] := meq[syms[n - 1]] / total]
  }

  /**
   * Each listed symbol is mapped to its equivalents over the total, and every
   * other entry of the accumulator is kept.
   */
  lemma NormaliseIntoValues(acc: map<string, real>, syms: seq<string>, meq: map<string, real>, total: real)
    requires total != 0.0 && Keyed(syms, meq)
    ensures forall i :: 0 <= i < |syms| ==> NormaliseInto(acc, syms, meq, total)[syms[i]] == meq[syms[i]] / total
    ensures forall s :: s in acc && s !in syms ==> NormaliseInto(acc, syms, meq, total)[s] == acc[s]
  {
    NormalisePrefixValues(acc, syms, meq, total, |syms|);
  }

  lemma {:induction false} NormalisePrefixValues(acc: map<string, real>, syms: seq<string>, meq: map<string, real>, total: real, n: nat)
    requires total != 0.0 && Keyed(syms, meq) && n <= |syms|
    ensures forall i :: 0 <= i < n ==> NormalisePrefix(acc, syms, meq, total, n)[syms[i]] == meq[syms[i]] / total
    ensures forall s :: s in acc && s !in syms ==> NormalisePrefix(acc, syms, meq, total, n)[s] == acc[s]
  {
    if n > 0 {
      NormalisePrefixValues(acc, syms, meq, total, n - 1);
      assert syms[n - 1] in syms;
    }
  }

  /** Both sides have their equivalents and neither side's total is zero. */
  predicate Divisible(cations: seq<string>, anions: seq<string>, meq: map<string, real>) {
    Keyed(cations, meq) && Keyed(anions, meq) && SumOver(cations, meq) != 0.0 && SumOver(anions, meq) != 0.0
  }

  /**
   * The `proportion` dictionary: each cation's equivalents over `cationTotal`,
   * then each anion's over `anionTotal`.
   */
  function Proportions(cations: seq<string>, anions: seq<string>, meq: map<string, real>): (p: map<string, real>)
    requires Divisible(cations, anions, meq)
    ensures Keyed(cations, p) && Keyed(anions, p)
    ensures forall s :: s in p ==> s in cations || s in anions
  {
    NormaliseInto(NormaliseInto(map[], cations, meq, SumOver(cations, meq)), anions, meq, SumOver(anions, meq))
  }

  /** Each proportion is the ion's equivalents over its own side's total. */
  lemma ProportionValues(cations: seq<string>, anions: seq<string>, meq: map<string, real>)
    requires Divisible(cations, anions, meq) && Disjoint(cations, anions)
    ensures forall i :: 0 <= i < |cations| ==>
      Proportions(cations, anions, meq)[cations[i]] == meq[cations[i]] / SumOver(cations, meq)
    ensures forall i :: 0 <= i < |anions| ==>
      Proportions(cations, anions, meq)[anions[i]] == meq[anions[i]] / SumOver(anions, meq)
  {
    forall i | 0 <= i < |cations|
      ensures Proportions(cations, anions, meq)[cations[i]] == meq[cations[i]] / SumOver(cations, meq)
    {
      CationProportion(cations, anions, meq, i);
    }
    forall i | 0 <= i < |anions|
      ensures Proportions(cations, anions, meq)[anions[i]] == meq[anions[i]] / SumOver(anions, meq)
    {
      AnionProportion(cations, anions, meq, i);
    }
  }

  /** Each side's proportions sum to one. */
  lemma ProportionsSumToOne(cations: seq<string>, anions: seq<string>, meq: map<string, real>)
    requires Divisible(cations, anions, meq) && Disjoint(cations, anions)
    ensures SumOver(cations, Proportions(cations, anions, meq)) == 1.0
    ensures SumOver(anions, Proportions(cations, anions, meq)) == 1.0
  {
    var p := Proportions(cations, anions, meq);
    ProportionValues(cations, anions, meq);
    NormalisedSumIsOne(cations, meq, p, SumOver(cations, meq));
    NormalisedSumIsOne(anions, meq, p, SumOver(anions, meq));
  }

  lemma DivIsMulInverse(x: real, t: real)
    requires t != 0.0
    ensures x / t == (1.0 / t) * x
  {
  }

  /** Dividing every term by the sum makes the terms sum to one. */
  lemma NormalisedSumIsOne(syms: seq<string>, m: map<string, real>, p: map<string, real>, total: real)
    requires Keyed(syms, m) && Keyed(syms, p)
    requires total == SumOver(syms, m) && total != 0.0
    requires forall i :: 0 <= i < |syms| ==> p[syms[i]] == m[syms[i]] / total
    ensures SumOver(syms, p) == 1.0
  {
    var k := 1.0 / total;
    forall i | 0 <= i < |syms| ensures p[syms[i]] == k * m[syms[i]] {
      DivIsMulInverse(m[syms[i]], total);
    }
    SumOverScaled(syms, m, p, k);
    DivIsMulInverse(total, total);
  }

  /** With non-negative equivalents every proportion lies in [0, 1]. */
  lemma ProportionsInUnitRange(cations: seq<string>, anions: seq<string>, meq: map<string, real>)
    requires Divisible(cations, anions, meq) && Disjoint(cations, anions)
    requires forall i :: 0 <= i < |cations| ==> meq[cations[i]] >= 0.0
    requires forall i :: 0 <= i < |anions| ==> meq[anions[i]] >= 0.0
    ensures forall i :: 0 <= i < |cations| ==> 0.0 <= Proportions(cations, anions, meq)[cations[i]] <= 1.0
    ensures forall i :: 0 <= i < |anions| ==> 0.0 <= Proportions(cations, anions, meq)[anions[i]] <= 1.0
  {
    var p := Proportions(cations, anions, meq);
    ProportionValues(cations, anions, meq);
    NormalisedTermsInUnitRange(cations, meq, p, SumOver(cations, meq));
    NormalisedTermsInUnitRange(anions, meq, p, SumOver(anions, meq));
  }

  /** Non-negative terms divided by their non-zero sum lie in [0, 1]. */
  lemma NormalisedTermsInUnitRange(syms: seq<string>, m: map<string, real>, p: map<string, real>, total: real)
    requires Keyed(syms, m) && Keyed(syms, p) && forall i :: 0 <= i < |syms| ==> m[syms[i]] >= 0.0
    requires total == SumOver(syms, m) && total != 0.0
    requires forall i :: 0 <= i < |syms| ==> p[syms[i]] == m[syms[i]] / total
    ensures forall i :: 0 <= i < |syms| ==> 0.0 <= p[syms[i]] <= 1.0
  {
    forall i | 0 <= i < |syms| ensures 0.0 <= p[syms[i]] <= 1.0 {
      TermAtMostSum(syms, m, i);
      FractionInUnitRange(m[syms[i]], total);
    }
  }

  lemma FractionInUnitRange(x: real, t: real)
    requires 0.0 <= x <= t && t != 0.0
    ensures 0.0 <= x / t <= 1.0
  {
    var inv := 1.0 / t;
    assert inv > 0.0;
    assert x / t == inv * x;
    ScaledAtMost(inv, 0.0, x);
    ScaledAtMost(inv, x, t);
    assert inv * t == 1.0;
  }

  lemma RatioScaled(p: real, p': real, x: real, x': real, t: real, t': real, k: real)
    requires t != 0.0 && k != 0.0 && x' == k * x && t' == k * t
    requires p == x / t && p' == x' / t'
    ensures p' == p
  {
  }

  /**
   * Multiplying every equivalent by the same non-zero factor multiplies both
   * totals by it and leaves every proportion unchanged.
   */
  lemma ProportionsScaleInvariant(cations: seq<string>, anions: seq<string>, meq: map<string, real>,
                                  meq': map<string, real>, k: real)
    requires Divisible(cations, anions, meq) && Disjoint(cations, anions) && k != 0.0
    requires Keyed(cations, meq') && Keyed(anions, meq')
    requires forall i :: 0 <= i < |cations| ==> meq'[cations[i]] == k * meq[cations[i]]
    requires forall i :: 0 <= i < |anions| ==> meq'[anions[i]] == k * meq[anions[i]]
    ensures SumOver(cations, meq') == k * SumOver(cations, meq)
    ensures SumOver(anions, meq') == k * SumOver(anions, meq)
    ensures Divisible(cations, anions, meq')
    ensures forall i :: 0 <= i < |cations| ==>
      Proportions(cations, anions, meq')[cations[i]] == Proportions(cations, anions, meq)[cations[i]]
    ensures forall i :: 0 <= i < |anions| ==>
      Proportions(cations, anions, meq')[anions[i]] == Proportions(cations, anions, meq)[anions[i]]
  {
    TotalScaled(cations, meq, meq', k);
    TotalScaled(anions, meq, meq', k);
    CationsScaled(cations, anions, meq, meq', k);
    AnionsScaled(cations, anions, meq, meq', k);
  }

  /** The scaled equivalents give the very same `proportion` dictionary. */
  lemma ProportionsScaledEqual(cations: seq<string>, anions: seq<string>, meq: map<string, real>,
                               meq': map<string, real>, k: real)
    requires Divisible(cations, anions, meq) && Disjoint(cations, anions) && k != 0.0
    requires Keyed(cations, meq') && Keyed(anions, meq')
    requires forall i :: 0 <= i < |cations| ==> meq'[cations[i]] == k * meq[cations[i]]
    requires forall i :: 0 <= i < |anions| ==> meq'[anions[i]] == k * meq[anions[i]]
    ensures Divisible(cations, anions, meq')
    ensures Proportions(cations, anions, meq') == Proportions(cations, anions, meq)
  {
    ProportionsScaleInvariant(cations, anions, meq, meq', k);
    var p, p' := Proportions(cations, anions, meq), Proportions(cations, anions, meq');
    forall s | s in p || s in p'
      ensures s in p && s in p' && p'[s] == p[s]
    {
      if s in cations {
        var i :| 0 <= i < |cations| && cations[i] == s;
      } else {
        var i :| 0 <= i < |anions| && anions[i] == s;
      }
    }
  }

  /** A total of terms scaled by a non-zero factor is scaled, and stays non-zero. */
  lemma TotalScaled(syms: seq<string>, m: map<string, real>, m': map<string, real>, k: real)
    requires Keyed(syms, m) && Keyed(syms, m') && k != 0.0
    requires forall i :: 0 <= i < |syms| ==> m'[syms[i]] == k * m[syms[i]]
    ensures SumOver(syms, m') == k * SumOver(syms, m)
    ensures SumOver(syms, m) != 0.0 ==> SumOver(syms, m') != 0.0
  {
    SumOverScaled(syms, m, m', k);
    if SumOver(syms, m) != 0.0 {
      NonZeroProduct(k, SumOver(syms, m));
    }
  }

  lemma CationsScaled(cations: seq<string>, anions: seq<string>, meq: map<string, real>,
                      meq': map<string, real>, k: real)
    requires Divisible(cations, anions, meq) && Divisible(cations, anions, meq') && Disjoint(cations, anions)
    requires k != 0.0 && SumOver(cations, meq') == k * SumOver(cations, meq)
    requires forall i :: 0 <= i < |cations| ==> meq'[cations[i]] == k * meq[cations[i]]
    ensures forall i :: 0 <= i < |cations| ==>
      Proportions(cations, anions, meq')[cations[i]] == Proportions(cations, anions, meq)[cations[i]]
  {
    forall i | 0 <= i < |cations|
      ensures Proportions(cations, anions, meq')[cations[i]] == Proportions(cations, anions, meq)[cations[i]]
    {
      CationProportionScaled(cations, anions, meq, meq', k, i);
    }
  }

  lemma AnionsScaled(cations: seq<string>, anions: seq<string>, meq: map<string, real>,
                     meq': map<string, real>, k: real)
    requires Divisible(cations, anions, meq) && Divisible(cations, anions, meq') && Disjoint(cations, anions)
    requires k != 0.0 && SumOver(anions, meq') == k * SumOver(anions, meq)
    requires forall i :: 0 <= i < |anions| ==> meq'[anions[i]] == k * meq[anions[i]]
    ensures forall i :: 0 <= i < |anions| ==>
      Proportions(cations, anions, meq')[anions[i]] == Proportions(cations, anions, meq)[anions[i]]
  {
    forall i | 0 <= i < |anions|
      ensures Proportions(cations, anions, meq')[anions[i]] == Proportions(cations, anions, meq)[anions[i]]
    {
      AnionProportionScaled(cations, anions, meq, meq', k, i);
    }
  }

  lemma NonZeroProduct(k: real, t: real)
    requires k != 0.0 && t != 0.0
    ensures k * t != 0.0
  {
  }

  lemma CationProportionScaled(cations: seq<string>, anions: seq<string>, meq: map<string, real>,
                               meq': map<string, real>, k: real, i: nat)
    requires Divisible(cations, anions, meq) && Divisible(cations, anions, meq') && Disjoint(cations, anions)
    requires k != 0.0 && i < |cations| && SumOver(cations, meq') == k * SumOver(cations, meq)
    requires meq'[cations[i]] == k * meq[cations[i]]
    ensures Proportions(cations, anions, meq')[cations[i]] == Proportions(cations, anions, meq)[cations[i]]
  {
    CationProportion(cations, anions, meq, i);
    CationProportion(cations, anions, meq', i);
    RatioScaled(Proportions(cations, anions, meq)[cations[i]], Proportions(cations, anions, meq')[cations[i]],
                meq[cations[i]], meq'[cations[i]], SumOver(cations, meq), SumOver(cations, meq'), k);
  }

  lemma AnionProportionScaled(cations: seq<string>, anions: seq<string>, meq: map<string, real>,
                              meq': map<string, real>, k: real, i: nat)
    requires Divisible(cations, anions, meq) && Divisible(cations, anions, meq') && Disjoint(cations, anions)
    requires k != 0.0 && i < |anions| && SumOver(anions, meq') == k * SumOver(anions, meq)
    requires meq'[anions[i]] == k * meq[anions[i]]
    ensures Proportions(cations, anions, meq')[anions[i]] == Proportions(cations, anions, meq)[anions[i]]
  {
    AnionProportion(cations, anions, meq, i);
    AnionProportion(cations, anions, meq', i);
    RatioScaled(Proportions(cations, anions, meq)[anions[i]], Proportions(cations, anions, meq')[anions[i]],
                meq[anions[i]], meq'[anions[i]], SumOver(anions, meq), SumOver(anions, meq'), k);
  }

  lemma CationProportion(cations: seq<string>, anions: seq<string>, meq: map<string, real>, i: nat)
    requires Divisible(cations, anions, meq) && Disjoint(cations, anions) && i < |cations|
    ensures Proportions(cations, anions, meq)[cations[i]] == meq[cations[i]] / SumOver(cations, meq)
  {
    var inner := NormaliseInto(map[], cations, meq, SumOver(cations, meq));
    NormaliseIntoValues(map[], cations, meq, SumOver(cations, meq));
    NormaliseIntoValues(inner, anions, meq, SumOver(anions, meq));
    assert cations[i] in cations;
  }

  lemma AnionProportion(cations: seq<string>, anions: seq<string>, meq: map<string, real>, i: nat)
    requires Divisible(cations, anions, meq) && i < |anions|
    ensures Proportions(cations, anions, meq)[anions[i]] == meq[anions[i]] / SumOver(anions, meq)
  {
    var inner := NormaliseInto(map[], cations, meq, SumOver(cations, meq));
    NormaliseIntoValues(inner, anions, meq, SumOver(anions, meq));
  }

  // ---------------------------------------------------------------------
  // Equivalents of one sample

  /** A sample: concentration in mg/L by ion symbol. */
  type Conc = map<string, real>

  /**
   * The `meqL` dictionary: `ions.reduce((a, sym) => { a[sym] =
   * ionObj[sym].getMeqL(conc[sym]); return a; }, {})`.
   */
  function EquivalentsOf(syms: seq<string>, objs: map<string, Ion>, conc: Conc): (meq: map<string, real>)
    requires PositiveWeights(objs) && forall s :: s in syms ==> s in objs && s in conc
    ensures Keyed(syms, meq)
  {
    EquivalentsPrefix(syms, objs, conc, |syms|)
  }

  /** The dictionary after the reduce has visited the first `n` symbols. */
  function EquivalentsPrefix(syms: seq<string>, objs: map<string, Ion>, conc: Conc, n: nat): (meq: map<string, real>)
    requires PositiveWeights(objs) && (forall s :: s in syms ==> s in objs && s in conc) && n <= |syms|
    ensures forall i :: 0 <= i < n ==> syms[i] in meq
  {
    if n == 0 then map[]
    else
      var sym := syms[n - 1];
      EquivalentsPrefix(syms, objs, conc, n - 1)[sym := MeqL(objs[sym], conc[sym])]
  }

  /** Each listed symbol is mapped to the equivalents of its concentration. */
  lemma EquivalentsValues(syms: seq<string>, objs: map<string, Ion>, conc: Conc)
    requires PositiveWeights(objs) && forall s :: s in syms ==> s in objs && s in conc
    ensures forall i :: 0 <= i < |syms| ==>
      EquivalentsOf(syms, objs, conc)[syms[i]] == MeqL(objs[syms[i]], conc[syms[i]])
  {
    EquivalentsPrefixValues(syms, objs, conc, |syms|);
  }

  lemma {:induction false} EquivalentsPrefixValues(syms: seq<string>, objs: map<string, Ion>, conc: Conc, n: nat)
    requires PositiveWeights(objs) && (forall s :: s in syms ==> s in objs && s in conc) && n <= |syms|
    ensures forall i :: 0 <= i < n ==>
      EquivalentsPrefix(syms, objs, conc, n)[syms[i]] == MeqL(objs[syms[i]], conc[syms[i]])
  {
    if n > 0 {
      EquivalentsPrefixValues(syms, objs, conc, n - 1);
    }
  }

  /** Every concentration of a sample multiplied by `k`. */
  function Scale(conc: Conc, k: real): (scaled: Conc)
    ensures forall s :: s in scaled <==> s in conc
    ensures forall s :: s in scaled ==> scaled[s] == k * conc[s]
  {
    map s | s in conc :: k * conc[s]
  }

  /** Scaling the concentrations scales the equivalents. */
  lemma EquivalentsScaled(syms: seq<string>, objs: map<string, Ion>, conc: Conc, k: real)
    requires PositiveWeights(objs) && forall s :: s in syms ==> s in objs && s in conc
    ensures forall s :: s in syms ==> s in Scale(conc, k)
    ensures forall i :: 0 <= i < |syms| ==>
      EquivalentsOf(syms, objs, Scale(conc, k))[syms[i]] == k * EquivalentsOf(syms, objs, conc)[syms[i]]
  {
    var scaled := Scale(conc, k);
    EquivalentsValues(syms, objs, conc);
    EquivalentsValues(syms, objs, scaled);
    forall i | 0 <= i < |syms|
      ensures EquivalentsOf(syms, objs, scaled)[syms[i]] == k * EquivalentsOf(syms, objs, conc)[syms[i]]
    {
      var s := syms[i];
      MeqLScaled(objs[s], conc[s], scaled[s], k, EquivalentsOf(syms, objs, conc)[s], EquivalentsOf(syms, objs, scaled)[s]);
    }
  }

  lemma MeqLScaled(ion: Ion, c: real, c': real, k: real, e: real, e': real)
    requires ion.formulaWeight != 0.0 && c' == k * c
    requires e == MeqL(ion, c) && e' == MeqL(ion, c')
    ensures e' == k * e
  {
    MeqLLinear(ion, k, c);
  }

  /** The selections by sign never share a symbol. */
  lemma SelectionsDisjoint(ions: seq<string>, objs: map<string, Ion>)
    requires forall s :: s in ions ==> s in objs
    ensures Disjoint(SelectBySign(ions, objs, true), SelectBySign(ions, objs, false))
  {
  }

  /**
   * What plotConcentrations relies on without checking it: every listed ion
   * has an entry with a positive formula weight, and Ca, Mg (cations) and
   * Cl, SO4 (anions) are among the listed ions.
   */
  predicate IonSetup(ions: seq<string>, objs: map<string, Ion>) {
    (forall s :: s in ions ==> s in objs) && PositiveWeights(objs)
    && "Ca" in ions && "Mg" in ions && "Cl" in ions && "SO4" in ions
    && objs["Ca"].valence > 0 && objs["Mg"].valence > 0 && objs["Cl"].valence < 0 && objs["SO4"].valence < 0
  }

  /** The diagram's own ion list and dictionary meet it. */
  lemma DiagramIonSetup()
    ensures IonSetup(IonOrder, IonObjects())
  {
    IonObjectValues();
  }

  /** Equivalents from which the points can be drawn: neither side's total is zero. */
  predicate Drawable(ions: seq<string>, objs: map<string, Ion>, meq: map<string, real>) {
    IonSetup(ions, objs)
    && Divisible(SelectBySign(ions, objs, true), SelectBySign(ions, objs, false), meq)
  }

  /** The `proportion` dictionary built from a `meqL` dictionary. */
  function ProportionsOf(ions: seq<string>, objs: map<string, Ion>, meq: map<string, real>): (p: map<string, real>)
    requires Drawable(ions, objs, meq)
    ensures "Ca" in p && "Mg" in p && "Cl" in p && "SO4" in p
  {
    DrawnIonsSelected(ions, objs);
    Proportions(SelectBySign(ions, objs, true), SelectBySign(ions, objs, false), meq)
  }

  /** Ca and Mg are selected as cations, Cl and SO4 as anions. */
  lemma DrawnIonsSelected(ions: seq<string>, objs: map<string, Ion>)
    requires IonSetup(ions, objs)
    ensures "Ca" in SelectBySign(ions, objs, true) && "Mg" in SelectBySign(ions, objs, true)
    ensures "Cl" in SelectBySign(ions, objs, false) && "SO4" in SelectBySign(ions, objs, false)
  {
  }

  /** A sample that gives every listed ion, with non-zero totals on both sides. */
  predicate Plottable(ions: seq<string>, objs: map<string, Ion>, conc: Conc) {
    IonSetup(ions, objs) && (forall s :: s in ions ==> s in conc)
    && Drawable(ions, objs, EquivalentsOf(ions, objs, conc))
  }

  // ---------------------------------------------------------------------
  // The three plotted points of a sample

  /** The point with weights `a`, `b` and `1 - a - b` on the corners `u`, `v` and `w`. */
  function Barycentric(a: real, b: real, u: Point, v: Point, w: Point): Point {
    Point(a * u.x + b * v.x + (1.0 - a - b) * w.x, a * u.y + b * v.y + (1.0 - a - b) * w.y)
  }

  /** Corners of the cation triangle: Ca bottom left, Mg at the apex, Na + K bottom right. */
  const CalciumCorner: Point := Point(CationTranslateX, BaseLineY)
  function MagnesiumCorner(r: real): Point {
    Point(CationTranslateX + TriangleWidth / 2.0, BaseLineY - TriangleHeight(r))
  }
  const SodiumPotassiumCorner: Point := Point(CationTranslateX + TriangleWidth, BaseLineY)

  /** Inside (or on) the upright equilateral triangle whose base starts at `left` on the base line. */
  predicate InTriangle(pt: Point, left: real, r: real) {
    pt.y <= BaseLineY
    && BaseLineY - pt.y <= r * (pt.x - left)
    && BaseLineY - pt.y <= r * (left + TriangleWidth - pt.x)
  }

  /**
   * `sin(pi/3) * p * triangleWidth`, the height of a point whose share of the
   * apex ion is `p`, and that height divided by `tan(pi/3)`.
   */
  lemma Rise(r: real, p: real)
    requires r != 0.0
    ensures (r / 2.0) * p * TriangleWidth == r * (150.0 * p)
    ensures ((r / 2.0) * p * TriangleWidth) / r == 150.0 * p
  {
    var h := (r / 2.0) * p * TriangleWidth;
    assert h == r * (150.0 * p);
    assert (r * (150.0 * p)) / r == 150.0 * p;
  }

  /** The cation data point drawn from the Ca and Mg proportions. */
  function CationPoint(pCa: real, pMg: real, r: real): (pt: Point)
    requires IsRootThree(r)
    ensures pt.x == CationTranslateX + (1.0 - pCa) * TriangleWidth - 150.0 * pMg
    ensures pt.y == BaseLineY - r * (150.0 * pMg)
  {
    Rise(r, pMg);
    var offsetY := (r / 2.0) * pMg * TriangleWidth;
    var baseOffsetX := (1.0 - pCa) * TriangleWidth;
    var offsetX := baseOffsetX - offsetY / r;
    Point(CationTranslateX + offsetX, TriangleTranslateY + TriangleBaseY - offsetY)
  }

  /** The cation point is the barycentric combination of the corners with weights pCa, pMg and the Na + K rest. */
  lemma CationPointBarycentric(pCa: real, pMg: real, r: real)
    requires IsRootThree(r)
    ensures CationPoint(pCa, pMg, r) == Barycentric(pCa, pMg, CalciumCorner, MagnesiumCorner(r), SodiumPotassiumCorner)
  {
    var b := Barycentric(pCa, pMg, CalciumCorner, MagnesiumCorner(r), SodiumPotassiumCorner);
    assert pMg * (BaseLineY - TriangleHeight(r)) == pMg * BaseLineY - r * (150.0 * pMg);
    assert b.y == BaseLineY - r * (150.0 * pMg);
  }

  /** Proportions that are non-negative and do not exceed one in total land in the cation triangle. */
  lemma CationPointInTriangle(pCa: real, pMg: real, r: real)
    requires IsRootThree(r) && 0.0 <= pCa && 0.0 <= pMg && pCa + pMg <= 1.0
    ensures InTriangle(CationPoint(pCa, pMg, r), CationTranslateX, r)
  {
    var pt := CationPoint(pCa, pMg, r);
    RiseInTriangle(pt, CationTranslateX, r, 150.0 * pMg);
  }

  /**
   * A point `r * h` above the base line is in the triangle starting at `left`
   * exactly when `h` is non-negative and at most its distance to either side.
   */
  lemma RiseInTriangle(pt: Point, left: real, r: real, h: real)
    requires r > 0.0 && pt.y == BaseLineY - r * h
    ensures InTriangle(pt, left, r)
      <==> 0.0 <= h && h <= pt.x - left && h <= left + TriangleWidth - pt.x
  {
    ScaledOrder(r, 0.0, h);
    ScaledOrder(r, h, pt.x - left);
    ScaledOrder(r, h, left + TriangleWidth - pt.x);
  }

  lemma ScaledOrder(r: real, x: real, y: real)
    requires r > 0.0
    ensures x <= y <==> r * x <= r * y
  {
    if x <= y {
      ScaledAtMost(r, x, y);
    } else {
      ScaledLess(r, y, x);
    }
  }

  /** Different proportions give different cation points. */
  lemma CationPointInjective(pCa: real, pMg: real, qCa: real, qMg: real, r: real)
    requires IsRootThree(r) && CationPoint(pCa, pMg, r) == CationPoint(qCa, qMg, r)
    ensures pCa == qCa && pMg == qMg
  {
    CancelFactor(r, 150.0 * pMg, 150.0 * qMg);
  }

  lemma ScaledAtMost(r: real, x: real, y: real)
    requires r > 0.0 && x <= y
    ensures r * x <= r * y
  {
  }

  lemma CancelFactor(r: real, x: real, y: real)
    requires r != 0.0 && r * x == r * y
    ensures x == y
  {
  }

  /**
   * The anion data point drawn from the Cl and SO4 proportions, as the
   * diagram computes it: the SO4 share moves the point left from the Cl
   * position along the base, where the triangle's SO4 axis would move it right.
   */
  function AnionPoint(pCl: real, pSO4: real, r: real): (pt: Point)
    requires IsRootThree(r)
    ensures pt.x == AnionTranslateX + pCl * TriangleWidth - 150.0 * pSO4
    ensures pt.y == BaseLineY - r * (150.0 * pSO4)
  {
    Rise(r, pSO4);
    var offsetY := (r / 2.0) * pSO4 * TriangleWidth;
    var baseOffsetX := pCl * TriangleWidth;
    var offsetX := baseOffsetX - offsetY / r;
    Point(AnionTranslateX + offsetX, TriangleTranslateY + TriangleBaseY - offsetY)
  }

  /** Corners of the anion triangle as its axes are labelled: CO3 + HCO3 bottom left, SO4 at the apex, Cl bottom right. */
  const CarbonateCorner: Point := Point(AnionTranslateX, BaseLineY)
  function SulfateCorner(r: real): Point {
    Point(AnionTranslateX + TriangleWidth / 2.0, BaseLineY - TriangleHeight(r))
  }
  const ChlorideCorner: Point := Point(AnionTranslateX + TriangleWidth, BaseLineY)

  /**
   * The anion point the triangle's axes call for: the barycentric combination
   * of the Cl, SO4 and CO3 + HCO3 corners with weights pCl, pSO4 and the rest,
   * the same construction as the cation point's.
   */
  function IntendedAnionPoint(pCl: real, pSO4: real, r: real): (pt: Point)
    requires IsRootThree(r)
    ensures pt.x == AnionTranslateX + pCl * TriangleWidth + 150.0 * pSO4
    ensures pt.y == BaseLineY - r * (150.0 * pSO4)
  {
    assert pSO4 * (BaseLineY - TriangleHeight(r)) == pSO4 * BaseLineY - r * (150.0 * pSO4);
    Barycentric(pCl, pSO4, ChlorideCorner, SulfateCorner(r), CarbonateCorner)
  }

  /** Proportions that are non-negative and do not exceed one in total put the intended point in the anion triangle. */
  lemma IntendedAnionPointInTriangle(pCl: real, pSO4: real, r: real)
    requires IsRootThree(r) && 0.0 <= pCl && 0.0 <= pSO4 && pCl + pSO4 <= 1.0
    ensures InTriangle(IntendedAnionPoint(pCl, pSO4, r), AnionTranslateX, r)
  {
    var pt := IntendedAnionPoint(pCl, pSO4, r);
    RiseInTriangle(pt, AnionTranslateX, r, 150.0 * pSO4);
  }

  /** The drawn anion point is the intended one, shifted left by the SO4 share of the triangle's width. */
  lemma AnionPointShifted(pCl: real, pSO4: real, r: real)
    requires IsRootThree(r)
    ensures var c := IntendedAnionPoint(pCl, pSO4, r);
      AnionPoint(pCl, pSO4, r) == Point(c.x - pSO4 * TriangleWidth, c.y)
  {
  }

  /** The drawn and the intended anion points agree exactly when the sample has no SO4. */
  lemma AnionPointIntendedIff(pCl: real, pSO4: real, r: real)
    requires IsRootThree(r)
    ensures AnionPoint(pCl, pSO4, r) == IntendedAnionPoint(pCl, pSO4, r) <==> pSO4 == 0.0
  {
    AnionPointShifted(pCl, pSO4, r);
  }

  /**
   * For proportions in [0, 1] whose Cl and SO4 shares do not exceed one in
   * total, the anion point lies in its triangle exactly when the SO4 share is
   * at most the Cl share.
   */
  lemma AnionPointInTriangleIff(pCl: real, pSO4: real, r: real)
    requires IsRootThree(r) && 0.0 <= pCl && 0.0 <= pSO4 && pCl + pSO4 <= 1.0
    ensures InTriangle(AnionPoint(pCl, pSO4, r), AnionTranslateX, r) <==> pSO4 <= pCl
  {
    var pt := AnionPoint(pCl, pSO4, r);
    RiseInTriangle(pt, AnionTranslateX, r, 150.0 * pSO4);
  }

  lemma ScaledLess(r: real, x: real, y: real)
    requires r > 0.0 && x < y
    ensures r * x < r * y
  {
  }

  /** A sample of pure sulfate is drawn half a triangle width left of the anion triangle. */
  lemma PureSulfateOutsideTriangle(r: real)
    requires IsRootThree(r)
    ensures AnionPoint(0.0, 1.0, r).x == AnionTranslateX - TriangleWidth / 2.0
    ensures !InTriangle(AnionPoint(0.0, 1.0, r), AnionTranslateX, r)
  {
    AnionPointInTriangleIff(0.0, 1.0, r);
  }

  /** Centre of the diamond field: the midpoint of its left and right vertices. */
  function DiamondCentre(r: real): Point {
    Point(DiamondFieldTranslateX + TriangleWidth / 2.0, DiamondFieldTranslateY(r) + TriangleBaseY)
  }

  /** Inside (or on) the diamond: a rhombus of half-width W/2 and half-height h around its centre. */
  predicate InDiamond(pt: Point, r: real) {
    var c := DiamondCentre(r);
    r * AbsReal(pt.x - c.x) + AbsReal(pt.y - c.y) <= TriangleHeight(r)
  }

  function AbsReal(x: real): (a: real)
    ensures a >= 0.0 && (a == x || a == -x)
  {
    if x < 0.0 then -x else x
  }

  /**
   * The diamond data point, from the Na + K position `a` along the cation
   * base and the Cl position `b` along the anion base.
   */
  function DiamondPoint(pCa: real, pMg: real, pCl: real, r: real): (pt: Point)
    requires IsRootThree(r)
    ensures pt.x == DiamondCentre(r).x + ((1.0 - pCa - pMg) * TriangleWidth + pCl * TriangleWidth - TriangleWidth) / 2.0
    ensures pt.y == DiamondCentre(r).y + r * (((1.0 - pCa - pMg) * TriangleWidth - pCl * TriangleWidth) / 2.0)
  {
    Rise(r, pMg);
    var cationOffsetY := (r / 2.0) * pMg * TriangleWidth;
    var cationBaseOffsetX := (1.0 - pCa) * TriangleWidth;
    var a := cationBaseOffsetX - ((cationOffsetY / r) * 2.0);
    var b := pCl * TriangleWidth;
    var offsetX := (a + b) / 2.0;
    var offsetY := r * ((offsetX + (TriangleWidth / 2.0)) - a);
    DiamondRise(r, a, b, offsetX, offsetY);
    Point(DiamondFieldTranslateX + offsetX, DiamondFieldTranslateY(r) + TriangleBaseY + TriangleHeight(r) - offsetY)
  }

  /**
   * The diamond's anion coordinate `b = pCl * W` is where the drawn anion
   * point lands on the base when projected along the anion triangle's right
   * side; projecting the intended point that way gives (pCl + pSO4) * W, the
   * SO4 + Cl share that the diamond's axis is labelled with.
   */
  lemma AnionBaseProjection(pCl: real, pSO4: real, r: real)
    requires IsRootThree(r)
    ensures var pt := AnionPoint(pCl, pSO4, r);
      pt.x + (BaseLineY - pt.y) / r - AnionTranslateX == pCl * TriangleWidth
    ensures var c := IntendedAnionPoint(pCl, pSO4, r);
      c.x + (BaseLineY - c.y) / r - AnionTranslateX == (pCl + pSO4) * TriangleWidth
  {
    var h := 150.0 * pSO4;
    assert (r * h) / r == h;
    assert BaseLineY - AnionPoint(pCl, pSO4, r).y == r * h;
    assert BaseLineY - IntendedAnionPoint(pCl, pSO4, r).y == r * h;
  }

  /** The diamond point's height over its lower vertex, measured from the centre. */
  lemma DiamondRise(r: real, a: real, b: real, offsetX: real, offsetY: real)
    requires offsetX == (a + b) / 2.0 && offsetY == r * ((offsetX + (TriangleWidth / 2.0)) - a)
    ensures TriangleHeight(r) - offsetY == r * ((a - b) / 2.0)
  {
    assert (offsetX + (TriangleWidth / 2.0)) - a == TriangleWidth / 2.0 - (a - b) / 2.0;
  }

  /** The four extreme samples reach the diamond's four vertices. */
  lemma DiamondVertices(r: real)
    requires IsRootThree(r)
    ensures DiamondPoint(1.0, 0.0, 0.0, r) == Point(DiamondFieldTranslateX, DiamondCentre(r).y)
    ensures DiamondPoint(0.0, 0.0, 1.0, r) == Point(DiamondFieldTranslateX + TriangleWidth, DiamondCentre(r).y)
    ensures DiamondPoint(0.0, 0.0, 0.0, r) == Point(DiamondCentre(r).x, DiamondCentre(r).y + TriangleHeight(r))
    ensures DiamondPoint(1.0, 0.0, 1.0, r) == Point(DiamondCentre(r).x, DiamondCentre(r).y - TriangleHeight(r))
  {
  }

  /** Na + K and Cl shares in [0, 1] put the diamond point in the diamond. */
  lemma DiamondPointInDiamond(pCa: real, pMg: real, pCl: real, r: real)
    requires IsRootThree(r)
    requires 0.0 <= 1.0 - pCa - pMg <= 1.0 && 0.0 <= pCl <= 1.0
    ensures InDiamond(DiamondPoint(pCa, pMg, pCl, r), r)
  {
    var a, b := (1.0 - pCa - pMg) * TriangleWidth, pCl * TriangleWidth;
    var u, v := (a + b - TriangleWidth) / 2.0, (a - b) / 2.0;
    assert AbsReal(u) + AbsReal(v) <= TriangleWidth / 2.0;
    InDiamondOf(DiamondPoint(pCa, pMg, pCl, r), r, u, v);
  }

  /** A point `u` across and `r * v` down from the centre, with |u| + |v| at most W/2, is in the diamond. */
  lemma InDiamondOf(pt: Point, r: real, u: real, v: real)
    requires r > 0.0
    requires pt.x - DiamondCentre(r).x == u && pt.y - DiamondCentre(r).y == r * v
    requires AbsReal(u) + AbsReal(v) <= TriangleWidth / 2.0
    ensures InDiamond(pt, r)
  {
    var c := DiamondCentre(r);
    var au, av := AbsReal(u), AbsReal(v);
    AbsScaled(r, v, pt.y - c.y);
    assert AbsReal(pt.x - c.x) == au && AbsReal(pt.y - c.y) == r * av;
    ScaledAtMost(r, au + av, TriangleWidth / 2.0);
    Distribute(r, au, av);
    assert r * au + r * av <= TriangleHeight(r);
  }

  lemma AbsScaled(r: real, v: real, y: real)
    requires r > 0.0 && y == r * v
    ensures AbsReal(y) == r * AbsReal(v)
  {
    if v < 0.0 {
      ScaledLess(r, v, 0.0);
    } else {
      ScaledAtMost(r, 0.0, v);
    }
  }

  lemma Distribute(r: real, x: real, y: real)
    ensures r * (x + y) == r * x + r * y
  {
  }

  /** Different Na + K or Cl shares give different diamond points. */
  lemma DiamondPointInjective(pCa: real, pMg: real, pCl: real, qCa: real, qMg: real, qCl: real, r: real)
    requires IsRootThree(r) && DiamondPoint(pCa, pMg, pCl, r) == DiamondPoint(qCa, qMg, qCl, r)
    ensures pCa + pMg == qCa + qMg && pCl == qCl
  {
    var a, b := (1.0 - pCa - pMg) * TriangleWidth, pCl * TriangleWidth;
    var a', b' := (1.0 - qCa - qMg) * TriangleWidth, qCl * TriangleWidth;
    CancelFactor(r, (a - b) / 2.0, (a' - b') / 2.0);
  }

  // ---------------------------------------------------------------------
  // One record: plotConcentrations

  /** A `circle.data-point`: its centre and the hue of its fill colour. */
  datatype DataPoint = DataPoint(at: Point, hue: nat)

  /** The cation, anion and diamond points drawn from a `meqL` dictionary, in drawing order. */
  function PointsOf(ions: seq<string>, objs: map<string, Ion>, meq: map<string, real>, hue: nat, r: real): (pts: seq<DataPoint>)
    requires Drawable(ions, objs, meq) && IsRootThree(r)
    ensures |pts| == 3 && forall k :: 0 <= k < 3 ==> pts[k].hue == hue
  {
    var p := ProportionsOf(ions, objs, meq);
    [DataPoint(CationPoint(p["Ca"], p["Mg"], r), hue),
     DataPoint(AnionPoint(p["Cl"], p["SO4"], r), hue),
     DataPoint(DiamondPoint(p["Ca"], p["Mg"], p["Cl"], r), hue)]
  }

  /** The three points that plotConcentrations draws for one sample. */
  function RecordPoints(ions: seq<string>, objs: map<string, Ion>, conc: Conc, hue: nat, r: real): (pts: seq<DataPoint>)
    requires Plottable(ions, objs, conc) && IsRootThree(r)
    ensures |pts| == 3 && forall k :: 0 <= k < 3 ==> pts[k].hue == hue
  {
    PointsOf(ions, objs, EquivalentsOf(ions, objs, conc), hue, r)
  }

  /** Terms scaled on a list of symbols are scaled on any selection from it. */
  lemma ScaledOnSelection(sel: seq<string>, syms: seq<string>, m: map<string, real>, m': map<string, real>, k: real)
    requires forall j :: 0 <= j < |sel| ==> sel[j] in syms
    requires Keyed(syms, m) && Keyed(syms, m') && forall i :: 0 <= i < |syms| ==> m'[syms[i]] == k * m[syms[i]]
    ensures Keyed(sel, m) && Keyed(sel, m')
    ensures forall j :: 0 <= j < |sel| ==> m'[sel[j]] == k * m[sel[j]]
  {
    forall j | 0 <= j < |sel| ensures sel[j] in m && sel[j] in m' && m'[sel[j]] == k * m[sel[j]] {
      var i :| 0 <= i < |syms| && syms[i] == sel[j];
    }
  }

  /**
   * Multiplying every equivalent by the same non-zero factor leaves the
   * `proportion` dictionary as it was.
   */
  lemma ProportionsOfScaled(ions: seq<string>, objs: map<string, Ion>, m: map<string, real>,
                            m': map<string, real>, k: real)
    requires Drawable(ions, objs, m) && k != 0.0
    requires Keyed(ions, m) && Keyed(ions, m') && forall i :: 0 <= i < |ions| ==> m'[ions[i]] == k * m[ions[i]]
    ensures Drawable(ions, objs, m')
    ensures ProportionsOf(ions, objs, m') == ProportionsOf(ions, objs, m)
  {
    var cations, anions := SelectBySign(ions, objs, true), SelectBySign(ions, objs, false);
    ScaledOnSelection(cations, ions, m, m', k);
    ScaledOnSelection(anions, ions, m, m', k);
    SelectionsDisjoint(ions, objs);
    ProportionsScaledEqual(cations, anions, m, m', k);
  }

  /**
   * Scaling every concentration of a sample by the same non-zero factor keeps
   * it plottable and leaves its `proportion` dictionary as it was.
   */
  lemma SampleProportionsScaled(ions: seq<string>, objs: map<string, Ion>, conc: Conc, k: real)
    requires Plottable(ions, objs, conc) && k != 0.0
    ensures Plottable(ions, objs, Scale(conc, k))
    ensures ProportionsOf(ions, objs, EquivalentsOf(ions, objs, Scale(conc, k)))
         == ProportionsOf(ions, objs, EquivalentsOf(ions, objs, conc))
  {
    EquivalentsScaled(ions, objs, conc, k);
    ProportionsOfScaled(ions, objs, EquivalentsOf(ions, objs, conc), EquivalentsOf(ions, objs, Scale(conc, k)), k);
  }

  /**
   * Scaling every concentration of a sample by the same non-zero factor
   * leaves all three plotted points where they were.
   */
  lemma RecordPointsScaleInvariant(ions: seq<string>, objs: map<string, Ion>, conc: Conc, k: real, hue: nat, r: real)
    requires Plottable(ions, objs, conc) && IsRootThree(r) && k != 0.0
    ensures Plottable(ions, objs, Scale(conc, k))
    ensures RecordPoints(ions, objs, Scale(conc, k), hue, r) == RecordPoints(ions, objs, conc, hue, r)
  {
    SampleProportionsScaled(ions, objs, conc, k);
  }

  /** Two different terms of a sum of non-negative terms add up to at most the sum. */
  lemma TwoTermsAtMostSum(syms: seq<string>, m: map<string, real>, i: nat, j: nat)
    requires Keyed(syms, m) && forall k :: 0 <= k < |syms| ==> m[syms[k]] >= 0.0
    requires i < j < |syms|
    ensures m[syms[i]] + m[syms[j]] <= SumOver(syms, m)
  {
    TwoTermsAtMostPrefix(syms, m, i, j, |syms|);
  }

  lemma {:induction false} TwoTermsAtMostPrefix(syms: seq<string>, m: map<string, real>, i: nat, j: nat, n: nat)
    requires Keyed(syms, m) && forall k :: 0 <= k < |syms| ==> m[syms[k]] >= 0.0
    requires i < j < n <= |syms|
    ensures m[syms[i]] + m[syms[j]] <= SumPrefix(syms, m, n)
  {
    if j < n - 1 {
      TwoTermsAtMostPrefix(syms, m, i, j, n - 1);
    } else {
      TermAtMostPrefix(syms, m, i, n - 1);
    }
  }

  /**
   * Shares that are non-negative and sum to one: any two different ions of
   * the side have shares in [0, 1] whose sum is at most one.
   */
  lemma SharesOfTwo(sel: seq<string>, p: map<string, real>, a: string, b: string)
    requires Keyed(sel, p) && forall k :: 0 <= k < |sel| ==> p[sel[k]] >= 0.0
    requires SumOver(sel, p) == 1.0 && a in sel && b in sel && a != b
    ensures 0.0 <= p[a] && 0.0 <= p[b] && p[a] + p[b] <= 1.0
  {
    var i :| 0 <= i < |sel| && sel[i] == a;
    var j :| 0 <= j < |sel| && sel[j] == b;
    if i < j {
      TwoTermsAtMostSum(sel, p, i, j);
    } else {
      TwoTermsAtMostSum(sel, p, j, i);
    }
  }

  /** Non-negative concentrations give non-negative equivalents. */
  lemma EquivalentsNonNegative(ions: seq<string>, objs: map<string, Ion>, conc: Conc)
    requires PositiveWeights(objs) && forall s :: s in ions ==> s in objs && s in conc
    requires forall s :: s in ions ==> conc[s] >= 0.0
    ensures forall i :: 0 <= i < |ions| ==> EquivalentsOf(ions, objs, conc)[ions[i]] >= 0.0
  {
    EquivalentsValues(ions, objs, conc);
    forall i | 0 <= i < |ions|
      ensures EquivalentsOf(ions, objs, conc)[ions[i]] >= 0.0
    {
      MeqLSign(objs[ions[i]], conc[ions[i]]);
    }
  }

  /** A selection keeps the non-negativity of the terms it selects. */
  lemma SelectedNonNegative(ions: seq<string>, objs: map<string, Ion>, m: map<string, real>, positive: bool)
    requires (forall s :: s in ions ==> s in objs) && Keyed(ions, m)
    requires forall i :: 0 <= i < |ions| ==> m[ions[i]] >= 0.0
    ensures forall k :: 0 <= k < |SelectBySign(ions, objs, positive)| ==>
      m[SelectBySign(ions, objs, positive)[k]] >= 0.0
  {
    var sel := SelectBySign(ions, objs, positive);
    forall k | 0 <= k < |sel|
      ensures m[sel[k]] >= 0.0
    {
      var i :| 0 <= i < |ions| && ions[i] == sel[k];
    }
  }

  /**
   * For a sample with non-negative concentrations, the Ca and Mg shares and
   * the Cl and SO4 shares each lie in [0, 1] and add up to at most one.
   */
  lemma SampleShares(ions: seq<string>, objs: map<string, Ion>, conc: Conc)
    requires Plottable(ions, objs, conc) && forall s :: s in ions ==> conc[s] >= 0.0
    ensures var p := ProportionsOf(ions, objs, EquivalentsOf(ions, objs, conc));
      && 0.0 <= p["Ca"] && 0.0 <= p["Mg"] && p["Ca"] + p["Mg"] <= 1.0
      && 0.0 <= p["Cl"] && 0.0 <= p["SO4"] && p["Cl"] + p["SO4"] <= 1.0
  {
    var meq := EquivalentsOf(ions, objs, conc);
    var cations, anions := SelectBySign(ions, objs, true), SelectBySign(ions, objs, false);
    var p := ProportionsOf(ions, objs, meq);
    assert p == Proportions(cations, anions, meq);
    DrawnIonsSelected(ions, objs);
    SelectionsDisjoint(ions, objs);
    EquivalentsNonNegative(ions, objs, conc);
    SelectedNonNegative(ions, objs, meq, true);
    SelectedNonNegative(ions, objs, meq, false);
    ProportionsSumToOne(cations, anions, meq);
    ProportionsInUnitRange(cations, anions, meq);
    SharesOfTwo(cations, p, "Ca", "Mg");
    SharesOfTwo(anions, p, "Cl", "SO4");
  }

  /**
   * For a sample with non-negative concentrations the cation point lies in
   * the cation triangle and the diamond point in the diamond, while the
   * anion point lies in the anion triangle only when the SO4 share is at
   * most the Cl share.
   */
  lemma RecordPointsInFields(ions: seq<string>, objs: map<string, Ion>, conc: Conc, hue: nat, r: real)
    requires IsRootThree(r) && Plottable(ions, objs, conc) && forall s :: s in ions ==> conc[s] >= 0.0
    ensures InTriangle(RecordPoints(ions, objs, conc, hue, r)[0].at, CationTranslateX, r)
    ensures InDiamond(RecordPoints(ions, objs, conc, hue, r)[2].at, r)
    ensures var p := ProportionsOf(ions, objs, EquivalentsOf(ions, objs, conc));
      InTriangle(RecordPoints(ions, objs, conc, hue, r)[1].at, AnionTranslateX, r) <==> p["SO4"] <= p["Cl"]
  {
    var p := ProportionsOf(ions, objs, EquivalentsOf(ions, objs, conc));
    SampleShares(ions, objs, conc);
    CationPointInTriangle(p["Ca"], p["Mg"], r);
    AnionPointInTriangleIff(p["Cl"], p["SO4"], r);
    DiamondPointInDiamond(p["Ca"], p["Mg"], p["Cl"], r);
  }
}
