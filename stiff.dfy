/**
 * The data and geometry of a Stiff diagram (stiff/js/stiff.js): ion groups
 * with their summed milliequivalents, the cation and anion sides, the common
 * scale, the points of each side and the polygon through them.
 *
 * JavaScript numbers are modelled as exact reals. A group's symbols are
 * looked up with `Ions.Get`; the concentrations are a map from symbol to mg/L.
 */
module Stiff {
  import opened Wrappers
  import opened Ions
  import opened Geometry

  /** `{ions: ionObjs, meqL: meqL}`: a group's ion objects and summed milliequivalents. */
  datatype IonGroup = IonGroup(ions: seq<Ion>, meqL: real)

  // Layout constants of the diagram.
  const StiffWidth: real := 600.0
  const StiffHeight: real := 500.0
  /** Width of one half of the symmetrical horizontal axis. */
  const HorzAxisWidth: real := 175.0
  const HorzAxisY: real := 120.0
  const VertAxisX: real := StiffWidth / 2.0
  const VertAxisHeight: real := 330.0
  const VertAxisPaddingTop: real := 0.2
  const VertAxisPaddingBottom: real := 0.225
  const PointLabelOffsetX: real := 15.0
  const PointLabelOffsetY: real := 5.0

  /** The horizontal multipliers the cation and anion sides are drawn with. */
  const CationSide: real := -1.0
  const AnionSide: real := 1.0

  /** The y of the first row, and the height over which the rows are spread. */
  const PaddedOffsetY: real := HorzAxisY + VertAxisPaddingTop * VertAxisHeight
  const InnerHeight: real := VertAxisHeight * (1.0 - VertAxisPaddingTop - VertAxisPaddingBottom)

  // ---------------------------------------------------------------------------
  // Ion groups
  // ---------------------------------------------------------------------------

  /** Every symbol of the group is one IonFactory.get knows. */
  predicate Known(syms: seq<string>) {
    forall i :: 0 <= i < |syms| ==> Get(syms[i]).Some?
  }

  /** Every symbol of the group has a concentration. */
  predicate Measured(syms: seq<string>, conc: map<string, real>) {
    forall i :: 0 <= i < |syms| ==> syms[i] in conc
  }

  /** Every ion can be converted to milliequivalents with the given concentrations. */
  predicate Weighed(ions: seq<Ion>, conc: map<string, real>) {
    forall i :: 0 <= i < |ions| ==> ions[i].formulaWeight != 0.0 && ions[i].symbol in conc
  }

  /** The group's ion objects, one IonFactory.get per symbol. */
  function GroupIons(syms: seq<string>): (ions: seq<Ion>)
    requires Known(syms)
    ensures |ions| == |syms|
  {
    GroupIonsPrefix(syms, |syms|)
  }

  function GroupIonsPrefix(syms: seq<string>, n: nat): (ions: seq<Ion>)
    requires n <= |syms| && Known(syms)
    ensures |ions| == n
  {
    if n == 0 then [] else GroupIonsPrefix(syms, n - 1) + [Get(syms[n - 1]).value]
  }

  /** Entry i of the ion objects is what get returns for symbol i. */
  lemma GroupIonsLookedUp(syms: seq<string>)
    requires Known(syms)
    ensures forall i :: 0 <= i < |syms| ==> GroupIons(syms)[i] == Get(syms[i]).value
  {
    GroupIonsPrefixLookedUp(syms, |syms|);
  }

  lemma {:induction false} GroupIonsPrefixLookedUp(syms: seq<string>, n: nat)
    requires n <= |syms| && Known(syms)
    ensures forall i :: 0 <= i < n ==> GroupIonsPrefix(syms, n)[i] == Get(syms[i]).value
  {
    if n > 0 {
      GroupIonsPrefixLookedUp(syms, n - 1);
    }
  }

  /** The reduce that sums getMeqL over the group's ions, starting from 0. */
  function GroupMeqL(ions: seq<Ion>, conc: map<string, real>): real
    requires Weighed(ions, conc)
  {
    GroupMeqLPrefix(ions, conc, |ions|)
  }

  function GroupMeqLPrefix(ions: seq<Ion>, conc: map<string, real>, n: nat): real
    requires n <= |ions| && Weighed(ions, conc)
  {
    if n == 0 then 0.0
    else GroupMeqLPrefix(ions, conc, n - 1) + MeqL(ions[n - 1], conc[ions[n - 1].symbol])
  }

  /** A group of one ion has that ion's milliequivalents. */
  lemma GroupMeqLSingle(ion: Ion, conc: map<string, real>)
    requires ion.formulaWeight != 0.0 && ion.symbol in conc
    ensures Weighed([ion], conc)
    ensures GroupMeqL([ion], conc) == MeqL(ion, conc[ion.symbol])
  {
    assert [ion][0] == ion;
    assert GroupMeqLPrefix([ion], conc, 0) == 0.0;
  }

  /** Adding an ion to a group adds its milliequivalents. */
  lemma GroupMeqLAppend(ions: seq<Ion>, ion: Ion, conc: map<string, real>)
    requires Weighed(ions, conc) && ion.formulaWeight != 0.0 && ion.symbol in conc
    ensures Weighed(ions + [ion], conc)
    ensures GroupMeqL(ions + [ion], conc) == GroupMeqL(ions, conc) + MeqL(ion, conc[ion.symbol])
  {
    assert forall i :: 0 <= i < |ions| ==> (ions + [ion])[i] == ions[i];
    GroupMeqLPrefixAgree(ions + [ion], ions, conc, |ions|);
  }

  /** The partial sums depend only on the ions summed so far. */
  lemma {:induction false} GroupMeqLPrefixAgree(s: seq<Ion>, t: seq<Ion>, conc: map<string, real>, n: nat)
    requires n <= |s| && n <= |t| && Weighed(s, conc) && Weighed(t, conc)
    requires forall i :: 0 <= i < n ==> s[i] == t[i]
    ensures GroupMeqLPrefix(s, conc, n) == GroupMeqLPrefix(t, conc, n)
  {
    if n > 0 {
      GroupMeqLPrefixAgree(s, t, conc, n - 1);
    }
  }

  /** With positive formula weights and non-negative concentrations the sum is non-negative. */
  lemma GroupMeqLNonNegative(ions: seq<Ion>, conc: map<string, real>)
    requires Weighed(ions, conc)
    requires forall i :: 0 <= i < |ions| ==> ions[i].formulaWeight > 0.0 && conc[ions[i].symbol] >= 0.0
    ensures GroupMeqL(ions, conc) >= 0.0
  {
    GroupMeqLPrefixNonNegative(ions, conc, |ions|);
  }

  lemma {:induction false} GroupMeqLPrefixNonNegative(ions: seq<Ion>, conc: map<string, real>, n: nat)
    requires n <= |ions| && Weighed(ions, conc)
    requires forall i :: 0 <= i < |ions| ==> ions[i].formulaWeight > 0.0 && conc[ions[i].symbol] >= 0.0
    ensures GroupMeqLPrefix(ions, conc, n) >= 0.0
  {
    if n > 0 {
      GroupMeqLPrefixNonNegative(ions, conc, n - 1);
      MeqLSign(ions[n - 1], conc[ions[n - 1].symbol]);
    }
  }

  /** Scaling every concentration by k scales the group's sum by k. */
  lemma GroupMeqLScaled(ions: seq<Ion>, conc: map<string, real>, conc': map<string, real>, k: real)
    requires Weighed(ions, conc) && Weighed(ions, conc')
    requires forall i :: 0 <= i < |ions| ==> conc'[ions[i].symbol] == k * conc[ions[i].symbol]
    ensures GroupMeqL(ions, conc') == k * GroupMeqL(ions, conc)
  {
    GroupMeqLPrefixScaled(ions, conc, conc', k, |ions|);
  }

  lemma {:induction false} GroupMeqLPrefixScaled(ions: seq<Ion>, conc: map<string, real>, conc': map<string, real>, k: real, n: nat)
    requires n <= |ions| && Weighed(ions, conc) && Weighed(ions, conc')
    requires forall i :: 0 <= i < |ions| ==> conc'[ions[i].symbol] == k * conc[ions[i].symbol]
    ensures GroupMeqLPrefix(ions, conc', n) == k * GroupMeqLPrefix(ions, conc, n)
  {
    if n > 0 {
      var ion := ions[n - 1];
      GroupMeqLPrefixScaled(ions, conc, conc', k, n - 1);
      MeqLLinear(ion, k, conc[ion.symbol]);
      var a, b := GroupMeqLPrefix(ions, conc, n - 1), MeqL(ion, conc[ion.symbol]);
      assert k * a + k * b == k * (a + b);
    }
  }

  /** A group built from its symbols: the ion objects and their summed milliequivalents. */
  function MakeGroup(syms: seq<string>, conc: map<string, real>): (g: IonGroup)
    requires Known(syms) && Measured(syms, conc)
    ensures |g.ions| == |syms|
  {
    var ions := GroupIons(syms);
    GroupIonsLookedUp(syms);
    IonGroup(ions, GroupMeqL(ions, conc))
  }

  /** The group's ions carry the group's symbols, in order. */
  lemma MakeGroupSymbols(syms: seq<string>, conc: map<string, real>)
    requires Known(syms) && Measured(syms, conc)
    ensures forall i :: 0 <= i < |syms| ==> MakeGroup(syms, conc).ions[i].symbol == syms[i]
    ensures forall i :: 0 <= i < |syms| ==> MakeGroup(syms, conc).ions[i].formulaWeight > 0.0
    ensures forall i :: 0 <= i < |syms| ==> MakeGroup(syms, conc).ions[i].valence != 0
  {
    GroupIonsLookedUp(syms);
  }

  /** Every group resolves: its symbols are known and have concentrations. */
  predicate Resolvable(groups: seq<seq<string>>, conc: map<string, real>) {
    forall i :: 0 <= i < |groups| ==> Known(groups[i]) && Measured(groups[i], conc)
  }

  /** `ionGroups`: one group per list of symbols, in order. */
  function IonGroups(groups: seq<seq<string>>, conc: map<string, real>): (gs: seq<IonGroup>)
    requires Resolvable(groups, conc)
    ensures |gs| == |groups|
  {
    IonGroupsPrefix(groups, conc, |groups|)
  }

  function IonGroupsPrefix(groups: seq<seq<string>>, conc: map<string, real>, n: nat): (gs: seq<IonGroup>)
    requires n <= |groups| && Resolvable(groups, conc)
    ensures |gs| == n
  {
    if n == 0 then [] else IonGroupsPrefix(groups, conc, n - 1) + [MakeGroup(groups[n - 1], conc)]
  }

  /** Group i of `ionGroups` is built from symbol list i. */
  lemma IonGroupsAt(groups: seq<seq<string>>, conc: map<string, real>)
    requires Resolvable(groups, conc)
    ensures forall i :: 0 <= i < |groups| ==> IonGroups(groups, conc)[i] == MakeGroup(groups[i], conc)
  {
    IonGroupsPrefixAt(groups, conc, |groups|);
  }

  lemma {:induction false} IonGroupsPrefixAt(groups: seq<seq<string>>, conc: map<string, real>, n: nat)
    requires n <= |groups| && Resolvable(groups, conc)
    ensures forall i :: 0 <= i < n ==> IonGroupsPrefix(groups, conc, n)[i] == MakeGroup(groups[i], conc)
  {
    if n > 0 {
      IonGroupsPrefixAt(groups, conc, n - 1);
    }
  }

  /**
   * Each group's meqL is the sum of getMeqL over the ions its symbols name,
   * and is non-negative when the concentrations are.
   */
  lemma IonGroupsMeqL(groups: seq<seq<string>>, conc: map<string, real>, i: nat)
    requires Resolvable(groups, conc) && i < |groups|
    ensures IonGroups(groups, conc)[i].ions == GroupIons(groups[i])
    ensures Weighed(GroupIons(groups[i]), conc)
    ensures IonGroups(groups, conc)[i].meqL == GroupMeqL(GroupIons(groups[i]), conc)
    ensures (forall s :: s in conc ==> conc[s] >= 0.0) ==> IonGroups(groups, conc)[i].meqL >= 0.0
  {
    IonGroupsAt(groups, conc);
    MakeGroupSymbols(groups[i], conc);
    GroupIonsLookedUp(groups[i]);
    if forall s :: s in conc ==> conc[s] >= 0.0 {
      GroupMeqLNonNegative(GroupIons(groups[i]), conc);
    }
  }

  // ---------------------------------------------------------------------------
  // Cation and anion sides
  // ---------------------------------------------------------------------------

  /** Every group has a first ion, which the side filters read. */
  predicate Headed(gs: seq<IonGroup>) {
    forall i :: 0 <= i < |gs| ==> |gs[i].ions| > 0
  }

  /** The filter tests: positive valence of the first ion for cations, negative for anions. */
  predicate OnSide(g: IonGroup, cation: bool)
    requires |g.ions| > 0
  {
    if cation then g.ions[0].valence > 0 else g.ions[0].valence < 0
  }

  /** The groups that pass the side's filter test, in their original order. */
  function SideGroups(gs: seq<IonGroup>, cation: bool): (side: seq<IonGroup>)
    requires Headed(gs)
    ensures |side| <= |gs|
  {
    SidePrefix(gs, cation, |gs|)
  }

  function SidePrefix(gs: seq<IonGroup>, cation: bool, n: nat): (side: seq<IonGroup>)
    requires n <= |gs| && Headed(gs)
    ensures |side| <= n
  {
    if n == 0 then []
    else
      var prev := SidePrefix(gs, cation, n - 1);
      if OnSide(gs[n - 1], cation) then prev + [gs[n - 1]] else prev
  }

  /** `cationGroups` and `anionGroups`. */
  function CationGroups(gs: seq<IonGroup>): seq<IonGroup>
    requires Headed(gs)
  {
    SideGroups(gs, true)
  }

  function AnionGroups(gs: seq<IonGroup>): seq<IonGroup>
    requires Headed(gs)
  {
    SideGroups(gs, false)
  }

  /** The partial filters depend only on the groups filtered so far. */
  lemma {:induction false} SidePrefixAgree(s: seq<IonGroup>, t: seq<IonGroup>, cation: bool, n: nat)
    requires n <= |s| && n <= |t| && Headed(s) && Headed(t)
    requires forall i :: 0 <= i < n ==> s[i] == t[i]
    ensures SidePrefix(s, cation, n) == SidePrefix(t, cation, n)
  {
    if n > 0 {
      SidePrefixAgree(s, t, cation, n - 1);
    }
  }

  /** Filtering keeps the original order: the filter of a concatenation is the concatenation of the filters. */
  lemma SideGroupsAppend(a: seq<IonGroup>, b: seq<IonGroup>, cation: bool)
    requires Headed(a) && Headed(b)
    ensures Headed(a + b)
    ensures SideGroups(a + b, cation) == SideGroups(a, cation) + SideGroups(b, cation)
  {
    assert forall i :: 0 <= i < |a| ==> (a + b)[i] == a[i];
    SidePrefixAgree(a + b, a, cation, |a|);
    SidePrefixAppend(a, b, cation, |b|);
  }

  lemma {:induction false} SidePrefixAppend(a: seq<IonGroup>, b: seq<IonGroup>, cation: bool, k: nat)
    requires Headed(a) && Headed(b) && Headed(a + b) && k <= |b|
    requires SidePrefix(a + b, cation, |a|) == SideGroups(a, cation)
    ensures SidePrefix(a + b, cation, |a| + k) == SideGroups(a, cation) + SidePrefix(b, cation, k)
  {
    if k > 0 {
      SidePrefixAppend(a, b, cation, k - 1);
      assert (a + b)[|a| + k - 1] == b[k - 1];
      var sa, sb := SideGroups(a, cation), SidePrefix(b, cation, k - 1);
      assert sa + sb + [b[k - 1]] == sa + (sb + [b[k - 1]]);
    }
  }

  /** A lone group is kept exactly when it passes the test. */
  lemma SideGroupsSingle(g: IonGroup, cation: bool)
    requires |g.ions| > 0
    ensures SideGroups([g], cation) == if OnSide(g, cation) then [g] else []
  {
    assert SidePrefix([g], cation, 0) == [];
  }

  /** A group is on a side exactly when it is one of the groups and passes that side's test. */
  lemma SideGroupsMembers(gs: seq<IonGroup>, cation: bool, g: IonGroup)
    requires Headed(gs)
    ensures g in SideGroups(gs, cation) <==> g in gs && |g.ions| > 0 && OnSide(g, cation)
  {
    SidePrefixMembers(gs, cation, g, |gs|);
  }

  lemma {:induction false} SidePrefixMembers(gs: seq<IonGroup>, cation: bool, g: IonGroup, n: nat)
    requires n <= |gs| && Headed(gs)
    ensures g in SidePrefix(gs, cation, n) <==> g in gs[..n] && |g.ions| > 0 && OnSide(g, cation)
  {
    if n > 0 {
      SidePrefixMembers(gs, cation, g, n - 1);
      assert gs[..n] == gs[..n - 1] + [gs[n - 1]];
    }
  }

  /** When no first ion is neutral, every group lands on exactly one side. */
  lemma SidesPartition(gs: seq<IonGroup>)
    requires Headed(gs)
    requires forall i :: 0 <= i < |gs| ==> gs[i].ions[0].valence != 0
    ensures |CationGroups(gs)| + |AnionGroups(gs)| == |gs|
  {
    SidesPartitionPrefix(gs, |gs|);
  }

  lemma {:induction false} SidesPartitionPrefix(gs: seq<IonGroup>, n: nat)
    requires n <= |gs| && Headed(gs)
    requires forall i :: 0 <= i < |gs| ==> gs[i].ions[0].valence != 0
    ensures |SidePrefix(gs, true, n)| + |SidePrefix(gs, false, n)| == n
  {
    if n > 0 {
      SidesPartitionPrefix(gs, n - 1);
    }
  }

  /** The groups built from symbol lists of the table are all on a side. */
  lemma IonGroupsHeaded(groups: seq<seq<string>>, conc: map<string, real>)
    requires Resolvable(groups, conc)
    requires forall i :: 0 <= i < |groups| ==> |groups[i]| > 0
    ensures Headed(IonGroups(groups, conc))
    ensures forall i :: 0 <= i < |groups| ==> IonGroups(groups, conc)[i].ions[0].valence != 0
    ensures |CationGroups(IonGroups(groups, conc))| + |AnionGroups(IonGroups(groups, conc))| == |groups|
  {
    var gs := IonGroups(groups, conc);
    IonGroupsAt(groups, conc);
    forall i | 0 <= i < |groups|
      ensures |gs[i].ions| > 0 && gs[i].ions[0].valence != 0
    {
      MakeGroupSymbols(groups[i], conc);
    }
    SidesPartition(gs);
  }

  // ---------------------------------------------------------------------------
  // The common scale
  // ---------------------------------------------------------------------------

  /** Math.max. */
  function Max(a: real, b: real): (m: real)
    ensures m >= a && m >= b
    ensures m == a || m == b
  {
    if a >= b then a else b
  }

  /** `maxMeqL`: the reduce with Math.max over the groups' meqL, starting from 0. */
  function MaxMeqL(gs: seq<IonGroup>): real {
    MaxPrefix(gs, |gs|)
  }

  function MaxPrefix(gs: seq<IonGroup>, n: nat): real
    requires n <= |gs|
  {
    if n == 0 then 0.0 else Max(MaxPrefix(gs, n - 1), gs[n - 1].meqL)
  }

  /** The scale is at least 0 and at least every group's meqL. */
  lemma MaxMeqLUpper(gs: seq<IonGroup>)
    ensures MaxMeqL(gs) >= 0.0
    ensures forall i :: 0 <= i < |gs| ==> gs[i].meqL <= MaxMeqL(gs)
  {
    MaxPrefixUpper(gs, |gs|);
  }

  lemma {:induction false} MaxPrefixUpper(gs: seq<IonGroup>, n: nat)
    requires n <= |gs|
    ensures MaxPrefix(gs, n) >= 0.0
    ensures forall i :: 0 <= i < n ==> gs[i].meqL <= MaxPrefix(gs, n)
  {
    if n > 0 {
      MaxPrefixUpper(gs, n - 1);
    }
  }

  /** The scale is 0 or the meqL of one of the groups. */
  lemma MaxMeqLAttained(gs: seq<IonGroup>)
    ensures MaxMeqL(gs) == 0.0 || exists i :: 0 <= i < |gs| && gs[i].meqL == MaxMeqL(gs)
  {
    MaxPrefixAttained(gs, |gs|);
  }

  lemma {:induction false} MaxPrefixAttained(gs: seq<IonGroup>, n: nat)
    requires n <= |gs|
    ensures MaxPrefix(gs, n) == 0.0 || exists i :: 0 <= i < n && gs[i].meqL == MaxPrefix(gs, n)
  {
    if n > 0 {
      MaxPrefixAttained(gs, n - 1);
    }
  }

  // ---------------------------------------------------------------------------
  // Points
  // ---------------------------------------------------------------------------

  /** The number of rows: the larger of the two sides. */
  function Rows(gs: seq<IonGroup>): (rows: nat)
    requires Headed(gs)
    ensures rows >= |CationGroups(gs)| && rows >= |AnionGroups(gs)|
    ensures rows == |CationGroups(gs)| || rows == |AnionGroups(gs)|
  {
    var nc, na := |CationGroups(gs)|, |AnionGroups(gs)|;
    if nc >= na then nc else na
  }

  /** The y of row i: the padded top plus i equal steps over the inner height. */
  function RowY(i: nat, rows: nat): real
    requires rows >= 2
  {
    PaddedOffsetY + i as real * (InnerHeight / (rows - 1) as real)
  }

  /** Rows start at y = 186, go strictly down the page, and the last row is at y = 375.75. */
  lemma RowYSpacing(i: nat, j: nat, rows: nat)
    requires rows >= 2
    ensures RowY(0, rows) == 186.0
    ensures RowY(rows - 1, rows) == 375.75
    ensures i < j ==> RowY(i, rows) < RowY(j, rows)
  {
    var n := (rows - 1) as real;
    var step := InnerHeight / n;
    assert InnerHeight == 189.75;
    assert n * step == InnerHeight;
    assert step > 0.0;
    if i < j {
      assert (j as real - i as real) * step > 0.0;
      assert j as real * step - i as real * step == (j as real - i as real) * step;
    }
  }

  /** pointCreator(horzMult) applied to group g at index i. */
  function PointAt(side: real, g: IonGroup, i: nat, maxMeqL: real, rows: nat): Point
    requires maxMeqL != 0.0 && rows >= 2
  {
    Point(VertAxisX + side * HorzAxisWidth * (g.meqL / maxMeqL), RowY(i, rows))
  }

  /** A non-negative fraction of a positive scale lies in [0, 1], and is 1 at the scale. */
  lemma UnitFraction(v: real, m: real)
    requires m > 0.0 && 0.0 <= v <= m
    ensures 0.0 <= v / m <= 1.0
    ensures v == m ==> v / m == 1.0
  {
    var q := v / m;
    assert q * m == v;
    assert (q - 1.0) * m == v - m;
  }

  /**
   * A cation point lies on the left half of the axis, between x = 125 and the
   * vertical axis, and an anion point on the right half, between the axis and
   * x = 475; a group whose meqL is the scale sits at the end of its half.
   */
  lemma PointWithinAxis(g: IonGroup, i: nat, m: real, rows: nat)
    requires m > 0.0 && 0.0 <= g.meqL <= m && rows >= 2
    ensures 125.0 <= PointAt(CationSide, g, i, m, rows).x <= VertAxisX
    ensures VertAxisX <= PointAt(AnionSide, g, i, m, rows).x <= 475.0
    ensures g.meqL == m ==> PointAt(CationSide, g, i, m, rows).x == 125.0
    ensures g.meqL == m ==> PointAt(AnionSide, g, i, m, rows).x == 475.0
  {
    UnitFraction(g.meqL, m);
  }

  /** Cation and anion points of the same index share their row. */
  lemma PointsShareRow(g: IonGroup, h: IonGroup, i: nat, m: real, rows: nat)
    requires m != 0.0 && rows >= 2
    ensures PointAt(CationSide, g, i, m, rows).y == PointAt(AnionSide, h, i, m, rows).y
  {
  }

  /** The scale and row count are usable: a nonzero scale and at least two rows. */
  predicate Spread(maxMeqL: real, rows: nat) {
    maxMeqL != 0.0 && rows >= 2
  }

  /** `groups.map(pointCreator(side))`. */
  function SidePoints(gs: seq<IonGroup>, side: real, maxMeqL: real, rows: nat): (pts: seq<Point>)
    requires |gs| > 0 ==> Spread(maxMeqL, rows)
    ensures |pts| == |gs|
  {
    SidePointsPrefix(gs, side, maxMeqL, rows, |gs|)
  }

  function SidePointsPrefix(gs: seq<IonGroup>, side: real, maxMeqL: real, rows: nat, n: nat): (pts: seq<Point>)
    requires n <= |gs| && (|gs| > 0 ==> Spread(maxMeqL, rows))
    ensures |pts| == n
  {
    if n == 0 then []
    else SidePointsPrefix(gs, side, maxMeqL, rows, n - 1) + [PointAt(side, gs[n - 1], n - 1, maxMeqL, rows)]
  }

  /** Point i of a side is pointCreator applied to group i at index i. */
  lemma SidePointsAt(gs: seq<IonGroup>, side: real, maxMeqL: real, rows: nat)
    requires |gs| > 0 ==> Spread(maxMeqL, rows)
    ensures forall i :: 0 <= i < |gs| ==> SidePoints(gs, side, maxMeqL, rows)[i] == PointAt(side, gs[i], i, maxMeqL, rows)
  {
    SidePointsPrefixAt(gs, side, maxMeqL, rows, |gs|);
  }

  lemma {:induction false} SidePointsPrefixAt(gs: seq<IonGroup>, side: real, maxMeqL: real, rows: nat, n: nat)
    requires n <= |gs| && (|gs| > 0 ==> Spread(maxMeqL, rows))
    ensures forall i :: 0 <= i < n ==> SidePointsPrefix(gs, side, maxMeqL, rows, n)[i] == PointAt(side, gs[i], i, maxMeqL, rows)
  {
    if n > 0 {
      SidePointsPrefixAt(gs, side, maxMeqL, rows, n - 1);
    }
  }

  /** The diagram's groups can be placed: each has a first ion, and there is a usable scale if there are groups. */
  predicate Placeable(gs: seq<IonGroup>) {
    Headed(gs) && (|gs| > 0 ==> Spread(MaxMeqL(gs), Rows(gs)))
  }

  /** `cationPoints` and `anionPoints`. */
  function CationPoints(gs: seq<IonGroup>): (pts: seq<Point>)
    requires Placeable(gs)
    ensures |pts| == |CationGroups(gs)|
  {
    SidePoints(CationGroups(gs), CationSide, MaxMeqL(gs), Rows(gs))
  }

  function AnionPoints(gs: seq<IonGroup>): (pts: seq<Point>)
    requires Placeable(gs)
    ensures |pts| == |AnionGroups(gs)|
  {
    SidePoints(AnionGroups(gs), AnionSide, MaxMeqL(gs), Rows(gs))
  }

  /**
   * With non-negative meqL and a positive scale every cation point lies on the
   * left half of the axis and every anion point on the right half.
   */
  lemma DiagramPointsWithinAxis(gs: seq<IonGroup>)
    requires Placeable(gs) && MaxMeqL(gs) > 0.0
    requires forall i :: 0 <= i < |gs| ==> gs[i].meqL >= 0.0
    ensures forall k :: 0 <= k < |CationPoints(gs)| ==> 125.0 <= CationPoints(gs)[k].x <= VertAxisX
    ensures forall k :: 0 <= k < |AnionPoints(gs)| ==> VertAxisX <= AnionPoints(gs)[k].x <= 475.0
  {
    var m, rows := MaxMeqL(gs), Rows(gs);
    MaxMeqLUpper(gs);
    SidePointsAt(CationGroups(gs), CationSide, m, rows);
    SidePointsAt(AnionGroups(gs), AnionSide, m, rows);
    forall k | 0 <= k < |CationGroups(gs)|
      ensures 125.0 <= CationPoints(gs)[k].x <= VertAxisX
    {
      var g := CationGroups(gs)[k];
      SideGroupsMembers(gs, true, g);
      PointWithinAxis(g, k, m, rows);
    }
    forall k | 0 <= k < |AnionGroups(gs)|
      ensures VertAxisX <= AnionPoints(gs)[k].x <= 475.0
    {
      var g := AnionGroups(gs)[k];
      SideGroupsMembers(gs, false, g);
      PointWithinAxis(g, k, m, rows);
    }
  }

  /**
   * When no first ion is neutral and the scale is positive, some point sits
   * at an end of the horizontal axis: the group with the largest meqL.
   */
  lemma LargestGroupAtAxisEnd(gs: seq<IonGroup>)
    requires Placeable(gs) && MaxMeqL(gs) > 0.0
    requires forall i :: 0 <= i < |gs| ==> gs[i].ions[0].valence != 0
    ensures (exists k :: 0 <= k < |CationPoints(gs)| && CationPoints(gs)[k].x == 125.0)
         || (exists k :: 0 <= k < |AnionPoints(gs)| && AnionPoints(gs)[k].x == 475.0)
  {
    var m, rows := MaxMeqL(gs), Rows(gs);
    MaxMeqLAttained(gs);
    var i :| 0 <= i < |gs| && gs[i].meqL == m;
    var g := gs[i];
    var cation := g.ions[0].valence > 0;
    SideGroupsMembers(gs, cation, g);
    var side := SideGroups(gs, cation);
    var k :| 0 <= k < |side| && side[k] == g;
    PointWithinAxis(g, k, m, rows);
    if cation {
      SidePointsAt(CationGroups(gs), CationSide, m, rows);
      assert CationPoints(gs)[k].x == 125.0;
    } else {
      SidePointsAt(AnionGroups(gs), AnionSide, m, rows);
      assert AnionPoints(gs)[k].x == 475.0;
    }
  }

  // ---------------------------------------------------------------------------
  // The polygon
  // ---------------------------------------------------------------------------

  /** `slice().reverse()`. */
  function Reverse<T>(s: seq<T>): (r: seq<T>)
    ensures |r| == |s|
  {
    ReversePrefix(s, |s|)
  }

  /** The first n elements of s, last first. */
  function ReversePrefix<T>(s: seq<T>, n: nat): (r: seq<T>)
    requires n <= |s|
    ensures |r| == n
  {
    if n == 0 then [] else [s[n - 1]] + ReversePrefix(s, n - 1)
  }

  /** Element k of the reversal is element |s|-1-k of the original. */
  lemma ReverseAt<T>(s: seq<T>)
    ensures forall k :: 0 <= k < |s| ==> Reverse(s)[k] == s[|s| - 1 - k]
  {
    ReversePrefixAt(s, |s|);
  }

  lemma {:induction false} ReversePrefixAt<T>(s: seq<T>, n: nat)
    requires n <= |s|
    ensures forall k :: 0 <= k < n ==> ReversePrefix(s, n)[k] == s[n - 1 - k]
  {
    if n > 0 {
      ReversePrefixAt(s, n - 1);
    }
  }

  /** Reversing twice gives the original back. */
  lemma ReverseInvolution<T>(s: seq<T>)
    ensures Reverse(Reverse(s)) == s
  {
    ReverseAt(s);
    ReverseAt(Reverse(s));
  }

  /** The polygon's vertices: down the cation side, then back up the anion side. */
  function Polygon(cationPoints: seq<Point>, anionPoints: seq<Point>): (poly: seq<Point>)
    ensures |poly| == |cationPoints| + |anionPoints|
  {
    cationPoints + Reverse(anionPoints)
  }

  /**
   * The polygon lists every cation point in order, then every anion point in
   * reverse order, so it closes from the first anion point back to the first
   * cation point.
   */
  lemma PolygonVertices(cp: seq<Point>, ap: seq<Point>)
    ensures forall k :: 0 <= k < |cp| ==> Polygon(cp, ap)[k] == cp[k]
    ensures forall k :: |cp| <= k < |cp| + |ap| ==> Polygon(cp, ap)[k] == ap[|cp| + |ap| - 1 - k]
    ensures |ap| > 0 ==> Polygon(cp, ap)[|cp| + |ap| - 1] == ap[0]
  {
    ReverseAt(ap);
  }

  /** The points run strictly down the page: each is below the one before it. */
  predicate RunsDown(pts: seq<Point>) {
    forall k :: 0 <= k < |pts| - 1 ==> pts[k].y < pts[k + 1].y
  }

  /** A side's points are one per row, top row first, so they run down the page. */
  lemma SidePointsRunDown(gs: seq<IonGroup>, side: real, maxMeqL: real, rows: nat)
    requires |gs| > 0 ==> Spread(maxMeqL, rows)
    ensures RunsDown(SidePoints(gs, side, maxMeqL, rows))
  {
    var pts := SidePoints(gs, side, maxMeqL, rows);
    SidePointsAt(gs, side, maxMeqL, rows);
    forall k | 0 <= k < |pts| - 1
      ensures pts[k].y < pts[k + 1].y
    {
      RowYSpacing(k, k + 1, rows);
    }
  }

  /**
   * A polygon through two sides that each run down the page goes down along
   * the first side and back up along the second.
   */
  lemma PolygonDownThenUp(cp: seq<Point>, ap: seq<Point>)
    requires RunsDown(cp) && RunsDown(ap)
    ensures forall k :: 0 <= k < |cp| - 1 ==> Polygon(cp, ap)[k].y < Polygon(cp, ap)[k + 1].y
    ensures forall k :: |cp| <= k < |cp| + |ap| - 1 ==> Polygon(cp, ap)[k].y > Polygon(cp, ap)[k + 1].y
  {
    var poly := Polygon(cp, ap);
    PolygonVertices(cp, ap);
    forall k | |cp| <= k < |cp| + |ap| - 1
      ensures poly[k].y > poly[k + 1].y
    {
      var j := |cp| + |ap| - 2 - k;
      assert poly[k] == ap[j + 1] && poly[k + 1] == ap[j];
    }
  }

  /** The diagram's polygon runs down the cation side and back up the anion side. */
  lemma DiagramPolygonDownThenUp(gs: seq<IonGroup>)
    requires Placeable(gs)
    ensures RunsDown(CationPoints(gs)) && RunsDown(AnionPoints(gs))
    ensures forall k :: 0 <= k < |CationPoints(gs)| - 1 ==>
      Polygon(CationPoints(gs), AnionPoints(gs))[k].y < Polygon(CationPoints(gs), AnionPoints(gs))[k + 1].y
    ensures forall k :: |CationPoints(gs)| <= k < |CationPoints(gs)| + |AnionPoints(gs)| - 1 ==>
      Polygon(CationPoints(gs), AnionPoints(gs))[k].y > Polygon(CationPoints(gs), AnionPoints(gs))[k + 1].y
  {
    SidePointsRunDown(CationGroups(gs), CationSide, MaxMeqL(gs), Rows(gs));
    SidePointsRunDown(AnionGroups(gs), AnionSide, MaxMeqL(gs), Rows(gs));
    PolygonDownThenUp(CationPoints(gs), AnionPoints(gs));
  }

  // ---------------------------------------------------------------------------
  // Scale invariance
  // ---------------------------------------------------------------------------

  /** conc' holds the same ions as conc, each concentration multiplied by k. */
  predicate ScaledBy(conc: map<string, real>, conc': map<string, real>, k: real) {
    conc'.Keys == conc.Keys && forall s :: s in conc ==> conc'[s] == k * conc[s]
  }

  /** gs' is gs with every group's meqL multiplied by k. */
  predicate Rescaled(gs: seq<IonGroup>, gs': seq<IonGroup>, k: real) {
    |gs'| == |gs| && forall i :: 0 <= i < |gs| ==> gs'[i].ions == gs[i].ions && gs'[i].meqL == k * gs[i].meqL
  }

  /** Scaling the concentrations scales every group's meqL and leaves its ions alone. */
  lemma IonGroupsRescaled(groups: seq<seq<string>>, conc: map<string, real>, conc': map<string, real>, k: real)
    requires Resolvable(groups, conc) && ScaledBy(conc, conc', k)
    ensures Resolvable(groups, conc')
    ensures Rescaled(IonGroups(groups, conc), IonGroups(groups, conc'), k)
  {
    assert Resolvable(groups, conc') by {
      forall i, j | 0 <= i < |groups| && 0 <= j < |groups[i]|
        ensures groups[i][j] in conc'
      {
        assert groups[i][j] in conc;
      }
    }
    var gs, gs' := IonGroups(groups, conc), IonGroups(groups, conc');
    forall i | 0 <= i < |groups|
      ensures gs'[i].ions == gs[i].ions && gs'[i].meqL == k * gs[i].meqL
    {
      var ions := GroupIons(groups[i]);
      IonGroupsMeqL(groups, conc, i);
      IonGroupsMeqL(groups, conc', i);
      GroupMeqLScaled(ions, conc, conc', k);
    }
  }

  /** Rescaling does not move a group to another side, and keeps the sides' order. */
  lemma SideGroupsRescaled(gs: seq<IonGroup>, gs': seq<IonGroup>, k: real, cation: bool)
    requires Headed(gs) && Rescaled(gs, gs', k)
    ensures Headed(gs')
    ensures Rescaled(SideGroups(gs, cation), SideGroups(gs', cation), k)
  {
    assert Headed(gs') by {
      forall i | 0 <= i < |gs'|
        ensures |gs'[i].ions| > 0
      {
        assert gs'[i].ions == gs[i].ions;
      }
    }
    SidePrefixRescaled(gs, gs', k, cation, |gs|);
  }

  lemma {:induction false} SidePrefixRescaled(gs: seq<IonGroup>, gs': seq<IonGroup>, k: real, cation: bool, n: nat)
    requires Headed(gs) && Headed(gs') && Rescaled(gs, gs', k) && n <= |gs|
    ensures Rescaled(SidePrefix(gs, cation, n), SidePrefix(gs', cation, n), k)
  {
    if n > 0 {
      SidePrefixRescaled(gs, gs', k, cation, n - 1);
      assert gs'[n - 1].ions == gs[n - 1].ions;
    }
  }

  /** Math.max commutes with a positive factor. */
  lemma MaxScaled(k: real, a: real, b: real)
    requires k > 0.0
    ensures Max(k * a, k * b) == k * Max(a, b)
  {
    assert k * a - k * b == k * (a - b);
    if a > b {
      assert k * (a - b) > 0.0;
    } else if a < b {
      assert k * (b - a) > 0.0;
    }
  }

  /** A positive factor scales the common scale. */
  lemma MaxMeqLRescaled(gs: seq<IonGroup>, gs': seq<IonGroup>, k: real)
    requires k > 0.0 && Rescaled(gs, gs', k)
    ensures MaxMeqL(gs') == k * MaxMeqL(gs)
  {
    MaxPrefixRescaled(gs, gs', k, |gs|);
  }

  lemma {:induction false} MaxPrefixRescaled(gs: seq<IonGroup>, gs': seq<IonGroup>, k: real, n: nat)
    requires k > 0.0 && Rescaled(gs, gs', k) && n <= |gs|
    ensures MaxPrefix(gs', n) == k * MaxPrefix(gs, n)
  {
    if n > 0 {
      MaxPrefixRescaled(gs, gs', k, n - 1);
      var a, b := MaxPrefix(gs, n - 1), gs[n - 1].meqL;
      assert gs'[n - 1].meqL == k * b;
      MaxScaled(k, a, b);
    }
  }

  /** A ratio is unchanged when both its terms are multiplied by the same nonzero factor. */
  lemma RatioRescaled(a: real, m: real, k: real)
    requires k != 0.0 && m != 0.0
    ensures (k * a) / (k * m) == a / m
  {
    assert (a / m) * (k * m) == k * a;
  }

  /** Points depend on each meqL only relative to the scale. */
  lemma SidePointsRescaled(gs: seq<IonGroup>, gs': seq<IonGroup>, side: real, maxMeqL: real, maxMeqL': real, rows: nat, k: real)
    requires k != 0.0 && Rescaled(gs, gs', k) && maxMeqL' == k * maxMeqL
    requires |gs| > 0 ==> Spread(maxMeqL, rows) && Spread(maxMeqL', rows)
    ensures SidePoints(gs', side, maxMeqL', rows) == SidePoints(gs, side, maxMeqL, rows)
  {
    SidePointsPrefixRescaled(gs, gs', side, maxMeqL, maxMeqL', rows, k, |gs|);
  }

  lemma {:induction false} SidePointsPrefixRescaled(gs: seq<IonGroup>, gs': seq<IonGroup>, side: real, maxMeqL: real, maxMeqL': real, rows: nat, k: real, n: nat)
    requires k != 0.0 && Rescaled(gs, gs', k) && maxMeqL' == k * maxMeqL
    requires |gs| > 0 ==> Spread(maxMeqL, rows) && Spread(maxMeqL', rows)
    requires n <= |gs|
    ensures SidePointsPrefix(gs', side, maxMeqL', rows, n) == SidePointsPrefix(gs, side, maxMeqL, rows, n)
  {
    if n > 0 {
      SidePointsPrefixRescaled(gs, gs', side, maxMeqL, maxMeqL', rows, k, n - 1);
      var a := gs[n - 1].meqL;
      assert gs'[n - 1].meqL == k * a;
      RatioRescaled(a, maxMeqL, k);
      assert PointAt(side, gs'[n - 1], n - 1, maxMeqL', rows) == PointAt(side, gs[n - 1], n - 1, maxMeqL, rows);
    }
  }

  /** A positive factor keeps a usable scale usable, with the same number of rows. */
  lemma PlaceableRescaled(gs: seq<IonGroup>, gs': seq<IonGroup>, k: real)
    requires k > 0.0 && Placeable(gs) && Rescaled(gs, gs', k)
    ensures Placeable(gs')
    ensures MaxMeqL(gs') == k * MaxMeqL(gs)
    ensures Rows(gs') == Rows(gs)
    ensures Rescaled(CationGroups(gs), CationGroups(gs'), k)
    ensures Rescaled(AnionGroups(gs), AnionGroups(gs'), k)
  {
    MaxMeqLRescaled(gs, gs', k);
    SideGroupsRescaled(gs, gs', k, true);
    SideGroupsRescaled(gs, gs', k, false);
    if |gs| > 0 {
      var m := MaxMeqL(gs);
      assert m != 0.0;
      assert k * m != 0.0;
    }
  }

  /**
   * The diagram's shape depends only on the relative milliequivalents:
   * multiplying every group's meqL by k > 0 multiplies the scale by k and
   * leaves every point, and so the polygon, where it was.
   */
  lemma DiagramScaleInvariant(gs: seq<IonGroup>, gs': seq<IonGroup>, k: real)
    requires k > 0.0 && Placeable(gs) && Rescaled(gs, gs', k)
    ensures Placeable(gs')
    ensures MaxMeqL(gs') == k * MaxMeqL(gs)
    ensures CationPoints(gs') == CationPoints(gs) && AnionPoints(gs') == AnionPoints(gs)
    ensures Polygon(CationPoints(gs'), AnionPoints(gs')) == Polygon(CationPoints(gs), AnionPoints(gs))
  {
    PlaceableRescaled(gs, gs', k);
    var m, m', rows := MaxMeqL(gs), MaxMeqL(gs'), Rows(gs);
    SidePointsRescaled(CationGroups(gs), CationGroups(gs'), CationSide, m, m', rows, k);
    SidePointsRescaled(AnionGroups(gs), AnionGroups(gs'), AnionSide, m, m', rows, k);
  }
}
