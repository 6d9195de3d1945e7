# Water-chemistry diagrams: ion table, Piper diagram and Stiff diagram

This project models the computational core of a small JavaScript library that draws two classic
hydrochemistry diagrams as SVG.

- **The ion table** (`core/js/ions.js`). It holds eight major ions: Ca, Mg, Na, K, Cl, SO4, CO3 and HCO3. Each ion has a symbol, a name, a valence and a formula weight.
  - `IonFactory.get` looks an ion up by symbol.
  - `getMeqL` converts a concentration in mg/L into milliequivalents per litre.
- **The Piper diagram** (`piper/js/piper.js`). For every water sample it plots three points:
  - one in the cation triangle, from the Ca and Mg shares of the cation milliequivalents;
  - one in the anion triangle, from the Cl and SO4 shares of the anion milliequivalents;
  - one in the central diamond.

  Each group of samples gets its own hue, and a legend repeats the hues with the group names.
- **The Stiff diagram** (`stiff/js/stiff.js`). It takes groups of ions:
  - It sums each group's milliequivalents.
  - It splits the groups into cation groups and anion groups by the valence of their first ion.
  - It plots the cation groups to the left of a vertical axis and the anion groups to the right, one row per index, against a common scale.
  - It joins the points into a polygon, labels each point, and draws a symmetrical tick axis.

The model is in Dafny:

- `ions.dfy`: modules `Wrappers` (the `Option` type), `Geometry` (the `Point` type shared by both diagrams) and `Ions`.
- `piper.dfy`: module `Piper`, the coordinate arithmetic.
- `piper_drawing.dfy`: module `PiperDrawing`, the loops and what is drawn.
- `stiff.dfy`: module `Stiff`, groups, sides, scale, points and polygon.
- `stiff_drawing.dfy`: module `StiffDrawing`, ticks, labels and the whole diagram.

JavaScript numbers are exact reals. `Math.tan(Math.PI / 3)` is a symbolic constant `r` with `r > 0` and `r * r == 3`, and `sin(π/3)` is `r / 2`.

The source's `reduce`, `filter` and `map` calls are written as recursive functions over a prefix, one element per step. The step is the source's callback.

The source's loops are methods, each proved against such a function:
- the ion-object, filter, equivalents, total and proportion reductions of `plotConcentrations`;
- the grid loop;
- the group and record loops;
- the legend;
- the tick loop;
- the `forEach` of `createIonLabels`.

Instead of appending SVG elements, the model returns values: grid segments, data points with a hue, legend rows, ticks, polygon vertices and point labels.

Notes on the source:

- **The anion point** (`piper/js/piper.js:242-248`). The source computes the anion x offset as `pCl·W − pSO4·W/2`, and the diamond uses `pCl·W` as its anion coordinate. The model keeps these formulas as written.
  - The point the anion triangle's axes call for is `Piper.IntendedAnionPoint`, the weighted combination of the Cl, SO4 and CO3 + HCO3 corners. It always lies in the triangle (`Piper.IntendedAnionPointInTriangle`).
  - The drawn point is the intended one shifted left by `pSO4·W` (`Piper.AnionPointShifted`). The two agree only for samples without SO4 (`Piper.AnionPointIntendedIff`).
  - The anion point lies in its triangle exactly when `pSO4 ≤ pCl` (`Piper.AnionPointInTriangleIff`).
  - A pure-sulfate sample is drawn half a triangle width to the left of the anion triangle (`Piper.PureSulfateOutsideTriangle`).
  - The diamond's anion coordinate `pCl·W` is where the drawn anion point meets the base when it is moved along the direction of the triangle's right side. The diamond therefore agrees with the drawn anion point, not with the diamond's `SO4 + Cl` axis label (`piper/js/piper.js:158`). The same construction on the intended point gives `(pCl + pSO4)·W` (`Piper.AnionBaseProjection`).
- **`getMeqL`** (`core/js/ions.js:28`). The source computes `concMgL * |valence| / formulaWeight`. The model writes it as `concMgL * (|valence| / formulaWeight)`. The two are equal over the reals.
- **`getGroupColor`** (`piper/js/piper.js:258`). The `i++` post-increment has no effect on the returned hue.

## Model

| member | source | states |
|---|---|---|
| Ions.MeqL | core/js/ions.js:27-29 | getMeqL: definition. Facts in MeqLCrossMultiplied, MeqLSign and MeqLLinear |
| Ions.MeqLCrossMultiplied | core/js/ions.js:27-29 | getMeqL times the formula weight is the concentration times the absolute valence |
| Ions.MeqLSign | core/js/ions.js:27-29 | with a positive formula weight getMeqL has the sign of the concentration, and for a charged ion it is zero only at zero concentration |
| Ions.MeqLLinear | core/js/ions.js:27-29 | getMeqL is linear in the concentration |
| Ions.Table | core/js/ions.js:35-44 | the ion table: definition. Facts in TableFacts and TableSymbols |
| Ions.TableFacts | core/js/ions.js:35-44 | the table has eight ions, four cations then four anions, with positive formula weights, charges of one or two and distinct symbols |
| Ions.FilterSymbol | core/js/ions.js:47 | the symbol filter keeps at most as many entries as the table has. Which entries it keeps is stated in FilterFindsFirst |
| Ions.FilterFindsFirst | core/js/ions.js:47 | the symbol filter is empty exactly when no entry has the symbol, and otherwise starts with the first entry that has it |
| Ions.Get | core/js/ions.js:46-49 | an ion that get returns carries the requested symbol, a positive formula weight and a non-zero valence |
| Ions.GetFindsFirst | core/js/ions.js:46-49 | get returns null exactly when no entry has the symbol, and otherwise the first entry that has it |
| Ions.GetTableEntry | core/js/ions.js:35-49 | every table entry is found by its own symbol |
| Ions.TableSymbols | core/js/ions.js:35-44 | the table's symbols are Ca, Mg, Na, K, Cl, SO4, CO3, HCO3 in that order |
| Ions.GetKnownExactly | core/js/ions.js:35-49 | get succeeds for exactly these eight symbols |
| Ions.GetSymbols | core/js/ions.js:35-49 | each of the eight symbols yields its own ion record |
| Piper.TrianglesSymmetric | piper/js/piper.js:35-41 | the cation and anion triangles sit symmetrically about the vertical centre line, each 50 units from it |
| Piper.DiamondAligned | piper/js/piper.js:115-123 | the triangles are equilateral, and each lower side of the diamond, extended, passes through the inner base corner of the triangle on the other side. So the diamond's lower sides extend the sides of the spacer triangle between the two triangles |
| Piper.GridLine | piper/js/piper.js:66-70 | grid line i starts on the base at i tenths of the width and rises at slope tan(π/3) to the triangle's right side |
| Piper.TriangleGridRight | piper/js/piper.js:62-77 | the grid loop draws 11 lines, line i being grid line i |
| Piper.IonOrderKnown | piper/js/piper.js:30 | every symbol of the diagram's ion list is known to get |
| Piper.IonObjectsOf | piper/js/piper.js:225 | the ion-object dictionary has exactly the listed symbols as keys, all with positive formula weights |
| Piper.IonObjectsLookedUp | piper/js/piper.js:225 | each dictionary entry is what get returns for its key |
| Piper.IonObjects | piper/js/piper.js:225 | the diagram's dictionary has an entry for all eight listed ions |
| Piper.IonObjectValues | piper/js/piper.js:225 | the diagram's dictionary maps each of the eight symbols to its table ion |
| Piper.SelectBySign | piper/js/piper.js:226-227 | a selection holds only listed symbols of the requested sign, and every listed symbol of that sign |
| Piper.SelectAppend | piper/js/piper.js:226-227 | selection distributes over concatenation, so it keeps the original order |
| Piper.CationsAndAnions | piper/js/piper.js:225-227 | the cations are Ca, Mg, Na, K and the anions Cl, SO4, CO3, HCO3, in list order |
| Piper.SelectionOfTable | piper/js/piper.js:226-227 | any dictionary holding the table's ions selects those same cations and anions |
| Piper.SelectionsDisjoint | piper/js/piper.js:226-227 | no symbol is selected as both a cation and an anion |
| Piper.EquivalentsOf | piper/js/piper.js:228 | the meqL dictionary has an entry for every listed ion |
| Piper.EquivalentsValues | piper/js/piper.js:228 | each meqL entry is getMeqL of that ion's concentration |
| Piper.EquivalentsScaled | piper/js/piper.js:228 | multiplying every concentration by k multiplies every meqL entry by k |
| Piper.EquivalentsNonNegative | piper/js/piper.js:228 | non-negative concentrations give non-negative meqL entries |
| Piper.SumOver | piper/js/piper.js:230-231 | a side's meqL total: definition. Facts in SumOverNonNegative, TermAtMostSum, TwoTermsAtMostSum and SumOverScaled |
| Piper.SumOverNonNegative | piper/js/piper.js:230-231 | a side total of non-negative terms is non-negative |
| Piper.TermAtMostSum | piper/js/piper.js:230-231 | no term of a non-negative side total exceeds the total |
| Piper.TwoTermsAtMostSum | piper/js/piper.js:230-231 | two different terms of a non-negative side total add up to at most the total |
| Piper.SumOverScaled | piper/js/piper.js:230-231 | multiplying every term by k multiplies the total by k |
| Piper.NormaliseInto | piper/js/piper.js:234-235 | the proportion reduce adds the side's symbols, keeps the keys already present and adds nothing else |
| Piper.NormaliseIntoValues | piper/js/piper.js:234-235 | each of the side's symbols maps to its meqL over the total, and entries of other symbols are unchanged |
| Piper.Proportions | piper/js/piper.js:233-235 | the proportion dictionary's keys are exactly the cations and anions |
| Piper.ProportionValues | piper/js/piper.js:233-235 | each ion's proportion is its meqL over its own side's total |
| Piper.ProportionsSumToOne | piper/js/piper.js:233-235 | the cation proportions sum to one, and so do the anion proportions |
| Piper.ProportionsInUnitRange | piper/js/piper.js:233-235 | with non-negative meqL every proportion lies in [0, 1] |
| Piper.ProportionsScaleInvariant | piper/js/piper.js:230-235 | multiplying every meqL by k ≠ 0 multiplies both totals by k and leaves every proportion unchanged |
| Piper.ProportionsScaledEqual | piper/js/piper.js:233-235 | multiplied meqL give the very same proportion dictionary |
| Piper.DiagramIonSetup | piper/js/piper.js:30 | the diagram's ion list and dictionary give Ca and Mg as cations and Cl and SO4 as anions, with positive formula weights |
| Piper.DrawnIonsSelected | piper/js/piper.js:226-227 | Ca and Mg are selected as cations, and Cl and SO4 as anions |
| Piper.ProportionsOf | piper/js/piper.js:233-235 | the proportions that the point formulas read (Ca, Mg, Cl, SO4) are all present |
| Piper.SharesOfTwo | piper/js/piper.js:233-235 | two different proportions of one side are non-negative and add up to at most one |
| Piper.SampleShares | piper/js/piper.js:228-235 | for non-negative concentrations the Ca and Mg shares and the Cl and SO4 shares each lie in [0, 1] and add up to at most one |
| Piper.CationPoint | piper/js/piper.js:237-240 | the cation point is √3·150·pMg above the base line. Its x is (1 − pCa)·W − 150·pMg from the triangle's left edge, because the division by tan(π/3) cancels |
| Piper.CationPointBarycentric | piper/js/piper.js:237-240 | the cation point is the weighted combination of the Ca, Mg and Na + K corners, with weights pCa, pMg and the rest |
| Piper.CationPointInTriangle | piper/js/piper.js:237-240 | non-negative Ca and Mg shares adding up to at most one put the cation point in the cation triangle |
| Piper.CationPointInjective | piper/js/piper.js:237-240 | different (pCa, pMg) pairs give different cation points |
| Piper.AnionPoint | piper/js/piper.js:242-245 | as written: the anion point is √3·150·pSO4 above the base line. Its x is pCl·W − 150·pSO4 from the anion triangle's left edge |
| Piper.IntendedAnionPoint | piper/js/piper.js:242-245 | the intended anion point, the combination of the Cl, SO4 and CO3 + HCO3 corners, is pCl·W + 150·pSO4 right of the triangle's left corner and √3·150·pSO4 above the base |
| Piper.IntendedAnionPointInTriangle | piper/js/piper.js:242-245 | valid Cl and SO4 shares always put the intended anion point in the anion triangle |
| Piper.AnionPointShifted | piper/js/piper.js:242-245 | the drawn anion point is the intended one shifted left by pSO4·W |
| Piper.AnionPointIntendedIff | piper/js/piper.js:242-245 | the drawn and intended anion points coincide exactly when pSO4 is zero |
| Piper.AnionPointInTriangleIff | piper/js/piper.js:242-245 | valid shares put the anion point inside its triangle exactly when pSO4 ≤ pCl |
| Piper.PureSulfateOutsideTriangle | piper/js/piper.js:242-245 | a pure-sulfate sample is drawn half a triangle width to the left of the anion triangle, outside it |
| Piper.AnionBaseProjection | piper/js/piper.js:242-250 | moved to the base along the direction of the anion triangle's right side, the drawn anion point lands at pCl·W, the diamond's anion coordinate. The intended point lands at (pCl + pSO4)·W |
| Piper.DiamondPoint | piper/js/piper.js:247-255 | the diamond point's x is the centre's x plus half the sum of the Na + K and Cl base offsets, minus half a triangle width. Its y is the centre's y plus √3 times half the difference of those offsets |
| Piper.DiamondVertices | piper/js/piper.js:247-255 | the four extreme samples land on the diamond's four vertices |
| Piper.DiamondPointInDiamond | piper/js/piper.js:247-255 | Na + K and Cl shares in [0, 1] put the diamond point in the diamond |
| Piper.DiamondPointInjective | piper/js/piper.js:247-255 | different Na + K shares or different Cl shares give different diamond points |
| Piper.PointsOf | piper/js/piper.js:237-255 | a sample is drawn as three points, all in the record's hue |
| Piper.RecordPoints | piper/js/piper.js:224-256 | plotConcentrations draws three points, all in the group's hue |
| Piper.ProportionsOfScaled | piper/js/piper.js:230-235 | drawable meqL multiplied by k ≠ 0 stay drawable and give the same proportions |
| Piper.SampleProportionsScaled | piper/js/piper.js:228-235 | a sample with every concentration multiplied by k > 0 stays plottable and gives the same proportions |
| Piper.RecordPointsScaleInvariant | piper/js/piper.js:224-256 | a sample with every concentration multiplied by k > 0 is drawn at exactly the same three points |
| Piper.RecordPointsInFields | piper/js/piper.js:224-256 | for non-negative concentrations the cation point is in the cation triangle and the diamond point in the diamond. The anion point is in its triangle exactly when pSO4 ≤ pCl |
| PiperDrawing.BuildIonObjects | piper/js/piper.js:225 | the ion-object reduce, as a loop, builds the ion-object dictionary |
| PiperDrawing.FilterBySign | piper/js/piper.js:226-227 | the filter loop builds the selection by sign |
| PiperDrawing.BuildEquivalents | piper/js/piper.js:228 | the meqL reduce loop builds the meqL dictionary |
| PiperDrawing.SideTotal | piper/js/piper.js:230-231 | the total loop computes the side total |
| PiperDrawing.NormaliseLoop | piper/js/piper.js:233-235 | the proportion loop extends the accumulator exactly as the proportion reduce does |
| PiperDrawing.PlotConcentrations | piper/js/piper.js:224-256 | plotConcentrations draws the sample's three points (cation, anion, diamond) in the given hue |
| PiperDrawing.GroupHue | piper/js/piper.js:257-259 | every group hue is below 360 |
| PiperDrawing.GroupHueSteps | piper/js/piper.js:258 | group i's hue is 18·((3i) mod 20), a multiple of 18 degrees |
| PiperDrawing.GroupHuePeriod | piper/js/piper.js:258 | hues repeat with period 20 |
| PiperDrawing.GroupHuesDistinct | piper/js/piper.js:258 | the first 20 groups all get different hues |
| PiperDrawing.GroupPoints | piper/js/piper.js:262-264 | the points of one group's records: definition. Facts in GroupPointsAt and GroupPointsHue |
| PiperDrawing.GroupPointsAt | piper/js/piper.js:262-264 | a group with n records yields 3n points, and record j's three points are at positions 3j to 3j + 2 |
| PiperDrawing.GroupPointsHue | piper/js/piper.js:262-264 | every point of a group has the group's hue |
| PiperDrawing.DiagramPoints | piper/js/piper.js:260-265 | the points of all groups: definition. Facts in DiagramPrefixExtends, DiagramGroupBlock, DiagramRecordAt and DiagramRecordPoints |
| PiperDrawing.DiagramPrefixExtends | piper/js/piper.js:260-265 | later groups only append points, and never change the points already drawn |
| PiperDrawing.DiagramGroupBlock | piper/js/piper.js:260-265 | group i's points form one block, after all records of earlier groups, drawn in group i's hue |
| PiperDrawing.DiagramRecordAt | piper/js/piper.js:260-265 | record j of group i is drawn at positions 3·(records before group i + j) onwards |
| PiperDrawing.SamplePlotterTriples | piper/js/piper.js:260-264 | on plottable groups, plotConcentrations yields three points per record, in the group's hue |
| PiperDrawing.DiagramRecordPoints | piper/js/piper.js:260-265 | record j of group i is drawn as its three plotConcentrations points, in group i's hue |
| PiperDrawing.PlotGroup | piper/js/piper.js:262-264 | the values loop draws each record's points in order |
| PiperDrawing.PlotGroups | piper/js/piper.js:260-265 | the groups loop draws every group's records, in group order, each in its group's hue |
| PiperDrawing.LegendRowOf | piper/js/piper.js:277-281 | legend row i's marker and label position: definition. Facts in CreateLegend and LegendMatchesGroup |
| PiperDrawing.CreateLegend | piper/js/piper.js:267-285 | the legend has one border and one row per group, with the group's hue and name. Every marker circle and label baseline lies inside the border, each label starts right of its marker, and markers of different rows do not overlap |
| PiperDrawing.LegendMatchesGroup | piper/js/piper.js:260-277 | every point drawn for group i has the hue of legend row i's marker |
| PiperDrawing.PiperDiagram | piper/js/piper.js:62-285 | the diagram is the grid lines, every group's points, and the legend border and rows |
| Stiff.GroupIons | stiff/js/stiff.js:15 | a group has one ion object per symbol. Which ions they are is stated in GroupIonsLookedUp |
| Stiff.GroupMeqL | stiff/js/stiff.js:16 | a group's meqL sum: definition. Facts in GroupMeqLSingle, GroupMeqLAppend, GroupMeqLNonNegative and GroupMeqLScaled |
| Stiff.GroupIonsLookedUp | stiff/js/stiff.js:15 | ion object i of a group is what get returns for symbol i |
| Stiff.GroupMeqLSingle | stiff/js/stiff.js:16 | a group of one ion has that ion's getMeqL |
| Stiff.GroupMeqLAppend | stiff/js/stiff.js:16 | adding an ion to a group adds its getMeqL to the group's meqL |
| Stiff.GroupMeqLNonNegative | stiff/js/stiff.js:16 | non-negative concentrations give a non-negative group meqL |
| Stiff.GroupMeqLScaled | stiff/js/stiff.js:16 | multiplying every concentration by k multiplies the group meqL by k |
| Stiff.MakeGroup | stiff/js/stiff.js:14-18 | one group has as many ions as symbols. Which ions and what meqL are stated in MakeGroupSymbols and IonGroupsMeqL |
| Stiff.MakeGroupSymbols | stiff/js/stiff.js:14-18 | a group's ions carry its symbols in order, each with a positive formula weight and a non-zero valence |
| Stiff.IonGroups | stiff/js/stiff.js:14-18 | there is one group per symbol list |
| Stiff.IonGroupsAt | stiff/js/stiff.js:14-18 | group i is built from symbol list i |
| Stiff.IonGroupsMeqL | stiff/js/stiff.js:14-18 | group i's meqL is the sum of getMeqL over the ions its symbols name, and is non-negative for non-negative concentrations |
| Stiff.SideGroups | stiff/js/stiff.js:19-20 | a side holds at most as many groups as there are. Which groups is stated in SideGroupsMembers and SideGroupsSingle |
| Stiff.CationGroups | stiff/js/stiff.js:19 | the cation filter, the side for valence > 0. Facts in SideGroupsMembers and SidesPartition |
| Stiff.AnionGroups | stiff/js/stiff.js:20 | the anion filter, the side for valence < 0. Facts in SideGroupsMembers and SidesPartition |
| Stiff.SideGroupsAppend | stiff/js/stiff.js:19-20 | the side filters keep the original order (they distribute over concatenation) |
| Stiff.SideGroupsSingle | stiff/js/stiff.js:19-20 | a group is kept exactly when its first ion's valence has the side's sign, whatever its other ions are |
| Stiff.SideGroupsMembers | stiff/js/stiff.js:19-20 | a group is on a side exactly when it is one of the groups and its first ion has the side's sign |
| Stiff.SidesPartition | stiff/js/stiff.js:19-20 | when no first ion is neutral, every group is on exactly one side |
| Stiff.IonGroupsHeaded | stiff/js/stiff.js:14-20 | groups of known symbols each land on exactly one side |
| Stiff.MaxMeqL | stiff/js/stiff.js:21 | the reduce of Math.max from 0: definition. Facts in MaxMeqLUpper, MaxMeqLAttained and MaxMeqLRescaled |
| Stiff.Max | stiff/js/stiff.js:21 | Math.max is at least both arguments and equals one of them |
| Stiff.MaxMeqLUpper | stiff/js/stiff.js:21 | maxMeqL is at least 0 and at least every group's meqL |
| Stiff.MaxMeqLAttained | stiff/js/stiff.js:21 | maxMeqL is 0 or the meqL of some group |
| Stiff.Rows | stiff/js/stiff.js:117 | the row count is the larger of the cation and anion group counts |
| Stiff.RowY | stiff/js/stiff.js:117 | pointCreator's y for row i: definition. Facts in RowYSpacing and SidePointsRunDown |
| Stiff.PointAt | stiff/js/stiff.js:112-120 | pointCreator: definition. Facts in PointWithinAxis, PointsShareRow, SidePointsRescaled and TickMarksPoint |
| Stiff.RowYSpacing | stiff/js/stiff.js:35-37 | row 0 is at y = 186, the last row at y = 375.75, and rows go strictly down the page |
| Stiff.PointWithinAxis | stiff/js/stiff.js:115-116 | with 0 ≤ meqL ≤ maxMeqL, a cation point's x is in [125, 300] and an anion point's x in [300, 475]. A group at the scale sits at 125 or 475 |
| Stiff.PointsShareRow | stiff/js/stiff.js:117 | cation and anion points with the same index share their y |
| Stiff.SidePoints | stiff/js/stiff.js:121-122 | a side has one point per group |
| Stiff.SidePointsAt | stiff/js/stiff.js:121-122 | point i of a side is group i placed at row i |
| Stiff.CationPoints | stiff/js/stiff.js:121 | there is one cation point per cation group |
| Stiff.AnionPoints | stiff/js/stiff.js:122 | there is one anion point per anion group |
| Stiff.DiagramPointsWithinAxis | stiff/js/stiff.js:115-122 | for non-negative meqL, every cation point is on the left half of the axis and every anion point on the right half |
| Stiff.LargestGroupAtAxisEnd | stiff/js/stiff.js:21 | for a positive scale, the group with the largest meqL sits at an end of the horizontal axis |
| Stiff.Reverse | stiff/js/stiff.js:129 | reversing keeps the length |
| Stiff.ReverseAt | stiff/js/stiff.js:129 | element k of the reversal is element n − 1 − k of the original |
| Stiff.ReverseInvolution | stiff/js/stiff.js:129 | reversing twice gives the original |
| Stiff.Polygon | stiff/js/stiff.js:127-131 | the polygon has one vertex per cation point and per anion point |
| Stiff.PolygonVertices | stiff/js/stiff.js:127-131 | the vertices are the cation points in order, then the anion points in reverse, so the last vertex is the first anion point |
| Stiff.SidePointsRunDown | stiff/js/stiff.js:117 | each side's points run strictly down the page |
| Stiff.PolygonDownThenUp | stiff/js/stiff.js:127-131 | the polygon runs down along the first side and back up along the second |
| Stiff.DiagramPolygonDownThenUp | stiff/js/stiff.js:121-131 | the diagram's polygon runs down the cation side and back up the anion side |
| Stiff.IonGroupsRescaled | stiff/js/stiff.js:14-18 | multiplying every concentration by k multiplies every group's meqL by k, and leaves its ions unchanged |
| Stiff.SideGroupsRescaled | stiff/js/stiff.js:19-20 | rescaled groups fall on the same sides, in the same order |
| Stiff.MaxMeqLRescaled | stiff/js/stiff.js:21 | a factor k > 0 multiplies maxMeqL by k |
| Stiff.SidePointsRescaled | stiff/js/stiff.js:115-117 | points are unchanged when every meqL and the scale are multiplied by the same factor |
| Stiff.PlaceableRescaled | stiff/js/stiff.js:19-21 | a factor k > 0 keeps a usable scale usable, with the same number of rows |
| Stiff.DiagramScaleInvariant | stiff/js/stiff.js:14-131 | multiplying every group's meqL by k > 0 leaves every point and the polygon unchanged |
| StiffDrawing.IsMajor | stiff/js/stiff.js:59 | the major-tick test: definition. Facts in MajorTicks |
| StiffDrawing.TickAt | stiff/js/stiff.js:59-77 | the tick drawn for i: definition. Facts in TicksSymmetric, TicksIncrease, AxisEnds, TickMarksPoint and TickRescaled |
| StiffDrawing.AxisTicks | stiff/js/stiff.js:57-78 | all ticks for i = −10 .. 10: definition. Facts in AxisTicksAt and MajorTicks |
| StiffDrawing.CreateHorzAxisTicks | stiff/js/stiff.js:57-78 | the tick loop draws the axis ticks for i = −10 .. 10 in order |
| StiffDrawing.AxisTicksAt | stiff/js/stiff.js:58 | there are 21 ticks, and tick k is the one for i = k − 10 |
| StiffDrawing.MajorTicks | stiff/js/stiff.js:29-30 | tick k is major and labelled exactly when 5 divides k, so 5 of the 21 ticks are major |
| StiffDrawing.TicksSymmetric | stiff/js/stiff.js:58-61 | ticks i and −i are mirrored about the vertical axis, are both major or both minor, and print the same value |
| StiffDrawing.TicksIncrease | stiff/js/stiff.js:61 | tick x positions increase with i |
| StiffDrawing.AxisEnds | stiff/js/stiff.js:60-75 | the end ticks are at x = 125 and x = 475 and print maxMeqL. The middle tick is on the vertical axis and prints 0 |
| StiffDrawing.TickMarksPoint | stiff/js/stiff.js:60-61 | a group whose meqL equals the value printed at tick i is plotted at that tick's x (or at tick −i's on the cation side) |
| StiffDrawing.TickRescaled | stiff/js/stiff.js:60-61 | multiplying the scale by k keeps every tick in place and multiplies its printed value by k |
| StiffDrawing.Join | stiff/js/stiff.js:145 | Array.prototype.join: definition. Facts in JoinAppend and JoinShape |
| StiffDrawing.JoinAppend | stiff/js/stiff.js:145 | joining no parts gives the empty text and one part gives that part. Adding a part appends the separator and the part |
| StiffDrawing.SymbolsOfAt | stiff/js/stiff.js:145 | the label's symbol list is the group's ions' symbols, in order |
| StiffDrawing.JoinShape | stiff/js/stiff.js:145 | the joined label text starts with the first symbol and ends with the last. Its length is the symbols' lengths plus one separator between each neighbouring pair |
| StiffDrawing.LabelOf | stiff/js/stiff.js:137-145 | the label of one point: definition. Facts in IonLabelsAt and LabelNamesGroup |
| StiffDrawing.IonLabels | stiff/js/stiff.js:136-148 | all labels of one side: definition. Facts in IonLabelsAt and LabelsRescaled |
| StiffDrawing.CreateIonLabels | stiff/js/stiff.js:136-148 | the label loop labels group i at point i, in order |
| StiffDrawing.IonLabelsAt | stiff/js/stiff.js:136-145 | label k sits 15 units outward from point k (left and end-anchored for cations, right and start-anchored for anions) and 5 units below it |
| StiffDrawing.LabelNamesGroup | stiff/js/stiff.js:145 | a label's text is exactly the group's given symbols joined by " + " |
| StiffDrawing.LabelsRescaled | stiff/js/stiff.js:136-145 | labels do not depend on the groups' meqL |
| StiffDrawing.StiffDiagram | stiff/js/stiff.js:14-150 | the diagram is the axis ticks for the common scale, the polygon through both sides' points, and the labels of both sides |
| StiffDrawing.StiffScaleInvariant | stiff/js/stiff.js:14-150 | a sample with every concentration multiplied by k > 0 draws the same polygon and labels. Only the axis values change, by the factor k |

## Left out

- **Document construction** is not modelled: SVG and DOM calls (`createElementNS`, `setAttribute`, `appendChild`, `getElementById`, the `viewBox`), path strings, the `x,y` coordinate strings of the polygon, and CSS classes. The model returns the drawn values instead.
- **Static decoration** is not modelled: the axis lines and axis captions (`stiff/js/stiff.js:47-55`, `80-110`), the `<use>`/`<symbol>` re-use with rotations, and the triangle and diamond outlines and axis labels (`piper/js/piper.js:79-113`, `124-212`). Each is a constant drawing with no data dependence.
- **Tick labels** keep the tick value as a number. The `toFixed(1)` string formatting is not modelled.
- **Floating point** rounding, `NaN` and `Infinity` are not modelled. Numbers are exact reals, and `tan(π/3)` is the exact square root of three.
- **The `instanceof` constructor guards** are not modelled. They are a JavaScript calling-convention check.
- **Conditions the source assumes but does not check** become preconditions:
  - an unknown symbol, where get returns null and the caller fails;
  - a missing concentration, which would give `NaN`;
  - an empty Stiff group, whose first ion the filter reads;
  - a zero cation or anion total in plotConcentrations;
  - in the Stiff point formula, `maxMeqL == 0`, or a larger side with only one group (max(#cation groups, #anion groups) == 1, for example one cation group and no anion group), where the row spacing divides by zero.
- PiperDrawing.SamplePlotter: this function gives no points for a record that fails these preconditions. It is only used on plottable groups, so that branch models nothing in the source.
