/** Small failure-compatible wrapper used where the source returns `null`. */
module Wrappers {
  datatype Option<+T> = None | Some(value: T)
}

/** A position in a diagram's view box; y grows downwards. */
module Geometry {
  datatype Point = Point(x: real, y: real)
}

/**
 * The ion table and the mg/L -> mEq/L conversion (core/js/ions.js).
 *
 * An `Ion` is an immutable record; its four accessors (getSymbol, getName,
 * getValence, getFormulaWeight) are the datatype's destructors, which return
 * the constructor arguments unchanged. JavaScript numbers are modelled as
 * exact reals.
 */
module Ions {
  import opened Wrappers

  datatype Ion = Ion(symbol: string, name: string, valence: int, formulaWeight: real)

  function Abs(n: int): (a: nat)
    ensures a == n || a == -n
  {
    if n < 0 then -n else n
  }

  /** getMeqL: milliequivalents per litre of `concMgL` mg/L of `ion`. */
  function MeqL(ion: Ion, concMgL: real): real
    requires ion.formulaWeight != 0.0
  {
    concMgL * (Abs(ion.valence) as real / ion.formulaWeight)
  }

  /** getMeqL times the formula weight is the concentration times the charge. */
  lemma MeqLCrossMultiplied(ion: Ion, c: real)
    requires ion.formulaWeight != 0.0
    ensures MeqL(ion, c) * ion.formulaWeight == c * Abs(ion.valence) as real
  {
    var v, w := Abs(ion.valence) as real, ion.formulaWeight;
    assert (c * (v / w)) * w == c * ((v / w) * w);
  }

  /**
   * For a positive formula weight, getMeqL has the sign of the
   * concentration, and is zero only for a zero concentration of a charged ion.
   */
  lemma MeqLSign(ion: Ion, c: real)
    requires ion.formulaWeight > 0.0
    ensures c >= 0.0 ==> MeqL(ion, c) >= 0.0
    ensures c <= 0.0 ==> MeqL(ion, c) <= 0.0
    ensures ion.valence != 0 ==> (MeqL(ion, c) == 0.0 <==> c == 0.0)
  {
    var f := Abs(ion.valence) as real / ion.formulaWeight;
    assert f >= 0.0;
    assert ion.valence != 0 ==> f > 0.0;
  }

  /** getMeqL is linear in the concentration. */
  lemma MeqLLinear(ion: Ion, k: real, c: real)
    requires ion.formulaWeight != 0.0
    ensures MeqL(ion, k * c) == k * MeqL(ion, c)
  {
    var f := Abs(ion.valence) as real / ion.formulaWeight;
    assert (k * c) * f == k * (c * f);
  }

  /** The eight built-in ions, in table order. */
  const Calcium := Ion("Ca", "Calcium", 2, 40.078)
  const Magnesium := Ion("Mg", "Magnesium", 2, 24.305)
  const Sodium := Ion("Na", "Sodium", 1, 22.98976928)
  const Potassium := Ion("K", "Potassium", 1, 39.0983)
  const Chloride := Ion("Cl", "Chloride", -1, 35.45)
  const Sulfate := Ion("SO4", "Sulfate", -2, 32.066 + 15.999 * 4.0)
  const Carbonate := Ion("CO3", "Carbonate", -2, 12.011 + 15.999 * 3.0)
  const Bicarbonate := Ion("HCO3", "Bicarbonate", -1, 1.008 + 12.011 + 15.999 * 3.0)

  /** The fixed ion table, in the order IonFactory lists it. */
  function Table(): seq<Ion> {
    [Calcium, Magnesium, Sodium, Potassium, Chloride, Sulfate, Carbonate, Bicarbonate]
  }

  /**
   * Four cations followed by four anions, all with a positive formula weight,
   * a charge of one or two, and distinct symbols.
   */
  lemma TableFacts()
    ensures |Table()| == 8
    ensures forall i :: 0 <= i < |Table()| ==> Table()[i].formulaWeight > 0.0
    ensures forall i :: 0 <= i < |Table()| ==> (Table()[i].valence > 0 <==> i < 4) && Table()[i].valence != 0
    ensures forall i :: 0 <= i < |Table()| ==> 1 <= Abs(Table()[i].valence) <= 2
    ensures forall i, j :: 0 <= i < j < |Table()| ==> Table()[i].symbol != Table()[j].symbol
  {
  }

  /** The symbols of the table, in order. */
  const Symbols: seq<string> := ["Ca", "Mg", "Na", "K", "Cl", "SO4", "CO3", "HCO3"]

  /** `ions[i]` carries `symbol` and no earlier entry does. */
  predicate FirstMatchAt(ions: seq<Ion>, symbol: string, i: int) {
    0 <= i < |ions| && ions[i].symbol == symbol
    && forall j :: 0 <= j < i ==> ions[j].symbol != symbol
  }

  /** `ions.filter(ion => ion.getSymbol() == symbol)`. */
  function FilterSymbol(ions: seq<Ion>, symbol: string): (matches: seq<Ion>)
    ensures |matches| <= |ions|
  {
    FilterPrefix(ions, symbol, |ions|)
  }

  /** What the filter has kept after visiting the first `n` entries. */
  function FilterPrefix(ions: seq<Ion>, symbol: string, n: nat): (matches: seq<Ion>)
    requires n <= |ions|
    ensures |matches| <= n
  {
    if n == 0 then []
    else
      var kept := FilterPrefix(ions, symbol, n - 1);
      if ions[n - 1].symbol == symbol then kept + [ions[n - 1]] else kept
  }

  /** The filter is empty exactly when nothing matches; otherwise it starts with the first match. */
  lemma FilterFindsFirst(ions: seq<Ion>, symbol: string)
    ensures |FilterSymbol(ions, symbol)| == 0 <==> forall i :: 0 <= i < |ions| ==> ions[i].symbol != symbol
    ensures |FilterSymbol(ions, symbol)| > 0 ==>
      exists i :: FirstMatchAt(ions, symbol, i) && ions[i] == FilterSymbol(ions, symbol)[0]
  {
    FilterPrefixFindsFirst(ions, symbol, |ions|);
  }

  lemma {:induction false} FilterPrefixFindsFirst(ions: seq<Ion>, symbol: string, n: nat)
    requires n <= |ions|
    ensures |FilterPrefix(ions, symbol, n)| == 0 <==> forall i :: 0 <= i < n ==> ions[i].symbol != symbol
    ensures |FilterPrefix(ions, symbol, n)| > 0 ==>
      exists i :: FirstMatchAt(ions, symbol, i) && ions[i] == FilterPrefix(ions, symbol, n)[0]
  {
    if n > 0 {
      FilterPrefixFindsFirst(ions, symbol, n - 1);
      var kept := FilterPrefix(ions, symbol, n - 1);
      if |kept| == 0 {
        if ions[n - 1].symbol == symbol {
          assert FirstMatchAt(ions, symbol, n - 1);
        }
      } else {
        assert FilterPrefix(ions, symbol, n)[0] == kept[0];
      }
    }
  }

  /** IonFactory.get: the first table entry with this symbol, or None (`null`). */
  function Get(symbol: string): (r: Option<Ion>)
    ensures r.Some? ==> r.value.symbol == symbol && r.value.formulaWeight > 0.0 && r.value.valence != 0
  {
    var matches := FilterSymbol(Table(), symbol);
    TableFacts();
    FilterFindsFirst(Table(), symbol);
    if |matches| > 0 then Some(matches[0]) else None
  }

  /** get returns null exactly for a symbol that is not in the table, and otherwise its first entry. */
  lemma GetFindsFirst(symbol: string)
    ensures Get(symbol).None? <==> forall i :: 0 <= i < |Table()| ==> Table()[i].symbol != symbol
    ensures Get(symbol).Some? ==> exists i :: FirstMatchAt(Table(), symbol, i) && Table()[i] == Get(symbol).value
  {
    FilterFindsFirst(Table(), symbol);
  }

  /** Every table symbol is found, and it is found at its own entry. */
  lemma GetTableEntry(i: nat)
    requires i < |Table()|
    ensures Get(Table()[i].symbol) == Some(Table()[i])
  {
    var r := Get(Table()[i].symbol);
    TableFacts();
    GetFindsFirst(Table()[i].symbol);
    assert r.Some?;
    var k :| FirstMatchAt(Table(), Table()[i].symbol, k) && Table()[k] == r.value;
    assert k == i;
  }

  /** `Symbols` lists the table's symbols in order. */
  lemma TableSymbols()
    ensures |Symbols| == |Table()|
    ensures forall i :: 0 <= i < |Table()| ==> Table()[i].symbol == Symbols[i]
  {
  }

  /** The known symbols are exactly `Symbols`; any other string is unknown. */
  lemma GetKnownExactly(s: string)
    ensures Get(s).Some? <==> s in Symbols
  {
    GetFindsFirst(s);
    TableSymbols();
    if s in Symbols {
      var i :| 0 <= i < |Symbols| && Symbols[i] == s;
      assert Table()[i].symbol == s;
    }
    if Get(s).Some? {
      var i :| FirstMatchAt(Table(), s, i);
      assert Symbols[i] == s;
    }
  }

  /** The lookup result for each of the eight symbols. */
  lemma GetSymbols()
    ensures Get("Ca") == Some(Calcium) && Get("Mg") == Some(Magnesium)
    ensures Get("Na") == Some(Sodium) && Get("K") == Some(Potassium)
    ensures Get("Cl") == Some(Chloride) && Get("SO4") == Some(Sulfate)
    ensures Get("CO3") == Some(Carbonate) && Get("HCO3") == Some(Bicarbonate)
  {
    GetCations();
    GetAnions();
  }

  lemma GetCations()
    ensures Get("Ca") == Some(Calcium) && Get("Mg") == Some(Magnesium)
    ensures Get("Na") == Some(Sodium) && Get("K") == Some(Potassium)
  {
    GetTableEntry(0); GetTableEntry(1); GetTableEntry(2); GetTableEntry(3);
  }

  lemma GetAnions()
    ensures Get("Cl") == Some(Chloride) && Get("SO4") == Some(Sulfate)
    ensures Get("CO3") == Some(Carbonate) && Get("HCO3") == Some(Bicarbonate)
  {
    GetTableEntry(4); GetTableEntry(5); GetTableEntry(6); GetTableEntry(7);
  }
}
