/** Unit conversion and amount standardisation of `calculate.ts`. */
module Units {
  import opened Wrappers
  import opened Text
  import opened Models

  /** A table row converts from `from` to `to`. */
  predicate Converts(e: ConversionEntry, from: UoMName, to: UoMName) {
    e.fromUnitName == from && e.toUnitName == to
  }

  /** Row `i` is the first row of `table` converting from `from` to `to`. */
  ghost predicate FirstRow(table: seq<ConversionEntry>, from: UoMName, to: UoMName, i: int) {
    && 0 <= i < |table|
    && Converts(table[i], from, to)
    && forall j :: 0 <= j < i ==> !Converts(table[j], from, to)
  }

  /** No row of `table` converts from `from` to `to`. */
  ghost predicate NoRow(table: seq<ConversionEntry>, from: UoMName, to: UoMName) {
    forall j :: 0 <= j < |table| ==> !Converts(table[j], from, to)
  }

  /** `GetUnitsData().find(...)`: the position of the first matching row. */
  function FindConversion(table: seq<ConversionEntry>, from: UoMName, to: UoMName): (r: Option<nat>)
    ensures r.Some? ==> FirstRow(table, from, to, r.value)
    ensures r.Some? ==> forall i :: FirstRow(table, from, to, i) ==> i == r.value
    ensures r.None? <==> NoRow(table, from, to)
  {
    if |table| == 0 then None
    else if Converts(table[0], from, to) then Some(0)
    else
      match FindConversion(table[1..], from, to)
      case None =>
        assert forall j :: 1 <= j < |table| ==> table[j] == table[1..][j - 1];
        None
      case Some(i) =>
        assert forall j :: 1 <= j <= i + 1 ==> table[j] == table[1..][j - 1];
        Some(i + 1)
  }

  /** `convertUnits` of `calculate.ts`: the identity on equal units, else the
      first exact row's factor, else the amount unchanged. */
  function ConvertUnits(table: seq<ConversionEntry>, amount: real, from: UoMName, to: UoMName): (r: real)
    ensures from == to ==> r == amount
    ensures forall i :: from != to && FirstRow(table, from, to, i) ==> r == amount * table[i].conversionFactor
    ensures from != to && NoRow(table, from, to) ==> r == amount
  {
    if from == to then amount
    else
      match FindConversion(table, from, to)
      case Some(i) => amount * table[i].conversionFactor
      case None => amount
  }

  /** `standardizeIngredientAmount`: cream and sugar measured in cups are
      converted to millilitres; every other case keeps the amount. */
  function StandardizeIngredientAmount(table: seq<ConversionEntry>, ingredient: string, amount: real, unit: UoMName): (r: real)
    ensures (Lower(ingredient) != "cream" && Lower(ingredient) != "sugar") || unit != Cups ==> r == amount
    ensures forall i ::
              (Lower(ingredient) == "cream" || Lower(ingredient) == "sugar") && unit == Cups && FirstRow(table, Cups, Millilitres, i)
              ==> r == amount * table[i].conversionFactor
    ensures NoRow(table, Cups, Millilitres) ==> r == amount
  {
    if Lower(ingredient) == "cream" then
      if unit == Cups then ConvertUnits(table, amount, Cups, Millilitres) else amount
    else if Lower(ingredient) == "sugar" then
      if unit == Cups then ConvertUnits(table, amount, Cups, Millilitres) else amount
    else if Lower(ingredient) == "egg" then
      amount
    else
      amount
  }

  /** Standardisation does not depend on the case of the ingredient name. */
  lemma StandardizeIgnoresCase(table: seq<ConversionEntry>, ingredient: string, amount: real, unit: UoMName)
    ensures StandardizeIngredientAmount(table, Lower(ingredient), amount, unit)
         == StandardizeIngredientAmount(table, ingredient, amount, unit)
  {
    LowerIdempotent(ingredient);
  }

  /** `getStandardUnit`: the unit label recorded next to a requirement. */
  function GetStandardUnit(ingredient: string): (r: string)
    ensures Lower(ingredient) == "cream" ==> r == "ml"
    ensures Lower(ingredient) == "egg" ==> r == "whole"
    ensures Lower(ingredient) == "sugar" ==> r == "grams"
    ensures r == "units" <==> Lower(ingredient) !in {"cream", "egg", "sugar"}
  {
    var key := Lower(ingredient);
    if key == "cream" then "ml"
    else if key == "egg" then "whole"
    else if key == "sugar" then "grams"
    else "units"
  }

  /** The label does not depend on the case of the ingredient name. */
  lemma StandardUnitIgnoresCase(ingredient: string)
    ensures GetStandardUnit(Lower(ingredient)) == GetStandardUnit(ingredient)
  {
    LowerIdempotent(ingredient);
  }
}
