/** The alternative conversion and pricing helpers of `main.ts`: a
    conversion that reports a missing table row instead of passing the amount
    through, and a unit price per base unit built on it. */
module MainHelpers {
  import opened Wrappers
  import opened Text
  import opened Models
  import opened Units
  import opened Sourcing

  /** `convertUnits` of `main.ts`: the first exact row's factor, or nothing
      when no row converts between the two units, equal units included. */
  function ConvertUnitsOrNull(table: seq<ConversionEntry>, value: real, from: UoMName, to: UoMName): (r: Option<real>)
    ensures r.None? <==> NoRow(table, from, to)
    ensures forall i :: FirstRow(table, from, to, i) ==> r == Some(value * table[i].conversionFactor)
  {
    match FindConversion(table, from, to)
    case Some(k) =>
      var converted := value * table[k].conversionFactor;
      assert forall i :: FirstRow(table, from, to, i) ==> value * table[i].conversionFactor == converted;
      Some(converted)
    case None => None
  }

  /** `calculatePricePerBaseUnit`: the package price per base unit, using the
      package amount itself when the package is already in the base unit and
      the converted amount otherwise; nothing when no conversion exists. */
  function CalculatePricePerBaseUnit(table: seq<ConversionEntry>, product: SupplierProduct, baseUnitName: UoMName): (r: Option<real>)
    requires product.supplierProductUoM.uomName == baseUnitName ==> product.supplierProductUoM.uomAmount != 0.0
    requires product.supplierProductUoM.uomName != baseUnitName ==>
               ConvertUnitsOrNull(table, product.supplierProductUoM.uomAmount, product.supplierProductUoM.uomName, baseUnitName) != Some(0.0)
    ensures product.supplierProductUoM.uomName == baseUnitName ==> r.Some?
    ensures product.supplierProductUoM.uomName != baseUnitName ==>
              (r.None? <==> NoRow(table, product.supplierProductUoM.uomName, baseUnitName))
  {
    var price := product.supplierPrice;
    var uomAmount := product.supplierProductUoM.uomAmount;
    var uomName := product.supplierProductUoM.uomName;
    if uomName == baseUnitName then Some(price / uomAmount)
    else
      match ConvertUnitsOrNull(table, uomAmount, uomName, baseUnitName)
      case Some(amountInBaseUnit) => Some(price / amountInBaseUnit)
      case None => None
  }

  /** A package already in the base unit: the unit price times the package
      amount gives back the price, whatever the table holds. */
  lemma PricePerBaseUnitSameUnit(table: seq<ConversionEntry>, product: SupplierProduct)
    requires product.supplierProductUoM.uomAmount != 0.0
    ensures var r := CalculatePricePerBaseUnit(table, product, product.supplierProductUoM.uomName);
            r.Some? && r.value * product.supplierProductUoM.uomAmount == product.supplierPrice
  {
    DivideThenMultiply(product.supplierPrice, product.supplierProductUoM.uomAmount);
  }

  /** A package in another unit whose amount the table converts to `c`
      base units: the unit price is the price over `c`, so the unit price
      times `c` gives back the price. */
  lemma PricePerBaseUnitConverted(table: seq<ConversionEntry>, product: SupplierProduct, baseUnitName: UoMName, c: real)
    requires product.supplierProductUoM.uomName != baseUnitName
    requires ConvertUnitsOrNull(table, product.supplierProductUoM.uomAmount, product.supplierProductUoM.uomName, baseUnitName) == Some(c)
    requires c != 0.0
    ensures var r := CalculatePricePerBaseUnit(table, product, baseUnitName);
            r == Some(product.supplierPrice / c) && r.value * c == product.supplierPrice
  {
    DivideThenMultiply(product.supplierPrice, c);
  }

  /** Division by a non-zero amount is undone by multiplying by it. */
  lemma DivideThenMultiply(x: real, d: real)
    requires d != 0.0
    ensures (x / d) * d == x
  {
  }

  /** The two `convertUnits` agree whenever a row converts between distinct
      units; they part ways when no row does (`calculate.ts` passes the amount
      through, `main.ts` reports nothing), even for equal units, where
      `calculate.ts` short-cuts to the amount and `main.ts` still needs a row. */
  lemma ConvertersCompared(table: seq<ConversionEntry>, value: real, from: UoMName, to: UoMName)
    ensures !NoRow(table, from, to) && from != to ==>
              ConvertUnitsOrNull(table, value, from, to) == Some(ConvertUnits(table, value, from, to))
    ensures NoRow(table, from, to) ==>
              ConvertUnitsOrNull(table, value, from, to).None? && ConvertUnits(table, value, from, to) == value
  {
    if !NoRow(table, from, to) && from != to {
      var i := FindConversion(table, from, to).value;
      assert FirstRow(table, from, to, i);
    }
  }

  /** With a kilogram-to-grams row of factor 1000 leading the table, the
      per-gram price of a kilogram sugar package from `main.ts` is the one
      the special case of `calculatePricePerUnit` computes. */
  lemma SugarPerGramAgrees(table: seq<ConversionEntry>, product: SupplierProduct)
    requires product.supplierProductUoM.uomAmount != 0.0
    requires product.supplierProductUoM.uomName == Kilogram
    requires FirstRow(table, Kilogram, Grams, 0) && table[0].conversionFactor == 1000.0
    ensures CalculatePricePerBaseUnit(table, product, Grams) == Some(CalculatePricePerUnit(product, "sugar"))
  {
    assert Lower("sugar") == "sugar";
    assert ConvertUnitsOrNull(table, product.supplierProductUoM.uomAmount, Kilogram, Grams)
        == Some(product.supplierProductUoM.uomAmount * 1000.0);
  }
}
