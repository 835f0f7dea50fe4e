/** The records the optimizer reads: units of measure, the unit conversion
    table, catalogue products with their supplier offers and nutrient facts,
    and recipe line items. The source takes these shapes from
    `supporting-files/models`, which is not part of this model; only the
    fields the core reads are kept. */
module Models {

  /** The units the core compares against by name; `OtherUnit` stands for
      any further unit the data may carry, and never carries the name of one
      of the listed units (the source compares enum values, so `Cups` and an
      `OtherUnit` named "cups" would be the same unit there). */
  datatype UoMName = Cups | Millilitres | Grams | Kilogram | Whole | OtherUnit(name: string)

  /** An amount together with its unit (`uomAmount`, `uomName`). */
  datatype UnitOfMeasure = UnitOfMeasure(uomAmount: real, uomName: UoMName)

  /** One directed row of the unit table: `amount` in `fromUnitName` is
      `amount * conversionFactor` in `toUnitName`. */
  datatype ConversionEntry = ConversionEntry(fromUnitName: UoMName, toUnitName: UoMName, conversionFactor: real)

  /** "`quantityAmount` of the nutrient per `quantityPer` of product". */
  datatype NutrientFact = NutrientFact(nutrientName: string, quantityAmount: UnitOfMeasure, quantityPer: UnitOfMeasure)

  /** One supplier's offer: a package of `supplierProductUoM` for `supplierPrice`. */
  datatype SupplierProduct = SupplierProduct(supplierName: string, supplierPrice: real, supplierProductUoM: UnitOfMeasure)

  datatype Product = Product(productName: string, nutrientFacts: seq<NutrientFact>, supplierProducts: seq<SupplierProduct>)

  /** One recipe line: an ingredient name and the quantity asked for. */
  datatype LineItem = LineItem(ingredientName: string, unitOfMeasure: UnitOfMeasure)
}
