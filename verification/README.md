# Recipe cost and nutrition optimizer — a Dafny model

This project models the engine that prices a recipe and gives its nutrition profile.

The recipe is a list of ingredient line items. Each line item becomes a requirement:
- it is keyed by the lower-cased ingredient name;
- its amount is standardised (cream and sugar measured in cups are converted to millilitres).

For every requirement, the engine scans every supplier offer of every catalogue product whose name contains the ingredient name:
- each offer is priced per unit, with a special case for sugar sold by the kilogram;
- the first offer with the strictly lowest `requiredAmount * pricePerUnit` is kept;
- the kept costs are summed into the recipe's cheapest cost.

The nutrition profile is computed from the kept offers in two passes:
1. The first pass adds up the recipe weight (cream 1:1, egg 50 g each, sugar 1:1, anything else 0). It also adds up one raw total per nutrient name.
2. The second pass turns each total into grams (Sodium is in milligrams) and then into a per-100 g figure.

The project also models the two helpers of `main.ts`:
- a unit conversion that reports a missing table row instead of passing the amount through;
- a price per base unit built on that conversion.

Modules, one file each:

- `wrappers.dfy` holds `Option`.
- `text.dfy` holds ASCII lower-casing and substring search, the models of `toLowerCase` and `includes`.
- `assoc.dfy` models JavaScript plain objects as insertion-ordered association lists. Writing a key overwrites its entry in place or appends it at the end, so `Object.entries` order is kept.
- `models.dfy` holds the records the engine reads.
- `units.dfy` holds unit conversion, standardisation and the standard unit label.
- `sourcing.dfy` holds product matching, pricing, the cheapest-offer scan and `solveLinearProgram`.
- `nutrition.dfy` holds the two nutrition passes.
- `optimizer.dfy` holds the line-item map and `getOptimalCostAndNutrition`.
- `main_helpers.dfy` holds the `main.ts` helpers.

Each fold of the source (`forEach`, `reduce`) is a recursive function over the prefix and the last element. Each has an independent reference definition, such as `FactsTotal`, `NutrientTotal`, `Recorded` or `LastWith`, and a per-key lemma connects the fold to it.

The unit table (`GetUnitsData()`) is a parameter. The catalogue (`GetProductsForIngredient`) is also a parameter, a function from a line item's ingredient name to products.

Two behaviours of `calculate.ts` are worth knowing before reading the model:

- **Failed conversions.** When no table row converts between two distinct units, `convertUnits` returns the amount unchanged (calculate.ts:16). `ConvertUnits` does the same.
- **Price normalisation.** `calculatePricePerUnit` does not consult the unit table. Its only special case is sugar sold by the kilogram, priced per gram (calculate.ts:164-169). `CalculatePricePerUnit` does the same.

## Model

| member | source | states |
|---|---|---|
| Assoc.Put | calculate.ts:44 | Writing a key the object does not hold appends it after every existing entry. |
| Assoc.PutLookup | calculate.ts:120-121 | After writing `k`, reading `k` gives the written value and reading any other key gives what it gave before. |
| Assoc.PutShape | calculate.ts:120-123 | Writing keeps every existing key at its position, adds one entry only for a new key, and never creates a second entry for a key. |
| Assoc.AddToLookup | calculate.ts:204-207 | Adding to `k` makes `k` read its old value, or 0 when absent, plus the amount; every other key reads as before. |
| Text.Lower | calculate.ts:142-143 | Lower-casing keeps the length, turns each upper-case ASCII letter into its lower-case letter (code point plus 32), keeps every other character, and leaves no upper-case letter. |
| Text.Includes | calculate.ts:152 | `includes` holds exactly when the keyword occurs at some position of the text. |
| Units.FindConversion | calculate.ts:12-14 | `find` returns the first row converting exactly from `from` to `to`, and finds nothing exactly when no row does. |
| Units.ConvertUnits | calculate.ts:9-17 | Equal units give the amount back. Otherwise the amount is multiplied by the factor of the first exactly matching row, or passed through when no row matches. |
| Units.StandardizeIngredientAmount | calculate.ts:19-29 | Only cream or sugar measured in cups changes: it becomes the amount times the first cups-to-millilitres factor. Eggs, other ingredients and other units keep the amount. |
| Units.StandardizeIgnoresCase | calculate.ts:21-25 | Standardising the lower-cased name gives the same amount as the name as written. |
| Units.GetStandardUnit | calculate.ts:68-75 | Cream gets ml, egg gets whole and sugar gets grams, compared after lower-casing; the label is units exactly when the lower-cased name is none of the three. |
| Units.StandardUnitIgnoresCase | calculate.ts:74 | The label does not depend on the case of the name. |
| Sourcing.MatchingKeywords | calculate.ts:145-151 | The keyword table maps every lower-cased name to the list holding just that name. |
| Sourcing.SomeIncluded | calculate.ts:152 | `some` holds exactly when some keyword occurs in the text. |
| Sourcing.IsProductMatchingIngredient | calculate.ts:141-153 | A product matches exactly when its lower-cased name contains the lower-cased ingredient name. |
| Sourcing.EmptyNameMatchesEverything | calculate.ts:152 | An empty ingredient name matches every product, because every string includes the empty string. |
| Sourcing.CalculatePricePerUnit | calculate.ts:155-172 | The unit price of an offer. Its contract is stated by `PricePerUnitTimesPackage` (next row). |
| Sourcing.PricePerUnitTimesPackage | calculate.ts:155-172 | The unit price times the package amount gives back the price. For sugar sold by the kilogram, the package is counted as amount times 1000 grams; in every other case as the package's own amount. |
| Sourcing.Candidates | calculate.ts:98-100 | The scanned offers are exactly the offers of the matching products. |
| Sourcing.CheapestIndex | calculate.ts:101-113 | The scan finds nothing only on no offers. The kept offer costs no more than any offer, and strictly less than every offer before it, so ties keep the first seen. |
| Sourcing.CheapestBeatsOffered | calculate.ts:98-116 | The kept offer's cost is at most that of every offer the scan visits. |
| Sourcing.ScanKeepsFirst | calculate.ts:104 | The kept offer is strictly cheaper than every offer scanned before it. |
| Sourcing.SelectCheapestIsFirstMinimum | calculate.ts:90-116 | There is no best option exactly when no offer matches. Otherwise the best option is a matching offer whose supplier is that offer's supplier name, with the offer's unit price and cost `requiredAmount * pricePerUnit`. Its cost is minimal, and it is the first offer of minimal cost. |
| Sourcing.SelectCheapest | calculate.ts:111 | The best option needs exactly the amount required. |
| Sourcing.SolveLinearProgram | calculate.ts:77-139 | The per-ingredient scans and the four output objects. Its contract is stated by `SolveSatisfied`, `SolveRecords`, `SolveDistinct` and `TotalCostIsSumOfBreakdown` (next rows). |
| Sourcing.SolveSatisfied | calculate.ts:118-127 | Every recorded supplier has a non-empty name, and every recorded constraint is satisfied, with provided equal to required. |
| Sourcing.SolveRecords | calculate.ts:118-130 | An ingredient appears in `suppliers`, in `costBreakdown` and, under `constraint_` followed by its name, in `constraintsSatisfied` exactly when its scan kept a named supplier. Its supplier entry is that best option, and its cost entry is that option's cost. |
| Sourcing.SolveDistinct | calculate.ts:120-123 | The three output objects have one entry per ingredient name. |
| Sourcing.TotalCostIsSumOfBreakdown | calculate.ts:119-120 | `totalCost` is the sum of the `costBreakdown` entries. |
| Nutrition.CalculateNutrientAmount | calculate.ts:246-266 | One fact's contribution to a nutrient total. Its contract is stated by `NutrientAmountScales` (next row). |
| Nutrition.NutrientAmountScales | calculate.ts:246-266 | A hundred times a fact's contribution is the amount used times the fact's amount, with the amount used times 50 for eggs against a per-grams fact. The reference amount `quantityPer.uomAmount` plays no part. |
| Nutrition.FactsTotal | calculate.ts:200-208 | The reference total of one nutrient over one product's facts is zero when no fact names it. |
| Nutrition.AddNutrients | calculate.ts:200-208 | The inner loop of the first pass. Its contract is stated by `AddNutrientsLookup` and `AddNutrientsDistinct` (next rows). |
| Nutrition.AddNutrientsLookup | calculate.ts:200-208 | Adding one product's facts grows the running total of a nutrient by that product's total for it, starting from 0 when absent, and leaves nutrients it does not list untouched. |
| Nutrition.AddNutrientsDistinct | calculate.ts:204-207 | Accumulating never creates a second entry for a nutrient name. |
| Nutrition.NutrientTotal | calculate.ts:181-208 | The reference total of a nutrient over all kept offers is zero when no kept product lists it. |
| Nutrition.FirstPass | calculate.ts:181-210 | The first pass. Its contract is stated by `FirstPassTotals`, `FirstPassDistinct` and `RecipeWeightByIngredient` (next rows). |
| Nutrition.FirstPassTotals | calculate.ts:181-210 | After the first pass, a nutrient has an entry exactly when some kept product lists it, and the entry is its reference total over all kept offers. |
| Nutrition.FirstPassDistinct | calculate.ts:204-207 | The raw totals have one entry per nutrient name. |
| Nutrition.RecipeWeightByIngredient | calculate.ts:187-197 | The recipe weight is the cream amount plus 50 times the egg amount plus the sugar amount; every other ingredient weighs nothing. |
| Nutrition.Per100gRoundTrip | calculate.ts:216-225 | The per-100 g figure times the weight over 100 gives back the total in grams, which for Sodium is the milligram total over 1000. |
| Nutrition.SecondPass | calculate.ts:214-241 | The second pass. Its contract is stated by `SecondPassKeys` and `SecondPassLookup` (next rows). |
| Nutrition.SecondPassKeys | calculate.ts:214-227 | The second pass keeps the nutrient names in the order of the raw totals, one line each. |
| Nutrition.SecondPassLookup | calculate.ts:214-241 | A nutrient has a line exactly when it has a raw total. The line carries the nutrient's name and its per-100 g figure. |
| Nutrition.CalculateNutritionAtOptimalCost | calculate.ts:174-244 | The profile is missing only when the recipe weight is zero. |
| Nutrition.NutritionUndefined | calculate.ts:225 | The profile is missing exactly when some kept product lists a nutrient and the recipe weight is zero. |
| Nutrition.NutritionProfileLines | calculate.ts:174-241 | The profile has a line for a nutrient exactly when some kept product lists it. The line is the nutrient's raw total over all kept offers, in grams, divided by the recipe weight and scaled to 100 g. |
| Nutrition.NutritionProfileOrder | calculate.ts:214-227 | The profile lists the nutrient names in order of first appearance in the first pass, one line each. |
| Optimizer.BuildRequirements | calculate.ts:35-50 | The `ingredients` object built from the line items. Its contract is stated by `BuildRequirementsLookup` and `BuildRequirementsDistinct` (next rows). |
| Optimizer.BuildRequirementsLookup | calculate.ts:36-50 | Lines with the same lower-cased name collapse into one requirement, and the last of them decides its standardised amount and its unit label. A name no line carries has no requirement. |
| Optimizer.BuildRequirementsDistinct | calculate.ts:35-50 | The `ingredients` object has one entry per lower-cased name. |
| Optimizer.AllProducts | calculate.ts:84-86 | The products scanned for the recipe. Its contract is stated by `AllProductsMembers` (next row). |
| Optimizer.AllProductsMembers | calculate.ts:84-86 | The scanned products are exactly those the catalogue returns for some line item. |
| Optimizer.GetOptimalCostAndNutrition | calculate.ts:32-66 | The cheapest cost and the nutrition profile of a recipe. Its contract is stated by `CheapestCostIsSumOfMinima` and `RecipeWeightOfSummary` (next rows), with the profile described by `NutritionProfileLines`. |
| Optimizer.CheapestCostIsSumOfMinima | calculate.ts:32-66 | The cheapest cost is the sum of the recorded per-ingredient costs. Each of these belongs to an ingredient of the recipe and is at most the cost of any offer matching that ingredient. |
| Optimizer.RecipeWeightOfSummary | calculate.ts:54-57 | The weight behind the profile is the kept cream amount plus 50 times the kept egg amount plus the kept sugar amount. |
| MainHelpers.ConvertUnitsOrNull | main.ts:31-47 | The result is the value times the first exactly matching row's factor, and nothing exactly when no row matches, even for equal units. |
| MainHelpers.CalculatePricePerBaseUnit | main.ts:49-70 | A package already in the base unit always has a price. For any other unit, there is a price exactly when the table converts the package's unit to the base unit. |
| MainHelpers.PricePerBaseUnitSameUnit | main.ts:55-57 | In the base unit, the price per unit times the package amount is the price, whatever the table holds. |
| MainHelpers.PricePerBaseUnitConverted | main.ts:59-65 | In another unit that the table converts to some non-zero amount of base units, the price per unit is the price over that amount, and times that amount it gives back the price. |
| MainHelpers.ConvertersCompared | main.ts:31-47 | The converters of the two files agree when a row converts between distinct units. When no row matches, `main.ts` gives nothing while `calculate.ts` passes the value through. |
| MainHelpers.SugarPerGramAgrees | main.ts:49-65 | With a leading kilogram-to-grams row of factor 1000, the per-gram price of a kilogram package matches the sugar special case of `calculatePricePerUnit`. |

## Left out

- Optimizer.AllProducts: the catalogue is keyed by the line item's ingredient name. The source passes the whole ingredient object to `GetProductsForIngredient` (calculate.ts:84), and `LineItem` keeps only the name.
- Data access: `GetUnitsData` and `GetProductsForIngredient` become parameters. `supporting-files/models` and `supporting-files/data-access` are not part of this model.
- Console output and the driver: `main.ts` lines 4-9 and 71-81, the `console.error` calls, and the stubs `calPrice` and `callNutri` (main.ts:16-30). These are I/O or return constants.
- `supporting-files/testing.ts`: fixed expected data and a string comparison.
- Rounding: `parseFloat(per100gAmount.toFixed(3))` is decimal rounding of a float. The model keeps the exact real per-100 g figure.
- Floating point: all arithmetic is on exact reals.
  - The `Infinity` sentinel of the scan is an `Option`.
  - Package amounts are required to be non-zero.
  - A zero recipe weight with nutrients to report, where the source produces NaN or Infinity, is reported as a missing profile.
- MainHelpers.CalculatePricePerBaseUnit: requires a non-zero package amount when the package is in the base unit, and a non-zero converted amount. The source would divide by zero and return Infinity or NaN there. A package in another unit that the table cannot convert gives nothing whatever its amount, as in the source.
- Lower-casing covers ASCII letters only. Other Unicode case mappings of `toLowerCase` are not modelled.
- Object keys are compared as plain strings in insertion order. Integer-like keys, which JavaScript enumerates first, and keys that collide with `Object.prototype` members are not modelled.
- Echo-only fields are not modelled:
  - `decisionVariables`;
  - `originalAmount` and `originalUnit` of a requirement;
  - the constant `uomName`, `uomType` and `quantityPer` of a nutrition line.
- The `supplier && supplier.product` guard of the first nutrition pass always holds for records the scan stores, so it is not modelled.
