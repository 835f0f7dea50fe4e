/** `getOptimalCostAndNutrition` of `calculate.ts`: the line items become a
    requirement per lower-cased ingredient name, the cheapest-supplier scan
    runs over every product the catalogue returns for the recipe, and the
    nutrition profile is computed from the offers it kept. */
module Optimizer {
  import opened Wrappers
  import opened Text
  import opened Assoc
  import opened Models
  import opened Units
  import opened Sourcing
  import opened Nutrition

  /** The `ingredients` entry one line item writes. */
  function RequirementOf(table: seq<ConversionEntry>, item: LineItem): Requirement {
    var ingredientName := Lower(item.ingredientName);
    Requirement(
      StandardizeIngredientAmount(table, ingredientName, item.unitOfMeasure.uomAmount, item.unitOfMeasure.uomName),
      GetStandardUnit(ingredientName))
  }

  /** The `lineItems.forEach` that fills `ingredients`: each line writes its
      requirement under its lower-cased name, overwriting an earlier one. */
  function BuildRequirements(table: seq<ConversionEntry>, items: seq<LineItem>): Assoc<Requirement>
    decreases |items|
  {
    if |items| == 0 then []
    else
      var last := items[|items| - 1];
      Put(BuildRequirements(table, items[..|items| - 1]), Lower(last.ingredientName), RequirementOf(table, last))
  }

  /** Line `i` is the last line whose lower-cased name is `k`. */
  ghost predicate LastWith(items: seq<LineItem>, k: string, i: int) {
    && 0 <= i < |items|
    && Lower(items[i].ingredientName) == k
    && forall j :: i < j < |items| ==> Lower(items[j].ingredientName) != k
  }

  /** No line's lower-cased name is `k`. */
  ghost predicate NoLineWith(items: seq<LineItem>, k: string) {
    forall j :: 0 <= j < |items| ==> Lower(items[j].ingredientName) != k
  }

  /** Lines with the same lower-cased name collapse into one requirement, and
      the last of them decides it: its amount standardised and the standard
      unit label of the name. A name no line carries has no requirement. */
  lemma {:induction false} BuildRequirementsLookup(table: seq<ConversionEntry>, items: seq<LineItem>, k: string)
    ensures NoLineWith(items, k) ==> Lookup(BuildRequirements(table, items), k).None?
    ensures forall i :: LastWith(items, k, i) ==>
              Lookup(BuildRequirements(table, items), k) ==
                Some(Requirement(
                  StandardizeIngredientAmount(table, k, items[i].unitOfMeasure.uomAmount, items[i].unitOfMeasure.uomName),
                  GetStandardUnit(k)))
    decreases |items|
  {
    if |items| > 0 {
      var prefix := items[..|items| - 1];
      var last := items[|items| - 1];
      BuildRequirementsLookup(table, prefix, k);
      PutLookup(BuildRequirements(table, prefix), Lower(last.ingredientName), RequirementOf(table, last), k);
      if Lower(last.ingredientName) != k {
        LastLineElsewhere(items, k);
        forall i | LastWith(items, k, i)
          ensures Lookup(BuildRequirements(table, items), k) ==
                    Some(Requirement(
                      StandardizeIngredientAmount(table, k, items[i].unitOfMeasure.uomAmount, items[i].unitOfMeasure.uomName),
                      GetStandardUnit(k)))
        {
          assert items[i] == prefix[i];
        }
      } else {
        forall i | LastWith(items, k, i) ensures i == |items| - 1 {
        }
      }
    }
  }

  /** When the last line carries another name, the last line with `k` and
      the absence of `k` are the same over the earlier lines. */
  lemma LastLineElsewhere(items: seq<LineItem>, k: string)
    requires |items| > 0 && Lower(items[|items| - 1].ingredientName) != k
    ensures forall i :: LastWith(items, k, i) ==> LastWith(items[..|items| - 1], k, i)
    ensures NoLineWith(items, k) ==> NoLineWith(items[..|items| - 1], k)
  {
    var prefix := items[..|items| - 1];
    assert forall j :: 0 <= j < |prefix| ==> prefix[j] == items[j];
  }

  /** The requirements carry one entry per lower-cased name. */
  lemma {:induction false} BuildRequirementsDistinct(table: seq<ConversionEntry>, items: seq<LineItem>)
    ensures DistinctKeys(BuildRequirements(table, items))
    decreases |items|
  {
    if |items| > 0 {
      var last := items[|items| - 1];
      BuildRequirementsDistinct(table, items[..|items| - 1]);
      PutShape(BuildRequirements(table, items[..|items| - 1]), Lower(last.ingredientName), RequirementOf(table, last));
    }
  }

  /** `allProducts`: the catalogue's products for each line item, in line
      order. The catalogue (`GetProductsForIngredient`) is a parameter. */
  function AllProducts(catalogue: string -> seq<Product>, items: seq<LineItem>): seq<Product>
    decreases |items|
  {
    if |items| == 0 then []
    else AllProducts(catalogue, items[..|items| - 1]) + catalogue(items[|items| - 1].ingredientName)
  }

  /** A product is scanned exactly when the catalogue returns it for some line. */
  lemma {:induction false} AllProductsMembers(catalogue: string -> seq<Product>, items: seq<LineItem>, p: Product)
    ensures p in AllProducts(catalogue, items) <==> exists i :: 0 <= i < |items| && p in catalogue(items[i].ingredientName)
    decreases |items|
  {
    if |items| > 0 {
      var prefix := items[..|items| - 1];
      AllProductsMembers(catalogue, prefix, p);
      if exists i :: 0 <= i < |items| && p in catalogue(items[i].ingredientName) {
        var i :| 0 <= i < |items| && p in catalogue(items[i].ingredientName);
        if i < |items| - 1 {
          assert prefix[i] == items[i];
        }
      }
      if exists i :: 0 <= i < |prefix| && p in catalogue(prefix[i].ingredientName) {
        var i :| 0 <= i < |prefix| && p in catalogue(prefix[i].ingredientName);
        assert prefix[i] == items[i];
      }
    }
  }

  /** The result of `getOptimalCostAndNutrition`. The profile is `None` where
      the source would divide by a zero recipe weight. */
  datatype Summary = Summary(cheapestCost: real, nutrientsAtCheapestCost: Option<Assoc<NutritionLine>>)

  /** `getOptimalCostAndNutrition`. */
  function GetOptimalCostAndNutrition(table: seq<ConversionEntry>, catalogue: string -> seq<Product>, items: seq<LineItem>): Summary
    requires ValidOffers(AllProducts(catalogue, items))
  {
    var ingredients := BuildRequirements(table, items);
    var optimalSolution := SolveLinearProgram(AllProducts(catalogue, items), ingredients);
    Summary(optimalSolution.totalCost, CalculateNutritionAtOptimalCost(optimalSolution.suppliers))
  }

  /** The cheapest cost is the sum, over the recipe's ingredient names, of
      the cost of each ingredient's cheapest named offer; every such cost is
      at most that of any other offer for the ingredient, and an ingredient
      without one adds nothing. */
  lemma CheapestCostIsSumOfMinima(table: seq<ConversionEntry>, catalogue: string -> seq<Product>, items: seq<LineItem>)
    requires ValidOffers(AllProducts(catalogue, items))
    ensures var products := AllProducts(catalogue, items);
            var ingredients := BuildRequirements(table, items);
            var sol := SolveLinearProgram(products, ingredients);
            && GetOptimalCostAndNutrition(table, catalogue, items).cheapestCost == SumValues(sol.costBreakdown)
            && forall k :: Lookup(sol.costBreakdown, k).Some? ==>
                 && Lookup(ingredients, k).Some?
                 && forall o :: Offered(products, k, o) ==>
                      Lookup(sol.costBreakdown, k).value <= OptionCost(o, k, Lookup(ingredients, k).value.requiredAmount)
  {
    var products := AllProducts(catalogue, items);
    var ingredients := BuildRequirements(table, items);
    var sol := SolveLinearProgram(products, ingredients);
    BuildRequirementsDistinct(table, items);
    TotalCostIsSumOfBreakdown(products, ingredients);
    forall k | Lookup(sol.costBreakdown, k).Some?
      ensures Lookup(ingredients, k).Some?
      ensures forall o :: Offered(products, k, o) ==>
                Lookup(sol.costBreakdown, k).value <= OptionCost(o, k, Lookup(ingredients, k).value.requiredAmount)
    {
      SolveRecords(products, ingredients, k);
      SelectCheapestIsFirstMinimum(products, k, Lookup(ingredients, k).value.requiredAmount);
    }
  }

  /** The recipe weight behind the profile is the cream amount plus 50 g per
      egg plus the sugar amount of the kept offers. */
  lemma RecipeWeightOfSummary(table: seq<ConversionEntry>, catalogue: string -> seq<Product>, items: seq<LineItem>)
    requires ValidOffers(AllProducts(catalogue, items))
    ensures var sol := SolveLinearProgram(AllProducts(catalogue, items), BuildRequirements(table, items));
            FirstPass(sol.suppliers).totalRecipeWeight
            == AmountUsed(sol.suppliers, "cream") + 50.0 * AmountUsed(sol.suppliers, "egg") + AmountUsed(sol.suppliers, "sugar")
  {
    var sol := SolveLinearProgram(AllProducts(catalogue, items), BuildRequirements(table, items));
    SolveDistinct(AllProducts(catalogue, items), BuildRequirements(table, items));
    RecipeWeightByIngredient(sol.suppliers);
  }
}
