/** The two-pass nutrition computation of `calculate.ts`
    (`calculateNutritionAtOptimalCost` and `calculateNutrientAmount`),
    evaluated on the offers the cheapest-supplier scan kept. */
module Nutrition {
  import opened Wrappers
  import opened Text
  import opened Assoc
  import opened Models
  import opened Sourcing

  /** The weight in grams an ingredient adds to the recipe. The key is
      compared as given: the keys of `suppliers` are already lower-case. */
  function WeightInGrams(ingredientName: string, amountUsed: real): real {
    if ingredientName == "cream" then amountUsed
    else if ingredientName == "egg" then amountUsed * 50.0
    else if ingredientName == "sugar" then amountUsed
    else 0.0
  }

  /** `calculateNutrientAmount`: the fact's amount scaled by the amount used
      over a fixed 100, where eggs against a per-grams fact count 50 g each. */
  function CalculateNutrientAmount(nutrient: NutrientFact, amountUsed: real, ingredientName: string): real {
    var nutrientPer100Units := nutrient.quantityAmount.uomAmount;
    var per100UnitsType := nutrient.quantityPer.uomName;
    var standardizedAmountUsed :=
      if Lower(ingredientName) == "cream" && per100UnitsType == Millilitres then amountUsed
      else if Lower(ingredientName) == "egg" && per100UnitsType == Grams then amountUsed * 50.0
      else if Lower(ingredientName) == "sugar" && per100UnitsType == Grams then amountUsed
      else amountUsed;
    (standardizedAmountUsed / 100.0) * nutrientPer100Units
  }

  /** A hundred times the contribution is the fact's amount times the amount
      used (times 50 for eggs against a per-grams fact), whatever reference
      amount `quantityPer.uomAmount` the fact states. */
  lemma NutrientAmountScales(nutrient: NutrientFact, amountUsed: real, ingredientName: string, referenceAmount: real)
    ensures var r := CalculateNutrientAmount(nutrient, amountUsed, ingredientName);
            && (Lower(ingredientName) == "egg" && nutrient.quantityPer.uomName == Grams
                ==> r * 100.0 == amountUsed * 50.0 * nutrient.quantityAmount.uomAmount)
            && (!(Lower(ingredientName) == "egg" && nutrient.quantityPer.uomName == Grams)
                ==> r * 100.0 == amountUsed * nutrient.quantityAmount.uomAmount)
    ensures var other := nutrient.(quantityPer := nutrient.quantityPer.(uomAmount := referenceAmount));
            CalculateNutrientAmount(other, amountUsed, ingredientName) == CalculateNutrientAmount(nutrient, amountUsed, ingredientName)
  {
  }

  /** Some fact in `facts` is about nutrient `n`: the last one, or one of
      those before it. */
  ghost predicate FactNamed(facts: seq<NutrientFact>, n: string)
    decreases |facts|
  {
    |facts| > 0 && (facts[|facts| - 1].nutrientName == n || FactNamed(facts[..|facts| - 1], n))
  }

  /** Reference definition: the total of nutrient `n` over the facts about it. */
  function FactsTotal(facts: seq<NutrientFact>, n: string, amountUsed: real, ingredientName: string): (r: real)
    ensures !FactNamed(facts, n) ==> r == 0.0
    decreases |facts|
  {
    if |facts| == 0 then 0.0
    else
      var last := facts[|facts| - 1];
      FactsTotal(facts[..|facts| - 1], n, amountUsed, ingredientName)
      + (if last.nutrientName == n then CalculateNutrientAmount(last, amountUsed, ingredientName) else 0.0)
  }

  /** The inner `forEach` of the first pass: every fact of one product is
      added into the running totals under its nutrient name. */
  function AddNutrients(raw: Assoc<real>, facts: seq<NutrientFact>, amountUsed: real, ingredientName: string): Assoc<real>
    decreases |facts|
  {
    if |facts| == 0 then raw
    else
      var last := facts[|facts| - 1];
      AddTo(AddNutrients(raw, facts[..|facts| - 1], amountUsed, ingredientName),
            last.nutrientName, CalculateNutrientAmount(last, amountUsed, ingredientName))
  }

  /** After one product, nutrient `n` has grown by the product's total for
      `n` when the product lists `n`, and is untouched otherwise. */
  lemma {:induction false} AddNutrientsLookup(raw: Assoc<real>, facts: seq<NutrientFact>, amountUsed: real, ingredientName: string, n: string)
    ensures Lookup(AddNutrients(raw, facts, amountUsed, ingredientName), n) ==
              if FactNamed(facts, n) then Some(Lookup(raw, n).GetOr(0.0) + FactsTotal(facts, n, amountUsed, ingredientName))
              else Lookup(raw, n)
    decreases |facts|
  {
    if |facts| > 0 {
      var prefix := facts[..|facts| - 1];
      var last := facts[|facts| - 1];
      AddNutrientsLookup(raw, prefix, amountUsed, ingredientName, n);
      AddToLookup(AddNutrients(raw, prefix, amountUsed, ingredientName), last.nutrientName,
                  CalculateNutrientAmount(last, amountUsed, ingredientName), n);
    }
  }

  /** Adding a product's facts never duplicates a nutrient name. */
  lemma {:induction false} AddNutrientsDistinct(raw: Assoc<real>, facts: seq<NutrientFact>, amountUsed: real, ingredientName: string)
    requires DistinctKeys(raw)
    ensures DistinctKeys(AddNutrients(raw, facts, amountUsed, ingredientName))
    decreases |facts|
  {
    if |facts| > 0 {
      AddNutrientsDistinct(raw, facts[..|facts| - 1], amountUsed, ingredientName);
    }
  }

  /** Some kept offer's product has a fact about nutrient `n`: the last
      one, or one of those before it. */
  ghost predicate Seen(suppliers: Assoc<BestOption>, n: string)
    decreases |suppliers|
  {
    |suppliers| > 0
    && (FactNamed(suppliers[|suppliers| - 1].1.product.nutrientFacts, n) || Seen(suppliers[..|suppliers| - 1], n))
  }

  /** Reference definition: the raw total of nutrient `n` over all kept offers. */
  function NutrientTotal(suppliers: Assoc<BestOption>, n: string): (r: real)
    ensures !Seen(suppliers, n) ==> r == 0.0
    decreases |suppliers|
  {
    if |suppliers| == 0 then 0.0
    else
      var prefix := suppliers[..|suppliers| - 1];
      var (ingredientName, supplier) := suppliers[|suppliers| - 1];
      NutrientTotal(prefix, n)
      + FactsTotal(supplier.product.nutrientFacts, n, supplier.actualAmountNeeded, ingredientName)
  }

  /** The running state of the first pass. */
  datatype Totals = Totals(totalRecipeWeight: real, rawNutrients: Assoc<real>)

  /** The first pass: the recipe weight and, per nutrient name in order of
      first appearance, the raw total. */
  function FirstPass(suppliers: Assoc<BestOption>): Totals
    decreases |suppliers|
  {
    if |suppliers| == 0 then Totals(0.0, [])
    else
      var (ingredientName, supplier) := suppliers[|suppliers| - 1];
      var t := FirstPass(suppliers[..|suppliers| - 1]);
      var amountUsed := supplier.actualAmountNeeded;
      Totals(t.totalRecipeWeight + WeightInGrams(ingredientName, amountUsed),
             AddNutrients(t.rawNutrients, supplier.product.nutrientFacts, amountUsed, ingredientName))
  }

  /** The first pass holds, for nutrient `n`, exactly the reference total of
      `n` over all kept offers, and has an entry for `n` exactly when some
      kept product lists it. */
  lemma {:induction false} FirstPassTotals(suppliers: Assoc<BestOption>, n: string)
    ensures Lookup(FirstPass(suppliers).rawNutrients, n) ==
              if Seen(suppliers, n) then Some(NutrientTotal(suppliers, n)) else None
    decreases |suppliers|
  {
    if |suppliers| > 0 {
      var prefix := suppliers[..|suppliers| - 1];
      var (ingredientName, supplier) := suppliers[|suppliers| - 1];
      FirstPassTotals(prefix, n);
      AddNutrientsLookup(FirstPass(prefix).rawNutrients, supplier.product.nutrientFacts,
                         supplier.actualAmountNeeded, ingredientName, n);
    }
  }

  /** The first pass keeps one entry per nutrient name. */
  lemma {:induction false} FirstPassDistinct(suppliers: Assoc<BestOption>)
    ensures DistinctKeys(FirstPass(suppliers).rawNutrients)
    decreases |suppliers|
  {
    if |suppliers| > 0 {
      var (ingredientName, supplier) := suppliers[|suppliers| - 1];
      FirstPassDistinct(suppliers[..|suppliers| - 1]);
      AddNutrientsDistinct(FirstPass(suppliers[..|suppliers| - 1]).rawNutrients,
                           supplier.product.nutrientFacts, supplier.actualAmountNeeded, ingredientName);
    }
  }

  /** The amount used for ingredient `k`, or 0 when it has no kept offer. */
  function AmountUsed(suppliers: Assoc<BestOption>, k: string): real {
    match Lookup(suppliers, k)
    case Some(b) => b.actualAmountNeeded
    case None => 0.0
  }

  /** The recipe weight is the cream amount plus 50 g per egg plus the sugar
      amount; any other ingredient weighs nothing. */
  lemma {:induction false} RecipeWeightByIngredient(suppliers: Assoc<BestOption>)
    requires DistinctKeys(suppliers)
    ensures FirstPass(suppliers).totalRecipeWeight
            == AmountUsed(suppliers, "cream") + 50.0 * AmountUsed(suppliers, "egg") + AmountUsed(suppliers, "sugar")
    decreases |suppliers|
  {
    if |suppliers| > 0 {
      var prefix := suppliers[..|suppliers| - 1];
      var last := suppliers[|suppliers| - 1];
      assert suppliers == prefix + [last];
      assert DistinctKeys(prefix);
      assert !HasKey(prefix, last.0);
      RecipeWeightByIngredient(prefix);
      LookupAppend(prefix, last, "cream");
      LookupAppend(prefix, last, "egg");
      LookupAppend(prefix, last, "sugar");
    }
  }

  /** One entry of the nutrition profile; the constant `quantityPer` (100 g)
      and the unit fields are left implicit. */
  datatype NutritionLine = NutritionLine(nutrientName: string, amountPer100g: real)

  /** The total in grams: Sodium totals are in milligrams. */
  function InGrams(nutrientName: string, totalAmount: real): real {
    if nutrientName == "Sodium" then totalAmount / 1000.0 else totalAmount
  }

  /** The per-100 g figure of a raw total, before the source's rounding. */
  function Per100g(nutrientName: string, totalAmount: real, totalRecipeWeight: real): real
    requires totalRecipeWeight != 0.0
  {
    (InGrams(nutrientName, totalAmount) / totalRecipeWeight) * 100.0
  }

  /** Normalisation can be undone: the per-100 g figure times the recipe
      weight over 100 gives back the total in grams, which for Sodium is the
      milligram total over 1000. */
  lemma Per100gRoundTrip(nutrientName: string, totalAmount: real, totalRecipeWeight: real)
    requires totalRecipeWeight != 0.0
    ensures Per100g(nutrientName, totalAmount, totalRecipeWeight) * totalRecipeWeight / 100.0
            == (if nutrientName == "Sodium" then totalAmount / 1000.0 else totalAmount)
  {
  }

  /** The second pass: one line per raw total, in the same order. */
  function SecondPass(raw: Assoc<real>, totalRecipeWeight: real): Assoc<NutritionLine>
    requires |raw| > 0 ==> totalRecipeWeight != 0.0
    decreases |raw|
  {
    if |raw| == 0 then []
    else
      var (nutrientName, totalAmount) := raw[|raw| - 1];
      Put(SecondPass(raw[..|raw| - 1], totalRecipeWeight), nutrientName,
          NutritionLine(nutrientName, Per100g(nutrientName, totalAmount, totalRecipeWeight)))
  }

  /** Over distinct raw totals, the second pass keeps their names in their
      order, one line each. */
  lemma {:induction false} SecondPassKeys(raw: Assoc<real>, totalRecipeWeight: real)
    requires |raw| > 0 ==> totalRecipeWeight != 0.0
    requires DistinctKeys(raw)
    ensures var r := SecondPass(raw, totalRecipeWeight);
            |r| == |raw| && forall i :: 0 <= i < |r| ==> r[i].0 == raw[i].0
    decreases |raw|
  {
    if |raw| > 0 {
      var prefix := raw[..|raw| - 1];
      var (nutrientName, totalAmount) := raw[|raw| - 1];
      assert DistinctKeys(prefix);
      SecondPassKeys(prefix, totalRecipeWeight);
      var before := SecondPass(prefix, totalRecipeWeight);
      assert !HasKey(before, nutrientName) by {
        forall i | 0 <= i < |before| ensures before[i].0 != nutrientName {
          assert before[i].0 == raw[i].0;
        }
      }
      PutShape(before, nutrientName, NutritionLine(nutrientName, Per100g(nutrientName, totalAmount, totalRecipeWeight)));
    }
  }

  /** Over distinct raw totals, the second pass has a line for `n` exactly
      when there is a raw total for `n`, and that line is the per-100 g
      figure of the total. */
  lemma {:induction false} SecondPassLookup(raw: Assoc<real>, totalRecipeWeight: real, n: string)
    requires |raw| > 0 ==> totalRecipeWeight != 0.0
    requires DistinctKeys(raw)
    ensures Lookup(SecondPass(raw, totalRecipeWeight), n) ==
              match Lookup(raw, n)
              case None => None
              case Some(t) => Some(NutritionLine(n, Per100g(n, t, totalRecipeWeight)))
    decreases |raw|
  {
    if |raw| > 0 {
      var prefix := raw[..|raw| - 1];
      var last := raw[|raw| - 1];
      assert raw == prefix + [last];
      assert DistinctKeys(prefix) && !HasKey(prefix, last.0);
      SecondPassLookup(prefix, totalRecipeWeight, n);
      LookupAppend(prefix, last, n);
      PutLookup(SecondPass(prefix, totalRecipeWeight), last.0,
                NutritionLine(last.0, Per100g(last.0, last.1, totalRecipeWeight)), n);
    }
  }

  /** `calculateNutritionAtOptimalCost`: both passes over the kept offers.
      With nutrients to report and a recipe weight of zero the source
      divides by zero; the model reports that case as `None`. */
  function CalculateNutritionAtOptimalCost(suppliers: Assoc<BestOption>): (r: Option<Assoc<NutritionLine>>)
    ensures r.None? ==> FirstPass(suppliers).totalRecipeWeight == 0.0
  {
    var t := FirstPass(suppliers);
    if |t.rawNutrients| > 0 && t.totalRecipeWeight == 0.0 then None
    else Some(SecondPass(t.rawNutrients, t.totalRecipeWeight))
  }

  /** The profile is undefined exactly when some kept product lists a
      nutrient and the kept ingredients weigh nothing. */
  lemma NutritionUndefined(suppliers: Assoc<BestOption>)
    ensures CalculateNutritionAtOptimalCost(suppliers).None? <==>
              (exists n :: Seen(suppliers, n)) && FirstPass(suppliers).totalRecipeWeight == 0.0
  {
    var raw := FirstPass(suppliers).rawNutrients;
    if |raw| > 0 {
      FirstPassTotals(suppliers, raw[0].0);
      assert HasKey(raw, raw[0].0);
    }
    if exists n :: Seen(suppliers, n) {
      var n :| Seen(suppliers, n);
      FirstPassTotals(suppliers, n);
    }
  }

  /** Each nutrient that some kept product lists gets one line, holding its
      raw total over all kept offers divided by the recipe weight and scaled
      to 100 g (Sodium converted from milligrams); no other nutrient gets a
      line. (`Per100gRoundTrip` undoes the scaling.) */
  lemma NutritionProfileLines(suppliers: Assoc<BestOption>, n: string)
    requires CalculateNutritionAtOptimalCost(suppliers).Some?
    ensures var profile := CalculateNutritionAtOptimalCost(suppliers).value;
            var w := FirstPass(suppliers).totalRecipeWeight;
            && (Lookup(profile, n).Some? <==> Seen(suppliers, n))
            && (Seen(suppliers, n) ==>
                  && w != 0.0
                  && Lookup(profile, n) == Some(NutritionLine(n, Per100g(n, NutrientTotal(suppliers, n), w))))
  {
    var t := FirstPass(suppliers);
    FirstPassTotals(suppliers, n);
    FirstPassDistinct(suppliers);
    SecondPassLookup(t.rawNutrients, t.totalRecipeWeight, n);
    if Seen(suppliers, n) {
      assert HasKey(t.rawNutrients, n);
    }
  }

  /** The profile keeps the nutrient names in order of first appearance,
      one line each. */
  lemma NutritionProfileOrder(suppliers: Assoc<BestOption>)
    requires CalculateNutritionAtOptimalCost(suppliers).Some?
    ensures var profile := CalculateNutritionAtOptimalCost(suppliers).value;
            var raw := FirstPass(suppliers).rawNutrients;
            |profile| == |raw| && forall i :: 0 <= i < |profile| ==> profile[i].0 == raw[i].0
  {
    FirstPassDistinct(suppliers);
    SecondPassKeys(FirstPass(suppliers).rawNutrients, FirstPass(suppliers).totalRecipeWeight);
  }
}
