/** The cheapest-supplier scan of `calculate.ts` (`solveLinearProgram` and its
    helpers): for every ingredient requirement, every offer of every
    catalogue product whose name mentions the ingredient is priced, and the
    first offer of strictly lowest cost wins. */
module Sourcing {
  import opened Wrappers
  import opened Text
  import opened Assoc
  import opened Models

  /** `matchingRules[ingredientLower] || [ingredientLower]`. */
  function MatchingKeywords(ingredientLower: string): (r: seq<string>)
    ensures r == [ingredientLower]
  {
    if ingredientLower == "cream" then ["cream"]
    else if ingredientLower == "egg" then ["egg"]
    else if ingredientLower == "sugar" then ["sugar"]
    else [ingredientLower]
  }

  /** `keywords.some(keyword => text.includes(keyword))`. */
  function SomeIncluded(keywords: seq<string>, text: string): (r: bool)
    ensures r <==> exists i :: 0 <= i < |keywords| && Substring(keywords[i], text)
  {
    if |keywords| == 0 then false
    else if Includes(text, keywords[0]) then true
    else
      var r := SomeIncluded(keywords[1..], text);
      assert forall i :: 1 <= i < |keywords| ==> keywords[i] == keywords[1..][i - 1];
      r
  }

  /** `isProductMatchingIngredient`: a case-insensitive substring test. */
  function IsProductMatchingIngredient(productName: string, ingredientName: string): (r: bool)
    ensures r <==> Substring(Lower(ingredientName), Lower(productName))
  {
    var productLower := Lower(productName);
    var ingredientLower := Lower(ingredientName);
    var keywords := MatchingKeywords(ingredientLower);
    assert keywords[0] == ingredientLower;
    SomeIncluded(keywords, productLower)
  }

  /** An empty ingredient name matches every product, since every string
      includes the empty string. */
  lemma EmptyNameMatchesEverything(productName: string)
    ensures IsProductMatchingIngredient(productName, "")
  {
    assert Lower("") == "";
    EmptyIsEverywhere(Lower(productName));
  }

  /** `calculatePricePerUnit`: the offer's price per unit of package, where a
      sugar package sold by the kilogram is priced per gram. */
  function CalculatePricePerUnit(sp: SupplierProduct, ingredientName: string): real
    requires sp.supplierProductUoM.uomAmount != 0.0
  {
    var basePrice := sp.supplierPrice;
    var packageAmount := sp.supplierProductUoM.uomAmount;
    var packageUnit := sp.supplierProductUoM.uomName;
    if Lower(ingredientName) == "cream" && packageUnit == Millilitres then
      basePrice / packageAmount
    else if Lower(ingredientName) == "egg" && packageUnit == Whole then
      basePrice / packageAmount
    else if Lower(ingredientName) == "sugar" then
      if packageUnit == Kilogram then basePrice / (packageAmount * 1000.0)
      else basePrice / packageAmount
    else
      basePrice / packageAmount
  }

  /** The unit price times the package size, counted in grams for a sugar
      package sold by the kilogram and in the package's own unit otherwise,
      gives back the offer's price. */
  lemma PricePerUnitTimesPackage(sp: SupplierProduct, ingredientName: string)
    requires sp.supplierProductUoM.uomAmount != 0.0
    ensures Lower(ingredientName) == "sugar" && sp.supplierProductUoM.uomName == Kilogram
            ==> CalculatePricePerUnit(sp, ingredientName) * (sp.supplierProductUoM.uomAmount * 1000.0) == sp.supplierPrice
    ensures !(Lower(ingredientName) == "sugar" && sp.supplierProductUoM.uomName == Kilogram)
            ==> CalculatePricePerUnit(sp, ingredientName) * sp.supplierProductUoM.uomAmount == sp.supplierPrice
  {
  }

  /** One supplier offer of one catalogue product. */
  datatype Offer = Offer(product: Product, supplierProduct: SupplierProduct)

  /** `o` is an offer the scan for `ingredientName` visits. */
  ghost predicate Offered(products: seq<Product>, ingredientName: string, o: Offer) {
    && o.product in products
    && o.supplierProduct in o.product.supplierProducts
    && IsProductMatchingIngredient(o.product.productName, ingredientName)
  }

  /** Every package size in the catalogue can be divided by. */
  ghost predicate ValidOffers(products: seq<Product>) {
    forall p, sp :: p in products && sp in p.supplierProducts ==> sp.supplierProductUoM.uomAmount != 0.0
  }

  function OffersOf(p: Product): seq<Offer> {
    seq(|p.supplierProducts|, i requires 0 <= i < |p.supplierProducts| => Offer(p, p.supplierProducts[i]))
  }

  /** The offers visited for `ingredientName`, in scan order: products in
      catalogue order and, inside each matching product, its offers in order. */
  function Candidates(products: seq<Product>, ingredientName: string): (r: seq<Offer>)
    ensures forall o :: o in r <==> Offered(products, ingredientName, o)
  {
    if |products| == 0 then []
    else
      var p := products[0];
      var here := if IsProductMatchingIngredient(p.productName, ingredientName) then OffersOf(p) else [];
      var rest := Candidates(products[1..], ingredientName);
      assert forall o: Offer :: o in here <==>
               (o.product == p && o.supplierProduct in p.supplierProducts
                && IsProductMatchingIngredient(p.productName, ingredientName)) by {
        forall o: Offer | o.product == p && o.supplierProduct in p.supplierProducts
                   && IsProductMatchingIngredient(p.productName, ingredientName)
          ensures o in here
        {
          var i :| 0 <= i < |p.supplierProducts| && p.supplierProducts[i] == o.supplierProduct;
          assert here[i] == o;
        }
      }
      assert forall q :: q in products <==> q == p || q in products[1..];
      here + rest
  }

  /** Every offer in `offers` has a package size that can be divided by. */
  ghost predicate Priced(offers: seq<Offer>) {
    forall i :: 0 <= i < |offers| ==> offers[i].supplierProduct.supplierProductUoM.uomAmount != 0.0
  }

  /** `requiredAmount * pricePerUnit`: what buying the whole requirement from `o` costs. */
  function OptionCost(o: Offer, ingredientName: string, requiredAmount: real): real
    requires o.supplierProduct.supplierProductUoM.uomAmount != 0.0
  {
    requiredAmount * CalculatePricePerUnit(o.supplierProduct, ingredientName)
  }

  /** The scan over `offers` with the strict `<` update: the position of the
      first offer of least cost, or None when there is no offer. */
  function CheapestIndex(offers: seq<Offer>, ingredientName: string, requiredAmount: real): (r: Option<nat>)
    requires Priced(offers)
    ensures r.None? <==> |offers| == 0
    ensures r.Some? ==> r.value < |offers|
    ensures r.Some? ==> forall j :: 0 <= j < |offers| ==>
              OptionCost(offers[r.value], ingredientName, requiredAmount) <= OptionCost(offers[j], ingredientName, requiredAmount)
    ensures r.Some? ==> forall j :: 0 <= j < r.value ==>
              OptionCost(offers[r.value], ingredientName, requiredAmount) < OptionCost(offers[j], ingredientName, requiredAmount)
    decreases |offers|
  {
    if |offers| == 0 then None
    else
      var last := |offers| - 1;
      var prefix := offers[..last];
      assert forall j :: 0 <= j < last ==> prefix[j] == offers[j];
      match CheapestIndex(prefix, ingredientName, requiredAmount)
      case None => Some(last)
      case Some(b) =>
        if OptionCost(offers[last], ingredientName, requiredAmount) < OptionCost(offers[b], ingredientName, requiredAmount)
        then Some(last)
        else Some(b)
  }

  /** The `bestOption` record kept for an ingredient. */
  datatype BestOption = BestOption(
    cost: real,
    supplier: string,
    product: Product,
    supplierProduct: SupplierProduct,
    pricePerUnit: real,
    actualAmountNeeded: real)

  /** Every offer the scan visits has a package size that can be divided by. */
  lemma CandidatesPriced(products: seq<Product>, ingredientName: string)
    requires ValidOffers(products)
    ensures Priced(Candidates(products, ingredientName))
  {
    var offers := Candidates(products, ingredientName);
    forall i | 0 <= i < |offers|
      ensures offers[i].supplierProduct.supplierProductUoM.uomAmount != 0.0
    {
      assert offers[i] in offers;
    }
  }

  /** The offer the scan keeps is no dearer than any offer it visits. */
  lemma CheapestBeatsOffered(products: seq<Product>, ingredientName: string, requiredAmount: real, k: nat)
    requires ValidOffers(products)
    requires Priced(Candidates(products, ingredientName))
    requires CheapestIndex(Candidates(products, ingredientName), ingredientName, requiredAmount) == Some(k)
    ensures forall o :: Offered(products, ingredientName, o) ==>
              OptionCost(Candidates(products, ingredientName)[k], ingredientName, requiredAmount)
              <= OptionCost(o, ingredientName, requiredAmount)
  {
    var offers := Candidates(products, ingredientName);
    forall o | Offered(products, ingredientName, o)
      ensures OptionCost(offers[k], ingredientName, requiredAmount) <= OptionCost(o, ingredientName, requiredAmount)
    {
      assert o in offers;
      var j :| 0 <= j < |offers| && offers[j] == o;
    }
  }

  /** The offer the scan keeps is preceded only by strictly dearer offers. */
  lemma ScanKeepsFirst(products: seq<Product>, ingredientName: string, requiredAmount: real, k: nat, best: BestOption)
    requires ValidOffers(products)
    requires Priced(Candidates(products, ingredientName))
    requires CheapestIndex(Candidates(products, ingredientName), ingredientName, requiredAmount) == Some(k)
    requires Offer(best.product, best.supplierProduct) == Candidates(products, ingredientName)[k]
    requires best.cost == OptionCost(Candidates(products, ingredientName)[k], ingredientName, requiredAmount)
    ensures FirstCheapestAt(products, ingredientName, requiredAmount, k, best)
  {
    var offers := Candidates(products, ingredientName);
    assert forall j :: 0 <= j < k ==> offers[j] in offers;
  }

  /** The inner scan of `solveLinearProgram` for one ingredient: the first
      cheapest matching offer, with `Infinity` replaced by None. What the
      scan finds is stated by `SelectCheapestIsFirstMinimum`. */
  function SelectCheapest(products: seq<Product>, ingredientName: string, requiredAmount: real): (r: Option<BestOption>)
    requires ValidOffers(products)
    ensures r.Some? ==> r.value.actualAmountNeeded == requiredAmount
  {
    var offers := Candidates(products, ingredientName);
    CandidatesPriced(products, ingredientName);
    match CheapestIndex(offers, ingredientName, requiredAmount)
    case None =>
      None
    case Some(k) =>
      var o := offers[k];
      assert o in offers;
      Some(BestOption(OptionCost(o, ingredientName, requiredAmount), o.supplierProduct.supplierName, o.product,
                      o.supplierProduct, CalculatePricePerUnit(o.supplierProduct, ingredientName), requiredAmount))
  }

  /** The scan keeps nothing exactly when no offer matches. Otherwise it
      keeps a matching offer, recording that offer's supplier name, unit
      price and cost `requiredAmount * pricePerUnit`; that cost is at most
      the cost of every matching offer, and the offer is the first of
      minimal cost in scan order. */
  lemma SelectCheapestIsFirstMinimum(products: seq<Product>, ingredientName: string, requiredAmount: real)
    requires ValidOffers(products)
    ensures var r := SelectCheapest(products, ingredientName, requiredAmount);
            && (r.None? <==> forall o :: !Offered(products, ingredientName, o))
            && (r.Some? ==>
                  && Offered(products, ingredientName, Offer(r.value.product, r.value.supplierProduct))
                  && r.value.supplier == r.value.supplierProduct.supplierName
                  && r.value.supplierProduct.supplierProductUoM.uomAmount != 0.0
                  && r.value.pricePerUnit == CalculatePricePerUnit(r.value.supplierProduct, ingredientName)
                  && r.value.cost == OptionCost(Offer(r.value.product, r.value.supplierProduct), ingredientName, requiredAmount)
                  && (forall o :: Offered(products, ingredientName, o) ==>
                        r.value.cost <= OptionCost(o, ingredientName, requiredAmount))
                  && exists k :: FirstCheapestAt(products, ingredientName, requiredAmount, k, r.value))
  {
    var offers := Candidates(products, ingredientName);
    CandidatesPriced(products, ingredientName);
    match CheapestIndex(offers, ingredientName, requiredAmount)
    case None =>
      assert offers == [];
    case Some(k) =>
      var o := offers[k];
      assert o in offers;
      var best := SelectCheapest(products, ingredientName, requiredAmount).value;
      CheapestBeatsOffered(products, ingredientName, requiredAmount, k);
      ScanKeepsFirst(products, ingredientName, requiredAmount, k, best);
  }

  /** `best` is the offer at position `k` of the scan and every offer the
      scan visits before it costs strictly more: ties keep the first. */
  ghost predicate FirstCheapestAt(products: seq<Product>, ingredientName: string, requiredAmount: real, k: int, best: BestOption)
    requires ValidOffers(products)
  {
    var offers := Candidates(products, ingredientName);
    && 0 <= k < |offers|
    && offers[k] == Offer(best.product, best.supplierProduct)
    && forall j :: 0 <= j < k ==> offers[j] in offers && best.cost < OptionCost(offers[j], ingredientName, requiredAmount)
  }

  /** One entry of the `ingredients` object: the amount in the ingredient's
      standard unit and the label `getStandardUnit` gives that unit. */
  datatype Requirement = Requirement(requiredAmount: real, standardUnit: string)

  /** The `constraintsSatisfied` key of an ingredient. */
  function ConstraintKey(ingredientName: string): string {
    "constraint_" + ingredientName
  }

  /** Distinct ingredients get distinct constraint keys. */
  lemma ConstraintKeyInjective(a: string, b: string)
    ensures ConstraintKey(a) == ConstraintKey(b) ==> a == b
  {
    if ConstraintKey(a) == ConstraintKey(b) {
      assert a == ConstraintKey(a)[|"constraint_"|..];
    }
  }

  /** One `constraintsSatisfied` record. */
  datatype Constraint = Constraint(required: real, provided: real, satisfied: bool)

  /** What `solveLinearProgram` returns, keyed by lower-cased ingredient name. */
  datatype Solution = Solution(
    totalCost: real,
    costBreakdown: Assoc<real>,
    suppliers: Assoc<BestOption>,
    constraintsSatisfied: Assoc<Constraint>)

  /** `if (bestOption.supplier)`: the scan kept an offer AND that offer's
      supplier name is a non-empty (truthy) string. */
  predicate Supplied(best: Option<BestOption>) {
    best.Some? && best.value.supplier != ""
  }

  /** `solveLinearProgram`: the per-ingredient scans, in the order of the
      `ingredients` object, accumulating the total as it goes. */
  function SolveLinearProgram(products: seq<Product>, converted: Assoc<Requirement>): Solution
    requires ValidOffers(products)
    decreases |converted|
  {
    if |converted| == 0 then Solution(0.0, [], [], [])
    else
      var s := SolveLinearProgram(products, converted[..|converted| - 1]);
      var (ingredientName, data) := converted[|converted| - 1];
      var best := SelectCheapest(products, ingredientName, data.requiredAmount);
      if Supplied(best) then
        var b := best.value;
        Solution(
          s.totalCost + b.cost,
          Put(s.costBreakdown, ingredientName, b.cost),
          Put(s.suppliers, ingredientName, b),
          Put(s.constraintsSatisfied, ConstraintKey(ingredientName),
              Constraint(data.requiredAmount, b.actualAmountNeeded, b.actualAmountNeeded >= data.requiredAmount)))
      else
        s
  }

  /** Every supplier entry names a supplier, and every constraint entry is
      satisfied, with the amount provided equal to the amount required. */
  lemma {:induction false} SolveSatisfied(products: seq<Product>, converted: Assoc<Requirement>, k: string)
    requires ValidOffers(products)
    ensures var r := SolveLinearProgram(products, converted);
            && (Lookup(r.suppliers, k).Some? ==> Lookup(r.suppliers, k).value.supplier != "")
            && (Lookup(r.constraintsSatisfied, k).Some? ==>
                  && Lookup(r.constraintsSatisfied, k).value.satisfied
                  && Lookup(r.constraintsSatisfied, k).value.provided == Lookup(r.constraintsSatisfied, k).value.required)
    decreases |converted|
  {
    if |converted| > 0 {
      var prefix := converted[..|converted| - 1];
      var (ingredientName, data) := converted[|converted| - 1];
      var s := SolveLinearProgram(products, prefix);
      var best := SelectCheapest(products, ingredientName, data.requiredAmount);
      SolveSatisfied(products, prefix, k);
      if Supplied(best) {
        var b := best.value;
        PutLookup(s.suppliers, ingredientName, b, k);
        PutLookup(s.constraintsSatisfied, ConstraintKey(ingredientName),
                  Constraint(data.requiredAmount, b.actualAmountNeeded, b.actualAmountNeeded >= data.requiredAmount), k);
      }
    }
  }

  /** What the scan records for ingredient `k`: the cheapest offer, when `k`
      is an ingredient of `converted` and its scan kept a named supplier. */
  function Recorded(products: seq<Product>, converted: Assoc<Requirement>, k: string): Option<BestOption>
    requires ValidOffers(products)
  {
    match Lookup(converted, k)
    case None => None
    case Some(data) =>
      var best := SelectCheapest(products, k, data.requiredAmount);
      if Supplied(best) then best else None
  }

  /** The three output objects agree with the per-ingredient scans: an
      ingredient has an entry exactly when its scan kept a named supplier,
      and `costBreakdown` holds that offer's cost. */
  lemma {:induction false} SolveRecords(products: seq<Product>, converted: Assoc<Requirement>, k: string)
    requires ValidOffers(products)
    requires DistinctKeys(converted)
    ensures var r := SolveLinearProgram(products, converted);
            && Lookup(r.suppliers, k) == Recorded(products, converted, k)
            && Lookup(r.costBreakdown, k) == (if Recorded(products, converted, k).Some? then Some(Recorded(products, converted, k).value.cost) else None)
            && (Lookup(r.constraintsSatisfied, ConstraintKey(k)).Some? <==> Recorded(products, converted, k).Some?)
    decreases |converted|
  {
    if |converted| > 0 {
      var prefix := converted[..|converted| - 1];
      var last := converted[|converted| - 1];
      assert converted == prefix + [last];
      assert DistinctKeys(prefix);
      assert !HasKey(prefix, last.0);
      SolveRecords(products, prefix, k);
      ConstraintKeyInjective(k, last.0);
      LookupAppend(prefix, last, k);
      var s := SolveLinearProgram(products, prefix);
      var best := SelectCheapest(products, last.0, last.1.requiredAmount);
      if Supplied(best) {
        var b := best.value;
        PutLookup(s.suppliers, last.0, b, k);
        PutLookup(s.costBreakdown, last.0, b.cost, k);
        PutLookup(s.constraintsSatisfied, ConstraintKey(last.0),
                  Constraint(last.1.requiredAmount, b.actualAmountNeeded, b.actualAmountNeeded >= last.1.requiredAmount), ConstraintKey(k));
      }
    }
  }

  /** Each output object holds at most one entry per ingredient name. */
  lemma {:induction false} SolveDistinct(products: seq<Product>, converted: Assoc<Requirement>)
    requires ValidOffers(products)
    ensures var r := SolveLinearProgram(products, converted);
            DistinctKeys(r.suppliers) && DistinctKeys(r.costBreakdown) && DistinctKeys(r.constraintsSatisfied)
    decreases |converted|
  {
    if |converted| > 0 {
      var prefix := converted[..|converted| - 1];
      var (ingredientName, data) := converted[|converted| - 1];
      SolveDistinct(products, prefix);
      var s := SolveLinearProgram(products, prefix);
      var best := SelectCheapest(products, ingredientName, data.requiredAmount);
      if Supplied(best) {
        var b := best.value;
        PutShape(s.costBreakdown, ingredientName, b.cost);
        PutShape(s.suppliers, ingredientName, b);
        PutShape(s.constraintsSatisfied, ConstraintKey(ingredientName),
                 Constraint(data.requiredAmount, b.actualAmountNeeded, b.actualAmountNeeded >= data.requiredAmount));
      }
    }
  }

  /** `totalCost` is the sum of the `costBreakdown` entries. */
  lemma {:induction false} TotalCostIsSumOfBreakdown(products: seq<Product>, converted: Assoc<Requirement>)
    requires ValidOffers(products)
    requires DistinctKeys(converted)
    ensures SolveLinearProgram(products, converted).totalCost == SumValues(SolveLinearProgram(products, converted).costBreakdown)
    decreases |converted|
  {
    if |converted| > 0 {
      var prefix := converted[..|converted| - 1];
      var last := converted[|converted| - 1];
      assert DistinctKeys(prefix);
      TotalCostIsSumOfBreakdown(products, prefix);
      var s := SolveLinearProgram(products, prefix);
      var best := SelectCheapest(products, last.0, last.1.requiredAmount);
      if Supplied(best) {
        assert !HasKey(prefix, last.0);
        SolveRecords(products, prefix, last.0);
        assert !HasKey(s.costBreakdown, last.0);
        SumValuesAppend(s.costBreakdown, (last.0, best.value.cost));
      }
    }
  }
}
