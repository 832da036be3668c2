/** The inventory page: adding a product through the form, re-analysing one
    product by id, and the search/category filter of the product table. Each
    state update returns the new product list. */
module Inventory {
  import opened Wrappers
  import opened Risk
  import opened Products
  import Seqs
  import Text

  /** A date picked in the calendar: its formatted form and how many whole
      days lie between it and now (the clock arithmetic happens outside). */
  datatype PickedDate = PickedDate(formatted: string, daysAgo: int)

  /** The add-product form. Numeric inputs are already parsed; `None` is an
      input left empty. */
  datatype ProductForm = ProductForm(
    name: string,
    category: string,
    quantity: Option<int>,
    purchasePrice: Option<real>,
    lastSaleDate: Option<PickedDate>,
    storageCost: Option<real>)

  const EmptyForm := ProductForm("", "", None, None, None, None)

  /** The submission gate: name, category, quantity and price must be filled in. */
  predicate Admissible(f: ProductForm) {
    f.name != "" && f.category != "" && f.quantity.Some? && f.purchasePrice.Some?
  }

  /** The product built from an admissible form, scored once. `today` is the
      formatted current date, recorded when no date was picked. */
  function NewProduct(products: seq<Product>, f: ProductForm, today: string): (p: Product)
    requires Admissible(f)
    ensures p.id == |products| + 1
    ensures p.name == f.name && p.category == f.category
    ensures p.quantity == f.quantity.value && p.purchasePrice == f.purchasePrice.value
    ensures f.storageCost.Some? ==> p.storageCost == f.storageCost.value
    ensures f.storageCost.None? ==> p.storageCost == 0.0
    ensures f.lastSaleDate.Some? ==>
      p.lastSaleDate == f.lastSaleDate.value.formatted && p.daysSinceLastSale == f.lastSaleDate.value.daysAgo
    ensures f.lastSaleDate.None? ==> p.daysSinceLastSale == 0 && p.lastSaleDate == today
    ensures Consistent(p)
  {
    var draft := Product(
      |products| + 1,
      f.name,
      f.category,
      f.quantity.value,
      f.purchasePrice.value,
      match f.lastSaleDate case Some(d) => d.formatted case None => today,
      f.storageCost.GetOr(0.0),
      Low,
      match f.lastSaleDate case Some(d) => d.daysAgo case None => 0,
      None);
    WithAssessment(draft)
  }

  /** `handleAddProduct` on the list: a rejected form changes nothing, an
      accepted one appends exactly one scored product. */
  function AddProduct(products: seq<Product>, f: ProductForm, today: string): (r: seq<Product>)
    ensures !Admissible(f) ==> r == products
    ensures Admissible(f) ==> |r| == |products| + 1 && r[..|products|] == products
    ensures Admissible(f) ==> r[|products|] == NewProduct(products, f, today)
  {
    if Admissible(f) then products + [NewProduct(products, f, today)] else products
  }

  datatype InventoryPage = InventoryPage(products: seq<Product>, form: ProductForm)

  /** `handleAddProduct` on the whole page: an accepted form is also cleared. */
  function HandleAddProduct(page: InventoryPage, today: string): (r: InventoryPage)
    ensures !Admissible(page.form) ==> r == page
    ensures Admissible(page.form) ==> r.form == EmptyForm && |r.products| == |page.products| + 1
    ensures Admissible(page.form) ==>
      r.products == page.products + [NewProduct(page.products, page.form, today)]
  {
    if Admissible(page.form) then InventoryPage(AddProduct(page.products, page.form, today), EmptyForm)
    else page
  }

  /** Adding keeps ids 1..n in order, and the new id was not in use. */
  lemma AddKeepsIdsSequential(products: seq<Product>, f: ProductForm, today: string)
    requires IdsSequential(products)
    ensures IdsSequential(AddProduct(products, f, today))
    ensures forall i :: 0 <= i < |products| ==> products[i].id != |products| + 1
  {
  }

  /** Re-scoring the freshly added product reproduces its stored assessment. */
  lemma AddedProductRescoresToItself(products: seq<Product>, f: ProductForm, today: string)
    requires Admissible(f)
    ensures WithAssessment(NewProduct(products, f, today)) == NewProduct(products, f, today)
  {
    WithAssessmentIdempotent(NewProduct(products, f, today));
  }

  /** The body of the `map` in `handleAnalyzeRisk`. */
  function Reanalyze(p: Product, id: int): Product {
    if p.id == id then WithAssessment(p) else p
  }

  /** `handleAnalyzeRisk`: every product carrying `id` is re-scored, the rest are
      untouched, and length and order are kept. */
  function AnalyzeRisk(products: seq<Product>, id: int): (r: seq<Product>)
    ensures |r| == |products|
    ensures forall i :: 0 <= i < |r| && products[i].id != id ==> r[i] == products[i]
    ensures forall i :: 0 <= i < |r| && products[i].id == id ==>
      SameExceptAssessment(products[i], r[i]) && Consistent(r[i])
  {
    seq(|products|, i requires 0 <= i < |products| => Reanalyze(products[i], id))
  }

  lemma AnalyzeUnknownIdChangesNothing(products: seq<Product>, id: int)
    requires forall i :: 0 <= i < |products| ==> products[i].id != id
    ensures AnalyzeRisk(products, id) == products
  {
  }

  lemma AnalyzeIdempotent(products: seq<Product>, id: int)
    ensures AnalyzeRisk(AnalyzeRisk(products, id), id) == AnalyzeRisk(products, id)
  {
    var once := AnalyzeRisk(products, id);
    forall i | 0 <= i < |products| && products[i].id == id
      ensures Reanalyze(once[i], id) == once[i]
    {
      WithAssessmentIdempotent(products[i]);
    }
  }

  /** With ids 1..n, analysing the product just added leaves the list as it is. */
  lemma AnalyzeAfterAddIsIdentity(products: seq<Product>, f: ProductForm, today: string)
    requires IdsSequential(products)
    requires Admissible(f)
    ensures AnalyzeRisk(AddProduct(products, f, today), |products| + 1) == AddProduct(products, f, today)
  {
    var added := AddProduct(products, f, today);
    AddedProductRescoresToItself(products, f, today);
    forall i | 0 <= i < |added|
      ensures Reanalyze(added[i], |products| + 1) == added[i]
    {
      if i < |products| {
        assert added[i] == products[i];
      }
    }
  }

  /** Name or category contains the search term, both lower-cased. */
  predicate MatchesSearch(p: Product, term: string) {
    var needle := Text.ToLower(term);
    Text.Contains(Text.ToLower(p.name), needle) || Text.Contains(Text.ToLower(p.category), needle)
  }

  /** The category filter: "" and "all" accept every product. */
  predicate MatchesCategory(p: Product, category: string) {
    category == "" || category == "all" || p.category == category
  }

  function SearchMatcher(term: string, category: string): Product -> bool {
    p => MatchesSearch(p, term) && MatchesCategory(p, category)
  }

  /** `filteredProducts`: the products matching both the search and the category. */
  function SearchFilter(products: seq<Product>, term: string, category: string): (r: seq<Product>)
    ensures forall i :: 0 <= i < |r| ==> r[i] in products && MatchesSearch(r[i], term) && MatchesCategory(r[i], category)
    ensures forall i :: 0 <= i < |products| ==>
      (MatchesSearch(products[i], term) && MatchesCategory(products[i], category) ==> products[i] in r)
  {
    Seqs.Filter(SearchMatcher(term, category), products)
  }

  /** The table shows exactly the matching products, in list order. */
  lemma SearchFilterIsSelection(products: seq<Product>, term: string, category: string)
    ensures Seqs.IsSelection(SearchFilter(products, term, category), products, SearchMatcher(term, category))
    ensures Seqs.IsSubsequence(SearchFilter(products, term, category), products)
  {
    Seqs.FilterIsSelection(SearchMatcher(term, category), products);
  }

  /** No search term and no category restriction: the whole list, in order. */
  lemma EmptySearchKeepsAll(products: seq<Product>, category: string)
    requires category == "all" || category == ""
    ensures SearchFilter(products, "", category) == products
  {
    forall i | 0 <= i < |products|
      ensures SearchMatcher("", category)(products[i])
    {
      Text.ContainsEmpty(Text.ToLower(products[i].name));
    }
    Seqs.FilterAll(SearchMatcher("", category), products);
  }
}
