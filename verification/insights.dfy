/** The insights page's query responder: a non-blank query is matched against
    a fixed, ordered list of keyword groups, the matching group selects the
    products it reports on, and the answer is put at the top of the history.
    Answers are modelled by their counts and sums, not their rendered text. */
module Insights {
  import opened Wrappers
  import opened Risk
  import opened Products
  import Seqs
  import Text

  /** The keyword groups in the order they are tried, then the fallback. */
  datatype Branch = ZeroSales | ElectronicsRisk | StorageCost | Overstock | Fallback

  predicate Mentions(query: string, keyword: string) {
    Text.Contains(Text.ToLower(query), keyword)
  }

  predicate MentionsAny(query: string, keywords: seq<string>) {
    exists k :: 0 <= k < |keywords| && Mentions(query, keywords[k])
  }

  /** The first keyword group the lower-cased query mentions wins. */
  function ClassifyQuery(query: string): (b: Branch)
    ensures b == ZeroSales <==> Mentions(query, "zero sales") || Mentions(query, "no sales")
    ensures b == ElectronicsRisk <==>
      && !Mentions(query, "zero sales") && !Mentions(query, "no sales")
      && Mentions(query, "electronics")
    ensures b == StorageCost <==>
      && !Mentions(query, "zero sales") && !Mentions(query, "no sales") && !Mentions(query, "electronics")
      && Mentions(query, "storage cost")
    ensures b == Overstock <==>
      && !Mentions(query, "zero sales") && !Mentions(query, "no sales") && !Mentions(query, "electronics")
      && !Mentions(query, "storage cost")
      && (Mentions(query, "quantity") || Mentions(query, "overstocked"))
    ensures b == Fallback <==>
      && !Mentions(query, "zero sales") && !Mentions(query, "no sales") && !Mentions(query, "electronics")
      && !Mentions(query, "storage cost") && !Mentions(query, "quantity") && !Mentions(query, "overstocked")
  {
    if Mentions(query, "zero sales") || Mentions(query, "no sales") then ZeroSales
    else if Mentions(query, "electronics") then ElectronicsRisk
    else if Mentions(query, "storage cost") then StorageCost
    else if Mentions(query, "quantity") || Mentions(query, "overstocked") then Overstock
    else Fallback
  }

  /** One row of the dispatch table: a keyword group and the branch it selects. */
  datatype Rule = Rule(keywords: seq<string>, branch: Branch)

  /** The dispatch as a prioritised table. */
  const KeywordTable: seq<Rule> := [
    Rule(["zero sales", "no sales"], ZeroSales),
    Rule(["electronics"], ElectronicsRisk),
    Rule(["storage cost"], StorageCost),
    Rule(["quantity", "overstocked"], Overstock)
  ]

  /** The branch of the first rule whose group the query mentions, or the fallback. */
  function Dispatch(rules: seq<Rule>, query: string): (b: Branch)
    ensures b == Fallback || exists k :: 0 <= k < |rules| && rules[k].branch == b && MentionsAny(query, rules[k].keywords)
    decreases |rules|
  {
    if |rules| == 0 then Fallback
    else if MentionsAny(query, rules[0].keywords) then rules[0].branch
    else Dispatch(rules[1..], query)
  }

  /** The if-chain of the page is the table dispatch. */
  lemma ClassifyQueryIsTableDispatch(query: string)
    ensures ClassifyQuery(query) == Dispatch(KeywordTable, query)
  {
    var kw0, kw1, kw2, kw3 := KeywordTable[0].keywords, KeywordTable[1].keywords, KeywordTable[2].keywords, KeywordTable[3].keywords;
    assert MentionsAny(query, kw0) <==> Mentions(query, kw0[0]) || Mentions(query, kw0[1]);
    assert MentionsAny(query, kw1) <==> Mentions(query, kw1[0]);
    assert MentionsAny(query, kw2) <==> Mentions(query, kw2[0]);
    assert MentionsAny(query, kw3) <==> Mentions(query, kw3[0]) || Mentions(query, kw3[1]);
    assert KeywordTable[1..][1..][1..][1..] == [];
  }

  predicate IsStagnant(p: Product) {
    p.daysSinceLastSale > 90
  }

  predicate IsElectronics(p: Product) {
    p.category == "Electronics"
  }

  predicate HasHighStorageCost(p: Product) {
    p.storageCost > 300.0
  }

  predicate IsOverstocked(p: Product) {
    p.quantity > 30
  }

  function StorageCostOf(p: Product): real {
    p.storageCost
  }

  /** What each branch selects, as one condition on a product. */
  function Selects(b: Branch): Product -> bool {
    match b
    case ZeroSales => IsStagnant
    case ElectronicsRisk => p => IsElectronics(p) && IsHighRisk(p)
    case StorageCost => HasHighStorageCost
    case Overstock => IsOverstocked
    case Fallback => IsHighRisk
  }

  /** The figures each answer reports. */
  datatype Response =
    | StagnantReport(count: nat, totalValue: real)
    | ElectronicsReport(electronicsCount: nat, highRiskCount: nat)
    | StorageReport(count: nat, monthlyStorageCost: real)
    | OverstockReport(count: nat, totalValue: real)
    | GeneralReport(highRiskCount: nat)

  datatype Answer = Answer(response: Response, data: seq<Product>)

  /** The selection and figures of one branch over the product list. */
  function Respond(b: Branch, products: seq<Product>): (a: Answer)
    ensures forall i :: 0 <= i < |a.data| ==> a.data[i] in products && Selects(b)(a.data[i])
    ensures b == ZeroSales ==> a.response == StagnantReport(|a.data|, Seqs.Sum(LineValue, a.data))
    ensures b == ElectronicsRisk ==>
      && a.response.ElectronicsReport?
      && a.response.highRiskCount == |a.data|
      && a.response.electronicsCount == |Seqs.Filter(IsElectronics, products)|
    ensures b == StorageCost ==> a.response == StorageReport(|a.data|, Seqs.Sum(StorageCostOf, a.data))
    ensures b == Overstock ==> a.response == OverstockReport(|a.data|, Seqs.Sum(LineValue, a.data))
    ensures b == Fallback ==> a.response == GeneralReport(|a.data|)
  {
    match b
    case ZeroSales =>
      var stagnant := Seqs.Filter(IsStagnant, products);
      Answer(StagnantReport(|stagnant|, Seqs.Sum(LineValue, stagnant)), stagnant)
    case ElectronicsRisk =>
      var electronics := Seqs.Filter(IsElectronics, products);
      var highRisk := Seqs.Filter(IsHighRisk, electronics);
      Answer(ElectronicsReport(|electronics|, |highRisk|), highRisk)
    case StorageCost =>
      var costly := Seqs.Filter(HasHighStorageCost, products);
      Answer(StorageReport(|costly|, Seqs.Sum(StorageCostOf, costly)), costly)
    case Overstock =>
      var overstocked := Seqs.Filter(IsOverstocked, products);
      Answer(OverstockReport(|overstocked|, Seqs.Sum(LineValue, overstocked)), overstocked)
    case Fallback =>
      var highRisk := Seqs.Filter(IsHighRisk, products);
      Answer(GeneralReport(|highRisk|), highRisk)
  }

  /** Every branch reports exactly the products its condition selects, in list order. */
  lemma RespondIsSelection(b: Branch, products: seq<Product>)
    ensures Respond(b, products).data == Seqs.Filter(Selects(b), products)
    ensures Seqs.IsSelection(Respond(b, products).data, products, Selects(b))
    ensures Seqs.IsSubsequence(Respond(b, products).data, products)
  {
    if b == ElectronicsRisk {
      Seqs.FilterCompose(IsHighRisk, IsElectronics, Selects(b), products);
    }
    Seqs.FilterIsSelection(Selects(b), products);
  }

  datatype QueryResult = QueryResult(query: string, response: Response, data: seq<Product>, timestamp: string)

  /** The query box and the history shown below it, newest first. */
  datatype InsightsPage = InsightsPage(query: string, history: seq<QueryResult>)

  /** `handleQuery`: a blank query does nothing; any other is answered, put at
      the head of the history, and the box is cleared. */
  function HandleQuery(page: InsightsPage, products: seq<Product>): (r: InsightsPage)
    ensures Text.Trim(page.query) == [] ==> r == page
    ensures Text.Trim(page.query) != [] ==>
      && r.query == ""
      && |r.history| == |page.history| + 1
      && r.history[1..] == page.history
      && r.history[0].query == page.query
      && r.history[0].timestamp == "Just now"
      && Answer(r.history[0].response, r.history[0].data) == Respond(ClassifyQuery(page.query), products)
  {
    if Text.Trim(page.query) == [] then page
    else
      var a := Respond(ClassifyQuery(page.query), products);
      InsightsPage("", [QueryResult(page.query, a.response, a.data, "Just now")] + page.history)
  }

  /** A query of whitespace only leaves the page unchanged. */
  lemma BlankQueryIgnored(page: InsightsPage, products: seq<Product>)
    ensures Text.IsBlank(page.query) <==> HandleQuery(page, products) == page
  {
    Text.TrimEmptyIffBlank(page.query);
  }

  /** The number of affected products shown under an answer. */
  const PreviewCount := 3

  function Preview(data: seq<Product>): (r: seq<Product>)
    ensures |r| == if |data| < PreviewCount then |data| else PreviewCount
    ensures r == data[..|r|]
  {
    Seqs.Take(data, PreviewCount)
  }

  /** The "+n more products" note, present only when some products are not shown. */
  function MoreNote(data: seq<Product>): (more: Option<nat>)
    ensures more.Some? <==> |data| > PreviewCount
    ensures more.Some? ==> more.value > 0
  {
    if |data| > PreviewCount then Some(|data| - PreviewCount) else None
  }

  /** Shown products plus the note's count account for every affected product. */
  lemma PreviewAccountsForAll(data: seq<Product>)
    ensures |Preview(data)| + MoreNote(data).GetOr(0) == |data|
  {
  }

  /** The badge of a previewed product. */
  function PreviewBadge(level: RiskLevel): (variant: string)
    ensures variant == "destructive" <==> level == High || level == Critical
    ensures variant != "destructive" ==> variant == "secondary"
  {
    if level == Critical || level == High then "destructive" else "secondary"
  }
}
