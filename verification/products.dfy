/** The inventory line item every page works on, the scoring view of it, and
    the eight-item demonstration list the pages start from. */
module Products {
  import opened Wrappers
  import opened Risk

  /** One inventory line item. Prices and costs are exact rationals; the
      risk level and the optional confidence are derived by scoring. */
  datatype Product = Product(
    id: int,
    name: string,
    category: string,
    quantity: int,
    purchasePrice: real,
    lastSaleDate: string,
    storageCost: real,
    riskLevel: RiskLevel,
    daysSinceLastSale: int,
    confidence: Option<int>)

  /** A complete product seen as scoring input: every scored field is present. */
  function ScoringInput(p: Product): PartialProduct {
    PartialProduct(Some(p.daysSinceLastSale), Some(p.quantity), Some(p.storageCost), Some(p.category))
  }

  function Assess(p: Product): Assessment {
    CalculateRisk(ScoringInput(p))
  }

  /** The stored level and confidence are what scoring the product gives. */
  predicate Consistent(p: Product) {
    p.riskLevel == Assess(p).level && p.confidence == Some(Assess(p).confidence)
  }

  /** `q` is `p` with at most its level and confidence replaced. */
  predicate SameExceptAssessment(p: Product, q: Product) {
    p == q.(riskLevel := p.riskLevel, confidence := p.confidence)
  }

  /** `p` with its level and confidence replaced by a fresh scoring. */
  function WithAssessment(p: Product): (q: Product)
    ensures SameExceptAssessment(p, q)
    ensures Consistent(q)
  {
    var a := Assess(p);
    p.(riskLevel := a.level, confidence := Some(a.confidence))
  }

  /** Scoring never reads the level or the confidence, so products that differ
      only there score alike and re-scoring is idempotent. */
  lemma AssessmentIgnoresDerivedFields(p: Product, q: Product)
    requires SameExceptAssessment(p, q)
    ensures Assess(p) == Assess(q)
    ensures WithAssessment(p) == WithAssessment(q)
  {
  }

  lemma WithAssessmentIdempotent(p: Product)
    ensures WithAssessment(WithAssessment(p)) == WithAssessment(p)
    ensures Consistent(p) <==> WithAssessment(p) == p
  {
    AssessmentIgnoresDerivedFields(p, WithAssessment(p));
  }

  /** Stock value of one line: unit price times units. */
  function LineValue(p: Product): real {
    p.purchasePrice * p.quantity as real
  }

  lemma LineValueNonnegative(p: Product)
    requires p.purchasePrice >= 0.0 && p.quantity >= 0
    ensures LineValue(p) >= 0.0
  {
  }

  predicate IsHighRisk(p: Product) {
    p.riskLevel == High || p.riskLevel == Critical
  }

  /** Ids are 1, 2, ..., n in list order. */
  predicate IdsSequential(ps: seq<Product>) {
    forall i :: 0 <= i < |ps| ==> ps[i].id == i + 1
  }

  /** Quantities, prices, costs and ages are all non-negative. */
  predicate NonNegativeFields(p: Product) {
    p.quantity >= 0 && p.purchasePrice >= 0.0 && p.storageCost >= 0.0 && p.daysSinceLastSale >= 0
  }

  /** The demonstration list. Its stored levels and confidences were written
      by hand and do not all agree with scoring. */
  const SeedProducts: seq<Product> := [
    Product(1, "Samsung Galaxy S22", "Electronics", 45, 50000.0, "2024-06-15", 500.0, High, 83, Some(87)),
    Product(2, "Nike Air Max Sneakers", "Clothing", 23, 8000.0, "2024-08-20", 200.0, Medium, 47, Some(72)),
    Product(3, "MacBook Pro 16-inch", "Electronics", 8, 180000.0, "2024-03-10", 800.0, Critical, 180, Some(95)),
    Product(4, "Harry Potter Book Set", "Books", 67, 2500.0, "2024-09-01", 100.0, Low, 5, Some(65)),
    Product(5, "Wireless Headphones", "Electronics", 34, 12000.0, "2024-07-10", 300.0, Medium, 58, Some(78)),
    Product(6, "Designer Handbag", "Clothing", 12, 25000.0, "2024-05-25", 400.0, High, 104, Some(91)),
    Product(7, "Gaming Console", "Electronics", 19, 45000.0, "2024-08-30", 450.0, Low, 37, Some(68)),
    Product(8, "Winter Jackets", "Clothing", 89, 3500.0, "2024-04-15", 150.0, Critical, 144, Some(93))
  ]

  lemma SeedIsWellFormed()
    ensures IdsSequential(SeedProducts)
    ensures forall i :: 0 <= i < |SeedProducts| ==> NonNegativeFields(SeedProducts[i])
  {
  }

  /** The stored assessment of the "Gaming Console" (45 points, Medium) and of
      the "Harry Potter Book Set" (25 points, confidence 85) disagree with
      scoring. */
  lemma SeedIsNotConsistent()
    ensures RiskScore(ScoringInput(SeedProducts[6])) == 45 && !Consistent(SeedProducts[6])
    ensures RiskScore(ScoringInput(SeedProducts[3])) == 25 && !Consistent(SeedProducts[3])
  {
  }
}
