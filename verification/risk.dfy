/** The obsolescence-risk heuristic `calculateRisk`: four factors each add the
    points of the highest threshold band they exceed, the total is classified
    into four ordered levels, and a capped confidence and a fixed
    recommendation accompany the level. */
module Risk {
  import opened Wrappers

  /** The ordered risk classification Low < Medium < High < Critical. */
  datatype RiskLevel = Low | Medium | High | Critical {
    function Rank(): nat {
      match this
      case Low => 0
      case Medium => 1
      case High => 2
      case Critical => 3
    }
  }

  /** The fields of a possibly incomplete product that the heuristic reads.
      `None` stands for a field that is absent (or not a number): the
      heuristic counts it as 0, or, for the category, as no bonus. */
  datatype PartialProduct = PartialProduct(
    daysSinceLastSale: Option<int>,
    quantity: Option<int>,
    storageCost: Option<real>,
    category: Option<string>)

  /** Points for the time since the last sale: the highest band exceeded wins. */
  function DaysPoints(days: int): (r: nat)
    ensures r in {0, 10, 20, 30, 40}
    ensures r == 40 <==> days > 120
    ensures r >= 30 <==> days > 90
    ensures r >= 20 <==> days > 60
    ensures r >= 10 <==> days > 30
  {
    if days > 120 then 40
    else if days > 90 then 30
    else if days > 60 then 20
    else if days > 30 then 10
    else 0
  }

  /** Points for the units in stock. */
  function QuantityPoints(quantity: int): (r: nat)
    ensures r in {0, 10, 15, 25}
    ensures r == 25 <==> quantity > 50
    ensures r >= 15 <==> quantity > 30
    ensures r >= 10 <==> quantity > 15
  {
    if quantity > 50 then 25
    else if quantity > 30 then 15
    else if quantity > 15 then 10
    else 0
  }

  /** Points for the monthly storage cost. */
  function StoragePoints(cost: real): (r: nat)
    ensures r in {0, 10, 15, 20}
    ensures r == 20 <==> cost > 500.0
    ensures r >= 15 <==> cost > 300.0
    ensures r >= 10 <==> cost > 100.0
  {
    if cost > 500.0 then 20
    else if cost > 300.0 then 15
    else if cost > 100.0 then 10
    else 0
  }

  /** Points for the category: only the exact names "Electronics" and
      "Clothing" score. */
  function CategoryPoints(category: Option<string>): (r: nat)
    ensures r in {0, 5, 10}
    ensures r == 10 <==> category == Some("Electronics")
    ensures r == 5 <==> category == Some("Clothing")
  {
    if category == Some("Electronics") then 10
    else if category == Some("Clothing") then 5
    else 0
  }

  /** The accumulated score; missing numeric fields count as 0. */
  function RiskScore(p: PartialProduct): (score: nat)
    ensures score <= 95
  {
    DaysPoints(p.daysSinceLastSale.GetOr(0))
    + QuantityPoints(p.quantity.GetOr(0))
    + StoragePoints(p.storageCost.GetOr(0.0))
    + CategoryPoints(p.category)
  }

  /** Classification with inclusive lower bounds, highest level first. */
  function LevelOf(score: int): (level: RiskLevel)
    ensures level == Critical <==> score >= 70
    ensures level == High <==> 50 <= score < 70
    ensures level == Medium <==> 30 <= score < 50
    ensures level == Low <==> score < 30
  {
    if score >= 70 then Critical
    else if score >= 50 then High
    else if score >= 30 then Medium
    else Low
  }

  /** `Math.min(95, 60 + score)`. */
  function ConfidenceOf(score: int): (c: int)
    ensures c <= 95 && c <= 60 + score
    ensures c == 95 || c == 60 + score
  {
    if 60 + score < 95 then 60 + score else 95
  }

  /** The recommendation attached to each level. */
  function Recommendation(level: RiskLevel): string {
    match level
    case Critical => "Immediate action required - Consider 40-50% discount or liquidation"
    case High => "Apply 20-30% discount or bundle with popular items"
    case Medium => "Monitor closely, consider promotional campaigns"
    case Low => "Continue normal operations, review in 30 days"
  }

  datatype Assessment = Assessment(level: RiskLevel, confidence: int, recommendation: string)

  /** `calculateRisk`: total over partial products. */
  function CalculateRisk(p: PartialProduct): (a: Assessment)
    ensures a.level == Critical <==> RiskScore(p) >= 70
    ensures a.level == High <==> 50 <= RiskScore(p) < 70
    ensures a.level == Medium <==> 30 <= RiskScore(p) < 50
    ensures a.level == Low <==> RiskScore(p) < 30
    ensures 60 <= a.confidence <= 95
    ensures a.confidence == 95 <==> RiskScore(p) >= 35
    ensures a.confidence < 95 ==> a.confidence == 60 + RiskScore(p)
    ensures a.level.Rank() >= High.Rank() ==> a.confidence == 95
    ensures a.recommendation == Recommendation(a.level)
  {
    var score := RiskScore(p);
    var level := LevelOf(score);
    Assessment(level, ConfidenceOf(score), Recommendation(level))
  }

  /** Each level has its own recommendation, so the text determines the level. */
  lemma RecommendationIdentifiesLevel(l1: RiskLevel, l2: RiskLevel)
    ensures Recommendation(l1) == Recommendation(l2) <==> l1 == l2
  {
  }

  /** A higher score never gives a lower level or a lower confidence. */
  lemma ClassificationMonotone(s1: int, s2: int)
    requires s1 <= s2
    ensures LevelOf(s1).Rank() <= LevelOf(s2).Rank()
    ensures ConfidenceOf(s1) <= ConfidenceOf(s2)
  {
  }

  /** An absent field scores exactly like an explicit zero. */
  lemma MissingFieldsCountAsZero(p: PartialProduct)
    ensures CalculateRisk(p.(daysSinceLastSale := None)) == CalculateRisk(p.(daysSinceLastSale := Some(0)))
    ensures CalculateRisk(p.(quantity := None)) == CalculateRisk(p.(quantity := Some(0)))
    ensures CalculateRisk(p.(storageCost := None)) == CalculateRisk(p.(storageCost := Some(0.0)))
  {
  }

  /** Only "Electronics" and "Clothing" change the score; every other
      category, and a missing one, scores like no category at all. */
  lemma OtherCategoriesAreNeutral(p: PartialProduct, c: string)
    requires c != "Electronics" && c != "Clothing"
    ensures RiskScore(p.(category := Some(c))) == RiskScore(p.(category := None))
  {
  }

  /** Raising the days since the last sale, all else fixed, never lowers the
      score, the level or the confidence. */
  lemma MoreDaysNeverLowersRisk(p: PartialProduct, days: Option<int>)
    requires p.daysSinceLastSale.GetOr(0) <= days.GetOr(0)
    ensures RiskScore(p) <= RiskScore(p.(daysSinceLastSale := days))
    ensures CalculateRisk(p).level.Rank() <= CalculateRisk(p.(daysSinceLastSale := days)).level.Rank()
    ensures CalculateRisk(p).confidence <= CalculateRisk(p.(daysSinceLastSale := days)).confidence
  {
    ClassificationMonotone(RiskScore(p), RiskScore(p.(daysSinceLastSale := days)));
  }

  /** Raising the quantity never lowers the score, the level or the confidence. */
  lemma MoreQuantityNeverLowersRisk(p: PartialProduct, quantity: Option<int>)
    requires p.quantity.GetOr(0) <= quantity.GetOr(0)
    ensures RiskScore(p) <= RiskScore(p.(quantity := quantity))
    ensures CalculateRisk(p).level.Rank() <= CalculateRisk(p.(quantity := quantity)).level.Rank()
    ensures CalculateRisk(p).confidence <= CalculateRisk(p.(quantity := quantity)).confidence
  {
    ClassificationMonotone(RiskScore(p), RiskScore(p.(quantity := quantity)));
  }

  /** Raising the storage cost never lowers the score, the level or the confidence. */
  lemma MoreStorageCostNeverLowersRisk(p: PartialProduct, cost: Option<real>)
    requires p.storageCost.GetOr(0.0) <= cost.GetOr(0.0)
    ensures RiskScore(p) <= RiskScore(p.(storageCost := cost))
    ensures CalculateRisk(p).level.Rank() <= CalculateRisk(p.(storageCost := cost)).level.Rank()
    ensures CalculateRisk(p).confidence <= CalculateRisk(p.(storageCost := cost)).confidence
  {
    ClassificationMonotone(RiskScore(p), RiskScore(p.(storageCost := cost)));
  }

  /** 91 days, 51 units, 501 a month, Electronics: 30 + 25 + 20 + 10 = 85. */
  lemma ExampleCritical()
    ensures var p := PartialProduct(Some(91), Some(51), Some(501.0), Some("Electronics"));
      && RiskScore(p) == 85
      && CalculateRisk(p) == Assessment(Critical, 95, "Immediate action required - Consider 40-50% discount or liquidation")
  {
  }

  /** Nothing scores: 0, Low, confidence 60. */
  lemma ExampleLow()
    ensures var p := PartialProduct(Some(0), Some(0), Some(0.0), Some("Others"));
      && RiskScore(p) == 0
      && CalculateRisk(p) == Assessment(Low, 60, "Continue normal operations, review in 30 days")
  {
  }

  /** 121 days alone scores 40: Medium, yet the confidence is already capped. */
  lemma ExampleCappedMedium()
    ensures var p := PartialProduct(Some(121), Some(0), Some(0.0), Some("Books"));
      && RiskScore(p) == 40
      && CalculateRisk(p).level == Medium
      && CalculateRisk(p).confidence == 95
  {
  }
}
