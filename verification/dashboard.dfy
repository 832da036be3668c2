/** The dashboard's high-risk panel and the badge variant and text colour it
    (and the inventory table) give each risk level. The mappings take the
    level's name as a string, as the page does, so any other name falls to
    the default case. */
module Dashboard {
  import opened Risk
  import opened Products
  import Seqs

  /** How many products the high-risk panel shows. */
  const PanelSize := 4

  /** The name a level is displayed and compared under. */
  function Label(level: RiskLevel): string {
    match level
    case Low => "Low"
    case Medium => "Medium"
    case High => "High"
    case Critical => "Critical"
  }

  /** `getRiskBadgeVariant`: High and Critical share the destructive badge. */
  function BadgeVariant(levelName: string): (variant: string)
    ensures variant == "destructive" <==> levelName == "Critical" || levelName == "High"
    ensures variant == "secondary" <==> levelName == "Medium"
    ensures variant == "default" <==> !(levelName in {"Critical", "High", "Medium"})
  {
    if levelName == "Critical" then "destructive"
    else if levelName == "High" then "destructive"
    else if levelName == "Medium" then "secondary"
    else "default"
  }

  /** `getRiskColor`: one text colour class per level, Low being the default. */
  function RiskColor(levelName: string): (color: string)
    ensures color == "text-risk-critical" <==> levelName == "Critical"
    ensures color == "text-risk-high" <==> levelName == "High"
    ensures color == "text-risk-medium" <==> levelName == "Medium"
    ensures color == "text-risk-low" <==> !(levelName in {"Critical", "High", "Medium"})
  {
    if levelName == "Critical" then "text-risk-critical"
    else if levelName == "High" then "text-risk-high"
    else if levelName == "Medium" then "text-risk-medium"
    else "text-risk-low"
  }

  /** On the four levels: the colour tells every level apart, while the badge
      tells only whether the level is High or above. */
  lemma LevelStyling(l1: RiskLevel, l2: RiskLevel)
    ensures RiskColor(Label(l1)) == RiskColor(Label(l2)) <==> l1 == l2
    ensures BadgeVariant(Label(l1)) == "destructive" <==> l1.Rank() >= High.Rank()
    ensures BadgeVariant(Label(Low)) == "default"
  {
  }

  /** The "High Risk Products" panel: the first four High or Critical
      products, in list order. */
  function HighRiskPanel(products: seq<Product>): (r: seq<Product>)
    ensures |r| <= PanelSize
    ensures forall i :: 0 <= i < |r| ==> IsHighRisk(r[i]) && r[i] in products
    ensures |r| <= |Seqs.Filter(IsHighRisk, products)| && r == Seqs.Filter(IsHighRisk, products)[..|r|]
    ensures |r| < PanelSize ==> r == Seqs.Filter(IsHighRisk, products)
  {
    Seqs.Take(Seqs.Filter(IsHighRisk, products), PanelSize)
  }

  /** The panel is an order-preserving subsequence of the list; with fewer than
      four high-risk products it holds every one of them. */
  lemma HighRiskPanelSelection(products: seq<Product>)
    ensures Seqs.IsSubsequence(HighRiskPanel(products), products)
    ensures |HighRiskPanel(products)| < PanelSize ==>
      Seqs.IsSelection(HighRiskPanel(products), products, IsHighRisk)
  {
    var all := Seqs.Filter(IsHighRisk, products);
    Seqs.FilterIsSelection(IsHighRisk, products);
    Seqs.PrefixOfSubsequence(all, products, |HighRiskPanel(products)|);
  }
}
