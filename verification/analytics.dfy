/** The analytics page: the three threshold sliders flag a product when it
    meets ANY of them, the flagged products' stock value is totalled, and the
    first six are listed. */
module Analytics {
  import opened Products
  import Seqs

  /** Slider positions: days without sale (0-365), minimum stock quantity
      (0-100) and storage cost (0-1000 in steps of 50). */
  datatype Thresholds = Thresholds(daysWithoutSale: int, minStockQuantity: int, maxStorageCost: int)

  const MinimumThresholds := Thresholds(0, 0, 0)

  /** The number of flagged products the list shows. */
  const ListedCount := 6

  /** The union of the three risk signals. */
  predicate MeetsThreshold(p: Product, t: Thresholds) {
    || p.daysSinceLastSale >= t.daysWithoutSale
    || p.quantity >= t.minStockQuantity
    || p.storageCost >= t.maxStorageCost as real
  }

  function Flags(t: Thresholds): Product -> bool {
    p => MeetsThreshold(p, t)
  }

  /** Every threshold is at or below the corresponding one of `u`. */
  predicate AtOrBelow(t: Thresholds, u: Thresholds) {
    t.daysWithoutSale <= u.daysWithoutSale && t.minStockQuantity <= u.minStockQuantity
    && t.maxStorageCost <= u.maxStorageCost
  }

  /** `getFilteredProducts`. */
  function FlaggedProducts(products: seq<Product>, t: Thresholds): (r: seq<Product>)
    ensures |r| <= |products|
    ensures forall i :: 0 <= i < |r| ==> r[i] in products && MeetsThreshold(r[i], t)
    ensures forall i :: 0 <= i < |products| ==> (MeetsThreshold(products[i], t) ==> products[i] in r)
  {
    Seqs.Filter(Flags(t), products)
  }

  /** No product in the list has a negative price or quantity. */
  predicate NonNegativeStock(products: seq<Product>) {
    forall i :: 0 <= i < |products| ==> products[i].purchasePrice >= 0.0 && products[i].quantity >= 0
  }

  /** `totalFilteredValue`: unit price times units, summed over the flagged
      products. It is 0 when nothing is flagged and, for non-negative prices
      and quantities, never exceeds the value of the whole list. */
  function FlaggedValue(products: seq<Product>, t: Thresholds): (v: real)
    ensures FlaggedProducts(products, t) == [] ==> v == 0.0
    ensures NonNegativeStock(products) ==> 0.0 <= v <= Seqs.Sum(LineValue, products)
  {
    FlaggedValueBounds(products, t);
    Seqs.Sum(LineValue, FlaggedProducts(products, t))
  }

  /** The products listed under "Products Meeting Risk Criteria". */
  function ListedProducts(products: seq<Product>, t: Thresholds): (r: seq<Product>)
    ensures |r| == if |FlaggedProducts(products, t)| < ListedCount then |FlaggedProducts(products, t)| else ListedCount
    ensures r == FlaggedProducts(products, t)[..|r|]
  {
    Seqs.Take(FlaggedProducts(products, t), ListedCount)
  }

  /** The flagged list is exactly the products meeting a threshold, in order. */
  lemma FlaggedIsSelection(products: seq<Product>, t: Thresholds)
    ensures Seqs.IsSelection(FlaggedProducts(products, t), products, Flags(t))
    ensures Seqs.IsSubsequence(FlaggedProducts(products, t), products)
  {
    Seqs.FilterIsSelection(Flags(t), products);
  }

  /** Meeting the storage-cost threshold alone is enough to be flagged, however
      far below the other two thresholds a product is; likewise for the others. */
  lemma AnySingleThresholdSuffices(products: seq<Product>, t: Thresholds, i: nat)
    requires i < |products|
    requires products[i].daysSinceLastSale >= t.daysWithoutSale
      || products[i].quantity >= t.minStockQuantity
      || products[i].storageCost >= t.maxStorageCost as real
    ensures products[i] in FlaggedProducts(products, t)
  {
  }

  /** Lowering thresholds never unflags a product: the list under the higher
      thresholds is exactly the list under the lower ones, filtered again. */
  lemma LoweringThresholdsKeepsFlagged(products: seq<Product>, low: Thresholds, high: Thresholds)
    requires AtOrBelow(low, high)
    ensures Seqs.Filter(Flags(high), FlaggedProducts(products, low)) == FlaggedProducts(products, high)
    ensures forall i :: 0 <= i < |FlaggedProducts(products, high)| ==>
      FlaggedProducts(products, high)[i] in FlaggedProducts(products, low)
    ensures |FlaggedProducts(products, high)| <= |FlaggedProducts(products, low)|
  {
    Seqs.FilterCompose(Flags(high), Flags(low), Flags(high), products);
  }

  /** With every slider at 0, every product with a non-negative quantity is flagged. */
  lemma MinimumThresholdsFlagAll(products: seq<Product>)
    requires forall i :: 0 <= i < |products| ==> products[i].quantity >= 0
    ensures FlaggedProducts(products, MinimumThresholds) == products
  {
    Seqs.FilterAll(Flags(MinimumThresholds), products);
  }

  /** The flagged sum lies between 0 and the sum over the whole list. */
  lemma FlaggedValueBounds(products: seq<Product>, t: Thresholds)
    ensures NonNegativeStock(products) ==>
      0.0 <= Seqs.Sum(LineValue, FlaggedProducts(products, t)) <= Seqs.Sum(LineValue, products)
  {
    if NonNegativeStock(products) {
      forall i | 0 <= i < |products|
        ensures LineValue(products[i]) >= 0.0
      {
        LineValueNonnegative(products[i]);
      }
      Seqs.SumOfFilterBounded(LineValue, Flags(t), products);
    }
  }
}
