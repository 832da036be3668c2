# SmartStock core in Dafny

SmartStock is a single-page inventory dashboard. Its only decision logic is
`calculateRisk`, a deterministic dead-stock risk heuristic, plus a handful of
pure operations the pages apply to an in-memory product list. This project
models those operations as pure functions over immutable values and proves
what they promise:

- **Risk scoring** (`Risk`): four factors each add the points of the highest
  band they exceed. These are days since the last sale, units in stock,
  monthly storage cost and category. The score is classified into
  Low < Medium < High < Critical. Confidence is `min(95, 60 + score)` and a
  fixed recommendation goes with each level. Absent fields count as 0.
- **Product record** (`Products`): the line item, its scoring view, the
  consistency of its stored level and confidence with scoring, and the
  eight-item demonstration list.
- **Inventory page** (`Inventory`): adding a product through the form
  (validation gate, defaults, id `length + 1`, one scoring pass); re-analysing
  the products that carry an id; the search/category filter of the table.
- **Analytics page** (`Analytics`): the OR-of-three-thresholds flag, the
  flagged stock value and the six listed products.
- **Insights page** (`Insights`): the keyword-dispatch query responder. It
  tries keyword groups in a fixed order, each group selects some products and
  reports counts and sums, and the answer goes to the head of the history.
  Also the three-item preview with its "+n more" note.
- **Dashboard page** (`Dashboard`): the first four High/Critical products, and
  the badge-variant and colour mappings of risk levels. The inventory table's
  badge mapping (src/pages/Inventory.tsx:106-113) is the same function and is
  modelled once, by `Dashboard.BadgeVariant`.

Every `filter` is modelled by `Seqs.Filter`. `Seqs.IsSelection` states what a
filter result is, independently of how it is computed: an embedding into the
list at strictly increasing positions whose positions are exactly those that
satisfy the predicate. Each page's selection is proved to be such a selection.
Every `reduce` sum is `Seqs.Sum`, a left fold. Every `slice(0, n)` is
`Seqs.Take`.

The model follows the code in these details:

- The inventory category filter also accepts the empty string as "all
  categories".
- A future last-sale date gives a negative `daysSinceLastSale`. The model
  allows it, and scoring treats it like 0.
- The insights, analytics and dashboard pages read the static demonstration
  list, not the inventory page's live list. The model takes the list as a
  parameter.
- The demonstration list's stored levels and confidences do not all agree with
  scoring (`Products.SeedIsNotConsistent`).

## Model

| member | source | states |
|---|---|---|
| Risk.DaysPoints | src/lib/mockData.ts:165-168 | days since the last sale give one of 0/10/20/30/40 points; at least 10, 20, 30 exactly when over 30, 60, 90 days, and 40 exactly when over 120 |
| Risk.QuantityPoints | src/lib/mockData.ts:171-173 | quantity gives one of 0/10/15/25 points; at least 10, at least 15, and 25 exactly when over 15, 30, 50 units |
| Risk.StoragePoints | src/lib/mockData.ts:176-178 | storage cost gives one of 0/10/15/20 points; at least 10, at least 15, and 20 exactly when over 100, 300, 500 |
| Risk.CategoryPoints | src/lib/mockData.ts:181-182 | only the exact category "Electronics" (10) and "Clothing" (5) score; anything else, or no category, gives 0 |
| Risk.RiskScore | src/lib/mockData.ts:161-182 | the total of the four factors never exceeds 95 |
| Risk.LevelOf | src/lib/mockData.ts:184-188 | Critical iff score >= 70, High iff 50 <= score < 70, Medium iff 30 <= score < 50, Low iff score < 30 |
| Risk.ConfidenceOf | src/lib/mockData.ts:190 | the confidence is the minimum of 95 and 60 + score |
| Risk.CalculateRisk | src/lib/mockData.ts:156-204 | level classification by score; confidence in [60,95], equal to 95 iff score >= 35, otherwise 60 + score; High or Critical always come with confidence 95; the recommendation is the one keyed by the returned level |
| Risk.RecommendationIdentifiesLevel | src/lib/mockData.ts:192-203 | the four recommendations are distinct, so the text determines the level |
| Risk.ClassificationMonotone | src/lib/mockData.ts:184-190 | a higher score never gives a lower level or confidence |
| Risk.MissingFieldsCountAsZero | src/lib/mockData.ts:162-178 | an absent days, quantity or storage-cost field assesses exactly like an explicit 0 |
| Risk.OtherCategoriesAreNeutral | src/lib/mockData.ts:181-182 | any category other than Electronics or Clothing scores like no category |
| Risk.MoreDaysNeverLowersRisk | src/lib/mockData.ts:165-190 | raising the days since the last sale, all else fixed, never lowers score, level or confidence |
| Risk.MoreQuantityNeverLowersRisk | src/lib/mockData.ts:171-190 | raising the quantity, all else fixed, never lowers score, level or confidence |
| Risk.MoreStorageCostNeverLowersRisk | src/lib/mockData.ts:176-190 | raising the storage cost, all else fixed, never lowers score, level or confidence |
| Risk.ExampleCritical | src/lib/mockData.ts:161-203 | 91 days, 51 units, cost 501, Electronics scores 85: Critical, confidence 95, liquidation advice |
| Risk.ExampleLow | src/lib/mockData.ts:161-203 | all zero with "Others" scores 0: Low, confidence 60, the routine-operations advice |
| Risk.ExampleCappedMedium | src/lib/mockData.ts:161-190 | 121 days alone scores 40: Medium, with confidence already capped at 95 |
| Products.WithAssessment | src/pages/Inventory.tsx:84-89 | re-scoring replaces only the level and confidence, and the result agrees with scoring |
| Products.AssessmentIgnoresDerivedFields | src/lib/mockData.ts:161-182 | scoring never reads the stored level or confidence |
| Products.WithAssessmentIdempotent | src/pages/Inventory.tsx:84-89 | re-scoring twice equals re-scoring once; re-scoring is the identity exactly on consistent products |
| Products.SeedIsWellFormed | src/lib/mockData.ts:23-120 | the demonstration list has ids 1..8 in order and non-negative quantities, prices, costs and ages |
| Products.SeedIsNotConsistent | src/lib/mockData.ts:60-107 | "Gaming Console" scores 45 and "Harry Potter Book Set" scores 25, so their stored assessments disagree with scoring |
| Inventory.NewProduct | src/pages/Inventory.tsx:44-62 | the new product has id length + 1 and the form's name, category, quantity and price; no storage cost gives 0; a picked date gives its formatted text and its age in days, no picked date gives 0 days and today's date; its level and confidence agree with scoring |
| Inventory.AddProduct | src/pages/Inventory.tsx:39-64 | a form missing name, category, quantity or price leaves the list unchanged; otherwise exactly one product is appended and every existing product is kept in place |
| Inventory.HandleAddProduct | src/pages/Inventory.tsx:39-73 | a rejected form changes nothing on the page; an accepted one keeps every existing product, appends exactly the product built from the form, and clears the form |
| Inventory.AddKeepsIdsSequential | src/pages/Inventory.tsx:49 | if ids are 1..n in order they stay so after adding, and the new id was not in use |
| Inventory.AddedProductRescoresToItself | src/pages/Inventory.tsx:60-62 | re-scoring the product just created reproduces its stored level and confidence |
| Inventory.AnalyzeRisk | src/pages/Inventory.tsx:81-93 | length and order are kept; products with another id are untouched; products with the id change only level and confidence, and then agree with scoring |
| Inventory.AnalyzeUnknownIdChangesNothing | src/pages/Inventory.tsx:82-91 | analysing an id no product carries returns the list unchanged |
| Inventory.AnalyzeIdempotent | src/pages/Inventory.tsx:81-93 | analysing the same id twice equals analysing it once |
| Inventory.AnalyzeAfterAddIsIdentity | src/pages/Inventory.tsx:49-93 | with ids 1..n, analysing the product just added changes nothing |
| Inventory.SearchFilter | src/pages/Inventory.tsx:115-120 | a product is shown iff its lower-cased name or category contains the lower-cased search term and the category filter is "all", empty or its category |
| Inventory.SearchFilterIsSelection | src/pages/Inventory.tsx:115-120 | the table is exactly the matching products in list order |
| Inventory.EmptySearchKeepsAll | src/pages/Inventory.tsx:115-120 | an empty search with category "all" or "" shows the whole list in order |
| Analytics.FlaggedProducts | src/pages/Analytics.tsx:45-51 | a product is flagged iff its days, quantity or storage cost meets its threshold |
| Analytics.FlaggedIsSelection | src/pages/Analytics.tsx:45-51 | the flagged list is exactly the products meeting some threshold, in list order |
| Analytics.AnySingleThresholdSuffices | src/pages/Analytics.tsx:46-50 | meeting any one threshold alone is enough to be flagged |
| Analytics.LoweringThresholdsKeepsFlagged | src/pages/Analytics.tsx:46-50 | lowering thresholds never unflags a product: the higher-threshold list is the lower-threshold list filtered again |
| Analytics.MinimumThresholdsFlagAll | src/pages/Analytics.tsx:46-50 | with all sliders at 0 and non-negative quantities, every product is flagged |
| Analytics.FlaggedValue | src/pages/Analytics.tsx:54-56 | the flagged value is 0 when nothing is flagged and, whenever no price or quantity is negative, between 0 and the whole list's value |
| Analytics.ListedProducts | src/pages/Analytics.tsx:297 | the list shows the first min(6, flagged) flagged products |
| Insights.ClassifyQuery | src/pages/Insights.tsx:106-126 | keyword groups are tried in order on the lower-cased query: zero/no sales, electronics, storage cost, quantity/overstocked, else fallback; the first match wins |
| Insights.ClassifyQueryIsTableDispatch | src/pages/Insights.tsx:106-126 | the page's if-chain equals dispatch over the prioritised keyword table: the first rule whose keywords the query mentions decides, else the fallback |
| Insights.Respond | src/pages/Insights.tsx:106-126 | each branch's data are products of the list meeting its condition; counts equal the data's length; the stagnant and overstock branches sum price times quantity, the storage branch sums storage cost |
| Insights.RespondIsSelection | src/pages/Insights.tsx:107-125 | each branch selects exactly the products over 90 days, Electronics and High/Critical, cost over 300, quantity over 30, or High/Critical, in list order |
| Insights.HandleQuery | src/pages/Insights.tsx:94-138 | a blank query leaves the page unchanged; any other is answered, prepended to the history with older entries kept, and the box is cleared |
| Insights.BlankQueryIgnored | src/pages/Insights.tsx:95 | the page is unchanged exactly when the query is all whitespace |
| Insights.Preview | src/pages/Insights.tsx:279 | the preview is the first min(3, n) affected products |
| Insights.MoreNote | src/pages/Insights.tsx:302-304 | a "+(n - 3) more" note appears exactly when n > 3 |
| Insights.PreviewAccountsForAll | src/pages/Insights.tsx:279-304 | previewed products plus the note's count equal the number of affected products |
| Insights.PreviewBadge | src/pages/Insights.tsx:290-294 | previewed High and Critical products get the destructive badge, all others the secondary one |
| Dashboard.BadgeVariant | src/pages/Dashboard.tsx:41-47 | Critical and High give "destructive", Medium "secondary", any other name "default" |
| Dashboard.RiskColor | src/pages/Dashboard.tsx:50-56 | Critical, High and Medium each get their own colour class; any other name gets the low-risk colour |
| Dashboard.LevelStyling | src/pages/Dashboard.tsx:41-56 | on the four levels the colour distinguishes every level; the badge is destructive iff the level is High or above; Low gets "default" |
| Dashboard.HighRiskPanel | src/pages/Dashboard.tsx:188-190 | at most four products, all High or Critical, the first ones of the list in order; fewer than four means all of them |
| Dashboard.HighRiskPanelSelection | src/pages/Dashboard.tsx:188-190 | the panel is an order-preserving subsequence of the list, and the exact High/Critical selection when shorter than four |
| Text.ContainsIffOccurs | src/pages/Inventory.tsx:116-117 | substring search succeeds iff the term occurs at some position |
| Text.TrimEmptyIffBlank | src/pages/Insights.tsx:95 | trimming leaves nothing iff every character is ECMAScript whitespace |

## Left out

- Rendering, charts and routing: the JSX, recharts widgets, the page shell, the
  sidebar, the header and the hard-coded recommendation cards carry no logic
  beyond what is modelled.
- Currency, locale and date formatting: answers are modelled as counts and
  sums, not as rendered sentences. Dates enter as an already formatted string
  plus a whole-day age, because that arithmetic reads the clock.
- Number parsing: numeric form inputs enter already parsed, an empty input
  being `None`. A non-empty input that `parseInt` cannot read, such as ".5",
  passes the submission gate (src/pages/Inventory.tsx:40) but gives a NaN
  quantity (line 52); `ProductForm` cannot represent that case, so the model
  says nothing about products with a NaN quantity.
- Floating point: prices and costs are exact rationals, days and quantities
  integers. Rounding of sums is not modelled.
- The artificial delays and loading flags around analysis and queries, and the
  hard-coded pair of initial history entries with fixed answer texts. Each
  handler is modelled as one atomic update of the page. In the source, Enter
  (src/pages/Insights.tsx:176) calls `handleQuery` even while the button is
  disabled, and each call prepends its answer to the `queryHistory` its closure
  captured before the 1.5 s wait (lines 100 and 135). So with two overlapping
  queries only the later answer survives; the model does not represent this
  interleaving.
- The static metrics and chart constants, which do not derive from the product
  list.
- Text.ToLower: lower-cases ASCII letters only. JavaScript's `toLowerCase`
  also folds non-ASCII letters, so search and keyword matching on non-ASCII
  text are not modelled.
