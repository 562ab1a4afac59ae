# CKD risk scorer — a Dafny model

This project models the inference core of the chronic-kidney-disease risk
demo service in `main.py`.

**What the core does.** A prediction request carries three things:
- the patient's demographics;
- three comorbidity flags;
- a list of time-stamped lab/vitals readings, with every value optional.

The core runs in five steps:
1. It averages each reading column over the readings where it is present (`_safe_mean`).
2. It adds fixed or capped per-feature contributions to a base score of 0.10.
3. It clamps the result at 0.99 and derives a risk level from it.
4. It ranks the contributing features.
5. It derives up to four recommendations.

**How the model is split.**
- `schema.dfy` (module `Schema`): the request and response records as datatypes.
- `features.dfy` (module `Features`): the keys of the contribution table, in the order the scorer inserts them, and its `(feature, value)` rows.
- `mean.dfy` (module `Mean`): `_safe_mean` as pure functions, plus its properties.
- `scoring.dfy` (module `Scoring`):
  - the per-column averages;
  - each feature's contribution;
  - the contribution table, as the insertion-ordered list the Python dict holds;
  - the raw and clamped probability;
  - the risk level;
  - rounding to two decimals;
  - bounds and monotonicity lemmas.
- `ranking.dfy` (module `Ranking`): the top-feature selection.
  - Features are dropped when they are the baseline.
  - The rest are sorted by contribution, descending and stable. The sort is a functional insertion sort.
  - The top three are taken, or the fallback list when there are none.
  - Names are normalised.
  - Lemmas prove that the sorted list is a permutation, is ordered, breaks ties by insertion order, and has distinct public names.
- `advice.dfy` (module `Advice`): the five recommendation rules, the generic advice, the cap of four, and lemmas about which texts appear and in what order.
- `riskmodel.dfy` (module `RiskModel`):
  - `Predict`, a specification of the whole response;
  - `RiskFromRequest`, an imperative rendering of `_risk_from_request`;
  - lemmas tying the two together and stating the service's promises;
  - a worked example and a rounding boundary example.

**The imperative method.**
- `RiskFromRequest` keeps the source's local state: a growing contributions list and a running probability.
- It is split into phase methods, one per block of the source: patient facts, lab means, vital-sign means, ranking and recommendations.
- After every block, the state is shown to equal the specification's table prefix and partial sum (`RiskModel.Accumulated`).
- Its `ensures` is `resp == Predict(req)`. Everything proved about `Predict` therefore holds for the method.

**Notes on the code's behaviour.**
- **Multiple readings.** Every column is averaged over all readings that carry it. No trend across readings is computed and the latest reading has no special weight.
- **Probability.** The score is clamped with `max(0.0, min(0.99, ·))`; no squashing function is applied. Because every contribution is non-negative, the probability always lies in [0.10, 0.99] (`Scoring.ProbabilityBounds`).
- **Top features.** They are not always features with a nonzero contribution. When nothing contributes, the fixed list `creatinine, age, diabetes_mellitus` is returned (`RiskModel.NothingContributed`).
- **A worked example.** Take a 68-year-old man with diabetes and hypertension and one reading: creatinine 1.4, albumin 3.2, systolic 130, heart rate 75.
  - He gets "High Risk" at 0.73.
  - His top features are `diabetes_mellitus, hypertension, albumin`. Creatinine and age are not among them.
  - No creatinine-monitoring recommendation is made (`RiskModel.WorkedExample`).
- **Risk level and rounding.** The level is chosen from the unrounded probability, so a score of 0.696 is "Moderate Risk" yet is reported as 0.70 (`RiskModel.RoundingCrossesCutPoint`).

## Model

| member | source | states |
|---|---|---|
| Mean.Present | main.py:94 | a value is kept iff it is present in the input; never longer than the input |
| Mean.PresentCounts | main.py:94 | every present value is kept exactly as often as it occurs, so the sum and count of the mean are those of the present readings |
| Mean.SafeMean | main.py:93-97 | result is `None` exactly when every entry is absent |
| Mean.SafeMeanBetween | main.py:93-97 | a present mean lies between the least and the greatest present value |
| Mean.SafeMeanMonotone | main.py:93-97 | raising present values (same presence pattern) never lowers the mean, and presence of the mean is unchanged |
| Mean.PresentNoLower | main.py:94-97 | pointwise-no-lower inputs have as many present values and no smaller sum |
| Mean.SafeMeanSingle | main.py:93-97 | the mean of one reading is that reading |
| Mean.SumAtLeast | main.py:97 | a sum of n values each at least lo is at least n·lo |
| Mean.SumAtMost | main.py:97 | a sum of n values each at most hi is at most n·hi |
| Scoring.Aggregate | main.py:102-110 | each mean is absent exactly when no reading has that value |
| Scoring.AgeContribution | main.py:118-119 | in [0, 0.20]; positive iff age > 50; linear (age−50)/250 up to age 100, then 0.20 |
| Scoring.CreatinineContribution | main.py:136-139 | in [0, 0.30]; positive iff mean > 1.2; 0.30 per mg/dL above 1.2, capped from 2.2 |
| Scoring.AgeContributionMonotone | main.py:119 | the age contribution never decreases with age |
| Scoring.CreatinineContributionMonotone | main.py:138-139 | the creatinine contribution never decreases with the mean |
| Scoring.Contribution | main.py:114-166 | every contribution lies between 0 and its cap, and a reading nobody took adds nothing. Baseline 0.10. Age and creatinine follow their curves. Diabetes (0.20), hypertension (0.20) and anemia (0.10) add their full weight iff flagged, else nothing. Albumin adds 0.10 iff its mean is below 3.5. Systolic adds 0.20 iff its mean is above 160, 0.10 iff in (140, 160], nothing iff absent or at most 140. Heart rate adds 0.05 iff its mean is above 100 or below 55 |
| Scoring.TableOfRows | main.py:113-166 | every row is a scored feature with its positive contribution, and every positive contribution has a row |
| Scoring.TableRows | main.py:113-166 | a feature has a row iff it is not the baseline and contributes; a row's value is the feature's contribution |
| Scoring.TableExcludesBaseline | main.py:115-166 | no row of the feature table is the baseline |
| Scoring.TableInInsertionOrder | main.py:113-166 | rows appear in the order the blocks insert them, each feature once |
| Scoring.TableSum | main.py:113-166 | the table's values add up to the total contribution |
| Scoring.TotalContributionBounds | main.py:117-166 | the total contribution lies between 0 and the sum of the caps |
| Scoring.ScoredCapTotal | main.py:117-166 | the caps of all scored features sum to 1.35 |
| Scoring.ProbabilityBounds | main.py:114-169 | the raw score is in [0.10, 1.45]; the clamped probability is min(0.99, raw) and lies in [0.10, 0.99] |
| Scoring.RawProbabilityReachesMaximum | main.py:114-169 | a patient at every cap reaches a raw 1.45, clamped to 0.99 |
| Scoring.TotalContributionMonotone | main.py:117-166 | raising no contribution's value never lowers the total |
| Scoring.ProbabilityMonotone | main.py:114-169 | pointwise higher contributions give a probability no lower |
| Scoring.CreatinineMonotone | main.py:135-169 | a higher (or newly present) mean creatinine, all else equal, never lowers the probability |
| Scoring.ComorbidityMonotone | main.py:124-169 | adding comorbidity flags, all else equal, never lowers the probability |
| Scoring.AgeMonotone | main.py:117-169 | an older patient, all else equal, never gets a lower probability |
| Scoring.RiskLevel | main.py:171-177 | High iff p ≥ 0.70; Moderate iff 0.40 ≤ p < 0.70; Low iff p < 0.40 |
| Scoring.Round2 | main.py:219 | the result is a whole number of hundredths within 0.005 of the input |
| Scoring.Round2KeepsRange | main.py:169-219 | rounding keeps a probability in [0.10, 0.99] |
| Scoring.Round2Monotone | main.py:219 | rounding preserves order |
| Ranking.WithoutBaseline | main.py:180 | keeps exactly the rows whose key is not the baseline |
| Ranking.WithoutBaselineCounts | main.py:180 | every row other than the baseline is kept exactly as often as it occurs, and no baseline row is kept |
| Ranking.WithoutBaselineInOrder | main.py:180 | dropping the baseline keeps rows in insertion order, which the stable sort relies on |
| Ranking.WithoutBaselineKeeps | main.py:180 | a table without a baseline row is unchanged |
| Ranking.InsertDescPermutes | main.py:181 | inserting adds exactly the one element |
| Ranking.SortDescPermutes | main.py:181 | sorting is a permutation |
| Ranking.InsertDescNonIncreasing | main.py:181 | inserting into a descending list keeps it descending |
| Ranking.SortDescNonIncreasing | main.py:181 | the sorted list is in descending order of value |
| Ranking.PrependRanked | main.py:181 | putting a row that outranks all others first keeps the ranking order |
| Ranking.InsertDescRanked | main.py:181 | inserting an earlier-inserted row keeps the ranking order (descending value, ties by insertion) |
| Ranking.SortDescRanked | main.py:181 | the sort is stable: descending value, equal values in insertion order |
| Ranking.TopEntriesAreBest | main.py:180-182 | the top slice has min(3, n) rows taken from the input, in ranking order, each outranking every row left out |
| Ranking.NormalizeRenamesOnlyAlbumin | main.py:184-194 | normalisation renames `albumin_low` to `albumin` and leaves every other name as it is |
| Ranking.PublicNameInjective | main.py:184-194 | distinct features get distinct public names |
| Ranking.PublicNameNotBaseline | main.py:184-194 | no non-baseline feature is published as `baseline` |
| Ranking.SameFeatureSameRow | main.py:113-166 | in an insertion-ordered table a feature has a single row |
| Ranking.FallbackNamesArePublic | main.py:182-194 | with no rows, the result is the fallback `creatinine, age, diabetes_mellitus` |
| Ranking.TopFeaturesShape | main.py:180-194 | 1 to 3 names, pairwise distinct, never `baseline`; the fallback exactly when there are no rows, else the top rows' names |
| Advice.TextInjective | main.py:197-207 | distinct rules have distinct texts |
| Advice.TextNotGeneric | main.py:197-213 | no rule text is one of the generic texts |
| Advice.FiredInRuleOrder | main.py:197-207 | the fired texts are the firing rules' texts, in the source's rule order |
| Advice.FiredMembership | main.py:198-207 | a rule's text is fired iff the rule's condition holds |
| Advice.CapCutsOnlyLast | main.py:214-215 | the cap changes the list only when all five rules fire, and then drops only the nutrition text |
| Advice.NoneFired | main.py:208-213 | nothing fires iff no rule's condition holds |
| Advice.RecommendContents | main.py:197-215 | 1 to 4 texts. Nephrology iff High Risk. Blood pressure iff `hypertension` is a top feature or mean systolic > 140. Creatinine iff `creatinine` is a top feature. Glycemic iff `diabetes_mellitus` is a top feature. Nutrition iff `albumin` is a top feature and the cap does not cut it. Generic advice iff no rule fires |
| Advice.TextPriorityOfRule | main.py:197-207 | a rule's text carries that rule's position in the rule order |
| Advice.FiredTextsFromRules | main.py:197-207 | every fired text is the text of a firing rule |
| Advice.FiredTextsOrdered | main.py:197-207 | fired texts follow the rules' order |
| Advice.RecommendInRuleOrder | main.py:197-215 | when some rule fires, every recommendation is a firing rule's text, listed in rule order |
| RiskModel.AccumulateStep | main.py:117-166 | one scoring block, appending iff its contribution is positive, extends the table prefix and partial sum by one feature |
| RiskModel.AccumulatedAll | main.py:113-166 | after all blocks the state is the baseline row plus the full table, and the raw score |
| RiskModel.DropBaseline | main.py:180 | dropping the baseline from the contributions leaves the feature table |
| RiskModel.ScorePatient | main.py:113-133 | after the baseline, age and comorbidity blocks, the state is the baseline plus the first four features' rows and partial sum |
| RiskModel.ScoreLabs | main.py:135-148 | after the creatinine and albumin blocks, the state is the baseline plus the first six features' rows and partial sum |
| RiskModel.ScoreVitals | main.py:150-166 | after the systolic and heart-rate blocks, the state is the baseline plus the full table, and the raw score |
| RiskModel.RankFeatures | main.py:179-194 | computes exactly the specified top features: 1 to 3 names, never `baseline` |
| RiskModel.CollectRecommendations | main.py:196-215 | computes exactly the specified recommendations, 1 to 4 texts |
| RiskModel.RiskFromRequest | main.py:100-222 | the response is `Predict(req)`: probability in [0.10, 0.99], 1–3 top features, 1–4 recommendations |
| RiskModel.PredictContract | main.py:100-222 | reported probability in [0.10, 0.99] and within 0.005 of the clamped score. The level follows the 0.70/0.40 cut points on the unrounded score. Top features: 1–3, distinct, no baseline. Recommendations: 1–4, with nephrology iff High Risk |
| RiskModel.CreatinineRaisesRisk | main.py:100-222 | raising only creatinine readings never lowers the reported probability, keeps High Risk high and Low Risk low the other way |
| RiskModel.ComorbiditiesRaiseRisk | main.py:124-177 | adding comorbidity flags never lowers the reported probability, keeps High Risk high and Low Risk low the other way |
| RiskModel.FallbackAdvice | main.py:182-215 | at Low Risk with the fallback features and systolic ≤ 140 or absent, the advice is creatinine monitoring then glycemic control |
| RiskModel.EmptyTableScoresBaseline | main.py:113-169 | with nothing contributing the score is exactly 0.10, reported as 0.10, and mean systolic is absent or ≤ 140 |
| RiskModel.NothingContributed | main.py:100-222 | a request where nothing contributes gets Low Risk, 0.10, the fallback features and those two texts |
| RiskModel.ExampleAggregate | main.py:102-110 | the example request's means are its single reading |
| RiskModel.ExampleTable | main.py:113-166 | the example's contributions are age 0.072, diabetes 0.20, hypertension 0.20, creatinine 0.06, albumin 0.10; raw score 0.732 |
| RiskModel.ExampleSorted | main.py:181 | the example sorts to diabetes, hypertension, albumin, age, creatinine (ties kept in insertion order) |
| RiskModel.ExampleTopFeatures | main.py:180-194 | the example's top features are `diabetes_mellitus, hypertension, albumin` |
| RiskModel.TiedContributionsKeepInsertionOrder | main.py:180-194 | equal contributions (age 0.012, creatinine 0.012) keep insertion order, so age makes the top three: `diabetes_mellitus, albumin, age` |
| RiskModel.ExampleAdvice | main.py:197-215 | the example gets blood pressure, nephrology, glycemic and nutrition advice |
| RiskModel.ExampleScore | main.py:169-177 | the example scores 0.732, High Risk, reported 0.73 |
| RiskModel.WorkedExample | main.py:100-222 | the full response for the example request |
| RiskModel.BoundaryScore | main.py:117-169 | a 74-year-old with all three comorbidities and no readings scores 0.696 |
| RiskModel.RoundingCrossesCutPoint | main.py:169-219 | that patient is Moderate Risk yet reported as 0.70 |

## Left out

- HTTP layer: the FastAPI routes, CORS configuration, logging and the demo's in-memory prediction store with its timestamps. These are I/O; none of it affects the computed response.
- Request validation: pydantic's field checks (age 0–120, the gender literal, `extra="forbid"`) happen before the core runs. The model accepts any integer age, which is more general, so no `requires` restricts it.
- `RiskModel.RiskFromRequest`: the `age is not None` guard is not modelled, because the schema makes age a required integer.
- Reading timestamps: they are carried in `Schema.LabVitalsPoint` but never used by the core.
- Floating point: Python floats are modelled as exact reals, so the model captures none of the doubles' rounding error. This matters in three places:
  - Comparisons with the 0.70 and 0.40 cut points, and the other thresholds, are decided exactly.
  - Exact reals can create ties between contributions, or break them, where doubles would not. A tie changes which rows the stable sort puts first, and so the top features and the advice. Example: age 53, diabetes, one reading with creatinine 1.24 and albumin 3.0.
    - Over reals, age and creatinine both contribute 0.012. The model keeps insertion order and reports `diabetes_mellitus, albumin, age` (`RiskModel.TiedContributionsKeepInsertionOrder`).
    - In doubles, the creatinine contribution comes out slightly larger. The source then reports `creatinine` third and adds "Monitor creatinine levels".
  - Non-finite readings (NaN, infinities, which pydantic's `float` admits) are not representable. In the source, a NaN mean adds nothing, because every comparison with it is false and `max(0.0, nan)` yields 0.0.
- `Scoring.Round2`: Python's `round(x, 2)` on an IEEE double is modelled as round-half-to-even on the exact real value. The contract states the result is the nearest hundredth within 0.005. It does not reproduce the double's representation error at exact half-hundredths.
- `Ranking.SortDesc`: Python's in-place Timsort is modelled as a functional stable insertion sort. On the same key values, both stable sorts give the same list, which `Ranking.SortDescRanked` pins down. The key values themselves differ between exact reals and doubles; see the floating-point line. Neither the in-place update nor Timsort's run merging is captured.
- Contributions dict: the dict is modelled as an insertion-ordered list of `(feature, value)` rows. Each key is written at most once in the source, so key overwriting is not modelled.
