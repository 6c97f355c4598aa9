# Gift bundle selection, modelled in Dafny

The gift recommender answers one request with up to three catalog items. The
request holds a relationship, an occasion, an age group, a gender, a
profession, a "vibe" and a budget. It checks that every field is filled in. It
turns the fields into a sentence and lets a similarity search rank the catalog
against that sentence. It drops what the budget cannot pay for. It then fills
three slots greedily, in a fixed order:

- the **anchor**: the best-scoring hit priced at most 70% of the budget, or the
  best-scoring hit when none is that cheap;
- the **complement**: the best-scoring remaining hit that fits what is left of
  the budget;
- the **filler**: the best-scoring remaining hit that fits what is left and
  costs at most 20.

The answer carries the bundle, its cost truncated to a whole number, and a
sentence quoting the anchor's score as a percentage.

The model follows the request handler in `app.py`, file by file:

- `request.dfy`: the intent, Python's `all()` over the field values, and the query template.
- `candidates.dfy`: a ranked hit (id, price, score); the order-preserving filter; the budget filter; the sort by descending score.
- `selection.dfy`: the phase pools and the greedy rule `GreedyChoice`. The rule is stated on membership and scores only: each slot holds a best-scoring element of its pool, and a slot is empty exactly when its pool is. `AssembleBundle` is the step-by-step procedure: a running bundle, a running cost and a shrinking candidate list, proved against that rule.
- `selection_facts.dfy`: what the rule guarantees. It gives each slot's characterisation in terms of the hits themselves, the bundle's soundness (distinct ids, the slot ceilings, the total within budget), independence from the order of equal scores, and worked examples.
- `analysis.dfy`: `int()` as truncation toward zero, `str()` of an integer, and the confidence sentence.
- `recommend.dfy`: `Predict`, the whole handler from intent to response. The search is a parameter.

Decisions that shape the model:

- **Validation.** Validation is Python truthiness, so the code rejects only a budget of exactly 0. A negative budget passes validation, and this model follows the code (`Request.NegativeBudgetAccepted`). In practice such a request then ends with "Budget too low" unless some hit has a price at or below that negative budget.
- **Sort order.** The sort on score (app.py:149) is pandas' default `quicksort`, which is not guaranteed to be stable, so rows with equal scores may come out in any order. `AssembleBundle` therefore accepts any list sorted by descending score. `Predict` uses a stable insertion sort as one such order. Its guarantee is stated over the unsorted affordable hits, and `SelectionFacts.GreedyChoiceOrderFree` shows that the choice depends only on which hits are present.
- **Ids.** Items are removed by id, not by position. The bundle's ids are distinct whether or not the catalog's ids are unique, so unique ids are not a precondition.
- **Arithmetic.** Prices, the budget and scores are exact reals. The 70% ceiling is written `10 * price <= 7 * budget`.

## Model

| member | source | states |
|---|---|---|
| Request.All | app.py:122 | `all()` is true exactly when every listed value is truthy (non-empty string, non-zero float) |
| Request.Truthy | app.py:122 | how `all()` tests each value: a string is truthy when it is non-empty, a float when it is not zero |
| Request.IsCompleteIff | app.py:122-123 | a request passes validation exactly when all six strings are non-empty and the budget is not zero |
| Request.ZeroBudgetRejected | app.py:122-123 | a budget of 0 is answered "Missing fields" even when every string is filled in |
| Request.NegativeBudgetAccepted | app.py:122-123 | a negative budget with all strings filled in passes validation |
| Request.Fields | app.py:122 | the seven values handed to `all()`, in the code's order: the six strings, then the budget as a float |
| Request.IsComplete | app.py:122-123 | the request passes validation exactly when `all()` of those values holds; otherwise the answer is "Missing fields" |
| Request.Query | app.py:127 | the query f-string: "A ", the vibe, " gift for a ", the age group, a space, the gender, " who is a ", the profession, ". Relationship: ", the relationship, ". Occasion: ", the occasion and "." |
| Request.QueryLayout | app.py:127 | the query is 54 fixed characters plus the six fields; it starts with "A " and the vibe and ends with the occasion and a period |
| Candidates.Filter | app.py:141 | a boolean-mask selection has as members exactly the rows that satisfy the mask, and never more rows than it started with |
| Candidates.FilterMultiplicity | app.py:141 | a boolean-mask selection keeps every copy of a row that satisfies the mask and no copy of one that does not |
| Candidates.FilterIsSubsequence | app.py:141 | a boolean-mask selection keeps the surviving rows in their original relative order |
| Candidates.BudgetFilter | app.py:141-144 | the affordable hits are exactly those priced at most the budget; the list is empty exactly when every hit costs more than the budget |
| Candidates.BudgetFilterMultiplicity | app.py:141 | the budget filter keeps every copy of an affordable row and no copy of any other |
| Candidates.BudgetFilterKeepsOrder | app.py:141 | the budget filter keeps the ranked order of the hits it keeps |
| Candidates.BudgetFilterIdempotent | app.py:141 | filtering the affordable hits again with the same budget changes nothing |
| Candidates.SortedByScore | app.py:149 | the order `sort_values(by='score', ascending=False)` leaves: no row scores higher than a row before it |
| Candidates.Best | app.py:153 | what `iloc[0]` of a score-sorted pool gives: a member of the pool that no member outscores |
| Candidates.HeadIsBest | app.py:153 | the first row of a list sorted by descending score scores at least as high as every row of it |
| Candidates.FilterKeepsSorted | app.py:150 | every pool selected from the score-sorted list is itself score-sorted, so its first row is its best |
| Candidates.InsertByScore | app.py:149 | inserting into the sorted list adds exactly the new row (as a multiset) |
| Candidates.InsertKeepsSorted | app.py:149 | inserting a row before the first row that does not score higher keeps the list sorted by descending score |
| Candidates.SortByScore | app.py:149 | the sorted hits are sorted by descending score and a permutation of the input |
| Selection.AnchorEligible | app.py:150 | a row qualifies for the anchor pool when its price is at most 70% of the budget, written exactly as `10 * price <= 7 * budget` |
| Selection.AnchorPool | app.py:150-151 | the anchor pool is the qualifying rows in sorted order, or all rows when none qualifies |
| Selection.Without | app.py:158 | removing a used item leaves as members exactly the rows whose id differs from its id |
| Selection.FillerPool | app.py:170 | the filler pool has as members exactly the remaining rows priced within the remaining budget and at most 20 |
| Selection.Remaining | app.py:158-166 | the candidates left for the filler: the list without the anchor's id and, when a complement was placed, without its id |
| Selection.CostSoFar | app.py:155-165 | `current_cost` before the filler phase: the anchor's price plus the complement's price when there is one |
| Selection.Picks | app.py:162-163 | the guard `if not pool.empty: pool.iloc[0]` of the complement and filler phases (also app.py:171-172): the slot is empty exactly when its pool is, and otherwise holds a best-scoring row of the pool |
| Selection.GreedyChoice | app.py:150-172 | the rule the three phases follow: the anchor is a best-scoring row of the anchor pool; the complement is empty exactly when no other row fits what the anchor left, and is otherwise a best-scoring such row; the filler likewise over the remaining rows within the remaining budget and the ceiling of 20 |
| Selection.TotalPrice | app.py:155-174 | the sum of the bundle's prices, which is what the additions to `current_cost` accumulate |
| Selection.Slots | app.py:147-173 | the `bundle` list the appends build: the anchor, then the complement when there is one, then the filler when there is one |
| Selection.GreedyBundle | app.py:147-174 | a bundle of one to three rows whose entries, read as anchor, complement and filler, follow the greedy rule |
| Selection.First | app.py:153 | taking the first row of a non-empty sorted pool picks a best-scoring row of it; an empty pool yields no pick |
| Selection.ChooseAnchor | app.py:150-153 | the anchor scores highest in the pool of rows within 70% of the budget, or in all rows when that pool is empty |
| Selection.ChooseComplement | app.py:159-163 | the complement is present exactly when a row fits the remaining budget, and is then a best-scoring such row |
| Selection.ChooseFiller | app.py:169-172 | the filler is present exactly when a row fits the remaining budget and the ceiling of 20, and is then a best-scoring such row |
| Selection.AssembleBundle | app.py:147-174 | for any list sorted by descending score the procedure's anchor, complement and filler follow the greedy rule; the bundle lists them in slot order, absent slots omitted; the running cost is the sum of their prices |
| SelectionFacts.AnchorRule | app.py:150-153 | when some row costs at most 70% of the budget the anchor is such a row and outscores all of them; otherwise it outscores every row |
| SelectionFacts.ComplementRule | app.py:158-165 | the complement exists exactly when another row fits what the anchor left; it then has another id, fits, and outscores every row that fits |
| SelectionFacts.RemainingMembers | app.py:158-166 | after the removals the rows still in play are those whose id is neither the anchor's nor the complement's |
| SelectionFacts.FillerRule | app.py:169-174 | the filler exists exactly when an unplaced row fits the remaining budget and costs at most 20; it then is such a row and outscores all of them |
| SelectionFacts.NoFillerWithoutComplement | app.py:161-172 | a filler is found only when a complement was, since without a complement the filler pool lies inside the empty complement pool |
| SelectionFacts.SlotsShape | app.py:154-173 | the bundle has one to three items with the anchor first, then the complement, then the filler |
| SelectionFacts.SlotsTotal | app.py:155-174 | the bundle's total price is the running cost after the complement plus the filler's price |
| SelectionFacts.SlotsFacts | app.py:147-174 | from the per-slot facts: one to three items from the list, with pairwise different ids, whose prices sum to at most the budget |
| SelectionFacts.GreedyChoiceSound | app.py:147-174 | over affordable rows the bundle has 1 to 3 items with distinct ids and a total within budget; the anchor is affordable; the complement fits what the anchor left; the filler follows a complement, costs at most 20 and fits what remains |
| SelectionFacts.SlotsAreGreedyBundle | app.py:147-174 | the bundle built from greedy slots, read back slot by slot, is a greedy bundle that starts with the anchor |
| SelectionFacts.BundleIsSlots | app.py:154-173 | a bundle of one to three items is its own slots read back in order |
| SelectionFacts.GreedyBundleSound | app.py:147-180 | a greedy bundle over affordable rows has distinct ids, total price within budget, a complement within what the anchor left and a filler of at most 20 within what remains |
| SelectionFacts.PicksSameMembers | app.py:153 | whether a slot is a best pick of its pool depends only on the pool's members |
| SelectionFacts.AnchorPoolSameMembers | app.py:150-151 | lists with the same members have anchor pools with the same members |
| SelectionFacts.AnchorOrderFree | app.py:149-153 | the anchor rule gives the same verdict for any two lists with the same members |
| SelectionFacts.ComplementOrderFree | app.py:158-163 | the complement rule gives the same verdict for any two lists with the same members |
| SelectionFacts.FillerOrderFree | app.py:166-172 | the filler rule gives the same verdict for any two lists with the same members |
| SelectionFacts.GreedyChoiceOrderFree | app.py:149 | a greedy choice for one list is a greedy choice for every list with the same members, so the order of equal scores after the sort is immaterial |
| SelectionFacts.GreedyBundleOrderFree | app.py:149 | the same for whole bundles |
| SelectionFacts.AnchorExample | app.py:150-165 | budget 100, hits (id 1, price 100, score 0.9) and (id 2, price 50, score 0.8): the anchor is id 2 and nothing else fits |
| SelectionFacts.FillerExample | app.py:150-174 | budget 100: anchor at 30, complement at 10, and of the 25 and the 15 left only the 15 becomes the filler; total 55 |
| SelectionFacts.FillerExampleAnchor | app.py:150-153 | in that example the anchor is the item at 30 |
| SelectionFacts.FillerExampleComplement | app.py:158-163 | in that example the complement is the item at 10 |
| SelectionFacts.FillerExampleFiller | app.py:169-172 | in that example the filler is the item at 15, not the better-scoring one at 25 |
| SelectionFacts.SingleCandidateExample | app.py:150-174 | a single hit above 70% of the budget is still the anchor and the whole bundle, and the total is its price |
| SelectionFacts.SingleCandidateWitness | app.py:150-174 | that single hit alone, with no complement and no filler, meets the greedy rule |
| SelectionFacts.FillerExampleWitness | app.py:150-174 | in the filler example the items at 30, 10 and 15 meet the greedy rule, so the rule can be met there |
| SelectionFacts.FillerWitnessAnchor | app.py:150-153 | the item at 30 is a best pick of the example's anchor pool |
| SelectionFacts.FillerWitnessComplement | app.py:158-163 | the item at 10 is a best pick of the example's complement pool |
| SelectionFacts.FillerWitnessFiller | app.py:169-172 | the item at 15 is a best pick of the example's filler pool |
| Analysis.Truncate | app.py:180 | `int()` truncates toward zero: for non-negative values the result is the floor, for negative values the ceiling |
| Analysis.TruncateWhole | app.py:180 | a whole-number cost is reported unchanged |
| Analysis.DigitChar | app.py:181 | a digit value below 10 becomes the character of that digit |
| Analysis.Digits | app.py:181 | the decimal numeral of a natural number is a non-empty digit string without a leading zero; zero is written "0" |
| Analysis.DigitsRoundTrip | app.py:181 | reading the digits back gives the number |
| Analysis.DecimalRoundTrip | app.py:181 | the numeral `str()` writes for an integer, sign included, reads back as that integer |
| Analysis.Percent | app.py:181 | the percentage is `int(score * 100)`, within one of 100 times the score, truncated toward zero |
| Analysis.DecimalString | app.py:181 | `str()` of an integer: a minus sign for negative values, then the digits without leading zeros |
| Analysis.IntentAnalysis | app.py:181 | the confidence sentence: "Analysis: Optimized for '", the vibe, "' vibe with ", the whole percentage, "% confidence." |
| Analysis.IntentAnalysisNamesVibe | app.py:181 | the confidence sentence quotes the vibe right after its 25-character opening |
| Recommend.Response | app.py:122-182 | the handler's three answers: "Missing fields" (app.py:123), "Budget too low" (app.py:144), and success with the bundle, `total_cost` and `intent_analysis` (app.py:177-182) |
| Recommend.SameMembersAsSorted | app.py:149 | the sort loses and adds no hit |
| Recommend.Predict | app.py:122-181 | "Missing fields" exactly when validation fails; "Budget too low" exactly when validation passes and no hit fits the budget; otherwise a greedy bundle over the affordable hits, its cost truncated, and the sentence with the anchor's score |
| Recommend.TotalPriceNonNegative | app.py:174 | prices that are not negative sum to a total that is not negative |
| Recommend.RecommendationSound | app.py:141-181 | a recommendation holds one to three search hits, each within budget, with distinct ids and a total within budget; with non-negative prices the reported whole-number cost lies between 0 and the budget |

## Left out

- HTTP handling: routing, reading the JSON body, the JSON responses and their status codes (app.py:108-120, 177-186). `Response` stands for the two error answers and the success answer.
- The defaults and the `float()` parse of the budget (app.py:114-120). The model starts from an `Intent` whose budget is already a number.
- Loading the catalog and the embedding model (app.py:17-85). This is file and network I/O at start-up.
- The sentence encoder and the similarity search (app.py:128-138). These are foreign numeric library calls. They become the parameter `search`, which maps the query to the ranked hits with their id, price and score. Its ranking is not modelled. The other catalog columns are not modelled either: they ride along with each row unchanged.
- `convert_to_json_serializable` (app.py:94-106). It only changes numeric representations.
- The catch-all `except` and its "Internal Server Error" answer (app.py:184-186). Nothing in the modelled core raises.
- Floating-point arithmetic. Prices, the budget, `budget * 0.7`, the running cost and `score * 100` are exact reals. A float product that rounds across a whole number (in `int(score * 100)`) or across the 70% ceiling can differ from the model.
- NaN values, which Python treats as truthy. They have no counterpart in exact reals.
- Recommend.RecommendationSound: the bound `0 <= total_cost <= budget` on the integer cost is stated only for non-negative prices. With a negative total, truncation toward zero rounds up. The real-valued total is within budget unconditionally.
