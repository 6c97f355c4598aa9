/**
 * The request handler (app.py:122-181): validate the intent, search with the
 * query built from it, keep what fits the budget, sort by score, assemble the
 * bundle and report it with its truncated cost and the confidence sentence.
 *
 * The similarity search is a parameter: `search` maps the query to the ranked
 * hits, each carrying its catalog id, price and similarity score.
 */
module Recommend {
  import opened Candidates
  import opened Request
  import opened Analysis
  import opened Selection
  import opened SelectionFacts

  /** The two error answers of the selection core, both with status 400. */
  datatype Failure = MissingFields | BudgetTooLow

  datatype Response =
    | Recommended(bundle: seq<Candidate>, totalCost: int, intentAnalysis: string)
    | Rejected(failure: Failure)

  lemma SameMembersAsSorted(s: seq<Candidate>)
    ensures forall x :: x in SortByScore(s) <==> x in s
  {
    var r := SortByScore(s);
    assert forall x :: x in r <==> x in multiset(r);
    assert forall x :: x in s <==> x in multiset(s);
  }

  /**
   * One request. A request failing validation is answered "Missing fields";
   * one whose hits all exceed the budget "Budget too low"; any other gets the
   * bundle the greedy rule picks from the affordable hits, whatever order the
   * sort leaves among equal scores.
   */
  method Predict(intent: Intent, search: string -> seq<Candidate>) returns (resp: Response)
    ensures !IsComplete(intent) <==> resp == Rejected(MissingFields)
    ensures IsComplete(intent) && BudgetFilter(search(Query(intent)), intent.budget) == [] <==>
            resp == Rejected(BudgetTooLow)
    ensures resp.Recommended? ==>
              var affordable := BudgetFilter(search(Query(intent)), intent.budget);
              && GreedyBundle(intent.budget, affordable, resp.bundle)
              && resp.totalCost == Truncate(TotalPrice(resp.bundle))
              && resp.intentAnalysis == IntentAnalysis(intent.vibe, resp.bundle[0].score)
  {
    if !IsComplete(intent) {
      return Rejected(MissingFields);
    }
    var userQuery := Query(intent);
    var hits := search(userQuery);
    var candidates := BudgetFilter(hits, intent.budget);
    if candidates == [] {
      return Rejected(BudgetTooLow);
    }
    var ranked := SortByScore(candidates);
    SameMembersAsSorted(candidates);
    assert candidates[0] in ranked;
    var anchor, complement, filler, bundle, currentCost := AssembleBundle(intent.budget, ranked);
    GreedyChoiceOrderFree(intent.budget, ranked, candidates, anchor, complement, filler);
    SlotsAreGreedyBundle(intent.budget, candidates, anchor, complement, filler);
    resp := Recommended(bundle, Truncate(currentCost), IntentAnalysis(intent.vibe, anchor.score));
  }

  lemma {:induction false} TotalPriceNonNegative(s: seq<Candidate>)
    requires forall k :: 0 <= k < |s| ==> 0.0 <= s[k].price
    ensures 0.0 <= TotalPrice(s)
  {
    if s != [] {
      assert forall k :: 0 <= k < |s[1..]| ==> s[1..][k] == s[k + 1];
      TotalPriceNonNegative(s[1..]);
    }
  }

  /**
   * What a recommendation promises: one to three of the search hits, each
   * within the budget, with pairwise different ids, together within the
   * budget; with prices that are not negative the reported whole-number cost
   * lies between zero and the budget.
   */
  lemma RecommendationSound(budget: real, hits: seq<Candidate>, bundle: seq<Candidate>)
    requires GreedyBundle(budget, BudgetFilter(hits, budget), bundle)
    ensures 1 <= |bundle| <= 3
    ensures forall k :: 0 <= k < |bundle| ==> bundle[k] in hits && bundle[k].price <= budget
    ensures DistinctIds(bundle)
    ensures TotalPrice(bundle) <= budget
    ensures (forall k :: 0 <= k < |bundle| ==> 0.0 <= bundle[k].price) ==>
              0 <= Truncate(TotalPrice(bundle)) && Truncate(TotalPrice(bundle)) as real <= budget
  {
    var affordable := BudgetFilter(hits, budget);
    GreedyBundleSound(budget, affordable, bundle);
    if forall k :: 0 <= k < |bundle| ==> 0.0 <= bundle[k].price {
      TotalPriceNonNegative(bundle);
    }
  }
}
