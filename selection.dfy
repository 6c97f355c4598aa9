/**
 * The bundle selector (app.py:147-174): anchor, then complement, then filler,
 * each the best-scoring candidate of its phase's pool, over a candidate list
 * that shrinks as items are placed.
 *
 * `GreedyChoice` states the rule without reference to list order: each picked
 * item is `Best` (highest score) in its pool, and a slot is empty exactly when
 * its pool is. `AssembleBundle` is the step-by-step procedure proved against it.
 */
module Selection {
  import opened Wrappers
  import opened Candidates

  /** The fixed price ceiling of the filler slot, independent of the budget. */
  const FILLER_CEILING: real := 20.0

  // ---------------------------------------------------------------------------
  // The phase pools
  // ---------------------------------------------------------------------------

  /** Priced at or below 70% of the budget (`price <= budget * 0.7`, in exact arithmetic). */
  predicate AnchorEligible(budget: real, c: Candidate) {
    10.0 * c.price <= 7.0 * budget
  }

  function AnchorTest(budget: real): Candidate -> bool {
    (c: Candidate) => AnchorEligible(budget, c)
  }

  /** The anchor pool: the cheap-enough candidates, or all of them when none is. */
  function AnchorPool(budget: real, ranked: seq<Candidate>): seq<Candidate> {
    var cheap := Filter(ranked, AnchorTest(budget));
    if cheap == [] then ranked else cheap
  }

  function IdOtherThan(id: int): Candidate -> bool {
    (c: Candidate) => c.id != id
  }

  /** Removes every row carrying `id`. */
  function Without(s: seq<Candidate>, id: int): (r: seq<Candidate>)
    ensures forall c :: c in r <==> c in s && c.id != id
  {
    Filter(s, IdOtherThan(id))
  }

  function FillerTest(remaining: real): Candidate -> bool {
    (c: Candidate) => c.price <= remaining && c.price <= FILLER_CEILING
  }

  /** The filler pool: fits the remaining budget and costs at most the filler ceiling. */
  function FillerPool(s: seq<Candidate>, remaining: real): (r: seq<Candidate>)
    ensures forall c :: c in r <==> c in s && c.price <= remaining && c.price <= FILLER_CEILING
  {
    Filter(s, FillerTest(remaining))
  }

  // ---------------------------------------------------------------------------
  // The greedy rule
  // ---------------------------------------------------------------------------

  /** An optional slot is empty exactly when its pool is, and otherwise holds a best element. */
  ghost predicate Picks(slot: Option<Candidate>, pool: seq<Candidate>) {
    if pool == [] then slot == None else slot.Some? && Best(slot.value, pool)
  }

  /** The candidates still in play after the anchor and the complement (if any) are removed. */
  function Remaining(ranked: seq<Candidate>, anchor: Candidate, complement: Option<Candidate>): seq<Candidate> {
    var afterAnchor := Without(ranked, anchor.id);
    if complement.Some? then Without(afterAnchor, complement.value.id) else afterAnchor
  }

  /** The running cost once the anchor and the complement (if any) are placed. */
  function CostSoFar(anchor: Candidate, complement: Option<Candidate>): real {
    anchor.price + if complement.Some? then complement.value.price else 0.0
  }

  /** The three phases' choices, in terms of pools and scores only. */
  ghost predicate GreedyChoice(budget: real, ranked: seq<Candidate>, anchor: Candidate,
                               complement: Option<Candidate>, filler: Option<Candidate>)
  {
    && Best(anchor, AnchorPool(budget, ranked))
    && Picks(complement, BudgetFilter(Without(ranked, anchor.id), budget - anchor.price))
    && Picks(filler,
             FillerPool(Remaining(ranked, anchor, complement), budget - CostSoFar(anchor, complement)))
  }

  /** The bundle in slot order, absent slots omitted. */
  function Slots(anchor: Candidate, complement: Option<Candidate>, filler: Option<Candidate>): seq<Candidate> {
    [anchor] + ToSeq(complement) + ToSeq(filler)
  }

  function TotalPrice(s: seq<Candidate>): real {
    if s == [] then 0.0 else s[0].price + TotalPrice(s[1..])
  }

  ghost predicate DistinctIds(s: seq<Candidate>) {
    forall i, j :: 0 <= i < j < |s| ==> s[i].id != s[j].id
  }

  function SlotAt(s: seq<Candidate>, k: nat): Option<Candidate> {
    if k < |s| then Some(s[k]) else None
  }

  /** `bundle` is what the greedy rule produces, read slot by slot. */
  ghost predicate GreedyBundle(budget: real, ranked: seq<Candidate>, bundle: seq<Candidate>) {
    1 <= |bundle| <= 3 && GreedyChoice(budget, ranked, bundle[0], SlotAt(bundle, 1), SlotAt(bundle, 2))
  }

  // ---------------------------------------------------------------------------
  // The procedure
  // ---------------------------------------------------------------------------

  lemma TotalPriceAppend(s: seq<Candidate>, c: Candidate)
    ensures TotalPrice(s + [c]) == TotalPrice(s) + c.price
  {
    if s != [] {
      assert (s + [c])[1..] == s[1..] + [c];
      TotalPriceAppend(s[1..], c);
    }
  }

  /** `pool.iloc[0]`, guarded by `pool.empty`, on a pool sorted by descending score. */
  method First(pool: seq<Candidate>) returns (slot: Option<Candidate>)
    requires SortedByScore(pool)
    ensures Picks(slot, pool)
    ensures slot.Some? ==> slot.value == pool[0]
  {
    if pool == [] {
      slot := None;
    } else {
      HeadIsBest(pool);
      slot := Some(pool[0]);
    }
  }

  /** Phase A (app.py:150-153): the best candidate within 70% of the budget, else the best overall. */
  method ChooseAnchor(budget: real, candidates: seq<Candidate>) returns (anchor: Candidate)
    requires candidates != []
    requires SortedByScore(candidates)
    ensures Best(anchor, AnchorPool(budget, candidates))
  {
    var anchorPool := Filter(candidates, AnchorTest(budget));
    if anchorPool == [] {
      anchorPool := candidates;
    } else {
      FilterKeepsSorted(candidates, AnchorTest(budget));
    }
    HeadIsBest(anchorPool);
    anchor := anchorPool[0];
  }

  /** Phase B (app.py:159-163): the best remaining candidate that fits the remaining budget. */
  method ChooseComplement(budget: real, currentCost: real, candidates: seq<Candidate>)
    returns (comp: Option<Candidate>)
    requires SortedByScore(candidates)
    ensures Picks(comp, BudgetFilter(candidates, budget - currentCost))
  {
    var remBudget := budget - currentCost;
    var compPool := BudgetFilter(candidates, remBudget);
    FilterKeepsSorted(candidates, PriceAtMost(remBudget));
    comp := First(compPool);
  }

  /** Phase C (app.py:169-172): the best remaining candidate that fits and costs at most 20. */
  method ChooseFiller(budget: real, currentCost: real, candidates: seq<Candidate>)
    returns (fill: Option<Candidate>)
    requires SortedByScore(candidates)
    ensures Picks(fill, FillerPool(candidates, budget - currentCost))
  {
    var remBudget := budget - currentCost;
    var fillPool := FillerPool(candidates, remBudget);
    FilterKeepsSorted(candidates, FillerTest(remBudget));
    fill := First(fillPool);
  }

  lemma AppendSlot(s: seq<Candidate>, slot: Option<Candidate>)
    ensures s + ToSeq(slot) == if slot.Some? then s + [slot.value] else s
  {
    if slot.None? {
      assert s + [] == s;
    }
  }

  /** Glues the three phases' guarantees into the greedy rule. */
  lemma GreedyChoiceIntro(budget: real, ranked: seq<Candidate>, anchor: Candidate,
                          complement: Option<Candidate>, filler: Option<Candidate>,
                          afterAnchorCost: real, rest: seq<Candidate>, cost: real)
    requires Best(anchor, AnchorPool(budget, ranked))
    requires afterAnchorCost == anchor.price
    requires Picks(complement, BudgetFilter(Without(ranked, anchor.id), budget - afterAnchorCost))
    requires rest == Remaining(ranked, anchor, complement) && cost == CostSoFar(anchor, complement)
    requires Picks(filler, FillerPool(rest, budget - cost))
    ensures GreedyChoice(budget, ranked, anchor, complement, filler)
  {
  }

  /**
   * Anchor, complement and filler over `ranked`, the budget-filtered
   * candidates after the sort by descending score. Any descending order will
   * do: the order the sort leaves among equal scores is not fixed.
   */
  method AssembleBundle(budget: real, ranked: seq<Candidate>)
    returns (anchor: Candidate, complement: Option<Candidate>, filler: Option<Candidate>,
             bundle: seq<Candidate>, currentCost: real)
    requires ranked != []
    requires SortedByScore(ranked)
    ensures GreedyChoice(budget, ranked, anchor, complement, filler)
    ensures bundle == Slots(anchor, complement, filler)
    ensures currentCost == TotalPrice(bundle)
  {
    bundle := [];
    currentCost := 0.0;
    var candidates := ranked;

    // A. Anchor
    anchor := ChooseAnchor(budget, candidates);
    TotalPriceAppend(bundle, anchor);
    bundle := bundle + [anchor];
    currentCost := currentCost + anchor.price;
    ghost var afterAnchorCost := currentCost;
    assert bundle == [anchor];

    // B. Complement
    FilterKeepsSorted(candidates, IdOtherThan(anchor.id));
    candidates := Without(candidates, anchor.id);
    complement := ChooseComplement(budget, currentCost, candidates);
    if complement.Some? {
      var comp := complement.value;
      TotalPriceAppend(bundle, comp);
      bundle := bundle + [comp];
      currentCost := currentCost + comp.price;
      FilterKeepsSorted(candidates, IdOtherThan(comp.id));
      candidates := Without(candidates, comp.id);
    }
    AppendSlot([anchor], complement);
    ghost var afterComplement := bundle;

    // C. Filler
    filler := ChooseFiller(budget, currentCost, candidates);
    GreedyChoiceIntro(budget, ranked, anchor, complement, filler,
                      afterAnchorCost, candidates, currentCost);
    if filler.Some? {
      TotalPriceAppend(bundle, filler.value);
      bundle := bundle + [filler.value];
      currentCost := currentCost + filler.value.price;
    }
    AppendSlot(afterComplement, filler);
  }
}
