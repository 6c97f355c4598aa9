/**
 * What the greedy rule guarantees: the bundle stays within the budget, never
 * repeats an id, respects each slot's price ceiling, picks each slot's best
 * candidate, and depends only on which candidates are present, not on their
 * order.
 */
module SelectionFacts {
  import opened Wrappers
  import opened Candidates
  import opened Selection

  lemma EmptyIffNoMember(s: seq<Candidate>)
    ensures s == [] <==> forall x :: x !in s
  {
    if s != [] {
      assert s[0] in s;
    }
  }

  // ---------------------------------------------------------------------------
  // Slot-by-slot characterisation, in terms of the candidates themselves
  // ---------------------------------------------------------------------------

  /** A candidate the complement phase may take: another id, within what the anchor left. */
  ghost predicate ComplementCandidate(budget: real, ranked: seq<Candidate>, anchor: Candidate, x: Candidate) {
    x in ranked && x.id != anchor.id && x.price <= budget - anchor.price
  }

  /** A candidate the filler phase may take: an id not yet placed, within the rest of the budget and the ceiling. */
  ghost predicate FillerCandidate(budget: real, ranked: seq<Candidate>, anchor: Candidate,
                                  complement: Option<Candidate>, x: Candidate)
  {
    && x in ranked && x.id != anchor.id
    && (complement.Some? ==> x.id != complement.value.id)
    && x.price <= budget - CostSoFar(anchor, complement)
    && x.price <= FILLER_CEILING
  }

  /**
   * The anchor: when some candidate is within 70% of the budget, it is one of
   * those and scores at least as high as each of them; otherwise it scores at
   * least as high as every candidate.
   */
  lemma AnchorRule(budget: real, ranked: seq<Candidate>, anchor: Candidate)
    requires Best(anchor, AnchorPool(budget, ranked))
    ensures anchor in ranked
    ensures (exists x :: x in ranked && AnchorEligible(budget, x)) ==>
              AnchorEligible(budget, anchor) &&
              forall x :: x in ranked && AnchorEligible(budget, x) ==> x.score <= anchor.score
    ensures (forall x :: x in ranked ==> !AnchorEligible(budget, x)) ==>
              forall x :: x in ranked ==> x.score <= anchor.score
  {
    var cheap := Filter(ranked, AnchorTest(budget));
    EmptyIffNoMember(cheap);
  }

  /**
   * The complement is present exactly when some other candidate fits what the
   * anchor left of the budget, and then it is such a candidate with the top score.
   */
  lemma ComplementRule(budget: real, ranked: seq<Candidate>, anchor: Candidate,
                       complement: Option<Candidate>, filler: Option<Candidate>)
    requires GreedyChoice(budget, ranked, anchor, complement, filler)
    ensures complement.Some? <==> exists x :: ComplementCandidate(budget, ranked, anchor, x)
    ensures complement.Some? ==>
              ComplementCandidate(budget, ranked, anchor, complement.value) &&
              forall x :: ComplementCandidate(budget, ranked, anchor, x) ==> x.score <= complement.value.score
  {
    var pool := BudgetFilter(Without(ranked, anchor.id), budget - anchor.price);
    EmptyIffNoMember(pool);
    assert forall x :: x in pool <==> ComplementCandidate(budget, ranked, anchor, x);
  }

  /** The candidates still in play before the filler phase, in element terms. */
  lemma RemainingMembers(ranked: seq<Candidate>, anchor: Candidate, complement: Option<Candidate>)
    ensures forall x :: x in Remaining(ranked, anchor, complement) <==>
      x in ranked && x.id != anchor.id && (complement.Some? ==> x.id != complement.value.id)
  {
  }

  /**
   * The filler is present exactly when some unplaced candidate fits both the
   * remaining budget and the ceiling of 20, and then it is such a candidate
   * with the top score.
   */
  lemma FillerRule(budget: real, ranked: seq<Candidate>, anchor: Candidate,
                   complement: Option<Candidate>, filler: Option<Candidate>)
    requires GreedyChoice(budget, ranked, anchor, complement, filler)
    ensures filler.Some? <==> exists x :: FillerCandidate(budget, ranked, anchor, complement, x)
    ensures filler.Some? ==>
              FillerCandidate(budget, ranked, anchor, complement, filler.value) &&
              forall x :: FillerCandidate(budget, ranked, anchor, complement, x) ==> x.score <= filler.value.score
  {
    var pool := FillerPool(Remaining(ranked, anchor, complement), budget - CostSoFar(anchor, complement));
    RemainingMembers(ranked, anchor, complement);
    EmptyIffNoMember(pool);
    assert forall x :: x in pool <==> FillerCandidate(budget, ranked, anchor, complement, x);
  }

  /** A filler is only ever found when a complement was: the filler pool lies inside the complement pool. */
  lemma NoFillerWithoutComplement(budget: real, ranked: seq<Candidate>, anchor: Candidate,
                                  complement: Option<Candidate>, filler: Option<Candidate>)
    requires GreedyChoice(budget, ranked, anchor, complement, filler)
    ensures complement.None? ==> filler.None?
  {
    ComplementRule(budget, ranked, anchor, complement, filler);
    FillerRule(budget, ranked, anchor, complement, filler);
    if complement.None? && filler.Some? {
      assert ComplementCandidate(budget, ranked, anchor, filler.value);
    }
  }

  // ---------------------------------------------------------------------------
  // The bundle as a whole
  // ---------------------------------------------------------------------------

  /** The bundle read back slot by slot, when a filler never comes without a complement. */
  lemma SlotsShape(anchor: Candidate, complement: Option<Candidate>, filler: Option<Candidate>)
    requires complement.None? ==> filler.None?
    ensures var b := Slots(anchor, complement, filler);
      1 <= |b| <= 3 && b[0] == anchor && SlotAt(b, 1) == complement && SlotAt(b, 2) == filler
  {
    var b := Slots(anchor, complement, filler);
    if complement.Some? && filler.Some? {
      assert b == [anchor, complement.value, filler.value];
    } else if complement.Some? {
      assert b == [anchor, complement.value];
    } else {
      assert b == [anchor];
    }
  }

  /** The bundle's total is the running cost plus the filler's price. */
  lemma SlotsTotal(anchor: Candidate, complement: Option<Candidate>, filler: Option<Candidate>)
    ensures TotalPrice(Slots(anchor, complement, filler)) ==
            CostSoFar(anchor, complement) + if filler.Some? then filler.value.price else 0.0
  {
    var placed := [anchor] + ToSeq(complement);
    AppendSlot([anchor], complement);
    AppendSlot(placed, filler);
    TotalPriceAppend([], anchor);
    assert [] + [anchor] == [anchor];
    if complement.Some? {
      TotalPriceAppend([anchor], complement.value);
    }
    assert TotalPrice(placed) == CostSoFar(anchor, complement);
    if filler.Some? {
      TotalPriceAppend(placed, filler.value);
    }
  }

  /** The bundle-level facts that follow from the facts about each slot. */
  lemma SlotsFacts(budget: real, ranked: seq<Candidate>, anchor: Candidate,
                   complement: Option<Candidate>, filler: Option<Candidate>)
    requires anchor in ranked && anchor.price <= budget
    requires complement.Some? ==> ComplementCandidate(budget, ranked, anchor, complement.value)
    requires filler.Some? ==> complement.Some? && FillerCandidate(budget, ranked, anchor, complement, filler.value)
    ensures var b := Slots(anchor, complement, filler);
      && 1 <= |b| <= 3
      && (forall k :: 0 <= k < |b| ==> b[k] in ranked)
      && DistinctIds(b)
      && TotalPrice(b) <= budget
  {
    SlotsTotal(anchor, complement, filler);
    var b := Slots(anchor, complement, filler);
    if complement.Some? && filler.Some? {
      assert b == [anchor, complement.value, filler.value];
    } else if complement.Some? {
      assert b == [anchor, complement.value];
    } else {
      assert b == [anchor];
    }
  }

  /**
   * On budget-filtered candidates the bundle holds one to three of them with
   * pairwise different ids, each slot within its ceiling, and its total price
   * within the budget.
   */
  lemma GreedyChoiceSound(budget: real, ranked: seq<Candidate>, anchor: Candidate,
                          complement: Option<Candidate>, filler: Option<Candidate>)
    requires forall x :: x in ranked ==> x.price <= budget
    requires GreedyChoice(budget, ranked, anchor, complement, filler)
    ensures var b := Slots(anchor, complement, filler);
      && 1 <= |b| <= 3
      && (forall k :: 0 <= k < |b| ==> b[k] in ranked)
      && DistinctIds(b)
      && TotalPrice(b) <= budget
    ensures anchor.price <= budget
    ensures complement.Some? ==> complement.value.price <= budget - anchor.price
    ensures filler.Some? ==> complement.Some? && filler.value.price <= FILLER_CEILING &&
                             filler.value.price <= budget - anchor.price - complement.value.price
  {
    AnchorRule(budget, ranked, anchor);
    ComplementRule(budget, ranked, anchor, complement, filler);
    FillerRule(budget, ranked, anchor, complement, filler);
    NoFillerWithoutComplement(budget, ranked, anchor, complement, filler);
    SlotsFacts(budget, ranked, anchor, complement, filler);
  }

  /** Reading a bundle slot by slot gives back the slots it was built from. */
  lemma SlotsAreGreedyBundle(budget: real, ranked: seq<Candidate>, anchor: Candidate,
                             complement: Option<Candidate>, filler: Option<Candidate>)
    requires GreedyChoice(budget, ranked, anchor, complement, filler)
    ensures GreedyBundle(budget, ranked, Slots(anchor, complement, filler))
    ensures Slots(anchor, complement, filler)[0] == anchor
  {
    NoFillerWithoutComplement(budget, ranked, anchor, complement, filler);
    SlotsShape(anchor, complement, filler);
  }

  lemma BundleIsSlots(bundle: seq<Candidate>)
    requires 1 <= |bundle| <= 3
    ensures bundle == Slots(bundle[0], SlotAt(bundle, 1), SlotAt(bundle, 2))
  {
    var b := Slots(bundle[0], SlotAt(bundle, 1), SlotAt(bundle, 2));
    if |bundle| == 3 {
      assert b == [bundle[0], bundle[1], bundle[2]];
    } else if |bundle| == 2 {
      assert b == [bundle[0], bundle[1]];
    } else {
      assert b == [bundle[0]];
    }
  }

  /** A greedy bundle over budget-filtered candidates: distinct ids, within budget, slot ceilings kept. */
  lemma GreedyBundleSound(budget: real, ranked: seq<Candidate>, bundle: seq<Candidate>)
    requires forall x :: x in ranked ==> x.price <= budget
    requires GreedyBundle(budget, ranked, bundle)
    ensures forall k :: 0 <= k < |bundle| ==> bundle[k] in ranked
    ensures DistinctIds(bundle)
    ensures TotalPrice(bundle) <= budget
    ensures |bundle| >= 2 ==> bundle[1].price <= budget - bundle[0].price
    ensures |bundle| == 3 ==> bundle[2].price <= FILLER_CEILING &&
                              bundle[2].price <= budget - bundle[0].price - bundle[1].price
  {
    BundleIsSlots(bundle);
    GreedyChoiceSound(budget, ranked, bundle[0], SlotAt(bundle, 1), SlotAt(bundle, 2));
  }

  // ---------------------------------------------------------------------------
  // Independence from the order of the candidate list
  // ---------------------------------------------------------------------------

  lemma PicksSameMembers(slot: Option<Candidate>, p: seq<Candidate>, q: seq<Candidate>)
    requires forall x :: x in p <==> x in q
    ensures Picks(slot, p) <==> Picks(slot, q)
  {
    EmptyIffNoMember(p);
    EmptyIffNoMember(q);
  }

  lemma AnchorPoolSameMembers(budget: real, s: seq<Candidate>, t: seq<Candidate>)
    requires forall x :: x in s <==> x in t
    ensures forall x :: x in AnchorPool(budget, s) <==> x in AnchorPool(budget, t)
  {
    EmptyIffNoMember(Filter(s, AnchorTest(budget)));
    EmptyIffNoMember(Filter(t, AnchorTest(budget)));
  }

  lemma AnchorOrderFree(budget: real, s: seq<Candidate>, t: seq<Candidate>, anchor: Candidate)
    requires forall x :: x in s <==> x in t
    ensures Best(anchor, AnchorPool(budget, s)) <==> Best(anchor, AnchorPool(budget, t))
  {
    AnchorPoolSameMembers(budget, s, t);
  }

  lemma ComplementOrderFree(budget: real, s: seq<Candidate>, t: seq<Candidate>, anchor: Candidate,
                            complement: Option<Candidate>)
    requires forall x :: x in s <==> x in t
    ensures Picks(complement, BudgetFilter(Without(s, anchor.id), budget - anchor.price)) <==>
            Picks(complement, BudgetFilter(Without(t, anchor.id), budget - anchor.price))
  {
    PicksSameMembers(complement, BudgetFilter(Without(s, anchor.id), budget - anchor.price),
                     BudgetFilter(Without(t, anchor.id), budget - anchor.price));
  }

  lemma FillerOrderFree(budget: real, s: seq<Candidate>, t: seq<Candidate>, anchor: Candidate,
                        complement: Option<Candidate>, filler: Option<Candidate>)
    requires forall x :: x in s <==> x in t
    ensures Picks(filler, FillerPool(Remaining(s, anchor, complement), budget - CostSoFar(anchor, complement))) <==>
            Picks(filler, FillerPool(Remaining(t, anchor, complement), budget - CostSoFar(anchor, complement)))
  {
    RemainingMembers(s, anchor, complement);
    RemainingMembers(t, anchor, complement);
    var rem := budget - CostSoFar(anchor, complement);
    PicksSameMembers(filler, FillerPool(Remaining(s, anchor, complement), rem),
                     FillerPool(Remaining(t, anchor, complement), rem));
  }

  /**
   * The greedy rule sees only which candidates are present: a choice that is
   * greedy for one list is greedy for every list with the same members (and,
   * by symmetry, conversely). The order the sort leaves among equal scores
   * therefore changes nothing that is promised.
   */
  lemma GreedyChoiceOrderFree(budget: real, s: seq<Candidate>, t: seq<Candidate>, anchor: Candidate,
                              complement: Option<Candidate>, filler: Option<Candidate>)
    requires forall x :: x in s <==> x in t
    requires GreedyChoice(budget, s, anchor, complement, filler)
    ensures GreedyChoice(budget, t, anchor, complement, filler)
  {
    AnchorOrderFree(budget, s, t, anchor);
    ComplementOrderFree(budget, s, t, anchor, complement);
    FillerOrderFree(budget, s, t, anchor, complement, filler);
  }

  lemma GreedyBundleOrderFree(budget: real, s: seq<Candidate>, t: seq<Candidate>, bundle: seq<Candidate>)
    requires forall x :: x in s <==> x in t
    requires GreedyBundle(budget, s, bundle)
    ensures GreedyBundle(budget, t, bundle)
  {
    GreedyChoiceOrderFree(budget, s, t, bundle[0], SlotAt(bundle, 1), SlotAt(bundle, 2));
  }

  // ---------------------------------------------------------------------------
  // Worked examples
  // ---------------------------------------------------------------------------

  /**
   * The 70% rule beats the score: with a budget of 100, an item at 100 scoring
   * 0.9 loses the anchor slot to one at 50 scoring 0.8, and nothing else fits.
   */
  lemma AnchorExample(ranked: seq<Candidate>, anchor: Candidate, complement: Option<Candidate>,
                      filler: Option<Candidate>)
    requires ranked == [Candidate(1, 100.0, 0.9), Candidate(2, 50.0, 0.8)]
    requires GreedyChoice(100.0, ranked, anchor, complement, filler)
    ensures anchor == Candidate(2, 50.0, 0.8)
    ensures complement == None && filler == None
  {
    assert AnchorEligible(100.0, ranked[1]);
    AnchorRule(100.0, ranked, anchor);
    ComplementRule(100.0, ranked, anchor, complement, filler);
    NoFillerWithoutComplement(100.0, ranked, anchor, complement, filler);
  }

  /** The four-item list of `FillerExample`. */
  function FillerExampleList(): seq<Candidate> {
    [Candidate(1, 30.0, 0.9), Candidate(2, 10.0, 0.85), Candidate(3, 25.0, 0.8), Candidate(4, 15.0, 0.7)]
  }

  /**
   * The filler's ceiling: after an anchor at 30 and a complement at 10 the
   * remaining 60 would admit an item at 25, but only the one at 15 is cheap
   * enough to be the filler.
   */
  lemma FillerExample(ranked: seq<Candidate>, anchor: Candidate, complement: Option<Candidate>,
                      filler: Option<Candidate>)
    requires ranked == FillerExampleList()
    requires GreedyChoice(100.0, ranked, anchor, complement, filler)
    ensures anchor == Candidate(1, 30.0, 0.9)
    ensures complement == Some(Candidate(2, 10.0, 0.85))
    ensures filler == Some(Candidate(4, 15.0, 0.7))
    ensures TotalPrice(Slots(anchor, complement, filler)) == 55.0
  {
    FillerExampleAnchor(ranked, anchor);
    FillerExampleComplement(ranked, anchor, complement, filler);
    FillerExampleFiller(ranked, anchor, complement, filler);
    SlotsTotal(anchor, complement, filler);
  }

  lemma FillerExampleAnchor(ranked: seq<Candidate>, anchor: Candidate)
    requires ranked == FillerExampleList()
    requires Best(anchor, AnchorPool(100.0, ranked))
    ensures anchor == Candidate(1, 30.0, 0.9)
  {
    assert AnchorEligible(100.0, ranked[0]);
    AnchorRule(100.0, ranked, anchor);
  }

  lemma FillerExampleComplement(ranked: seq<Candidate>, anchor: Candidate, complement: Option<Candidate>,
                                filler: Option<Candidate>)
    requires ranked == FillerExampleList() && anchor == ranked[0]
    requires GreedyChoice(100.0, ranked, anchor, complement, filler)
    ensures complement == Some(Candidate(2, 10.0, 0.85))
  {
    assert ComplementCandidate(100.0, ranked, anchor, ranked[1]);
    ComplementRule(100.0, ranked, anchor, complement, filler);
  }

  lemma FillerExampleFiller(ranked: seq<Candidate>, anchor: Candidate, complement: Option<Candidate>,
                            filler: Option<Candidate>)
    requires ranked == FillerExampleList() && anchor == ranked[0] && complement == Some(ranked[1])
    requires GreedyChoice(100.0, ranked, anchor, complement, filler)
    ensures filler == Some(Candidate(4, 15.0, 0.7))
  {
    assert FillerCandidate(100.0, ranked, anchor, complement, ranked[3]);
    FillerRule(100.0, ranked, anchor, complement, filler);
  }

  /** A single candidate, even one above 70% of the budget, is the whole bundle. */
  lemma SingleCandidateExample(ranked: seq<Candidate>, anchor: Candidate, complement: Option<Candidate>,
                               filler: Option<Candidate>)
    requires ranked == [Candidate(7, 80.0, 0.5)]
    requires GreedyChoice(100.0, ranked, anchor, complement, filler)
    ensures Slots(anchor, complement, filler) == [Candidate(7, 80.0, 0.5)]
    ensures TotalPrice(Slots(anchor, complement, filler)) == 80.0
  {
    AnchorRule(100.0, ranked, anchor);
    ComplementRule(100.0, ranked, anchor, complement, filler);
    NoFillerWithoutComplement(100.0, ranked, anchor, complement, filler);
    SlotsTotal(anchor, complement, filler);
    assert Slots(anchor, complement, filler) == [anchor] + [] + [];
  }

  /** The greedy rule can be met: the single hit alone is a greedy choice. */
  lemma SingleCandidateWitness(ranked: seq<Candidate>)
    requires ranked == [Candidate(7, 80.0, 0.5)]
    ensures GreedyChoice(100.0, ranked, Candidate(7, 80.0, 0.5), None, None)
  {
    var x := Candidate(7, 80.0, 0.5);
    EmptyIffNoMember(Filter(ranked, AnchorTest(100.0)));
    EmptyIffNoMember(Without(ranked, x.id));
    EmptyIffNoMember(BudgetFilter(Without(ranked, x.id), 100.0 - x.price));
    EmptyIffNoMember(FillerPool(Remaining(ranked, x, None), 100.0 - CostSoFar(x, None)));
  }

  /** The choice `FillerExample` pins down is indeed greedy. */
  lemma FillerExampleWitness(ranked: seq<Candidate>)
    requires ranked == FillerExampleList()
    ensures GreedyChoice(100.0, ranked, ranked[0], Some(ranked[1]), Some(ranked[3]))
  {
    FillerWitnessAnchor(ranked);
    FillerWitnessComplement(ranked);
    FillerWitnessFiller(ranked);
  }

  lemma FillerWitnessAnchor(ranked: seq<Candidate>)
    requires ranked == FillerExampleList()
    ensures Best(ranked[0], AnchorPool(100.0, ranked))
  {
    assert AnchorEligible(100.0, ranked[0]);
    EmptyIffNoMember(Filter(ranked, AnchorTest(100.0)));
  }

  lemma FillerWitnessComplement(ranked: seq<Candidate>)
    requires ranked == FillerExampleList()
    ensures Picks(Some(ranked[1]), BudgetFilter(Without(ranked, ranked[0].id), 100.0 - ranked[0].price))
  {
    var compPool := BudgetFilter(Without(ranked, ranked[0].id), 100.0 - ranked[0].price);
    assert ranked[1] in compPool;
  }

  lemma FillerWitnessFiller(ranked: seq<Candidate>)
    requires ranked == FillerExampleList()
    ensures Picks(Some(ranked[3]), FillerPool(Remaining(ranked, ranked[0], Some(ranked[1])),
                                              100.0 - CostSoFar(ranked[0], Some(ranked[1]))))
  {
    RemainingMembers(ranked, ranked[0], Some(ranked[1]));
    var fillPool := FillerPool(Remaining(ranked, ranked[0], Some(ranked[1])),
                               100.0 - CostSoFar(ranked[0], Some(ranked[1])));
    assert ranked[3] in fillPool;
  }
}
