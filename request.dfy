/**
 * The request side of the recommender: the structured intent, the
 * all-fields-present check and the natural-language query built from it.
 */
module Request {

  /** The seven intent fields read from the request body. */
  datatype Intent = Intent(
    relation: string,
    occasion: string,
    ageGroup: string,
    gender: string,
    profession: string,
    vibe: string,
    budget: real)

  // ---------------------------------------------------------------------------
  // Validation (app.py:122): Python's all() over the fields' truth values
  // ---------------------------------------------------------------------------

  /** A value handed to all(): one of the six strings or the float budget. */
  datatype PyValue = PyStr(s: string) | PyFloat(x: real)

  /** Python truthiness: a str is true when non-empty, a float when non-zero. */
  predicate Truthy(v: PyValue) {
    match v
    case PyStr(s) => s != []
    case PyFloat(x) => x != 0.0
  }

  /** Python's all(): true exactly when every element is truthy. */
  function All(vs: seq<PyValue>): (r: bool)
    ensures r <==> forall k :: 0 <= k < |vs| ==> Truthy(vs[k])
  {
    if vs == [] then true
    else
      assert forall k :: 0 < k < |vs| ==> vs[k] == vs[1..][k - 1];
      Truthy(vs[0]) && All(vs[1..])
  }

  /** The list that app.py passes to all(), in its order. */
  function Fields(i: Intent): seq<PyValue> {
    [PyStr(i.relation), PyStr(i.occasion), PyStr(i.ageGroup), PyStr(i.gender),
     PyStr(i.profession), PyStr(i.vibe), PyFloat(i.budget)]
  }

  /** The request passes validation; otherwise it is answered with "Missing fields". */
  predicate IsComplete(i: Intent) {
    All(Fields(i))
  }

  /** Validation passes exactly when no string field is empty and the budget is not zero. */
  lemma IsCompleteIff(i: Intent)
    ensures IsComplete(i) <==>
      i.relation != [] && i.occasion != [] && i.ageGroup != [] && i.gender != [] &&
      i.profession != [] && i.vibe != [] && i.budget != 0.0
  {
    var fs := Fields(i);
    assert Truthy(fs[0]) == (i.relation != []) && Truthy(fs[1]) == (i.occasion != []);
    assert Truthy(fs[2]) == (i.ageGroup != []) && Truthy(fs[3]) == (i.gender != []);
    assert Truthy(fs[4]) == (i.profession != []) && Truthy(fs[5]) == (i.vibe != []);
    assert Truthy(fs[6]) == (i.budget != 0.0);
  }

  /** A zero budget is rejected even with every string field filled in. */
  lemma ZeroBudgetRejected(i: Intent)
    requires i.budget == 0.0
    ensures !IsComplete(i)
  {
    assert !Truthy(Fields(i)[6]);
  }

  /** A negative budget is not rejected by validation: only zero is falsy. */
  lemma NegativeBudgetAccepted(i: Intent)
    requires i.relation != [] && i.occasion != [] && i.ageGroup != [] && i.gender != []
    requires i.profession != [] && i.vibe != [] && i.budget < 0.0
    ensures IsComplete(i)
  {
    IsCompleteIff(i);
  }

  // ---------------------------------------------------------------------------
  // Query string (app.py:127)
  // ---------------------------------------------------------------------------

  function Query(i: Intent): string {
    "A " + i.vibe + " gift for a " + i.ageGroup + " " + i.gender + " who is a " + i.profession +
    ". Relationship: " + i.relation + ". Occasion: " + i.occasion + "."
  }

  /** The number of characters the template adds around the six fields. */
  const TEMPLATE_LENGTH: nat := 54

  /**
   * The query is the template's 54 fixed characters plus the six fields; it
   * opens with "A " and the vibe, and closes with the occasion and a period.
   */
  lemma QueryLayout(i: Intent)
    ensures |Query(i)| == TEMPLATE_LENGTH + |i.vibe| + |i.ageGroup| + |i.gender| +
                          |i.profession| + |i.relation| + |i.occasion|
    ensures Query(i)[..2 + |i.vibe|] == "A " + i.vibe
    ensures Query(i)[|Query(i)| - 1] == '.'
    ensures Query(i)[|Query(i)| - 1 - |i.occasion|..|Query(i)| - 1] == i.occasion
  {
    var opening := "A " + i.vibe;
    var middle := " gift for a " + i.ageGroup + " " + i.gender + " who is a " + i.profession +
                  ". Relationship: " + i.relation + ". Occasion: ";
    var closing := i.occasion + ".";
    assert Query(i) == opening + middle + closing;
    assert (opening + middle + closing)[..|opening|] == opening;
    assert (opening + middle + closing)[|opening + middle|..] == closing;
  }
}
