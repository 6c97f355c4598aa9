/**
 * Ranked candidates: the rows that the similarity search returns (an item's
 * catalog id, its price and its similarity score), the order-preserving
 * filters applied to them, and the sort by descending score.
 */
module Candidates {

  /** One row of the search result. The other catalog columns ride along unchanged. */
  datatype Candidate = Candidate(id: int, price: real, score: real)

  /** The elements of `s` that satisfy `p`, in the order of `s`. */
  function Filter<T(!new)>(s: seq<T>, p: T -> bool): (r: seq<T>)
    ensures |r| <= |s|
    ensures forall x :: x in r <==> x in s && p(x)
  {
    if s == [] then []
    else if p(s[0]) then [s[0]] + Filter(s[1..], p)
    else Filter(s[1..], p)
  }

  /** `r` is obtained from `s` by deleting elements: the relative order is kept. */
  ghost predicate IsSubsequence<T>(r: seq<T>, s: seq<T>)
    decreases |s|
  {
    r == [] ||
    (s != [] && ((r[0] == s[0] && IsSubsequence(r[1..], s[1..])) || IsSubsequence(r, s[1..])))
  }

  lemma {:induction false} FilterIsSubsequence<T(!new)>(s: seq<T>, p: T -> bool)
    ensures IsSubsequence(Filter(s, p), s)
    decreases |s|
  {
    if s != [] {
      FilterIsSubsequence(s[1..], p);
      if p(s[0]) {
        var r := Filter(s, p);
        assert r[0] == s[0] && r[1..] == Filter(s[1..], p);
      }
    }
  }

  /** Each value occurs in the result as often as in `s` when it passes the test, and not at all otherwise. */
  lemma {:induction false} FilterMultiplicity<T(!new)>(s: seq<T>, p: T -> bool)
    ensures forall x :: multiset(Filter(s, p))[x] == if p(x) then multiset(s)[x] else 0
    decreases |s|
  {
    if s != [] {
      FilterMultiplicity(s[1..], p);
      assert s == [s[0]] + s[1..];
      assert multiset(s) == multiset{s[0]} + multiset(s[1..]);
      if p(s[0]) {
        assert Filter(s, p) == [s[0]] + Filter(s[1..], p);
        assert multiset(Filter(s, p)) == multiset{s[0]} + multiset(Filter(s[1..], p));
      }
    }
  }

  lemma {:induction false} SubsequenceMembers<T(!new)>(r: seq<T>, s: seq<T>)
    requires IsSubsequence(r, s)
    ensures forall x :: x in r ==> x in s
    decreases |s|
  {
    if r != [] {
      if r[0] == s[0] && IsSubsequence(r[1..], s[1..]) {
        SubsequenceMembers(r[1..], s[1..]);
        assert forall x :: x in r ==> x == r[0] || x in r[1..];
      } else {
        SubsequenceMembers(r, s[1..]);
      }
    }
  }

  // ---------------------------------------------------------------------------
  // Budget filter (app.py:141)
  // ---------------------------------------------------------------------------

  /** The test `price <= limit`, as a value that `Filter` can take. */
  function PriceAtMost(limit: real): Candidate -> bool {
    (c: Candidate) => c.price <= limit
  }

  /** The candidates priced at or below `budget`, in ranked order. */
  function BudgetFilter(s: seq<Candidate>, budget: real): (r: seq<Candidate>)
    ensures forall c :: c in r <==> c in s && c.price <= budget
    ensures r == [] <==> forall c :: c in s ==> budget < c.price
  {
    var r := Filter(s, PriceAtMost(budget));
    assert r != [] ==> r[0] in r;
    r
  }

  /** The budget filter keeps the survivors in their original relative order. */
  lemma BudgetFilterKeepsOrder(s: seq<Candidate>, budget: real)
    ensures IsSubsequence(BudgetFilter(s, budget), s)
  {
    FilterIsSubsequence(s, PriceAtMost(budget));
  }

  /** The budget filter drops no copy of an affordable row and keeps no copy of another. */
  lemma BudgetFilterMultiplicity(s: seq<Candidate>, budget: real)
    ensures forall c :: multiset(BudgetFilter(s, budget))[c] == if c.price <= budget then multiset(s)[c] else 0
  {
    FilterMultiplicity(s, PriceAtMost(budget));
  }

  /** Filtering an already filtered list with the same budget changes nothing. */
  lemma {:induction false} BudgetFilterIdempotent(s: seq<Candidate>, budget: real)
    ensures BudgetFilter(BudgetFilter(s, budget), budget) == BudgetFilter(s, budget)
    decreases |s|
  {
    if s != [] {
      BudgetFilterIdempotent(s[1..], budget);
      if s[0].price <= budget {
        var r := BudgetFilter(s, budget);
        assert r[0] == s[0] && r[1..] == BudgetFilter(s[1..], budget);
      }
    }
  }

  // ---------------------------------------------------------------------------
  // Scores: descending order and the best element of a pool
  // ---------------------------------------------------------------------------

  ghost predicate SortedByScore(s: seq<Candidate>) {
    forall i, j :: 0 <= i < j < |s| ==> s[j].score <= s[i].score
  }

  /** `c` belongs to `pool` and no element of `pool` scores higher. */
  ghost predicate Best(c: Candidate, pool: seq<Candidate>) {
    c in pool && forall d :: d in pool ==> d.score <= c.score
  }

  lemma HeadIsBest(s: seq<Candidate>)
    requires s != [] && SortedByScore(s)
    ensures Best(s[0], s)
  {
    forall d | d in s ensures d.score <= s[0].score {
      var k :| 0 <= k < |s| && s[k] == d;
      if k > 0 {
        assert s[k].score <= s[0].score;
      }
    }
  }

  lemma TailSorted(s: seq<Candidate>)
    requires s != [] && SortedByScore(s)
    ensures SortedByScore(s[1..])
  {
    forall i, j | 0 <= i < j < |s[1..]| ensures s[1..][j].score <= s[1..][i].score {
      assert s[1..][i] == s[i + 1] && s[1..][j] == s[j + 1];
    }
  }

  lemma {:induction false} SubsequenceKeepsSorted(r: seq<Candidate>, s: seq<Candidate>)
    requires IsSubsequence(r, s) && SortedByScore(s)
    ensures SortedByScore(r)
    decreases |s|
  {
    if r != [] {
      TailSorted(s);
      if r[0] == s[0] && IsSubsequence(r[1..], s[1..]) {
        SubsequenceKeepsSorted(r[1..], s[1..]);
        SubsequenceMembers(r[1..], s[1..]);
        HeadIsBest(s);
        forall i, j | 0 <= i < j < |r| ensures r[j].score <= r[i].score {
          if i == 0 {
            assert r[j] == r[1..][j - 1];
            assert r[j] in s[1..];
          } else {
            assert r[i] == r[1..][i - 1] && r[j] == r[1..][j - 1];
          }
        }
      } else {
        SubsequenceKeepsSorted(r, s[1..]);
      }
    }
  }

  /** Any order-preserving filter of a score-sorted list is score-sorted. */
  lemma FilterKeepsSorted(s: seq<Candidate>, p: Candidate -> bool)
    requires SortedByScore(s)
    ensures SortedByScore(Filter(s, p))
  {
    FilterIsSubsequence(s, p);
    SubsequenceKeepsSorted(Filter(s, p), s);
  }

  // ---------------------------------------------------------------------------
  // The re-sort by descending score (app.py:149)
  // ---------------------------------------------------------------------------

  /** Places `c` in front of the first element that does not score higher. */
  function InsertByScore(c: Candidate, s: seq<Candidate>): (r: seq<Candidate>)
    ensures multiset(r) == multiset(s) + multiset{c}
  {
    if s == [] || s[0].score <= c.score then [c] + s
    else
      assert s == [s[0]] + s[1..];
      [s[0]] + InsertByScore(c, s[1..])
  }

  lemma {:induction false} InsertKeepsSorted(c: Candidate, s: seq<Candidate>)
    requires SortedByScore(s)
    ensures SortedByScore(InsertByScore(c, s))
    decreases |s|
  {
    var r := InsertByScore(c, s);
    if s == [] || s[0].score <= c.score {
      if s != [] {
        HeadIsBest(s);
      }
      forall i, j | 0 <= i < j < |r| ensures r[j].score <= r[i].score {
        if i == 0 {
          assert r[j] == s[j - 1] && r[j] in s;
        } else {
          assert r[i] == s[i - 1] && r[j] == s[j - 1];
        }
      }
    } else {
      var t := InsertByScore(c, s[1..]);
      TailSorted(s);
      InsertKeepsSorted(c, s[1..]);
      HeadIsBest(s);
      assert r == [s[0]] + t;
      forall i, j | 0 <= i < j < |r| ensures r[j].score <= r[i].score {
        if i == 0 {
          assert r[j] == t[j - 1] && r[j] in multiset(t);
        } else {
          assert r[i] == t[i - 1] && r[j] == t[j - 1];
        }
      }
    }
  }

  /** Sort by descending score; ties keep their input order. */
  function SortByScore(s: seq<Candidate>): (r: seq<Candidate>)
    ensures SortedByScore(r)
    ensures multiset(r) == multiset(s)
  {
    if s == [] then []
    else
      assert s == [s[0]] + s[1..];
      var t := SortByScore(s[1..]);
      InsertKeepsSorted(s[0], t);
      InsertByScore(s[0], t)
  }
}
