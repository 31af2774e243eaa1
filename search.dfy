// Searching a list of candidates in order, skipping repeats, until one
// is listed: the distinct elements of a list and the outcome of the search.

module Search {
  import opened Options

  /** Distinct elements of a sequence. */
  predicate Distinct<T(==)>(xs: seq<T>)
  {
    forall i, j :: 0 <= i < j < |xs| ==> xs[i] != xs[j]
  }

  /** Appending a new element keeps a list free of repetitions. */
  lemma DistinctSnoc<T(!new)>(xs: seq<T>, x: T)
    requires Distinct(xs) && x !in xs
    ensures Distinct(xs + [x])
  {
    forall i, j | 0 <= i < j < |xs| + 1 ensures (xs + [x])[i] != (xs + [x])[j] {
      if j == |xs| {
        assert xs[i] in xs;
      }
    }
  }

  /** A list without repetitions drawn from a finite set is no longer than
      the set. */
  lemma {:induction false} DistinctWithin<T(!new)>(xs: seq<T>, s: set<T>)
    requires Distinct(xs)
    requires forall k :: 0 <= k < |xs| ==> xs[k] in s
    ensures |xs| <= |s|
    decreases |xs|
  {
    if |xs| > 0 {
      var x := xs[|xs| - 1];
      var init := xs[..|xs| - 1];
      forall k | 0 <= k < |init| ensures init[k] in s - {x} {
        assert init[k] == xs[k];
      }
      DistinctWithin(init, s - {x});
    }
  }
  /** The distinct elements of `xs`, in the order of their first occurrence. */
  function Dedup<T(==)>(xs: seq<T>): (r: seq<T>)
    ensures |r| <= |xs|
  {
    if |xs| == 0 then []
    else
      var init, x := xs[..|xs| - 1], xs[|xs| - 1];
      if x in init then Dedup(init) else Dedup(init) + [x]
  }

  /** The distinct elements are the elements of the list. */
  lemma {:induction false} DedupMembers<T(!new)>(xs: seq<T>)
    ensures forall x :: x in Dedup(xs) <==> x in xs
  {
    if |xs| > 0 {
      var init, x := xs[..|xs| - 1], xs[|xs| - 1];
      DedupMembers(init);
      assert xs == init + [x];
    }
  }

  /** No element occurs twice among the distinct elements. */
  lemma {:induction false} DedupDistinct<T(!new)>(xs: seq<T>)
    ensures Distinct(Dedup(xs))
  {
    if |xs| > 0 {
      var init, x := xs[..|xs| - 1], xs[|xs| - 1];
      DedupDistinct(init);
      if x !in init {
        DedupMembers(init);
        DistinctSnoc(Dedup(init), x);
      }
    }
  }

  /** Extending the list by one element extends its distinct elements by
      that element when it is new. */
  lemma DedupAppend<T(!new)>(xs: seq<T>, x: T)
    ensures Dedup(xs + [x]) == if x in xs then Dedup(xs) else Dedup(xs) + [x]
  {
    assert (xs + [x])[..|xs|] == xs;
  }

  /** The outcome of trying `candHist` in order, skipping repeats: without a
      hit no candidate is listed and every distinct candidate was tried once,
      in list order; with a hit the found candidate is the first listed one
      and the attempts are the distinct candidates up to it. */
  ghost predicate FirstListed<T(!new)>(candHist: seq<T>, listed: set<T>, attempts: seq<T>, found: Option<T>)
  {
    && (found.None? ==> attempts == Dedup(candHist) && forall i :: 0 <= i < |candHist| ==> candHist[i] !in listed)
    && (found.Some? ==> exists n :: && 0 < n <= |candHist| && attempts == Dedup(candHist[..n])
                                  && candHist[n - 1] == found.value && found.value in listed
                                  && forall i :: 0 <= i < n - 1 ==> candHist[i] !in listed)
  }

  /** The search after the candidates `cleaned`: its outcome so far, and
      the set of tried candidates holding exactly the attempts. */
  ghost predicate SearchState<T(!new)>(cleaned: seq<T>, listed: set<T>, attempts: seq<T>, found: Option<T>, tried: set<T>)
  {
    FirstListed(cleaned, listed, attempts, found) && forall a :: a in tried <==> a in attempts
  }

  /** One step of the search over a candidate `sc`: a candidate
      already tried leaves the attempts as they are, a new one is appended,
      and a new listed one ends the search. */
  lemma SearchStep<T(!new)>(before: seq<T>, sc: T, listed: set<T>, attempts: seq<T>, tried: set<T>)
    requires SearchState(before, listed, attempts, None, tried)
    ensures sc in tried ==> SearchState(before + [sc], listed, attempts, None, tried)
    ensures sc !in tried ==> SearchState(before + [sc], listed, attempts + [sc], if sc in listed then Some(sc) else None, tried + {sc})
  {
    DedupAppend(before, sc);
    DedupMembers(before);
    var after := before + [sc];
    if sc in tried {
      assert sc in before;
      var j :| 0 <= j < |before| && before[j] == sc;
      assert sc !in listed;
    }
    if sc !in tried && sc in listed {
      assert after[..|before| + 1] == after;
      FirstListedAt(after, listed, |before|);
    }
  }

  /** A hit found in a prefix of the list is a hit of the whole list. */
  lemma FirstListedLift<T(!new)>(pre: seq<T>, all: seq<T>, listed: set<T>, attempts: seq<T>, v: T)
    requires |pre| <= |all| && all[..|pre|] == pre
    requires FirstListed(pre, listed, attempts, Some(v))
    ensures FirstListed(all, listed, attempts, Some(v))
  {
    var n :| && 0 < n <= |pre| && attempts == Dedup(pre[..n]) && pre[n - 1] == v && v in listed
             && forall i :: 0 <= i < n - 1 ==> pre[i] !in listed;
    assert all[..n] == pre[..n];
    forall i | 0 <= i < n ensures all[i] == pre[i] {
      assert all[..|pre|][i] == pre[i];
    }
  }

  /** What a search outcome says about the attempts: no candidate twice,
      only candidates from the list, the found one last and listed, the
      earlier ones unlisted, and without a hit every candidate. */
  lemma FirstListedFacts<T(!new)>(candHist: seq<T>, listed: set<T>, attempts: seq<T>, found: Option<T>)
    requires FirstListed(candHist, listed, attempts, found)
    ensures Distinct(attempts)
    ensures forall k :: 0 <= k < |attempts| ==> attempts[k] in candHist
    ensures forall k :: 0 <= k < |attempts| - 1 ==> attempts[k] !in listed
    ensures found.Some? ==> |attempts| > 0 && found.value == attempts[|attempts| - 1] && found.value in listed
    ensures found.None? ==> (forall k :: 0 <= k < |attempts| ==> attempts[k] !in listed)
                            && forall i :: 0 <= i < |candHist| ==> candHist[i] in attempts
  {
    if found.Some? {
      FoundFacts(candHist, listed, attempts, found.value);
    } else {
      NotFoundFacts(candHist, listed, attempts);
    }
  }

  /** `FirstListedFacts` for a search with a hit. */
  lemma FoundFacts<T(!new)>(candHist: seq<T>, listed: set<T>, attempts: seq<T>, v: T)
    requires FirstListed(candHist, listed, attempts, Some(v))
    ensures Distinct(attempts)
    ensures forall k :: 0 <= k < |attempts| ==> attempts[k] in candHist
    ensures forall k :: 0 <= k < |attempts| - 1 ==> attempts[k] !in listed
    ensures |attempts| > 0 && v == attempts[|attempts| - 1] && v in listed
  {
    var n :| && 0 < n <= |candHist| && attempts == Dedup(candHist[..n]) && candHist[n - 1] == v
             && v in listed && forall i :: 0 <= i < n - 1 ==> candHist[i] !in listed;
    DedupDistinct(candHist[..n]);
    DedupWithin(candHist, n);
    FoundLast(candHist, listed, n);
  }

  /** Stopping at the first listed candidate, the attempts end with it and
      hold no listed candidate before it. */
  lemma FoundLast<T(!new)>(candHist: seq<T>, listed: set<T>, n: nat)
    requires 0 < n <= |candHist| && candHist[n - 1] in listed
    requires forall i :: 0 <= i < n - 1 ==> candHist[i] !in listed
    ensures |Dedup(candHist[..n])| > 0 && Dedup(candHist[..n])[|Dedup(candHist[..n])| - 1] == candHist[n - 1]
    ensures forall k :: 0 <= k < |Dedup(candHist[..n])| - 1 ==> Dedup(candHist[..n])[k] !in listed
  {
    var init, v := candHist[..n - 1], candHist[n - 1];
    assert candHist[..n] == init + [v];
    UnlistedPrefix(candHist, listed, n - 1);
    assert v !in init;
    DedupAppend(init, v);
  }

  /** The distinct elements of an unlisted prefix are unlisted. */
  lemma UnlistedPrefix<T(!new)>(candHist: seq<T>, listed: set<T>, m: nat)
    requires m <= |candHist| && forall i :: 0 <= i < m ==> candHist[i] !in listed
    ensures forall x :: x in candHist[..m] ==> x !in listed
    ensures forall k :: 0 <= k < |Dedup(candHist[..m])| ==> Dedup(candHist[..m])[k] !in listed
  {
    DedupMembers(candHist[..m]);
    var d := Dedup(candHist[..m]);
    forall k | 0 <= k < |d| ensures d[k] in candHist[..m] {
      assert d[k] in d;
    }
  }

  /** `FirstListedFacts` for a search without a hit. */
  lemma NotFoundFacts<T(!new)>(candHist: seq<T>, listed: set<T>, attempts: seq<T>)
    requires FirstListed(candHist, listed, attempts, None)
    ensures Distinct(attempts)
    ensures forall k :: 0 <= k < |attempts| ==> attempts[k] in candHist && attempts[k] !in listed
    ensures forall i :: 0 <= i < |candHist| ==> candHist[i] in attempts
  {
    assert candHist[..|candHist|] == candHist;
    DedupMembers(candHist);
    DedupDistinct(candHist);
    forall i | 0 <= i < |candHist| ensures candHist[i] in attempts {
      assert candHist[i] in candHist;
    }
    forall k | 0 <= k < |attempts| ensures attempts[k] in candHist && attempts[k] !in listed {
      assert attempts[k] in Dedup(candHist);
      var j :| 0 <= j < |candHist| && candHist[j] == attempts[k];
    }
  }

  /** Stopping at the first listed candidate is a search outcome. */
  lemma FirstListedAt<T(!new)>(candHist: seq<T>, listed: set<T>, k: nat)
    requires k < |candHist| && candHist[k] in listed
    requires forall i :: 0 <= i < k ==> candHist[i] !in listed
    ensures FirstListed(candHist, listed, Dedup(candHist[..k + 1]), Some(candHist[k]))
  {
  }

  /** The distinct elements of a prefix are elements of the list. */
  lemma DedupWithin<T(!new)>(xs: seq<T>, n: nat)
    requires n <= |xs|
    ensures forall j :: 0 <= j < |Dedup(xs[..n])| ==> Dedup(xs[..n])[j] in xs
  {
    var d := Dedup(xs[..n]);
    DedupMembers(xs[..n]);
    forall j | 0 <= j < |d| ensures d[j] in xs {
      assert d[j] in d;
      var i :| 0 <= i < n && xs[..n][i] == d[j];
      assert xs[i] == d[j];
    }
  }
}
