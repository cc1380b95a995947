/**
 * The JavaScript array built-ins the components rely on: `filter` and `find`.
 */
module Lists {

  datatype Option<T> = None | Some(value: T)

  /** `Array.prototype.filter`: the elements `keep` admits, in their original order. */
  function Filter<T>(xs: seq<T>, keep: T -> bool): (r: seq<T>)
    ensures |r| <= |xs|
    ensures forall x :: x in r ==> x in xs && keep(x)
  {
    if xs == [] then []
    else
      var rest := Filter(xs[1..], keep);
      if keep(xs[0]) then [xs[0]] + rest else rest
  }

  /**
   * Filtering the suffix that starts at `lo` keeps exactly the admitted
   * positions of that suffix, in increasing order.
   */
  lemma {:induction false} FilterSelectsFrom<T>(xs: seq<T>, keep: T -> bool, lo: nat) returns (idx: seq<nat>)
    requires lo <= |xs|
    ensures |idx| == |Filter(xs[lo..], keep)|
    ensures forall i :: 0 <= i < |idx| ==> lo <= idx[i] < |xs| && Filter(xs[lo..], keep)[i] == xs[idx[i]]
    ensures forall i, j :: 0 <= i < j < |idx| ==> idx[i] < idx[j]
    ensures forall k :: lo <= k < |xs| ==> (k in idx <==> keep(xs[k]))
    decreases |xs| - lo
  {
    if lo == |xs| {
      idx := [];
    } else {
      var tail := FilterSelectsFrom(xs, keep, lo + 1);
      assert xs[lo..][1..] == xs[lo + 1..];
      if keep(xs[lo]) {
        idx := [lo] + tail;
      } else {
        idx := tail;
      }
    }
  }

  /** An element is kept exactly when it is in the list and admitted. */
  lemma {:induction false} FilterMembership<T>(xs: seq<T>, keep: T -> bool, x: T)
    ensures x in Filter(xs, keep) <==> x in xs && keep(x)
  {
    if xs != [] && x != xs[0] {
      FilterMembership(xs[1..], keep, x);
    }
  }

  /** Filtering a filtered list again with the same predicate changes nothing. */
  lemma {:induction false} FilterIdempotent<T>(xs: seq<T>, keep: T -> bool)
    ensures Filter(Filter(xs, keep), keep) == Filter(xs, keep)
  {
    if xs != [] {
      FilterIdempotent(xs[1..], keep);
      var rest := Filter(xs[1..], keep);
      if keep(xs[0]) {
        assert ([xs[0]] + rest)[1..] == rest;
      }
    }
  }

  /** Filtering distributes over concatenation. */
  lemma {:induction false} FilterConcat<T>(xs: seq<T>, ys: seq<T>, keep: T -> bool)
    ensures Filter(xs + ys, keep) == Filter(xs, keep) + Filter(ys, keep)
  {
    if xs == [] {
      assert xs + ys == ys;
    } else {
      assert (xs + ys)[0] == xs[0];
      assert (xs + ys)[1..] == xs[1..] + ys;
      FilterConcat(xs[1..], ys, keep);
    }
  }

  /** A predicate admitting every element keeps the whole list. */
  lemma {:induction false} FilterKeepsAll<T>(xs: seq<T>, keep: T -> bool)
    requires forall x :: x in xs ==> keep(x)
    ensures Filter(xs, keep) == xs
  {
    if xs != [] {
      FilterKeepsAll(xs[1..], keep);
    }
  }

  /** Two predicates that agree on the list's elements keep the same elements. */
  lemma {:induction false} FilterCongruent<T>(xs: seq<T>, keep: T -> bool, keep': T -> bool)
    requires forall x :: x in xs ==> keep(x) == keep'(x)
    ensures Filter(xs, keep) == Filter(xs, keep')
  {
    if xs != [] {
      FilterCongruent(xs[1..], keep, keep');
    }
  }

  /**
   * When `keep` admits exactly the positions below `n`, filtering keeps the
   * first `n` elements.
   */
  lemma {:induction false} FilterPrefix<T>(xs: seq<T>, keep: T -> bool, n: nat)
    requires n <= |xs|
    requires forall i :: 0 <= i < |xs| ==> (keep(xs[i]) <==> i < n)
    ensures Filter(xs, keep) == xs[..n]
  {
    if xs != [] {
      if n == 0 {
        FilterPrefix(xs[1..], keep, 0);
      } else {
        assert forall i :: 0 <= i < |xs[1..]| ==> (keep(xs[1..][i]) <==> i < n - 1) by {
          forall i | 0 <= i < |xs[1..]| ensures keep(xs[1..][i]) <==> i < n - 1 {
            assert xs[1..][i] == xs[i + 1];
          }
        }
        FilterPrefix(xs[1..], keep, n - 1);
        assert xs[..n] == [xs[0]] + xs[1..][..n - 1];
      }
    }
  }

  /** `Array.prototype.find`: the first element `hit` admits, if any. */
  function Find<T>(xs: seq<T>, hit: T -> bool): (r: Option<T>)
    ensures r.Some? ==> r.value in xs && hit(r.value)
    ensures r.None? <==> forall x :: x in xs ==> !hit(x)
  {
    if xs == [] then None
    else if hit(xs[0]) then Some(xs[0])
    else Find(xs[1..], hit)
  }

  /** `find` returns the earliest admitted element: everything before it is refused. */
  lemma {:induction false} FindFirst<T>(xs: seq<T>, hit: T -> bool) returns (k: nat)
    requires Find(xs, hit).Some?
    ensures k < |xs| && xs[k] == Find(xs, hit).value
    ensures forall i :: 0 <= i < k ==> !hit(xs[i])
  {
    if hit(xs[0]) {
      k := 0;
    } else {
      var j := FindFirst(xs[1..], hit);
      k := j + 1;
    }
  }
}
