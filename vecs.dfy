/** The standard-library vector operations the tasker relies on:
    `Vec::retain`, `sort_unstable_by` and `Iterator::sorted`, and `Itertools::unique_by`. */
module Vecs {

  // ---------------------------------------------------------------------------
  // Vec::retain
  // ---------------------------------------------------------------------------

  /** `v.retain(keep)`: the elements of `s` for which `keep` holds, in their original order. */
  function Retain<T(!new)>(s: seq<T>, keep: T -> bool): (r: seq<T>)
    ensures |r| <= |s|
    ensures forall x :: x in r <==> x in s && keep(x)
  {
    if s == [] then []
    else if keep(s[0]) then [s[0]] + Retain(s[1..], keep)
    else Retain(s[1..], keep)
  }

  /** The positions of `s` whose element `keep` accepts, in increasing order. */
  function KeptPositions<T>(s: seq<T>, keep: T -> bool): seq<nat> {
    if s == [] then []
    else
      var rest := Shift(KeptPositions(s[1..], keep));
      if keep(s[0]) then [0] + rest else rest
  }

  /** Every position one further on. */
  function Shift(idx: seq<nat>): seq<nat> {
    seq(|idx|, i requires 0 <= i < |idx| => idx[i] + 1)
  }

  lemma {:induction false} KeptPositionsBounded<T>(s: seq<T>, keep: T -> bool)
    ensures forall i :: 0 <= i < |KeptPositions(s, keep)| ==> KeptPositions(s, keep)[i] < |s|
    ensures forall i, j :: 0 <= i < j < |KeptPositions(s, keep)| ==> KeptPositions(s, keep)[i] < KeptPositions(s, keep)[j]
  {
    if s != [] {
      var rest := KeptPositions(s[1..], keep);
      KeptPositionsBounded(s[1..], keep);
      assert forall i :: 0 <= i < |rest| ==> rest[i] < |s| - 1;
      var shifted := Shift(rest);
      assert KeptPositions(s, keep) == if keep(s[0]) then [0] + shifted else shifted;
      assert forall i :: 0 <= i < |shifted| ==> 1 <= shifted[i] < |s|;
      if keep(s[0]) {
        var idx := [0] + shifted;
        forall i, j | 0 <= i < j < |idx| ensures idx[i] < idx[j] {
          assert idx[j] == shifted[j - 1];
          if i > 0 {
            assert idx[i] == shifted[i - 1];
          }
        }
        forall i | 0 <= i < |idx| ensures idx[i] < |s| {
          if i > 0 {
            assert idx[i] == shifted[i - 1];
          }
        }
      }
    }
  }

  lemma {:induction false} KeptPositionsSelect<T(!new)>(s: seq<T>, keep: T -> bool)
    ensures var idx := KeptPositions(s, keep);
      && |idx| == |Retain(s, keep)|
      && (forall i :: 0 <= i < |idx| ==> idx[i] < |s| && Retain(s, keep)[i] == s[idx[i]])
  {
    if s != [] {
      KeptPositionsSelect(s[1..], keep);
    }
  }

  lemma {:induction false} KeptPositionsExact<T>(s: seq<T>, keep: T -> bool)
    ensures forall k: nat :: k in KeptPositions(s, keep) <==> k < |s| && keep(s[k])
  {
    if s != [] {
      var rest := KeptPositions(s[1..], keep);
      KeptPositionsExact(s[1..], keep);
      var shifted := Shift(rest);
      forall k: nat ensures k in shifted <==> 1 <= k < |s| && keep(s[k]) {
        if k in shifted {
          var i :| 0 <= i < |shifted| && shifted[i] == k;
          assert rest[i] == k - 1 && k - 1 in rest;
          assert s[1..][k - 1] == s[k];
        }
        if 1 <= k < |s| && keep(s[k]) {
          assert s[k] == s[1..][k - 1];
          var i :| 0 <= i < |rest| && rest[i] == k - 1;
          assert shifted[i] == k;
        }
      }
      assert 0 !in shifted;
      if keep(s[0]) {
        assert forall k: nat :: k in [0] + shifted <==> k == 0 || k in shifted;
      }
    }
  }

  /** `Retain(s, keep)` is the subsequence of `s` taken at exactly the positions whose element
      `keep` accepts: the positions are increasing, every accepted position is among them and
      no other. */
  lemma RetainAtKeptPositions<T(!new)>(s: seq<T>, keep: T -> bool)
    ensures var idx := KeptPositions(s, keep);
      && |idx| == |Retain(s, keep)|
      && (forall i, j :: 0 <= i < j < |idx| ==> idx[i] < idx[j])
      && (forall i :: 0 <= i < |idx| ==> idx[i] < |s| && Retain(s, keep)[i] == s[idx[i]])
      && (forall k: nat :: k in idx <==> k < |s| && keep(s[k]))
  {
    KeptPositionsBounded(s, keep);
    KeptPositionsSelect(s, keep);
    KeptPositionsExact(s, keep);
  }

  /** Retaining keeps every accepted element as often as it occurs, and no other element. */
  lemma {:induction false} RetainCount<T(!new)>(s: seq<T>, keep: T -> bool, x: T)
    ensures multiset(Retain(s, keep))[x] == if keep(x) then multiset(s)[x] else 0
  {
    if s != [] {
      RetainCount(s[1..], keep, x);
      assert s == [s[0]] + s[1..];
    }
  }

  /** Two successive `retain` calls keep exactly what one `retain` with the conjunction keeps. */
  lemma {:induction false} RetainRetain<T(!new)>(s: seq<T>, p: T -> bool, q: T -> bool, pq: T -> bool)
    requires forall x :: x in s ==> pq(x) == (p(x) && q(x))
    ensures Retain(Retain(s, p), q) == Retain(s, pq)
  {
    if s != [] {
      RetainRetain(s[1..], p, q, pq);
      if p(s[0]) {
        assert Retain(s, p) == [s[0]] + Retain(s[1..], p);
        assert Retain(s, p)[1..] == Retain(s[1..], p);
      }
    }
  }

  /** Retaining with a predicate that accepts every element changes nothing. */
  lemma {:induction false} RetainAll<T(!new)>(s: seq<T>, keep: T -> bool)
    requires forall x :: x in s ==> keep(x)
    ensures Retain(s, keep) == s
  {
    if s != [] {
      RetainAll(s[1..], keep);
      assert s == [s[0]] + s[1..];
    }
  }

  /** Only the verdicts on the elements present matter. */
  lemma {:induction false} RetainExt<T(!new)>(s: seq<T>, p: T -> bool, q: T -> bool)
    requires forall x :: x in s ==> p(x) == q(x)
    ensures Retain(s, p) == Retain(s, q)
  {
    if s != [] {
      RetainExt(s[1..], p, q);
    }
  }

  // ---------------------------------------------------------------------------
  // sort_unstable_by / Iterator::sorted
  // ---------------------------------------------------------------------------

  /** `leq` is the "less or equal" of a total preorder, as a comparator used for sorting must be. */
  ghost predicate TotalPreorder<T(!new)>(leq: (T, T) -> bool) {
    && (forall a, b :: leq(a, b) || leq(b, a))
    && (forall a, b, c :: leq(a, b) && leq(b, c) ==> leq(a, c))
  }

  predicate SortedBy<T>(s: seq<T>, leq: (T, T) -> bool) {
    forall i, j :: 0 <= i < j < |s| ==> leq(s[i], s[j])
  }

  /** Inserts `x` before the first element it is less-or-equal to. */
  function Insert<T>(x: T, s: seq<T>, leq: (T, T) -> bool): (r: seq<T>)
    ensures multiset(r) == multiset(s) + multiset{x}
  {
    if s == [] then [x]
    else if leq(x, s[0]) then [x] + s
    else
      assert s == [s[0]] + s[1..];
      [s[0]] + Insert(x, s[1..], leq)
  }

  /** The sorted permutation of `s` that the library sort returns. The library sort is unstable,
      so the order of equivalent elements is not promised: callers rely only on the permutation
      (this contract) and on `SortByIsSorted`. */
  function SortBy<T>(s: seq<T>, leq: (T, T) -> bool): (r: seq<T>)
    ensures multiset(r) == multiset(s)
  {
    if s == [] then []
    else
      assert s == [s[0]] + s[1..];
      Insert(s[0], SortBy(s[1..], leq), leq)
  }

  lemma {:induction false} InsertIsSorted<T(!new)>(x: T, s: seq<T>, leq: (T, T) -> bool)
    requires TotalPreorder(leq) && SortedBy(s, leq)
    ensures SortedBy(Insert(x, s, leq), leq)
  {
    if s != [] && !leq(x, s[0]) {
      var rest := Insert(x, s[1..], leq);
      InsertIsSorted(x, s[1..], leq);
      assert leq(s[0], x);
      forall y | y in rest ensures leq(s[0], y) {
        assert y in multiset(rest);
        if y != x {
          assert y in s[1..];
        }
      }
      var r := [s[0]] + rest;
      forall i, j | 0 <= i < j < |r| ensures leq(r[i], r[j]) {
        if i > 0 {
          assert r[i] == rest[i - 1] && r[j] == rest[j - 1];
        } else {
          assert r[j] in rest;
        }
      }
    }
  }

  /** The result of `SortBy` is nondecreasing for any total preorder. */
  lemma {:induction false} SortByIsSorted<T(!new)>(s: seq<T>, leq: (T, T) -> bool)
    requires TotalPreorder(leq)
    ensures SortedBy(SortBy(s, leq), leq)
  {
    if s != [] {
      SortByIsSorted(s[1..], leq);
      InsertIsSorted(s[0], SortBy(s[1..], leq), leq);
    }
  }

  // ---------------------------------------------------------------------------
  // Itertools::unique_by
  // ---------------------------------------------------------------------------

  ghost predicate Distinct<T>(s: seq<T>) {
    forall i, j :: 0 <= i < j < |s| ==> s[i] != s[j]
  }

  /** The first occurrence of every value of `s`, in order of first occurrence. */
  function Unique<T(==,!new)>(s: seq<T>): (r: seq<T>)
    ensures Distinct(r)
    ensures forall x :: x in r <==> x in s
  {
    if s == [] then []
    else
      var init := Unique(s[..|s| - 1]);
      assert s == s[..|s| - 1] + [s[|s| - 1]];
      if s[|s| - 1] in init then init else init + [s[|s| - 1]]
  }

  /** A sequence without repetitions holds every value at most once. */
  lemma {:induction false} DistinctCounts<T>(s: seq<T>, x: T)
    requires Distinct(s)
    ensures multiset(s)[x] <= 1
  {
    if s != [] {
      DistinctCounts(s[1..], x);
      assert s == [s[0]] + s[1..];
      if s[0] == x {
        assert x !in s[1..];
      }
    }
  }

  /** A permutation of a sequence without repetitions has none either. */
  lemma DistinctPermutation<T>(a: seq<T>, b: seq<T>)
    requires Distinct(a) && multiset(a) == multiset(b)
    ensures Distinct(b)
  {
    forall i, j | 0 <= i < j < |b| ensures b[i] != b[j] {
      DistinctCounts(a, b[i]);
      assert b == b[..i + 1] + b[i + 1..];
      assert b[j] in b[i + 1..];
      assert multiset(b)[b[i]] == multiset(b[..i + 1])[b[i]] + multiset(b[i + 1..])[b[i]];
      assert b[i] in b[..i + 1];
    }
  }
}
