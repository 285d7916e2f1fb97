/** Optional values and the handful of sequence operations the application
    performs on its collections: filtering (a MongoDB `find`, JavaScript's
    `filter`), first match (`find_one`, `Array.find`), single removal
    (`delete_one`) and de-duplication (`distinct`). */
module Collections {

  datatype Option<+T> = None | Some(value: T)

  /** The elements of `xs` that satisfy `p`, in their original order. */
  function Filter<T>(xs: seq<T>, p: T -> bool): (r: seq<T>)
    ensures |r| <= |xs|
    ensures forall i :: 0 <= i < |r| ==> p(r[i])
    ensures forall x :: x in r ==> x in xs && p(x)
    ensures forall x :: x in xs && p(x) ==> x in r
  {
    if |xs| == 0 then []
    else if p(xs[0]) then [xs[0]] + Filter(xs[1..], p)
    else Filter(xs[1..], p)
  }

  /** The first element of `xs` that satisfies `p`, if any. */
  function Find<T>(xs: seq<T>, p: T -> bool): (r: Option<T>)
    ensures r.Some? ==> r.value in xs && p(r.value)
    ensures r.None? <==> forall x :: x in xs ==> !p(x)
    ensures r.Some? ==> exists i :: 0 <= i < |xs| && xs[i] == r.value && forall j :: 0 <= j < i ==> !p(xs[j])
  {
    if |xs| == 0 then None
    else if p(xs[0]) then Some(xs[0])
    else
      var rest := Find(xs[1..], p);
      if rest.Some? then
        ghost var i :| 0 <= i < |xs[1..]| && xs[1..][i] == rest.value && forall j :: 0 <= j < i ==> !p(xs[1..][j]);
        assert xs[i + 1] == rest.value;
        rest
      else rest
  }

  /** `xs` with its first element satisfying `p` removed; `xs` itself when none does. */
  function RemoveFirst<T>(xs: seq<T>, p: T -> bool): (r: seq<T>)
    ensures (forall x :: x in xs ==> !p(x)) ==> r == xs
    ensures (exists x :: x in xs && p(x)) ==> |r| == |xs| - 1
    ensures forall x :: x in r ==> x in xs
  {
    if |xs| == 0 then []
    else if p(xs[0]) then xs[1..]
    else [xs[0]] + RemoveFirst(xs[1..], p)
  }

  /** The distinct values of `xs`; each appears once, in the order of its last occurrence. */
  function Distinct<T(==)>(xs: seq<T>): (r: seq<T>)
    ensures NoDup(r)
    ensures forall x :: x in r ==> x in xs
    ensures forall x :: x in xs ==> x in r
  {
    if |xs| == 0 then []
    else
      var rest := Distinct(xs[1..]);
      if xs[0] in rest then rest
      else
        assert forall j :: 0 <= j < |rest| ==> ([xs[0]] + rest)[j + 1] == rest[j];
        [xs[0]] + rest
  }

  ghost predicate NoDup<T>(xs: seq<T>) {
    forall i, j :: 0 <= i < j < |xs| ==> xs[i] != xs[j]
  }

  /** No two elements of `xs` share a key. */
  ghost predicate UniqueBy<T, K>(xs: seq<T>, key: T -> K) {
    forall i, j :: 0 <= i < j < |xs| ==> key(xs[i]) != key(xs[j])
  }

  /** `a` can be obtained from `b` by deleting elements, keeping the order of the rest. */
  ghost predicate IsSubseq<T>(a: seq<T>, b: seq<T>) {
    if |a| == 0 then true
    else if |b| == 0 then false
    else (a[0] == b[0] && IsSubseq(a[1..], b[1..])) || IsSubseq(a, b[1..])
  }

  /** Filtering never reorders: the survivors form a subsequence of the input. */
  lemma {:induction false} FilterIsSubseq<T>(xs: seq<T>, p: T -> bool)
    ensures IsSubseq(Filter(xs, p), xs)
  {
    if |xs| > 0 {
      FilterIsSubseq(xs[1..], p);
      if p(xs[0]) {
        assert ([xs[0]] + Filter(xs[1..], p))[1..] == Filter(xs[1..], p);
      }
    }
  }

  /** Filtering keeps every occurrence of an element it keeps: an element of
      `xs` occurs in the result as often as in `xs` when it satisfies `p`, and
      not at all otherwise. */
  lemma {:induction false} FilterCount<T>(xs: seq<T>, p: T -> bool, x: T)
    ensures multiset(Filter(xs, p))[x] == if p(x) then multiset(xs)[x] else 0
  {
    if |xs| > 0 {
      FilterCount(xs[1..], p, x);
      assert xs == [xs[0]] + xs[1..];
      assert multiset(xs) == multiset([xs[0]]) + multiset(xs[1..]);
      if p(xs[0]) {
        assert multiset(Filter(xs, p)) == multiset([xs[0]]) + multiset(Filter(xs[1..], p));
      }
    }
  }

  /** Filtering distributes over concatenation, so it keeps the relative order of what it keeps. */
  lemma {:induction false} FilterAppend<T>(a: seq<T>, b: seq<T>, p: T -> bool)
    ensures Filter(a + b, p) == Filter(a, p) + Filter(b, p)
  {
    if |a| == 0 {
      assert a + b == b;
    } else {
      assert (a + b)[1..] == a[1..] + b;
      FilterAppend(a[1..], b, p);
    }
  }

  /** Filtering with a predicate every element satisfies changes nothing. */
  lemma {:induction false} FilterAll<T>(xs: seq<T>, p: T -> bool)
    requires forall x :: x in xs ==> p(x)
    ensures Filter(xs, p) == xs
  {
    if |xs| > 0 {
      assert forall x :: x in xs[1..] ==> x in xs;
      FilterAll(xs[1..], p);
    }
  }

  /** Two predicates that agree on every element filter alike. */
  lemma {:induction false} FilterExt<T>(xs: seq<T>, p: T -> bool, q: T -> bool)
    requires forall x :: x in xs ==> (p(x) <==> q(x))
    ensures Filter(xs, p) == Filter(xs, q)
  {
    if |xs| > 0 {
      assert forall x :: x in xs[1..] ==> x in xs;
      FilterExt(xs[1..], p, q);
    }
  }

  /** Filtering twice with the same predicate is filtering once. */
  lemma FilterIdempotent<T>(xs: seq<T>, p: T -> bool)
    ensures Filter(Filter(xs, p), p) == Filter(xs, p)
  {
    FilterAll(Filter(xs, p), p);
  }

  /** Filtering keeps keys unique. */
  lemma {:induction false} FilterUniqueBy<T, K>(xs: seq<T>, p: T -> bool, key: T -> K)
    ensures UniqueBy(xs, key) ==> UniqueBy(Filter(xs, p), key)
  {
    if |xs| > 0 && UniqueBy(xs, key) {
      var rest := xs[1..];
      assert UniqueBy(rest, key) by {
        forall i, j | 0 <= i < j < |rest| ensures key(rest[i]) != key(rest[j]) {
          assert rest[i] == xs[i + 1] && rest[j] == xs[j + 1];
        }
      }
      FilterUniqueBy(rest, p, key);
      if p(xs[0]) {
        var f := Filter(rest, p);
        var r := [xs[0]] + f;
        forall i, j | 0 <= i < j < |r| ensures key(r[i]) != key(r[j]) {
          if i == 0 {
            assert r[j] == f[j - 1] && f[j - 1] in rest;
            var k :| 0 <= k < |rest| && rest[k] == f[j - 1];
            assert xs[k + 1] == rest[k];
          } else {
            assert r[i] == f[i - 1] && r[j] == f[j - 1];
          }
        }
      }
    }
  }

  /** Appending an element whose key is new keeps keys unique. */
  lemma AppendUniqueBy<T, K>(xs: seq<T>, x: T, key: T -> K)
    requires UniqueBy(xs, key)
    requires forall y :: y in xs ==> key(y) != key(x)
    ensures UniqueBy(xs + [x], key)
  {
    var r := xs + [x];
    forall i, j | 0 <= i < j < |r| ensures key(r[i]) != key(r[j]) {
      assert r[i] == xs[i];
      if j < |xs| {
        assert r[j] == xs[j];
      } else {
        assert xs[i] in xs;
      }
    }
  }

  /** When at most one element has key `k`, removing the first element with that
      key is the same as removing every element with that key. */
  lemma {:induction false} RemoveFirstOfUnique<T, K>(xs: seq<T>, key: T -> K, k: K, p: T -> bool, q: T -> bool)
    requires forall x :: p(x) <==> key(x) == k
    requires forall x :: q(x) <==> key(x) != k
    ensures UniqueBy(xs, key) ==> RemoveFirst(xs, p) == Filter(xs, q)
  {
    if |xs| > 0 && UniqueBy(xs, key) {
      var rest := xs[1..];
      if p(xs[0]) {
        forall x | x in rest ensures q(x) {
          var j :| 0 <= j < |rest| && rest[j] == x;
          assert xs[j + 1] == x;
        }
        FilterAll(rest, q);
      } else {
        assert UniqueBy(rest, key) by {
          forall i, j | 0 <= i < j < |rest| ensures key(rest[i]) != key(rest[j]) {
            assert rest[i] == xs[i + 1] && rest[j] == xs[j + 1];
          }
        }
        RemoveFirstOfUnique(rest, key, k, p, q);
      }
    }
  }

  /** With unique keys, an element is determined by its key. */
  lemma UniqueKeyMembers<T, K>(xs: seq<T>, key: T -> K, a: T, b: T)
    requires UniqueBy(xs, key)
    requires a in xs && b in xs && key(a) == key(b)
    ensures a == b
  {
    var i :| 0 <= i < |xs| && xs[i] == a;
    var j :| 0 <= j < |xs| && xs[j] == b;
    assert i == j;
  }

  /** The keys of `xs`, in order. */
  function Keys<T, K>(xs: seq<T>, key: T -> K): (r: seq<K>)
    ensures |r| == |xs|
    ensures forall i :: 0 <= i < |xs| ==> r[i] == key(xs[i])
  {
    if |xs| == 0 then [] else [key(xs[0])] + Keys(xs[1..], key)
  }
}
