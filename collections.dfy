/** The array operations the handlers are built from: `filter`, `find`,
    `findIndex`, a keyed `map` that swaps in an updated record, and sums. */
module Collections {
  import opened Types

  /** `xs.filter(p)`. */
  function Filter<T(==)>(xs: seq<T>, p: T -> bool): (r: seq<T>)
    ensures |r| <= |xs|
    ensures forall i :: 0 <= i < |r| ==> p(r[i]) && r[i] in xs
    ensures forall i :: 0 <= i < |xs| && p(xs[i]) ==> xs[i] in r
  {
    if xs == [] then []
    else if p(xs[0]) then [xs[0]] + Filter(xs[1..], p)
    else Filter(xs[1..], p)
  }

  /** a can be obtained from b by deleting elements, keeping the order of the rest. */
  predicate IsSubsequence<T(==)>(a: seq<T>, b: seq<T>)
    decreases |b|
  {
    a == [] || (b != [] && if a[0] == b[0] then IsSubsequence(a[1..], b[1..]) else IsSubsequence(a, b[1..]))
  }

  lemma {:induction false} FilterIsSubsequence<T>(xs: seq<T>, p: T -> bool)
    ensures IsSubsequence(Filter(xs, p), xs)
  {
    if xs != [] {
      FilterIsSubsequence(xs[1..], p);
      if p(xs[0]) {
        assert Filter(xs, p)[1..] == Filter(xs[1..], p);
      }
    }
  }

  lemma {:induction false} FilterConcat<T>(a: seq<T>, b: seq<T>, p: T -> bool)
    ensures Filter(a + b, p) == Filter(a, p) + Filter(b, p)
  {
    if a != [] {
      assert (a + b)[0] == a[0];
      assert (a + b)[1..] == a[1..] + b;
      FilterConcat(a[1..], b, p);
      if p(a[0]) {
        assert Filter(a + b, p) == [a[0]] + Filter(a[1..] + b, p);
        assert Filter(a, p) == [a[0]] + Filter(a[1..], p);
      }
    } else {
      assert a + b == b;
    }
  }

  /** Filtering keeps everything exactly when every element passes. */
  lemma {:induction false} FilterKeepsAll<T>(xs: seq<T>, p: T -> bool)
    ensures Filter(xs, p) == xs <==> forall i :: 0 <= i < |xs| ==> p(xs[i])
  {
    if xs != [] {
      FilterKeepsAll(xs[1..], p);
      if !p(xs[0]) {
        assert |Filter(xs, p)| < |xs|;
      } else if Filter(xs, p) == xs {
        assert Filter(xs[1..], p) == xs[1..];
      }
    }
  }

  lemma {:induction false} FilterIdempotent<T>(xs: seq<T>, p: T -> bool)
    ensures Filter(Filter(xs, p), p) == Filter(xs, p)
  {
    FilterKeepsAll(Filter(xs, p), p);
  }

  /** No two elements share a key. */
  predicate DistinctKeys<T, K(==)>(xs: seq<T>, key: T -> K)
  {
    forall i, j :: 0 <= i < j < |xs| ==> key(xs[i]) != key(xs[j])
  }

  /** Filtering never introduces two elements with the same key. */
  lemma {:induction false} FilterDistinctKeys<T, K>(xs: seq<T>, p: T -> bool, key: T -> K)
    requires DistinctKeys(xs, key)
    ensures DistinctKeys(Filter(xs, p), key)
  {
    if xs != [] {
      FilterDistinctKeys(xs[1..], p, key);
      var rest := Filter(xs[1..], p);
      if p(xs[0]) {
        forall j | 0 <= j < |rest|
          ensures key(xs[0]) != key(rest[j])
        {
          var k :| 0 <= k < |xs[1..]| && xs[1..][k] == rest[j];
          assert xs[k + 1] == rest[j];
        }
      }
    }
  }

  /** Filtering out an element that is present makes the sequence strictly shorter. */
  lemma {:induction false} FilterDropsOne<T>(xs: seq<T>, p: T -> bool, i: nat)
    requires i < |xs| && !p(xs[i])
    ensures |Filter(xs, p)| < |xs|
  {
    if i > 0 {
      FilterDropsOne(xs[1..], p, i - 1);
    }
  }

  /** Pigeonhole: elements with pairwise distinct keys, every key drawn from ks,
      are no more numerous than ks. */
  lemma {:induction false} DistinctKeysBound<T, K>(xs: seq<T>, key: T -> K, ks: seq<K>)
    requires DistinctKeys(xs, key)
    requires forall i :: 0 <= i < |xs| ==> key(xs[i]) in ks
    ensures |xs| <= |ks|
  {
    if xs != [] {
      var k0 := key(xs[0]);
      var p := (k: K) => k != k0;
      var ks' := Filter(ks, p);
      var j :| 0 <= j < |ks| && ks[j] == k0;
      FilterDropsOne(ks, p, j);
      forall i | 0 <= i < |xs[1..]|
        ensures key(xs[1..][i]) in ks'
      {
        assert xs[1..][i] == xs[i + 1];
        var m :| 0 <= m < |ks| && ks[m] == key(xs[i + 1]);
        assert p(ks[m]);
      }
      DistinctKeysBound(xs[1..], key, ks');
    }
  }

  /** `xs.map(x => key(x) === key(updated) ? updated : x)`: the save handlers. */
  function ReplaceById<T(==), K(==)>(xs: seq<T>, key: T -> K, updated: T): (r: seq<T>)
    ensures |r| == |xs|
  {
    if xs == [] then []
    else [if key(xs[0]) == key(updated) then updated else xs[0]] + ReplaceById(xs[1..], key, updated)
  }

  /** Every element with the updated record's id is replaced by it; all others stay where they were. */
  lemma {:induction false} ReplaceByIdAt<T, K>(xs: seq<T>, key: T -> K, updated: T, i: nat)
    requires i < |xs|
    ensures ReplaceById(xs, key, updated)[i] == if key(xs[i]) == key(updated) then updated else xs[i]
  {
    if i > 0 {
      ReplaceByIdAt(xs[1..], key, updated, i - 1);
    }
  }

  lemma ReplaceByIdSpec<T, K>(xs: seq<T>, key: T -> K, updated: T)
    ensures var r := ReplaceById(xs, key, updated);
      |r| == |xs| &&
      (forall i :: 0 <= i < |xs| && key(xs[i]) == key(updated) ==> r[i] == updated) &&
      (forall i :: 0 <= i < |xs| && key(xs[i]) != key(updated) ==> r[i] == xs[i]) &&
      (forall i :: 0 <= i < |xs| ==> key(r[i]) == key(xs[i]))
  {
    forall i | 0 <= i < |xs| {
      ReplaceByIdAt(xs, key, updated, i);
    }
  }

  /** Saving the same record twice is the same as saving it once. */
  lemma ReplaceByIdIdempotent<T, K>(xs: seq<T>, key: T -> K, updated: T)
    ensures ReplaceById(ReplaceById(xs, key, updated), key, updated) == ReplaceById(xs, key, updated)
  {
    var r := ReplaceById(xs, key, updated);
    ReplaceByIdSpec(xs, key, updated);
    ReplaceByIdSpec(r, key, updated);
  }

  /** A record whose id is not in the list leaves the list unchanged. */
  lemma {:induction false} ReplaceByIdAbsent<T, K>(xs: seq<T>, key: T -> K, updated: T)
    requires forall i :: 0 <= i < |xs| ==> key(xs[i]) != key(updated)
    ensures ReplaceById(xs, key, updated) == xs
  {
    if xs != [] {
      ReplaceByIdAbsent(xs[1..], key, updated);
    }
  }

  /** `xs.filter(x => key(x) !== k)`: the delete handlers. */
  function RemoveById<T(==), K(==)>(xs: seq<T>, key: T -> K, k: K): (r: seq<T>)
  {
    Filter(xs, (x: T) => key(x) != k)
  }

  lemma RemoveByIdSpec<T, K>(xs: seq<T>, key: T -> K, k: K)
    ensures var r := RemoveById(xs, key, k);
      IsSubsequence(r, xs) &&
      (forall i :: 0 <= i < |r| ==> key(r[i]) != k) &&
      (forall i :: 0 <= i < |xs| && key(xs[i]) != k ==> xs[i] in r) &&
      RemoveById(r, key, k) == r
  {
    FilterIsSubsequence(xs, (x: T) => key(x) != k);
    FilterIdempotent(xs, (x: T) => key(x) != k);
  }

  /** Deleting by the id of a record just appended with a fresh id undoes the append. */
  lemma RemoveUndoesAppend<T, K>(xs: seq<T>, key: T -> K, y: T)
    requires forall i :: 0 <= i < |xs| ==> key(xs[i]) != key(y)
    ensures RemoveById(xs + [y], key, key(y)) == xs
  {
    var p := (x: T) => key(x) != key(y);
    FilterConcat(xs, [y], p);
    FilterKeepsAll(xs, p);
    assert Filter([y], p) == [];
  }

  /** `xs.findIndex(p)` as an option: the first index whose element satisfies p. */
  function FindIndex<T>(xs: seq<T>, p: T -> bool): (r: Option<nat>)
    ensures r.Some? ==> r.value < |xs| && p(xs[r.value]) && forall j :: 0 <= j < r.value ==> !p(xs[j])
    ensures r.None? ==> forall j :: 0 <= j < |xs| ==> !p(xs[j])
  {
    if xs == [] then None
    else if p(xs[0]) then Some(0)
    else match FindIndex(xs[1..], p)
      case None => None
      case Some(i) => Some(i + 1)
  }

  /** `xs.find(p)`: the first element satisfying p, if there is one. */
  function Find<T>(xs: seq<T>, p: T -> bool): (r: Option<T>)
    ensures r.Some? <==> exists i :: 0 <= i < |xs| && p(xs[i])
    ensures r.Some? ==> r.value in xs && p(r.value)
    ensures r.Some? ==> exists i :: 0 <= i < |xs| && xs[i] == r.value && p(xs[i]) &&
                                    forall j :: 0 <= j < i ==> !p(xs[j])
  {
    match FindIndex(xs, p)
    case None => None
    case Some(i) => Some(xs[i])
  }

  /** `xs.reduce((acc, x) => acc + f(x), 0)`. */
  function Sum<T>(xs: seq<T>, f: T -> real): real
  {
    if xs == [] then 0.0 else f(xs[0]) + Sum(xs[1..], f)
  }

  lemma {:induction false} SumConcat<T>(a: seq<T>, b: seq<T>, f: T -> real)
    ensures Sum(a + b, f) == Sum(a, f) + Sum(b, f)
  {
    if a == [] {
      assert a + b == b;
    } else {
      assert (a + b)[1..] == a[1..] + b;
      SumConcat(a[1..], b, f);
    }
  }
}
