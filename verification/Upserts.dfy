/**
 * Lists kept free of duplicates by "find the entry with this key and overwrite it, else push":
 * the interface list of controller/src/controller.rs and the server browser of src/relay.rs.
 */
module Upserts {
  import opened Basics

  function Upsert<T, K(==)>(key: T -> K, xs: seq<T>, x: T): seq<T> {
    if xs == [] then [x]
    else if key(xs[0]) == key(x) then [x] + xs[1..]
    else [xs[0]] + Upsert(key, xs[1..], x)
  }

  /** The list built by upserting `ds` one after another. */
  function UpsertAll<T, K(==)>(key: T -> K, ds: seq<T>): seq<T> {
    if ds == [] then [] else Upsert(key, UpsertAll(key, ds[..|ds| - 1]), ds[|ds| - 1])
  }

  ghost predicate Distinct<T, K>(key: T -> K, xs: seq<T>) {
    forall i, j :: 0 <= i < j < |xs| ==> key(xs[i]) != key(xs[j])
  }

  /** The keys of `ds` in the order in which they first occur. */
  function Firsts<T, K(==)>(key: T -> K, ds: seq<T>): seq<K> {
    if ds == [] then []
    else
      var before, k := Firsts(key, ds[..|ds| - 1]), key(ds[|ds| - 1]);
      if k in before then before else before + [k]
  }

  /** The last element of `ds` with key `k`. */
  function LastWith<T, K(==)>(key: T -> K, ds: seq<T>, k: K): Option<T> {
    if ds == [] then None
    else if key(ds[|ds| - 1]) == k then Some(ds[|ds| - 1])
    else LastWith(key, ds[..|ds| - 1], k)
  }

  /** `Upsert` overwrites the one entry with the key of `x`, or else appends. */
  lemma {:induction false} UpsertAt<T, K>(key: T -> K, xs: seq<T>, x: T, i: nat)
    requires i <= |xs| && forall j :: 0 <= j < i ==> key(xs[j]) != key(x)
    requires i < |xs| ==> key(xs[i]) == key(x)
    ensures Upsert(key, xs, x) == if i < |xs| then xs[i := x] else xs + [x]
  {
    if i > 0 {
      UpsertAt(key, xs[1..], x, i - 1);
    }
  }

  /** The position of the first entry with the key of `x`, or the length. */
  function Position<T, K(==)>(key: T -> K, xs: seq<T>, x: T): (i: nat)
    ensures i <= |xs| && forall j :: 0 <= j < i ==> key(xs[j]) != key(x)
    ensures i < |xs| ==> key(xs[i]) == key(x)
  {
    if xs == [] || key(xs[0]) == key(x) then 0 else 1 + Position(key, xs[1..], x)
  }

  /** Entry `i` is the last element of `ds` with the `i`-th key. */
  ghost predicate HoldsLast<T, K>(key: T -> K, ds: seq<T>, r: seq<T>) {
    && |r| == |Firsts(key, ds)|
    && forall i :: 0 <= i < |r| ==>
         key(r[i]) == Firsts(key, ds)[i] && LastWith(key, ds, Firsts(key, ds)[i]) == Some(r[i])
  }

  lemma {:induction false} FirstsDistinct<T, K>(key: T -> K, ds: seq<T>)
    ensures forall i, j :: 0 <= i < j < |Firsts(key, ds)| ==> Firsts(key, ds)[i] != Firsts(key, ds)[j]
  {
    if ds != [] {
      FirstsDistinct(key, ds[..|ds| - 1]);
    }
  }

  /**
   * The result has distinct keys in first-occurrence order, each with its last-occurring element:
   * an insertion-ordered map in which the last write wins.
   */
  lemma {:induction false} UpsertAllExact<T, K>(key: T -> K, ds: seq<T>)
    ensures HoldsLast(key, ds, UpsertAll(key, ds)) && Distinct(key, UpsertAll(key, ds))
  {
    if ds != [] {
      var before, d := ds[..|ds| - 1], ds[|ds| - 1];
      var r := UpsertAll(key, before);
      UpsertAllExact(key, before);
      var i := Position(key, r, d);
      UpsertAt(key, r, d, i);
      var firsts := Firsts(key, before);
      if i < |r| {
        assert firsts[i] == key(d);
      } else {
        assert key(d) !in firsts;
      }
    }
    FirstsDistinct(key, ds);
  }

  lemma UpsertKeepsDistinct<T, K>(key: T -> K, xs: seq<T>, x: T)
    requires Distinct(key, xs)
    ensures Distinct(key, Upsert(key, xs, x))
  {
    UpsertAt(key, xs, x, Position(key, xs, x));
  }

  lemma {:induction false} UpsertAllSize<T, K>(key: T -> K, ds: seq<T>)
    ensures |UpsertAll(key, ds)| <= |ds|
    ensures |UpsertAll(key, ds)| == |ds| ==> UpsertAll(key, ds) == ds
  {
    if ds != [] {
      var before, d := ds[..|ds| - 1], ds[|ds| - 1];
      UpsertAllSize(key, before);
      var r := UpsertAll(key, before);
      UpsertAt(key, r, d, Position(key, r, d));
    }
  }

  lemma {:induction false} UpsertAllDistinct<T, K>(key: T -> K, ds: seq<T>)
    requires Distinct(key, ds)
    ensures UpsertAll(key, ds) == ds
  {
    if ds != [] {
      var before, d := ds[..|ds| - 1], ds[|ds| - 1];
      UpsertAllDistinct(key, before);
      UpsertAt(key, before, d, |before|);
    }
  }

  /** The list shrinks exactly when it had a duplicate, and is untouched otherwise. */
  lemma UpsertAllShrinks<T, K>(key: T -> K, ds: seq<T>)
    ensures |UpsertAll(key, ds)| == |ds| <==> Distinct(key, ds)
    ensures |UpsertAll(key, ds)| == |ds| ==> UpsertAll(key, ds) == ds
  {
    UpsertAllSize(key, ds);
    if |UpsertAll(key, ds)| == |ds| {
      UpsertAllExact(key, ds);
    }
    if Distinct(key, ds) {
      UpsertAllDistinct(key, ds);
    }
  }
}
