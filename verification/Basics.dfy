/** Types shared by every model: bytes, optional values and results. */
module Basics {

  newtype byte = b: int | 0 <= b < 0x100

  /** Rust's `Option`; usable with `:-` where the source writes `?`. */
  datatype Option<+T> = None | Some(value: T) {
    predicate IsFailure() {
      None?
    }

    function PropagateFailure<U>(): Option<U>
      requires None?
    {
      None
    }

    function Extract(): T
      requires Some?
    {
      value
    }

    function GetOr(default: T): T {
      if Some? then value else default
    }

    /** The option as a list of at most one element. */
    function ToSeq(): seq<T> {
      if Some? then [value] else []
    }
  }

  /** The elements of `xs` whose flag in `keep` is set, in order. */
  function Filter<T>(xs: seq<T>, keep: seq<bool>): seq<T>
    requires |xs| == |keep|
  {
    if xs == [] then []
    else Filter(xs[..|xs| - 1], keep[..|xs| - 1]) + if keep[|xs| - 1] then [xs[|xs| - 1]] else []
  }

  /** Induction over the positions of a run, apart from what a run is. */
  lemma {:induction false} Climb(holds: nat -> bool, n: nat)
    requires holds(0) && forall i: nat :: i < n && holds(i) ==> holds(i + 1)
    ensures holds(n)
  {
    if n > 0 {
      Climb(holds, n - 1);
    }
  }

  lemma Rejoin<T>(xs: seq<T>, k: nat)
    requires k <= |xs|
    ensures xs[..k] + xs[k..] == xs
  {
  }

  lemma HeadTail<T>(xs: seq<T>)
    requires xs != []
    ensures [xs[0]] + xs[1..] == xs
  {
  }

  /** Moving the first of what is left to what is done. */
  lemma FirstMoves<T>(done: seq<T>, left: seq<T>)
    requires left != []
    ensures (done + [left[0]]) + left[1..] == done + left
  {
    HeadTail(left);
    Associative(done, [left[0]], left[1..]);
  }

  lemma Associative<T>(a: seq<T>, b: seq<T>, c: seq<T>)
    ensures (a + b) + c == a + (b + c)
  {
  }

  lemma AppendInit<T>(a: seq<T>, b: seq<T>)
    requires b != []
    ensures (a + b)[..|a + b| - 1] == a + b[..|b| - 1] && (a + b)[|a + b| - 1] == b[|b| - 1]
  {
  }

  lemma AppendParts<T>(a: seq<T>, b: seq<T>)
    ensures (a + b)[..|a|] == a && (a + b)[|a|..] == b
  {
  }

  lemma SlicesJoin<T>(xs: seq<T>, a: nat, b: nat)
    requires a <= b <= |xs|
    ensures xs[..a] + xs[a..b] == xs[..b]
  {
  }

  lemma {:induction false} FilterAppend<T>(a: seq<T>, b: seq<T>, ka: seq<bool>, kb: seq<bool>)
    requires |a| == |ka| && |b| == |kb|
    ensures Filter(a + b, ka + kb) == Filter(a, ka) + Filter(b, kb)
  {
    if b == [] {
      assert a + b == a && ka + kb == ka;
    } else {
      var n := |b| - 1;
      assert (a + b)[..|a| + n] == a + b[..n] && (ka + kb)[..|a| + n] == ka + kb[..n];
      FilterAppend(a, b[..n], ka, kb[..n]);
    }
  }

  lemma {:induction false} FilterAll<T>(xs: seq<T>, keep: seq<bool>)
    requires |xs| == |keep| && forall i :: 0 <= i < |keep| ==> keep[i]
    ensures Filter(xs, keep) == xs
  {
    if xs != [] {
      FilterAll(xs[..|xs| - 1], keep[..|xs| - 1]);
    }
  }

  lemma {:induction false} FilterNone<T>(xs: seq<T>, keep: seq<bool>)
    requires |xs| == |keep| && forall i :: 0 <= i < |keep| ==> !keep[i]
    ensures Filter(xs, keep) == []
  {
    if xs != [] {
      FilterNone(xs[..|xs| - 1], keep[..|xs| - 1]);
    }
  }

  lemma {:induction false} FilterMembers<T>(xs: seq<T>, keep: seq<bool>)
    requires |xs| == |keep|
    ensures forall x :: x in Filter(xs, keep) ==> x in xs
  {
    if xs != [] {
      FilterMembers(xs[..|xs| - 1], keep[..|xs| - 1]);
    }
  }

  /** Every prefix of a filtered list is itself a filtering of the same list. */
  lemma {:induction false} PrefixOfFilter<T>(xs: seq<T>, keep: seq<bool>, p: seq<T>) returns (keep': seq<bool>)
    requires |xs| == |keep| && p <= Filter(xs, keep)
    ensures |keep'| == |xs| && Filter(xs, keep') == p
  {
    if p == Filter(xs, keep) {
      keep' := keep;
    } else {
      var n := |xs| - 1;
      var k := PrefixOfFilter(xs[..n], keep[..n], p);
      keep' := k + [false];
      assert xs == xs[..n] + [xs[n]];
      FilterAppend(xs[..n], [xs[n]], k, [false]);
    }
  }

  /** `a` is `b` with some elements left out. */
  ghost predicate Subsequence<T>(a: seq<T>, b: seq<T>) {
    exists keep: seq<bool> :: |keep| == |b| && a == Filter(b, keep)
  }

  lemma FilterOneMore<T>(xs: seq<T>, keep: seq<bool>, x: T, k: bool)
    requires |xs| == |keep|
    ensures Filter(xs + [x], keep + [k]) == Filter(xs, keep) + if k then [x] else []
  {
    assert (xs + [x])[..|xs|] == xs && (keep + [k])[..|keep|] == keep;
  }

  /** Leaving elements out twice is leaving elements out once. */
  lemma {:induction false} FilterFilter<T>(xs: seq<T>, outer: seq<bool>, inner: seq<bool>) returns (keep: seq<bool>)
    requires |outer| == |xs| && |inner| == |Filter(xs, outer)|
    ensures |keep| == |xs| && Filter(xs, keep) == Filter(Filter(xs, outer), inner)
  {
    keep := [];
    if xs != [] {
      var n := |xs| - 1;
      var before := Filter(xs[..n], outer[..n]);
      var m := |before|;
      var rest := FilterFilter(xs[..n], outer[..n], inner[..m]);
      var last := outer[n] && inner[m];
      keep := rest + [last];
      assert xs == xs[..n] + [xs[n]];
      FilterOneMore(xs[..n], rest, xs[n], last);
      if outer[n] {
        assert inner == inner[..m] + [inner[m]];
        FilterOneMore(before, inner[..m], xs[n], inner[m]);
        assert Filter(xs, outer) == before + [xs[n]];
      } else {
        assert inner[..m] == inner && Filter(xs, outer) == before;
        assert Filter(xs, keep) == Filter(xs[..n], rest);
      }
    }
  }

  lemma SubsequenceTransitive<T>(a: seq<T>, b: seq<T>, c: seq<T>)
    requires Subsequence(a, b) && Subsequence(b, c)
    ensures Subsequence(a, c)
  {
    var inner: seq<bool> :| |inner| == |b| && a == Filter(b, inner);
    var outer: seq<bool> :| |outer| == |c| && b == Filter(c, outer);
    var keep := FilterFilter(c, outer, inner);
  }

  lemma PrefixIsSubsequence<T>(a: seq<T>, b: seq<T>)
    requires a <= b
    ensures Subsequence(a, b)
  {
    var all := seq(|b|, i => true);
    FilterAll(b, all);
    var keep := PrefixOfFilter(b, all, a);
  }

  lemma SubsequenceMembers<T>(a: seq<T>, b: seq<T>)
    requires Subsequence(a, b)
    ensures forall x :: x in a ==> x in b
  {
    var keep: seq<bool> :| |keep| == |b| && a == Filter(b, keep);
    FilterMembers(b, keep);
  }
}
