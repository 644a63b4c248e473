/**
 * The receiving half of a relay in src/relay.rs: a channel of 256 chunks filled with `try_send`,
 * and a reader that takes chunks out of it and pushes them into its reassembler.
 */
module Intake {
  import opened Basics
  import opened Framing

  const CAPACITY := 256
  const UDP_READ_BUF := 8192

  /**
   * The channel, everything the reader has taken from it, the reader's reassembly buffer, and
   * whether the last datagram it completed could not be sent.
   */
  datatype Intake = Intake(queue: seq<Chunk>, taken: seq<Chunk>, buf: seq<byte>, failed: bool)

  const EMPTY := Intake([], [], [], false)

  predicate HasRoom(q: Intake) {
    |q.queue| < CAPACITY
  }

  function Enqueue(q: Intake, c: Chunk): Intake {
    q.(queue := q.queue + [c])
  }

  /** The reader receives one chunk; the second component is the datagram that it sends, if any. */
  function Take(q: Intake, sendOk: bool): (Intake, Option<Datagram>)
    requires q.queue != []
  {
    var c := q.queue[0];
    var p := PushSpec(q.buf, c);
    (Intake(q.queue[1..], q.taken + [c], p.buf, p.complete.Some? && !sendOk), if sendOk then p.complete else None)
  }

  /** What a reader has sent: the reassembly of what it took, less the last datagram if that failed. */
  function SentOut(q: Intake): seq<Datagram> {
    Feed(if q.failed && q.taken != [] then q.taken[..|q.taken| - 1] else q.taken).out
  }

  /** `q` after being handed exactly `handed`, its reader having sent exactly `out`. */
  ghost predicate Holds(q: Intake, handed: seq<Chunk>, out: seq<Datagram>) {
    && |q.queue| <= CAPACITY
    && q.taken + q.queue == handed
    && Feed(q.taken).buf == q.buf
    && SentOut(q) == out
  }

  lemma EnqueueHolds(q: Intake, handed: seq<Chunk>, out: seq<Datagram>, c: Chunk)
    requires Holds(q, handed, out) && HasRoom(q)
    ensures Holds(Enqueue(q, c), handed + [c], out)
  {
    Associative(q.taken, q.queue, [c]);
  }

  lemma TakeHolds(q: Intake, handed: seq<Chunk>, out: seq<Datagram>, sendOk: bool)
    requires Holds(q, handed, out) && q.queue != [] && !q.failed
    ensures Holds(Take(q, sendOk).0, handed, out + Take(q, sendOk).1.ToSeq())
  {
    var c := q.queue[0];
    FeedSnoc(FRESH, q.taken, c);
    AppendParts(q.taken, [c]);
    HeadTail(q.queue);
    Associative(q.taken, [c], q.queue[1..]);
    assert out + [] == out;
  }

  /** Sent datagrams are the first of those completed; all of them unless the last send failed. */
  lemma SentOutStarts(q: Intake)
    ensures SentOut(q) <= Feed(q.taken).out
    ensures !q.failed ==> SentOut(q) == Feed(q.taken).out
  {
    if q.taken != [] {
      FeedGrows(Feed(q.taken[..|q.taken| - 1]), [q.taken[|q.taken| - 1]]);
      FeedSnoc(FRESH, q.taken[..|q.taken| - 1], q.taken[|q.taken| - 1]);
      assert [] + [q.taken[|q.taken| - 1]] == [q.taken[|q.taken| - 1]];
      FeedSnoc(Feed(q.taken[..|q.taken| - 1]), [], q.taken[|q.taken| - 1]);
      assert q.taken[..|q.taken| - 1] + [q.taken[|q.taken| - 1]] == q.taken;
    }
  }

  /** The chunks whose reassembly has been sent. */
  lemma SentChunks(q: Intake) returns (chunks: seq<Chunk>)
    ensures chunks <= q.taken && SentOut(q) == Feed(chunks).out
  {
    chunks := if q.failed && q.taken != [] then q.taken[..|q.taken| - 1] else q.taken;
  }

  // ------------------------------------------------- what a lossy channel lets through

  /** `out` is what some pattern of lost chunks makes of the stream of `ds`. */
  ghost predicate LossyImage(ds: seq<Datagram>, out: seq<Datagram>) {
    exists keep: seq<bool> :: |keep| == |Stream(ds)| && Delivered(ds, keep).out == out
  }

  /** Some of the datagrams, in order, make some of the chunks. */
  lemma {:induction false} StreamOfSome(ds: seq<Datagram>, keep: seq<bool>) returns (chunks: seq<bool>)
    requires |keep| == |ds|
    ensures |chunks| == |Stream(ds)| && Filter(Stream(ds), chunks) == Stream(Filter(ds, keep))
  {
    chunks := [];
    if ds != [] {
      var n := |ds| - 1;
      var rest := StreamOfSome(ds[..n], keep[..n]);
      var last := seq(|Chunks(ds[n])|, i => keep[n]);
      chunks := rest + last;
      assert ds == ds[..n] + [ds[n]];
      StreamSnoc(ds[..n], ds[n]);
      FilterAppend(Stream(ds[..n]), Chunks(ds[n]), rest, last);
      if keep[n] {
        FilterAll(Chunks(ds[n]), last);
        StreamSnoc(Filter(ds[..n], keep[..n]), ds[n]);
      } else {
        FilterNone(Chunks(ds[n]), last);
        assert Filter(ds, keep) == Filter(ds[..n], keep[..n]);
        assert Filter(Stream(ds[..n]), rest) + [] == Filter(Stream(ds[..n]), rest);
      }
    }
  }

  lemma SomeOfStream(part: seq<Datagram>, ds: seq<Datagram>)
    requires Subsequence(part, ds)
    ensures Subsequence(Stream(part), Stream(ds))
  {
    var keep: seq<bool> :| |keep| == |ds| && part == Filter(ds, keep);
    var chunks := StreamOfSome(ds, keep);
  }

  /** If the chunks are some of the stream of `ds`, in order, their reassembly is a lossy image of `ds`. */
  lemma IntakeIsLossy(chunks: seq<Chunk>, ds: seq<Datagram>)
    requires Subsequence(chunks, Stream(ds))
    ensures LossyImage(ds, Feed(chunks).out)
  {
    var keep: seq<bool> :| |keep| == |Stream(ds)| && chunks == Filter(Stream(ds), keep);
    LossyReassembly(ds, keep);
    assert Delivered(ds, keep).out == Feed(chunks).out;
  }

  /**
   * What the guard bound says of a buffer: at most 7600 bytes for each datagram in a row whose final
   * chunk was not taken, so a chunk trips the guard only if that holds of nine, the one that it
   * completes and at least eight before it.
   */
  ghost predicate WithinBound(buf: seq<byte>, ds: seq<Datagram>, keep: seq<bool>)
    requires |keep| == |Stream(ds)|
  {
    && |buf| <= 7600 * LostRun(ds, keep)
    && forall c: Chunk :: |c| <= MAX_CHUNK + 1 && |buf| + |Body(c)| > MAX_DATAGRAM ==> LostRun(ds, keep) >= 9
  }

  /** The buffer of a reader is the one of the datagram level, and within the bound. */
  lemma BufferBound(taken: seq<Chunk>, ds: seq<Datagram>) returns (keep: seq<bool>)
    requires Subsequence(taken, Stream(ds)) && forall d :: d in ds ==> |d| <= UDP_READ_BUF
    ensures |keep| == |Stream(ds)| && taken == Filter(Stream(ds), keep)
    ensures Delivered(ds, keep) == Feed(taken) && WithinBound(Feed(taken).buf, ds, keep)
  {
    keep :| |keep| == |Stream(ds)| && taken == Filter(Stream(ds), keep);
    LossyReassembly(ds, keep);
    PendingBound(ds, keep);
  }

  /** With datagrams of at most one chunk a lossy image only lacks datagrams. */
  lemma LossyImageOfSmall(ds: seq<Datagram>, out: seq<Datagram>)
    requires LossyImage(ds, out) && forall d :: d in ds ==> |d| <= MAX_CHUNK
    ensures Subsequence(out, ds)
  {
    var keep: seq<bool> :| |keep| == |Stream(ds)| && Delivered(ds, keep).out == out;
    SingleChunkRobust(ds, keep);
  }

  // ---------------------------------------------------------------- flow bound

  datatype Op = Arrive(chunk: Chunk) | Drain

  /** One link direction at the receiver: arrivals, what `try_send` did with each, and the output. */
  datatype Line = Line(arrived: seq<Chunk>, keep: seq<bool>, q: Intake, out: seq<Datagram>)

  function LineStep(l: Line, op: Op): Line {
    match op
    case Arrive(c) =>
      if HasRoom(l.q) then Line(l.arrived + [c], l.keep + [true], Enqueue(l.q, c), l.out)
      else Line(l.arrived + [c], l.keep + [false], l.q, l.out)
    case Drain =>
      if l.q.queue == [] then l
      else var (q, sent) := Take(l.q, true); Line(l.arrived, l.keep, q, l.out + sent.ToSeq())
  }

  function LineRun(ops: seq<Op>): Line {
    if ops == [] then Line([], [], EMPTY, [])
    else LineStep(LineRun(ops[..|ops| - 1]), ops[|ops| - 1])
  }

  /**
   * In every run the queue holds at most 256 chunks, and what was taken followed by what is queued
   * is what arrived less what `try_send` refused.
   */
  lemma {:induction false} LineConserves(ops: seq<Op>)
    ensures var l := LineRun(ops);
      |l.keep| == |l.arrived| && Holds(l.q, Filter(l.arrived, l.keep), l.out) && !l.q.failed
  {
    if ops != [] {
      var l := LineRun(ops[..|ops| - 1]);
      LineConserves(ops[..|ops| - 1]);
      match ops[|ops| - 1]
      case Arrive(c) =>
        var k := HasRoom(l.q);
        assert (l.arrived + [c])[..|l.arrived|] == l.arrived && (l.keep + [k])[..|l.keep|] == l.keep;
        if k {
          EnqueueHolds(l.q, Filter(l.arrived, l.keep), l.out, c);
        }
      case Drain =>
        if l.q.queue != [] {
          TakeHolds(l.q, Filter(l.arrived, l.keep), l.out, true);
        }
    }
  }

  /** Whatever the network lost before the channel, and whatever the channel refused. */
  lemma LineIsLossy(ops: seq<Op>, ds: seq<Datagram>)
    requires Subsequence(LineRun(ops).arrived, Stream(ds))
    ensures LossyImage(ds, LineRun(ops).out)
  {
    var l := LineRun(ops);
    LineConserves(ops);
    var handed := Filter(l.arrived, l.keep);
    PrefixIsSubsequence(l.q.taken, handed);
    SubsequenceTransitive(l.q.taken, handed, l.arrived);
    SubsequenceTransitive(l.q.taken, l.arrived, Stream(ds));
    IntakeIsLossy(l.q.taken, ds);
  }

  /** How many chunks of each datagram the network brings, if it loses those not set in `net`. */
  function Sizes(ds: seq<Datagram>, net: seq<bool>): (sizes: seq<nat>)
    requires |net| == |Stream(ds)|
    ensures |sizes| == |ds|
  {
    if ds == [] then []
    else
      var k := |ds| - 1;
      var n := |Stream(ds[..k])|;
      Sizes(ds[..k], net[..n]) + [|Filter(Chunks(ds[k]), net[n..])|]
  }

  function Sum(sizes: seq<nat>): nat {
    if sizes == [] then 0 else Sum(sizes[..|sizes| - 1]) + sizes[|sizes| - 1]
  }

  predicate AtMostFive(sizes: seq<nat>) {
    forall k :: 0 <= k < |sizes| ==> sizes[k] <= 5
  }

  lemma {:induction false} FilterShrinks<T>(xs: seq<T>, keep: seq<bool>)
    requires |keep| == |xs|
    ensures |Filter(xs, keep)| <= |xs|
  {
    if xs != [] {
      FilterShrinks(xs[..|xs| - 1], keep[..|xs| - 1]);
    }
  }

  lemma {:induction false} SizesAddUp(ds: seq<Datagram>, net: seq<bool>)
    requires |net| == |Stream(ds)|
    ensures Sum(Sizes(ds, net)) == |Filter(Stream(ds), net)|
  {
    if ds != [] {
      var k := |ds| - 1;
      var n := |Stream(ds[..k])|;
      SizesAddUp(ds[..k], net[..n]);
      FilterAppend(Stream(ds[..k]), Chunks(ds[k]), net[..n], net[n..]);
      Rejoin(net, n);
    }
  }

  /** A read of at most 8192 bytes puts at most five chunks on the network. */
  lemma {:induction false} SizesBound(ds: seq<Datagram>, net: seq<bool>)
    requires |net| == |Stream(ds)| && forall i :: 0 <= i < |ds| ==> |ds[i]| <= UDP_READ_BUF
    ensures AtMostFive(Sizes(ds, net))
  {
    if ds != [] {
      var k := |ds| - 1;
      var n := |Stream(ds[..k])|;
      SizesBound(ds[..k], net[..n]);
      ChunkCount(ds[k]);
      FilterShrinks(Chunks(ds[k]), net[n..]);
    }
  }

  predicate IsUndrained(sizes: seq<nat>, k: nat, taken: nat, arrived: nat)
    requires k < |sizes|
  {
    taken < Sum(sizes[..k + 1]) && Sum(sizes[..k]) < arrived
  }

  /** The datagrams with a chunk that has arrived, as one of the first `arrived`, and is not drained. */
  function Undrained(sizes: seq<nat>, taken: nat, arrived: nat): set<nat> {
    set k: nat | k < |sizes| && IsUndrained(sizes, k, taken, arrived)
  }

  function Min(a: int, b: int): int {
    if a < b then a else b
  }

  lemma UndrainedSnoc(sizes: seq<nat>, n: nat, taken: nat, arrived: nat)
    ensures Sum(sizes + [n]) == Sum(sizes) + n
    ensures var last := taken < Sum(sizes) + n && Sum(sizes) < arrived;
      |Undrained(sizes + [n], taken, arrived)| == |Undrained(sizes, taken, arrived)| + if last then 1 else 0
  {
    var all, m := sizes + [n], |sizes|;
    assert all[..m] == sizes && all[..m + 1] == all;
    forall k: nat | k < m ensures IsUndrained(all, k, taken, arrived) == IsUndrained(sizes, k, taken, arrived) {
      assert all[..k] == sizes[..k] && all[..k + 1] == sizes[..k + 1];
    }
    var u, u' := Undrained(sizes, taken, arrived), Undrained(all, taken, arrived);
    assert u' == if IsUndrained(all, m, taken, arrived) then u + {m} else u;
  }

  lemma {:induction false} UndrainedBound(sizes: seq<nat>, taken: nat, arrived: nat)
    requires taken <= arrived && AtMostFive(sizes)
    ensures Min(arrived, Sum(sizes)) - Min(taken, Sum(sizes)) <= 5 * |Undrained(sizes, taken, arrived)|
  {
    if sizes != [] {
      var before, n := sizes[..|sizes| - 1], sizes[|sizes| - 1];
      UndrainedBound(before, taken, arrived);
      UndrainedSnoc(before, n, taken, arrived);
      assert before + [n] == sizes;
    }
  }

  /** A channel that has taken all that arrived, of at most 51 undrained datagrams, is not full. */
  lemma RoomWhenFlowing(q: Intake, arrived: seq<Chunk>, sizes: seq<nat>)
    requires q.taken + q.queue == arrived && |arrived| <= Sum(sizes) && AtMostFive(sizes)
    requires |Undrained(sizes, |q.taken|, |arrived|)| <= 51
    ensures HasRoom(q)
  {
    UndrainedBound(sizes, |q.taken|, |arrived|);
    assert |arrived| == |q.taken| + |q.queue|;
  }

  /** The reassembly of the start of what the network brings is the start of what is delivered. */
  lemma OutputSoFar(chunks: seq<Chunk>, ds: seq<Datagram>, net: seq<bool>)
    requires |net| == |Stream(ds)| && chunks <= Filter(Stream(ds), net)
    ensures Feed(chunks).out <= Delivered(ds, net).out
  {
    LossyReassembly(ds, net);
    OutputGrows(chunks, Filter(Stream(ds), net));
  }

  lemma OutputGrows(taken: seq<Chunk>, all: seq<Chunk>)
    requires taken <= all
    ensures Feed(taken).out <= Feed(all).out
  {
    var rest := all[|taken|..];
    assert all == taken + rest;
    FeedAppend(FRESH, taken, rest);
    FeedGrows(Feed(taken), rest);
  }

  /** On a network that loses nothing everything that fits is delivered. */
  lemma LosslessDelivers(ds: seq<Datagram>, net: seq<bool>)
    requires |net| == |Stream(ds)| && forall i :: 0 <= i < |net| ==> net[i]
    requires forall i :: 0 <= i < |ds| ==> |ds[i]| <= MAX_DATAGRAM
    ensures Delivered(ds, net) == Reassembly([], ds)
  {
    LossyReassembly(ds, net);
    FilterAll(Stream(ds), net);
    StreamRoundTrip(ds);
    FittingAll(ds);
  }

  /** At the moment before every operation, and at the end, at most `n` datagrams are undrained. */
  ghost predicate AtMostUndrained(ops: seq<Op>, sizes: seq<nat>, n: nat) {
    && |Undrained(sizes, |LineRun(ops).q.taken|, |LineRun(ops).arrived|)| <= n
    && (ops != [] ==> AtMostUndrained(ops[..|ops| - 1], sizes, n))
  }

  /**
   * If at every moment at most 51 datagrams have an undrained chunk, `try_send` never finds the
   * channel full: no chunk is lost but on the network, and what is written is the start of what
   * the network's losses `net` leave; on a network without loss, of the datagrams themselves.
   */
  lemma NoDropFlow(ops: seq<Op>, ds: seq<Datagram>, net: seq<bool>)
    requires |net| == |Stream(ds)| && LineRun(ops).arrived <= Filter(Stream(ds), net)
    requires forall i :: 0 <= i < |ds| ==> |ds[i]| <= UDP_READ_BUF
    requires AtMostUndrained(ops, Sizes(ds, net), 51)
    ensures forall i :: 0 <= i < |LineRun(ops).keep| ==> LineRun(ops).keep[i]
    ensures LineRun(ops).out <= Delivered(ds, net).out
    ensures (forall i :: 0 <= i < |net| ==> net[i]) ==> LineRun(ops).out <= ds
  {
    var l := LineRun(ops);
    SizesBound(ds, net);
    SizesAddUp(ds, net);
    NothingRefused(ops, Sizes(ds, net));
    LineConserves(ops);
    FilterAll(l.arrived, l.keep);
    OutputSoFar(l.q.taken, ds, net);
    if forall i :: 0 <= i < |net| ==> net[i] {
      LosslessDelivers(ds, net);
    }
  }

  lemma {:induction false} NothingRefused(ops: seq<Op>, sizes: seq<nat>)
    requires |LineRun(ops).arrived| <= Sum(sizes) && AtMostFive(sizes) && AtMostUndrained(ops, sizes, 51)
    ensures forall i :: 0 <= i < |LineRun(ops).keep| ==> LineRun(ops).keep[i]
  {
    if ops != [] {
      var before := ops[..|ops| - 1];
      var b := LineRun(before);
      NothingRefused(before, sizes);
      LineConserves(before);
      FilterAll(b.arrived, b.keep);
      RoomWhenFlowing(b.q, b.arrived, sizes);
    }
  }

  /** 51 is the largest such number: 52 datagrams of 8192 bytes can fill the channel. */
  lemma FiftyTwoCanDrop()
    ensures exists ds: seq<Datagram>, ops: seq<Op> ::
      && |ds| == 52 && (forall d :: d in ds ==> |d| <= UDP_READ_BUF)
      && LineRun(ops).arrived <= Stream(ds)
      && (exists i :: 0 <= i < |LineRun(ops).keep| && !LineRun(ops).keep[i])
  {
    var d: Datagram := seq(UDP_READ_BUF, i => 0);
    ChunkCount(d);
    var ds := Repeated(d, 52);
    var ops := ArriveOnly(Stream(ds), CAPACITY + 1);
    assert !LineRun(ops).keep[CAPACITY];
  }

  lemma {:induction false} Repeated(d: Datagram, n: nat) returns (ds: seq<Datagram>)
    requires |Chunks(d)| == 5
    ensures |ds| == n && (forall x :: x in ds ==> x == d) && |Stream(ds)| == 5 * n
  {
    ds := [];
    if n > 0 {
      var shorter := Repeated(d, n - 1);
      ds := shorter + [d];
      StreamSnoc(shorter, d);
    }
  }

  lemma {:induction false} ArriveOnly(cs: seq<Chunk>, n: nat) returns (ops: seq<Op>)
    requires n <= |cs|
    ensures |ops| == n && LineRun(ops).arrived == cs[..n] && |LineRun(ops).keep| == n
    ensures |LineRun(ops).q.queue| == Min(n, CAPACITY)
    ensures n > CAPACITY ==> !LineRun(ops).keep[CAPACITY]
  {
    ops := [];
    if n > 0 {
      var fewer := ArriveOnly(cs, n - 1);
      ops := fewer + [Arrive(cs[n - 1])];
      assert ops[..n - 1] == fewer;
    }
  }
}
