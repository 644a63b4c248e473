/**
 * The chunk framing of src/framing.rs: `Frame` cuts a datagram into chunks with a one-bit
 * "final" header, `Reassembler` puts the chunks of one link direction together again.
 */
module Framing {
  import opened Basics

  type Chunk = seq<byte>
  type Datagram = seq<byte>

  const MAX_CHUNK := 1900
  const MAX_DATAGRAM := 65535
  const FLAG_FINAL: byte := 1

  /** Bit 0 of the header byte. An empty chunk has no header. */
  predicate IsFinal(chunk: Chunk) {
    chunk != [] && chunk[0] % 2 == 1
  }

  function Body(chunk: Chunk): seq<byte> {
    if chunk == [] then [] else chunk[1..]
  }

  // ------------------------------------------------------------------ framing

  /** The chunks of one datagram; `Frame` computes them. */
  function Chunks(d: Datagram): (cs: seq<Chunk>)
    ensures |cs| > 0
    decreases |d|
  {
    if |d| <= MAX_CHUNK then [[FLAG_FINAL] + d]
    else [[0 as byte] + d[..MAX_CHUNK]] + Chunks(d[MAX_CHUNK..])
  }

  method Frame(datagram: Datagram) returns (out: seq<Chunk>)
    ensures out == Chunks(datagram)
  {
    if |datagram| == 0 {
      assert [FLAG_FINAL] + datagram == [FLAG_FINAL];
      return [[FLAG_FINAL]];
    }
    out := [];
    var offset := 0;
    while offset < |datagram|
      invariant 0 <= offset <= |datagram|
      invariant offset < |datagram| ==> out + Chunks(datagram[offset..]) == Chunks(datagram)
      invariant offset == |datagram| ==> out == Chunks(datagram)
    {
      var end := if offset + MAX_CHUNK < |datagram| then offset + MAX_CHUNK else |datagram|;
      var isFinal := end == |datagram|;
      var chunk: Chunk := [if isFinal then FLAG_FINAL else 0];
      chunk := chunk + datagram[offset..end];
      ghost var rest := datagram[offset..];
      assert rest[..end - offset] == datagram[offset..end] && rest[end - offset..] == datagram[end..];
      if isFinal {
        assert rest == datagram[offset..end] && chunk == [FLAG_FINAL] + rest;
      } else {
        assert chunk == [0 as byte] + rest[..MAX_CHUNK];
      }
      out := out + [chunk];
      offset := end;
    }
  }

  function Bodies(cs: seq<Chunk>): seq<byte> {
    if cs == [] then [] else Bodies(cs[..|cs| - 1]) + Body(cs[|cs| - 1])
  }

  lemma {:induction false} BodiesAppend(a: seq<Chunk>, b: seq<Chunk>)
    ensures Bodies(a + b) == Bodies(a) + Bodies(b)
  {
    if b == [] {
      assert a + b == a;
    } else {
      var before := b[..|b| - 1];
      AppendInit(a, b);
      BodiesAppend(a, before);
      Associative(Bodies(a), Bodies(before), Body(b[|b| - 1]));
    }
  }

  /**
   * What the wire format asks of the chunks of a datagram, without saying how they are made: a
   * header of 1 on the last chunk and 0 elsewhere, full chunks before the last one, and a last
   * chunk that is empty only if it is the only one.
   */
  ghost predicate WellHeaded(cs: seq<Chunk>) {
    && cs != []
    && (forall i :: 0 <= i < |cs| ==> 1 <= |cs[i]| <= MAX_CHUNK + 1)
    && (forall i :: 0 <= i < |cs| ==> cs[i][0] == if i == |cs| - 1 then FLAG_FINAL else 0)
    && (forall i :: 0 <= i < |cs| - 1 ==> |cs[i]| == MAX_CHUNK + 1)
    && (|cs| > 1 ==> |cs[|cs| - 1]| > 1)
  }

  /** And the bodies spell the datagram. */
  ghost predicate WellFramed(d: Datagram, cs: seq<Chunk>) {
    WellHeaded(cs) && Bodies(cs) == d
  }

  lemma BodiesCons(c: Chunk, rest: seq<Chunk>)
    ensures Bodies([c] + rest) == Body(c) + Bodies(rest)
  {
    BodiesAppend([c], rest);
    assert [c][..0] == [];
  }

  lemma WellHeadedTail(h: Chunk, tail: seq<Chunk>)
    requires tail != [] && WellHeaded([h] + tail)
    ensures WellHeaded(tail)
  {
    var cs := [h] + tail;
    assert forall i :: 0 <= i < |tail| ==> tail[i] == cs[i + 1];
  }

  lemma WellHeadedCons(h: Chunk, tail: seq<Chunk>)
    requires |h| == MAX_CHUNK + 1 && h[0] == 0 && WellHeaded(tail) && |tail[|tail| - 1]| > 1
    ensures WellHeaded([h] + tail)
  {
    var cs := [h] + tail;
    assert forall i :: 0 < i < |cs| ==> cs[i] == tail[i - 1];
  }

  lemma OneBody(c: Chunk)
    ensures Bodies([c]) == Body(c)
  {
    BodiesCons(c, []);
    assert [c] + [] == [c];
  }

  /** The wire format has exactly one chunk list for each datagram, and `Frame` makes it. */
  lemma {:induction false} FrameExact(d: Datagram, cs: seq<Chunk>)
    ensures WellFramed(d, cs) <==> cs == Chunks(d)
    decreases |d|
  {
    ChunksWellFramed(d);
    if WellFramed(d, cs) {
      var h, tail := cs[0], cs[1..];
      assert cs == [h] + tail;
      if tail == [] {
        OneChunk(d, h);
      } else {
        var d' := LongSplit(d, h, tail);
        FrameExact(d', tail);
      }
    }
  }

  lemma OneChunk(d: Datagram, h: Chunk)
    requires WellFramed(d, [h] + [])
    ensures |d| <= MAX_CHUNK && h == [FLAG_FINAL] + d
  {
    assert [h] + [] == [h];
    OneBody(h);
    assert [h][0] == h && h == [h[0]] + h[1..];
  }

  lemma LongSplit(d: Datagram, h: Chunk, tail: seq<Chunk>) returns (d': Datagram)
    requires tail != [] && WellFramed(d, [h] + tail)
    ensures |d| > MAX_CHUNK && d' == d[MAX_CHUNK..] && h == [0 as byte] + d[..MAX_CHUNK]
    ensures WellFramed(d', tail)
  {
    var cs := [h] + tail;
    assert cs[0] == h && cs[|cs| - 1] == tail[|tail| - 1];
    d' := Bodies(tail);
    BodiesCons(h, tail);
    BodiesAppend(tail[..|tail| - 1], [tail[|tail| - 1]]);
    assert |d'| > 0;
    WellHeadedTail(h, tail);
    assert h == [h[0]] + h[1..] && d == h[1..] + d';
  }

  lemma {:induction false} ChunksWellFramed(d: Datagram)
    ensures WellFramed(d, Chunks(d))
    decreases |d|
  {
    if |d| <= MAX_CHUNK {
      var c := [FLAG_FINAL] + d;
      OneBody(c);
      assert c[1..] == d;
    } else {
      var h, d' := [0 as byte] + d[..MAX_CHUNK], d[MAX_CHUNK..];
      var tail := Chunks(d');
      ChunksWellFramed(d');
      if |tail| == 1 {
        OneBody(tail[0]);
        assert tail == [tail[0]];
      }
      WellHeadedCons(h, tail);
      BodiesCons(h, tail);
      assert h[1..] + d' == d;
    }
  }

  /** A read of 8192 bytes makes at most ceil(8192/1900) = 5 chunks. */
  lemma {:induction false} ChunkCount(d: Datagram)
    ensures |Chunks(d)| == if d == [] then 1 else (|d| + MAX_CHUNK - 1) / MAX_CHUNK
    decreases |d|
  {
    if |d| > MAX_CHUNK {
      ChunkCount(d[MAX_CHUNK..]);
    }
  }

  /** The chunk stream of a list of datagrams. */
  function Stream(ds: seq<Datagram>): seq<Chunk> {
    if ds == [] then [] else Stream(ds[..|ds| - 1]) + Chunks(ds[|ds| - 1])
  }

  lemma {:induction false} StreamAppend(a: seq<Datagram>, b: seq<Datagram>)
    ensures Stream(a + b) == Stream(a) + Stream(b)
  {
    if b == [] {
      assert a + b == a;
    } else {
      var before := b[..|b| - 1];
      AppendInit(a, b);
      StreamAppend(a, before);
      Associative(Stream(a), Stream(before), Chunks(b[|b| - 1]));
    }
  }

  lemma StreamSnoc(ds: seq<Datagram>, d: Datagram)
    ensures Stream(ds + [d]) == Stream(ds) + Chunks(d)
  {
    assert (ds + [d])[..|ds|] == ds;
  }

  /** The position in the stream of the first chunk of datagram `k`. */
  function StartOf(ds: seq<Datagram>, k: nat): nat
    requires k <= |ds|
  {
    |Stream(ds[..k])|
  }

  predicate NoEmptyChunk(cs: seq<Chunk>) {
    forall i :: 0 <= i < |cs| ==> cs[i] != []
  }

  lemma {:induction false} StreamHasNoEmptyChunk(ds: seq<Datagram>)
    ensures NoEmptyChunk(Stream(ds))
  {
    if ds != [] {
      StreamHasNoEmptyChunk(ds[..|ds| - 1]);
      ChunksWellFramed(ds[|ds| - 1]);
    }
  }

  /** No framing is a proper prefix of another: the chunks delimit themselves. */
  lemma {:induction false} ChunksPrefixFree(x: Datagram, y: Datagram, s: seq<Chunk>, t: seq<Chunk>)
    requires Chunks(x) + s == Chunks(y) + t
    ensures x == y && s == t
    decreases |x|
  {
    assert (Chunks(x) + s)[0] == Chunks(x)[0] && (Chunks(y) + t)[0] == Chunks(y)[0];
    assert Chunks(x)[0][1..] == Chunks(y)[0][1..];
    assert Chunks(x)[0][0] == Chunks(y)[0][0];
    if |x| <= MAX_CHUNK {
      assert Chunks(x)[0][1..] == x && Chunks(y)[0][1..] == y;
      assert s == (Chunks(x) + s)[1..] && t == (Chunks(y) + t)[1..];
    } else {
      var x', y' := x[MAX_CHUNK..], y[MAX_CHUNK..];
      assert (Chunks(x) + s)[1..] == Chunks(x') + s;
      assert (Chunks(y) + t)[1..] == Chunks(y') + t;
      ChunksPrefixFree(x', y', s, t);
      assert x == x[..MAX_CHUNK] + x' && y == y[..MAX_CHUNK] + y';
    }
  }

  /** Two datagram lists with the same chunk stream are the same list. */
  lemma {:induction false} StreamInjective(a: seq<Datagram>, b: seq<Datagram>)
    requires Stream(a) == Stream(b)
    ensures a == b
  {
    if a != [] && b != [] {
      assert a == [a[0]] + a[1..] && b == [b[0]] + b[1..];
      StreamAppend([a[0]], a[1..]);
      StreamAppend([b[0]], b[1..]);
      StreamSnoc([], a[0]);
      StreamSnoc([], b[0]);
      assert [] + [a[0]] == [a[0]] && [] + [b[0]] == [b[0]];
      assert Stream([a[0]]) == Chunks(a[0]) && Stream([b[0]]) == Chunks(b[0]);
      ChunksPrefixFree(a[0], b[0], Stream(a[1..]), Stream(b[1..]));
      StreamInjective(a[1..], b[1..]);
    }
  }

  // --------------------------------------------------------------- reassembly

  datatype Pushed = Pushed(buf: seq<byte>, complete: Option<Datagram>)

  /** The effect of one `Reassembler.Push` on the buffer, and its result. */
  function PushSpec(buf: seq<byte>, chunk: Chunk): Pushed {
    var all := buf + Body(chunk);
    if !IsFinal(chunk) then Pushed(all, None)
    else Pushed([], if |all| <= MAX_DATAGRAM then Some(all) else None)
  }

  class Reassembler {
    var buf: seq<byte>

    constructor ()
      ensures buf == []
    {
      buf := [];
    }

    method Push(chunk: Chunk) returns (r: Option<Datagram>)
      modifies this
      ensures Pushed(buf, r) == PushSpec(old(buf), chunk)
    {
      if |chunk| == 0 {
        return None;
      }
      var header := chunk[0];
      var body := chunk[1..];
      buf := buf + body;
      if header % 2 == FLAG_FINAL {
        var complete := buf;
        buf := [];
        if |complete| > 65535 {
          buf := [];
          return None;
        }
        return Some(complete);
      } else {
        return None;
      }
    }

    method Reset()
      modifies this
      ensures buf == []
    {
      buf := [];
    }
  }

  /** The state of one reassembler together with everything it has returned. */
  datatype Reassembly = Reassembly(buf: seq<byte>, out: seq<Datagram>)

  const FRESH := Reassembly([], [])

  function PushOnto(r: Reassembly, chunk: Chunk): Reassembly {
    var p := PushSpec(r.buf, chunk);
    Reassembly(p.buf, r.out + p.complete.ToSeq())
  }

  function FeedFrom(r: Reassembly, cs: seq<Chunk>): Reassembly {
    if cs == [] then r else PushOnto(FeedFrom(r, cs[..|cs| - 1]), cs[|cs| - 1])
  }

  /** A fresh reassembler after the chunks `cs`. */
  function Feed(cs: seq<Chunk>): Reassembly {
    FeedFrom(FRESH, cs)
  }

  lemma {:induction false} FeedAppend(r: Reassembly, a: seq<Chunk>, b: seq<Chunk>)
    ensures FeedFrom(r, a + b) == FeedFrom(FeedFrom(r, a), b)
  {
    if b == [] {
      assert a + b == a;
    } else {
      AppendInit(a, b);
      FeedAppend(r, a, b[..|b| - 1]);
    }
  }

  lemma FeedSnoc(r: Reassembly, cs: seq<Chunk>, c: Chunk)
    ensures FeedFrom(r, cs + [c]) == PushOnto(FeedFrom(r, cs), c)
  {
    assert (cs + [c])[..|cs|] == cs;
  }

  /** What has been returned is never taken back. */
  lemma {:induction false} FeedGrows(r: Reassembly, cs: seq<Chunk>)
    ensures r.out <= FeedFrom(r, cs).out
  {
    if cs != [] {
      FeedGrows(r, cs[..|cs| - 1]);
    }
  }

  // ------------------------------- any chunk stream: one datagram per segment

  /** Where the chunks received since the last final chunk begin. */
  function PendingStart(cs: seq<Chunk>): (i: nat)
    ensures i <= |cs|
  {
    if cs == [] || IsFinal(cs[|cs| - 1]) then |cs| else PendingStart(cs[..|cs| - 1])
  }

  /** The bodies from just after the final chunk before `i` up to and including chunk `i`. */
  function Segment(cs: seq<Chunk>, i: nat): seq<byte>
    requires i < |cs|
  {
    Bodies(cs[PendingStart(cs[..i])..i + 1])
  }

  /** The segments that end in a final chunk and are not over 65,535 bytes, in order. */
  function Emissions(cs: seq<Chunk>): seq<Datagram> {
    if cs == [] then []
    else
      var i := |cs| - 1;
      Emissions(cs[..i])
      + if IsFinal(cs[i]) && |Segment(cs, i)| <= MAX_DATAGRAM then [Segment(cs, i)] else []
  }

  /**
   * For every chunk sequence whatever, well framed or not, the reassembler returns exactly the
   * segments between consecutive final chunks, and holds the bodies since the last one.
   */
  lemma {:induction false} ReassemblyIsSegments(cs: seq<Chunk>)
    ensures Feed(cs) == Reassembly(Bodies(cs[PendingStart(cs)..]), Emissions(cs))
  {
    if cs == [] {
      assert cs[0..] == [];
    } else {
      var i := |cs| - 1;
      ReassemblyIsSegments(cs[..i]);
      SegmentStep(cs);
      assert cs[|cs|..] == [];
    }
  }

  lemma SegmentStep(cs: seq<Chunk>)
    requires cs != []
    ensures var i := |cs| - 1; var j := PendingStart(cs[..i]);
      Segment(cs, i) == Bodies(cs[j..]) == Bodies(cs[..i][j..]) + Body(cs[i])
  {
    var i := |cs| - 1;
    var j := PendingStart(cs[..i]);
    assert cs[j..] == cs[..i][j..] + [cs[i]] && cs[j..i + 1] == cs[j..];
    BodiesAppend(cs[..i][j..], [cs[i]]);
    BodiesCons(cs[i], []);
    assert [cs[i]] + [] == [cs[i]];
  }

  // ----------------------------------------- framed streams with chunks lost

  /** The bytes of `d` that lie in chunks whose flag is set. */
  function KeptBytes(d: Datagram, keep: seq<bool>): seq<byte>
    requires |keep| == |Chunks(d)|
    decreases |d|
  {
    if |d| <= MAX_CHUNK then if keep[0] then d else []
    else (if keep[0] then d[..MAX_CHUNK] else []) + KeptBytes(d[MAX_CHUNK..], keep[1..])
  }

  /** The guard: a reassembled datagram over 65,535 bytes is thrown away. */
  function Guarded(d: Datagram): seq<Datagram> {
    if |d| <= MAX_DATAGRAM then [d] else []
  }

  /** One datagram's worth of chunks, at datagram level. */
  function DatagramStep(r: Reassembly, d: Datagram, keep: seq<bool>): Reassembly
    requires |keep| == |Chunks(d)|
  {
    var got := r.buf + KeptBytes(d, keep);
    if keep[|keep| - 1] then Reassembly([], r.out + Guarded(got)) else Reassembly(got, r.out)
  }

  /**
   * The receiver at datagram level: a datagram whose final chunk is kept comes out as the kept
   * bytes of every datagram since the previous such one, itself included.
   */
  function Delivered(ds: seq<Datagram>, keep: seq<bool>): Reassembly
    requires |keep| == |Stream(ds)|
  {
    if ds == [] then FRESH
    else
      var k := |ds| - 1;
      var n := |Stream(ds[..k])|;
      DatagramStep(Delivered(ds[..k], keep[..n]), ds[k], keep[n..])
  }

  lemma {:induction false} FeedOneDatagram(r: Reassembly, d: Datagram, keep: seq<bool>)
    requires |keep| == |Chunks(d)|
    ensures FeedFrom(r, Filter(Chunks(d), keep)) == DatagramStep(r, d, keep)
    decreases |d|
  {
    if |d| <= MAX_CHUNK {
      FeedShort(r, d, keep[0]);
      assert keep == [keep[0]];
    } else {
      DatagramStepLong(r, d, keep);
      FeedLong(r, d, keep);
      FeedOneDatagram(AfterFirst(r, d, keep[0]), d[MAX_CHUNK..], keep[1..]);
    }
  }

  /** The reassembly after the first chunk of a datagram of more than one. */
  function AfterFirst(r: Reassembly, d: Datagram, kept: bool): Reassembly
    requires |d| > MAX_CHUNK
  {
    if kept then Reassembly(r.buf + d[..MAX_CHUNK], r.out) else r
  }

  lemma FeedOne(r: Reassembly, c: Chunk, k: bool)
    ensures FeedFrom(r, Filter([c], [k])) == if k then PushOnto(r, c) else r
  {
    FilterOneMore([], [], c, k);
    assert [] + [c] == [c] && [] + [k] == [k];
    if k {
      FeedSnoc(r, [], c);
    }
  }

  lemma PushShort(r: Reassembly, d: Datagram)
    ensures PushOnto(r, [FLAG_FINAL] + d) == Reassembly([], r.out + Guarded(r.buf + d))
  {
    assert Body([FLAG_FINAL] + d) == d;
  }

  lemma FeedShort(r: Reassembly, d: Datagram, k: bool)
    requires |d| <= MAX_CHUNK
    ensures FeedFrom(r, Filter(Chunks(d), [k])) == DatagramStep(r, d, [k])
  {
    FeedOne(r, [FLAG_FINAL] + d, k);
    PushShort(r, d);
    assert r.buf + [] == r.buf;
  }

  lemma FeedLong(r: Reassembly, d: Datagram, keep: seq<bool>)
    requires |d| > MAX_CHUNK && |keep| == |Chunks(d)| == 1 + |Chunks(d[MAX_CHUNK..])|
    ensures FeedFrom(r, Filter(Chunks(d), keep))
         == FeedFrom(AfterFirst(r, d, keep[0]), Filter(Chunks(d[MAX_CHUNK..]), keep[1..]))
  {
    var h, rest := [0 as byte] + d[..MAX_CHUNK], Chunks(d[MAX_CHUNK..]);
    assert Body(h) == d[..MAX_CHUNK] && r.out + [] == r.out;
    assert PushOnto(r, h) == Reassembly(r.buf + d[..MAX_CHUNK], r.out);
    FeedFirst(r, h, rest, keep[0], keep[1..]);
    assert [h] + rest == Chunks(d) && [keep[0]] + keep[1..] == keep;
  }

  lemma DatagramStepLong(r: Reassembly, d: Datagram, keep: seq<bool>)
    requires |d| > MAX_CHUNK && |keep| == |Chunks(d)|
    ensures |keep| == 1 + |Chunks(d[MAX_CHUNK..])|
    ensures DatagramStep(r, d, keep) == DatagramStep(AfterFirst(r, d, keep[0]), d[MAX_CHUNK..], keep[1..])
  {
    var kept := if keep[0] then d[..MAX_CHUNK] else [];
    var rest := KeptBytes(d[MAX_CHUNK..], keep[1..]);
    assert (r.buf + kept) + rest == r.buf + (kept + rest);
    assert r.buf + [] == r.buf;
  }

  lemma FeedFirst(r: Reassembly, c: Chunk, rest: seq<Chunk>, k: bool, ks: seq<bool>)
    requires |rest| == |ks|
    ensures FeedFrom(r, Filter([c] + rest, [k] + ks))
         == FeedFrom(if k then PushOnto(r, c) else r, Filter(rest, ks))
  {
    FilterAppend([c], rest, [k], ks);
    var first := if k then [c] else [];
    assert Filter([c], [k]) == first by { assert [c][..0] == [] && [k][..0] == []; }
    FeedAppend(r, first, Filter(rest, ks));
    FeedSnoc(r, [], c);
    assert [] + [c] == [c];
  }

  lemma FeedNext(cs: seq<Chunk>, ks: seq<bool>, d: Datagram, own: seq<bool>)
    requires |ks| == |cs| && |own| == |Chunks(d)|
    ensures Feed(Filter(cs + Chunks(d), ks + own)) == DatagramStep(Feed(Filter(cs, ks)), d, own)
  {
    FilterAppend(cs, Chunks(d), ks, own);
    FeedAppend(FRESH, Filter(cs, ks), Filter(Chunks(d), own));
    FeedOneDatagram(Feed(Filter(cs, ks)), d, own);
  }

  /** For every list of datagrams and every pattern of lost chunks. */
  lemma {:induction false} LossyReassembly(ds: seq<Datagram>, keep: seq<bool>)
    requires |keep| == |Stream(ds)|
    ensures Feed(Filter(Stream(ds), keep)) == Delivered(ds, keep)
  {
    if ds != [] {
      var k := |ds| - 1;
      var n := |Stream(ds[..k])|;
      LossyReassembly(ds[..k], keep[..n]);
      Rejoin(keep, n);
      FeedNext(Stream(ds[..k]), keep[..n], ds[k], keep[n..]);
    }
  }

  lemma {:induction false} KeptBytesAll(d: Datagram, keep: seq<bool>)
    requires |keep| == |Chunks(d)| && forall i :: 0 <= i < |keep| ==> keep[i]
    ensures KeptBytes(d, keep) == d
    decreases |d|
  {
    if |d| > MAX_CHUNK {
      KeptBytesAll(d[MAX_CHUNK..], keep[1..]);
      assert d == d[..MAX_CHUNK] + d[MAX_CHUNK..];
    }
  }

  /** The reassembler after the first `m` chunks of the stream, some of them lost. */
  function Received(ds: seq<Datagram>, keep: seq<bool>, m: nat): Reassembly
    requires |keep| == |Stream(ds)| && m <= |keep|
  {
    Feed(Filter(Stream(ds)[..m], keep[..m]))
  }

  /**
   * Datagram `k` comes out verbatim at its own final chunk whenever all its chunks are kept, it is
   * at most 65,535 bytes, and nothing was kept since the last kept final chunk, here chunk `j - 1`.
   */
  lemma WholeDatagramVerbatim(ds: seq<Datagram>, keep: seq<bool>, k: nat, j: nat)
    requires |keep| == |Stream(ds)| && k < |ds| && |ds[k]| <= MAX_DATAGRAM
    requires j <= StartOf(ds, k) <= StartOf(ds, k + 1) <= |keep|
    requires forall i :: StartOf(ds, k) <= i < StartOf(ds, k + 1) ==> keep[i]
    requires forall i :: j <= i < StartOf(ds, k) ==> !keep[i]
    requires j == 0 || (keep[j - 1] && IsFinal(Stream(ds)[j - 1]))
    ensures Received(ds, keep, StartOf(ds, k + 1))
         == Reassembly([], Received(ds, keep, StartOf(ds, k)).out + [ds[k]])
  {
    var s, a, b := Stream(ds), StartOf(ds, k), StartOf(ds, k + 1);
    DatagramSlice(ds, k);
    NothingPending(s, keep, j, a);
    SlicesJoin(s, a, b);
    SlicesJoin(keep, a, b);
    FeedWhole(s[..a], keep[..a], ds[k], keep[a..b]);
  }

  lemma FeedWhole(cs: seq<Chunk>, ks: seq<bool>, d: Datagram, own: seq<bool>)
    requires |ks| == |cs| && |own| == |Chunks(d)| && forall i :: 0 <= i < |own| ==> own[i]
    requires Feed(Filter(cs, ks)).buf == []
    ensures Feed(Filter(cs + Chunks(d), ks + own)) == Reassembly([], Feed(Filter(cs, ks)).out + Guarded(d))
  {
    FeedNext(cs, ks, d, own);
    WholeStep(Feed(Filter(cs, ks)), d, own);
  }

  lemma WholeStep(r: Reassembly, d: Datagram, own: seq<bool>)
    requires r.buf == [] && |own| == |Chunks(d)| && forall i :: 0 <= i < |own| ==> own[i]
    ensures DatagramStep(r, d, own) == Reassembly([], r.out + Guarded(d))
  {
    KeptBytesAll(d, own);
    assert [] + d == d;
  }

  lemma DatagramSlice(ds: seq<Datagram>, k: nat)
    requires k < |ds|
    ensures StartOf(ds, k) <= StartOf(ds, k + 1) <= |Stream(ds)|
    ensures Stream(ds)[StartOf(ds, k)..StartOf(ds, k + 1)] == Chunks(ds[k])
  {
    var before, upTo := Stream(ds[..k]), Stream(ds[..k + 1]);
    StreamPrefix(ds, k + 1);
    assert upTo == before + Chunks(ds[k]) by {
      StreamSnoc(ds[..k], ds[k]);
      assert ds[..k] + [ds[k]] == ds[..k + 1];
    }
    assert upTo[|before|..] == Chunks(ds[k]);
  }

  lemma StreamPrefix(ds: seq<Datagram>, k: nat)
    requires k <= |ds|
    ensures Stream(ds[..k]) <= Stream(ds)
  {
    Rejoin(ds, k);
    StreamOfPart(ds[..k], ds[k..]);
  }

  lemma StreamOfPart(a: seq<Datagram>, b: seq<Datagram>)
    ensures Stream(a) <= Stream(a + b)
  {
    StreamAppend(a, b);
  }

  lemma FeedFiltered(s: seq<Chunk>, keep: seq<bool>, a: nat, b: nat)
    requires |keep| == |s| && a <= b <= |s|
    ensures Feed(Filter(s[..b], keep[..b])) == FeedFrom(Feed(Filter(s[..a], keep[..a])), Filter(s[a..b], keep[a..b]))
  {
    SlicesJoin(s, a, b);
    SlicesJoin(keep, a, b);
    FilterAppend(s[..a], s[a..b], keep[..a], keep[a..b]);
    FeedAppend(FRESH, Filter(s[..a], keep[..a]), Filter(s[a..b], keep[a..b]));
  }

  /** Just after a kept final chunk nothing is pending. */
  lemma FinalEmpties(s: seq<Chunk>, keep: seq<bool>, i: nat)
    requires |keep| == |s| && i < |s| && keep[i] && IsFinal(s[i])
    ensures Feed(Filter(s[..i + 1], keep[..i + 1])).buf == []
  {
    FilterSnoc(s, keep, i);
    FeedSnoc(FRESH, Filter(s[..i], keep[..i]), s[i]);
  }

  /** Lost chunks change nothing. */
  lemma LostAddNothing(s: seq<Chunk>, keep: seq<bool>, j: nat, a: nat)
    requires |keep| == |s| && j <= a <= |s| && forall i :: j <= i < a ==> !keep[i]
    ensures Feed(Filter(s[..a], keep[..a])) == Feed(Filter(s[..j], keep[..j]))
  {
    FeedFiltered(s, keep, j, a);
    FilterNone(s[j..a], keep[j..a]);
  }

  lemma NothingPending(s: seq<Chunk>, keep: seq<bool>, j: nat, a: nat)
    requires |keep| == |s| && j <= a <= |s| && forall i :: j <= i < a ==> !keep[i]
    requires j == 0 || (keep[j - 1] && IsFinal(s[j - 1]))
    ensures Feed(Filter(s[..a], keep[..a])).buf == []
  {
    LostAddNothing(s, keep, j, a);
    if j > 0 {
      FinalEmpties(s, keep, j - 1);
    }
  }

  lemma FilterSnoc(s: seq<Chunk>, keep: seq<bool>, i: nat)
    requires |keep| == |s| && i < |s|
    ensures Filter(s[..i + 1], keep[..i + 1]) == Filter(s[..i], keep[..i]) + if keep[i] then [s[i]] else []
  {
    assert s[..i + 1][..i] == s[..i] && keep[..i + 1][..i] == keep[..i];
  }

  /** The datagrams that pass the guard, in order. */
  function Fitting(ds: seq<Datagram>): seq<Datagram> {
    if ds == [] then [] else Fitting(ds[..|ds| - 1]) + Guarded(ds[|ds| - 1])
  }

  /** Without loss the stream comes back datagram by datagram, and nothing stays behind. */
  lemma {:induction false} StreamRoundTrip(ds: seq<Datagram>)
    ensures Feed(Stream(ds)) == Reassembly([], Fitting(ds))
  {
    if ds != [] {
      var k := |ds| - 1;
      var cs := Chunks(ds[k]);
      StreamRoundTrip(ds[..k]);
      FeedAppend(FRESH, Stream(ds[..k]), cs);
      var keep := seq(|cs|, i => true);
      FilterAll(cs, keep);
      FeedOneDatagram(Feed(Stream(ds[..k])), ds[k], keep);
      WholeStep(Feed(Stream(ds[..k])), ds[k], keep);
    }
  }

  lemma {:induction false} FittingAll(ds: seq<Datagram>)
    requires forall i :: 0 <= i < |ds| ==> |ds[i]| <= MAX_DATAGRAM
    ensures Fitting(ds) == ds
  {
    if ds != [] {
      FittingAll(ds[..|ds| - 1]);
      assert ds == ds[..|ds| - 1] + [ds[|ds| - 1]];
    }
  }

  /**
   * When every datagram fits one chunk, losing chunks loses whole datagrams and nothing else:
   * no datagram is altered or merged with another.
   */
  lemma {:induction false} SingleChunkRobust(ds: seq<Datagram>, keep: seq<bool>)
    requires |keep| == |Stream(ds)| && forall d :: d in ds ==> |d| <= MAX_CHUNK
    ensures |keep| == |ds|
    ensures Delivered(ds, keep) == Reassembly([], Filter(ds, keep))
  {
    if ds != [] {
      var before, d := ds[..|ds| - 1], ds[|ds| - 1];
      var n := |Stream(before)|;
      assert d in ds;
      SingleChunkRobust(before, keep[..n]);
      SingleChunkStep(Delivered(before, keep[..n]), d, keep[n..]);
    }
  }

  lemma SingleChunkStep(r: Reassembly, d: Datagram, own: seq<bool>)
    requires |own| == |Chunks(d)| && |d| <= MAX_CHUNK && r.buf == []
    ensures |own| == 1 && DatagramStep(r, d, own) == Reassembly([], r.out + if own[0] then [d] else [])
  {
    assert [] + d == d && r.out + [] == r.out;
  }

  // -------------------------------------------------------------- guard bound

  /** How many datagrams in a row, at the end of `ds`, lost their final chunk. */
  function LostRun(ds: seq<Datagram>, keep: seq<bool>): (n: nat)
    requires |keep| == |Stream(ds)|
  {
    if ds == [] || keep[|keep| - 1] then 0
    else 1 + LostRun(ds[..|ds| - 1], keep[..StartOf(ds, |ds| - 1)])
  }

  /** `LostRun` counts what it says: the last `n` final chunks are lost, and one more is not. */
  lemma {:induction false} LostRunExact(ds: seq<Datagram>, keep: seq<bool>, k: nat)
    requires |keep| == |Stream(ds)| && |ds| - LostRun(ds, keep) - 1 <= k < |ds|
    ensures 0 < StartOf(ds, k + 1) <= |keep|
    ensures keep[StartOf(ds, k + 1) - 1] == (k == |ds| - LostRun(ds, keep) - 1)
  {
    assert ds[..|ds|] == ds;
    if k < |ds| - 1 {
      var before := ds[..|ds| - 1];
      assert before[..k + 1] == ds[..k + 1];
      LostRunExact(before, keep[..StartOf(ds, |ds| - 1)], k);
    }
  }

  lemma {:induction false} KeptBytesBound(d: Datagram, keep: seq<bool>)
    requires |keep| == |Chunks(d)|
    ensures |KeptBytes(d, keep)| <= |d|
    ensures !keep[|keep| - 1] ==> |KeptBytes(d, keep)| <= MAX_CHUNK * (|keep| - 1)
    decreases |d|
  {
    if |d| > MAX_CHUNK {
      KeptBytesBound(d[MAX_CHUNK..], keep[1..]);
    }
  }

  /** A datagram that lost its final chunk leaves at most four full chunks behind. */
  lemma PendingStep(r: Reassembly, d: Datagram, own: seq<bool>)
    requires |own| == |Chunks(d)| && |d| <= 8192
    ensures |DatagramStep(r, d, own).buf| <= if own[|own| - 1] then 0 else |r.buf| + 7600
  {
    KeptBytesBound(d, own);
    ChunkCount(d);
  }

  lemma {:induction false} PendingBound(ds: seq<Datagram>, keep: seq<bool>)
    requires |keep| == |Stream(ds)| && forall d :: d in ds ==> |d| <= 8192
    ensures |Delivered(ds, keep).buf| <= 7600 * LostRun(ds, keep)
  {
    if ds != [] {
      var before, d := ds[..|ds| - 1], ds[|ds| - 1];
      var n := |Stream(before)|;
      var own := keep[n..];
      assert d in ds && own[|own| - 1] == keep[|keep| - 1];
      PendingBound(before, keep[..n]);
      PendingStep(Delivered(before, keep[..n]), d, own);
    }
  }

  /**
   * With reads of at most 8192 bytes, a datagram completed after `r` datagrams in a row that lost
   * their final chunk has at most 7600 r + 8192 bytes. For r <= 7 that is at most 61,392, so the
   * guard can only fire after eight of them.
   */
  lemma GuardNeedsEightLosses(ds: seq<Datagram>, keep: seq<bool>, d: Datagram, own: seq<bool>)
    requires |keep| == |Stream(ds)| && forall x :: x in ds + [d] ==> |x| <= 8192
    requires |own| == |Chunks(d)| && own[|own| - 1]
    ensures |Delivered(ds, keep).buf + KeptBytes(d, own)| <= 7600 * LostRun(ds, keep) + 8192
    ensures DatagramStep(Delivered(ds, keep), d, own).out == Delivered(ds, keep).out
         ==> LostRun(ds, keep) >= 8
  {
    assert d in ds + [d];
    assert forall x :: x in ds ==> x in ds + [d];
    PendingBound(ds, keep);
    KeptBytesBound(d, own);
  }

  /** Eight losses are enough: the bound of seven cannot be raised. */
  lemma GuardFiresAfterEight()
    ensures exists ds: seq<Datagram>, keep: seq<bool>, d: Datagram ::
      && |keep| == |Stream(ds)| && (forall x :: x in ds + [d] ==> |x| <= 8192)
      && LostRun(ds, keep) == 8
      && DatagramStep(Delivered(ds, keep), d, seq(|Chunks(d)|, i => true)).out == []
  {
    var d: Datagram := seq(8192, i => 0);
    ChunkCount(d);
    var ds, keep := EightLost(d, 8);
    var own := seq(|Chunks(d)|, i => true);
    GuardFires(Delivered(ds, keep), d, own);
  }

  lemma GuardFires(r: Reassembly, d: Datagram, own: seq<bool>)
    requires |own| == |Chunks(d)| && (forall i :: 0 <= i < |own| ==> own[i]) && |r.buf| + |d| > MAX_DATAGRAM
    ensures DatagramStep(r, d, own) == Reassembly([], r.out)
  {
    KeptBytesAll(d, own);
    assert r.out + [] == r.out;
  }

  lemma DeliveredSnoc(ds: seq<Datagram>, keep: seq<bool>, d: Datagram, own: seq<bool>)
    requires |keep| == |Stream(ds)| && |own| == |Chunks(d)|
    ensures Stream(ds + [d]) == Stream(ds) + Chunks(d)
    ensures Delivered(ds + [d], keep + own) == DatagramStep(Delivered(ds, keep), d, own)
    ensures LostRun(ds + [d], keep + own) == if own[|own| - 1] then 0 else 1 + LostRun(ds, keep)
  {
    StreamSnoc(ds, d);
    AppendParts(ds, [d]);
    AppendParts(keep, own);
  }

  lemma FinalLost(d: Datagram, own: seq<bool>)
    requires |d| == 8192 && own == [true, true, true, true, false] && |Chunks(d)| == 5
    ensures |KeptBytes(d, own)| == 7600
  {
    var d1, d2, d3, d4 := d[1900..], d[1900..][1900..], d[1900..][1900..][1900..], d[1900..][1900..][1900..][1900..];
    assert KeptBytes(d4, own[1..][1..][1..][1..]) == [];
    assert |KeptBytes(d3, own[1..][1..][1..])| == 1900;
    assert |KeptBytes(d2, own[1..][1..])| == 3800;
    assert |KeptBytes(d1, own[1..])| == 5700;
  }

  lemma {:induction false} EightLost(d: Datagram, n: nat) returns (ds: seq<Datagram>, keep: seq<bool>)
    requires |d| == 8192 && |Chunks(d)| == 5
    ensures |ds| == n && (forall x :: x in ds ==> x == d) && |keep| == |Stream(ds)|
    ensures LostRun(ds, keep) == n
    ensures |Delivered(ds, keep).buf| == 7600 * n && Delivered(ds, keep).out == []
  {
    ds, keep := [], [];
    if n > 0 {
      var own := [true, true, true, true, false];
      var ds', keep' := EightLost(d, n - 1);
      ds, keep := ds' + [d], keep' + own;
      FinalLost(d, own);
      DeliveredSnoc(ds', keep', d, own);
    }
  }
}
