/** What holds in every reachable state of the bridge client. */
module ClientSafety {
  import opened Basics
  import opened Framing
  import opened Intake
  import opened Logs
  import opened ClientRelay
  import opened ClientInvariant
  import opened ClientPackets

  /** The datagrams a task has framed so far, p0 first. */
  function FramedBy(s: State, t: TaskId): seq<Datagram>
    requires t < |s.tasks| && forall i :: 0 <= i < |s.tasks[t].framed| ==> s.tasks[t].framed[i] < |s.recvd|
  {
    Payloads(s.recvd, s.tasks[t].framed)
  }

  /**
   * Packets towards the server, in every reachable state. A task frames, in the order of arrival
   * and starting with p0, packets that came from its own source; what it has issued is the start of
   * their framing, so no two datagrams interleave; its link carries that and nothing else; and of
   * the packets meant for it none is lost inside the client (`Accounted`).
   */
  lemma Upstream(s: State, t: TaskId)
    requires Reachable(s) && t < |s.tasks|
    ensures Increasing(s.tasks[t].framed)
    ensures forall i :: 0 <= i < |s.tasks[t].framed| ==>
      s.tasks[t].framed[i] < |s.recvd| && s.recvd[s.tasks[t].framed[i]].src == s.tasks[t].src
    ensures s.tasks[t].framed != [] ==> s.tasks[t].framed[0] == s.tasks[t].first
    ensures IssuedBy(s.wire, t) <= Stream(FramedBy(s, t))
    ensures s.tasks[t].toIssue == [] ==> IssuedBy(s.wire, t) == Stream(FramedBy(s, t))
    ensures s.tasks[t].link.Some? ==> SentOn(s.wire, s.tasks[t].link.value) == IssuedBy(s.wire, t)
    ensures |s.tasks[t].inbox| <= CAPACITY
    ensures forall i :: 0 <= i < |s.recvd| && s.recvd[i].to == Some(t) ==> Accounted(s, t, i)
  {
    ReachableInv(s);
    NothingLostWhereReachable(s);
    assert UpAt(s, t);
    var y := s.tasks[t];
    assert forall i :: 0 <= i < |y.framed| ==> (y.framed + y.inbox)[i] == y.framed[i];
    assert forall i :: 0 <= i < |y.framed| ==>
      s.recvd[y.framed[i]].to == Some(t) && s.recvd[y.framed[i]].src == y.src;
    if y.link.Some? {
      assert forall i :: 0 <= i < |s.wire| ==> (s.wire[i].task == t <==> s.wire[i].link == y.link.value) by {
        WireByLink(s, t);
      }
      SoleUser(s.wire, t, y.link.value);
    }
  }

  lemma WireByLink(s: State, t: TaskId)
    requires Shape(s) && t < |s.tasks| && s.tasks[t].link.Some?
    ensures forall i :: 0 <= i < |s.wire| ==>
      (s.wire[i].task == t <==> s.wire[i].link == s.tasks[t].link.value)
  {
    forall i | 0 <= i < |s.wire|
      ensures s.wire[i].task == t <==> s.wire[i].link == s.tasks[t].link.value
    {
      var u := s.wire[i].task;
      assert u < |s.tasks| && s.tasks[u].link == Some(s.wire[i].link);
      if u < t {
        assert s.tasks[u].link != s.tasks[t].link;
      } else if t < u {
        assert s.tasks[t].link != s.tasks[u].link;
      }
    }
  }

  /** No received packet is framed by two tasks, however many race for its source. */
  lemma PacketsNotShared(s: State, t: TaskId, u: TaskId, i: nat, j: nat)
    requires Reachable(s) && t < |s.tasks| && u < |s.tasks| && t != u
    requires i < |s.tasks[t].framed| && j < |s.tasks[u].framed|
    ensures s.tasks[t].framed[i] != s.tasks[u].framed[j]
  {
    ReachableInv(s);
    assert UpAt(s, t) && UpAt(s, u);
    assert s.recvd[s.tasks[t].framed[i]].to == Some(t) && s.recvd[s.tasks[u].framed[j]].to == Some(u);
  }

  /**
   * Packets from the server, in every reachable state. Everything written back by a task goes to
   * the source it was opened for, and is the reassembly of chunks that arrived on its own link, less
   * the last datagram if sending that failed.
   */
  lemma Downstream(s: State, t: TaskId)
    requires Reachable(s) && t < |s.tasks|
    ensures |s.tasks[t].q.queue| <= CAPACITY
    ensures forall i :: 0 <= i < |s.sentBack| && s.sentBack[i].task == t ==> s.sentBack[i].dst == s.tasks[t].src
    ensures forall i :: 0 <= i < |s.arrivals| && s.arrivals[i].to == Some(t) ==>
      s.tasks[t].link == Some(s.arrivals[i].link)
    ensures WrittenBy(s.sentBack, t) == SentOut(s.tasks[t].q) <= Feed(s.tasks[t].q.taken).out
    ensures !s.tasks[t].q.failed ==> WrittenBy(s.sentBack, t) == Feed(s.tasks[t].q.taken).out
    ensures s.tasks[t].q.taken <= HandedTo(s.arrivals, t)
  {
    ReachableInv(s);
    assert DownAt(s, t);
    SentOutStarts(s.tasks[t].q);
  }

  lemma TakenFromStream(s: State, t: TaskId, chunks: seq<Chunk>, ds: seq<Datagram>)
    requires Reachable(s) && t < |s.tasks| && s.tasks[t].link.Some? && chunks <= s.tasks[t].q.taken
    requires Subsequence(ArrivedOn(s.arrivals, s.tasks[t].link.value), Stream(ds))
    ensures Subsequence(chunks, Stream(ds))
  {
    Downstream(s, t);
    var handed, arrived := HandedTo(s.arrivals, t), ArrivedOn(s.arrivals, s.tasks[t].link.value);
    HandedIsSome(s.arrivals, t, s.tasks[t].link.value);
    PrefixIsSubsequence(chunks, handed);
    SubsequenceTransitive(chunks, handed, arrived);
    SubsequenceTransitive(chunks, arrived, Stream(ds));
  }

  /**
   * What a task sends back is a lossy image of what its link's peer framed, if the link brings some
   * of the chunks sent on it, in order.
   */
  lemma OutputIsLossy(s: State, t: TaskId, ds: seq<Datagram>)
    requires Reachable(s) && t < |s.tasks| && s.tasks[t].link.Some?
    requires Subsequence(ArrivedOn(s.arrivals, s.tasks[t].link.value), Stream(ds))
    ensures LossyImage(ds, WrittenBy(s.sentBack, t))
  {
    Downstream(s, t);
    var chunks := SentChunks(s.tasks[t].q);
    TakenFromStream(s, t, chunks, ds);
    IntakeIsLossy(chunks, ds);
  }

  /** The guard bound at a task, as at a relay of the server. */
  lemma BufferAtTask(s: State, t: TaskId, ds: seq<Datagram>) returns (keep: seq<bool>)
    requires Reachable(s) && t < |s.tasks| && s.tasks[t].link.Some?
    requires Subsequence(ArrivedOn(s.arrivals, s.tasks[t].link.value), Stream(ds))
    requires forall d :: d in ds ==> |d| <= UDP_READ_BUF
    ensures |keep| == |Stream(ds)| && Delivered(ds, keep) == Feed(s.tasks[t].q.taken)
    ensures Delivered(ds, keep).buf == s.tasks[t].q.buf
    ensures WithinBound(s.tasks[t].q.buf, ds, keep)
  {
    ReachableInv(s);
    assert DownAt(s, t);
    TakenFromStream(s, t, s.tasks[t].q.taken, ds);
    keep := BufferBound(s.tasks[t].q.taken, ds);
  }
}
