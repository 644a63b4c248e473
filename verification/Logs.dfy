/**
 * What can be observed of a node: the commands its relay tasks give the engine, the link data its
 * router handles and the datagrams its tasks write to UDP sockets, each tagged with the task.
 */
module Logs {
  import opened Basics
  import opened Framing

  type LinkId = nat
  type TaskId = nat
  type Addr = nat

  /** One `SendToLink` command. */
  datatype Sent = Sent(task: TaskId, link: LinkId, chunk: Chunk)

  /** One `LinkData` event and the task whose channel took the chunk, if any did. */
  datatype Arrival = Arrival(link: LinkId, chunk: Chunk, to: Option<TaskId>)

  /** One datagram written to a UDP socket. */
  datatype Write = Write(task: TaskId, dst: Addr, datagram: Datagram)

  /** One datagram read from a UDP socket by a task. */
  datatype Read = Read(task: TaskId, datagram: Datagram)

  function IssuedBy(wire: seq<Sent>, t: TaskId): seq<Chunk> {
    if wire == [] then []
    else
      var e := wire[|wire| - 1];
      IssuedBy(wire[..|wire| - 1], t) + if e.task == t then [e.chunk] else []
  }

  function SentOn(wire: seq<Sent>, l: LinkId): seq<Chunk> {
    if wire == [] then []
    else
      var e := wire[|wire| - 1];
      SentOn(wire[..|wire| - 1], l) + if e.link == l then [e.chunk] else []
  }

  function ArrivedOn(arrivals: seq<Arrival>, l: LinkId): seq<Chunk> {
    if arrivals == [] then []
    else
      var e := arrivals[|arrivals| - 1];
      ArrivedOn(arrivals[..|arrivals| - 1], l) + if e.link == l then [e.chunk] else []
  }

  function HandedTo(arrivals: seq<Arrival>, t: TaskId): seq<Chunk> {
    if arrivals == [] then []
    else
      var e := arrivals[|arrivals| - 1];
      HandedTo(arrivals[..|arrivals| - 1], t) + if e.to == Some(t) then [e.chunk] else []
  }

  function WrittenBy(writes: seq<Write>, t: TaskId): seq<Datagram> {
    if writes == [] then []
    else
      var e := writes[|writes| - 1];
      WrittenBy(writes[..|writes| - 1], t) + if e.task == t then [e.datagram] else []
  }

  function ReadBy(log: seq<Read>, t: TaskId): seq<Datagram> {
    if log == [] then []
    else
      var e := log[|log| - 1];
      ReadBy(log[..|log| - 1], t) + if e.task == t then [e.datagram] else []
  }

  /** `log'` is `log`, or `log` with one entry that satisfies `ok`. */
  ghost predicate AtMostOneMore<E(!new)>(log: seq<E>, log': seq<E>, ok: E -> bool) {
    log' == log || (|log'| == |log| + 1 && log' == log + [log'[|log|]] && ok(log'[|log|]))
  }

  lemma SentSnoc(wire: seq<Sent>, e: Sent, t: nat)
    ensures IssuedBy(wire + [e], t) == IssuedBy(wire, t) + if e.task == t then [e.chunk] else []
    ensures SentOn(wire + [e], t) == SentOn(wire, t) + if e.link == t then [e.chunk] else []
  {
    assert (wire + [e])[..|wire|] == wire;
  }

  lemma ArrivalSnoc(arrivals: seq<Arrival>, e: Arrival, t: nat)
    ensures HandedTo(arrivals + [e], t) == HandedTo(arrivals, t) + if e.to == Some(t) then [e.chunk] else []
    ensures ArrivedOn(arrivals + [e], t) == ArrivedOn(arrivals, t) + if e.link == t then [e.chunk] else []
  {
    assert (arrivals + [e])[..|arrivals|] == arrivals;
  }

  lemma WriteSnoc(writes: seq<Write>, e: Write, t: TaskId)
    ensures WrittenBy(writes + [e], t) == WrittenBy(writes, t) + if e.task == t then [e.datagram] else []
  {
    assert (writes + [e])[..|writes|] == writes;
  }

  lemma ReadSnoc(log: seq<Read>, e: Read, t: TaskId)
    ensures ReadBy(log + [e], t) == ReadBy(log, t) + if e.task == t then [e.datagram] else []
  {
    assert (log + [e])[..|log|] == log;
  }

  /** A task that appears in no log has done nothing. */
  lemma {:induction false} NothingIssued(wire: seq<Sent>, t: TaskId)
    requires forall i :: 0 <= i < |wire| ==> wire[i].task != t
    ensures IssuedBy(wire, t) == []
  {
    if wire != [] {
      NothingIssued(wire[..|wire| - 1], t);
    }
  }

  lemma {:induction false} NothingHanded(arrivals: seq<Arrival>, t: TaskId)
    requires forall i :: 0 <= i < |arrivals| ==> arrivals[i].to != Some(t)
    ensures HandedTo(arrivals, t) == []
  {
    if arrivals != [] {
      NothingHanded(arrivals[..|arrivals| - 1], t);
    }
  }

  lemma {:induction false} NothingWritten(writes: seq<Write>, t: TaskId)
    requires forall i :: 0 <= i < |writes| ==> writes[i].task != t
    ensures WrittenBy(writes, t) == []
  {
    if writes != [] {
      NothingWritten(writes[..|writes| - 1], t);
    }
  }

  lemma {:induction false} NothingRead(log: seq<Read>, t: TaskId)
    requires forall i :: 0 <= i < |log| ==> log[i].task != t
    ensures ReadBy(log, t) == []
  {
    if log != [] {
      NothingRead(log[..|log| - 1], t);
    }
  }

  lemma {:induction false} ReadSizes(log: seq<Read>, t: TaskId, max: nat)
    requires forall i :: 0 <= i < |log| ==> |log[i].datagram| <= max
    ensures forall d :: d in ReadBy(log, t) ==> |d| <= max
  {
    if log != [] {
      ReadSizes(log[..|log| - 1], t, max);
    }
  }

  /** If everything a task was handed came over link `l`, it was handed some of what `l` brought. */
  lemma {:induction false} HandedIsFiltered(arrivals: seq<Arrival>, t: TaskId, l: LinkId) returns (keep: seq<bool>)
    requires forall i :: 0 <= i < |arrivals| && arrivals[i].to == Some(t) ==> arrivals[i].link == l
    ensures |keep| == |ArrivedOn(arrivals, l)|
    ensures HandedTo(arrivals, t) == Filter(ArrivedOn(arrivals, l), keep)
  {
    keep := [];
    if arrivals != [] {
      var n := |arrivals| - 1;
      var e := arrivals[n];
      keep := HandedIsFiltered(arrivals[..n], t, l);
      var before, k := ArrivedOn(arrivals[..n], l), e.to == Some(t);
      if e.link == l {
        assert Filter(before + [e.chunk], keep + [k]) == Filter(before, keep) + if k then [e.chunk] else [] by {
          assert (before + [e.chunk])[..|before|] == before && (keep + [k])[..|keep|] == keep;
        }
        keep := keep + [k];
      } else {
        assert before + [] == before && HandedTo(arrivals[..n], t) + [] == HandedTo(arrivals[..n], t);
      }
    }
  }

  /** If a task is the only one to use link `l`, and uses no other, the link carries what it issued. */
  lemma {:induction false} SoleUser(wire: seq<Sent>, t: TaskId, l: LinkId)
    requires forall i :: 0 <= i < |wire| ==> (wire[i].task == t <==> wire[i].link == l)
    ensures SentOn(wire, l) == IssuedBy(wire, t)
  {
    if wire != [] {
      SoleUser(wire[..|wire| - 1], t, l);
    }
  }

  lemma HandedIsSome(arrivals: seq<Arrival>, t: TaskId, l: LinkId)
    requires forall i :: 0 <= i < |arrivals| && arrivals[i].to == Some(t) ==> arrivals[i].link == l
    ensures Subsequence(HandedTo(arrivals, t), ArrivedOn(arrivals, l))
  {
    var keep := HandedIsFiltered(arrivals, t, l);
  }

  /** Leaving chunks out of a list without empty ones makes no empty one. */
  lemma NoneEmptyInPart(a: seq<Chunk>, b: seq<Chunk>)
    requires Subsequence(a, b) && NoEmptyChunk(b)
    ensures NoEmptyChunk(a)
  {
    SubsequenceMembers(a, b);
    forall i | 0 <= i < |a| ensures a[i] != [] {
      assert a[i] in b;
    }
  }

  lemma EmptyNotHanded(arrivals: seq<Arrival>, t: TaskId, l: LinkId)
    requires forall i :: 0 <= i < |arrivals| && arrivals[i].to == Some(t) ==> arrivals[i].link == l
    requires NoEmptyChunk(ArrivedOn(arrivals, l))
    ensures NoEmptyChunk(HandedTo(arrivals, t))
  {
    HandedIsSome(arrivals, t, l);
    NoneEmptyInPart(HandedTo(arrivals, t), ArrivedOn(arrivals, l));
  }
}
