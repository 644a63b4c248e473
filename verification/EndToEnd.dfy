/**
 * Both ends of the bridge put together. Of the network between them only this is assumed: a link
 * brings some of the chunks that were sent on it, in the order in which they were sent.
 */
module EndToEnd {
  import opened Basics
  import opened Framing
  import opened Intake
  import opened Logs
  import Client = ClientRelay
  import ClientSafety
  import ClientInvariant
  import Server = ServerRelay
  import ServerInvariant
  import ServerSafety
  import ServerEnds
  import ServerRuns
  import ClientRuns

  /**
   * Game client to game server. Whatever both nodes have done and the network has lost, what the
   * server's relay has written to the game server is what some loss of chunks makes of the datagrams
   * that the client's task framed for that link, all of them received, in this order, from the
   * source the link was opened for.
   */
  lemma ClientToServer(c: Client.State, v: Server.State, t: TaskId, r: TaskId)
    requires Client.Reachable(c) && Server.Reachable(v) && t < |c.tasks| && r < |v.relays|
    requires c.tasks[t].link == Some(v.relays[r].link)
    requires Subsequence(ArrivedOn(v.arrivals, v.relays[r].link), SentOn(c.wire, v.relays[r].link))
    ensures forall i :: 0 <= i < |c.tasks[t].framed| ==>
      c.tasks[t].framed[i] < |c.recvd| && c.recvd[c.tasks[t].framed[i]].src == c.tasks[t].src
    ensures LossyImage(ClientSafety.FramedBy(c, t), WrittenBy(v.toSc, r))
  {
    ClientSafety.Upstream(c, t);
    SentArrives(ArrivedOn(v.arrivals, v.relays[r].link), IssuedBy(c.wire, t), Stream(ClientSafety.FramedBy(c, t)));
    ServerSafety.OutputIsLossy(v, r, ClientSafety.FramedBy(c, t));
  }

  /**
   * From the packets that the game client sent to what the game server gets: on every link, what
   * some loss of chunks makes of the packets of the one source that the link was opened for.
   */
  lemma SourceToServer(run: Client.Path, v: Server.State, t: TaskId, r: TaskId)
    requires Client.IsRun(run) && Server.Reachable(v) && t < |run.Last().tasks| && r < |v.relays|
    requires run.Last().tasks[t].link == Some(v.relays[r].link)
    requires Subsequence(ArrivedOn(v.arrivals, v.relays[r].link), SentOn(run.Last().wire, v.relays[r].link))
    ensures LossyImage(ClientRuns.PacketsOf(run.steps, run.Last().tasks[t].src, |run.steps|), WrittenBy(v.toSc, r))
  {
    var c, l := run.Last(), v.relays[r].link;
    var ds := ClientRuns.PacketsOf(run.steps, c.tasks[t].src, |run.steps|);
    ClientSafety.Upstream(c, t);
    ClientRuns.FramedOfSource(run, |run.steps|, t);
    SomeOfStream(ClientSafety.FramedBy(c, t), ds);
    SentArrives(ArrivedOn(v.arrivals, l), IssuedBy(c.wire, t), Stream(ClientSafety.FramedBy(c, t)));
    SubsequenceTransitive(ArrivedOn(v.arrivals, l), Stream(ClientSafety.FramedBy(c, t)), Stream(ds));
    ServerSafety.OutputIsLossy(v, r, ds);
  }

  lemma SentArrives(arrived: seq<Chunk>, sent: seq<Chunk>, stream: seq<Chunk>)
    requires Subsequence(arrived, sent) && sent <= stream
    ensures Subsequence(arrived, stream)
  {
    PrefixIsSubsequence(sent, stream);
    SubsequenceTransitive(arrived, sent, stream);
  }

  /**
   * Game server to game client: what some loss of chunks makes of what the game server sent to the
   * relay of the link, and to the source of the link only. The server's engine reports no link as
   * established twice.
   */
  lemma ServerToClient(c: Client.State, run: Server.Path, t: TaskId, r: TaskId)
    requires Client.Reachable(c) && Server.IsRun(run) && ServerSafety.FreshLinks(run.steps)
    requires t < |c.tasks| && r < |run.Last().relays| && c.tasks[t].link == Some(run.Last().relays[r].link)
    requires Subsequence(ArrivedOn(c.arrivals, c.tasks[t].link.value), SentOn(run.Last().wire, c.tasks[t].link.value))
    ensures LossyImage(ServerRuns.DatagramsRead(run.steps, r, |run.steps|), WrittenBy(c.sentBack, t))
    ensures forall i :: 0 <= i < |c.sentBack| && c.sentBack[i].task == t ==> c.sentBack[i].dst == c.tasks[t].src
  {
    var v, l := run.Last(), c.tasks[t].link.value;
    RelayStream(run, r);
    SentArrives(ArrivedOn(c.arrivals, l), SentOn(v.wire, l), Stream(ServerRuns.DatagramsRead(run.steps, r, |run.steps|)));
    ClientSafety.OutputIsLossy(c, t, ServerRuns.DatagramsRead(run.steps, r, |run.steps|));
    ClientSafety.Downstream(c, t);
  }

  /** What is sent on a relay's link is the start of the framing of what the relay read. */
  lemma RelayStream(run: Server.Path, r: TaskId)
    requires Server.IsRun(run) && ServerSafety.FreshLinks(run.steps) && r < |run.Last().relays|
    ensures SentOn(run.Last().wire, run.Last().relays[r].link) <= Stream(ServerRuns.DatagramsRead(run.steps, r, |run.steps|))
  {
    var v := run.Last();
    ServerRuns.ReadIsLogged(run, r, |run.steps|);
    ServerInvariant.RunInv(run, |run.steps|);
    ServerSafety.Safety(v, r);
    ServerSafety.FreshRelays(run, |run.steps|);
    OnlyRelayOn(v, r);
    SoleUser(v.wire, r, v.relays[r].link);
  }

  lemma OnlyRelayOn(v: Server.State, r: TaskId)
    requires Server.LinksOk(v) && ServerSafety.OneRelayPerLink(v) && r < |v.relays|
    ensures forall i :: 0 <= i < |v.wire| ==> (v.wire[i].task == r <==> v.wire[i].link == v.relays[r].link)
  {
    forall i | 0 <= i < |v.wire| ensures v.wire[i].task == r <==> v.wire[i].link == v.relays[r].link {
      var q := v.wire[i].task;
      if q < r {
        assert v.relays[q].link != v.relays[r].link;
      } else if r < q {
        assert v.relays[r].link != v.relays[q].link;
      }
    }
  }

  /**
   * With packets of at most one chunk, the typical GoldSrc case, the game server receives packets
   * of that source only, unaltered and in order; some may be missing.
   */
  lemma SmallPacketsIntact(c: Client.State, v: Server.State, t: TaskId, r: TaskId)
    requires Client.Reachable(c) && Server.Reachable(v) && t < |c.tasks| && r < |v.relays|
    requires c.tasks[t].link == Some(v.relays[r].link)
    requires Subsequence(ArrivedOn(v.arrivals, v.relays[r].link), SentOn(c.wire, v.relays[r].link))
    requires forall i :: 0 <= i < |c.recvd| ==> |c.recvd[i].datagram| <= MAX_CHUNK
    ensures forall i :: 0 <= i < |c.tasks[t].framed| ==> c.tasks[t].framed[i] < |c.recvd|
    ensures Subsequence(WrittenBy(v.toSc, r), ClientSafety.FramedBy(c, t))
  {
    ClientToServer(c, v, t, r);
    LossyImageOfSmall(ClientSafety.FramedBy(c, t), WrittenBy(v.toSc, r));
  }

  /**
   * When the server's relay has stopped, for whatever reason but a failed bind or send, it has
   * processed every chunk that its channel ever took: the bridge client sends framed chunks only,
   * and none of those is the empty one that means the end.
   */
  lemma CloseLosesNothingQueued(c: Client.State, run: Server.Path, t: TaskId, r: TaskId)
    requires Client.Reachable(c) && Server.IsRun(run) && ServerEnds.Orderly(run.steps, r)
    requires t < |c.tasks| && r < |run.Last().relays| && c.tasks[t].link == Some(run.Last().relays[r].link)
    requires Subsequence(ArrivedOn(run.Last().arrivals, c.tasks[t].link.value), SentOn(c.wire, c.tasks[t].link.value))
    requires !run.Last().relays[r].open
    ensures run.Last().relays[r].q.queue == []
    ensures WrittenBy(run.Last().toSc, r) == Feed(HandedTo(run.Last().arrivals, r)).out
  {
    var l := c.tasks[t].link.value;
    ClientSafety.Upstream(c, t);
    StreamHasNoEmptyChunk(ClientSafety.FramedBy(c, t));
    SentArrives(ArrivedOn(run.Last().arrivals, l), IssuedBy(c.wire, t), Stream(ClientSafety.FramedBy(c, t)));
    NoneEmptyInPart(ArrivedOn(run.Last().arrivals, l), Stream(ClientSafety.FramedBy(c, t)));
    ServerEnds.DrainsBeforeStopping(run, r);
  }

  /**
   * The guard at the server, over both nodes: the buffer of the relay is that of some loss of chunks
   * of what the client's task framed, and holds at most 7600 bytes for each datagram in a row whose
   * final chunk it did not take; so a chunk can trip the 65,535 guard only after eight such.
   */
  lemma GuardAtServer(c: Client.State, v: Server.State, t: TaskId, r: TaskId) returns (keep: seq<bool>)
    requires Client.Reachable(c) && Server.Reachable(v) && t < |c.tasks| && r < |v.relays|
    requires c.tasks[t].link == Some(v.relays[r].link)
    requires Subsequence(ArrivedOn(v.arrivals, v.relays[r].link), SentOn(c.wire, v.relays[r].link))
    ensures forall i :: 0 <= i < |c.tasks[t].framed| ==> c.tasks[t].framed[i] < |c.recvd|
    ensures |keep| == |Stream(ClientSafety.FramedBy(c, t))|
    ensures Delivered(ClientSafety.FramedBy(c, t), keep).buf == v.relays[r].q.buf
    ensures WithinBound(v.relays[r].q.buf, ClientSafety.FramedBy(c, t), keep)
  {
    ClientSafety.Upstream(c, t);
    ClientInvariant.ReachableInv(c);
    var ds := ClientSafety.FramedBy(c, t);
    assert forall d :: d in ds ==> |d| <= UDP_READ_BUF;
    SentArrives(ArrivedOn(v.arrivals, v.relays[r].link), IssuedBy(c.wire, t), Stream(ds));
    keep := ServerSafety.BufferAtRelay(v, r, ds);
  }

  /** The guard at the client, in the other direction. */
  lemma GuardAtClient(c: Client.State, run: Server.Path, t: TaskId, r: TaskId) returns (keep: seq<bool>)
    requires Client.Reachable(c) && Server.IsRun(run) && ServerSafety.FreshLinks(run.steps)
    requires t < |c.tasks| && r < |run.Last().relays| && c.tasks[t].link == Some(run.Last().relays[r].link)
    requires Subsequence(ArrivedOn(c.arrivals, c.tasks[t].link.value), SentOn(run.Last().wire, c.tasks[t].link.value))
    ensures |keep| == |Stream(ServerRuns.DatagramsRead(run.steps, r, |run.steps|))|
    ensures Delivered(ServerRuns.DatagramsRead(run.steps, r, |run.steps|), keep).buf == c.tasks[t].q.buf
    ensures WithinBound(c.tasks[t].q.buf, ServerRuns.DatagramsRead(run.steps, r, |run.steps|), keep)
  {
    var v, l := run.Last(), c.tasks[t].link.value;
    ServerInvariant.RunInv(run, |run.steps|);
    RelayStream(run, r);
    ServerRuns.ReadIsLogged(run, r, |run.steps|);
    ReadSizes(v.fromSc, r, UDP_READ_BUF);
    SentArrives(ArrivedOn(c.arrivals, l), SentOn(v.wire, l), Stream(ServerRuns.DatagramsRead(run.steps, r, |run.steps|)));
    keep := ClientSafety.BufferAtTask(c, t, ServerRuns.DatagramsRead(run.steps, r, |run.steps|));
  }
}
