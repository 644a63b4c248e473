/** The flow bound for a relay of the bridge server. */
module ServerFlow {
  import opened Basics
  import opened Framing
  import opened Intake
  import opened Logs
  import opened ServerRelay
  import opened ServerInvariant
  import opened ServerSafety

  /** A chunk of link `l` that is routed finds the channel of relay `r` there. */
  predicate ChannelUp(s: State, step: Step, r: TaskId, l: LinkId) {
    step.Route? && s.events != [] && s.events[0].Data? && s.events[0].link == l ==>
      l in s.senders && s.senders[l] == r && r < |s.relays| && s.relays[r].open
  }

  /**
   * Over the whole run: the channel of relay `r` is there from the first arrival on `l` to the
   * last, and at most 51 datagrams have a chunk that has arrived and is not drained.
   */
  ghost predicate Flows(run: Path, n: nat, r: TaskId, l: LinkId, sizes: seq<nat>)
    requires n <= |run.steps| <= |run.states|
  {
    forall i {:trigger run.steps[i]} :: 0 <= i < n ==>
      && ChannelUp(run.states[i], run.steps[i], r, l)
      && (r < |run.states[i].relays| ==> FewUndrained(run.states[i], r, l, sizes))
  }

  predicate FewUndrained(s: State, r: TaskId, l: LinkId, sizes: seq<nat>)
    requires r < |s.relays|
  {
    |Undrained(sizes, |s.relays[r].q.taken|, |ArrivedOn(s.arrivals, l)|)| <= 51
  }

  /** Everything that has arrived on `l` went into the channel of relay `r`. */
  ghost predicate AllHanded(s: State, r: TaskId, l: LinkId) {
    && HandedTo(s.arrivals, r) == ArrivedOn(s.arrivals, l)
    && (r < |s.relays| ==> s.relays[r].link == l)
    && (r >= |s.relays| ==> ArrivedOn(s.arrivals, l) == [])
  }

  /** A reachable channel that took all that arrived has room for one more chunk. */
  lemma RoomInFlow(s: State, r: TaskId, l: LinkId, sizes: seq<nat>)
    requires Inv(s) && r < |s.relays| && AllHanded(s, r, l) && r in s.senders.Values
    requires |ArrivedOn(s.arrivals, l)| <= Sum(sizes) && AtMostFive(sizes)
    requires FewUndrained(s, r, l, sizes)
    ensures HasRoom(s.relays[r].q)
  {
    assert RelayAt(s, r);
    var handed := HandedTo(s.arrivals, r);
    assert handed + [] == handed;
    RoomWhenFlowing(s.relays[r].q, handed, sizes);
  }

  /** What a relay is handed of an event of its own link that finds room, and of any other event. */
  lemma DataInFlow(s: State, l': LinkId, bytes: Chunk, r: TaskId, l: LinkId)
    requires MapsOk(s) && AllHanded(s, r, l)
    requires l' == l ==> l in s.senders && s.senders[l] == r && s.relays[r].open && HasRoom(s.relays[r].q)
    ensures var s' := OnEvent(s, Data(l', bytes));
      HandedTo(s'.arrivals, r) == ArrivedOn(s'.arrivals, l) && (r >= |s.relays| ==> ArrivedOn(s'.arrivals, l) == [])
  {
    var e := OnEvent(s, Data(l', bytes)).arrivals[|s.arrivals|];
    ArrivalSnoc(s.arrivals, e, r);
    ArrivalSnoc(s.arrivals, e, l);
  }

  lemma RouteInFlow(s: State, r: TaskId, l: LinkId, sizes: seq<nat>)
    requires Inv(s) && Enabled(s, Route) && AllHanded(s, r, l) && ChannelUp(s, Route, r, l)
    requires |ArrivedOn(s.arrivals, l)| <= Sum(sizes) && AtMostFive(sizes)
    requires r < |s.relays| ==> FewUndrained(s, r, l, sizes)
    ensures HandedTo(Do(s, Route).arrivals, r) == ArrivedOn(Do(s, Route).arrivals, l)
    ensures r >= |s.relays| ==> ArrivedOn(Do(s, Route).arrivals, l) == []
  {
    match s.events[0]
    case Data(l', bytes) =>
      if l' == l {
        assert r in s.senders.Values;
        RoomInFlow(s, r, l, sizes);
      }
      DataInFlow(s.(events := s.events[1..]), l', bytes, r, l);
    case _ =>
  }

  lemma {:induction false} NothingRefused(run: Path, n: nat, r: TaskId, l: LinkId, sizes: seq<nat>)
    requires IsRun(run) && n < |run.states| && Flows(run, n, r, l, sizes) && AtMostFive(sizes)
    requires |ArrivedOn(run.states[n].arrivals, l)| <= Sum(sizes)
    requires r < |run.states[n].relays| ==> run.states[n].relays[r].link == l
    ensures AllHanded(run.states[n], r, l)
  {
    if n > 0 {
      var s, step := run.states[n - 1], run.steps[n - 1];
      RunInv(run, n - 1);
      RelaysGrow(s, step);
      ArrivalsGrow(s, step, l);
      NothingRefused(run, n - 1, r, l, sizes);
      if step.Route? {
        RouteInFlow(s, r, l, sizes);
      }
    }
  }

  /**
   * A relay whose channel is there from the first arrival on, and at every moment of the run holds
   * chunks of at most 51 datagrams, refuses nothing: what it writes is the start of what the
   * network's losses `net` leave of `ds`, and of `ds` itself if the network loses nothing.
   */
  lemma RelayInFlow(run: Path, r: TaskId, l: LinkId, ds: seq<Datagram>, net: seq<bool>)
    requires IsRun(run) && r < |run.Last().relays| && run.Last().relays[r].link == l
    requires |net| == |Stream(ds)| && forall i :: 0 <= i < |ds| ==> |ds[i]| <= UDP_READ_BUF
    requires ArrivedOn(run.Last().arrivals, l) <= Filter(Stream(ds), net)
    requires Flows(run, |run.steps|, r, l, Sizes(ds, net))
    ensures var s := run.Last();
      && HandedTo(s.arrivals, r) == ArrivedOn(s.arrivals, l)
      && WrittenBy(s.toSc, r) <= Delivered(ds, net).out
      && ((forall i :: 0 <= i < |net| ==> net[i]) ==> WrittenBy(s.toSc, r) <= ds)
  {
    var s := run.Last();
    SizesBound(ds, net);
    SizesAddUp(ds, net);
    NothingRefused(run, |run.steps|, r, l, Sizes(ds, net));
    var chunks := SentFromHanded(s, r);
    OutputSoFar(chunks, ds, net);
    if forall i :: 0 <= i < |net| ==> net[i] {
      LosslessDelivers(ds, net);
    }
  }
}
