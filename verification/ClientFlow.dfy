/** The flow bound for a task of the bridge client. */
module ClientFlow {
  import opened Basics
  import opened Framing
  import opened Intake
  import opened Logs
  import opened ClientRelay
  import opened ClientInvariant

  /** A chunk of link `l` that is routed finds the chunk channel of task `t` there. */
  predicate ChannelUp(s: State, step: Step, t: TaskId, l: LinkId) {
    step.Route? && s.events != [] && s.events[0].Data? && s.events[0].link == l ==>
      l in s.linkData && s.linkData[l] == t && t < |s.tasks| && s.tasks[t].open
  }

  /**
   * Over the whole run: the chunk channel of task `t` is there from the first arrival on `l` to the
   * last, and at most 51 datagrams have a chunk that has arrived and is not drained.
   */
  ghost predicate Flows(run: Path, n: nat, t: TaskId, l: LinkId, sizes: seq<nat>)
    requires n <= |run.steps| <= |run.states|
  {
    forall i {:trigger run.steps[i]} :: 0 <= i < n ==>
      && ChannelUp(run.states[i], run.steps[i], t, l)
      && (t < |run.states[i].tasks| ==> FewUndrained(run.states[i], t, l, sizes))
  }

  predicate FewUndrained(s: State, t: TaskId, l: LinkId, sizes: seq<nat>)
    requires t < |s.tasks|
  {
    |Undrained(sizes, |s.tasks[t].q.taken|, |ArrivedOn(s.arrivals, l)|)| <= 51
  }

  /** The task has no link other than `l`. */
  predicate NoOtherLink(s: State, t: TaskId, l: LinkId) {
    t < |s.tasks| && s.tasks[t].link.Some? ==> s.tasks[t].link == Some(l)
  }

  lemma LinkStays(s: State, step: Step, t: TaskId, l: LinkId)
    requires Inv(s) && Structured(s) && Enabled(s, step) && NoOtherLink(Do(s, step), t, l)
    ensures NoOtherLink(s, t, l)
  {
    if t < |s.tasks| && s.tasks[t].link.Some? {
      assert UpAt(s, t);
      LinkKept(s, step, t);
    }
  }

  lemma RoomInFlow(s: State, t: TaskId, l: LinkId, sizes: seq<nat>)
    requires Inv(s) && t < |s.tasks| && FewUndrained(s, t, l, sizes)
    requires HandedTo(s.arrivals, t) == ArrivedOn(s.arrivals, l)
    requires |ArrivedOn(s.arrivals, l)| <= Sum(sizes) && AtMostFive(sizes)
    ensures HasRoom(s.tasks[t].q)
  {
    assert DownAt(s, t);
    RoomWhenFlowing(s.tasks[t].q, HandedTo(s.arrivals, t), sizes);
  }

  /** Where the router puts a chunk of the task's own link that finds room, and one of any other. */
  lemma DataGoes(s: State, l': LinkId, bytes: Chunk, t: TaskId, l: LinkId)
    requires Inv(s) && Structured(s) && NoOtherLink(s, t, l)
    requires l' == l ==> l in s.linkData && s.linkData[l] == t && s.tasks[t].open && HasRoom(s.tasks[t].q)
    ensures var s' := OnEvent(s, Data(l', bytes));
      exists to :: s'.arrivals == s.arrivals + [Arrival(l', bytes, to)] && (to == Some(t) <==> l' == l)
  {
    var e := OnEvent(s, Data(l', bytes)).arrivals[|s.arrivals|];
    assert e == Arrival(l', bytes, e.to);
  }

  lemma DataInFlow(s: State, l': LinkId, bytes: Chunk, t: TaskId, l: LinkId)
    requires Inv(s) && Structured(s) && NoOtherLink(s, t, l) && HandedTo(s.arrivals, t) == ArrivedOn(s.arrivals, l)
    requires l' == l ==> l in s.linkData && s.linkData[l] == t && s.tasks[t].open && HasRoom(s.tasks[t].q)
    ensures var s' := OnEvent(s, Data(l', bytes)); HandedTo(s'.arrivals, t) == ArrivedOn(s'.arrivals, l)
  {
    DataGoes(s, l', bytes, t, l);
    var to :| OnEvent(s, Data(l', bytes)).arrivals == s.arrivals + [Arrival(l', bytes, to)] && (to == Some(t) <==> l' == l);
    BothOrNone(s.arrivals, Arrival(l', bytes, to), t, l);
  }

  lemma BothOrNone(arrivals: seq<Arrival>, e: Arrival, t: TaskId, l: LinkId)
    requires e.to == Some(t) <==> e.link == l
    requires HandedTo(arrivals, t) == ArrivedOn(arrivals, l)
    ensures HandedTo(arrivals + [e], t) == ArrivedOn(arrivals + [e], l)
  {
    ArrivalSnoc(arrivals, e, t);
    ArrivalSnoc(arrivals, e, l);
  }

  lemma RouteInFlow(s: State, t: TaskId, l: LinkId, sizes: seq<nat>)
    requires Inv(s) && Structured(s) && Enabled(s, Route) && NoOtherLink(s, t, l) && ChannelUp(s, Route, t, l)
    requires HandedTo(s.arrivals, t) == ArrivedOn(s.arrivals, l)
    requires |ArrivedOn(s.arrivals, l)| <= Sum(sizes) && AtMostFive(sizes)
    requires t < |s.tasks| ==> FewUndrained(s, t, l, sizes)
    ensures HandedTo(Do(s, Route).arrivals, t) == ArrivedOn(Do(s, Route).arrivals, l)
  {
    var s1 := s.(events := s.events[1..]);
    match s.events[0]
    case Data(l', bytes) =>
      if l' == l {
        RoomInFlow(s, t, l, sizes);
      }
      QuietKeeps(s, s1);
      InvStructured(s1);
      DataInFlow(s1, l', bytes, t, l);
    case _ =>
  }

  lemma {:induction false} NothingRefused(run: Path, n: nat, t: TaskId, l: LinkId, sizes: seq<nat>)
    requires IsRun(run) && n < |run.states| && Flows(run, n, t, l, sizes) && AtMostFive(sizes)
    requires NoOtherLink(run.states[n], t, l) && |ArrivedOn(run.states[n].arrivals, l)| <= Sum(sizes)
    ensures HandedTo(run.states[n].arrivals, t) == ArrivedOn(run.states[n].arrivals, l)
  {
    if n > 0 {
      var s, step := run.states[n - 1], run.steps[n - 1];
      assert Moves(s, step, run.states[n]);
      RunInv(run, n - 1);
      LinkStays(s, step, t, l);
      ArrivalsGrow(s, step, l);
      NothingRefused(run, n - 1, t, l, sizes);
      StepInFlow(s, step, t, l, sizes);
    }
  }

  lemma StepInFlow(s: State, step: Step, t: TaskId, l: LinkId, sizes: seq<nat>)
    requires Inv(s) && Structured(s) && Enabled(s, step) && NoOtherLink(s, t, l) && ChannelUp(s, step, t, l)
    requires HandedTo(s.arrivals, t) == ArrivedOn(s.arrivals, l)
    requires |ArrivedOn(s.arrivals, l)| <= Sum(sizes) && AtMostFive(sizes)
    requires t < |s.tasks| ==> FewUndrained(s, t, l, sizes)
    ensures HandedTo(Do(s, step).arrivals, t) == ArrivedOn(Do(s, step).arrivals, l)
  {
    if step.Route? {
      RouteInFlow(s, t, l, sizes);
    } else {
      OnlyRouteLogs(s, step);
    }
  }

  /**
   * A task whose chunk channel is there from the first arrival on, and at every moment of the run
   * holds chunks of at most 51 datagrams, is refused nothing: what it writes back is the start of
   * what the network's losses `net` leave of `ds`, and of `ds` itself if the network loses nothing.
   */
  lemma TaskInFlow(run: Path, t: TaskId, l: LinkId, ds: seq<Datagram>, net: seq<bool>)
    requires IsRun(run) && t < |run.Last().tasks| && run.Last().tasks[t].link == Some(l)
    requires |net| == |Stream(ds)| && forall i :: 0 <= i < |ds| ==> |ds[i]| <= UDP_READ_BUF
    requires ArrivedOn(run.Last().arrivals, l) <= Filter(Stream(ds), net)
    requires Flows(run, |run.steps|, t, l, Sizes(ds, net))
    ensures var s := run.Last();
      && HandedTo(s.arrivals, t) == ArrivedOn(s.arrivals, l)
      && WrittenBy(s.sentBack, t) <= Delivered(ds, net).out
      && ((forall i :: 0 <= i < |net| ==> net[i]) ==> WrittenBy(s.sentBack, t) <= ds)
  {
    var s := run.Last();
    SizesBound(ds, net);
    SizesAddUp(ds, net);
    NothingRefused(run, |run.steps|, t, l, Sizes(ds, net));
    RunInv(run, |run.steps|);
    assert DownAt(s, t);
    var chunks := SentChunks(s.tasks[t].q);
    OutputSoFar(chunks, ds, net);
    if forall i :: 0 <= i < |net| ==> net[i] {
      LosslessDelivers(ds, net);
    }
  }
}
