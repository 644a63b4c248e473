/** How the readers of the bridge server end, what they leave behind, and when its router waits for ever. */
module ServerEnds {
  import opened Basics
  import opened Framing
  import opened Intake
  import opened Logs
  import opened ServerRelay
  import opened ServerInvariant

  // --------------------------------------------------- readers that have stopped

  /** The step ends the reader of `r` while its channel still holds other chunks. */
  predicate LosesQueued(s: State, step: Step, r: TaskId) {
    r < |s.relays| &&
    var y := s.relays[r];
    match step
    case RelayEnds(q) => q == r && y.phase == Failed && y.q.queue != []
    case TakeChunk(q, sendOk) =>
      q == r && |y.q.queue| > 1 && (y.q.queue[0] == [] || Take(y.q, sendOk).0.failed)
    case _ => false
  }

  /** In the first `n` steps of the run. */
  predicate NothingLost(run: Path, r: TaskId, n: nat)
    requires n <= |run.steps| <= |run.states|
  {
    forall i {:trigger run.steps[i]} :: 0 <= i < n ==> !LosesQueued(run.states[i], run.steps[i], r)
  }

  /** A reader that the step ends leaves chunks behind exactly if the step is a losing one; one that has ended stays as it is. */
  ghost predicate Stops(s: State, step: Step, s': State, r: TaskId)
    requires r < |s.relays|
  {
    r < |s'.relays| &&
    var y, y' := s.relays[r], s'.relays[r];
    if y.open && !y'.open then y'.q.queue == [] <==> !LosesQueued(s, step, r)
    else !LosesQueued(s, step, r) && (!y.open ==> !y'.open && y'.q.queue == y.q.queue)
  }

  lemma TakeStops(s: State, q: TaskId, sendOk: bool, r: TaskId)
    requires Enabled(s, TakeChunk(q, sendOk)) && r < |s.relays|
    ensures Stops(s, TakeChunk(q, sendOk), ReaderTakes(s, q, sendOk), r)
  {
  }

  lemma EndStops(s: State, q: TaskId, r: TaskId)
    requires MapsOk(s) && Enabled(s, RelayEnds(q)) && r < |s.relays|
    requires s.relays[r].phase == Failed ==> s.relays[r].open
    ensures Stops(s, RelayEnds(q), Do(s, RelayEnds(q)), r)
  {
  }

  lemma OtherStops(s: State, step: Step, r: TaskId)
    requires MapsOk(s) && Enabled(s, step) && r < |s.relays|
    requires !step.Route? && !step.TakeChunk? && !step.RelayEnds?
    ensures Stops(s, step, Do(s, step), r)
  {
  }

  /** What a step does to the reader of `r` and to what its channel holds. */
  lemma StopStep(s: State, step: Step, r: TaskId)
    requires Inv(s) && Enabled(s, step) && r < |s.relays|
    ensures Stops(s, step, Do(s, step), r)
  {
    assert RelayAt(s, r);
    match step
    case Route => OnEventStops(s.(events := s.events[1..]), s.events[0], r);
    case RelayEnds(q) => EndStops(s, q, r);
    case TakeChunk(q, sendOk) => TakeStops(s, q, sendOk, r);
    case _ => OtherStops(s, step, r);
  }

  lemma OnEventStops(s: State, e: Event, r: TaskId)
    requires MapsOk(s) && r < |s.relays|
    ensures r < |OnEvent(s, e).relays|
    ensures var y, y' := s.relays[r], OnEvent(s, e).relays[r];
      y'.open == y.open && (!y.open ==> y'.q.queue == y.q.queue)
  {
  }

  lemma NewRelayOpen(s: State, step: Step, r: TaskId)
    requires Inv(s) && Enabled(s, step) && |s.relays| <= r < |Do(s, step).relays|
    ensures Do(s, step).relays[r].open && !LosesQueued(s, step, r)
  {
  }

  /**
   * A stopped reader has left chunks in its channel exactly if one of the steps of the run ended it
   * there: a failed bind, a failed send, or an empty chunk, with other chunks behind it.
   */
  lemma {:induction false} StoppedReader(run: Path, r: TaskId, n: nat)
    requires IsRun(run) && n < |run.states| && r < |run.states[n].relays|
    ensures var y := run.states[n].relays[r];
      if NothingLost(run, r, n) then !y.open ==> y.q.queue == [] else !y.open && y.q.queue != []
  {
    if n > 0 {
      var s, step := run.states[n - 1], run.steps[n - 1];
      RunInv(run, n - 1);
      if r < |s.relays| {
        StoppedReader(run, r, n - 1);
        StopStep(s, step, r);
      } else {
        NothingToLose(run, r, n - 1);
        NewRelayOpen(s, step, r);
      }
    }
  }

  lemma {:induction false} NothingToLose(run: Path, r: TaskId, n: nat)
    requires IsRun(run) && n < |run.states| && |run.states[n].relays| <= r
    ensures NothingLost(run, r, n)
  {
    if n > 0 {
      var step := run.steps[n - 1];
      RelaysGrow(run.states[n - 1], step);
      NothingToLose(run, r, n - 1);
    }
  }

  /** What a reader has done that stopped and left nothing behind. */
  lemma DrainedReader(s: State, r: TaskId)
    requires Reachable(s) && r < |s.relays| && s.relays[r].q.queue == []
    ensures s.relays[r].q.taken == HandedTo(s.arrivals, r) + if s.relays[r].sentinel then [[]] else []
    ensures !s.relays[r].q.failed ==> WrittenBy(s.toSc, r) == Feed(HandedTo(s.arrivals, r)).out
  {
    ReachableInv(s);
    assert RelayAt(s, r);
    var y, handed := s.relays[r], HandedTo(s.arrivals, r);
    assert y.q.taken + [] == y.q.taken && handed + [] == handed;
    FeedSnoc(FRESH, handed, []);
    assert Feed(handed).out + [] == Feed(handed).out;
    SentOutStarts(y.q);
  }

  /** No bind and no send of relay `r` fails. */
  predicate Orderly(steps: seq<Step>, r: TaskId) {
    forall i :: 0 <= i < |steps| ==> steps[i] != BindFails(r) && steps[i] != TakeChunk(r, false)
  }

  /** Neither the bind nor the last send of relay `r` has failed. */
  predicate Unfailed(s: State, r: TaskId) {
    r < |s.relays| ==> s.relays[r].phase != Failed && !s.relays[r].q.failed
  }

  lemma UnfailedRoute(s: State, r: TaskId)
    requires MapsOk(s) && Enabled(s, Route) && Unfailed(s, r)
    ensures Unfailed(Do(s, Route), r)
  {
  }

  lemma UnfailedStep(s: State, step: Step, r: TaskId)
    requires MapsOk(s) && Enabled(s, step) && Unfailed(s, r)
    requires step != BindFails(r) && step != TakeChunk(r, false)
    ensures Unfailed(Do(s, step), r)
  {
    if step.Route? {
      UnfailedRoute(s, r);
    }
  }

  lemma {:induction false} OrderlyPhase(run: Path, r: TaskId, n: nat)
    requires IsRun(run) && Orderly(run.steps, r) && n < |run.states|
    ensures Unfailed(run.states[n], r)
  {
    if n > 0 {
      var step := run.steps[n - 1];
      OrderlyPhase(run, r, n - 1);
      UnfailedStep(run.states[n - 1], step, r);
    }
  }

  /** Everything queued before the empty chunk comes before it, so only the last chunk can be empty. */
  lemma EmptyIsLast(s: State, r: TaskId)
    requires Inv(s) && r < |s.relays| && s.relays[r].q.queue != [] && s.relays[r].q.queue[0] == []
    requires NoEmptyChunk(ArrivedOn(s.arrivals, s.relays[r].link))
    ensures |s.relays[r].q.queue| == 1
  {
    assert RelayAt(s, r);
    var y, handed := s.relays[r], HandedTo(s.arrivals, r);
    EmptyNotHanded(s.arrivals, r, y.link);
    var all, n := y.q.taken + y.q.queue, |y.q.taken|;
    assert all[n] == [];
    assert forall k :: 0 <= k < |handed| ==> all[k] == handed[k];
  }

  /** Failed binds, failed sends and empty chunks from the peer are the only ways to lose any. */
  lemma {:induction false} OrderlyLosesNothing(run: Path, r: TaskId, n: nat)
    requires IsRun(run) && Orderly(run.steps, r) && n < |run.states| && r < |run.states[n].relays|
    requires NoEmptyChunk(ArrivedOn(run.states[n].arrivals, run.states[n].relays[r].link))
    ensures NothingLost(run, r, n)
  {
    if n > 0 {
      var s, step := run.states[n - 1], run.steps[n - 1];
      RunInv(run, n - 1);
      if r < |s.relays| {
        RelaysGrow(s, step);
        ArrivalsGrow(s, step, s.relays[r].link);
        OrderlyLosesNothing(run, r, n - 1);
        OrderlyPhase(run, r, n - 1);
        OrderlyStep(s, step, r);
      } else {
        NothingToLose(run, r, n - 1);
      }
    }
  }

  lemma OrderlyStep(s: State, step: Step, r: TaskId)
    requires Inv(s) && r < |s.relays| && s.relays[r].phase != Failed && step != TakeChunk(r, false)
    requires NoEmptyChunk(ArrivedOn(s.arrivals, s.relays[r].link))
    ensures !LosesQueued(s, step, r)
  {
    if |s.relays[r].q.queue| > 1 && s.relays[r].q.queue[0] == [] {
      EmptyIsLast(s, r);
    }
  }

  /**
   * Everything queued before the link closed is processed before the reader stops: in every run in
   * which no bind or send of the relay fails and the peer sends no empty chunk.
   */
  lemma DrainsBeforeStopping(run: Path, r: TaskId)
    requires IsRun(run) && Orderly(run.steps, r) && r < |run.Last().relays| && !run.Last().relays[r].open
    requires NoEmptyChunk(ArrivedOn(run.Last().arrivals, run.Last().relays[r].link))
    ensures var s := run.Last();
      && s.relays[r].q.queue == []
      && s.relays[r].q.taken == HandedTo(s.arrivals, r) + (if s.relays[r].sentinel then [[]] else [])
      && WrittenBy(s.toSc, r) == Feed(HandedTo(s.arrivals, r)).out
  {
    var n := |run.steps|;
    OrderlyLosesNothing(run, r, n);
    StoppedReader(run, r, n);
    OrderlyPhase(run, r, n);
    DrainedReader(run.Last(), r);
  }

  function ArrivedAtZero(l: LinkId, cs: seq<Chunk>): seq<Arrival> {
    if cs == [] then [] else ArrivedAtZero(l, cs[..|cs| - 1]) + [Arrival(l, cs[|cs| - 1], Some(0))]
  }

  /** One relay in phase `p`, whose channel has been handed `cs` and whose reader has taken nothing yet. */
  function Filled(l: LinkId, p: Phase, cs: seq<Chunk>): State {
    State(None, [], map[l := 0], [Relay(l, p, Intake(cs, [], [], false), true, false, true, [])],
          ArrivedAtZero(l, cs), [], [], [])
  }

  lemma {:induction false} AllHandedToZero(l: LinkId, cs: seq<Chunk>)
    ensures HandedTo(ArrivedAtZero(l, cs), 0) == cs
  {
    if cs != [] {
      AllHandedToZero(l, cs[..|cs| - 1]);
      ArrivalSnoc(ArrivedAtZero(l, cs[..|cs| - 1]), Arrival(l, cs[|cs| - 1], Some(0)), 0);
    }
  }

  lemma OneRelay(l: LinkId, p: Phase) returns (run: Path)
    requires p in {Starting, Running}
    ensures IsRun(run) && run.Last() == Filled(l, p, [])
  {
    run := Path([INIT], []);
    run := Extend(run, EventArrives(Established(l)), INIT.(events := [Established(l)]));
    run := Extend(run, Route, Filled(l, Starting, []));
    if p == Running {
      run := Extend(run, BindOk(0), Filled(l, p, []));
    }
  }

  /** What the router makes of one more chunk. */
  lemma RouteDataTo(l: LinkId, p: Phase, cs: seq<Chunk>, c: Chunk)
    requires |cs| < CAPACITY
    ensures OnEvent(Filled(l, p, cs), Data(l, c)) == Filled(l, p, cs + [c])
  {
    assert (cs + [c])[..|cs|] == cs;
    var y := Filled(l, p, cs).relays[0];
    assert [y][0 := y.(q := Enqueue(y.q, c))] == Filled(l, p, cs + [c]).relays;
  }

  /** A channel can be handed any chunks that it has room for. */
  lemma {:induction false} Fill(l: LinkId, p: Phase, cs: seq<Chunk>) returns (run: Path)
    requires |cs| <= CAPACITY && p in {Starting, Running}
    ensures IsRun(run) && run.Last() == Filled(l, p, cs)
  {
    if cs == [] {
      run := OneRelay(l, p);
    } else {
      var before, c := cs[..|cs| - 1], cs[|cs| - 1];
      var s := Filled(l, p, before);
      var s1 := s.(events := [Data(l, c)]);
      run := Fill(l, p, before);
      run := Extend(run, EventArrives(Data(l, c)), s1);
      RouteDataTo(l, p, before, c);
      assert s1.(events := s1.events[1..]) == s && before + [c] == cs;
      run := Extend(run, Route, Filled(l, p, cs));
    }
  }

  lemma FailedTake(c: Chunk)
    requires IsFinal(c) && |c| <= MAX_CHUNK
    ensures var q := Intake([c, c], [], [], false); var t := Take(q, false);
      t.0.failed && t.0.queue == [c] && t.1 == None && t.1.ToSeq() == []
  {
  }

  /** A failed send does lose what is queued behind the datagram. */
  lemma FailedSendLoses(c: Chunk) returns (run: Path)
    requires IsFinal(c) && |c| <= MAX_CHUNK
    ensures IsRun(run) && |run.Last().relays| == 1 && !NothingLost(run, 0, |run.steps|)
    ensures HandedTo(run.Last().arrivals, 0) == [c, c] && WrittenBy(run.Last().toSc, 0) == []
    ensures !run.Last().relays[0].open && run.Last().relays[0].q.queue == [c]
  {
    var before := Fill(1, Running, [c, c]);
    var s := Filled(1, Running, [c, c]);
    var s' := ReaderTakes(s, 0, false);
    AllHandedToZero(1, [c, c]);
    FailedTake(c);
    run := Extend(before, TakeChunk(0, false), s');
    assert s'.toSc == [] && s'.arrivals == s.arrivals;
    assert LosesQueued(s, run.steps[|before.steps|], 0);
  }

  // ------------------------------------------------------------ a router that waits

  /** The router waits for room in the channel of a task that waits for the lock the router holds. */
  predicate RouterBlocked(s: State) {
    && s.closing.Some? && s.closing.value < |s.relays|
    && s.relays[s.closing.value].phase == Failed && s.relays[s.closing.value].open && !HasRoom(s.relays[s.closing.value].q)
  }

  lemma BlockedStep(s: State, step: Step)
    requires MapsOk(s) && Enabled(s, step) && RouterBlocked(s)
    ensures RouterBlocked(Do(s, step)) && Do(s, step).closing == s.closing
  {
  }

  lemma {:induction false} BlockedStays(path: Path, n: nat)
    requires path.Valid() && RouterBlocked(path.states[0]) && n < |path.states|
    ensures RouterBlocked(path.states[n]) && path.states[n].closing == path.states[0].closing
  {
    if n > 0 {
      BlockedStays(path, n - 1);
      var step := path.steps[n - 1];
      BlockedStep(path.states[n - 1], step);
    }
  }

  /** Unless it is blocked a waiting router can be done after at most three steps. */
  lemma RouterGoesOn(s: State) returns (path: Path)
    requires Inv(s) && s.closing.Some? && !RouterBlocked(s)
    ensures path.Valid() && path.states[0] == s && path.Last().closing.None?
    decreases if Enabled(s, SendSentinel) then 0 else if s.relays[s.closing.value].phase == Running then 1 else 2
  {
    var r := s.closing.value;
    assert RelayAt(s, r);
    var step := if Enabled(s, SendSentinel) then SendSentinel
                else if s.relays[r].phase == Starting then BindOk(r) else TakeChunk(r, true);
    var s' := Do(s, step);
    StepKeeps(s, step);
    var rest := Path([s'], []);
    if step != SendSentinel {
      rest := RouterGoesOn(s');
    }
    path := Prepend(s, step, rest);
  }

  /**
   * A router that waits to put the empty chunk into a channel waits for ever if and only if the
   * channel is full and the bind of its relay has failed: then no event is routed any more.
   */
  lemma RouterStuck(s: State)
    requires Reachable(s) && s.closing.Some?
    ensures (forall path: Path :: path.Valid() && path.states[0] == s ==> path.Last().closing == s.closing)
       <==> RouterBlocked(s)
  {
    ReachableInv(s);
    if RouterBlocked(s) {
      forall path: Path | path.Valid() && path.states[0] == s ensures path.Last().closing == s.closing {
        BlockedStays(path, |path.steps|);
      }
    } else {
      var path := RouterGoesOn(s);
    }
  }

  /** 256 chunks, a close and a failed bind, in this order, block the router. */
  lemma RouterCanBlock() returns (s: State)
    ensures Reachable(s) && RouterBlocked(s)
  {
    var cs := seq(CAPACITY, i => [FLAG_FINAL]);
    var run := Fill(1, Starting, cs);
    var s0 := Filled(1, Starting, cs);
    var s1 := s0.(events := [Closed(1)]);
    var s2 := s0.(senders := map[], closing := Some(0));
    run := Extend(run, EventArrives(Closed(1)), s1);
    assert s1.(events := s1.events[1..]) == s0 && s0.senders - {1} == map[];
    run := Extend(run, Route, s2);
    s := Do(s2, BindFails(0));
    run := Extend(run, BindFails(0), s);
  }
}
