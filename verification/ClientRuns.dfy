/**
 * The bridge client as a function of the steps of its run: what its
 * logs and maps hold, and when the tasks are alive.
 */
module ClientRuns {
  import opened Basics
  import opened Framing
  import opened Intake
  import opened Logs
  import opened ClientRelay
  import opened ClientInvariant
  import opened ClientPackets
  import opened ClientSafety

  // ------------------------------------------------------------------- when tasks are alive

  /** The step does not end the send task of `t`, for any of the first `n` steps. */
  ghost predicate NeverStopsSender(run: Path, n: nat, t: TaskId)
    requires n <= |run.steps| < |run.states|
  {
    forall i {:trigger run.steps[i]} :: 0 <= i < n ==> !StopsSender(run.states[i], run.steps[i], t)
  }

  predicate SenderFits(s: State, t: TaskId, unstopped: bool) {
    if t < |s.tasks| && s.tasks[t].link.Some? then s.tasks[t].inboxOpen <==> unstopped else unstopped
  }

  lemma SenderStep(s: State, step: Step, t: TaskId, unstopped: bool)
    requires Inv(s) && Structured(s) && Enabled(s, step) && SenderFits(s, t, unstopped)
    ensures SenderFits(Do(s, step), t, unstopped && !StopsSender(s, step, t))
  {
    if t < |s.tasks| {
      assert UpAt(s, t);
      InboxStep(s, step, t);
      LinkStep(s, step, t);
    } else {
      NoLinkYet(s, step, t);
    }
  }

  ghost predicate SenderFitsAt(run: Path, n: nat, t: TaskId) {
    n <= |run.steps| < |run.states| && SenderFits(run.states[n], t, NeverStopsSender(run, n, t))
  }

  lemma SenderNext(run: Path, n: nat, t: TaskId)
    requires IsRun(run) && n < |run.steps| && SenderFitsAt(run, n, t)
    ensures SenderFitsAt(run, n + 1, t)
  {
    RunInv(run, n);
    var step := run.steps[n];
    SenderStoppedNext(run, n, t);
    SenderStep(run.states[n], step, t, NeverStopsSender(run, n, t));
  }

  lemma SenderStoppedNext(run: Path, n: nat, t: TaskId)
    requires n < |run.steps| < |run.states|
    ensures NeverStopsSender(run, n + 1, t)
       <==> NeverStopsSender(run, n, t) && !StopsSender(run.states[n], run.steps[n], t)
  {
  }

  /** The send task of `t` is alive from the moment its link is up until one of the steps that end it. */
  lemma SenderExactly(run: Path, n: nat, t: TaskId)
    requires IsRun(run) && n < |run.states|
    ensures SenderFits(run.states[n], t, NeverStopsSender(run, n, t))
  {
    forall i: nat | i < n && SenderFitsAt(run, i, t) ensures SenderFitsAt(run, i + 1, t) {
      SenderNext(run, i, t);
    }
    Climb((i: nat) => SenderFitsAt(run, i, t), n);
  }

  lemma NoLinkYet(s: State, step: Step, t: TaskId)
    requires Structured(s) && Enabled(s, step) && |s.tasks| <= t
    ensures t < |Do(s, step).tasks| ==> step.Recv? && Do(s, step).tasks[t].link.None?
    ensures t < |Do(s, step).tasks| ==> !Do(s, step).tasks[t].open && Do(s, step).tasks[t].phase == Establishing
    ensures step.Recv? || step.EventArrives? || step.Route? || step.HandOver? || step.HandFails? || step.t != t
  {
    if !step.Recv? {
      OnlyRecvLogs(s, step);
    }
  }

  /** The step ends the receive task of `t`: a failed send, or its channel has left `link_data` and is empty. */
  predicate StopsReceiver(s: State, step: Step, t: TaskId) {
    t < |s.tasks| &&
    match step
    case TakeChunk(u, sendOk) =>
      && u == t && !sendOk && s.tasks[t].q.queue != []
      && PushSpec(s.tasks[t].q.buf, s.tasks[t].q.queue[0]).complete.Some?
    case ChunkSenderGone(u) => u == t
    case _ => false
  }

  lemma OpenTake(s: State, t: TaskId, sendOk: bool)
    requires Structured(s) && Enabled(s, TakeChunk(t, sendOk))
    ensures t < |Do(s, TakeChunk(t, sendOk)).tasks|
    ensures Do(s, TakeChunk(t, sendOk)).tasks[t].open <==> !StopsReceiver(s, TakeChunk(t, sendOk), t)
  {
    assert TakesChunk(s, t, sendOk).tasks[t].open <==> !Take(s.tasks[t].q, sendOk).0.failed;
  }

  lemma OpenStep(s: State, step: Step, t: TaskId)
    requires Structured(s) && Enabled(s, step) && t < |s.tasks|
    ensures t < |Do(s, step).tasks|
    ensures Do(s, step).tasks[t].open <==> step == Register(t) || (s.tasks[t].open && !StopsReceiver(s, step, t))
  {
    if !Concerns(s, step, t) {
      Bystander(s, step, t);
    } else {
      match step
      case Route => RouteTask(s, t);
      case TakePacket(_) => assert Do(s, step) == TakesPacket(s, t);
      case TakeChunk(_, sendOk) => OpenTake(s, t, sendOk);
      case IssueFirst(_, accepted) => if accepted { assert Do(s, step) == IssuesChunk(s, t); }
      case IssueNext(_, accepted) => if accepted { assert Do(s, step) == IssuesChunk(s, t); }
      case _ =>
    }
  }

  /** What one step does to the phase of task `t`. */
  function PhaseNext(step: Step, t: TaskId, before: Phase): Phase {
    match step
    case Establish(u, _) => if u == t then FirstPacket else before
    case EstablishFails(u) => if u == t then Ended else before
    case IssueFirst(u, accepted) => if u == t && !accepted then Leaving else before
    case Register(u) => if u == t then Relaying else before
    case Unregister(u) => if u == t then Leaving else before
    case Leave(u) => if u == t then Ended else before
    case _ => before
  }

  lemma PhaseStep(s: State, step: Step, t: TaskId)
    requires Structured(s) && Enabled(s, step) && t < |s.tasks|
    ensures t < |Do(s, step).tasks| && Do(s, step).tasks[t].phase == PhaseNext(step, t, s.tasks[t].phase)
  {
    if !Concerns(s, step, t) {
      Bystander(s, step, t);
    } else {
      match step
      case Route => RouteTask(s, t);
      case TakePacket(_) => assert Do(s, step) == TakesPacket(s, t);
      case TakeChunk(_, sendOk) => assert Do(s, step) == TakesChunk(s, t, sendOk);
      case IssueFirst(_, accepted) => if accepted { assert Do(s, step) == IssuesChunk(s, t); }
      case IssueNext(_, accepted) => if accepted { assert Do(s, step) == IssuesChunk(s, t); }
      case _ =>
    }
  }

  /** Where a task is after the first `n` steps, from the steps alone. */
  function PhaseAfter(steps: seq<Step>, t: TaskId, n: nat): Phase
    requires n <= |steps|
  {
    if n == 0 then Establishing else PhaseNext(steps[n - 1], t, PhaseAfter(steps, t, n - 1))
  }

  function PhaseOf(s: State, t: TaskId): Phase {
    if t < |s.tasks| then s.tasks[t].phase else Establishing
  }

  lemma PhaseOfStep(s: State, step: Step, s': State, t: TaskId)
    requires Moves(s, step, s')
    ensures PhaseOf(s', t) == PhaseNext(step, t, PhaseOf(s, t))
  {
    if t < |s.tasks| {
      PhaseStep(s, step, t);
    } else {
      NoLinkYet(s, step, t);
    }
  }

  ghost predicate PhaseFits(run: Path, n: nat, t: TaskId) {
    n <= |run.steps| < |run.states| && PhaseOf(run.states[n], t) == PhaseAfter(run.steps, t, n)
  }

  lemma PhaseFitsNext(run: Path, n: nat, t: TaskId)
    requires IsRun(run) && n < |run.steps| && PhaseFits(run, n, t)
    ensures PhaseFits(run, n + 1, t)
  {
    var step := run.steps[n];
    PhaseOfStep(run.states[n], step, run.states[n + 1], t);
  }

  lemma PhaseExactly(run: Path, n: nat, t: TaskId)
    requires IsRun(run) && n < |run.states|
    ensures PhaseOf(run.states[n], t) == PhaseAfter(run.steps, t, n)
  {
    forall i: nat | i < n && PhaseFits(run, i, t) ensures PhaseFits(run, i + 1, t) {
      PhaseFitsNext(run, i, t);
    }
    Climb((i: nat) => PhaseFits(run, i, t), n);
  }

  /** The link of task `t`, if it has one. */
  function LinkOf(s: State, t: TaskId): Option<LinkId> {
    if t < |s.tasks| then s.tasks[t].link else None
  }

  /** The link that was established for task `t` in the first `n` steps. */
  function LinkAfter(steps: seq<Step>, t: TaskId, n: nat): Option<LinkId>
    requires n <= |steps|
  {
    if n == 0 then None
    else if steps[n - 1].Establish? && steps[n - 1].t == t then Some(steps[n - 1].l)
    else LinkAfter(steps, t, n - 1)
  }

  lemma LinkOfStep(s: State, step: Step, s': State, t: TaskId)
    requires Moves(s, step, s')
    ensures LinkOf(s', t) == if step.Establish? && step.t == t then Some(step.l) else LinkOf(s, t)
  {
    if t < |s.tasks| {
      LinkStep(s, step, t);
    } else {
      NoLinkYet(s, step, t);
    }
  }

  ghost predicate LinkFits(run: Path, n: nat, t: TaskId) {
    n <= |run.steps| < |run.states| && LinkOf(run.states[n], t) == LinkAfter(run.steps, t, n)
  }

  lemma LinkFitsNext(run: Path, n: nat, t: TaskId)
    requires IsRun(run) && n < |run.steps| && LinkFits(run, n, t)
    ensures LinkFits(run, n + 1, t)
  {
    var step := run.steps[n];
    LinkOfStep(run.states[n], step, run.states[n + 1], t);
  }

  lemma LinkExactly(run: Path, n: nat, t: TaskId)
    requires IsRun(run) && n < |run.states|
    ensures LinkOf(run.states[n], t) == LinkAfter(run.steps, t, n)
  {
    forall i: nat | i < n && LinkFits(run, i, t) ensures LinkFits(run, i + 1, t) {
      LinkFitsNext(run, i, t);
    }
    Climb((i: nat) => LinkFits(run, i, t), n);
  }

  ghost predicate NeverStopsReceiver(run: Path, n: nat, t: TaskId)
    requires n <= |run.steps| < |run.states|
  {
    forall i {:trigger run.steps[i]} :: 0 <= i < n ==> !StopsReceiver(run.states[i], run.steps[i], t)
  }

  predicate TaskReceives(s: State, t: TaskId, registered: bool, unstopped: bool) {
    if t < |s.tasks| && s.tasks[t].phase !in {Establishing, FirstPacket}
    then s.tasks[t].open <==> registered && unstopped
    else !registered && unstopped && (t < |s.tasks| ==> !s.tasks[t].open)
  }

  lemma ReceiverStep(s: State, step: Step, s': State, t: TaskId, registered: bool, unstopped: bool)
    requires Moves(s, step, s') && TaskReceives(s, t, registered, unstopped)
    ensures TaskReceives(s', t, registered || step == Register(t), unstopped && !StopsReceiver(s, step, t))
  {
    if t < |s.tasks| {
      OpenStep(s, step, t);
      PhaseStep(s, step, t);
    } else {
      NoLinkYet(s, step, t);
    }
  }

  lemma OneMoreStep(steps: seq<Step>, n: nat, step: Step)
    requires n < |steps|
    ensures step in steps[..n + 1] <==> step in steps[..n] || step == steps[n]
  {
    assert steps[..n + 1] == steps[..n] + [steps[n]];
  }

  lemma StoppedNext(run: Path, n: nat, t: TaskId)
    requires n < |run.steps| < |run.states|
    ensures NeverStopsReceiver(run, n + 1, t)
       <==> NeverStopsReceiver(run, n, t) && !StopsReceiver(run.states[n], run.steps[n], t)
  {
  }

  ghost predicate TaskReceivesAt(run: Path, n: nat, t: TaskId) {
    && n <= |run.steps| < |run.states|
    && TaskReceives(run.states[n], t, Register(t) in run.steps[..n], NeverStopsReceiver(run, n, t))
  }

  lemma TaskReceivesNext(run: Path, n: nat, t: TaskId)
    requires IsRun(run) && n < |run.steps| && TaskReceivesAt(run, n, t)
    ensures TaskReceivesAt(run, n + 1, t)
  {
    var step := run.steps[n];
    OneMoreStep(run.steps, n, Register(t));
    StoppedNext(run, n, t);
    ReceiverStep(run.states[n], step, run.states[n + 1], t, Register(t) in run.steps[..n], NeverStopsReceiver(run, n, t));
  }

  /** The receive task of `t` is alive from its registration until one of the steps that end it. */
  lemma ReceiverExactly(run: Path, n: nat, t: TaskId)
    requires IsRun(run) && n < |run.states|
    ensures TaskReceives(run.states[n], t, Register(t) in run.steps[..n], NeverStopsReceiver(run, n, t))
  {
    forall i: nat | i < n && TaskReceivesAt(run, i, t) ensures TaskReceivesAt(run, i + 1, t) {
      TaskReceivesNext(run, i, t);
    }
    Climb((i: nat) => TaskReceivesAt(run, i, t), n);
  }

  // --------------------------------------------------------------------------- the events

  /** The events that the engine reported in the first `n` steps. */
  function Reported(steps: seq<Step>, n: nat): seq<Event>
    requires n <= |steps|
  {
    if n == 0 then []
    else Reported(steps, n - 1) + if steps[n - 1].EventArrives? then [steps[n - 1].e] else []
  }

  /** The events that the router handled in the first `n` steps. */
  function Routed(run: Path, n: nat): seq<Event>
    requires n <= |run.steps| < |run.states|
  {
    if n == 0 then []
    else
      var waiting := run.states[n - 1].events;
      Routed(run, n - 1) + if run.steps[n - 1].Route? && waiting != [] then [waiting[0]] else []
  }

  lemma IssueKeepsEvents(s: State, step: Step)
    requires Structured(s) && Enabled(s, step) && OfSender(step)
    ensures Do(s, step).events == s.events && Do(s, step).target == s.target
    ensures Do(s, step).udpLinks == s.udpLinks && Do(s, step).linkData == s.linkData
  {
    match step
    case TakePacket(t) => assert Do(s, step) == TakesPacket(s, t);
    case IssueFirst(t, accepted) => if accepted { assert Do(s, step) == IssuesChunk(s, t); }
    case IssueNext(t, accepted) => if accepted { assert Do(s, step) == IssuesChunk(s, t); }
    case _ =>
  }

  predicate OfSender(step: Step) {
    step.TakePacket? || step.IssueFirst? || step.IssueNext?
  }

  lemma TakeKeepsEvents(s: State, step: Step)
    requires Structured(s) && Enabled(s, step) && step.TakeChunk?
    ensures Do(s, step).events == s.events && Do(s, step).target == s.target
    ensures Do(s, step).udpLinks == s.udpLinks && Do(s, step).linkData == s.linkData
  {
    assert Do(s, step) == TakesChunk(s, step.t, step.sendOk);
  }

  lemma EventsStep(s: State, step: Step)
    requires Structured(s) && Enabled(s, step)
    ensures Do(s, step).events
         == if step.EventArrives? then s.events + [step.e] else if step.Route? then s.events[1..] else s.events
    ensures Do(s, step).target == (s.target || (step.Route? && s.events[0].Announce?))
  {
    if OfSender(step) {
      IssueKeepsEvents(s, step);
    } else if step.TakeChunk? {
      TakeKeepsEvents(s, step);
    }
  }

  lemma RoutedStep(run: Path, n: nat)
    requires IsRun(run) && 0 < n < |run.states|
    ensures run.steps[n - 1].Route? ==>
      run.states[n - 1].events != [] && Routed(run, n) == Routed(run, n - 1) + [run.states[n - 1].events[0]]
    ensures !run.steps[n - 1].Route? ==> Routed(run, n) == Routed(run, n - 1)
  {
    var step := run.steps[n - 1];
  }

  ghost predicate EventsFit(run: Path, n: nat) {
    n <= |run.steps| < |run.states| && Routed(run, n) + run.states[n].events == Reported(run.steps, n)
  }

  lemma EventsOn(s: State, step: Step, s': State, routed: seq<Event>, reported: seq<Event>)
    requires Moves(s, step, s') && routed + s.events == reported
    ensures step.Route? ==> s.events != [] && (routed + [s.events[0]]) + s'.events == reported
    ensures !step.Route? ==> routed + s'.events == reported + if step.EventArrives? then [step.e] else []
  {
    EventsStep(s, step);
    if step.Route? {
      FirstMoves(routed, s.events);
    } else if step.EventArrives? {
      Associative(routed, s.events, [step.e]);
    }
  }

  lemma ReportedStep(steps: seq<Step>, n: nat)
    requires n < |steps|
    ensures Reported(steps, n + 1) == Reported(steps, n) + if steps[n].EventArrives? then [steps[n].e] else []
  {
  }

  lemma EventsFitFrom(run: Path, n: nat, routed: seq<Event>, reported: seq<Event>)
    requires 0 < n <= |run.steps| < |run.states|
    requires Routed(run, n) == routed && Reported(run.steps, n) == reported && routed + run.states[n].events == reported
    ensures EventsFit(run, n)
  {
  }

  lemma EventsNext(run: Path, n: nat)
    requires IsRun(run) && n < |run.steps| && EventsFit(run, n)
    ensures EventsFit(run, n + 1)
  {
    var s, step, routed, reported := run.states[n], run.steps[n], Routed(run, n), Reported(run.steps, n);
    EventsOn(s, step, run.states[n + 1], routed, reported);
    RoutedStep(run, n + 1);
    ReportedStep(run.steps, n);
    if step.Route? {
      assert reported + [] == reported;
      EventsFitFrom(run, n + 1, routed + [s.events[0]], reported);
    } else {
      EventsFitFrom(run, n + 1, routed, reported + if step.EventArrives? then [step.e] else []);
    }
  }

  /** The router handles the events in the order reported; those that it has not handled wait. */
  lemma EventsInOrder(run: Path, n: nat)
    requires IsRun(run) && n < |run.states|
    ensures Routed(run, n) + run.states[n].events == Reported(run.steps, n)
  {
    forall i: nat | i < n && EventsFit(run, i) ensures EventsFit(run, i + 1) {
      EventsNext(run, i);
    }
    Climb((i: nat) => EventsFit(run, i), n);
  }

  ghost predicate TargetFits(run: Path, n: nat) {
    n <= |run.steps| < |run.states|
    && (run.states[n].target <==> run.states[0].target || Announce in Routed(run, n))
  }

  lemma TargetFitsNext(run: Path, n: nat)
    requires IsRun(run) && n < |run.steps| && TargetFits(run, n)
    ensures TargetFits(run, n + 1)
  {
    var step := run.steps[n];
    EventsStep(run.states[n], step);
    RoutedStep(run, n + 1);
  }

  /** A server is known if and only if one was given at the start or the router has handled an announce. */
  lemma TargetExactly(run: Path, n: nat)
    requires IsRun(run) && n < |run.states|
    ensures run.states[n].target <==> run.states[0].target || Announce in Routed(run, n)
  {
    forall i: nat | i < n && TargetFits(run, i) ensures TargetFits(run, i + 1) {
      TargetFitsNext(run, i);
    }
    Climb((i: nat) => TargetFits(run, i), n);
  }

  /** The chunks that events bring on link `l`. */
  function DataOn(events: seq<Event>, l: LinkId): seq<Chunk> {
    if events == [] then []
    else
      var e := events[|events| - 1];
      DataOn(events[..|events| - 1], l) + if e.Data? && e.link == l then [e.bytes] else []
  }

  lemma DataSnoc(events: seq<Event>, e: Event, l: LinkId)
    ensures DataOn(events + [e], l) == DataOn(events, l) + if e.Data? && e.link == l then [e.bytes] else []
  {
    AppendParts(events, [e]);
  }

  lemma EventArrivals(s: State, e: Event, l: LinkId)
    requires Structured(s)
    ensures ArrivedOn(OnEvent(s, e).arrivals, l)
         == ArrivedOn(s.arrivals, l) + if e.Data? && e.link == l then [e.bytes] else []
  {
    if e.Data? {
      ArrivalSnoc(s.arrivals, OnEvent(s, e).arrivals[|s.arrivals|], l);
    }
  }

  lemma RouteArrivals(s: State, s': State, l: LinkId)
    requires Moves(s, Route, s')
    ensures s.events != []
    ensures var e := s.events[0];
      ArrivedOn(s'.arrivals, l) == ArrivedOn(s.arrivals, l) + if e.Data? && e.link == l then [e.bytes] else []
  {
    var s1 := s.(events := s.events[1..]);
    assert Structured(s1);
    EventArrivals(s1, s.events[0], l);
  }

  lemma OtherArrivals(s: State, step: Step, s': State)
    requires Moves(s, step, s') && !step.Route?
    ensures s'.arrivals == s.arrivals
  {
    OnlyRouteLogs(s, step);
  }

  lemma ArrivalsNext(s: State, step: Step, s': State, before: seq<Event>, after: seq<Event>, l: LinkId)
    requires Moves(s, step, s') && ArrivedOn(s.arrivals, l) == DataOn(before, l)
    requires after == if step.Route? then before + [s.events[0]] else before
    ensures ArrivedOn(s'.arrivals, l) == DataOn(after, l)
  {
    if step.Route? {
      RouteArrivals(s, s', l);
      DataSnoc(before, s.events[0], l);
    } else {
      OtherArrivals(s, step, s');
    }
  }

  ghost predicate ArrivalsFit(run: Path, l: LinkId, n: nat) {
    n <= |run.steps| < |run.states| && ArrivedOn(run.states[n].arrivals, l) == DataOn(Routed(run, n), l)
  }

  lemma ArrivalsFitNext(run: Path, l: LinkId, n: nat)
    requires IsRun(run) && n < |run.steps| && ArrivalsFit(run, l, n)
    ensures ArrivalsFit(run, l, n + 1)
  {
    RoutedStep(run, n + 1);
    var step := run.steps[n];
    ArrivalsNext(run.states[n], step, run.states[n + 1], Routed(run, n), Routed(run, n + 1), l);
  }

  /** The arrivals on a link are exactly the link data that the router has handled. */
  lemma ArrivalsAreRouted(run: Path, l: LinkId, n: nat)
    requires IsRun(run) && n < |run.states|
    ensures ArrivedOn(run.states[n].arrivals, l) == DataOn(Routed(run, n), l)
  {
    forall i: nat | i < n && ArrivalsFit(run, l, i) ensures ArrivalsFit(run, l, i + 1) {
      ArrivalsFitNext(run, l, i);
    }
    Climb((i: nat) => ArrivalsFit(run, l, i), n);
  }

  /** A chunk is dropped if and only if its link has no task, the receive task has ended, or 256 chunks wait. */
  lemma ChunkGoesTo(s: State, l: LinkId, bytes: Chunk)
    requires Structured(s)
    ensures var s', n := OnEvent(s, Data(l, bytes)), |s.arrivals|;
      && |s'.arrivals| == n + 1 && s'.arrivals == s.arrivals + [Arrival(l, bytes, s'.arrivals[n].to)]
      && (s'.arrivals[n].to.None? <==>
            l !in s.linkData || !s.tasks[s.linkData[l]].open || |s.tasks[s.linkData[l]].q.queue| >= 256)
      && (s'.arrivals[n].to.Some? ==>
            && s'.arrivals[n].to == Some(s.linkData[l])
            && s'.tasks[s.linkData[l]].q.queue == s.tasks[s.linkData[l]].q.queue + [bytes])
  {
  }

  // ------------------------------------------------------------------------- the packets

  /** The packets of source `a` that the listener received in the first `n` steps. */
  function PacketsOf(steps: seq<Step>, a: Addr, n: nat): seq<Datagram>
    requires n <= |steps|
  {
    if n == 0 then []
    else
      var step := steps[n - 1];
      PacketsOf(steps, a, n - 1) + if step.Recv? && step.src == a then [step.d] else []
  }

  /** The logged packets of source `a`. */
  function LoggedOf(recvd: seq<Packet>, a: Addr): seq<Datagram> {
    if recvd == [] then []
    else
      var p := recvd[|recvd| - 1];
      LoggedOf(recvd[..|recvd| - 1], a) + if p.src == a then [p.datagram] else []
  }

  lemma LoggedSnoc(recvd: seq<Packet>, p: Packet, a: Addr)
    ensures LoggedOf(recvd + [p], a) == LoggedOf(recvd, a) + if p.src == a then [p.datagram] else []
  {
    AppendParts(recvd, [p]);
  }

  /**
   * A received packet goes to the task that its source leads to; of a source that is not in the map
   * it starts a task if a server is known, and is dropped otherwise.
   */
  lemma PacketGoesTo(s: State, src: Addr, d: Datagram)
    ensures var s', n := OnPacket(s, src, d), |s.recvd|;
      && |s'.recvd| == n + 1 && s'.recvd == s.recvd + [Packet(src, d, s'.recvd[n].to)]
      && (s'.recvd[n].to.None? <==> src !in s.udpLinks && !s.target)
      && (s'.recvd[n].to.None? ==> s' == s.(recvd := s'.recvd))
      && (src in s.udpLinks ==> s'.recvd[n].to == Some(s.udpLinks[src]) && s'.tasks == s.tasks && s'.listener.Handing?)
      && (src !in s.udpLinks && s.target ==>
            s'.recvd[n].to == Some(|s.tasks|) && |s'.tasks| == |s.tasks| + 1 && s'.listener == s.listener)
  {
  }

  ghost predicate LogFits(run: Path, a: Addr, n: nat) {
    n <= |run.steps| < |run.states| && LoggedOf(run.states[n].recvd, a) == PacketsOf(run.steps, a, n)
  }

  lemma LogStep(s: State, step: Step, a: Addr)
    requires Structured(s) && Enabled(s, step)
    ensures LoggedOf(Do(s, step).recvd, a)
         == LoggedOf(s.recvd, a) + if step.Recv? && step.src == a then [step.d] else []
  {
    if step.Recv? {
      PacketGoesTo(s, step.src, step.d);
      LoggedSnoc(s.recvd, Do(s, step).recvd[|s.recvd|], a);
    } else {
      OnlyRecvLogs(s, step);
    }
  }

  lemma LogNext(run: Path, a: Addr, n: nat)
    requires IsRun(run) && n < |run.steps| && LogFits(run, a, n)
    ensures LogFits(run, a, n + 1)
  {
    var step := run.steps[n];
    LogStep(run.states[n], step, a);
  }

  /** The log of packets is exactly what the listener received. */
  lemma PacketsAreLogged(run: Path, a: Addr, n: nat)
    requires IsRun(run) && n < |run.states|
    ensures LoggedOf(run.states[n].recvd, a) == PacketsOf(run.steps, a, n)
  {
    forall i: nat | i < n && LogFits(run, a, i) ensures LogFits(run, a, i + 1) {
      LogNext(run, a, i);
    }
    Climb((i: nat) => LogFits(run, a, i), n);
  }

  ghost predicate AllMeant(run: Path, n: nat) {
    && n < |run.states| && run.states[n].target
    && forall i :: 0 <= i < |run.states[n].recvd| ==> run.states[n].recvd[i].to.Some?
  }

  lemma AllMeantNext(run: Path, n: nat)
    requires IsRun(run) && n < |run.steps| && AllMeant(run, n)
    ensures AllMeant(run, n + 1)
  {
    var s, step := run.states[n], run.steps[n];
    EventsStep(s, step);
    if step.Recv? {
      PacketGoesTo(s, step.src, step.d);
    } else {
      OnlyRecvLogs(s, step);
    }
  }

  /** If a server is known from the start, no packet is dropped for want of one. */
  lemma NoneDropped(run: Path, n: nat)
    requires IsRun(run) && n < |run.states| && run.states[0].target
    ensures run.states[n].target && forall i :: 0 <= i < |run.states[n].recvd| ==> run.states[n].recvd[i].to.Some?
  {
    forall i: nat | i < n && AllMeant(run, i) ensures AllMeant(run, i + 1) {
      AllMeantNext(run, i);
    }
    Climb((i: nat) => AllMeant(run, i), n);
  }

  lemma {:induction false} PositionsOfSource(recvd: seq<Packet>, t: TaskId, a: Addr)
    requires forall i :: 0 <= i < |recvd| ==> (recvd[i].to == Some(t) <==> recvd[i].src == a)
    ensures Payloads(recvd, PositionsFor(recvd, t)) == LoggedOf(recvd, a)
  {
    if recvd != [] {
      var n := |recvd| - 1;
      PositionsOfSource(recvd[..n], t, a);
      var before := PositionsFor(recvd[..n], t);
      assert Payloads(recvd, before) == Payloads(recvd[..n], before);
      if recvd[n].to == Some(t) {
        PayloadsSnoc(recvd, before, n);
      }
    }
  }

  /** If `t` is the only task of its source, the packets of the source are meant for it and for no other. */
  lemma MeantForSource(run: Path, n: nat, t: TaskId)
    requires IsRun(run) && n < |run.states| && run.states[0].target && t < |run.states[n].tasks|
    requires var tasks := run.states[n].tasks; forall u :: 0 <= u < |tasks| && u != t ==> tasks[u].src != tasks[t].src
    ensures var recvd := run.states[n].recvd;
      Payloads(recvd, PositionsFor(recvd, t)) == PacketsOf(run.steps, run.states[n].tasks[t].src, n)
  {
    var s := run.states[n];
    RunInv(run, n);
    NoneDropped(run, n);
    PositionsOfSource(s.recvd, t, s.tasks[t].src);
    PacketsAreLogged(run, s.tasks[t].src, n);
  }

  lemma {:induction false} MeantIsSome(recvd: seq<Packet>, t: TaskId, a: Addr) returns (keep: seq<bool>)
    requires forall i :: 0 <= i < |recvd| && recvd[i].to == Some(t) ==> recvd[i].src == a
    ensures |keep| == |LoggedOf(recvd, a)|
    ensures Payloads(recvd, PositionsFor(recvd, t)) == Filter(LoggedOf(recvd, a), keep)
  {
    keep := [];
    if recvd != [] {
      var n := |recvd| - 1;
      keep := MeantIsSome(recvd[..n], t, a);
      var before, k := PositionsFor(recvd[..n], t), recvd[n].to == Some(t);
      assert Payloads(recvd, before) == Payloads(recvd[..n], before);
      if k {
        PayloadsSnoc(recvd, before, n);
      }
      if recvd[n].src == a {
        FilterOneMore(LoggedOf(recvd[..n], a), keep, recvd[n].datagram, k);
        keep := keep + [k];
      } else {
        assert LoggedOf(recvd, a) == LoggedOf(recvd[..n], a);
      }
      assert PositionsFor(recvd, t) == before + if k then [n] else [];
    }
  }

  /** What a task has framed are packets that the listener received from its source, in order. */
  lemma FramedOfSource(run: Path, n: nat, t: TaskId)
    requires IsRun(run) && n < |run.states| && t < |run.states[n].tasks|
    ensures var s := run.states[n];
      && (forall i :: 0 <= i < |s.tasks[t].framed| ==> s.tasks[t].framed[i] < |s.recvd|)
      && Subsequence(FramedBy(s, t), PacketsOf(run.steps, s.tasks[t].src, n))
  {
    var s, a := run.states[n], run.states[n].tasks[t].src;
    RunInv(run, n);
    FramedIsStart(run, n, t);
    PacketsAreLogged(run, a, n);
    var meant := Payloads(s.recvd, PositionsFor(s.recvd, t));
    var keep := MeantIsSome(s.recvd, t, a);
    assert FramedBy(s, t) <= meant;
    PrefixIsSubsequence(FramedBy(s, t), meant);
    SubsequenceTransitive(FramedBy(s, t), meant, LoggedOf(s.recvd, a));
  }

  /** Nothing of task `t` waits inside the client: not in its channel, not with the listener, not half issued. */
  predicate Settled(s: State, t: TaskId) {
    && t < |s.tasks| && s.tasks[t].inboxOpen && s.tasks[t].inbox == [] && s.tasks[t].toIssue == []
    && s.listener != Handing(t)
  }

  /**
   * No packet of a game client is lost inside the bridge: of a settled task that is the only one of
   * its source, the link carries the framing of all packets that the source has sent, in order.
   */
  lemma LinkCarriesAll(run: Path, n: nat, t: TaskId)
    requires IsRun(run) && n < |run.states| && run.states[0].target && Settled(run.states[n], t)
    requires var tasks := run.states[n].tasks; forall u :: 0 <= u < |tasks| && u != t ==> tasks[u].src != tasks[t].src
    ensures var s := run.states[n];
      && s.tasks[t].link.Some?
      && SentOn(s.wire, s.tasks[t].link.value) == Stream(PacketsOf(run.steps, s.tasks[t].src, n))
  {
    var s := run.states[n];
    RunReachable(run, n);
    Upstream(s, t);
    MeantForSource(run, n, t);
    SettledFramed(run, n, t);
    RunInv(run, n);
    assert UpAt(s, t);
  }

  lemma SettledFramed(run: Path, n: nat, t: TaskId)
    requires IsRun(run) && n < |run.states| && Settled(run.states[n], t)
    ensures run.states[n].tasks[t].framed == PositionsFor(run.states[n].recvd, t)
  {
    var y := run.states[n].tasks[t];
    PacketsInOrder(run, n, t);
    assert y.framed + [] == y.framed && InHand(run.states[n], t) == [];
  }

  lemma RunReachable(run: Path, n: nat)
    requires IsRun(run) && n < |run.states|
    ensures Reachable(run.states[n])
  {
    var part := Path(run.states[..n + 1], run.steps[..n]);
    assert forall i :: 0 <= i < n ==> part.steps[i] == run.steps[i];
    assert IsRun(part) && part.Last() == run.states[n];
  }

  // ----------------------------------------------------------------------------- the maps

  /** The source that task `t` was started for. */
  function SourceOf(s: State, t: TaskId): Option<Addr> {
    if t < |s.tasks| then Some(s.tasks[t].src) else None
  }

  /** Whom the next packet of source `a` goes to: the latest task of `a` to have a link, none once one left. */
  function EntryAfter(run: Path, a: Addr, n: nat): Option<TaskId>
    requires n <= |run.steps| < |run.states|
  {
    if n == 0 then None
    else
      match run.steps[n - 1]
      case Establish(t, _) => if SourceOf(run.states[n - 1], t) == Some(a) then Some(t) else EntryAfter(run, a, n - 1)
      case Leave(t) => if SourceOf(run.states[n - 1], t) == Some(a) then None else EntryAfter(run, a, n - 1)
      case _ => EntryAfter(run, a, n - 1)
  }

  function Entry(s: State, a: Addr): Option<TaskId> {
    if a in s.udpLinks then Some(s.udpLinks[a]) else None
  }

  lemma EntryStep(s: State, step: Step, a: Addr)
    requires Structured(s) && Enabled(s, step)
    ensures Entry(Do(s, step), a)
         == if step.Establish? && SourceOf(s, step.t) == Some(a) then Some(step.t)
            else if step.Leave? && SourceOf(s, step.t) == Some(a) then None
            else Entry(s, a)
  {
    if OfSender(step) {
      IssueKeepsEvents(s, step);
    } else if step.TakeChunk? {
      TakeKeepsEvents(s, step);
    }
  }

  ghost predicate EntryFits(run: Path, a: Addr, n: nat) {
    n <= |run.steps| < |run.states| && Entry(run.states[n], a) == EntryAfter(run, a, n)
  }

  lemma EntryNext(run: Path, a: Addr, n: nat)
    requires IsRun(run) && n < |run.steps| && EntryFits(run, a, n)
    ensures EntryFits(run, a, n + 1)
  {
    var step := run.steps[n];
    EntryStep(run.states[n], step, a);
  }

  lemma EntryExactly(run: Path, a: Addr, n: nat)
    requires IsRun(run) && n < |run.states|
    ensures Entry(run.states[n], a) == EntryAfter(run, a, n)
  {
    forall i: nat | i < n && EntryFits(run, a, i) ensures EntryFits(run, a, i + 1) {
      EntryNext(run, a, i);
    }
    Climb((i: nat) => EntryFits(run, a, i), n);
  }

  /** The step takes link `l` out of `link_data`: its close is handled, or its task is done. */
  predicate Unlinks(s: State, step: Step, l: LinkId) {
    match step
    case Route => s.events != [] && s.events[0] == Closed(l)
    case Unregister(t) => LinkOf(s, t) == Some(l)
    case _ => false
  }

  /** Whom the data of link `l` goes to: the latest task to have registered it, none once it was taken out. */
  function ReceiverAfter(run: Path, l: LinkId, n: nat): Option<TaskId>
    requires n <= |run.steps| < |run.states|
  {
    if n == 0 then None
    else ReceiverNow(run.states[n - 1], run.steps[n - 1], l, ReceiverAfter(run, l, n - 1))
  }

  function ReceiverNow(s: State, step: Step, l: LinkId, before: Option<TaskId>): Option<TaskId> {
    if step.Register? && LinkOf(s, step.t) == Some(l) then Some(step.t)
    else if Unlinks(s, step, l) then None
    else before
  }

  function Receiver(s: State, l: LinkId): Option<TaskId> {
    if l in s.linkData then Some(s.linkData[l]) else None
  }

  lemma LinkRoute(s: State, l: LinkId)
    requires Structured(s) && Enabled(s, Route)
    ensures Receiver(Do(s, Route), l) == if Unlinks(s, Route, l) then None else Receiver(s, l)
  {
  }

  lemma LinkDataStep(s: State, step: Step, l: LinkId)
    requires Structured(s) && Enabled(s, step)
    ensures Receiver(Do(s, step), l) == ReceiverNow(s, step, l, Receiver(s, l))
  {
    if OfSender(step) {
      IssueKeepsEvents(s, step);
    } else if step.TakeChunk? {
      TakeKeepsEvents(s, step);
    } else if step.Route? {
      LinkRoute(s, l);
    }
  }

  ghost predicate ReceiverFits(run: Path, l: LinkId, n: nat) {
    n <= |run.steps| < |run.states| && Receiver(run.states[n], l) == ReceiverAfter(run, l, n)
  }

  lemma ReceiverNext(run: Path, l: LinkId, n: nat)
    requires IsRun(run) && n < |run.steps| && ReceiverFits(run, l, n)
    ensures ReceiverFits(run, l, n + 1)
  {
    var step := run.steps[n];
    LinkDataStep(run.states[n], step, l);
  }

  lemma LinkDataExactly(run: Path, l: LinkId, n: nat)
    requires IsRun(run) && n < |run.states|
    ensures Receiver(run.states[n], l) == ReceiverAfter(run, l, n)
  {
    forall i: nat | i < n && ReceiverFits(run, l, i) ensures ReceiverFits(run, l, i + 1) {
      ReceiverNext(run, l, i);
    }
    Climb((i: nat) => ReceiverFits(run, l, i), n);
  }

  /**
   * The maps lead only to tasks that are at work: no packet goes to a task that has ended, and no
   * chunk to one that has not registered or has left.
   */
  ghost predicate AtWork(s: State) {
    && (forall a :: a in s.udpLinks && s.udpLinks[a] < |s.tasks| ==>
          s.tasks[s.udpLinks[a]].phase in {FirstPacket, Relaying, Leaving})
    && (forall l :: l in s.linkData && s.linkData[l] < |s.tasks| ==> s.tasks[s.linkData[l]].phase == Relaying)
  }

  /** The phase of a task and whether the maps lead to it, over one step. */
  lemma AtWorkStep(s: State, step: Step)
    requires Inv(s) && Structured(s) && Enabled(s, step) && AtWork(s)
    ensures AtWork(Do(s, step))
  {
    var s' := Do(s, step);
    forall a | a in s'.udpLinks && s'.udpLinks[a] < |s'.tasks|
      ensures s'.tasks[s'.udpLinks[a]].phase in {FirstPacket, Relaying, Leaving}
    {
      EntryAtWork(s, step, a);
    }
    forall l | l in s'.linkData && s'.linkData[l] < |s'.tasks| ensures s'.tasks[s'.linkData[l]].phase == Relaying {
      ReceiverAtWork(s, step, l);
    }
  }

  lemma EntryAtWork(s: State, step: Step, a: Addr)
    requires Inv(s) && Structured(s) && Enabled(s, step) && AtWork(s) && a in Do(s, step).udpLinks
    ensures var s' := Do(s, step);
      s'.udpLinks[a] < |s'.tasks| ==> s'.tasks[s'.udpLinks[a]].phase in {FirstPacket, Relaying, Leaving}
  {
    EntryStep(s, step, a);
    var t := Do(s, step).udpLinks[a];
    assert t < |s.tasks|;
    PhaseStep(s, step, t);
    assert UpAt(s, t);
  }

  lemma ReceiverAtWork(s: State, step: Step, l: LinkId)
    requires Inv(s) && Structured(s) && Enabled(s, step) && AtWork(s) && l in Do(s, step).linkData
    ensures var s' := Do(s, step); s'.linkData[l] < |s'.tasks| ==> s'.tasks[s'.linkData[l]].phase == Relaying
  {
    LinkDataStep(s, step, l);
    var t := Do(s, step).linkData[l];
    assert t < |s.tasks|;
    PhaseStep(s, step, t);
    assert UpAt(s, t);
  }

  lemma {:induction false} MapsLeadToWork(run: Path, n: nat)
    requires IsRun(run) && n < |run.states|
    ensures AtWork(run.states[n])
  {
    if n > 0 {
      MapsLeadToWork(run, n - 1);
      RunInv(run, n - 1);
      var step := run.steps[n - 1];
      AtWorkStep(run.states[n - 1], step);
    }
  }

  // ------------------------------------------------------------------------------ going on

  /** A send task that is alive can process all its channel holds, or it ends at an empty packet. */
  lemma {:induction false} SenderCanFinish(s: State, t: TaskId) returns (path: Path)
    requires Inv(s) && Sending(s, t)
    ensures path.Valid() && path.states[0] == s && t < |path.Last().tasks|
    ensures path.Last().tasks[t].toIssue == []
    ensures path.Last().tasks[t].inbox == [] || !path.Last().tasks[t].inboxOpen
    decreases |s.tasks[t].inbox|, |s.tasks[t].toIssue|
  {
    InvStructured(s);
    if s.tasks[t].toIssue != [] {
      IssueGoesOn(s, t);
      var rest := SenderCanFinish(IssuesChunk(s, t), t);
      path := Prepend(s, IssueNext(t, true), rest);
    } else if s.tasks[t].inbox == [] {
      path := Path([s], []);
    } else {
      PacketGoesOn(s, t);
      var s' := TakesPacket(s, t);
      var rest := Path([s'], []);
      if s'.tasks[t].inboxOpen {
        rest := SenderCanFinish(s', t);
      }
      path := Prepend(s, TakePacket(t), rest);
    }
  }

  lemma IssueGoesOn(s: State, t: TaskId)
    requires Inv(s) && Structured(s) && Enabled(s, IssueNext(t, true))
    ensures Do(s, IssueNext(t, true)) == IssuesChunk(s, t) && Inv(IssuesChunk(s, t)) && Sending(IssuesChunk(s, t), t)
    ensures IssuesChunk(s, t).tasks[t].inbox == s.tasks[t].inbox
    ensures |IssuesChunk(s, t).tasks[t].toIssue| < |s.tasks[t].toIssue|
  {
    StepKeeps(s, IssueNext(t, true));
  }

  lemma PacketGoesOn(s: State, t: TaskId)
    requires Inv(s) && Structured(s) && Enabled(s, TakePacket(t))
    ensures Do(s, TakePacket(t)) == TakesPacket(s, t) && Inv(TakesPacket(s, t)) && InPhase(TakesPacket(s, t), t, Relaying)
    ensures |TakesPacket(s, t).tasks[t].inbox| < |s.tasks[t].inbox|
    ensures !TakesPacket(s, t).tasks[t].inboxOpen ==> TakesPacket(s, t).tasks[t].toIssue == []
  {
    StepKeeps(s, TakePacket(t));
  }

  /** A receive task that is alive can process all its channel holds. */
  lemma {:induction false} ReceiverCanFinish(s: State, t: TaskId) returns (path: Path)
    requires Inv(s) && InPhase(s, t, Relaying) && s.tasks[t].open
    ensures path.Valid() && path.states[0] == s && t < |path.Last().tasks|
    ensures path.Last().tasks[t].q.queue == [] && path.Last().tasks[t].open
    decreases |s.tasks[t].q.queue|
  {
    InvStructured(s);
    if s.tasks[t].q.queue == [] {
      path := Path([s], []);
    } else {
      ChunkGoesOn(s, t);
      var rest := ReceiverCanFinish(TakesChunk(s, t, true), t);
      path := Prepend(s, TakeChunk(t, true), rest);
    }
  }

  lemma ChunkGoesOn(s: State, t: TaskId)
    requires Inv(s) && Structured(s) && Enabled(s, TakeChunk(t, true))
    ensures Do(s, TakeChunk(t, true)) == TakesChunk(s, t, true) && Inv(TakesChunk(s, t, true))
    ensures InPhase(TakesChunk(s, t, true), t, Relaying) && TakesChunk(s, t, true).tasks[t].open
    ensures |TakesChunk(s, t, true).tasks[t].q.queue| < |s.tasks[t].q.queue|
  {
    StepKeeps(s, TakeChunk(t, true));
  }

  lemma {:induction false} Append(first: Path, last: Path) returns (path: Path)
    requires first.Valid() && last.Valid() && first.Last() == last.states[0]
    ensures path.Valid() && path.states[0] == first.states[0] && path.Last() == last.Last()
    decreases |first.steps|
  {
    if first.steps == [] {
      path := last;
    } else {
      var step, later := first.steps[0], Path(first.states[1..], first.steps[1..]);
      LaterIsPath(first, later);
      var rest := Append(later, last);
      path := Prepend(first.states[0], step, rest);
    }
  }

  lemma LaterIsPath(first: Path, later: Path)
    requires first.Valid() && first.steps != [] && later == Path(first.states[1..], first.steps[1..])
    ensures later.Valid() && later.Last() == first.Last() && Moves(first.states[0], first.steps[0], later.states[0])
  {
    forall i | 0 <= i < |later.steps| ensures Moves(later.states[i], later.steps[i], later.states[i + 1]) {
      var step := first.steps[i + 1];
      assert Moves(first.states[i + 1], step, first.states[i + 2]);
    }
  }

  /** The task can issue: its first packet, or as its send task. */
  predicate Issuing(s: State, t: TaskId) {
    InPhase(s, t, FirstPacket) || Sending(s, t)
  }

  /** The state with what task `t` has in hand issued. */
  predicate AllIssued(s: State, s': State, t: TaskId) {
    && t < |s.tasks| && s' == s.(tasks := s.tasks[t := s.tasks[t].(toIssue := [])], wire := s'.wire)
    && IssuedBy(s'.wire, t) == IssuedBy(s.wire, t) + s.tasks[t].toIssue
  }

  lemma OneStep(s: State, step: Step, s': State) returns (path: Path)
    requires Inv(s) && Moves(s, step, s')
    ensures path.Valid() && path.states[0] == s && path.Last() == s' && Inv(s') && Structured(s')
  {
    StepKeeps(s, step);
    InvStructured(s');
    path := Path([s, s'], [step]);
  }

  lemma ChunkIssued(s: State, t: TaskId)
    requires t < |s.tasks| && s.tasks[t].toIssue != [] && s.tasks[t].link.Some?
    ensures var s' := IssuesChunk(s, t); var y := s.tasks[t];
      && s' == s.(tasks := s.tasks[t := y.(toIssue := y.toIssue[1..])], wire := s'.wire)
      && IssuedBy(s'.wire, t) == IssuedBy(s.wire, t) + [y.toIssue[0]]
  {
    SentSnoc(s.wire, Sent(t, s.tasks[t].link.value, s.tasks[t].toIssue[0]), t);
  }

  lemma IssueMoves(s: State, t: TaskId) returns (step: Step)
    requires Structured(s) && Issuing(s, t) && s.tasks[t].toIssue != []
    ensures s.tasks[t].link.Some? && Moves(s, step, IssuesChunk(s, t))
  {
    step := if InPhase(s, t, FirstPacket) then IssueFirst(t, true) else IssueNext(t, true);
  }

  lemma AllIssuedMore(s: State, s1: State, s': State, t: TaskId)
    requires t < |s.tasks| && s.tasks[t].toIssue != [] && s.tasks[t].link.Some? && s1 == IssuesChunk(s, t)
    requires AllIssued(s1, s', t)
    ensures AllIssued(s, s', t)
  {
    ChunkIssued(s, t);
    FirstMoves(IssuedBy(s.wire, t), s.tasks[t].toIssue);
  }

  /** A task can issue everything it has in hand. */
  lemma {:induction false} IssueAll(s: State, t: TaskId) returns (path: Path)
    requires Inv(s) && Issuing(s, t)
    ensures path.Valid() && path.states[0] == s && Inv(path.Last()) && AllIssued(s, path.Last(), t)
    decreases |s.tasks[t].toIssue|
  {
    InvStructured(s);
    if s.tasks[t].toIssue == [] {
      path := NothingToIssue(s, t);
    } else {
      var step := IssueMoves(s, t);
      var s1 := IssuesChunk(s, t);
      var first := OneStep(s, step, s1);
      ChunkIssued(s, t);
      var rest := IssueAll(s1, t);
      AllIssuedMore(s, s1, rest.Last(), t);
      path := Append(first, rest);
    }
  }

  lemma NothingToIssue(s: State, t: TaskId) returns (path: Path)
    requires t < |s.tasks| && s.tasks[t].toIssue == []
    ensures path.Valid() && path.states[0] == s && path.Last() == s && AllIssued(s, s, t)
  {
    path := Path([s], []);
    assert IssuedBy(s.wire, t) + [] == IssuedBy(s.wire, t);
  }

  /** A task that has just got its link. */
  predicate Opened(s: State, t: TaskId, src: Addr, l: LinkId) {
    && InPhase(s, t, FirstPacket) && s.tasks[t].src == src && s.tasks[t].link == Some(l)
    && s.tasks[t].inboxOpen && Entry(s, src) == Some(t)
  }

  lemma TaskStarted(s: State, src: Addr, d: Datagram) returns (s': State, path: Path)
    requires Inv(s) && Structured(s) && s.listener == Idle && s.target && src !in s.udpLinks && |d| <= UDP_READ_BUF
    ensures path.Valid() && path.states[0] == s && path.Last() == s' && Inv(s') && Structured(s')
    ensures s'.listener == Idle && s'.wire == s.wire && |s'.tasks| == |s.tasks| + 1 && s'.tasks[..|s.tasks|] == s.tasks
    ensures s'.tasks[|s.tasks|] == Task(src, |s.recvd|, Establishing, None, [], false, [], [], EMPTY, false)
    ensures |s'.recvd| == |s.recvd| + 1 && s'.recvd[|s.recvd|].datagram == d
  {
    s' := OnPacket(s, src, d);
    path := OneStep(s, Recv(src, d), s');
  }

  lemma LinkComesUp(s: State, t: TaskId, l: LinkId) returns (s': State, path: Path)
    requires Inv(s) && Structured(s) && s.listener == Idle && InPhase(s, t, Establishing)
    requires forall u :: 0 <= u < |s.tasks| ==> s.tasks[u].link != Some(l)
    ensures path.Valid() && path.states[0] == s && path.Last() == s' && Inv(s')
    ensures Opened(s', t, s.tasks[t].src, l) && s'.wire == s.wire
    ensures s.tasks[t].first < |s.recvd| && s'.tasks[t].toIssue == Chunks(s.recvd[s.tasks[t].first].datagram)
  {
    s' := Establishes(s, t, l);
    path := OneStep(s, Establish(t, l), s');
  }

  lemma TaskRegisters(s: State, t: TaskId, src: Addr, l: LinkId) returns (s': State, path: Path)
    requires Inv(s) && Structured(s) && Opened(s, t, src, l) && s.tasks[t].toIssue == []
    ensures path.Valid() && path.states[0] == s && path.Last() == s'
    ensures Sending(s', t) && s'.tasks[t].open && s'.tasks[t].src == src && s'.tasks[t].link == Some(l)
    ensures s'.wire == s.wire && Entry(s', src) == Some(t) && Receiver(s', l) == Some(t)
  {
    s' := Do(s, Register(t));
    path := OneStep(s, Register(t), s');
  }

  lemma FirstPacketIssued(s: State, t: TaskId, src: Addr, l: LinkId) returns (s': State, path: Path)
    requires Inv(s) && Opened(s, t, src, l) && IssuedBy(s.wire, t) == []
    ensures path.Valid() && path.states[0] == s && path.Last() == s' && Inv(s') && Structured(s')
    ensures Opened(s', t, src, l) && s'.tasks[t].toIssue == [] && IssuedBy(s'.wire, t) == s.tasks[t].toIssue
  {
    path := IssueAll(s, t);
    s' := path.Last();
    InvStructured(s');
    assert [] + s.tasks[t].toIssue == s.tasks[t].toIssue;
  }

  /** A new source can get a link that carries the framing of its first packet, and both map entries. */
  lemma CanOpen(s: State, src: Addr, d: Datagram, l: LinkId) returns (path: Path)
    requires Inv(s) && s.listener == Idle && s.target && src !in s.udpLinks && |d| <= UDP_READ_BUF
    requires forall u :: 0 <= u < |s.tasks| ==> s.tasks[u].link != Some(l)
    ensures path.Valid() && path.states[0] == s
    ensures var s', t := path.Last(), |s.tasks|;
      && Sending(s', t) && s'.tasks[t].open && s'.tasks[t].src == src && s'.tasks[t].link == Some(l)
      && IssuedBy(s'.wire, t) == Chunks(d)
      && Entry(s', src) == Some(t) && Receiver(s', l) == Some(t)
  {
    var t := |s.tasks|;
    InvStructured(s);
    NothingIssued(s.wire, t);
    var s1, started := TaskStarted(s, src, d);
    var s2, up := LinkComesUp(s1, t, l);
    var s3, issued := FirstPacketIssued(s2, t, src, l);
    var s4, registers := TaskRegisters(s3, t, src, l);
    path := Append(issued, registers);
    path := Append(up, path);
    path := Append(started, path);
  }

  /** A packet of a known source can be issued whole, after what its task has in hand. */
  lemma CanSend(s: State, t: TaskId, d: Datagram) returns (path: Path)
    requires Inv(s) && Sending(s, t) && s.listener == Idle && Entry(s, s.tasks[t].src) == Some(t)
    requires s.tasks[t].inbox == [] && 0 < |d| <= UDP_READ_BUF
    ensures path.Valid() && path.states[0] == s
    ensures IssuedBy(path.Last().wire, t) == IssuedBy(s.wire, t) + s.tasks[t].toIssue + Chunks(d)
  {
    var first := IssueAll(s, t);
    InvStructured(first.Last());
    var s2, handed := PacketQueued(first.Last(), t, d);
    var s3, taken := PacketTaken(s2, t, d);
    path := IssueAll(s3, t);
    path := Append(taken, path);
    path := Append(handed, path);
    path := Append(first, path);
  }

  lemma PacketQueued(s: State, t: TaskId, d: Datagram) returns (s': State, path: Path)
    requires Inv(s) && Structured(s) && Sending(s, t) && s.listener == Idle && Entry(s, s.tasks[t].src) == Some(t)
    requires s.tasks[t].inbox == [] && s.tasks[t].toIssue == [] && |d| <= UDP_READ_BUF
    ensures path.Valid() && path.states[0] == s && path.Last() == s' && Inv(s') && Structured(s')
    ensures Sending(s', t) && s'.tasks[t].toIssue == [] && s'.wire == s.wire && s'.recvd != []
    ensures s'.tasks[t].inbox == [|s'.recvd| - 1] && s'.recvd[|s'.recvd| - 1].datagram == d
  {
    var a := s.tasks[t].src;
    var s1 := OnPacket(s, a, d);
    var first := OneStep(s, Recv(a, d), s1);
    s' := HandsOver(s1);
    var second := OneStep(s1, HandOver, s');
    path := Append(first, second);
  }

  lemma PacketTaken(s: State, t: TaskId, d: Datagram) returns (s': State, path: Path)
    requires Inv(s) && Structured(s) && Sending(s, t) && s.tasks[t].toIssue == [] && s.recvd != [] && d != []
    requires s.tasks[t].inbox == [|s.recvd| - 1] && s.recvd[|s.recvd| - 1].datagram == d
    ensures path.Valid() && path.states[0] == s && path.Last() == s' && Inv(s')
    ensures Sending(s', t) && s'.tasks[t].toIssue == Chunks(d) && s'.wire == s.wire
  {
    s' := TakesPacket(s, t);
    path := OneStep(s, TakePacket(t), s');
  }

  lemma EventReported(s: State, e: Event) returns (s': State, path: Path)
    requires Inv(s) && Structured(s) && s.events == []
    ensures path.Valid() && path.states[0] == s && path.Last() == s' && Inv(s') && Structured(s')
    ensures s' == s.(events := [e])
  {
    s' := Do(s, EventArrives(e));
    path := OneStep(s, EventArrives(e), s');
  }

  lemma ChunkQueues(s: State, t: TaskId, l: LinkId, c: Chunk)
    requires Structured(s) && InPhase(s, t, Relaying) && Receiver(s, l) == Some(t)
    requires s.tasks[t].open && s.tasks[t].q.queue == []
    ensures var s' := OnEvent(s, Data(l, c));
      && InPhase(s', t, Relaying) && s'.sentBack == s.sentBack
      && s'.tasks[t] == s.tasks[t].(q := s.tasks[t].q.(queue := [c]))
  {
  }

  lemma ChunkRouted(s: State, t: TaskId, l: LinkId, c: Chunk) returns (s': State, path: Path)
    requires Inv(s) && Structured(s) && s.events == [Data(l, c)] && InPhase(s, t, Relaying) && Receiver(s, l) == Some(t)
    requires s.tasks[t].open && s.tasks[t].q.queue == []
    ensures path.Valid() && path.states[0] == s && path.Last() == s' && Inv(s') && Structured(s')
    ensures InPhase(s', t, Relaying) && s'.sentBack == s.sentBack
    ensures s'.tasks[t] == s.tasks[t].(q := s.tasks[t].q.(queue := [c]))
  {
    s' := Do(s, Route);
    path := OneStep(s, Route, s');
    ChunkQueues(s.(events := s.events[1..]), t, l, c);
  }

  lemma ChunkTaken(s: State, t: TaskId, c: Chunk) returns (s': State, path: Path)
    requires Inv(s) && Structured(s) && InPhase(s, t, Relaying) && s.tasks[t].open && s.tasks[t].q.queue == [c]
    ensures path.Valid() && path.states[0] == s && path.Last() == s'
    ensures t < |s'.tasks| && s'.tasks[t].open && s'.tasks[t].q.taken == s.tasks[t].q.taken + [c]
    ensures WrittenBy(s'.sentBack, t) == WrittenBy(s.sentBack, t) + PushSpec(s.tasks[t].q.buf, c).complete.ToSeq()
  {
    s' := TakesChunk(s, t, true);
    TakeWrites(s, t, true, t);
    path := OneStep(s, TakeChunk(t, true), s');
  }

  /** A chunk that comes over the link of a task can reach its receive task, and what it completes the source. */
  lemma CanReceive(s: State, t: TaskId, l: LinkId, c: Chunk) returns (path: Path)
    requires Inv(s) && s.events == [] && InPhase(s, t, Relaying) && Receiver(s, l) == Some(t)
    requires s.tasks[t].open && s.tasks[t].q.queue == []
    ensures path.Valid() && path.states[0] == s
    ensures var s' := path.Last();
      && t < |s'.tasks| && s'.tasks[t].open && s'.tasks[t].q.taken == s.tasks[t].q.taken + [c]
      && WrittenBy(s'.sentBack, t) == WrittenBy(s.sentBack, t) + PushSpec(s.tasks[t].q.buf, c).complete.ToSeq()
  {
    InvStructured(s);
    var s1, reported := EventReported(s, Data(l, c));
    var s2, routed := ChunkRouted(s1, t, l, c);
    var s3, taken := ChunkTaken(s2, t, c);
    path := Append(routed, taken);
    path := Append(reported, path);
  }
}
