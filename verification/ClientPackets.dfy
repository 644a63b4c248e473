/** No packet that the bridge client hands to a task is lost inside the client. */
module ClientPackets {
  import opened Basics
  import opened Framing
  import opened Intake
  import opened Logs
  import opened ClientRelay
  import opened ClientInvariant

  // ------------------------------------------------------------------ whom a step concerns

  /** The step may change task `u`. */
  predicate Concerns(s: State, step: Step, u: TaskId) {
    match step
    case EventArrives(_) => false
    case Route => true
    case Recv(_, _) => false
    case HandOver => s.listener == Handing(u)
    case HandFails => false
    case _ => step.t == u
  }

  lemma BystanderIssue(s: State, step: Step, u: TaskId)
    requires Structured(s) && Enabled(s, step) && u < |s.tasks| && (step.IssueFirst? || step.IssueNext?) && step.t != u
    ensures u < |Do(s, step).tasks| && Do(s, step).tasks[u] == s.tasks[u]
  {
    if step.accepted {
      assert IssuesChunk(s, step.t).tasks[u] == s.tasks[u];
    }
  }

  lemma BystanderTake(s: State, step: Step, u: TaskId)
    requires Structured(s) && Enabled(s, step) && u < |s.tasks| && (step.TakePacket? || step.TakeChunk?) && step.t != u
    ensures u < |Do(s, step).tasks| && Do(s, step).tasks[u] == s.tasks[u]
  {
    if step.TakePacket? {
      assert TakesPacket(s, step.t).tasks[u] == s.tasks[u];
    } else {
      assert TakesChunk(s, step.t, step.sendOk).tasks[u] == s.tasks[u];
    }
  }

  lemma BystanderFlags(s: State, step: Step, u: TaskId)
    requires Structured(s) && Enabled(s, step) && u < |s.tasks| && OnlyFlags(step) && step.t != u
    ensures u < |Do(s, step).tasks| && Do(s, step).tasks[u] == s.tasks[u]
  {
  }

  lemma Bystander(s: State, step: Step, u: TaskId)
    requires Structured(s) && Enabled(s, step) && u < |s.tasks| && !Concerns(s, step, u)
    ensures u < |Do(s, step).tasks| && Do(s, step).tasks[u] == s.tasks[u]
  {
    if OnlyFlags(step) {
      BystanderFlags(s, step, u);
    } else {
      match step
      case TakePacket(_) => BystanderTake(s, step, u);
      case TakeChunk(_, _) => BystanderTake(s, step, u);
      case IssueFirst(_, _) => BystanderIssue(s, step, u);
      case IssueNext(_, _) => BystanderIssue(s, step, u);
      case _ =>
    }
  }

  /** The router puts chunks into a task's channel and leaves the rest of the task alone. */
  lemma RouteTask(s: State, u: TaskId)
    requires Structured(s) && Enabled(s, Route) && u < |s.tasks|
    ensures |Do(s, Route).tasks| == |s.tasks|
    ensures Do(s, Route).tasks[u] == s.tasks[u].(q := Do(s, Route).tasks[u].q)
    ensures Do(s, Route).recvd == s.recvd && Do(s, Route).listener == s.listener
    ensures Do(s, Route).udpLinks == s.udpLinks
  {
  }

  // ---------------------------------------------------------------- every packet is accounted for

  /**
   * Where packet `i` of task `t` is: framed or in the channel; or it is the empty packet that ended
   * the send task, or the first packet while there is no link, or the listener has it in hand.
   */
  predicate Accounted(s: State, t: TaskId, i: nat)
    requires t < |s.tasks| && i < |s.recvd|
  {
    var y := s.tasks[t];
    || i in y.framed || i in y.inbox
    || (s.recvd[i].datagram == [] && !y.inboxOpen)
    || (y.link.None? && i == y.first)
    || (s.listener in {Handing(t), Stuck(t)} && i == |s.recvd| - 1)
  }

  ghost predicate NothingLost(s: State) {
    forall t, i :: 0 <= t < |s.tasks| && 0 <= i < |s.recvd| && s.recvd[i].to == Some(t) ==> Accounted(s, t, i)
  }

  /** A step that leaves packets, listener and the sending halves of the tasks as they are. */
  lemma QuietAccounts(s: State, s': State, t: TaskId, i: nat)
    requires t < |s.tasks| && i < |s.recvd| && t < |s'.tasks| && Accounted(s, t, i)
    requires s'.recvd == s.recvd && s'.listener == s.listener
    requires var y, y' := s.tasks[t], s'.tasks[t];
      && y'.framed == y.framed && y'.inbox == y.inbox && y'.link == y.link && y'.first == y.first
      && (y'.inboxOpen ==> y.inboxOpen)
    ensures Accounted(s', t, i)
  {
  }

  lemma IssuedAccounts(s: State, t: TaskId, i: nat)
    requires t < |s.tasks| && s.tasks[t].toIssue != [] && s.tasks[t].link.Some? && i < |s.recvd| && Accounted(s, t, i)
    ensures t < |IssuesChunk(s, t).tasks| && IssuesChunk(s, t).recvd == s.recvd && Accounted(IssuesChunk(s, t), t, i)
  {
    QuietAccounts(s, IssuesChunk(s, t), t, i);
  }

  lemma IssueAccounts(s: State, step: Step, t: TaskId, i: nat)
    requires Structured(s) && Enabled(s, step) && t < |s.tasks| && i < |s.recvd| && Accounted(s, t, i)
    requires (step.IssueFirst? || step.IssueNext?) && step.t == t
    ensures t < |Do(s, step).tasks| && Do(s, step).recvd == s.recvd && Accounted(Do(s, step), t, i)
  {
    if step.accepted {
      IssuedAccounts(s, t, i);
    } else {
      QuietAccounts(s, Do(s, step), t, i);
    }
  }

  lemma FlagsAccount(s: State, step: Step, t: TaskId, i: nat)
    requires Structured(s) && Enabled(s, step) && t < |s.tasks| && i < |s.recvd| && Accounted(s, t, i)
    requires OnlyFlags(step) && step.t == t
    ensures t < |Do(s, step).tasks| && Do(s, step).recvd == s.recvd && Accounted(Do(s, step), t, i)
  {
    QuietAccounts(s, Do(s, step), t, i);
  }

  lemma TakeChunkAccounts(s: State, t: TaskId, sendOk: bool, i: nat)
    requires t < |s.tasks| && s.tasks[t].q.queue != [] && i < |s.recvd| && Accounted(s, t, i)
    ensures t < |TakesChunk(s, t, sendOk).tasks| && TakesChunk(s, t, sendOk).recvd == s.recvd
    ensures Accounted(TakesChunk(s, t, sendOk), t, i)
  {
    QuietAccounts(s, TakesChunk(s, t, sendOk), t, i);
  }

  /** A packet that the send task takes out of its channel is framed, unless it is empty. */
  lemma TakePacketAccounts(s: State, t: TaskId, i: nat)
    requires Structured(s) && Enabled(s, TakePacket(t)) && i < |s.recvd| && Accounted(s, t, i)
    ensures t < |TakesPacket(s, t).tasks| && TakesPacket(s, t).recvd == s.recvd
    ensures Accounted(TakesPacket(s, t), t, i)
  {
    var y, y' := s.tasks[t], TakesPacket(s, t).tasks[t];
    if i in y.inbox && i != y.inbox[0] {
      HeadTail(y.inbox);
      assert i in y.inbox[1..];
    } else if i == y.inbox[0] && s.recvd[i].datagram != [] {
      assert i in y.framed + [i];
    }
  }

  lemma EstablishAccounts(s: State, t: TaskId, l: LinkId, i: nat)
    requires Enabled(s, Establish(t, l)) && s.tasks[t].first < |s.recvd| && i < |s.recvd|
    requires i == s.tasks[t].first
    ensures Accounted(Establishes(s, t, l), t, i)
  {
  }

  lemma HandOverAccounts(s: State, t: TaskId, i: nat)
    requires Structured(s) && Enabled(s, HandOver) && t < |s.tasks| && i < |s.recvd| && Accounted(s, t, i)
    ensures t < |HandsOver(s).tasks| && HandsOver(s).recvd == s.recvd && Accounted(HandsOver(s), t, i)
  {
    if s.listener == Handing(t) {
      var y := s.tasks[t];
      assert |s.recvd| - 1 in y.inbox + [|s.recvd| - 1];
    }
  }

  lemma HandFailsAccounts(s: State, t: TaskId, i: nat)
    requires Structured(s) && Enabled(s, HandFails) && t < |s.tasks| && i < |s.recvd| && Accounted(s, t, i)
    ensures t < |Do(s, HandFails).tasks| && Do(s, HandFails).recvd == s.recvd && Accounted(Do(s, HandFails), t, i)
  {
  }

  lemma RecvAccounts(s: State, src: Addr, d: Datagram, t: TaskId, i: nat)
    requires Inv(s) && Structured(s) && Enabled(s, Recv(src, d)) && NothingLost(s)
    requires var s' := OnPacket(s, src, d); t < |s'.tasks| && i < |s'.recvd| && s'.recvd[i].to == Some(t)
    ensures Accounted(OnPacket(s, src, d), t, i)
  {
    var s' := OnPacket(s, src, d);
    if i < |s.recvd| {
      assert s'.recvd[i] == s.recvd[i];
      assert s'.tasks[t] == s.tasks[t];
      assert Accounted(s, t, i);
    }
  }

  /**
   * Before its link is up, no packet but the first was meant for a task: packets reach a task that
   * is not new only through `udp_links`.
   */
  ghost predicate FirstOnly(s: State) {
    forall i, t :: 0 <= i < |s.recvd| && 0 <= t < |s.tasks| && s.recvd[i].to == Some(t) && s.tasks[t].link.None? ==>
      i == s.tasks[t].first
  }

  lemma RecvFirst(s: State, src: Addr, d: Datagram)
    requires Inv(s) && Enabled(s, Recv(src, d)) && FirstOnly(s)
    ensures FirstOnly(OnPacket(s, src, d))
  {
    var s' := OnPacket(s, src, d);
    assert forall i :: 0 <= i < |s.recvd| ==> s'.recvd[i] == s.recvd[i];
    assert forall t :: 0 <= t < |s.tasks| ==> s'.tasks[t] == s.tasks[t];
  }

  lemma LinkStep(s: State, step: Step, t: TaskId)
    requires Structured(s) && Enabled(s, step) && t < |s.tasks|
    ensures t < |Do(s, step).tasks| && Do(s, step).tasks[t].first == s.tasks[t].first
    ensures Do(s, step).tasks[t].link == if step.Establish? && step.t == t then Some(step.l) else s.tasks[t].link
    ensures Do(s, step).tasks[t].src == s.tasks[t].src
  {
    if !Concerns(s, step, t) {
      Bystander(s, step, t);
    } else {
      match step
      case Route => RouteTask(s, t);
      case TakePacket(_) => assert Do(s, step) == TakesPacket(s, t);
      case TakeChunk(_, sendOk) => assert Do(s, step) == TakesChunk(s, t, sendOk);
      case IssueFirst(_, accepted) => if accepted { assert Do(s, step) == IssuesChunk(s, t); }
      case IssueNext(_, accepted) => if accepted { assert Do(s, step) == IssuesChunk(s, t); }
      case _ =>
    }
  }

  /** Only receiving a packet logs one or starts a task. */
  lemma OnlyRecvLogs(s: State, step: Step)
    requires Structured(s) && Enabled(s, step) && !step.Recv?
    ensures Do(s, step).recvd == s.recvd && |Do(s, step).tasks| == |s.tasks|
  {
    match step
    case Route => if s.tasks != [] { RouteTask(s, 0); }
    case TakePacket(t) => assert Do(s, step) == TakesPacket(s, t);
    case TakeChunk(t, sendOk) => assert Do(s, step) == TakesChunk(s, t, sendOk);
    case IssueFirst(t, accepted) => if accepted { assert Do(s, step) == IssuesChunk(s, t); }
    case IssueNext(t, accepted) => if accepted { assert Do(s, step) == IssuesChunk(s, t); }
    case _ =>
  }

  lemma OtherFirst(s: State, step: Step)
    requires Structured(s) && Enabled(s, step) && FirstOnly(s) && !step.Recv?
    ensures FirstOnly(Do(s, step))
  {
    OnlyRecvLogs(s, step);
    forall t | 0 <= t < |s.tasks|
      ensures Do(s, step).tasks[t].first == s.tasks[t].first
      ensures Do(s, step).tasks[t].link.None? ==> s.tasks[t].link.None?
    {
      LinkStep(s, step, t);
    }
  }

  /** One step loses none of the packets of task `t`. */
  lemma StepAccounts(s: State, step: Step, t: TaskId, i: nat)
    requires Inv(s) && Structured(s) && Enabled(s, step) && !step.Recv? && FirstOnly(s)
    requires t < |s.tasks| && i < |s.recvd| && s.recvd[i].to == Some(t) && Accounted(s, t, i)
    ensures t < |Do(s, step).tasks| && Do(s, step).recvd == s.recvd && Accounted(Do(s, step), t, i)
  {
    OnlyRecvLogs(s, step);
    if step.HandOver? {
      HandOverAccounts(s, t, i);
    } else if step.HandFails? {
      HandFailsAccounts(s, t, i);
    } else if !Concerns(s, step, t) {
      Bystander(s, step, t);
      ListenerStays(s, step);
      QuietAccounts(s, Do(s, step), t, i);
    } else {
      OwnAccounts(s, step, t, i);
    }
  }

  lemma ListenerStays(s: State, step: Step)
    requires Structured(s) && Enabled(s, step) && !step.Recv? && !step.HandOver? && !step.HandFails?
    ensures Do(s, step).listener == s.listener
  {
    match step
    case TakePacket(t) => assert Do(s, step) == TakesPacket(s, t);
    case TakeChunk(t, sendOk) => assert Do(s, step) == TakesChunk(s, t, sendOk);
    case IssueFirst(t, accepted) => if accepted { assert Do(s, step) == IssuesChunk(s, t); }
    case IssueNext(t, accepted) => if accepted { assert Do(s, step) == IssuesChunk(s, t); }
    case _ =>
  }

  lemma OwnAccounts(s: State, step: Step, t: TaskId, i: nat)
    requires Inv(s) && Structured(s) && Enabled(s, step) && Concerns(s, step, t) && FirstOnly(s) && !step.HandOver?
    requires t < |s.tasks| && i < |s.recvd| && s.recvd[i].to == Some(t) && Accounted(s, t, i)
    ensures t < |Do(s, step).tasks| && i < |Do(s, step).recvd| && Accounted(Do(s, step), t, i)
  {
    match step
    case Route =>
      RouteTask(s, t);
      QuietAccounts(s, Do(s, step), t, i);
    case Establish(_, l) =>
      assert s.tasks[t].link.None? by { assert UpAt(s, t); }
      EstablishAccounts(s, t, l, i);
    case TakePacket(_) => TakePacketAccounts(s, t, i);
    case TakeChunk(_, sendOk) => TakeChunkAccounts(s, t, sendOk, i);
    case IssueFirst(_, _) => IssueAccounts(s, step, t, i);
    case IssueNext(_, _) => IssueAccounts(s, step, t, i);
    case _ => FlagsAccount(s, step, t, i);
  }

  lemma StepLosesNothing(s: State, step: Step)
    requires Inv(s) && Structured(s) && Enabled(s, step) && FirstOnly(s) && NothingLost(s)
    ensures FirstOnly(Do(s, step)) && NothingLost(Do(s, step))
  {
    var s' := Do(s, step);
    if step.Recv? {
      RecvFirst(s, step.src, step.d);
    } else {
      OtherFirst(s, step);
      OnlyRecvLogs(s, step);
    }
    forall t, i | 0 <= t < |s'.tasks| && 0 <= i < |s'.recvd| && s'.recvd[i].to == Some(t) ensures Accounted(s', t, i) {
      if step.Recv? {
        RecvAccounts(s, step.src, step.d, t, i);
      } else {
        assert Accounted(s, t, i);
        StepAccounts(s, step, t, i);
      }
    }
  }

  ghost predicate FitsAt(run: Path, n: nat) {
    n < |run.states| && FirstOnly(run.states[n]) && NothingLost(run.states[n])
  }

  lemma NothingLostNext(run: Path, n: nat)
    requires IsRun(run) && n < |run.steps| && FitsAt(run, n)
    ensures FitsAt(run, n + 1)
  {
    RunInv(run, n);
    var step := run.steps[n];
    StepLosesNothing(run.states[n], step);
  }

  lemma NothingLostInRun(run: Path, n: nat)
    requires IsRun(run) && n < |run.states|
    ensures FirstOnly(run.states[n]) && NothingLost(run.states[n])
  {
    forall i: nat | i < n && FitsAt(run, i) ensures FitsAt(run, i + 1) {
      NothingLostNext(run, i);
    }
    Climb((i: nat) => FitsAt(run, i), n);
  }

  lemma NothingLostWhereReachable(s: State)
    requires Reachable(s)
    ensures NothingLost(s)
  {
    var run: Path :| IsRun(run) && run.Last() == s;
    NothingLostInRun(run, |run.steps|);
  }

  /** The positions of the packets that are meant for task `t`. */
  function PositionsFor(recvd: seq<Packet>, t: TaskId): (xs: seq<nat>)
    ensures forall i :: i in xs <==> 0 <= i < |recvd| && recvd[i].to == Some(t)
    ensures forall j :: 0 <= j < |xs| ==> xs[j] < |recvd|
    ensures Increasing(xs)
  {
    if recvd == [] then []
    else
      var n := |recvd| - 1;
      var before := PositionsFor(recvd[..n], t);
      assert forall j :: 0 <= j < |before| ==> before[j] in before;
      before + if recvd[n].to == Some(t) then [n] else []
  }

  lemma FirstIn(xs: seq<nat>)
    requires xs != []
    ensures xs[0] in xs
  {
  }

  lemma {:induction false} IncreasingIsUnique(xs: seq<nat>, ys: seq<nat>)
    requires Increasing(xs) && Increasing(ys) && forall i :: i in xs <==> i in ys
    ensures xs == ys
  {
    if xs == [] {
      if ys != [] {
        FirstIn(ys);
      }
    } else {
      var m, n := |xs| - 1, |ys| - 1;
      assert xs[m] in ys;
      assert ys[n] in xs;
      assert xs[m] == ys[n];
      forall i ensures i in xs[..m] <==> i in ys[..n] {
        assert i in xs[..m] <==> i in xs && i != xs[m];
        assert i in ys[..n] <==> i in ys && i != ys[n];
      }
      IncreasingIsUnique(xs[..m], ys[..n]);
    }
  }

  /** The packet that the listener is handing to task `t`. */
  function InHand(s: State, t: TaskId): seq<nat> {
    if s.listener == Handing(t) && s.recvd != [] then [|s.recvd| - 1] else []
  }

  lemma HeldIncreasing(s: State, t: TaskId)
    requires t < |s.tasks| && UpAt(s, t)
    ensures Increasing(s.tasks[t].framed + s.tasks[t].inbox + InHand(s, t))
  {
    var held := s.tasks[t].framed + s.tasks[t].inbox;
    assert forall j :: 0 <= j < |held| ==> held[j] in held && held[j] < |s.recvd|;
  }

  lemma HeldIsMeant(s: State, t: TaskId, i: nat)
    requires MapsOk(s) && t < |s.tasks| && UpAt(s, t)
    requires i in s.tasks[t].framed + s.tasks[t].inbox + InHand(s, t)
    ensures i < |s.recvd| && s.recvd[i].to == Some(t)
  {
  }

  /**
   * A task whose channel is open has framed the packets meant for it, all of them and in order, but
   * for those that are in its channel and the one that the listener has in hand.
   */
  lemma PacketsInOrder(run: Path, n: nat, t: TaskId)
    requires IsRun(run) && n < |run.states| && t < |run.states[n].tasks| && run.states[n].tasks[t].inboxOpen
    ensures var s := run.states[n];
      s.tasks[t].framed + s.tasks[t].inbox + InHand(s, t) == PositionsFor(s.recvd, t)
  {
    var s := run.states[n];
    RunInv(run, n);
    NothingLostInRun(run, n);
    StuckIsClosed(run, n);
    assert UpAt(s, t);
    HeldIncreasing(s, t);
    var held, meant := s.tasks[t].framed + s.tasks[t].inbox + InHand(s, t), PositionsFor(s.recvd, t);
    forall i ensures i in held <==> i in meant {
      if i in held {
        HeldIsMeant(s, t, i);
      }
      if i in meant {
        assert Accounted(s, t, i);
      }
    }
    IncreasingIsUnique(held, meant);
  }

  /** The step ends the send task of `t`: an empty packet, a refused command, no sender left, or leaving. */
  predicate StopsSender(s: State, step: Step, t: TaskId) {
    t < |s.tasks| &&
    match step
    case TakePacket(u) =>
      u == t && s.tasks[t].inbox != [] && s.tasks[t].inbox[0] < |s.recvd|
      && s.recvd[s.tasks[t].inbox[0]].datagram == []
    case IssueNext(u, accepted) => u == t && !accepted
    case PacketSendersGone(u) => u == t
    case Leave(u) => u == t
    case _ => false
  }

  lemma InboxStep(s: State, step: Step, t: TaskId)
    requires Structured(s) && Enabled(s, step) && t < |s.tasks|
    ensures t < |Do(s, step).tasks|
    ensures Do(s, step).tasks[t].inboxOpen
      <==> (step.Establish? && step.t == t) || (s.tasks[t].inboxOpen && !StopsSender(s, step, t))
  {
    if !Concerns(s, step, t) {
      Bystander(s, step, t);
    } else {
      match step
      case Route => RouteTask(s, t);
      case TakePacket(_) => assert Do(s, step) == TakesPacket(s, t);
      case TakeChunk(_, sendOk) => assert Do(s, step) == TakesChunk(s, t, sendOk);
      case IssueFirst(_, accepted) => if accepted { assert Do(s, step) == IssuesChunk(s, t); }
      case IssueNext(_, accepted) => if accepted { assert Do(s, step) == IssuesChunk(s, t); }
      case _ =>
    }
  }

  /** The task at whose closed channel the listener is stuck. */
  ghost predicate StuckClosed(s: State) {
    s.listener.Stuck? ==>
      s.listener.task < |s.tasks| && !s.tasks[s.listener.task].inboxOpen && s.tasks[s.listener.task].link.Some?
  }

  lemma StuckStep(s: State, step: Step)
    requires Inv(s) && Structured(s) && Enabled(s, step) && StuckClosed(s)
    ensures StuckClosed(Do(s, step))
  {
    if s.listener.Stuck? {
      var t := s.listener.task;
      ListenerStays(s, step);
      OnlyRecvLogs(s, step);
      InboxStep(s, step, t);
      LinkStep(s, step, t);
      assert UpAt(s, t);
    } else if !step.HandFails? && !step.Recv? && !step.HandOver? {
      ListenerStays(s, step);
    }
  }

  lemma {:induction false} StuckIsClosed(run: Path, n: nat)
    requires IsRun(run) && n < |run.states|
    ensures StuckClosed(run.states[n])
  {
    if n > 0 {
      StuckIsClosed(run, n - 1);
      RunInv(run, n - 1);
      var step := run.steps[n - 1];
      StuckStep(run.states[n - 1], step);
    }
  }

  // ----------------------------------------------------------- framed, in the order received

  lemma FramedStep(s: State, step: Step, t: TaskId)
    requires Structured(s) && Enabled(s, step) && t < |s.tasks|
    ensures t < |Do(s, step).tasks|
    ensures !Do(s, step).tasks[t].inboxOpen ==> Do(s, step).tasks[t].framed == s.tasks[t].framed
  {
    if !Concerns(s, step, t) {
      Bystander(s, step, t);
    } else {
      match step
      case Route => RouteTask(s, t);
      case TakePacket(_) => assert Do(s, step) == TakesPacket(s, t);
      case TakeChunk(_, sendOk) => assert Do(s, step) == TakesChunk(s, t, sendOk);
      case IssueFirst(_, accepted) => if accepted { assert Do(s, step) == IssuesChunk(s, t); }
      case IssueNext(_, accepted) => if accepted { assert Do(s, step) == IssuesChunk(s, t); }
      case _ =>
    }
  }

  lemma PositionsGrow(recvd: seq<Packet>, p: Packet, t: TaskId)
    ensures PositionsFor(recvd, t) <= PositionsFor(recvd + [p], t)
  {
    AppendParts(recvd, [p]);
  }

  lemma LogGrows(s: State, step: Step, t: TaskId)
    requires Structured(s) && Enabled(s, step)
    ensures PositionsFor(s.recvd, t) <= PositionsFor(Do(s, step).recvd, t)
  {
    if step.Recv? {
      PositionsGrow(s.recvd, OnPacket(s, step.src, step.d).recvd[|s.recvd|], t);
    } else {
      OnlyRecvLogs(s, step);
    }
  }

  lemma NewFramesNothing(s: State, step: Step, t: TaskId)
    requires Structured(s) && Enabled(s, step) && |s.tasks| <= t < |Do(s, step).tasks|
    ensures Do(s, step).tasks[t].framed == []
  {
    if !step.Recv? {
      OnlyRecvLogs(s, step);
    }
  }

  lemma FramedNext(run: Path, n: nat, t: TaskId)
    requires IsRun(run) && n < |run.steps| && t < |run.states[n + 1].tasks|
    requires t < |run.states[n].tasks| ==> run.states[n].tasks[t].framed <= PositionsFor(run.states[n].recvd, t)
    ensures run.states[n + 1].tasks[t].framed <= PositionsFor(run.states[n + 1].recvd, t)
  {
    if run.states[n + 1].tasks[t].inboxOpen {
      PacketsInOrder(run, n + 1, t);
    } else {
      var step := run.steps[n];
      LogGrows(run.states[n], step, t);
      if t < |run.states[n].tasks| {
        FramedStep(run.states[n], step, t);
      } else {
        NewFramesNothing(run.states[n], step, t);
      }
    }
  }

  /** What a task has framed is the start of what was meant for it: it passes over no packet. */
  lemma {:induction false} FramedIsStart(run: Path, n: nat, t: TaskId)
    requires IsRun(run) && n < |run.states| && t < |run.states[n].tasks|
    ensures run.states[n].tasks[t].framed <= PositionsFor(run.states[n].recvd, t)
  {
    if n > 0 {
      if t < |run.states[n - 1].tasks| {
        FramedIsStart(run, n - 1, t);
      }
      FramedNext(run, n - 1, t);
    }
  }
}
