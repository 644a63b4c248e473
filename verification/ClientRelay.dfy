/**
 * The client side of src/relay.rs as a transition system: the UDP listener, the event router, and
 * one task per link establishment, which registers itself in `udp_links`, issues the first packet,
 * registers in `link_data` and then runs a send task and a receive task. Several tasks may race for
 * one source address, overwrite each other's map entries and remove them again.
 *
 * Assumed of the engine: `establish_link` returns ids not returned before.
 */
module ClientRelay {
  import opened Basics
  import opened Framing
  import opened Intake
  import opened Logs

  datatype Event = Announce | Closed(link: LinkId) | Data(link: LinkId, bytes: Chunk)

  /** One received UDP packet and the task it was meant for, if any. */
  datatype Packet = Packet(src: Addr, datagram: Datagram, to: Option<TaskId>)

  /**
   * The listener waits in `recv_from`; or for room in a task's packet channel, holding the read lock
   * of `udp_links` that it looked the channel up with; or, after that channel turned out closed, for
   * the write lock of the map, which its own read lock keeps from it.
   */
  datatype Listener = Idle | Handing(task: TaskId) | Stuck(task: TaskId)

  /** `Leaving`: the task waits to take its source out of `udp_links`. */
  datatype Phase = Establishing | FirstPacket | Relaying | Leaving | Ended

  /**
   * One establishment task. Packets are named by their position in the log of received packets:
   * `first` is p0, `inbox` the packet channel, `framed` the packets framed so far. `inboxOpen` and
   * `open` say that the receiving ends of the packet channel and of the chunk channel are alive.
   */
  datatype Task = Task(src: Addr, first: nat, phase: Phase, link: Option<LinkId>,
                       inbox: seq<nat>, inboxOpen: bool, framed: seq<nat>, toIssue: seq<Chunk>,
                       q: Intake, open: bool)

  datatype State = State(
    target: bool, listener: Listener, udpLinks: map<Addr, TaskId>, linkData: map<LinkId, TaskId>,
    tasks: seq<Task>, events: seq<Event>,
    recvd: seq<Packet>, wire: seq<Sent>, arrivals: seq<Arrival>, sentBack: seq<Write>)

  /** `target` is set from the start when a server hash was given. */
  function Init(target: bool): State {
    State(target, Idle, map[], map[], [], [], [], [], [], [])
  }

  datatype Step =
    | EventArrives(e: Event)
    | Route
    | Recv(src: Addr, d: Datagram)
    | HandOver
    | HandFails
    | Establish(t: TaskId, l: LinkId)
    | EstablishFails(t: TaskId)
    | IssueFirst(t: TaskId, accepted: bool)
    | Register(t: TaskId)
    | TakePacket(t: TaskId)
    | IssueNext(t: TaskId, accepted: bool)
    | PacketSendersGone(t: TaskId)
    | TakeChunk(t: TaskId, sendOk: bool)
    | ChunkSenderGone(t: TaskId)
    | Unregister(t: TaskId)
    | Leave(t: TaskId)

  predicate InPhase(s: State, t: TaskId, phase: Phase) {
    t < |s.tasks| && s.tasks[t].phase == phase
  }

  predicate Sending(s: State, t: TaskId) {
    InPhase(s, t, Relaying) && s.tasks[t].inboxOpen
  }

  predicate Enabled(s: State, step: Step) {
    match step
    case EventArrives(_) => true
    case Route => s.events != []
    case Recv(_, d) => s.listener == Idle && |d| <= UDP_READ_BUF
    case HandOver =>
      && s.listener.Handing? && s.listener.task < |s.tasks|
      && s.tasks[s.listener.task].inboxOpen && |s.tasks[s.listener.task].inbox| < CAPACITY
    case HandFails =>
      s.listener.Handing? && s.listener.task < |s.tasks| && !s.tasks[s.listener.task].inboxOpen
    case Establish(t, l) =>
      // putting a source into the map, or taking it out, needs the write lock
      && s.listener == Idle && InPhase(s, t, Establishing)
      && forall u :: 0 <= u < |s.tasks| ==> s.tasks[u].link != Some(l)
    case EstablishFails(t) => InPhase(s, t, Establishing)
    case IssueFirst(t, _) => InPhase(s, t, FirstPacket) && s.tasks[t].toIssue != []
    case Register(t) => InPhase(s, t, FirstPacket) && s.tasks[t].toIssue == []
    case TakePacket(t) => Sending(s, t) && s.tasks[t].toIssue == [] && s.tasks[t].inbox != []
    case IssueNext(t, _) => Sending(s, t) && s.tasks[t].toIssue != []
    case PacketSendersGone(t) =>
      && Sending(s, t) && s.tasks[t].toIssue == [] && s.tasks[t].inbox == []
      && t !in s.udpLinks.Values && s.listener != Handing(t)
    case TakeChunk(t, _) => InPhase(s, t, Relaying) && s.tasks[t].open && s.tasks[t].q.queue != []
    case ChunkSenderGone(t) =>
      InPhase(s, t, Relaying) && s.tasks[t].open && s.tasks[t].q.queue == [] && t !in s.linkData.Values
    case Unregister(t) => InPhase(s, t, Relaying) && !s.tasks[t].inboxOpen && !s.tasks[t].open
    case Leave(t) => s.listener == Idle && InPhase(s, t, Leaving)
  }

  function SetTask(s: State, t: TaskId, y: Task): State
    requires t < |s.tasks|
  {
    s.(tasks := s.tasks[t := y])
  }

  /** The indices and options that the steps follow are there; `Inv` below implies it. */
  predicate Structured(s: State) {
    && (forall a :: a in s.udpLinks ==> s.udpLinks[a] < |s.tasks|)
    && (forall l :: l in s.linkData ==> s.linkData[l] < |s.tasks|)
    && (s.listener.Handing? ==> s.recvd != [])
    && (forall t :: 0 <= t < |s.tasks| ==> s.tasks[t].first < |s.recvd|)
    && (forall t :: 0 <= t < |s.tasks| && s.tasks[t].inbox != [] ==> s.tasks[t].inbox[0] < |s.recvd|)
    && (forall t :: 0 <= t < |s.tasks| && s.tasks[t].phase in {FirstPacket, Relaying} ==> s.tasks[t].link.Some?)
  }

  /** The router's handling of one event. */
  function OnEvent(s: State, e: Event): State
    requires Structured(s)
  {
    match e
    case Announce => s.(target := true)
    case Closed(l) => s.(linkData := s.linkData - {l})
    case Data(l, bytes) =>
      if l in s.linkData && s.tasks[s.linkData[l]].open && HasRoom(s.tasks[s.linkData[l]].q) then
        var t := s.linkData[l];
        var y := s.tasks[t];
        SetTask(s, t, y.(q := Enqueue(y.q, bytes))).(arrivals := s.arrivals + [Arrival(l, bytes, Some(t))])
      else s.(arrivals := s.arrivals + [Arrival(l, bytes, None)])
  }

  /** The listener has read a packet: for a known source it goes to that task, else a task is spawned. */
  function OnPacket(s: State, src: Addr, d: Datagram): State {
    if src in s.udpLinks then
      s.(listener := Handing(s.udpLinks[src]), recvd := s.recvd + [Packet(src, d, Some(s.udpLinks[src]))])
    else if !s.target then
      s.(recvd := s.recvd + [Packet(src, d, None)])
    else
      s.(recvd := s.recvd + [Packet(src, d, Some(|s.tasks|))],
         tasks := s.tasks + [Task(src, |s.recvd|, Establishing, None, [], false, [], [], EMPTY, false)])
  }

  function HandsOver(s: State): State
    requires s.listener.Handing? && s.listener.task < |s.tasks| && s.recvd != []
  {
    var t := s.listener.task;
    SetTask(s, t, s.tasks[t].(inbox := s.tasks[t].inbox + [|s.recvd| - 1])).(listener := Idle)
  }

  /** The link is up: the task enters `udp_links` and frames its first packet. */
  function Establishes(s: State, t: TaskId, l: LinkId): State
    requires t < |s.tasks| && s.tasks[t].first < |s.recvd|
  {
    var y := s.tasks[t];
    SetTask(s, t, y.(phase := FirstPacket, link := Some(l), inboxOpen := true,
                     framed := [y.first], toIssue := Chunks(s.recvd[y.first].datagram)))
      .(udpLinks := s.udpLinks[y.src := t])
  }

  /** The send task receives a packet from its channel; an empty one ends it. */
  function TakesPacket(s: State, t: TaskId): State
    requires t < |s.tasks| && s.tasks[t].inbox != [] && s.tasks[t].inbox[0] < |s.recvd|
  {
    var y := s.tasks[t];
    var d := s.recvd[y.inbox[0]].datagram;
    if d == [] then SetTask(s, t, y.(inbox := y.inbox[1..], inboxOpen := false))
    else SetTask(s, t, y.(inbox := y.inbox[1..], framed := y.framed + [y.inbox[0]], toIssue := Chunks(d)))
  }

  function IssuesChunk(s: State, t: TaskId): State
    requires t < |s.tasks| && s.tasks[t].toIssue != [] && s.tasks[t].link.Some?
  {
    var y := s.tasks[t];
    SetTask(s, t, y.(toIssue := y.toIssue[1..]))
      .(wire := s.wire + [Sent(t, y.link.value, y.toIssue[0])])
  }

  /** The receive task takes a chunk and writes what is complete back to the task's source. */
  function TakesChunk(s: State, t: TaskId, sendOk: bool): State
    requires t < |s.tasks| && s.tasks[t].q.queue != []
  {
    var y := s.tasks[t];
    var (q, sent) := Take(y.q, sendOk);
    var s' := if sent.Some? then s.(sentBack := s.sentBack + [Write(t, y.src, sent.value)]) else s;
    SetTask(s', t, y.(q := q, open := !q.failed))
  }

  function Do(s: State, step: Step): State
    requires Structured(s) && Enabled(s, step)
  {
    match step
    case EventArrives(e) => s.(events := s.events + [e])
    case Route => OnEvent(s.(events := s.events[1..]), s.events[0])
    case Recv(src, d) => OnPacket(s, src, d)
    case HandOver => HandsOver(s)
    case HandFails => s.(listener := Stuck(s.listener.task))
    case Establish(t, l) => Establishes(s, t, l)
    case EstablishFails(t) => SetTask(s, t, s.tasks[t].(phase := Ended))
    case IssueFirst(t, accepted) =>
      if accepted then IssuesChunk(s, t)
      else SetTask(s, t, s.tasks[t].(phase := Leaving))
    case Register(t) =>
      SetTask(s, t, s.tasks[t].(phase := Relaying, open := true))
        .(linkData := s.linkData[s.tasks[t].link.value := t])
    case TakePacket(t) => TakesPacket(s, t)
    case IssueNext(t, accepted) =>
      if accepted then IssuesChunk(s, t) else SetTask(s, t, s.tasks[t].(inboxOpen := false))
    case PacketSendersGone(t) => SetTask(s, t, s.tasks[t].(inboxOpen := false))
    case TakeChunk(t, sendOk) => TakesChunk(s, t, sendOk)
    case ChunkSenderGone(t) => SetTask(s, t, s.tasks[t].(open := false))
    case Unregister(t) =>
      SetTask(s, t, s.tasks[t].(phase := Leaving)).(linkData := s.linkData - {s.tasks[t].link.value})
    case Leave(t) =>
      SetTask(s, t, s.tasks[t].(phase := Ended, inboxOpen := false)).(udpLinks := s.udpLinks - {s.tasks[t].src})
  }

  ghost predicate Moves(s: State, step: Step, s': State) {
    Structured(s) && Enabled(s, step) && s' == Do(s, step)
  }

  /**
   * The states that a path goes through and the steps between them. `RunInv` shows that from the
   * start of the node `Structured` excludes no step.
   */
  datatype Path = Path(states: seq<State>, steps: seq<Step>) {
    ghost predicate Valid() {
      && |states| == |steps| + 1
      && forall i {:trigger steps[i]} :: 0 <= i < |steps| ==> Moves(states[i], steps[i], states[i + 1])
    }

    function Last(): State
      requires states != []
    {
      states[|states| - 1]
    }
  }

  /** A path from the start of the node. */
  ghost predicate IsRun(run: Path) {
    run.Valid() && run.states[0] in {Init(true), Init(false)}
  }

  ghost predicate Reachable(s: State) {
    exists run: Path :: IsRun(run) && run.Last() == s
  }

  // ------------------------------------------------------------------ invariant

  /** Map entries, and the listener's clone of one, lead to tasks of that source or link. */
  ghost predicate MapsOk(s: State) {
    && (forall a :: a in s.udpLinks ==>
          && s.udpLinks[a] < |s.tasks| && s.tasks[s.udpLinks[a]].src == a
          && s.tasks[s.udpLinks[a]].link.Some?)
    && (forall l :: l in s.linkData ==>
          s.linkData[l] < |s.tasks| && s.tasks[s.linkData[l]].link == Some(l))
    && (s.listener.Handing? ==>
          && s.listener.task < |s.tasks| && s.tasks[s.listener.task].link.Some?
          && s.recvd != [] && s.recvd[|s.recvd| - 1].to == Some(s.listener.task))
  }

  ghost predicate LinksDistinct(s: State) {
    forall t, u :: 0 <= t < u < |s.tasks| && s.tasks[t].link.Some? ==> s.tasks[t].link != s.tasks[u].link
  }

  ghost predicate RecvdOk(s: State) {
    forall i :: 0 <= i < |s.recvd| ==>
      && |s.recvd[i].datagram| <= UDP_READ_BUF
      && (s.recvd[i].to.Some? ==>
            s.recvd[i].to.value < |s.tasks| && s.tasks[s.recvd[i].to.value].src == s.recvd[i].src)
  }

  ghost predicate WireOk(s: State) {
    forall i :: 0 <= i < |s.wire| ==>
      s.wire[i].task < |s.tasks| && s.tasks[s.wire[i].task].link == Some(s.wire[i].link)
  }

  ghost predicate ArrivalsOk(s: State) {
    forall i :: 0 <= i < |s.arrivals| && s.arrivals[i].to.Some? ==>
      && s.arrivals[i].to.value < |s.tasks|
      && s.tasks[s.arrivals[i].to.value].link == Some(s.arrivals[i].link)
  }

  ghost predicate SentBackOk(s: State) {
    forall i :: 0 <= i < |s.sentBack| ==>
      s.sentBack[i].task < |s.tasks| && s.tasks[s.sentBack[i].task].src == s.sentBack[i].dst
  }

  predicate Increasing(xs: seq<nat>) {
    forall i, j :: 0 <= i < j < |xs| ==> xs[i] < xs[j]
  }

  /** Every position in `xs` is that of a packet meant for task `t`. */
  predicate MeantFor(recvd: seq<Packet>, xs: seq<nat>, t: TaskId) {
    forall i :: 0 <= i < |xs| ==> xs[i] < |recvd| && recvd[xs[i]].to == Some(t)
  }

  function Payloads(recvd: seq<Packet>, xs: seq<nat>): (ds: seq<Datagram>)
    requires forall i :: 0 <= i < |xs| ==> xs[i] < |recvd|
    ensures |ds| == |xs| && forall i :: 0 <= i < |xs| ==> ds[i] == recvd[xs[i]].datagram
  {
    seq(|xs|, i requires 0 <= i < |xs| => recvd[xs[i]].datagram)
  }

  /** The sending half of task `t`; `busy` if the listener is about to hand it the newest packet. */
  ghost predicate UpOk(y: Task, t: TaskId, recvd: seq<Packet>, busy: bool, issued: seq<Chunk>) {
    && y.first < |recvd| && recvd[y.first].to == Some(t)
    && MeantFor(recvd, y.framed, t) && MeantFor(recvd, y.inbox, t)
    && Increasing(y.framed + y.inbox)
    && |y.inbox| <= CAPACITY
    && (busy ==> |recvd| - 1 !in y.framed + y.inbox)
    && (y.framed != [] ==> y.framed[0] == y.first)
    && (y.framed == [] ==> y.inbox == [])
    && (y.link.None? ==> y.framed == [] && !y.inboxOpen)
    && (y.link.Some? ==> y.framed != [])
    && (y.phase == Establishing ==> y.link.None?)
    && (y.phase in {FirstPacket, Relaying, Leaving} ==> y.link.Some?)
    && (y.phase == Ended ==> !y.inboxOpen)
    && issued + y.toIssue == Stream(Payloads(recvd, y.framed))
  }

  ghost predicate UpAt(s: State, t: TaskId)
    requires t < |s.tasks|
  {
    UpOk(s.tasks[t], t, s.recvd, s.listener == Handing(t), IssuedBy(s.wire, t))
  }

  /** The receiving half of task `t`. */
  ghost predicate DownAt(s: State, t: TaskId)
    requires t < |s.tasks|
  {
    && Holds(s.tasks[t].q, HandedTo(s.arrivals, t), WrittenBy(s.sentBack, t))
    && (s.tasks[t].q.failed ==> !s.tasks[t].open && s.tasks[t].phase in {Relaying, Leaving, Ended})
  }

  ghost predicate Shape(s: State) {
    MapsOk(s) && LinksDistinct(s) && RecvdOk(s) && WireOk(s) && ArrivalsOk(s) && SentBackOk(s)
  }

  ghost predicate TasksOk(s: State) {
    forall t :: 0 <= t < |s.tasks| ==> UpAt(s, t) && DownAt(s, t)
  }

  ghost predicate Inv(s: State) {
    Shape(s) && TasksOk(s)
  }
}

/** Every step of the bridge client keeps the invariant. */
module ClientInvariant {
  import opened Basics
  import opened Framing
  import opened Intake
  import opened Logs
  import opened ClientRelay

  lemma InvStructured(s: State)
    requires Inv(s)
    ensures Structured(s)
  {
    forall t | 0 <= t < |s.tasks|
      ensures s.tasks[t].first < |s.recvd|
      ensures s.tasks[t].inbox != [] ==> s.tasks[t].inbox[0] < |s.recvd|
      ensures s.tasks[t].phase in {FirstPacket, Relaying} ==> s.tasks[t].link.Some?
    {
      assert UpAt(s, t);
    }
  }

  lemma PayloadsSnoc(recvd: seq<Packet>, xs: seq<nat>, i: nat)
    requires i < |recvd| && forall j :: 0 <= j < |xs| ==> xs[j] < |recvd|
    ensures Payloads(recvd, xs + [i]) == Payloads(recvd, xs) + [recvd[i].datagram]
  {
  }

  /** A new packet does not disturb what a task holds, and is in none of its lists. */
  lemma UpExtends(y: Task, t: TaskId, recvd: seq<Packet>, p: Packet, issued: seq<Chunk>, busy: bool)
    requires UpOk(y, t, recvd, false, issued)
    ensures UpOk(y, t, recvd + [p], busy, issued)
  {
    assert Payloads(recvd + [p], y.framed) == Payloads(recvd, y.framed);
    assert forall i :: i in y.framed + y.inbox ==> i < |recvd|;
  }

  /** Between the states, tasks other than `t` have not moved, nor has what is logged of them. */
  ghost predicate OnlyTask(s: State, s': State, t: TaskId) {
    && t < |s.tasks| == |s'.tasks|
    && s'.recvd == s.recvd && (s'.listener.Handing? ==> s'.listener == s.listener)
    && forall u :: 0 <= u < |s.tasks| && u != t ==>
         && s'.tasks[u] == s.tasks[u]
         && IssuedBy(s'.wire, u) == IssuedBy(s.wire, u)
         && HandedTo(s'.arrivals, u) == HandedTo(s.arrivals, u)
         && WrittenBy(s'.sentBack, u) == WrittenBy(s.sentBack, u)
  }

  lemma OnlyTaskKeeps(s: State, s': State, t: TaskId)
    requires TasksOk(s) && OnlyTask(s, s', t) && UpAt(s', t) && DownAt(s', t)
    ensures TasksOk(s')
  {
    forall u | 0 <= u < |s.tasks| ensures UpAt(s', u) && DownAt(s', u) {
      assert UpAt(s, u) && DownAt(s, u);
    }
  }

  /** A step of task `t` that changes neither its source nor its link keeps the shape. */
  lemma ShapeKeeps(s: State, s': State, t: TaskId)
    requires Shape(s) && t < |s.tasks| && |s'.tasks| == |s.tasks|
    requires s'.tasks == s.tasks[t := s'.tasks[t]]
    requires s'.tasks[t].src == s.tasks[t].src && s'.tasks[t].link == s.tasks[t].link
    requires s'.recvd == s.recvd
    requires s'.listener.Handing? ==> s'.listener == s.listener
    requires forall a :: a in s'.udpLinks ==> a in s.udpLinks && s'.udpLinks[a] == s.udpLinks[a]
    requires forall l :: l in s'.linkData ==>
      (l in s.linkData && s'.linkData[l] == s.linkData[l]) || (s'.linkData[l] == t && s.tasks[t].link == Some(l))
    requires AtMostOneMore(s.wire, s'.wire, (e: Sent) => e.task == t && s.tasks[t].link == Some(e.link))
    requires AtMostOneMore(s.arrivals, s'.arrivals, (e: Arrival) =>
      e.to.Some? ==> e.to.value == t && s.tasks[t].link == Some(e.link))
    requires AtMostOneMore(s.sentBack, s'.sentBack, (e: Write) => e.task == t && s.tasks[t].src == e.dst)
    ensures Shape(s')
  {
    assert forall u :: 0 <= u < |s.tasks| ==> s'.tasks[u].src == s.tasks[u].src && s'.tasks[u].link == s.tasks[u].link;
  }

  lemma RecvShape(s: State, src: Addr, d: Datagram)
    requires Shape(s) && s.listener == Idle && |d| <= UDP_READ_BUF
    ensures Shape(OnPacket(s, src, d))
  {
    var s' := OnPacket(s, src, d);
    if src in s.udpLinks || !s.target {
      assert s'.tasks == s.tasks;
    } else {
      SpawnShape(s, s');
    }
  }

  lemma SpawnShape(s: State, s': State)
    requires Shape(s) && |s'.recvd| == |s.recvd| + 1 && s'.recvd[..|s.recvd|] == s.recvd
    requires |s'.tasks| == |s.tasks| + 1 && s'.tasks[..|s.tasks|] == s.tasks
    requires s'.tasks[|s.tasks|].link.None?
    requires var p := s'.recvd[|s.recvd|];
      |p.datagram| <= UDP_READ_BUF && p.to == Some(|s.tasks|) && p.src == s'.tasks[|s.tasks|].src
    requires s' == s.(recvd := s'.recvd, tasks := s'.tasks) && s.listener == Idle
    ensures Shape(s')
  {
    assert forall t :: 0 <= t < |s.tasks| ==> s'.tasks[t] == s.tasks[t];
    assert forall i :: 0 <= i < |s.recvd| ==> s'.recvd[i] == s.recvd[i];
  }

  lemma RecvKeeps(s: State, src: Addr, d: Datagram)
    requires Inv(s) && s.listener == Idle && |d| <= UDP_READ_BUF
    ensures Inv(OnPacket(s, src, d))
  {
    RecvShape(s, src, d);
    RecvTasksOk(s, src, d);
  }

  lemma RecvTasksOk(s: State, src: Addr, d: Datagram)
    requires Inv(s) && s.listener == Idle
    ensures TasksOk(OnPacket(s, src, d))
  {
    var s' := OnPacket(s, src, d);
    RecvTasks(s, s', s'.recvd[|s.recvd|]);
    if |s'.tasks| > |s.tasks| {
      NewTaskOk(s, s', src, d);
    }
  }

  lemma RecvTasks(s: State, s': State, p: Packet)
    requires TasksOk(s) && s.listener == Idle && s'.recvd == s.recvd + [p] && s.tasks <= s'.tasks
    requires s'.wire == s.wire && s'.arrivals == s.arrivals && s'.sentBack == s.sentBack
    ensures forall t :: 0 <= t < |s.tasks| ==> UpAt(s', t) && DownAt(s', t)
  {
    forall t | 0 <= t < |s.tasks| ensures UpAt(s', t) && DownAt(s', t) {
      assert UpAt(s, t) && DownAt(s, t);
      UpExtends(s.tasks[t], t, s.recvd, p, IssuedBy(s.wire, t), s'.listener == Handing(t));
    }
  }

  /** A task that has just been started for the newest packet. */
  lemma NewUp(y: Task, t: TaskId, recvd: seq<Packet>)
    requires y == Task(y.src, y.first, Establishing, None, [], false, [], [], EMPTY, false)
    requires y.first < |recvd| && recvd[y.first].to == Some(t)
    ensures UpOk(y, t, recvd, false, [])
  {
    assert Payloads(recvd, []) == [] && [] + y.inbox == [];
  }

  lemma NewTaskOk(s: State, s': State, src: Addr, d: Datagram)
    requires Shape(s) && s.listener == Idle && s' == OnPacket(s, src, d) && |s'.tasks| > |s.tasks|
    ensures UpAt(s', |s.tasks|) && DownAt(s', |s.tasks|)
  {
    var t := |s.tasks|;
    NothingIssued(s.wire, t);
    NothingHanded(s.arrivals, t);
    NothingWritten(s.sentBack, t);
    NewUp(s'.tasks[t], t, s'.recvd);
  }

  lemma UpHandsOver(y: Task, t: TaskId, recvd: seq<Packet>, issued: seq<Chunk>)
    requires UpOk(y, t, recvd, true, issued) && y.link.Some? && |y.inbox| < CAPACITY
    requires recvd != [] && recvd[|recvd| - 1].to == Some(t)
    ensures UpOk(y.(inbox := y.inbox + [|recvd| - 1]), t, recvd, false, issued)
  {
    var i := |recvd| - 1;
    var all := y.framed + y.inbox;
    assert y.framed + (y.inbox + [i]) == all + [i];
    assert forall j :: 0 <= j < |all| ==> all[j] in all && all[j] < |recvd|;
  }

  lemma HandOverOnly(s: State)
    requires Structured(s) && MapsOk(s) && Enabled(s, HandOver) && DownAt(s, s.listener.task)
    ensures OnlyTask(s, HandsOver(s), s.listener.task) && DownAt(HandsOver(s), s.listener.task)
  {
  }

  lemma HandOverUp(s: State)
    requires MapsOk(s) && Enabled(s, HandOver) && UpAt(s, s.listener.task)
    ensures UpAt(HandsOver(s), s.listener.task)
  {
    var t := s.listener.task;
    UpHandsOver(s.tasks[t], t, s.recvd, IssuedBy(s.wire, t));
  }

  lemma HandOverTasks(s: State)
    requires TasksOk(s) && Structured(s) && MapsOk(s) && Enabled(s, HandOver)
    ensures TasksOk(HandsOver(s))
  {
    var t := s.listener.task;
    assert UpAt(s, t) && DownAt(s, t);
    HandOverUp(s);
    HandOverOnly(s);
    OnlyTaskKeeps(s, HandsOver(s), t);
  }

  lemma HandOverKeeps(s: State)
    requires Inv(s) && Structured(s) && Enabled(s, HandOver)
    ensures Inv(HandsOver(s))
  {
    HandOverTasks(s);
    ShapeKeeps(s, HandsOver(s), s.listener.task);
  }

  lemma UpEstablishes(y: Task, y': Task, t: TaskId, recvd: seq<Packet>, l: LinkId, issued: seq<Chunk>)
    requires UpOk(y, t, recvd, false, issued) && y.phase == Establishing && y.toIssue == []
    requires y' == y.(phase := FirstPacket, link := Some(l), inboxOpen := true,
                      framed := [y.first], toIssue := Chunks(recvd[y.first].datagram))
    ensures UpOk(y', t, recvd, false, issued)
  {
    assert issued == [];
    StreamSnoc([], recvd[y.first].datagram);
    assert Payloads(recvd, [y.first]) == [] + [recvd[y.first].datagram];
  }

  lemma EstablishShape(s: State, t: TaskId, l: LinkId)
    requires Shape(s) && Enabled(s, Establish(t, l)) && s.tasks[t].link.None? && s.tasks[t].first < |s.recvd|
    ensures Shape(Establishes(s, t, l))
  {
    var s' := Establishes(s, t, l);
    assert forall u :: 0 <= u < |s.tasks| ==>
      s'.tasks[u].src == s.tasks[u].src && s'.tasks[u].link == if u == t then Some(l) else s.tasks[u].link;
  }

  lemma EstablishTasks(s: State, t: TaskId, l: LinkId)
    requires TasksOk(s) && Enabled(s, Establish(t, l)) && s.tasks[t].first < |s.recvd| && s.listener != Handing(t)
    ensures TasksOk(Establishes(s, t, l))
  {
    var s' := Establishes(s, t, l);
    assert UpAt(s, t) && DownAt(s, t);
    assert s.tasks[t].toIssue == [] by {
      assert Payloads(s.recvd, s.tasks[t].framed) == [];
    }
    UpEstablishes(s.tasks[t], s'.tasks[t], t, s.recvd, l, IssuedBy(s.wire, t));
    OnlyTaskKeeps(s, s', t);
  }

  lemma EstablishKeeps(s: State, t: TaskId, l: LinkId)
    requires Inv(s) && Structured(s) && Enabled(s, Establish(t, l))
    ensures Inv(Establishes(s, t, l))
  {
    assert s.tasks[t].link.None? by { assert UpAt(s, t); }
    EstablishShape(s, t, l);
    EstablishTasks(s, t, l);
  }

  lemma IssueKeeps(s: State, t: TaskId)
    requires Inv(s) && t < |s.tasks| && s.tasks[t].toIssue != [] && s.tasks[t].link.Some?
    ensures Inv(IssuesChunk(s, t))
  {
    var s' := IssuesChunk(s, t);
    var y := s.tasks[t];
    var e := Sent(t, y.link.value, y.toIssue[0]);
    forall u | 0 <= u ensures IssuedBy(s'.wire, u) == IssuedBy(s.wire, u) + if u == t then [e.chunk] else [] {
      SentSnoc(s.wire, e, u);
    }
    assert UpAt(s, t) && DownAt(s, t);
    assert UpAt(s', t) by {
      var issued := IssuedBy(s.wire, t);
      assert (issued + [e.chunk]) + y.toIssue[1..] == issued + y.toIssue;
    }
    OnlyTaskKeeps(s, s', t);
    ShapeKeeps(s, s', t);
  }

  /** The head of the channel moves from `inbox` to `framed`. */
  lemma UpTakes(y: Task, y': Task, t: TaskId, recvd: seq<Packet>, busy: bool, issued: seq<Chunk>)
    requires UpOk(y, t, recvd, busy, issued) && y.toIssue == [] && y.inbox != []
    requires y' == y.(inbox := y.inbox[1..], framed := y.framed + [y.inbox[0]],
                      toIssue := Chunks(recvd[y.inbox[0]].datagram))
    ensures UpOk(y', t, recvd, busy, issued)
  {
    var i := y.inbox[0];
    assert y'.framed + y'.inbox == y.framed + y.inbox;
    PayloadsSnoc(recvd, y.framed, i);
    StreamSnoc(Payloads(recvd, y.framed), recvd[i].datagram);
    assert issued + [] == issued;
  }

  /** The head of the channel is an empty packet and ends the send task. */
  lemma UpDrops(y: Task, y': Task, t: TaskId, recvd: seq<Packet>, busy: bool, issued: seq<Chunk>)
    requires UpOk(y, t, recvd, busy, issued) && y.inbox != []
    requires y' == y.(inbox := y.inbox[1..], inboxOpen := false)
    requires y.link.Some?
    ensures UpOk(y', t, recvd, busy, issued)
  {
    var all, less := y.framed + y.inbox, y'.framed + y'.inbox;
    assert forall j :: 0 <= j < |less| ==> less[j] == all[if j < |y.framed| then j else j + 1];
  }

  lemma TakePacketKeeps(s: State, t: TaskId)
    requires Inv(s) && Structured(s) && Enabled(s, TakePacket(t))
    ensures Inv(TakesPacket(s, t))
  {
    TakePacketTasks(s, t);
    ShapeKeeps(s, TakesPacket(s, t), t);
  }

  lemma TakePacketUp(s: State, t: TaskId)
    requires Structured(s) && Enabled(s, TakePacket(t)) && UpAt(s, t)
    ensures UpAt(TakesPacket(s, t), t)
  {
    var y, y', busy := s.tasks[t], TakesPacket(s, t).tasks[t], s.listener == Handing(t);
    if s.recvd[y.inbox[0]].datagram == [] {
      UpDrops(y, y', t, s.recvd, busy, IssuedBy(s.wire, t));
    } else {
      UpTakes(y, y', t, s.recvd, busy, IssuedBy(s.wire, t));
    }
  }

  lemma TakePacketOnly(s: State, t: TaskId)
    requires Structured(s) && Enabled(s, TakePacket(t))
    ensures OnlyTask(s, TakesPacket(s, t), t) && (DownAt(s, t) ==> DownAt(TakesPacket(s, t), t))
  {
  }

  lemma TakePacketTasks(s: State, t: TaskId)
    requires TasksOk(s) && Structured(s) && Enabled(s, TakePacket(t))
    ensures TasksOk(TakesPacket(s, t))
  {
    assert UpAt(s, t) && DownAt(s, t);
    TakePacketUp(s, t);
    TakePacketOnly(s, t);
    OnlyTaskKeeps(s, TakesPacket(s, t), t);
  }

  lemma DataKeeps(s: State, l: LinkId, bytes: Chunk)
    requires Inv(s) && Structured(s) && s.tasks != []
    ensures Inv(OnEvent(s, Data(l, bytes)))
  {
    DataTasks(s, l, bytes);
    var s' := OnEvent(s, Data(l, bytes));
    var e := s'.arrivals[|s.arrivals|];
    ShapeKeeps(s, s', if e.to.Some? then e.to.value else 0);
  }

  lemma DataHands(s: State, l: LinkId, bytes: Chunk, u: TaskId)
    requires Structured(s)
    ensures var s' := OnEvent(s, Data(l, bytes)); var e := s'.arrivals[|s.arrivals|];
      HandedTo(s'.arrivals, u) == HandedTo(s.arrivals, u) + if e.to == Some(u) then [bytes] else []
  {
    var s' := OnEvent(s, Data(l, bytes));
    ArrivalSnoc(s.arrivals, s'.arrivals[|s.arrivals|], u);
  }

  lemma DataElsewhere(s: State, l: LinkId, bytes: Chunk, t: TaskId)
    requires Structured(s) && t < |s.tasks|
    ensures var s' := OnEvent(s, Data(l, bytes)); var e := s'.arrivals[|s.arrivals|];
      && s'.sentBack == s.sentBack
      && s'.tasks[t].q == (if e.to == Some(t) then Enqueue(s.tasks[t].q, bytes) else s.tasks[t].q)
      && (e.to == Some(t) ==> HasRoom(s.tasks[t].q))
  {
  }

  lemma DataDown(s: State, l: LinkId, bytes: Chunk, t: TaskId)
    requires Structured(s) && t < |s.tasks| && DownAt(s, t)
    ensures DownAt(OnEvent(s, Data(l, bytes)), t)
  {
    var s', handed, written := OnEvent(s, Data(l, bytes)), HandedTo(s.arrivals, t), WrittenBy(s.sentBack, t);
    DataHands(s, l, bytes, t);
    DataElsewhere(s, l, bytes, t);
    if s'.arrivals[|s.arrivals|].to == Some(t) {
      EnqueueHolds(s.tasks[t].q, handed, written, bytes);
    } else {
      assert HandedTo(s'.arrivals, t) == handed;
    }
  }

  lemma DataUp(s: State, l: LinkId, bytes: Chunk, t: TaskId)
    requires Structured(s) && t < |s.tasks| && UpAt(s, t)
    ensures UpAt(OnEvent(s, Data(l, bytes)), t)
  {
    var y, y' := s.tasks[t], OnEvent(s, Data(l, bytes)).tasks[t];
    UpIgnoresDown(y, y', t, s.recvd, s.listener == Handing(t), IssuedBy(s.wire, t));
  }

  lemma DataTasks(s: State, l: LinkId, bytes: Chunk)
    requires TasksOk(s) && Structured(s)
    ensures TasksOk(OnEvent(s, Data(l, bytes)))
  {
    var s' := OnEvent(s, Data(l, bytes));
    forall t | 0 <= t < |s.tasks| ensures UpAt(s', t) && DownAt(s', t) {
      assert UpAt(s, t) && DownAt(s, t);
      DataUp(s, l, bytes, t);
      DataDown(s, l, bytes, t);
    }
  }

  lemma TakeChunkKeeps(s: State, t: TaskId, sendOk: bool)
    requires Inv(s) && Structured(s) && Enabled(s, TakeChunk(t, sendOk))
    ensures Inv(TakesChunk(s, t, sendOk))
  {
    TakeChunkTasks(s, t, sendOk);
    ShapeKeeps(s, TakesChunk(s, t, sendOk), t);
  }

  lemma TakeWrites(s: State, t: TaskId, sendOk: bool, u: TaskId)
    requires t < |s.tasks| && s.tasks[t].q.queue != []
    ensures WrittenBy(TakesChunk(s, t, sendOk).sentBack, u)
         == WrittenBy(s.sentBack, u) + if u == t then Take(s.tasks[t].q, sendOk).1.ToSeq() else []
  {
    var sent := Take(s.tasks[t].q, sendOk).1;
    if sent.Some? {
      WriteSnoc(s.sentBack, Write(t, s.tasks[t].src, sent.value), u);
    }
  }

  lemma TakeDown(s: State, t: TaskId, sendOk: bool)
    requires t < |s.tasks| && s.tasks[t].q.queue != [] && DownAt(s, t)
    requires s.tasks[t].open && s.tasks[t].phase == Relaying
    ensures DownAt(TakesChunk(s, t, sendOk), t)
  {
    TakeWrites(s, t, sendOk, t);
    TakeHolds(s.tasks[t].q, HandedTo(s.arrivals, t), WrittenBy(s.sentBack, t), sendOk);
  }

  /** The sending half of a task does not depend on the receiving half. */
  lemma UpIgnoresDown(y: Task, y': Task, t: TaskId, recvd: seq<Packet>, busy: bool, issued: seq<Chunk>)
    requires UpOk(y, t, recvd, busy, issued) && y' == y.(q := y'.q, open := y'.open)
    ensures UpOk(y', t, recvd, busy, issued)
  {
  }

  lemma TakeUp(s: State, t: TaskId, sendOk: bool)
    requires t < |s.tasks| && s.tasks[t].q.queue != [] && UpAt(s, t)
    ensures UpAt(TakesChunk(s, t, sendOk), t)
  {
    var y, y' := s.tasks[t], TakesChunk(s, t, sendOk).tasks[t];
    assert y' == y.(q := y'.q, open := y'.open);
    UpIgnoresDown(y, y', t, s.recvd, s.listener == Handing(t), IssuedBy(s.wire, t));
  }

  lemma TakeOnly(s: State, t: TaskId, sendOk: bool)
    requires t < |s.tasks| && s.tasks[t].q.queue != []
    ensures OnlyTask(s, TakesChunk(s, t, sendOk), t)
  {
    forall u: TaskId | u != t ensures WrittenBy(TakesChunk(s, t, sendOk).sentBack, u) == WrittenBy(s.sentBack, u) {
      TakeWrites(s, t, sendOk, u);
    }
  }

  lemma TakeChunkTasks(s: State, t: TaskId, sendOk: bool)
    requires TasksOk(s) && t < |s.tasks| && s.tasks[t].q.queue != []
    requires s.tasks[t].open && s.tasks[t].phase == Relaying
    ensures TasksOk(TakesChunk(s, t, sendOk))
  {
    assert UpAt(s, t) && DownAt(s, t);
    TakeUp(s, t, sendOk);
    TakeDown(s, t, sendOk);
    TakeOnly(s, t, sendOk);
    OnlyTaskKeeps(s, TakesChunk(s, t, sendOk), t);
  }

  /** Task `t` has only closed channels, changed its phase or taken itself into or out of maps. */
  ghost predicate FlagsMoved(s: State, s': State, t: TaskId) {
    && t < |s.tasks| && |s'.tasks| == |s.tasks| && s'.tasks == s.tasks[t := s'.tasks[t]]
    && (var y, y' := s.tasks[t], s'.tasks[t];
        && y' == y.(phase := y'.phase, inboxOpen := y'.inboxOpen, open := y'.open)
        && (y'.inboxOpen ==> y.inboxOpen) && (y'.open ==> y.open || y.phase == FirstPacket)
        && (y'.phase == y.phase || (y'.phase == Ended && !y'.inboxOpen) || (y'.phase == Leaving && y.link.Some?)
            || (y.phase == FirstPacket && y'.phase == Relaying)))
    && s'.recvd == s.recvd && s'.wire == s.wire && s'.arrivals == s.arrivals && s'.sentBack == s.sentBack
    && s'.listener == s.listener
    && (forall a :: a in s'.udpLinks ==> a in s.udpLinks && s'.udpLinks[a] == s.udpLinks[a])
    && (forall l :: l in s'.linkData ==>
          (l in s.linkData && s'.linkData[l] == s.linkData[l]) || (s'.linkData[l] == t && s.tasks[t].link == Some(l)))
  }

  lemma FlagsKeep(s: State, s': State, t: TaskId)
    requires Inv(s) && FlagsMoved(s, s', t)
    ensures Inv(s')
  {
    FlagsTasks(s, s', t);
    ShapeKeeps(s, s', t);
  }

  lemma FlagsTasks(s: State, s': State, t: TaskId)
    requires TasksOk(s) && FlagsMoved(s, s', t)
    ensures TasksOk(s')
  {
    assert UpAt(s, t) && DownAt(s, t);
    OnlyTaskKeeps(s, s', t);
  }

  /** Nothing but the event queue, the target, a stuck listener and `link_data` entries taken away. */
  lemma QuietKeeps(s: State, s': State)
    requires Inv(s)
    requires s' == s.(events := s'.events, target := s'.target, linkData := s'.linkData, listener := s'.listener)
    requires s'.listener.Handing? ==> s'.listener == s.listener
    requires forall l :: l in s'.linkData ==> l in s.linkData && s'.linkData[l] == s.linkData[l]
    ensures Inv(s')
  {
    forall t | 0 <= t < |s.tasks| ensures UpAt(s', t) && DownAt(s', t) {
      assert UpAt(s, t) && DownAt(s, t);
    }
  }

  /** Chunks that arrive before there is any task are dropped. */
  lemma EarlyDataKeeps(s: State, l: LinkId, bytes: Chunk)
    requires Inv(s) && Structured(s) && s.tasks == []
    ensures Inv(OnEvent(s, Data(l, bytes)))
  {
  }

  lemma RouteKeeps(s: State)
    requires Inv(s) && Structured(s) && s.events != []
    ensures Inv(Do(s, Route))
  {
    var s1 := s.(events := s.events[1..]);
    QuietKeeps(s, s1);
    match s.events[0]
    case Data(l, bytes) =>
      if s.tasks == [] { EarlyDataKeeps(s1, l, bytes); } else { DataKeeps(s1, l, bytes); }
    case _ => QuietKeeps(s1, Do(s, Route));
  }

  lemma IssueStepKeeps(s: State, step: Step)
    requires Inv(s) && Structured(s) && Enabled(s, step) && (step.IssueFirst? || step.IssueNext?)
    ensures Inv(Do(s, step))
  {
    if step.accepted {
      IssueKeeps(s, step.t);
    } else {
      FlagsKeep(s, Do(s, step), step.t);
    }
  }

  predicate OnlyFlags(step: Step) {
    || step.EstablishFails? || step.Register? || step.PacketSendersGone? || step.ChunkSenderGone?
    || step.Unregister? || step.Leave?
  }

  lemma FlagStepMoves(s: State, step: Step)
    requires Structured(s) && Enabled(s, step) && OnlyFlags(step)
    requires s.tasks[step.t].phase == Establishing ==> !s.tasks[step.t].inboxOpen
    ensures FlagsMoved(s, Do(s, step), step.t)
  {
  }

  lemma FlagStepKeeps(s: State, step: Step)
    requires Inv(s) && Structured(s) && Enabled(s, step) && OnlyFlags(step)
    ensures Inv(Do(s, step))
  {
    assert UpAt(s, step.t);
    FlagStepMoves(s, step);
    FlagsKeep(s, Do(s, step), step.t);
  }

  lemma StepKeeps(s: State, step: Step)
    requires Inv(s) && Structured(s) && Enabled(s, step)
    ensures Inv(Do(s, step))
  {
    match step
    case EventArrives(_) => QuietKeeps(s, Do(s, step));
    case Route => RouteKeeps(s);
    case Recv(src, d) => RecvKeeps(s, src, d);
    case HandOver => HandOverKeeps(s);
    case HandFails => QuietKeeps(s, Do(s, step));
    case Establish(t, l) => EstablishKeeps(s, t, l);
    case TakePacket(t) => TakePacketKeeps(s, t);
    case TakeChunk(t, sendOk) => TakeChunkKeeps(s, t, sendOk);
    case IssueFirst(_, _) => IssueStepKeeps(s, step);
    case IssueNext(_, _) => IssueStepKeeps(s, step);
    case _ => FlagStepKeeps(s, step);
  }

  /** The invariant holds after every run, whatever the interleaving. */
  lemma ReachableInv(s: State)
    requires Reachable(s)
    ensures Inv(s)
  {
    var run: Path :| IsRun(run) && run.Last() == s;
    RunInv(run, |run.steps|);
  }

  lemma {:induction false} RunInv(run: Path, n: nat)
    requires IsRun(run) && n < |run.states|
    ensures Inv(run.states[n]) && Structured(run.states[n])
  {
    if n > 0 {
      RunInv(run, n - 1);
      var step := run.steps[n - 1];
      StepKeeps(run.states[n - 1], step);
    }
    InvStructured(run.states[n]);
  }

  // ----------------------------------------------------------------------- runs

  lemma After(s: State, step: Step, s': State)
    requires Reachable(s) && Moves(s, step, s')
    ensures Reachable(s')
  {
    var run: Path :| IsRun(run) && run.Last() == s;
    var more := Path(run.states + [s'], run.steps + [step]);
    assert forall i :: 0 <= i < |run.steps| ==> more.steps[i] == run.steps[i];
    assert IsRun(more) && more.Last() == s';
  }

  lemma Prepend(s: State, step: Step, rest: Path) returns (path: Path)
    requires rest.Valid() && Moves(s, step, rest.states[0])
    ensures path.Valid() && path.states[0] == s && path.Last() == rest.Last()
  {
    path := Path([s] + rest.states, [step] + rest.steps);
    forall i | 0 <= i < |path.steps| ensures Moves(path.states[i], path.steps[i], path.states[i + 1]) {
      if i > 0 {
        var earlier := rest.steps[i - 1];
        assert Moves(rest.states[i - 1], earlier, rest.states[i]);
      }
    }
  }

  lemma OnlyRouteLogs(s: State, step: Step)
    requires Structured(s) && Enabled(s, step) && !step.Route?
    ensures Do(s, step).arrivals == s.arrivals
  {
  }

  lemma EventLogs(s: State, e: Event, l: LinkId)
    requires Structured(s)
    ensures ArrivedOn(s.arrivals, l) <= ArrivedOn(OnEvent(s, e).arrivals, l)
  {
    if e.Data? {
      ArrivalSnoc(s.arrivals, OnEvent(s, e).arrivals[|s.arrivals|], l);
    }
  }

  lemma ArrivalsGrow(s: State, step: Step, l: LinkId)
    requires Structured(s) && Enabled(s, step)
    ensures ArrivedOn(s.arrivals, l) <= ArrivedOn(Do(s, step).arrivals, l)
  {
    if step.Route? {
      var s1 := s.(events := s.events[1..]);
      assert Structured(s1);
      EventLogs(s1, s.events[0], l);
    } else {
      OnlyRouteLogs(s, step);
    }
  }

  lemma RouteKeepsLinks(s: State, t: TaskId)
    requires Structured(s) && Enabled(s, Route) && t < |s.tasks|
    ensures t < |Do(s, Route).tasks| && Do(s, Route).tasks[t].link == s.tasks[t].link
  {
  }

  lemma FlagsKeepLinks(s: State, step: Step, t: TaskId)
    requires Structured(s) && Enabled(s, step) && OnlyFlags(step) && t < |s.tasks|
    ensures t < |Do(s, step).tasks| && Do(s, step).tasks[t].link == s.tasks[t].link
  {
  }

  /** A task that has a link keeps it. */
  lemma LinkKept(s: State, step: Step, t: TaskId)
    requires Structured(s) && Enabled(s, step) && t < |s.tasks| && s.tasks[t].link.Some?
    requires s.tasks[t].phase != Establishing
    ensures t < |Do(s, step).tasks| && Do(s, step).tasks[t].link == s.tasks[t].link
  {
    if step.Route? {
      RouteKeepsLinks(s, t);
    } else if OnlyFlags(step) {
      FlagsKeepLinks(s, step, t);
    } else {
      match step
      case TakePacket(u) => PacketKeepsLinks(s, u, t);
      case TakeChunk(u, sendOk) => ChunkKeepsLinks(s, u, sendOk, t);
      case IssueFirst(u, _) => IssueKeepsLinks(s, step, t);
      case IssueNext(u, _) => IssueKeepsLinks(s, step, t);
      case _ =>
    }
  }

  lemma PacketKeepsLinks(s: State, u: TaskId, t: TaskId)
    requires u < |s.tasks| && s.tasks[u].inbox != [] && s.tasks[u].inbox[0] < |s.recvd| && t < |s.tasks|
    ensures t < |TakesPacket(s, u).tasks| && TakesPacket(s, u).tasks[t].link == s.tasks[t].link
  {
  }

  lemma ChunkKeepsLinks(s: State, u: TaskId, sendOk: bool, t: TaskId)
    requires u < |s.tasks| && s.tasks[u].q.queue != [] && t < |s.tasks|
    ensures t < |TakesChunk(s, u, sendOk).tasks| && TakesChunk(s, u, sendOk).tasks[t].link == s.tasks[t].link
  {
  }

  lemma ChunkIssuedKeepsLinks(s: State, u: TaskId, t: TaskId)
    requires u < |s.tasks| && s.tasks[u].toIssue != [] && s.tasks[u].link.Some? && t < |s.tasks|
    ensures t < |IssuesChunk(s, u).tasks| && IssuesChunk(s, u).tasks[t].link == s.tasks[t].link
  {
  }

  lemma IssueKeepsLinks(s: State, step: Step, t: TaskId)
    requires Structured(s) && Enabled(s, step) && (step.IssueFirst? || step.IssueNext?) && t < |s.tasks|
    ensures t < |Do(s, step).tasks| && Do(s, step).tasks[t].link == s.tasks[t].link
  {
    if step.accepted {
      ChunkIssuedKeepsLinks(s, step.t, t);
    }
  }
}
