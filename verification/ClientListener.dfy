/** When the listener of the bridge client waits for ever, and some runs of the client. */
module ClientListener {
  import opened Basics
  import opened Framing
  import opened Intake
  import opened Logs
  import opened ClientRelay
  import opened ClientInvariant

  /** The channel of `y` is full and its task will not take a packet out of it without closing it. */
  predicate FullForEver(s: State, y: Task) {
    && |y.inbox| == CAPACITY
    && (y.phase == Leaving || (y.inbox[0] < |s.recvd| && s.recvd[y.inbox[0]].datagram == []))
  }

  /**
   * The listener waits for its own lock, or is about to: the task that it hands to has closed its
   * channel, or will before there is room in it.
   */
  predicate Deaf(s: State) {
    match s.listener
    case Idle => false
    case Stuck(_) => true
    case Handing(t) => t < |s.tasks| && (!s.tasks[t].inboxOpen || FullForEver(s, s.tasks[t]))
  }

  lemma DeafTake(s: State, t: TaskId)
    requires Structured(s) && Enabled(s, TakePacket(t)) && Deaf(s)
    ensures Deaf(TakesPacket(s, t)) && TakesPacket(s, t).recvd == s.recvd
  {
  }

  lemma DeafIssued(s: State, t: TaskId)
    requires Structured(s) && t < |s.tasks| && s.tasks[t].toIssue != [] && s.tasks[t].link.Some? && Deaf(s)
    ensures Deaf(IssuesChunk(s, t)) && IssuesChunk(s, t).recvd == s.recvd
  {
  }

  lemma DeafIssue(s: State, step: Step)
    requires Structured(s) && Enabled(s, step) && Deaf(s) && (step.IssueFirst? || step.IssueNext?)
    ensures Deaf(Do(s, step)) && Do(s, step).recvd == s.recvd
  {
    if step.accepted {
      DeafIssued(s, step.t);
    }
  }

  lemma DeafRoute(s: State)
    requires Structured(s) && Enabled(s, Route) && Deaf(s)
    ensures Deaf(Do(s, Route)) && Do(s, Route).recvd == s.recvd
  {
  }

  lemma DeafStep(s: State, step: Step)
    requires Structured(s) && Enabled(s, step) && Deaf(s)
    ensures Deaf(Do(s, step)) && Do(s, step).recvd == s.recvd
  {
    if step.Route? {
      DeafRoute(s);
    } else if step.TakePacket? {
      DeafTake(s, step.t);
    } else if step.IssueFirst? || step.IssueNext? {
      DeafIssue(s, step);
    }
  }

  lemma {:induction false} DeafStays(path: Path, n: nat)
    requires path.Valid() && Deaf(path.states[0]) && n < |path.states|
    ensures Deaf(path.states[n]) && path.states[n].recvd == path.states[0].recvd
  {
    if n > 0 {
      DeafStays(path, n - 1);
      var step := path.steps[n - 1];
      DeafStep(path.states[n - 1], step);
    }
  }

  /** The next step towards receiving a packet. */
  function TowardsRecv(s: State): Step {
    if !s.listener.Handing? || s.listener.task >= |s.tasks| then Recv(0, [])
    else
      var t := s.listener.task;
      var y := s.tasks[t];
      if |y.inbox| < CAPACITY then HandOver
      else if y.phase == FirstPacket then if y.toIssue != [] then IssueFirst(t, true) else Register(t)
      else if y.toIssue != [] then IssueNext(t, true) else TakePacket(t)
  }

  /** How many such steps there are at most. */
  function ToRecv(s: State): nat {
    if !s.listener.Handing? || s.listener.task >= |s.tasks| then 0
    else
      var y := s.tasks[s.listener.task];
      if |y.inbox| < CAPACITY then 1
      else 2 + |y.toIssue| + if y.phase == FirstPacket then 1 else 0
  }

  lemma TowardsRecvStep(s: State)
    requires Inv(s) && Structured(s) && !Deaf(s)
    ensures Enabled(s, TowardsRecv(s))
    ensures s.listener.Idle? ==> |Do(s, TowardsRecv(s)).recvd| == |s.recvd| + 1
    ensures !s.listener.Idle? ==>
      var s' := Do(s, TowardsRecv(s)); !Deaf(s') && s'.recvd == s.recvd && ToRecv(s') < ToRecv(s)
  {
    if s.listener.Handing? {
      assert UpAt(s, s.listener.task);
    }
  }

  lemma {:induction false} CanReceive(s: State) returns (path: Path)
    requires Inv(s) && !Deaf(s)
    ensures path.Valid() && path.states[0] == s && |path.Last().recvd| == |s.recvd| + 1
    decreases ToRecv(s), s.listener.Handing?
  {
    InvStructured(s);
    TowardsRecvStep(s);
    var step := TowardsRecv(s);
    var s' := Do(s, step);
    var rest := Path([s'], []);
    if s.listener.Handing? {
      StepKeeps(s, step);
      rest := CanReceive(s');
    }
    path := Prepend(s, step, rest);
  }

  /**
   * The listener never receives a packet again, whatever the other tasks do, if and only if it is
   * stuck, or hands a packet to a task whose channel is closed, or is full with nobody to make room.
   */
  lemma ListenerStuck(s: State)
    requires Reachable(s)
    ensures (forall path: Path :: path.Valid() && path.states[0] == s ==> path.Last().recvd == s.recvd) <==> Deaf(s)
  {
    ReachableInv(s);
    if Deaf(s) {
      forall path: Path | path.Valid() && path.states[0] == s ensures path.Last().recvd == s.recvd {
        DeafStays(path, |path.steps|);
      }
    } else {
      var path := CanReceive(s);
    }
  }

  /** A stuck listener holds its read lock, so no task gets the write lock of `udp_links` any more. */
  predicate NeedsLock(step: Step) {
    step.Establish? || step.Leave?
  }

  lemma StuckStep(s: State, step: Step)
    requires Structured(s) && Enabled(s, step) && s.listener.Stuck?
    ensures !NeedsLock(step)
    ensures Do(s, step).listener == s.listener && Do(s, step).udpLinks == s.udpLinks
  {
    if step.Route? {
      StuckRoute(s);
    } else if step.TakePacket? {
      assert Do(s, step) == TakesPacket(s, step.t);
    }
  }

  lemma StuckRoute(s: State)
    requires Structured(s) && Enabled(s, Route)
    ensures Do(s, Route).listener == s.listener && Do(s, Route).udpLinks == s.udpLinks
  {
  }

  /** Once the listener is stuck, for ever: no link comes up and no source leaves the map. */
  lemma {:induction false} StuckForEver(path: Path, n: nat)
    requires path.Valid() && path.states[0].listener.Stuck? && n < |path.states|
    ensures path.states[n].listener == path.states[0].listener
    ensures path.states[n].udpLinks == path.states[0].udpLinks
    ensures forall i {:trigger path.steps[i]} :: 0 <= i < n ==> !NeedsLock(path.steps[i])
  {
    if n > 0 {
      StuckForEver(path, n - 1);
      var step := path.steps[n - 1];
      StuckStep(path.states[n - 1], step);
    }
  }

  // -------------------------------------------------------------------- example runs

  const BYTE: Datagram := [7]
  const BYTE_CHUNK: Chunk := [FLAG_FINAL, 7]

  /** A packet of source 1 meant for task `t`. */
  function ForTask(t: TaskId, d: Datagram): Packet {
    Packet(1, d, Some(t))
  }

  /** A task for source 1 as it is started for packet `first`. */
  function NewTask(first: nat): Task {
    Task(1, first, Establishing, None, [], false, [], [], EMPTY, false)
  }

  /** The task of packet 0 with its link up, its packet framed and `toIssue` left to issue. */
  function LinkedTask(l: LinkId, toIssue: seq<Chunk>): Task {
    NewTask(0).(phase := FirstPacket, link := Some(l), inboxOpen := true, framed := [0], toIssue := toIssue)
  }

  function RelayingTask(l: LinkId): Task {
    LinkedTask(l, []).(phase := Relaying, open := true)
  }

  function Received(n: nat): State {
    Init(true).(recvd := seq(n, i requires i >= 0 => ForTask(i, BYTE)), tasks := seq(n, i requires i >= 0 => NewTask(i)))
  }

  lemma {:induction false} ReceivedReachable(n: nat)
    ensures Reachable(Received(n))
  {
    if n == 0 {
      var run := Path([Init(true)], []);
      assert Received(0) == Init(true) && IsRun(run) && run.Last() == Init(true);
    } else {
      ReceivedReachable(n - 1);
      assert Received(n).recvd == Received(n - 1).recvd + [ForTask(n - 1, BYTE)];
      assert Received(n).tasks == Received(n - 1).tasks + [NewTask(n - 1)];
      After(Received(n - 1), Recv(1, BYTE), Received(n));
    }
  }

  /** Two packets of one source that arrive while no link is up open a link each. */
  lemma TwoLinksForOneSource() returns (s: State)
    ensures Reachable(s) && |s.tasks| == 2 && s.tasks[0].src == s.tasks[1].src
    ensures s.tasks[0].link == Some(10) && s.tasks[1].link == Some(11)
  {
    var s1 := FirstOfTwo();
    s := Establishes(s1, 1, 11);
    ReachableInv(s1);
    InvStructured(s1);
    After(s1, Establish(1, 11), s);
  }

  lemma FirstOfTwo() returns (s: State)
    ensures Reachable(s) && |s.tasks| == 2 && s.listener == Idle && s.recvd != []
    ensures s.tasks[0].src == 1 && s.tasks[0].link == Some(10) && s.tasks[1] == NewTask(1) && |s.recvd| == 2
  {
    ReceivedReachable(2);
    s := Establishes(Received(2), 0, 10);
    After(Received(2), Establish(0, 10), s);
  }

  function Linked(l: LinkId, toIssue: seq<Chunk>, wire: seq<Sent>): State {
    Received(1).(tasks := [LinkedTask(l, toIssue)], udpLinks := map[1 := 0], wire := wire)
  }

  /** One source, one packet, and its link up. */
  function OneLink(l: LinkId): State {
    Linked(l, [], [Sent(0, l, BYTE_CHUNK)]).(tasks := [RelayingTask(l)], linkData := map[l := 0])
  }

  lemma LinkedReachable(l: LinkId)
    ensures Reachable(Linked(l, [BYTE_CHUNK], []))
  {
    ReceivedReachable(1);
    assert Chunks(BYTE) == [BYTE_CHUNK] by {
      assert [FLAG_FINAL] + BYTE == BYTE_CHUNK;
    }
    After(Received(1), Establish(0, l), Linked(l, [BYTE_CHUNK], []));
  }

  lemma IssuedReachable(l: LinkId)
    ensures Reachable(Linked(l, [], [Sent(0, l, BYTE_CHUNK)]))
  {
    LinkedReachable(l);
    assert Linked(l, [BYTE_CHUNK], []).tasks[0 := LinkedTask(l, [])] == [LinkedTask(l, [])];
    assert [BYTE_CHUNK][1..] == [] && [] + [Sent(0, l, BYTE_CHUNK)] == [Sent(0, l, BYTE_CHUNK)];
    After(Linked(l, [BYTE_CHUNK], []), IssueFirst(0, true), Linked(l, [], [Sent(0, l, BYTE_CHUNK)]));
  }

  lemma OneLinkReachable(l: LinkId)
    ensures Reachable(OneLink(l))
  {
    IssuedReachable(l);
    After(Linked(l, [], [Sent(0, l, BYTE_CHUNK)]), Register(0), OneLink(l));
  }

  /**
   * After its link has closed, the next packet of a source opens a link if and only if the source
   * is not in `udp_links` any more and a server is known; the close itself does not take it out.
   */
  lemma NextPacketAfterClose(s: State, l: LinkId, src: Addr, d: Datagram)
    requires Structured(s)
    ensures |OnPacket(OnEvent(s, Closed(l)), src, d).tasks| == |s.tasks| + 1 <==> src !in s.udpLinks && s.target
  {
  }

  function LinkClosed(l: LinkId): State {
    OneLink(l).(linkData := map[])
  }

  lemma CloseArrives(l: LinkId)
    ensures Reachable(OneLink(l).(events := [Closed(l)]))
  {
    OneLinkReachable(l);
    After(OneLink(l), EventArrives(Closed(l)), OneLink(l).(events := [Closed(l)]));
  }

  lemma ClosedReachable(l: LinkId)
    ensures Reachable(LinkClosed(l))
  {
    CloseArrives(l);
    var s := OneLink(l).(events := [Closed(l)]);
    assert s.(events := s.events[1..]) == OneLink(l) && OneLink(l).linkData - {l} == map[];
    After(s, Route, LinkClosed(l));
  }

  /** Such a run: the link has closed, and the next packet goes to the old task. */
  lemma NotReestablished(l: LinkId) returns (s: State)
    ensures Reachable(s) && |s.tasks| == 1 && s.tasks[0].link == Some(l) && s.linkData == map[]
    ensures |s.recvd| == 2 && s.recvd[1].src == 1 && s.listener == Handing(0)
  {
    ClosedReachable(l);
    s := OnPacket(LinkClosed(l), 1, BYTE);
    After(LinkClosed(l), Recv(1, BYTE), s);
  }

  /** The task of the link after an empty packet. */
  function Quit(l: LinkId): State {
    OneLink(l).(tasks := [RelayingTask(l).(inboxOpen := false)],
                recvd := [ForTask(0, BYTE), ForTask(0, [])])
  }

  function EmptyInbox(l: LinkId): State {
    Quit(l).(tasks := [RelayingTask(l).(inbox := [1])])
  }

  function HandingEmpty(l: LinkId): State {
    OneLink(l).(listener := Handing(0), recvd := [ForTask(0, BYTE), ForTask(0, [])])
  }

  lemma EmptyReceived(l: LinkId)
    ensures Reachable(HandingEmpty(l))
  {
    OneLinkReachable(l);
    After(OneLink(l), Recv(1, []), HandingEmpty(l));
  }

  lemma EmptyHanded(l: LinkId)
    ensures Reachable(EmptyInbox(l))
  {
    EmptyReceived(l);
    assert [] + [1] == [1] && HandingEmpty(l).tasks[0 := RelayingTask(l).(inbox := [1])] == EmptyInbox(l).tasks;
    After(HandingEmpty(l), HandOver, EmptyInbox(l));
  }

  lemma QuitReachable(l: LinkId)
    ensures Reachable(Quit(l))
  {
    EmptyHanded(l);
    assert [1][1..] == [] && EmptyInbox(l).tasks[0 := RelayingTask(l).(inboxOpen := false)] == Quit(l).tasks;
    After(EmptyInbox(l), TakePacket(0), Quit(l));
  }

  /** A packet, an empty packet and any other packet of one source leave the listener stuck. */
  lemma ListenerCanGetStuck(l: LinkId) returns (s: State)
    ensures Reachable(s) && s.listener == Stuck(0) && s.recvd == [ForTask(0, BYTE), ForTask(0, []), ForTask(0, BYTE)]
  {
    QuitReachable(l);
    var s1 := OnPacket(Quit(l), 1, BYTE);
    After(Quit(l), Recv(1, BYTE), s1);
    s := s1.(listener := Stuck(0));
    After(s1, HandFails, s);
  }
}
