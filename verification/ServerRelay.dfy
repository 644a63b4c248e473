/**
 * The server side of src/relay.rs as a transition system: the event router, one relay task per
 * accepted link with its reader (`to_sc`) and its pump (`from_sc`), and the map `link_senders`.
 */
module ServerRelay {
  import opened Basics
  import opened Framing
  import opened Intake
  import opened Logs

  datatype Event = Established(link: LinkId) | Closed(link: LinkId) | Data(link: LinkId, bytes: Chunk)

  /** `Failed`: the bind failed and the task waits to take its link out of the map. */
  datatype Phase = Starting | Running | Failed | Ended

  /**
   * One relay task. `open`: the receiving end of its channel is alive; `pumping`: `from_sc` is
   * alive; `sentinel`: the router has put the empty chunk into the channel; `toIssue`: the chunks
   * of the datagram in hand that are still to be issued.
   */
  datatype Relay = Relay(link: LinkId, phase: Phase, q: Intake, open: bool, sentinel: bool,
                         pumping: bool, toIssue: seq<Chunk>)

  /**
   * `closing`: the router has taken this relay's channel out of `link_senders` and waits to put the
   * empty chunk into it; it holds the write lock of the map for that long.
   */
  datatype State = State(
    closing: Option<TaskId>, events: seq<Event>, senders: map<LinkId, TaskId>, relays: seq<Relay>,
    arrivals: seq<Arrival>, toSc: seq<Write>, fromSc: seq<Read>, wire: seq<Sent>)

  const INIT := State(None, [], map[], [], [], [], [], [])

  /** The address of the game server, the same for every relay. */
  const SC_ADDR: Addr := 0

  datatype Step =
    | EventArrives(e: Event)
    | Route
    | SendSentinel
    | BindOk(r: TaskId)
    | BindFails(r: TaskId)
    | TakeChunk(r: TaskId, sendOk: bool)
    | SendersGone(r: TaskId)
    | ReadSc(r: TaskId, d: Datagram)
    | ReadScFails(r: TaskId)
    | Issue(r: TaskId, accepted: bool)
    | RelayEnds(r: TaskId)

  predicate IsRunning(s: State, r: TaskId) {
    r < |s.relays| && s.relays[r].phase == Running
  }

  predicate Enabled(s: State, step: Step) {
    match step
    case EventArrives(e) => true
    case Route => s.closing.None? && s.events != []
    // sending the empty chunk waits for room while the receiver is alive
    case SendSentinel =>
      && s.closing.Some? && s.closing.value < |s.relays|
      && (s.relays[s.closing.value].open ==> HasRoom(s.relays[s.closing.value].q))
    case BindOk(r) => r < |s.relays| && s.relays[r].phase == Starting
    case BindFails(r) => r < |s.relays| && s.relays[r].phase == Starting
    case TakeChunk(r, _) => IsRunning(s, r) && s.relays[r].open && s.relays[r].q.queue != []
    case SendersGone(r) =>
      && IsRunning(s, r) && s.relays[r].open && s.relays[r].q.queue == []
      && r !in s.senders.Values && s.closing != Some(r)
    case ReadSc(r, d) =>
      IsRunning(s, r) && s.relays[r].pumping && s.relays[r].toIssue == [] && |d| <= UDP_READ_BUF
    case ReadScFails(r) => IsRunning(s, r) && s.relays[r].pumping && s.relays[r].toIssue == []
    case Issue(r, _) => IsRunning(s, r) && s.relays[r].pumping && s.relays[r].toIssue != []
    // taking the link out of the map needs its write lock
    case RelayEnds(r) =>
      && s.closing.None? && r < |s.relays|
      && (s.relays[r].phase == Failed
          || (s.relays[r].phase == Running && !s.relays[r].open && !s.relays[r].pumping))
  }

  function SetRelay(s: State, r: TaskId, y: Relay): State
    requires r < |s.relays|
  {
    s.(relays := s.relays[r := y])
  }

  /** The router's handling of one event. */
  function OnEvent(s: State, e: Event): State
    requires e.link in s.senders ==> s.senders[e.link] < |s.relays|
  {
    var l := e.link;
    match e
    case Established(_) =>
      if l in s.senders then s
      else s.(senders := s.senders[l := |s.relays|],
              relays := s.relays + [Relay(l, Starting, EMPTY, true, false, true, [])])
    case Closed(_) =>
      if l !in s.senders then s else s.(senders := s.senders - {l}, closing := Some(s.senders[l]))
    case Data(_, bytes) =>
      if l in s.senders && s.relays[s.senders[l]].open && HasRoom(s.relays[s.senders[l]].q) then
        var r := s.senders[l];
        var y := s.relays[r];
        SetRelay(s, r, y.(q := Enqueue(y.q, bytes))).(arrivals := s.arrivals + [Arrival(l, bytes, Some(r))])
      else s.(arrivals := s.arrivals + [Arrival(l, bytes, None)])
  }

  /** The empty chunk goes into the channel, or nowhere if its receiver is gone. */
  function SendsSentinel(s: State): State
    requires s.closing.Some? && s.closing.value < |s.relays|
  {
    var r := s.closing.value;
    var y := s.relays[r];
    var s' := s.(closing := None);
    if y.open then SetRelay(s', r, y.(q := Enqueue(y.q, []), sentinel := true)) else s'
  }

  /** The `to_sc` task receives one chunk; an empty one, or a failed send, ends it. */
  function ReaderTakes(s: State, r: TaskId, sendOk: bool): State
    requires r < |s.relays| && s.relays[r].q.queue != []
  {
    var y := s.relays[r];
    var (q, sent) := Take(y.q, sendOk);
    var s' := if sent.Some? then s.(toSc := s.toSc + [Write(r, SC_ADDR, sent.value)]) else s;
    SetRelay(s', r, y.(q := q, open := y.q.queue[0] != [] && !q.failed))
  }

  function Do(s: State, step: Step): State
    requires MapsOk(s) && Enabled(s, step)
  {
    match step
    case EventArrives(e) => s.(events := s.events + [e])
    case Route => OnEvent(s.(events := s.events[1..]), s.events[0])
    case SendSentinel => SendsSentinel(s)
    case BindOk(r) => SetRelay(s, r, s.relays[r].(phase := Running))
    case BindFails(r) => SetRelay(s, r, s.relays[r].(phase := Failed, pumping := false))
    case TakeChunk(r, sendOk) => ReaderTakes(s, r, sendOk)
    case SendersGone(r) => SetRelay(s, r, s.relays[r].(open := false))
    case ReadSc(r, d) =>
      if d == [] then s
      else SetRelay(s, r, s.relays[r].(toIssue := Chunks(d))).(fromSc := s.fromSc + [Read(r, d)])
    case ReadScFails(r) => SetRelay(s, r, s.relays[r].(pumping := false))
    case Issue(r, accepted) =>
      var y := s.relays[r];
      if accepted then
        SetRelay(s, r, y.(toIssue := y.toIssue[1..])).(wire := s.wire + [Sent(r, y.link, y.toIssue[0])])
      else SetRelay(s, r, y.(pumping := false))
    case RelayEnds(r) =>
      SetRelay(s, r, s.relays[r].(phase := Ended, open := false)).(senders := s.senders - {s.relays[r].link})
  }

  ghost predicate Moves(s: State, step: Step, s': State) {
    MapsOk(s) && Enabled(s, step) && s' == Do(s, step)
  }

  /** The states that a path goes through and the steps between them. */
  datatype Path = Path(states: seq<State>, steps: seq<Step>) {
    ghost predicate Valid() {
      && |states| == |steps| + 1
      && forall i {:trigger steps[i]} :: 0 <= i < |steps| ==> Moves(states[i], steps[i], states[i + 1])
    }

    function Last(): State
      requires states != []
    {
      states[|states| - 1]
    }
  }

  /** A path from the start of the node. */
  ghost predicate IsRun(run: Path) {
    run.Valid() && run.states[0] == INIT
  }

  ghost predicate Reachable(s: State) {
    exists run: Path :: IsRun(run) && run.Last() == s
  }

  // ------------------------------------------------------------------ invariant

  /** Every channel in `link_senders` belongs to a relay of that link. */
  ghost predicate MapsOk(s: State) {
    forall l :: l in s.senders ==> s.senders[l] < |s.relays| && s.relays[s.senders[l]].link == l
  }

  /** No relay touches a link that is not its own. */
  ghost predicate LinksOk(s: State) {
    && (forall i :: 0 <= i < |s.arrivals| && s.arrivals[i].to.Some? ==>
          && s.arrivals[i].to.value < |s.relays|
          && s.relays[s.arrivals[i].to.value].link == s.arrivals[i].link)
    && (forall i :: 0 <= i < |s.wire| ==>
          s.wire[i].task < |s.relays| && s.relays[s.wire[i].task].link == s.wire[i].link)
    && (forall i :: 0 <= i < |s.toSc| ==> s.toSc[i].task < |s.relays|)
    && (forall i :: 0 <= i < |s.fromSc| ==>
          s.fromSc[i].task < |s.relays| && 0 < |s.fromSc[i].datagram| <= UDP_READ_BUF)
  }

  /** One relay, given what the logs say of it and whether the router can still reach it. */
  ghost predicate RelayOk(y: Relay, handed: seq<Chunk>, written: seq<Datagram>,
                          issued: seq<Chunk>, read: seq<Datagram>, reachable: bool) {
    && Holds(y.q, handed + (if y.sentinel then [[]] else []), written)
    && (y.q.failed ==> !y.open)
    && (y.sentinel ==> !reachable)
    && (y.phase in {Starting, Failed} ==> y.open)
    && (y.phase == Ended ==> !y.open)
    && (forall i :: 0 <= i < |y.q.taken| && y.q.taken[i] == [] ==> i == |y.q.taken| - 1 && !y.open)
    && issued + y.toIssue == Stream(read)
  }

  ghost predicate RelayAt(s: State, r: TaskId)
    requires r < |s.relays|
  {
    RelayOk(s.relays[r], HandedTo(s.arrivals, r), WrittenBy(s.toSc, r),
            IssuedBy(s.wire, r), ReadBy(s.fromSc, r), r in s.senders.Values)
  }

  /** The relay that is being closed cannot be reached any more and has no empty chunk yet. */
  ghost predicate ClosingOk(s: State) {
    s.closing.Some? ==>
      && s.closing.value < |s.relays| && !s.relays[s.closing.value].sentinel
      && s.closing.value !in s.senders.Values
  }

  ghost predicate Shape(s: State) {
    MapsOk(s) && LinksOk(s) && ClosingOk(s)
  }

  ghost predicate RelaysOk(s: State) {
    forall r :: 0 <= r < |s.relays| ==> RelayAt(s, r)
  }

  ghost predicate Inv(s: State) {
    Shape(s) && RelaysOk(s)
  }

  /** Two states that agree on relay `r` and on what is logged of it. */
  ghost predicate SameFor(s: State, s': State, r: TaskId) {
    && r < |s.relays| && r < |s'.relays| && s.relays[r] == s'.relays[r]
    && HandedTo(s.arrivals, r) == HandedTo(s'.arrivals, r)
    && WrittenBy(s.toSc, r) == WrittenBy(s'.toSc, r)
    && IssuedBy(s.wire, r) == IssuedBy(s'.wire, r)
    && ReadBy(s.fromSc, r) == ReadBy(s'.fromSc, r)
    && (r in s'.senders.Values ==> r in s.senders.Values)
  }
}

/** Every step of the bridge server keeps the invariant. */
module ServerInvariant {
  import opened Basics
  import opened Framing
  import opened Intake
  import opened Logs
  import opened ServerRelay

  /** Only relay `r` has moved between the states. */
  lemma RelaysKeep(s: State, s': State, r: TaskId)
    requires RelaysOk(s) && |s'.relays| == |s.relays| && r < |s.relays| && RelayAt(s', r)
    requires forall q :: 0 <= q < |s.relays| && q != r ==> SameFor(s, s', q)
    ensures RelaysOk(s')
  {
    forall q | 0 <= q < |s.relays| ensures RelayAt(s', q) {
      assert RelayAt(s, q);
      assert q != r ==> SameFor(s, s', q);
    }
  }

  /** A step of relay `r`, of the router for it, or of its peer, that logs at most its own doings. */
  lemma ShapeKeeps(s: State, s': State, r: TaskId)
    requires Shape(s) && r < |s.relays| && |s'.relays| == |s.relays|
    requires s'.relays == s.relays[r := s'.relays[r]] && s'.relays[r].link == s.relays[r].link
    requires s'.closing.None? || (s'.closing == s.closing && s'.relays[r].sentinel == s.relays[r].sentinel)
    requires forall l :: l in s'.senders ==> l in s.senders && s'.senders[l] == s.senders[l]
    requires AtMostOneMore(s.arrivals, s'.arrivals, (e: Arrival) =>
      e.to.Some? ==> e.to.value == r && s.relays[r].link == e.link)
    requires AtMostOneMore(s.wire, s'.wire, (e: Sent) => e.task == r && s.relays[r].link == e.link)
    requires AtMostOneMore(s.toSc, s'.toSc, (e: Write) => e.task == r)
    requires AtMostOneMore(s.fromSc, s'.fromSc, (e: Read) => e.task == r && 0 < |e.datagram| <= UDP_READ_BUF)
    ensures Shape(s')
  {
    assert forall q :: 0 <= q < |s.relays| ==> s'.relays[q].link == s.relays[q].link;
  }

  lemma EstablishedShape(s: State, l: LinkId)
    requires Shape(s)
    ensures Shape(OnEvent(s, Established(l)))
  {
    var s' := OnEvent(s, Established(l));
    assert forall r :: 0 <= r < |s.relays| ==> s'.relays[r] == s.relays[r];
    assert s.closing.Some? ==> s.closing.value !in s'.senders.Values;
  }

  lemma EstablishedKeeps(s: State, l: LinkId)
    requires Inv(s)
    ensures Inv(OnEvent(s, Established(l)))
  {
    EstablishedShape(s, l);
    if l !in s.senders {
      NewRelayOk(s, l);
      forall q | 0 <= q < |s.relays| ensures RelayAt(OnEvent(s, Established(l)), q) {
        assert RelayAt(s, q);
        EstablishedElsewhere(s, l, q);
      }
    }
  }

  lemma EstablishedElsewhere(s: State, l: LinkId, q: TaskId)
    requires MapsOk(s) && l !in s.senders && q < |s.relays| && RelayAt(s, q)
    ensures RelayAt(OnEvent(s, Established(l)), q)
  {
    var s' := OnEvent(s, Established(l));
    assert s'.relays[q] == s.relays[q];
    assert q in s'.senders.Values ==> q in s.senders.Values;
  }

  lemma FreshRelayOk(l: LinkId, reachable: bool)
    ensures RelayOk(Relay(l, Starting, EMPTY, true, false, true, []), [], [], [], [], reachable)
  {
  }

  lemma NewRelayOk(s: State, l: LinkId)
    requires Shape(s) && l !in s.senders
    ensures RelayAt(OnEvent(s, Established(l)), |s.relays|)
  {
    var s', r := OnEvent(s, Established(l)), |s.relays|;
    NothingIssued(s.wire, r);
    NothingHanded(s.arrivals, r);
    NothingWritten(s.toSc, r);
    NothingRead(s.fromSc, r);
    FreshRelayOk(l, r in s'.senders.Values);
  }

  lemma ClosedKeeps(s: State, l: LinkId)
    requires Inv(s) && s.closing.None?
    ensures Inv(OnEvent(s, Closed(l)))
  {
    var s' := OnEvent(s, Closed(l));
    if l in s.senders {
      var r := s.senders[l];
      assert RelayAt(s, r) && r in s.senders.Values;
      forall q | 0 <= q < |s.relays| ensures RelayAt(s', q) {
        assert RelayAt(s, q) && SameFor(s, s', q);
      }
    }
  }

  lemma SentinelKeeps(s: State)
    requires Inv(s) && Enabled(s, SendSentinel)
    ensures Inv(SendsSentinel(s))
  {
    var s', r := SendsSentinel(s), s.closing.value;
    assert RelayAt(s, r);
    SentinelQueued(s.relays[r].q, HandedTo(s.arrivals, r), WrittenBy(s.toSc, r));
    assert RelayAt(s', r);
    RelaysKeep(s, s', r);
    ShapeKeeps(s, s', r);
  }

  lemma SentinelQueued(q: Intake, handed: seq<Chunk>, written: seq<Datagram>)
    requires Holds(q, handed + [], written)
    ensures HasRoom(q) ==> Holds(Enqueue(q, []), handed + [[]], written)
  {
    assert handed + [] == handed;
    if HasRoom(q) {
      EnqueueHolds(q, handed, written, []);
    }
  }

  lemma DataHands(s: State, l: LinkId, bytes: Chunk, q: TaskId)
    requires MapsOk(s)
    ensures var s' := OnEvent(s, Data(l, bytes)); var e := s'.arrivals[|s.arrivals|];
      HandedTo(s'.arrivals, q) == HandedTo(s.arrivals, q) + if e.to == Some(q) then [bytes] else []
  {
    ArrivalSnoc(s.arrivals, OnEvent(s, Data(l, bytes)).arrivals[|s.arrivals|], q);
  }

  /** A relay that the router can reach takes one more chunk into its channel. */
  lemma DataOk(y: Relay, handed: seq<Chunk>, written: seq<Datagram>,
               issued: seq<Chunk>, read: seq<Datagram>, bytes: Chunk)
    requires RelayOk(y, handed, written, issued, read, true) && HasRoom(y.q)
    ensures RelayOk(y.(q := Enqueue(y.q, bytes)), handed + [bytes], written, issued, read, true)
  {
    assert handed + [] == handed && (handed + [bytes]) + [] == handed + [bytes];
    EnqueueHolds(y.q, handed, written, bytes);
  }

  lemma DataGoesTo(s: State, l: LinkId, bytes: Chunk, q: TaskId)
    requires MapsOk(s) && q < |s.relays|
    ensures var s' := OnEvent(s, Data(l, bytes)); var to := s'.arrivals[|s.arrivals|].to;
      && s'.senders == s.senders && s'.toSc == s.toSc && s'.wire == s.wire && s'.fromSc == s.fromSc
      && (to == Some(q) ==> q in s.senders.Values && HasRoom(s.relays[q].q))
      && s'.relays[q] == if to == Some(q) then s.relays[q].(q := Enqueue(s.relays[q].q, bytes)) else s.relays[q]
  {
  }

  lemma DataRelay(s: State, l: LinkId, bytes: Chunk, q: TaskId)
    requires MapsOk(s) && q < |s.relays| && RelayAt(s, q)
    ensures RelayAt(OnEvent(s, Data(l, bytes)), q)
  {
    var s', handed := OnEvent(s, Data(l, bytes)), HandedTo(s.arrivals, q);
    DataHands(s, l, bytes, q);
    DataGoesTo(s, l, bytes, q);
    if s'.arrivals[|s.arrivals|].to == Some(q) {
      DataOk(s.relays[q], handed, WrittenBy(s.toSc, q), IssuedBy(s.wire, q), ReadBy(s.fromSc, q), bytes);
    } else {
      assert HandedTo(s'.arrivals, q) == handed;
    }
  }

  lemma DataKeeps(s: State, l: LinkId, bytes: Chunk)
    requires Inv(s)
    ensures Inv(OnEvent(s, Data(l, bytes)))
  {
    var s' := OnEvent(s, Data(l, bytes));
    forall q | 0 <= q < |s.relays| ensures RelayAt(s', q) {
      assert RelayAt(s, q);
      DataRelay(s, l, bytes, q);
    }
    var e := s'.arrivals[|s.arrivals|];
    if e.to.Some? {
      ShapeKeeps(s, s', e.to.value);
    }
  }

  lemma TakeKeeps(s: State, r: TaskId, sendOk: bool)
    requires Inv(s) && Enabled(s, TakeChunk(r, sendOk))
    ensures Inv(ReaderTakes(s, r, sendOk))
  {
    var s' := ReaderTakes(s, r, sendOk);
    forall q | 0 <= q < |s.relays| && q != r ensures SameFor(s, s', q) {
      ReaderWrites(s, r, sendOk, q);
    }
    ReaderRelayOk(s, r, sendOk);
    RelaysKeep(s, s', r);
    ShapeKeeps(s, s', r);
  }

  lemma ReaderWrites(s: State, r: TaskId, sendOk: bool, t: TaskId)
    requires r < |s.relays| && s.relays[r].q.queue != []
    ensures WrittenBy(ReaderTakes(s, r, sendOk).toSc, t)
         == WrittenBy(s.toSc, t) + if t == r then Take(s.relays[r].q, sendOk).1.ToSeq() else []
  {
    var sent := Take(s.relays[r].q, sendOk).1;
    if sent.Some? {
      WriteSnoc(s.toSc, Write(r, SC_ADDR, sent.value), t);
    }
  }

  lemma ReaderRelayOk(s: State, r: TaskId, sendOk: bool)
    requires Inv(s) && Enabled(s, TakeChunk(r, sendOk))
    ensures RelayAt(ReaderTakes(s, r, sendOk), r)
  {
    var y := s.relays[r];
    assert RelayAt(s, r);
    ReaderWrites(s, r, sendOk, r);
    var handed := HandedTo(s.arrivals, r) + (if y.sentinel then [[]] else []);
    TakeHolds(y.q, handed, WrittenBy(s.toSc, r), sendOk);
  }

  lemma ReadRelay(s: State, r: TaskId, d: Datagram)
    requires Enabled(s, ReadSc(r, d)) && RelayAt(s, r) && d != [] && MapsOk(s)
    ensures RelayAt(Do(s, ReadSc(r, d)), r)
  {
    var issued, read := IssuedBy(s.wire, r), ReadBy(s.fromSc, r);
    ReadSnoc(s.fromSc, Read(r, d), r);
    StreamSnoc(read, d);
    assert issued + [] == issued;
  }

  lemma ReadKeeps(s: State, r: TaskId, d: Datagram)
    requires Inv(s) && Enabled(s, ReadSc(r, d)) && d != []
    ensures Inv(Do(s, ReadSc(r, d)))
  {
    var s' := Do(s, ReadSc(r, d));
    forall q | 0 <= q < |s.relays| && q != r ensures SameFor(s, s', q) {
      ReadSnoc(s.fromSc, Read(r, d), q);
    }
    assert RelayAt(s, r);
    ReadRelay(s, r, d);
    RelaysKeep(s, s', r);
    ShapeKeeps(s, s', r);
  }

  lemma IssueOk(y: Relay, handed: seq<Chunk>, written: seq<Datagram>,
                issued: seq<Chunk>, read: seq<Datagram>, reachable: bool)
    requires RelayOk(y, handed, written, issued, read, reachable) && y.toIssue != []
    ensures RelayOk(y.(toIssue := y.toIssue[1..]), handed, written, issued + [y.toIssue[0]], read, reachable)
  {
    HeadTail(y.toIssue);
    Associative(issued, [y.toIssue[0]], y.toIssue[1..]);
  }

  lemma IssueRelay(s: State, r: TaskId)
    requires Enabled(s, Issue(r, true)) && RelayAt(s, r) && MapsOk(s)
    ensures RelayAt(Do(s, Issue(r, true)), r)
  {
    var y := s.relays[r];
    SentSnoc(s.wire, Sent(r, y.link, y.toIssue[0]), r);
    IssueOk(y, HandedTo(s.arrivals, r), WrittenBy(s.toSc, r), IssuedBy(s.wire, r), ReadBy(s.fromSc, r),
            r in s.senders.Values);
  }

  lemma IssueKeeps(s: State, r: TaskId)
    requires Inv(s) && Enabled(s, Issue(r, true))
    ensures Inv(Do(s, Issue(r, true)))
  {
    var s' := Do(s, Issue(r, true));
    var e := Sent(r, s.relays[r].link, s.relays[r].toIssue[0]);
    forall q | 0 <= q < |s.relays| && q != r ensures SameFor(s, s', q) {
      SentSnoc(s.wire, e, q);
    }
    assert RelayAt(s, r);
    IssueRelay(s, r);
    RelaysKeep(s, s', r);
    ShapeKeeps(s, s', r);
  }

  predicate OnlyFlags(step: Step) {
    || step.BindOk? || step.BindFails? || step.SendersGone? || step.ReadScFails?
    || (step.Issue? && !step.accepted) || step.RelayEnds?
  }

  lemma FlagsRelay(s: State, step: Step)
    requires MapsOk(s) && Enabled(s, step) && OnlyFlags(step) && RelayAt(s, step.r)
    ensures RelayAt(Do(s, step), step.r)
  {
    assert step.r in Do(s, step).senders.Values ==> step.r in s.senders.Values;
  }

  lemma FlagsKeep(s: State, step: Step)
    requires Inv(s) && Enabled(s, step) && OnlyFlags(step)
    ensures Inv(Do(s, step))
  {
    assert RelayAt(s, step.r);
    FlagsRelay(s, step);
    FlagsShape(s, step);
    FlagsOthers(s, step);
    RelaysKeep(s, Do(s, step), step.r);
  }

  lemma FlagsOthers(s: State, step: Step)
    requires MapsOk(s) && Enabled(s, step) && OnlyFlags(step)
    ensures |Do(s, step).relays| == |s.relays|
    ensures forall q :: 0 <= q < |s.relays| && q != step.r ==> SameFor(s, Do(s, step), q)
  {
  }

  lemma FlagsShape(s: State, step: Step)
    requires Shape(s) && Enabled(s, step) && OnlyFlags(step)
    ensures Shape(Do(s, step))
  {
    ShapeKeeps(s, Do(s, step), step.r);
  }

  lemma StepKeeps(s: State, step: Step)
    requires Inv(s) && Enabled(s, step)
    ensures Inv(Do(s, step))
  {
    match step
    case EventArrives(e) =>
      assert forall r :: 0 <= r < |s.relays| ==> RelayAt(s, r) == RelayAt(Do(s, step), r);
    case Route =>
      var s1 := s.(events := s.events[1..]);
      assert forall r :: 0 <= r < |s.relays| ==> RelayAt(s, r) == RelayAt(s1, r);
      match s.events[0] {
        case Established(l) => EstablishedKeeps(s1, l);
        case Closed(l) => ClosedKeeps(s1, l);
        case Data(l, bytes) => DataKeeps(s1, l, bytes);
      }
    case SendSentinel => SentinelKeeps(s);
    case TakeChunk(r, sendOk) => TakeKeeps(s, r, sendOk);
    case ReadSc(r, d) => if d != [] { ReadKeeps(s, r, d); }
    case Issue(r, true) => IssueKeeps(s, r);
    case _ => FlagsKeep(s, step);
  }

  /** The invariant holds after every run, whatever the interleaving. */
  lemma ReachableInv(s: State)
    requires Reachable(s)
    ensures Inv(s)
  {
    var run: Path :| IsRun(run) && run.Last() == s;
    RunInv(run, |run.steps|);
  }

  lemma {:induction false} RunInv(run: Path, n: nat)
    requires IsRun(run) && n < |run.states|
    ensures Inv(run.states[n])
  {
    if n > 0 {
      RunInv(run, n - 1);
      var step := run.steps[n - 1];
      StepKeeps(run.states[n - 1], step);
    }
  }

  // ----------------------------------------------------------------------- runs

  lemma RelaysGrow(s: State, step: Step)
    requires MapsOk(s) && Enabled(s, step)
    ensures |s.relays| <= |Do(s, step).relays|
    ensures forall r :: 0 <= r < |s.relays| ==> Do(s, step).relays[r].link == s.relays[r].link
  {
  }

  lemma OnlyRouteLogs(s: State, step: Step)
    requires MapsOk(s) && Enabled(s, step) && !step.Route?
    ensures Do(s, step).arrivals == s.arrivals
  {
  }

  lemma EventLogs(s: State, e: Event, l: LinkId)
    requires MapsOk(s)
    ensures ArrivedOn(s.arrivals, l) <= ArrivedOn(OnEvent(s, e).arrivals, l)
  {
    if e.Data? {
      ArrivalSnoc(s.arrivals, OnEvent(s, e).arrivals[|s.arrivals|], l);
    }
  }

  lemma ArrivalsGrow(s: State, step: Step, l: LinkId)
    requires MapsOk(s) && Enabled(s, step)
    ensures ArrivedOn(s.arrivals, l) <= ArrivedOn(Do(s, step).arrivals, l)
  {
    if step.Route? {
      EventLogs(s.(events := s.events[1..]), s.events[0], l);
    } else {
      OnlyRouteLogs(s, step);
    }
  }

  lemma Extend(run: Path, step: Step, s: State) returns (more: Path)
    requires IsRun(run) && Moves(run.Last(), step, s)
    ensures more == Path(run.states + [s], run.steps + [step]) && IsRun(more) && more.Last() == s
  {
    more := Path(run.states + [s], run.steps + [step]);
    assert forall i :: 0 <= i < |run.steps| ==> more.steps[i] == run.steps[i];
  }

  lemma Prepend(s: State, step: Step, rest: Path) returns (path: Path)
    requires rest.Valid() && Moves(s, step, rest.states[0])
    ensures path.Valid() && path.states[0] == s && path.Last() == rest.Last()
  {
    path := Path([s] + rest.states, [step] + rest.steps);
    forall i | 0 <= i < |path.steps| ensures Moves(path.states[i], path.steps[i], path.states[i + 1]) {
      if i > 0 {
        var earlier := rest.steps[i - 1];
        assert Moves(rest.states[i - 1], earlier, rest.states[i]);
      }
    }
  }
}
