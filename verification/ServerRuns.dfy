/**
 * The bridge server as a function of the steps of its run: what its logs hold, which relays there
 * are, and when the tasks of a relay are alive.
 */
module ServerRuns {
  import opened Basics
  import opened Framing
  import opened Intake
  import opened Logs
  import opened ServerRelay
  import opened ServerInvariant
  import opened ServerSafety

  // ------------------------------------------------------------------ the game server's datagrams

  /** The datagrams that relay `r` received from the game server in the first `n` steps. */
  function DatagramsRead(steps: seq<Step>, r: TaskId, n: nat): seq<Datagram>
    requires n <= |steps|
  {
    if n == 0 then []
    else
      var step := steps[n - 1];
      DatagramsRead(steps, r, n - 1) + if step.ReadSc? && step.r == r && step.d != [] then [step.d] else []
  }

  lemma OnlyReadLogs(s: State, step: Step)
    requires MapsOk(s) && Enabled(s, step) && !step.ReadSc?
    ensures Do(s, step).fromSc == s.fromSc
  {
    if step.Route? {
      assert OnEvent(s.(events := s.events[1..]), s.events[0]).fromSc == s.fromSc;
    }
  }

  lemma ReadLogs(s: State, r: TaskId, d: Datagram, q: TaskId)
    requires MapsOk(s) && Enabled(s, ReadSc(r, d))
    ensures ReadBy(Do(s, ReadSc(r, d)).fromSc, q) == ReadBy(s.fromSc, q) + if r == q && d != [] then [d] else []
  {
    if d != [] {
      ReadSnoc(s.fromSc, Read(r, d), q);
    }
  }

  ghost predicate LogFits(run: Path, r: TaskId, n: nat) {
    n <= |run.steps| < |run.states| && ReadBy(run.states[n].fromSc, r) == DatagramsRead(run.steps, r, n)
  }

  lemma LogFitsNext(run: Path, r: TaskId, n: nat)
    requires IsRun(run) && n < |run.steps| && LogFits(run, r, n)
    ensures LogFits(run, r, n + 1)
  {
    var s, step := run.states[n], run.steps[n];
    if step.ReadSc? {
      ReadLogs(s, step.r, step.d, r);
    } else {
      OnlyReadLogs(s, step);
    }
  }

  /** The log of a relay is exactly what the game server sent it; empty datagrams are passed over. */
  lemma ReadIsLogged(run: Path, r: TaskId, n: nat)
    requires IsRun(run) && n < |run.states|
    ensures ReadBy(run.states[n].fromSc, r) == DatagramsRead(run.steps, r, n)
  {
    forall i: nat | i < n && LogFits(run, r, i) ensures LogFits(run, r, i + 1) {
      LogFitsNext(run, r, i);
    }
    Climb((i: nat) => LogFits(run, r, i), n);
  }

  /**
   * What a relay has issued is the start of the framing of what the game server sent it, and all of
   * it whenever the relay has nothing in hand.
   */
  lemma IssuedIsFramed(run: Path, r: TaskId, n: nat)
    requires IsRun(run) && n < |run.states| && r < |run.states[n].relays|
    ensures IssuedBy(run.states[n].wire, r) + run.states[n].relays[r].toIssue == Stream(DatagramsRead(run.steps, r, n))
    ensures run.states[n].relays[r].toIssue == [] ==>
      IssuedBy(run.states[n].wire, r) == Stream(DatagramsRead(run.steps, r, n))
  {
    RunInv(run, n);
    assert RelayAt(run.states[n], r);
    ReadIsLogged(run, r, n);
    var issued := IssuedBy(run.states[n].wire, r);
    assert issued + [] == issued;
  }

  // --------------------------------------------------------------------------- the events

  /** The events that the engine reported in the first `n` steps. */
  function Reported(steps: seq<Step>, n: nat): seq<Event>
    requires n <= |steps|
  {
    if n == 0 then []
    else Reported(steps, n - 1) + if steps[n - 1].EventArrives? then [steps[n - 1].e] else []
  }

  /** The events that the router handled in the first `n` steps. */
  function Routed(run: Path, n: nat): seq<Event>
    requires n <= |run.steps| < |run.states|
  {
    if n == 0 then []
    else
      var waiting := run.states[n - 1].events;
      Routed(run, n - 1) + if run.steps[n - 1].Route? && waiting != [] then [waiting[0]] else []
  }

  lemma EventsStep(s: State, step: Step)
    requires MapsOk(s) && Enabled(s, step)
    ensures Do(s, step).events
         == if step.EventArrives? then s.events + [step.e] else if step.Route? then s.events[1..] else s.events
  {
    if step.Route? {
      assert OnEvent(s.(events := s.events[1..]), s.events[0]).events == s.events[1..];
    }
  }

  ghost predicate EventsFit(run: Path, n: nat) {
    n <= |run.steps| < |run.states| && Routed(run, n) + run.states[n].events == Reported(run.steps, n)
  }

  lemma EventsNext(run: Path, n: nat)
    requires IsRun(run) && n < |run.steps| && EventsFit(run, n)
    ensures EventsFit(run, n + 1)
  {
    var s, step := run.states[n], run.steps[n];
    EventsStep(s, step);
    RoutedStep(run, n + 1);
    if step.Route? {
      FirstMoves(Routed(run, n), s.events);
    } else if step.EventArrives? {
      Associative(Routed(run, n), s.events, [step.e]);
    } else {
      assert Reported(run.steps, n + 1) == Reported(run.steps, n) + [];
    }
  }

  /** The router handles the events in the order reported; those that it has not handled wait. */
  lemma EventsInOrder(run: Path, n: nat)
    requires IsRun(run) && n < |run.states|
    ensures Routed(run, n) + run.states[n].events == Reported(run.steps, n)
  {
    forall i: nat | i < n && EventsFit(run, i) ensures EventsFit(run, i + 1) {
      EventsNext(run, i);
    }
    Climb((i: nat) => EventsFit(run, i), n);
  }

  /** What one step adds to the events handled. */
  lemma RoutedStep(run: Path, n: nat)
    requires IsRun(run) && 0 < n < |run.states|
    ensures run.steps[n - 1].Route? ==>
      run.states[n - 1].events != [] && Routed(run, n) == Routed(run, n - 1) + [run.states[n - 1].events[0]]
    ensures !run.steps[n - 1].Route? ==> Routed(run, n) == Routed(run, n - 1)
  {
    var step := run.steps[n - 1];
  }

  /** The chunks that events bring on link `l`. */
  function DataOn(events: seq<Event>, l: LinkId): seq<Chunk> {
    if events == [] then []
    else
      var e := events[|events| - 1];
      DataOn(events[..|events| - 1], l) + if e.Data? && e.link == l then [e.bytes] else []
  }

  lemma DataSnoc(events: seq<Event>, e: Event, l: LinkId)
    ensures DataOn(events + [e], l) == DataOn(events, l) + if e.Data? && e.link == l then [e.bytes] else []
  {
    AppendParts(events, [e]);
  }

  lemma EventArrivals(s: State, e: Event, l: LinkId)
    requires MapsOk(s)
    ensures ArrivedOn(OnEvent(s, e).arrivals, l)
         == ArrivedOn(s.arrivals, l) + if e.Data? && e.link == l then [e.bytes] else []
  {
    if e.Data? {
      ArrivalSnoc(s.arrivals, OnEvent(s, e).arrivals[|s.arrivals|], l);
    }
  }

  ghost predicate ArrivalsFit(run: Path, l: LinkId, n: nat) {
    n <= |run.steps| < |run.states| && ArrivedOn(run.states[n].arrivals, l) == DataOn(Routed(run, n), l)
  }

  lemma ArrivalsFitNext(run: Path, l: LinkId, n: nat)
    requires IsRun(run) && n < |run.steps| && ArrivalsFit(run, l, n)
    ensures ArrivalsFit(run, l, n + 1)
  {
    var s, step := run.states[n], run.steps[n];
    RoutedStep(run, n + 1);
    if step.Route? {
      RouteArrivals(s, l);
      DataSnoc(Routed(run, n), s.events[0], l);
    } else {
      OnlyRouteLogs(s, step);
    }
  }

  /** The arrivals on a link are exactly the link data that the router has handled. */
  lemma ArrivalsAreRouted(run: Path, l: LinkId, n: nat)
    requires IsRun(run) && n < |run.states|
    ensures ArrivedOn(run.states[n].arrivals, l) == DataOn(Routed(run, n), l)
  {
    forall i: nat | i < n && ArrivalsFit(run, l, i) ensures ArrivalsFit(run, l, i + 1) {
      ArrivalsFitNext(run, l, i);
    }
    Climb((i: nat) => ArrivalsFit(run, l, i), n);
  }

  lemma RouteArrivals(s: State, l: LinkId)
    requires MapsOk(s) && Enabled(s, Route)
    ensures var e := s.events[0];
      ArrivedOn(Do(s, Route).arrivals, l) == ArrivedOn(s.arrivals, l) + if e.Data? && e.link == l then [e.bytes] else []
  {
    EventArrivals(s.(events := s.events[1..]), s.events[0], l);
  }

  /** A chunk is dropped if and only if its link has no relay, the reader has ended, or 256 chunks wait. */
  lemma ChunkGoesTo(s: State, l: LinkId, bytes: Chunk)
    requires MapsOk(s)
    ensures var s', n := OnEvent(s, Data(l, bytes)), |s.arrivals|;
      && |s'.arrivals| == n + 1 && s'.arrivals == s.arrivals + [Arrival(l, bytes, s'.arrivals[n].to)]
      && (s'.arrivals[n].to.None? <==>
            l !in s.senders || !s.relays[s.senders[l]].open || |s.relays[s.senders[l]].q.queue| >= 256)
      && (s'.arrivals[n].to.Some? ==>
            && s'.arrivals[n].to == Some(s.senders[l])
            && s'.relays[s.senders[l]].q.queue == s.relays[s.senders[l]].q.queue + [bytes])
  {
  }

  // --------------------------------------------------------------------------- the relays

  /** The links that events report as established, in order. */
  function LinksOf(events: seq<Event>): seq<LinkId> {
    if events == [] then []
    else
      var e := events[|events| - 1];
      LinksOf(events[..|events| - 1]) + if e.Established? then [e.link] else []
  }

  function RelayLinks(s: State): (ls: seq<LinkId>)
    ensures |ls| == |s.relays| && forall r :: 0 <= r < |ls| ==> ls[r] == s.relays[r].link
  {
    seq(|s.relays|, r requires 0 <= r < |s.relays| => s.relays[r].link)
  }

  lemma LinksSnoc(events: seq<Event>, e: Event)
    ensures LinksOf(events + [e]) == LinksOf(events) + if e.Established? then [e.link] else []
  {
    AppendParts(events, [e]);
  }

  lemma EventRelays(s: State, e: Event)
    requires MapsOk(s) && (e.Established? ==> forall r :: 0 <= r < |s.relays| ==> s.relays[r].link != e.link)
    ensures RelayLinks(OnEvent(s, e)) == RelayLinks(s) + if e.Established? then [e.link] else []
  {
    var s' := OnEvent(s, e);
    assert e.Established? ==> e.link !in s.senders;
    assert forall r :: 0 <= r < |s.relays| ==> s'.relays[r].link == s.relays[r].link;
  }

  lemma OtherRelays(s: State, step: Step)
    requires MapsOk(s) && Enabled(s, step) && !step.Route?
    ensures RelayLinks(Do(s, step)) == RelayLinks(s)
  {
    RelaysGrow(s, step);
    assert |Do(s, step).relays| == |s.relays|;
  }

  ghost predicate RelaysFit(run: Path, n: nat) {
    n <= |run.steps| < |run.states| && RelayLinks(run.states[n]) == LinksOf(Routed(run, n))
  }

  lemma RelaysFitNext(run: Path, n: nat)
    requires IsRun(run) && n < |run.steps| && FreshLinks(run.steps) && RelaysFit(run, n)
    ensures RelaysFit(run, n + 1)
  {
    var s, step := run.states[n], run.steps[n];
    RoutedStep(run, n + 1);
    if step.Route? {
      RouteRelays(run, n);
      LinksSnoc(Routed(run, n), s.events[0]);
    } else {
      OtherRelays(s, step);
    }
  }

  /** Every link reported as established gets a relay when the router comes to it, and no other does. */
  lemma OneRelayForEachLink(run: Path, n: nat)
    requires IsRun(run) && n < |run.states| && FreshLinks(run.steps)
    ensures RelayLinks(run.states[n]) == LinksOf(Routed(run, n))
  {
    assert RelayLinks(INIT) == [];
    forall i: nat | i < n && RelaysFit(run, i) ensures RelaysFit(run, i + 1) {
      RelaysFitNext(run, i);
    }
    Climb((i: nat) => RelaysFit(run, i), n);
  }

  lemma RouteRelays(run: Path, n: nat)
    requires IsRun(run) && n < |run.steps| && FreshLinks(run.steps) && run.steps[n].Route?
    ensures run.states[n].events != []
    ensures var e := run.states[n].events[0];
      RelayLinks(run.states[n + 1]) == RelayLinks(run.states[n]) + if e.Established? then [e.link] else []
  {
    var s := run.states[n];
    FreshRelays(run, n);
    EventRelays(s.(events := s.events[1..]), s.events[0]);
    assert RelayLinks(s.(events := s.events[1..])) == RelayLinks(s);
  }

  /**
   * A relay whose reader is alive can be reached by the router, is being closed, or has the closing
   * empty chunk in its channel; and only relays that have not ended can be reached.
   */
  ghost predicate Served(s: State) {
    && (forall r :: 0 <= r < |s.relays| && s.relays[r].open ==>
          || (s.relays[r].link in s.senders && s.senders[s.relays[r].link] == r)
          || s.closing == Some(r) || s.relays[r].sentinel)
    && (forall l :: l in s.senders && s.senders[l] < |s.relays| ==> s.relays[s.senders[l]].phase != Ended)
  }

  lemma EventServed(s: State, e: Event)
    requires MapsOk(s) && Served(s) && s.closing.None? && OneRelayPerLink(s)
    requires e.Established? ==> forall r :: 0 <= r < |s.relays| ==> s.relays[r].link != e.link
    ensures Served(OnEvent(s, e))
  {
    var s' := OnEvent(s, e);
    assert forall r :: 0 <= r < |s.relays| ==>
      s'.relays[r].link == s.relays[r].link && s'.relays[r].open == s.relays[r].open
      && s'.relays[r].sentinel == s.relays[r].sentinel && s'.relays[r].phase == s.relays[r].phase;
  }

  lemma SentinelServed(s: State)
    requires MapsOk(s) && Served(s) && Enabled(s, SendSentinel)
    ensures Served(SendsSentinel(s))
  {
  }

  lemma EndServed(s: State, r: TaskId)
    requires MapsOk(s) && Served(s) && Enabled(s, RelayEnds(r)) && OneRelayPerLink(s)
    ensures Served(Do(s, RelayEnds(r)))
  {
    var s' := Do(s, RelayEnds(r));
    forall q | 0 <= q < |s.relays| && q != r ensures s.relays[q].link != s.relays[r].link {
      assert if q < r then s.relays[q].link != s.relays[r].link else s.relays[r].link != s.relays[q].link;
    }
  }

  lemma OtherServed(s: State, step: Step)
    requires MapsOk(s) && Served(s) && Enabled(s, step)
    requires !step.Route? && !step.SendSentinel? && !step.RelayEnds?
    ensures Served(Do(s, step))
  {
    if step.TakeChunk? {
      TakeServed(s, step.r, step.sendOk);
    }
  }

  lemma TakeServed(s: State, r: TaskId, sendOk: bool)
    requires MapsOk(s) && Served(s) && Enabled(s, TakeChunk(r, sendOk))
    ensures Served(ReaderTakes(s, r, sendOk))
  {
  }

  ghost predicate ServedAt(run: Path, n: nat) {
    n < |run.states| && Served(run.states[n])
  }

  lemma ServedNext(run: Path, n: nat)
    requires IsRun(run) && n < |run.steps| && FreshLinks(run.steps) && ServedAt(run, n)
    ensures ServedAt(run, n + 1)
  {
    var s, step := run.states[n], run.steps[n];
    FreshRelays(run, n);
    match step
    case Route => EventServed(s.(events := s.events[1..]), s.events[0]);
    case SendSentinel => SentinelServed(s);
    case RelayEnds(r) => EndServed(s, r);
    case _ => OtherServed(s, step);
  }

  /** So in every run, if the engine reports no link twice. */
  lemma EveryReaderServed(run: Path, n: nat)
    requires IsRun(run) && n < |run.states| && FreshLinks(run.steps)
    ensures Served(run.states[n])
  {
    forall i: nat | i < n && ServedAt(run, i) ensures ServedAt(run, i + 1) {
      ServedNext(run, i);
    }
    Climb((i: nat) => ServedAt(run, i), n);
  }

  function LinkOf(s: State, r: TaskId): Option<LinkId> {
    if r < |s.relays| then Some(s.relays[r].link) else None
  }

  /** Which relay the data of link `l` goes to after `step`, if it went to `before`. */
  function RelayNow(s: State, step: Step, l: LinkId, before: Option<TaskId>): Option<TaskId> {
    match step
    case Route =>
      if s.events == [] then before
      else if s.events[0] == Closed(l) then None
      else if s.events[0] == Established(l) && before.None? then Some(|s.relays|)
      else before
    case RelayEnds(r) => if LinkOf(s, r) == Some(l) then None else before
    case _ => before
  }

  /** Which relay it goes to after `n` steps: the one that was started for it, none after a close or its end. */
  function RelayAfter(run: Path, l: LinkId, n: nat): Option<TaskId>
    requires n <= |run.steps| < |run.states|
  {
    if n == 0 then None
    else RelayNow(run.states[n - 1], run.steps[n - 1], l, RelayAfter(run, l, n - 1))
  }

  function RelayFor(s: State, l: LinkId): Option<TaskId> {
    if l in s.senders then Some(s.senders[l]) else None
  }

  lemma RelayForStep(s: State, step: Step, l: LinkId)
    requires MapsOk(s) && Enabled(s, step)
    ensures RelayFor(Do(s, step), l) == RelayNow(s, step, l, RelayFor(s, l))
  {
  }

  ghost predicate RelayFits(run: Path, l: LinkId, n: nat) {
    n <= |run.steps| < |run.states| && RelayFor(run.states[n], l) == RelayAfter(run, l, n)
  }

  lemma RelayFitsNext(run: Path, l: LinkId, n: nat)
    requires IsRun(run) && n < |run.steps| && RelayFits(run, l, n)
    ensures RelayFits(run, l, n + 1)
  {
    var step := run.steps[n];
    RelayForStep(run.states[n], step, l);
  }

  lemma RelayExactly(run: Path, l: LinkId, n: nat)
    requires IsRun(run) && n < |run.states|
    ensures RelayFor(run.states[n], l) == RelayAfter(run, l, n)
  {
    forall i: nat | i < n && RelayFits(run, l, i) ensures RelayFits(run, l, i + 1) {
      RelayFitsNext(run, l, i);
    }
    Climb((i: nat) => RelayFits(run, l, i), n);
  }

  /**
   * When the router is told that a link has closed, the relay that the link leads to gets the
   * closing empty chunk next, unless its reader has ended.
   */
  lemma CloseIsPassedOn(s: State, l: LinkId)
    requires MapsOk(s) && s.closing.None? && s.events != [] && s.events[0] == Closed(l) && l in s.senders
    ensures var r, s1 := s.senders[l], Do(s, Route);
      && s1.closing == Some(r) && l !in s1.senders && s1.relays == s.relays
      && (Enabled(s1, SendSentinel) <==> (s.relays[r].open ==> |s.relays[r].q.queue| < 256))
      && (Enabled(s1, SendSentinel) && s.relays[r].open ==>
            Do(s1, SendSentinel).relays[r].q.queue == s.relays[r].q.queue + [[]])
  {
  }

  // ------------------------------------------------------------------- when tasks are alive

  /** The step ends the reader of relay `r`: a failed bind, an empty chunk, a failed send, or no sender left. */
  predicate StopsReader(s: State, step: Step, r: TaskId) {
    r < |s.relays| &&
    var y := s.relays[r];
    match step
    case RelayEnds(q) => q == r && y.phase == Failed
    case SendersGone(q) => q == r
    case TakeChunk(q, sendOk) =>
      q == r && y.q.queue != []
      && (y.q.queue[0] == [] || (!sendOk && PushSpec(y.q.buf, y.q.queue[0]).complete.Some?))
    case _ => false
  }

  lemma RouteKeepsReader(s: State, r: TaskId)
    requires MapsOk(s) && Enabled(s, Route) && r < |s.relays|
    ensures r < |Do(s, Route).relays|
    ensures Do(s, Route).relays[r].open == s.relays[r].open && Do(s, Route).relays[r].pumping == s.relays[r].pumping
    ensures Do(s, Route).relays[r].phase == s.relays[r].phase
  {
  }

  lemma ReaderStep(s: State, step: Step, r: TaskId)
    requires Inv(s) && Enabled(s, step) && r < |s.relays|
    ensures r < |Do(s, step).relays| && Do(s, step).relays[r].open == (s.relays[r].open && !StopsReader(s, step, r))
  {
    assert RelayAt(s, r);
    if step.Route? {
      RouteKeepsReader(s, r);
    }
  }

  lemma NewRelay(s: State, step: Step, r: TaskId)
    requires MapsOk(s) && Enabled(s, step) && |s.relays| <= r < |Do(s, step).relays|
    ensures step.Route? && Do(s, step).relays[r].open && Do(s, step).relays[r].pumping
    ensures Do(s, step).relays[r].phase == Starting
  {
  }

  /** The reader of relay `r` is alive, or still to be started. */
  predicate Reads(s: State, r: TaskId) {
    r < |s.relays| ==> s.relays[r].open
  }

  ghost predicate NeverStopsReader(run: Path, r: TaskId, n: nat)
    requires n <= |run.steps| < |run.states|
  {
    forall i {:trigger run.steps[i]} :: 0 <= i < n ==> !StopsReader(run.states[i], run.steps[i], r)
  }

  lemma ReadsStep(s: State, step: Step, s': State, r: TaskId)
    requires Inv(s) && Moves(s, step, s')
    ensures Reads(s', r) <==> Reads(s, r) && !StopsReader(s, step, r)
  {
    RelaysGrow(s, step);
    if r < |s.relays| {
      ReaderStep(s, step, r);
    } else if r < |s'.relays| {
      NewRelay(s, step, r);
    }
  }

  ghost predicate ReaderFits(run: Path, r: TaskId, n: nat) {
    n <= |run.steps| < |run.states| && (Reads(run.states[n], r) <==> NeverStopsReader(run, r, n))
  }

  lemma StoppedNext(run: Path, r: TaskId, n: nat)
    requires n < |run.steps| < |run.states|
    ensures NeverStopsReader(run, r, n + 1)
       <==> NeverStopsReader(run, r, n) && !StopsReader(run.states[n], run.steps[n], r)
  {
  }

  lemma ReaderFitsNext(run: Path, r: TaskId, n: nat)
    requires IsRun(run) && n < |run.steps| && ReaderFits(run, r, n)
    ensures ReaderFits(run, r, n + 1)
  {
    RunInv(run, n);
    var step := run.steps[n];
    ReadsStep(run.states[n], step, run.states[n + 1], r);
    StoppedNext(run, r, n);
  }

  /** The reader of a relay is alive until one of the steps that end it, and no other ends it. */
  lemma ReaderExactly(run: Path, r: TaskId, n: nat)
    requires IsRun(run) && n < |run.states|
    ensures Reads(run.states[n], r)
       <==> forall i {:trigger run.steps[i]} :: 0 <= i < n ==> !StopsReader(run.states[i], run.steps[i], r)
  {
    forall i: nat | i < n && ReaderFits(run, r, i) ensures ReaderFits(run, r, i + 1) {
      ReaderFitsNext(run, r, i);
    }
    Climb((i: nat) => ReaderFits(run, r, i), n);
  }

  /** The step ends the pump of relay `r`: a failed bind, a failed read, or a refused command. */
  predicate StopsPump(step: Step, r: TaskId) {
    step in {BindFails(r), ReadScFails(r), Issue(r, false)}
  }

  lemma PumpStep(s: State, step: Step, r: TaskId)
    requires MapsOk(s) && Enabled(s, step) && r < |s.relays|
    ensures r < |Do(s, step).relays| && Do(s, step).relays[r].pumping == (s.relays[r].pumping && !StopsPump(step, r))
  {
    if step.Route? {
      RouteKeepsReader(s, r);
    }
  }

  lemma NoPumpYet(s: State, step: Step, r: TaskId)
    requires Enabled(s, step) && |s.relays| <= r
    ensures !StopsPump(step, r)
  {
  }

  /** The pump of relay `r` is alive, or still to be started. */
  predicate Pumps(s: State, r: TaskId) {
    r < |s.relays| ==> s.relays[r].pumping
  }

  lemma PumpsStep(s: State, step: Step, s': State, r: TaskId)
    requires Moves(s, step, s')
    ensures Pumps(s', r) <==> Pumps(s, r) && !StopsPump(step, r)
  {
    RelaysGrow(s, step);
    if r < |s.relays| {
      PumpStep(s, step, r);
    } else {
      NoPumpYet(s, step, r);
      if r < |s'.relays| {
        NewRelay(s, step, r);
      }
    }
  }

  ghost predicate PumpFits(run: Path, r: TaskId, n: nat) {
    n <= |run.steps| < |run.states|
    && (Pumps(run.states[n], r) <==> forall i :: 0 <= i < n ==> !StopsPump(run.steps[i], r))
  }

  lemma PumpFitsNext(run: Path, r: TaskId, n: nat)
    requires IsRun(run) && n < |run.steps| && PumpFits(run, r, n)
    ensures PumpFits(run, r, n + 1)
  {
    var step := run.steps[n];
    PumpsStep(run.states[n], step, run.states[n + 1], r);
  }

  /** The pump of a relay is alive until one of the steps that end it, and no other ends it. */
  lemma PumpExactly(run: Path, r: TaskId, n: nat)
    requires IsRun(run) && n < |run.states|
    ensures Pumps(run.states[n], r) <==> forall i :: 0 <= i < n ==> !StopsPump(run.steps[i], r)
  {
    forall i: nat | i < n && PumpFits(run, r, i) ensures PumpFits(run, r, i + 1) {
      PumpFitsNext(run, r, i);
    }
    Climb((i: nat) => PumpFits(run, r, i), n);
  }

  /** Where a relay is after the first `n` steps, from the steps alone. */
  function PhaseAfter(steps: seq<Step>, r: TaskId, n: nat): Phase
    requires n <= |steps|
  {
    if n == 0 then Starting else PhaseNext(steps[n - 1], r, PhaseAfter(steps, r, n - 1))
  }

  function PhaseNext(step: Step, r: TaskId, before: Phase): Phase {
    match step
    case BindOk(q) => if q == r then Running else before
    case BindFails(q) => if q == r then Failed else before
    case RelayEnds(q) => if q == r then Ended else before
    case _ => before
  }

  function PhaseOf(s: State, r: TaskId): Phase {
    if r < |s.relays| then s.relays[r].phase else Starting
  }

  lemma PhaseStep(s: State, step: Step, s': State, r: TaskId)
    requires Moves(s, step, s')
    ensures PhaseOf(s', r) == PhaseNext(step, r, PhaseOf(s, r))
  {
    RelaysGrow(s, step);
    if r < |s.relays| && step.Route? {
      RouteKeepsReader(s, r);
    } else if |s.relays| <= r < |s'.relays| {
      NewRelay(s, step, r);
    }
  }

  ghost predicate PhaseFits(run: Path, r: TaskId, n: nat) {
    n <= |run.steps| < |run.states| && PhaseOf(run.states[n], r) == PhaseAfter(run.steps, r, n)
  }

  lemma PhaseFitsNext(run: Path, r: TaskId, n: nat)
    requires IsRun(run) && n < |run.steps| && PhaseFits(run, r, n)
    ensures PhaseFits(run, r, n + 1)
  {
    var step := run.steps[n];
    PhaseStep(run.states[n], step, run.states[n + 1], r);
  }

  lemma PhaseExactly(run: Path, r: TaskId, n: nat)
    requires IsRun(run) && n < |run.states|
    ensures PhaseOf(run.states[n], r) == PhaseAfter(run.steps, r, n)
  {
    forall i: nat | i < n && PhaseFits(run, r, i) ensures PhaseFits(run, r, i + 1) {
      PhaseFitsNext(run, r, i);
    }
    Climb((i: nat) => PhaseFits(run, r, i), n);
  }

  // ---------------------------------------------------------------------- going on

  lemma ChunkIssued(s: State, r: TaskId)
    requires MapsOk(s) && Enabled(s, Issue(r, true))
    ensures var s', y := Do(s, Issue(r, true)), s.relays[r];
      && MapsOk(s') && |s'.relays| == |s.relays| && s'.relays[r] == y.(toIssue := y.toIssue[1..])
      && IssuedBy(s'.wire, r) == IssuedBy(s.wire, r) + [y.toIssue[0]]
  {
    SentSnoc(s.wire, Sent(r, s.relays[r].link, s.relays[r].toIssue[0]), r);
  }

  /** A running relay can issue everything it has in hand. */
  lemma {:induction false} PumpCanFinish(s: State, r: TaskId) returns (path: Path)
    requires MapsOk(s) && IsRunning(s, r) && s.relays[r].pumping
    ensures path.Valid() && path.states[0] == s && MapsOk(path.Last()) && r < |path.Last().relays|
    ensures path.Last().relays[r] == s.relays[r].(toIssue := [])
    ensures IssuedBy(path.Last().wire, r) == IssuedBy(s.wire, r) + s.relays[r].toIssue
    decreases |s.relays[r].toIssue|
  {
    if s.relays[r].toIssue == [] {
      path := Path([s], []);
    } else {
      var step := Issue(r, true);
      ChunkIssued(s, r);
      FirstMoves(IssuedBy(s.wire, r), s.relays[r].toIssue);
      var rest := PumpCanFinish(Do(s, step), r);
      path := Prepend(s, step, rest);
    }
  }

  lemma {:induction false} Append(first: Path, last: Path) returns (path: Path)
    requires first.Valid() && last.Valid() && first.Last() == last.states[0]
    ensures path.Valid() && path.states[0] == first.states[0] && path.Last() == last.Last()
    decreases |first.steps|
  {
    if first.steps == [] {
      path := last;
    } else {
      var step, later := first.steps[0], Path(first.states[1..], first.steps[1..]);
      LaterIsPath(first, later);
      var rest := Append(later, last);
      path := Prepend(first.states[0], step, rest);
    }
  }

  lemma LaterIsPath(first: Path, later: Path)
    requires first.Valid() && first.steps != [] && later == Path(first.states[1..], first.steps[1..])
    ensures later.Valid() && later.Last() == first.Last() && Moves(first.states[0], first.steps[0], later.states[0])
  {
    forall i | 0 <= i < |later.steps| ensures Moves(later.states[i], later.steps[i], later.states[i + 1]) {
      var step := first.steps[i + 1];
      assert Moves(first.states[i + 1], step, first.states[i + 2]);
    }
  }

  /** Whatever the game server sends, up to the size of a read, a running relay can issue whole, after what it has in hand. */
  lemma CanRelayBack(s: State, r: TaskId, d: Datagram) returns (path: Path)
    requires MapsOk(s) && IsRunning(s, r) && s.relays[r].pumping && 0 < |d| <= UDP_READ_BUF
    ensures path.Valid() && path.states[0] == s
    ensures IssuedBy(path.Last().wire, r) == IssuedBy(s.wire, r) + s.relays[r].toIssue + Chunks(d)
  {
    var first := PumpCanFinish(s, r);
    var s1 := first.Last();
    var s2 := Do(s1, ReadSc(r, d));
    var last := PumpCanFinish(s2, r);
    last := Prepend(s1, ReadSc(r, d), last);
    path := Append(first, last);
  }

  /** A link that is reported while the router has nothing else to do can get a running relay. */
  lemma CanStart(s: State, l: LinkId) returns (path: Path)
    requires MapsOk(s) && s.closing.None? && s.events == [] && l !in s.senders
    ensures path.Valid() && path.states[0] == s
    ensures var s', r := path.Last(), |s.relays|;
      && |s'.relays| == r + 1 && l in s'.senders && s'.senders[l] == r
      && s'.relays[r] == Relay(l, Running, EMPTY, true, false, true, [])
  {
    var s1 := Do(s, EventArrives(Established(l)));
    assert s1.events[1..] == s.events;
    var s2 := Do(s1, Route);
    assert s2 == OnEvent(s, Established(l));
    var s3 := Do(s2, BindOk(|s.relays|));
    path := Prepend(s2, BindOk(|s.relays|), Path([s3], []));
    path := Prepend(s1, Route, path);
    path := Prepend(s, EventArrives(Established(l)), path);
  }

  /** A chunk that comes over the link of a running relay can reach its reader, and what it completes the game server. */
  lemma CanRelayOn(s: State, l: LinkId, c: Chunk) returns (path: Path)
    requires MapsOk(s) && s.closing.None? && s.events == [] && l in s.senders && c != []
    requires IsRunning(s, s.senders[l]) && s.relays[s.senders[l]].open && s.relays[s.senders[l]].q.queue == []
    ensures path.Valid() && path.states[0] == s
    ensures var s', r := path.Last(), s.senders[l];
      && r < |s'.relays| && s'.relays[r].open && s'.relays[r].q.taken == s.relays[r].q.taken + [c]
      && WrittenBy(s'.toSc, r) == WrittenBy(s.toSc, r) + PushSpec(s.relays[r].q.buf, c).complete.ToSeq()
  {
    var r := s.senders[l];
    var s1 := Do(s, EventArrives(Data(l, c)));
    assert s1.events[1..] == s.events;
    var s2 := Do(s1, Route);
    assert s2 == OnEvent(s, Data(l, c));
    assert s2.relays[r].q.queue == [c];
    var s3 := ReaderTakes(s2, r, true);
    ReaderWrites(s2, r, true, r);
    path := Prepend(s2, TakeChunk(r, true), Path([s3], []));
    path := Prepend(s1, Route, path);
    path := Prepend(s, EventArrives(Data(l, c)), path);
  }

  /** A link whose relay is running can be closed down: the reader ends. */
  lemma CanClose(s: State, l: LinkId) returns (path: Path)
    requires MapsOk(s) && s.closing.None? && s.events == [] && l in s.senders
    requires IsRunning(s, s.senders[l]) && s.relays[s.senders[l]].open && s.relays[s.senders[l]].q.queue == []
    ensures path.Valid() && path.states[0] == s
    ensures var s', r := path.Last(), s.senders[l];
      l !in s'.senders && r < |s'.relays| && !s'.relays[r].open && s'.closing.None?
  {
    var r := s.senders[l];
    var s1 := Do(s, EventArrives(Closed(l)));
    assert s1.events[1..] == s.events;
    var s2 := Do(s1, Route);
    assert s2 == OnEvent(s, Closed(l));
    var s3 := SendsSentinel(s2);
    var s4 := ReaderTakes(s3, r, true);
    path := Prepend(s3, TakeChunk(r, true), Path([s4], []));
    path := Prepend(s2, SendSentinel, path);
    path := Prepend(s1, Route, path);
    path := Prepend(s, EventArrives(Closed(l)), path);
  }

  /** A running relay whose reader is alive can process all its channel holds, or the reader ends. */
  lemma {:induction false} ReaderCanFinish(s: State, r: TaskId) returns (path: Path)
    requires MapsOk(s) && IsRunning(s, r) && s.relays[r].open
    ensures path.Valid() && path.states[0] == s && r < |path.Last().relays|
    ensures path.Last().relays[r].q.queue == [] || !path.Last().relays[r].open
    decreases |s.relays[r].q.queue|
  {
    if s.relays[r].q.queue == [] {
      path := Path([s], []);
    } else {
      var step := TakeChunk(r, true);
      var s' := ReaderTakes(s, r, true);
      assert s' == Do(s, step);
      if s'.relays[r].open {
        var rest := ReaderCanFinish(s', r);
        path := Prepend(s, step, rest);
      } else {
        path := Prepend(s, step, Path([s'], []));
      }
    }
  }
}
