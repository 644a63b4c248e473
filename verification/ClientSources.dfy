/**
 * How many links the bridge client opens for one source: when it is at most one, and when a source
 * that has had a link never gets another.
 */
module ClientSources {
  import opened Basics
  import opened Framing
  import opened Intake
  import opened Logs
  import opened ClientRelay
  import opened ClientInvariant

  ghost predicate HasTask(s: State, a: Addr) {
    exists t :: 0 <= t < |s.tasks| && s.tasks[t].src == a
  }

  /** At most one establishment was ever started for `a`, so at most one link opened. */
  ghost predicate AtMostOneTask(s: State, a: Addr) {
    forall t, u :: 0 <= t < u < |s.tasks| ==> s.tasks[t].src != a || s.tasks[u].src != a
  }

  /** A packet of a source for which there is a task finds the source in `udp_links`. */
  ghost predicate FoundIn(s: State, step: Step, a: Addr) {
    step.Recv? && step.src == a && HasTask(s, a) ==> a in s.udpLinks
  }

  /** Tasks are only started once a server is known. */
  ghost predicate TargetOk(s: State) {
    s.tasks != [] ==> s.target
  }

  /** The same tasks for the same sources. */
  ghost predicate SameSources(s: State, s': State) {
    && |s'.tasks| == |s.tasks| && (s.target ==> s'.target)
    && forall t :: 0 <= t < |s.tasks| ==> s'.tasks[t].src == s.tasks[t].src
  }

  lemma RouteSources(s: State)
    requires Structured(s) && Enabled(s, Route)
    ensures SameSources(s, Do(s, Route))
  {
  }

  predicate Ends(step: Step) {
    step.ChunkSenderGone? || step.Unregister? || step.Leave?
  }

  lemma EndSources(s: State, step: Step)
    requires Structured(s) && Enabled(s, step) && Ends(step)
    ensures SameSources(s, Do(s, step))
  {
  }

  lemma FlagsSources(s: State, step: Step)
    requires Structured(s) && Enabled(s, step) && OnlyFlags(step)
    ensures SameSources(s, Do(s, step))
  {
    if Ends(step) {
      EndSources(s, step);
    }
  }

  lemma TakeSources(s: State, step: Step)
    requires Structured(s) && Enabled(s, step) && (step.TakePacket? || step.TakeChunk?)
    ensures SameSources(s, Do(s, step))
  {
    if step.TakePacket? {
      assert SameSources(s, TakesPacket(s, step.t));
    } else {
      assert SameSources(s, TakesChunk(s, step.t, step.sendOk));
    }
  }

  lemma IssueSources(s: State, step: Step)
    requires Structured(s) && Enabled(s, step) && (step.IssueFirst? || step.IssueNext?)
    ensures SameSources(s, Do(s, step))
  {
    if step.accepted {
      assert SameSources(s, IssuesChunk(s, step.t));
    }
  }

  lemma ListenerSources(s: State, step: Step)
    requires Structured(s) && Enabled(s, step)
    requires step.EventArrives? || step.HandOver? || step.HandFails? || step.Establish?
    ensures SameSources(s, Do(s, step))
  {
  }

  /** Only a packet from a new source starts a task. */
  lemma OnlyRecvStarts(s: State, step: Step)
    requires Structured(s) && Enabled(s, step) && !step.Recv?
    ensures SameSources(s, Do(s, step))
  {
    match step
    case Route => RouteSources(s);
    case TakePacket(_) => TakeSources(s, step);
    case TakeChunk(_, _) => TakeSources(s, step);
    case IssueFirst(_, _) => IssueSources(s, step);
    case IssueNext(_, _) => IssueSources(s, step);
    case _ => if OnlyFlags(step) { FlagsSources(s, step); } else { ListenerSources(s, step); }
  }

  lemma RecvSources(s: State, src: Addr, d: Datagram, a: Addr)
    requires Structured(s) && Enabled(s, Recv(src, d)) && TargetOk(s)
    ensures TargetOk(OnPacket(s, src, d))
    ensures AtMostOneTask(OnPacket(s, src, d), a) <==> AtMostOneTask(s, a) && FoundIn(s, Recv(src, d), a)
  {
    var s' := OnPacket(s, src, d);
    assert s'.tasks[..|s.tasks|] == s.tasks;
    assert forall t :: 0 <= t < |s.tasks| ==> s'.tasks[t] == s.tasks[t];
    if HasTask(s, a) && !FoundIn(s, Recv(src, d), a) {
      var t :| 0 <= t < |s.tasks| && s.tasks[t].src == a;
      assert s'.tasks[t].src == a && s'.tasks[|s.tasks|].src == a;
    }
  }

  lemma OtherSources(s: State, step: Step, a: Addr)
    requires Structured(s) && Enabled(s, step) && TargetOk(s) && !step.Recv?
    ensures TargetOk(Do(s, step))
    ensures AtMostOneTask(Do(s, step), a) <==> AtMostOneTask(s, a)
  {
    OnlyRecvStarts(s, step);
  }

  /**
   * A source gets at most one link establishment in a run if and only if each of its packets that
   * arrives after the first one started a task finds the source in `udp_links`: packets that arrive
   * during the establishment, or after the entry was removed, start another.
   */
  lemma {:induction false} OneLinkPerSource(run: Path, a: Addr, n: nat)
    requires IsRun(run) && n < |run.states|
    ensures TargetOk(run.states[n])
    ensures AtMostOneTask(run.states[n], a)
       <==> forall i {:trigger run.steps[i]} :: 0 <= i < n ==> FoundIn(run.states[i], run.steps[i], a)
  {
    if n > 0 {
      var s, step := run.states[n - 1], run.steps[n - 1];
      OneLinkPerSource(run, a, n - 1);
      if step.Recv? {
        RecvSources(s, step.src, step.d, a);
      } else {
        OtherSources(s, step, a);
      }
    }
  }

  // ------------------------------------------------------------- a source held for good

  /** Task `t` is the only one of source `a`. */
  predicate OnlyTaskOf(s: State, a: Addr, t: TaskId) {
    && t < |s.tasks| && s.tasks[t].src == a
    && forall u :: 0 <= u < |s.tasks| && s.tasks[u].src == a ==> u == t
  }

  predicate NoneEmpty(recvd: seq<Packet>, xs: seq<nat>) {
    forall i :: 0 <= i < |xs| ==> xs[i] < |recvd| && recvd[xs[i]].datagram != []
  }

  /** The only task of `a` holds its entry in `udp_links`, and nothing that would end it is under way. */
  predicate Held(s: State, a: Addr, t: TaskId) {
    && OnlyTaskOf(s, a, t) && a in s.udpLinks && s.udpLinks[a] == t
    && s.tasks[t].inboxOpen && s.tasks[t].phase in {FirstPacket, Relaying}
    && NoneEmpty(s.recvd, s.tasks[t].inbox)
    && (s.listener == Handing(t) ==> s.recvd != [] && s.recvd[|s.recvd| - 1].datagram != [])
  }

  /** No empty packet of the source, and no refused command of its task. */
  predicate Harmless(step: Step, a: Addr, t: TaskId) {
    && !(step.Recv? && step.src == a && step.d == [])
    && step != IssueFirst(t, false) && step != IssueNext(t, false)
  }

  /** From the moment its link is up the only task of a source holds it. */
  lemma EstablishHolds(s: State, t: TaskId, l: LinkId)
    requires Inv(s) && Structured(s) && Enabled(s, Establish(t, l)) && OnlyTaskOf(s, s.tasks[t].src, t)
    ensures Held(Establishes(s, t, l), s.tasks[t].src, t)
  {
    assert UpAt(s, t);
    assert s.tasks[t].inbox == [];
  }

  lemma HeldRecv(s: State, src: Addr, d: Datagram, a: Addr, t: TaskId)
    requires MapsOk(s) && s.listener == Idle && Held(s, a, t) && Harmless(Recv(src, d), a, t)
    ensures Held(OnPacket(s, src, d), a, t)
    ensures exists p :: OnPacket(s, src, d).recvd == s.recvd + [p] && p.src == src && (src == a ==> p.to == Some(t))
  {
    var s' := OnPacket(s, src, d);
    assert forall u :: 0 <= u < |s.tasks| ==> s'.tasks[u] == s.tasks[u];
    assert forall i :: 0 <= i < |s.recvd| ==> s'.recvd[i] == s.recvd[i];
    assert s'.recvd == s.recvd + [s'.recvd[|s.recvd|]];
  }

  lemma HeldEvent(s: State, e: Event, a: Addr, t: TaskId)
    requires Structured(s) && Held(s, a, t)
    ensures Held(OnEvent(s, e), a, t) && OnEvent(s, e).recvd == s.recvd
  {
  }

  lemma HeldRoute(s: State, a: Addr, t: TaskId)
    requires Structured(s) && Enabled(s, Route) && Held(s, a, t)
    ensures Held(Do(s, Route), a, t) && Do(s, Route).recvd == s.recvd
  {
    var s1 := s.(events := s.events[1..]);
    assert Structured(s1);
    HeldEvent(s1, s.events[0], a, t);
  }

  lemma HeldHandOver(s: State, a: Addr, t: TaskId)
    requires Structured(s) && Enabled(s, HandOver) && Held(s, a, t)
    ensures Held(HandsOver(s), a, t)
  {
  }

  lemma HeldTakePacket(s: State, u: TaskId, a: Addr, t: TaskId)
    requires Structured(s) && Enabled(s, TakePacket(u)) && Held(s, a, t)
    ensures Held(TakesPacket(s, u), a, t)
  {
  }

  lemma HeldTakeChunk(s: State, u: TaskId, sendOk: bool, a: Addr, t: TaskId)
    requires Structured(s) && Enabled(s, TakeChunk(u, sendOk)) && Held(s, a, t)
    ensures Held(TakesChunk(s, u, sendOk), a, t)
  {
  }

  lemma HeldIssued(s: State, u: TaskId, a: Addr, t: TaskId)
    requires u < |s.tasks| && s.tasks[u].toIssue != [] && s.tasks[u].link.Some? && Held(s, a, t)
    ensures Held(IssuesChunk(s, u), a, t)
  {
  }

  lemma HeldIssue(s: State, step: Step, a: Addr, t: TaskId)
    requires Structured(s) && Enabled(s, step) && Held(s, a, t) && Harmless(step, a, t)
    requires step.IssueFirst? || step.IssueNext?
    ensures Held(Do(s, step), a, t) && Do(s, step).recvd == s.recvd
  {
    if step.accepted {
      HeldIssued(s, step.t, a, t);
    }
  }

  lemma HeldEstablish(s: State, u: TaskId, l: LinkId, a: Addr, t: TaskId)
    requires Structured(s) && Enabled(s, Establish(u, l)) && Held(s, a, t)
    ensures Held(Establishes(s, u, l), a, t)
  {
  }

  lemma HeldEnds(s: State, step: Step, a: Addr, t: TaskId)
    requires Structured(s) && Enabled(s, step) && Held(s, a, t) && Ends(step)
    ensures Held(Do(s, step), a, t) && Do(s, step).recvd == s.recvd
  {
  }

  lemma HeldFlags(s: State, step: Step, a: Addr, t: TaskId)
    requires Structured(s) && Enabled(s, step) && Held(s, a, t) && OnlyFlags(step)
    ensures Held(Do(s, step), a, t) && Do(s, step).recvd == s.recvd
  {
    if Ends(step) {
      HeldEnds(s, step, a, t);
    }
  }

  predicate OfOneTask(step: Step) {
    step.TakePacket? || step.TakeChunk? || step.IssueFirst? || step.IssueNext?
  }

  lemma HeldWork(s: State, step: Step, a: Addr, t: TaskId)
    requires Structured(s) && Enabled(s, step) && Held(s, a, t) && Harmless(step, a, t) && OfOneTask(step)
    ensures Held(Do(s, step), a, t) && Do(s, step).recvd == s.recvd
  {
    match step
    case TakePacket(u) => HeldTakePacket(s, u, a, t);
    case TakeChunk(u, sendOk) => HeldTakeChunk(s, u, sendOk, a, t);
    case _ => HeldIssue(s, step, a, t);
  }

  lemma HeldStep(s: State, step: Step, a: Addr, t: TaskId)
    requires Structured(s) && Enabled(s, step) && Held(s, a, t) && Harmless(step, a, t) && !step.Recv?
    ensures Held(Do(s, step), a, t) && Do(s, step).recvd == s.recvd
  {
    if OfOneTask(step) {
      HeldWork(s, step, a, t);
    } else if OnlyFlags(step) {
      HeldFlags(s, step, a, t);
    } else {
      HeldElse(s, step, a, t);
    }
  }

  lemma HeldElse(s: State, step: Step, a: Addr, t: TaskId)
    requires Structured(s) && Enabled(s, step) && Held(s, a, t)
    requires !step.Recv? && !OfOneTask(step) && !OnlyFlags(step)
    ensures Held(Do(s, step), a, t) && Do(s, step).recvd == s.recvd
  {
    match step
    case Route => HeldRoute(s, a, t);
    case HandOver => HeldHandOver(s, a, t);
    case Establish(u, l) => HeldEstablish(s, u, l, a, t);
    case _ =>
  }

  /** Every packet of `a` from position `n` on is meant for `t`. */
  predicate AllFor(recvd: seq<Packet>, n: nat, a: Addr, t: TaskId) {
    forall i :: n <= i < |recvd| && recvd[i].src == a ==> recvd[i].to == Some(t)
  }

  lemma HeldOn(s: State, step: Step, s': State, a: Addr, t: TaskId, n: nat)
    requires MapsOk(s) && Moves(s, step, s') && Held(s, a, t) && Harmless(step, a, t)
    requires n <= |s.recvd| && AllFor(s.recvd, n, a, t)
    ensures Held(s', a, t) && n <= |s'.recvd| && AllFor(s'.recvd, n, a, t)
  {
    if step.Recv? {
      HeldRecv(s, step.src, step.d, a, t);
    } else {
      HeldStep(s, step, a, t);
    }
  }

  /**
   * Once the only task of a source has its link up, the source never gets another link, whatever
   * happens to that one, its close included, as long as no empty packet of the source arrives and no
   * command of the task is refused: every later packet goes to that task.
   */
  lemma {:induction false} NeverReestablished(path: Path, a: Addr, t: TaskId, n: nat)
    requires path.Valid() && n < |path.states| && Inv(path.states[0]) && Held(path.states[0], a, t)
    requires forall i {:trigger path.steps[i]} :: 0 <= i < n ==> Harmless(path.steps[i], a, t)
    ensures Inv(path.states[n]) && Held(path.states[n], a, t)
    ensures |path.states[0].recvd| <= |path.states[n].recvd|
    ensures AllFor(path.states[n].recvd, |path.states[0].recvd|, a, t)
  {
    if n > 0 {
      NeverReestablished(path, a, t, n - 1);
      var s, step := path.states[n - 1], path.steps[n - 1];
      StepKeeps(s, step);
      HeldOn(s, step, path.states[n], a, t, |path.states[0].recvd|);
    }
  }
}
