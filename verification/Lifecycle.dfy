/**
 * The shutdown protocol of `spawn_bridge_node` and `BridgeSession::stop` in src/relay.rs, between
 * the caller (one role of the controller) and the node threads it starts, one after another.
 */
module Lifecycle {
  import opened Basics

  type ThreadId = nat
  type Port = nat

  datatype Init = Pending | Started | Failed

  /** Where a node thread is: up to the bind, past it, out of `block_on`, without runtime, finished. */
  datatype Phase = Building | Bound | Driving | Leaving | Dropped | Signalled

  /** `holds`: sockets of this thread's runtime are bound to `port`. `stop`: the stop message is there. */
  datatype Thread = Thread(port: Port, phase: Phase, init: Init, holds: bool, stop: bool)

  /** A `BridgeSession`: its thread, and which of `stop_tx` and `done` have not been taken yet. */
  datatype Session = Session(thread: ThreadId, stopTx: bool, done: bool)

  datatype Caller =
    | NoSession
    | AwaitInit(thread: ThreadId)
    | HasSession(session: Session)
    | AwaitDone(session: Session)

  /** `clash`: some bind found its port held by another thread of this program. */
  datatype State = State(caller: Caller, threads: seq<Thread>, clash: bool)

  const INIT := State(NoSession, [], false)

  datatype Step =
    // the caller
    | Start(port: Port)
    | InitArrives
    | Stop
    | DoneArrives
    | DropSession
    // a node thread
    | BuildFails(t: ThreadId)
    | Bind(t: ThreadId)
    | SendInit(t: ThreadId)
    | NodeExits(t: ThreadId)
    | SeesStop(t: ThreadId)
    | DropRuntime(t: ThreadId)
    | SignalDone(t: ThreadId)

  predicate At(s: State, t: ThreadId, phase: Phase) {
    t < |s.threads| && s.threads[t].phase == phase
  }

  predicate Enabled(s: State, step: Step) {
    match step
    // the controller starts a session when it has none
    case Start(_) => s.caller.NoSession?
    case InitArrives => s.caller.AwaitInit? && s.caller.thread < |s.threads| && s.threads[s.caller.thread].init != Pending
    case Stop => s.caller.HasSession? && s.caller.session.thread < |s.threads|
    case DoneArrives => s.caller.AwaitDone? && At(s, s.caller.session.thread, Signalled)
    // a session is let go after it was stopped
    case DropSession => s.caller.HasSession? && !s.caller.session.done
    case BuildFails(t) => At(s, t, Building)
    case Bind(t) => At(s, t, Building)
    case SendInit(t) => At(s, t, Bound)
    case NodeExits(t) => At(s, t, Driving)
    case SeesStop(t) => At(s, t, Driving) && s.threads[t].stop
    case DropRuntime(t) => At(s, t, Leaving)
    case SignalDone(t) => At(s, t, Dropped)
  }

  predicate PortHeld(s: State, port: Port) {
    exists t :: 0 <= t < |s.threads| && s.threads[t].holds && s.threads[t].port == port
  }

  function SetThread(s: State, t: ThreadId, y: Thread): State
    requires t < |s.threads|
  {
    s.(threads := s.threads[t := y])
  }

  function Do(s: State, step: Step): State
    requires Enabled(s, step)
  {
    match step
    case Start(port) =>
      s.(caller := AwaitInit(|s.threads|), threads := s.threads + [Thread(port, Building, Pending, false, false)])
    case InitArrives =>
      if s.threads[s.caller.thread].init == Started then s.(caller := HasSession(Session(s.caller.thread, true, true)))
      else s.(caller := NoSession)
    case Stop =>
      // the stop message goes out if it has not yet, and `done` is awaited if it has not been
      var x := s.caller.session;
      var s' := if x.stopTx then SetThread(s, x.thread, s.threads[x.thread].(stop := true)) else s;
      var x' := x.(stopTx := false, done := false);
      if x.done then s'.(caller := AwaitDone(x')) else s'.(caller := HasSession(x'))
    case DoneArrives => s.(caller := HasSession(s.caller.session))
    case DropSession => s.(caller := NoSession)
    case BuildFails(t) => SetThread(s, t, s.threads[t].(phase := Leaving, init := Failed))
    case Bind(t) =>
      if PortHeld(s, s.threads[t].port) then
        SetThread(s, t, s.threads[t].(phase := Leaving, init := Failed)).(clash := true)
      else SetThread(s, t, s.threads[t].(phase := Bound, holds := true))
    case SendInit(t) => SetThread(s, t, s.threads[t].(phase := Driving, init := Started))
    case NodeExits(t) => SetThread(s, t, s.threads[t].(phase := Leaving))
    case SeesStop(t) => SetThread(s, t, s.threads[t].(phase := Leaving))
    // dropping the runtime releases its sockets
    case DropRuntime(t) => SetThread(s, t, s.threads[t].(phase := Dropped, holds := false))
    case SignalDone(t) => SetThread(s, t, s.threads[t].(phase := Signalled))
  }

  predicate Moves(s: State, step: Step, s': State) {
    Enabled(s, step) && s' == Do(s, step)
  }

  /** The states that a run goes through, from the start of the program, and the steps between them. */
  datatype Run = Run(states: seq<State>, steps: seq<Step>) {
    ghost predicate Valid() {
      && |states| == |steps| + 1 && states[0] == INIT
      && forall i {:trigger steps[i]} :: 0 <= i < |steps| ==> Moves(states[i], steps[i], states[i + 1])
    }

    function Last(): State
      requires states != []
    {
      states[|states| - 1]
    }
  }

  // ------------------------------------------------------------------ invariant

  /** The thread the caller is waiting for or has a session on, if any. */
  function Current(c: Caller): Option<ThreadId> {
    match c
    case NoSession => None
    case AwaitInit(t) => Some(t)
    case HasSession(x) => Some(x.thread)
    case AwaitDone(x) => Some(x.thread)
  }

  /** A session whose `done` has been received or is no longer awaited. */
  predicate Finished(c: Caller) {
    c.HasSession? && !c.session.done
  }

  ghost predicate ThreadOk(y: Thread) {
    && (y.phase in {Building, Bound} ==> y.init == Pending)
    && (y.phase == Driving ==> y.init == Started)
    && (y.init == Pending ==> y.phase in {Building, Bound})
    && (y.holds ==> y.phase in {Bound, Driving, Leaving} && y.init != Failed)
  }

  ghost predicate Inv(s: State) {
    && (forall t :: 0 <= t < |s.threads| ==> ThreadOk(s.threads[t]))
    // only the current thread can hold a port, and it has let it go once `stop` has returned
    && (forall t :: 0 <= t < |s.threads| && (s.threads[t].holds || s.threads[t].init == Pending) ==>
          Current(s.caller) == Some(t) && !Finished(s.caller))
    && (Current(s.caller).Some? ==> Current(s.caller).value < |s.threads|)
    && (s.caller.AwaitInit? ==> !s.threads[s.caller.thread].stop)
    && (s.caller.HasSession? || s.caller.AwaitDone? ==> s.threads[s.caller.session.thread].init == Started)
    && (s.caller.HasSession? ==> s.caller.session.stopTx == s.caller.session.done)
    && (s.caller.AwaitDone? ==>
          !s.caller.session.stopTx && !s.caller.session.done && s.threads[s.caller.session.thread].stop)
    && !s.clash
  }

  lemma BindKeeps(s: State, t: ThreadId)
    requires Inv(s) && Enabled(s, Bind(t))
    ensures Inv(Do(s, Bind(t)))
  {
    assert !PortHeld(s, s.threads[t].port) by {
      assert Current(s.caller) == Some(t);
      assert ThreadOk(s.threads[t]);
    }
  }

  predicate OfCaller(step: Step) {
    step.InitArrives? || step.Stop? || step.DoneArrives? || step.DropSession?
  }

  lemma CallerKeeps(s: State, step: Step)
    requires Inv(s) && Enabled(s, step) && OfCaller(step)
    ensures Inv(Do(s, step))
  {
  }

  lemma StartKeeps(s: State, port: Port)
    requires Inv(s) && Enabled(s, Start(port))
    ensures Inv(Do(s, Start(port)))
  {
  }

  lemma ThreadKeeps(s: State, step: Step)
    requires Inv(s) && Enabled(s, step) && !OfCaller(step) && !step.Bind? && !step.Start?
    ensures Inv(Do(s, step))
  {
    assert ThreadOk(s.threads[step.t]);
  }

  lemma StepKeeps(s: State, step: Step)
    requires Inv(s) && Enabled(s, step)
    ensures Inv(Do(s, step))
  {
    match step
    case Bind(t) => BindKeeps(s, t);
    case Start(port) => StartKeeps(s, port);
    case _ => if OfCaller(step) { CallerKeeps(s, step); } else { ThreadKeeps(s, step); }
  }

  lemma {:induction false} RunKeeps(run: Run, n: nat)
    requires run.Valid() && n < |run.states|
    ensures Inv(run.states[n])
  {
    if n > 0 {
      RunKeeps(run, n - 1);
      var step := run.steps[n - 1];
      StepKeeps(run.states[n - 1], step);
    }
  }

  // ------------------------------------------------------------------- theorems

  /**
   * For every sequence of starts, failed builds, stops and restarts, and every interleaving with
   * the node threads, no bind ever finds its port held by an earlier session.
   */
  lemma NoBindClash(run: Run)
    requires run.Valid()
    ensures !run.Last().clash
    ensures forall t: ThreadId :: At(run.Last(), t, Building) ==> !PortHeld(run.Last(), run.Last().threads[t].port)
  {
    RunKeeps(run, |run.steps|);
    var s := run.Last();
    forall t: ThreadId | At(s, t, Building) ensures !PortHeld(s, s.threads[t].port) {
      assert ThreadOk(s.threads[t]);
    }
  }

  /** From its bind to the end of the node a thread holds its port. */
  ghost predicate HoldsWhileUp(s: State) {
    forall t :: 0 <= t < |s.threads| && s.threads[t].phase in {Bound, Driving} ==> s.threads[t].holds
  }

  lemma UpStep(s: State, step: Step)
    requires Inv(s) && Enabled(s, step) && HoldsWhileUp(s)
    ensures HoldsWhileUp(Do(s, step))
  {
    if step.Bind? {
      BindKeeps(s, step.t);
    }
  }

  lemma {:induction false} UpHolds(run: Run, n: nat)
    requires run.Valid() && n < |run.states|
    ensures HoldsWhileUp(run.states[n])
  {
    if n > 0 {
      UpHolds(run, n - 1);
      RunKeeps(run, n - 1);
      var step := run.steps[n - 1];
      UpStep(run.states[n - 1], step);
    }
  }

  /** A bind takes the port if no thread has it, and is refused, with nothing taken, if one has. */
  lemma BindTakesPort(s: State, t: ThreadId)
    requires Enabled(s, Bind(t))
    ensures var s', port := Do(s, Bind(t)), s.threads[t].port;
      && PortHeld(s', port)
      && (PortHeld(s, port) ==> s'.clash && s'.threads[t] == s.threads[t].(phase := Leaving, init := Failed))
      && (!PortHeld(s, port) ==> s'.threads[t].holds && s'.threads[t].phase == Bound && s'.clash == s.clash)
  {
    var s', port := Do(s, Bind(t)), s.threads[t].port;
    if PortHeld(s, port) {
      var u :| 0 <= u < |s.threads| && s.threads[u].holds && s.threads[u].port == port;
      assert s'.threads[u].holds && s'.threads[u].port == port;
    } else {
      assert s'.threads[t].holds && s'.threads[t].port == port;
    }
  }

  /** The ports of the sessions started in the first `n` steps. */
  function PortsStarted(steps: seq<Step>, n: nat): seq<Port>
    requires n <= |steps|
  {
    if n == 0 then []
    else PortsStarted(steps, n - 1) + if steps[n - 1].Start? then [steps[n - 1].port] else []
  }

  function PortsOf(s: State): (ports: seq<Port>)
    ensures |ports| == |s.threads| && forall t :: 0 <= t < |ports| ==> ports[t] == s.threads[t].port
  {
    seq(|s.threads|, t requires 0 <= t < |s.threads| => s.threads[t].port)
  }

  lemma PortsStep(s: State, step: Step)
    requires Enabled(s, step)
    ensures PortsOf(Do(s, step)) == PortsOf(s) + if step.Start? then [step.port] else []
  {
    assert forall t :: 0 <= t < |s.threads| ==> Do(s, step).threads[t].port == s.threads[t].port;
  }

  /** Every start has its thread, on the port that it was given. */
  lemma {:induction false} PortsExactly(run: Run, n: nat)
    requires run.Valid() && n < |run.states|
    ensures PortsOf(run.states[n]) == PortsStarted(run.steps, n)
  {
    if n > 0 {
      PortsExactly(run, n - 1);
      var step := run.steps[n - 1];
      PortsStep(run.states[n - 1], step);
    } else {
      assert PortsOf(INIT) == [];
    }
  }

  /** A thread that has reported success, was not told to stop and whose node has not exited is driving. */
  predicate Drives(s: State, t: ThreadId, exited: bool) {
    t < |s.threads| && s.threads[t].init == Started && !s.threads[t].stop && !exited ==> s.threads[t].phase == Driving
  }

  lemma DrivesStep(s: State, step: Step, t: ThreadId, exited: bool)
    requires Inv(s) && Enabled(s, step) && Drives(s, t, exited)
    ensures Drives(Do(s, step), t, exited || step == NodeExits(t))
  {
    if step.Bind? {
      BindKeeps(s, step.t);
    }
    if t < |s.threads| {
      assert ThreadOk(s.threads[t]);
    }
  }

  lemma MoreSteps(steps: seq<Step>, n: nat, step: Step)
    requires 0 < n <= |steps|
    ensures step in steps[..n] <==> step in steps[..n - 1] || step == steps[n - 1]
  {
    assert steps[..n] == steps[..n - 1] + [steps[n - 1]];
  }

  lemma {:induction false} DrivesUntilStopped(run: Run, n: nat, t: ThreadId)
    requires run.Valid() && n < |run.states|
    ensures Drives(run.states[n], t, NodeExits(t) in run.steps[..n])
  {
    if n > 0 {
      DrivesUntilStopped(run, n - 1, t);
      RunKeeps(run, n - 1);
      var step := run.steps[n - 1];
      DrivesStep(run.states[n - 1], step, t, NodeExits(t) in run.steps[..n - 1]);
      MoreSteps(run.steps, n, NodeExits(t));
    }
  }

  /** A session that was not stopped yet is on the thread started last, and no stop message is there. */
  ghost predicate OnLatest(s: State) {
    && (Current(s.caller).Some? ==> Current(s.caller).value == |s.threads| - 1)
    && (s.caller.HasSession? && s.caller.session.stopTx ==>
          s.caller.session.thread < |s.threads| && !s.threads[s.caller.session.thread].stop)
  }

  lemma LatestStep(s: State, step: Step)
    requires Inv(s) && Enabled(s, step) && OnLatest(s)
    ensures OnLatest(Do(s, step))
  {
    if step.Bind? {
      BindKeeps(s, step.t);
    }
  }

  lemma {:induction false} SessionOnLatest(run: Run, n: nat)
    requires run.Valid() && n < |run.states|
    ensures OnLatest(run.states[n])
  {
    if n > 0 {
      SessionOnLatest(run, n - 1);
      RunKeeps(run, n - 1);
      var step := run.steps[n - 1];
      LatestStep(run.states[n - 1], step);
    }
  }

  /**
   * A session that was not stopped, and whose node has not exited by itself, has its port: that of
   * the latest start.
   */
  lemma SessionHoldsPort(run: Run)
    requires run.Valid() && run.Last().caller.HasSession? && run.Last().caller.session.stopTx
    requires NodeExits(run.Last().caller.session.thread) !in run.steps
    ensures var ports := PortsStarted(run.steps, |run.steps|);
      ports != [] && PortHeld(run.Last(), ports[|ports| - 1])
  {
    var s, n := run.Last(), |run.steps|;
    var t := s.caller.session.thread;
    RunKeeps(run, n);
    SessionOnLatest(run, n);
    PortsExactly(run, n);
    UpHolds(run, n);
    assert run.steps[..n] == run.steps;
    DrivesUntilStopped(run, n, t);
    assert s.threads[t].holds && PortsOf(s)[t] == s.threads[t].port;
  }

  lemma OneMore(run: Run, step: Step) returns (more: Run)
    requires run.Valid() && Enabled(run.Last(), step)
    ensures more.Valid() && more.Last() == Do(run.Last(), step) && run.steps <= more.steps
  {
    more := Run(run.states + [Do(run.Last(), step)], run.steps + [step]);
    assert forall i :: 0 <= i < |run.steps| ==> more.steps[i] == run.steps[i];
  }

  /** Whenever there is no session, one can be started on any port, and holds it. */
  lemma CanStart(run: Run, port: Port) returns (more: Run)
    requires run.Valid() && run.Last().caller.NoSession?
    ensures more.Valid() && run.steps <= more.steps
    ensures var s, s' := run.Last(), more.Last();
      && s'.caller == HasSession(Session(|s.threads|, true, true)) && PortHeld(s', port) && !s'.clash
      && s'.threads == s.threads + [Thread(port, Driving, Started, true, false)]
  {
    var t := |run.Last().threads|;
    more := OneMore(run, Start(port));
    RunKeeps(more, |more.steps|);
    more := BindsAndDrives(more, t);
    var s' := more.Last();
    assert s'.threads[t].holds && s'.threads[t].port == port;
  }

  lemma BindsAndDrives(run: Run, t: ThreadId) returns (more: Run)
    requires run.Valid() && Inv(run.Last()) && At(run.Last(), t, Building) && run.Last().caller == AwaitInit(t)
    ensures more.Valid() && run.steps <= more.steps
    ensures var s := run.Last();
      more.Last() == State(HasSession(Session(t, true, true)),
                           s.threads[t := s.threads[t].(phase := Driving, init := Started, holds := true)], s.clash)
  {
    BindKeeps(run.Last(), t);
    more := OneMore(run, Bind(t));
    more := OneMore(more, SendInit(t));
    more := OneMore(more, InitArrives);
  }

  /** The next step towards having no session. */
  function TowardsNone(s: State): Step {
    match s.caller
    case NoSession => Start(0)
    case AwaitInit(t) => if At(s, t, Building) then BuildFails(t) else if At(s, t, Bound) then SendInit(t) else InitArrives
    case HasSession(x) => if x.done then Stop else DropSession
    case AwaitDone(x) =>
      var t := x.thread;
      if At(s, t, Driving) then SeesStop(t) else if At(s, t, Leaving) then DropRuntime(t)
      else if At(s, t, Dropped) then SignalDone(t) else DoneArrives
  }

  /** How many such steps there are at most. */
  function ToNone(s: State): nat {
    match s.caller
    case NoSession => 0
    case AwaitInit(t) =>
      if t >= |s.threads| then 0
      else if s.threads[t].init == Failed then 1
      else if s.threads[t].phase == Building then 2
      else 4 + ToGo(s.threads[t])
    case HasSession(x) => if x.done && x.thread < |s.threads| then 3 + ToGo(s.threads[x.thread]) else 1
    case AwaitDone(x) => if x.thread < |s.threads| then 2 + ToGo(s.threads[x.thread]) else 0
  }

  lemma TowardsNoneStep(s: State)
    requires Inv(s) && !s.caller.NoSession?
    ensures Enabled(s, TowardsNone(s)) && Inv(Do(s, TowardsNone(s)))
    ensures ToNone(Do(s, TowardsNone(s))) < ToNone(s)
  {
    var t := Current(s.caller).value;
    assert ThreadOk(s.threads[t]);
    StepKeeps(s, TowardsNone(s));
  }

  lemma {:induction false} CanEnd(run: Run) returns (more: Run)
    requires run.Valid()
    ensures more.Valid() && run.steps <= more.steps && more.Last().caller.NoSession?
    decreases ToNone(run.Last())
  {
    if run.Last().caller.NoSession? {
      more := run;
    } else {
      RunKeeps(run, |run.steps|);
      TowardsNoneStep(run.Last());
      more := OneMore(run, TowardsNone(run.Last()));
      more := CanEnd(more);
    }
  }

  /** From every state of every run the caller can stop what runs and have a session on any port again. */
  lemma CanRestart(run: Run, port: Port) returns (more: Run)
    requires run.Valid()
    ensures more.Valid() && run.steps <= more.steps && !more.Last().clash
    ensures more.Last().caller.HasSession? && more.Last().caller.session.stopTx && PortHeld(more.Last(), port)
  {
    more := CanEnd(run);
    more := CanStart(more, port);
  }

  /** What one step does to a thread: where it is, what it has reported, and whether it is told to stop. */
  function ThreadNext(s: State, step: Step, t: ThreadId, y: Thread): Thread {
    match step
    case BuildFails(u) => if u == t then y.(phase := Leaving, init := Failed) else y
    case Bind(u) => if u == t then y.(phase := Bound, holds := true) else y
    case SendInit(u) => if u == t then y.(phase := Driving, init := Started) else y
    case NodeExits(u) => if u == t then y.(phase := Leaving) else y
    case SeesStop(u) => if u == t then y.(phase := Leaving) else y
    case DropRuntime(u) => if u == t then y.(phase := Dropped, holds := false) else y
    case SignalDone(u) => if u == t then y.(phase := Signalled) else y
    case Stop => if Current(s.caller) == Some(t) && !Finished(s.caller) then y.(stop := true) else y
    case _ => y
  }

  lemma ThreadStep(s: State, step: Step, t: ThreadId)
    requires Inv(s) && Enabled(s, step) && t < |s.threads|
    ensures t < |Do(s, step).threads| && Do(s, step).threads[t] == ThreadNext(s, step, t, s.threads[t])
  {
    if step.Bind? {
      BindKeeps(s, step.t);
    }
  }

  /** A thread after the first `n` steps of a run, from its start on; none before it. */
  function ThreadAfter(run: Run, t: ThreadId, n: nat): Option<Thread>
    requires n <= |run.steps| < |run.states|
  {
    if n == 0 then None
    else
      var s, step := run.states[n - 1], run.steps[n - 1];
      if step.Start? && t == |s.threads| then Some(Thread(step.port, Building, Pending, false, false))
      else
        var y :- ThreadAfter(run, t, n - 1);
        Some(ThreadNext(s, step, t, y))
  }

  function ThreadOf(s: State, t: ThreadId): Option<Thread> {
    if t < |s.threads| then Some(s.threads[t]) else None
  }

  ghost predicate ThreadFits(run: Run, t: ThreadId, n: nat) {
    n <= |run.steps| < |run.states| && ThreadOf(run.states[n], t) == ThreadAfter(run, t, n)
  }

  lemma ThreadFitsNext(run: Run, t: ThreadId, n: nat)
    requires run.Valid() && n < |run.steps| && ThreadFits(run, t, n)
    ensures ThreadFits(run, t, n + 1)
  {
    var s, step := run.states[n], run.steps[n];
    RunKeeps(run, n);
    if t < |s.threads| {
      ThreadStep(s, step, t);
    } else {
      PortsStep(s, step);
      assert |PortsOf(Do(s, step))| <= |s.threads| + 1;
    }
  }

  /** In every run each thread is where its steps have brought it. */
  lemma ThreadExactly(run: Run, t: ThreadId, n: nat)
    requires run.Valid() && n < |run.states|
    ensures ThreadOf(run.states[n], t) == ThreadAfter(run, t, n)
  {
    forall i: nat | i < n && ThreadFits(run, t, i) ensures ThreadFits(run, t, i + 1) {
      ThreadFitsNext(run, t, i);
    }
    Climb((i: nat) => ThreadFits(run, t, i), n);
  }

  /**
   * The port is held until the runtime is dropped, after the thread has seen the stop message: a
   * `stop` that returned at that moment would leave it to a restart to find it in use.
   */
  lemma HeldUntilDropped(port: Port) returns (run: Run)
    ensures run.Valid() && run.Last().caller.AwaitDone? && PortHeld(run.Last(), port)
    ensures Enabled(run.Last(), DropRuntime(0)) && !PortHeld(Do(run.Last(), DropRuntime(0)), port)
  {
    run := Run([INIT], []);
    run := CanStart(run, port);
    run := OneMore(run, Stop);
    run := OneMore(run, SeesStop(0));
    assert run.Last().threads[0].holds && run.Last().threads[0].port == port;
  }

  /** Once `stop` has returned, and whenever there is no session, no port at all is held. */
  lemma StoppedHoldsNothing(run: Run)
    requires run.Valid() && (run.Last().caller.NoSession? || Finished(run.Last().caller))
    ensures forall port :: !PortHeld(run.Last(), port)
  {
    RunKeeps(run, |run.steps|);
  }

  /** A second `stop` returns at once and changes nothing. */
  lemma SecondStopIsNoOp(run: Run)
    requires run.Valid() && Finished(run.Last().caller)
    ensures Enabled(run.Last(), Stop) && Do(run.Last(), Stop) == run.Last()
  {
    RunKeeps(run, |run.steps|);
  }

  /** How many steps a started thread still has to make once it was told to stop. */
  function ToGo(y: Thread): nat {
    match y.phase
    case Building => 5
    case Bound => 4
    case Driving => 3
    case Leaving => 2
    case Dropped => 1
    case Signalled => 0
  }

  predicate OwnStep(step: Step, t: ThreadId) {
    match step
    case SeesStop(u) => u == t
    case DropRuntime(u) => u == t
    case SignalDone(u) => u == t
    case _ => false
  }

  /**
   * A caller waiting in `stop` is never stuck: it can return now, or the thread it waits for can
   * make a step of its own that brings it nearer to signalling, at most three times.
   */
  lemma StopReturns(run: Run) returns (step: Step)
    requires run.Valid() && run.Last().caller.AwaitDone?
    ensures var s := run.Last(); var t := s.caller.session.thread;
      && t < |s.threads| && ToGo(s.threads[t]) <= 3 && Enabled(s, step)
      && (ToGo(s.threads[t]) == 0 ==> step == DoneArrives)
      && (ToGo(s.threads[t]) > 0 ==> OwnStep(step, t) && ToGo(Do(s, step).threads[t]) == ToGo(s.threads[t]) - 1)
  {
    RunKeeps(run, |run.steps|);
    var s := run.Last();
    var t := s.caller.session.thread;
    assert ThreadOk(s.threads[t]);
    step := match s.threads[t].phase
      case Driving => SeesStop(t)
      case Leaving => DropRuntime(t)
      case Dropped => SignalDone(t)
      case _ => DoneArrives;
  }

  /** No other thread, and no step of the caller, moves a thread away from signalling. */
  lemma ToGoNeverGrows(s: State, step: Step, t: ThreadId)
    requires Inv(s) && Enabled(s, step) && t < |s.threads|
    ensures t < |Do(s, step).threads| && ToGo(Do(s, step).threads[t]) <= ToGo(s.threads[t])
  {
  }
}
