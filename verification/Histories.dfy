/**
 * Every history of operations and crashes of `BridgeController`: what it keeps, and what a resume
 * brings back.
 */
module Histories {
  import opened Basics
  import opened Upserts
  import opened Interfaces
  import opened Controller

  /**
   * Everything that can happen to the controller. A crash loses all but the file; `CrashIn` is a
   * crash inside an operation, after its `k`-th write of the file.
   */
  datatype Op =
    | DoStartServer(sargs: ServerArgs, ok: bool)
    | DoStopServer
    | DoRestartServer(ok: bool)
    | DoStartClient(cargs: ClientArgs, ok: bool)
    | DoStopClient
    | DoRestartClient(ok: bool)
    | DoConnect(hash: string, hashOk: bool, ok: bool)
    | DoAdd(n: NewInterface, role: Role, ifacName: Option<string>, ifacPassphrase: Option<string>, a: Attach)
    | DoRemove(id: string, found: bool)
    | DoDsStart(dargs: DsStartArgs, ok: bool)
    | DoDsStop(ok: bool)
    | DoChangelevel(map_: string, ok: bool)
    | DoSetCheats(enabled: bool, ok: bool)
    | DoResume(o: Outcomes)
    | Crash
    | CrashIn(during: Op, k: nat)

  function Apply(c: Ctl, op: Op): Ctl
    decreases op, 0
  {
    match op
    case DoStartServer(args, ok) => StartServer(c, args, ok)
    case DoStopServer => StopServer(c)
    case DoRestartServer(ok) => RestartServer(c, ok)
    case DoStartClient(args, ok) => StartClient(c, args, ok)
    case DoStopClient => StopClient(c)
    case DoRestartClient(ok) => RestartClient(c, ok)
    case DoConnect(hash, hashOk, ok) => ConnectAndLaunch(c, hash, hashOk, ok)
    case DoAdd(n, role, name, pass, a) => AddInterface(c, Descriptor(n, role, name, pass), a)
    case DoRemove(id, found) => RemoveInterface(c, id, found)
    case DoDsStart(args, ok) => DsStart(c, args, ok)
    case DoDsStop(ok) => DsStop(c, ok)
    case DoChangelevel(m, ok) => DsChangelevel(c, m, ok)
    case DoSetCheats(enabled, ok) => DsSetCheats(c, enabled, ok)
    case DoResume(o) => Resume(c, o)
    case Crash => Created(c.file)
    case CrashIn(during, k) => Created(Moment(c, during, k).file)
  }

  /** The controller after the `k`-th write of an operation; most operations write once. */
  function Moment(c: Ctl, op: Op, k: nat): Ctl
    decreases op, 1
  {
    if k == 0 then c
    else
      match op
      case DoRestartServer(_) => if k == 1 && c.lastServer.Some? then StopServer(c) else Apply(c, op)
      case DoRestartClient(_) => if k == 1 && c.lastClient.Some? then StopClient(c) else Apply(c, op)
      case DoConnect(_, hashOk, _) => if k == 1 && c.lastClient.Some? && hashOk then StopClient(c) else Apply(c, op)
      case DoResume(o) => ResumeMoment(c, o, k)
      case _ => Apply(c, op)
  }

  /** After the repair of the list, the server, the client, and each interface in turn. */
  function ResumeMoment(c: Ctl, o: Outcomes, k: nat): Ctl {
    var c0 := Repaired(c);
    var s := c0.settings;
    var c1 := ResumeServer(c0, s, o.server);
    var c2 := ResumeClient(c1, s, o.client);
    if k == 0 then c
    else if k == 1 then c0
    else if k == 2 then c1
    else if k - 3 <= |s.interfaces| then ResumeFirst(c2, s.interfaces, o.attach, k - 3)
    else Resume(c, o)
  }

  function History(c: Ctl, ops: seq<Op>): Ctl {
    if ops == [] then c else Apply(History(c, ops[..|ops| - 1]), ops[|ops| - 1])
  }

  /**
   * Loading the file gives the settings in memory, and a running session's arguments are the last
   * arguments and the saved ones, with its flag set.
   */
  predicate Recorded(c: Ctl) {
    && Load(c.file) == c.settings
    && c.lastServer == c.settings.bridge
    && c.lastClient == c.settings.client
    && (c.server.Some? ==> c.server == c.settings.bridge && c.settings.bridgeRunning)
    && (c.client.Some? ==> c.client == c.settings.client && c.settings.clientRunning)
  }

  /** What a resume would start is exactly what runs. */
  predicate InSync(c: Ctl) {
    && c.server == (if c.settings.bridgeRunning then c.settings.bridge else None)
    && c.client == (if c.settings.clientRunning then c.settings.client else None)
  }

  /** The parts of a controller that concern its bridge sessions. */
  predicate SameSessions(c: Ctl, c': Ctl) {
    && c'.server == c.server && c'.client == c.client
    && c'.lastServer == c.lastServer && c'.lastClient == c.lastClient
    && c'.settings.bridge == c.settings.bridge && c'.settings.bridgeRunning == c.settings.bridgeRunning
    && c'.settings.client == c.settings.client && c'.settings.clientRunning == c.settings.clientRunning
  }

  lemma {:induction false} ResumeFirstKeeps(c: Ctl, saved: seq<InterfaceDescriptor>, attach: nat -> Attach, n: nat)
    requires n <= |saved| && Recorded(c)
    ensures Recorded(ResumeFirst(c, saved, attach, n)) && SameSessions(c, ResumeFirst(c, saved, attach, n))
  {
    if n > 0 {
      ResumeFirstKeeps(c, saved, attach, n - 1);
    }
  }

  /** What a resume does to the sessions: each flagged one with saved arguments is tried once. */
  lemma ResumeSessions(c: Ctl, o: Outcomes)
    requires Recorded(c)
    ensures Recorded(Resume(c, o))
    ensures SameSessions(Resume(c, o), ResumedSessions(c, o))
  {
    var c0 := Repaired(c);
    var s := c0.settings;
    RepairedKeeps(c);
    SessionsPart(c0, o);
    var c2 := ResumeClient(ResumeServer(c0, s, o.server), s, o.client);
    var c3 := ResumeFirst(c2, s.interfaces, o.attach, |s.interfaces|);
    ResumeFirstKeeps(c2, s.interfaces, o.attach, |s.interfaces|);
    DsKeeps(c3, s, o.ds);
  }

  lemma RepairedKeeps(c: Ctl)
    requires Recorded(c)
    ensures Recorded(Repaired(c)) && SameSessions(c, Repaired(c))
  {
  }

  lemma DsKeeps(c: Ctl, s: Settings, ok: bool)
    requires Recorded(c)
    ensures Recorded(ResumeDs(c, s, ok)) && SameSessions(c, ResumeDs(c, s, ok))
  {
  }

  /** The controller in which the flagged sessions that were down and come up run with the saved arguments. */
  function ResumedSessions(c: Ctl, o: Outcomes): Ctl {
    c.(server := if c.server.None? && c.settings.bridgeRunning && o.server then c.settings.bridge else c.server,
       client := if c.client.None? && c.settings.clientRunning && o.client then c.settings.client else c.client)
  }

  lemma SessionsPart(c: Ctl, o: Outcomes)
    requires Recorded(c)
    ensures var c' := ResumeClient(ResumeServer(c, c.settings, o.server), c.settings, o.client);
      Recorded(c') && SameSessions(c', ResumedSessions(c, o))
  {
    var c1 := ResumeServer(c, c.settings, o.server);
    assert Recorded(c1) && c1.settings.client == c.settings.client && c1.client == c.client;
  }

  predicate IsServerOp(op: Op) {
    op.DoStartServer? || op.DoStopServer? || op.DoRestartServer?
  }

  predicate IsClientOp(op: Op) {
    op.DoStartClient? || op.DoStopClient? || op.DoRestartClient? || op.DoConnect?
  }

  lemma ServerOpKeeps(c: Ctl, op: Op)
    requires Recorded(c) && IsServerOp(op)
    ensures Recorded(Apply(c, op)) && (InSync(c) ==> InSync(Apply(c, op)))
  {
  }

  lemma ClientOpKeeps(c: Ctl, op: Op)
    requires Recorded(c) && IsClientOp(op)
    ensures Recorded(Apply(c, op)) && (InSync(c) ==> InSync(Apply(c, op)))
  {
    if op.DoStartClient? {
      StartClientKeeps(c, op.cargs, op.ok);
    } else if c.lastClient.Some? && !op.DoStopClient? {
      var hash := if op.DoConnect? then Some(op.hash) else c.lastClient.value.serverHash;
      assert c.lastClient.value.(serverHash := c.lastClient.value.serverHash) == c.lastClient.value;
      StartClientKeeps(StopClient(c), c.lastClient.value.(serverHash := hash), op.ok);
    }
  }

  lemma StartClientKeeps(c: Ctl, args: ClientArgs, ok: bool)
    requires Recorded(c)
    ensures Recorded(StartClient(c, args, ok)) && (InSync(c) ==> InSync(StartClient(c, args, ok)))
  {
  }

  /** Operations on the sessions leave the saved arguments of the dedicated server alone. */
  lemma SessionOpKeepsDs(c: Ctl, op: Op)
    requires IsServerOp(op) || IsClientOp(op)
    ensures SameDs(Apply(c, op).settings, c.settings)
  {
  }

  /** Operations on the interfaces and the dedicated server, and crashes. */
  lemma OtherOpKeeps(c: Ctl, op: Op)
    requires Recorded(c) && !IsServerOp(op) && !IsClientOp(op) && !op.DoResume?
    ensures Recorded(Apply(c, op)) && (InSync(c) && !op.Crash? && !op.CrashIn? ==> InSync(Apply(c, op)))
  {
  }

  lemma ListOpKeepsDs(c: Ctl, op: Op)
    requires Recorded(c) && (op.DoAdd? || op.DoRemove? || op.Crash?)
    ensures SameDs(Apply(c, op).settings, c.settings)
  {
  }

  lemma ApplyKeeps(c: Ctl, op: Op)
    requires Recorded(c)
    ensures Recorded(Apply(c, op))
  {
    if op.DoResume? {
      ResumeSessions(c, op.o);
    } else if IsServerOp(op) {
      ServerOpKeeps(c, op);
    } else if IsClientOp(op) {
      ClientOpKeeps(c, op);
    } else {
      OtherOpKeeps(c, op);
    }
  }

  lemma ApplyKeepsInSync(c: Ctl, op: Op)
    requires Recorded(c) && InSync(c) && !op.Crash? && !op.CrashIn?
    ensures InSync(Apply(c, op))
  {
    if op.DoResume? {
      ResumeSessions(c, op.o);
    } else if IsServerOp(op) {
      ServerOpKeeps(c, op);
    } else if IsClientOp(op) {
      ClientOpKeeps(c, op);
    } else {
      OtherOpKeeps(c, op);
    }
  }

  /** At every moment inside an operation too. */
  lemma MomentRecorded(c: Ctl, op: Op, k: nat)
    requires Recorded(c)
    ensures Recorded(Moment(c, op, k))
  {
    if op.DoResume? {
      ResumeMomentKeeps(c, op.o, k);
    } else {
      ApplyKeeps(c, op);
    }
  }

  /** No moment of a resume touches a running session, or starts one that is not flagged. */
  lemma ResumeMomentKeeps(c: Ctl, o: Outcomes, k: nat)
    requires Recorded(c)
    ensures var m := ResumeMoment(c, o, k);
      && Recorded(m)
      && (c.server.Some? ==> m.server == c.server) && (c.client.Some? ==> m.client == c.client)
      && (!c.settings.bridgeRunning ==> m.server == c.server && !m.settings.bridgeRunning)
      && (!c.settings.clientRunning ==> m.client == c.client && !m.settings.clientRunning)
  {
    if k > 3 + |Repaired(c).settings.interfaces| {
      ResumeSessions(c, o);
    } else if k >= 3 {
      LateMoment(c, o, k - 3);
    } else {
      EarlyMoment(c, o, k);
    }
  }

  lemma EarlyMoment(c: Ctl, o: Outcomes, k: nat)
    requires Recorded(c) && k < 3
    ensures var m := ResumeMoment(c, o, k);
      && Recorded(m) && m.client == c.client && m.settings.clientRunning == c.settings.clientRunning
      && (c.server.Some? || !c.settings.bridgeRunning ==> m.server == c.server)
      && m.settings.bridgeRunning == c.settings.bridgeRunning
  {
    RepairedKeeps(c);
  }

  lemma LateMoment(c: Ctl, o: Outcomes, n: nat)
    requires Recorded(c) && n <= |Repaired(c).settings.interfaces|
    ensures Recorded(ResumeMoment(c, o, n + 3)) && SameSessions(ResumeMoment(c, o, n + 3), ResumedSessions(c, o))
  {
    var c0 := Repaired(c);
    var s := c0.settings;
    var c2 := ResumeClient(ResumeServer(c0, s, o.server), s, o.client);
    RepairedKeeps(c);
    SessionsPart(c0, o);
    ResumeFirstKeeps(c2, s.interfaces, o.attach, n);
  }

  /** After every history of operations and crashes, from any file. */
  lemma {:induction false} AlwaysRecorded(file: Option<Settings>, ops: seq<Op>)
    ensures Recorded(History(Created(file), ops))
  {
    if ops != [] {
      AlwaysRecorded(file, ops[..|ops| - 1]);
      ApplyKeeps(History(Created(file), ops[..|ops| - 1]), ops[|ops| - 1]);
    }
  }

  /**
   * After any history: crash, create, resume with successful starts. Every session that was running
   * runs again with the same arguments, and what runs is exactly what the flags say. If what ran
   * was what the flags said before the crash, then the same sessions run, no more and no fewer.
   */
  lemma CrashThenResume(file: Option<Settings>, ops: seq<Op>, o: Outcomes)
    requires o.server && o.client
    ensures var c := History(Created(file), ops); var c' := Resume(Created(c.file), o);
      && InSync(c')
      && (c.server.Some? ==> c'.server == c.server)
      && (c.client.Some? ==> c'.client == c.client)
      && (InSync(c) ==> c'.server == c.server && c'.client == c.client)
  {
    AlwaysRecorded(file, ops);
    ResumeSessions(Created(History(Created(file), ops).file), o);
  }

  predicate StopsServer(op: Op) {
    op.DoStopServer? || op.DoRestartServer? || op.Crash? || op.CrashIn?
  }

  predicate StopsClient(op: Op) {
    op.DoStopClient? || op.DoRestartClient? || op.DoConnect? || op.Crash? || op.CrashIn?
  }

  lemma MomentKeepsRunning(c: Ctl, op: Op, k: nat)
    requires Recorded(c)
    ensures c.server.Some? && !StopsServer(op) ==> Moment(c, op, k).server == c.server
    ensures c.client.Some? && !StopsClient(op) ==> Moment(c, op, k).client == c.client
  {
    if op.DoResume? {
      ResumeMomentKeeps(c, op.o, k);
    }
  }

  /**
   * A crash at any point inside an operation, and a resume with successful starts: what runs is what
   * the flags say, and every session that the operation does not stop runs again as before.
   */
  lemma CrashInsideThenResume(file: Option<Settings>, ops: seq<Op>, op: Op, k: nat, o: Outcomes)
    requires o.server && o.client
    ensures var c := History(Created(file), ops); var c' := Resume(Created(Moment(c, op, k).file), o);
      && InSync(c')
      && (c.server.Some? && !StopsServer(op) ==> c'.server == c.server)
      && (c.client.Some? && !StopsClient(op) ==> c'.client == c.client)
  {
    var c := History(Created(file), ops);
    AlwaysRecorded(file, ops);
    MomentRecorded(c, op, k);
    MomentKeepsRunning(c, op, k);
    ResumeSessions(Created(Moment(c, op, k).file), o);
  }

  /**
   * A crash inside the restart of a running server: it comes back with the same arguments unless the
   * crash fell between the stop and the start, or the start had failed; then it stays down, and its
   * arguments are kept for the next restart.
   */
  lemma CrashInsideRestartServer(file: Option<Settings>, ops: seq<Op>, ok: bool, k: nat, o: Outcomes)
    requires o.server && o.client && History(Created(file), ops).server.Some?
    ensures var c := History(Created(file), ops);
      var c' := Resume(Created(Moment(c, DoRestartServer(ok), k).file), o);
      && c'.server == (if k == 0 || (k > 1 && ok) then c.server else None)
      && c'.lastServer == c.server
  {
    var c := History(Created(file), ops);
    AlwaysRecorded(file, ops);
    MomentRecorded(c, DoRestartServer(ok), k);
    ResumeSessions(Created(Moment(c, DoRestartServer(ok), k).file), o);
  }

  /** The same for the client. */
  lemma CrashInsideRestartClient(file: Option<Settings>, ops: seq<Op>, ok: bool, k: nat, o: Outcomes)
    requires o.server && o.client && History(Created(file), ops).client.Some?
    ensures var c := History(Created(file), ops);
      var c' := Resume(Created(Moment(c, DoRestartClient(ok), k).file), o);
      && c'.client == (if k == 0 || (k > 1 && ok) then c.client else None)
      && c'.lastClient == c.client
  {
    var c := History(Created(file), ops);
    AlwaysRecorded(file, ops);
    MomentRecorded(c, DoRestartClient(ok), k);
    ResumeSessions(Created(Moment(c, DoRestartClient(ok), k).file), o);
  }

  /**
   * A crash inside a connect while a client runs: the client comes back as it was before the stop,
   * not at all between stop and start or if the start had failed, and with the clicked hash after it.
   */
  lemma CrashInsideConnect(file: Option<Settings>, ops: seq<Op>, hash: string, hashOk: bool, ok: bool,
                           k: nat, o: Outcomes)
    requires o.server && o.client && History(Created(file), ops).client.Some?
    ensures var c := History(Created(file), ops);
      var c' := Resume(Created(Moment(c, DoConnect(hash, hashOk, ok), k).file), o);
      var clicked := Some(c.client.value.(serverHash := Some(hash)));
      && c'.client == (if k == 0 || !hashOk then c.client else if k > 1 && ok then clicked else None)
      && c'.lastClient == (if k > 1 && hashOk && ok then clicked else c.client)
  {
    var c := History(Created(file), ops);
    AlwaysRecorded(file, ops);
    MomentRecorded(c, DoConnect(hash, hashOk, ok), k);
    ResumeSessions(Created(Moment(c, DoConnect(hash, hashOk, ok), k).file), o);
  }

  predicate StartsServer(op: Op) {
    op.DoStartServer? || op.DoRestartServer? || (op.CrashIn? && StartsServer(op.during))
  }

  predicate StartsClient(op: Op) {
    op.DoStartClient? || op.DoRestartClient? || op.DoConnect? || (op.CrashIn? && StartsClient(op.during))
  }

  predicate NoServerStart(ops: seq<Op>) {
    forall i :: 0 <= i < |ops| ==> !StartsServer(ops[i])
  }

  predicate NoClientStart(ops: seq<Op>) {
    forall i :: 0 <= i < |ops| ==> !StartsClient(ops[i])
  }

  predicate ServerDown(c: Ctl) {
    c.server.None? && !c.settings.bridgeRunning
  }

  predicate ClientDown(c: Ctl) {
    c.client.None? && !c.settings.clientRunning
  }

  /**
   * A role the operator stopped stays stopped through every later operation, crash and resume that
   * is not itself a start of that role.
   */
  lemma StoppedStaysStopped(file: Option<Settings>, before: seq<Op>, ops: seq<Op>)
    ensures var c := History(Created(file), before);
      && (NoServerStart(ops) ==> ServerDown(History(StopServer(c), ops)))
      && (NoClientStart(ops) ==> ClientDown(History(StopClient(c), ops)))
  {
    var c := History(Created(file), before);
    AlwaysRecorded(file, before);
    if NoServerStart(ops) {
      ServerStaysDown(StopServer(c), ops);
    }
    if NoClientStart(ops) {
      ClientStaysDown(StopClient(c), ops);
    }
  }

  lemma {:induction false} ServerStepDown(c: Ctl, op: Op)
    requires Recorded(c) && ServerDown(c) && !StartsServer(op)
    ensures ServerDown(Apply(c, op))
  {
    if op.DoResume? {
      ResumeSessions(c, op.o);
    } else if op.CrashIn? {
      MomentRecorded(c, op.during, op.k);
      if op.during.DoResume? {
        ResumeMomentKeeps(c, op.during.o, op.k);
      } else {
        ServerStepDown(c, op.during);
      }
    }
  }

  lemma {:induction false} ClientStepDown(c: Ctl, op: Op)
    requires Recorded(c) && ClientDown(c) && !StartsClient(op)
    ensures ClientDown(Apply(c, op))
  {
    if op.DoResume? {
      ResumeSessions(c, op.o);
    } else if op.CrashIn? {
      MomentRecorded(c, op.during, op.k);
      if op.during.DoResume? {
        ResumeMomentKeeps(c, op.during.o, op.k);
      } else {
        ClientStepDown(c, op.during);
      }
    }
  }

  lemma {:induction false} ServerStaysDown(c: Ctl, ops: seq<Op>)
    requires Recorded(c) && ServerDown(c) && NoServerStart(ops)
    ensures Recorded(History(c, ops)) && ServerDown(History(c, ops))
  {
    if ops != [] {
      var before, op := ops[..|ops| - 1], ops[|ops| - 1];
      ServerStaysDown(c, before);
      ApplyKeeps(History(c, before), op);
      ServerStepDown(History(c, before), op);
    }
  }

  lemma {:induction false} ClientStaysDown(c: Ctl, ops: seq<Op>)
    requires Recorded(c) && ClientDown(c) && NoClientStart(ops)
    ensures Recorded(History(c, ops)) && ClientDown(History(c, ops))
  {
    if ops != [] {
      var before, op := ops[..|ops| - 1], ops[|ops| - 1];
      ClientStaysDown(c, before);
      ApplyKeeps(History(c, before), op);
      ClientStepDown(History(c, before), op);
    }
  }

  lemma {:induction false} ResumeFirstErrors(c: Ctl, saved: seq<InterfaceDescriptor>, attach: nat -> Attach, n: nat)
    requires n <= |saved|
    ensures c.errors <= ResumeFirst(c, saved, attach, n).errors
    ensures ResumeFirst(c, saved, attach, n).errors == [] ==>
      forall i :: 0 <= i < n ==> attach(i).Attaches? && SessionUp(c, saved[i].role) && !saved[i].kind.UnknownKind?
    ensures ResumeFirst(c, saved, attach, n).server == c.server && ResumeFirst(c, saved, attach, n).client == c.client
  {
    if n > 0 {
      ResumeFirstErrors(c, saved, attach, n - 1);
    }
  }

  /** A resume that reports nothing has brought back everything: sessions and interfaces. */
  lemma CleanResume(file: Option<Settings>, o: Outcomes)
    requires Resume(Created(file), o).errors == []
    ensures InSync(Resume(Created(file), o))
    ensures forall i :: 0 <= i < |UpsertAll(EndpointOf, Load(file).interfaces)| ==> o.attach(i).Attaches?
  {
    var c0 := Repaired(Created(file));
    var s := c0.settings;
    var c2 := ResumeClient(ResumeServer(c0, s, o.server), s, o.client);
    ResumeFirstErrors(c2, s.interfaces, o.attach, |s.interfaces|);
    ResumeSessions(Created(file), o);
  }

  /** The interface part of a resume is the one analysed in `Interfaces`. */
  lemma {:induction false} ResumeFirstList(c: Ctl, saved: seq<InterfaceDescriptor>, attach: nat -> Attach,
                                           effective: nat -> Attach, n: nat)
    requires n <= |saved|
    requires forall i :: 0 <= i < |saved| ==> effective(i) == AttachVia(c, saved[i].role, attach(i))
    ensures ResumeFirst(c, saved, attach, n).settings.interfaces
         == ReattachAll(c.settings.interfaces, saved, effective, n)
    ensures ResumeFirst(c, saved, attach, n).server == c.server && ResumeFirst(c, saved, attach, n).client == c.client
  {
    if n > 0 {
      ResumeFirstList(c, saved, attach, effective, n - 1);
    }
  }

  lemma SessionsKeepList(c: Ctl, s: Settings, serverOk: bool, clientOk: bool)
    ensures ResumeClient(ResumeServer(c, s, serverOk), s, clientOk).settings.interfaces == c.settings.interfaces
  {
    assert ResumeServer(c, s, serverOk).settings.interfaces == c.settings.interfaces;
  }

  lemma DsKeepsList(c: Ctl, s: Settings, ok: bool)
    ensures ResumeDs(c, s, ok).settings.interfaces == c.settings.interfaces
  {
  }

  lemma ResumeList(c: Ctl, o: Outcomes) returns (effective: nat -> Attach)
    ensures Resume(c, o).settings.interfaces == ResumeInterfaces(c.settings.interfaces, effective)
  {
    var c0 := Repaired(c);
    var s := c0.settings;
    var c2 := ResumeClient(ResumeServer(c0, s, o.server), s, o.client);
    effective := (i: nat) => if i < |s.interfaces| then AttachVia(c2, s.interfaces[i].role, o.attach(i)) else Fails;
    SessionsKeepList(c0, s, o.server, o.client);
    ResumeFirstList(c2, s.interfaces, o.attach, effective, |s.interfaces|);
    DsKeepsList(ResumeFirst(c2, s.interfaces, o.attach, |s.interfaces|), s, o.ds);
  }

  // ------------------------------------------------------ the dedicated server's settings

  predicate SameDs(a: Settings, b: Settings) {
    a.ds == b.ds && a.dsRunning == b.dsRunning
  }

  lemma {:induction false} ResumeFirstKeepsDs(c: Ctl, saved: seq<InterfaceDescriptor>, attach: nat -> Attach, n: nat)
    requires n <= |saved|
    ensures SameDs(ResumeFirst(c, saved, attach, n).settings, c.settings)
  {
    if n > 0 {
      ResumeFirstKeepsDs(c, saved, attach, n - 1);
    }
  }

  lemma SessionsKeepDs(c: Ctl, s: Settings, serverOk: bool, clientOk: bool)
    ensures SameDs(ResumeClient(ResumeServer(c, s, serverOk), s, clientOk).settings, c.settings)
  {
    assert SameDs(ResumeServer(c, s, serverOk).settings, c.settings);
  }

  lemma ResumeKeepsDs(c: Ctl, o: Outcomes)
    ensures SameDs(Resume(c, o).settings, c.settings)
  {
    var c0 := Repaired(c);
    var s := c0.settings;
    var c2 := ResumeClient(ResumeServer(c0, s, o.server), s, o.client);
    SessionsKeepDs(c0, s, o.server, o.client);
    ResumeFirstKeepsDs(c2, s.interfaces, o.attach, |s.interfaces|);
    var c3 := ResumeFirst(c2, s.interfaces, o.attach, |s.interfaces|);
    assert SameDs(c3.settings, s) && SameDs(ResumeDs(c3, s, o.ds).settings, s);
  }

  lemma ResumeMomentKeepsDs(c: Ctl, o: Outcomes, k: nat)
    ensures SameDs(ResumeMoment(c, o, k).settings, c.settings)
  {
    var c0 := Repaired(c);
    var s := c0.settings;
    SessionsKeepDs(c0, s, o.server, o.client);
    ResumeKeepsDs(c, o);
    if 3 <= k <= 3 + |s.interfaces| {
      ResumeFirstKeepsDs(ResumeClient(ResumeServer(c0, s, o.server), s, o.client), s.interfaces, o.attach, k - 3);
    }
  }

  predicate IsDsOp(op: Op) {
    op.DoDsStart? || op.DoDsStop? || op.DoChangelevel? || op.DoSetCheats? || (op.CrashIn? && IsDsOp(op.during))
  }

  predicate NoDsOp(ops: seq<Op>) {
    forall i :: 0 <= i < |ops| ==> !IsDsOp(ops[i])
  }

  lemma {:induction false} DsStep(c: Ctl, op: Op)
    requires Recorded(c) && !IsDsOp(op)
    ensures SameDs(Apply(c, op).settings, c.settings)
  {
    if op.DoResume? {
      ResumeKeepsDs(c, op.o);
    } else if op.CrashIn? {
      DsStep(c, op.during);
      DsInCrash(c, op.during, op.k);
    } else if IsServerOp(op) || IsClientOp(op) {
      SessionOpKeepsDs(c, op);
    } else {
      ListOpKeepsDs(c, op);
    }
  }

  lemma {:induction false} DsInCrash(c: Ctl, during: Op, k: nat)
    requires Recorded(c) && SameDs(Apply(c, during).settings, c.settings)
    ensures SameDs(Apply(c, CrashIn(during, k)).settings, c.settings)
  {
    MomentRecorded(c, during, k);
    if during.DoResume? {
      ResumeMomentKeepsDs(c, during.o, k);
    }
  }

  lemma {:induction false} DsUntouched(c: Ctl, ops: seq<Op>)
    requires Recorded(c) && NoDsOp(ops)
    ensures Recorded(History(c, ops)) && SameDs(History(c, ops).settings, c.settings)
  {
    if ops != [] {
      var before, op := ops[..|ops| - 1], ops[|ops| - 1];
      DsUntouched(c, before);
      ApplyKeeps(History(c, before), op);
      DsStep(History(c, before), op);
    }
  }

  /**
   * A map change and a cheat setting made live come back after any operations on the bridge,
   * crashes and resumes: the saved arguments have them, and nothing else of them has changed.
   */
  lemma LiveChangesSurvive(file: Option<Settings>, before: seq<Op>, map_: string, enabled: bool, ops: seq<Op>)
    requires History(Created(file), before).settings.ds.Some? && NoDsOp(ops)
    ensures var c := History(Created(file), before);
      var c' := History(DsSetCheats(DsChangelevel(c, map_, true), enabled, true), ops);
      && c'.settings.ds == Some(c.settings.ds.value.(map_ := map_, svCheats := enabled))
      && c'.settings.dsRunning == c.settings.dsRunning
      && Load(c'.file) == c'.settings
  {
    var c := History(Created(file), before);
    AlwaysRecorded(file, before);
    DsUntouched(DsSetCheats(DsChangelevel(c, map_, true), enabled, true), ops);
  }

  // -------------------------------------------------------- interfaces in every history

  /** What a step leaves of a list: its shape, and that it has no duplicates if it had none. */
  ghost predicate ListKept(before: seq<InterfaceDescriptor>, after: seq<InterfaceDescriptor>) {
    AllShaped(after) && (Distinct(EndpointOf, before) ==> Distinct(EndpointOf, after))
  }

  /** Removing leaves exactly the entries not captured under the id, in their order. */
  lemma {:induction false} WithoutIdExact(xs: seq<InterfaceDescriptor>, id: string, stay: seq<bool>)
    requires |stay| == |xs| && forall i :: 0 <= i < |xs| ==> stay[i] == !HasId(xs[i], id)
    ensures WithoutId(xs, id) == Filter(xs, stay)
  {
    if xs != [] {
      WithoutIdExact(xs[..|xs| - 1], id, stay[..|xs| - 1]);
    }
  }

  lemma {:induction false} WithoutIdKeeps(xs: seq<InterfaceDescriptor>, id: string)
    requires AllShaped(xs)
    ensures ListKept(xs, WithoutId(xs, id))
    ensures forall i :: 0 <= i < |WithoutId(xs, id)| ==> WithoutId(xs, id)[i] in xs && !HasId(WithoutId(xs, id)[i], id)
  {
    if xs != [] {
      WithoutIdKeeps(xs[..|xs| - 1], id);
    }
  }

  lemma UpsertKeeps(xs: seq<InterfaceDescriptor>, d: InterfaceDescriptor)
    requires AllShaped(xs) && Shaped(d)
    ensures ListKept(xs, Upsert(EndpointOf, xs, d))
  {
    if Distinct(EndpointOf, xs) {
      UpsertKeepsDistinct(EndpointOf, xs, d);
    }
    UpsertAt(EndpointOf, xs, d, Position(EndpointOf, xs, d));
  }

  /** The list with new ids here and there: as a resume leaves a repaired list. */
  lemma NewIdsKeep(saved: seq<InterfaceDescriptor>, outcome: nat -> Attach, n: nat)
    requires n <= |saved| && Distinct(EndpointOf, saved) && AllShaped(saved)
    ensures EqualUpToIds(ReattachAll(saved, saved, outcome, n), saved)
    ensures ListKept(saved, ReattachAll(saved, saved, outcome, n))
  {
    ReattachKeeps(saved, outcome, n);
    var r := ReattachAll(saved, saved, outcome, n);
    assert forall i :: 0 <= i < |r| ==> EndpointOf(r[i]) == EndpointOf(saved[i]);
  }

  /** A resume leaves the repaired list, with new ids where interfaces were attached. */
  lemma ResumeKeepsList(c: Ctl, o: Outcomes)
    requires AllShaped(c.settings.interfaces)
    ensures EqualUpToIds(Resume(c, o).settings.interfaces, UpsertAll(EndpointOf, c.settings.interfaces))
    ensures ListKept(c.settings.interfaces, Resume(c, o).settings.interfaces)
  {
    var list := c.settings.interfaces;
    var saved := UpsertAll(EndpointOf, list);
    var effective := ResumeList(c, o);
    ShapedSaved(list);
    UpsertAllExact(EndpointOf, list);
    NewIdsKeep(saved, effective, |saved|);
  }

  /** The list at a moment inside a resume: the repaired one, with some of its entries re-attached. */
  lemma ResumeMomentList(c: Ctl, o: Outcomes, k: nat) returns (effective: nat -> Attach, j: nat)
    requires k > 0
    ensures var saved := UpsertAll(EndpointOf, c.settings.interfaces);
      j <= |saved| && ResumeMoment(c, o, k).settings.interfaces == ReattachAll(saved, saved, effective, j)
  {
    var c0 := Repaired(c);
    var s := c0.settings;
    var saved := s.interfaces;
    effective, j := (i: nat) => Fails, 0;
    if k > 3 + |saved| {
      effective := ResumeList(c, o);
      j := |saved|;
    } else if k >= 3 {
      effective := FirstReattached(c0, o, k - 3);
      j := k - 3;
    } else {
      EarlyMomentList(c, o, k);
    }
  }

  lemma EarlyMomentList(c: Ctl, o: Outcomes, k: nat)
    requires k in {1, 2}
    ensures ResumeMoment(c, o, k).settings.interfaces == UpsertAll(EndpointOf, c.settings.interfaces)
  {
  }

  lemma FirstReattached(c0: Ctl, o: Outcomes, n: nat) returns (effective: nat -> Attach)
    requires n <= |c0.settings.interfaces|
    ensures var s := c0.settings; var c2 := ResumeClient(ResumeServer(c0, s, o.server), s, o.client);
      ResumeFirst(c2, s.interfaces, o.attach, n).settings.interfaces
      == ReattachAll(s.interfaces, s.interfaces, effective, n)
  {
    var s := c0.settings;
    var c2 := ResumeClient(ResumeServer(c0, s, o.server), s, o.client);
    effective := (i: nat) => if i < |s.interfaces| then AttachVia(c2, s.interfaces[i].role, o.attach(i)) else Fails;
    SessionsKeepList(c0, s, o.server, o.client);
    ResumeFirstList(c2, s.interfaces, o.attach, effective, n);
  }

  lemma ResumeMomentKeepsList(c: Ctl, o: Outcomes, k: nat)
    requires AllShaped(c.settings.interfaces)
    ensures ListKept(c.settings.interfaces, ResumeMoment(c, o, k).settings.interfaces)
  {
    if k > 0 {
      var effective, j := ResumeMomentList(c, o, k);
      ShapedSaved(c.settings.interfaces);
      UpsertAllExact(EndpointOf, c.settings.interfaces);
      NewIdsKeep(UpsertAll(EndpointOf, c.settings.interfaces), effective, j);
    }
  }

  lemma AddKeepsList(c: Ctl, d: InterfaceDescriptor, a: Attach)
    requires AllShaped(c.settings.interfaces) && Shaped(d)
    ensures ListKept(c.settings.interfaces, AddInterface(c, d, a).settings.interfaces)
  {
    if AttachVia(c, d.role, a).Attaches? {
      UpsertKeeps(c.settings.interfaces, d.(id := a.id));
    }
  }

  lemma {:induction false} MomentKeepsList(c: Ctl, op: Op, k: nat)
    requires Recorded(c) && AllShaped(c.settings.interfaces)
    requires ListKept(c.settings.interfaces, Apply(c, op).settings.interfaces)
    ensures ListKept(c.settings.interfaces, Apply(c, CrashIn(op, k)).settings.interfaces)
  {
    MomentRecorded(c, op, k);
    if op.DoResume? {
      ResumeMomentKeepsList(c, op.o, k);
    }
  }

  lemma {:induction false} ListStep(c: Ctl, op: Op)
    requires Recorded(c) && AllShaped(c.settings.interfaces)
    ensures ListKept(c.settings.interfaces, Apply(c, op).settings.interfaces)
  {
    match op
    case DoAdd(n, role, name, pass, a) => AddKeepsList(c, Descriptor(n, role, name, pass), a);
    case DoRemove(id, _) => WithoutIdKeeps(c.settings.interfaces, id);
    case DoResume(o) => ResumeKeepsList(c, o);
    case CrashIn(during, k) =>
      ListStep(c, during);
      MomentKeepsList(c, during, k);
    case _ => OtherKeepsList(c, op);
  }

  lemma OtherKeepsList(c: Ctl, op: Op)
    requires Recorded(c) && !op.DoAdd? && !op.DoRemove? && !op.DoResume? && !op.CrashIn?
    ensures Apply(c, op).settings.interfaces == c.settings.interfaces
  {
  }

  /** Adding, removing, resuming and crashing keep the shape, and make no duplicates. */
  lemma {:induction false} AlwaysShaped(file: Option<Settings>, ops: seq<Op>)
    requires AllShaped(Load(file).interfaces)
    ensures ListKept(Load(file).interfaces, History(Created(file), ops).settings.interfaces)
  {
    if ops != [] {
      var before := ops[..|ops| - 1];
      AlwaysShaped(file, before);
      AlwaysRecorded(file, before);
      ListStep(History(Created(file), before), ops[|ops| - 1]);
    }
  }

  /**
   * After any history, a crash and a resume, whatever comes up: the saved interfaces are those of
   * before the crash without duplicates, in the same order with the same IFAC fields; at most their
   * ids differ. From a file without duplicates there never are any.
   */
  lemma CrashKeepsInterfaces(file: Option<Settings>, ops: seq<Op>, o: Outcomes)
    requires AllShaped(Load(file).interfaces)
    ensures var c := History(Created(file), ops); var list := c.settings.interfaces;
      && EqualUpToIds(Resume(Created(c.file), o).settings.interfaces, UpsertAll(EndpointOf, list))
      && (Distinct(EndpointOf, Load(file).interfaces) ==> UpsertAll(EndpointOf, list) == list)
  {
    var c := History(Created(file), ops);
    AlwaysShaped(file, ops);
    AlwaysRecorded(file, ops);
    ResumeKeepsList(Created(c.file), o);
    if Distinct(EndpointOf, Load(file).interfaces) {
      UpsertAllDistinct(EndpointOf, c.settings.interfaces);
    }
  }

  // ----------------------------------------------------- an interface that was removed

  predicate Absent(list: seq<InterfaceDescriptor>, e: Endpoint) {
    forall i :: 0 <= i < |list| ==> EndpointOf(list[i]) != e
  }

  predicate Adds(op: Op, e: Endpoint) {
    (op.DoAdd? && EndpointOf(Descriptor(op.n, op.role, op.ifacName, op.ifacPassphrase)) == e)
    || (op.CrashIn? && Adds(op.during, e))
  }

  predicate NeverAdds(ops: seq<Op>, e: Endpoint) {
    forall i :: 0 <= i < |ops| ==> !Adds(ops[i], e)
  }

  lemma {:induction false} RepairedAbsent(list: seq<InterfaceDescriptor>, e: Endpoint)
    requires Absent(list, e)
    ensures Absent(UpsertAll(EndpointOf, list), e)
  {
    if list != [] {
      var before, d := list[..|list| - 1], list[|list| - 1];
      RepairedAbsent(before, e);
      var r := UpsertAll(EndpointOf, before);
      UpsertAt(EndpointOf, r, d, Position(EndpointOf, r, d));
    }
  }

  lemma SameEndpointsAbsent(a: seq<InterfaceDescriptor>, b: seq<InterfaceDescriptor>, e: Endpoint)
    requires EqualUpToIds(a, b) && Absent(b, e)
    ensures Absent(a, e)
  {
    forall i | 0 <= i < |a| ensures EndpointOf(a[i]) != e {
      assert a[i] == b[i].(id := a[i].id);
    }
  }

  lemma ResumeMomentAbsent(c: Ctl, o: Outcomes, k: nat, e: Endpoint)
    requires AllShaped(c.settings.interfaces) && Absent(c.settings.interfaces, e)
    ensures Absent(ResumeMoment(c, o, k).settings.interfaces, e)
  {
    if k > 0 {
      var effective, j := ResumeMomentList(c, o, k);
      ReattachedAbsent(c.settings.interfaces, effective, j, e);
    }
  }

  lemma ReattachedAbsent(list: seq<InterfaceDescriptor>, outcome: nat -> Attach, n: nat, e: Endpoint)
    requires AllShaped(list) && Absent(list, e) && n <= |UpsertAll(EndpointOf, list)|
    ensures Absent(ReattachAll(UpsertAll(EndpointOf, list), UpsertAll(EndpointOf, list), outcome, n), e)
  {
    var saved := UpsertAll(EndpointOf, list);
    RepairedAbsent(list, e);
    ShapedSaved(list);
    UpsertAllExact(EndpointOf, list);
    NewIdsKeep(saved, outcome, n);
    SameEndpointsAbsent(ReattachAll(saved, saved, outcome, n), saved, e);
  }

  lemma ResumeAbsent(c: Ctl, o: Outcomes, e: Endpoint)
    requires AllShaped(c.settings.interfaces) && Absent(c.settings.interfaces, e)
    ensures Absent(Resume(c, o).settings.interfaces, e)
  {
    var effective := ResumeList(c, o);
    ReattachedAbsent(c.settings.interfaces, effective, |UpsertAll(EndpointOf, c.settings.interfaces)|, e);
  }

  lemma AddAbsent(list: seq<InterfaceDescriptor>, d: InterfaceDescriptor, e: Endpoint)
    requires Absent(list, e) && EndpointOf(d) != e
    ensures Absent(Upsert(EndpointOf, list, d), e)
  {
    UpsertAt(EndpointOf, list, d, Position(EndpointOf, list, d));
  }

  lemma AddInterfaceAbsent(c: Ctl, d: InterfaceDescriptor, a: Attach, e: Endpoint)
    requires Absent(c.settings.interfaces, e) && EndpointOf(d) != e
    ensures Absent(AddInterface(c, d, a).settings.interfaces, e)
  {
    if AttachVia(c, d.role, a).Attaches? {
      AddAbsent(c.settings.interfaces, d.(id := a.id), e);
    }
  }

  /** Every entry for the endpoint was captured under the id. */
  predicate CapturedAs(list: seq<InterfaceDescriptor>, e: Endpoint, id: string) {
    forall i :: 0 <= i < |list| && EndpointOf(list[i]) == e ==> HasId(list[i], id)
  }

  lemma AbsentSnoc(list: seq<InterfaceDescriptor>, d: InterfaceDescriptor, e: Endpoint)
    ensures Absent(list + [d], e) <==> Absent(list, e) && EndpointOf(d) != e
  {
    var all := list + [d];
    assert forall i :: 0 <= i < |list| ==> all[i] == list[i];
    assert all[|list|] == d;
  }

  lemma CapturedSnoc(list: seq<InterfaceDescriptor>, d: InterfaceDescriptor, e: Endpoint, id: string)
    ensures CapturedAs(list + [d], e, id) <==> CapturedAs(list, e, id) && (EndpointOf(d) == e ==> HasId(d, id))
  {
    var all := list + [d];
    assert forall i :: 0 <= i < |list| ==> all[i] == list[i];
    assert all[|list|] == d;
  }

  /** Removing an id leaves no entry for an endpoint exactly if all its entries were captured under it. */
  lemma {:induction false} RemoveAbsent(list: seq<InterfaceDescriptor>, id: string, e: Endpoint)
    ensures Absent(WithoutId(list, id), e) <==> CapturedAs(list, e, id)
  {
    if list != [] {
      var before, d := list[..|list| - 1], list[|list| - 1];
      RemoveAbsent(before, id, e);
      assert list == before + [d];
      AbsentSnoc(WithoutId(before, id), d, e);
      assert WithoutId(before, id) + [] == WithoutId(before, id);
      CapturedSnoc(before, d, e, id);
    }
  }

  lemma CrashInAbsent(c: Ctl, during: Op, k: nat, e: Endpoint)
    requires Recorded(c) && Absent(Moment(c, during, k).settings.interfaces, e)
    ensures Absent(Apply(c, CrashIn(during, k)).settings.interfaces, e)
  {
    MomentRecorded(c, during, k);
  }

  lemma {:induction false} MomentAbsent(c: Ctl, op: Op, k: nat, e: Endpoint)
    requires AllShaped(c.settings.interfaces) && Absent(c.settings.interfaces, e)
    requires Absent(Apply(c, op).settings.interfaces, e)
    ensures Absent(Moment(c, op, k).settings.interfaces, e)
  {
    if op.DoResume? {
      ResumeMomentAbsent(c, op.o, k, e);
    }
  }

  lemma {:induction false} AbsentStep(c: Ctl, op: Op, e: Endpoint)
    requires Recorded(c) && AllShaped(c.settings.interfaces) && Absent(c.settings.interfaces, e) && !Adds(op, e)
    ensures Absent(Apply(c, op).settings.interfaces, e)
  {
    match op
    case DoAdd(n, role, name, pass, a) => AddInterfaceAbsent(c, Descriptor(n, role, name, pass), a, e);
    case DoRemove(id, _) =>
      RemoveAbsent(c.settings.interfaces, id, e);
      assert CapturedAs(c.settings.interfaces, e, id);
    case DoResume(o) => ResumeAbsent(c, o, e);
    case CrashIn(during, k) =>
      AbsentStep(c, during, e);
      MomentAbsent(c, during, k, e);
      CrashInAbsent(c, during, k, e);
    case _ => OtherKeepsList(c, op);
  }

  lemma {:induction false} StaysAbsent(c: Ctl, ops: seq<Op>, e: Endpoint)
    requires Recorded(c) && AllShaped(c.settings.interfaces) && Absent(c.settings.interfaces, e) && NeverAdds(ops, e)
    ensures Recorded(History(c, ops)) && AllShaped(History(c, ops).settings.interfaces)
    ensures Absent(History(c, ops).settings.interfaces, e)
  {
    if ops != [] {
      var before, op := ops[..|ops| - 1], ops[|ops| - 1];
      StaysAbsent(c, before, e);
      ApplyKeeps(History(c, before), op);
      ListStep(History(c, before), op);
      AbsentStep(History(c, before), op, e);
    }
  }

  /**
   * An interface is out of the list after a removal if and only if its entries were captured under
   * the id removed; and then it is not in the list again, after any crashes, resumes and other
   * operations, until somebody adds that endpoint again.
   */
  lemma RemovedStaysRemoved(file: Option<Settings>, before: seq<Op>, id: string, e: Endpoint, ops: seq<Op>)
    requires AllShaped(Load(file).interfaces) && NeverAdds(ops, e)
    ensures var c := History(Created(file), before); var c' := RemoveInterface(c, id, true);
      && (Absent(c'.settings.interfaces, e) <==> CapturedAs(c.settings.interfaces, e, id))
      && (Absent(c'.settings.interfaces, e) ==> Absent(History(c', ops).settings.interfaces, e))
  {
    var c := History(Created(file), before);
    AlwaysRecorded(file, before);
    AlwaysShaped(file, before);
    WithoutIdKeeps(c.settings.interfaces, id);
    RemoveAbsent(c.settings.interfaces, id, e);
    if CapturedAs(c.settings.interfaces, e, id) {
      StaysAbsent(RemoveInterface(c, id, true), ops, e);
    }
  }
}
