/**
 * What the operations of `BridgeController` are given is what runs, what is saved, and what every
 * later resume brings back.
 */
module Starts {
  import opened Basics
  import opened Upserts
  import opened Interfaces
  import opened Controller
  import opened Histories

  // ------------------------------------------------------------------- the bridge sessions

  /** The operation is not one of the operator's on the server, nor a crash inside one. */
  predicate LeavesServer(op: Op) {
    !IsServerOp(op) && (op.CrashIn? ==> LeavesServer(op.during))
  }

  predicate LeavesClient(op: Op) {
    !IsClientOp(op) && (op.CrashIn? ==> LeavesClient(op.during))
  }

  predicate AllLeaveServer(ops: seq<Op>) {
    forall i :: 0 <= i < |ops| ==> LeavesServer(ops[i])
  }

  predicate AllLeaveClient(ops: seq<Op>) {
    forall i :: 0 <= i < |ops| ==> LeavesClient(ops[i])
  }

  /** The file has these arguments with the flag set, and whatever server runs, runs with them. */
  predicate ServerIs(c: Ctl, args: ServerArgs) {
    && c.settings.bridge == Some(args) && c.settings.bridgeRunning && c.lastServer == Some(args)
    && (c.server.Some? ==> c.server == Some(args))
  }

  predicate ClientIs(c: Ctl, args: ClientArgs) {
    && c.settings.client == Some(args) && c.settings.clientRunning && c.lastClient == Some(args)
    && (c.client.Some? ==> c.client == Some(args))
  }

  lemma ResumeMomentSaved(c: Ctl, o: Outcomes, k: nat)
    requires Recorded(c)
    ensures var m := ResumeMoment(c, o, k);
      && m.settings.bridge == c.settings.bridge && m.settings.bridgeRunning == c.settings.bridgeRunning
      && m.settings.client == c.settings.client && m.settings.clientRunning == c.settings.clientRunning
  {
    if k > 3 + |Repaired(c).settings.interfaces| {
      ResumeSessions(c, o);
    } else if k >= 3 {
      LateMoment(c, o, k - 3);
    } else {
      EarlySaved(c, o, k);
    }
  }

  lemma EarlySaved(c: Ctl, o: Outcomes, k: nat)
    requires Recorded(c) && k < 3
    ensures var m := ResumeMoment(c, o, k);
      && m.settings.bridge == c.settings.bridge && m.settings.bridgeRunning == c.settings.bridgeRunning
      && m.settings.client == c.settings.client && m.settings.clientRunning == c.settings.clientRunning
  {
    RepairedKeeps(c);
  }

  lemma {:induction false} ServerIsKept(c: Ctl, op: Op, args: ServerArgs)
    requires Recorded(c) && ServerIs(c, args) && LeavesServer(op)
    ensures ServerIs(Apply(c, op), args)
  {
    if op.DoResume? {
      ResumeSessions(c, op.o);
    } else if op.CrashIn? {
      MomentRecorded(c, op.during, op.k);
      if op.during.DoResume? {
        ResumeMomentSaved(c, op.during.o, op.k);
      } else {
        ServerIsKept(c, op.during, args);
      }
    }
  }

  lemma {:induction false} ClientIsKept(c: Ctl, op: Op, args: ClientArgs)
    requires Recorded(c) && ClientIs(c, args) && LeavesClient(op)
    ensures ClientIs(Apply(c, op), args)
  {
    if op.DoResume? {
      ResumeSessions(c, op.o);
    } else if op.CrashIn? {
      MomentRecorded(c, op.during, op.k);
      if op.during.DoResume? {
        ResumeMomentSaved(c, op.during.o, op.k);
      } else {
        ClientIsKept(c, op.during, args);
      }
    }
  }

  lemma {:induction false} ServerIsAlways(c: Ctl, ops: seq<Op>, args: ServerArgs)
    requires Recorded(c) && ServerIs(c, args) && AllLeaveServer(ops)
    ensures Recorded(History(c, ops)) && ServerIs(History(c, ops), args)
  {
    if ops != [] {
      var before, op := ops[..|ops| - 1], ops[|ops| - 1];
      ServerIsAlways(c, before, args);
      ApplyKeeps(History(c, before), op);
      ServerIsKept(History(c, before), op, args);
    }
  }

  lemma {:induction false} ClientIsAlways(c: Ctl, ops: seq<Op>, args: ClientArgs)
    requires Recorded(c) && ClientIs(c, args) && AllLeaveClient(ops)
    ensures Recorded(History(c, ops)) && ClientIs(History(c, ops), args)
  {
    if ops != [] {
      var before, op := ops[..|ops| - 1], ops[|ops| - 1];
      ClientIsAlways(c, before, args);
      ApplyKeeps(History(c, before), op);
      ClientIsKept(History(c, before), op, args);
    }
  }

  /**
   * A start that succeeds runs the server with the arguments it is given, whatever ran before; and
   * through all later crashes, resumes and operations other than on the server, each resume in which
   * the server comes up runs those arguments. A start that is refused or fails changes nothing.
   */
  lemma ServerRunsAsStarted(file: Option<Settings>, before: seq<Op>, args: ServerArgs, ok: bool, ops: seq<Op>, o: Outcomes)
    requires AllLeaveServer(ops) && o.server
    ensures var c := History(Created(file), before); var c' := Apply(c, DoStartServer(args, ok));
      && (c.server.Some? || !ok ==> c' == c)
      && (c.server.None? && ok ==>
            && c'.server == Some(args) && c'.client == c.client
            && ServerIs(History(c', ops), args)
            && Resume(History(c', ops), o).server == Some(args)
            && Resume(Created(History(c', ops).file), o).server == Some(args))
  {
    var c := History(Created(file), before);
    AlwaysRecorded(file, before);
    if c.server.None? && ok {
      var c' := StartServer(c, args, ok);
      ServerIsAlways(c', ops, args);
      ResumeSessions(History(c', ops), o);
      ResumeSessions(Created(History(c', ops).file), o);
    }
  }

  /** The same for the client. */
  lemma ClientRunsAsStarted(file: Option<Settings>, before: seq<Op>, args: ClientArgs, ok: bool, ops: seq<Op>, o: Outcomes)
    requires AllLeaveClient(ops) && o.client
    ensures var c := History(Created(file), before); var c' := Apply(c, DoStartClient(args, ok));
      && (c.client.Some? || !ok ==> c' == c)
      && (c.client.None? && ok ==>
            && c'.client == Some(args) && c'.server == c.server
            && ClientIs(History(c', ops), args)
            && Resume(History(c', ops), o).client == Some(args)
            && Resume(Created(History(c', ops).file), o).client == Some(args))
  {
    var c := History(Created(file), before);
    AlwaysRecorded(file, before);
    if c.client.None? && ok {
      var c' := StartClient(c, args, ok);
      ClientIsAlways(c', ops, args);
      ResumeSessions(History(c', ops), o);
      ResumeSessions(Created(History(c', ops).file), o);
    }
  }

  /** A restart that succeeds runs what is saved, whether or not the role ran; one without saved arguments is refused. */
  lemma RestartRunsSaved(file: Option<Settings>, ops: seq<Op>)
    ensures var c := History(Created(file), ops);
      && Apply(c, DoRestartServer(true)).server == c.settings.bridge
      && Apply(c, DoRestartClient(true)).client == c.settings.client
      && Apply(c, DoRestartServer(false)).server == None && Apply(c, DoRestartClient(false)).client == None
      && (c.settings.bridge.None? ==> forall ok :: Apply(c, DoRestartServer(ok)) == c)
      && (c.settings.client.None? ==> forall ok :: Apply(c, DoRestartClient(ok)) == c)
  {
    AlwaysRecorded(file, ops);
  }

  /**
   * Connecting to a server of the list runs the client with its last arguments and the clicked hash,
   * whether or not one ran, and that is what every later resume brings back. Without last arguments
   * or with a malformed hash nothing changes.
   */
  lemma ConnectRunsClicked(file: Option<Settings>, before: seq<Op>, hash: string, hashOk: bool, ops: seq<Op>, o: Outcomes)
    requires AllLeaveClient(ops) && o.client
    ensures var c := History(Created(file), before); var c' := Apply(c, DoConnect(hash, hashOk, true));
      && (c.settings.client.None? || !hashOk ==> c' == c)
      && (c.settings.client.Some? && hashOk ==>
            var args := c.settings.client.value.(serverHash := Some(hash));
            && c'.client == Some(args) && c'.server == c.server
            && ClientIs(History(c', ops), args)
            && Resume(Created(History(c', ops).file), o).client == Some(args))
  {
    var c := History(Created(file), before);
    AlwaysRecorded(file, before);
    if c.settings.client.Some? && hashOk {
      var args := c.settings.client.value.(serverHash := Some(hash));
      var c' := ConnectAndLaunch(c, hash, true, true);
      ApplyKeeps(c, DoConnect(hash, true, true));
      ClientIsAlways(c', ops, args);
      ResumeSessions(Created(History(c', ops).file), o);
    }
  }

  // ------------------------------------------------------------------- the dedicated server

  /**
   * The arguments of a dedicated server that was started, and that it runs, stay saved through all
   * operations on the bridge, crashes and resumes; after a stop they stay, and it is not restarted.
   */
  lemma DsAsStarted(file: Option<Settings>, before: seq<Op>, args: DsStartArgs, ops: seq<Op>, o: Outcomes)
    requires NoDsOp(ops)
    ensures var c := History(Created(file), before);
      var up := History(Apply(c, DoDsStart(args, true)), ops);
      var down := History(Apply(c, DoDsStop(true)), ops);
      && up.settings.ds == Some(args) && up.settings.dsRunning
      && down.settings.ds == c.settings.ds && !down.settings.dsRunning
      && (DsTrouble in Resume(Created(up.file), o).errors <==> !o.ds)
      && DsTrouble !in Resume(Created(down.file), o).errors
      && Apply(c, DoDsStart(args, false)) == c && Apply(c, DoDsStop(false)) == c
  {
    var c := History(Created(file), before);
    AlwaysRecorded(file, before);
    DsUntouched(DsStart(c, args, true), ops);
    DsUntouched(DsStop(c, true), ops);
    DsTriedAgain(History(DsStart(c, args, true), ops), o);
    DsTriedAgain(History(DsStop(c, true), ops), o);
  }

  /** A resume after a crash tries the dedicated server exactly if it is saved as running. */
  lemma DsTriedAgain(c: Ctl, o: Outcomes)
    requires Recorded(c)
    ensures DsTrouble in Resume(Created(c.file), o).errors
       <==> c.settings.dsRunning && c.settings.ds.Some? && !o.ds
  {
    ErrorsExact(Created(c.file), o);
    NoDsTrouble(Created(c.file), o);
  }

  // ----------------------------------------------------------------- what a resume reports

  function When(failed: bool, t: Trouble): seq<Trouble> {
    if failed then [t] else []
  }

  /** A session of this role runs after a resume has started the flagged ones. */
  predicate RoleUp(c: Ctl, role: Role, o: Outcomes) {
    match role
    case Server => c.server.Some? || (c.settings.bridgeRunning && c.settings.bridge.Some? && o.server)
    case Client => c.client.Some? || (c.settings.clientRunning && c.settings.client.Some? && o.client)
    case UnknownRole(_) => false
  }

  /** The saved interface is attached again: of a known kind, with a session of its role, and no failure. */
  predicate ComesBack(c: Ctl, d: InterfaceDescriptor, a: Attach, o: Outcomes) {
    d.kind in {Tcp, Udp, Websocket, Auto} && RoleUp(c, d.role, o) && a.Attaches?
  }

  function InterfaceTroubles(c: Ctl, saved: seq<InterfaceDescriptor>, o: Outcomes, n: nat): seq<Trouble>
    requires n <= |saved|
  {
    if n == 0 then []
    else
      var d := saved[n - 1];
      InterfaceTroubles(c, saved, o, n - 1) + When(!ComesBack(c, d, o.attach(n - 1), o), InterfaceTrouble(d))
  }

  /** Everything that is flagged and does not come up, in the order of the resume; what already runs is refused. */
  function Troubles(c: Ctl, o: Outcomes): seq<Trouble> {
    var s := c.settings;
    var saved := UpsertAll(EndpointOf, s.interfaces);
    When(s.bridgeRunning && s.bridge.Some? && (c.server.Some? || !o.server), ServerTrouble)
    + When(s.clientRunning && s.client.Some? && (c.client.Some? || !o.client), ClientTrouble)
    + InterfaceTroubles(c, saved, o, |saved|)
    + When(s.dsRunning && s.ds.Some? && !o.ds, DsTrouble)
  }

  lemma {:induction false} InterfaceErrors(c: Ctl, c2: Ctl, saved: seq<InterfaceDescriptor>, o: Outcomes, n: nat)
    requires n <= |saved| && forall role :: SessionUp(c2, role) <==> RoleUp(c, role, o)
    ensures ResumeFirst(c2, saved, o.attach, n).errors == c2.errors + InterfaceTroubles(c, saved, o, n)
    ensures forall role :: SessionUp(ResumeFirst(c2, saved, o.attach, n), role) <==> SessionUp(c2, role)
  {
    if n == 0 {
      assert c2.errors + [] == c2.errors;
    } else {
      InterfaceErrors(c, c2, saved, o, n - 1);
      var d, a := saved[n - 1], o.attach(n - 1);
      OneInterface(c, ResumeFirst(c2, saved, o.attach, n - 1), d, a, o);
      Associative(c2.errors, InterfaceTroubles(c, saved, o, n - 1), When(!ComesBack(c, d, a, o), InterfaceTrouble(d)));
    }
  }

  lemma OneInterface(c: Ctl, c': Ctl, d: InterfaceDescriptor, a: Attach, o: Outcomes)
    requires SessionUp(c', d.role) <==> RoleUp(c, d.role, o)
    ensures ResumeInterface(c', d, a).errors == c'.errors + When(!ComesBack(c, d, a, o), InterfaceTrouble(d))
    ensures forall role :: SessionUp(ResumeInterface(c', d, a), role) <==> SessionUp(c', role)
  {
    assert c'.errors + [] == c'.errors;
  }

  lemma ServerErrors(c0: Ctl, s: Settings, ok: bool)
    requires s == c0.settings && c0.errors == []
    ensures var c1 := ResumeServer(c0, s, ok);
      && c1.errors == When(s.bridgeRunning && s.bridge.Some? && (c0.server.Some? || !ok), ServerTrouble)
      && (c1.server.Some? <==> c0.server.Some? || (s.bridgeRunning && s.bridge.Some? && ok))
      && c1.client == c0.client
  {
  }

  lemma ClientErrors(c1: Ctl, s: Settings, ok: bool)
    ensures var c2 := ResumeClient(c1, s, ok);
      && c2.errors == c1.errors + When(s.clientRunning && s.client.Some? && (c1.client.Some? || !ok), ClientTrouble)
      && (c2.client.Some? <==> c1.client.Some? || (s.clientRunning && s.client.Some? && ok))
      && c2.server == c1.server
  {
    assert c1.errors + [] == c1.errors;
  }

  lemma SessionsUp(c: Ctl, o: Outcomes)
    ensures var c0 := Repaired(c); var s := c0.settings;
      var c2 := ResumeClient(ResumeServer(c0, s, o.server), s, o.client);
      forall role :: SessionUp(c2, role) <==> RoleUp(c, role, o)
  {
    var c0 := Repaired(c);
    ServerErrors(c0, c0.settings, o.server);
    ClientErrors(ResumeServer(c0, c0.settings, o.server), c0.settings, o.client);
  }

  lemma SessionErrors(c: Ctl, o: Outcomes)
    ensures var c0 := Repaired(c); var s := c0.settings;
      ResumeClient(ResumeServer(c0, s, o.server), s, o.client).errors
      == When(s.bridgeRunning && s.bridge.Some? && (c.server.Some? || !o.server), ServerTrouble)
         + When(s.clientRunning && s.client.Some? && (c.client.Some? || !o.client), ClientTrouble)
  {
    var c0 := Repaired(c);
    ServerErrors(c0, c0.settings, o.server);
    ClientErrors(ResumeServer(c0, c0.settings, o.server), c0.settings, o.client);
  }

  lemma LaterErrors(c: Ctl, c2: Ctl, s: Settings, o: Outcomes)
    requires forall role :: SessionUp(c2, role) <==> RoleUp(c, role, o)
    ensures ResumeDs(ResumeFirst(c2, s.interfaces, o.attach, |s.interfaces|), s, o.ds).errors
         == c2.errors + InterfaceTroubles(c, s.interfaces, o, |s.interfaces|)
            + When(s.dsRunning && s.ds.Some? && !o.ds, DsTrouble)
  {
    InterfaceErrors(c, c2, s.interfaces, o, |s.interfaces|);
    DsErrors(ResumeFirst(c2, s.interfaces, o.attach, |s.interfaces|), s, o.ds);
  }

  /** A resume reports exactly what should run and did not come up, and forgets what was reported before. */
  lemma ErrorsExact(c: Ctl, o: Outcomes)
    ensures Resume(c, o).errors == Troubles(c, o)
  {
    var c0 := Repaired(c);
    var c2 := ResumeClient(ResumeServer(c0, c0.settings, o.server), c0.settings, o.client);
    SessionErrors(c, o);
    SessionsUp(c, o);
    LaterErrors(c, c2, c0.settings, o);
  }

  lemma DsErrors(c: Ctl, s: Settings, ok: bool)
    ensures ResumeDs(c, s, ok).errors == c.errors + When(s.dsRunning && s.ds.Some? && !ok, DsTrouble)
  {
    assert c.errors + [] == c.errors;
  }

  lemma {:induction false} TroubleMembers(c: Ctl, saved: seq<InterfaceDescriptor>, o: Outcomes, n: nat)
    requires n <= |saved|
    ensures DsTrouble !in InterfaceTroubles(c, saved, o, n)
    ensures InterfaceTroubles(c, saved, o, n) == []
       <==> forall i :: 0 <= i < n ==> ComesBack(c, saved[i], o.attach(i), o)
  {
    if n > 0 {
      TroubleMembers(c, saved, o, n - 1);
    }
  }

  lemma NoDsTrouble(c: Ctl, o: Outcomes)
    ensures DsTrouble in Troubles(c, o) <==> c.settings.dsRunning && c.settings.ds.Some? && !o.ds
  {
    var saved := UpsertAll(EndpointOf, c.settings.interfaces);
    TroubleMembers(c, saved, o, |saved|);
  }

  /**
   * A resume reports nothing if and only if all that is flagged was down and came up: sessions,
   * interfaces, dedicated server.
   */
  lemma CleanExactly(c: Ctl, o: Outcomes)
    ensures var s := c.settings; var saved := UpsertAll(EndpointOf, s.interfaces);
      Resume(c, o).errors == []
      <==> && (s.bridgeRunning && s.bridge.Some? ==> c.server.None? && o.server)
           && (s.clientRunning && s.client.Some? ==> c.client.None? && o.client)
           && (forall i :: 0 <= i < |saved| ==> ComesBack(c, saved[i], o.attach(i), o))
           && (s.dsRunning && s.ds.Some? ==> o.ds)
  {
    var saved := UpsertAll(EndpointOf, c.settings.interfaces);
    ErrorsExact(c, o);
    TroubleMembers(c, saved, o, |saved|);
  }

  /** Whatever is refused or fails changes nothing, and live changes without saved arguments change no settings. */
  lemma RefusedChangesNothing(c: Ctl, args: DsStartArgs, id: string, map_: string, enabled: bool)
    ensures DsStart(c, args, false) == c && DsStop(c, false) == c && RemoveInterface(c, id, false) == c
    ensures DsChangelevel(c, map_, false) == c && DsSetCheats(c, enabled, false) == c
    ensures c.settings.ds.None? ==>
      DsChangelevel(c, map_, true).settings == c.settings && DsSetCheats(c, enabled, true).settings == c.settings
  {
  }

  // ------------------------------------------------------------------------- interfaces

  lemma RecordedIsListed(list: seq<InterfaceDescriptor>, d: InterfaceDescriptor)
    ensures var list' := Upsert(EndpointOf, list, d);
      && d in list' && |list| <= |list'| <= |list| + 1
      && (|list'| == |list| + 1 <==> forall i :: 0 <= i < |list| ==> !SameFields(list[i], d))
      && forall i :: 0 <= i < |list| && !SameFields(list[i], d) ==> list'[i] == list[i]
  {
    var i := Position(EndpointOf, list, d);
    UpsertAt(EndpointOf, list, d, i);
    assert Upsert(EndpointOf, list, d)[i] == d;
    if i < |list| {
      assert SameFields(list[i], d);
    }
  }

  /**
   * An interface that is attached is in the list, as it was given and with its id; other interfaces
   * are as they were, and the list grows exactly if it had none with these fields. One that is not
   * attached, or has no session of its role, changes nothing.
   */
  lemma AddedIsListed(c: Ctl, d: InterfaceDescriptor, a: Attach)
    ensures var up := (d.role.Server? && c.server.Some?) || (d.role.Client? && c.client.Some?);
      var c' := AddInterface(c, d, a); var list, list' := c.settings.interfaces, c'.settings.interfaces;
      && (!up || a.Fails? ==> c' == c)
      && (up && a.Attaches? ==>
            && d.(id := a.id) in list'
            && c' == c.(settings := c.settings.(interfaces := list'), file := Some(c'.settings))
            && |list| <= |list'| <= |list| + 1
            && (|list'| == |list| + 1 <==> forall i :: 0 <= i < |list| ==> !SameFields(list[i], d))
            && forall i :: 0 <= i < |list| && !SameFields(list[i], d) ==> list'[i] == list[i])
  {
    if AttachVia(c, d.role, a).Attaches? {
      RecordedIsListed(c.settings.interfaces, d.(id := a.id));
    }
  }
}
