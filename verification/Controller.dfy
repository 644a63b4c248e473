/**
 * `BridgeController` of controller/src/controller.rs: the two bridge sessions, the last arguments,
 * the settings and the settings file. Whether a session, an interface or the dedicated server comes
 * up is an argument of each operation; writing and reading the file is assumed to work.
 */
module Controller {
  import opened Basics
  import opened Upserts
  import opened Interfaces

  datatype ServerArgs = ServerArgs(scPort: nat, scHost: string, identity: string, tcp: Option<string>,
                                   auto: bool, announceInterval: nat, name: Option<string>)

  datatype ClientArgs = ClientArgs(listenPort: nat, serverHash: Option<string>, identity: string,
                                   tcp: Option<string>, auto: bool)

  datatype DsStartArgs = DsStartArgs(port: nat, maxplayers: nat, map_: string,
                                     installDir: Option<string>, svCheats: bool)

  datatype Settings = Settings(
    version: nat, bridge: Option<ServerArgs>, bridgeRunning: bool, client: Option<ClientArgs>,
    clientRunning: bool, ds: Option<DsStartArgs>, dsRunning: bool, interfaces: seq<InterfaceDescriptor>)

  const NEW_SETTINGS := Settings(1, None, false, None, false, None, false, [])

  /** What a resume can report as not restarted. */
  datatype Trouble = ServerTrouble | ClientTrouble | InterfaceTrouble(d: InterfaceDescriptor) | DsTrouble

  /** The controller and its file as a value; `file` is `None` if missing or unreadable. */
  datatype Ctl = Ctl(
    server: Option<ServerArgs>, client: Option<ClientArgs>,
    lastServer: Option<ServerArgs>, lastClient: Option<ClientArgs>,
    settings: Settings, errors: seq<Trouble>, file: Option<Settings>)

  function Load(file: Option<Settings>): Settings {
    file.GetOr(NEW_SETTINGS)
  }

  /** A freshly created controller over this file. */
  function Created(file: Option<Settings>): Ctl {
    var s := Load(file);
    Ctl(None, None, s.bridge, s.client, s, [], file)
  }

  function Saved(c: Ctl): Ctl {
    c.(file := Some(c.settings))
  }

  function StartServer(c: Ctl, args: ServerArgs, ok: bool): Ctl {
    if c.server.Some? || !ok then c
    else Saved(c.(server := Some(args), lastServer := Some(args),
                  settings := c.settings.(bridge := Some(args), bridgeRunning := true)))
  }

  function StopServer(c: Ctl): Ctl {
    Saved(c.(server := None, settings := c.settings.(bridgeRunning := false)))
  }

  function RestartServer(c: Ctl, ok: bool): Ctl {
    if c.lastServer.None? then c else StartServer(StopServer(c), c.lastServer.value, ok)
  }

  function StartClient(c: Ctl, args: ClientArgs, ok: bool): Ctl {
    if c.client.Some? || !ok then c
    else Saved(c.(client := Some(args), lastClient := Some(args),
                  settings := c.settings.(client := Some(args), clientRunning := true)))
  }

  function StopClient(c: Ctl): Ctl {
    Saved(c.(client := None, settings := c.settings.(clientRunning := false)))
  }

  function RestartClient(c: Ctl, ok: bool): Ctl {
    if c.lastClient.None? then c else StartClient(StopClient(c), c.lastClient.value, ok)
  }

  function ConnectAndLaunch(c: Ctl, hash: string, hashOk: bool, ok: bool): Ctl {
    if c.lastClient.None? || !hashOk then c
    else StartClient(StopClient(c), c.lastClient.value.(serverHash := Some(hash)), ok)
  }

  predicate SessionUp(c: Ctl, role: Role) {
    match role
    case Server => c.server.Some?
    case Client => c.client.Some?
    case UnknownRole(_) => false
  }

  /** What an attach comes to: without a session of that role it fails before anything is tried. */
  function AttachVia(c: Ctl, role: Role, a: Attach): Attach {
    if SessionUp(c, role) then a else Fails
  }

  function AddInterface(c: Ctl, d: InterfaceDescriptor, a: Attach): Ctl {
    if AttachVia(c, d.role, a).Fails? then c
    else Saved(c.(settings := c.settings.(interfaces := Upsert(EndpointOf, c.settings.interfaces, d.(id := a.id)))))
  }

  function ToLower(ch: char): char {
    if 'A' <= ch <= 'Z' then ((ch as int) - ('A' as int) + ('a' as int)) as char else ch
  }

  predicate EqualIgnoringCase(a: string, b: string) {
    |a| == |b| && forall i :: 0 <= i < |a| ==> ToLower(a[i]) == ToLower(b[i])
  }

  const UPPER := "ABCDEFGHIJKLMNOPQRSTUVWXYZ"
  const LOWER := "abcdefghijklmnopqrstuvwxyz"

  /** Two characters are taken for the same exactly if they are, or are one letter in either case. */
  lemma LetterCase(a: char, b: char)
    ensures ToLower(a) == ToLower(b) <==> a == b || OneLetter(a, b) || OneLetter(b, a)
  {
    Alphabets();
    if a != b && ToLower(a) == ToLower(b) {
      var i := ToLower(a) as int - 97;
      assert UPPER[i] in {a, b} && LOWER[i] in {a, b};
    }
  }

  ghost predicate OneLetter(upper: char, lower: char) {
    exists i :: 0 <= i < 26 && UPPER[i] == upper && LOWER[i] == lower
  }

  lemma Alphabets()
    ensures forall i :: 0 <= i < 26 ==> UPPER[i] as int == 65 + i && LOWER[i] as int == 97 + i
  {
  }

  predicate HasId(d: InterfaceDescriptor, id: string) {
    d.id.Some? && EqualIgnoringCase(d.id.value, id)
  }

  /** The list without the entries captured under this id. */
  function WithoutId(xs: seq<InterfaceDescriptor>, id: string): seq<InterfaceDescriptor> {
    if xs == [] then []
    else WithoutId(xs[..|xs| - 1], id) + if HasId(xs[|xs| - 1], id) then [] else [xs[|xs| - 1]]
  }

  /** `found`: a running session owns an interface with this id. */
  function RemoveInterface(c: Ctl, id: string, found: bool): Ctl {
    if !found then c
    else Saved(c.(settings := c.settings.(interfaces := WithoutId(c.settings.interfaces, id))))
  }

  function DsStart(c: Ctl, args: DsStartArgs, ok: bool): Ctl {
    if !ok then c else Saved(c.(settings := c.settings.(ds := Some(args), dsRunning := true)))
  }

  function DsStop(c: Ctl, ok: bool): Ctl {
    if !ok then c else Saved(c.(settings := c.settings.(dsRunning := false)))
  }

  function DsChangelevel(c: Ctl, map_: string, ok: bool): Ctl {
    if !ok then c
    else if c.settings.ds.None? then Saved(c)
    else Saved(c.(settings := c.settings.(ds := Some(c.settings.ds.value.(map_ := map_)))))
  }

  function DsSetCheats(c: Ctl, enabled: bool, ok: bool): Ctl {
    if !ok then c
    else if c.settings.ds.None? then Saved(c)
    else Saved(c.(settings := c.settings.(ds := Some(c.settings.ds.value.(svCheats := enabled)))))
  }

  /** How the parts of one resume turn out. */
  datatype Outcomes = Outcomes(server: bool, client: bool, attach: nat -> Attach, ds: bool)

  function Noting(c: Ctl, failed: bool, t: Trouble): Ctl {
    if failed then c.(errors := c.errors + [t]) else c
  }

  function ResumeServer(c: Ctl, s: Settings, ok: bool): Ctl {
    if s.bridgeRunning && s.bridge.Some? then
      Noting(StartServer(c, s.bridge.value, ok), c.server.Some? || !ok, ServerTrouble)
    else c
  }

  function ResumeClient(c: Ctl, s: Settings, ok: bool): Ctl {
    if s.clientRunning && s.client.Some? then
      Noting(StartClient(c, s.client.value, ok), c.client.Some? || !ok, ClientTrouble)
    else c
  }

  function ResumeInterface(c: Ctl, d: InterfaceDescriptor, a: Attach): Ctl {
    if d.kind.UnknownKind? then Noting(c, true, InterfaceTrouble(d))
    else Noting(AddInterface(c, Reattached(d, None), a), AttachVia(c, d.role, a).Fails?, InterfaceTrouble(d))
  }

  function ResumeFirst(c: Ctl, saved: seq<InterfaceDescriptor>, attach: nat -> Attach, n: nat): Ctl
    requires n <= |saved|
  {
    if n == 0 then c else ResumeInterface(ResumeFirst(c, saved, attach, n - 1), saved[n - 1], attach(n - 1))
  }

  function ResumeDs(c: Ctl, s: Settings, ok: bool): Ctl {
    if s.dsRunning && s.ds.Some? then Noting(DsStart(c, s.ds.value, ok), !ok, DsTrouble) else c
  }

  /** The first part of a resume: forget old errors and repair the interface list. */
  function Repaired(c: Ctl): Ctl {
    var list := UpsertAll(EndpointOf, c.settings.interfaces);
    var c' := c.(errors := [], settings := c.settings.(interfaces := list));
    if list == c.settings.interfaces then c' else Saved(c')
  }

  function Resume(c: Ctl, o: Outcomes): Ctl {
    var c0 := Repaired(c);
    var s := c0.settings;
    var c2 := ResumeClient(ResumeServer(c0, s, o.server), s, o.client);
    ResumeDs(ResumeFirst(c2, s.interfaces, o.attach, |s.interfaces|), s, o.ds)
  }

  // ------------------------------------------------------------------- the class

  /** The file `settings.json`. */
  class Disk {
    var file: Option<Settings>

    constructor (file: Option<Settings>)
      ensures this.file == file
    {
      this.file := file;
    }
  }

  class BridgeController {
    const disk: Disk
    var serverSession: Option<ServerArgs>
    var clientSession: Option<ClientArgs>
    var lastServerArgs: Option<ServerArgs>
    var lastClientArgs: Option<ClientArgs>
    var settings: Settings
    var resumeErrors: seq<Trouble>

    function View(): Ctl
      reads this, disk
    {
      Ctl(serverSession, clientSession, lastServerArgs, lastClientArgs, settings, resumeErrors, disk.file)
    }

    constructor (disk: Disk)
      ensures this.disk == disk && View() == Created(old(disk.file))
      ensures old(disk.file).None? ==> settings == Settings(1, None, false, None, false, None, false, [])
    {
      this.disk := disk;
      var loaded := if disk.file.Some? then disk.file.value else NEW_SETTINGS;
      settings := loaded;
      serverSession, clientSession := None, None;
      lastServerArgs, lastClientArgs := loaded.bridge, loaded.client;
      resumeErrors := [];
    }

    method SaveSettings()
      modifies disk
      ensures View() == Saved(old(View()))
    {
      disk.file := Some(settings);
    }

    method StartBridgeServer(args: ServerArgs, ok: bool) returns (started: bool)
      modifies this, disk
      ensures View() == StartServer(old(View()), args, ok)
      ensures started == (old(serverSession).None? && ok)
    {
      if serverSession.Some? {
        return false;
      }
      if !ok {
        return false;
      }
      serverSession := Some(args);
      lastServerArgs := Some(args);
      settings := settings.(bridge := Some(args), bridgeRunning := true);
      SaveSettings();
      return true;
    }

    method StopBridgeServer()
      modifies this, disk
      ensures View() == StopServer(old(View()))
    {
      serverSession := None;
      settings := settings.(bridgeRunning := false);
      SaveSettings();
    }

    method RestartBridgeServer(ok: bool) returns (started: bool)
      modifies this, disk
      ensures View() == RestartServer(old(View()), ok)
      ensures started == (old(lastServerArgs).Some? && ok)
    {
      if lastServerArgs.None? {
        return false;
      }
      var args := lastServerArgs.value;
      StopBridgeServer();
      started := StartBridgeServer(args, ok);
    }

    method StartBridgeClient(args: ClientArgs, ok: bool) returns (started: bool)
      modifies this, disk
      ensures View() == StartClient(old(View()), args, ok)
      ensures started == (old(clientSession).None? && ok)
    {
      if clientSession.Some? {
        return false;
      }
      if !ok {
        return false;
      }
      clientSession := Some(args);
      lastClientArgs := Some(args);
      settings := settings.(client := Some(args), clientRunning := true);
      SaveSettings();
      return true;
    }

    method StopBridgeClient()
      modifies this, disk
      ensures View() == StopClient(old(View()))
    {
      clientSession := None;
      settings := settings.(clientRunning := false);
      SaveSettings();
    }

    method RestartBridgeClient(ok: bool) returns (started: bool)
      modifies this, disk
      ensures View() == RestartClient(old(View()), ok)
      ensures started == (old(lastClientArgs).Some? && ok)
    {
      if lastClientArgs.None? {
        return false;
      }
      var args := lastClientArgs.value;
      StopBridgeClient();
      started := StartBridgeClient(args, ok);
    }

    /** `launched`: the client's port was seen bound and the game could be opened. */
    method ConnectTo(hash: string, hashOk: bool, ok: bool, launched: bool) returns (done: bool)
      modifies this, disk
      ensures View() == ConnectAndLaunch(old(View()), hash, hashOk, ok)
      ensures done == (old(lastClientArgs).Some? && hashOk && ok && launched)
    {
      if lastClientArgs.None? {
        return false;
      }
      var args := lastClientArgs.value;
      if !hashOk {
        return false;
      }
      args := args.(serverHash := Some(hash));
      StopBridgeClient();
      done := StartBridgeClient(args, ok);
      done := done && launched;
    }

    method Attach(d: InterfaceDescriptor, a: Attach) returns (added: bool)
      modifies this, disk
      ensures View() == AddInterface(old(View()), d, a)
      ensures added == AttachVia(old(View()), d.role, a).Attaches?
    {
      var up := match d.role
        case Server => serverSession.Some?
        case Client => clientSession.Some?
        case UnknownRole(_) => false;
      if !up || a.Fails? {
        return false;
      }
      var list := RecordInterface(settings.interfaces, d.(id := a.id));
      settings := settings.(interfaces := list);
      SaveSettings();
      return true;
    }

    method AddTcp(addr: string, role: Role, ifacName: Option<string>, ifacPassphrase: Option<string>, a: Attach)
      returns (added: bool)
      modifies this, disk
      ensures View() == AddInterface(old(View()), Descriptor(NewTcp(addr), role, ifacName, ifacPassphrase), a)
      ensures added == AttachVia(old(View()), role, a).Attaches?
    {
      added := Attach(InterfaceDescriptor(None, Tcp, role, Some(addr), None, ifacName, ifacPassphrase), a);
    }

    method AddAuto(role: Role, ifacName: Option<string>, ifacPassphrase: Option<string>, a: Attach)
      returns (added: bool)
      modifies this, disk
      ensures View() == AddInterface(old(View()), Descriptor(NewAuto, role, ifacName, ifacPassphrase), a)
      ensures added == AttachVia(old(View()), role, a).Attaches?
    {
      added := Attach(InterfaceDescriptor(None, Auto, role, None, None, ifacName, ifacPassphrase), a);
    }

    method AddUdp(local: string, peer: string, role: Role, ifacName: Option<string>,
                  ifacPassphrase: Option<string>, a: Attach) returns (added: bool)
      modifies this, disk
      ensures View() == AddInterface(old(View()), Descriptor(NewUdp(local, peer), role, ifacName, ifacPassphrase), a)
      ensures added == AttachVia(old(View()), role, a).Attaches?
    {
      added := Attach(InterfaceDescriptor(None, Udp, role, Some(local), Some(peer), ifacName, ifacPassphrase), a);
    }

    method AddWebsocket(url: string, role: Role, ifacName: Option<string>, ifacPassphrase: Option<string>, a: Attach)
      returns (added: bool)
      modifies this, disk
      ensures View() == AddInterface(old(View()), Descriptor(NewWebsocket(url), role, ifacName, ifacPassphrase), a)
      ensures added == AttachVia(old(View()), role, a).Attaches?
    {
      added := Attach(InterfaceDescriptor(None, Websocket, role, Some(url), None, ifacName, ifacPassphrase), a);
    }

    /** The add method of the saved kind, with the saved fields. */
    method AddSaved(d: InterfaceDescriptor, a: Attach) returns (added: bool)
      modifies this, disk
      ensures d.kind.UnknownKind? ==> !added && View() == old(View())
      ensures !d.kind.UnknownKind? ==>
        View() == AddInterface(old(View()), Reattached(d, None), a)
        && added == AttachVia(old(View()), d.role, a).Attaches?
    {
      match d.kind
      case Tcp => added := AddTcp(d.addr.GetOr(""), d.role, d.ifacName, d.ifacPassphrase, a);
      case Auto => added := AddAuto(d.role, d.ifacName, d.ifacPassphrase, a);
      case Udp =>
        added := AddUdp(d.addr.GetOr(""), d.peerAddr.GetOr(""), d.role, d.ifacName, d.ifacPassphrase, a);
      case Websocket => added := AddWebsocket(d.addr.GetOr(""), d.role, d.ifacName, d.ifacPassphrase, a);
      case UnknownKind(_) => added := false;
    }

    method Remove(id: string, found: bool)
      modifies this, disk
      ensures View() == RemoveInterface(old(View()), id, found)
    {
      if !found {
        return;
      }
      var kept: seq<InterfaceDescriptor> := [];
      for i := 0 to |settings.interfaces|
        invariant settings == old(settings) && kept == WithoutId(settings.interfaces[..i], id)
        invariant serverSession == old(serverSession) && clientSession == old(clientSession)
        invariant lastServerArgs == old(lastServerArgs) && lastClientArgs == old(lastClientArgs)
        invariant resumeErrors == old(resumeErrors)
      {
        var d := settings.interfaces[i];
        assert settings.interfaces[..i + 1][..i] == settings.interfaces[..i];
        if !HasId(d, id) {
          kept := kept + [d];
        }
      }
      assert settings.interfaces[..|settings.interfaces|] == settings.interfaces;
      settings := settings.(interfaces := kept);
      SaveSettings();
    }

    method StartDs(args: DsStartArgs, ok: bool) returns (started: bool)
      modifies this, disk
      ensures View() == DsStart(old(View()), args, ok) && started == ok
    {
      if !ok {
        return false;
      }
      settings := settings.(ds := Some(args), dsRunning := true);
      SaveSettings();
      return true;
    }

    method StopDs(ok: bool)
      modifies this, disk
      ensures View() == DsStop(old(View()), ok)
    {
      if ok {
        settings := settings.(dsRunning := false);
        SaveSettings();
      }
    }

    method ChangeLevel(map_: string, ok: bool)
      modifies this, disk
      ensures View() == DsChangelevel(old(View()), map_, ok)
    {
      if ok {
        if settings.ds.Some? {
          settings := settings.(ds := Some(settings.ds.value.(map_ := map_)));
        }
        SaveSettings();
      }
    }

    method SetCheats(enabled: bool, ok: bool)
      modifies this, disk
      ensures View() == DsSetCheats(old(View()), enabled, ok)
    {
      if ok {
        if settings.ds.Some? {
          settings := settings.(ds := Some(settings.ds.value.(svCheats := enabled)));
        }
        SaveSettings();
      }
    }

    method Repair()
      modifies this, disk
      ensures View() == Repaired(old(View()))
    {
      resumeErrors := [];
      var list, changed := DedupInterfaces(settings.interfaces);
      settings := settings.(interfaces := list);
      if changed {
        SaveSettings();
      }
    }

    method ReattachSaved(saved: seq<InterfaceDescriptor>, attach: nat -> Attach)
      modifies this, disk
      ensures View() == ResumeFirst(old(View()), saved, attach, |saved|)
    {
      for i := 0 to |saved|
        invariant View() == ResumeFirst(old(View()), saved, attach, i)
      {
        var d := saved[i];
        var added := AddSaved(d, attach(i));
        if !added {
          resumeErrors := resumeErrors + [InterfaceTrouble(d)];
        }
      }
    }

    method RestartSaved(s: Settings, serverOk: bool, clientOk: bool)
      modifies this, disk
      ensures View() == ResumeClient(ResumeServer(old(View()), s, serverOk), s, clientOk)
    {
      if s.bridgeRunning && s.bridge.Some? {
        var started := StartBridgeServer(s.bridge.value, serverOk);
        if !started {
          resumeErrors := resumeErrors + [ServerTrouble];
        }
      }
      if s.clientRunning && s.client.Some? {
        var started := StartBridgeClient(s.client.value, clientOk);
        if !started {
          resumeErrors := resumeErrors + [ClientTrouble];
        }
      }
    }

    method ResumeSaved(o: Outcomes)
      modifies this, disk
      ensures View() == Resume(old(View()), o)
    {
      Repair();
      var s := settings;
      RestartSaved(s, o.server, o.client);
      ReattachSaved(s.interfaces, o.attach);
      if s.dsRunning && s.ds.Some? {
        var started := StartDs(s.ds.value, o.ds);
        if !started {
          resumeErrors := resumeErrors + [DsTrouble];
        }
      }
    }
  }
}
