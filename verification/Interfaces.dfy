/** The saved Reticulum interfaces of controller/src/controller.rs and their repair on resume. */
module Interfaces {
  import opened Basics
  import opened Upserts

  /** The strings of the `kind` and `role` fields that the program gives a meaning, and all others. */
  datatype Kind = Tcp | Udp | Websocket | Auto | UnknownKind(name: string)

  datatype Role = Server | Client | UnknownRole(name: string)

  datatype InterfaceDescriptor = InterfaceDescriptor(
    id: Option<string>, kind: Kind, role: Role, addr: Option<string>, peerAddr: Option<string>,
    ifacName: Option<string>, ifacPassphrase: Option<string>)

  datatype Endpoint = Endpoint(kind: Kind, role: Role, addr: Option<string>, peerAddr: Option<string>)

  /** What identifies an interface: neither its runtime id nor its IFAC fields. */
  function EndpointOf(d: InterfaceDescriptor): Endpoint {
    Endpoint(d.kind, d.role, d.addr, d.peerAddr)
  }

  /** The four fields are the same; ids and IFAC fields may differ. */
  predicate SameFields(a: InterfaceDescriptor, b: InterfaceDescriptor) {
    a.kind == b.kind && a.role == b.role && a.addr == b.addr && a.peerAddr == b.peerAddr
  }

  /** The endpoint tells apart exactly what differs in the kind, the role or an address. */
  lemma EndpointIsFields(a: InterfaceDescriptor, b: InterfaceDescriptor)
    ensures EndpointOf(a) == EndpointOf(b)
       <==> a.kind == b.kind && a.role == b.role && a.addr == b.addr && a.peerAddr == b.peerAddr
    ensures SameFields(a, b) <==> EndpointOf(a) == EndpointOf(b)
  {
  }

  /** The first entry with the kind, role and addresses of `d`, if there is one. */
  method FindEndpoint(xs: seq<InterfaceDescriptor>, d: InterfaceDescriptor) returns (i: nat)
    ensures i <= |xs|
    ensures forall j :: 0 <= j < i ==>
      xs[j].kind != d.kind || xs[j].role != d.role || xs[j].addr != d.addr || xs[j].peerAddr != d.peerAddr
    ensures i < |xs| ==>
      xs[i].kind == d.kind && xs[i].role == d.role && xs[i].addr == d.addr && xs[i].peerAddr == d.peerAddr
  {
    i := 0;
    while i < |xs|
          && !(xs[i].kind == d.kind && xs[i].role == d.role && xs[i].addr == d.addr && xs[i].peerAddr == d.peerAddr)
      invariant i <= |xs| && forall j :: 0 <= j < i ==> !SameFields(xs[j], d)
    {
      i := i + 1;
    }
  }

  /** An entry of the list has the fields of `d`. */
  ghost predicate HasEntry(list: seq<InterfaceDescriptor>, d: InterfaceDescriptor) {
    exists j :: 0 <= j < |list| && SameFields(list[j], d)
  }

  predicate FirstEntry(list: seq<InterfaceDescriptor>, d: InterfaceDescriptor, i: nat) {
    i < |list| && SameFields(list[i], d) && forall j :: 0 <= j < i ==> !SameFields(list[j], d)
  }

  /** Every descriptor has an entry with its fields. */
  ghost predicate Covers(kept: seq<InterfaceDescriptor>, interfaces: seq<InterfaceDescriptor>) {
    forall i :: 0 <= i < |interfaces| ==> HasEntry(kept, interfaces[i])
  }

  predicate TakenFrom(kept: seq<InterfaceDescriptor>, interfaces: seq<InterfaceDescriptor>) {
    forall j :: 0 <= j < |kept| ==> kept[j] in interfaces
  }

  ghost predicate HasDuplicate(interfaces: seq<InterfaceDescriptor>) {
    exists i, j :: 0 <= i < j < |interfaces| && SameFields(interfaces[i], interfaces[j])
  }

  lemma DuplicateIsNotDistinct(interfaces: seq<InterfaceDescriptor>)
    ensures HasDuplicate(interfaces) <==> !Distinct(EndpointOf, interfaces)
  {
    if !Distinct(EndpointOf, interfaces) {
      var i, j :| 0 <= i < j < |interfaces| && EndpointOf(interfaces[i]) == EndpointOf(interfaces[j]);
      assert SameFields(interfaces[i], interfaces[j]);
    }
  }

  lemma UpsertCovers(kept: seq<InterfaceDescriptor>, d: InterfaceDescriptor, x: InterfaceDescriptor)
    requires HasEntry(kept, x) || x == d
    ensures HasEntry(Upsert(EndpointOf, kept, d), x)
  {
    var i, kept' := Position(EndpointOf, kept, d), Upsert(EndpointOf, kept, d);
    UpsertAt(EndpointOf, kept, d, i);
    if x == d {
      assert SameFields(kept'[i], x);
    } else {
      var j :| 0 <= j < |kept| && SameFields(kept[j], x);
      assert SameFields(kept'[j], x);
    }
  }

  lemma {:induction false} UpsertAllCovers(interfaces: seq<InterfaceDescriptor>)
    ensures Covers(UpsertAll(EndpointOf, interfaces), interfaces)
  {
    if interfaces != [] {
      var before, d := interfaces[..|interfaces| - 1], interfaces[|interfaces| - 1];
      UpsertAllCovers(before);
      forall i | 0 <= i < |interfaces| ensures HasEntry(UpsertAll(EndpointOf, interfaces), interfaces[i]) {
        assert i < |before| ==> interfaces[i] == before[i];
        UpsertCovers(UpsertAll(EndpointOf, before), d, interfaces[i]);
      }
    }
  }

  lemma {:induction false} UpsertAllTakes(interfaces: seq<InterfaceDescriptor>)
    ensures TakenFrom(UpsertAll(EndpointOf, interfaces), interfaces)
  {
    if interfaces != [] {
      var before, d := interfaces[..|interfaces| - 1], interfaces[|interfaces| - 1];
      var kept := UpsertAll(EndpointOf, before);
      UpsertAllTakes(before);
      UpsertAt(EndpointOf, kept, d, Position(EndpointOf, kept, d));
    }
  }

  /** Every descriptor has an entry with its fields, no two entries have the same, and none is made up. */
  lemma UpsertAllDeduplicates(interfaces: seq<InterfaceDescriptor>)
    ensures var kept := UpsertAll(EndpointOf, interfaces);
      Covers(kept, interfaces) && TakenFrom(kept, interfaces) && !HasDuplicate(kept)
    ensures UpsertAll(EndpointOf, interfaces) == interfaces <==> !HasDuplicate(interfaces)
    ensures |UpsertAll(EndpointOf, interfaces)| == |interfaces| <==> !HasDuplicate(interfaces)
  {
    UpsertAllCovers(interfaces);
    UpsertAllTakes(interfaces);
    UpsertAllExact(EndpointOf, interfaces);
    UpsertAllShrinks(EndpointOf, interfaces);
    DuplicateIsNotDistinct(interfaces);
    DuplicateIsNotDistinct(UpsertAll(EndpointOf, interfaces));
  }

  /** The bulk repair is the fold of the single upsert, and reports exactly whether there was a duplicate. */
  method DedupInterfaces(interfaces: seq<InterfaceDescriptor>)
    returns (kept: seq<InterfaceDescriptor>, changed: bool)
    ensures kept == UpsertAll(EndpointOf, interfaces)
    ensures Covers(kept, interfaces) && TakenFrom(kept, interfaces) && !HasDuplicate(kept)
    ensures changed <==> HasDuplicate(interfaces)
    ensures changed <==> kept != interfaces
  {
    var before := |interfaces|;
    kept := [];
    for n := 0 to |interfaces|
      invariant kept == UpsertAll(EndpointOf, interfaces[..n])
    {
      var d := interfaces[n];
      var i := FindEndpoint(kept, d);
      UpsertAt(EndpointOf, kept, d, i);
      assert interfaces[..n + 1][..n] == interfaces[..n];
      if i < |kept| {
        kept := kept[i := d];
      } else {
        kept := kept + [d];
      }
    }
    assert interfaces[..|interfaces|] == interfaces;
    UpsertAllDeduplicates(interfaces);
    changed := |kept| != before;
  }

  /** The interfaces of the server and of the client are two, with the same kind and addresses too. */
  lemma RolesAreKept(kind: Kind, addr: Option<string>, peer: Option<string>)
    ensures var server := InterfaceDescriptor(None, kind, Server, addr, peer, None, None);
      var client := InterfaceDescriptor(None, kind, Client, addr, peer, None, None);
      UpsertAll(EndpointOf, [server, client]) == [server, client] && !HasDuplicate([server, client])
  {
    var server := InterfaceDescriptor(None, kind, Server, addr, peer, None, None);
    var client := InterfaceDescriptor(None, kind, Client, addr, peer, None, None);
    DuplicateIsNotDistinct([server, client]);
    UpsertAllDistinct(EndpointOf, [server, client]);
  }

  /** One descriptor is recorded: in place of the first entry with its fields, or at the end. */
  method RecordInterface(interfaces: seq<InterfaceDescriptor>, desc: InterfaceDescriptor)
    returns (r: seq<InterfaceDescriptor>)
    ensures r == Upsert(EndpointOf, interfaces, desc)
    ensures !HasEntry(interfaces, desc) ==> r == interfaces + [desc]
    ensures HasEntry(interfaces, desc) ==>
      exists i :: 0 <= i < |interfaces| && FirstEntry(interfaces, desc, i) && r == interfaces[i := desc]
  {
    var i := FindEndpoint(interfaces, desc);
    UpsertAt(EndpointOf, interfaces, desc, i);
    assert i < |interfaces| ==> FirstEntry(interfaces, desc, i);
    r := if i < |interfaces| then interfaces[i := desc] else interfaces + [desc];
  }

  // ----------------------------------------------------------------- re-attaching

  /** What one `add_interface_*` call of a resume comes to: an error, or an id (if one was seen). */
  datatype Attach = Fails | Attaches(id: Option<string>)

  /** The descriptor that the add method of this kind records. */
  function Reattached(d: InterfaceDescriptor, id: Option<string>): InterfaceDescriptor {
    var addr := if d.kind.Auto? then None else Some(d.addr.GetOr(""));
    var peer := if d.kind.Udp? then Some(d.peerAddr.GetOr("")) else None;
    d.(id := id, addr := addr, peerAddr := peer)
  }

  /** What the four add methods are given, apart from the role and the IFAC fields. */
  datatype NewInterface = NewTcp(addr: string) | NewUdp(local: string, peer: string)
                        | NewWebsocket(url: string) | NewAuto

  /** The descriptor that they record, but for its id. */
  function Descriptor(n: NewInterface, role: Role, ifacName: Option<string>,
                      ifacPassphrase: Option<string>): InterfaceDescriptor {
    match n
    case NewTcp(addr) => InterfaceDescriptor(None, Tcp, role, Some(addr), None, ifacName, ifacPassphrase)
    case NewUdp(local, peer) =>
      InterfaceDescriptor(None, Udp, role, Some(local), Some(peer), ifacName, ifacPassphrase)
    case NewWebsocket(url) => InterfaceDescriptor(None, Websocket, role, Some(url), None, ifacName, ifacPassphrase)
    case NewAuto => InterfaceDescriptor(None, Auto, role, None, None, ifacName, ifacPassphrase)
  }

  /** What is recorded again is what the add method of the kind records for the saved fields, "" for a missing address. */
  lemma ReattachedIsNew(d: InterfaceDescriptor, id: Option<string>)
    requires !d.kind.UnknownKind?
    ensures var addr := if d.addr.Some? then d.addr.value else "";
      var peer := if d.peerAddr.Some? then d.peerAddr.value else "";
      var n := match d.kind
               case Tcp => NewTcp(addr)
               case Udp => NewUdp(addr, peer)
               case Websocket => NewWebsocket(addr)
               case _ => NewAuto;
      Reattached(d, id) == Descriptor(n, d.role, d.ifacName, d.ifacPassphrase).(id := id)
  {
  }

  /** Shaped as the add methods write descriptors. */
  predicate Shaped(d: InterfaceDescriptor) {
    && !d.kind.UnknownKind?
    && (d.addr.None? <==> d.kind.Auto?)
    && (d.peerAddr.Some? <==> d.kind.Udp?)
  }

  /** The shape is exactly what the add methods can record. */
  lemma ShapedIsRecorded(d: InterfaceDescriptor)
    ensures Shaped(d) <==> exists n: NewInterface :: d == Descriptor(n, d.role, d.ifacName, d.ifacPassphrase).(id := d.id)
  {
    if Shaped(d) {
      var n := match d.kind
        case Tcp => NewTcp(d.addr.value)
        case Udp => NewUdp(d.addr.value, d.peerAddr.value)
        case Websocket => NewWebsocket(d.addr.value)
        case _ => NewAuto;
      assert d == Descriptor(n, d.role, d.ifacName, d.ifacPassphrase).(id := d.id);
    }
  }

  predicate AllShaped(list: seq<InterfaceDescriptor>) {
    forall i :: 0 <= i < |list| ==> Shaped(list[i])
  }

  /** The list after re-attaching the first `n` of the `saved` descriptors. */
  function ReattachAll(list: seq<InterfaceDescriptor>, saved: seq<InterfaceDescriptor>,
                       outcome: nat -> Attach, n: nat): seq<InterfaceDescriptor>
    requires n <= |saved|
  {
    if n == 0 then list
    else
      var before := ReattachAll(list, saved, outcome, n - 1);
      var d := saved[n - 1];
      if outcome(n - 1).Attaches? && !d.kind.UnknownKind? then
        Upsert(EndpointOf, before, Reattached(d, outcome(n - 1).id))
      else before
  }

  /** What a resume makes of the interface list. */
  function ResumeInterfaces(list: seq<InterfaceDescriptor>, outcome: nat -> Attach): seq<InterfaceDescriptor> {
    var saved := UpsertAll(EndpointOf, list);
    ReattachAll(saved, saved, outcome, |saved|)
  }

  /** The descriptor with the id it gets from one attach result. */
  function NewId(d: InterfaceDescriptor, a: Attach): InterfaceDescriptor {
    if a.Attaches? then d.(id := a.id) else d
  }

  /** Same endpoints in the same order with the same IFAC fields; only ids may differ. */
  ghost predicate EqualUpToIds(a: seq<InterfaceDescriptor>, b: seq<InterfaceDescriptor>) {
    |a| == |b| && forall i :: 0 <= i < |a| ==> a[i] == b[i].(id := a[i].id)
  }

  /** Re-attaching entry `i` of a list whose entries are those of `saved` but for ids. */
  lemma ReattachOne(saved: seq<InterfaceDescriptor>, list: seq<InterfaceDescriptor>, i: nat, id: Option<string>)
    requires Distinct(EndpointOf, saved) && i < |saved| && Shaped(saved[i])
    requires |list| == |saved| && forall j :: 0 <= j < |list| ==> EndpointOf(list[j]) == EndpointOf(saved[j])
    ensures Upsert(EndpointOf, list, Reattached(saved[i], id)) == list[i := saved[i].(id := id)]
  {
    var d := Reattached(saved[i], id);
    assert d == saved[i].(id := id);
    UpsertAt(EndpointOf, list, d, i);
  }

  lemma {:induction false} ReattachKeeps(saved: seq<InterfaceDescriptor>, outcome: nat -> Attach, n: nat)
    requires n <= |saved| && Distinct(EndpointOf, saved) && AllShaped(saved)
    ensures |ReattachAll(saved, saved, outcome, n)| == |saved|
    ensures forall i :: 0 <= i < |saved| ==>
      ReattachAll(saved, saved, outcome, n)[i] == NewId(saved[i], if i < n then outcome(i) else Fails)
  {
    if n > 0 {
      ReattachKeeps(saved, outcome, n - 1);
      if outcome(n - 1).Attaches? {
        ReattachOne(saved, ReattachAll(saved, saved, outcome, n - 1), n - 1, outcome(n - 1).id);
      }
    }
  }

  lemma {:induction false} LastWithMember(ds: seq<InterfaceDescriptor>, k: Endpoint)
    ensures LastWith(EndpointOf, ds, k).Some? ==> LastWith(EndpointOf, ds, k).value in ds
  {
    if ds != [] {
      LastWithMember(ds[..|ds| - 1], k);
    }
  }

  lemma ShapedSaved(list: seq<InterfaceDescriptor>)
    requires AllShaped(list)
    ensures AllShaped(UpsertAll(EndpointOf, list))
  {
    var saved := UpsertAll(EndpointOf, list);
    UpsertAllExact(EndpointOf, list);
    forall i | 0 <= i < |saved| ensures Shaped(saved[i]) {
      LastWithMember(list, Firsts(EndpointOf, list)[i]);
    }
  }

  /**
   * One resume, whatever attaches: the deduplicated list, in which exactly the descriptors that
   * attached have a new id.
   */
  lemma ResumeExact(list: seq<InterfaceDescriptor>, outcome: nat -> Attach)
    requires AllShaped(list)
    ensures |ResumeInterfaces(list, outcome)| == |UpsertAll(EndpointOf, list)|
    ensures forall i :: 0 <= i < |ResumeInterfaces(list, outcome)| ==>
      ResumeInterfaces(list, outcome)[i] == NewId(UpsertAll(EndpointOf, list)[i], outcome(i))
    ensures AllShaped(ResumeInterfaces(list, outcome))
  {
    var saved := UpsertAll(EndpointOf, list);
    UpsertAllExact(EndpointOf, list);
    ShapedSaved(list);
    ReattachKeeps(saved, outcome, |saved|);
  }

  ghost predicate UpToId(a: InterfaceDescriptor, b: InterfaceDescriptor) {
    a == b.(id := a.id)
  }

  /** Entry `i` cannot be attached, or what attaching it records is, up to the id, in the list. */
  ghost predicate StableAt(saved: seq<InterfaceDescriptor>, i: nat)
    requires i < |saved|
  {
    saved[i].kind.UnknownKind?
    || exists j :: 0 <= j < |saved| && UpToId(Reattached(saved[i], None), saved[j])
  }

  ghost predicate Stable(saved: seq<InterfaceDescriptor>) {
    forall i :: 0 <= i < |saved| ==> StableAt(saved, i)
  }

  lemma ShapedIsStable(saved: seq<InterfaceDescriptor>)
    requires AllShaped(saved)
    ensures Stable(saved)
  {
    forall i | 0 <= i < |saved| ensures StableAt(saved, i) {
      assert UpToId(Reattached(saved[i], None), saved[i]);
    }
  }

  /** Recording a descriptor that is in the list up to its id changes at most that id. */
  lemma UpsertKnown(list: seq<InterfaceDescriptor>, saved: seq<InterfaceDescriptor>, d: InterfaceDescriptor, j: nat)
    requires Distinct(EndpointOf, saved) && EqualUpToIds(list, saved) && j < |saved| && UpToId(d, saved[j])
    ensures EqualUpToIds(Upsert(EndpointOf, list, d), saved)
  {
    assert forall k :: 0 <= k < |list| ==> EndpointOf(list[k]) == EndpointOf(saved[k]);
    UpsertAt(EndpointOf, list, d, j);
  }

  lemma {:induction false} StableKeeps(saved: seq<InterfaceDescriptor>, outcome: nat -> Attach, n: nat)
    requires n <= |saved| && Distinct(EndpointOf, saved) && Stable(saved)
    ensures EqualUpToIds(ReattachAll(saved, saved, outcome, n), saved)
  {
    if n > 0 {
      StableKeeps(saved, outcome, n - 1);
      var d := saved[n - 1];
      assert StableAt(saved, n - 1);
      if outcome(n - 1).Attaches? && !d.kind.UnknownKind? {
        var j :| 0 <= j < |saved| && UpToId(Reattached(d, None), saved[j]);
        UpsertKnown(ReattachAll(saved, saved, outcome, n - 1), saved, Reattached(d, outcome(n - 1).id), j);
      }
    }
  }

  /** A resume in which only entry `i` attaches. */
  function Only(i: nat): nat -> Attach {
    (k: nat) => if k == i then Attaches(None) else Fails
  }

  lemma {:induction false} OnlyOne(saved: seq<InterfaceDescriptor>, i: nat, n: nat)
    requires n <= |saved| && i < |saved| && !saved[i].kind.UnknownKind?
    ensures ReattachAll(saved, saved, Only(i), n)
         == if i < n then Upsert(EndpointOf, saved, Reattached(saved[i], None)) else saved
  {
    if n > 0 {
      OnlyOne(saved, i, n - 1);
    }
  }

  lemma OnlyStable(saved: seq<InterfaceDescriptor>, i: nat)
    requires i < |saved| && EqualUpToIds(ReattachAll(saved, saved, Only(i), |saved|), saved)
    ensures StableAt(saved, i)
  {
    if !saved[i].kind.UnknownKind? {
      OnlyOne(saved, i, |saved|);
      var d := Reattached(saved[i], None);
      var j := Position(EndpointOf, saved, d);
      UpsertAt(EndpointOf, saved, d, j);
      assert j < |saved| && Upsert(EndpointOf, saved, d)[j] == d;
      assert UpToId(d, saved[j]);
    }
  }

  /**
   * A resume keeps the deduplicated endpoints, their order and their IFAC fields whatever attaches
   * if and only if every entry that can be attached is recorded as one the list already has.
   */
  lemma ResumeStable(list: seq<InterfaceDescriptor>)
    ensures (forall outcome: nat -> Attach :: EqualUpToIds(ResumeInterfaces(list, outcome), UpsertAll(EndpointOf, list)))
       <==> Stable(UpsertAll(EndpointOf, list))
  {
    var saved := UpsertAll(EndpointOf, list);
    UpsertAllExact(EndpointOf, list);
    if Stable(saved) {
      forall outcome: nat -> Attach ensures EqualUpToIds(ResumeInterfaces(list, outcome), saved) {
        StableKeeps(saved, outcome, |saved|);
      }
    } else if forall outcome: nat -> Attach :: EqualUpToIds(ResumeInterfaces(list, outcome), saved) {
      forall i | 0 <= i < |saved| ensures StableAt(saved, i) {
        assert EqualUpToIds(ResumeInterfaces(list, Only(i)), saved);
        OnlyStable(saved, i);
      }
    }
  }

  /** Several resumes in a row, each with its own pattern of attach results. */
  function ResumeRounds(list: seq<InterfaceDescriptor>, rounds: seq<nat -> Attach>): seq<InterfaceDescriptor> {
    if rounds == [] then list
    else ResumeInterfaces(ResumeRounds(list, rounds[..|rounds| - 1]), rounds[|rounds| - 1])
  }

  /**
   * Any number of resumes, with any pattern of failures, keeps the deduplicated endpoints, their
   * order and their IFAC fields, and changes only ids. Lists written by the add methods qualify.
   */
  lemma {:induction false} ResumeFixpoint(list: seq<InterfaceDescriptor>, rounds: seq<nat -> Attach>)
    requires rounds != [] && (AllShaped(list) || Stable(UpsertAll(EndpointOf, list)))
    ensures EqualUpToIds(ResumeRounds(list, rounds), UpsertAll(EndpointOf, list))
  {
    var saved, n := UpsertAll(EndpointOf, list), |rounds| - 1;
    var before := ResumeRounds(list, rounds[..n]);
    if AllShaped(list) {
      ShapedSaved(list);
      ShapedIsStable(saved);
    }
    if n == 0 {
      assert before == list;
      ResumeStable(list);
    } else {
      ResumeFixpoint(list, rounds[..n]);
      DistinctUpToIds(before, list);
      StableUpToIds(before, saved);
      ResumeStable(before);
    }
  }

  lemma StableUpToIds(r: seq<InterfaceDescriptor>, saved: seq<InterfaceDescriptor>)
    requires EqualUpToIds(r, saved) && Stable(saved)
    ensures Stable(r)
  {
    forall i | 0 <= i < |r| ensures StableAt(r, i) {
      assert StableAt(saved, i);
      if !saved[i].kind.UnknownKind? {
        var j :| 0 <= j < |saved| && UpToId(Reattached(saved[i], None), saved[j]);
        assert UpToId(Reattached(r[i], None), r[j]);
      }
    }
  }

  lemma DistinctUpToIds(r: seq<InterfaceDescriptor>, list: seq<InterfaceDescriptor>)
    requires EqualUpToIds(r, UpsertAll(EndpointOf, list))
    ensures UpsertAll(EndpointOf, r) == r
  {
    var saved := UpsertAll(EndpointOf, list);
    UpsertAllExact(EndpointOf, list);
    assert forall i :: 0 <= i < |r| ==> EndpointOf(r[i]) == EndpointOf(saved[i]);
    UpsertAllDistinct(EndpointOf, r);
  }

  /** A descriptor of another shape, as only a hand-edited file can hold, is duplicated by a resume. */
  lemma UnshapedIsDuplicated()
    ensures exists list: seq<InterfaceDescriptor>, outcome: nat -> Attach ::
      |list| == 1 && |ResumeInterfaces(list, outcome)| == 2
  {
    var d := InterfaceDescriptor(None, Tcp, Server, Some("h:1"), Some("p:2"), None, None);
    var outcome: nat -> Attach := i => Attaches(None);
    UpsertAllDistinct(EndpointOf, [d]);
    UpsertAt(EndpointOf, [d], Reattached(d, None), 1);
    assert ReattachAll([d], [d], outcome, 0) == [d];
    assert |ResumeInterfaces([d], outcome)| == 2;
  }
}
