/** The server browser list of src/relay.rs and the server the client dials. */
module ServerBrowser {
  import opened Basics
  import opened Upserts

  type Hash = nat

  datatype DiscoveredServer = DiscoveredServer(hash: Hash, lastSeen: nat, name: Option<string>)

  function HashOf(s: DiscoveredServer): Hash {
    s.hash
  }

  /** The router's announce handling: `discovered` is the browser list, `target` the server to dial. */
  class Browser {
    var discovered: seq<DiscoveredServer>
    var target: Option<Hash>

    constructor (explicit: Option<Hash>)
      ensures discovered == [] && target == explicit
    {
      discovered, target := [], explicit;
    }

    method RememberServer(destination: Hash, name: Option<string>, now: nat)
      modifies this`discovered
      ensures discovered == Upsert(HashOf, old(discovered), DiscoveredServer(destination, now, name))
    {
      ghost var heard := DiscoveredServer(destination, now, name);
      var i := 0;
      while i < |discovered| && discovered[i].hash != destination
        invariant 0 <= i <= |discovered|
        invariant forall j :: 0 <= j < i ==> discovered[j].hash != destination
      {
        i := i + 1;
      }
      UpsertAt(HashOf, discovered, heard, i);
      if i < |discovered| {
        var s := discovered[i];
        discovered := discovered[i := s.(lastSeen := now, name := name)];
      } else {
        discovered := discovered + [DiscoveredServer(destination, now, name)];
      }
    }

    method AnnounceHeard(destination: Hash, name: Option<string>, now: nat)
      modifies this
      ensures discovered == Upsert(HashOf, old(discovered), DiscoveredServer(destination, now, name))
      ensures target == if old(target).None? then Some(destination) else old(target)
    {
      RememberServer(destination, name, now);
      if target.None? {
        target := Some(destination);
      }
    }
  }

  /** The router hears one announce after another. */
  method HearAll(b: Browser, heard: seq<DiscoveredServer>)
    requires b.discovered == []
    modifies b
    ensures b.discovered == UpsertAll(HashOf, heard)
    ensures b.target == TargetAfter(old(b.target), heard)
  {
    for n := 0 to |heard|
      invariant b.discovered == UpsertAll(HashOf, heard[..n])
      invariant b.target == TargetAfter(old(b.target), heard[..n])
    {
      b.AnnounceHeard(heard[n].hash, heard[n].name, heard[n].lastSeen);
      assert heard[..n + 1][..n] == heard[..n];
    }
    assert heard[..|heard|] == heard;
  }

  /** The target after a list of announces; `HearAll` computes it. */
  function TargetAfter(explicit: Option<Hash>, heard: seq<DiscoveredServer>): Option<Hash> {
    if heard == [] then explicit
    else
      var t := TargetAfter(explicit, heard[..|heard| - 1]);
      if t.None? then Some(heard[|heard| - 1].hash) else t
  }

  /**
   * Without an explicit hash the client dials the first server of its browser list, and that never
   * changes: later announces refresh entries in place and only ever append new ones.
   */
  lemma {:induction false} DialsFirstListed(heard: seq<DiscoveredServer>)
    ensures heard == [] ==> TargetAfter(None, heard) == None
    ensures heard != [] ==> UpsertAll(HashOf, heard) != []
    ensures heard != [] ==> TargetAfter(None, heard) == Some(heard[0].hash)
    ensures heard != [] ==> UpsertAll(HashOf, heard)[0].hash == heard[0].hash
  {
    if heard != [] {
      var before, d := heard[..|heard| - 1], heard[|heard| - 1];
      DialsFirstListed(before);
      var r := UpsertAll(HashOf, before);
      UpsertAt(HashOf, r, d, Position(HashOf, r, d));
    }
  }
}
