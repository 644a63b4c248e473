/** What holds in every reachable state of the bridge server. */
module ServerSafety {
  import opened Basics
  import opened Framing
  import opened Intake
  import opened Logs
  import opened ServerRelay
  import opened ServerInvariant

  /**
   * In every reachable state: a relay was handed chunks of its own link only and issues on it only;
   * its queue holds at most 256; what it issued is the start of the framing of what it read,
   * datagram after datagram; what it sent to the game server is the reassembly of what it took,
   * less the last datagram if sending that failed; and what it took is the start of what its channel was handed, the closing empty chunk included.
   */
  lemma Safety(s: State, r: TaskId)
    requires Reachable(s) && r < |s.relays|
    ensures |s.relays[r].q.queue| <= CAPACITY
    ensures forall i :: 0 <= i < |s.arrivals| && s.arrivals[i].to == Some(r) ==> s.arrivals[i].link == s.relays[r].link
    ensures forall i :: 0 <= i < |s.wire| && s.wire[i].task == r ==> s.wire[i].link == s.relays[r].link
    ensures IssuedBy(s.wire, r) <= Stream(ReadBy(s.fromSc, r))
    ensures s.relays[r].toIssue == [] ==> IssuedBy(s.wire, r) == Stream(ReadBy(s.fromSc, r))
    ensures WrittenBy(s.toSc, r) == SentOut(s.relays[r].q) <= Feed(s.relays[r].q.taken).out
    ensures !s.relays[r].q.failed ==> WrittenBy(s.toSc, r) == Feed(s.relays[r].q.taken).out
    ensures s.relays[r].q.taken <= HandedTo(s.arrivals, r) + [[]]
  {
    ReachableInv(s);
    assert RelayAt(s, r);
    var y, handed := s.relays[r], HandedTo(s.arrivals, r);
    assert y.q.taken <= handed + if y.sentinel then [[]] else [];
    SentOutStarts(y.q);
  }

  /** The closing empty chunk adds nothing to the reassembly. */
  lemma SentinelAddsNothing(taken: seq<Chunk>, handed: seq<Chunk>) returns (chunks: seq<Chunk>)
    requires taken <= handed + [[]]
    ensures chunks <= handed && Feed(chunks) == Feed(taken)
  {
    if taken == handed + [[]] {
      chunks := handed;
      FeedSnoc(FRESH, handed, []);
      assert Feed(handed).buf + [] == Feed(handed).buf && Feed(handed).out + [] == Feed(handed).out;
    } else {
      chunks := taken;
    }
  }

  /** Some chunks that a relay was handed, in order, reassemble to what it sent. */
  lemma SentFromHanded(s: State, r: TaskId) returns (chunks: seq<Chunk>)
    requires Reachable(s) && r < |s.relays|
    ensures chunks <= HandedTo(s.arrivals, r) && WrittenBy(s.toSc, r) == Feed(chunks).out
  {
    Safety(s, r);
    var sent := SentChunks(s.relays[r].q);
    chunks := SentinelAddsNothing(sent, HandedTo(s.arrivals, r));
  }

  lemma HandedFromStream(s: State, r: TaskId, chunks: seq<Chunk>, ds: seq<Datagram>)
    requires Inv(s) && r < |s.relays| && chunks <= HandedTo(s.arrivals, r)
    requires Subsequence(ArrivedOn(s.arrivals, s.relays[r].link), Stream(ds))
    ensures Subsequence(chunks, Stream(ds))
  {
    var handed, arrived := HandedTo(s.arrivals, r), ArrivedOn(s.arrivals, s.relays[r].link);
    HandedIsSome(s.arrivals, r, s.relays[r].link);
    PrefixIsSubsequence(chunks, handed);
    SubsequenceTransitive(chunks, handed, arrived);
    SubsequenceTransitive(chunks, arrived, Stream(ds));
  }

  /**
   * What a relay sends to the game server is a lossy image of what its link's peer framed, if the
   * link brings some of the chunks sent on it, in order.
   */
  lemma OutputIsLossy(s: State, r: TaskId, ds: seq<Datagram>)
    requires Reachable(s) && r < |s.relays|
    requires Subsequence(ArrivedOn(s.arrivals, s.relays[r].link), Stream(ds))
    ensures LossyImage(ds, WrittenBy(s.toSc, r))
  {
    ReachableInv(s);
    var chunks := SentFromHanded(s, r);
    HandedFromStream(s, r, chunks, ds);
    IntakeIsLossy(chunks, ds);
  }

  /**
   * The guard bound at a relay, for a peer that frames reads of at most 8192 bytes: the buffer holds
   * at most 7600 bytes for each datagram in a row whose final chunk was not taken, so the guard
   * throws a datagram away only if that holds of at least eight before it.
   */
  lemma BufferAtRelay(s: State, r: TaskId, ds: seq<Datagram>) returns (keep: seq<bool>)
    requires Reachable(s) && r < |s.relays| && forall d :: d in ds ==> |d| <= UDP_READ_BUF
    requires Subsequence(ArrivedOn(s.arrivals, s.relays[r].link), Stream(ds))
    ensures |keep| == |Stream(ds)| && Delivered(ds, keep) == Feed(s.relays[r].q.taken)
    ensures Delivered(ds, keep).buf == s.relays[r].q.buf
    ensures WithinBound(s.relays[r].q.buf, ds, keep)
  {
    ReachableInv(s);
    Safety(s, r);
    assert RelayAt(s, r);
    var chunks := SentinelAddsNothing(s.relays[r].q.taken, HandedTo(s.arrivals, r));
    HandedFromStream(s, r, chunks, ds);
    keep := BufferBound(chunks, ds);
  }

  // ------------------------------------------------------ fresh links, one relay each

  predicate IsReport(step: Step) {
    step.EventArrives? && step.e.Established?
  }

  /** The links that the engine has reported as established in the first `n` steps. */
  function NewLinks(steps: seq<Step>, n: nat): set<LinkId>
    requires n <= |steps|
  {
    if n == 0 then {}
    else NewLinks(steps, n - 1) + if IsReport(steps[n - 1]) then {steps[n - 1].e.link} else {}
  }

  /** The engine reports no link twice. */
  predicate FreshLinks(steps: seq<Step>) {
    forall n :: 0 <= n < |steps| && IsReport(steps[n]) ==> steps[n].e.link !in NewLinks(steps, n)
  }

  ghost predicate OneRelayPerLink(s: State) {
    forall q, r :: 0 <= q < r < |s.relays| ==> s.relays[q].link != s.relays[r].link
  }

  ghost predicate Pending(s: State, known: set<LinkId>) {
    && (forall r :: 0 <= r < |s.relays| ==> s.relays[r].link in known)
    && (forall k :: 0 <= k < |s.events| && s.events[k].Established? ==> s.events[k].link in known)
    && (forall k, r :: 0 <= k < |s.events| && s.events[k].Established? && 0 <= r < |s.relays| ==>
          s.events[k].link != s.relays[r].link)
    && (forall j, k :: 0 <= j < k < |s.events| && s.events[j].Established? && s.events[k].Established? ==>
          s.events[j].link != s.events[k].link)
  }

  lemma PendingRoute(s: State, known: set<LinkId>)
    requires MapsOk(s) && Enabled(s, Route) && Pending(s, known) && OneRelayPerLink(s)
    ensures Pending(Do(s, Route), known) && OneRelayPerLink(Do(s, Route))
  {
    var s' := Do(s, Route);
    assert forall k :: 0 <= k < |s'.events| ==> s'.events[k] == s.events[k + 1];
    assert forall r :: 0 <= r < |s.relays| ==> s'.relays[r].link == s.relays[r].link;
    assert |s'.relays| > |s.relays| ==> s'.relays[|s.relays|].link == s.events[0].link;
  }

  lemma PendingStep(s: State, step: Step, known: set<LinkId>)
    requires MapsOk(s) && Enabled(s, step) && Pending(s, known) && OneRelayPerLink(s) && !step.Route?
    requires IsReport(step) ==> step.e.link !in known
    ensures OneRelayPerLink(Do(s, step))
    ensures Pending(Do(s, step), known + if IsReport(step) then {step.e.link} else {})
  {
    var s' := Do(s, step);
    RelaysGrow(s, step);
    assert |s'.relays| == |s.relays|;
  }

  /** If the engine reports no link twice, no two relays ever have the same link. */
  lemma {:induction false} FreshRelays(run: Path, n: nat)
    requires IsRun(run) && FreshLinks(run.steps) && n < |run.states|
    ensures Pending(run.states[n], NewLinks(run.steps, n)) && OneRelayPerLink(run.states[n])
  {
    if n > 0 {
      var s, step, known := run.states[n - 1], run.steps[n - 1], NewLinks(run.steps, n - 1);
      FreshRelays(run, n - 1);
      if step.Route? {
        PendingRoute(s, known);
        assert NewLinks(run.steps, n) == known;
      } else {
        PendingStep(s, step, known);
      }
    }
  }
}
