/** The repair of the map cycle file in controller/src/ds.rs, on the text of the file. */
module Mapcycle {
  import opened Basics
  import opened Text

  // --------------------------------------------------------- lines (Rust's `str::lines`)

  function NewlineAt(s: string): (n: nat)
    ensures n <= |s|
  {
    if s == [] || s[0] == '\n' then 0 else 1 + NewlineAt(s[1..])
  }

  /** A line without the carriage return of its line ending. */
  function DropCr(l: string): string {
    if l != [] && l[|l| - 1] == '\r' then l[..|l| - 1] else l
  }

  /** The lines of a text; a last line that is not ended keeps all its characters. */
  function Lines(s: string): seq<string> {
    if s == [] then []
    else
      var n := NewlineAt(s);
      if n == |s| then [s] else [DropCr(s[..n])] + Lines(s[n + 1..])
  }

  /** The lines with a newline between each two. */
  function Join(ls: seq<string>): string {
    if ls == [] then []
    else if |ls| == 1 then ls[0]
    else ls[0] + (['\n'] + Join(ls[1..]))
  }

  function TextOf(ls: seq<string>): string {
    Join(ls) + ['\n']
  }

  predicate OneLine(l: string) {
    forall i :: 0 <= i < |l| ==> l[i] != '\n'
  }

  predicate OneLines(ls: seq<string>) {
    forall k :: 0 <= k < |ls| ==> OneLine(ls[k])
  }

  function DropCrs(ls: seq<string>): (r: seq<string>)
    ensures |r| == |ls| && forall k :: 0 <= k < |ls| ==> r[k] == DropCr(ls[k])
  {
    seq(|ls|, k requires 0 <= k < |ls| => DropCr(ls[k]))
  }

  // --------------------------------------------------------------- the entries

  const PORTAL := "sp_campaign_portal"
  const PORTAL_DASHED := "-sp_campaign_portal"
  const FIRST_MAP := "svencoop1"

  predicate IsPortal(l: string) {
    Trim(l) == PORTAL_DASHED || Trim(l) == PORTAL
  }

  predicate IsFirstMap(l: string) {
    Trim(l) == FIRST_MAP
  }

  predicate HasPortal(ls: seq<string>) {
    exists k :: 0 <= k < |ls| && IsPortal(ls[k])
  }

  function NonPortal(ls: seq<string>): seq<string> {
    if ls == [] then []
    else (if IsPortal(ls[0]) then [] else [ls[0]]) + NonPortal(ls[1..])
  }

  /** `k` is the position of the first entry for svencoop1. */
  predicate FirstMapAt(ls: seq<string>, k: nat) {
    k < |ls| && IsFirstMap(ls[k]) && forall i :: 0 <= i < k ==> !IsFirstMap(ls[i])
  }

  function FirstMap(ls: seq<string>): (r: Option<nat>)
    ensures r.Some? ==> FirstMapAt(ls, r.value)
    ensures r.None? ==> forall i :: 0 <= i < |ls| ==> !IsFirstMap(ls[i])
  {
    if ls == [] then None
    else if IsFirstMap(ls[0]) then Some(0)
    else
      var i :- FirstMap(ls[1..]);
      Some(i + 1)
  }

  function Swap<T>(xs: seq<T>, i: nat, j: nat): seq<T>
    requires i < |xs| && j < |xs|
  {
    xs[i := xs[j]][j := xs[i]]
  }

  function FirstMapFirst(ls: seq<string>): seq<string> {
    var r := FirstMap(ls);
    if r.None? then ls else Swap(ls, 0, r.value)
  }

  /** The entries kept, in the order in which they are written back. */
  function Kept(contents: string): seq<string> {
    FirstMapFirst(NonPortal(Lines(contents)))
  }

  /** What the file holds after a repair that could write. */
  function Repaired(contents: string): string {
    if HasPortal(Lines(contents)) then TextOf(Kept(contents)) else contents
  }

  // -------------------------------------------------------------------- the file

  /** A write that failed leaves the file in any state; none means that it cannot be read. */
  datatype WriteOutcome = Written | Failed(left: Option<string>)

  lemma NonPortalFrom(all: seq<string>, i: nat)
    requires i < |all|
    ensures NonPortal(all[i..]) == (if IsPortal(all[i]) then [] else [all[i]]) + NonPortal(all[i + 1..])
  {
    assert all[i..][0] == all[i] && all[i..][1..] == all[i + 1..];
  }

  method CollectOthers(all: seq<string>) returns (lines: seq<string>)
    ensures lines == NonPortal(all)
  {
    lines := [];
    for i := 0 to |all|
      invariant lines + NonPortal(all[i..]) == NonPortal(all)
    {
      NonPortalFrom(all, i);
      if !IsPortal(all[i]) {
        Associative(lines, [all[i]], NonPortal(all[i + 1..]));
        lines := lines + [all[i]];
      } else {
        assert [] + NonPortal(all[i + 1..]) == NonPortal(all[i + 1..]);
      }
    }
    assert all[|all|..] == [] && lines + [] == lines;
  }

  method PutFirstMapFirst(kept: seq<string>) returns (lines: seq<string>)
    ensures lines == FirstMapFirst(kept)
  {
    var pos := 0;
    while pos < |kept| && !IsFirstMap(kept[pos])
      invariant pos <= |kept| && forall i :: 0 <= i < pos ==> !IsFirstMap(kept[i])
    {
      pos := pos + 1;
    }
    lines := kept;
    if pos < |kept| {
      FirstMapUnique(kept, pos);
      lines := lines[0 := lines[pos]][pos := lines[0]];
    }
  }

  class MapcycleFile {
    var contents: Option<string>

    constructor (contents: Option<string>)
      ensures this.contents == contents
    {
      this.contents := contents;
    }

    /** Whether the file was rewritten; a file without portal entry is never touched. */
    method FixDefault(outcome: WriteOutcome) returns (rewritten: bool)
      modifies this
      ensures rewritten <==> old(contents).Some? && HasPortal(Lines(old(contents).value)) && outcome.Written?
      ensures old(contents).None? || !HasPortal(Lines(old(contents).value)) ==> contents == old(contents)
      ensures rewritten ==> contents == Some(Repaired(old(contents).value))
      ensures old(contents).Some? && HasPortal(Lines(old(contents).value)) && outcome.Failed?
        ==> contents == outcome.left
    {
      if contents.None? {
        return false;
      }
      var all := Lines(contents.value);
      if !HasPortal(all) {
        return false;
      }
      var lines := CollectOthers(all);
      lines := PutFirstMapFirst(lines);
      var text := Join(lines);
      text := text + ['\n'];
      match outcome
      case Written =>
        contents := Some(text);
        return true;
      case Failed(left) =>
        contents := left;
        return false;
    }
  }

  lemma FirstMapUnique(ls: seq<string>, k: nat)
    requires FirstMapAt(ls, k)
    ensures FirstMap(ls) == Some(k)
  {
    var r := FirstMap(ls);
    if r.Some? && r.value != k {
      assert false;
    }
  }

  // -------------------------------------------------------------- the round trip

  lemma {:induction false} NewlineAtEnd(l: string, rest: string)
    requires OneLine(l)
    ensures NewlineAt(l + (['\n'] + rest)) == |l|
  {
    if l != [] {
      assert (l + (['\n'] + rest))[1..] == l[1..] + (['\n'] + rest);
      NewlineAtEnd(l[1..], rest);
    }
  }

  lemma LinesStep(l: string, rest: string)
    requires OneLine(l)
    ensures Lines(l + (['\n'] + rest)) == [DropCr(l)] + Lines(rest)
  {
    var s := l + (['\n'] + rest);
    NewlineAtEnd(l, rest);
    assert s[..|l|] == l && s[|l| + 1..] == rest;
  }

  lemma TextOfOne(l: string)
    ensures TextOf([l]) == l + (['\n'] + [])
  {
  }

  lemma TextOfMore(l: string, rest: seq<string>)
    requires rest != []
    ensures TextOf([l] + rest) == l + (['\n'] + TextOf(rest))
  {
    var ls := [l] + rest;
    assert ls[1..] == rest;
    assert Join(ls) == l + (['\n'] + Join(rest));
  }

  lemma LinesOfOne(l: string)
    requires OneLine(l)
    ensures Lines(TextOf([l])) == [DropCr(l)]
  {
    TextOfOne(l);
    LinesStep(l, []);
  }

  lemma LinesOfMore(l: string, rest: seq<string>)
    requires OneLine(l) && rest != []
    ensures Lines(TextOf([l] + rest)) == [DropCr(l)] + Lines(TextOf(rest))
  {
    TextOfMore(l, rest);
    LinesStep(l, TextOf(rest));
  }

  lemma DropCrsCons(l: string, rest: seq<string>)
    ensures DropCrs([l] + rest) == [DropCr(l)] + DropCrs(rest)
  {
  }

  lemma OneLinesCons(l: string, rest: seq<string>)
    requires OneLines([l] + rest)
    ensures OneLine(l) && OneLines(rest)
  {
    assert ([l] + rest)[0] == l;
    assert forall k :: 0 <= k < |rest| ==> rest[k] == ([l] + rest)[k + 1];
  }

  /** Reading back written entries gives them, each without one carriage return at its end. */
  lemma {:induction false} LinesRoundTrip(ls: seq<string>)
    requires ls != [] && OneLines(ls)
    ensures Lines(TextOf(ls)) == DropCrs(ls)
    decreases |ls|
  {
    var l, rest := ls[0], ls[1..];
    assert ls == [l] + rest;
    OneLinesCons(l, rest);
    DropCrsCons(l, rest);
    if rest == [] {
      assert [l] + rest == [l] && DropCrs(rest) == [];
      LinesOfOne(l);
    } else {
      LinesOfMore(l, rest);
      LinesRoundTrip(rest);
    }
  }

  lemma {:induction false} NewlineFirst(s: string)
    ensures OneLine(s[..NewlineAt(s)])
  {
    if s != [] && s[0] != '\n' {
      NewlineFirst(s[1..]);
      assert s[..NewlineAt(s)] == [s[0]] + s[1..][..NewlineAt(s[1..])];
    }
  }

  lemma {:induction false} LinesAreLines(s: string)
    ensures OneLines(Lines(s))
    decreases |s|
  {
    if s != [] {
      var n := NewlineAt(s);
      NewlineFirst(s);
      if n == |s| {
        assert s[..n] == s;
      } else {
        LinesAreLines(s[n + 1..]);
      }
    }
  }

  // ---------------------------------------------------------- what a repair keeps

  lemma {:induction false} NonPortalKeeps(ls: seq<string>)
    requires OneLines(ls)
    ensures OneLines(NonPortal(ls)) && !HasPortal(NonPortal(ls))
  {
    if ls != [] {
      NonPortalKeeps(ls[1..]);
    }
  }

  lemma CountCons(x: string, rest: seq<string>, l: string)
    ensures multiset([x] + rest)[l] == multiset(rest)[l] + if x == l then 1 else 0
  {
    assert multiset([x] + rest) == multiset{x} + multiset(rest);
  }

  /** Every line that is not a portal entry is kept as often as it occurs, and no other line is. */
  lemma {:induction false} OthersKept(ls: seq<string>, l: string)
    ensures multiset(NonPortal(ls))[l] == if IsPortal(l) then 0 else multiset(ls)[l]
  {
    if ls != [] {
      var x, rest := ls[0], ls[1..];
      OthersKept(rest, l);
      HeadTail(ls);
      CountCons(x, rest, l);
      CountCons(x, NonPortal(rest), l);
      assert [] + NonPortal(rest) == NonPortal(rest);
    }
  }

  lemma SwapKeeps(ls: seq<string>, i: nat, j: nat)
    requires i < |ls| && j < |ls|
    ensures multiset(Swap(ls, i, j)) == multiset(ls)
    ensures DropCrs(Swap(ls, i, j)) == Swap(DropCrs(ls), i, j)
  {
  }

  lemma {:induction false} TrimEndOfWhite(a: string, c: char)
    requires IsWhite(c)
    ensures TrimEnd(a + [c]) == TrimEnd(a)
  {
    assert (a + [c])[..|a + [c]| - 1] == a;
  }

  lemma {:induction false} TrimWhite(a: string, c: char)
    requires IsWhite(c)
    ensures Trim(a + [c]) == Trim(a)
    decreases |a|
  {
    if a == [] {
      assert TrimStart([c]) == TrimStart([c][1..]);
    } else if IsWhite(a[0]) {
      assert (a + [c])[1..] == a[1..] + [c];
      TrimWhite(a[1..], c);
    } else {
      TrimEndOfWhite(a, c);
    }
  }

  /** Dropping the carriage return of a line ending never changes which entry a line is. */
  lemma DropCrSameEntry(l: string)
    ensures Trim(DropCr(l)) == Trim(l)
  {
    if l != [] && l[|l| - 1] == '\r' {
      var a := l[..|l| - 1];
      assert l == a + ['\r'];
      TrimWhite(a, '\r');
    }
  }

  lemma FirstMapFirstKeeps(ls: seq<string>)
    requires OneLines(ls) && !HasPortal(ls)
    ensures OneLines(FirstMapFirst(ls)) && !HasPortal(FirstMapFirst(ls))
    ensures multiset(FirstMapFirst(ls)) == multiset(ls)
  {
    var r := FirstMap(ls);
    if r.Some? {
      SwapKeeps(ls, 0, r.value);
      SwapMembers(ls, 0, r.value);
    }
  }

  lemma SwapMembers(ls: seq<string>, i: nat, j: nat)
    requires i < |ls| && j < |ls| && OneLines(ls) && !HasPortal(ls)
    ensures OneLines(Swap(ls, i, j)) && !HasPortal(Swap(ls, i, j))
  {
  }

  lemma KeptFacts(contents: string)
    ensures OneLines(Kept(contents)) && !HasPortal(Kept(contents))
    ensures multiset(Kept(contents)) == multiset(NonPortal(Lines(contents)))
  {
    LinesAreLines(contents);
    NonPortalKeeps(Lines(contents));
    FirstMapFirstKeeps(NonPortal(Lines(contents)));
  }

  lemma {:induction false} LinesOfNothing()
    ensures Lines(TextOf([])) == [[]]
  {
    LinesStep([], []);
    assert TextOf([]) == [] + (['\n'] + []);
  }

  /**
   * The lines of a rewritten file: the kept entries in the order written, without the carriage
   * returns of their line endings; the newline written for an empty list reads as one empty line.
   */
  lemma RepairedLines(contents: string)
    requires HasPortal(Lines(contents))
    ensures Lines(Repaired(contents)) == if Kept(contents) == [] then [[]] else DropCrs(Kept(contents))
  {
    KeptFacts(contents);
    if Kept(contents) == [] {
      LinesOfNothing();
    } else {
      LinesRoundTrip(Kept(contents));
    }
  }

  /** After a repair no line of the file is a portal entry. */
  lemma NoPortalLeft(contents: string)
    ensures !HasPortal(Lines(Repaired(contents)))
  {
    if HasPortal(Lines(contents)) {
      RepairedLines(contents);
      KeptFacts(contents);
      var ls := Kept(contents);
      if ls != [] {
        forall k | 0 <= k < |ls| ensures !IsPortal(DropCrs(ls)[k]) {
          DropCrSameEntry(ls[k]);
        }
      } else {
        assert Trim([]) == [];
      }
    }
  }

  /** A second repair of a rewritten file finds nothing to do, and leaves the text as it is. */
  lemma RepairTwice(contents: string)
    ensures Repaired(Repaired(contents)) == Repaired(contents)
  {
    NoPortalLeft(contents);
  }

  /** Nothing but portal entries is lost and nothing is added: the other lines are permuted. */
  lemma RepairPermutes(contents: string)
    requires HasPortal(Lines(contents))
    ensures var others := NonPortal(Lines(contents));
      multiset(Lines(Repaired(contents))) == if others == [] then multiset{[]} else multiset(DropCrs(others))
  {
    RepairedLines(contents);
    var others := NonPortal(Lines(contents));
    var r := FirstMap(others);
    if r.Some? {
      SwapKeeps(others, 0, r.value);
      DropCrsSwapped(others, r.value);
    }
  }

  lemma DropCrsSwapped(ls: seq<string>, k: nat)
    requires k < |ls|
    ensures multiset(DropCrs(Swap(ls, 0, k))) == multiset(DropCrs(ls))
  {
    SwapKeeps(ls, 0, k);
    SwapKeeps(DropCrs(ls), 0, k);
  }

  /** If the file lists svencoop1, a rewritten file lists it first. */
  lemma FirstMapLeads(contents: string, k: nat)
    requires HasPortal(Lines(contents)) && k < |NonPortal(Lines(contents))|
    requires IsFirstMap(NonPortal(Lines(contents))[k])
    ensures Lines(Repaired(contents)) != [] && IsFirstMap(Lines(Repaired(contents))[0])
  {
    RepairedLines(contents);
    DropCrSameEntry(Kept(contents)[0]);
  }

  /** The entries with entry `k` taken out and put in front. */
  function MovedToFront(ls: seq<string>, k: nat): seq<string>
    requires k < |ls|
  {
    [ls[k]] + ls[..k] + ls[k + 1..]
  }

  /**
   * The code's comment speaks of moving svencoop1 to the front; it is swapped with the first
   * entry, which is the same exactly when all entries before it are equal.
   */
  lemma SwapIsMove(ls: seq<string>, k: nat)
    requires FirstMap(ls) == Some(k)
    ensures FirstMapFirst(ls) == MovedToFront(ls, k) <==> forall i :: 0 <= i < k ==> ls[i] == ls[0]
  {
    assert FirstMapFirst(ls) == Swap(ls, 0, k);
    SwapEqualsMove(ls, k);
  }

  lemma SwapEqualsMove(ls: seq<string>, k: nat)
    requires k < |ls|
    ensures Swap(ls, 0, k) == MovedToFront(ls, k) <==> forall i :: 0 <= i < k ==> ls[i] == ls[0]
  {
    if Swap(ls, 0, k) == MovedToFront(ls, k) {
      EqualBefore(ls, k);
    }
    if forall i :: 0 <= i < k ==> ls[i] == ls[0] {
      SameEntries(ls, k);
    }
  }

  lemma SameEntries(ls: seq<string>, k: nat)
    requires k < |ls| && forall i :: 0 <= i < k ==> ls[i] == ls[0]
    ensures Swap(ls, 0, k) == MovedToFront(ls, k)
  {
    var moved := MovedToFront(ls, k);
    assert forall i :: 0 < i <= k ==> moved[i] == ls[i - 1];
    assert forall i :: k < i < |ls| ==> moved[i] == ls[i];
  }

  lemma EqualBefore(ls: seq<string>, k: nat)
    requires k < |ls| && Swap(ls, 0, k) == MovedToFront(ls, k)
    ensures forall i :: 0 <= i < k ==> ls[i] == ls[0]
  {
    var moved := MovedToFront(ls, k);
    assert forall i :: 0 < i < k ==> ls[i] == moved[i] == ls[i - 1];
    AllEqualToFirst(ls, k);
  }

  lemma {:induction false} AllEqualToFirst(ls: seq<string>, k: nat)
    requires k < |ls| && forall i :: 0 < i < k ==> ls[i] == ls[i - 1]
    ensures forall i :: 0 <= i < k ==> ls[i] == ls[0]
  {
    if k > 1 {
      AllEqualToFirst(ls, k - 1);
      assert ls[k - 1] == ls[k - 2];
    }
  }

  /** A map cycle in which svencoop1 is not moved to the front: the two maps before it change places. */
  const SWAPPED := TextOf(["a", "b", FIRST_MAP, PORTAL])

  lemma SwapIsNotMove()
    ensures Lines(Repaired(SWAPPED)) == [FIRST_MAP, "b", "a"]
    ensures var kept := NonPortal(Lines(SWAPPED)); |kept| == 3 && MovedToFront(kept, 2) == [FIRST_MAP, "a", "b"]
  {
    var ls, kept, swapped := ["a", "b", FIRST_MAP, PORTAL], ["a", "b", FIRST_MAP], [FIRST_MAP, "b", "a"];
    ExampleEntries();
    LinesRoundTrip(ls);
    assert DropCrs(ls) == ls && DropCrs(swapped) == swapped;
    assert IsPortal(ls[3]);
    ExampleKept();
    FirstMapUnique(kept, 2);
    assert Swap(kept, 0, 2) == swapped;
    RepairedLines(SWAPPED);
  }

  /** None of the entries has anything to trim. */
  lemma ExampleEntries()
    ensures Trim("a") == "a" && Trim("b") == "b" && Trim(FIRST_MAP) == FIRST_MAP && Trim(PORTAL) == PORTAL
    ensures |FIRST_MAP| == 9 && |PORTAL| == 18 && |PORTAL_DASHED| == 19 && FIRST_MAP[8] == '1' && PORTAL[17] == 'l'
    ensures OneLines(["a", "b", FIRST_MAP, PORTAL])
  {
  }

  lemma NonPortalCons(x: string, rest: seq<string>)
    ensures NonPortal([x] + rest) == (if IsPortal(x) then [] else [x]) + NonPortal(rest)
  {
    assert ([x] + rest)[1..] == rest;
  }

  lemma ExampleKept()
    ensures NonPortal(["a", "b", FIRST_MAP, PORTAL]) == ["a", "b", FIRST_MAP]
  {
    ExampleEntries();
    NonPortalCons(PORTAL, []);
    NonPortalCons(FIRST_MAP, [PORTAL]);
    NonPortalCons("b", [FIRST_MAP, PORTAL]);
    NonPortalCons("a", ["b", FIRST_MAP, PORTAL]);
    assert [PORTAL] + [] == [PORTAL] && [FIRST_MAP] + [PORTAL] == [FIRST_MAP, PORTAL];
    assert ["b"] + [FIRST_MAP, PORTAL] == ["b", FIRST_MAP, PORTAL];
    assert ["a"] + ["b", FIRST_MAP, PORTAL] == ["a", "b", FIRST_MAP, PORTAL];
  }
}
