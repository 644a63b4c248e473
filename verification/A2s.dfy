/**
 * The decoder of Valve's server query replies in controller/src/a2s.rs (A2S_INFO and A2S_PLAYER,
 * "Response Format" of Valve's "Server queries"). Strings are kept as bytes and the float as its
 * four bytes.
 */
module A2s {
  import opened Basics

  type Bytes = seq<byte>

  datatype A2sInfo = A2sInfo(
    serverName: Bytes, map_: Bytes, gameDir: Bytes, gameDescription: Bytes, players: byte, maxPlayers: byte,
    bots: byte, serverType: string, environment: string, passwordProtected: bool, vacSecured: bool, version: Bytes)

  datatype A2sPlayer = A2sPlayer(index: byte, name: Bytes, score: int, duration: Bytes)

  /** A value read, and the position after it. */
  datatype Read<+T> = Read(value: T, next: nat)

  // ---------------------------------------------------------------- the readers

  function U8(data: Bytes, p: nat): Option<Read<byte>> {
    if p < |data| then Some(Read(data[p], p + 1)) else None
  }

  function Block(data: Bytes, p: nat, n: nat): Option<Read<Bytes>> {
    if p + n <= |data| then Some(Read(data[p..p + n], p + n)) else None
  }

  /** The bytes up to the next zero, which is consumed too. */
  function CString(data: Bytes, p: nat): Option<Read<Bytes>>
    decreases |data| - p
  {
    if p >= |data| then None
    else if data[p] == 0 then Some(Read([], p + 1))
    else
      var r :- CString(data, p + 1);
      Some(Read([data[p]] + r.value, r.next))
  }

  function Unsigned(b: Bytes): nat {
    if b == [] then 0 else b[0] as nat + 0x100 * Unsigned(b[1..])
  }

  /** Little-endian two's complement on two and on four bytes. */
  function Signed16(b: Bytes): int
    requires |b| == 2
  {
    if Unsigned(b) < 0x8000 then Unsigned(b) else Unsigned(b) - 0x1_0000
  }

  function Signed32(b: Bytes): int
    requires |b| == 4
  {
    if Unsigned(b) < 0x8000_0000 then Unsigned(b) else Unsigned(b) - 0x1_0000_0000
  }

  datatype Names = Names(serverName: Bytes, map_: Bytes, gameDir: Bytes, gameDescription: Bytes)

  function FourNames(data: Bytes, p: nat): Option<Read<Names>> {
    var a :- CString(data, p);
    var b :- CString(data, a.next);
    var c :- CString(data, b.next);
    var d :- CString(data, c.next);
    Some(Read(Names(a.value, b.value, c.value, d.value), d.next))
  }

  function HexDigit(d: nat): char
    requires d < 16
  {
    "0123456789abcdef"[d]
  }

  /** The byte in lower-case hexadecimal with the prefix 0x, as Rust's alternate form prints it. */
  function HexText(b: byte): string {
    var n := b as nat;
    "0x" + if n < 16 then [HexDigit(n)] else [HexDigit(n / 16), HexDigit(n % 16)]
  }

  function DecodeServerType(b: byte): string {
    if b == 'd' as int as byte then "dedicated"
    else if b == 'l' as int as byte then "listen"
    else if b == 'p' as int as byte then "proxy"
    else HexText(b)
  }

  function DecodeEnvironment(b: byte): string {
    if b == 'l' as int as byte then "linux"
    else if b == 'w' as int as byte then "windows"
    else if b == 'm' as int as byte || b == 'o' as int as byte then "mac"
    else HexText(b)
  }

  lemma HexTextTellsApart(a: byte, b: byte)
    requires HexText(a) == HexText(b)
    ensures a == b
  {
    var s, t := HexText(a), HexText(b);
    assert |s| == |t| && s[2] == t[2] && s[|s| - 1] == t[|t| - 1];
    HexDigitTellsApart();
  }

  lemma HexDigitTellsApart()
    ensures forall c, d :: 0 <= c < d < 16 ==> HexDigit(c) != HexDigit(d)
  {
  }

  /** No two server types are shown alike. */
  lemma ServerTypeTellsApart(a: byte, b: byte)
    ensures DecodeServerType(a) == DecodeServerType(b) ==> a == b
  {
    assert "dedicated"[0] == 'd' && "listen"[0] == 'l' && "proxy"[0] == 'p';
    assert HexText(a)[0] == '0' && HexText(b)[0] == '0';
    if HexText(a) == HexText(b) {
      HexTextTellsApart(a, b);
    }
  }

  /** No two environments are shown alike, but for the two codes of a Mac. */
  lemma EnvironmentTellsApart(a: byte, b: byte)
    ensures DecodeEnvironment(a) == DecodeEnvironment(b)
       <==> a == b || (a in {0x6D, 0x6F} && b in {0x6D, 0x6F})
  {
    assert "linux"[0] == 'l' && "windows"[0] == 'w' && "mac"[0] == 'm';
    assert HexText(a)[0] == '0' && HexText(b)[0] == '0';
    if HexText(a) == HexText(b) {
      HexTextTellsApart(a, b);
    }
  }

  /** The body of an 'I' reply: protocol, names, nine bytes (the first two the app id), version. */
  function InfoBody(data: Bytes, p: nat): Option<Read<A2sInfo>> {
    var protocol :- U8(data, p);
    var names :- FourNames(data, protocol.next);
    var b :- Block(data, names.next, 9);
    var version :- CString(data, b.next);
    var n, f := names.value, b.value;
    Some(Read(A2sInfo(n.serverName, n.map_, n.gameDir, n.gameDescription, f[2], f[3], f[4],
                      DecodeServerType(f[5]), DecodeEnvironment(f[6]), f[7] != 0, f[8] != 0, version.value),
              version.next))
  }

  /** The block of a mod in an 'm' reply: two strings and eleven bytes. */
  function ModBlock(data: Bytes, p: nat): Option<Read<()>> {
    var a :- CString(data, p);
    var b :- CString(data, a.next);
    var c :- Block(data, b.next, 11);
    Some(Read((), c.next))
  }

  /** The end of an 'm' reply: the mod block, if there is one, and the bytes for VAC and bots. */
  function LegacyEnd(data: Bytes, p: nat, isMod: bool): (r: Option<Read<Bytes>>)
    ensures r.Some? ==> |r.value.value| == 2
  {
    var m :- if isMod then ModBlock(data, p) else Some(Read((), p));
    Block(data, m.next, 2)
  }

  /** The body of an 'm' reply, as the source reads it. */
  function LegacyBody(data: Bytes, p: nat): Option<Read<A2sInfo>> {
    var address :- CString(data, p);
    var names :- FourNames(data, address.next);
    var b :- Block(data, names.next, 8);
    var n, f := names.value, b.value;
    var e :- LegacyEnd(data, b.next, f[7] != 0);
    Some(Read(A2sInfo(n.serverName, n.map_, n.gameDir, n.gameDescription, f[1], f[2], e.value[1],
                      DecodeServerType(f[4]), DecodeEnvironment(f[5]), f[6] != 0, e.value[0] != 0, []),
              e.next))
  }

  const HEADER: Bytes := [0xFF, 0xFF, 0xFF, 0xFF]
  const INFO_REPLY: byte := 0x49
  const LEGACY_REPLY: byte := 0x6D
  const PLAYER_REPLY: byte := 0x44

  function InfoReply(resp: Bytes): Option<Read<A2sInfo>> {
    if |resp| < 6 || resp[..4] != HEADER then None
    else if resp[4] == INFO_REPLY then InfoBody(resp, 5)
    else if resp[4] == LEGACY_REPLY then LegacyBody(resp, 5)
    else None
  }

  function Player(data: Bytes, p: nat): Option<Read<A2sPlayer>> {
    var index :- U8(data, p);
    var name :- CString(data, index.next);
    var score :- Block(data, name.next, 4);
    var duration :- Block(data, score.next, 4);
    Some(Read(A2sPlayer(index.value, name.value, Signed32(score.value), duration.value), duration.next))
  }

  function Players(data: Bytes, p: nat, n: nat): Option<Read<seq<A2sPlayer>>>
    decreases n
  {
    if n == 0 then Some(Read([], p))
    else
      var one :- Player(data, p);
      var rest :- Players(data, one.next, n - 1);
      Some(Read([one.value] + rest.value, rest.next))
  }

  function PlayerReply(resp: Bytes): Option<Read<seq<A2sPlayer>>> {
    if |resp| < 6 || resp[..4] != HEADER || resp[4] != PLAYER_REPLY then None
    else
      var count :- U8(resp, 5);
      Players(resp, count.next, count.value as nat)
  }

  function ValueOf<T>(r: Option<Read<T>>): Option<T> {
    if r.None? then None else Some(r.value.value)
  }

  // ------------------------------------------------------------------ the cursor

  /** `r` and the new position are what the reader says. */
  predicate Reads<T(==)>(spec: Option<Read<T>>, r: Option<T>, pos: nat) {
    r == ValueOf(spec) && (spec.Some? ==> pos == spec.value.next)
  }

  class Cursor {
    const data: Bytes
    var pos: nat

    constructor (data: Bytes, pos: nat)
      ensures this.data == data && this.pos == pos
    {
      this.data := data;
      this.pos := pos;
    }

    method ReadBlock(n: nat) returns (r: Option<Bytes>)
      modifies this
      ensures Reads(Block(data, old(pos), n), r, pos)
    {
      if pos + n > |data| {
        pos := if pos < |data| then |data| else pos;
        return None;
      }
      r := Some(data[pos..pos + n]);
      pos := pos + n;
    }

    method ReadU8() returns (r: Option<byte>)
      modifies this
      ensures Reads(U8(data, old(pos)), r, pos)
    {
      var b :- ReadBlock(1);
      return Some(b[0]);
    }

    method ReadI16Le() returns (r: Option<int>)
      modifies this
      ensures r.Some? <==> old(pos) + 2 <= |data|
      ensures r.Some? ==> pos == old(pos) + 2 && r.value == Signed16(data[old(pos)..old(pos) + 2])
    {
      var b :- ReadBlock(2);
      return Some(Signed16(b));
    }

    method ReadI32Le() returns (r: Option<int>)
      modifies this
      ensures r.Some? <==> old(pos) + 4 <= |data|
      ensures r.Some? ==> pos == old(pos) + 4 && r.value == Signed32(data[old(pos)..old(pos) + 4])
    {
      var b :- ReadBlock(4);
      return Some(Signed32(b));
    }

    method ReadCString() returns (r: Option<Bytes>)
      modifies this
      ensures Reads(CString(data, old(pos)), r, pos)
    {
      var bytes: Bytes := [];
      ghost var whole := CString(data, pos);
      PrependNothing(whole);
      while true
        invariant Prepended(bytes, CString(data, pos)) == whole
        decreases |data| - pos
      {
        CStringUnfold(data, pos, bytes);
        var b := ReadU8();
        if b.None? {
          return None;
        }
        if b.value == 0 {
          break;
        }
        bytes := bytes + [b.value];
      }
      return Some(bytes);
    }

    method ReadNames() returns (r: Option<Names>)
      modifies this
      ensures Reads(FourNames(data, old(pos)), r, pos)
    {
      var serverName :- ReadCString();
      var map_ :- ReadCString();
      var gameDir :- ReadCString();
      var gameDescription :- ReadCString();
      return Some(Names(serverName, map_, gameDir, gameDescription));
    }

    method ReadModBlock() returns (r: Option<()>)
      modifies this
      ensures Reads(ModBlock(data, old(pos)), r, pos)
    {
      var urlInfo :- ReadCString();
      var urlDl :- ReadCString();
      var separator :- ReadU8();
      var modVersion :- ReadI32Le();
      var modSize :- ReadI32Le();
      var svonly :- ReadU8();
      var cldll :- ReadU8();
      return Some(());
    }

    /** The app id, which is skipped, and the seven single bytes of an 'I' reply. */
    method ReadFlags() returns (r: Option<Bytes>)
      modifies this
      ensures r.Some? <==> old(pos) + 9 <= |data|
      ensures r.Some? ==> pos == old(pos) + 9 && r.value == data[old(pos) + 2..old(pos) + 9]
    {
      ghost var p := pos;
      var appId :- ReadI16Le();
      var players :- ReadU8();
      var maxPlayers :- ReadU8();
      var bots :- ReadU8();
      var serverType :- ReadU8();
      var environment :- ReadU8();
      var password :- ReadU8();
      var vac :- ReadU8();
      var f := [players, maxPlayers, bots, serverType, environment, password, vac];
      assert data[p + 2..p + 9] == f;
      return Some(f);
    }

    /** The branch for an 'I' reply. */
    method ReadInfoBody() returns (r: Option<A2sInfo>)
      modifies this
      ensures Reads(InfoBody(data, old(pos)), r, pos)
    {
      var protocol :- ReadU8();
      var names :- ReadNames();
      ghost var p := pos;
      var f :- ReadFlags();
      assert forall i :: 0 <= i < 7 ==> f[i] == data[p..p + 9][i + 2];
      var version :- ReadCString();
      return Some(A2sInfo(names.serverName, names.map_, names.gameDir, names.gameDescription, f[0], f[1], f[2],
                          DecodeServerType(f[3]), DecodeEnvironment(f[4]), f[5] != 0, f[6] != 0, version));
    }

    /** The single bytes of an 'm' reply, from the version to the mod flag. */
    method ReadLegacyBytes() returns (r: Option<Bytes>)
      modifies this
      ensures Reads(Block(data, old(pos), 8), r, pos)
    {
      ghost var p := pos;
      var version :- ReadU8();
      var players :- ReadU8();
      var maxPlayers :- ReadU8();
      var protocol :- ReadU8();
      var serverType :- ReadU8();
      var environment :- ReadU8();
      var password :- ReadU8();
      var isMod :- ReadU8();
      var f := [version, players, maxPlayers, protocol, serverType, environment, password, isMod];
      assert data[p..p + 8] == f;
      return Some(f);
    }

    /** The rest of an 'm' reply after the mod flag: the mod block, if any, and two bytes. */
    method ReadLegacyEnd(isMod: bool) returns (r: Option<Bytes>)
      modifies this
      ensures Reads(LegacyEnd(data, old(pos), isMod), r, pos)
    {
      if isMod {
        var skipped :- ReadModBlock();
      }
      ghost var p := pos;
      var vac :- ReadU8();
      var bots :- ReadU8();
      assert data[p..p + 2] == [vac, bots];
      return Some([vac, bots]);
    }

    /** The branch for an 'm' reply. */
    method ReadLegacyBody() returns (r: Option<A2sInfo>)
      modifies this
      ensures Reads(LegacyBody(data, old(pos)), r, pos)
    {
      var address :- ReadCString();
      var names :- ReadNames();
      var f :- ReadLegacyBytes();
      var e :- ReadLegacyEnd(f[7] != 0);
      return Some(A2sInfo(names.serverName, names.map_, names.gameDir, names.gameDescription, f[1], f[2],
                          e[1], DecodeServerType(f[4]), DecodeEnvironment(f[5]), f[6] != 0, e[0] != 0, []));
    }

    /** One entry of a player reply. */
    method ReadPlayer() returns (r: Option<A2sPlayer>)
      modifies this
      ensures Reads(Player(data, old(pos)), r, pos)
    {
      var index :- ReadU8();
      var name :- ReadCString();
      var score :- ReadI32Le();
      var duration :- ReadBlock(4);
      return Some(A2sPlayer(index, name, score, duration));
    }

    /** The loop over the entries of a player reply. */
    method ReadPlayers(count: byte) returns (r: Option<seq<A2sPlayer>>)
      modifies this
      ensures Reads(Players(data, old(pos), count as nat), r, pos)
    {
      var players: seq<A2sPlayer> := [];
      ghost var whole := Players(data, pos, count as nat);
      PrependNothing(whole);
      for i := 0 to count as int
        invariant Prepended(players, Players(data, pos, count as int - i)) == whole
      {
        PlayersUnfold(data, pos, count as int - i, players);
        var player := ReadPlayer();
        if player.None? {
          return None;
        }
        players := players + [player.value];
      }
      PlayersEnd(data, pos, players);
      return Some(players);
    }
  }

  /** One round of the loop: the end of the data, the end of the string, or one more byte. */
  lemma CStringUnfold(data: Bytes, p: nat, bytes: Bytes)
    ensures Prepended(bytes, CString(data, p))
         == if p >= |data| then None
            else if data[p] == 0 then Some(Read(bytes, p + 1))
            else Prepended(bytes + [data[p]], CString(data, p + 1))
  {
    if p < |data| {
      if data[p] == 0 {
        assert bytes + [] == bytes;
      } else if CString(data, p + 1).Some? {
        Associative(bytes, [data[p]], CString(data, p + 1).value.value);
      }
    }
  }

  lemma PrependNothing<T>(r: Option<Read<seq<T>>>)
    ensures Prepended([], r) == r
  {
    if r.Some? {
      assert [] + r.value.value == r.value.value;
    }
  }

  lemma PlayersEnd(data: Bytes, p: nat, players: seq<A2sPlayer>)
    ensures Prepended(players, Players(data, p, 0)) == Some(Read(players, p))
  {
    assert players + [] == players;
  }

  function Prepended<T>(before: seq<T>, r: Option<Read<seq<T>>>): Option<Read<seq<T>>> {
    if r.None? then None else Some(Read(before + r.value.value, r.value.next))
  }

  method ParseInfo(resp: Bytes) returns (r: Option<A2sInfo>)
    ensures r == ValueOf(InfoReply(resp))
  {
    if |resp| < 6 || resp[..4] != HEADER {
      return None;
    }
    var c := new Cursor(resp, 4);
    var h := c.ReadU8();
    var header := h.value;
    if header == INFO_REPLY {
      r := c.ReadInfoBody();
    } else if header == LEGACY_REPLY {
      r := c.ReadLegacyBody();
    } else {
      return None;
    }
  }

  lemma PlayersUnfold(data: Bytes, p: nat, n: nat, players: seq<A2sPlayer>)
    requires n > 0
    ensures var one := Player(data, p);
      Prepended(players, Players(data, p, n))
      == if one.None? then None else Prepended(players + [one.value.value], Players(data, one.value.next, n - 1))
  {
    var one := Player(data, p);
    if one.Some? {
      var rest := Players(data, one.value.next, n - 1);
      if rest.Some? {
        assert players + ([one.value.value] + rest.value.value) == (players + [one.value.value]) + rest.value.value;
      }
    }
  }

  method ParsePlayers(resp: Bytes) returns (r: Option<seq<A2sPlayer>>)
    ensures r == ValueOf(PlayerReply(resp))
  {
    if |resp| < 6 || resp[..4] != HEADER || resp[4] != PLAYER_REPLY {
      return None;
    }
    var c := new Cursor(resp, 5);
    var n := c.ReadU8();
    r := c.ReadPlayers(n.value);
  }

  // ---------------------------------------------------------------- prefix laws

  /** The first `q` bytes of both are there and are the same. */
  predicate AgreeTo(a: Bytes, b: Bytes, q: nat) {
    q <= |a| && q <= |b| && forall i :: 0 <= i < q ==> a[i] == b[i]
  }

  /** A successful read looks at nothing past its end. */
  lemma {:induction false} CStringLocal(a: Bytes, b: Bytes, p: nat)
    requires CString(a, p).Some? && AgreeTo(a, b, CString(a, p).value.next)
    ensures p < CString(a, p).value.next && CString(b, p) == CString(a, p)
    decreases |a| - p
  {
    if a[p] != 0 {
      CStringLocal(a, b, p + 1);
    }
  }

  lemma {:induction false} CStringEnd(a: Bytes, p: nat)
    ensures CString(a, p).Some? ==> p < CString(a, p).value.next <= |a|
    decreases |a| - p
  {
    if p < |a| && a[p] != 0 {
      CStringEnd(a, p + 1);
    }
  }

  lemma BlockLocal(a: Bytes, b: Bytes, p: nat, n: nat)
    requires Block(a, p, n).Some? && AgreeTo(a, b, p + n)
    ensures Block(b, p, n) == Block(a, p, n)
  {
    assert a[p..p + n] == b[p..p + n];
  }

  lemma FourNamesLocal(a: Bytes, b: Bytes, p: nat)
    requires FourNames(a, p).Some? && AgreeTo(a, b, FourNames(a, p).value.next)
    ensures p < FourNames(a, p).value.next && FourNames(b, p) == FourNames(a, p)
  {
    var p1 := CString(a, p).value.next;
    var p2 := CString(a, p1).value.next;
    var p3 := CString(a, p2).value.next;
    CStringEnd(a, p);
    CStringEnd(a, p1);
    CStringEnd(a, p2);
    CStringEnd(a, p3);
    CStringLocal(a, b, p);
    CStringLocal(a, b, p1);
    CStringLocal(a, b, p2);
    CStringLocal(a, b, p3);
  }

  lemma FourNamesEnd(a: Bytes, p: nat)
    requires FourNames(a, p).Some?
    ensures p < FourNames(a, p).value.next <= |a|
  {
    var p1 := CString(a, p).value.next;
    var p2 := CString(a, p1).value.next;
    var p3 := CString(a, p2).value.next;
    CStringEnd(a, p);
    CStringEnd(a, p1);
    CStringEnd(a, p2);
    CStringEnd(a, p3);
  }

  lemma InfoBodyLocal(a: Bytes, b: Bytes, p: nat)
    requires InfoBody(a, p).Some?
    ensures p < InfoBody(a, p).value.next <= |a|
    ensures AgreeTo(a, b, InfoBody(a, p).value.next) ==> InfoBody(b, p) == InfoBody(a, p)
  {
    var q := FourNames(a, p + 1).value.next;
    FourNamesEnd(a, p + 1);
    CStringEnd(a, q + 9);
    if AgreeTo(a, b, InfoBody(a, p).value.next) {
      FourNamesLocal(a, b, p + 1);
      BlockLocal(a, b, q, 9);
      CStringLocal(a, b, q + 9);
    }
  }

  lemma ModBlockLocal(a: Bytes, b: Bytes, p: nat)
    requires ModBlock(a, p).Some?
    ensures p < ModBlock(a, p).value.next <= |a|
    ensures AgreeTo(a, b, ModBlock(a, p).value.next) ==> ModBlock(b, p) == ModBlock(a, p)
  {
    var p1 := CString(a, p).value.next;
    var p2 := CString(a, p1).value.next;
    CStringEnd(a, p);
    CStringEnd(a, p1);
    if AgreeTo(a, b, ModBlock(a, p).value.next) {
      CStringLocal(a, b, p);
      CStringLocal(a, b, p1);
      BlockLocal(a, b, p2, 11);
    }
  }

  lemma LegacyEndLocal(a: Bytes, b: Bytes, p: nat, isMod: bool)
    requires LegacyEnd(a, p, isMod).Some?
    ensures p < LegacyEnd(a, p, isMod).value.next <= |a|
    ensures AgreeTo(a, b, LegacyEnd(a, p, isMod).value.next) ==> LegacyEnd(b, p, isMod) == LegacyEnd(a, p, isMod)
  {
    if isMod {
      ModBlockLocal(a, b, p);
    }
    var end := if isMod then ModBlock(a, p).value.next else p;
    if AgreeTo(a, b, LegacyEnd(a, p, isMod).value.next) {
      BlockLocal(a, b, end, 2);
    }
  }

  lemma LegacyBodyLocal(a: Bytes, b: Bytes, p: nat)
    requires LegacyBody(a, p).Some?
    ensures p < LegacyBody(a, p).value.next <= |a|
    ensures AgreeTo(a, b, LegacyBody(a, p).value.next) ==> LegacyBody(b, p) == LegacyBody(a, p)
  {
    var p1 := CString(a, p).value.next;
    var p2 := FourNames(a, p1).value.next;
    var isMod := a[p2..p2 + 8][7] != 0;
    CStringEnd(a, p);
    FourNamesEnd(a, p1);
    LegacyEndLocal(a, b, p2 + 8, isMod);
    if AgreeTo(a, b, LegacyBody(a, p).value.next) {
      CStringLocal(a, b, p);
      FourNamesLocal(a, b, p1);
      BlockLocal(a, b, p2, 8);
    }
  }

  lemma InfoReplyLocal(a: Bytes, b: Bytes)
    requires InfoReply(a).Some?
    ensures 6 <= InfoReply(a).value.next <= |a|
    ensures AgreeTo(a, b, InfoReply(a).value.next) ==> InfoReply(b) == InfoReply(a)
  {
    if a[4] == INFO_REPLY {
      InfoBodyLocal(a, b, 5);
    } else {
      LegacyBodyLocal(a, b, 5);
    }
    if AgreeTo(a, b, InfoReply(a).value.next) {
      assert a[..4] == b[..4];
    }
  }

  lemma PlayerLocal(a: Bytes, b: Bytes, p: nat)
    requires Player(a, p).Some?
    ensures p < Player(a, p).value.next <= |a|
    ensures AgreeTo(a, b, Player(a, p).value.next) ==> Player(b, p) == Player(a, p)
  {
    var q := CString(a, p + 1).value.next;
    CStringEnd(a, p + 1);
    if AgreeTo(a, b, Player(a, p).value.next) {
      CStringLocal(a, b, p + 1);
      BlockLocal(a, b, q, 4);
      BlockLocal(a, b, q + 4, 4);
    }
  }

  lemma {:induction false} PlayersLocal(a: Bytes, b: Bytes, p: nat, n: nat)
    requires Players(a, p, n).Some? && p <= |a|
    ensures p <= Players(a, p, n).value.next <= |a|
    ensures AgreeTo(a, b, Players(a, p, n).value.next) ==> Players(b, p, n) == Players(a, p, n)
    decreases n
  {
    if n > 0 {
      PlayerLocal(a, b, p);
      PlayersLocal(a, b, Player(a, p).value.next, n - 1);
    }
  }

  lemma PlayerReplyLocal(a: Bytes, b: Bytes)
    requires PlayerReply(a).Some?
    ensures 6 <= PlayerReply(a).value.next <= |a|
    ensures AgreeTo(a, b, PlayerReply(a).value.next) ==> PlayerReply(b) == PlayerReply(a)
  {
    PlayersLocal(a, b, 6, a[5] as nat);
    if AgreeTo(a, b, PlayerReply(a).value.next) {
      assert a[..4] == b[..4];
    }
  }

  /**
   * Prefix law for every accepted info reply, of either format: it has a length `q` such that the
   * reply cut anywhere is accepted, with the same result, exactly when at least `q` bytes are left;
   * and nothing appended to it changes the result.
   */
  lemma InfoPrefixLaw(resp: Bytes, more: Bytes) returns (q: nat)
    requires InfoReply(resp).Some?
    ensures q <= |resp|
    ensures forall m :: 0 <= m <= |resp| ==> InfoReply(resp[..m]) == if m >= q then InfoReply(resp) else None
    ensures InfoReply(resp + more) == InfoReply(resp)
  {
    q := InfoReply(resp).value.next;
    InfoReplyLocal(resp, resp + more);
    forall m | 0 <= m <= |resp|
      ensures InfoReply(resp[..m]) == if m >= q then InfoReply(resp) else None
    {
      if m >= q {
        InfoReplyLocal(resp, resp[..m]);
      } else {
        InfoCutEarly(resp, m);
      }
    }
  }

  /** The same law for player replies with any number of players. */
  lemma PlayersPrefixLaw(resp: Bytes, more: Bytes) returns (q: nat)
    requires PlayerReply(resp).Some?
    ensures q <= |resp|
    ensures forall m :: 0 <= m <= |resp| ==> PlayerReply(resp[..m]) == if m >= q then PlayerReply(resp) else None
    ensures PlayerReply(resp + more) == PlayerReply(resp)
  {
    q := PlayerReply(resp).value.next;
    PlayerReplyLocal(resp, resp + more);
    forall m | 0 <= m <= |resp|
      ensures PlayerReply(resp[..m]) == if m >= q then PlayerReply(resp) else None
    {
      if m >= q {
        PlayerReplyLocal(resp, resp[..m]);
      } else {
        PlayersCutEarly(resp, m);
      }
    }
  }

  // ------------------------------------------------------------- encoders

  /** An info record as a server sends it. */
  datatype RawInfo = RawInfo(protocol: byte, names: Names, appId: int, players: byte, maxPlayers: byte, bots: byte,
                             serverType: byte, environment: byte, password: byte, vac: byte, version: Bytes)

  predicate NulFree(s: Bytes) {
    forall i :: 0 <= i < |s| ==> s[i] != 0
  }

  predicate ValidInfo(r: RawInfo) {
    && NulFree(r.names.serverName) && NulFree(r.names.map_) && NulFree(r.names.gameDir)
    && NulFree(r.names.gameDescription) && NulFree(r.version) && -0x8000 <= r.appId < 0x8000
  }

  predicate ValidPlayer(p: A2sPlayer) {
    NulFree(p.name) && -0x8000_0000 <= p.score < 0x8000_0000 && |p.duration| == 4
  }

  function LittleEndian(u: nat, n: nat): (b: Bytes)
    ensures |b| == n
  {
    if n == 0 then [] else [(u % 0x100) as byte] + LittleEndian(u / 0x100, n - 1)
  }

  /** Two's complement, least significant byte first. */
  function Le16(v: int): Bytes {
    LittleEndian(v % 0x1_0000, 2)
  }

  function Le32(v: int): Bytes {
    LittleEndian(v % 0x1_0000_0000, 4)
  }

  function ZeroEnded(s: Bytes): Bytes {
    s + [0]
  }

  function EncodeNames(n: Names): Bytes {
    ZeroEnded(n.serverName) + (ZeroEnded(n.map_) + (ZeroEnded(n.gameDir) + ZeroEnded(n.gameDescription)))
  }

  function EncodeFlags(r: RawInfo): Bytes {
    Le16(r.appId) + [r.players, r.maxPlayers, r.bots, r.serverType, r.environment, r.password, r.vac]
  }

  function EncodeInfo(r: RawInfo): Bytes {
    HEADER + [INFO_REPLY, r.protocol] + (EncodeNames(r.names) + (EncodeFlags(r) + ZeroEnded(r.version)))
  }

  /** What the record means to the program. */
  function Decoded(r: RawInfo): A2sInfo {
    A2sInfo(r.names.serverName, r.names.map_, r.names.gameDir, r.names.gameDescription, r.players, r.maxPlayers,
            r.bots, DecodeServerType(r.serverType), DecodeEnvironment(r.environment), r.password != 0, r.vac != 0,
            r.version)
  }

  function EncodePlayer(p: A2sPlayer): Bytes {
    [p.index] + (ZeroEnded(p.name) + (Le32(p.score) + p.duration))
  }

  function EncodeAll(ps: seq<A2sPlayer>): Bytes {
    if ps == [] then [] else EncodePlayer(ps[0]) + EncodeAll(ps[1..])
  }

  function EncodePlayers(ps: seq<A2sPlayer>): Bytes
    requires |ps| <= 255
  {
    HEADER + [PLAYER_REPLY, |ps| as byte] + EncodeAll(ps)
  }

  // -------------------------------------------------------------- round trips

  lemma {:induction false} LittleEndianRoundTrip(u: nat, n: nat, bound: nat)
    requires u < bound && bound == Pow256(n)
    ensures Unsigned(LittleEndian(u, n)) == u
  {
    if n > 0 {
      LittleEndianRoundTrip(u / 0x100, n - 1, Pow256(n - 1));
      var b := LittleEndian(u, n);
      assert b[1..] == LittleEndian(u / 0x100, n - 1);
    }
  }

  function Pow256(n: nat): nat {
    if n == 0 then 1 else 0x100 * Pow256(n - 1)
  }

  lemma ScoreRoundTrip(v: int)
    requires -0x8000_0000 <= v < 0x8000_0000
    ensures |Le32(v)| == 4 && Signed32(Le32(v)) == v
  {
    assert Pow256(1) == 0x100 && Pow256(2) == 0x1_0000 && Pow256(3) == 0x100_0000 && Pow256(4) == 0x1_0000_0000;
    LittleEndianRoundTrip(v % 0x1_0000_0000, 4, Pow256(4));
  }

  /** The bytes `s` stand in `data` at position `p`. */
  predicate Stands(data: Bytes, p: nat, s: Bytes) {
    p + |s| <= |data| && forall i :: 0 <= i < |s| ==> data[p + i] == s[i]
  }

  lemma StandsSplit(data: Bytes, p: nat, a: Bytes, b: Bytes)
    requires Stands(data, p, a + b)
    ensures Stands(data, p, a) && Stands(data, p + |a|, b)
  {
    assert forall i :: 0 <= i < |a| ==> (a + b)[i] == a[i];
    assert forall i :: 0 <= i < |b| ==> (a + b)[|a| + i] == b[i];
  }

  lemma {:induction false} CStringStands(data: Bytes, p: nat, s: Bytes)
    requires NulFree(s) && Stands(data, p, ZeroEnded(s))
    ensures CString(data, p) == Some(Read(s, p + |s| + 1))
    decreases |s|
  {
    var z := ZeroEnded(s);
    assert data[p + 0] == z[0];
    if s != [] {
      assert z == [s[0]] + ZeroEnded(s[1..]);
      StandsSplit(data, p, [s[0]], ZeroEnded(s[1..]));
      CStringStands(data, p + 1, s[1..]);
      assert [s[0]] + s[1..] == s;
    }
  }

  lemma NamesStand(data: Bytes, p: nat, a: Bytes, b: Bytes, c: Bytes, d: Bytes)
    requires Stands(data, p, a + (b + (c + d)))
    ensures Stands(data, p, a) && Stands(data, p + |a|, b)
    ensures Stands(data, p + |a| + |b|, c) && Stands(data, p + |a| + |b| + |c|, d)
  {
    StandsSplit(data, p, a, b + (c + d));
    StandsSplit(data, p + |a|, b, c + d);
    StandsSplit(data, p + |a| + |b|, c, d);
  }

  lemma NamesRoundTrip(data: Bytes, p: nat, n: Names)
    requires NulFree(n.serverName) && NulFree(n.map_) && NulFree(n.gameDir) && NulFree(n.gameDescription)
    requires Stands(data, p, EncodeNames(n))
    ensures FourNames(data, p) == Some(Read(n, p + |EncodeNames(n)|))
  {
    var a, b, c, d := ZeroEnded(n.serverName), ZeroEnded(n.map_), ZeroEnded(n.gameDir), ZeroEnded(n.gameDescription);
    NamesStand(data, p, a, b, c, d);
    CStringStands(data, p, n.serverName);
    CStringStands(data, p + |a|, n.map_);
    CStringStands(data, p + |a| + |b|, n.gameDir);
    CStringStands(data, p + |a| + |b| + |c|, n.gameDescription);
  }

  lemma BlockStands(data: Bytes, p: nat, s: Bytes)
    requires Stands(data, p, s)
    ensures Block(data, p, |s|) == Some(Read(s, p + |s|))
  {
    assert data[p..p + |s|] == s;
  }

  lemma FlagFields(r: RawInfo)
    ensures |EncodeFlags(r)| == 9
    ensures EncodeFlags(r)[2..] == [r.players, r.maxPlayers, r.bots, r.serverType, r.environment, r.password, r.vac]
  {
  }

  lemma InfoBodyFrom(data: Bytes, r: RawInfo, q: nat, flags: Bytes, end: nat)
    requires |data| > 5 && data[5] == r.protocol && FourNames(data, 6) == Some(Read(r.names, q))
    requires |flags| == 9 && Block(data, q, 9) == Some(Read(flags, q + 9))
    requires flags[2..] == [r.players, r.maxPlayers, r.bots, r.serverType, r.environment, r.password, r.vac]
    requires CString(data, q + 9) == Some(Read(r.version, end))
    ensures InfoBody(data, 5) == Some(Read(Decoded(r), end))
  {
    assert forall i :: 2 <= i < 9 ==> flags[i] == flags[2..][i - 2];
  }

  lemma ThreeStand(data: Bytes, p: nat, a: Bytes, b: Bytes, c: Bytes)
    requires Stands(data, p, a + (b + c))
    ensures Stands(data, p, a) && Stands(data, p + |a|, b) && Stands(data, p + |a| + |b|, c)
  {
    StandsSplit(data, p, a, b + c);
    StandsSplit(data, p + |a|, b, c);
  }

  lemma InfoBodyParts(data: Bytes, r: RawInfo, names: Bytes, flags: Bytes, version: Bytes)
    requires ValidInfo(r) && |data| > 5 && data[5] == r.protocol
    requires names == EncodeNames(r.names) && flags == EncodeFlags(r) && version == ZeroEnded(r.version)
    requires Stands(data, 6, names) && Stands(data, 6 + |names|, flags)
    requires Stands(data, 6 + |names| + |flags|, version)
    ensures InfoBody(data, 5) == Some(Read(Decoded(r), 6 + |names| + |flags| + |version|))
  {
    var q := 6 + |names|;
    FlagFields(r);
    NamesRoundTrip(data, 6, r.names);
    BlockStands(data, q, flags);
    CStringStands(data, q + 9, r.version);
    InfoBodyFrom(data, r, q, flags, q + 9 + |version|);
  }

  lemma InfoBodyRoundTrip(data: Bytes, r: RawInfo, body: Bytes)
    requires ValidInfo(r) && |data| > 5 && data[5] == r.protocol
    requires body == EncodeNames(r.names) + (EncodeFlags(r) + ZeroEnded(r.version))
    requires Stands(data, 6, body)
    ensures InfoBody(data, 5) == Some(Read(Decoded(r), 6 + |body|))
  {
    var names, flags, version := EncodeNames(r.names), EncodeFlags(r), ZeroEnded(r.version);
    ThreeStand(data, 6, names, flags, version);
    InfoBodyParts(data, r, names, flags, version);
  }

  /** A reply of six bytes of header followed by a body. */
  lemma BodyStands(head: Bytes, body: Bytes)
    requires |head| == 6
    ensures (head + body)[..4] == head[..4] && Stands(head + body, 6, body)
    ensures (head + body)[4] == head[4] && (head + body)[5] == head[5]
  {
  }

  /** Parsing the encoding of any 'I' record returns its fields and consumes all of it. */
  lemma InfoRoundTrip(r: RawInfo)
    requires ValidInfo(r)
    ensures InfoReply(EncodeInfo(r)) == Some(Read(Decoded(r), |EncodeInfo(r)|))
  {
    var body := EncodeNames(r.names) + (EncodeFlags(r) + ZeroEnded(r.version));
    InfoHeader(r, body);
    InfoBodyRoundTrip(EncodeInfo(r), r, body);
    InfoReplyFrom(EncodeInfo(r), Decoded(r));
  }

  lemma InfoReplyFrom(data: Bytes, info: A2sInfo)
    requires |data| >= 6 && data[..4] == HEADER && data[4] == INFO_REPLY
    requires InfoBody(data, 5) == Some(Read(info, |data|))
    ensures InfoReply(data) == Some(Read(info, |data|))
  {
  }

  lemma InfoHeader(r: RawInfo, body: Bytes)
    requires body == EncodeNames(r.names) + (EncodeFlags(r) + ZeroEnded(r.version))
    ensures var data := EncodeInfo(r);
      |data| == 6 + |body| && data[..4] == HEADER && data[4] == INFO_REPLY && data[5] == r.protocol
      && Stands(data, 6, body)
  {
    var head := HEADER + [INFO_REPLY, r.protocol];
    assert head[..4] == HEADER;
    BodyStands(head, body);
  }

  lemma PlayerRoundTrip(data: Bytes, p: nat, x: A2sPlayer)
    requires ValidPlayer(x) && Stands(data, p, EncodePlayer(x))
    ensures Player(data, p) == Some(Read(x, p + |EncodePlayer(x)|))
  {
    var name, score := ZeroEnded(x.name), Le32(x.score);
    ScoreRoundTrip(x.score);
    StandsSplit(data, p, [x.index], name + (score + x.duration));
    StandsSplit(data, p + 1, name, score + x.duration);
    StandsSplit(data, p + 1 + |name|, score, x.duration);
    CStringStands(data, p + 1, x.name);
    assert data[p + 0] == [x.index][0];
    BlockStands(data, p + 1 + |name|, score);
    BlockStands(data, p + 1 + |name| + 4, x.duration);
  }

  lemma PlayersFrom(data: Bytes, p: nat, x: A2sPlayer, p': nat, rest: seq<A2sPlayer>, q: nat)
    requires Player(data, p) == Some(Read(x, p')) && Players(data, p', |rest|) == Some(Read(rest, q))
    ensures Players(data, p, |rest| + 1) == Some(Read([x] + rest, q))
  {
  }

  lemma PlayersCons(data: Bytes, p: nat, x: A2sPlayer, rest: seq<A2sPlayer>, q: nat)
    requires ValidPlayer(x) && Stands(data, p, EncodePlayer(x))
    requires Players(data, p + |EncodePlayer(x)|, |rest|) == Some(Read(rest, q))
    ensures Players(data, p, |rest| + 1) == Some(Read([x] + rest, q))
  {
    PlayerRoundTrip(data, p, x);
    PlayersFrom(data, p, x, p + |EncodePlayer(x)|, rest, q);
  }

  predicate ValidPlayers(ps: seq<A2sPlayer>) {
    |ps| <= 255 && forall i :: 0 <= i < |ps| ==> ValidPlayer(ps[i])
  }

  lemma ValidPlayersRest(ps: seq<A2sPlayer>)
    requires ValidPlayers(ps) && ps != []
    ensures ValidPlayer(ps[0]) && ValidPlayers(ps[1..])
  {
  }

  lemma FirstStands(data: Bytes, p: nat, ps: seq<A2sPlayer>)
    requires ps != [] && Stands(data, p, EncodeAll(ps))
    ensures Stands(data, p, EncodePlayer(ps[0]))
    ensures Stands(data, p + |EncodePlayer(ps[0])|, EncodeAll(ps[1..]))
    ensures |EncodeAll(ps)| == |EncodePlayer(ps[0])| + |EncodeAll(ps[1..])|
  {
    StandsSplit(data, p, EncodePlayer(ps[0]), EncodeAll(ps[1..]));
  }

  lemma {:induction false} AllPlayersRoundTrip(data: Bytes, p: nat, ps: seq<A2sPlayer>, q: nat)
    requires ValidPlayers(ps) && Stands(data, p, EncodeAll(ps)) && q == p + |EncodeAll(ps)|
    ensures Players(data, p, |ps|) == Some(Read(ps, q))
    decreases |ps|
  {
    if ps != [] {
      ValidPlayersRest(ps);
      FirstStands(data, p, ps);
      AllPlayersRoundTrip(data, p + |EncodePlayer(ps[0])|, ps[1..], q);
      PlayersCons(data, p, ps[0], ps[1..], q);
      HeadTail(ps);
    }
  }

  /** Parsing the encoding of any list of up to 255 players returns the list and consumes all of it. */
  lemma PlayersRoundTrip(ps: seq<A2sPlayer>)
    requires ValidPlayers(ps)
    ensures PlayerReply(EncodePlayers(ps)) == Some(Read(ps, |EncodePlayers(ps)|))
  {
    PlayersHeader(ps, EncodeAll(ps));
    PlayersRead(EncodePlayers(ps), ps, EncodeAll(ps));
  }

  lemma PlayersRead(data: Bytes, ps: seq<A2sPlayer>, body: Bytes)
    requires ValidPlayers(ps) && body == EncodeAll(ps)
    requires |data| == 6 + |body| && data[..4] == HEADER && data[4] == PLAYER_REPLY && data[5] as nat == |ps|
    requires Stands(data, 6, body)
    ensures PlayerReply(data) == Some(Read(ps, |data|))
  {
    AllPlayersRoundTrip(data, 6, ps, |data|);
    PlayerReplyFrom(data, ps);
  }

  lemma PlayersHeader(ps: seq<A2sPlayer>, body: Bytes)
    requires |ps| <= 255 && body == EncodeAll(ps)
    ensures var data := EncodePlayers(ps);
      |data| == 6 + |body| && data[..4] == HEADER && data[4] == PLAYER_REPLY && data[5] as nat == |ps|
      && Stands(data, 6, body)
  {
    var head := HEADER + [PLAYER_REPLY, |ps| as byte];
    assert head[..4] == HEADER;
    BodyStands(head, body);
  }

  lemma PlayerReplyFrom(data: Bytes, ps: seq<A2sPlayer>)
    requires |data| >= 6 && data[..4] == HEADER && data[4] == PLAYER_REPLY && data[5] as nat == |ps|
    requires Players(data, 6, |ps|) == Some(Read(ps, |data|))
    ensures PlayerReply(data) == Some(Read(ps, |data|))
  {
  }

  /** No valid encoding survives being cut short, and none is disturbed by bytes after it. */
  lemma InfoEncodingPrefixFree(r: RawInfo, more: Bytes)
    requires ValidInfo(r)
    ensures forall m :: 0 <= m < |EncodeInfo(r)| ==> InfoReply(EncodeInfo(r)[..m]) == None
    ensures ValueOf(InfoReply(EncodeInfo(r) + more)) == Some(Decoded(r))
  {
    var data := EncodeInfo(r);
    InfoRoundTrip(r);
    var q := InfoPrefixLaw(data, more);
    forall m | 0 <= m < |data| ensures InfoReply(data[..m]) == None {
      InfoCutEarly(data, m);
    }
  }

  lemma InfoCutEarly(data: Bytes, m: nat)
    requires InfoReply(data).Some? && m < InfoReply(data).value.next <= |data|
    ensures InfoReply(data[..m]) == None
  {
    if InfoReply(data[..m]).Some? {
      InfoReplyLocal(data[..m], data);
    }
  }

  lemma PlayersEncodingPrefixFree(ps: seq<A2sPlayer>, more: Bytes)
    requires ValidPlayers(ps)
    ensures forall m :: 0 <= m < |EncodePlayers(ps)| ==> PlayerReply(EncodePlayers(ps)[..m]) == None
    ensures ValueOf(PlayerReply(EncodePlayers(ps) + more)) == Some(ps)
  {
    var data := EncodePlayers(ps);
    PlayersRoundTrip(ps);
    var q := PlayersPrefixLaw(data, more);
    forall m | 0 <= m < |data| ensures PlayerReply(data[..m]) == None {
      PlayersCutEarly(data, m);
    }
  }

  lemma PlayersCutEarly(data: Bytes, m: nat)
    requires PlayerReply(data).Some? && m < PlayerReply(data).value.next <= |data|
    ensures PlayerReply(data[..m]) == None
  {
    if PlayerReply(data[..m]).Some? {
      PlayerReplyLocal(data[..m], data);
    }
  }
}
