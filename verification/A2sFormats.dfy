/**
 * The reply formats of controller/src/a2s.rs against literal bytes: the code tables, the round trip
 * of the old 'm' format, and worked replies.
 */
module A2sFormats {
  import opened Basics
  import opened A2s

  // -------------------------------------------------------------------- code tables

  /** The value of a lower-case hexadecimal digit. */
  function HexDigitValue(c: char): Option<nat> {
    if '0' <= c <= '9' then Some(c as int - '0' as int)
    else if 'a' <= c <= 'f' then Some(c as int - 'a' as int + 10)
    else None
  }

  function HexValue(s: string): Option<nat> {
    if s == [] then Some(0)
    else
      var before :- HexValue(s[..|s| - 1]);
      var d :- HexDigitValue(s[|s| - 1]);
      Some(16 * before + d)
  }

  lemma HexDigitReads(d: nat)
    requires d < 16
    ensures HexDigitValue(HexDigit(d)) == Some(d)
  {
  }

  /** A code without a name is shown as 0x and its shortest hexadecimal numeral. */
  lemma HexTextReads(b: byte)
    ensures HexText(b)[..2] == "0x" && HexValue(HexText(b)[2..]) == Some(b as nat)
    ensures |HexText(b)| == if b < 0x10 then 3 else 4
  {
    var n := b as nat;
    HexDigitReads(n % 16);
    if n < 16 {
      HexDigitReads(n);
      assert HexText(b)[2..] == [HexDigit(n)];
      HexOne(HexDigit(n));
    } else {
      HexDigitReads(n / 16);
      assert HexText(b)[2..] == [HexDigit(n / 16), HexDigit(n % 16)];
      HexTwo(HexDigit(n / 16), HexDigit(n % 16));
    }
  }

  lemma HexOne(c: char)
    ensures HexValue([c]) == HexDigitValue(c)
  {
    assert [c][..0] == [];
  }

  lemma HexTwo(c: char, d: char)
    requires HexDigitValue(c).Some? && HexDigitValue(d).Some?
    ensures HexValue([c, d]) == Some(16 * HexDigitValue(c).value + HexDigitValue(d).value)
  {
    HexOne(c);
    assert [c, d][..1] == [c];
  }

  /** The names of server types, exactly. */
  lemma ServerTypeTable(b: byte)
    ensures DecodeServerType(b) == "dedicated" <==> b == 0x64
    ensures DecodeServerType(b) == "listen" <==> b == 0x6C
    ensures DecodeServerType(b) == "proxy" <==> b == 0x70
    ensures b !in {0x64, 0x6C, 0x70} ==> DecodeServerType(b) == HexText(b)
  {
    assert HexText(b)[0] == '0' && "dedicated"[0] == 'd' && "listen"[0] == 'l' && "proxy"[0] == 'p';
  }

  /** The names of environments, exactly. */
  lemma EnvironmentTable(b: byte)
    ensures DecodeEnvironment(b) == "linux" <==> b == 0x6C
    ensures DecodeEnvironment(b) == "windows" <==> b == 0x77
    ensures DecodeEnvironment(b) == "mac" <==> b in {0x6D, 0x6F}
    ensures b !in {0x6C, 0x77, 0x6D, 0x6F} ==> DecodeEnvironment(b) == HexText(b)
  {
    assert HexText(b)[0] == '0' && "linux"[0] == 'l' && "windows"[0] == 'w' && "mac"[0] == 'm';
  }

  // ------------------------------------------------------------------ the 'm' format

  /** The block of a mod; `flag`, the byte before it, is any but zero. */
  datatype Mod = Mod(flag: byte, urlInfo: Bytes, urlDl: Bytes, rest: Bytes)

  datatype RawLegacy = RawLegacy(address: Bytes, names: Names, version: byte, players: byte, maxPlayers: byte,
                                 protocol: byte, serverType: byte, environment: byte, password: byte,
                                 mod: Option<Mod>, vac: byte, bots: byte)

  predicate ValidNames(n: Names) {
    NulFree(n.serverName) && NulFree(n.map_) && NulFree(n.gameDir) && NulFree(n.gameDescription)
  }

  predicate ValidMod(m: Mod) {
    m.flag != 0 && NulFree(m.urlInfo) && NulFree(m.urlDl) && |m.rest| == 11
  }

  predicate ValidLegacy(r: RawLegacy) {
    NulFree(r.address) && ValidNames(r.names) && (r.mod.Some? ==> ValidMod(r.mod.value))
  }

  function EncodeMod(m: Mod): Bytes {
    ZeroEnded(m.urlInfo) + (ZeroEnded(m.urlDl) + m.rest)
  }

  function LegacyFlags(r: RawLegacy): Bytes {
    [r.version, r.players, r.maxPlayers, r.protocol, r.serverType, r.environment, r.password,
     if r.mod.Some? then r.mod.value.flag else 0]
  }

  function EncodeEnd(r: RawLegacy): Bytes {
    (if r.mod.Some? then EncodeMod(r.mod.value) else []) + [r.vac, r.bots]
  }

  function EncodeLegacy(r: RawLegacy): Bytes {
    [0xFF, 0xFF, 0xFF, 0xFF, 0x6D] + (ZeroEnded(r.address) + (EncodeNames(r.names) + (LegacyFlags(r) + EncodeEnd(r))))
  }

  /** What the record means to the program; the format has no version text. */
  function DecodedLegacy(r: RawLegacy): A2sInfo {
    A2sInfo(r.names.serverName, r.names.map_, r.names.gameDir, r.names.gameDescription, r.players, r.maxPlayers,
            r.bots, DecodeServerType(r.serverType), DecodeEnvironment(r.environment), r.password != 0, r.vac != 0, [])
  }

  lemma ModRoundTrip(data: Bytes, p: nat, m: Mod)
    requires ValidMod(m) && Stands(data, p, EncodeMod(m))
    ensures ModBlock(data, p) == Some(Read((), p + |EncodeMod(m)|))
  {
    var a, b := ZeroEnded(m.urlInfo), ZeroEnded(m.urlDl);
    ThreeStand(data, p, a, b, m.rest);
    CStringStands(data, p, m.urlInfo);
    CStringStands(data, p + |a|, m.urlDl);
    BlockStands(data, p + |a| + |b|, m.rest);
  }

  lemma EndFrom(data: Bytes, p: nat, isMod: bool, q: nat, b: Bytes)
    requires if isMod then ModBlock(data, p) == Some(Read((), q)) else q == p
    requires |b| == 2 && Block(data, q, 2) == Some(Read(b, q + 2))
    ensures LegacyEnd(data, p, isMod) == Some(Read(b, q + 2))
  {
  }

  lemma ModEnd(data: Bytes, p: nat, m: Mod, b: Bytes)
    requires ValidMod(m) && |b| == 2 && Stands(data, p, EncodeMod(m) + b)
    ensures LegacyEnd(data, p, true) == Some(Read(b, p + |EncodeMod(m) + b|))
  {
    var q := p + |EncodeMod(m)|;
    StandsSplit(data, p, EncodeMod(m), b);
    ModRoundTrip(data, p, m);
    BlockStands(data, q, b);
    EndFrom(data, p, true, q, b);
  }

  lemma EndRoundTrip(data: Bytes, p: nat, r: RawLegacy)
    requires ValidLegacy(r) && Stands(data, p, EncodeEnd(r))
    ensures LegacyEnd(data, p, r.mod.Some?) == Some(Read([r.vac, r.bots], p + |EncodeEnd(r)|))
  {
    var b := [r.vac, r.bots];
    if r.mod.Some? {
      ModEnd(data, p, r.mod.value, b);
    } else {
      assert EncodeEnd(r) == b;
      BlockStands(data, p, b);
      EndFrom(data, p, false, p, b);
    }
  }

  lemma LegacyBodyFrom(data: Bytes, p: nat, r: RawLegacy, p1: nat, p2: nat, end: nat)
    requires CString(data, p) == Some(Read(r.address, p1)) && FourNames(data, p1) == Some(Read(r.names, p2))
    requires Block(data, p2, 8) == Some(Read(LegacyFlags(r), p2 + 8))
    requires LegacyEnd(data, p2 + 8, r.mod.Some?) == Some(Read([r.vac, r.bots], end)) && ValidLegacy(r)
    ensures LegacyBody(data, p) == Some(Read(DecodedLegacy(r), end))
  {
    assert LegacyFlags(r)[7] != 0 <==> r.mod.Some?;
  }

  lemma FrontReads(data: Bytes, p: nat, address: Bytes, names: Names, flags: Bytes, p1: nat, p2: nat)
    requires NulFree(address) && ValidNames(names) && |flags| == 8
    requires Stands(data, p, ZeroEnded(address)) && p1 == p + |address| + 1
    requires Stands(data, p1, EncodeNames(names)) && p2 == p1 + |EncodeNames(names)| && Stands(data, p2, flags)
    ensures CString(data, p) == Some(Read(address, p1)) && FourNames(data, p1) == Some(Read(names, p2))
    ensures Block(data, p2, 8) == Some(Read(flags, p2 + 8))
  {
    CStringStands(data, p, address);
    NamesRoundTrip(data, p1, names);
    BlockStands(data, p2, flags);
  }

  lemma LegacyFrom(data: Bytes, p: nat, r: RawLegacy, flags: Bytes, p1: nat, p2: nat, end: nat)
    requires ValidLegacy(r) && flags == LegacyFlags(r) && |flags| == 8
    requires Stands(data, p, ZeroEnded(r.address)) && p1 == p + |r.address| + 1
    requires Stands(data, p1, EncodeNames(r.names)) && p2 == p1 + |EncodeNames(r.names)| && Stands(data, p2, flags)
    requires LegacyEnd(data, p2 + 8, r.mod.Some?) == Some(Read([r.vac, r.bots], end))
    ensures LegacyBody(data, p) == Some(Read(DecodedLegacy(r), end))
  {
    FrontReads(data, p, r.address, r.names, flags, p1, p2);
    LegacyBodyFrom(data, p, r, p1, p2, end);
  }

  lemma FourStand(data: Bytes, p: nat, a: Bytes, b: Bytes, c: Bytes, d: Bytes, body: Bytes)
    requires body == a + (b + (c + d)) && Stands(data, p, body)
    ensures Stands(data, p, a) && Stands(data, p + |a|, b)
    ensures Stands(data, p + |a| + |b|, c) && Stands(data, p + |a| + |b| + |c|, d)
    ensures |body| == |a| + |b| + |c| + |d|
  {
    NamesStand(data, p, a, b, c, d);
  }

  lemma LegacyStands(data: Bytes, p: nat, r: RawLegacy, body: Bytes)
    requires ValidLegacy(r) && Stands(data, p, body)
    requires body == ZeroEnded(r.address) + (EncodeNames(r.names) + (LegacyFlags(r) + EncodeEnd(r)))
    ensures LegacyBody(data, p) == Some(Read(DecodedLegacy(r), p + |body|))
  {
    FourStand(data, p, ZeroEnded(r.address), EncodeNames(r.names), LegacyFlags(r), EncodeEnd(r), body);
    var p1 := p + |r.address| + 1;
    var p2 := p1 + |EncodeNames(r.names)|;
    EndRoundTrip(data, p2 + 8, r);
    LegacyFrom(data, p, r, LegacyFlags(r), p1, p2, p + |body|);
  }

  lemma LegacyReplyFrom(data: Bytes, x: Option<Read<A2sInfo>>)
    requires |data| >= 6 && data[..4] == HEADER && data[4] == LEGACY_REPLY && LegacyBody(data, 5) == x
    ensures InfoReply(data) == x
  {
  }

  lemma HeadStands(head: Bytes, body: Bytes)
    requires |head| == 5
    ensures (head + body)[..4] == head[..4] && (head + body)[4] == head[4] && Stands(head + body, 5, body)
  {
  }

  lemma LegacyRead(data: Bytes, r: RawLegacy, body: Bytes)
    requires ValidLegacy(r) && |data| == 5 + |body| >= 6 && Stands(data, 5, body)
    requires body == ZeroEnded(r.address) + (EncodeNames(r.names) + (LegacyFlags(r) + EncodeEnd(r)))
    requires data[..4] == HEADER && data[4] == LEGACY_REPLY
    ensures InfoReply(data) == Some(Read(DecodedLegacy(r), |data|))
  {
    LegacyStands(data, 5, r, body);
    LegacyReplyFrom(data, Some(Read(DecodedLegacy(r), |data|)));
  }

  /** Parsing the encoding of any 'm' record, with or without a mod block, returns its fields and consumes all of it. */
  lemma LegacyRoundTrip(r: RawLegacy)
    requires ValidLegacy(r)
    ensures InfoReply(EncodeLegacy(r)) == Some(Read(DecodedLegacy(r), |EncodeLegacy(r)|))
  {
    var body := ZeroEnded(r.address) + (EncodeNames(r.names) + (LegacyFlags(r) + EncodeEnd(r)));
    LegacyHead(r, body);
    LegacyRead(EncodeLegacy(r), r, body);
  }

  lemma LegacyHead(r: RawLegacy, body: Bytes)
    requires body == ZeroEnded(r.address) + (EncodeNames(r.names) + (LegacyFlags(r) + EncodeEnd(r)))
    ensures var data := EncodeLegacy(r);
      |data| == 5 + |body| >= 6 && data[..4] == HEADER && data[4] == LEGACY_REPLY && Stands(data, 5, body)
  {
    var head: Bytes := [0xFF, 0xFF, 0xFF, 0xFF, 0x6D];
    assert head[..4] == HEADER;
    HeadStands(head, body);
  }

  // ------------------------------------------------------------------ worked replies

  /** Two's complement, least significant byte first. */
  lemma ScoreBytes()
    ensures Le32(1) == [1, 0, 0, 0] && Le32(-2) == [0xFE, 0xFF, 0xFF, 0xFF] && Le16(258) == [2, 1]
  {
    assert LittleEndian(1, 4) == [1, 0, 0, 0];
  }

  const AL: Bytes := [7, 0x41, 0x6C, 0, 0xFE, 0xFF, 0xFF, 0xFF]

  lemma PlayerBytes(x: A2sPlayer)
    requires x == A2sPlayer(7, [0x41, 0x6C], -2, x.duration)
    ensures EncodePlayer(x) == AL + x.duration
  {
    ScoreBytes();
    assert [x.index] + (ZeroEnded(x.name) + Le32(x.score)) == AL;
    Associative([x.index] + ZeroEnded(x.name), Le32(x.score), x.duration);
  }

  lemma OnlyPlayer(x: A2sPlayer)
    ensures EncodeAll([x]) == EncodePlayer(x)
  {
    assert EncodePlayer(x) + [] == EncodePlayer(x);
  }

  /** A reply with one player, "Al" with a score of -2. */
  lemma OnePlayer(duration: Bytes)
    requires |duration| == 4
    ensures PlayerReply([0xFF, 0xFF, 0xFF, 0xFF] + [0x44, 1] + (AL + duration))
         == Some(Read([A2sPlayer(7, [0x41, 0x6C], -2, duration)], 18))
  {
    var x := A2sPlayer(7, [0x41, 0x6C], -2, duration);
    PlayerBytes(x);
    OnlyPlayer(x);
    PlayersRoundTrip([x]);
  }

  /** An 'I' reply of a dedicated server on Linux with two of eight players. */
  lemma OneInfo()
    ensures InfoReply([0xFF, 0xFF, 0xFF, 0xFF, 0x49, 48, 0x73, 0, 0x6D, 0, 0x67, 0, 0x64, 0, 2, 1, 2, 8, 0,
                       0x64, 0x6C, 1, 0, 0x76, 0])
         == Some(Read(A2sInfo([0x73], [0x6D], [0x67], [0x64], 2, 8, 0, "dedicated", "linux", true, false, [0x76]), 25))
  {
    var r := RawInfo(48, Names([0x73], [0x6D], [0x67], [0x64]), 258, 2, 8, 0, 0x64, 0x6C, 1, 0, [0x76]);
    ScoreBytes();
    InfoBytes(r);
    InfoRoundTrip(r);
    ServerTypeTable(0x64);
    EnvironmentTable(0x6C);
  }

  lemma InfoBytes(r: RawInfo)
    requires r == RawInfo(48, Names([0x73], [0x6D], [0x67], [0x64]), 258, 2, 8, 0, 0x64, 0x6C, 1, 0, [0x76])
    requires Le16(258) == [2, 1]
    ensures EncodeInfo(r) == [0xFF, 0xFF, 0xFF, 0xFF, 0x49, 48, 0x73, 0, 0x6D, 0, 0x67, 0, 0x64, 0, 2, 1, 2, 8, 0,
                              0x64, 0x6C, 1, 0, 0x76, 0]
  {
    assert EncodeNames(r.names) == [0x73, 0, 0x6D, 0, 0x67, 0, 0x64, 0];
    assert EncodeFlags(r) == [2, 1, 2, 8, 0, 0x64, 0x6C, 1, 0];
  }

  /** Replies of no other type, or with another header, are refused. */
  lemma OtherRepliesRefused(resp: Bytes)
    ensures InfoReply(resp).Some? ==> resp[..4] == [0xFF, 0xFF, 0xFF, 0xFF] && resp[4] in {0x49, 0x6D}
    ensures PlayerReply(resp).Some? ==> resp[..4] == [0xFF, 0xFF, 0xFF, 0xFF] && resp[4] == 0x44
  {
  }
}
