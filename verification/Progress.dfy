/** The steamcmd progress parser of controller/src/steamcmd.rs, and a printer of such lines. */
module Progress {
  import opened Basics
  import opened Text
  import Ansi

  const PROGRESS := "progress:"
  const UPDATE_STATE := "Update state"
  const CODE_START := "Update state (0x"
  const MAX_U64: nat := 0xFFFF_FFFF_FFFF_FFFF

  /** `Progress` of the source; the percent is exact instead of rounded to a double. */
  datatype Progress = Progress(pct: real, curBytes: Option<nat>, totalBytes: Option<nat>, state: Option<string>)

  // ------------------------------------------------------------ string library

  /** The first position at which `pat` occurs (Rust's `str::find`). */
  function Find(s: string, pat: string): Option<nat> {
    if |s| < |pat| then None
    else if s[..|pat|] == pat then Some(0)
    else if s == [] then None
    else var i :- Find(s[1..], pat); Some(i + 1)
  }

  function FindChar(s: string, c: char): (r: Option<nat>)
    ensures r.Some? ==> r.value < |s| && s[r.value] == c
  {
    if s == [] then None
    else if s[0] == c then Some(0)
    else var i :- FindChar(s[1..], c); Some(i + 1)
  }

  function TrimEndCommas(s: string): string {
    if s != [] && s[|s| - 1] == ',' then TrimEndCommas(s[..|s| - 1]) else s
  }

  predicate IsDigit(c: char) {
    '0' <= c <= '9'
  }

  predicate AllDigits(s: string) {
    forall i :: 0 <= i < |s| ==> IsDigit(s[i])
  }

  function DigitsValue(s: string): nat
    requires AllDigits(s)
  {
    if s == [] then 0 else 10 * DigitsValue(s[..|s| - 1]) + (s[|s| - 1] as int - '0' as int)
  }

  function Pow10(n: nat): (p: nat)
    ensures p > 0
  {
    if n == 0 then 1 else 10 * Pow10(n - 1)
  }

  function Pow2(n: nat): nat {
    if n == 0 then 1 else 2 * Pow2(n - 1)
  }

  /** `str::parse::<u64>`: an optional plus sign, at least one digit, and no overflow. */
  function ParseU64(s: string): Option<nat> {
    var digits := if s != [] && s[0] == '+' then s[1..] else s;
    if digits == [] || !AllDigits(digits) || DigitsValue(digits) > MAX_U64 then None
    else Some(DigitsValue(digits))
  }

  /**
   * `str::parse::<f64>` on a text of digits, dots and minus signs, without the rounding: an
   * optional minus sign, digits with at most one dot among them, and at least one digit.
   */
  function ParseDecimal(s: string): Option<real> {
    var neg := s != [] && s[0] == '-';
    var v :- ParseUnsigned(if neg then s[1..] else s);
    Some(Signed(neg, v))
  }

  function Signed(negative: bool, v: real): real {
    if negative then -v else v
  }

  function ParseUnsigned(s: string): Option<real> {
    var dot := FindChar(s, '.');
    var whole := if dot.Some? then s[..dot.value] else s;
    var frac := if dot.Some? then s[dot.value + 1..] else [];
    if !AllDigits(whole) || !AllDigits(frac) || whole + frac == [] then None
    else Some(DecimalValue(DigitsValue(whole), frac))
  }

  /** The number with these digits after the dot. */
  function DecimalValue(whole: nat, frac: string): real
    requires AllDigits(frac)
  {
    whole as real + DigitsValue(frac) as real / Pow10(|frac|) as real
  }

  /** Whether rounding to a double stays finite. */
  predicate IsFinite(v: real) {
    var limit := (Pow2(1024) - Pow2(970)) as real;
    -limit < v < limit
  }

  function Clamp(v: real): (r: real)
    ensures 0.0 <= r <= 100.0
    ensures 0.0 <= v <= 100.0 ==> r == v
  {
    if v < 0.0 then 0.0 else if v > 100.0 then 100.0 else v
  }

  // ------------------------------------------------------------------ the parser

  predicate InNumber(c: char) {
    IsDigit(c) || c == '.' || c == '-'
  }

  /** The length of the run of number characters at the start. */
  function NumberEnd(s: string): (n: nat)
    ensures n <= |s|
  {
    if s != [] && InNumber(s[0]) then 1 + NumberEnd(s[1..]) else 0
  }

  /** What stands between the parentheses: two counts. */
  function ParseCounts(inside: string): Option<(nat, nat)> {
    var slash :- FindChar(inside, '/');
    var cur :- ParseU64(Trim(inside[..slash]));
    var total :- ParseU64(Trim(inside[slash + 1..]));
    Some((cur, total))
  }

  /** The text between the first parenthesis and the next closing one. */
  function Inside(after: string): Option<string> {
    var open :- FindChar(after, '(');
    UpToClose(after[open..])
  }

  function UpToClose(s: string): Option<string>
    requires s != [] && s[0] == '('
  {
    var close :- FindChar(s, ')');
    Some(s[1..close])
  }

  function ParseBytes(after: string): Option<(nat, nat)> {
    var inside :- Inside(after);
    ParseCounts(Trim(inside))
  }

  lemma {:induction false} FindInRange(s: string, pat: string)
    ensures Find(s, pat).Some? ==> Find(s, pat).value + |pat| <= |s|
  {
    if s != [] && |s| >= |pat| && s[..|pat|] != pat {
      FindInRange(s[1..], pat);
    }
  }

  /** The cleaned-up text before the next "progress:". */
  function VerbIn(rest: string): Option<string> {
    FindInRange(rest, PROGRESS);
    var e :- Find(rest, PROGRESS);
    var text := Trim(TrimEndCommas(Trim(rest[..e])));
    if text == [] then None else Some(text)
  }

  function VerbAfter(after: string): Option<string> {
    var close :- FindChar(after, ')');
    VerbIn(after[close + 1..])
  }

  function ParseState(clean: string): Option<string> {
    FindInRange(clean, UPDATE_STATE);
    var s :- Find(clean, UPDATE_STATE);
    VerbAfter(clean[s..])
  }

  /** Parsing of a line that has been stripped of escape sequences. */
  function ParseClean(clean: string): Option<Progress> {
    FindInRange(clean, PROGRESS);
    var p :- Find(clean, PROGRESS);
    var rest := TrimStart(clean[p + |PROGRESS|..]);
    var end := NumberEnd(rest);
    var pct :- ParseDecimal(Trim(rest[..end]));
    if !IsFinite(pct) then None
    else
      var (cur, total) :- ParseBytes(rest[end..]);
      Some(Progress(Clamp(pct), Some(cur), Some(total), ParseState(clean)))
  }

  function ParseProgress(line: string): Option<Progress> {
    ParseClean(Ansi.Strip(line))
  }

  // ----------------------------------------------------------------- the printer

  function Digit(d: nat): char
    requires d < 10
  {
    (d + '0' as int) as char
  }

  function Decimal(n: nat): string {
    if n < 10 then [Digit(n)] else Decimal(n / 10) + [Digit(n % 10)]
  }

  /** A percent as text: a sign, the whole part, and the digits after the dot, if any. */
  datatype Percent = Percent(negative: bool, whole: nat, frac: string)

  predicate ValidPercent(p: Percent) {
    AllDigits(p.frac)
  }

  /** The part of a percent after its sign. */
  function Unsigned(p: Percent): string {
    Decimal(p.whole) + if p.frac == [] then [] else ['.'] + p.frac
  }

  function PercentText(p: Percent): string {
    if p.negative then ['-'] + Unsigned(p) else Unsigned(p)
  }

  function Magnitude(p: Percent): real
    requires ValidPercent(p)
  {
    DecimalValue(p.whole, p.frac)
  }

  function PercentValue(p: Percent): real
    requires ValidPercent(p)
  {
    Signed(p.negative, Magnitude(p))
  }

  predicate OccursAt(s: string, pat: string, i: nat) {
    i + |pat| <= |s| && s[i..i + |pat|] == pat
  }

  predicate IsHex(c: char) {
    IsDigit(c) || 'a' <= c <= 'f' || 'A' <= c <= 'F'
  }

  /** A verb that the line format can carry: trimmed, without a trailing comma, not the keyword. */
  predicate ValidVerb(v: string) {
    && (v != [] ==> !IsWhite(v[0]) && !IsWhite(v[|v| - 1]) && v[|v| - 1] != ',')
    && forall i :: 0 <= i < |v| ==> !OccursAt(v, PROGRESS, i)
  }

  /** Everything up to the word "progress:". */
  function Head(code: string, verb: string): string {
    CODE_START + code + [')', ' '] + verb + [',', ' ']
  }

  /** Everything after the word "progress:". */
  function Tail(pct: Percent, cur: nat, total: nat): string {
    [' '] + (PercentText(pct) + BytesText(cur, total))
  }

  function BytesText(cur: nat, total: nat): string {
    [' '] + ['('] + (CountsText(cur, total) + [')'] + [])
  }

  function CountsText(cur: nat, total: nat): string {
    (Decimal(cur) + [' ']) + ['/'] + ([' '] + Decimal(total))
  }

  function Line(code: string, verb: string, pct: Percent, cur: nat, total: nat): string {
    Head(code, verb) + PROGRESS + Tail(pct, cur, total)
  }

  // ------------------------------------------------------------------- lemmas

  lemma {:induction false} FindFirst(s: string, pat: string, i: nat)
    requires pat != [] && OccursAt(s, pat, i) && forall j :: 0 <= j < i ==> !OccursAt(s, pat, j)
    ensures Find(s, pat) == Some(i)
  {
    assert s[0..|pat|] == s[..|pat|];
    if i > 0 {
      assert !OccursAt(s, pat, 0);
      forall j: nat | j < i ensures OccursAt(s[1..], pat, j) == OccursAt(s, pat, j + 1) {
        if j + 1 + |pat| <= |s| {
          assert s[1..][j..j + |pat|] == s[j + 1..j + 1 + |pat|];
        }
      }
      FindFirst(s[1..], pat, i - 1);
    }
  }

  /** The first `c` in a text whose part before it has none, and the parts on either side of it. */
  lemma {:induction false} FindCharIn(a: string, c: char, b: string)
    requires c !in a
    ensures FindChar(a + [c] + b, c) == Some(|a|)
    ensures (a + [c] + b)[..|a|] == a && (a + [c] + b)[|a| + 1..] == b && (a + [c] + b)[|a|..] == [c] + b
  {
    if a != [] {
      assert (a + [c] + b)[1..] == a[1..] + [c] + b;
      FindCharIn(a[1..], c, b);
    }
  }

  lemma {:induction false} FindCharNone(s: string, c: char)
    requires c !in s
    ensures FindChar(s, c) == None
  {
    if s != [] {
      FindCharNone(s[1..], c);
    }
  }

  /** Text with nothing to trim at either end. */
  predicate Trimmed(s: string) {
    s != [] && !IsWhite(s[0]) && !IsWhite(s[|s| - 1])
  }

  lemma TrimPadded(s: string)
    requires Trimmed(s)
    ensures Trim(s) == s && Trim([' '] + s) == s && Trim(s + [' ']) == s && TrimStart([' '] + s) == s
  {
    assert ([' '] + s)[1..] == s;
    var t := s + [' '];
    assert t[..|t| - 1] == s && t[0] == s[0];
  }

  lemma {:induction false} DecimalRoundTrip(n: nat)
    ensures AllDigits(Decimal(n)) && Decimal(n) != [] && DigitsValue(Decimal(n)) == n
  {
    var s := Decimal(n);
    if n < 10 {
      assert s[..0] == [];
    } else {
      DecimalRoundTrip(n / 10);
      assert s[..|s| - 1] == Decimal(n / 10);
    }
  }

  lemma DecimalTrimmed(n: nat)
    ensures Trimmed(Decimal(n)) && '/' !in Decimal(n)
  {
    DecimalRoundTrip(n);
  }

  /** What fits a u64 reads back; what does not is refused. */
  lemma U64RoundTrip(n: nat)
    ensures ParseU64(Decimal(n)) == if n <= MAX_U64 then Some(n) else None
  {
    DecimalRoundTrip(n);
  }

  lemma UnsignedRoundTrip(p: Percent)
    requires ValidPercent(p)
    ensures ParseUnsigned(Unsigned(p)) == Some(Magnitude(p))
  {
    var whole := Decimal(p.whole);
    DecimalRoundTrip(p.whole);
    if p.frac == [] {
      assert Unsigned(p) == whole;
      FindCharNone(whole, '.');
    } else {
      assert Unsigned(p) == whole + ['.'] + p.frac;
      FindCharIn(whole, '.', p.frac);
    }
  }

  lemma UnsignedEnds(p: Percent)
    requires ValidPercent(p)
    ensures Unsigned(p) != [] && IsDigit(Unsigned(p)[0]) && IsDigit(Unsigned(p)[|Unsigned(p)| - 1])
  {
    DecimalRoundTrip(p.whole);
  }

  lemma UnsignedChars(p: Percent)
    requires ValidPercent(p)
    ensures forall i :: 0 <= i < |Unsigned(p)| ==> InNumber(Unsigned(p)[i])
  {
    DecimalRoundTrip(p.whole);
  }

  lemma PercentRoundTrip(p: Percent)
    requires ValidPercent(p)
    ensures ParseDecimal(PercentText(p)) == Some(PercentValue(p))
  {
    UnsignedEnds(p);
    UnsignedRoundTrip(p);
    SignRead(p.negative, Unsigned(p), Magnitude(p));
  }

  lemma SignRead(negative: bool, u: string, v: real)
    requires u != [] && IsDigit(u[0]) && ParseUnsigned(u) == Some(v)
    ensures ParseDecimal(if negative then ['-'] + u else u) == Some(Signed(negative, v))
  {
    assert (['-'] + u)[1..] == u;
  }

  lemma PercentShape(p: Percent)
    requires ValidPercent(p)
    ensures Trimmed(PercentText(p)) && forall i :: 0 <= i < |PercentText(p)| ==> InNumber(PercentText(p)[i])
  {
    UnsignedEnds(p);
    UnsignedChars(p);
    assert Unsigned(p) == [Unsigned(p)[0]] + Unsigned(p)[1..];
  }

  lemma {:induction false} NumberRun(a: string, b: string)
    requires (forall i :: 0 <= i < |a| ==> InNumber(a[i])) && (b == [] || !InNumber(b[0]))
    ensures NumberEnd(a + b) == |a|
  {
    if a == [] {
      assert a + b == b;
    } else {
      assert (a + b)[1..] == a[1..] + b;
      NumberRun(a[1..], b);
    }
  }

  lemma CountsRoundTrip(cur: nat, total: nat)
    ensures ParseCounts(CountsText(cur, total)) == if cur <= MAX_U64 && total <= MAX_U64 then Some((cur, total)) else None
  {
    var c, t := Decimal(cur), Decimal(total);
    DecimalTrimmed(cur);
    DecimalTrimmed(total);
    U64RoundTrip(cur);
    U64RoundTrip(total);
    FindCharIn(c + [' '], '/', [' '] + t);
    TrimPadded(c);
    TrimPadded(t);
  }

  lemma CountsShape(cur: nat, total: nat)
    ensures Trimmed(CountsText(cur, total)) && '(' !in CountsText(cur, total) && ')' !in CountsText(cur, total)
  {
    DecimalTrimmed(cur);
    DecimalTrimmed(total);
    DecimalRoundTrip(cur);
    DecimalRoundTrip(total);
  }

  lemma BytesRoundTrip(cur: nat, total: nat)
    ensures ParseBytes(BytesText(cur, total)) == if cur <= MAX_U64 && total <= MAX_U64 then Some((cur, total)) else None
  {
    var inside := CountsText(cur, total);
    CountsShape(cur, total);
    InsideFound([' '], inside, []);
    TrimPadded(inside);
    CountsRoundTrip(cur, total);
  }

  lemma CloseFound(inside: string, after: string)
    requires ')' !in inside
    ensures UpToClose(['('] + (inside + [')'] + after)) == Some(inside)
  {
    var paren := ['('] + inside;
    assert ['('] + (inside + [')'] + after) == paren + [')'] + after;
    FindCharIn(paren, ')', after);
  }

  /** The first parentheses are found, whatever stands before and after them. */
  lemma InsideFound(before: string, inside: string, after: string)
    requires '(' !in before && ')' !in inside
    ensures Inside(before + ['('] + (inside + [')'] + after)) == Some(inside)
  {
    FindCharIn(before, '(', inside + [')'] + after);
    CloseFound(inside, after);
  }

  lemma PercentRead(pct: Percent, after: string)
    requires ValidPercent(pct) && (after == [] || !InNumber(after[0]))
    ensures var rest := TrimStart([' '] + (PercentText(pct) + after)); var end := NumberEnd(rest);
      rest[end..] == after && ParseDecimal(Trim(rest[..end])) == Some(PercentValue(pct))
  {
    var p := PercentText(pct);
    var rest := p + after;
    PercentRoundTrip(pct);
    PercentShape(pct);
    assert ([' '] + rest)[1..] == rest && rest[0] == p[0];
    NumberRun(p, after);
    assert rest[..|p|] == p && rest[|p|..] == after;
    TrimPadded(p);
  }

  lemma TailRoundTrip(pct: Percent, cur: nat, total: nat) returns (rest: string, end: nat)
    requires ValidPercent(pct)
    ensures rest == TrimStart(Tail(pct, cur, total)) && end == NumberEnd(rest)
    ensures ParseDecimal(Trim(rest[..end])) == Some(PercentValue(pct))
    ensures ParseBytes(rest[end..]) == if cur <= MAX_U64 && total <= MAX_U64 then Some((cur, total)) else None
  {
    rest := TrimStart(Tail(pct, cur, total));
    end := NumberEnd(rest);
    PercentRead(pct, BytesText(cur, total));
    BytesRoundTrip(cur, total);
  }

  // the word "progress:" and the verb

  lemma ProgressChars()
    ensures |PROGRESS| == 9 && PROGRESS[0] == 'p' && PROGRESS[1] == 'r'
    ensures ',' !in PROGRESS && ' ' !in PROGRESS
  {
  }

  /** In a line of this shape the word first occurs after the head. */
  lemma OccursFirst(before: string, verb: string, tail: string)
    requires ValidVerb(verb)
    requires forall j :: 0 <= j < |before| - 1 ==> !(before[j] == 'p' && before[j + 1] == 'r')
    requires before != [] && before[|before| - 1] == ' '
    ensures Find(before + verb + [',', ' '] + PROGRESS + tail, PROGRESS) == Some(|before| + |verb| + 2)
  {
    ProgressChars();
    var s := before + verb + [',', ' '] + PROGRESS + tail;
    var i, b := |before| + |verb| + 2, |before|;
    assert s[i..i + 9] == PROGRESS;
    forall j: nat | j < i ensures !OccursAt(s, PROGRESS, j) {
      if j + 9 <= |s| && s[j..j + 9] == PROGRESS {
        NotBefore(before, verb, tail, j);
      }
    }
    FindFirst(s, PROGRESS, i);
  }

  lemma NotBefore(before: string, verb: string, tail: string, j: nat)
    requires ValidVerb(verb)
    requires forall j :: 0 <= j < |before| - 1 ==> !(before[j] == 'p' && before[j + 1] == 'r')
    requires before != [] && before[|before| - 1] == ' '
    requires j < |before| + |verb| + 2
    ensures var s := before + verb + [',', ' '] + PROGRESS + tail; s[j..j + 9] != PROGRESS
  {
    ProgressChars();
    var s := before + verb + [',', ' '] + PROGRESS + tail;
    var w := s[j..j + 9];
    var b := |before|;
    if j < b {
      var k := if s[j] != 'p' then 0 else 1;
      assert w[k] == s[j + k] != PROGRESS[k];
    } else if j + 9 <= b + |verb| {
      assert w == verb[j - b..j - b + 9];
      assert !OccursAt(verb, PROGRESS, j - b);
    } else {
      var k := if j < b + |verb| then b + |verb| - j else 0;
      assert s[j + k] == ',' || s[j + k] == ' ';
      assert w[k] == s[j + k] && PROGRESS[k] in PROGRESS;
    }
  }

  /** The line up to the verb. */
  function CodePart(code: string): string {
    CODE_START + code + [')', ' ']
  }

  lemma CodePartShape(code: string)
    requires forall i :: 0 <= i < |code| ==> IsHex(code[i])
    ensures var b := CodePart(code);
      && |b| == |code| + 18 && b[|b| - 1] == ' ' && b[..12] == UPDATE_STATE
      && (forall j :: 0 <= j < |b| - 1 ==> !(b[j] == 'p' && b[j + 1] == 'r'))
  {
    var b := CodePart(code);
    assert CODE_START[..12] == UPDATE_STATE;
    assert b[..12] == CODE_START[..12];
    forall j | 0 <= j < |b| - 1 ensures !(b[j] == 'p' && b[j + 1] == 'r') {
      if j < 16 {
        assert b[j] == CODE_START[j];
        assert j == 1 ==> b[2] == CODE_START[2];
      } else if j < 16 + |code| {
        assert b[j] == code[j - 16];
      }
    }
  }

  /** The verb with the comma and spaces around it, as `ParseState` cuts it out, is cleaned up. */
  lemma VerbCleaned(verb: string)
    requires ValidVerb(verb)
    ensures Trim(TrimEndCommas(Trim([' '] + verb + [',', ' ']))) == verb
  {
    var t := verb + [','];
    assert Trimmed(t);
    TrimBoth(t);
    assert [' '] + verb + [',', ' '] == [' '] + t + [' '];
    assert t[..|t| - 1] == verb;
    assert TrimEndCommas(verb) == verb;
    if verb != [] {
      TrimPadded(verb);
    }
  }

  lemma TrimBoth(s: string)
    requires Trimmed(s)
    ensures Trim([' '] + s + [' ']) == s
  {
    TrimPadded(s);
    assert ([' '] + s + [' '])[1..] == s + [' '];
    assert TrimStart(s + [' ']) == s + [' '];
  }

  /** Where `ParseState` cuts a line that starts with the keyword. */
  lemma StateCut(a: string, rest: string)
    requires |a| >= 12 && a[..12] == UPDATE_STATE && ')' !in a
    ensures ParseState(a + [')'] + rest) == VerbIn(rest)
  {
    var clean := a + [')'] + rest;
    assert clean[0..0 + 12] == a[..12];
    FindFirst(clean, UPDATE_STATE, 0);
    assert clean[0..] == clean;
    FindCharIn(a, ')', rest);
  }

  lemma StateRoundTrip(code: string, verb: string, tail: string)
    requires (forall i :: 0 <= i < |code| ==> IsHex(code[i])) && ValidVerb(verb)
    ensures ParseState(CodePart(code) + verb + [',', ' '] + PROGRESS + tail) == if verb == [] then None else Some(verb)
  {
    var a := CODE_START + code;
    var rest := [' '] + verb + [',', ' '] + PROGRESS + tail;
    CodePartShape(code);
    assert a[..12] == CodePart(code)[..12];
    assert CodePart(code) + verb + [',', ' '] + PROGRESS + tail == a + [')'] + rest;
    OccursFirst([' '], verb, tail);
    var e := 1 + |verb| + 2;
    assert rest[..e] == [' '] + verb + [',', ' '];
    StateCut(a, rest);
    VerbOut(rest, verb, e);
  }

  lemma VerbOut(rest: string, verb: string, e: nat)
    requires ValidVerb(verb) && Find(rest, PROGRESS) == Some(e) && e <= |rest|
    requires rest[..e] == [' '] + verb + [',', ' ']
    ensures VerbIn(rest) == if verb == [] then None else Some(verb)
  {
    VerbCleaned(verb);
  }

  /** What a line with these parts parses to: nothing if a number is too large for its type. */
  function Reported(verb: string, pct: Percent, cur: nat, total: nat): Option<Progress>
    requires ValidPercent(pct)
  {
    if !IsFinite(PercentValue(pct)) || cur > MAX_U64 || total > MAX_U64 then None
    else Some(Progress(Clamp(PercentValue(pct)), Some(cur), Some(total), if verb == [] then None else Some(verb)))
  }

  /**
   * Round trip: a line printed in the steamcmd format parses back to what was printed, with the
   * percent clamped to 0..100 and no state for an empty verb.
   */
  lemma CleanRoundTrip(code: string, verb: string, pct: Percent, cur: nat, total: nat)
    requires (forall i :: 0 <= i < |code| ==> IsHex(code[i])) && ValidVerb(verb) && ValidPercent(pct)
    ensures ParseClean(Line(code, verb, pct, cur, total)) == Reported(verb, pct, cur, total)
  {
    var b, tail := CodePart(code), Tail(pct, cur, total);
    var clean := Line(code, verb, pct, cur, total);
    assert clean == b + verb + [',', ' '] + PROGRESS + tail;
    CodePartShape(code);
    OccursFirst(b, verb, tail);
    var p := |b| + |verb| + 2;
    ProgressChars();
    assert clean[p + 9..] == tail;
    var rest, end := TailRoundTrip(pct, cur, total);
    StateRoundTrip(code, verb, tail);
  }

  /**
   * A line whose percent is followed by any text that does not go on with a number is parsed if and
   * only if the percent is finite and that text has two counts in parentheses: they are required.
   */
  lemma CountsRequired(code: string, verb: string, pct: Percent, after: string)
    requires (forall i :: 0 <= i < |code| ==> IsHex(code[i])) && ValidVerb(verb) && ValidPercent(pct)
    requires after == [] || !InNumber(after[0])
    ensures ParseClean(Head(code, verb) + PROGRESS + ([' '] + (PercentText(pct) + after))).Some?
       <==> IsFinite(PercentValue(pct)) && ParseBytes(after).Some?
  {
    var b, tail := CodePart(code), [' '] + (PercentText(pct) + after);
    var clean := Head(code, verb) + PROGRESS + tail;
    assert clean == b + verb + [',', ' '] + PROGRESS + tail;
    CodePartShape(code);
    OccursFirst(b, verb, tail);
    ProgressChars();
    assert clean[|b| + |verb| + 2 + 9..] == tail;
    PercentRead(pct, after);
  }

  /** The line "Update state (0x61) downloading, progress: 92.78", which has no counts. */
  const COUNTLESS := Head("61", "downloading") + PROGRESS + ([' '] + (PercentText(Percent(false, 92, "78")) + []))

  /** Such a line, which the code's comment would have parsed, is refused. */
  lemma CountlessRefused()
    ensures ParseClean(COUNTLESS) == None
  {
    var verb := "downloading";
    forall i | 0 <= i < |verb| ensures !OccursAt(verb, PROGRESS, i) {
      ProgressChars();
      if i + 9 <= |verb| {
        assert verb[i..i + 9][0] == verb[i];
        assert i in {0, 1, 2};
      }
    }
    CountsRequired("61", verb, Percent(false, 92, "78"), []);
  }

  /** Nor does any escape sequence in the line help. */
  lemma CountlessLineRefused(ps: seq<Ansi.Piece>)
    requires Ansi.ValidPieces(ps) && Ansi.TextOf(ps) == COUNTLESS
    ensures ParseProgress(Ansi.RenderAll(ps)) == None
  {
    Ansi.StripUndecorates(ps);
    CountlessRefused();
  }

  lemma NinetyTwo()
    ensures PercentText(Percent(false, 92, "78")) == "92.78"
  {
    assert Decimal(92) == "92";
  }

  lemma HeadOfExample()
    ensures Head("61", "downloading") == "Update state (0x61) downloading, "
  {
  }

  lemma CountlessText()
    ensures COUNTLESS == "Update state (0x61) downloading, " + "progress:" + (" " + ("92.78" + ""))
  {
    HeadOfExample();
    NinetyTwo();
  }

  /** The same through any escape sequences that were inserted anywhere in the line. */
  lemma ProgressRoundTrip(ps: seq<Ansi.Piece>, code: string, verb: string, pct: Percent, cur: nat, total: nat)
    requires (forall i :: 0 <= i < |code| ==> IsHex(code[i])) && ValidVerb(verb)
    requires ValidPercent(pct) && Ansi.ValidPieces(ps) && Ansi.TextOf(ps) == Line(code, verb, pct, cur, total)
    ensures ParseProgress(Ansi.RenderAll(ps)) == Reported(verb, pct, cur, total)
  {
    Ansi.StripUndecorates(ps);
    CleanRoundTrip(code, verb, pct, cur, total);
  }

  /** Stripping a line before it is parsed, as `pull_ds` does, makes no difference. */
  lemma StrippedFirst(line: string)
    ensures ParseProgress(Ansi.Strip(line)) == ParseProgress(line)
  {
    Ansi.StripIdempotent(line);
  }
}
