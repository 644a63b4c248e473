/**
 * The character classes, limits and texts of steamcmd.rs and ds.rs against literal lists, numbers
 * and files, among them those of the repository's own tests.
 */
module Specimens {
  import opened Basics
  import opened Text
  import Ansi
  import opened Progress
  import Mapcycle

  // ------------------------------------------------------------------ character classes

  /** A control sequence ends at one of the 52 ASCII letters; the escape character is U+001B. */
  lemma LettersEndSequences(c: char)
    ensures Ansi.IsAlphabetic(c) <==> c in "ABCDEFGHIJKLMNOPQRSTUVWXYZ" || c in "abcdefghijklmnopqrstuvwxyz"
    ensures Ansi.ESC as int == 27
  {
    UpperLetters(c);
    LowerLetters(c);
  }

  lemma UpperLetters(c: char)
    ensures 'A' <= c <= 'Z' <==> c in "ABCDEFGHIJKLMNOPQRSTUVWXYZ"
  {
    var letters := "ABCDEFGHIJKLMNOPQRSTUVWXYZ";
    assert forall i :: 0 <= i < 26 ==> letters[i] as int == 65 + i;
    if 'A' <= c <= 'Z' {
      assert letters[c as int - 65] == c;
    }
  }

  lemma LowerLetters(c: char)
    ensures 'a' <= c <= 'z' <==> c in "abcdefghijklmnopqrstuvwxyz"
  {
    var letters := "abcdefghijklmnopqrstuvwxyz";
    assert forall i :: 0 <= i < 26 ==> letters[i] as int == 97 + i;
    if 'a' <= c <= 'z' {
      assert letters[c as int - 97] == c;
    }
  }

  /** The characters of which the percent is read. */
  lemma NumberCharacters(c: char)
    ensures InNumber(c) <==> c in "0123456789.-"
  {
    var chars := "0123456789.-";
    assert forall i :: 0 <= i < 10 ==> chars[i] as int == 48 + i;
    if IsDigit(c) {
      assert chars[c as int - 48] == c;
    }
    assert chars[10] == '.' && chars[11] == '-';
  }

  /** What `trim` removes: the 25 characters of Unicode's White_Space property. */
  lemma WhiteSpace(c: char)
    ensures IsWhite(c) <==> c in "\t\n\U{B}\U{C}\r \U{85}\U{A0}\U{1680}\U{2000}\U{2001}\U{2002}\U{2003}\U{2004}\U{2005}"
                                 + "\U{2006}\U{2007}\U{2008}\U{2009}\U{200A}\U{2028}\U{2029}\U{202F}\U{205F}\U{3000}"
  {
    var a := "\t\n\U{B}\U{C}\r \U{85}\U{A0}\U{1680}\U{2000}\U{2001}\U{2002}\U{2003}\U{2004}\U{2005}";
    var b := "\U{2006}\U{2007}\U{2008}\U{2009}\U{200A}\U{2028}\U{2029}\U{202F}\U{205F}\U{3000}";
    assert forall i :: 0 <= i < |a| ==> IsWhite(a[i]);
    assert forall i :: 0 <= i < |b| ==> IsWhite(b[i]);
    var n := c as int;
    if 0x9 <= n <= 0xD {
      assert a[n - 9] == c;
    } else if 0x2000 <= n <= 0x2005 {
      assert a[n - 0x2000 + 9] == c;
    } else if 0x2006 <= n <= 0x200A {
      assert b[n - 0x2006] == c;
    } else if IsWhite(c) {
      assert c in [a[5], a[6], a[7], a[8], b[5], b[6], b[7], b[8], b[9]];
    }
  }

  /** Exactly the white space at both ends goes. */
  lemma TrimExact(s: string) returns (i: nat, j: nat)
    ensures i <= j <= |s| && Trim(s) == s[i..j]
    ensures (forall k :: 0 <= k < i ==> IsWhite(s[k])) && (forall k :: j <= k < |s| ==> IsWhite(s[k]))
    ensures i < j ==> !IsWhite(s[i]) && !IsWhite(s[j - 1])
  {
    i := TrimStartExact(s);
    var n := TrimEndExact(s[i..]);
    j := i + n;
    assert forall k :: j <= k < |s| ==> s[k] == s[i..][k - i];
    assert s[i..][..n] == s[i..j];
  }

  lemma {:induction false} TrimStartExact(s: string) returns (i: nat)
    ensures i <= |s| && TrimStart(s) == s[i..] && (forall k :: 0 <= k < i ==> IsWhite(s[k]))
    ensures i < |s| ==> !IsWhite(s[i])
  {
    i := 0;
    if s != [] && IsWhite(s[0]) {
      var n := TrimStartExact(s[1..]);
      i := n + 1;
      assert forall k :: 1 <= k < i ==> s[k] == s[1..][k - 1];
    }
  }

  lemma {:induction false} TrimEndExact(s: string) returns (j: nat)
    ensures j <= |s| && TrimEnd(s) == s[..j] && (forall k :: j <= k < |s| ==> IsWhite(s[k]))
    ensures j > 0 ==> !IsWhite(s[j - 1])
  {
    j := |s|;
    if s != [] && IsWhite(s[|s| - 1]) {
      j := TrimEndExact(s[..|s| - 1]);
    }
  }

  // ------------------------------------------------------------------------- searching

  /** `find` gives the first occurrence, and nothing exactly if there is none. */
  lemma {:induction false} FindExact(s: string, pat: string)
    requires pat != []
    ensures Find(s, pat).None? <==> forall i: nat :: !OccursAt(s, pat, i)
    ensures Find(s, pat).Some? ==>
      OccursAt(s, pat, Find(s, pat).value) && forall i: nat :: i < Find(s, pat).value ==> !OccursAt(s, pat, i)
  {
    if |s| < |pat| {
    } else if s[..|pat|] == pat {
      assert OccursAt(s, pat, 0);
    } else {
      FindExact(s[1..], pat);
      OccursLater(s, pat);
    }
  }

  lemma OccursLater(s: string, pat: string)
    requires s != [] && |s| >= |pat| && s[..|pat|] != pat
    ensures !OccursAt(s, pat, 0) && forall i: nat :: OccursAt(s[1..], pat, i) == OccursAt(s, pat, i + 1)
    ensures forall i: nat :: OccursAt(s, pat, i) ==> i > 0 && OccursAt(s[1..], pat, i - 1)
  {
    assert s[0..0 + |pat|] == s[..|pat|];
    forall i: nat ensures OccursAt(s[1..], pat, i) == OccursAt(s, pat, i + 1) {
      if i + 1 + |pat| <= |s| {
        assert s[1..][i..i + |pat|] == s[i + 1..i + 1 + |pat|];
      }
    }
    forall i: nat | OccursAt(s, pat, i) ensures i > 0 && OccursAt(s[1..], pat, i - 1) {
      if i > 0 {
        assert s[1..][i - 1..i - 1 + |pat|] == s[i..i + |pat|];
      }
    }
  }

  /** A line in which the word "progress:" does not occur is not parsed. */
  lemma NoProgressWord(line: string)
    requires forall i: nat :: !OccursAt(Ansi.Strip(line), "progress:", i)
    ensures ParseProgress(line) == None
  {
    FindExact(Ansi.Strip(line), PROGRESS);
  }

  /** All commas at the end go, and nothing else. */
  lemma {:induction false} CommasExact(s: string) returns (n: nat)
    ensures n <= |s| && TrimEndCommas(s) == s[..n] && (forall k :: n <= k < |s| ==> s[k] == ',')
    ensures n > 0 ==> s[n - 1] != ','
  {
    n := |s|;
    if s != [] && s[|s| - 1] == ',' {
      n := CommasExact(s[..|s| - 1]);
    }
  }

  lemma FoundAgain(clean: string, k: nat)
    requires Find(clean, UPDATE_STATE) == Some(k)
    ensures k + 12 <= |clean| && Find(clean[k..], UPDATE_STATE) == Some(0)
  {
    FindExact(clean, UPDATE_STATE);
    assert clean[k..][..12] == clean[k..k + 12];
  }

  lemma StateFrom(clean: string, k: nat)
    requires Find(clean, UPDATE_STATE) == Some(k) && k <= |clean|
    ensures ParseState(clean) == VerbAfter(clean[k..])
  {
  }

  /** What stands before "Update state" in a line does not matter for the state. */
  lemma PrefixIgnored(clean: string, k: nat)
    requires Find(clean, UPDATE_STATE) == Some(k)
    ensures k <= |clean| && ParseState(clean) == ParseState(clean[k..])
  {
    FoundAgain(clean, k);
    StateFrom(clean, k);
    StateFrom(clean[k..], 0);
    assert clean[k..][0..] == clean[k..];
  }

  /** A line without "Update state" is parsed too, without a state. */
  lemma StateOptional(pct: Percent, cur: nat, total: nat)
    requires ValidPercent(pct)
    ensures ParseClean(PROGRESS + Tail(pct, cur, total)) == Reported("", pct, cur, total)
  {
    NoUpdateState(pct, cur, total);
    WordFirst(Tail(pct, cur, total));
    var rest, end := TailRoundTrip(pct, cur, total);
  }

  lemma WordFirst(tail: string)
    ensures Find(PROGRESS + tail, PROGRESS) == Some(0) && (PROGRESS + tail)[|PROGRESS|..] == tail
  {
    AppendParts(PROGRESS, tail);
  }

  lemma OccursStarts(s: string, pat: string, i: nat)
    requires pat != [] && OccursAt(s, pat, i)
    ensures i < |s| && s[i] == pat[0]
  {
    assert s[i..i + |pat|][0] == s[i];
  }

  lemma NoUpdateState(pct: Percent, cur: nat, total: nat)
    requires ValidPercent(pct)
    ensures ParseState(PROGRESS + Tail(pct, cur, total)) == None
  {
    var clean := PROGRESS + Tail(pct, cur, total);
    NoCapitalU(pct, cur, total);
    FindExact(clean, UPDATE_STATE);
    forall i: nat ensures !OccursAt(clean, UPDATE_STATE, i) {
      if OccursAt(clean, UPDATE_STATE, i) {
        OccursStarts(clean, UPDATE_STATE, i);
      }
    }
  }

  lemma NoCapitalU(pct: Percent, cur: nat, total: nat)
    requires ValidPercent(pct)
    ensures 'U' !in PROGRESS + Tail(pct, cur, total)
  {
    PercentShape(pct);
    DecimalRoundTrip(cur);
    DecimalRoundTrip(total);
    assert 'U' !in CountsText(cur, total);
    assert 'U' !in PROGRESS;
  }

  /** They are the numbers on either side of the first slash, white space around them aside. */
  lemma CountsAroundSlash(cur: string, total: string)
    requires '/' !in cur
    ensures ParseCounts(cur + ['/'] + total).Some? <==> ParseU64(Trim(cur)).Some? && ParseU64(Trim(total)).Some?
    ensures ParseCounts(cur + ['/'] + total).Some? ==>
      ParseCounts(cur + ['/'] + total).value == (ParseU64(Trim(cur)).value, ParseU64(Trim(total)).value)
  {
    FindCharIn(cur, '/', total);
  }

  /** A sequence that the text breaks off in is dropped. */
  lemma UnfinishedDropped(s: string, params: string)
    requires Ansi.EndMode(Ansi.Text, s) == Ansi.Text && forall i :: 0 <= i < |params| ==> !Ansi.IsAlphabetic(params[i])
    ensures Ansi.Strip(s + [Ansi.ESC]) == Ansi.Strip(s)
    ensures Ansi.Strip(s + ([Ansi.ESC] + (['['] + params))) == Ansi.Strip(s)
  {
    Ansi.RunAppend(Ansi.Text, s, [Ansi.ESC]);
    Ansi.RunCons(Ansi.Text, Ansi.ESC, []);
    assert [Ansi.ESC] + [] == [Ansi.ESC];
    Ansi.RunAppend(Ansi.Text, s, [Ansi.ESC] + (['['] + params));
    Ansi.RunCons(Ansi.Text, Ansi.ESC, ['['] + params);
    Ansi.RunCons(Ansi.Escape, '[', params);
    Ansi.ControlSwallows(params);
  }

  // --------------------------------------------------------------------------- numbers

  /** A count may have a plus sign, and is refused from 2 to the 64 on. */
  lemma CountsUpTo(n: nat)
    ensures ParseU64(Decimal(n)) == if n < 18446744073709551616 then Some(n) else None
    ensures ParseU64(['+'] + Decimal(n)) == ParseU64(Decimal(n))
  {
    DecimalRoundTrip(n);
    assert (['+'] + Decimal(n))[1..] == Decimal(n);
  }

  /** Digits are needed on one side of the dot only; a second dot is refused. */
  lemma DotForms(a: string, b: string)
    requires AllDigits(a) && AllDigits(b)
    ensures ParseUnsigned(a + ['.'] + b)
         == if a == [] && b == [] then None
            else Some(DecimalValue(DigitsValue(a), b))
    ensures ParseUnsigned(a + ['.'] + (b + ['.'])) == None
  {
    SplitAtDot(a, b);
    SplitAtDot(a, b + ['.']);
    assert (b + ['.'])[|b|] == '.';
  }

  lemma OneDigit()
    ensures AllDigits("5") && AllDigits("") && DecimalValue(0, "5") == 0.5 && DecimalValue(5, "") == 5.0
    ensures DigitsValue("5") == 5 && DigitsValue("") == 0
  {
    assert DigitsValue("5") == 5 && DigitsValue("") == 0 && Pow10(1) == 10 && Pow10(0) == 1;
  }

  lemma OneSided()
    ensures ParseUnsigned(".5") == Some(0.5) && ParseUnsigned("5.") == Some(5.0) && ParseUnsigned(".") == None
  {
    OneDigit();
    assert ".5" == [] + ['.'] + "5" && "5." == "5" + ['.'] + [] && "." == [] + ['.'] + [];
    DotForms([], "5");
    DotForms("5", []);
    DotForms([], []);
  }

  lemma SplitAtDot(a: string, rest: string)
    requires AllDigits(a)
    ensures ParseUnsigned(a + ['.'] + rest)
         == if !AllDigits(rest) || a + rest == [] then None
            else Some(DecimalValue(DigitsValue(a), rest))
  {
    FindCharIn(a, '.', rest);
    ParsedAt(a + ['.'] + rest, |a|, a, rest);
  }

  lemma ParsedAt(s: string, dot: nat, a: string, rest: string)
    requires FindChar(s, '.') == Some(dot) && s[..dot] == a && s[dot + 1..] == rest && AllDigits(a)
    ensures ParseUnsigned(s)
         == if !AllDigits(rest) || a + rest == [] then None
            else Some(DecimalValue(DigitsValue(a), rest))
  {
  }

  lemma {:induction false} PowersAdd(a: nat, b: nat)
    ensures Pow2(a + b) == Pow2(a) * Pow2(b)
  {
    if a > 0 {
      PowersAdd(a - 1, b);
    }
  }

  lemma SmallPowers()
    ensures Pow2(10) == 1024 && Pow2(53) == 9007199254740992
  {
    PowersAdd(10, 10);
    PowersAdd(20, 20);
    PowersAdd(40, 10);
    PowersAdd(50, 3);
  }

  /**
   * A percent is finite exactly if its magnitude is below the midpoint between the largest double,
   * 9007199254740991 times 2 to the 971, and the next power of two.
   */
  lemma FiniteBound(v: real)
    ensures IsFinite(v)
       <==> -(9007199254740991 * Pow2(971) + Pow2(970)) as real < v < (9007199254740991 * Pow2(971) + Pow2(970)) as real
  {
    SmallPowers();
    PowersAdd(53, 971);
    assert Pow2(971) == 2 * Pow2(970);
  }

  lemma ClampExact(v: real)
    ensures (v < 0.0 ==> Clamp(v) == 0.0) && (v > 100.0 ==> Clamp(v) == 100.0) && (0.0 <= v <= 100.0 ==> Clamp(v) == v)
  {
  }

  // --------------------------------------------------------------------- worked lines

  const PLAIN_LINE := "Update state (0x61) downloading, " + "progress:" + " 50.00 (100 / 200)"

  lemma PlainPercent()
    ensures ValidPercent(Percent(false, 50, "00")) && PercentText(Percent(false, 50, "00")) == "50.00"
    ensures PercentValue(Percent(false, 50, "00")) == 50.0
  {
    assert Decimal(50) == "50";
    assert DigitsValue("0") == 0;
    assert "00"[..1] == "0";
  }

  lemma PlainCounts()
    ensures BytesText(100, 200) == " (100 / 200)"
  {
    assert Decimal(100) == "100" && Decimal(200) == "200";
    assert CountsText(100, 200) == "100 / 200";
  }

  lemma PlainVerb()
    ensures ValidVerb("downloading")
  {
    var verb := "downloading";
    forall i | 0 <= i < |verb| ensures !OccursAt(verb, PROGRESS, i) {
      ProgressChars();
      if i + 9 <= |verb| {
        assert verb[i..i + 9][0] == verb[i];
        assert i in {0, 1, 2};
      }
    }
  }

  lemma PlainText()
    ensures PLAIN_LINE == Line("61", "downloading", Percent(false, 50, "00"), 100, 200)
  {
    HeadOfExample();
    PlainTail();
  }

  lemma PlainTail()
    ensures Tail(Percent(false, 50, "00"), 100, 200) == " 50.00 (100 / 200)"
  {
    PlainPercent();
    PlainCounts();
  }

  /** The line of the repository's test: 50 percent, 100 of 200 bytes, "downloading". */
  lemma PlainLine()
    ensures ParseClean(PLAIN_LINE) == Some(Progress(50.0, Some(100), Some(200), Some("downloading")))
  {
    PlainText();
    PlainVerb();
    PlainPercent();
    CleanRoundTrip("61", "downloading", Percent(false, 50, "00"), 100, 200);
    FiniteFifty();
  }

  lemma FiniteFifty()
    ensures IsFinite(50.0)
  {
    FiniteBound(50.0);
    SmallPowers();
    PowersAdd(10, 961);
    assert Pow2(961) >= 1 by { PowersPositive(961); }
    PowersPositive(970);
  }

  lemma {:induction false} PowersPositive(n: nat)
    ensures Pow2(n) >= 1
  {
    if n > 0 {
      PowersPositive(n - 1);
    }
  }

  /** The sequence that resets the colours. */
  const RESET := "\U{1B}[0m"

  lemma ResetStripped()
    ensures Ansi.Strip(RESET) == "" && Ansi.EndMode(Ansi.Text, RESET) == Ansi.Text
  {
    Ansi.StripPiece(Ansi.Csi("0", 'm'));
    assert Ansi.Render(Ansi.Csi("0", 'm')) == RESET;
  }

  lemma WrappedStripped(line: string)
    requires Ansi.ESC !in line
    ensures Ansi.Strip(RESET + line + RESET) == line
  {
    ResetStripped();
    Ansi.PlainUnchanged(line);
    Ansi.RunAppend(Ansi.Text, RESET + line, RESET);
    Ansi.RunAppend(Ansi.Text, RESET, line);
  }

  lemma PlainHasNoEscape()
    ensures Ansi.ESC !in PLAIN_LINE
  {
    assert Ansi.ESC !in "Update state (0x61) downloading, ";
    assert Ansi.ESC !in "progress:";
    assert Ansi.ESC !in " 50.00 (100 / 200)";
  }

  /** The test's line in escape sequences. */
  lemma ColouredLine()
    ensures ParseProgress(RESET + PLAIN_LINE + RESET) == Some(Progress(50.0, Some(100), Some(200), Some("downloading")))
  {
    PlainHasNoEscape();
    WrappedStripped(PLAIN_LINE);
    PlainLine();
  }

  // ----------------------------------------------------------------------- map cycles

  const STOCK := "-sp_campaign_portal" + ("\n" + ("abandoned" + ("\n" + ("svencoop1" + ("\n" + ("crystal" + "\n"))))))
  const REPAIRED := "svencoop1" + ("\n" + ("abandoned" + ("\n" + ("crystal" + "\n"))))

  lemma StockLines()
    ensures STOCK == Mapcycle.TextOf(["-sp_campaign_portal", "abandoned", "svencoop1", "crystal"])
  {
    Mapcycle.TextOfOne("crystal");
    Mapcycle.TextOfMore("svencoop1", ["crystal"]);
    Mapcycle.TextOfMore("abandoned", ["svencoop1", "crystal"]);
    Mapcycle.TextOfMore("-sp_campaign_portal", ["abandoned", "svencoop1", "crystal"]);
  }

  lemma RepairedText()
    ensures Mapcycle.TextOf(["svencoop1", "abandoned", "crystal"]) == REPAIRED
  {
    Mapcycle.TextOfOne("crystal");
    Mapcycle.TextOfMore("abandoned", ["crystal"]);
    Mapcycle.TextOfMore("svencoop1", ["abandoned", "crystal"]);
  }

  lemma StockOneLines()
    ensures Mapcycle.OneLines(["-sp_campaign_portal", "abandoned", "svencoop1", "crystal"])
    ensures Mapcycle.OneLines(["svencoop1", "abandoned", "crystal"])
  {
  }

  lemma StockTrimmed()
    ensures Trim("-sp_campaign_portal") == "-sp_campaign_portal" && Trim("svencoop1") == "svencoop1"
    ensures Trim("abandoned") == "abandoned" && Trim("crystal") == "crystal"
    ensures |"-sp_campaign_portal"| == 19 && |"abandoned"| == 9 && |"svencoop1"| == 9 && |"crystal"| == 7
  {
  }

  lemma StockEntries()
    ensures Mapcycle.IsPortal("-sp_campaign_portal") && !Mapcycle.IsPortal("svencoop1")
    ensures !Mapcycle.IsPortal("abandoned") && !Mapcycle.IsPortal("crystal")
    ensures Mapcycle.IsFirstMap("svencoop1") && !Mapcycle.IsFirstMap("abandoned") && !Mapcycle.IsFirstMap("crystal")
  {
    StockTrimmed();
    assert "abandoned"[0] == 'a' && "svencoop1"[0] == 's' && "crystal"[0] == 'c';
  }

  lemma StockKept()
    ensures Mapcycle.NonPortal(["-sp_campaign_portal", "abandoned", "svencoop1", "crystal"])
         == ["abandoned", "svencoop1", "crystal"]
  {
    StockEntries();
    Mapcycle.NonPortalCons("crystal", []);
    Mapcycle.NonPortalCons("svencoop1", ["crystal"]);
    Mapcycle.NonPortalCons("abandoned", ["svencoop1", "crystal"]);
    Mapcycle.NonPortalCons("-sp_campaign_portal", ["abandoned", "svencoop1", "crystal"]);
  }

  lemma StockNoCr()
    ensures var ls := ["-sp_campaign_portal", "abandoned", "svencoop1", "crystal"]; Mapcycle.DropCrs(ls) == ls
  {
    StockTrimmed();
  }

  lemma StockIsRead()
    ensures Mapcycle.Lines(STOCK) == ["-sp_campaign_portal", "abandoned", "svencoop1", "crystal"]
  {
    StockLines();
    StockOneLines();
    StockNoCr();
    Mapcycle.LinesRoundTrip(["-sp_campaign_portal", "abandoned", "svencoop1", "crystal"]);
  }

  lemma StockSwapped()
    ensures Mapcycle.FirstMapFirst(["abandoned", "svencoop1", "crystal"]) == ["svencoop1", "abandoned", "crystal"]
  {
    StockEntries();
    Mapcycle.FirstMapUnique(["abandoned", "svencoop1", "crystal"], 1);
  }

  /** The file of the repository's test: the portal goes and svencoop1 comes first. */
  lemma StockRepaired()
    ensures Mapcycle.Repaired(STOCK) == REPAIRED
  {
    StockIsRead();
    StockEntries();
    assert Mapcycle.IsPortal(Mapcycle.Lines(STOCK)[0]);
    StockKept();
    StockSwapped();
    RepairedText();
  }

  /** An entry is a portal entry, dashed or not, exactly by its text without white space at its ends. */
  lemma PortalExact(l: string)
    ensures Mapcycle.IsPortal(l) <==> Trim(l) in {"sp_campaign_portal", "-sp_campaign_portal"}
    ensures Mapcycle.IsFirstMap(l) <==> Trim(l) == "svencoop1"
  {
  }

  /** A last line that is not ended keeps its characters, a carriage return too. */
  lemma {:induction false} UnendedLine(ls: seq<string>, last: string)
    requires Mapcycle.OneLines(ls) && Mapcycle.OneLine(last) && last != []
    ensures ls == [] ==> Mapcycle.Lines(last) == [last]
    ensures ls != [] ==> Mapcycle.Lines(Mapcycle.TextOf(ls) + last) == Mapcycle.DropCrs(ls) + [last]
    decreases |ls|
  {
    if ls == [] {
      NoNewline(last);
    } else {
      var l, rest := ls[0], ls[1..];
      HeadTail(ls);
      Mapcycle.OneLinesCons(l, rest);
      UnendedLine(rest, last);
      Mapcycle.DropCrsCons(l, rest);
      if rest == [] {
        Mapcycle.TextOfOne(l);
        assert ls == [l] && Mapcycle.DropCrs(rest) == [] && ['\n'] + [] == ['\n'];
        Associative(l, ['\n'], last);
        Mapcycle.LinesStep(l, last);
      } else {
        Mapcycle.TextOfMore(l, rest);
        Associative(l, ['\n'] + Mapcycle.TextOf(rest), last);
        Associative(['\n'], Mapcycle.TextOf(rest), last);
        Mapcycle.LinesStep(l, Mapcycle.TextOf(rest) + last);
        Associative([Mapcycle.DropCr(l)], Mapcycle.DropCrs(rest), [last]);
      }
    }
  }

  lemma {:induction false} NoNewline(l: string)
    requires Mapcycle.OneLine(l)
    ensures Mapcycle.NewlineAt(l) == |l|
  {
    if l != [] {
      NoNewline(l[1..]);
    }
  }
}
