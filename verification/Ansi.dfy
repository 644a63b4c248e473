/** The ANSI stripper of controller/src/steamcmd.rs. */
module Ansi {
  import opened Basics

  const ESC: char := '\U{001B}'

  predicate IsAlphabetic(c: char) {
    'a' <= c <= 'z' || 'A' <= c <= 'Z'
  }

  /** In plain text, just after an escape character, or inside a control sequence. */
  datatype Mode = Text | Escape | Control

  function Next(m: Mode, c: char): Mode {
    match m
    case Text => if c == ESC then Escape else Text
    case Escape => if c == '[' then Control else Text
    case Control => if IsAlphabetic(c) then Text else Control
  }

  /** What the automaton passes on, started in mode `m`. */
  function Run(m: Mode, s: string): string
    decreases |s|
  {
    if s == [] then []
    else (if m.Text? && s[0] != ESC then [s[0]] else []) + Run(Next(m, s[0]), s[1..])
  }

  function EndMode(m: Mode, s: string): Mode
    decreases |s|
  {
    if s == [] then m else EndMode(Next(m, s[0]), s[1..])
  }

  function Strip(s: string): string {
    Run(Text, s)
  }

  lemma RunCons(m: Mode, c: char, rest: string)
    ensures Run(m, [c] + rest) == (if m.Text? && c != ESC then [c] else []) + Run(Next(m, c), rest)
    ensures EndMode(m, [c] + rest) == EndMode(Next(m, c), rest)
  {
    assert ([c] + rest)[1..] == rest;
  }

  lemma RunFrom(m: Mode, s: string, i: nat)
    requires i < |s|
    ensures Run(m, s[i..]) == (if m.Text? && s[i] != ESC then [s[i]] else []) + Run(Next(m, s[i]), s[i + 1..])
  {
    RunCons(m, s[i], s[i + 1..]);
    assert s[i..] == [s[i]] + s[i + 1..];
  }

  method StripAnsi(s: string) returns (out: string)
    ensures out == Strip(s)
  {
    if ESC !in s {
      PlainUnchanged(s);
      return s;
    }
    out := "";
    var i := 0;
    assert s[0..] == s;
    while i < |s|
      invariant 0 <= i <= |s|
      invariant out + Run(Text, s[i..]) == Strip(s)
    {
      var c := s[i];
      RunFrom(Text, s, i);
      i := i + 1;
      if c == ESC {
        i := SkipSequence(s, i);
      } else {
        ghost var rest := Run(Text, s[i..]);
        assert (out + [c]) + rest == out + ([c] + rest);
        out := out + [c];
      }
    }
  }

  /** After an escape character: a control sequence up to its letter, or one other character. */
  method SkipSequence(s: string, start: nat) returns (i: nat)
    requires start <= |s|
    ensures start <= i <= |s| && Run(Text, s[i..]) == Run(Escape, s[start..])
  {
    i := start;
    if i < |s| {
      RunFrom(Escape, s, i);
      i := i + 1;
      if s[i - 1] == '[' {
        while i < |s|
          invariant start < i <= |s| && Run(Control, s[i..]) == Run(Escape, s[start..])
        {
          var n := s[i];
          RunFrom(Control, s, i);
          i := i + 1;
          if IsAlphabetic(n) {
            return;
          }
        }
      }
    }
  }

  lemma {:induction false} PlainUnchanged(s: string)
    requires ESC !in s
    ensures Strip(s) == s && EndMode(Text, s) == Text
  {
    if s != [] {
      PlainUnchanged(s[1..]);
    }
  }

  lemma {:induction false} RunAppend(m: Mode, a: string, b: string)
    ensures Run(m, a + b) == Run(m, a) + Run(EndMode(m, a), b)
    ensures EndMode(m, a + b) == EndMode(EndMode(m, a), b)
    decreases |a|
  {
    if a == [] {
      assert a + b == b;
    } else {
      var c, rest := a[0], a[1..];
      RunAppend(Next(m, c), rest, b);
      RunCons(m, c, rest);
      RunCons(m, c, rest + b);
      assert [c] + rest == a && [c] + (rest + b) == a + b;
    }
  }

  lemma {:induction false} OutputHasNoEscape(m: Mode, s: string)
    ensures ESC !in Run(m, s)
    decreases |s|
  {
    if s != [] {
      OutputHasNoEscape(Next(m, s[0]), s[1..]);
    }
  }

  /** Stripping twice is stripping once, so `pull_ds` and `parse_progress` may both do it. */
  lemma StripIdempotent(s: string)
    ensures ESC !in Strip(s) && Strip(Strip(s)) == Strip(s)
  {
    OutputHasNoEscape(Text, s);
    PlainUnchanged(Strip(s));
  }

  /** The output is the input with some characters left out. */
  lemma {:induction false} OutputIsSubsequence(m: Mode, s: string) returns (keep: seq<bool>)
    ensures |keep| == |s| && Filter(s, keep) == Run(m, s)
    decreases |s|
  {
    keep := [];
    if s != [] {
      var rest := OutputIsSubsequence(Next(m, s[0]), s[1..]);
      var k := m.Text? && s[0] != ESC;
      FilterAppend([s[0]], s[1..], [k], rest);
      assert [s[0]] + s[1..] == s && [s[0]][..0] == [] && [k][..0] == [];
      keep := [k] + rest;
    }
  }

  // --------------------------------------------------------------- decorated text

  /** One character of text, a control sequence, or an escape character and one other. */
  datatype Piece = Plain(c: char) | Csi(params: string, final: char) | Bare(c: char)

  predicate ValidPiece(p: Piece) {
    match p
    case Plain(c) => c != ESC
    case Csi(params, final) => IsAlphabetic(final) && forall i :: 0 <= i < |params| ==> !IsAlphabetic(params[i])
    case Bare(c) => c != '['
  }

  predicate ValidPieces(ps: seq<Piece>) {
    forall i :: 0 <= i < |ps| ==> ValidPiece(ps[i])
  }

  function Render(p: Piece): string {
    match p
    case Plain(c) => [c]
    case Csi(params, final) => [ESC, '['] + params + [final]
    case Bare(c) => [ESC, c]
  }

  function RenderAll(ps: seq<Piece>): string {
    if ps == [] then [] else Render(ps[0]) + RenderAll(ps[1..])
  }

  /** The text without its decoration. */
  function TextOf(ps: seq<Piece>): string {
    if ps == [] then [] else (if ps[0].Plain? then [ps[0].c] else []) + TextOf(ps[1..])
  }

  lemma {:induction false} ControlSwallows(params: string)
    requires forall i :: 0 <= i < |params| ==> !IsAlphabetic(params[i])
    ensures Run(Control, params) == [] && EndMode(Control, params) == Control
  {
    if params != [] {
      ControlSwallows(params[1..]);
    }
  }

  lemma StripPiece(p: Piece)
    requires ValidPiece(p)
    ensures Strip(Render(p)) == (if p.Plain? then [p.c] else []) && EndMode(Text, Render(p)) == Text
  {
    match p
    case Plain(c) =>
      RunCons(Text, c, []);
      assert [c] + [] == [c];
    case Csi(params, final) =>
      RunCons(Text, ESC, ['['] + (params + [final]));
      RunCons(Escape, '[', params + [final]);
      assert Render(p) == [ESC] + (['['] + (params + [final]));
      RunAppend(Control, params, [final]);
      ControlSwallows(params);
      RunCons(Control, final, []);
      assert [final] + [] == [final];
    case Bare(c) =>
      RunCons(Text, ESC, [c]);
      RunCons(Escape, c, []);
      assert [ESC] + [c] == Render(p) && [c] + [] == [c];
  }

  /** Decorating text with complete escape sequences and stripping gives the text back. */
  lemma {:induction false} StripUndecorates(ps: seq<Piece>)
    requires ValidPieces(ps)
    ensures Strip(RenderAll(ps)) == TextOf(ps) && EndMode(Text, RenderAll(ps)) == Text
  {
    if ps != [] {
      StripPiece(ps[0]);
      StripUndecorates(ps[1..]);
      RunAppend(Text, Render(ps[0]), RenderAll(ps[1..]));
    }
  }

  /** And every string that does not break off inside an escape sequence is such a decorated text. */
  lemma {:induction false} EveryCompleteStringIsDecorated(s: string) returns (ps: seq<Piece>)
    requires EndMode(Text, s) == Text
    ensures ValidPieces(ps) && RenderAll(ps) == s
    decreases |s|
  {
    ps := [];
    if s != [] {
      var p, n := FirstPiece(s);
      StripPiece(p);
      RunAppend(Text, s[..n], s[n..]);
      assert s[..n] + s[n..] == s;
      var rest := EveryCompleteStringIsDecorated(s[n..]);
      ps := [p] + rest;
    }
  }

  lemma FirstPiece(s: string) returns (p: Piece, n: nat)
    requires s != [] && EndMode(Text, s) == Text
    ensures 0 < n <= |s| && ValidPiece(p) && Render(p) == s[..n]
  {
    RunCons(Text, s[0], s[1..]);
    assert s == [s[0]] + s[1..];
    if s[0] != ESC {
      p, n := Plain(s[0]), 1;
    } else {
      RunCons(Escape, s[1], s[2..]);
      assert s[1..] == [s[1]] + s[2..];
      if s[1] == '[' {
        var k := ControlLength(s[2..]);
        p, n := Csi(s[2..2 + k], s[2 + k]), k + 3;
      } else {
        p, n := Bare(s[1]), 2;
      }
    }
  }

  /** The parameters of a control sequence that is complete. */
  lemma {:induction false} ControlLength(s: string) returns (k: nat)
    requires EndMode(Control, s) == Text
    ensures k < |s| && IsAlphabetic(s[k]) && forall i :: 0 <= i < k ==> !IsAlphabetic(s[i])
  {
    if IsAlphabetic(s[0]) {
      k := 0;
    } else {
      var n := ControlLength(s[1..]);
      k := n + 1;
    }
  }
}
