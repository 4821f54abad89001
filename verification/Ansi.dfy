/** Escape sequences in terminal text: the scanner that finds them, the grammar it accepts, and when
    text may be cut into whole escapes and characters. */
module Ansi {
  import opened Options

  const ESC := '\U{1b}'
  const BEL := '\U{7}'

  predicate IsFinal(c: char) { c in {'m', 'G', 'K', 'H', 'J'} }

  /** BEL, or ESC and a backslash. */
  predicate TerminatorAt(s: string, k: nat)
    requires k < |s|
  {
    s[k] == BEL || (s[k] == ESC && k + 1 < |s| && s[k + 1] == '\\')
  }

  // ---- the grammar ---------------------------------------------------------------------------------

  /** ESC [, anything, and the first final byte. */
  predicate IsCsi(code: string) {
    && |code| >= 3 && code[0] == ESC && code[1] == '['
    && IsFinal(code[|code| - 1])
    && forall k :: 2 <= k < |code| - 1 ==> !IsFinal(code[k])
  }

  /** ESC ] or ESC _, anything, and the first terminator. */
  predicate IsString(code: string) {
    && |code| >= 3 && code[0] == ESC && code[1] in {']', '_'}
    && exists end: nat :: 2 <= end < |code| && TerminatorAt(code, end)
         && |code| == (if code[end] == BEL then end + 1 else end + 2)
         && forall k :: 2 <= k < end ==> !TerminatorAt(code, k)
  }

  predicate IsCode(code: string) { IsCsi(code) || IsString(code) }

  // ---- the scanner -----------------------------------------------------------------------------------

  /** One behind the first final byte from position j on, or 0. */
  function CsiEnd(s: string, j: nat): nat
    decreases |s| - j
  {
    if j >= |s| then 0 else if IsFinal(s[j]) then j + 1 else CsiEnd(s, j + 1)
  }

  /** Behind the first terminator from position j on, or 0. */
  function StringEnd(s: string, j: nat): nat
    decreases |s| - j
  {
    if j >= |s| then 0
    else if TerminatorAt(s, j) then if s[j] == BEL then j + 1 else j + 2
    else StringEnd(s, j + 1)
  }

  /** The length of the escape that starts at a position, or 0. */
  function CodeLength(s: string, pos: nat): nat {
    if pos + 1 >= |s| || s[pos] != ESC then 0
    else if s[pos + 1] == '[' then Reach(CsiEnd(s, pos + 2), pos)
    else if s[pos + 1] in {']', '_'} then Reach(StringEnd(s, pos + 2), pos)
    else 0
  }

  function Reach(end: nat, pos: nat): nat { if end > pos then end - pos else 0 }

  /** extract_ansi_code: the code, whose length comes with it. */
  method ExtractAnsiCode(s: string, pos: nat) returns (code: Option<string>)
    ensures code.None? <==> CodeLength(s, pos) == 0
    ensures code.Some? ==> |code.value| == CodeLength(s, pos) <= |s| - pos && code.value == s[pos..pos + |code.value|]
  {
    if pos >= |s| || s[pos] != ESC { return None; }
    if pos + 1 >= |s| { return None; }
    var next, j := s[pos + 1], pos + 2;
    if next == '[' {
      while j < |s| && !IsFinal(s[j])
        invariant pos + 2 <= j <= |s| && CsiEnd(s, j) == CsiEnd(s, pos + 2)
      {
        j := j + 1;
      }
      if j < |s| { return Some(s[pos..j + 1]); }
      return None;
    }
    if next == ']' || next == '_' {
      while j < |s|
        invariant pos + 2 <= j <= |s| && StringEnd(s, j) == StringEnd(s, pos + 2)
      {
        if s[j] == BEL { return Some(s[pos..j + 1]); }
        if s[j] == ESC && j + 1 < |s| && s[j + 1] == '\\' { return Some(s[pos..j + 2]); }
        j := j + 1;
      }
      return None;
    }
    return None;
  }

  lemma {:induction false} CsiEndIsFirst(s: string, j: nat, end: nat)
    ensures CsiEnd(s, j) == end > 0 <==> j < end <= |s| && IsFinal(s[end - 1]) && forall k :: j <= k < end - 1 ==>
              !IsFinal(s[k])
    decreases |s| - j
  {
    if j < |s| && !IsFinal(s[j]) { CsiEndIsFirst(s, j + 1, end); }
  }

  lemma {:induction false} StringEndIsFirst(s: string, j: nat)
    ensures StringEnd(s, j) > 0 ==>
              exists k: nat :: j <= k < |s| && TerminatorAt(s, k)
                && StringEnd(s, j) == (if s[k] == BEL then k + 1 else k + 2)
                && forall i :: j <= i < k ==> !TerminatorAt(s, i)
    decreases |s| - j
  {
    if j < |s| && !TerminatorAt(s, j) { StringEndIsFirst(s, j + 1); }
  }

  lemma {:induction false} FirstTerminatorEnds(s: string, j: nat, k: nat)
    requires j <= k < |s| && TerminatorAt(s, k) && forall i :: j <= i < k ==> !TerminatorAt(s, i)
    ensures StringEnd(s, j) == if s[k] == BEL then k + 1 else k + 2
    decreases k - j
  {
    if j < k { FirstTerminatorEnds(s, j + 1, k); }
  }

  /** The scanner finds an escape exactly when one of the grammar starts there, and then it finds its
      whole length: no proper prefix and no extension of an escape is one. */
  lemma FindsWholeCodes(s: string, pos: nat, n: nat)
    requires n > 0
    ensures CodeLength(s, pos) == n <==> pos + n <= |s| && IsCode(s[pos..pos + n])
  {
    if CodeLength(s, pos) == n { FoundIsCode(s, pos); }
    if pos + n <= |s| && IsCode(s[pos..pos + n]) { CodeIsFound(s, pos, n); }
  }

  lemma FoundIsCode(s: string, pos: nat)
    requires CodeLength(s, pos) > 0
    ensures var n := CodeLength(s, pos); pos + n <= |s| && IsCode(s[pos..pos + n])
  {
    var n := CodeLength(s, pos);
    if s[pos + 1] == '[' {
      CsiEndIsFirst(s, pos + 2, pos + n);
      assert IsCsi(s[pos..pos + n]);
    } else {
      StringEndIsFirst(s, pos + 2);
      var k: nat :| pos + 2 <= k < |s| && TerminatorAt(s, k)
        && StringEnd(s, pos + 2) == (if s[k] == BEL then k + 1 else k + 2)
                    && forall i :: pos + 2 <= i < k ==> !TerminatorAt(s, i);
      var code := s[pos..pos + n];
      assert TerminatorAt(code, k - pos);
      forall i | 2 <= i < k - pos ensures !TerminatorAt(code, i) { assert !TerminatorAt(s, pos + i); }
      assert IsString(code);
    }
  }

  lemma CodeIsFound(s: string, pos: nat, n: nat)
    requires pos + n <= |s| && IsCode(s[pos..pos + n])
    ensures n > 0 && CodeLength(s, pos) == n
  {
    var code := s[pos..pos + n];
    if IsCsi(code) {
      assert IsFinal(s[pos + n - 1]) && forall k :: pos + 2 <= k < pos + n - 1 ==> !IsFinal(s[k]) by {
        forall k | pos + 2 <= k < pos + n - 1 ensures !IsFinal(s[k]) { assert s[k] == code[k - pos]; }
      }
      CsiEndIsFirst(s, pos + 2, pos + n);
    } else {
      var end: nat :| 2 <= end < |code| && TerminatorAt(code, end)
        && |code| == (if code[end] == BEL then end + 1 else end + 2)
                      && forall k :: 2 <= k < end ==> !TerminatorAt(code, k);
      forall i | pos + 2 <= i < pos + end ensures !TerminatorAt(s, i) {
        assert !TerminatorAt(code, i - pos) && s[i] == code[i - pos];
        assert i + 1 < |s| && s[i + 1] == code[i - pos + 1];
      }
      FirstTerminatorEnds(s, pos + 2, pos + end);
    }
  }

  // ---- pieces ------------------------------------------------------------------------------------------

  datatype Piece = Code(code: string) | Plain(c: char)

  function Pieces(s: string): seq<Piece> {
    if s == "" then []
    else
      var n := CodeLength(s, 0);
      if 0 < n <= |s| then [Code(s[..n])] + Pieces(s[n..]) else [Plain(s[0])] + Pieces(s[1..])
  }

  function Spell(ps: seq<Piece>): string {
    if ps == [] then "" else (if ps[0].Code? then ps[0].code else [ps[0].c]) + Spell(ps[1..])
  }

  function Visible(ps: seq<Piece>): string {
    if ps == [] then "" else (if ps[0].Code? then "" else [ps[0].c]) + Visible(ps[1..])
  }

  /** No character is left over that starts an escape without being part of one. */
  ghost predicate Whole(s: string) { forall p :: p in Pieces(s) && p.Plain? ==> p.c != ESC }

  function FirstLength(s: string): (n: nat)
    requires s != ""
    ensures 1 <= n <= |s|
  {
    if 0 < CodeLength(s, 0) <= |s| then CodeLength(s, 0) else 1
  }

  function FirstPiece(s: string): Piece
    requires s != ""
  {
    if 0 < CodeLength(s, 0) <= |s| then Code(s[..CodeLength(s, 0)]) else Plain(s[0])
  }

  lemma PiecesOf(s: string)
    requires s != ""
    ensures Pieces(s) == [FirstPiece(s)] + Pieces(s[FirstLength(s)..])
  {
  }

  /** Cutting loses nothing. */
  lemma {:induction false} PiecesSpell(s: string)
    ensures Spell(Pieces(s)) == s
  {
    if s != "" {
      PiecesSpell(s[FirstLength(s)..]);
      PiecesOf(s);
      SpellFirst(FirstPiece(s), Pieces(s[FirstLength(s)..]));
      assert s == s[..FirstLength(s)] + s[FirstLength(s)..];
    }
  }

  lemma SpellFirst(p: Piece, ps: seq<Piece>)
    ensures Spell([p] + ps) == (if p.Code? then p.code else [p.c]) + Spell(ps)
  {
    assert ([p] + ps)[1..] == ps;
  }

  /** An escape is left open at a position: it begins there, or could begin there, and has no end. */
  predicate OpenAt(s: string, i: nat) {
    i < |s| && s[i] == ESC && CodeLength(s, i) == 0 && (i + 1 == |s| || s[i + 1] in {'[', ']', '_'})
  }

  /** No ESC that is left over when the text is cut leaves an escape open. */
  predicate Sealed(s: string) { s == "" || (!OpenAt(s, 0) && Sealed(s[FirstLength(s)..])) }

  lemma FirstOfBoth(a: string, b: string)
    requires a != "" && !OpenAt(a, 0)
    ensures FirstLength(a + b) == FirstLength(a) && FirstPiece(a + b) == FirstPiece(a)
  {
    var n := CodeLength(a, 0);
    if n > 0 {
      FoundIsCode(a, 0);
      assert (a + b)[0..n] == a[0..n];
      CodeIsFound(a + b, 0, n);
    }
  }

  lemma Split(a: string, b: string, n: nat)
    requires n <= |a|
    ensures (a + b)[n..] == a[n..] + b
  {
  }

  lemma PutFirst(p: Piece, x: seq<Piece>, y: seq<Piece>)
    ensures [p] + (x + y) == ([p] + x) + y
  {
  }

  /** Sealed text can be joined with any other text piece by piece. */
  lemma {:induction false} PiecesConcat(a: string, b: string)
    requires Sealed(a)
    ensures Pieces(a + b) == Pieces(a) + Pieces(b)
    decreases |a|
  {
    if a == "" {
      assert a + b == b;
    } else {
      FirstOfBoth(a, b);
      Split(a, b, FirstLength(a));
      PiecesConcat(a[FirstLength(a)..], b);
      PiecesOf(a);
      PiecesOf(a + b);
      PutFirst(FirstPiece(a), Pieces(a[FirstLength(a)..]), Pieces(b));
    }
  }

  lemma {:induction false} VisibleConcat(a: seq<Piece>, b: seq<Piece>)
    ensures Visible(a + b) == Visible(a) + Visible(b)
  {
    if a == [] {
      assert a + b == b;
    } else {
      assert (a + b)[1..] == a[1..] + b;
      VisibleConcat(a[1..], b);
    }
  }

  lemma {:induction false} NoFinal(s: string, j: nat, k: nat)
    requires CsiEnd(s, j) == 0 && j <= k < |s|
    ensures !IsFinal(s[k])
    decreases k - j
  {
    if j < k { NoFinal(s, j + 1, k); }
  }

  lemma {:induction false} NoTerminator(s: string, j: nat, k: nat)
    requires StringEnd(s, j) == 0 && j <= k < |s|
    ensures !TerminatorAt(s, k)
    decreases k - j
  {
    if j < k { NoTerminator(s, j + 1, k); }
  }

  /** What ends an escape that is left open at the front. */
  function Closer(a: string): string {
    if |a| < 2 then ['[', 'm'] else if a[1] == '[' then ['m'] else [BEL]
  }

  lemma CloserEnds(a: string)
    requires OpenAt(a, 0)
    ensures CodeLength(a + Closer(a), 0) == |a + Closer(a)|
  {
    var s := a + Closer(a);
    if |a| < 2 {
      CsiEndIsFirst(s, 2, 3);
    } else if a[1] == '[' {
      forall k | 2 <= k < |s| - 1 ensures !IsFinal(s[k]) { NoFinal(a, 2, k); }
      CsiEndIsFirst(s, 2, |s|);
    } else {
      forall k | 2 <= k < |a| ensures !TerminatorAt(s, k) { NoTerminator(a, 2, k); }
      FirstTerminatorEnds(s, 2, |a|);
    }
  }

  /** An open escape takes in text behind it, and less is left than of the two parts. */
  lemma {:induction false} OpenTakesMore(a: string) returns (b: string)
    requires !Sealed(a)
    ensures |Visible(Pieces(a + b))| < |Visible(Pieces(a))| + |Visible(Pieces(b))|
    decreases |a|
  {
    PiecesOf(a);
    if OpenAt(a, 0) {
      b := Closer(a);
      CloserEnds(a);
      PiecesOf(a + b);
      assert (a + b)[|a + b|..] == "";
      VisibleConcat([FirstPiece(a + b)], []);
      VisibleConcat([FirstPiece(a)], Pieces(a[1..]));
      assert Visible([Plain(ESC)]) == [ESC];
    } else {
      var n := FirstLength(a);
      b := OpenTakesMore(a[n..]);
      FirstOfBoth(a, b);
      PiecesOf(a + b);
      Split(a, b, n);
      VisibleConcat([FirstPiece(a)], Pieces(a[n..]));
      VisibleConcat([FirstPiece(a)], Pieces(a[n..] + b));
    }
  }

  /** Stripping, and so measuring, is additive in front of every text exactly on sealed text. */
  lemma StripConcat(a: string)
    ensures Sealed(a) <==> forall b: string :: Visible(Pieces(a + b)) == Visible(Pieces(a)) + Visible(Pieces(b))
  {
    if Sealed(a) {
      forall b: string ensures Visible(Pieces(a + b)) == Visible(Pieces(a)) + Visible(Pieces(b)) {
        PiecesConcat(a, b);
        VisibleConcat(Pieces(a), Pieces(b));
      }
    } else {
      var b := OpenTakesMore(a);
      assert Visible(Pieces(a + b)) != Visible(Pieces(a)) + Visible(Pieces(b));
    }
  }

  /** A left-over ESC reopens: once the escapes behind it are gone, an escape starts there. */
  ghost predicate Reopens(ps: seq<Piece>) {
    exists j :: 0 <= j < |ps| && ps[j] == Plain(ESC) && CodeLength(Visible(ps[j..]), 0) > 0
  }

  lemma {:induction false} VisibleShorter(s: string)
    ensures |Visible(Pieces(s))| <= |s|
  {
    if s != "" {
      PiecesOf(s);
      VisibleShorter(s[FirstLength(s)..]);
      VisibleConcat([FirstPiece(s)], Pieces(s[FirstLength(s)..]));
    }
  }

  /** Text is left alone by stripping exactly when no escape starts anywhere in it. */
  lemma {:induction false} NothingStripped(s: string)
    ensures Visible(Pieces(s)) == s <==> forall i :: 0 <= i < |s| ==> CodeLength(s, i) == 0
  {
    if s != "" {
      VisibleFrom(s, 0);
      assert s[0..] == s;
      if CodeLength(s, 0) > 0 {
        VisibleShorter(s[CodeLength(s, 0)..]);
      } else {
        NothingStripped(s[1..]);
        forall i | 1 <= i < |s| ensures CodeLength(s, i) == CodeLength(s[1..], i - 1) {
          CodeLengthFrom(s, i);
          CodeLengthFrom(s[1..], i - 1);
          assert s[1..][i - 1..] == s[i..];
        }
        assert s == [s[0]] + s[1..];
        if i :| 0 <= i < |s[1..]| && CodeLength(s[1..], i) != 0 { assert CodeLength(s, i + 1) != 0; }
      }
    }
  }

  lemma {:induction false} CodesLeft(ps: seq<Piece>)
    ensures Reopens(ps) <==> exists i :: 0 <= i < |Visible(ps)| && CodeLength(Visible(ps), i) > 0
  {
    if ps != [] {
      CodesLeft(ps[1..]);
      ReopensTail(ps);
      if ps[0].Plain? {
        var v, w := Visible(ps), Visible(ps[1..]);
        assert v == [ps[0].c] + w && v[1..] == w && v[0..] == v && ps[0..] == ps;
        forall i | 1 <= i < |v| ensures CodeLength(v, i) == CodeLength(w, i - 1) {
          CodeLengthFrom(v, i);
          CodeLengthFrom(w, i - 1);
          assert w[i - 1..] == v[i..];
        }
        if i :| 0 <= i < |w| && CodeLength(w, i) > 0 { assert CodeLength(v, i + 1) > 0; }
        if i :| 0 <= i < |v| && CodeLength(v, i) > 0 { assert i == 0 || CodeLength(w, i - 1) > 0; }
      } else {
        assert Visible(ps) == Visible(ps[1..]);
      }
    }
  }

  lemma ReopensTail(ps: seq<Piece>)
    requires ps != []
    ensures Reopens(ps) <==> Reopens(ps[1..]) || (ps[0] == Plain(ESC) && CodeLength(Visible(ps), 0) > 0)
  {
    assert ps[0..] == ps;
    forall j | 0 <= j < |ps[1..]| ensures ps[1..][j..] == ps[j + 1..] {}
    if j :| 0 <= j < |ps| && ps[j] == Plain(ESC) && CodeLength(Visible(ps[j..]), 0) > 0 {
      if j > 0 { assert ps[1..][j - 1] == ps[j] && ps[1..][j - 1..] == ps[j..]; }
    }
    if j :| 0 <= j < |ps[1..]| && ps[1..][j] == Plain(ESC) && CodeLength(Visible(ps[1..][j..]), 0) > 0 {
      assert ps[j + 1] == Plain(ESC) && ps[j + 1..] == ps[1..][j..];
    }
  }

  /** Stripping twice equals stripping once exactly when no left-over ESC reopens. */
  lemma StripIdempotent(s: string)
    ensures Visible(Pieces(Visible(Pieces(s)))) == Visible(Pieces(s)) <==> !Reopens(Pieces(s))
  {
    var v := Visible(Pieces(s));
    NothingStripped(v);
    CodesLeft(Pieces(s));
  }

  /** _strip_ansi */
  method StripAnsi(s: string) returns (out: string)
    ensures out == Visible(Pieces(s))
    ensures ESC in out <==> !Whole(s)
  {
    VisibleEscapes(Pieces(s));
    if ESC !in s {
      NothingToStrip(s);
      return s;
    }
    out := StripCodes(s);
  }

  method StripCodes(s: string) returns (out: string)
    ensures out == Visible(Pieces(s))
  {
    out := "";
    var i := 0;
    assert s[0..] == s;
    ghost var all := Visible(Pieces(s));
    while i < |s|
      invariant i <= |s| && out + Visible(Pieces(s[i..])) == all
    {
      var code := ExtractAnsiCode(s, i);
      VisibleBehind(out, s, i);
      if code.Some? {
        i := i + |code.value|;
      } else {
        out := out + [s[i]];
        i := i + 1;
      }
    }
  }

  lemma Join(a: string, b: string, c: string)
    ensures (a + b) + c == a + (b + c)
  {
  }

  lemma VisibleFrom(s: string, i: nat)
    requires i < |s|
    ensures var n := CodeLength(s, i);
            && i + n <= |s|
            && Visible(Pieces(s[i..])) ==
                 if n > 0 then Visible(Pieces(s[i + n..])) else [s[i]] + Visible(Pieces(s[i + 1..]))
  {
    var n := CodeLength(s, i);
    CodeLengthFrom(s, i);
    PiecesOf(s[i..]);
    assert s[i..][n..] == s[i + n..] && s[i..][1..] == s[i + 1..];
    if n > 0 {
      VisibleConcat([Code(s[i..][..n])], Pieces(s[i + n..]));
    } else {
      VisibleConcat([Plain(s[i])], Pieces(s[i + 1..]));
      assert Visible([Plain(s[i])]) == [s[i]];
    }
  }

  lemma VisibleBehind(out: string, s: string, i: nat)
    requires i < |s|
    ensures var n, all := CodeLength(s, i), out + Visible(Pieces(s[i..]));
            i + n <= |s|
              && all == if n > 0 then out + Visible(Pieces(s[i + n..])) else out + [s[i]] + Visible(Pieces(s[i + 1..]))
  {
    VisibleFrom(s, i);
    Join(out, [s[i]], Visible(Pieces(s[i + 1..])));
  }

  /** The scanner looks at nothing before its position. */
  lemma CodeLengthFrom(s: string, pos: nat)
    requires pos < |s|
    ensures CodeLength(s[pos..], 0) == CodeLength(s, pos)
    ensures pos + CodeLength(s, pos) <= |s|
  {
    var n, m := CodeLength(s, pos), CodeLength(s[pos..], 0);
    if n > 0 {
      FoundIsCode(s, pos);
      assert s[pos..][0..n] == s[pos..pos + n];
      CodeIsFound(s[pos..], 0, n);
    } else if m > 0 {
      FoundIsCode(s[pos..], 0);
      assert s[pos..][0..m] == s[pos..pos + m];
      CodeIsFound(s, pos, m);
    }
  }

  lemma {:induction false} VisibleEscapes(ps: seq<Piece>)
    ensures ESC in Visible(ps) <==> exists p :: p in ps && p.Plain? && p.c == ESC
  {
    if ps != [] { VisibleEscapes(ps[1..]); }
  }

  lemma {:induction false} NothingToStrip(s: string)
    requires ESC !in s
    ensures Visible(Pieces(s)) == s
  {
    if s != "" {
      NothingToStrip(s[1..]);
      assert Pieces(s)[1..] == Pieces(s[1..]);
    }
  }

  /** An escape that is left open: an unfinished CSI takes in the reset that follows it. */
  lemma OpenEscapeTakesReset()
    ensures !Sealed([ESC, '['])
    ensures Pieces([ESC, '['] + [ESC, '[', '0', 'm']) == [Code([ESC, '[', ESC, '[', '0', 'm'])]
  {
    var open, all := [ESC, '['], [ESC, '['] + [ESC, '[', '0', 'm'];
    assert CodeLength(open, 0) == 0;
    assert all == [ESC, '[', ESC, '[', '0', 'm'];
    CsiEndIsFirst(all, 2, 6);
    assert CodeLength(all, 0) == 6 && all[..6] == all && all[6..] == "";
  }

  lemma StripsFirstCode(code: string, rest: string)
    requires IsCode(code)
    ensures Visible(Pieces(code + rest)) == Visible(Pieces(rest))
  {
    var s := code + rest;
    assert s[0..|code|] == code && s[0..] == s && s[|code|..] == rest;
    CodeIsFound(s, 0, |code|);
    VisibleFrom(s, 0);
  }

  /** An ESC in front of an escape is left over when the escape is stripped, and meets what follows. */
  lemma StripsBehindEsc(code: string, rest: string)
    requires IsCode(code)
    ensures Visible(Pieces([ESC] + (code + rest))) == [ESC] + Visible(Pieces(rest))
  {
    var s := [ESC] + (code + rest);
    assert s[0..] == s && s[1..] == code + rest && s[1] == code[0] == ESC;
    VisibleFrom(s, 0);
    StripsFirstCode(code, rest);
  }

  /** So stripping such text can leave an escape that was not there. */
  lemma StrippingCanMakeAnEscape()
    ensures var reset := [ESC, '[', '0', 'm'];
            IsCode(reset) && Visible(Pieces([ESC] + (reset + ['[', '0', 'm']))) == reset
  {
    var reset, rest := [ESC, '[', '0', 'm'], ['[', '0', 'm'];
    assert IsCsi(reset);
    StripsBehindEsc(reset, rest);
    NothingToStrip(rest);
    assert [ESC] + rest == reset;
  }
}
