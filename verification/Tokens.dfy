// hasToken of func.go:320-355 against its meaning: the text, split at every space,
// comma and tab, has a piece equal to the token when ASCII case is ignored.  Texts are
// byte strings and tokens ASCII; then strings.EqualFold on two stretches of equal byte
// length is equality up to ASCII case.
module Tokens {
  import opened Basics

  // func.go:352-355
  predicate IsTokenBoundary(b: char) {
    b == ' ' || b == ',' || b == '\t'
  }

  predicate IsAscii(s: string) {
    forall i :: 0 <= i < |s| ==> s[i] as int < 128
  }

  predicate IsUpper(c: char) {
    'A' <= c <= 'Z'
  }

  function Lower(c: char): char {
    if IsUpper(c) then (c as int + 32) as char else c
  }

  predicate EqualFold(a: string, b: string) {
    |a| == |b| && forall i :: 0 <= i < |a| ==> Lower(a[i]) == Lower(b[i])
  }

  // b|0x20 on a byte.
  function OrBit5(c: char): char
    requires c as int < 256
  {
    if (c as int / 32) % 2 == 0 then (c as int + 32) as char else c
  }

  predicate HasBoundary(v: string) {
    exists i :: 0 <= i < |v| && IsTokenBoundary(v[i])
  }

  // The pieces of v between separators, empty ones included.
  function Pieces(v: string): (ps: seq<string>)
    decreases |v|
  {
    if v == [] then [""]
    else if IsTokenBoundary(v[0]) then [""] + Pieces(v[1..])
    else
      var ps := Pieces(v[1..]);
      if ps == [] then [v] else [[v[0]] + ps[0]] + ps[1..]
  }

  ghost predicate HasPiece(v: string, token: string) {
    exists p :: p in Pieces(v) && EqualFold(p, token)
  }

  // A stretch of v that is bounded by separators or the ends on both sides.
  predicate Bounded(v: string, sp: nat, ep: nat) {
    && sp <= ep <= |v|
    && (sp > 0 ==> IsTokenBoundary(v[sp - 1]))
    && (ep < |v| ==> IsTokenBoundary(v[ep]))
  }

  ghost predicate FoundAt(v: string, token: string, sp: nat) {
    sp + |token| <= |v| && Bounded(v, sp, sp + |token|) && EqualFold(v[sp..sp + |token|], token)
  }

  predicate FirstMatches(v: string, token: string, sp: nat)
    requires sp < |v| && token != "" && IsBytes(v)
  {
    v[sp] == token[0] || OrBit5(v[sp]) == token[0]
  }

  // What the loop accepts.
  ghost predicate Accepts(v: string, token: string) {
    && token != "" && IsBytes(v)
    && (v == token || exists sp :: 0 <= sp < |v| && FirstMatches(v, token, sp) && FoundAt(v, token, sp))
  }

  method HasToken(v: string, token: string) returns (found: bool)
    requires IsBytes(v) && IsAscii(token)
    ensures found <==> Accepts(v, token)
    ensures token != "" && !HasBoundary(token) && !IsUpper(token[0]) ==> (found <==> HasPiece(v, token))
  {
    if token != "" && !HasBoundary(token) && !IsUpper(token[0]) { AcceptsMeansHasPiece(v, token); }
    if |token| > |v| || token == "" {
      return false;
    }
    if v == token {
      return true;
    }
    var sp := 0;
    while sp <= |v| - |token|
      invariant 0 <= sp <= |v| - |token| + 1
      invariant forall i :: 0 <= i < sp && i < |v| ==> !(FirstMatches(v, token, i) && FoundAt(v, token, i))
    {
      var b := v[sp];
      if b != token[0] && OrBit5(b) != token[0] {
        sp := sp + 1;
        continue;
      }
      if sp > 0 && !IsTokenBoundary(v[sp - 1]) {
        sp := sp + 1;
        continue;
      }
      var endPos := sp + |token|;
      if endPos != |v| && !IsTokenBoundary(v[endPos]) {
        sp := sp + 1;
        continue;
      }
      if EqualFold(v[sp..sp + |token|], token) {
        assert FirstMatches(v, token, sp) && FoundAt(v, token, sp);
        return true;
      }
      sp := sp + 1;
    }
    return false;
  }

  // ---- what the pieces and the folding are ----

  // Splitting at a space, a comma or a tab splits; a text without them is one piece.
  lemma {:induction false} PiecesSplit(a: string, c: char, b: string)
    requires c in {' ', ',', '\t'}
    ensures Pieces(a + [c] + b) == Pieces(a) + Pieces(b)
    decreases |a|
  {
    var v := a + [c] + b;
    if a == "" {
      assert v[1..] == b;
    } else {
      PiecesSplit(a[1..], c, b);
      assert v[0] == a[0] && v[1..] == a[1..] + [c] + b;
      PiecesAreSome(a[1..]);
      PiecesStep(v);
      PiecesStep(a);
      FirstOfJoined(Pieces(a[1..]), Pieces(b), a[0]);
    }
  }

  lemma PiecesStep(v: string)
    requires v != "" && Pieces(v[1..]) != []
    ensures Pieces(v) == if IsTokenBoundary(v[0]) then [""] + Pieces(v[1..]) else Longer(Pieces(v[1..]), v[0])
  {
  }

  // The pieces with c put before the first.
  function Longer(ps: seq<string>, c: char): seq<string>
    requires ps != []
  {
    [[c] + ps[0]] + ps[1..]
  }

  lemma FirstOfJoined(ps: seq<string>, qs: seq<string>, c: char)
    requires ps != []
    ensures Longer(ps + qs, c) == Longer(ps, c) + qs && [""] + (ps + qs) == [""] + ps + qs
  {
  }

  lemma {:induction false} PiecesAreSome(v: string)
    ensures Pieces(v) != []
    decreases |v|
  {
    if v != [] { PiecesAreSome(v[1..]); }
  }

  lemma {:induction false} OnePiece(v: string)
    requires ' ' !in v && ',' !in v && '\t' !in v
    ensures Pieces(v) == [v]
    decreases |v|
  {
    if v != [] {
      OnePiece(v[1..]);
      assert [v[0]] + v[1..] == v;
    }
  }

  // Folding takes the 26 upper-case letters to the lower-case ones, and nothing else.
  lemma FoldTable(c: char)
    ensures forall i :: 0 <= i < 13 && c == "ABCDEFGHIJKLM"[i] ==> Lower(c) == "abcdefghijklm"[i]
    ensures forall i :: 0 <= i < 13 && c == "NOPQRSTUVWXYZ"[i] ==> Lower(c) == "nopqrstuvwxyz"[i]
    ensures c as int < 65 || c as int > 90 ==> Lower(c) == c
  {
    forall i | 0 <= i < 13 && c == "ABCDEFGHIJKLM"[i] ensures Lower(c) == "abcdefghijklm"[i] {
      LettersInStep1(i);
    }
    forall i | 0 <= i < 13 && c == "NOPQRSTUVWXYZ"[i] ensures Lower(c) == "nopqrstuvwxyz"[i] {
      LettersInStep2(i);
    }
  }

  lemma LettersInStep1(i: int)
    requires 0 <= i < 13
    ensures IsUpper("ABCDEFGHIJKLM"[i]) && "abcdefghijklm"[i] as int == "ABCDEFGHIJKLM"[i] as int + 32
  {
  }

  lemma LettersInStep2(i: int)
    requires 0 <= i < 13
    ensures IsUpper("NOPQRSTUVWXYZ"[i]) && "nopqrstuvwxyz"[i] as int == "NOPQRSTUVWXYZ"[i] as int + 32
  {
  }

  // ---- pieces are exactly the separator-free bounded stretches ----

  lemma TailStretch(v: string, sp: nat, ep: nat)
    requires sp <= ep < |v|
    ensures v[1..][sp..ep] == v[sp + 1..ep + 1]
    ensures Bounded(v[1..], sp, ep) && (sp > 0 || IsTokenBoundary(v[0])) ==> Bounded(v, sp + 1, ep + 1)
    ensures Bounded(v, sp + 1, ep + 1) ==> Bounded(v[1..], sp, ep)
  {
  }

  lemma {:induction false} PieceIsStretch(v: string, k: nat) returns (sp: nat, ep: nat)
    requires k < |Pieces(v)|
    ensures Bounded(v, sp, ep) && v[sp..ep] == Pieces(v)[k] && !HasBoundary(v[sp..ep])
    ensures k == 0 <==> sp == 0
    decreases |v|
  {
    sp, ep := 0, 0;
    if v != [] && IsTokenBoundary(v[0]) {
      if k > 0 {
        var s1, e1 := PieceIsStretch(v[1..], k - 1);
        TailStretch(v, s1, e1);
        sp, ep := s1 + 1, e1 + 1;
      }
    } else if v != [] {
      var s1, e1 := PieceIsStretch(v[1..], k);
      TailStretch(v, s1, e1);
      sp, ep := if k == 0 then 0 else s1 + 1, e1 + 1;
      assert v[0..e1 + 1] == [v[0]] + v[1..e1 + 1];
    }
  }

  lemma HeadAndTail(v: string, ep: nat)
    requires 0 < ep <= |v|
    ensures v[..ep][1..] == v[1..][..ep - 1] && v[..ep] == [v[0]] + v[1..][..ep - 1]
  {
  }

  lemma {:induction false} FirstStretchIsPiece(v: string, ep: nat)
    requires Bounded(v, 0, ep) && !HasBoundary(v[..ep])
    ensures Pieces(v) != [] && Pieces(v)[0] == v[..ep]
    decreases |v|
  {
    if v != [] && !IsTokenBoundary(v[0]) {
      assert ep > 0;
      HeadAndTail(v, ep);
      assert !HasBoundary(v[..ep][1..]);
      FirstStretchIsPiece(v[1..], ep - 1);
    }
  }

  lemma {:induction false} StretchIsPiece(v: string, sp: nat, ep: nat)
    requires Bounded(v, sp, ep) && !HasBoundary(v[sp..ep])
    ensures v[sp..ep] in Pieces(v)
    ensures sp > 0 ==> v[sp..ep] in Pieces(v)[1..]
    decreases |v|
  {
    if sp == 0 {
      FirstStretchIsPiece(v, ep);
    } else {
      TailStretch(v, sp - 1, ep - 1);
      StretchIsPiece(v[1..], sp - 1, ep - 1);
      assert IsTokenBoundary(v[0]) ==> Pieces(v)[1..] == Pieces(v[1..]);
      assert !IsTokenBoundary(v[0]) ==> sp > 1 && Pieces(v)[1..] == Pieces(v[1..])[1..];
    }
  }

  lemma HasPieceIffFound(v: string, token: string)
    requires !HasBoundary(token)
    ensures HasPiece(v, token) <==> exists sp :: 0 <= sp <= |v| && FoundAt(v, token, sp)
  {
    if HasPiece(v, token) {
      var p :| p in Pieces(v) && EqualFold(p, token);
      var k :| 0 <= k < |Pieces(v)| && Pieces(v)[k] == p;
      var sp, ep := PieceIsStretch(v, k);
      assert FoundAt(v, token, sp);
    }
    if exists sp :: 0 <= sp <= |v| && FoundAt(v, token, sp) {
      var sp :| 0 <= sp <= |v| && FoundAt(v, token, sp);
      FoldKeepsSeparators(v[sp..sp + |token|], token);
      StretchIsPiece(v, sp, sp + |token|);
    }
  }

  lemma FoldKeepsSeparators(a: string, b: string)
    requires EqualFold(a, b) && !HasBoundary(b)
    ensures !HasBoundary(a)
  {
    forall i | 0 <= i < |a| ensures !IsTokenBoundary(a[i]) {
      assert Lower(a[i]) == Lower(b[i]) && !IsTokenBoundary(b[i]);
    }
  }

  // The first-byte filter loses nothing unless the token starts upper-case.
  lemma FilterIsSound(v: string, token: string, sp: nat)
    requires IsBytes(v) && token != "" && !IsUpper(token[0]) && FoundAt(v, token, sp)
    ensures sp < |v| && FirstMatches(v, token, sp)
  {
    assert v[sp..sp + |token|][0] == v[sp];
  }

  // For a token that is not empty, has no separator and does not start upper-case,
  // hasToken means exactly "some piece equals it ignoring case".
  lemma AcceptsMeansHasPiece(v: string, token: string)
    requires IsBytes(v) && token != "" && !HasBoundary(token) && !IsUpper(token[0])
    ensures Accepts(v, token) <==> HasPiece(v, token)
  {
    HasPieceIffFound(v, token);
    if v == token {
      assert v[0..|token|] == v;
      assert FoundAt(v, token, 0);
    }
    if exists sp :: 0 <= sp <= |v| && FoundAt(v, token, sp) {
      var sp :| 0 <= sp <= |v| && FoundAt(v, token, sp);
      FilterIsSound(v, token, sp);
    }
  }

  // And those three conditions are exactly when it does so for every text.
  lemma MeaningIffPlainToken(token: string)
    requires IsAscii(token)
    ensures (forall v :: IsBytes(v) ==> (Accepts(v, token) <==> HasPiece(v, token)))
       <==> (token != "" && !HasBoundary(token) && !IsUpper(token[0]))
  {
    if token != "" && !HasBoundary(token) && !IsUpper(token[0]) {
      forall v | IsBytes(v) ensures Accepts(v, token) <==> HasPiece(v, token) {
        AcceptsMeansHasPiece(v, token);
      }
    } else if token == "" {
      assert EqualFold(Pieces("")[0], token);
      assert IsBytes("") && !Accepts("", token) && HasPiece("", token);
    } else if HasBoundary(token) {
      assert Accepts(token, token);
      if HasPiece(token, token) { SeparatorInNoPiece(token); }
    } else {
      UpperStartMisses(token);
    }
  }

  lemma WholeStretch(v: string, sp: nat, ep: nat)
    requires sp <= ep <= |v|
    ensures ep - sp == |v| ==> v[sp..ep] == v
  {
  }

  lemma SeparatorInNoPiece(token: string)
    requires HasBoundary(token)
    ensures !HasPiece(token, token)
  {
    forall p | p in Pieces(token) ensures !EqualFold(p, token) {
      var k :| 0 <= k < |Pieces(token)| && Pieces(token)[k] == p;
      var sp, ep := PieceIsStretch(token, k);
      WholeStretch(token, sp, ep);
    }
  }

  // "Close" is not found in "close": the filter compares against the token's first
  // byte as given.
  lemma UpperStartMisses(token: string)
    requires IsAscii(token) && token != "" && !HasBoundary(token) && IsUpper(token[0])
    ensures var v := [Lower(token[0])] + token[1..]; IsBytes(v) && !Accepts(v, token) && HasPiece(v, token)
  {
    var v := [Lower(token[0])] + token[1..];
    assert FoundAt(v, token, 0) by { assert v[0..|token|] == v; }
    HasPieceIffFound(v, token);
    assert forall sp :: 0 <= sp < |v| && FoundAt(v, token, sp) ==> sp == 0;
  }
}
