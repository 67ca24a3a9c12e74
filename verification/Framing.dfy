// How serve cuts a connection's bytes into lines: readLineBytes with empty lines
// skipped (conn.go:244-269, 430-434) and idleWait with its unread and four-byte peek
// (conn.go:565-588).  The input is everything the peer sends before it stops.
module Framing {
  import opened Basics

  datatype ReadResult = NoLine | Line(line: string, rest: string)

  // textproto's ReadLineBytes: up to the LF, which is dropped with one CR before it; the
  // bytes after the last LF are a line too, as they stand.
  function ReadLine(s: string): ReadResult {
    if s == "" then NoLine
    else
      var i := IndexOf(s, '\n');
      if i == |s| then Line(s, "")
      else if i > 0 && s[i - 1] == '\r' then Line(s[..i - 1], s[i + 1..])
      else Line(s[..i], s[i + 1..])
  }

  predicate IsBreak(c: char) {
    c == '\r' || c == '\n'
  }

  function SkipBreaks(s: string): (r: string)
    ensures |r| <= |s|
    ensures r == "" || !IsBreak(r[0])
  {
    if s != "" && IsBreak(s[0]) then SkipBreaks(s[1..]) else s
  }

  function AfterIdle(s: string): Option<string> {
    if |SkipBreaks(s)| < 4 then None else Some(SkipBreaks(s))
  }

  lemma ReadLineConsumes(s: string)
    ensures ReadLine(s).Line? ==> |ReadLine(s).rest| < |s|
  {
  }

  // The lines the loop hands out, while every one of them lets the loop go on.
  function Handed(s: string): seq<string>
    decreases |s|
  {
    ReadLineConsumes(s);
    match ReadLine(s)
    case NoLine => []
    case Line(l, rest) =>
      if l == "" then Handed(rest)
      else [l] + (if AfterIdle(rest).None? then [] else Handed(AfterIdle(rest).value))
  }

  // bufio.Reader over the input.
  class Stream {
    const input: string
    var pos: nat

    ghost predicate Valid()
      reads this
    {
      pos <= |input|
    }

    ghost function Rest(): string
      reads this
      requires Valid()
    {
      input[pos..]
    }

    constructor (s: string)
      ensures Valid() && Rest() == s
    {
      input, pos := s, 0;
    }

    method ReadByte() returns (c: Option<char>)
      requires Valid()
      modifies this
      ensures Valid()
      ensures c.None? ==> old(Rest()) == "" && Rest() == "" && pos == old(pos)
      ensures c.Some? ==> old(Rest()) == [c.value] + Rest() && pos == old(pos) + 1
    {
      if pos == |input| {
        return None;
      }
      c := Some(input[pos]);
      pos := pos + 1;
    }

    method UnreadByte()
      requires Valid() && pos > 0
      modifies this
      ensures Valid() && pos == old(pos) - 1
    {
      pos := pos - 1;
    }

    method ReadLineBytes() returns (line: Option<string>)
      requires Valid()
      modifies this
      ensures Valid()
      ensures ReadLine(old(Rest())) == if line.None? then NoLine else Line(line.value, Rest())
      ensures line.None? ==> Rest() == ""
      ensures pos >= old(pos) && (line.Some? ==> pos > old(pos))
    {
      var start := pos;
      while pos < |input| && input[pos] != '\n'
        invariant start <= pos <= |input|
        invariant forall j :: start <= j < pos ==> input[j] != '\n'
      {
        pos := pos + 1;
      }
      ReadLineFrom(input, start, pos);
      if start == |input| {
        return None;
      }
      if pos == |input| {
        return Some(input[start..]);
      }
      var end := if pos > start && input[pos - 1] == '\r' then pos - 1 else pos;
      line := Some(input[start..end]);
      pos := pos + 1;
    }

    // conn.go:571-587: true when the connection may be read on.
    method IdleWait() returns (ok: bool)
      requires Valid()
      modifies this
      ensures Valid()
      ensures AfterIdle(old(Rest())) == if ok then Some(Rest()) else None
      ensures pos >= old(pos)
    {
      while true
        invariant Valid() && pos >= old(pos) && SkipBreaks(old(Rest())) == SkipBreaks(Rest())
        decreases |input| - pos
      {
        var c := ReadByte();
        if c.None? {
          return false;
        }
        SkipAtHead(c.value, Rest());
        if IsBreak(c.value) {
          continue;
        }
        UnreadByte();
        break;
      }
      ok := |input| - pos >= 4;
    }
  }

  lemma SkipAtHead(c: char, t: string)
    ensures SkipBreaks([c] + t) == if IsBreak(c) then SkipBreaks(t) else [c] + t
  {
    assert ([c] + t)[1..] == t;
  }

  // A line read from the middle of the input, its LF at `lf` or missing.
  lemma ReadLineFrom(input: string, start: nat, lf: nat)
    requires start <= lf <= |input| && (lf < |input| ==> input[lf] == '\n')
    requires forall j :: start <= j < lf ==> input[j] != '\n'
    ensures ReadLine(input[start..]) ==
      if start == |input| then NoLine
      else if lf == |input| then Line(input[start..], "")
      else Line(input[start..if lf > start && input[lf - 1] == '\r' then lf - 1 else lf], input[lf + 1..])
  {
    var s := input[start..];
    if lf < |input| {
      IndexOfIs(s, '\n', lf - start);
      var end := if lf > start && input[lf - 1] == '\r' then lf - 1 else lf;
      assert input[start..end] == s[..end - start];
      assert input[lf + 1..] == s[lf - start + 1..];
    }
  }

  lemma IndexOfIs(s: string, c: char, i: nat)
    requires i < |s| && s[i] == c && forall j :: 0 <= j < i ==> s[j] != c
    ensures IndexOf(s, c) == i
  {
  }

  lemma HandedStep(s: string, l: string, rest: string)
    requires ReadLine(s) == Line(l, rest)
    ensures l == "" ==> Handed(s) == Handed(rest)
    ensures l != "" ==> Handed(s) == [l] + (if AfterIdle(rest).None? then [] else Handed(AfterIdle(rest).value))
  {
  }

  lemma HandedAtEnd(s: string)
    requires ReadLine(s).NoLine?
    ensures Handed(s) == []
  {
  }

  lemma PlusAssoc<T>(a: seq<T>, b: seq<T>, c: seq<T>)
    ensures a + b + c == a + (b + c)
  {
  }

  // The same equation with a name for each side.
  lemma Regrouped<T>(whole: seq<T>, a: seq<T>, tail: seq<T>, b: seq<T>, c: seq<T>)
    requires whole == a + tail && tail == b + c
    ensures whole == a + b + c
  {
    PlusAssoc(a, b, c);
  }

  lemma LineHanded(s: string, sofar: seq<string>, before: string, l: string, rest: string)
    requires Handed(s) == sofar + Handed(before) && ReadLine(before) == Line(l, rest) && l != ""
    ensures AfterIdle(rest).None? ==> Handed(s) == sofar + [l]
    ensures AfterIdle(rest).Some? ==> Handed(s) == sofar + [l] + Handed(AfterIdle(rest).value)
  {
    HandedStep(before, l, rest);
    var next := if AfterIdle(rest).None? then [] else Handed(AfterIdle(rest).value);
    Regrouped(Handed(s), sofar, Handed(before), [l], next);
  }

  lemma BlankSkipped(s: string, sofar: seq<string>, before: string, rest: string)
    requires Handed(s) == sofar + Handed(before) && ReadLine(before) == Line("", rest)
    ensures Handed(s) == sofar + Handed(rest)
  {
    HandedStep(before, "", rest);
  }

  lemma AllHanded(s: string, sofar: seq<string>, before: string)
    requires Handed(s) == sofar + Handed(before) && ReadLine(before).NoLine?
    ensures Handed(s) == sofar
  {
    HandedAtEnd(before);
  }

  // serve's loop, as far as lines go.
  method ReadLoop(s: string) returns (lines: seq<string>)
    ensures lines == Handed(s)
  {
    var r := new Stream(s);
    lines := [];
    while true
      invariant r.Valid() && fresh(r)
      invariant Handed(s) == lines + Handed(r.Rest())
      decreases |r.input| - r.pos
    {
      ghost var before := r.Rest();
      ReadLineConsumes(before);
      var line := r.ReadLineBytes();
      if line.None? {
        AllHanded(s, lines, before);
        return;
      }
      if line.value == "" {
        BlankSkipped(s, lines, before, r.Rest());
        continue;
      }
      LineHanded(s, lines, before, line.value, r.Rest());
      lines := lines + [line.value];
      var ok := r.IdleWait();
      if !ok {
        return;
      }
    }
  }

  // ---- what the peer sends ----

  function Eol(crlf: bool): string {
    if crlf then "\r\n" else "\n"
  }

  function Gap(g: seq<bool>): string {
    if g == [] then "" else Eol(g[0]) + Gap(g[1..])
  }

  // One line, its ending, and further empty line endings after it.
  datatype Frame = Frame(line: string, crlf: bool, gap: seq<bool>)

  // No LF inside, no CR at either end; with its ending at least four bytes.
  predicate GoodLine(f: Frame) {
    && f.line != "" && '\n' !in f.line && f.line[0] != '\r' && f.line[|f.line| - 1] != '\r'
    && |f.line| + |Eol(f.crlf)| >= 4
  }

  function Sent(fs: seq<Frame>): string {
    if fs == [] then "" else fs[0].line + Eol(fs[0].crlf) + Gap(fs[0].gap) + Sent(fs[1..])
  }

  function Lines(fs: seq<Frame>): seq<string> {
    if fs == [] then [] else [fs[0].line] + Lines(fs[1..])
  }

  // One CR goes with the LF; a line may end in another.
  lemma ReadSentLine(line: string, crlf: bool, s: string)
    requires '\n' !in line && (crlf || line == "" || line[|line| - 1] != '\r')
    ensures ReadLine(line + Eol(crlf) + s) == Line(line, s)
  {
    var t := line + Eol(crlf) + s;
    var i := |line| + |Eol(crlf)| - 1;
    IndexOfIs(t, '\n', i);
    assert t[..|line|] == line && t[i + 1..] == s;
  }

  lemma GapSplit(g: seq<bool>, s: string)
    requires g != []
    ensures Gap(g) + s == Eol(g[0]) + (Gap(g[1..]) + s)
  {
  }

  lemma HandedSkipsEol(crlf: bool, t: string)
    ensures Handed(Eol(crlf) + t) == Handed(t)
  {
    ReadSentLine("", crlf, t);
    assert "" + Eol(crlf) + t == Eol(crlf) + t;
    HandedStep(Eol(crlf) + t, "", t);
  }

  lemma {:induction false} HandedSkipsGap(g: seq<bool>, s: string)
    ensures Handed(Gap(g) + s) == Handed(s)
  {
    if g == [] {
      assert Gap(g) + s == s;
    } else {
      HandedSkipsGap(g[1..], s);
      GapSplit(g, s);
      HandedSkipsEol(g[0], Gap(g[1..]) + s);
    }
  }

  lemma SkipEol(crlf: bool, t: string)
    ensures SkipBreaks(Eol(crlf) + t) == SkipBreaks(t)
  {
    SkipAtHead('\n', t);
    SkipAtHead('\r', "\n" + t);
    assert "\r\n" + t == ['\r'] + ("\n" + t);
  }

  lemma {:induction false} SkipSkipsGap(g: seq<bool>, s: string)
    ensures SkipBreaks(Gap(g) + s) == SkipBreaks(s)
  {
    if g == [] {
      assert Gap(g) + s == s;
    } else {
      SkipSkipsGap(g[1..], s);
      GapSplit(g, s);
      SkipEol(g[0], Gap(g[1..]) + s);
    }
  }

  lemma SentSplit(fs: seq<Frame>)
    requires fs != []
    ensures Sent(fs) == fs[0].line + Eol(fs[0].crlf) + (Gap(fs[0].gap) + Sent(fs[1..]))
  {
    PlusAssoc(fs[0].line + Eol(fs[0].crlf), Gap(fs[0].gap), Sent(fs[1..]));
  }

  lemma PrefixStart(a: string, b: string)
    requires a != ""
    ensures (a + b)[0] == a[0] && |a + b| >= |a|
  {
  }

  lemma SentStart(fs: seq<Frame>)
    requires fs != [] && GoodLine(fs[0])
    ensures |Sent(fs)| >= 4 && Sent(fs)[0] == fs[0].line[0]
  {
    var first := fs[0].line + Eol(fs[0].crlf);
    SentSplit(fs);
    PrefixStart(fs[0].line, Eol(fs[0].crlf));
    PrefixStart(first, Gap(fs[0].gap) + Sent(fs[1..]));
  }

  // After a line, idleWait stops at the next line, or gives up when none follows.
  lemma IdleFindsNext(g: seq<bool>, fs: seq<Frame>)
    requires fs != [] ==> GoodLine(fs[0])
    ensures AfterIdle(Gap(g) + Sent(fs)) == if fs == [] then None else Some(Sent(fs))
  {
    SkipSkipsGap(g, Sent(fs));
    if fs != [] {
      SentStart(fs);
      assert fs[0].line[0] != '\n';
    }
  }

  lemma {:induction false} FramesAreHandedOut(fs: seq<Frame>)
    requires forall i :: 0 <= i < |fs| ==> GoodLine(fs[i])
    ensures Handed(Sent(fs)) == Lines(fs)
  {
    if fs == [] {
      HandedAtEnd("");
    } else {
      var f, tail := fs[0], Gap(fs[0].gap) + Sent(fs[1..]);
      FramesAreHandedOut(fs[1..]);
      SentSplit(fs);
      ReadSentLine(f.line, f.crlf, tail);
      HandedStep(Sent(fs), f.line, tail);
      IdleFindsNext(f.gap, fs[1..]);
    }
  }

  // What idleWait makes of any line breaks and the bytes after them: it needs four.
  lemma {:induction false} AfterIdleIff(breaks: string, t: string)
    requires (forall i :: 0 <= i < |breaks| ==> breaks[i] in {'\r', '\n'}) && (t == "" || t[0] !in {'\r', '\n'})
    ensures AfterIdle(breaks + t) == if |t| >= 4 then Some(t) else None
  {
    if breaks == "" {
      assert breaks + t == t;
    } else {
      AfterIdleIff(breaks[1..], t);
      assert breaks + t == [breaks[0]] + (breaks[1..] + t);
      SkipAtHead(breaks[0], breaks[1..] + t);
    }
  }

  // Bytes after the last line ending that the peer leaves unfinished are a line as well.
  lemma UnfinishedLineIsHanded(t: string)
    requires t != "" && '\n' !in t
    ensures Handed(t) == [t]
  {
    assert IndexOf(t, '\n') == |t|;
    HandedStep(t, t, "");
    assert SkipBreaks("") == "";
  }

  // Whatever line endings come before, between and after, the loop hands out exactly
  // the lines sent, in order.
  lemma LoopRecoversLines(lead: seq<bool>, fs: seq<Frame>)
    requires forall i :: 0 <= i < |fs| ==> GoodLine(fs[i])
    ensures Handed(Gap(lead) + Sent(fs)) == Lines(fs)
  {
    HandedSkipsGap(lead, Sent(fs));
    FramesAreHandedOut(fs);
  }
}
