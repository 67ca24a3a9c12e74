// From bytes to replies: the lines of Framing joined to the turns of ServeLoop.
module ServeStream {
  import opened Basics
  import opened Framing
  import opened Response
  import opened ServeLoop
  import opened HandlerLaws

  // What line k comes to: the turn it makes, and what other goroutines launch meanwhile.
  // Whether data follows in time is up to the bytes, so a turn's own idleOk is not used.
  type Classifier = (nat, string) -> Input

  // A line makes a stray, malformed or good request, or is not read at all because the
  // server shuts down.
  predicate IsLineTurn(t: Turn) {
    t.Stray? || t.Malformed? || t.Request? || t.Down?
  }

  ghost predicate LineTurns(cls: Classifier) {
    forall k: nat, l: string :: IsLineTurn(cls(k, l).turn) && BytesInput(cls(k, l))
  }

  predicate BytesInput(i: Input) {
    i.turn.Request? ==> IsBytes(HeaderGet(i.turn.x.req.headers, "Connection"))
  }

  function Timed(i: Input, more: bool): Input {
    match i.turn
    case Stray(accepted, _) => i.(turn := Stray(accepted, more))
    case Request(x, _) => i.(turn := Request(x, more))
    case _ => i
  }

  // The first line of s that is not empty.
  function FirstLine(s: string): ReadResult
    decreases |s|
  {
    ReadLineConsumes(s);
    match ReadLine(s)
    case NoLine => NoLine
    case Line(l, rest) => if l == "" then FirstLine(rest) else Line(l, rest)
  }

  lemma {:induction false} FirstLineConsumes(s: string)
    ensures FirstLine(s).Line? ==> FirstLine(s).line != "" && |FirstLine(s).rest| < |s|
    decreases |s|
  {
    ReadLineConsumes(s);
    match ReadLine(s)
    case NoLine =>
    case Line(l, rest) => if l == "" { FirstLineConsumes(rest); }
  }

  // The turns that the bytes s make, the first of them that of line k.
  ghost function TurnsOf(s: string, k: nat, cls: Classifier): seq<Input>
    decreases |s|
  {
    FirstLineConsumes(s);
    match FirstLine(s)
    case NoLine => [Input([], ReadFails)]
    case Line(l, rest) =>
      [Timed(cls(k, l), AfterIdle(rest).Some?)] +
      (if AfterIdle(rest).None? then [] else TurnsOf(AfterIdle(rest).value, k + 1, cls))
  }

  // ---- the loop over bytes ----

  // Of all the turns, `inputs` have been taken and none of them ended the loop.
  ghost predicate Consumed(all: seq<Input>, inputs: seq<Input>, left: seq<Input>, gen: seq<seq<Reply>>,
                           out: seq<OutLine>)
  {
    all == inputs + left && |gen| == |inputs| && GoingOn(inputs, gen) && SoFar(inputs, gen, out)
  }

  lemma RanPrefix(inputs: seq<Input>, more: seq<Input>, gen: seq<seq<Reply>>)
    requires Ran(inputs, gen) && |gen| == |inputs| && gen != [] && EndsLoop(inputs[|gen| - 1].turn, gen[|gen| - 1])
    ensures Ran(inputs + more, gen)
  {
  }

  lemma OneMoreInput(inputs: seq<Input>, gen: seq<seq<Reply>>, i: Input, ps: seq<Reply>)
    requires |gen| == |inputs| && GoingOn(inputs, gen) && GeneratedBy(i.turn, ps)
    ensures EndsLoop(i.turn, ps) ==> Ran(inputs + [i], gen + [ps])
    ensures !EndsLoop(i.turn, ps) ==> GoingOn(inputs + [i], gen + [ps])
  {
    assert GoingOn(inputs + [i], gen);
    OneMoreTurn(inputs + [i], gen, ps);
  }

  lemma TurnsStep(s: string, k: nat, cls: Classifier, l: string, rest: string)
    requires FirstLine(s) == Line(l, rest)
    ensures TurnsOf(s, k, cls) == [Timed(cls(k, l), AfterIdle(rest).Some?)] + Later(rest, k, cls)
  {
  }

  // The turns after line k, whose bytes are followed by rest.
  ghost function Later(rest: string, k: nat, cls: Classifier): seq<Input> {
    if AfterIdle(rest).None? then [] else TurnsOf(AfterIdle(rest).value, k + 1, cls)
  }

  lemma TurnsAtEnd(s: string, k: nat, cls: Classifier)
    requires FirstLine(s).NoLine?
    ensures TurnsOf(s, k, cls) == [Input([], ReadFails)]
  {
  }

  lemma FirstLineSkips(s: string, rest: string)
    requires ReadLine(s) == Line("", rest)
    ensures FirstLine(s) == FirstLine(rest)
  {
  }

  lemma FirstLineIs(s: string)
    requires ReadLine(s).Line? ==> ReadLine(s).line != ""
    ensures FirstLine(s) == ReadLine(s)
  {
  }

  // A turn that cannot be followed by another line ends the loop.
  lemma LastTurnEnds(i: Input)
    requires IsLineTurn(i.turn)
    ensures forall ps :: EndsLoop(Timed(i, false).turn, ps)
  {
  }

  // The output of the turns taken, seen as the first of all the turns.
  lemma OutputOfPrefix(all: seq<Input>, inputs: seq<Input>, more: seq<Input>, gen: seq<seq<Reply>>, out: seq<OutLine>)
    requires all == inputs + more && |gen| <= |inputs|
    ensures SoFar(inputs, gen, out) <==> SoFar(all, gen, out)
  {
    assert all[..|gen|] == inputs[..|gen|];
  }

  lemma TurnEmitted(inputs: seq<Input>, gen: seq<seq<Reply>>, out: seq<OutLine>, i: Input, sent: Option<Reply>)
    requires |gen| == |inputs| && SoFar(inputs, gen, out)
    ensures SoFar(inputs + [i], gen + [AsSeq(sent)], Emit(out, i, sent))
  {
    OutputOfPrefix(inputs + [i], inputs, [i], gen, out);
    OutputGrows(inputs + [i], gen, out, sent);
  }

  // A turn that ends the loop: what has been put out is faithful to all the turns.
  lemma Ended(all: seq<Input>, inputs: seq<Input>, left: seq<Input>, gen: seq<seq<Reply>>, out: seq<OutLine>,
              i: Input, more: seq<Input>, sent: Option<Reply>)
    requires Consumed(all, inputs, left, gen, out) && left == [i] + more
    requires GeneratedBy(i.turn, AsSeq(sent)) && EndsLoop(i.turn, AsSeq(sent))
    ensures Faithful(all, Emit(out, i, sent))
  {
    OneMoreInput(inputs, gen, i, AsSeq(sent));
    RanPrefix(inputs + [i], more, gen + [AsSeq(sent)]);
    Regrouped(all, inputs, left, [i], more);
    TurnEmitted(inputs, gen, out, i, sent);
    OutputOfPrefix(all, inputs + [i], more, gen + [AsSeq(sent)], Emit(out, i, sent));
    RanIsFaithful(all, Emit(out, i, sent), gen + [AsSeq(sent)]);
  }

  // A turn that does not: the loop goes on with the turns after it.
  lemma WentOn(all: seq<Input>, inputs: seq<Input>, left: seq<Input>, gen: seq<seq<Reply>>, out: seq<OutLine>,
               i: Input, more: seq<Input>, sent: Option<Reply>)
    requires Consumed(all, inputs, left, gen, out) && left == [i] + more
    requires GeneratedBy(i.turn, AsSeq(sent)) && !EndsLoop(i.turn, AsSeq(sent))
    ensures Consumed(all, inputs + [i], more, gen + [AsSeq(sent)], Emit(out, i, sent))
  {
    OneMoreInput(inputs, gen, i, AsSeq(sent));
    Regrouped(all, inputs, left, [i], more);
    TurnEmitted(inputs, gen, out, i, sent);
  }

  function AsSeq(sent: Option<Reply>): seq<Reply> {
    if sent.Some? then [sent.value] else []
  }

  function Emit(out: seq<OutLine>, i: Input, sent: Option<Reply>): seq<OutLine> {
    out + LaunchLines(i.stray) + (if sent.Some? then [Generated(sent.value)] else [])
  }

  // conn.go:420-434
  method ReadNonEmpty(r: Stream) returns (line: Option<string>)
    requires r.Valid()
    modifies r
    ensures r.Valid() && r.pos >= old(r.pos) && (line.Some? ==> r.pos > old(r.pos))
    ensures FirstLine(old(r.Rest())) == if line.None? then NoLine else Line(line.value, r.Rest())
  {
    while true
      invariant r.Valid() && r.pos >= old(r.pos)
      invariant FirstLine(r.Rest()) == FirstLine(old(r.Rest()))
      decreases |r.input| - r.pos
    {
      ghost var before := r.Rest();
      line := r.ReadLineBytes();
      if line != Some("") {
        FirstLineIs(before);
        return;
      }
      FirstLineSkips(before, r.Rest());
    }
  }

  // One line and the turn it makes, with whether idleWait finds more after it.  In the
  // source idleWait comes after the reply; what it finds is up to the bytes alone.
  method NextTurn(r: Stream, k: nat, cls: Classifier) returns (i: Input, ghost later: seq<Input>, more: bool)
    requires r.Valid() && LineTurns(cls)
    modifies r
    ensures r.Valid() && r.pos >= old(r.pos) && (more ==> r.pos > old(r.pos))
    ensures TurnsOf(old(r.Rest()), k, cls) == [i] + later && BytesInput(i)
    ensures if more then later == TurnsOf(r.Rest(), k + 1, cls) else forall ps :: EndsLoop(i.turn, ps)
  {
    ghost var before := r.Rest();
    var line := ReadNonEmpty(r);
    if line.None? {
      TurnsAtEnd(before, k, cls);
      return Input([], ReadFails), [], false;
    }
    TurnsStep(before, k, cls, line.value, r.Rest());
    i, later, more := TurnOfLine(r, k, cls, line.value);
  }

  // The turn of line k, just read.
  method TurnOfLine(r: Stream, k: nat, cls: Classifier, l: string)
    returns (i: Input, ghost later: seq<Input>, more: bool)
    requires r.Valid() && LineTurns(cls)
    modifies r
    ensures r.Valid() && r.pos >= old(r.pos)
    ensures i == Timed(cls(k, l), AfterIdle(old(r.Rest())).Some?) && BytesInput(i)
    ensures later == Later(old(r.Rest()), k, cls)
    ensures if more then later == TurnsOf(r.Rest(), k + 1, cls) else forall ps :: EndsLoop(i.turn, ps)
  {
    ghost var rest := r.Rest();
    more := r.IdleWait();
    i, later := Timed(cls(k, l), more), Later(rest, k, cls);
    if more { LaterIs(rest, k, cls, r.Rest()); } else { LastTurnEnds(cls(k, l)); }
  }

  lemma LaterIs(rest: string, k: nat, cls: Classifier, next: string)
    requires AfterIdle(rest) == Some(next)
    ensures Later(rest, k, cls) == TurnsOf(next, k + 1, cls)
  {
  }

  // The turn itself, and what it adds to the output.
  method TakeAndEmit(i: Input, sofar: seq<OutLine>,
                     ghost all: seq<Input>, ghost inputs: seq<Input>, ghost left: seq<Input>,
                     ghost gen: seq<seq<Reply>>, ghost later: seq<Input>)
    returns (out: seq<OutLine>, goOn: bool, ghost gen': seq<seq<Reply>>)
    requires Consumed(all, inputs, left, gen, sofar) && left == [i] + later && BytesInput(i)
    ensures goOn ==> Consumed(all, inputs + [i], later, gen', out)
    ensures !goOn ==> Faithful(all, out)
    ensures (forall ps :: EndsLoop(i.turn, ps)) ==> !goOn
  {
    var sent;
    sent, goOn := TakeTurn(i.turn);
    out := Emit(sofar, i, sent);
    gen' := gen + [AsSeq(sent)];
    if goOn {
      WentOn(all, inputs, left, gen, sofar, i, later, sent);
    } else {
      Ended(all, inputs, left, gen, sofar, i, later, sent);
    }
  }

  // serve's loop (conn.go:400-517) over a connection's bytes.
  method ServeBytes(s: string, cls: Classifier) returns (out: seq<OutLine>)
    requires LineTurns(cls)
    ensures Faithful(TurnsOf(s, 0, cls), out)
  {
    var r := new Stream(s);
    ghost var all := TurnsOf(s, 0, cls);
    ghost var inputs: seq<Input>, left, gen: seq<seq<Reply>> := [], all, [];
    var k := 0;
    out := [];
    while true
      invariant r.Valid() && fresh(r) && k == |inputs|
      invariant left == TurnsOf(r.Rest(), k, cls)
      invariant Consumed(all, inputs, left, gen, out)
      decreases |r.input| - r.pos
    {
      var i, later, more := NextTurn(r, k, cls);
      var goOn;
      out, goOn, gen := TakeAndEmit(i, out, all, inputs, left, gen, later);
      if !goOn {
        return;
      }
      inputs, left, k := inputs + [i], later, k + 1;
    }
  }

  // ---- what a well-behaved peer gets ----

  // The turns of its lines: each followed by more data, but for the last.
  ghost function TurnsOfLines(fs: seq<Frame>, k: nat, cls: Classifier): seq<Input> {
    seq(|fs|, i requires 0 <= i < |fs| => Timed(cls(k + i, fs[i].line), i + 1 < |fs|))
  }

  lemma FirstLineFirst(fs: seq<Frame>, k: nat, cls: Classifier)
    requires fs != []
    ensures TurnsOfLines(fs, k, cls) == [Timed(cls(k, fs[0].line), |fs| > 1)] + TurnsOfLines(fs[1..], k + 1, cls)
  {
  }

  lemma {:induction false} TurnsOfSent(fs: seq<Frame>, k: nat, cls: Classifier)
    requires fs != [] && forall i :: 0 <= i < |fs| ==> GoodLine(fs[i])
    ensures TurnsOf(Sent(fs), k, cls) == TurnsOfLines(fs, k, cls)
    decreases |fs|
  {
    var f, tail := fs[0], Gap(fs[0].gap) + Sent(fs[1..]);
    SentSplit(fs);
    ReadSentLine(f.line, f.crlf, tail);
    FirstLineIs(Sent(fs));
    TurnsStep(Sent(fs), k, cls, f.line, tail);
    IdleFindsNext(f.gap, fs[1..]);
    if |fs| > 1 { TurnsOfSent(fs[1..], k + 1, cls); }
    FirstLineFirst(fs, k, cls);
  }

  lemma FirstLineSkipsEol(crlf: bool, t: string)
    ensures FirstLine(Eol(crlf) + t) == FirstLine(t)
  {
    ReadSentLine("", crlf, t);
    assert "" + Eol(crlf) + t == Eol(crlf) + t;
    FirstLineSkips(Eol(crlf) + t, t);
  }

  lemma {:induction false} FirstLineSkipsGap(g: seq<bool>, s: string)
    ensures FirstLine(Gap(g) + s) == FirstLine(s)
  {
    if g == [] {
      assert Gap(g) + s == s;
    } else {
      FirstLineSkipsGap(g[1..], s);
      GapSplit(g, s);
      FirstLineSkipsEol(g[0], Gap(g[1..]) + s);
    }
  }

  lemma TurnsSkipGap(g: seq<bool>, s: string, k: nat, cls: Classifier)
    ensures TurnsOf(Gap(g) + s, k, cls) == TurnsOf(s, k, cls)
  {
    FirstLineSkipsGap(g, s);
    if FirstLine(s).NoLine? {
      TurnsAtEnd(s, k, cls);
      TurnsAtEnd(Gap(g) + s, k, cls);
    } else {
      TurnsStep(s, k, cls, FirstLine(s).line, FirstLine(s).rest);
      TurnsStep(Gap(g) + s, k, cls, FirstLine(s).line, FirstLine(s).rest);
    }
  }

  // What the lines come to, as read.
  ghost function AsRead(fs: seq<Frame>, cls: Classifier): seq<Input> {
    seq(|fs|, i requires 0 <= i < |fs| => cls(i, fs[i].line))
  }

  lemma OwedSnoc(inputs: seq<Input>, n: nat)
    requires 0 < n <= |inputs|
    ensures Owed(inputs[..n]) == Owed(inputs[..n - 1]) + Owed([inputs[n - 1]])
  {
    assert inputs[..n][..n - 1] == inputs[..n - 1];
    assert [inputs[n - 1]][..0] == [];
  }

  lemma OwedAlike(i: Input, more: bool)
    ensures Owed([Timed(i, more)]) == Owed([i])
  {
    assert [Timed(i, more)][..0] == [] && [i][..0] == [];
  }

  lemma {:induction false} OwedAsRead(fs: seq<Frame>, cls: Classifier, n: nat)
    requires n <= |fs|
    ensures Owed(TurnsOfLines(fs, 0, cls)[..n]) == Owed(AsRead(fs, cls)[..n])
  {
    if n > 0 {
      OwedAsRead(fs, cls, n - 1);
      OwedSnoc(TurnsOfLines(fs, 0, cls), n);
      OwedSnoc(AsRead(fs, cls), n);
      OwedAlike(cls(n - 1, fs[n - 1].line), n < |fs|);
    }
  }

  // The first n lines have been answered; in each before the n-th nothing was amiss, and in
  // the n-th, unless it is the last, something was, so that it ends the loop although more
  // data follows.
  ghost predicate AnsweredUpTo(fs: seq<Frame>, cls: Classifier, out: seq<OutLine>, n: nat) {
    && n <= |fs| && Nonces(Replies(out)) == Owed(AsRead(fs, cls)[..n])
    && (n < |fs| ==> n > 0 && !GoesOn(Timed(cls(n - 1, fs[n - 1].line), true).turn))
    && (forall m :: 0 <= m < n - 1 ==> GoesOn(Timed(cls(m, fs[m].line), true).turn))
  }

  lemma TurnAt(fs: seq<Frame>, cls: Classifier, i: nat)
    requires i < |fs|
    ensures |TurnsOfLines(fs, 0, cls)| == |fs|
    ensures TurnsOfLines(fs, 0, cls)[i].turn == Timed(cls(i, fs[i].line), i + 1 < |fs|).turn
  {
  }

  lemma LinesBefore(fs: seq<Frame>, cls: Classifier, gen: seq<seq<Reply>>)
    requires fs != [] && Ran(TurnsOfLines(fs, 0, cls), gen)
    ensures |gen| <= |fs|
    ensures forall m :: 0 <= m < |gen| - 1 ==> GoesOn(Timed(cls(m, fs[m].line), true).turn)
    ensures |gen| < |fs| ==> |gen| > 0 && !GoesOn(Timed(cls(|gen| - 1, fs[|gen| - 1].line), true).turn)
  {
    LoopTakesAllGoodTurns(TurnsOfLines(fs, 0, cls), gen);
    forall m | 0 <= m < |gen| - 1 ensures GoesOn(Timed(cls(m, fs[m].line), true).turn) {
      TurnAt(fs, cls, m);
    }
    if |gen| < |fs| { TurnAt(fs, cls, |gen| - 1); }
  }

  lemma SomeLines(fs: seq<Frame>, cls: Classifier, out: seq<OutLine>)
    requires fs != [] && Faithful(TurnsOfLines(fs, 0, cls), out)
    ensures exists n :: AnsweredUpTo(fs, cls, out, n)
  {
    var inputs := TurnsOfLines(fs, 0, cls);
    var gen :| Ran(inputs, gen) && IsOutput(inputs, gen, out);
    LinesBefore(fs, cls, gen);
    OwedAsRead(fs, cls, |gen|);
    assert AnsweredUpTo(fs, cls, out, |gen|);
  }

  lemma OwedForNoLine(inputs: seq<Input>)
    requires inputs == [] || inputs == [Input([], ReadFails)]
    ensures Owed(inputs) == []
  {
    if inputs != [] { assert inputs[..|inputs| - 1] == []; }
  }

  lemma NoLines(cls: Classifier, out: seq<OutLine>)
    requires Faithful([Input([], ReadFails)], out)
    ensures AnsweredUpTo([], cls, out, 0)
  {
    var inputs := [Input([], ReadFails)];
    var gen :| Ran(inputs, gen) && IsOutput(inputs, gen, out);
    OwedForNoLine(inputs[..|gen|]);
  }

  // Whatever line endings come before, between and after the lines a peer sends, and
  // whatever they come to, the replies carry the nonces owed for the lines, in the order
  // of the lines, up to the first that ends the loop.
  lemma LinesAreAnsweredInOrder(lead: seq<bool>, fs: seq<Frame>, cls: Classifier, out: seq<OutLine>)
    requires forall i :: 0 <= i < |fs| ==> GoodLine(fs[i])
    requires Faithful(TurnsOf(Gap(lead) + Sent(fs), 0, cls), out)
    ensures exists n :: AnsweredUpTo(fs, cls, out, n)
  {
    TurnsSkipGap(lead, Sent(fs), 0, cls);
    if fs == [] {
      TurnsAtEnd("", 0, cls);
      NoLines(cls, out);
    } else {
      TurnsOfSent(fs, 0, cls);
      SomeLines(fs, cls, out);
    }
  }
}
