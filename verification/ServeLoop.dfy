// serve's loop (conn.go:400-517) from one line of input to the next: what it generates
// for every stream and every handler, whatever other goroutines write in between.
module ServeLoop {
  import opened Basics
  import opened Response
  import Version

  // How one handled request goes: the handler's actions and ending, the keep-alive
  // setting read when generating (dataWriter.go:30) and after (conn.go:509), and the
  // outcomes of encoding and writing.
  datatype Exchange = Exchange(
    req: RequestInfo, actions: seq<Action>, panics: bool,
    keepAlives: bool, date: string, encodeOk: bool, writeOk: bool, keepAlivesAfter: bool)

  // One turn of the loop.  `stray` are the nonces of requests that other goroutines
  // launch, and so write, before the loop writes anything in this turn.
  datatype Turn =
    | Down
    | Raw(ok: bool, idleOk: bool)
    | ReadFails
    | Blank
    | Stray(accepted: bool, idleOk: bool)
    | Malformed(reason: string)
    | Request(x: Exchange, idleOk: bool)

  datatype Input = Input(stray: seq<string>, turn: Turn)

  datatype OutLine = Launched(nonce: string) | Generated(p: Reply)

  // conn.go:467
  function BadRequest(reason: string): Reply {
    Reply("-1", 400, map["Connection" := "close"], JsonValue("Bad Request: " + reason))
  }

  function Final(x: Exchange): Draft {
    ActedAll(BLANK, x.actions)
  }

  // The handler came back with its connection neither hijacked nor answered raw.
  predicate Answered(x: Exchange) {
    !x.panics && !Final(x).hijacked && !Final(x).isWrite && x.encodeOk && x.writeOk
  }

  // The line, if any, that this turn generates.
  ghost predicate GeneratedBy(t: Turn, ps: seq<Reply>) {
    match t
    case Malformed(reason) => ps == [BadRequest(reason)]
    case Request(x, _) =>
      if Answered(x) then |ps| == 1 && IsReplyTo(ps[0], x.req, Final(x), x.keepAlives, x.date) else ps == []
    case _ => ps == []
  }

  // The turn after which the loop returns, given what it generated.
  predicate EndsLoop(t: Turn, ps: seq<Reply>) {
    match t
    case Down => true
    case Raw(ok, idleOk) => !ok || !idleOk
    case ReadFails => true
    case Blank => false
    case Stray(accepted, idleOk) => !accepted || !idleOk
    case Malformed(_) => true
    case Request(x, idleOk) =>
      || x.panics || Final(x).hijacked
      || (!Final(x).isWrite && (!x.encodeOk || !x.writeOk))
      || (ps != [] && HeaderGet(ps[0].headers, "Connection") != "keep-alive")
      || !x.keepAlivesAfter || !idleOk
  }

  function Replies(out: seq<OutLine>): seq<Reply> {
    if out == [] then []
    else Replies(out[..|out| - 1]) + (if out[|out| - 1].Generated? then [out[|out| - 1].p] else [])
  }

  function LaunchLines(nonces: seq<string>): seq<OutLine> {
    seq(|nonces|, i requires 0 <= i < |nonces| => Launched(nonces[i]))
  }

  // The turns taken and what each generated.
  ghost predicate Ran(inputs: seq<Input>, gen: seq<seq<Reply>>) {
    && |gen| <= |inputs|
    && (forall i :: 0 <= i < |gen| ==> GeneratedBy(inputs[i].turn, gen[i]))
    && (forall i :: 0 <= i < |gen| - 1 ==> !EndsLoop(inputs[i].turn, gen[i]))
    && (|gen| < |inputs| ==> gen != [] && EndsLoop(inputs[|gen| - 1].turn, gen[|gen| - 1]))
  }

  function Flat(gen: seq<seq<Reply>>): seq<Reply> {
    if gen == [] then [] else Flat(gen[..|gen| - 1]) + gen[|gen| - 1]
  }

  predicate AllBytes(inputs: seq<Input>) {
    forall i :: 0 <= i < |inputs| && inputs[i].turn.Request? ==>
      IsBytes(HeaderGet(inputs[i].turn.x.req.headers, "Connection"))
  }

  // One handled request, conn.go:474-511.
  method HandleRequest(x: Exchange) returns (sent: Option<Reply>, goOn: bool)
    requires IsBytes(HeaderGet(x.req.headers, "Connection"))
    ensures var ps := if sent.Some? then [sent.value] else [];
      && GeneratedBy(Request(x, true), ps)
      && (goOn <==> !EndsLoop(Request(x, true), ps))
  {
    var w := new ResponseWrite(x.req);
    w.RunHandler(x.actions);
    if x.panics || w.hijacked {
      return None, false;
    }
    var err;
    err, sent := w.Done(x.keepAlives, x.date, x.encodeOk, x.writeOk);
    if err.Some? || w.closeAfterReply || !x.keepAlivesAfter {
      return sent, false;
    }
    goOn := true;
  }

  // One turn: what it generates and whether the loop goes on.
  method TakeTurn(t: Turn) returns (sent: Option<Reply>, goOn: bool)
    requires t.Request? ==> IsBytes(HeaderGet(t.x.req.headers, "Connection"))
    ensures var ps := if sent.Some? then [sent.value] else [];
      GeneratedBy(t, ps) && (goOn <==> !EndsLoop(t, ps))
  {
    match t {
      case Down => return None, false;
      case Raw(ok, idleOk) => return None, ok && idleOk;
      case ReadFails => return None, false;
      case Blank => return None, true;
      case Stray(accepted, idleOk) => return None, accepted && idleOk;
      case Malformed(reason) => return Some(BadRequest(reason)), false;
      case Request(x, idleOk) =>
        sent, goOn := HandleRequest(x);
        goOn := goOn && idleOk;
    }
  }

  // Turns taken so far, none of which ended the loop.
  ghost predicate GoingOn(inputs: seq<Input>, gen: seq<seq<Reply>>) {
    |gen| <= |inputs| &&
    forall i :: 0 <= i < |gen| ==> GeneratedBy(inputs[i].turn, gen[i]) && !EndsLoop(inputs[i].turn, gen[i])
  }

  lemma OneMoreTurn(inputs: seq<Input>, gen: seq<seq<Reply>>, ps: seq<Reply>)
    requires GoingOn(inputs, gen) && |gen| < |inputs| && GeneratedBy(inputs[|gen|].turn, ps)
    ensures EndsLoop(inputs[|gen|].turn, ps) ==> Ran(inputs, gen + [ps])
    ensures !EndsLoop(inputs[|gen|].turn, ps) ==> GoingOn(inputs, gen + [ps])
  {
  }

  // The nonces of the launched lines of an output, and those launched in these turns.
  function LaunchedIn(out: seq<OutLine>): seq<string> {
    if out == [] then []
    else LaunchedIn(out[..|out| - 1]) + (if out[|out| - 1].Launched? then [out[|out| - 1].nonce] else [])
  }

  function Strays(inputs: seq<Input>): seq<string> {
    if inputs == [] then [] else Strays(inputs[..|inputs| - 1]) + inputs[|inputs| - 1].stray
  }

  // What an output promises: with the lines other goroutines launched taken out, it is
  // what the turns generated, one after the other until the first that ends the loop,
  // and so carries the nonces owed for the turns taken; the launched lines are there too.
  ghost predicate Faithful(inputs: seq<Input>, out: seq<OutLine>) {
    exists gen :: Ran(inputs, gen) && IsOutput(inputs, gen, out)
  }

  ghost predicate IsOutput(inputs: seq<Input>, gen: seq<seq<Reply>>, out: seq<OutLine>)
    requires |gen| <= |inputs|
  {
    && Replies(out) == Flat(gen) && Nonces(Replies(out)) == Owed(inputs[..|gen|])
    && LaunchedIn(out) == Strays(inputs[..|gen|])
  }

  // The output so far.
  ghost predicate SoFar(inputs: seq<Input>, gen: seq<seq<Reply>>, out: seq<OutLine>)
    requires |gen| <= |inputs|
  {
    Replies(out) == Flat(gen) && LaunchedIn(out) == Strays(inputs[..|gen|])
  }

  // The whole loop.
  method Serve(inputs: seq<Input>) returns (out: seq<OutLine>)
    requires AllBytes(inputs)
    ensures Faithful(inputs, out)
  {
    ghost var gen: seq<seq<Reply>> := [];
    out := [];
    var i := 0;
    while i < |inputs|
      invariant i == |gen| && GoingOn(inputs, gen)
      invariant SoFar(inputs, gen, out)
      decreases |inputs| - i
    {
      var sent, goOn := TakeTurn(inputs[i].turn);
      ghost var ps := if sent.Some? then [sent.value] else [];
      OneMoreTurn(inputs, gen, ps);
      OutputGrows(inputs, gen, out, sent);
      out := out + LaunchLines(inputs[i].stray) + (if sent.Some? then [Generated(sent.value)] else []);
      gen := gen + [ps];
      if !goOn {
        break;
      }
      i := i + 1;
    }
    RanIsFaithful(inputs, out, gen);
  }

  lemma RanIsFaithful(inputs: seq<Input>, out: seq<OutLine>, gen: seq<seq<Reply>>)
    requires Ran(inputs, gen) && SoFar(inputs, gen, out)
    ensures Faithful(inputs, out)
  {
    RepliesInOrder(inputs, gen);
    assert IsOutput(inputs, gen, out);
  }

  // What one turn adds to the output.
  lemma OutputGrows(inputs: seq<Input>, gen: seq<seq<Reply>>, out: seq<OutLine>, sent: Option<Reply>)
    requires |gen| < |inputs| && SoFar(inputs, gen, out)
    ensures var ps := if sent.Some? then [sent.value] else [];
      SoFar(inputs, gen + [ps],
            out + LaunchLines(inputs[|gen|].stray) + (if sent.Some? then [Generated(sent.value)] else []))
  {
    var n, stray := |gen|, inputs[|gen|].stray;
    var mid := out + LaunchLines(stray);
    LaunchesAreFilteredOut(out, stray);
    FlatSnoc(gen, if sent.Some? then [sent.value] else []);
    assert inputs[..n + 1][..n] == inputs[..n];
    if sent.Some? {
      LinesSnoc(mid, Generated(sent.value));
    } else {
      assert mid + [] == mid;
    }
  }

  lemma LinesSnoc(out: seq<OutLine>, l: OutLine)
    ensures Replies(out + [l]) == Replies(out) + (if l.Generated? then [l.p] else [])
    ensures LaunchedIn(out + [l]) == LaunchedIn(out) + (if l.Launched? then [l.nonce] else [])
  {
    assert (out + [l])[..|out|] == out;
  }

  lemma FlatSnoc(gen: seq<seq<Reply>>, ps: seq<Reply>)
    ensures Flat(gen + [ps]) == Flat(gen) + ps
  {
    assert (gen + [ps])[..|gen|] == gen;
  }

  lemma {:induction false} LaunchesAreFilteredOut(out: seq<OutLine>, nonces: seq<string>)
    ensures Replies(out + LaunchLines(nonces)) == Replies(out)
    ensures LaunchedIn(out + LaunchLines(nonces)) == LaunchedIn(out) + nonces
    decreases |nonces|
  {
    if nonces == [] {
      assert out + LaunchLines(nonces) == out;
    } else {
      var m := |nonces| - 1;
      LaunchesAreFilteredOut(out, nonces[..m]);
      LinesSnoc(out + LaunchLines(nonces[..m]), Launched(nonces[m]));
      assert out + LaunchLines(nonces) == out + LaunchLines(nonces[..m]) + [Launched(nonces[m])];
      assert nonces == nonces[..m] + [nonces[m]];
    }
  }

  // ---- one reply per request, in order ----

  // The nonces owed for these turns: each answered request's own, "-1" for a malformed one.
  function Owed(inputs: seq<Input>): seq<string> {
    if inputs == [] then []
    else
      var t := inputs[|inputs| - 1].turn;
      Owed(inputs[..|inputs| - 1]) +
      (if t.Malformed? then ["-1"] else if t.Request? && Answered(t.x) then [t.x.req.nonce] else [])
  }

  function Nonces(ps: seq<Reply>): seq<string> {
    seq(|ps|, i requires 0 <= i < |ps| => ps[i].nonce)
  }

  lemma NoncesJoin(a: seq<Reply>, b: seq<Reply>)
    ensures Nonces(a + b) == Nonces(a) + Nonces(b)
  {
  }

  lemma OneTurnsNonces(t: Turn, ps: seq<Reply>)
    requires GeneratedBy(t, ps)
    ensures Nonces(ps) == if t.Malformed? then ["-1"] else if t.Request? && Answered(t.x) then [t.x.req.nonce] else []
  {
  }

  lemma {:induction false} RepliesInOrder(inputs: seq<Input>, gen: seq<seq<Reply>>)
    requires |gen| <= |inputs| && forall i :: 0 <= i < |gen| ==> GeneratedBy(inputs[i].turn, gen[i])
    ensures Nonces(Flat(gen)) == Owed(inputs[..|gen|])
    decreases |gen|
  {
    if gen != [] {
      var m := |gen| - 1;
      RepliesInOrder(inputs, gen[..m]);
      assert inputs[..|gen|][..m] == inputs[..m];
      OneTurnsNonces(inputs[m].turn, gen[m]);
      NoncesJoin(Flat(gen[..m]), gen[m]);
    }
  }

  // Every turn but the last one taken let the loop go on: nothing is generated after a
  // hijack, a panic, a 400 or a reply that closes, and a 400 is the last line.
  lemma NothingAfterTheEnd(inputs: seq<Input>, gen: seq<seq<Reply>>, i: nat)
    requires Ran(inputs, gen) && i < |gen|
    ensures inputs[i].turn.Malformed? ==>
      i == |gen| - 1 && Flat(gen) == Flat(gen[..i]) + [BadRequest(inputs[i].turn.reason)]
    ensures inputs[i].turn.Request? && (Final(inputs[i].turn.x).hijacked || inputs[i].turn.x.panics) ==>
      i == |gen| - 1 && Flat(gen) == Flat(gen[..i])
    ensures gen[i] != [] && HeaderGet(gen[i][0].headers, "Connection") != "keep-alive" ==> i == |gen| - 1
  {
    assert GeneratedBy(inputs[i].turn, gen[i]);
  }

  // Whenever the client computes Close from a reply, that reply was the loop's last.
  lemma ClientCloseMeansServerStops(inputs: seq<Input>, gen: seq<seq<Reply>>, i: nat)
    requires Ran(inputs, gen) && i < |gen| && gen[i] != [] && ShouldClose(1, 1, gen[i][0].headers)
    ensures i == |gen| - 1
  {
    NothingAfterTheEnd(inputs, gen, i);
  }

  // The loop ends in the very turn of a reply in which the client sees no close in exactly
  // two cases (a later pass may end for reasons of its own, such as a shutdown, conn.go:401):
  // "keep-alive" went out, and then keep-alives were found switched off (conn.go:509) or
  // no further data came; or the reply itself closes in one of the ways of
  // ClientAgreesIff that the client does not see.
  lemma StopsUnseenIff(x: Exchange, idleOk: bool, p: Reply)
    requires Answered(x) && IsReplyTo(p, x.req, Final(x), x.keepAlives, x.date)
    ensures EndsLoop(Request(x, idleOk), [p]) && !ShouldClose(1, 1, p.headers) <==>
      var d := Final(x);
      || (ConnectionValue(x.req, WithStatus(d), x.keepAlives) == Some("keep-alive") && (!x.keepAlivesAfter || !idleOk))
      || (&& Version.AtLeast((x.req.major, x.req.minor), 1, 1) && !WantsClose(x.req.headers) && x.keepAlives
          && (if "Connection" in d.headers
              then d.headers["Connection"] != "close" && d.headers["Connection"] != "keep-alive"
              else x.req.verb != "HEAD" && !BodyAllowed(if d.wroteStatus then d.status else 200)))
  {
    ClientAgreesIff(p, x.req, Final(x), x.keepAlives, x.date);
  }
}
