// The two views of serve's loop agree: each turn of ServeLoop is a pass of ConnProtocol
// from the loop's head, step by step, and the pass comes back to the head exactly when
// the turn lets the loop go on.
module LoopViews {
  import opened Basics
  import opened ConnProtocol
  import H = HandlerLaws
  import L = ServeLoop

  // From the loop's head to the next line, conn.go:401-420: a raw function is looked for,
  // and passed over when something is in flight.
  function ToLine(s: State): seq<Event> {
    [Loop(CheckShutdown(false)), Loop(LoadHandle)] + (if s.handleFunc.Some? then [Loop(LoadLaunch)] else [])
  }

  function Idling(ok: bool): seq<Event> {
    [Loop(StoreIdle), Loop(IdleData(ok))]
  }

  function HijackSteps(): seq<Event> {
    [Control(TryHijack), End(SetHijacked), End(Untrack), End(StoreFinal)]
  }

  // conn.go:407-416
  function RawPass(ok: bool, idleOk: bool): seq<Event> {
    [Loop(CheckShutdown(false)), Loop(LoadHandle), Loop(LoadLaunch), Loop(RawReturn(ok))] +
    (if ok then [Loop(ClearHandle)] + Idling(idleOk) else [])
  }

  // conn.go:437-464; res is what the line parses to.
  function StrayPass(inFlight: bool, accepted: bool, res: Response, idleOk: bool): seq<Event> {
    [Loop(Line(NotRequest)), Loop(LoadLaunchForReply)] +
    (if !inFlight then Idling(idleOk)
     else if accepted then [Loop(ParseReply(Some(res))), Io(DeliverReply)] + Idling(idleOk)
     else [Loop(ParseReply(None))])
  }

  // conn.go:473-516
  ghost function RequestPass(x: L.Exchange, idleOk: bool): seq<Event> {
    [Loop(Line(GoodRequest))] + HandlerPass(x, idleOk)
  }

  // What the handler of a request leads to.
  ghost function HandlerPass(x: L.Exchange, idleOk: bool): seq<Event> {
    if x.panics then [Loop(Panic)]
    else if H.Hijacks(x.actions) then HijackSteps() + [Loop(HandlerReturn), Loop(LoadMode)]
    else AnswerPass(H.WritesRaw(x.actions), x.encodeOk && x.writeOk, Stops(x), idleOk)
  }

  function AnswerPass(raw: bool, sent: bool, stop: bool, idleOk: bool): seq<Event> {
    [Loop(HandlerReturn), Loop(LoadMode), Io(SendReply(raw, sent, stop))] +
    (if (raw || sent) && !stop then Idling(idleOk) else [])
  }

  // conn.go:503 and 509
  ghost predicate Stops(x: L.Exchange) {
    || (!H.WritesRaw(x.actions) && H.ConnectionSent(x.req, x.actions, x.keepAlives) != "keep-alive")
    || !x.keepAlivesAfter
  }

  // The pass that turn t is from s.
  ghost function Pass(s: State, t: L.Turn, res: Response): seq<Event> {
    match t
    case Down => [Loop(CheckShutdown(true))]
    case Raw(ok, idleOk) => RawPass(ok, idleOk)
    case ReadFails => ToLine(s) + [Loop(Line(ReadFailed))]
    case Blank => ToLine(s) + [Loop(Line(EmptyLine))]
    case Stray(accepted, idleOk) => ToLine(s) + StrayPass(s.activeReq != map[], accepted, res, idleOk)
    case Malformed(_) => ToLine(s) + [Loop(Line(LineKind.Malformed)), Io(SendBadRequest)]
    case Request(x, idleOk) => ToLine(s) + RequestPass(x, idleOk)
  }

  // A raw function runs when one is installed and nothing is in flight; then no line is
  // read.  A stray line is refused only when something is in flight, and a handler can
  // hijack only when nothing is and no raw function is installed.
  ghost predicate MayTake(s: State, t: L.Turn) {
    && s.pc.Top? && LockFree(s)
    && (t.Raw? ==> s.handleFunc.Some? && s.activeReq == map[])
    && (!t.Raw? && !t.Down? ==> s.handleFunc.None? || s.activeReq != map[])
    && (t.Stray? && !t.accepted ==> s.activeReq != map[])
    && (t.Request? && H.Hijacks(t.x.actions) ==> s.activeReq == map[] && s.handleFunc.None?)
  }

  // ---- the pieces ----

  lemma Then2(s: State, e: Event, u: State, f: Event, v: State, es: seq<Event>, t: State)
    requires Next(s, e) == Some(u) && Next(u, f) == Some(v) && Steps(v, es, t)
    ensures Steps(s, [e, f] + es, t)
  {
    StepThen(u, f, v, es, t);
    StepThen(s, e, u, [f] + es, t);
    assert [e] + ([f] + es) == [e, f] + es;
  }

  lemma ReachesLine(s: State, es: seq<Event>, t: State)
    requires s.pc.Top? && (s.handleFunc.None? || s.activeReq != map[])
    requires Steps(s.(pc := ReadLine), es, t)
    ensures Steps(s, ToLine(s) + es, t)
  {
    var s1 := s.(pc := ReadHandle);
    if s.handleFunc.None? {
      Then2(s, Loop(CheckShutdown(false)), s1, Loop(LoadHandle), s.(pc := ReadLine), es, t);
      assert ToLine(s) + es == [Loop(CheckShutdown(false)), Loop(LoadHandle)] + es;
    } else {
      var s2 := s.(pc := CheckLaunch(s.handleFunc.value));
      StepThen(s2, Loop(LoadLaunch), s.(pc := ReadLine), es, t);
      Then2(s, Loop(CheckShutdown(false)), s1, Loop(LoadHandle), s2, [Loop(LoadLaunch)] + es, t);
      assert ToLine(s) + es == [Loop(CheckShutdown(false)), Loop(LoadHandle)] + ([Loop(LoadLaunch)] + es);
    }
  }

  function Idled(s: State, ok: bool): State {
    s.(pc := if ok then Top else Exit, curState := Some(StateIdle))
  }

  lemma Idles(s: State, ok: bool)
    requires s.pc.Idle?
    ensures Steps(s, Idling(ok), Idled(s, ok))
  {
    var s1 := s.(pc := IdleRead, curState := Some(StateIdle));
    Then2(s, Loop(StoreIdle), s1, Loop(IdleData(ok)), Idled(s, ok), [], Idled(s, ok));
    assert Idling(ok) + [] == [Loop(StoreIdle), Loop(IdleData(ok))];
  }

  // ---- each kind of turn ----

  lemma RawPasses(s: State, ok: bool, idleOk: bool) returns (u: State)
    requires s.pc.Top? && s.handleFunc.Some? && s.activeReq == map[]
    ensures Steps(s, RawPass(ok, idleOk), u) && u.pc == if ok && idleOk then Top else Exit
    ensures ok ==> u.handleFunc.None?
  {
    var f := s.handleFunc.value;
    var s2, s3 := s.(pc := CheckLaunch(f)), s.(pc := RunRaw(f));
    var tail := [];
    u := s.(pc := Exit);
    if ok {
      var s5 := s.(pc := Idle, handleFunc := None);
      Idles(s5, idleOk);
      u := Idled(s5, idleOk);
      StepThen(s.(pc := ClearRaw), Loop(ClearHandle), s5, Idling(idleOk), u);
      tail := [Loop(ClearHandle)] + Idling(idleOk);
    }
    Then2(s2, Loop(LoadLaunch), s3, Loop(RawReturn(ok)), s.(pc := if ok then ClearRaw else Exit), tail, u);
    Then2(s, Loop(CheckShutdown(false)), s.(pc := ReadHandle), Loop(LoadHandle), s2,
          [Loop(LoadLaunch), Loop(RawReturn(ok))] + tail, u);
    assert RawPass(ok, idleOk)
        == [Loop(CheckShutdown(false)), Loop(LoadHandle)] + ([Loop(LoadLaunch), Loop(RawReturn(ok))] + tail);
  }

  lemma DeliveryKeepsServe(s: State, res: Response)
    requires s.pc == Deliver(res) && LockFree(s)
    ensures IoNext(s, DeliverReply).Some? && IoNext(s, DeliverReply).value.pc.Idle?
  {
  }

  lemma StrayDropped(s: State, idleOk: bool) returns (u: State)
    requires s.pc.ReadLine? && !s.hijacked && s.activeReq == map[]
    ensures Steps(s, [Loop(Line(NotRequest)), Loop(LoadLaunchForReply)] + Idling(idleOk), u)
    ensures u.pc == if idleOk then Top else Exit
  {
    var s2 := s.(pc := Idle);
    Idles(s2, idleOk);
    u := Idled(s2, idleOk);
    Then2(s, Loop(Line(NotRequest)), s.(pc := CheckReply), Loop(LoadLaunchForReply), s2, Idling(idleOk), u);
  }

  lemma StrayParsed(s: State, tail: seq<Event>, u: State)
    requires s.pc.ReadLine? && !s.hijacked && s.activeReq != map[] && Steps(s.(pc := ParsingReply), tail, u)
    ensures Steps(s, [Loop(Line(NotRequest)), Loop(LoadLaunchForReply)] + tail, u)
  {
    Then2(s, Loop(Line(NotRequest)), s.(pc := CheckReply), Loop(LoadLaunchForReply), s.(pc := ParsingReply), tail, u);
  }

  lemma StrayPasses(s: State, accepted: bool, res: Response, idleOk: bool) returns (u: State)
    requires s.pc.ReadLine? && !s.hijacked && LockFree(s) && (!accepted ==> s.activeReq != map[])
    ensures Steps(s, StrayPass(s.activeReq != map[], accepted, res, idleOk), u)
    ensures u.pc == if accepted && idleOk then Top else Exit
  {
    if s.activeReq == map[] {
      u := StrayDropped(s, idleOk);
    } else if accepted {
      u := ReplyPasses(s.(pc := ParsingReply), res, idleOk);
      StrayParsed(s, [Loop(ParseReply(Some(res))), Io(DeliverReply)] + Idling(idleOk), u);
    } else {
      u := s.(pc := Exit);
      StepThen(s.(pc := ParsingReply), Loop(ParseReply(None)), u, [], u);
      assert [Loop(ParseReply(None))] + [] == [Loop(ParseReply(None))];
      StrayParsed(s, [Loop(ParseReply(None))], u);
    }
  }

  lemma ReplyPasses(s: State, res: Response, idleOk: bool) returns (u: State)
    requires s.pc.ParsingReply? && LockFree(s)
    ensures Steps(s, [Loop(ParseReply(Some(res))), Io(DeliverReply)] + Idling(idleOk), u)
    ensures u.pc == if idleOk then Top else Exit
  {
    var s1 := s.(pc := Deliver(res), curState := Some(StateActive));
    DeliveryKeepsServe(s1, res);
    var s2 := IoNext(s1, DeliverReply).value;
    Idles(s2, idleOk);
    u := Idled(s2, idleOk);
    Then2(s, Loop(ParseReply(Some(res))), s1, Io(DeliverReply), s2, Idling(idleOk), u);
  }

  // A handler that takes the connection over.
  lemma HijackPasses(s: State) returns (u: State)
    requires Safe(s) && s.pc.Handle? && LockFree(s) && !s.hijacked && s.activeReq == map[] && s.handleFunc.None?
    ensures Steps(s, HijackSteps() + [Loop(HandlerReturn), Loop(LoadMode)], u)
    ensures u.pc.Exit? && u.hijacked
  {
    var s1 := s.(pc := HijackSet);
    var s2 := s1.(pc := HijackUntrack, hijacked := true, hijacks := s.hijacks + 1);
    var s3 := s2.(pc := HijackStore);
    var s4 := s3.(pc := Handle, curState := Some(StateHijacked), bufw := None);
    u := s4.(pc := Exit);
    var last := [Loop(HandlerReturn), Loop(LoadMode)];
    Then2(s4, Loop(HandlerReturn), s4.(pc := CheckMode), Loop(LoadMode), u, [], u);
    assert last + [] == last;
    Then2(s2, End(Untrack), s3, End(StoreFinal), s4, last, u);
    Then2(s, Control(TryHijack), s1, End(SetHijacked), s2, [End(Untrack), End(StoreFinal)] + last, u);
    assert [Control(TryHijack), End(SetHijacked)] + ([End(Untrack), End(StoreFinal)] + last) == HijackSteps() + last;
  }

  // A handler whose reply is sent.
  lemma SendPasses(s: State, raw: bool, sent: bool, stop: bool, idleOk: bool) returns (u: State)
    requires s.pc.Handle? && !s.hijacked && !s.closed && s.bufw.Some?
    ensures Steps(s, AnswerPass(raw, sent, stop, idleOk), u)
    ensures u.pc == if (raw || sent) && !stop && idleOk then Top else Exit
  {
    var on := (raw || sent) && !stop;
    var s3 := s.(pc := if on then Idle else Exit);
    var tail: seq<Event> := [];
    u := s3;
    if on {
      Idles(s3, idleOk);
      u, tail := Idled(s3, idleOk), Idling(idleOk);
    }
    var s2 := s.(pc := Send);
    StepThen(s2, Io(SendReply(raw, sent, stop)), s3, tail, u);
    tail := [Io(SendReply(raw, sent, stop))] + tail;
    Then2(s, Loop(HandlerReturn), s.(pc := CheckMode), Loop(LoadMode), s2, tail, u);
    assert [Loop(HandlerReturn), Loop(LoadMode)] + tail == AnswerPass(raw, sent, stop, idleOk);
  }

  // A request is read.
  lemma RequestRead(s: State)
    requires Safe(s) && s.pc.ReadLine? && LockFree(s)
    ensures var h := s.(pc := Handle, curState := Some(StateActive));
      Next(s, Loop(Line(GoodRequest))) == Some(h) && Safe(h) && LockFree(h) && !s.hijacked && !s.closed && s.bufw.Some?
  {
    LoopKeepsSafe(s, Line(GoodRequest));
  }

  lemma PanicPasses(s: State) returns (u: State)
    requires s.pc.Handle?
    ensures Steps(s, [Loop(Panic)], u) && u.pc.Exit?
  {
    u := s.(pc := Exit);
    StepThen(s, Loop(Panic), u, [], u);
    assert [Loop(Panic)] + [] == [Loop(Panic)];
  }

  lemma RequestPasses(s: State, x: L.Exchange, idleOk: bool) returns (u: State)
    requires Safe(s) && s.pc.ReadLine? && LockFree(s)
    requires H.Hijacks(x.actions) ==> s.activeReq == map[] && s.handleFunc.None?
    ensures Steps(s, RequestPass(x, idleOk), u)
    ensures u.pc == if H.GoesOn(L.Request(x, idleOk)) then Top else Exit
  {
    var h := s.(pc := Handle, curState := Some(StateActive));
    RequestRead(s);
    if x.panics {
      u := PanicPasses(h);
    } else if H.Hijacks(x.actions) {
      u := HijackPasses(h);
    } else {
      u := SendPasses(h, H.WritesRaw(x.actions), x.encodeOk && x.writeOk, Stops(x), idleOk);
    }
    StepThen(s, Loop(Line(GoodRequest)), h, HandlerPass(x, idleOk), u);
  }

  lemma ReadingPasses(s: State, t: L.Turn, res: Response) returns (u: State)
    requires Safe(s) && s.pc.ReadLine? && LockFree(s) && !t.Down? && !t.Raw?
    requires t.Stray? && !t.accepted ==> s.activeReq != map[]
    requires t.Request? && H.Hijacks(t.x.actions) ==> s.activeReq == map[] && s.handleFunc.None?
    ensures Steps(s, AfterLine(s, t, res), u) && u.pc == if H.GoesOn(t) then Top else Exit
  {
    match t
    case ReadFails =>
      u := s.(pc := Exit);
      StepThen(s, Loop(Line(ReadFailed)), u, [], u);
    case Blank =>
      u := s.(pc := Top);
      StepThen(s, Loop(Line(EmptyLine)), u, [], u);
    case Stray(accepted, idleOk) => u := StrayPasses(s, accepted, res, idleOk);
    case Malformed(_) =>
      u := s.(pc := Exit);
      Then2(s, Loop(Line(LineKind.Malformed)), s.(pc := SendBad), Io(SendBadRequest), u, [], u);
      assert AfterLine(s, t, res) == [Loop(Line(LineKind.Malformed)), Io(SendBadRequest)] + [];
    case Request(x, idleOk) => u := RequestPasses(s, x, idleOk);
  }

  // A pass without its way to the line.
  ghost function AfterLine(s: State, t: L.Turn, res: Response): seq<Event>
    requires !t.Down? && !t.Raw?
  {
    match t
    case ReadFails => [Loop(Line(ReadFailed))] + []
    case Blank => [Loop(Line(EmptyLine))] + []
    case Stray(accepted, idleOk) => StrayPass(s.activeReq != map[], accepted, res, idleOk)
    case Malformed(_) => [Loop(Line(LineKind.Malformed)), Io(SendBadRequest)]
    case Request(x, idleOk) => RequestPass(x, idleOk)
  }

  // The bridge.
  lemma TurnIsAPass(s: State, t: L.Turn, res: Response) returns (u: State)
    requires Safe(s) && MayTake(s, t)
    ensures Steps(s, Pass(s, t, res), u)
    ensures u.pc == if H.GoesOn(t) then Top else Exit
  {
    match t
    case Down =>
      u := s.(pc := Exit);
      StepThen(s, Loop(CheckShutdown(true)), u, [], u);
      assert [Loop(CheckShutdown(true))] + [] == Pass(s, t, res);
    case Raw(ok, idleOk) => u := RawPasses(s, ok, idleOk);
    case _ =>
      var l := s.(pc := ReadLine);
      assert Safe(l);
      u := ReadingPasses(l, t, res);
      ReachesLine(s, AfterLine(l, t, res), u);
      assert Pass(s, t, res) == ToLine(s) + AfterLine(l, t, res);
  }

  // And as ServeLoop has it, for whatever the turn generates.
  lemma ViewsAgree(s: State, t: L.Turn, ps: seq<L.Response.Reply>, res: Response) returns (u: State)
    requires Safe(s) && MayTake(s, t) && L.GeneratedBy(t, ps)
    ensures Steps(s, Pass(s, t, res), u) && u.pc == if L.EndsLoop(t, ps) then Exit else Top
  {
    u := TurnIsAPass(s, t, res);
    H.EndsLoopIff(t, ps);
  }
}
