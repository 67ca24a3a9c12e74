// A device's reply on its way to the caller that waits for it (conn.go:439-456), and how
// each call's end is told by what happened to it.
module Delivery {
  import opened Basics
  import opened ConnProtocol
  import opened Draining

  // ---- a reply gets through ----

  // Serve, having read a line that is no request, parses it as a reply whenever anything
  // is in flight, and goes to hand it over.
  lemma ReplyIsTaken(s: State, i: CallId, res: Response)
    requires Safe(s) && Exact(s.activeReq, s.calls) && s.pc.CheckReply?
    requires CallIn(s, i, Waiting) && s.calls[i].nonce == res.nonce
    ensures Steps(s, [Loop(LoadLaunchForReply), Loop(ParseReply(Some(res)))],
                  s.(pc := Deliver(res), curState := Some(StateActive)))
  {
    var s1 := s.(pc := ParsingReply);
    var s2 := s1.(pc := Deliver(res), curState := Some(StateActive));
    assert s.calls[i].nonce in s.activeReq;
    StepThen(s1, Loop(ParseReply(Some(res))), s2, [], s2);
    StepThen(s, Loop(LoadLaunchForReply), s1, [Loop(ParseReply(Some(res)))] + [], s2);
    assert [Loop(LoadLaunchForReply)] + ([Loop(ParseReply(Some(res)))] + [])
        == [Loop(LoadLaunchForReply), Loop(ParseReply(Some(res)))];
  }

  // Once conn.mu is free, the call that still waits for it has it.
  lemma ReplyIsHandedOver(s: State, i: CallId)
    requires Safe(s) && Exact(s.activeReq, s.calls) && s.pc.Deliver? && LockFree(s)
    requires CallIn(s, i, Waiting) && s.calls[i].nonce == s.pc.res.nonce
    ensures IoNext(s, DeliverReply).Some?
    ensures var t := IoNext(s, DeliverReply).value;
      t.pc.Idle? && t.calls == s.calls[i := Call(s.pc.res.nonce, Leaving(Got(s.pc.res)), [s.pc.res])]
  {
    DeliveryReachesTheWaiting(s, s.pc.res);
  }

  // From there to the caller's return.
  lemma HandedOverThenReturned(s: State, i: CallId) returns (es: seq<Event>, t: State)
    requires Safe(s) && Exact(s.activeReq, s.calls) && s.pc.Deliver? && LockFree(s)
    requires CallIn(s, i, Waiting) && s.calls[i].nonce == s.pc.res.nonce
    ensures es == [Io(DeliverReply), Caller(Return(i))] && Steps(s, es, t) && |t.calls| == |s.calls|
    ensures t.calls[i] == Call(s.pc.res.nonce, Finished(Got(s.pc.res)), [s.pc.res])
  {
    ReplyIsHandedOver(s, i);
    DeliverKeepsLock(s);
    var u := IoNext(s, DeliverReply).value;
    t := CallerNext(u, Return(i)).value;
    StepThen(u, Caller(Return(i)), t, [], t);
    StepThen(s, Io(DeliverReply), u, [Caller(Return(i))] + [], t);
    es := [Io(DeliverReply)] + ([Caller(Return(i))] + []);
  }

  // With nobody holding the lock the reply gets from the line to the caller's return.
  lemma WaitingCallCanBeAnswered(s: State, i: CallId, res: Response) returns (es: seq<Event>, t: State)
    requires Safe(s) && Exact(s.activeReq, s.calls) && s.pc.CheckReply? && s.holder.None?
    requires CallIn(s, i, Waiting) && s.calls[i].nonce == res.nonce
    ensures es == [Loop(LoadLaunchForReply), Loop(ParseReply(Some(res))), Io(DeliverReply), Caller(Return(i))]
    ensures Steps(s, es, t) && |t.calls| == |s.calls| && t.calls[i] == Call(res.nonce, Finished(Got(res)), [res])
  {
    var s1 := s.(pc := ParsingReply);
    var s2 := s1.(pc := Deliver(res), curState := Some(StateActive));
    assert s.calls[i].nonce in s.activeReq;
    assert LoopNext(s, LoadLaunchForReply) == Some(s1) && LoopNext(s1, ParseReply(Some(res))) == Some(s2);
    LoopKeepsSafe(s, LoadLaunchForReply);
    LoopKeepsSafe(s1, ParseReply(Some(res)));
    es, t := HandedOverThenReturned(s2, i);
    StepThen(s1, Loop(ParseReply(Some(res))), s2, es, t);
    es := [Loop(ParseReply(Some(res)))] + es;
    StepThen(s, Loop(LoadLaunchForReply), s1, es, t);
    es := [Loop(LoadLaunchForReply)] + es;
  }

  lemma DeliverKeepsLock(s: State)
    requires s.pc.Deliver? && LockFree(s)
    ensures LockFree(IoNext(s, DeliverReply).value)
  {
  }

  // From a new connection: a launch, the device's reply, and the caller returns with it.
  lemma LaunchIsAnsweredOnSomeRun(r: Buf, w: Buf, res: Response) returns (es: seq<Event>, t: State)
    ensures Steps(Init(), es, t) && |t.calls| == 1 && t.calls[0] == Call(res.nonce, Finished(Got(res)), [res])
  {
    var s := AtStray(r, w, res.nonce);
    es := StrayAfterLaunch(r, w, res.nonce, [], s);
    InitIsSafe();
    EveryRunIsSafe(Init(), es, s);
    var tail;
    tail, t := WaitingCallCanBeAnswered(s, 0, res);
    es := StrayAfterLaunch(r, w, res.nonce, tail, t);
  }

  // One launch waits under the nonce n, and a line that is no request has been read.
  function AtStray(r: Buf, w: Buf, n: string): State {
    Init().(pc := CheckReply, bufr := Some(r), bufw := Some(w), curState := Some(StateNew),
            activeReq := map[n := 0], calls := [Call(n, Waiting, [])])
  }

  // The way there, for any run on from there.
  lemma StrayAfterLaunch(r: Buf, w: Buf, n: string, tail: seq<Event>, t: State) returns (es: seq<Event>)
    requires Steps(AtStray(r, w, n), tail, t)
    ensures Steps(Init(), es, t)
  {
    var s1 := LoopNext(Init(), StoreNew).value;
    var s2 := LoopNext(s1, GetReader(r)).value;
    var s3 := LoopNext(s2, GetWriter(w)).value;
    var s4 := LoopNext(s3, CheckShutdown(false)).value;
    var s5 := LoopNext(s4, LoadHandle).value;
    es := WaitsAtLine(s5, n, tail, t);
    StepThen(s4, Loop(LoadHandle), s5, es, t);
    es := [Loop(LoadHandle)] + es;
    StepThen(s3, Loop(CheckShutdown(false)), s4, es, t);
    es := [Loop(CheckShutdown(false))] + es;
    StepThen(s2, Loop(GetWriter(w)), s3, es, t);
    es := [Loop(GetWriter(w))] + es;
    StepThen(s1, Loop(GetReader(r)), s2, es, t);
    es := [Loop(GetReader(r))] + es;
    StepThen(Init(), Loop(StoreNew), s1, es, t);
    es := [Loop(StoreNew)] + es;
  }

  // The only call, in phase p.
  function Only(s: State, n: string, p: Phase): State {
    s.(calls := [Call(n, p, [])])
  }

  lemma FirstBegins(s: State)
    requires Ready(s.pc) && LockFree(s) && LaunchRefusal(s).None? && s.calls == []
    ensures CallerNext(s, Begin) == Some(Only(s, "", Preparing).(holder := Some(0)))
  {
    assert s.calls + [Call("", Preparing, [])] == [Call("", Preparing, [])];
  }

  lemma FirstRegisters(s: State, n: string, draws: seq<string>)
    requires s.calls == [Call("", Preparing, [])] && s.holder == Some(0) && s.activeReq == map[]
    requires |draws| == 100 && forall d :: d in draws ==> d == n
    ensures CallerNext(s, Register(draws)) == Some(Only(s, n, Writing).(activeReq := map[n := 0]))
  {
    assert Pick(draws, {}) == n;
    assert s.calls[0 := Call(n, Writing, [])] == [Call(n, Writing, [])];
  }

  lemma FirstWaits(s: State, n: string)
    requires s.calls == [Call(n, Writing, [])] && s.holder == Some(0) && s.bufw.Some?
    ensures CallerNext(s, Wrote(true)) == Some(Only(s, n, Registered).(holder := None))
    ensures var t := Only(s, n, Registered).(holder := None); CallerNext(t, Enter(0)) == Some(Only(t, n, Waiting))
  {
    assert s.calls[0 := Call(n, Registered, [])] == [Call(n, Registered, [])];
    assert [Call(n, Registered, [])][0 := Call(n, Waiting, [])] == [Call(n, Waiting, [])];
  }

  lemma WritesThenWaits(s: State, n: string, tail: seq<Event>, t: State) returns (es: seq<Event>)
    requires s.calls == [Call(n, Writing, [])] && s.holder == Some(0) && s.bufw.Some? && s.pc.ReadLine? && !s.hijacked
    requires Steps(Only(s, n, Waiting).(holder := None, pc := CheckReply), tail, t)
    ensures Steps(s, es, t)
  {
    var s3 := Only(s, n, Registered).(holder := None);
    var s4 := Only(s3, n, Waiting);
    FirstWaits(s, n);
    StepThen(s4, Loop(Line(NotRequest)), s4.(pc := CheckReply), tail, t);
    es := [Loop(Line(NotRequest))] + tail;
    StepThen(s3, Caller(Enter(0)), s4, es, t);
    es := [Caller(Enter(0))] + es;
    StepThen(s, Caller(Wrote(true)), s3, es, t);
    es := [Caller(Wrote(true))] + es;
  }

  lemma WaitsAtLine(s: State, n: string, tail: seq<Event>, t: State) returns (es: seq<Event>)
    requires s.pc.ReadLine? && s.holder.None? && !s.closed && !s.hijacked && s.handleFunc.None? && s.bufw.Some?
    requires s.activeReq == map[] && s.calls == []
    requires Steps(Only(s, n, Waiting).(pc := CheckReply, activeReq := map[n := 0]), tail, t)
    ensures Steps(s, es, t)
  {
    var draws := seq(100, _ => n);
    var s1 := Only(s, "", Preparing).(holder := Some(0));
    var s2 := Only(s1, n, Writing).(activeReq := map[n := 0]);
    FirstBegins(s);
    FirstRegisters(s1, n, draws);
    es := WritesThenWaits(s2, n, tail, t);
    StepThen(s1, Caller(Register(draws)), s2, es, t);
    es := [Caller(Register(draws))] + es;
    StepThen(s, Caller(Begin), s1, es, t);
    es := [Caller(Begin)] + es;
  }

  // ---- what a call's end says ----

  predicate EndsWith(p: Phase, e: Error) {
    p == Leaving(Failed(e)) || p == Finished(Failed(e))
  }

  // Call i so far, given whether it has given up and whether it has seen the connection
  // closed.
  ghost predicate Told(s: State, i: CallId, gaveUp: bool, sawClosed: bool) {
    if i < |s.calls| then
      var p := s.calls[i].phase;
      && (EndsWith(p, ErrContext) <==> gaveUp) && (EndsWith(p, ErrConnClose) <==> sawClosed)
      && (p.Leaving? && p.o.Failed? ==> gaveUp || sawClosed)
      && (p.Finished? && p.o.Failed? ==> gaveUp || sawClosed || p.o.error == ErrWrite)
    else !gaveUp && !sawClosed
  }

  // Another call, or none, is the one that moves.
  lemma NotMovedKeepsTold(s: State, t: State, i: CallId, g: bool, c: bool)
    requires Told(s, i, g, c)
    requires i < |s.calls| ==> i < |t.calls| && t.calls[i].phase == s.calls[i].phase
    requires i >= |s.calls| ==> i >= |t.calls| || !(t.calls[i].phase.Leaving? || t.calls[i].phase.Finished?)
    ensures Told(t, i, g, c)
  {
  }

  lemma BeginKeepsTold(s: State, i: CallId, g: bool, c: bool)
    requires Told(s, i, g, c) && CallerNext(s, Begin).Some?
    ensures Told(CallerNext(s, Begin).value, i, g, c)
  {
    NotMovedKeepsTold(s, CallerNext(s, Begin).value, i, g, c);
  }

  lemma WroteKeepsTold(s: State, ok: bool, i: CallId, g: bool, c: bool)
    requires Told(s, i, g, c) && CallerNext(s, Wrote(ok)).Some? && s.holder == Some(i)
    ensures Told(CallerNext(s, Wrote(ok)).value, i, g, c)
  {
  }

  lemma AbandonKeepsTold(s: State, err: Error, i: CallId, g: bool, c: bool)
    requires Told(s, i, g, c) && CallerNext(s, Abandon(err)).Some? && s.holder == Some(i)
    ensures Told(CallerNext(s, Abandon(err)).value, i, g, c)
  {
  }

  lemma RegisterKeepsTold(s: State, draws: seq<string>, i: CallId, g: bool, c: bool)
    requires Told(s, i, g, c) && CallerNext(s, Register(draws)).Some? && s.holder == Some(i)
    ensures Told(CallerNext(s, Register(draws)).value, i, g, c)
  {
  }

  lemma LaunchKeepsTold(s: State, e: CallerEvent, i: CallId, g: bool, c: bool)
    requires Told(s, i, g, c) && CallerNext(s, e).Some? && (e.Abandon? || e.Register? || e.Wrote?)
    ensures Told(CallerNext(s, e).value, i, g, c)
  {
    if s.holder != Some(i) {
      HolderTouchesOne(s, e);
      NotMovedKeepsTold(s, CallerNext(s, e).value, i, g, c);
    } else {
      match e
      case Abandon(err) => AbandonKeepsTold(s, err, i, g, c);
      case Register(draws) => RegisterKeepsTold(s, draws, i, g, c);
      case Wrote(ok) => WroteKeepsTold(s, ok, i, g, c);
    }
  }

  lemma WaiterKeepsTold(s: State, e: CallerEvent, i: CallId, g: bool, c: bool)
    requires Told(s, i, g, c) && CallerNext(s, e).Some? && (e.Enter? || e.GiveUp? || e.SeeClosed? || e.Return?)
    ensures Told(CallerNext(s, e).value, i, g || e == GiveUp(i), c || e == SeeClosed(i))
  {
    if e.i != i { NotMovedKeepsTold(s, CallerNext(s, e).value, i, g, c); }
  }

  lemma NextKeepsTold(s: State, e: Event, i: CallId, g: bool, c: bool)
    requires Safe(s) && Told(s, i, g, c) && Next(s, e).Some?
    ensures Told(Next(s, e).value, i, g || e == Caller(GiveUp(i)), c || e == Caller(SeeClosed(i)))
  {
    if e.Caller? {
      if e.k.Begin? {
        BeginKeepsTold(s, i, g, c);
      } else if e.k.Abandon? || e.k.Register? || e.k.Wrote? {
        LaunchKeepsTold(s, e.k, i, g, c);
      } else {
        WaiterKeepsTold(s, e.k, i, g, c);
      }
    } else if e == Io(DeliverReply) {
      DeliveryKeepsTold(s, s.pc.res, i, g, c);
    } else {
      OthersKeepCallers(s, e);
    }
  }

  lemma DeliveryKeepsTold(s: State, res: Response, i: CallId, g: bool, c: bool)
    requires Safe(s) && Told(s, i, g, c)
    ensures Told(Delivered(s, res), i, g, c)
  {
  }

  lemma {:induction false} EveryRunIsTold(s: State, es: seq<Event>, t: State, i: CallId, g: bool, c: bool)
    requires Safe(s) && Told(s, i, g, c) && Steps(s, es, t)
    ensures Told(t, i, g || Caller(GiveUp(i)) in es, c || Caller(SeeClosed(i)) in es)
    decreases |es|
  {
    if es != [] {
      NextKeepsSafe(s, es[0]);
      NextKeepsTold(s, es[0], i, g, c);
      var g1, c1 := g || es[0] == Caller(GiveUp(i)), c || es[0] == Caller(SeeClosed(i));
      EveryRunIsTold(Next(s, es[0]).value, es[1..], t, i, g1, c1);
    }
  }

  // A finished call returns its context's error exactly when it gave up, ErrConnClose
  // exactly when it saw the connection's context done, a response exactly when one was
  // handed over, and otherwise the failure of its own write.
  lemma EndIsToldBy(es: seq<Event>, t: State, i: CallId)
    requires Steps(Init(), es, t) && i < |t.calls| && t.calls[i].phase.Finished?
    ensures var o := t.calls[i].phase.o;
      && (o == Failed(ErrContext) <==> Caller(GiveUp(i)) in es)
      && (o == Failed(ErrConnClose) <==> Caller(SeeClosed(i)) in es)
      && (o.Got? <==> t.calls[i].got != [])
      && (o.Failed? ==> o.error in {ErrContext, ErrConnClose, ErrWrite})
  {
    InitIsSafe();
    EveryRunIsSafe(Init(), es, t);
    EveryRunIsTold(Init(), es, t, i, false, false);
    assert CallOk(t.calls[i]);
  }
}
