// The conn and Server objects of conn.go and server.go.  Each method is proved to take
// exactly the steps of ConnProtocol that model it; a function of the source that others
// can cut is made of methods that each run from one cut to the next.
module ConnObjects {
  import opened Basics
  import opened ConnProtocol
  import Draining

  class Server {
    var activeConn: set<Conn>
    var inShutdown: int
    var disableKeepAlives: int

    constructor ()
      ensures activeConn == {} && inShutdown == 0 && disableKeepAlives == 0
    {
      activeConn, inShutdown, disableKeepAlives := {}, 0, 0;
    }

    predicate ShuttingDown()
      reads this
    {
      inShutdown != 0
    }

    predicate DoKeepAlives()
      reads this
    {
      disableKeepAlives == 0 && !ShuttingDown()
    }

    // server.go:298-307
    method SetKeepAlivesEnabled(v: bool)
      modifies this`disableKeepAlives, this`activeConn, activeConn`sockClosed
      ensures DoKeepAlives() <==> v && !ShuttingDown()
      ensures v ==> activeConn == old(activeConn)
      ensures !v ==> activeConn == set c | c in old(activeConn) && c.curState != Some(StateIdle)
    {
      if v {
        disableKeepAlives := 0;
        return;
      }
      disableKeepAlives := 1;
      var _ := CloseIdleConns();
    }

    method TrackConn(c: Conn, add: bool)
      modifies this`activeConn
      ensures activeConn == if add then old(activeConn) + {c} else old(activeConn) - {c}
    {
      if add {
        activeConn := activeConn + {c};
      } else {
        activeConn := activeConn - {c};
      }
    }

    // server.go:155-163
    method CloseConns()
      modifies this`activeConn, activeConn`sockClosed
      ensures activeConn == {}
      ensures forall c :: c in old(activeConn) ==> c.sockClosed
    {
      ghost var all := activeConn;
      while activeConn != {}
        invariant activeConn <= all
        invariant forall c :: c in all - activeConn ==> c.sockClosed
        decreases |activeConn|
      {
        var c :| c in activeConn;
        c.sockClosed := true;
        activeConn := activeConn - {c};
      }
    }

    // server.go:339-354.  The walk meets the tracked connections in any order.
    method CloseIdleConns() returns (quiescent: bool)
      modifies this`activeConn, activeConn`sockClosed
      ensures activeConn == set c | c in old(activeConn) && c.curState != Some(StateIdle)
      ensures forall c :: c in old(activeConn) ==>
        c.sockClosed == (old(c.sockClosed) || c.curState == Some(StateIdle))
      ensures quiescent <==> activeConn == {}
    {
      ghost var all := activeConn;
      quiescent := true;
      var todo := activeConn;
      while todo != {}
        invariant todo <= activeConn <= all
        invariant forall c :: c in all - todo ==> (c in activeConn <==> c.curState != Some(StateIdle))
        invariant forall c :: c in all ==>
          c.sockClosed == (old(c.sockClosed) || (c !in todo && c.curState == Some(StateIdle)))
        invariant quiescent <==> activeConn == todo
        decreases |todo|
      {
        var c :| c in todo;
        todo := todo - {c};
        if c.curState != Some(StateIdle) {
          quiescent := false;
          continue;
        }
        c.sockClosed := true;
        activeConn := activeConn - {c};
      }
    }
  }

  class Conn {
    const server: Server
    var closed: bool
    var hijackedv: bool
    var ctxDone: bool
    var handleFunc: Option<FuncId>
    var bufr: Option<Buf>
    var bufw: Option<Buf>
    var curState: Option<ConnState>
    var activeReq: map<string, CallId>
    var sockClosed: bool

    // The callers' own variables and their channels, which in Go live on the callers'
    // stacks, and where serve is.
    var calls: seq<Call>
    var closedChans: set<CallId>
    ghost var pc: Pc
    ghost var holder: Option<CallId>
    ghost var installing: multiset<Option<FuncId>>
    ghost var hijacks: nat

    ghost function Model(): State
      reads this
    {
      State(pc, holder, closed, hijackedv, hijacks, ctxDone, handleFunc, installing, bufr, bufw, curState,
            activeReq, calls, closedChans, false)
    }

    ghost predicate Valid()
      reads this
    {
      Safe(Model())
    }

    constructor (srv: Server)
      ensures server == srv && Model() == Init() && !sockClosed && Valid()
    {
      server := srv;
      closed, hijackedv, ctxDone, sockClosed := false, false, false, false;
      handleFunc, bufr, bufw, curState := None, None, None, None;
      activeReq := map[];
      pc, holder, installing, hijacks, calls, closedChans := Born, None, multiset{}, 0, [], {};
      new;
      InitIsSafe();
    }

    // conn.go:521-532
    method SetState(state: ConnState)
      modifies this`curState, server`activeConn
      ensures curState == Some(state)
      ensures server.activeConn ==
        match state
        case StateNew => old(server.activeConn) + {this}
        case StateHijacked => old(server.activeConn) - {this}
        case StateClosed => old(server.activeConn) - {this}
        case _ => old(server.activeConn)
    {
      match state {
        case StateNew => server.TrackConn(this, true);
        case StateHijacked => server.TrackConn(this, false);
        case StateClosed => server.TrackConn(this, false);
        case _ =>
      }
      curState := Some(state);
    }

    // conn.go:63-75.  Others may come between the tests and the store.
    method RawControl(fn: Option<FuncId>) returns (err: Option<Error>)
      requires Valid() && Ready(pc)
      modifies this`handleFunc, this`installing
      ensures err.Some? ==> ControlNext(old(Model()), RawTest(fn)) == Some(Model())
      ensures err.None? ==> Steps(old(Model()), [Control(RawTest(fn)), Control(RawStore(fn))], Model())
      ensures err == if closed then Some(ErrConnClose) else if hijackedv then Some(ErrHijacked) else None
      ensures Valid() && handleFunc == if err.None? then fn else old(handleFunc)
    {
      ghost var s0 := Model();
      err := TestRaw(fn);
      if err.None? {
        ghost var s1 := Model();
        StoreRaw(fn);
        TwoSteps(s0, Control(RawTest(fn)), s1, Control(RawStore(fn)), Model());
      }
    }

    method TestRaw(fn: Option<FuncId>) returns (err: Option<Error>)
      requires Valid() && Ready(pc)
      modifies this`installing
      ensures ControlNext(old(Model()), RawTest(fn)) == Some(Model()) && Valid()
      ensures err == if closed then Some(ErrConnClose) else if hijackedv then Some(ErrHijacked) else None
      ensures err.None? ==> fn in installing
    {
      ghost var s0 := Model();
      ControlKeepsSafe(s0, RawTest(fn));
      if closed {
        return Some(ErrConnClose);
      }
      if hijackedv {
        return Some(ErrHijacked);
      }
      installing := installing + multiset{fn};
      err := None;
    }

    method StoreRaw(fn: Option<FuncId>)
      requires Valid() && fn in installing
      modifies this`handleFunc, this`installing
      ensures ControlNext(old(Model()), RawStore(fn)) == Some(Model()) && Valid() && handleFunc == fn
    {
      ControlKeepsSafe(Model(), RawStore(fn));
      handleFunc := fn;
      installing := installing - multiset{fn};
    }

    predicate InLaunch()
      reads this
    {
      activeReq != map[]
    }

    // conn.go:78-116, from Lock to Unlock.  RawControl may come between the two parts.
    method HijackLocked() returns (err: Option<Error>, reader: Option<Buf>, ghost writer: Option<Buf>)
      requires Valid() && pc.Handle? && LockFree(Model())
      modifies this, server`activeConn
      ensures err == if old(closed) then Some(ErrConnClose) else if old(activeReq) != map[] then Some(ErrLaunched)
                     else if old(hijackedv) then Some(ErrHijacked)
                     else if old(handleFunc).Some? then Some(ErrRwaControl) else None
      ensures err.Some? ==> Model() == old(Model()) && server.activeConn == old(server.activeConn) && reader.None?
      ensures err.None? ==>
        && Steps(old(Model()), [Control(TryHijack), End(SetHijacked), End(Untrack), End(StoreFinal)], Model())
        && server.activeConn == old(server.activeConn) - {this}
        && pc == old(pc) && reader == old(bufr) && reader.Some? && writer == old(bufw) && writer.Some?
      ensures Valid() && sockClosed == old(sockClosed)
    {
      reader, writer := None, None;
      ghost var s0 := Model();
      err := TestHijack();
      if err.None? {
        ghost var s1 := Model();
        reader, writer := TakeOver();
        StepThen(s0, Control(TryHijack), s1, [End(SetHijacked), End(Untrack), End(StoreFinal)], Model());
        assert [Control(TryHijack)] + [End(SetHijacked), End(Untrack), End(StoreFinal)]
            == [Control(TryHijack), End(SetHijacked), End(Untrack), End(StoreFinal)];
      }
    }

    // conn.go:82-99
    method TestHijack() returns (err: Option<Error>)
      requires Valid() && pc.Handle? && LockFree(Model())
      modifies this`pc
      ensures err == if closed then Some(ErrConnClose) else if activeReq != map[] then Some(ErrLaunched)
                     else if hijackedv then Some(ErrHijacked)
                     else if handleFunc.Some? then Some(ErrRwaControl) else None
      ensures ControlNext(old(Model()), TryHijack) == Some(Model()) && Valid() && (err.None? ==> pc.HijackSet?)
    {
      ControlKeepsSafe(Model(), TryHijack);
      if closed {
        return Some(ErrConnClose);
      }
      if InLaunch() {
        return Some(ErrLaunched);
      }
      if hijackedv {
        return Some(ErrHijacked);
      }
      if handleFunc.Some? {
        return Some(ErrRwaControl);
      }
      pc := HijackSet;
      err := None;
    }

    // conn.go:101-115, whatever raw function has been stored since the tests.
    method TakeOver() returns (reader: Option<Buf>, ghost writer: Option<Buf>)
      requires Valid() && pc.HijackSet?
      modifies this, server`activeConn
      ensures Steps(old(Model()), [End(SetHijacked), End(Untrack), End(StoreFinal)], Model())
      ensures server.activeConn == old(server.activeConn) - {this}
      ensures pc.Handle? && reader == old(bufr) && reader.Some? && writer == old(bufw) && writer.Some?
      ensures Valid() && hijackedv && handleFunc == old(handleFunc) && sockClosed == old(sockClosed)
    {
      ghost var s0 := Model();
      HijackSteps(s0);
      hijackedv, hijacks := true, hijacks + 1;
      SetState(StateHijacked);
      writer := bufw;
      bufw := None;
      reader := bufr;
      pc := Handle;
      assert Model() == Hijacked(s0);
    }

    // RoundTripContext's tests, conn.go:128-142: the caller goes on with the lock held,
    // or returns.
    method TestLaunch() returns (err: Option<Error>, i: CallId)
      requires Valid() && Ready(pc) && LockFree(Model())
      modifies this`calls, this`holder
      ensures CallerNext(old(Model()), Begin) == Some(Model()) && Valid()
      ensures err == if closed then Some(ErrConnClose) else if hijackedv then Some(ErrHijacked)
                     else if handleFunc.Some? then Some(ErrRwaControl) else None
      ensures i == |old(calls)| && (err.None? <==> holder == Some(i))
    {
      i := |calls|;
      CallerKeepsSafe(Model(), Begin);
      err := if closed then Some(ErrConnClose)
             else if hijackedv then Some(ErrHijacked)
             else if handleFunc.Some? then Some(ErrRwaControl)
             else None;
      if err.Some? {
        calls := calls + [Call("", Rejected(err.value), [])];
      } else {
        calls := calls + [Call("", Preparing, [])];
        holder := Some(i);
      }
    }

    // What follows them, conn.go:144-187: `early` is a nil request, a failed draw or a
    // failed encoding; a failed write runs the deferred functions.
    method Launch(i: CallId, early: Option<Error>, draws: seq<string>, writeOk: bool) returns (err: Option<Error>)
      requires Valid() && holder == Some(i) && calls[i].phase.Preparing? && |draws| == 100
      requires early.Some? ==> EndsEarly(early.value)
      modifies this`activeReq, this`calls, this`closedChans, this`holder
      ensures early.Some? ==> CallerNext(old(Model()), Abandon(early.value)) == Some(Model())
      ensures early.None? ==>
        Steps(old(Model()), [Caller(CallerEvent.Register(draws)), Caller(Wrote(writeOk))], Model())
      ensures Valid() && err == if early.Some? then early else if writeOk then None else Some(ErrWrite)
    {
      if early.Some? {
        Abandoned(i, early.value);
        return early;
      }
      ghost var s0 := Model();
      var nonce := Register(i, draws);
      ghost var s1 := Model();
      WriteAndRelease(i, nonce, writeOk);
      TwoSteps(s0, Caller(CallerEvent.Register(draws)), s1, Caller(Wrote(writeOk)), Model());
      err := if writeOk then None else Some(ErrWrite);
    }

    // A return before the registration, conn.go:144-176.
    method Abandoned(i: CallId, e: Error)
      requires Valid() && holder == Some(i) && calls[i].phase.Preparing? && EndsEarly(e)
      modifies this`calls, this`holder
      ensures CallerNext(old(Model()), Abandon(e)) == Some(Model()) && Valid()
    {
      CallerKeepsSafe(Model(), Abandon(e));
      calls := calls[i := calls[i].(phase := Rejected(e))];
      holder := None;
    }

    // conn.go:153-179
    method Register(i: CallId, draws: seq<string>) returns (nonce: string)
      requires Valid() && holder == Some(i) && calls[i].phase.Preparing? && |draws| == 100
      modifies this`activeReq, this`calls
      ensures CallerNext(old(Model()), CallerEvent.Register(draws)) == Some(Model()) && Valid()
      ensures i < |calls| && calls[i].phase.Writing? && calls[i].nonce == nonce
    {
      CallerKeepsSafe(Model(), CallerEvent.Register(draws));
      nonce := DrawNonce(draws);
      activeReq := activeReq[nonce := i];
      calls := calls[i := Call(nonce, Writing, [])];
    }

    // conn.go:183-187, with the deferred functions of a failed write.
    method WriteAndRelease(i: CallId, nonce: string, ok: bool)
      requires Valid() && holder == Some(i) && calls[i].phase.Writing? && calls[i].nonce == nonce
      modifies this`activeReq, this`calls, this`closedChans, this`holder
      ensures CallerNext(old(Model()), Wrote(ok)) == Some(Model()) && Valid()
    {
      WroteGives(Model(), i, ok);
      holder := None;
      if !ok {
        activeReq := activeReq - {nonce};
        closedChans := closedChans + {i};
        calls := calls[i := calls[i].(phase := Finished(Failed(ErrWrite)))];
      } else {
        calls := calls[i := calls[i].(phase := Registered)];
      }
    }

    // conn.go:153-164
    method DrawNonce(draws: seq<string>) returns (nonce: string)
      requires |draws| == 100
      ensures nonce == Pick(draws, activeReq.Keys)
    {
      nonce := "";
      var k := 0;
      while k < 100
        invariant 0 <= k <= 100
        invariant k < 100 ==> Pick(draws, activeReq.Keys) == Pick(draws[k..], activeReq.Keys)
        invariant k == 100 ==> Pick(draws, activeReq.Keys) == nonce
      {
        nonce := draws[k];
        if nonce !in activeReq {
          break;
        }
        assert draws[k..][1..] == draws[k + 1..];
        k := k + 1;
      }
    }

    // The deferred functions after the select, conn.go:188, 180-181, 129: Lock, delete,
    // close, Unlock.
    method Unregister(i: CallId)
      requires Valid() && i < |calls| && calls[i].phase.Leaving? && LockFree(Model())
      modifies this`activeReq, this`calls, this`closedChans
      ensures CallerNext(old(Model()), Return(i)) == Some(Model()) && Valid()
    {
      CallerKeepsSafe(Model(), Return(i));
      activeReq := activeReq - {calls[i].nonce};
      closedChans := closedChans + {i};
      calls := calls[i := calls[i].(phase := Finished(calls[i].phase.o))];
    }

    // conn.go:449-456.  The send goes through only to a caller that is in its select.
    method DeliverToCaller(res: Response)
      requires Valid() && pc == Deliver(res) && LockFree(Model())
      modifies this`calls, this`pc
      ensures IoNext(old(Model()), DeliverReply) == Some(Model()) && Valid()
    {
      IoKeepsSafe(Model(), DeliverReply);
      if res.nonce in activeReq {
        var i := activeReq[res.nonce];
        if calls[i].phase.Waiting? {
          calls := calls[i := calls[i].(phase := Leaving(Got(res)), got := calls[i].got + [res])];
        }
      }
      pc := Idle;
    }

    // conn.go:591-602
    method ReleaseBuffers() returns (r: Option<Buf>, w: Option<Buf>)
      modifies this`bufr, this`bufw
      ensures bufr.None? && bufw.None? && r == old(bufr) && w == old(bufw)
    {
      r, w := bufr, bufw;
      bufr, bufw := None, None;
    }

    // conn.go:624-638, from Lock to Unlock.
    method Close() returns (r: Option<Buf>, w: Option<Buf>)
      requires Valid() && pc.Final? && !hijackedv && LockFree(Model())
      modifies this, server`activeConn
      ensures Steps(old(Model()),
                    [End(BeginClose), End(Untrack), End(StoreFinal), End(CloseSocket), End(FinalFlush)], Model())
      ensures Valid() && pc == Gone && closed && ctxDone && sockClosed
      ensures server.activeConn == old(server.activeConn) - {this}
      ensures r == old(bufr) && r.Some? && w == old(bufw) && w.Some?
    {
      ghost var s0 := Model();
      CloseSteps(s0);
      closed, ctxDone := true, true;
      SetState(StateClosed);
      sockClosed := true;
      r, w := ReleaseBuffers();
      pc := Gone;
      assert Model() == Closed(s0);
    }
  }

  lemma WroteGives(s: State, i: CallId, ok: bool)
    requires Safe(s) && s.holder == Some(i) && CallIn(s, i, Writing)
    ensures CallerNext(s, Wrote(ok)).Some? && Safe(CallerNext(s, Wrote(ok)).value)
    ensures CallerNext(s, Wrote(ok)).value ==
      if ok then s.(holder := None, calls := s.calls[i := s.calls[i].(phase := Registered)])
      else s.(holder := None, activeReq := s.activeReq - {s.calls[i].nonce}, closedChans := s.closedChans + {i},
              calls := s.calls[i := s.calls[i].(phase := Finished(Failed(ErrWrite)))])
  {
    WroteKeepsSafe(s, ok);
  }

  lemma TwoSteps(s: State, e: Event, t: State, f: Event, u: State)
    requires Next(s, e) == Some(t) && Next(t, f) == Some(u)
    ensures Steps(s, [e, f], u)
  {
    StepThen(t, f, u, [], u);
    StepThen(s, e, t, [f] + [], u);
    assert [e] + ([f] + []) == [e, f];
  }

  function Hijacked(s: State): State {
    s.(pc := Handle, hijacked := true, hijacks := s.hijacks + 1, curState := Some(StateHijacked), bufw := None)
  }

  // What follows a hijack's tests.
  lemma HijackSteps(s: State)
    requires Safe(s) && s.pc.HijackSet?
    ensures Steps(s, [End(SetHijacked), End(Untrack), End(StoreFinal)], Hijacked(s)) && Safe(Hijacked(s))
    ensures s.bufr.Some? && s.bufw.Some?
  {
    var t := Hijacked(s);
    var s1 := EndNext(s, SetHijacked).value;
    var s2 := EndNext(s1, Untrack).value;
    assert EndNext(s2, StoreFinal) == Some(t);
    TwoSteps(s1, End(Untrack), s2, End(StoreFinal), t);
    StepThen(s, End(SetHijacked), s1, [End(Untrack), End(StoreFinal)], t);
    assert [End(SetHijacked)] + [End(Untrack), End(StoreFinal)] == [End(SetHijacked), End(Untrack), End(StoreFinal)];
    EveryRunIsSafe(s, [End(SetHijacked), End(Untrack), End(StoreFinal)], t);
  }

  function Closed(s: State): State {
    s.(pc := Gone, closed := true, ctxDone := true, curState := Some(StateClosed), bufr := None, bufw := None)
  }

  lemma CloseSteps(s: State)
    requires Safe(s) && s.pc.Final? && !s.hijacked && LockFree(s)
    ensures Steps(s, [End(BeginClose), End(Untrack), End(StoreFinal), End(CloseSocket), End(FinalFlush)], Closed(s))
    ensures Safe(Closed(s)) && s.bufr.Some? && s.bufw.Some?
  {
    var s1 := EndNext(s, BeginClose).value;
    EndKeepsSafe(s, BeginClose);
    Draining.CloseCompletes(s1);
    var es := [End(BeginClose), End(Untrack), End(StoreFinal), End(CloseSocket), End(FinalFlush)];
    assert es[1..] == [End(Untrack), End(StoreFinal), End(CloseSocket), End(FinalFlush)];
    EveryRunIsSafe(s, es, Closed(s));
  }
}
