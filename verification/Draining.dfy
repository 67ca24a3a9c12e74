// After a close: the callers still in flight all leave, and conn.mu is let go.
module Draining {
  import opened Basics
  import opened ConnProtocol

  function Rank(p: Phase): nat {
    match p
    case Rejected(_) => 0
    case Preparing => 5
    case Writing => 4
    case Registered => 3
    case Waiting => 2
    case Leaving(_) => 1
    case Finished(_) => 0
  }

  // Steps the callers still have to take.
  function Remaining(calls: seq<Call>): nat {
    if calls == [] then 0 else Remaining(calls[..|calls| - 1]) + Rank(calls[|calls| - 1].phase)
  }

  lemma {:induction false} RemainingUpdate(calls: seq<Call>, i: nat, c: Call)
    requires i < |calls|
    ensures Remaining(calls[i := c]) == Remaining(calls) - Rank(calls[i].phase) + Rank(c.phase)
  {
    var m := |calls| - 1;
    if i < m {
      assert calls[i := c][..m] == calls[..m][i := c];
      RemainingUpdate(calls[..m], i, c);
    } else {
      assert calls[i := c][..m] == calls[..m];
    }
  }

  predicate Moves(e: Event) {
    e.Caller? && !e.k.Begin?
  }

  lemma ClosedBegin(s: State)
    requires Safe(s) && s.closed && CallerNext(s, Begin).Some?
    ensures var t := CallerNext(s, Begin).value;
      t.closed && t.activeReq == s.activeReq && Remaining(t.calls) == Remaining(s.calls)
  {
    assert CallerNext(s, Begin).value.calls[..|s.calls|] == s.calls;
  }

  lemma ClosedWaiterStep(s: State, e: CallerEvent)
    requires Safe(s) && s.closed && CallerNext(s, e).Some? && (e.Enter? || e.GiveUp? || e.SeeClosed? || e.Return?)
    ensures var t := CallerNext(s, e).value;
      t.closed && t.activeReq.Keys <= s.activeReq.Keys && Remaining(t.calls) + 1 == Remaining(s.calls)
  {
    RemainingUpdate(s.calls, e.i, CallerNext(s, e).value.calls[e.i]);
  }

  lemma ClosedCallerStep(s: State, e: CallerEvent)
    requires Safe(s) && s.closed && CallerNext(s, e).Some?
    ensures var t := CallerNext(s, e).value;
      && t.closed && t.activeReq.Keys <= s.activeReq.Keys
      && Remaining(t.calls) + (if e.Begin? then 0 else 1) == Remaining(s.calls)
  {
    match e
    case Begin => ClosedBegin(s);
    case Abandon(_) => assert false;
    case Register(_) => assert false;
    case Wrote(_) => assert false;
    case _ => ClosedWaiterStep(s, e);
  }

  lemma ClosedStays(s: State, e: Event)
    requires s.closed && Next(s, e).Some? && !e.Caller?
    ensures Next(s, e).value.closed
  {
    match e
    case Loop(_) =>
    case Io(_) =>
    case End(_) =>
    case Control(_) =>
  }

  lemma ClosedOtherStep(s: State, e: Event)
    requires Safe(s) && s.closed && Next(s, e).Some? && !e.Caller?
    ensures var t := Next(s, e).value; t.closed && t.activeReq == s.activeReq && t.calls == s.calls
  {
    ClosedStays(s, e);
    OthersKeepCallers(s, e);
  }

  // After close nobody registers, and each caller step uses up one of those remaining.
  lemma ClosedStep(s: State, e: Event)
    requires Safe(s) && s.closed && Next(s, e).Some?
    ensures var t := Next(s, e).value;
      && t.closed && t.activeReq.Keys <= s.activeReq.Keys
      && Remaining(t.calls) + (if Moves(e) then 1 else 0) == Remaining(s.calls)
  {
    if e.Caller? { ClosedCallerStep(s, e.k); } else { ClosedOtherStep(s, e); }
  }

  function CallerMoves(es: seq<Event>): nat {
    if es == [] then 0 else (if Moves(es[0]) then 1 else 0) + CallerMoves(es[1..])
  }

  lemma {:induction false} ClosedRunIsBounded(s: State, es: seq<Event>, t: State)
    requires Safe(s) && s.closed && Steps(s, es, t)
    ensures t.closed && t.activeReq.Keys <= s.activeReq.Keys
    ensures CallerMoves(es) + Remaining(t.calls) == Remaining(s.calls)
    decreases |es|
  {
    if es != [] {
      NextKeepsSafe(s, es[0]);
      ClosedStep(s, es[0]);
      ClosedRunIsBounded(Next(s, es[0]).value, es[1..], t);
    }
  }

  // The step an unfinished caller takes once the connection's context is done.
  function NextMove(c: Call, i: CallId): Event
    requires InFlight(c.phase) && !c.phase.Writing?
  {
    match c.phase
    case Registered => Caller(Enter(i))
    case Waiting => Caller(SeeClosed(i))
    case _ => Caller(Return(i))
  }

  // In a closed connection every unfinished caller can move at once, but for one that
  // is about to return while Close still holds the lock.
  lemma UnfinishedCanMove(s: State, i: CallId)
    requires Safe(s) && s.closed && i < |s.calls| && InFlight(s.calls[i].phase)
    ensures !s.calls[i].phase.Writing?
    ensures Next(s, NextMove(s.calls[i], i)).Some? <==> !(s.calls[i].phase.Leaving? && Locked(s.pc))
    ensures Next(s, NextMove(s.calls[i], i)).Some? ==> Next(s, NextMove(s.calls[i], i)).value.pc == s.pc
  {
  }

  // Steps until serve lets go of conn.mu, and the next of them.
  function LockRank(pc: Pc): nat {
    match pc
    case HijackSet => 3
    case HijackUntrack => 2
    case HijackStore => 1
    case CloseUntrack => 4
    case CloseStore => 3
    case CloseSock => 2
    case CloseFlush => 1
    case _ => 0
  }

  function HolderStep(pc: Pc): EndEvent {
    match pc
    case HijackSet => SetHijacked
    case HijackUntrack => Untrack
    case CloseUntrack => Untrack
    case CloseSock => CloseSocket
    case CloseFlush => FinalFlush
    case _ => StoreFinal
  }

  lemma HolderStepLowersRank(s: State)
    requires Locked(s.pc)
    ensures EndNext(s, HolderStep(s.pc)).Some?
    ensures LockRank(EndNext(s, HolderStep(s.pc)).value.pc) == LockRank(s.pc) - 1
  {
  }

  // From CloseUntrack the four steps lead here.
  lemma CloseCompletes(s: State)
    requires Safe(s) && s.pc.CloseUntrack?
    ensures Steps(s, [End(Untrack), End(StoreFinal), End(CloseSocket), End(FinalFlush)],
                  s.(pc := Gone, curState := Some(StateClosed), bufr := None, bufw := None))
  {
    var s1 := EndNext(s, Untrack).value;
    var s2 := EndNext(s1, StoreFinal).value;
    var s3 := EndNext(s2, CloseSocket).value;
    assert Steps(s3, [End(FinalFlush)], EndNext(s3, FinalFlush).value);
    assert Steps(s2, [End(CloseSocket), End(FinalFlush)], EndNext(s3, FinalFlush).value);
    assert Steps(s1, [End(StoreFinal), End(CloseSocket), End(FinalFlush)], EndNext(s3, FinalFlush).value);
  }

  // What happens next in a closed connection with something left to do.
  function DrainStep(s: State, i: CallId): Event
    requires s.pc.Gone? ==> i < |s.calls| && InFlight(s.calls[i].phase) && !s.calls[i].phase.Writing?
  {
    if !s.pc.Gone? then End(HolderStep(s.pc)) else NextMove(s.calls[i], i)
  }

  lemma DrainStepIsThere(s: State, i: CallId)
    requires Safe(s) && s.closed && (s.pc.Gone? ==> i < |s.calls| && InFlight(s.calls[i].phase))
    ensures s.pc.Gone? ==> !s.calls[i].phase.Writing?
    ensures Next(s, DrainStep(s, i)).Some?
    ensures var t := Next(s, DrainStep(s, i)).value;
      t.closed && LockRank(t.pc) + Remaining(t.calls) == LockRank(s.pc) + Remaining(s.calls) - 1
  {
    if s.pc.Gone? {
      UnfinishedCanMove(s, i);
      ClosedStep(s, DrainStep(s, i));
    } else {
      HolderStepLowersRank(s);
      ClosedOtherStep(s, End(HolderStep(s.pc)));
    }
  }

  // From every closed state, Close and the callers can come to their end, in exactly the
  // steps Close has left and those remaining to the callers.
  lemma {:induction false} CallersDrain(s: State) returns (es: seq<Event>, t: State)
    requires Safe(s) && s.closed
    ensures Steps(s, es, t) && |es| == LockRank(s.pc) + Remaining(s.calls)
    ensures t.pc.Gone? && NoneInFlight(t.calls) && t.activeReq == map[]
    decreases LockRank(s.pc) + Remaining(s.calls)
  {
    if s.pc.Gone? && NoneInFlight(s.calls) {
      es, t := [], s;
      NoneRemaining(s);
    } else {
      var i: CallId := 0;
      if s.pc.Gone? { i :| 0 <= i < |s.calls| && InFlight(s.calls[i].phase); }
      DrainStepIsThere(s, i);
      var e := DrainStep(s, i);
      var u := Next(s, e).value;
      NextKeepsSafe(s, e);
      var rest;
      rest, t := CallersDrain(u);
      es := [e] + rest;
      StepThen(s, e, u, rest, t);
    }
  }

  lemma {:induction false} NoneRank(calls: seq<Call>)
    requires forall i :: 0 <= i < |calls| ==> Rank(calls[i].phase) == 0
    ensures Remaining(calls) == 0
  {
    if calls != [] { NoneRank(calls[..|calls| - 1]); }
  }

  lemma NoneRemaining(s: State)
    requires Safe(s) && s.holder.None? && NoneInFlight(s.calls)
    ensures Remaining(s.calls) == 0
  {
    forall i | 0 <= i < |s.calls| ensures Rank(s.calls[i].phase) == 0 {
      assert !InFlight(s.calls[i].phase) && !Holding(s.calls[i].phase);
    }
    NoneRank(s.calls);
  }

  // The measure is zero exactly when no caller holds the lock between its steps and
  // none is in flight; then nothing is registered any more.
  lemma ZeroRemainingMeansDrained(s: State)
    requires Safe(s)
    ensures Remaining(s.calls) == 0 <==> s.holder.None? && NoneInFlight(s.calls)
    ensures Remaining(s.calls) == 0 ==> s.activeReq == map[]
  {
    if s.holder.None? && NoneInFlight(s.calls) {
      NoneRemaining(s);
    } else {
      var i :| 0 <= i < |s.calls| && Rank(s.calls[i].phase) > 0;
      RemainingUpdate(s.calls, i, s.calls[i].(phase := Finished(Failed(ErrContext))));
    }
  }
}
