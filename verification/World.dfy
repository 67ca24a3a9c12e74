// The server and all its connections: server.go's activeConn under server.mu, the
// walk of closeIdleConns, running Shutdown calls, and the buffer pools of func.go.
// Each connection is a ConnProtocol.State; a World step is one connection's step
// with its effect on the shared parts, or a step of the server itself.
module World {
  import opened Basics
  import opened ConnProtocol
  import opened Draining

  type ConnId = nat
  type ThreadId = nat

  datatype Pools = Pools(readers: multiset<Buf>, w2k: multiset<Buf>, w4k: multiset<Buf>)

  // closeIdleConns in progress; it holds server.mu from begin to end.  `closing` is the
  // connection whose state it has loaded and found idle, but not yet closed
  // (server.go:344-350): connections go on meanwhile.
  datatype Walk = Walk(
    owner: Option<ThreadId>, start: set<ConnId>, idle: set<ConnId>, todo: set<ConnId>,
    closing: Option<ConnId>, quiescent: bool)

  // `made` and `dropped` record every buffer ever allocated and those the collector took
  // out of a pool.
  datatype World = World(
    conns: map<ConnId, State>,
    activeConn: set<ConnId>, closedSocks: set<ConnId>,
    walk: Option<Walk>,
    shutting: set<ThreadId>, quiet: set<ThreadId>, inShutdown: int,
    pools: Pools, temps: map<ThreadId, Buf>, nextBuf: nat,
    made: set<Buf>, dropped: set<Buf>)

  datatype WorldEvent =
    | Accept(c: ConnId)
    | EquipReader(c: ConnId, r: Option<Buf>) | EquipWriter(c: ConnId, w: Option<Buf>)
    | OfConn(c: ConnId, e: Event)
    | CloseConns
    | WalkBegin(owner: Option<ThreadId>) | WalkObserve(c: ConnId) | WalkClose | WalkEnd
    | ShutdownBegin(t: ThreadId) | ShutdownReturn(t: ThreadId)
    | TempGet(t: ThreadId, r: Option<Buf>) | TempPut(t: ThreadId)
    | PoolDrop(b: Buf)

  function Start(): World {
    World(map[], {}, {}, None, {}, {}, 0, Pools(multiset{}, multiset{}, multiset{}), map[], 0, {}, {})
  }

  const WRITER_SIZE: nat := 4096

  // putBufioWriter, func.go:285-291: a writer of any other size is dropped.
  function PutWriter(p: Pools, b: Buf): Pools {
    if b.Writer? && b.size == 2048 then p.(w2k := p.w2k + multiset{b})
    else if b.Writer? && b.size == 4096 then p.(w4k := p.w4k + multiset{b})
    else p
  }

  function PutReader(p: Pools, b: Buf): Pools {
    p.(readers := p.readers + multiset{b})
  }

  function PutMaybe(p: Pools, r: Option<Buf>, w: Option<Buf>): Pools {
    var q := if r.Some? then PutReader(p, r.value) else p;
    if w.Some? then PutWriter(q, w.value) else q
  }

  // Taking from a pool: an item the pool holds, or a new buffer when it gives none.
  predicate MayTake(pool: multiset<Buf>, pick: Option<Buf>) {
    pick.Some? ==> pick.value in pool
  }

  function Without(pool: multiset<Buf>, pick: Option<Buf>): multiset<Buf> {
    if pick.Some? then pool - multiset{pick.value} else pool
  }

  function TakeReader(p: Pools, pick: Option<Buf>): Pools {
    p.(readers := Without(p.readers, pick))
  }

  function TakeWriter(p: Pools, pick: Option<Buf>): Pools {
    p.(w4k := Without(p.w4k, pick))
  }

  function Taken(pick: Option<Buf>, brandNew: Buf): Buf {
    if pick.Some? then pick.value else brandNew
  }

  function SetConn(w: World, c: ConnId, t: State): World {
    w.(conns := w.conns[c := t])
  }

  // One step of connection c, s to t, with its effect on what the server shares.
  function ConnEffect(w: World, c: ConnId, e: Event, s: State, t: State): Option<World> {
    match e
    case Loop(GetReader(_)) => None
    case Loop(GetWriter(_)) => None
    case Loop(CheckShutdown(down)) => if down == (w.inShutdown != 0) then Some(SetConn(w, c, t)) else None
    case End(Untrack) => if w.walk.None? then Some(SetConn(w, c, t).(activeConn := w.activeConn - {c})) else None
    case End(CloseSocket) => Some(SetConn(w, c, t).(closedSocks := w.closedSocks + {c}))
    case End(StoreFinal) =>
      if s.pc.HijackStore? then Some(SetConn(w, c, t).(pools := PutMaybe(w.pools, None, s.bufw)))
      else Some(SetConn(w, c, t))
    case End(FinalFlush) => Some(SetConn(w, c, t).(pools := PutMaybe(w.pools, s.bufr, s.bufw)))
    case _ => Some(SetConn(w, c, t))
  }

  // conn.go:393
  function ReaderEquipped(w: World, c: ConnId, r: Option<Buf>): Option<World> {
    if c !in w.conns || !MayTake(w.pools.readers, r) then None
    else
      var t := LoopNext(w.conns[c], GetReader(Taken(r, Reader(w.nextBuf))));
      if t.None? then None
      else Some(SetConn(w, c, t.value).(pools := TakeReader(w.pools, r), nextBuf := w.nextBuf + 1,
                                         made := w.made + {Taken(r, Reader(w.nextBuf))}))
  }

  // conn.go:394
  function WriterEquipped(w: World, c: ConnId, bw: Option<Buf>): Option<World> {
    if c !in w.conns || !MayTake(w.pools.w4k, bw) then None
    else
      var t := LoopNext(w.conns[c], GetWriter(Taken(bw, Writer(w.nextBuf, WRITER_SIZE))));
      if t.None? then None
      else Some(SetConn(w, c, t.value).(pools := TakeWriter(w.pools, bw), nextBuf := w.nextBuf + 1,
                                         made := w.made + {Taken(bw, Writer(w.nextBuf, WRITER_SIZE))}))
  }

  // What atomic.AddInt32 leaves of n.
  function Int32(n: int): int {
    (n + 0x8000_0000) % 0x1_0000_0000 - 0x8000_0000
  }

  predicate IsIdle(s: State) {
    s.curState == Some(StateIdle)
  }

  function Observed(k: Walk, c: ConnId, isIdle: bool): Walk {
    if isIdle then k.(closing := Some(c)) else k.(todo := k.todo - {c}, quiescent := false)
  }

  function WorldNext(w: World, e: WorldEvent): Option<World> {
    match e
    case Accept(c) =>
      if c in w.conns || w.walk.Some? then None
      else Some(SetConn(w, c, Init()).(activeConn := w.activeConn + {c}))
    case EquipReader(c, r) => ReaderEquipped(w, c, r)
    case EquipWriter(c, bw) => WriterEquipped(w, c, bw)
    case OfConn(c, ev) =>
      if c !in w.conns || Next(w.conns[c], ev).None? then None
      else ConnEffect(w, c, ev, w.conns[c], Next(w.conns[c], ev).value)
    case CloseConns =>
      if w.walk.Some? then None
      else Some(w.(closedSocks := w.closedSocks + w.activeConn, activeConn := {}))
    case WalkBegin(owner) =>
      if w.walk.Some? || (owner.Some? && (owner.value !in w.shutting || owner.value in w.quiet)) then None
      else Some(w.(walk := Some(Walk(owner, w.activeConn, {}, w.activeConn, None, true))))
    case WalkObserve(c) =>
      if w.walk.None? || w.walk.value.closing.Some? || c !in w.walk.value.todo || c !in w.conns then None
      else Some(w.(walk := Some(Observed(w.walk.value, c, IsIdle(w.conns[c])))))
    case WalkClose =>
      if w.walk.None? || w.walk.value.closing.None? then None
      else
        var k, c := w.walk.value, w.walk.value.closing.value;
        Some(w.(walk := Some(k.(todo := k.todo - {c}, idle := k.idle + {c}, closing := None)),
                closedSocks := w.closedSocks + {c}, activeConn := w.activeConn - {c}))
    case WalkEnd =>
      if w.walk.None? || w.walk.value.todo != {} || w.walk.value.closing.Some? then None
      else Some(w.(walk := None,
                   quiet := if w.walk.value.owner.Some? && w.walk.value.quiescent
                            then w.quiet + {w.walk.value.owner.value} else w.quiet))
    case ShutdownBegin(t) =>
      if t in w.shutting then None
      else Some(w.(shutting := w.shutting + {t}, quiet := w.quiet - {t}, inShutdown := Int32(w.inShutdown + 1)))
    case ShutdownReturn(t) =>
      if t !in w.shutting || (w.walk.Some? && w.walk.value.owner == Some(t)) then None
      else Some(w.(shutting := w.shutting - {t}, inShutdown := Int32(w.inShutdown - 1)))
    case TempGet(t, r) =>
      if t in w.temps || !MayTake(w.pools.readers, r) then None
      else Some(w.(temps := w.temps[t := Taken(r, Reader(w.nextBuf))], nextBuf := w.nextBuf + 1,
                   pools := TakeReader(w.pools, r), made := w.made + {Taken(r, Reader(w.nextBuf))}))
    case TempPut(t) =>
      if t !in w.temps then None
      else Some(w.(temps := w.temps - {t}, pools := PutReader(w.pools, w.temps[t])))
    case PoolDrop(b) =>
      if b !in w.pools.readers + w.pools.w2k + w.pools.w4k then None
      else Some(w.(pools := Pools(w.pools.readers - multiset{b}, w.pools.w2k - multiset{b}, w.pools.w4k - multiset{b}),
                   dropped := w.dropped + {b}))
  }

  ghost predicate WorldSteps(w: World, es: seq<WorldEvent>, v: World)
    decreases |es|
  {
    if es == [] then w == v
    else WorldNext(w, es[0]).Some? && WorldSteps(WorldNext(w, es[0]).value, es[1..], v)
  }

  // ---- connections are conserved ----

  // trackConn(c, false) is behind this connection.
  predicate PastUntrack(s: State) {
    (s.hijacked && !s.pc.HijackUntrack?) || s.pc.CloseStore? || s.pc.CloseSock? || s.pc.CloseFlush? || s.pc.Gone?
  }

  predicate BetweenUntrackAndClose(s: State) {
    s.pc.CloseStore? || s.pc.CloseSock?
  }

  // A tracked connection is never Hijacked or Closed; an accepted one is tracked, or
  // hijacked, or has its socket closed, or is inside that one stretch of Close.
  predicate Accounted(s: State, tracked: bool, sockClosed: bool) {
    && (tracked ==> !PastUntrack(s))
    && (s.curState == Some(StateHijacked) || s.curState == Some(StateClosed) ==> PastUntrack(s))
    && (tracked || s.hijacked || sockClosed || BetweenUntrackAndClose(s))
  }

  ghost predicate Conserved(w: World) {
    && w.activeConn <= w.conns.Keys && w.closedSocks <= w.conns.Keys
    && (forall c :: c in w.conns ==> Safe(w.conns[c]) && Accounted(w.conns[c], c in w.activeConn, c in w.closedSocks))
  }

  // What a walk has done so far: exactly the connections it saw idle are gone.
  ghost predicate WalkOk(w: World) {
    w.walk.Some? ==>
      var k := w.walk.value;
      && k.todo <= w.activeConn && w.activeConn == k.start - k.idle && k.idle <= k.start && k.idle <= w.closedSocks
      && (k.quiescent <==> w.activeConn == k.todo)
      && (k.closing.Some? ==> k.closing.value in k.todo)
      && (k.owner.Some? ==> k.owner.value in w.shutting)
  }

  lemma LoopKeepsAccount(s: State, e: LoopEvent, tracked: bool, sockClosed: bool)
    requires Safe(s) && Accounted(s, tracked, sockClosed) && LoopNext(s, e).Some?
    ensures Accounted(LoopNext(s, e).value, tracked, sockClosed)
  {
    LoopStoresNoEnd(s, e);
    LoopStaysInside(s, e);
  }

  // The loop does not hijack, and stores no final state.
  lemma LoopStoresNoEnd(s: State, e: LoopEvent)
    requires LoopNext(s, e).Some?
    ensures var t := LoopNext(s, e).value;
      && t.hijacked == s.hijacked
      && (t.curState == s.curState || t.curState in {Some(StateNew), Some(StateActive), Some(StateIdle)})
  {
  }

  // It starts and ends outside hijackLocked and Close.
  lemma LoopStaysInside(s: State, e: LoopEvent)
    requires LoopNext(s, e).Some?
    ensures !Locked(s.pc) && !s.pc.Gone?
    ensures var t := LoopNext(s, e).value; !Locked(t.pc) && !t.pc.Gone?
  {
    match e
    case CheckShutdown(_) =>
    case LoadHandle =>
    case LoadLaunch =>
    case RawReturn(_) =>
    case Line(_) => LineStaysInside(s, e);
    case _ =>
  }

  lemma LineStaysInside(s: State, e: LoopEvent)
    requires LoopNext(s, e).Some? && e.Line?
    ensures var t := LoopNext(s, e).value; s.pc.ReadLine? && !Locked(t.pc) && !t.pc.Gone?
  {
  }

  lemma EndKeepsAccount(s: State, e: EndEvent, tracked: bool, sockClosed: bool)
    requires Safe(s) && Accounted(s, tracked, sockClosed) && EndNext(s, e).Some?
    ensures Accounted(EndNext(s, e).value, tracked && !e.Untrack?, sockClosed || e.CloseSocket?)
  {
  }

  lemma IoKeepsAccount(s: State, e: IoEvent, tracked: bool, sockClosed: bool)
    requires Safe(s) && Accounted(s, tracked, sockClosed) && IoNext(s, e).Some?
    ensures Accounted(IoNext(s, e).value, tracked, sockClosed)
  {
  }

  lemma ControlKeepsAccount(s: State, e: ControlEvent, tracked: bool, sockClosed: bool)
    requires Safe(s) && Accounted(s, tracked, sockClosed) && ControlNext(s, e).Some?
    ensures Accounted(ControlNext(s, e).value, tracked, sockClosed)
  {
  }

  lemma StepKeepsAccount(s: State, e: Event, tracked: bool, sockClosed: bool)
    requires Safe(s) && Accounted(s, tracked, sockClosed) && Next(s, e).Some?
    ensures Accounted(Next(s, e).value, tracked && e != End(Untrack), sockClosed || e == End(CloseSocket))
  {
    match e
    case Loop(l) => LoopKeepsAccount(s, l, tracked, sockClosed);
    case End(d) => EndKeepsAccount(s, d, tracked, sockClosed);
    case Io(io) => IoKeepsAccount(s, io, tracked, sockClosed);
    case Control(c) => ControlKeepsAccount(s, c, tracked, sockClosed);
    case Caller(k) => CallerKeepsServe(s, k);
  }

  lemma EffectKeepsWalk(w: World, c: ConnId, e: Event, s: State, t: State)
    requires WalkOk(w) && c in w.conns && ConnEffect(w, c, e, s, t).Some?
    ensures WalkOk(ConnEffect(w, c, e, s, t).value)
  {
  }

  // What a connection's step may change in the shared sets.
  lemma EffectOnSets(w: World, c: ConnId, e: Event, s: State, t: State)
    requires ConnEffect(w, c, e, s, t).Some?
    ensures var v := ConnEffect(w, c, e, s, t).value;
      && v.conns == w.conns[c := t] && v.walk == w.walk && v.inShutdown == w.inShutdown && v.shutting == w.shutting
      && v.temps == w.temps && v.nextBuf == w.nextBuf && v.made == w.made && v.dropped == w.dropped
      && v.activeConn == (if e == End(Untrack) then w.activeConn - {c} else w.activeConn)
      && v.closedSocks == (if e == End(CloseSocket) then w.closedSocks + {c} else w.closedSocks)
  {
  }

  lemma ReplaceKeepsConserved(w: World, c: ConnId, t: State, v: World)
    requires Conserved(w) && c in w.conns && v.conns == w.conns[c := t]
    requires v.activeConn == w.activeConn || v.activeConn == w.activeConn - {c}
    requires v.closedSocks == w.closedSocks || v.closedSocks == w.closedSocks + {c}
    requires Safe(t) && Accounted(t, c in v.activeConn, c in v.closedSocks)
    ensures Conserved(v)
  {
  }

  lemma ConnKeepsConserved(w: World, c: ConnId, e: Event)
    requires Conserved(w) && WalkOk(w) && WorldNext(w, OfConn(c, e)).Some?
    ensures Conserved(WorldNext(w, OfConn(c, e)).value) && WalkOk(WorldNext(w, OfConn(c, e)).value)
  {
    NextKeepsSafe(w.conns[c], e);
    StepKeepsAccount(w.conns[c], e, c in w.activeConn, c in w.closedSocks);
    var t := Next(w.conns[c], e).value;
    EffectKeepsWalk(w, c, e, w.conns[c], t);
    EffectOnSets(w, c, e, w.conns[c], t);
    ReplaceKeepsConserved(w, c, t, WorldNext(w, OfConn(c, e)).value);
  }

  lemma AcceptKeepsConserved(w: World, c: ConnId)
    requires Conserved(w) && WalkOk(w) && WorldNext(w, Accept(c)).Some?
    ensures Conserved(WorldNext(w, Accept(c)).value) && WalkOk(WorldNext(w, Accept(c)).value)
  {
    InitIsSafe();
  }

  // Equipping a connection is one of its own steps, and changes the pools besides.
  lemma EquipKeepsConserved(w: World, c: ConnId, l: LoopEvent, v: World)
    requires Conserved(w) && WalkOk(w) && c in w.conns && (l.GetReader? || l.GetWriter?)
    requires LoopNext(w.conns[c], l).Some? && v.conns == w.conns[c := LoopNext(w.conns[c], l).value]
    requires v.activeConn == w.activeConn && v.closedSocks == w.closedSocks && v.walk == w.walk
    requires v.shutting == w.shutting
    ensures Conserved(v) && WalkOk(v)
  {
    LoopKeepsSafe(w.conns[c], l);
    LoopKeepsAccount(w.conns[c], l, c in w.activeConn, c in w.closedSocks);
    ReplaceKeepsConserved(w, c, LoopNext(w.conns[c], l).value, v);
  }

  // Steps of the walk and of Shutdown leave the connections as they are.
  lemma SocketsOnlyKeepConserved(w: World, v: World)
    requires Conserved(w) && v.conns == w.conns && v.activeConn <= w.activeConn
    requires v.closedSocks == w.closedSocks + (w.activeConn - v.activeConn)
    ensures Conserved(v)
  {
  }

  lemma WalkBeginKeepsConserved(w: World, owner: Option<ThreadId>)
    requires Conserved(w) && WorldNext(w, WalkBegin(owner)).Some?
    ensures Conserved(WorldNext(w, WalkBegin(owner)).value) && WalkOk(WorldNext(w, WalkBegin(owner)).value)
  {
    SocketsOnlyKeepConserved(w, WorldNext(w, WalkBegin(owner)).value);
  }

  lemma WalkObserveKeepsConserved(w: World, c: ConnId)
    requires Conserved(w) && WalkOk(w) && WorldNext(w, WalkObserve(c)).Some?
    ensures Conserved(WorldNext(w, WalkObserve(c)).value) && WalkOk(WorldNext(w, WalkObserve(c)).value)
  {
    SocketsOnlyKeepConserved(w, WorldNext(w, WalkObserve(c)).value);
  }

  lemma WalkCloseKeepsConserved(w: World)
    requires Conserved(w) && WalkOk(w) && WorldNext(w, WalkClose).Some?
    ensures Conserved(WorldNext(w, WalkClose).value) && WalkOk(WorldNext(w, WalkClose).value)
  {
    WalkCloseKeepsWalk(w);
    WalkCloseMovesOne(w);
    SocketsOnlyKeepConserved(w, WorldNext(w, WalkClose).value);
  }

  lemma WalkCloseKeepsWalk(w: World)
    requires WalkOk(w) && WorldNext(w, WalkClose).Some?
    ensures WalkOk(WorldNext(w, WalkClose).value)
  {
    var k, c := w.walk.value, w.walk.value.closing.value;
    assert w.activeConn == (w.activeConn - {c}) + {c} && k.todo == (k.todo - {c}) + {c};
  }

  lemma WalkCloseMovesOne(w: World)
    requires WalkOk(w) && WorldNext(w, WalkClose).Some?
    ensures var v := WorldNext(w, WalkClose).value;
      && v.conns == w.conns && v.activeConn <= w.activeConn
      && v.closedSocks == w.closedSocks + (w.activeConn - v.activeConn)
  {
    assert w.walk.value.closing.value in w.activeConn;
  }

  lemma WalkEndKeepsConserved(w: World)
    requires Conserved(w) && WorldNext(w, WalkEnd).Some?
    ensures Conserved(WorldNext(w, WalkEnd).value) && WalkOk(WorldNext(w, WalkEnd).value)
  {
    SocketsOnlyKeepConserved(w, WorldNext(w, WalkEnd).value);
  }

  lemma CloseConnsKeepsConserved(w: World)
    requires Conserved(w) && WalkOk(w) && WorldNext(w, CloseConns).Some?
    ensures Conserved(WorldNext(w, CloseConns).value) && WalkOk(WorldNext(w, CloseConns).value)
  {
    SocketsOnlyKeepConserved(w, WorldNext(w, CloseConns).value);
  }

  lemma ServerKeepsConserved(w: World, e: WorldEvent)
    requires Conserved(w) && WalkOk(w) && WorldNext(w, e).Some?
    requires e.ShutdownBegin? || e.ShutdownReturn? || e.TempGet? || e.TempPut? || e.PoolDrop?
    ensures Conserved(WorldNext(w, e).value) && WalkOk(WorldNext(w, e).value)
  {
    SocketsOnlyKeepConserved(w, WorldNext(w, e).value);
    ServerKeepsWalk(w, e);
  }

  lemma ServerKeepsWalk(w: World, e: WorldEvent)
    requires WalkOk(w) && WorldNext(w, e).Some?
    requires e.ShutdownBegin? || e.ShutdownReturn? || e.TempGet? || e.TempPut? || e.PoolDrop?
    ensures WalkOk(WorldNext(w, e).value)
  {
  }

  lemma StepKeepsConserved(w: World, e: WorldEvent)
    requires Conserved(w) && WalkOk(w) && WorldNext(w, e).Some?
    ensures Conserved(WorldNext(w, e).value) && WalkOk(WorldNext(w, e).value)
  {
    match e
    case OfConn(c, ev) => ConnKeepsConserved(w, c, ev);
    case Accept(c) => AcceptKeepsConserved(w, c);
    case EquipReader(c, r) => EquipKeepsConserved(w, c, GetReader(Taken(r, Reader(w.nextBuf))), WorldNext(w, e).value);
    case EquipWriter(c, bw) =>
      EquipKeepsConserved(w, c, GetWriter(Taken(bw, Writer(w.nextBuf, WRITER_SIZE))), WorldNext(w, e).value);
    case WalkBegin(owner) => WalkBeginKeepsConserved(w, owner);
    case WalkObserve(c) => WalkObserveKeepsConserved(w, c);
    case WalkClose => WalkCloseKeepsConserved(w);
    case WalkEnd => WalkEndKeepsConserved(w);
    case CloseConns => CloseConnsKeepsConserved(w);
    case _ => ServerKeepsConserved(w, e);
  }

  // At every reachable state every accepted connection is accounted for, and each of
  // them obeys its own protocol.
  lemma {:induction false} EveryRunIsConserved(w: World, es: seq<WorldEvent>, v: World)
    requires Conserved(w) && WalkOk(w) && WorldSteps(w, es, v)
    ensures Conserved(v) && WalkOk(v) && w.conns.Keys <= v.conns.Keys
    decreases |es|
  {
    if es != [] {
      StepKeepsConserved(w, es[0]);
      ConnsGrow(w, es[0]);
      EveryRunIsConserved(WorldNext(w, es[0]).value, es[1..], v);
    }
  }

  lemma ConnsGrow(w: World, e: WorldEvent)
    requires WorldNext(w, e).Some?
    ensures w.conns.Keys <= WorldNext(w, e).value.conns.Keys
    ensures forall c :: c in w.conns && c !in w.activeConn ==> c !in WorldNext(w, e).value.activeConn
  {
  }

  // Once untracked, a connection is never tracked again.
  lemma {:induction false} NeverTrackedAgain(w: World, es: seq<WorldEvent>, v: World, c: ConnId)
    requires WorldSteps(w, es, v) && c in w.conns && c !in w.activeConn
    ensures c in v.conns && c !in v.activeConn
    decreases |es|
  {
    if es != [] {
      ConnsGrow(w, es[0]);
      NeverTrackedAgain(WorldNext(w, es[0]).value, es[1..], v, c);
    }
  }

  // ---- closeIdleConns and Shutdown ----

  // The connection this step of a walk observes idle, if it is such a step.
  function SawIdle(w: World, e: WorldEvent): set<ConnId> {
    if e.WalkObserve? && e.c in w.conns && IsIdle(w.conns[e.c]) then {e.c} else {}
  }

  ghost function ObservedIdle(w: World, es: seq<WorldEvent>): set<ConnId>
    decreases |es|
  {
    if es == [] || WorldNext(w, es[0]).None? then {}
    else SawIdle(w, es[0]) + ObservedIdle(WorldNext(w, es[0]).value, es[1..])
  }

  // Closed and removed by this walk, or about to be.
  function Chosen(k: Walk): set<ConnId> {
    if k.closing.Some? then k.idle + {k.closing.value} else k.idle
  }

  lemma WalkGoesOn(w: World, e: WorldEvent)
    requires w.walk.Some? && e != WalkEnd && WorldNext(w, e).Some?
    ensures var k := WorldNext(w, e).value.walk;
      k.Some? && k.value.start == w.walk.value.start && Chosen(k.value) == Chosen(w.walk.value) + SawIdle(w, e)
  {
    if e.OfConn? { EffectOnSets(w, e.c, e.e, w.conns[e.c], Next(w.conns[e.c], e.e).value); }
  }

  lemma {:induction false} WalkChooses(w: World, es: seq<WorldEvent>, v: World)
    requires w.walk.Some? && WorldSteps(w, es, v) && WalkEnd !in es
    ensures v.walk.Some? && v.walk.value.start == w.walk.value.start
    ensures Chosen(v.walk.value) == Chosen(w.walk.value) + ObservedIdle(w, es)
    decreases |es|
  {
    if es != [] {
      WalkGoesOn(w, es[0]);
      WalkChooses(WorldNext(w, es[0]).value, es[1..], v);
    }
  }

  // While the walk lasts, whatever the connections do in between, it chooses exactly the
  // connections it observes idle; activeConn is what it was at the start minus those
  // chosen, but for one that it is just about to close.
  lemma WalkIsExact(w: World, es: seq<WorldEvent>, v: World)
    requires Conserved(w) && WalkOk(w) && w.walk.Some? && WorldSteps(w, es, v) && WalkEnd !in es
    ensures v.walk.Some? && v.walk.value.start == w.walk.value.start
    ensures Chosen(v.walk.value) == Chosen(w.walk.value) + ObservedIdle(w, es)
    ensures v.activeConn == w.walk.value.start - v.walk.value.idle && v.walk.value.idle <= v.closedSocks
    ensures v.walk.value.closing.None? ==> v.walk.value.idle == Chosen(w.walk.value) + ObservedIdle(w, es)
  {
    WalkChooses(w, es, v);
    EveryRunIsConserved(w, es, v);
  }

  // closeIdleConns reports true exactly when no tracked connection is left, so a
  // Shutdown that goes quiet leaves none at that moment.
  lemma WalkResult(w: World)
    requires Conserved(w) && WalkOk(w) && WorldNext(w, WalkEnd).Some?
    ensures w.walk.value.quiescent <==> w.activeConn == {}
    ensures var v := WorldNext(w, WalkEnd).value;
      v.activeConn == w.activeConn && forall t :: t in v.quiet && t !in w.quiet ==> v.activeConn == {}
  {
  }

  lemma ConnLeavesServer(w: World, c: ConnId, e: Event)
    requires WorldNext(w, OfConn(c, e)).Some?
    ensures var v := WorldNext(w, OfConn(c, e)).value;
      v.walk == w.walk && v.inShutdown == w.inShutdown && v.shutting == w.shutting
  {
    EffectOnSets(w, c, e, w.conns[c], Next(w.conns[c], e).value);
  }

  // Begin and return count by one, on the int32 as on the set.
  lemma CountMoves(shutting: set<ThreadId>, t: ThreadId)
    ensures t !in shutting ==> Int32(Int32(|shutting|) + 1) == Int32(|shutting + {t}|)
    ensures t in shutting ==> Int32(Int32(|shutting|) - 1) == Int32(|shutting - {t}|)
  {
    if t in shutting {
      OneFewer(shutting, t);
      Int32Down(|shutting|);
    } else {
      assert |shutting + {t}| == |shutting| + 1;
      Int32Up(|shutting|);
    }
  }

  lemma Int32Up(n: nat)
    ensures Int32(Int32(n) + 1) == Int32(n + 1)
  {
  }

  lemma Int32Down(n: nat)
    requires n > 0
    ensures Int32(Int32(n) - 1) == Int32(n - 1)
  {
  }

  // The other steps of the server leave the counter and the set alone.
  lemma OthersKeepCount(w: World, e: WorldEvent)
    requires !e.OfConn? && !e.ShutdownBegin? && !e.ShutdownReturn? && WorldNext(w, e).Some?
    ensures WorldNext(w, e).value.inShutdown == w.inShutdown && WorldNext(w, e).value.shutting == w.shutting
  {
  }

  lemma ServerKeepsCount(w: World, e: WorldEvent)
    requires w.inShutdown == Int32(|w.shutting|) && !e.OfConn? && WorldNext(w, e).Some?
    ensures WorldNext(w, e).value.inShutdown == Int32(|WorldNext(w, e).value.shutting|)
  {
    match e
    case ShutdownBegin(t) => CountMoves(w.shutting, t);
    case ShutdownReturn(t) => CountMoves(w.shutting, t);
    case _ => OthersKeepCount(w, e);
  }

  lemma StepKeepsCount(w: World, e: WorldEvent)
    requires w.inShutdown == Int32(|w.shutting|) && WorldNext(w, e).Some?
    ensures WorldNext(w, e).value.inShutdown == Int32(|WorldNext(w, e).value.shutting|)
  {
    if e.OfConn? { ConnLeavesServer(w, e.c, e.e); } else { ServerKeepsCount(w, e); }
  }

  // The counter is the number of running Shutdown calls as far as an int32 goes, and
  // so that very number below 2^31.
  lemma {:induction false} ShutdownCount(w: World, es: seq<WorldEvent>, v: World)
    requires w.inShutdown == Int32(|w.shutting|) && WorldSteps(w, es, v)
    ensures v.inShutdown == Int32(|v.shutting|)
    ensures |v.shutting| < 0x8000_0000 ==> v.inShutdown == |v.shutting|
    ensures -0x8000_0000 <= v.inShutdown < 0x8000_0000 && (|v.shutting| - v.inShutdown) % 0x1_0000_0000 == 0
    decreases |es|
  {
    if es != [] {
      StepKeepsCount(w, es[0]);
      ShutdownCount(WorldNext(w, es[0]).value, es[1..], v);
    }
  }

  // ---- what a Shutdown does to the loops and reports ----

  // While a Shutdown runs no connection starts another pass of its loop, and one at its
  // loop's head can leave; while none runs it cannot leave that way.
  lemma ShutdownStopsPasses(w: World, e: WorldEvent, c: ConnId)
    requires w.inShutdown == Int32(|w.shutting|) && |w.shutting| < 0x8000_0000
    requires c in w.conns && w.conns[c].pc.Top? && WorldNext(w, e).Some?
    ensures WorldNext(w, OfConn(c, Loop(CheckShutdown(true)))).Some? <==> w.shutting != {}
    ensures var v := WorldNext(w, e).value;
      && c in v.conns && v.conns[c].pc in {Top, ReadHandle, Exit}
      && (v.conns[c].pc.ReadHandle? ==> w.shutting == {}) && (v.conns[c].pc.Exit? ==> w.shutting != {})
  {
    assert |w.shutting| > 0 <==> w.shutting != {};
    StepProjects(w, e, c);
    var own := StepOf(w, e, c);
    if own != [] { TopMoves(w.conns[c], own[0]); }
  }

  lemma TopMoves(s: State, e: Event)
    requires s.pc.Top? && Next(s, e).Some?
    ensures Next(s, e).value.pc == s.pc || (e.Loop? && e.l.CheckShutdown?)
  {
    match e
    case Loop(_) =>
    case Io(_) =>
    case End(_) =>
    case Control(_) =>
    case Caller(k) => CallerKeepsServe(s, k);
  }

  // A running Shutdown finds that all is quiet in exactly one way: by the end of a walk
  // of its own that leaves no tracked connection.
  lemma QuietIff(w: World, e: WorldEvent, t: ThreadId)
    requires Conserved(w) && WalkOk(w) && WorldNext(w, e).Some? && t !in w.quiet
    ensures t in WorldNext(w, e).value.quiet <==>
      e == WalkEnd && w.walk.value.owner == Some(t) && w.activeConn == {}
  {
    if e.OfConn? { ConnLeavesQuiet(w, e.c, e.e); }
  }

  lemma ConnLeavesQuiet(w: World, c: ConnId, e: Event)
    requires WorldNext(w, OfConn(c, e)).Some?
    ensures WorldNext(w, OfConn(c, e)).value.quiet == w.quiet
  {
  }

  // closeConns leaves nothing tracked, and so no connection that is neither hijacked nor
  // closed nor in the middle of its own Close.
  lemma CloseConnsClosesAll(w: World)
    requires Conserved(w) && WalkOk(w) && WorldNext(w, CloseConns).Some?
    ensures var v := WorldNext(w, CloseConns).value;
      && v.activeConn == {} && v.conns == w.conns && w.activeConn <= v.closedSocks
      && forall c :: c in v.conns ==> v.conns[c].hijacked || c in v.closedSocks || BetweenUntrackAndClose(v.conns[c])
  {
    CloseConnsKeepsConserved(w);
  }

  // An accepted connection is tracked from the start, and new.
  lemma AcceptTracks(w: World, c: ConnId)
    requires Conserved(w)
    ensures WorldNext(w, Accept(c)).Some? <==> c !in w.conns && w.walk.None?
    ensures WorldNext(w, Accept(c)).Some? ==>
      var v := WorldNext(w, Accept(c)).value;
      && v.conns == w.conns[c := Init()] && v.activeConn == w.activeConn + {c} && c !in v.closedSocks
  {
  }

  // ---- no lock cycle ----

  lemma OneMore(w: World, e: WorldEvent, es: seq<WorldEvent>, v: World)
    requires WorldNext(w, e).Some? && WorldSteps(WorldNext(w, e).value, es, v)
    ensures WorldSteps(w, [e] + es, v)
  {
    assert ([e] + es)[1..] == es;
  }

  // The walk's next own step.
  function WalkStep(k: Walk, c: ConnId): WorldEvent {
    if k.closing.Some? then WalkClose else if k.todo == {} then WalkEnd else WalkObserve(c)
  }

  function WalkRank(k: Walk): nat {
    if k.closing.Some? then 2 * |k.todo| else 2 * |k.todo| + 1
  }

  // What the rest of the walk removes if nothing comes between.
  predicate WillGo(w: World, c: ConnId)
    requires w.walk.Some?
  {
    c in w.walk.value.todo && c in w.conns && (IsIdle(w.conns[c]) || w.walk.value.closing == Some(c))
  }

  // What a step of the walk leaves to the rest of it.
  ghost predicate WalkGetsOn(w: World, v: World)
    requires w.walk.Some?
  {
    && v.conns == w.conns
    && (v.walk.None? ==> w.walk.value.todo == {} && v.activeConn == w.activeConn)
    && (v.walk.Some? ==>
          && WalkRank(v.walk.value) < WalkRank(w.walk.value)
          && forall d :: d in w.activeConn && !WillGo(w, d) <==> d in v.activeConn && !WillGo(v, d))
  }

  lemma OneFewer(s: set<ConnId>, c: ConnId)
    requires c in s
    ensures |s - {c}| == |s| - 1
  {
    assert s == (s - {c}) + {c};
  }

  lemma WalkCloseIsThere(w: World)
    requires w.activeConn <= w.conns.Keys && WalkOk(w) && w.walk.Some? && w.walk.value.closing.Some?
    ensures WorldNext(w, WalkClose).Some? && WalkGetsOn(w, WorldNext(w, WalkClose).value)
  {
    OneFewer(w.walk.value.todo, w.walk.value.closing.value);
  }

  lemma WalkObserveIsThere(w: World, c: ConnId)
    requires w.activeConn <= w.conns.Keys && WalkOk(w) && w.walk.Some? && w.walk.value.closing.None?
    requires c in w.walk.value.todo
    ensures WorldNext(w, WalkObserve(c)).Some? && WalkGetsOn(w, WorldNext(w, WalkObserve(c)).value)
  {
    OneFewer(w.walk.value.todo, c);
  }

  lemma WalkEndIsThere(w: World)
    requires w.walk.Some? && w.walk.value.closing.None? && w.walk.value.todo == {}
    ensures WorldNext(w, WalkEnd).Some? && WalkGetsOn(w, WorldNext(w, WalkEnd).value)
  {
  }

  lemma WalkStepIsThere(w: World, c: ConnId)
    requires w.activeConn <= w.conns.Keys && WalkOk(w) && w.walk.Some?
    requires (w.walk.value.todo != {} ==> c in w.walk.value.todo)
    ensures WorldNext(w, WalkStep(w.walk.value, c)).Some?
    ensures WalkGetsOn(w, WorldNext(w, WalkStep(w.walk.value, c)).value)
  {
    if w.walk.value.closing.Some? {
      WalkCloseIsThere(w);
    } else if w.walk.value.todo != {} {
      WalkObserveIsThere(w, c);
    } else {
      WalkEndIsThere(w);
    }
  }

  // The holder of server.mu never waits: the walk can always run to its end, and then,
  // when nothing comes between, has removed exactly what was idle.
  lemma {:induction false} WalkCanFinish(w: World) returns (es: seq<WorldEvent>, v: World)
    requires Conserved(w) && WalkOk(w) && w.walk.Some?
    ensures WorldSteps(w, es, v) && v.walk.None? && v.conns == w.conns
    ensures forall e :: e in es ==> e.WalkObserve? || e.WalkClose? || e.WalkEnd?
    ensures forall c :: c in v.activeConn <==> c in w.activeConn && !WillGo(w, c)
    decreases WalkRank(w.walk.value)
  {
    var c: ConnId := 0;
    if w.walk.value.todo != {} { c :| c in w.walk.value.todo; }
    var e := WalkStep(w.walk.value, c);
    WalkStepIsThere(w, c);
    var u := WorldNext(w, e).value;
    StepKeepsConserved(w, e);
    if u.walk.None? {
      OneMore(w, e, [], u);
      es, v := [e] + [], u;
    } else {
      var rest;
      rest, v := WalkCanFinish(u);
      OneMore(w, e, rest, v);
      es := [e] + rest;
    }
  }

  // An undisturbed walk leaves what CloseIdleConns of ConnObjects leaves.
  lemma UndisturbedWalk(w: World, owner: Option<ThreadId>) returns (es: seq<WorldEvent>, v: World)
    requires Conserved(w) && WalkOk(w) && WorldNext(w, WalkBegin(owner)).Some?
    ensures WorldSteps(w, [WalkBegin(owner)] + es, v) && v.walk.None? && v.conns == w.conns
    ensures forall e :: e in es ==> e.WalkObserve? || e.WalkClose? || e.WalkEnd?
    ensures v.activeConn == set c | c in w.activeConn && !IsIdle(w.conns[c])
  {
    var u := WorldNext(w, WalkBegin(owner)).value;
    WalkBeginKeepsConserved(w, owner);
    es, v := WalkCanFinish(u);
    OneMore(w, WalkBegin(owner), es, v);
  }

  // ---- whoever holds conn.mu lets go ----

  // The next step of conn.mu's holder, and how many it has left.
  function UnlockStep(s: State): Event {
    if s.holder.None? then End(HolderStep(s.pc))
    else if HolderIn(s, Preparing) then Caller(Register(seq(100, _ => "1")))
    else Caller(Wrote(true))
  }

  function UnlockRank(s: State): nat {
    if s.holder.None? then LockRank(s.pc) else if HolderIn(s, Preparing) then 2 else 1
  }

  lemma UnlockStepLowersRank(s: State)
    requires Safe(s) && !LockFree(s)
    ensures Next(s, UnlockStep(s)).Some?
    ensures UnlockRank(Next(s, UnlockStep(s)).value) < UnlockRank(s)
  {
    if s.holder.None? { HolderStepLowersRank(s); }
  }

  lemma HolderMoves(w: World, c: ConnId)
    requires c in w.conns && Safe(w.conns[c]) && !LockFree(w.conns[c])
    requires w.walk.None? || UnlockStep(w.conns[c]) != End(Untrack)
    ensures var e := OfConn(c, UnlockStep(w.conns[c]));
      && WorldNext(w, e).Some? && c in WorldNext(w, e).value.conns
      && UnlockRank(WorldNext(w, e).value.conns[c]) < UnlockRank(w.conns[c])
  {
    UnlockStepLowersRank(w.conns[c]);
    var k := UnlockStep(w.conns[c]);
    assert ConnEffect(w, c, k, w.conns[c], Next(w.conns[c], k).value).Some?;
    EffectOnSets(w, c, k, w.conns[c], Next(w.conns[c], k).value);
  }

  // conn.mu is taken before server.mu and never the other way round: whoever holds
  // conn.mu, be it Close, a hijack or a launch, lets go after finitely many steps of its
  // own and of a walk in progress.
  lemma {:induction false} LockIsReleased(w: World, c: ConnId) returns (es: seq<WorldEvent>, v: World)
    requires Conserved(w) && WalkOk(w) && c in w.conns
    ensures WorldSteps(w, es, v) && c in v.conns && LockFree(v.conns[c])
    ensures forall e :: e in es ==>
      e.WalkObserve? || e.WalkClose? || e.WalkEnd? || (e.OfConn? && e.c == c && (e.e.End? || e.e.Caller?))
    decreases UnlockRank(w.conns[c]), if w.walk.Some? then WalkRank(w.walk.value) + 1 else 0
  {
    if LockFree(w.conns[c]) {
      es, v := [], w;
    } else {
      var e := OfConn(c, UnlockStep(w.conns[c]));
      if w.walk.Some? && e.e == End(Untrack) {
        var d: ConnId := 0;
        if w.walk.value.todo != {} { d :| d in w.walk.value.todo; }
        e := WalkStep(w.walk.value, d);
        WalkStepIsThere(w, d);
      } else {
        HolderMoves(w, c);
      }
      StepKeepsConserved(w, e);
      var rest;
      rest, v := LockIsReleased(WorldNext(w, e).value, c);
      OneMore(w, e, rest, v);
      es := [e] + rest;
    }
  }

  // ---- each connection of a server run is a protocol run ----

  // The step of connection c that a step of the server contains.
  function StepOf(w: World, e: WorldEvent, c: ConnId): seq<Event> {
    match e
    case OfConn(d, ev) => if d == c then [ev] else []
    case EquipReader(d, r) => if d == c then [Loop(GetReader(Taken(r, Reader(w.nextBuf))))] else []
    case EquipWriter(d, bw) => if d == c then [Loop(GetWriter(Taken(bw, Writer(w.nextBuf, WRITER_SIZE))))] else []
    case _ => []
  }

  lemma StepProjects(w: World, e: WorldEvent, c: ConnId)
    requires WorldNext(w, e).Some? && c in w.conns
    ensures var v := WorldNext(w, e).value;
      && c in v.conns
      && (StepOf(w, e, c) == [] ==> v.conns[c] == w.conns[c])
      && (StepOf(w, e, c) != [] ==> |StepOf(w, e, c)| == 1 && Next(w.conns[c], StepOf(w, e, c)[0]) == Some(v.conns[c]))
  {
    if e.OfConn? { EffectOnSets(w, e.c, e.e, w.conns[e.c], Next(w.conns[e.c], e.e).value); }
  }

  // So every theorem about runs of one connection holds of each connection served.
  lemma {:induction false} RunProjects(w: World, es: seq<WorldEvent>, v: World, c: ConnId) returns (cs: seq<Event>)
    requires WorldSteps(w, es, v) && c in w.conns
    ensures c in v.conns && Steps(w.conns[c], cs, v.conns[c])
    ensures Loop(StoreIdle) in cs <==> OfConn(c, Loop(StoreIdle)) in es
    decreases |es|
  {
    if es == [] {
      cs := [];
    } else {
      StepProjects(w, es[0], c);
      var rest := RunProjects(WorldNext(w, es[0]).value, es[1..], v, c);
      var first := StepOf(w, es[0], c);
      cs := first + rest;
      if first == [] { assert cs == rest; } else { assert cs[1..] == rest; }
    }
  }

  // ---- closing what has stopped being idle ----

  // A connection that a walk observes idle is not answering at that moment: no handler
  // is running and no reply is being handed to a caller.
  lemma ObservedIdleIsNotAnswering(w: World, es: seq<WorldEvent>, v: World, c: ConnId)
    requires c in w.conns && w.conns[c] == Init() && WorldSteps(w, es, v)
    requires WorldNext(v, WalkObserve(c)).Some? && WorldNext(v, WalkObserve(c)).value.walk.value.closing == Some(c)
    ensures !Answering(v.conns[c].pc)
  {
    var cs := RunProjects(w, es, v, c);
    InitIsSafe();
    EveryRunIsTelling(Init(), cs, v.conns[c]);
  }

  // Of the connections under a raw function, a walk chooses exactly those that have ever
  // been idle.
  lemma WalkChoosesRawIff(w: World, es: seq<WorldEvent>, v: World, c: ConnId)
    requires c in w.conns && w.conns[c] == Init() && WorldSteps(w, es, v)
    requires WorldNext(v, WalkObserve(c)).Some? && v.conns[c].pc.RunRaw?
    ensures WorldNext(v, WalkObserve(c)).value.walk.value.closing == Some(c) <==> OfConn(c, Loop(StoreIdle)) in es
  {
    var cs := RunProjects(w, es, v, c);
    RawFunctionShows(cs, v.conns[c]);
  }

  // The steps that start answering: a good request, and a reply that parses.
  predicate Resumes(e: Event) {
    e == Loop(Line(GoodRequest)) || (e.Loop? && e.l.ParseReply? && e.l.res.Some?)
  }

  lemma LoopStartsAnswering(s: State, e: LoopEvent)
    requires Safe(s) && !Answering(s.pc) && LoopNext(s, e).Some?
    ensures Answering(LoopNext(s, e).value.pc) <==> Resumes(Loop(e))
  {
  }

  lemma AnsweringStartsIff(s: State, e: Event)
    requires Safe(s) && !Answering(s.pc) && Next(s, e).Some?
    ensures Answering(Next(s, e).value.pc) <==> Resumes(e)
  {
    match e
    case Loop(l) => LoopStartsAnswering(s, l);
    case Io(_) =>
    case End(_) =>
    case Control(_) =>
    case Caller(k) => CallerKeepsServe(s, k);
  }

  // So between the observation and the close it starts answering only by such a step.
  lemma {:induction false} SparedUnlessResumed(w: World, es: seq<WorldEvent>, v: World, c: ConnId)
    requires Conserved(w) && WalkOk(w) && c in w.conns && !Answering(w.conns[c].pc) && WorldSteps(w, es, v)
    requires forall e :: e in es && e.OfConn? && e.c == c ==> !Resumes(e.e)
    ensures c in v.conns && !Answering(v.conns[c].pc)
    decreases |es|
  {
    if es != [] {
      var u := WorldNext(w, es[0]).value;
      StepKeepsConserved(w, es[0]);
      StepProjects(w, es[0], c);
      var own := StepOf(w, es[0], c);
      if own != [] { AnsweringStartsIff(w.conns[c], own[0]); }
      SparedUnlessResumed(u, es[1..], v, c);
    }
  }

  // And that does happen: serve, past its idle wait, reads a request after its state was
  // loaded, and its socket is closed under the running handler.
  lemma ClosedUnderItsHandler(w: World, c: ConnId) returns (v: World)
    requires w.walk.Some? && w.walk.value.closing.None? && c in w.walk.value.todo && c in w.conns
    requires w.conns[c].pc.ReadLine? && IsIdle(w.conns[c]) && !w.conns[c].hijacked
    ensures WorldSteps(w, [WalkObserve(c), OfConn(c, Loop(Line(GoodRequest))), WalkClose], v)
    ensures c in v.conns && v.conns[c].pc.Handle? && c in v.closedSocks
  {
    var w1 := WorldNext(w, WalkObserve(c)).value;
    var w2 := WorldNext(w1, OfConn(c, Loop(Line(GoodRequest)))).value;
    v := WorldNext(w2, WalkClose).value;
    OneMore(w2, WalkClose, [], v);
    OneMore(w1, OfConn(c, Loop(Line(GoodRequest))), [WalkClose] + [], v);
    OneMore(w, WalkObserve(c), [OfConn(c, Loop(Line(GoodRequest)))] + ([WalkClose] + []), v);
    assert [WalkObserve(c)] + ([OfConn(c, Loop(Line(GoodRequest)))] + ([WalkClose] + []))
        == [WalkObserve(c), OfConn(c, Loop(Line(GoodRequest))), WalkClose];
  }

  // From the server's start to that point: connection 0 is answered nothing, goes idle,
  // gets more data, and waits for its next line when SetKeepAlivesEnabled(false) walks.
  lemma ThenLoop(es: seq<WorldEvent>, w: World, l: LoopEvent, t: State) returns (fs: seq<WorldEvent>, v: World)
    requires WorldSteps(Start(), es, w) && 0 in w.conns && w.walk.None? && w.inShutdown == 0
    requires LoopNext(w.conns[0], l) == Some(t) && !l.GetReader? && !l.GetWriter? && l != CheckShutdown(true)
    ensures WorldSteps(Start(), fs, v) && v == SetConn(w, 0, t)
  {
    v := SetConn(w, 0, t);
    assert ConnEffect(w, 0, Loop(l), w.conns[0], t) == Some(v);
    fs := Then(es, w, OfConn(0, Loop(l)), v);
  }

  lemma Then(es: seq<WorldEvent>, w: World, e: WorldEvent, v: World) returns (fs: seq<WorldEvent>)
    requires WorldSteps(Start(), es, w) && WorldNext(w, e) == Some(v)
    ensures WorldSteps(Start(), fs, v)
  {
    fs := es + [e];
    StepAfter(Start(), es, w, e, v);
  }

  lemma {:induction false} StepAfter(u: World, es: seq<WorldEvent>, w: World, e: WorldEvent, v: World)
    requires WorldSteps(u, es, w) && WorldNext(w, e) == Some(v)
    ensures WorldSteps(u, es + [e], v)
    decreases |es|
  {
    if es == [] {
      OneMore(u, e, [], v);
      assert es + [e] == [e] + [];
    } else {
      StepAfter(WorldNext(u, es[0]).value, es[1..], w, e, v);
      OneMore(u, es[0], es[1..] + [e], v);
      assert es + [e] == [es[0]] + (es[1..] + [e]);
    }
  }

  lemma EquippedFromStart() returns (es: seq<WorldEvent>, w: World)
    ensures WorldSteps(Start(), es, w) && 0 in w.conns && 0 in w.activeConn && w.walk.None? && w.inShutdown == 0
    ensures var s := w.conns[0];
      s.pc.Top? && !s.hijacked && !s.closed && s.handleFunc.None? && s.activeReq == map[] && s.holder.None?
  {
    var w1 := WorldNext(Start(), Accept(0)).value;
    es := Then([], Start(), Accept(0), w1);
    es, w := ThenLoop(es, w1, StoreNew, Init().(pc := Setup, curState := Some(StateNew)));
    var w3 := ReaderEquipped(w, 0, None).value;
    es := Then(es, w, EquipReader(0, None), w3);
    w := WriterEquipped(w3, 0, None).value;
    es := Then(es, w3, EquipWriter(0, None), w);
  }

  lemma StrayFromStart() returns (es: seq<WorldEvent>, w: World)
    ensures WorldSteps(Start(), es, w) && 0 in w.conns && 0 in w.activeConn && w.walk.None? && w.inShutdown == 0
    ensures var s := w.conns[0];
      s.pc.Idle? && !s.hijacked && !s.closed && s.handleFunc.None? && s.activeReq == map[]
  {
    es, w := EquippedFromStart();
    var s := w.conns[0];
    es, w := ThenLoop(es, w, CheckShutdown(false), s.(pc := ReadHandle));
    es, w := ThenLoop(es, w, LoadHandle, s.(pc := ReadLine));
    es, w := ThenLoop(es, w, Line(NotRequest), s.(pc := CheckReply));
    es, w := ThenLoop(es, w, LoadLaunchForReply, s.(pc := Idle));
  }

  lemma IdleFromStart() returns (es: seq<WorldEvent>, w: World)
    ensures WorldSteps(Start(), es, w) && 0 in w.conns && 0 in w.activeConn && w.walk.None?
    ensures w.conns[0].pc.ReadLine? && IsIdle(w.conns[0]) && !w.conns[0].hijacked
  {
    es, w := StrayFromStart();
    var s := w.conns[0].(curState := Some(StateIdle));
    es, w := ThenLoop(es, w, StoreIdle, s.(pc := IdleRead));
    es, w := ThenLoop(es, w, IdleData(true), s.(pc := Top));
    es, w := ThenLoop(es, w, CheckShutdown(false), s.(pc := ReadHandle));
    es, w := ThenLoop(es, w, LoadHandle, s.(pc := ReadLine));
  }

  lemma IdleWalkReachesAHandler() returns (es: seq<WorldEvent>, w: World, v: World)
    ensures WorldSteps(Start(), es, w)
    ensures WorldSteps(w, [WalkObserve(0), OfConn(0, Loop(Line(GoodRequest))), WalkClose], v)
    ensures 0 in v.conns && v.conns[0].pc.Handle? && 0 in v.closedSocks
  {
    es, w := IdleFromStart();
    var u := WorldNext(w, WalkBegin(None)).value;
    es := Then(es, w, WalkBegin(None), u);
    w := u;
    v := ClosedUnderItsHandler(w, 0);
  }

  // ---- closing under a raw function ----

  lemma ThenControl(es: seq<WorldEvent>, w: World, k: ControlEvent, t: State) returns (fs: seq<WorldEvent>, v: World)
    requires WorldSteps(Start(), es, w) && 0 in w.conns && ControlNext(w.conns[0], k) == Some(t)
    ensures WorldSteps(Start(), fs, v) && v == SetConn(w, 0, t)
  {
    v := SetConn(w, 0, t);
    fs := Then(es, w, OfConn(0, Control(k)), v);
  }

  // Connection 0 has been idle, and then runs a raw function f.
  lemma RawFromStart(f: FuncId) returns (es: seq<WorldEvent>, w: World)
    ensures WorldSteps(Start(), es, w) && 0 in w.conns && 0 in w.activeConn && w.walk.None?
    ensures w.conns[0].pc == RunRaw(f) && IsIdle(w.conns[0])
  {
    es, w := StrayFromStart();
    var s := w.conns[0].(curState := Some(StateIdle));
    es, w := ThenLoop(es, w, StoreIdle, s.(pc := IdleRead));
    var u := s.(pc := IdleRead, installing := s.installing + multiset{Some(f)});
    es, w := ThenControl(es, w, RawTest(Some(f)), u);
    assert u.installing - multiset{Some(f)} == s.installing;
    es, w := ThenControl(es, w, RawStore(Some(f)), s.(pc := IdleRead, handleFunc := Some(f)));
    es, w := RawTurn(es, w, f);
  }

  lemma RawTurn(es0: seq<WorldEvent>, w0: World, f: FuncId) returns (es: seq<WorldEvent>, w: World)
    requires WorldSteps(Start(), es0, w0) && 0 in w0.conns && 0 in w0.activeConn && w0.walk.None? && w0.inShutdown == 0
    requires w0.conns[0].pc.IdleRead? && IsIdle(w0.conns[0]) && w0.conns[0].activeReq == map[]
    requires w0.conns[0].handleFunc == Some(f)
    ensures WorldSteps(Start(), es, w) && 0 in w.conns && 0 in w.activeConn && w.walk.None?
    ensures w.conns[0].pc == RunRaw(f) && IsIdle(w.conns[0])
  {
    var s := w0.conns[0];
    es, w := ThenLoop(es0, w0, IdleData(true), s.(pc := Top));
    es, w := ThenLoop(es, w, CheckShutdown(false), s.(pc := ReadHandle));
    es, w := ThenLoop(es, w, LoadHandle, s.(pc := CheckLaunch(f)));
    es, w := ThenLoop(es, w, LoadLaunch, s.(pc := RunRaw(f)));
  }

  // A walk closes its socket while the function runs, with no race at all.
  lemma IdleWalkClosesUnderRawFunction(f: FuncId) returns (es: seq<WorldEvent>, v: World)
    ensures WorldSteps(Start(), es, v) && 0 in v.conns
    ensures v.conns[0].pc == RunRaw(f) && 0 in v.closedSocks && 0 !in v.activeConn
  {
    var w;
    es, w := RawFromStart(f);
    var w1 := WorldNext(w, WalkBegin(None)).value;
    es := Then(es, w, WalkBegin(None), w1);
    var w2 := WorldNext(w1, WalkObserve(0)).value;
    es := Then(es, w1, WalkObserve(0), w2);
    v := WorldNext(w2, WalkClose).value;
    es := Then(es, w2, WalkClose, v);
  }
}
