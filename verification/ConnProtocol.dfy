// One connection of conn.go as a state machine: the serve goroutine, any number
// of RoundTripContext callers, hijack attempts and raw control, interleaved
// arbitrarily.  A section of code that holds conn.mu is cut wherever someone without
// the lock can see it: hijackLocked and Close where they take server.mu; hijackLocked
// between its tests and its setTrue, and a launch between its tests, its registration
// and its write, since serve and RawControl read and write handleFunc, hijackedv and
// activeReq without the lock.  RawControl itself is a test and a store.
module ConnProtocol {
  import opened Basics

  type FuncId = nat
  type CallId = nat

  datatype Response = Response(nonce: string, status: int)

  datatype Outcome = Failed(error: Error) | Got(res: Response)

  // A caller is Rejected before it made a channel, or goes through Preparing (tests
  // passed, conn.go:142-178), Writing (registered, conn.go:179-183), Registered (lock
  // released), Waiting (in the select) and Leaving (select done, deferred functions
  // pending) to Finished.  While Preparing or Writing it holds conn.mu.
  datatype Phase =
    | Rejected(error: Error) | Preparing | Writing | Registered | Waiting | Leaving(o: Outcome) | Finished(o: Outcome)

  // `got` lists every response the caller's channel handed over.  The channel that
  // call i makes is named i.
  datatype Call = Call(nonce: string, phase: Phase, got: seq<Response>)

  // Where the serve goroutine is.
  datatype Pc =
    | Born | Setup | NeedWriter | Top | ReadHandle | CheckLaunch(f: FuncId) | RunRaw(f: FuncId) | ClearRaw
    | ReadLine | CheckReply | ParsingReply | Deliver(res: Response)
    | Handle | CheckMode | Send | SendBad | Idle | IdleRead
    | Exit | Final
    | HijackSet | HijackUntrack | HijackStore
    | CloseUntrack | CloseStore | CloseSock | CloseFlush | Gone

  // `installing` are the raw functions (or nil) that RawControl calls have tested for and
  // not yet stored; `holder` is the caller that holds conn.mu between two of its steps.
  datatype State = State(
    pc: Pc, holder: Option<CallId>,
    closed: bool, hijacked: bool, hijacks: nat, ctxDone: bool,
    handleFunc: Option<FuncId>, installing: multiset<Option<FuncId>>,
    bufr: Option<Buf>, bufw: Option<Buf>,
    curState: Option<ConnState>,
    activeReq: map<string, CallId>,
    calls: seq<Call>,
    closedChans: set<CallId>,
    panicked: bool)

  datatype LineKind = ReadFailed | EmptyLine | NotRequest | Malformed | GoodRequest

  // serve's own control flow, its input and output, and its deferred functions.
  datatype LoopEvent =
    | StoreNew | GetReader(r: Buf) | GetWriter(w: Buf)
    | CheckShutdown(down: bool) | LoadHandle | LoadLaunch | RawReturn(ok: bool) | ClearHandle
    | Line(kind: LineKind) | LoadLaunchForReply | ParseReply(res: Option<Response>)
    | HandlerReturn | Panic | LoadMode | StoreIdle | IdleData(ok: bool)

  datatype IoEvent =
    | DeliverReply | HandlerWrite | SendReply(raw: bool, sent: bool, stop: bool) | SendBadRequest

  datatype EndEvent =
    | SetHijacked | CancelCtx | BeginClose | Untrack | StoreFinal | CloseSocket | FinalFlush

  datatype ControlEvent = RawTest(fn: Option<FuncId>) | RawStore(fn: Option<FuncId>) | TryHijack

  datatype CallerEvent =
    | Begin | Abandon(e: Error) | Register(draws: seq<string>) | Wrote(ok: bool)
    | Enter(i: CallId) | GiveUp(i: CallId) | SeeClosed(i: CallId) | Return(i: CallId)

  datatype Event =
    | Loop(l: LoopEvent) | Io(io: IoEvent) | End(d: EndEvent) | Control(c: ControlEvent) | Caller(k: CallerEvent)

  function Init(): State {
    State(Born, None, false, false, 0, false, None, multiset{}, None, None, None, map[], [], {}, false)
  }

  // conn.mu is held by the serve goroutine at these points.
  predicate Locked(pc: Pc) {
    || pc.HijackSet? || pc.HijackUntrack? || pc.HijackStore?
    || pc.CloseUntrack? || pc.CloseStore? || pc.CloseSock? || pc.CloseFlush?
  }

  predicate LockFree(s: State) {
    !Locked(s.pc) && s.holder.None?
  }

  // Handlers, and so callers, exist only after conn.go:397.
  predicate Ready(pc: Pc) {
    !pc.Born? && !pc.Setup? && !pc.NeedWriter?
  }

  predicate InFlight(p: Phase) {
    p.Writing? || p.Registered? || p.Waiting? || p.Leaving?
  }

  predicate Holding(p: Phase) {
    p.Preparing? || p.Writing?
  }

  // ---- the nonce loop, conn.go:153-164 ----

  // The first draw not in use; the last draw when all are.
  function Pick(draws: seq<string>, used: set<string>): (n: string)
    requires draws != []
    ensures n in draws
    ensures n !in used <==> exists d :: d in draws && d !in used
  {
    if draws[0] !in used || |draws| == 1 then draws[0]
    else
      assert draws == [draws[0]] + draws[1..];
      Pick(draws[1..], used)
  }

  // ---- steps ----

  // hijackLocked's refusals in the order it tests them, conn.go:82-99.
  function HijackRefusal(s: State): Option<Error> {
    if s.closed then Some(ErrConnClose)
    else if s.activeReq != map[] then Some(ErrLaunched)
    else if s.hijacked then Some(ErrHijacked)
    else if s.handleFunc.Some? then Some(ErrRwaControl)
    else None
  }

  // What ends a launch between its tests and its registration: a nil request, a failed
  // nonce draw or a failed encoding, conn.go:144-176.
  predicate EndsEarly(e: Error) {
    e in {ErrReqUnavailable, ErrNonce, ErrEncode, ErrHostInvalid, ErrURIInvalid, ErrProtoInvalid, ErrMethodInvalid}
  }

  // RoundTripContext's tests in their order, conn.go:131-142.
  function LaunchRefusal(s: State): Option<Error> {
    if s.closed then Some(ErrConnClose)
    else if s.hijacked then Some(ErrHijacked)
    else if s.handleFunc.Some? then Some(ErrRwaControl)
    else None
  }

  // conn.go:449-456: look up and send without blocking, all under conn.mu.
  function Delivered(s: State, res: Response): State {
    if res.nonce !in s.activeReq then s
    else
      var i := s.activeReq[res.nonce];
      if i in s.closedChans then s.(panicked := true)
      else if i < |s.calls| && s.calls[i].phase.Waiting? then
        s.(calls := s.calls[i := s.calls[i].(phase := Leaving(Got(res)), got := s.calls[i].got + [res])])
      else s
  }

  // A write through bufw: a nil writer panics.
  function Written(s: State): State {
    if s.bufw.None? then s.(panicked := true) else s
  }

  function LoopNext(s: State, e: LoopEvent): Option<State> {
    match e
    case StoreNew => if s.pc.Born? then Some(s.(pc := Setup, curState := Some(StateNew))) else None
    case GetReader(r) => if s.pc.Setup? then Some(s.(pc := NeedWriter, bufr := Some(r))) else None
    case GetWriter(w) => if s.pc.NeedWriter? then Some(s.(pc := Top, bufw := Some(w))) else None
    case CheckShutdown(down) => if s.pc.Top? then Some(s.(pc := if down then Exit else ReadHandle)) else None
    case LoadHandle =>
      if s.pc.ReadHandle? then
        Some(s.(pc := if s.handleFunc.Some? then CheckLaunch(s.handleFunc.value) else ReadLine)) else None
    case LoadLaunch =>
      if s.pc.CheckLaunch? then Some(s.(pc := if s.activeReq == map[] then RunRaw(s.pc.f) else ReadLine)) else None
    case RawReturn(ok) => if s.pc.RunRaw? then Some(s.(pc := if ok then ClearRaw else Exit)) else None
    case ClearHandle => if s.pc.ClearRaw? then Some(s.(pc := Idle, handleFunc := None)) else None
    case Line(kind) =>
      if !s.pc.ReadLine? then None
      else if s.hijacked then Some(s.(pc := Exit))
      else Some(match kind
                case ReadFailed => s.(pc := Exit)
                case EmptyLine => s.(pc := Top)
                case NotRequest => s.(pc := CheckReply)
                case Malformed => s.(pc := SendBad)
                case GoodRequest => s.(pc := Handle, curState := Some(StateActive)))
    case LoadLaunchForReply =>
      if s.pc.CheckReply? then Some(s.(pc := if s.activeReq == map[] then Idle else ParsingReply)) else None
    case ParseReply(res) =>
      if !s.pc.ParsingReply? then None
      else if res.None? then Some(s.(pc := Exit))
      else Some(s.(pc := Deliver(res.value), curState := Some(StateActive)))
    case HandlerReturn => if s.pc.Handle? then Some(s.(pc := CheckMode)) else None
    case Panic => if s.pc.Handle? || s.pc.RunRaw? then Some(s.(pc := Exit)) else None
    case LoadMode => if s.pc.CheckMode? then Some(s.(pc := if s.hijacked || s.closed then Exit else Send)) else None
    case StoreIdle => if s.pc.Idle? then Some(s.(pc := IdleRead, curState := Some(StateIdle))) else None
    case IdleData(ok) => if s.pc.IdleRead? then Some(s.(pc := if ok then Top else Exit)) else None
  }

  function IoNext(s: State, e: IoEvent): Option<State> {
    match e
    case DeliverReply =>
      if s.pc.Deliver? && LockFree(s) then Some(Delivered(s, s.pc.res).(pc := Idle)) else None
    case HandlerWrite =>
      if s.pc.Handle? then Some(if s.hijacked then s else Written(s)) else None
    case SendReply(raw, sent, stop) =>
      if !s.pc.Send? then None
      else
        var t := if raw then s else Written(s);
        Some(t.(pc := if (raw || sent) && !stop then Idle else Exit))
    case SendBadRequest => if s.pc.SendBad? then Some(Written(s).(pc := Exit)) else None
  }

  function EndNext(s: State, e: EndEvent): Option<State> {
    match e
    case SetHijacked =>
      if s.pc.HijackSet? then Some(s.(pc := HijackUntrack, hijacked := true, hijacks := s.hijacks + 1)) else None
    case CancelCtx => if s.pc.Exit? then Some(s.(pc := Final, ctxDone := true)) else None
    case BeginClose =>
      if !s.pc.Final? then None
      else if s.hijacked then Some(s.(pc := Gone))
      else if !LockFree(s) then None
      else Some(s.(pc := CloseUntrack, closed := true, ctxDone := true))
    case Untrack =>
      if s.pc.HijackUntrack? then Some(s.(pc := HijackStore))
      else if s.pc.CloseUntrack? then Some(s.(pc := CloseStore)) else None
    case StoreFinal =>
      if s.pc.HijackStore? then Some(s.(pc := Handle, curState := Some(StateHijacked), bufw := None))
      else if s.pc.CloseStore? then Some(s.(pc := CloseSock, curState := Some(StateClosed))) else None
    case CloseSocket => if s.pc.CloseSock? then Some(s.(pc := CloseFlush)) else None
    case FinalFlush => if s.pc.CloseFlush? then Some(s.(pc := Gone, bufr := None, bufw := None)) else None
  }

  // RawControl (conn.go:63-75) takes no lock: it tests at any time, and stores at any
  // time after that, whatever has happened in between.  A hijack comes from a
  // handler: once its reply is done Hijack refuses (responseWrite.go:167).  Its tests and
  // its setTrue are two steps, conn.go:82-99 and 101.
  function ControlNext(s: State, e: ControlEvent): Option<State> {
    match e
    case RawTest(fn) =>
      if !Ready(s.pc) then None
      else if s.closed || s.hijacked then Some(s)
      else Some(s.(installing := s.installing + multiset{fn}))
    case RawStore(fn) =>
      if fn in s.installing then Some(s.(handleFunc := fn, installing := s.installing - multiset{fn})) else None
    case TryHijack =>
      if !s.pc.Handle? || !LockFree(s) then None
      else if HijackRefusal(s).Some? then Some(s)
      else Some(s.(pc := HijackSet))
  }

  predicate CallIn(s: State, i: CallId, p: Phase) {
    i < |s.calls| && s.calls[i].phase == p
  }

  predicate HolderIn(s: State, p: Phase) {
    s.holder.Some? && CallIn(s, s.holder.value, p)
  }

  function SetPhase(s: State, i: CallId, p: Phase): State
    requires i < |s.calls|
  {
    s.(calls := s.calls[i := s.calls[i].(phase := p)])
  }

  // delete(activeReq, nonce); close(done); conn.go:180-181.
  function Unregistered(s: State, nonce: string, i: CallId): State {
    s.(activeReq := s.activeReq - {nonce}, closedChans := s.closedChans + {i},
       panicked := s.panicked || i in s.closedChans)
  }

  function CallerNext(s: State, e: CallerEvent): Option<State> {
    match e
    case Begin =>
      if !Ready(s.pc) || !LockFree(s) then None
      else if LaunchRefusal(s).Some? then
        Some(s.(calls := s.calls + [Call("", Rejected(LaunchRefusal(s).value), [])]))
      else Some(s.(calls := s.calls + [Call("", Preparing, [])], holder := Some(|s.calls|)))
    case Abandon(err) =>
      if !HolderIn(s, Preparing) || !EndsEarly(err) then None
      else Some(SetPhase(s, s.holder.value, Rejected(err)).(holder := None))
    case Register(draws) =>
      if !HolderIn(s, Preparing) || |draws| != 100 then None
      else
        var i, n := s.holder.value, Pick(draws, s.activeReq.Keys);
        Some(s.(activeReq := s.activeReq[n := i], calls := s.calls[i := Call(n, Writing, [])]))
    case Wrote(ok) =>
      if !HolderIn(s, Writing) then None
      else
        var i, t := s.holder.value, Written(s).(holder := None);
        Some(if ok then SetPhase(t, i, Registered)
             else SetPhase(Unregistered(t, s.calls[i].nonce, i), i, Finished(Failed(ErrWrite))))
    case Enter(i) => if CallIn(s, i, Registered) then Some(SetPhase(s, i, Waiting)) else None
    case GiveUp(i) => if CallIn(s, i, Waiting) then Some(SetPhase(s, i, Leaving(Failed(ErrContext)))) else None
    case SeeClosed(i) =>
      if CallIn(s, i, Waiting) && s.ctxDone then Some(SetPhase(s, i, Leaving(Failed(ErrConnClose)))) else None
    case Return(i) =>
      if i < |s.calls| && s.calls[i].phase.Leaving? && LockFree(s) then
        Some(SetPhase(Unregistered(s, s.calls[i].nonce, i), i, Finished(s.calls[i].phase.o)))
      else None
  }

  function Next(s: State, e: Event): Option<State> {
    match e
    case Loop(l) => LoopNext(s, l)
    case Io(io) => IoNext(s, io)
    case End(d) => EndNext(s, d)
    case Control(ce) => ControlNext(s, ce)
    case Caller(ke) => CallerNext(s, ke)
  }

  // ---- runs ----

  ghost predicate Steps(s: State, es: seq<Event>, t: State)
    decreases |es|
  {
    if es == [] then s == t
    else Next(s, es[0]).Some? && Steps(Next(s, es[0]).value, es[1..], t)
  }

  // ---- safety that needs no assumption on callers ----

  // Every registration belongs to an unfinished call with that very nonce.
  ghost predicate Registrations(reqs: map<string, CallId>, calls: seq<Call>) {
    forall n :: n in reqs ==> reqs[n] < |calls| && calls[reqs[n]].nonce == n && InFlight(calls[reqs[n]].phase)
  }

  // A call has at most one response, with its own nonce, and it is what it returns; its
  // channel is closed exactly when it has finished.
  ghost predicate CallOk(c: Call) {
    match c.phase
    case Leaving(o) => c.got == (if o.Got? then [o.res] else []) && (o.Got? ==> o.res.nonce == c.nonce)
    case Finished(o) => c.got == (if o.Got? then [o.res] else []) && (o.Got? ==> o.res.nonce == c.nonce)
    case _ => c.got == []
  }

  // The lock's holder is the one caller that is Preparing or Writing, and a Writing
  // one is registered.
  ghost predicate HolderOk(holder: Option<CallId>, reqs: map<string, CallId>, calls: seq<Call>) {
    && (holder.Some? ==> holder.value < |calls| && Holding(calls[holder.value].phase))
    && (forall i :: 0 <= i < |calls| && Holding(calls[i].phase) ==> holder == Some(i))
    && (forall i :: 0 <= i < |calls| && calls[i].phase.Writing? ==> calls[i].nonce in reqs && reqs[calls[i].nonce] == i)
  }

  ghost predicate CallsOk(calls: seq<Call>, closedChans: set<CallId>) {
    && (forall i :: 0 <= i < |calls| ==> CallOk(calls[i]))
    && (forall i :: i in closedChans ==> i < |calls|)
    && (forall i :: 0 <= i < |calls| ==> (i in closedChans <==> calls[i].phase.Finished?))
  }

  datatype Zone = Starting | Serving | Handling | Hijacking | Closing | Over

  function ZoneOf(pc: Pc): Zone {
    match pc
    case Born => Starting
    case Setup => Starting
    case NeedWriter => Starting
    case Handle => Handling
    case CheckMode => Handling
    case Exit => Handling
    case Final => Handling
    case HijackUntrack => Hijacking
    case HijackStore => Hijacking
    case CloseUntrack => Closing
    case CloseStore => Closing
    case CloseSock => Closing
    case CloseFlush => Closing
    case Gone => Over
    case _ => Serving
  }

  // Where serve is says who owns the buffers, and that a hijacked connection is never
  // back in the loop: neither reading, nor running a raw function, nor replying.
  ghost predicate ZoneOk(s: State) {
    match ZoneOf(s.pc)
    case Starting =>
      && s.calls == [] && !s.closed && !s.hijacked && s.handleFunc.None? && s.installing == multiset{}
      && s.bufw.None? && (s.bufr.Some? <==> s.pc.NeedWriter?)
    case Serving => !s.closed && !s.hijacked && s.bufr.Some? && s.bufw.Some?
    case Handling => !s.closed && s.bufr.Some? && (s.bufw.None? <==> s.hijacked) && (s.pc.Final? ==> s.ctxDone)
    case Hijacking => !s.closed && s.hijacked && s.bufr.Some? && s.bufw.Some?
    case Closing => s.closed && s.ctxDone && s.bufr.Some? && s.bufw.Some? && !s.hijacked
    case Over =>
      && s.ctxDone && (s.closed <==> !s.hijacked)
      && (s.closed ==> s.bufr.None? && s.bufw.None?)
      && (s.hijacked ==> s.bufr.Some? && s.bufw.None?)
  }

  // A hijack happens once, with nothing registered, and from its tests on, as after a
  // close, no caller holds the lock between its steps.
  ghost predicate ModeOk(s: State) {
    && s.hijacks == (if s.hijacked then 1 else 0)
    && (s.hijacked || s.pc.HijackSet? ==> s.activeReq == map[])
    && (s.hijacked || s.pc.HijackSet? || s.closed ==> s.holder.None?)
    && ZoneOk(s)
  }

  ghost predicate Safe(s: State) {
    && Registrations(s.activeReq, s.calls) && CallsOk(s.calls, s.closedChans)
    && HolderOk(s.holder, s.activeReq, s.calls) && ModeOk(s) && !s.panicked
  }

  // What concerns the callers alone.
  predicate SameCallers(s: State, t: State) {
    && t.activeReq == s.activeReq && t.calls == s.calls && t.closedChans == s.closedChans
    && t.holder == s.holder && t.panicked == s.panicked
  }

  // And what concerns serve alone.
  predicate SameServe(s: State, t: State) {
    t == s.(holder := t.holder, activeReq := t.activeReq, calls := t.calls, closedChans := t.closedChans,
            panicked := t.panicked)
  }

  lemma BeginKeepsServe(s: State)
    requires CallerNext(s, Begin).Some?
    ensures SameServe(s, CallerNext(s, Begin).value)
  {
  }

  lemma AbandonKeepsServe(s: State, err: Error)
    requires CallerNext(s, Abandon(err)).Some?
    ensures SameServe(s, CallerNext(s, Abandon(err)).value)
  {
  }

  lemma RegisterKeepsServe(s: State, draws: seq<string>)
    requires CallerNext(s, Register(draws)).Some?
    ensures SameServe(s, CallerNext(s, Register(draws)).value)
  {
  }

  lemma WroteKeepsServe(s: State, ok: bool)
    requires CallerNext(s, Wrote(ok)).Some?
    ensures SameServe(s, CallerNext(s, Wrote(ok)).value)
  {
  }

  lemma CallerKeepsServe(s: State, e: CallerEvent)
    requires CallerNext(s, e).Some?
    ensures SameServe(s, CallerNext(s, e).value)
  {
    match e
    case Begin => BeginKeepsServe(s);
    case Abandon(err) => AbandonKeepsServe(s, err);
    case Register(draws) => RegisterKeepsServe(s, draws);
    case Wrote(ok) => WroteKeepsServe(s, ok);
    case _ =>
  }

  // Only callers and deliveries touch the former.
  lemma LoopKeepsCallers(s: State, e: LoopEvent)
    requires LoopNext(s, e).Some?
    ensures SameCallers(s, LoopNext(s, e).value)
  {
  }

  lemma IoKeepsCallers(s: State, e: IoEvent)
    requires Safe(s) && IoNext(s, e).Some? && !e.DeliverReply?
    ensures SameCallers(s, IoNext(s, e).value)
  {
  }

  lemma EndKeepsCallers(s: State, e: EndEvent)
    requires EndNext(s, e).Some?
    ensures SameCallers(s, EndNext(s, e).value)
  {
  }

  lemma OthersKeepCallers(s: State, e: Event)
    requires Safe(s) && Next(s, e).Some? && !e.Caller? && e != Io(DeliverReply)
    ensures SameCallers(s, Next(s, e).value)
  {
    match e
    case Loop(l) => LoopKeepsCallers(s, l);
    case Io(io) => IoKeepsCallers(s, io);
    case End(d) => EndKeepsCallers(s, d);
    case Control(c) => ControlKeepsCallers(s, c);
  }

  lemma ControlKeepsCallers(s: State, e: ControlEvent)
    requires ControlNext(s, e).Some?
    ensures SameCallers(s, ControlNext(s, e).value)
  {
  }

  // Delivery finds an unfinished call with the reply's own nonce, whose channel is open.
  lemma DeliverKeepsCalls(s: State, res: Response)
    requires Safe(s)
    ensures var t := Delivered(s, res);
      && Registrations(t.activeReq, t.calls) && CallsOk(t.calls, t.closedChans) && !t.panicked
      && HolderOk(t.holder, t.activeReq, t.calls) && t == s.(calls := t.calls)
  {
    if res.nonce in s.activeReq {
      var i := s.activeReq[res.nonce];
      assert i !in s.closedChans && s.calls[i].nonce == res.nonce;
    }
  }

  lemma LoopKeepsSafe(s: State, e: LoopEvent)
    requires Safe(s) && LoopNext(s, e).Some?
    ensures Safe(LoopNext(s, e).value)
  {
    LoopKeepsCallers(s, e);
    if ZoneOf(s.pc) == Starting { StartKeepsMode(s, e); } else { LoopKeepsMode(s, e); }
  }

  lemma StartKeepsMode(s: State, e: LoopEvent)
    requires ModeOk(s) && ZoneOf(s.pc) == Starting && LoopNext(s, e).Some?
    ensures ModeOk(LoopNext(s, e).value)
  {
  }

  lemma ServingGoesTo(s: State, e: LoopEvent)
    requires ZoneOf(s.pc) == Serving && LoopNext(s, e).Some?
    ensures var pc := LoopNext(s, e).value.pc;
      (ZoneOf(pc) == Serving || ZoneOf(pc) == Handling) && !pc.Final? && !pc.HijackSet?
  {
    match e
    case CheckShutdown(_) =>
    case LoadHandle =>
    case LoadLaunch =>
    case RawReturn(_) =>
    case Line(kind) =>
      match kind {
        case ReadFailed =>
        case EmptyLine =>
        case NotRequest =>
        case Malformed =>
        case GoodRequest =>
      }
    case _ =>
  }

  lemma ServingKeepsRest(s: State, e: LoopEvent)
    requires ZoneOf(s.pc) == Serving && LoopNext(s, e).Some?
    ensures var t := LoopNext(s, e).value;
      && t.closed == s.closed && t.hijacked == s.hijacked && t.hijacks == s.hijacks
      && t.bufr == s.bufr && t.bufw == s.bufw
  {
  }

  lemma ServingKeepsMode(s: State, e: LoopEvent)
    requires ModeOk(s) && ZoneOf(s.pc) == Serving && LoopNext(s, e).Some?
    ensures ModeOk(LoopNext(s, e).value)
  {
    ServingGoesTo(s, e);
    ServingKeepsRest(s, e);
    LoopKeepsCallers(s, e);
  }

  lemma LoopKeepsMode(s: State, e: LoopEvent)
    requires ModeOk(s) && ZoneOf(s.pc) != Starting && LoopNext(s, e).Some?
    ensures ModeOk(LoopNext(s, e).value)
  {
    if ZoneOf(s.pc) == Serving { ServingKeepsMode(s, e); }
  }

  lemma IoKeepsSafe(s: State, e: IoEvent)
    requires Safe(s) && IoNext(s, e).Some?
    ensures Safe(IoNext(s, e).value)
  {
    if e.DeliverReply? { DeliverKeepsCalls(s, s.pc.res); } else { IoKeepsCallers(s, e); }
  }

  lemma SetHijackedKeepsMode(s: State, e: EndEvent)
    requires ModeOk(s) && ZoneOf(s.pc) == Serving && EndNext(s, e).Some?
    ensures ModeOk(EndNext(s, e).value)
  {
  }

  lemma HijackEndKeepsMode(s: State, e: EndEvent)
    requires ModeOk(s) && ZoneOf(s.pc) == Hijacking && EndNext(s, e).Some?
    ensures ModeOk(EndNext(s, e).value)
  {
  }

  lemma ExitKeepsMode(s: State, e: EndEvent)
    requires ModeOk(s) && ZoneOf(s.pc) == Handling && EndNext(s, e).Some?
    ensures ModeOk(EndNext(s, e).value)
  {
  }

  lemma CloseKeepsMode(s: State, e: EndEvent)
    requires ModeOk(s) && ZoneOf(s.pc) == Closing && EndNext(s, e).Some?
    ensures ModeOk(EndNext(s, e).value)
  {
  }

  lemma EndKeepsSafe(s: State, e: EndEvent)
    requires Safe(s) && EndNext(s, e).Some?
    ensures Safe(EndNext(s, e).value)
  {
    EndKeepsCallers(s, e);
    match ZoneOf(s.pc)
    case Hijacking => HijackEndKeepsMode(s, e);
    case Handling => ExitKeepsMode(s, e);
    case Serving => SetHijackedKeepsMode(s, e);
    case _ => CloseKeepsMode(s, e);
  }

  lemma ControlKeepsSafe(s: State, e: ControlEvent)
    requires Safe(s) && ControlNext(s, e).Some?
    ensures Safe(ControlNext(s, e).value)
  {
    ControlKeepsCallers(s, e);
  }

  lemma PhaseKeepsCalls(s: State, i: CallId, p: Phase)
    requires Safe(s) && i < |s.calls| && i !in s.closedChans
    requires CallOk(s.calls[i].(phase := p)) && InFlight(p) && InFlight(s.calls[i].phase)
    requires !Holding(p) && !Holding(s.calls[i].phase)
    ensures Safe(SetPhase(s, i, p))
  {
    var t := SetPhase(s, i, p);
    assert Registrations(t.activeReq, t.calls) && CallsOk(t.calls, t.closedChans);
  }

  lemma ReturnKeepsCalls(s: State, i: CallId)
    requires Safe(s) && i < |s.calls| && s.calls[i].phase.Leaving? && s.holder.None?
    ensures Safe(SetPhase(Unregistered(s, s.calls[i].nonce, i), i, Finished(s.calls[i].phase.o)))
  {
    var t := SetPhase(Unregistered(s, s.calls[i].nonce, i), i, Finished(s.calls[i].phase.o));
    assert Registrations(t.activeReq, t.calls) && CallsOk(t.calls, t.closedChans);
  }

  lemma AppendKeepsCalls(reqs: map<string, CallId>, calls: seq<Call>, closedChans: set<CallId>, c: Call)
    requires Registrations(reqs, calls) && CallsOk(calls, closedChans) && HolderOk(None, reqs, calls)
    requires c.got == [] && (c.phase.Rejected? || c.phase.Preparing?)
    ensures Registrations(reqs, calls + [c]) && CallsOk(calls + [c], closedChans)
    ensures HolderOk(if c.phase.Preparing? then Some(|calls|) else None, reqs, calls + [c])
  {
    assert |calls| !in closedChans;
  }

  lemma BeginKeepsSafe(s: State)
    requires Safe(s) && CallerNext(s, Begin).Some?
    ensures Safe(CallerNext(s, Begin).value)
  {
    var t := CallerNext(s, Begin).value;
    AppendKeepsCalls(s.activeReq, s.calls, s.closedChans, t.calls[|s.calls|]);
    assert ModeOk(t);
  }

  lemma AbandonKeepsSafe(s: State, err: Error)
    requires Safe(s) && CallerNext(s, Abandon(err)).Some?
    ensures Safe(CallerNext(s, Abandon(err)).value)
  {
    var t := CallerNext(s, Abandon(err)).value;
    assert Registrations(t.activeReq, t.calls) && CallsOk(t.calls, t.closedChans);
  }

  lemma RegisterKeepsSafe(s: State, draws: seq<string>)
    requires Safe(s) && CallerNext(s, Register(draws)).Some?
    ensures Safe(CallerNext(s, Register(draws)).value)
  {
    var t := CallerNext(s, Register(draws)).value;
    assert Registrations(t.activeReq, t.calls) && CallsOk(t.calls, t.closedChans);
    assert HolderOk(t.holder, t.activeReq, t.calls);
  }

  lemma WroteKeepsSafe(s: State, ok: bool)
    requires Safe(s) && CallerNext(s, Wrote(ok)).Some?
    ensures Safe(CallerNext(s, Wrote(ok)).value)
  {
    var t := CallerNext(s, Wrote(ok)).value;
    assert Written(s) == s;
    assert Registrations(t.activeReq, t.calls) && CallsOk(t.calls, t.closedChans);
    assert HolderOk(t.holder, t.activeReq, t.calls);
  }

  lemma CallerKeepsSafe(s: State, e: CallerEvent)
    requires Safe(s) && CallerNext(s, e).Some?
    ensures Safe(CallerNext(s, e).value)
  {
    match e
    case Begin => BeginKeepsSafe(s);
    case Abandon(err) => AbandonKeepsSafe(s, err);
    case Register(draws) => RegisterKeepsSafe(s, draws);
    case Wrote(ok) => WroteKeepsSafe(s, ok);
    case Enter(i) => PhaseKeepsCalls(s, i, Waiting);
    case GiveUp(i) => PhaseKeepsCalls(s, i, Leaving(Failed(ErrContext)));
    case SeeClosed(i) => PhaseKeepsCalls(s, i, Leaving(Failed(ErrConnClose)));
    case Return(i) => ReturnKeepsCalls(s, i);
  }

  lemma NextKeepsSafe(s: State, e: Event)
    requires Safe(s) && Next(s, e).Some?
    ensures Safe(Next(s, e).value)
  {
    match e
    case Loop(l) => LoopKeepsSafe(s, l);
    case Io(io) => IoKeepsSafe(s, io);
    case End(d) => EndKeepsSafe(s, d);
    case Control(c) => ControlKeepsSafe(s, c);
    case Caller(k) => CallerKeepsSafe(s, k);
  }

  // Whatever the callers draw and whenever they act, no run sends on or closes a
  // closed channel or writes through a missing writer; every caller gets at most
  // one response, carrying its own nonce; at most one hijack succeeds and from
  // then on nothing is registered.
  lemma {:induction false} EveryRunIsSafe(s: State, es: seq<Event>, t: State)
    requires Safe(s) && Steps(s, es, t)
    ensures Safe(t)
    decreases |es|
  {
    if es != [] {
      NextKeepsSafe(s, es[0]);
      EveryRunIsSafe(Next(s, es[0]).value, es[1..], t);
    }
  }

  // ---- activeReq is exactly the unfinished calls ----

  // With Registrations: activeReq holds exactly the unfinished calls, one to one.
  ghost predicate Exact(reqs: map<string, CallId>, calls: seq<Call>) {
    forall i :: 0 <= i < |calls| && InFlight(calls[i].phase) ==> calls[i].nonce in reqs && reqs[calls[i].nonce] == i
  }

  ghost predicate NoneInFlight(calls: seq<Call>) {
    forall i :: 0 <= i < |calls| ==> !InFlight(calls[i].phase)
  }

  // One of the hundred draws is unused.
  ghost predicate FreshDraw(s: State, e: Event) {
    match e
    case Caller(Register(draws)) => exists d :: d in draws && d !in s.activeReq
    case _ => true
  }

  ghost predicate FreshRun(s: State, es: seq<Event>)
    decreases |es|
  {
    es == [] ||
    (FreshDraw(s, es[0]) && (Next(s, es[0]).Some? ==> FreshRun(Next(s, es[0]).value, es[1..])))
  }

  // Calls that end, or that were not in flight, leave the others' registrations alone.
  lemma FewerFlights(reqs: map<string, CallId>, calls: seq<Call>, later: seq<Call>)
    requires Exact(reqs, calls)
    requires forall i :: 0 <= i < |later| && InFlight(later[i].phase) ==>
      i < |calls| && InFlight(calls[i].phase) && later[i].nonce == calls[i].nonce
    ensures Exact(reqs, later)
  {
  }

  lemma RemoveKeepsExact(reqs: map<string, CallId>, calls: seq<Call>, i: CallId, c: Call)
    requires Exact(reqs, calls) && i < |calls| && InFlight(calls[i].phase) && !InFlight(c.phase)
    ensures Exact(reqs - {calls[i].nonce}, calls[i := c])
  {
  }

  lemma RegisterKeepsExact(s: State, draws: seq<string>)
    requires Safe(s) && Exact(s.activeReq, s.calls) && CallerNext(s, Register(draws)).Some?
    requires exists d :: d in draws && d !in s.activeReq
    ensures var t := CallerNext(s, Register(draws)).value; Exact(t.activeReq, t.calls)
  {
    assert exists d :: d in draws && d !in s.activeReq.Keys;
  }

  lemma PhaseKeepsExact(s: State, i: CallId, p: Phase)
    requires Exact(s.activeReq, s.calls) && i < |s.calls| && (InFlight(p) ==> InFlight(s.calls[i].phase))
    ensures Exact(s.activeReq, SetPhase(s, i, p).calls)
  {
    FewerFlights(s.activeReq, s.calls, SetPhase(s, i, p).calls);
  }

  lemma CallerKeepsExact(s: State, e: CallerEvent)
    requires Safe(s) && Exact(s.activeReq, s.calls) && CallerNext(s, e).Some? && FreshDraw(s, Caller(e))
    ensures var t := CallerNext(s, e).value; Exact(t.activeReq, t.calls)
  {
    var t := CallerNext(s, e).value;
    match e
    case Register(draws) => RegisterKeepsExact(s, draws);
    case Wrote(ok) =>
      var i := s.holder.value;
      if ok { PhaseKeepsExact(s, i, Registered); } else { RemoveKeepsExact(s.activeReq, s.calls, i, t.calls[i]); }
    case Return(i) => RemoveKeepsExact(s.activeReq, s.calls, i, t.calls[i]);
    case Begin => FewerFlights(s.activeReq, s.calls, t.calls);
    case Abandon(err) => PhaseKeepsExact(s, s.holder.value, Rejected(err));
    case Enter(i) => PhaseKeepsExact(s, i, Waiting);
    case GiveUp(i) => PhaseKeepsExact(s, i, Leaving(Failed(ErrContext)));
    case SeeClosed(i) => PhaseKeepsExact(s, i, Leaving(Failed(ErrConnClose)));
  }

  lemma NextKeepsExact(s: State, e: Event)
    requires Safe(s) && Exact(s.activeReq, s.calls) && FreshDraw(s, e) && Next(s, e).Some?
    ensures var t := Next(s, e).value; Exact(t.activeReq, t.calls)
  {
    if e.Caller? {
      CallerKeepsExact(s, e.k);
    } else if e == Io(DeliverReply) {
      FewerFlights(s.activeReq, s.calls, Delivered(s, s.pc.res).calls);
    } else {
      OthersKeepCallers(s, e);
    }
  }

  // As long as each launch has one unused draw, activeReq is exactly the set of
  // unfinished calls on every run.
  lemma {:induction false} EveryFreshRunIsExact(s: State, es: seq<Event>, t: State)
    requires Safe(s) && Exact(s.activeReq, s.calls) && FreshRun(s, es) && Steps(s, es, t)
    ensures Exact(t.activeReq, t.calls)
    decreases |es|
  {
    if es != [] {
      NextKeepsSafe(s, es[0]);
      NextKeepsExact(s, es[0]);
      EveryFreshRunIsExact(Next(s, es[0]).value, es[1..], t);
    }
  }

  lemma InitIsSafe()
    ensures Safe(Init()) && Exact(Init().activeReq, Init().calls)
  {
  }

  // A registration whose hundred draws are all taken orphans another caller.
  lemma RegisterExactIffFresh(s: State, draws: seq<string>)
    requires Safe(s) && Exact(s.activeReq, s.calls) && HolderIn(s, Preparing) && |draws| == 100
    ensures CallerNext(s, Register(draws)).Some?
    ensures var t := CallerNext(s, Register(draws)).value;
      Exact(t.activeReq, t.calls) <==> exists d :: d in draws && d !in s.activeReq
  {
    var t := CallerNext(s, Register(draws)).value;
    var n := Pick(draws, s.activeReq.Keys);
    if exists d :: d in draws && d !in s.activeReq {
      RegisterKeepsExact(s, draws);
    } else {
      assert forall d :: d in draws ==> d in s.activeReq.Keys;
      var i := s.activeReq[n];
      assert t.calls[i] == s.calls[i] && InFlight(t.calls[i].phase);
    }
  }

  // The write's outcome makes no difference to that.
  lemma WroteKeepsExactness(s: State, ok: bool)
    requires Safe(s) && HolderIn(s, Writing)
    ensures CallerNext(s, Wrote(ok)).Some?
    ensures var t := CallerNext(s, Wrote(ok)).value; Exact(t.activeReq, t.calls) <==> Exact(s.activeReq, s.calls)
  {
    var t := CallerNext(s, Wrote(ok)).value;
    if Exact(s.activeReq, s.calls) {
      CallerKeepsExact(s, Wrote(ok));
    } else {
      var i :| 0 <= i < |s.calls| && InFlight(s.calls[i].phase)
        && !(s.calls[i].nonce in s.activeReq && s.activeReq[s.calls[i].nonce] == i);
      assert i != s.holder.value && t.calls[i] == s.calls[i];
    }
  }

  // The unused draw is exactly what keeps the registrations exact: it is not repaired
  // when the launch's write fails and takes its own registration back.
  lemma LaunchExactIffFresh(s: State, draws: seq<string>, ok: bool)
    requires Safe(s) && Exact(s.activeReq, s.calls) && HolderIn(s, Preparing) && |draws| == 100
    ensures CallerNext(s, Register(draws)).Some?
    ensures CallerNext(CallerNext(s, Register(draws)).value, Wrote(ok)).Some?
    ensures var u := CallerNext(CallerNext(s, Register(draws)).value, Wrote(ok)).value;
      Exact(u.activeReq, u.calls) <==> exists d :: d in draws && d !in s.activeReq
  {
    RegisterExactIffFresh(s, draws);
    RegisterKeepsSafe(s, draws);
    WroteKeepsExactness(CallerNext(s, Register(draws)).value, ok);
  }

  // A reply reaches exactly the call that waits for its nonce; a duplicate, late or
  // unknown reply, or one that finds its caller not yet in the select, changes nothing.
  lemma DeliveryReachesTheWaiting(s: State, res: Response)
    requires Safe(s) && Exact(s.activeReq, s.calls)
    ensures var t := Delivered(s, res);
      && |t.calls| == |s.calls|
      && forall i :: 0 <= i < |s.calls| ==>
           t.calls[i] == (if s.calls[i].phase.Waiting? && s.calls[i].nonce == res.nonce
                          then Call(res.nonce, Leaving(Got(res)), [res]) else s.calls[i])
  {
    if res.nonce in s.activeReq {
      var i := s.activeReq[res.nonce];
      assert i !in s.closedChans && s.calls[i].nonce == res.nonce;
    }
  }

  // The first successful hijack is the last, and nothing registers after it.
  lemma {:induction false} HijackIsForever(s: State, es: seq<Event>, t: State)
    requires Safe(s) && s.hijacked && Steps(s, es, t)
    ensures t.hijacked && t.hijacks == 1 && t.activeReq == map[]
    decreases |es|
  {
    if es != [] {
      NextKeepsSafe(s, es[0]);
      HijackStays(s, es[0]);
      HijackIsForever(Next(s, es[0]).value, es[1..], t);
    }
  }

  lemma HijackStays(s: State, e: Event)
    requires s.hijacked && Next(s, e).Some?
    ensures Next(s, e).value.hijacked
  {
    match e
    case Loop(_) =>
    case Io(_) =>
    case End(_) =>
    case Control(_) =>
    case Caller(_) =>
  }

  // ---- what callers and the server are told ----

  // Serve is between reading a request and having answered it, or is delivering.
  predicate Answering(pc: Pc) {
    pc.Handle? || pc.CheckMode? || pc.Send? || pc.Deliver?
    || pc.HijackSet? || pc.HijackUntrack? || pc.HijackStore?
  }

  // An error a caller returns is true: ErrConnClose only when the connection's context
  // is done, ErrHijacked only after a hijack.
  predicate HonestError(e: Error, ctxDone: bool, hijacked: bool) {
    (e == ErrConnClose ==> ctxDone) && (e == ErrHijacked ==> hijacked)
  }

  predicate HonestPhase(p: Phase, ctxDone: bool, hijacked: bool) {
    match p
    case Rejected(e) => HonestError(e, ctxDone, hijacked)
    case Leaving(Failed(e)) => HonestError(e, ctxDone, hijacked)
    case Finished(Failed(e)) => HonestError(e, ctxDone, hijacked)
    case _ => true
  }

  ghost predicate HonestCalls(calls: seq<Call>, ctxDone: bool, hijacked: bool) {
    forall i :: 0 <= i < |calls| ==> HonestPhase(calls[i].phase, ctxDone, hijacked)
  }

  // The state that closeIdleConns reads says Idle only when serve is not answering.
  ghost predicate Telling(s: State) {
    && HonestCalls(s.calls, s.ctxDone, s.hijacked)
    && (s.curState == Some(StateIdle) ==> !Answering(s.pc))
    && (s.pc.IdleRead? ==> s.curState == Some(StateIdle))
  }

  lemma LoopKeepsTelling(s: State, e: LoopEvent)
    requires Safe(s) && Telling(s) && LoopNext(s, e).Some?
    ensures Telling(LoopNext(s, e).value)
  {
    var t := LoopNext(s, e).value;
    assert t.calls == s.calls && t.ctxDone == s.ctxDone && t.hijacked == s.hijacked;
  }

  lemma IoKeepsTelling(s: State, e: IoEvent)
    requires Safe(s) && Telling(s) && IoNext(s, e).Some?
    ensures Telling(IoNext(s, e).value)
  {
  }

  lemma EndKeepsTelling(s: State, e: EndEvent)
    requires Safe(s) && Telling(s) && EndNext(s, e).Some?
    ensures Telling(EndNext(s, e).value)
  {
  }

  // A caller's step changes or adds one call.
  lemma OneCallKeepsTelling(s: State, t: State, i: CallId)
    requires forall j :: 0 <= j < |t.calls| && j != i ==> j < |s.calls| && t.calls[j] == s.calls[j]
    requires i < |t.calls| && HonestPhase(t.calls[i].phase, s.ctxDone, s.hijacked)
    requires t.ctxDone == s.ctxDone && t.hijacked == s.hijacked && t.curState == s.curState && t.pc == s.pc
    requires Telling(s)
    ensures Telling(t)
  {
  }

  lemma BeginKeepsTelling(s: State)
    requires Safe(s) && Telling(s) && CallerNext(s, Begin).Some?
    ensures Telling(CallerNext(s, Begin).value)
  {
    OneCallKeepsTelling(s, CallerNext(s, Begin).value, |s.calls|);
  }

  lemma HolderKeepsTelling(s: State, e: CallerEvent)
    requires Safe(s) && Telling(s) && CallerNext(s, e).Some? && (e.Abandon? || e.Register? || e.Wrote?)
    ensures Telling(CallerNext(s, e).value)
  {
    CallerKeepsServe(s, e);
    HolderTouchesOne(s, e);
    OneCallKeepsTelling(s, CallerNext(s, e).value, s.holder.value);
  }

  lemma HolderTouchesOne(s: State, e: CallerEvent)
    requires CallerNext(s, e).Some? && (e.Abandon? || e.Register? || e.Wrote?)
    ensures var t := CallerNext(s, e).value; var h := s.holder.value;
      && h < |s.calls| == |t.calls| && t.calls == s.calls[h := t.calls[h]]
      && HonestPhase(t.calls[h].phase, s.ctxDone, s.hijacked)
  {
    match e
    case Abandon(_) =>
    case Register(_) =>
    case Wrote(_) =>
  }

  lemma WaiterKeepsTelling(s: State, e: CallerEvent)
    requires Safe(s) && Telling(s) && CallerNext(s, e).Some? && (e.Enter? || e.GiveUp? || e.SeeClosed? || e.Return?)
    ensures Telling(CallerNext(s, e).value)
  {
    OneCallKeepsTelling(s, CallerNext(s, e).value, e.i);
  }

  lemma CallerKeepsTelling(s: State, e: CallerEvent)
    requires Safe(s) && Telling(s) && CallerNext(s, e).Some?
    ensures Telling(CallerNext(s, e).value)
  {
    if e.Begin? {
      BeginKeepsTelling(s);
    } else if e.Abandon? || e.Register? || e.Wrote? {
      HolderKeepsTelling(s, e);
    } else {
      WaiterKeepsTelling(s, e);
    }
  }

  lemma NextKeepsTelling(s: State, e: Event)
    requires Safe(s) && Telling(s) && Next(s, e).Some?
    ensures Telling(Next(s, e).value)
  {
    match e
    case End(d) => EndKeepsTelling(s, d);
    case Control(_) =>
    case Caller(k) => CallerKeepsTelling(s, k);
    case Loop(l) => LoopKeepsTelling(s, l);
    case Io(io) => IoKeepsTelling(s, io);
  }

  lemma {:induction false} EveryRunIsTelling(s: State, es: seq<Event>, t: State)
    requires Safe(s) && Telling(s) && Steps(s, es, t)
    ensures Telling(t)
    decreases |es|
  {
    if es != [] {
      NextKeepsSafe(s, es[0]);
      NextKeepsTelling(s, es[0]);
      EveryRunIsTelling(Next(s, es[0]).value, es[1..], t);
    }
  }

  // ---- the state shown between turns ----

  // Serve is setting up, at the loop's head, reading a line or running a raw function.
  predicate BetweenTurns(pc: Pc) {
    || pc.Setup? || pc.NeedWriter? || pc.Top? || pc.ReadHandle? || pc.CheckLaunch? || pc.RunRaw? || pc.ClearRaw?
    || pc.ReadLine? || pc.CheckReply? || pc.ParsingReply? || pc.SendBad?
  }

  // What the stored state says of the past: Idle once idleWait has been entered, and
  // between turns New before that.
  predicate Remembers(s: State, everIdle: bool) {
    && (!everIdle ==> s.curState != Some(StateIdle))
    && (everIdle ==> !s.pc.Born? && s.curState.Some? && s.curState != Some(StateNew))
    && (BetweenTurns(s.pc) ==> s.curState == Some(StateNew) || s.curState == Some(StateIdle))
  }

  lemma LoopRemembers(s: State, e: LoopEvent, was: bool)
    requires Remembers(s, was) && LoopNext(s, e).Some? && (s.pc.IdleRead? ==> s.curState == Some(StateIdle))
    ensures Remembers(LoopNext(s, e).value, was || e.StoreIdle?)
  {
    match e
    case StoreNew =>
    case StoreIdle =>
    case Line(_) =>
    case ParseReply(_) =>
    case IdleData(_) =>
    case _ => OtherLoopKeepsState(s, e);
  }

  lemma OtherLoopKeepsState(s: State, e: LoopEvent)
    requires LoopNext(s, e).Some?
    requires !e.StoreNew? && !e.StoreIdle? && !e.Line? && !e.ParseReply? && !e.IdleData?
    ensures var t := LoopNext(s, e).value;
      t.curState == s.curState && !s.pc.Born? && !t.pc.Born? && (BetweenTurns(t.pc) ==> BetweenTurns(s.pc))
  {
  }

  lemma NextRemembers(s: State, e: Event, was: bool)
    requires Remembers(s, was) && Next(s, e).Some? && (s.pc.IdleRead? ==> s.curState == Some(StateIdle))
    ensures Remembers(Next(s, e).value, was || e == Loop(StoreIdle))
  {
    match e
    case Loop(l) => LoopRemembers(s, l, was);
    case Io(io) => IoKeepsState(s, io);
    case End(d) => EndRemembers(s, d, was);
    case Control(c) => ControlKeepsState(s, c);
    case Caller(k) => CallerKeepsServe(s, k);
  }

  lemma IoKeepsState(s: State, e: IoEvent)
    requires IoNext(s, e).Some?
    ensures var t := IoNext(s, e).value;
      t.curState == s.curState && !s.pc.Born? && !t.pc.Born? && (BetweenTurns(t.pc) ==> BetweenTurns(s.pc))
  {
  }

  lemma EndRemembers(s: State, e: EndEvent, was: bool)
    requires Remembers(s, was) && EndNext(s, e).Some?
    ensures Remembers(EndNext(s, e).value, was)
  {
  }

  lemma ControlKeepsState(s: State, e: ControlEvent)
    requires ControlNext(s, e).Some?
    ensures var t := ControlNext(s, e).value;
      t.curState == s.curState && (t.pc == s.pc || (s.pc.Handle? && t.pc.HijackSet?))
  {
  }

  lemma {:induction false} EveryRunRemembers(s: State, es: seq<Event>, t: State, was: bool)
    requires Safe(s) && Telling(s) && Remembers(s, was) && Steps(s, es, t)
    ensures Remembers(t, was || Loop(StoreIdle) in es)
    decreases |es|
  {
    if es != [] {
      var u := Next(s, es[0]).value;
      NextKeepsSafe(s, es[0]);
      NextKeepsTelling(s, es[0]);
      NextRemembers(s, es[0], was);
      EveryRunRemembers(u, es[1..], t, was || es[0] == Loop(StoreIdle));
    }
  }

  // While a raw function runs the connection shows Idle if it has ever been idle, and New
  // if it has not: never Active.
  lemma RawFunctionShows(es: seq<Event>, t: State)
    requires Steps(Init(), es, t) && t.pc.RunRaw?
    ensures t.curState == Some(if Loop(StoreIdle) in es then StateIdle else StateNew)
  {
    InitIsSafe();
    EveryRunRemembers(Init(), es, t, false);
  }

  lemma StepThen(s: State, e: Event, u: State, es: seq<Event>, t: State)
    requires Next(s, e) == Some(u) && Steps(u, es, t)
    ensures Steps(s, [e] + es, t)
  {
    assert ([e] + es)[1..] == es;
  }

  // The facts a maintainer would look up, spelled out for a run from the start.
  lemma RunFacts(es: seq<Event>, t: State)
    requires Steps(Init(), es, t)
    ensures !t.panicked && t.hijacks <= 1
    ensures forall i :: 0 <= i < |t.calls| ==>
      |t.calls[i].got| <= 1 && forall r :: r in t.calls[i].got ==> r.nonce == t.calls[i].nonce
    ensures forall n :: n in t.activeReq ==> t.activeReq[n] !in t.closedChans
    ensures Ready(t.pc) && !t.closed && !t.hijacked ==> t.bufw.Some?
    ensures t.pc.CheckLaunch? || t.pc.RunRaw? || t.pc.ClearRaw? ==> !t.hijacked
  {
    InitIsSafe();
    EveryRunIsSafe(Init(), es, t);
    forall i | 0 <= i < |t.calls|
      ensures |t.calls[i].got| <= 1 && forall r :: r in t.calls[i].got ==> r.nonce == t.calls[i].nonce
    {
      assert CallOk(t.calls[i]);
    }
  }
}
