// Linear ownership of the pooled buffers of func.go:252-304 over every run of the
// server: each is in one pool, or with one connection, or with one hijacker, or with
// one parser call, and goes back at most once and to its own size class.
module Buffers {
  import opened Basics
  import opened ConnProtocol
  import opened World

  // Outside the pools: a connection's reader or writer, the reader a hijacker took
  // over (conn.go:115), or the reader of a readRequest or readResponse call.
  datatype Place = ConnReader(c: ConnId) | ConnWriter(c: ConnId) | Hijacker(c: ConnId) | Parser(t: ThreadId)

  function HeldAt(conns: map<ConnId, State>, temps: map<ThreadId, Buf>, p: Place): Option<Buf> {
    match p
    case ConnReader(c) => if c in conns && !conns[c].hijacked then conns[c].bufr else None
    case ConnWriter(c) => if c in conns then conns[c].bufw else None
    case Hijacker(c) => if c in conns && conns[c].hijacked then conns[c].bufr else None
    case Parser(t) => if t in temps then Some(temps[t]) else None
  }

  predicate FitsPlace(p: Place, b: Buf) {
    if p.ConnWriter? then b.Writer? && b.size == WRITER_SIZE else b.Reader?
  }

  function Count(p: Pools, b: Buf): nat {
    p.readers[b] + p.w2k[b] + p.w4k[b]
  }

  // No pool holds a buffer twice, nor a buffer of another class, nor an unmade one.
  ghost predicate PoolsOk(p: Pools, nextBuf: nat) {
    && (forall b :: Count(p, b) <= 1 && (Count(p, b) > 0 ==> b.id < nextBuf))
    && (forall b :: b in p.readers ==> b.Reader?)
    && (forall b :: b in p.w2k ==> b.Writer? && b.size == 2048)
    && (forall b :: b in p.w4k ==> b.Writer? && b.size == 4096)
  }

  ghost predicate HoldersOk(conns: map<ConnId, State>, temps: map<ThreadId, Buf>, p: Pools, nextBuf: nat) {
    && (forall x :: HeldAt(conns, temps, x).Some? ==>
          var b := HeldAt(conns, temps, x).value;
          FitsPlace(x, b) && b.id < nextBuf && Count(p, b) == 0)
    && (forall x, y :: HeldAt(conns, temps, x).Some? && HeldAt(conns, temps, x) == HeldAt(conns, temps, y) ==> x == y)
  }

  ghost predicate Linear(w: World) {
    PoolsOk(w.pools, w.nextBuf) && HoldersOk(w.conns, w.temps, w.pools, w.nextBuf)
  }

  // ---- moves of one buffer ----

  lemma PutKeepsPools(p: Pools, nextBuf: nat, b: Buf, x: Place)
    requires PoolsOk(p, nextBuf) && FitsPlace(x, b) && b.id < nextBuf && Count(p, b) == 0
    ensures var q := if b.Reader? then PutReader(p, b) else PutWriter(p, b);
      PoolsOk(q, nextBuf) && forall d :: Count(q, d) == Count(p, d) + (if d == b then 1 else 0)
  {
  }

  // Holders v are holders u, less whatever they gave back.
  lemma LeaveKeepsHolders(c1: map<ConnId, State>, t1: map<ThreadId, Buf>, p: Pools,
                          c2: map<ConnId, State>, t2: map<ThreadId, Buf>, q: Pools, n: nat)
    requires HoldersOk(c1, t1, p, n)
    requires forall x :: HeldAt(c2, t2, x).Some? ==>
      HeldAt(c2, t2, x) == HeldAt(c1, t1, x) && Count(q, HeldAt(c2, t2, x).value) == 0
    ensures HoldersOk(c2, t2, q, n)
  {
  }

  // Steps that move no buffer.
  predicate MovesNone(s: State, t: State) {
    t.bufr == s.bufr && t.bufw == s.bufw && t.hijacked == s.hijacked
  }

  lemma SameBuffersKeepLinear(w: World, c: ConnId, t: State, v: World)
    requires Linear(w) && c in w.conns && MovesNone(w.conns[c], t)
    requires v.conns == w.conns[c := t] && v.temps == w.temps && v.pools == w.pools && v.nextBuf == w.nextBuf
    ensures Linear(v)
  {
    forall x ensures HeldAt(v.conns, v.temps, x) == HeldAt(w.conns, w.temps, x) {}
  }

  // One buffer moves from a pool, or brand-new, to place x.
  lemma GainKeepsHolders(c1: map<ConnId, State>, t1: map<ThreadId, Buf>, p: Pools, n: nat,
                         c2: map<ConnId, State>, t2: map<ThreadId, Buf>, q: Pools, m: nat, x: Place, b: Buf)
    requires HoldersOk(c1, t1, p, n) && n <= m
    requires forall y :: y != x ==> HeldAt(c2, t2, y) == HeldAt(c1, t1, y)
    requires HeldAt(c2, t2, x) == Some(b) && FitsPlace(x, b) && b.id < m && Count(q, b) == 0
    requires Count(p, b) > 0 || b.id >= n
    requires forall d :: Count(q, d) <= Count(p, d)
    ensures HoldersOk(c2, t2, q, m)
  {
  }

  lemma TakeReaderKeepsPools(p: Pools, n: nat, r: Option<Buf>, m: nat)
    requires PoolsOk(p, n) && MayTake(p.readers, r) && n <= m
    ensures var q := TakeReader(p, r);
      && PoolsOk(q, m) && (forall d :: Count(q, d) <= Count(p, d))
      && (r.Some? ==> r.value.Reader? && Count(p, r.value) == 1 && Count(q, r.value) == 0)
  {
    assert forall d :: Count(TakeReader(p, r), d) <= Count(p, d);
  }

  lemma TakeWriterKeepsPools(p: Pools, n: nat, bw: Option<Buf>, m: nat)
    requires PoolsOk(p, n) && MayTake(p.w4k, bw) && n <= m
    ensures var q := TakeWriter(p, bw);
      && PoolsOk(q, m) && (forall d :: Count(q, d) <= Count(p, d))
      && (bw.Some? ==> FitsPlace(ConnWriter(0), bw.value) && Count(p, bw.value) == 1 && Count(q, bw.value) == 0)
  {
    assert forall d :: Count(TakeWriter(p, bw), d) <= Count(p, d);
  }

  // A reader, from the pool or brand-new, to a place that held none.
  lemma GainReader(c1: map<ConnId, State>, t1: map<ThreadId, Buf>, p: Pools, n: nat,
                   c2: map<ConnId, State>, t2: map<ThreadId, Buf>, r: Option<Buf>, x: Place)
    requires PoolsOk(p, n) && HoldersOk(c1, t1, p, n) && MayTake(p.readers, r) && !x.ConnWriter?
    requires forall y :: y != x ==> HeldAt(c2, t2, y) == HeldAt(c1, t1, y)
    requires HeldAt(c2, t2, x) == Some(Taken(r, Reader(n)))
    ensures PoolsOk(TakeReader(p, r), n + 1) && HoldersOk(c2, t2, TakeReader(p, r), n + 1)
  {
    TakeReaderKeepsPools(p, n, r, n + 1);
    GainKeepsHolders(c1, t1, p, n, c2, t2, TakeReader(p, r), n + 1, x, Taken(r, Reader(n)));
  }

  lemma GainWriter(c1: map<ConnId, State>, t1: map<ThreadId, Buf>, p: Pools, n: nat,
                   c2: map<ConnId, State>, bw: Option<Buf>, x: Place)
    requires PoolsOk(p, n) && HoldersOk(c1, t1, p, n) && MayTake(p.w4k, bw) && x.ConnWriter?
    requires forall y :: y != x ==> HeldAt(c2, t1, y) == HeldAt(c1, t1, y)
    requires HeldAt(c2, t1, x) == Some(Taken(bw, Writer(n, WRITER_SIZE)))
    ensures PoolsOk(TakeWriter(p, bw), n + 1) && HoldersOk(c2, t1, TakeWriter(p, bw), n + 1)
  {
    TakeWriterKeepsPools(p, n, bw, n + 1);
    GainKeepsHolders(c1, t1, p, n, c2, t1, TakeWriter(p, bw), n + 1, x, Taken(bw, Writer(n, WRITER_SIZE)));
  }

  // Equipping c fills its one place.
  lemma ReaderArrives(conns: map<ConnId, State>, temps: map<ThreadId, Buf>, c: ConnId, t: State, b: Buf)
    requires c in conns && !conns[c].hijacked && t == conns[c].(pc := NeedWriter, bufr := Some(b))
    ensures forall x ::
      HeldAt(conns[c := t], temps, x) == if x == ConnReader(c) then Some(b) else HeldAt(conns, temps, x)
  {
    forall x
      ensures HeldAt(conns[c := t], temps, x) == if x == ConnReader(c) then Some(b) else HeldAt(conns, temps, x)
    {
      match x
      case ConnReader(_) =>
      case ConnWriter(_) =>
      case Hijacker(_) =>
      case Parser(_) =>
    }
  }

  lemma WriterArrives(conns: map<ConnId, State>, temps: map<ThreadId, Buf>, c: ConnId, t: State, b: Buf)
    requires c in conns && t == conns[c].(pc := Top, bufw := Some(b))
    ensures forall x ::
      HeldAt(conns[c := t], temps, x) == if x == ConnWriter(c) then Some(b) else HeldAt(conns, temps, x)
  {
    forall x
      ensures HeldAt(conns[c := t], temps, x) == if x == ConnWriter(c) then Some(b) else HeldAt(conns, temps, x)
    {
      match x
      case ConnReader(_) =>
      case ConnWriter(_) =>
      case Hijacker(_) =>
      case Parser(_) =>
    }
  }

  lemma EquipReaderKeepsLinear(w: World, c: ConnId, r: Option<Buf>)
    requires Linear(w) && Conserved(w) && ReaderEquipped(w, c, r).Some?
    ensures Linear(ReaderEquipped(w, c, r).value)
  {
    var v := ReaderEquipped(w, c, r).value;
    ReaderArrives(w.conns, w.temps, c, v.conns[c], Taken(r, Reader(w.nextBuf)));
    GainReader(w.conns, w.temps, w.pools, w.nextBuf, v.conns, v.temps, r, ConnReader(c));
  }

  lemma EquipWriterKeepsLinear(w: World, c: ConnId, bw: Option<Buf>)
    requires Linear(w) && Conserved(w) && WriterEquipped(w, c, bw).Some?
    ensures Linear(WriterEquipped(w, c, bw).value)
  {
    var v := WriterEquipped(w, c, bw).value;
    WriterArrives(w.conns, w.temps, c, v.conns[c], Taken(bw, Writer(w.nextBuf, WRITER_SIZE)));
    GainWriter(w.conns, w.temps, w.pools, w.nextBuf, v.conns, bw, ConnWriter(c));
  }

  lemma TempGetKeepsLinear(w: World, t: ThreadId, r: Option<Buf>)
    requires Linear(w) && WorldNext(w, TempGet(t, r)).Some?
    ensures Linear(WorldNext(w, TempGet(t, r)).value)
  {
    var v := WorldNext(w, TempGet(t, r)).value;
    GainReader(w.conns, w.temps, w.pools, w.nextBuf, v.conns, v.temps, r, Parser(t));
  }

  // The hijacker takes the connection's reader over; nothing else moves.
  lemma HijackKeepsLinear(w: World, c: ConnId, t: State, v: World)
    requires Linear(w) && c in w.conns && !w.conns[c].hijacked
    requires t.hijacked && t.bufr == w.conns[c].bufr && t.bufw == w.conns[c].bufw
    requires v.conns == w.conns[c := t] && v.temps == w.temps && v.pools == w.pools && v.nextBuf == w.nextBuf
    ensures Linear(v)
  {
    forall x ensures HeldAt(v.conns, v.temps, x) ==
      (if x == Hijacker(c) then HeldAt(w.conns, w.temps, ConnReader(c))
       else if x == ConnReader(c) then None
       else HeldAt(w.conns, w.temps, x))
    {}
  }

  // Only the writer's place changes when it goes back.
  lemma WriterGone(conns: map<ConnId, State>, temps: map<ThreadId, Buf>, c: ConnId, t: State)
    requires c in conns && t.bufw.None? && t.bufr == conns[c].bufr && t.hijacked == conns[c].hijacked
    ensures forall x :: HeldAt(conns[c := t], temps, x) == if x == ConnWriter(c) then None else HeldAt(conns, temps, x)
  {
    forall x ensures HeldAt(conns[c := t], temps, x) == if x == ConnWriter(c) then None else HeldAt(conns, temps, x) {
      match x
      case ConnReader(_) =>
      case ConnWriter(_) =>
      case Hijacker(_) =>
      case Parser(_) =>
    }
  }

  // A place gives its buffer back to the pools.
  lemma GiveBack(w: World, v: World, x: Place, b: Buf)
    requires Linear(w) && HeldAt(w.conns, w.temps, x) == Some(b)
    requires forall y :: HeldAt(v.conns, v.temps, y) == if y == x then None else HeldAt(w.conns, w.temps, y)
    requires v.nextBuf == w.nextBuf && v.pools == (if b.Reader? then PutReader(w.pools, b) else PutWriter(w.pools, b))
    ensures Linear(v)
    ensures forall d :: Count(v.pools, d) == Count(w.pools, d) + (if d == b then 1 else 0)
  {
    PutKeepsPools(w.pools, w.nextBuf, b, x);
    LeaveKeepsHolders(w.conns, w.temps, w.pools, v.conns, v.temps, v.pools, w.nextBuf);
  }

  lemma TempPutKeepsLinear(w: World, t: ThreadId)
    requires Linear(w) && WorldNext(w, TempPut(t)).Some?
    ensures Linear(WorldNext(w, TempPut(t)).value)
  {
    assert HeldAt(w.conns, w.temps, Parser(t)) == Some(w.temps[t]);
    assert FitsPlace(Parser(t), w.temps[t]);
    GiveBack(w, WorldNext(w, TempPut(t)).value, Parser(t), w.temps[t]);
  }

  // The writer goes back to its pool when the hijack succeeds.
  lemma ReturnWriterKeepsLinear(w: World, c: ConnId, t: State, v: World)
    requires Linear(w) && c in w.conns && w.conns[c].bufw.Some?
    requires t.bufw.None? && t.bufr == w.conns[c].bufr && t.hijacked == w.conns[c].hijacked
    requires v.conns == w.conns[c := t] && v.temps == w.temps && v.nextBuf == w.nextBuf
    requires v.pools == PutMaybe(w.pools, None, w.conns[c].bufw)
    ensures Linear(v)
    ensures forall d :: Count(v.pools, d) == Count(w.pools, d) + (if Some(d) == w.conns[c].bufw then 1 else 0)
  {
    var b := w.conns[c].bufw.value;
    assert HeldAt(w.conns, w.temps, ConnWriter(c)) == Some(b);
    assert FitsPlace(ConnWriter(c), b);
    WriterGone(w.conns, w.temps, c, t);
    GiveBack(w, v, ConnWriter(c), b);
  }

  // Close gives both buffers back, the reader first.
  function ReaderBack(w: World, c: ConnId): World
    requires c in w.conns && w.conns[c].bufr.Some?
  {
    w.(conns := w.conns[c := w.conns[c].(bufr := None)], pools := PutReader(w.pools, w.conns[c].bufr.value))
  }

  lemma ReaderGone(conns: map<ConnId, State>, temps: map<ThreadId, Buf>, c: ConnId)
    requires c in conns && !conns[c].hijacked
    ensures var c2 := conns[c := conns[c].(bufr := None)];
      forall x :: HeldAt(c2, temps, x) == if x == ConnReader(c) then None else HeldAt(conns, temps, x)
  {
    var c2 := conns[c := conns[c].(bufr := None)];
    forall x ensures HeldAt(c2, temps, x) == if x == ConnReader(c) then None else HeldAt(conns, temps, x) {
      match x
      case ConnReader(_) =>
      case ConnWriter(_) =>
      case Hijacker(_) =>
      case Parser(_) =>
    }
  }

  lemma ReaderBackKeepsLinear(w: World, c: ConnId)
    requires Linear(w) && c in w.conns && w.conns[c].bufr.Some? && !w.conns[c].hijacked
    ensures Linear(ReaderBack(w, c))
    ensures forall d ::
      Count(ReaderBack(w, c).pools, d) == Count(w.pools, d) + (if Some(d) == w.conns[c].bufr then 1 else 0)
  {
    var b := w.conns[c].bufr.value;
    assert HeldAt(w.conns, w.temps, ConnReader(c)) == Some(b);
    assert FitsPlace(ConnReader(c), b);
    ReaderGone(w.conns, w.temps, c);
    GiveBack(w, ReaderBack(w, c), ConnReader(c), b);
  }

  lemma FlushKeepsLinear(w: World, c: ConnId, t: State, v: World)
    requires Linear(w) && c in w.conns && w.conns[c].bufr.Some? && w.conns[c].bufw.Some? && !w.conns[c].hijacked
    requires t.bufw.None? && t.bufr.None? && !t.hijacked
    requires v.conns == w.conns[c := t] && v.temps == w.temps && v.nextBuf == w.nextBuf
    requires v.pools == PutMaybe(w.pools, w.conns[c].bufr, w.conns[c].bufw)
    ensures Linear(v)
  {
    ReaderBackKeepsLinear(w, c);
    ReturnWriterKeepsLinear(ReaderBack(w, c), c, t, v);
  }

  lemma SmallerPools(p: Pools, q: Pools, n: nat)
    requires PoolsOk(p, n) && q.readers <= p.readers && q.w2k <= p.w2k && q.w4k <= p.w4k
    ensures PoolsOk(q, n) && forall d :: Count(q, d) <= Count(p, d)
  {
    assert forall d :: Count(q, d) <= Count(p, d);
  }

  lemma DropKeepsLinear(w: World, b: Buf)
    requires Linear(w) && WorldNext(w, PoolDrop(b)).Some?
    ensures Linear(WorldNext(w, PoolDrop(b)).value)
  {
    var v := WorldNext(w, PoolDrop(b)).value;
    SmallerPools(w.pools, v.pools, w.nextBuf);
    LeaveKeepsHolders(w.conns, w.temps, w.pools, v.conns, v.temps, v.pools, w.nextBuf);
  }

  lemma AcceptKeepsLinear(w: World, c: ConnId)
    requires Linear(w) && WorldNext(w, Accept(c)).Some?
    ensures Linear(WorldNext(w, Accept(c)).value)
  {
    var v := WorldNext(w, Accept(c)).value;
    LeaveKeepsHolders(w.conns, w.temps, w.pools, v.conns, v.temps, v.pools, w.nextBuf);
  }

  // The only steps of a connection that move a buffer.
  predicate MovesBuffer(s: State, e: Event) {
    || (e.Loop? && (e.l.GetReader? || e.l.GetWriter?))
    || e == End(FinalFlush)
    || (e == End(StoreFinal) && s.pc.HijackStore?)
    || e == End(SetHijacked)
  }

  lemma OtherStepsMoveNone(s: State, e: Event)
    requires Next(s, e).Some? && !MovesBuffer(s, e)
    ensures MovesNone(s, Next(s, e).value)
  {
    match e
    case Loop(l) => LoopMovesNone(s, l);
    case Io(io) => IoMovesNone(s, io);
    case End(d) => EndMovesNone(s, d);
    case Control(_) =>
    case Caller(k) => CallerKeepsServe(s, k);
  }

  lemma IoMovesNone(s: State, e: IoEvent)
    requires IoNext(s, e).Some?
    ensures MovesNone(s, IoNext(s, e).value)
  {
  }

  lemma EndMovesNone(s: State, e: EndEvent)
    requires EndNext(s, e).Some? && !e.FinalFlush? && !e.SetHijacked? && !(e.StoreFinal? && s.pc.HijackStore?)
    ensures MovesNone(s, EndNext(s, e).value)
  {
  }

  lemma LoopMovesNone(s: State, e: LoopEvent)
    requires LoopNext(s, e).Some? && !e.GetReader? && !e.GetWriter?
    ensures MovesNone(s, LoopNext(s, e).value)
  {
  }

  // The same, with what the step does to the shared pools.
  lemma OtherEffectsMoveNone(w: World, c: ConnId, e: Event, s: State, t: State)
    requires ConnEffect(w, c, e, s, t).Some? && !MovesBuffer(s, e)
    ensures var v := ConnEffect(w, c, e, s, t).value;
      v.conns == w.conns[c := t] && v.pools == w.pools && v.temps == w.temps && v.nextBuf == w.nextBuf
  {
    match e
    case End(d) => EndEffectMovesNone(w, c, d, s, t);
    case _ =>
  }

  lemma EndEffectMovesNone(w: World, c: ConnId, e: EndEvent, s: State, t: State)
    requires ConnEffect(w, c, End(e), s, t).Some? && !MovesBuffer(s, End(e))
    ensures var v := ConnEffect(w, c, End(e), s, t).value;
      v.conns == w.conns[c := t] && v.pools == w.pools && v.temps == w.temps && v.nextBuf == w.nextBuf
  {
  }

  // What the three moving steps do to the buffers.
  lemma FlushFacts(s: State)
    requires Safe(s) && EndNext(s, FinalFlush).Some?
    ensures var t := EndNext(s, FinalFlush).value;
      s.bufr.Some? && s.bufw.Some? && !s.hijacked && t.bufr.None? && t.bufw.None? && !t.hijacked
  {
  }

  lemma SetHijackedFacts(s: State)
    requires Safe(s) && EndNext(s, SetHijacked).Some?
    ensures var t := EndNext(s, SetHijacked).value;
      !s.hijacked && t.hijacked && t.bufr == s.bufr && t.bufw == s.bufw
  {
  }

  lemma HijackStoreFacts(s: State)
    requires Safe(s) && s.pc.HijackStore?
    ensures EndNext(s, StoreFinal).Some?
    ensures var t := EndNext(s, StoreFinal).value;
      s.bufw.Some? && t.bufw.None? && t.bufr == s.bufr && t.hijacked == s.hijacked
  {
  }

  lemma MovingKeepsLinear(w: World, c: ConnId, e: Event, t: State)
    requires Linear(w) && c in w.conns && Safe(w.conns[c]) && MovesBuffer(w.conns[c], e)
    requires Next(w.conns[c], e) == Some(t) && ConnEffect(w, c, e, w.conns[c], t).Some?
    ensures Linear(ConnEffect(w, c, e, w.conns[c], t).value)
  {
    var s := w.conns[c];
    var v := ConnEffect(w, c, e, s, t).value;
    if e.End? && e.d.FinalFlush? {
      FlushFacts(s);
      FlushKeepsLinear(w, c, t, v);
    } else if e.End? && e.d.StoreFinal? {
      HijackStoreFacts(s);
      ReturnWriterKeepsLinear(w, c, t, v);
    } else {
      SetHijackedFacts(s);
      HijackKeepsLinear(w, c, t, v);
    }
  }

  lemma ConnKeepsLinear(w: World, c: ConnId, e: Event)
    requires Linear(w) && Conserved(w) && WorldNext(w, OfConn(c, e)).Some?
    ensures Linear(WorldNext(w, OfConn(c, e)).value)
  {
    var s := w.conns[c];
    var t := Next(s, e).value;
    if MovesBuffer(s, e) {
      MovingKeepsLinear(w, c, e, t);
    } else {
      OtherStepsMoveNone(s, e);
      OtherEffectsMoveNone(w, c, e, s, t);
      SameBuffersKeepLinear(w, c, t, ConnEffect(w, c, e, s, t).value);
    }
  }

  lemma StepKeepsLinear(w: World, e: WorldEvent)
    requires Linear(w) && Conserved(w) && WorldNext(w, e).Some?
    ensures Linear(WorldNext(w, e).value)
  {
    match e
    case OfConn(c, ev) => ConnKeepsLinear(w, c, ev);
    case EquipReader(c, r) => EquipReaderKeepsLinear(w, c, r);
    case EquipWriter(c, bw) => EquipWriterKeepsLinear(w, c, bw);
    case Accept(c) => AcceptKeepsLinear(w, c);
    case TempGet(t, r) => TempGetKeepsLinear(w, t, r);
    case TempPut(t) => TempPutKeepsLinear(w, t);
    case PoolDrop(b) => DropKeepsLinear(w, b);
    case _ =>
  }

  // On every run of the server, whatever its connections, callers, parsers and the
  // collector do, no buffer is ever in two hands or twice in a pool.
  lemma {:induction false} EveryRunIsLinear(w: World, es: seq<WorldEvent>, v: World)
    requires Linear(w) && Conserved(w) && WalkOk(w) && WorldSteps(w, es, v)
    ensures Linear(v) && (Whole(w) ==> Whole(v))
    decreases |es|
  {
    if es != [] {
      StepKeepsLinear(w, es[0]);
      StepKeepsConserved(w, es[0]);
      if Whole(w) { StepKeepsWhole(w, es[0]); }
      EveryRunIsLinear(WorldNext(w, es[0]).value, es[1..], v);
    }
  }

  lemma StartIsLinear()
    ensures Linear(Start()) && Whole(Start()) && Conserved(Start()) && WalkOk(Start())
  {
  }

  // A reader or writer given back can be had again, and is then out of its pool.
  lemma PooledReaderIsReused(w: World, c: ConnId, b: Buf)
    requires Linear(w) && c in w.conns && w.conns[c].pc.Setup? && b in w.pools.readers
    ensures var v := WorldNext(w, EquipReader(c, Some(b)));
      v.Some? && v.value.conns[c].bufr == Some(b) && Count(v.value.pools, b) == 0
  {
    TakeReaderKeepsPools(w.pools, w.nextBuf, Some(b), w.nextBuf);
    assert ReaderEquipped(w, c, Some(b)).Some?;
  }

  lemma PooledWriterIsReused(w: World, c: ConnId, b: Buf)
    requires Linear(w) && c in w.conns && w.conns[c].pc.NeedWriter? && b in w.pools.w4k
    ensures var v := WorldNext(w, EquipWriter(c, Some(b)));
      v.Some? && v.value.conns[c].bufw == Some(b) && Count(v.value.pools, b) == 0
  {
    TakeWriterKeepsPools(w.pools, w.nextBuf, Some(b), w.nextBuf);
    assert WriterEquipped(w, c, Some(b)).Some?;
  }

  // ---- no buffer is lost ----

  ghost predicate InHand(conns: map<ConnId, State>, temps: map<ThreadId, Buf>, b: Buf) {
    exists x :: HeldAt(conns, temps, x) == Some(b)
  }

  // Every buffer made is in a pool, in a hand, or was dropped by the collector; a dropped
  // one is nowhere else.
  ghost predicate NoneLost(conns: map<ConnId, State>, temps: map<ThreadId, Buf>, p: Pools,
                           made: set<Buf>, dropped: set<Buf>)
  {
    forall b :: b in made ==> Count(p, b) > 0 || b in dropped || InHand(conns, temps, b)
  }

  ghost predicate GoneForGood(conns: map<ConnId, State>, temps: map<ThreadId, Buf>, p: Pools,
                              nextBuf: nat, dropped: set<Buf>)
  {
    forall b :: b in dropped ==> b.id < nextBuf && Count(p, b) == 0 && !InHand(conns, temps, b)
  }

  ghost predicate Whole(w: World) {
    && NoneLost(w.conns, w.temps, w.pools, w.made, w.dropped)
    && GoneForGood(w.conns, w.temps, w.pools, w.nextBuf, w.dropped)
  }

  // A buffer moves from a pool, or brand-new, to a place that was empty.
  lemma GainKeepsWhole(w: World, v: World, x: Place, b: Buf)
    requires Whole(w) && HeldAt(w.conns, w.temps, x).None? && HeldAt(v.conns, v.temps, x) == Some(b)
    requires forall y :: y != x ==> HeldAt(v.conns, v.temps, y) == HeldAt(w.conns, w.temps, y)
    requires forall d :: d != b ==> Count(v.pools, d) == Count(w.pools, d)
    requires Count(v.pools, b) <= Count(w.pools, b)
    requires Count(w.pools, b) > 0 || b.id >= w.nextBuf
    requires v.made == w.made + {b} && v.dropped == w.dropped && w.nextBuf <= v.nextBuf
    ensures Whole(v)
  {
    forall d | d in v.made ensures Count(v.pools, d) > 0 || d in v.dropped || InHand(v.conns, v.temps, d) {
      if d != b && InHand(w.conns, w.temps, d) {
        var y :| HeldAt(w.conns, w.temps, y) == Some(d);
        assert HeldAt(v.conns, v.temps, y) == Some(d);
      }
    }
  }

  // A buffer moves from place x to a pool.
  lemma PutKeepsWhole(w: World, v: World, x: Place, b: Buf)
    requires Whole(w) && HeldAt(w.conns, w.temps, x) == Some(b) && HeldAt(v.conns, v.temps, x).None?
    requires forall y :: y != x ==> HeldAt(v.conns, v.temps, y) == HeldAt(w.conns, w.temps, y)
    requires forall d :: Count(v.pools, d) == Count(w.pools, d) + (if d == b then 1 else 0)
    requires v.made == w.made && v.dropped == w.dropped && w.nextBuf == v.nextBuf
    ensures Whole(v)
  {
    forall d | d in v.made ensures Count(v.pools, d) > 0 || d in v.dropped || InHand(v.conns, v.temps, d) {
      if d != b && InHand(w.conns, w.temps, d) {
        var y :| HeldAt(w.conns, w.temps, y) == Some(d);
        assert HeldAt(v.conns, v.temps, y) == Some(d);
      }
    }
  }

  // Places change their names, not their buffers.
  lemma SameHandsKeepWhole(w: World, v: World)
    requires Whole(w) && v.pools == w.pools && v.made == w.made && v.dropped == w.dropped && v.nextBuf == w.nextBuf
    requires forall b :: InHand(v.conns, v.temps, b) <==> InHand(w.conns, w.temps, b)
    ensures Whole(v)
  {
  }

  lemma SamePlacesSameHands(c1: map<ConnId, State>, c2: map<ConnId, State>, temps: map<ThreadId, Buf>)
    requires forall x :: HeldAt(c2, temps, x) == HeldAt(c1, temps, x)
    ensures forall b :: InHand(c2, temps, b) <==> InHand(c1, temps, b)
  {
    forall b ensures InHand(c2, temps, b) <==> InHand(c1, temps, b) {
      if InHand(c1, temps, b) { var x :| HeldAt(c1, temps, x) == Some(b); assert HeldAt(c2, temps, x) == Some(b); }
      if InHand(c2, temps, b) { var x :| HeldAt(c2, temps, x) == Some(b); assert HeldAt(c1, temps, x) == Some(b); }
    }
  }

  lemma HijackSameHands(conns: map<ConnId, State>, temps: map<ThreadId, Buf>, c: ConnId, t: State)
    requires c in conns && !conns[c].hijacked && t.hijacked && t.bufr == conns[c].bufr && t.bufw == conns[c].bufw
    ensures forall b :: InHand(conns[c := t], temps, b) <==> InHand(conns, temps, b)
  {
    var c2 := conns[c := t];
    forall b ensures InHand(c2, temps, b) <==> InHand(conns, temps, b) {
      if InHand(conns, temps, b) {
        var x :| HeldAt(conns, temps, x) == Some(b);
        assert HeldAt(c2, temps, if x == ConnReader(c) then Hijacker(c) else x) == Some(b);
      }
      if InHand(c2, temps, b) {
        var x :| HeldAt(c2, temps, x) == Some(b);
        assert HeldAt(conns, temps, if x == Hijacker(c) then ConnReader(c) else x) == Some(b);
      }
    }
  }

  lemma TakeCounts(p: Pools, n: nat, r: Option<Buf>)
    requires PoolsOk(p, n) && r.Some?
    ensures r.value in p.readers ==>
      forall d :: Count(TakeReader(p, r), d) == Count(p, d) - (if d == r.value then 1 else 0)
    ensures r.value in p.w4k ==>
      forall d :: Count(TakeWriter(p, r), d) == Count(p, d) - (if d == r.value then 1 else 0)
  {
  }

  // A reader or writer taken from the pools, or brand-new, to an empty place.
  lemma TakeReaderKeepsWhole(w: World, v: World, x: Place, r: Option<Buf>)
    requires Whole(w) && PoolsOk(w.pools, w.nextBuf) && MayTake(w.pools.readers, r)
    requires HeldAt(w.conns, w.temps, x).None? && HeldAt(v.conns, v.temps, x) == Some(Taken(r, Reader(w.nextBuf)))
    requires forall y :: y != x ==> HeldAt(v.conns, v.temps, y) == HeldAt(w.conns, w.temps, y)
    requires v.pools == TakeReader(w.pools, r) && v.made == w.made + {Taken(r, Reader(w.nextBuf))}
    requires v.dropped == w.dropped && v.nextBuf == w.nextBuf + 1
    ensures Whole(v)
  {
    if r.Some? { TakeCounts(w.pools, w.nextBuf, r); }
    GainKeepsWhole(w, v, x, Taken(r, Reader(w.nextBuf)));
  }

  lemma TakeWriterKeepsWhole(w: World, v: World, x: Place, bw: Option<Buf>)
    requires Whole(w) && PoolsOk(w.pools, w.nextBuf) && MayTake(w.pools.w4k, bw)
    requires HeldAt(w.conns, w.temps, x).None?
    requires HeldAt(v.conns, v.temps, x) == Some(Taken(bw, Writer(w.nextBuf, WRITER_SIZE)))
    requires forall y :: y != x ==> HeldAt(v.conns, v.temps, y) == HeldAt(w.conns, w.temps, y)
    requires v.pools == TakeWriter(w.pools, bw) && v.made == w.made + {Taken(bw, Writer(w.nextBuf, WRITER_SIZE))}
    requires v.dropped == w.dropped && v.nextBuf == w.nextBuf + 1
    ensures Whole(v)
  {
    if bw.Some? { TakeCounts(w.pools, w.nextBuf, bw); }
    GainKeepsWhole(w, v, x, Taken(bw, Writer(w.nextBuf, WRITER_SIZE)));
  }

  lemma EquipReaderKeepsWhole(w: World, c: ConnId, r: Option<Buf>)
    requires Whole(w) && Linear(w) && Conserved(w) && ReaderEquipped(w, c, r).Some?
    ensures Whole(ReaderEquipped(w, c, r).value)
  {
    ReaderArrives(w.conns, w.temps, c, ReaderEquipped(w, c, r).value.conns[c], Taken(r, Reader(w.nextBuf)));
    TakeReaderKeepsWhole(w, ReaderEquipped(w, c, r).value, ConnReader(c), r);
  }

  lemma EquipWriterKeepsWhole(w: World, c: ConnId, bw: Option<Buf>)
    requires Whole(w) && Linear(w) && Conserved(w) && WriterEquipped(w, c, bw).Some?
    ensures Whole(WriterEquipped(w, c, bw).value)
  {
    WriterArrives(w.conns, w.temps, c, WriterEquipped(w, c, bw).value.conns[c],
                  Taken(bw, Writer(w.nextBuf, WRITER_SIZE)));
    TakeWriterKeepsWhole(w, WriterEquipped(w, c, bw).value, ConnWriter(c), bw);
  }

  lemma TempGetKeepsWhole(w: World, t: ThreadId, r: Option<Buf>)
    requires Whole(w) && Linear(w) && WorldNext(w, TempGet(t, r)).Some?
    ensures Whole(WorldNext(w, TempGet(t, r)).value)
  {
    TakeReaderKeepsWhole(w, WorldNext(w, TempGet(t, r)).value, Parser(t), r);
  }

  lemma TempPutKeepsWhole(w: World, t: ThreadId)
    requires Whole(w) && Linear(w) && WorldNext(w, TempPut(t)).Some?
    ensures Whole(WorldNext(w, TempPut(t)).value)
  {
    assert HeldAt(w.conns, w.temps, Parser(t)) == Some(w.temps[t]);
    PutKeepsPools(w.pools, w.nextBuf, w.temps[t], Parser(t));
    PutKeepsWhole(w, WorldNext(w, TempPut(t)).value, Parser(t), w.temps[t]);
  }

  lemma ReturnWriterKeepsWhole(w: World, c: ConnId, t: State, v: World)
    requires Whole(w) && Linear(w) && c in w.conns && w.conns[c].bufw.Some?
    requires t.bufw.None? && t.bufr == w.conns[c].bufr && t.hijacked == w.conns[c].hijacked
    requires v.conns == w.conns[c := t] && v.temps == w.temps && v.nextBuf == w.nextBuf
    requires v.pools == PutMaybe(w.pools, None, w.conns[c].bufw) && v.made == w.made && v.dropped == w.dropped
    ensures Whole(v)
  {
    var b := w.conns[c].bufw.value;
    assert HeldAt(w.conns, w.temps, ConnWriter(c)) == Some(b);
    WriterGone(w.conns, w.temps, c, t);
    ReturnWriterKeepsLinear(w, c, t, v);
    PutKeepsWhole(w, v, ConnWriter(c), b);
  }

  lemma ReaderBackKeepsWhole(w: World, c: ConnId)
    requires Whole(w) && Linear(w) && c in w.conns && w.conns[c].bufr.Some? && !w.conns[c].hijacked
    ensures Whole(ReaderBack(w, c)) && Linear(ReaderBack(w, c))
  {
    assert HeldAt(w.conns, w.temps, ConnReader(c)) == w.conns[c].bufr;
    ReaderBackKeepsLinear(w, c);
    ReaderGone(w.conns, w.temps, c);
    PutKeepsWhole(w, ReaderBack(w, c), ConnReader(c), w.conns[c].bufr.value);
  }

  lemma FlushKeepsWhole(w: World, c: ConnId, t: State, v: World)
    requires Whole(w) && Linear(w) && c in w.conns && w.conns[c].bufr.Some? && w.conns[c].bufw.Some?
    requires !w.conns[c].hijacked
    requires t.bufw.None? && t.bufr.None? && !t.hijacked
    requires v.conns == w.conns[c := t] && v.temps == w.temps && v.nextBuf == w.nextBuf
    requires v.pools == PutMaybe(w.pools, w.conns[c].bufr, w.conns[c].bufw) && v.made == w.made
    requires v.dropped == w.dropped
    ensures Whole(v)
  {
    ReaderBackKeepsWhole(w, c);
    ReturnWriterKeepsWhole(ReaderBack(w, c), c, t, v);
  }

  lemma DropKeepsWhole(w: World, b: Buf)
    requires Whole(w) && Linear(w) && WorldNext(w, PoolDrop(b)).Some?
    ensures Whole(WorldNext(w, PoolDrop(b)).value)
  {
    DropCounts(w.pools, w.nextBuf, b);
    DropIsNotHeld(w, b);
    LeaveForGood(w, WorldNext(w, PoolDrop(b)).value, b);
  }

  lemma DropCounts(p: Pools, n: nat, b: Buf)
    requires PoolsOk(p, n) && b in p.readers + p.w2k + p.w4k
    ensures Count(p, b) == 1 && b.id < n
    ensures var q := Pools(p.readers - multiset{b}, p.w2k - multiset{b}, p.w4k - multiset{b});
      forall d :: Count(q, d) == Count(p, d) - (if d == b then 1 else 0)
  {
  }

  lemma DropIsNotHeld(w: World, b: Buf)
    requires Linear(w) && Count(w.pools, b) == 1
    ensures !InHand(w.conns, w.temps, b)
  {
  }

  lemma LeaveForGood(w: World, v: World, b: Buf)
    requires Whole(w) && v.conns == w.conns && v.temps == w.temps && v.nextBuf == w.nextBuf
    requires v.made == w.made && v.dropped == w.dropped + {b} && b.id < w.nextBuf && !InHand(w.conns, w.temps, b)
    requires Count(w.pools, b) == 1 && forall d :: Count(v.pools, d) == Count(w.pools, d) - (if d == b then 1 else 0)
    ensures Whole(v)
  {
  }

  lemma AcceptKeepsWhole(w: World, c: ConnId)
    requires Whole(w) && WorldNext(w, Accept(c)).Some?
    ensures Whole(WorldNext(w, Accept(c)).value)
  {
    var v := WorldNext(w, Accept(c)).value;
    SamePlacesSameHands(w.conns, v.conns, w.temps);
    SameHandsKeepWhole(w, v);
  }

  lemma MovingKeepsWhole(w: World, c: ConnId, e: Event, t: State)
    requires Whole(w) && Linear(w) && c in w.conns && Safe(w.conns[c]) && MovesBuffer(w.conns[c], e)
    requires Next(w.conns[c], e) == Some(t) && ConnEffect(w, c, e, w.conns[c], t).Some?
    ensures Whole(ConnEffect(w, c, e, w.conns[c], t).value)
  {
    var s := w.conns[c];
    var v := ConnEffect(w, c, e, s, t).value;
    if e.End? && e.d.FinalFlush? {
      FlushFacts(s);
      FlushKeepsWhole(w, c, t, v);
    } else if e.End? && e.d.StoreFinal? {
      HijackStoreFacts(s);
      ReturnWriterKeepsWhole(w, c, t, v);
    } else {
      SetHijackedFacts(s);
      HijackSameHands(w.conns, w.temps, c, t);
      SameHandsKeepWhole(w, v);
    }
  }

  lemma SameStateSamePlaces(conns: map<ConnId, State>, temps: map<ThreadId, Buf>, c: ConnId, t: State)
    requires c in conns && MovesNone(conns[c], t)
    ensures forall x :: HeldAt(conns[c := t], temps, x) == HeldAt(conns, temps, x)
  {
  }

  lemma ConnKeepsWhole(w: World, c: ConnId, e: Event, t: State)
    requires Whole(w) && Linear(w) && c in w.conns && Safe(w.conns[c])
    requires Next(w.conns[c], e) == Some(t) && ConnEffect(w, c, e, w.conns[c], t).Some?
    ensures Whole(ConnEffect(w, c, e, w.conns[c], t).value)
  {
    var s := w.conns[c];
    if MovesBuffer(s, e) {
      MovingKeepsWhole(w, c, e, t);
    } else {
      var v := ConnEffect(w, c, e, s, t).value;
      EffectOnSets(w, c, e, s, t);
      OtherStepsMoveNone(s, e);
      OtherEffectsMoveNone(w, c, e, s, t);
      SameStateSamePlaces(w.conns, w.temps, c, t);
      SamePlacesSameHands(w.conns, v.conns, w.temps);
      SameHandsKeepWhole(w, v);
    }
  }

  lemma StepKeepsWhole(w: World, e: WorldEvent)
    requires Whole(w) && Linear(w) && Conserved(w) && WorldNext(w, e).Some?
    ensures Whole(WorldNext(w, e).value)
  {
    match e
    case OfConn(c, ev) => ConnKeepsWhole(w, c, ev, Next(w.conns[c], ev).value);
    case EquipReader(c, r) => EquipReaderKeepsWhole(w, c, r);
    case EquipWriter(c, bw) => EquipWriterKeepsWhole(w, c, bw);
    case Accept(c) => AcceptKeepsWhole(w, c);
    case TempGet(t, r) => TempGetKeepsWhole(w, t, r);
    case TempPut(t) => TempPutKeepsWhole(w, t);
    case PoolDrop(b) => DropKeepsWhole(w, b);
    case _ =>
  }

  // From the server's start, every buffer ever made is at each moment in exactly one
  // place: once in one pool, with one connection, hijacker or parser, or dropped.
  lemma EveryBufferIsInOnePlace(es: seq<WorldEvent>, v: World, b: Buf)
    requires WorldSteps(Start(), es, v) && b in v.made
    ensures Count(v.pools, b) == 1 || InHand(v.conns, v.temps, b) || b in v.dropped
    ensures Count(v.pools, b) <= 1 && !(Count(v.pools, b) == 1 && InHand(v.conns, v.temps, b))
    ensures b in v.dropped ==> Count(v.pools, b) == 0 && !InHand(v.conns, v.temps, b)
    ensures forall x, y :: HeldAt(v.conns, v.temps, x) == Some(b) && HeldAt(v.conns, v.temps, y) == Some(b) ==> x == y
  {
    StartIsLinear();
    EveryRunIsLinear(Start(), es, v);
  }
}
