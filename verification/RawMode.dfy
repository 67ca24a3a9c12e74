// Raw control (conn.go:63-75, 406-418): what keeps launches out while a raw function
// runs, what does not, and what becomes of an installed function.
module RawMode {
  import opened Basics
  import opened ConnProtocol
  import opened Draining

  // Serve has read handleFunc and has not yet cleared it (conn.go:407-412).
  predicate RawWindow(pc: Pc) {
    pc.CheckLaunch? || pc.RunRaw? || pc.ClearRaw?
  }

  // While a raw function runs nothing is registered, and nobody is past the tests of a
  // launch with its registration still to come.
  ghost predicate Exclusive(s: State) {
    && (RawWindow(s.pc) ==> s.handleFunc.Some?)
    && (s.pc.RunRaw? || s.pc.ClearRaw? ==> s.activeReq == map[] && s.holder.None?)
  }

  // Nobody installs a nil function over one that serve is about to run or is running,
  // and no launch is between its tests and its registration when serve, finding nothing
  // in flight, starts a raw function.
  predicate Courteous(s: State, e: Event) {
    match e
    case Control(RawStore(fn)) => fn.Some? || !RawWindow(s.pc)
    case Loop(LoadLaunch) => s.activeReq == map[] ==> s.holder.None?
    case _ => true
  }

  ghost predicate CourteousRun(s: State, es: seq<Event>)
    decreases |es|
  {
    es == [] ||
    (Courteous(s, es[0]) && (Next(s, es[0]).Some? ==> CourteousRun(Next(s, es[0]).value, es[1..])))
  }

  predicate WindowEvent(e: LoopEvent) {
    e.LoadHandle? || e.LoadLaunch? || e.RawReturn? || e.ClearHandle?
  }

  lemma WindowKeepsExclusion(s: State, e: LoopEvent)
    requires Exclusive(s) && LoopNext(s, e).Some? && Courteous(s, Loop(e)) && WindowEvent(e)
    ensures Exclusive(LoopNext(s, e).value)
  {
  }

  lemma ElsewhereNoWindow(s: State, e: LoopEvent)
    requires LoopNext(s, e).Some? && !WindowEvent(e)
    ensures !RawWindow(LoopNext(s, e).value.pc)
  {
  }

  lemma LoopKeepsExclusion(s: State, e: LoopEvent)
    requires Exclusive(s) && LoopNext(s, e).Some? && Courteous(s, Loop(e))
    ensures Exclusive(LoopNext(s, e).value)
  {
    if WindowEvent(e) { WindowKeepsExclusion(s, e); } else { ElsewhereNoWindow(s, e); }
  }

  lemma EndKeepsExclusion(s: State, e: EndEvent)
    requires Safe(s) && Exclusive(s) && EndNext(s, e).Some?
    ensures Exclusive(EndNext(s, e).value)
  {
  }

  lemma CallerKeepsExclusion(s: State, e: CallerEvent)
    requires Safe(s) && Exclusive(s) && CallerNext(s, e).Some?
    ensures Exclusive(CallerNext(s, e).value)
  {
  }

  lemma NextKeepsExclusion(s: State, e: Event)
    requires Safe(s) && Exclusive(s) && Courteous(s, e) && Next(s, e).Some?
    ensures Exclusive(Next(s, e).value)
  {
    match e
    case Loop(l) => LoopKeepsExclusion(s, l);
    case Io(_) =>
    case End(d) => EndKeepsExclusion(s, d);
    case Control(_) =>
    case Caller(k) => CallerKeepsExclusion(s, k);
  }

  // On every courteous run nothing is registered while a raw function runs.
  lemma {:induction false} EveryCourteousRunIsExclusive(s: State, es: seq<Event>, t: State)
    requires Safe(s) && Exclusive(s) && CourteousRun(s, es) && Steps(s, es, t)
    ensures Exclusive(t)
    decreases |es|
  {
    if es != [] {
      NextKeepsSafe(s, es[0]);
      NextKeepsExclusion(s, es[0]);
      EveryCourteousRunIsExclusive(Next(s, es[0]).value, es[1..], t);
    }
  }

  // With fresh draws as well, no call whatever is in flight then; and on every run,
  // courteous or not, the connection is not hijacked.
  lemma RawFunctionsRunAlone(es: seq<Event>, t: State)
    requires Steps(Init(), es, t) && (t.pc.RunRaw? || t.pc.ClearRaw?)
    ensures !t.hijacked && !t.closed
    ensures CourteousRun(Init(), es) ==> t.activeReq == map[] && t.handleFunc.Some?
    ensures CourteousRun(Init(), es) && FreshRun(Init(), es) ==> NoneInFlight(t.calls)
  {
    InitIsSafe();
    EveryRunIsSafe(Init(), es, t);
    if CourteousRun(Init(), es) { EveryCourteousRunIsExclusive(Init(), es, t); }
    if FreshRun(Init(), es) { EveryFreshRunIsExact(Init(), es, t); }
  }

  // ---- and exactly when ----

  // The raw function goes on running, and nobody installs nil.
  ghost predicate DuringRaw(es: seq<Event>) {
    forall e :: e in es ==> !e.Loop? && e != Control(RawStore(None))
  }

  lemma RawStep(s: State, e: Event)
    requires Safe(s) && s.pc.RunRaw? && s.activeReq == map[] && s.holder.None? && s.handleFunc.Some?
    requires Next(s, e).Some? && !e.Loop? && e != Control(RawStore(None))
    ensures var t := Next(s, e).value;
      t.pc.RunRaw? && t.activeReq == map[] && t.holder.None? && t.handleFunc.Some?
  {
    match e
    case Io(_) =>
    case End(_) =>
    case Control(_) =>
    case Caller(k) => CallerKeepsExclusion(s, k);
  }

  lemma {:induction false} RawStaysExclusive(s: State, es: seq<Event>, t: State)
    requires Safe(s) && s.pc.RunRaw? && s.activeReq == map[] && s.holder.None? && s.handleFunc.Some?
    requires DuringRaw(es) && Steps(s, es, t)
    ensures t.activeReq == map[]
    decreases |es|
  {
    if es != [] {
      NextKeepsSafe(s, es[0]);
      RawStep(s, es[0]);
      RawStaysExclusive(Next(s, es[0]).value, es[1..], t);
    }
  }

  lemma OneStep(s: State, e: Event, t: State)
    requires Next(s, e) == Some(t)
    ensures Steps(s, [e], t)
  {
    StepThen(s, e, t, [], t);
    assert [e] + [] == [e];
  }

  lemma RegisterIsSeen(s: State, draws: seq<string>)
    requires HolderIn(s, Preparing) && |draws| == 100
    ensures CallerNext(s, Register(draws)).Some?
    ensures var t := CallerNext(s, Register(draws)).value;
      t.pc == s.pc && t.handleFunc == s.handleFunc && t.activeReq != map[]
  {
    assert Pick(draws, s.activeReq.Keys) in CallerNext(s, Register(draws)).value.activeReq;
  }

  // A launch let in while the raw function runs.
  lemma LaunchGetsIn(s: State, draws: seq<string>) returns (es: seq<Event>, t: State)
    requires Safe(s) && s.pc.RunRaw? && s.activeReq == map[] && |draws| == 100
    requires s.holder.Some? || s.handleFunc.None?
    ensures DuringRaw(es) && Steps(s, es, t) && t.activeReq != map[]
  {
    var u := s;
    if s.holder.None? { u := CallerNext(s, Begin).value; }
    assert HolderIn(u, Preparing);
    RegisterIsSeen(u, draws);
    t := CallerNext(u, Register(draws)).value;
    OneStep(u, Caller(Register(draws)), t);
    es := [Caller(Register(draws))];
    if s.holder.None? {
      StepThen(s, Caller(Begin), u, es, t);
      es := [Caller(Begin)] + es;
    }
  }

  // Whatever happens while the raw function runs and nobody installs nil, nothing gets
  // registered.
  ghost predicate StaysAlone(s: State) {
    forall es, t :: DuringRaw(es) && Steps(s, es, t) ==> t.activeReq == map[]
  }

  lemma AloneStaysAlone(s: State)
    requires Safe(s) && s.pc.RunRaw? && s.activeReq == map[] && s.holder.None? && s.handleFunc.Some?
    ensures StaysAlone(s)
  {
    forall es, t | DuringRaw(es) && Steps(s, es, t) ensures t.activeReq == map[] {
      RawStaysExclusive(s, es, t);
    }
  }

  lemma OtherwiseNot(s: State)
    requires Safe(s) && s.pc.RunRaw? && s.activeReq == map[] && (s.holder.Some? || s.handleFunc.None?)
    ensures !StaysAlone(s)
  {
    var es, t := LaunchGetsIn(s, seq(100, _ => "1"));
  }

  // A raw function with nothing in flight stays alone exactly when no launch is past its
  // tests and a function is still installed.
  lemma RawExclusionIff(s: State)
    requires Safe(s) && s.pc.RunRaw? && s.activeReq == map[]
    ensures StaysAlone(s) <==> s.holder.None? && s.handleFunc.Some?
  {
    if s.holder.None? && s.handleFunc.Some? { AloneStaysAlone(s); } else { OtherwiseNot(s); }
  }

  // So, at the moment serve starts the function it has read: exactly when no launch is
  // between its tests and its registration, and nobody has installed nil meanwhile.
  lemma StartExclusiveIff(s: State)
    requires Safe(s) && s.pc.CheckLaunch? && s.activeReq == map[]
    ensures LoopNext(s, LoadLaunch) == Some(s.(pc := RunRaw(s.pc.f)))
    ensures StaysAlone(s.(pc := RunRaw(s.pc.f))) <==> s.holder.None? && s.handleFunc.Some?
  {
    LoopKeepsSafe(s, LoadLaunch);
    RawExclusionIff(s.(pc := RunRaw(s.pc.f)));
  }

  // And while it runs alone, storing fn over it keeps that exactly when fn is not nil.
  lemma RawControlBreaksExclusionIffNil(s: State, fn: Option<FuncId>)
    requires Safe(s) && Exclusive(s) && s.pc.RunRaw? && fn in s.installing
    ensures ControlNext(s, RawStore(fn)).Some?
    ensures StaysAlone(ControlNext(s, RawStore(fn)).value) <==> fn.Some?
  {
    ControlKeepsSafe(s, RawStore(fn));
    RawExclusionIff(ControlNext(s, RawStore(fn)).value);
  }

  // A call of RawControl that nothing cuts.
  lemma Installs(s: State, fn: Option<FuncId>) returns (u: State)
    requires Ready(s.pc) && !s.closed && !s.hijacked
    ensures ControlNext(s, RawTest(fn)) == Some(u) && u == s.(installing := s.installing + multiset{fn})
    ensures ControlNext(u, RawStore(fn)) == Some(s.(handleFunc := fn))
  {
    u := s.(installing := s.installing + multiset{fn});
    assert u.installing - multiset{fn} == s.installing;
  }

  // The run that lets a launch in although nobody installs nil and a draw is unused:
  // the launch passes its tests, a raw function is installed, serve reads it, finds
  // nothing in flight and starts it, and the launch registers.
  function LateRegistration(f: FuncId, draws: seq<string>): seq<Event> {
    [Caller(Begin), Control(RawTest(Some(f))), Control(RawStore(Some(f))),
     Loop(LoadHandle), Loop(LoadLaunch), Caller(Register(draws))]
  }

  lemma LateRegistrationBreaksExclusion(s: State, f: FuncId, draws: seq<string>) returns (t: State)
    requires Safe(s) && s.pc.ReadHandle? && s.holder.None? && s.handleFunc.None? && s.activeReq == map[]
    requires |draws| == 100
    ensures Steps(s, LateRegistration(f, draws), t)
    ensures t.pc == RunRaw(f) && !Exclusive(t) && FreshRun(s, LateRegistration(f, draws))
  {
    BeginPrepares(s);
    var s1 := CallerNext(s, Begin).value;
    var es := [Loop(LoadHandle)] + ([Loop(LoadLaunch)] + ([Caller(Register(draws))] + []));
    t := LateHalf(s1.(handleFunc := Some(f)), f, draws);
    InstallThen(s1, Some(f), es, t);
    var fs := [Control(RawTest(Some(f)))] + ([Control(RawStore(Some(f)))] + es);
    FreshThen(s, Caller(Begin), s1, fs, t);
    assert LateRegistration(f, draws) == [Caller(Begin)] + fs;
  }

  lemma InstallThen(s: State, fn: Option<FuncId>, es: seq<Event>, t: State)
    requires Ready(s.pc) && !s.closed && !s.hijacked
    requires FreshRun(s.(handleFunc := fn), es) && Steps(s.(handleFunc := fn), es, t)
    ensures var fs := [Control(RawTest(fn))] + ([Control(RawStore(fn))] + es); FreshRun(s, fs) && Steps(s, fs, t)
  {
    var u := Installs(s, fn);
    FreshThen(u, Control(RawStore(fn)), s.(handleFunc := fn), es, t);
    FreshThen(s, Control(RawTest(fn)), u, [Control(RawStore(fn))] + es, t);
  }

  lemma BeginPrepares(s: State)
    requires Ready(s.pc) && LockFree(s) && LaunchRefusal(s).None?
    ensures CallerNext(s, Begin).Some?
    ensures var t := CallerNext(s, Begin).value; HolderIn(t, Preparing) && SameServe(s, t) && t.activeReq == s.activeReq
  {
  }

  lemma LateHalf(s: State, f: FuncId, draws: seq<string>) returns (t: State)
    requires s.pc.ReadHandle? && s.handleFunc == Some(f) && s.activeReq == map[]
    requires HolderIn(s, Preparing) && |draws| == 100
    ensures var es := [Loop(LoadHandle)] + ([Loop(LoadLaunch)] + ([Caller(Register(draws))] + []));
      Steps(s, es, t) && FreshRun(s, es)
    ensures t.pc == RunRaw(f) && !Exclusive(t)
  {
    var s3 := s.(pc := CheckLaunch(f));
    var s4 := s3.(pc := RunRaw(f));
    RegisterIsSeen(s4, draws);
    t := CallerNext(s4, Register(draws)).value;
    assert draws[0] in draws && draws[0] !in s4.activeReq;
    FreshThen(s4, Caller(Register(draws)), t, [], t);
    FreshThen(s3, Loop(LoadLaunch), s4, [Caller(Register(draws))] + [], t);
    FreshThen(s, Loop(LoadHandle), s3, [Loop(LoadLaunch)] + ([Caller(Register(draws))] + []), t);
  }

  lemma FreshThen(s: State, e: Event, u: State, es: seq<Event>, t: State)
    requires FreshDraw(s, e) && Next(s, e) == Some(u) && FreshRun(u, es) && Steps(u, es, t)
    ensures FreshRun(s, [e] + es) && Steps(s, [e] + es, t)
  {
    assert ([e] + es)[1..] == es;
  }

  // Such a state is there at the start of every connection, so this does happen.
  lemma ExclusionFailsOnSomeRun(r: Buf, w: Buf, f: FuncId, draws: seq<string>) returns (es: seq<Event>, t: State)
    requires |draws| == 100
    ensures Steps(Init(), es, t) && FreshRun(Init(), es) && t.pc == RunRaw(f) && !Exclusive(t)
  {
    var s1 := LoopNext(Init(), StoreNew).value;
    var s2 := LoopNext(s1, GetReader(r)).value;
    var s3 := LoopNext(s2, GetWriter(w)).value;
    var s4 := LoopNext(s3, CheckShutdown(false)).value;
    InitIsSafe();
    LoopKeepsSafe(Init(), StoreNew);
    LoopKeepsSafe(s1, GetReader(r));
    LoopKeepsSafe(s2, GetWriter(w));
    LoopKeepsSafe(s3, CheckShutdown(false));
    t := LateRegistrationBreaksExclusion(s4, f, draws);
    es := LateRegistration(f, draws);
    FreshThen(s3, Loop(CheckShutdown(false)), s4, es, t);
    es := [Loop(CheckShutdown(false))] + es;
    FreshThen(s2, Loop(GetWriter(w)), s3, es, t);
    es := [Loop(GetWriter(w))] + es;
    FreshThen(s1, Loop(GetReader(r)), s2, es, t);
    es := [Loop(GetReader(r))] + es;
    FreshThen(Init(), Loop(StoreNew), s1, es, t);
    es := [Loop(StoreNew)] + es;
  }

  // ---- what becomes of an installed function ----

  // The functions serve starts on this run, in order.
  ghost function Started(s: State, es: seq<Event>): seq<FuncId>
    decreases |es|
  {
    if es == [] || Next(s, es[0]).None? then []
    else
      var t := Next(s, es[0]).value;
      (if es[0] == Loop(LoadLaunch) && t.pc.RunRaw? then [t.pc.f] else []) + Started(t, es[1..])
  }

  ghost predicate NothingInstalled(es: seq<Event>) {
    forall e :: e in es ==> !(e.Control? && e.c.RawStore?)
  }

  // Serve has left the loop.
  predicate PastLoop(pc: Pc) {
    pc.Exit? || pc.Final? || pc.CloseUntrack? || pc.CloseStore? || pc.CloseSock? || pc.CloseFlush? || pc.Gone?
  }

  lemma LoopOnHandle(s: State, e: LoopEvent)
    requires LoopNext(s, e).Some? && !e.ClearHandle?
    ensures var t := LoopNext(s, e).value; t.handleFunc == s.handleFunc && (PastLoop(s.pc) ==> PastLoop(t.pc))
  {
  }

  lemma EndOnHandle(s: State, e: EndEvent)
    requires EndNext(s, e).Some?
    ensures var t := EndNext(s, e).value;
      && t.handleFunc == s.handleFunc && (PastLoop(s.pc) ==> PastLoop(t.pc)) && !RawWindow(s.pc) && !RawWindow(t.pc)
  {
  }

  lemma IoOnHandle(s: State, e: IoEvent)
    requires IoNext(s, e).Some?
    ensures var t := IoNext(s, e).value;
      t.handleFunc == s.handleFunc && !PastLoop(s.pc) && !RawWindow(s.pc) && !RawWindow(t.pc)
  {
    if e.DeliverReply? { DeliveryKeepsReqs(s, s.pc.res); }
  }

  // Only RawControl's store and the loop itself touch handleFunc, and only the loop's own steps
  // move serve into or out of the window.
  lemma OthersOnHandle(s: State, e: Event)
    requires Next(s, e).Some? && !e.Loop? && !(e.Control? && e.c.RawStore?)
    ensures var t := Next(s, e).value;
      && t.handleFunc == s.handleFunc && (PastLoop(s.pc) ==> PastLoop(t.pc))
      && (RawWindow(s.pc) || RawWindow(t.pc) ==> t.pc == s.pc)
  {
    match e
    case Io(io) => IoOnHandle(s, io);
    case End(d) => EndOnHandle(s, d);
    case Control(_) =>
    case Caller(k) => CallerKeepsServe(s, k);
  }

  lemma {:induction false} PastLoopKeepsHandle(s: State, es: seq<Event>, t: State)
    requires PastLoop(s.pc) && NothingInstalled(es) && Steps(s, es, t)
    ensures t.handleFunc == s.handleFunc
    decreases |es|
  {
    if es != [] {
      if es[0].Loop? { LoopOnHandle(s, es[0].l); } else { OthersOnHandle(s, es[0]); }
      PastLoopKeepsHandle(Next(s, es[0]).value, es[1..], t);
    }
  }

  lemma LoopWithoutHandle(s: State, e: LoopEvent)
    requires s.handleFunc.None? && !s.pc.CheckLaunch? && LoopNext(s, e).Some?
    ensures var t := LoopNext(s, e).value; t.handleFunc.None? && !t.pc.CheckLaunch? && !e.LoadLaunch?
  {
  }

  lemma {:induction false} NothingStarts(s: State, es: seq<Event>, t: State)
    requires s.handleFunc.None? && !s.pc.CheckLaunch? && NothingInstalled(es) && Steps(s, es, t)
    ensures Started(s, es) == []
    decreases |es|
  {
    if es != [] {
      if es[0].Loop? { LoopWithoutHandle(s, es[0].l); } else { OthersOnHandle(s, es[0]); }
      NothingStarts(Next(s, es[0]).value, es[1..], t);
    }
  }

  // An earlier function's turn is under way: it runs, or serve has read it and is going
  // to find nothing in flight.
  ghost predicate TurnTaken(s: State, es: seq<Event>)
    decreases |es|
  {
    || s.pc.RunRaw? || s.pc.ClearRaw?
    || (s.pc.CheckLaunch? && es != []
        && (if es[0] == Loop(LoadLaunch) then s.activeReq == map[]
            else Next(s, es[0]).Some? && TurnTaken(Next(s, es[0]).value, es[1..])))
  }

  // What still starts of that turn.
  function EarlierStart(pc: Pc): seq<FuncId> {
    if pc.CheckLaunch? then [pc.f] else []
  }

  lemma WindowWithHandle(s: State, e: LoopEvent)
    requires LoopNext(s, e).Some? && !e.ClearHandle? && RawWindow(s.pc)
    ensures var t := LoopNext(s, e).value;
      && t.handleFunc == s.handleFunc && !s.pc.ClearRaw?
      && (s.pc.CheckLaunch? ==> e.LoadLaunch? && t.pc == (if s.activeReq == map[] then RunRaw(s.pc.f) else ReadLine))
      && (s.pc.RunRaw? ==> !e.LoadLaunch? && (t.pc.ClearRaw? || t.pc.Exit?))
  {
  }

  lemma OutsideWithHandle(s: State, g: FuncId, e: LoopEvent)
    requires s.handleFunc == Some(g) && LoopNext(s, e).Some? && !RawWindow(s.pc)
    ensures var t := LoopNext(s, e).value;
      t.handleFunc == Some(g) && !e.LoadLaunch? && (t.pc == CheckLaunch(g) || !RawWindow(t.pc))
  {
    if !WindowEvent(e) { ElsewhereNoWindow(s, e); }
  }

  // One step of the loop with g installed.
  lemma LoopWithHandle(s: State, g: FuncId, e: LoopEvent)
    requires s.handleFunc == Some(g) && LoopNext(s, e).Some? && !e.ClearHandle?
    ensures var t := LoopNext(s, e).value;
      && t.handleFunc == Some(g)
      && (s.pc.CheckLaunch? ==> e.LoadLaunch? && t.pc == (if s.activeReq == map[] then RunRaw(s.pc.f) else ReadLine))
      && (s.pc.RunRaw? ==> !e.LoadLaunch? && (t.pc.ClearRaw? || t.pc.Exit?))
      && (!RawWindow(s.pc) ==> !e.LoadLaunch? && (t.pc == CheckLaunch(g) || !RawWindow(t.pc)))
      && !s.pc.ClearRaw?
  {
    if RawWindow(s.pc) { WindowWithHandle(s, e); } else { OutsideWithHandle(s, g, e); }
  }

  // An installed function that nobody overwrites and that has been used up: it was
  // started exactly once, unless an earlier one's turn was under way when it was
  // installed; then it was erased without having been started.
  lemma {:induction false} UsedUpMeansStartedIff(s: State, g: FuncId, es: seq<Event>, t: State)
    requires s.handleFunc == Some(g) && NothingInstalled(es) && Steps(s, es, t) && t.handleFunc.None?
    ensures Started(s, es) == if TurnTaken(s, es) then EarlierStart(s.pc) else [g]
    decreases |es|
  {
    var e, n := es[0], Next(s, es[0]).value;
    if e.Loop? && e.l.ClearHandle? {
      NothingStarts(n, es[1..], t);
    } else {
      if e.Loop? { LoopWithHandle(s, g, e.l); } else { OthersOnHandle(s, e); }
      if n.pc.Exit? && s.pc.RunRaw? {
        PastLoopKeepsHandle(n, es[1..], t);
      } else {
        UsedUpMeansStartedIff(n, g, es[1..], t);
      }
    }
  }

  // A function installed while another runs is erased when that one returns.
  lemma InstalledTooLateIsErased(s: State, g: FuncId) returns (es: seq<Event>, t: State)
    requires Safe(s) && s.pc.RunRaw?
    ensures es == [Control(RawTest(Some(g))), Control(RawStore(Some(g))), Loop(RawReturn(true)), Loop(ClearHandle)]
    ensures Steps(s, es, t) && Started(s, es) == [] && t.handleFunc.None? && t.pc.Idle?
  {
    var u := Installs(s, Some(g));
    var s1 := s.(handleFunc := Some(g));
    var s2 := s1.(pc := ClearRaw);
    t := s2.(pc := Idle, handleFunc := None);
    StartedThen(s2, Loop(ClearHandle), t, [], t);
    StartedThen(s1, Loop(RawReturn(true)), s2, [Loop(ClearHandle)] + [], t);
    es := [Loop(RawReturn(true))] + ([Loop(ClearHandle)] + []);
    StartedThen(u, Control(RawStore(Some(g))), s1, es, t);
    es := [Control(RawStore(Some(g)))] + es;
    StartedThen(s, Control(RawTest(Some(g))), u, es, t);
    es := [Control(RawTest(Some(g)))] + es;
  }

  lemma StartedThen(s: State, e: Event, u: State, es: seq<Event>, t: State)
    requires Next(s, e) == Some(u) && Steps(u, es, t)
    ensures Steps(s, [e] + es, t)
    ensures Started(s, [e] + es) == (if e == Loop(LoadLaunch) && u.pc.RunRaw? then [u.pc.f] else []) + Started(u, es)
  {
    assert ([e] + es)[1..] == es;
  }

  // ---- when an installed function can get its turn ----

  // Serve runs another function or is on its way out, or the connection is hijacked or
  // past the tests of a hijack.
  predicate Missed(s: State) {
    s.pc.RunRaw? || s.pc.ClearRaw? || s.pc.SendBad? || PastLoop(s.pc) || s.pc.HijackSet? || s.hijacked
  }

  lemma HijackedIsNotInLoop(s: State, e: LoopEvent)
    requires Safe(s) && (s.hijacked || s.pc.HijackSet?) && LoopNext(s, e).Some?
    ensures var t := LoopNext(s, e).value; !e.LoadLaunch? && t.hijacked
  {
  }

  lemma LoopStaysMissed(s: State, e: LoopEvent)
    requires Safe(s) && Missed(s) && LoopNext(s, e).Some?
    ensures var t := LoopNext(s, e).value;
      !e.LoadLaunch? && (Missed(t) || (t.handleFunc.None? && !t.pc.CheckLaunch?))
  {
    if s.hijacked || s.pc.HijackSet? { HijackedIsNotInLoop(s, e); }
  }

  lemma EndStaysMissed(s: State, e: EndEvent)
    requires Missed(s) && EndNext(s, e).Some?
    ensures Missed(EndNext(s, e).value)
  {
  }

  lemma IoStaysMissed(s: State, e: IoEvent)
    requires Missed(s) && IoNext(s, e).Some?
    ensures Missed(IoNext(s, e).value)
  {
    if e.DeliverReply? { DeliveryKeepsReqs(s, s.pc.res); }
  }

  lemma OthersStayMissed(s: State, e: Event)
    requires Missed(s) && Next(s, e).Some? && !e.Loop?
    ensures Missed(Next(s, e).value)
  {
    match e
    case Io(io) => IoStaysMissed(s, io);
    case End(d) => EndStaysMissed(s, d);
    case Control(_) =>
    case Caller(k) => CallerKeepsServe(s, k);
  }

  lemma {:induction false} MissedNeverStarts(s: State, es: seq<Event>, t: State)
    requires Safe(s) && Missed(s) && NothingInstalled(es) && Steps(s, es, t)
    ensures Started(s, es) == []
    decreases |es|
  {
    if es != [] {
      var n := Next(s, es[0]).value;
      NextKeepsSafe(s, es[0]);
      if es[0].Loop? { LoopStaysMissed(s, es[0].l); } else { OthersStayMissed(s, es[0]); }
      if Missed(n) { MissedNeverStarts(n, es[1..], t); } else { NothingStarts(n, es[1..], t); }
    }
  }

  // What a caller can do to get out of the way.
  function LeaveMove(s: State, i: CallId): CallerEvent
    requires HolderOk(s.holder, s.activeReq, s.calls) && i < |s.calls|
  {
    if s.holder.Some? then (if s.calls[s.holder.value].phase.Preparing? then Abandon(ErrNonce) else Wrote(false))
    else match s.calls[i].phase
      case Registered => Enter(i)
      case Waiting => GiveUp(i)
      case _ => Return(i)
  }

  lemma HolderCanLeave(s: State)
    requires Safe(s) && s.holder.Some?
    ensures var e := if s.calls[s.holder.value].phase.Preparing? then Abandon(ErrNonce) else Wrote(false);
      && CallerNext(s, e).Some? && SameServe(s, CallerNext(s, e).value)
      && Remaining(CallerNext(s, e).value.calls) < Remaining(s.calls)
  {
    var h := s.holder.value;
    var e := if s.calls[h].phase.Preparing? then Abandon(ErrNonce) else Wrote(false);
    CallerKeepsServe(s, e);
    RemainingUpdate(s.calls, h, CallerNext(s, e).value.calls[h]);
  }

  lemma WaiterCanLeave(s: State, i: CallId)
    requires Safe(s) && LockFree(s) && i < |s.calls| && InFlight(s.calls[i].phase)
    ensures var e := LeaveMove(s, i);
      && CallerNext(s, e).Some? && SameServe(s, CallerNext(s, e).value)
      && Remaining(CallerNext(s, e).value.calls) < Remaining(s.calls)
  {
    var e := LeaveMove(s, i);
    assert !s.calls[i].phase.Writing?;
    CallerKeepsServe(s, e);
    RemainingUpdate(s.calls, i, CallerNext(s, e).value.calls[i]);
  }

  function FirstInFlight(calls: seq<Call>): (i: nat)
    requires !NoneInFlight(calls)
    ensures i < |calls| && InFlight(calls[i].phase)
  {
    if InFlight(calls[0].phase) then 0 else 1 + FirstInFlight(calls[1..])
  }

  lemma StartsThen(s: State, e: Event, u: State, es: seq<Event>, t: State)
    requires Next(s, e) == Some(u) && Steps(u, es, t) && NothingInstalled(es) && !(e.Control? && e.c.RawStore?)
    ensures Steps(s, [e] + es, t) && NothingInstalled([e] + es)
    ensures Started(s, [e] + es) == (if e == Loop(LoadLaunch) && u.pc.RunRaw? then [u.pc.f] else []) + Started(u, es)
  {
    StartedThen(s, e, u, es, t);
  }

  // Steps to serve's next look at handleFunc, with nothing in flight.
  function WayRank(pc: Pc): nat {
    match pc
    case ReadHandle => 0
    case Top => 1
    case ReadLine => 2
    case IdleRead => 2
    case Idle => 3
    case CheckReply => 4
    case Deliver(_) => 4
    case Send => 4
    case ParsingReply => 5
    case CheckMode => 5
    case _ => 6
  }

  function WayStep(pc: Pc): Event {
    match pc
    case Top => Loop(CheckShutdown(false))
    case ReadLine => Loop(Line(EmptyLine))
    case IdleRead => Loop(IdleData(true))
    case Idle => Loop(StoreIdle)
    case CheckReply => Loop(LoadLaunchForReply)
    case Deliver(_) => Io(DeliverReply)
    case Send => Io(SendReply(true, false, false))
    case ParsingReply => Loop(ParseReply(Some(Response("1", 200))))
    case CheckMode => Loop(LoadMode)
    case _ => Loop(HandlerReturn)
  }

  predicate OnItsWay(s: State) {
    && s.handleFunc.Some? && s.holder.None? && s.activeReq == map[]
    && !Missed(s) && !s.pc.CheckLaunch?
  }

  lemma DeliveryKeepsReqs(s: State, res: Response)
    ensures var t := Delivered(s, res);
      t.activeReq == s.activeReq && t.handleFunc == s.handleFunc && t.holder == s.holder && t.hijacked == s.hijacked
  {
  }

  lemma ReplyStepIsThere(s: State)
    requires Safe(s) && OnItsWay(s) && (s.pc.Send? || s.pc.Deliver?)
    ensures Next(s, WayStep(s.pc)).Some?
    ensures var t := Next(s, WayStep(s.pc)).value; OnItsWay(t) && t.handleFunc == s.handleFunc && t.pc.Idle?
  {
    if s.pc.Deliver? { DeliveryKeepsReqs(s, s.pc.res); }
  }

  lemma LoopStepIsThere(s: State)
    requires Safe(s) && OnItsWay(s) && !s.pc.ReadHandle? && !s.pc.Send? && !s.pc.Deliver?
    ensures WayStep(s.pc).Loop? && LoopNext(s, WayStep(s.pc).l).Some?
    ensures var t := LoopNext(s, WayStep(s.pc).l).value;
      OnItsWay(t) && t.handleFunc == s.handleFunc && WayRank(t.pc) < WayRank(s.pc)
  {
    assert !s.hijacked && !s.closed;
  }

  lemma WayStepIsThere(s: State)
    requires Safe(s) && OnItsWay(s) && !s.pc.ReadHandle?
    ensures Next(s, WayStep(s.pc)).Some?
    ensures var t := Next(s, WayStep(s.pc)).value;
      OnItsWay(t) && t.handleFunc == s.handleFunc && WayRank(t.pc) < WayRank(s.pc)
  {
    if s.pc.Send? || s.pc.Deliver? { ReplyStepIsThere(s); } else { LoopStepIsThere(s); }
  }

  lemma {:induction false} ServeComesRound(s: State) returns (es: seq<Event>, t: State)
    requires Safe(s) && OnItsWay(s)
    ensures Steps(s, es, t) && t.pc == RunRaw(s.handleFunc.value)
    ensures NothingInstalled(es) && Started(s, es) == [s.handleFunc.value]
    decreases WayRank(s.pc)
  {
    if s.pc.ReadHandle? {
      var u := s.(pc := CheckLaunch(s.handleFunc.value));
      t := s.(pc := RunRaw(s.handleFunc.value));
      StartsThen(u, Loop(LoadLaunch), t, [], t);
      StartsThen(s, Loop(LoadHandle), u, [Loop(LoadLaunch)] + [], t);
      es := [Loop(LoadHandle)] + ([Loop(LoadLaunch)] + []);
    } else {
      var e := WayStep(s.pc);
      WayStepIsThere(s);
      NextKeepsSafe(s, e);
      var rest;
      rest, t := ServeComesRound(Next(s, e).value);
      es := [e] + rest;
      StartsThen(s, e, Next(s, e).value, rest, t);
    }
  }

  ghost predicate StartsOn(s: State, g: FuncId, es: seq<Event>, t: State) {
    NothingInstalled(es) && Steps(s, es, t) && Started(s, es) == [g]
  }

  lemma SomeoneLeaves(s: State) returns (k: CallerEvent, u: State)
    requires Safe(s) && !Missed(s) && !(s.holder.None? && NoneInFlight(s.calls))
    ensures CallerNext(s, k) == Some(u) && Safe(u) && SameServe(s, u) && Remaining(u.calls) < Remaining(s.calls)
  {
    var i := if s.holder.Some? then s.holder.value else FirstInFlight(s.calls);
    k := LeaveMove(s, i);
    assert !Locked(s.pc);
    if s.holder.Some? { HolderCanLeave(s); } else { WaiterCanLeave(s, i); }
    CallerKeepsSafe(s, k);
    u := CallerNext(s, k).value;
  }

  // The callers leave, and serve comes round.
  lemma {:induction false} CanBeStarted(s: State) returns (es: seq<Event>, t: State)
    requires Safe(s) && s.handleFunc.Some? && !s.pc.CheckLaunch? && !Missed(s)
    ensures StartsOn(s, s.handleFunc.value, es, t)
    decreases Remaining(s.calls)
  {
    if s.holder.None? && NoneInFlight(s.calls) {
      es, t := ServeComesRound(s);
    } else {
      var k, u := SomeoneLeaves(s);
      var rest;
      rest, t := CanBeStarted(u);
      es := [Caller(k)] + rest;
      StartsThen(s, Caller(k), u, rest, t);
    }
  }

  lemma MissedCannotStart(s: State, g: FuncId)
    requires Safe(s) && Missed(s)
    ensures forall es, t :: !StartsOn(s, g, es, t)
  {
    forall es, t ensures !StartsOn(s, g, es, t) {
      if StartsOn(s, g, es, t) { MissedNeverStarts(s, es, t); }
    }
  }

  // An installed function can still get its turn, with nothing more installed, exactly
  // when serve neither runs another one nor is on its way out, and the connection is
  // neither hijacked nor past the tests of a hijack.  (At CheckLaunch, serve has read an
  // earlier one, and UsedUpMeansStartedIff says which of the two it is.)
  lemma CanBeStartedIff(s: State, g: FuncId)
    requires Safe(s) && s.handleFunc == Some(g) && !s.pc.CheckLaunch?
    ensures (exists es, t :: StartsOn(s, g, es, t)) <==> !Missed(s)
  {
    if Missed(s) {
      MissedCannotStart(s, g);
    } else {
      var es, t := CanBeStarted(s);
    }
  }

  // ---- when a hijack is granted ----

  // A handler's hijack gets past its tests exactly when the connection is not closed,
  // nothing is in flight, it is not hijacked, and no raw function is installed.
  lemma HijackGrantedIff(s: State)
    requires s.pc.Handle? && LockFree(s)
    ensures ControlNext(s, TryHijack).Some?
    ensures var t := ControlNext(s, TryHijack).value;
      && t == s.(pc := t.pc) && (t.pc == s.pc || t.pc.HijackSet?)
      && (t.pc.HijackSet? <==> !s.closed && s.activeReq == map[] && !s.hijacked && s.handleFunc.None?)
  {
  }

  lemma LoopStoresNone(s: State, e: LoopEvent)
    requires LoopNext(s, e).Some?
    ensures LoopNext(s, e).value.handleFunc == s.handleFunc || LoopNext(s, e).value.handleFunc.None?
  {
    if !e.ClearHandle? { LoopOnHandle(s, e); }
  }

  // On every run an installed function was there before, or RawControl has stored it.
  lemma {:induction false} InstalledWasStored(s: State, es: seq<Event>, t: State)
    requires Steps(s, es, t) && t.handleFunc.Some?
    ensures t.handleFunc == s.handleFunc || Control(RawStore(t.handleFunc)) in es
    decreases |es|
  {
    if es != [] {
      var e, n := es[0], Next(s, es[0]).value;
      if e.Loop? { LoopStoresNone(s, e.l); } else if !(e.Control? && e.c.RawStore?) { OthersOnHandle(s, e); }
      InstalledWasStored(n, es[1..], t);
    }
  }

  // So when a hijack goes ahead, a raw function found installed has been stored since its
  // tests.
  lemma HijackOverlapsStore(s: State, es: seq<Event>, t: State)
    requires s.pc.Handle? && LockFree(s) && ControlNext(s, TryHijack).Some?
    requires ControlNext(s, TryHijack).value.pc.HijackSet?
    requires Steps(ControlNext(s, TryHijack).value, es, t) && t.pc.HijackSet?
    ensures s.handleFunc.None?
    ensures t.handleFunc.Some? ==> Control(RawStore(t.handleFunc)) in es
  {
    HijackGrantedIff(s);
    if t.handleFunc.Some? { InstalledWasStored(ControlNext(s, TryHijack).value, es, t); }
  }

  // ---- a function accepted in the middle of a hijack ----

  // RawControl finds the connection neither closed nor hijacked and stores g between the
  // hijack's tests and its setTrue.
  function HijackUnderRawControl(g: FuncId): seq<Event> {
    [Control(TryHijack), Control(RawTest(Some(g))), Control(RawStore(Some(g))),
     End(SetHijacked), End(Untrack), End(StoreFinal)]
  }

  lemma HijackOverRawControl(s: State, g: FuncId) returns (t: State)
    requires Safe(s) && s.pc.Handle? && LockFree(s) && HijackRefusal(s).None?
    ensures Steps(s, HijackUnderRawControl(g), t) && Safe(t)
    ensures t.pc.Handle? && t.hijacked && t.handleFunc == Some(g) && forall es, u :: !StartsOn(t, g, es, u)
  {
    var s1 := s.(pc := HijackSet);
    var u := Installs(s1, Some(g));
    var s3 := s1.(handleFunc := Some(g));
    var s4 := EndNext(s3, SetHijacked).value;
    var s5 := EndNext(s4, Untrack).value;
    t := EndNext(s5, StoreFinal).value;
    OneStep(s5, End(StoreFinal), t);
    StepThen(s4, End(Untrack), s5, [End(StoreFinal)], t);
    var es := [End(Untrack)] + [End(StoreFinal)];
    StepThen(s3, End(SetHijacked), s4, es, t);
    es := [End(SetHijacked)] + es;
    StepThen(u, Control(RawStore(Some(g))), s3, es, t);
    es := [Control(RawStore(Some(g)))] + es;
    StepThen(s1, Control(RawTest(Some(g))), u, es, t);
    es := [Control(RawTest(Some(g)))] + es;
    StepThen(s, Control(TryHijack), s1, es, t);
    assert HijackUnderRawControl(g) == [Control(TryHijack)] + es;
    EveryRunIsSafe(s, HijackUnderRawControl(g), t);
    MissedCannotStart(t, g);
  }

  // A new connection's first request gets there.
  lemma HandlerOnSomeRun(r: Buf, w: Buf, es: seq<Event>, t: State) returns (all: seq<Event>)
    requires Steps(AtHandler(r, w), es, t)
    ensures Steps(Init(), all, t)
  {
    var s1 := LoopNext(Init(), StoreNew).value;
    var s2 := LoopNext(s1, GetReader(r)).value;
    var s3 := LoopNext(s2, GetWriter(w)).value;
    var s4 := LoopNext(s3, CheckShutdown(false)).value;
    var s5 := LoopNext(s4, LoadHandle).value;
    assert LoopNext(s5, Line(GoodRequest)) == Some(AtHandler(r, w));
    StepThen(s5, Loop(Line(GoodRequest)), AtHandler(r, w), es, t);
    all := [Loop(Line(GoodRequest))] + es;
    StepThen(s4, Loop(LoadHandle), s5, all, t);
    all := [Loop(LoadHandle)] + all;
    StepThen(s3, Loop(CheckShutdown(false)), s4, all, t);
    all := [Loop(CheckShutdown(false))] + all;
    StepThen(s2, Loop(GetWriter(w)), s3, all, t);
    all := [Loop(GetWriter(w))] + all;
    StepThen(s1, Loop(GetReader(r)), s2, all, t);
    all := [Loop(GetReader(r))] + all;
    StepThen(Init(), Loop(StoreNew), s1, all, t);
    all := [Loop(StoreNew)] + all;
  }

  function AtHandler(r: Buf, w: Buf): State {
    Init().(pc := Handle, bufr := Some(r), bufw := Some(w), curState := Some(StateActive))
  }

  // So RawControl can report success for a function that no continuation ever starts.
  lemma AcceptedButNeverStarted(r: Buf, w: Buf, g: FuncId) returns (es: seq<Event>, t: State)
    ensures Steps(Init(), es, t)
    ensures t.pc.Handle? && t.hijacked && t.handleFunc == Some(g) && forall fs, u :: !StartsOn(t, g, fs, u)
  {
    InitIsSafe();
    var all := HandlerOnSomeRun(r, w, [], AtHandler(r, w));
    EveryRunIsSafe(Init(), all, AtHandler(r, w));
    t := HijackOverRawControl(AtHandler(r, w), g);
    es := HandlerOnSomeRun(r, w, HijackUnderRawControl(g), t);
  }
}
