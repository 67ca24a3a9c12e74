// DoCtx of client.go:62-165 and the goroutine it starts to watch the context, step by
// step, against a connection that goes back to its pool unless it is discarded first.
module Client {
  import opened Basics

  datatype Reply = Reply(nonce: string, close: bool)

  // How DoCtx's own part came out.  NoConn: it failed before it had a connection.
  // IoFailed: a deadline could not be set or the write failed (client.go:139-154).
  datatype Outcome = Pending | NoConn | IoFailed | BadReply | GoodReply(r: Reply)

  datatype MainPc =
    | Prepare | Dial | AskClose | Spawn | WriteDeadline | Write | ReadDeadline | ReadReply | Judge
    | Deferred | CloseDone | Finished

  datatype WatchPc = NotStarted | Selecting | Expire | DiscardConn | CloseConn | Ended

  // What the call is given: the request's nonce, whether the request asks to close, and
  // whether the connection comes from a pool.
  datatype Config = Config(nonce: string, asksClose: bool, fromPool: bool)

  datatype State = State(
    main: MainPc, watch: WatchPc, ctxDone: bool, doneClosed: bool, outcome: Outcome,
    discarded: bool, closes: nat, pooled: bool, sawCtx: bool)

  datatype Event =
    | Cancel
    | MainStep(ok: bool)
    | GotReply(reply: Option<Reply>)
    | WatchCtx | WatchDone | WatchStep

  function Init(): State {
    State(Prepare, NotStarted, false, false, Pending, false, 0, false, false)
  }

  function Discard(c: Config, s: State): State {
    if c.fromPool then s.(discarded := true) else s
  }

  // ReadResponse, func.go:194-204: a reply with another nonce is an error.
  function Judged(c: Config, reply: Option<Reply>): Outcome {
    if reply.Some? && reply.value.nonce == c.nonce then GoodReply(reply.value) else BadReply
  }

  function MainNext(c: Config, s: State, ok: bool): Option<State> {
    match s.main
    case Prepare => Some(if ok then s.(main := Dial) else s.(main := Deferred, outcome := NoConn))
    case Dial => Some(if ok then s.(main := AskClose) else s.(main := Deferred, outcome := NoConn))
    case AskClose => Some((if c.asksClose then Discard(c, s) else s).(main := Spawn))
    case Spawn => Some(s.(main := WriteDeadline, watch := Selecting))
    case WriteDeadline => Some(if ok then s.(main := Write) else s.(main := Deferred, outcome := IoFailed))
    case Write => Some(if ok then s.(main := ReadDeadline) else s.(main := Deferred, outcome := IoFailed))
    case ReadDeadline => Some(if ok then s.(main := ReadReply) else s.(main := Deferred, outcome := IoFailed))
    case ReadReply => None
    case Judge =>
      Some((if s.outcome.GoodReply? && !s.outcome.r.close then s else Discard(c, s)).(main := Deferred))
    case Deferred => Some(s.(main := if s.ctxDone then Finished else CloseDone))
    case CloseDone => Some(s.(main := Finished, doneClosed := true))
    case Finished => None
  }

  function Next(c: Config, s: State, e: Event): Option<State> {
    match e
    case Cancel => Some(s.(ctxDone := true))
    case MainStep(ok) => MainNext(c, s, ok)
    case GotReply(reply) =>
      if s.main.ReadReply? then Some(s.(main := Judge, outcome := Judged(c, reply))) else None
    case WatchCtx => if s.watch.Selecting? && s.ctxDone then Some(s.(watch := Expire, sawCtx := true)) else None
    case WatchDone => if s.watch.Selecting? && s.doneClosed then Some(s.(watch := CloseConn)) else None
    case WatchStep =>
      match s.watch
      case Expire => Some(s.(watch := DiscardConn))
      case DiscardConn => Some(Discard(c, s).(watch := CloseConn))
      case CloseConn => Some(s.(watch := Ended, closes := s.closes + 1, pooled := c.fromPool && !s.discarded))
      case _ => None
  }

  ghost predicate Steps(c: Config, s: State, es: seq<Event>, t: State)
    decreases |es|
  {
    if es == [] then s == t
    else Next(c, s, es[0]).Some? && Steps(c, Next(c, s, es[0]).value, es[1..], t)
  }

  predicate BeforeConn(p: MainPc) {
    p.Prepare? || p.Dial? || p.AskClose? || p.Spawn?
  }

  predicate Ending(p: MainPc) {
    p.Deferred? || p.CloseDone? || p.Finished?
  }

  // The reply came with the request's nonce and without a wish to close.
  predicate Clean(c: Config, o: Outcome) {
    o.GoodReply? && o.r.nonce == c.nonce && !o.r.close
  }

  predicate Inv(c: Config, s: State) {
    && (s.watch.NotStarted? <==> BeforeConn(s.main) || (Ending(s.main) && s.outcome.NoConn?))
    && (Ending(s.main) || s.main.Judge? <==> !s.outcome.Pending?)
    && (s.outcome.GoodReply? ==> s.outcome.r.nonce == c.nonce)
    && (s.main.Judge? ==> s.outcome.GoodReply? || s.outcome.BadReply?)
    && (s.doneClosed ==> s.main.Finished?)
    && (s.main.Finished? ==> s.doneClosed || s.ctxDone)
    && s.closes == (if s.watch.Ended? then 1 else 0)
    && (s.sawCtx ==> s.ctxDone && !s.watch.NotStarted? && !s.watch.Selecting?)
    && (s.watch.Expire? || s.watch.DiscardConn? ==> s.sawCtx)
    && (s.watch.CloseConn? || s.watch.Ended? ==>
          (!s.sawCtx ==> s.doneClosed) && (s.sawCtx && c.fromPool ==> s.discarded))
    && (s.discarded ==> c.fromPool)
    && (c.fromPool ==> (s.discarded <==> Spoiled(c, s)))
    && (s.pooled <==> s.watch.Ended? && c.fromPool && !s.discarded)
  }

  // Someone has discarded the connection: DoCtx because the request asks to close or
  // the reply was bad or asks to close, or the watcher because the context ended.
  predicate Spoiled(c: Config, s: State) {
    || (c.asksClose && (s.main.Spawn? || !s.watch.NotStarted?))
    || (Ending(s.main) && (s.outcome.BadReply? || (s.outcome.GoodReply? && s.outcome.r.close)))
    || (s.sawCtx && (s.watch.CloseConn? || s.watch.Ended?))
  }

  lemma MainKeepsInv(c: Config, s: State, ok: bool)
    requires Inv(c, s) && MainNext(c, s, ok).Some?
    ensures Inv(c, MainNext(c, s, ok).value)
  {
  }

  lemma WatchKeepsInv(c: Config, s: State, e: Event)
    requires Inv(c, s) && (e.WatchCtx? || e.WatchDone? || e.WatchStep?) && Next(c, s, e).Some?
    ensures Inv(c, Next(c, s, e).value)
  {
  }

  lemma StepKeepsInv(c: Config, s: State, e: Event)
    requires Inv(c, s) && Next(c, s, e).Some?
    ensures Inv(c, Next(c, s, e).value)
  {
    match e
    case MainStep(ok) => MainKeepsInv(c, s, ok);
    case Cancel =>
    case GotReply(_) =>
    case _ => WatchKeepsInv(c, s, e);
  }

  lemma {:induction false} EveryRunKeepsInv(c: Config, s: State, es: seq<Event>, t: State)
    requires Inv(c, s) && Steps(c, s, es, t)
    ensures Inv(c, t)
    decreases |es|
  {
    if es != [] {
      StepKeepsInv(c, s, es[0]);
      EveryRunKeepsInv(c, Next(c, s, es[0]).value, es[1..], t);
    }
  }

  // ---- the outcome, told by the events of the run ----

  // A deadline call or the write fails on this run.
  ghost predicate IoFails(c: Config, s: State, es: seq<Event>)
    decreases |es|
  {
    es != [] && Next(c, s, es[0]).Some? &&
    ((es[0] == MainStep(false) && (s.main.WriteDeadline? || s.main.Write? || s.main.ReadDeadline?))
     || IoFails(c, Next(c, s, es[0]).value, es[1..]))
  }

  // What has happened so far: the reply that came (None if it did not parse), whether a
  // deadline or write failed, and whether the watcher has seen the context end.
  predicate Recorded(c: Config, s: State, came: Option<Option<Reply>>, ioFailed: bool, watched: bool) {
    && (came.Some? ==>
          if came.value.Some? && came.value.value.nonce == c.nonce then s.outcome == GoodReply(came.value.value)
          else s.outcome == BadReply)
    && (came.None? ==> !s.outcome.GoodReply? && !s.outcome.BadReply?)
    && (ioFailed <==> s.outcome.IoFailed?) && (watched <==> s.sawCtx)
  }

  lemma MainRecords(c: Config, s: State, ok: bool, came: Option<Option<Reply>>, io: bool, w: bool)
    requires Inv(c, s) && Recorded(c, s, came, io, w) && MainNext(c, s, ok).Some?
    ensures var failed := !ok && (s.main.WriteDeadline? || s.main.Write? || s.main.ReadDeadline?);
      Recorded(c, MainNext(c, s, ok).value, came, io || failed, w)
  {
  }

  lemma ReplyRecords(c: Config, s: State, reply: Option<Reply>, came: Option<Option<Reply>>, io: bool, w: bool)
    requires Inv(c, s) && Recorded(c, s, came, io, w) && Next(c, s, GotReply(reply)).Some?
    ensures came.None? && Recorded(c, Next(c, s, GotReply(reply)).value, Some(reply), io, w)
  {
  }

  lemma WatchRecords(c: Config, s: State, e: Event, came: Option<Option<Reply>>, io: bool, w: bool)
    requires Recorded(c, s, came, io, w) && Next(c, s, e).Some? && !e.MainStep? && !e.GotReply?
    ensures Recorded(c, Next(c, s, e).value, came, io, w || e.WatchCtx?)
  {
  }

  lemma {:induction false} EveryRunRecords(c: Config, s: State, es: seq<Event>, t: State,
                                           came: Option<Option<Reply>>, io: bool, w: bool)
    returns (last: Option<Option<Reply>>)
    requires Inv(c, s) && Recorded(c, s, came, io, w) && Steps(c, s, es, t)
    ensures Recorded(c, t, last, io || IoFails(c, s, es), w || WatchCtx in es)
    ensures forall x :: last == Some(x) <==> came == Some(x) || GotReply(x) in es
    decreases |es|
  {
    if es == [] {
      last := came;
    } else {
      var e, u := es[0], Next(c, s, es[0]).value;
      var came1, io1, w1 := came, io, w || e.WatchCtx?;
      if e.MainStep? {
        MainRecords(c, s, e.ok, came, io, w);
        io1 := io || (!e.ok && (s.main.WriteDeadline? || s.main.Write? || s.main.ReadDeadline?));
      } else if e.GotReply? {
        ReplyRecords(c, s, e.reply, came, io, w);
        came1 := Some(e.reply);
      } else {
        WatchRecords(c, s, e, came, io, w);
      }
      StepKeepsInv(c, s, e);
      last := EveryRunRecords(c, u, es[1..], t, came1, io1, w1);
    }
  }

  // DoCtx comes out with exactly the reply that came with the request's own nonce.
  lemma OutcomeByReply(c: Config, es: seq<Event>, t: State)
    requires Steps(c, Init(), es, t)
    ensures forall r :: t.outcome == GoodReply(r) <==> GotReply(Some(r)) in es && r.nonce == c.nonce
    ensures t.outcome.BadReply? <==>
      GotReply(None) in es || exists r :: GotReply(Some(r)) in es && r.nonce != c.nonce
    ensures t.outcome.IoFailed? <==> IoFails(c, Init(), es)
    ensures t.sawCtx <==> WatchCtx in es
  {
    var last := EveryRunRecords(c, Init(), es, t, None, false, false);
    forall r ensures t.outcome == GoodReply(r) <==> GotReply(Some(r)) in es && r.nonce == c.nonce {
      assert last == Some(Some(r)) <==> GotReply(Some(r)) in es;
    }
    if last.Some? {
      assert GotReply(last.value) in es;
      if last.value.Some? { assert GotReply(Some(last.value.value)) in es; }
    }
  }

  // A reply with the request's own nonce and no wish to close has come.
  ghost predicate CleanReplyCame(c: Config, es: seq<Event>) {
    exists r :: GotReply(Some(r)) in es && r.nonce == c.nonce && !r.close
  }

  // In every interleaving the connection is closed at most once, and when it has been,
  // it went back to the pool exactly when the context was not what ended the watch, the
  // request did not ask to close, and a clean reply came -- or a deadline or write had
  // failed, in which case nothing discards it.
  lemma PooledIff(c: Config, es: seq<Event>, t: State)
    requires Steps(c, Init(), es, t) && c.fromPool
    ensures t.closes <= 1 && (t.closes == 1 <==> t.watch.Ended?)
    ensures t.watch.Ended? ==>
      (t.pooled <==> && WatchCtx !in es && !c.asksClose && t.main.Finished?
                     && (CleanReplyCame(c, es) || IoFails(c, Init(), es)))
  {
    EveryRunKeepsInv(c, Init(), es, t);
    OutcomeByReply(c, es, t);
    if Clean(c, t.outcome) { assert GotReply(Some(t.outcome.r)) in es; }
    if CleanReplyCame(c, es) {
      var r :| GotReply(Some(r)) in es && r.nonce == c.nonce && !r.close;
      assert t.outcome == GoodReply(r);
    }
  }

  // So when deadlines and writes succeed, a connection is reused only after a reply with
  // the request's own nonce, and neither side asking to close.
  lemma ReusedOnlyWhenClean(c: Config, es: seq<Event>, t: State)
    requires Steps(c, Init(), es, t) && t.pooled && !IoFails(c, Init(), es)
    ensures !c.asksClose && CleanReplyCame(c, es) && t.closes == 1
    ensures t.outcome.GoodReply? && GotReply(Some(t.outcome.r)) in es
  {
    EveryRunKeepsInv(c, Init(), es, t);
    PooledIff(c, es, t);
    OutcomeByReply(c, es, t);
    assert CleanReplyCame(c, es);
  }

  lemma StaysCancelled(c: Config, s: State, e: Event)
    requires s.ctxDone && !s.main.CloseDone? && !s.doneClosed && Next(c, s, e).Some?
    ensures var t := Next(c, s, e).value; t.ctxDone && !t.main.CloseDone? && !t.doneClosed
  {
  }

  // Once the context has ended, and DoCtx is not past the test in its deferred function,
  // the connection can no longer get to the pool, even if a clean reply comes.
  lemma {:induction false} CancelledIsNotPooled(c: Config, s: State, es: seq<Event>, t: State)
    requires Inv(c, s) && s.ctxDone && !s.main.CloseDone? && !s.doneClosed && Steps(c, s, es, t)
    ensures !t.pooled && !t.doneClosed && !t.main.CloseDone?
    decreases |es|
  {
    if es != [] {
      StepKeepsInv(c, s, es[0]);
      StaysCancelled(c, s, es[0]);
      CancelledIsNotPooled(c, Next(c, s, es[0]).value, es[1..], t);
    }
  }

  // And after such a reply it is: the whole of an undisturbed call.
  lemma CleanReplyIsPooled(c: Config, r: Reply) returns (es: seq<Event>, t: State)
    requires c.fromPool && !c.asksClose && r.nonce == c.nonce && !r.close
    ensures Steps(c, Init(), es, t) && Over(t) && t.pooled && t.outcome == GoodReply(r)
  {
    var s1;
    es, s1 := UpToWrite(c);
    var s2 := s1.(main := ReadDeadline);
    var s3 := s1.(main := ReadReply);
    var s4 := s1.(main := Judge, outcome := GoodReply(r));
    var s5 := s4.(main := Deferred);
    Then(c, es, s1, MainStep(true), s2);
    es := es + [MainStep(true)];
    Then(c, es, s2, MainStep(true), s3);
    es := es + [MainStep(true)];
    Then(c, es, s3, GotReply(Some(r)), s4);
    es := es + [GotReply(Some(r))];
    Then(c, es, s4, MainStep(true), s5);
    es := es + [MainStep(true)];
    es, t := Wrapped(c, es, s5);
  }

  // After a failed write the unread connection does go back to the pool.
  lemma FailedWriteIsPooled(c: Config) returns (es: seq<Event>, t: State)
    requires c.fromPool && !c.asksClose
    ensures Steps(c, Init(), es, t) && Over(t) && t.pooled && t.outcome.IoFailed?
  {
    var s1;
    es, s1 := UpToWrite(c);
    var s2 := s1.(main := Deferred, outcome := IoFailed);
    Then(c, es, s1, MainStep(false), s2);
    es := es + [MainStep(false)];
    es, t := Wrapped(c, es, s2);
  }

  // Prepared, dialled, spawned, the deadline set.
  lemma UpToWrite(c: Config) returns (es: seq<Event>, t: State)
    requires !c.asksClose
    ensures Steps(c, Init(), es, t)
    ensures t == Init().(main := Write, watch := Selecting)
  {
    var s := Init();
    var spawned := s.(main := WriteDeadline, watch := Selecting);
    t := spawned.(main := Write);
    es := [];
    Then(c, es, s, MainStep(true), s.(main := Dial));
    es := es + [MainStep(true)];
    Then(c, es, s.(main := Dial), MainStep(true), s.(main := AskClose));
    es := es + [MainStep(true)];
    Then(c, es, s.(main := AskClose), MainStep(true), s.(main := Spawn));
    es := es + [MainStep(true)];
    Then(c, es, s.(main := Spawn), MainStep(true), spawned);
    es := es + [MainStep(true)];
    Then(c, es, spawned, MainStep(true), t);
    es := es + [MainStep(true)];
  }

  // The deferred function closes done, and the watcher the connection.
  lemma Wrapped(c: Config, es0: seq<Event>, s: State) returns (es: seq<Event>, t: State)
    requires Steps(c, Init(), es0, s)
    requires s.main.Deferred? && s.watch.Selecting? && !s.ctxDone && s.closes == 0
    ensures Steps(c, Init(), es, t)
    ensures t == s.(main := Finished, doneClosed := true, watch := Ended, closes := 1,
                    pooled := c.fromPool && !s.discarded)
  {
    var u1 := s.(main := CloseDone);
    var u2 := s.(main := Finished, doneClosed := true);
    var u3 := u2.(watch := CloseConn);
    t := u3.(watch := Ended, closes := 1, pooled := c.fromPool && !s.discarded);
    es := es0;
    Then(c, es, s, MainStep(true), u1);
    es := es + [MainStep(true)];
    Then(c, es, u1, MainStep(true), u2);
    es := es + [MainStep(true)];
    Then(c, es, u2, WatchDone, u3);
    es := es + [WatchDone];
    Then(c, es, u3, WatchStep, t);
    es := es + [WatchStep];
  }

  lemma Then(c: Config, es: seq<Event>, t: State, e: Event, u: State)
    requires Steps(c, Init(), es, t) && Next(c, t, e) == Some(u)
    ensures Steps(c, Init(), es + [e], u)
  {
    StepAfter(c, Init(), es, t, e, u);
  }

  lemma {:induction false} StepAfter(c: Config, s: State, es: seq<Event>, t: State, e: Event, u: State)
    requires Steps(c, s, es, t) && Next(c, t, e) == Some(u)
    ensures Steps(c, s, es + [e], u)
    decreases |es|
  {
    if es == [] {
      assert es + [e] == [e];
      assert [e][1..] == [];
    } else {
      StepAfter(c, Next(c, s, es[0]).value, es[1..], t, e, u);
      assert (es + [e])[1..] == es[1..] + [e];
    }
  }

  // ---- both parts end ----

  function MainRank(p: MainPc): nat {
    match p
    case Prepare => 11
    case Dial => 10
    case AskClose => 9
    case Spawn => 8
    case WriteDeadline => 7
    case Write => 6
    case ReadDeadline => 5
    case ReadReply => 4
    case Judge => 3
    case Deferred => 2
    case CloseDone => 1
    case Finished => 0
  }

  function WatchRank(p: WatchPc): nat {
    match p
    case NotStarted => 5
    case Selecting => 4
    case Expire => 3
    case DiscardConn => 2
    case CloseConn => 1
    case Ended => 0
  }

  function Rank(s: State): nat {
    MainRank(s.main) + WatchRank(s.watch)
  }

  predicate Over(s: State) {
    s.main.Finished? && (s.watch.Ended? || s.watch.NotStarted?)
  }

  // Every step but a cancellation makes progress.
  lemma StepsMakeProgress(c: Config, s: State, e: Event)
    requires !e.Cancel? && Next(c, s, e).Some?
    requires Inv(c, s)
    ensures Rank(Next(c, s, e).value) < Rank(s)
  {
  }

  // ---- what waits for the peer ----

  predicate AtPeer(p: MainPc) {
    p.Dial? || p.Write? || p.ReadReply?
  }

  // The watcher has set the deadline in the past, client.go:128: reads and writes return.
  predicate Expired(s: State) {
    s.sawCtx && (s.watch.DiscardConn? || s.watch.CloseConn? || s.watch.Ended?)
  }

  // The steps the call takes by itself: dialling, writing and reading need the peer,
  // unless the context has ended (for the dial) or the deadline has passed.
  predicate Own(s: State, e: Event) {
    match e
    case Cancel => false
    case MainStep(_) => if s.main.Dial? then s.ctxDone else if s.main.Write? then Expired(s) else true
    case GotReply(reply) => reply.None? && Expired(s)
    case _ => true
  }

  function OwnStep(s: State): Event {
    if s.main.Write? || s.main.ReadReply? then
      (if Expired(s) then (if s.main.Write? then MainStep(false) else GotReply(None))
       else if s.watch.Selecting? then WatchCtx else WatchStep)
    else if !s.main.Finished? then MainStep(true)
    else if s.watch.Selecting? then (if s.ctxDone then WatchCtx else WatchDone)
    else WatchStep
  }

  predicate WaitsForPeer(s: State) {
    AtPeer(s.main) && !s.ctxDone
  }

  // Until both parts are over, the call can go on by itself exactly when it is not
  // waiting for the peer with its context still alive.
  lemma StuckOnlyAtPeer(c: Config, s: State)
    requires Inv(c, s) && !Over(s)
    ensures (exists e :: Own(s, e) && Next(c, s, e).Some?) <==> !WaitsForPeer(s)
    ensures !WaitsForPeer(s) ==> Own(s, OwnStep(s)) && Next(c, s, OwnStep(s)).Some?
  {
    if !WaitsForPeer(s) {
      OwnStepIsThere(c, s);
    }
  }

  lemma OwnStepIsThere(c: Config, s: State)
    requires Inv(c, s) && !Over(s) && !WaitsForPeer(s)
    ensures Own(s, OwnStep(s)) && Next(c, s, OwnStep(s)).Some?
  {
  }

  ghost predicate OwnRun(c: Config, s: State, es: seq<Event>)
    decreases |es|
  {
    es == [] || (Own(s, es[0]) && (Next(c, s, es[0]).Some? ==> OwnRun(c, Next(c, s, es[0]).value, es[1..])))
  }

  // Nothing more is needed from the peer.
  predicate OnItsOwn(s: State) {
    s.ctxDone || MainRank(s.main) <= MainRank(Judge)
  }

  lemma OwnStepStaysOnItsOwn(c: Config, s: State, e: Event)
    requires Inv(c, s) && OnItsOwn(s) && Next(c, s, e).Some?
    ensures OnItsOwn(Next(c, s, e).value)
  {
  }

  lemma OneMore(c: Config, s: State, e: Event, u: State, es: seq<Event>, t: State)
    requires Next(c, s, e) == Some(u) && Steps(c, u, es, t)
    ensures Steps(c, s, [e] + es, t)
    ensures Own(s, e) && OwnRun(c, u, es) ==> OwnRun(c, s, [e] + es)
  {
    assert ([e] + es)[1..] == es;
  }

  // Once the context has ended, or a reply has come, the rest goes by the call's own
  // steps: it returns, the watcher ends, and a connection that was dialled has been closed
  // exactly once.
  lemma {:induction false} CallEnds(c: Config, s: State) returns (es: seq<Event>, t: State)
    requires Inv(c, s) && OnItsOwn(s)
    ensures Steps(c, s, es, t) && OwnRun(c, s, es) && |es| <= Rank(s) && Inv(c, t) && Over(t)
    ensures t.closes == (if t.outcome.NoConn? then 0 else 1)
    decreases Rank(s)
  {
    if Over(s) {
      es, t := [], s;
    } else {
      var e := OwnStep(s);
      StuckOnlyAtPeer(c, s);
      StepKeepsInv(c, s, e);
      StepsMakeProgress(c, s, e);
      OwnStepStaysOnItsOwn(c, s, e);
      var rest;
      rest, t := CallEnds(c, Next(c, s, e).value);
      es := [e] + rest;
      OneMore(c, s, e, Next(c, s, e).value, rest, t);
    }
  }
}
