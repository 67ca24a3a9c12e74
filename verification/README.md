# Verification of viot

viot is a Go library for devices that talk over one socket in both directions. A device sends JSON
requests, one a line, and the server answers each; on the same socket any number of goroutines may
launch requests to the device, and the device's replies are matched to them by nonce. A connection can
also be hijacked, put under the control of a raw function, or closed. This project models that behaviour
in Dafny and proves what it promises, for every input, every handler and every interleaving. Nothing was
executed; `dafny verify dfyconfig.toml` checks all of it.

## How the model is built

| file | models |
|---|---|
| `Basics.dfy` | optional values, errors, connection states, header maps |
| `ConnProtocol.dfy` | one connection as a state machine over arbitrarily many callers: `State`, `Event`, `Next`, runs (`Steps`), and what every run keeps |
| `Delivery.dfy` | a device's reply on its way to the waiting caller, and how each call's end is told by what happened to it |
| `RawMode.dfy` | raw control: what keeps launches out while a raw function runs, and what becomes of an installed function |
| `Draining.dfy` | after a close: the callers leave and `conn.mu` is let go |
| `World.dfy` | the server over all its connections: `activeConn`, the walk of `closeIdleConns`, running `Shutdown` calls, the buffer pools |
| `Buffers.dfy` | who holds each pooled reader and writer on every run of the server |
| `ConnObjects.dfy` | the `conn` and `Server` objects; each method is a stretch of the source under one lock and is proved to take exactly the steps of `ConnProtocol` that model it |
| `Framing.dfy` | bytes to lines: `readLineBytes`, the skipping of empty lines, `idleWait` |
| `Response.dfy`, `ServeLoop.dfy` | the reply to a request, the keep-alive decision, and the loop that answers requests one after the other |
| `HandlerLaws.dfy` | what goes out and whether the loop goes on, told by the handler's actions alone |
| `LoopViews.dfy` | the loop of `ServeLoop.dfy` and that of `ConnProtocol.dfy` are the same: each turn is a pass, step by step |
| `ServeStream.dfy` | the same loop over a connection's bytes: lines joined to replies |
| `Relay.dfy`, `Header.dfy` | reading a request, encoding it again, and what a relay keeps |
| `Client.dfy` | `DoCtx` and the goroutine that watches its context |
| `Tokens.dfy`, `Version.dfy`, `BasicAuth.dfy`, `Domain.dfy` | the text algorithms and codecs of `func.go` |

A connection's state machine cuts a stretch of code that holds `conn.mu` wherever someone without the lock
can see it. `hijackLocked` is cut between its tests (conn.go:82-99) and its `setTrue` (conn.go:101), and where it
takes `server.mu`, as `Close` is. A launch is cut between its tests (conn.go:131-142), its registration
(conn.go:179) and its write; meanwhile the caller is the lock's `holder`. `RawControl`, which takes no lock, is its
tests and, any time later, its store. `serve` reads `handleFunc` and then `inLaunch` in two steps. The walk of
`closeIdleConns` loads a connection's state and closes its socket in two steps, with the connections going on in
between. Runs start at `Init()` or `Start()`, or at any state that satisfies the invariant.

What the model takes for granted about the program:

- `writeLineByte` is one atomic append: `w.done()` writes without `conn.mu`, launches write with it.
- Returning a buffer to its pool and forgetting it are one step (conn.go:112-113, 593-600), and so are a walk's
  closing of a socket and its delete (server.go:349-350): nobody without the lock held there looks at the second.
- Handlers, and so callers, exist only after conn.go:397; `Hijack` is called inside a handler (once its reply is
  done it refuses, responseWrite.go:167), `Close` by the deferred function of `serve`.
- A reply that finds its caller registered but not yet in its `select` is dropped (conn.go:187, 205,
  451-454): `DeliveryReachesTheWaiting` says exactly whom a reply reaches, and a call that waits for it is reached
  (`ReplyIsTaken`, `ReplyIsHandedOver`).

What turned out to hold only under a condition, each with its exact condition proved:

- `activeReq` stays exact only while one of the hundred nonce draws of each launch is unused: a
  launch with all draws taken orphans another caller (`LaunchExactIffFresh`). Safety (`EveryRunIsSafe`) needs
  no such assumption.
- A launch can be in flight while a raw function runs. It happens when the launch has passed its tests before
  the function was installed and registers after `serve` has found nothing in flight (`ExclusionFailsOnSomeRun`
  is such a run from the start), and when someone installs a nil function meanwhile. `StartExclusiveIff` says
  that, at the moment `serve` starts a raw function, these two are exactly what can let a launch in;
  `EveryCourteousRunIsExclusive` is the theorem over runs. That nobody has hijacked while a raw
  function runs holds on every run.
- A function installed while another one runs is erased without having run when that one returns
  (`InstalledTooLateIsErased`). A function that `RawControl` stores between a hijack's tests and its `setTrue` is
  accepted and can never run (`AcceptedButNeverStarted` is such a run from the start). `UsedUpMeansStartedIff` and
  `CanBeStartedIff` say exactly when an installed function gets its turn.
- `closeIdleConns` can close the socket of a connection whose handler is running: the connection was not
  answering when its state was loaded, but read a request before it was closed (`IdleWalkReachesAHandler` is
  such a run from the start). Only a good request or a reply that parses, between the two, makes this
  happen (`AnsweringStartsIff`, `SparedUnlessResumed`).
- `closeIdleConns` also closes the socket of a connection whose raw function is running, with no race at all
  (`IdleWalkClosesUnderRawFunction` is such a run from the start): it chooses a connection under a raw
  function exactly when that connection has ever been idle (`WalkChoosesRawIff`), for it then shows Idle, and New
  otherwise (`RawFunctionShows`).
- The comment at client.go:117-121 and 157-162 wants only clean connections pooled, but a failed deadline
  call or write returns before any `Discard`: such a connection goes back to the pool (`FailedWriteIsPooled`).
  `PooledIff` gives the exact condition.
- `hasToken` has its split-based meaning for every text exactly when the token is not empty, holds no
  separator and does not start with an upper-case letter (`MeaningIffPlainToken`).
- The server may stop in the very turn of a reply in which the client sees no close, in exactly the cases of
  `StopsUnseenIff`: the reply closes in a way the client does not see (`ClientAgreesIff`), or "keep-alive" went
  out and keep-alives were then found switched off, or no further data came. Later passes of the loop may end it for
  reasons of their own, such as a shutdown.

## Model

| member | source | states |
|---|---|---|
| `ConnProtocol.Pick` | conn.go:153-164 | the nonce loop's result is one of the draws, and unused exactly when some draw is unused |
| `ConnProtocol.EveryRunIsSafe` | conn.go:127-220 | on every interleaving of callers, deliveries, hijacks, raw control and close, whatever is drawn: every registration belongs to an unfinished call with that nonce, no closed channel is sent on or closed again, a call gets at most one response and it carries its nonce, a channel is closed exactly when its call has finished, at most one caller holds the lock between its steps, a connection neither closed nor hijacked owns its writer, and a hijacked one is never back in the loop |
| `ConnProtocol.DeliverKeepsCalls` | conn.go:449-456 | looking up and sending under one lock always finds an unfinished call with the reply's nonce and an open channel |
| `ConnProtocol.EveryFreshRunIsExact` | conn.go:178-188 | with one unused draw per launch, on every run `activeReq` is exactly the unfinished calls, one to one from nonce to channel, also after a failed write |
| `ConnProtocol.RegisterExactIffFresh` | conn.go:153-179 | a registration keeps `activeReq` exact if and only if one of its draws is unused |
| `ConnProtocol.LaunchExactIffFresh` | conn.go:153-187 | and so does the launch, whether its write succeeds or fails |
| `ConnProtocol.DeliveryReachesTheWaiting` | conn.go:449-456 | the lookup and the send reach exactly the call that waits for the nonce; duplicate, late and unknown replies change nothing |
| `Delivery.ReplyIsTaken` | conn.go:439-449 | in any safe and exact state, with a call waiting for its nonce, a line that is no request is parsed as a reply and serve goes to hand it over |
| `Delivery.ReplyIsHandedOver` | conn.go:449-456 | once `conn.mu` is free, handing over is possible and the waiting call then has exactly that response; no other call changes |
| `Delivery.WaitingCallCanBeAnswered` | conn.go:439-456 | from the line read to the return of the caller with that response, step by step |
| `Delivery.LaunchIsAnsweredOnSomeRun` | conn.go:127-220 | for every response, a run from a new connection on which one launch is made and returns with it |
| `Delivery.EndIsToldBy` | conn.go:205-219 | on every run a finished call returns its context's error exactly when it gave up, ErrConnClose exactly when it saw the connection's context done, a response exactly when one was handed over, and otherwise the failure of its own write |
| `ConnProtocol.HijackIsForever` | conn.go:78-116 | after the first successful hijack: never another, and nothing is ever registered again |
| `ConnProtocol.EveryRunIsTelling` | conn.go:205-219 | a caller is told ErrConnClose only when the connection's context is done and ErrHijacked only after a hijack; the state reads Idle only while `serve` is not answering |
| `ConnProtocol.RawFunctionShows` | conn.go:406-418 | on every run, while a raw function runs the stored state is Idle if the connection has ever been idle, and New otherwise: never Active |
| `ConnProtocol.RunFacts` | conn.go:127-220 | from the start: no panic, at most one hijack, at most one response per call with its own nonce, registered channels open, a writer present while neither closed nor hijacked, no hijack while serve reads or runs a raw function |
| `RawMode.EveryCourteousRunIsExclusive` | conn.go:406-418 | if nobody installs nil over a function that serve has read, and no launch is between its tests and its registration when serve starts one, then on every run nothing is registered while a raw function runs |
| `RawMode.RawFunctionsRunAlone` | conn.go:406-418 | from the start: such runs with fresh draws have no call in flight while a raw function runs; and on every run at all the connection is then neither hijacked nor closed |
| `RawMode.StartExclusiveIff` | conn.go:406-408 | when serve starts the function it has read, no continuation without a nil installation registers anything while it runs, if and only if no launch is between its tests and its registration and a function is still installed |
| `RawMode.RawExclusionIff` | conn.go:131-142 | the same at any moment while a raw function runs with nothing registered |
| `RawMode.RawControlBreaksExclusionIffNil` | conn.go:73 | storing a function over one that runs alone keeps every continuation free of registrations if and only if it is not nil |
| `RawMode.LateRegistrationBreaksExclusion` | conn.go:140-179 | a launch past its tests registers after serve has found nothing in flight and started a raw function, with a fresh draw and no nil function |
| `RawMode.ExclusionFailsOnSomeRun` | conn.go:140-179 | such a run from a new connection |
| `RawMode.UsedUpMeansStartedIff` | conn.go:406-412 | on every run without a further installation, a function that has been used up was started exactly once, unless an earlier one had its turn when it was installed; then it was erased unstarted |
| `RawMode.CanBeStartedIff` | conn.go:406-412 | some continuation without a further installation starts the installed function, if and only if serve neither runs another one nor is leaving, and the connection is neither hijacked nor past the tests of a hijack |
| `RawMode.HijackOverRawControl` | conn.go:97-101 | a function stored between a hijack's tests and its setTrue: the hijack succeeds over it, and no continuation starts it |
| `RawMode.AcceptedButNeverStarted` | conn.go:63-75 | such a run from a new connection, on which RawControl has reported success |
| `RawMode.InstalledTooLateIsErased` | conn.go:412 | a function installed while another one runs is gone when that one returns, and was not started |
| `RawMode.HijackGrantedIff` | conn.go:82-99 | a hijack by a handler with the lock free passes its tests if and only if the connection is not closed, nothing is in flight, nobody has hijacked and no raw function is installed; otherwise nothing changes |
| `RawMode.InstalledWasStored` | conn.go:73 | on every run, an installed raw function was installed at the start or stored by a RawControl of that run |
| `RawMode.HijackOverlapsStore` | conn.go:97-101 | none is installed when a hijack passes its tests, and one found installed at its setTrue has been stored in between |
| `Draining.ClosedStep` | conn.go:131-133 | after close no step registers anyone, and each caller step lowers the measure over caller phases by one |
| `Draining.ClosedRunIsBounded` | conn.go:187-219 | on every run after close the caller steps taken and those remaining add up to what remained at the start |
| `Draining.UnfinishedCanMove` | conn.go:187-219 | in every closed state every unfinished caller has an enabled step, but for one about to return while Close holds the lock |
| `Draining.CloseCompletes` | conn.go:624-638 | Close, once begun, runs through its steps to the end and leaves no buffer behind |
| `Draining.CallersDrain` | conn.go:187-219 | from every closed state, Close and the callers can come to their end in exactly the steps Close has left and those remaining to the callers, and `activeReq` is then empty |
| `Draining.ZeroRemainingMeansDrained` | conn.go:178-188 | the measure is zero exactly when no caller holds the lock or is in flight, and then nothing is registered |
| `ConnObjects.Server.TrackConn` | server.go:141-152 | adds or removes exactly that connection |
| `ConnObjects.Server.CloseConns` | server.go:155-163 | closes every tracked connection and leaves none tracked |
| `ConnObjects.Server.CloseIdleConns` | server.go:339-354 | whatever the order of the walk: closes and removes exactly the idle connections, keeps the rest, and returns true exactly when none is left |
| `ConnObjects.Server.SetKeepAlivesEnabled` | server.go:298-307 | keep-alives are then on exactly if asked for and no Shutdown runs; switching them off drops exactly the idle connections |
| `ConnObjects.Conn.constructor` | server.go:235-236 | a new connection starts in the state machine's initial state |
| `ConnObjects.Conn.SetState` | conn.go:521-532 | stores the state and tracks or untracks the connection as the state demands |
| `ConnObjects.Conn.RawControl` | conn.go:63-75 | reports closed before hijacked and then changes nothing, or takes the test and the store step |
| `ConnObjects.Conn.TestRaw` | conn.go:64-71 | takes the test step |
| `ConnObjects.Conn.StoreRaw` | conn.go:73 | takes the store step, whatever has happened since the tests |
| `ConnObjects.Conn.HijackLocked` | conn.go:78-116 | by the fields of the object: ErrConnClose if closed, else ErrLaunched if anything is in flight, else ErrHijacked if hijacked, else ErrRwaControl if a function is installed, changing nothing; success exactly otherwise, which takes the four hijack steps, untracks, hands the reader over and gives the writer back |
| `ConnObjects.Conn.TestHijack` | conn.go:82-99 | the same refusals in that order, and the test step |
| `ConnObjects.Conn.TakeOver` | conn.go:101-115 | takes the three steps that follow, whatever raw function has been stored since the tests |
| `ConnObjects.HijackSteps` | conn.go:101-115 | the three steps after the tests end in the state with the writer gone, and keep the invariant |
| `ConnObjects.Conn.TestLaunch` | conn.go:128-142 | by the fields of the object: ErrConnClose, ErrHijacked or ErrRwaControl in that order, or goes on holding the lock; takes the Begin step |
| `ConnObjects.Conn.Launch` | conn.go:144-187 | takes the Abandon step with the error the source returns, or the Register and Wrote steps, a failed write being unregistered again |
| `ConnObjects.Conn.Register` | conn.go:153-179 | takes the Register step with the nonce the loop draws |
| `ConnObjects.Conn.WriteAndRelease` | conn.go:183-187 | takes the Wrote step |
| `ConnObjects.Conn.DrawNonce` | conn.go:153-164 | the hundred-draw loop computes `Pick` |
| `ConnObjects.Conn.Unregister` | conn.go:178-188 | the deferred functions take the Return step: delete, then close |
| `ConnObjects.Conn.DeliverToCaller` | conn.go:449-456 | the non-blocking send takes the DeliverReply step |
| `ConnObjects.Conn.ReleaseBuffers` | conn.go:591-602 | hands out both buffers and forgets them |
| `ConnObjects.Conn.Close` | conn.go:624-638 | takes the five steps of Close, ends closed, untracked, with the socket closed and both buffers given back |
| `World.EveryRunIsConserved` | server.go:141-163 | at every reachable state each accepted connection is tracked, or hijacked, or has its socket closed, or is inside the one stretch of Close in between; a tracked one is never Hijacked or Closed; a walk in progress has removed exactly those it saw idle |
| `World.StepKeepsConserved` | conn.go:521-532 | each step of any connection or of the server keeps that |
| `World.NeverTrackedAgain` | server.go:141-152 | once untracked, a connection is never tracked again |
| `World.WalkIsExact` | server.go:339-354 | however states change during the walk, it chooses exactly the connections it observes idle; `activeConn` is what it was minus those it has closed, and their sockets are closed |
| `World.WalkResult` | server.go:264-288 | closeIdleConns returns true exactly when no tracked connection is left, so a Shutdown that ends this way leaves none at that moment |
| `World.QuietIff` | server.go:264-288 | a Shutdown call comes to its quiet end in exactly one kind of step: the end of its own walk with `activeConn` empty |
| `World.ShutdownStopsPasses` | conn.go:401-404 | below 2^31 running Shutdown calls, a connection at the head of its loop leaves it if and only if one of them is running, and otherwise goes on to the next pass, whatever step is taken |
| `World.CloseConnsClosesAll` | server.go:155-163 | afterwards nothing is tracked, and every connection not hijacked has its socket closed or is in the one stretch of its own Close in between |
| `World.AcceptTracks` | server.go:235-237 | an accepted connection is new and tracked, once nobody walks |
| `World.ShutdownCount` | server.go:264-266 | on every run `inShutdown` is the number of running Shutdown calls as an int32, so that very number below 2^31 |
| `World.WalkCanFinish` | server.go:339-354 | whoever holds `server.mu` never waits: the walk can always run to its end by its own steps, and then, undisturbed, has removed exactly what was idle |
| `World.UndisturbedWalk` | server.go:339-354 | a whole walk with nothing between its steps leaves exactly what the method `CloseIdleConns` leaves |
| `World.LockIsReleased` | conn.go:624-638 | `conn.mu` is only ever taken before `server.mu`: its holder, be it Close, a hijack or a launch, lets go after finitely many steps of its own and of a walk in progress |
| `World.StepProjects` | server.go:235-237 | a step of the server is, for each connection, one step of its protocol or none |
| `World.RunProjects` | server.go:235-237 | a run of the server is a run of each connection's protocol |
| `World.ObservedIdleIsNotAnswering` | server.go:344-348 | a connection that a walk observes idle is at that moment not running a handler and not handing over a reply |
| `World.WalkChoosesRawIff` | server.go:344-350 | a walk that observes a connection under a raw function chooses it if and only if that connection has ever been idle |
| `World.IdleWalkClosesUnderRawFunction` | server.go:344-350 | a run from the server's start on which the socket is closed and untracked while a raw function runs |
| `World.AnsweringStartsIff` | conn.go:437-473 | a connection that is not answering starts to by exactly two steps: a good request and a reply that parses |
| `World.SparedUnlessResumed` | server.go:344-350 | so on every run without such a step between the observation and the close, the connection closed is not answering |
| `World.ClosedUnderItsHandler` | server.go:344-350 | with such a step, the socket is closed under the running handler |
| `World.IdleWalkReachesAHandler` | server.go:344-350 | a run from the server's start on which that happens |
| `Buffers.EveryRunIsLinear` | func.go:252-304 | on every run each buffer is in at most one hand, in no pool twice or outside its size class, never in a pool and a hand at once; and no buffer is lost |
| `Buffers.EveryBufferIsInOnePlace` | func.go:252-304 | from the start, every buffer ever made is in exactly one place: one pool, one connection, hijacker or parser call, or dropped by the collector |
| `Buffers.HijackKeepsLinear` | conn.go:111-115 | the hijacker takes the connection's reader over, and nothing else moves |
| `Buffers.ReturnWriterKeepsLinear` | conn.go:111-113 | the writer goes back to its own pool once |
| `Buffers.FlushKeepsLinear` | conn.go:591-602 | Close gives both buffers back, each once |
| `Buffers.EquipReaderKeepsLinear` | conn.go:391-394 | a connection's reader comes from the pool, which then no longer holds it, or is new |
| `Buffers.PooledReaderIsReused` | func.go:252-267 | whatever reader the pool holds can be the one a connection gets, and the pool then no longer holds it |
| `Buffers.PooledWriterIsReused` | func.go:269-304 | the same of a 4k writer |
| `Framing.Stream.ReadLineBytes` | conn.go:244-269 | reads up to the LF and drops it with one CR before it |
| `Framing.Stream.IdleWait` | conn.go:565-588 | skips CR and LF, stops before the next byte, succeeds exactly when four bytes are there |
| `Framing.ReadLoop` | conn.go:420-434 | the loop hands out exactly the lines `Handed` says |
| `Framing.LoopRecoversLines` | conn.go:420-434 | for lines of at least four bytes with their ending, without LF inside or CR at the ends, ended by LF or CRLF and surrounded by any further line endings, the loop hands out exactly those lines in order |
| `Framing.FramesAreHandedOut` | conn.go:420-434 | the same from the first line on |
| `Framing.IdleFindsNext` | conn.go:565-588 | after a line, idleWait stops at the next line, or gives up when none follows |
| `Framing.HandedSkipsGap` | conn.go:430-434 | empty lines before a line are skipped |
| `Framing.ReadSentLine` | conn.go:244-269 | a line ended by LF or CRLF comes back as it was sent, a CR before a CRLF included |
| `Framing.AfterIdleIff` | conn.go:565-588 | after any line endings idleWait succeeds exactly when at least four bytes follow |
| `Framing.UnfinishedLineIsHanded` | conn.go:244-269 | bytes that the peer leaves without a line ending are handed out as a line |
| `Response.ResponseWrite.Status` | responseWrite.go:95-102 | unless hijacked, the status is the code given, whatever it was |
| `Response.ResponseWrite.SetBody` | responseWrite.go:128-141 | ErrHijacked, or ErrBodyNotAllowed where the status allows no body; otherwise the body is the data given; a status not yet set is 200 from then on |
| `Response.ResponseWrite.Write` | responseWrite.go:72-86 | marks the reply raw-written unless hijacked or empty, also when the buffered write fails or falls short |
| `Response.ResponseWrite.Hijack` | responseWrite.go:166-172 | refuses once the response is done, and otherwise answers what hijackLocked does |
| `Response.ResponseWrite.DecideConnection` | dataWriter.go:30-43 | the Connection value that goes out, and `closeAfterReply` exactly when it is not "keep-alive" |
| `Response.ResponseWrite.GenerateResponse` | dataWriter.go:16-48 | the reply carries the request's nonce, the handler's status or 200, its body and headers, the decided Connection and a Date |
| `Response.ResponseWrite.Done` | responseWrite.go:154-160 | nothing for a raw-written reply, ErrDoned and no line when done before, otherwise exactly one such reply |
| `Response.DoneTwice` | dataWriter.go:57-61 | whatever becomes of the first, a second done sends no line |
| `Response.KeepAliveOnlyWhenAllowed` | dataWriter.go:30-43 | "keep-alive" goes out only for version 1.1 or later, no close token and keep-alives enabled |
| `Response.ClientAgreesIff` | func.go:234-250 | when the client computes Close the server closes after the reply; the converse fails in exactly the stated cases |
| `HandlerLaws.DraftAgrees` | responseWrite.go:72-141 | reading a handler's actions from the last one back: its status, body, raw writing and every header are those of the response |
| `HandlerLaws.HijackedIff` | responseWrite.go:166-172 | the response is hijacked exactly when one of the actions was a hijack that was granted |
| `HandlerLaws.ReplyByActions` | dataWriter.go:16-48 | the reply of a handler that does not hijack: the status of the last Status call or 200, the data of the last SetBody at whose moment the status allowed a body or null, each header as the last SetHeader or DelHeader of its key left it, the Connection value by the rules of keep-alive, and a Date |
| `HandlerLaws.EndsLoopIff` | conn.go:400-517 | a turn ends the loop if and only if something in it is amiss: a shutdown, a failed read, a malformed line, a raw function that fails, a refused stray line, a panic, a hijack, a failed encoding or write, a reply whose Connection is not "keep-alive", keep-alives switched off, or no further data |
| `HandlerLaws.GoingOnAnswers` | conn.go:474-511 | a turn that lets the loop go on has sent the request's one reply, unless the handler wrote it raw, and nothing in other turns |
| `HandlerLaws.LoopTakesAllGoodTurns` | conn.go:400-517 | the loop takes every turn up to and including the first in which something is amiss and no further; with nothing amiss it takes them all, and each request it goes on from is answered |
| `HandlerLaws.MalformedIsRefused` | conn.go:466-471 | a malformed line gets one reply, a 400 under the nonce "-1" with Connection "close", which the client sees, and is the last |
| `LoopViews.TurnIsAPass` | conn.go:400-517 | from the head of the loop in any safe state each turn that is possible there is a run of the connection's steps, written out, that ends at the head of the loop exactly when nothing in the turn is amiss, and otherwise at the loop's exit |
| `LoopViews.ViewsAgree` | conn.go:400-517 | and it ends there exactly when the turn ends the loop over bytes and replies |
| `ServeLoop.StopsUnseenIff` | conn.go:502-516 | the loop ends in the very turn of a reply in which the client sees no close in exactly the stated cases, among them keep-alives switched off after a "keep-alive" |
| `ServeLoop.HandleRequest` | conn.go:474-511 | one handled request generates its one reply or none, and tells whether the loop goes on |
| `ServeLoop.Serve` | conn.go:400-517 | for every input and handler: the replies in the output are what the turns generated, up to and including the first that ends the loop, with the nonces owed in order; the launched lines in it are those written during these turns, in order |
| `ServeLoop.RepliesInOrder` | conn.go:400-517 | the generated replies carry the nonces of the answered requests in order, one each, "-1" for a malformed one |
| `ServeLoop.LaunchesAreFilteredOut` | conn.go:183-185 | lines written by launches do not disturb the replies |
| `ServeLoop.NothingAfterTheEnd` | conn.go:466-511 | nothing is generated after a hijack, a panic, a 400 or a reply that closes, and the 400 is the last line |
| `ServeLoop.ClientCloseMeansServerStops` | conn.go:502-506 | whenever the client computes Close from a reply, that reply was the loop's last |
| `ServeStream.ServeBytes` | conn.go:400-517 | the loop over a connection's bytes: its output is faithful to the turns that the lines of those bytes make |
| `ServeStream.LinesAreAnsweredInOrder` | conn.go:420-517 | whatever line endings surround the lines sent and whatever the lines come to, the replies carry the nonces owed for the lines, in their order, up to and including the first line in whose turn something is amiss |
| `ServeStream.TurnsOfSent` | conn.go:420-434 | the turns made by the bytes sent are those of the lines, one each |
| `Header.HeaderMap.Clone` | header.go:26-32 | a new map with the same entries, the original untouched |
| `Relay.ReadForgetsOnly` | func.go:128-188 | two accepted messages read as the same request if and only if they agree on nonce, version, method, path, headers and host, and on the body of a POST |
| `Relay.CheckMessage` | func.go:146-168 | the tests in the source's order come to `Accepted` |
| `Relay.ReadRequest` | func.go:128-188 | the fields filled one by one are those of `Read` |
| `Relay.Request.GetBody` | request.go:188-207 | gives what was set or else what was read, the latter once; an error when there is neither or the destination does not take it, after which what was read is gone |
| `Relay.Request.Target` | request.go:298-325 | the host that was set, or else the URL's; path and version to send; or the first refusal |
| `Relay.Request.KeepBody` | request.go:340-343 | the body read becomes the one to write, so that a second encoding finds it again |
| `Relay.Request.RequestConfig` | request.go:297-346 | the encoding, its refusals, and that neither the header map nor a second encoding is changed by it |
| `Relay.EncodedIsAccepted` | request.go:297-346 | what a request that was read encodes to is accepted by the reader |
| `Relay.RelayedMessage` | request.go:297-346 | a message read and encoded again, field by field: the host it names, or else its home, or else that of its path, refused when all are empty; its own version, method and path; Connection "close" exactly when it asks to close; the body of a POST only |
| `Relay.PlainMessageAccepted` | func.go:146-168 | a plain 1.1 message is accepted exactly with one of the six methods |
| `Relay.TokenChars` | func.go:161-168 | the characters a header name may hold, as section 3.2.6 of RFC 7230 lists them |
| `Relay.AcceptedHeadersAreOneLine` | func.go:161-168 | in an accepted message no header name holds a blank, a colon or a control character, and no value a line break or any control character but tab |
| `Relay.RelayKeeps` | func.go:128-188 | a request that was read encodes exactly when it has a host; reading that keeps method, path, version, close flag, body and headers, but for Connection set to "close" when Close is set |
| `Relay.RelayFixedPoint` | request.go:297-346 | a second relay changes nothing but the nonce |
| `Relay.PrintedVersionSurvives` | request.go:315-321 | with an empty Proto the version comes back the same exactly when it is from 1.0 up and within the parser's bounds |
| `Client.EveryRunKeepsInv` | client.go:62-165 | the invariant of the call and its watcher over every interleaving |
| `Client.PooledIff` | client.go:114-162 | by the events of the run: a connection is closed once, when the watcher ends, and goes back to the pool if and only if the request did not ask to close, the watcher did not see the context end, the call has finished, and either a reply came with the request's nonce and without Close, or a deadline or a write failed |
| `Client.OutcomeByReply` | func.go:194-204 | on every run the outcome is good exactly when a reply with the request's nonce came, bad exactly when what came was none or another's, and failed exactly when a deadline or write failed |
| `Client.CleanReplyIsPooled` | client.go:156-162 | for every reply with the request's nonce and without Close, a run that ends with it as the result and the connection in the pool |
| `Client.ReusedOnlyWhenClean` | client.go:156-162 | when deadlines and writes succeed, only after a reply that came with the request's nonce and with neither side asking to close |
| `Client.CancelledIsNotPooled` | client.go:64-70 | once the context has ended before DoCtx is past the test in its deferred function, the connection cannot get to the pool any more, even after a clean reply |
| `Client.FailedWriteIsPooled` | client.go:139-154 | a run from the start in which a failed write leaves the connection to the pool |
| `Client.StepsMakeProgress` | client.go:62-165 | every step but a cancellation lowers a measure |
| `Client.StuckOnlyAtPeer` | client.go:124-156 | until both parts are over, the call can go on by itself if and only if it is not waiting for the peer with its context still alive |
| `Client.CallEnds` | client.go:124-136 | once the context has ended or a reply has come, the call returns and the watcher ends by their own steps, and a dialled connection has been closed exactly once |
| `Tokens.HasToken` | func.go:320-350 | the index loop finds exactly the bounded stretches its filter lets through, and for a plain token exactly the pieces equal to it ignoring case |
| `Tokens.HasPieceIffFound` | func.go:337-347 | the pieces of the split text are exactly its stretches bounded by separators |
| `Tokens.AcceptsMeansHasPiece` | func.go:320-350 | for a plain token hasToken means "some piece equals it ignoring ASCII case" |
| `Tokens.MeaningIffPlainToken` | func.go:320-350 | and it means that for every text if and only if the token is plain |
| `Tokens.UpperStartMisses` | func.go:328-336 | a token that starts upper-case misses its own lower-case form |
| `Tokens.PiecesSplit` | func.go:353-355 | a blank, a comma or a tab splits the text into the pieces before it and those after it |
| `Tokens.OnePiece` | func.go:353-355 | and a text without any of the three is one piece |
| `Tokens.FoldTable` | func.go:345 | folding takes each of the 26 upper-case letters to its lower-case one and changes no other character |
| `Version.ParseIOTVersion` | func.go:76-100 | every accepted version lies within 0 to 1000000 in both numbers |
| `Version.ShortcutsAgree` | func.go:78-83 | the two shortcuts answer what the general parse would |
| `Version.AtoiReads` | func.go:91-95 | leading zeros and a sign are read as strconv.Atoi reads them |
| `Version.AtoiAcceptsOnly` | func.go:91-95 | a number is read exactly when it is an optional sign and at least one digit; that strconv.Atoi also refuses what exceeds 64 bits changes nothing, as such a version is refused for its size |
| `Version.VersionRoundTrip` | request.go:315-321 | a printed version parses back exactly when both numbers are from 0 to 1000000 |
| `BasicAuth.Base64RoundTrip` | func.go:376-379 | decoding what was encoded gives the bytes back (section 4 of RFC 4648) |
| `BasicAuth.SymbolsFromTable` | func.go:376-379 | the 64 symbols are those of table 1 of section 4 of RFC 4648 |
| `BasicAuth.GroupIsOneNumber` | func.go:376-379 | each group of symbols, read as digits to base 64, is its bytes read as digits to base 256, padded as that section says |
| `BasicAuth.DecodesIffPadded` | func.go:363-366 | a text decodes if and only if it is whole groups of four symbols with at most two "=" at the very end, and the padding gives the number of bytes |
| `BasicAuth.BreaksDoNotCount` | func.go:363-366 | line breaks in it change nothing |
| `BasicAuth.FirstColonSplit` | func.go:367-372 | splitting "user:password" at its first colon gives the pair back exactly when the user name has no colon |
| `BasicAuth.StoredTextParses` | func.go:358-373 | the parser accepts an encoded text exactly when it holds a colon, and splits it at the first |
| `BasicAuth.OnlyBasicParses` | func.go:358-373 | any text is accepted exactly when it is "Basic " and something that decodes to a text with a colon |
| `BasicAuth.CredentialsRoundTrip` | request.go:259-271 | reading back always succeeds, re-splits the same text, and returns the same pair exactly when the user name has no colon (section 2 of RFC 7617) |
| `Domain.TryWildcards` | func.go:441-448 | the loop over labels, overwriting them in place, makes the calls in order and stops at the first accepted |
| `Domain.DerogatoryDomain` | func.go:429-449 | at most one call more than there are labels, the host first, all before the last refused |
| `Domain.JoinOfSplit` | func.go:441-444 | joining the labels gives the host back |
| `Domain.SplitOfJoin` | func.go:441-444 | splitting joined labels gives the labels back |
| `Domain.CandidateFits` | func.go:429-449 | every candidate has the host's port and as many labels, the first k "*" and the rest the host's own |

## Left out

- Sockets, deadlines, background reads and read limits of `vconn`: a connection is a byte sequence or a stream of events, and a timeout is one of the ways an event may turn out.
- TLS handshake and NPN dispatch (conn.go:365-388): driven by the TLS library, and over before the connection's context exists.
- `doneChan` and listeners (server.go:78-138, 182-240): unlocked replacement of a channel, with no invariant across several listeners.
- JSON text: a message is the record it holds, a JSON value opaque but for null; a number keeps its text, so the loss of precision in `interface{}` is not modelled. In the source a message with none of the request's keys but possibly `home` makes readRequest panic on a nil embedded pointer; `Wire` always has those fields, and such a message is refused for its empty nonce.
- URL parsing: a function that the lemmas quantify over, of which only the refusal of the empty string is assumed.
- User hooks HandlerRequest, HandlerResponse, ConnContext and ConnState: opaque callbacks.
- `conn.readRequest`'s own tests (major version 1, host syntax) and the feature words by which isRequest and isResponse classify a line: they decide which turn a line is, and the turns are arbitrary.
- One loop, two views: `serve` is modelled for locks in `ConnProtocol` and for bytes and replies in `ServeStream`, and `LoopViews` ties each turn of the one to a pass of the other; its locked stretches are methods of `ConnObjects.Conn`, its unlocked steps only events. A raw function's reading of the bytes is in neither.
- `DoCtx` as a method: two goroutines share its variables, so it is a state machine of their steps; the default host it writes into the request, and requests with an empty nonce (the nonce it generates is never stored in the request that the reply is compared with), are not modelled.
- Tokens.HasToken: for ASCII tokens, as the source's own comment says; Unicode case folding of other tokens is not modelled.
- The sockets that `closeConns` closes one after another (server.go:158-161) are closed in one step; `ConnObjects.Server.CloseConns` has the loop.
- The address lookup of DoCtx (client.go:102) takes no context; it counts as a step the call takes by itself.
- The 2k writer pool is modelled, but nothing in the program allocates such a writer.
- `responseWrite.Flush` after a hijack and a writer kept after its handler returned: outside the intended use.
- The token form of the Authorization header (request.go:275-291), `route.go`, `TemplateDot.go`, `serverHandlerDynamic.go`, `site.go`, `reflect.go`, logging and `iottest`: they would add only easy members or wrap libraries that are not part of this model.
