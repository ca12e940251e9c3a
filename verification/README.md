# A verified model of the SSH server library

This project models the hand-written protocols and codecs of a Go SSH server library and
proves properties of them in Dafny 4.11. `dafny verify dfyconfig.toml` checks everything.

| file | what it models |
|---|---|
| `Basics.dfy` | shared types: `Option`, bytes, 16- and 32-bit bounds |
| `Shlex.dfy` | the command-line splitter: reader loop, one-pass reference splitter, quoting, comparison with POSIX |
| `Wire.dfy` | payload parsers of RFC 4254 (sections 6.2, 6.3.1, 6.7, 8) and the encoders they invert |
| `XAuthority.dfy` | the in-place writer of an `.Xauthority` record with 16-bit positions, and its decoder |
| `Newlines.dfy` | the newline rewriting of `session.Write` |
| `Session.dfy` | the session request loop, the handler it starts, `Exit`, `Break`, `Write` |
| `Signals.dfy` | signal buffering, registration and the background flush under `sigMu` |
| `Channels.dfy` | the open-channel set and the request forwarders, one by one and all together |
| `KeepAlive.dfy` | `SessionKeepAlive`, and the timed protocol of ticker loop, probe and request loops |
| `Forwards.dfy` | the shared address-to-listener maps of Unix and TCP remote forwards |
| `Bicopy.dfy` | two copiers with half-close, abort and join |
| `Lifecycle.dfy` | accepted, handshaking and tracked connections, wait groups and the resettable done channel |

## How the concurrent parts are modelled

Each concurrent part has a `State`, an `Action` for every lock-protected section, channel
operation or foreign call, a predicate `Enabled` and a function `Apply`. A run is any sequence
of enabled actions, so every interleaving of any number of goroutines is covered. An
invariant is proved for every action and then for every run by induction; the run-level
claims follow from it. Where the Go code is an object changed under a lock, a class holds the
same fields and its methods do what the functions used by the protocol do (`View() == ...`).
In `Signals`, `KeepAlive` and `Lifecycle` the class also keeps a record of what happened,
`Valid()` ties the fields to it as the protocol's invariant does, and the methods say what they
add to the record and keep `Valid()`. Answers from outside (callbacks, network outcomes,
`Accept`, `SendRequest`, which case a `select` picks) are parameters or freely chosen actions.
Time is an integer clock that an action advances. Claims about endless runs assume weak
fairness: an actor that stays ready to step does so at some time.

## What the code does differently from its documentation

- `server.go:176` says that x11 requests are denied when no callback is set; the code
  (`session.go:409-417`) accepts them: `X11WithoutCallbackIsAccepted` is a run, and
  `WhenAnX11RequestIsAccepted` and `WhenTheX11RuleIsKept` are the exact conditions.
- `session.go:45-48` promises POSIX word splitting. `PosixExactlyWhen` says for which texts the
  splitter keeps that promise, against a reference splitter; an empty quoted word, a quoted
  dollar sign inside double quotes and a line continuation are the three ways to break it
  (`EmptyWordIsNotPosix`, `QuotedDollarIsNotPosix`, `ContinuationIsNotPosix`).
- `server.go:540-555` closes the transport in a step of its own after `TimeIsUp` has answered,
  so activity that arrives in between does not save the connection:
  `ActivityAfterTheCheckIsIgnored` is a run, `WhenClosedOnActivity` the exact condition.
- `server.go:82-88` adds a channel to the set some time after accepting it, so the set need not
  be in acceptance order: `AddsCanOvertake` is a run, `AcceptanceOrderExactlyWhen` says in which
  runs the set is in that order all along.
- `streamlocal.go:159` says that TCP does the same as Unix. Its clean-up deletes
  unconditionally, its context watcher closes whatever the map holds, and its accept loop never
  closes the listener: `TcpLateCleanupRemovesNewer`, `TcpWatcherClosesAnothersListener` and
  `TcpAcceptErrorLeaks` are runs that show each difference, `TcpMapAgreesExactlyWhen`,
  `WhatATcpWatcherCloses` and `TcpClosableExactlyWhen` the exact conditions.
- `server.go:366-370` and `server.go:15-16` promise `ErrServerClosed` after `Close`; a new
  `Serve` that resets the done channel hides the close from an older one: `ResetHidesTheClose`.
  `ServeAnswers` is the exact condition.
- `server.go:340-342` says that `Shutdown` waits for connections; one that is still in its
  handshake is not waited for: `ShutdownMissesHandshakes` is a run, `WhenShutdownWaitsFor` the
  exact condition.
- `x11.go:73-78` takes each length of the record to fit 16 bits, but cuts their sum to 16 bits
  too; an x11-req whose record has exactly 65536 bytes makes the writer panic:
  `OversizeRequestPanics` and `OversizeRequestExists`. `PrepareXAuthority` says exactly when it
  panics and when the record is right.

Two behaviours that no documentation excludes but that a caller may not expect:

- The byte count that a short `Write` reports under a PTY can exceed the caller's bytes that
  were sent: `ShortCountCanExceed` is an input, `ReportedCountIsHonest` the exact condition.
- A refused subsystem request clears the command but leaves its name in the session
  (`session.go:332-350`), so a shell started later reports a subsystem:
  `RefusedSubsystemLingers` is a run, and `WhenTheStartedIsReported` says exactly when a started
  session reports the subsystem that was started.

## Model

| member | source | states |
|---|---|---|
| `Shlex.ReadToken` | shlex.go:37-104 | the reader loop returns the token, rest and end-of-input of a recursive scan; that the guard at line 90 always holds in the word state is its loop invariant |
| `Shlex.ShlexSplit` | shlex.go:17-32 | on every input the loop ends without an error and its result is the one-pass splitter's |
| `Shlex.SplitByTokens` | shlex.go:20-31 | splitting is: the first token if it is not empty, then the split of the rest |
| `Shlex.SplitInvertsQuoting` | shlex.go:37-104 | for all words, each written in any mix of single-quoted, double-quoted, backslash-escaped and bare pieces, with any white space around and between them, splitting gives the words back without the empty ones, and all of them exactly when none is empty |
| `Shlex.SplitComposes` | shlex.go:88-92 | white space after `a` separates it from every continuation exactly when the scan of `a` ends outside quotes and escapes |
| `Shlex.SplitOnlyDrops` | shlex.go:37-104 | the concatenated words are a subsequence of the input |
| `Shlex.PlainTextSplitsIntoFields` | shlex.go:54-66 | without quotes and backslashes the words are the maximal runs of non-space characters |
| `Shlex.PosixExactlyWhen` | session.go:45-48 | the splitter gives the words of a POSIX reference splitter, written apart from it, exactly on the texts without a backslash-newline outside single quotes, a backslash before a dollar sign or backquote inside double quotes, or an empty word |
| `Shlex.SplitIsPosixWithoutEmpty` | shlex.go:81-86 | where neither backslash case occurs, the words are the POSIX words that are not empty |
| `Shlex.EmptyWordIsNotPosix` | shlex.go:22-24 | an empty quoted word on which the splitter differs from POSIX |
| `Shlex.QuotedDollarIsNotPosix` | shlex.go:81-86 | a quoted dollar sign inside double quotes on which it differs |
| `Shlex.ContinuationIsNotPosix` | shlex.go:81-86 | a line continuation on which it differs |
| `Wire.ParseTerminalModes` | util.go:67-92 | the loop computes the recursive reading of opcode entries, ignoring the length word |
| `Wire.StringRoundTrip` | util.go:121-130 | an encoded string is read back exactly when the remaining length cut to 32 bits covers it, hence always below 4 GiB |
| `Wire.StringInverse` | util.go:121-130 | whatever is accepted as a string is that string's encoding followed by the rest |
| `Wire.U32Inverse` | util.go:132-137 | a number that is read is encoded by the four bytes it was read from |
| `Wire.WindowRoundTrip` | util.go:94-119 | an encoded window is read back, with the bytes after it as the rest |
| `Wire.WindowInverse` | util.go:94-119 | a window parses exactly when sixteen bytes are there, and then it is what they encode |
| `Wire.MapOfIsLookup` | util.go:74-89 | with duplicate opcodes the last value wins |
| `Wire.PtyRoundTrip` | util.go:19-39 | an encoded pty-req is accepted exactly when its last mode entry is complete, with the encoded term, window and modes, whatever the length word and the bytes after the end |
| `Wire.PtyInverse` | util.go:19-39 | every accepted payload is an encoding of the result |
| `Wire.PtyMapRoundTrip` | util.go:67-92 | a finite map of opcodes 1 to 160 survives in any encoding order |
| `Wire.PtyStops` | util.go:80-84 | the terminator and every opcode above 160 end the modes, whatever follows |
| `Wire.X11RoundTrip` | util.go:41-65 | an encoded x11-req is read back; the flag is true exactly for the byte 1 |
| `Wire.X11Inverse` | util.go:41-65 | every accepted payload is an encoding of the result |
| `XAuthority.PrepareXAuthority` | x11.go:59-107 | it fails exactly when the data is not an even number of hex digits or the hostname is missing, and panics exactly when a length prefix falls outside the buffer once positions are cut to 16 bits; the result decodes to the wanted record exactly when the record's size fits 16 bits |
| `XAuthority.Fill` | x11.go:73-106 | the buffer has the 16-bit size; when the size fits it is the encoded record; it panics exactly when a length prefix falls outside |
| `XAuthority.EntryRoundTrip` | x11.go:81-105 | decoding an encoded record (family in host order, lengths big-endian) gives it back |
| `XAuthority.HexInverse` | x11.go:60-63 | hex data decodes exactly when it is an even number of digits in either case, and encoding it again gives it back in lower case |
| `XAuthority.DecimalIsUnique` | x11.go:71 | a number has one decimal spelling without a leading zero, and it is the one written |
| `XAuthority.ClientDataReachesRecord` | x11.go:59-107 | from the client's x11-req bytes to the record: hostname, seat number, protocol and the hex-decoded data are what a reader finds |
| `XAuthority.OversizeRequestPanics` | x11.go:73-85 | from the client's bytes: an x11-req whose record has exactly 65536 bytes parses, its data decodes, and the writer panics on it |
| `XAuthority.OversizeRequestExists` | x11.go:73-85 | for every seat number and host name that leave room there is such a request |
| `Newlines.NormalizeIsOnePass` | session.go:166-169 | the two ReplaceAll passes equal one pass that puts a CR before each LF not after a CR |
| `Newlines.NormalizeIdempotent` | session.go:166-169 | normalising twice is normalising once; the fixed points are the texts without a bare LF |
| `Newlines.NormalizeDistributes` | session.go:166-169 | it distributes over concatenation exactly when the cut does not part a CR from an LF |
| `Newlines.NormalizeLength` | session.go:165-173 | the result is longer by the number of bare LFs, so it never shrinks |
| `Newlines.ReportedCountIsHonest` | session.go:170-174 | a full write reports the caller's length; a short write's count accounts for what was sent exactly under the stated condition |
| `Newlines.ShortCountCanExceed` | session.go:170-174 | a write of one LF, of which only the added CR is sent, is reported as sent |
| `Session.Session.Write` | session.go:163-177 | what goes to the channel, the count returned, and that a fully accepted write returns the caller's length |
| `Session.Session.HandleRequest` | session.go:295-450 | one turn of the loop changes the session as the transition function says |
| `Session.Session.HandleRequests` | session.go:283-451 | the whole loop, with the deferred close of the window channel, is the run over its requests |
| `Session.Session.Exit` | session.go:198-212 | the first call sends the status and closes, and succeeds exactly when sending and closing do; later calls fail and send nothing |
| `Session.Session.Command` | session.go:234-237 | the command is the split of the raw command |
| `Session.RepliesAccountForRequests` | session.go:295-450 | over all runs each request taken gets exactly one reply, in order, except signals and keep-alives that want none; each answer is yes exactly when the request parses and the earlier requests, the callbacks and the handler table allow it (a break's answer, which depends on who is listening, aside) |
| `Session.SetUpFollowsHistory` | session.go:300-367 | at most one handler starts; environment, command, subsystem and X11 record are exactly what the accepted requests say; the command is empty between requests before the start |
| `Session.StartFreezesSetUp` | session.go:300-417 | once handled, the flag, environment, command, subsystem, X11 record and the PTY's term and modes never change |
| `Session.WindowStream` | session.go:378-428 | the windows sent are the initial one and every parsed change in order; the PTY shows the last; the channel is closed once, at the end |
| `Session.NothingAfterTheEnd` | session.go:287-294 | after the stream has ended nothing is sent on the window channel and it is not closed again |
| `Session.ClientWindowsArrive` | session.go:378-428 | encoded pty-req and window-change payloads put the client's windows on the channel |
| `Session.ClientX11Arrives` | session.go:399-417 | an encoded x11-req puts the client's protocol, data and screen into a fresh session |
| `Session.OneExitStatus` | session.go:198-212 | over all interleavings at most one exit-status is sent, with the first caller's code as 32 bits |
| `Session.EndingFollowsInputs` | session.go:198-212 | over all interleavings status and close of the channel are those of the first Exit call that the inputs make, where a running handler's return is a call with 0 |
| `Session.RunningExactlyWhen` | session.go:321-324 | a handler is running exactly when one was started and none has returned |
| `Session.ReturnMeansZero` | session.go:321-324 | a handler that returns with no Exit before ends the session with status 0, whatever follows |
| `Session.WhenABreakIsTaken` | session.go:437-445 | a break request is answered yes exactly when the last call of Break registered a channel |
| `Session.FirstExitWins` | session.go:198-212 | a first `Exit(code)` decides the status whatever follows, the implicit `Exit(0)` included |
| `Session.WhenAnX11RequestIsAccepted` | session.go:399-417 | over all runs an x11-req is accepted exactly when it parses, none was accepted and no handler started before it, and the callback is absent or says yes |
| `Session.WhenTheX11RuleIsKept` | server.go:176 | the documented denial without a callback holds for a request exactly when a callback is set or the request is refused anyway |
| `Session.X11WithoutCallbackIsAccepted` | session.go:409-417 | a run in which an x11-req is accepted with no callback set |
| `Session.RefusedSubsystemLingers` | session.go:331-350 | a run in which a refused subsystem's name is reported by a shell session |
| `Session.WhenASubsystemIsReported` | session.go:331-350 | a name is reported exactly when the last subsystem request before any start carried one |
| `Session.WhenTheStartedIsReported` | session.go:331-360 | a started session reports the subsystem that was started, or none, exactly when a subsystem request started it or the last one before the start, if any, carried no name |
| `Signals.OrderAndConservation` | session.go:257-275 | delivered then waiting signals are the received ones in order minus the dropped; with the mutex free and a channel registered nothing waits |
| `Signals.WhenASignalIsDropped` | session.go:368-377 | a signal is dropped exactly when no channel is registered and 128 are buffered |
| `Signals.HeldUntilDelivered` | session.go:264-274 | while the mutex is held only deliveries happen, in order, to the registered channel, and it is free after exactly the waiting ones |
| `Signals.SignalBox.Signals` | session.go:257-275 | registering a channel keeps every waiting signal waiting, in order, with everything received still accounted for; the mutex stays held exactly when something is to be flushed to the channel |
| `Signals.SignalBox.Receive` | session.go:368-377 | a received signal joins the end of those that wait, unless no channel is registered and 128 wait; delivered, waiting and dropped signals still account for all received |
| `Signals.SignalBox.HandOver` | session.go:264-274 | the oldest waiting signal, and no other, goes to the registered channel |
| `Channels.OpenChannelSet.Remove` | server.go:43-52 | the loop removes the first occurrence and nothing else |
| `Channels.SetAgreesWithLiveChannels` | server.go:28-52 | over all interleavings of any number of channels the set holds, without duplicates and in the order of the adds, exactly the channels that were added, whose forwarder is not past its removal, and that no probe has removed |
| `Channels.Forward` | server.go:89-121 | the forwarding and draining loops do exactly the stated course of events |
| `Channels.ForwarderPartitions` | server.go:97-119 | the requests split into a forwarded prefix in order and a suffix in which exactly the want-reply requests get one negative reply each |
| `Channels.RemovalPrecedesClose` | server.go:90-95 | over all interleavings a channel whose wrapped stream has been closed is not in the set |
| `Channels.EveryForwarderPartitions` | server.go:89-121 | over all interleavings each finished forwarder has passed on a prefix of the requests it read, in order, and refused exactly those of the rest that want a reply, and did nothing else |
| `Channels.NothingIsRefusedUncancelled` | server.go:101-119 | in a run without a cancelled context every finished forwarder has passed on all it read |
| `Channels.AcceptanceOrderExactlyWhen` | server.go:81-88 | the set is in acceptance order in every state of a run exactly when the run never adds a channel while the set holds one that was accepted after it |
| `Channels.AddsCanOvertake` | server.go:81-88 | a run in which the set is not in acceptance order |
| `KeepAlive.SessionKeepAlive.Reset` | keepalive.go:62-72 | with an open ticker the activity is recorded and the time is not up until countMax intervals after it; otherwise nothing is recorded; `lastReceived` stays the latest recorded activity |
| `KeepAlive.SessionKeepAlive.NotePeerActivity` | keepalive.go:80-87 | the same for activity that is no reply, without touching the metrics |
| `KeepAlive.SessionKeepAlive.TimeIsUp` | keepalive.go:95-101 | true exactly when no recorded activity lies in the countMax intervals before now |
| `KeepAlive.DeadPeerDetected` | server.go:540-600 | with ticks handled within d and the close within e of the check, the transport is closed once (countMax+1) intervals plus d plus e have passed since the last bump, even with a hung probe; the check came more than countMax and at most countMax+1 intervals plus d after the last bump before it, at exactly countMax+1 when d is 0; the next tick is always k intervals after the last bump |
| `KeepAlive.NoEarlyClose` | server.go:546-555 | in every run no activity was recorded in the countMax intervals before the check that leads to a close; `lastReceived` is always the latest recorded activity |
| `KeepAlive.WhenClosedOnActivity` | server.go:546-555 | activity in the countMax intervals before the close itself was recorded between check and close; with a close within countMax intervals of the check there is such activity exactly when anything was recorded in between |
| `KeepAlive.ActivityAfterTheCheckIsIgnored` | server.go:546-555 | a run in which the transport is closed although a request was recorded one time unit before |
| `KeepAlive.SilentPeerIsClosed` | server.go:540-560 | from every quiet state there is a run in which a silent peer is closed at exactly countMax+1 intervals; `KeepAlive.DeadPeerDetected` says what holds of all |
| `KeepAlive.ProbeDiscipline` | server.go:556-597 | at most one probe is in flight and the probes run one after the other: pick, send, on a failed channel request remove that channel and send globally, reset only after a reply, release; whenever none is in flight every empty pick and every failed channel request has been followed by a global one |
| `KeepAlive.ProbePrefersOldestLive` | server.go:577-584 | over all runs a probe goes to the live channel that was added first, and straight to a global request exactly when there is none |
| `KeepAlive.BumpsComeFromThePeer` | server.go:589-606 | the recorded activity of a run is that of its recording steps up to the Close; a run in which the peer sends nothing and answers no probe that was sent records nothing |
| `KeepAlive.LoopEndsExactlyWhen` | server.go:541-554 | the loop has ended exactly when it saw the end of the connection or closed the transport, and then takes no tick and starts no probe; no tick comes after the keep-alive's Close |
| `KeepAlive.LateTickDropsOthers` | server.go:541-546 | a tick taken late stands for all that were due; the next is the first still to come, a whole number of intervals after the last bump |
| `KeepAlive.MetricsConservation` | keepalive.go:45-72 | the metrics are what the steps of the run add up to: callbacks begun; callback and outside resets and replies to probes that were sent; ticks that found the slot free; without outside resets replies never exceed callbacks plus probes sent |
| `Forwards.UnixMapAgreesWithListeners` | streamlocal.go:132-217 | over all runs every registered open listener is its address's map entry, the map names no cleaned-up listener, and no address has two open listeners |
| `Forwards.UnixCleanupSparesOthers` | streamlocal.go:193-199 | the late clean-up of an old listener removes its own entry only and never a newer one |
| `Forwards.ClosedExactlyWhen` | streamlocal.go:160-217 | in any run of either kind an open listener is closed exactly when a cancel that found it, its watcher, or in Unix its own accept loop closes it |
| `Forwards.UnixEndCloses` | streamlocal.go:165-168 | when a connection has ended, the watcher of each Unix listener it registered can close it, and does |
| `Forwards.LoopsAndWatchersInOrder` | streamlocal.go:164-200 | in every run accept loops break, clean up and finish in that order, and watchers wait for the end of their connection or, in Unix, of their loop |
| `Forwards.ForwardSucceedsExactlyWhen` | streamlocal.go:132-162 | in any state a forward can go through exactly when the address is not bound and, in Unix, the map does not name it; the new listener is then the entry |
| `Forwards.FailedForwardLeavesNothing` | streamlocal.go:149-153 | a forward whose listen fails changes neither map nor listeners |
| `Forwards.UnixFinishedIsClosed` | streamlocal.go:193-199 | a finished accept loop leaves its listener closed |
| `Forwards.TcpMapAgreesWhenCleanedFirst` | tcpip.go:134-178 | the agreement holds for TCP on runs in which each old clean-up precedes re-registration |
| `Forwards.TcpMapAgreesExactlyWhen` | tcpip.go:134-178 | the TCP map agrees with the open listeners in every state of a run exactly when each clean-up in it finds its address missing, its own or with a closed listener |
| `Forwards.WhenTcpCleanupIsSafe` | tcpip.go:175-177 | a TCP clean-up keeps the agreement exactly when the entry it deletes is missing, is its own or names a closed listener |
| `Forwards.TcpLateCleanupRemovesNewer` | tcpip.go:175-177 | a run in which the unconditional delete removes a newer listener's entry |
| `Forwards.WhatATcpWatcherCloses` | tcpip.go:137-145 | a watcher that found an entry closes, whenever it does, the listener registered last at the address before its look-up; that is its own exactly when the address was not registered again before |
| `Forwards.WhenATcpWatcherClosesAnothers` | tcpip.go:137-145 | it closes another connection's listener exactly when the last registration at the address before its look-up was another connection's |
| `Forwards.TcpWatcherClosesAnothersListener` | tcpip.go:137-145 | a run in which one connection's end closes another connection's listener |
| `Forwards.TcpClosableExactlyWhen` | tcpip.go:137-199 | after any run a registered open listener can still be closed in some continuation exactly when the map names it or a cancel or a watcher is about to close it |
| `Forwards.TcpAcceptErrorLeaks` | tcpip.go:146-178 | a run after which a listener stays open whatever happens later |
| `Forwards.ForwardTable.DeleteOwn` | streamlocal.go:193-198 | the address is taken out exactly when no other listener has been registered there since |
| `Bicopy.WrittenIsPrefixOfRead` | tcpip.go:248-268 | in every run the bytes written each way are a prefix of the bytes read, and those of what the peer sent |
| `Bicopy.BytesAddUp` | tcpip.go:248-254 | in every run exactly the first bytes sent have been read and the first read written, as many as the steps moved, failed writes included |
| `Bicopy.FailedExactlyWhen` | tcpip.go:254-265 | in every run a copy has failed exactly when one of its reads, writes or its half-close has; an end of file is no failure |
| `Bicopy.WithoutTroubleEverythingArrives` | tcpip.go:204-268 | in a run in which the context does not end and no read, write or half-close fails, nothing is aborted, a write half is closed only after all that the other peer sends was written, and no connection is fully closed before both directions are done |
| `Bicopy.ReturnJoinsEverything` | tcpip.go:208-237 | on return both copiers have posted, both results were received and both connections are closed: once if the joiner aborted, and once more in the end |
| `Bicopy.StepsLeaveLessWork` | tcpip.go:218-236 | once both connections are closed or both copies are done (or, with serving peers, once both peers have ended) every step of an actor but the spinning select reduces a work measure and no step adds to it |
| `Bicopy.ReadyMeansAStep` | tcpip.go:208-268 | the readiness that fairness speaks of is the existence of a step that changes something and that no peer can hold up |
| `Bicopy.NeverStuckAfterTrouble` | tcpip.go:218-236 | once the context has ended or a copy has failed, some step that changes something and that no peer can hold up is possible until the return |
| `Bicopy.TroubledRunReturns` | tcpip.go:204-237 | every weakly fair run in which the context ends or a copy fails returns, whatever the peers do and however much they send |
| `Bicopy.ReturnsExactlyWhen` | tcpip.go:208-237 | a weakly fair run returns exactly when at some time the context has ended, a copy has failed, or both copies have succeeded |
| `Bicopy.EndingRunReturns` | tcpip.go:208-237 | every weakly fair run returns when both peers end and keep reading |
| `Bicopy.FairTroubledRunExists` | tcpip.go:208-237 | a weakly fair run in which the context ends and a peer sends for ever exists |
| `Bicopy.Join` | tcpip.go:218-236 | the joining loop stops at the second result, aborts once exactly when the context ended or a result was an error, and closes both connections at the end |
| `Lifecycle.Server.CloseAllListeners` | server.go:699-708 | every listener is closed and forgotten; an error is returned exactly when some Close failed, and it is one of theirs |
| `Lifecycle.Server.Close` | server.go:327-338 | every listener and every connection in the maps is closed and forgotten and the done channel is closed, the wait groups untouched |
| `Lifecycle.Server.BeginShutdown` | server.go:345-349 | the locked part of Shutdown closes and forgets every listener and closes the done channel; an error is returned exactly when some listener's Close failed |
| `Lifecycle.Server.TrackListener` | server.go:710-729 | the wait-group count stays the number of running Serve calls, and no done channel is ever closed twice |
| `Lifecycle.Server.TrackConn` | server.go:731-745 | the wait-group count stays the number of tracked connections |
| `Lifecycle.CountsAndClosings` | server.go:680-745 | the wait-group counts are the numbers of active Serve calls and tracked connections; no done channel is closed twice; it is closed exactly when the last event was a close |
| `Lifecycle.ConnectionsAreTold` | server.go:412-452 | over all runs a connection is in its handshake, tracked or ended exactly as the steps of the run say |
| `Lifecycle.TrackedIsWhatRuns` | server.go:710-745 | over all runs the tracked connections are the live ones that no Close has closed, the tracked listeners are being served, and a served listener is tracked, closed, or taken out by another call on it |
| `Lifecycle.CloseClosesEverything` | server.go:327-349 | after Close every live connection and every Serve call's listener is closed; after Shutdown's lock the listeners are, and it closes no connection |
| `Lifecycle.NothingAcceptedAfterClose` | server.go:387-412 | after a Close or Shutdown nothing is accepted on the listener of a Serve call that ran then |
| `Lifecycle.ShutdownJoins` | server.go:345-364 | when Shutdown returns through `finished`, every Serve and tracked connection active at its lock has ended |
| `Lifecycle.ServeAnswers` | server.go:387-411 | a Serve with a failed accept answers ErrServerClosed exactly when the last close or reset before its question was a close, or the first one between question and decision is; otherwise it goes on after a temporary error and returns any other |
| `Lifecycle.ResetHidesTheClose` | server.go:717-722 | a run in which a new Serve makes an older one return the raw error after Close |
| `Lifecycle.WhenShutdownWaitsFor` | server.go:340-364 | a connection accepted before the lock has ended when Shutdown is done waiting exactly when it was tracked before the lock, or tracked or failed its handshake before the last wait was over |
| `Lifecycle.ShutdownMissesHandshakes` | server.go:345-364 | a run in which a Serve accepts a connection, Shutdown finishes, and the connection is tracked only then |

## Left out

- The SSH transport, handshake, authentication and multiplexer of `golang.org/x/crypto/ssh` are not part of this model; their calls are actions with free outcomes.
- Sockets, files, directories and dialling: only the fact that an address cannot be bound twice while open is kept.
- `options.go`, `wrap.go`, `ssh.go`, `context.go`, `agent.go` and the direct TCP and Unix handlers before `bicopy`: setters, aliases and plumbing.
- `Server.handleRequests`: each global request is one bump (`PeerRequest`) and one reply; nothing harder.
- The accept back-off delay, `updateDeadline`, `AddHostKey` and default-handler copying.
- Data races on fields that the Go code reads without a lock, logging, and invalid UTF-8 in a command.
- `KeepAlive.Apply`: the clock does not run backwards and each lock section takes one instant, so a bump and the ticker's reset happen at the same time; overflow of `time.Duration` is not modelled.
- `Wire.TerminalModes`: a nil map and an empty map are not told apart.
- `Wire.PtyRoundTrip`: stated for payloads below 4 GiB, which every SSH packet is; `Wire.StringRoundTrip` has the exact condition.
- `Session.Handle`: the value that `gossh.Unmarshal` leaves in a string field is taken as given; the window channel is a record of what is sent, so a full buffer shows as a run that stops.
- `Signals.SignalBox`: the mutex, channel and buffer are a separate object here; in the source they are fields of the session.
- `Forwards.Apply`: an address is the map's key; two spellings of one TCP address are two keys.
- `Bicopy.Apply`: `io.Copy`'s buffer size and fast paths are not modelled.
- `Bicopy.Fair`: fairness of the scheduler and of `select` is a premise of the claims about endless runs.
- `Shlex.PosixFrom`: expansions, operators and comments, and the set of blanks of a locale, are not part of the reference splitter.
- `Lifecycle.Apply`: reuse of a `sync.WaitGroup` while it is being waited for is not checked.
