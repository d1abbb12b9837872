# Verification of sercon's core

sercon shares the serial ports of a jump host: a capture daemon (`internal/hub`)
owns every port, logs its output (`internal/portlog`) and fans it out to attached
clients over framed connections (`internal/proto`, `cmd/sercon`); a relay
(`internal/relay`) lets two ends behind NAT meet; a key editor
(`internal/sshauth`) maintains `authorized_keys`. This project models those parts
in Dafny and proves what they promise. `dafny verify dfyconfig.toml` checks it.

## How it is organised

**Hub.** `HubModel` is a transition system with one step per lock-protected section
or channel operation of every goroutine: a reader and a writer per connection, a
worker per port, Close, the rescan goroutine, watchdogs and notices. The fan-out is
split into its ring step, the start of its `p.mu` section, two steps per client (the
look at `done`, then the send or the kill), the end of the section and the write to
the log; opening a port is two steps inside `p.mu` and one inside `c.mu`, and the
line it leaves in the log is another. `HubAttach`, `HubDelivery`, `HubLifecycle` and
`HubAccounting` prove what one step does to one connection and one port;
`HubInvariant` puts that together for every state of every schedule; `HubTheorems`
states the results, `HubOverlap` when a chunk is sent twice, `HubKill` what killing
a client stops, `HubClose` that Close can return, `HubLog` and `HubLastLine` what is
in a port's log and what can follow its last line, and `HubLogFile` what of that
reaches the disk. `HubRequests` says what each request of a client comes to, as a
run from any reachable state with its whole result; `HubObservers` that the observer
limit is the only one; `HubDevices` who has a device open and what is read from it;
`HubRates` what becomes of the line rate a client asks for; `HubDrops` why a client
is dropped, `HubReaders` that no client is stuck for good, `HubGuards` that a port's
mutex guards its fields. `HubRuns` builds runs. `Ring` is the backlog buffer, shifted in place. `HubObjects` holds the Port
and Conn objects with the code of their critical sections, each method proved to be
a step of the transition system. `Locks` takes the lock operations of all code paths
and shows that they cannot deadlock.

**Relay.** `RelayModel` is the rendezvous protocol, `RelayTheorems` the matching,
fairness and cleanup results over every run, `RelayRegister` who is refused, paired
or queued and how long a room goes by its token, `RelayServer` the object with
`register`, `unregister` and the in-place `remove`.

**Key file.** `AuthKeys` is the line parser and printer, `KeyFile` the editing
functions with the source's loops, `KeyLines` which lines are keys and how they are
listed, `KeyFileTheorems` and `KeyFileRemoval` what adding and removing do to the
keys sshd will find. base64 decoding and the fingerprint are arbitrary functions.

**Port log.** `PortLog` gives the writer's operations as functions of the log, its
directory, an arbitrary clock and an arbitrary pattern of file errors;
`PortLogWriter` is the object; `PortLogTheorems` and `PortLogHeaders` hold the
results on contents and headers, `PortLogTimes` those on times and days,
`PortLogCalls` what a call has done when it returns. Console bytes, stamps, notes
and headers are distinct items, so erasing the decoration is well defined even when
console output imitates it.

**Client.** `Frames` is the wire format and `readUntil`, `FrameReplies` which reply
it returns and what any bytes decode to; `Collector` the bounded transcript of
`sercon run`; `Escape` the Ctrl-A machine; `Quote` shell quoting against a lexer for
POSIX words; `Args` argument reordering against Go's flag parser.

`Prelude` and `Text` hold shared vocabulary and the Go string functions in use.

## Findings

- `ensureWorker` never calls `WaitGroup.Add` after Close, but `Start` does so
  without looking (hub.go:117): an Add follows Close exactly when Start does
  (`AddsAfterCloseAreLateStarts`, with the run in `StartAfterCloseAddsLate`).
- A client for which the ring is copied between the two halves of `fanout` gets that
  chunk twice, once at the end of its backlog and once live
  (`SomeClientGetsAChunkTwice` is such a run, `OverlappingChunkIsSentTwice` what it
  gets). It happens exactly then (`OverlapIffCaughtBetween`), it is the only
  overlap, and there is never a gap (`NoGapBetweenBacklogAndLiveData`).
- The rate a client asks for is the port's from then on and is reported to it, but
  the device is not told: it goes on at the rate it was opened at, so the documented
  "rate of this connection" (docs/usage.md:109) holds iff that is the same
  (`RequestedRateIsTheDevicesIff`, with a run in `RateOutlivesTheDevice`). It is
  used when the device is next opened; if it does not open at that rate the port
  stays offline for good, since only an opening could change it and that needs the
  device (`UnusableRateIsFinal`).
- `reorderArgs` fails its purpose on two kinds of lines, and on no others
  (`ReorderRefinesFreeParse`, over all lines): a line that ends in a flag without
  its value and has a positional, which becomes the value (`PortBecomesBaud`); and a
  line where `--` follows flags only and something like a flag follows `--`, which
  becomes one (`PositionalBecomesFlag`). The comment at main.go:193 says that `--`
  is treated exactly as the flag package treats it; the code drops it before that
  package looks.
- parseKeys splits on LF, AddAll and Remove also on a lone CR. So AddAll may revive
  a key that parseKeys does not see (`LoneCrRevivesKey`), and a key that is listed
  may be lost by AddAll and out of Remove's reach (`LoneCrHidesKey`).
  `AddAllExactly`, `RemoveExactly` and `RemoveUndoesAddExactly` say for any content
  when each law holds, in terms of what the two ways of splitting see; with CRs only
  in CRLF they all do.
- The comment on `keptLines` speaks of blank lines at the end; the code drops every
  blank line, and so does the model. Comments survive (`AddedHolds`).
- Remove undoes AddAll byte for byte only for files of non-blank LF lines followed
  by one empty line (`RemoveRestoresBytes`); an empty file comes back as a newline.
- "capture stopped" need not be the last line of a log, even when Close has
  returned: detach, handleOpen and noteLog take the log under `p.mu` and write to it
  later, and Close does not wait for them (`SomeLineFollowsCaptureStopped`). What
  follows is exactly one line by each client that held the log when that line was
  written and has gone on since (`LinesAfterCaptureStopped`).
- The relay's room outlives its queues: once a pair has met, its room is on the map
  with nobody queued and refuses another token (`PairKeepsItsRoom`), until any peer
  unregisters there while nobody is queued. If that is a third peer, the room
  forgets its token while the pair is still connected (`ConnectedPairLosesItsRoom`).
  `RefusedIffOtherToken` is the exact condition; while somebody is queued it is that
  peer's token (`QueuedPeerRules`).
- A new day's file gets a whole header exactly if the operation that writes it does
  not fail (`OneHeaderPerNewFile`). A header written in part stays: files only grow
  (`FilesOnlyGrow`), and the file is not empty any more, so it never gets another
  (`TornHeaderStays`).
- The header of a log is documented to record the device and rate of its day
  (docs/usage.md:296). A port's log is described once, when the port is added
  (hub.go:243), and every header it ever writes says that
  (`HeadersNameTheDevice`), whatever device and rate the port has come to since.
- Reordering twice is not reordering once where something behind `--` is out of
  order (`ReorderingTwiceDiffers`), and it is on all other lines
  (`ReorderIsIdempotentIff`).

## Model

| member | source | states |
|---|---|---|
| Ring.Buffer.Write | internal/hub/hub.go:680-694 | the in-place ring afterwards holds the last `size` bytes of everything written |
| Ring.Buffer.Shift | internal/hub/hub.go:689-691 | the overlapping copy drops exactly the oldest bytes and keeps the order of the rest |
| Ring.LastOfLast | internal/hub/hub.go:680-694 | keeping only a window loses nothing the window would have held |
| HubTheorems.ExclusiveWriter | internal/hub/conn.go:210-296 | in every reachable state a connection that believes it may write owns the port, and no other connection believes so |
| HubTheorems.DeviceBytesComeFromTheOwner | internal/hub/conn.go:354-373 | in every run, bytes reach a device only from the connection that owns the port at that moment, and they are a prefix of its input |
| HubTheorems.TenuresDoNotOverlap | internal/hub/conn.go:391-410 | ownership passes from one connection to another only through having no owner |
| HubGuards.FieldsChangeUnderTheLock | internal/hub/hub.go:415-660 | what a port's mutex guards changes, in any step of any run, only while it is free or by its holder, and nobody takes it while it is held |
| HubTheorems.AttachmentSet | internal/hub/conn.go:240-290 | owner is a member, observers within MaxObservers or none if disallowed, no connection in two ports' sets, in every reachable state |
| HubTheorems.BaudIsFrozenWhileAttached | internal/hub/conn.go:262-267 | no step changes the line rate of a port somebody is attached to |
| HubRates.StepMovesRates | internal/hub/hub.go:505-533 | a device keeps the rate it was opened at; a port's rate changes only in an opening, which needs its device |
| HubRates.RequestedRateIsTheDevicesIff | internal/hub/conn.go:262-267 | the rate the first client asks for is the port's, and its device's iff that was open at it before |
| HubRates.RateOutlivesTheDevice | internal/hub/conn.go:262-267 | a run in which the device goes on at another rate than the port's, and the port keeps its rate when the device is lost |
| HubRates.UnusableRateIsFinal | internal/hub/hub.go:455-516 | with a rate at which its device does not open, a port without device stays so in any continuation |
| HubRequests.OpenIsGrantedIff | internal/hub/conn.go:219-260 | in any reachable state an opening is granted iff the device is there and the port is ownerless, or observing is allowed and the limit, if any, not reached; a refusal changes nothing |
| HubRequests.GrantedOpenAttaches | internal/hub/conn.go:262-330 | a granted opening attaches the client: member, owner iff it writes, backlog queued if there is room, line rate set iff it is the first, one line in the log, and nothing else |
| HubObservers.ObserversReachAnySize | internal/hub/conn.go:249-260 | for every n the limit allows, and for every n without a limit, a run after which exactly n clients watch one port |
| HubRequests.InputReachesTheDevice | internal/hub/conn.go:354-373 | what a writer types and the device takes is handed over once and counted once on either side, and nothing else changes |
| HubRequests.InputWithoutDevice | internal/hub/hub.go:603-609 | typed at an offline port, it goes nowhere and is answered |
| HubRequests.InputOfOthersIsDropped | internal/hub/conn.go:360-362 | input of a connection that may not write changes no port and no counter |
| HubRequests.LeavingFreesThePort | internal/hub/conn.go:391-424 | closing, reopening, hanging up and being killed take the client out of the set, free the port if it was the writer's, and go on to reply, lookup or teardown |
| HubRequests.NothingToLeave | internal/hub/conn.go:400-402 | without an attachment the same requests touch no port |
| HubRequests.EndedConnectionIsGone | internal/hub/conn.go:426-444 | a connection taken down stops its writer, waits for it and leaves, writing nothing more |
| HubRequests.RequestIsAnswered | internal/hub/conn.go:151-182 | a request that concerns no port is answered with one control frame and the next is read |
| HubRequests.ErrorsAreAnswered | internal/hub/conn.go:210-216 | a lookup that fails and a break that is not allowed or not taken are answered, and change nothing |
| HubRequests.OldestFrameIsWritten | internal/hub/conn.go:138-147 | the writer takes the oldest frame queued and writes it |
| HubRequests.NoticeIsBestEffort | internal/hub/conn.go:492-501 | a notice is queued if there is room and forgotten if not |
| HubRequests.BreakIsNoted | internal/hub/conn.go:332-352 | a writer's break leaves one line in the log and nothing else |
| HubRequests.NewcomersStartClean | internal/hub/hub.go:212-246 | a port is registered, unless Close has begun, at its configured rate or the default, with nobody attached and no worker; a client unattached, with nothing queued |
| HubTheorems.CountersDifferByWritesInTransit | internal/hub/conn.go:364-369 | sum of port counters minus sum of connection counters is exactly the writes between their two updates |
| HubTheorems.DevicesCountFirst | internal/hub/hub.go:603-618 | what devices took equals what connections counted plus writes at either stage before counting |
| HubTheorems.NoGapBetweenBacklogAndLiveData | internal/hub/hub.go:582-599 | data queued to an attachment is the last min(size, n) bytes so far, then every later chunk: no gap, no overlap but at most chunk number `first`, and a prefix of that once a frame was refused |
| HubOverlap.OverlapIffCaughtBetween | internal/hub/conn.go:219-290 | in any run, backlog and live data of an attachment share a chunk exactly when the ring was copied for it while the worker stood between fanout's ring step and its p.mu section |
| HubOverlap.OverlappingChunkIsSentTwice | internal/hub/hub.go:586-594 | the shared chunk is the end of the backlog frame, as far as the ring holds it, and the whole first live frame |
| HubOverlap.SomeClientGetsAChunkTwice | internal/hub/hub.go:586-594 | a run in which a client is queued the same byte twice |
| HubTheorems.AttachedClientIsUpToDate | internal/hub/hub.go:586-594 | whoever is in a port's set has been offered every chunk fanned out |
| HubTheorems.SlowClientSeesNoHole | internal/hub/conn.go:134-149 | queue bounded by its depth; frames written are a prefix of frames queued, data likewise; a refused frame means the connection is done |
| HubTheorems.RefusalIsFinal | internal/hub/conn.go:446-469 | after the first refused frame no data frame is queued to that client in any continuation |
| HubKill.KilledClientGetsAtMostOneMore | internal/hub/conn.go:446-469 | a killed connection stays killed, and in any continuation is queued at most the one data frame whose sender had looked at done before, none otherwise |
| HubReaders.NoRequestHangs | internal/hub/conn.go:97-132 | from every reachable state some continuation brings a given client's reader back to reading frames, or to its end, whatever it waits for |
| HubReaders.LockCanBeFreed | internal/hub/conn.go:219-290 | whoever is inside p.mu, the fan-out or an opening client, can leave without a given other client's reader moving |
| HubDrops.DroppedOnlyForCause | internal/hub/conn.go:446-469 | in any step a client is dropped iff it is killed or ends, or a data frame for it finds its queue full; no frame is refused to one that is up and has room |
| HubDrops.CloseDropsEverybody | internal/hub/hub.go:135-158 | once Close is past its kills every connection has been dropped |
| HubTheorems.PortLifecycle | internal/hub/hub.go:440-500 | at most one worker ever, audit events alternate from online, online implies a device until Close, "capture stopped" at most once |
| HubDevices.DeviceIsTheWorkers | internal/hub/hub.go:463-498 | until Close a port has a device exactly while its worker has it open; later never otherwise |
| HubDevices.CloseLeavesNoDevice | internal/hub/hub.go:155-163 | when Close has returned no port has a device open |
| HubDevices.ShutdownTakesTheDevice | internal/hub/hub.go:642-652 | Close takes each port's device away once, leaving no line, and its worker where it was |
| HubDevices.SyncStartsOneWorker | internal/hub/hub.go:415-438 | a port without a worker gets one, counted in the WaitGroup, unless Close has begun; any other is left alone |
| HubDevices.DeviceComesOnline | internal/hub/hub.go:455-476 | a worker whose device opens brings its port online, with one audit event and one line |
| HubDevices.MissingDeviceIsRetried | internal/hub/hub.go:455-469 | one whose device does not open goes back to opening it, with nothing changed |
| HubDevices.LostDeviceGoesOffline | internal/hub/hub.go:478-498 | a failed read takes the port offline, with one audit event and one line, closes the device and goes back to opening it |
| HubDevices.EveryReadIsTakenIn | internal/hub/hub.go:478-482 | the chunks in the ring's history are the non-empty reads of the run, once each and in order |
| HubTheorems.CloseLeavesNothingRunning | internal/hub/hub.go:135-167 | when Close has returned no worker runs, every port has let go of its log, and "capture stopped" was written to it exactly once |
| HubClose.CloseCanReturn | internal/hub/hub.go:135-167 | from every reachable state in which Close has begun some continuation brings it to its return: its own steps, workers, rescan and lock holders together never block it for good |
| HubLastLine.LinesAfterCaptureStopped | internal/hub/conn.go:404-422 | in any continuation, what follows "capture stopped" is exactly one line by each client that held the log then and holds it no more |
| HubLastLine.SomeLineFollowsCaptureStopped | internal/hub/conn.go:302-314 | a run in which a client writes "acquired by" after "capture stopped", and after Close has returned |
| HubLog.LogGetsEveryChunk | internal/hub/hub.go:582-598 | the console output in the log is what was read from the device, chunk by chunk in order, but for at most the chunk in hand, and all of it once the worker has ended |
| HubLogFile.DeviceOutputIsOnDisk | internal/hub/hub.go:582-598 | with a steady clock and no file errors, the day files and the buffer, decoration erased, are byte for byte what was read from the device, but for the chunk in hand |
| HubLogFile.EverythingReadIsOnDisk | internal/hub/hub.go:135-163 | when Close has returned, with a steady clock and no file errors, every byte read from the device in the run is in the day files in order, and none is left in memory |
| HubTheorems.CloseFreezesThePortSet | internal/hub/hub.go:172-210 | no port or connection is registered in any continuation after Close |
| HubTheorems.AddsAfterCloseAreLateStarts | internal/hub/hub.go:411-438 | WaitGroup adds after Close are counted exactly by late calls of Start |
| HubTheorems.StartAfterCloseAddsLate | internal/hub/hub.go:111-118 | a run in which Start adds to the WaitGroup after Close |
| HubTheorems.WorkerDrains | internal/hub/hub.go:445-500 | after Close a worker takes at most 14 plus two steps per connection, whatever else is scheduled |
| HubTheorems.WorkerIsNeverStuck | internal/hub/hub.go:582-596 | a live worker has an enabled step unless a client is inside handleOpen's section, and then that client has one |
| HubInvariant.StepKeepsInv | internal/hub/conn.go:210-469 | every step of every goroutine keeps the hub's invariant |
| HubInvariant.ReachedInv | internal/hub/hub.go:135-500 | the invariant holds in every reachable state |
| HubAttach.OpenFinishKeepsLinks | internal/hub/conn.go:271-290 | joining keeps the port's set, its owner and the connection's own view in agreement, and the observer limit |
| HubAttach.DetachKeepsLinks | internal/hub/conn.go:391-410 | leaving does the same |
| HubDelivery.FanPushKeepsFlow | internal/hub/conn.go:464-468 | one send of the fan-out queues the next chunk in turn or cuts the client |
| HubDelivery.PortStepKeepsFlow | internal/hub/hub.go:582-594 | the worker's own steps leave what each client was and should be sent intact |
| HubObjects.FanStepsAreEnqueue | internal/hub/conn.go:457-469 | the transition system's two enqueue steps, undisturbed, are the enqueue of the object |
| HubObjects.ClientObject.Enqueue | internal/hub/conn.go:457-469 | a frame is queued, or the client is dropped, or already was |
| HubObjects.ClientObject.LetGo | internal/hub/conn.go:392-402 | detach's c.mu section is the model's step and reports what was held |
| HubObjects.ClientObject.Commit | internal/hub/conn.go:292-296 | handleOpen's c.mu section is the model's step |
| HubObjects.ClientObject.Target | internal/hub/conn.go:355-362 | input is forwarded exactly for a writable attachment |
| HubObjects.ClientObject.Count | internal/hub/conn.go:365-369 | the connection's byte counter step |
| HubObjects.PortObject.CountObservers | internal/hub/conn.go:250-255 | the loop counts all members but the owner |
| HubObjects.PortObject.FindRefusal | internal/hub/conn.go:221-260 | handleOpen refuses in exactly these cases, with the error of the first that applies |
| HubObjects.PortObject.CheckOpen | internal/hub/conn.go:219-273 | the first half of the p.mu section, line rate included, is the model's step; a refusal changes nothing |
| HubObjects.PortObject.JoinConn | internal/hub/conn.go:276-279 | joining is the model's step |
| HubObjects.PortObject.DropConn | internal/hub/conn.go:404-410 | detach's p.mu section is the model's step: it releases only one's own ownership and hands out the log |
| HubObjects.PortObject.EnsureRunning | internal/hub/hub.go:415-432 | starts a worker exactly when none was started and the manager is open |
| HubObjects.PortObject.SetOnline | internal/hub/hub.go:523-533 | goOnline's section, and whether an event is due |
| HubObjects.PortObject.SetOffline | internal/hub/hub.go:549-557 | goOffline's section, and whether an event is due |
| HubObjects.PortObject.TakeLogOnce | internal/hub/hub.go:656-660 | release is the worker's step and Close's step alike: the log is taken, and the caller owes its last line exactly if the log was there |
| HubObjects.PortObject.Fanout | internal/hub/hub.go:582-594 | in any map order each attached client is offered the chunk once, others are untouched, and the ring has it |
| Locks.ScriptsAreDisciplined | internal/hub/hub.go:172-210 | every code path, kills under p.mu and the log and audit writers included, takes locks in rising order, c.mu alone, and waits for nobody while holding one |
| Locks.NoCircularWait | internal/hub/hub.go:415-432 | in no reachable state of any number of goroutines does a chain of waits close |
| Locks.SomebodyCanGoOn | internal/hub/conn.go:219-296 | from any unfinished goroutine the chain of waits leads to one that can step |
| Locks.NothingBlocksUnderALock | internal/hub/conn.go:446-484 | whatever waits on others happens with no lock held (closing a channel or stream waits for nobody), and c.mu is never held with another |
| RelayTheorems.MatchingIsProper | internal/relay/server.go:192-214 | partners name each other, share room and token, have opposite roles; a channel is closed at most once |
| RelayTheorems.PartnerIsForLife | internal/relay/server.go:192-214 | in every run a peer gets at most one partner: the one it has at any point is its partner at every later point |
| RelayTheorems.WaitingIsQueuedOrPaired | internal/relay/server.go:148-161 | a waiting peer is in its queue or woken with a partner, never both, even when its timeout races |
| RelayTheorems.NobodyWaitsInVain | internal/relay/server.go:192-214 | no room has both an idle publisher and a waiting attacher |
| RelayTheorems.FirstComeFirstPaired | internal/relay/server.go:194-213 | within a room and role, a later peer is paired only after an earlier one was paired or had left |
| RelayTheorems.NothingLeaks | internal/relay/server.go:217-231 | when every ServeConn has ended the rooms map is empty |
| RelayRegister.RefusedIffOtherToken | internal/relay/server.go:184-190 | a newcomer is refused iff its room goes by another token: that of the peer that opened it, until somebody unregisters and leaves nobody queued; a refusal changes nothing |
| RelayRegister.EverybodySaidHello | internal/relay/server.go:115-126 | nobody gets as far as registering without a room and a token of 16 characters |
| RelayRegister.RoomGoesByItsToken | internal/relay/server.go:184-231 | the map holds a room under a token exactly as long as, told from the run, it goes by it |
| RelayRegister.QueuedPeerRules | internal/relay/server.go:184-190 | while a peer is queued in the room a newcomer is refused iff its token differs from that peer's |
| RelayRegister.NewRoomRefusesNobody | internal/relay/server.go:184-190 | where nobody still has to unregister nobody is refused |
| RelayRegister.EarliestIsPaired | internal/relay/server.go:192-214 | with the other role queued, the newcomer is paired with the earliest of them, whose channel is closed once and which is queued no more; nobody else is touched |
| RelayRegister.ElseQueuedLast | internal/relay/server.go:200-213 | otherwise it is queued behind all of its role in the room; nobody else is touched |
| RelayRegister.PairedPeerCanSplice | internal/relay/server.go:148-170 | a peer with a partner goes on to splice with it, paired on arrival or woken |
| RelayRegister.UnpairedPeerCanLeave | internal/relay/server.go:148-161 | one without waits in its queue and may time out; then it is queued no more, and nobody else has lost its place |
| RelayRegister.SplicingPeerCanEnd | internal/relay/server.go:260-282 | the end of a splice unregisters both and takes nobody out of a queue |
| RelayRegister.PairKeepsItsRoom | internal/relay/server.go:184-231 | a run in which another token is refused with nobody queued |
| RelayRegister.ConnectedPairLosesItsRoom | internal/relay/server.go:217-231 | a run in which a room is opened under another token while a pair that met in it is connected |
| RelayTheorems.StepKeepsInv | internal/relay/server.go:99-171 | every step of every peer keeps the relay's invariant |
| RelayServer.RemoveInPlace | internal/relay/server.go:233-241 | filtering in place yields the list without the peer, in order |
| RelayServer.Server.MeetOrQueue | internal/relay/server.go:192-214 | the head of the opposite queue is taken, or the peer is appended to its own |
| RelayServer.Server.RegisterPeer | internal/relay/server.go:176-215 | register is the model's step, with partner and refusal reported |
| RelayServer.Server.UnregisterPeer | internal/relay/server.go:217-231 | unregister is the model's step on the rooms |
| AuthKeys.HeaderIsWireString | internal/sshauth/sshauth.go:145-157 | a blob passes the header check iff it begins with the algorithm name as a wire string |
| AuthKeys.ParsedIsWellFormed | internal/sshauth/sshauth.go:90-132 | what ParseKey accepts: known type, one-word blob that decodes and carries its header, normalised comment, right fingerprint |
| AuthKeys.TextParsesBack | internal/sshauth/sshauth.go:159-166 | any such key is parsed back from its printed line |
| AuthKeys.ParseTextParse | internal/sshauth/sshauth.go:90-166 | parsing, printing and parsing again gives the same key, apart from the line number |
| KeyLines.LineIsKeyIff | internal/sshauth/sshauth.go:90-132 | a line is the key k iff k is well formed and the line has the words of its text, whatever the space around them |
| KeyLines.SkippedForAReason | internal/sshauth/sshauth.go:90-157 | any other line is skipped for the first reason that applies to its words |
| KeyLines.ListedByLine | internal/sshauth/sshauth.go:195-206 | every line that is a key is listed once, in order, under its own number |
| KeyFile.ParseKeys | internal/sshauth/sshauth.go:195-206 | the loop finds the keys of all lines, with their line numbers |
| KeyFile.KeptLines | internal/sshauth/sshauth.go:277-288 | the loop keeps the non-blank lines in order |
| KeyFile.AddAll | internal/sshauth/sshauth.go:221-243 | the loop adds each key with an unseen fingerprint once, in order |
| KeyFile.Remove | internal/sshauth/sshauth.go:255-275 | the loop drops the victims' lines, or returns the content untouched |
| KeyFileTheorems.RenderSplitsBack | internal/sshauth/sshauth.go:290-303 | rendered lines split back into themselves and a trailing empty line |
| KeyFileTheorems.AddedHolds | internal/sshauth/sshauth.go:221-243 | for any content: all non-blank lines survive in order, then the new keys |
| KeyFileTheorems.AddAllExactly | internal/sshauth/sshauth.go:213-243 | for any content: no key is added twice or was there; the result lists the old keys then the new ones iff nothing is added or both splittings see the same keys; every requested key is in, and a second call changes nothing, iff nothing is added or splitLines sees the requested keys already listed |
| KeyFileTheorems.AddAllAdds | internal/sshauth/sshauth.go:213-243 | for CRLF or LF files all of that always holds |
| KeyFileTheorems.LoneCrRevivesKey | internal/sshauth/sshauth.go:290-296 | content with a lone CR for which AddAll adds a key nobody asked for |
| KeyFileRemoval.LoneCrHidesKey | internal/sshauth/sshauth.go:255-296 | content with a lone CR whose listed key Remove does not remove and AddAll loses |
| KeyFileRemoval.LoneCrLosesRequestedKey | internal/sshauth/sshauth.go:221-243 | on that content, requesting the key along with a new one loses it, and asking again changes the result |
| KeyFileRemoval.RemoveKeepsOtherLines | internal/sshauth/sshauth.go:255-275 | for any content: no split line parses to a victim and all others survive in order |
| KeyFileRemoval.RemoveExactly | internal/sshauth/sshauth.go:245-275 | for any content: afterwards the listed keys are those that are no victims, iff both splittings see the same other keys, when a split line is a victim, or no listed key is a victim, when none is |
| KeyFileRemoval.RemoveRemoves | internal/sshauth/sshauth.go:245-275 | for CRLF or LF files that always holds |
| KeyFileRemoval.RemoveIsIdempotent | internal/sshauth/sshauth.go:255-275 | removing twice is removing once |
| KeyFileRemoval.RemoveUndoesAddExactly | internal/sshauth/sshauth.go:221-275 | for any content: removing a freshly added key restores the listed keys iff splitLines sees just these, that key aside |
| KeyFileRemoval.RemoveUndoesAdd | internal/sshauth/sshauth.go:221-275 | for CRLF or LF files it always does |
| KeyFileRemoval.RevivedKeyOutlivesUndo | internal/sshauth/sshauth.go:221-275 | where AddAll has revived a key, removing the added one leaves the revived one |
| KeyFileRemoval.RemoveRestoresBytes | internal/sshauth/sshauth.go:279-303 | adding and removing a fresh key gives back the same bytes iff the file is non-blank LF lines, none of them that key's, and one empty line |
| KeyFileRemoval.RemoveIsNoByteInverse | internal/sshauth/sshauth.go:298-303 | so an empty file comes back as a newline |
| PortLogWriter.Writer.EnsureLocked | internal/portlog/portlog.go:209-240 | today's file is open, with a header if new, or the error is reported |
| PortLogWriter.Writer.FlushLocked | internal/portlog/portlog.go:195-207 | the buffer moves to the file as a whole, or stays |
| PortLogWriter.Writer.Append | internal/portlog/portlog.go:120-133 | the byte loop stamps each line's first byte and reports line ends |
| PortLogWriter.Writer.Write | internal/portlog/portlog.go:111-142 | Write is the specified step, counts and reports the whole length |
| PortLogWriter.Writer.Note | internal/portlog/portlog.go:160-175 | Note is the specified step |
| PortLogWriter.Writer.Flush | internal/portlog/portlog.go:146-156 | Flush is the specified step |
| PortLogWriter.Writer.Close | internal/portlog/portlog.go:243-257 | Close is the specified step, with the error of the flush or of closing the file |
| PortLogTheorems.NoByteIsLostOrMoved | internal/portlog/portlog.go:111-240 | day files in order plus buffer, decoration erased, are exactly the bytes written |
| PortLogTheorems.LogIsLayoutOfStream | internal/portlog/portlog.go:120-133 | stamps stand at the beginning of lines, after newlines and notes, and nowhere else |
| PortLogTheorems.ChunkingDoesNotShow | internal/portlog/portlog.go:111-175 | two runs fed the same stream in different chunks, flushes and times hold the same marks |
| PortLogTimes.TimesAreOfTheirCall | internal/portlog/portlog.go:111-240 | for any clock and errors, every stamp, note and header a call adds carries a time the clock showed during that call, and it adds only to the file of a day shown then |
| PortLogTimes.TimesAreReadInOrder | internal/portlog/portlog.go:111-175 | stamps and notes in the files and the buffer carry, in order, readings taken one after the other, one each |
| PortLogTimes.TimesNeverGoBack | internal/portlog/portlog.go:111-175 | so with a steady clock the times never go back along the log |
| PortLogCalls.WriteGoesToDiskIff | internal/portlog/portlog.go:135-141 | a Write touches a file iff it ends a line or brings the buffer to the threshold |
| PortLogCalls.WhatWasWrittenIsOnDisk | internal/portlog/portlog.go:146-175 | after a flush, a close, a note or the end of a line all that was ever written is in the files |
| PortLogCalls.CallFailsIff | internal/portlog/portlog.go:111-257 | a call reports an error iff one of its file operations failed or a Write had failed before, and the log has failed from then on iff a Write reported one |
| PortLogCalls.HeadersNameTheDevice | internal/portlog/portlog.go:99-104 | every header a log writes names the device it was described with |
| PortLogHeaders.OneHeaderPerNewFile | internal/portlog/portlog.go:222-234 | a file that starts empty gets at most one header, at its start, any other none, for any clock and any errors; it has one iff some of it was written, and a whole one iff the operation that wrote it did not fail |
| PortLogHeaders.OpeningDecides | internal/portlog/portlog.go:214-234 | opening an empty file gives it a header iff the opening succeeds and not nothing is written, a whole one iff writing succeeds, with the device described and the next reading of the clock |
| PortLogHeaders.FilesOnlyGrow | internal/portlog/portlog.go:195-240 | no call of any run takes back or changes what is in a file |
| PortLogHeaders.TornHeaderStays | internal/portlog/portlog.go:225-234 | a run in which a new file gets a torn header, which is its first item after any further calls |
| PortLogTheorems.BufferStaysSmall | internal/portlog/portlog.go:135-141 | after every call of a run in which no Write and no Note failed the buffer is below the threshold and holds no newline |
| PortLogTheorems.FaultlessIsUntroubled | internal/portlog/portlog.go:111-175 | without file errors every run is such a run, and no call fails |
| PortLogTheorems.WriteErrorIsSticky | internal/portlog/portlog.go:115-118 | after a failed Write only the total moves |
| Frames.NextOfEncoded | internal/proto/proto.go:62-114 | an encoded frame is read back and the rest is untouched |
| Frames.DecodeInvertsEncode | internal/proto/proto.go:62-114 | decoding concatenated frames gives those frames, then end of file |
| Frames.CutStreamDecodesToPrefix | internal/proto/proto.go:62-79 | any strict prefix decodes to the whole frames in it, then an end-of-file error |
| Frames.Reader.Next | internal/proto/proto.go:62-79 | the object reads one frame or fails as specified |
| Frames.Writer.Write | internal/proto/proto.go:96-114 | a frame is sent whole, or refused for its size with nothing sent, or cut where the stream fails, after which nothing is sent |
| Frames.WrittenFramesAreRead | internal/proto/proto.go:62-114 | wherever the stream fails, the other end reads a prefix of the frames that fit, each whole, then an end of file; all of them if nothing failed |
| Frames.ReadUntilReply | cmd/sercon/main.go:404-427 | the loop returns the specified reply, pending data and remaining input |
| Frames.PendingThenRestIsAll | cmd/sercon/main.go:399-427 | pending data plus the data still to come is the whole output in order |
| FrameReplies.FirstAnswerIsTheReply | cmd/sercon/main.go:404-427 | the first control frame that parses as an error or the wanted reply decides: an error is an error, the wanted reply itself; pending is the data before it, and what is behind it is left |
| FrameReplies.NoAnswerIsEof | cmd/sercon/main.go:404-410 | without one the call ends with the connection and hands back all data |
| FrameReplies.AnyBytesAreFramesThenWhy | internal/proto/proto.go:62-79 | any bytes are the frames read from them, none over the limit, and then something that is no frame for the reason reported |
| Collector.CollectorObject.Feed | cmd/sercon/run.go:330-342 | feed is the specified step |
| Collector.CollectorObject.TryMatch | cmd/sercon/run.go:358-368 | one turn of wait is the specified step |
| Collector.WaitsSliceTheStream | cmd/sercon/run.go:330-368 | buffer is the last maxCollect bytes; matches are disjoint slices in order, tiling the stream while nothing unread was dropped |
| Collector.PositionNeverMovesBack | cmd/sercon/run.go:337-340 | the absolute place the next wait starts from never decreases |
| Collector.WaitTakesUpToTheMatch | cmd/sercon/run.go:353-368 | a wait looks exactly at what was fed behind the last position; a hit is that up to the end of the match, and the next wait starts there; no match changes nothing |
| Collector.FeedSkipsOnlyWhatIsDropped | cmd/sercon/run.go:330-342 | feeding moves the position only to the first byte still held |
| Escape.Session.HandleKeys | cmd/sercon/attach.go:356-397 | one read sends its meaning in at most one frame, at most one byte longer than the read, and carries out its commands in order; a quit flushes, a reconnect drops |
| Escape.WhatTheNextKeyDoes | cmd/sercon/attach.go:356-442 | after any keys, what the next one does: which quit, reconnect, carry out a command or are sent, with and without Ctrl-A |
| Escape.ReadsDoNotShow | cmd/sercon/attach.go:356-397 | without a reconnect the data sent and the commands carried out depend only on the keystrokes, not on their division into reads |
| Escape.StuffedMeansItself | cmd/sercon/attach.go:405-442 | typing each Ctrl-A as Ctrl-A a sends exactly the original bytes |
| Quote.QuoteTokenByLoop | cmd/sercon/main.go:297-311 | the loop quotes exactly tokens with an unsafe character |
| Quote.RemoteCommand | cmd/sercon/main.go:264-273 | the command is the quoted argument list joined by spaces |
| Quote.LeftAloneIff | cmd/sercon/main.go:275-311 | an argument is left as it is iff it is `~`, or, a leading `~/` aside, not empty and made of letters, digits and the safe signs only |
| Quote.QuotedIsOneWord | cmd/sercon/main.go:281-295 | a quoted argument is one shell word, with an open tilde exactly for `~` and `~/...` |
| Quote.ShellReadsArgumentsBack | cmd/sercon/main.go:264-311 | the shell's words for the command are the original arguments, for all strings |
| Args.ReorderArgs | cmd/sercon/main.go:187-216 | the index loop sorts flags with their values before positionals |
| Args.ReorderRefinesFreeParse | cmd/sercon/main.go:174-216 | over all lines, Go's parser on the reordered line agrees with a parser taking flags anywhere, iff the line does not both end in a flag without its value and have a positional, nor have only flags before a `--` with something like a flag behind it |
| Args.EndsDanglingIff | cmd/sercon/main.go:209-213 | the failing guard on the arguments is exactly where the free parser lacks a value |
| Args.ExposesFlagIff | cmd/sercon/main.go:193-197 | the second condition on the arguments is exactly where the free parser succeeds with something like a flag as its first positional |
| Args.PortBecomesBaud | cmd/sercon/main.go:209-213 | a line of the first kind |
| Args.PositionalBecomesFlag | cmd/sercon/main.go:193-197 | a line of the second kind |
| Args.ReorderIsPermutation | cmd/sercon/main.go:187-216 | reordering keeps exactly the arguments, less the `--` the scan comes to |
| Args.ReorderIsIdempotentIff | cmd/sercon/main.go:187-216 | over all lines, reordering twice is reordering once iff what is behind the `--` the scan comes to is in order already, and plain if a positional stands before it |
| Args.ReorderingTwiceDiffers | cmd/sercon/main.go:193-197 | a line on which it is not |

## Left out

- Serial back ends, sockets, SSH processes, terminals, the Windows GUI: foreign calls and UI. Devices are a source and sink that may fail or accept part of a write.
- Hello, list, ping, status and shutdown requests: one step that sends a reply; the handshake guards nothing in the hub.
- Break requests: whether the device takes the break is arbitrary; they are modelled for the line they leave in the log.
- `Manager.Resolve`: any registered port or a failure, since its middle tier depends on map order.
- Sync's device list is taken one new port at a time; updates of link and device names are not modelled.
- The worker's look at `done` before it opens its device and the reading of the rate under `p.mu` are one step.
- Backoff times, timeouts and idle timers: a wait may end at any moment.
- Counters are unbounded; the source's are 64 bits wide. A port's count of bytes read, its last error and the texts of replies and notices are not modelled.
- A line of the log is one step, and the audit event and log line of going online or offline are one; what the writer makes of a line is `PortLog`, its errors included.
- Byte splicing and TLS of the relay, the hello line and its size limit: every accepted registration has a room, one of the two roles and a token of at least 16 characters.
- Strings are sequences of code points; invalid UTF-8 is not modelled.
- JSON, regular expressions, SHA-256 and base64: arbitrary functions.
- A failed write to a log file leaves a whole number of items, a header aside; `Stat` does not fail, and closing yesterday's file is not looked at, as in the source.
- Values of flags are not converted, so a value the flag rejects is not an error in the model.
- Byte order across Ctrl-A break, and data dropped by a reconnect.
- The log directory's escaped names, audit file, configuration and version strings.
