# ProtoForge backend: what its protocols, codecs and bounded stores guarantee

ProtoForge is a desktop workbench for network protocols. This project models the parts of
its Rust backend whose correctness depends on interleavings, on encodings that must undo
each other, or on resource accounting, and proves what they guarantee for every input and
every run.

Each concurrent part comes twice. A class with the fields of the source runs every critical
section as a method, and its contract ties the new state to a function of the old one. A
state machine then interleaves those same functions without restriction: every lock section,
compare-and-swap, channel operation and await is a step of its own, any number of tasks may
exist, and a run is any sequence of enabled steps. The theorems are about all runs.

| part | files | main results |
|---|---|---|
| Modbus slave lifecycle | `ModbusLifecycle.dfy`, `ModbusProgress.dfy` | strict alternation of started and stopped, one worker at a time, stops are barriers, no start is left pending, every request ends |
| Modbus codec and frames | `ModbusBytes.dfy`, `ModbusPacking.dfy`, `ModbusCodec.dfy`, `ModbusFrames.dfy` | every buildable request is answered exactly, every served request is buildable, whole TCP and RTU exchanges |
| CRC-16 | `ModbusCrc.dfy`, `ModbusCrcDistance.dfy` | the frame check is "register zero"; all bursts up to 16 bits and all odd numbers of flips are detected; different accepted frames are four bits apart |
| Mock server | `MockLifecycle.dfy`, `MockRegistry.dfy`, `MockLog.dfy`, `MockRoutes.dfy` | one generation at a time, tombstones tell the truth, the log is the longest suffix that fits, the best route |
| gRPC streams | `GrpcStream.dfy`, `GrpcEvents.dfy`, `GrpcLimiter.dfy`, `GrpcCache.dfy` | exact drop accounting, bounded events, rate bound over all histories, LRU refinement |
| Serial sessions | `SerialCommand.dfy`, `SerialSlots.dfy` | exactly-once, never or unknown; live workers are never lost |
| Postman collections | `Postman.dfy` | export undoes import; termination on cyclic tables |
| Digest challenges | `Digest.dfy` | print and parse round trip of a whole response; exact quoted-string grammar |
| Script patches | `Headers.dfy` | a patch carries a script's edits over exactly, without regard to header case |

`Common.dfy` and `Strings.dfy` hold what the parts share. `dafny verify dfyconfig.toml`
checks the whole project.

Assumptions. Generation counters do not wrap and uuids are unique: generations are fresh
natural numbers. Command futures run until they return; a task that is dropped midway is not
modelled, except the aborts that the serial shutdown makes itself. `shutdown_slave_handle`
is a completed join. Atomics are sequentially consistent. Hash maps are walked in an
arbitrary order. Clocks are parameters, and devices, sockets and listeners succeed or fail
arbitrarily.

Two findings. Putting the captures of a route back into its pattern does not always give the
request path, even when all capture names are distinct. It does if and only if the pattern
has no `**`, or only one, at its end, that was given something or is the whole pattern
(`MockRoutes.SubstitutionGivesThePath`). `/a/**` matches `/a` and fills in to `a/`
(`SubstitutionCanAddASlash`); `/a/**/b` matches `/a/x`, because a match ends at the first
`**`, and fills in to `a/x/b` (`SubstitutionCanAddSegments`). When names repeat, the texts
captured under one name must agree as well. And a rate-limited event that could never fit
would make the wait loop spin without sleeping (`GrpcLimiter.OversizedIsNeverAdmitted`);
bounding the event first is what rules that out (`GrpcEvents.BoundedEventsAreAdmitted`).

## Model

| member | source | states |
|---|---|---|
| ModbusLifecycle.ModbusSlaves.BeginSlaveStart | src-tauri/src/modbus.rs:2351-2380 | the new generation becomes the pending one, the one it replaces is handed back to be cancelled, other ids keep their slot |
| ModbusLifecycle.ModbusSlaves.ClearSlavePendingGeneration | src-tauri/src/modbus.rs:2336-2349 | the pending entry goes only if it is that generation |
| ModbusLifecycle.ModbusSlaves.TakeSlaveForStart | src-tauri/src/modbus.rs:2382-2402 | succeeds exactly for the pending, uncancelled generation, and then takes whatever slave is active |
| ModbusLifecycle.ModbusSlaves.EnsureSlaveStartCurrent | src-tauri/src/modbus.rs:2404-2423 | true exactly for the pending, uncancelled generation |
| ModbusLifecycle.ModbusSlaves.InstallSlave | src-tauri/src/modbus.rs:2517-2534 | a current start moves from pending to active and emits started in one section; any other changes nothing |
| ModbusLifecycle.ModbusSlaves.InterruptPending | src-tauri/src/modbus.rs:2668-2696 | removes the pending start only when it has the transport being stopped |
| ModbusLifecycle.ModbusSlaves.TakeTransport | src-tauri/src/modbus.rs:2699-2714 | takes the active slave only when it has that transport |
| ModbusLifecycle.ModbusSlaves.TakeGeneration | src-tauri/src/modbus.rs:2751-2760 | takes the active slave only when it is that generation |
| ModbusLifecycle.ModbusSlaves.EmitSlaveStoppedIfInactive | src-tauri/src/modbus.rs:2322-2334 | stopped is emitted only while nothing is active |
| ModbusLifecycle.ModbusSlaves.ListenerFailed | src-tauri/src/modbus.rs:2093-2114 | a dead listener removes itself and reports error and stopped only while it is still the active one |
| ModbusLifecycle.StepKeepsInv | src-tauri/src/modbus.rs:2322-2766 | every critical section, await and worker step, from every state, keeps the eight-part invariant of gate, pending map, active map, workers, trace, results and stops |
| ModbusLifecycle.RunKeepsInv | src-tauri/src/modbus.rs:2322-2766 | so does every run, of any length and any number of tasks |
| ModbusLifecycle.EventsAlternate | src-tauri/src/modbus.rs:2322-2541 | in every run the trace strictly alternates started(g), stopped(g) with matching generations, and at most one worker is not finished |
| ModbusLifecycle.OpenerRunsAlone | src-tauri/src/modbus.rs:2450-2475 | while an opener is polled every earlier slave has been joined, none is active, and the trace shows none running |
| ModbusLifecycle.StartResultsAreTrue | src-tauri/src/modbus.rs:2425-2541 | a start returns Ok exactly when its started event was emitted, and never leaves its own generation pending |
| ModbusLifecycle.GoneStaysGone | src-tauri/src/modbus.rs:2382-2423 | a superseded or stopped start never becomes pending or active again and never emits started |
| ModbusLifecycle.StopIsABarrier | src-tauri/src/modbus.rs:2659-2721 | after a transport stop returns, no earlier start of that transport is pending or active and all their workers have finished |
| ModbusLifecycle.NeverStuck | src-tauri/src/modbus.rs:2425-2766 | while some start or stop has not returned, one of them can move |
| ModbusProgress.TaskMovesAreFew | src-tauri/src/modbus.rs:2425-2766 | whatever the others do, a start returns after at most nine moves of its own and a stop after at most five |
| ModbusProgress.MovesLeftUntilReturned | src-tauri/src/modbus.rs:2425-2766 | a start or stop has moves left exactly until it has returned |
| ModbusProgress.WaitsOnlyForTheHolder | src-tauri/src/modbus.rs:2439-2449 | a start or stop that has not returned can move, or waits at the gate for a holder that can |
| ModbusProgress.MovesAreBounded | src-tauri/src/modbus.rs:2425-2766 | in every run all starts and stops together make at most nine moves for each request, so with NeverStuck every request ends once no new ones come |
| ModbusCrc.ModbusCrc16 | src-tauri/src/modbus.rs:731-744 | the byte loop computes the CRC register |
| ModbusCrc.AppendedCrcPasses | src-tauri/src/modbus.rs:746-756 | a frame built by the sender passes the check |
| ModbusCrc.RegisterIsFeed | src-tauri/src/modbus.rs:731-744 | the byte-wise register is the bit-serial register of section 2.5.1.2 of Modbus over Serial Line |
| ModbusCrc.CheckPassesIffRegisterIsZero | src-tauri/src/modbus.rs:885-891 | the check "CRC of the prefix equals the last two bytes, little-endian" passes if and only if the register over the whole frame is zero |
| ModbusCrc.BurstIsDetected | src-tauri/src/modbus.rs:885-891 | two accepted frames of one length that agree outside any window of at most 16 bits are equal |
| ModbusCrc.AdjacentBytesAreDetected | src-tauri/src/modbus.rs:2171-2181 | two accepted frames of one length never differ only inside two adjacent bytes |
| ModbusCrc.OddFlipsAreDetected | src-tauri/src/modbus.rs:2171-2181 | two accepted frames of one length differ in an even number of bits |
| ModbusCrcDistance.NoShorterPeriod | src-tauri/src/modbus.rs:731-744 | the register 0xA000, which stands for x + 1, does not come back in fewer than 32767 shifts |
| ModbusCrcDistance.TwoFlipsAreDetected | src-tauri/src/modbus.rs:2171-2181 | two accepted frames of one length, at most 4095 bytes, never differ in exactly two bits |
| ModbusCrcDistance.AcceptedFramesAreFourApart | src-tauri/src/modbus.rs:2171-2181 | different accepted frames of one length, at most 4095 bytes, differ in at least four bits |
| ModbusPacking.PackBits | src-tauri/src/modbus.rs:615-623 | the zeroed buffer with one bitwise-or assignment for each true bit is the packing of the list, eight to a byte, least significant bit first, zero padding |
| ModbusPacking.UnpackOfPacked | src-tauri/src/modbus.rs:971-973 | reading packed bits gives the list back |
| ModbusPacking.PackingUnique | src-tauri/src/modbus.rs:615-623 | there is one packing of a list |
| ModbusPacking.AppendWords | src-tauri/src/modbus.rs:631-634 | registers are appended most significant byte first |
| ModbusPacking.WordsRoundTrip | src-tauri/src/modbus.rs:987-990 | decoding encoded registers gives them back |
| ModbusPacking.BytesRoundTrip | src-tauri/src/modbus.rs:987-990 | encoding decoded registers gives the bytes back |
| ModbusCodec.ValidateAddressRange | src-tauri/src/modbus.rs:535-546 | succeeds exactly for a non-empty range inside 0..65535 |
| ModbusCodec.BuildRequestSpec | src-tauri/src/modbus.rs:564-650 | the builder, with its loops, gives the request or the error of the specification |
| ModbusCodec.BuiltRequestsAreAccepted | src-tauri/src/modbus.rs:564-650 | a request is built exactly for the function codes, quantities, ranges and values of sections 6.1-6.6, 6.11 and 6.12 of the Modbus Application Protocol, and carries the arguments unchanged (a coil 1 as 0xFF00) |
| ModbusCodec.BuiltRequestsFit | src-tauri/src/modbus.rs:639-641 | the 253-byte check at the end never fires |
| ModbusCodec.RequestFields | src-tauri/src/modbus.rs:572-637 | where the receiver finds the fields of any built request |
| ModbusCodec.SlaveBank.ProcessSlavePdu | src-tauri/src/modbus.rs:1590-1775 | the reply and all four tables after it, for every byte string |
| ModbusCodec.SlaveBank.WriteCoilRange | src-tauri/src/modbus.rs:1719-1724 | the write loop changes exactly its range |
| ModbusCodec.SlaveBank.WriteWordRange | src-tauri/src/modbus.rs:1755-1761 | the write loop changes exactly its range |
| ModbusCodec.RepliesFit | src-tauri/src/modbus.rs:1590-1775 | every byte string gets a reply of 1..253 bytes, so framing it cannot fail |
| ModbusCodec.ExceptionsWriteNothing | src-tauri/src/modbus.rs:1590-1775 | an exception reply leaves the whole bank unchanged, and no request changes input registers or discrete inputs |
| ModbusCodec.RequestIsAnswered | src-tauri/src/modbus.rs:935-1017 | every built request is served without exception; the master reads exactly the bank's values, or the write count with the bank changed exactly on its range |
| ModbusCodec.ServedRequestsAreBuilt | src-tauri/src/modbus.rs:1590-1775 | conversely every request the slave serves is a built request, up to the padding bits of a coil write |
| ModbusCodec.WordRepliesAreExact | src-tauri/src/modbus.rs:976-992 | which register replies the master accepts and as what, both ways |
| ModbusCodec.CoilRepliesAreExact | src-tauri/src/modbus.rs:960-975 | which coil replies the master accepts and as what, both ways |
| ModbusCodec.WriteRepliesAreExact | src-tauri/src/modbus.rs:993-1014 | to a write the master accepts one reply and no other |
| ModbusCodec.BroadcastAckIsTheReply | src-tauri/src/modbus.rs:811-822 | the acknowledgement made up for a broadcast exists for writes only and is the reply any slave would have sent |
| ModbusFrames.MbapHeaderOfFrame | src-tauri/src/modbus.rs:652-698 | both receivers accept the header of a built frame, with its length, and find the PDU and what follows |
| ModbusFrames.ServingNeverFailsToFrame | src-tauri/src/modbus.rs:1817-1849 | whatever arrives, the slave never fails to frame its reply |
| ModbusFrames.TcpExchange | src-tauri/src/modbus.rs:700-729 | a whole TCP exchange gives the expected answer and bank and leaves later bytes unread |
| ModbusFrames.BuildRtuFrame | src-tauri/src/modbus.rs:746-756 | a built RTU frame has three more bytes than its PDU and passes the check |
| ModbusFrames.PredictedLengthIsRight | src-tauri/src/modbus.rs:758-802 | the length the master predicts from three bytes is the length of the real reply, within 5..256 |
| ModbusFrames.PredictedLengthOfException | src-tauri/src/modbus.rs:769-771 | and of any exception reply |
| ModbusFrames.ProcessSlaveRtuFrame | src-tauri/src/modbus.rs:2166-2199 | outcome and bank for every frame |
| ModbusFrames.RtuExchange | src-tauri/src/modbus.rs:842-893 | a whole RTU exchange gives the expected answer and bank |
| ModbusFrames.RtuBroadcast | src-tauri/src/modbus.rs:811-822 | a broadcast write changes every bank, is not answered, and its made-up acknowledgement parses as the answer |
| ModbusFrames.OtherFramesChangeNothing | src-tauri/src/modbus.rs:2171-2186 | a frame for another unit or with a wrong CRC changes nothing and is not answered |
| MockLifecycle.MockServerLifecycle.ReserveStart | src-tauri/src/mock_server.rs:249-277 | reserves a new generation exactly when stopped and not destroyed |
| MockLifecycle.MockServerLifecycle.InstallRunning | src-tauri/src/mock_server.rs:279-299 | runs exactly the starting, uncancelled generation |
| MockLifecycle.MockServerLifecycle.MarkStartFailed | src-tauri/src/mock_server.rs:301-311 | stops only its own starting generation |
| MockLifecycle.MockServerLifecycle.MarkRunningFinished | src-tauri/src/mock_server.rs:313-325 | stops only its own running generation |
| MockLifecycle.MockServerLifecycle.BeginStop | src-tauri/src/mock_server.rs:327-377 | the action and the new phase; cancels what was starting or running |
| MockLifecycle.MockServerLifecycle.BeginDestroy | src-tauri/src/mock_server.rs:379-382 | as a stop, and marks the session destroyed |
| MockLifecycle.MockServerLifecycle.CompleteStop | src-tauri/src/mock_server.rs:384-402 | leaves Stopping of its own generation only, and wakes its waiters |
| MockLifecycle.StepKeepsInv | src-tauri/src/mock_server.rs:240-451 | every step of starts, workers, stops, destroys, coordinators and late callbacks keeps the invariant |
| MockLifecycle.RunKeepsInv | src-tauri/src/mock_server.rs:240-451 | so does every run |
| MockLifecycle.OneGenerationAtATime | src-tauri/src/mock_server.rs:1685-1774 | whatever is under way for a generation, the phase names it, so at most one start can still bind or install and at most one listener is bound |
| MockLifecycle.LateStepsAreHarmless | src-tauri/src/mock_server.rs:436-451 | steps of a generation the phase does not name never move the phase; the callback of a dropped guard changes nothing at all |
| MockLifecycle.StoppingIsLeftOnlyByItsCompletion | src-tauri/src/mock_server.rs:1776-1805 | Stopping(g) is left only by the completion of g, when the start of g has returned and its worker ended, and then every waiter can return |
| MockLifecycle.DestroyedStaysDown | src-tauri/src/mock_server.rs:379-382 | after a destroy nothing is ever starting or running again and no generation is reserved |
| MockLifecycle.StopIsABarrier | src-tauri/src/mock_server.rs:1817-1838 | after a stop of g returns, g is never named by the phase, holds no worker and has no start in flight |
| MockLifecycle.StoppingMakesProgress | src-tauri/src/mock_server.rs:1776-1838 | a stop cannot be stranded: a step of g is enabled, each brings the end closer, none takes it away |
| MockRegistry.MockServerRegistry.RemoveSessionIfGeneration | src-tauri/src/mock_server.rs:520-529 | removes a session only of that generation |
| MockRegistry.MockServerRegistry.RecordCompletedTombstone | src-tauri/src/mock_server.rs:531-547 | the queue and the tombstones after the eviction loop |
| MockRegistry.MockServerRegistry.GetOrCreateStartSession | src-tauri/src/mock_server.rs:563-578 | refused exactly while a destroy is under way; otherwise there is a session |
| MockRegistry.MockServerRegistry.PrepareDestroy | src-tauri/src/mock_server.rs:1851-1897 | what a destroy finds and leaves behind |
| MockRegistry.MockServerRegistry.FinalizeDestroy | src-tauri/src/mock_server.rs:1899-1917 | the registry after a cleanup |
| MockRegistry.EvictionIsExact | src-tauri/src/mock_server.rs:531-547 | a tombstone is evicted only by a queue entry of its own generation among the oldest, and only when finished |
| MockRegistry.CleanupIsExact | src-tauri/src/mock_server.rs:1899-1917 | a cleanup removes the exact instance it was started for, whatever the registry holds by then |
| MockRegistry.StepKeepsInv | src-tauri/src/mock_server.rs:490-599 | every step keeps the registry invariant |
| MockRegistry.RunKeepsInv | src-tauri/src/mock_server.rs:490-599 | so does every run |
| MockRegistry.TombstonesTellTheTruth | src-tauri/src/mock_server.rs:1851-1917 | an unfinished tombstone names the destroyed session still in the map; a finished one means no session, and is queued |
| MockRegistry.FinishedTombstonesAreBounded | src-tauri/src/mock_server.rs:531-547 | at most 4096 finished tombstones in every reachable state |
| MockRegistry.FinishedTombstonesLast | src-tauri/src/mock_server.rs:531-578 | a tombstone goes away only by a start of its id or as the oldest of a full queue |
| MockRegistry.ObtainedIsNotDestroyed | src-tauri/src/mock_server.rs:563-578 | a start never gets hold of a destroyed instance |
| MockRegistry.GoneStaysGone | src-tauri/src/mock_server.rs:1899-1917 | an instance whose destroy has finished never comes back under any id |
| MockLog.EstimatedBytes | src-tauri/src/mock_server.rs:1090-1114 | the saturating sum of all texts of an entry |
| MockLog.SessionLog.Append | src-tauri/src/mock_server.rs:1493-1510 | the log after the eviction loop and the append |
| MockLog.SessionLog.Clear | src-tauri/src/mock_server.rs:1977-1985 | empty log, zero bytes |
| MockLog.LongestFitIsLongest | src-tauri/src/mock_server.rs:1493-1510 | what LongestFit means: a suffix that fits, and no longer suffix fits |
| MockLog.RetainedIsLongestSuffix | src-tauri/src/mock_server.rs:1493-1510 | after every history of requests and clears the log is the longest suffix since the last clear that fits both limits, and the byte counter is exactly its size |
| MockRoutes.JoinOfSplit | src-tauri/src/mock_server.rs:625-640 | splitting a path into segments loses nothing |
| MockRoutes.SplitIsTheOnlyList | src-tauri/src/mock_server.rs:629-638 | the segments are the only slash-free pieces that join to the path |
| MockRoutes.MatchRoute | src-tauri/src/mock_server.rs:613-680 | matches exactly when method and segments match declaratively, and gives exactly the captures |
| MockRoutes.MatchSegments | src-tauri/src/mock_server.rs:642-679 | the two-index loop against the declarative matcher |
| MockRoutes.SubstitutionGivesThePath | src-tauri/src/mock_server.rs:642-679 | putting the captures back into the whole pattern gives the path, if and only if captures of one name agree and the pattern has no `**` or only a last one that was given something or stands alone; with distinct names only the second matters |
| MockRoutes.SubstitutionCanAddASlash | src-tauri/src/mock_server.rs:647-652 | `/a/**` matches `/a` with an empty capture and fills in to `a/` |
| MockRoutes.SubstitutionCanAddSegments | src-tauri/src/mock_server.rs:647-652 | `/a/**/b` matches `/a/x` without looking at its last segment and fills in to `a/x/b` |
| MockRoutes.FindBestMatch | src-tauri/src/mock_server.rs:683-729 | returns the captures of the first enabled matching route that is maximal by priority and specificity, or none matches |
| MockRoutes.BestIsUnique | src-tauri/src/mock_server.rs:683-729 | there is only one such route |
| GrpcStream.StreamRegistry.RegisterStream | src-tauri/src/grpc_client.rs:46-71 | the new generation becomes current and the replaced one is handed back |
| GrpcStream.StreamRegistry.RemoveStreamIfGeneration | src-tauri/src/grpc_client.rs:73-88 | removes only its own generation |
| GrpcStream.StreamRegistry.EmitIfCurrent | src-tauri/src/grpc_client.rs:90-107 | emits only while current |
| GrpcStream.StreamRegistry.FinishStreamIfCurrent | src-tauri/src/grpc_client.rs:109-129 | removes and emits in one section, only while current |
| GrpcStream.StreamRegistry.CancelStream | src-tauri/src/grpc_client.rs:1930-1940 | removes whatever is current |
| GrpcStream.StreamEventSink.TryEmit | src-tauri/src/grpc_client.rs:413-426 | a full queue counts a drop, a closed one does not |
| GrpcStream.StreamEventSink.TakeDropped | src-tauri/src/grpc_client.rs:381-384 | takes all drops counted so far and restarts the count |
| GrpcStream.StepKeepsInv | src-tauri/src/grpc_client.rs:352-444 | every step of transports, dispatchers, registrations and cancels keeps the invariant |
| GrpcStream.RunKeepsInv | src-tauri/src/grpc_client.rs:352-444 | so does every run |
| GrpcStream.EventsFormOneBlock | src-tauri/src/grpc_client.rs:90-129 | the events of a generation are contiguous and only the last can be terminal |
| GrpcStream.TerminalAccountsForEverything | src-tauri/src/grpc_client.rs:381-444 | once the terminal event is out, events delivered plus drops reported equal events attempted |
| GrpcStream.DeliveredInOrder | src-tauri/src/grpc_client.rs:365-426 | events come out in the order of their attempts, without repetition, from a queue of at most 32 |
| GrpcStream.GoneMeansGone | src-tauri/src/grpc_client.rs:46-129 | a generation that is no longer current never is again and never emits again |
| GrpcEvents.TruncateUtf8 | src-tauri/src/grpc_client.rs:277-298 | at most the given bytes, unchanged if it fits, never a character cut in two |
| GrpcEvents.TruncatedIsPreview | src-tauri/src/grpc_client.rs:277-298 | what is left is a beginning of the text, then a beginning of the notice |
| GrpcEvents.BoundStreamEvent | src-tauri/src/grpc_client.rs:306-338 | the shrinking loop terminates with the bounded event |
| GrpcEvents.BoundedFits | src-tauri/src/grpc_client.rs:306-338 | for every validated connection id the result is at most 64 KiB of JSON, and only the two texts changed |
| GrpcEvents.BoundedShowsTheBeginning | src-tauri/src/grpc_client.rs:306-338 | what is shown of each text begins as the text does |
| GrpcEvents.BoundedIsWellFormed | src-tauri/src/grpc_client.rs:306-338 | bounding keeps both texts well-formed UTF-8 |
| GrpcEvents.BoundedEventsAreAdmitted | src-tauri/src/grpc_client.rs:488-504 | a bounded event that is refused is admitted after the one sleep it is asked to take, at most a window long |
| GrpcLimiter.StreamEmitRateLimiter.CapacityDelay | src-tauri/src/grpc_client.rs:467-486 | admission, window and delay of every call |
| GrpcLimiter.AdmittedAfterOneSleep | src-tauri/src/grpc_client.rs:467-504 | after one sleep a call is admitted if and only if it could ever be |
| GrpcLimiter.OversizedIsNeverAdmitted | src-tauri/src/grpc_client.rs:488-504 | otherwise it never is, and the wait becomes a busy loop |
| GrpcLimiter.AtMostTwiceTheLimits | src-tauri/src/grpc_client.rs:446-486 | in any interval of one window length at most twice the events and twice the bytes get through, over every history |
| GrpcLimiter.TwiceIsReached | src-tauri/src/grpc_client.rs:446-486 | and twice is reached |
| GrpcCache.DescriptorPoolCache.Get | src-tauri/src/grpc_client.rs:630-637 | the pool found, and the list with it at the recent end |
| GrpcCache.DescriptorPoolCache.Insert | src-tauri/src/grpc_client.rs:639-684 | the list with the entry at the recent end; refused exactly when disabled or too large, and then nothing changes; "capacity insufficient" is unreachable |
| GrpcCache.DescriptorPoolCache.LeastRecentlyUsed | src-tauri/src/grpc_client.rs:661-666 | the smallest stamp belongs to the first of the list |
| GrpcCache.DescriptorPoolCache.MakeRoom | src-tauri/src/grpc_client.rs:655-672 | the eviction loop is eviction from the least recent end |
| GrpcCache.EvictedHasRoom | src-tauri/src/grpc_client.rs:655-672 | an accepted insert always finds room |
| GrpcCache.EvictedKeepsTheMostRecent | src-tauri/src/grpc_client.rs:655-672 | what is kept is the longest most-recent part that leaves room |
| GrpcCache.HistoryStaysBounded | src-tauri/src/grpc_client.rs:609-684 | after every history no key occurs twice and both bounds hold |
| SerialCommand.CommandControl.Begin | src-tauri/src/serial_port.rs:160-169 | queued to started, or nothing |
| SerialCommand.CommandControl.Complete | src-tauri/src/serial_port.rs:172-181 | started to completed, or nothing |
| SerialCommand.CommandControl.Cancel | src-tauri/src/serial_port.rs:183-206 | what was found, what is left, and whether the token fires |
| SerialCommand.StepKeepsInv | src-tauri/src/serial_port.rs:516-594 | every step of callers and worker keeps the invariant |
| SerialCommand.RunKeepsInv | src-tauri/src/serial_port.rs:516-594 | so does every run |
| SerialCommand.EveryReturnIsOneOfThree | src-tauri/src/serial_port.rs:765-799 | when a request returns, the side effect never ran and never will; or it ran once and the caller holds the worker's own result; or it is unknown and the worker is leaving |
| SerialCommand.OkMeansExactlyOnce | src-tauri/src/serial_port.rs:765-799 | Ok(()) means the side effect ran exactly once, completely |
| SerialCommand.NeverRunsForever | src-tauri/src/serial_port.rs:518-521 | "never ran" is final |
| SerialCommand.NothingBeginsAfterUncertain | src-tauri/src/serial_port.rs:525-556 | once a result is unknown no other command begins |
| SerialCommand.UncertainWorkerLeaves | src-tauri/src/serial_port.rs:525-594 | and the worker leaves its loop within three of its own moves |
| SerialSlots.ConnectionSlots.ReserveOpen | src-tauri/src/serial_port.rs:275-297 | the slot becomes pending and keeps the handle to stop |
| SerialSlots.ConnectionSlots.CancelCurrent | src-tauri/src/serial_port.rs:299-327 | the slot becomes a tombstone and keeps the handle to stop |
| SerialSlots.ConnectionSlots.CancelGeneration | src-tauri/src/serial_port.rs:329-344 | only when it is that generation |
| SerialSlots.ConnectionSlots.InstallIfPending | src-tauri/src/serial_port.rs:360-374 | opens exactly the pending generation |
| SerialSlots.ConnectionSlots.RemoveOpenGeneration | src-tauri/src/serial_port.rs:376-392 | removes exactly the open generation |
| SerialSlots.ConnectionSlots.ClearInactiveGeneration | src-tauri/src/serial_port.rs:394-413 | clears exactly a pending or dead slot of that generation |
| SerialSlots.StepKeepsInv | src-tauri/src/serial_port.rs:275-413 | every step of opens, closes, shutdowns and workers keeps the invariant |
| SerialSlots.RunKeepsInv | src-tauri/src/serial_port.rs:275-413 | so does every run |
| SerialSlots.LiveWorkerIsHeld | src-tauri/src/serial_port.rs:275-413 | a worker in its loop whose shutdown has not finished is always held by the slot, so there is at most one |
| SerialSlots.InstallsAlone | src-tauri/src/serial_port.rs:908-960 | when an open installs, no earlier worker is live, and opened is the first event of its generation |
| SerialSlots.EventsOfAGeneration | src-tauri/src/serial_port.rs:651-671 | each generation has at most one opened and one terminal event, in that order |
| SerialSlots.OpenMeansAnnounced | src-tauri/src/serial_port.rs:651-671 | the slot is open exactly for the generation whose opened event has no terminal event yet |
| SerialSlots.CloseIsABarrier | src-tauri/src/serial_port.rs:730-763 | after a close returns, its generation is out of the slot for good, shut down and silent |
| SerialSlots.NothingIsLeftBehind | src-tauri/src/serial_port.rs:867-977 | no open returns while pending; when all have returned the slot is vacant or open |
| SerialSlots.NeverStuck | src-tauri/src/serial_port.rs:867-977 | an open or close that has not returned can move, or waits for a shutdown that can finish |
| Postman.ItemTable.ImportItems | src-tauri/src/postman_compat.rs:748-843 | accepts exactly nestings of at most 20 folders and stores the rows of the collection in order |
| Postman.ItemTable.ImportPostman | src-tauri/src/postman_compat.rs:736-742 | a refused import leaves nothing behind |
| Postman.PathIsDistinct | src-tauri/src/postman_compat.rs:243-259 | going down from the top never meets an id twice, even in a table with parent cycles |
| Postman.PathIsShort | src-tauri/src/postman_compat.rs:243-259 | so the recursion is never deeper than the table, which is why it terminates |
| Postman.SortSorts | src-tauri/src/postman_compat.rs:254-255 | the children are in order |
| Postman.SortKeeps | src-tauri/src/postman_compat.rs:254-255 | and none is lost |
| Postman.ImportedIdsAreUnique | src-tauri/src/postman_compat.rs:760-761 | an import stores no id twice |
| Postman.ExportUndoesImport | src-tauri/src/postman_compat.rs:243-336 | exporting what an import stored gives back the same ordered tree, in whatever order the table is read |
| Postman.ExportIsStable | src-tauri/src/postman_compat.rs:243-336 | importing an export stands for the same tree |
| Digest.QuotedValueReadsBack | src-tauri/src/commands.rs:2655-2660 | a value is quoted exactly when it has no control character, and reads back as itself |
| Digest.ReplacingIsEscaping | src-tauri/src/commands.rs:2655-2660 | the two replacements escape every quote and backslash once |
| Digest.SplitOutsideQuotes | src-tauri/src/commands.rs:2729-2757 | the split loop against the recursive split |
| Digest.SplitIsLossless | src-tauri/src/commands.rs:2729-2757 | joining the pieces gives the input back, for every input and separator |
| Digest.SplitGivesPieces | src-tauri/src/commands.rs:2729-2757 | no piece has a separator outside its quotes and no quoted string crosses pieces |
| Digest.SplitUndoesJoin | src-tauri/src/commands.rs:2729-2757 | splitting joined pieces gives the pieces, so the split is the only such list |
| Digest.FindEquals | src-tauri/src/commands.rs:2695-2716 | the finder loop against the recursive search |
| Digest.EqualsIsFirst | src-tauri/src/commands.rs:2695-2716 | no earlier equals sign is outside quotes |
| Digest.ParseParameterValue | src-tauri/src/commands.rs:2760-2792 | the value loop against the recursive reader |
| Digest.ValueIsExact | src-tauri/src/commands.rs:2760-2792 | which texts are accepted and as what value, both ways, by the quoted-string rules of section 3.2.6 of RFC 7230 |
| Digest.UnquotedEscape | src-tauri/src/commands.rs:2769-2786 | unescaping an escaped value gives it back |
| Digest.ParseParameters | src-tauri/src/commands.rs:2686-2724 | the whole parameter loop |
| Digest.ParametersRoundTrip | src-tauri/src/commands.rs:2686-2724 | parsing a printed list of token keys and control-free values, quoted or bare, gives the list back in order, keys in lower case |
| Digest.ParseWwwAuthenticate | src-tauri/src/commands.rs:2664-2726 | the challenge of a whole response |
| Digest.ResponseRoundTrip | src-tauri/src/commands.rs:2664-2726 | a 401 response with any other headers before and anything after the printed challenge gives back the printed parameters |
| Digest.OnlyA401IsAChallenge | src-tauri/src/commands.rs:2665-2670 | a body that mentions 401 is never taken for a challenge |
| Headers.ScriptHeaders.LookupHeaderValue | src-tauri/src/script_engine.rs:234-238 | finds a value of an entry with that name in any case, if there is one |
| Headers.ScriptHeaders.RemoveHeaderValue | src-tauri/src/script_engine.rs:240-248 | removes one such entry, if there is one |
| Headers.ScriptHeaders.SetHeaderValue | src-tauri/src/script_engine.rs:250-253 | and then inserts the new spelling |
| Headers.SearchIsExact | src-tauri/src/script_engine.rs:234-238 | with case-unique names a search has exactly one result |
| Headers.RemoveIsSeen | src-tauri/src/script_engine.rs:240-248 | case-unique names stay so, and every case-insensitive reader sees that name gone and nothing else |
| Headers.SetIsSeen | src-tauri/src/script_engine.rs:250-253 | case-unique names stay so, and every case-insensitive reader sees that value and nothing else changed |
| Headers.BuildRequestPatch | src-tauri/src/script_engine.rs:255-310 | the patch, for any two contexts and any order of walking the maps |
| Headers.HttpRequest.RemoveHeaderCaseInsensitive | src-tauri/src/http_client.rs:194-202 | removes one matching entry, if there is one |
| Headers.HttpRequest.ApplyRequestPatch | src-tauri/src/http_client.rs:204-219 | for all headers: the removals one after the other, then the updates in some order of the map, each on one entry of its name; and the query exactly |
| Headers.PatchOfUnique | src-tauri/src/http_client.rs:204-219 | with case-unique names the result does not depend on the order and is the headers without the removed names, overlaid with the updates |
| Headers.PatchTouchesOnlyItsNames | src-tauri/src/http_client.rs:204-219 | with any names, an entry whose name the patch does not mention stays as it was, and none appears |
| Headers.PatchCarriesCurrent | src-tauri/src/script_engine.rs:255-310 | applying the patch built from original and current makes the request read as current; the patch is missing if and only if they already agreed |
| Headers.RunOperation | src-tauri/src/script_engine.rs:646-676 | every script operation keeps names case-unique and acts as on a map that ignores case |
| Headers.RunPreScript | src-tauri/src/http_client.rs:510-523 | whatever the script does, the request then reads as if the operations had been made on it directly |
| Headers.TwoSpellingsCanHideAChange | src-tauri/src/script_engine.rs:258-268 | case-unique names are needed: a case where a change is not carried over |

## Left out

- ModbusLifecycle.StepKeepsInv: a shutdown that outlives its timeouts, and so leaves an aborted task behind, is modelled as a completed join; errors that a running listener reports about single clients are not events of the model.
- SerialSlots.LiveWorkerIsHeld: is about workers in their loop; when the operating system releases the device afterwards is not modelled.
- SerialCommand.CommandControl.Cancel: the retry loop around the compare-and-swap has one round, since nothing interferes inside a method; interference is in the state machine, where a cancel takes effect at the swap that succeeds.
- Postman.ExportUndoesImport: methods are upper-cased for ASCII letters only, and only names, methods, URL texts and the nesting are carried; headers, bodies, scripts and authorisation are not.
- GrpcEvents.BoundedFits: the size of the JSON is computed from serde's escaping rules; the JSON itself is not built, and timestamps are at most 64 bytes.
- MockLog.EstimatedBytes: a char stands for one byte of UTF-8.
- Digest.ParseWwwAuthenticate: MD5, the response hash, the nonce count and the cnonce of the authorisation header are not modelled.
- GrpcCache.DescriptorPoolCache.Get: the clock does not saturate.
- Sockets, serial devices, tonic, hyper, reqwest and the delivery of Tauri events; emission is appending to a trace.
- The master side of Modbus connections, MQTT slots and video session generations repeat the generation patterns proved here.
- Collection storage, data export, SQL splitting, the JavaScript engine, protobuf compilation and mock response templates would add only easier members or need libraries that are not part of the repository.
- The React and TypeScript front end.
