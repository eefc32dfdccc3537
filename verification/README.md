# dnp3-bridge: a verified model

dnp3-bridge sits between a gRPC client and a DNP3 outstation. This project models
its three stateful parts and proves what they promise.

- **Commands** (`CommandMemory`, `CommandProtocol`, `CommandInvariant`, `CommandTheorems`,
  `CommandProgress`, `CommandWitnesses`, `CommandDispatcher`, `CommandRuns`). Threads inside `dispatch`, `fulfill`,
  `registerWriter` and `StreamToken::release` share a pending table and an active stream writer under two
  mutexes. The protocol is a transition system in which acquiring a lock, the body of a critical section, a
  stream write and a timer are separate steps; theorems hold for every reachable state, that is for every
  interleaving of any number of threads. A dispatch reads its future under no lock, so `fulfill` sets the promise
  and erases the entry in two steps: a dispatch can return in between, and `CommandTheorems.PendingIsExact` says
  what the table holds then. The classes `CommandDispatcher` and `StreamToken` use the same section bodies, and
  `CommandRuns` shows that the object's `Dispatch` is a run of the protocol.
- **Updates** (`BridgeProtocol`, `Bridge`, `Service`). Producers push, a flush thread swaps the queue out and
  drains it, a controller starts and stops it, and a condition variable puts it to sleep. Again a transition
  system over all interleavings, plus the class with the flush loop itself, shown to be a run of that system.
- **Events** (`Measurements`, `EventFilter`, `FilterRuns`, `Outstation`, `PointDatabase`, `PointValidation`,
  `PointRuns`). `OutstationManager` decides Force or Suppress for each update, from deadbands taken from a
  validated point database. The filter is a pure function of the update sequence; the class is proved against
  it, and the properties are proved of it.

The parts meet in `BridgeProtocol`: whatever the scheduler does, in every reachable state the last event raised for
each analog point stands for the last value consumed for it (`ScadaIsUpToDate`), and over the whole history, starts
and stops included, outstation and event stream are those of a bridge without threads (`SchedulingCannotMatter`).

## What the code does and does not keep

- A response that was answered "fulfilled" can be lost. The condition is exact
  (`CommandTheorems.ExactLossWindow`): it reaches the SCADA if and only if the command's write returned true and
  the response did not land between the observed timeout and the erase. The losing exits are therefore the
  timeout, a failed write and also the missing writer, because ids are predictable and `RespondToCommand` accepts
  one before anything was written. `CommandWitnesses` holds a run for each of these three.
- "A stream that was replaced by a newer one must not clear the newer writer"
  (`src/dnp3/CommandDispatcher.cpp:39-40`) holds over a whole run if and only if the run has no aliased release,
  the release of a stale registration at the address of the latest, still open one
  (`CommandTheorems.StaleCloseOverRuns`; `StaleCloseExactly` for one step). It always holds while streams open at
  the same time have different addresses (`StaleCloseNeverClears`), which is so for the gRPC handler: each
  `ServerWriter` outlives the token that its `StreamCommands` call keeps (`src/grpc/BridgeServiceImpl.cpp:109-125`).
  `CommandWitnesses.AliasedReleaseClearsNewer` therefore needs another caller of `registerWriter`.
- The integration guide says that all points of one `UpdateRequest` are applied in one batch
  (`docs/Guia_integracao_gRPC.md:315-317`). The code locks once per point, so they are if and only if the flush
  thread does not take the queue between the first push and the last (`BridgeProtocol.RequestIsOneBatch`);
  `RequestMaySplit` is a run in which it does. Order is kept in any case (`EndToEnd`, `Service.RequestOrderIsKept`).
- An update that is drained while the outstation is down is dropped (`src/dnp3/OutstationManager.cpp:462`). Nothing
  is dropped if and only if every drain finds the outstation up (`BridgeProtocol.NothingIsDropped`). The order in
  which `main` starts and stops the parts ensures that (`MainLosesNothing`); in another order updates can be lost
  (`OtherOrdersLoseUpdates`).
- The comment on `PointState` (`src/dnp3/OutstationManager.hpp:45`) says it also keeps the flags last written. It
  does not, and `FilterRuns.QualityNonInterference` shows that no decision could depend on them.
- The deadband properties need no assumption on the deadband's sign. A negative deadband makes every finite
  sample an event; a NaN or infinite one is compared as IEEE 754 section 5.11 says.

## Model

| member | source | states |
|---|---|---|
| Measurements.FlagBitsMeaning | src/dnp3/OutstationManager.cpp:259-272 | the whole flag byte in numerals: 1 for Good and Uncertain, 0 for Bad, 3 for Restart, so those two alone cannot be told apart |
| EventFilter.AnalogAfterSplit | src/dnp3/OutstationManager.cpp:461-488 | running the decision over a concatenation is running it over the parts: the future depends on the past only through the point state |
| EventFilter.LastEventedIsLastForced | src/dnp3/OutstationManager.hpp:45-54 | `last_evented` is always the last Force value of the run, and a fresh point's first sample is forced |
| EventFilter.TrackingInvariant | src/dnp3/OutstationManager.cpp:470-487 | after every sample of every run on a fresh point the last Force value equals the current value or both are finite and within the deadband; non-finite values are their own events |
| EventFilter.RestartAtEvents | src/dnp3/OutstationManager.cpp:470-487 | after an evented sample the rest of the run decides exactly as a fresh point fed that sample |
| EventFilter.NonFiniteNeverLatches | src/dnp3/OutstationManager.cpp:470-476 | a non-finite sample and the sample after it are both events, so NaN never suppresses a point for good |
| EventFilter.EventsCostVariation | src/dnp3/OutstationManager.cpp:473-486 | n events from a seen finite state cost more than n deadbands of total variation, counted from the last evented value |
| EventFilter.EventCountBound | src/dnp3/OutstationManager.cpp:467-487 | consecutive evented values of a finite run differ by more than the deadband, and k+1 events cost more than k deadbands of total variation |
| EventFilter.ExtremeDeadbands | src/dnp3/OutstationManager.cpp:467-473 | with a NaN or plus-infinite deadband no further finite sample is an event, with a negative or minus-infinite one every finite sample is |
| EventFilter.StutterFreeAlternates | src/dnp3/OutstationManager.cpp:496-497 | the stutter-free form strictly alternates and keeps the first and last value |
| EventFilter.BinaryEventsAreStutterFree | src/dnp3/OutstationManager.cpp:490-509 | the Force values of a binary point are the stutter-free form of its samples, and the last evented value is the current one |
| FilterRuns.RunSplit | src/dnp3/OutstationManager.cpp:461-509 | final state and applied stream of a concatenation compose, so where a batch is cut cannot matter |
| FilterRuns.StreamIsFaithful | src/dnp3/OutstationManager.cpp:481-484 | a live outstation is asked to apply every update exactly once, in order, each call having the update's own kind, index and value, forced or not, and the flag byte 1, 0 or 3 of its quality |
| FilterRuns.DownDropsEverything | src/dnp3/OutstationManager.cpp:462 | a stopped outstation applies nothing and changes no point state |
| FilterRuns.QualityNonInterference | src/dnp3/OutstationManager.hpp:45-49 | two runs with equal values and arbitrary qualities decide alike at every step and end in the same state, each flag byte being the one, in numerals, of its own step's quality |
| FilterRuns.PointIndependence | src/dnp3/OutstationManager.hpp:63-65 | in any interleaving over all indices and both kinds a point receives exactly what its own updates alone would give it |
| FilterRuns.DifferentPointsCommute | src/dnp3/OutstationManager.cpp:461-509 | updates to different points commute on the final state |
| FilterRuns.AnalogRunInside | src/dnp3/OutstationManager.cpp:461-488 | inside any interleaving the Force values and the state of an analog point are those of its own run |
| FilterRuns.BinaryRunInside | src/dnp3/OutstationManager.cpp:490-509 | the same for a binary point |
| FilterRuns.EventsStandForValues | src/dnp3/OutstationManager.cpp:461-509 | on a freshly started outstation, whatever else is updated, each point's last event stands for its current value, and binary events are stutter-free |
| FilterRuns.EventsAreBudgeted | src/dnp3/OutstationManager.cpp:467-487 | the event-count bound holds for each analog point inside any interleaving |
| Outstation.RuntimeDeadbandIsLastSet | src/dnp3/OutstationManager.cpp:412-414 | with an entry in any section, the deadband used at run time is that of the last covering entry giving one, else the default, and zero for an index nothing covers |
| Outstation.BuiltInDeadbands | src/dnp3/OutstationManager.cpp:399-414 | with no entry in any section it is the default for indices 0 to 20 and zero elsewhere |
| Outstation.OutstationManager.constructor | src/dnp3/OutstationManager.cpp:354-357 | a new manager has no outstation and has applied nothing |
| Outstation.OutstationManager.Start | src/dnp3/OutstationManager.cpp:395-443 | start forgets every point state, brings the outstation up, and makes every index's effective deadband the configured one |
| Outstation.OutstationManager.Shutdown | src/dnp3/OutstationManager.cpp:450-459 | shutdown takes the outstation down and keeps the maps |
| Outstation.OutstationManager.UpdateAnalog | src/dnp3/OutstationManager.cpp:461-488 | the imperative update refines the pure filter, and a live outstation gets one more call, with the given index and value and the flag byte of the quality in numerals |
| Outstation.OutstationManager.UpdateBinary | src/dnp3/OutstationManager.cpp:490-509 | the same for binaries |
| Outstation.OutstationManager.Update | src/bridge/Bridge.cpp:70-77 | the visitor hands each update to the right one |
| PointDatabase.Overlay | src/dnp3/OutstationManager.cpp:148-180 | the nested loops end for every range, the key set is the union of the ranges, and each point is the default with its covering entries applied in order |
| PointDatabase.LastSetterWins | src/dnp3/OutstationManager.cpp:165-168 | for any field an entry either overwrites or leaves alone, the overlay holds the value of the last covering entry that sets it, else the default |
| PointDatabase.AnalogFieldsAreLastSet | src/dnp3/OutstationManager.cpp:162-180 | so each of the four analog fields, independently at every index |
| PointDatabase.BinaryClassIsLastSet | src/dnp3/OutstationManager.cpp:148-160 | so the class of binary points |
| PointDatabase.ClassNamesAreNumbered | src/dnp3/OutstationManager.cpp:30-38 | the names of classes are exactly class0 to class3, each for the class of its number |
| PointDatabase.StaticInputNamesAreNumbered | src/dnp3/OutstationManager.cpp:41-51 | Group30Var1 to Group30Var6, each for the variation of its number |
| PointDatabase.EventInputNamesAreNumbered | src/dnp3/OutstationManager.cpp:54-66 | Group32Var1 to Group32Var8 likewise |
| PointDatabase.StaticOutputNamesAreNumbered | src/dnp3/OutstationManager.cpp:69-77 | Group40Var1 to Group40Var4 likewise |
| PointDatabase.EventOutputNamesAreNumbered | src/dnp3/OutstationManager.cpp:80-92 | Group42Var1 to Group42Var8 likewise |
| PointDatabase.AnalogInputIsAsSpelled | src/dnp3/OutstationManager.cpp:162-170 | class and variations of an analog input are those spelled, by number, in the last covering entry that sets them; a bad name gives class 1 or variation 1 |
| PointDatabase.AnalogOutputIsAsSpelled | src/dnp3/OutstationManager.cpp:172-180 | the same for analog output status, groups 40 and 42 |
| PointDatabase.BinaryIsAsSpelled | src/dnp3/OutstationManager.cpp:148-160 | the same for the class of binary points |
| PointDatabase.ConfigureFromConfig | src/dnp3/OutstationManager.cpp:146-183 | all four sections are overlaid, each with its own entries, names and default |
| PointDatabase.ConfigureDefault | src/dnp3/OutstationManager.cpp:116-144 | the built-in database has 11, 20, 21 and 5 points of the stated classes and variations and leaves deadbands at their default |
| PointValidation.CheckBinarySection | src/dnp3/OutstationManager.cpp:326-336 | accepts a section if and only if every entry has start <= end and a class unset or class0 to class3, and otherwise names the first wrong entry and its first wrong field |
| PointValidation.CheckAnalogSection | src/dnp3/OutstationManager.cpp:307-324 | the same with the variations of the two groups whose names the section accepts |
| PointValidation.ValidatePointDatabase | src/dnp3/OutstationManager.cpp:340-352 | accepts if and only if every entry of the four sections, by field name, is in order; otherwise the fault names the first wrong section, entry and field, the sections, entries and fields before it being in order |
| PointValidation.ValidMeansEveryEntryOk | src/dnp3/OutstationManager.cpp:340-352 | no fault can be named if and only if every entry of the four fields has start <= end and only names of its own groups |
| PointValidation.FirstWrongIsFirstBad | src/dnp3/OutstationManager.cpp:340-352 | what is wrong first, field by field, is the first fault in report order, and so the only one that can be reported |
| PointValidation.RangeConfiguresAPoint | src/dnp3/OutstationManager.cpp:286-296 | a range configures a point if and only if it is not reversed |
| PointValidation.ValidNeedsNoFallback | src/dnp3/OutstationManager.cpp:95-103 | in a valid database every entry of each of the four fields configures a point and every applied name is in its table |
| PointValidation.AnalogInputFallbackUnreachable | src/dnp3/OutstationManager.cpp:162-170 | the analog input overlay of a valid database is the same for all fallback values |
| PointValidation.AnalogOutputFallbackUnreachable | src/dnp3/OutstationManager.cpp:172-180 | the same for analog output status |
| PointValidation.BinaryInputFallbackUnreachable | src/dnp3/OutstationManager.cpp:148-153 | the same for the binary inputs |
| PointValidation.BinaryOutputFallbackUnreachable | src/dnp3/OutstationManager.cpp:155-160 | the same for the binary output statuses |
| PointRuns.LogPointRuns | src/dnp3/OutstationManager.cpp:198-227 | a logged run shows an index with a description if and only if it is a point with that description; the runs are disjoint and increasing, and no neighbours could be merged, also at index 65535 |
| PointRuns.MaximalIsShortest | src/dnp3/OutstationManager.cpp:198-227 | no other list of runs that expands to the same map is shorter |
| BridgeProtocol.StepKeepsInv | src/bridge/Bridge.cpp:18-82 | conservation, phases, no lost wake-up and refinement are kept by every step of every thread |
| BridgeProtocol.EndToEnd | src/bridge/Bridge.cpp:49-82 | in every reachable state the applied stream is a prefix of the pure filter folded over push order, and the whole fold once queue and batch are empty |
| BridgeProtocol.ScadaIsUpToDate | src/bridge/Bridge.cpp:49-82 | in every reachable state with the outstation up each analog point's last event stands for the last value consumed since it went up, and binary events are the stutter-free form of the consumed values; once drained, of the pushed ones |
| BridgeProtocol.ScadaIsNotFlooded | src/dnp3/OutstationManager.cpp:467-487 | in every such state n events of an analog point cost it more than n - 1 deadbands of total variation |
| BridgeProtocol.ReplayFollowsOutline | src/bridge/Bridge.cpp:64-80 | the bridge without threads heeds nothing but ups, downs and drains |
| BridgeProtocol.RunIsReplay | src/bridge/Bridge.cpp:49-82 | from any ordered state a run's effect on the outstation is that of feeding it, one by one, what is pushed, in push order |
| BridgeProtocol.SchedulingCannotMatter | src/bridge/Bridge.cpp:18-82 | over the whole history outstation and stream are those of the bridge without threads, so two runs that push the same and agree on the order of ups, downs and drains end alike |
| BridgeProtocol.NothingIsDropped | src/dnp3/OutstationManager.cpp:462 | as many updates are applied as were consumed if and only if every drain of the run found the outstation up, and then the k-th call has the kind, index, value and flag byte of the k-th update consumed |
| BridgeProtocol.DrainOnStop | src/bridge/Bridge.cpp:36-47 | when stop can return, everything pushed before `running_` was cleared has been consumed in order, and the rest is still queued |
| BridgeProtocol.MainLosesNothing | src/main.cpp:99-118 | in main's order of starts and stops every drain finds the outstation up, the k-th call has the kind, index, value and flag byte of the k-th update pushed, and all pushed before stop are applied when it returns |
| BridgeProtocol.OtherOrdersLoseUpdates | src/dnp3/OutstationManager.cpp:462 | a run in another order that drops an update |
| BridgeProtocol.InternalRunsAreBounded | src/bridge/Bridge.cpp:26-82 | without new pushes or calls the threads can take at most Rank more steps |
| BridgeProtocol.QuietMeansDone | src/bridge/Bridge.cpp:26-62 | where they can take none, start or stop has returned and the flush thread sleeps with everything consumed or has ended |
| BridgeProtocol.QueuedUntilCheck | src/bridge/Bridge.cpp:53-62 | over any stretch of a run a queued update stays queued if and only if the flush thread takes no queue |
| BridgeProtocol.RequestIsOneBatch | src/grpc/BridgeServiceImpl.cpp:61-79 | the batch that takes a request's last point takes its first if and only if no queue was taken between their pushes, and then it takes all in between |
| BridgeProtocol.RequestMaySplit | src/grpc/BridgeServiceImpl.cpp:61-79 | a run in which the first point of a request is applied before the second is queued |
| Bridge.Bridge.ApplyUpdate | src/bridge/Bridge.cpp:18-24 | appends to the queue |
| Bridge.Bridge.BeginStart | src/bridge/Bridge.cpp:26-34 | sets `running_` and asks for a thread only if it was clear |
| Bridge.Bridge.BeginStop | src/bridge/Bridge.cpp:36-47 | clears `running_` and asks for the join only if it was set |
| Bridge.Bridge.DrainBatch | src/bridge/Bridge.cpp:66-80 | a batch is applied front to back: state and stream are the filter's |
| Bridge.Bridge.FlushLoop | src/bridge/Bridge.cpp:49-82 | for any arrivals between its lock sections the loop ends after stop, leaves nothing queued, and the outstation has seen the filter folded over everything in push order |
| Bridge.Bridge.FlushLoopIsARun | src/bridge/Bridge.cpp:49-82 | the effect of the flush loop is that of a run of the protocol, from any state the object shows to one where `stop` can return |
| Service.QualityOnTheWire | src/grpc/BridgeServiceImpl.cpp:34-41 | quality 2 goes out offline, 3 with ONLINE and RESTART, every other number as plain ONLINE, 1 alone being Uncertain |
| Service.UpdateOfMessage | src/grpc/BridgeServiceImpl.cpp:61-79 | update number k of a request has the kind, value, quality and low 16 bits of index of message number k, analogs first |
| Service.MessagesReachTheOutstation | src/grpc/BridgeServiceImpl.cpp:61-79 | drained into a live outstation, message number k becomes call number k with its kind, value, low 16 bits of index, and the flag byte of its wire quality in numerals |
| Service.UpdatePoints | src/grpc/BridgeServiceImpl.cpp:53-90 | with other producers pushing and the flush thread taking the queue before any point, what was taken and what is queued is what was queued before and then the request's points, indices narrowed to 16 bits, woven into the other pushes |
| Service.RequestOrderIsKept | src/grpc/BridgeServiceImpl.cpp:61-79 | the request's points stand in the woven pushes in request order, analogs first, with exactly the other producers' pushes of each gap between them |
| Service.ResultsKeepTheirCode | src/grpc/BridgeServiceImpl.cpp:17-32 | results 0 to 9 become the status with that code, 10 DOWNSTREAM_FAIL (18), any other number UNDEFINED (127) |
| Service.RespondToCommand | src/grpc/BridgeServiceImpl.cpp:127-145 | reports success exactly when the id was pending; then its promise holds the status with the code of the result and the entry is gone; otherwise nothing changes |
| CommandInvariant.StepKeepsLocks | src/dnp3/CommandDispatcher.cpp:41-135 | each mutex is always held by exactly the thread whose program counter says so |
| CommandInvariant.StepKeepsCalls | src/dnp3/CommandDispatcher.cpp:72-135 | every step keeps, for every issued id, the relation between its dispatch's program counter, the table entry, the promise and the answer |
| CommandInvariant.StepKeepsHolders | src/dnp3/CommandDispatcher.cpp:18-51 | every registration has exactly one holder, through construction, moves, self-assignment and release |
| CommandInvariant.InvFromStart | src/dnp3/CommandDispatcher.cpp:41-135 | the whole invariant holds in every state of every run |
| CommandTheorems.IdsAreFresh | src/dnp3/CommandDispatcher.hpp:55 | issued ids lie in 1 .. nextId - 1 and no two dispatches share one |
| CommandTheorems.PendingIsExact | src/dnp3/CommandDispatcher.cpp:77-135 | the table's keys are exactly the ids registered, not erased and not fulfilled, plus the id a lock-holding fulfil has set and not yet erased; while the lock is free there is none, and the table is empty if no dispatch is in progress |
| CommandMemory.FaultsAreMisuse | src/dnp3/CommandDispatcher.cpp:80-132 | a promise error is raised exactly by taking a future twice or setting a promise twice |
| CommandTheorems.NoFutureError | src/dnp3/CommandDispatcher.cpp:80-132 | no promise is set twice, no future taken twice, none read broken |
| CommandTheorems.AtMostOneAnswer | src/dnp3/CommandDispatcher.cpp:124-135 | each id gets at most one fulfil that sets its promise and answers true |
| CommandTheorems.Correlation | src/dnp3/CommandDispatcher.cpp:112-134 | a dispatch leaving through the future returns the status of the one fulfil that answered true for its id |
| CommandTheorems.ExactLossWindow | src/dnp3/CommandDispatcher.cpp:84-117 | a response answered true is what the dispatch returned through its future if and only if the write had returned true and the response did not land between observed timeout and erase |
| CommandTheorems.EveryPromiseIsSettled | src/dnp3/CommandDispatcher.cpp:114-133 | once a dispatch has returned its promise holds the accepted status, or is broken if there was none |
| CommandTheorems.ExitsByCause | src/dnp3/CommandDispatcher.cpp:84-121 | a dispatch returned by an exit if and only if, at some step of the run, it met that exit's cause (no writer at its check, a false write, a throwing write, its timer, its ready future), with that exit's status; a write that returned true leaves the last two, told apart by whether an accepted response beat the timer |
| CommandTheorems.ExitIsDecidedByCause | src/dnp3/CommandDispatcher.cpp:84-121 | a dispatch's own step decides its exit exactly when that exit's cause occurs, and otherwise leaves it as it was |
| CommandTheorems.ExitNeverChanges | src/dnp3/CommandDispatcher.cpp:84-121 | once decided the exit stays the same however the run goes on |
| CommandTheorems.LateFulfilIsRefused | src/dnp3/CommandDispatcher.cpp:124-131 | after a dispatch returned, however the run goes on, a fulfil for its id answers false and changes nothing |
| CommandTheorems.UnissuedFulfilIsRefused | src/dnp3/CommandDispatcher.cpp:124-131 | the same for id 0 and ids not yet issued |
| CommandTheorems.AcceptedWhileWaitingIsReturned | src/dnp3/CommandDispatcher.cpp:112-121 | once a response is accepted while the dispatch waits, every continuation in which it returns returns that status |
| CommandTheorems.WritesGoToTheLatestStream | src/dnp3/CommandDispatcher.cpp:84-93 | a write in progress goes to the latest registration, which stays unreleased while it lasts; a registration has been released once if it is no longer open and never otherwise, and armed tokens hold open registrations |
| CommandTheorems.OnlyTheOwnerReleases | src/dnp3/CommandDispatcher.cpp:18-51 | only destroying or assigning to the armed token begins a release, only that release ends it, and only moves transfer it |
| CommandTheorems.MovesHandOver | src/dnp3/CommandDispatcher.cpp:18-37 | destroying an armed token does begin its release, a move takes the registration over and disarms the source, assigning begins the release of what was held, and self-assignment changes nothing |
| CommandProgress.ReleasedExactlyOnce | src/dnp3/CommandDispatcher.hpp:17-36 | when every token is destroyed or disarmed and no thread can step, every registration ever made has been released exactly once |
| CommandTheorems.StaleCloseExactly | src/dnp3/CommandDispatcher.cpp:39-51 | a step makes the active writer differ from the latest open registration if and only if it is an aliased release |
| CommandTheorems.StaleCloseOverRuns | src/dnp3/CommandDispatcher.cpp:39-70 | for any addresses, the active writer is exact throughout a run if and only if the run has no aliased release |
| CommandTheorems.StaleCloseNeverClears | src/dnp3/CommandDispatcher.cpp:39-70 | with distinct addresses among open streams the active writer is the latest registration's if unreleased, else null, in every interleaving |
| CommandProgress.LockOrder | src/dnp3/CommandDispatcher.cpp:77-112 | locks nest only writer then pending, and nobody waits on a future holding one |
| CommandProgress.DeadlockFree | src/dnp3/CommandDispatcher.cpp:41-135 | in every reachable state a lock holder can step, and while any thread is unfinished some thread can step |
| CommandProgress.EveryDispatchReturns | src/dnp3/CommandDispatcher.cpp:72-122 | the threads present take boundedly many steps, and where none can step all have returned, the table is empty and both locks are free |
| CommandWitnesses.NoWriterLosesResponse | src/dnp3/CommandDispatcher.cpp:86-91 | a run in which an accepted response is lost to the missing writer |
| CommandWitnesses.FailedWriteLosesResponse | src/dnp3/CommandDispatcher.cpp:93-98 | a run in which an accepted response is lost to a failed write |
| CommandWitnesses.EarlyResponseIsDelivered | src/dnp3/CommandDispatcher.cpp:92-121 | a run in which a response precedes the write's return and is delivered |
| CommandWitnesses.TimeoutLosesResponse | src/dnp3/CommandDispatcher.cpp:112-117 | a run in which an accepted response is lost to the timeout |
| CommandWitnesses.AliasedReleaseClearsNewer | src/dnp3/CommandDispatcher.cpp:41-51 | a run in which closing a stale stream clears the newer one at the same address |
| CommandDispatcher.FirstResponseSettles | src/dnp3/CommandDispatcher.cpp:124-135 | among any critical sections of other threads the first response for a pending id settles it and nothing later changes that |
| CommandDispatcher.CommandDispatcher.InstallEntry | src/dnp3/CommandDispatcher.cpp:78-82 | a new entry with an unset promise, or a promise error if the id has an entry already; nothing else changes |
| CommandDispatcher.CommandDispatcher.EraseEntry | src/dnp3/CommandDispatcher.cpp:114-115 | the entry goes, its promise breaks if it is unset and keeps its value otherwise; without an entry nothing changes |
| CommandDispatcher.CommandDispatcher.Fulfil | src/dnp3/CommandDispatcher.cpp:124-135 | true if and only if the id has an entry; then the promise holds the status and the entry is gone (a promise set before raises an error and keeps both), else nothing changes |
| CommandDispatcher.CommandDispatcher.RegisterWriter | src/dnp3/CommandDispatcher.cpp:61-70 | replaces the active writer and returns a token armed with it |
| CommandDispatcher.CommandDispatcher.Unregister | src/dnp3/CommandDispatcher.cpp:43-49 | clears the active writer only if it is the given one |
| CommandDispatcher.CommandDispatcher.Dispatch | src/dnp3/CommandDispatcher.cpp:72-122 | under any script of other threads' sections the answer is fixed by writer, write outcome and first timely response for its id, and everything about other ids is as if its id had been taken and never used |
| CommandDispatcher.CommandDispatcher.FinishDispatch | src/dnp3/CommandDispatcher.cpp:84-122 | the same from the writer check on: the five exits, their statuses, and no trace left beside its own promise |
| CommandRuns.OthersAreARun | src/dnp3/CommandDispatcher.cpp:41-135 | whatever sections of other threads a script lists, threads of the protocol can perform them one after the other without moving the dispatch in progress |
| CommandRuns.ScriptIsARun | src/dnp3/CommandDispatcher.cpp:72-122 | from any reachable state with free locks a feasible script is played by a protocol run in which a new dispatch takes the next id and returns the script's answer, leaving the script's memory |
| CommandRuns.DispatchIsARun | src/dnp3/CommandDispatcher.cpp:72-122 | so the object's `Dispatch` has the effect and the answer of a run of the protocol |
| CommandDispatcher.StreamToken.MoveFrom | src/dnp3/CommandDispatcher.cpp:22-27 | takes over the registration and disarms the source |
| CommandDispatcher.StreamToken.Release | src/dnp3/CommandDispatcher.cpp:41-51 | clears its own writer only, once, and disarms |
| CommandDispatcher.StreamToken.MoveAssign | src/dnp3/CommandDispatcher.cpp:29-37 | releases what it held, takes over the other's, and does nothing on itself |

## Left out

- opendnp3 itself, including `IOutstation::Apply`, event buffers and class reads: `applied` is the stream handed to it, and its default point settings are a parameter.
- The gRPC server, stream transport and real time: how a write ends and when a timer fires are free choices of each run.
- IEEE 754 rounding and overflow in `value - last_evented`: finite values are exact reals; NaN and the infinities are kept.
- 64-bit wrap of `next_id_`: ids are unbounded.
- `CommandDispatcher.CommandDispatcher.Dispatch`: in the script another dispatch takes its id and installs its promise in one entry, and a fulfil is one entry; `CommandProtocol` has their steps apart.
- `CommandRuns.DispatchIsARun`: leaves out scripts in which a stream opens or closes, or another entry is erased, while this dispatch holds `writer_mutex_`. The first two cannot happen in the code; the third happens only to a dispatch that already waits or has timed out, which the script does not tell apart.
- `Bridge.Bridge.BeginStart` and `Bridge.Bridge.BeginStop`: the lock sections only; launching, notifying and joining are steps of `BridgeProtocol`.
- Concurrent `Bridge::start` and `Bridge::stop` calls: one controller calls them, as `main` does.
- Releases begun by move assignment: in `CommandProtocol` they run as threads of their own, so they interleave more freely than in the source.
- Spurious wake-ups and new calls in the progress results: safety covers them, the step bounds count the steps between them.
- JSON parsing, environment overrides, logging and message texts: a validation fault is its section, entry and field.
- `ForwardingCommandHandler`, `PointMap`, `buildClassMask`, `GetStatus`, the simulators: one-branch translations or user interface.
