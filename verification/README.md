# Anland: a verified model

Anland connects a KWin compositor (the producer) to a display owner (the consumer) through a small
daemon that only hands descriptors over. The consumer deposits five descriptors, the daemon passes
them to the producer, the consumer then pushes its buffers over the data channel, and both sides run
a lockstep frame loop until either of them falls back and the next generation of descriptors is
deposited. This project models the three programs, composes them, and proves what holds across
process, thread and session boundaries; beside it stand the data structures of the KWin backend.

`dafny verify dfyconfig.toml` checks everything.

## How it is built

Each component appears in up to three forms. A module of *functions on values* says what every
operation does to the component's state; lemmas about these functions carry the results about runs.
A *class* with the original's fields, arrays and loops runs step by step, and each of its methods is
proved to take the state exactly where the function says. A module of *effects* says from outside,
without repeating those functions, what each operation is for: what is held, sent, closed or reported
afterwards, and over runs what became of each frame, fence, window, pixel or byte. Where a call can
turn out differently (a send, `mmap`, `poll`, an allocation, a user's buffer set) the outcome is a
parameter, so every lemma is for all outcomes.

| modules | models |
|---|---|
| `Protocol` | message numbers, descriptor slots, tokens for sockets and descriptors |
| `Daemon`, `DaemonEffects`, `Broker` | `libdisplay_daemon/display_daemon.c`: roles, deposit, epoll batch over an allocator that may reuse addresses |
| `Consumer`, `ConsumerLife` | `libdisplay_consumer/display_consumer.c`, one call at a time |
| `Producer`, `ProducerEffects`, `DisplayProducer` | the Arch variant of `display_producer.c`: slots, buffer set, descriptor ledger |
| `Rendezvous` | one daemon, any number of consumers and producers, FIFO control sockets |
| `Handshake` | the undisturbed handshake in that system, from any reachable state and from the start |
| `WriteGate` | the consumer library under any number of threads: two locks, the write gate, the two-part sends of requests and buffer sets |
| `CallsAlone` | each call of that library taken step by step by one thread, and what the gate means |
| `OpeningSet`, `GateRuns` | what comes first on a data socket, and runs that show each promise of the library's callers to be needed |
| `Backend`, `FrameFate`, `KwinBackend` | the connection flags and frame accounting of `anland_backend.cpp` and `anland_output.cpp` (Arch) |
| `FrameTokens`, `FrameRound` | consumer and KWin together: select, drain, present, refresh |
| `WindowBridge`, `WindowEffects` | window ids, the two hashes, and the window events of `anland_backend.cpp` |
| `DamageMask`, `Damage`, `PixelHistory`, `EglLayer` | per-buffer damage with the mask of the v5 `anland_egl_backend.cpp`, and the Arch variant's scan |
| `Wire`, `Senders`, `DataChannel` | the data channel's codec, its messages byte by byte, and the partial-transfer loops |
| `ChannelRun`, `ChannelDrains` | one direction of the channel with sends, peeks and receives interleaved |
| `MicQueue`, `MicRing`, `AudioEffects` | the microphone ring of `anland_audio.c` and the queue it implements |
| `CameraStream`, `Camera`, `CameraEffects`, `CameraEngine` | `anland_camera.c`: slot copies, attached sockets, recording state |
| `CameraTold` | what the recorder was told over whole runs of the camera engine |

Descriptors and deposits carry the consumer connection and generation they were made for, and an
announcement carries what was delivered. No program reads these tags; they only let properties be
stated.

## What turned out not to hold as such

Each item is a lemma with its condition, and the inputs or runs that show the condition is needed.

- The loop's pointer guard is exact because a batch holds at most one listener event
  (`Daemon.BatchIsFaithful`, `Daemon.TwoAcceptsMisroute`, `Daemon.ThirdGetsFirstsEvent`).
- The daemon answers a pickup before it has sent any screen info (`Daemon.PickupBeforeScreen`,
  `Daemon.FdsComeFirst`); producers never see it, because they ask only after their greeting
  (`Rendezvous.ScreenFirstThenAsked`).
- The daemon leaks descriptors that come with any other message than a hello it answers for, and a
  sixth one that recv_fds lets in (`Daemon.LeaksNothingIff`, `Daemon.HelloLeaks`); the producer's
  library loses one beyond an odd number asked for (`Producer.NothingLostIff`, `Producer.SixthIsLost`).
- The write gate keeps input out of a two-part send only under both of its callers' promises: a
  service is requested once per session, and a gate reading is used in the session it was made in
  (`WriteGate.OnlyPushesBetween`, `GateRuns.OnceIsNeeded`, `GateRuns.CurrentIsNeeded`). A buffer set
  pushed while connected takes no lock and can land there all the same; nothing does if none is
  pushed while a request is answered (`WriteGate.NothingBetween`, `GateRuns.ApartIsNeeded`).
- The opening buffer set comes first on each generation's socket if teardowns find no call past its
  fallback test with `data_fd` still to be read, no writing call starts while the set is on its way, and one is stored
  (`OpeningSet.BufferSetFirst`). Without any one of these an input frame, a request or the end of an
  older set can come first (`GateRuns.DrainedIsNeededForInput`, `GateRuns.DrainedIsNeededForRequest`,
  `GateRuns.DrainedIsNeededForPush`, `GateRuns.CalmIsNeeded`, `GateRuns.StockedIsNeeded`).
- A resource event with more than nine descriptors wedges the data channel for good
  (`Wire.ArrivesIffFewFds`, `Wire.OversizeWedges`).
- The microphone ring's offsets leave the frame boundaries with the first write or read of a partial
  frame (`MicRing.OffsetsAlignedIff`, `MicRing.OneByteMisaligns`).
- The microphone's frame stride is computed in 32 bits and is zero for one announced channel count,
  by which `on_source_process` then divides (`MicRing.StrideIsZeroIff`).
- A second select keeps the frame tokens in balance only while the eventfd is undrained
  (`FrameTokens.EarlySelectIsMergedOrExtra`, `FrameTokens.EarlySelectIsExtra`).
- Presenting while a frame waits and no buffer was asked for leaves the output waiting without a
  frame (`Backend.WaitingHasFrame`, `Backend.SecondFrameIsLost`).
- After 2^32 - 1 window ids the hashes stay inverse only while the drawn id is free
  (`WindowBridge.TrackInverseIffIdFree`, `WindowBridge.WrapReusesLiveId`); a CREATE whose buffer cannot be allocated is lost without
  ending the session, and the consumer's view is short of exactly those windows
  (`WindowBridge.ReplayYieldsTracked`, `WindowBridge.RefusedCreateIsMissed`).
- Swapping the camera's control socket while recording sends no START to the new one, and a
  PipeWire reconnect sends no STOP (`Camera.DeliverTellsIff`, `Camera.ReconnectTellsIff`; over runs
  `CameraTold.AlwaysToldIff`, with the inputs `CameraTold.DeliveryLeavesUntold` and
  `CameraTold.TickLeavesUntold`). The backend clears first, which makes the former harmless
  (`Camera.ClearThenDeliverTells`, `CameraTold.ClearingKeepsTold`).
- A camera whose recorder offers its memory unasked can end up consumed, without memory and without
  ever asking for it (`CameraEffects.UnaskedOfferStrands`); with offers only in answer to a request
  every consumed camera has asked exactly once (`CameraEffects.MemoryAskedForOnce`).
- A frame size whose triple wraps 64 bits is copied short, never long
  (`CameraStream.FrameBytesTrueIffNoWrap`, `CameraStream.WrappedFrameIsShort`).

Where the code and its documentation differ the model follows the code: five descriptors are
deposited, not four; screen info is overwritten, never locked, and no REJECT is sent; the consumer's
teardown calls the services' release callbacks while holding `state_lock`
(`libdisplay_consumer/display_consumer.c:277`) although the comment at lines 37-38 rules that out.

## Model

| member | source | states |
|---|---|---|
| `Daemon.DispatchKeepsValid` | libdisplay_daemon/display_daemon.c:142-281 | every accepted connection and every client message keeps: a deposit exists only while its consumer is current, waiting for descriptors implies a producer, waiting for the screen implies a producer and no screen info yet, the two roles own distinct live blocks and sockets |
| `Daemon.BatchIsFaithful` | libdisplay_daemon/display_daemon.c:332-355 | within any epoll batch, whatever freed addresses the allocator hands out again, an event is dispatched if and only if the client it was registered for is still alive, and then to that client |
| `Daemon.TwoAcceptsMisroute` | libdisplay_daemon/display_daemon.c:219-281 | with two accepts in one batch the guard fails: the second newcomer can get the first evicted address, and the stale event reaches it; so one listener event per batch is needed |
| `Daemon.ThirdGetsFirstsEvent` | libdisplay_daemon/display_daemon.c:219-281 | the input from the start: three consumers, the third at the address of the first; an event of the first left over from the batch would go to the third |
| `Daemon.DepositLedger` | libdisplay_daemon/display_daemon.c:54-59 | over any run, with multiplicity: descriptors stored + closed + leaked = descriptors the kernel installed in the daemon on any message it read, sixth ones included; none is closed twice |
| `Daemon.LeaksNothingIff` | libdisplay_daemon/display_daemon.c:142-281 | over any run nothing leaks if and only if every message that is read and carries descriptors is a hello the daemon answers for, with at most five of them |
| `Daemon.HelloLeaks` | libdisplay_daemon/display_daemon.c:229-256 | two inputs that leak: a producer hello with a descriptor, and a consumer hello with six, of which the sixth is lost |
| `Daemon.SticksIff` | libdisplay_daemon/display_daemon.c:76-111 | from a state without a producer waiting beside a complete deposit, a step leads to one if and only if it tries to deliver a complete deposit and the send to the producer fails |
| `Daemon.WaitingMeansFailedSend` | libdisplay_daemon/display_daemon.c:76-111 | over any run, a producer waits beside a complete deposit only if some event attempted to deliver a complete deposit to it and that send failed |
| `Daemon.PickupBeforeScreen` | libdisplay_daemon/display_daemon.c:211-214 | a pickup served before the screen info is answered first exactly if a whole deposit is there and the send succeeds: the daemon alone does not put the screen info first |
| `Daemon.FdsComeFirst` | libdisplay_daemon/display_daemon.c:209-212 | the input from the start: a consumer that deposited but sent no screen info, a producer that says hello and asks at once: the first message it gets is the descriptors |
| `DaemonEffects.DeliverMeans` | libdisplay_daemon/display_daemon.c:76-111 | a whole deposit goes to the producer that is there, the news to the consumer, each once and to nobody else, and the stored copies are closed; without deposit, producer or a socket that takes it nothing is sent and the producer waits |
| `DaemonEffects.ConsumerComes` | libdisplay_daemon/display_daemon.c:242-256 | a new consumer takes the place of the old one, whose deposit is closed, with at most five descriptors of its hello, and a producer that waits is served from them |
| `DaemonEffects.ProducerComes` | libdisplay_daemon/display_daemon.c:258-271 | a new producer takes the place of the old one, waits for no descriptors, and gets the screen info at once if there is one; only otherwise it waits for it |
| `DaemonEffects.ScreenMeans` | libdisplay_daemon/display_daemon.c:191-206 | the screen info of the current consumer is kept and goes, exactly once, to the producer that waits for it |
| `DaemonEffects.ScreenIsLatest` | libdisplay_daemon/display_daemon.c:191-206 | over any run the screen info kept is the last one that a consumer sent while it was the current one, whoever came and went since |
| `Broker.Broker.TryDeliverFds` | libdisplay_daemon/display_daemon.c:76-111 | delivers the whole deposit once, tells the consumer, closes the stored copies and stops waiting; otherwise only waits |
| `Broker.Broker.DropClient` | libdisplay_daemon/display_daemon.c:123-140 | clears exactly the state of the role the client held, and frees it after its role is cleared |
| `Broker.Broker.HandleClientData` | libdisplay_daemon/display_daemon.c:142-217 | the effect of every message from either role, including malformed and short ones |
| `Broker.Broker.HandleNewConnection` | libdisplay_daemon/display_daemon.c:219-281 | the effect of an accept in every case, including eviction, a failed allocation and a foreign first message |
| `Broker.Broker.RunBatch` | libdisplay_daemon/display_daemon.c:332-355 | the in-place loop over a batch never calls a handler with a freed client (the handlers require a live one) and computes the batch state that the lemmas speak of |
| `Consumer.StoredSetOutlivesSession` | libdisplay_consumer/display_consumer.c:390-403 | handing over a buffer set while connected always ends the session, with one new generation deposited even if the push failed as well |
| `Consumer.DisplayConsumer.Fall` | libdisplay_consumer/display_consumer.c:267-304 | a teardown happens once per session, forgets the pending request and deposits the next generation |
| `Consumer.DisplayConsumer.TryExitFallback` | libdisplay_consumer/display_consumer.c:233-265 | only an announcement leaves fallback, and the stored set goes out first thing |
| `Consumer.DisplayConsumer.SelectBuffer` | libdisplay_consumer/display_consumer.c:405-421 | the index word and the eventfd change exactly for a valid index while connected |
| `Consumer.DisplayConsumer.RefreshDone` | libdisplay_consumer/display_consumer.c:430-475 | returns exactly the fence of the oldest message; silence and a lost peer end the session |
| `Consumer.DisplayConsumer.PushBufferSet` | libdisplay_consumer/display_consumer.c:390-403 | the stored set is the clamped new one and the consumer is in fallback afterwards |
| `ConsumerLife.FallEnds` | libdisplay_consumer/display_consumer.c:267-304 | a teardown of a live session: fallback, nothing pending, the next generation with fresh descriptors, its hello sent once if it can be, and what earlier descriptors hold left alone |
| `ConsumerLife.RefreshMeans` | libdisplay_consumer/display_consumer.c:430-475 | silence or end of file while a frame is awaited ends the session in that way; a message that can be read is taken off the channel and nothing is pending any more |
| `ConsumerLife.ExitMeans` | libdisplay_consumer/display_consumer.c:233-265 | an announcement found in fallback, and nothing else, starts a session whose data socket gets the stored set; if there is one that cannot be sent the session ends at once |
| `ConsumerLife.PushMeans` | libdisplay_consumer/display_consumer.c:390-403 | the set, cut to eight, is stored; handed over while connected it goes out at most once and the session ends |
| `ConsumerLife.EndsIff` | libdisplay_consumer/display_consumer.c:267-304 | a call ends a session if and only if it is a set handed over while connected, a timeout or end of file while a frame is awaited, an opening set that cannot be sent, or a failed send; each time exactly one generation follows |
| `Producer.DescriptorLedger` | producers/kde/anland_backend_Arch_v5/src/backends/anland/display_producer.c:48-185 | over any sequence of calls every descriptor installed or handed in is in one slot, closed once, passed on or came in unseen; in fallback only a stashed fence is held; a connected context has all five descriptors, the mapping and the whole set |
| `Producer.NothingLostIff` | common/socket_utils.c:38-70 | descriptors come in unseen, beyond those recv_fds reports, if and only if some message that is read carries more than the five of a pickup or more than an odd number asked for |
| `Producer.SixthIsLost` | common/socket_utils.c:38-70 | the input: of a pickup answered with six descriptors the sixth comes in unseen |
| `Producer.ExitInstallsByPosition` | producers/kde/anland_backend_Arch_v5/src/backends/anland/display_producer.c:88-124 | a successful exit needs a whole, well-formed reply of both kinds and puts each descriptor into the slot its position names |
| `Producer.TryExitSplits` | producers/kde/anland_backend_Arch_v5/src/backends/anland/display_producer.c:487-508 | leaving fallback is all or nothing: everything installed, or everything released again |
| `ProducerEffects.ExitMeans` | producers/kde/anland_backend_Arch_v5/src/backends/anland/display_producer.c:487-508 | a producer leaves fallback if and only if the pickup is answered in full and the set has as many descriptions as descriptors; it then has the five descriptors by slot and the set in order, otherwise it holds nothing |
| `ProducerEffects.StashMeans` | producers/kde/anland_backend_Arch_v5/src/backends/anland/display_producer.c:263-268 | the new fence is held, and exactly the one it replaces is closed |
| `ProducerEffects.RefreshMeans` | producers/kde/anland_backend_Arch_v5/src/backends/anland/display_producer.c:270-314 | the held fence goes out with the message if one goes out, our copy is closed in any case, and a message that cannot be sent ends in fallback |
| `ProducerEffects.LossMeans` | producers/kde/anland_backend_Arch_v5/src/backends/anland/display_producer.c:48-80 | when the peer is gone, of every descriptor exactly what was held is closed |
| `ProducerEffects.HeldIsLastStashed` | producers/kde/anland_backend_Arch_v5/src/backends/anland/display_producer.c:263-314 | over any run the fence held is the one handed in last, unless it was sent or dropped since |
| `ProducerEffects.MessageCarriesLast` | producers/kde/anland_backend_Arch_v5/src/backends/anland/display_producer.c:270-314 | so every render-done message that goes out carries the fence handed in last for its frame, or none |
| `DisplayProducer.DisplayProducer.ReleaseConsumerResources` | producers/kde/anland_backend_Arch_v5/src/backends/anland/display_producer.c:48-65 | the close loops close exactly what is held, each once, in order, and empty every slot |
| `DisplayProducer.DisplayProducer.RecvFds` | common/socket_utils.c:38-70 | returns at most the number asked for, however many the message carries, and installs one more if that number is odd |
| `DisplayProducer.DisplayProducer.PickupFds` | producers/kde/anland_backend_Arch_v5/src/backends/anland/display_producer.c:88-124 | installs the first five by position, or closes everything recv_fds returned with a bad reply |
| `DisplayProducer.DisplayProducer.ReceiveDmabufs` | producers/kde/anland_backend_Arch_v5/src/backends/anland/display_producer.c:131-185 | takes over exactly the announced set or closes every descriptor received |
| `DisplayProducer.DisplayProducer.TryExitFallback` | producers/kde/anland_backend_Arch_v5/src/backends/anland/display_producer.c:487-508 | keeps the ledger and the all-or-nothing shape, and reports success exactly when out of fallback |
| `DisplayProducer.DisplayProducer.StashRenderFence` | producers/kde/anland_backend_Arch_v5/src/backends/anland/display_producer.c:263-268 | a replaced fence is closed, the new one held |
| `DisplayProducer.DisplayProducer.SignalRefresh` | producers/kde/anland_backend_Arch_v5/src/backends/anland/display_producer.c:270-314 | the stashed fence is consumed in every case; a failed send ends in fallback with everything released |
| `DisplayProducer.DisplayProducer.PollExtendFds` | producers/kde/anland_backend_Arch_v5/src/backends/anland/display_producer.c:348-380 | received descriptors, at most as many as asked for, go to the caller, or are closed if the header is not the expected one |
| `DisplayProducer.DisplayProducer.SelectedIndex` | producers/kde/anland_backend_Arch_v5/src/backends/anland/display_producer.c:533-539 | always an index below the buffer count while connected, whatever the shared word holds |
| `Rendezvous.AnnouncementsMatchGenerations` | libdisplay_consumer/display_consumer.c:233-304 | in every reachable state of daemon, consumers and producers: at most one announcement is under way to a consumer and it is for the deposit made last; if all hellos went out, hellos sent = announcements consumed + (1 in fallback) |
| `Rendezvous.GenerationInOnePlace` | libdisplay_consumer/display_consumer.c:161-206 | in fallback the latest generation is in at most one of: an unread hello, the daemon, an unread announcement; while connected in none |
| `Rendezvous.DepositIsCurrent` | libdisplay_daemon/display_daemon.c:54-59 | whatever the daemon stores is the latest, complete generation of the consumer that is current |
| `Rendezvous.SlotsHoldOneGeneration` | producers/kde/anland_backend_Arch_v5/src/backends/anland/display_producer.c:88-124 | the five slots of a producer always come from one generation of one consumer, each in its own slot |
| `Rendezvous.InstallsOnlyAdvance` | producers/kde/anland_backend_Arch_v5/src/backends/anland/display_producer.c:487-508 | the generations of one consumer that a producer installs strictly ascend, also with stale pickups and queued deliveries |
| `Rendezvous.DeliveriesNeverShared` | libdisplay_daemon/display_daemon.c:76-111 | no descriptor is ever in two deliveries, read or still queued, to one producer or to two |
| `Rendezvous.InstallsNeverShared` | libdisplay_daemon/display_daemon.c:76-111 | no two producers ever install a common descriptor |
| `Rendezvous.ScreenFirstThenAsked` | libdisplay_daemon/display_daemon.c:242-281 | the first message a producer gets is its only screen info, and deliveries never exceed the pickups it sent |
| `Rendezvous.BufferSetsAgree` | libdisplay_consumer/display_consumer.c:208-231 | whenever both ends are out of fallback in one generation, count, descriptors and infos of the producer equal the stored set, and the producer reads the shared index exactly |
| `Rendezvous.SelectionReachesProducer` | producers/kde/anland_backend_Arch_v5/src/backends/anland/display_producer.c:533-539 | the index a consumer selects is the one the producer of that generation reads next |
| `Handshake.HandshakeConnects` | producers/kde/anland_backend_Arch_v5/src/backends/anland/display_producer.c:487-508 | from every reachable state of the whole system in which a deposit waits for an idle producer, an attempt that nothing disturbs connects both ends: five descriptors by slot, all buffers in order, and the selected buffer read |
| `Handshake.FirstAttemptComes` | libdisplay_daemon/display_daemon.c:219-281 | the run from the start that leads to such a state: a consumer with a set and screen info, then a producer |
| `Handshake.FailedAttemptHoldsNothing` | producers/kde/anland_backend_Arch_v5/src/backends/anland/display_producer.c:487-508 | in every reachable state of the system a producer that is neither waiting for the set nor connected holds no descriptor, no mapping and no buffers, wherever its last attempt broke off |
| `WriteGate.OneTeardownPerSession` | libdisplay_consumer/display_consumer.c:267-304 | for any interleaving of any number of threads every session is torn down exactly once, and every teardown attempts exactly one hello: hellos sent + hellos that failed = teardowns + 1 |
| `WriteGate.LockedWriterUsesOpenSocket` | libdisplay_consumer/display_consumer.c:487-502 | a writer holding data_lock sends on the socket that is open at that moment, never on a closed or replaced one |
| `WriteGate.NoDeadlock` | libdisplay_consumer/display_consumer.c:267-304 | while a thread is inside the library some thread inside it can take a step: the lock order admits no cyclic wait |
| `WriteGate.ExtendHasItsResource` | libdisplay_consumer/display_consumer.c:634-659 | with requests once per session and gate readings used in their session, every EXTEND_FDS frame follows its RESOURCE frame on the same socket with nothing but pushed buffer sets between |
| `WriteGate.OnlyPushesBetween` | libdisplay_consumer/display_consumer.c:634-659 | under the same two promises what follows a RESOURCE frame, until its EXTEND_FDS frame, is only buffer sets pushed into the session: no input frame, no other request, also after the gate has dropped |
| `WriteGate.NothingBetween` | libdisplay_consumer/display_consumer.c:634-659 | if moreover no buffer set is pushed while a request is answered, the EXTEND_FDS frame comes right after its RESOURCE frame on every socket whose two-part sends succeed |
| `CallsAlone.GateMeansUnanswered` | libdisplay_consumer/display_consumer.c:106-128 | in every reachable state the gate is up if and only if some service has not been answered since it was raised; with 32 services or more it never comes down |
| `CallsAlone.FallAlone` | libdisplay_consumer/display_consumer.c:267-304 | a teardown taken by itself, step by step: the first to come closes the session, replaces the socket, raises the gate and attempts one hello; whoever comes later finds it done |
| `CallsAlone.InputAlone` | libdisplay_consumer/display_consumer.c:487-502 | an input event taken by itself writes one frame on the open socket under data_lock while the gate is up, and a failed send leads to the teardown |
| `CallsAlone.RequestAlone` | libdisplay_consumer/display_consumer.c:634-659 | the answer to a request taken by itself is the RESOURCE frame with the EXTEND_FDS frame right behind it |
| `CallsAlone.ExitAlone` | libdisplay_consumer/display_consumer.c:233-265 | a session begun by itself raises the gate, forgets earlier requests and writes the stored set whole |
| `GateRuns.OnceIsNeeded` | libdisplay_consumer/display_consumer.c:91-128 | a run from the start, all other promises kept and no send failing, in which a second request in one session gets an input frame between its two frames |
| `GateRuns.CurrentIsNeeded` | libdisplay_consumer/display_consumer.c:119-127 | the same with a gate reading carried into the next session |
| `GateRuns.ApartIsNeeded` | libdisplay_consumer/display_consumer.c:208-228 | the same with a buffer set pushed while connected: its header lands between the two frames |
| `OpeningSet.BufferSetFirst` | libdisplay_consumer/display_consumer.c:208-265 | a data socket is empty, or starts with the buffer set that opens its session (or that set is half out), if sessions begin with a set stored, no writing call starts while it is on its way, and teardowns replace the socket only when no call is past its fallback test with data_fd still to be read |
| `GateRuns.DrainedIsNeededForInput` | libdisplay_consumer/display_consumer.c:487-502 | a run from the start, all other promises kept, in which a writer that passed the fallback test before the teardown puts its input frame first on the next socket |
| `GateRuns.DrainedIsNeededForRequest` | libdisplay_consumer/display_consumer.c:634-659 | the same with the event thread waiting for data_lock across the teardown: a RESOURCE frame comes first |
| `GateRuns.DrainedIsNeededForPush` | libdisplay_consumer/display_consumer.c:208-228 | the same with a half pushed set: its infos come first on the next socket |
| `GateRuns.CalmIsNeeded` | libdisplay_consumer/display_consumer.c:233-265 | a run in which a writer gets in between the flip out of fallback and the opening set |
| `GateRuns.StockedIsNeeded` | libdisplay_consumer/display_consumer.c:233-265 | a run in which a session opens with no set stored, and input comes first |
| `Backend.AlwaysInSync` | producers/kde/anland_backend_Arch_v5/src/backends/anland/anland_backend.cpp:511-612 | at every event-loop boundary after initialisation: context fallback = m_inFallback = timer running = loop inhibited exactly once = notifiers absent = audio detached = no buffers imported, and a frame in flight is one the consumer will complete |
| `Backend.ImportSyncs` | producers/kde/anland_backend_Arch_v5/src/backends/anland/anland_backend.cpp:280-304 | an import, also one whose resize reports moved windows and falls back inside, ends with the set imported and nothing else changed, or in fallback with all flags agreeing |
| `Backend.ReconnectSyncs` | producers/kde/anland_backend_Arch_v5/src/backends/anland/anland_backend.cpp:553-612 | a reconnect ends connected exactly if the exit, the import, the request, the clipboard and every re-sent message worked; wherever it breaks off, including re-entrantly, all flags agree |
| `Backend.PushesSync` | producers/kde/anland_backend_Arch_v5/src/backends/anland/display_producer.c:396-436 | after a run of guarded sends the backend is in fallback exactly if it was before or one of them failed |
| `Backend.WaitingHasFrame` | producers/kde/anland_backend_Arch_v5/src/backends/anland/anland_output.cpp:48-66 | waiting for the consumer goes with a frame in flight, unless a second frame is presented while the first waits and no buffer was asked for (exact condition) |
| `Backend.SecondFrameIsLost` | producers/kde/anland_backend_Arch_v5/src/backends/anland/anland_output.cpp:48-66 | the input from the start: connect, one request, two frames; the output then waits for the consumer and holds no frame |
| `Backend.PresentedAtMostOnce` | producers/kde/anland_backend_Arch_v5/src/backends/anland/anland_output.cpp:107-124 | frames are numbered as they are presented: the numbers reported presented strictly ascend over every run, and the frame held is later than all of them |
| `FrameFate.EveryFrameAccounted` | producers/kde/anland_backend_Arch_v5/src/backends/anland/anland_output.cpp:48-170 | over any run every frame presented to the output is in exactly one of three places: reported presented, still waiting for the consumer, or dropped while it waited, at an event that is another frame, a resize or the end of the session |
| `FrameFate.SelectedPresents` | producers/kde/anland_backend_Arch_v5/src/backends/anland/anland_output.cpp:107-124 | a selection reports the waiting frame presented, records the request and leaves no frame held; in fallback nothing happens |
| `FrameFate.PresentMeans` | producers/kde/anland_backend_Arch_v5/src/backends/anland/anland_output.cpp:48-66 | a frame waits for the consumer if and only if one was asked for and the message gets out; otherwise it is reported at once, and a failed message ends the session |
| `FrameFate.AttachMeans` | producers/kde/anland_backend_Arch_v5/src/backends/anland/anland_backend.cpp:280-304 | a layer attached while connected has the whole set, of one to eight buffers, or the session ends |
| `FrameFate.TickMeans` | producers/kde/anland_backend_Arch_v5/src/backends/anland/anland_backend.cpp:553-612 | the reconnect timer connects if and only if every step works, with the whole set imported and no frame or request; otherwise only fallback is left |
| `Backend.ReconnectStartsIdle` | producers/kde/anland_backend_Arch_v5/src/backends/anland/anland_backend.cpp:553-612 | a new session starts without a frame or a buffer request left over from the old one |
| `KwinBackend.AnlandBackend.Fall` | producers/kde/anland_backend_Arch_v5/src/backends/anland/anland_backend.cpp:511-551 | entering fallback while in it changes nothing, otherwise every flag moves together |
| `KwinBackend.AnlandBackend.CtxFall` | producers/kde/anland_backend_Arch_v5/src/backends/anland/display_producer.c:67-80 | the context flag is set before the callback re-enters the backend |
| `KwinBackend.AnlandBackend.ImportSet` | producers/kde/anland_backend_Arch_v5/src/backends/anland/anland_backend.cpp:280-304 | a failed import forces the context down and re-runs the fallback entry |
| `KwinBackend.AnlandBackend.OnReconnectTimer` | producers/kde/anland_backend_Arch_v5/src/backends/anland/anland_backend.cpp:553-612 | the handler step by step keeps all flags in agreement |
| `KwinBackend.AnlandBackend.OnBufferReady` | producers/kde/anland_backend_Arch_v5/src/backends/anland/anland_backend.cpp:481-504 | completes the waiting frame and records the request |
| `KwinBackend.AnlandBackend.PresentFrame` | producers/kde/anland_backend_Arch_v5/src/backends/anland/anland_output.cpp:48-66 | hands over exactly when the consumer asked; a failed send falls back inside presenting and the flags still agree |
| `FrameTokens.FrameTokensConserved` | producers/kde/anland_backend_Arch_v5/src/backends/anland/anland_backend.cpp:263-273 | while both ends are connected in one generation: [eventfd nonzero] + [m_consumerReady] + fence messages queued = [buffer_pending], and requests = messages sent + the one on its way |
| `FrameTokens.OneDoneAtATime` | producers/kde/anland_backend_Arch_v5/src/backends/anland/display_producer.c:270-314 | the fence channel of the current generation never holds more than one message, even after the producer left, and messages read <= sent <= requests <= read + 1 |
| `FrameTokens.EarlySelectIsMergedOrExtra` | libdisplay_consumer/display_consumer.c:405-421 | selecting again before the refresh keeps the balance if and only if the eventfd has not been drained yet |
| `FrameTokens.EarlySelectIsExtra` | libdisplay_consumer/display_consumer.c:405-421 | the input from the start: both connect, one select, KWin drains it; a second select then makes one pending request two tokens |
| `FrameRound.OneRound` | libdisplay_consumer/display_consumer.c:405-475 | from any state of any run with both ends connected and nothing pending: select, drain, present and refresh can each be taken, the counters advance by one each, the frame that waited is reported and the new one waits, and nothing is pending again |
| `FrameRound.PresentMeans` | producers/kde/anland_backend_Arch_v5/src/backends/anland/display_producer.c:270-314 | the fence message goes out if and only if KWin is connected, holds a request and the send works |
| `WindowBridge.ReplayYieldsTracked` | producers/kde/anland_backend_Arch_v5/src/backends/anland/anland_backend.cpp:893-1006 | with fewer than 2^32 ids issued the two hashes are mutually inverse with nonzero ids; while connected the replayed CREATE/DESTROY events give the id table less the windows whose CREATE was refused for want of memory and not made good, hence the id table exactly if there is none |
| `WindowBridge.RefusedCreateIsMissed` | producers/kde/anland_backend_Arch_v5/src/backends/anland/anland_backend.cpp:940-979 | the input: one refused CREATE leaves a tracked window the consumer does not know, and removing the window makes good again |
| `WindowBridge.CommandFindsWindow` | producers/kde/anland_backend_Arch_v5/src/backends/anland/anland_backend.cpp:1008-1030 | an id the consumer knows resolves to the window it was announced for |
| `WindowBridge.TrackInverseIffIdFree` | producers/kde/anland_backend_Arch_v5/src/backends/anland/anland_backend.cpp:893-903 | after the id counter wrapped, tracking keeps the hashes inverse if and only if the drawn id is free |
| `WindowBridge.WrapReusesLiveId` | producers/kde/anland_backend_Arch_v5/src/backends/anland/anland_backend.cpp:893-903 | the input from the start: a window stays while another comes and goes 2^32 - 2 times; the next window gets the id of the first and the hashes are not inverse |
| `WindowBridge.SerialsAscend` | producers/kde/anland_backend_Arch_v5/src/backends/anland/anland_backend.cpp:940-979 | until the 32-bit serial wraps, the serials in a session strictly ascend |
| `WindowEffects.SetUpTracks` | producers/kde/anland_backend_Arch_v5/src/backends/anland/anland_backend.cpp:874-891 | when the switch is on, the tracked windows afterwards are exactly those before and every client window that exists, under the ids they had; connected or not and whatever becomes of the messages |
| `WindowEffects.SetUpTells` | producers/kde/anland_backend_Arch_v5/src/backends/anland/anland_backend.cpp:874-891 | with the snapshot getting through, the replay then knows each of them under its id |
| `WindowEffects.TrackMeans` | producers/kde/anland_backend_Arch_v5/src/backends/anland/anland_backend.cpp:893-918 | a client window not yet tracked gets the next id that is not zero and a CREATE while connected, and every other window keeps its own |
| `WindowEffects.UntrackMeans` | producers/kde/anland_backend_Arch_v5/src/backends/anland/anland_backend.cpp:920-938 | the window is gone from both hashes, the others stay, and the DESTROY is the last event |
| `WindowEffects.ResendMeans` | producers/kde/anland_backend_Arch_v5/src/backends/anland/anland_backend.cpp:998-1006 | a snapshot that gets through appends exactly one CREATE per tracked window in visiting order, then the focus, and the replay is the id table whatever was refused before |
| `WindowEffects.ReconnectMeans` | producers/kde/anland_backend_Arch_v5/src/backends/anland/anland_backend.cpp:553-612 | the snapshot on reconnect gives a new consumer the whole picture |
| `WindowBridge.Bridge.TrackWindow` | producers/kde/anland_backend_Arch_v5/src/backends/anland/anland_backend.cpp:893-918 | ineligible or known windows change nothing; others enter both hashes and are announced while connected |
| `WindowBridge.Bridge.UntrackWindow` | producers/kde/anland_backend_Arch_v5/src/backends/anland/anland_backend.cpp:920-938 | the DESTROY goes out before the id leaves both hashes, also if its send fails |
| `WindowBridge.Bridge.SendWindowEvent` | producers/kde/anland_backend_Arch_v5/src/backends/anland/anland_backend.cpp:940-979 | an event for an untracked window, or in fallback, is not sent; a refused allocation still uses up a serial |
| `WindowBridge.Bridge.ResendWindowSnapshot` | producers/kde/anland_backend_Arch_v5/src/backends/anland/anland_backend.cpp:998-1006 | announces every tracked window until a send fails, then the focus |
| `WindowBridge.Bridge.SetUp` | producers/kde/anland_backend_Arch_v5/src/backends/anland/anland_backend.cpp:874-891 | existing windows are tracked, then announced by the snapshot |
| `Damage.IncrementalEqualsFull` | producers/kde/anland_backend_v5/src/backends/anland/anland_egl_backend.cpp:87-223 | after any sequence of imports, releases, rotations, scene changes and frames, the buffer just ended equals the whole current scene although only repaint and damage were painted |
| `Damage.FrameShowsScene` | producers/kde/anland_backend_v5/src/backends/anland/anland_egl_backend.cpp:189-223 | one frame keeps every buffer correct outside its accumulated damage and completes the selected one |
| `Damage.MaskRefinesScan` | producers/kde/anland_backend_v5/src/backends/anland/anland_egl_backend.cpp:201-223 | for every history and up to and including eight buffers, flags != 0 exactly if the region scan finds damage |
| `Damage.RunKeeps` | producers/kde/anland_backend_v5/src/backends/anland/anland_egl_backend.cpp:169-187 | bit i of the flags is set if and only if i is below the count and accumulated damage i is nonempty; the mask has exactly the count's bits |
| `Damage.IdleClearsVisited` | producers/kde/anland_backend_v5/src/backends/anland/anland_egl_backend.cpp:201-213 | with an idle scene a buffer stays marked exactly if it was marked and not drawn since |
| `Damage.IdleRepaintsStop` | producers/kde/anland_backend_v5/src/backends/anland/anland_egl_backend.cpp:201-213 | self-scheduled repaints of an idle scene stop exactly when every damaged buffer was drawn |
| `Damage.IdleLowersCount` | producers/kde/anland_backend_v5/src/backends/anland/anland_egl_backend.cpp:201-213 | each idle frame lowers the number of marked buffers by one if it draws a marked one and leaves it otherwise |
| `PixelHistory.PixelsTold` | producers/kde/anland_backend_v5/src/backends/anland/anland_egl_backend.cpp:87-223 | after any run, pixel by pixel: what a buffer owes is exactly what changed, was rotated or imported since it was last drawn, and what it shows is what the scene was at the last frame that drew the pixel |
| `PixelHistory.FramePaints` | producers/kde/anland_backend_v5/src/backends/anland/anland_egl_backend.cpp:189-223 | a frame paints exactly what is owed or damaged in the selected buffer; every other pixel of every buffer keeps what it holds |
| `DamageMask.FullHas` | producers/kde/anland_backend_v5/src/backends/anland/anland_egl_backend.cpp:169-170 | the truncated shift has exactly the first n bits, also for n = 8 |
| `DamageMask.ClearHas` | producers/kde/anland_backend_v5/src/backends/anland/anland_egl_backend.cpp:212 | clearing one bit leaves every other |
| `EglLayer.AnlandEglLayer.ImportBuffers` | producers/kde/anland_backend_v5/src/backends/anland/anland_egl_backend.cpp:87-173 | all of the set with a full repaint owed to each buffer, or nothing at all if any buffer fails |
| `EglLayer.AnlandEglLayer.OnOutputTransformChanged` | producers/kde/anland_backend_v5/src/backends/anland/anland_egl_backend.cpp:175-187 | every buffer owes a full repaint and is marked |
| `EglLayer.AnlandEglLayer.DoEndFrame` | producers/kde/anland_backend_v5/src/backends/anland/anland_egl_backend.cpp:201-223 | damage is added to every buffer and cleared for the drawn one; the result says whether a repaint is needed |
| `EglLayer.AnlandEglLayer.ComposeFrame` | producers/kde/anland_backend_v5/src/backends/anland/anland_egl_backend.cpp:189-223 | begin, draw and end leave the selected buffer showing the scene |
| `EglLayer.AnlandEglLayer.ScanForDamage` | producers/kde/anland_backend_Arch_v5/src/backends/anland/anland_egl_backend.cpp:199-204 | the early-break scan finds damage exactly if there is some, and agrees with the mask |
| `Wire.RoundTrip` | producers/kde/anland_backend_Arch_v5/src/backends/anland/display_producer.c:316-455 | for every sequence of fixed, clipboard, text, window and resource messages (0 to 9 descriptors) that is all there, every chunking of the receives and whatever follows, the receiver recovers the messages and stops at a frame boundary |
| `Wire.DrainKeepsStream` | producers/kde/anland_backend_Arch_v5/src/backends/anland/display_producer.c:316-455 | however much has arrived, whatever arrives while receives block, and however peeks and receives are chunked: a drain in which no read failed received the first messages sent, and what it left with what is still to come encodes the others |
| `ChannelRun.NothingLost` | producers/kde/anland_backend_Arch_v5/src/backends/anland/display_producer.c:316-455 | at every point of every interleaving of partial sends, peeks of any size and blocking partial receives: received ++ decode(message being read ++ in flight ++ unsent) = sent |
| `ChannelRun.NeverStuck` | producers/kde/anland_backend_Arch_v5/src/backends/anland/display_producer.c:316-455 | once everything is sent, all of it is received or the receiver can go on: no interleaving gets stuck inside a message |
| `ChannelDrains.EverythingArrives` | producers/kde/anland_backend_Arch_v5/src/backends/anland/display_producer.c:316-455 | however a run of partial sends, peeks and receives went so far, once everything is sent it can be continued until every message is received in order and the channel is empty |
| `ChannelDrains.StepTakes` | common/socket_utils.c:91-121 | a send, a receive, a peek at a header and the wait for descriptors each move exactly the cells they are for |
| `Wire.ArrivesIffFewFds` | producers/kde/anland_backend_Arch_v5/src/backends/anland/anland_backend.cpp:445-472 | a stream arrives whole if and only if no resource event carries more than nine descriptors |
| `Wire.OversizeWedges` | producers/kde/anland_backend_Arch_v5/src/backends/anland/anland_backend.cpp:445-472 | after an event with more than nine descriptors the descriptor frame stays at the head of the channel and nothing is received any more |
| `Wire.EventSurvives` | libdisplay_consumer/display_consumer.c:477-485 | the five little-endian words survive encoding and parsing |
| `Senders.WindowCarried` | common/protocol.h:180-186 | for all arguments the bytes of a window event with its payload, laid out as the header says, are the message the codec encodes, and are read back whole: the payload size is the third word, and what follows is left alone |
| `Senders.SizedCarried` | common/protocol.h:134-139 | the same for clipboards of either direction and text: the size is the first word |
| `Senders.ResourceCarried` | common/protocol.h:144-147 | the same for resources: the number of descriptors is the second word, and as many are taken from the frame behind |
| `Senders.OthersCarried` | common/protocol.h:103-158 | every other event stands alone, whatever its words hold |
| `DataChannel.Channel.SendAll` | common/socket_utils.c:91-105 | however the kernel chunks and interrupts, exactly a prefix goes out and success means all of it |
| `DataChannel.Channel.RecvAll` | common/socket_utils.c:107-121 | blocks for what has not arrived; exactly a prefix is consumed and returned in order, and success means all of it |
| `DataChannel.Channel.PushEvent` | libdisplay_consumer/display_consumer.c:487-532 | success puts exactly the encoded message on the wire, failure a proper prefix, and nothing at all if the message of a variant with a payload cannot be allocated |
| `DataChannel.Channel.PushEventWithFds` | libdisplay_consumer/display_consumer.c:634-659 | success puts event and descriptor frame on the wire, as one message of the codec |
| `DataChannel.Channel.PollEvent` | producers/kde/anland_backend_Arch_v5/src/backends/anland/display_producer.c:316-346 | consumes a frame exactly if its header is visible and of the expected type |
| `DataChannel.Channel.PollExtendFds` | producers/kde/anland_backend_Arch_v5/src/backends/anland/display_producer.c:348-380 | consumes one header and takes no more descriptors than asked for |
| `DataChannel.Channel.ProcessEvent` | producers/kde/anland_backend_Arch_v5/src/backends/anland/anland_backend.cpp:425-472 | reads the announced trailer or descriptors, and nothing else |
| `DataChannel.Channel.OnReadable` | producers/kde/anland_backend_Arch_v5/src/backends/anland/anland_backend.cpp:341-350 | the receive loop computes the drain function of the codec |
| `MicQueue.QueueIsEndOfStream` | producers/kde/anland_backend_Arch_v5/src/backends/anland/anland_audio.c:75-111 | after any run of writes and reads the queue is the end of the written stream and each read returned the block just before it |
| `MicQueue.WritesMerge` | producers/kde/anland_backend_Arch_v5/src/backends/anland/anland_audio.c:80-98 | however bytes are cut into writes, the same newest bytes remain |
| `MicQueue.ReadsMerge` | producers/kde/anland_backend_Arch_v5/src/backends/anland/anland_audio.c:100-111 | two reads give what one longer read gives |
| `MicQueue.ReadsFrameAligned` | producers/kde/anland_backend_Arch_v5/src/backends/anland/anland_audio.c:153-175 | with whole frames written and read and a size of whole frames, every read starts on a frame boundary of the written stream |
| `AudioEffects.QueueIsFilled` | producers/kde/anland_backend_Arch_v5/src/backends/anland/anland_audio.c:80-111 | over any run the queue is exactly as full as its writes and reads leave it: no byte is dropped while there is room |
| `AudioEffects.ReadReturns` | producers/kde/anland_backend_Arch_v5/src/backends/anland/anland_audio.c:100-111 | after any run a read returns as many bytes as are there and asked for, the oldest of the stream that are left, and the queue continues behind them |
| `MicRing.OffsetsAlignedIff` | producers/kde/anland_backend_Arch_v5/src/backends/anland/anland_audio.c:75-111 | over any run of writes, reads and resets, head, tail and fill are on frame boundaries all the time if and only if every write stores and every read takes whole frames |
| `MicRing.OneByteMisaligns` | producers/kde/anland_backend_Arch_v5/src/backends/anland/anland_audio.c:80-98 | the input: one byte written to an empty ring |
| `MicRing.StrideIsZeroIff` | producers/kde/anland_backend_Arch_v5/src/backends/anland/anland_audio.c:161-162 | the 32-bit stride is zero for exactly one announced channel count, 2^31, and true exactly below it |
| `MicRing.BurstKeepsNewest` | producers/kde/anland_backend_Arch_v5/src/backends/anland/anland_audio.c:245-289 | a burst of datagrams leaves the newest bytes of the old contents and all payloads together |
| `AudioEffects.PayloadMeans` | producers/kde/anland_backend_Arch_v5/src/backends/anland/anland_audio.c:276-287 | a datagram built as type, size and payload contributes its payload cut to the size if it is PCM, and nothing otherwise |
| `AudioEffects.HearGivesUpIff` | producers/kde/anland_backend_Arch_v5/src/backends/anland/anland_audio.c:245-289 | the socket is detached and the queue emptied if and only if it breaks or closes before it runs dry |
| `MicRing.MicRing.RingWrite` | producers/kde/anland_backend_Arch_v5/src/backends/anland/anland_audio.c:80-98 | in place and across the wrap: contents become the last ring_size bytes of old ++ new, head = (tail + fill) mod size, and all three offsets move as in the run lemma |
| `MicRing.MicRing.RingRead` | producers/kde/anland_backend_Arch_v5/src/backends/anland/anland_audio.c:100-111 | returns and removes the exact prefix, across the wrap, and moves the offsets as in the run lemma |
| `MicRing.MicRing.FillSource` | producers/kde/anland_backend_Arch_v5/src/backends/anland/anland_audio.c:153-175 | as many whole frames of the 32-bit stride as fit or are requested: the exact prefix, then silence |
| `MicRing.MicRing.OnAudioReadable` | producers/kde/anland_backend_Arch_v5/src/backends/anland/anland_audio.c:245-289 | every PCM payload, cut to what is there, goes into the queue; a broken socket detaches and empties it |
| `CameraStream.CopyStaysInSlot` | producers/kde/anland_backend_Arch_v5/src/backends/anland/anland_camera.c:297-323 | for any width and height, even where the product wraps, a copy reads only the named slot inside the mapping, writes only inside the buffer, and the frame then is that slot |
| `CameraStream.FrameBytesTrueIffNoWrap` | producers/kde/anland_backend_Arch_v5/src/backends/anland/anland_camera.c:304-306 | the computed size is the picture's true size if and only if tripling the area does not wrap 64 bits, and never exceeds it |
| `CameraStream.WrappedFrameIsShort` | producers/kde/anland_backend_Arch_v5/src/backends/anland/anland_camera.c:304-306 | the input: the largest width and height |
| `CameraStream.DoneForEveryReady` | producers/kde/anland_backend_Arch_v5/src/backends/anland/anland_camera.c:297-326 | for any messages the DONEs sent are exactly the slots of the READYs, in order |
| `CameraStream.EmitFrame` | producers/kde/anland_backend_Arch_v5/src/backends/anland/anland_camera.c:204-235 | an application gets the latest frame or gray, cut to its buffer |
| `CameraEffects.ReadyTakes` | producers/kde/anland_backend_Arch_v5/src/backends/anland/anland_camera.c:297-323 | a READY puts its slot in front of the buffer, which grows if it has to, and leaves the bytes behind; without mapping, slot or room the frame stays as it was |
| `CameraEffects.OfferMeans` | producers/kde/anland_backend_Arch_v5/src/backends/anland/anland_camera.c:273-296 | an offered descriptor is mapped as two slots, or the old mapping is gone |
| `Camera.CameraAlwaysExact` | producers/kde/anland_backend_Arch_v5/src/backends/anland/anland_camera.c:175-196 | after every public call and callback: recording = streaming and stream attached and control attached; every descriptor received is held once or closed once |
| `Camera.SetResourcesMisses` | producers/kde/anland_backend_Arch_v5/src/backends/anland/anland_camera.c:673-741 | a delivery loses exactly the stream sockets beyond the eighth camera, and none if the engine cannot start |
| `Camera.StopClosesAll` | producers/kde/anland_backend_Arch_v5/src/backends/anland/anland_camera.c:821-858 | stopping closes every descriptor held |
| `CameraEffects.AttachMeans` | producers/kde/anland_backend_Arch_v5/src/backends/anland/anland_camera.c:370-386 | after a socket swap nothing of the old socket is left, and GET_SHM has been sent exactly once if an application consumes the camera, else not at all |
| `CameraEffects.StateChangeMeans` | producers/kde/anland_backend_Arch_v5/src/backends/anland/anland_camera.c:175-196 | starting and stopping: START with camera and 16-bit format or STOP, once, if the recorder can act on it, and GET_SHM unless the memory is there or was asked for |
| `CameraEffects.DeliverMeans` | producers/kde/anland_backend_Arch_v5/src/backends/anland/anland_camera.c:673-741 | a delivery serves the first eight cameras by position, each with its node, format and socket, and takes down every camera it does not name |
| `CameraEffects.MemoryAskedForOnce` | producers/kde/anland_backend_Arch_v5/src/backends/anland/anland_camera.c:163-196 | over any run the memory is asked for at most once on a socket, and with a recorder that offers it only when asked every consumed camera with a socket has asked exactly once |
| `CameraEffects.UnaskedOfferStrands` | producers/kde/anland_backend_Arch_v5/src/backends/anland/anland_camera.c:273-296 | the input from the start: an offer unasked and a later one that cannot be mapped leave a consumed camera without memory that never asks |
| `Camera.DeliverTellsIff` | producers/kde/anland_backend_Arch_v5/src/backends/anland/anland_camera.c:175-196 | after a delivery the recorder on the new socket has been told what is recorded if and only if no delivered camera was recording before |
| `Camera.ClearThenDeliverTells` | producers/kde/anland_backend_Arch_v5/src/backends/anland/anland_camera.c:743-763 | with a clear in between, as the backend does it, everything is told |
| `Camera.ReconnectTellsIff` | producers/kde/anland_backend_Arch_v5/src/backends/anland/anland_camera.c:547-562 | after PipeWire comes back the last word on the control socket is true if and only if nothing was recording |
| `CameraTold.AlwaysToldIff` | producers/kde/anland_backend_Arch_v5/src/backends/anland/anland_camera.c:175-196 | over any run of calls and callbacks the recorder's last word about every camera is true at all times if and only if no delivery meets a delivered camera that records and no PipeWire reconnect meets a recording camera |
| `CameraTold.ClearingKeepsTold` | producers/kde/anland_backend_Arch_v5/src/backends/anland/anland_backend.cpp:511-551 | used as the backend does it, every delivery after a clear, the last word is true at all times as long as no PipeWire reconnect meets a recording camera |
| `CameraTold.TickLeavesUntold` | producers/kde/anland_backend_Arch_v5/src/backends/anland/anland_camera.c:604-629 | the input from the start: one camera records, PipeWire goes and comes back; the recorder was told START last and nothing records |
| `CameraTold.DeliveryLeavesUntold` | producers/kde/anland_backend_Arch_v5/src/backends/anland/anland_camera.c:673-741 | the input from the start: one camera records and a second delivery comes without a clear; the new recorder is told nothing |
| `CameraEngine.CameraEngine.UpdateRecording` | producers/kde/anland_backend_Arch_v5/src/backends/anland/anland_camera.c:175-196 | a START or STOP goes out exactly when the wish changed and there is a socket |
| `CameraEngine.CameraEngine.AttachFd` | producers/kde/anland_backend_Arch_v5/src/backends/anland/anland_camera.c:370-386 | the old socket, mapping and frame go, the new socket is watched, recording is settled |
| `CameraEngine.CameraEngine.SetResourceFds` | producers/kde/anland_backend_Arch_v5/src/backends/anland/anland_camera.c:673-741 | excess cameras popped, new ones created, every delivered socket attached by position |
| `CameraEngine.CameraEngine.ClearResources` | producers/kde/anland_backend_Arch_v5/src/backends/anland/anland_camera.c:743-763 | every camera detached, the nodes kept |
| `CameraEngine.CameraEngine.HandleStreamMsg` | producers/kde/anland_backend_Arch_v5/src/backends/anland/anland_camera.c:270-335 | an offered descriptor is installed or closed, any other is closed |
| `CameraEngine.CameraEngine.OnReconnectTimer` | producers/kde/anland_backend_Arch_v5/src/backends/anland/anland_camera.c:604-629 | nodes rebuilt in place from the stream sockets that are still there |
| `CameraEngine.CameraEngine.StopEngine` | producers/kde/anland_backend_Arch_v5/src/backends/anland/anland_camera.c:821-858 | everything closed, the engine as never started |

## Left out

- Sockets, epoll, `mmap`, eventfd and SCM_RIGHTS themselves: FIFO queues, counters and tokens whose operations may fail.
- Timeouts: a wait may end at any moment without its event; no bound on time is claimed.
- Partial sends on the control sockets: a control message arrives whole or its send fails.
- Reuse of descriptor numbers: a lock-free writer that read `data_fd` before a teardown fails in the model, where the number could by then name another file.
- Consumer.DisplayConsumer.TryExitFallback: flipping out of fallback and pushing the buffer set is one step in Consumer and Rendezvous, so that no input writer runs in between; WriteGate and OpeningSet treat the two, and both sends of the push, as separate steps.
- Rendezvous.InstallsOnlyAdvance: generations ascend per consumer connection; two different consumers' generations are not comparable, and for them only distinctness is stated.
- Wire.RoundTrip: trailers are shorter than 2^31 bytes, as KWin's cast to `int` needs. In ChannelRun a wait for a trailer or for descriptors does not time out, and the eight bytes of an EXTEND_FDS header, one sendmsg, are received by one recvmsg; Wire.DrainKeepsStream speaks of the drains in which no such wait fails.
- WriteGate.NoDeadlock: the services' release callbacks, which run under `state_lock`, are assumed not to call into the library; one that did and fell back would wait for itself.
- WindowBridge.ReplayYieldsTracked: titles, geometry, pids and the active flag in the payload are not modelled, and a window object destroyed without `windowRemoved` is not.
- Damage.IncrementalEqualsFull: KWin's renderer is represented by one assumption, that it paints repaint and damage with the current scene and that damage covers the scene's changes since the last frame; textures, framebuffers and render targets are not modelled.
- MicRing.MicRing.FillSource: requires a channel count whose stride is not zero, as the source's division does; MicRing.StrideIsZeroIff says for which announcement it is.
- CameraStream.EmitFrame: the mapped file is assumed to be as long as it was offered.
- Backend.AlwaysInSync: one output, whose layer may or may not be attached; input device, clipboard contents and scheduling are only the sends they cause, and window geometry only the sends a resize causes.
- `apply_format`, clipboard de-duplication, scheduling events, consumer variables and `query_max_res`: correct and easy.
- PipeWire, EGL, KWin and Qt internals, input mapping, logging, build and install scripts.
- The debian13, fedora43 and plain v5 copies of the producer sources: near-duplicates that check less.
- The Android consumer's camera, audio and JNI code: only what arrives from it is modelled.
