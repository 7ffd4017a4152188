# Verification of ffvms

ffvms is an RTSP 1.0 relay: many clients share one source stream, each source is fetched once, and its
packets are fanned out as interleaved RTP. This project models the parts of it in which clients, the
producer, the network threads and their locks meet, in Dafny 4.11, and proves what every run of them keeps.

`dafny verify dfyconfig.toml` checks the whole project.

## What is modelled

| file | subject |
|---|---|
| `VideoUrl.dfy` | request URLs and the map key that decides which clients share a proxy |
| `Framing.dfy` | interleaved framing (section 10.12 of RFC 2326) and the in-place fill of the send buffer |
| `Sharing.dfy` | the stream-sharing protocol as a step machine: handlers, producer callbacks, the phase invariant |
| `SharingRuns.dfy` | theorems over whole runs: one registration, one SDP, balance, isolation, delivery |
| `SharingEffects.dfy` | what each step does client by client, whom it answers, what a close leaves behind |
| `Discipline.dfy` | a client that keeps to one session, among arbitrary others |
| `RtspServer.dfy` | `ProxyInfo` and `RtspService` as objects changed in place, proved to perform those steps |
| `Producer.dfy` | the producer's context maps, as a value and as an object |
| `Agreement.dfy` | service and producer together: when they describe the same videos |
| `LockMachine.dfy` | the device path at the level of single lock operations, threads interleaving freely |
| `LockInvariant.dfy`, `LockContexts.dfy` | what every interleaving keeps: mutual exclusion; contexts, replies and unregistrations that find each other |
| `LockTheorems.dfy`, `LockSessions.dfy` | deadlock, late and crossed callbacks, sessions |
| `LockRefinement.dfy` | interleavings as runs of the atomic protocol; delivery in every interleaving |
| `LockSections.dfy` | what each critical section does, answers and holds |
| `LockPaths.dfy`, `LockCompleteness.dfy` | the converse: every undisturbed run of the atomic protocol is the run of some interleaving |
| `LockAgreement.dfy` | service and producer in every interleaving |
| `LockRaces.dfy` | which sections the locks do not keep apart |
| `LockRuns.dfy` | runs of the lock machine: a deadlock if waiting writers hold up readers, a second session on a deaf peer, a close that meets a packet |
| `ThreadPool.dfy` | the thread pool under every interleaving |
| `ReceiveSlots.dfy`, `ReceivePath.dfy` | the receive buffers, and the way of a datagram to its peer's handler |
| `FrameLoop.dfy` | `FFGetFrame`: the loop of one tick, the error latch, when timestamps increase |
| `FrameTimes.dfy` | which packets are written with which timestamps, over many ticks and passes |

## How to read the model

- A run is a sequence of steps; each step is a function of the state and of what the environment chose
  (who sends what, which thread moves, what ffmpeg or the signalling server answers). Theorems quantify over
  all runs, all clients and all videos.
- A proxy gets a fresh `id` per lifetime. It stands for the object's address, which the callbacks are bound to.
- In `Sharing.dfy` every handler and every callback is atomic. `OnPlay` looks the proxy up without
  `mProxyInfoMutex`, `Close` edits client sets without `mClientMutex`, and the error callback reads them without it,
  so for these atomicity is an assumption. `LockMachine.dfy` keeps it for those three: each of `Close`'s set edits and
  each pass of the error callback is one step there too. `LockRefinement.RefinesProtocol` shows for device videos that
  the protocol steps of every finer interleaving form a run of the atomic machine, and
  `LockCompleteness.EveryRunHappens` that no undisturbed run of it is lost.
- Callbacks are assumed to reach live proxies in `Sharing.dfy` (`Enabled`). `Agreement.dfy` proves when this
  is so, and `Agreement.ClosingWaitingStrandsDevice` what happens otherwise. There, a callback to a proxy that is
  gone (a dangling pointer in the source) is modelled as having no effect.
- An SDP is non-empty and comes at most once per `RegisterVideo` call; a gRPC or probe callback runs at most once.
- In `LockMachine.dfy` the session ids the signalling server hands out are non-empty and never repeat (`Can`).
  `LockSessions.SessionConservation` and `LockContexts.UnregisterFindsItsSession` rest on that.
- The products of the duration fill-in are 32-bit `int`s, taken to wrap around; the division traps on a zero divisor and
  on `INT_MIN / -1`.
- Packets of the protocol have 2 to 1596 bytes; where the code would leave its buffers, the model stops
  (`Framing.FillSendBuffer`).
- In `LockMachine.dfy` a thread takes one lock or does one critical section per step, and releases everything when
  its last critical section ends. Handlers run under `mRtspServerMutex` (shared for requests, exclusive for
  `Close`), as `readcb` and `errorcb` call them. A `Close` that empties a registered proxy takes it out of the map in
  its first step and then unregisters; the code unregisters first, with the same two locks held throughout. In between
  the proxy lists no client a packet could go to, and its SDP has come already.
- A handler is taken to read its receive slot as late as possible, when its job ends.

## Findings

Places where the code does not do what one might expect, with the exact condition:

- DESCRIBE while another client already waits puts the caller into no set at all. `Discipline.DroppedIsNeverServed`: a
  disciplined client is then never listed or answered with success again.
- A client that has only sent OPTIONS does not keep its proxy alive: another client's close erases it.
  `Discipline.PhaseOnlyAdvances`: these two are exactly the steps, short of its own close, that set a disciplined client
  back, and both happen (`Discipline.DropOutHappens`, `Discipline.SweepHappens`).
- `Close` takes its client out of only one set. `SharingEffects.CloseLeavesTraceIff`: a trace stays if and only if the
  client was in two or more sets of the proxy. So a playing client that sent OPTIONS again and then closes is still
  playing: its packets are still sent and its source is still fetched (`SharingEffects.ClosedClientStillPlays`).
- Closing the client that waits for an SDP erases the proxy without unregistering. `Agreement.AgreementStep`: a
  step makes service and producer disagree on a video if and only if it is such a close or a failure of its file.
  `Agreement.ClosingWaitingStrandsDevice`: a device video is then unusable for good; a file until it fails
  (`Agreement.ClosingWaitingStrands`).
- `unRegisterPeer` is never called and `registerPeer` keeps the first entry: once the context a peer was first registered
  for is unregistered, nothing that peer sends reaches any proxy again (`LockTheorems.PeerGoesDeaf`), not even for a newer,
  acknowledged session whose client already has its SDP (`LockRuns.DeafPeerHappens`).
- The locks leave four kinds of sections unprotected from each other (`LockRaces.LocksAdmitIff`, an exact list): `Close`
  against the SDP, packet and error callbacks of the proxy, the error callback against whoever writes its sets, PLAY's
  lookup against the insertion by OPTIONS, and two packets filling one send buffer. `LockRuns.CloseMeetsPacket` reaches
  the first. Single-worker pools keep the packets of one peer apart (`ThreadPool.SerialStep`).
- The reply's "not found in cache" branch is never taken: no context is unregistered before its invite is answered
  (`LockContexts.ReplyFindsItsContext`).
- The send buffer holds packets of up to 1596 bytes (`Framing.FillSendBuffer`), but the device path only stops packets
  above 1600 bytes (core/src/rtp_producer.cpp:20): those of 1597 to 1600 bytes are copied behind its end.
- Channel 1 is also chosen for second bytes 72 to 76, not only for the RTCP types 200 to 204
  (`Framing.ChannelOneBytes`).
- `gb/` URLs whose id contains `file/` are read as file URLs (`VideoUrl.GbUrlRoundTrip`).
- Whether the peer lock can deadlock depends on `std::shared_mutex`: not if waiting writers let readers pass
  (`LockTheorems.DeadlockFree`), but possibly otherwise (`LockRuns.WritersFirstCanDeadlock`), and then only
  through that lock (`LockTheorems.CyclesGoThroughPeers`).
- A repeated file without a video packet makes a tick loop forever (`FrameLoop.TickEndsIff`).
- Timestamps of files that mix timed and untimed packets can step back (`FrameLoop.MixedTimesStepBack`);
  `FrameLoop.IncreasingIff` gives the exact condition.
- A video packet without a duration kills the process in a file whose frame rate or time base is zero, or whose 32-bit
  products make the fill-in division undefined (core/src/rtp_producer.cpp:260-267). `FrameLoop.NeverCrashesIff`: a file is
  safe if and only if it has no such packet.
- A receive slot is reused after 2N further slots, and two things can then go wrong, for every buffer size. A handler
  that is called too late is given another datagram's bytes (`ReceivePath.SlowHandlerSeesOther`). And with several event
  loops on one cursor, a loop that took its slot 2N slots earlier and receives only now spoils a datagram although no
  further slot was handed out (`ReceivePath.StragglerSpoilsOther`). `ReceivePath.ArriveIntactIff` gives the exact step that
  spoils a queued datagram and `ReceivePath.HandlersSeeWhatArrived` the exact condition on a run.
  `ReceivePath.HandlersInTime`: inside the window of 2N-1 slots such stragglers are the only cause, so with one event loop
  the window is enough (`ReceivePath.OneLoopInTime`).

## Model

| member | source | states |
|---|---|---|
| VideoUrl.Find | core/src/common.cpp:27-42 | the search returns the first occurrence, and nothing exactly when there is none |
| VideoUrl.Parse | core/src/common.cpp:23-48 | which kind of source a URL names: the file prefix anywhere wins over the device prefix |
| VideoUrl.ParseUrl | core/src/common.cpp:23-48 | filling the record by successive assignments gives that parse |
| VideoUrl.FileUrlRoundTrip | core/src/common.cpp:27-41 | a file URL, with or without flag, gives back its name and its flag |
| VideoUrl.GbUrlRoundTrip | core/src/common.cpp:42-46 | a device URL gives back its id if and only if the file prefix occurs nowhere in it |
| VideoUrl.KeyOrderIsStrictWeak | core/include/common.h:60-63 | the order on requests is the strict weak order a map needs |
| VideoUrl.StrLessIff | core/include/common.h:60-63 | at the first difference the smaller character, or the end of the string, comes first |
| VideoUrl.UrlsShareKeyIffSameSource | core/include/common.h:25-37 | two URLs share a map entry if and only if they have the same kind and the same name or id, whatever the flag |
| VideoUrl.KeyTellsKind | core/include/common.h:25-37 | the key alone determines whether the source is a file, a device or nothing |
| VideoUrl.ValueAndParamsEqual | core/include/common.h:65-68 | the field-by-field comparison is equality of requests |
| VideoUrl.SameKeySameHash | core/include/common.h:74-90 | requests that share a map entry have equal hashes, that of their key |
| Framing.FillSendBuffer | core/src/rtsp_service.cpp:127-138 | the buffer filled in place holds the frame of the packet; the code stays inside `data` and the buffer exactly for 2 to 1596 bytes |
| Framing.DecodeAll | core/src/rtsp_service.cpp:126-143 | any concatenation of frames is read back, by section 10.12 of RFC 2326, as exactly the packets in order with their channels |
| Framing.FrameLayout | core/src/rtsp_service.cpp:134-138 | a frame is '$', the channel, the length with the high byte first, and the packet |
| Framing.ChannelOneBytes | core/src/rtsp_service.cpp:127-132 | channel 1 if and only if the second byte is 200 to 204 or 72 to 76 |
| Sharing.PhaseInvariant | core/src/rtsp_service.cpp:110-120 | in every reachable state: at most one client waits and only without SDP; nobody is past DESCRIBE without SDP; `registered` iff SDP; a callback is owed iff someone waits; every live proxy lists a client |
| Sharing.CloseStopsSomewhere | core/src/rtsp_service.cpp:179-200 | the search of `Close` has exactly one place to stop |
| SharingRuns.AtMostOneRegistration | core/src/rtsp_service.cpp:246-270 | `RegisterVideo` is called at most once per proxy lifetime, and has been called for a live proxy iff it waits or has its SDP |
| SharingRuns.OneSdpPerProxy | core/src/rtsp_service.cpp:113-119 | all 200 DESCRIBE replies of one proxy carry the same SDP |
| SharingRuns.RegistrationBalance | core/src/rtsp_service.cpp:201-217 | for every video and run, SDP arrivals minus `UnregisterVideo` calls is 1 while a registered proxy is live and 0 otherwise |
| SharingRuns.Isolation | core/src/rtsp_service.cpp:179-220 | a step by anyone else never takes a client out of waiting, before-play or playing (an SDP moves it on), and out of before-describe exactly when it erases the proxy |
| SharingRuns.PacketFanOut | core/src/rtsp_service.cpp:139-143 | a packet goes exactly once to each playing client of its proxy and to nobody else |
| SharingRuns.PlayOpensDelivery | core/src/rtsp_service.cpp:315-323 | PLAY is answered 200 iff the client was before play, and then it plays |
| SharingRuns.Delivery | core/src/rtsp_service.cpp:122-144 | from its PLAY to its close, the bytes sent to a client for its proxy decode to exactly the packets that proxy consumed, in order, once each, whatever others do |
| SharingRuns.NoDeliveryOutside | core/src/rtsp_service.cpp:122-144 | without a PLAY a client that is not playing is sent nothing |
| SharingEffects.OptionsEffect | core/src/rtsp_service.cpp:353-376 | OPTIONS lists its caller, and nobody else, as before DESCRIBE, makes a fresh proxy where there is none, and is answered once |
| SharingEffects.DescribeEffect | core/src/rtsp_service.cpp:246-270 | where every client stands after a DESCRIBE: the caller waits iff nobody waited and there was no SDP, is before PLAY iff there was one, and is out of before DESCRIBE |
| SharingEffects.DescribeAnswers | core/src/rtsp_service.cpp:253-270 | it registers the video exactly in the first case and is answered with the stored SDP exactly in the second |
| SharingEffects.PlayEffect | core/src/rtsp_service.cpp:315-323 | where every client stands after a PLAY |
| SharingEffects.PlayAnswers | core/src/rtsp_service.cpp:315-323 | it is answered once, with 200 iff the caller was before PLAY and 454 otherwise |
| SharingEffects.SdpEffect | core/src/rtsp_service.cpp:110-120 | an SDP moves everyone who waits, and nobody else, to before PLAY |
| SharingEffects.SdpFanOut | core/src/rtsp_service.cpp:113-117 | each waiting client is answered exactly once with that SDP and nobody else is |
| SharingEffects.EveryoneServed | core/src/rtsp_service.cpp:110-120 | in every run each client before PLAY or playing has had its DESCRIBE answered, by its proxy and with the SDP it stores |
| SharingEffects.CloseEffect | core/src/rtsp_service.cpp:179-217 | where every client stands after a close, when the proxy is erased and when it is unregistered |
| SharingEffects.CloseLeavesTraceIff | core/src/rtsp_service.cpp:181-200 | a close leaves a trace of its client iff it was in at least two sets of the proxy, and then exactly one less |
| SharingEffects.ClosedClientStillPlays | core/src/rtsp_service.cpp:181-200 | a run in which a packet is sent to a client after its close |
| Discipline.AtMostOneMembership | core/include/rtsp_service.h:32-35 | a disciplined client among arbitrary others is in at most one set over all proxies |
| Discipline.CloseLeavesNoTrace | core/src/rtsp_service.cpp:170-222 | one `Close` removes every trace of a disciplined client for good |
| Discipline.PhaseOnlyAdvances | core/src/rtsp_service.cpp:201-270 | short of its own close, its phase goes back iff its DESCRIBE meets another waiting client or another's close erases the proxy before its DESCRIBE |
| Discipline.DroppedIsNeverServed | core/src/rtsp_service.cpp:253-270 | after a DESCRIBE that met another waiting client it is in no set and gets no 200 to DESCRIBE or PLAY, in any continuation |
| Discipline.DropOutHappens | core/src/rtsp_service.cpp:253-270 | two disciplined clients of any video reach that step |
| Discipline.SweepHappens | core/src/rtsp_service.cpp:201-217 | two disciplined clients reach the other setback |
| Discipline.ErrorListsEveryClient | core/src/rtsp_service.cpp:146-167 | a source error closes the sockets of exactly the clients the proxy knows |
| Discipline.ErrorTearsDown | core/src/rtsp_service.cpp:146-167 | after a source error the proxy is gone once those clients have closed, in any order, unless newcomers join |
| RtspServer.ProxyInfo.ProcessSdp | core/src/rtsp_service.cpp:110-120 | moves the waiting clients on, answers each once, stores the SDP |
| RtspServer.ProxyInfo.ConsumePkt | core/src/rtsp_service.cpp:122-144 | sends the frame to each playing client once and changes no set; fails exactly on packets that do not fit |
| RtspServer.ProxyInfo.ProcessError | core/src/rtsp_service.cpp:146-167 | closes the socket of every client of the four sets |
| RtspServer.ProxyInfo.Describe | core/src/rtsp_service.cpp:246-270 | the DESCRIBE step of one proxy, including the case in which neither branch fires |
| RtspServer.ProxyInfo.Play | core/src/rtsp_service.cpp:315-323 | the PLAY step of one proxy and its status |
| RtspServer.ProxyInfo.Remove | core/src/rtsp_service.cpp:181-200 | the client leaves the first set that holds it |
| RtspServer.RtspService.OnOptions | core/src/rtsp_service.cpp:353-376 | performs the OPTIONS step of the protocol, with its actions |
| RtspServer.RtspService.OnDescribe | core/src/rtsp_service.cpp:232-272 | performs the DESCRIBE step, with its actions and return code |
| RtspServer.RtspService.OnPlay | core/src/rtsp_service.cpp:301-324 | performs the PLAY step, with its actions and return code |
| RtspServer.RtspService.Close | core/src/rtsp_service.cpp:170-222 | performs the close step at the first entry in map order that knows the client |
| RtspServer.RtspService.FindClient | core/src/rtsp_service.cpp:179-200 | the loop over the map stops at that entry, or nowhere if no proxy knows the client |
| RtspServer.RtspService.SdpCallback | core/src/rtsp_service.cpp:248-261 | the bound SDP callback performs the SDP step |
| RtspServer.RtspService.PacketCallback | core/src/rtsp_service.cpp:249-250 | the bound packet callback performs the packet step, or fails on a packet that does not fit |
| RtspServer.RtspService.ErrorCallback | core/src/rtsp_service.cpp:251-252 | the bound error callback performs the error step |
| Producer.RegisterCallsByFields | core/src/rtp_producer.cpp:495-553 | by the request's fields: a new file context is probed, a new device context invited, a known video reported to its caller, one call at most |
| Producer.RtpProducer.RegisterVideo | core/src/rtp_producer.cpp:495-553 | adds one context bound to the caller, with exactly those calls |
| Producer.RtpProducer.UnregisterVideo | core/src/rtp_producer.cpp:734-776 | erases that context only, and tears down a session iff the context holds one |
| Agreement.SoundAlways | core/src/rtp_producer.cpp:495-527 | in every run a call is awaited only for a context still registered, of a video nobody is served, whose live proxy still has its client waiting; a live device proxy that asked has a context |
| Agreement.CallbackAllowed | core/src/rtp_producer.cpp:628-639 | an answer finds the context it was asked for, and its SDP callback is one the protocol allows |
| Agreement.AnswerServes | core/src/rtp_producer.cpp:628-639 | a successful answer puts every waiting client of the live proxy before PLAY and stores the SDP |
| Agreement.AnswerNotes | core/src/rtp_producer.cpp:552-591 | a device context notes its session and stays, a file context stays iff served, no other changes |
| Agreement.CalledOnce | core/src/rtp_producer.cpp:506-553 | in every run one call was made for each context, a probe for a file and an invite for a device |
| Agreement.AgreementStep | core/src/rtsp_service.cpp:201-217 | a step breaks the agreement on a video iff it closes its waiting client or its file fails |
| Agreement.AgreementAlways | core/src/rtp_producer.cpp:499-527 | in runs undisturbed at a video it has a context exactly if its live proxy asked, bound to it, whatever happens to other videos |
| Agreement.NeverRejected | core/src/rtp_producer.cpp:515-522 | in such runs "already exist" is unreachable for the video |
| Agreement.CallbacksReachLiveProxies | core/src/rtsp_service.cpp:247-252 | in such runs every callback of its contexts reaches the live proxy |
| Agreement.ClosingWaitingHappens | core/src/rtsp_service.cpp:201-217 | for every video the disturbing close is reached, and leaves a context without a proxy |
| Agreement.FileFailureHappens | core/src/rtp_producer.cpp:427-445 | for every file the failure is reached, and leaves a waiting client without a context |
| Agreement.ClosingWaitingStrands | core/src/rtsp_service.cpp:208-216 | after the waiting client of a fetched video closes, until its file fails every registration is turned away and no client has an SDP |
| Agreement.ClosingWaitingStrandsDevice | core/src/rtsp_service.cpp:208-216 | for a device this holds for good, after any run |
| LockInvariant.Always | core/src/rtp_producer.cpp:513-776 | what every interleaving keeps: mutual exclusion, live contexts under readers, at most one registration, one reply per invite |
| LockInvariant.StepIsEnabled | core/src/rtsp_service.cpp:110-120 | the protocol step of a critical section is always possible where it is taken |
| LockTheorems.DeadlockFree | core/include/rtsp_service.h:81-81 | no interleaving reaches a wait-for cycle, not even of one thread, over server, proxy, client, context and peer locks, if waiting writers let readers pass |
| LockTheorems.SomeThreadMoves | core/src/rtp_producer.cpp:554-639 | while any thread is busy some thread can move |
| LockTheorems.CyclesGoThroughPeers | core/src/rtp_producer.cpp:554-662 | if they hold them up, always or sometimes, every cycle contains an invite reply waiting for the peer lock |
| LockRuns.WritersFirstCanDeadlock | core/src/rtp_producer.cpp:658-662 | and such a cycle is reachable |
| LockTheorems.NoLateCallback | core/src/rtp_producer.cpp:723-774 | once a context is erased no thread is, or ever gets, inside its SDP, packet or error callback |
| LockTheorems.UnregisterMeetsNoCallback | core/src/rtp_producer.cpp:745-774 | when `UnregisterVideo` runs nobody is in a callback of any context |
| LockTheorems.LateWorkTouchesNothing | core/src/rtp_producer.cpp:552-691 | after a context is erased, no step of a thread carrying a reply to it or a packet for it changes any context, proxy or peer; only packets come that late |
| LockTheorems.PeerGoesDeaf | core/src/network_server.cpp:220-238 | once the first context of a peer is erased, every packet of that peer is looked up to that context and changes nothing |
| LockRuns.DeafPeerHappens | core/src/network_server.cpp:220-238 | a second session of the same video from the same peer is reached: registered, acknowledged, its client served, its peer tied to the erased context |
| LockContexts.OwnersAlways | core/src/rtp_producer.cpp:513-776 | in every interleaving a registered live proxy has its own context with a session, unanswered contexts are registered, and a close on its way to unregister finds its video without a proxy |
| LockContexts.ReplyFindsItsContext | core/src/rtp_producer.cpp:552-562 | an invite reply always finds the very context it was sent for |
| LockContexts.UnregisterFindsItsSession | core/src/rtp_producer.cpp:740-775 | every `UnregisterVideo` call tears down exactly one session, that of the proxy being closed |
| LockTheorems.CallbackNeedsContext | core/src/rtp_producer.cpp:660-691 | a callback in progress acts for the proxy its own, still registered, context is bound to |
| LockAgreement.LinkStep | core/src/rtsp_service.cpp:201-217 | a step of any thread breaks the link between the context and the live proxy of a device video iff it is a close of its waiting client |
| LockAgreement.LinkedAlways | core/src/rtp_producer.cpp:513-776 | in interleavings without such a close, every context of the video is bound to its live proxy or to one being unregistered, and a live proxy that asked has its context or a DESCRIBE about to register it |
| LockAgreement.NeverRejectedInterleaved | core/src/rtp_producer.cpp:515-522 | and no registration of it finds an existing context |
| LockRaces.LocksAdmitIff | core/include/rtsp_service.h:69-101 | two sections that touch the same memory, one writing, can hold their locks together iff they are one of the listed pairs |
| LockRaces.RacesOnly | core/src/rtsp_service.cpp:110-323 | in every interleaving two threads race only in those pairs |
| LockRuns.CloseMeetsPacket | core/src/rtsp_service.cpp:122-200 | `Close` and a packet are at work on the sets of one proxy in a reachable state |
| LockRefinement.RefinesProtocol | core/src/rtsp_service.cpp:110-272 | the protocol steps of every interleaving, in order and none left out, form a legal run of the atomic protocol that ends in the same service state |
| LockRefinement.ProtocolTheoremsHold | core/src/rtsp_service.cpp:201-270 | one registration and one SDP per proxy and the registration balance hold in every interleaving |
| LockRefinement.DeliveryInterleaved | core/src/rtsp_service.cpp:122-144 | in every interleaving, while a client plays and is not closed, the bytes sent to it decode to exactly the packets handed to its proxy, in order, once each |
| LockRefinement.SentMatches | core/src/rtsp_service.cpp:139-143 | the bytes the machine sends a client are those its protocol run sends |
| LockCompleteness.EveryRunHappens | core/src/rtsp_service.cpp:110-376 | every run of requests, closes of clients that do not wait, SDPs and packets of served device videos is, step for step, the protocol run of some interleaving |
| LockCompleteness.DeliveryHappens | core/src/rtsp_service.cpp:122-144 | for every device an interleaving in which a client plays and is sent the frame of a packet |
| LockSections.OptionsSection | core/src/rtsp_service.cpp:369-375 | OPTIONS at work on a proxy lists its caller and answers it |
| LockSections.DescribeSection | core/src/rtsp_service.cpp:245-270 | DESCRIBE at work: who stands where, who is answered, when it goes on to register |
| LockSections.PlaySection | core/src/rtsp_service.cpp:315-323 | PLAY at work: a client before PLAY then plays and is told 200, any other is told 454 |
| LockSections.SdpSection | core/src/rtsp_service.cpp:110-120 | the SDP callback at work moves and answers exactly the waiting clients |
| LockSections.ReplySection | core/src/rtp_producer.cpp:591-626 | a reply leaves its session with its own context, even if the coders then fail, and changes no other |
| LockSections.PeersSection | core/src/rtp_producer.cpp:658-713 | a served reply registers its peer unless somebody has, and acknowledges its session |
| LockSections.FailedReplyReports | core/src/rtp_producer.cpp:723-729 | a failed reply is next inside the error callback of the proxy its context is bound to |
| LockSections.ErrorClosesSockets | core/src/rtsp_service.cpp:146-167 | that callback closes the sockets of exactly the clients the live proxy knows |
| LockSections.RejectionClosesSockets | core/src/rtp_producer.cpp:515-522 | so does a registration that meets an existing context |
| LockSections.AcquireTakesLock | core/include/rtsp_service.h:81-101 | taking a lock adds exactly that lock in the mode asked for, and nobody holds it in conflict |
| LockSections.LocksKept | core/src/rtsp_service.cpp:232-272 | no lock is given back before the thread ends, save the SDP callback's client lock |
| LockTheorems.RegistersOnce | core/src/rtsp_service.cpp:253-261 | a thread inside `RegisterVideo` is the first for its proxy |
| LockSessions.SessionConservation | core/src/rtp_producer.cpp:591-713 | every acknowledged session is held by exactly one context or torn down, never both, and none is torn down twice |
| ThreadPool.PoolAlways | common/thread_pool/include/thread_pool.h:35-73 | started tasks are a prefix of submitted tasks, and while someone sleeps every queued task is covered by a due notification or an awake worker |
| ThreadPool.NothingStartsAfterStop | common/thread_pool/include/thread_pool.h:41-46 | once the stop flag is set no task starts and none is accepted |
| ThreadPool.EnterIff | common/thread_pool/include/thread_pool.h:40-48 | a worker at the queue exits iff the pool stops, sleeps iff nothing is queued, and else runs the oldest task |
| ThreadPool.QueuedTaskIsSeen | common/thread_pool/include/thread_pool.h:41-41 | a pool with a queued task is never stuck |
| ThreadPool.JoinIsNotStuck | common/thread_pool/include/thread_pool.h:75-86 | after `notify_all` no worker sleeps, so every join can complete |
| ThreadPool.SerialStep | core/src/network_server.cpp:214-217 | a single worker finishes tasks one at a time in the order started |
| ThreadPool.TaskQueue.Submit | common/thread_pool/include/thread_pool.h:63-70 | appends to the queue, or fails when stopped |
| ThreadPool.TaskQueue.EnterWorker | common/thread_pool/include/thread_pool.h:40-48 | waits, quits or takes the first task, stop first |
| ThreadPool.TaskQueue.SetStop | common/thread_pool/include/thread_pool.h:77-80 | the destructor's critical section sets the flag and leaves the queue |
| ReceiveSlots.ClosedForm | core/src/network_server.cpp:70-82 | with N slots per buffer the n-th slot is buffer (n/N)%2 at offset 1600*(n%N) |
| ReceiveSlots.InBounds | core/src/network_server.cpp:70-82 | every slot lies inside its buffer |
| ReceiveSlots.OverlapIff | core/src/network_server.cpp:70-82 | two slots overlap iff they are a multiple of 2N apart, and are then the same |
| ReceiveSlots.ReuseDistance | core/src/network_server.cpp:70-82 | a slot is disjoint from the 2N-1 slots before and after it |
| ReceiveSlots.BufferSizeFits | core/src/network_server.cpp:206-206 | buffer size and positions fit 32 bits for exactly 1 to 102 event loops |
| ReceiveSlots.ReceiveBuffers.TakeSlot | core/src/network_server.cpp:70-82 | the critical section hands out the next slot and moves the cursor |
| ReceiveSlots.ReceiveBuffers.Store | core/src/network_server.cpp:88-88 | receiving writes the datagram into its slot and nothing else |
| ReceivePath.ArriveIntactIff | core/src/network_server.cpp:70-88 | a receive leaves an intact queued datagram intact iff the slots are not a multiple of 2N apart or the bytes agree as far as both reach |
| ReceivePath.HandlersSeeTheirSlot | core/src/network_server.cpp:66-142 | every handler call gets its datagram overlaid, in order, by the datagrams received since into the same memory |
| ReceivePath.HandlersSeeWhatArrived | core/src/network_server.cpp:66-142 | it gets exactly its datagram iff at every position the last of those that reaches it agrees, whatever happens to other datagrams |
| ReceivePath.HandlersInTime | core/src/network_server.cpp:70-142 | with at most 2N-1 further slots handed out it does iff no loop holding an older slot of the same memory spoilt it |
| ReceivePath.OneLoopInTime | core/src/network_server.cpp:70-142 | with one event loop at most 2N-1 further slots are enough |
| ReceivePath.SlowHandlerSeesOther | core/src/network_server.cpp:70-142 | for every buffer size a run in which a handler gets the bytes of a datagram received 2N slots later |
| ReceivePath.StragglerSpoilsOther | core/src/network_server.cpp:70-88 | for every buffer size a run in which, with no further slot handed out, a handler gets the bytes a slower loop received into the slot 2N earlier |
| ReceivePath.PerPeerOrder | core/src/network_server.cpp:129-141 | a peer's handler calls are a subsequence of its submissions, in order, however the pools interleave |
| ReceivePath.PrefixWhileRegistered | core/src/network_server.cpp:220-238 | registered before its first datagram and ever since, a peer sees a prefix of its submissions |
| ReceivePath.ArriveRoutes | core/src/network_server.cpp:129-131 | a datagram joins the end of the queue of the pool its peer's hash selects, and no other |
| ReceivePath.PeersAre | core/src/network_server.cpp:220-238 | the registered peers are those whose last change was a registration |
| ReceivePath.HandledIffRegistered | core/src/network_server.cpp:131-141 | a finished job has called the handler once iff its peer is registered |
| FrameLoop.TickEndsIff | core/src/rtp_producer.cpp:162-300 | a tick ends whatever ffmpeg answers iff the file is not repeated or has a video packet |
| FrameLoop.TerminatesIff | core/src/rtp_producer.cpp:162-300 | one tick ends iff so, or a read or a rewind at the end of the file fails at some time |
| FrameLoop.Search | core/src/rtp_producer.cpp:162-240 | the packet a tick finds is the first video packet ahead, going round once in a repeated file |
| FrameLoop.LoopResult | core/src/rtp_producer.cpp:160-308 | a tick reports an error and writes nothing if the search fails; crashes iff the packet found has no duration and none can be computed; otherwise writes it repaired and reports iff the muxer's code for it is not 0 |
| FrameLoop.NeverCrashesIff | core/src/rtp_producer.cpp:260-267 | no number of ticks meets an undefined division, whatever ffmpeg answers, iff every video packet has a duration or the 32-bit division of the fill-in is defined |
| FrameLoop.TickIsUnique | core/src/rtp_producer.cpp:150-309 | a tick has one result, which is that of the loop where every tick ends |
| FrameLoop.FileVideoContext.FFGetFrame | core/src/rtp_producer.cpp:150-309 | the do-while loop with its breaks and continues computes that result in place, on exactly the inputs on which it ends, and hands the muxer stream 0, the filled duration, the pts, and the new pts as dts where it was repaired |
| FrameLoop.FileVideoContext.RepairTimes | core/src/rtp_producer.cpp:260-293 | fills the duration, repairs pts and dts and updates both counters, or meets an undefined division |
| FrameLoop.ErrorLatch | core/src/rtp_producer.cpp:154-159 | over any number of ticks at most one frame per tick, at most one error callback, exactly when the latch is set, none with a crash |
| FrameLoop.SilentAfterError | core/src/rtp_producer.cpp:301-308 | after the error callback further ticks write nothing and change nothing |
| FrameLoop.IncreasingIff | core/src/rtp_producer.cpp:271-293 | over any ticks and rewinds the pts written increase strictly iff every written packet advances from the state it met |
| FrameLoop.IncreasingPairwise | core/src/rtp_producer.cpp:271-293 | strictly increasing step by step is strictly increasing for every pair |
| FrameLoop.TimestampsIncrease | core/src/rtp_producer.cpp:260-293 | with positive durations they do if every packet has a dts or none has any time |
| FrameLoop.CounterBehind | core/include/rtp_producer.h:100-108 | the counter never runs ahead of `prePts` |
| FrameLoop.MixedTimesStepBack | core/src/rtp_producer.cpp:276-281 | a mixed file whose timestamps step back |
| FrameLoop.FilledDurationPositiveIff | core/src/rtp_producer.cpp:260-267 | the filled-in duration is positive iff the 32-bit products have the same sign and the divisor is not the larger |
| FrameLoop.FrameLastsATick | core/src/rtp_producer.cpp:260-267 | without overflow, iff a frame lasts at least one tick of the time base |
| FrameTimes.FilledDurationIsQuotient | core/src/rtp_producer.cpp:260-267 | a packet keeps its duration; a missing one is the quotient of the two products, cut off toward zero |
| FrameTimes.FailureCode | core/src/rtp_producer.cpp:165-217 | a tick whose search fails latches the code of the first failing read, of the rewind, or end of file |
| FrameTimes.PassInOrder | core/src/rtp_producer.cpp:162-240 | n ticks without faults write the next n video packets of the file, in order, once each |
| FrameTimes.WrittenTimes | core/src/rtp_producer.cpp:271-293 | over any ticks, faults and rewinds: a packet is written with its pts if newer than the last, else its dts if newer, else its duration after the last pts, or after the counter if it has no dts |
| FrameTimes.WrittenTimeAt | core/src/rtp_producer.cpp:271-293 | the same packet by packet, by the pts written before it |
| FrameTimes.FirstPassKeepsTimes | core/src/rtp_producer.cpp:271-293 | a file with increasing pts is written, on its first pass, with exactly its own |
| FrameTimes.BareFileTimes | core/src/rtp_producer.cpp:276-281 | a file without times is written with the running sums of its durations |
| FrameTimes.StaleFileTimes | core/src/rtp_producer.cpp:282-287 | once no time of the file is newer than the last pts, each packet follows the previous by its duration |
| FrameTimes.LaterPassesExtend | core/src/rtp_producer.cpp:169-206 | so a repeated file goes on after its first pass |

## Left out

- libevent, sockets, accept and bind, and the RTSP parser: they appear as the steps that call the handlers.
- ffmpeg probing and muxing, the RTP demuxer and the payload encoder: reads are a finite packet sequence with
  rewinds, other results are codes chosen by the environment; packets enter with their times already rescaled.
- The gRPC client: a call's callback runs at most once.
- The file path of `RegisterFileVideo` beyond success or failure: mostly ffmpeg setup.
- LockTheorems.NoLateCallback: device videos only, because a file probe finds its context by key and not by weak
  pointer.
- LockTheorems.DeadlockFree: requests for device videos only; file contexts have a mutex of their own.
- 64-bit wrap-around of timestamps.
- Raw pointer lifetime, and what the races of `LockRaces.dfy` do to memory: each section takes effect in one step.
- The synchronous receive mode (no worker pools), which stops reading at the first unregistered peer.
- Destruction of the network server's pools while datagrams are queued: their stop steps are in `ThreadPool.dfy` only.
- `OnSetup`, `OnPause`, `OnTeardown` and the other handlers that change no state; `toString`, metrics, logging,
  configuration.
