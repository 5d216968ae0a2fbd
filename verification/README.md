# Verification of fru-tester

fru-tester brings up simulated gNBs and UEs against a 5G core, registers the
UEs, sets up their PDU sessions, sends traffic through them, cycles
control-plane UEs and takes everything down again. This project models the
parts of it whose promises no single function shows, and proves those promises
for every input, every run and every interleaving.

`dafny verify dfyconfig.toml` checks the whole project.

## What is modelled

- **A run** (`run_model.dfy` to `run_bound.dfy`). The state is what the
  goroutines of one run share: each UE's and each gNB's record, where `execute`
  and the four dispatchers are, the stages' counters, the UE summary, and the
  two gates. A step is one critical section, one `Stage` call or one channel
  operation of one goroutine, and a run is any sequence of steps: `execute`,
  the N2 round and its workers, the registration, PDU, control-plane and
  deregistration attempts, the association watchers, Stop and a second Stop. An
  exchange with the core is a free choice of its outcome. `run_invariant.dfy`
  has the inductive invariant, `run_preserve.dfy` to `run_safety.dfy` show that
  each step keeps it, `run_theorems.dfy` draws the conclusions, `run_links.dfy`
  shows who deregisters, `run_progress.dfy` that no run gets stuck, and
  `run_bound.dfy` that a stopped run ends. A book-keeping field of each item
  (`book` of a UE, `n2` and `release` of a gNB) records the calls made for it; no
  step looks at it.
- **The counters behind it**: `Stage` (`stage.dfy`) and the UE summary with the
  gNB page (`ue_summary.dfy`) as classes.
- **A stage's dispatcher** and runN2's (`pipeline.dfy`): pacing, the semaphore,
  retries and the drain, with real time; and **its queue** (`rr_queue.dfy`): the
  class over ring and FIFOs, refined to a turn list, and the consumer's signal.
- **The host's addresses** (`host_addresses.dfy`, `host_network.dfy`,
  `controller_host.dfy`): the kernel's list under the rule that a primary takes
  its secondaries along, `placeAddr`, `undo`, `configureIPs` and `removeIPs`
  with the route, and the controller over any sequence of runs and ping tests.
- **AF_XDP** (`xdp_ring.dfy`, `xdp_socket.dfy`): the four rings with 32-bit
  indices, and the kernel as a peer that may do any amount of what it may do
  before each step of the socket.
- **The data plane** (`packet_codec.dfy`, `ip_checksum.dfy`, `gtpu.dfy`,
  `packet_batch.dfy`, `packet_sender.dfy`, `dir_stats.dfy`, `pacer.dfy`,
  `rx_counter.dfy`): wire formats with encoder and decoder (GTP-U as in sections
  5.1 and 5.2.1 of 3GPP TS 29.281, IPv4 as in section 3.1 of RFC 791, the
  checksum as in RFC 1071), the batcher with its arena, the workers' counters,
  the token bucket, and what a reader counts.
- **Summaries of bounded size** (`rate_curve.dfy`, `latency_histogram.dfy`).
- **Lists and plans** (`go_strings.dfy`, `cpu_sets.dfy`, `increment.dfy`,
  `ip_alloc.dfy`, `expand.dfy`, `plan_properties.dfy`).

Code that updates variables in place is a class or a method with loops, proved
against functions on values; theorems are about those functions. Times and
rates are reals, addresses and wire fields integers with their ranges.

## Findings

Where the code does less than its comments say, or than one would expect, with
the exact condition under which it does not:

- tester/run/addr.go:55-66: undoing an address the sink replaced restores the
  host if and only if that address had no secondaries
  (`HostAddresses.UndoRestores`); `HostAddresses.SecondaryLost` is a host that
  loses one.
- tester/dataplane/packet.go:42-66: a tester header reads back if and only if
  the UE index is below 2^31, since the top bit marks downlink
  (`PacketCodec.HeaderRoundTrip`).
- tester/metrics/histogram.go:50-66: a histogram's last quantile is the true
  maximum if and only if the maximum is at most 2^40 microseconds; above that,
  the last bucket's bound caps it (`LatencyHistogram.LastQuantile`).
  `LatencyHistogram.LongSample` is one sample of 2^40 + 1 microseconds.
- tester/dataplane/engine.go:469-498: a packet's bytes count for its own gNB if
  and only if it opens a message (the guard of the branch that sets the
  message's gNB) or the last message is already that gNB's
  (`PacketSender.Batcher.Add`). `PacketSender.SharedTarget` is a batcher whose
  two packets, of UEs of two gNBs with one downlink target, all count for the
  first. `newFlow` takes such a target from `cfg.DlTarget` when that is set
  (tester/dataplane/engine.go:311-319); without it each UE's downlink goes to
  the UE's own address, and then this takes two UEs with one address.
- tester/run/pipeline.go:49-63: the comment says one start every interval. A
  start is followed by the next one an interval later, whatever the run goes on
  with, if and only if it was made at once when its token was taken, that is,
  when the semaphore had a free slot (`Pipeline.SpacedIfPrompt`).
  `Pipeline.TwoAtOnce` is a run, for every interval, with two starts at the same
  instant, so the two extra starts in `Pipeline.WindowBound` are needed too.

## Model

| member | source | states |
|---|---|---|
| RunTheorems.Reachable | tester/run/controller.go:418-599 | the inductive invariant holds in every state of every run, for any plan, whatever goroutines, stops and outcomes interleave |
| RunSafety.StepKeeps | tester/run/controller.go:544-1262 | no single step of any goroutine breaks the invariant |
| RunSafety.ExecuteKeeps | tester/run/controller.go:544-637 | nor any step of execute, skipUnfinished, deregisterAll's loops and closeConns' loop |
| RunSafety.DispatchKeeps | tester/run/pipeline.go:42-80 | nor any pop, launch, put-back or return of a stage's dispatcher |
| RunSafety.CpLoopKeeps | tester/run/cploop.go:117-151 | nor any step of runCpLoop around its stage |
| RunAttempts.RegKeeps | tester/run/controller.go:1152-1212 | nor any step of a registration attempt |
| RunAttempts.PduKeeps | tester/run/controller.go:1215-1262 | nor any step of a PDU attempt |
| RunAttempts.DeregKeeps | tester/run/controller.go:880-935 | nor any step of a deregistration attempt, or of the drain after an aborted stage |
| RunAttempts.CpKeeps | tester/run/cploop.go:188-290 | nor any step of a control-plane cycle |
| RunGnbs.N2Keeps | tester/run/controller.go:1032-1068 | nor any step of attemptN2 |
| RunGnbs.RoundKeeps | tester/run/controller.go:943-1030 | nor any step of runN2, startGnb, skipGnbUes and n2Round.finished; the round is over once |
| RunGnbs.WatcherKeeps | tester/run/controller.go:1094-1106 | nor an association lost at any moment |
| RunGnbs.CloserKeeps | tester/run/controller.go:776-803 | nor any step of a closing gNB connection |
| RunTheorems.AlwaysSafe | tester/run/controller.go:391-408 | in every state: no stage has ended more items than expected or begun one more often than its retries allow; at most one queue, hand or attempt holds a UE; tpLeft counts the UEs without PDU outcome, tpDone is closed once and exactly at zero, and no control-plane attempt runs earlier; an idle loop has registered 0 and as many cycles as accepted deregistrations; no UE is lost on the way; the summary equals the per-state counts and adds up |
| RunTheorems.StoppedCountsOnce | tester/run/controller.go:601-637 | a run that reaches StateStopped has ended every item exactly once in each of the six stages, has none in flight, holds no UE, and has no UE left pending, registering, registered, establishing or deregistering; a UE left established was not on deregisterAll's list |
| RunLinks.RunLinked | tester/run/controller.go:1076-1089 | in every state: a UE that is registered, establishing or established has a link, a link means its gNB has an association, and a counted deregistration was attempted |
| RunLinks.EstablishedIsExcused | tester/run/controller.go:805-822 | a UE established at StateStopped was so because, when deregisterAll came to it, its association was lost or a second Stop had aborted the cleanup |
| RunLinks.NoneEstablished | tester/run/controller.go:805-822 | with neither in the run, no UE is left established |
| RunLinks.EveryLinkDeregisters | tester/run/controller.go:805-850 | every UE that registered deregisters: one with a link and a live association when deregisterAll comes to it gets at least one attempt, if no second Stop comes |
| RunTheorems.CleanupFinished | tester/run/controller.go:810-850 | when the last deregistration has been counted nothing is left in the stage: only an aborted cleanup has UEs to drain |
| RunProgress.NeverStuck | tester/run/controller.go:544-599 | no deadlock: a run that has not ended can take a step of its own, not counting an association lost by the peer, unless it is up and nobody has stopped it |
| RunProgress.LeftAreHeld | tester/run/controller.go:827-841 | while the deregistration stage runs, deregistrations are left if and only if some listed UE is queued, in hand or attempted, so the stage never waits for nothing |
| RunProgress.StepHands | tester/run/pipeline.go:42-80 | a dispatcher that popped a UE still has it, whatever the others do |
| RunBound.StepDrops | tester/run/controller.go:544-1262 | every step lowers the weight of what is left to do, but for a control-plane UE that goes round again |
| RunBound.StopEnds | tester/run/controller.go:263-279 | after Stop the goroutines take at most that many steps, and until the run has ended one of them can take one, without an association being lost: every stopped run ends |
| RunBound.CanEnd | tester/run/controller.go:263-332 | every stopped run has a continuation to its end, from whatever state the stop found it in, by its own steps: without a second stop or a lost association |
| RunBound.RunIsBounded | tester/run/controller.go:943-1262 | a whole run in numbers of UEs, gNBs, retries and control-plane rounds: each stage's work is bounded |
| MetricsStage.Stage.constructor | tester/metrics/stage.go:37-39 | a new stage has counted nothing |
| MetricsStage.Stage.Begin | tester/metrics/stage.go:43-55 | the whole new state; the first start is kept |
| MetricsStage.Stage.Retrying | tester/metrics/stage.go:59-63 | the attempt is no longer in flight and nothing else changes |
| MetricsStage.Stage.Finish | tester/metrics/stage.go:68-82 | one outcome, its latency if accepted, else its cause ("unknown" if empty), each counted once |
| MetricsStage.Stage.Skip | tester/metrics/stage.go:87-91 | one more item that will never be attempted |
| MetricsStage.Stage.Done | tester/metrics/stage.go:138 | done exactly when the ended items are the expected ones |
| MetricsStage.Stage.TotalTime | tester/metrics/stage.go:146-155 | never negative; it runs with the clock until the stage is done, and then is the time from the first start to the last outcome, whatever the clock says |
| UeSummaries.UeStates.SetState | tester/run/controller.go:485-489 | one state changes and the summary keeps equal to the per-state counts |
| UeSummaries.UeStates.AddsUp | tester/run/snapshot.go:72-83 | the fields sum to the number of UEs |
| UeSummaries.MovesOne | tester/run/snapshot.go:85-108 | moving a UE takes one off one count, adds one to the other, and leaves the rest |
| UeSummaries.Pick | tester/run/snapshot.go:186-200 | the page and total of exactly the gNBs asked for, for any offset and limit, and all gNBs counted by state |
| UeSummaries.WantedOnes | tester/run/snapshot.go:168-200 | a request for one state matches as many gNBs as are counted in it, all of them in it; one for none matches all |
| UeSummaries.PagesTile | tester/run/snapshot.go:172-200 | paging through shows every entry once, in order |
| Pipeline.InEveryState | tester/run/pipeline.go:42-80 | in every state of every run of a stage: UEs conserved, permits match attempts, starts paced |
| Pipeline.NeverAboveMaxInFlight | tester/run/pipeline.go:42-80 | never more attempts than MaxInFlight |
| Pipeline.DrainFindsTheRest | tester/run/pipeline.go:38-83 | after run has returned, drain finds exactly the UEs enqueued whose last attempt did not end them or that never ran, each as often as it was queued |
| Pipeline.WindowBound | tester/run/pipeline.go:49-63 | any window of length L has at most L/interval + 2 starts, even when the semaphore delays some |
| Pipeline.EverySecondStart | tester/run/pipeline.go:49-63 | two starts with one between them are at least an interval apart, even when the semaphore delays some |
| Pipeline.PromptIsSpaced | tester/run/pipeline.go:49-70 | a start made when its token was taken is followed by the next one an interval later or more, for stages and for runN2 |
| Pipeline.SpacedIfPrompt | tester/run/pipeline.go:49-70 | only such a start is: after any start that the semaphore held up, the run can go on with one less than an interval later |
| Pipeline.TwoAtOnce | tester/run/pipeline.go:49-70 | a run, for every interval, with two starts at the same instant: the bound of WindowBound is reached |
| Pipeline.RoundLeavesTheRest | tester/run/controller.go:970-1008 | after runN2 has returned, every gNB has its outcome or is left pending, at most one of them popped and dropped |
| RoundRobinQueue.RRQueue.Push | tester/run/rrqueue.go:33-47 | refines the abstract push, and leaves a signal |
| RoundRobinQueue.RRQueue.TryPop | tester/run/rrqueue.go:50-73 | refines the abstract pop, or finds the queue empty |
| RoundRobinQueue.RRQueue.Reclaim | tester/run/rrqueue.go:61-71 | reclaiming the ring changes nothing seen from outside and bounds its consumed front |
| RoundRobinQueue.RRQueue.Drain | tester/run/rrqueue.go:90-99 | empties the queue: the UEs in the order pops would give them |
| RoundRobinQueue.InOrder | tester/run/rrqueue.go:33-73 | UEs of one gNB leave in push order, whatever interleaves |
| RoundRobinQueue.Conserved | tester/run/rrqueue.go:33-99 | pushed UEs are those handed out and those still queued, as multisets |
| RoundRobinQueue.TakesTurns | tester/run/rrqueue.go:10-73 | while a gNB waits at place p only the gNBs ahead of it are served, each once and in order |
| RoundRobinQueue.ServedGoesLast | tester/run/rrqueue.go:50-73 | a served gNB with more UEs goes behind all the others |
| RoundRobinQueue.NoLostWakeup | tester/run/rrqueue.go:33-87 | with one consumer and any pushers: a blocked consumer of a non-empty queue has a signal there or on its way |
| HostAddresses.TakenOffAndPutBack | tester/netcfg/netcfg.go:28-30 | an address can be taken off and put back without loss if and only if it has no secondaries |
| HostAddresses.UndoAfterPlace | tester/run/addr.go:27-66 | undo right after a successful placeAddr gives the list back, or moves the replaced address to its end |
| HostAddresses.UndoRestores | tester/run/addr.go:55-66 | undo restores the address set if and only if the replaced address had no secondaries |
| HostAddresses.SecondaryLost | tester/run/addr.go:27-66 | a host that loses a secondary for good |
| HostAddresses.UndoAllRestores | tester/run/controller.go:741-766 | undoing all changes backwards gives back the list, but for the place of an address the sink replaced |
| HostAddresses.RemoveIPsRestores | tester/run/controller.go:741-766 | so removeIPs restores the host if and only if the sink replaced no address with secondaries |
| HostAddresses.SinkLaterLoses | tester/run/controller.go:642-682 | why the sink goes on first: later it would take a gNB's address away |
| HostNetwork.PlaceAddr | tester/run/addr.go:27-52 | every way placeAddr can end, with the host's list and the change it reports, for all failures of the three host calls |
| HostNetwork.Undo | tester/run/addr.go:55-66 | what is left on the host, whichever of the two calls fails; both are made |
| HostNetwork.ConfigureIPs | tester/run/controller.go:642-692 | the host is what it was with the recorded changes on top, the sink's first, and the pool's route if it was not there |
| HostNetwork.RemoveIPs | tester/run/controller.go:741-766 | every call is made whatever failed before: the host is undone from the last change back by those that did not fail, and by all of them when none does |
| HostNetwork.RunOnHost | tester/run/controller.go:560-570 | configuring and removing again restores the host's addresses and routes, also when configuring fails half way |
| ControllerHost.StepKeeps | tester/run/controller.go:217-261 | no step of a run or a ping test breaks the host's invariant |
| ControllerHost.QuietHostIsRestored | tester/run/ping.go:40-99 | after any sequence of runs, failures, stops and ping tests, the host has its own addresses, with the same ones primary, whenever no run is unfinished and no test active |
| ControllerHost.RunsExcludePings | tester/run/ping.go:40-75 | an unfinished run and an active ping test exclude each other |
| XdpRing.SlotWraps | tester/xdp/socket.go:43-75 | wrapping an index at 2^32 keeps its slot |
| XdpRing.SlotsApart | tester/xdp/socket.go:43-75 | indices less than a ring apart have different slots |
| XdpRing.Ring.Put | tester/xdp/socket.go:231-250 | a new entry overwrites none that is pending |
| XdpRing.Ring.Count | tester/xdp/socket.go:192-209 | producer minus consumer in 32-bit arithmetic is the number of pending entries |
| XdpRing.Ring.Advance | tester/xdp/socket.go:192-226 | consuming takes exactly the first entries |
| XdpSocket.RxSide.constructor | tester/xdp/socket.go:157-164 | at the start the kernel has every receive frame, wherever the indices start |
| XdpSocket.RxSide.Receive | tester/xdp/socket.go:192-209 | hands over the waiting frames in the kernel's order, each once and within its frame, and gives every one back |
| XdpSocket.RxSide.OnePlace | tester/xdp/socket.go:192-209 | each receive frame is in exactly one of fill ring, kernel, rx ring and handling |
| XdpSocket.TxSide.Reap | tester/xdp/socket.go:219-226 | takes back at least the completions that were there, in order |
| XdpSocket.TxSide.Queue | tester/xdp/socket.go:231-250 | succeeds whenever a frame is free or complete; stages one behind the others; a free frame means room in the tx ring |
| XdpSocket.TxSide.Flush | tester/xdp/socket.go:254-269 | publishes exactly what was queued, in order |
| XdpSocket.TxSide.OnePlace | tester/xdp/socket.go:219-269 | each transmit frame is in exactly one of free, queued, tx ring, kernel and completion ring |
| PacketCodec.HeaderRoundTrip | tester/dataplane/packet.go:42-66 | parseHeader gives back what putHeader wrote, whatever follows, if and only if the UE index is below 2^31 |
| PacketCodec.HeaderParsed | tester/dataplane/packet.go:54-66 | whatever parses is what putHeader would write |
| IpChecksum.ComputeChecksum | tester/dataplane/packet.go:109-118 | the two loops end and give the folded complement |
| IpChecksum.FoldKeeps | tester/dataplane/packet.go:114-117 | folding keeps the sum modulo 65535 and never makes a positive sum zero |
| IpChecksum.HeaderSumsToOnes | tester/dataplane/packet.go:90-118 | every written IPv4 header sums to 0xffff in ones' complement |
| IpChecksum.PutIPv4UDPHeader | tester/dataplane/packet.go:90-107 | the headers are written in place and nothing around them changes |
| Gtpu.NewUlTemplate | tester/dataplane/packet.go:73-81 | the template is the GTP-U, IPv4 and UDP headers over zeros |
| Gtpu.ReadGpdu | tester/dataplane/packet.go:125-150 | parseGpdu's loop ends and never reads past the packet |
| Gtpu.GpduRoundTrip | tester/dataplane/packet.go:125-150 | tunnel and inner packet are found behind any options and any well-formed chain of extension headers |
| Gtpu.UdpRoundTrip | tester/dataplane/packet.go:153-162 | udpPayload finds the payload behind the headers that putIPv4UDPHeader writes |
| Gtpu.ReceivedIsSent | tester/dataplane/packet.go:42-162 | the three decoders together give back tunnel, UE, direction, sequence number and time |
| Gtpu.UlPacketIsTemplate | tester/dataplane/packet.go:73-81 | an uplink slot is a fresh template but for the tester header |
| PacketBatch.NewMessage | tester/dataplane/engine.go:469-498 | a new message keeps the messages a partition of the slots in order |
| PacketBatch.GrowMessage | tester/dataplane/engine.go:469-498 | so does one more packet in the last message |
| PacketBatch.ArenaGrows | tester/dataplane/engine.go:436-498 | a reused slot holds exactly its new packet, and no other slot changes |
| PacketBatch.CutMessage | tester/dataplane/engine.go:683-688 | the reader's loop ends and cuts as specified |
| PacketBatch.CutGivesBack | tester/dataplane/engine.go:673-688 | cutting a coalesced message gives the packets back |
| PacketBatch.MessageBytes | tester/dataplane/engine.go:542-545 | a message's bytes are its slots' packets in order |
| PacketSender.Batcher.constructor | tester/dataplane/engine.go:436-463 | slot size and slots; a message holds as many packets as a datagram and the kernel allow, or one without GSO |
| PacketSender.Batcher.Add | tester/dataplane/engine.go:469-498 | the history grows by one packet of the flow with its next sequence number (modulo 2^32), whose slot is freshly built; numbers of all flows stay consecutive; it counts for its own gNB if and only if it opens a message or the last one is that gNB's |
| PacketSender.SharedTarget | tester/dataplane/engine.go:311-319 | two UEs of different gNBs with one downlink target: all bytes of both packets count for the first one's gNB |
| PacketSender.NewFlow | tester/dataplane/engine.go:311-322 | a flow's uplink headers are those of a fresh template, its downlink goes to its own address or to the target set |
| PacketSender.UplinkHistory | tester/dataplane/engine.go:355-397 | every uplink packet a sender ever adds is its UE's fresh template with a tester header, whoever had the slot before: for any flows newFlow makes, any order of turns and any flushes |
| PacketSender.Batcher.MessageIsItsPackets | tester/dataplane/engine.go:542-545 | what flush sends as a message, cut by the slot size as the reader does, is exactly that message's packets in order |
| PacketSender.Batcher.Flush | tester/dataplane/engine.go:542-570 | whatever the kernel answers it ends, every packet of the batch is counted once in order, and the arena is free |
| PacketSender.Batcher.SendAll | tester/dataplane/engine.go:548-565 | partial sends, refusals and errors: every message is counted once |
| PacketSender.Batcher.DropGSO | tester/dataplane/engine.go:523-536 | after a refusal the rest goes out packet by packet, each counted once |
| PacketSender.Batcher.Publish | tester/dataplane/stats.go:117-138 | publishing adds the batch's counts, also those it leaves out when zero, and clears them |
| PacketSender.Batcher.Totals | tester/dataplane/stats.go:95-138 | sent plus errors plus unflushed is all packets ever added; bytes per gNB sum to all bytes and are the sent packets' bytes |
| DirStats.AddGnbBytes | tester/dataplane/stats.go:225-231 | every gNB's traffic grows by what all workers counted for it |
| DirStats.TrafficAddsUp | tester/dataplane/stats.go:95-231 | a snapshot's traffic per gNB adds up to the direction's bytes, however many workers share them |
| Pacer.Sender.SendOne | tester/dataplane/engine.go:369-393 | one packet goes to the flow whose turn it is |
| Pacer.Sender.Tick | tester/dataplane/engine.go:355-397 | one tick follows the budget rule, and with a fixed list the round-robin order |
| Pacer.Fair | tester/dataplane/engine.go:373-393 | over any stretch of packets with a fixed list, two flows' counts differ by at most one run |
| Pacer.Sender.Pace | tester/dataplane/engine.go:355-397 | over any number of ticks with one list of different flows, however the packets fall on them, any two flows' packets differ by at most one run |
| Pacer.AtMostRate | tester/dataplane/engine.go:355-397 | in any window the bits sent are at most rate times time and one packet |
| Pacer.AtLeastRate | tester/dataplane/engine.go:355-397 | with flows and ticks at most 10 ms apart they are at least that less one packet |
| RxCounter.OwnPacket | tester/dataplane/engine.go:719-732 | a packet of this run is never taken for a foreign one or another UE's; downlink in the wrong tunnel or gNB is misrouted |
| RxCounter.OwnDownlink | tester/dataplane/engine.go:703-732 | the same for a downlink packet as the UPF encapsulates it |
| RxCounter.LastSeen.See | tester/dataplane/engine.go:735-748 | with other readers at work between its atomic steps the loop ends, and answers once, as of one moment |
| RxCounter.NoneLate | tester/dataplane/engine.go:739-748 | no packet counts as out of order if and only if the numbers came in rising order |
| RxCounter.Reader.Receive | tester/dataplane/engine.go:719-749 | exactly what is counted in each of the three cases, in which flow's cell, and what stays |
| RateCurve.Curve.Add | tester/run/ratecurve.go:24-41 | every finished point stays the exact average of its block of samples, through closing and halving |
| RateCurve.Curve.Halve | tester/dataplane/history.go:16-35 | halving in place doubles the width and keeps all points exact |
| RateCurve.Curve.Points | tester/run/ratecurve.go:43-52 | at most max points, each the average of its samples with the last one's time |
| RateCurve.AverageOfAverages | tester/dataplane/history.go:16-41 | the average of two neighbours is the average of both blocks |
| LatencyHistogram.BucketHolds | tester/metrics/histogram.go:26-41 | a sample's bucket bounds it on both sides within a factor 2^(1/16) |
| LatencyHistogram.Histogram.Record | tester/metrics/histogram.go:43-48 | the histogram is that of one more sample |
| LatencyHistogram.Histogram.Merge | tester/metrics/histogram.go:76-83 | merging gives the histogram of all samples, however they were split |
| LatencyHistogram.Histogram.Quantile | tester/metrics/histogram.go:50-66 | the loop stops at the bucket of the rank max(ceil(q n), 1); the result is its bound in whole nanoseconds, capped at the maximum |
| LatencyHistogram.QuantileIsClose | tester/metrics/histogram.go:36-66 | the quantile is never below the sample of that rank, although the bound is truncated to nanoseconds, and at most 2^(1/16) times it |
| LatencyHistogram.QuantileGrows | tester/metrics/histogram.go:52-66 | a higher rank never has a lower quantile |
| LatencyHistogram.RankGrows | tester/metrics/histogram.go:52-66 | nor a higher q a lower rank |
| LatencyHistogram.LastQuantile | tester/metrics/histogram.go:52-66 | the quantile at q = 1 is the maximum if and only if that is at most 2^40 us |
| LatencyHistogram.LongSample | tester/metrics/histogram.go:52-66 | a histogram of one longer sample whose quantile at q = 1 is below it |
| GoStrings.SplitJoin | tester/cpuset/cpuset.go:33-72 | splitting what was joined gives the parts back |
| CpuSets.ParseList | tester/cpuset/cpuset.go:26-54 | the loops parse as specified, errors included |
| CpuSets.Print | tester/cpuset/cpuset.go:57-72 | the loops print one part for each run of consecutive numbers |
| CpuSets.PrintedReadsBack | tester/cpuset/cpuset.go:26-72 | any list of CPU numbers, sorted or not, prints to a text that parses to the sorted list without duplicates |
| CpuSets.CanonOk | tester/cpuset/cpuset.go:51-53 | sorting and compacting keeps the elements and leaves them strictly increasing |
| CpuSets.ParsedIsCanonical | tester/cpuset/cpuset.go:26-54 | what parses is strictly increasing and below the largest CPU number |
| CpuSets.CanonicalIsStable | tester/cpuset/cpuset.go:205-209 | a canonical text stays as it is and says the same CPUs |
| CpuSets.Minus | tester/cpuset/cpuset.go:75-83 | exactly the elements not in the other, still sorted |
| CpuSets.Overlap | tester/cpuset/cpuset.go:86-94 | exactly the shared elements, still sorted |
| CpuSets.Check | tester/cpuset/cpuset.go:185-202 | no error if and only if both texts parse, name allowed CPUs only and share none; else exactly which errors, naming which CPUs |
| Increment.IncrementAdds | tester/profile/increment.go:13-39 | an increment adds to the number and keeps the width, and fails exactly when that does not fit |
| Increment.AllIncrements | tester/profile/increment.go:13-39 | if the last increment fits all of them do, and they are different |
| Increment.NamesDistinct | tester/profile/increment.go:42-44 | a pattern with "{i}" names different indexes differently |
| IpAlloc.AllocateIPs | tester/profile/ipalloc.go:12-61 | the first usable addresses from the start, or an error exactly when there are too few or the input is not valid |
| Expand.ExpandProfile | tester/profile/expand.go:64-140 | a plan exactly when addresses and increments suffice, with every gNB and UE as specified |
| Expand.Assign | tester/profile/expand.go:100-139 | the nested loops partition the UEs; the increments they do not check cannot fail |
| PlanProperties.AddressesDistinct | tester/profile/expand.go:71-89 | all N2 and N3 addresses are different, off core, host and CIDR edges, and the lowest such |
| PlanProperties.RangesAreShares | tester/profile/expand.go:109-138 | a gNB's range holds exactly its UEs |
| PlanProperties.SharesAddUp | tester/profile/expand.go:100-138 | UE counts sum to UeCount, control-plane counts to UeCount less Throughput |
| PlanProperties.CpCountsAreReal | tester/profile/expand.go:120-131 | a gNB's control-plane count is the number of such UEs it has |
| PlanProperties.GnbIdIs | tester/profile/expand.go:110-115 | gNB IDs count up from the first, in its width, in lower case |
| PlanProperties.NamesDiffer | tester/profile/expand.go:109-118 | names and gNB IDs are different |
| PlanProperties.SupisDiffer | tester/profile/expand.go:120-131 | MSINs and SUPIs are different |
| PlanProperties.PlanFitsRun | tester/run/controller.go:418-458 | the plan has as many traffic UEs as newRun sizes its stages for, each at a gNB of the plan |

## Left out

- RunTheorems.AlwaysSafe: the per-gNB Registered and Established numbers, the failures list (where a UE that fails PDU and then deregistration appears twice), causes and latencies of the run's stages are not in the run's state; `Stage` itself has causes and latencies.
- RunTheorems.StoppedCountsOnce: says nothing of StateFailed, where nothing was attempted; which UEs may be left established is in `run_links.dfy`.
- RunBound.StopEnds: takes every exchange with the core, every dial and every close to return; how long one takes is its own timeout's business.
- RunSafety.CpLoopKeeps: association errors are a free choice, and cpCycled is set also when the cycle's deregistration was not accepted, as in the code.
- RunSafety.DispatchKeeps: the run's machine leaves out pacing, the semaphore and the order of a queue; these are in `pipeline.dfy` and `rr_queue.dfy`.
- ControllerHost.StepKeeps: takes undo and put-back calls to succeed, and no address the sink or a ping replaces to have secondaries of the host's; `host_network.dfy` has the failures, and the route.
- LatencyHistogram.Histogram.Quantile: takes math.Exp2 and math.Log2 as exact; their rounding is not modelled, the truncation to nanoseconds is.
- LatencyHistogram.BucketHolds: uses 16th powers in place of logarithms.
- RateCurve.Curve.constructor: max is even, as both callers have it, and averages are exact reals.
- PacketSender.Batcher.Publish: counters are unbounded where the code has uint64.
- XdpSocket.RxSide.constructor: receiving and sending are two classes, since they share no ring and no frame.
- IpAlloc.AllocateIPs: addresses are numbers, so masks are quotients and lastAddr's bit operations a sum.
- Expand.ExpandProfile: takes the conclusions of validateFields as given, and says whether there is an error, not its texts.
- CpuSets.ParseList: errors carry no text, and a number beyond 64 bits is just a large one, which is refused as well.
- The sorted list of causes in a stage's snapshot.
- The dataplane's start and stop within a run, the setup-rate sampler, snapshots, reports, notification and logging.
- Memory order of atomics below the level of one atomic step, and fairness of the scheduler.
- NGAP and NAS messages, key derivation, SCTP, netlink, XDP program loading, neighbour resolution and other system calls, beyond the contracts their callers rely on.
- The HTTP API, the bench tool, configuration files, host statistics and the web console.
