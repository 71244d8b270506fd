# Verification of the mobile handover application

The repository approves and carries out handovers of mobile devices. One monitor per E2 node
turns each indication into a store entry, one per UE. The store tells every watcher about each
`Put` through goroutines, so events arrive in any order. The controller answers a new entry by
approving it. The sender of the entry's own node answers an approval with a control message and
marks the entry done. No handler uses the value in an event: each re-reads the current entry,
writes `State` into the shared value and puts it back. This project models that protocol and the
parts around it, and proves what they keep.

- **Handover protocol, atomic steps** (`HandoverTypes`, `Handover`, `HandoverCycle`): one loop
  iteration of a monitor, the controller or a sender per step, any number of UEs and nodes, any
  delivery order. End-to-end agreement at rest, the documented entry state machine, one control
  attempt per target change.
- **Handover protocol, interleaved** (`Interleaving`, `NoStuckHandover`, `HandoverCounts`,
  `Quiescence`, `PutRace`, `TargetLost`, `TargetMet`, `LookupRace`, `RaceRuns`): every `Get`,
  control attempt, write of `State` and `Put` is a step of its own, values live on a heap and are
  shared. Store safety, provenance of control, no stuck handover, conservation laws, the bound on
  event deliveries and termination hold in every interleaving. End-to-end agreement does not.
  `PutRace` proves it for disciplined runs, in which a UE is never in two monitors at once and no
  monitor puts its entry while a handler holds it. For the first step that may break this
  discipline, `PutRace` (a put) and `LookupRace` (a look-up) prove exactly when the promise still
  holds. `RaceRuns` has a failing run for each of the two ways.
- **Refinement** (`HandoverRefinement`): every atomic run is an interleaved run with the same
  store and logs, so the interleaved theorems carry over.
- **The code as objects** (`MhoStore`, `HandoverHandlers`): store, watchers, controller, sender
  and monitor as classes whose methods write shared values in place, each proved to carry out the
  decision that the protocol model makes.
- **Indication stream and broker** (`BufferedStream`, `IndicationForwarder`, `Broker`), and
  **the whole path** (`EndToEnd`): pipelines and atomic protocol together, from the arrival of an
  indication to the control attempt.
- **Store key** (`UeKey`), **RAN parameter trees** (`RanParam`), **listings** (`Northbound`).

`Wrappers` holds the option and result types, `Decimals` the decimal printer.

## Where the code and its documentation differ

The model follows the code.

- `pkg/broker/broker.go:42-45` promises a graceful close, and `pkg/broker/stream.go:28` promises
  `io.EOF` from a closed stream. `Close` sets a flag without signalling the condition variable, so
  a stream that is closed while its drain goroutine is parked never yields EOF. That is the state
  of every idle stream. All accepted indications have been received by then; only EOF is missing.
  `BufferedStream.CloseReachesEOFIff` gives the exact condition, `BufferedStream.IdleThenClosed` a
  run.
- `pkg/broker/broker.go:37-38` promises the existing stream for a known subscription. `OpenReader`
  looks up under one lock and creates under another without looking again, so two callers can
  both create. No later `CloseStream` can then close the first stream.
  `Broker.MutualIff` gives the exact condition, `Broker.RaceLeavesOrphan` a run.
- The entry state machine of `pkg/store/types.go:66-91` has states Waiting and Denied. Nothing in
  the code enters them: edges (b) and (c) are one put, and edges (g), (h) and (i) and the edge (f)
  out of Waiting and Denied are never taken. Edge (d) asks for a successful control message; the
  sender takes it whatever `node.Control` returns.
- Handlers and monitors call `Get`, `HasEntry` and `Put` under separate locks, so the target of a
  UE's last indication can be lost in two ways. A handler that has read an entry can put it back
  after a monitor has replaced it: `PutRace.PutRaceExact` gives the exact condition,
  `RaceRuns.AgreementCanFail` a run. Two monitors can put in the opposite order of their
  indications: `LookupRace.LookupRaceExact` gives the exact condition, which covers both ways,
  `RaceRuns.OpposedPutsCanFail` a run. Both runs exist for any UE and any two different targets.
- `RemoveWatcher` files every remaining watcher under the removed ID, so at most one survives.
  `MhoStore.RemovalKeepsOthersIff` says when that is all of them, and
  `MhoStore.TwoRemovalsLeaveNothing` that removing the survivor as well leaves none at all.

## Model

| member | source | states |
|---|---|---|
| Handover.EndToEndAgreement | pkg/southbound/e2/manager.go:266-306 | In every reachable state with no event in flight, a UE has an entry iff it was ever indicated; the entry is Done, carries the last accepted indication, and the last control attempt for the UE names the target cell of the last indication processed for it; the indications processed are those of the run's steps, in order |
| Handover.StepKeepsInv | pkg/controller/mho.go:37-64 | Each indication processed and each delivery, in any order, keeps the invariant that ties every entry's state to the logs and to the event it waits for |
| Handover.RunKeepsInv | pkg/controller/mho.go:37-64 | The same invariant over every finite run |
| Handover.NoPanicNoDenial | pkg/southbound/e2/manager.go:267-273 | The handlers' unchecked use of `Get` never meets a missing entry, and no entry is ever Waiting or Denied |
| Handover.AcceptedEndsAtLastTarget | pkg/monitoring/monitor.go:103-145 | Ignoring repeated targets loses nothing: the last accepted indication of a UE has the target of the last indication of that UE |
| HandoverCycle.SpacedRunOnCycle | pkg/store/types.go:66-91 | If a UE's indications are spaced, its entry, its puts, its control attempts and its events in flight stay on the documented cycle, whatever the other UEs do |
| HandoverCycle.SpacedRunRefinesDocumentedMachine | pkg/store/types.go:66-91 | From the empty store, the puts of a spaced UE repeat StateCreated, Approved, Done, and once quiet there is exactly one round and one control attempt, in order, per new or changed target |
| HandoverCycle.RepeatedTargetIsIgnored | pkg/monitoring/monitor.go:119-131 | Edge (e): in every state of the protocol, an indication repeating the target of a Done entry changes nothing but the log and is not an accepted one |
| HandoverCycle.DeniedIsRetriggered | pkg/monitoring/monitor.go:122-128 | Edges (h) and (i), which no run reaches: repeating the target of a Denied entry alerts the controller, whose handling approves it and tells every watcher |
| HandoverTypes.FanOut | pkg/store/watcher.go:36-44 | A `Put` sets exactly one copy of its event on its way to each watcher and none to anyone else |
| Interleaving.StepKeepsInv | pkg/controller/mho.go:37-64 | Every single store call, control attempt or state write keeps the structural invariant of heap, records, events, handlers and monitors |
| Interleaving.RunKeepsInv | pkg/controller/mho.go:37-64 | That invariant over every interleaving, and: no run removes an entry, forgets an indication or changes any field of a stored value but its state |
| Interleaving.ControlProvenance | pkg/southbound/e2/manager.go:273-301 | Every control attempt sent to a node carries UE ID, target cell and call process ID of one single indication that the node's monitor looked up in that run |
| Interleaving.StoreSafety | pkg/store/store.go:79-114 | Keys never disappear, the value under a key renders to it and is never Waiting or Denied, every event in flight names a present key, approvals are typed Updated, no handler panics |
| NoStuckHandover.NoHandoverIsStuck | pkg/controller/mho.go:38-62 | An entry in StateCreated has its request in flight to the controller or in its hands; one in Approved has its approval in flight to the sender of the entry's own node or in its hands |
| NoStuckHandover.RestMeansDone | pkg/southbound/e2/manager.go:267-305 | In every interleaving, whenever nothing is in flight or under way, every entry is Done |
| HandoverCounts.Conservation | pkg/controller/mho.go:46-58 | For each UE approvals, pending requests and the request in hand add up to the StateCreated puts; control attempts to a node never exceed approvals and with one node only account for all of them; each key gets exactly one Created event |
| Quiescence.DeliveryBound | pkg/store/watcher.go:36-44 | With N senders and the controller, any run with I look-ups of indications among its steps has at most I(N+1)(N+2) event deliveries among them; the logs are those steps |
| Quiescence.StepRank | pkg/southbound/e2/manager.go:274-305 | Every step other than a new indication lowers a natural-number rank |
| Quiescence.InternalRunBound | pkg/southbound/e2/manager.go:274-305 | Without new indications no run is longer than the rank of its first state |
| Quiescence.CanStep | pkg/store/store.go:79-105 | A system that is not at rest has an internal step it can take |
| Quiescence.ComesToRest | pkg/controller/mho.go:46-62 | From every state satisfying the invariant, internal steps lead to rest |
| PutRace.DisciplinedRunAgrees | pkg/monitoring/monitor.go:103-145 | In every interleaving in which a UE is never in two monitors at once and no monitor puts its entry while a handler holds it, entry, last control attempt and last indication agree at rest |
| PutRace.PutRaceExact | pkg/monitoring/monitor.go:118-141 | After a disciplined run, every way of coming to rest after a monitor's put agrees if and only if no handler holds the UE's entry at the put; and the same for naming the last target alone |
| TargetLost.StaleLoses | pkg/controller/mho.go:40-58 | A handler that holds a value without the last target can lose that target, whatever up to two busy monitors still put |
| TargetLost.ContendedLoses | pkg/controller/mho.go:37-58 | So can an event on its way that makes a handler act on the entry, while the entry has another target |
| TargetLost.ReleasedRivalLoses | pkg/monitoring/monitor.go:103-141 | So can a second monitor that may yet put another target |
| TargetMet.CourseIsMet | pkg/monitoring/monitor.go:103-145 | However many monitors are busy with the UE: if all that can still be put for it has the target, and the entry has it or no handler is in the way, every way of coming to rest meets it |
| LookupRace.LookupRaceExact | pkg/monitoring/monitor.go:103-145 | After a disciplined run and the look-up of any further indication of the UE, every way of coming to rest has entry and last control attempt name its target if and only if no other monitor may yet put another target, and the entry has the target already or no handler holds or is about to hold it |
| RaceRuns.AgreementCanFail | pkg/controller/mho.go:40-58 | For every UE, node and two different targets: a run whose log is the two indications comes to rest with a Done entry and a last control attempt that name the first target |
| RaceRuns.OpposedPutsCanFail | pkg/monitoring/monitor.go:103-141 | The same from two nodes, with no handler involved: both monitors find no entry and put in the opposite order |
| HandoverRefinement.StepSimulated | pkg/controller/mho.go:37-64 | One atomic step is matched by the sequence of single store calls of that loop iteration |
| HandoverRefinement.AtomicRunIsInterleaving | pkg/southbound/e2/manager.go:266-306 | Every atomic run is an interleaved run that ends with the same records, events in flight and logs and with all handlers idle |
| HandoverRefinement.AtomicDeliveryBound | pkg/store/watcher.go:36-44 | The I(N+1)(N+2) bound for the atomic protocol |
| HandoverRefinement.AtomicConservation | pkg/monitoring/monitor.go:109-141 | For each UE approvals plus pending requests equal the new or changed targets; controls plus pending approvals at a node never exceed approvals; with one node, controls + pending approvals + pending requests = new or changed targets |
| MhoStore.Watchers.Send | pkg/store/watcher.go:36-44 | The loop over the watchers adds exactly the fan-out of the event to what is in flight |
| MhoStore.Watchers.AddWatcher | pkg/store/watcher.go:47-57 | Registers the channel together with its ID, under that ID; a new channel keeps the watchers distinct |
| MhoStore.Watchers.RemoveWatcher | pkg/store/watcher.go:60-73 | What the loop leaves: nothing, or one of the watchers whose own ID is another, under the removed ID |
| MhoStore.RemovalKeepsOthersIff | pkg/store/watcher.go:60-73 | Removal keeps the channels of the watchers with another ID of their own if and only if there is at most one |
| MhoStore.TwoRemovalsLeaveNothing | pkg/store/watcher.go:60-73 | From two or more watchers, removing one and then the survivor, by its own ID, leaves none |
| MhoStore.Store.Put | pkg/store/store.go:79-105 | Replaces the record of one key and no other, and emits Created exactly if the key was absent, Updated otherwise, with the caller's state, to every watcher |
| MhoStore.Store.Entries | pkg/store/store.go:58-68 | Every record is sent exactly once |
| MhoStore.Store.Watch | pkg/store/store.go:125-142 | A new channel joins the watchers, the others stay |
| MhoStore.Store.Unwatch | pkg/store/store.go:133-140 | What the goroutine of `Watch` does when the context is cancelled: the removal above |
| HandoverHandlers.StateWrite | pkg/controller/mho.go:57-58 | Writing the state of the shared value changes the entry of its own key and no other |
| HandoverHandlers.MarkAndPut | pkg/controller/mho.go:57-58 | In-place write and put together are one protocol `PutValue` on the store |
| HandoverHandlers.MHOController.HandleEvent | pkg/controller/mho.go:38-63 | One iteration approves the entry and announces it to every watcher exactly on Created or Updated events with StateCreated or Denied, changes nothing else, and is the decision of the protocol model |
| HandoverHandlers.MHOController.ControlHandover | pkg/controller/mho.go:30-65 | The loop over its channel has the effect of the controller's decisions in order |
| HandoverHandlers.Manager.HandleChange | pkg/southbound/e2/manager.go:267-305 | One iteration acts exactly on Updated events with Approved for an entry of its own node: one attempt with that entry's UE ID, target cell and call process ID, entry Done, one event to every watcher; and is the decision of the protocol model |
| HandoverHandlers.Manager.WatchMHOChanges | pkg/southbound/e2/manager.go:258-308 | The loop over its channel has the effect of the sender's decisions in order, and its control attempts are exactly those of the entries acted on |
| HandoverHandlers.LoopIsRun | pkg/controller/mho.go:37-64 | What the loops of controller and senders do with a sequence of events is the run of the protocol that makes just these deliveries in this order: same store, same events in flight, the same control attempts one by one |
| HandoverHandlers.AttemptsNameTheirTarget | pkg/southbound/e2/manager.go:275-293 | Every attempt comes from some approval among the events, goes to the sender's node, and carries UE ID, target cell and call process ID of the entry as the store held it at that event; a built message names that target where the monitor would read it |
| HandoverHandlers.Monitor.PutFresh | pkg/monitoring/monitor.go:111-118 | A new value with the fields of the indication is allocated and put as StateCreated |
| HandoverHandlers.Monitor.PutAgain | pkg/monitoring/monitor.go:122-128 | A denied entry is put again unchanged, as Denied |
| HandoverHandlers.Monitor.ProcessInsertIndication | pkg/monitoring/monitor.go:56-150 | A new or changed target puts a value with the fields of the message as StateCreated, a denied entry with the same target is put again as Denied, anything else changes nothing; other UE ID types are refused without touching the store |
| BufferedStream.BufferedWriter.Send | pkg/broker/stream.go:186-198 | EOF if closed, Unavailable if 10000 are buffered, both without effect; otherwise appended and the drain goroutine woken |
| BufferedStream.BufferedWriter.Next | pkg/broker/stream.go:171-183 | Takes the oldest indication, ends if closed and empty, parks if open and empty |
| BufferedStream.BufferedWriter.Drain | pkg/broker/stream.go:159-168 | Undisturbed, passes on the whole buffer in order, then closes the channel if closed and parks otherwise |
| BufferedStream.StepKeepsInv | pkg/broker/stream.go:159-205 | Each step of a sender, closer, the drain goroutine or a reader keeps: received, held and buffered together are the accepted sends in order; the buffer is bounded; parked implies empty; finished implies closed and empty |
| BufferedStream.RunKeepsInv | pkg/broker/stream.go:124-205 | First in first out, conservation, a bounded buffer and no lost wake-up in every interleaving; what was accepted or received stays so |
| BufferedStream.EOFIsTheEnd | pkg/broker/stream.go:124-134 | `Recv` returns EOF only when the stream is closed and everything accepted has been received |
| BufferedStream.OutstandingIsOffered | pkg/broker/stream.go:171-198 | While an accepted indication is outstanding, the drain goroutine can run or offers the oldest one |
| BufferedStream.ClosesGracefully | pkg/broker/stream.go:159-205 | Closed while not parked: exactly `Remaining` drain and receive steps are left, one is always possible until none are, then everything accepted was received and EOF is returned |
| BufferedStream.CloseReachesEOFIff | pkg/broker/stream.go:200-205 | After `Close`, EOF can be reached if and only if the drain goroutine was not parked; if it was, nothing but EOF is missing |
| BufferedStream.ParkedAndClosedIsStuck | pkg/broker/stream.go:171-205 | A stream that is parked and closed never changes again |
| BufferedStream.IdleThenClosed | pkg/broker/stream.go:171-205 | A run to that state: one indication sent and received, the stream idle, then closed; no reader ever gets EOF |
| IndicationForwarder.SendIndicationOnStream | pkg/southbound/e2/manager.go:105-119 | Buffers a gap-free prefix of what arrived, stops early only if the stream is closed or full, forwards nothing without a stream |
| IndicationForwarder.PipeRunKeepsInv | pkg/southbound/e2/manager.go:105-119 | In every interleaving the accepted indications are the forwarded prefix of the arrived ones, and a stopped forwarder stays stopped |
| IndicationForwarder.ReceivedIsPrefixOfArrived | pkg/southbound/e2/manager.go:105-119 | Received ≤ accepted ≤ arrived as prefixes, arrived is what the steps put on the channel, and it is received, held, buffered or not yet forwarded, in this order |
| IndicationForwarder.RefusalIsFinal | pkg/southbound/e2/manager.go:112-118 | The forwarder stops exactly if the stream is closed or full, and then neither the refused indication nor a later one is ever received |
| EndToEnd.AppRunKeepsInv | pkg/monitoring/monitor.go:158-173 | With one pipeline per node in front of the protocol: what a monitor has processed is, in order, what its stream delivered, and the invariants of both hold |
| EndToEnd.ProcessedIsReceived | pkg/monitoring/monitor.go:56-150 | In every reachable state the log entries of a node are, one by one, the reports its monitor received: same UE ID, target cell and call process ID, and that node |
| EndToEnd.LastArrivalIsCarried | pkg/monitoring/monitor.go:158-173 | Once all that arrived is received and no event is in flight: every UE that any node reported is Done, and its entry and last control attempt name the target cell of the last report of it that arrived from some node; other UEs have no entry |
| EndToEnd.OneNodeIsCarried | pkg/southbound/e2/manager.go:105-119 | For a UE reported by one node only: the last control attempt names the target cell of its last arrived report |
| Broker.StreamBroker.OpenReader | pkg/broker/broker.go:70-88 | Undisturbed: the existing stream of a known channel, otherwise a fresh one under the next ID, and both tables stay inverse to each other |
| Broker.StreamBroker.Create | pkg/broker/broker.go:78-87 | The half under the write lock files the new stream in both tables, over whatever the channel had |
| Broker.StreamBroker.CloseStream | pkg/broker/broker.go:90-109 | NotFound, or nothing changes if unsubscribing fails, or the stream leaves both tables and is closed, and no other stream is touched |
| Broker.CreateKeepsMutualIff | pkg/broker/broker.go:78-87 | Creating keeps the tables inverse if and only if the channel has no stream at that moment |
| Broker.CloseKeepsMutual | pkg/broker/broker.go:90-109 | Closing keeps the tables inverse |
| Broker.RunKeepsInv | pkg/broker/broker.go:70-119 | With `OpenReader` split between its locks: the i-th stream created has ID i and is open or closed, every channel's stream is filed under its own two IDs |
| Broker.CloseIsAllOrNothing | pkg/broker/broker.go:90-109 | `CloseStream` changes nothing for an unknown channel or if unsubscribing fails; otherwise exactly the channel's stream leaves both tables and is closed |
| Broker.WriterUntilClosed | pkg/broker/broker.go:111-119 | Under every interleaving, `GetWriter` on a returned reader's ID finds that reader's stream if and only if `CloseStream` has not closed it, and no two returned streams share an ID |
| Broker.ClosedForGood | pkg/broker/broker.go:90-109 | The ID of a closed stream is never issued again |
| Broker.OrphanEscapesCloseStream | pkg/broker/broker.go:90-109 | No call of `CloseStream` ever closes a stream its channel no longer leads to |
| Broker.MutualIff | pkg/broker/broker.go:70-88 | After any run the tables are inverse if and only if no caller of the run created a stream for a channel that had one by then |
| Broker.RaceLeavesOrphan | pkg/broker/broker.go:70-88 | Two callers that both look before either creates leave such a stream, whatever calls of these three operations follow |
| Broker.UninterruptedOpen | pkg/broker/broker.go:70-88 | An uninterrupted look-up and creation is the atomic `OpenReader` and keeps the tables inverse |
| UeKey.BytesToUint64 | pkg/utils/id/id.go:23-29 | The shift-and-add loop computes the big-endian value modulo 2^64, for any length |
| UeKey.FoldIsLast8 | pkg/utils/id/id.go:23-29 | The result is the exact value of the last eight bytes |
| UeKey.FoldEqualIff | pkg/utils/id/id.go:23-29 | Two byte fields fold to the same number iff their last eight bytes, zero-extended, are the same |
| UeKey.FoldExactAndInjective | pkg/utils/id/id.go:23-29 | Up to eight bytes the fold is exact, and injective on equal lengths |
| UeKey.HexRoundTrip | pkg/utils/id/id.go:19-20 | Reading the printed hexadecimal digits gives the number back |
| UeKey.HexIsCanonical | pkg/utils/id/id.go:19-20 | The digits are lower case and have no leading zero |
| UeKey.ParseRender | pkg/utils/id/id.go:19-20 | For any labels and signed numbers, a parser recovers the numbers from the rendered string |
| UeKey.KeyText | pkg/utils/id/id.go:12-21 | The key is the five labels in order, each followed by the hexadecimal value of the last eight bytes of its field, or the AMF UE NGAP ID, separated by slashes |
| UeKey.KeyRoundTrip | pkg/utils/id/id.go:12-21 | Parsing the key under the five labels gives, label by label, the values of the last eight bytes of the GUAMI fields and the AMF UE NGAP ID |
| UeKey.KeyEqualIff | pkg/utils/id/id.go:12-21 | Keys are equal iff every GUAMI field agrees on its last eight bytes, zero-extended, and the AMF UE NGAP IDs are equal |
| UeKey.KeyIdentifiesUe | pkg/utils/id/id.go:12-21 | With the field widths of section 2.10.1 of 3GPP TS 23.003, keys are equal iff the identities are |
| RanParam.SearchIsFirstMatch | pkg/utils/ranparam/parser.go:12-28 | The search returns the value of the first item in preorder with the wanted ID, and NotFound with that ID iff there is none |
| RanParam.FixedPathIsThirdInPreorder | pkg/monitoring/monitor.go:82-85 | The hard-coded path reads the third item in preorder, which is the first NR CGI iff the leftmost chain has it at its third level and not above |
| RanParam.FixedPathReads | pkg/monitoring/monitor.go:82-85 | The read is the printable string at the end of the path, and empty for any other kind of value there |
| RanParam.FixedPathIsSearch | pkg/monitoring/monitor.go:81-97 | On every such tree the hard-coded read equals the search for the NR CGI, whatever the rest of the tree holds |
| RanParam.BuilderRoundTrip | pkg/utils/control/control.go:34-102 | From every message the builder returns, both the hard-coded read and the search give back the target cell; the message is the one chain of the parameters 1, 2, 3 and 4 |
| Northbound.Server.GetUes | pkg/northbound/mho.go:48-78 | Lists each gNB UE of the store exactly once and nothing else: its NGAP ID as a signed decimal that reads back, the name of its state, its target cell |
| Decimals.DecimalIntReads | pkg/northbound/mho.go:62 | The printed NGAP ID is the shortest signed decimal that reads as the number |
| Northbound.Server.GetCells | pkg/northbound/mho.go:80-115 | Lists each targeted cell exactly once with the number of gNB UEs that target it |
| Northbound.CellsOf | pkg/northbound/mho.go:103-110 | The loop over the counters lists each of them once |
| Northbound.ListingsAgree | pkg/northbound/mho.go:48-115 | Over the same contents each listed cell counts the listed UEs with its CGI, and the counts sum to the length of the UE list |
| Northbound.ReachableStoresAreListed | pkg/northbound/mho.go:58-61 | At every moment of every interleaving the UE list of the store is as long as the store: no entry is skipped |
| Northbound.AtomicStoresAreListed | pkg/northbound/mho.go:58-61 | The same for the atomic protocol |

## Left out

- End-to-end agreement for unrestricted interleavings: it is false. The exact conditions are proved at the first step that may leave the discipline; for runs that go on after such a step nothing is claimed.
- LookupRace.LookupRaceExact: is about the targets that entry and last control attempt name. That the attempt is the very one of the entry, as in `PutRace.PutRaceExact`, is not part of it: two monitors may put two values with the same target.
- EndToEnd.LastArrivalIsCarried: uses the atomic protocol, and does not order arrivals from different nodes, as the code does not.
- The success of `node.Control`: the sender marks the entry done even after an error, so only control attempts are logged.
- E2 subscriptions, topology watching, RNIB queries, gRPC serving, protobuf encoding and the `pdubuilder` library: a decoded indication is a value, and the validator and marshaller of control messages are one predicate parameter. A control header is not modelled; its failure, like that of the message, does not stop the attempt.
- Missing protobuf parts: the lists the monitor indexes with `[0]` are required to be non-empty and a RAN parameter to have its ID; the source panics otherwise.
- HandoverHandlers.MHOController.HandleEvent: requires a present key for the event types it reads, because the source dereferences a nil entry otherwise; `Interleaving.StoreSafety` shows that this never happens.
- HandoverHandlers.Manager.HandleChange: requires a present key in the same way.
- HandoverHandlers.MHOController.ControlHandover: processes its events undisturbed; the interleaved protocol is the value model of `Interleaving`.
- HandoverHandlers.Manager.WatchMHOChanges: processes its events undisturbed, as above.
- BufferedStream.BufferedWriter.Drain: runs undisturbed; the interleaved stream is the value model in the same module.
- MhoStore.Watchers.Send: the spawned goroutine sends to one watcher after another and reads the watcher map without a lock; the model sets all copies in flight at once, which allows more delivery orders, and keeps the watchers fixed during a run.
- Watcher removal, context cancellation and reconnecting nodes with a second watcher during a run; removal is modelled on the store alone.
- Data races on `State`: a write or read of the field is one step, as if atomic.
- `Store.Delete` (never called by the protocol), `ChannelIDs` and `E2NodeIDs` (they return leading zero values), the broker-wide `Close`, and the monitor goroutine after a `Recv` error or a second processing error, when it blocks on its error channel.
- Stream IDs and watcher IDs are unbounded numbers; the wrap-around of a Go `int` counter and UUID collisions are not modelled.
- The error texts, logging, configuration getters, option builders, the subscription builder and `cmd`: thin wrappers.
- The event's own copy of the entry, which no handler reads.
