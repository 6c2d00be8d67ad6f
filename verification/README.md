# APRScaching: the engines that must not lose, repeat or overrun

A Dafny model of the small stateful engines around the APRScaching gateway: the queues between the radio
transports and the gateway, the browser history protocol of the web app, the controls that decide when a station
may transmit, the codecs that cut byte streams into frames, and the cursors of the federation pull.

Each module takes one component. Its state is a value, its steps are functions on that value, and what happens
outside (answers of a gateway, arrivals during an `await`, the clock, the user, a signal) is an argument of the step.
Statements are about every run: every sequence of steps, every answer, every cutting of a stream. Beside the
functions stands a class (or a method with the loop of the source) whose contract ties it to them, so that what is
proved about the functions holds of the code's own form.

| module | file | component |
|---|---|---|
| `DeliveryQueue` | `Delivery.dfy` | the bounded delivery queue with its split-and-retry of refused batches |
| `ViewQueries`, `ViewHistories` | `ViewQuery.dfy`, `ViewHistory.dfy` | the view's query parameters, and the history sync over the browser's back() |
| `Buckets`, `TxLimit` | `TokenBucket.dfy`, `TxLimit.dfy` | the token bucket that paces unattended transmits |
| `SoundcardTx` | `Soundcard.dfy` | the soundcard port's transmit queue, duty cycle and gate |
| `Station` | `Station.dfy` | the soundcard port asking the call verifier |
| `BoxPolling` | `BoxPoll.dfy` | remote commands: gates, repeats, acks |
| `CallGate` | `CallVerify.dfy` | the calls the gateway confirmed, and for how long |
| `MqttCodec` | `Mqtt.dfy` | MQTT 3.1.1 packets, printed and split |
| `Lines` | `LineBuffer.dfy` | the line splitter |
| `JsonObjects` | `JsonSplitter.dfy` | the JSON object splitter |
| `KissBridge` | `KissBridge.dfy` | the KISS deframer, its gate and the client-to-radio loop |
| `DirewolfBuffers` | `Direwolf.dfy` | the record buffer of received frames and the transmit audio |
| `LogQueues` | `LogQueue.dfy` | the service worker's offline log queue |
| `FedSync`, `FedLink` | `FedSync.dfy`, `FedLink.dfy` | the federation pull of one feed, its schedule and its sessions |
| `PortHealth` | `PortHealth.dfy` | per-port counters and the 60-second rate |
| `UsbPtt` | `UsbPtt.dfy` | the keying helper and its watchdog |
| `Common`, `Arithmetic` | `Common.dfy`, `Arithmetic.dfy` | shared definitions; quotient and remainder by repeated subtraction |

Packets, frames and logs carry an arrival number that the code never reads; it stands for the object's identity, so
that "in order", "once" and "lost" can be said. Fractions and clocks are reals.

## Results worth knowing

- Isolating `b` refused packets among `n` never costs more than `b * ceil(log2 n)` splits (`PoisonIsolated`). So a
  whole flush whose queue holds `b` bad packets, with `b * ceil(log2 maxBatch)` at most 16, refuses none but those and
  delivers none of them, whatever good packets arrive meanwhile (`FlushIsolatesPoison`); what the cap drops is apart.
- The history protocol keeps its invariant at every event but one: a `back()` that lands while nothing is mounted
  leaves `backPending` set, and the next close then waits although no back() is under way (`StepKeepsInvIff`,
  `UnattendedLandingSticks`). It waits until any pop lands on a mounted instance, the user's own back or forward
  included: that restores the invariant, and nothing else does (`StaleUntilAPopLands`, `EveryRunInvOrStale`).
- A call configured with a zero SSID or a repeated mark is confirmed under one key and asked for under another. For
  any list of configured calls, all just confirmed, a frame may go out exactly when every key it goes out under is
  the key some configured call is confirmed under (`JustConfirmedIsAllowedIff`). A station whose one call is "A-0"
  never transmits (`ZeroSsidStaysRefused`); one that lists "A" beside it does (`ZeroSsidBesideItsCallIsAllowed`).
- The JSON splitter restarts clean after an overflow exactly when that leaves no escape open: inside a string, unless
  the overflowing character opens one; outside, unless one was left over from an overflow before
  (`OverflowIsCleanIff`). Over-long texts bring a fresh splitter there and keep it there (`OverflowLeavesEscape`,
  `PlainOverflowStaysStuck`), and then a whole object is lost (`LeftoverEscapeLosesObject`).
- The soundcard port can strand frames: one queued after the drain loop ended and before its promise is cleared starts
  no drain of its own (`StrandsIff`), and waits until the next send (`StrandedUntilASend`).
- The offline queue loses a log exactly when it is queued during a flush under the time and cache of a log that
  flush read (`LosesIff`; `LogLostToItsKey` is such a run). So none is lost while no two share time and cache
  (`NothingLostIfKeysDiffer`).
- The federation cursor's time never goes back; its tie-breaker does, under one condition (`CursorGoesBackIff`),
  met even over the repository's own pages (`CursorGoesBack`), and nothing is skipped either way (`NothingSkipped`).
- Two port-health reports in flight at once, both committed, count frames twice (`OverlappingReportsCountTwice`). A
  commit keeps the balance exactly when its report still carries what counts as sent (`CommitBalancesIff`), and a
  run is balanced throughout exactly when every commit of it is of that kind (`BalancedThroughoutIff`).
- The keying helper's watchdog waits for a quiet input: past the deadline it goes on reading while there is anything
  to read, so input that keeps coming without a newline holds the key for any length of time (`DripHoldsKey`, one
  byte a second). Without a complete line the key is left alone exactly as long as no look fails or finds the input
  quiet at or past the deadline (`KeyStandsIff`).
- A keyed line has no deadline only after an unkey that failed (`KeyedMeansArmedOrOut`), and then nothing ends it but
  a command or the way out (`FailedUnkeyDisarms`). The line buffer may hold more than the 256 characters its comment
  suggests: what follows a newline in one read is kept whole, up to 1023 (`BufferIsBounded`).
- The KISS gate's size limit of 330 bytes is for the frame without its command byte; with it, 331 pass.

## Model

| member | source | states |
|---|---|---|
| DeliveryQueue.NothingLostOrReordered | apps/ingest/src/deliver.ts:54-132 | over every run of adds, flushes, arrivals during POSTs and replies: everything added is accepted, in flight, queued, or dropped and counted; accepted, in flight and queued are together in arrival order without repeats; the queue keeps its bound; at most one POST is unanswered, none empty or over the batch size |
| DeliveryQueue.EveryRunSound | apps/ingest/src/deliver.ts:54-132 | conservation, order, bound and POST accounting survive any events from any state that has them |
| DeliveryQueue.SendKeeps | apps/ingest/src/deliver.ts:90-114 | whatever invariant survives one POST's arrivals and reply survives a whole recursive split, with the unsent part counted as in flight |
| DeliveryQueue.SendHolds | apps/ingest/src/deliver.ts:90-114 | a send gives back nothing or a non-empty suffix of its chunk |
| DeliveryQueue.SendPostCount | apps/ingest/src/deliver.ts:90-114 | a send costs one POST plus two per split it used |
| DeliveryQueue.FlushPostBound | apps/ingest/src/deliver.ts:74-84 | one flush makes at most one POST per chunk it took plus twice 16, whatever the gateway answers |
| DeliveryQueue.RunStopsAtFirstLater | apps/ingest/src/deliver.ts:74-104 | a run goes on past refusals and stops at the first reply that promises nothing; if it ends with packets queued it met one |
| DeliveryQueue.FlushSettlesByReplies | apps/ingest/src/deliver.ts:15-114 | what one flush accepts and drops as refused, packet for packet and in order, is what its POSTs and replies alone say: a body answered ok is accepted; one answered 400, 413 or 422 is dropped if it is a single packet or 16 larger ones were refused before it in this flush, else split; any other reply settles nothing |
| DeliveryQueue.RefusedOnlyWhenAnsweredSo | apps/ingest/src/deliver.ts:90-108 | over every run: each accepted packet was in a POST answered ok, each refused one in a POST answered 400, 413 or 422 |
| DeliveryQueue.LaterKeepsTheChunk | apps/ingest/src/deliver.ts:92-103 | a POST that throws, or is answered with any other status, leaves the whole chunk to be retried and refuses nothing |
| DeliveryQueue.RunPostsFirst | apps/ingest/src/deliver.ts:77-78 | a run's next POST carries the first maxBatch packets of the queue, or all of them when there are fewer |
| DeliveryQueue.QuietFlushChunks | apps/ingest/src/deliver.ts:74-84 | a flush during which nothing arrives takes no more chunks than its queue fills, and as many once it has drained it |
| DeliveryQueue.SchemaDecidesOnArrival | apps/ingest/src/deliver.ts:54-63 | over every run: the packets the schema refuses are dropped on arrival, and they alone; all that is sent, queued or dropped otherwise it accepts |
| DeliveryQueue.FlushHearsEverything | apps/ingest/src/deliver.ts:54-84 | everything added while the POSTs of a flush are in flight has arrived, in order, and nothing else |
| DeliveryQueue.AddHears | apps/ingest/src/deliver.ts:54-63 | so has everything added at any other time, and adding touches no POST |
| DeliveryQueue.PoisonIsolated | apps/ingest/src/deliver.ts:90-114 | against a gateway that refuses exactly the batches with a bad packet, b * ceil(log2 n) splits lose exactly the b bad ones of n and deliver the rest in order |
| DeliveryQueue.FlushIsolatesPoison | apps/ingest/src/deliver.ts:74-114 | against such a gateway, with b bad packets queued, good ones arriving during the POSTs, and b * ceil(log2 max) within the budget of 16: a whole flush accepts no bad packet and refuses no good one, and once it ends nothing is queued |
| DeliveryQueue.SendIsPure | apps/ingest/src/deliver.ts:90-114 | the same of one send, cut off after any of its POSTs, within the splits its bad packets cost |
| DeliveryQueue.SplitCostDrops | apps/ingest/src/deliver.ts:109-113 | halving a chunk with a bad packet leaves at least one split less to spend on the halves together |
| DeliveryQueue.CapDropsOldest | apps/ingest/src/deliver.ts:127-132 | the cap keeps the newest maxQueue packets, counts what it drops, and drops only older ones |
| DeliveryQueue.Delivery.Add | apps/ingest/src/deliver.ts:54-63 | queues what the schema takes, counts the rest, then caps |
| DeliveryQueue.Delivery.Send | apps/ingest/src/deliver.ts:90-114 | the recursive send over the mutable queue comes to the specified ledger, outcome and budget |
| DeliveryQueue.Delivery.Requeue | apps/ingest/src/deliver.ts:117-125 | undelivered packets go ahead of what arrived meanwhile, then the cap |
| DeliveryQueue.Delivery.Run | apps/ingest/src/deliver.ts:74-84 | the loop over the queue comes to the specified run |
| DeliveryQueue.Delivery.Flush | apps/ingest/src/deliver.ts:69-72 | a flush in progress is joined: no second run starts |
| ViewQueries.QueryRoundTrip | apps/web/src/nav.ts:229-256 | a printed view parses back exactly when it is canonical; foreign parameters stay in order, `cache` goes |
| ViewQueries.ShownIsNamed | apps/web/src/nav.ts:246-256 | for any query: a view it shows is canonical and is what its parameters name; it shows none exactly when `view` is in neither table and is not "station" with a call |
| ViewQueries.ViewQueryParams | apps/web/src/nav.ts:229-243 | which value each view parameter has after printing over any query |
| ViewQueries.ViewQueryForeign | apps/web/src/nav.ts:229-243 | printing replaces whatever view a query carried |
| ViewQueries.SameViewIsEquality | apps/web/src/nav.ts:220-226 | sameView is equality of views |
| ViewHistories.HistoryFollowsTheView | apps/web/src/nav.ts:291-343 | over every run: at most one entry of ours, directly above the base; at most one back(), from our entry; once settled the current entry is ours iff something is open and its address shows it |
| ViewHistories.BackReportsMapForwardTheView | apps/web/src/nav.ts:309-339 | over every run: once a canonical view other than the map is open and settled, the user's back is reported as the map and the forward after it as that view, whatever the hashes; showing what was reported changes no entry |
| ViewHistories.ForwardReopensTheClosed | apps/web/src/nav.ts:309-339 | the pop of a close reports nothing, and the user's forward after it reports the view that was closed |
| ViewHistories.LandingOnAnotherInstanceReportsMap | apps/web/src/nav.ts:274-338 | a back() whose instance was replaced before it landed is reported to the new one as the map |
| ViewHistories.PopReports | apps/web/src/nav.ts:327-338 | a pop changes of the address it lands on only the hash, to the map's live one, and reports the view that address shows |
| ViewHistories.SyncKeepsPathAndHash | apps/web/src/nav.ts:297-325 | showing a view changes the query alone, in the current entry and in one pushed above it |
| ViewHistories.StepKeepsInvIff | apps/web/src/nav.ts:309-339 | every event keeps the protocol's invariant except a back() landing on no instance, which breaks it |
| ViewHistories.ReopenedWhileClosing | apps/web/src/nav.ts:309-337 | an open asked for while the same instance closes goes up when the pop lands |
| ViewHistories.LastAskedWhileClosing | apps/web/src/nav.ts:309-337 | while it closes an instance only remembers what is asked for last, and does that when the pop lands |
| ViewHistories.UnattendedLandingSticks | apps/web/src/nav.ts:279-328 | a concrete run in which that leaves a close waiting with no back() under way, until the user goes back |
| ViewHistories.StaleUntilAPopLands | apps/web/src/nav.ts:279-339 | from such a leftover mark, a pop that lands on a mounted instance restores the whole invariant and every other event leaves the mark |
| ViewHistories.EveryRunInvOrStale | apps/web/src/nav.ts:279-339 | every run of possible events is in one state or the other |
| ViewHistories.ViewHistory.Push | apps/web/src/nav.ts:303-307 | cleans the base entry and pushes ours above it |
| ViewHistories.ViewHistory.Sync | apps/web/src/nav.ts:309-325 | one sync changes history, marks and instance as specified |
| ViewHistories.ViewHistory.OnPopState | apps/web/src/nav.ts:327-339 | one popstate does, and reports the view the address shows unless a close was waiting |
| Buckets.RateLaw | apps/ingest/src/txlimit.ts:39-51 | in any stretch of any run at most burst takes plus one per refill interval are granted |
| Buckets.RateLawWithin | apps/ingest/src/txlimit.ts:39-51 | the same for any window of the clock |
| Buckets.GrantsArePaid | apps/ingest/src/txlimit.ts:39-51 | every grant is paid by a token held or gained |
| Buckets.GrantsAreExact | apps/ingest/src/txlimit.ts:39-51 | while no refill runs into the cap, what was granted and what is left is exactly what there was and what time added |
| Buckets.GrantedIffEarned | apps/ingest/src/txlimit.ts:46-51 | so a take is granted exactly when that exceeds the grants so far by a whole token |
| Buckets.RefillAdds | apps/ingest/src/txlimit.ts:39-43 | refilling in between changes nothing: it is additive under the cap |
| Buckets.SilentOp | apps/ingest/src/txlimit.ts:46-57 | a refused take or a look changes no later answer |
| TxLimit.WaitIsLeast | apps/ingest/src/txlimit.ts:54-57 | waitSec is the least whole number of seconds after which an undisturbed take succeeds |
| TxLimit.OnePerInterval | apps/ingest/src/txlimit.ts:39-51 | in any stretch of k refill intervals at most burst + k transmits are granted |
| TxLimit.SmallBurstNeverGrants | apps/ingest/src/txlimit.ts:39-51 | a burst below one token never grants |
| TxLimit.TokenBucket.Refill | apps/ingest/src/txlimit.ts:39-43 | the fields become the refilled bucket |
| TxLimit.TokenBucket.Take | apps/ingest/src/txlimit.ts:46-51 | grants and charges as the bucket says |
| TxLimit.TokenBucket.WaitSec | apps/ingest/src/txlimit.ts:54-57 | answers the least wait and spends nothing |
| SoundcardTx.TransmitsWithinItsLimits | apps/ingest/src/soundcard.ts:274-408 | over every run: in any 60 s of the full history started airtime stays within the duty cycle; frames are keyed in queue order, each with transmit on, the port neither stopped nor faulted, PTT, capture and master switch on and its addresses confirmed at that instant, granted at most 30 s after queueing and shorter than the watchdog; the queue never exceeds 16 |
| SoundcardTx.QueuedIff | apps/ingest/src/soundcard.ts:274-327 | a frame is queued exactly when each of those conditions holds and fewer than 16 wait; an idle port takes the first in hand at once; else nothing changes |
| SoundcardTx.ModulatedIff | apps/ingest/src/soundcard.ts:341-348 | a frame waits for the channel exactly when it is shorter than the PTT watchdog, else it is given up |
| SoundcardTx.PollDecides | apps/ingest/src/soundcard.ts:378-390 | one look gives a frame up exactly when the port stopped or it waited over 30 s, else grants it exactly when it fits the duty cycle, the channel is clear and the draw is won |
| SoundcardTx.StopOrFaultSilences | apps/ingest/src/soundcard.ts:229-451 | from a stop or a watchdog fault on nothing is queued or keyed, whatever happens |
| SoundcardTx.StrandsIff | apps/ingest/src/soundcard.ts:312-339 | a port comes to be idle with frames queued exactly when the finished drain is cleared after a frame was queued behind its end |
| SoundcardTx.StrandedUntilASend | apps/ingest/src/soundcard.ts:312-339 | and those frames wait until the next accepted send, however long that takes |
| SoundcardTx.EveryWindowWithinBudget | apps/ingest/src/soundcard.ts:369-390 | if each start saw the last minute within budget, every window is |
| SoundcardTx.RecentTwice | apps/ingest/src/soundcard.ts:369-372 | pruning the list earlier loses nothing a later look needs |
| SoundcardTx.StepKeepsInv | apps/ingest/src/soundcard.ts:312-408 | order, duty accounting and gating survive every step |
| SoundcardTx.ClosedGateEmptiesPort | apps/ingest/src/soundcard.ts:354-359 | a gate found closed at keying empties the queue and keys nothing |
| SoundcardTx.KeyedIff | apps/ingest/src/soundcard.ts:353-390 | a waiting frame is keyed exactly if it is young enough, fits the duty cycle of the whole history, the channel is clear and won, and each condition of the gate is met |
| SoundcardTx.EveryFrameIsAccounted | apps/ingest/src/soundcard.ts:312-408 | over every run: each frame queued is keyed, on its way or given up, exactly once; one given up as stale was over 30 s old |
| Station.KeyedUnderConfirmedCalls | apps/ingest/src/soundcard.ts:274-361 | over every run of the port and the call verifier: a frame is keyed only if, for each call it goes out under, the last refresh completed by then with an answer covering it said yes within the grace; and the duty cycle holds |
| SoundcardTx.SoundcardPort.Send | apps/ingest/src/soundcard.ts:312-327 | queues a frame the gate takes while there is room, and starts the drain |
| SoundcardTx.SoundcardPort.NextFrame | apps/ingest/src/soundcard.ts:337-339 | the head of the drain loop |
| SoundcardTx.SoundcardPort.OnModulated | apps/ingest/src/soundcard.ts:341-348 | a transmission as long as the PTT watchdog is dropped |
| SoundcardTx.SoundcardPort.OnModulateFailed | apps/ingest/src/soundcard.ts:337-366 | a frame that cannot be modulated is given up |
| SoundcardTx.SoundcardPort.RecentAirtime | apps/ingest/src/soundcard.ts:369-372 | keeps and sums exactly the last minute |
| SoundcardTx.SoundcardPort.PollChannel | apps/ingest/src/soundcard.ts:378-390 | one turn of waiting for the channel |
| SoundcardTx.SoundcardPort.OnGranted | apps/ingest/src/soundcard.ts:354-361 | asks the gate again and keys or empties |
| SoundcardTx.SoundcardPort.OnUnkeyed | apps/ingest/src/soundcard.ts:392-408 | accounts the airtime and goes on |
| SoundcardTx.SoundcardPort.OnDrainCleared | apps/ingest/src/soundcard.ts:323-325 | the finished drain is cleared; what was queued since waits |
| SoundcardTx.SoundcardPort.Stop | apps/ingest/src/soundcard.ts:229-231 | empties the queue for good |
| SoundcardTx.SoundcardPort.OnFault | apps/ingest/src/soundcard.ts:445-451 | the watchdog's fault empties the queue and stays |
| BoxPolling.EverySendIsGated | apps/ingest/src/boxpoll.ts:244-255 | over every run: each radio send, first or repeat, has the opt-in and the switch on and a granted token of its own; HF beacons that went out are 600 s apart |
| BoxPolling.OneRateForAll | apps/ingest/src/boxpoll.ts:356-362 | over any stretch first sends and repeats together obey the one bucket's rate |
| BoxPolling.StepTransmitsOnce | apps/ingest/src/boxpoll.ts:475-540 | a step makes at most one send, with all that requires |
| BoxPolling.OffMeansSilent | apps/ingest/src/boxpoll.ts:244-249 | after "tx off" nothing is sent, repeats included, until a gated "tx on" |
| BoxPolling.OffStep | apps/ingest/src/boxpoll.ts:574-588 | while off, a step turns transmit on exactly if it is a gated "tx on", and sends nothing |
| BoxPolling.OffIsAlwaysHonoured | apps/ingest/src/boxpoll.ts:574-588 | off is obeyed whoever asks and whatever is configured |
| BoxPolling.ShiftedAckIsConfirmed | apps/ingest/src/boxpoll.ts:338-353 | over every run, settlements during the POST included: the ack shifted off is the one confirmed; every ack that became due is in exactly one of confirmed, dropped and pending, once; they are confirmed in the order they became due |
| BoxPolling.SplicedKeeps | apps/ingest/src/boxpoll.ts:345-350 | a refused ack leaves the newest 200 pending at most, and every ack it drops is older than those that stay |
| BoxPolling.CommandSendsIff | apps/ingest/src/boxpoll.ts:475-540 | a beacon, object or message goes to the radio exactly when opt-in, switch, call, age, radio, HF spacing and token all allow it, the token taken last; done is reported exactly when the radio took it, and only then a message is repeated; no other command sends |
| BoxPolling.AnswerSendsIff | apps/ingest/src/boxpoll.ts:398-431 | the same of an answer to a radio command: one send exactly when payload, opt-in, switch, age, the box's call, radio and token allow it, done exactly when the radio took it, and then repeated if numbered |
| BoxPolling.MeshcomAnswerIff | apps/ingest/src/boxpoll.ts:434-468 | a MeshCom answer is handed to its node exactly when payload, opt-in, switch, age, MeshCom, the node and, over KISS, a token allow it; it never touches the radio |
| BoxPolling.RepeatGoesOutIff | apps/ingest/src/boxpoll.ts:229-249 | a repeat goes out exactly when its message is unsettled and opt-in, switch, radio and token allow it; a settled one never does |
| BoxPolling.SwitchesIff | apps/ingest/src/boxpoll.ts:574-588 | a switch takes the value asked for exactly when one is given, the feature is set up and, for on, the opt-in holds and the call is the box's; no other switch ever changes |
| BoxPolling.OthersDoNothing | apps/ingest/src/boxpoll.ts:590-650 | a status request and an unknown command change nothing; the one is done, the other is not |
| BoxPolling.PollGoesOn | apps/ingest/src/boxpoll.ts:304-353 | where a poll goes: acks owed first, then the commands, then the acks again; an answer without commands ends it; what a node said of an answer is the result reported |
| BoxPolling.EachCommandIsReported | apps/ingest/src/boxpoll.ts:304-324 | the commands of a poll are each reported once and in order, behind the acks already owed, whatever repeats and settlements come between |
| BoxPolling.AckReplyDecides | apps/ingest/src/boxpoll.ts:338-353 | a confirmed ack is shifted off; a refused one leaves the newest 200; an unanswered one leaves them all |
| BoxPolling.BoxPoller.TransmitFrame | apps/ingest/src/boxpoll.ts:499-520 | gate, token, radio, in that order |
| BoxPolling.BoxPoller.HfBeaconOut | apps/ingest/src/boxpoll.ts:526-540 | spacing first; only a beacon that went out is remembered |
| BoxPolling.BoxPoller.AprsAnswerOut | apps/ingest/src/boxpoll.ts:398-431 | an answer's gates, token and send |
| BoxPolling.BoxPoller.Switch | apps/ingest/src/boxpoll.ts:574-588 | on is a transmit decision, off is not |
| BoxPolling.BoxPoller.OnExecute | apps/ingest/src/boxpoll.ts:304-335 | the command at the head of the loop, of every kind: what it does, and that its result is owed or the node's answer awaited |
| BoxPolling.BoxPoller.MeshcomOut | apps/ingest/src/boxpoll.ts:434-469 | a MeshCom answer's gates, the node it names included, and, over KISS, its token |
| BoxPolling.BoxPoller.Resend | apps/ingest/src/boxpoll.ts:244-249 | a repeat passes every gate again |
| BoxPolling.BoxPoller.OnAckReply | apps/ingest/src/boxpoll.ts:338-353 | shift, splice or keep, by the answer |
| CallGate.AllowedIffFreshlyConfirmed | apps/ingest/src/callverify.ts:98-176 | after any overlap of refreshes a transmission is allowed exactly when there are calls and for each the last refresh to complete with an answer covering it said ok at most grace ago |
| CallGate.OutagesExtendNothing | apps/ingest/src/callverify.ts:112-125 | no number of failed refreshes extends a confirmation |
| CallGate.RefreshIsAllOrNothing | apps/ingest/src/callverify.ts:98-125 | over any lookups of a refresh: if all answered, each call asked about has an answer of this moment; at the first that did not, whatever the others said, an outage changes nothing and a refused credential closes every call asked about; other calls keep theirs |
| CallGate.MergedAnswer | apps/ingest/src/callverify.ts:103-109 | whatever the lookups name, a call's answer is that of the last lookup naming it, and no when none does |
| CallGate.RequestsBound | apps/ingest/src/callverify.ts:103-105 | the requests cover the calls and none is empty |
| CallGate.RequestsCover | apps/ingest/src/callverify.ts:103-105 | laid together the requests are the calls in order, each of 1 to 16 |
| CallGate.FrameCallsAre | apps/ingest/src/callverify.ts:187-191 | a frame goes out under exactly the box's calls among its addresses, else the fallback, else none |
| CallGate.RefusedCallBlocksOnlyItsFrames | apps/ingest/src/callverify.ts:194-202 | what is known of one call decides nothing for a frame that does not name it |
| CallGate.KeysAgreeIff | apps/ingest/src/callverify.ts:99-179 | the refresh's key and the frame's key agree exactly without a repeated mark and a zero SSID |
| CallGate.JustConfirmedIsAllowedIff | apps/ingest/src/callverify.ts:98-202 | for any configured calls, frame and fallback, just after one refresh confirmed all: the frame may go out exactly when it goes out under some call and each of those keys is one that was asked about |
| CallGate.AskedAre | apps/ingest/src/callverify.ts:98-101 | what is asked about is exactly the non-empty keys of the configured calls |
| CallGate.SoleCallIsAllowedIff | apps/ingest/src/callverify.ts:98-202 | for a station with one call: exactly when it is configured without a repeated mark and a zero SSID |
| CallGate.ZeroSsidStaysRefused | apps/ingest/src/callverify.ts:99-179 | a station whose only call is "A-0" is refused even when just confirmed |
| CallGate.ZeroSsidBesideItsCallIsAllowed | apps/ingest/src/callverify.ts:99-179 | with "A" configured beside it, a frame from "A-0" may go out |
| CallGate.CallVerifier.Collect | apps/ingest/src/callverify.ts:102-105 | the lookups in turn, merged, or the first failure |
| CallGate.CallVerifier.Complete | apps/ingest/src/callverify.ts:106-125 | stores all answers, closes on a refused credential, keeps all on an outage; counts failures |
| CallGate.CallVerifier.Allows | apps/ingest/src/callverify.ts:160-176 | whether refusal is null |
| MqttCodec.StreamRoundTrip | apps/ingest/src/mqtt.ts:84-111 | any list of legal packets, printed, splits back with nothing left |
| MqttCodec.PacketsSurviveChunking | apps/ingest/src/mqtt.ts:210-220 | the same however the stream is cut |
| MqttCodec.SplitPrefix | apps/ingest/src/mqtt.ts:84-111 | splitting a ++ b is splitting a, then its rest ++ b, errors included |
| MqttCodec.ChunkingIsInvisible | apps/ingest/src/mqtt.ts:210-220 | feeding chunks gives what splitting the whole gives, from any buffer a split leaves |
| MqttCodec.RestIsBounded | apps/ingest/src/mqtt.ts:84-111 | the rest stays under five bytes plus the largest packet |
| MqttCodec.RemainingLengthRoundTrip | apps/ingest/src/mqtt.ts:36-45 | every length below 128^4 reads back, in at most four bytes |
| MqttCodec.EncodeRemainingLength | apps/ingest/src/mqtt.ts:36-45 | the encoding loop writes those bytes |
| MqttCodec.SplitPackets | apps/ingest/src/mqtt.ts:84-111 | the index loop splits as specified |
| MqttCodec.ReadLengthAt | apps/ingest/src/mqtt.ts:88-106 | the inner loop reads the length, says it is incomplete, or malformed |
| MqttCodec.StrRoundTrip | apps/ingest/src/mqtt.ts:47-50 | a string field reads back exactly when it is shorter than 65536 bytes |
| MqttCodec.ConnectRoundTrip | apps/ingest/src/mqtt.ts:53-70 | CONNECT is one packet of type 1, and a broker reads back client, credentials and keep-alive |
| MqttCodec.SubscribeRoundTrip | apps/ingest/src/mqtt.ts:73-76 | SUBSCRIBE is one packet of type 8, and a broker reads back id and topics at QoS 0 |
| MqttCodec.PublishRoundTrip | apps/ingest/src/mqtt.ts:114-129 | a PUBLISH body parses back to topic, id and payload |
| MqttCodec.ParsedPublishCovers | apps/ingest/src/mqtt.ts:114-129 | what parses covers the body exactly |
| MqttCodec.MqttSubscriber.Receive | apps/ingest/src/mqtt.ts:210-220 | one chunk: packets in order and the new buffer, or a dropped connection with the buffer kept |
| Lines.SegmentsUnique | apps/ingest/src/lines.ts:21-49 | a stream has one cutting into newline-free segments |
| Lines.SegmentsAreTheStream | apps/ingest/src/lines.ts:21-49 | the segments with their newlines and the unfinished line are the stream, and none holds a newline |
| Lines.FinishLine | apps/ingest/src/lines.ts:26-39 | a newline hands out the line it ends, without one CR, or counts it dropped when over-long |
| Lines.LinesOnlyGrow | apps/ingest/src/lines.ts:21-49 | lines handed out stay handed out |
| Lines.PrintedLinesReadBack | apps/ingest/src/lines.ts:21-49 | whatever lines a sender prints, ended by CR LF or LF, exactly those that fit are handed out, unchanged and in order, and the others are counted |
| Lines.HoldsTheUnfinishedLine | apps/ingest/src/lines.ts:33-47 | what is held is the unfinished line while it fits; one that does not is dropped and counted at once |
| Lines.LineBuffer.Push | apps/ingest/src/lines.ts:21-49 | lines, drops and state are those of the whole stream, however it was cut; the held text stays within maxBytes |
| Lines.LineBuffer.Reset | apps/ingest/src/lines.ts:52-55 | forgets the partial line, keeps the count |
| JsonObjects.ObjectsSurviveChunking | apps/ingest/src/gps.ts:70-103 | any stream of object texts of at most 16384 characters, nested and escaped, with brace-free noise between, cut anywhere, is handed out as exactly those texts in order |
| JsonObjects.ObjectHandedOut | apps/ingest/src/gps.ts:76-99 | one such text is handed out exactly and leaves the splitter idle |
| JsonObjects.FeedAppend | apps/ingest/src/gps.ts:76-99 | cutting the input changes nothing |
| JsonObjects.BufferBounded | apps/ingest/src/gps.ts:95-99 | the buffer never passes 16384 characters |
| JsonObjects.OverflowIsCleanIff | apps/ingest/src/gps.ts:95-99 | in any state, an overflow restarts clean exactly when it leaves no escape open: inside a string unless its character opens one, outside unless one was left over |
| JsonObjects.OverflowLeavesEscape | apps/ingest/src/gps.ts:76-99 | a fresh splitter gets there: an open string filled to the limit, then a backslash |
| JsonObjects.PlainOverflowStaysStuck | apps/ingest/src/gps.ts:76-99 | and stays there over the next overflow, on a plain character outside any string |
| JsonObjects.LeftoverEscapeLosesObject | apps/ingest/src/gps.ts:76-99 | end to end from a fresh splitter: after such an overflow a whole object is never handed out |
| JsonObjects.JsonObjectSplitter.Push | apps/ingest/src/gps.ts:76-102 | the character loop hands out those texts |
| KissBridge.RadioReadsWhatTheGateAllowed | deploy/pocket/extras/usb_kiss_bridge.py:385-417 | whatever clients send in whatever chunks, a KISS reader on the radio side sees exactly the allowed frames in order; each is clean, at most 668 escaped bytes, no KISS exit, and unescapes to a command of low nibble 1 to 6 or to a data frame of at most 331 bytes |
| KissBridge.GateDecides | deploy/pocket/extras/usb_kiss_bridge.py:103-126 | over the bytes: a data frame (low nibble 0) of at most 331 bytes takes a token and passes exactly when there is one; low nibble 1 to 6 always passes, 7 to 15 never, and neither touches the bucket; nothing passes without transmit |
| KissBridge.DataRateBound | deploy/pocket/extras/usb_kiss_bridge.py:85-126 | in every window of every run at most burst + T * per_min / 60 frames of low nibble 0 go out |
| KissBridge.TokensForAllSendAll | deploy/pocket/extras/usb_kiss_bridge.py:103-126 | while there are tokens for its data frames, of any batch exactly the frames the gate has nothing against go out, in order |
| KissBridge.ReadSendsItsFrames | deploy/pocket/extras/usb_kiss_bridge.py:405-417 | one read sends the frames it completes of the client's stream, while there are tokens for the data frames among them |
| KissBridge.NewClientStartsAfresh | deploy/pocket/extras/usb_kiss_bridge.py:391-404 | a new client's frames are those of its own bytes |
| KissBridge.FramesOk | deploy/pocket/extras/usb_kiss_bridge.py:48-68 | a deframed frame is non-empty, at most 668 bytes and holds no FEND |
| KissBridge.HeldIsBounded | deploy/pocket/extras/usb_kiss_bridge.py:51-68 | the deframer never holds more than 668 bytes: the frame under way, or nothing when it ran over |
| KissBridge.FramesOnlyGrow | deploy/pocket/extras/usb_kiss_bridge.py:55-68 | frames of a stream are a prefix of those of any longer one |
| KissBridge.UnescapeInvertsEscape | deploy/pocket/extras/usb_kiss_bridge.py:71-82 | unescape undoes KISS escaping, which leaves no FEND |
| KissBridge.UnescapeReads | deploy/pocket/extras/usb_kiss_bridge.py:71-82 | byte for byte what an escape stands for: before any byte but DC and DD it is dropped |
| KissBridge.EscapedFrameArrives | deploy/pocket/extras/usb_kiss_bridge.py:48-82 | a frame of up to 334 bytes that a client escapes and frames arrives as it was |
| KissBridge.UnescapeFrame | deploy/pocket/extras/usb_kiss_bridge.py:71-82 | the byte loop unescapes as specified |
| KissBridge.Deframer.Feed | deploy/pocket/extras/usb_kiss_bridge.py:55-68 | frames and state are those of the stream so far |
| KissBridge.TxGate.Allow | deploy/pocket/extras/usb_kiss_bridge.py:103-126 | the verdict and the tokens left |
| KissBridge.BridgeLoop.OnConnect | deploy/pocket/extras/usb_kiss_bridge.py:391-404 | a new client starts with a deframer of its own |
| KissBridge.BridgeLoop.OnData | deploy/pocket/extras/usb_kiss_bridge.py:405-417 | what one read of the client sends to the radio |
| DirewolfBuffers.FramesArrive | modems/direwolf/src/glue.c:110-126 | of any frames heard, the host reads exactly the stored ones in order (bytes, framing, nibbles, clamped count), and the buffer never passes its end |
| DirewolfBuffers.RecordsReadBack | modems/direwolf/src/index.ts:175-190 | any records laid one after another read back as their frames |
| DirewolfBuffers.HeaderReads | modems/direwolf/src/glue.c:119-123 | the five header bytes give length, framing, subchannel, slice and count back |
| DirewolfBuffers.ThirtyFramesFit | modems/direwolf/src/glue.c:118 | nothing wanted is lost while at most 30 frames come between two reads |
| DirewolfBuffers.PushLosesNothing | modems/direwolf/src/index.ts:193-208 | while at most 30 frames come in each stretch of the input buffer, a push of any length returns exactly the frames to be handed on, in order |
| DirewolfBuffers.StretchesCover | modems/direwolf/src/index.ts:195-196 | the stretches of 16384 samples cover a push and none is empty |
| DirewolfBuffers.LowBitsAreRemainder | modems/direwolf/src/glue.c:122 | masking the low bits of any C int is the non-negative remainder |
| DirewolfBuffers.Low8Is | modems/direwolf/src/glue.c:159-171 | what is kept of a byte of audio is its remainder by 256 |
| DirewolfBuffers.Receiver.RecFrame | modems/direwolf/src/glue.c:110-126 | appends one record, or nothing |
| DirewolfBuffers.Receiver.Collect | modems/direwolf/src/index.ts:175-190 | reads all records and clears the buffer |
| DirewolfBuffers.Receiver.Push | modems/direwolf/src/index.ts:193-208 | a push returns the frames of every stretch of the input buffer, each read before the next |
| DirewolfBuffers.AudioRoundTrip | modems/direwolf/src/glue.c:155-173 | any 16-bit samples written byte by byte pair back to themselves |
| DirewolfBuffers.Transmitter.AudioPut | modems/direwolf/src/glue.c:155-173 | the memory holds the little-endian pairing of all bytes put, across every doubling; a failed allocation loses exactly the pair at hand |
| LogQueues.EveryLogInOnePlace | apps/web/public/sw.js:144-209 | over every run of logs queued and flushes, whatever the server answers: each log is in exactly one of queue, accepted, needs-attention and lost, unchanged, and the queue keeps its order |
| LogQueues.LosesIff | apps/web/public/sw.js:198-200 | a log is lost exactly when queued during a flush under the time and cache of one the flush read |
| LogQueues.LogLostToItsKey | apps/web/public/sw.js:198-200 | a concrete run that loses a log so |
| LogQueues.NothingLostIfKeysDiffer | apps/web/public/sw.js:198-208 | over every run in which no two logs share time and cache none is lost, those queued during a flush included |
| LogQueues.RequestsArePaced | apps/web/public/sw.js:158-196 | over every run, of each request: its log is not sent elsewhere or early, not again once accepted or refused, nor, after its n-th busy answer, before the n-th delay is over |
| LogQueues.RetriesAreExact | apps/web/public/sw.js:188-190 | over every run: a queued log's next time is its last busy answer plus the delay for their number, and none when it had none |
| LogQueues.FlushSendsWhatIsDue | apps/web/public/sw.js:158-196 | a flush sends the due logs in order, up to the first network failure and all without one; what was taken is accepted, what was refused needs attention |
| LogQueues.BackoffIs | apps/web/public/sw.js:142 | delays start at 30 s, double up to the sixth, and are 30 min from the seventh |
| LogQueues.OfflineLogs.Enqueue | apps/web/src/log/logQueue.ts:84-90 | the app's append to the stored queue |
| LogQueues.OfflineLogs.FlushQueue | apps/web/public/sw.js:144-208 | the worker's loop and merge come to the specified store; it fails exactly when offline |
| LogQueues.SendAll | apps/web/public/sw.js:158-196 | the loop's keep and refused lists |
| FedSync.NothingSkipped | apps/ingest/src/fedsynclink.ts:92-133 | against a peer whose pages hold their records, every record past the first cursor was posted and taken or lies past the cursor reported, whatever positions the pages end at |
| FedSync.PostedIsTheStretch | apps/ingest/src/fedsynclink.ts:92-133 | if pages never end before the position asked, the posted frames are exactly the records from the first cursor to the position reached, once and in order |
| FedSync.CursorGoesBackIff | apps/ingest/src/fedsynclink.ts:120-125 | `since` never goes back; the composite position does exactly when a page ends at the same second with a lower or dropped tie-breaker |
| FedSync.CursorGoesBack | apps/ingest/src/fedsynclink.ts:120-125 | it does over the gateway's own page: re-reading the second a complete feed ended at |
| FedSync.PullIsBounded | apps/ingest/src/fedsynclink.ts:109-133 | a pull asks at most maxPages times and counts what it read |
| FedSync.PostedIsTaken | apps/ingest/src/fedsynclink.ts:104-119 | what counts as posted is what our gateway took, frame for frame, and its counts are added up |
| FedSync.ThrowsIff | apps/ingest/src/fedsynclink.ts:104-114 | a pull throws exactly when a page does not come or our gateway does not take its frames |
| FedSync.PullDeliversTheFeed | workers/gateway/src/fedsync.ts:100-140 | end to end against the repository's own gateway, any page limits: after n pages the frames taken are the first records past the cursor, as many as the limits add up to; the pull stops exactly when that is more than the feed holds, having delivered all of it |
| FedSync.ServedHolds | workers/gateway/src/fedsync.ts:112-140 | a served page holds its records, ends just behind them, and is complete exactly when it has room to spare |
| FedSync.PullFedSync | apps/ingest/src/fedsynclink.ts:81-134 | the loop's result is the specified pull's, or none when it throws |
| FedLink.FailingPeersWait | apps/ingest/src/fedlink.ts:159-201 | a peer that failed k times in a row is skipped for at least min(32, 2^(k-1)) rounds; no round holds two sessions |
| FedLink.FirstDuePeerIsDialled | apps/ingest/src/fedlink.ts:159-181 | and no longer: the first listed peer that is due and reachable is dialled, none only if there is none |
| FedLink.NothingDialled | apps/ingest/src/fedlink.ts:159-166 | no session starts while transmit is off, the list cannot be had or one is under way |
| FedLink.SessionEnds | apps/ingest/src/fedlink.ts:185-200 | the end of a session frees the puller and is logged with its round and outcome |
| FedLink.SessionWithinBudget | apps/ingest/src/fedlink.ts:237-262 | a session asks for no more pages than its budget over all feeds, a failing one included |
| FedLink.SessionReports | apps/ingest/src/fedlink.ts:237-277 | the whole report: each result is that of its feed's own pull from the peer's cursor within the pages left; pages, frames and counts are their sums, the cursors theirs; ok exactly when no pull failed; complete exactly when every feed was pulled and complete |
| FedLink.CompleteIff | apps/ingest/src/fedlink.ts:238-266 | the feeds pulled are the first ones, and a session says complete exactly when every feed was pulled and was complete |
| FedLink.Converse | apps/ingest/src/fedlink.ts:204-278 | the loop over the feeds reports as specified, a failure included |
| FedLink.FedLinkPuller.Begin | apps/ingest/src/fedlink.ts:159-185 | counts the round, and picks the peer and its first reachable endpoint |
| FedLink.FedLinkPuller.End | apps/ingest/src/fedlink.ts:186-200 | a failure sets the wait, a success clears it |
| PortHealth.RateIsExact | apps/ingest/src/porthealth.ts:49-86 | while the clock does not go back the 60-slot ring's sum is the number of frames of the last 60 s of the full log |
| PortHealth.SlotCounts | apps/ingest/src/porthealth.ts:49-56 | a slot inside the window counts exactly its second's frames |
| PortHealth.CountsAreConserved | apps/ingest/src/porthealth.ts:97-117 | with reports that do not overlap, committed deltas and the next report total everything heard, parsed and invalid, whatever posts fail |
| PortHealth.TotalsAreWhatWasHeard | apps/ingest/src/porthealth.ts:61-78 | the totals are the frames heard, parsed and invalid |
| PortHealth.CommitBalancesIff | apps/ingest/src/porthealth.ts:113-115 | a commit keeps the balance exactly when its report still carries what counts as sent |
| PortHealth.BalancedThroughoutIff | apps/ingest/src/porthealth.ts:97-117 | a run is balanced at every moment exactly when each of its commits is of such a report |
| PortHealth.OverlappingReportsCountTwice | apps/ingest/src/porthealth.ts:97-117 | a concrete run with two reports in flight |
| PortHealth.Counts.Hear | apps/ingest/src/porthealth.ts:61-78 | one frame's effect on ring and totals |
| PortHealth.Counts.Pps | apps/ingest/src/porthealth.ts:81-86 | the loop sums the slots inside the window |
| PortHealth.Counts.Report | apps/ingest/src/porthealth.ts:97-112 | totals, the part not yet sent, and the rate |
| PortHealth.Counts.Commit | apps/ingest/src/porthealth.ts:113-115 | the report's totals count as sent |
| PortHealth.PortHealthCounter.Of | apps/ingest/src/porthealth.ts:32-47 | a port's own counter, new when first heard, none past 32 |
| UsbPtt.KeyedMeansArmedOrOut | deploy/pocket/extras/usb_ptt.py:340-379 | over every run, whatever fails and wherever a signal strikes: a keyed line has its deadline armed at the last key unless the last transfer was a failed unkey; every way out ends with an unkey |
| UsbPtt.CommandsDoWhatTheySay | deploy/pocket/extras/usb_ptt.py:351-379 | when transfer and answer succeed, KEY keys and arms the deadline, UNKEY unkeys and disarms it, QUIT and the end of the input unkey and end the server |
| UsbPtt.TurnRunsTheFirstLine | deploy/pocket/extras/usb_ptt.py:310-353 | a turn takes the first pending line, whatever follows it |
| UsbPtt.OtherCommandsLeaveTheLine | deploy/pocket/extras/usb_ptt.py:356-378 | an empty or unknown command leaves line and deadline alone; only an answer that cannot be written makes a transfer, and that is an unkey |
| UsbPtt.FailedKeyUnkeys | deploy/pocket/extras/usb_ptt.py:358-378 | a KEY that fails, or whose answer cannot be written, is followed at once by an unkey and leaves no deadline |
| UsbPtt.LinesArriveWhole | deploy/pocket/extras/usb_ptt.py:310-336 | a line of at most 256 characters arrives whole in whatever reads it comes |
| UsbPtt.LongRunsAreDropped | deploy/pocket/extras/usb_ptt.py:326-331 | a read that leaves more than 256 characters without a newline drops them, any shorter run is kept |
| UsbPtt.NoKeyOutlivesAQuietDeadline | deploy/pocket/extras/usb_ptt.py:313-350 | over every run: at no moment from its deadline on was the input found quiet while the key still stood |
| UsbPtt.KeyStandsIff | deploy/pocket/extras/usb_ptt.py:313-350 | over any run of turns without a complete line: the next n leave an armed key standing, with nothing sent to the line, exactly if no look fails or finds the input quiet at or past the deadline and none but the last finds its end; else the next transfer is an unkey |
| UsbPtt.DripHoldsKey | deploy/pocket/extras/usb_ptt.py:321-336 | a concrete run from a fresh server: with a byte a second and no newline the key of second 1 stands at second n + 2, for every n and deadline |
| UsbPtt.DripHoldsServer | deploy/pocket/extras/usb_ptt.py:340-350 | the same of the server from its start |
| UsbPtt.WatchdogActsIff | deploy/pocket/extras/usb_ptt.py:345-350 | a look at the input unkeys exactly when it fails or finds nothing ready past the deadline, and every quiet look is remembered as one |
| UsbPtt.WatchdogGoesOnIff | deploy/pocket/extras/usb_ptt.py:345-350 | after the watchdog acted the server goes on, its deadline gone, exactly when the unkey succeeded and could be told |
| UsbPtt.QuitEndsIff | deploy/pocket/extras/usb_ptt.py:366-378 | QUIT ends the server unless its answer cannot be written and the error that follows is dealt with and told |
| UsbPtt.UnkeyLeavesKeyedIff | deploy/pocket/extras/usb_ptt.py:363-378 | UNKEY leaves the line keyed with the server running exactly when both transfers fail and the error can be told |
| UsbPtt.FailedUnkeyDisarms | deploy/pocket/extras/usb_ptt.py:343-378 | then it stays keyed with no deadline however long the input is quiet |
| UsbPtt.BufferIsBounded | deploy/pocket/extras/usb_ptt.py:313-337 | the line buffer holds less than two reads |
| UsbPtt.PttServer.Command | deploy/pocket/extras/usb_ptt.py:353-378 | what a command does, errors and exits included |
| UsbPtt.PttServer.Recover | deploy/pocket/extras/usb_ptt.py:371-378 | an error disarms, unkeys and is told |
| UsbPtt.PttServer.Look | deploy/pocket/extras/usb_ptt.py:313-350 | one look at the input, the watchdog included |
| UsbPtt.PttServer.Run | deploy/pocket/extras/usb_ptt.py:340-379 | the loop comes to the specified server |

## Left out

- Sockets, child processes, DNS, TLS, IndexedDB, USB ioctls and WebAssembly: each is a step of the environment.
- Log lines, metrics and error texts; only whether something is refused and for what kind of reason.
- JavaScript numbers: fractions are reals, so rounding and the order of additions are not modelled; `pps` is stated before its rounding.
- Text encoding: characters are characters, MQTT strings are bytes; UTF-8, UTF-16 and non-ASCII case folding are not modelled.
- URLSearchParams' percent-encoding: a query is its list of parameters.
- Schemas, AX.25 and APRS codecs, signatures, compression and JSON.parse: whether a packet fits, a frame packs or a text parses is an input.
- MessageRetrier's timing and matching of acks: repeats and settlements may come at any time.
- MqttSubscriber's CONNACK and SUBACK handling, keep-alive and reconnects; only its buffer.
- CallVerifier.start's schedule, and the service call a gateway may name later.
- The receive side of the soundcard port and its PTT drivers; the gate's inputs other than the fault change at any time.
- The radio-to-client direction of the KISS bridge, and its refusal of a second client.
- SoundcardTx.SoundcardPort.Stop: stopping the player, the wait of at most 3 s for the transmission under way, and closing the PTT are not modelled.
- BoxPolling.BoxPoller.MeshcomOut: what the node does with an answer handed to it, and how long it takes, is the environment's.
- RateIsExact: for a clock that does not go back; a slot overwritten by an earlier second is outside the statement.
- NoKeyOutlivesAQuietDeadline: between the deadline and the look that finds the input quiet the operating system's delay is not bounded, and clock readings within one look are one.
- UsbPtt.KeyedMeansArmedOrOut: a second signal during the clean-up itself is not modelled.
- LogQueues.EveryLogInOnePlace: the final read and write of a flush are one step; a worker killed before it sends its logs again.
- The app's own changes to the offline queue other than queueing: retrying or discarding what needs attention, removing a queued log.
- FedSync.PullDeliversTheFeed: the feed does not change during a pull, and expired bulletins stay in it.
- FedLink.FedLinkPuller.Begin: a dial that throws before its session starts ends the round without a report, and is not modelled.
- ThirtyFramesFit: beyond 30 frames between two reads, what fits is what `FramesArrive` says is stored.
- DirewolfBuffers.Transmitter.AudioPut: a capacity beyond a C int is not modelled.
- CircuitLines, dialPlan's connect script, the NET/ROM and INP3 code, typed API wrappers and all user interface: easy members or wiring.
