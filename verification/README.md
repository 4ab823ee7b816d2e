# Single-flight generation, at-most-once delivery, discovery and link rewriting

This project models the parts of promo_bot that must not do a thing twice: ask AliExpress
for an affiliate link, send a message, spend a query of a run's budget. Several workers,
possibly crashed and restarted, share one SQLite database; the repository's promise is kept
by rows with states, leases, tokens and unique keys, so that is what the model is made of.
Nothing here runs the bot.

## How the model reads

- **A transaction is a function.** Each `async with database.session()` block is a function
  from the tables to the new tables or an error, and an error rolls everything back. Beside
  it stands a class whose fields are the mutable tables and whose methods assign them in the
  source's order; every such method is proved equal to the function.
- **A run is any sequence of transactions.** Workers are interleaved between transactions. A
  crashed worker is one that is not scheduled again, and a late one is scheduled late. Where
  a claim about whole runs is made, each step brings its own clock reading and the readings
  need not agree, which is more than one non-decreasing clock allows.
- **Ids and tokens are fresh**: generation ids and lease tokens are never drawn twice, while
  an evidence id may come back after its row is deleted. Fingerprints stand for the inputs
  they are computed from (an injective function). Money and percentages are exact reals.
- **The network is an argument.** Each request is answered by a complete response, a
  definitive rejection or an ambiguous end, chosen by the environment.

| files | what they hold |
|---|---|
| `Prelude` | options, results, time, white space |
| `Ledger` | the generation ledger: prepare, start, confirm, fail, sweep |
| `Coin`, `CoinRuns`, `CoinSafety`, `CoinProbe`, `CoinWitness` | evidence rows, the two tables' coupling over every run, the read-only probe |
| `CoinAnswers`, `CoinCommits` | what each of the generator's transactions answers in a reachable state, and all that it changes |
| `CoinStore`, `CoinMulti`, `CoinMessage` | the tables as a class; generating all links of one message under a budget; the message from its text to the rewritten text |
| `Outbound`, `Deliveries`, `DeliverySafety`, `DeliveryAnswers`, `DeliveryStore` | previews, audit uses, one-attempt deliveries |
| `Outbox`, `OutboxStore` | the retrying outbox |
| `Discovery`, `DiscoveryRuns`, `DiscoverySafety`, `DiscoveryAnswers`, `DiscoveryStore` | runs, claims, page cache, results, snapshots |
| `ScanSpec`, `ScanAnswers`, `ScanOrder`, `ScanRecords`, `Scanner` | the scan loop: what a turn does, the order of its queries, what it records |
| `ScanReplay`, `ScanPrices`, `ScanExample` | its repetition, its prices |
| `Ranking` | the score of a product |
| `UrlText`, `UrlRender` | URLs in text and their rewriting |
| `Canonical`, `CanonicalSafety`, `CanonicalAnswers`, `CanonicalStore` | batched canonical links |

## Where the code promises less than it seems

- **A request may follow the sweep.** Only the start of a call is fenced by the lease. A
  worker that committed `start_call` just before its lease was swept may still send its
  request after the row became UNCERTAIN (`WireMayFollowTheSweep` is such a run). A generation
  that ended unconfirmed can still send exactly when its `call_started_at` is set
  (`LateRequestIffStarted`); no further call is *started* for its identity, and its late answer
  is never stored.
- **An UNCERTAIN evidence row may briefly point at an open ledger row**, because `claim`'s own
  sweep ends evidence only: exactly when the claim finds a lease that no recovery has ended
  yet (`ClaimEndsBothIff`). `generate` recovers leases first, so this takes a claim in between
  whose clock is a whole lease behind (`UncertainEndsBoth`).
- **The probe may be more cautious than the claim.** `inspect` raises IN_PROGRESS when any
  tracking generates the same input, while `generate` answers a hit from the row of its own
  tracking. `HitMayBeHidden` reaches such a state, and `HitShownUnlessSomeoneGenerates` shows
  that this is the only difference. The other direction is exact (`ProbePredictsClaim`).
- **A repeated scan may report other prices.** Products, pages, order and stop reason repeat,
  but when a scan first meets a product in a cached page and then LIVE at another price, the
  repeat sees both from the cache and keeps the first. `RepeatKeepsPriceIff` gives the exact
  condition and `RepeatMayChangePrice` a scan that fails it.
- **Rewriting is undone exactly when nothing collides**: when no URL that stays in place is
  itself a replacement (`RenderingBackIff`).

## Model

| member | source | states |
|---|---|---|
| CoinSafety.EveryRunIsCoupled | src/promo_bot/affiliate/coin_shadow_generation.py:112-199 | After any run: a GENERATING evidence row is linked to a PREPARED or CALL_STARTED ledger row with the same token and lease, a READY row to a CONFIRMED one with the same link, a REVIEW_REQUIRED row to a REJECTED one, an UNCERTAIN row to one that is UNCERTAIN, FAILED or still open; every request sent belongs to a started call |
| CoinSafety.UncertainEndsBoth | src/promo_bot/affiliate/coin_shadow_generation.py:112-118 | When each claim follows a recovery at its own reading, and claims in between are less than a lease behind, UNCERTAIN evidence is never linked to an open ledger row |
| CoinSafety.ClaimEndsBothIff | src/promo_bot/database/coin_shadow_repository.py:98-110 | A committed claim leaves UNCERTAIN evidence on an open ledger row exactly when some generating lease has expired by its clock |
| CoinSafety.EndedRowsNeverChange | src/promo_bot/database/history_repository.py:805-854 | Ledger rows that are CONFIRMED, FAILED, REJECTED or UNCERTAIN are the same in every later state; identities and tokens never change |
| CoinSafety.AtMostOneUnconfirmedCall | src/promo_bot/database/history_repository.py:735-784 | No request is sent twice; of all rows of one identity at most one is not CONFIRMED |
| CoinSafety.UnconfirmedEndBlocksIdentity | src/promo_bot/database/history_repository.py:501-526 | After a generation ends unconfirmed the set of started calls of its identity is frozen for ever, and only those can reach the wire |
| CoinSafety.LateRequestIffStarted | src/promo_bot/affiliate/history_context.py:97-111 | A generation that ended unconfirmed without a request on the wire can still send one in some continuation exactly when its call had been started |
| CoinSafety.LateWorkerNeverConfirms | src/promo_bot/affiliate/coin_shadow_generation.py:303-339 | Once no evidence generates through a row, that row never becomes CONFIRMED: confirm and finish_ready roll back together, whatever clock the late worker reads |
| CoinSafety.PurgeNeverFails | src/promo_bot/database/coin_shadow_repository.py:111-145 | Every reachable READY row passes validate_coin_evidence, so the purge inside claim never raises |
| CoinSafety.ReadyStaysUntilExpiry | src/promo_bot/database/coin_shadow_repository.py:111-145 | READY evidence stays, unchanged, until a claim runs at or after its expiry |
| Ledger.CodeIsOfAnyReturnedRow | src/promo_bot/database/history_repository.py:501-526 | The reported block code does not depend on which blocking row the query returns |
| CoinProbe.ProbePredictsClaim | src/promo_bot/affiliate/coin_shadow_generation.py:210-256 | In every reachable state at one clock reading: inspect finds nothing exactly when generate wins a new call, and what it finds is what generate answers |
| CoinProbe.HitShownUnlessSomeoneGenerates | src/promo_bot/affiliate/coin_shadow_generation.py:91-208 | When generate answers a hit, inspect shows the same hit, or raises IN_PROGRESS exactly when some tracking generates the same input |
| CoinProbe.RecoverLeavesNothingToSweep | src/promo_bot/database/history_repository.py:528-574 | Both leases end together: after recover the claim's own sweep does nothing, and READY rows are untouched |
| CoinWitness.HitMayBeHidden | src/promo_bot/affiliate/coin_shadow_generation.py:210-256 | A reachable state in which generate is READY from the cache and inspect raises IN_PROGRESS |
| CoinAnswers.EveryUnconfirmedRowIsWitnessed | src/promo_bot/database/coin_shadow_repository.py:111-145 | In every run the evidence of an unconfirmed generation is still there, whatever is swept and purged |
| CoinAnswers.IdentityAnswers | src/promo_bot/database/history_repository.py:501-526 | An identity is refused exactly when it has an unconfirmed row, with the code of that row: in progress while PREPARED or under a running call, uncertain after it, ineligible when FAILED or REJECTED |
| CoinAnswers.ProbeReadsTheLedger | src/promo_bot/affiliate/coin_shadow_generation.py:210-256 | With leases recovered first, the probe refuses exactly for an unconfirmed row of the input or of a foreign key, with a code that only that row decides; otherwise it shows the live link of its input and tracking, if there is one |
| CoinAnswers.GenerateReadsTheLedger | src/promo_bot/affiliate/coin_shadow_generation.py:112-199 | After its recovery generate refuses for an uncertain, failed or rejected row, joins or refuses beside an open one, hits a live link, and otherwise wins a PREPARED row and its evidence, both leased for five minutes |
| CoinAnswers.ReadyLinksAreTheLedgers | src/promo_bot/database/history_repository.py:713-733 | In every run a READY row shows the link, times and mode that the ledger confirmed for its own input and tracking, by a call that was started |
| CoinCommits.StartCommitsIff | src/promo_bot/database/history_repository.py:786-803 | A call starts exactly while its row is PREPARED under its lease |
| CoinCommits.AnswerCommitsIff | src/promo_bot/affiliate/coin_shadow_generation.py:303-329 | A good answer is stored exactly while the started call is leased and its evidence generates through it; both rows then hold this link for a day, and nothing else changes |
| CoinCommits.FailureCommitsIff | src/promo_bot/affiliate/coin_shadow_generation.py:376-413 | An end without a link is stored under the same condition, FAILED where no call had started, REJECTED with REVIEW_REQUIRED or UNCERTAIN with UNCERTAIN otherwise |
| CoinCommits.RecoveryEndsExpired | src/promo_bot/database/history_repository.py:528-574 | recover ends exactly the open rows and the generating evidence whose lease ran out |
| CoinStore.ShadowStore.Recover | src/promo_bot/database/history_repository.py:528-574 | The sweep over mutable tables ends exactly the expired leases, in ledger and evidence together; a store that is coupled stays so |
| CoinStore.ShadowStore.StartCall | src/promo_bot/database/history_repository.py:786-803 | All given calls start, or none and nothing changes |
| CoinStore.ShadowStore.ClaimEvidence | src/promo_bot/database/coin_shadow_repository.py:86-189 | Sweep, validated purge, lookup and insert, with the error that rolls them back |
| CoinStore.ShadowStore.Prepare | src/promo_bot/database/history_repository.py:735-784 | A blocked identity refuses with its code, otherwise one PREPARED row is added |
| CoinStore.ShadowStore.ClaimAndPrepare | src/promo_bot/affiliate/coin_shadow_generation.py:112-170 | Admission, claim and prepare in one transaction: an error in any of them leaves the tables as they were |
| CoinStore.ShadowStore.ClaimTx | src/promo_bot/affiliate/coin_shadow_generation.py:112-170 | The same with ids from the store's own counter; the coupling is kept |
| CoinStore.ShadowStore.FinishReady | src/promo_bot/affiliate/coin_shadow_generation.py:303-329 | confirm and finish_ready commit together or not at all |
| CoinStore.ShadowStore.FinishFailed | src/promo_bot/affiliate/coin_shadow_generation.py:376-413 | fail and the terminal evidence state commit together or not at all |
| CoinStore.ShadowStore.InspectRows | src/promo_bot/affiliate/coin_shadow_generation.py:210-256 | The loop over the input's rows raises the code of the specification whatever the order of the rows |
| CoinStore.ShadowStore.Inspect | src/promo_bot/affiliate/coin_shadow_generation.py:210-256 | The probe over mutable tables returns what its specification says and changes nothing |
| CoinMulti.RunController.BeforeApiCall | src/promo_bot/affiliate/aliexpress_shadow_listener.py:169-176 | A request is granted exactly while the counter is below the limit, and is counted; the limit is never exceeded |
| CoinMulti.AddedKeepsOthers | src/promo_bot/affiliate/coin_shadow_generation.py:258-349 | What a claim leaves for its own input, with a link or without one, and the sweep and purge before it, keep every other input's successful probe as it was |
| CoinMulti.GenerateOne | src/promo_bot/affiliate/coin_shadow_generation.py:91-208 | A request is spent exactly on a miss within budget. A hit succeeds with the link that was shown. A miss succeeds exactly with an answer, whose link then lives a day; without one its new row and evidence end as the answer says, without leases, and no later probe of the input succeeds. Other probes are as they were |
| CoinMulti.StoreNothing | src/promo_bot/affiliate/coin_shadow_generation.py:275-292 | The winner whose call brought no link leaves its row FAILED, REJECTED or UNCERTAIN and its evidence REVIEW_REQUIRED or UNCERTAIN, and changes nothing else |
| CoinMulti.InspectAll | src/promo_bot/affiliate/coin_shadow_multi.py:181-233 | The number of misses counted up front, or the refusal of one of the probes |
| CoinMulti.GenerateAll | src/promo_bot/affiliate/coin_shadow_multi.py:181-233 | With misses within the budget the recheck never rejects. It succeeds exactly when every miss is answered, with one request for each and every input showing its own link; otherwise it stops at the first miss that was not, with the inputs before it generated and those after it untouched |
| CoinMulti.PrepareMessage | src/promo_bot/affiliate/coin_shadow_multi.py:181-233 | A message is refused for its budget exactly when every probe succeeds and the misses exceed what remains, and then, as when a probe refuses, nothing is generated; otherwise it succeeds exactly when every miss is answered |
| CoinMessage.ResolveAll | src/promo_bot/affiliate/coin_shadow_multi.py:141-157 | Every visible URL is resolved once, and the message is refused when some wrapper is |
| CoinMessage.InputsOf | src/promo_bot/affiliate/coin_shadow_multi.py:159-159 | The distinct inputs: none twice, one for every occurrence, and none besides |
| CoinMessage.GenerateInputs | src/promo_bot/affiliate/coin_shadow_multi.py:181-233 | The same of the inputs: refused by a probe or for the budget before anything is spent, stopped by a miss without an answer, or a link for each with one request per miss |
| CoinMessage.GenerateLinks | src/promo_bot/affiliate/coin_shadow_multi.py:181-237 | By the URLs of the message: refused by a resolver with nothing changed, by a probe or for the budget with nothing generated, stopped by an input without an answer, or every URL, and nothing else, mapped to the link answered for its input, or stored for it before |
| CoinMessage.PrepareText | src/promo_bot/affiliate/coin_shadow_multi.py:131-245 | The surface and the number of links are checked before anything changes; then the message ends as its links do, and the text that comes out is the message with each URL replaced by its own link; the count mismatch never happens |
| DeliverySafety.AtMostOneSend | src/promo_bot/affiliate/coin_shadow_delivery.py:206-316 | In any history no two messages sent carry the same source message and destination |
| DeliverySafety.RowsTellTheTruth | src/promo_bot/affiliate/coin_shadow_delivery.py:206-316 | sent means a message was accepted with that valid id; failed_safe that none was sent or the server refused it; pending that none left |
| DeliverySafety.EverySendIsReserved | src/promo_bot/database/coin_shadow_repository.py:550-573 | Every message sent has a row with exactly one attempt, whose worker saw that outcome |
| DeliverySafety.AuditMirrorsDelivery | src/promo_bot/database/history_repository.py:384-463 | In every reachable state a row's audit use is in the corresponding state and of its preview's generations, and either transition is possible exactly when the other is |
| DeliverySafety.StoredPreviewsStayValid | src/promo_bot/database/history_repository.py:222-334 | get_ready never raises, and reserve succeeds exactly for stored previews |
| DeliverySafety.EndedDeliveriesNeverChange | src/promo_bot/database/coin_shadow_repository.py:575-620 | A delivery that ended keeps its state, message id, pair and use |
| DeliverySafety.KeyMeansOneMessage | src/promo_bot/affiliate/coin_shadow_delivery.py:318-325 | A preview id found again later has the same content, so the text re-read before sending is the reserved one |
| DeliverySafety.PurgedKeyNeverReturns | src/promo_bot/database/coin_shadow_repository.py:382-460 | An id whose preview was purged is never handed out again |
| DeliverySafety.PreviewIdsOnlyGrow | src/promo_bot/database/coin_shadow_repository.py:382-460 | Singleton preview ids are handed out in strictly increasing order over a whole run, purges included |
| DeliverySafety.ResultIsAlwaysStored | src/promo_bot/affiliate/coin_shadow_delivery.py:327-346 | The first result that a worker stores is accepted by finish and its audit, and is then the row's |
| DeliverySafety.CancelledFinishOnlyDoubts | src/promo_bot/affiliate/coin_shadow_delivery.py:266-273 | A worker cancelled while storing sent finishes a second time: a row that is sent stays so, one that is still sending becomes uncertain, and nothing else changes |
| DeliveryAnswers.SingleSaveAnswers | src/promo_bot/database/coin_shadow_repository.py:355-460 | In every reachable state: no live link, no preview; the same message with the same evidence and text keeps its preview and records the reuse; another text is an error; a new message gets this text under an id above all before |
| DeliveryAnswers.MultiSaveAnswers | src/promo_bot/database/coin_shadow_multi_repository.py:39-139 | The same for two or three links: the first unfit link decides the error, and a new preview expires with its first link |
| DeliveryAnswers.ReserveAnswers | src/promo_bot/database/coin_shadow_repository.py:487-548 | The pair's row is returned, whichever preview it was made for; a new pair gets a pending row and a use of the preview's generations |
| DeliveryAnswers.PurgeAnswers | src/promo_bot/database/coin_shadow_repository.py:111-145 | A preview disappears only with evidence whose link was over when a claim ran; deliveries then lose their pointer to it and nothing else |
| DeliveryAnswers.StoredPreviewsAreBacked | src/promo_bot/database/history_repository.py:222-334 | In every history the use of a stored preview is its own, and stands for the confirmed generations of exactly its evidence, all READY |
| Deliveries.RowAndAuditMoveTogether | src/promo_bot/database/coin_shadow_repository.py:550-620 | mark_sending and finish commit exactly when the row's state allows it, exactly when the audit allows it, and leave both in corresponding states |
| DeliveryStore.OutboundStore.HighWater | src/promo_bot/database/coin_shadow_repository.py:382-460 | The loop finds the highest singleton id among previews and append-only uses |
| DeliveryStore.OutboundStore.SaveReady | src/promo_bot/database/coin_shadow_repository.py:355-460 | A READY link gets a new preview above the high water, the same message its old one, and a mismatch is an error that changes nothing |
| DeliveryStore.OutboundStore.SaveSingle | src/promo_bot/database/coin_shadow_repository.py:355-460 | The same as one event of the history, keeping the store's invariant |
| DeliveryStore.OutboundStore.SaveMulti | src/promo_bot/database/coin_shadow_multi_repository.py:39-139 | Every link checked, first expiry kept, parent and use inserted together, or the error and no change |
| DeliveryStore.OutboundStore.SaveMultiPreview | src/promo_bot/database/coin_shadow_multi_repository.py:39-139 | The same as one event of the history, with the preview and whether it is new, or the error, as the answer |
| DeliveryStore.OutboundStore.CheckLinks | src/promo_bot/database/coin_shadow_multi_repository.py:39-139 | The loop refuses with the error of the first link that is not READY, has expired, fails its validation or is of another generation, and with none exactly when every link passes |
| DeliveryStore.OutboundStore.FirstToExpire | src/promo_bot/database/coin_shadow_multi_repository.py:39-139 | The preview expires with the first of its links |
| DeliveryStore.OutboundStore.DistinctIds | src/promo_bot/database/history_repository.py:116-201 | The generations of a use: the same elements, each once, each before those that are first seen after it |
| DeliveryStore.OutboundStore.ReserveRow | src/promo_bot/database/coin_shadow_repository.py:487-548 | The pair's row is found or inserted with its use; a stored preview that does not fit is an error |
| DeliveryStore.OutboundStore.Audit | src/promo_bot/database/history_repository.py:384-463 | The audit's transition succeeds exactly from the allowed states |
| DeliveryStore.OutboundStore.MarkSending | src/promo_bot/database/coin_shadow_repository.py:550-573 | pending to sending and the audit to SEND_IN_FLIGHT, together or not at all |
| DeliveryStore.OutboundStore.Finish | src/promo_bot/database/coin_shadow_repository.py:575-620 | The final state and the audit's, together or not at all |
| DeliveryStore.OutboundStore.DeliverReserved | src/promo_bot/affiliate/coin_shadow_delivery.py:206-316 | Exactly one message if the preflight passes and none otherwise; the row ends sent with the id, safely failed, or in doubt |
| DeliveryStore.OutboundStore.Deliver | src/promo_bot/affiliate/coin_shadow_delivery.py:136-180 | One message exactly when the preview lives, no row has the pair and the preflight passes; then sent with the id for a valid one, safely failed for a refusal, in doubt otherwise. Not ready exactly when the preview does not live, and already attempted, with nothing sent or changed, exactly when the pair has a row |
| Outbox.DeliveredAtMostOnce | src/promo_bot/delivery/service.py:107-186 | Over sends, crashes, expired leases and sweeps: at most one message of a row is delivered, sends never exceed attempt_count, which never exceeds the limit; one row per deal and purpose |
| Outbox.StatesTellTheTruth | src/promo_bot/database/delivery_repository.py:101-146 | sent means exactly one delivery, with that id; pending, retryable and permanent mean none |
| Outbox.StepsFollowTheTable | src/promo_bot/domain/state_machines.py:124-143 | Every step moves every row along DELIVERY_TRANSITIONS or leaves its state, and attempts grow by at most one |
| Outbox.ClosedRowsAreNeverRetried | src/promo_bot/database/delivery_repository.py:59-99 | A sent, permanent or ambiguous row never changes and is never claimed again |
| OutboxStore.DeliveryOutbox.EnsurePending | src/promo_bot/database/delivery_repository.py:28-57 | The row of the deal and purpose is found or inserted, pending and untried; another identity is a conflict |
| OutboxStore.DeliveryOutbox.Claim | src/promo_bot/database/delivery_repository.py:59-99 | A row is won exactly when it is pending, or retryable and due, with attempts left; then it is SENDING under the given lease, and otherwise nothing changes |
| OutboxStore.DeliveryOutbox.Finish | src/promo_bot/database/delivery_repository.py:169-202 | The result is kept exactly while the row is SENDING under an unexpired lease |
| OutboxStore.DeliveryOutbox.MarkStale | src/promo_bot/database/delivery_repository.py:148-167 | The sweep turns exactly the expired SENDING rows ambiguous, and counts them |
| OutboxStore.DeliveryOutbox.StoreResult | src/promo_bot/delivery/service.py:107-186 | Under a running lease the row becomes sent with a non-blank id, permanent when rejected, retryable after the server's delay within the cap or after two seconds, and ambiguous otherwise; without one nothing changes |
| OutboxStore.DeliveryOutbox.Send | src/promo_bot/delivery/service.py:107-186 | An allowed row that is due is sent exactly once; stored in time it ends as the outcome says and the answer is true exactly when it was accepted with an id, stored too late it stays SENDING and the answer is a conflict; any other row is left alone |
| Discovery.CacheRoundTrip | src/promo_bot/database/aliexpress_discovery_repository.py:572-658 | Decoding a cached page gives back the page that was encoded, in order |
| DiscoverySafety.FinishNeverCollides | src/promo_bot/database/aliexpress_discovery_repository.py:264-329 | In every history claims and cache are disjoint on their key, and a finish never hits the cache's unique key |
| DiscoverySafety.CallsAreCounted | src/promo_bot/database/aliexpress_discovery_repository.py:165-262 | A run's api_call_count is the number of CALLs it was granted and never exceeds max_api_calls |
| DiscoverySafety.CountersMatchTables | src/promo_bot/database/aliexpress_discovery_repository.py:348-435 | unique_product_count and snapshot_count are the sizes of the tables, within max_results; a result has a snapshot, of its own price, exactly when it is LIVE with a price; no product has two |
| DiscoverySafety.OnlyTheHolderFillsTheCache | src/promo_bot/database/aliexpress_discovery_repository.py:264-329 | A cache entry appears only through the holder of the unexpired claim, with its page and TTL, and is never replaced while it stands |
| DiscoverySafety.LiveNeverReverts | src/promo_bot/database/aliexpress_discovery_repository.py:348-435 | A LIVE result keeps its origin, price and snapshot in every later state |
| DiscoveryAnswers.CreateAnswers | src/promo_bot/database/aliexpress_discovery_repository.py:120-160 | A new run is RUNNING under its lease, with nothing counted and no result |
| DiscoveryAnswers.ClaimAnswers | src/promo_bot/database/aliexpress_discovery_repository.py:165-262 | A live cached page is answered and counted as a hit, a page somebody else asks for as in progress, a spent budget as exhausted, and otherwise a call is granted and counted; overdue runs end and expired claims and pages go |
| DiscoveryAnswers.FinishAnswers | src/promo_bot/database/aliexpress_discovery_repository.py:264-329 | Exactly the holder of the unexpired claim stores its page, which lives an hour and reads back as it was; the claim goes and the counters grow by the page |
| DiscoveryAnswers.RecordAnswers | src/promo_bot/database/aliexpress_discovery_repository.py:348-435 | A first sighting within max_results makes a row, a LIVE one replaces a cached one, any other is counted; a snapshot exactly for a LIVE, priced sighting that is not LIVE already |
| DiscoveryStore.DiscoveryTables.CreateRun | src/promo_bot/database/aliexpress_discovery_repository.py:120-160 | One RUNNING row with empty counters is added |
| DiscoveryStore.DiscoveryTables.RecoverExpired | src/promo_bot/database/aliexpress_discovery_repository.py:521-549 | Exactly the other runs whose lease, or a claim of whose, ran out end UNCERTAIN, and expired claims are dropped |
| DiscoveryStore.DiscoveryTables.PurgeExpiredCache | src/promo_bot/database/aliexpress_discovery_repository.py:551-570 | Exactly the expired entries leave the cache |
| DiscoveryStore.DiscoveryTables.ClaimQuery | src/promo_bot/database/aliexpress_discovery_repository.py:165-262 | Recovery, purge, lookup, budget and insert, with the answer or the error that rolls them back |
| DiscoveryStore.DiscoveryTables.FinishQuery | src/promo_bot/database/aliexpress_discovery_repository.py:264-329 | The claim becomes a cache entry only for its owner |
| DiscoveryStore.DiscoveryTables.Abandon | src/promo_bot/database/aliexpress_discovery_repository.py:331-346 | Only the token's own claim is deleted |
| DiscoveryStore.DiscoveryTables.RecordProduct | src/promo_bot/database/aliexpress_discovery_repository.py:348-435 | Insert, upgrade or count one more match of a product, within max_results |
| DiscoveryStore.DiscoveryTables.CreateSnapshot | src/promo_bot/database/aliexpress_discovery_repository.py:465-488 | A priced product gets one snapshot, and a second one is refused |
| DiscoveryStore.DiscoveryTables.FinishRun | src/promo_bot/database/aliexpress_discovery_repository.py:490-519 | A RUNNING run ends once |
| ScanSpec.RecordPagePicks | src/promo_bot/discovery/scanner.py:202-237 | Recording a page never fails here and takes the same products whether they are LIVE or cached |
| ScanAnswers.VisitAnswers | src/promo_bot/discovery/scanner.py:106-237 | For every state of cache, claims and budget and every answer of the gateway: which page a turn takes, whether a call is made, and with which state and reason the scan ends if it does |
| ScanOrder.VisitsInOrder | src/promo_bot/discovery/scanner.py:102-245 | The queries are those of consecutive places, keyword by keyword and page by page, going on to the next keyword after a short page or the last one allowed; a scan that comes to the end has asked for the first page of every keyword, and its reason is that of its last page |
| ScanRecords.PagesAreRecorded | src/promo_bot/discovery/scanner.py:202-237 | The results are exactly the products of the pages that came back, in their order, up to the point where max_results was reached if it was |
| ScanReplay.RepeatIsTransparent | src/promo_bot/discovery/scanner.py:102-245 | A completed scan is repeated before any page it visited expires, whatever other runs did to the store in between: no gateway call, the same pages in order, the same products, the same stop reason |
| ScanReplay.OthersKeepPages | src/promo_bot/database/aliexpress_discovery_repository.py:551-570 | No sequence of steps of other runs removes or replaces a cached page before it expires by one of their clocks |
| ScanReplay.ScanAccounts | src/promo_bot/discovery/scanner.py:202-237 | However a scan ends, its calls are those charged to its run, within the budget; its counter, the run's and the number of results agree, within max_results; no unique key is hit |
| ScanPrices.RowsShowFirstSighting | src/promo_bot/database/aliexpress_discovery_repository.py:348-435 | Each result shows the first LIVE sighting of its product, else the first; no sighting, no row |
| ScanPrices.RepeatKeepsPriceIff | src/promo_bot/discovery/scanner.py:102-245 | The repeat reports a product's price again exactly when the first scan's first LIVE sighting agreed with its first sighting, always so when nothing came from the cache |
| ScanExample.RepeatMayChangePrice | src/promo_bot/discovery/scanner.py:102-245 | With no other run active, a scan whose repeat reports another price |
| Scanner.AliExpressDiscoveryScanner.Scan | src/promo_bot/discovery/scanner.py:68-245 | The nested loops over the mutable store end in the state and summary of the scan's specification |
| Scanner.AliExpressDiscoveryScanner.ScanKeyword | src/promo_bot/discovery/scanner.py:102-245 | The page loop of one keyword is that part of the specification |
| Scanner.AliExpressDiscoveryScanner.Visit | src/promo_bot/discovery/scanner.py:106-237 | One page: claim, gateway, store, record |
| Scanner.AliExpressDiscoveryScanner.RecordPage | src/promo_bot/discovery/scanner.py:202-237 | The products of a page in order, until max_results or the first error, which makes StoreListed roll a LIVE page back; the scanner's own count follows |
| Scanner.AliExpressDiscoveryScanner.FailQuery | src/promo_bot/discovery/scanner.py:247-271 | The claim is abandoned and the run ends in the given state |
| Scanner.AliExpressDiscoveryScanner.Finish | src/promo_bot/discovery/scanner.py:273-289 | The run ends, or the error is raised |
| Ranking.RankFitsTheTable | src/promo_bot/database/models.py:816-878 | Every score satisfies the result table's checks: parts and total in range, the classification's conditions; a history score only for a drop backed by history |
| Ranking.RankAnswers | src/promo_bot/discovery/ranking.py:32-117 | Every part of a score: the median is halfway between the two middle prices, the drop is what is missing to it in percent, the history score twice the drop in whole points up to 60 if it is large enough, half the discount up to 15, the commission up to 5, the volume bands, and the classification |
| Ranking.HistoryScoreIsMonotone | src/promo_bot/discovery/ranking.py:32-117 | A lower current price or higher past prices never lower the history score, as long as the same past prices are positive |
| Ranking.RankIgnoresOrder | src/promo_bot/discovery/ranking.py:32-87 | The result depends only on the multiset of past prices |
| Ranking.SortedSorts | src/promo_bot/discovery/ranking.py:89-94 | The median's sort: ordered, the same prices |
| Ranking.SortedIsMonotone | src/promo_bot/discovery/ranking.py:89-94 | Raising prices raises every order statistic |
| UrlText.ShowingAParse | src/promo_bot/relay/parser.py:14-15 | Splitting a text into URLs, trailing punctuation and the rest loses nothing |
| UrlText.TokenAnswers | src/promo_bot/relay/parser.py:14-15 | The pattern matches exactly where http:// or https://, in any case, is followed by a character a URL may contain, and takes all of them that follow |
| UrlText.ParsesAreWellFormed | src/promo_bot/relay/parser.py:14-15 | The pieces are maximal tokens, trimmed, with gaps that hold none |
| UrlText.ParsingWhatIsShown | src/promo_bot/relay/parser.py:14-15 | Well-formed pieces are the only ones that show their text |
| UrlText.RenderIsLocal | src/promo_bot/affiliate/aliexpress_conversion.py:859-883 | The pieces of the rewritten text are those of the text with the mapped URLs replaced: nothing else moves, trailing punctuation included |
| UrlText.RenderingBack | src/promo_bot/affiliate/aliexpress_conversion.py:859-883 | A one-to-one rewriting to whole URLs, none of them left in the text, is undone by its inverse |
| UrlText.RenderingBackIff | src/promo_bot/affiliate/aliexpress_conversion.py:859-883 | It is undone exactly when no URL left in place is itself a replacement |
| UrlText.ReplacedCounts | src/promo_bot/affiliate/aliexpress_conversion.py:859-883 | A URL is replaced as often as it occurs, if it is mapped at all |
| UrlRender.TrimUrl | src/promo_bot/relay/parser.py:64-67 | The loop ends at the last character that is not trailing punctuation |
| UrlRender.MatchAt | src/promo_bot/relay/parser.py:14-15 | The scanner finds the pattern's maximal match at a position |
| UrlRender.RenderReplacements | src/promo_bot/affiliate/aliexpress_conversion.py:859-883 | The text is the rewriting, and the substitution's counter is the sum of the second scan's counts, each the number of the URL's occurrences |
| UrlRender.Substitute | src/promo_bot/affiliate/aliexpress_conversion.py:859-876 | The in-order substitution with its counter |
| UrlRender.CountUrls | src/promo_bot/affiliate/aliexpress_conversion.py:877-882 | The second scan counts exactly the mapped URLs |
| UrlRender.CollectOccurrences | src/promo_bot/affiliate/coin_shadow_multi.py:49-85 | A message is accepted exactly when nothing calls for a refusal, and refused with the first check it fails; accepted occurrences are all the text's URLs, located in order and disjoint, each passing the literal or wrapper check, and the visible link surfaces name exactly them |
| UrlRender.AcceptanceAnswers | src/promo_bot/affiliate/coin_shadow_multi.py:63-78 | Without wrappers, and for a match with a query, only the direct check counts; otherwise either check does |
| UrlRender.OccurrencesAreAllReplaced | src/promo_bot/affiliate/coin_shadow_multi.py:234-250 | With every occurrence resolved the count mismatch that prepare checks for cannot happen |
| CanonicalSafety.BatchesAreAllOrNothing | src/promo_bot/affiliate/aliexpress_conversion.py:569-679 | In every history the generations of one batch are all CONFIRMED or none is |
| CanonicalSafety.ProofsStayValid | src/promo_bot/database/history_repository.py:682-711 | Every stored proof satisfies validate_canonical_proof in every reachable state |
| CanonicalSafety.AnswerCommitsWholeBatchIff | src/promo_bot/affiliate/aliexpress_conversion.py:569-679 | An answer commits the whole batch exactly when every claim still holds, each candidate with its own link, the time of the answer and the expiry; otherwise it changes nothing |
| CanonicalSafety.ReclaimedBatchCommitsNothing | src/promo_bot/database/repositories.py:1012-1046 | A worker whose candidate has another started_at or attempt_count, or a newer blocking generation, commits nothing |
| CanonicalSafety.StoreAllEffect | src/promo_bot/affiliate/aliexpress_conversion.py:569-679 | The storing loop succeeds exactly when each claim by itself is storable, and then stores the i-th link for the i-th claim |
| CanonicalAnswers.ClaimsExactly | src/promo_bot/affiliate/aliexpress_conversion.py:393-440 | A batch is claimed exactly when its candidates differ, wait for a link and have an attempt left and nothing unconfirmed; rows, candidates and claims are then these |
| CanonicalAnswers.StartsExactly | src/promo_bot/database/history_repository.py:786-803 | The calls of a batch start exactly when every row is PREPARED under its token and lease |
| CanonicalAnswers.StoreAllFails | src/promo_bot/affiliate/aliexpress_conversion.py:607-643 | A clock gone back refuses the answer; otherwise the first claim that cannot be stored decides whether its candidate or its generation was lost |
| CanonicalAnswers.FailsExactly | src/promo_bot/affiliate/aliexpress_conversion.py:681-694 | Exactly the open rows of the batch end, FAILED where no call had started |
| CanonicalAnswers.CandidatesFailExactly | src/promo_bot/affiliate/aliexpress_conversion.py:696-729 | All candidates go to the target, retried after their own delay if it is retryable, exactly when every one is still pursued; otherwise none does |
| CanonicalAnswers.RecoveryAnswers | src/promo_bot/database/history_repository.py:528-574 | recover ends the rows whose leases ran out and sends the candidates waiting for them to manual review |
| CanonicalAnswers.ProofsAreTheLedgers | src/promo_bot/database/history_repository.py:682-711 | In every history a stored proof holds what the ledger confirmed for its candidate: link, times, tracking, product and variation |
| Canonical.ClaimAllEffect | src/promo_bot/affiliate/aliexpress_conversion.py:393-440 | The claim loop gives every candidate an attempt and a prepared generation of its own, in order, and touches nothing else |
| CanonicalStore.CanonicalTables.ClaimCandidate | src/promo_bot/database/repositories.py:934-1010 | One candidate claimed and its generation prepared, or the error that rolls the batch back |
| CanonicalStore.CanonicalTables.ClaimBatch | src/promo_bot/affiliate/aliexpress_conversion.py:393-440 | All candidates claimed, or no change |
| CanonicalStore.CanonicalTables.StartCalls | src/promo_bot/database/history_repository.py:786-803 | All calls of the batch start, or none |
| CanonicalStore.CanonicalTables.StoreClaim | src/promo_bot/database/repositories.py:197-237 | Candidate fenced, proof stored, generation confirmed, in that order |
| CanonicalStore.CanonicalTables.StoreBatch | src/promo_bot/affiliate/aliexpress_conversion.py:569-679 | The whole batch stored, or no change |
| CanonicalStore.CanonicalTables.RecordHistoryFailure | src/promo_bot/affiliate/aliexpress_conversion.py:681-694 | Exactly the batch's open generations end in the given state |
| CanonicalStore.CanonicalTables.RecordFailures | src/promo_bot/affiliate/aliexpress_conversion.py:696-729 | The candidates of the batch all leave PROCESSING, or none when one of them was lost |
| CanonicalStore.CanonicalTables.GenerateBatch | src/promo_bot/affiliate/aliexpress_conversion.py:569-679 | For every answer: stored, each candidate with the link answered for it, exactly when all calls could start and every claim still held; otherwise no proof changes, and rows and candidates end as the answer says: rejected, uncertain, retried, for manual review, or left to the sweep |
| CanonicalStore.CanonicalTables.StoreOrFail | src/promo_bot/affiliate/aliexpress_conversion.py:607-668 | A complete answer is stored, or the batch ends uncertain when the first loss is a candidate and rejected otherwise |

## Left out

- The relay intake queue and the source message life cycle: bounded queues and one-row conditional updates, easier members of the same kind as the outbox.
- Legacy generations: rows without a generation id, snapshots, the explicit legacy request and its request ids. The database starts empty.
- The SKU refinement tables and runner, and the canonical shadow delivery: the same protocol as discovery and as the coin delivery, with other columns.
- CoinMessage.PrepareText: the wrapper resolver and the network's answers are functions of the URL and of the input; the observations stored with a resolution, the length limit and the saved preview are not part of it.
- Observations of wrapper resolutions, message length limits in UTF-16 units, the send-message limit and the whole-run time limit of a message's preparation.
- `_observe`, the polling of a loser for the winner's result: it only reads.
- `extract_links`, its de-duplication, entities and buttons: `CollectOccurrences` takes the message's links and the two literal checks as arguments.
- CoinMulti.PrepareMessage: one clock reading and no other claimant, the setting in which the budget promise is made; with other workers at work a probe's miss can turn into anything. CoinMessage.PrepareText adds the rest of the message.
- CoinStore.ShadowStore.FinishFailed: the ledger half's own clock reading only fills `finished_at`, a column that is not modelled.
- CoinStore.ShadowStore.ClaimEvidence: the previews and delivery pointers that the same transaction drops are `Outbound.Purge`, which `Deliveries` applies in the same step.
- CoinStore.ShadowStore.Inspect: the two codes of a key rotation are one error, since which of several foreign rows the query returns is not determined. The order of the input's own rows does not matter: in a coupled store at most one of them is not READY and every READY one is valid.
- DeliveryStore.OutboundStore.HighWater: the watermark kept in legacy snapshots, which an empty database has none of.
- DeliveryStore.OutboundStore.SaveMulti: occurrence spans are checked by CollectOccurrences and not stored again in the preview; wrapper resolutions, with which one link would do, are not modelled.
- DeliveryStore.OutboundStore.Deliver: the channel inspection, the authorization of the target and the second validation of the text are one boolean.
- OutboxStore.DeliveryOutbox.Send: the publication gate is a boolean argument.
- ScanReplay.RepeatIsTransparent: other runs act between the two scans and not during one; prices are in RepeatKeepsPriceIff, because they do not repeat in general.
- DiscoveryStore.DiscoveryTables.RecordProduct: display columns and the scores stored with a result are not modelled; the score itself is in Ranking.
- DiscoverySafety.CountersMatchTables: a product is recorded one step at a time there, which allows more interleavings than the source's one transaction per page; ScanSpec and Scanner use the transaction.
- Ranking.RankFitsTheTable: exact arithmetic; decimal context precision and the rounding of stored columns are not modelled, and scores are not stored with the results.
- CanonicalStore.CanonicalTables.ClaimBatch: a claim also carries its tracking fingerprint, which the source keeps in the service object; choosing between cached proofs and new claims is an argument.
- Bookkeeping columns, error code texts, sanitized output, configuration gates, the process lock, migrations and file checks.
- SQL isolation: transactions are assumed serializable, as the write serialization of the source intends.
