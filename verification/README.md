# Nois contracts: a verified model

Nois is a randomness oracle. A *proxy* on a consumer chain turns a dapp's call into a `RequestBeacon` packet. The
*gateway* on the Nois chain commits the request to a drand round, answers it from its archive or queues it, and
charges the customer's *payment* contract. Bots submit round signatures to the *drand* contract, which verifies them,
pays rewards and forwards the randomness; the gateway then drains the round's queue under a per-transaction cap and
sends `DeliverBeacon` packets back. The *sink* burns what the payment contracts send to it.

The project models these contracts and their composition, and proves what every run keeps.

## How it is built

| layer | files | content |
|---|---|---|
| arithmetic and storage | `Base`, `Rounds`, `SourceIds`, `Storage` | bounded integers, round arithmetic, source ids, ordered iteration and paging, raw archive keys |
| contracts on values | `GatewayModel`, `DrandModel`, `ProxyModel`, `Sink` (module `SinkModel`), `Money` | each contract as a state machine; the job store is one FIFO queue per round, submissions are one sequence per round |
| runs | `GatewayRuns`, `DrandModel` (module `DrandRuns`), `Money` (module `Ledger`) | invariants over every sequence of calls of one contract |
| storage level | `JobStore`, `GatewayContract`, `DrandContract`, `ProxyContract`, `Sink` (module `SinkContract`) | classes that update id-keyed maps, counters and logs in place, with the source's loops, each operation proved equal to the state machine |
| protocol | `Traces`, `Protocol`, `ProtocolInvariant`, `ProtocolSteps`, `ProtocolHistory`, `ProtocolRefinement`, `ProtocolBooks`, `ProtocolReceipts`, `ProtocolTheorems`, `ProtocolProgress`, `Greeting` | all contracts, any number of proxies and a network of packets; one inductive invariant over all interleavings, and the theorems that follow |

`ProtocolTheorems.dfy` and `ProtocolProgress.dfy` hold the main results. The protocol's events are: channel connection
with the funding of the payment contract, dapp calls, relays and timeouts of either packet kind, round submissions,
calls by strangers, price and parameter changes, bot registration, proxy configuration, coins arriving from other
chains, outsiders sending or burning their coins, and burns of the sink's balance, in any order and number.

## Hypotheses

- A returned error or a panic in a call, or in any message it dispatches, reverts the whole transaction. Arithmetic
  overflow panics (`overflow-checks = true` in the workspace profile).
- The exception is `ibc_packet_receive`: a returned error becomes an error acknowledgement and keeps earlier writes.
  `GatewayModel.ErrorAckAtomicIff` states exactly when that makes a difference.
- A channel id is connected once and packets arrive on connected channels only. Unordered channels deliver each
  packet at most once, in any order (ICS-004, "Exactly-once delivery" under Desired Properties). A packet may time out
  at any moment before it is delivered, which includes all real timeouts.
- `ProxyModel.Faithful`: decoding an encoded origin gives the origin back. The origin codec is a parameter.
- Signature verification, the derivation of randomness and the bot groups are function parameters
  (`Crypto.Scheme`). Nothing is assumed of them. That all valid signatures of a round yield the same randomness
  (`UniqueRandomness`) is not a hypothesis of any protocol invariant; it is proved to be the exact condition for the
  agreement of archive, beacons and deliveries.
- The coins of the gateway, the drand contract, the sink and the payment contracts are spent by their code only; all other
  accounts are outsiders and spend as they like. A payment contract's address depends on its channel id alone
  (`paymentOf`), since the creator and the code are fixed.
- In the protocol, the drand contract is the gateway's drand address and only trusted source from the start, and the
  gateway is drand's gateway (`Protocol.Init`). Other parameters may change at any time. `GatewayRuns` and `DrandRuns`
  need no such wiring.

## Where code and comments differ

The model follows the code.

- The gateway labels the last share of the price "40%". It is the remainder, hence at least 40% and up to two units
  more (`GatewayModel.SharesAddUp`).
- The drand contract says of late submissions that wrong ones "will still make the contract pass". A submission whose
  derived randomness differs from the beacon is rejected.
- The receive handler of the gateway speaks of capturing all errors. Errors after routing are acknowledged but not
  undone.

## Model

| member | source | states |
|---|---|---|
| `Base.Utf8LengthOfChar` | contracts/nois-proxy/src/jobs.rs:8 | lengths of job ids and monikers are bytes of UTF-8: one per 7-bit, two per 11-bit, three per 16-bit character, else four, added up |
| `Rounds.TimeOfRoundIsPublishTime` | packages/drand-common/src/rounds.rs:6-8 | in checked u64 arithmetic the function fails exactly outside 1..LAST_TIMED_ROUND, which lies beyond u32, and otherwise is genesis + (round-1)·3s |
| `Rounds.RoundAfterIsLeast` | packages/drand-common/src/rounds.rs:10-20 | for every time, before and after genesis, a round is published later than the time if and only if it is at or after `round_after` |
| `Rounds.PublishWindow` | packages/drand-common/src/rounds.rs:10-20 | the committed round is published strictly after the base time, and within one round length once drand runs |
| `Rounds.RoundAfterTimeOfRound` | packages/drand-common/src/rounds.rs:6-20 | the two functions invert each other: at a round's publish time the next round follows, one nanosecond earlier the round itself |
| `Rounds.RoundFitsU32` | contracts/nois-gateway/src/state/drand_jobs.rs:24 | the u32 conversion succeeds if and only if the requested time is below 14562587082 s |
| `SourceIds.SourceIdInjective` | contracts/nois-gateway/src/request_router.rs:187-191 | a source id names one round |
| `SourceIds.SourceIdReadsBack` | contracts/nois-gateway/src/request_router.rs:187-191 | the id is the literal prefix with the chain hash followed by decimal digits that read back as the round |
| `Paging.PagesTile` | contracts/nois-gateway/src/state/drand_jobs.rs:66-70 | reading consecutive offset/limit pages of any size yields the listing without gaps or repeats |
| `ArchiveKey.BigEndianRoundTrip` | contracts/nois-gateway/src/drand_archive.rs:15-23 | the big-endian bytes of a number have the stated length and decode to the number |
| `ArchiveKey.DrandKeyInjective` | contracts/nois-gateway/src/drand_archive.rs:15-23 | keys are BELL, 'd', 'm' and eight bytes that decode to the round; two rounds share a key only if they are equal |
| `GatewayModel.SharesAddUp` | contracts/nois-gateway/src/contract.rs:441-444 | no share underflows, the three shares sum to the price, and each is within its stated percentage: the pool gets at least 40% and less than two units more |
| `GatewayModel.RouteEffects` | contracts/nois-gateway/src/request_router.rs:57-119 | a routed request adds one job with the next id at the back of its own round's queue and asks drand to mark that round, or counts one delivery with the archived randomness, publish time, origin and a 100-day timeout; no other round, log or customer is touched |
| `GatewayModel.ErrorAckOnConnectedChannel` | contracts/nois-gateway/src/contract.rs:367-460 | on a connected channel the acknowledgement is an error if and only if the packet does not parse, is of an unsupported kind, or is a request with an over-long origin, and then nothing changed and nothing is sent |
| `GatewayModel.ErrorAckAtomicIff` | contracts/nois-gateway/src/contract.rs:379-437 | a committed call leaves no trace when it ends in an error acknowledgement, if and only if the packet is no request, its origin is too long, or the channel is connected |
| `GatewayModel.ErrorAckKeepsWrites` | contracts/nois-gateway/src/contract.rs:414-437 | a call where it fails: a fresh gateway refuses a request on an unknown channel but keeps its job and its log entry |
| `GatewayModel.RouteFailsIff` | contracts/nois-gateway/src/request_router.rs:57-119 | for a round within u32 routing panics if and only if the processed counter or the timeout (archived round) or the job ids (other rounds) are exhausted, and never returns an error |
| `GatewayModel.SuccessAckEffects` | contracts/nois-gateway/src/contract.rs:398-460 | a success stands for exactly one log entry with the origin, transaction, source id and `queued` flag, one counted beacon, one Pay that burns 40%, gives the relayer 20% and the pool the rest, all in the price's denom, and one queued job or one delivery, matching the acknowledgement kind; all else is unchanged |
| `GatewayModel.VerifiedRoundEffects` | contracts/nois-gateway/src/request_router.rs:121-160 | the first min(length, 1 or 10) jobs leave in order, each counted and answered on its own channel with the round's publish time and randomness; other rounds, logs, customers and ids stay |
| `GatewayModel.PullAnswersPrice` | contracts/nois-gateway/src/contract.rs:462-472 | a price pull is answered with the block time and the configured price and changes nothing |
| `GatewayModel.ConnectGreets` | contracts/nois-gateway/src/contract.rs:298-340 | the welcome packet names the payment contract stored in the new customer entry, which is also the one instantiated with the configured funds; the price packet carries the block time and the configured price; both go to this channel with a 100-day timeout |
| `GatewayRuns.ReceiveInv` | contracts/nois-gateway/src/contract.rs:398-460 | receiving a request keeps queues, ids, counters, logs and customers consistent with each other |
| `GatewayRuns.AddVerifiedRoundInv` | contracts/nois-gateway/src/contract.rs:511-539 | a verified round keeps the same consistency |
| `GatewayRuns.RunInv` | contracts/nois-gateway/src/contract.rs:102-132 | so does every run of connections, requests, verified rounds and configuration changes |
| `GatewayRuns.IndexesAgree` | contracts/nois-gateway/src/contract.rs:414-437 | after every run: each `requested_beacons` is the channel's log length; per round, queued plus processed jobs are the log entries over all channels and `LAST_JOB_ID` is the number of entries with `queued`; the sum over customers equals the sum over rounds |
| `GatewayRuns.IdsOnlyGrow` | contracts/nois-gateway/src/state/drand_jobs.rs:25-27 | over every run job ids of a round are never taken back |
| `GatewayRuns.ArchivedRoundOnlyDrains` | contracts/nois-gateway/src/request_router.rs:129-155 | once a round is archived, after any further run its job ids are frozen and its queue has lost exactly min(length, granted budget) jobs from the front |
| `GatewayRuns.ArchivedRequestAnsweredAtOnce` | contracts/nois-gateway/src/request_router.rs:67-85 | after any run that follows the archiving of a round, an accepted request for it is answered immediately with the archived randomness |
| `JobStore.EnqueueRepresents` | contracts/nois-gateway/src/state/drand_jobs.rs:19-29 | storing under LAST_JOB_ID + 1 appends to the round's FIFO queue and keeps live ids the interval that ends at LAST_JOB_ID, for all rounds |
| `JobStore.LeastIdIsOldest` | contracts/nois-gateway/src/state/drand_jobs.rs:37-43 | a round has a live id if and only if its queue is not empty, and its least id holds the oldest job |
| `JobStore.DequeueRepresents` | contracts/nois-gateway/src/state/drand_jobs.rs:44-46 | removing the least id removes the head of that queue, without reusing ids and without touching other rounds |
| `JobStore.IdsSize` | contracts/nois-gateway/src/state/drand_jobs.rs:51-58 | the number of stored entries of a round is its queue length |
| `JobStore.ListingIsAllQueues` | contracts/nois-gateway/src/state/drand_jobs.rs:60-71 | iterating the job map in key order yields the FIFO queues concatenated in ascending round order |
| `GatewayContract.Gateway.Enqueue` | contracts/nois-gateway/src/state/drand_jobs.rs:19-29 | fails exactly on a round beyond u32 or an exhausted u16 id; otherwise the queue gains the job at its back |
| `GatewayContract.Gateway.Dequeue` | contracts/nois-gateway/src/state/drand_jobs.rs:32-47 | returns and removes the oldest job, or nothing from an empty queue |
| `GatewayContract.Gateway.UnprocessedLen` | contracts/nois-gateway/src/state/drand_jobs.rs:51-58 | the queue length, failing exactly beyond u32 |
| `GatewayContract.Gateway.AllUnprocessedJobs` | contracts/nois-gateway/src/state/drand_jobs.rs:60-71 | a page of the concatenated queues, or of their exact reverse |
| `GatewayContract.Gateway.IncrementProcessed` | contracts/nois-gateway/src/state/stats.rs:9-21 | one more processed job of this round only, or a panic at the u32 limit |
| `GatewayContract.Gateway.ArchiveLookup` | contracts/nois-gateway/src/drand_archive.rs:3-6 | the randomness stored for exactly this round |
| `GatewayContract.Gateway.ArchiveStore` | contracts/nois-gateway/src/drand_archive.rs:8-11 | overwrites this round and no other |
| `GatewayContract.Gateway.RequestsLogAdd` | contracts/nois-gateway/src/state/requests_log.rs:23-30 | appends to this channel's log only |
| `GatewayContract.Gateway.RequestsLog` | contracts/nois-gateway/src/state/requests_log.rs:32-59 | the page has min(limit, entries left) entries, entry i being number offset + i from the old or from the new end, and together with the pages that follow it is the rest of the log |
| `GatewayContract.Gateway.CreateDelivery` | contracts/nois-gateway/src/request_router.rs:164-184 | the job's channel, source id and origin with the given publish time and randomness; fails exactly if the timeout leaves u64 |
| `GatewayContract.Gateway.HandleDrandRequest` | contracts/nois-gateway/src/request_router.rs:57-119 | the stored maps change as the state machine's routing step says, with the same failures, flag and messages |
| `GatewayContract.Gateway.DrainQueue` | contracts/nois-gateway/src/request_router.rs:137-159 | the loop delivers exactly the first min(length, cap) jobs in order and counts them, and panics exactly if one of them cannot be sent or counted |
| `GatewayContract.Gateway.NewDrand` | contracts/nois-gateway/src/request_router.rs:121-160 | archives the round and drains its queue under the cap of the transaction, failing exactly when the state machine fails |
| `GatewayContract.Gateway.ReceiveRequest` | contracts/nois-gateway/src/contract.rs:398-460 | storage, acknowledgement and messages are those of the state machine, including the writes kept by an error acknowledgement |
| `GatewayContract.Gateway.ReceivePacket` | contracts/nois-gateway/src/contract.rs:367-396 | the same for packets of every kind: requests, price pulls (answered with time and price), unsupported and unparsable ones |
| `GatewayContract.Gateway.AddVerifiedRound` | contracts/nois-gateway/src/contract.rs:511-539 | untrusted senders are rejected; otherwise the state machine's verified-round step |
| `GatewayContract.Gateway.ChannelConnect` | contracts/nois-gateway/src/contract.rs:267-349 | a customer entry with zero beacons and nothing else; the payment contract with the configured funds, the welcome and the price packet, in order; panics exactly if a timeout leaves u64 |
| `DrandRuns.AcceptedIff` | contracts/nois-drand/src/contract.rs:313-375 | a submission is accepted if and only if it has no funds, is not below `min_round`, is the bot's first of the round, carries a valid signature (first three) or the beacon's randomness (later), and no counter overflows |
| `DrandRuns.RewardOfSubmission` | contracts/nois-drand/src/contract.rs:430-469 | 50, 15 or 0 points by arrival position for registered, allowlisted bots of the round's group when the round is marked or a multiple of 25 and not below `min_round`, else 0; paid in full when the balance covers them and otherwise not at all |
| `DrandRuns.RefusedBecause` | contracts/nois-drand/src/contract.rs:313-375 | which error a refused submission gets: the first of the checks it fails |
| `DrandRuns.RegisterEffects` | contracts/nois-drand/src/contract.rs:233-253 | registering fails if and only if the moniker is empty or over 20 bytes; a new bot starts at zero, a known one keeps its record, nobody else changes |
| `DrandRuns.BeaconAlwaysFound` | contracts/nois-drand/src/contract.rs:352-353 | in every reachable state the beacon load of the comparing branch succeeds |
| `DrandRuns.ForwardedIsVerified` | contracts/nois-drand/src/contract.rs:333-359 | what an accepted submission forwards is the randomness of some valid signature of its round, whichever branch checked it |
| `DrandRuns.ForwardedIsBeacon` | contracts/nois-drand/src/contract.rs:333-359 | with unique signatures it equals the stored beacon, also for the verified but not compared second and third submission |
| `DrandRuns.RunInv` | contracts/nois-drand/src/contract.rs:306-493 | over every run: a round has a beacon exactly if it has submissions, one per bot, and all beacons are verified; points and marks stay consistent |
| `DrandRuns.BeaconsAreWriteOnce` | contracts/nois-drand/src/contract.rs:482-488 | over every run a beacon never changes and submissions are only appended |
| `DrandRuns.MaxPointsBound` | contracts/nois-drand/src/contract.rs:28-37 | the most n submissions of a round can earn, in closed form, never above 195 |
| `DrandRuns.RewardsBounded` | contracts/nois-drand/src/contract.rs:337-448 | after every run: no points from the seventh submission on, at most 195 per round, the bots' points sum to all points awarded and to at most 195 per beacon, and no bot exceeds 50 per round added |
| `DrandContract.StoredIffSubmitted` | contracts/nois-drand/src/contract.rs:373-375 | the stored count is the number of arrivals and a key is stored if and only if that bot submitted |
| `DrandContract.SubmitRepresents` | contracts/nois-drand/src/contract.rs:384-397 | storing position count + 1 keeps positions a bijection onto 1..count in arrival order, for all rounds |
| `DrandContract.SortedEntriesAreArrivals` | contracts/nois-drand/src/contract.rs:182-190 | any listing of a round's entries sorted by position is the arrival sequence |
| `DrandContract.Drand.CheckSignature` | contracts/nois-drand/src/contract.rs:337-359 | verifies the first three and compares the later ones, with the model's errors |
| `DrandContract.Drand.CheckSubmission` | contracts/nois-drand/src/contract.rs:313-384 | all checks in the source's order, with their errors, against the arrival sequence |
| `DrandContract.Drand.EarnedPoints` | contracts/nois-drand/src/contract.rs:325-437 | the points the model awards for this arrival position and bot |
| `DrandContract.Drand.Record` | contracts/nois-drand/src/contract.rs:384-397 | the submission becomes the last arrival of its round |
| `DrandContract.Drand.RewardBot` | contracts/nois-drand/src/contract.rs:444-448 | a registered bot gets one round and its points, others stay unregistered |
| `DrandContract.Drand.ComputePayout` | contracts/nois-drand/src/contract.rs:450-469 | all or nothing against the balance, panicking exactly on u128 overflow |
| `DrandContract.Drand.AddRound` | contracts/nois-drand/src/contract.rs:306-493 | storage, forwarded message, points, payout and errors are those of the state machine |
| `DrandContract.Drand.IsIncentivized` | contracts/nois-drand/src/contract.rs:539-549 | the model's condition: marked or a multiple of 25, not below `min_round`, matching group |
| `DrandContract.Drand.SetIncentivized` | contracts/nois-drand/src/contract.rs:255-273 | only the gateway marks, only rounds from `min_round` on |
| `DrandContract.Drand.RegisterBot` | contracts/nois-drand/src/contract.rs:233-253 | renaming keeps the record; empty monikers and those over 20 bytes are rejected without effect |
| `DrandContract.Drand.QuerySubmissions` | contracts/nois-drand/src/contract.rs:179-193 | exactly the arrivals of the round, in arrival order |
| `ProxyModel.CommittedRound` | contracts/nois-proxy/src/publish_time.rs:22-36 | the k-th test-mode request commits to round 800 + 10k; a block-time request is published more than 5 s and, once drand runs, at most 8 s after block time, in nanoseconds |
| `ProxyModel.TestModeRounds` | contracts/nois-proxy/src/publish_time.rs:22-36 | over any sequence of calls, accepted and failing, the accepted requests without explicit time commit to 800, 810, 820 and so on |
| `ProxyModel.PaymentAcceptedIff` | contracts/nois-proxy/src/jobs.rs:22-37 | a payment is accepted if and only if one coin reaches the last listed price of its denom; which error it gets otherwise |
| `ProxyModel.MorePaysToo` | contracts/nois-proxy/src/jobs.rs:15-17 | adding coins or raising amounts never turns an accepted payment into an error |
| `ProxyModel.EmittedIffPermitted` | contracts/nois-proxy/src/contract.rs:171-294 | a request, with or without explicit time, is emitted if and only if job id (64 bytes), payment, sender, time window and u64 allow it; it asks for the explicit, test-mode or block time plus 5 s; a transfer of the known price goes to the payment contract in `IbcPay` mode only; a beacon delivered for it is passed to the requesting contract with its job id |
| `ProxyModel.RefusedBecause` | contracts/nois-proxy/src/contract.rs:226-252 | which error a refused request gets: the first of the checks it fails |
| `ProxyModel.EmittedRequestIsServable` | contracts/nois-proxy/src/contract.rs:235-243 | with `max_after` below 14562587082 s every emitted request commits to a round in 1..2^32-1 whose publish time is computable |
| `ProxyModel.ServableBoundIsTight` | contracts/nois-gateway/src/state/drand_jobs.rs:24 | at that very time the round is 2^32 |
| `PriceRegister.NewestWins` | contracts/nois-proxy/src/contract.rs:920-941 | after any list of price infos the register holds a newest `unois` info that is not older than its initial value, or is unchanged if there is none |
| `PriceRegister.OrderIndependentIffNewestAgree` | contracts/nois-proxy/src/contract.rs:865-875 | all arrival orders of a list give the same final price if and only if its newest counting infos agree on the amount |
| `PriceRegister.DuplicatesHarmlessIffNewestAgree` | contracts/nois-proxy/src/contract.rs:891-901 | infos that arrive again never change the price if and only if the newest counting infos agree on the amount |
| `PriceRegister.DuplicateTakesPriceBack` | contracts/nois-proxy/src/contract.rs:931-940 | an input where they do: amounts 5 and 7 with one timestamp give 7, and 5 arriving again gives 5 |
| `ProxyContract.IndexPrices` | contracts/nois-proxy/src/jobs.rs:27 | the price map holds for each denom its last listed price |
| `ProxyContract.ValidatePayment` | contracts/nois-proxy/src/jobs.rs:22-37 | the loop accepts if and only if some coin has at least the amount of the last listed price in its denom; an empty price list accepts nothing |
| `ProxyContract.Proxy.SaveAllowlist` | contracts/nois-proxy/src/contract.rs:79-83 | all addresses are added, or the call fails if one of them is invalid |
| `ProxyContract.Proxy.Instantiate` | contracts/nois-proxy/src/contract.rs:38-94 | succeeds if and only if all given addresses are valid and the window fits u64; the request window is ten years from now, the test-mode counter starts at 0, the price is 0 |
| `ProxyContract.Proxy.CalculateAfter` | contracts/nois-proxy/src/publish_time.rs:22-36 | advances the counter from the k-th to the (k+1)-th step and returns a time that commits to round 800 + 10k, or block time plus the margin |
| `ProxyContract.Proxy.GetRandomnessImpl` | contracts/nois-proxy/src/contract.rs:217-294 | the checks in the source's order with their errors, the payment transfer of the `IbcPay` mode, and the packet with the encoded origin |
| `ProxyContract.Proxy.GetRandomness` | contracts/nois-proxy/src/contract.rs:171-215 | both entry points: the counter and the packet are those of the model |
| `ProxyContract.Proxy.ReceiveWelcome` | contracts/nois-proxy/src/contract.rs:853-863 | the payment address becomes known and nothing else changes |
| `ProxyContract.Proxy.UpdateNoisBeaconPrice` | contracts/nois-proxy/src/contract.rs:920-941 | one update of the price register, which is the price requests pay, and nothing else |
| `SinkModel.PagingVisitsEachAshOnce` | contracts/nois-sink/src/contract.rs:149-175 | a client that passes the last seen id visits every ash exactly once, in order, in both directions and for any page size |
| `SinkModel.QueryShows` | contracts/nois-sink/src/contract.rs:161-173 | a page shows consecutive ids from the cursor on, each with burner, amount and time of its ash, as many as limit and history allow, in both directions |
| `SinkContract.Sink.Record` | contracts/nois-sink/src/contract.rs:80-94 | ids stay exactly 1..last; the new ash is the last |
| `SinkContract.Sink.Burn` | contracts/nois-sink/src/contract.rs:66-105 | succeeds if and only if exactly one `unois` coin is sent and ids remain; the coin is recorded with burner and time and burnt whole; the errors otherwise |
| `SinkContract.Sink.BurnBalance` | contracts/nois-sink/src/contract.rs:107-147 | succeeds if and only if no funds are sent, the balance is not zero and ids remain; the whole balance is recorded without burner and burnt; the errors otherwise |
| `SinkContract.Sink.QueryAshes` | contracts/nois-sink/src/contract.rs:149-175 | the page of the burn history after (before, when descending) the cursor |
| `PaymentModel.OutflowsTotal` | contracts/nois-payment/src/contract.rs:103-135 | the emitted outflows sum to the three shares, and none is zero |
| `PaymentModel.OutflowsInOrder` | contracts/nois-payment/src/contract.rs:103-135 | non-zero shares leave in the order burn, relayer, pool |
| `PaymentModel.ExecutePay` | contracts/nois-payment/src/contract.rs:80-143 | only the gateway may pay, without funds and to a valid relayer, with the error of the first failing check; the messages total the three shares |
| `Ledger.PayDistributes` | contracts/nois-payment/src/contract.rs:103-135 | for every account: a payment credits the sink, the relayer and the pool with their shares, whoever they are, and nobody else; a non-zero burn share becomes one ash |
| `Ledger.PayInv` | contracts/nois-payment/src/contract.rs:80-143 | a payment to a valid relayer spends exactly the price it records, whoever the relayer is and whichever share is zero, and keeps the books of all contracts |
| `Ledger.FundInv` | contracts/nois-gateway/src/contract.rs:304-318 | funding a new payment contract is recorded as the gateway's spending and keeps the books of all contracts |
| `Ledger.FundCredits` | contracts/nois-gateway/src/contract.rs:309-318 | initial funds arrive at the new payment contract and nowhere else |
| `Ledger.PayBotCredits` | contracts/nois-drand/src/contract.rs:472-480 | a payout arrives at the submitting bot and nowhere else |
| `Ledger.BurnFromCredits` | contracts/nois-sink/src/contract.rs:66-105 | a burn passes through the sink as one ash that names its burner, and only for one `unois` coin |
| `Ledger.SendInv` | contracts/nois-payment/src/contract.rs:91-92 | whatever outsiders send, the books of the contracts stay exact |
| `Ledger.MoneyConserved` | contracts/nois-sink/src/contract.rs:66-147 | over every run, also with outsiders spending and burning their coins, what a contract received is its balance plus what was recorded as spent: prices charged, bot payouts (which thus never exceed drand's funds), initial funds given by the gateway, ashes of the sink |
| `ProtocolSteps.ForeignCallsFail` | contracts/nois-gateway/src/contract.rs:519-526 | nobody but the drand contract can feed the gateway and nobody but the gateway can mark rounds |
| `ProtocolSteps.StepInv` | contracts/nois-gateway/src/request_router.rs:57-160 | every protocol event keeps the invariant that ties gateway, drand, proxies, network, bank and request history together |
| `ProtocolSteps.RunInv` | contracts/nois-gateway/src/request_router.rs:57-160 | so does every run |
| `ProtocolRefinement.ProtocolRefinesGateway` | contracts/nois-gateway/src/contract.rs:102-132 | inside every protocol run the gateway takes a run of its own state machine, so its results carry over |
| `ProtocolRefinement.ProtocolRefinesDrand` | contracts/nois-drand/src/contract.rs:306-493 | the same for the drand contract |
| `ProtocolRefinement.VerifiedBeaconNeverChanges` | contracts/nois-drand/src/contract.rs:482-488 | whatever happens in the protocol, a beacon never changes and arrivals are only appended |
| `ProtocolTheorems.EveryRequestHasOnePlace` | contracts/nois-gateway/src/request_router.rs:57-160 | after every run, accepted requests and occupied places (request in flight, expired or rejected, queued job, delivery in flight or expired, callback) are in one-to-one correspondence, and no delivery is refused |
| `ProtocolTheorems.PlaceHoldsRequest` | contracts/nois-gateway/src/request_router.rs:69-73 | the content at a request's place is that request's own: its packet, its job at the right queue position, or a delivery or callback that answers it |
| `ProtocolTheorems.RequestsConserved` | contracts/nois-proxy/src/contract.rs:217-294 | the number of accepted requests is the sum over all places |
| `ProtocolTheorems.CallbacksAreCorrect` | contracts/nois-proxy/src/contract.rs:812-851 | every callback is the one place of one request and went to its sender with its job id, the publish time of the least round after the requested time, and verified randomness of that round |
| `ProtocolTheorems.DrainClosedForm` | contracts/nois-gateway/src/request_router.rs:121-160 | after every run, of the jobs ever queued for a round exactly min(queued, min(n,3) + 10·max(0,n-3)) have left after n accepted submissions |
| `ProtocolTheorems.DeliveredIffWithinBudget` | contracts/nois-gateway/src/request_router.rs:140-155 | after every run with n accepted submissions of a round, the request that got job id k of the round has a delivery if and only if k <= min(n,3) + 10·max(0,n-3); it then has exactly one, which answers it |
| `ProtocolTheorems.QueuedJobsDelivered` | contracts/nois-drand/src/contract.rs:337-349 | of the jobs queued before a round's first submission, after any further run exactly the first min(n,3) + 10·max(0,n-3) have been delivered, oldest first |
| `ProtocolTheorems.DrainOfQueuedJobs` | contracts/nois-drand/src/contract.rs:329-349 | a round with Q queued jobs at its first submission has Q - min(Q, min(n,3) + 10·max(0,n-3)) left in the queue after n submissions, whatever happens in between |
| `ProtocolTheorems.VerifiedRoundFrozen` | contracts/nois-gateway/src/request_router.rs:67-101 | no request is ever queued again for an archived round |
| `ProtocolTheorems.AgreementIffUnique` | contracts/nois-gateway/src/request_router.rs:129 | the overwritten archive, the write-once beacons and all deliveries ever sent agree after every run if and only if all valid signatures of a round yield one randomness |
| `ProtocolTheorems.DisagreementRun` | contracts/nois-drand/src/contract.rs:337-359 | two valid signatures of a round with different randomness lead to a concrete run after which archive and beacon differ |
| `ProtocolTheorems.QueuedRoundsAreIncentivized` | contracts/nois-gateway/src/request_router.rs:86-99 | in every reachable state a round with a queued job is marked at drand and was not below `min_round` when marked |
| `ProtocolTheorems.QueuedRoundRewards` | contracts/nois-drand/src/contract.rs:539-549 | after every run, an accepted submission of a round with a queued job, by a registered and allowlisted bot of its group and not below `min_round`, earns 50 points among the first three and 15 among the next three |
| `ProtocolTheorems.MoneyConserved` | contracts/nois-payment/src/contract.rs:103-135 | in every reachable state there is one charge per accepted request, and the receipts of the gateway, the drand contract, the sink and every payment contract are their balance plus their recorded spending |
| `ProtocolTheorems.SpendingAccountedFor` | contracts/nois-gateway/src/contract.rs:434-455 | over every run the recorded spending is exactly, in order, the gateway's price at each accepted request, its initial funds for each new payment contract, and the reward of each accepted submission that the balance covered, with the bot that got it |
| `ProtocolTheorems.ReceiptsAccountedFor` | contracts/nois-payment/src/contract.rs:103-135 | over every run the receipts of every account, contract or not, are exactly: of each accepted request's price 40% for the sink, 20% for its relayer and the rest for the pool, initial funds for payment contracts, rewards for the submitting bots, and what outsiders sent |
| `Greeting.GreetedProxyPaysItsContract` | contracts/nois-proxy/src/contract.rs:254-275 | once the welcome and price packets of its channel arrived, in either order, a request in `IbcPay` mode transfers the gateway's price to the payment contract that the gateway charges for that channel |
| `ProtocolHistory.OneDelivery` | contracts/nois-gateway/src/request_router.rs:140-155 | no request ever gets two deliveries |
| `ProtocolHistory.RunHistory` | contracts/nois-gateway/src/request_router.rs:57-160 | over every run, each job id ever handed out belongs to one request of its round, which is queued under it or has a delivery, and each delivery travels, expired or led to the callback of its request |
| `ProtocolProgress.EmittedRequestIsRouted` | contracts/nois-proxy/src/contract.rs:235-243 | a request emitted below the bound is never refused for its round: routing fails only on counters, job ids or the timeout |
| `ProtocolProgress.AllRequestsServable` | contracts/nois-gateway/src/state/drand_jobs.rs:24 | the same for every request of every run in which all proxies stay below the bound |
| `ProtocolProgress.QueuedJobCanBeCalledBack` | contracts/nois-drand/src/contract.rs:306-493 | from every reachable state with a queued job, enough submissions by new bots and one relay lead to the callback of its request, while counters and times are in range |
| `ProtocolProgress.SomeRunCallsBack` | contracts/nois-proxy/src/contract.rs:812-851 | a run from deployment to the callback of the requesting dapp exists |

## Left out

- BLS verification, SHA-256, bech32 validation and `instantiate2_address`: foreign code, present as parameters only.
- JSON and protobuf encoding: library code; the origin codec is a parameter, other packets are values.
- cw-storage-plus byte layouts, except for the raw archive key: maps, items and deques are maps, values and sequences.
- Handshake checks, channel close, migrations, sudo and governance wrappers, config setters and their authorization, later changes of allowlists: single-branch facts.
- nois-icecube, nois-demo, nois-monitoring, packages/misc, packages/multitest: thin forwarders, demo arithmetic or test support.
- Event attributes, gas use, callback replies and acknowledgement handling other than the pulled price: no state.
- Withdrawals from proxies and the proxy's manual price override.
- In the protocol, welcome and price packets and `IbcPay` transfers do not travel; proxies may be reconfigured and coins may arrive at any moment, which includes their effects.
- GatewayContract.Gateway.ArchiveStore: does not model that the host rejects empty values; derived randomness is a 32-byte hash.
- GatewayContract.Gateway.RequestsLogAdd: does not model the u32 length limit of the library's deque.
- ProxyContract.Proxy.GetRandomnessImpl: the job id limit of 64 bytes comes from the `nois` crate, which is not part of this model.
- ProtocolTheorems.EveryRequestHasOnePlace: safety only; that relayers and bots act at all is not claimed, what follows when they do is `ProtocolProgress.QueuedJobCanBeCalledBack`.
