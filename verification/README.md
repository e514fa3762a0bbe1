# IoT billing: a verified model

A Soroban contract bills metered devices. Devices sign numbered readings; anyone may carry a
reading to the contract; the contract checks the signature and the number, takes the cost from
the device's escrow, credits the device's operator and publishes a `meter` event. A backend
polls those events page by page into a cache, and an HTTP API answers from the cache.

The model follows the contract, the device, the indexer, the cache and the API, and proves what
holds of them together in every run.

| module | what it is |
|---|---|
| `Prelude` | machine integer ranges, optional values, sums over ledgers |
| `Codec` | the 70 signed bytes, built three ways, and their decoder |
| `Billing` | the five ledgers, the token, and for each entrypoint: when it succeeds, what it commits, how it refuses |
| `Contract` | the entrypoints as they are written (read, write, perhaps fail), and the transaction that rolls back |
| `Journal` | a second account of all ledgers, from the event log alone |
| `Custody` | conservation of the token, solvency, arithmetic that cannot go wrong |
| `Effects` | who must agree to what, where tokens go, exactly when each call succeeds, and which error answers which failed condition |
| `Interleaving` | readings of different devices commute |
| `Replay` | what a captured signature is good for |
| `Store`, `Series`, `Delivery` | the cache, its queries, its time series, and why delivery order and repetition do not show |
| `Indexer` | `poll()` as a step machine, one step per await |
| `Poller` | `poll()` as the loop it is, shown to be a run of that machine |
| `Watermark` | exactly when the watermark falls, and why the cursor is needed |
| `Emulator` | the device |
| `World` | all of these at once, as a list of actions of any length and order |
| `Api`, `EndToEnd` | the served answers against the contract's ledgers, over whole runs; a route is two queries with anything in between |
| `Scenario` | a small deployment whose runs show that the failures described below do happen |

A run is a list of `World.Action`: transactions with any authority, movements of the token,
closing ledgers, emissions, starting a poll while others are still in flight, one await of one
poll, a poll that fails at any await, a visit to the API, one query of one visit, a crash that
drops all polls and visits. An action that is impossible
at its turn does nothing, so a theorem about all lists covers every interleaving. The network is
in the `Transaction` action: any signature ever made may be delivered any number of times, in
any order, or never.

## Hypotheses

- Host: an invocation that returns an error or traps is rolled back; no re-entrancy; ledger time
  does not decrease; the contract's own address (`SELF`) never gives its authority.
- Signatures are ideal: verification succeeds exactly for (key, bytes) pairs that key has signed
  (section 5.1.7 of RFC 8032 without its arithmetic). Addresses are opaque and distinct.
- Token (SEP-41): `transfer` succeeds exactly when the source covers the amount and the target
  does not overflow; the supply is at most 2^127 − 1; nothing leaves the contract except through
  the contract; anyone may send the contract tokens (`donated`).
- RPC: events come in chain order; every page carries a cursor that points just behind it; a
  page shorter than the limit reaches `latestLedger`; closed ledgers do not change; full history
  is kept. A request that starts above `latestLedger` is answered with an empty page; where an
  RPC refuses that range instead, a caught-up poll fails and changes nothing, which `World`
  covers with a failing poll, while the call count of `Poller.EventIndexer.Poll` then speaks of
  polls that start at or below `latestLedger`. `Watermark.CursorIsEssential` shows what the
  cursor hypothesis is for.
- Cache: one contract per database, watermark starting at 0, values exact (each within what a
  JavaScript number or a 64-bit column holds).

## Where the code and its own words differ

- Both device routes await two queries (`backend/src/api/server.js:73` and `:80`, `:59` and
  `:60`) on a store the poller writes to. A row ingested in between tears the answer:
  `Scenario.TornAnswers` is a run in which the balance route answers with a sequence number and
  totals that the contract never showed together, and the metrics route with a series that does
  not add up to its samples. `EndToEnd.ServedBalanceWasOnChain` and `EndToEnd.ServedMetrics` say,
  for every answer of every run, exactly when this happens: when a row of the device (a matching
  row) came in between the two queries.
- `README.md:94` calls the route's `on_chain_balance` the on-chain balance. It is the deposit
  right after the newest reading its first query saw. It equals the current deposit exactly when
  later top-ups and later costs cancel (`Api.BalanceLag`); `Scenario.ServedIsNotCurrent` is a run
  in which everything is cached and the route says 3 while the contract says 8.
- `contracts/src/storage.rs:181-182` says a captured signature cannot be replayed across
  devices. Registration does not ask whether a key is already in use, so this holds exactly when
  the devices have different keys: `Replay.ReplayNeedsSharedKey` gives the exact condition, for
  all later moments of every run, and `Replay.SharedKeyBillsTwice` a run in which one signed
  reading is charged to two devices.
- `setInterval` (`backend/src/indexer/indexer.js:38`) does not wait for a poll to end, so a
  slower poll may take the watermark back (`Watermark.OverlapMayStepBack`). It does so exactly
  when, since its re-read, another poll's write has left a higher mark (`Watermark.FallsExactly`);
  hence never while polls do not overlap (`Watermark.MonotoneWithoutOverlap`). It stays safe in
  every run (`World.CacheIsPrefixAlways`).
- `emit()` moves its counter before it signs (`emulator/client.py:96-97`). It raises exactly when
  the next number, the units or the time does not fit eight bytes, and that number is then never
  signed. For a caller that goes on emitting with the same key, the next reading of the device
  can be billed exactly when no call before it raised, and otherwise nothing is billed any more
  (`EndToEnd.NextReadingExactly`; `EndToEnd.SkippedForGood` is such a run). The emulator's own
  `stream()` (`emulator/client.py:110-121`) does not catch the error: its process ends, and the
  key it generated ends with it.

## Model

| member | source | states |
|---|---|---|
| Contract.IotBillingContract.RegisterDevice | contracts/src/lib.rs:59-100 | Succeeds exactly for an authorised new device with a rate of at least 0, and commits that registration, tariff, zero deposit and event; otherwise returns the refusal the first failing check gives |
| Contract.IotBillingContract.DepositFunds | contracts/src/lib.rs:108-137 | Succeeds exactly when registered, positive, within i128 and payable; wallet, custody, deposit and event move by the same amount |
| Contract.IotBillingContract.VerifySignature | contracts/src/storage.rs:183-206 | Accepts exactly the signatures that the registered key made over this very reading |
| Contract.IotBillingContract.SubmitReading | contracts/src/lib.rs:151-229 | Succeeds exactly when a predicate of the state before holds and then commits exactly the billed state; a failure gives the first refusal in the source's order, and leaves writes behind only when an overflow is found after the balance check |
| Contract.IotBillingContract.SettleBalance | contracts/src/lib.rs:236-266 | Pays exactly the amounts within withdrawable earnings that the token can move, and otherwise returns the source's refusal |
| Contract.IotBillingContract.Transact | contracts/src/lib.rs:197-226 | Atomicity: whatever the entrypoint wrote before failing, a refused transaction leaves ledgers, token and event log as they were, and an accepted one commits its whole effect |
| Effects.AuthorityNeeded | contracts/src/lib.rs:66-67 | Whatever is called: an account is debited, a device registered or topped up and an operator paid only under their own authority; a deposit falls only for the next reading, signed by the registered key |
| Effects.SupplyStays | contracts/src/lib.rs:123-127 | No call makes or destroys tokens |
| Effects.RegistrationRecords | contracts/src/lib.rs:76-87 | A registration records exactly this operator, key, time and rate, Active and with nothing deposited, and touches no other device |
| Effects.DepositMoves | contracts/src/lib.rs:122-134 | A deposit takes exactly the amount from the device's account into custody and onto its deposit; nobody else's balance changes |
| Effects.ReadingMoves | contracts/src/lib.rs:192-226 | A reading moves units times rate from the device's deposit to its operator's earnings, advances number and units, and stamps counter and event with ledger time; no token moves |
| Effects.SettlementPays | contracts/src/lib.rs:249-263 | A settlement pays exactly the amount from custody to the operator's own account; nobody else's balance and no deposit changes |
| Effects.RegisterExactly | contracts/src/lib.rs:66-74 | Accepted if and only if device and operator agree, the rate is not negative and the device is new |
| Effects.DepositExactly | contracts/src/lib.rs:109-127 | In every sound state: accepted if and only if the registered device agrees and owns the positive amount; no overflow stands in its way |
| Effects.SubmitExactly | contracts/src/lib.rs:159-220 | Accepted if and only if the reading is next, signed by the registered key, paid for by the deposit, and earnings and unit counter have room |
| Effects.SettleExactly | contracts/src/lib.rs:237-254 | In every sound state: accepted if and only if the operator agrees and asks for a positive amount within unpaid earnings |
| Effects.RegisterErrors | contracts/src/lib.rs:66-74 | Which of the trap, InvalidRate and AlreadyRegistered answers which failed condition |
| Effects.DepositErrors | contracts/src/lib.rs:109-127 | Which of NotRegistered, InvalidAmount, Overflow and the trap answers which failed condition; Overflow only for an amount the device does not own |
| Effects.SubmitErrors | contracts/src/lib.rs:159-220 | Which of NotRegistered, ZeroReading, InvalidSequence, the trap, InsufficientBalance and Overflow answers which failed condition |
| Effects.SettleErrors | contracts/src/lib.rs:237-259 | Which of the trap, InvalidAmount and InsufficientEarnings answers which failed condition, and that no other refusal is possible |
| Effects.GuardErrors | contracts/src/lib.rs:159-192 | In any state at all: a device that is not active, missing or negative records and a missing token are refused with the source's errors |
| Journal.InvokeKeepsLog | contracts/src/lib.rs:89-97 | Every transaction keeps the storage equal to what the event log alone determines, and every event true of the log before it |
| Journal.SameLogSameLedgers | contracts/src/lib.rs:268-287 | Two such states with the same event log have the same operator assignment, tariff, deposit, counters and earnings for every address |
| Journal.RegistrationIsFinal | contracts/src/lib.rs:72-87 | Operator and tariff never change after registration; lifetime totals never fall |
| Custody.InvokeKeepsSound | contracts/src/lib.rs:108-266 | Every transaction keeps: custody = deposits + unpaid earnings + donations, deposits at least 0, 0 ≤ settled ≤ earned, last sequence ≤ cumulative units, status Active |
| Custody.WithinEarningsSettles | contracts/src/lib.rs:231-266 | A settlement succeeds if and only if it is positive and within the operator's unpaid earnings: neither the token transfer nor the addition can fail |
| Custody.ClaimsSettle | contracts/src/lib.rs:231-266 | Claims of any operators in any order all succeed if and only if each operator's claims together stay within its unpaid earnings, and then every operator's account has received exactly its claims; deposits do not move and stay backed, and no token is lost |
| Custody.ArithmeticBounds | contracts/src/lib.rs:244-259 | saturating_sub never saturates, settled never overflows, exhausting the sequence implies the unit counter is exhausted, a deposit overflows only when the wallet could not pay, the unchecked subtraction stays at least 0 |
| Interleaving.BatchBills | contracts/src/lib.rs:151-229 | A batch of readings is billed completely if and only if each device's own stream would be and each operator's final total fits |
| Interleaving.BatchOutcome | contracts/src/lib.rs:196-226 | After a completely billed batch each device is where its own stream alone takes it, and each operator has earned the credits of the batch |
| Interleaving.InterleavingsAgree | contracts/src/lib.rs:151-229 | Any interleaving of the same device streams, at whatever ledger times, is billed completely or not alike, and gives the same deposits, units, sequences and operator totals |
| Replay.SignatureFitsOneReading | contracts/src/storage.rs:173-182 | One signature verifies for one key and one reading only |
| Replay.NoReplayOnSameDevice | contracts/src/lib.rs:167-176 | A billed submission is never billable for that device again while its counter does not fall, and is refused for its sequence |
| Replay.ReplayNeedsSharedKey | contracts/src/storage.rs:177-182 | In every run, a submission billable for one device is billable for another at any later moment if and only if they share the key and the other's sequence, deposit and limits admit it |
| Replay.SharedKeyBillsTwice | contracts/src/storage.rs:177-182 | A run from a fresh deployment in which a key signs one reading at a positive rate, two devices pay for it and the operator earns it twice |
| Codec.ContractMessage | contracts/src/storage.rs:195-200 | Five appends give 70 bytes from which key, sequence, units and timestamp are read back |
| Codec.DecodeMessage | contracts/src/storage.rs:195-200 | The decoder is a left inverse of the signed encoding |
| Codec.MessageDecode | contracts/src/storage.rs:195-200 | Whatever decodes is exactly the encoding of what it decodes to |
| Codec.MessageInjective | contracts/src/storage.rs:173-182 | No two (key, reading) pairs share their signed bytes |
| Codec.MessageLayout | contracts/src/storage.rs:173-200 | Byte by byte: fourteen characters "iot-billing-v1", the key, and sequence, units and timestamp in this order, each most significant byte first |
| Codec.BigEndianDigits | contracts/src/storage.rs:198-200 | Byte k of an encoded integer is its digit for 256 to the power of the bytes behind it |
| Codec.Widths | backend/src/api/readings.js:57-63 | u64, i128 and safe integers end at 2^64 − 1, 2^127 − 1 and 2^53 − 1 |
| Codec.U64Be | backend/src/api/readings.js:17-21 | The buffer filled in place holds the big-endian digits |
| Codec.GatewayMessage | backend/src/api/readings.js:34-53 | The gateway builds the message exactly for a 32-byte key and fields its parser admits |
| Codec.GatewayExactly | backend/src/api/readings.js:34-63 | What the gateway builds decodes to a reading of safe integers if and only if the key has 32 bytes and the three numbers are that reading's |
| Codec.ParseU64Domain | backend/src/api/readings.js:57-63 | The parser admits exactly the integers 0 to 2^53 − 1, each as itself |
| Codec.BuildersAgree | emulator/client.py:64-68 | For all 64-bit fields emulator and contract build the same bytes; the gateway builds them too if and only if every field is a safe integer, and otherwise none |
| Emulator.EmitKeepsOrder | emulator/client.py:91-97 | Emitted numbers stay strictly increasing, units stay positive, and history only grows |
| Emulator.EmulatedDevice.Emit | emulator/client.py:85-108 | The counter moves even if signing raises, which it does exactly when number, ticks or time exceed eight bytes; what is returned is the newest emitted reading under this device's signature, with the ticks measured (at least 1) and the time given |
| Store.CacheStore.IngestRow | backend/src/db/store.js:206-271 | A row enters exactly when its event_id is new; otherwise nothing changes |
| Store.CacheStore.SetLastLedger | backend/src/db/store.js:196-204 | The watermark becomes this ledger and nothing else changes |
| Store.CacheStore.GetLastLedger | backend/src/db/store.js:189-194 | The persisted watermark, or 0 |
| Store.MetricsForMeaning | backend/src/db/store.js:273-291 | Exactly the matching rows, in ascending sequence |
| Store.TextLeqMeaning | backend/src/db/store.js:276-283 | The text order of the bounds is the dictionary's: one text starts the other, or has the smaller character where they first differ |
| Store.MetricsForExactly | backend/src/db/store.js:273-291 | The answer holds exactly the rows of the device stamped not before from and not after to, each as often as the table, in ascending sequence; an empty bound does not restrict |
| Store.LatestSequenceMeaning | backend/src/db/store.js:326-332 | The greatest sequence among the device's rows, or 0 without rows |
| Store.ListDevicesMeaning | backend/src/db/store.js:334-346 | One summary per device that has rows, equal to what those rows count, add up to and reach |
| Store.FoldPermutation | backend/src/db/store.js:273-346 | A query whose steps commute sees only which rows there are |
| Series.AggregateMeaning | backend/src/db/store.js:293-324 | Buckets strictly ascending; under each key exactly the matching rows with that key, with their sums, count, least and greatest balance |
| Series.DailyBuckets | backend/src/db/store.js:308-322 | Under each date of ten characters exactly one bucket, named by it, of exactly the wanted rows whose stamps begin with it; none without such rows |
| Series.HourlyBuckets | backend/src/db/store.js:304-322 | The same for thirteen characters, named with ":00:00" behind |
| Series.BucketWidth | backend/src/db/store.js:304-310 | Every bucket is named by a date, or by a date and an hour |
| Series.BucketsInOrder | backend/src/db/store.js:320-321 | Bucket names ascend strictly in dictionary order |
| Series.SeriesAddsUp | backend/src/db/store.js:293-324 | At either granularity the buckets add up to the matching rows in units, cost and number |
| Series.MetricsRouteAgrees | backend/src/api/server.js:57-70 | The served series adds up to the samples of the earlier query plus the matching rows ingested in between; the two halves agree if and only if there were none |
| Series.DailyIsHourlyRolledUp | backend/src/db/store.js:304-310 | Rolling the hourly series up by date gives exactly the daily series, least and greatest balances included |
| Delivery.RowOrderIrrelevant | backend/src/db/store.js:273-346 | Tables with the same rows in any insertion order answer every query alike; for metricsFor, when no sequence is tied |
| Delivery.RedeliveryIgnored | backend/src/db/store.js:222-254 | Any re-delivery of held events changes nothing |
| Delivery.DeliveryIrrelevant | backend/src/db/store.js:206-271 | Two histories that repeat and reorder the same events leave caches that agree on every answer not made from the indexer's clock |
| Indexer.HandleKeepsPrefix | backend/src/indexer/indexer.js:105-137 | Handling the next uncovered event keeps the rows an exact prefix of the billing events and covers one event more |
| Indexer.NextKeeps | backend/src/indexer/indexer.js:50-103 | Every await of every poll keeps the cache a prefix, its watermark safe and the poll's own variables sound |
| Indexer.GrowthKeeps | backend/src/indexer/indexer.js:71-75 | Chain growth between awaits takes nothing away from a poll in flight |
| Indexer.MoreRowsKeep | backend/src/indexer/indexer.js:37-41 | Rows ingested by another poll take nothing away from a poll in flight |
| Poller.EventIndexer.HandlePage | backend/src/indexer/indexer.js:73-79 | The inner loop is a run of the step machine, and lastProcessedLedger ends at the ledger of the last event handled |
| Poller.EventIndexer.FetchPage | backend/src/indexer/indexer.js:58-79 | One turn fetches the next page in chain order and handles all of it |
| Poller.EventIndexer.AdvanceWatermark | backend/src/indexer/indexer.js:87-95 | The watermark moves to the last processed ledger, or else to latestLedger, and only upwards |
| Poller.EventIndexer.Poll | backend/src/indexer/indexer.js:50-103 | A lone poll is a run of the step machine; it completes if and only if every call it needs is answered, after exactly floor(n/200)+1 calls for n events above the watermark, with every closed event cached; a failed call keeps watermark and rows ingested so far |
| Poller.RunKeeps | backend/src/indexer/indexer.js:50-103 | At every await of a lone poll cache and poll are sound and no row is lost |
| Poller.MarkIs | backend/src/indexer/indexer.js:84-95 | The mark a completed poll settles on is never below the one it started from |
| World.EveryRun | backend/src/indexer/indexer.js:50-103 | In every state of every run: token conserved, log determines storage, cache an exact prefix with a safe watermark, polls sound, only devices sign and only what they emitted |
| World.CacheIsPrefixAlways | backend/src/indexer/indexer.js:50-103 | Mid-page, after exceptions and crashes, with overlapping polls: row k is the k-th billing event of the contract, and everything up to the watermark is cached |
| World.CustodyAlways | contracts/src/lib.rs:108-260 | Custody = deposits + unpaid earnings + donations in every state of every run |
| World.EmitKeeps | emulator/client.py:91-108 | An emission keeps all signatures traceable to emitted readings |
| EndToEnd.AuthorityAlways | contracts/src/lib.rs:66-67 | In every state of every run, the next transaction debits an account, tops up a device or pays an operator only under its authority, and keeps the supply |
| EndToEnd.RegisteredByAuthority | contracts/src/lib.rs:66-67 | In every run, every registered device and its operator agreed to the registration in one transaction |
| Watermark.FallsExactly | backend/src/indexer/indexer.js:87-95 | In every run, a step lowers the watermark if and only if it writes a mark and, since this poll's re-read, another poll's write has left a higher one |
| Watermark.MonotoneWithoutOverlap | backend/src/indexer/indexer.js:87-95 | Hence, while polls do not overlap, the watermark never falls |
| Watermark.OverlapMayStepBack | backend/src/indexer/indexer.js:37-41 | From every fresh deployment some run with two polls lowers the watermark |
| Watermark.SafeExactly | backend/src/indexer/indexer.js:84-95 | A mark is safe if and only if no uncached billing event lies at or below it |
| Watermark.CursorIsEssential | backend/src/indexer/indexer.js:84-95 | After a full page without cursor the poll ends at the ledger of that page's last event, which is safe if and only if no billing event of that ledger lies beyond the page |
| Watermark.CursorlessPollLosesAReading | backend/src/indexer/indexer.js:84-95 | With a registration and 200 readings in one ledger it is not safe |
| Api.BalanceOfOwn | backend/src/api/server.js:72-86 | When the first query sees rows 1 to k and the second rows 1 to l, the route answers with the k-th row's balance, the sums of the first k rows and sequence l |
| Api.BalanceCoherentExactly | backend/src/api/server.js:72-86 | The answer is one a single look at the cache could have given if and only if k = l |
| Api.ShowsAMomentExactly | backend/src/api/server.js:72-86 | The chain passed through a moment with exactly the answered balance, sequence, units and cost if and only if k = l |
| Api.BalanceIsContractThen | backend/src/api/server.js:72-86 | The route's units, cost and balance are the contract's own right after the newest reading the first query saw, and its sequence is the number of rows the second query saw; zeros and no balance without a row in the first |
| Api.BalanceLag | backend/src/api/server.js:74-79 | on_chain_balance = current deposit + later costs − later top-ups; current if and only if those cancel |
| Scenario.ServedIsNotCurrent | backend/src/api/server.js:74-79 | A run in which every reading is cached and the served balance is still not the current deposit |
| Api.ListingAddsUp | backend/src/db/store.js:334-346 | The listed costs add up to the cost of all cached rows |
| Api.ListingUnderOperator | backend/src/db/store.js:334-346 | At every cached point the listed costs of an operator's devices add up to what the operator had earned by then |
| Api.EarningsAddUp | contracts/src/lib.rs:204-210 | All operators' earnings together are all costs billed |
| Api.CaughtUpListing | backend/src/db/store.js:334-346 | Caught up, the listed costs of an operator's devices equal its total_earned |
| Api.CaughtUpTotals | backend/src/db/store.js:334-346 | Caught up, all listed costs equal the sum of total_earned over all operators |
| EndToEnd.BilledArePrefixOfEmitted | contracts/src/lib.rs:167-185 | Over a network that loses, repeats and reorders, the k-th reading billed for a device is the k-th its key emitted, each billed once, in every run |
| EndToEnd.NextBilledIsNextEmitted | contracts/src/lib.rs:167-185 | The only reading that can be billed next is the next one emitted |
| EndToEnd.EmittedBilledCached | backend/src/indexer/indexer.js:105-137 | In every state of every run a device's cached readings are a prefix of its billed ones, which are a prefix of its emitted ones |
| EndToEnd.EmittedIsMeasured | emulator/client.py:85-97 | In every run the k-th emitted reading of a key carries the ticks (at least 1) and time of its k-th emit() that did not raise |
| EndToEnd.BilledIsMeasured | emulator/client.py:85-97 | In every run the k-th reading billed for a device, and its k-th cached row, carry the units of the k-th such measurement, the row at units times tariff |
| EndToEnd.CachedRowIs | backend/src/indexer/indexer.js:116-136 | In every run each cached row is the whole billing event at its place on the chain, with its ledger, and the wall clock of the await that brought it in |
| EndToEnd.CachedArePrefixOfMeters | backend/src/indexer/indexer.js:111-134 | A device's cached rows carry, in order, the units, cost, balance, sequence and time of its first billing events |
| EndToEnd.VisitReads | backend/src/api/server.js:57-86 | In every state of every run each visit's two queries saw the tables of two moments, in that order |
| EndToEnd.ServedBalanceWasOnChain | backend/src/api/server.js:72-86 | For every balance answer of every run: balance and totals with sequence k are what the contract's getters gave at some moment, the sequence is the l of the second query, and the whole answer is what the getters gave at some moment if and only if k = l |
| EndToEnd.ServedMetrics | backend/src/api/server.js:57-70 | For every metrics answer of every run: series and samples agree if and only if no matching row was ingested between the two queries |
| Scenario.TornAnswers | backend/src/api/server.js:57-86 | A run in which both routes answer with halves of different moments, the balance answer matching no moment of the run |
| EndToEnd.InsufficientBalanceIsNotFinal | contracts/src/lib.rs:192-202 | A reading refused only for lack of funds has, after any further run, either been billed itself, or is still the expected one and is billed if and only if the deposit covers it and the totals fit |
| EndToEnd.SkippedNumberBlocks | emulator/client.py:96-97 | Once an emitted history skips a number, no more readings than before the gap are ever billed |
| EndToEnd.CounterAheadExactly | emulator/client.py:91-97 | In every run the counter equals the number of signed readings if and only if no emit() of that key was given a number, units or time beyond eight bytes |
| EndToEnd.NextReadingExactly | emulator/client.py:91-97 | In every run a device's next unbilled reading may be presented if and only if no emit() before it raised; otherwise nothing more is billed for the device in any continuation |
| EndToEnd.SkippedForGood | emulator/client.py:91-97 | From every fresh deployment, one emit() of more than 2^64 − 1 ticks and the device is never billed |
| EndToEnd.SolventAlways | contracts/src/lib.rs:231-266 | After any run, claims in any order are all paid if and only if each operator claims no more than the log says it has earned and not been paid; then each account has received exactly its claims; deposits stay put and backed, and no token is lost |
| EndToEnd.CaughtUpCacheMatchesEarnings | backend/src/db/store.js:334-346 | Over runs: a caught-up listing equals the operators' ledgers, in total and operator by operator |

## Left out

- Ed25519 arithmetic, hex, base64url and StrKey decoding: replaced by ideal signatures and opaque
  addresses. The contract's 64-byte length check cannot fail on a `BytesN<64>`, so
  `InvalidSignature` is never returned and is not among the errors.
- The relay, transaction building, simulation and fees: the network may deliver anything signed.
- `pending_readings` and the constant `pending_uncommitted_units`: an append-only table nobody
  reconciles.
- WebSocket hub and `TelemetryBus`: delivery to sockets is not claimed.
- `decode.js` and nullable row fields: a row is built from an already decoded event; `raw`,
  `contract_id`, `operator` and `rate_per_unit` columns are not kept.
- TTLs and archival: persistent entries are permanent.
- Hostile tokens, clawback and custody lost outside the contract: excluded by hypothesis.
- That `total_earned` cannot overflow is not claimed: it is a lifetime total and funds can come
  round again, so that check is reachable.
- `compute_delta`, tick counting and `cumulative`: floating point; the device emits any number of
  ticks, raised to at least 1.
- `Number(v)` before the gateway's safe-integer test: the parser starts from the number.
- SQL text, the two dialects and migrations: the table is a sequence of rows keyed on
  `event_id`, and queries are folds over it. Timestamps compare as character sequences; an hour
  bucket is the first 13 characters, which is what both dialects give for ISO 8601 UTC stamps.
- The order in which `listDevices` lists and in which `metricsFor` lists equal sequence numbers.
- Rounding beyond 2^53 − 1 and 64-bit columns in the backend: cached values are exact.
- `start()` and `stop()`: `World` starts polls at any time.
- The getters, which only look a record up, and rate limits, CORS, frontend, scripts,
  configuration.
- `Suspended` and `Retired` are checked for, as in the source, but no entrypoint sets them.
- Journal.SameLogSameLedgers: says nothing of keys and registration times, because no event
  carries them.
- Contract.IotBillingContract.SubmitReading: its checks before the first write are the separate
  method `PriceReading`; `poll()` is likewise split into `FetchAll` (its outer loop), `FetchPage`,
  `HandlePage`, `Handle` and `FinishPoll`, without change of order.
- Poller.EventIndexer.Poll: only failing `getEvents` calls are parameters here; failures at any
  other await, crashes and overlap are in `World`.
- Series.DailyIsHourlyRolledUp: for timestamps of at least ten characters, and the buckets of
  `DailyBuckets` and `HourlyBuckets` for ten and thirteen, as toISOString writes them.
