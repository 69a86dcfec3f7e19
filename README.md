# Token reconciliation core, modelled in Dafny

The token controller keeps the `allTokens` collection of a token-metadata
service in step with an upstream exchange API. One cycle
(`updateTokenData`) reads the store and the `startPx` reference table once,
fetches the token listing, then for each listed token fetches its details,
merges them with the stored record (machine-derived fields from the API,
operator-curated fields carried over from the store), and inserts the record
or `$set`s it over the stored one. Every upstream call goes through
`makeRateLimitedRequest`, a weight budget of 1200 per minute with a counter
cleared by a 60 s interval timer, and up to five retries with doubling
back-off on HTTP 429.

The project models:

- `js_values.dfy` (module `JsValues`): the JavaScript values the controller
  handles, with truthiness, `||`, optional access and `split('T')[0]`.
- `rate_limiter.dfy` (module `RateLimit`): the limiter as a specification
  over explicit time. `LimiterState` holds the counter, the wall clock and
  the interval timer's next tick. `Execute` is a request, including its
  retries. The class `RateLimiter` holds the same three fields and
  implements `makeRateLimitedRequest` step by step. Its methods are proved
  equal to `Execute`.
- `data_client.dfy` (module `DataClient`): `getSpotMeta` and
  `getTokenDetails`, both of weight 20, with the checks that turn a
  malformed response into a thrown error.
- `reconciler.dfy` (module `Reconcile`): the merge of one token
  (`Merge`), the write it leads to (`PlannedWrite`), the store as a class
  with `insertOne` and `updateOne`, and the imperative loop
  (`ReconcileToken`, `ReconcileAll`, `UpdateTokenData`). The loop is proved
  equal to the specification `Cycle`.
- `reconciler_props.dfy` (module `ReconcileProps`): what a cycle does to
  the stored records, stated against the snapshot read at its start.

HTTP responses, the latency of each attempt, how long the store reads and
each store write take, whether they throw, and the timestamp of each record
are inputs. Store I/O takes time on the limiter's clock, so the reset timer
can fire during a read or a write. The floating-point steps
(`parseFloat`, division then `toString`, multiplication then `toFixed(2)`)
are function parameters (`FloatOps`).

Where the design description and the code differ, the model follows the
code:

- The description speaks of "up to 5 attempts". The code retries five
  times, so a request makes up to six attempts.
  - See `RateLimit.RetryBudget`.
- The description calls a store failure fatal to the cycle. In the code,
  the insert and the update sit inside the per-token `try`. A failing write
  only skips that token. Only the two initial reads and the listing call
  end the cycle.
- The description mentions a secondary deploy-listing source fetched next
  to the listing. The code has none.

Two behaviours of the code are proved as they are:

- The budget wait ends on a wall-clock minute boundary. The counter,
  however, is cleared by a timer that started when the module was loaded.
  The weight is then charged without a second check. So the counter can
  exceed 1200 (`RateLimit.AdmissionCanOverrunBudget`). When the timer
  ticks on minute boundaries, a caller that waits is admitted into a fresh
  budget (`RateLimit.AlignedTimerClearsBeforeAdmission`). The counter then
  stays within 1200 after every admission
  (`RateLimit.AlignedAdmissionWithinBudget`), every request
  (`RateLimit.AlignedRequestWithinBudget`) and every cycle
  (`ReconcileProps.CycleWithinBudget`), provided it starts within it.
- The snapshot is never re-read during a cycle. Two listed tokens with the
  same new index are therefore both inserted
  (`ReconcileProps.DuplicateNewTokensBothInserted`).

## Model

| member | source | states |
|---|---|---|
| JsValues.Or | src/controllers/tokenController.js:102-113 | `a \|\| b` is `a` when `a` is truthy, else `b`; the result is truthy iff either operand is |
| JsValues.Truthy | src/controllers/tokenController.js:78-113 | JavaScript truthiness: `undefined`, `null`, `false`, `NaN`, ±0 and `""` are falsy, every other value is truthy; its use is stated by `JsValues.Or` |
| JsValues.Get | src/controllers/tokenController.js:78-113 | `d.key` is the property's value, and `undefined` when the document has no such property |
| JsValues.Prior | src/controllers/tokenController.js:78-113 | `d?.key` is `undefined` on a missing document, and `d.key` on a present one |
| JsValues.BeforeFirst | src/controllers/tokenController.js:94 | `split(c)[0]` is the longest prefix free of `c`, ended by `c` or by the end of the string |
| RateLimit.NextTickAfter | src/controllers/tokenController.js:13 | the timer's first tick after `t` lies after `t` and at most one interval later |
| RateLimit.NextTickOnGrid | src/controllers/tokenController.js:13 | the timer's ticks stay a whole number of intervals apart |
| RateLimit.Elapse | src/controllers/tokenController.js:4-13 | a sleep of `ms`: the clock advances by `ms` and the counter is cleared when a tick of the interval timer falls inside the sleep, the end included; its properties are `RateLimit.ElapseClears` |
| RateLimit.ElapseClears | src/controllers/tokenController.js:13 | a sleep advances the clock by its length; it clears the counter iff a tick falls inside it, so a sleep of a full interval always clears it; it keeps the timer scheduled |
| RateLimit.AdmissionWait | src/controllers/tokenController.js:16-18 | the budget wait, until the next wall-clock minute boundary when counter + weight exceeds 1200; its properties are `RateLimit.AdmissionWaitBounds` |
| RateLimit.AdmissionWaitBounds | src/controllers/tokenController.js:16-18 | a caller waits iff counter + weight exceeds 1200; the wait is at most 60000 ms and ends on a minute boundary |
| RateLimit.Admission | src/controllers/tokenController.js:16-20 | admission: the budget wait, then the weight charged without a second check; its properties are `RateLimit.AdmissionCharges` |
| RateLimit.AdmissionCharges | src/controllers/tokenController.js:16-20 | admission charges the weight on top of the counter, or on top of zero when a tick fell during the wait; the counter grows by at most the weight |
| RateLimit.Backoff | src/controllers/tokenController.js:26 | the back-off before retry number k + 1 is 1000 × 2^k ms; its sum is `RateLimit.BackoffTotalClosedForm` |
| RateLimit.BackoffTotalClosedForm | src/controllers/tokenController.js:26-27 | the back-offs from retry count k for n retries sum to 1000 × (2^(k+n) − 2^k) |
| RateLimit.Retries | src/controllers/tokenController.js:25 | a failure is retried iff it is an HTTP 429 and fewer than five retries were made; its consequences are `RateLimit.AttemptsEndAtFirstSettled` and `RateLimit.OtherFailureRethrown` |
| RateLimit.AttemptCount | src/controllers/tokenController.js:25-28 | a request from retry count k makes at least 1 attempt and at most 6 − k |
| RateLimit.Latencies | src/controllers/tokenController.js:22-23 | the time spent in the request function by the attempts a request makes; its meaning on the clock is stated by `RateLimit.ExecuteClock` and `RateLimit.ExecuteTakesBackoff` |
| RateLimit.AttemptsEndAtFirstSettled | src/controllers/tokenController.js:25-30 | every attempt but the last failed with a retried 429; the last is not retried |
| RateLimit.OutcomeOf | src/controllers/tokenController.js:22-30 | the caller gets a value iff the call returned one, and otherwise the very error the call threw |
| RateLimit.Settled | src/controllers/tokenController.js:22-31 | what the caller receives is the result of the last attempt; `RateLimit.ExecuteSettles` ties it to a request and `RateLimit.RejectionSettlesLast` states when a 429 can be what it is |
| RateLimit.RejectionSettlesLast | src/controllers/tokenController.js:25-30 | a 429 reaches the caller only once the retries are used up, from the attempt with retry count 5 or more |
| RateLimit.Execute | src/controllers/tokenController.js:15-31 | `makeRateLimitedRequest` on the limiter state: admission, the attempt, and on a retried failure the back-off and a new pass from admission; its properties are the `Execute…` lemmas below and `RateLimit.RateLimiter.Request` implements it |
| RateLimit.ExecuteFollowsRetryPolicy | src/controllers/tokenController.js:15-31 | a request makes exactly the attempts above, and the back-offs it takes between them are 1000 · 2^k ms for retry counts k = 0, 1, …; that they are slept on the clock is `RateLimit.ExecuteClock` |
| RateLimit.ExecuteSettles | src/controllers/tokenController.js:22-31 | the caller receives the result of the last attempt, the value or the rethrown error, whatever the limiter state |
| RateLimit.ChargedPerAttempt | src/controllers/tokenController.js:20-28 | each attempt, retries included, charges the full weight: charged = attempts × weight |
| RateLimit.AttemptCharges | src/controllers/tokenController.js:16-23 | one attempt never lowers the clock, grows the counter by at most the weight (exactly the weight before the next tick) and keeps the timer scheduled |
| RateLimit.ExecuteTakesBackoff | src/controllers/tokenController.js:15-31 | a request takes at least its attempts' own time plus its back-offs, and at most that plus one interval of admission wait per attempt |
| RateLimit.ExecuteClock | src/controllers/tokenController.js:15-31 | when every attempt fits in the budget, the clock after a request is exactly its start, plus the attempts' own time, plus the back-offs 1000 · 2^k ms of the retries made |
| RateLimit.ExecuteCharges | src/controllers/tokenController.js:13-28 | nothing is refunded: the counter grows by at most what was charged, and by exactly that when no tick fell during the request |
| RateLimit.ExecuteKeepsSchedule | src/controllers/tokenController.js:13-28 | a request leaves the interval timer scheduled within one interval |
| RateLimit.RateLimiter.constructor | src/controllers/tokenController.js:7-13 | the counter starts at 0 and the first tick is one interval after module load |
| RateLimit.RateLimiter.Reset | src/controllers/tokenController.js:13 | the timer callback zeroes the counter and changes nothing else |
| RateLimit.RateLimiter.Sleep | src/controllers/tokenController.js:4 | `delay(ms)` moves the limiter to `Elapse` of its old state |
| RateLimit.RateLimiter.Admit | src/controllers/tokenController.js:16-20 | the budget check, wait and charge move the limiter to `Admission` of its old state |
| RateLimit.RateLimiter.Request | src/controllers/tokenController.js:15-32 | `makeRateLimitedRequest` ends in the state and with the outcome that `Execute` gives |
| RateLimit.RetryBudget | src/controllers/tokenController.js:25-28 | a request makes at most 6 attempts and backs off at most 31000 ms in all; besides its attempts' time it spends at most 31000 ms plus six admission waits, and at most 31000 ms when its attempts fit in the budget |
| RateLimit.BackoffBound | src/controllers/tokenController.js:10-11 | up to five back-offs from retry count 0 add up to at most 31000 ms |
| RateLimit.OtherFailureRethrown | src/controllers/tokenController.js:25-30 | a failure that is not a retried 429 is rethrown after one attempt with no back-off: the limiter ends as admission and that one call left it |
| RateLimit.ThreeRejectionsThenSuccess | src/controllers/tokenController.js:25-28 | three 429s then a value: success after 4 attempts and 1000 + 2000 + 4000 ms of back-off, and when the four attempts fit in the budget the clock moves on by exactly the four calls' time plus 7000 ms |
| RateLimit.AlignedTimerClearsBeforeAdmission | src/controllers/tokenController.js:13-20 | with ticks on minute boundaries, a caller that waits is admitted into a fresh budget: the counter is then exactly its weight |
| RateLimit.AdmissionCanOverrunBudget | src/controllers/tokenController.js:16-20 | with the timer 30 s out of phase, a wait ends before the reset and the counter reaches 1220 |
| RateLimit.AlignedTicksStayAligned | src/controllers/tokenController.js:13 | a timer whose ticks fall on minute boundaries keeps them there, because its ticks stay on its grid (`RateLimit.NextTickOnGrid`) |
| RateLimit.ElapseKeepsAligned | src/controllers/tokenController.js:4-13 | a sleep keeps an aligned timer aligned and the counter within 1200 |
| RateLimit.AlignedAdmissionWithinBudget | src/controllers/tokenController.js:13-20 | with ticks on minute boundaries, admitting a weight of at most 1200 leaves the counter within 1200, whatever it was before |
| RateLimit.AlignedAttemptWithinBudget | src/controllers/tokenController.js:13-23 | with ticks on minute boundaries, one attempt keeps the counter within 1200 and the timer aligned |
| RateLimit.AlignedRequestWithinBudget | src/controllers/tokenController.js:13-31 | with ticks on minute boundaries, a whole request, retries and back-offs included, keeps the counter within 1200 |
| DataClient.CheckSpotMeta | src/controllers/tokenController.js:45-50 | the listing call returns iff the response has a token list; a missing list throws an error without HTTP status; thrown errors pass unchanged |
| DataClient.CheckDetails | src/controllers/tokenController.js:60-62 | the details call returns the body iff it has a truthy `name`; otherwise it throws an error without HTTP status; thrown errors pass unchanged |
| DataClient.SpotMetaAttempts | src/controllers/tokenController.js:39-51 | each listing attempt keeps its time, and its result is the response after the token-list check; its consequences are stated by `DataClient.GetSpotMeta` |
| DataClient.DetailsAttempts | src/controllers/tokenController.js:53-63 | each details attempt keeps its time, and its result is the response after the `name` check; its consequences are stated by `DataClient.DetailsSuccess` and `DataClient.NamelessDetailsFailAtOnce` |
| DataClient.GetSpotMeta | src/controllers/tokenController.js:39-51 | the listing goes through the limiter with weight 20 and yields the settled outcome of its attempts |
| DataClient.GetTokenDetails | src/controllers/tokenController.js:53-63 | the details go through the limiter with weight 20 and yield the settled outcome of its attempts |
| DataClient.NamelessDetailsFailAtOnce | src/controllers/tokenController.js:60 | a details body without a name fails after one attempt, never retried |
| DataClient.DetailsSuccess | src/controllers/tokenController.js:53-63 | the details call succeeds iff its last attempt returned a named body, and then yields that body |
| Reconcile.ToDocument | src/controllers/tokenController.js:87-115 | the stored record has exactly the fields of `tokenData`, with `tokenIndex` the listing index |
| Reconcile.Matches | src/controllers/tokenController.js:73 | `t.tokenIndex === token.index`: the property holds the listing index as a number, an absent property never matches; `Reconcile.FirstMatch` and `Reconcile.Find` state its use |
| Reconcile.FirstMatch | src/controllers/tokenController.js:122-123 | the position of the first document whose `tokenIndex` is strictly equal to the index, none when no document matches |
| Reconcile.Find | src/controllers/tokenController.js:73 | `find` yields a matching document from the snapshot iff one exists, and it is the first one in store order |
| Reconcile.LaunchDateOf | src/controllers/tokenController.js:94 | `launchDate` is the part of `deployTime` before the first `T`, or null; building it throws iff `deployTime` is neither nullish nor a string |
| Reconcile.AuctionPriceOf | src/controllers/tokenController.js:95-97 | `auctionPrice` is a string iff `seededUsdc` is truthy and does not parse to zero, else null |
| Reconcile.MarketCapOf | src/controllers/tokenController.js:99-101 | `launchMarketCap` is a string iff `startPx` and `circulatingSupply` are both truthy, else null |
| Reconcile.Airdrop | src/controllers/tokenController.js:81-82 | an airdrop defined in the details wins; otherwise the stored value if truthy, else null |
| Reconcile.Merge | src/controllers/tokenController.js:77-115 | field by field: identity from the listing, derived fields from the details and the reference table, curated fields kept from the stored record when truthy, defaults otherwise; no record iff `launchDate` throws |
| Reconcile.CuratedDefault | src/controllers/tokenController.js:102-113 | each curated field's default (`null`, `false` or `""`) is falsy |
| Reconcile.ToDocumentCurated | src/controllers/tokenController.js:87-115 | the stored record carries each curated field of `tokenData` |
| Reconcile.MergeCurated | src/controllers/tokenController.js:102-113 | every curated field of the merged record is the stored record's value when truthy, else its default |
| Reconcile.RemergeKeepsCurated | src/controllers/tokenController.js:102-124 | merging again against the record an earlier merge was `$set` over writes the same curated values: the merge is idempotent on them |
| Reconcile.UpdateFirst | src/controllers/tokenController.js:122-125 | `updateOne` sets the patch's fields over the first record whose `tokenIndex` matches and leaves every other record as it was; with no match the store is unchanged |
| Reconcile.Apply | src/controllers/tokenController.js:117-125 | an insert appends the record; an update is `UpdateFirst`; no write leaves the store unchanged |
| Reconcile.WriteOf | src/controllers/tokenController.js:117-131 | a write happens iff a record was built and the write did not throw, and what it sends, inserted or `$set`, is exactly that record |
| Reconcile.PlannedWrite | src/controllers/tokenController.js:73-131 | a token is written iff its details call succeeded, `launchDate` could be built and the write did not throw; it is inserted iff the snapshot has no record with its index, otherwise updated at that index |
| Reconcile.Merged | src/controllers/tokenController.js:73-115 | `tokenData` is built iff the details call succeeded and `launchDate` could be built |
| Reconcile.ReachesWrite | src/controllers/tokenController.js:76-94 | the loop body gets past the details call and `launchDate` to the write; `Reconcile.Merged` and `Reconcile.PlannedWrite` state both directions |
| Reconcile.PlannedWriteRecord | src/controllers/tokenController.js:87-125 | what a write sends, inserted or `$set`, is `tokenData` merged against the first snapshot record and the first reference entry with the token's index |
| Reconcile.PlanWrites | src/controllers/tokenController.js:72-76 | one planned write per listed token, each against the same snapshot |
| Reconcile.Replay | src/controllers/tokenController.js:72-132 | after m writes the store has grown by at most m records |
| Reconcile.AfterToken | src/controllers/tokenController.js:76-128 | one loop iteration on the limiter: the details request, then the write's duration when the body reaches the write; `Reconcile.AfterTokenKeepsLimits` states what it keeps |
| Reconcile.AfterTokenKeepsLimits | src/controllers/tokenController.js:76-128 | one loop iteration, the details request and the write's duration, keeps the timer scheduled, and with ticks on minute boundaries keeps the counter within 1200 |
| Reconcile.LimiterAfter | src/controllers/tokenController.js:72-132 | the limiter after the first m loop iterations keeps the timer scheduled, and with ticks on minute boundaries the counter within 1200 |
| Reconcile.Cycle | src/controllers/tokenController.js:65-139 | a failed read leaves the store as it was and the limiter only later by the read's duration; a failed listing leaves the store as it was; a cycle never removes records |
| Reconcile.TokenStore.constructor | src/controllers/tokenController.js:67-68 | the two collections the controller reads |
| Reconcile.TokenStore.InsertOne | src/controllers/tokenController.js:119 | `insertOne` appends the document |
| Reconcile.TokenStore.UpdateOne | src/controllers/tokenController.js:122-126 | `updateOne` with `$set` is `UpdateFirst`; the matched count is 1 iff a record matches |
| Reconcile.ReconcileToken | src/controllers/tokenController.js:73-131 | one loop iteration applies the token's planned write to the store and moves the limiter as `AfterToken` says: the details request, then the write's duration when the write is attempted |
| Reconcile.ReconcileAll | src/controllers/tokenController.js:72-132 | the loop leaves the store as `Replay` of the planned writes and the limiter as `LimiterAfter` says, detail requests and store writes in listing order |
| Reconcile.UpdateTokenData | src/controllers/tokenController.js:65-140 | `updateTokenData` leaves the store and the limiter exactly as `Cycle` says, the reads' duration included, and never touches `startPx` |
| ReconcileProps.OverrideTwice | src/controllers/tokenController.js:124 | a second `$set` whose fields cover the first one's cancels the first |
| ReconcileProps.PatchedKeepsIndex | src/controllers/tokenController.js:122-124 | patching keeps a record's `tokenIndex` and every field `tokenData` does not have |
| ReconcileProps.UpdateFindsSnapshotRecord | src/controllers/tokenController.js:122-123 | mid-loop, `updateOne` still finds the record that was first in the snapshot |
| ReconcileProps.PatchedAfterUpdate | src/controllers/tokenController.js:122-125 | an update patches the record it reaches and no other |
| ReconcileProps.ReplayShape | src/controllers/tokenController.js:72-132 | after m writes the store is the snapshot with each record patched by its last update, followed by the inserted records in order |
| ReconcileProps.InsertedAt | src/controllers/tokenController.js:119 | each insert lands at its place among the inserted records |
| ReconcileProps.TwoInserts | src/controllers/tokenController.js:119 | two inserts land at two distinct places, in order |
| ReconcileProps.LastUpdateDecides | src/controllers/tokenController.js:122-125 | a record's last update decides it: the snapshot record with that update's fields set over it |
| ReconcileProps.TwoInsertsStored | src/controllers/tokenController.js:117-119 | two inserts with the same `tokenIndex` leave two such records after the snapshot's |
| ReconcileProps.PlannedWriteShape | src/controllers/tokenController.js:87-125 | a write sets exactly the fields of `tokenData`; an update targets a record in the snapshot; the record carries the token's index |
| ReconcileProps.WriteOfToken | src/controllers/tokenController.js:73-125 | the write of listed token n carries its index, and is an insert iff the snapshot has no record with that index |
| ReconcileProps.PlanAgainstSnapshot | src/controllers/tokenController.js:72-73 | every write of the loop is planned against the snapshot read before it |
| ReconcileProps.CycleRunsLoop | src/controllers/tokenController.js:65-72 | a cycle that reads the store and the listing runs the loop over the listing from the snapshot |
| ReconcileProps.CycleWithinBudget | src/controllers/tokenController.js:65-132 | with ticks on minute boundaries, a whole cycle, reads, listing, details and writes, keeps the counter within 1200 |
| ReconcileProps.StoreAfterLoop | src/controllers/tokenController.js:72-132 | after the loop the store is the patched snapshot followed by the new records in listing order |
| ReconcileProps.SnapshotRecordsKept | src/controllers/tokenController.js:122-125 | every snapshot record stays in place with its `tokenIndex` and its fields outside `tokenData`; the store grows by exactly the inserts |
| ReconcileProps.UnlistedRecordUntouched | src/controllers/tokenController.js:122-125 | a record whose index no listed token carries is left exactly as it was |
| ReconcileProps.ShadowedRecordUntouched | src/controllers/tokenController.js:122-123 | a later record with the same `tokenIndex` as an earlier one is never written |
| ReconcileProps.LastUpdateWins | src/controllers/tokenController.js:122-125 | the last listed token to update a record leaves it as the snapshot record with its merged fields set over it |
| ReconcileProps.MergedRecordStored | src/controllers/tokenController.js:73-125 | the last listed token to update a snapshot record leaves it as that record with `tokenData` merged against that very record set over it |
| ReconcileProps.CuratedFieldsKept | src/controllers/tokenController.js:102-125 | a truthy curated field of a snapshot record survives the cycle that updates the record |
| ReconcileProps.NewTokenAppended | src/controllers/tokenController.js:117-119 | an inserted token's record ends up after the snapshot's records |
| ReconcileProps.WrittenTokenStored | src/controllers/tokenController.js:117-128 | every listed token whose write goes through has a record with its index in the store after the loop |
| ReconcileProps.DuplicateNewTokensBothInserted | src/controllers/tokenController.js:67-119 | two listed tokens with the same new index that are both written leave two records with that index |

## Left out

- The HTTP exchange (`axios.post`) is not modelled. Each attempt's latency and its response body or error are inputs.
- The five-slot concurrency gate (`pLimit(5)`) is not modelled. A cycle makes one call at a time, so the gate never blocks it.
- Concurrent callers sharing the limiter are not modelled. Only the calls of one cycle reach it.
- The two store reads are one step with one duration, up to the first read that throws. A read that throws still takes its time.
- Real timers are not modelled. `setTimeout` and `setInterval` are replaced by an explicit clock and the timer's next tick. `Date.now()` is the state's clock.
- Floating point is not modelled. `parseFloat`, the division with `toString` and the multiplication with `toFixed(2)` are uninterpreted function parameters.
- Logging, the `hasChanges` flag and its final log line are not modelled. They change no state.
- The `config` object is not modelled. Nothing in the core reads it.
- The routes, authentication, server start-up, database connection, scheduling scripts and the manual API test script are not part of this model.
- The `_id` that `insertOne` adds to `tokenData` is not modelled, nor other store internals such as BSON types.
- The store's matching is simplified. Mongo's array-field matching and its equality between numeric types are replaced by strict equality of values, as in the in-memory `find`.
- Non-integer listing indices are not modelled: the listing's `index` is an integer here. In the code a string index such as `"5"` would be inserted as `tokenIndex: "5"`, and later cycles' `===` would match that record.
- The store's natural order is modelled as the order of the sequence. `updateOne` changes the first record in that order.
- Reconcile.Replay: states only how the store's size grows. What a replay does record by record is `ReconcileProps.ReplayShape`.
- Reconcile.PlanWrites: states only that there is one write per token. What each write is comes from `ReconcileProps.WriteOfToken`.
