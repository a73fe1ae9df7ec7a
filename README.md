# Resilient transaction submission — a Dafny model

This project models the domain layer of an airdrop dApp that submits
Ethereum transactions with retries. The modelled code has two parts.

- **The bounded retry driver** (`retry`). It runs an asynchronous operation
  `fn(0)`, `fn(1)`, … at most `retries` times (default 1). It returns the
  first success. After every failure it pauses `delay` ms (default 0), and
  when no attempt succeeds it rethrows the last error. With `retries <= 0`
  nothing is attempted and `null` is thrown.
- **The gas-fee / nonce / submit pipeline.**
  - `getGasFeeInfo` queries the gas estimate, the gas price and the
    priority fee (tip). It turns them into the fee fields of an EIP-1559
    dynamic-fee transaction, with percentage safety margins (defaults:
    10 % on gas, 20 % on the tip, 1 % per retry).
  - `getNextNonce` queries the sender's transaction count.
  - `sendTransactionAndWaitForReceipt` submits a transaction, then waits up
    to 30 blocks for its receipt.
  - `retryPrepareAndSubmitRawTransaction` runs nonce → gas fees → merge →
    submit under the retry driver. Attempt `i` bids `extraOnRetry * i`
    percent more.

Files:

- `wrappers.dfy`: `Option` and `Result`.
- `types.dfy`: the option and record shapes and the default constants.
- `retry.dfy`: the retry driver, as a reference function `Run` over a trace
  of invocations and pauses, a loop method `Retry` proved equal to it, and
  lemmas about `Run`.
- `gas_fee.dfy`: the pure fee arithmetic and its lemmas.
- `transaction.dfy`: the pipeline.
  - The blockchain node is a **scripted oracle** (`Script`): the `k`-th
    request of each kind gets the `k`-th scripted answer.
  - Each remote step is specified by an *effect* function. It gives the
    reply, the per-kind call counters afterwards, and the requests issued.
  - Class `Chain` holds the oracle, the counters (`counts`) and the request
    log (`log`). Its methods are the imperative operations and are proved
    against the effect functions.
  - The orchestrator is proved equal to the retry driver's reference run,
    applied to the replies of successive attempts (`AttemptReplies`).
- `scenarios.dfy`: one worked run. The first submission is rejected as
  underpriced and the second is confirmed.

In these points the code does something other than its comments and
option names suggest; the model follows the code:

- The fee margins divide by 100 *before* multiplying
  (transaction.ts:132 and 138): `(x / 100) * p`, not `x * p / 100`.
  `GasFee.MarginTruncation` states exactly how far apart the two are.
- `retries` counts attempts, not retries. The comment at type.ts:71 calls
  it the number of times to retry, but the loop at retry.ts:15 makes
  `retries` attempts in all, so the default 1 means one attempt and no
  retry.
- The comment at type.ts:72 calls `delay` the pause between retries, but
  retry.ts:20-22 also pauses after the *last* failed attempt, before the
  error is rethrown at retry.ts:25.
- With `retries <= 0` the loop never runs and retry.ts:25 throws the
  initial `null` of retry.ts:14 (modelled as `Failure(None)`).
- Logging the fee info throws (transaction.ts:151-152); see "## Findings".

## Model

| member | source | states |
|---|---|---|
| Retry.Retry | src/app/domain/retry.ts:9-26 | The loop's outcome and its trace of invocations and pauses are exactly those of the reference run `Run`. It returns the first success at once, pauses after each failure, and throws the last error, or `null` when nothing was tried. |
| Retry.DefaultOptionsSingleAttempt | src/app/domain/retry.ts:13 | With the options left out, there is a single attempt and no pause. The run returns that attempt's value or throws its error. |
| Retry.InvokedInOrder | src/app/domain/retry.ts:14-15 | `fn` is invoked with indices `0..n-1`, in order and once each, and `n <= max(retries, 0)`. With `retries <= 0` nothing is invoked and the outcome is `Failure(None)` (`throw null`). |
| Retry.FirstSuccessReturned | src/app/domain/retry.ts:15-17 | If attempt `k` is the first success, the run returns its value. It invoked exactly `0..k`, paused `k` times (0 when `delay <= 0`), and ended with the invocation of `k`. |
| Retry.AllFailuresRethrowLast | src/app/domain/retry.ts:18-25 | If all attempts fail, the thrown error is the one of attempt `retries-1`. Every index below `retries` was invoked, and there were `retries` pauses when `delay > 0`, otherwise none. |
| Retry.SucceedsIffSomeAttemptSucceeds | src/app/domain/retry.ts:15-25 | The run succeeds if and only if some attempt below `retries` succeeds. |
| Retry.PausesFollowFailures | src/app/domain/retry.ts:18-22 | The run starts with an invocation. Every pause lasts `delay > 0` ms and comes right after a failed invocation. A successful run ends with the invocation that returned its value. |
| GasFee.Resolve | src/app/domain/transaction.ts:118-122 | An absent percentage takes its default: 10 for gas, 20 for the tip, 1 per retry. A present percentage is kept. |
| GasFee.ResolveExplicit | src/app/domain/transaction.ts:443-447 | Percentages passed explicitly are used as they are. No default applies, so attempt 0 bids 0 extra per retry. |
| GasFee.ComputeGasFeeInfo | src/app/domain/transaction.ts:132-150 | `gas` is the raw estimate. Gas price and tip are reported unchanged. `extraGas` is the margin `(gasLimit/100)*(gas%+retry%)`, reported separately. `maxFeePerGas` exceeds price+tip by the margin `(tip/100)*(tip%+retry%)` and never falls below price+tip. |
| GasFee.MarginTruncation | src/app/domain/transaction.ts:132 | Dividing first never exceeds the exact percentage. It falls short by exactly the percentage of `amount % 100`, which is less than `percent`, and it is exact on multiples of 100. |
| GasFee.MarginMonotone | src/app/domain/transaction.ts:138 | The margin grows with both the amount and the percentage. |
| GasFee.MaxFeeBounds | src/app/domain/transaction.ts:138-139 | `price + tip <= maxFeePerGas <= price + tip + tip*(tip%+retry%)/100`. |
| GasFee.RetryEscalation | src/app/domain/transaction.ts:443-446 | With the same node answers, a later attempt's `extraGas` and `maxFeePerGas` are at least those of an earlier attempt. |
| GasFee.RetryIncrement | src/app/domain/transaction.ts:445 | Each further attempt adds `(gasLimit/100)*retry%` to `extraGas` and `(tip/100)*retry%` to `maxFeePerGas`. |
| GasFee.DefaultEscalation | src/app/domain/transaction.ts:432-436 | With every option left out, attempt `i` bids `10+i` percent on gas and `20+i` percent on the tip. |
| Transaction.WithGasFeeAndNonce | src/app/domain/transaction.ts:448-452 | The merged transaction keeps the caller's chain, client, target, data and value. Its gas fields come from the gas-fee info and its nonce from the fresh query. |
| Transaction.MergeDiscardsStaleFields | src/app/domain/transaction.ts:448-452 | The merge keeps nothing of the gas and nonce fields it overrides. Merging into an already-merged transaction equals merging into the original. |
| Transaction.MissingSenderBeforeAnyQuery | src/app/domain/transaction.ts:115-117 | `getGasFeeInfo` throws the missing-sender error if and only if there is no account. In that case it issues no request and counts nothing. |
| Transaction.GasFeeInfoOfAnswers | src/app/domain/transaction.ts:109-155 | `getGasFeeInfo` (with its logging left out) succeeds if and only if there is a sender and the estimate, price and tip queries all succeed. On success it returns `ComputeGasFeeInfo` of those answers with the resolved margins. It queries in that order, at most once each, and stops at the first failure: with a sender it makes 1 request when the estimate fails, 2 when the price is the first to fail, 3 otherwise. It estimates for the caller's transaction and sender. |
| Transaction.AttemptCallOrder | src/app/domain/transaction.ts:439-456 | One attempt issues a prefix of nonce, estimate, price, tip, submit, wait: each at most once and in that order. It ends after 1, 2, 3 or 4 requests exactly when the nonce, estimate, price or tip query (respectively) is the first to fail. An attempt with fewer than six requests fails, and a confirmed attempt issued all six. |
| Transaction.AttemptCounts | src/app/domain/transaction.ts:441-447 | Every attempt queries the nonce once. It queries the estimate once exactly when its nonce query succeeded. |
| Transaction.NoncePerAttempt | src/app/domain/transaction.ts:438-441 | After `n` attempts the nonce counter has grown by `n`. |
| Transaction.EstimatePerAttempt | src/app/domain/transaction.ts:441-447 | If the nonce queries of the first `n` attempts all succeed, the estimate counter has grown by `n`. |
| Transaction.SubmittedTransactionIsFresh | src/app/domain/transaction.ts:441-456 | An attempt that submits had all four queries answered. What attempt `i` submits is the caller's transaction merged with this attempt's own nonce and this attempt's fee fields, bidding `extraOnRetry*i`. It waits (30 blocks, for the hash the submission returned) exactly when the submission is accepted. |
| Transaction.AttemptTally | src/app/domain/transaction.ts:439-456 | After one attempt, the counters are the tally of the requests it issued. |
| Transaction.AttemptsTally | src/app/domain/transaction.ts:438-459 | After `n` attempts, the counters are the tally of all requests issued, in order. |
| Transaction.Chain.GetNextNonce | src/app/domain/transaction.ts:169-184 | Returns the node's next answer for the sender's transaction count (or its error). It logs and counts one request. |
| Transaction.Chain.GetGasFeeInfo | src/app/domain/transaction.ts:109-155 | Reply, counters and log are those of `GasFeeInfoEffect`: no sender means missing-sender and no request; otherwise estimate, price, tip, stopping at the first error, then the computed fee info. |
| Transaction.Chain.SendTransactionAndWaitForReceipt | src/app/domain/transaction.ts:406-415 | Submits the transaction. If rejected, it throws without waiting. Otherwise it waits for the returned hash, by default 30 blocks, and returns the receipt or the wait's error. |
| Transaction.Chain.PrepareAndSubmit | src/app/domain/transaction.ts:439-457 | One run of the closure for attempt `i`: fresh nonce, fresh fees bidding `extraOnRetry*i`, merge, then submit with the default wait. It stops at the first error. Reply, counters and log are those of `AttemptEffect`. |
| Transaction.Chain.Attempt | src/app/domain/transaction.ts:439-457 | From the state after `i` attempts, makes attempt `i` and reaches the state after `i+1`. The reply is the closure's reply for `i`. |
| Transaction.Chain.RetryAttempts | src/app/domain/transaction.ts:438-459 | The retry loop running the closure. The outcome and trace are the reference run. Counters and log reflect exactly the attempts the trace records. |
| Transaction.Chain.RetryPrepareAndSubmitRawTransaction | src/app/domain/transaction.ts:426-460 | The outcome and trace are the retry driver's reference run applied to the replies of successive attempts. The margins are resolved once. Counters and log are those of the attempts made, in order. |
| Scenarios.RejectedThenConfirmed | src/app/domain/transaction.ts:426-460 | Two tries, no pause, default margins, first submission rejected: the run invokes attempts 0 and 1 and returns the second receipt. Each query and submission happens twice and the wait once. The fee cap rises from 1120 to 1121, and the nonce stays 7. |
| Transaction.LoggedGasFeeInfoThrows | src/app/domain/transaction.ts:151-153 | As written, with `isLogResult` on (the default, line 112), `getGasFeeInfo` never returns: it throws the serialisation error exactly where the intended version returns fee info, after the same requests. With the flag off the two agree. |
| Transaction.AsWrittenAttemptNeverSubmits | src/app/domain/transaction.ts:443-447 | As written, the orchestrator calls `getGasFeeInfo` with the logging default, so every attempt fails after at most the nonce and the three fee queries and never submits. It throws the serialisation error exactly when the intended attempt would have gone on to submit. |
| Scenarios.FeeLoggingStopsFirstAttempt | src/app/domain/transaction.ts:151-152 | On the node of the worked run, the first attempt as written throws the serialisation error after four requests; the intended attempt makes a fifth, the submission. |

## Left out

- `estimateGasCost` (called inside `getGasFeeInfo` only for logging) is not modelled. A failure of that extra remote call, which would make `getGasFeeInfo` throw after the tip query, is therefore not captured.
- Transaction.Chain.GetGasFeeInfo: models `getGasFeeInfo` without its logging, that is as intended rather than as written; the `JSON.stringify` throw of transaction.ts:152 is modelled only by `Transaction.GasFeeInfoEffectAsWritten` and `Transaction.AttemptEffectAsWritten` (see "## Findings"). Console output itself is not modelled.
- src/app/domain/client.ts and the thirdweb SDK wrappers are not part of this model: RPC client selection, contract reads, claims, approvals and merkle-tree generation. src/app/page.tsx and src/app/arrowStep.tsx (UI state) are not part of this model either.
- Real JSON-RPC, signing, and the internals of `sendTransaction` and `waitForReceipt` are not modelled. This includes how the block-based timeout is detected. Each remote call is an oracle answer: a value or an error.
- Wall-clock sleeping and async scheduling: a pause is a `Slept(ms)` trace event, since attempts are strictly sequential.
- Retry.Retry: `retries` and `delay` are integers. A fractional JavaScript `retries` (e.g. 1.5, which allows two attempts) is not modelled.
- GasFee.Resolve: percentages are natural numbers. This leaves out negative sums of percentages, which in the code give a negative margin and a fee cap below price plus tip, and non-integral sums (for example a per-retry 0.5 on odd attempts), for which `BigInt(...)` at transaction.ts:132 and 138 throws a `RangeError`.
- Prepared transactions: only the fields the pipeline reads or writes are kept (chain, client, target, data, value, gas fields, nonce). Other fields of the SDK's prepared transaction are dropped.
- EIP-1559 validity checks done by the node (for example a fee cap below the base fee) are part of the oracle's answer. The model does not check them.
- The retry driver's operation is a total function from the attempt index to a result. In the orchestrator, the closure's replies are given by the scripted node and by how many calls of each kind came before, which the model derives from the attempts made so far.

## Findings

| source | as written | input that shows it | evidently intended | confidence | as-written member | corrected member |
|---|---|---|---|---|---|---|
| src/app/domain/transaction.ts:151-152 | With `isLogResult` (default `true`, line 112; the orchestrator keeps the default at lines 443-447), the fee info, whose fields are all `bigint`, is passed to `JSON.stringify`, which throws a `TypeError` on a `bigint`. | Any sender whose estimate, price and tip queries all succeed, e.g. the node of `Scenarios.UnderpricedOnce`. | Log the fee info without throwing (a `bigint`-aware serialisation) and return it, so that the attempt goes on to submit. | not executed; follows from the documented `JSON.stringify` behaviour on `bigint` with no `toJSON` defined in the repository | Transaction.AsWrittenAttemptNeverSubmits | Transaction.GasFeeInfoOfAnswers |
