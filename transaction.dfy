/**
 * The resilient submission pipeline: fetch a nonce, estimate gas fees, merge
 * both into the caller's prepared transaction, submit it and wait for its
 * receipt; on any failure the whole attempt is retried, each retry bidding a
 * larger margin.
 *
 * The blockchain node is a scripted oracle: the `k`-th call of each kind of
 * remote request gets the `k`-th scripted answer.  A `Chain` object counts
 * the calls of each kind and logs every request in order.
 *
 * The retried closure changes the chain's state (the counters and the log),
 * while the retry driver of module `Retry` takes a pure, total function of the
 * attempt index; so `Chain.RetryAttempts` runs the driver's loop itself and
 * is proved to return exactly what `Retry.RunFrom` returns for the replies
 * the attempts give.
 */
module Transaction {
  import opened Wrappers
  import opened Types
  import opened GasFee
  import Retry

  type ChainId = nat
  type TxHash = string

  /** The sender; signing stays with the wallet and is not modelled. */
  datatype Account = Account(address: Address)

  /**
   * A prepared transaction: the caller's chain, client, target, call data and
   * value, and the gas and nonce fields that may already be present.
   * `extraGas` is not a transaction field of the chain; it is carried along
   * because the merge copies every field of the gas-fee info.
   */
  datatype PreparedTransaction = PreparedTransaction(
    chain: ChainId,
    client: string,
    to: Option<Address>,
    data: string,
    value: nat,
    gas: Option<nat>,
    gasPrice: Option<nat>,
    maxFeePerGas: Option<nat>,
    maxPriorityFeePerGas: Option<nat>,
    extraGas: Option<nat>,
    nonce: Option<nat>)

  /** The confirmation record; passed through, never inspected. */
  datatype Receipt = Receipt(transactionHash: TxHash, blockNumber: nat)

  /** What a remote request can throw (rejection, timeout, RPC failure, ...). */
  datatype RemoteError = RemoteError(message: string)

  /**
   * What the pipeline can throw.  `Unserializable` is the `TypeError` that
   * `JSON.stringify` throws on a `bigint`; only the as-written model of the
   * fee logging below produces it.
   */
  datatype Fault = MissingSender | Remote(cause: RemoteError) | Unserializable

  /** A remote request, as issued. */
  datatype ChainCall =
    | GetTransactionCount(chain: ChainId, address: Address)
    | EstimateGas(transaction: PreparedTransaction, from: Address)
    | GasPrice(chain: ChainId)
    | MaxPriorityFeePerGas(chain: ChainId)
    | SendTransaction(transaction: PreparedTransaction, from: Address)
    | WaitForReceipt(hash: TxHash, maxBlocksWaitTime: nat)

  /** The node's scripted answers, by the index of the call of that kind. */
  datatype Script = Script(
    transactionCount: nat -> Result<nat, RemoteError>,
    estimateGas: nat -> Result<nat, RemoteError>,
    gasPrice: nat -> Result<nat, RemoteError>,
    maxPriorityFeePerGas: nat -> Result<nat, RemoteError>,
    sendTransaction: (nat, PreparedTransaction) -> Result<TxHash, RemoteError>,
    waitForReceipt: (nat, TxHash, nat) -> Result<Receipt, RemoteError>)

  /** How many calls of each kind have been made. */
  datatype Counters = Counters(
    transactionCount: nat,
    estimateGas: nat,
    gasPrice: nat,
    maxPriorityFeePerGas: nat,
    sendTransaction: nat,
    waitForReceipt: nat)

  const NoCalls := Counters(0, 0, 0, 0, 0, 0)

  /** The counters after one more call. */
  function Count(c: Counters, call: ChainCall): Counters {
    match call
    case GetTransactionCount(_, _) => c.(transactionCount := c.transactionCount + 1)
    case EstimateGas(_, _) => c.(estimateGas := c.estimateGas + 1)
    case GasPrice(_) => c.(gasPrice := c.gasPrice + 1)
    case MaxPriorityFeePerGas(_) => c.(maxPriorityFeePerGas := c.maxPriorityFeePerGas + 1)
    case SendTransaction(_, _) => c.(sendTransaction := c.sendTransaction + 1)
    case WaitForReceipt(_, _) => c.(waitForReceipt := c.waitForReceipt + 1)
  }

  /** The counters after the calls `calls`, in order. */
  function Tally(c: Counters, calls: seq<ChainCall>): Counters
    decreases |calls|
  {
    if calls == [] then c else Tally(Count(c, calls[0]), calls[1..])
  }

  lemma {:induction false} TallyAppend(c: Counters, a: seq<ChainCall>, b: seq<ChainCall>)
    ensures Tally(c, a + b) == Tally(Tally(c, a), b)
    decreases |a|
  {
    if a == [] {
      assert a + b == b;
    } else {
      assert (a + b)[0] == a[0] && (a + b)[1..] == a[1..] + b;
      TallyAppend(Count(c, a[0]), a[1..], b);
    }
  }

  // ----- The effect of each remote step, as a function of the counters -----

  /** What a step returns, the counters after it and the requests it issued. */
  datatype Effect<+T> = Effect(reply: Result<T, Fault>, counts: Counters, calls: seq<ChainCall>)

  function Lift<T>(r: Result<T, RemoteError>): Result<T, Fault> {
    match r
    case Ok(v) => Ok(v)
    case Err(e) => Err(Remote(e))
  }

  /** `getNextNonce`: one transaction-count query for `address`. */
  function NextNonceEffect(s: Script, c: Counters, address: Address, chain: ChainId): Effect<nat> {
    Effect(Lift(s.transactionCount(c.transactionCount)),
           c.(transactionCount := c.transactionCount + 1),
           [GetTransactionCount(chain, address)])
  }

  /**
   * `getGasFeeInfo`: without a sender it throws before querying anything;
   * otherwise it queries the gas estimate, then the gas price, then the tip,
   * stopping at the first failure.
   */
  function GasFeeInfoEffect(s: Script, c: Counters, tx: PreparedTransaction, account: Option<Account>, options: ExtraGasOptions)
    : Effect<GasFeeInfo>
  {
    if account.None? then Effect(Err(MissingSender), c, [])
    else
      var c1 := c.(estimateGas := c.estimateGas + 1);
      var calls1 := [EstimateGas(tx, account.value.address)];
      match s.estimateGas(c.estimateGas)
      case Err(e) => Effect(Err(Remote(e)), c1, calls1)
      case Ok(gasLimit) =>
        var c2 := c1.(gasPrice := c1.gasPrice + 1);
        var calls2 := calls1 + [GasPrice(tx.chain)];
        match s.gasPrice(c1.gasPrice)
        case Err(e) => Effect(Err(Remote(e)), c2, calls2)
        case Ok(gasPrice) =>
          var c3 := c2.(maxPriorityFeePerGas := c2.maxPriorityFeePerGas + 1);
          var calls3 := calls2 + [MaxPriorityFeePerGas(tx.chain)];
          match s.maxPriorityFeePerGas(c2.maxPriorityFeePerGas)
          case Err(e) => Effect(Err(Remote(e)), c3, calls3)
          case Ok(tip) => Effect(Ok(ComputeGasFeeInfo(gasLimit, gasPrice, tip, Resolve(options))), c3, calls3)
  }

  /** `sendTransactionAndWaitForReceipt`: submit, then wait up to `maxBlocksWaitTime` blocks. */
  function SubmitEffect(s: Script, c: Counters, tx: PreparedTransaction, from: Address, maxBlocksWaitTime: nat): Effect<Receipt> {
    var c1 := c.(sendTransaction := c.sendTransaction + 1);
    var calls1 := [SendTransaction(tx, from)];
    match s.sendTransaction(c.sendTransaction, tx)
    case Err(e) => Effect(Err(Remote(e)), c1, calls1)
    case Ok(hash) =>
      Effect(Lift(s.waitForReceipt(c1.waitForReceipt, hash, maxBlocksWaitTime)),
             c1.(waitForReceipt := c1.waitForReceipt + 1),
             calls1 + [WaitForReceipt(hash, maxBlocksWaitTime)])
  }

  /**
   * The merge `{...transaction, ...gasFeeInfo, nonce}`: later fields override
   * earlier ones, every other field of the caller's transaction is kept.
   */
  function WithGasFeeAndNonce(tx: PreparedTransaction, info: GasFeeInfo, nonce: nat): (merged: PreparedTransaction)
    ensures SameCallerFields(merged, tx)
    ensures merged.gas == Some(info.gas) && merged.gasPrice == Some(info.gasPrice)
    ensures merged.maxFeePerGas == Some(info.maxFeePerGas)
    ensures merged.maxPriorityFeePerGas == Some(info.maxPriorityFeePerGas)
    ensures merged.extraGas == Some(info.extraGas) && merged.nonce == Some(nonce)
  {
    tx.(gas := Some(info.gas),
        gasPrice := Some(info.gasPrice),
        maxPriorityFeePerGas := Some(info.maxPriorityFeePerGas),
        maxFeePerGas := Some(info.maxFeePerGas),
        extraGas := Some(info.extraGas),
        nonce := Some(nonce))
  }

  /** Two transactions agree on every field the merge does not set. */
  predicate SameCallerFields(a: PreparedTransaction, b: PreparedTransaction) {
    a.chain == b.chain && a.client == b.client && a.to == b.to && a.data == b.data && a.value == b.value
  }

  /**
   * The merge keeps nothing of the gas and nonce fields it overrides: the
   * result depends only on the caller's other fields, so merging into an
   * earlier attempt's transaction gives the same as merging into the original.
   */
  lemma MergeDiscardsStaleFields(a: PreparedTransaction, b: PreparedTransaction, info: GasFeeInfo, nonce: nat, info0: GasFeeInfo, nonce0: nat)
    requires SameCallerFields(a, b)
    ensures WithGasFeeAndNonce(a, info, nonce) == WithGasFeeAndNonce(b, info, nonce)
    ensures WithGasFeeAndNonce(WithGasFeeAndNonce(a, info0, nonce0), info, nonce) == WithGasFeeAndNonce(a, info, nonce)
  {
  }

  /**
   * One attempt of the retried closure, attempt index `attempt`: a fresh
   * nonce, then fresh gas fees bidding the per-retry margin times `attempt`,
   * then submission of the merged transaction with the default block wait.
   */
  function AttemptEffect(s: Script, c: Counters, tx: PreparedTransaction, account: Account, p: Percentages, attempt: nat)
    : Effect<Receipt>
  {
    var n := NextNonceEffect(s, c, account.address, tx.chain);
    match n.reply
    case Err(e) => Effect(Err(e), n.counts, n.calls)
    case Ok(nonce) =>
      var g := GasFeeInfoEffect(s, n.counts, tx, Some(account), Explicit(AttemptPercentages(p, attempt)));
      match g.reply
      case Err(e) => Effect(Err(e), g.counts, n.calls + g.calls)
      case Ok(info) =>
        var r := SubmitEffect(s, g.counts, WithGasFeeAndNonce(tx, info, nonce), account.address, DefaultMaxBlocksWaitTime);
        Effect(r.reply, r.counts, n.calls + g.calls + r.calls)
  }

  /** The counters after `n` attempts, starting from `c0`. */
  function CountsAfter(s: Script, c0: Counters, tx: PreparedTransaction, account: Account, p: Percentages, n: nat): Counters {
    if n == 0 then c0
    else AttemptEffect(s, CountsAfter(s, c0, tx, account, p, n - 1), tx, account, p, n - 1).counts
  }

  /** The requests of the first `n` attempts, in order. */
  function CallsOf(s: Script, c0: Counters, tx: PreparedTransaction, account: Account, p: Percentages, n: nat): seq<ChainCall> {
    if n == 0 then []
    else CallsOf(s, c0, tx, account, p, n - 1) + AttemptEffect(s, CountsAfter(s, c0, tx, account, p, n - 1), tx, account, p, n - 1).calls
  }

  /** The reply of attempt `attempt`, made after attempts `0..attempt-1`. */
  function AttemptReply(s: Script, c0: Counters, tx: PreparedTransaction, account: Account, p: Percentages, attempt: nat): Result<Receipt, Fault> {
    AttemptEffect(s, CountsAfter(s, c0, tx, account, p, attempt), tx, account, p, attempt).reply
  }

  /** The closure as the retry driver sees it. */
  function AttemptReplies(s: Script, c0: Counters, tx: PreparedTransaction, account: Account, p: Percentages): nat -> Result<Receipt, Fault> {
    (attempt: nat) => AttemptReply(s, c0, tx, account, p, attempt)
  }

  /** `fn` answers attempts `i` to `n - 1` as the pipeline does. */
  ghost predicate RepliesFrom(fn: nat -> Result<Receipt, Fault>, s: Script, c0: Counters, tx: PreparedTransaction, account: Account, p: Percentages, i: nat, n: int)
    decreases n - i
  {
    i < n ==> fn(i) == AttemptReply(s, c0, tx, account, p, i) && RepliesFrom(fn, s, c0, tx, account, p, i + 1, n)
  }

  lemma {:induction false} RepliesFromAll(s: Script, c0: Counters, tx: PreparedTransaction, account: Account, p: Percentages, i: nat, n: int)
    ensures RepliesFrom(AttemptReplies(s, c0, tx, account, p), s, c0, tx, account, p, i, n)
    decreases n - i
  {
    if i < n {
      RepliesFromAll(s, c0, tx, account, p, i + 1, n);
    }
  }

  /**
   * Attempt `i` takes the chain from the state after `i` attempts to the
   * state after `i + 1`, and its reply is what the retry driver sees.
   */
  lemma NextAttempt(s: Script, c0: Counters, tx: PreparedTransaction, account: Account, p: Percentages, i: nat,
                    log0: seq<ChainCall>, logBefore: seq<ChainCall>, logAfter: seq<ChainCall>,
                    countsAfter: Counters, reply: Result<Receipt, Fault>)
    requires logBefore == log0 + CallsOf(s, c0, tx, account, p, i)
    requires var e := AttemptEffect(s, CountsAfter(s, c0, tx, account, p, i), tx, account, p, i);
      reply == e.reply && countsAfter == e.counts && logAfter == logBefore + e.calls
    ensures countsAfter == CountsAfter(s, c0, tx, account, p, i + 1)
    ensures logAfter == log0 + CallsOf(s, c0, tx, account, p, i + 1)
    ensures reply == AttemptReply(s, c0, tx, account, p, i)
  {
  }

  // ----- Properties of the pipeline -----

  /** The kind of a remote request, forgetting its arguments. */
  datatype Kind = NonceQuery | GasEstimate | GasPriceQuery | TipQuery | Submission | ReceiptWait

  function KindOf(call: ChainCall): Kind {
    match call
    case GetTransactionCount(_, _) => NonceQuery
    case EstimateGas(_, _) => GasEstimate
    case GasPrice(_) => GasPriceQuery
    case MaxPriorityFeePerGas(_) => TipQuery
    case SendTransaction(_, _) => Submission
    case WaitForReceipt(_, _) => ReceiptWait
  }

  function Kinds(calls: seq<ChainCall>): seq<Kind> {
    seq(|calls|, j requires 0 <= j < |calls| => KindOf(calls[j]))
  }

  /** The order in which one attempt issues its requests. */
  const AttemptOrder: seq<Kind> := [NonceQuery, GasEstimate, GasPriceQuery, TipQuery, Submission, ReceiptWait]

  /**
   * Without a sender, `getGasFeeInfo` throws the missing-sender error and
   * queries nothing; with one, it never throws that error.
   */
  lemma MissingSenderBeforeAnyQuery(s: Script, c: Counters, tx: PreparedTransaction, account: Option<Account>, options: ExtraGasOptions)
    ensures var e := GasFeeInfoEffect(s, c, tx, account, options);
      (e.reply == Err(MissingSender) <==> account.None?)
      && (account.None? ==> e.calls == [] && e.counts == c)
  {
  }

  /**
   * `getGasFeeInfo` succeeds exactly when there is a sender and all three
   * queries succeed, and then reports the fee fields of those answers with
   * the resolved margins; it issues its queries in order, stopping at the
   * first failure.
   */
  lemma GasFeeInfoOfAnswers(s: Script, c: Counters, tx: PreparedTransaction, account: Option<Account>, options: ExtraGasOptions)
    ensures var e := GasFeeInfoEffect(s, c, tx, account, options);
      var answered := s.estimateGas(c.estimateGas).Ok? && s.gasPrice(c.gasPrice).Ok?
                      && s.maxPriorityFeePerGas(c.maxPriorityFeePerGas).Ok?;
      (e.reply.Ok? <==> account.Some? && answered)
      && (e.reply.Ok? ==> e.reply.value == ComputeGasFeeInfo(s.estimateGas(c.estimateGas).value, s.gasPrice(c.gasPrice).value,
                                                             s.maxPriorityFeePerGas(c.maxPriorityFeePerGas).value, Resolve(options)))
      && |e.calls| <= 3 && Kinds(e.calls) == AttemptOrder[1..1 + |e.calls|]
      && (account.Some? ==> |e.calls| == (if s.estimateGas(c.estimateGas).Err? then 1
                                          else if s.gasPrice(c.gasPrice).Err? then 2 else 3))
      && (account.Some? ==> 1 <= |e.calls| && forall j :: 0 <= j < |e.calls| ==> KindOf(e.calls[j]) != GasEstimate || e.calls[j] == EstimateGas(tx, account.value.address))
  {
  }

  /** The counters after a step are the tally of the requests it issued. */
  lemma AttemptTally(s: Script, c: Counters, tx: PreparedTransaction, account: Account, p: Percentages, attempt: nat)
    ensures var e := AttemptEffect(s, c, tx, account, p, attempt);
      e.counts == Tally(c, e.calls)
  {
    var n := NextNonceEffect(s, c, account.address, tx.chain);
    assert n.counts == Tally(c, n.calls);
    if n.reply.Ok? {
      var g := GasFeeInfoEffect(s, n.counts, tx, Some(account), Explicit(AttemptPercentages(p, attempt)));
      GasFeeInfoTally(s, n.counts, tx, Some(account), Explicit(AttemptPercentages(p, attempt)));
      TallyAppend(c, n.calls, g.calls);
      if g.reply.Ok? {
        var info := g.reply.value;
        var r := SubmitEffect(s, g.counts, WithGasFeeAndNonce(tx, info, n.reply.value), account.address, DefaultMaxBlocksWaitTime);
        SubmitTally(s, g.counts, WithGasFeeAndNonce(tx, info, n.reply.value), account.address, DefaultMaxBlocksWaitTime);
        TallyAppend(c, n.calls + g.calls, r.calls);
      }
    }
  }

  /** The tally of one, two or three requests, spelled out. */
  lemma TallyShort(c: Counters, a: ChainCall, b: ChainCall, d: ChainCall)
    ensures Tally(c, [a]) == Count(c, a)
    ensures Tally(c, [a, b]) == Count(Count(c, a), b)
    ensures Tally(c, [a, b, d]) == Count(Count(Count(c, a), b), d)
  {
    assert [a][1..] == [] && [b][1..] == [] && [d][1..] == [];
    assert [a, b][1..] == [b];
    assert Tally(c, [a, b]) == Tally(Count(c, a), [b]);
    assert Tally(Count(c, a), [b]) == Tally(Count(Count(c, a), b), []);
    assert [a, b, d][1..] == [b, d];
    assert Tally(c, [a, b, d]) == Tally(Count(c, a), [b, d]);
    assert [b, d][1..] == [d];
    assert Tally(Count(c, a), [b, d]) == Tally(Count(Count(c, a), b), [d]);
    assert Tally(Count(Count(c, a), b), [d]) == Tally(Count(Count(Count(c, a), b), d), []);
  }

  lemma GasFeeInfoTally(s: Script, c: Counters, tx: PreparedTransaction, account: Option<Account>, options: ExtraGasOptions)
    ensures var e := GasFeeInfoEffect(s, c, tx, account, options);
      e.counts == Tally(c, e.calls)
  {
    if account.Some? {
      TallyShort(c, EstimateGas(tx, account.value.address), GasPrice(tx.chain), MaxPriorityFeePerGas(tx.chain));
    }
  }

  lemma SubmitTally(s: Script, c: Counters, tx: PreparedTransaction, from: Address, maxBlocksWaitTime: nat)
    ensures var e := SubmitEffect(s, c, tx, from, maxBlocksWaitTime);
      e.counts == Tally(c, e.calls)
  {
    var send := SendTransaction(tx, from);
    var c1 := Count(c, send);
    assert Tally(c, [send]) == c1 by {
      assert [send][1..] == [];
    }
    match s.sendTransaction(c.sendTransaction, tx)
    case Err(_) =>
    case Ok(hash) =>
      var wait := WaitForReceipt(hash, maxBlocksWaitTime);
      assert Tally(c, [send, wait]) == Count(c1, wait) by {
        assert [send, wait][1..] == [wait] && [wait][1..] == [];
        assert Tally(c, [send, wait]) == Tally(c1, [wait]);
        assert Tally(c1, [wait]) == Tally(Count(c1, wait), []);
      }
  }

  /** The counters after `n` attempts are the tally of the requests those attempts issued. */
  lemma {:induction false} AttemptsTally(s: Script, c0: Counters, tx: PreparedTransaction, account: Account, p: Percentages, n: nat)
    ensures CountsAfter(s, c0, tx, account, p, n) == Tally(c0, CallsOf(s, c0, tx, account, p, n))
  {
    if n > 0 {
      AttemptsTally(s, c0, tx, account, p, n - 1);
      AttemptsTallyStep(s, c0, tx, account, p, n - 1);
    }
  }

  lemma AttemptsTallyStep(s: Script, c0: Counters, tx: PreparedTransaction, account: Account, p: Percentages, m: nat)
    requires CountsAfter(s, c0, tx, account, p, m) == Tally(c0, CallsOf(s, c0, tx, account, p, m))
    ensures CountsAfter(s, c0, tx, account, p, m + 1) == Tally(c0, CallsOf(s, c0, tx, account, p, m + 1))
  {
    var e := AttemptEffect(s, CountsAfter(s, c0, tx, account, p, m), tx, account, p, m);
    AttemptTally(s, CountsAfter(s, c0, tx, account, p, m), tx, account, p, m);
    TallyAppend(c0, CallsOf(s, c0, tx, account, p, m), e.calls);
  }

  /**
   * One attempt queries the nonce, then the gas estimate, price and tip,
   * then submits and waits, each at most once and in that order, stopping at
   * the first failure: it ends after the nonce query exactly when that query
   * fails, after the estimate exactly when the estimate is the first to fail,
   * and so on; an attempt that stops before waiting for a receipt fails, and
   * a confirmed attempt made all six requests.
   */
  lemma AttemptCallOrder(s: Script, c: Counters, tx: PreparedTransaction, account: Account, p: Percentages, attempt: nat)
    ensures var e := AttemptEffect(s, c, tx, account, p, attempt);
      var nonceOk, estimateOk := s.transactionCount(c.transactionCount).Ok?, s.estimateGas(c.estimateGas).Ok?;
      var priceOk, tipOk := s.gasPrice(c.gasPrice).Ok?, s.maxPriorityFeePerGas(c.maxPriorityFeePerGas).Ok?;
      1 <= |e.calls| <= 6 && Kinds(e.calls) == AttemptOrder[..|e.calls|]
      && (|e.calls| == 1 <==> !nonceOk)
      && (|e.calls| == 2 <==> nonceOk && !estimateOk)
      && (|e.calls| == 3 <==> nonceOk && estimateOk && !priceOk)
      && (|e.calls| == 4 <==> nonceOk && estimateOk && priceOk && !tipOk)
      && (|e.calls| < 6 ==> e.reply.Err?)
      && (e.reply.Ok? ==> |e.calls| == 6)
  {
    var n := NextNonceEffect(s, c, account.address, tx.chain);
    if n.reply.Ok? {
      var g := GasFeeInfoEffect(s, n.counts, tx, Some(account), Explicit(AttemptPercentages(p, attempt)));
      GasFeeInfoOfAnswers(s, n.counts, tx, Some(account), Explicit(AttemptPercentages(p, attempt)));
      if g.reply.Ok? {
        assert |g.calls| == 3;
      }
    }
  }

  /**
   * Every attempt queries the nonce once, and queries the gas estimate once
   * exactly when its nonce query succeeds.
   */
  lemma AttemptCounts(s: Script, c: Counters, tx: PreparedTransaction, account: Account, p: Percentages, attempt: nat)
    ensures var e := AttemptEffect(s, c, tx, account, p, attempt);
      e.counts.transactionCount == c.transactionCount + 1
      && e.counts.estimateGas == c.estimateGas + (if s.transactionCount(c.transactionCount).Ok? then 1 else 0)
  {
  }

  /** The node answers the `k`-th transaction-count query. */
  predicate NonceAnswered(s: Script, k: nat) {
    s.transactionCount(k).Ok?
  }

  /** After `n` attempts the nonce has been queried `n` times. */
  lemma {:induction false} NoncePerAttempt(s: Script, c0: Counters, tx: PreparedTransaction, account: Account, p: Percentages, n: nat)
    ensures CountsAfter(s, c0, tx, account, p, n).transactionCount == c0.transactionCount + n
  {
    if n > 0 {
      NoncePerAttempt(s, c0, tx, account, p, n - 1);
      AttemptCounts(s, CountsAfter(s, c0, tx, account, p, n - 1), tx, account, p, n - 1);
    }
  }

  /**
   * When every nonce query of the first `n` attempts succeeds, the gas
   * estimate has been queried `n` times as well.
   */
  lemma {:induction false} EstimatePerAttempt(s: Script, c0: Counters, tx: PreparedTransaction, account: Account, p: Percentages, n: nat)
    requires forall k :: c0.transactionCount <= k < c0.transactionCount + n ==> NonceAnswered(s, k)
    ensures CountsAfter(s, c0, tx, account, p, n).estimateGas == c0.estimateGas + n
  {
    if n > 0 {
      EstimatePerAttempt(s, c0, tx, account, p, n - 1);
      EstimateStep(s, c0, tx, account, p, n - 1);
    }
  }

  lemma EstimateStep(s: Script, c0: Counters, tx: PreparedTransaction, account: Account, p: Percentages, m: nat)
    requires NonceAnswered(s, c0.transactionCount + m)
    ensures CountsAfter(s, c0, tx, account, p, m + 1).estimateGas == CountsAfter(s, c0, tx, account, p, m).estimateGas + 1
  {
    NoncePerAttempt(s, c0, tx, account, p, m);
    AttemptCounts(s, CountsAfter(s, c0, tx, account, p, m), tx, account, p, m);
  }

  /**
   * Nothing is carried over between attempts: what attempt `attempt`
   * submits is the caller's transaction merged with the fee fields of this
   * attempt's own answers, bidding `extraOnRetry * attempt` percent more,
   * and with this attempt's own nonce; it then waits the default 30 blocks
   * for the hash the submission returned.
   */
  lemma SubmittedTransactionIsFresh(s: Script, c: Counters, tx: PreparedTransaction, account: Account, p: Percentages, attempt: nat)
    ensures var e := AttemptEffect(s, c, tx, account, p, attempt);
      var c1 := c.(transactionCount := c.transactionCount + 1);
      |e.calls| >= 5 ==>
        s.transactionCount(c.transactionCount).Ok? && s.estimateGas(c.estimateGas).Ok?
        && s.gasPrice(c.gasPrice).Ok? && s.maxPriorityFeePerGas(c.maxPriorityFeePerGas).Ok?
        && var info := ComputeGasFeeInfo(s.estimateGas(c.estimateGas).value, s.gasPrice(c.gasPrice).value,
                                         s.maxPriorityFeePerGas(c.maxPriorityFeePerGas).value, AttemptPercentages(p, attempt));
           var sent := WithGasFeeAndNonce(tx, info, s.transactionCount(c.transactionCount).value);
           e.calls[4] == SendTransaction(sent, account.address)
           && (|e.calls| == 6 <==> s.sendTransaction(c.sendTransaction, sent).Ok?)
           && (|e.calls| == 6 ==>
                 s.sendTransaction(c.sendTransaction, sent).Ok?
                 && e.calls[5] == WaitForReceipt(s.sendTransaction(c.sendTransaction, sent).value, DefaultMaxBlocksWaitTime))
  {
    var n := NextNonceEffect(s, c, account.address, tx.chain);
    if n.reply.Ok? {
      ResolveExplicit(AttemptPercentages(p, attempt));
    }
  }

  // ----- As written: the fee logging of `getGasFeeInfo` -----

  /**
   * `getGasFeeInfo` as written, with its `isLogResult` flag (on by default,
   * and left at the default by the orchestrator): once the fee info is
   * computed, logging it hands an object of `bigint` fields to
   * `JSON.stringify`, which throws.  The queries have all been made by then.
   */
  function GasFeeInfoEffectAsWritten(s: Script, c: Counters, tx: PreparedTransaction, account: Option<Account>,
                                     options: ExtraGasOptions, isLogResult: bool): Effect<GasFeeInfo>
  {
    var e := GasFeeInfoEffect(s, c, tx, account, options);
    if isLogResult && e.reply.Ok? then e.(reply := Err(Unserializable)) else e
  }

  /** One attempt of the retried closure as written: its fee query logs. */
  function AttemptEffectAsWritten(s: Script, c: Counters, tx: PreparedTransaction, account: Account, p: Percentages, attempt: nat)
    : Effect<Receipt>
  {
    var n := NextNonceEffect(s, c, account.address, tx.chain);
    match n.reply
    case Err(e) => Effect(Err(e), n.counts, n.calls)
    case Ok(nonce) =>
      var g := GasFeeInfoEffectAsWritten(s, n.counts, tx, Some(account), Explicit(AttemptPercentages(p, attempt)), true);
      match g.reply
      case Err(e) => Effect(Err(e), g.counts, n.calls + g.calls)
      case Ok(info) =>
        var r := SubmitEffect(s, g.counts, WithGasFeeAndNonce(tx, info, nonce), account.address, DefaultMaxBlocksWaitTime);
        Effect(r.reply, r.counts, n.calls + g.calls + r.calls)
  }

  /**
   * With logging on, `getGasFeeInfo` as written never returns fee info: it
   * throws `Unserializable` exactly where the intended version succeeds,
   * after the same queries; with logging off the two agree.
   */
  lemma LoggedGasFeeInfoThrows(s: Script, c: Counters, tx: PreparedTransaction, account: Option<Account>, options: ExtraGasOptions)
    ensures var e, intended := GasFeeInfoEffectAsWritten(s, c, tx, account, options, true), GasFeeInfoEffect(s, c, tx, account, options);
      e.reply.Err? && (e.reply == Err(Unserializable) <==> intended.reply.Ok?)
      && e.counts == intended.counts && e.calls == intended.calls
    ensures GasFeeInfoEffectAsWritten(s, c, tx, account, options, false) == GasFeeInfoEffect(s, c, tx, account, options)
  {
  }

  /**
   * As written, no attempt ever submits: each one fails after at most the
   * nonce and the three fee queries, whatever the node answers, so every
   * retried run ends in failure.
   */
  lemma AsWrittenAttemptNeverSubmits(s: Script, c: Counters, tx: PreparedTransaction, account: Account, p: Percentages, attempt: nat)
    ensures var e := AttemptEffectAsWritten(s, c, tx, account, p, attempt);
      e.reply.Err? && 1 <= |e.calls| <= 4 && Kinds(e.calls) == AttemptOrder[..|e.calls|]
      && (e.reply == Err(Unserializable) <==> AttemptEffect(s, c, tx, account, p, attempt).calls != e.calls)
  {
    var n := NextNonceEffect(s, c, account.address, tx.chain);
    if n.reply.Ok? {
      var options := Explicit(AttemptPercentages(p, attempt));
      GasFeeInfoOfAnswers(s, n.counts, tx, Some(account), options);
      LoggedGasFeeInfoThrows(s, n.counts, tx, Some(account), options);
      AttemptCallOrder(s, c, tx, account, p, attempt);
    }
  }

  // ----- The chain connection -----

  class Chain {
    const script: Script
    var counts: Counters
    var log: seq<ChainCall>

    constructor (script: Script)
      ensures this.script == script && counts == NoCalls && log == []
    {
      this.script := script;
      counts := NoCalls;
      log := [];
    }

    /** `getNextNonce`: the next transaction count of `address`, fetched afresh. */
    method GetNextNonce(address: Address, chain: ChainId) returns (nonce: Result<nat, Fault>)
      modifies this
      ensures var e := NextNonceEffect(script, old(counts), address, chain);
        nonce == e.reply && counts == e.counts && log == old(log) + e.calls
    {
      nonce := Lift(script.transactionCount(counts.transactionCount));
      Issue(GetTransactionCount(chain, address));
    }

    /** Logs one request and counts it. */
    method Issue(call: ChainCall)
      modifies this
      ensures counts == Count(old(counts), call) && log == old(log) + [call]
    {
      counts := Count(counts, call);
      log := log + [call];
    }

    /** `getGasFeeInfo`: the fee fields of `tx`, sent by `account`, with the given margins. */
    method GetGasFeeInfo(tx: PreparedTransaction, account: Option<Account>, options: ExtraGasOptions)
      returns (info: Result<GasFeeInfo, Fault>)
      modifies this
      ensures var e := GasFeeInfoEffect(script, old(counts), tx, account, options);
        info == e.reply && counts == e.counts && log == old(log) + e.calls
    {
      if account.None? {
        return Err(MissingSender);
      }
      var p := Resolve(options);
      var gasLimit := script.estimateGas(counts.estimateGas);
      Issue(EstimateGas(tx, account.value.address));
      if gasLimit.Err? {
        return Err(Remote(gasLimit.error));
      }
      var gasPrice := script.gasPrice(counts.gasPrice);
      Issue(GasPrice(tx.chain));
      if gasPrice.Err? {
        return Err(Remote(gasPrice.error));
      }
      var maxPriorityFeePerGas := script.maxPriorityFeePerGas(counts.maxPriorityFeePerGas);
      Issue(MaxPriorityFeePerGas(tx.chain));
      if maxPriorityFeePerGas.Err? {
        return Err(Remote(maxPriorityFeePerGas.error));
      }
      info := Ok(ComputeGasFeeInfo(gasLimit.value, gasPrice.value, maxPriorityFeePerGas.value, p));
    }

    /** `sendTransactionAndWaitForReceipt`: submit `tx`, then wait for its receipt (30 blocks by default). */
    method SendTransactionAndWaitForReceipt(tx: PreparedTransaction, account: Account, maxBlocksWaitTime: Option<nat>)
      returns (receipt: Result<Receipt, Fault>)
      modifies this
      ensures var e := SubmitEffect(script, old(counts), tx, account.address, maxBlocksWaitTime.GetOr(DefaultMaxBlocksWaitTime));
        receipt == e.reply && counts == e.counts && log == old(log) + e.calls
    {
      var blocks := maxBlocksWaitTime.GetOr(DefaultMaxBlocksWaitTime);
      var hash := script.sendTransaction(counts.sendTransaction, tx);
      Issue(SendTransaction(tx, account.address));
      if hash.Err? {
        return Err(Remote(hash.error));
      }
      receipt := Lift(script.waitForReceipt(counts.waitForReceipt, hash.value, blocks));
      Issue(WaitForReceipt(hash.value, blocks));
    }

    /** The closure retried by the orchestrator, for attempt `attempt`. */
    method PrepareAndSubmit(tx: PreparedTransaction, account: Account, p: Percentages, attempt: nat)
      returns (receipt: Result<Receipt, Fault>)
      modifies this
      ensures var e := AttemptEffect(script, old(counts), tx, account, p, attempt);
        receipt == e.reply && counts == e.counts && log == old(log) + e.calls
    {
      var nextNonce := GetNextNonce(account.address, tx.chain);
      if nextNonce.Err? {
        return Err(nextNonce.error);
      }
      var gasFeeInfo := GetGasFeeInfo(tx, Some(account), Explicit(AttemptPercentages(p, attempt)));
      if gasFeeInfo.Err? {
        return Err(gasFeeInfo.error);
      }
      var sending := WithGasFeeAndNonce(tx, gasFeeInfo.value, nextNonce.value);
      receipt := SendTransactionAndWaitForReceipt(sending, account, None);
    }

    /** Attempt `i` of the closure, made after attempts `0..i-1` starting from `c0`. */
    method Attempt(tx: PreparedTransaction, account: Account, p: Percentages, i: nat, ghost c0: Counters, ghost log0: seq<ChainCall>)
      returns (reply: Result<Receipt, Fault>)
      requires counts == CountsAfter(script, c0, tx, account, p, i)
      requires log == log0 + CallsOf(script, c0, tx, account, p, i)
      modifies this
      ensures reply == AttemptReply(script, c0, tx, account, p, i)
      ensures counts == CountsAfter(script, c0, tx, account, p, i + 1)
      ensures log == log0 + CallsOf(script, c0, tx, account, p, i + 1)
    {
      ghost var logBefore := log;
      reply := PrepareAndSubmit(tx, account, p, i);
      NextAttempt(script, c0, tx, account, p, i, log0, logBefore, log, counts, reply);
    }

    /**
     * `retryPrepareAndSubmitRawTransaction`: resolve the margins once, then
     * run the closure under the retry driver.  The outcome and the trace of
     * invocations and pauses are those of the retry driver applied to the
     * closure's replies; the counters and the log are those of the attempts
     * actually made, in order.
     */
    method RetryPrepareAndSubmitRawTransaction(tx: PreparedTransaction, account: Account, retryOptions: RetryOptions, extraGasOptions: ExtraGasOptions)
      returns (outcome: Retry.Outcome<Receipt, Fault>, trace: seq<Retry.Event>)
      modifies this
      ensures (outcome, trace) == Retry.Run(AttemptReplies(script, old(counts), tx, account, Resolve(extraGasOptions)), retryOptions)
      ensures var n := |Retry.Invocations(trace)|;
        counts == CountsAfter(script, old(counts), tx, account, Resolve(extraGasOptions), n)
        && log == old(log) + CallsOf(script, old(counts), tx, account, Resolve(extraGasOptions), n)
    {
      var p := Resolve(extraGasOptions);
      var retries, delay := Retry.Retries(retryOptions), Retry.Delay(retryOptions);
      ghost var fn := AttemptReplies(script, counts, tx, account, p);
      RepliesFromAll(script, counts, tx, account, p, 0, retries);
      outcome, trace := RetryAttempts(tx, account, p, retries, delay, fn, counts);
    }

    /**
     * The retry driver's loop running the closure: `fn` stands for the
     * closure's replies, attempt by attempt, and each attempt is made on the
     * chain as it was left by the previous ones.
     */
    method RetryAttempts(tx: PreparedTransaction, account: Account, p: Percentages, retries: int, delay: int, ghost fn: nat -> Result<Receipt, Fault>, ghost c0: Counters)
      returns (outcome: Retry.Outcome<Receipt, Fault>, trace: seq<Retry.Event>)
      requires counts == c0
      requires RepliesFrom(fn, script, c0, tx, account, p, 0, retries)
      modifies this
      ensures (outcome, trace) == Retry.RunFrom(fn, retries, delay, 0, None)
      ensures var n := |Retry.Invocations(trace)|;
        counts == CountsAfter(script, c0, tx, account, p, n)
        && log == old(log) + CallsOf(script, c0, tx, account, p, n)
    {
      ghost var log0 := log;
      var lastError: Option<Fault> := None;
      trace := [];
      var i: nat := 0;
      while i < retries
        invariant counts == CountsAfter(script, c0, tx, account, p, i)
        invariant log == log0 + CallsOf(script, c0, tx, account, p, i)
        invariant |Retry.Invocations(trace)| == i
        invariant RepliesFrom(fn, script, c0, tx, account, p, i, retries)
        invariant Retry.RunFrom(fn, retries, delay, 0, None).0 == Retry.RunFrom(fn, retries, delay, i, lastError).0
        invariant Retry.RunFrom(fn, retries, delay, 0, None).1 == trace + Retry.RunFrom(fn, retries, delay, i, lastError).1
        decreases retries - i
      {
        var reply := Attempt(tx, account, p, i, c0, log0);
        Retry.RunFromStep(fn, retries, delay, i, lastError, trace);
        Retry.InvocationStep(trace, i, delay);
        if reply.Ok? {
          return Retry.Success(reply.value), trace + [Retry.Invoked(i)];
        }
        trace := trace + ([Retry.Invoked(i)] + Retry.Pause(delay));
        lastError := Some(reply.error);
        i := i + 1;
      }
      assert Retry.RunFrom(fn, retries, delay, i, lastError) == (Retry.Failure(lastError), []);
      assert trace + [] == trace;
      outcome := Retry.Failure(lastError);
    }
  }
}
