/**
 * The fee arithmetic of the gas-fee estimator: from the chain's raw gas
 * estimate, current gas price and suggested priority fee (tip), compute the
 * dynamic-fee fields of EIP-1559 ("Specification" section) with percentage
 * safety margins.  All amounts are unbounded integers, as with `bigint`.
 */
module GasFee {
  import opened Wrappers
  import opened Types

  /** Extra-gas options with every default applied. */
  datatype Percentages = Percentages(extraGas: nat, extraTip: nat, extraOnRetry: nat)

  /** Applies the defaults 10 (gas), 20 (tip) and 1 (per retry) to absent fields. */
  function Resolve(options: ExtraGasOptions): (p: Percentages)
    ensures options.extraGasPercentage.None? ==> p.extraGas == DefaultExtraGasPercentage
    ensures options.extraMaxPriorityFeePerGasPercentage.None? ==> p.extraTip == DefaultExtraPriorityTipPercentage
    ensures options.extraOnRetryPercentage.None? ==> p.extraOnRetry == DefaultExtraOnRetryPercentage
    ensures options.extraGasPercentage.Some? ==> p.extraGas == options.extraGasPercentage.value
    ensures options.extraMaxPriorityFeePerGasPercentage.Some? ==> p.extraTip == options.extraMaxPriorityFeePerGasPercentage.value
    ensures options.extraOnRetryPercentage.Some? ==> p.extraOnRetry == options.extraOnRetryPercentage.value
  {
    Percentages(
      options.extraGasPercentage.GetOr(DefaultExtraGasPercentage),
      options.extraMaxPriorityFeePerGasPercentage.GetOr(DefaultExtraPriorityTipPercentage),
      options.extraOnRetryPercentage.GetOr(DefaultExtraOnRetryPercentage))
  }

  /** The options that spell out `p` in full. */
  function Explicit(p: Percentages): ExtraGasOptions {
    ExtraGasOptions(Some(p.extraTip), Some(p.extraGas), Some(p.extraOnRetry))
  }

  /** Options spelled out in full are taken as they are: no default applies. */
  lemma ResolveExplicit(p: Percentages)
    ensures Resolve(Explicit(p)) == p
  {
  }

  /**
   * `percent` percent of `amount`, computed as the system does: the amount is
   * divided by 100 first, and only the quotient is multiplied.
   */
  function Margin(amount: nat, percent: nat): nat {
    (amount / 100) * percent
  }

  /**
   * Dividing first never overshoots the exact percentage and falls short of
   * it by exactly the percentage of the amount's last two decimal digits,
   * which is less than `percent`; the two agree on multiples of 100.
   */
  lemma MarginTruncation(amount: nat, percent: nat)
    ensures Margin(amount, percent) <= amount * percent / 100
    ensures amount * percent / 100 - Margin(amount, percent) == (amount % 100) * percent / 100
    ensures percent > 0 ==> amount * percent / 100 - Margin(amount, percent) < percent
    ensures amount % 100 == 0 ==> Margin(amount, percent) == amount * percent / 100
  {
    var q, r := amount / 100, amount % 100;
    SplitProduct(amount, percent);
    DivAfterMultiple(q * percent, r * percent);
    if percent > 0 {
      RemainderShare(r, percent);
    }
  }

  /** Writing `amount` as `100 * q + r` splits its product with `percent` alike. */
  lemma SplitProduct(amount: nat, percent: nat)
    ensures amount * percent == 100 * ((amount / 100) * percent) + (amount % 100) * percent
  {
    var q, r := amount / 100, amount % 100;
    calc {
      amount * percent;
      (100 * q + r) * percent;
      { assert (100 * q + r) * percent == 100 * q * percent + r * percent; }
      100 * (q * percent) + r * percent;
    }
  }

  /** A share of less than 100 percent-units of `percent` is below `percent`. */
  lemma RemainderShare(r: nat, percent: nat)
    requires r < 100 && percent > 0
    ensures r * percent / 100 < percent
  {
    assert r * percent <= 99 * percent;
  }

  /** `(100 * a + b) / 100 == a + b / 100` for non-negative `a` and `b`. */
  lemma DivAfterMultiple(a: nat, b: nat)
    ensures (100 * a + b) / 100 == a + b / 100
  {
    var x := 100 * a + b;
    assert x == 100 * (a + b / 100) + b % 100;
  }

  /** The margin grows with the percentage and with the amount. */
  lemma MarginMonotone(amount: nat, amount': nat, percent: nat, percent': nat)
    requires amount <= amount' && percent <= percent'
    ensures Margin(amount, percent) <= Margin(amount', percent')
  {
    var q, q' := amount / 100, amount' / 100;
    assert q <= q';
    assert q * percent <= q' * percent;
    assert q' * percent <= q' * percent';
  }

  /**
   * The fee fields of one estimate: the gas limit and both queried prices are
   * reported unchanged, the gas margin is reported separately and is NOT
   * added to `gas`, and the fee cap is the gas price plus the tip plus the
   * tip's margin.
   */
  function ComputeGasFeeInfo(gasLimit: nat, gasPrice: nat, maxPriorityFeePerGas: nat, p: Percentages): (info: GasFeeInfo)
    ensures info.gas == gasLimit
    ensures info.gasPrice == gasPrice && info.maxPriorityFeePerGas == maxPriorityFeePerGas
    ensures info.extraGas == Margin(gasLimit, p.extraGas + p.extraOnRetry)
    ensures info.maxFeePerGas - (gasPrice + maxPriorityFeePerGas) == Margin(maxPriorityFeePerGas, p.extraTip + p.extraOnRetry)
    ensures info.maxFeePerGas >= gasPrice + maxPriorityFeePerGas
  {
    var extraGas := Margin(gasLimit, p.extraGas + p.extraOnRetry);
    var extraMaxPriorityFeePerGas := Margin(maxPriorityFeePerGas, p.extraTip + p.extraOnRetry);
    var maxFeePerGas := gasPrice + maxPriorityFeePerGas + extraMaxPriorityFeePerGas;
    GasFeeInfo(
      gas := gasLimit,
      gasPrice := gasPrice,
      maxPriorityFeePerGas := maxPriorityFeePerGas,
      maxFeePerGas := maxFeePerGas,
      extraGas := extraGas)
  }

  /**
   * The fee cap stays within the exact-percentage cap: it never exceeds the
   * gas price plus the tip inflated by its full percentage, and it covers the
   * gas price plus the tip.
   */
  lemma MaxFeeBounds(gasLimit: nat, gasPrice: nat, tip: nat, p: Percentages)
    ensures var info := ComputeGasFeeInfo(gasLimit, gasPrice, tip, p);
      gasPrice + tip <= info.maxFeePerGas <= gasPrice + tip + tip * (p.extraTip + p.extraOnRetry) / 100
  {
    MarginTruncation(tip, p.extraTip + p.extraOnRetry);
  }

  /** The percentages attempt `attempt` bids: the per-retry margin times the attempt index. */
  function AttemptPercentages(p: Percentages, attempt: nat): Percentages {
    p.(extraOnRetry := p.extraOnRetry * attempt)
  }

  /**
   * With the same chain answers, a later attempt never bids less: its gas
   * margin and its fee cap are at least those of an earlier attempt.
   */
  lemma RetryEscalation(gasLimit: nat, gasPrice: nat, tip: nat, p: Percentages, i: nat, j: nat)
    requires i <= j
    ensures var early := ComputeGasFeeInfo(gasLimit, gasPrice, tip, AttemptPercentages(p, i));
            var late := ComputeGasFeeInfo(gasLimit, gasPrice, tip, AttemptPercentages(p, j));
      early.extraGas <= late.extraGas && early.maxFeePerGas <= late.maxFeePerGas
  {
    assert p.extraOnRetry * i <= p.extraOnRetry * j;
    MarginMonotone(gasLimit, gasLimit, p.extraGas + p.extraOnRetry * i, p.extraGas + p.extraOnRetry * j);
    MarginMonotone(tip, tip, p.extraTip + p.extraOnRetry * i, p.extraTip + p.extraOnRetry * j);
  }

  /**
   * Each further attempt adds the same amount to both margins: the per-retry
   * percentage of the (truncated) gas limit and of the (truncated) tip.
   */
  lemma RetryIncrement(gasLimit: nat, gasPrice: nat, tip: nat, p: Percentages, i: nat)
    ensures var now := ComputeGasFeeInfo(gasLimit, gasPrice, tip, AttemptPercentages(p, i));
            var next := ComputeGasFeeInfo(gasLimit, gasPrice, tip, AttemptPercentages(p, i + 1));
      next.extraGas == now.extraGas + Margin(gasLimit, p.extraOnRetry)
      && next.maxFeePerGas == now.maxFeePerGas + Margin(tip, p.extraOnRetry)
  {
    var g, t, r := gasLimit / 100, tip / 100, p.extraOnRetry;
    assert r * (i + 1) == r * i + r;
    assert g * (p.extraGas + (r * i + r)) == g * (p.extraGas + r * i) + g * r;
    assert t * (p.extraTip + (r * i + r)) == t * (p.extraTip + r * i) + t * r;
  }

  /**
   * With every option left out, attempt `i` of a retried submission bids
   * `10 + i` percent on gas and `20 + i` percent on the tip.
   */
  lemma DefaultEscalation(gasLimit: nat, gasPrice: nat, tip: nat, i: nat)
    ensures var info := ComputeGasFeeInfo(gasLimit, gasPrice, tip,
                          AttemptPercentages(Resolve(ExtraGasOptions(None, None, None)), i));
      info.extraGas == (gasLimit / 100) * (10 + i)
      && info.maxFeePerGas == gasPrice + tip + (tip / 100) * (20 + i)
  {
  }
}
