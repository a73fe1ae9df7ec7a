/**
 * A worked run of the resilient submission: the node rejects the first
 * submission as underpriced and confirms the second, which bids one
 * per-retry percent more on the tip and reuses the still-unmined nonce.
 */
module Scenarios {
  import opened Wrappers
  import opened Types
  import opened GasFee
  import opened Transaction
  import Retry

  /** A node that quotes fixed prices, rejects the first submission and confirms every later one. */
  const UnderpricedOnce: Script := Script(
    (k: nat) => Ok(7),
    (k: nat) => Ok(21000),
    (k: nat) => Ok(1000),
    (k: nat) => Ok(100),
    (k: nat, t: PreparedTransaction) =>
      if k == 0 then Err(RemoteError("replacement transaction underpriced")) else Ok("0xabc"),
    (k: nat, h: TxHash, blocks: nat) => Ok(Receipt(h, 42)))

  const Transfer := PreparedTransaction(1, "client", Some("0xrecipient"), "", 5, None, None, None, None, None, None)
  const Sender := Account("0xsender")

  /**
   * With two tries, no pause and every margin left at its default, the run
   * invokes attempts 0 and 1 and returns the receipt of the second
   * submission; the nonce, the three price queries and the submission are
   * each made twice and the receipt is waited for once.  The first
   * submission caps the fee at 1000 + 100 + 20 percent of 100, the second
   * at one percent more of the tip, both with nonce 7.
   */
  lemma RejectedThenConfirmed()
    ensures Retry.Run(AttemptReplies(UnderpricedOnce, NoCalls, Transfer, Sender, Resolve(ExtraGasOptions(None, None, None))),
                      RetryOptions(Some(2), Some(0)))
            == (Retry.Success(Receipt("0xabc", 42)), [Retry.Invoked(0), Retry.Invoked(1)])
    ensures CountsAfter(UnderpricedOnce, NoCalls, Transfer, Sender, Resolve(ExtraGasOptions(None, None, None)), 2)
            == Counters(2, 2, 2, 2, 2, 1)
    ensures var calls := CallsOf(UnderpricedOnce, NoCalls, Transfer, Sender, Resolve(ExtraGasOptions(None, None, None)), 2);
      |calls| == 11
      && calls[4].SendTransaction? && calls[4].transaction.maxFeePerGas == Some(1120) && calls[4].transaction.nonce == Some(7)
      && calls[10] == WaitForReceipt("0xabc", 30)
      && calls[9].SendTransaction? && calls[9].transaction.maxFeePerGas == Some(1121) && calls[9].transaction.nonce == Some(7)
  {
    var s, p := UnderpricedOnce, Resolve(ExtraGasOptions(None, None, None));
    var first := AttemptEffect(s, NoCalls, Transfer, Sender, p, 0);
    assert first.reply == Err(Remote(RemoteError("replacement transaction underpriced")));
    assert first.counts == Counters(1, 1, 1, 1, 1, 0);
    assert |first.calls| == 5;
    var second := AttemptEffect(s, first.counts, Transfer, Sender, p, 1);
    assert second.reply == Ok(Receipt("0xabc", 42));
    assert second.counts == Counters(2, 2, 2, 2, 2, 1);
    assert CountsAfter(s, NoCalls, Transfer, Sender, p, 1) == first.counts;
    assert CallsOf(s, NoCalls, Transfer, Sender, p, 1) == first.calls;
    var fn := AttemptReplies(s, NoCalls, Transfer, Sender, p);
    assert fn(0) == first.reply;
    assert fn(1) == second.reply;
    assert Retry.RunFrom(fn, 2, 0, 1, Some(Remote(RemoteError("replacement transaction underpriced"))))
           == (Retry.Success(Receipt("0xabc", 42)), [Retry.Invoked(1)]);
    assert [Retry.Invoked(0)] + Retry.Pause(0) + [Retry.Invoked(1)] == [Retry.Invoked(0), Retry.Invoked(1)];
  }

  /**
   * As written, the same node never sees a submission: the first attempt
   * throws while logging its fee info, after the nonce and the three fee
   * queries, where the intended attempt goes on to submit.
   */
  lemma FeeLoggingStopsFirstAttempt()
    ensures var p := Resolve(ExtraGasOptions(None, None, None));
      var e := AttemptEffectAsWritten(UnderpricedOnce, NoCalls, Transfer, Sender, p, 0);
      e.reply == Err(Unserializable) && |e.calls| == 4
      && |AttemptEffect(UnderpricedOnce, NoCalls, Transfer, Sender, p, 0).calls| == 5
  {
    var p := Resolve(ExtraGasOptions(None, None, None));
    var e := AttemptEffect(UnderpricedOnce, NoCalls, Transfer, Sender, p, 0);
    assert e.reply == Err(Remote(RemoteError("replacement transaction underpriced")));
  }
}
