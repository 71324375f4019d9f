/**
 What a decoded payment means, stated on the transactions and receipts: every payment stands for one configured
 transfer that touches an owned address, and every such transfer has its payment.
 */
module Credits {
  import opened Prelude
  import opened Tables
  import opened Decode

  // ----- A transfer and its payment -----

  /** A transfer of a configured asset, its place in the transaction, and its parsed parties. */
  datatype Transfer = Transfer(index: nat, from: Addr, to: Addr, asset: string, amount: nat)

  predicate Touches(c: Context, from: Addr, to: Addr) {
    from.key in c.owned || to.key in c.owned
  }

  /**
   The payment of a transfer: outgoing exactly when the sender is owned, and then at the sender's address;
   otherwise incoming at the receiver's.
   */
  predicate Pays(c: Context, block: Decode.Block, txid: string, t: Transfer, p: Payment, detectedAt: int) {
    && Touches(c, t.from, t.to)
    && p.key.txid == txid && p.key.logIndex == t.index
    && (p.direction == Out <==> t.from.key in c.owned)
    && (p.direction == In <==> t.from.key !in c.owned)
    && (t.from.key in c.owned ==> p.addressId == Some(c.owned[t.from.key]))
    && (t.from.key !in c.owned ==> p.addressId == Some(c.owned[t.to.key]))
    && p.from == t.from.text && p.to == t.to.text && p.asset == t.asset && p.amount == t.amount
    && p.height == block.height && p.blockId == block.id && p.timestamp == block.timestamp
    && (p.dust <==> t.asset in c.minimum && t.amount < c.minimum[t.asset])
    && p.status == PaymentStatus.Seen && p.orderId == None && p.confirmedAt == None && p.reason == None
    && p.detectedAt == detectedAt
  }

  // ----- Transactions -----

  predicate Successful(tx: Transaction) {
    tx.id != "" && tx.contracts != [] && tx.results != [] && tx.results[0] == "SUCCESS"
  }

  /** The first contract moves the native asset, which is configured. */
  predicate MovesNative(c: Context, tx: Transaction) {
    Successful(tx) && tx.contracts[0].NativeTransfer? && c.native != ""
  }

  /** The first contract is a transfer call of a configured token, from or to an owned address. */
  predicate CallsToken(c: Context, tx: Transaction) {
    && Successful(tx) && tx.contracts[0].TokenCall? && tx.contracts[0].call.Some?
    && c.parse(tx.contracts[0].contract).Some? && c.parse(tx.contracts[0].contract).value.key in c.tokens
    && c.parse(tx.contracts[0].owner).Some? && c.parse(tx.contracts[0].call.value.to).Some?
    && Touches(c, c.parse(tx.contracts[0].owner).value, c.parse(tx.contracts[0].call.value.to).value)
  }

  /** The native transfer of a transaction. */
  predicate NativeIs(c: Context, tx: Transaction, t: Transfer) {
    && MovesNative(c, tx)
    && c.parse(tx.contracts[0].owner) == Some(t.from) && c.parse(tx.contracts[0].to) == Some(t.to)
    && tx.contracts[0].amount == Some(t.amount) && t.asset == c.native && t.index == 0
  }

  // ----- Receipts -----

  ghost predicate LastFiled(receipts: seq<Receipt>, txid: string, info: Receipt, k: nat) {
    k < |receipts| && receipts[k] == info && info.id == txid && forall l :: k < l < |receipts| ==> receipts[l].id != txid
  }

  /** The last receipt filed under a transaction, when it reports no failure. */
  ghost predicate Settles(receipts: seq<Receipt>, txid: string, info: Receipt) {
    && (exists k: nat :: LastFiled(receipts, txid, info, k))
    && info.result != "FAILED" && (info.inner == "" || info.inner == "SUCCESS")
  }

  /** A log of an indexed transfer of a configured token. */
  predicate TransferLog(c: Context, log: Log) {
    && |log.topics| >= 3 && log.topics[0] == c.transferTopic
    && c.parse(log.address).Some? && c.parse(log.address).value.key in c.tokens
  }

  predicate LogIs(c: Context, log: Log, index: nat, t: Transfer) {
    && TransferLog(c, log)
    && c.parse(log.topics[1]) == Some(t.from) && c.parse(log.topics[2]) == Some(t.to)
    && log.amount == Some(t.amount) && t.asset == c.tokens[c.parse(log.address).value.key] && t.index == index
  }

  /** The transfers of a transaction: its native one, or those logged by a token call that settled. */
  ghost predicate TransferOf(c: Context, tx: Transaction, receipts: seq<Receipt>, t: Transfer) {
    || NativeIs(c, tx, t)
    || (CallsToken(c, tx) && exists info :: Settles(receipts, tx.id, info) && t.index < |info.logs| && LogIs(c, info.logs[t.index], t.index, t))
  }

  // ----- Errors -----

  /** A transfer log whose parties or amount cannot be read; the amount matters only when an owned address is touched. */
  predicate BadLog(c: Context, log: Log) {
    && log.topics != [] && log.topics[0] == c.transferTopic
    && (c.parse(log.address).None?
        || (TransferLog(c, log)
            && (c.parse(log.topics[1]).None? || c.parse(log.topics[2]).None?
                || (log.amount.None? && Touches(c, c.parse(log.topics[1]).value, c.parse(log.topics[2]).value)))))
  }

  ghost predicate SomeBad(c: Context, logs: seq<Log>) {
    exists l :: 0 <= l < |logs| && BadLog(c, logs[l])
  }

  predicate BadNative(c: Context, tx: Transaction) {
    && MovesNative(c, tx)
    && (c.parse(tx.contracts[0].owner).None? || c.parse(tx.contracts[0].to).None?
        || (tx.contracts[0].amount.None? && Touches(c, c.parse(tx.contracts[0].owner).value, c.parse(tx.contracts[0].to).value)))
  }

  predicate BadCall(c: Context, tx: Transaction) {
    && Successful(tx) && tx.contracts[0].TokenCall?
    && (c.parse(tx.contracts[0].contract).None?
        || (c.parse(tx.contracts[0].contract).value.key in c.tokens && tx.contracts[0].call.Some?
            && (c.parse(tx.contracts[0].owner).None? || c.parse(tx.contracts[0].call.value.to).None?
                || tx.contracts[0].call.value.amount.None?)))
  }

  /** A transaction that stops the decoding of its block. */
  ghost predicate Unreadable(c: Context, tx: Transaction, receipts: seq<Receipt>) {
    || BadNative(c, tx) || BadCall(c, tx)
    || (CallsToken(c, tx) && exists info :: Settles(receipts, tx.id, info) && SomeBad(c, info.logs))
  }

  // ----- One log -----

  /** A log is an error, nothing, or the payment of its transfer. */
  lemma LogMeans(c: Context, block: Decode.Block, txid: string, index: nat, log: Log, detectedAt: int)
    ensures var r := CreditLog(c, block, txid, index, log, detectedAt);
            && (r.Error? <==> BadLog(c, log))
            && (r.One? ==> exists t :: LogIs(c, log, index, t) && Pays(c, block, txid, t, r.value, detectedAt))
            && forall t :: LogIs(c, log, index, t) && Touches(c, t.from, t.to) ==> r.One? && Pays(c, block, txid, t, r.value, detectedAt)
  {
    var r := CreditLog(c, block, txid, index, log, detectedAt);
    if r.One? {
      var t := Transfer(index, c.parse(log.topics[1]).value, c.parse(log.topics[2]).value,
                        c.tokens[c.parse(log.address).value.key], log.amount.value);
      assert LogIs(c, log, index, t) && Pays(c, block, txid, t, r.value, detectedAt);
    }
  }

  // ----- The logs of a receipt -----

  /** A log transfer of the receipt that this payment stands for. */
  ghost predicate FromLogs(c: Context, block: Decode.Block, txid: string, logs: seq<Log>, p: Payment, detectedAt: int) {
    exists t: Transfer :: t.index < |logs| && LogIs(c, logs[t.index], t.index, t) && Pays(c, block, txid, t, p, detectedAt)
  }

  /** A payment of the transfer is among them. */
  ghost predicate Paid(c: Context, block: Decode.Block, txid: string, t: Transfer, payments: seq<Payment>, detectedAt: int) {
    exists i :: 0 <= i < |payments| && Pays(c, block, txid, t, payments[i], detectedAt)
  }

  lemma PaidLonger(c: Context, block: Decode.Block, txid: string, t: Transfer, payments: seq<Payment>, more: seq<Payment>, detectedAt: int)
    requires Paid(c, block, txid, t, payments, detectedAt) || Paid(c, block, txid, t, more, detectedAt)
    ensures Paid(c, block, txid, t, payments + more, detectedAt)
  {
    if Paid(c, block, txid, t, payments, detectedAt) {
      var i :| 0 <= i < |payments| && Pays(c, block, txid, t, payments[i], detectedAt);
      assert (payments + more)[i] == payments[i];
    } else {
      var i :| 0 <= i < |more| && Pays(c, block, txid, t, more[i], detectedAt);
      assert (payments + more)[|payments| + i] == more[i];
    }
  }

  lemma FromMoreLogs(c: Context, block: Decode.Block, txid: string, logs: seq<Log>, log: Log, p: Payment, detectedAt: int)
    requires FromLogs(c, block, txid, logs, p, detectedAt)
    ensures FromLogs(c, block, txid, logs + [log], p, detectedAt)
  {
    var t: Transfer :| t.index < |logs| && LogIs(c, logs[t.index], t.index, t) && Pays(c, block, txid, t, p, detectedAt);
    assert (logs + [log])[t.index] == logs[t.index];
  }

  lemma OneMoreBad(c: Context, logs: seq<Log>, log: Log)
    ensures SomeBad(c, logs + [log]) <==> SomeBad(c, logs) || BadLog(c, log)
  {
    var more := logs + [log];
    forall l | 0 <= l < |logs| ensures more[l] == logs[l] {
    }
    assert more[|logs|] == log;
  }

  lemma {:induction false} LogsStop(c: Context, block: Decode.Block, txid: string, logs: seq<Log>, detectedAt: int)
    ensures CreditLogs(c, block, txid, logs, detectedAt).None? <==> SomeBad(c, logs)
  {
    if logs != [] {
      var last := |logs| - 1;
      LogsStop(c, block, txid, logs[..last], detectedAt);
      LogMeans(c, block, txid, last, logs[last], detectedAt);
      OneMoreBad(c, logs[..last], logs[last]);
      assert logs == logs[..last] + [logs[last]];
    }
  }

  ghost predicate AllFromLogs(c: Context, block: Decode.Block, txid: string, logs: seq<Log>, payments: seq<Payment>, detectedAt: int) {
    forall i :: 0 <= i < |payments| ==> FromLogs(c, block, txid, logs, payments[i], detectedAt)
  }

  lemma AllFromMoreLogs(c: Context, block: Decode.Block, txid: string, logs: seq<Log>, log: Log, payments: seq<Payment>, detectedAt: int)
    requires AllFromLogs(c, block, txid, logs, payments, detectedAt)
    ensures AllFromLogs(c, block, txid, logs + [log], payments, detectedAt)
  {
    forall i | 0 <= i < |payments| ensures FromLogs(c, block, txid, logs + [log], payments[i], detectedAt) {
      FromMoreLogs(c, block, txid, logs, log, payments[i], detectedAt);
    }
  }

  lemma {:induction false} LogsMean(c: Context, block: Decode.Block, txid: string, logs: seq<Log>, detectedAt: int)
    ensures var r := CreditLogs(c, block, txid, logs, detectedAt);
            r.Some? ==> AllFromLogs(c, block, txid, logs, r.value, detectedAt)
    ensures var r := CreditLogs(c, block, txid, logs, detectedAt);
            r.Some? ==> forall t: Transfer :: t.index < |logs| && LogIs(c, logs[t.index], t.index, t) && Touches(c, t.from, t.to) ==>
                                                 Paid(c, block, txid, t, r.value, detectedAt)
  {
    var r := CreditLogs(c, block, txid, logs, detectedAt);
    if logs != [] && r.Some? {
      var last := |logs| - 1;
      var front := logs[..last];
      var before, one := CreditLogs(c, block, txid, front, detectedAt).value, CreditLog(c, block, txid, last, logs[last], detectedAt);
      LogsMean(c, block, txid, front, detectedAt);
      LogMeans(c, block, txid, last, logs[last], detectedAt);
      assert logs == front + [logs[last]];
      AllFromMoreLogs(c, block, txid, front, logs[last], before, detectedAt);
      if one.One? {
        assert FromLogs(c, block, txid, logs, one.value, detectedAt);
      }
      forall t: Transfer | t.index < |logs| && LogIs(c, logs[t.index], t.index, t) && Touches(c, t.from, t.to)
        ensures Paid(c, block, txid, t, r.value, detectedAt)
      {
        if t.index < last {
          assert front[t.index] == logs[t.index];
          assert Paid(c, block, txid, t, before, detectedAt);
          PaidLonger(c, block, txid, t, before, if one.One? then [one.value] else [], detectedAt);
          assert before + [] == before;
        } else {
          assert r.value[|before|] == one.value;
        }
      }
    }
  }

  // ----- One transaction -----

  lemma {:induction false} ReceiptIsLast(receipts: seq<Receipt>, txid: string, info: Receipt)
    ensures ReceiptFor(receipts, txid) == Some(info) <==> exists k: nat :: LastFiled(receipts, txid, info, k)
  {
    if receipts != [] {
      var last := |receipts| - 1;
      ReceiptIsLast(receipts[..last], txid, info);
      if receipts[last].id == txid {
        if ReceiptFor(receipts, txid) == Some(info) { assert LastFiled(receipts, txid, info, last); }
        forall k: nat | LastFiled(receipts, txid, info, k) ensures k == last {
        }
      } else {
        if ReceiptFor(receipts, txid) == Some(info) {
          var k: nat :| LastFiled(receipts[..last], txid, info, k);
          assert LastFiled(receipts, txid, info, k);
        }
        forall k: nat | LastFiled(receipts, txid, info, k) ensures LastFiled(receipts[..last], txid, info, k) {
        }
      }
    }
  }

  /** The payment stands for a transfer of the transaction. */
  ghost predicate Justified(c: Context, block: Decode.Block, tx: Transaction, receipts: seq<Receipt>, p: Payment, detectedAt: int) {
    exists t: Transfer :: TransferOf(c, tx, receipts, t) && Pays(c, block, tx.id, t, p, detectedAt)
  }

  lemma ScreenMeans(c: Context, block: Decode.Block, tx: Transaction)
    ensures var r := ScreenOne(c, block, tx);
            && (r.Error? <==> BadNative(c, tx) || BadCall(c, tx))
            && (r.One? ==> r.value.txid == tx.id)
            && (r.One? && r.value.native.None? <==> !BadCall(c, tx) && CallsToken(c, tx))
            && (r.One? && r.value.native.Some? ==>
                  exists t :: NativeIs(c, tx, t) && Pays(c, block, tx.id, t, r.value.native.value, 0))
            && forall t :: NativeIs(c, tx, t) && Touches(c, t.from, t.to) ==>
                 r.One? && r.value.native.Some? && Pays(c, block, tx.id, t, r.value.native.value, 0)
  {
    var r := ScreenOne(c, block, tx);
    if r.One? && r.value.native.Some? {
      var k := tx.contracts[0];
      var t := Transfer(0, c.parse(k.owner).value, c.parse(k.to).value, c.native, k.amount.value);
      assert NativeIs(c, tx, t) && Pays(c, block, tx.id, t, r.value.native.value, 0);
    }
  }

  ghost predicate AllJustified(c: Context, block: Decode.Block, tx: Transaction, receipts: seq<Receipt>, payments: seq<Payment>, detectedAt: int) {
    forall i :: 0 <= i < |payments| ==> Justified(c, block, tx, receipts, payments[i], detectedAt)
  }

  ghost predicate AllPaid(c: Context, block: Decode.Block, tx: Transaction, receipts: seq<Receipt>, payments: seq<Payment>, detectedAt: int) {
    forall t: Transfer :: TransferOf(c, tx, receipts, t) && Touches(c, t.from, t.to) ==> Paid(c, block, tx.id, t, payments, detectedAt)
  }

  /** The receipt of a token call, when it settled, is the one the decoder uses. */
  lemma SettledReceipt(receipts: seq<Receipt>, txid: string, info: Receipt)
    ensures Settles(receipts, txid, info) <==> ReceiptFor(receipts, txid) == Some(info) && Succeeded(info)
  {
    ReceiptIsLast(receipts, txid, info);
  }

  lemma NativeMeans(c: Context, block: Decode.Block, tx: Transaction, receipts: seq<Receipt>, detectedAt: int)
    requires MovesNative(c, tx)
    ensures var r := DecodeOne(c, block, tx, receipts, detectedAt);
            && (r.None? <==> Unreadable(c, tx, receipts))
            && (r.Some? ==> AllJustified(c, block, tx, receipts, r.value, detectedAt) && AllPaid(c, block, tx, receipts, r.value, detectedAt))
  {
    ScreenMeans(c, block, tx);
    var one, r := ScreenOne(c, block, tx), DecodeOne(c, block, tx, receipts, detectedAt);
    if one.One? {
      var t :| NativeIs(c, tx, t) && Pays(c, block, tx.id, t, one.value.native.value, 0);
      assert TransferOf(c, tx, receipts, t) && Pays(c, block, tx.id, t, r.value[0], detectedAt);
    }
  }

  lemma CallMeans(c: Context, block: Decode.Block, tx: Transaction, receipts: seq<Receipt>, detectedAt: int)
    requires CallsToken(c, tx) && !BadCall(c, tx)
    ensures var r := DecodeOne(c, block, tx, receipts, detectedAt);
            && (r.None? <==> Unreadable(c, tx, receipts))
            && (r.Some? ==> AllJustified(c, block, tx, receipts, r.value, detectedAt) && AllPaid(c, block, tx, receipts, r.value, detectedAt))
  {
    ScreenMeans(c, block, tx);
    var found, r := ReceiptFor(receipts, tx.id), DecodeOne(c, block, tx, receipts, detectedAt);
    forall info ensures Settles(receipts, tx.id, info) <==> found == Some(info) && Succeeded(info) {
      SettledReceipt(receipts, tx.id, info);
    }
    if found.Some? && Succeeded(found.value) {
      var info := found.value;
      assert Settles(receipts, tx.id, info);
      LogsStop(c, block, tx.id, info.logs, detectedAt);
      LogsMean(c, block, tx.id, info.logs, detectedAt);
      if r.Some? {
        forall i | 0 <= i < |r.value| ensures Justified(c, block, tx, receipts, r.value[i], detectedAt) {
          assert FromLogs(c, block, tx.id, info.logs, r.value[i], detectedAt);
          var t: Transfer :| t.index < |info.logs| && LogIs(c, info.logs[t.index], t.index, t) && Pays(c, block, tx.id, t, r.value[i], detectedAt);
          assert TransferOf(c, tx, receipts, t);
        }
      }
    }
  }

  /** A transaction that is neither is credited nothing, and stops nothing. */
  lemma OneMeans(c: Context, block: Decode.Block, tx: Transaction, receipts: seq<Receipt>, detectedAt: int)
    ensures var r := DecodeOne(c, block, tx, receipts, detectedAt);
            && (r.None? <==> Unreadable(c, tx, receipts))
            && (r.Some? ==> AllJustified(c, block, tx, receipts, r.value, detectedAt) && AllPaid(c, block, tx, receipts, r.value, detectedAt))
  {
    if MovesNative(c, tx) {
      NativeMeans(c, block, tx, receipts, detectedAt);
    } else if CallsToken(c, tx) && !BadCall(c, tx) {
      CallMeans(c, block, tx, receipts, detectedAt);
    } else {
      ScreenMeans(c, block, tx);
    }
  }

  // ----- A block -----

  /** Every payment stands for a transfer of some transaction of the block. */
  ghost predicate NothingElse(c: Context, block: Decode.Block, txs: seq<Transaction>, receipts: seq<Receipt>, payments: seq<Payment>, detectedAt: int) {
    forall i :: 0 <= i < |payments| ==> JustifiedBySome(c, block, txs, receipts, payments[i], detectedAt)
  }

  ghost predicate JustifiedBySome(c: Context, block: Decode.Block, txs: seq<Transaction>, receipts: seq<Receipt>, p: Payment, detectedAt: int) {
    exists k :: 0 <= k < |txs| && Justified(c, block, txs[k], receipts, p, detectedAt)
  }

  /** Every transfer of the block that touches an owned address is paid. */
  ghost predicate NothingMissing(c: Context, block: Decode.Block, txs: seq<Transaction>, receipts: seq<Receipt>, payments: seq<Payment>, detectedAt: int) {
    forall k :: 0 <= k < |txs| ==> AllPaid(c, block, txs[k], receipts, payments, detectedAt)
  }

  ghost predicate SomeUnreadable(c: Context, txs: seq<Transaction>, receipts: seq<Receipt>) {
    exists k :: 0 <= k < |txs| && Unreadable(c, txs[k], receipts)
  }

  lemma OneMoreTransaction(c: Context, block: Decode.Block, txs: seq<Transaction>, tx: Transaction, receipts: seq<Receipt>,
                           payments: seq<Payment>, more: seq<Payment>, detectedAt: int)
    requires NothingElse(c, block, txs, receipts, payments, detectedAt) && NothingMissing(c, block, txs, receipts, payments, detectedAt)
    requires AllJustified(c, block, tx, receipts, more, detectedAt) && AllPaid(c, block, tx, receipts, more, detectedAt)
    ensures NothingElse(c, block, txs + [tx], receipts, payments + more, detectedAt)
    ensures NothingMissing(c, block, txs + [tx], receipts, payments + more, detectedAt)
  {
    var all, longer := payments + more, txs + [tx];
    forall i | 0 <= i < |all| ensures JustifiedBySome(c, block, longer, receipts, all[i], detectedAt) {
      if i < |payments| {
        assert JustifiedBySome(c, block, txs, receipts, payments[i], detectedAt);
        var k :| 0 <= k < |txs| && Justified(c, block, txs[k], receipts, payments[i], detectedAt);
        assert longer[k] == txs[k];
      } else {
        assert longer[|txs|] == tx && all[i] == more[i - |payments|];
      }
    }
    forall k | 0 <= k < |longer| ensures AllPaid(c, block, longer[k], receipts, all, detectedAt) {
      forall t: Transfer | TransferOf(c, longer[k], receipts, t) && Touches(c, t.from, t.to)
        ensures Paid(c, block, longer[k].id, t, all, detectedAt)
      {
        if k < |txs| { assert AllPaid(c, block, txs[k], receipts, payments, detectedAt); }
        PaidLonger(c, block, longer[k].id, t, payments, more, detectedAt);
      }
    }
  }

  lemma OneMoreUnreadable(c: Context, txs: seq<Transaction>, tx: Transaction, receipts: seq<Receipt>)
    ensures SomeUnreadable(c, txs + [tx], receipts) <==> SomeUnreadable(c, txs, receipts) || Unreadable(c, tx, receipts)
  {
    var longer := txs + [tx];
    forall k | 0 <= k < |txs| ensures longer[k] == txs[k] {
    }
    assert longer[|txs|] == tx;
  }

  /** A block is refused exactly for an unreadable transaction; otherwise its payments are those of its transfers. */
  lemma {:induction false} BlockMeans(c: Context, block: Decode.Block, txs: seq<Transaction>, receipts: seq<Receipt>, detectedAt: int)
    ensures var r := Concatenated(c, block, txs, receipts, detectedAt);
            && (r.None? <==> SomeUnreadable(c, txs, receipts))
            && (r.Some? ==> && NothingElse(c, block, txs, receipts, r.value, detectedAt)
                            && NothingMissing(c, block, txs, receipts, r.value, detectedAt))
  {
    if txs != [] {
      var front, last := txs[..|txs| - 1], txs[|txs| - 1];
      BlockMeans(c, block, front, receipts, detectedAt);
      OneMeans(c, block, last, receipts, detectedAt);
      OneMoreUnreadable(c, front, last, receipts);
      assert txs == front + [last];
      var before, one := Concatenated(c, block, front, receipts, detectedAt), DecodeOne(c, block, last, receipts, detectedAt);
      if before.Some? && one.Some? {
        OneMoreTransaction(c, block, front, last, receipts, before.value, one.value, detectedAt);
      }
    }
  }

  // ----- The safety net -----

  /** The receipt belongs to the transaction and reports no failure. */
  predicate Reported(txid: string, info: Receipt) {
    (info.id == "" || info.id == txid) && info.result != "FAILED" && (info.inner == "" || info.inner == "SUCCESS")
  }

  ghost predicate FromNative(c: Context, block: Decode.Block, tx: Option<Transaction>, p: Payment, detectedAt: int) {
    tx.Some? && exists t: Transfer :: NativeIs(c, tx.value, t) && Pays(c, block, tx.value.id, t, p, detectedAt)
  }

  /** The native payments the safety net finds in the transaction. */
  function NativesOf(c: Context, block: Decode.Block, tx: Option<Transaction>, detectedAt: int): seq<Payment> {
    var items := if tx.Some? then Screen(c, block, [tx.value]) else Some([]);
    if items.Some? then Natives(items.value, detectedAt) else []
  }

  ghost predicate AllNative(c: Context, block: Decode.Block, tx: Option<Transaction>, payments: seq<Payment>, detectedAt: int) {
    forall i :: 0 <= i < |payments| ==> FromNative(c, block, tx, payments[i], detectedAt)
  }

  lemma ReconciledNative(c: Context, block: Decode.Block, tx: Option<Transaction>, detectedAt: int)
    ensures AllNative(c, block, tx, NativesOf(c, block, tx, detectedAt), detectedAt)
    ensures tx.Some? && Screen(c, block, [tx.value]).Some? ==>
              forall t: Transfer :: NativeIs(c, tx.value, t) && Touches(c, t.from, t.to) ==>
                                      Paid(c, block, tx.value.id, t, NativesOf(c, block, tx, detectedAt), detectedAt)
  {
    if tx.Some? {
      ReconciledScreen(c, block, tx.value);
      ScreenMeans(c, block, tx.value);
      var one := ScreenOne(c, block, tx.value);
      if one.One? {
        OneNative(one.value, detectedAt);
        if one.value.native.Some? {
          var p := one.value.native.value.(detectedAt := detectedAt);
          var t :| NativeIs(c, tx.value, t) && Pays(c, block, tx.value.id, t, one.value.native.value, 0);
          assert Pays(c, block, tx.value.id, t, p, detectedAt);
          assert [p][0] == p;
        }
      }
    }
  }

  lemma ReconciledLogs(c: Context, block: Decode.Block, txid: string, info: Receipt, detectedAt: int)
    ensures var named := if info.id == "" then info.(id := txid) else info;
            Credit(c, block, [Candidate(txid, None)], [named], detectedAt)
            == if Reported(txid, info) then CreditLogs(c, block, txid, info.logs, detectedAt) else Some([])
  {
    var named := if info.id == "" then info.(id := txid) else info;
    if named.id == txid {
      ReconciledTokens(c, block, txid, named, detectedAt);
    } else {
      var item := Candidate(txid, None);
      CreditSnoc(c, block, [], item, [named], detectedAt);
      assert [] + [item] == [item];
      var none: seq<Payment> := [];
      assert ReceiptFor([named], txid).None?;
      assert none + none == none && Credit(c, block, [], [named], detectedAt) == Some(none);
    }
  }

  lemma ReconciledStops(c: Context, block: Decode.Block, txid: string, tx: Option<Transaction>, info: Receipt, detectedAt: int)
    ensures DecodeReconciled(c, block, txid, tx, info, detectedAt).None? <==>
              (tx.Some? && (BadNative(c, tx.value) || BadCall(c, tx.value))) || (Reported(txid, info) && SomeBad(c, info.logs))
  {
    ReconciledLogs(c, block, txid, info, detectedAt);
    LogsStop(c, block, txid, info.logs, detectedAt);
    if tx.Some? {
      ReconciledScreen(c, block, tx.value);
      ScreenMeans(c, block, tx.value);
    }
  }

  ghost predicate FromEither(c: Context, block: Decode.Block, txid: string, tx: Option<Transaction>, info: Receipt, p: Payment, detectedAt: int) {
    FromNative(c, block, tx, p, detectedAt) || (Reported(txid, info) && FromLogs(c, block, txid, info.logs, p, detectedAt))
  }

  lemma EachFromEither(c: Context, block: Decode.Block, txid: string, tx: Option<Transaction>, info: Receipt,
                       natives: seq<Payment>, tokens: seq<Payment>, detectedAt: int)
    requires AllNative(c, block, tx, natives, detectedAt)
    requires tokens == [] || (Reported(txid, info) && AllFromLogs(c, block, txid, info.logs, tokens, detectedAt))
    ensures forall i :: 0 <= i < |natives + tokens| ==> FromEither(c, block, txid, tx, info, (natives + tokens)[i], detectedAt)
  {
    forall i | 0 <= i < |natives + tokens| ensures FromEither(c, block, txid, tx, info, (natives + tokens)[i], detectedAt) {
      if i >= |natives| {
        assert FromLogs(c, block, txid, info.logs, tokens[i - |natives|], detectedAt);
      }
    }
  }

  lemma StillPaid(c: Context, block: Decode.Block, txid: string, payments: seq<Payment>, more: seq<Payment>, detectedAt: int)
    ensures forall t: Transfer :: Paid(c, block, txid, t, payments, detectedAt) || Paid(c, block, txid, t, more, detectedAt) ==>
                                    Paid(c, block, txid, t, payments + more, detectedAt)
  {
    forall t: Transfer | Paid(c, block, txid, t, payments, detectedAt) || Paid(c, block, txid, t, more, detectedAt)
      ensures Paid(c, block, txid, t, payments + more, detectedAt)
    {
      PaidLonger(c, block, txid, t, payments, more, detectedAt);
    }
  }

  /** The safety net credits the native transfer of a transaction and the token transfers its receipt logs, and nothing else. */
  lemma ReconciledMeans(c: Context, block: Decode.Block, txid: string, tx: Option<Transaction>, info: Receipt, detectedAt: int)
    requires DecodeReconciled(c, block, txid, tx, info, detectedAt).Some?
    ensures var payments := DecodeReconciled(c, block, txid, tx, info, detectedAt).value;
            && (forall i :: 0 <= i < |payments| ==> FromEither(c, block, txid, tx, info, payments[i], detectedAt))
            && (tx.Some? ==> forall t: Transfer :: NativeIs(c, tx.value, t) && Touches(c, t.from, t.to) ==>
                                                      Paid(c, block, tx.value.id, t, payments, detectedAt))
            && (Reported(txid, info) ==>
                  forall t: Transfer :: t.index < |info.logs| && LogIs(c, info.logs[t.index], t.index, t) && Touches(c, t.from, t.to) ==>
                                          Paid(c, block, txid, t, payments, detectedAt))
  {
    ReconciledNative(c, block, tx, detectedAt);
    ReconciledLogs(c, block, txid, info, detectedAt);
    LogsMean(c, block, txid, info.logs, detectedAt);
    var natives := NativesOf(c, block, tx, detectedAt);
    var tokens := if Reported(txid, info) then CreditLogs(c, block, txid, info.logs, detectedAt).value else [];
    assert DecodeReconciled(c, block, txid, tx, info, detectedAt).value == natives + tokens;
    EachFromEither(c, block, txid, tx, info, natives, tokens, detectedAt);
    StillPaid(c, block, txid, natives, tokens, detectedAt);
    if tx.Some? {
      StillPaid(c, block, tx.value.id, natives, tokens, detectedAt);
    }
  }
}
