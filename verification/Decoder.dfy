/**
 The decoder's loops. Preparing a block yields the payments that its transfers call for, or an error exactly when
 one of its transactions cannot be read.
 */
module Decoder {
  import opened Prelude
  import opened Tables
  import opened Decode
  import opened Credits

  method ScreenBlock(c: Context, block: Decode.Block, txs: seq<Transaction>) returns (candidates: Option<seq<Candidate>>)
    ensures candidates == Screen(c, block, txs)
  {
    var found: seq<Candidate> := [];
    for i := 0 to |txs|
      invariant Screen(c, block, txs[..i]) == Some(found)
    {
      assert txs[..i + 1][..i] == txs[..i];
      var one := ScreenOne(c, block, txs[i]);
      if one.Error? {
        ScreenStops(c, block, txs, i + 1);
        return None;
      }
      if one.One? {
        found := found + [one.value];
      }
    }
    assert txs[..|txs|] == txs;
    return Some(found);
  }

  lemma {:induction false} ScreenStops(c: Context, block: Decode.Block, txs: seq<Transaction>, n: nat)
    requires n <= |txs| && Screen(c, block, txs[..n]).None?
    ensures Screen(c, block, txs).None?
    decreases |txs| - n
  {
    if n == |txs| {
      assert txs[..n] == txs;
    } else {
      assert txs[..n + 1][..n] == txs[..n];
      ScreenStops(c, block, txs, n + 1);
    }
  }

  /** Adds the credited logs of one receipt to the payments found so far. */
  method CreditReceipt(c: Context, block: Decode.Block, txid: string, logs: seq<Log>, detectedAt: int, before: seq<Payment>)
    returns (payments: Option<seq<Payment>>)
    ensures payments == var r := CreditLogs(c, block, txid, logs, detectedAt); if r.None? then None else Some(before + r.value)
  {
    var found: seq<Payment> := [];
    for i := 0 to |logs|
      invariant CreditLogs(c, block, txid, logs[..i], detectedAt) == Some(found)
    {
      assert logs[..i + 1][..i] == logs[..i];
      var one := CreditLog(c, block, txid, i, logs[i], detectedAt);
      if one.Error? {
        CreditStops(c, block, txid, logs, i + 1, detectedAt);
        return None;
      }
      if one.One? {
        found := found + [one.value];
      }
    }
    assert logs[..|logs|] == logs;
    return Some(before + found);
  }

  lemma {:induction false} CreditStops(c: Context, block: Decode.Block, txid: string, logs: seq<Log>, n: nat, detectedAt: int)
    requires n <= |logs| && CreditLogs(c, block, txid, logs[..n], detectedAt).None?
    ensures CreditLogs(c, block, txid, logs, detectedAt).None?
    decreases |logs| - n
  {
    if n == |logs| {
      assert logs[..n] == logs;
    } else {
      assert logs[..n + 1][..n] == logs[..n];
      CreditStops(c, block, txid, logs, n + 1, detectedAt);
    }
  }

  method CreditBlock(c: Context, block: Decode.Block, items: seq<Candidate>, receipts: seq<Receipt>, detectedAt: int)
    returns (payments: Option<seq<Payment>>)
    ensures payments == Credit(c, block, items, receipts, detectedAt)
  {
    var found: seq<Payment> := [];
    for i := 0 to |items|
      invariant Credit(c, block, items[..i], receipts, detectedAt) == Some(found)
    {
      assert items[..i + 1][..i] == items[..i];
      var item := items[i];
      assert found + [] == found;
      if item.native.Some? {
        found := found + [item.native.value.(detectedAt := detectedAt)];
      } else {
        var info := ReceiptFor(receipts, item.txid);
        if info.Some? && Succeeded(info.value) {
          var more := CreditReceipt(c, block, item.txid, info.value.logs, detectedAt, found);
          if more.None? {
            ItemsStop(c, block, items, receipts, i + 1, detectedAt);
            return None;
          }
          found := more.value;
        }
      }
    }
    assert items[..|items|] == items;
    return Some(found);
  }

  lemma {:induction false} ItemsStop(c: Context, block: Decode.Block, items: seq<Candidate>, receipts: seq<Receipt>, n: nat, detectedAt: int)
    requires n <= |items| && Credit(c, block, items[..n], receipts, detectedAt).None?
    ensures Credit(c, block, items, receipts, detectedAt).None?
    decreases |items| - n
  {
    if n == |items| {
      assert items[..n] == items;
    } else {
      assert items[..n + 1][..n] == items[..n];
      ItemsStop(c, block, items, receipts, n + 1, detectedAt);
    }
  }

  /**
   The follower's preparation of a block: a payment for each transfer that touches an owned address and for nothing
   else, or an error exactly when a transaction cannot be read.
   */
  method Prepare(c: Context, block: Decode.Block, txs: seq<Transaction>, receipts: seq<Receipt>, detectedAt: int)
    returns (payments: Option<seq<Payment>>)
    ensures payments == Concatenated(c, block, txs, receipts, detectedAt)
    ensures payments.None? <==> SomeUnreadable(c, txs, receipts)
    ensures payments.Some? ==> && NothingElse(c, block, txs, receipts, payments.value, detectedAt)
                               && NothingMissing(c, block, txs, receipts, payments.value, detectedAt)
  {
    BlockIsItsTransactions(c, block, txs, receipts, detectedAt);
    BlockMeans(c, block, txs, receipts, detectedAt);
    var candidates := ScreenBlock(c, block, txs);
    if candidates.None? {
      return None;
    }
    if candidates.value == [] {
      return Some([]);
    }
    payments := CreditBlock(c, block, candidates.value, receipts, detectedAt);
  }
}
