/**
 Payment decoding in two tiers: the transactions of a block are screened for a possible payment, and token
 payments are credited from the receipt logs alone. The follower and the safety net read the same transaction
 alike. Address and amount syntax are parameters.
 */
module Decode {
  import opened Prelude
  import opened Tables

  // ----- Chain data -----

  /** A parsed address: the key the lookups use, and the text that is stored. */
  datatype Addr = Addr(key: string, text: string)

  /** A token call names its destination word and amount; other calls carry none. */
  datatype TransferCall = TransferCall(to: string, amount: Option<nat>)

  datatype Contract =
    | NativeTransfer(owner: string, to: string, amount: Option<nat>)
    | TokenCall(owner: string, contract: string, call: Option<TransferCall>)
    | Unrelated

  datatype Transaction = Transaction(id: string, contracts: seq<Contract>, results: seq<string>)

  /** topics are lower-cased without prefix; amount is None when the data is no hex number. */
  datatype Log = Log(address: string, topics: seq<string>, amount: Option<nat>)

  datatype Receipt = Receipt(id: string, result: string, inner: string, logs: seq<Log>)

  datatype Block = Block(height: int, id: string, timestamp: int)

  /** The configured assets, the owned addresses by key, and the address syntax. */
  datatype Context = Context(
    native: string, tokens: map<string, string>, minimum: map<string, nat>, owned: map<string, nat>,
    parse: string -> Option<Addr>, transferTopic: string)

  /** A screened transaction: a native payment, or a token call whose receipt has to be read. */
  datatype Candidate = Candidate(txid: string, native: Option<Payment>)

  // ----- Shared rules -----

  function DirectionOf(from: string, to: string, owned: map<string, nat>): Option<(Direction, nat)> {
    if from in owned then Some((Out, owned[from])) else if to in owned then Some((In, owned[to])) else None
  }

  predicate BelowMinimum(amount: nat, asset: string, minimum: map<string, nat>) {
    asset in minimum && amount < minimum[asset]
  }

  function Record(c: Context, block: Block, txid: string, index: nat, hit: (Direction, nat), from: Addr, to: Addr,
                  asset: string, amount: nat, detectedAt: int): Payment {
    Payment(PaymentKey(txid, index), hit.0, block.height, block.id, block.timestamp, from.text, to.text, Some(hit.1), None,
            asset, amount, BelowMinimum(amount, asset, c.minimum), Seen, detectedAt, None, None)
  }

  /** A step of a decoder: an error, nothing, or one result. */
  datatype Found<T> = Error | Nothing | One(value: T)

  // ----- Tier 1 -----

  function ScreenOne(c: Context, block: Block, tx: Transaction): Found<Candidate> {
    if tx.id == "" || tx.contracts == [] || tx.results == [] || tx.results[0] != "SUCCESS" then Nothing
    else
      match tx.contracts[0]
      case NativeTransfer(owner, dest, amount) =>
        if c.native == "" then Nothing
        else
          var from, to := c.parse(owner), c.parse(dest);
          if from.None? || to.None? then Error
          else
            var hit := DirectionOf(from.value.key, to.value.key, c.owned);
            if hit.None? then Nothing
            else if amount.None? then Error
            else One(Candidate(tx.id, Some(Record(c, block, tx.id, 0, hit.value, from.value, to.value, c.native, amount.value, 0))))
      case TokenCall(owner, contract, call) =>
        var token := c.parse(contract);
        if token.None? then Error
        else if token.value.key !in c.tokens || call.None? then Nothing
        else
          var from, to := c.parse(owner), c.parse(call.value.to);
          if from.None? || to.None? || call.value.amount.None? then Error
          else if DirectionOf(from.value.key, to.value.key, c.owned).None? then Nothing
          else One(Candidate(tx.id, None))
      case Unrelated => Nothing
  }

  function Screen(c: Context, block: Block, txs: seq<Transaction>): Option<seq<Candidate>> {
    if txs == [] then Some([])
    else
      var before, one := Screen(c, block, txs[..|txs| - 1]), ScreenOne(c, block, txs[|txs| - 1]);
      if before.None? || one.Error? then None
      else if one.One? then Some(before.value + [one.value]) else before
  }

  // ----- Tier 2 -----

  function CreditLog(c: Context, block: Block, txid: string, index: nat, log: Log, detectedAt: int): Found<Payment> {
    if log.topics == [] || log.topics[0] != c.transferTopic then Nothing
    else
      var token := c.parse(log.address);
      if token.None? then Error
      else if token.value.key !in c.tokens || |log.topics| < 3 then Nothing
      else
        var from, to := c.parse(log.topics[1]), c.parse(log.topics[2]);
        if from.None? || to.None? then Error
        else
          var hit := DirectionOf(from.value.key, to.value.key, c.owned);
          if hit.None? then Nothing
          else if log.amount.None? then Error
          else One(Record(c, block, txid, index, hit.value, from.value, to.value, c.tokens[token.value.key], log.amount.value, detectedAt))
  }

  function CreditLogs(c: Context, block: Block, txid: string, logs: seq<Log>, detectedAt: int): Option<seq<Payment>> {
    if logs == [] then Some([])
    else
      var last := |logs| - 1;
      var before, one := CreditLogs(c, block, txid, logs[..last], detectedAt), CreditLog(c, block, txid, last, logs[last], detectedAt);
      if before.None? || one.Error? then None
      else if one.One? then Some(before.value + [one.value]) else before
  }

  /** The receipt filed under an id: the last one wins. */
  function ReceiptFor(receipts: seq<Receipt>, id: string): (r: Option<Receipt>)
    ensures r.Some? ==> r.value in receipts && r.value.id == id
    ensures r.None? ==> forall i :: 0 <= i < |receipts| ==> receipts[i].id != id
  {
    if receipts == [] then None
    else if receipts[|receipts| - 1].id == id then Some(receipts[|receipts| - 1])
    else ReceiptFor(receipts[..|receipts| - 1], id)
  }

  predicate Succeeded(info: Receipt) {
    info.result != "FAILED" && (info.inner == "" || info.inner == "SUCCESS")
  }

  function CreditOne(c: Context, block: Block, item: Candidate, info: Option<Receipt>, detectedAt: int): Option<seq<Payment>> {
    if item.native.Some? then Some([item.native.value.(detectedAt := detectedAt)])
    else if info.None? || !Succeeded(info.value) then Some([])
    else CreditLogs(c, block, item.txid, info.value.logs, detectedAt)
  }

  function Credit(c: Context, block: Block, items: seq<Candidate>, receipts: seq<Receipt>, detectedAt: int): Option<seq<Payment>> {
    if items == [] then Some([])
    else
      var item := items[|items| - 1];
      var before := Credit(c, block, items[..|items| - 1], receipts, detectedAt);
      var one := CreditOne(c, block, item, ReceiptFor(receipts, item.txid), detectedAt);
      if before.None? || one.None? then None else Some(before.value + one.value)
  }

  // ----- The two decoders -----

  /** The follower: the receipts of a block are read only when a transaction was screened in. */
  function DecodeBlock(c: Context, block: Block, txs: seq<Transaction>, receipts: seq<Receipt>, detectedAt: int): Option<seq<Payment>> {
    var items := Screen(c, block, txs);
    if items.None? then None else if items.value == [] then Some([]) else Credit(c, block, items.value, receipts, detectedAt)
  }

  /** The safety net: the native payment of a transaction, and every log of its receipt. */
  function DecodeReconciled(c: Context, block: Block, txid: string, tx: Option<Transaction>, info: Receipt, detectedAt: int): Option<seq<Payment>> {
    var items := if tx.Some? then Screen(c, block, [tx.value]) else Some([]);
    if items.None? then None
    else
      var named := if info.id == "" then info.(id := txid) else info;
      var tokens := Credit(c, block, [Candidate(txid, None)], [named], detectedAt);
      if tokens.None? then None else Some(Natives(items.value, detectedAt) + tokens.value)
  }

  function Natives(items: seq<Candidate>, detectedAt: int): seq<Payment> {
    if items == [] then []
    else
      var item, before := items[|items| - 1], Natives(items[..|items| - 1], detectedAt);
      if item.native.Some? then before + [item.native.value.(detectedAt := detectedAt)] else before
  }

  // ----- Decoding a block is decoding its transactions -----

  function DecodeOne(c: Context, block: Block, tx: Transaction, receipts: seq<Receipt>, detectedAt: int): Option<seq<Payment>> {
    match ScreenOne(c, block, tx)
    case Error => None
    case Nothing => Some([])
    case One(item) => CreditOne(c, block, item, ReceiptFor(receipts, item.txid), detectedAt)
  }

  /** The payments of the transactions, one after another. */
  function Concatenated(c: Context, block: Block, txs: seq<Transaction>, receipts: seq<Receipt>, detectedAt: int): Option<seq<Payment>> {
    if txs == [] then Some([])
    else
      var before := Concatenated(c, block, txs[..|txs| - 1], receipts, detectedAt);
      var one := DecodeOne(c, block, txs[|txs| - 1], receipts, detectedAt);
      if before.None? || one.None? then None else Some(before.value + one.value)
  }

  lemma CreditSnoc(c: Context, block: Block, items: seq<Candidate>, item: Candidate, receipts: seq<Receipt>, detectedAt: int)
    ensures var before, one := Credit(c, block, items, receipts, detectedAt),
                               CreditOne(c, block, item, ReceiptFor(receipts, item.txid), detectedAt);
            Credit(c, block, items + [item], receipts, detectedAt)
            == if before.None? || one.None? then None else Some(before.value + one.value)
  {
    assert (items + [item])[..|items|] == items;
  }

  lemma {:induction false} BlockIsItsTransactions(c: Context, block: Block, txs: seq<Transaction>, receipts: seq<Receipt>, detectedAt: int)
    ensures DecodeBlock(c, block, txs, receipts, detectedAt) == Concatenated(c, block, txs, receipts, detectedAt)
  {
    if txs != [] {
      var front := txs[..|txs| - 1];
      BlockIsItsTransactions(c, block, front, receipts, detectedAt);
      var before, one := Screen(c, block, front), ScreenOne(c, block, txs[|txs| - 1]);
      if before.Some? {
        assert DecodeBlock(c, block, front, receipts, detectedAt) == Credit(c, block, before.value, receipts, detectedAt);
        if one.One? {
          CreditSnoc(c, block, before.value, one.value, receipts, detectedAt);
        } else if one.Nothing? && Credit(c, block, before.value, receipts, detectedAt).Some? {
          var credited := Credit(c, block, before.value, receipts, detectedAt).value;
          assert credited + [] == credited;
        }
      }
    }
  }

  lemma SingleTransaction(c: Context, block: Block, tx: Transaction, receipts: seq<Receipt>, detectedAt: int)
    ensures DecodeBlock(c, block, [tx], receipts, detectedAt) == DecodeOne(c, block, tx, receipts, detectedAt)
  {
    BlockIsItsTransactions(c, block, [tx], receipts, detectedAt);
    assert [tx][..0] == [];
    assert Concatenated(c, block, [], receipts, detectedAt) == Some([]);
    var one := DecodeOne(c, block, tx, receipts, detectedAt);
    if one.Some? {
      assert [] + one.value == one.value;
    }
  }

  // ----- The follower and the safety net agree -----

  /** A native transfer whose receipt carries no transfer of a configured token to or from an owned address. */
  predicate NoTokenTransfer(c: Context, block: Block, txid: string, info: Receipt, detectedAt: int) {
    CreditLogs(c, block, txid, info.logs, detectedAt) == Some([])
  }

  lemma ReconciledTokens(c: Context, block: Block, txid: string, info: Receipt, detectedAt: int)
    requires info.id == txid
    ensures Credit(c, block, [Candidate(txid, None)], [info], detectedAt)
         == if Succeeded(info) then CreditLogs(c, block, txid, info.logs, detectedAt) else Some([])
  {
    var item := Candidate(txid, None);
    CreditSnoc(c, block, [], item, [info], detectedAt);
    assert [] + [item] == [item];
    assert ReceiptFor([info], txid) == Some(info);
    var one := CreditOne(c, block, item, Some(info), detectedAt);
    if one.Some? {
      assert [] + one.value == one.value;
    }
  }

  lemma ReconciledScreen(c: Context, block: Block, tx: Transaction)
    ensures Screen(c, block, [tx]) == match ScreenOne(c, block, tx)
                                      case Error => None
                                      case Nothing => Some([])
                                      case One(item) => Some([item])
  {
    assert [tx][..0] == [];
    assert Screen(c, block, []) == Some([]);
    var one := ScreenOne(c, block, tx);
    if one.One? {
      assert [] + [one.value] == [one.value];
    }
  }

  lemma OneNative(item: Candidate, detectedAt: int)
    ensures Natives([item], detectedAt) == if item.native.Some? then [item.native.value.(detectedAt := detectedAt)] else []
  {
    assert [item][..0] == [];
    if item.native.Some? {
      assert [] + [item.native.value.(detectedAt := detectedAt)] == [item.native.value.(detectedAt := detectedAt)];
    }
  }

  /**
   Whatever the follower credits for a transaction, the safety net credits too, record for record, so a second
   sighting never brings a new payment identity. The follower alone may credit nothing.
   */
  lemma DecodersAgree(c: Context, block: Block, tx: Transaction, info: Receipt, receipts: seq<Receipt>, detectedAt: int)
    requires info.id == tx.id && ReceiptFor(receipts, tx.id) == Some(info)
    requires ScreenOne(c, block, tx).One? && ScreenOne(c, block, tx).value.native.Some? ==>
               NoTokenTransfer(c, block, tx.id, info, detectedAt)
    ensures var follower := DecodeBlock(c, block, [tx], receipts, detectedAt);
            follower.None? || follower.value == []
            || follower == DecodeReconciled(c, block, tx.id, Some(tx), info, detectedAt)
  {
    SingleTransaction(c, block, tx, receipts, detectedAt);
    ReconciledTokens(c, block, tx.id, info, detectedAt);
    ReconciledScreen(c, block, tx);
    var one := ScreenOne(c, block, tx);
    if one.One? {
      OneNative(one.value, detectedAt);
      var credited := CreditOne(c, block, one.value, Some(info), detectedAt);
      if credited.Some? {
        assert credited.value + [] == credited.value && [] + credited.value == credited.value;
      }
    }
  }

  // ----- Payment identities -----

  ghost predicate Identities(payments: seq<Payment>, txid: string, bound: nat) {
    && (forall i :: 0 <= i < |payments| ==> payments[i].key.txid == txid && 0 <= payments[i].key.logIndex < bound)
    && (forall i, j :: 0 <= i < j < |payments| ==> payments[i].key.logIndex < payments[j].key.logIndex)
  }

  lemma {:induction false} LogsHaveIdentities(c: Context, block: Block, txid: string, logs: seq<Log>, detectedAt: int)
    ensures var r := CreditLogs(c, block, txid, logs, detectedAt); r.Some? ==> Identities(r.value, txid, |logs|)
  {
    if logs != [] {
      LogsHaveIdentities(c, block, txid, logs[..|logs| - 1], detectedAt);
    }
  }

  lemma OneHasIdentities(c: Context, block: Block, tx: Transaction, receipts: seq<Receipt>, detectedAt: int)
    ensures var r := DecodeOne(c, block, tx, receipts, detectedAt); r.Some? ==>
              forall i :: 0 <= i < |r.value| ==> r.value[i].key.txid == tx.id
    ensures var r := DecodeOne(c, block, tx, receipts, detectedAt); r.Some? ==>
              forall i, j :: 0 <= i < j < |r.value| ==> r.value[i].key != r.value[j].key
  {
    var one := ScreenOne(c, block, tx);
    if one.One? && one.value.native.None? && ReceiptFor(receipts, tx.id).Some? {
      LogsHaveIdentities(c, block, tx.id, ReceiptFor(receipts, tx.id).value.logs, detectedAt);
    }
  }

  predicate Listed(txs: seq<Transaction>, txid: string) {
    exists k :: 0 <= k < |txs| && txs[k].id == txid
  }

  ghost predicate From(payments: seq<Payment>, txs: seq<Transaction>) {
    forall i :: 0 <= i < |payments| ==> Listed(txs, payments[i].key.txid)
  }

  ghost predicate DistinctTransactions(txs: seq<Transaction>) {
    forall i, j :: 0 <= i < j < |txs| ==> txs[i].id != txs[j].id
  }

  lemma {:induction false} ConcatenationIsDistinct(c: Context, block: Block, txs: seq<Transaction>, receipts: seq<Receipt>, detectedAt: int)
    requires DistinctTransactions(txs)
    ensures var r := Concatenated(c, block, txs, receipts, detectedAt); r.Some? ==> DistinctKeys(r.value) && From(r.value, txs)
  {
    if txs != [] && Concatenated(c, block, txs, receipts, detectedAt).Some? {
      var front, last := txs[..|txs| - 1], txs[|txs| - 1];
      ConcatenationIsDistinct(c, block, front, receipts, detectedAt);
      OneHasIdentities(c, block, last, receipts, detectedAt);
      var before, one := Concatenated(c, block, front, receipts, detectedAt).value, DecodeOne(c, block, last, receipts, detectedAt).value;
      AppendDistinct(before, one, front, last, txs);
    }
  }

  /** The payments of a block of distinct transactions have distinct (txid, log_index) identities. */
  lemma BlockHasDistinctKeys(c: Context, block: Block, txs: seq<Transaction>, receipts: seq<Receipt>, detectedAt: int)
    requires DistinctTransactions(txs)
    ensures var r := DecodeBlock(c, block, txs, receipts, detectedAt); r.Some? ==> DistinctKeys(r.value) && From(r.value, txs)
  {
    BlockIsItsTransactions(c, block, txs, receipts, detectedAt);
    ConcatenationIsDistinct(c, block, txs, receipts, detectedAt);
  }

  lemma AppendDistinct(before: seq<Payment>, one: seq<Payment>, front: seq<Transaction>, last: Transaction, txs: seq<Transaction>)
    requires txs == front + [last] && DistinctTransactions(txs)
    requires DistinctKeys(before) && From(before, front)
    requires forall i :: 0 <= i < |one| ==> one[i].key.txid == last.id
    requires forall i, j :: 0 <= i < j < |one| ==> one[i].key != one[j].key
    ensures DistinctKeys(before + one) && From(before + one, txs)
  {
    var all := before + one;
    assert txs[|front|] == last;
    forall i | 0 <= i < |before| ensures before[i].key.txid != last.id && Listed(txs, before[i].key.txid) {
      assert Listed(front, before[i].key.txid);
      var k :| 0 <= k < |front| && front[k].id == before[i].key.txid;
      assert txs[k] == front[k];
    }
    forall i | 0 <= i < |all| ensures Listed(txs, all[i].key.txid) {
    }
  }
}
