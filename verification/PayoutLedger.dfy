/**
 Payouts and the ledger share one database: every payout transaction changes the ledger tables by at most one
 ledger event, so the balances stay equal to the payment rows through payouts and power failures too.
 */
module PayoutLedger {
  import opened Prelude
  import opened Tables
  import opened Balances
  import Ledger
  import opened Payouts
  import opened Broadcasts

  /** The row a grant's receipt books under a key: the one stored before, confirmed when it is the top-up's, or a new one. */
  ghost predicate Booked(payments: seq<Payment>, after: seq<Payment>, row: Payment, confirms: bool) {
    && (exists i :: 0 <= i < |after| && after[i].key == row.key)
    && forall i :: 0 <= i < |after| && after[i].key == row.key ==>
         if i < |payments| then
           after[i] == if confirms then payments[i].(status := PaymentStatus.Confirmed, confirmedAt := row.confirmedAt) else payments[i]
         else after[i] == row
  }

  lemma FeeIsBookedOnce(payments: seq<Payment>, row: Payment)
    ensures var after := Ledger.InsertIfAbsent(payments, row);
            && Booked(payments, after, row, false) && |payments| <= |after| <= |payments| + 1
            && after[..|payments|] == payments && (DistinctKeys(payments) ==> DistinctKeys(after))
            && forall i :: |payments| <= i < |after| ==> after[i] == row
  {
    var i := FindPayment(payments, row.key);
    assert Ledger.InsertIfAbsent(payments, row)[i].key == row.key;
  }

  lemma TransferIsBooked(payments: seq<Payment>, row: Payment)
    requires DistinctKeys(payments)
    ensures var after := Ledger.ConfirmOrInsert(payments, row);
            && Booked(payments, after, row, true) && |payments| <= |after| <= |payments| + 1
            && (forall i :: 0 <= i < |payments| && payments[i].key != row.key ==> after[i] == payments[i])
            && (forall i :: 0 <= i < |payments| ==> after[i].key == payments[i].key)
            && forall i :: |payments| <= i < |after| ==> after[i] == row
  {
    var i := FindPayment(payments, row.key);
    assert Ledger.ConfirmOrInsert(payments, row)[i].key == row.key;
  }

  /**
   A top-up's receipt leaves the transfer from the resource wallet to the receiver confirmed, and the fee on record,
   whether or not the follower saw the transfer first.
   */
  lemma TopupIsBooked(db: Db, txid: string, fee: nat, receiver: string, amount: nat, height: int, timestamp: int, wallet: nat, now: int)
    requires DistinctKeys(db.payments)
    requires Ledger.RecordGrantReceipt(db, txid, fee, Some((receiver, amount)), height, timestamp, wallet, now).Some?
    ensures var after := Ledger.RecordGrantReceipt(db, txid, fee, Some((receiver, amount)), height, timestamp, wallet, now).value;
            var from := AddressAt(db, wallet);
            && Booked(db.payments, after.payments, Payment(PaymentKey(txid, 0), Out, height, "", timestamp, from, receiver, Some(wallet), None, "TRX", amount,
                                         false, PaymentStatus.Confirmed, now, Some(now), None), true)
            && (fee > 0 ==>
                  Booked(db.payments, after.payments, Payment(PaymentKey(txid, -1), Out, height, "", timestamp, from, "network_fee", Some(wallet), None, "TRX", fee,
                                            false, PaymentStatus.Confirmed, now, Some(now), None), false))
            && |after.payments| <= |db.payments| + 2
            && forall i :: 0 <= i < |db.payments| && db.payments[i].key != PaymentKey(txid, 0) ==> after.payments[i] == db.payments[i]
  {
    RowsAreBooked(db, txid, fee, receiver, amount, height, timestamp, wallet, now);
  }

  lemma RowsAreBooked(db: Db, txid: string, fee: nat, receiver: string, amount: nat, height: int, timestamp: int, wallet: nat, now: int)
    requires DistinctKeys(db.payments)
    ensures var from := AddressAt(db, wallet);
            var feeRow := Ledger.FeeRow(txid, height, timestamp, from, wallet, fee, now);
            var row := Ledger.TopupRow(txid, height, timestamp, from, receiver, wallet, amount, now);
            var after := Ledger.ReceiptPayments(db, txid, fee, Some((receiver, amount)), height, timestamp, wallet, now);
            && Booked(db.payments, after, row, true) && (fee > 0 ==> Booked(db.payments, after, feeRow, false))
            && |after| <= |db.payments| + 2
            && forall i :: 0 <= i < |db.payments| && db.payments[i].key != row.key ==> after[i] == db.payments[i]
  {
    var from := AddressAt(db, wallet);
    var feeRow := Ledger.FeeRow(txid, height, timestamp, from, wallet, fee, now);
    var fees := Ledger.FeeInserted(db, txid, height, timestamp, wallet, fee, now);
    var row := Ledger.TopupRow(txid, height, timestamp, from, receiver, wallet, amount, now);
    FeeIsBookedOnce(db.payments, feeRow);
    TransferIsBooked(fees, row);
    BookedInTurn(db.payments, fees, Ledger.ConfirmOrInsert(fees, row), feeRow, row, fee > 0);
  }

  lemma BookedInTurn(payments: seq<Payment>, fees: seq<Payment>, after: seq<Payment>, feeRow: Payment, row: Payment, booked: bool)
    requires feeRow.key != row.key && |payments| <= |fees| <= |after| && fees[..|payments|] == payments
    requires if booked then Booked(payments, fees, feeRow, false) else fees == payments
    requires forall i :: |payments| <= i < |fees| ==> fees[i] == feeRow
    requires Booked(fees, after, row, true) && forall i :: |fees| <= i < |after| ==> after[i] == row
    requires forall i :: 0 <= i < |fees| ==> after[i].key == fees[i].key && (fees[i].key != row.key ==> after[i] == fees[i])
    ensures Booked(payments, after, row, true)
    ensures booked ==> Booked(payments, after, feeRow, false)
    ensures forall i :: 0 <= i < |payments| && payments[i].key != row.key ==> after[i] == payments[i]
  {
    forall i | 0 <= i < |payments| ensures fees[i] == payments[i] {
      assert fees[i] == fees[..|payments|][i];
    }
    forall i | 0 <= i < |after| && after[i].key == feeRow.key && booked ensures i < |fees| && after[i] == fees[i] {
    }
    if booked {
      var i :| 0 <= i < |fees| && fees[i].key == feeRow.key;
      assert after[i] == fees[i];
    }
  }

  /** The ledger event a payout transaction contains. */
  function EventOf(books: Books, op: Op): Option<Ledger.Event> {
    match op
    case LedgerEvent(ev) => Some(ev)
    case Confirm(id, fee, height, timestamp, now) =>
      if id < |books.withdrawals| && books.withdrawals[id].txid.Some?
      then Some(Ledger.Fee(books.withdrawals[id].txid.value, height, timestamp, books.withdrawals[id].addressId, if fee > 0 then fee else 0, now))
      else None
    case ReceiveGrant(id, fee, height, timestamp, wallet, now) =>
      if id < |books.grants| && books.grants[id].txid.Some? && fee >= 0
      then
        Some(Ledger.GrantReceipt(
               books.grants[id].txid.value, fee,
               if books.grants[id].source.Topup? then Some((books.grants[id].receiver, books.grants[id].amount)) else None,
               height, timestamp, ResourceWallet(books.db.addresses, wallet).GetOr(|books.db.addresses|), now))
      else None
    case _ => None
  }

  lemma ConfirmIsAFee(books: Books, id: nat, fee: int, height: int, timestamp: int, now: int)
    requires ConfirmWithdrawal(books, id, fee, height, timestamp, now).Some?
    ensures var ev := Ledger.Fee(books.withdrawals[id].txid.value, height, timestamp, books.withdrawals[id].addressId, if fee > 0 then fee else 0, now);
            ConfirmWithdrawal(books, id, fee, height, timestamp, now).value.db == Ledger.Apply(books.db, ev)
  {
  }

  lemma ConfirmMovesTheLedger(books: Books, op: Op)
    requires op.Confirm? && AttemptOp(books, op).Some?
    ensures EventOf(books, op).Some? && AttemptOp(books, op).value.db == Ledger.Apply(books.db, EventOf(books, op).value)
  {
    ConfirmIsAFee(books, op.id, op.fee, op.height, op.timestamp, op.now);
    assert AttemptOp(books, op) == ConfirmWithdrawal(books, op.id, op.fee, op.height, op.timestamp, op.now);
  }

  lemma ReceiptIsAnEvent(books: Books, id: nat, fee: int, height: int, timestamp: int, wallet: nat, now: int)
    requires RecordResourceGrantReceipt(books, id, fee, height, timestamp, wallet, now).Some?
    ensures var ev := EventOf(books, ReceiveGrant(id, fee, height, timestamp, wallet, now));
            ev.Some? && Ledger.Attempt(books.db, ev.value)
                        == Some(RecordResourceGrantReceipt(books, id, fee, height, timestamp, wallet, now).value.db)
  {
    var g := books.grants[id];
    var topup := if g.source.Topup? then Some((g.receiver, g.amount)) else None;
    var owner := ResourceWallet(books.db.addresses, wallet).GetOr(|books.db.addresses|);
    AttemptReceipt(books.db, g.txid.value, fee, topup, height, timestamp, owner, now);
  }

  lemma AttemptReceipt(db: Db, txid: string, fee: nat, topup: Option<(string, nat)>, height: int, timestamp: int, wallet: nat, now: int)
    ensures Ledger.Attempt(db, Ledger.GrantReceipt(txid, fee, topup, height, timestamp, wallet, now))
         == Ledger.RecordGrantReceipt(db, txid, fee, topup, height, timestamp, wallet, now)
  {
  }

  lemma ReceiptMovesTheLedger(books: Books, op: Op)
    requires op.ReceiveGrant? && AttemptOp(books, op).Some?
    ensures EventOf(books, op).Some? && AttemptOp(books, op).value.db == Ledger.Apply(books.db, EventOf(books, op).value)
  {
    var after := RecordResourceGrantReceipt(books, op.id, op.fee, op.height, op.timestamp, op.wallet, op.now);
    assert AttemptOp(books, op) == after;
    ReceiptIsAnEvent(books, op.id, op.fee, op.height, op.timestamp, op.wallet, op.now);
  }

  lemma OpsMoveTheLedger(books: Books, op: Op)
    requires AttemptOp(books, op).Some?
    ensures AttemptOp(books, op).value.db
         == if EventOf(books, op).Some? then Ledger.Apply(books.db, EventOf(books, op).value) else books.db
  {
    if op.Confirm? {
      ConfirmMovesTheLedger(books, op);
    } else if op.ReceiveGrant? {
      ReceiptMovesTheLedger(books, op);
    } else if op.LedgerEvent? {
      assert Ledger.Attempt(books.db, op.ev).Some?;
    } else {
      LedgerUntouched(books, op);
      assert EventOf(books, op).None?;
    }
  }

  lemma LedgerUntouched(books: Books, op: Op)
    requires !op.LedgerEvent? && !op.Confirm? && !op.ReceiveGrant?
    requires AttemptOp(books, op).Some?
    ensures AttemptOp(books, op).value.db == books.db
  {
  }

  ghost predicate HonestStep(s: Sys, step: Step, identity: Identity)
    requires s.log != []
  {
    var op := OpOf(s, step);
    op.Some? && EventOf(Now(s), op.value).Some? ==> Honest(Now(s).db, EventOf(Now(s), op.value).value, identity)
  }

  ghost predicate BalancedLog(s: Sys, identity: Identity) {
    WellLogged(s) && forall k :: s.synced <= k < |s.log| ==> Sound(s.log[k].db, identity)
  }

  lemma StepKeepsBalances(s: Sys, step: Step, identity: Identity)
    requires BalancedLog(s, identity) && HonestStep(s, step, identity)
    ensures BalancedLog(Next(s, step), identity)
  {
    StepsWriteOnce(s, step);
    var r := Next(s, step);
    if r.log != s.log && !step.PowerFailure? {
      var op := OpOf(s, step).value;
      var full :| r.log == Commit(s, AttemptOp(Now(s), op).value, full).log
                  && r.synced == Commit(s, AttemptOp(Now(s), op).value, full).synced;
      OpsMoveTheLedger(Now(s), op);
      if EventOf(Now(s), op).Some? {
        ApplyKeepsCache(Now(s).db, EventOf(Now(s), op).value, identity);
      }
    }
  }

  /** In every honest run every balances row equals its payment rows, in every state a power failure can leave. */
  lemma {:induction false} PayoutsKeepBalances(s: Sys, steps: seq<Step>, identity: Identity)
    requires BalancedLog(s, identity)
    requires forall i :: 0 <= i < |steps| ==> HonestStep(Run(s, steps[..i]), steps[i], identity)
    ensures BalancedLog(Run(s, steps), identity)
  {
    if steps != [] {
      var front := steps[..|steps| - 1];
      forall i | 0 <= i < |front| ensures HonestStep(Run(s, front[..i]), front[i], identity) {
        assert front[..i] == steps[..i];
      }
      PayoutsKeepBalances(s, front, identity);
      StepKeepsBalances(Run(s, front), steps[|steps| - 1], identity);
    }
  }
}
