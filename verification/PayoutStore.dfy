/**
 The store's payout methods. Those that loop or branch over rows are written out; the guarded single-row updates
 are statements of the database, run by Execute. All are proved against the transaction functions.
 */
module PayoutStore {
  import opened Prelude
  import opened Tables
  import opened Ledger
  import opened Payouts
  import opened Transactions

  /** What CreateWithdrawal answers. */
  datatype Creation =
    | Created(id: nat) | Replayed(id: nat) | IdempotencyReuse | SourceUnavailable | BalanceDrift | InsufficientFunds | DailyLimit

  /** The amounts a query selects, in row order. */
  function Amounts(ws: seq<Withdrawal>, wanted: Withdrawal -> bool, value: Withdrawal -> real): seq<real> {
    if ws == [] then []
    else
      var rest := Amounts(ws[..|ws| - 1], wanted, value);
      if wanted(ws[|ws| - 1]) then rest + [value(ws[|ws| - 1])] else rest
  }

  function Total(values: seq<real>): real {
    if values == [] then 0.0 else Total(values[..|values| - 1]) + values[|values| - 1]
  }

  /** The balance a request draws on, unless its source is unknown or disabled. */
  function SourceOf(books: Books, r: Request): Option<Balance> {
    var a := Owner(books.db.addresses, r.from);
    if a.None? || (a.value, r.asset) !in books.db.balances || books.db.addresses[a.value].state.Disabled? then None
    else Some(books.db.balances[(a.value, r.asset)])
  }

  predicate CountedRow(w: Withdrawal, start: int) {
    w.createdAt >= start && Counted(w.status)
  }

  lemma {:induction false} SelectedTotal(ws: seq<Withdrawal>, start: int)
    ensures Total(Amounts(ws, (w: Withdrawal) => CountedRow(w, start), (w: Withdrawal) => w.usd)) == RealSum(ws, CountedSince(start))
  {
    if ws != [] {
      SelectedTotal(ws[..|ws| - 1], start);
      var rest := Amounts(ws[..|ws| - 1], (w: Withdrawal) => CountedRow(w, start), (w: Withdrawal) => w.usd);
      assert (rest + [ws[|ws| - 1].usd])[..|rest|] == rest;
    }
  }

  /** The registered SQL function: is the exact sum of the values and one more within the limit? */
  method DecimalSumWithin(values: seq<real>, more: real, limit: real) returns (within: bool)
    ensures within <==> Total(values) + more <= limit
  {
    var total := 0.0;
    for i := 0 to |values|
      invariant total == Total(values[..i])
    {
      assert values[..i + 1][..i] == values[..i];
      total := total + values[i];
    }
    assert values[..|values|] == values;
    return total + more <= limit;
  }

  class PayoutStore {
    var books: Books
    var providerFailures: nat

    /** One guarded statement: applies the transaction, or reports that it affected nothing. */
    method Execute(op: Op) returns (ok: bool)
      modifies this`books
      ensures ok <==> AttemptOp(old(books), op).Some?
      ensures books == AttemptOp(old(books), op).GetOr(old(books))
    {
      var after := AttemptOp(books, op);
      ok := after.Some?;
      books := after.GetOr(books);
    }

    method CreateWithdrawal(r: Request) returns (result: Creation)
      modifies this`books
      ensures books == Payouts.CreateWithdrawal(old(books), r).GetOr(old(books))
      ensures result.Created? <==> Payouts.CreateWithdrawal(old(books), r).Some?
      ensures result.Created? ==> result.id == |old(books).withdrawals| == |books.withdrawals| - 1
      ensures result.Replayed? || result.IdempotencyReuse? <==> KeyTaken(old(books), r.idempotencyKey)
      ensures result.SourceUnavailable? <==> !KeyTaken(old(books), r.idempotencyKey) && SourceOf(old(books), r).None?
      ensures result.BalanceDrift? <==> !KeyTaken(old(books), r.idempotencyKey) && SourceOf(old(books), r).Some?
                                        && SourceOf(old(books), r).value.drift
      ensures result.InsufficientFunds? <==>
                && !KeyTaken(old(books), r.idempotencyKey) && SourceOf(old(books), r).Some? && !SourceOf(old(books), r).value.drift
                && !(0 < r.amount <= SourceOf(old(books), r).value.confirmed)
      ensures result.Replayed? ==>
                && result.id < |books.withdrawals|
                && var w := books.withdrawals[result.id];
                   (w.idempotencyKey, w.from, w.to, w.asset, w.amount) == (r.idempotencyKey, r.from, r.to, r.asset, r.amount)
    {
      if KeyTaken(books, r.idempotencyKey) {
        assert exists i :: 0 <= i < |books.withdrawals| && books.withdrawals[i].idempotencyKey == r.idempotencyKey;
        var i: nat :| i < |books.withdrawals| && books.withdrawals[i].idempotencyKey == r.idempotencyKey;
        var w := books.withdrawals[i];
        if w.from != r.from || w.to != r.to || w.asset != r.asset || w.amount != r.amount {
          return IdempotencyReuse;
        }
        return Replayed(i);
      }
      var a := Owner(books.db.addresses, r.from);
      if a.None? || (a.value, r.asset) !in books.db.balances || books.db.addresses[a.value].state.Disabled? {
        return SourceUnavailable;
      }
      var balance := books.db.balances[(a.value, r.asset)];
      if balance.drift {
        return BalanceDrift;
      }
      if r.amount <= 0 || r.amount > balance.confirmed {
        return InsufficientFunds;
      }
      if r.usd.None? || r.limit.None? || r.usd.value <= 0.0 || r.limit.value <= 0.0 {
        return DailyLimit;
      }
      var start := DayStart(r.now);
      SelectedTotal(books.withdrawals, start);
      var within := DecimalSumWithin(Amounts(books.withdrawals, (w: Withdrawal) => CountedRow(w, start), (w: Withdrawal) => w.usd),
                                     r.usd.value, r.limit.value);
      if !within {
        return DailyLimit;
      }
      var row := Withdrawal(r.idempotencyKey, a.value, r.from, r.to, r.asset, r.amount, r.usd.value, WithdrawalStatus.Requested, r.now,
                            None, None, None, None, 0, r.now, None);
      books := books.(withdrawals := books.withdrawals + [row]);
      return Created(|books.withdrawals| - 1);
    }

    /** Sums what others hold at the address, then claims, rejects or leaves the withdrawal. */
    method ClaimWithdrawal(id: nat, now: int) returns (claimed: bool)
      modifies this`books
      ensures books == Payouts.ClaimWithdrawal(old(books), id, now).GetOr(old(books))
      ensures claimed ==> id < |books.withdrawals| && old(books).withdrawals[id].status.Requested?
                          && books.withdrawals[id].status.AwaitingResources?
    {
      if id >= |books.withdrawals| {
        return false;
      }
      var w, ws := books.withdrawals[id], books.withdrawals;
      var key := (w.addressId, w.asset);
      if key !in books.db.balances || books.db.balances[key].drift {
        return false;
      }
      var have := books.db.balances[key].confirmed;
      for i := 0 to |ws|
        invariant books == old(books)
        invariant have == books.db.balances[key].confirmed - Held(ws[..i], id, w.addressId, w.asset)
      {
        assert ws[..i + 1][..i] == ws[..i];
        if HoldsAddress(ws[i], i, id, w.addressId) && ws[i].asset == w.asset {
          have := have - ws[i].amount;
        }
      }
      assert ws[..|ws|] == ws;
      if w.amount <= 0 || have < w.amount {
        if w.status.Requested? {
          books := books.(withdrawals := ws[id := w.(status := Rejected, statusAt := now)]);
        }
        return false;
      }
      if w.status.Requested? && !AddressBusy(ws, id, w.addressId) {
        books := books.(withdrawals := ws[id := w.(status := AwaitingResources, statusAt := now)]);
        return true;
      }
      return false;
    }

    /** Confirms a sent withdrawal, and debits its network fee once at the source address. */
    method ConfirmWithdrawal(id: nat, fee: int, height: int, timestamp: int, now: int) returns (ok: bool)
      modifies this`books
      ensures ok <==> Payouts.ConfirmWithdrawal(old(books), id, fee, height, timestamp, now).Some?
      ensures books == Payouts.ConfirmWithdrawal(old(books), id, fee, height, timestamp, now).GetOr(old(books))
    {
      if id >= |books.withdrawals| {
        return false;
      }
      var w := books.withdrawals[id];
      if w.txid.None? || w.status.Confirmed? || w.addressId >= |books.db.addresses| {
        return false;
      }
      var tx := new Tx(books.db);
      if fee > 0 {
        var row := FeeRow(w.txid.value, height, timestamp, tx.db.addresses[w.addressId].address, w.addressId, fee, now);
        tx.db := tx.db.(payments := InsertIfAbsent(tx.db.payments, row));
        tx.RecalculateBalance(w.addressId, "TRX");
      }
      books := books.(
        withdrawals := books.withdrawals[id := w.(status := WithdrawalStatus.Confirmed, statusAt := now, failures := 0)],
        db := tx.db);
      return true;
    }

    /** Debits the fee at the resource wallet, and books a top-up at both ends. */
    method DebitGrant(db: Db, txid: string, fee: nat, topup: Option<(string, nat)>, height: int, timestamp: int, wallet: nat, now: int)
      returns (after: Option<Db>)
      ensures after == RecordGrantReceipt(db, txid, fee, topup, height, timestamp, wallet, now)
    {
      if fee == 0 && topup.None? {
        return Some(db);
      }
      if wallet >= |db.addresses| {
        return None;
      }
      var tx := new Tx(db);
      if fee > 0 {
        var row := FeeRow(txid, height, timestamp, db.addresses[wallet].address, wallet, fee, now);
        tx.db := tx.db.(payments := InsertIfAbsent(tx.db.payments, row));
      }
      if topup.Some? {
        var (receiver, amount) := topup.value;
        var row := TopupRow(txid, height, timestamp, db.addresses[wallet].address, receiver, wallet, amount, now);
        tx.db := tx.db.(payments := ConfirmOrInsert(tx.db.payments, row));
        var receiverId := Owner(tx.db.addresses, receiver);
        if receiverId.None? {
          return None;
        }
        OneMoreBalance(tx.db, {(receiverId.value, "TRX")}, (wallet, "TRX"));
        assert {(receiverId.value, "TRX")} + {(wallet, "TRX")} == {(wallet, "TRX"), (receiverId.value, "TRX")};
        tx.RecalculateBalance(receiverId.value, "TRX");
      }
      tx.RecalculateBalance(wallet, "TRX");
      return Some(tx.db);
    }

    method RecordResourceGrantReceipt(id: nat, fee: int, height: int, timestamp: int, wallet: nat, now: int) returns (ok: bool)
      modifies this`books
      ensures ok <==> Payouts.RecordResourceGrantReceipt(old(books), id, fee, height, timestamp, wallet, now).Some?
      ensures books == Payouts.RecordResourceGrantReceipt(old(books), id, fee, height, timestamp, wallet, now).GetOr(old(books))
    {
      if fee < 0 || id >= |books.grants| || books.grants[id].txid.None? {
        return false;
      }
      var g := books.grants[id];
      var owner := ResourceWallet(books.db.addresses, wallet);
      var topup := if g.source.Topup? then Some((g.receiver, g.amount)) else None;
      var debited := DebitGrant(books.db, g.txid.value, fee, topup, height, timestamp, owner.GetOr(|books.db.addresses|), now);
      if debited.None? {
        return false;
      }
      var row := if g.fee.Some? then g else g.(fee := Some(fee));
      books := books.(grants := books.grants[id := row], db := debited.value);
      return true;
    }

    /** Counts the purchased rows first, and writes only when there is one. */
    method ReconcileWithdrawalEnergy(withdrawal: nat, visible: bool) returns (count: nat)
      modifies this`books
      ensures books == Payouts.ReconcileWithdrawalEnergy(old(books), withdrawal, visible)
      ensures count == |PurchasedRows(old(books).purchases, withdrawal)|
    {
      var ps := books.purchases;
      count := 0;
      for i := 0 to |ps|
        invariant books == old(books)
        invariant count == |PurchasedRows(ps[..i], withdrawal)|
      {
        assert ps[..i + 1][..i] == ps[..i];
        if ps[i].withdrawal == withdrawal && ps[i].status.Purchased? {
          count := count + 1;
        }
      }
      assert ps[..|ps|] == ps;
      var after := Payouts.ReconcileWithdrawalEnergy(books, withdrawal, visible).purchases;
      if count == 0 {
        NothingPurchased(ps, withdrawal);
        assert after == ps;
        return;
      }
      books := books.(purchases := after);
    }
  }

  function PurchasedRows(ps: seq<Purchase>, withdrawal: nat): seq<Purchase> {
    if ps == [] then []
    else
      var rest, p := PurchasedRows(ps[..|ps| - 1], withdrawal), ps[|ps| - 1];
      if p.withdrawal == withdrawal && p.status.Purchased? then rest + [p] else rest
  }

  lemma {:induction false} NothingPurchased(ps: seq<Purchase>, withdrawal: nat)
    requires PurchasedRows(ps, withdrawal) == []
    ensures forall i :: 0 <= i < |ps| ==> !(ps[i].withdrawal == withdrawal && ps[i].status.Purchased?)
  {
    if ps != [] {
      NothingPurchased(ps[..|ps| - 1], withdrawal);
    }
  }
}
