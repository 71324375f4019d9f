/**
 One open database transaction. Its methods run the source's statements and loops against the tables, and each is
 proved to compute the ledger function of the same name. Committing assigns the tables back to the store.
 */
module Transactions {
  import opened Prelude
  import opened Tables
  import opened Ledger

  // ----- The balance query -----

  datatype BalanceRow = BalanceRow(amount: nat, direction: Direction, status: PaymentStatus, confirmedAt: Option<int>)

  /** First branch of the UNION ALL: live rows booked at address a. */
  function SourceBranch(payments: seq<Payment>, a: nat, asset: string): seq<BalanceRow> {
    if payments == [] then []
    else
      var p, rows := payments[|payments| - 1], SourceBranch(payments[..|payments| - 1], a, asset);
      if p.addressId == Some(a) && p.asset == asset && !p.status.Orphaned?
      then rows + [BalanceRow(p.amount, p.direction, p.status, p.confirmedAt)] else rows
  }

  /** Second branch: live outgoing rows of other addresses whose destination is address a. */
  function RecipientBranch(payments: seq<Payment>, a: nat, address: string, asset: string): seq<BalanceRow> {
    if payments == [] then []
    else
      var p, rows := payments[|payments| - 1], RecipientBranch(payments[..|payments| - 1], a, address, asset);
      if p.asset == asset && p.direction.Out? && !p.status.Orphaned? && p.to == address && p.addressId != Some(a)
      then rows + [BalanceRow(p.amount, In, p.status, p.confirmedAt)] else rows
  }

  function SignedRow(row: BalanceRow): int {
    var amount: int := row.amount;
    if row.direction.Out? then -amount else amount
  }

  function ConfirmedPart(row: BalanceRow): int {
    if row.status.Confirmed? || (row.status.Unattributed? && row.confirmedAt.Some?) then SignedRow(row) else 0
  }

  function PendingPart(row: BalanceRow): int {
    if row.status.Seen? || (row.status.Unattributed? && row.confirmedAt.None?) then SignedRow(row) else 0
  }

  predicate Booked(p: Payment, a: nat, asset: string) {
    p.addressId == Some(a) && p.asset == asset
  }

  predicate Received(p: Payment, a: nat, address: string, asset: string) {
    p.asset == asset && p.direction.Out? && p.to == address && p.addressId != Some(a)
  }

  function BookedConfirmed(a: nat, asset: string): Payment -> int {
    (p: Payment) => if Booked(p, a, asset) && CountsConfirmed(p) then Signed(p) else 0
  }

  function BookedPending(a: nat, asset: string): Payment -> int {
    (p: Payment) => if Booked(p, a, asset) && CountsPending(p) then Signed(p) else 0
  }

  function ReceivedConfirmed(a: nat, address: string, asset: string): Payment -> int {
    (p: Payment) => if Received(p, a, address, asset) && CountsConfirmed(p) then p.amount else 0
  }

  function ReceivedPending(a: nat, address: string, asset: string): Payment -> int {
    (p: Payment) => if Received(p, a, address, asset) && CountsPending(p) then p.amount else 0
  }

  lemma {:induction false} SourceSums(payments: seq<Payment>, a: nat, asset: string)
    ensures Sum(SourceBranch(payments, a, asset), ConfirmedPart)
         == Sum(payments, BookedConfirmed(a, asset))
    ensures Sum(SourceBranch(payments, a, asset), PendingPart)
         == Sum(payments, BookedPending(a, asset))
  {
    if payments != [] {
      var front, p := payments[..|payments| - 1], payments[|payments| - 1];
      SourceSums(front, a, asset);
      SumSnoc(SourceBranch(front, a, asset), BalanceRow(p.amount, p.direction, p.status, p.confirmedAt), ConfirmedPart);
      SumSnoc(SourceBranch(front, a, asset), BalanceRow(p.amount, p.direction, p.status, p.confirmedAt), PendingPart);
    }
  }

  lemma {:induction false} RecipientSums(payments: seq<Payment>, a: nat, address: string, asset: string)
    ensures Sum(RecipientBranch(payments, a, address, asset), ConfirmedPart)
         == Sum(payments, ReceivedConfirmed(a, address, asset))
    ensures Sum(RecipientBranch(payments, a, address, asset), PendingPart)
         == Sum(payments, ReceivedPending(a, address, asset))
  {
    if payments != [] {
      var front, p := payments[..|payments| - 1], payments[|payments| - 1];
      RecipientSums(front, a, address, asset);
      SumSnoc(RecipientBranch(front, a, address, asset), BalanceRow(p.amount, In, p.status, p.confirmedAt), ConfirmedPart);
      SumSnoc(RecipientBranch(front, a, address, asset), BalanceRow(p.amount, In, p.status, p.confirmedAt), PendingPart);
    }
  }

  /** The two branches together count every live row exactly once, at its effect on the address. */
  lemma BranchesCountOnce(payments: seq<Payment>, a: nat, address: string, asset: string)
    ensures var rows := SourceBranch(payments, a, asset) + RecipientBranch(payments, a, address, asset);
            && Sum(rows, ConfirmedPart) == Sum(payments, ConfirmedEffect(a, address, asset))
            && Sum(rows, PendingPart) == Sum(payments, PendingEffect(a, address, asset))
  {
    var source, recipient := SourceBranch(payments, a, asset), RecipientBranch(payments, a, address, asset);
    SumAppend(source, recipient, ConfirmedPart);
    SumAppend(source, recipient, PendingPart);
    SourceSums(payments, a, asset);
    RecipientSums(payments, a, address, asset);
    SumSplit(payments, BookedConfirmed(a, asset), ReceivedConfirmed(a, address, asset), ConfirmedEffect(a, address, asset));
    SumSplit(payments, BookedPending(a, asset), ReceivedPending(a, address, asset), PendingEffect(a, address, asset));
  }

  // ----- The order query -----

  function OrderRows(payments: seq<Payment>, id: string, o: Order, released: Option<int>): seq<nat> {
    if payments == [] then []
    else
      var p, rows := payments[|payments| - 1], OrderRows(payments[..|payments| - 1], id, o, released);
      if Eligible(p, id, o, released) then rows + [p.amount] else rows
  }

  function Amount(n: nat): int {
    n
  }

  lemma {:induction false} OrderRowsSum(payments: seq<Payment>, id: string, o: Order, released: Option<int>)
    ensures Sum(OrderRows(payments, id, o, released), Amount) == Sum(payments, EligibleAmount(id, o, released))
  {
    if payments != [] {
      var front, p := payments[..|payments| - 1], payments[|payments| - 1];
      OrderRowsSum(front, id, o, released);
      SumSnoc(OrderRows(front, id, o, released), p.amount, Amount);
    }
  }

  // ----- One at a time and all at once -----

  lemma NoBalances(db: Db)
    ensures RecalculateBalances(db, {}) == db
  {
    assert RecalculateBalances(db, {}).balances == db.balances;
  }

  lemma OneMoreBalance(db: Db, keys: set<BalanceKey>, key: BalanceKey)
    ensures RecalculateBalances(RecalculateBalances(db, keys), {key}) == RecalculateBalances(db, keys + {key})
  {
    assert RecalculateBalances(RecalculateBalances(db, keys), {key}).balances == RecalculateBalances(db, keys + {key}).balances;
  }

  lemma NoOrders(db: Db)
    ensures RecalculateOrders(db, {}) == db
  {
    assert RecalculateOrders(db, {}).orders == db.orders;
  }

  lemma OneMoreOrder(db: Db, ids: set<string>, id: string)
    requires id !in ids
    ensures RecalculateOrder(RecalculateOrders(db, ids), id, true) == RecalculateOrders(db, ids + {id})
  {
    assert RecalculateOrder(RecalculateOrders(db, ids), id, true).orders == RecalculateOrders(db, ids + {id}).orders;
  }

  lemma NoConfirmations(db: Db, stamp: int, cooldown: int)
    ensures ConfirmOrders(db, {}, stamp, cooldown) == db
  {
    assert ConfirmOrders(db, {}, stamp, cooldown).orders == db.orders;
    assert ConfirmOrders(db, {}, stamp, cooldown).addresses == db.addresses;
  }

  /** Confirming one more order on top of those already confirmed. */
  lemma OneMoreConfirmation(db: Db, ids: set<string>, id: string, stamp: int, cooldown: int)
    requires id in db.orders
    ensures id in ConfirmOrders(db, ids, stamp, cooldown).orders
    ensures ConfirmOrders(ConfirmOrders(db, ids, stamp, cooldown), {id}, stamp, cooldown)
         == ConfirmOrders(db, ids + {id}, stamp, cooldown)
  {
    var before, after := ConfirmOrders(db, ids, stamp, cooldown), ConfirmOrders(db, ids + {id}, stamp, cooldown);
    var twice := ConfirmOrders(before, {id}, stamp, cooldown);
    assert twice.orders == after.orders;
    assert twice.addresses == after.addresses;
  }

  // ----- Transactions -----

  class Tx {
    var db: Db

    constructor (start: Db)
      ensures db == start
    {
      db := start;
    }

    method RecalculateBalance(a: nat, asset: string)
      requires a < |db.addresses|
      modifies this
      ensures db == RecalculateBalances(old(db), {(a, asset)})
    {
      var tables, address := db, db.addresses[a].address;
      var rows := SourceBranch(tables.payments, a, asset) + RecipientBranch(tables.payments, a, address, asset);
      var confirmed, pending := 0, 0;
      for i := 0 to |rows|
        invariant confirmed == Sum(rows[..i], ConfirmedPart)
        invariant pending == Sum(rows[..i], PendingPart)
      {
        SumSnoc(rows[..i], rows[i], ConfirmedPart);
        SumSnoc(rows[..i], rows[i], PendingPart);
        assert rows[..i + 1] == rows[..i] + [rows[i]];
        var row := rows[i];
        var amount: int := row.amount;
        if row.direction.Out? {
          amount := -amount;
        }
        if row.status.Confirmed? || (row.status.Unattributed? && row.confirmedAt.Some?) {
          confirmed := confirmed + amount;
        } else if row.status.Seen? || (row.status.Unattributed? && row.confirmedAt.None?) {
          pending := pending + amount;
        }
      }
      assert rows[..|rows|] == rows;
      BranchesCountOnce(tables.payments, a, address, asset);
      var key := (a, asset);
      var row := if key in tables.balances then tables.balances[key] else Balance(0, 0, false);
      db := tables.(balances := tables.balances[key := row.(confirmed := confirmed, pending := pending)]);
      assert db.balances == RecalculateBalances(tables, {key}).balances;
    }

    method RecalculateBalanceSet(keys: set<BalanceKey>)
      requires forall k :: k in keys ==> k.0 < |db.addresses|
      modifies this
      ensures db == RecalculateBalances(old(db), keys)
    {
      var todo := keys;
      NoBalances(db);
      assert keys - todo == {};
      while todo != {}
        invariant todo <= keys
        invariant db == RecalculateBalances(old(db), keys - todo)
      {
        var key :| key in todo;
        OneMoreBalance(old(db), keys - todo, key);
        assert keys - todo + {key} == keys - (todo - {key});
        RecalculateBalance(key.0, key.1);
        todo := todo - {key};
      }
      assert keys - todo == keys;
    }

    /** Reports whether a paid or confirmed order fell back. */
    method RecalculateOrder(id: string, allowTransition: bool) returns (reverted: bool)
      requires id in db.orders
      modifies this
      ensures db == Ledger.RecalculateOrder(old(db), id, allowTransition)
      ensures reverted <==> (old(db).orders[id].status.Paid? || old(db).orders[id].status.Confirmed?)
                            && (db.orders[id].status.Partial? || db.orders[id].status.Pending?)
    {
      var tables, o := db, db.orders[id];
      var released := ReleasedAt(tables, o.addressId);
      var amounts := OrderRows(tables.payments, id, o, released);
      var received: nat := 0;
      for i := 0 to |amounts|
        invariant received == Sum(amounts[..i], Amount)
      {
        SumSnoc(amounts[..i], amounts[i], Amount);
        assert amounts[..i + 1] == amounts[..i] + [amounts[i]];
        received := received + amounts[i];
      }
      assert amounts[..|amounts|] == amounts;
      OrderRowsSum(tables.payments, id, o, released);
      var overpaid := received - o.expected;
      if overpaid < 0 {
        overpaid := 0;
      }
      var status := o.status;
      if allowTransition && (status.Pending? || status.Partial? || status.Paid? || status.Confirmed?) {
        if received >= o.expected {
          status := OrderStatus.Paid;
        } else if received == 0 {
          status := OrderStatus.Pending;
        } else {
          status := OrderStatus.Partial;
        }
      }
      db := tables.(orders := tables.orders[id := o.(received := received, overpaid := overpaid, status := status)]);
      reverted := (o.status.Paid? || o.status.Confirmed?) && (status.Partial? || status.Pending?);
    }

    /** Returns the ids of the orders that fell back. */
    method RecalculateOrderSet(ids: set<string>) returns (reverted: set<string>)
      requires forall id :: id in ids ==> id in db.orders
      modifies this
      ensures db == RecalculateOrders(old(db), ids)
      ensures reverted == FellBack(old(db), db, ids)
    {
      var todo := ids;
      reverted := {};
      NoOrders(db);
      assert ids - todo == {};
      while todo != {}
        invariant todo <= ids
        invariant db == RecalculateOrders(old(db), ids - todo)
        invariant reverted == FellBack(old(db), db, ids - todo)
      {
        var id :| id in todo;
        OneMoreOrder(old(db), ids - todo, id);
        assert ids - todo + {id} == ids - (todo - {id});
        ghost var before := db;
        var fell := RecalculateOrder(id, true);
        assert FellBack(old(db), db, ids - (todo - {id})) ==
               FellBack(old(db), before, ids - todo) + if fell then {id} else {};
        if fell {
          reverted := reverted + {id};
        }
        todo := todo - {id};
      }
      assert ids - todo == ids;
    }

    /** The source balance, and for an outgoing row the balance of an owned recipient. */
    method RecalculateTouched(rec: Payment)
      requires rec.addressId.Some? ==> rec.addressId.value < |db.addresses|
      modifies this
      ensures db == RecalculateBalances(old(db), Touched(old(db), rec))
    {
      ghost var source: set<BalanceKey> := {};
      NoBalances(db);
      if rec.addressId.Some? {
        source := {(rec.addressId.value, rec.asset)};
        RecalculateBalance(rec.addressId.value, rec.asset);
      }
      if rec.direction.Out? {
        var recipient := Owner(db.addresses, rec.to);
        if recipient.Some? {
          OneMoreBalance(old(db), source, (recipient.value, rec.asset));
          RecalculateBalance(recipient.value, rec.asset);
        }
      }
    }

    /** Returns false when a foreign key fails, else whether an orphaned row came back to life. */
    method UpsertPayment(rec: Payment) returns (ok: bool, reactivated: bool)
      requires WellFormed(db)
      modifies this
      ensures ok <==> Ledger.UpsertPayment(old(db), rec).Some?
      ensures ok ==> db == Ledger.UpsertPayment(old(db), rec).value
      ensures reactivated <==> ok && exists i :: 0 <= i < |old(db).payments| && old(db).payments[i].key == rec.key
                                                && old(db).payments[i].status.Orphaned?
    {
      if !References(db, rec) {
        return false, false;
      }
      var i := FindPayment(db.payments, rec.key);
      var stored := if i < |db.payments| then Some(db.payments[i]) else None;
      db := db.(payments := UpsertRow(db.payments, rec));
      var order := rec.orderId;
      if stored.Some? && stored.value.orderId.Some? {
        order := stored.value.orderId;
      }
      if order.Some? {
        var _ := RecalculateOrder(order.value, !rec.dust);
      }
      RecalculateTouched(rec);
      return true, stored.Some? && stored.value.status.Orphaned?;
    }

    /** Attributes a record to the order its address holds, then stores it. */
    method Match(rec: Payment) returns (ok: bool)
      requires WellFormed(db)
      modifies this
      ensures ok <==> Ingest(old(db), rec).Some?
      ensures ok ==> db == Ingest(old(db), rec).value
    {
      var payment := rec;
      if payment.direction.In? && payment.addressId.Some? {
        var found := AttributionOrder(db, payment.addressId.value);
        var active, assetMatches, insideWindow := false, false, false;
        if found.Some? {
          var order, released := db.orders[found.value], ReleasedAt(db, payment.addressId.value);
          active := order.status.Pending? || order.status.Partial? || order.status.Paid?;
          assetMatches := order.asset == payment.asset;
          insideWindow := payment.timestamp >= order.createdAt && (released.None? || payment.timestamp < released.value);
        }
        if active && assetMatches && insideWindow {
          payment := payment.(orderId := found);
        } else {
          payment := payment.(orderId := None, status := Unattributed);
          if !active {
            payment := payment.(reason := Some(NoActiveOrder));
          } else if !assetMatches {
            payment := payment.(reason := Some(AssetMismatch));
          } else {
            payment := payment.(reason := Some(OutsideWindow));
          }
        }
      }
      var reactivated;
      ok, reactivated := UpsertPayment(payment);
    }

    method ConfirmOrder(id: string, stamp: int, cooldown: int)
      requires id in db.orders
      modifies this
      ensures db == ConfirmOrders(old(db), {id}, stamp, cooldown)
    {
      var a := db.orders[id].addressId;
      db := db.(orders := db.orders[id := db.orders[id].(status := OrderStatus.Confirmed)],
                addresses := CoolAddresses(db.addresses, {a}, stamp, cooldown));
      assert db.orders == ConfirmOrders(old(db), {id}, stamp, cooldown).orders;
      assert db.addresses == ConfirmOrders(old(db), {id}, stamp, cooldown).addresses;
    }
  }

  /** The orders among ids that were paid or confirmed before and are partial or pending after. */
  function FellBack(before: Db, after: Db, ids: set<string>): set<string> {
    set id | id in ids && id in before.orders && id in after.orders
             && (before.orders[id].status.Paid? || before.orders[id].status.Confirmed?)
             && (after.orders[id].status.Partial? || after.orders[id].status.Pending?)
  }
}
