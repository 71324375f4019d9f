/**
 The store: committed tables and one method per ledger transaction. A method that returns without assigning the
 tables has rolled back. Each is proved to commit exactly what the ledger function of the same name computes, or nothing.
 */
module Store {
  import opened Prelude
  import opened Tables
  import opened Ledger
  import opened Integrity
  import opened Transactions

  // ----- Queries -----

  /** The indexes of the rows a query selects, in row order. */
  function Select(payments: seq<Payment>, wanted: Payment -> bool): (rows: seq<nat>)
    ensures forall k :: 0 <= k < |rows| ==> rows[k] < |payments| && wanted(payments[rows[k]])
    ensures forall j, k :: 0 <= j < k < |rows| ==> rows[j] < rows[k]
    ensures forall i :: 0 <= i < |payments| && wanted(payments[i]) ==> i in rows
  {
    if payments == [] then []
    else
      var last := |payments| - 1;
      var rows := Select(payments[..last], wanted);
      if wanted(payments[last]) then rows + [last] else rows
  }

  /** How far a due order is ahead of the others. */
  predicate Earliest(db: Db, todo: set<string>, id: string) {
    id in todo
    && forall other :: other in todo && other in db.orders && id in db.orders ==>
                                    db.orders[id].expiresAt <= db.orders[other].expiresAt
  }

  lemma {:induction false} EarliestExists(db: Db, todo: set<string>)
    requires todo != {} && forall id :: id in todo ==> id in db.orders
    ensures exists id :: Earliest(db, todo, id)
    decreases |todo|
  {
    var id :| id in todo;
    if todo == {id} {
      assert Earliest(db, todo, id);
    } else {
      var rest := todo - {id};
      assert todo == rest + {id};
      EarliestExists(db, rest);
      var best :| Earliest(db, rest, best);
      if db.orders[id].expiresAt <= db.orders[best].expiresAt {
        assert Earliest(db, todo, id);
      } else {
        assert Earliest(db, todo, best);
      }
    }
  }

  // ----- Confirmation passes -----

  function PromotableRows(db: Db, required: int): set<nat> {
    set i: nat | i < |db.payments| && Promotable(db, db.payments[i], required)
  }

  function MismatchedRows(db: Db): set<nat> {
    set i: nat | i < |db.payments| && db.cursor.Some? && Mismatched(db, db.payments[i], db.cursor.value.solidified)
  }

  /** A list of ascending row numbers is as long as the set it lists. */
  lemma {:induction false} RowsCount(rows: seq<nat>, selected: set<nat>)
    requires forall j, k :: 0 <= j < k < |rows| ==> rows[j] < rows[k]
    requires forall i :: i in selected <==> i in rows
    ensures |rows| == |selected|
    decreases |rows|
  {
    if rows == [] {
      assert selected == {};
    } else {
      var front, last := rows[..|rows| - 1], rows[|rows| - 1];
      assert rows == front + [last] && last !in front;
      RowsCount(front, selected - {last});
    }
  }

  function Mark(p: Payment): Payment {
    p.(status := Orphaned, confirmedAt := None)
  }

  function Promote(p: Payment, snapshot: Payment, stamp: int): Payment {
    p.(status := if snapshot.status.Seen? then PaymentStatus.Confirmed else snapshot.status, confirmedAt := Some(stamp))
  }

  ghost predicate KeysOf(db: Db, payments: seq<Payment>, rows: seq<nat>, keys: set<BalanceKey>) {
    forall key :: key in keys <==> exists i :: i in rows && i < |payments| && key in Touched(db, payments[i])
  }

  ghost predicate OrdersOf(payments: seq<Payment>, rows: seq<nat>, ids: set<string>) {
    forall id :: id in ids <==> exists i :: i in rows && i < |payments| && payments[i].orderId == Some(id)
  }

  // ----- Answers -----

  datatype Creation = Created(id: string) | Replayed(existing: string) | RefConflict | PoolExhausted | Refused

  datatype Cancellation = Done | NotFound | RequiresForce | Terminal

  datatype Attribution = Attributed | OrderNotFound | PaymentNotFound

  class Store {
    var db: Db

    ghost predicate Valid()
      reads this
    {
      WellFormed(db)
    }

    constructor ()
      ensures Valid() && db == Db(map[], None, [], map[], [], map[])
    {
      db := Db(map[], None, [], map[], [], map[]);
    }

    // ----- Chain -----

    method MatchAll(tx: Tx, records: seq<Payment>) returns (ok: bool)
      requires WellFormed(tx.db)
      modifies tx
      ensures ok <==> IngestAll(old(tx.db), records).Some?
      ensures ok ==> tx.db == IngestAll(old(tx.db), records).value
    {
      assert records[..|records|] == records;
      for i := 0 to |records|
        invariant IngestAll(old(tx.db), records[..i]) == Some(tx.db)
        invariant WellFormed(tx.db)
      {
        OneMoreRecord(old(tx.db), records, i, tx.db);
        ok := tx.Match(records[i]);
        if !ok {
          FailureStays(old(tx.db), records, i + 1);
          return;
        }
      }
      ok := true;
    }

    method CommitBlock(block: Block, depth: int, records: seq<Payment>) returns (ok: bool)
      requires Valid()
      modifies this
      ensures Valid() && db == Ledger.CommitBlock(old(db), block, depth, records).GetOr(old(db))
      ensures ok <==> Ledger.CommitBlock(old(db), block, depth, records).Some?
    {
      CommitWellFormed(db, block, depth, records);
      if depth <= 0 {
        return false;
      }
      var tx := new Tx(db);
      var newCursor := tx.db.cursor.None?;
      if !newCursor && block.height != tx.db.cursor.value.last + 1 {
        return false;
      }
      if block.height in tx.db.blocks {
        return false;
      }
      tx.db := tx.db.(blocks := tx.db.blocks[block.height := block]);
      var applied := MatchAll(tx, records);
      if !applied {
        return false;
      }
      IngestKeepsChain(old(db).(blocks := old(db).blocks[block.height := block]), records);
      if newCursor {
        tx.db := tx.db.(cursor := Some(Cursor(block.height, 0, None)));
      } else {
        tx.db := tx.db.(cursor := Some(tx.db.cursor.value.(last := block.height)));
      }
      tx.db := tx.db.(blocks := map h | h in tx.db.blocks && h >= block.height - depth :: tx.db.blocks[h]);
      db := tx.db;
      return true;
    }

    method RewindChain(ancestor: int) returns (ok: bool, orphaned: nat, reverted: set<string>)
      requires Valid()
      modifies this
      ensures Valid() && db == Ledger.RewindChain(old(db), ancestor).GetOr(old(db))
      ensures ok <==> Ledger.RewindChain(old(db), ancestor).Some?
      ensures reverted == if ok then FellBack(old(db), db, OrdersAbove(old(db).payments, ancestor)) else {}
      ensures ok ==> orphaned == |set i | 0 <= i < |db.payments| && old(db).payments[i].height > ancestor|
    {
      RewindWellFormed(db, ancestor);
      if db.cursor.None? || ancestor >= db.cursor.value.last || ancestor !in db.blocks {
        return false, 0, {};
      }
      var tx := new Tx(db);
      var orders := OrdersAbove(tx.db.payments, ancestor);
      var balances := BalancesAbove(tx.db, ancestor);
      orphaned := |set i | 0 <= i < |tx.db.payments| && tx.db.payments[i].height > ancestor|;
      tx.db := tx.db.(payments := OrphanAbove(tx.db.payments, ancestor));
      reverted := tx.RecalculateOrderSet(orders);
      KeysInRange(db, ancestor);
      tx.RecalculateBalanceSet(balances);
      tx.db := tx.db.(blocks := map h | h in tx.db.blocks && h <= ancestor :: tx.db.blocks[h],
                      cursor := Some(tx.db.cursor.value.(last := ancestor)));
      db := tx.db;
      ok := true;
    }

    method SetReorgSuspicion(height: int)
      requires Valid()
      modifies this
      ensures Valid() && db == Ledger.SetReorgSuspicion(old(db), height)
      ensures db == old(db).(cursor := db.cursor)
      ensures db.cursor.Some? ==>
                && db.cursor.value == old(db).cursor.value.(suspectedFrom := db.cursor.value.suspectedFrom)
                && Suspects(db, height) && forall h :: Suspects(old(db), h) ==> Suspects(db, h)
    {
      if db.cursor.Some? {
        var from := db.cursor.value.suspectedFrom;
        var lowest := if from.None? then height else Min(from.value, height);
        db := db.(cursor := Some(db.cursor.value.(suspectedFrom := Some(lowest))));
      }
    }

    method ClearReorgSuspicion()
      requires Valid()
      modifies this
      ensures Valid() && db == Ledger.ClearReorgSuspicion(old(db))
      ensures db == old(db).(cursor := db.cursor) && forall h :: !Suspects(db, h)
    {
      if db.cursor.Some? {
        db := db.(cursor := Some(db.cursor.value.(suspectedFrom := None)));
      }
    }

    /** Counts the rows that were new when they were reached. */
    method ApplyReconciledPayments(records: seq<Payment>) returns (ok: bool, inserted: nat)
      requires Valid()
      modifies this
      ensures Valid() && db == Ledger.IngestAll(old(db), records).GetOr(old(db))
      ensures ok <==> Ledger.IngestAll(old(db), records).Some?
      ensures ok ==> inserted == |db.payments| - |old(db).payments|
    {
      IngestWellFormed(db, records);
      inserted := 0;
      var tx := new Tx(db);
      assert records[..|records|] == records;
      for i := 0 to |records|
        invariant db == old(db)
        invariant IngestAll(old(db), records[..i]) == Some(tx.db)
        invariant WellFormed(tx.db)
        invariant |tx.db.payments| == |old(db).payments| + inserted
      {
        OneMoreRecord(old(db), records, i, tx.db);
        ghost var before := tx.db;
        var known := FindPayment(tx.db.payments, records[i].key) < |tx.db.payments|;
        ok := tx.Match(records[i]);
        if !ok {
          FailureStays(old(db), records, i + 1);
          return;
        }
        IngestCounts(before, records[i]);
        if !known {
          inserted := inserted + 1;
        }
      }
      db := tx.db;
      ok := true;
    }

    // ----- Confirmation -----

    method OrphanRows(tx: Tx, rows: seq<nat>) returns (balances: set<BalanceKey>, orders: set<string>)
      requires forall k :: 0 <= k < |rows| ==> rows[k] < |tx.db.payments|
      requires forall j, k :: 0 <= j < k < |rows| ==> rows[j] < rows[k]
      modifies tx
      ensures tx.db == old(tx.db).(payments := tx.db.payments) && |tx.db.payments| == |old(tx.db).payments|
      ensures forall i :: 0 <= i < |tx.db.payments| ==>
                            tx.db.payments[i] == if i in rows then Mark(old(tx.db).payments[i]) else old(tx.db).payments[i]
      ensures KeysOf(old(tx.db), old(tx.db).payments, rows, balances)
      ensures OrdersOf(old(tx.db).payments, rows, orders)
    {
      balances, orders := {}, {};
      for n := 0 to |rows|
        invariant tx.db == old(tx.db).(payments := tx.db.payments) && |tx.db.payments| == |old(tx.db).payments|
        invariant forall i :: 0 <= i < |tx.db.payments| ==>
                    tx.db.payments[i] == if i in rows[..n] then Mark(old(tx.db).payments[i]) else old(tx.db).payments[i]
        invariant KeysOf(old(tx.db), old(tx.db).payments, rows[..n], balances)
        invariant OrdersOf(old(tx.db).payments, rows[..n], orders)
      {
        var payment := tx.db.payments[rows[n]];
        assert rows[..n + 1] == rows[..n] + [rows[n]];
        balances := balances + Touched(tx.db, payment);
        if payment.orderId.Some? {
          orders := orders + {payment.orderId.value};
        }
        tx.db := tx.db.(payments := tx.db.payments[rows[n] := Mark(payment)]);
      }
      assert rows[..|rows|] == rows;
    }

    method PromoteRows(tx: Tx, rows: seq<nat>, snapshot: seq<Payment>, stamp: int) returns (balances: set<BalanceKey>)
      requires |snapshot| == |tx.db.payments|
      requires forall k :: 0 <= k < |rows| ==> rows[k] < |snapshot|
      requires forall j, k :: 0 <= j < k < |rows| ==> rows[j] < rows[k]
      modifies tx
      ensures tx.db == old(tx.db).(payments := tx.db.payments) && |tx.db.payments| == |snapshot|
      ensures forall i :: 0 <= i < |snapshot| ==>
                            tx.db.payments[i] == if i in rows then Promote(old(tx.db).payments[i], snapshot[i], stamp)
                                                 else old(tx.db).payments[i]
      ensures KeysOf(old(tx.db), snapshot, rows, balances)
    {
      balances := {};
      for n := 0 to |rows|
        invariant tx.db == old(tx.db).(payments := tx.db.payments) && |tx.db.payments| == |snapshot|
        invariant forall i :: 0 <= i < |snapshot| ==>
                    tx.db.payments[i] == if i in rows[..n] then Promote(old(tx.db).payments[i], snapshot[i], stamp)
                                         else old(tx.db).payments[i]
        invariant KeysOf(old(tx.db), snapshot, rows[..n], balances)
      {
        assert rows[..n + 1] == rows[..n] + [rows[n]];
        var i := rows[n];
        var status := snapshot[i].status;
        if status.Seen? {
          status := PaymentStatus.Confirmed;
        }
        tx.db := tx.db.(payments := tx.db.payments[i := tx.db.payments[i].(status := status, confirmedAt := Some(stamp))]);
        balances := balances + Touched(tx.db, snapshot[i]);
      }
      assert rows[..|rows|] == rows;
    }

    method PromotePaidOrders(tx: Tx, stamp: int, cooldown: int) returns (confirmed: nat)
      modifies tx
      ensures tx.db == ConfirmOrders(old(tx.db), ConfirmableOrders(old(tx.db)), stamp, cooldown)
      ensures confirmed == |ConfirmableOrders(old(tx.db))|
    {
      var ids := ConfirmableOrders(tx.db);
      assert forall id :: id in ids ==> id in tx.db.orders;
      var todo, done := ids, {};
      NoConfirmations(tx.db, stamp, cooldown);
      while todo != {}
        invariant done + todo == ids
        invariant tx.db == ConfirmOrders(old(tx.db), done, stamp, cooldown)
      {
        var id :| id in todo;
        OneMoreConfirmation(old(tx.db), done, id, stamp, cooldown);
        tx.ConfirmOrder(id, stamp, cooldown);
        todo, done := todo - {id}, done + {id};
      }
      confirmed := |ids|;
    }

    method ApplySolidifiedHeight(height: int, required: int, cooldown: int, now: int)
      returns (ok: bool, paymentsConfirmed: nat, paymentsOrphaned: nat, ordersConfirmed: nat)
      requires Valid()
      modifies this
      ensures Valid() && db == Ledger.ApplySolidifiedHeight(old(db), height, required, cooldown, now).GetOr(old(db))
      ensures ok <==> Ledger.ApplySolidifiedHeight(old(db), height, required, cooldown, now).Some?
      ensures ok ==> var raised := Solidified(old(db), height);
                     && paymentsConfirmed == |PromotableRows(raised, required)| && paymentsOrphaned == |MismatchedRows(raised)|
                     && ordersConfirmed == |ConfirmableOrders(SettlePayments(raised, required, now))|
    {
      SolidifyWellFormed(db, height, required, cooldown, now);
      if height < 0 || required <= 0 || db.cursor.None? {
        return false, 0, 0, 0;
      }
      var tx := new Tx(db);
      if tx.db.cursor.value.solidified < height {
        tx.db := tx.db.(cursor := Some(tx.db.cursor.value.(solidified := height)));
      }
      paymentsConfirmed, paymentsOrphaned := Settle(tx, required, now);
      ordersConfirmed := PromotePaidOrders(tx, now, cooldown);
      db := tx.db;
      ok := true;
    }

    /** The two payment passes, and the recalculations they call for. */
    method Settle(tx: Tx, required: int, stamp: int) returns (confirmed: nat, orphaned: nat)
      requires WellFormed(tx.db) && tx.db.cursor.Some?
      modifies tx
      ensures tx.db == SettlePayments(old(tx.db), required, stamp)
      ensures confirmed == |PromotableRows(old(tx.db), required)| && orphaned == |MismatchedRows(old(tx.db))|
    {
      var start := tx.db;
      var mismatched := Select(start.payments, (p: Payment) => Mismatched(start, p, start.cursor.value.solidified));
      var promoted := Select(start.payments, (p: Payment) => Promotable(start, p, required));
      var balances, orders := OrphanRows(tx, mismatched);
      var more := PromoteRows(tx, promoted, start.payments, stamp);
      TwoPasses(start, tx.db, mismatched, promoted, required, stamp);
      CollectedKeys(start, mismatched, promoted, required, balances, more, orders);
      tx.RecalculateBalanceSet(balances + more);
      var _ := tx.RecalculateOrderSet(orders);
      RowsCount(promoted, PromotableRows(start, required));
      RowsCount(mismatched, MismatchedRows(start));
      confirmed, orphaned := |promoted|, |mismatched|;
    }

    // ----- Orders -----

    /** Lists the due orders, the one that expired first leading; ties come in any order. */
    method DueOrders(now: int) returns (ids: seq<string>)
      requires Valid()
      ensures DueListing(db, ids, now)
    {
      var todo := set id | id in db.orders && Due(db, id, now);
      ids := [];
      while todo != {}
        invariant forall id :: Due(db, id, now) <==> id in todo || id in ids
        invariant forall id :: id in todo ==> id !in ids
        invariant forall i, j :: 0 <= i < j < |ids| ==> ids[i] != ids[j]
        invariant forall i, j :: 0 <= i < j < |ids| && ids[i] in db.orders && ids[j] in db.orders ==>
                    db.orders[ids[i]].expiresAt <= db.orders[ids[j]].expiresAt
        invariant forall i, id :: 0 <= i < |ids| && ids[i] in db.orders && id in todo && id in db.orders ==>
                    db.orders[ids[i]].expiresAt <= db.orders[id].expiresAt
      {
        EarliestExists(db, todo);
        var id :| Earliest(db, todo, id);
        todo := todo - {id};
        ids := ids + [id];
      }
    }

    method ExpireOrders(now: int, cooldown: int) returns (ids: seq<string>, expired: nat)
      requires Valid()
      modifies this
      ensures DueListing(old(db), ids, now)
      ensures Valid() && db == ExpireAll(old(db), ids, now, cooldown)
      ensures expired == |ExpiredAmong(db, ids)|
    {
      ids := DueOrders(now);
      ExpireWellFormed(db, ids, now, cooldown);
      assert forall i :: 0 <= i < |ids| ==> ids[i] in ids && Due(db, ids[i], now);
      var tx := new Tx(db);
      expired := ExpireEach(tx, ids, now, cooldown);
      db := tx.db;
    }

    method ExpireEach(tx: Tx, ids: seq<string>, now: int, cooldown: int) returns (expired: nat)
      requires forall i :: 0 <= i < |ids| ==> ids[i] in tx.db.orders
      requires forall i, j :: 0 <= i < j < |ids| ==> ids[i] != ids[j]
      modifies tx
      ensures tx.db == ExpireAll(old(tx.db), ids, now, cooldown)
      ensures expired == |ExpiredAmong(tx.db, ids)|
    {
      expired := 0;
      for i := 0 to |ids|
        invariant tx.db == ExpireAll(old(tx.db), ids[..i], now, cooldown)
        invariant tx.db.orders.Keys == old(tx.db).orders.Keys
        invariant expired == |ExpiredAmong(tx.db, ids[..i])|
      {
        OneMoreExpiry(old(tx.db), ids, i, now, cooldown);
        ghost var before := tx.db;
        var gone := ExpireOne(tx, ids[i], now, cooldown);
        MoreExpired(before, tx.db, ids, i);
        if gone {
          expired := expired + 1;
        }
      }
      assert ids[..|ids|] == ids;
    }

    method ExpireOne(tx: Tx, id: string, now: int, cooldown: int) returns (gone: bool)
      requires id in tx.db.orders
      modifies tx
      ensures tx.db == ExpireOrder(old(tx.db), id, now, cooldown)
      ensures tx.db.orders.Keys == old(tx.db).orders.Keys
      ensures forall other :: other in tx.db.orders && other != id ==> tx.db.orders[other] == old(tx.db).orders[other]
      ensures gone <==> tx.db.orders[id].status.Expired? || tx.db.orders[id].status.ExpiredFunded?
      ensures !gone ==> tx.db.orders[id].status.Paid?
    {
      var _ := tx.RecalculateOrder(id, true);
      var o := tx.db.orders[id];
      if o.status.Paid? {
        return false;
      }
      var status := Expired;
      if o.received > 0 {
        status := ExpiredFunded;
      }
      tx.db := tx.db.(orders := tx.db.orders[id := o.(status := status)],
                      addresses := CoolAddresses(tx.db.addresses, {o.addressId}, now, cooldown));
      return true;
    }

    method CancelOrder(id: string, force: bool, cooldown: int, now: int) returns (result: Cancellation)
      requires Valid()
      modifies this
      ensures Valid() && db == Ledger.CancelOrder(old(db), id, force, cooldown, now).GetOr(old(db))
      ensures result.Done? <==> Ledger.CancelOrder(old(db), id, force, cooldown, now).Some?
      ensures result.NotFound? <==> id !in old(db).orders
      ensures result.RequiresForce? <==> id in old(db).orders && !force && Transitions(old(db).orders[id].status)
                                         && !old(db).orders[id].status.Pending?
    {
      CancelWellFormed(db, id, force, cooldown, now);
      if id !in db.orders {
        return NotFound;
      }
      var o := db.orders[id];
      if !o.status.Pending? && !force {
        if o.status.Partial? || o.status.Paid? || o.status.Confirmed? {
          return RequiresForce;
        }
        return Terminal;
      }
      if o.status.Expired? || o.status.ExpiredFunded? || o.status.Cancelled? || o.status.CancelledFunded? {
        return Terminal;
      }
      var status := Cancelled;
      if o.received > 0 {
        status := CancelledFunded;
      }
      db := db.(orders := db.orders[id := o.(status := status)],
                addresses := CoolAddresses(db.addresses, {o.addressId}, now, cooldown));
      return Done;
    }

    method ExtendOrder(id: string, ttl: int, maxLifetime: int) returns (ok: bool)
      requires Valid()
      modifies this
      ensures Valid() && db == Ledger.ExtendOrder(old(db), id, ttl, maxLifetime).GetOr(old(db))
      ensures ok <==> Ledger.ExtendOrder(old(db), id, ttl, maxLifetime).Some?
      ensures !ok ==> db == old(db)
      ensures ok ==> && id in old(db).orders && id in db.orders && Active(old(db).orders[id].status)
                     && var o, r := old(db).orders[id], db.orders[id];
                        && o.expiresAt < r.expiresAt <= o.createdAt + maxLifetime / 1_000_000_000
                        && r == o.(expiresAt := r.expiresAt) && db == old(db).(orders := old(db).orders[id := r])
    {
      ExtendWellFormed(db, id, ttl, maxLifetime);
      if ttl <= 0 || maxLifetime <= 0 || id !in db.orders {
        return false;
      }
      var o := db.orders[id];
      if o.status.Confirmed? || o.status.Expired? || o.status.ExpiredFunded? || o.status.Cancelled? || o.status.CancelledFunded? {
        return false;
      }
      var seconds := ttl / 1_000_000_000;
      if seconds <= 0 || o.expiresAt > 0x7fff_ffff_ffff_ffff - seconds {
        return false;
      }
      var expiresAt := o.expiresAt + seconds;
      if expiresAt > o.createdAt + maxLifetime / 1_000_000_000 {
        return false;
      }
      db := db.(orders := db.orders[id := o.(expiresAt := expiresAt)]);
      return true;
    }

    method AttributePayment(payment: nat, order: string) returns (result: Attribution)
      requires Valid()
      modifies this
      ensures Valid() && db == Ledger.AttributePayment(old(db), payment, order).GetOr(old(db))
      ensures result.Attributed? <==> Ledger.AttributePayment(old(db), payment, order).Some?
      ensures result.OrderNotFound? <==> order !in old(db).orders
    {
      AttributeWellFormed(db, payment, order);
      if order !in db.orders {
        return OrderNotFound;
      }
      if payment >= |db.payments| || !db.payments[payment].status.Unattributed? {
        return PaymentNotFound;
      }
      var tx := new Tx(db);
      var p := tx.db.payments[payment];
      assert References(tx.db, p);
      var status := if p.confirmedAt.None? then PaymentStatus.Seen else PaymentStatus.Confirmed;
      tx.db := tx.db.(payments := tx.db.payments[payment := p.(orderId := Some(order), status := status)]);
      var _ := tx.RecalculateOrder(order, true);
      NoBalances(tx.db);
      if p.addressId.Some? {
        tx.RecalculateBalance(p.addressId.value, p.asset);
      }
      db := tx.db;
      return Attributed;
    }

    // ----- Address pool -----

    method NextIndex(used: set<nat>) returns (index: nat)
      ensures index == NextPoolIndex(used)
    {
      index := 0;
      while index < 1000
        invariant index <= 1000 && forall k :: 0 <= k < index ==> k in used
      {
        if index !in used {
          return;
        }
        index := index + 1;
      }
    }

    method TopUpPool(derive: nat -> Option<string>, minFree: int, target: int, poolMax: int) returns (ok: bool, added: nat)
      requires Valid()
      modifies this
      ensures Valid() && db == Ledger.TopUpPool(old(db), derive, minFree, target, poolMax).GetOr(old(db))
      ensures added == |db.addresses| - |old(db).addresses|
      ensures !ok ==> db == old(db)
    {
      var free := FreeCount(db.addresses);
      if free >= minFree {
        return true, 0;
      }
      TopUpWellFormed(db, derive, minFree, target, poolMax);
      var grown;
      ok, grown := DeriveMore(db.addresses, derive, Min(target - free, poolMax - |PoolIndexes(db.addresses)|));
      if !ok {
        return false, 0;
      }
      added := |grown| - |db.addresses|;
      db := db.(addresses := grown);
    }

    /** Derives up to toAdd addresses at the least unused indexes. */
    method DeriveMore(start: seq<Address>, derive: nat -> Option<string>, toAdd: int) returns (ok: bool, addresses: seq<Address>)
      ensures ok <==> TopUpSteps(start, derive, Max(toAdd, 0)).Some?
      ensures ok ==> TopUpSteps(start, derive, Max(toAdd, 0)) == Some(addresses) && |addresses| >= |start|
    {
      addresses := start;
      var indexes := PoolIndexes(start);
      var added := 0;
      while added < toAdd
        invariant 0 <= added <= Max(toAdd, 0) && |addresses| == |start| + added
        invariant indexes == PoolIndexes(addresses)
        invariant TopUpSteps(start, derive, Max(toAdd, 0)) == TopUpSteps(addresses, derive, Max(toAdd, 0) - added)
      {
        var index := NextIndex(indexes);
        if index >= 1000 {
          break;
        }
        var address := derive(index);
        if address.None? || Owner(addresses, address.value).Some? {
          return false, addresses;
        }
        PoolGrows(addresses, Address(index, address.value, Free, None, None, None));
        addresses := addresses + [Address(index, address.value, Free, None, None, None)];
        indexes := indexes + {index};
        added := added + 1;
      }
      ok := true;
    }

    /** A request whose external reference is taken is answered with the stored order, or refused when it differs. */
    method CreateOrder(id: string, order: Order, derive: nat -> Option<string>, poolMax: int) returns (result: Creation)
      requires Valid()
      modifies this
      ensures Valid() && db == Ledger.CreateOrder(old(db), id, order, derive, poolMax).GetOr(old(db))
      ensures result == Created(id) <==> Ledger.CreateOrder(old(db), id, order, derive, poolMax).Some?
      ensures result.Created? ==> result.id == id
      ensures result.Replayed? ==>
                && result.existing in db.orders && db == old(db)
                && order.externalRef.Some? && db.orders[result.existing].externalRef == order.externalRef
                && SameRequest(db.orders[result.existing], order)
      ensures result.RefConflict? ==>
                && db == old(db)
                && exists other :: other in db.orders && order.externalRef.Some? && db.orders[other].externalRef == order.externalRef
                                   && !SameRequest(db.orders[other], order)
      ensures result.PoolExhausted? ==>
                && LowestFree(db.addresses).None? && db == old(db)
                && (|PoolIndexes(db.addresses)| >= poolMax || forall k :: 0 <= k < 1000 ==> k in PoolIndexes(db.addresses))
    {
      CreateWellFormed(db, id, order, derive, poolMax);
      var addresses := db.addresses;
      var chosen := LowestFree(addresses);
      var exhausted := false;
      if chosen.None? {
        var indexes := PoolIndexes(addresses);
        var index := NextIndex(indexes);
        if |indexes| >= poolMax || index >= 1000 {
          exhausted := true;
          if indexes == {} {
            return PoolExhausted;
          }
        } else {
          var address := derive(index);
          if address.None? || Owner(addresses, address.value).Some? {
            return Refused;
          }
          addresses := addresses + [Address(index, address.value, Free, None, None, None)];
          chosen := Some(|db.addresses|);
        }
      }
      if id in db.orders || RefTaken(db, order.externalRef) {
        if !RefTaken(db, order.externalRef) {
          return Refused;
        }
        var existing :| existing in db.orders && db.orders[existing].externalRef == order.externalRef;
        var stored := db.orders[existing];
        if stored.asset != order.asset || stored.expected != order.expected || stored.consumer != order.consumer {
          return RefConflict;
        }
        return Replayed(existing);
      }
      if exhausted {
        return PoolExhausted;
      }
      var row := order.(addressId := chosen.value, received := 0, overpaid := 0, status := OrderStatus.Pending);
      db := db.(orders := db.orders[id := row],
                addresses := addresses[chosen.value := addresses[chosen.value].(
                               state := Assigned, assignedOrder := Some(id), releasedAt := None, coolingUntil := None)]);
      return Created(id);
    }

    method ReleaseCooled(now: int) returns (released: nat)
      requires Valid()
      modifies this
      ensures Valid() && db == Ledger.ReleaseCooled(old(db), now)
      ensures released == |set i | 0 <= i < |old(db).addresses| && Elapsed(old(db).addresses[i], now)|
      ensures db == old(db).(addresses := db.addresses) && |db.addresses| == |old(db).addresses|
      ensures forall a :: 0 <= a < |db.addresses| && Elapsed(old(db).addresses[a], now) ==>
                            && db.addresses[a].state.Free? && db.addresses[a].address == old(db).addresses[a].address
                            && AttributionOrder(db, a).None? && ReleasedAt(db, a).None?
      ensures forall a :: 0 <= a < |db.addresses| && !Elapsed(old(db).addresses[a], now) ==> db.addresses[a] == old(db).addresses[a]
    {
      ReleaseWellFormed(db, now);
      released := |set i | 0 <= i < |db.addresses| && Elapsed(db.addresses[i], now)|;
      db := db.(addresses := seq(|db.addresses|, i requires 0 <= i < |db.addresses| reads this => Released(db.addresses[i], now)));
    }

    method DisableAddress(address: string) returns (ok: bool)
      requires Valid()
      modifies this
      ensures Valid() && db == Ledger.DisableAddress(old(db), address).GetOr(old(db))
      ensures ok <==> exists i :: 0 <= i < |old(db).addresses| && old(db).addresses[i].address == address
    {
      DisableWellFormed(db, address);
      var id := Owner(db.addresses, address);
      if id.None? {
        return false;
      }
      db := db.(addresses := db.addresses[id.value := db.addresses[id.value].(state := Disabled)]);
      return true;
    }
  }

  /** A replayed reference must ask for the same asset, amount and consumer. */
  predicate SameRequest(stored: Order, order: Order) {
    stored.asset == order.asset && stored.expected == order.expected && stored.consumer == order.consumer
  }

  /** A reorganisation is suspected at this height. */
  predicate Suspects(db: Db, height: int) {
    db.cursor.Some? && db.cursor.value.suspectedFrom.Some? && db.cursor.value.suspectedFrom.value <= height
  }

  predicate Elapsed(a: Address, now: int) {
    a.state.Cooling? && a.coolingUntil.Some? && a.coolingUntil.value <= now
  }

  lemma PoolGrows(addresses: seq<Address>, row: Address)
    requires row.hdIndex < 1000
    ensures PoolIndexes(addresses + [row]) == PoolIndexes(addresses) + {row.hdIndex}
  {
    assert forall a :: a in addresses + [row] <==> a in addresses || a == row;
  }

  function ExpiredAmong(db: Db, ids: seq<string>): set<string> {
    set id | id in ids && id in db.orders && (db.orders[id].status.Expired? || db.orders[id].status.ExpiredFunded?)
  }

  /** Expiring one listed order adds it, or nothing, to the expired ones. */
  lemma MoreExpired(before: Db, after: Db, ids: seq<string>, i: nat)
    requires i < |ids| && ids[i] in after.orders && before.orders.Keys == after.orders.Keys
    requires forall j, k :: 0 <= j < k < |ids| ==> ids[j] != ids[k]
    requires forall other :: other in after.orders && other != ids[i] ==> after.orders[other] == before.orders[other]
    ensures |ExpiredAmong(after, ids[..i + 1])|
         == |ExpiredAmong(before, ids[..i])|
            + if after.orders[ids[i]].status.Expired? || after.orders[ids[i]].status.ExpiredFunded? then 1 else 0
  {
    assert ids[..i + 1] == ids[..i] + [ids[i]];
    assert forall id :: id in ids[..i] ==> id != ids[i];
    assert ExpiredAmong(after, ids[..i + 1])
        == ExpiredAmong(before, ids[..i])
           + if after.orders[ids[i]].status.Expired? || after.orders[ids[i]].status.ExpiredFunded? then {ids[i]} else {};
  }

  lemma OneMoreExpiry(db: Db, ids: seq<string>, i: nat, now: int, cooldown: int)
    requires i < |ids|
    ensures ExpireAll(db, ids[..i + 1], now, cooldown) == ExpireOrder(ExpireAll(db, ids[..i], now, cooldown), ids[i], now, cooldown)
  {
    assert ids[..i + 1][..i] == ids[..i];
  }

  /** Orphaning the mismatched rows and then promoting the promotable ones settles every row. */
  lemma TwoPasses(start: Db, after: Db, mismatched: seq<nat>, promoted: seq<nat>, required: int, stamp: int)
    requires start.cursor.Some? && after == start.(payments := after.payments)
    requires |after.payments| == |start.payments|
    requires forall i: nat :: i in mismatched <==> i < |start.payments| && Mismatched(start, start.payments[i], start.cursor.value.solidified)
    requires forall i: nat :: i in promoted <==> i < |start.payments| && Promotable(start, start.payments[i], required)
    requires forall i :: 0 <= i < |start.payments| ==>
               var p := start.payments[i];
               var marked := if i in mismatched then Mark(p) else p;
               after.payments[i] == if i in promoted then Promote(marked, p, stamp) else marked
    ensures after == start.(payments := SettleAll(start, required, stamp))
  {
    forall i | 0 <= i < |start.payments| ensures after.payments[i] == Ledger.Settle(start, start.payments[i], required, stamp) {
    }
    assert after.payments == SettleAll(start, required, stamp);
  }

  lemma CollectedKeys(start: Db, mismatched: seq<nat>, promoted: seq<nat>, required: int,
                      balances: set<BalanceKey>, more: set<BalanceKey>, orders: set<string>)
    requires WellFormed(start) && start.cursor.Some?
    requires forall i: nat :: i in mismatched <==> i < |start.payments| && Mismatched(start, start.payments[i], start.cursor.value.solidified)
    requires forall i: nat :: i in promoted <==> i < |start.payments| && Promotable(start, start.payments[i], required)
    requires KeysOf(start, start.payments, mismatched, balances)
    requires KeysOf(start, start.payments, promoted, more)
    requires OrdersOf(start.payments, mismatched, orders)
    ensures balances + more == SettledBalances(start, required)
    ensures orders == MismatchedOrders(start)
    ensures forall key :: key in balances + more ==> key.0 < |start.addresses|
    ensures forall id :: id in orders ==> id in start.orders
  {
  }

  lemma OneMoreRecord(db: Db, records: seq<Payment>, i: nat, before: Db)
    requires WellFormed(db) && i < |records| && IngestAll(db, records[..i]) == Some(before)
    ensures IngestAll(db, records[..i + 1]) == Ingest(before, records[i])
    ensures Ingest(before, records[i]).Some? ==> WellFormed(Ingest(before, records[i]).value)
  {
    assert records[..i + 1][..i] == records[..i];
    IngestWellFormed(db, records[..i + 1]);
  }

  /** A record adds a row exactly when no row has its key. */
  lemma IngestCounts(db: Db, rec: Payment)
    requires Ingest(db, rec).Some?
    ensures |Ingest(db, rec).value.payments|
         == |db.payments| + if FindPayment(db.payments, rec.key) < |db.payments| then 0 else 1
  {
    var matched := MatchRecord(db, rec);
    assert matched.key == rec.key;
    assert Ingest(db, rec).value.payments == UpsertRow(db.payments, matched);
  }

  lemma {:induction false} FailureStays(db: Db, records: seq<Payment>, n: nat)
    requires n <= |records| && IngestAll(db, records[..n]).None?
    ensures IngestAll(db, records).None?
    decreases |records| - n
  {
    if n == |records| {
      assert records[..n] == records;
    } else {
      assert records[..n + 1][..n] == records[..n];
      FailureStays(db, records, n + 1);
    }
  }

  lemma KeysInRange(db: Db, ancestor: int)
    requires WellFormed(db)
    ensures forall k :: k in BalancesAbove(db, ancestor) ==> k.0 < |db.addresses|
    ensures forall id :: id in OrdersAbove(db.payments, ancestor) ==> id in db.orders
  {
    forall k | k in BalancesAbove(db, ancestor) ensures k.0 < |db.addresses| {
      var p :| p in db.payments && p.height > ancestor && k in Touched(db, p);
      assert References(db, p);
    }
  }
}
