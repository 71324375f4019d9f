/** Every ledger transaction keeps the unique keys and references the schema declares. */
module Integrity {
  import opened Prelude
  import opened Tables
  import opened Ledger

  /** An upsert changes one row, or appends one. */
  lemma UpsertRowShape(payments: seq<Payment>, rec: Payment)
    ensures var i := FindPayment(payments, rec.key);
            var after := UpsertRow(payments, rec);
            && |after| == (if i < |payments| then |payments| else |payments| + 1)
            && after[i] == (if i < |payments| then Resighted(payments[i], rec) else rec.(confirmedAt := None))
            && forall j :: 0 <= j < |payments| && j != i ==> after[j] == payments[j]
  {
  }

  /** Tables that differ only in computed columns stay well formed. */
  lemma SameReferences(db: Db, after: Db)
    requires WellFormed(db)
    requires |after.payments| == |db.payments|
    requires forall i :: 0 <= i < |db.payments| ==>
               && after.payments[i].key == db.payments[i].key
               && after.payments[i].addressId == db.payments[i].addressId
               && (after.payments[i].orderId == db.payments[i].orderId || References(after, after.payments[i]))
    requires |after.addresses| == |db.addresses|
    requires forall i :: 0 <= i < |db.addresses| ==> after.addresses[i].address == db.addresses[i].address
    requires after.orders.Keys == db.orders.Keys
    requires forall id :: id in db.orders ==> after.orders[id].addressId == db.orders[id].addressId
    requires forall k :: k in after.balances ==> k in db.balances || k.0 < |db.addresses|
    ensures WellFormed(after)
  {
    forall i | 0 <= i < |after.payments| ensures References(after, after.payments[i]) {
      assert References(db, db.payments[i]);
    }
  }

  lemma TouchedInRange(db: Db, p: Payment)
    requires References(db, p)
    ensures forall k :: k in Touched(db, p) ==> k.0 < |db.addresses|
  {
  }

  /** Rewriting rows in place, or appending one row under a new key, keeps keys distinct. */
  lemma StillDistinct(payments: seq<Payment>, after: seq<Payment>)
    requires DistinctKeys(payments)
    requires |payments| <= |after| <= |payments| + 1
    requires forall j :: 0 <= j < |payments| ==> after[j].key == payments[j].key
    requires |after| > |payments| ==> forall j :: 0 <= j < |payments| ==> payments[j].key != after[|payments|].key
    ensures DistinctKeys(after)
  {
  }

  lemma UpsertDistinct(payments: seq<Payment>, rec: Payment)
    requires DistinctKeys(payments)
    ensures DistinctKeys(UpsertRow(payments, rec))
  {
    UpsertRowShape(payments, rec);
    StillDistinct(payments, UpsertRow(payments, rec));
  }

  /** New payment rows and recalculated orders and balances keep the tables well formed. */
  lemma RowsWellFormed(db: Db, after: Db)
    requires WellFormed(db)
    requires DistinctKeys(after.payments)
    requires forall i :: 0 <= i < |after.payments| ==> References(db, after.payments[i])
    requires after.addresses == db.addresses
    requires after.orders.Keys == db.orders.Keys
    requires forall id :: id in db.orders ==> after.orders[id].addressId == db.orders[id].addressId
    requires forall k :: k in after.balances ==> k in db.balances || k.0 < |db.addresses|
    ensures WellFormed(after)
  {
    forall i | 0 <= i < |after.payments| ensures References(after, after.payments[i]) {
      assert References(db, after.payments[i]);
    }
  }

  lemma UpsertReferences(db: Db, rec: Payment)
    requires WellFormed(db) && References(db, rec)
    ensures forall i :: 0 <= i < |UpsertRow(db.payments, rec)| ==> References(db, UpsertRow(db.payments, rec)[i])
  {
    var after := UpsertRow(db.payments, rec);
    UpsertRowShape(db.payments, rec);
    forall i | 0 <= i < |after| ensures References(db, after[i]) {
      if i < |db.payments| { assert References(db, db.payments[i]); }
    }
  }

  lemma UpsertWellFormed(db: Db, rec: Payment)
    requires WellFormed(db)
    ensures UpsertPayment(db, rec).Some? ==> WellFormed(UpsertPayment(db, rec).value)
  {
    if References(db, rec) {
      UpsertDistinct(db.payments, rec);
      UpsertReferences(db, rec);
      TouchedInRange(db, rec);
      RowsWellFormed(db, UpsertPayment(db, rec).value);
    }
  }

  lemma {:induction false} IngestWellFormed(db: Db, recs: seq<Payment>)
    requires WellFormed(db)
    ensures IngestAll(db, recs).Some? ==> WellFormed(IngestAll(db, recs).value)
  {
    if recs != [] {
      IngestWellFormed(db, recs[..|recs| - 1]);
      var before := IngestAll(db, recs[..|recs| - 1]);
      if before.Some? {
        UpsertWellFormed(before.value, MatchRecord(before.value, recs[|recs| - 1]));
      }
    }
  }

  lemma {:induction false} IngestKeepsChain(db: Db, records: seq<Payment>)
    requires IngestAll(db, records).Some?
    ensures IngestAll(db, records).value.blocks == db.blocks && IngestAll(db, records).value.cursor == db.cursor
    ensures IngestAll(db, records).value.addresses == db.addresses
  {
    if records != [] {
      IngestKeepsChain(db, records[..|records| - 1]);
    }
  }

  /** What a commit does to the cursor and the retained blocks. */
  lemma CommitShape(db: Db, block: Block, depth: int, records: seq<Payment>)
    requires CommitBlock(db, block, depth, records).Some?
    ensures var after := CommitBlock(db, block, depth, records).value;
            && after.cursor == Some(if db.cursor.Some? then db.cursor.value.(last := block.height) else Cursor(block.height, 0, None))
            && after.blocks == (map h | h in db.blocks.Keys + {block.height} && h >= block.height - depth ::
                                  if h == block.height then block else db.blocks[h])
    ensures depth > 0 && block.height !in db.blocks
    ensures db.cursor.Some? ==> block.height == db.cursor.value.last + 1
  {
    IngestKeepsChain(db.(blocks := db.blocks[block.height := block]), records);
  }

  lemma RewindWellFormed(db: Db, ancestor: int)
    requires WellFormed(db)
    ensures RewindChain(db, ancestor).Some? ==> WellFormed(RewindChain(db, ancestor).value)
  {
    var r := RewindChain(db, ancestor);
    if r.Some? {
      forall k | k in r.value.balances ensures k in db.balances || k.0 < |db.addresses| {
        if k !in db.balances {
          assert k in BalancesAbove(db, ancestor);
          var p :| p in db.payments && k in Touched(db, p);
          TouchedInRange(db, p);
        }
      }
      SameReferences(db, r.value);
    }
  }

  lemma SettleWellFormed(db: Db, required: int, stamp: int)
    requires WellFormed(db)
    ensures WellFormed(SettlePayments(db, required, stamp))
  {
    var r := SettlePayments(db, required, stamp);
    forall k | k in r.balances ensures k in db.balances || k.0 < |db.addresses| {
      if k !in db.balances {
        assert k in SettledBalances(db, required);
        var p :| p in db.payments && k in Touched(db, p);
        TouchedInRange(db, p);
      }
    }
    SameReferences(db, r);
  }

  /** A confirmation tick settles the rows and touches neither blocks nor the height of the chain. */
  lemma SolidifyShape(db: Db, height: int, required: int, cooldown: int, now: int)
    requires ApplySolidifiedHeight(db, height, required, cooldown, now).Some?
    ensures var after, raised := ApplySolidifiedHeight(db, height, required, cooldown, now).value, Solidified(db, height);
            && after.payments == SettleAll(raised, required, now) && after.blocks == db.blocks
            && db.cursor.Some? && raised.cursor.Some? && after.cursor == raised.cursor
            && raised.cursor.value.last == db.cursor.value.last && raised.cursor.value.solidified >= db.cursor.value.solidified
            && raised.payments == db.payments
  {
  }

  lemma SolidifyWellFormed(db: Db, height: int, required: int, cooldown: int, now: int)
    requires WellFormed(db)
    ensures var r := ApplySolidifiedHeight(db, height, required, cooldown, now);
            r.Some? ==> WellFormed(r.value)
  {
    SettleWellFormed(Solidified(db, height), required, now);
    var settled := SettlePayments(Solidified(db, height), required, now);
    SameReferences(settled, ConfirmOrders(settled, ConfirmableOrders(settled), now, cooldown));
  }

  lemma {:induction false} ExpireKeepsRows(db: Db, ids: seq<string>, now: int, cooldown: int)
    ensures var r := ExpireAll(db, ids, now, cooldown);
            r.payments == db.payments && r.blocks == db.blocks && r.cursor == db.cursor
  {
    if ids != [] {
      ExpireKeepsRows(db, ids[..|ids| - 1], now, cooldown);
    }
  }

  lemma {:induction false} ExpireWellFormed(db: Db, ids: seq<string>, now: int, cooldown: int)
    requires WellFormed(db)
    ensures WellFormed(ExpireAll(db, ids, now, cooldown))
  {
    if ids != [] {
      var before := ExpireAll(db, ids[..|ids| - 1], now, cooldown);
      ExpireWellFormed(db, ids[..|ids| - 1], now, cooldown);
      SameReferences(before, ExpireOrder(before, ids[|ids| - 1], now, cooldown));
    }
  }

  lemma AttributeWellFormed(db: Db, payment: nat, order: string)
    requires WellFormed(db)
    ensures AttributePayment(db, payment, order).Some? ==> WellFormed(AttributePayment(db, payment, order).value)
  {
    if AttributePayment(db, payment, order).Some? {
      assert References(db, db.payments[payment]);
      SameReferences(db, AttributePayment(db, payment, order).value);
    }
  }

  /** Adding addresses, orders or payment rows that refer to existing rows keeps the tables well formed. */
  lemma GrownAddresses(db: Db, addresses: seq<Address>)
    requires WellFormed(db)
    requires |db.addresses| <= |addresses| && DistinctAddresses(addresses)
    ensures WellFormed(db.(addresses := addresses))
  {
    var after := db.(addresses := addresses);
    forall i | 0 <= i < |after.payments| ensures References(after, after.payments[i]) {
      assert References(db, db.payments[i]);
    }
  }

  lemma PoolAddressDistinct(addresses: seq<Address>, index: nat, address: string)
    requires DistinctAddresses(addresses)
    requires Owner(addresses, address).None?
    ensures DistinctAddresses(addresses + [Address(index, address, Free, None, None, None)])
  {
  }

  lemma {:induction false} TopUpStepsDistinct(addresses: seq<Address>, derive: nat -> Option<string>, steps: nat)
    requires DistinctAddresses(addresses)
    ensures var r := TopUpSteps(addresses, derive, steps); r.Some? ==> DistinctAddresses(r.value)
    decreases steps
  {
    if steps > 0 {
      var index := NextPoolIndex(PoolIndexes(addresses));
      if index < 1000 && derive(index).Some? && Owner(addresses, derive(index).value).None? {
        var grown := addresses + [Address(index, derive(index).value, Free, None, None, None)];
        PoolAddressDistinct(addresses, index, derive(index).value);
        TopUpStepsDistinct(grown, derive, steps - 1);
      }
    }
  }

  lemma {:induction false} TopUpStepsGrow(addresses: seq<Address>, derive: nat -> Option<string>, steps: nat)
    ensures var r := TopUpSteps(addresses, derive, steps);
            r.Some? ==> |addresses| <= |r.value| && forall i :: 0 <= i < |addresses| ==> r.value[i] == addresses[i]
    decreases steps
  {
    if steps > 0 && TopUpSteps(addresses, derive, steps).Some? {
      var index := NextPoolIndex(PoolIndexes(addresses));
      if index < 1000 {
        var more := addresses + [Address(index, derive(index).value, Free, None, None, None)];
        TopUpStepsGrow(more, derive, steps - 1);
        assert forall i :: 0 <= i < |addresses| ==> more[i] == addresses[i];
      }
    }
  }

  lemma ClaimWellFormed(db: Db, a: nat, id: string, order: Order)
    requires WellFormed(db)
    requires a < |db.addresses|
    ensures WellFormed(ClaimAddress(db, a, id, order))
  {
    var after := ClaimAddress(db, a, id, order);
    forall i | 0 <= i < |after.payments| ensures References(after, after.payments[i]) {
      assert References(db, db.payments[i]);
    }
  }

  lemma CreateWellFormed(db: Db, id: string, order: Order, derive: nat -> Option<string>, poolMax: int)
    requires WellFormed(db)
    ensures var r := CreateOrder(db, id, order, derive, poolMax); r.Some? ==> WellFormed(r.value)
  {
    var blank := order.(received := 0, overpaid := 0, status := OrderStatus.Pending);
    var free := LowestFree(db.addresses);
    var grown := InsertNextAddress(db.addresses, derive, poolMax);
    if free.Some? {
      ClaimWellFormed(db, free.value, id, blank);
    } else if grown.Some? {
      var index := NextPoolIndex(PoolIndexes(db.addresses));
      PoolAddressDistinct(db.addresses, index, derive(index).value);
      GrownAddresses(db, grown.value);
      ClaimWellFormed(db.(addresses := grown.value), |db.addresses|, id, blank);
    }
  }

  lemma InsertedRow(db: Db, payments: seq<Payment>, row: Payment)
    requires DistinctKeys(payments)
    requires References(db, row)
    requires forall i :: 0 <= i < |payments| ==> References(db, payments[i])
    ensures DistinctKeys(InsertIfAbsent(payments, row)) && DistinctKeys(ConfirmOrInsert(payments, row))
    ensures forall i :: 0 <= i < |InsertIfAbsent(payments, row)| ==> References(db, InsertIfAbsent(payments, row)[i])
    ensures forall i :: 0 <= i < |ConfirmOrInsert(payments, row)| ==> References(db, ConfirmOrInsert(payments, row)[i])
  {
    StillDistinct(payments, InsertIfAbsent(payments, row));
    StillDistinct(payments, ConfirmOrInsert(payments, row));
  }

  lemma FeeInsertedRows(db: Db, txid: string, height: int, timestamp: int, a: nat, fee: nat, now: int)
    requires WellFormed(db) && a < |db.addresses|
    ensures var rows := FeeInserted(db, txid, height, timestamp, a, fee, now);
            DistinctKeys(rows) && forall i :: 0 <= i < |rows| ==> References(db, rows[i])
  {
    InsertedRow(db, db.payments, FeeRow(txid, height, timestamp, AddressAt(db, a), a, fee, now));
  }

  lemma FeeWellFormed(db: Db, txid: string, height: int, timestamp: int, a: nat, fee: nat, now: int)
    requires WellFormed(db)
    ensures var r := RecordFee(db, txid, height, timestamp, a, fee, now); r.Some? ==> WellFormed(r.value)
  {
    if a < |db.addresses| {
      FeeInsertedRows(db, txid, height, timestamp, a, fee, now);
      RowsWellFormed(db, RecordFee(db, txid, height, timestamp, a, fee, now).value);
    }
  }

  /** A grant's receipt touches payment rows and balances only. */
  lemma ReceiptShape(db: Db, txid: string, fee: nat, topup: Option<(string, nat)>, height: int, timestamp: int,
                     wallet: nat, now: int)
    requires RecordGrantReceipt(db, txid, fee, topup, height, timestamp, wallet, now).Some?
    ensures var after := RecordGrantReceipt(db, txid, fee, topup, height, timestamp, wallet, now).value;
            && after.payments == ReceiptPayments(db, txid, fee, topup, height, timestamp, wallet, now)
            && after == db.(payments := after.payments, balances := after.balances)
  {
  }

  /** Each stored row stays, or is the confirmed top-up row itself. */
  lemma ReceiptRows(db: Db, txid: string, fee: nat, topup: Option<(string, nat)>, height: int, timestamp: int,
                    wallet: nat, now: int, i: nat)
    requires i < |db.payments|
    ensures var rows := ReceiptPayments(db, txid, fee, topup, height, timestamp, wallet, now);
            && i < |rows|
            && (rows[i] == db.payments[i]
                || (db.payments[i].key == PaymentKey(txid, 0)
                    && rows[i] == db.payments[i].(status := PaymentStatus.Confirmed, confirmedAt := Some(now))))
  {
  }

  lemma ReceiptReferences(db: Db, txid: string, fee: nat, topup: Option<(string, nat)>, height: int, timestamp: int,
                          wallet: nat, now: int)
    requires WellFormed(db) && wallet < |db.addresses|
    ensures var rows := ReceiptPayments(db, txid, fee, topup, height, timestamp, wallet, now);
            DistinctKeys(rows) && forall i :: 0 <= i < |rows| ==> References(db, rows[i])
  {
    FeeInsertedRows(db, txid, height, timestamp, wallet, fee, now);
    if topup.Some? {
      InsertedRow(db, FeeInserted(db, txid, height, timestamp, wallet, fee, now),
                  TopupRow(txid, height, timestamp, AddressAt(db, wallet), topup.value.0, wallet, topup.value.1, now));
    }
  }

  lemma ReceiptBalances(db: Db, txid: string, fee: nat, topup: Option<(string, nat)>, height: int, timestamp: int,
                        wallet: nat, now: int)
    requires RecordGrantReceipt(db, txid, fee, topup, height, timestamp, wallet, now).Some?
    ensures var after := RecordGrantReceipt(db, txid, fee, topup, height, timestamp, wallet, now).value;
            forall k :: k in after.balances ==> k in db.balances || k.0 < |db.addresses|
    ensures wallet < |db.addresses| || RecordGrantReceipt(db, txid, fee, topup, height, timestamp, wallet, now).value == db
  {
  }

  lemma ReceiptWellFormed(db: Db, txid: string, fee: nat, topup: Option<(string, nat)>, height: int, timestamp: int,
                          wallet: nat, now: int)
    requires WellFormed(db)
    ensures var r := RecordGrantReceipt(db, txid, fee, topup, height, timestamp, wallet, now);
            r.Some? ==> WellFormed(r.value)
  {
    var r := RecordGrantReceipt(db, txid, fee, topup, height, timestamp, wallet, now);
    if r.Some? {
      ReceiptBalances(db, txid, fee, topup, height, timestamp, wallet, now);
      if wallet < |db.addresses| {
        ReceiptShape(db, txid, fee, topup, height, timestamp, wallet, now);
        ReceiptReferences(db, txid, fee, topup, height, timestamp, wallet, now);
        RowsWellFormed(db, r.value);
      }
    }
  }

  lemma TopUpWellFormed(db: Db, derive: nat -> Option<string>, minFree: int, target: int, poolMax: int)
    requires WellFormed(db)
    ensures var r := TopUpPool(db, derive, minFree, target, poolMax); r.Some? ==> WellFormed(r.value)
  {
    var steps := TopUpCount(db.addresses, target, poolMax);
    TopUpStepsDistinct(db.addresses, derive, steps);
    TopUpStepsGrow(db.addresses, derive, steps);
    if TopUpSteps(db.addresses, derive, steps).Some? {
      GrownAddresses(db, TopUpSteps(db.addresses, derive, steps).value);
    }
  }

  lemma ReleaseWellFormed(db: Db, now: int)
    requires WellFormed(db)
    ensures WellFormed(ReleaseCooled(db, now))
  {
    SameReferences(db, ReleaseCooled(db, now));
  }

  lemma DisableWellFormed(db: Db, address: string)
    requires WellFormed(db)
    ensures var r := DisableAddress(db, address); r.Some? ==> WellFormed(r.value)
  {
    if DisableAddress(db, address).Some? {
      SameReferences(db, DisableAddress(db, address).value);
    }
  }

  lemma CancelWellFormed(db: Db, id: string, force: bool, cooldown: int, now: int)
    requires WellFormed(db)
    ensures var r := CancelOrder(db, id, force, cooldown, now); r.Some? ==> WellFormed(r.value)
  {
    if CancelOrder(db, id, force, cooldown, now).Some? {
      SameReferences(db, CancelOrder(db, id, force, cooldown, now).value);
    }
  }

  lemma ExtendWellFormed(db: Db, id: string, ttl: int, maxLifetime: int)
    requires WellFormed(db)
    ensures var r := ExtendOrder(db, id, ttl, maxLifetime); r.Some? ==> WellFormed(r.value)
  {
    if ExtendOrder(db, id, ttl, maxLifetime).Some? {
      SameReferences(db, ExtendOrder(db, id, ttl, maxLifetime).value);
    }
  }

  lemma PoolWellFormed(db: Db, ev: Event)
    requires WellFormed(db)
    requires ev.Create? || ev.TopUp? || ev.Release? || ev.Disable? || ev.Cancel? || ev.Extend?
    ensures Attempt(db, ev).Some? ==> WellFormed(Attempt(db, ev).value)
  {
    match ev
    case Create(id, draft, derive, poolMax) => CreateWellFormed(db, id, draft, derive, poolMax);
    case TopUp(derive, minFree, target, poolMax) => TopUpWellFormed(db, derive, minFree, target, poolMax);
    case Cancel(id, force, cooldown, now) => CancelWellFormed(db, id, force, cooldown, now);
    case Extend(id, ttl, maxLifetime) => ExtendWellFormed(db, id, ttl, maxLifetime);
    case Release(now) => ReleaseWellFormed(db, now);
    case Disable(address) => DisableWellFormed(db, address);
  }

  lemma CommitWellFormed(db: Db, block: Block, depth: int, records: seq<Payment>)
    requires WellFormed(db)
    ensures var r := CommitBlock(db, block, depth, records); r.Some? ==> WellFormed(r.value)
  {
    IngestWellFormed(db.(blocks := db.blocks[block.height := block]), records);
  }

  lemma ChainWellFormed(db: Db, ev: Event)
    requires WellFormed(db)
    requires ev.Commit? || ev.Rewind? || ev.Suspect? || ev.ClearSuspicion? || ev.Solidify? || ev.Reconcile?
    ensures Attempt(db, ev).Some? ==> WellFormed(Attempt(db, ev).value)
  {
    match ev
    case Commit(block, depth, records) => CommitWellFormed(db, block, depth, records);
    case Rewind(ancestor) => RewindWellFormed(db, ancestor);
    case Suspect(height) =>
    case ClearSuspicion =>
    case Solidify(height, required, cooldown, now) => SolidifyWellFormed(db, height, required, cooldown, now);
    case Reconcile(records) => IngestWellFormed(db, records);
  }

  /** Every ledger transaction keeps the schema's keys and references. */
  lemma ApplyWellFormed(db: Db, ev: Event)
    requires WellFormed(db)
    ensures WellFormed(Apply(db, ev))
  {
    match ev
    case Attribute(payment, order) => AttributeWellFormed(db, payment, order);
    case Expire(ids, now, cooldown) => ExpireWellFormed(db, ids, now, cooldown);
    case Fee(txid, height, timestamp, a, fee, now) => FeeWellFormed(db, txid, height, timestamp, a, fee, now);
    case GrantReceipt(txid, fee, topup, height, timestamp, wallet, now) =>
      ReceiptWellFormed(db, txid, fee, topup, height, timestamp, wallet, now);
    case _ =>
      if ev.Create? || ev.TopUp? || ev.Release? || ev.Disable? || ev.Cancel? || ev.Extend? {
        PoolWellFormed(db, ev);
      } else {
        ChainWellFormed(db, ev);
      }
  }

  lemma {:induction false} RunWellFormed(db: Db, evs: seq<Event>)
    requires WellFormed(db)
    ensures WellFormed(Run(db, evs))
  {
    if evs != [] {
      RunWellFormed(db, evs[..|evs| - 1]);
      ApplyWellFormed(Run(db, evs[..|evs| - 1]), evs[|evs| - 1]);
    }
  }
}
