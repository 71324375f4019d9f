/**
 An order is only confirmed when confirmed money covers it. The invariant behind this is that a paid or
 confirmed order expects no more than it recorded, and recorded no more than its rows still add up to.
 */
module Settlement {
  import opened Prelude
  import opened Tables
  import opened Ledger
  import opened Integrity

  predicate CoveredOrder(db: Db, id: string)
    requires id in db.orders
  {
    var o := db.orders[id];
    o.status.Paid? || o.status.Confirmed? ==> o.expected <= o.received <= EligibleTotal(db, id, o)
  }

  ghost predicate Covered(db: Db) {
    forall id :: id in db.orders ==> CoveredOrder(db, id)
  }

  // ----- Promotion -----

  function ConfirmedAmount(id: string, o: Order, releasedAt: Option<int>): Payment -> int {
    (p: Payment) => if Eligible(p, id, o, releasedAt) && p.status.Confirmed? then p.amount else 0
  }

  /** The confirmed money that an order's own rows hold. */
  function ConfirmedTotalOf(db: Db, id: string, o: Order): int {
    Sum(db.payments, ConfirmedAmount(id, o, ReleasedAt(db, o.addressId)))
  }

  /** The rows a confirmable order counts are all confirmed, so they cover what it expects. */
  lemma ConfirmableIsCovered(db: Db, id: string)
    requires Covered(db) && Confirmable(db, id)
    ensures ConfirmedTotalOf(db, id, db.orders[id]) >= db.orders[id].expected
  {
    var o := db.orders[id];
    var released := ReleasedAt(db, o.addressId);
    assert CoveredOrder(db, id);
    forall i | 0 <= i < |db.payments|
      ensures EligibleAmount(id, o, released)(db.payments[i]) == ConfirmedAmount(id, o, released)(db.payments[i])
    {
      assert db.payments[i] in db.payments;
    }
    SumEq(db.payments, db.payments, EligibleAmount(id, o, released), ConfirmedAmount(id, o, released));
  }

  // ----- Recalculation restores coverage -----

  /** A recalculated order that may change status is covered whatever happened to its rows. */
  lemma RecalculatedIsCovered(o: Order, total: int)
    ensures var r := RecalculatedOrder(o, total, true);
            r.status.Paid? || r.status.Confirmed? ==> r.expected <= r.received <= total
  {
  }

  /** Eligibility looks only at fields that recalculation leaves alone. */
  lemma EligibleTotalFrame(db: Db, after: Db, id: string, o: Order, r: Order)
    requires after.payments == db.payments
    requires ReleasedAt(after, o.addressId) == ReleasedAt(db, o.addressId)
    requires r.addressId == o.addressId && r.asset == o.asset && r.createdAt == o.createdAt
    ensures EligibleTotal(after, id, r) == EligibleTotal(db, id, o)
  {
    var released := ReleasedAt(db, o.addressId);
    SumEq(db.payments, db.payments, EligibleAmount(id, o, released), EligibleAmount(id, r, released));
  }

  /** Rows that count no less than before keep an order's total from shrinking. */
  lemma EligibleTotalGrows(db: Db, after: Db, id: string, o: Order)
    requires |db.payments| <= |after.payments|
    requires forall i :: 0 <= i < |db.payments| ==>
               EligibleAmount(id, o, ReleasedAt(db, o.addressId))(db.payments[i])
               <= EligibleAmount(id, o, ReleasedAt(after, o.addressId))(after.payments[i])
    ensures EligibleTotal(db, id, o) <= EligibleTotal(after, id, o)
  {
    var n := |db.payments|;
    var f := EligibleAmount(id, o, ReleasedAt(after, o.addressId));
    assert after.payments == after.payments[..n] + after.payments[n..];
    SumAppend(after.payments[..n], after.payments[n..], f);
    SumLe(db.payments, after.payments[..n], EligibleAmount(id, o, ReleasedAt(db, o.addressId)), f);
    SumNonNegative(after.payments[n..], f);
  }

  lemma SumNonNegative(s: seq<Payment>, f: Payment -> int)
    requires forall i :: 0 <= i < |s| ==> f(s[i]) >= 0
    ensures Sum(s, f) >= 0
  {
    SumOfZeros(s);
    SumLe(s, s, (p: Payment) => 0, f);
  }

  /** Orders whose rows did not change stay covered; the recalculated ones are covered anew. */
  lemma RecalculateOrdersCovers(db: Db, ids: set<string>)
    requires forall id :: id in db.orders && id !in ids ==> CoveredOrder(db, id)
    ensures Covered(RecalculateOrders(db, ids))
  {
    var after := RecalculateOrders(db, ids);
    forall id | id in after.orders ensures CoveredOrder(after, id) {
      var o := db.orders[id];
      EligibleTotalFrame(db, after, id, o, after.orders[id]);
      if id in ids {
        RecalculatedIsCovered(o, EligibleTotal(db, id, o));
      } else {
        assert CoveredOrder(db, id);
      }
    }
  }

  lemma CoveredFrame(db: Db, after: Db)
    requires Covered(db)
    requires after.payments == db.payments && after.orders == db.orders
    requires forall a: nat :: ReleasedAt(after, a) == ReleasedAt(db, a)
    ensures Covered(after)
  {
    forall id | id in after.orders ensures CoveredOrder(after, id) {
      assert CoveredOrder(db, id);
      EligibleTotalFrame(db, after, id, db.orders[id], after.orders[id]);
    }
  }

  // ----- Ingest -----

  /** Dust may not move an order's status, so a live dust row must keep the block time it was counted at. */
  ghost predicate SteadyDust(payments: seq<Payment>, rec: Payment) {
    var i := FindPayment(payments, rec.key);
    rec.dust && i < |payments| && !payments[i].status.Orphaned? ==> rec.timestamp == payments[i].timestamp
  }

  lemma UpsertOtherOrder(db: Db, rec: Payment, id: string, o: Order)
    requires UpsertOrder(db.payments, rec) != Some(id)
    ensures EligibleTotal(db.(payments := UpsertRow(db.payments, rec)), id, o) == EligibleTotal(db, id, o)
  {
    UpsertRowShape(db.payments, rec);
    var after := UpsertRow(db.payments, rec);
    var f := EligibleAmount(id, o, ReleasedAt(db, o.addressId));
    var i := FindPayment(db.payments, rec.key);
    if i < |db.payments| {
      SumEq(db.payments, after, f, f);
    } else {
      SumSnoc(db.payments, rec.(confirmedAt := None), f);
    }
  }

  lemma UpsertDustGrows(db: Db, rec: Payment, id: string, o: Order)
    requires rec.dust && SteadyDust(db.payments, rec)
    ensures EligibleTotal(db, id, o) <= EligibleTotal(db.(payments := UpsertRow(db.payments, rec)), id, o)
  {
    UpsertRowShape(db.payments, rec);
    EligibleTotalGrows(db, db.(payments := UpsertRow(db.payments, rec)), id, o);
  }

  lemma UpsertOrderCovered(db: Db, rec: Payment, id: string)
    requires Covered(db) && SteadyDust(db.payments, rec)
    requires id in db.orders
    ensures var stored := db.(payments := UpsertRow(db.payments, rec));
            var order := UpsertOrder(db.payments, rec);
            CoveredOrder(if order.Some? then RecalculateOrder(stored, order.value, !rec.dust) else stored, id)
  {
    var stored := db.(payments := UpsertRow(db.payments, rec));
    var order := UpsertOrder(db.payments, rec);
    var after := if order.Some? then RecalculateOrder(stored, order.value, !rec.dust) else stored;
    var o := db.orders[id];
    assert CoveredOrder(db, id);
    EligibleTotalFrame(stored, after, id, o, after.orders[id]);
    if order == Some(id) {
      RecalculatedIsCovered(o, EligibleTotal(stored, id, o));
      if rec.dust {
        UpsertDustGrows(db, rec, id, o);
      }
    } else {
      UpsertOtherOrder(db, rec, id, o);
    }
  }

  lemma UpsertKeepsCovered(db: Db, rec: Payment)
    requires Covered(db) && SteadyDust(db.payments, rec)
    ensures UpsertPayment(db, rec).Some? ==> Covered(UpsertPayment(db, rec).value)
  {
    if References(db, rec) {
      var stored := db.(payments := UpsertRow(db.payments, rec));
      var order := UpsertOrder(db.payments, rec);
      var ordered := if order.Some? then RecalculateOrder(stored, order.value, !rec.dust) else stored;
      forall id | id in ordered.orders ensures CoveredOrder(ordered, id) {
        UpsertOrderCovered(db, rec, id);
      }
      CoveredFrame(ordered, UpsertPayment(db, rec).value);
    }
  }

  ghost predicate SteadyIngest(db: Db, recs: seq<Payment>)
  {
    forall i :: 0 <= i < |recs| && IngestAll(db, recs[..i]).Some? ==> SteadyDust(IngestAll(db, recs[..i]).value.payments, recs[i])
  }

  lemma {:induction false} IngestKeepsCovered(db: Db, recs: seq<Payment>)
    requires Covered(db) && SteadyIngest(db, recs)
    ensures IngestAll(db, recs).Some? ==> Covered(IngestAll(db, recs).value)
  {
    if recs != [] {
      var front, last := recs[..|recs| - 1], recs[|recs| - 1];
      assert SteadyIngest(db, front) by {
        forall i | 0 <= i < |front| && IngestAll(db, front[..i]).Some?
          ensures SteadyDust(IngestAll(db, front[..i]).value.payments, front[i])
        {
          assert front[..i] == recs[..i];
        }
      }
      IngestKeepsCovered(db, front);
      if IngestAll(db, front).Some? {
        var before := IngestAll(db, front).value;
        assert SteadyDust(before.payments, recs[|front|]);
        assert SteadyDust(before.payments, MatchRecord(before, last));
        UpsertKeepsCovered(before, MatchRecord(before, last));
      }
    }
  }

  lemma CommitKeepsCovered(db: Db, block: Block, depth: int, recs: seq<Payment>)
    requires Covered(db) && SteadyIngest(db.(blocks := db.blocks[block.height := block]), recs)
    ensures var r := CommitBlock(db, block, depth, recs); r.Some? ==> Covered(r.value)
  {
    var inserted := db.(blocks := db.blocks[block.height := block]);
    CoveredFrame(db, inserted);
    IngestKeepsCovered(inserted, recs);
    if CommitBlock(db, block, depth, recs).Some? {
      CoveredFrame(IngestAll(inserted, recs).value, CommitBlock(db, block, depth, recs).value);
    }
  }

  // ----- Rewind and confirmation -----

  lemma RewindKeepsCovered(db: Db, ancestor: int)
    requires Covered(db)
    ensures var r := RewindChain(db, ancestor); r.Some? ==> Covered(r.value)
  {
    var r := RewindChain(db, ancestor);
    if r.Some? {
      var orphaned := db.(payments := OrphanAbove(db.payments, ancestor));
      var ids := OrdersAbove(db.payments, ancestor);
      forall id | id in orphaned.orders && id !in ids ensures CoveredOrder(orphaned, id) {
        assert CoveredOrder(db, id);
        forall i | 0 <= i < |db.payments| && db.payments[i].orderId == Some(id)
          ensures orphaned.payments[i] == db.payments[i]
        {
          assert db.payments[i] in db.payments;
        }
        EligibleTotalGrows(db, orphaned, id, db.orders[id]);
      }
      RecalculateOrdersCovers(orphaned, ids);
      CoveredFrame(RecalculateOrders(orphaned, ids), r.value);
    }
  }

  lemma SettleKeepsCovered(db: Db, required: int, stamp: int)
    requires Covered(db)
    ensures Covered(SettlePayments(db, required, stamp))
  {
    var settled := db.(payments := SettleAll(db, required, stamp));
    var balanced := RecalculateBalances(settled, SettledBalances(db, required));
    var ids := MismatchedOrders(db);
    forall id | id in balanced.orders && id !in ids ensures CoveredOrder(balanced, id) {
      assert CoveredOrder(db, id);
      forall i | 0 <= i < |db.payments| && db.payments[i].orderId == Some(id)
        ensures settled.payments[i].status.Orphaned? == db.payments[i].status.Orphaned?
      {
        assert db.payments[i] in db.payments;
      }
      EligibleTotalGrows(db, balanced, id, db.orders[id]);
    }
    RecalculateOrdersCovers(balanced, ids);
  }

  // ----- Release stamps -----

  /** Every recorded payment carries a block time before the release stamp. */
  ghost predicate StampAfterPayments(payments: seq<Payment>, stamp: int) {
    forall i :: 0 <= i < |payments| ==> payments[i].timestamp < stamp
  }

  /** Closing or reopening an address window keeps totals when no recorded row falls outside it. */
  lemma WindowKeepsTotal(db: Db, addresses: seq<Address>, stamp: int, id: string, o: Order)
    requires |addresses| >= |db.addresses|
    requires o.addressId < |db.addresses|
    requires StampAfterPayments(db.payments, stamp)
    requires forall i :: 0 <= i < |db.addresses| ==>
               addresses[i].releasedAt in {db.addresses[i].releasedAt, Some(stamp), None}
    ensures EligibleTotal(db, id, o) <= EligibleTotal(db.(addresses := addresses), id, o)
  {
    EligibleTotalGrows(db, db.(addresses := addresses), id, o);
  }

  lemma StampKeepsCovered(db: Db, after: Db, stamp: int)
    requires WellFormed(db) && Covered(db)
    requires StampAfterPayments(db.payments, stamp)
    requires after.payments == db.payments && |after.addresses| == |db.addresses|
    requires forall i :: 0 <= i < |db.addresses| ==>
               after.addresses[i].releasedAt in {db.addresses[i].releasedAt, Some(stamp), None}
    requires forall id :: id in after.orders ==> id in db.orders && SameTerms(after.orders[id], db.orders[id])
    requires forall id :: id in after.orders && (after.orders[id].status.Paid? || after.orders[id].status.Confirmed?) ==>
               db.orders[id].status.Paid? || db.orders[id].status.Confirmed?
    ensures Covered(after)
  {
    forall id | id in after.orders ensures CoveredOrder(after, id) {
      assert CoveredOrder(db, id);
      WindowKeepsTotal(db, after.addresses, stamp, id, db.orders[id]);
      EligibleTotalFrame(db.(addresses := after.addresses), after, id, db.orders[id], after.orders[id]);
    }
  }

  predicate SameTerms(r: Order, o: Order) {
    r.addressId == o.addressId && r.asset == o.asset && r.createdAt == o.createdAt
    && r.expected == o.expected && r.received == o.received
  }

  lemma ConfirmKeepsCovered(db: Db, cooldown: int, now: int)
    requires WellFormed(db) && Covered(db)
    requires StampAfterPayments(db.payments, now)
    ensures Covered(ConfirmOrders(db, ConfirmableOrders(db), now, cooldown))
  {
    StampKeepsCovered(db, ConfirmOrders(db, ConfirmableOrders(db), now, cooldown), now);
  }

  lemma SolidifyKeepsCovered(db: Db, height: int, required: int, cooldown: int, now: int)
    requires WellFormed(db) && Covered(db)
    requires StampAfterPayments(db.payments, now)
    ensures var r := ApplySolidifiedHeight(db, height, required, cooldown, now); r.Some? ==> Covered(r.value)
  {
    var raised := Solidified(db, height);
    CoveredFrame(db, raised);
    SettleKeepsCovered(raised, required, now);
    SettleWellFormed(raised, required, now);
    ConfirmKeepsCovered(SettlePayments(raised, required, now), cooldown, now);
  }

  lemma RecalculateOneCovers(db: Db, id: string)
    requires Covered(db)
    ensures Covered(RecalculateOrder(db, id, true))
  {
    if id in db.orders {
      assert RecalculateOrder(db, id, true).orders == RecalculateOrders(db, {id}).orders;
      RecalculateOrdersCovers(db, {id});
    }
  }

  lemma {:induction false} ExpireKeepsCovered(db: Db, ids: seq<string>, now: int, cooldown: int)
    requires WellFormed(db) && Covered(db)
    requires StampAfterPayments(db.payments, now)
    ensures Covered(ExpireAll(db, ids, now, cooldown)) && ExpireAll(db, ids, now, cooldown).payments == db.payments
  {
    if ids != [] {
      var front, id := ids[..|ids| - 1], ids[|ids| - 1];
      ExpireKeepsCovered(db, front, now, cooldown);
      ExpireWellFormed(db, front, now, cooldown);
      var before := ExpireAll(db, front, now, cooldown);
      RecalculateOneCovers(before, id);
      SameReferences(before, RecalculateOrder(before, id, true));
      StampKeepsCovered(RecalculateOrder(before, id, true), ExpireOrder(before, id, now, cooldown), now);
    }
  }

  lemma CancelKeepsCovered(db: Db, id: string, force: bool, cooldown: int, now: int)
    requires WellFormed(db) && Covered(db)
    requires StampAfterPayments(db.payments, now)
    ensures var r := CancelOrder(db, id, force, cooldown, now); r.Some? ==> Covered(r.value)
  {
    if CancelOrder(db, id, force, cooldown, now).Some? {
      StampKeepsCovered(db, CancelOrder(db, id, force, cooldown, now).value, now);
    }
  }

  lemma ExtendKeepsCovered(db: Db, id: string, ttl: int, maxLifetime: int)
    requires WellFormed(db) && Covered(db)
    ensures var r := ExtendOrder(db, id, ttl, maxLifetime); r.Some? ==> Covered(r.value)
  {
    if ExtendOrder(db, id, ttl, maxLifetime).Some? {
      var after := ExtendOrder(db, id, ttl, maxLifetime).value;
      forall k | k in after.orders ensures CoveredOrder(after, k) {
        assert CoveredOrder(db, k);
        EligibleTotalFrame(db, after, k, db.orders[k], after.orders[k]);
      }
    }
  }

  lemma ReopenKeepsCovered(db: Db, addresses: seq<Address>)
    requires WellFormed(db) && Covered(db)
    requires |addresses| >= |db.addresses|
    requires forall i :: 0 <= i < |db.addresses| ==> addresses[i].releasedAt in {db.addresses[i].releasedAt, None}
    ensures Covered(db.(addresses := addresses))
  {
    var after := db.(addresses := addresses);
    forall id | id in after.orders ensures CoveredOrder(after, id) {
      assert CoveredOrder(db, id);
      EligibleTotalGrows(db, after, id, db.orders[id]);
    }
  }

  lemma CreateKeepsCovered(db: Db, id: string, draft: Order, derive: nat -> Option<string>, poolMax: int)
    requires WellFormed(db) && Covered(db)
    ensures var r := CreateOrder(db, id, draft, derive, poolMax); r.Some? ==> Covered(r.value)
  {
    var r := CreateOrder(db, id, draft, derive, poolMax);
    if r.Some? {
      ReopenKeepsCovered(db, r.value.addresses);
      var reopened := db.(addresses := r.value.addresses);
      forall k | k in r.value.orders ensures CoveredOrder(r.value, k) {
        if k != id {
          assert CoveredOrder(reopened, k);
          EligibleTotalFrame(reopened, r.value, k, db.orders[k], db.orders[k]);
        }
      }
    }
  }

  // ----- Fees -----

  /** Outgoing rows count toward no order. */
  lemma OutgoingRowsKeepCovered(db: Db, after: Db)
    requires Covered(db)
    requires after.orders == db.orders && after.addresses == db.addresses
    requires |after.payments| >= |db.payments|
    requires forall i :: 0 <= i < |db.payments| ==>
               after.payments[i] == db.payments[i] || (after.payments[i].direction.Out? && db.payments[i].direction.Out?)
    ensures Covered(after)
  {
    forall id | id in after.orders ensures CoveredOrder(after, id) {
      assert CoveredOrder(db, id);
      EligibleTotalGrows(db, after, id, db.orders[id]);
    }
  }

  // ----- Manual attribution -----

  /**
   What manual attribution needs before it takes a row: the row belongs to no other order, or to one that is
   neither paid nor confirmed, or does not count toward it, or leaves the order recorded total backed without it.
   An unattributed row can carry an order, because an upsert never rewrites order_id.
   */
  predicate Detachable(db: Db, payment: nat, order: string)
    requires payment < |db.payments|
  {
    var p := db.payments[payment];
    p.orderId.None? || p.orderId == Some(order) || p.orderId.value !in db.orders ||
    (var o := db.orders[p.orderId.value];
     || !(o.status.Paid? || o.status.Confirmed?)
     || !Eligible(p, p.orderId.value, o, ReleasedAt(db, o.addressId))
     || o.received + p.amount <= EligibleTotal(db, p.orderId.value, o))
  }

  /** Attribution moves one row's amount out of its old order and leaves every third order alone. */
  lemma AttributionMoves(db: Db, payment: nat, order: string, id: string)
    requires AttributePayment(db, payment, order).Some?
    requires id in db.orders && id != order
    ensures var after := AttributePayment(db, payment, order).value;
            var o := db.orders[id];
            after.orders[id] == o && EligibleTotal(after, id, o)
            == EligibleTotal(db, id, o) - EligibleAmount(id, o, ReleasedAt(db, o.addressId))(db.payments[payment])
  {
    var after := AttributePayment(db, payment, order).value;
    var o := db.orders[id];
    SumUpdate(db.payments, payment, after.payments[payment], EligibleAmount(id, o, ReleasedAt(db, o.addressId)));
  }

  lemma AttributedOrderCovered(db: Db, payment: nat, order: string)
    requires AttributePayment(db, payment, order).Some?
    ensures CoveredOrder(AttributePayment(db, payment, order).value, order)
  {
    var after := AttributePayment(db, payment, order).value;
    var p := db.payments[payment];
    var stored := db.(payments := after.payments);
    var o := db.orders[order];
    EligibleTotalFrame(stored, after, order, o, after.orders[order]);
    RecalculatedIsCovered(o, EligibleTotal(stored, order, o));
  }

  /** Manual attribution keeps every order covered exactly when the row can be detached from its old order. */
  lemma AttributionKeepsCoveredIff(db: Db, payment: nat, order: string)
    requires Covered(db)
    requires AttributePayment(db, payment, order).Some?
    ensures Covered(AttributePayment(db, payment, order).value) <==> Detachable(db, payment, order)
  {
    var after := AttributePayment(db, payment, order).value;
    var p := db.payments[payment];
    AttributedOrderCovered(db, payment, order);
    forall id | id in db.orders && id != order
      ensures CoveredOrder(after, id) <==> (p.orderId == Some(id) ==> Detachable(db, payment, order))
    {
      assert CoveredOrder(db, id);
      AttributionMoves(db, payment, order, id);
    }
    if Covered(after) && p.orderId.Some? && p.orderId.value in db.orders && p.orderId.value != order {
      assert CoveredOrder(after, p.orderId.value);
    }
    if Detachable(db, payment, order) {
      forall id | id in after.orders ensures CoveredOrder(after, id) {
        assert id in db.orders;
      }
    }
  }

  // ----- Every run -----

  /** What settlement asks of an event: release stamps follow block times, and attribution detaches no counted row. */
  ghost predicate Orderly(db: Db, ev: Event) {
    match ev
    case Commit(block, _, records) => SteadyIngest(db.(blocks := db.blocks[block.height := block]), records)
    case Reconcile(records) => SteadyIngest(db, records)
    case Solidify(_, _, _, now) => StampAfterPayments(db.payments, now)
    case Expire(_, now, _) => StampAfterPayments(db.payments, now)
    case Cancel(_, _, _, now) => StampAfterPayments(db.payments, now)
    case Attribute(payment, order) => payment < |db.payments| ==> Detachable(db, payment, order)
    case GrantReceipt(txid, _, _, _, _, _, _) =>
      forall i :: 0 <= i < |db.payments| && db.payments[i].key == PaymentKey(txid, 0) ==> db.payments[i].direction.Out?
    case _ => true
  }

  ghost predicate OrderlyRun(db: Db, evs: seq<Event>) {
    forall i :: 0 <= i < |evs| ==> Orderly(Run(db, evs[..i]), evs[i])
  }

  lemma ChainKeepsCovered(db: Db, ev: Event)
    requires WellFormed(db) && Covered(db) && Orderly(db, ev)
    requires ev.Commit? || ev.Rewind? || ev.Suspect? || ev.ClearSuspicion? || ev.Solidify? || ev.Reconcile?
    ensures Covered(Apply(db, ev))
  {
    match ev
    case Commit(block, depth, records) => CommitKeepsCovered(db, block, depth, records);
    case Rewind(ancestor) => RewindKeepsCovered(db, ancestor);
    case Suspect(height) => CoveredFrame(db, Apply(db, ev));
    case ClearSuspicion => CoveredFrame(db, Apply(db, ev));
    case Solidify(height, required, cooldown, now) => SolidifyKeepsCovered(db, height, required, cooldown, now);
    case Reconcile(records) => IngestKeepsCovered(db, records);
  }

  lemma PoolKeepsCovered(db: Db, ev: Event)
    requires WellFormed(db) && Covered(db)
    requires ev.Create? || ev.TopUp? || ev.Release? || ev.Disable?
    ensures Covered(Apply(db, ev))
  {
    match ev
    case Create(id, draft, derive, poolMax) => CreateKeepsCovered(db, id, draft, derive, poolMax);
    case TopUp(derive, minFree, target, poolMax) =>
      TopUpStepsGrow(db.addresses, derive, TopUpCount(db.addresses, target, poolMax));
      ReopenKeepsCovered(db, Apply(db, ev).addresses);
    case Release(now) => ReopenKeepsCovered(db, Apply(db, ev).addresses);
    case Disable(address) => ReopenKeepsCovered(db, Apply(db, ev).addresses);
  }

  lemma FeeKeepsCovered(db: Db, txid: string, height: int, timestamp: int, a: nat, fee: nat, now: int)
    requires Covered(db)
    ensures var r := RecordFee(db, txid, height, timestamp, a, fee, now); r.Some? ==> Covered(r.value)
  {
    if RecordFee(db, txid, height, timestamp, a, fee, now).Some? {
      OutgoingRowsKeepCovered(db, RecordFee(db, txid, height, timestamp, a, fee, now).value);
    }
  }

  lemma ReceiptGrows(db: Db, txid: string, fee: nat, topup: Option<(string, nat)>, height: int, timestamp: int, wallet: nat, now: int)
    ensures |ReceiptPayments(db, txid, fee, topup, height, timestamp, wallet, now)| >= |db.payments|
  {
  }

  lemma GrantReceiptKeepsCovered(db: Db, txid: string, fee: nat, topup: Option<(string, nat)>, height: int, timestamp: int,
                                 wallet: nat, now: int)
    requires Covered(db)
    requires forall i :: 0 <= i < |db.payments| && db.payments[i].key == PaymentKey(txid, 0) ==> db.payments[i].direction.Out?
    ensures var r := RecordGrantReceipt(db, txid, fee, topup, height, timestamp, wallet, now); r.Some? ==> Covered(r.value)
  {
    var r := RecordGrantReceipt(db, txid, fee, topup, height, timestamp, wallet, now);
    if r.Some? {
      ReceiptShape(db, txid, fee, topup, height, timestamp, wallet, now);
      forall i | 0 <= i < |db.payments|
        ensures i < |r.value.payments|
                && (r.value.payments[i] == db.payments[i] || (r.value.payments[i].direction.Out? && db.payments[i].direction.Out?))
      {
        ReceiptRows(db, txid, fee, topup, height, timestamp, wallet, now, i);
      }
      ReceiptGrows(db, txid, fee, topup, height, timestamp, wallet, now);
      OutgoingRowsKeepCovered(db, r.value);
    }
  }

  /** One orderly transaction keeps every paid or confirmed order covered. */
  lemma ApplyKeepsCovered(db: Db, ev: Event)
    requires WellFormed(db) && Covered(db) && Orderly(db, ev)
    ensures Covered(Apply(db, ev))
  {
    match ev
    case Attribute(payment, order) =>
      if Attempt(db, ev).Some? { AttributionKeepsCoveredIff(db, payment, order); }
    case Expire(ids, now, cooldown) => ExpireKeepsCovered(db, ids, now, cooldown);
    case Cancel(id, force, cooldown, now) => CancelKeepsCovered(db, id, force, cooldown, now);
    case Extend(id, ttl, maxLifetime) => ExtendKeepsCovered(db, id, ttl, maxLifetime);
    case Fee(txid, height, timestamp, a, fee, now) => FeeKeepsCovered(db, txid, height, timestamp, a, fee, now);
    case GrantReceipt(txid, fee, topup, height, timestamp, wallet, now) =>
      GrantReceiptKeepsCovered(db, txid, fee, topup, height, timestamp, wallet, now);
    case _ =>
      if ev.Create? || ev.TopUp? || ev.Release? || ev.Disable? {
        PoolKeepsCovered(db, ev);
      } else {
        ChainKeepsCovered(db, ev);
      }
  }

  lemma {:induction false} RunKeepsCovered(db: Db, evs: seq<Event>)
    requires WellFormed(db) && Covered(db) && OrderlyRun(db, evs)
    ensures Covered(Run(db, evs))
  {
    if evs != [] {
      var front := evs[..|evs| - 1];
      assert OrderlyRun(db, front) by {
        forall i | 0 <= i < |front| ensures Orderly(Run(db, front[..i]), front[i]) {
          assert front[..i] == evs[..i];
        }
      }
      RunKeepsCovered(db, front);
      RunWellFormed(db, front);
      ApplyKeepsCovered(Run(db, front), evs[|evs| - 1]);
    }
  }

  /** Cooling the address of a confirmed order closes its window after every row it counts. */
  lemma CoolingKeepsConfirmedMoney(db: Db, id: string, cooldown: int, now: int)
    requires WellFormed(db) && id in db.orders
    requires StampAfterPayments(db.payments, now)
    ensures var after := ConfirmOrders(db, ConfirmableOrders(db), now, cooldown);
            ConfirmedTotalOf(after, id, after.orders[id]) >= ConfirmedTotalOf(db, id, db.orders[id])
  {
    var after := ConfirmOrders(db, ConfirmableOrders(db), now, cooldown);
    var o, r := db.orders[id], after.orders[id];
    SumLe(db.payments, after.payments, ConfirmedAmount(id, o, ReleasedAt(db, o.addressId)),
          ConfirmedAmount(id, r, ReleasedAt(after, o.addressId)));
  }

  /** An order that the promotion pass confirms is covered by confirmed money, before and after its address cools. */
  lemma PromotionIsFunded(db: Db, cooldown: int, now: int, id: string)
    requires WellFormed(db) && Covered(db)
    requires StampAfterPayments(db.payments, now)
    requires id in ConfirmableOrders(db)
    ensures var after := ConfirmOrders(db, ConfirmableOrders(db), now, cooldown);
            id in after.orders && after.orders[id].status.Confirmed?
            && ConfirmedTotalOf(after, id, after.orders[id]) >= after.orders[id].expected
  {
    ConfirmableIsCovered(db, id);
    CoolingKeepsConfirmedMoney(db, id, cooldown, now);
  }

  lemma SettlingKeepsTimes(db: Db, required: int, stamp: int)
    requires StampAfterPayments(db.payments, stamp)
    ensures StampAfterPayments(SettlePayments(db, required, stamp).payments, stamp)
  {
    var rows := SettlePayments(db, required, stamp).payments;
    assert rows == SettleAll(db, required, stamp);
  }

  lemma SettledStateIsCovered(db: Db, height: int, required: int, now: int)
    requires WellFormed(db) && Covered(db)
    requires StampAfterPayments(db.payments, now)
    ensures var settled := SettlePayments(Solidified(db, height), required, now);
            WellFormed(settled) && Covered(settled) && StampAfterPayments(settled.payments, now)
  {
    SettlingKeepsTimes(Solidified(db, height), required, now);
    CoveredFrame(db, Solidified(db, height));
    SettleKeepsCovered(Solidified(db, height), required, now);
    SettleWellFormed(Solidified(db, height), required, now);
  }

  /** The tick's promotion pass confirms this order. */
  predicate Promoted(db: Db, height: int, required: int, cooldown: int, now: int, id: string) {
    ApplySolidifiedHeight(db, height, required, cooldown, now).Some?
    && id in ConfirmableOrders(SettlePayments(Solidified(db, height), required, now))
  }

  lemma TickIsFunded(db: Db, height: int, required: int, cooldown: int, now: int, id: string)
    requires WellFormed(db) && Covered(db) && StampAfterPayments(db.payments, now)
    ensures Promoted(db, height, required, cooldown, now, id) ==>
              var after := ApplySolidifiedHeight(db, height, required, cooldown, now).value;
              id in after.orders && after.orders[id].status.Confirmed?
              && ConfirmedTotalOf(after, id, after.orders[id]) >= after.orders[id].expected
  {
    if Promoted(db, height, required, cooldown, now, id) {
      SettledStateIsCovered(db, height, required, now);
      var settled := SettlePayments(Solidified(db, height), required, now);
      assert ApplySolidifiedHeight(db, height, required, cooldown, now) == Some(ConfirmOrders(settled, ConfirmableOrders(settled), now, cooldown));
      PromotionIsFunded(settled, cooldown, now, id);
    }
  }

  /** Whenever a run's next confirmation tick confirms an order, confirmed money covers what the order expects. */
  lemma ConfirmedOrdersAreFunded(db: Db, evs: seq<Event>, height: int, required: int, cooldown: int, now: int, id: string)
    requires WellFormed(db) && Covered(db) && OrderlyRun(db, evs)
    ensures StampAfterPayments(Run(db, evs).payments, now) && Promoted(Run(db, evs), height, required, cooldown, now, id) ==>
              var after := ApplySolidifiedHeight(Run(db, evs), height, required, cooldown, now).value;
              id in after.orders && after.orders[id].status.Confirmed?
              && ConfirmedTotalOf(after, id, after.orders[id]) >= after.orders[id].expected
  {
    RunKeepsCovered(db, evs);
    RunWellFormed(db, evs);
    if StampAfterPayments(Run(db, evs).payments, now) {
      TickIsFunded(Run(db, evs), height, required, cooldown, now, id);
    }
  }
}
