/**
 What the order transactions do, read off the tables before them: the money an order counts, how it is matched,
 created, attributed, cancelled and expired.
 */
module OrderOutcomes {
  import opened Prelude
  import opened Tables
  import opened Ledger
  import opened Integrity

  // ----- The money of an order -----

  /** A live incoming row of the order, at the order's own address, in its asset and inside its payment window. */
  predicate CountsFor(p: Payment, id: string, o: Order, releasedAt: Option<int>) {
    && p.orderId == Some(id) && p.addressId == Some(o.addressId) && p.status != Orphaned && p.direction == In && p.asset == o.asset
    && o.createdAt <= p.timestamp && (releasedAt.Some? ==> p.timestamp < releasedAt.value)
  }

  function Counted(id: string, o: Order, releasedAt: Option<int>): Payment -> int {
    (p: Payment) => if CountsFor(p, id, o, releasedAt) then p.amount else 0
  }

  /** What an order has received so far. */
  function Money(db: Db, id: string, o: Order): int {
    Sum(db.payments, Counted(id, o, ReleasedAt(db, o.addressId)))
  }

  lemma EligibleIsMoney(db: Db, id: string, o: Order)
    ensures EligibleTotal(db, id, o) == Money(db, id, o) >= 0
  {
    var released := ReleasedAt(db, o.addressId);
    SumEq(db.payments, db.payments, EligibleAmount(id, o, released), Counted(id, o, released));
    SumOfZeros(db.payments);
    SumLe(db.payments, db.payments, (p: Payment) => 0, Counted(id, o, released));
  }

  /** The status that money alone gives an order that is still open or may reopen. */
  function FundedAs(o: Order, money: int): OrderStatus {
    if o.expected <= money then OrderStatus.Paid else if money == 0 then OrderStatus.Pending else OrderStatus.Partial
  }

  predicate MayMove(status: OrderStatus) {
    status in {OrderStatus.Pending, OrderStatus.Partial, OrderStatus.Paid, OrderStatus.Confirmed}
  }

  /** Recalculation records the money, and moves the status of an order that is not closed, unless dust must not. */
  lemma RecalculationFollowsMoney(db: Db, id: string, allow: bool)
    requires id in db.orders
    ensures var o, r, money := db.orders[id], RecalculateOrder(db, id, allow), Money(db, id, db.orders[id]);
            && r == db.(orders := db.orders[id := o.(received := money, overpaid := if money > o.expected then money - o.expected else 0,
                                                     status := if allow && MayMove(o.status) then FundedAs(o, money) else o.status)])
  {
    EligibleIsMoney(db, id, db.orders[id]);
  }

  // ----- Matching -----

  /** The order an address serves, if it still takes payments of this asset at this time. */
  predicate Serves(db: Db, a: nat, id: string, asset: string, timestamp: int) {
    && a < |db.addresses| && db.addresses[a].assignedOrder == Some(id) && id in db.orders
    && db.orders[id].status in {OrderStatus.Pending, OrderStatus.Partial, OrderStatus.Paid}
    && db.orders[id].asset == asset
    && db.orders[id].createdAt <= timestamp && (db.addresses[a].releasedAt.Some? ==> timestamp < db.addresses[a].releasedAt.value)
  }

  /** An incoming record goes to the order its address serves; without one it is kept unattributed. */
  lemma IncomingIsMatched(db: Db, rec: Payment)
    requires rec.direction == In && rec.addressId.Some?
    ensures var r := MatchRecord(db, rec);
            && (forall id :: Serves(db, rec.addressId.value, id, rec.asset, rec.timestamp) ==> r == rec.(orderId := Some(id)))
            && ((forall id :: !Serves(db, rec.addressId.value, id, rec.asset, rec.timestamp)) ==>
                  r == rec.(orderId := None, status := Unattributed, reason := r.reason) && r.reason.Some?)
  {
    var a := rec.addressId.value;
    if AttributionOrder(db, a).Some? {
      var id := AttributionOrder(db, a).value;
      assert MatchRecord(db, rec).orderId.Some? ==> Serves(db, a, id, rec.asset, rec.timestamp);
    }
  }

  /** Why it is kept: no open order, else another asset, else outside the window. */
  lemma UnmatchedReason(db: Db, rec: Payment, id: string)
    requires rec.direction == In && rec.addressId.Some? && rec.addressId.value < |db.addresses|
    requires db.addresses[rec.addressId.value].assignedOrder == Some(id) && id in db.orders
    requires !Serves(db, rec.addressId.value, id, rec.asset, rec.timestamp)
    ensures MatchRecord(db, rec).reason ==
            Some(if db.orders[id].status !in {OrderStatus.Pending, OrderStatus.Partial, OrderStatus.Paid} then NoActiveOrder
                 else if db.orders[id].asset != rec.asset then AssetMismatch else OutsideWindow)
  {
  }

  /** A new key adds the record, unconfirmed; a known one moves to the new block, and comes back only from orphaned. */
  lemma SightingIsStored(payments: seq<Payment>, rec: Payment)
    requires DistinctKeys(payments)
    ensures var r := UpsertRow(payments, rec);
            && ((forall i :: 0 <= i < |payments| ==> payments[i].key != rec.key) ==> r == payments + [rec.(confirmedAt := None)])
            && forall i :: 0 <= i < |payments| && payments[i].key == rec.key ==>
                 var p := payments[i];
                 r == payments[i := p.(height := rec.height, blockId := rec.blockId, timestamp := rec.timestamp, reason := rec.reason,
                                       status := if p.status == Orphaned then rec.status else p.status)]
  {
    forall i | 0 <= i < |payments| && payments[i].key == rec.key ensures FindPayment(payments, rec.key) == i {
    }
  }

  // ----- Rewinding -----

  /** A row that a balance counts: the address's own, or one sent to it from an owned address. */
  predicate Moves(db: Db, p: Payment, k: BalanceKey) {
    p.asset == k.1 && (p.addressId == Some(k.0) || (p.direction == Out && Owner(db.addresses, p.to) == Some(k.0)))
  }

  /** A rewind leaves alone the orders that no row above the ancestor belongs to. */
  lemma RewindLeavesOtherOrders(db: Db, ancestor: int, id: string)
    requires RewindChain(db, ancestor).Some? && id in db.orders
    requires forall i :: 0 <= i < |db.payments| && db.payments[i].height > ancestor ==> db.payments[i].orderId != Some(id)
    ensures var after := RewindChain(db, ancestor).value; id in after.orders && after.orders[id] == db.orders[id]
  {
    assert id !in OrdersAbove(db.payments, ancestor);
  }

  /** Nor does it move a balance that counts no row above the ancestor. */
  lemma RewindLeavesOtherBalances(db: Db, ancestor: int, k: BalanceKey)
    requires RewindChain(db, ancestor).Some? && k in db.balances
    requires forall i :: 0 <= i < |db.payments| && db.payments[i].height > ancestor ==> !Moves(db, db.payments[i], k)
    ensures var after := RewindChain(db, ancestor).value; k in after.balances && after.balances[k] == db.balances[k]
  {
    forall p | p in db.payments && k in Touched(db, p) ensures Moves(db, p, k) {
    }
    assert k !in BalancesAbove(db, ancestor);
  }

  // ----- Creation and attribution -----

  /** A new order starts unpaid at one address, which takes payments for it alone from then on. */
  lemma CreationServes(db: Db, id: string, order: Order, derive: nat -> Option<string>, poolMax: int)
    requires CreateOrder(db, id, order, derive, poolMax).Some?
    ensures var after := CreateOrder(db, id, order, derive, poolMax).value;
            && id !in db.orders && id in after.orders
            && var a := after.orders[id].addressId;
               && after.orders == db.orders[id := order.(addressId := a, received := 0, overpaid := 0, status := OrderStatus.Pending)]
               && a < |after.addresses| && (a < |db.addresses| ==> db.addresses[a].state == Free && |after.addresses| == |db.addresses|)
               && |db.addresses| <= |after.addresses|
               && after.addresses[a].state == Assigned && after.addresses[a].assignedOrder == Some(id) && after.addresses[a].releasedAt == None
               && (forall i :: 0 <= i < |db.addresses| && i != a ==> after.addresses[i] == db.addresses[i])
               && after == db.(orders := after.orders, addresses := after.addresses)
  {
  }

  /** Only an unattributed row can be attributed; it counts as seen or confirmed as its confirmation says. */
  lemma AttributionTakesTheRow(db: Db, payment: nat, order: string)
    ensures AttributePayment(db, payment, order).Some? <==>
              order in db.orders && payment < |db.payments| && db.payments[payment].status == Unattributed
    ensures AttributePayment(db, payment, order).Some? ==>
              var p := db.payments[payment];
              AttributePayment(db, payment, order).value.payments
              == db.payments[payment := p.(orderId := Some(order), status := if p.confirmedAt == None then PaymentStatus.Seen else PaymentStatus.Confirmed)]
  {
  }

  // ----- Cooling -----

  /** An assigned address stops taking payments now and is held back for the cooldown. */
  ghost predicate Cools(addresses: seq<Address>, after: seq<Address>, a: nat, now: int, cooldown: int) {
    && |after| == |addresses|
    && (forall i :: 0 <= i < |addresses| && i != a ==> after[i] == addresses[i])
    && (a < |addresses| ==>
          after[a] == if addresses[a].state == Assigned
                      then addresses[a].(state := Cooling, releasedAt := Some(now), coolingUntil := Some(now + cooldown)) else addresses[a])
  }

  // ----- Cancellation -----

  /** An order that is not closed can be cancelled, without force only while nothing is paid; received money shows. */
  lemma CancellationOutcome(db: Db, id: string, force: bool, cooldown: int, now: int)
    ensures CancelOrder(db, id, force, cooldown, now).Some? <==>
              id in db.orders && MayMove(db.orders[id].status) && (force || db.orders[id].status == OrderStatus.Pending)
    ensures CancelOrder(db, id, force, cooldown, now).Some? ==>
              var o, after := db.orders[id], CancelOrder(db, id, force, cooldown, now).value;
              && after.orders == db.orders[id := o.(status := if o.received > 0 then CancelledFunded else Cancelled)]
              && Cools(db.addresses, after.addresses, o.addressId, now, cooldown)
              && after == db.(orders := after.orders, addresses := after.addresses)
  {
  }

  // ----- Expiry -----

  predicate Waits(o: Order) {
    o.status == OrderStatus.Pending || o.status == OrderStatus.Partial
  }

  /** The row of a due order after its expiry: paid after all, or expired, with what it received on record. */
  predicate ExpiredAs(o: Order, r: Order, money: int) {
    && r == o.(received := money, overpaid := r.overpaid, status := r.status)
    && r.overpaid == (if money > o.expected then money - o.expected else 0)
    && r.status == (if o.expected <= money then OrderStatus.Paid else if money > 0 then ExpiredFunded else Expired)
  }

  /** A waiting order whose money covers it is paid; any other expires, and its address cools. */
  lemma ExpiryOutcome(db: Db, id: string, now: int, cooldown: int)
    requires id in db.orders && Waits(db.orders[id])
    ensures var o, after, money := db.orders[id], ExpireOrder(db, id, now, cooldown), Money(db, id, db.orders[id]);
            && after == db.(orders := after.orders, addresses := after.addresses)
            && id in after.orders && after.orders == db.orders[id := after.orders[id]] && ExpiredAs(o, after.orders[id], money)
            && (if o.expected <= money then after.addresses == db.addresses
                else Cools(db.addresses, after.addresses, o.addressId, now, cooldown))
  {
    RecalculationFollowsMoney(db, id, true);
    EligibleIsMoney(db, id, db.orders[id]);
  }

  lemma OthersStay(db: Db, id: string, other: string, now: int, cooldown: int)
    requires other != id && other in db.orders
    ensures var after := ExpireOrder(db, id, now, cooldown);
            other in after.orders && after.orders[other] == db.orders[other] && after.payments == db.payments
  {
  }

  /** The row of an order after a pass: as it was, or as its expiry left it. */
  predicate Passed(o: Order, r: Order, due: bool) {
    if due then ExpiredAs(o, r, r.received) else r == o
  }

  lemma {:induction false} PassOver(db: Db, ids: seq<string>, now: int, cooldown: int, id: string)
    requires id in db.orders && (id in ids ==> Waits(db.orders[id]))
    requires forall i, j :: 0 <= i < j < |ids| ==> ids[i] != ids[j]
    ensures var after := ExpireAll(db, ids, now, cooldown);
            id in after.orders && Passed(db.orders[id], after.orders[id], id in ids)
  {
    if ids != [] {
      var front, last := ids[..|ids| - 1], ids[|ids| - 1];
      PassOver(db, front, now, cooldown, id);
      var before := ExpireAll(db, front, now, cooldown);
      if last == id {
        assert id !in front;
        ExpiryOutcome(before, id, now, cooldown);
        assert ExpiredAs(db.orders[id], ExpireAll(db, ids, now, cooldown).orders[id], Money(before, id, before.orders[id]));
      } else {
        OthersStay(before, last, id, now, cooldown);
        assert id in ids <==> id in front;
      }
    }
  }

  /** The expiry pass settles exactly the waiting orders whose deadline has come, and leaves every other order alone. */
  lemma ExpiryTouchesExactlyTheDue(db: Db, ids: seq<string>, now: int, cooldown: int, id: string)
    requires DueListing(db, ids, now) && id in db.orders
    ensures var after := ExpireAll(db, ids, now, cooldown);
            id in after.orders && Passed(db.orders[id], after.orders[id], Waits(db.orders[id]) && db.orders[id].expiresAt <= now)
  {
    assert id in ids <==> Due(db, id, now);
    PassOver(db, ids, now, cooldown, id);
  }
}
