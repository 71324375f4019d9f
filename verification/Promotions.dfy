/**
 What a confirmation tick does, read off the tables before it: which payment rows become irreversible, which are
 contradicted by the chain, and which paid orders are confirmed.
 */
module Promotions {
  import opened Prelude
  import opened Tables
  import opened Ledger
  import opened Integrity
  import OrderOutcomes

  // ----- The chain below the cursor -----

  /** Every height from h to last is stored, and each block names the one below it as its parent. */
  ghost predicate OnTheRun(blocks: map<int, Block>, h: int, last: int) {
    && h <= last
    && (forall k :: h <= k <= last ==> k in blocks)
    && (forall k :: h < k <= last ==> blocks[k].parent == blocks[k - 1].id)
  }

  /** The recursive query reaches exactly the heights on the parent-linked run that ends at its start. */
  lemma {:induction false} CanonicalIsTheRun(blocks: map<int, Block>, h: int, last: int)
    ensures h in Canonical(blocks, last) <==> OnTheRun(blocks, h, last)
    decreases last - h
  {
    if h < last && last in blocks && last - 1 in blocks && blocks[last].parent == blocks[last - 1].id {
      CanonicalIsTheRun(blocks, h, last - 1);
      assert Canonical(blocks, last) == {last} + Canonical(blocks, last - 1);
      assert OnTheRun(blocks, h, last - 1) ==> OnTheRun(blocks, h, last);
    } else if h < last && last in blocks && last - 1 in blocks {
      assert blocks[last].parent != blocks[last - 1].id;
    }
  }

  // ----- Rows -----

  /** A row whose money the chain could still take back. */
  predicate Open(p: Payment) {
    p.status == PaymentStatus.Seen || (p.status == Unattributed && p.confirmedAt == None)
  }

  /** The solidified height never moves back. */
  function Raised(c: Cursor, height: int): int {
    if height > c.solidified then height else c.solidified
  }

  /**
   A row in solid history, deep enough below the cursor and below any suspicion, whose block is the stored one on
   the run to the cursor, or lies below all stored blocks.
   */
  ghost predicate Irreversible(db: Db, p: Payment, height: int, required: int)
    requires db.cursor.Some?
  {
    var c := db.cursor.value;
    && p.height <= Raised(c, height)
    && p.height + required <= c.last
    && (c.suspectedFrom.Some? ==> p.height < c.suspectedFrom.value)
    && ((OnTheRun(db.blocks, p.height, c.last) && db.blocks[p.height].id == p.blockId)
        || (db.blocks != map[] && forall h :: h in db.blocks ==> p.height < h))
  }

  /** A row in solid history whose height is stored with another block. */
  predicate Contradicted(db: Db, p: Payment, height: int)
    requires db.cursor.Some?
  {
    p.height <= Raised(db.cursor.value, height) && p.height in db.blocks && db.blocks[p.height].id != p.blockId
  }

  /** The row as a tick leaves it. */
  ghost predicate SettledAs(db: Db, p: Payment, q: Payment, height: int, required: int, now: int)
    requires db.cursor.Some?
  {
    if Open(p) && Irreversible(db, p, height, required) then
      q == p.(confirmedAt := Some(now), status := if p.status == PaymentStatus.Seen then PaymentStatus.Confirmed else Unattributed)
    else if Open(p) && Contradicted(db, p, height) then q == p.(confirmedAt := None, status := Orphaned)
    else q == p
  }

  lemma TickSucceeds(db: Db, height: int, required: int, cooldown: int, now: int)
    ensures ApplySolidifiedHeight(db, height, required, cooldown, now).Some? <==> height >= 0 && required > 0 && db.cursor.Some?
  {
  }

  lemma PromotableIsIrreversible(db: Db, p: Payment, height: int, required: int)
    requires db.cursor.Some?
    ensures Promotable(Solidified(db, height), p, required) <==> Open(p) && Irreversible(db, p, height, required)
  {
    CanonicalIsTheRun(db.blocks, p.height, db.cursor.value.last);
  }

  /** A tick confirms exactly the open rows that are irreversible, orphans exactly the contradicted ones, and keeps the rest. */
  lemma TickSettlesExactly(db: Db, height: int, required: int, cooldown: int, now: int, i: nat)
    requires height >= 0 && required > 0 && db.cursor.Some? && i < |db.payments|
    ensures var after := ApplySolidifiedHeight(db, height, required, cooldown, now);
            && after.Some? && |after.value.payments| == |db.payments|
            && SettledAs(db, db.payments[i], after.value.payments[i], height, required, now)
  {
    TickSucceeds(db, height, required, cooldown, now);
    SolidifyShape(db, height, required, cooldown, now);
    PromotableIsIrreversible(db, db.payments[i], height, required);
  }

  // ----- Orders -----

  /** A live incoming row of the order, in its asset and inside its payment window. */
  predicate PaysFor(p: Payment, id: string, o: Order, releasedAt: Option<int>) {
    && p.orderId == Some(id) && p.status != Orphaned && p.direction == In && p.asset == o.asset
    && o.createdAt <= p.timestamp && (releasedAt.Some? ==> p.timestamp < releasedAt.value)
  }

  /** Some row pays for the order, and all that do are confirmed. */
  ghost predicate FullyConfirmed(rows: seq<Payment>, id: string, o: Order, releasedAt: Option<int>) {
    && (exists i :: 0 <= i < |rows| && PaysFor(rows[i], id, o, releasedAt))
    && (forall i :: 0 <= i < |rows| && PaysFor(rows[i], id, o, releasedAt) ==> rows[i].status == PaymentStatus.Confirmed)
  }

  lemma ConfirmableIsFullyConfirmed(db: Db, id: string)
    requires id in db.orders
    ensures Confirmable(db, id) <==>
              db.orders[id].status == OrderStatus.Paid
              && FullyConfirmed(db.payments, id, db.orders[id], ReleasedAt(db, db.orders[id].addressId))
  {
    var o := db.orders[id];
    var released := ReleasedAt(db, o.addressId);
    if Confirmable(db, id) {
      var p :| p in db.payments && Inspected(p, id, o, released);
      var i :| 0 <= i < |db.payments| && db.payments[i] == p;
      assert PaysFor(db.payments[i], id, o, released);
      forall i | 0 <= i < |db.payments| && PaysFor(db.payments[i], id, o, released) ensures db.payments[i].status.Confirmed? {
        assert db.payments[i] in db.payments && Inspected(db.payments[i], id, o, released);
      }
    } else if FullyConfirmed(db.payments, id, o, released) {
      var i :| 0 <= i < |db.payments| && PaysFor(db.payments[i], id, o, released);
      assert db.payments[i] in db.payments && Inspected(db.payments[i], id, o, released);
    }
  }

  /** None of the order's rows is taken back by this tick. */
  ghost predicate NoneContradicted(db: Db, id: string, height: int)
    requires db.cursor.Some?
  {
    forall i :: 0 <= i < |db.payments| && db.payments[i].orderId == Some(id) && Open(db.payments[i]) ==>
                  !Contradicted(db, db.payments[i], height)
  }

  /**
   An order once the rows are settled, before any order is confirmed: one that lost a row counts its money again, any
   other is as it was.
   */
  ghost function Recounted(db: Db, rows: seq<Payment>, id: string, height: int): Order
    requires db.cursor.Some? && id in db.orders
  {
    var o, money := db.orders[id], OrderOutcomes.Money(db.(payments := rows), id, db.orders[id]);
    if NoneContradicted(db, id, height) then o
    else o.(received := money, overpaid := if money > o.expected then money - o.expected else 0,
            status := if OrderOutcomes.MayMove(o.status) then OrderOutcomes.FundedAs(o, money) else o.status)
  }

  lemma MismatchedIsContradicted(db: Db, id: string, height: int)
    requires db.cursor.Some?
    ensures id in MismatchedOrders(Solidified(db, height)) <==> !NoneContradicted(db, id, height)
  {
    var raised := Solidified(db, height);
    if id in MismatchedOrders(raised) {
      var p :| p in db.payments && Mismatched(raised, p, raised.cursor.value.solidified) && p.orderId == Some(id);
      var i :| 0 <= i < |db.payments| && db.payments[i] == p;
      assert Contradicted(db, db.payments[i], height);
    } else {
      forall i | 0 <= i < |db.payments| && db.payments[i].orderId == Some(id) && Open(db.payments[i])
        ensures !Contradicted(db, db.payments[i], height) {
        assert db.payments[i] in db.payments;
      }
    }
  }

  lemma MoneyOfRows(db: Db, settled: Db, id: string)
    requires id in db.orders && settled.addresses == db.addresses
    ensures EligibleTotal(settled, id, db.orders[id]) == OrderOutcomes.Money(db.(payments := settled.payments), id, db.orders[id])
  {
    OrderOutcomes.EligibleIsMoney(settled, id, db.orders[id]);
    var o := db.orders[id];
    assert OrderOutcomes.Money(settled, id, o) == OrderOutcomes.Money(db.(payments := settled.payments), id, o);
  }

  lemma OrderBeforePromotion(db: Db, height: int, required: int, now: int, id: string)
    requires db.cursor.Some? && id in db.orders
    ensures var settled := SettlePayments(Solidified(db, height), required, now);
            && settled.payments == SettleAll(Solidified(db, height), required, now) && settled.addresses == db.addresses
            && id in settled.orders && settled.orders[id] == Recounted(db, settled.payments, id, height)
  {
    var raised := Solidified(db, height);
    var rows := raised.(payments := SettleAll(raised, required, now));
    var balanced := RecalculateBalances(rows, SettledBalances(raised, required));
    MismatchedIsContradicted(db, id, height);
    RecountedMoney(db, balanced, id);
  }

  /** Recalculating an order is counting its money. */
  lemma RecountedMoney(db: Db, settled: Db, id: string)
    requires id in db.orders && settled.addresses == db.addresses
    ensures var o, money := db.orders[id], OrderOutcomes.Money(db.(payments := settled.payments), id, db.orders[id]);
            RecalculatedOrder(o, EligibleTotal(settled, id, o), true)
            == o.(received := money, overpaid := if money > o.expected then money - o.expected else 0,
                  status := if OrderOutcomes.MayMove(o.status) then OrderOutcomes.FundedAs(o, money) else o.status)
  {
    MoneyOfRows(db, settled, id);
    OrderOutcomes.EligibleIsMoney(settled, id, db.orders[id]);
  }

  /** A tick confirms exactly the orders that are paid by then, with a paying row and no paying row still open. */
  lemma TickConfirmsExactly(db: Db, height: int, required: int, cooldown: int, now: int, id: string)
    requires height >= 0 && required > 0 && db.cursor.Some? && id in db.orders
    ensures var after := ApplySolidifiedHeight(db, height, required, cooldown, now).GetOr(db);
            var o := Recounted(db, after.payments, id, height);
            && id in after.orders
            && after.orders[id] ==
               if o.status == OrderStatus.Paid && FullyConfirmed(after.payments, id, o, ReleasedAt(db, o.addressId))
               then o.(status := OrderStatus.Confirmed) else o
  {
    TickSucceeds(db, height, required, cooldown, now);
    SolidifyShape(db, height, required, cooldown, now);
    var settled := SettlePayments(Solidified(db, height), required, now);
    OrderBeforePromotion(db, height, required, now, id);
    ConfirmableIsFullyConfirmed(settled, id);
  }

  /** The address of an order that a tick confirms stops taking payments at the tick and cools from then on. */
  lemma ConfirmedOrderCools(db: Db, height: int, required: int, cooldown: int, now: int, id: string)
    requires height >= 0 && required > 0 && db.cursor.Some?
    requires id in db.orders && db.orders[id].addressId < |db.addresses|
    requires var after := ApplySolidifiedHeight(db, height, required, cooldown, now).GetOr(db);
             var o := Recounted(db, after.payments, id, height);
             o.status == OrderStatus.Paid && FullyConfirmed(after.payments, id, o, ReleasedAt(db, o.addressId))
    ensures var a := db.addresses[db.orders[id].addressId];
            var after := ApplySolidifiedHeight(db, height, required, cooldown, now).GetOr(db);
            && |after.addresses| == |db.addresses|
            && after.addresses[db.orders[id].addressId] ==
               if a.state == Assigned then a.(state := Cooling, releasedAt := Some(now), coolingUntil := Some(now + cooldown)) else a
  {
    TickSucceeds(db, height, required, cooldown, now);
    SolidifyShape(db, height, required, cooldown, now);
    var settled := SettlePayments(Solidified(db, height), required, now);
    OrderBeforePromotion(db, height, required, now, id);
    ConfirmableIsFullyConfirmed(settled, id);
    assert id in ConfirmableOrders(settled);
  }
}
