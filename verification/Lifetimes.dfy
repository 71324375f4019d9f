/** Order deadlines. However often an order is extended, it never outlives the maximum lifetime of its creation. */
module Lifetimes {
  import opened Prelude
  import opened Tables
  import opened Ledger
  import opened Integrity

  /** Every order expires within a lifetime of its creation. */
  ghost predicate WithinLifetime(db: Db, seconds: int) {
    forall id :: id in db.orders ==> db.orders[id].expiresAt <= db.orders[id].createdAt + seconds
  }

  ghost predicate SameDeadlines(db: Db, after: Db) {
    && after.orders.Keys == db.orders.Keys
    && forall id :: id in db.orders ==>
         after.orders[id].expiresAt == db.orders[id].expiresAt && after.orders[id].createdAt == db.orders[id].createdAt
  }

  lemma {:induction false} IngestKeepsDeadlines(db: Db, records: seq<Payment>)
    requires IngestAll(db, records).Some?
    ensures SameDeadlines(db, IngestAll(db, records).value)
  {
    if records != [] {
      var front := records[..|records| - 1];
      IngestKeepsDeadlines(db, front);
      SightingKeepsDeadlines(IngestAll(db, front).value, MatchRecord(IngestAll(db, front).value, records[|records| - 1]));
    }
  }

  lemma SightingKeepsDeadlines(db: Db, rec: Payment)
    requires UpsertPayment(db, rec).Some?
    ensures SameDeadlines(db, UpsertPayment(db, rec).value)
  {
  }

  lemma {:induction false} ExpiryKeepsDeadlines(db: Db, ids: seq<string>, now: int, cooldown: int)
    ensures SameDeadlines(db, ExpireAll(db, ids, now, cooldown))
  {
    if ids != [] {
      ExpiryKeepsDeadlines(db, ids[..|ids| - 1], now, cooldown);
    }
  }

  lemma FollowerKeepsDeadlines(db: Db, ev: Event)
    requires ev.Commit? || ev.Rewind? || ev.Reconcile?
    ensures SameDeadlines(db, Apply(db, ev))
  {
    if ev.Commit? && Attempt(db, ev).Some? {
      IngestKeepsDeadlines(db.(blocks := db.blocks[ev.block.height := ev.block]), ev.records);
    } else if ev.Reconcile? && Attempt(db, ev).Some? {
      IngestKeepsDeadlines(db, ev.records);
    }
  }

  lemma SettlingKeepsDeadlines(db: Db, height: int, required: int, now: int)
    ensures SameDeadlines(db, SettlePayments(Solidified(db, height), required, now))
  {
  }

  lemma ConfirmingKeepsDeadlines(db: Db, ids: set<string>, now: int, cooldown: int)
    ensures SameDeadlines(db, ConfirmOrders(db, ids, now, cooldown))
  {
  }

  lemma TickKeepsDeadlines(db: Db, height: int, required: int, cooldown: int, now: int)
    ensures var r := ApplySolidifiedHeight(db, height, required, cooldown, now); r.Some? ==> SameDeadlines(db, r.value)
  {
    var settled := SettlePayments(Solidified(db, height), required, now);
    SettlingKeepsDeadlines(db, height, required, now);
    ConfirmingKeepsDeadlines(settled, ConfirmableOrders(settled), now, cooldown);
  }

  lemma MoneyKeepsDeadlines(db: Db, ev: Event)
    requires ev.Fee? || ev.GrantReceipt?
    ensures Apply(db, ev).orders == db.orders
  {
    if ev.GrantReceipt? && Attempt(db, ev).Some? {
      ReceiptShape(db, ev.txid, ev.fee, ev.topup, ev.height, ev.timestamp, ev.wallet, ev.now);
    }
  }

  lemma AddressesKeepOrders(db: Db, ev: Event)
    requires ev.TopUp? || ev.Release? || ev.Disable? || ev.Suspect? || ev.ClearSuspicion?
    ensures Apply(db, ev).orders == db.orders
  {
  }

  lemma CancelKeepsDeadlines(db: Db, ev: Event)
    requires ev.Cancel? || ev.Attribute?
    ensures SameDeadlines(db, Apply(db, ev))
  {
  }

  /**
   Which extensions succeed, and by how much: whole seconds of the wanted time, for an order that is not closed, up to
   whole seconds of the maximum lifetime after its creation. Both times are nanoseconds.
   */
  lemma ExtensionAddsWholeSeconds(db: Db, id: string, ttl: int, maxLifetime: int, seconds: int, lifetime: int)
    requires seconds * 1_000_000_000 <= ttl < (seconds + 1) * 1_000_000_000
    requires lifetime * 1_000_000_000 <= maxLifetime < (lifetime + 1) * 1_000_000_000
    ensures ExtendOrder(db, id, ttl, maxLifetime) ==
              if && id in db.orders && db.orders[id].status in {OrderStatus.Pending, OrderStatus.Partial, OrderStatus.Paid}
                 && 1 <= seconds && 1 <= maxLifetime && db.orders[id].expiresAt + seconds < 0x8000_0000_0000_0000
                 && db.orders[id].expiresAt + seconds <= db.orders[id].createdAt + lifetime
              then Some(db.(orders := db.orders[id := db.orders[id].(expiresAt := db.orders[id].expiresAt + seconds)])) else None
  {
    assert ttl / 1_000_000_000 == seconds && maxLifetime / 1_000_000_000 == lifetime;
  }

  /** New orders respect the lifetime, and extensions ask for no more. */
  predicate Modest(ev: Event, seconds: int) {
    match ev
    case Create(_, draft, _, _) => draft.expiresAt <= draft.createdAt + seconds
    case Extend(_, _, maxLifetime) => maxLifetime / 1_000_000_000 <= seconds
    case _ => true
  }

  lemma ApplyKeepsLifetime(db: Db, ev: Event, seconds: int)
    requires WithinLifetime(db, seconds) && Modest(ev, seconds)
    ensures WithinLifetime(Apply(db, ev), seconds)
  {
    if ev.Commit? || ev.Rewind? || ev.Reconcile? {
      FollowerKeepsDeadlines(db, ev);
    } else if ev.Expire? {
      ExpiryKeepsDeadlines(db, ev.ids, ev.now, ev.cooldown);
    } else if ev.Cancel? || ev.Attribute? {
      CancelKeepsDeadlines(db, ev);
    } else if ev.Solidify? {
      TickKeepsDeadlines(db, ev.height, ev.required, ev.cooldown, ev.now);
    } else if ev.Fee? || ev.GrantReceipt? {
      MoneyKeepsDeadlines(db, ev);
    } else if !ev.Create? && !ev.Extend? {
      AddressesKeepOrders(db, ev);
    }
  }

  /** Over every run no order outlives the maximum lifetime. */
  lemma {:induction false} ExtensionsStayWithinLifetime(db: Db, evs: seq<Event>, seconds: int)
    requires WithinLifetime(db, seconds)
    requires forall i :: 0 <= i < |evs| ==> Modest(evs[i], seconds)
    ensures WithinLifetime(Run(db, evs), seconds)
  {
    if evs != [] {
      ExtensionsStayWithinLifetime(db, evs[..|evs| - 1], seconds);
      ApplyKeepsLifetime(Run(db, evs[..|evs| - 1]), evs[|evs| - 1], seconds);
    }
  }
}
