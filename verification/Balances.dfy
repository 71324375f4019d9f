/**
 The balances table is a cache: after every transaction each row equals the sum over the payment
 rows it stands for, and a missing row stands for zero.
 */
module Balances {
  import opened Prelude
  import opened Tables
  import opened Ledger
  import opened Integrity

  predicate Agrees(db: Db, key: BalanceKey) {
    && BalanceAt(db, key).confirmed == ConfirmedTotal(db, key)
    && BalanceAt(db, key).pending == PendingTotal(db, key)
  }

  ghost predicate Cached(db: Db) {
    forall key: BalanceKey :: key.0 < |db.addresses| ==> Agrees(db, key)
  }

  // ----- What a (txid, log_index) stands for -----

  /** The part of a payment row that its key determines. */
  datatype Content = Content(direction: Direction, from: string, to: string, addressId: Option<nat>, asset: string, amount: nat)

  function ContentOf(p: Payment): Content {
    Content(p.direction, p.from, p.to, p.addressId, p.asset, p.amount)
  }

  type Identity = PaymentKey -> Content

  /** Every row and record under one key describes the same transfer. */
  ghost predicate Faithful(ps: seq<Payment>, identity: Identity) {
    forall i :: 0 <= i < |ps| ==> ContentOf(ps[i]) == identity(ps[i].key)
  }

  /** No recorded outgoing transfer was ever sent to an address that is only now derived. */
  ghost predicate NeverPaid(payments: seq<Payment>, address: string) {
    forall i :: 0 <= i < |payments| && payments[i].direction.Out? ==> payments[i].to != address
  }

  ghost predicate FreshAddresses(db: Db, addresses: seq<Address>) {
    forall i :: |db.addresses| <= i < |addresses| ==> NeverPaid(db.payments, addresses[i].address)
  }

  // ----- The frame of a recalculation -----

  lemma SameSums(payments: seq<Payment>, after: seq<Payment>, a: nat, address: string, asset: string)
    requires |payments| <= |after|
    requires forall i :: 0 <= i < |payments| ==>
               && ConfirmedEffect(a, address, asset)(after[i]) == ConfirmedEffect(a, address, asset)(payments[i])
               && PendingEffect(a, address, asset)(after[i]) == PendingEffect(a, address, asset)(payments[i])
    requires forall i :: |payments| <= i < |after| ==> Effect(after[i], a, address, asset) == 0
    ensures Sum(after, ConfirmedEffect(a, address, asset)) == Sum(payments, ConfirmedEffect(a, address, asset))
    ensures Sum(after, PendingEffect(a, address, asset)) == Sum(payments, PendingEffect(a, address, asset))
  {
    var n := |payments|;
    assert after == after[..n] + after[n..];
    SumAppend(after[..n], after[n..], ConfirmedEffect(a, address, asset));
    SumAppend(after[..n], after[n..], PendingEffect(a, address, asset));
    SumZero(after[n..], ConfirmedEffect(a, address, asset));
    SumZero(after[n..], PendingEffect(a, address, asset));
    SumEq(after[..n], payments, ConfirmedEffect(a, address, asset), ConfirmedEffect(a, address, asset));
    SumEq(after[..n], payments, PendingEffect(a, address, asset), PendingEffect(a, address, asset));
  }

  /** A row moves nothing at a balance it does not touch. */
  lemma UntouchedEffect(db: Db, p: Payment, key: BalanceKey)
    requires DistinctAddresses(db.addresses)
    requires key.0 < |db.addresses|
    requires key !in Touched(db, p)
    ensures Effect(p, key.0, AddressAt(db, key.0), key.1) == 0
  {
  }

  ghost predicate SameContent(p: Payment, q: Payment) {
    ContentOf(p) == ContentOf(q)
  }

  /** Rows changed in place only where their balances are recalculated; appended rows likewise. */
  ghost predicate Covers(db: Db, after: seq<Payment>, keys: set<BalanceKey>) {
    && |db.payments| <= |after|
    && (forall i :: 0 <= i < |db.payments| ==>
          after[i] == db.payments[i] || (SameContent(after[i], db.payments[i]) && Touched(db, after[i]) <= keys))
    && (forall i :: |db.payments| <= i < |after| ==> Touched(db, after[i]) <= keys)
  }

  /** Rewriting payment rows and recalculating every balance they touch keeps the cache. */
  lemma RecalculationKeepsCache(db: Db, after: seq<Payment>, keys: set<BalanceKey>)
    requires Cached(db)
    requires DistinctAddresses(db.addresses)
    requires Covers(db, after, keys)
    ensures Cached(RecalculateBalances(db.(payments := after), keys))
  {
    var r := RecalculateBalances(db.(payments := after), keys);
    forall key: BalanceKey | key.0 < |db.addresses| ensures Agrees(r, key) {
      if key !in keys {
        assert Agrees(db, key);
        forall i | 0 <= i < |after|
          ensures i >= |db.payments| || after[i] != db.payments[i] ==> Effect(after[i], key.0, AddressAt(db, key.0), key.1) == 0
        {
          if i >= |db.payments| || after[i] != db.payments[i] { UntouchedEffect(db, after[i], key); }
        }
        SameSums(db.payments, after, key.0, AddressAt(db, key.0), key.1);
      }
    }
  }

  /** The cache looks only at payments, balances and the address strings. */
  lemma CacheFrame(db: Db, after: Db)
    requires Cached(db)
    requires after.payments == db.payments && after.balances == db.balances
    requires |after.addresses| == |db.addresses|
    requires forall i :: 0 <= i < |db.addresses| ==> after.addresses[i].address == db.addresses[i].address
    ensures Cached(after)
  {
    forall key: BalanceKey | key.0 < |after.addresses| ensures Agrees(after, key) {
      assert Agrees(db, key);
    }
  }

  /** Recalculating balances first or orders first gives the same tables. */
  lemma BalancesIgnoreOrders(db: Db, orders: map<string, Order>, keys: set<BalanceKey>)
    ensures RecalculateBalances(db.(orders := orders), keys) == RecalculateBalances(db, keys).(orders := orders)
  {
    var other := db.(orders := orders);
    assert forall key: BalanceKey :: FreshBalance(other, key) == FreshBalance(db, key);
  }

  // ----- Each transaction keeps the cache -----

  lemma UpsertKeepsCache(db: Db, rec: Payment, identity: Identity)
    requires WellFormed(db) && Cached(db)
    requires Faithful(db.payments, identity) && ContentOf(rec) == identity(rec.key)
    ensures var r := UpsertPayment(db, rec); r.Some? ==> Cached(r.value) && Faithful(r.value.payments, identity)
  {
    if References(db, rec) {
      UpsertRowShape(db.payments, rec);
      var rows := UpsertRow(db.payments, rec);
      var i := FindPayment(db.payments, rec.key);
      assert Touched(db, rows[i]) == Touched(db, rec) by { assert ContentOf(rows[i]) == ContentOf(rec); }
      RecalculationKeepsCache(db, rows, Touched(db, rec));
      var order := UpsertOrder(db.payments, rec);
      var stored := db.(payments := rows);
      var ordered := if order.Some? then RecalculateOrder(stored, order.value, !rec.dust) else stored;
      BalancesIgnoreOrders(stored, ordered.orders, Touched(db, rec));
      assert ordered == stored.(orders := ordered.orders);
      CacheFrame(RecalculateBalances(stored, Touched(db, rec)), UpsertPayment(db, rec).value);
    }
  }

  lemma MatchKeepsContent(db: Db, rec: Payment)
    ensures ContentOf(MatchRecord(db, rec)) == ContentOf(rec) && MatchRecord(db, rec).key == rec.key
  {
  }

  lemma {:induction false} IngestKeepsCache(db: Db, recs: seq<Payment>, identity: Identity)
    requires WellFormed(db) && Cached(db)
    requires Faithful(db.payments, identity) && Faithful(recs, identity)
    ensures var r := IngestAll(db, recs); r.Some? ==> Cached(r.value) && Faithful(r.value.payments, identity)
  {
    if recs != [] {
      var front, last := recs[..|recs| - 1], recs[|recs| - 1];
      IngestKeepsCache(db, front, identity);
      IngestWellFormed(db, front);
      if IngestAll(db, front).Some? {
        var before := IngestAll(db, front).value;
        MatchKeepsContent(before, last);
        UpsertKeepsCache(before, MatchRecord(before, last), identity);
      }
    }
  }

  lemma CommitKeepsCache(db: Db, block: Block, depth: int, recs: seq<Payment>, identity: Identity)
    requires WellFormed(db) && Cached(db)
    requires Faithful(db.payments, identity) && Faithful(recs, identity)
    ensures var r := CommitBlock(db, block, depth, recs); r.Some? ==> Cached(r.value) && Faithful(r.value.payments, identity)
  {
    var inserted := db.(blocks := db.blocks[block.height := block]);
    CacheFrame(db, inserted);
    IngestKeepsCache(inserted, recs, identity);
    if CommitBlock(db, block, depth, recs).Some? {
      CacheFrame(IngestAll(inserted, recs).value, CommitBlock(db, block, depth, recs).value);
    }
  }

  lemma RewindCovers(db: Db, ancestor: int)
    ensures Covers(db, OrphanAbove(db.payments, ancestor), BalancesAbove(db, ancestor))
  {
    var rows := OrphanAbove(db.payments, ancestor);
    forall i | 0 <= i < |db.payments| && rows[i] != db.payments[i] ensures Touched(db, rows[i]) <= BalancesAbove(db, ancestor) {
      assert db.payments[i] in db.payments && db.payments[i].height > ancestor;
      assert Touched(db, rows[i]) == Touched(db, db.payments[i]);
    }
  }

  lemma RewindKeepsCache(db: Db, ancestor: int, identity: Identity)
    requires WellFormed(db) && Cached(db) && Faithful(db.payments, identity)
    ensures var r := RewindChain(db, ancestor); r.Some? ==> Cached(r.value) && Faithful(r.value.payments, identity)
  {
    var r := RewindChain(db, ancestor);
    if r.Some? {
      RewindCovers(db, ancestor);
      RecalculationKeepsCache(db, OrphanAbove(db.payments, ancestor), BalancesAbove(db, ancestor));
      var orphaned := db.(payments := OrphanAbove(db.payments, ancestor));
      var ordered := RecalculateOrders(orphaned, OrdersAbove(db.payments, ancestor));
      BalancesIgnoreOrders(orphaned, ordered.orders, BalancesAbove(db, ancestor));
      CacheFrame(RecalculateBalances(orphaned, BalancesAbove(db, ancestor)), r.value);
    }
  }

  lemma SettleCovers(db: Db, required: int, stamp: int)
    ensures Covers(db, SettleAll(db, required, stamp), SettledBalances(db, required))
  {
    var rows := SettleAll(db, required, stamp);
    forall i | 0 <= i < |db.payments| && rows[i] != db.payments[i] ensures Touched(db, rows[i]) <= SettledBalances(db, required) {
      assert db.payments[i] in db.payments;
      assert Touched(db, rows[i]) == Touched(db, db.payments[i]);
    }
  }

  lemma SettleKeepsCache(db: Db, required: int, stamp: int)
    requires WellFormed(db) && Cached(db)
    ensures Cached(SettlePayments(db, required, stamp))
  {
    SettleCovers(db, required, stamp);
    RecalculationKeepsCache(db, SettleAll(db, required, stamp), SettledBalances(db, required));
    CacheFrame(RecalculateBalances(db.(payments := SettleAll(db, required, stamp)), SettledBalances(db, required)),
               SettlePayments(db, required, stamp));
  }

  lemma SettleKeepsContent(db: Db, required: int, stamp: int, identity: Identity)
    requires Faithful(db.payments, identity)
    ensures Faithful(SettlePayments(db, required, stamp).payments, identity)
  {
  }

  lemma ConfirmingKeepsCache(db: Db, stamp: int, cooldown: int)
    requires Cached(db)
    ensures Cached(ConfirmOrders(db, ConfirmableOrders(db), stamp, cooldown))
    ensures ConfirmOrders(db, ConfirmableOrders(db), stamp, cooldown).payments == db.payments
  {
    CacheFrame(db, ConfirmOrders(db, ConfirmableOrders(db), stamp, cooldown));
  }

  lemma SolidifyKeepsCache(db: Db, height: int, required: int, cooldown: int, now: int, identity: Identity)
    requires WellFormed(db) && Cached(db) && Faithful(db.payments, identity)
    ensures var r := ApplySolidifiedHeight(db, height, required, cooldown, now);
            r.Some? ==> Cached(r.value) && Faithful(r.value.payments, identity)
  {
    var raised := Solidified(db, height);
    CacheFrame(db, raised);
    SettleKeepsCache(raised, required, now);
    SettleKeepsContent(raised, required, now, identity);
    ConfirmingKeepsCache(SettlePayments(raised, required, now), now, cooldown);
  }

  /** Manual attribution moves a row between statuses that count alike, so it changes no sum at all. */
  lemma AttributionKeepsSums(db: Db, payment: nat, order: string, key: BalanceKey)
    requires AttributePayment(db, payment, order).Some?
    ensures ConfirmedTotal(AttributePayment(db, payment, order).value, key) == ConfirmedTotal(db, key)
    ensures PendingTotal(AttributePayment(db, payment, order).value, key) == PendingTotal(db, key)
  {
    SameSums(db.payments, AttributePayment(db, payment, order).value.payments, key.0, AddressAt(db, key.0), key.1);
  }

  /** Manual attribution leaves every balances row as it was. */
  lemma AttributionKeepsBalances(db: Db, payment: nat, order: string, key: BalanceKey)
    requires WellFormed(db) && Cached(db)
    requires AttributePayment(db, payment, order).Some?
    ensures BalanceAt(AttributePayment(db, payment, order).value, key) == BalanceAt(db, key)
  {
    AttributionKeepsSums(db, payment, order, key);
    assert References(db, db.payments[payment]);
    if key.0 < |db.addresses| { assert Agrees(db, key); }
  }

  lemma AttributeKeepsCache(db: Db, payment: nat, order: string, identity: Identity)
    requires WellFormed(db) && Cached(db) && Faithful(db.payments, identity)
    ensures var r := AttributePayment(db, payment, order); r.Some? ==> Cached(r.value) && Faithful(r.value.payments, identity)
  {
    var r := AttributePayment(db, payment, order);
    if r.Some? {
      forall key: BalanceKey | key.0 < |db.addresses| ensures Agrees(r.value, key) {
        assert Agrees(db, key);
        AttributionKeepsSums(db, payment, order, key);
        AttributionKeepsBalances(db, payment, order, key);
      }
    }
  }

  lemma {:induction false} ExpireKeepsCache(db: Db, ids: seq<string>, now: int, cooldown: int)
    requires Cached(db)
    ensures Cached(ExpireAll(db, ids, now, cooldown)) && ExpireAll(db, ids, now, cooldown).payments == db.payments
  {
    if ids != [] {
      ExpireKeepsCache(db, ids[..|ids| - 1], now, cooldown);
      CacheFrame(ExpireAll(db, ids[..|ids| - 1], now, cooldown), ExpireAll(db, ids, now, cooldown));
    }
  }

  /** A newly derived address starts with the zero balance that its missing row stands for. */
  lemma GrowthKeepsCache(db: Db, addresses: seq<Address>)
    requires WellFormed(db) && Cached(db)
    requires |db.addresses| <= |addresses|
    requires forall i :: 0 <= i < |db.addresses| ==> addresses[i].address == db.addresses[i].address
    requires FreshAddresses(db, addresses)
    ensures Cached(db.(addresses := addresses))
  {
    var after := db.(addresses := addresses);
    forall key: BalanceKey | key.0 < |addresses| ensures Agrees(after, key) {
      if key.0 < |db.addresses| {
        assert Agrees(db, key);
      } else {
        assert key !in db.balances;
        assert NeverPaid(db.payments, addresses[key.0].address);
        forall i | 0 <= i < |db.payments| ensures Effect(db.payments[i], key.0, AddressAt(after, key.0), key.1) == 0 {
          assert References(db, db.payments[i]);
        }
        SumZero(db.payments, ConfirmedEffect(key.0, AddressAt(after, key.0), key.1));
        SumZero(db.payments, PendingEffect(key.0, AddressAt(after, key.0), key.1));
      }
    }
  }

  lemma CreateKeepsCache(db: Db, id: string, draft: Order, derive: nat -> Option<string>, poolMax: int)
    requires WellFormed(db) && Cached(db)
    requires CreateOrder(db, id, draft, derive, poolMax).Some?
    requires FreshAddresses(db, CreateOrder(db, id, draft, derive, poolMax).value.addresses)
    ensures Cached(CreateOrder(db, id, draft, derive, poolMax).value)
  {
    var r := CreateOrder(db, id, draft, derive, poolMax).value;
    GrowthKeepsCache(db, r.addresses);
    CacheFrame(db.(addresses := r.addresses), r);
  }

  lemma TopUpKeepsCache(db: Db, derive: nat -> Option<string>, minFree: int, target: int, poolMax: int)
    requires WellFormed(db) && Cached(db)
    requires TopUpPool(db, derive, minFree, target, poolMax).Some?
    requires FreshAddresses(db, TopUpPool(db, derive, minFree, target, poolMax).value.addresses)
    ensures Cached(TopUpPool(db, derive, minFree, target, poolMax).value)
  {
    TopUpStepsGrow(db.addresses, derive, TopUpCount(db.addresses, target, poolMax));
    GrowthKeepsCache(db, TopUpPool(db, derive, minFree, target, poolMax).value.addresses);
  }

  lemma ReceiptCovers(db: Db, fees: seq<Payment>, row: Payment, receiver: nat)
    requires Covers(db, fees, {(row.addressId.GetOr(0), "TRX"), (receiver, "TRX")})
    requires row.addressId.Some? && row.asset == "TRX" && row.direction.Out?
    requires Owner(db.addresses, row.to) == Some(receiver)
    requires forall i :: 0 <= i < |fees| && fees[i].key == row.key ==> SameContent(fees[i], row)
    ensures Covers(db, ConfirmOrInsert(fees, row), {(row.addressId.value, "TRX"), (receiver, "TRX")})
  {
    var keys := {(row.addressId.value, "TRX"), (receiver, "TRX")};
    var rows := ConfirmOrInsert(fees, row);
    assert Touched(db, row) <= keys;
    forall i | 0 <= i < |rows| && (i >= |fees| || rows[i] != fees[i]) ensures Touched(db, rows[i]) <= keys {
      assert ContentOf(rows[i]) == ContentOf(row);
    }
  }

  lemma FeeInsertedCovers(db: Db, txid: string, height: int, timestamp: int, a: nat, fee: nat, now: int,
                          keys: set<BalanceKey>, identity: Identity)
    requires Faithful(db.payments, identity)
    requires Faithful([FeeRow(txid, height, timestamp, AddressAt(db, a), a, fee, now)], identity)
    requires Owner(db.addresses, "network_fee").None?
    requires (a, "TRX") in keys
    ensures var fees := FeeInserted(db, txid, height, timestamp, a, fee, now);
            Covers(db, fees, keys) && Faithful(fees, identity)
  {
    var row := FeeRow(txid, height, timestamp, AddressAt(db, a), a, fee, now);
    assert ContentOf([row][0]) == identity([row][0].key);
  }

  lemma FeeKeepsCache(db: Db, txid: string, height: int, timestamp: int, a: nat, fee: nat, now: int, identity: Identity)
    requires WellFormed(db) && Cached(db) && Faithful(db.payments, identity)
    requires Faithful([FeeRow(txid, height, timestamp, AddressAt(db, a), a, fee, now)], identity)
    requires Owner(db.addresses, "network_fee").None?
    ensures var r := RecordFee(db, txid, height, timestamp, a, fee, now);
            r.Some? ==> Cached(r.value) && Faithful(r.value.payments, identity)
  {
    if RecordFee(db, txid, height, timestamp, a, fee, now).Some? && fee > 0 {
      FeeInsertedCovers(db, txid, height, timestamp, a, fee, now, {(a, "TRX")}, identity);
      RecalculationKeepsCache(db, FeeInserted(db, txid, height, timestamp, a, fee, now), {(a, "TRX")});
    }
  }

  lemma TopupKeepsCache(db: Db, txid: string, fee: nat, receiver: nat, topup: (string, nat), height: int, timestamp: int,
                        wallet: nat, now: int, identity: Identity)
    requires WellFormed(db) && Cached(db) && Faithful(db.payments, identity)
    requires Faithful([FeeRow(txid, height, timestamp, AddressAt(db, wallet), wallet, fee, now)], identity)
    requires Faithful([TopupRow(txid, height, timestamp, AddressAt(db, wallet), topup.0, wallet, topup.1, now)], identity)
    requires Owner(db.addresses, "network_fee").None? && Owner(db.addresses, topup.0) == Some(receiver)
    ensures var rows := ReceiptPayments(db, txid, fee, Some(topup), height, timestamp, wallet, now);
            && Covers(db, rows, {(wallet, "TRX"), (receiver, "TRX")}) && Faithful(rows, identity)
  {
    var row := TopupRow(txid, height, timestamp, AddressAt(db, wallet), topup.0, wallet, topup.1, now);
    FeeInsertedCovers(db, txid, height, timestamp, wallet, fee, now, {(wallet, "TRX"), (receiver, "TRX")}, identity);
    assert ContentOf([row][0]) == identity([row][0].key);
    ReceiptCovers(db, FeeInserted(db, txid, height, timestamp, wallet, fee, now), row, receiver);
  }

  lemma GrantReceiptKeepsCache(db: Db, txid: string, fee: nat, topup: Option<(string, nat)>, height: int, timestamp: int,
                               wallet: nat, now: int, identity: Identity)
    requires WellFormed(db) && Cached(db) && Faithful(db.payments, identity)
    requires Faithful([FeeRow(txid, height, timestamp, AddressAt(db, wallet), wallet, fee, now)], identity)
    requires topup.Some? ==>
               Faithful([TopupRow(txid, height, timestamp, AddressAt(db, wallet), topup.value.0, wallet, topup.value.1, now)], identity)
    requires Owner(db.addresses, "network_fee").None?
    ensures var r := RecordGrantReceipt(db, txid, fee, topup, height, timestamp, wallet, now);
            r.Some? ==> Cached(r.value) && Faithful(r.value.payments, identity)
  {
    var r := RecordGrantReceipt(db, txid, fee, topup, height, timestamp, wallet, now);
    var rows := ReceiptPayments(db, txid, fee, topup, height, timestamp, wallet, now);
    if r.Some? && topup.Some? {
      var receiver := Owner(db.addresses, topup.value.0).value;
      TopupKeepsCache(db, txid, fee, receiver, topup.value, height, timestamp, wallet, now, identity);
      RecalculationKeepsCache(db, rows, {(wallet, "TRX"), (receiver, "TRX")});
    } else if r.Some? && fee > 0 {
      FeeInsertedCovers(db, txid, height, timestamp, wallet, fee, now, {(wallet, "TRX")}, identity);
      RecalculationKeepsCache(db, rows, {(wallet, "TRX")});
    }
  }

  // ----- Every run keeps the cache -----

  /** What an event reports about the outside world is consistent: keys fix content, new addresses are new. */
  ghost predicate Honest(db: Db, ev: Event, identity: Identity) {
    match ev
    case Commit(_, _, records) => Faithful(records, identity)
    case Reconcile(records) => Faithful(records, identity)
    case Create(_, _, _, _) => FreshAddresses(db, Apply(db, ev).addresses)
    case TopUp(_, _, _, _) => FreshAddresses(db, Apply(db, ev).addresses)
    case Fee(txid, height, timestamp, a, fee, now) =>
      && Owner(db.addresses, "network_fee").None?
      && Faithful([FeeRow(txid, height, timestamp, AddressAt(db, a), a, fee, now)], identity)
    case GrantReceipt(txid, fee, topup, height, timestamp, wallet, now) =>
      && Owner(db.addresses, "network_fee").None?
      && Faithful([FeeRow(txid, height, timestamp, AddressAt(db, wallet), wallet, fee, now)], identity)
      && (topup.Some? ==>
            Faithful([TopupRow(txid, height, timestamp, AddressAt(db, wallet), topup.value.0, wallet, topup.value.1, now)], identity))
    case _ => true
  }

  ghost predicate HonestRun(db: Db, evs: seq<Event>, identity: Identity) {
    forall i :: 0 <= i < |evs| ==> Honest(Run(db, evs[..i]), evs[i], identity)
  }

  ghost predicate Sound(db: Db, identity: Identity) {
    WellFormed(db) && Cached(db) && Faithful(db.payments, identity)
  }

  lemma ChainKeepsCache(db: Db, ev: Event, identity: Identity)
    requires Sound(db, identity) && Honest(db, ev, identity)
    requires ev.Commit? || ev.Rewind? || ev.Suspect? || ev.ClearSuspicion? || ev.Solidify? || ev.Reconcile?
    ensures Cached(Apply(db, ev)) && Faithful(Apply(db, ev).payments, identity)
  {
    match ev
    case Commit(block, depth, records) => CommitKeepsCache(db, block, depth, records, identity);
    case Rewind(ancestor) => RewindKeepsCache(db, ancestor, identity);
    case Suspect(height) => CacheFrame(db, Apply(db, ev));
    case ClearSuspicion => CacheFrame(db, Apply(db, ev));
    case Solidify(height, required, cooldown, now) => SolidifyKeepsCache(db, height, required, cooldown, now, identity);
    case Reconcile(records) => IngestKeepsCache(db, records, identity);
  }

  /** Orders and address states do not enter the balances. */
  lemma StatesKeepCache(db: Db, ev: Event)
    requires Cached(db)
    requires ev.Release? || ev.Disable? || ev.Cancel? || ev.Extend?
    ensures Cached(Apply(db, ev)) && Apply(db, ev).payments == db.payments
  {
    CacheFrame(db, Apply(db, ev));
  }

  lemma PoolKeepsCache(db: Db, ev: Event, identity: Identity)
    requires Sound(db, identity) && Honest(db, ev, identity)
    requires ev.Create? || ev.TopUp? || ev.Release? || ev.Disable? || ev.Cancel? || ev.Extend?
    ensures Cached(Apply(db, ev)) && Apply(db, ev).payments == db.payments
  {
    if ev.Create? {
      if Attempt(db, ev).Some? { CreateKeepsCache(db, ev.id, ev.draft, ev.derive, ev.poolMax); }
    } else if ev.TopUp? {
      if Attempt(db, ev).Some? { TopUpKeepsCache(db, ev.derive, ev.minFree, ev.target, ev.poolMax); }
    } else {
      StatesKeepCache(db, ev);
    }
  }

  /** One transaction keeps the cache. */
  lemma ApplyKeepsCache(db: Db, ev: Event, identity: Identity)
    requires Sound(db, identity) && Honest(db, ev, identity)
    ensures Sound(Apply(db, ev), identity)
  {
    ApplyWellFormed(db, ev);
    match ev
    case Attribute(payment, order) => AttributeKeepsCache(db, payment, order, identity);
    case Expire(ids, now, cooldown) => ExpireKeepsCache(db, ids, now, cooldown);
    case Fee(txid, height, timestamp, a, fee, now) => FeeKeepsCache(db, txid, height, timestamp, a, fee, now, identity);
    case GrantReceipt(txid, fee, topup, height, timestamp, wallet, now) =>
      GrantReceiptKeepsCache(db, txid, fee, topup, height, timestamp, wallet, now, identity);
    case _ =>
      if ev.Create? || ev.TopUp? || ev.Release? || ev.Disable? || ev.Cancel? || ev.Extend? {
        PoolKeepsCache(db, ev, identity);
      } else {
        ChainKeepsCache(db, ev, identity);
      }
  }

  /** After any honest run every balances row equals the sum over the payment rows. */
  lemma {:induction false} RunKeepsCache(db: Db, evs: seq<Event>, identity: Identity)
    requires Sound(db, identity) && HonestRun(db, evs, identity)
    ensures Sound(Run(db, evs), identity)
  {
    if evs != [] {
      var front := evs[..|evs| - 1];
      assert HonestRun(db, front, identity) by {
        forall i | 0 <= i < |front| ensures Honest(Run(db, front[..i]), front[i], identity) {
          assert front[..i] == evs[..i];
        }
      }
      RunKeepsCache(db, front, identity);
      ApplyKeepsCache(Run(db, front), evs[|evs| - 1], identity);
    }
  }
}
