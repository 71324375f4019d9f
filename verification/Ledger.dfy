/**
 What each ledger transaction computes, as functions on the tables. A transaction that the
 source rolls back is None.
 */
module Ledger {
  import opened Prelude
  import opened Tables

  // ----- Balances -----

  function Signed(p: Payment): int {
    var amount: int := p.amount;
    if p.direction.Out? then -amount else amount
  }

  /**
   The amount a live row moves at address a. The source branch debits or credits the row's own
   address; the recipient branch credits another owned address; a self-transfer stays a single debit.
   */
  function Effect(p: Payment, a: nat, address: string, asset: string): int {
    if p.asset != asset then 0
    else if p.addressId == Some(a) then Signed(p)
    else if p.direction.Out? && p.to == address then p.amount
    else 0
  }

  predicate CountsConfirmed(p: Payment) {
    p.status.Confirmed? || (p.status.Unattributed? && p.confirmedAt.Some?)
  }

  predicate CountsPending(p: Payment) {
    p.status.Seen? || (p.status.Unattributed? && p.confirmedAt.None?)
  }

  function ConfirmedEffect(a: nat, address: string, asset: string): Payment -> int {
    (p: Payment) => if CountsConfirmed(p) then Effect(p, a, address, asset) else 0
  }

  function PendingEffect(a: nat, address: string, asset: string): Payment -> int {
    (p: Payment) => if CountsPending(p) then Effect(p, a, address, asset) else 0
  }

  function ConfirmedTotal(db: Db, key: BalanceKey): int {
    Sum(db.payments, ConfirmedEffect(key.0, AddressAt(db, key.0), key.1))
  }

  function PendingTotal(db: Db, key: BalanceKey): int {
    Sum(db.payments, PendingEffect(key.0, AddressAt(db, key.0), key.1))
  }

  function FreshBalance(db: Db, key: BalanceKey): Balance {
    BalanceAt(db, key).(confirmed := ConfirmedTotal(db, key), pending := PendingTotal(db, key))
  }

  function RecalculateBalances(db: Db, keys: set<BalanceKey>): Db {
    db.(balances := map k | k in db.balances.Keys + keys ::
          if k in keys then FreshBalance(db, k) else db.balances[k])
  }

  /** The balances rows a payment row takes part in. */
  function Touched(db: Db, p: Payment): set<BalanceKey> {
    (if p.addressId.Some? then {(p.addressId.value, p.asset)} else {}) +
    (if p.direction.Out? && Owner(db.addresses, p.to).Some?
     then {(Owner(db.addresses, p.to).value, p.asset)} else {})
  }

  // ----- Orders -----

  predicate InWindow(timestamp: int, createdAt: int, releasedAt: Option<int>) {
    createdAt <= timestamp && (releasedAt.None? || timestamp < releasedAt.value)
  }

  /** The rows recalculateOrder adds up for an order. */
  predicate Eligible(p: Payment, id: string, o: Order, releasedAt: Option<int>) {
    && p.orderId == Some(id)
    && p.addressId == Some(o.addressId)
    && !p.status.Orphaned?
    && p.direction.In?
    && p.asset == o.asset
    && InWindow(p.timestamp, o.createdAt, releasedAt)
  }

  function EligibleAmount(id: string, o: Order, releasedAt: Option<int>): Payment -> int {
    (p: Payment) => if Eligible(p, id, o, releasedAt) then p.amount else 0
  }

  function EligibleTotal(db: Db, id: string, o: Order): int {
    Sum(db.payments, EligibleAmount(id, o, ReleasedAt(db, o.addressId)))
  }

  predicate Transitions(status: OrderStatus) {
    status.Pending? || status.Partial? || status.Paid? || status.Confirmed?
  }

  function RecalculatedOrder(o: Order, total: int, allowTransition: bool): Order {
    var status :=
      if !allowTransition || !Transitions(o.status) then o.status
      else if total >= o.expected then OrderStatus.Paid
      else if total == 0 then OrderStatus.Pending
      else OrderStatus.Partial;
    o.(received := total, overpaid := Max(total - o.expected, 0), status := status)
  }

  function RecalculateOrder(db: Db, id: string, allowTransition: bool): Db {
    if id !in db.orders then db
    else
      var o := db.orders[id];
      db.(orders := db.orders[id := RecalculatedOrder(o, EligibleTotal(db, id, o), allowTransition)])
  }

  function RecalculateOrders(db: Db, ids: set<string>): Db {
    db.(orders := map id | id in db.orders ::
          if id in ids then RecalculatedOrder(db.orders[id], EligibleTotal(db, id, db.orders[id]), true)
          else db.orders[id])
  }

  // ----- Payment ingest -----

  /** A row seen again: block data follows the new sighting, an orphan comes back to life, all else stays. */
  function Resighted(row: Payment, rec: Payment): Payment {
    row.(height := rec.height, blockId := rec.blockId, timestamp := rec.timestamp, reason := rec.reason,
         status := if row.status.Orphaned? then rec.status else row.status)
  }

  function UpsertRow(payments: seq<Payment>, rec: Payment): seq<Payment> {
    var i := FindPayment(payments, rec.key);
    if i < |payments| then payments[i := Resighted(payments[i], rec)]
    else payments + [rec.(confirmedAt := None)]
  }

  /** The order an upsert recalculates: the stored row's order wins over the record's. */
  function UpsertOrder(payments: seq<Payment>, rec: Payment): Option<string> {
    var i := FindPayment(payments, rec.key);
    if i < |payments| && payments[i].orderId.Some? then payments[i].orderId else rec.orderId
  }

  function UpsertPayment(db: Db, rec: Payment): Option<Db> {
    if !References(db, rec) then None
    else
      var stored := db.(payments := UpsertRow(db.payments, rec));
      var order := UpsertOrder(db.payments, rec);
      var ordered := if order.Some? then RecalculateOrder(stored, order.value, !rec.dust) else stored;
      Some(RecalculateBalances(ordered, Touched(db, rec)))
  }

  // ----- Attribution -----

  predicate Active(status: OrderStatus) {
    status.Pending? || status.Partial? || status.Paid?
  }

  /** The order retained by an address, if that order exists. */
  function AttributionOrder(db: Db, addressId: nat): Option<string> {
    if addressId < |db.addresses| && db.addresses[addressId].assignedOrder.Some?
       && db.addresses[addressId].assignedOrder.value in db.orders
    then db.addresses[addressId].assignedOrder
    else None
  }

  function MatchRecord(db: Db, rec: Payment): Payment {
    if !rec.direction.In? || rec.addressId.None? then rec
    else
      var found := AttributionOrder(db, rec.addressId.value);
      if found.None? || !Active(db.orders[found.value].status) then
        rec.(orderId := None, status := Unattributed, reason := Some(NoActiveOrder))
      else if db.orders[found.value].asset != rec.asset then
        rec.(orderId := None, status := Unattributed, reason := Some(AssetMismatch))
      else if !InWindow(rec.timestamp, db.orders[found.value].createdAt, ReleasedAt(db, rec.addressId.value)) then
        rec.(orderId := None, status := Unattributed, reason := Some(OutsideWindow))
      else rec.(orderId := found)
  }

  function Ingest(db: Db, rec: Payment): Option<Db> {
    UpsertPayment(db, MatchRecord(db, rec))
  }

  function IngestAll(db: Db, recs: seq<Payment>): Option<Db> {
    if recs == [] then Some(db)
    else
      var before := IngestAll(db, recs[..|recs| - 1]);
      if before.None? then None else Ingest(before.value, recs[|recs| - 1])
  }

  // ----- Blocks -----

  function CommitBlock(db: Db, block: Block, depth: int, recs: seq<Payment>): Option<Db> {
    if depth <= 0 then None
    else if db.cursor.Some? && block.height != db.cursor.value.last + 1 then None
    else if block.height in db.blocks then None
    else
      var applied := IngestAll(db.(blocks := db.blocks[block.height := block]), recs);
      if applied.None? then None
      else
        var cursor := if db.cursor.Some? then db.cursor.value.(last := block.height) else Cursor(block.height, 0, None);
        var kept := map h | h in applied.value.blocks && h >= block.height - depth :: applied.value.blocks[h];
        Some(applied.value.(cursor := Some(cursor), blocks := kept))
  }

  function Orphan(p: Payment, ancestor: int): Payment {
    if p.height > ancestor then p.(status := Orphaned) else p
  }

  function OrphanAbove(payments: seq<Payment>, ancestor: int): (r: seq<Payment>)
    ensures |r| == |payments|
    ensures forall i :: 0 <= i < |r| ==> r[i] == Orphan(payments[i], ancestor)
  {
    seq(|payments|, i requires 0 <= i < |payments| => Orphan(payments[i], ancestor))
  }

  function OrdersAbove(payments: seq<Payment>, ancestor: int): set<string> {
    set p | p in payments && p.height > ancestor && p.orderId.Some? :: p.orderId.value
  }

  function BalancesAbove(db: Db, ancestor: int): set<BalanceKey> {
    set p, k | p in db.payments && p.height > ancestor && k in Touched(db, p) :: k
  }

  function RewindChain(db: Db, ancestor: int): Option<Db> {
    if db.cursor.None? || ancestor >= db.cursor.value.last || ancestor !in db.blocks then None
    else
      var orphaned := db.(payments := OrphanAbove(db.payments, ancestor));
      var ordered := RecalculateOrders(orphaned, OrdersAbove(db.payments, ancestor));
      var balanced := RecalculateBalances(ordered, BalancesAbove(db, ancestor));
      Some(balanced.(
             blocks := map h | h in db.blocks && h <= ancestor :: db.blocks[h],
             cursor := Some(db.cursor.value.(last := ancestor))))
  }

  function SetReorgSuspicion(db: Db, height: int): Db {
    if db.cursor.None? then db
    else
      var from := db.cursor.value.suspectedFrom;
      db.(cursor := Some(db.cursor.value.(suspectedFrom := Some(if from.None? then height else Min(from.value, height)))))
  }

  function ClearReorgSuspicion(db: Db): Db {
    if db.cursor.None? then db else db.(cursor := Some(db.cursor.value.(suspectedFrom := None)))
  }

  // ----- Confirmation -----

  predicate Unconfirmed(p: Payment) {
    p.status.Seen? || (p.status.Unattributed? && p.confirmedAt.None?)
  }

  predicate Mismatched(db: Db, p: Payment, solidified: int) {
    && Unconfirmed(p)
    && p.height <= solidified
    && p.height in db.blocks && db.blocks[p.height].id != p.blockId
  }

  /** The heights reached from h by following parent ids through the retained blocks. */
  function Canonical(blocks: map<int, Block>, h: int): (r: set<int>)
    ensures forall k :: k in r ==> k in blocks && k <= h
    decreases set k | k in blocks && k <= h
  {
    if h !in blocks then {}
    else if h - 1 in blocks && blocks[h].parent == blocks[h - 1].id then
      assert (set k | k in blocks && k <= h) == (set k | k in blocks && k <= h - 1) + {h};
      {h} + Canonical(blocks, h - 1)
    else {h}
  }

  predicate BelowRetention(db: Db, height: int) {
    db.blocks != map[] && forall h :: h in db.blocks ==> height < h
  }

  predicate Promotable(db: Db, p: Payment, required: int) {
    && db.cursor.Some?
    && Unconfirmed(p)
    && p.height <= db.cursor.value.solidified
    && ((p.height in Canonical(db.blocks, db.cursor.value.last) && db.blocks[p.height].id == p.blockId)
        || BelowRetention(db, p.height))
    && db.cursor.value.last - p.height >= required
    && (db.cursor.value.suspectedFrom.None? || p.height < db.cursor.value.suspectedFrom.value)
  }

  /** The confirmation tick's effect on one row: the promotion pass runs after the mismatch pass. */
  function Settle(db: Db, p: Payment, required: int, stamp: int): Payment {
    if Promotable(db, p, required) then
      p.(status := if p.status.Seen? then PaymentStatus.Confirmed else p.status, confirmedAt := Some(stamp))
    else if db.cursor.Some? && Mismatched(db, p, db.cursor.value.solidified) then
      p.(status := Orphaned, confirmedAt := None)
    else p
  }

  function SettleAll(db: Db, required: int, stamp: int): (r: seq<Payment>)
    ensures |r| == |db.payments|
    ensures forall i :: 0 <= i < |r| ==> r[i] == Settle(db, db.payments[i], required, stamp)
  {
    seq(|db.payments|, i requires 0 <= i < |db.payments| => Settle(db, db.payments[i], required, stamp))
  }

  function SettledBalances(db: Db, required: int): set<BalanceKey> {
    set p, k | p in db.payments && db.cursor.Some?
               && (Promotable(db, p, required) || Mismatched(db, p, db.cursor.value.solidified))
               && k in Touched(db, p) :: k
  }

  function MismatchedOrders(db: Db): set<string> {
    set p | p in db.payments && db.cursor.Some? && Mismatched(db, p, db.cursor.value.solidified)
            && p.orderId.Some? :: p.orderId.value
  }

  /** The rows promotePaidOrders inspects; unlike recalculateOrder it does not ask for the order's own address. */
  predicate Inspected(p: Payment, id: string, o: Order, releasedAt: Option<int>) {
    && p.orderId == Some(id)
    && !p.status.Orphaned?
    && p.direction.In?
    && p.asset == o.asset
    && InWindow(p.timestamp, o.createdAt, releasedAt)
  }

  predicate Confirmable(db: Db, id: string) {
    && id in db.orders
    && var o := db.orders[id];
    var released := ReleasedAt(db, o.addressId);
    && o.status.Paid?
    && (exists p :: p in db.payments && Inspected(p, id, o, released))
    && (forall p :: p in db.payments && Inspected(p, id, o, released) ==> p.status.Confirmed?)
  }

  function ConfirmableOrders(db: Db): set<string> {
    set id | id in db.orders && Confirmable(db, id)
  }

  /** Only an assigned address starts to cool; its payment window closes at the stamp. */
  function Cooled(a: Address, stamp: int, cooldown: int): Address {
    if a.state.Assigned? then a.(state := Cooling, releasedAt := Some(stamp), coolingUntil := Some(stamp + cooldown)) else a
  }

  function CoolAddresses(addresses: seq<Address>, ids: set<nat>, stamp: int, cooldown: int): (r: seq<Address>)
    ensures |r| == |addresses|
    ensures forall i :: 0 <= i < |r| ==> r[i] == if i in ids then Cooled(addresses[i], stamp, cooldown) else addresses[i]
  {
    seq(|addresses|, i requires 0 <= i < |addresses| =>
      if i in ids then Cooled(addresses[i], stamp, cooldown) else addresses[i])
  }

  function ConfirmOrders(db: Db, ids: set<string>, stamp: int, cooldown: int): Db {
    db.(orders := map id | id in db.orders ::
          if id in ids then db.orders[id].(status := OrderStatus.Confirmed) else db.orders[id],
        addresses := CoolAddresses(db.addresses, set id | id in ids && id in db.orders :: db.orders[id].addressId, stamp, cooldown))
  }

  function Solidified(db: Db, height: int): Db {
    if db.cursor.Some? && db.cursor.value.solidified < height
    then db.(cursor := Some(db.cursor.value.(solidified := height))) else db
  }

  /** Everything the confirmation tick does before it promotes orders. */
  function SettlePayments(db: Db, required: int, stamp: int): Db {
    var settled := db.(payments := SettleAll(db, required, stamp));
    RecalculateOrders(RecalculateBalances(settled, SettledBalances(db, required)), MismatchedOrders(db))
  }

  function ApplySolidifiedHeight(db: Db, height: int, required: int, cooldown: int, now: int): Option<Db> {
    if height < 0 || required <= 0 || db.cursor.None? then None
    else
      var settled := SettlePayments(Solidified(db, height), required, now);
      Some(ConfirmOrders(settled, ConfirmableOrders(settled), now, cooldown))
  }

  // ----- Order life cycle -----

  /** ExpireOrders handles one due order at a time: recheck, then expire and cool unless it turned out paid. */
  function ExpireOrder(db: Db, id: string, now: int, cooldown: int): Db {
    var checked := RecalculateOrder(db, id, true);
    if id !in checked.orders || checked.orders[id].status.Paid? then checked
    else
      var o := checked.orders[id];
      checked.(orders := checked.orders[id := o.(status := if o.received > 0 then ExpiredFunded else Expired)],
               addresses := CoolAddresses(checked.addresses, {o.addressId}, now, cooldown))
  }

  function ExpireAll(db: Db, ids: seq<string>, now: int, cooldown: int): Db {
    if ids == [] then db else ExpireOrder(ExpireAll(db, ids[..|ids| - 1], now, cooldown), ids[|ids| - 1], now, cooldown)
  }

  predicate Due(db: Db, id: string, now: int) {
    && id in db.orders
    && (db.orders[id].status.Pending? || db.orders[id].status.Partial?)
    && db.orders[id].expiresAt <= now
  }

  /** One result of the expiry query: every due order once, earliest expiry first. */
  ghost predicate DueListing(db: Db, ids: seq<string>, now: int) {
    && (forall id :: id in ids <==> Due(db, id, now))
    && (forall i, j :: 0 <= i < j < |ids| ==> ids[i] != ids[j])
    && (forall i, j :: 0 <= i < j < |ids| && ids[i] in db.orders && ids[j] in db.orders ==>
          db.orders[ids[i]].expiresAt <= db.orders[ids[j]].expiresAt)
  }

  function CancelOrder(db: Db, id: string, force: bool, cooldown: int, now: int): Option<Db> {
    if id !in db.orders then None
    else
      var o := db.orders[id];
      if (!o.status.Pending? && !force) || !Transitions(o.status) then None
      else
        Some(db.(orders := db.orders[id := o.(status := if o.received > 0 then CancelledFunded else Cancelled)],
                 addresses := CoolAddresses(db.addresses, {o.addressId}, now, cooldown)))
  }

  /** Durations are nanoseconds, as the source's time.Duration; the added lifetime is truncated to seconds. */
  function ExtendOrder(db: Db, id: string, ttl: int, maxLifetime: int): Option<Db> {
    if ttl <= 0 || maxLifetime <= 0 || id !in db.orders then None
    else
      var o := db.orders[id];
      var seconds := ttl / 1_000_000_000;
      if !Active(o.status) || seconds <= 0 || o.expiresAt > 0x7fff_ffff_ffff_ffff - seconds
         || o.expiresAt + seconds > o.createdAt + maxLifetime / 1_000_000_000 then None
      else Some(db.(orders := db.orders[id := o.(expiresAt := o.expiresAt + seconds)]))
  }

  function AttributePayment(db: Db, payment: nat, order: string): Option<Db> {
    if order !in db.orders || payment >= |db.payments| || !db.payments[payment].status.Unattributed? then None
    else
      var p := db.payments[payment];
      var row := p.(orderId := Some(order),
                    status := if p.confirmedAt.None? then PaymentStatus.Seen else PaymentStatus.Confirmed);
      var ordered := RecalculateOrder(db.(payments := db.payments[payment := row]), order, true);
      Some(RecalculateBalances(ordered, if p.addressId.Some? then {(p.addressId.value, p.asset)} else {}))
  }

  // ----- Address pool -----

  function PoolIndexes(addresses: seq<Address>): set<nat> {
    set a | a in addresses && a.hdIndex < 1000 :: a.hdIndex
  }

  predicate LeastUnused(used: set<nat>, r: nat) {
    r <= 1000 && (r < 1000 ==> r !in used) && forall k :: 0 <= k < r ==> k in used
  }

  lemma LeastUnusedExists(used: set<nat>, from: nat)
    requires from <= 1000 && forall k :: 0 <= k < from ==> k in used
    ensures exists r :: LeastUnused(used, r)
    decreases 1000 - from
  {
    if from == 1000 || from !in used {
      assert LeastUnused(used, from);
    } else {
      LeastUnusedExists(used, from + 1);
    }
  }

  /** The least unused pool index, or 1000. */
  function NextPoolIndex(used: set<nat>): (r: nat)
    ensures LeastUnused(used, r)
  {
    LeastUnusedExists(used, 0);
    var r :| LeastUnused(used, r);
    r
  }

  function LowestFree(addresses: seq<Address>): (r: Option<nat>)
    ensures r.Some? ==> r.value < |addresses| && addresses[r.value].state.Free? && addresses[r.value].hdIndex < 1000
    ensures r.Some? ==> forall i :: 0 <= i < |addresses| && addresses[i].state.Free? && addresses[i].hdIndex < 1000 ==>
                                      addresses[r.value].hdIndex <= addresses[i].hdIndex
    ensures r.None? ==> forall i :: 0 <= i < |addresses| && addresses[i].hdIndex < 1000 ==> !addresses[i].state.Free?
  {
    if addresses == [] then None
    else
      var last := |addresses| - 1;
      var best := LowestFree(addresses[..last]);
      if addresses[last].state.Free? && addresses[last].hdIndex < 1000
         && (best.None? || addresses[last].hdIndex < addresses[best.value].hdIndex)
      then Some(last) else best
  }

  /** Insert the next derived pool address, unless the pool or the index space is exhausted. */
  function InsertNextAddress(addresses: seq<Address>, derive: nat -> Option<string>, poolMax: int): Option<seq<Address>> {
    var used := PoolIndexes(addresses);
    var index := NextPoolIndex(used);
    if |used| >= poolMax || index >= 1000 || derive(index).None? || Owner(addresses, derive(index).value).Some? then None
    else Some(addresses + [Address(index, derive(index).value, Free, None, None, None)])
  }

  predicate RefTaken(db: Db, ref: Option<string>) {
    ref.Some? && exists id :: id in db.orders && db.orders[id].externalRef == ref
  }

  function ClaimAddress(db: Db, a: nat, id: string, order: Order): Db
    requires a < |db.addresses|
  {
    db.(orders := db.orders[id := order.(addressId := a)],
        addresses := db.addresses[a := db.addresses[a].(
                       state := Assigned, assignedOrder := Some(id), releasedAt := None, coolingUntil := None)])
  }

  /** order carries the requested fields; its address is chosen here. */
  function CreateOrder(db: Db, id: string, order: Order, derive: nat -> Option<string>, poolMax: int): Option<Db> {
    var blank := order.(received := 0, overpaid := 0, status := OrderStatus.Pending);
    var free := LowestFree(db.addresses);
    if id in db.orders || RefTaken(db, order.externalRef) then None
    else if free.Some? then Some(ClaimAddress(db, free.value, id, blank))
    else
      var grown := InsertNextAddress(db.addresses, derive, poolMax);
      if grown.None? || |grown.value| <= |db.addresses| then None
      else Some(ClaimAddress(db.(addresses := grown.value), |db.addresses|, id, blank))
  }

  function FreeCount(addresses: seq<Address>): int {
    Sum(addresses, (a: Address) => if a.state.Free? && a.hdIndex < 1000 then 1 else 0)
  }

  function TopUpSteps(addresses: seq<Address>, derive: nat -> Option<string>, steps: nat): Option<seq<Address>>
    decreases steps
  {
    if steps == 0 then Some(addresses)
    else
      var index := NextPoolIndex(PoolIndexes(addresses));
      if index >= 1000 then Some(addresses)
      else if derive(index).None? || Owner(addresses, derive(index).value).Some? then None
      else TopUpSteps(addresses + [Address(index, derive(index).value, Free, None, None, None)], derive, steps - 1)
  }

  function TopUpCount(addresses: seq<Address>, target: int, poolMax: int): nat {
    Max(Min(target - FreeCount(addresses), poolMax - |PoolIndexes(addresses)|), 0)
  }

  function TopUpPool(db: Db, derive: nat -> Option<string>, minFree: int, target: int, poolMax: int): Option<Db> {
    if FreeCount(db.addresses) >= minFree then None
    else
      var grown := TopUpSteps(db.addresses, derive, TopUpCount(db.addresses, target, poolMax));
      if grown.None? then None else Some(db.(addresses := grown.value))
  }

  function Released(a: Address, now: int): Address {
    if a.state.Cooling? && a.coolingUntil.Some? && a.coolingUntil.value <= now
    then a.(state := Free, assignedOrder := None, releasedAt := None, coolingUntil := None) else a
  }

  function ReleaseCooled(db: Db, now: int): Db {
    db.(addresses := seq(|db.addresses|, i requires 0 <= i < |db.addresses| => Released(db.addresses[i], now)))
  }

  function DisableAddress(db: Db, address: string): Option<Db> {
    var id := Owner(db.addresses, address);
    if id.None? then None
    else Some(db.(addresses := db.addresses[id.value := db.addresses[id.value].(state := Disabled)]))
  }

  // ----- Fees and top-ups -----

  function FeeRow(txid: string, height: int, timestamp: int, from: string, a: nat, fee: nat, now: int): Payment {
    Payment(PaymentKey(txid, -1), Out, height, "", timestamp, from, "network_fee", Some(a), None, "TRX", fee,
            false, PaymentStatus.Confirmed, now, Some(now), None)
  }

  /** The first row stored under a key stays. */
  function InsertIfAbsent(payments: seq<Payment>, row: Payment): seq<Payment> {
    if FindPayment(payments, row.key) < |payments| then payments else payments + [row]
  }

  function FeeInserted(db: Db, txid: string, height: int, timestamp: int, a: nat, fee: nat, now: int): seq<Payment> {
    if fee > 0 then InsertIfAbsent(db.payments, FeeRow(txid, height, timestamp, AddressAt(db, a), a, fee, now)) else db.payments
  }

  /** ConfirmWithdrawal's ledger part: debit the network fee at the source address. */
  function RecordFee(db: Db, txid: string, height: int, timestamp: int, a: nat, fee: nat, now: int): Option<Db> {
    if a >= |db.addresses| then None
    else if fee == 0 then Some(db)
    else Some(RecalculateBalances(db.(payments := FeeInserted(db, txid, height, timestamp, a, fee, now)), {(a, "TRX")}))
  }

  function TopupRow(txid: string, height: int, timestamp: int, from: string, to: string, a: nat, amount: nat, now: int): Payment {
    Payment(PaymentKey(txid, 0), Out, height, "", timestamp, from, to, Some(a), None, "TRX", amount,
            false, PaymentStatus.Confirmed, now, Some(now), None)
  }

  function ConfirmOrInsert(payments: seq<Payment>, row: Payment): seq<Payment> {
    var i := FindPayment(payments, row.key);
    if i < |payments|
    then payments[i := payments[i].(status := PaymentStatus.Confirmed, confirmedAt := row.confirmedAt)]
    else payments + [row]
  }

  /** The payment rows after a grant's receipt: the fee row once, and the confirmed top-up. */
  function ReceiptPayments(db: Db, txid: string, fee: nat, topup: Option<(string, nat)>, height: int, timestamp: int,
                           wallet: nat, now: int): seq<Payment> {
    var fees := FeeInserted(db, txid, height, timestamp, wallet, fee, now);
    if topup.None? then fees
    else ConfirmOrInsert(fees, TopupRow(txid, height, timestamp, AddressAt(db, wallet), topup.value.0, wallet, topup.value.1, now))
  }

  /**
   RecordResourceGrantReceipt's ledger part. wallet is the resource wallet's row; topup is the receiver and
   amount of a top-up grant.
   */
  function RecordGrantReceipt(db: Db, txid: string, fee: nat, topup: Option<(string, nat)>, height: int, timestamp: int,
                              wallet: nat, now: int): Option<Db> {
    if fee == 0 && topup.None? then Some(db)
    else if wallet >= |db.addresses| then None
    else
      var booked := db.(payments := ReceiptPayments(db, txid, fee, topup, height, timestamp, wallet, now));
      if topup.None? then Some(RecalculateBalances(booked, {(wallet, "TRX")}))
      else
        var receiverId := Owner(db.addresses, topup.value.0);
        if receiverId.None? then None else Some(RecalculateBalances(booked, {(wallet, "TRX"), (receiverId.value, "TRX")}))
  }

  // ----- Runs -----

  datatype Event =
    | Commit(block: Block, depth: int, records: seq<Payment>)
    | Rewind(ancestor: int)
    | Suspect(height: int)
    | ClearSuspicion
    | Solidify(height: int, required: int, cooldown: int, now: int)
    | Reconcile(records: seq<Payment>)
    | Attribute(payment: nat, order: string)
    | Expire(ids: seq<string>, now: int, cooldown: int)
    | Cancel(id: string, force: bool, cooldown: int, now: int)
    | Extend(id: string, ttl: int, maxLifetime: int)
    | Create(id: string, draft: Order, derive: nat -> Option<string>, poolMax: int)
    | TopUp(derive: nat -> Option<string>, minFree: int, target: int, poolMax: int)
    | Release(now: int)
    | Disable(address: string)
    | Fee(txid: string, height: int, timestamp: int, addressId: nat, fee: nat, now: int)
    | GrantReceipt(txid: string, fee: nat, topup: Option<(string, nat)>, height: int, timestamp: int, wallet: nat, now: int)

  /** The outcome of one transaction: None when it is rolled back. */
  function Attempt(db: Db, ev: Event): Option<Db> {
    match ev
    case Commit(block, depth, records) => CommitBlock(db, block, depth, records)
    case Rewind(ancestor) => RewindChain(db, ancestor)
    case Suspect(height) => Some(SetReorgSuspicion(db, height))
    case ClearSuspicion => Some(ClearReorgSuspicion(db))
    case Solidify(height, required, cooldown, now) => ApplySolidifiedHeight(db, height, required, cooldown, now)
    case Reconcile(records) => IngestAll(db, records)
    case Attribute(payment, order) => AttributePayment(db, payment, order)
    case Expire(ids, now, cooldown) => Some(ExpireAll(db, ids, now, cooldown))
    case Cancel(id, force, cooldown, now) => CancelOrder(db, id, force, cooldown, now)
    case Extend(id, ttl, maxLifetime) => ExtendOrder(db, id, ttl, maxLifetime)
    case Create(id, draft, derive, poolMax) => CreateOrder(db, id, draft, derive, poolMax)
    case TopUp(derive, minFree, target, poolMax) => TopUpPool(db, derive, minFree, target, poolMax)
    case Release(now) => Some(ReleaseCooled(db, now))
    case Disable(address) => DisableAddress(db, address)
    case Fee(txid, height, timestamp, a, fee, now) => RecordFee(db, txid, height, timestamp, a, fee, now)
    case GrantReceipt(txid, fee, topup, height, timestamp, wallet, now) =>
      RecordGrantReceipt(db, txid, fee, topup, height, timestamp, wallet, now)
  }

  function Apply(db: Db, ev: Event): Db {
    Attempt(db, ev).GetOr(db)
  }

  function Run(db: Db, evs: seq<Event>): Db {
    if evs == [] then db else Apply(Run(db, evs[..|evs| - 1]), evs[|evs| - 1])
  }
}
