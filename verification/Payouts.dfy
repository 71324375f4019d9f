/**
 Money going out: withdrawals, the resource grants and energy purchases that fund them, and one function per
 store transaction on these tables. A transaction that the source rolls back, or refuses, is None.
 A row's identity is its index, because rows are never deleted.
 */
module Payouts {
  import opened Prelude
  import opened Tables
  import opened Ledger

  datatype WithdrawalStatus =
    | Requested | Rejected | AwaitingResources | AwaitingEnergy | Signing | Broadcast | Confirmed | Failed | NeedsOperator

  datatype Withdrawal = Withdrawal(
    idempotencyKey: string, addressId: nat, from: string, to: string, asset: string, amount: int, usd: real,
    status: WithdrawalStatus, statusAt: int, txid: Option<string>, attemptedAt: Option<int>, expiresAt: Option<int>,
    lookupAt: Option<int>, failures: nat, createdAt: int, energy: Option<EnergySource>)

  /** Where the energy of a token transfer comes from, once that is decided. */
  datatype EnergySource = OwnEnergy | RentedEnergy | DelegatedEnergy | BurnedTrx

  datatype GrantStatus = Requested | Attempted | Broadcast | Confirmed | Failed | NeedsOperator

  datatype Resource = Energy | Bandwidth

  datatype GrantSource = SelfDelegated | Topup

  /** withdrawal is empty for a grant an operator asked for. */
  datatype Grant = Grant(
    withdrawal: Option<nat>, receiver: string, resource: Resource, source: GrantSource, amount: nat,
    status: GrantStatus, txid: Option<string>, attemptedAt: Option<int>, expiresAt: Option<int>, fee: Option<nat>,
    failures: nat, createdAt: int)

  datatype PurchaseStatus = Quoted | Purchased | Delegated | Failed | Expired

  /** id is the ULID read as a number. */
  datatype Purchase = Purchase(id: nat, withdrawal: nat, status: PurchaseStatus, order: Option<string>, createdAt: int)

  datatype Books = Books(db: Db, withdrawals: seq<Withdrawal>, grants: seq<Grant>, purchases: seq<Purchase>)

  // ----- Status sets -----

  predicate Active(status: WithdrawalStatus) {
    status.AwaitingResources? || status.AwaitingEnergy? || status.Signing? || status.Broadcast?
  }

  /** The statuses the daily limit counts. */
  predicate Counted(status: WithdrawalStatus) {
    status.Requested? || Active(status) || status.Confirmed?
  }

  predicate Awaiting(status: WithdrawalStatus) {
    status.AwaitingResources? || status.AwaitingEnergy?
  }

  // ----- Requests -----

  /** usd and limit are None when the source cannot parse them. */
  datatype Request = Request(
    idempotencyKey: string, from: string, to: string, asset: string, amount: int, usd: Option<real>, limit: Option<real>, now: int)

  const DAY := 86_400

  function DayStart(now: int): int {
    now - now % DAY
  }

  function RealSum(s: seq<Withdrawal>, f: Withdrawal -> real): real {
    if s == [] then 0.0 else RealSum(s[..|s| - 1], f) + f(s[|s| - 1])
  }

  function CountedSince(start: int): Withdrawal -> real {
    (w: Withdrawal) => if w.createdAt >= start && Counted(w.status) then w.usd else 0.0
  }

  predicate KeyTaken(books: Books, key: string) {
    exists w :: w in books.withdrawals && w.idempotencyKey == key
  }

  function CreateWithdrawal(books: Books, r: Request): Option<Books> {
    var a := Owner(books.db.addresses, r.from);
    if KeyTaken(books, r.idempotencyKey) || a.None? || (a.value, r.asset) !in books.db.balances then None
    else
      var balance := books.db.balances[(a.value, r.asset)];
      if books.db.addresses[a.value].state.Disabled? || balance.drift || r.amount <= 0 || r.amount > balance.confirmed then None
      else if r.usd.None? || r.limit.None? || r.usd.value <= 0.0 || r.limit.value <= 0.0 then None
      else if RealSum(books.withdrawals, CountedSince(DayStart(r.now))) + r.usd.value > r.limit.value then None
      else
        Some(books.(withdrawals := books.withdrawals + [Withdrawal(
               r.idempotencyKey, a.value, r.from, r.to, r.asset, r.amount, r.usd.value, WithdrawalStatus.Requested, r.now,
               None, None, None, None, 0, r.now, None)]))
  }

  // ----- Claims -----

  predicate HoldsAddress(w: Withdrawal, i: nat, id: nat, addressId: nat) {
    i != id && w.addressId == addressId && Active(w.status)
  }

  /** The amounts other active withdrawals hold at the same address in the same asset. */
  function Held(ws: seq<Withdrawal>, id: nat, addressId: nat, asset: string): int {
    if ws == [] then 0
    else
      var i := |ws| - 1;
      Held(ws[..i], id, addressId, asset) +
      if HoldsAddress(ws[i], i, id, addressId) && ws[i].asset == asset then ws[i].amount else 0
  }

  predicate AddressBusy(ws: seq<Withdrawal>, id: nat, addressId: nat) {
    exists i :: 0 <= i < |ws| && HoldsAddress(ws[i], i, id, addressId)
  }

  predicate Funded(books: Books, id: nat)
    requires id < |books.withdrawals|
  {
    var w := books.withdrawals[id];
    && (w.addressId, w.asset) in books.db.balances
    && w.amount > 0
    && books.db.balances[(w.addressId, w.asset)].confirmed - Held(books.withdrawals, id, w.addressId, w.asset) >= w.amount
  }

  function Put(books: Books, id: nat, w: Withdrawal): Books
    requires id < |books.withdrawals|
  {
    books.(withdrawals := books.withdrawals[id := w])
  }

  function ClaimWithdrawal(books: Books, id: nat, now: int): Option<Books> {
    if id >= |books.withdrawals| then None
    else
      var w := books.withdrawals[id];
      var key := (w.addressId, w.asset);
      if key !in books.db.balances || books.db.balances[key].drift then None
      else if !Funded(books, id) then
        Some(if w.status.Requested? then Put(books, id, w.(status := Rejected, statusAt := now)) else books)
      else if w.status.Requested? && !AddressBusy(books.withdrawals, id, w.addressId) then
        Some(Put(books, id, w.(status := AwaitingResources, statusAt := now)))
      else Some(books)
  }

  // ----- Withdrawal updates -----

  /** Changes the row only while it is in the expected state. */
  function SetWithdrawalResourceState(books: Books, id: nat, from: WithdrawalStatus, to: WithdrawalStatus,
                                      energy: Option<EnergySource>, now: int): Option<Books> {
    if id >= |books.withdrawals| || books.withdrawals[id].status != from then None
    else
      var w := books.withdrawals[id];
      Some(Put(books, id, w.(status := to, statusAt := now, energy := if energy.Some? then energy else w.energy)))
  }

  function PersistWithdrawalAttempt(books: Books, id: nat, txid: string, now: int, expiresAt: int): Option<Books> {
    if id >= |books.withdrawals| then None
    else
      var w := books.withdrawals[id];
      if !w.status.Signing? || w.txid.Some? || w.attemptedAt.Some? then None
      else Some(Put(books, id, w.(txid := Some(txid), attemptedAt := Some(now), expiresAt := Some(expiresAt))))
  }

  function RecordWithdrawalBroadcast(books: Books, id: nat, now: int): Option<Books> {
    if id >= |books.withdrawals| then None
    else
      var w := books.withdrawals[id];
      if w.txid.None? || w.attemptedAt.None? || w.status.Confirmed? || w.status.Failed? then None
      else Some(Put(books, id, w.(status := WithdrawalStatus.Broadcast, statusAt := now, failures := 0)))
  }

  function RecordWithdrawalLookup(books: Books, id: nat, found: bool, now: int): Option<Books> {
    if id >= |books.withdrawals| then None
    else
      var w := books.withdrawals[id];
      var stamped := if found || w.status.Broadcast? then w.(statusAt := now) else w;
      Some(Put(books, id, stamped.(status := if found then WithdrawalStatus.Broadcast else w.status, lookupAt := Some(now), failures := 0)))
  }

  function ToOperator(w: Withdrawal, now: int): Withdrawal {
    if w.status.Confirmed? || w.status.Failed? || w.status.NeedsOperator? then w
    else w.(status := WithdrawalStatus.NeedsOperator, statusAt := now)
  }

  function RecordLookupFailure(books: Books, id: nat, now: int): Option<Books> {
    if id >= |books.withdrawals| then None
    else
      var w := books.withdrawals[id].(lookupAt := Some(now), failures := books.withdrawals[id].failures + 1);
      Some(Put(books, id, if w.failures >= 10 then ToOperator(w, now) else w))
  }

  function WithdrawalNeedsOperator(books: Books, id: nat, now: int): Option<Books> {
    if id >= |books.withdrawals| then None else Some(Put(books, id, ToOperator(books.withdrawals[id], now)))
  }

  function FailWithdrawalAbsent(books: Books, id: nat, now: int): Option<Books> {
    if id >= |books.withdrawals| then None
    else
      var w := books.withdrawals[id];
      if w.txid.None? || w.status.Confirmed? || w.status.Failed? then None
      else Some(Put(books, id, w.(status := WithdrawalStatus.Failed, statusAt := now)))
  }

  function FailWithdrawalResources(books: Books, id: nat, now: int): Option<Books> {
    if id >= |books.withdrawals| then None
    else
      var w := books.withdrawals[id];
      if w.txid.Some? || !Awaiting(w.status) then None
      else Some(Put(books, id, w.(status := WithdrawalStatus.Failed, statusAt := now)))
  }

  function ConfirmWithdrawal(books: Books, id: nat, fee: int, height: int, timestamp: int, now: int): Option<Books> {
    if id >= |books.withdrawals| then None
    else
      var w := books.withdrawals[id];
      if w.txid.None? || w.status.Confirmed? then None
      else
        var debited := RecordFee(books.db, w.txid.value, height, timestamp, w.addressId, if fee > 0 then fee else 0, now);
        if debited.None? then None
        else Some(Put(books, id, w.(status := WithdrawalStatus.Confirmed, statusAt := now, failures := 0)).(db := debited.value))
  }

  /** The operator's decision; the source accepts no other outcome than confirmed or failed. */
  function ResolveWithdrawal(books: Books, id: nat, confirmed: bool, now: int): Option<Books> {
    if id >= |books.withdrawals| || !books.withdrawals[id].status.NeedsOperator? then None
    else
      Some(Put(books, id, books.withdrawals[id].(
             status := if confirmed then WithdrawalStatus.Confirmed else WithdrawalStatus.Failed, statusAt := now)))
  }

  // ----- Resource grants -----

  predicate GrantExists(books: Books, withdrawal: nat, resource: Resource) {
    exists g :: g in books.grants && g.withdrawal == Some(withdrawal) && g.resource == resource
  }

  function CreateResourceGrant(books: Books, withdrawal: Option<nat>, receiver: string, resource: Resource, source: GrantSource,
                               amount: nat, now: int): Option<Books> {
    if withdrawal.Some? && withdrawal.value >= |books.withdrawals| then None
    else if withdrawal.Some? && GrantExists(books, withdrawal.value, resource) then None
    else
      Some(books.(grants := books.grants + [
             Grant(withdrawal, receiver, resource, source, amount, GrantStatus.Requested, None, None, None, None, 0, now)]))
  }

  function PutGrant(books: Books, id: nat, g: Grant): Books
    requires id < |books.grants|
  {
    books.(grants := books.grants[id := g])
  }

  function PersistResourceGrantAttempt(books: Books, id: nat, txid: string, now: int, expiresAt: int): Option<Books> {
    if id >= |books.grants| then None
    else
      var g := books.grants[id];
      if !g.status.Requested? || g.txid.Some? || g.attemptedAt.Some? then None
      else
        Some(PutGrant(books, id, g.(txid := Some(txid), attemptedAt := Some(now), expiresAt := Some(expiresAt), status := Attempted)))
  }

  function RecordResourceGrantBroadcast(books: Books, id: nat): Option<Books> {
    if id >= |books.grants| then None
    else
      var g := books.grants[id];
      if g.txid.None? || g.attemptedAt.None? || !g.status.Attempted? then None
      else Some(PutGrant(books, id, g.(status := GrantStatus.Broadcast)))
  }

  function SettleGrant(books: Books, id: nat, confirmed: bool): Option<Books> {
    if id >= |books.grants| || books.grants[id].status.Confirmed? || books.grants[id].status.Failed? then None
    else Some(PutGrant(books, id, books.grants[id].(status := if confirmed then GrantStatus.Confirmed else GrantStatus.Failed)))
  }

  function ResourceGrantNeedsOperator(books: Books, id: nat): Option<Books> {
    if id >= |books.grants| then None
    else
      var g := books.grants[id];
      if g.status.Confirmed? || g.status.Failed? || g.status.NeedsOperator? then None
      else Some(PutGrant(books, id, g.(status := GrantStatus.NeedsOperator)))
  }

  function RecordResourceGrantLookup(books: Books, id: nat, ok: bool): Option<Books> {
    if id >= |books.grants| then None
    else Some(PutGrant(books, id, books.grants[id].(failures := if ok then 0 else books.grants[id].failures + 1)))
  }

  /** The disabled address at the resource wallet's index. */
  function ResourceWallet(addresses: seq<Address>, index: nat): Option<nat> {
    if addresses == [] then None
    else
      var last := |addresses| - 1;
      if addresses[last].hdIndex == index && addresses[last].state.Disabled? then Some(last)
      else ResourceWallet(addresses[..last], index)
  }

  function RecordResourceGrantReceipt(books: Books, id: nat, fee: int, height: int, timestamp: int, wallet: nat, now: int): Option<Books> {
    if id >= |books.grants| || fee < 0 || books.grants[id].txid.None? then None
    else
      var g := books.grants[id];
      var topup := if g.source.Topup? then Some((g.receiver, g.amount)) else None;
      var owner := ResourceWallet(books.db.addresses, wallet);
      var debited := RecordGrantReceipt(books.db, g.txid.value, fee, topup, height, timestamp, owner.GetOr(|books.db.addresses|), now);
      if debited.None? then None
      else Some(PutGrant(books, id, g.(fee := if g.fee.Some? then g.fee else Some(fee))).(db := debited.value))
  }

  // ----- Energy purchases -----

  predicate Later(p: Purchase, q: Purchase) {
    q.createdAt < p.createdAt || (q.createdAt == p.createdAt && q.id < p.id)
  }

  /** The latest purchase of a withdrawal; the larger id wins among those of one second. */
  function EnergyPurchaseForWithdrawal(ps: seq<Purchase>, withdrawal: nat): (r: Option<nat>)
    ensures r.Some? ==> r.value < |ps| && ps[r.value].withdrawal == withdrawal
    ensures r.None? ==> forall i :: 0 <= i < |ps| ==> ps[i].withdrawal != withdrawal
    ensures r.Some? ==> forall i :: 0 <= i < |ps| && ps[i].withdrawal == withdrawal ==> !Later(ps[i], ps[r.value])
  {
    if ps == [] then None
    else
      var last := |ps| - 1;
      var best := EnergyPurchaseForWithdrawal(ps[..last], withdrawal);
      if ps[last].withdrawal == withdrawal && (best.None? || Later(ps[last], ps[best.value])) then Some(last) else best
  }

  function PutPurchase(books: Books, i: nat, p: Purchase): Books
    requires i < |books.purchases|
  {
    books.(purchases := books.purchases[i := p])
  }

  /** price is None when the quote cannot be parsed. */
  function CreateEnergyPurchase(books: Books, id: nat, withdrawal: nat, price: Option<real>, now: int): Option<Books> {
    if price.None? || price.value < 0.0 || withdrawal >= |books.withdrawals|
       || exists p :: p in books.purchases && p.id == id then None
    else Some(books.(purchases := books.purchases + [Purchase(id, withdrawal, Quoted, None, now)]))
  }

  function MarkEnergyPurchaseAttempt(books: Books, i: nat, order: string): Option<Books> {
    if i >= |books.purchases| || !books.purchases[i].status.Quoted? || books.purchases[i].order.Some? then None
    else Some(PutPurchase(books, i, books.purchases[i].(status := Purchased, order := Some(order))))
  }

  function RejectEnergyQuote(books: Books, i: nat): Option<Books> {
    if i >= |books.purchases| || !books.purchases[i].status.Quoted? then None
    else Some(PutPurchase(books, i, books.purchases[i].(status := PurchaseStatus.Failed)))
  }

  function RecordEnergyPurchaseOrder(books: Books, i: nat, order: string): Option<Books> {
    if i >= |books.purchases| || !books.purchases[i].status.Purchased? then None
    else Some(PutPurchase(books, i, if order == "" then books.purchases[i] else books.purchases[i].(order := Some(order))))
  }

  function CompleteEnergyPurchase(books: Books, i: nat): Option<Books> {
    if i >= |books.purchases| || !books.purchases[i].status.Purchased? then None
    else Some(PutPurchase(books, i, books.purchases[i].(status := Delegated)))
  }

  function FailEnergyPurchase(books: Books, i: nat): Option<Books> {
    if i >= |books.purchases| || !(books.purchases[i].status.Quoted? || books.purchases[i].status.Purchased?) then None
    else Some(PutPurchase(books, i, books.purchases[i].(status := PurchaseStatus.Failed)))
  }

  function Reconciled(p: Purchase, withdrawal: nat, visible: bool): Purchase {
    if p.withdrawal == withdrawal && p.status.Purchased? then p.(status := if visible then Delegated else PurchaseStatus.Expired) else p
  }

  function ReconcileWithdrawalEnergy(books: Books, withdrawal: nat, visible: bool): Books {
    books.(purchases := seq(|books.purchases|, i requires 0 <= i < |books.purchases| => Reconciled(books.purchases[i], withdrawal, visible)))
  }

  // ----- Transactions -----

  datatype Op =
    | Create(request: Request)
    | Claim(id: nat, now: int)
    | SetState(id: nat, from: WithdrawalStatus, to: WithdrawalStatus, energy: Option<EnergySource>, now: int)
    | PersistAttempt(id: nat, txid: string, now: int, expiresAt: int)
    | RecordBroadcast(id: nat, now: int)
    | RecordLookup(id: nat, found: bool, now: int)
    | LookupFailure(id: nat, now: int)
    | Escalate(id: nat, now: int)
    | FailAbsent(id: nat, now: int)
    | FailResources(id: nat, now: int)
    | Confirm(id: nat, fee: int, height: int, timestamp: int, now: int)
    | Resolve(id: nat, confirmed: bool, now: int)
    | CreateGrant(funded: Option<nat>, receiver: string, resource: Resource, source: GrantSource, amount: nat, now: int)
    | PersistGrant(id: nat, txid: string, now: int, expiresAt: int)
    | RecordGrant(id: nat)
    | EndGrant(id: nat, confirmed: bool)
    | EscalateGrant(id: nat)
    | LookupGrant(id: nat, ok: bool)
    | ReceiveGrant(id: nat, fee: int, height: int, timestamp: int, wallet: nat, now: int)
    | CreateQuote(id: nat, withdrawal: nat, price: Option<real>, now: int)
    | MarkPurchase(id: nat, order: string)
    | RejectQuote(id: nat)
    | RecordOrder(id: nat, order: string)
    | CompletePurchase(id: nat)
    | FailPurchase(id: nat)
    | ReconcileEnergy(withdrawal: nat, visible: bool)
    | LedgerEvent(ev: Event)

  function AttemptOp(books: Books, op: Op): Option<Books> {
    match op
    case Create(request) => CreateWithdrawal(books, request)
    case Claim(id, now) => ClaimWithdrawal(books, id, now)
    case SetState(id, from, to, energy, now) => SetWithdrawalResourceState(books, id, from, to, energy, now)
    case PersistAttempt(id, txid, now, expiresAt) => PersistWithdrawalAttempt(books, id, txid, now, expiresAt)
    case RecordBroadcast(id, now) => RecordWithdrawalBroadcast(books, id, now)
    case RecordLookup(id, found, now) => RecordWithdrawalLookup(books, id, found, now)
    case LookupFailure(id, now) => RecordLookupFailure(books, id, now)
    case Escalate(id, now) => WithdrawalNeedsOperator(books, id, now)
    case FailAbsent(id, now) => FailWithdrawalAbsent(books, id, now)
    case FailResources(id, now) => FailWithdrawalResources(books, id, now)
    case Confirm(id, fee, height, timestamp, now) => ConfirmWithdrawal(books, id, fee, height, timestamp, now)
    case Resolve(id, confirmed, now) => ResolveWithdrawal(books, id, confirmed, now)
    case CreateGrant(withdrawal, receiver, resource, source, amount, now) =>
      CreateResourceGrant(books, withdrawal, receiver, resource, source, amount, now)
    case PersistGrant(id, txid, now, expiresAt) => PersistResourceGrantAttempt(books, id, txid, now, expiresAt)
    case RecordGrant(id) => RecordResourceGrantBroadcast(books, id)
    case EndGrant(id, confirmed) => SettleGrant(books, id, confirmed)
    case EscalateGrant(id) => ResourceGrantNeedsOperator(books, id)
    case LookupGrant(id, ok) => RecordResourceGrantLookup(books, id, ok)
    case ReceiveGrant(id, fee, height, timestamp, wallet, now) =>
      RecordResourceGrantReceipt(books, id, fee, height, timestamp, wallet, now)
    case CreateQuote(id, withdrawal, price, now) => CreateEnergyPurchase(books, id, withdrawal, price, now)
    case MarkPurchase(id, order) => MarkEnergyPurchaseAttempt(books, id, order)
    case RejectQuote(id) => RejectEnergyQuote(books, id)
    case RecordOrder(id, order) => RecordEnergyPurchaseOrder(books, id, order)
    case CompletePurchase(id) => CompleteEnergyPurchase(books, id)
    case FailPurchase(id) => FailEnergyPurchase(books, id)
    case ReconcileEnergy(withdrawal, visible) => Some(ReconcileWithdrawalEnergy(books, withdrawal, visible))
    case LedgerEvent(ev) => if Attempt(books.db, ev).Some? then Some(books.(db := Attempt(books.db, ev).value)) else None
  }

  /** The writes that reach the disk before they return; every other write may be lost by a power failure. */
  predicate IsFull(op: Op) {
    op.PersistAttempt? || op.RecordBroadcast? || op.PersistGrant? || op.RecordGrant? || op.MarkPurchase?
  }
}
