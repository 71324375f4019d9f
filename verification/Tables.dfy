/**
 The tables the ledger transactions read and write. A row id that the schema numbers in order
 is the row's index, because payments and addresses are never deleted.
 */
module Tables {
  import opened Prelude

  // ----- Chain -----

  datatype Block = Block(height: int, id: string, parent: string, timestamp: int)

  /** The single crawler_state row. */
  datatype Cursor = Cursor(last: int, solidified: int, suspectedFrom: Option<int>)

  // ----- Payments -----

  datatype Direction = In | Out

  datatype PaymentStatus = Seen | Unattributed | Confirmed | Orphaned

  datatype Reason = NoActiveOrder | AssetMismatch | OutsideWindow

  datatype PaymentKey = PaymentKey(txid: string, logIndex: int)

  /** One payments row, and also a decoded record on its way in. */
  datatype Payment = Payment(
    key: PaymentKey, direction: Direction, height: int, blockId: string, timestamp: int,
    from: string, to: string, addressId: Option<nat>, orderId: Option<string>, asset: string, amount: nat,
    dust: bool, status: PaymentStatus, detectedAt: int, confirmedAt: Option<int>, reason: Option<Reason>)

  // ----- Orders and addresses -----

  datatype OrderStatus = Pending | Partial | Paid | Confirmed | Expired | ExpiredFunded | Cancelled | CancelledFunded

  datatype Order = Order(
    externalRef: Option<string>, addressId: nat, asset: string, expected: nat, received: int, overpaid: int,
    status: OrderStatus, createdAt: int, expiresAt: int,
    consumer: string)

  datatype AddressState = Free | Assigned | Cooling | Disabled

  datatype Address = Address(
    hdIndex: nat, address: string, state: AddressState, assignedOrder: Option<string>,
    releasedAt: Option<int>, coolingUntil: Option<int>)

  /** A cached balances row; drift belongs to the chain comparison and survives recalculation. */
  datatype Balance = Balance(confirmed: int, pending: int, drift: bool)

  type BalanceKey = (nat, string)

  datatype Db = Db(
    blocks: map<int, Block>, cursor: Option<Cursor>,
    payments: seq<Payment>, balances: map<BalanceKey, Balance>,
    addresses: seq<Address>, orders: map<string, Order>)

  // ----- Lookups -----

  /** The id of the row that owns an address string. */
  function Owner(addresses: seq<Address>, address: string): (id: Option<nat>)
    ensures id.Some? ==> id.value < |addresses| && addresses[id.value].address == address
    ensures id.None? ==> forall i :: 0 <= i < |addresses| ==> addresses[i].address != address
  {
    if addresses == [] then None
    else
      var last := |addresses| - 1;
      if addresses[last].address == address then Some(last) else Owner(addresses[..last], address)
  }

  /** The row with a (txid, log_index), or the row count when there is none. */
  function FindPayment(payments: seq<Payment>, key: PaymentKey): (i: nat)
    ensures i <= |payments|
    ensures i < |payments| ==> payments[i].key == key
    ensures i == |payments| ==> forall j :: 0 <= j < |payments| ==> payments[j].key != key
  {
    if payments == [] then 0
    else
      var last := |payments| - 1;
      var i := FindPayment(payments[..last], key);
      if i < last then i
      else if payments[last].key == key then last else |payments|
  }

  function AddressAt(db: Db, id: nat): string {
    if id < |db.addresses| then db.addresses[id].address else ""
  }

  function ReleasedAt(db: Db, id: nat): Option<int> {
    if id < |db.addresses| then db.addresses[id].releasedAt else None
  }

  function BalanceAt(db: Db, key: BalanceKey): Balance {
    if key in db.balances then db.balances[key] else Balance(0, 0, false)
  }

  // ----- Referential integrity -----

  ghost predicate DistinctKeys(payments: seq<Payment>) {
    forall i, j :: 0 <= i < j < |payments| ==> payments[i].key != payments[j].key
  }

  ghost predicate DistinctAddresses(addresses: seq<Address>) {
    forall i, j :: 0 <= i < j < |addresses| ==> addresses[i].address != addresses[j].address
  }

  predicate References(db: Db, p: Payment) {
    && (p.addressId.Some? ==> p.addressId.value < |db.addresses|)
    && (p.orderId.Some? ==> p.orderId.value in db.orders)
  }

  /** What the unique indexes and foreign keys guarantee of every committed state. */
  ghost predicate WellFormed(db: Db) {
    && DistinctKeys(db.payments)
    && DistinctAddresses(db.addresses)
    && (forall i :: 0 <= i < |db.payments| ==> References(db, db.payments[i]))
    && (forall id :: id in db.orders ==> db.orders[id].addressId < |db.addresses|)
    && (forall k :: k in db.balances ==> k.0 < |db.addresses|)
  }
}
