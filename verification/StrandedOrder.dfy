/**
 A run from the empty database in which manual attribution leaves an order confirmed without the money it expects.
 Order a is confirmed, its address is released, and order b takes the address. The safety net reports a's payment
 again, so a is paid and confirmed once more, which cools and then frees the address that b still holds. A fork
 takes one of b's payments back; its replay finds no order at the address, so the row returns unattributed while
 it still carries b, and b is paid. Attributing that row to order c does not recalculate b, and the next tick
 confirms b with 60 of the 100 it expects. No rewind goes below the solidified height, and all stamps follow the
 block times.
 */
module StrandedOrder {
  import opened Prelude
  import opened Tables
  import opened Ledger
  import opened Integrity
  import opened Settlement
  import opened Finality

  // ----- The run -----

  function Derive(): nat -> Option<string> {
    (i: nat) => if i == 0 then Some("A0") else Some("A1")
  }

  function Draft(expected: nat, createdAt: int): Order {
    Order(None, 0, "USDT", expected, 0, 0, OrderStatus.Pending, createdAt, createdAt + 1000, "shop")
  }

  function Transfer(txid: string, amount: nat, height: int, blockId: string, timestamp: int): Payment {
    Payment(PaymentKey(txid, 0), In, height, blockId, timestamp, "payer", "A0", Some(0), None, "USDT", amount,
            false, PaymentStatus.Seen, timestamp, None, None)
  }

  function T0(): Payment { Transfer("0", 10, 1, "1", 10) }
  function T1(): Payment { Transfer("1", 60, 3, "3", 70) }
  function T2(): Payment { Transfer("2", 40, 4, "4", 80) }
  function Replayed(): Payment { Transfer("2", 40, 4, "k", 135) }

  function B1(): Block { Block(1, "1", "0", 10) }
  function B2(): Block { Block(2, "2", "1", 20) }
  function B3(): Block { Block(3, "3", "2", 70) }
  function B4(): Block { Block(4, "4", "3", 80) }
  function K4(): Block { Block(4, "k", "3", 135) }

  // Chain depth 20, one confirmation, a cooldown of 30 seconds.

  function CreateA(): Event { Create("a", Draft(10, 0), Derive(), 2) }
  function Mine1(): Event { Commit(B1(), 20, [T0()]) }
  function Mine2(): Event { Commit(B2(), 20, []) }
  function FirstTick(): Event { Solidify(1, 1, 30, 25) }
  function FirstRelease(): Event { Release(60) }
  function CreateB(): Event { Create("b", Draft(100, 60), Derive(), 2) }
  function CreateC(): Event { Create("c", Draft(100, 61), Derive(), 2) }
  function Mine3(): Event { Commit(B3(), 20, [T1()]) }
  function Mine4(): Event { Commit(B4(), 20, [T2()]) }
  function SafetyNet(): Event { Reconcile([T0()]) }
  function SecondTick(): Event { Solidify(1, 1, 30, 90) }
  function SecondRelease(): Event { Release(130) }
  function Fork(): Event { Rewind(3) }
  function Replay(): Event { Commit(K4(), 20, [Replayed()]) }
  function Reassign(): Event { Attribute(2, "c") }
  function LastTick(): Event { Solidify(3, 1, 30, 150) }

  function FirstCustomer(): seq<Event> { [CreateA(), Mine1(), Mine2(), FirstTick()] }
  function SecondCustomer(): seq<Event> { [FirstRelease(), CreateB(), CreateC(), Mine3()] }
  function SecondSighting(): seq<Event> { [Mine4(), SafetyNet(), SecondTick(), SecondRelease()] }
  function Reorg(): seq<Event> { [Fork(), Replay()] }

  /** The run up to the attribution. */
  function Before(): seq<Event> { FirstCustomer() + SecondCustomer() + SecondSighting() + Reorg() }

  /** The whole run. */
  function Whole(): seq<Event> { Before() + [Reassign(), LastTick()] }

  // ----- Sums and single records -----

  lemma SumOfOne(p: Payment, f: Payment -> int)
    ensures Sum([p], f) == f(p)
  {
    SumSnoc([], p, f);
    assert [] + [p] == [p];
  }

  lemma SumOfTwo(p: Payment, q: Payment, f: Payment -> int)
    ensures Sum([p, q], f) == f(p) + f(q)
  {
    SumSnoc([p], q, f);
    SumOfOne(p, f);
    assert [p] + [q] == [p, q];
  }

  lemma SumOfThree(p: Payment, q: Payment, r: Payment, f: Payment -> int)
    ensures Sum([p, q, r], f) == f(p) + f(q) + f(r)
  {
    SumSnoc([p, q], r, f);
    SumOfTwo(p, q, f);
    assert [p, q] + [r] == [p, q, r];
  }

  lemma OneRecord(db: Db, rec: Payment)
    ensures IngestAll(db, [rec]) == Ingest(db, rec)
  {
    assert [rec][..0] == [];
    assert IngestAll(db, []) == Some(db);
  }

  /** The safety net ingests one record. */
  lemma ReconcileOne(db: Db, rec: Payment)
    requires Ingest(db, rec).Some?
    ensures Apply(db, Reconcile([rec])) == Ingest(db, rec).value
  {
    OneRecord(db, rec);
  }

  /** The tables without their balances, which the run does not depend on. */
  ghost predicate State(db: Db, blocks: map<int, Block>, cursor: Option<Cursor>, payments: seq<Payment>, addresses: seq<Address>,
                        orders: map<string, Order>) {
    db == Db(blocks, cursor, payments, db.balances, addresses, orders)
  }

  /** The block is the next one, and no stored block is deep enough to be pruned. */
  ghost predicate Follows(db: Db, block: Block, blocks: map<int, Block>, next: Cursor) {
    && (db.cursor.Some? ==> block.height == db.cursor.value.last + 1)
    && next == (if db.cursor.Some? then db.cursor.value.(last := block.height) else Cursor(block.height, 0, None))
    && block.height !in db.blocks
    && blocks == db.blocks[block.height := block]
    && forall h :: h in blocks ==> h >= block.height - 20
  }

  /** A block with one record is committed when its record is ingested. */
  lemma CommitOne(db: Db, block: Block, blocks: map<int, Block>, next: Cursor, rec: Payment, payments: seq<Payment>,
                  orders: map<string, Order>)
    requires Follows(db, block, blocks, next)
    requires var r := Ingest(db.(blocks := blocks), rec);
             r.Some? && r.value.payments == payments && r.value.orders == orders && r.value.addresses == db.addresses
    ensures State(Apply(db, Commit(block, 20, [rec])), blocks, Some(next), payments, db.addresses, orders)
  {
    OneRecord(db.(blocks := blocks), rec);
    CommitShape(db, block, 20, [rec]);
    assert Apply(db, Commit(block, 20, [rec])).blocks == blocks;
  }

  // ----- What an upsert of the run computes -----

  /** A new row for an order, which then is worth a total. */
  lemma NewRow(db: Db, rec: Payment, row: Payment, id: string, total: nat)
    requires forall i :: 0 <= i < |db.payments| ==> db.payments[i].key != rec.key
    requires rec.addressId.Some? && rec.addressId.value < |db.addresses| && rec.direction.In? && !rec.dust
    requires MatchRecord(db, rec) == row && row.orderId == Some(id) && id in db.orders && row.confirmedAt.None?
    requires Sum(db.payments + [row], EligibleAmount(id, db.orders[id], ReleasedAt(db, db.orders[id].addressId))) == total
    ensures var r := Ingest(db, rec);
            && r.Some? && r.value.payments == db.payments + [row] && r.value.addresses == db.addresses
            && r.value.blocks == db.blocks && r.value.cursor == db.cursor
            && r.value.orders == db.orders[id := RecalculatedOrder(db.orders[id], total, true)]
  {
    assert FindPayment(db.payments, row.key) == |db.payments|;
  }

  /** A row seen again, carrying an order, which then is worth a total. */
  lemma OldRow(db: Db, rec: Payment, matched: Payment, i: nat, row: Payment, id: string, total: nat)
    requires DistinctKeys(db.payments) && i < |db.payments| && db.payments[i].key == rec.key
    requires rec.addressId.Some? && rec.addressId.value < |db.addresses| && rec.direction.In? && !rec.dust
    requires MatchRecord(db, rec) == matched && matched.orderId.None? && row == Resighted(db.payments[i], matched)
    requires db.payments[i].orderId == Some(id) && id in db.orders
    requires Sum(db.payments[i := row], EligibleAmount(id, db.orders[id], ReleasedAt(db, db.orders[id].addressId))) == total
    ensures var r := Ingest(db, rec);
            && r.Some? && r.value.payments == db.payments[i := row] && r.value.addresses == db.addresses
            && r.value.blocks == db.blocks && r.value.cursor == db.cursor
            && r.value.orders == db.orders[id := RecalculatedOrder(db.orders[id], total, true)]
  {
    assert FindPayment(db.payments, matched.key) == i;
  }

  // ----- The states of the run -----

  function A0(state: AddressState, order: Option<string>, released: Option<int>, cooling: Option<int>): Address {
    Address(0, "A0", state, order, released, cooling)
  }

  function A1(): Address {
    Address(1, "A1", Assigned, Some("c"), None, None)
  }

  function OrderA(status: OrderStatus, received: nat): Order {
    Draft(10, 0).(status := status, received := received)
  }

  function OrderB(status: OrderStatus, received: nat): Order {
    Draft(100, 60).(status := status, received := received)
  }

  function OrderC(): Order {
    Draft(100, 61).(addressId := 1)
  }

  function Row0(status: PaymentStatus, confirmedAt: Option<int>): Payment {
    T0().(orderId := Some("a"), status := status, confirmedAt := confirmedAt)
  }

  function Row1(status: PaymentStatus, confirmedAt: Option<int>): Payment {
    T1().(orderId := Some("b"), status := status, confirmedAt := confirmedAt)
  }

  function Row2(): Payment {
    T2().(orderId := Some("b"))
  }

  function Stranded(): Payment {
    Replayed().(orderId := Some("b"), detectedAt := 80, status := Unattributed, reason := Some(NoActiveOrder))
  }

  function Empty(): Db {
    Db(map[], None, [], map[], [], map[])
  }

  // ----- The tables after each transaction -----

  function Chain2(): map<int, Block> { map[1 := B1(), 2 := B2()] }
  function Chain3(): map<int, Block> { map[1 := B1(), 2 := B2(), 3 := B3()] }
  function Chain4(): map<int, Block> { map[1 := B1(), 2 := B2(), 3 := B3(), 4 := B4()] }
  function OtherChain(): map<int, Block> { map[1 := B1(), 2 := B2(), 3 := B3(), 4 := K4()] }


  function At(last: int, solidified: int): Option<Cursor> { Some(Cursor(last, solidified, None)) }

  function OneOrder(status: OrderStatus, received: nat): map<string, Order> { map["a" := OrderA(status, received)] }

  function Orders(a: OrderStatus, b: OrderStatus, received: nat): map<string, Order> {
    map["a" := OrderA(a, 10), "b" := OrderB(b, received), "c" := OrderC()]
  }

  lemma OrderAMoves(a: OrderStatus, next: OrderStatus, b: OrderStatus, received: nat)
    ensures Orders(a, b, received)["a" := OrderA(next, 10)] == Orders(next, b, received)
  {
  }

  lemma OrderBMoves(a: OrderStatus, b: OrderStatus, received: nat, next: OrderStatus, after: nat)
    ensures Orders(a, b, received)["b" := OrderB(next, after)] == Orders(a, next, after)
  {
  }

  function ServingA(): seq<Address> { [A0(Assigned, Some("a"), None, None)] }
  function ServingB(): seq<Address> { [A0(Assigned, Some("b"), None, None), A1()] }
  function FreedFromB(): seq<Address> { [A0(Free, None, None, None), A1()] }

  function Settled0(): Payment { Row0(PaymentStatus.Confirmed, Some(25)) }
  function Open1(): Payment { Row1(PaymentStatus.Seen, None) }

  /** Order a's row after the safety net reported it while b held the address. */
  function Again(): Payment { Settled0().(reason := Some(OutsideWindow)) }

  function Dropped(): Payment { Row2().(status := Orphaned) }
  function Taken(): Payment { Stranded().(orderId := Some("c"), status := PaymentStatus.Seen) }
  function Settled1(): Payment { Row1(PaymentStatus.Confirmed, Some(150)) }

  ghost predicate HasA(db: Db) { State(db, map[], None, [], ServingA(), OneOrder(OrderStatus.Pending, 0)) }

  ghost predicate APaid(db: Db) {
    State(db, map[1 := B1()], At(1, 0), [Row0(PaymentStatus.Seen, None)], ServingA(), OneOrder(OrderStatus.Paid, 10))
  }

  ghost predicate ADeep(db: Db) {
    State(db, Chain2(), At(2, 0), [Row0(PaymentStatus.Seen, None)], ServingA(), OneOrder(OrderStatus.Paid, 10))
  }

  ghost predicate AConfirmed(db: Db) {
    State(db, Chain2(), At(2, 1), [Settled0()], [A0(Cooling, Some("a"), Some(25), Some(55))], OneOrder(OrderStatus.Confirmed, 10))
  }

  ghost predicate AFinished(db: Db) {
    State(db, Chain2(), At(2, 1), [Settled0()], [A0(Free, None, None, None)], OneOrder(OrderStatus.Confirmed, 10))
  }

  ghost predicate HasB(db: Db) {
    State(db, Chain2(), At(2, 1), [Settled0()], [A0(Assigned, Some("b"), None, None)],
          map["a" := OrderA(OrderStatus.Confirmed, 10), "b" := OrderB(OrderStatus.Pending, 0)])
  }

  ghost predicate HasC(db: Db) {
    State(db, Chain2(), At(2, 1), [Settled0()], ServingB(), Orders(OrderStatus.Confirmed, OrderStatus.Pending, 0))
  }

  ghost predicate BPartial(db: Db) {
    State(db, Chain3(), At(3, 1), [Settled0(), Open1()], ServingB(), Orders(OrderStatus.Confirmed, OrderStatus.Partial, 60))
  }

  ghost predicate BPaid(db: Db) {
    State(db, Chain4(), At(4, 1), [Settled0(), Open1(), Row2()], ServingB(), Orders(OrderStatus.Confirmed, OrderStatus.Paid, 100))
  }

  ghost predicate APaidAgain(db: Db) {
    State(db, Chain4(), At(4, 1), [Again(), Open1(), Row2()], ServingB(), Orders(OrderStatus.Paid, OrderStatus.Paid, 100))
  }

  ghost predicate AConfirmedAgain(db: Db) {
    State(db, Chain4(), At(4, 1), [Again(), Open1(), Row2()], [A0(Cooling, Some("b"), Some(90), Some(120)), A1()],
          Orders(OrderStatus.Confirmed, OrderStatus.Paid, 100))
  }

  ghost predicate BHomeless(db: Db) {
    State(db, Chain4(), At(4, 1), [Again(), Open1(), Row2()], FreedFromB(), Orders(OrderStatus.Confirmed, OrderStatus.Paid, 100))
  }

  ghost predicate BForked(db: Db) {
    State(db, Chain3(), At(3, 1), [Again(), Open1(), Dropped()], FreedFromB(), Orders(OrderStatus.Confirmed, OrderStatus.Partial, 60))
  }

  ghost predicate BPaidAgain(db: Db) {
    State(db, OtherChain(), At(4, 1), [Again(), Open1(), Stranded()], FreedFromB(), Orders(OrderStatus.Confirmed, OrderStatus.Paid, 100))
  }

  ghost predicate RowTaken(db: Db) {
    State(db, OtherChain(), At(4, 1), [Again(), Open1(), Taken()], FreedFromB(), Orders(OrderStatus.Confirmed, OrderStatus.Paid, 100))
  }

  ghost predicate BConfirmed(db: Db) {
    State(db, OtherChain(), At(4, 3), [Again(), Settled1(), Taken()], FreedFromB(),
          Orders(OrderStatus.Confirmed, OrderStatus.Confirmed, 100))
  }

  // ----- Confirmation ticks -----

  lemma SettledState(db: Db, height: int, now: int, rows: seq<Payment>)
    requires db.cursor.Some?
    requires |rows| == |db.payments| && MismatchedOrders(Solidified(db, height)) == {}
    requires forall i :: 0 <= i < |rows| ==> rows[i] == Settle(Solidified(db, height), db.payments[i], 1, now)
    ensures var settled := SettlePayments(Solidified(db, height), 1, now);
            State(settled, db.blocks, Solidified(db, height).cursor, rows, db.addresses, db.orders)
  {
    assert SettleAll(Solidified(db, height), 1, now) == rows;
    assert SettlePayments(Solidified(db, height), 1, now).orders == db.orders;
  }

  lemma ConfirmedState(settled: Db, now: int, id: string, addresses: seq<Address>)
    requires id in settled.orders && ConfirmableOrders(settled) == {id}
    requires addresses == CoolAddresses(settled.addresses, {settled.orders[id].addressId}, now, 30)
    ensures State(ConfirmOrders(settled, ConfirmableOrders(settled), now, 30), settled.blocks, settled.cursor, settled.payments, addresses,
                  settled.orders[id := settled.orders[id].(status := OrderStatus.Confirmed)])
  {
    var after := ConfirmOrders(settled, {id}, now, 30);
    assert after.orders == settled.orders[id := settled.orders[id].(status := OrderStatus.Confirmed)];
    assert after.addresses == addresses;
  }

  lemma TickIs(db: Db, height: int, now: int)
    requires db.cursor.Some? && height >= 0
    ensures var settled := SettlePayments(Solidified(db, height), 1, now);
            ApplySolidifiedHeight(db, height, 1, 30, now) == Some(ConfirmOrders(settled, ConfirmableOrders(settled), now, 30))
  {
  }

  lemma TickApplied(db: Db, height: int, now: int, after: Db)
    requires ApplySolidifiedHeight(db, height, 1, 30, now) == Some(after)
    ensures Apply(db, Solidify(height, 1, 30, now)) == after
  {
  }

  ghost predicate OnlyConfirmable(rows: seq<Payment>, addresses: seq<Address>, orders: map<string, Order>, id: string) {
    forall other :: other in orders ==> (Confirmable(Db(map[], None, rows, map[], addresses, orders), other) <==> other == id)
  }

  lemma ConfirmableIsOnly(db: Db, id: string)
    requires id in db.orders && OnlyConfirmable(db.payments, db.addresses, db.orders, id)
    ensures ConfirmableOrders(db) == {id}
  {
    forall other | other in db.orders ensures Confirmable(db, other) <==> other == id {
      assert Confirmable(Db(map[], None, db.payments, map[], db.addresses, db.orders), other) <==> Confirmable(db, other);
    }
  }

  lemma SettledTick(db: Db, height: int, now: int, settled: Db, id: string, addresses: seq<Address>)
    requires db.cursor.Some? && height >= 0 && settled == SettlePayments(Solidified(db, height), 1, now)
    requires id in settled.orders && OnlyConfirmable(settled.payments, settled.addresses, settled.orders, id)
    requires addresses == CoolAddresses(settled.addresses, {settled.orders[id].addressId}, now, 30)
    ensures State(Apply(db, Solidify(height, 1, 30, now)), settled.blocks, settled.cursor, settled.payments, addresses,
                  settled.orders[id := settled.orders[id].(status := OrderStatus.Confirmed)])
  {
    TickIs(db, height, now);
    TickApplied(db, height, now, ConfirmOrders(settled, ConfirmableOrders(settled), now, 30));
    ConfirmableIsOnly(settled, id);
    ConfirmedState(settled, now, id, addresses);
  }

  /** A tick of the run: the rows it settles, and the one order it confirms. */
  lemma Ticked(db: Db, height: int, now: int, rows: seq<Payment>, id: string, addresses: seq<Address>)
    requires db.cursor.Some? && height >= 0
    requires |rows| == |db.payments| && MismatchedOrders(Solidified(db, height)) == {}
    requires forall i :: 0 <= i < |rows| ==> rows[i] == Settle(Solidified(db, height), db.payments[i], 1, now)
    requires id in db.orders && OnlyConfirmable(rows, db.addresses, db.orders, id)
    requires addresses == CoolAddresses(db.addresses, {db.orders[id].addressId}, now, 30)
    ensures State(Apply(db, Solidify(height, 1, 30, now)), db.blocks, Solidified(db, height).cursor, rows, addresses,
                  db.orders[id := db.orders[id].(status := OrderStatus.Confirmed)])
  {
    SettledState(db, height, now, rows);
    SettledTick(db, height, now, SettlePayments(Solidified(db, height), 1, now), id, addresses);
  }

  // ----- Order a -----

  lemma NextIndexIs(addresses: seq<Address>, r: nat)
    requires r < 2 && (forall k :: 0 <= k < r ==> k in PoolIndexes(addresses)) && r !in PoolIndexes(addresses)
    ensures NextPoolIndex(PoolIndexes(addresses)) == r
  {
    assert LeastUnused(PoolIndexes(addresses), NextPoolIndex(PoolIndexes(addresses)));
  }

  lemma OrderACreated()
    ensures HasA(Apply(Empty(), CreateA()))
  {
    assert PoolIndexes([]) == {};
    NextIndexIs([], 0);
    assert Derive()(0) == Some("A0");
    assert InsertNextAddress([], Derive(), 2) == Some([] + [Address(0, "A0", Free, None, None, None)]);
  }

  lemma FirstRowCounts(o: Order)
    requires o == OrderA(OrderStatus.Pending, 0)
    ensures Sum([Row0(PaymentStatus.Seen, None)], EligibleAmount("a", o, None)) == 10
  {
    SumOfOne(Row0(PaymentStatus.Seen, None), EligibleAmount("a", o, None));
  }

  lemma OnlyOrderMoves()
    ensures OneOrder(OrderStatus.Pending, 0)["a" := OrderA(OrderStatus.Paid, 10)] == OneOrder(OrderStatus.Paid, 10)
  {
  }

  lemma FirstRowMatches(inserted: Db)
    requires inserted.addresses == ServingA() && inserted.orders == OneOrder(OrderStatus.Pending, 0)
    ensures MatchRecord(inserted, T0()) == Row0(PaymentStatus.Seen, None)
  {
    assert AttributionOrder(inserted, 0) == Some("a");
  }

  lemma OrderAFull(inserted: Db)
    requires State(inserted, map[1 := B1()], None, [], ServingA(), OneOrder(OrderStatus.Pending, 0))
    ensures var r := Ingest(inserted, T0());
            && r.Some? && r.value.payments == [Row0(PaymentStatus.Seen, None)] && r.value.addresses == inserted.addresses
            && r.value.orders == OneOrder(OrderStatus.Paid, 10)
  {
    var row := Row0(PaymentStatus.Seen, None);
    FirstRowMatches(inserted);
    FirstRowCounts(inserted.orders["a"]);
    assert inserted.payments + [row] == [row];
    NewRow(inserted, T0(), row, "a", 10);
    OnlyOrderMoves();
  }

  lemma OrderAPaid(db: Db)
    requires HasA(db)
    ensures APaid(Apply(db, Mine1()))
  {
    OrderAFull(db.(blocks := map[1 := B1()]));
    CommitOne(db, B1(), map[1 := B1()], Cursor(1, 0, None), T0(), [Row0(PaymentStatus.Seen, None)], OneOrder(OrderStatus.Paid, 10));
  }

  lemma EmptyBlock(db: Db)
    requires APaid(db)
    ensures ADeep(Apply(db, Mine2()))
  {
    CommitShape(db, B2(), 20, []);
    assert Apply(db, Mine2()).blocks == Chain2();
  }

  lemma FirstChain()
    ensures 1 in Canonical(Chain2(), 2)
  {
    assert 1 in Canonical(Chain2(), 1);
  }

  lemma OrderAConfirmed(db: Db)
    requires ADeep(db)
    ensures AConfirmed(Apply(db, FirstTick()))
  {
    FirstChain();
    assert Settled0() in [Settled0()];
    Ticked(db, 1, 25, [Settled0()], "a", [A0(Cooling, Some("a"), Some(25), Some(55))]);
  }

  lemma AddressReleased(db: Db)
    requires AConfirmed(db)
    ensures AFinished(Apply(db, FirstRelease()))
  {
    assert Apply(db, FirstRelease()) == ReleaseCooled(db, 60);
  }

  // ----- Orders b and c -----

  lemma OrderBCreated(db: Db)
    requires AFinished(db)
    ensures HasB(Apply(db, CreateB()))
  {
    assert db.addresses[0] == A0(Free, None, None, None);
    assert LowestFree(db.addresses) == Some(0);
    assert Apply(db, CreateB()) == ClaimAddress(db, 0, "b", OrderB(OrderStatus.Pending, 0));
  }

  lemma SecondAddress(addresses: seq<Address>)
    requires addresses == [A0(Assigned, Some("b"), None, None)]
    ensures LowestFree(addresses).None?
    ensures InsertNextAddress(addresses, Derive(), 2) == Some(addresses + [Address(1, "A1", Free, None, None, None)])
  {
    var used := PoolIndexes(addresses);
    assert addresses[0] in addresses;
    assert used == {0} && |{0}| == 1;
    NextIndexIs(addresses, 1);
    assert Derive()(1) == Some("A1");
    assert addresses[0].address != "A1";
    assert Owner(addresses, "A1").None?;
  }

  lemma OrderCCreated(db: Db)
    requires HasB(db)
    ensures HasC(Apply(db, CreateC()))
  {
    SecondAddress(db.addresses);
    var grown := db.(addresses := db.addresses + [Address(1, "A1", Free, None, None, None)]);
    assert Apply(db, CreateC()) == ClaimAddress(grown, 1, "c", Draft(100, 61));
    assert Apply(db, CreateC()).addresses == ServingB();
    assert Apply(db, CreateC()).orders == Orders(OrderStatus.Confirmed, OrderStatus.Pending, 0);
  }

  lemma ThirdBlock(db: Db)
    requires HasC(db)
    ensures Follows(db, B3(), Chain3(), Cursor(3, 1, None))
  {
  }

  lemma OrderBFirst(inserted: Db)
    requires State(inserted, Chain3(), At(2, 1), [Settled0()], ServingB(), Orders(OrderStatus.Confirmed, OrderStatus.Pending, 0))
    ensures var r := Ingest(inserted, T1());
            && r.Some? && r.value.payments == [Settled0(), Open1()] && r.value.addresses == inserted.addresses
            && r.value.orders == Orders(OrderStatus.Confirmed, OrderStatus.Partial, 60)
  {
    SumOfTwo(Settled0(), Open1(), EligibleAmount("b", inserted.orders["b"], None));
    assert inserted.payments + [Open1()] == [Settled0(), Open1()];
    NewRow(inserted, T1(), Open1(), "b", 60);
    OrderBMoves(OrderStatus.Confirmed, OrderStatus.Pending, 0, OrderStatus.Partial, 60);
  }

  lemma OrderBPartial(db: Db)
    requires HasC(db)
    ensures BPartial(Apply(db, Mine3()))
  {
    ThirdBlock(db);
    OrderBFirst(db.(blocks := Chain3()));
    CommitOne(db, B3(), Chain3(), Cursor(3, 1, None), T1(), [Settled0(), Open1()], Orders(OrderStatus.Confirmed, OrderStatus.Partial, 60));
  }

  lemma FourthBlock(db: Db)
    requires BPartial(db)
    ensures Follows(db, B4(), Chain4(), Cursor(4, 1, None))
  {
  }

  lemma OrderBFull(inserted: Db)
    requires State(inserted, Chain4(), At(3, 1), [Settled0(), Open1()], ServingB(), Orders(OrderStatus.Confirmed, OrderStatus.Partial, 60))
    ensures var r := Ingest(inserted, T2());
            && r.Some? && r.value.payments == [Settled0(), Open1(), Row2()] && r.value.addresses == inserted.addresses
            && r.value.orders == Orders(OrderStatus.Confirmed, OrderStatus.Paid, 100)
  {
    var o := inserted.orders["b"];
    SumOfThree(Settled0(), Open1(), Row2(), EligibleAmount("b", o, None));
    assert inserted.payments + [Row2()] == [Settled0(), Open1(), Row2()];
    NewRow(inserted, T2(), Row2(), "b", 100);
    OrderBMoves(OrderStatus.Confirmed, OrderStatus.Partial, 60, OrderStatus.Paid, 100);
  }

  lemma OrderBPaid(db: Db)
    requires BPartial(db)
    ensures BPaid(Apply(db, Mine4()))
  {
    FourthBlock(db);
    OrderBFull(db.(blocks := Chain4()));
    CommitOne(db, B4(), Chain4(), Cursor(4, 1, None), T2(), [Settled0(), Open1(), Row2()], Orders(OrderStatus.Confirmed, OrderStatus.Paid, 100));
  }

  // ----- Order a once more -----

  lemma OutsideTheWindow(db: Db)
    requires BPaid(db)
    ensures MatchRecord(db, T0()) == T0().(status := Unattributed, reason := Some(OutsideWindow))
  {
    assert AttributionOrder(db, 0) == Some("b");
  }

  lemma StillCounted(o: Order)
    requires o == OrderA(OrderStatus.Confirmed, 10)
    ensures Sum([Again(), Open1(), Row2()], EligibleAmount("a", o, None)) == 10
  {
    SumOfThree(Again(), Open1(), Row2(), EligibleAmount("a", o, None));
  }

  lemma OrderAPaidAgain(db: Db)
    requires BPaid(db)
    ensures APaidAgain(Apply(db, SafetyNet()))
  {
    OutsideTheWindow(db);
    StillCounted(db.orders["a"]);
    assert db.payments[0 := Again()] == [Again(), Open1(), Row2()];
    OldRow(db, T0(), T0().(status := Unattributed, reason := Some(OutsideWindow)), 0, Again(), "a", 10);
    ReconcileOne(db, T0());
    OrderAMoves(OrderStatus.Confirmed, OrderStatus.Paid, OrderStatus.Paid, 100);
  }

  /** With a's row confirmed and b's rows open, only a can be confirmed. */
  lemma OnlyAConfirmable()
    ensures OnlyConfirmable([Again(), Open1(), Row2()], ServingB(), Orders(OrderStatus.Paid, OrderStatus.Paid, 100), "a")
  {
    var rows := [Again(), Open1(), Row2()];
    assert Again() in rows && Open1() in rows;
    assert Inspected(Again(), "a", OrderA(OrderStatus.Paid, 10), None);
    assert Inspected(Open1(), "b", OrderB(OrderStatus.Paid, 100), None);
  }

  lemma NothingSettles(db: Db)
    requires APaidAgain(db)
    ensures Solidified(db, 1) == db && MismatchedOrders(db) == {}
    ensures forall i :: 0 <= i < 3 ==> Settle(db, db.payments[i], 1, 90) == db.payments[i]
  {
    assert db.payments == [Again(), Open1(), Row2()];
  }

  lemma AddressCools()
    ensures CoolAddresses(ServingB(), {0}, 90, 30) == [A0(Cooling, Some("b"), Some(90), Some(120)), A1()]
  {
  }

  lemma AddressTakenFromB(db: Db)
    requires APaidAgain(db)
    ensures AConfirmedAgain(Apply(db, SecondTick()))
  {
    NothingSettles(db);
    OnlyAConfirmable();
    AddressCools();
    Ticked(db, 1, 90, db.payments, "a", [A0(Cooling, Some("b"), Some(90), Some(120)), A1()]);
    OrderAMoves(OrderStatus.Paid, OrderStatus.Confirmed, OrderStatus.Paid, 100);
  }

  lemma AddressFreedFromB(db: Db)
    requires AConfirmedAgain(db)
    ensures BHomeless(Apply(db, SecondRelease()))
  {
    assert Apply(db, SecondRelease()) == ReleaseCooled(db, 130);
  }

  // ----- The fork -----

  lemma RowDropped(db: Db)
    requires BHomeless(db)
    ensures OrphanAbove(db.payments, 3) == [Again(), Open1(), Dropped()] && OrdersAbove(db.payments, 3) == {"b"}
  {
    assert db.payments[2] in db.payments;
  }

  lemma OrderBShort(db: Db)
    requires db.payments == [Again(), Open1(), Dropped()] && db.addresses == FreedFromB()
    requires db.orders == Orders(OrderStatus.Confirmed, OrderStatus.Paid, 100)
    ensures RecalculateOrders(db, {"b"}).orders == Orders(OrderStatus.Confirmed, OrderStatus.Partial, 60)
  {
    SumOfThree(Again(), Open1(), Dropped(), EligibleAmount("b", db.orders["b"], None));
  }

  lemma OrderBForked(db: Db)
    requires BHomeless(db)
    ensures RespectsSolid(db, Fork()) && BForked(Apply(db, Fork()))
  {
    RowDropped(db);
    OrderBShort(db.(payments := [Again(), Open1(), Dropped()]));
    assert Apply(db, Fork()).blocks == Chain3();
  }

  lemma NobodyAtTheAddress(db: Db)
    requires db.addresses == FreedFromB()
    ensures MatchRecord(db, Replayed()) == Replayed().(status := Unattributed, reason := Some(NoActiveOrder))
  {
  }

  lemma FullOnceMore(o: Order)
    requires o == OrderB(OrderStatus.Partial, 60)
    ensures Sum([Again(), Open1(), Stranded()], EligibleAmount("b", o, None)) == 100
  {
    SumOfThree(Again(), Open1(), Stranded(), EligibleAmount("b", o, None));
  }

  lemma OtherFourthBlock(db: Db)
    requires BForked(db)
    ensures Follows(db, K4(), OtherChain(), Cursor(4, 1, None))
  {
  }

  lemma OrderBReplayed(inserted: Db)
    requires State(inserted, OtherChain(), At(3, 1), [Again(), Open1(), Dropped()], FreedFromB(),
                   Orders(OrderStatus.Confirmed, OrderStatus.Partial, 60))
    ensures var r := Ingest(inserted, Replayed());
            && r.Some? && r.value.payments == [Again(), Open1(), Stranded()] && r.value.addresses == inserted.addresses
            && r.value.orders == Orders(OrderStatus.Confirmed, OrderStatus.Paid, 100)
  {
    NobodyAtTheAddress(inserted);
    FullOnceMore(inserted.orders["b"]);
    assert inserted.payments[2 := Stranded()] == [Again(), Open1(), Stranded()];
    OldRow(inserted, Replayed(), Replayed().(status := Unattributed, reason := Some(NoActiveOrder)), 2, Stranded(), "b", 100);
    OrderBMoves(OrderStatus.Confirmed, OrderStatus.Partial, 60, OrderStatus.Paid, 100);
  }

  lemma OrderBPaidAgain(db: Db)
    requires BForked(db)
    ensures BPaidAgain(Apply(db, Replay()))
  {
    OtherFourthBlock(db);
    OrderBReplayed(db.(blocks := OtherChain()));
    CommitOne(db, K4(), OtherChain(), Cursor(4, 1, None), Replayed(), [Again(), Open1(), Stranded()], Orders(OrderStatus.Confirmed, OrderStatus.Paid, 100));
  }

  // ----- The wrong confirmation -----

  lemma RowReassigned(db: Db)
    requires BPaidAgain(db)
    ensures !Detachable(db, 2, "c") && RowTaken(Apply(db, Reassign()))
  {
    var rows := [Again(), Open1(), Taken()];
    assert db.payments[2 := Taken()] == rows;
    SumOfThree(rows[0], rows[1], rows[2], EligibleAmount("c", db.orders["c"], None));
    SumOfThree(db.payments[0], db.payments[1], db.payments[2], EligibleAmount("b", db.orders["b"], None));
    assert RecalculatedOrder(OrderC(), 0, true) == OrderC();
  }

  lemma LastChain()
    ensures 3 in Canonical(OtherChain(), 4)
  {
    assert 3 in Canonical(OtherChain(), 3);
  }

  lemma OnlyBConfirmable()
    ensures OnlyConfirmable([Again(), Settled1(), Taken()], FreedFromB(), Orders(OrderStatus.Confirmed, OrderStatus.Paid, 100), "b")
  {
    var rows := [Again(), Settled1(), Taken()];
    assert rows[1] == Settled1() && Settled1() in rows;
    assert Inspected(Settled1(), "b", OrderB(OrderStatus.Paid, 100), None);
  }

  lemma OneRowSettles(db: Db)
    requires RowTaken(db)
    ensures MismatchedOrders(Solidified(db, 3)) == {}
    ensures Settle(Solidified(db, 3), Again(), 1, 150) == Again()
    ensures Settle(Solidified(db, 3), Open1(), 1, 150) == Settled1()
    ensures Settle(Solidified(db, 3), Taken(), 1, 150) == Taken()
  {
    LastChain();
  }

  lemma NothingCools()
    ensures CoolAddresses(FreedFromB(), {0}, 150, 30) == FreedFromB()
  {
  }

  lemma OrderBConfirmed(db: Db)
    requires RowTaken(db)
    ensures BConfirmed(Apply(db, LastTick()))
  {
    OneRowSettles(db);
    OnlyBConfirmable();
    NothingCools();
    Ticked(db, 3, 150, [Again(), Settled1(), Taken()], "b", db.addresses);
    OrderBMoves(OrderStatus.Confirmed, OrderStatus.Paid, 100, OrderStatus.Confirmed, 100);
  }

  lemma OrderBUnfunded(db: Db)
    requires BConfirmed(db)
    ensures "b" in db.orders && db.orders["b"].status.Confirmed?
    ensures ConfirmedTotalOf(db, "b", db.orders["b"]) == 60 && db.orders["b"].expected == 100
  {
    SumOfThree(Again(), Settled1(), Taken(), ConfirmedAmount("b", db.orders["b"], None));
  }

  // ----- Every step is lawful, the attribution excepted -----

  /** What settlement and finality ask of a transaction. */
  ghost predicate Lawful(db: Db, ev: Event) {
    Orderly(db, ev) && RespectsSolid(db, ev)
  }

  lemma SteadyOne(db: Db, recs: seq<Payment>)
    requires forall i :: 0 <= i < |recs| ==> !recs[i].dust
    ensures SteadyIngest(db, recs)
  {
  }

  lemma CommitIsLawful(db: Db, block: Block, recs: seq<Payment>)
    requires forall i :: 0 <= i < |recs| ==> !recs[i].dust
    requires KeepsSolidHeights(db, recs)
    ensures Lawful(db, Commit(block, 20, recs))
  {
    SteadyOne(db.(blocks := db.blocks[block.height := block]), recs);
  }

  lemma FirstBlocksAreLawful(db: Db)
    ensures HasA(db) ==> Lawful(db, Mine1())
    ensures APaid(db) ==> Lawful(db, Mine2())
  {
    CommitIsLawful(db, B2(), []);
    if HasA(db) { CommitIsLawful(db, B1(), [T0()]); }
  }

  lemma ThirdBlockIsLawful(db: Db)
    requires HasC(db)
    ensures Lawful(db, Mine3())
  {
    CommitIsLawful(db, B3(), [T1()]);
  }

  lemma FourthBlockIsLawful(db: Db)
    requires BPartial(db)
    ensures Lawful(db, Mine4())
  {
    CommitIsLawful(db, B4(), [T2()]);
  }

  lemma SafetyNetIsLawful(db: Db)
    requires BPaid(db)
    ensures Lawful(db, SafetyNet())
  {
    SteadyOne(db, [T0()]);
  }

  lemma SecondTickIsLawful(db: Db)
    requires APaidAgain(db)
    ensures Lawful(db, SecondTick())
  {
    assert StampAfterPayments(db.payments, 90);
  }

  lemma ReplayIsLawful(db: Db)
    requires BForked(db)
    ensures Lawful(db, Replay())
  {
    CommitIsLawful(db, K4(), [Replayed()]);
  }

  // ----- The whole run -----

  ghost predicate LawfulRun(db: Db, evs: seq<Event>) {
    forall k :: 0 <= k < |evs| ==> Lawful(Run(db, evs[..k]), evs[k])
  }

  /** From every state of p, the transactions are lawful and lead to a state of q. */
  ghost predicate Leads(p: Db -> bool, evs: seq<Event>, q: Db -> bool) {
    forall db :: p(db) ==> LawfulRun(db, evs) && q(Run(db, evs))
  }

  ghost predicate Step(p: Db -> bool, ev: Event, q: Db -> bool) {
    forall db :: p(db) ==> Lawful(db, ev) && q(Apply(db, ev))
  }

  lemma RunOn(db: Db, evs: seq<Event>, ev: Event)
    ensures Run(db, evs + [ev]) == Apply(Run(db, evs), ev)
    ensures LawfulRun(db, evs) && Lawful(Run(db, evs), ev) ==> LawfulRun(db, evs + [ev])
  {
    var longer := evs + [ev];
    assert longer[..|evs|] == evs;
    forall k | 0 <= k < |evs| ensures longer[..k] == evs[..k] && longer[k] == evs[k] {
    }
  }

  lemma LeadsOn(p: Db -> bool, evs: seq<Event>, q: Db -> bool, ev: Event, r: Db -> bool)
    requires Leads(p, evs, q) && Step(q, ev, r)
    ensures Leads(p, evs + [ev], r)
  {
    forall db | p(db) ensures LawfulRun(db, evs + [ev]) && r(Run(db, evs + [ev])) {
      RunOn(db, evs, ev);
    }
  }

  lemma FourOn(p: Db -> bool, evs: seq<Event>, q0: Db -> bool, e1: Event, q1: Db -> bool, e2: Event, q2: Db -> bool,
               e3: Event, q3: Db -> bool, e4: Event, q4: Db -> bool)
    requires Leads(p, evs, q0) && Step(q0, e1, q1) && Step(q1, e2, q2) && Step(q2, e3, q3) && Step(q3, e4, q4)
    ensures Leads(p, evs + [e1, e2, e3, e4], q4)
  {
    LeadsOn(p, evs, q0, e1, q1);
    LeadsOn(p, evs + [e1], q1, e2, q2);
    LeadsOn(p, evs + [e1] + [e2], q2, e3, q3);
    LeadsOn(p, evs + [e1] + [e2] + [e3], q3, e4, q4);
    assert evs + [e1] + [e2] + [e3] + [e4] == evs + [e1, e2, e3, e4];
  }

  ghost predicate IsEmpty(db: Db) { db == Empty() }

  lemma CreatingStep()
    ensures Step(IsEmpty, CreateA(), HasA)
  {
    OrderACreated();
  }

  lemma FirstStep()
    ensures Step(HasA, Mine1(), APaid)
  {
    forall db | HasA(db) ensures Lawful(db, Mine1()) && APaid(Apply(db, Mine1())) {
      FirstBlocksAreLawful(db);
      OrderAPaid(db);
    }
  }

  lemma ConfirmingSteps()
    ensures Step(APaid, Mine2(), ADeep) && Step(ADeep, FirstTick(), AConfirmed)
  {
    forall db | APaid(db) ensures Lawful(db, Mine2()) && ADeep(Apply(db, Mine2())) {
      FirstBlocksAreLawful(db);
      EmptyBlock(db);
    }
    forall db | ADeep(db) ensures Lawful(db, FirstTick()) && AConfirmed(Apply(db, FirstTick())) {
      OrderAConfirmed(db);
    }
  }

  lemma SecondSteps()
    ensures Step(AConfirmed, FirstRelease(), AFinished) && Step(AFinished, CreateB(), HasB)
  {
    forall db | AConfirmed(db) ensures AFinished(Apply(db, FirstRelease())) {
      AddressReleased(db);
    }
    forall db | AFinished(db) ensures HasB(Apply(db, CreateB())) {
      OrderBCreated(db);
    }
  }

  lemma OtherOrderStep()
    ensures Step(HasB, CreateC(), HasC)
  {
    forall db | HasB(db) ensures HasC(Apply(db, CreateC())) {
      OrderCCreated(db);
    }
  }

  lemma PayingStep()
    ensures Step(HasC, Mine3(), BPartial)
  {
    forall db | HasC(db) ensures Lawful(db, Mine3()) && BPartial(Apply(db, Mine3())) {
      ThirdBlockIsLawful(db);
      OrderBPartial(db);
    }
  }

  lemma ThirdSteps()
    ensures Step(BPartial, Mine4(), BPaid) && Step(BPaid, SafetyNet(), APaidAgain)
  {
    forall db | BPartial(db) ensures Lawful(db, Mine4()) && BPaid(Apply(db, Mine4())) {
      FourthBlockIsLawful(db);
      OrderBPaid(db);
    }
    forall db | BPaid(db) ensures Lawful(db, SafetyNet()) && APaidAgain(Apply(db, SafetyNet())) {
      SafetyNetIsLawful(db);
      OrderAPaidAgain(db);
    }
  }

  lemma TakingStep()
    ensures Step(APaidAgain, SecondTick(), AConfirmedAgain)
  {
    forall db | APaidAgain(db) ensures Lawful(db, SecondTick()) && AConfirmedAgain(Apply(db, SecondTick())) {
      SecondTickIsLawful(db);
      AddressTakenFromB(db);
    }
  }

  lemma FreeingStep()
    ensures Step(AConfirmedAgain, SecondRelease(), BHomeless)
  {
    forall db | AConfirmedAgain(db) ensures BHomeless(Apply(db, SecondRelease())) {
      AddressFreedFromB(db);
    }
  }

  lemma ForkSteps()
    ensures Step(BHomeless, Fork(), BForked) && Step(BForked, Replay(), BPaidAgain)
  {
    forall db | BHomeless(db) ensures Lawful(db, Fork()) && BForked(Apply(db, Fork())) {
      OrderBForked(db);
    }
    forall db | BForked(db) ensures Lawful(db, Replay()) && BPaidAgain(Apply(db, Replay())) {
      ReplayIsLawful(db);
      OrderBPaidAgain(db);
    }
  }

  lemma LeadsToTheReplay()
    ensures Leads(IsEmpty, Before(), BPaidAgain)
  {
    var first, second, third := FirstCustomer(), FirstCustomer() + SecondCustomer(), FirstCustomer() + SecondCustomer() + SecondSighting();
    CreatingStep();
    FirstStep();
    ConfirmingSteps();
    FourOn(IsEmpty, [], IsEmpty, CreateA(), HasA, Mine1(), APaid, Mine2(), ADeep, FirstTick(), AConfirmed);
    assert [] + first == first;
    SecondSteps();
    OtherOrderStep();
    PayingStep();
    FourOn(IsEmpty, first, AConfirmed, FirstRelease(), AFinished, CreateB(), HasB, CreateC(), HasC, Mine3(), BPartial);
    ThirdSteps();
    TakingStep();
    FreeingStep();
    FourOn(IsEmpty, second, BPartial, Mine4(), BPaid, SafetyNet(), APaidAgain, SecondTick(), AConfirmedAgain, SecondRelease(), BHomeless);
    ForkSteps();
    LeadsOn(IsEmpty, third, BHomeless, Fork(), BForked);
    LeadsOn(IsEmpty, third + [Fork()], BForked, Replay(), BPaidAgain);
    assert third + [Fork()] + [Replay()] == Before();
  }

  lemma RunTwo(db: Db, evs: seq<Event>, e1: Event, e2: Event)
    ensures Run(db, evs + [e1, e2]) == Apply(Apply(Run(db, evs), e1), e2)
  {
    RunOn(db, evs, e1);
    RunOn(db, evs + [e1], e2);
    assert evs + [e1] + [e2] == evs + [e1, e2];
  }

  lemma LastTwo(db: Db, evs: seq<Event>)
    requires BPaidAgain(Run(db, evs))
    ensures !Lawful(Run(db, evs), Reassign()) && BConfirmed(Run(db, evs + [Reassign(), LastTick()]))
  {
    RowReassigned(Run(db, evs));
    OrderBConfirmed(Apply(Run(db, evs), Reassign()));
    RunTwo(db, evs, Reassign(), LastTick());
  }

  /**
   From the empty database, a run whose transactions all meet what settlement and finality ask, up to one manual
   attribution that detaches a counted row, ends with an order confirmed on 60 of the 100 it expects.
   */
  lemma AttributionCanConfirmAnUnfundedOrder()
    ensures LawfulRun(Empty(), Before()) && !Lawful(Run(Empty(), Before()), Reassign())
    ensures var after := Run(Empty(), Whole());
            && "b" in after.orders && after.orders["b"].status.Confirmed?
            && ConfirmedTotalOf(after, "b", after.orders["b"]) == 60 && after.orders["b"].expected == 100
  {
    LeadsToTheReplay();
    assert IsEmpty(Empty());
    LastTwo(Empty(), Before());
    OrderBUnfunded(Run(Empty(), Whole()));
  }
}
