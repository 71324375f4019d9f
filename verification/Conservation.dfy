/**
 Conservation of money: the balances of all owned addresses together hold what came in from
 outside, less what went out, less self-transfers. A transfer between two owned addresses nets to zero.
 */
module Conservation {
  import opened Prelude
  import opened Tables
  import opened Ledger
  import opened Balances

  function Ids(n: nat): seq<nat> {
    seq(n, i requires 0 <= i < n => i)
  }

  function HeldAt(db: Db, asset: string): nat -> int {
    (a: nat) => BalanceAt(db, (a, asset)).confirmed + BalanceAt(db, (a, asset)).pending
  }

  /** Confirmed plus pending over every owned address. */
  function TotalHeld(db: Db, asset: string): int {
    Sum(Ids(|db.addresses|), HeldAt(db, asset))
  }

  predicate Live(p: Payment, asset: string) {
    !p.status.Orphaned? && p.asset == asset
  }

  /** Value entering the set of owned addresses. */
  function Inflow(db: Db, asset: string): Payment -> int {
    (p: Payment) =>
      if Live(p, asset) && p.direction.In? && p.addressId.Some? then p.amount
      else if Live(p, asset) && p.direction.Out? && p.addressId.None? && Owner(db.addresses, p.to).Some? then p.amount
      else 0
  }

  /** Value leaving the set of owned addresses, network fees included. */
  function Outflow(db: Db, asset: string): Payment -> int {
    (p: Payment) =>
      if Live(p, asset) && p.direction.Out? && p.addressId.Some? && Owner(db.addresses, p.to).None? then p.amount else 0
  }

  /** The single debit of a transfer from an owned address to itself. */
  function SelfTransfer(db: Db, asset: string): Payment -> int {
    (p: Payment) =>
      if Live(p, asset) && p.direction.Out? && p.addressId.Some? && Owner(db.addresses, p.to) == p.addressId then p.amount else 0
  }

  // ----- One row, all addresses -----

  function LiveEffect(p: Payment, a: nat, address: string, asset: string): int {
    if p.status.Orphaned? then 0 else Effect(p, a, address, asset)
  }

  function EffectsOf(db: Db, asset: string, p: Payment): nat -> int {
    (a: nat) => LiveEffect(p, a, AddressAt(db, a), asset)
  }

  function Point(i: Option<nat>, v: int): nat -> int {
    (a: nat) => if i == Some(a) then v else 0
  }

  lemma {:induction false} SumPoint(n: nat, i: Option<nat>, v: int)
    ensures Sum(Ids(n), Point(i, v)) == if i.Some? && i.value < n then v else 0
    decreases n
  {
    if n > 0 {
      assert Ids(n)[..n - 1] == Ids(n - 1);
      SumPoint(n - 1, i, v);
    }
  }

  /** Summed over all owned addresses, a row is worth its inflow, less its outflow, less its self-transfer. */
  lemma RowNet(db: Db, asset: string, p: Payment)
    requires WellFormed(db) && References(db, p)
    ensures Sum(Ids(|db.addresses|), EffectsOf(db, asset, p))
         == Inflow(db, asset)(p) - Outflow(db, asset)(p) - SelfTransfer(db, asset)(p)
  {
    var n := |db.addresses|;
    var own := Point(p.addressId, if Live(p, asset) then Signed(p) else 0);
    var owner := Owner(db.addresses, p.to);
    var recipient := if p.direction.Out? && owner != p.addressId then owner else None;
    var credit := Point(recipient, if Live(p, asset) then p.amount else 0);
    SumPoint(n, p.addressId, if Live(p, asset) then Signed(p) else 0);
    SumPoint(n, recipient, if Live(p, asset) then p.amount else 0);
    SumSplit(Ids(n), own, credit, EffectsOf(db, asset, p));
  }

  // ----- All rows, all addresses -----

  function RowNetOf(db: Db, asset: string): Payment -> int {
    (p: Payment) => Sum(Ids(|db.addresses|), EffectsOf(db, asset, p))
  }

  function LiveAt(a: nat, address: string, asset: string): Payment -> int {
    (p: Payment) => LiveEffect(p, a, address, asset)
  }

  function AddressTotals(db: Db, asset: string, payments: seq<Payment>): nat -> int {
    (a: nat) => Sum(payments, LiveAt(a, AddressAt(db, a), asset))
  }

  /** Adding up by address and adding up by row give the same total. */
  lemma {:induction false} SumByRow(db: Db, asset: string, payments: seq<Payment>)
    ensures Sum(Ids(|db.addresses|), AddressTotals(db, asset, payments)) == Sum(payments, RowNetOf(db, asset))
  {
    if payments == [] {
      SumZero(Ids(|db.addresses|), AddressTotals(db, asset, payments));
    } else {
      var front, p := payments[..|payments| - 1], payments[|payments| - 1];
      SumByRow(db, asset, front);
      SumSplit(Ids(|db.addresses|), AddressTotals(db, asset, front), EffectsOf(db, asset, p), AddressTotals(db, asset, payments));
    }
  }

  /** Confirmed and pending together count every live row once. */
  lemma BucketsPartition(payments: seq<Payment>, a: nat, address: string, asset: string)
    ensures Sum(payments, LiveAt(a, address, asset))
         == Sum(payments, ConfirmedEffect(a, address, asset)) + Sum(payments, PendingEffect(a, address, asset))
  {
    SumSplit(payments, ConfirmedEffect(a, address, asset), PendingEffect(a, address, asset), LiveAt(a, address, asset));
  }

  lemma NetSplits(db: Db, asset: string, payments: seq<Payment>)
    requires WellFormed(db)
    requires forall i :: 0 <= i < |payments| ==> References(db, payments[i])
    ensures Sum(payments, RowNetOf(db, asset))
         == Sum(payments, Inflow(db, asset)) - Sum(payments, Outflow(db, asset)) - Sum(payments, SelfTransfer(db, asset))
    decreases |payments|
  {
    if payments != [] {
      NetSplits(db, asset, payments[..|payments| - 1]);
      RowNet(db, asset, payments[|payments| - 1]);
    }
  }

  /** What all owned addresses hold is what came in, less what went out, less self-transfers. */
  lemma Conserved(db: Db, asset: string)
    requires WellFormed(db) && Cached(db)
    ensures TotalHeld(db, asset)
         == Sum(db.payments, Inflow(db, asset)) - Sum(db.payments, Outflow(db, asset)) - Sum(db.payments, SelfTransfer(db, asset))
  {
    var n := |db.addresses|;
    forall i | 0 <= i < n ensures HeldAt(db, asset)(Ids(n)[i]) == AddressTotals(db, asset, db.payments)(Ids(n)[i]) {
      assert Agrees(db, (i, asset));
      BucketsPartition(db.payments, i, AddressAt(db, i), asset);
    }
    SumEq(Ids(n), Ids(n), HeldAt(db, asset), AddressTotals(db, asset, db.payments));
    SumByRow(db, asset, db.payments);
    NetSplits(db, asset, db.payments);
  }

  /** A transfer between two distinct owned addresses changes no total. */
  lemma InternalTransferNetsToZero(db: Db, asset: string, p: Payment)
    requires WellFormed(db) && References(db, p)
    requires p.direction.Out? && p.addressId.Some?
    requires Owner(db.addresses, p.to).Some? && Owner(db.addresses, p.to) != p.addressId
    ensures Sum(Ids(|db.addresses|), EffectsOf(db, asset, p)) == 0
  {
    RowNet(db, asset, p);
  }
}
