/**
 The address pool, read off the addresses table: how many addresses are free, which address a new order gets, what a
 top-up adds, and how long an address cools. Indexes 0 to 999 belong to the pool.
 */
module AddressPool {
  import opened Prelude
  import opened Tables
  import opened Ledger

  /** The rows an order could be given. */
  function FreeRows(addresses: seq<Address>): set<int> {
    set i | 0 <= i < |addresses| && addresses[i].state == Free && addresses[i].hdIndex <= 999
  }

  predicate Uses(addresses: seq<Address>, k: nat) {
    exists i :: 0 <= i < |addresses| && addresses[i].hdIndex == k
  }

  function Used(addresses: seq<Address>): set<nat> {
    set k: nat | k <= 999 && Uses(addresses, k)
  }

  /** The row at i took the least index that no earlier row uses, and nothing else happened to it. */
  predicate Fresh(addresses: seq<Address>, i: nat)
    requires i < |addresses|
  {
    var a, used := addresses[i], Used(addresses[..i]);
    && a == Address(a.hdIndex, a.address, Free, None, None, None)
    && a.hdIndex <= 999 && a.hdIndex !in used && forall k: nat :: k < a.hdIndex ==> k in used
  }

  /** The table grew at its end, by fresh rows alone. */
  ghost predicate Grown(before: seq<Address>, after: seq<Address>) {
    && |before| <= |after| && after[..|before|] == before
    && forall i :: |before| <= i < |after| ==> Fresh(after, i)
  }

  lemma UsedIsPool(addresses: seq<Address>)
    ensures PoolIndexes(addresses) == Used(addresses)
  {
    forall k: nat | k in Used(addresses) ensures k in PoolIndexes(addresses) {
      var i :| 0 <= i < |addresses| && addresses[i].hdIndex == k;
      assert addresses[i] in addresses;
    }
  }

  lemma {:induction false} FreeCountCounts(addresses: seq<Address>)
    ensures FreeCount(addresses) == |FreeRows(addresses)|
  {
    if addresses != [] {
      var last := |addresses| - 1;
      FreeCountCounts(addresses[..last]);
      FreeRowsOneMore(addresses[..last], addresses[last]);
      assert addresses == addresses[..last] + [addresses[last]];
    }
  }

  lemma FreeRowsOneMore(addresses: seq<Address>, a: Address)
    ensures |FreeRows(addresses + [a])| == |FreeRows(addresses)| + if a.state.Free? && a.hdIndex < 1000 then 1 else 0
  {
    var more := addresses + [a];
    assert FreeRows(more) == FreeRows(addresses) + if a.state.Free? && a.hdIndex < 1000 then {|addresses|} else {};
  }

  lemma UsedOneMore(addresses: seq<Address>, a: Address)
    requires a.hdIndex < 1000 && a.hdIndex !in Used(addresses)
    ensures Used(addresses + [a]) == Used(addresses) + {a.hdIndex}
    ensures |Used(addresses + [a])| == |Used(addresses)| + 1
  {
    var more := addresses + [a];
    assert more[|addresses|] == a;
    forall k: nat | Uses(addresses, k) ensures Uses(more, k) {
      var i :| 0 <= i < |addresses| && addresses[i].hdIndex == k;
      assert more[i].hdIndex == k;
    }
  }

  lemma AllUsed(addresses: seq<Address>)
    requires forall k: nat :: k < 1000 ==> k in Used(addresses)
    ensures |Used(addresses)| == 1000
  {
    assert Used(addresses) == FirstOf(1000);
  }

  function FirstOf(n: nat): (r: set<nat>)
    ensures (forall k: nat :: k in r <==> k < n) && |r| == n
  {
    if n == 0 then {} else FirstOf(n - 1) + {n - 1}
  }

  // ----- Topping up -----

  /** What so many derivations leave: one row each, or a pool without an unused index. */
  ghost predicate Stepped(before: seq<Address>, after: seq<Address>, steps: nat) {
    && Grown(before, after)
    && |FreeRows(after)| == |FreeRows(before)| + |after| - |before|
    && |Used(after)| == |Used(before)| + |after| - |before|
    && |after| - |before| <= steps && (|after| - |before| < steps ==> |Used(after)| == 1000)
  }

  lemma {:induction false} StepsAddFreshRows(addresses: seq<Address>, derive: nat -> Option<string>, steps: nat)
    requires TopUpSteps(addresses, derive, steps).Some?
    ensures Stepped(addresses, TopUpSteps(addresses, derive, steps).value, steps)
    decreases steps
  {
    UsedIsPool(addresses);
    var index := NextPoolIndex(PoolIndexes(addresses));
    if steps > 0 && index >= 1000 {
      AllUsed(addresses);
    } else if steps > 0 {
      var row := Address(index, derive(index).value, Free, None, None, None);
      var more, after := addresses + [row], TopUpSteps(addresses, derive, steps).value;
      StepsAddFreshRows(more, derive, steps - 1);
      OneStep(addresses, row, after, steps - 1);
    }
  }

  lemma OneStep(addresses: seq<Address>, row: Address, after: seq<Address>, steps: nat)
    requires row == Address(row.hdIndex, row.address, Free, None, None, None)
    requires LeastUnused(Used(addresses), row.hdIndex) && row.hdIndex < 1000
    requires Stepped(addresses + [row], after, steps)
    ensures Stepped(addresses, after, steps + 1)
  {
    var more := addresses + [row];
    FreeRowsOneMore(addresses, row);
    UsedOneMore(addresses, row);
    assert after[..|addresses|] == after[..|more|][..|addresses|] == addresses;
    assert after[|addresses|] == after[..|more|][|addresses|] == row;
    assert Fresh(after, |addresses|);
  }

  /** Every unused index derives an address of its own. */
  ghost predicate Derivable(addresses: seq<Address>, derive: nat -> Option<string>) {
    && (forall k: nat :: k < 1000 && k !in Used(addresses) ==>
          derive(k).Some? && forall i :: 0 <= i < |addresses| ==> addresses[i].address != derive(k).value)
    && (forall j: nat, k: nat :: j < k < 1000 ==> derive(j) != derive(k))
  }

  lemma StillDerivable(addresses: seq<Address>, derive: nat -> Option<string>, row: Address)
    requires Derivable(addresses, derive) && row.hdIndex < 1000 && row.hdIndex !in Used(addresses) && derive(row.hdIndex) == Some(row.address)
    ensures Derivable(addresses + [row], derive)
  {
    UsedOneMore(addresses, row);
  }

  lemma {:induction false} DerivableSteps(addresses: seq<Address>, derive: nat -> Option<string>, steps: nat)
    requires Derivable(addresses, derive)
    ensures TopUpSteps(addresses, derive, steps).Some?
    decreases steps
  {
    UsedIsPool(addresses);
    var index := NextPoolIndex(PoolIndexes(addresses));
    if steps > 0 && index < 1000 {
      var row := Address(index, derive(index).value, Free, None, None, None);
      StillDerivable(addresses, derive, row);
      DerivableSteps(addresses + [row], derive, steps - 1);
    }
  }

  /**
   A pool that runs low is filled up to the target, as far as the maximum and the index space allow, and never beyond
   either; a pool that does not is left alone. Only derivation can fail.
   */
  lemma TopUpFillsThePool(db: Db, derive: nat -> Option<string>, minFree: int, target: int, poolMax: int)
    ensures var r, free := TopUpPool(db, derive, minFree, target, poolMax), |FreeRows(db.addresses)|;
            && (minFree <= free ==> r == None)
            && (free < minFree && Derivable(db.addresses, derive) ==> r.Some?)
            && (r.Some? ==>
                  var after := r.value.addresses;
                  && r.value == db.(addresses := after) && Grown(db.addresses, after)
                  && |FreeRows(after)| == free + |after| - |db.addresses|
                  && (|FreeRows(after)| >= target || |Used(after)| >= poolMax || |Used(after)| == 1000)
                  && (|after| > |db.addresses| ==> |FreeRows(after)| <= target && |Used(after)| <= poolMax))
  {
    var count := TopUpCount(db.addresses, target, poolMax);
    FreeCountCounts(db.addresses);
    UsedIsPool(db.addresses);
    if TopUpSteps(db.addresses, derive, count).Some? {
      StepsAddFreshRows(db.addresses, derive, count);
    }
    if Derivable(db.addresses, derive) {
      DerivableSteps(db.addresses, derive, count);
    }
  }

  // ----- The address of a new order -----

  /** The pool can grow by the least unused index. */
  predicate CanGrow(addresses: seq<Address>, derive: nat -> Option<string>, poolMax: int, k: nat) {
    && |Used(addresses)| < poolMax && k <= 999 && k !in Used(addresses) && (forall j: nat :: j < k ==> j in Used(addresses))
    && derive(k).Some? && forall i :: 0 <= i < |addresses| ==> addresses[i].address != derive(k).value
  }

  /** An order gets the free pool address of least index, or the next derived one; without either it is not created. */
  lemma CreationTakesTheLeastAddress(db: Db, id: string, order: Order, derive: nat -> Option<string>, poolMax: int)
    requires id !in db.orders && (order.externalRef.Some? ==> forall j :: j in db.orders ==> db.orders[j].externalRef != order.externalRef)
    ensures var r := CreateOrder(db, id, order, derive, poolMax);
            && (r.Some? <==> FreeRows(db.addresses) != {} || exists k: nat :: CanGrow(db.addresses, derive, poolMax, k))
            && (r.Some? ==> id in r.value.orders && r.value.orders[id].addressId < |r.value.addresses|)
            && (r.Some? ==>
                  var a := r.value.orders[id].addressId;
                  if FreeRows(db.addresses) != {} then
                    && a in FreeRows(db.addresses)
                    && forall i :: i in FreeRows(db.addresses) ==> db.addresses[a].hdIndex <= db.addresses[i].hdIndex
                  else
                    && a == |db.addresses| && CanGrow(db.addresses, derive, poolMax, r.value.addresses[a].hdIndex)
                    && derive(r.value.addresses[a].hdIndex) == Some(r.value.addresses[a].address))
  {
    UsedIsPool(db.addresses);
    var index := NextPoolIndex(PoolIndexes(db.addresses));
    assert FreeRows(db.addresses) != {} <==> LowestFree(db.addresses).Some? by {
      if LowestFree(db.addresses).Some? {
        assert LowestFree(db.addresses).value in FreeRows(db.addresses);
      }
    }
    forall k: nat | CanGrow(db.addresses, derive, poolMax, k) ensures k == index {
      assert k >= index && k <= index;
    }
    if InsertNextAddress(db.addresses, derive, poolMax).Some? {
      assert CanGrow(db.addresses, derive, poolMax, index);
    }
  }

  // ----- Cooling -----

  /** An assigned address that starts cooling is free again from the end of its cooldown on, and not before. */
  lemma CoolingLastsTheCooldown(db: Db, a: nat, now: int, cooldown: int, later: int)
    requires a < |db.addresses| && db.addresses[a].state == Assigned
    ensures var cooled := db.(addresses := CoolAddresses(db.addresses, {a}, now, cooldown));
            var after, row := ReleaseCooled(cooled, later).addresses, db.addresses[a];
            && |after| == |db.addresses|
            && after[a] == (if now + cooldown <= later then Address(row.hdIndex, row.address, Free, None, None, None) else cooled.addresses[a])
            && after[a].state == if now + cooldown <= later then Free else Cooling
  {
  }

  /** Nothing else is released. */
  lemma OnlyCoolingIsReleased(db: Db, a: nat, now: int)
    requires a < |db.addresses|
    ensures var after, row := ReleaseCooled(db, now), db.addresses[a];
            && after == db.(addresses := after.addresses) && |after.addresses| == |db.addresses|
            && (after.addresses[a] != row ==> row.state == Cooling && row.coolingUntil.Some? && row.coolingUntil.value <= now)
  {
  }
}
