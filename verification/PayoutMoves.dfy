/** What the withdrawal transactions do, read off the tables before them: requests, claims, decisions and time stamps. */
module PayoutMoves {
  import opened Prelude
  import opened Tables
  import opened Ledger
  import opened Payouts
  import opened DailyCap

  // ----- Requests -----

  /** An owned, enabled source with an undisputed balance for the amount, a new key, and room in the day's limit. */
  predicate Admissible(books: Books, r: Request, a: nat) {
    && a < |books.db.addresses| && Owner(books.db.addresses, r.from) == Some(a) && books.db.addresses[a].state != AddressState.Disabled
    && (forall i :: 0 <= i < |books.withdrawals| ==> books.withdrawals[i].idempotencyKey != r.idempotencyKey)
    && (a, r.asset) in books.db.balances && !books.db.balances[(a, r.asset)].drift
    && 1 <= r.amount <= books.db.balances[(a, r.asset)].confirmed
    && r.usd.Some? && r.limit.Some? && 0.0 < r.usd.value && 0.0 < r.limit.value
    && DayTotal(books.withdrawals, r.now / 86_400) + r.usd.value <= r.limit.value
  }

  /** An admissible request becomes a requested row of its source address; any other is refused. */
  lemma RequestOutcome(books: Books, r: Request, a: nat)
    requires forall i :: 0 <= i < |books.withdrawals| ==> books.withdrawals[i].createdAt <= r.now
    requires Owner(books.db.addresses, r.from).Some? ==> Owner(books.db.addresses, r.from).value == a
    ensures CreateWithdrawal(books, r) ==
              if Admissible(books, r, a) then
                Some(books.(withdrawals := books.withdrawals + [Withdrawal(
                  r.idempotencyKey, a, r.from, r.to, r.asset, r.amount, r.usd.value, WithdrawalStatus.Requested, r.now,
                  None, None, None, None, 0, r.now, None)]))
              else None
  {
    assert OnDay(r.now, r.now / 86_400);
    TodayIsCounted(books.withdrawals, r.now, r.now / 86_400);
  }

  // ----- Claims -----

  /** A withdrawal on its way out of an address. */
  predicate Moving(w: Withdrawal, a: nat) {
    w.addressId == a && w.status in {AwaitingResources, AwaitingEnergy, Signing, WithdrawalStatus.Broadcast}
  }

  function MovingAmount(a: nat, asset: string): Withdrawal -> int {
    (w: Withdrawal) => if Moving(w, a) && w.asset == asset then w.amount else 0
  }

  lemma {:induction false} HeldIsMoving(ws: seq<Withdrawal>, id: nat, a: nat, asset: string)
    requires id < |ws| ==> !Moving(ws[id], a)
    ensures Held(ws, id, a, asset) == Sum(ws, MovingAmount(a, asset))
  {
    if ws != [] {
      HeldIsMoving(ws[..|ws| - 1], id, a, asset);
    }
  }

  /**
   A requested withdrawal is rejected when the confirmed balance does not cover it beside what is moving; otherwise
   it is claimed once nothing else moves at its address. Any other withdrawal stays as it is.
   */
  lemma ClaimOutcome(books: Books, id: nat, now: int)
    requires id < |books.withdrawals|
    ensures var w, r := books.withdrawals[id], ClaimWithdrawal(books, id, now);
            var key, moving := (w.addressId, w.asset), Sum(books.withdrawals, MovingAmount(w.addressId, w.asset));
            && (r.None? <==> key !in books.db.balances || books.db.balances[key].drift)
            && (r.Some? && w.status != WithdrawalStatus.Requested ==> r.value == books)
            && (r.Some? && w.status == WithdrawalStatus.Requested ==>
                  var busy := exists i :: 0 <= i < |books.withdrawals| && Moving(books.withdrawals[i], w.addressId);
                  r.value == if w.amount <= 0 || books.db.balances[key].confirmed < moving + w.amount
                             then books.(withdrawals := books.withdrawals[id := w.(status := Rejected, statusAt := now)])
                             else if busy then books
                             else books.(withdrawals := books.withdrawals[id := w.(status := AwaitingResources, statusAt := now)]))
  {
    var w := books.withdrawals[id];
    if w.status == WithdrawalStatus.Requested {
      HeldIsMoving(books.withdrawals, id, w.addressId, w.asset);
      forall i | 0 <= i < |books.withdrawals|
        ensures HoldsAddress(books.withdrawals[i], i, id, w.addressId) <==> Moving(books.withdrawals[i], w.addressId) {
      }
    }
  }

  // ----- The operator -----

  /** Only a withdrawal with the operator can be decided, as confirmed or as failed, and nothing else changes. */
  lemma OperatorDecides(books: Books, id: nat, confirmed: bool, now: int)
    ensures ResolveWithdrawal(books, id, confirmed, now) ==
              if id < |books.withdrawals| && books.withdrawals[id].status == WithdrawalStatus.NeedsOperator then
                var decided := if confirmed then WithdrawalStatus.Confirmed else WithdrawalStatus.Failed;
                Some(books.(withdrawals := books.withdrawals[id := books.withdrawals[id].(status := decided, statusAt := now)]))
              else None
  {
  }

  // ----- Time stamps -----

  /** When a transaction on a withdrawal row runs, and on which row. */
  function Stamp(op: Op): Option<(nat, int)> {
    match op
    case Claim(id, now) => Some((id, now))
    case SetState(id, _, _, _, now) => Some((id, now))
    case PersistAttempt(id, _, now, _) => Some((id, now))
    case RecordBroadcast(id, now) => Some((id, now))
    case RecordLookup(id, _, now) => Some((id, now))
    case LookupFailure(id, now) => Some((id, now))
    case Escalate(id, now) => Some((id, now))
    case FailAbsent(id, now) => Some((id, now))
    case FailResources(id, now) => Some((id, now))
    case Confirm(id, _, _, _, now) => Some((id, now))
    case Resolve(id, _, now) => Some((id, now))
    case _ => None
  }

  /** What a transaction that is stamped with a row and a time may do to the rows. */
  predicate Stamped(op: Op, i: nat, w: Withdrawal, v: Withdrawal) {
    && (v != w ==> Stamp(op).Some? && Stamp(op).value.0 == i)
    && (v.status != w.status || v.statusAt != w.statusAt ==> v.statusAt == Stamp(op).value.1)
    && (op.SetState? && op.id == i ==> v.statusAt == op.now)
    && ((op.RecordLookup? || op.LookupFailure?) && op.id == i ==> v.lookupAt == Some(op.now))
    && (v.lookupAt != w.lookupAt ==> op.RecordLookup? || op.LookupFailure?)
  }

  lemma SendingIsStamped(books: Books, op: Op, i: nat)
    requires op.Claim? || op.SetState? || op.PersistAttempt? || op.RecordBroadcast? || op.RecordLookup? || op.LookupFailure?
    requires AttemptOp(books, op).Some? && i < |books.withdrawals|
    ensures var after := AttemptOp(books, op).value; i < |after.withdrawals| && Stamped(op, i, books.withdrawals[i], after.withdrawals[i])
  {
  }

  lemma EndingIsStamped(books: Books, op: Op, i: nat)
    requires op.Escalate? || op.FailAbsent? || op.FailResources? || op.Confirm? || op.Resolve?
    requires AttemptOp(books, op).Some? && i < |books.withdrawals|
    ensures var after := AttemptOp(books, op).value; i < |after.withdrawals| && Stamped(op, i, books.withdrawals[i], after.withdrawals[i])
  {
  }

  /**
   A change of status is stamped with its time, on the one row that the transaction names; so is a change of resource
   state to the same state, and a lookup leaves its time on the row.
   */
  lemma ChangesAreStamped(books: Books, op: Op, i: nat)
    requires AttemptOp(books, op).Some? && i < |books.withdrawals|
    ensures var after := AttemptOp(books, op).value; i < |after.withdrawals| && Stamped(op, i, books.withdrawals[i], after.withdrawals[i])
  {
    if op.Claim? || op.SetState? || op.PersistAttempt? || op.RecordBroadcast? || op.RecordLookup? || op.LookupFailure? {
      SendingIsStamped(books, op, i);
    } else if op.Escalate? || op.FailAbsent? || op.FailResources? || op.Confirm? || op.Resolve? {
      EndingIsStamped(books, op, i);
    } else {
      assert AttemptOp(books, op).value.withdrawals[i] == books.withdrawals[i];
    }
  }
}
