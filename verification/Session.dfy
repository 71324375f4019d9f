/**
 The engine's session with the store. Every write and every call to the outside is a step of the broadcast
 protocol, recorded in a ghost trace, so what holds of all runs holds of the engine.
 */
module EngineSession {
  import opened Prelude
  import opened Tables
  import opened Payouts
  import opened Broadcasts
  import opened Claims
  import opened PayoutStore

  /** A withdrawal the unforced recovery looks up. */
  predicate Open(books: Books, id: nat) {
    && id < |books.withdrawals| && books.withdrawals[id].txid.Some?
    && !books.withdrawals[id].status.Confirmed? && !books.withdrawals[id].status.Failed? && !books.withdrawals[id].status.NeedsOperator?
  }

  /** A grant that may still be sent. */
  predicate UnspentGrant(g: Grant) {
    g.status == GrantStatus.Requested && g.txid == None && g.attemptedAt == None
  }

  /**
   The engine's hold on the store. The ghost trace is a run of the protocol that ends in the store's tables,
   careful unless a forced recovery took part.
   */
  class Session {
    const store: PayoutStore
    const worker: nat
    ghost const start: Sys
    ghost var sys: Sys
    ghost var taken: seq<Moment>
    ghost var careful: bool

    constructor (store: PayoutStore)
      ensures Valid() && fresh(this) && this.store == store && careful
      ensures sys == Start(store.books) && taken == []
    {
      this.store, worker := store, 0;
      start, sys, taken, careful := Start(store.books), Start(store.books), [], true;
    }

    ghost predicate Linked()
      reads this, store
    {
      && Inv(start) && Traced(start, taken, sys)
      && sys.log != [] && Now(sys) == store.books
      && (careful ==> CarefulTrace(taken))
    }

    /** Between calls the engine holds nothing, and nobody else holds a withdrawal. */
    ghost predicate Valid()
      reads this, store
    {
      && Linked()
      && worker !in sys.hands && sys.rental.Idle?
      && (forall w :: w in sys.hands ==> !sys.hands[w].target.ForWithdrawal?)
    }

    ghost method Take(step: Step)
      requires Traced(start, taken, sys) && sys.log != []
      requires careful ==> CarefulTrace(taken) && Careful(sys, step)
      modifies this`sys, this`taken
      ensures sys == Next(old(sys), step) && Traced(start, taken, sys)
      ensures careful ==> CarefulTrace(taken)
    {
      OneMoreStep(start, taken, sys, step);
      sys, taken := Next(sys, step), taken + [Moment(sys, step)];
    }

    method Write(op: Op) returns (ok: bool)
      requires Linked() && !IsMarker(op) && !op.CreateQuote? && !op.RejectQuote? && MayFail(store.books, op)
      requires careful ==> Careful(sys, Step.Write(op))
      modifies this`sys, this`taken, store`books
      ensures Linked()
      ensures ok <==> AttemptOp(old(store.books), op).Some?
      ensures store.books == AttemptOp(old(store.books), op).GetOr(old(store.books))
      ensures sys.hands == old(sys.hands) && sys.calls == old(sys.calls) && sys.rental == old(sys.rental)
    {
      ok := Perform(op);
      Take(Step.Write(op));
    }

    /** The store method that runs the operation. */
    method Perform(op: Op) returns (ok: bool)
      modifies store`books
      ensures ok <==> AttemptOp(old(store.books), op).Some?
      ensures store.books == AttemptOp(old(store.books), op).GetOr(old(store.books))
    {
      if op.Confirm? {
        ok := store.ConfirmWithdrawal(op.id, op.fee, op.height, op.timestamp, op.now);
      } else if op.ReceiveGrant? {
        ok := store.RecordResourceGrantReceipt(op.id, op.fee, op.height, op.timestamp, op.wallet, op.now);
      } else if op.ReconcileEnergy? {
        var closed := store.ReconcileWithdrawalEnergy(op.withdrawal, op.visible);
        ok := true;
      } else {
        ok := store.Execute(op);
      }
    }

    method Persist(op: Op) returns (ok: bool)
      requires Linked() && IsMarker(op) && worker !in sys.hands
      requires op.MarkPurchase? ==> op.id < |store.books.purchases|
                                    && sys.rental == Rental.Quoted(store.books.purchases[op.id].withdrawal, op.id)
      modifies this`sys, this`taken, store`books
      ensures Linked()
      ensures ok <==> AttemptOp(old(store.books), op).Some?
      ensures store.books == AttemptOp(old(store.books), op).GetOr(old(store.books))
      ensures sys.calls == old(sys.calls)
      ensures ok ==> TargetOf(old(store.books), op).Some?
                     && sys.hands == old(sys.hands)[worker := Armed(TargetOf(old(store.books), op).value)]
      ensures !ok ==> sys.hands == old(sys.hands)
      ensures sys.rental == if ok && op.MarkPurchase? then Idle else old(sys.rental)
    {
      ok := store.Execute(op);
      Take(Step.Persist(worker, op));
    }

    /** The one call to the outside; its marker can no longer be lost. */
    ghost method Send()
      requires Linked() && worker in sys.hands && sys.hands[worker].Armed?
      modifies this`sys, this`taken
      ensures Linked()
      ensures sys.calls == old(sys.calls) + [old(sys.hands)[worker].target]
      ensures sys.hands == old(sys.hands)[worker := Sent(old(sys.hands)[worker].target)]
      ensures sys.rental == old(sys.rental)
      ensures Durable(sys, old(sys.hands)[worker].target)
    {
      var target := sys.hands[worker].target;
      TraceIsRun(start, taken, sys);
      RunKeepsInv(start, Steps(taken));
      SendShape(sys, worker);
      OneMoreStep(start, taken, sys, Step.Send(worker));
      taken := taken + [Moment(sys, Step.Send(worker))];
      sys := sys.(hands := sys.hands[worker := Sent(target)], calls := sys.calls + [target]);
    }

    method Record(op: Op, now: int)
      requires Linked() && worker in sys.hands && sys.hands[worker].Sent? && RecordOp(sys.hands[worker].target, now) == Some(op)
      modifies this`sys, this`taken, store`books
      ensures Linked()
      ensures store.books == AttemptOp(old(store.books), op).GetOr(old(store.books))
      ensures sys.calls == old(sys.calls) && sys.hands == old(sys.hands) - {worker} && sys.rental == old(sys.rental)
    {
      RecordShape(sys, worker, now, op);
      var ok := store.Execute(op);
      Take(Step.Record(worker, now));
    }

    /** A write to one withdrawal that may not send anything. */
    method Update(op: Op) returns (ok: bool)
      requires Valid() && EngineRow(op).Some? && !op.RecordBroadcast?
      requires careful ==> EngineCall(store.books, op)
      modifies this`sys, this`taken, store`books
      ensures Valid() && sys.calls == old(sys.calls)
      ensures ok <==> AttemptOp(old(store.books), op).Some?
      ensures store.books == AttemptOp(old(store.books), op).GetOr(old(store.books))
    {
      ok := Write(op);
    }

    /** A write outside the withdrawal rows that sends nothing. */
    method UpdateOther(op: Op) returns (ok: bool)
      requires Valid() && (GrantRowOp(op) || op.CreateGrant? || op.RecordOrder? || op.CompletePurchase? || op.FailPurchase? || op.ReconcileEnergy?) && !IsMarker(op)
      requires MayFail(store.books, op)
      modifies this`sys, this`taken, store`books
      ensures Valid() && sys.calls == old(sys.calls)
      ensures ok <==> AttemptOp(old(store.books), op).Some?
      ensures store.books == AttemptOp(old(store.books), op).GetOr(old(store.books))
    {
      ok := Write(op);
    }

    // ----- The store methods the engine calls -----

    method SetState(id: nat, from: WithdrawalStatus, to: WithdrawalStatus, energy: Option<EnergySource>, now: int) returns (ok: bool)
      requires Valid() && Awaiting(from) && (Awaiting(to) || to.Signing?)
      modifies this`sys, this`taken, store`books
      ensures Valid() && sys.calls == old(sys.calls)
      ensures ok <==> SetWithdrawalResourceState(old(store.books), id, from, to, energy, now).Some?
      ensures store.books == SetWithdrawalResourceState(old(store.books), id, from, to, energy, now).GetOr(old(store.books))
    {
      ok := Update(Op.SetState(id, from, to, energy, now));
    }

    method FailResources(id: nat, now: int) returns (ok: bool)
      requires Valid()
      modifies this`sys, this`taken, store`books
      ensures Valid() && sys.calls == old(sys.calls)
      ensures ok <==> FailWithdrawalResources(old(store.books), id, now).Some?
      ensures store.books == FailWithdrawalResources(old(store.books), id, now).GetOr(old(store.books))
    {
      ok := Update(Op.FailResources(id, now));
    }

    method CreateGrant(withdrawal: nat, receiver: string, resource: Resource, source: GrantSource, amount: nat, now: int) returns (ok: bool)
      requires Valid()
      modifies this`sys, this`taken, store`books
      ensures Valid() && sys.calls == old(sys.calls)
      ensures ok <==> CreateResourceGrant(old(store.books), Some(withdrawal), receiver, resource, source, amount, now).Some?
      ensures store.books
           == CreateResourceGrant(old(store.books), Some(withdrawal), receiver, resource, source, amount, now).GetOr(old(store.books))
    {
      ok := UpdateOther(Op.CreateGrant(Some(withdrawal), receiver, resource, source, amount, now));
    }

    method RecordLookup(id: nat, found: bool, now: int) returns (ok: bool)
      requires Valid() && (careful && found ==> Open(store.books, id))
      modifies this`sys, this`taken, store`books
      ensures Valid() && sys.calls == old(sys.calls)
      ensures ok <==> RecordWithdrawalLookup(old(store.books), id, found, now).Some?
      ensures store.books == RecordWithdrawalLookup(old(store.books), id, found, now).GetOr(old(store.books))
    {
      ok := Update(Op.RecordLookup(id, found, now));
    }

    method LookupFailure(id: nat, now: int) returns (ok: bool)
      requires Valid()
      modifies this`sys, this`taken, store`books
      ensures Valid() && sys.calls == old(sys.calls)
      ensures ok <==> RecordLookupFailure(old(store.books), id, now).Some?
      ensures store.books == RecordLookupFailure(old(store.books), id, now).GetOr(old(store.books))
    {
      ok := Update(Op.LookupFailure(id, now));
    }

    method Escalate(id: nat, now: int) returns (ok: bool)
      requires Valid()
      modifies this`sys, this`taken, store`books
      ensures Valid() && sys.calls == old(sys.calls)
      ensures ok <==> WithdrawalNeedsOperator(old(store.books), id, now).Some?
      ensures store.books == WithdrawalNeedsOperator(old(store.books), id, now).GetOr(old(store.books))
    {
      ok := Update(Op.Escalate(id, now));
    }

    method FailAbsent(id: nat, now: int) returns (ok: bool)
      requires Valid()
      modifies this`sys, this`taken, store`books
      ensures Valid() && sys.calls == old(sys.calls)
      ensures ok <==> FailWithdrawalAbsent(old(store.books), id, now).Some?
      ensures store.books == FailWithdrawalAbsent(old(store.books), id, now).GetOr(old(store.books))
    {
      ok := Update(Op.FailAbsent(id, now));
    }

    method Confirm(id: nat, fee: int, height: int, timestamp: int, now: int) returns (ok: bool)
      requires Valid()
      modifies this`sys, this`taken, store`books
      ensures Valid() && sys.calls == old(sys.calls)
      ensures ok <==> ConfirmWithdrawal(old(store.books), id, fee, height, timestamp, now).Some?
      ensures store.books == ConfirmWithdrawal(old(store.books), id, fee, height, timestamp, now).GetOr(old(store.books))
    {
      ok := Update(Op.Confirm(id, fee, height, timestamp, now));
    }

    method LookupGrant(id: nat, seen: bool) returns (ok: bool)
      requires Valid()
      modifies this`sys, this`taken, store`books
      ensures Valid() && sys.calls == old(sys.calls)
      ensures ok <==> RecordResourceGrantLookup(old(store.books), id, seen).Some?
      ensures store.books == RecordResourceGrantLookup(old(store.books), id, seen).GetOr(old(store.books))
    {
      ok := UpdateOther(Op.LookupGrant(id, seen));
    }

    method EscalateGrant(id: nat) returns (ok: bool)
      requires Valid()
      modifies this`sys, this`taken, store`books
      ensures Valid() && sys.calls == old(sys.calls)
      ensures ok <==> ResourceGrantNeedsOperator(old(store.books), id).Some?
      ensures store.books == ResourceGrantNeedsOperator(old(store.books), id).GetOr(old(store.books))
    {
      ok := UpdateOther(Op.EscalateGrant(id));
    }

    method EndGrant(id: nat, confirmed: bool) returns (ok: bool)
      requires Valid()
      modifies this`sys, this`taken, store`books
      ensures Valid() && sys.calls == old(sys.calls)
      ensures ok <==> SettleGrant(old(store.books), id, confirmed).Some?
      ensures store.books == SettleGrant(old(store.books), id, confirmed).GetOr(old(store.books))
    {
      ok := UpdateOther(Op.EndGrant(id, confirmed));
    }

    method ReceiveGrant(id: nat, fee: int, height: int, timestamp: int, wallet: nat, now: int) returns (ok: bool)
      requires Valid()
      modifies this`sys, this`taken, store`books
      ensures Valid() && sys.calls == old(sys.calls)
      ensures ok <==> RecordResourceGrantReceipt(old(store.books), id, fee, height, timestamp, wallet, now).Some?
      ensures store.books == RecordResourceGrantReceipt(old(store.books), id, fee, height, timestamp, wallet, now).GetOr(old(store.books))
    {
      assert AttemptOp(store.books, Op.ReceiveGrant(id, fee, height, timestamp, wallet, now))
          == RecordResourceGrantReceipt(store.books, id, fee, height, timestamp, wallet, now);
      ok := UpdateOther(Op.ReceiveGrant(id, fee, height, timestamp, wallet, now));
    }

    method RecordOrder(row: nat, order: string) returns (ok: bool)
      requires Valid()
      modifies this`sys, this`taken, store`books
      ensures Valid() && sys.calls == old(sys.calls)
      ensures ok <==> RecordEnergyPurchaseOrder(old(store.books), row, order).Some?
      ensures store.books == RecordEnergyPurchaseOrder(old(store.books), row, order).GetOr(old(store.books))
    {
      ok := UpdateOther(Op.RecordOrder(row, order));
    }

    method CompletePurchase(row: nat) returns (ok: bool)
      requires Valid()
      modifies this`sys, this`taken, store`books
      ensures Valid() && sys.calls == old(sys.calls)
      ensures ok <==> CompleteEnergyPurchase(old(store.books), row).Some?
      ensures store.books == CompleteEnergyPurchase(old(store.books), row).GetOr(old(store.books))
    {
      ok := UpdateOther(Op.CompletePurchase(row));
    }

    method FailPurchase(row: nat) returns (ok: bool)
      requires Valid() && (row < |store.books.purchases| ==> store.books.purchases[row].status.Purchased?)
      modifies this`sys, this`taken, store`books
      ensures Valid() && sys.calls == old(sys.calls)
      ensures ok <==> FailEnergyPurchase(old(store.books), row).Some?
      ensures store.books == FailEnergyPurchase(old(store.books), row).GetOr(old(store.books))
    {
      ok := UpdateOther(Op.FailPurchase(row));
    }

    method ReconcileEnergy(withdrawal: nat, visible: bool)
      requires Valid()
      modifies this`sys, this`taken, store`books
      ensures Valid() && sys.calls == old(sys.calls)
      ensures store.books == ReconcileWithdrawalEnergy(old(store.books), withdrawal, visible)
    {
      assert AttemptOp(store.books, Op.ReconcileEnergy(withdrawal, visible)) == Some(ReconcileWithdrawalEnergy(store.books, withdrawal, visible));
      var ok := UpdateOther(Op.ReconcileEnergy(withdrawal, visible));
    }

    // ----- Rentals -----

    /** Valid, but for what the rental in progress has established. */
    ghost predicate Renting(rental: Rental)
      reads this, store
    {
      && Linked()
      && worker !in sys.hands && sys.rental == rental
      && (forall w :: w in sys.hands ==> !sys.hands[w].target.ForWithdrawal?)
    }

    ghost method BeginRental(withdrawal: nat)
      requires Valid() && MayQuote(store.books, withdrawal)
      modifies this`sys, this`taken
      ensures Renting(Quoting(withdrawal)) && sys.calls == old(sys.calls)
    {
      RentalShape(sys, withdrawal);
      Take(LookUpRental(withdrawal));
    }

    ghost method EndRental()
      requires Renting(sys.rental)
      modifies this`sys, this`taken
      ensures Valid() && sys.calls == old(sys.calls)
    {
      RentalShape(sys, 0);
      Take(ForgetRental);
    }

    method CreateQuote(id: nat, withdrawal: nat, price: real, now: int) returns (ok: bool)
      requires Renting(Quoting(withdrawal)) && Newest(store.books, id, withdrawal, now)
      modifies this`sys, this`taken, store`books
      ensures ok <==> CreateEnergyPurchase(old(store.books), id, withdrawal, Some(price), now).Some?
      ensures store.books == CreateEnergyPurchase(old(store.books), id, withdrawal, Some(price), now).GetOr(old(store.books))
      ensures Renting(if ok then Rental.Quoted(withdrawal, |old(store.books).purchases|) else Quoting(withdrawal))
      ensures sys.calls == old(sys.calls)
    {
      var op := Op.CreateQuote(id, withdrawal, Some(price), now);
      assert AttemptOp(store.books, op) == CreateEnergyPurchase(store.books, id, withdrawal, Some(price), now);
      ok := store.Execute(op);
      Take(Step.Quote(op));
    }

    method RejectQuote(row: nat)
      requires sys.rental.Quoted? && Renting(sys.rental) && row == sys.rental.row
      modifies this`sys, this`taken, store`books
      ensures Valid() && sys.calls == old(sys.calls)
      ensures store.books == RejectEnergyQuote(old(store.books), row).GetOr(old(store.books))
    {
      assert AttemptOp(store.books, Op.RejectQuote(row)) == RejectEnergyQuote(store.books, row);
      var ok := store.Execute(Op.RejectQuote(row));
      Take(Refuse);
    }

    /** The purchase marker and the one purchase call. */
    method BuyQuote(withdrawal: nat, row: nat, order: string) returns (ok: bool)
      requires Renting(Rental.Quoted(withdrawal, row))
      requires row < |store.books.purchases| && store.books.purchases[row].withdrawal == withdrawal
      modifies this`sys, this`taken, store`books
      ensures Valid()
      ensures store.books.withdrawals == old(store.books).withdrawals
      ensures ok <==> MarkEnergyPurchaseAttempt(old(store.books), row, order).Some?
      ensures store.books == MarkEnergyPurchaseAttempt(old(store.books), row, order).GetOr(old(store.books))
      ensures sys.calls == if ok then old(sys.calls) + [ForPurchase(row, withdrawal)] else old(sys.calls)
    {
      assert AttemptOp(store.books, MarkPurchase(row, order)) == MarkEnergyPurchaseAttempt(store.books, row, order);
      ok := Persist(MarkPurchase(row, order));
      if ok {
        Send();
        Take(Drop(worker));
      } else {
        EndRental();
      }
    }

    /** The marker and the send of a withdrawal; false when the attempt was already spent. */
    method SendMarked(id: nat, txid: string, now: int, expiresAt: int) returns (ok: bool)
      requires Valid() && id < |store.books.withdrawals| && store.books.withdrawals[id].status.Signing?
      modifies this`sys, this`taken, store`books
      ensures Linked() && sys.rental.Idle?
      ensures store.books == PersistWithdrawalAttempt(old(store.books), id, txid, now, expiresAt).GetOr(old(store.books))
      ensures ok <==> old(store.books).withdrawals[id].txid.None? && old(store.books).withdrawals[id].attemptedAt.None?
      ensures !ok ==> sys.hands == old(sys.hands) && sys.calls == old(sys.calls) && store.books == old(store.books)
      ensures ok ==> && sys.hands == old(sys.hands)[worker := Sent(ForWithdrawal(id, txid))]
                     && sys.calls == old(sys.calls) + [ForWithdrawal(id, txid)]
                     && old(store.books).withdrawals[id].txid.None?
                     && store.books.withdrawals[id].txid == Some(txid) && store.books.withdrawals[id].attemptedAt.Some?
                     && store.books.withdrawals[id].status.Signing?
    {
      ok := Persist(PersistAttempt(id, txid, now, expiresAt));
      if ok {
        Send();
      }
    }

    method RecordBroadcast(id: nat, now: int)
      requires Linked() && worker in sys.hands && sys.hands[worker].Sent? && Handles(sys.hands[worker], id)
      modifies this`sys, this`taken, store`books
      ensures Linked()
      ensures store.books == RecordWithdrawalBroadcast(old(store.books), id, now).GetOr(old(store.books))
      ensures sys.calls == old(sys.calls) && sys.hands == old(sys.hands) - {worker} && sys.rental == old(sys.rental)
    {
      Record(Op.RecordBroadcast(id, now), now);
    }

    method RecordGrantBroadcast(id: nat, now: int)
      requires Linked() && worker in sys.hands && sys.hands[worker].Sent?
      requires sys.hands[worker].target.ForGrant? && sys.hands[worker].target.id == id
      modifies this`sys, this`taken, store`books
      ensures Linked()
      ensures store.books == RecordResourceGrantBroadcast(old(store.books), id).GetOr(old(store.books))
      ensures sys.calls == old(sys.calls) && sys.hands == old(sys.hands) - {worker} && sys.rental == old(sys.rental)
    {
      Record(RecordGrant(id), now);
    }

    /** The marker, the send and the recorded response of a grant; false when the attempt was already spent. */
    method SendMarkedGrant(id: nat, txid: string, now: int, expiresAt: int) returns (ok: bool)
      requires Valid()
      modifies this`sys, this`taken, store`books
      ensures Valid()
      ensures store.books == old(store.books).(grants := store.books.grants) && |store.books.grants| == |old(store.books).grants|
      ensures forall i :: 0 <= i < |store.books.grants| && i != id ==> store.books.grants[i] == old(store.books).grants[i]
      ensures ok <==> id < |old(store.books).grants| && UnspentGrant(old(store.books).grants[id])
      ensures !ok ==> sys.calls == old(sys.calls) && store.books == old(store.books)
      ensures ok ==> && id < |store.books.grants| && id < |old(store.books).grants|
                     && sys.calls == old(sys.calls) + [ForGrant(id, txid)]
                     && old(store.books).grants[id].status.Requested?
                     && store.books.grants[id] == old(store.books).grants[id].(
                          txid := Some(txid), attemptedAt := Some(now), expiresAt := Some(expiresAt), status := GrantStatus.Broadcast)
    {
      ok := Persist(PersistGrant(id, txid, now, expiresAt));
      if ok {
        Send();
        RecordGrantBroadcast(id, now);
      }
    }
  }

  // ----- The trace -----

  /** A step, and the state it was taken in. */
  datatype Moment = Moment(before: Sys, step: Step)

  predicate Moves(taken: seq<Moment>, end: Sys, i: nat)
    requires i < |taken|
  {
    && taken[i].before.log != []
    && Next(taken[i].before, taken[i].step) == if i + 1 < |taken| then taken[i + 1].before else end
  }

  /** The moments lead from a start to an end. */
  ghost predicate Traced(start: Sys, taken: seq<Moment>, end: Sys) {
    && start == (if taken == [] then end else taken[0].before)
    && forall i: nat :: i < |taken| ==> Moves(taken, end, i)
  }

  ghost predicate CarefulAt(moment: Moment) {
    moment.before.log != [] && Careful(moment.before, moment.step)
  }

  ghost predicate CarefulTrace(taken: seq<Moment>) {
    forall i :: 0 <= i < |taken| ==> CarefulAt(taken[i])
  }

  function Steps(taken: seq<Moment>): (steps: seq<Step>)
    ensures |steps| == |taken|
  {
    seq(|taken|, i requires 0 <= i < |taken| => taken[i].step)
  }

  lemma OneMoreStep(start: Sys, taken: seq<Moment>, end: Sys, step: Step)
    requires Traced(start, taken, end) && end.log != []
    ensures Traced(start, taken + [Moment(end, step)], Next(end, step))
    ensures CarefulTrace(taken) && Careful(end, step) ==> CarefulTrace(taken + [Moment(end, step)])
  {
    var more := taken + [Moment(end, step)];
    forall i: nat | i < |more| ensures Moves(more, Next(end, step), i) {
      if i < |taken| {
        assert Moves(taken, end, i);
      }
    }
  }

  /** What a session recorded is a run of the protocol, and a careful one when each of its steps was. */
  lemma {:induction false} TraceIsRun(start: Sys, taken: seq<Moment>, end: Sys)
    requires Traced(start, taken, end) && start.log != []
    ensures Run(start, Steps(taken)) == end
    ensures CarefulTrace(taken) ==> CarefulRun(start, Steps(taken))
    decreases |taken|
  {
    if taken != [] {
      var front, last := taken[..|taken| - 1], taken[|taken| - 1];
      FrontTraced(start, taken, end);
      TraceIsRun(start, front, last.before);
      assert Steps(taken) == Steps(front) + [last.step];
      assert Moves(taken, end, |front|);
      RunOneMore(start, Steps(front), last.step);
      assert CarefulTrace(taken) ==> CarefulTrace(front) && CarefulAt(taken[|front|]);
    }
  }

  lemma FrontTraced(start: Sys, taken: seq<Moment>, end: Sys)
    requires taken != [] && Traced(start, taken, end)
    ensures Traced(start, taken[..|taken| - 1], taken[|taken| - 1].before)
  {
    var front, last := taken[..|taken| - 1], taken[|taken| - 1];
    forall i: nat | i < |front| ensures Moves(front, last.before, i) {
      assert Moves(taken, end, i);
    }
  }

  lemma RunOneMore(s: Sys, steps: seq<Step>, step: Step)
    requires s.log != []
    ensures Run(s, steps + [step]) == Next(Run(s, steps), step)
    ensures CarefulRun(s, steps) && Careful(Run(s, steps), step) ==> CarefulRun(s, steps + [step])
  {
    var more := steps + [step];
    assert more[..|steps|] == steps;
    if CarefulRun(s, steps) && Careful(Run(s, steps), step) {
      forall i | 0 <= i < |more| ensures Careful(Run(s, more[..i]), more[i]) {
        if i < |steps| {
          assert more[..i] == steps[..i];
        }
      }
    }
  }
}
