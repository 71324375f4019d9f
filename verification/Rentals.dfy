/**
 Energy is rented at most once per withdrawal, although a power failure can leave an orphan quoted row and a later
 tick then quotes again: a row that is no longer quoted is the latest of its withdrawal, and the engine looks at
 the latest row before it asks for a quote.
 */
module Rentals {
  import opened Prelude
  import opened Tables
  import opened Payouts
  import opened Broadcasts

  predicate Siblings(ps: seq<Purchase>, i: nat, j: nat) {
    i < |ps| && j < |ps| && i != j && ps[i].withdrawal == ps[j].withdrawal
  }

  /** A settled row is its withdrawal's only settled row, and its latest. */
  ghost predicate OneSettled(ps: seq<Purchase>) {
    forall i: nat, j: nat :: Siblings(ps, i, j) && Settled(ps[i]) ==> !Settled(ps[j]) && Later(ps[i], ps[j])
  }

  ghost predicate NoneSettled(ps: seq<Purchase>, withdrawal: nat) {
    forall i :: 0 <= i < |ps| && ps[i].withdrawal == withdrawal ==> !Settled(ps[i])
  }

  ghost predicate LatestQuote(ps: seq<Purchase>, withdrawal: nat, row: nat) {
    && row < |ps| && ps[row].withdrawal == withdrawal
    && NoneSettled(ps, withdrawal)
    && (forall j: nat :: Siblings(ps, row, j) ==> Later(ps[row], ps[j]))
  }

  ghost predicate RentalKnows(rental: Rental, ps: seq<Purchase>) {
    match rental
    case Idle => true
    case Quoting(w) => NoneSettled(ps, w)
    case Quoted(w, row) => LatestQuote(ps, w, row)
  }

  ghost predicate RentalInv(s: Sys) {
    && WellLogged(s)
    && (forall k :: s.synced <= k < |s.log| ==> OneSettled(s.log[k].purchases))
    && RentalKnows(s.rental, Now(s).purchases)
  }

  // ----- Steps -----

  /** The same rows, settled where they were settled. */
  ghost predicate SameSettled(ps: seq<Purchase>, after: seq<Purchase>) {
    && |after| == |ps|
    && forall i :: 0 <= i < |ps| ==>
         && after[i].id == ps[i].id && after[i].withdrawal == ps[i].withdrawal && after[i].createdAt == ps[i].createdAt
         && Settled(after[i]) == Settled(ps[i])
  }

  lemma SameSettledKeeps(rental: Rental, ps: seq<Purchase>, after: seq<Purchase>)
    requires SameSettled(ps, after) && OneSettled(ps) && RentalKnows(rental, ps)
    ensures OneSettled(after) && RentalKnows(rental, after)
  {
    forall i: nat, j: nat | Siblings(after, i, j) && Settled(after[i]) ensures !Settled(after[j]) && Later(after[i], after[j]) {
      assert Siblings(ps, i, j);
    }
    if rental.Quoted? {
      forall j: nat | Siblings(after, rental.row, j) ensures Later(after[rental.row], after[j]) {
        assert Siblings(ps, rental.row, j);
      }
    }
  }

  /** Transactions outside the rental settle no quoted row. */
  lemma OtherOpsKeepSettled(books: Books, op: Op)
    requires !op.MarkPurchase? && !op.CreateQuote? && !op.RejectQuote? && MayFail(books, op)
    requires AttemptOp(books, op).Some?
    ensures SameSettled(books.purchases, AttemptOp(books, op).value.purchases)
  {
    if !op.RecordOrder? && !op.CompletePurchase? && !op.FailPurchase? && !op.ReconcileEnergy? {
      PurchasesUntouched(books, op);
    }
  }

  lemma PurchasesUntouched(books: Books, op: Op)
    requires !PurchaseRowOp(op) && !op.CreateQuote? && !op.ReconcileEnergy?
    requires AttemptOp(books, op).Some?
    ensures AttemptOp(books, op).value.purchases == books.purchases
  {
  }

  lemma WriteKeepsRental(s: Sys, op: Op)
    requires RentalInv(s)
    requires !op.MarkPurchase? && !op.CreateQuote? && !op.RejectQuote? && MayFail(Now(s), op)
    ensures RentalInv(WriteStep(s, op))
  {
    if AttemptOp(Now(s), op).Some? {
      OtherOpsKeepSettled(Now(s), op);
      SameSettledKeeps(s.rental, Now(s).purchases, AttemptOp(Now(s), op).value.purchases);
    }
  }

  /** Settling the latest quote of a withdrawal that has no settled row. */
  lemma SettleLatest(ps: seq<Purchase>, withdrawal: nat, row: nat, p: Purchase)
    requires OneSettled(ps) && LatestQuote(ps, withdrawal, row)
    requires p.id == ps[row].id && p.withdrawal == withdrawal && p.createdAt == ps[row].createdAt && Settled(p)
    ensures OneSettled(ps[row := p])
  {
    var after := ps[row := p];
    forall i: nat, j: nat | Siblings(after, i, j) && Settled(after[i]) ensures !Settled(after[j]) && Later(after[i], after[j]) {
      assert Siblings(ps, i, j);
    }
  }

  lemma MarkKeepsRental(s: Sys, worker: nat, op: Op)
    requires RentalInv(s) && IsMarker(op)
    ensures RentalInv(PersistStep(s, worker, op))
  {
    var r := PersistStep(s, worker, op);
    if r != s {
      if op.MarkPurchase? {
        SettleLatest(Now(s).purchases, s.rental.withdrawal, op.id, Now(r).purchases[op.id]);
      } else {
        PurchasesUntouched(Now(s), op);
      }
    }
  }

  lemma RefuseKeepsRental(s: Sys)
    requires RentalInv(s)
    ensures RentalInv(Next(s, Refuse))
  {
    if s.rental.Quoted? {
      var row := s.rental.row;
      var refused := Now(s).purchases[row].(status := PurchaseStatus.Failed);
      assert LatestQuote(Now(s).purchases, s.rental.withdrawal, row);
      SettleLatest(Now(s).purchases, s.rental.withdrawal, row, refused);
    }
  }

  lemma QuoteKeepsRental(s: Sys, op: Op)
    requires RentalInv(s)
    ensures RentalInv(Next(s, Quote(op)))
  {
    if Next(s, Quote(op)) != s {
      var ps := Now(s).purchases;
      var p := Purchase(op.id, op.withdrawal, PurchaseStatus.Quoted, None, op.now);
      forall i: nat, j: nat | Siblings(ps + [p], i, j) && Settled((ps + [p])[i])
        ensures !Settled((ps + [p])[j]) && Later((ps + [p])[i], (ps + [p])[j])
      {
        assert i < |ps|;
        assert j < |ps| ==> Siblings(ps, i, j);
      }
      assert NoneSettled(ps, op.withdrawal);
      assert LatestQuote(ps + [p], op.withdrawal, |ps|);
    }
  }

  /** If the latest row is missing or quoted, no row is settled. */
  lemma LookUpKeepsRental(s: Sys, withdrawal: nat)
    requires RentalInv(s)
    ensures RentalInv(Next(s, LookUpRental(withdrawal)))
  {
    var ps := Now(s).purchases;
    var latest := EnergyPurchaseForWithdrawal(ps, withdrawal);
    if latest.Some? && MayQuote(Now(s), withdrawal) {
      var l := latest.value;
      forall i | 0 <= i < |ps| && ps[i].withdrawal == withdrawal && i != l ensures !Settled(ps[i]) {
        assert Siblings(ps, i, l);
      }
    }
  }

  lemma StepKeepsRental(s: Sys, step: Step)
    requires RentalInv(s)
    ensures RentalInv(Next(s, step))
  {
    if step.Quote? {
      QuoteKeepsRental(s, step.op);
    } else if step.Refuse? {
      RefuseKeepsRental(s);
    } else if step.LookUpRental? {
      LookUpKeepsRental(s, step.withdrawal);
    } else if step.Persist? {
      if IsMarker(step.op) { MarkKeepsRental(s, step.worker, step.op); }
    } else if step.Write? {
      if Next(s, step) != s { WriteKeepsRental(s, step.op); }
    } else if step.Record? {
      RecordKeepsRental(s, step.worker, step.now);
    } else if step.PowerFailure? {
      FailureKeepsRental(s, step.kept);
    }
  }

  lemma RecordKeepsRental(s: Sys, worker: nat, now: int)
    requires RentalInv(s)
    ensures RentalInv(Next(s, Record(worker, now)))
  {
    if worker in s.hands && s.hands[worker].Sent? && RecordOp(s.hands[worker].target, now).Some? {
      WriteKeepsRental(s, RecordOp(s.hands[worker].target, now).value);
    }
  }

  lemma FailureKeepsRental(s: Sys, kept: nat)
    requires RentalInv(s)
    ensures RentalInv(Next(s, PowerFailure(kept)))
  {
  }

  lemma {:induction false} RunKeepsRental(s: Sys, steps: seq<Step>)
    requires RentalInv(s)
    ensures RentalInv(Run(s, steps))
  {
    if steps != [] {
      RunKeepsRental(s, steps[..|steps| - 1]);
      StepKeepsRental(Run(s, steps[..|steps| - 1]), steps[|steps| - 1]);
    }
  }

  /** In every run the provider is asked to sell energy at most once for each withdrawal. */
  lemma SingleRental(books: Books, steps: seq<Step>, i: nat, j: nat)
    requires OneSettled(books.purchases)
    requires i < j < |Run(Start(books), steps).calls|
    requires Run(Start(books), steps).calls[i].ForPurchase? && Run(Start(books), steps).calls[j].ForPurchase?
    ensures Run(Start(books), steps).calls[i].withdrawal != Run(Start(books), steps).calls[j].withdrawal
  {
    var s := Run(Start(books), steps);
    RunKeepsInv(Start(books), steps);
    RunKeepsRental(Start(books), steps);
    var first, second := s.calls[i], s.calls[j];
    assert Durable(s, first) && Durable(s, second);
    assert Spent(Now(s), first) && Spent(Now(s), second);
    assert OneSettled(Now(s).purchases);
    assert !Siblings(Now(s).purchases, first.id, second.id);
  }
}
