/**
 At most one broadcast. Writes go through a log whose tail a power failure may cut anywhere after the last FULL
 commit. A worker that has committed an attempt marker is armed, and only an armed worker calls the outside.
 In every run each withdrawal, each grant and each purchase row is sent at most once, and only when its marker
 can no longer be lost.
 */
module Broadcasts {
  import opened Prelude
  import opened Tables
  import opened Payouts

  /** What a worker is about to send, with the marker that its row carries. */
  datatype Target =
    | ForWithdrawal(id: nat, txid: string)
    | ForGrant(id: nat, txid: string)
    | ForPurchase(id: nat, withdrawal: nat)

  predicate SameObject(s: Target, t: Target) {
    s.ForWithdrawal? == t.ForWithdrawal? && s.ForGrant? == t.ForGrant? && s.id == t.id
  }

  datatype Hand = Armed(target: Target) | Sent(target: Target)

  /** What a rental has established about a withdrawal so far. */
  datatype Rental = Idle | Quoting(withdrawal: nat) | Quoted(withdrawal: nat, row: nat)

  /** log holds every committed state since the last power failure could have cut it; synced is the last FULL commit. */
  datatype Sys = Sys(log: seq<Books>, synced: nat, hands: map<nat, Hand>, rental: Rental, calls: seq<Target>)

  ghost predicate WellLogged(s: Sys) {
    s.synced < |s.log|
  }

  function Now(s: Sys): Books
    requires s.log != []
  {
    s.log[|s.log| - 1]
  }

  function Commit(s: Sys, books: Books, full: bool): Sys {
    s.(log := s.log + [books], synced := if full then |s.log| else s.synced)
  }

  // ----- Markers -----

  predicate Settled(p: Purchase) {
    !p.status.Quoted?
  }

  /** The row of a target carries its marker. */
  predicate Spent(books: Books, t: Target) {
    match t
    case ForWithdrawal(id, txid) => id < |books.withdrawals| && books.withdrawals[id].txid == Some(txid)
    case ForGrant(id, txid) => id < |books.grants| && books.grants[id].txid == Some(txid)
    case ForPurchase(id, w) => id < |books.purchases| && books.purchases[id].withdrawal == w && Settled(books.purchases[id])
  }

  /** What a persist operation arms its worker with. */
  function TargetOf(books: Books, op: Op): Option<Target> {
    match op
    case PersistAttempt(id, txid, _, _) => Some(ForWithdrawal(id, txid))
    case PersistGrant(id, txid, _, _) => Some(ForGrant(id, txid))
    case MarkPurchase(id, _) => if id < |books.purchases| then Some(ForPurchase(id, books.purchases[id].withdrawal)) else None
    case _ => None
  }

  predicate IsMarker(op: Op) {
    op.PersistAttempt? || op.PersistGrant? || op.MarkPurchase?
  }

  // ----- Steps -----

  datatype Step =
    | Write(op: Op)
    | Persist(worker: nat, op: Op)
    | Send(worker: nat)
    | Record(worker: nat, now: int)
    | Drop(worker: nat)
    | LookUpRental(withdrawal: nat)
    | Quote(op: Op)
    | Refuse
    | ForgetRental
    | PowerFailure(kept: nat)

  function WriteStep(s: Sys, op: Op): Sys
    requires s.log != []
  {
    var after := AttemptOp(Now(s), op);
    if after.None? then s else Commit(s, after.value, IsFull(op))
  }

  function PersistStep(s: Sys, worker: nat, op: Op): Sys
    requires s.log != []
  {
    var after, target := AttemptOp(Now(s), op), TargetOf(Now(s), op);
    if worker in s.hands || after.None? || target.None? then s
    else if op.MarkPurchase? then
      if s.rental != Rental.Quoted(target.value.withdrawal, op.id) then s
      else Commit(s, after.value, true).(hands := s.hands[worker := Armed(target.value)], rental := Idle)
    else Commit(s, after.value, true).(hands := s.hands[worker := Armed(target.value)])
  }

  function RecordOp(t: Target, now: int): Option<Op> {
    match t
    case ForWithdrawal(id, _) => Some(RecordBroadcast(id, now))
    case ForGrant(id, _) => Some(RecordGrant(id))
    case ForPurchase(_, _) => None
  }

  /** A rental begins when the latest purchase row of the withdrawal is missing or only quoted. */
  predicate MayQuote(books: Books, withdrawal: nat) {
    var latest := EnergyPurchaseForWithdrawal(books.purchases, withdrawal);
    latest.None? || books.purchases[latest.value].status.Quoted?
  }

  /** Hypothesis on new rows: (created_at, id) increases. */
  predicate Newest(books: Books, id: nat, withdrawal: nat, now: int) {
    forall i :: 0 <= i < |books.purchases| && books.purchases[i].withdrawal == withdrawal ==>
                  Later(Purchase(id, withdrawal, PurchaseStatus.Quoted, None, now), books.purchases[i])
  }

  function Next(s: Sys, step: Step): Sys
    requires s.log != []
    ensures Next(s, step).log != []
  {
    match step
    case Write(op) =>
      // Markers arm a worker, and rows are quoted and refused by the rental steps.
      if IsMarker(op) || op.CreateQuote? || op.RejectQuote? || !MayFail(Now(s), op) then s else WriteStep(s, op)
    case Persist(worker, op) => if IsMarker(op) then PersistStep(s, worker, op) else s
    case Send(worker) =>
      if worker in s.hands && s.hands[worker].Armed?
      then s.(hands := s.hands[worker := Sent(s.hands[worker].target)], calls := s.calls + [s.hands[worker].target]) else s
    case Record(worker, now) =>
      if worker !in s.hands || !s.hands[worker].Sent? then s
      else
        var op := RecordOp(s.hands[worker].target, now);
        (if op.Some? then WriteStep(s, op.value) else s).(hands := s.hands - {worker})
    case Drop(worker) => s.(hands := s.hands - {worker})
    case LookUpRental(withdrawal) => if s.rental.Idle? && MayQuote(Now(s), withdrawal) then s.(rental := Quoting(withdrawal)) else s
    case Quote(op) =>
      if op.CreateQuote? && s.rental == Quoting(op.withdrawal) && Newest(Now(s), op.id, op.withdrawal, op.now)
         && AttemptOp(Now(s), op).Some?
      then WriteStep(s, op).(rental := Rental.Quoted(op.withdrawal, |Now(s).purchases|)) else s
    case Refuse => if s.rental.Quoted? then WriteStep(s, RejectQuote(s.rental.row)).(rental := Idle) else s
    case ForgetRental => s.(rental := Idle)
    case PowerFailure(kept) =>
      if s.synced <= kept < |s.log| then s.(log := s.log[..kept + 1], hands := map[], rental := Idle) else s
  }

  /** The engine fails a purchase only after reading it as purchased. */
  predicate MayFail(books: Books, op: Op) {
    op.FailPurchase? && op.id < |books.purchases| ==> books.purchases[op.id].status.Purchased?
  }

  function Run(s: Sys, steps: seq<Step>): (r: Sys)
    requires s.log != []
    ensures r.log != []
  {
    if steps == [] then s else Next(Run(s, steps[..|steps| - 1]), steps[|steps| - 1])
  }

  function Start(books: Books): Sys {
    Sys([books], 0, map[], Idle, [])
  }

  /** The store operation a step performs, if it performs one. */
  function OpOf(s: Sys, step: Step): Option<Op> {
    match step
    case Write(op) => Some(op)
    case Persist(_, op) => Some(op)
    case Quote(op) => Some(op)
    case Refuse => if s.rental.Quoted? then Some(RejectQuote(s.rental.row)) else None
    case Record(worker, now) => if worker in s.hands then RecordOp(s.hands[worker].target, now) else None
    case _ => None
  }

  /** A step leaves the log alone, cuts it, or appends what its operation computes. */
  lemma StepsWriteOnce(s: Sys, step: Step)
    requires s.log != []
    ensures var r := Next(s, step);
            || (r.log == s.log && r.synced == s.synced)
            || (step.PowerFailure? && r.log == s.log[..|r.log|] && r.synced == s.synced < |r.log| <= |s.log|)
            || (&& OpOf(s, step).Some? && AttemptOp(Now(s), OpOf(s, step).value).Some?
                && (OpOf(s, step).value.Create? ==> step.Write?)
                && exists full :: r.log == Commit(s, AttemptOp(Now(s), OpOf(s, step).value).value, full).log
                                  && r.synced == Commit(s, AttemptOp(Now(s), OpOf(s, step).value).value, full).synced)
  {
  }

  /** Recording a response is a write by a worker that then lets go. */
  lemma RecordShape(s: Sys, worker: nat, now: int, op: Op)
    requires s.log != [] && worker in s.hands && s.hands[worker].Sent? && RecordOp(s.hands[worker].target, now) == Some(op)
    ensures Next(s, Record(worker, now)) == WriteStep(s, op).(hands := s.hands - {worker})
    ensures WriteStep(s.(hands := s.hands - {worker}), op) == WriteStep(s, op).(hands := s.hands - {worker})
    ensures WriteStep(s, op).calls == s.calls && WriteStep(s, op).rental == s.rental
    ensures Now(WriteStep(s, op)) == AttemptOp(Now(s), op).GetOr(Now(s))
  {
  }

  /** Looking up and forgetting a rental touch nothing else. */
  lemma RentalShape(s: Sys, withdrawal: nat)
    requires s.log != []
    ensures s.rental.Idle? && MayQuote(Now(s), withdrawal) ==> Next(s, LookUpRental(withdrawal)) == s.(rental := Quoting(withdrawal))
    ensures Next(s, ForgetRental) == s.(rental := Idle)
  {
  }

  // ----- Rows never lose a marker -----

  ghost predicate KeepsMarkers(before: Books, after: Books) {
    && |before.withdrawals| <= |after.withdrawals|
    && (forall i :: 0 <= i < |before.withdrawals| && before.withdrawals[i].txid.Some? ==>
          after.withdrawals[i].txid == before.withdrawals[i].txid)
    && |before.grants| <= |after.grants|
    && (forall i :: 0 <= i < |before.grants| && before.grants[i].txid.Some? ==> after.grants[i].txid == before.grants[i].txid)
    && |before.purchases| <= |after.purchases|
    && (forall i :: 0 <= i < |before.purchases| ==>
          && after.purchases[i].withdrawal == before.purchases[i].withdrawal
          && (Settled(before.purchases[i]) ==> Settled(after.purchases[i])))
  }

  predicate GrantRowOp(op: Op) {
    op.PersistGrant? || op.RecordGrant? || op.EndGrant? || op.EscalateGrant? || op.LookupGrant? || op.ReceiveGrant?
  }

  predicate PurchaseRowOp(op: Op) {
    op.MarkPurchase? || op.RejectQuote? || op.RecordOrder? || op.CompletePurchase? || op.FailPurchase?
  }

  predicate InsertOp(op: Op) {
    op.Create? || op.CreateGrant? || op.CreateQuote?
  }

  lemma InsertsKeepMarkers(books: Books, op: Op)
    requires InsertOp(op) && AttemptOp(books, op).Some?
    ensures KeepsMarkers(books, AttemptOp(books, op).value)
  {
  }

  lemma WithdrawalOpsKeepMarkers(books: Books, op: Op)
    requires !InsertOp(op) && !GrantRowOp(op) && !PurchaseRowOp(op) && !op.ReconcileEnergy? && !op.LedgerEvent?
    requires AttemptOp(books, op).Some?
    ensures KeepsMarkers(books, AttemptOp(books, op).value)
  {
  }

  lemma GrantOpsKeepMarkers(books: Books, op: Op)
    requires GrantRowOp(op) && AttemptOp(books, op).Some?
    ensures KeepsMarkers(books, AttemptOp(books, op).value)
  {
    var after := AttemptOp(books, op).value;
    assert after.withdrawals == books.withdrawals && after.purchases == books.purchases;
    assert after.grants == books.grants[op.id := after.grants[op.id]];
  }

  lemma PurchaseOpsKeepMarkers(books: Books, op: Op)
    requires PurchaseRowOp(op) && AttemptOp(books, op).Some?
    ensures KeepsMarkers(books, AttemptOp(books, op).value)
  {
    var after := AttemptOp(books, op).value;
    assert after.withdrawals == books.withdrawals && after.grants == books.grants;
    assert after.purchases == books.purchases[op.id := after.purchases[op.id]];
  }

  /** No transaction clears or changes a marker. */
  lemma EveryOpKeepsMarkers(books: Books, op: Op)
    requires AttemptOp(books, op).Some?
    ensures KeepsMarkers(books, AttemptOp(books, op).value)
  {
    if InsertOp(op) {
      InsertsKeepMarkers(books, op);
    } else if GrantRowOp(op) {
      GrantOpsKeepMarkers(books, op);
    } else if PurchaseRowOp(op) {
      PurchaseOpsKeepMarkers(books, op);
    } else if !op.LedgerEvent? && !op.ReconcileEnergy? {
      WithdrawalOpsKeepMarkers(books, op);
    }
  }

  /** A marker is written only where there was none, and the row then carries it. */
  lemma MarkersAreNew(books: Books, op: Op)
    requires IsMarker(op) && AttemptOp(books, op).Some? && TargetOf(books, op).Some?
    ensures Spent(AttemptOp(books, op).value, TargetOf(books, op).value)
    ensures forall t :: SameObject(t, TargetOf(books, op).value) ==> !Spent(books, t)
  {
  }

  // ----- The invariant -----

  /** The marker survives any power failure that can still happen. */
  ghost predicate Durable(s: Sys, t: Target) {
    forall k :: s.synced <= k < |s.log| ==> Spent(s.log[k], t)
  }

  ghost predicate Inv(s: Sys) {
    && WellLogged(s)
    && (forall w :: w in s.hands ==> Durable(s, s.hands[w].target))
    && (forall i :: 0 <= i < |s.calls| ==> Durable(s, s.calls[i]))
    && (forall i, j :: 0 <= i < j < |s.calls| ==> !SameObject(s.calls[i], s.calls[j]))
    && (forall w, i :: w in s.hands && s.hands[w].Armed? && 0 <= i < |s.calls| ==> !SameObject(s.hands[w].target, s.calls[i]))
    && (forall v, w :: v in s.hands && w in s.hands && v != w && s.hands[v].Armed? && s.hands[w].Armed? ==>
          !SameObject(s.hands[v].target, s.hands[w].target))
  }

  lemma CommitKeepsDurable(s: Sys, books: Books, full: bool, t: Target)
    requires WellLogged(s) && KeepsMarkers(Now(s), books) && Durable(s, t)
    ensures Durable(Commit(s, books, full), t)
  {
    assert Spent(Now(s), t);
  }

  lemma WriteKeepsInv(s: Sys, op: Op)
    requires Inv(s)
    ensures Inv(WriteStep(s, op))
  {
    var after := AttemptOp(Now(s), op);
    if after.Some? {
      EveryOpKeepsMarkers(Now(s), op);
      var t := Commit(s, after.value, IsFull(op));
      forall w | w in s.hands ensures Durable(t, s.hands[w].target) {
        CommitKeepsDurable(s, after.value, IsFull(op), s.hands[w].target);
      }
      forall i | 0 <= i < |s.calls| ensures Durable(t, s.calls[i]) {
        CommitKeepsDurable(s, after.value, IsFull(op), s.calls[i]);
      }
    }
  }

  lemma ArmingIsNew(s: Sys, op: Op)
    requires Inv(s) && IsMarker(op) && AttemptOp(Now(s), op).Some? && TargetOf(Now(s), op).Some?
    ensures var target := TargetOf(Now(s), op).value;
            && Durable(Commit(s, AttemptOp(Now(s), op).value, true), target)
            && (forall w :: w in s.hands ==> !SameObject(s.hands[w].target, target))
            && (forall i :: 0 <= i < |s.calls| ==> !SameObject(s.calls[i], target))
  {
    MarkersAreNew(Now(s), op);
    assert forall w :: w in s.hands ==> Spent(Now(s), s.hands[w].target);
    assert forall i :: 0 <= i < |s.calls| ==> Spent(Now(s), s.calls[i]);
  }

  lemma ArmKeepsInv(s: Sys, worker: nat, target: Target)
    requires Inv(s) && worker !in s.hands && Durable(s, target)
    requires forall w :: w in s.hands ==> !SameObject(s.hands[w].target, target)
    requires forall i :: 0 <= i < |s.calls| ==> !SameObject(s.calls[i], target)
    ensures Inv(s.(hands := s.hands[worker := Armed(target)]))
  {
    assert forall w :: w in s.hands ==> !SameObject(target, s.hands[w].target);
    assert forall i :: 0 <= i < |s.calls| ==> !SameObject(target, s.calls[i]);
  }

  lemma PersistKeepsInv(s: Sys, worker: nat, op: Op)
    requires Inv(s) && IsMarker(op)
    ensures Inv(PersistStep(s, worker, op))
  {
    if PersistStep(s, worker, op) != s {
      WriteKeepsInv(s, op);
      ArmingIsNew(s, op);
      ArmKeepsInv(WriteStep(s, op), worker, TargetOf(Now(s), op).value);
    }
  }

  lemma SendKeepsInv(s: Sys, worker: nat)
    requires Inv(s)
    ensures Inv(Next(s, Send(worker)))
  {
  }

  /** Sending moves a durable target from the hand to the calls. */
  lemma SendShape(s: Sys, worker: nat)
    requires Inv(s) && worker in s.hands && s.hands[worker].Armed?
    ensures var target := s.hands[worker].target;
            && Next(s, Send(worker)) == s.(hands := s.hands[worker := Sent(target)], calls := s.calls + [target])
            && Durable(Next(s, Send(worker)), target)
  {
  }

  lemma FailureKeepsInv(s: Sys, kept: nat)
    requires Inv(s)
    ensures Inv(Next(s, PowerFailure(kept)))
  {
  }

  predicate RentalStep(step: Step) {
    step.LookUpRental? || step.Quote? || step.Refuse? || step.ForgetRental?
  }

  lemma RentalKeepsInv(s: Sys, step: Step)
    requires Inv(s) && RentalStep(step)
    ensures Inv(Next(s, step))
  {
    if step.Quote? {
      WriteKeepsInv(s, step.op);
    } else if step.Refuse? && s.rental.Quoted? {
      WriteKeepsInv(s, RejectQuote(s.rental.row));
    }
  }

  lemma RecordKeepsInv(s: Sys, worker: nat, now: int)
    requires Inv(s)
    ensures Inv(Next(s, Record(worker, now)))
  {
    if worker in s.hands && s.hands[worker].Sent? && RecordOp(s.hands[worker].target, now).Some? {
      WriteKeepsInv(s, RecordOp(s.hands[worker].target, now).value);
    }
  }

  lemma StepKeepsInv(s: Sys, step: Step)
    requires Inv(s)
    ensures Inv(Next(s, step))
  {
    if RentalStep(step) {
      RentalKeepsInv(s, step);
    } else if step.Write? {
      WriteKeepsInv(s, step.op);
    } else if step.Persist? {
      if IsMarker(step.op) { PersistKeepsInv(s, step.worker, step.op); }
    } else if step.Send? {
      SendKeepsInv(s, step.worker);
    } else if step.Record? {
      RecordKeepsInv(s, step.worker, step.now);
    } else if step.PowerFailure? {
      FailureKeepsInv(s, step.kept);
    }
  }

  lemma {:induction false} RunKeepsInv(s: Sys, steps: seq<Step>)
    requires Inv(s)
    ensures Inv(Run(s, steps))
  {
    if steps != [] {
      RunKeepsInv(s, steps[..|steps| - 1]);
      StepKeepsInv(Run(s, steps[..|steps| - 1]), steps[|steps| - 1]);
    }
  }

  /** In every run no withdrawal, grant or purchase row is sent twice. */
  lemma AtMostOneBroadcast(books: Books, steps: seq<Step>)
    ensures var calls := Run(Start(books), steps).calls;
            forall i, j :: 0 <= i < j < |calls| ==> !SameObject(calls[i], calls[j])
  {
    RunKeepsInv(Start(books), steps);
  }

  /** Whatever a step sends carries a marker that no power failure can take back, before and ever after. */
  lemma SendsAreDurable(books: Books, steps: seq<Step>, step: Step)
    ensures var s := Run(Start(books), steps);
            forall t :: t in Next(s, step).calls && t !in s.calls ==> Durable(s, t)
    ensures var s := Run(Start(books), steps); forall t :: t in s.calls ==> Durable(s, t)
  {
    RunKeepsInv(Start(books), steps);
  }
}
