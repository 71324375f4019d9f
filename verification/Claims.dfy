/**
 Exclusive claims: at most one withdrawal of a source address is between its claim and its outcome. The one step
 that can break this is a lookup that revives a failed or escalated row, which the forced startup recovery allows.
 */
module Claims {
  import opened Prelude
  import opened Tables
  import opened Payouts
  import opened Broadcasts

  ghost predicate OneActive(ws: seq<Withdrawal>) {
    forall i, j :: 0 <= i < j < |ws| && ws[i].addressId == ws[j].addressId && Active(ws[i].status) ==> !Active(ws[j].status)
  }

  // ----- Claiming -----

  lemma {:induction false} FreeAddressHoldsNothing(ws: seq<Withdrawal>, n: nat, id: nat, addressId: nat, asset: string)
    requires n <= |ws| && !AddressBusy(ws, id, addressId)
    ensures Held(ws[..n], id, addressId, asset) == 0
  {
    if n > 0 {
      assert ws[..n][..n - 1] == ws[..n - 1];
      FreeAddressHoldsNothing(ws, n - 1, id, addressId, asset);
      assert !HoldsAddress(ws[n - 1], n - 1, id, addressId);
    }
  }

  predicate Claimed(books: Books, after: Books, id: nat) {
    id < |books.withdrawals| && books.withdrawals[id].status.Requested?
    && id < |after.withdrawals| && after.withdrawals[id].status.AwaitingResources?
  }

  /**
   A claim succeeds exactly for a requested withdrawal of an idle address whose amount, together with all amounts
   held there, fits the confirmed balance of an address without drift; nothing is then held by anyone else.
   */
  lemma ClaimFits(books: Books, id: nat, now: int)
    requires id < |books.withdrawals|
    ensures var w, after := books.withdrawals[id], ClaimWithdrawal(books, id, now);
            after.Some? && Claimed(books, after.value, id)
            <==>
            && w.status.Requested? && !AddressBusy(books.withdrawals, id, w.addressId)
            && (w.addressId, w.asset) in books.db.balances && !books.db.balances[(w.addressId, w.asset)].drift
            && 0 < w.amount
            && Held(books.withdrawals, id, w.addressId, w.asset) + w.amount <= books.db.balances[(w.addressId, w.asset)].confirmed
    ensures var w, after := books.withdrawals[id], ClaimWithdrawal(books, id, now);
            after.Some? && Claimed(books, after.value, id) ==> Held(books.withdrawals, id, w.addressId, w.asset) == 0
  {
    var w := books.withdrawals[id];
    if !AddressBusy(books.withdrawals, id, w.addressId) {
      FreeAddressHoldsNothing(books.withdrawals, |books.withdrawals|, id, w.addressId, w.asset);
      assert books.withdrawals[..|books.withdrawals|] == books.withdrawals;
    }
  }

  /**
   A lookup that finds the transaction keeps claims exclusive exactly when its row was active already, or no
   other withdrawal of the address is active. The forced recovery at startup does not check this.
   */
  lemma FoundLookupKeepsClaimsIff(books: Books, id: nat, now: int)
    requires id < |books.withdrawals| && OneActive(books.withdrawals)
    ensures var w := books.withdrawals[id];
            OneActive(RecordWithdrawalLookup(books, id, true, now).value.withdrawals)
            <==> Active(w.status) || !AddressBusy(books.withdrawals, id, w.addressId)
  {
    var w, ws := books.withdrawals[id], books.withdrawals;
    var after := RecordWithdrawalLookup(books, id, true, now).value.withdrawals;
    if !Active(w.status) && AddressBusy(ws, id, w.addressId) {
      var i :| 0 <= i < |ws| && HoldsAddress(ws[i], i, id, w.addressId);
      assert after[i] == ws[i] && Active(after[id].status);
    } else if !Active(w.status) {
      assert forall i :: 0 <= i < |ws| ==> !HoldsAddress(ws[i], i, id, w.addressId);
    }
  }

  // ----- What operations do to statuses -----

  predicate MayHaveTxid(status: WithdrawalStatus) {
    status.Signing? || status.Broadcast? || status.Confirmed? || status.Failed? || status.NeedsOperator?
  }

  ghost predicate TxidStatus(ws: seq<Withdrawal>) {
    forall i :: 0 <= i < |ws| && ws[i].txid.Some? ==> MayHaveTxid(ws[i].status)
  }

  /** The same rows with the same terms, none of them newly active. */
  ghost predicate NoNewActive(ws: seq<Withdrawal>, after: seq<Withdrawal>) {
    && |after| == |ws|
    && forall i :: 0 <= i < |ws| ==> after[i].addressId == ws[i].addressId && (Active(after[i].status) ==> Active(ws[i].status))
  }

  /** The row an engine operation works on. */
  function EngineRow(op: Op): Option<nat> {
    match op
    case SetState(id, _, _, _, _) => Some(id)
    case RecordBroadcast(id, _) => Some(id)
    case RecordLookup(id, _, _) => Some(id)
    case LookupFailure(id, _) => Some(id)
    case Escalate(id, _) => Some(id)
    case FailAbsent(id, _) => Some(id)
    case FailResources(id, _) => Some(id)
    case Confirm(id, _, _, _, _) => Some(id)
    case _ => None
  }

  /** The engine's calls: state changes among the resource states or to signing, and lookups of open rows. */
  predicate EngineCall(books: Books, op: Op) {
    match op
    case SetState(_, from, to, _, _) => Awaiting(from) && (Awaiting(to) || to.Signing?)
    case RecordLookup(id, found, _) =>
      found && id < |books.withdrawals| ==>
        var w := books.withdrawals[id];
        w.txid.Some? && !w.status.Confirmed? && !w.status.Failed? && !w.status.NeedsOperator?
    case RecordBroadcast(id, _) => id < |books.withdrawals| ==> books.withdrawals[id].status.Signing?
    case _ => true
  }

  /** Of the row an engine call works on: same address, not newly active, and a transaction id only where one may be. */
  predicate Tame(w: Withdrawal, v: Withdrawal) {
    v.addressId == w.addressId && (Active(v.status) ==> Active(w.status)) && (v.txid.Some? ==> MayHaveTxid(v.status))
  }

  lemma EngineRowStays(books: Books, op: Op)
    requires EngineRow(op).Some? && EngineCall(books, op) && TxidStatus(books.withdrawals)
    requires AttemptOp(books, op).Some?
    ensures var id, after := EngineRow(op).value, AttemptOp(books, op).value.withdrawals;
            && id < |books.withdrawals| == |after| && Tame(books.withdrawals[id], after[id])
            && after == books.withdrawals[id := after[id]]
  {
  }

  lemma EngineRowsStay(books: Books, op: Op)
    requires EngineRow(op).Some? && EngineCall(books, op) && TxidStatus(books.withdrawals)
    requires AttemptOp(books, op).Some?
    ensures NoNewActive(books.withdrawals, AttemptOp(books, op).value.withdrawals)
    ensures TxidStatus(AttemptOp(books, op).value.withdrawals)
    ensures var id, after := EngineRow(op).value, AttemptOp(books, op).value.withdrawals;
            forall i :: 0 <= i < |after| && i != id ==> after[i] == books.withdrawals[i]
  {
    EngineRowStays(books, op);
  }

  /** Every other operation on withdrawals leaves existing rows alone, except Claim, Resolve and the marker. */
  lemma OtherRowsStay(books: Books, op: Op)
    requires EngineRow(op).None? && !op.Claim? && !op.Resolve? && !op.PersistAttempt? && !op.Create?
    requires AttemptOp(books, op).Some?
    ensures AttemptOp(books, op).value.withdrawals == books.withdrawals
  {
  }

  lemma ResolveStays(books: Books, op: Op)
    requires (op.Resolve? || op.PersistAttempt?) && AttemptOp(books, op).Some? && TxidStatus(books.withdrawals)
    ensures NoNewActive(books.withdrawals, AttemptOp(books, op).value.withdrawals)
    ensures TxidStatus(AttemptOp(books, op).value.withdrawals)
    ensures forall i :: 0 <= i < |books.withdrawals| && books.withdrawals[i].status.Signing? ==>
                          AttemptOp(books, op).value.withdrawals[i].status.Signing?
  {
  }

  lemma ClaimStays(books: Books, op: Op)
    requires op.Claim? && AttemptOp(books, op).Some? && OneActive(books.withdrawals) && TxidStatus(books.withdrawals)
    ensures OneActive(AttemptOp(books, op).value.withdrawals) && TxidStatus(AttemptOp(books, op).value.withdrawals)
    ensures |AttemptOp(books, op).value.withdrawals| == |books.withdrawals|
    ensures forall i :: 0 <= i < |books.withdrawals| && books.withdrawals[i].status.Signing? ==>
                          AttemptOp(books, op).value.withdrawals[i] == books.withdrawals[i]
  {
    var after := AttemptOp(books, op).value.withdrawals;
    if after != books.withdrawals && after[op.id].status.AwaitingResources? {
      var a := books.withdrawals[op.id].addressId;
      assert forall i :: 0 <= i < |after| ==> !HoldsAddress(books.withdrawals[i], i, op.id, a);
    }
  }

  lemma CreateStays(books: Books, op: Op)
    requires op.Create? && AttemptOp(books, op).Some? && OneActive(books.withdrawals) && TxidStatus(books.withdrawals)
    ensures OneActive(AttemptOp(books, op).value.withdrawals) && TxidStatus(AttemptOp(books, op).value.withdrawals)
    ensures |books.withdrawals| <= |AttemptOp(books, op).value.withdrawals|
    ensures forall i :: 0 <= i < |books.withdrawals| ==> AttemptOp(books, op).value.withdrawals[i] == books.withdrawals[i]
  {
  }

  // ----- The invariant of runs -----

  ghost predicate Exclusive(books: Books) {
    OneActive(books.withdrawals) && TxidStatus(books.withdrawals)
  }

  predicate Handles(hand: Hand, id: nat) {
    hand.target.ForWithdrawal? && hand.target.id == id
  }

  predicate BothHandle(t: Target, u: Target) {
    t.ForWithdrawal? && u.ForWithdrawal? && t.id == u.id
  }

  predicate SigningAt(ws: seq<Withdrawal>, id: nat) {
    id < |ws| && ws[id].status.Signing?
  }

  /** A withdrawal in a worker's hands is still signing, and is in no other worker's hands. */
  ghost predicate HandsSigning(s: Sys)
    requires s.log != []
  {
    && (forall w :: w in s.hands && s.hands[w].target.ForWithdrawal? ==> SigningAt(Now(s).withdrawals, s.hands[w].target.id))
    && (forall v, w :: v in s.hands && w in s.hands && v != w ==> !BothHandle(s.hands[v].target, s.hands[w].target))
  }

  ghost predicate ClaimInv(s: Sys) {
    && Inv(s)
    && (forall k :: s.synced <= k < |s.log| ==> Exclusive(s.log[k]))
    && HandsSigning(s)
  }

  /**
   The engine works on one withdrawal at a time: from the attempt marker to the recorded response no other step
   touches the row, and lookups are those of the unforced recovery.
   */
  ghost predicate Careful(s: Sys, step: Step)
    requires s.log != []
  {
    match step
    case Write(op) =>
      && EngineCall(Now(s), op) && !op.RecordBroadcast?
      && (EngineRow(op).Some? ==> forall w :: w in s.hands ==> !Handles(s.hands[w], EngineRow(op).value))
    case _ => true
  }

  lemma CommitKeepsExclusive(s: Sys, books: Books, full: bool)
    requires ClaimInv(s) && Exclusive(books) && Inv(Commit(s, books, full))
    requires forall w :: w in s.hands && s.hands[w].target.ForWithdrawal? ==> SigningAt(books.withdrawals, s.hands[w].target.id)
    ensures ClaimInv(Commit(s, books, full))
  {
  }

  lemma WriteKeepsClaims(s: Sys, op: Op)
    requires ClaimInv(s) && Careful(s, Write(op)) && !IsMarker(op)
    ensures ClaimInv(WriteStep(s, op))
  {
    if AttemptOp(Now(s), op).Some? {
      var books, after := Now(s), AttemptOp(Now(s), op).value;
      assert Exclusive(books);
      WriteKeepsInv(s, op);
      if EngineRow(op).Some? {
        EngineRowsStay(books, op);
      } else if op.Claim? {
        ClaimStays(books, op);
      } else if op.Create? {
        CreateStays(books, op);
      } else if op.Resolve? {
        ResolveStays(books, op);
      } else {
        OtherRowsStay(books, op);
      }
      CommitKeepsExclusive(s, after, IsFull(op));
    }
  }

  lemma PersistKeepsClaims(s: Sys, worker: nat, op: Op)
    requires ClaimInv(s) && IsMarker(op)
    ensures ClaimInv(PersistStep(s, worker, op))
  {
    if PersistStep(s, worker, op) != s {
      var books, after := Now(s), AttemptOp(Now(s), op).value;
      assert Exclusive(books);
      WriteKeepsInv(s, op);
      PersistKeepsInv(s, worker, op);
      ArmingIsNew(s, op);
      if op.PersistAttempt? {
        ResolveStays(books, op);
      } else {
        OtherRowsStay(books, op);
      }
      CommitKeepsExclusive(s, after, true);
      TakeInHand(WriteStep(s, op), worker, TargetOf(books, op).value, PersistStep(s, worker, op));
    }
  }

  lemma TakeInHand(s: Sys, worker: nat, target: Target, after: Sys)
    requires ClaimInv(s) && Inv(after) && worker !in s.hands
    requires after.log == s.log && after.synced == s.synced && after.hands == s.hands[worker := Armed(target)]
    requires forall w :: w in s.hands ==> !SameObject(s.hands[w].target, target)
    requires target.ForWithdrawal? ==> SigningAt(Now(s).withdrawals, target.id)
    ensures ClaimInv(after)
  {
  }

  /** A worker that lets go leaves its withdrawal in nobody's hands. */
  lemma LetGoKeepsClaims(s: Sys, worker: nat)
    requires ClaimInv(s) && worker in s.hands
    ensures var free := s.(hands := s.hands - {worker});
            && ClaimInv(free)
            && (s.hands[worker].target.ForWithdrawal? ==>
                  && SigningAt(Now(free).withdrawals, s.hands[worker].target.id)
                  && forall w :: w in free.hands ==> !Handles(free.hands[w], s.hands[worker].target.id))
  {
    SameBooksKeepClaims(s, s.(hands := s.hands - {worker}));
  }

  lemma RecordKeepsClaims(s: Sys, worker: nat, now: int)
    requires ClaimInv(s)
    ensures ClaimInv(Next(s, Record(worker, now)))
  {
    if worker in s.hands && s.hands[worker].Sent? {
      var free := s.(hands := s.hands - {worker});
      LetGoKeepsClaims(s, worker);
      var op := RecordOp(s.hands[worker].target, now);
      if op.Some? {
        RecordShape(s, worker, now, op.value);
        RecordFree(free, op.value);
      }
    }
  }

  lemma RecordFree(s: Sys, op: Op)
    requires ClaimInv(s) && (op.RecordBroadcast? || op.RecordGrant?)
    requires op.RecordBroadcast? ==> SigningAt(Now(s).withdrawals, op.id)
    requires op.RecordBroadcast? ==> forall w :: w in s.hands ==> !Handles(s.hands[w], op.id)
    ensures ClaimInv(WriteStep(s, op))
  {
    if AttemptOp(Now(s), op).Some? {
      assert Exclusive(Now(s));
      WriteKeepsInv(s, op);
      if op.RecordBroadcast? {
        EngineRowsStay(Now(s), op);
      } else {
        OtherRowsStay(Now(s), op);
      }
      CommitKeepsExclusive(s, AttemptOp(Now(s), op).value, true);
    }
  }

  lemma SameBooksKeepClaims(s: Sys, after: Sys)
    requires ClaimInv(s) && Inv(after)
    requires s.synced <= after.synced && after.log != [] && |after.log| <= |s.log| && after.log == s.log[..|after.log|]
    requires after.hands == map[] || (after.log == s.log
             && forall w :: w in after.hands ==> w in s.hands && after.hands[w].target == s.hands[w].target)
    ensures ClaimInv(after)
  {
  }

  lemma PurchaseWriteKeepsClaims(s: Sys, op: Op)
    requires ClaimInv(s) && (op.CreateQuote? || op.RejectQuote?)
    ensures ClaimInv(WriteStep(s, op))
  {
    if AttemptOp(Now(s), op).Some? {
      OtherRowsStay(Now(s), op);
      WriteKeepsInv(s, op);
      assert Exclusive(Now(s));
      CommitKeepsExclusive(s, AttemptOp(Now(s), op).value, false);
    }
  }

  lemma RentalFieldKeepsClaims(s: Sys, rental: Rental)
    requires ClaimInv(s)
    ensures ClaimInv(s.(rental := rental))
  {
  }

  lemma RentalKeepsClaims(s: Sys, step: Step)
    requires ClaimInv(s) && RentalStep(step)
    ensures ClaimInv(Next(s, step))
  {
    var r := Next(s, step);
    if step.Quote? && r != s {
      PurchaseWriteKeepsClaims(s, step.op);
      RentalFieldKeepsClaims(WriteStep(s, step.op), r.rental);
    } else if step.Refuse? && s.rental.Quoted? {
      PurchaseWriteKeepsClaims(s, RejectQuote(s.rental.row));
      RentalFieldKeepsClaims(WriteStep(s, RejectQuote(s.rental.row)), r.rental);
    } else {
      RentalFieldKeepsClaims(s, r.rental);
    }
  }

  lemma StepKeepsClaims(s: Sys, step: Step)
    requires ClaimInv(s) && Careful(s, step)
    ensures ClaimInv(Next(s, step))
  {
    StepKeepsInv(s, step);
    if RentalStep(step) {
      RentalKeepsClaims(s, step);
    } else if step.Write? {
      if Next(s, step) != s { WriteKeepsClaims(s, step.op); }
    } else if step.Persist? {
      if IsMarker(step.op) { PersistKeepsClaims(s, step.worker, step.op); }
    } else if step.Record? {
      RecordKeepsClaims(s, step.worker, step.now);
    } else {
      SameBooksKeepClaims(s, Next(s, step));
    }
  }

  ghost predicate CarefulRun(s: Sys, steps: seq<Step>)
    requires s.log != []
  {
    forall i :: 0 <= i < |steps| ==> Careful(Run(s, steps[..i]), steps[i])
  }

  /** In every careful run, and after every power failure in it, no address has two active withdrawals. */
  lemma {:induction false} ClaimsStayExclusive(s: Sys, steps: seq<Step>)
    requires ClaimInv(s) && CarefulRun(s, steps)
    ensures ClaimInv(Run(s, steps)) && OneActive(Now(Run(s, steps)).withdrawals)
  {
    if steps != [] {
      var front := steps[..|steps| - 1];
      assert CarefulRun(s, front) by {
        forall i | 0 <= i < |front| ensures Careful(Run(s, front[..i]), front[i]) {
          assert front[..i] == steps[..i];
        }
      }
      ClaimsStayExclusive(s, front);
      StepKeepsClaims(Run(s, front), steps[|steps| - 1]);
    }
    assert Exclusive(Now(Run(s, steps)));
  }
}
