/**
 The daily limit. With a fixed limit, a clock that does not run backwards and no withdrawal coming back from a
 rejected, failed or escalated status, the exact USD total of every UTC day stays within the limit, over every
 run and every power failure.
 */
module DailyCap {
  import opened Prelude
  import opened Tables
  import opened Payouts
  import opened Broadcasts

  /** The money has left or may still leave. */
  predicate Stands(status: WithdrawalStatus) {
    status != Rejected && status != WithdrawalStatus.Failed && status != WithdrawalStatus.NeedsOperator
  }

  /** Days are numbered from the epoch. */
  predicate OnDay(second: int, day: int) {
    86_400 * day <= second < 86_400 * (day + 1)
  }

  function CountedOn(day: int): Withdrawal -> real {
    (w: Withdrawal) => if OnDay(w.createdAt, day) && Stands(w.status) then w.usd else 0.0
  }

  /** The USD of a UTC day's withdrawals that stand, confirmed ones included. */
  function DayTotal(ws: seq<Withdrawal>, day: int): real {
    RealSum(ws, CountedOn(day))
  }

  ghost predicate Within(ws: seq<Withdrawal>, limit: real) {
    && (forall i :: 0 <= i < |ws| ==> ws[i].usd >= 0.0)
    && (forall day :: DayTotal(ws, day) <= limit)
  }

  // ----- Sums -----

  lemma {:induction false} RealSumLe(s: seq<Withdrawal>, t: seq<Withdrawal>, f: Withdrawal -> real, g: Withdrawal -> real)
    requires |s| == |t| && forall i :: 0 <= i < |s| ==> f(s[i]) <= g(t[i])
    ensures RealSum(s, f) <= RealSum(t, g)
  {
    if s != [] {
      RealSumLe(s[..|s| - 1], t[..|t| - 1], f, g);
    }
  }

  lemma RealSumSnoc(s: seq<Withdrawal>, w: Withdrawal, f: Withdrawal -> real)
    ensures RealSum(s + [w], f) == RealSum(s, f) + f(w)
  {
    assert (s + [w])[..|s|] == s;
  }

  /** Among rows not later than now, those since the start of today are today's. */
  lemma TodayIsSinceStart(createdAt: int, now: int, day: int)
    requires createdAt <= now && OnDay(now, day)
    ensures createdAt >= DayStart(now) <==> OnDay(createdAt, day)
  {
    assert now / DAY == day && DayStart(now) == 86_400 * day;
  }

  /** The statuses the source lists are those that stand. */
  lemma CountedStands(status: WithdrawalStatus)
    ensures Counted(status) <==> Stands(status)
  {
  }

  // ----- Writes -----

  /** A row keeps its terms, and is not counted again once it no longer is. */
  predicate RowStays(w: Withdrawal, after: Withdrawal) {
    after.usd == w.usd && after.createdAt == w.createdAt && (Stands(after.status) ==> Stands(w.status))
  }

  ghost predicate RowsStay(ws: seq<Withdrawal>, after: seq<Withdrawal>) {
    |after| == |ws| && forall i :: 0 <= i < |ws| ==> RowStays(ws[i], after[i])
  }

  lemma StayingRowsStayWithin(ws: seq<Withdrawal>, after: seq<Withdrawal>, limit: real)
    requires Within(ws, limit) && RowsStay(ws, after)
    ensures Within(after, limit)
  {
    forall i | 0 <= i < |after| ensures after[i].usd >= 0.0 {
      assert RowStays(ws[i], after[i]);
    }
    forall day ensures DayTotal(after, day) <= limit {
      forall i | 0 <= i < |after| ensures CountedOn(day)(after[i]) <= CountedOn(day)(ws[i]) {
        assert RowStays(ws[i], after[i]);
      }
      RealSumLe(after, ws, CountedOn(day), CountedOn(day));
      assert DayTotal(ws, day) <= limit;
    }
  }

  /** What the store adds up for a request is the day's total. */
  lemma TodayIsCounted(ws: seq<Withdrawal>, now: int, day: int)
    requires OnDay(now, day) && forall i :: 0 <= i < |ws| ==> ws[i].createdAt <= now
    ensures DayTotal(ws, day) == RealSum(ws, CountedSince(DayStart(now)))
  {
    forall i | 0 <= i < |ws| ensures CountedOn(day)(ws[i]) == CountedSince(DayStart(now))(ws[i]) {
      TodayIsSinceStart(ws[i].createdAt, now, day);
      CountedStands(ws[i].status);
    }
    RealSumLe(ws, ws, CountedOn(day), CountedSince(DayStart(now)));
    RealSumLe(ws, ws, CountedSince(DayStart(now)), CountedOn(day));
  }

  /** A request the store accepts keeps its day within the limit. */
  lemma CreateStaysWithin(books: Books, r: Request, limit: real)
    requires Within(books.withdrawals, limit) && r.limit == Some(limit)
    requires forall i :: 0 <= i < |books.withdrawals| ==> books.withdrawals[i].createdAt <= r.now
    requires CreateWithdrawal(books, r).Some?
    ensures Within(CreateWithdrawal(books, r).value.withdrawals, limit)
  {
    var ws, after := books.withdrawals, CreateWithdrawal(books, r).value.withdrawals;
    var w := after[|ws|];
    assert after == ws + [w];
    forall day ensures DayTotal(after, day) <= limit {
      RealSumSnoc(ws, w, CountedOn(day));
      assert DayTotal(ws, day) <= limit;
      if OnDay(r.now, day) {
        TodayIsCounted(ws, r.now, day);
      }
    }
  }

  /** The cap is exact: a request is refused for the limit alone only when it would break the day's total. */
  lemma RefusedOnlyAboveLimit(books: Books, r: Request, limit: real)
    requires r.limit == Some(limit) && r.usd.Some? && r.usd.value > 0.0 && limit > 0.0
    requires forall i :: 0 <= i < |books.withdrawals| ==> books.withdrawals[i].createdAt <= r.now
    requires !KeyTaken(books, r.idempotencyKey) && Owner(books.db.addresses, r.from).Some?
    requires var key := (Owner(books.db.addresses, r.from).value, r.asset);
             && key in books.db.balances && !books.db.balances[key].drift && 0 < r.amount <= books.db.balances[key].confirmed
    requires !books.db.addresses[Owner(books.db.addresses, r.from).value].state.Disabled?
    ensures CreateWithdrawal(books, r).Some? <==> DayTotal(books.withdrawals, r.now / 86_400) + r.usd.value <= limit
  {
    assert OnDay(r.now, r.now / 86_400);
    TodayIsCounted(books.withdrawals, r.now, r.now / 86_400);
  }

  /** On the way from its request to its confirmation a withdrawal only ever changes among the statuses that stand. */
  predicate TowardConfirmation(books: Books, op: Op) {
    match op
    case Create(_) => true
    case Claim(id, _) => id < |books.withdrawals| && Funded(books, id)
    case SetState(_, _, to, _, _) => to in {AwaitingResources, AwaitingEnergy, Signing}
    case PersistAttempt(_, _, _, _) => true
    case RecordBroadcast(_, _) => true
    case RecordLookup(_, _, _) => true
    case Confirm(_, _, _, _, _) => true
    case _ => false
  }

  lemma TowardKeepsRows(books: Books, op: Op)
    requires TowardConfirmation(books, op) && AttemptOp(books, op).Some?
    ensures var after := AttemptOp(books, op).value.withdrawals;
            && |books.withdrawals| <= |after|
            && (forall i :: 0 <= i < |books.withdrawals| ==>
                  && after[i].usd == books.withdrawals[i].usd && after[i].createdAt == books.withdrawals[i].createdAt
                  && (Stands(books.withdrawals[i].status) ==> Stands(after[i].status)))
            && (forall i :: |books.withdrawals| <= i < |after| ==> after[i].usd >= 0.0)
  {
  }

  /** None of those steps lowers a day's total. */
  lemma TotalNeverFalls(books: Books, op: Op, day: int)
    requires TowardConfirmation(books, op) && AttemptOp(books, op).Some?
    requires forall i :: 0 <= i < |books.withdrawals| ==> books.withdrawals[i].usd >= 0.0
    ensures DayTotal(books.withdrawals, day) <= DayTotal(AttemptOp(books, op).value.withdrawals, day)
  {
    var ws, after := books.withdrawals, AttemptOp(books, op).value.withdrawals;
    TowardKeepsRows(books, op);
    RealSumLe(ws, after[..|ws|], CountedOn(day), CountedOn(day));
    MoreRows(after, |ws|, day);
  }

  lemma {:induction false} MoreRows(ws: seq<Withdrawal>, n: nat, day: int)
    requires n <= |ws| && forall i :: n <= i < |ws| ==> ws[i].usd >= 0.0
    ensures DayTotal(ws[..n], day) <= DayTotal(ws, day)
    decreases |ws| - n
  {
    if n < |ws| {
      assert ws[..n + 1] == ws[..n] + [ws[n]];
      RealSumSnoc(ws[..n], ws[n], CountedOn(day));
      MoreRows(ws, n + 1, day);
    } else {
      assert ws[..n] == ws;
    }
  }

  ghost predicate SameTerms(ws: seq<Withdrawal>, after: seq<Withdrawal>) {
    && |after| == |ws|
    && forall i :: 0 <= i < |after| ==> after[i].usd == ws[i].usd && after[i].createdAt == ws[i].createdAt
  }

  lemma SendingKeepsTerms(books: Books, op: Op)
    requires op.Claim? || op.SetState? || op.PersistAttempt? || op.RecordBroadcast? || op.RecordLookup? || op.LookupFailure?
    requires AttemptOp(books, op).Some?
    ensures SameTerms(books.withdrawals, AttemptOp(books, op).value.withdrawals)
  {
  }

  lemma EndingKeepsTerms(books: Books, op: Op)
    requires op.Escalate? || op.FailAbsent? || op.FailResources? || op.Confirm? || op.Resolve?
    requires AttemptOp(books, op).Some?
    ensures SameTerms(books.withdrawals, AttemptOp(books, op).value.withdrawals)
  {
  }

  lemma OpsKeepTerms(books: Books, op: Op)
    requires !op.Create? && AttemptOp(books, op).Some?
    ensures SameTerms(books.withdrawals, AttemptOp(books, op).value.withdrawals)
  {
    if op.Claim? || op.SetState? || op.PersistAttempt? || op.RecordBroadcast? || op.RecordLookup? || op.LookupFailure? {
      SendingKeepsTerms(books, op);
    } else if op.Escalate? || op.FailAbsent? || op.FailResources? || op.Confirm? || op.Resolve? {
      EndingKeepsTerms(books, op);
    } else {
      assert AttemptOp(books, op).value.withdrawals == books.withdrawals;
    }
  }

  // ----- Runs -----

  /** No row is counted again after the step. */
  ghost predicate NoReentry(ws: seq<Withdrawal>, after: seq<Withdrawal>) {
    forall i :: 0 <= i < |ws| && i < |after| && Stands(after[i].status) ==> Stands(ws[i].status)
  }

  ghost predicate Orderly(s: Sys, step: Step, limit: real)
    requires s.log != []
  {
    && (step.Write? && step.op.Create? ==>
          && step.op.request.limit == Some(limit)
          && forall i :: 0 <= i < |Now(s).withdrawals| ==> Now(s).withdrawals[i].createdAt <= step.op.request.now)
    && (!step.PowerFailure? ==> NoReentry(Now(s).withdrawals, Now(Next(s, step)).withdrawals))
  }

  ghost predicate CapInv(s: Sys, limit: real) {
    WellLogged(s) && forall k :: s.synced <= k < |s.log| ==> Within(s.log[k].withdrawals, limit)
  }

  lemma WriteKeepsCap(s: Sys, op: Op, full: bool, limit: real)
    requires CapInv(s, limit) && AttemptOp(Now(s), op).Some?
    requires op.Create? ==> && op.request.limit == Some(limit)
                            && forall i :: 0 <= i < |Now(s).withdrawals| ==> Now(s).withdrawals[i].createdAt <= op.request.now
    requires NoReentry(Now(s).withdrawals, AttemptOp(Now(s), op).value.withdrawals)
    ensures CapInv(Commit(s, AttemptOp(Now(s), op).value, full), limit)
  {
    var ws, after := Now(s).withdrawals, AttemptOp(Now(s), op).value.withdrawals;
    assert Within(ws, limit);
    if op.Create? {
      CreateStaysWithin(Now(s), op.request, limit);
    } else {
      OpsKeepTerms(Now(s), op);
      assert RowsStay(ws, after);
      StayingRowsStayWithin(ws, after, limit);
    }
  }

  lemma StepKeepsCap(s: Sys, step: Step, limit: real)
    requires CapInv(s, limit) && Orderly(s, step, limit)
    ensures CapInv(Next(s, step), limit)
  {
    StepsWriteOnce(s, step);
    var r := Next(s, step);
    if r.log != s.log && !step.PowerFailure? {
      var op := OpOf(s, step).value;
      var full :| r.log == Commit(s, AttemptOp(Now(s), op).value, full).log
                  && r.synced == Commit(s, AttemptOp(Now(s), op).value, full).synced;
      assert Now(r) == AttemptOp(Now(s), op).value;
      WriteKeepsCap(s, op, full, limit);
    }
  }

  ghost predicate OrderlyRun(s: Sys, steps: seq<Step>, limit: real)
    requires s.log != []
  {
    forall i :: 0 <= i < |steps| ==> Orderly(Run(s, steps[..i]), steps[i], limit)
  }

  /** In every orderly run no UTC day's total exceeds the limit. */
  lemma {:induction false} DailyTotalsStayWithin(s: Sys, steps: seq<Step>, limit: real)
    requires CapInv(s, limit) && OrderlyRun(s, steps, limit)
    ensures CapInv(Run(s, steps), limit)
    ensures forall day :: DayTotal(Now(Run(s, steps)).withdrawals, day) <= limit
  {
    if steps != [] {
      var front := steps[..|steps| - 1];
      assert OrderlyRun(s, front, limit) by {
        forall i | 0 <= i < |front| ensures Orderly(Run(s, front[..i]), front[i], limit) {
          assert front[..i] == steps[..i];
        }
      }
      DailyTotalsStayWithin(s, front, limit);
      StepKeepsCap(Run(s, front), steps[|steps| - 1], limit);
    }
    assert Within(Now(Run(s, steps)).withdrawals, limit);
  }
}
