/**
 The notification outbox and its dispatcher. Events of one (sequence_key, consumer) form a queue; workers claim a
 head, POST it and record the outcome, and the process may crash or lose power at any point.
 */
module Outbox {
  import opened Prelude

  /** The source calls a claimed row 'failed'. */
  datatype RowStatus = Pending | InFlight | Delivered | Dead

  /** One ipn_outbox row; the row id that orders a queue is its index, because rows are never deleted. */
  datatype Row = Row(id: nat, sequence: string, consumer: string, createdAt: int, status: RowStatus, attempts: nat, nextAttemptAt: int)

  predicate SameQueue(p: Row, q: Row) {
    p.sequence == q.sequence && p.consumer == q.consumer
  }

  ghost predicate DistinctIds(rows: seq<Row>) {
    forall i, j :: 0 <= i < j < |rows| ==> rows[i].id != rows[j].id
  }

  // ----- Queries and updates -----

  /** The claim query's predecessor relation. */
  predicate Precedes(rows: seq<Row>, i: nat, j: nat)
    requires i < |rows| && j < |rows|
  {
    && SameQueue(rows[i], rows[j])
    && (rows[i].createdAt < rows[j].createdAt || (rows[i].createdAt == rows[j].createdAt && i < j))
  }

  predicate Eligible(rows: seq<Row>, i: nat, now: int, enabled: set<string>) {
    && i < |rows| && rows[i].status.Pending? && rows[i].nextAttemptAt <= now && rows[i].consumer in enabled
    && (forall k :: 0 <= k < |rows| && Precedes(rows, k, i) ==> rows[k].status.Delivered?)
  }

  /** Due earlier, or created earlier, or inserted earlier. */
  predicate NotLater(rows: seq<Row>, i: nat, j: nat)
    requires i < |rows| && j < |rows|
  {
    || rows[i].nextAttemptAt < rows[j].nextAttemptAt
    || (rows[i].nextAttemptAt == rows[j].nextAttemptAt && rows[i].createdAt < rows[j].createdAt)
    || (rows[i].nextAttemptAt == rows[j].nextAttemptAt && rows[i].createdAt == rows[j].createdAt && i <= j)
  }

  ghost predicate Chosen(rows: seq<Row>, i: nat, now: int, enabled: set<string>) {
    && Eligible(rows, i, now, enabled)
    && (forall j :: 0 <= j < |rows| && Eligible(rows, j, now, enabled) ==> NotLater(rows, i, j))
  }

  function ClaimRow(rows: seq<Row>, i: nat): seq<Row>
    requires i < |rows|
  {
    rows[i := rows[i].(status := InFlight, attempts := rows[i].attempts + 1)]
  }

  function RecoverRows(rows: seq<Row>): (r: seq<Row>)
    ensures |r| == |rows|
    ensures forall i :: 0 <= i < |r| ==> r[i] == if rows[i].status.InFlight? then rows[i].(status := Pending) else rows[i]
  {
    seq(|rows|, i requires 0 <= i < |rows| => if rows[i].status.InFlight? then rows[i].(status := Pending) else rows[i])
  }

  function Settled(row: Row, id: nat, status: RowStatus, nextAttemptAt: int): Row {
    if row.id == id && row.status.InFlight? then row.(status := status, nextAttemptAt := nextAttemptAt) else row
  }

  function DeliverRow(rows: seq<Row>, id: nat): (r: seq<Row>)
    ensures |r| == |rows|
    ensures forall i :: 0 <= i < |r| ==> r[i] == Settled(rows[i], id, Delivered, rows[i].nextAttemptAt)
  {
    seq(|rows|, i requires 0 <= i < |rows| => Settled(rows[i], id, Delivered, rows[i].nextAttemptAt))
  }

  function FailRow(rows: seq<Row>, id: nat, dead: bool, next: int): (r: seq<Row>)
    ensures |r| == |rows|
    ensures forall i :: 0 <= i < |r| ==> r[i] == Settled(rows[i], id, if dead then Dead else Pending, next)
  {
    seq(|rows|, i requires 0 <= i < |rows| => Settled(rows[i], id, if dead then Dead else Pending, next))
  }

  function Revived(row: Row, ids: set<nat>, now: int): Row {
    if row.id in ids && row.status.Dead? then row.(status := Pending, attempts := 0, nextAttemptAt := now) else row
  }

  function ReviveRows(rows: seq<Row>, ids: set<nat>, now: int): (r: seq<Row>)
    ensures |r| == |rows|
    ensures forall i :: 0 <= i < |r| ==> r[i] == Revived(rows[i], ids, now)
  {
    seq(|rows|, i requires 0 <= i < |rows| => Revived(rows[i], ids, now))
  }

  // ----- The order invariant -----

  predicate Reached(row: Row) {
    row.status.Delivered? || row.status.InFlight?
  }

  /** A row leaves its place only after every earlier row of its queue was delivered. */
  ghost predicate Ordered(rows: seq<Row>) {
    forall i, j :: 0 <= i < j < |rows| && SameQueue(rows[i], rows[j]) && Reached(rows[j]) ==> rows[i].status.Delivered?
  }

  /** Hypothesis on enqueuers: created_at never falls within a queue. */
  ghost predicate Monotone(rows: seq<Row>) {
    forall i, j :: 0 <= i < j < |rows| && SameQueue(rows[i], rows[j]) ==> rows[i].createdAt <= rows[j].createdAt
  }

  ghost predicate Good(rows: seq<Row>) {
    DistinctIds(rows) && Ordered(rows) && Monotone(rows)
  }

  /** Changing statuses without delivering or claiming anything keeps the order. */
  lemma SteppingBackKeepsGood(rows: seq<Row>, after: seq<Row>)
    requires Good(rows) && |after| == |rows|
    requires forall i :: 0 <= i < |rows| ==>
               && after[i].id == rows[i].id && SameQueue(after[i], rows[i]) && after[i].createdAt == rows[i].createdAt
               && (after[i].status == rows[i].status || (!rows[i].status.Delivered? && (after[i].status.Pending? || after[i].status.Dead?)))
    ensures Good(after)
  {
  }

  lemma ClaimKeepsGood(rows: seq<Row>, i: nat, now: int, enabled: set<string>)
    requires Good(rows) && Eligible(rows, i, now, enabled)
    ensures Good(ClaimRow(rows, i))
  {
    forall k | 0 <= k < i && SameQueue(rows[k], rows[i]) ensures rows[k].status.Delivered? {
      assert Precedes(rows, k, i);
    }
  }

  lemma DeliverKeepsGood(rows: seq<Row>, id: nat)
    requires Good(rows)
    ensures Good(DeliverRow(rows, id))
  {
  }

  // ----- Runs -----

  /** A worker between its claim and the recorded outcome; attempts is the claimed row's count. */
  datatype Job = Job(row: nat, id: nat, attempts: nat, posted: bool)

  /**
   rows is the committed table, log every state it went through, jobs what the workers hold in memory, and
   posts the ids POSTed so far.
   */
  datatype Sys = Sys(rows: seq<Row>, log: seq<seq<Row>>, jobs: map<nat, Job>, posts: seq<nat>)

  datatype Policy = Policy(maxAttempts: nat, backoff: seq<nat>)

  datatype Step =
    | Enqueue(row: Row)
    | Claim(worker: nat, row_: nat, now: int, enabled: set<string>)
    | Post(worker: nat)
    | Deliver(worker: nat)
    | Fail(worker: nat, now: int, policy: Policy)
    | Reject(worker: nat, now: int)
    | Abandon(worker: nat)
    | Revive(ids: set<nat>, now: int)
    | Restart(recovered: bool)
    | PowerLoss(kept: nat, recovered: bool)

  function Save(s: Sys, rows: seq<Row>): Sys {
    s.(rows := rows, log := s.log + [rows])
  }

  /** Dead at the last attempt, else retried after the attempt's backoff. */
  function FailedRows(rows: seq<Row>, id: nat, attempts: nat, now: int, policy: Policy): seq<Row> {
    var dead := attempts >= policy.maxAttempts;
    FailRow(rows, id, dead, if !dead && 1 <= attempts <= |policy.backoff| then now + policy.backoff[attempts - 1] else now)
  }

  function FailOutcome(rows: seq<Row>, job: Job, now: int, policy: Policy): seq<Row> {
    FailedRows(rows, job.id, job.attempts, now, policy)
  }

  predicate NewRow(rows: seq<Row>, row: Row) {
    && (row.status.Pending? || row.status.Dead?) && row.attempts == 0
    && (forall i :: 0 <= i < |rows| ==> rows[i].id != row.id)
    && (forall i :: 0 <= i < |rows| && SameQueue(rows[i], row) ==> rows[i].createdAt <= row.createdAt)
  }

  /** One step; a step whose guard fails changes nothing. */
  ghost function Next(s: Sys, step: Step): Sys {
    match step
    case Enqueue(row) => if NewRow(s.rows, row) then Save(s, s.rows + [row]) else s
    case Claim(w, i, now, enabled) =>
      if w in s.jobs || !Chosen(s.rows, i, now, enabled) then s
      else Save(s, ClaimRow(s.rows, i)).(jobs := s.jobs[w := Job(i, s.rows[i].id, s.rows[i].attempts + 1, false)])
    case Post(w) =>
      if w !in s.jobs || s.jobs[w].posted then s
      else s.(jobs := s.jobs[w := s.jobs[w].(posted := true)], posts := s.posts + [s.jobs[w].id])
    case Deliver(w) =>
      if w !in s.jobs || !s.jobs[w].posted then s else Save(s, DeliverRow(s.rows, s.jobs[w].id)).(jobs := s.jobs - {w})
    case Fail(w, now, policy) =>
      if w !in s.jobs then s else Save(s, FailOutcome(s.rows, s.jobs[w], now, policy)).(jobs := s.jobs - {w})
    case Reject(w, now) =>
      if w !in s.jobs || s.jobs[w].posted then s else Save(s, FailRow(s.rows, s.jobs[w].id, true, now)).(jobs := s.jobs - {w})
    case Abandon(w) => s.(jobs := s.jobs - {w})
    case Revive(ids, now) => Save(s, ReviveRows(s.rows, ids, now))
    case Restart(recovered) => if recovered then Save(s, RecoverRows(s.rows)).(jobs := map[]) else s.(jobs := map[])
    case PowerLoss(kept, recovered) =>
      if kept >= |s.log| then s
      else
        var back := s.(rows := s.log[kept], log := s.log[..kept + 1], jobs := map[]);
        if recovered then Save(back, RecoverRows(back.rows)) else back
  }

  ghost function Run(s: Sys, steps: seq<Step>): Sys {
    if steps == [] then s else Next(Run(s, steps[..|steps| - 1]), steps[|steps| - 1])
  }

  // ----- The invariant of runs -----

  ghost predicate JobsHold(s: Sys) {
    && (forall w :: w in s.jobs ==>
          && s.jobs[w].row < |s.rows| && s.rows[s.jobs[w].row].status.InFlight?
          && s.rows[s.jobs[w].row].id == s.jobs[w].id && s.rows[s.jobs[w].row].attempts == s.jobs[w].attempts
          && (s.jobs[w].posted ==> s.jobs[w].id in s.posts))
    && (forall v, w :: v in s.jobs && w in s.jobs && v != w ==> s.jobs[v].row != s.jobs[w].row)
  }

  /** Nothing is delivered that was not POSTed. */
  ghost predicate DeliveredWerePosted(rows: seq<Row>, posts: seq<nat>) {
    forall i :: 0 <= i < |rows| && rows[i].status.Delivered? ==> rows[i].id in posts
  }

  ghost predicate GoodLog(s: Sys) {
    && s.log != [] && s.log[|s.log| - 1] == s.rows
    && (forall k :: 0 <= k < |s.log| ==> Good(s.log[k]) && DeliveredWerePosted(s.log[k], s.posts))
  }

  ghost predicate Inv(s: Sys) {
    GoodLog(s) && JobsHold(s)
  }

  lemma SaveKeepsLog(s: Sys, rows: seq<Row>)
    requires GoodLog(s) && Good(rows) && DeliveredWerePosted(rows, s.posts)
    ensures GoodLog(Save(s, rows))
  {
  }

  lemma OutcomeKeepsInv(s: Sys, w: nat, rows: seq<Row>, status: RowStatus, next: int)
    requires Inv(s) && w in s.jobs && |rows| == |s.rows|
    requires forall i :: 0 <= i < |rows| ==> rows[i] == Settled(s.rows[i], s.jobs[w].id, status, if status.Delivered? then s.rows[i].nextAttemptAt else next)
    requires !status.InFlight? && (status.Delivered? ==> s.jobs[w].posted)
    ensures Inv(Save(s, rows).(jobs := s.jobs - {w}))
  {
    assert Good(s.rows);
    if status.Delivered? {
      DeliverKeepsGood(s.rows, s.jobs[w].id);
      assert rows == DeliverRow(s.rows, s.jobs[w].id);
    } else {
      SteppingBackKeepsGood(s.rows, rows);
    }
    SaveKeepsLog(s, rows);
  }

  lemma ClaimKeepsInv(s: Sys, w: nat, i: nat, now: int, enabled: set<string>)
    requires Inv(s)
    ensures Inv(Next(s, Claim(w, i, now, enabled)))
  {
    if w !in s.jobs && Chosen(s.rows, i, now, enabled) {
      assert Good(s.rows);
      ClaimKeepsGood(s.rows, i, now, enabled);
      SaveKeepsLog(s, ClaimRow(s.rows, i));
    }
  }

  lemma EnqueueKeepsInv(s: Sys, row: Row)
    requires Inv(s)
    ensures Inv(Next(s, Enqueue(row)))
  {
    if NewRow(s.rows, row) {
      assert Good(s.rows);
      assert Good(s.rows + [row]);
      SaveKeepsLog(s, s.rows + [row]);
    }
  }

  lemma ReviveKeepsInv(s: Sys, ids: set<nat>, now: int)
    requires Inv(s)
    ensures Inv(Next(s, Revive(ids, now)))
  {
    assert Good(s.rows);
    SteppingBackKeepsGood(s.rows, ReviveRows(s.rows, ids, now));
    SaveKeepsLog(s, ReviveRows(s.rows, ids, now));
  }

  lemma RecoverKeepsInv(s: Sys)
    requires GoodLog(s)
    ensures Inv(Save(s, RecoverRows(s.rows)).(jobs := map[]))
  {
    assert Good(s.rows);
    SteppingBackKeepsGood(s.rows, RecoverRows(s.rows));
    SaveKeepsLog(s, RecoverRows(s.rows));
  }

  lemma CrashKeepsInv(s: Sys, step: Step)
    requires Inv(s) && (step.Restart? || step.PowerLoss?)
    ensures Inv(Next(s, step))
  {
    match step
    case Restart(recovered) => if recovered { RecoverKeepsInv(s); }
    case PowerLoss(kept, recovered) =>
      if kept < |s.log| {
        var back := s.(rows := s.log[kept], log := s.log[..kept + 1], jobs := map[]);
        assert GoodLog(back);
        if recovered { RecoverKeepsInv(back); }
      }
  }

  lemma PostKeepsInv(s: Sys, w: nat)
    requires Inv(s)
    ensures Inv(Next(s, Post(w)))
  {
  }

  lemma StepKeepsInv(s: Sys, step: Step)
    requires Inv(s)
    ensures Inv(Next(s, step))
  {
    match step
    case Enqueue(row) => EnqueueKeepsInv(s, row);
    case Claim(w, i, now, enabled) => ClaimKeepsInv(s, w, i, now, enabled);
    case Post(w) => PostKeepsInv(s, w);
    case Deliver(w) =>
      if w in s.jobs && s.jobs[w].posted { OutcomeKeepsInv(s, w, DeliverRow(s.rows, s.jobs[w].id), Delivered, 0); }
    case Fail(w, now, policy) =>
      if w in s.jobs {
        var dead := s.jobs[w].attempts >= policy.maxAttempts;
        var next := if !dead && 1 <= s.jobs[w].attempts <= |policy.backoff| then now + policy.backoff[s.jobs[w].attempts - 1] else now;
        OutcomeKeepsInv(s, w, FailOutcome(s.rows, s.jobs[w], now, policy), if dead then Dead else Pending, next);
      }
    case Reject(w, now) =>
      if w in s.jobs && !s.jobs[w].posted { OutcomeKeepsInv(s, w, FailRow(s.rows, s.jobs[w].id, true, now), Dead, now); }
    case Abandon(w) =>
    case Revive(ids, now) => ReviveKeepsInv(s, ids, now);
    case Restart(_) => CrashKeepsInv(s, step);
    case PowerLoss(_, _) => CrashKeepsInv(s, step);
  }

  lemma {:induction false} RunKeepsInv(s: Sys, steps: seq<Step>)
    requires Inv(s)
    ensures Inv(Run(s, steps))
  {
    if steps != [] {
      RunKeepsInv(s, steps[..|steps| - 1]);
      StepKeepsInv(Run(s, steps[..|steps| - 1]), steps[|steps| - 1]);
    }
  }

  // ----- What it means -----

  predicate InQueue(rows: seq<Row>, i: nat, sequence: string, consumer: string, status: RowStatus) {
    i < |rows| && rows[i].sequence == sequence && rows[i].consumer == consumer && rows[i].status == status
  }

  /** The delivered rows of a queue are a prefix of it. */
  ghost predicate DeliveredPrefix(rows: seq<Row>, sequence: string, consumer: string) {
    forall i: nat, j: nat, status :: i < j && InQueue(rows, i, sequence, consumer, status) && InQueue(rows, j, sequence, consumer, Delivered)
                                     ==> status.Delivered?
  }

  /** At most one row of a queue is claimed. */
  ghost predicate SingleFlight(rows: seq<Row>, sequence: string, consumer: string) {
    forall i: nat, j: nat :: InQueue(rows, i, sequence, consumer, InFlight) && InQueue(rows, j, sequence, consumer, InFlight) ==> i == j
  }

  /**
   In every reachable state, for every queue: the delivered rows are a prefix, at most one row is in flight,
   and nothing was delivered without a POST.
   */
  lemma DeliveredIsAPrefix(steps: seq<Step>, sequence: string, consumer: string)
    ensures var s := Run(Sys([], [[]], map[], []), steps);
            && DeliveredPrefix(s.rows, sequence, consumer)
            && SingleFlight(s.rows, sequence, consumer)
            && DeliveredWerePosted(s.rows, s.posts)
  {
    var start := Sys([], [[]], map[], []);
    RunKeepsInv(start, steps);
    assert Good(Run(start, steps).rows);
  }

  /** Whether a step POSTs a row, and which. */
  predicate Posts(s: Sys, step: Step, row: nat) {
    step.Post? && step.worker in s.jobs && !s.jobs[step.worker].posted && s.jobs[step.worker].row == row
  }

  /** A row is POSTed only when it is in flight and every earlier row of its queue is recorded delivered. */
  lemma PostsFollowDeliveries(s: Sys, steps: seq<Step>, step: Step, row: nat, earlier: nat)
    requires Inv(s) && Posts(Run(s, steps), step, row)
    ensures row < |Run(s, steps).rows| && Run(s, steps).rows[row].status.InFlight?
    ensures earlier < row && SameQueue(Run(s, steps).rows[earlier], Run(s, steps).rows[row])
            ==> Run(s, steps).rows[earlier].status.Delivered?
  {
    RunKeepsInv(s, steps);
    assert Good(Run(s, steps).rows);
  }

  /** Without a power loss a delivered row stays delivered, and rows keep their place. */
  lemma DeliveredStays(s: Sys, step: Step, i: nat)
    requires Inv(s) && !step.PowerLoss?
    requires i < |s.rows|
    ensures i < |Next(s, step).rows| && Next(s, step).rows[i].id == s.rows[i].id && SameQueue(Next(s, step).rows[i], s.rows[i])
    ensures s.rows[i].status.Delivered? ==> Next(s, step).rows[i].status.Delivered?
  {
  }

  lemma {:induction false} DeliveredStaysOverRuns(s: Sys, steps: seq<Step>, i: nat)
    requires Inv(s) && forall k :: 0 <= k < |steps| ==> !steps[k].PowerLoss?
    requires i < |s.rows|
    ensures var after := Run(s, steps);
            && i < |after.rows| && after.rows[i].id == s.rows[i].id && SameQueue(after.rows[i], s.rows[i])
            && (s.rows[i].status.Delivered? ==> after.rows[i].status.Delivered?)
  {
    if steps != [] {
      var front := steps[..|steps| - 1];
      DeliveredStaysOverRuns(s, front, i);
      RunKeepsInv(s, front);
      DeliveredStays(Run(s, front), steps[|steps| - 1], i);
    }
  }

  /** Between power losses the POSTs of a queue never go back to an earlier event. */
  lemma PostsNeverGoBack(s: Sys, first: Step, row: nat, between: seq<Step>, second: Step, later: nat)
    requires Inv(s) && Posts(s, first, row)
    requires forall k :: 0 <= k < |between| ==> !between[k].PowerLoss?
    requires Posts(Run(Next(s, first), between), second, later)
    ensures row < |s.rows|
    ensures later < |s.rows| && SameQueue(s.rows[later], s.rows[row]) ==> row <= later
  {
    StepKeepsInv(s, first);
    var posted := Next(s, first);
    PostsFollowDeliveries(posted, between, second, later, later);
    if later < row && SameQueue(s.rows[later], s.rows[row]) {
      assert Good(s.rows);
      DeliveredStaysOverRuns(posted, between, later);
      assert false;
    }
  }
}
