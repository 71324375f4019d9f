/**
 The outbox table as the store keeps it, and the dispatcher that claims before the POST and records the outcome
 after it.
 */
module Dispatching {
  import opened Prelude
  import opened Outbox

  predicate Matches(row: Row, consumer: string, from: Option<int>, to: Option<int>) {
    && row.status.Dead?
    && (consumer != "" ==> row.consumer == consumer)
    && (from.Some? ==> row.createdAt >= from.value)
    && (to.Some? ==> row.createdAt <= to.value)
  }

  function IdSet(ids: seq<nat>): set<nat> {
    set id | id in ids
  }

  /** The ids of the dead rows a replay asks for. */
  function DeadIds(rows: seq<Row>, consumer: string, from: Option<int>, to: Option<int>): set<nat> {
    set i | 0 <= i < |rows| && Matches(rows[i], consumer, from, to) :: rows[i].id
  }

  predicate Ascending(ids: seq<nat>) {
    forall i, j :: 0 <= i < j < |ids| ==> ids[i] < ids[j]
  }

  /** The smallest ids of a set in order: all of them, or as many as the limit. */
  ghost predicate IsPage(ids: seq<nat>, all: set<nat>, limit: int) {
    && Ascending(ids)
    && (forall i :: 0 <= i < |ids| ==> ids[i] in all)
    && (forall id :: id in all && id !in ids ==> |ids| == limit && forall i :: 0 <= i < |ids| ==> ids[i] < id)
    && (limit >= 0 ==> |ids| <= limit)
  }

  predicate Least(ids: set<nat>, id: nat) {
    id in ids && forall other :: other in ids ==> id <= other
  }

  lemma {:induction false} LeastExists(ids: set<nat>)
    requires ids != {}
    ensures exists id :: Least(ids, id)
    decreases |ids|
  {
    var id :| id in ids;
    var rest := ids - {id};
    assert forall other :: other in ids ==> other == id || other in rest;
    if rest == {} {
      assert Least(ids, id);
    } else {
      LeastExists(rest);
      var least :| Least(rest, least);
      assert Least(ids, if id <= least then id else least);
    }
  }

  /** The claim's choice among the first n rows. */
  predicate FirstOf(rows: seq<Row>, n: nat, i: nat, now: int, enabled: set<string>)
    requires n <= |rows|
  {
    i < n && Eligible(rows, i, now, enabled) && forall j: nat :: j < n && Eligible(rows, j, now, enabled) ==> NotLater(rows, i, j)
  }

  predicate NothingDue(rows: seq<Row>, n: nat, now: int, enabled: set<string>)
    requires n <= |rows|
  {
    forall i: nat :: i < n ==> !Eligible(rows, i, now, enabled)
  }

  lemma {:induction false} FirstExists(rows: seq<Row>, n: nat, now: int, enabled: set<string>)
    requires n <= |rows| && !NothingDue(rows, n, now, enabled)
    ensures exists i: nat :: FirstOf(rows, n, i, now, enabled)
  {
    var last := n - 1;
    if NothingDue(rows, last, now, enabled) {
      assert FirstOf(rows, n, last, now, enabled);
    } else {
      FirstExists(rows, last, now, enabled);
      var best: nat :| FirstOf(rows, last, best, now, enabled);
      FirstOfMore(rows, n, last, best, now, enabled);
    }
  }

  lemma FirstOfMore(rows: seq<Row>, n: nat, last: nat, best: nat, now: int, enabled: set<string>)
    requires n == last + 1 && last < |rows| && FirstOf(rows, last, best, now, enabled)
    ensures exists i: nat :: FirstOf(rows, n, i, now, enabled)
  {
    if Eligible(rows, last, now, enabled) && !NotLater(rows, best, last) {
      assert FirstOf(rows, n, last, now, enabled);
    } else {
      assert FirstOf(rows, n, best, now, enabled);
    }
  }

  class Queue {
    var rows: seq<Row>

    /** Ids are unique; that queues are in order is kept as long as nothing is enqueued out of order. */
    ghost predicate Valid()
      reads this
    {
      DistinctIds(rows)
    }

    constructor ()
      ensures Valid() && Good(rows) && rows == []
    {
      rows := [];
    }

    /**
     An event of an order goes to the order's consumer, dead at once when that consumer is gone or disabled. An
     event no older than its queue keeps the queues in order.
     */
    method EnqueueOrderEvent(id: nat, sequence: string, chosen: string, fallback: string, enabled: set<string>, now: int) returns (ok: bool)
      requires Valid()
      modifies this
      ensures Valid() && (ok <==> sequence != "" && forall i :: 0 <= i < |old(rows)| ==> old(rows)[i].id != id)
      ensures var consumer := if chosen == "" then fallback else chosen;
              var row := Row(id, sequence, consumer, now, if consumer in enabled then Pending else Dead, 0, now);
              && rows == (if ok then old(rows) + [row] else old(rows))
              && (Good(old(rows)) && NewRow(old(rows), row) ==> Good(rows))
    {
      var consumer := if chosen == "" then fallback else chosen;
      if sequence == "" || exists i :: 0 <= i < |rows| && rows[i].id == id {
        return false;
      }
      rows := rows + [Row(id, sequence, consumer, now, if consumer in enabled then Pending else Dead, 0, now)];
      return true;
    }

    /** Claims nothing exactly when no queue has a due head for an enabled consumer. */
    method ClaimIPN(now: int, enabled: set<string>) returns (claimed: Option<nat>)
      requires Valid()
      modifies this
      ensures Valid() && (Good(old(rows)) ==> Good(rows))
      ensures claimed.None? <==> NothingDue(old(rows), |old(rows)|, now, enabled)
      ensures claimed.None? ==> rows == old(rows)
      ensures claimed.Some? ==> Chosen(old(rows), claimed.value, now, enabled) && rows == ClaimRow(old(rows), claimed.value)
    {
      if NothingDue(rows, |rows|, now, enabled) {
        return None;
      }
      FirstExists(rows, |rows|, now, enabled);
      var first: nat :| FirstOf(rows, |rows|, first, now, enabled);
      if Good(rows) {
        ClaimKeepsGood(rows, first, now, enabled);
      }
      rows := ClaimRow(rows, first);
      return Some(first);
    }

    method RecoverIPNClaims()
      requires Valid()
      modifies this
      ensures Valid() && (Good(old(rows)) ==> Good(rows)) && rows == RecoverRows(old(rows))
      ensures forall i :: 0 <= i < |rows| ==> !rows[i].status.InFlight?
    {
      if Good(rows) {
        SteppingBackKeepsGood(rows, RecoverRows(rows));
      }
      rows := RecoverRows(rows);
    }

    method DeliverIPN(id: nat)
      requires Valid()
      modifies this
      ensures Valid() && (Good(old(rows)) ==> Good(rows)) && rows == DeliverRow(old(rows), id)
      ensures OnlyInFlight(old(rows), rows, id) && forall i :: 0 <= i < |rows| && rows[i] != old(rows)[i] ==> rows[i].status.Delivered?
    {
      if Good(rows) {
        DeliverKeepsGood(rows, id);
      }
      rows := DeliverRow(rows, id);
    }

    method FailIPN(id: nat, dead: bool, nextAttempt: int)
      requires Valid()
      modifies this
      ensures Valid() && (Good(old(rows)) ==> Good(rows)) && rows == FailRow(old(rows), id, dead, nextAttempt)
      ensures OnlyInFlight(old(rows), rows, id)
      ensures forall i :: 0 <= i < |rows| && rows[i] != old(rows)[i] ==> rows[i].status == if dead then Dead else Pending
    {
      if Good(rows) {
        SteppingBackKeepsGood(rows, FailRow(rows, id, dead, nextAttempt));
      }
      rows := FailRow(rows, id, dead, nextAttempt);
    }

    method RetryIPN(id: nat, now: int) returns (changed: bool)
      requires Valid()
      modifies this
      ensures Valid() && (Good(old(rows)) ==> Good(rows)) && rows == ReviveRows(old(rows), {id}, now)
      ensures forall i :: 0 <= i < |rows| && rows[i] != old(rows)[i] ==>
                            old(rows)[i].id == id && old(rows)[i].status.Dead? && rows[i].status.Pending? && rows[i].attempts == 0
      ensures changed <==> exists i :: 0 <= i < |rows| && old(rows)[i].id == id && old(rows)[i].status.Dead?
    {
      changed := exists i :: 0 <= i < |rows| && rows[i].id == id && rows[i].status.Dead?;
      if Good(rows) {
        SteppingBackKeepsGood(rows, ReviveRows(rows, {id}, now));
      }
      rows := ReviveRows(rows, {id}, now);
    }

    /** The first page of matching ids in ascending order; a negative limit is no limit. */
    method DeadPage(consumer: string, from: Option<int>, to: Option<int>, limit: int) returns (ids: seq<nat>)
      ensures IsPage(ids, DeadIds(rows, consumer, from, to), limit)
    {
      var all := DeadIds(rows, consumer, from, to);
      var todo := all;
      ids := [];
      while todo != {} && |ids| != limit
        invariant todo <= all && forall id :: id in all ==> id in todo || id in ids
        invariant Ascending(ids) && forall i :: 0 <= i < |ids| ==> ids[i] in all
        invariant forall i, id :: 0 <= i < |ids| && id in todo ==> ids[i] < id
        invariant limit >= 0 ==> |ids| <= limit
        decreases |todo|
      {
        LeastExists(todo);
        var id :| Least(todo, id);
        LeastNext(all, todo, ids, id);
        todo := todo - {id};
        ids := ids + [id];
      }
    }

    /** A dry run counts the page and changes nothing; otherwise exactly the page's rows become pending again. */
    method ReplayDeadIPN(consumer: string, from: Option<int>, to: Option<int>, limit: int, dryRun: bool, now: int)
      returns (ids: seq<nat>, changed: nat)
      requires Valid()
      modifies this
      ensures Valid() && (Good(old(rows)) ==> Good(rows)) && changed == |ids|
      ensures IsPage(ids, DeadIds(old(rows), consumer, from, to), limit)
      ensures rows == if dryRun then old(rows) else ReviveRows(old(rows), IdSet(ids), now)
    {
      ids := DeadPage(consumer, from, to, limit);
      if dryRun {
        return ids, |ids|;
      }
      changed := 0;
      assert rows == ReviveRows(rows, {}, now);
      for i := 0 to |ids|
        invariant Valid() && (Good(old(rows)) ==> Good(rows)) && changed == i
        invariant rows == ReviveRows(old(rows), IdSet(ids[..i]), now)
      {
        assert ids[..i + 1] == ids[..i] + [ids[i]];
        OneMoreRevival(old(rows), IdSet(ids[..i]), ids[i], now);
        assert IdSet(ids[..i + 1]) == IdSet(ids[..i]) + {ids[i]};
        ghost var k :| 0 <= k < |old(rows)| && Matches(old(rows)[k], consumer, from, to) && old(rows)[k].id == ids[i];
        assert rows[k].id == ids[i] && rows[k].status.Dead?;
        var revived := RetryIPN(ids[i], now);
        if revived {
          changed := changed + 1;
        }
      }
      assert ids[..|ids|] == ids;
    }
  }

  /** The least id not yet listed extends the listing. */
  lemma LeastNext(all: set<nat>, todo: set<nat>, ids: seq<nat>, id: nat)
    requires todo <= all && Least(todo, id) && Ascending(ids)
    requires forall other :: other in all ==> other in todo || other in ids
    requires forall i :: 0 <= i < |ids| ==> ids[i] in all
    requires forall i, other :: 0 <= i < |ids| && other in todo ==> ids[i] < other
    ensures Ascending(ids + [id]) && forall other :: other in all ==> other in todo - {id} || other in ids + [id]
    ensures forall i :: 0 <= i < |ids| + 1 ==> (ids + [id])[i] in all
    ensures forall i, other :: 0 <= i < |ids| + 1 && other in todo - {id} ==> (ids + [id])[i] < other
  {
    forall other | other in all ensures other in todo - {id} || other in ids + [id] {
      if other in ids {
        var i :| 0 <= i < |ids| && ids[i] == other;
        assert (ids + [id])[i] == other;
      } else if other == id {
        assert (ids + [id])[|ids|] == other;
      }
    }
  }

  /** Nothing changes but the claimed row of an id; every other row of every queue is the same. */
  ghost predicate OnlyInFlight(rows: seq<Row>, after: seq<Row>, id: nat) {
    && |after| == |rows|
    && forall i :: 0 <= i < |rows| && after[i] != rows[i] ==> rows[i].id == id && rows[i].status.InFlight?
  }

  // ----- Which row is claimed -----

  /** A pending row that is due, for an enabled consumer, with everything enqueued before it in its queue delivered. */
  predicate DueHead(rows: seq<Row>, i: nat, now: int, enabled: set<string>) {
    && i < |rows| && rows[i].status == Pending && rows[i].nextAttemptAt <= now && rows[i].consumer in enabled
    && forall k :: 0 <= k < i && rows[k].sequence == rows[i].sequence && rows[k].consumer == rows[i].consumer ==> rows[k].status == Delivered
  }

  /** In queues that are in order, the claim takes the due head that fell due first; age and then insertion break ties. */
  lemma ClaimTakesTheEarliestHead(rows: seq<Row>, i: nat, now: int, enabled: set<string>)
    requires Good(rows)
    ensures Chosen(rows, i, now, enabled) <==>
              && DueHead(rows, i, now, enabled)
              && forall j: nat :: DueHead(rows, j, now, enabled) ==>
                   && rows[i].nextAttemptAt <= rows[j].nextAttemptAt
                   && (rows[i].nextAttemptAt == rows[j].nextAttemptAt ==>
                         rows[i].createdAt <= rows[j].createdAt && (rows[i].createdAt == rows[j].createdAt ==> i <= j))
  {
    forall j: nat ensures DueHead(rows, j, now, enabled) <==> Eligible(rows, j, now, enabled) {
      EligibleIsDueHead(rows, j, now, enabled);
    }
    if DueHead(rows, i, now, enabled) {
      forall j: nat | DueHead(rows, j, now, enabled)
        ensures NotLater(rows, i, j) <==>
                  && rows[i].nextAttemptAt <= rows[j].nextAttemptAt
                  && (rows[i].nextAttemptAt == rows[j].nextAttemptAt ==>
                        rows[i].createdAt <= rows[j].createdAt && (rows[i].createdAt == rows[j].createdAt ==> i <= j)) {
      }
    }
  }

  lemma EligibleIsDueHead(rows: seq<Row>, i: nat, now: int, enabled: set<string>)
    requires Good(rows)
    ensures DueHead(rows, i, now, enabled) <==> Eligible(rows, i, now, enabled)
  {
    if i < |rows| {
      forall k | 0 <= k < |rows| ensures Precedes(rows, k, i) <==> k < i && SameQueue(rows[k], rows[i]) {
      }
    }
  }

  /** An event that is no older than its queue is enqueued, waiting for its consumer, or dead without one. */
  lemma OrderlyEventIsEnqueued(s: Sys, id: nat, sequence: string, consumer: string, live: bool, now: int)
    requires forall i :: 0 <= i < |s.rows| ==>
               && s.rows[i].id != id
               && (s.rows[i].sequence == sequence && s.rows[i].consumer == consumer ==> s.rows[i].createdAt <= now)
    ensures var rows := s.rows + [Row(id, sequence, consumer, now, if live then Pending else Dead, 0, now)];
            Next(s, Step.Enqueue(rows[|s.rows|])) == s.(rows := rows, log := s.log + [rows])
  {
  }

  // ----- What an outcome means for the queue -----

  /** Once a row is delivered, the next row of its queue can be claimed when it is due. */
  lemma DeliveryUnblocks(rows: seq<Row>, i: nat, j: nat, now: int, enabled: set<string>)
    requires Good(rows) && i < j < |rows| && SameQueue(rows[i], rows[j])
    requires forall k :: i < k < j ==> !SameQueue(rows[k], rows[j])
    requires rows[i].status.InFlight? && rows[j].status.Pending?
    ensures !Eligible(rows, j, now, enabled)
    ensures Eligible(DeliverRow(rows, rows[i].id), j, now, enabled)
            <==> rows[j].nextAttemptAt <= now && rows[j].consumer in enabled
  {
    assert Precedes(rows, i, j);
    var after := DeliverRow(rows, rows[i].id);
    forall k | 0 <= k < |after| && Precedes(after, k, j) ensures after[k].status.Delivered? {
      assert Precedes(rows, k, j);
      assert k < j;
    }
  }

  /** A row that is given up blocks the rest of its queue until an operator revives it. */
  lemma DeadRowBlocks(rows: seq<Row>, i: nat, j: nat, now: int, enabled: set<string>)
    requires Good(rows) && i < j < |rows| && SameQueue(rows[i], rows[j]) && rows[i].status.Dead?
    ensures !Eligible(rows, j, now, enabled)
  {
    assert Precedes(rows, i, j);
  }

  /** A revived row at the head of its queue can be claimed at once. */
  lemma RevivedHeadIsDue(rows: seq<Row>, i: nat, now: int, enabled: set<string>)
    requires Good(rows) && i < |rows| && rows[i].status.Dead? && rows[i].consumer in enabled
    requires forall k :: 0 <= k < i && SameQueue(rows[k], rows[i]) ==> rows[k].status.Delivered?
    ensures Eligible(ReviveRows(rows, {rows[i].id}, now), i, now, enabled)
  {
    var after := ReviveRows(rows, {rows[i].id}, now);
    forall k | 0 <= k < |after| && Precedes(after, k, i) ensures after[k].status.Delivered? {
      assert Precedes(rows, k, i);
    }
  }

  /** A failed attempt below the last one waits out its backoff; the last one ends the row. */
  lemma FailedRowWaits(rows: seq<Row>, job: Job, now: int, policy: Policy, later: int, enabled: set<string>)
    requires DistinctIds(rows) && job.row < |rows| && rows[job.row].id == job.id && rows[job.row].status.InFlight?
    requires |policy.backoff| == policy.maxAttempts && job.attempts >= 1
    ensures var after := FailOutcome(rows, job, now, policy);
            if job.attempts >= policy.maxAttempts then after[job.row].status.Dead?
            else && after[job.row].status.Pending?
                 && (Eligible(after, job.row, later, enabled) <==>
                       && now + policy.backoff[job.attempts - 1] <= later && rows[job.row].consumer in enabled
                       && forall k :: 0 <= k < |rows| && Precedes(rows, k, job.row) ==> rows[k].status.Delivered?)
  {
    var after := FailOutcome(rows, job, now, policy);
    forall k | 0 <= k < |rows| ensures Precedes(after, k, job.row) <==> Precedes(rows, k, job.row) {
    }
    assert !Precedes(rows, job.row, job.row);
  }

  lemma OneMoreRevival(rows: seq<Row>, ids: set<nat>, id: nat, now: int)
    ensures ReviveRows(ReviveRows(rows, ids, now), {id}, now) == ReviveRows(rows, ids + {id}, now)
  {
  }

  // ----- The dispatcher -----

  /** What the outside answers to one delivery: no request could be made, a failure, or a 2xx status. */
  datatype Reply = Unsent | Refused | Accepted

  datatype Config = Config(consumers: set<string>, enabled: set<string>, policy: Policy)

  predicate ConfigValid(cfg: Config) {
    cfg.policy.maxAttempts > 0 && |cfg.policy.backoff| == cfg.policy.maxAttempts
  }

  /** The steps one call of DispatchOne takes for a claimed row. */
  function DispatchSteps(rows: seq<Row>, row: nat, now: int, cfg: Config, reply: Reply): seq<Step>
    requires row < |rows|
  {
    var claim := Claim(0, row, now, cfg.enabled);
    if rows[row].consumer !in cfg.consumers then [claim, Reject(0, now)]
    else match reply
      case Unsent => [claim, Step.Fail(0, now, cfg.policy)]
      case Refused => [claim, Post(0), Step.Fail(0, now, cfg.policy)]
      case Accepted => [claim, Post(0), Deliver(0)]
  }

  /** One more attempt under a consumer and outcome. */
  function CountedOnce(attempts: map<(string, bool), nat>, key: (string, bool)): map<(string, bool), nat> {
    attempts[key := 1 + if key in attempts then attempts[key] else 0]
  }

  class Dispatcher {
    const queue: Queue
    const replies: nat -> Reply
    var config: Config
    var attempts: map<(string, bool), nat>
    /** The ids POSTed so far, and the number of requests tried. */
    var posts: seq<nat>
    var tries: nat

    constructor (queue: Queue, config: Config, replies: nat -> Reply)
      ensures this.queue == queue && this.config == config && this.replies == replies
      ensures attempts == map[] && posts == [] && tries == 0
    {
      this.queue, this.config, this.replies, attempts, posts, tries := queue, config, replies, map[], [], 0;
    }

    /** Builds and sends one request; what cannot be built is not sent. */
    method Post(id: nat) returns (reply: Reply)
      modifies this`posts, this`tries
      ensures reply == replies(old(tries)) && tries == old(tries) + 1
      ensures posts == if reply.Unsent? then old(posts) else old(posts) + [id]
    {
      reply := replies(tries);
      tries := tries + 1;
      if !reply.Unsent? {
        posts := posts + [id];
      }
    }

    method RecordAttempt(consumer: string, success: bool)
      modifies this`attempts
      ensures attempts == CountedOnce(old(attempts), (consumer, success))
    {
      var count: nat := if (consumer, success) in attempts then attempts[(consumer, success)] else 0;
      attempts := attempts[(consumer, success) := count + 1];
    }

    method Fail(id: nat, attempt: nat, now: int)
      requires queue.Valid() && ConfigValid(config) && attempt >= 1
      modifies queue
      ensures queue.Valid() && (Good(old(queue.rows)) ==> Good(queue.rows))
      ensures queue.rows == FailedRows(old(queue.rows), id, attempt, now, config.policy)
    {
      var dead := attempt >= config.policy.maxAttempts;
      var next := now;
      if !dead {
        next := now + config.policy.backoff[attempt - 1];
      }
      queue.FailIPN(id, dead, next);
    }

    /**
     One call is one claim with at most one POST, of the claimed event and after the claim, and exactly the run of
     steps that the reply calls for.
     */
    method DispatchOne(now: int) returns (claimed: Option<nat>)
      requires queue.Valid() && ConfigValid(config)
      modifies this`attempts, this`posts, this`tries, queue
      ensures queue.Valid() && (Good(old(queue.rows)) ==> Good(queue.rows))
      ensures claimed.None? <==> NothingDue(old(queue.rows), |old(queue.rows)|, now, config.enabled)
      ensures claimed.None? ==> queue.rows == old(queue.rows) && attempts == old(attempts) && posts == old(posts)
      ensures claimed.Some? ==>
                && Chosen(old(queue.rows), claimed.value, now, config.enabled)
                && var row, reply := old(queue.rows)[claimed.value], replies(old(tries));
                   && queue.rows == Dispatched(old(queue.rows), claimed.value, now, config, reply)
                   && posts == (if row.consumer in config.consumers && !reply.Unsent? then old(posts) + [row.id] else old(posts))
                   && attempts == CountedOnce(old(attempts), (row.consumer, row.consumer in config.consumers && reply.Accepted?))
    {
      claimed := queue.ClaimIPN(now, config.enabled);
      if claimed.None? {
        return;
      }
      Serve(queue.rows[claimed.value], now);
    }

    /** Delivers a claimed event once, and records the outcome. */
    method Serve(event: Row, now: int)
      requires queue.Valid() && ConfigValid(config) && event.attempts >= 1
      modifies this`attempts, this`posts, this`tries, queue
      ensures queue.Valid() && (Good(old(queue.rows)) ==> Good(queue.rows))
      ensures queue.rows == Outcome(old(queue.rows), event, now, config, replies(old(tries)))
      ensures posts == if event.consumer in config.consumers && !replies(old(tries)).Unsent? then old(posts) + [event.id] else old(posts)
      ensures attempts == CountedOnce(old(attempts), (event.consumer, event.consumer in config.consumers && replies(old(tries)).Accepted?))
    {
      if event.consumer !in config.consumers {
        RecordAttempt(event.consumer, false);
        queue.FailIPN(event.id, true, now);
        return;
      }
      var reply := Post(event.id);
      RecordAttempt(event.consumer, reply.Accepted?);
      if reply.Accepted? {
        queue.DeliverIPN(event.id);
      } else {
        Fail(event.id, event.attempts, now);
      }
    }
  }

  /** The table after one dispatch of a chosen row. */
  function Dispatched(rows: seq<Row>, row: nat, now: int, cfg: Config, reply: Reply): seq<Row>
    requires row < |rows|
  {
    Outcome(ClaimRow(rows, row), ClaimRow(rows, row)[row], now, cfg, reply)
  }

  /** The table after the reply to a claimed event. */
  function Outcome(claimed: seq<Row>, event: Row, now: int, cfg: Config, reply: Reply): seq<Row> {
    if event.consumer !in cfg.consumers then FailRow(claimed, event.id, true, now)
    else if reply.Accepted? then DeliverRow(claimed, event.id)
    else FailedRows(claimed, event.id, event.attempts, now, cfg.policy)
  }

  lemma RunFirst(s: Sys, step: Step)
    ensures Run(s, [step]) == Next(s, step)
  {
    assert [step][..0] == [];
  }

  lemma RunSecond(s: Sys, first: Step, second: Step)
    ensures Run(s, [first, second]) == Next(Next(s, first), second)
  {
    assert [first, second][..1] == [first];
    RunFirst(s, first);
  }

  lemma RunThird(s: Sys, first: Step, second: Step, third: Step)
    ensures Run(s, [first, second, third]) == Next(Next(Next(s, first), second), third)
  {
    assert [first, second, third][..2] == [first, second];
    RunSecond(s, first, second);
  }

  lemma ClaimStep(s: Sys, row: nat, now: int, enabled: set<string>)
    requires 0 !in s.jobs && Chosen(s.rows, row, now, enabled)
    ensures var claimed := Next(s, Claim(0, row, now, enabled));
            && claimed.rows == ClaimRow(s.rows, row)
            && claimed.jobs == s.jobs[0 := Job(row, s.rows[row].id, s.rows[row].attempts + 1, false)]
  {
  }

  lemma LastStep(claimed: Sys, now: int, cfg: Config, reply: Reply)
    requires 0 in claimed.jobs && !claimed.jobs[0].posted
    ensures Next(claimed, Reject(0, now)).rows == FailRow(claimed.rows, claimed.jobs[0].id, true, now)
    ensures Next(claimed, Step.Fail(0, now, cfg.policy)).rows == FailOutcome(claimed.rows, claimed.jobs[0], now, cfg.policy)
    ensures Next(Next(claimed, Post(0)), Step.Fail(0, now, cfg.policy)).rows == FailOutcome(claimed.rows, claimed.jobs[0], now, cfg.policy)
    ensures Next(Next(claimed, Post(0)), Deliver(0)).rows == DeliverRow(claimed.rows, claimed.jobs[0].id)
  {
  }

  /** A dispatch by a lone worker is a run of the protocol, so what holds of all runs holds of it. */
  lemma DispatchIsARun(s: Sys, row: nat, now: int, cfg: Config, reply: Reply)
    requires 0 !in s.jobs && Chosen(s.rows, row, now, cfg.enabled)
    ensures Run(s, DispatchSteps(s.rows, row, now, cfg, reply)).rows == Dispatched(s.rows, row, now, cfg, reply)
  {
    var claim := Claim(0, row, now, cfg.enabled);
    ClaimStep(s, row, now, cfg.enabled);
    LastStep(Next(s, claim), now, cfg, reply);
    if s.rows[row].consumer !in cfg.consumers {
      RunSecond(s, claim, Reject(0, now));
    } else if reply.Unsent? {
      RunSecond(s, claim, Step.Fail(0, now, cfg.policy));
    } else {
      RunThird(s, claim, Post(0), if reply.Accepted? then Deliver(0) else Step.Fail(0, now, cfg.policy));
    }
  }
}
