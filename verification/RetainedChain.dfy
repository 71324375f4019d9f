/**
 The retained blocks are a parent-linked run of consecutive heights ending at the cursor, at most one longer
 than the reorg depth, whatever the remote answers. Every poll is a run of ledger transactions.
 */
module RetainedChain {
  import opened Prelude
  import opened Tables
  import opened Ledger
  import opened Integrity
  import opened Balances
  import opened Follower

  ghost predicate Spans(db: Db, low: int, depth: int) {
    && db.cursor.Some?
    && 0 <= low <= db.cursor.value.last && db.cursor.value.last - low <= depth
    && (forall h :: h in db.blocks <==> low <= h <= db.cursor.value.last)
    && (forall h :: low <= h <= db.cursor.value.last ==> db.blocks[h].height == h)
    && (forall h :: low < h <= db.cursor.value.last ==> db.blocks[h].parent == db.blocks[h - 1].id)
  }

  ghost predicate Retained(db: Db, depth: int) {
    if db.cursor.None? then db.blocks == map[] else exists low :: Spans(db, low, depth)
  }

  // ----- The canonical walk -----

  lemma {:induction false} CanonicalReaches(db: Db, low: int, depth: int, h: int)
    requires Spans(db, low, depth) && low <= h <= db.cursor.value.last
    ensures forall k :: low <= k <= h ==> k in Canonical(db.blocks, h)
    decreases h - low
  {
    if h > low {
      CanonicalReaches(db, low, depth, h - 1);
    }
  }

  /** The recursive canonical query returns the whole blocks table. */
  lemma CanonicalIsWholeTable(db: Db, depth: int)
    requires Retained(db, depth) && db.cursor.Some?
    ensures Canonical(db.blocks, db.cursor.value.last) == db.blocks.Keys
  {
    var low :| Spans(db, low, depth);
    CanonicalReaches(db, low, depth, db.cursor.value.last);
    var reached := Canonical(db.blocks, db.cursor.value.last);
    assert forall k :: k in reached <==> k in db.blocks.Keys;
  }

  lemma {:induction false} IntervalSize(low: int, high: int, s: set<int>)
    requires low <= high + 1
    requires forall h :: h in s <==> low <= h <= high
    ensures |s| == high - low + 1
    decreases high - low
  {
    if low > high {
      assert forall h :: h !in s;
      assert |s| == 0;
    } else {
      IntervalSize(low, high - 1, s - {high});
    }
  }

  /** At most reorgDepth + 1 blocks are kept. */
  lemma RetainedIsBounded(db: Db, depth: int)
    requires Retained(db, depth) && depth >= 0
    ensures |db.blocks| <= depth + 1
  {
    if db.cursor.Some? {
      var low :| Spans(db, low, depth);
      IntervalSize(low, db.cursor.value.last, db.blocks.Keys);
    }
  }

  // ----- Steps -----

  lemma ChainFrame(db: Db, after: Db, depth: int)
    requires Retained(db, depth)
    requires after.blocks == db.blocks
    requires after.cursor.Some? == db.cursor.Some?
    requires db.cursor.Some? ==> after.cursor.value.last == db.cursor.value.last
    ensures Retained(after, depth)
  {
    if db.cursor.Some? {
      var low :| Spans(db, low, depth);
      assert Spans(after, low, depth);
    }
  }

  lemma CommitRetains(db: Db, block: Block, depth: int, records: seq<Payment>)
    requires Retained(db, depth) && block.height >= 0
    requires db.cursor.Some? ==> db.cursor.value.last in db.blocks && block.parent == db.blocks[db.cursor.value.last].id
    requires CommitBlock(db, block, depth, records).Some?
    ensures Retained(CommitBlock(db, block, depth, records).value, depth)
  {
    CommitShape(db, block, depth, records);
    var after := CommitBlock(db, block, depth, records).value;
    if db.cursor.None? {
      assert Spans(after, block.height, depth);
    } else {
      var low :| Spans(db, low, depth);
      assert Spans(after, Max(low, block.height - depth), depth);
    }
  }

  lemma RewindRetains(db: Db, ancestor: int, depth: int)
    requires Retained(db, depth)
    requires RewindChain(db, ancestor).Some?
    ensures Retained(RewindChain(db, ancestor).value, depth)
  {
    var low :| Spans(db, low, depth);
    assert Spans(RewindChain(db, ancestor).value, low, depth);
  }

  lemma CommitStepRetains(s: Sys, remote: Remote, cfg: Config, block: Block)
    requires Retained(s.db, cfg.depth) && block.height >= 0
    requires Started(s) ==> Last(s) in s.db.blocks && block.parent == s.db.blocks[Last(s)].id
    ensures Retained(CommitStep(s, remote, cfg, block).0.db, cfg.depth)
  {
    var records := remote.prepare(s.calls, block);
    if records.Some? && CommitBlock(s.db, block, cfg.depth, records.value).Some? {
      CommitRetains(s.db, block, cfg.depth, records.value);
    }
  }

  lemma RecoverRetains(s: Sys, remote: Remote, cfg: Config, last: int, height: int, replacement: Block)
    requires Retained(s.db, cfg.depth) && height <= last
    ensures Retained(RecoverReorg(s, remote, cfg, last, height, replacement).0.db, cfg.depth)
    decreases cfg.depth + 1 - (last - height)
  {
    if height in s.db.blocks {
      if replacement.id == s.db.blocks[height].id {
        if RewindChain(s.db, height).Some? { RewindRetains(s.db, height, cfg.depth); }
      } else if last - height + 1 <= cfg.depth && height != 0 {
        var answer := Parse(remote.at(s.calls, height - 1));
        if answer.Answer? && answer.block.height == height - 1 {
          RecoverRetains(s.(calls := s.calls + 1), remote, cfg, last, height - 1, answer.block);
        }
      }
    }
  }

  lemma MismatchRetains(s: Sys, remote: Remote, cfg: Config, previous: Block)
    requires Retained(s.db, cfg.depth)
    ensures Retained(ConfirmMismatch(s, remote, cfg, previous).0.db, cfg.depth)
  {
    ChainFrame(s.db, ConfirmMismatch(s, remote, cfg, previous).0.db, cfg.depth);
  }

  lemma ProcessRetains(s: Sys, remote: Remote, cfg: Config, block: Block)
    requires Retained(s.db, cfg.depth) && block.height >= 0
    ensures Retained(ProcessCandidate(s, remote, cfg, block).0.db, cfg.depth)
  {
    if !Started(s) {
      CommitStepRetains(s, remote, cfg, block);
    } else if block.height == Last(s) + 1 && Last(s) in s.db.blocks {
      var previous := s.db.blocks[Last(s)];
      ChainFrame(s.db, Clear(s).db, cfg.depth);
      if block.parent != previous.id {
        var (checked, check) := ConfirmMismatch(s, remote, cfg, previous);
        MismatchRetains(s, remote, cfg, previous);
        if check.Replaced? {
          RecoverRetains(checked, remote, cfg, previous.height, previous.height, check.block);
          var recovered := RecoverReorg(checked, remote, cfg, previous.height, previous.height, check.block).0;
          ChainFrame(recovered.db, Clear(recovered).db, cfg.depth);
        }
      } else {
        CommitStepRetains(if !s.known || s.suspicion.Some? then Clear(s) else s, remote, cfg, block);
      }
    }
  }

  lemma TickLoopRetains(s: Sys, remote: Remote, cfg: Config, tip: Block)
    requires Started(s) && Retained(s.db, cfg.depth) && tip.height >= 0
    ensures Retained(TickLoop(s, remote, cfg, tip).0.db, cfg.depth)
    decreases Suspecting(s), tip.height - Last(s)
  {
    if Last(s) < tip.height {
      var (asked, answer) := Candidate(s, remote, tip);
      if answer.Answer? {
        ProcessRetains(asked, remote, cfg, answer.block);
        ProcessedMakesProgress(asked, remote, cfg, answer.block);
        var (processed, outcome) := ProcessCandidate(asked, remote, cfg, answer.block);
        if outcome.Processed? {
          TickLoopRetains(processed, remote, cfg, tip);
        }
      }
    }
  }

  /** A poll keeps the retained chain, whatever the remote answers. */
  lemma TickRetains(s: Sys, remote: Remote, cfg: Config)
    requires Retained(s.db, cfg.depth)
    ensures Retained(Tick(s, remote, cfg).0.db, cfg.depth)
  {
    if !s.halted {
      var answer := Parse(remote.tip(s.calls));
      var polled := s.(calls := s.calls + 1);
      if answer.Answer? {
        if !Started(s) {
          CommitStepRetains(polled, remote, cfg, answer.block);
        } else if answer.block.height > Last(s) {
          TickLoopRetains(polled, remote, cfg, answer.block);
        }
      }
    }
  }

  // ----- Every reachable state -----

  /** Only the follower moves blocks and the cursor; every other transaction leaves them alone. */
  predicate OtherWorker(ev: Event) {
    !ev.Commit? && !ev.Rewind?
  }

  ghost predicate SameChain(db: Db, after: Db) {
    && after.blocks == db.blocks && after.cursor.Some? == db.cursor.Some?
    && (db.cursor.Some? ==> after.cursor.value.last == db.cursor.value.last)
  }

  lemma MoneyKeepsBlocks(db: Db, ev: Event)
    requires ev.Attribute? || ev.Fee? || ev.GrantReceipt?
    ensures SameChain(db, Apply(db, ev))
  {
  }

  lemma OrdersKeepBlocks(db: Db, ev: Event)
    requires ev.Cancel? || ev.Extend? || ev.Create? || ev.TopUp? || ev.Release? || ev.Disable?
    ensures SameChain(db, Apply(db, ev))
  {
  }

  lemma OthersKeepBlocks(db: Db, ev: Event)
    requires OtherWorker(ev)
    ensures SameChain(db, Apply(db, ev))
  {
    if ev.Reconcile? {
      if Attempt(db, ev).Some? { IngestKeepsChain(db, ev.records); }
    } else if ev.Expire? {
      ExpireKeepsRows(db, ev.ids, ev.now, ev.cooldown);
    } else if ev.Attribute? || ev.Fee? || ev.GrantReceipt? {
      MoneyKeepsBlocks(db, ev);
    } else if ev.Cancel? || ev.Extend? || ev.Create? || ev.TopUp? || ev.Release? || ev.Disable? {
      OrdersKeepBlocks(db, ev);
    }
  }

  /** Polls, restarts of the process, and the transactions of every other worker, in any order. */
  datatype Step = Poll(remote: Remote) | Restart | Other(ev: Event)

  function Perform(s: Sys, step: Step, cfg: Config): Sys {
    match step
    case Poll(remote) => Tick(s, remote, cfg).0
    case Restart => s.(suspicion := None, known := false, halted := false)
    case Other(ev) => if OtherWorker(ev) then s.(db := Apply(s.db, ev)) else s
  }

  function PerformAll(s: Sys, steps: seq<Step>, cfg: Config): Sys {
    if steps == [] then s else Perform(PerformAll(s, steps[..|steps| - 1], cfg), steps[|steps| - 1], cfg)
  }

  /** In every reachable state the blocks table is one parent-linked run of bounded length ending at the cursor. */
  lemma {:induction false} RetainedAlways(s: Sys, steps: seq<Step>, cfg: Config)
    requires Retained(s.db, cfg.depth)
    ensures Retained(PerformAll(s, steps, cfg).db, cfg.depth)
  {
    if steps != [] {
      var before := PerformAll(s, steps[..|steps| - 1], cfg);
      RetainedAlways(s, steps[..|steps| - 1], cfg);
      match steps[|steps| - 1]
      case Poll(remote) => TickRetains(before, remote, cfg);
      case Restart =>
      case Other(ev) =>
        if OtherWorker(ev) {
          OthersKeepBlocks(before.db, ev);
          ChainFrame(before.db, Apply(before.db, ev), cfg.depth);
        }
    }
  }

  // ----- A poll is a run of ledger transactions -----

  lemma {:induction false} RunAppend(db: Db, evs: seq<Event>, more: seq<Event>)
    ensures Run(db, evs + more) == Run(Run(db, evs), more)
  {
    if more == [] {
      assert evs + more == evs;
    } else {
      var front := more[..|more| - 1];
      assert (evs + more)[..|evs + more| - 1] == evs + front;
      RunAppend(db, evs, front);
    }
  }

  lemma RunOne(db: Db, ev: Event)
    ensures Run(db, [ev]) == Apply(db, ev)
  {
    assert [ev][..0] == [];
  }

  /** The decoder's records obey the identity of their keys. */
  ghost predicate FaithfulRemote(remote: Remote, identity: Identity) {
    forall n: nat, block: Block :: remote.prepare(n, block).Some? ==> Faithful(remote.prepare(n, block).value, identity)
  }

  predicate FollowerEvent(ev: Event) {
    ev.Commit? || ev.Rewind? || ev.Suspect? || ev.ClearSuspicion?
  }

  ghost predicate Explains(db: Db, evs: seq<Event>, after: Db, identity: Identity) {
    && Run(db, evs) == after
    && forall i :: 0 <= i < |evs| ==> FollowerEvent(evs[i]) && (evs[i].Commit? ==> Faithful(evs[i].records, identity))
  }

  lemma ExplainsNothing(db: Db, identity: Identity)
    ensures Explains(db, [], db, identity)
  {
  }

  lemma ExplainsOne(db: Db, ev: Event, identity: Identity)
    requires FollowerEvent(ev) && (ev.Commit? ==> Faithful(ev.records, identity))
    ensures Explains(db, [ev], Apply(db, ev), identity)
  {
    RunOne(db, ev);
  }

  lemma ExplainsBoth(db: Db, evs: seq<Event>, middle: Db, more: seq<Event>, after: Db, identity: Identity)
    requires Explains(db, evs, middle, identity) && Explains(middle, more, after, identity)
    ensures Explains(db, evs + more, after, identity)
  {
    RunAppend(db, evs, more);
  }

  lemma CommitStepTrace(s: Sys, remote: Remote, cfg: Config, block: Block, identity: Identity) returns (evs: seq<Event>)
    requires FaithfulRemote(remote, identity)
    ensures Explains(s.db, evs, CommitStep(s, remote, cfg, block).0.db, identity)
  {
    var records := remote.prepare(s.calls, block);
    if records.Some? && CommitBlock(s.db, block, cfg.depth, records.value).Some? {
      ExplainsOne(s.db, Commit(block, cfg.depth, records.value), identity);
      evs := [Commit(block, cfg.depth, records.value)];
    } else {
      ExplainsNothing(s.db, identity);
      evs := [];
    }
  }

  lemma RecoverTrace(s: Sys, remote: Remote, cfg: Config, last: int, height: int, replacement: Block, identity: Identity)
    returns (evs: seq<Event>)
    requires height <= last
    ensures Explains(s.db, evs, RecoverReorg(s, remote, cfg, last, height, replacement).0.db, identity)
    decreases cfg.depth + 1 - (last - height)
  {
    ExplainsNothing(s.db, identity);
    evs := [];
    if height in s.db.blocks {
      if replacement.id == s.db.blocks[height].id {
        if RewindChain(s.db, height).Some? {
          ExplainsOne(s.db, Rewind(height), identity);
          evs := [Rewind(height)];
        }
      } else if last - height + 1 <= cfg.depth && height != 0 {
        var answer := Parse(remote.at(s.calls, height - 1));
        if answer.Answer? && answer.block.height == height - 1 {
          evs := RecoverTrace(s.(calls := s.calls + 1), remote, cfg, last, height - 1, answer.block, identity);
        }
      }
    }
  }

  lemma MismatchTrace(s: Sys, remote: Remote, cfg: Config, previous: Block, identity: Identity) returns (evs: seq<Event>)
    ensures Explains(s.db, evs, ConfirmMismatch(s, remote, cfg, previous).0.db, identity)
  {
    var after := ConfirmMismatch(s, remote, cfg, previous).0.db;
    if after == s.db {
      ExplainsNothing(s.db, identity);
      evs := [];
    } else if after == ClearReorgSuspicion(s.db) {
      ExplainsOne(s.db, ClearSuspicion, identity);
      evs := [ClearSuspicion];
    } else {
      var height := Parse(remote.at(s.calls, previous.height)).block.height;
      ExplainsOne(s.db, Suspect(height), identity);
      evs := [Suspect(height)];
    }
  }

  lemma ReplaceTrace(s: Sys, remote: Remote, cfg: Config, previous: Block, identity: Identity) returns (evs: seq<Event>)
    requires ConfirmMismatch(s, remote, cfg, previous).1.Replaced?
    ensures var (checked, check) := ConfirmMismatch(s, remote, cfg, previous);
            var (recovered, outcome) := RecoverReorg(checked, remote, cfg, previous.height, previous.height, check.block);
            Explains(s.db, evs, if outcome.Processed? then Clear(recovered).db else recovered.db, identity)
  {
    var (checked, check) := ConfirmMismatch(s, remote, cfg, previous);
    var (recovered, outcome) := RecoverReorg(checked, remote, cfg, previous.height, previous.height, check.block);
    assert checked.db == s.db;
    evs := RecoverTrace(checked, remote, cfg, previous.height, previous.height, check.block, identity);
    if outcome.Processed? {
      ExplainsOne(recovered.db, ClearSuspicion, identity);
      ExplainsBoth(s.db, evs, recovered.db, [ClearSuspicion], Clear(recovered).db, identity);
      evs := evs + [ClearSuspicion];
    }
  }

  lemma ProcessTrace(s: Sys, remote: Remote, cfg: Config, block: Block, identity: Identity) returns (evs: seq<Event>)
    requires FaithfulRemote(remote, identity) && Started(s)
    ensures Explains(s.db, evs, ProcessCandidate(s, remote, cfg, block).0.db, identity)
  {
    ExplainsNothing(s.db, identity);
    evs := [];
    if block.height == Last(s) + 1 && Last(s) in s.db.blocks {
      var previous := s.db.blocks[Last(s)];
      if block.parent != previous.id {
        if ConfirmMismatch(s, remote, cfg, previous).1.Replaced? {
          evs := ReplaceTrace(s, remote, cfg, previous, identity);
        } else {
          evs := MismatchTrace(s, remote, cfg, previous, identity);
        }
      } else if !s.known || s.suspicion.Some? {
        ExplainsOne(s.db, ClearSuspicion, identity);
        var more := CommitStepTrace(Clear(s), remote, cfg, block, identity);
        ExplainsBoth(s.db, [ClearSuspicion], Clear(s).db, more, CommitStep(Clear(s), remote, cfg, block).0.db, identity);
        evs := [ClearSuspicion] + more;
      } else {
        evs := CommitStepTrace(s, remote, cfg, block, identity);
      }
    }
  }

  lemma TickLoopTrace(s: Sys, remote: Remote, cfg: Config, tip: Block, identity: Identity) returns (evs: seq<Event>)
    requires FaithfulRemote(remote, identity) && Started(s)
    ensures Explains(s.db, evs, TickLoop(s, remote, cfg, tip).0.db, identity)
    decreases Suspecting(s), tip.height - Last(s)
  {
    ExplainsNothing(s.db, identity);
    evs := [];
    if Last(s) < tip.height {
      var (asked, answer) := Candidate(s, remote, tip);
      if answer.Answer? {
        ProcessedMakesProgress(asked, remote, cfg, answer.block);
        var (processed, outcome) := ProcessCandidate(asked, remote, cfg, answer.block);
        evs := ProcessTrace(asked, remote, cfg, answer.block, identity);
        if outcome.Processed? {
          var more := TickLoopTrace(processed, remote, cfg, tip, identity);
          ExplainsBoth(s.db, evs, processed.db, more, TickLoop(processed, remote, cfg, tip).0.db, identity);
          evs := evs + more;
        }
      }
    }
  }

  /** What a poll does to the database is a run of follower transactions that commit only faithful records. */
  lemma TickIsARun(s: Sys, remote: Remote, cfg: Config, identity: Identity) returns (evs: seq<Event>)
    requires FaithfulRemote(remote, identity)
    ensures Explains(s.db, evs, Tick(s, remote, cfg).0.db, identity)
  {
    ExplainsNothing(s.db, identity);
    evs := [];
    if !s.halted {
      var answer := Parse(remote.tip(s.calls));
      var polled := s.(calls := s.calls + 1);
      if answer.Answer? {
        if !Started(s) {
          evs := CommitStepTrace(polled, remote, cfg, answer.block, identity);
        } else if answer.block.height > Last(s) {
          evs := TickLoopTrace(polled, remote, cfg, answer.block, identity);
        }
      }
    }
  }

  /** A poll keeps every balances row equal to the payment rows it stands for, whatever blocks the remote serves. */
  lemma TickKeepsBalances(s: Sys, remote: Remote, cfg: Config, identity: Identity)
    requires FaithfulRemote(remote, identity) && Sound(s.db, identity)
    ensures Sound(Tick(s, remote, cfg).0.db, identity)
  {
    var evs := TickIsARun(s, remote, cfg, identity);
    forall i | 0 <= i < |evs| ensures Honest(Run(s.db, evs[..i]), evs[i], identity) {
      assert FollowerEvent(evs[i]);
    }
    RunKeepsCache(s.db, evs, identity);
  }
}
