/**
 The follower as a worker object: its fields change across polls, the ancestor walk and the catch-up are loops,
 and every call answers by its position in the remote's script. Each method is proved against the follower's
 step of the same name, so everything shown about polls holds of it.
 */
module FollowerWorker {
  import opened Prelude
  import opened Tables
  import opened Ledger
  import opened Follower
  import opened Store
  import opened Integrity
  import opened RetainedChain

  class Worker {
    const store: Store
    const remote: Remote
    const cfg: Config
    var suspicion: Option<Suspicion>
    var known: bool
    var halted: bool
    var calls: nat

    constructor (store: Store, remote: Remote, cfg: Config)
      ensures this.store == store && this.remote == remote && this.cfg == cfg
      ensures View() == Sys(store.db, None, false, false, 0)
    {
      this.store, this.remote, this.cfg := store, remote, cfg;
      suspicion, known, halted, calls := None, false, false, 0;
    }

    function View(): Sys
      reads this, store
    {
      Sys(store.db, suspicion, known, halted, calls)
    }

    ghost predicate Valid()
      reads this, store
    {
      store.Valid()
    }

    method Ask(height: int) returns (answer: Response)
      modifies this`calls
      ensures calls == old(calls) + 1
      ensures answer == Parse(remote.at(old(calls), height))
    {
      answer := Parse(remote.at(calls, height));
      calls := calls + 1;
    }

    method ClearSuspicion()
      requires Valid()
      modifies this, store
      ensures Valid() && View() == Clear(old(View()))
    {
      store.ClearReorgSuspicion();
      suspicion, known := None, true;
    }

    method Commit(block: Block) returns (outcome: Outcome)
      requires Valid()
      modifies this`calls, store
      ensures Valid() && (View(), outcome) == CommitStep(old(View()), remote, cfg, block)
      ensures outcome.Processed? ==> && store.db.cursor.Some? && store.db.cursor.value.last == block.height
                                     && block.height in store.db.blocks && store.db.blocks[block.height] == block
      ensures !outcome.Processed? ==> store.db == old(store.db)
    {
      var records := remote.prepare(calls, block);
      calls := calls + 1;
      if records.None? {
        return Failed;
      }
      if CommitBlock(store.db, block, cfg.depth, records.value).Some? {
        CommitShape(store.db, block, cfg.depth, records.value);
      }
      var ok := store.CommitBlock(block, cfg.depth, records.value);
      outcome := if ok then Processed else Failed;
    }

    method ConfirmMismatch(previous: Block) returns (check: Check)
      requires Valid()
      modifies this, store
      ensures Valid() && (View(), check) == Follower.ConfirmMismatch(old(View()), remote, cfg, previous)
      ensures SameMoney(old(store.db), store.db)
      ensures check.Replaced? ==>
                && check.block.height == previous.height && check.block.id != previous.id
                && SeenBefore(old(suspicion), check.block, remote.clock(old(calls) + 1) - cfg.poll)
                && store.db == old(store.db)
      ensures suspicion.Some? && suspicion != old(suspicion) ==>
                && suspicion.value.firstSeen == remote.clock(old(calls) + 1)
                && remote.at(old(calls), previous.height).Answer?
                && suspicion.value.replacementId == remote.at(old(calls), previous.height).block.id != previous.id
    {
      var answer := Ask(previous.height);
      if answer.NoAnswer? || answer.block.height != previous.height {
        return Unanswered;
      }
      var replacement := answer.block;
      if replacement.id == previous.id {
        ClearSuspicion();
        return Unconfirmed;
      }
      var now := remote.clock(calls);
      calls := calls + 1;
      if suspicion.None? || suspicion.value.height != replacement.height || suspicion.value.replacementId != replacement.id {
        store.SetReorgSuspicion(replacement.height);
        suspicion, known := Some(Suspicion(replacement.height, replacement.id, now)), true;
        return Unconfirmed;
      }
      if now - suspicion.value.firstSeen < cfg.poll {
        return Unconfirmed;
      }
      return Replaced(replacement);
    }

    method RecoverReorg(lastHeight: int, first: Block) returns (outcome: Outcome)
      requires Valid()
      modifies this, store
      ensures Valid() && (View(), outcome) == Follower.RecoverReorg(old(View()), remote, cfg, lastHeight, lastHeight, first)
    {
      var height, replacement := lastHeight, first;
      while true
        invariant Valid() && height <= lastHeight
        invariant Follower.RecoverReorg(old(View()), remote, cfg, lastHeight, lastHeight, first)
               == Follower.RecoverReorg(View(), remote, cfg, lastHeight, height, replacement)
        decreases cfg.depth + 1 - (lastHeight - height)
      {
        if height !in store.db.blocks {
          halted := true;
          return Failed;
        }
        if replacement.id == store.db.blocks[height].id {
          var ok, orphaned, reverted := store.RewindChain(height);
          return if ok then Processed else Failed;
        }
        if lastHeight - height + 1 > cfg.depth || height == 0 {
          halted := true;
          return Failed;
        }
        var answer := Ask(height - 1);
        if answer.NoAnswer? || answer.block.height != height - 1 {
          return Failed;
        }
        height, replacement := height - 1, answer.block;
      }
    }

    method ProcessCandidate(block: Block) returns (outcome: Outcome)
      requires Valid()
      modifies this, store
      ensures Valid() && (View(), outcome) == Follower.ProcessCandidate(old(View()), remote, cfg, block)
      ensures outcome.Waiting? ==> SameMoney(old(store.db), store.db)
      ensures outcome.Processed? && Started(old(View())) ==>
                Suspecting(View()) < Suspecting(old(View())) || Last(View()) == Last(old(View())) + 1
      ensures Retained(old(store.db), cfg.depth) && block.height >= 0 ==> Retained(store.db, cfg.depth)
    {
      ProcessIsSound(View(), remote, cfg, block);
      if store.db.cursor.None? {
        outcome := Commit(block);
        return;
      }
      var last := store.db.cursor.value.last;
      if block.height != last + 1 || last !in store.db.blocks {
        return Failed;
      }
      var previous := store.db.blocks[last];
      if block.parent != previous.id {
        var check := ConfirmMismatch(previous);
        if check.Unanswered? {
          return Failed;
        }
        if check.Unconfirmed? {
          return Waiting;
        }
        var recovered := RecoverReorg(previous.height, check.block);
        if !recovered.Processed? {
          return Failed;
        }
        ClearSuspicion();
        return Processed;
      }
      if !known || suspicion.Some? {
        ClearSuspicion();
      }
      outcome := Commit(block);
    }

    method Tick() returns (outcome: Outcome)
      requires Valid()
      modifies this, store
      ensures Valid() && (View(), outcome) == Follower.Tick(old(View()), remote, cfg)
      ensures old(halted) ==> View() == old(View()) && outcome.Failed?
      ensures Retained(old(store.db), cfg.depth) ==> Retained(store.db, cfg.depth)
    {
      if Retained(store.db, cfg.depth) {
        TickRetains(View(), remote, cfg);
      }
      if halted {
        return Failed;
      }
      var answer := Parse(remote.tip(calls));
      calls := calls + 1;
      if answer.NoAnswer? {
        return Failed;
      }
      var tip := answer.block;
      if store.db.cursor.None? {
        outcome := Commit(tip);
        return if outcome.Processed? then Waiting else Failed;
      }
      if tip.height <= store.db.cursor.value.last {
        return Waiting;
      }
      outcome := CatchUp(tip);
    }

    method CatchUp(tip: Block) returns (outcome: Outcome)
      requires Valid() && store.db.cursor.Some?
      modifies this, store
      ensures Valid() && (View(), outcome) == TickLoop(old(View()), remote, cfg, tip)
    {
      while true
        invariant Valid() && store.db.cursor.Some?
        invariant TickLoop(old(View()), remote, cfg, tip) == TickLoop(View(), remote, cfg, tip)
        decreases Suspecting(View()), tip.height - Last(View())
      {
        if store.db.cursor.value.last >= tip.height {
          return Waiting;
        }
        TickLoopStep(View(), remote, cfg, tip);
        var answer := Fetch(tip);
        if answer.NoAnswer? {
          return Failed;
        }
        ProcessedMakesProgress(View(), remote, cfg, answer.block);
        outcome := ProcessCandidate(answer.block);
        if !outcome.Processed? {
          return;
        }
      }
    }

    /** The next block: the polled tip itself, or the missing height asked for by number. */
    method Fetch(tip: Block) returns (answer: Response)
      requires Valid() && store.db.cursor.Some?
      modifies this`calls
      ensures (View(), answer) == Candidate(old(View()), remote, tip)
    {
      var nextHeight := store.db.cursor.value.last + 1;
      answer := Answer(tip);
      if nextHeight != tip.height {
        answer := Ask(nextHeight);
        if answer.NoAnswer? || answer.block.height != nextHeight {
          answer := NoAnswer;
        }
      }
    }
  }

  /** Nothing moved but the suspicion: blocks, payments, orders, balances and the height of the chain are the same. */
  predicate SameMoney(db: Db, after: Db) {
    && after == db.(cursor := after.cursor) && after.cursor.Some? == db.cursor.Some?
    && (db.cursor.Some? ==> after.cursor.value == db.cursor.value.(suspectedFrom := after.cursor.value.suspectedFrom))
  }

  /** The replacement was seen already, at the given time or before. */
  predicate SeenBefore(suspicion: Option<Suspicion>, block: Block, latest: int) {
    suspicion.Some? && suspicion.value.height == block.height && suspicion.value.replacementId == block.id
    && suspicion.value.firstSeen <= latest
  }

  lemma ProcessIsSound(s: Sys, remote: Remote, cfg: Config, block: Block)
    ensures var (r, outcome) := Follower.ProcessCandidate(s, remote, cfg, block);
            && (outcome.Waiting? ==> SameMoney(s.db, r.db))
            && (outcome.Processed? && Started(s) ==> Suspecting(r) < Suspecting(s) || Last(r) == Last(s) + 1)
            && (Retained(s.db, cfg.depth) && block.height >= 0 ==> Retained(r.db, cfg.depth))
  {
    if Started(s) {
      ProcessedMakesProgress(s, remote, cfg, block);
    }
    if Retained(s.db, cfg.depth) && block.height >= 0 {
      ProcessRetains(s, remote, cfg, block);
    }
  }
}
