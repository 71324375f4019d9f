/** Where stored blocks come from: each one is what the node answered during the poll that stored it, in seconds. */
module Provenance {
  import opened Prelude
  import opened Tables
  import opened Ledger
  import opened Integrity
  import opened Follower

  /** The node's block, its timestamp truncated from milliseconds to seconds. */
  predicate Stands(answer: Response, block: Block) {
    && answer.Answer? && answer.block.height == block.height >= 0 && answer.block.id == block.id != ""
    && answer.block.parent == block.parent && answer.block.timestamp >= 1
    && 1000 * block.timestamp <= answer.block.timestamp < 1000 * (block.timestamp + 1)
  }

  predicate AnsweredAt(remote: Remote, from: nat, to: nat, block: Block, n: nat) {
    from <= n < to && (Stands(remote.tip(n), block) || Stands(remote.at(n, block.height), block))
  }

  /** Some call among those from one number to another was answered with the block. */
  ghost predicate Answered(remote: Remote, from: nat, to: nat, block: Block) {
    exists n: nat :: AnsweredAt(remote, from, to, block, n)
  }

  /** Every stored block was stored before, or was answered in between. */
  ghost predicate FromAnswers(db: Db, after: Db, remote: Remote, from: nat, to: nat) {
    forall h :: h in after.blocks ==>
      (h in db.blocks && after.blocks[h] == db.blocks[h]) || Answered(remote, from, to, after.blocks[h])
  }

  lemma Later(remote: Remote, from: nat, to: nat, earlier: nat, later: nat, block: Block)
    requires Answered(remote, from, to, block) && earlier <= from && to <= later
    ensures Answered(remote, earlier, later, block)
  {
    var n: nat :| AnsweredAt(remote, from, to, block, n);
    assert AnsweredAt(remote, earlier, later, block, n);
  }

  lemma FromBoth(db: Db, mid: Db, after: Db, remote: Remote, from: nat, between: nat, to: nat)
    requires FromAnswers(db, mid, remote, from, between) && FromAnswers(mid, after, remote, from, to) && between <= to
    ensures FromAnswers(db, after, remote, from, to)
  {
    forall h | h in after.blocks && !Answered(remote, from, to, after.blocks[h]) ensures h in db.blocks && after.blocks[h] == db.blocks[h] {
      if Answered(remote, from, between, after.blocks[h]) {
        Later(remote, from, between, from, to, after.blocks[h]);
      }
    }
  }

  lemma SameBlocks(db: Db, after: Db, remote: Remote, from: nat, to: nat)
    requires forall h :: h in after.blocks ==> h in db.blocks && after.blocks[h] == db.blocks[h]
    ensures FromAnswers(db, after, remote, from, to)
  {
  }

  lemma CommitStores(s: Sys, remote: Remote, cfg: Config, block: Block, from: nat)
    requires Answered(remote, from, s.calls, block)
    ensures var r := CommitStep(s, remote, cfg, block).0;
            FromAnswers(s.db, r.db, remote, from, r.calls) && s.calls <= r.calls
  {
    var r := CommitStep(s, remote, cfg, block).0;
    var records := remote.prepare(s.calls, block);
    if records.Some? && CommitBlock(s.db, block, cfg.depth, records.value).Some? {
      CommitShape(s.db, block, cfg.depth, records.value);
      Later(remote, from, s.calls, from, r.calls, block);
    }
  }

  lemma {:induction false} RecoverStores(s: Sys, remote: Remote, cfg: Config, last: int, height: int, replacement: Block)
    requires height <= last
    ensures var r := RecoverReorg(s, remote, cfg, last, height, replacement).0;
            s.calls <= r.calls && forall h :: h in r.db.blocks ==> h in s.db.blocks && r.db.blocks[h] == s.db.blocks[h]
    decreases cfg.depth + 1 - (last - height)
  {
    if height in s.db.blocks && replacement.id != s.db.blocks[height].id && last - height + 1 <= cfg.depth && height != 0 {
      var answer := Parse(remote.at(s.calls, height - 1));
      if answer.Answer? && answer.block.height == height - 1 {
        RecoverStores(s.(calls := s.calls + 1), remote, cfg, last, height - 1, answer.block);
      }
    }
  }

  lemma ProcessStores(s: Sys, remote: Remote, cfg: Config, block: Block, from: nat)
    requires Started(s) && Answered(remote, from, s.calls, block)
    ensures var r := ProcessCandidate(s, remote, cfg, block).0;
            FromAnswers(s.db, r.db, remote, from, r.calls) && s.calls <= r.calls
  {
    var r := ProcessCandidate(s, remote, cfg, block).0;
    if block.height == Last(s) + 1 && Last(s) in s.db.blocks {
      var previous := s.db.blocks[Last(s)];
      if block.parent == previous.id {
        CommitStores(if !s.known || s.suspicion.Some? then Clear(s) else s, remote, cfg, block, from);
      } else {
        var (checked, check) := ConfirmMismatch(s, remote, cfg, previous);
        if check.Replaced? {
          RecoverStores(checked, remote, cfg, previous.height, previous.height, check.block);
        }
        SameBlocks(s.db, r.db, remote, from, r.calls);
      }
    }
  }

  lemma CandidateAnswered(s: Sys, remote: Remote, tip: Block, from: nat)
    requires from <= s.calls && Answered(remote, from, s.calls, tip)
    ensures var (asked, answer) := Candidate(s, remote, tip);
            asked == s.(calls := asked.calls) && s.calls <= asked.calls
            && (answer.Answer? ==> Answered(remote, from, asked.calls, answer.block))
  {
    if Last(s) + 1 != tip.height {
      var (asked, answer) := Candidate(s, remote, tip);
      if answer.Answer? {
        assert AnsweredAt(remote, from, asked.calls, answer.block, s.calls);
      }
    }
  }

  lemma {:induction false} LoopStores(s: Sys, remote: Remote, cfg: Config, tip: Block, from: nat)
    requires Started(s) && from <= s.calls && Answered(remote, from, s.calls, tip)
    ensures var r := TickLoop(s, remote, cfg, tip).0; FromAnswers(s.db, r.db, remote, from, r.calls) && s.calls <= r.calls
    decreases Suspecting(s), tip.height - Last(s)
  {
    if Last(s) < tip.height {
      var (asked, answer) := Candidate(s, remote, tip);
      CandidateAnswered(s, remote, tip, from);
      TickLoopStep(s, remote, cfg, tip);
      if answer.Answer? {
        ProcessedMakesProgress(asked, remote, cfg, answer.block);
        ProcessStores(asked, remote, cfg, answer.block, from);
        var (processed, outcome) := ProcessCandidate(asked, remote, cfg, answer.block);
        if outcome.Processed? {
          Later(remote, from, s.calls, from, processed.calls, tip);
          LoopStores(processed, remote, cfg, tip, from);
          var r := TickLoop(processed, remote, cfg, tip).0;
          FromBoth(s.db, processed.db, r.db, remote, from, processed.calls, r.calls);
        }
      }
    }
  }

  /** The first poll of an empty store keeps the tip it is given, once its payments can be decoded and stored. */
  lemma FirstPollStoresTheTip(s: Sys, remote: Remote, cfg: Config, tip: Block, seconds: int)
    requires !s.halted && s.db.cursor.None?
    requires remote.tip(s.calls) == Answer(tip) && tip.id != "" && tip.height >= 0 && tip.timestamp >= 1
    requires 1000 * seconds <= tip.timestamp < 1000 * (seconds + 1)
    requires var records := remote.prepare(s.calls + 1, tip.(timestamp := seconds));
             records.Some? && CommitBlock(s.db, tip.(timestamp := seconds), cfg.depth, records.value).Some?
    ensures var after := Tick(s, remote, cfg).0.db;
            tip.height in after.blocks && after.blocks[tip.height] == tip.(timestamp := seconds) && after.cursor.Some? && after.cursor.value.last == tip.height
  {
    var block := tip.(timestamp := seconds);
    assert tip.timestamp / 1000 == seconds;
    CommitShape(s.db, block, cfg.depth, remote.prepare(s.calls + 1, block).value);
  }

  /** After a poll every stored block was stored before, or is what the node answered during the poll. */
  lemma StoredBlocksWereAnswered(s: Sys, remote: Remote, cfg: Config)
    ensures var r := Tick(s, remote, cfg).0; FromAnswers(s.db, r.db, remote, s.calls, r.calls)
  {
    if !s.halted {
      var answer := Parse(remote.tip(s.calls));
      var polled := s.(calls := s.calls + 1);
      if answer.Answer? {
        assert AnsweredAt(remote, s.calls, polled.calls, answer.block, s.calls);
        if !Started(s) {
          CommitStores(polled, remote, cfg, answer.block, s.calls);
        } else if answer.block.height > Last(s) {
          LoopStores(polled, remote, cfg, answer.block, s.calls);
        }
      }
    }
  }
}
