/**
 The delay before a fork is believed. Over every sequence of polls, restarts and other workers' transactions, a
 poll that takes anything back was preceded, in the same process, by another poll that was given the same
 replacement at least one poll interval earlier. The statement speaks of answers and clock readings alone.
 */
module ForkDelay {
  import opened Prelude
  import opened Tables
  import opened Ledger
  import opened Integrity
  import opened Follower
  import opened RetainedChain

  // ----- What can be observed -----

  /** Among the calls from one number to another, one was answered with a block id at a height, and the clock read next. */
  ghost predicate Sighted(remote: Remote, from: nat, to: nat, height: int, id: string, time: int) {
    exists n: nat :: SightedAt(remote, from, to, height, id, time, n)
  }

  predicate SightedAt(remote: Remote, from: nat, to: nat, height: int, id: string, time: int, n: nat) {
    && from <= n && n + 1 < to
    && remote.at(n, height).Answer? && remote.at(n, height).block.height == height && remote.at(n, height).block.id == id
    && remote.clock(n + 1) == time
  }

  /** The cursor did not fall, no stored block within the depth is gone or replaced, and no payment was orphaned. */
  ghost predicate TakesNothingBack(db: Db, after: Db, depth: int) {
    && (db.cursor.Some? ==> after.cursor.Some? && db.cursor.value.last <= after.cursor.value.last)
    && (forall h :: h in db.blocks && after.cursor.Some? && after.cursor.value.last - depth <= h ==>
          h in after.blocks && after.blocks[h] == db.blocks[h])
    && |db.payments| <= |after.payments|
    && (forall i :: 0 <= i < |db.payments| && after.payments[i].status.Orphaned? ==> db.payments[i].status.Orphaned?)
  }

  /** Two polls of one process were given the same replacement of a stored block, an interval apart. */
  ghost predicate TwoSightings(s: Sys, steps: seq<Step>, cfg: Config, i: nat, j: nat)
    requires j < i < |steps|
  {
    && steps[i].Poll? && steps[j].Poll? && (forall k :: j < k < i ==> !steps[k].Restart?)
    && exists height: int, id: string, first: int, second: int ::
         && SightedBy(s, steps, cfg, j, height, id, first) && SightedBy(s, steps, cfg, i, height, id, second)
         && second - first >= cfg.poll
         && Replaces(PerformAll(s, steps[..i], cfg).db, height, id)
  }

  ghost predicate SightedBy(s: Sys, steps: seq<Step>, cfg: Config, k: nat, height: int, id: string, time: int)
    requires k < |steps| && steps[k].Poll?
  {
    Sighted(steps[k].remote, PerformAll(s, steps[..k], cfg).calls, PerformAll(s, steps[..k + 1], cfg).calls, height, id, time)
  }

  // ----- Taking nothing back -----

  lemma NothingTwice(db: Db, mid: Db, after: Db, depth: int)
    requires TakesNothingBack(db, mid, depth) && TakesNothingBack(mid, after, depth)
    requires db.cursor.Some?
    ensures TakesNothingBack(db, after, depth)
  {
  }

  lemma SightingOrphansNothing(db: Db, rec: Payment)
    requires UpsertPayment(db, rec).Some? && !rec.status.Orphaned?
    ensures var after := UpsertPayment(db, rec).value;
            && |db.payments| <= |after.payments|
            && forall i :: 0 <= i < |db.payments| && after.payments[i].status.Orphaned? ==> db.payments[i].status.Orphaned?
  {
    UpsertRowShape(db.payments, rec);
  }

  /** Decoded records are never orphaned. */
  predicate Live(records: seq<Payment>) {
    forall i :: 0 <= i < |records| ==> !records[i].status.Orphaned?
  }

  lemma {:induction false} IngestOrphansNothing(db: Db, records: seq<Payment>)
    requires Live(records) && IngestAll(db, records).Some?
    ensures var after := IngestAll(db, records).value;
            && |db.payments| <= |after.payments|
            && forall i :: 0 <= i < |db.payments| && after.payments[i].status.Orphaned? ==> db.payments[i].status.Orphaned?
  {
    if records != [] {
      var front, last := records[..|records| - 1], records[|records| - 1];
      IngestOrphansNothing(db, front);
      SightingOrphansNothing(IngestAll(db, front).value, MatchRecord(IngestAll(db, front).value, last));
    }
  }

  lemma CommitTakesNothingBack(db: Db, block: Block, depth: int, records: seq<Payment>)
    requires Live(records) && CommitBlock(db, block, depth, records).Some?
    ensures TakesNothingBack(db, CommitBlock(db, block, depth, records).value, depth)
  {
    CommitShape(db, block, depth, records);
    IngestOrphansNothing(db.(blocks := db.blocks[block.height := block]), records);
  }

  ghost predicate LiveRemote(remote: Remote) {
    forall n: nat, block: Block :: remote.prepare(n, block).Some? ==> Live(remote.prepare(n, block).value)
  }

  lemma CommitStepTakesNothingBack(s: Sys, remote: Remote, cfg: Config, block: Block)
    requires LiveRemote(remote)
    ensures var r := CommitStep(s, remote, cfg, block).0;
            TakesNothingBack(s.db, r.db, cfg.depth) && r.suspicion == s.suspicion && s.calls <= r.calls
  {
    var records := remote.prepare(s.calls, block);
    if records.Some? && CommitBlock(s.db, block, cfg.depth, records.value).Some? {
      CommitTakesNothingBack(s.db, block, cfg.depth, records.value);
    }
  }

  // ----- One poll -----

  /** The suspicion after some calls is the one before, none, or one that was just sighted. */
  ghost predicate Remembers(s: Sys, remote: Remote, r: Sys) {
    && s.calls <= r.calls
    && (r.suspicion.Some? && r.suspicion != s.suspicion ==>
          var p := r.suspicion.value; Sighted(remote, s.calls, r.calls, p.height, p.replacementId, p.firstSeen))
  }

  /** The last stored block is at this height, under another id. */
  predicate Replaces(db: Db, height: int, id: string) {
    && db.cursor.Some? && db.cursor.value.last in db.blocks
    && db.blocks[db.cursor.value.last].height == height && db.blocks[db.cursor.value.last].id != id
  }

  /** The suspicion was sighted again in time, and is not the stored block. */
  ghost predicate SightedAgain(s: Sys, remote: Remote, r: Sys, poll: int) {
    && s.suspicion.Some? && Replaces(s.db, s.suspicion.value.height, s.suspicion.value.replacementId)
    && exists time: int :: Sighted(remote, s.calls, r.calls, s.suspicion.value.height, s.suspicion.value.replacementId, time)
                           && time - s.suspicion.value.firstSeen >= poll
  }

  lemma SightedLonger(remote: Remote, from: nat, to: nat, earlier: nat, later: nat, height: int, id: string, time: int)
    requires Sighted(remote, from, to, height, id, time) && earlier <= from && to <= later
    ensures Sighted(remote, earlier, later, height, id, time)
  {
    var n: nat :| SightedAt(remote, from, to, height, id, time, n);
    assert SightedAt(remote, earlier, later, height, id, time, n);
  }

  lemma MismatchRemembers(s: Sys, remote: Remote, cfg: Config, previous: Block)
    requires Started(s) && Last(s) in s.db.blocks && s.db.blocks[Last(s)] == previous
    ensures var (r, check) := ConfirmMismatch(s, remote, cfg, previous);
            && Remembers(s, remote, r) && TakesNothingBack(s.db, r.db, cfg.depth)
            && (check.Replaced? ==> SightedAgain(s, remote, r, cfg.poll))
  {
    var answer := remote.at(s.calls, previous.height);
    var (r, check) := ConfirmMismatch(s, remote, cfg, previous);
    if Parse(answer).Answer? && Parse(answer).block.height == previous.height && answer.block.id != previous.id {
      assert SightedAt(remote, s.calls, r.calls, previous.height, answer.block.id, remote.clock(s.calls + 1), s.calls);
      assert Sighted(remote, s.calls, r.calls, previous.height, answer.block.id, remote.clock(s.calls + 1));
    }
  }

  lemma {:induction false} RecoverKeepsSuspicion(s: Sys, remote: Remote, cfg: Config, last: int, height: int, replacement: Block)
    requires height <= last
    ensures var (r, outcome) := RecoverReorg(s, remote, cfg, last, height, replacement);
            r.suspicion == s.suspicion && s.calls <= r.calls && (!outcome.Processed? ==> r.db == s.db)
    decreases cfg.depth + 1 - (last - height)
  {
    if height in s.db.blocks && replacement.id != s.db.blocks[height].id && last - height + 1 <= cfg.depth && height != 0 {
      var answer := Parse(remote.at(s.calls, height - 1));
      if answer.Answer? && answer.block.height == height - 1 {
        RecoverKeepsSuspicion(s.(calls := s.calls + 1), remote, cfg, last, height - 1, answer.block);
      }
    }
  }

  lemma SightedAgainLonger(s: Sys, remote: Remote, mid: Sys, r: Sys, poll: int)
    requires SightedAgain(s, remote, mid, poll) && mid.calls <= r.calls
    ensures SightedAgain(s, remote, r, poll)
  {
    var p := s.suspicion.value;
    var time: int :| Sighted(remote, s.calls, mid.calls, p.height, p.replacementId, time) && time - p.firstSeen >= poll;
    SightedLonger(remote, s.calls, mid.calls, s.calls, r.calls, p.height, p.replacementId, time);
  }

  lemma ProcessRemembers(s: Sys, remote: Remote, cfg: Config, block: Block)
    requires Started(s) && LiveRemote(remote)
    ensures var (r, outcome) := ProcessCandidate(s, remote, cfg, block);
            && Remembers(s, remote, r)
            && (outcome.Processed? ==> r.suspicion.None?)
            && (TakesNothingBack(s.db, r.db, cfg.depth) || SightedAgain(s, remote, r, cfg.poll))
  {
    if block.height == Last(s) + 1 && Last(s) in s.db.blocks {
      var previous := s.db.blocks[Last(s)];
      if block.parent != previous.id {
        MismatchRemembers(s, remote, cfg, previous);
        var (checked, check) := ConfirmMismatch(s, remote, cfg, previous);
        if check.Replaced? {
          assert checked.suspicion == s.suspicion;
          RecoverKeepsSuspicion(checked, remote, cfg, previous.height, previous.height, check.block);
          SightedAgainLonger(s, remote, checked, ProcessCandidate(s, remote, cfg, block).0, cfg.poll);
        }
      } else {
        CommitStepTakesNothingBack(if !s.known || s.suspicion.Some? then Clear(s) else s, remote, cfg, block);
      }
    }
  }

  /** Follows the calls of two stretches of one poll. */
  lemma RemembersTwice(s: Sys, remote: Remote, mid: Sys, r: Sys)
    requires Remembers(s, remote, mid) && mid.suspicion.None? && Remembers(mid, remote, r)
    ensures Remembers(s, remote, r)
  {
    if r.suspicion.Some? {
      var p := r.suspicion.value;
      SightedLonger(remote, mid.calls, r.calls, s.calls, r.calls, p.height, p.replacementId, p.firstSeen);
    }
  }

  lemma AskingRemembers(s: Sys, remote: Remote, tip: Block)
    ensures var asked := Candidate(s, remote, tip).0; asked == s.(calls := asked.calls) && s.calls <= asked.calls
  {
  }

  /** Calls made before belong to the poll too. */
  lemma FromEarlier(s: Sys, asked: Sys, remote: Remote, cfg: Config, r: Sys)
    requires asked == s.(calls := asked.calls) && s.calls <= asked.calls && Remembers(asked, remote, r)
    requires TakesNothingBack(asked.db, r.db, cfg.depth) || SightedAgain(asked, remote, r, cfg.poll)
    ensures Remembers(s, remote, r) && (TakesNothingBack(s.db, r.db, cfg.depth) || SightedAgain(s, remote, r, cfg.poll))
  {
    if r.suspicion.Some? && r.suspicion != s.suspicion {
      var p := r.suspicion.value;
      SightedLonger(remote, asked.calls, r.calls, s.calls, r.calls, p.height, p.replacementId, p.firstSeen);
    }
    if SightedAgain(asked, remote, r, cfg.poll) {
      var p := s.suspicion.value;
      var time: int :| Sighted(remote, asked.calls, r.calls, p.height, p.replacementId, time) && time - p.firstSeen >= cfg.poll;
      SightedLonger(remote, asked.calls, r.calls, s.calls, r.calls, p.height, p.replacementId, time);
    }
  }

  lemma {:induction false} LoopRemembers(s: Sys, remote: Remote, cfg: Config, tip: Block)
    requires Started(s) && LiveRemote(remote)
    ensures var r := TickLoop(s, remote, cfg, tip).0;
            Remembers(s, remote, r) && (TakesNothingBack(s.db, r.db, cfg.depth) || SightedAgain(s, remote, r, cfg.poll))
    decreases Suspecting(s), tip.height - Last(s)
  {
    if Last(s) < tip.height {
      var (asked, answer) := Candidate(s, remote, tip);
      TickLoopStep(s, remote, cfg, tip);
      AskingRemembers(s, remote, tip);
      if answer.Answer? {
        ProcessedMakesProgress(asked, remote, cfg, answer.block);
        ProcessRemembers(asked, remote, cfg, answer.block);
        var (processed, outcome) := ProcessCandidate(asked, remote, cfg, answer.block);
        FromEarlier(s, asked, remote, cfg, processed);
        if outcome.Processed? {
          LoopRemembers(processed, remote, cfg, tip);
          RoundsRemember(s, remote, cfg, processed, TickLoop(processed, remote, cfg, tip).0);
        }
      }
    }
  }

  lemma RoundsRemember(s: Sys, remote: Remote, cfg: Config, mid: Sys, r: Sys)
    requires Started(s) && mid.suspicion.None? && Remembers(s, remote, mid) && Remembers(mid, remote, r)
    requires TakesNothingBack(s.db, mid.db, cfg.depth) || SightedAgain(s, remote, mid, cfg.poll)
    requires TakesNothingBack(mid.db, r.db, cfg.depth) || SightedAgain(mid, remote, r, cfg.poll)
    ensures Remembers(s, remote, r) && (TakesNothingBack(s.db, r.db, cfg.depth) || SightedAgain(s, remote, r, cfg.poll))
  {
    RemembersTwice(s, remote, mid, r);
    if SightedAgain(s, remote, mid, cfg.poll) {
      SightedAgainLonger(s, remote, mid, r, cfg.poll);
    } else {
      NothingTwice(s.db, mid.db, r.db, cfg.depth);
    }
  }

  /** What a poll remembers it was told, and it takes something back only on being told again in time. */
  lemma PollRemembers(s: Sys, remote: Remote, cfg: Config)
    requires LiveRemote(remote)
    ensures var r := Tick(s, remote, cfg).0;
            Remembers(s, remote, r) && (TakesNothingBack(s.db, r.db, cfg.depth) || SightedAgain(s, remote, r, cfg.poll))
  {
    if !s.halted {
      var answer := Parse(remote.tip(s.calls));
      var polled := s.(calls := s.calls + 1);
      if answer.Answer? {
        if !Started(s) {
          CommitStepTakesNothingBack(polled, remote, cfg, answer.block);
        } else if answer.block.height > Last(s) {
          LoopRemembers(polled, remote, cfg, answer.block);
          FromEarlier(s, polled, remote, cfg, TickLoop(polled, remote, cfg, answer.block).0);
        }
      }
    }
  }

  // ----- Every sequence of steps -----

  /** The suspicion at a step was told to an earlier poll of the same process. */
  ghost predicate Recalls(s: Sys, steps: seq<Step>, cfg: Config, n: nat)
    requires n <= |steps|
  {
    var now := PerformAll(s, steps[..n], cfg);
    now.suspicion.Some? ==> exists j: nat :: j < n && RecallsFrom(s, steps, cfg, n, j, now.suspicion.value)
  }

  ghost predicate RecallsFrom(s: Sys, steps: seq<Step>, cfg: Config, n: nat, j: nat, p: Suspicion)
    requires j < n <= |steps|
  {
    && steps[j].Poll? && (forall k :: j < k < n ==> !steps[k].Restart?)
    && SightedBy(s, steps, cfg, j, p.height, p.replacementId, p.firstSeen)
  }

  lemma OneStep(s: Sys, steps: seq<Step>, cfg: Config, n: nat)
    requires n < |steps|
    ensures PerformAll(s, steps[..n + 1], cfg) == Perform(PerformAll(s, steps[..n], cfg), steps[n], cfg)
  {
    assert steps[..n + 1][..n] == steps[..n];
  }

  lemma RecallsLonger(s: Sys, steps: seq<Step>, cfg: Config, n: nat, longer: nat, p: Suspicion)
    requires n < |steps| && !steps[n].Restart? && longer == n + 1
    requires exists j: nat :: j < n && RecallsFrom(s, steps, cfg, n, j, p)
    ensures exists j: nat :: j < longer && RecallsFrom(s, steps, cfg, longer, j, p)
  {
    var j: nat :| j < n && RecallsFrom(s, steps, cfg, n, j, p);
    assert RecallsFrom(s, steps, cfg, longer, j, p);
  }

  lemma RecallsOneMore(s: Sys, steps: seq<Step>, cfg: Config, n: nat)
    requires n < |steps| && Recalls(s, steps, cfg, n)
    requires steps[n].Poll? ==> LiveRemote(steps[n].remote)
    ensures Recalls(s, steps, cfg, n + 1)
  {
    OneStep(s, steps, cfg, n);
    var before, now := PerformAll(s, steps[..n], cfg), PerformAll(s, steps[..n + 1], cfg);
    if steps[n].Poll? {
      PollRemembers(before, steps[n].remote, cfg);
    }
    if now.suspicion.Some? {
      if now.suspicion == before.suspicion {
        RecallsLonger(s, steps, cfg, n, n + 1, now.suspicion.value);
      } else {
        assert RecallsFrom(s, steps, cfg, n + 1, n, now.suspicion.value);
      }
    }
  }

  lemma {:induction false} AlwaysRecalls(s: Sys, steps: seq<Step>, cfg: Config, n: nat)
    requires n <= |steps| && s.suspicion.None?
    requires forall i :: 0 <= i < |steps| && steps[i].Poll? ==> LiveRemote(steps[i].remote)
    ensures Recalls(s, steps, cfg, n)
  {
    if n == 0 {
      assert steps[..0] == [];
    } else {
      AlwaysRecalls(s, steps, cfg, n - 1);
      RecallsOneMore(s, steps, cfg, n - 1);
    }
  }

  /**
   In every sequence of polls, restarts and other transactions, a poll takes something back only when an earlier
   poll of the same process was given the same block id at the same height, at least one poll interval before by
   the local clock.
   */
  lemma ForksNeedTwoSightings(s: Sys, steps: seq<Step>, cfg: Config, i: nat)
    requires i < |steps| && steps[i].Poll? && s.suspicion.None?
    requires forall k :: 0 <= k < |steps| && steps[k].Poll? ==> LiveRemote(steps[k].remote)
    ensures TakesNothingBack(PerformAll(s, steps[..i], cfg).db, PerformAll(s, steps[..i + 1], cfg).db, cfg.depth)
            || exists j: nat :: j < i && TwoSightings(s, steps, cfg, i, j)
  {
    AlwaysRecalls(s, steps, cfg, i);
    OneStep(s, steps, cfg, i);
    var before, after := PerformAll(s, steps[..i], cfg), PerformAll(s, steps[..i + 1], cfg);
    PollRemembers(before, steps[i].remote, cfg);
    if !TakesNothingBack(before.db, after.db, cfg.depth) {
      var p := before.suspicion.value;
      var j: nat :| j < i && RecallsFrom(s, steps, cfg, i, j, p);
      var time: int :| Sighted(steps[i].remote, before.calls, after.calls, p.height, p.replacementId, time) && time - p.firstSeen >= cfg.poll;
      assert SightedBy(s, steps, cfg, j, p.height, p.replacementId, p.firstSeen);
      assert SightedBy(s, steps, cfg, i, p.height, p.replacementId, time);
      assert TwoSightings(s, steps, cfg, i, j);
    }
  }
}
