/**
 Against a remote that answers from one fixed chain, the walk back finds exactly the greatest common height,
 and two polls at least one poll interval apart bring the follower to the remote's tip.
 */
module Convergence {
  import opened Prelude
  import opened Tables
  import opened Ledger
  import opened Integrity
  import opened Follower
  import opened RetainedChain

  type Chain = int -> Block

  /** Heights number the chain, each block names its predecessor, and every block has an id. */
  ghost predicate Linked(chain: Chain, tip: int) {
    && (forall h :: 0 <= h <= tip ==> chain(h).height == h && chain(h).id != "")
    && (forall h :: 0 < h <= tip ==> chain(h).parent == chain(h - 1).id)
  }

  ghost predicate Answers(remote: Remote, chain: Chain, tip: int) {
    && (forall n: nat :: Parse(remote.tip(n)) == Answer(chain(tip)))
    && (forall n: nat, h: int :: 0 <= h <= tip ==> Parse(remote.at(n, h)) == Answer(chain(h)))
  }

  ghost predicate Fixed(remote: Remote, chain: Chain, tip: int) {
    tip >= 0 && Linked(chain, tip) && Answers(remote, chain, tip)
  }

  // ----- The ancestor walk -----

  predicate Agree(db: Db, chain: Chain, h: int) {
    h in db.blocks && db.blocks[h].id == chain(h).id
  }

  /** The greatest retained height at or below h where stored and remote ids agree, or -1. */
  function HighestAgreement(db: Db, chain: Chain, h: int): int
    decreases h + 1
  {
    if h < 0 || h !in db.blocks then -1
    else if db.blocks[h].id == chain(h).id then h
    else HighestAgreement(db, chain, h - 1)
  }

  lemma {:induction false} HighestIsGreatest(db: Db, chain: Chain, low: int, depth: int, h: int)
    requires Spans(db, low, depth) && h <= db.cursor.value.last
    ensures var a := HighestAgreement(db, chain, h);
            && -1 <= a <= Max(h, -1)
            && (a >= 0 ==> Agree(db, chain, a))
            && (forall k :: a < k <= h && 0 <= k ==> !Agree(db, chain, k))
    decreases h + 1
  {
    if h >= 0 && h in db.blocks && db.blocks[h].id != chain(h).id {
      HighestIsGreatest(db, chain, low, depth, h - 1);
    }
  }

  /** One step back down a fixed chain, or the end of the walk. */
  lemma WalkStep(s: Sys, remote: Remote, cfg: Config, chain: Chain, tip: int, height: int)
    requires Fixed(remote, chain, tip)
    requires Started(s) && height <= Last(s) <= tip && 0 <= height
    ensures var walk := RecoverReorg(s, remote, cfg, Last(s), height, chain(height));
            if height !in s.db.blocks then walk == (s.(halted := true), Failed)
            else if s.db.blocks[height].id == chain(height).id then
              walk == if RewindChain(s.db, height).None? then (s, Failed) else (s.(db := RewindChain(s.db, height).value), Processed)
            else if Last(s) - height + 1 > cfg.depth || height == 0 then walk == (s.(halted := true), Failed)
            else walk == RecoverReorg(s.(calls := s.calls + 1), remote, cfg, Last(s), height - 1, chain(height - 1))
  {
    if height > 0 {
      assert Parse(remote.at(s.calls, height - 1)) == Answer(chain(height - 1));
    }
  }

  lemma {:induction false} WalkFrom(s: Sys, remote: Remote, cfg: Config, chain: Chain, tip: int, height: int)
    requires Fixed(remote, chain, tip)
    requires Started(s) && height <= Last(s) <= tip && 0 <= height
    requires Last(s) - height <= cfg.depth
    ensures var (r, outcome) := RecoverReorg(s, remote, cfg, Last(s), height, chain(height));
            var a := HighestAgreement(s.db, chain, height);
            if a < 0 || Last(s) - a > cfg.depth then r == s.(halted := true, calls := r.calls) && outcome.Failed?
            else r.halted == s.halted
                 && (a < Last(s) ==> RewindChain(s.db, a).Some? && outcome.Processed?
                                     && r == s.(db := RewindChain(s.db, a).value, calls := r.calls))
    decreases height
  {
    WalkStep(s, remote, cfg, chain, tip, height);
    assert HighestAgreement(s.db, chain, height)
        == if height in s.db.blocks && s.db.blocks[height].id != chain(height).id then HighestAgreement(s.db, chain, height - 1)
           else if height in s.db.blocks then height else -1;
    if height in s.db.blocks && s.db.blocks[height].id != chain(height).id {
      HighestFrame(s.db, chain, height - 1);
      if Last(s) - height + 1 <= cfg.depth && height > 0 {
        WalkFrom(s.(calls := s.calls + 1), remote, cfg, chain, tip, height - 1);
      }
    }
  }

  lemma {:induction false} HighestFrame(db: Db, chain: Chain, h: int)
    ensures HighestAgreement(db, chain, h) <= Max(h, -1)
    decreases h + 1
  {
    if h >= 0 && h in db.blocks && db.blocks[h].id != chain(h).id {
      HighestFrame(db, chain, h - 1);
    }
  }

  /**
   Walking back from a block the remote replaced rewinds to the greatest height where both chains agree, when
   that height is retained and at most reorgDepth below the cursor; otherwise it halts and leaves the store alone.
   */
  lemma AncestorWalkIsExact(s: Sys, remote: Remote, cfg: Config, chain: Chain, tip: int)
    requires Fixed(remote, chain, tip)
    requires Started(s) && Retained(s.db, cfg.depth) && cfg.depth >= 0 && Last(s) <= tip
    requires !Agree(s.db, chain, Last(s))
    ensures var (r, outcome) := RecoverReorg(s, remote, cfg, Last(s), Last(s), chain(Last(s)));
            if outcome.Processed? then exists a :: ForkPoint(s, cfg, chain, a) && RewindChain(s.db, a) == Some(r.db)
            else r.halted && r.db == s.db && forall a :: !ForkPoint(s, cfg, chain, a)
  {
    var low :| Spans(s.db, low, cfg.depth);
    var a := HighestAgreement(s.db, chain, Last(s));
    HighestIsGreatest(s.db, chain, low, cfg.depth, Last(s));
    WalkFrom(s, remote, cfg, chain, tip, Last(s));
    assert a != Last(s);
    if a >= 0 && Last(s) - a <= cfg.depth {
      assert ForkPoint(s, cfg, chain, a);
    } else {
      forall k ensures !ForkPoint(s, cfg, chain, k) {
        assert ForkPoint(s, cfg, chain, k) ==> k <= a;
      }
    }
  }

  /** The greatest height where stored and remote ids agree, if it is within the reorg depth. */
  ghost predicate ForkPoint(s: Sys, cfg: Config, chain: Chain, a: int) {
    && 0 <= a <= Last(s) && Last(s) - a <= cfg.depth
    && Agree(s.db, chain, a)
    && (forall k :: a < k <= Last(s) ==> !Agree(s.db, chain, k))
  }

  // ----- Equal chains -----

  ghost predicate Equal(db: Db, chain: Chain) {
    forall h :: h in db.blocks ==> db.blocks[h] == chain(h)
  }

  /** A block id stands for one block, its parent included. */
  ghost predicate IdsNameBlocks(db: Db, chain: Chain) {
    forall h :: h in db.blocks && db.blocks[h].id == chain(h).id ==> db.blocks[h] == chain(h)
  }

  /** Agreement at one height carries down to every retained block below it. */
  lemma {:induction false} AgreementCarriesDown(db: Db, chain: Chain, tip: int, low: int, depth: int, a: int, h: int)
    requires Spans(db, low, depth) && Linked(chain, tip) && IdsNameBlocks(db, chain)
    requires low <= h <= a <= db.cursor.value.last && a <= tip
    requires Agree(db, chain, a)
    ensures db.blocks[h] == chain(h)
    decreases a - h
  {
    if h < a {
      AgreementCarriesDown(db, chain, tip, low, depth, a, h + 1);
      assert db.blocks[h + 1].parent == db.blocks[h + 1 - 1].id;
      assert chain(h + 1).parent == chain(h + 1 - 1).id;
    }
  }

  // ----- Commits succeed -----

  /** The decoder answers, and its records name existing addresses and no order yet. */
  ghost predicate Decodes(remote: Remote, addresses: nat) {
    forall n: nat, block: Block :: remote.prepare(n, block).Some? && Undecided(remote.prepare(n, block).value, addresses)
  }

  ghost predicate Undecided(records: seq<Payment>, addresses: nat) {
    forall i :: 0 <= i < |records| ==>
                  records[i].orderId.None? && (records[i].addressId.Some? ==> records[i].addressId.value < addresses)
  }

  lemma {:induction false} IngestSucceeds(db: Db, records: seq<Payment>)
    requires Undecided(records, |db.addresses|)
    ensures IngestAll(db, records).Some?
  {
    if records != [] {
      IngestSucceeds(db, records[..|records| - 1]);
      IngestKeepsChain(db, records[..|records| - 1]);
    }
  }

  lemma CommitSucceeds(s: Sys, remote: Remote, cfg: Config, block: Block)
    requires Started(s) && Retained(s.db, cfg.depth) && cfg.depth > 0
    requires block.height == Last(s) + 1
    requires Decodes(remote, |s.db.addresses|)
    ensures var (r, outcome) := CommitStep(s, remote, cfg, block);
            && outcome.Processed? && Last(r) == Last(s) + 1
            && r == s.(db := r.db, calls := r.calls)
            && |r.db.addresses| == |s.db.addresses|
            && (forall h :: h in r.db.blocks ==>
                  (h == block.height || h in s.db.blocks)
                  && r.db.blocks[h] == (if h == block.height then block else s.db.blocks[h]))
            && block.height in r.db.blocks
  {
    var low :| Spans(s.db, low, cfg.depth);
    var records := remote.prepare(s.calls, block).value;
    var inserted := s.db.(blocks := s.db.blocks[block.height := block]);
    IngestSucceeds(inserted, records);
    CommitShape(s.db, block, cfg.depth, records);
    IngestKeepsChain(inserted, records);
  }

  // ----- Catching up -----

  ghost predicate Ready(s: Sys, cfg: Config, chain: Chain, tip: int) {
    Started(s) && Retained(s.db, cfg.depth) && cfg.depth > 0 && Last(s) <= tip
  }

  /** One candidate of an unforked chain is committed. */
  lemma ExtendByOne(s: Sys, remote: Remote, cfg: Config, chain: Chain, tip: int)
    requires Fixed(remote, chain, tip) && Ready(s, cfg, chain, tip) && Last(s) < tip
    requires Equal(s.db, chain) && Decodes(remote, |s.db.addresses|)
    ensures var (r, outcome) := ProcessCandidate(s, remote, cfg, chain(Last(s) + 1));
            && outcome.Processed? && Ready(r, cfg, chain, tip) && Last(r) == Last(s) + 1
            && Equal(r.db, chain) && |r.db.addresses| == |s.db.addresses| && r.halted == s.halted
  {
    var low :| Spans(s.db, low, cfg.depth);
    var block := chain(Last(s) + 1);
    assert block.parent == chain(Last(s) + 1 - 1).id;
    var start := if !s.known || s.suspicion.Some? then Clear(s) else s;
    ChainFrame(s.db, start.db, cfg.depth);
    CommitSucceeds(start, remote, cfg, block);
    CommitStepRetains(start, remote, cfg, block);
  }

  /** The next candidate is the remote's block above the cursor; asking for it changes only the call count. */
  lemma NextCandidate(s: Sys, remote: Remote, cfg: Config, chain: Chain, tip: int)
    requires Fixed(remote, chain, tip) && Ready(s, cfg, chain, tip) && Last(s) < tip
    ensures var (asked, answer) := Candidate(s, remote, chain(tip));
            answer == Answer(chain(Last(s) + 1)) && asked == s.(calls := asked.calls)
  {
    var low :| Spans(s.db, low, cfg.depth);
    assert chain(Last(s) + 1).parent == chain(Last(s) + 1 - 1).id;
  }

  /** A processed candidate is followed by the rest of the loop. */
  lemma RoundGoesOn(s: Sys, remote: Remote, cfg: Config, tip: Block, asked: Sys, block: Block)
    requires Started(s) && Last(s) < tip.height && Candidate(s, remote, tip) == (asked, Answer(block))
    requires ProcessCandidate(asked, remote, cfg, block).1.Processed?
    ensures var after := ProcessCandidate(asked, remote, cfg, block).0;
            Started(after) && TickLoop(s, remote, cfg, tip) == TickLoop(after, remote, cfg, tip)
  {
    TickLoopStep(s, remote, cfg, tip);
  }

  /** Asking for a block leaves the follower ready. */
  lemma StillReady(s: Sys, asked: Sys, cfg: Config, chain: Chain, tip: int)
    requires Ready(s, cfg, chain, tip) && asked == s.(calls := asked.calls)
    ensures Ready(asked, cfg, chain, tip) && Last(asked) == Last(s)
  {
    var low :| Spans(s.db, low, cfg.depth);
    assert Spans(asked.db, low, cfg.depth);
  }

  lemma {:induction false} CatchUp(s: Sys, remote: Remote, cfg: Config, chain: Chain, tip: int)
    requires Fixed(remote, chain, tip) && Ready(s, cfg, chain, tip)
    requires Equal(s.db, chain) && Decodes(remote, |s.db.addresses|)
    ensures var (r, outcome) := TickLoop(s, remote, cfg, chain(tip));
            outcome.Waiting? && Arrived(r, cfg, chain, tip) && r.halted == s.halted
    decreases tip - Last(s)
  {
    if Last(s) < tip {
      var asked, block := Candidate(s, remote, chain(tip)).0, chain(Last(s) + 1);
      var after := ProcessCandidate(asked, remote, cfg, block).0;
      NextCandidate(s, remote, cfg, chain, tip);
      StillReady(s, asked, cfg, chain, tip);
      ExtendByOne(asked, remote, cfg, chain, tip);
      RoundGoesOn(s, remote, cfg, chain(tip), asked, block);
      CatchUp(after, remote, cfg, chain, tip);
    }
  }

  /** The follower is at the remote's tip, and every retained block is the remote's. */
  ghost predicate Arrived(s: Sys, cfg: Config, chain: Chain, tip: int) {
    Ready(s, cfg, chain, tip) && Last(s) == tip && Equal(s.db, chain)
  }

  // ----- A fork -----

  ghost predicate Forked(s: Sys, cfg: Config, chain: Chain, tip: int) {
    && Ready(s, cfg, chain, tip) && Last(s) < tip
    && !Agree(s.db, chain, Last(s))
    && IdsNameBlocks(s.db, chain)
    && HighestAgreement(s.db, chain, Last(s)) >= 0
  }

  /** Resolving a confirmed fork leaves the follower on the remote's chain at the fork point. */
  lemma ResolvedFork(s: Sys, remote: Remote, cfg: Config, chain: Chain, tip: int)
    requires Fixed(remote, chain, tip) && Forked(s, cfg, chain, tip)
    ensures var (r, outcome) := RecoverReorg(s, remote, cfg, Last(s), Last(s), chain(Last(s)));
            && outcome.Processed? && r.halted == s.halted
            && Ready(Clear(r), cfg, chain, tip) && Equal(Clear(r).db, chain) && r.db.addresses == s.db.addresses
  {
    var low :| Spans(s.db, low, cfg.depth);
    var a := HighestAgreement(s.db, chain, Last(s));
    HighestIsGreatest(s.db, chain, low, cfg.depth, Last(s));
    WalkFrom(s, remote, cfg, chain, tip, Last(s));
    var rewound := RewindChain(s.db, a).value;
    RewindRetains(s.db, a, cfg.depth);
    var r := RecoverReorg(s, remote, cfg, Last(s), Last(s), chain(Last(s))).0;
    ChainFrame(rewound, Clear(r).db, cfg.depth);
    forall h | h in rewound.blocks ensures rewound.blocks[h] == chain(h) {
      AgreementCarriesDown(s.db, chain, tip, low, cfg.depth, a, h);
    }
  }

  /** The suspicion a poll at time t would record or keep for the replaced tip. */
  predicate SuspectsSince(s: Sys, chain: Chain, t: int) {
    s.suspicion.Some? && s.suspicion.value.height == Last(s) && s.suspicion.value.replacementId == chain(Last(s)).id
    && s.suspicion.value.firstSeen <= t
  }

  lemma MismatchOutcome(s: Sys, remote: Remote, cfg: Config, chain: Chain, tip: int, t: int)
    requires Fixed(remote, chain, tip) && Forked(s, cfg, chain, tip)
    requires forall n: nat :: remote.clock(n) <= t
    requires s.suspicion.Some? ==> s.suspicion.value.firstSeen <= t
    ensures var (r, check) := ConfirmMismatch(s, remote, cfg, s.db.blocks[Last(s)]);
            && r.db.addresses == s.db.addresses && r.halted == s.halted
            && (check == Replaced(chain(Last(s))) || check.Unconfirmed?)
            && (check.Replaced? ==> r.db == s.db)
            && (check.Unconfirmed? ==> SuspectsSince(r, chain, t) && Forked(r, cfg, chain, tip))
  {
    var low :| Spans(s.db, low, cfg.depth);
    assert Parse(remote.at(s.calls, Last(s))) == Answer(chain(Last(s)));
    var r := ConfirmMismatch(s, remote, cfg, s.db.blocks[Last(s)]).0;
    ChainFrame(s.db, r.db, cfg.depth);
    HighestSame(s.db, r.db, chain, Last(s));
  }

  lemma {:induction false} HighestSame(db: Db, after: Db, chain: Chain, h: int)
    requires after.blocks == db.blocks
    ensures HighestAgreement(after, chain, h) == HighestAgreement(db, chain, h)
    decreases h + 1
  {
    if h >= 0 && h in db.blocks && db.blocks[h].id != chain(h).id {
      HighestSame(db, after, chain, h - 1);
    }
  }

  /** A candidate on a forked chain either waits for the second sighting or resolves the fork. */
  lemma ForkedCandidate(s: Sys, remote: Remote, cfg: Config, chain: Chain, tip: int)
    requires Fixed(remote, chain, tip) && Forked(s, cfg, chain, tip)
    requires ConfirmMismatch(s, remote, cfg, s.db.blocks[Last(s)]).1 == Replaced(chain(Last(s)))
    ensures var (r, outcome) := ProcessCandidate(s, remote, cfg, chain(Last(s) + 1));
            && outcome.Processed? && Ready(r, cfg, chain, tip) && Equal(r.db, chain)
            && r.halted == s.halted && r.db.addresses == s.db.addresses
  {
    var low :| Spans(s.db, low, cfg.depth);
    var checked := ConfirmMismatch(s, remote, cfg, s.db.blocks[Last(s)]).0;
    assert checked.db == s.db;
    assert chain(Last(s) + 1).parent == chain(Last(s) + 1 - 1).id;
    ResolvedFork(checked, remote, cfg, chain, tip);
  }

  /** A poll whose first candidate resolves the fork goes on to the tip. */
  lemma ResolvedPoll(s: Sys, remote: Remote, cfg: Config, chain: Chain, tip: int)
    requires Fixed(remote, chain, tip) && Forked(s, cfg, chain, tip) && Decodes(remote, |s.db.addresses|)
    requires var asked := Candidate(s, remote, chain(tip)).0;
             Last(s) in s.db.blocks && ConfirmMismatch(asked, remote, cfg, s.db.blocks[Last(s)]).1 == Replaced(chain(Last(s)))
    ensures var (r, outcome) := TickLoop(s, remote, cfg, chain(tip));
            outcome.Waiting? && r.halted == s.halted && Arrived(r, cfg, chain, tip)
  {
    var (asked, answer) := Candidate(s, remote, chain(tip));
    assert answer == Answer(chain(Last(s) + 1));
    ForkedCandidate(asked, remote, cfg, chain, tip);
    TickLoopStep(s, remote, cfg, chain(tip));
    CatchUp(ProcessCandidate(asked, remote, cfg, answer.block).0, remote, cfg, chain, tip);
  }

  /** A poll of a forked follower waits, remembering the replacement, or arrives at the tip. */
  lemma ForkedPoll(s: Sys, remote: Remote, cfg: Config, chain: Chain, tip: int, t: int)
    requires Fixed(remote, chain, tip) && Forked(s, cfg, chain, tip) && Decodes(remote, |s.db.addresses|)
    requires forall n: nat :: remote.clock(n) <= t
    requires s.suspicion.Some? ==> s.suspicion.value.firstSeen <= t
    ensures var (r, outcome) := TickLoop(s, remote, cfg, chain(tip));
            && outcome.Waiting? && r.halted == s.halted
            && (Arrived(r, cfg, chain, tip)
                || (Forked(r, cfg, chain, tip) && SuspectsSince(r, chain, t) && |r.db.addresses| == |s.db.addresses|))
  {
    var asked := Candidate(s, remote, chain(tip)).0;
    NextCandidate(s, remote, cfg, chain, tip);
    var low :| Spans(s.db, low, cfg.depth);
    MismatchOutcome(asked, remote, cfg, chain, tip, t);
    if ConfirmMismatch(asked, remote, cfg, asked.db.blocks[Last(asked)]).1.Replaced? {
      ResolvedPoll(s, remote, cfg, chain, tip);
    } else {
      WaitingPoll(s, remote, cfg, chain, tip);
    }
  }

  /** A poll that only suspects ends with what the check left behind. */
  lemma WaitingPoll(s: Sys, remote: Remote, cfg: Config, chain: Chain, tip: int)
    requires Fixed(remote, chain, tip) && Forked(s, cfg, chain, tip)
    requires var asked := Candidate(s, remote, chain(tip)).0;
             Last(s) in s.db.blocks && ConfirmMismatch(asked, remote, cfg, s.db.blocks[Last(s)]).1.Unconfirmed?
    ensures var asked := Candidate(s, remote, chain(tip)).0;
            TickLoop(s, remote, cfg, chain(tip)) == (ConfirmMismatch(asked, remote, cfg, s.db.blocks[Last(s)]).0, Waiting)
  {
    var (asked, answer) := Candidate(s, remote, chain(tip));
    assert answer == Answer(chain(Last(s) + 1));
    assert chain(Last(s) + 1).parent == chain(Last(s) + 1 - 1).id;
    var low :| Spans(s.db, low, cfg.depth);
    TickLoopStep(s, remote, cfg, chain(tip));
  }

  /** A poll at least one poll interval after the replacement was first seen arrives at the tip. */
  lemma SecondSighting(s: Sys, remote: Remote, cfg: Config, chain: Chain, tip: int, t: int)
    requires Fixed(remote, chain, tip) && Forked(s, cfg, chain, tip) && Decodes(remote, |s.db.addresses|)
    requires SuspectsSince(s, chain, t)
    requires forall n: nat :: t + cfg.poll <= remote.clock(n)
    ensures var (r, outcome) := TickLoop(s, remote, cfg, chain(tip));
            outcome.Waiting? && r.halted == s.halted && Arrived(r, cfg, chain, tip)
  {
    var asked := Candidate(s, remote, chain(tip)).0;
    var low :| Spans(s.db, low, cfg.depth);
    assert Parse(remote.at(asked.calls, Last(s))) == Answer(chain(Last(s)));
    ResolvedPoll(s, remote, cfg, chain, tip);
  }

  // ----- Two polls -----

  lemma UnforkedIsEqual(s: Sys, cfg: Config, chain: Chain, tip: int)
    requires Ready(s, cfg, chain, tip) && Linked(chain, tip) && IdsNameBlocks(s.db, chain)
    requires Agree(s.db, chain, Last(s))
    ensures Equal(s.db, chain)
  {
    var low :| Spans(s.db, low, cfg.depth);
    forall h | h in s.db.blocks ensures s.db.blocks[h] == chain(h) {
      AgreementCarriesDown(s.db, chain, tip, low, cfg.depth, Last(s), h);
    }
  }

  /** A poll below the remote's tip runs the catch-up loop; one at the tip changes nothing. */
  lemma PollShape(s: Sys, remote: Remote, cfg: Config, chain: Chain, tip: int)
    requires !s.halted && Started(s) && Last(s) <= tip && Fixed(remote, chain, tip)
    ensures var polled := s.(calls := s.calls + 1);
            Tick(s, remote, cfg) == if Last(s) < tip then TickLoop(polled, remote, cfg, chain(tip)) else (polled, Waiting)
  {
    assert Parse(remote.tip(s.calls)) == Answer(chain(tip));
  }

  lemma FirstPoll(s: Sys, remote: Remote, cfg: Config, chain: Chain, tip: int, t: int)
    requires !s.halted && Ready(s, cfg, chain, tip) && Last(s) < tip && IdsNameBlocks(s.db, chain)
    requires HighestAgreement(s.db, chain, Last(s)) >= 0
    requires Fixed(remote, chain, tip) && Decodes(remote, |s.db.addresses|)
    requires forall n: nat :: remote.clock(n) <= t
    requires s.suspicion.Some? ==> s.suspicion.value.firstSeen <= t
    ensures var (r, outcome) := Tick(s, remote, cfg);
            && outcome.Waiting? && !r.halted
            && (Arrived(r, cfg, chain, tip)
                || (Forked(r, cfg, chain, tip) && SuspectsSince(r, chain, t) && |r.db.addresses| == |s.db.addresses|))
  {
    var polled := s.(calls := s.calls + 1);
    PollShape(s, remote, cfg, chain, tip);
    if Agree(s.db, chain, Last(s)) {
      UnforkedIsEqual(s, cfg, chain, tip);
      CatchUp(polled, remote, cfg, chain, tip);
    } else {
      ForkedPoll(polled, remote, cfg, chain, tip, t);
    }
  }

  /** A poll of a follower that arrived, or that has been suspecting for a poll interval, ends at the tip. */
  lemma SecondPoll(s: Sys, remote: Remote, cfg: Config, chain: Chain, tip: int, t: int)
    requires !s.halted && Fixed(remote, chain, tip)
    requires Arrived(s, cfg, chain, tip)
             || (Forked(s, cfg, chain, tip) && SuspectsSince(s, chain, t) && Decodes(remote, |s.db.addresses|))
    requires forall n: nat :: t + cfg.poll <= remote.clock(n)
    ensures var r := Tick(s, remote, cfg).0;
            !r.halted && Arrived(r, cfg, chain, tip)
  {
    var polled := s.(calls := s.calls + 1);
    PollShape(s, remote, cfg, chain, tip);
    if !Arrived(s, cfg, chain, tip) {
      SecondSighting(polled, remote, cfg, chain, tip, t);
    }
  }

  /**
   Two polls against one fixed chain, the second at least a poll interval after the first, leave the follower at
   that chain's tip with every retained block the remote's and without halting, when the fork point is retained.
   */
  lemma TwoPollsConverge(s: Sys, first: Remote, second: Remote, cfg: Config, chain: Chain, tip: int, t: int)
    requires !s.halted && Ready(s, cfg, chain, tip) && Last(s) < tip && IdsNameBlocks(s.db, chain)
    requires HighestAgreement(s.db, chain, Last(s)) >= 0
    requires Fixed(first, chain, tip) && Decodes(first, |s.db.addresses|)
    requires Fixed(second, chain, tip) && Decodes(second, |s.db.addresses|)
    requires forall n: nat :: first.clock(n) <= t
    requires forall n: nat :: t + cfg.poll <= second.clock(n)
    requires s.suspicion.Some? ==> s.suspicion.value.firstSeen <= t
    ensures var r := Tick(Tick(s, first, cfg).0, second, cfg).0;
            !r.halted && Arrived(r, cfg, chain, tip)
  {
    FirstPoll(s, first, cfg, chain, tip, t);
    SecondPoll(Tick(s, first, cfg).0, second, cfg, chain, tip, t);
  }
}
