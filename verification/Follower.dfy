/**
 The block follower: one poll commits the missing blocks one height at a time, checks each parent, confirms a
 fork by seeing it twice, walks back to the common ancestor and rewinds. The remote node may answer anything.
 */
module Follower {
  import opened Prelude
  import opened Tables
  import opened Ledger

  // ----- The outside world -----

  /** A block as the node sends it, its timestamp still in milliseconds. */
  datatype Response = NoAnswer | Answer(block: Block)

  /**
   Answers by the number of calls made so far, so that a remote may contradict itself. prepare is the decoder
   with its receipt reads; clock is the local clock in seconds.
   */
  datatype Remote = Remote(
    tip: nat -> Response, at: (nat, int) -> Response, clock: nat -> int, prepare: (nat, Block) -> Option<seq<Payment>>)

  /** parseBlock refuses an answer without id, height or timestamp, and truncates milliseconds to seconds. */
  function Parse(r: Response): Response {
    if r.NoAnswer? || r.block.id == "" || r.block.height < 0 || r.block.timestamp <= 0 then NoAnswer
    else Answer(r.block.(timestamp := r.block.timestamp / 1000))
  }

  datatype Config = Config(depth: int, poll: int)

  // ----- Worker state -----

  datatype Suspicion = Suspicion(height: int, replacementId: string, firstSeen: int)

  /** The database, the worker's fields, and the number of calls made to the outside. */
  datatype Sys = Sys(db: Db, suspicion: Option<Suspicion>, known: bool, halted: bool, calls: nat)

  datatype Outcome = Processed | Waiting | Failed

  datatype Check = Unanswered | Unconfirmed | Replaced(block: Block)

  predicate Started(s: Sys) {
    s.db.cursor.Some?
  }

  function Last(s: Sys): int {
    if s.db.cursor.Some? then s.db.cursor.value.last else 0
  }

  // ----- Steps -----

  function Clear(s: Sys): Sys {
    s.(db := ClearReorgSuspicion(s.db), suspicion := None, known := true)
  }

  function CommitStep(s: Sys, remote: Remote, cfg: Config, block: Block): (Sys, Outcome) {
    var records := remote.prepare(s.calls, block);
    var called := s.(calls := s.calls + 1);
    if records.None? then (called, Failed)
    else
      var committed := CommitBlock(s.db, block, cfg.depth, records.value);
      if committed.None? then (called, Failed) else (called.(db := committed.value), Processed)
  }

  function ConfirmMismatch(s: Sys, remote: Remote, cfg: Config, previous: Block): (Sys, Check) {
    var answer := Parse(remote.at(s.calls, previous.height));
    var asked := s.(calls := s.calls + 1);
    if answer.NoAnswer? || answer.block.height != previous.height then (asked, Unanswered)
    else if answer.block.id == previous.id then (Clear(asked), Unconfirmed)
    else
      var now := remote.clock(asked.calls);
      var timed := asked.(calls := asked.calls + 1);
      if s.suspicion.None? || s.suspicion.value.height != answer.block.height || s.suspicion.value.replacementId != answer.block.id
      then (timed.(db := SetReorgSuspicion(s.db, answer.block.height),
                   suspicion := Some(Suspicion(answer.block.height, answer.block.id, now)), known := true), Unconfirmed)
      else if now - s.suspicion.value.firstSeen < cfg.poll then (timed, Unconfirmed)
      else (timed, Replaced(answer.block))
  }

  /** Walk back from height, asking for one block at a time, until a stored block is found on the remote chain. */
  function RecoverReorg(s: Sys, remote: Remote, cfg: Config, last: int, height: int, replacement: Block): (Sys, Outcome)
    requires height <= last
    decreases cfg.depth + 1 - (last - height)
  {
    if height !in s.db.blocks then (s.(halted := true), Failed)
    else if replacement.id == s.db.blocks[height].id then
      var rewound := RewindChain(s.db, height);
      if rewound.None? then (s, Failed) else (s.(db := rewound.value), Processed)
    else if last - height + 1 > cfg.depth || height == 0 then (s.(halted := true), Failed)
    else
      var answer := Parse(remote.at(s.calls, height - 1));
      var asked := s.(calls := s.calls + 1);
      if answer.NoAnswer? || answer.block.height != height - 1 then (asked, Failed)
      else RecoverReorg(asked, remote, cfg, last, height - 1, answer.block)
  }

  function ProcessCandidate(s: Sys, remote: Remote, cfg: Config, block: Block): (Sys, Outcome) {
    if !Started(s) then CommitStep(s, remote, cfg, block)
    else if block.height != Last(s) + 1 || Last(s) !in s.db.blocks then (s, Failed)
    else
      var previous := s.db.blocks[Last(s)];
      if block.parent != previous.id then
        var (checked, check) := ConfirmMismatch(s, remote, cfg, previous);
        match check
        case Unanswered => (checked, Failed)
        case Unconfirmed => (checked, Waiting)
        case Replaced(replacement) =>
          var (recovered, outcome) := RecoverReorg(checked, remote, cfg, previous.height, previous.height, replacement);
          if outcome.Processed? then (Clear(recovered), Processed) else (recovered, Failed)
      else
        CommitStep(if !s.known || s.suspicion.Some? then Clear(s) else s, remote, cfg, block)
  }

  /** The next block to try: the polled tip itself, or one fetched by height. */
  function Candidate(s: Sys, remote: Remote, tip: Block): (Sys, Response) {
    if Last(s) + 1 == tip.height then (s, Answer(tip))
    else
      var answer := Parse(remote.at(s.calls, Last(s) + 1));
      var asked := s.(calls := s.calls + 1);
      if answer.NoAnswer? || answer.block.height != Last(s) + 1 then (asked, NoAnswer) else (asked, answer)
  }

  lemma RecoverEffect(s: Sys, remote: Remote, cfg: Config, last: int, height: int, replacement: Block)
    requires height <= last
    ensures var (r, outcome) := RecoverReorg(s, remote, cfg, last, height, replacement);
            && r.suspicion == s.suspicion && r.known == s.known
            && (outcome.Processed? ==> r.db.cursor.Some? && r.halted == s.halted)
            && (!outcome.Processed? ==> r.db == s.db)
            && !outcome.Waiting?
    decreases cfg.depth + 1 - (last - height)
  {
    if height in s.db.blocks && replacement.id != s.db.blocks[height].id && last - height + 1 <= cfg.depth && height != 0 {
      var answer := Parse(remote.at(s.calls, height - 1));
      if answer.Answer? && answer.block.height == height - 1 {
        RecoverEffect(s.(calls := s.calls + 1), remote, cfg, last, height - 1, answer.block);
      }
    }
  }

  function Suspecting(s: Sys): nat {
    if s.suspicion.Some? then 1 else 0
  }

  /** A processed candidate either resolved the suspicion, or moved the cursor up by one. */
  lemma ProcessedMakesProgress(s: Sys, remote: Remote, cfg: Config, block: Block)
    requires Started(s)
    ensures var (r, outcome) := ProcessCandidate(s, remote, cfg, block);
            && Started(r)
            && (outcome.Processed? ==>
                  Suspecting(r) < Suspecting(s) || (Suspecting(r) == Suspecting(s) && Last(r) == Last(s) + 1))
  {
    if block.height == Last(s) + 1 && Last(s) in s.db.blocks {
      var previous := s.db.blocks[Last(s)];
      if block.parent != previous.id {
        var (checked, check) := ConfirmMismatch(s, remote, cfg, previous);
        if check.Replaced? {
          RecoverEffect(checked, remote, cfg, previous.height, previous.height, check.block);
        }
      }
    }
  }

  /**
   The catch-up loop of one poll. It terminates whatever the remote answers: a poll rewinds at most once,
   because the rewind clears the suspicion that a second one would need.
   */
  function TickLoop(s: Sys, remote: Remote, cfg: Config, tip: Block): (Sys, Outcome)
    requires Started(s)
    decreases Suspecting(s), tip.height - Last(s)
  {
    if Last(s) >= tip.height then (s, Waiting)
    else
      var (asked, answer) := Candidate(s, remote, tip);
      if answer.NoAnswer? then (asked, Failed)
      else
        ProcessedMakesProgress(asked, remote, cfg, answer.block);
        var (processed, outcome) := ProcessCandidate(asked, remote, cfg, answer.block);
        if outcome.Processed? then TickLoop(processed, remote, cfg, tip) else (processed, outcome)
  }

  /** One round of the catch-up loop. */
  lemma TickLoopStep(s: Sys, remote: Remote, cfg: Config, tip: Block)
    requires Started(s) && Last(s) < tip.height
    ensures var (asked, answer) := Candidate(s, remote, tip);
            if answer.NoAnswer? then TickLoop(s, remote, cfg, tip) == (asked, Failed)
            else
              var (processed, outcome) := ProcessCandidate(asked, remote, cfg, answer.block);
              if outcome.Processed? then Started(processed) && TickLoop(s, remote, cfg, tip) == TickLoop(processed, remote, cfg, tip)
              else TickLoop(s, remote, cfg, tip) == (processed, outcome)
  {
    var (asked, answer) := Candidate(s, remote, tip);
    if answer.Answer? {
      ProcessedMakesProgress(asked, remote, cfg, answer.block);
    }
  }

  function Tick(s: Sys, remote: Remote, cfg: Config): (Sys, Outcome) {
    if s.halted then (s, Failed)
    else
      var answer := Parse(remote.tip(s.calls));
      var polled := s.(calls := s.calls + 1);
      if answer.NoAnswer? then (polled, Failed)
      else if !Started(s) then
        var (committed, outcome) := CommitStep(polled, remote, cfg, answer.block);
        (committed, if outcome.Processed? then Waiting else Failed)
      else if answer.block.height <= Last(s) then (polled, Waiting)
      else TickLoop(polled, remote, cfg, answer.block)
  }
}
