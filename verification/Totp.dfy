/**
 One-time passwords: a code is accepted within one step of its own time, and never twice for the same step, as
 section 5.2 of RFC 6238 requires, although used rows are pruned after five minutes.
 */
module Totp {
  import opened Prelude

  type Used = map<(string, int), int>

  /** The code of each 30-second step, for the configured secret. */
  type Codes = int -> string

  /** Division as the source's integers do it, toward zero. */
  function Quotient(a: int, b: int): int
    requires b > 0
  {
    if a >= 0 then a / b else -((-a) / b)
  }

  function CurrentStep(now: int): int {
    Quotient(now, 30)
  }

  predicate IsCode(code: string) {
    |code| == 6 && forall i :: 0 <= i < 6 ==> '0' <= code[i] <= '9'
  }

  /** The first step from a on, up to b, whose code this is. */
  function MatchingStep(code: string, codes: Codes, a: int, b: int): (step: Option<int>)
    ensures step.Some? ==> a <= step.value <= b && codes(step.value) == code && forall k :: a <= k < step.value ==> codes(k) != code
    ensures step.None? ==> forall k :: a <= k <= b ==> codes(k) != code
    decreases b - a + 1
  {
    if a > b then None else if codes(a) == code then Some(a) else MatchingStep(code, codes, a + 1, b)
  }

  function StepFor(code: string, codes: Codes, now: int): Option<int> {
    if IsCode(code) then MatchingStep(code, codes, CurrentStep(now) - 1, CurrentStep(now) + 1) else None
  }

  predicate Accepts(used: Used, code: string, codes: Codes, now: int) {
    var step := StepFor(code, codes, now);
    step.Some? && (code, step.value) !in used
  }

  function Consume(used: Used, code: string, codes: Codes, now: int): Used {
    if Accepts(used, code, codes, now) then used[(code, StepFor(code, codes, now).value) := now] else used
  }

  /** Rows strictly older than five minutes go. */
  function Prune(used: Used, now: int): Used {
    map k | k in used && used[k] >= now - 300 :: used[k]
  }

  // ----- The server -----

  datatype Verdict = Accepted | Invalid | Replayed

  class Store {
    var used: Used

    constructor ()
      ensures used == map[]
    {
      used := map[];
    }

    /** Records a use of the code at its step, unless one is recorded already. */
    method UseTOTP(code: string, step: int, now: int) returns (inserted: bool)
      modifies this
      ensures inserted <==> (code, step) !in old(used)
      ensures used == if inserted then old(used)[(code, step) := now] else old(used)
    {
      inserted := (code, step) !in used;
      if inserted {
        used := used[(code, step) := now];
      }
    }

    method PruneUsedTOTP(now: int) returns (pruned: nat)
      modifies this
      ensures used == Prune(old(used), now)
      ensures pruned == |old(used)| - |used|
    {
      var kept := Prune(used, now);
      SubmapSize(kept, used);
      pruned := |used| - |kept|;
      used := kept;
    }
  }

  lemma SubmapSize(kept: Used, used: Used)
    requires kept.Keys <= used.Keys
    ensures |kept| <= |used|
  {
    KeysSize(kept.Keys, used.Keys);
  }

  lemma {:induction false} KeysSize(s: set<(string, int)>, t: set<(string, int)>)
    requires s <= t
    ensures |s| <= |t|
    decreases |s|
  {
    if s != {} {
      var x :| x in s;
      KeysSize(s - {x}, t - {x});
    }
  }

  class Server {
    const store: Store
    const codes: Codes
    const configured: bool

    constructor (store: Store, codes: Codes, configured: bool)
      ensures this.store == store && this.codes == codes && this.configured == configured
    {
      this.store, this.codes, this.configured := store, codes, configured;
    }

    /** The first step whose code this is decides, even when its row was used before. */
    method ValidateTOTP(code: string, now: int) returns (verdict: Verdict)
      modifies store
      ensures store.used == if configured then Consume(old(store.used), code, codes, now) else old(store.used)
      ensures verdict.Accepted? <==> configured && Accepts(old(store.used), code, codes, now)
      ensures verdict.Invalid? <==> !configured || StepFor(code, codes, now).None?
    {
      if !IsCode(code) || !configured {
        return Invalid;
      }
      var current := CurrentStep(now);
      for step := current - 1 to current + 2
        invariant store.used == old(store.used)
        invariant MatchingStep(code, codes, current - 1, current + 1) == MatchingStep(code, codes, step, current + 1)
      {
        if codes(step) == code {
          var used := store.UseTOTP(code, step, now);
          return if used then Accepted else Replayed;
        }
      }
      return Invalid;
    }
  }

  /** The second lies in the step before, the step itself, or the step after. */
  predicate WithinOneStep(step: int, now: int) {
    if now >= 0 then 30 * (step - 1) <= now < 30 * (step + 2) else 30 * (step - 2) < now <= 30 * (step + 1)
  }

  /** Six digits are a valid code exactly when they are the code of a step within one of now; the earliest such step decides. */
  lemma CodesOfNearbySteps(code: string, codes: Codes, now: int)
    ensures StepFor(code, codes, now).Some? <==>
              |code| == 6 && (forall i :: 0 <= i < 6 ==> code[i] in "0123456789") && exists step :: WithinOneStep(step, now) && codes(step) == code
    ensures StepFor(code, codes, now).Some? ==>
              var step := StepFor(code, codes, now).value;
              WithinOneStep(step, now) && codes(step) == code && forall other :: WithinOneStep(other, now) && codes(other) == code ==> step <= other
  {
    var current := CurrentStep(now);
    forall step ensures WithinOneStep(step, now) <==> current - 1 <= step <= current + 1 {
    }
    assert IsCode(code) <==> |code| == 6 && (forall i :: 0 <= i < 6 ==> code[i] in "0123456789");
  }

  // ----- What a recorded use means -----

  /** A prune spares every row younger than five minutes, unchanged, and nothing older. */
  lemma YoungRowsSurvive(used: Used, pair: (string, int), now: int)
    requires pair in used
    ensures pair in Prune(used, now) <==> used[pair] >= now - 300
    ensures pair in Prune(used, now) ==> Prune(used, now)[pair] == used[pair]
    ensures Prune(used, now).Keys <= used.Keys
  {
  }

  /** A code that was accepted is refused as a replay for the same step, before and after any prune that can matter. */
  lemma ReplayIsRefused(used: Used, code: string, codes: Codes, now: int, pruned: int, later: int)
    requires Accepts(used, code, codes, now)
    requires pruned <= later + 180
    ensures var after := Consume(used, code, codes, now);
            StepFor(code, codes, later) == StepFor(code, codes, now) ==>
              !Accepts(after, code, codes, later) && !Accepts(Prune(after, pruned), code, codes, later)
  {
    if StepFor(code, codes, later) == StepFor(code, codes, now) {
      StepIsNear(code, codes, now);
      StepIsNear(code, codes, later);
      YoungRowsSurvive(Consume(used, code, codes, now), (code, StepFor(code, codes, now).value), pruned);
    }
  }

  // ----- Runs -----

  datatype Event = Validate(code: string, now: int) | Tidy(now: int)

  /** accepted lists the accepted (code, step) pairs with their time; horizon is the latest prune, if any. */
  datatype State = State(used: Used, accepted: seq<((string, int), int)>, horizon: Option<int>)

  function Next(s: State, codes: Codes, ev: Event): State {
    match ev
    case Validate(code, now) =>
      if Accepts(s.used, code, codes, now)
      then s.(used := Consume(s.used, code, codes, now), accepted := s.accepted + [((code, StepFor(code, codes, now).value), now)])
      else s
    case Tidy(now) => s.(used := Prune(s.used, now), horizon := Some(Max(now, s.horizon.GetOr(now))))
  }

  function Run(codes: Codes, evs: seq<Event>): State {
    if evs == [] then State(map[], [], None) else Next(Run(codes, evs[..|evs| - 1]), codes, evs[|evs| - 1])
  }

  /**
   The clock runs forward, but for requests that reach the table up to three minutes late: no validation is more
   than 180 seconds behind a prune that came before it.
   */
  ghost predicate OnTime(evs: seq<Event>) {
    forall i, j :: 0 <= i < j < |evs| && evs[i].Tidy? && evs[j].Validate? ==> evs[i].now <= evs[j].now + 180
  }

  /** An accepted pair is still stored, or is so old that its step cannot come back. */
  ghost predicate Remembered(s: State) {
    && (forall i :: 0 <= i < |s.accepted| ==>
          || (s.accepted[i].0 in s.used && s.used[s.accepted[i].0] == s.accepted[i].1)
          || (s.horizon.Some? && s.accepted[i].1 < s.horizon.value - 300))
    && (forall i :: 0 <= i < |s.accepted| ==> NearStep(s.accepted[i].0.1, s.accepted[i].1))
    && (forall i, j :: 0 <= i < j < |s.accepted| ==> s.accepted[i].0 != s.accepted[j].0)
  }

  predicate NearStep(step: int, now: int) {
    30 * step - 60 < now < 30 * step + 60
  }

  lemma StepIsNear(code: string, codes: Codes, now: int)
    requires StepFor(code, codes, now).Some?
    ensures NearStep(StepFor(code, codes, now).value, now)
  {
  }

  lemma ValidateKeepsRemembered(s: State, codes: Codes, code: string, now: int)
    requires Remembered(s) && (s.horizon.Some? ==> s.horizon.value <= now + 180)
    ensures Remembered(Next(s, codes, Validate(code, now)))
  {
    if Accepts(s.used, code, codes, now) {
      StepIsNear(code, codes, now);
      var pair := (code, StepFor(code, codes, now).value);
      forall i | 0 <= i < |s.accepted| ensures s.accepted[i].0 != pair {
        assert NearStep(s.accepted[i].0.1, s.accepted[i].1);
      }
    }
  }

  lemma TidyKeepsRemembered(s: State, codes: Codes, now: int)
    requires Remembered(s)
    ensures Remembered(Next(s, codes, Tidy(now)))
  {
  }

  lemma {:induction false} HorizonIsAPrune(codes: Codes, evs: seq<Event>)
    ensures Run(codes, evs).horizon.Some? ==> exists i :: 0 <= i < |evs| && evs[i].Tidy? && evs[i].now == Run(codes, evs).horizon.value
  {
    if evs != [] {
      var front := evs[..|evs| - 1];
      HorizonIsAPrune(codes, front);
      var last := evs[|evs| - 1];
      if Run(codes, front).horizon.Some? {
        var i :| 0 <= i < |front| && front[i].Tidy? && front[i].now == Run(codes, front).horizon.value;
        assert evs[i] == front[i];
      }
      if last.Tidy? && Run(codes, evs).horizon.value == last.now {
        assert evs[|evs| - 1].Tidy?;
      }
    }
  }

  lemma {:induction false} RunRemembers(codes: Codes, evs: seq<Event>)
    requires OnTime(evs)
    ensures Remembered(Run(codes, evs))
  {
    if evs != [] {
      var front, last := evs[..|evs| - 1], evs[|evs| - 1];
      RunRemembers(codes, front);
      HorizonIsAPrune(codes, front);
      match last
      case Validate(code, now) => ValidateKeepsRemembered(Run(codes, front), codes, code, now);
      case Tidy(now) => TidyKeepsRemembered(Run(codes, front), codes, now);
    }
  }

  /** Over any interleaving of validations and prunes no code is accepted twice for the same step. */
  lemma NoCodeIsAcceptedTwice(codes: Codes, evs: seq<Event>, i: nat, j: nat)
    requires OnTime(evs) && i < j < |Run(codes, evs).accepted|
    ensures Run(codes, evs).accepted[i].0 != Run(codes, evs).accepted[j].0
  {
    RunRemembers(codes, evs);
  }
}
