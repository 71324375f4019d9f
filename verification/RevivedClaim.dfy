/**
 A run of the broadcast protocol in which a forced recovery leaves two withdrawals of one address active.
 Withdrawal 0 is claimed, signed, sent, and failed because the node reports its transaction absent past its
 expiry. Withdrawal 1 of the same address is claimed. After a restart the forced recovery looks withdrawal 0 up
 again, now finds it, and reopens it.
 */
module RevivedClaim {
  import opened Prelude
  import opened Tables
  import opened Payouts
  import opened Broadcasts
  import opened Claims
  import opened EngineSession

  // ----- The run -----

  function Accounts(): Db {
    Db(map[], None, [], map[(0, "TRX") := Balance(100, 0, false)], [Address(0, "A", Assigned, None, None, None)], map[])
  }

  function Ask(key: string): Request {
    Request(key, "A", "B", "TRX", 40, Some(1.0), Some(10.0), 0)
  }

  function Requests(): seq<Step> {
    [Write(Create(Ask("0"))), Write(Create(Ask("1")))]
  }

  function FirstAttempt(): seq<Step> {
    [Write(Claim(0, 1)), Write(SetState(0, AwaitingResources, Signing, None, 2)), Persist(0, PersistAttempt(0, "t", 3, 60)),
     Send(0), Record(0, 4)]
  }

  function SecondClaim(): seq<Step> {
    [Write(FailAbsent(0, 60)), Write(Claim(1, 61))]
  }

  function Restart(): Step {
    Write(RecordLookup(0, true, 70))
  }

  // ----- The states of the run -----

  function Row(key: string, status: WithdrawalStatus, statusAt: int): Withdrawal {
    Withdrawal(key, 0, "A", "B", "TRX", 40, 1.0, status, statusAt, None, None, None, None, 0, 0, None)
  }

  function Marked(status: WithdrawalStatus, statusAt: int): Withdrawal {
    Row("0", status, statusAt).(txid := Some("t"), attemptedAt := Some(3), expiresAt := Some(60))
  }

  function Waiting(): Withdrawal {
    Row("1", WithdrawalStatus.Requested, 0)
  }

  ghost predicate Holds(s: Sys, ws: seq<Withdrawal>, hands: map<nat, Hand>) {
    s.log != [] && Now(s) == Books(Accounts(), ws, [], []) && s.hands == hands
  }

  ghost predicate Nothing(s: Sys) { Holds(s, [], map[]) }
  ghost predicate OneAsked(s: Sys) { Holds(s, [Row("0", WithdrawalStatus.Requested, 0)], map[]) }
  ghost predicate BothAsked(s: Sys) { Holds(s, [Row("0", WithdrawalStatus.Requested, 0), Waiting()], map[]) }
  ghost predicate FirstClaimed(s: Sys) { Holds(s, [Row("0", AwaitingResources, 1), Waiting()], map[]) }
  ghost predicate FirstSigning(s: Sys) { Holds(s, [Row("0", Signing, 2), Waiting()], map[]) }
  ghost predicate FirstArmed(s: Sys) { Holds(s, [Marked(Signing, 2), Waiting()], map[0 := Armed(ForWithdrawal(0, "t"))]) }
  ghost predicate FirstSent(s: Sys) { Holds(s, [Marked(Signing, 2), Waiting()], map[0 := Sent(ForWithdrawal(0, "t"))]) }
  ghost predicate FirstRecorded(s: Sys) { Holds(s, [Marked(WithdrawalStatus.Broadcast, 4), Waiting()], map[]) }
  ghost predicate FirstFailed(s: Sys) { Holds(s, [Marked(WithdrawalStatus.Failed, 60), Waiting()], map[]) }
  ghost predicate SecondClaimed(s: Sys) { Holds(s, [Marked(WithdrawalStatus.Failed, 60), Row("1", AwaitingResources, 61)], map[]) }

  // ----- Writes -----

  lemma Wrote(s: Sys, op: Op, after: Books)
    requires s.log != [] && !IsMarker(op) && !op.CreateQuote? && !op.RejectQuote? && MayFail(Now(s), op)
    requires AttemptOp(Now(s), op) == Some(after)
    ensures Next(s, Write(op)).log != [] && Now(Next(s, Write(op))) == after && Next(s, Write(op)).hands == s.hands
  {
  }

  /** The requests fit the daily limit and the balance. */
  lemma Asked(ws: seq<Withdrawal>, key: string)
    requires forall w :: w in ws ==> w.idempotencyKey != key
    requires RealSum(ws, CountedSince(0)) <= 1.0
    ensures CreateWithdrawal(Books(Accounts(), ws, [], []), Ask(key))
            == Some(Books(Accounts(), ws + [Row(key, WithdrawalStatus.Requested, 0)], [], []))
  {
    assert Owner(Accounts().addresses, "A") == Some(0);
    assert DayStart(0) == 0;
    assert !KeyTaken(Books(Accounts(), ws, [], []), key);
  }

  lemma FirstAsk()
    ensures Leads1(Nothing, Write(Create(Ask("0"))), OneAsked)
  {
    forall s | Nothing(s) ensures Careful(s, Write(Create(Ask("0")))) && OneAsked(Next(s, Write(Create(Ask("0"))))) {
      Asked([], "0");
      assert AttemptOp(Now(s), Create(Ask("0"))) == CreateWithdrawal(Now(s), Ask("0"));
      assert [] + [Row("0", WithdrawalStatus.Requested, 0)] == [Row("0", WithdrawalStatus.Requested, 0)];
      Wrote(s, Create(Ask("0")), Books(Accounts(), [Row("0", WithdrawalStatus.Requested, 0)], [], []));
    }
  }

  lemma OneCounts(w: Withdrawal)
    requires w.usd == 1.0
    ensures RealSum([w], CountedSince(0)) <= 1.0
  {
    assert [w][..0] == [];
  }

  lemma SecondAsk()
    ensures Leads1(OneAsked, Write(Create(Ask("1"))), BothAsked)
  {
    var first := Row("0", WithdrawalStatus.Requested, 0);
    forall s | OneAsked(s) ensures Careful(s, Write(Create(Ask("1")))) && BothAsked(Next(s, Write(Create(Ask("1"))))) {
      OneCounts(first);
      Asked([first], "1");
      assert AttemptOp(Now(s), Create(Ask("1"))) == CreateWithdrawal(Now(s), Ask("1"));
      assert [first] + [Waiting()] == [first, Waiting()];
      Wrote(s, Create(Ask("1")), Books(Accounts(), [first, Waiting()], [], []));
    }
  }

  /** An idle address whose balance covers the amount. */
  lemma FirstClaim()
    ensures Leads1(BothAsked, Write(Claim(0, 1)), FirstClaimed)
  {
    var ws := [Row("0", WithdrawalStatus.Requested, 0), Waiting()];
    forall s | BothAsked(s) ensures Careful(s, Write(Claim(0, 1))) && FirstClaimed(Next(s, Write(Claim(0, 1)))) {
      ClaimFits(Now(s), 0, 1);
      FreeAddressHoldsNothing(ws, 2, 0, 0, "TRX");
      assert ws[..2] == ws;
      assert AttemptOp(Now(s), Claim(0, 1)) == ClaimWithdrawal(Now(s), 0, 1);
      assert ws[0 := Row("0", AwaitingResources, 1)] == [Row("0", AwaitingResources, 1), Waiting()];
      Wrote(s, Claim(0, 1), Books(Accounts(), [Row("0", AwaitingResources, 1), Waiting()], [], []));
    }
  }

  lemma FirstSigns()
    ensures Leads1(FirstClaimed, Write(SetState(0, AwaitingResources, Signing, None, 2)), FirstSigning)
  {
    var op := SetState(0, AwaitingResources, Signing, None, 2);
    forall s | FirstClaimed(s) ensures Careful(s, Write(op)) && FirstSigning(Next(s, Write(op))) {
      assert AttemptOp(Now(s), op) == SetWithdrawalResourceState(Now(s), 0, AwaitingResources, Signing, None, 2);
      assert Now(s).withdrawals[0 := Row("0", Signing, 2)] == [Row("0", Signing, 2), Waiting()];
      Wrote(s, op, Books(Accounts(), [Row("0", Signing, 2), Waiting()], [], []));
    }
  }

  lemma FirstIsArmed()
    ensures Leads1(FirstSigning, Persist(0, PersistAttempt(0, "t", 3, 60)), FirstArmed)
  {
    var op := PersistAttempt(0, "t", 3, 60);
    forall s | FirstSigning(s) ensures FirstArmed(Next(s, Persist(0, op))) {
      assert AttemptOp(Now(s), op) == PersistWithdrawalAttempt(Now(s), 0, "t", 3, 60);
      assert Now(s).withdrawals[0 := Marked(Signing, 2)] == [Marked(Signing, 2), Waiting()];
    }
  }

  lemma FirstIsSent()
    ensures Leads1(FirstArmed, Send(0), FirstSent)
  {
    forall s | FirstArmed(s) ensures FirstSent(Next(s, Send(0))) {
      assert s.hands[0 := Sent(ForWithdrawal(0, "t"))] == map[0 := Sent(ForWithdrawal(0, "t"))];
    }
  }

  lemma FirstIsRecorded()
    ensures Leads1(FirstSent, Record(0, 4), FirstRecorded)
  {
    forall s | FirstSent(s) ensures FirstRecorded(Next(s, Record(0, 4))) {
      RecordShape(s, 0, 4, RecordBroadcast(0, 4));
      assert AttemptOp(Now(s), RecordBroadcast(0, 4)) == RecordWithdrawalBroadcast(Now(s), 0, 4);
      assert Now(s).withdrawals[0 := Marked(WithdrawalStatus.Broadcast, 4)] == [Marked(WithdrawalStatus.Broadcast, 4), Waiting()];
    }
  }

  lemma FirstFails()
    ensures Leads1(FirstRecorded, Write(FailAbsent(0, 60)), FirstFailed)
  {
    forall s | FirstRecorded(s) ensures Careful(s, Write(FailAbsent(0, 60))) && FirstFailed(Next(s, Write(FailAbsent(0, 60)))) {
      assert AttemptOp(Now(s), FailAbsent(0, 60)) == FailWithdrawalAbsent(Now(s), 0, 60);
      assert Now(s).withdrawals[0 := Marked(WithdrawalStatus.Failed, 60)] == [Marked(WithdrawalStatus.Failed, 60), Waiting()];
      Wrote(s, FailAbsent(0, 60), Books(Accounts(), [Marked(WithdrawalStatus.Failed, 60), Waiting()], [], []));
    }
  }

  lemma SecondIsClaimed()
    ensures Leads1(FirstFailed, Write(Claim(1, 61)), SecondClaimed)
  {
    var ws := [Marked(WithdrawalStatus.Failed, 60), Waiting()];
    forall s | FirstFailed(s) ensures Careful(s, Write(Claim(1, 61))) && SecondClaimed(Next(s, Write(Claim(1, 61)))) {
      ClaimFits(Now(s), 1, 61);
      FreeAddressHoldsNothing(ws, 2, 1, 0, "TRX");
      assert ws[..2] == ws;
      assert AttemptOp(Now(s), Claim(1, 61)) == ClaimWithdrawal(Now(s), 1, 61);
      assert ws[1 := Row("1", AwaitingResources, 61)] == [Marked(WithdrawalStatus.Failed, 60), Row("1", AwaitingResources, 61)];
      Wrote(s, Claim(1, 61), Books(Accounts(), [Marked(WithdrawalStatus.Failed, 60), Row("1", AwaitingResources, 61)], [], []));
    }
  }

  // ----- The forced recovery -----

  lemma Revived(s: Sys)
    requires SecondClaimed(s)
    ensures !Careful(s, Restart()) && Next(s, Restart()).log != [] && !OneActive(Now(Next(s, Restart())).withdrawals)
  {
    var op := RecordLookup(0, true, 70);
    var row := Marked(WithdrawalStatus.Broadcast, 70).(lookupAt := Some(70));
    assert AttemptOp(Now(s), op) == RecordWithdrawalLookup(Now(s), 0, true, 70);
    assert Now(s).withdrawals[0 := row] == [row, Row("1", AwaitingResources, 61)];
    Wrote(s, op, Books(Accounts(), [row, Row("1", AwaitingResources, 61)], [], []));
    var after := Now(Next(s, Restart())).withdrawals;
    assert after[0].addressId == after[1].addressId && Active(after[0].status) && Active(after[1].status);
  }

  // ----- Composition -----

  /** From every state of p the step is careful and leads to a state of q. */
  ghost predicate Leads1(p: Sys -> bool, step: Step, q: Sys -> bool) {
    forall s :: p(s) && s.log != [] ==> Careful(s, step) && q(Next(s, step))
  }

  ghost predicate Leads(p: Sys -> bool, steps: seq<Step>, q: Sys -> bool) {
    forall s :: p(s) && s.log != [] ==> CarefulRun(s, steps) && q(Run(s, steps))
  }

  lemma LeadsOn(p: Sys -> bool, steps: seq<Step>, q: Sys -> bool, step: Step, r: Sys -> bool)
    requires Leads(p, steps, q) && Leads1(q, step, r)
    ensures Leads(p, steps + [step], r)
  {
    forall s | p(s) && s.log != [] ensures CarefulRun(s, steps + [step]) && r(Run(s, steps + [step])) {
      RunOneMore(s, steps, step);
    }
  }

  /** The run up to the restart. */
  function Before(): seq<Step> { Requests() + FirstAttempt() + SecondClaim() }

  lemma LeadsToTheClaim()
    ensures Leads(Nothing, Before(), SecondClaimed)
  {
    var asked := Requests();
    FirstAsk();
    SecondAsk();
    LeadsOn(Nothing, [], Nothing, Write(Create(Ask("0"))), OneAsked);
    LeadsOn(Nothing, [] + [Write(Create(Ask("0")))], OneAsked, Write(Create(Ask("1"))), BothAsked);
    assert [] + [Write(Create(Ask("0")))] + [Write(Create(Ask("1")))] == asked;
    LeadsToTheAttempt(asked);
    LeadsToTheFailure(asked + FirstAttempt());
    assert asked + FirstAttempt() + SecondClaim() == Before();
  }

  lemma LeadsToTheAttempt(steps: seq<Step>)
    requires Leads(Nothing, steps, BothAsked)
    ensures Leads(Nothing, steps + FirstAttempt(), FirstRecorded)
  {
    var s1, s2, s3 := Write(Claim(0, 1)), Write(SetState(0, AwaitingResources, Signing, None, 2)), Persist(0, PersistAttempt(0, "t", 3, 60));
    FirstClaim();
    FirstSigns();
    FirstIsArmed();
    FirstIsSent();
    FirstIsRecorded();
    LeadsOn(Nothing, steps, BothAsked, s1, FirstClaimed);
    LeadsOn(Nothing, steps + [s1], FirstClaimed, s2, FirstSigning);
    LeadsOn(Nothing, steps + [s1] + [s2], FirstSigning, s3, FirstArmed);
    LeadsOn(Nothing, steps + [s1] + [s2] + [s3], FirstArmed, Send(0), FirstSent);
    LeadsOn(Nothing, steps + [s1] + [s2] + [s3] + [Send(0)], FirstSent, Record(0, 4), FirstRecorded);
    assert steps + [s1] + [s2] + [s3] + [Send(0)] + [Record(0, 4)] == steps + FirstAttempt();
  }

  lemma LeadsToTheFailure(steps: seq<Step>)
    requires Leads(Nothing, steps, FirstRecorded)
    ensures Leads(Nothing, steps + SecondClaim(), SecondClaimed)
  {
    var s1, s2 := Write(FailAbsent(0, 60)), Write(Claim(1, 61));
    FirstFails();
    SecondIsClaimed();
    LeadsOn(Nothing, steps, FirstRecorded, s1, FirstFailed);
    LeadsOn(Nothing, steps + [s1], FirstFailed, s2, SecondClaimed);
    assert steps + [s1] + [s2] == steps + SecondClaim();
  }

  /**
   From a state in which claims are exclusive, a careful run followed by one lookup of the forced recovery ends
   with two active withdrawals at one address.
   */
  lemma ForcedRecoveryCanBreakClaims(s: Sys)
    requires Nothing(s) && ClaimInv(s)
    ensures CarefulRun(s, Before()) && ClaimInv(Run(s, Before())) && !Careful(Run(s, Before()), Restart())
    ensures !OneActive(Now(Run(s, Before() + [Restart()])).withdrawals)
  {
    LeadsToTheClaim();
    ClaimsStayExclusive(s, Before());
    Revived(Run(s, Before()));
    RunOneMore(s, Before(), Restart());
  }

  /** Such a state exists. */
  lemma NothingIsExclusive()
    ensures Nothing(Start(Books(Accounts(), [], [], []))) && ClaimInv(Start(Books(Accounts(), [], [], [])))
  {
  }
}
