/**
 Confirmation is irreversible. The solidified height never moves back, and a payment confirmed at or below it
 stays confirmed, as long as no rewind goes below it and re-ingest reports solid payments at their own height.
 */
module Finality {
  import opened Prelude
  import opened Tables
  import opened Ledger
  import opened Integrity

  function SolidHeight(db: Db): int {
    if db.cursor.Some? then db.cursor.value.solidified else 0
  }

  /** A row that has been promoted and lies in solid history. */
  predicate Final(db: Db, i: nat) {
    && i < |db.payments|
    && db.cursor.Some?
    && CountsConfirmed(db.payments[i])
    && db.payments[i].height <= SolidHeight(db)
  }

  // ----- Ingest -----

  ghost predicate KeepsSolidHeights(db: Db, records: seq<Payment>) {
    forall i, j :: 0 <= i < |db.payments| && Final(db, i) && 0 <= j < |records| && records[j].key == db.payments[i].key ==>
                     records[j].height == db.payments[i].height
  }

  /** Row i still stands for p, confirmed and at p's height. */
  predicate Keeps(rows: seq<Payment>, i: nat, p: Payment) {
    i < |rows| && rows[i].key == p.key && CountsConfirmed(rows[i]) && rows[i].height == p.height
  }

  ghost predicate AtHeightOf(records: seq<Payment>, p: Payment) {
    forall j :: 0 <= j < |records| && records[j].key == p.key ==> records[j].height == p.height
  }

  lemma UpsertKeeps(rows: seq<Payment>, rec: Payment, i: nat, p: Payment)
    requires DistinctKeys(rows) && Keeps(rows, i, p)
    requires rec.key == p.key ==> rec.height == p.height
    ensures Keeps(UpsertRow(rows, rec), i, p)
  {
    UpsertRowShape(rows, rec);
  }

  lemma SightingKeeps(db: Db, rec: Payment, i: nat, p: Payment)
    requires WellFormed(db) && Keeps(db.payments, i, p)
    requires rec.key == p.key ==> rec.height == p.height
    requires Ingest(db, rec).Some?
    ensures Keeps(Ingest(db, rec).value.payments, i, p)
  {
    UpsertKeeps(db.payments, MatchRecord(db, rec), i, p);
  }

  lemma {:induction false} IngestKeeps(db: Db, records: seq<Payment>, i: nat, p: Payment)
    requires WellFormed(db) && Keeps(db.payments, i, p) && AtHeightOf(records, p)
    requires IngestAll(db, records).Some?
    ensures Keeps(IngestAll(db, records).value.payments, i, p)
  {
    if records != [] {
      var front, last := records[..|records| - 1], records[|records| - 1];
      IngestKeeps(db, front, i, p);
      IngestWellFormed(db, front);
      SightingKeeps(IngestAll(db, front).value, last, i, p);
    }
  }

  lemma CommitKeepsFinal(db: Db, block: Block, depth: int, records: seq<Payment>, i: nat)
    requires WellFormed(db) && Final(db, i) && KeepsSolidHeights(db, records)
    requires CommitBlock(db, block, depth, records).Some?
    ensures Final(CommitBlock(db, block, depth, records).value, i)
  {
    assert AtHeightOf(records, db.payments[i]);
    IngestKeeps(db.(blocks := db.blocks[block.height := block]), records, i, db.payments[i]);
    CommitShape(db, block, depth, records);
  }

  // ----- Confirmation -----

  /** Settling never unconfirms a row and leaves its height. */
  lemma SettleKeepsConfirmed(db: Db, p: Payment, required: int, stamp: int)
    ensures var r := Settle(db, p, required, stamp); r.height == p.height && (CountsConfirmed(p) ==> CountsConfirmed(r))
  {
  }

  lemma SolidifyKeepsFinal(db: Db, height: int, required: int, cooldown: int, now: int, i: nat)
    requires Final(db, i)
    ensures var r := ApplySolidifiedHeight(db, height, required, cooldown, now); r.Some? ==> Final(r.value, i)
  {
    if ApplySolidifiedHeight(db, height, required, cooldown, now).Some? {
      SolidifyShape(db, height, required, cooldown, now);
      SettleKeepsConfirmed(Solidified(db, height), db.payments[i], required, now);
    }
  }

  /** Whatever a confirmation tick promotes lies in solid history. */
  lemma PromotedIsFinal(db: Db, height: int, required: int, cooldown: int, now: int, i: nat)
    requires i < |db.payments| && !CountsConfirmed(db.payments[i])
    ensures var r := ApplySolidifiedHeight(db, height, required, cooldown, now);
            r.Some? && CountsConfirmed(r.value.payments[i]) ==> Final(r.value, i)
  {
    if ApplySolidifiedHeight(db, height, required, cooldown, now).Some? {
      SolidifyShape(db, height, required, cooldown, now);
    }
  }

  // ----- Suspected reorganisations -----

  /** A suspicion holds back exactly the rows at and above its height. */
  lemma SuspicionHoldsBack(db: Db, height: int, p: Payment, required: int)
    requires db.cursor.Some?
    ensures Promotable(SetReorgSuspicion(db, height), p, required) <==> Promotable(db, p, required) && p.height < height
  {
    var after := SetReorgSuspicion(db, height);
    assert after.cursor.value.last == db.cursor.value.last && after.cursor.value.solidified == db.cursor.value.solidified;
  }

  /** Clearing a suspicion releases exactly the rows it held back, and undoes setting one. */
  lemma ClearingReleases(db: Db, height: int, p: Payment, required: int)
    requires db.cursor.Some?
    ensures Promotable(db, p, required)
            <==> && Promotable(ClearReorgSuspicion(db), p, required)
                 && (db.cursor.value.suspectedFrom.Some? ==> p.height < db.cursor.value.suspectedFrom.value)
    ensures db.cursor.value.suspectedFrom.None? ==> ClearReorgSuspicion(SetReorgSuspicion(db, height)) == db
  {
    var after := ClearReorgSuspicion(db);
    assert after.cursor.value.last == db.cursor.value.last && after.cursor.value.solidified == db.cursor.value.solidified;
  }

  /** While a suspicion stands no confirmation tick confirms a row at or above its height. */
  lemma TickRespectsSuspicion(db: Db, height: int, required: int, cooldown: int, now: int, i: nat)
    requires i < |db.payments| && !CountsConfirmed(db.payments[i])
    requires db.cursor.Some? && db.cursor.value.suspectedFrom.Some? && db.cursor.value.suspectedFrom.value <= db.payments[i].height
    ensures var r := ApplySolidifiedHeight(db, height, required, cooldown, now); r.Some? ==> !CountsConfirmed(r.value.payments[i])
  {
    if ApplySolidifiedHeight(db, height, required, cooldown, now).Some? {
      SolidifyShape(db, height, required, cooldown, now);
      assert !Promotable(Solidified(db, height), db.payments[i], required);
    }
  }

  // ----- Every run -----

  /** Rewinds stop at solid history, and re-ingest moves no solid row. */
  ghost predicate RespectsSolid(db: Db, ev: Event) {
    match ev
    case Commit(_, _, records) => KeepsSolidHeights(db, records)
    case Reconcile(records) => KeepsSolidHeights(db, records)
    case Rewind(ancestor) => SolidHeight(db) <= ancestor
    case _ => true
  }

  /** No transaction moves the solidified height back. */
  lemma SolidHeightNeverFalls(db: Db, ev: Event)
    ensures db.cursor.Some? ==> Apply(db, ev).cursor.Some?
    ensures db.cursor.Some? ==> SolidHeight(db) <= SolidHeight(Apply(db, ev))
  {
    match ev
    case Commit(block, depth, records) => if Attempt(db, ev).Some? { CommitShape(db, block, depth, records); }
    case Reconcile(records) => if Attempt(db, ev).Some? { IngestKeepsChain(db, records); }
    case Expire(ids, now, cooldown) => ExpireKeepsRows(db, ids, now, cooldown);
    case _ =>
  }

  lemma {:induction false} ReconcileKeepsFinal(db: Db, records: seq<Payment>, i: nat)
    requires WellFormed(db) && Final(db, i) && KeepsSolidHeights(db, records)
    requires IngestAll(db, records).Some?
    ensures Final(IngestAll(db, records).value, i)
  {
    assert AtHeightOf(records, db.payments[i]);
    IngestKeeps(db, records, i, db.payments[i]);
    IngestKeepsChain(db, records);
  }

  lemma FeeKeepsFinal(db: Db, txid: string, height: int, timestamp: int, a: nat, fee: nat, now: int, i: nat)
    requires Final(db, i)
    ensures var r := RecordFee(db, txid, height, timestamp, a, fee, now); r.Some? ==> Final(r.value, i)
  {
  }

  lemma GrantReceiptKeepsFinal(db: Db, txid: string, fee: nat, topup: Option<(string, nat)>, height: int, timestamp: int,
                               wallet: nat, now: int, i: nat)
    requires Final(db, i)
    ensures var r := RecordGrantReceipt(db, txid, fee, topup, height, timestamp, wallet, now); r.Some? ==> Final(r.value, i)
  {
    if RecordGrantReceipt(db, txid, fee, topup, height, timestamp, wallet, now).Some? {
      ReceiptShape(db, txid, fee, topup, height, timestamp, wallet, now);
      ReceiptRows(db, txid, fee, topup, height, timestamp, wallet, now, i);
    }
  }

  /** A final row stays final under every transaction. */
  lemma FinalStays(db: Db, ev: Event, i: nat)
    requires WellFormed(db) && Final(db, i) && RespectsSolid(db, ev)
    ensures Final(Apply(db, ev), i)
  {
    match ev
    case Commit(block, depth, records) =>
      if Attempt(db, ev).Some? { CommitKeepsFinal(db, block, depth, records, i); }
    case Reconcile(records) =>
      if Attempt(db, ev).Some? { ReconcileKeepsFinal(db, records, i); }
    case Solidify(height, required, cooldown, now) => SolidifyKeepsFinal(db, height, required, cooldown, now, i);
    case Expire(ids, now, cooldown) => ExpireKeepsRows(db, ids, now, cooldown);
    case Fee(txid, height, timestamp, a, fee, now) => FeeKeepsFinal(db, txid, height, timestamp, a, fee, now, i);
    case GrantReceipt(txid, fee, topup, height, timestamp, wallet, now) =>
      GrantReceiptKeepsFinal(db, txid, fee, topup, height, timestamp, wallet, now, i);
    case _ =>
  }

  /** The set of final rows only grows, and the solidified height only rises, from any point of a run to its end. */
  lemma {:induction false} FinalityIsMonotone(db: Db, evs: seq<Event>, from: nat, i: nat)
    requires WellFormed(db) && from <= |evs|
    requires forall k :: from <= k < |evs| ==> RespectsSolid(Run(db, evs[..k]), evs[k])
    requires Final(Run(db, evs[..from]), i)
    ensures Final(Run(db, evs), i) && SolidHeight(Run(db, evs[..from])) <= SolidHeight(Run(db, evs))
    decreases |evs|
  {
    if from == |evs| {
      assert evs[..from] == evs;
    } else {
      var front, last := evs[..|evs| - 1], evs[|evs| - 1];
      assert front[..from] == evs[..from];
      forall k | from <= k < |front| ensures RespectsSolid(Run(db, front[..k]), front[k]) {
        assert front[..k] == evs[..k];
      }
      FinalityIsMonotone(db, front, from, i);
      RunWellFormed(db, front);
      FinalStays(Run(db, front), last, i);
      SolidHeightNeverFalls(Run(db, front), last);
    }
  }
}
