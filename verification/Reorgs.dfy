/**
 Reorganisations leave no trace in the ledger. The live payment rows are exactly the transfers of the current
 chain and the fees booked beside it, so the balances are what they would be had the abandoned forks never been
 ingested.
 */
module Reorgs {
  import opened Prelude
  import opened Tables
  import opened Ledger
  import opened Integrity
  import opened Balances
  import opened Conservation
  import opened ChainHistory

  // ----- The invariant -----

  /** A fee row is live or orphaned, never waiting, and its negative index is no transfer's. */
  ghost predicate FeesSettled(payments: seq<Payment>) {
    forall i :: 0 <= i < |payments| && payments[i].key.logIndex < 0 ==> payments[i].status.Confirmed? || payments[i].status.Orphaned?
  }

  ghost predicate FeeEntries(fees: seq<Entry>) {
    forall e :: e in fees ==> e.key.logIndex < 0
  }

  /** The live rows are the transfers of the chain and the booked fees. */
  ghost predicate SameEntries(payments: seq<Payment>, trail: Trail) {
    multiset(LiveEntries(payments)) == multiset(Booked(trail))
  }

  /** The cursor is at the end of the history, and the retained blocks are blocks of the history. */
  ghost predicate SameBlocks(db: Db, history: History) {
    && Contiguous(history)
    && (db.cursor.None? ==> history == [] && db.blocks == map[])
    && (db.cursor.Some? ==> history != [] && db.cursor.value.last == history[|history| - 1].block.height)
    && (forall h :: h in db.blocks ==> BlockAt(history, h, db.blocks[h]))
  }

  predicate BlockAt(history: History, h: int, block: Block) {
    history != [] && 0 <= h - history[0].block.height < |history| && history[h - history[0].block.height].block == block
  }

  ghost predicate Mirrors(db: Db, trail: Trail) {
    && SameEntries(db.payments, trail) && SameBlocks(db, trail.history)
    && FeesSettled(db.payments) && FeeEntries(trail.fees)
  }

  /** A live row that is no fee is a transfer of the chain. */
  lemma LiveTransferOnChain(db: Db, trail: Trail, i: nat)
    requires Mirrors(db, trail) && i < |db.payments|
    requires !db.payments[i].status.Orphaned? && db.payments[i].key.logIndex >= 0
    ensures EntryOf(db.payments[i]) in ChainEntries(trail.history)
  {
    LiveMember(db.payments, i);
    assert EntryOf(db.payments[i]) in multiset(Booked(trail));
  }

  /** A transfer of the chain has a live row. */
  lemma ChainTransferLive(db: Db, trail: Trail, e: Entry)
    requires Mirrors(db, trail) && e in ChainEntries(trail.history)
    ensures exists i :: 0 <= i < |db.payments| && !db.payments[i].status.Orphaned? && EntryOf(db.payments[i]) == e
  {
    assert e in multiset(Booked(trail));
    assert e in multiset(LiveEntries(db.payments));
    LiveEntryHasRow(db.payments, e);
  }

  // ----- Commit -----

  /** A committed block reports each transfer once, and none that the current chain already holds. */
  ghost predicate NewToChain(history: History, block: Block, records: seq<Payment>, identity: Identity) {
    && Recorded(Ingested(block, records))
    && Faithful(records, identity)
    && (forall i, j :: 0 <= i < j < |records| ==> records[i].key != records[j].key)
    && (forall i, e :: 0 <= i < |records| && e in ChainEntries(history) ==> e.key != records[i].key)
  }

  ghost predicate NotLive(payments: seq<Payment>, key: PaymentKey) {
    forall i :: 0 <= i < |payments| && !payments[i].status.Orphaned? ==> payments[i].key != key
  }

  lemma UpsertAddsEntry(payments: seq<Payment>, rec: Payment, identity: Identity)
    requires Faithful(payments, identity)
    requires ContentOf(rec) == identity(rec.key) && !rec.status.Orphaned?
    requires NotLive(payments, rec.key)
    ensures multiset(LiveEntries(UpsertRow(payments, rec))) == multiset(LiveEntries(payments)) + multiset{EntryOf(rec)}
  {
    UpsertRowShape(payments, rec);
    var i := FindPayment(payments, rec.key);
    if i < |payments| {
      LiveRevived(payments, i, Resighted(payments[i], rec));
    } else {
      LiveSnoc(payments, rec.(confirmedAt := None));
    }
  }

  /** What an upsert does to the rows of other keys, and to fee rows. */
  lemma UpsertElsewhere(payments: seq<Payment>, rec: Payment, key: PaymentKey)
    requires rec.key != key
    ensures NotLive(payments, key) ==> NotLive(UpsertRow(payments, rec), key)
    ensures rec.key.logIndex >= 0 && FeesSettled(payments) ==> FeesSettled(UpsertRow(payments, rec))
  {
    UpsertRowShape(payments, rec);
  }

  lemma IngestRows(db: Db, rec: Payment)
    requires Ingest(db, rec).Some?
    ensures Ingest(db, rec).value.payments == UpsertRow(db.payments, MatchRecord(db, rec))
    ensures Ingest(db, rec).value.blocks == db.blocks && Ingest(db, rec).value.cursor == db.cursor
  {
  }

  lemma {:induction false} IngestElsewhere(db: Db, records: seq<Payment>, key: PaymentKey)
    requires forall i :: 0 <= i < |records| ==> records[i].key != key && records[i].key.logIndex >= 0
    requires IngestAll(db, records).Some?
    ensures NotLive(db.payments, key) ==> NotLive(IngestAll(db, records).value.payments, key)
    ensures FeesSettled(db.payments) ==> FeesSettled(IngestAll(db, records).value.payments)
  {
    if records != [] {
      var front, last := records[..|records| - 1], records[|records| - 1];
      IngestElsewhere(db, front, key);
      var before := IngestAll(db, front).value;
      MatchKeepsContent(before, last);
      IngestRows(before, last);
      UpsertElsewhere(before.payments, MatchRecord(before, last), key);
    }
  }

  ghost predicate Arrivals(payments: seq<Payment>, records: seq<Payment>) {
    && (forall i :: 0 <= i < |records| ==>
          !records[i].status.Orphaned? && records[i].key.logIndex >= 0 && NotLive(payments, records[i].key))
    && (forall i, j :: 0 <= i < j < |records| ==> records[i].key != records[j].key)
  }

  lemma MatchKeepsEntry(db: Db, rec: Payment)
    ensures EntryOf(MatchRecord(db, rec)) == EntryOf(rec)
    ensures MatchRecord(db, rec).status.Orphaned? ==> rec.status.Orphaned?
  {
  }

  lemma IngestAddsEntry(db: Db, rec: Payment, identity: Identity)
    requires Faithful(db.payments, identity)
    requires ContentOf(rec) == identity(rec.key) && !rec.status.Orphaned?
    requires NotLive(db.payments, rec.key)
    requires Ingest(db, rec).Some?
    ensures multiset(LiveEntries(Ingest(db, rec).value.payments)) == multiset(LiveEntries(db.payments)) + multiset{EntryOf(rec)}
  {
    MatchKeepsEntry(db, rec);
    IngestRows(db, rec);
    UpsertAddsEntry(db.payments, MatchRecord(db, rec), identity);
  }

  lemma EntriesSnoc(front: seq<Payment>, last: Payment)
    ensures multiset(Entries(front + [last])) == multiset(Entries(front)) + multiset{EntryOf(last)}
  {
    assert Entries(front + [last]) == Entries(front) + [EntryOf(last)];
  }

  lemma {:induction false} IngestAddsEntries(db: Db, records: seq<Payment>, identity: Identity)
    requires WellFormed(db) && Cached(db) && Faithful(db.payments, identity)
    requires Faithful(records, identity) && Arrivals(db.payments, records)
    requires IngestAll(db, records).Some?
    ensures multiset(LiveEntries(IngestAll(db, records).value.payments))
         == multiset(LiveEntries(db.payments)) + multiset(Entries(records))
  {
    if records != [] {
      var front, last := records[..|records| - 1], records[|records| - 1];
      assert records == front + [last];
      EntriesSnoc(front, last);
      assert Arrivals(db.payments, front);
      IngestAddsEntries(db, front, identity);
      IngestKeepsCache(db, front, identity);
      IngestElsewhere(db, front, last.key);
      IngestAddsEntry(IngestAll(db, front).value, last, identity);
    }
  }

  /** A key that no entry of the current chain carries has no live row. */
  lemma AbsentIsNotLive(db: Db, trail: Trail, key: PaymentKey)
    requires Mirrors(db, trail) && key.logIndex >= 0
    requires forall e :: e in ChainEntries(trail.history) ==> e.key != key
    ensures NotLive(db.payments, key)
  {
    forall i | 0 <= i < |db.payments| && !db.payments[i].status.Orphaned? && db.payments[i].key.logIndex >= 0
      ensures db.payments[i].key != key
    {
      LiveTransferOnChain(db, trail, i);
    }
  }

  lemma CommitAddsEntries(db: Db, trail: Trail, block: Block, depth: int, records: seq<Payment>, identity: Identity)
    requires Sound(db, identity) && Mirrors(db, trail)
    requires NewToChain(trail.history, block, records, identity)
    requires CommitBlock(db, block, depth, records).Some?
    ensures var after := CommitBlock(db, block, depth, records).value;
            && multiset(LiveEntries(after.payments)) == multiset(LiveEntries(db.payments)) + multiset(Entries(records))
            && FeesSettled(after.payments)
  {
    var inserted := db.(blocks := db.blocks[block.height := block]);
    CacheFrame(db, inserted);
    forall i | 0 <= i < |records|
      ensures !records[i].status.Orphaned? && records[i].key.logIndex >= 0 && NotLive(inserted.payments, records[i].key)
    {
      assert Ingested(block, records).transfers[i] == records[i];
      AbsentIsNotLive(db, trail, records[i].key);
    }
    IngestAddsEntries(inserted, records, identity);
    IngestElsewhere(inserted, records, PaymentKey("", -1));
  }

  lemma CommitBooks(trail: Trail, block: Block, records: seq<Payment>)
    ensures multiset(Booked(trail.(history := trail.history + [Ingested(block, records)])))
         == multiset(Booked(trail)) + multiset(Entries(records))
  {
    HistorySnoc(trail.history, Ingested(block, records));
  }

  lemma OldBlocksStay(history: History, ingested: Ingested, h: int, block: Block)
    requires BlockAt(history, h, block)
    ensures BlockAt(history + [ingested], h, block)
  {
  }

  lemma CommitFollowsBlocks(db: Db, history: History, block: Block, depth: int, records: seq<Payment>)
    requires SameBlocks(db, history) && Recorded(Ingested(block, records))
    requires CommitBlock(db, block, depth, records).Some?
    ensures SameBlocks(CommitBlock(db, block, depth, records).value, history + [Ingested(block, records)])
  {
    CommitShape(db, block, depth, records);
    var after, ingested := CommitBlock(db, block, depth, records).value, Ingested(block, records);
    GrownContiguous(history, ingested);
    forall h | h in after.blocks ensures BlockAt(history + [ingested], h, after.blocks[h]) {
      if h != block.height {
        OldBlocksStay(history, ingested, h, db.blocks[h]);
      }
    }
  }

  lemma CommitMirrors(db: Db, trail: Trail, block: Block, depth: int, records: seq<Payment>, identity: Identity)
    requires Sound(db, identity) && Mirrors(db, trail)
    requires NewToChain(trail.history, block, records, identity)
    requires CommitBlock(db, block, depth, records).Some?
    ensures Mirrors(CommitBlock(db, block, depth, records).value, trail.(history := trail.history + [Ingested(block, records)]))
  {
    CommitAddsEntries(db, trail, block, depth, records, identity);
    CommitBooks(trail, block, records);
    CommitFollowsBlocks(db, trail.history, block, depth, records);
  }

  // ----- Rewind -----

  lemma RewindFollowsBlocks(db: Db, history: History, ancestor: int)
    requires SameBlocks(db, history)
    requires RewindChain(db, ancestor).Some?
    ensures history != [] && 0 <= ancestor - history[0].block.height < |history|
    ensures SameBlocks(RewindChain(db, ancestor).value, history[..ancestor - history[0].block.height + 1])
  {
    assert BlockAt(history, ancestor, db.blocks[ancestor]);
    var after, kept := RewindChain(db, ancestor).value, history[..ancestor - history[0].block.height + 1];
    forall h | h in after.blocks ensures BlockAt(kept, h, after.blocks[h]) {
      assert BlockAt(history, h, db.blocks[h]);
    }
  }

  lemma TruncatedBooks(trail: Trail, ancestor: int)
    requires Contiguous(trail.history)
    requires trail.history != [] && 0 <= ancestor - trail.history[0].block.height < |trail.history|
    ensures Booked(Truncated(trail, ancestor)) == Below(Booked(trail), ancestor)
  {
    BelowAppend(ChainEntries(trail.history), trail.fees, ancestor);
    TruncatedEntries(trail.history, ancestor);
  }

  lemma RewindFollowsEntries(payments: seq<Payment>, trail: Trail, ancestor: int)
    requires SameEntries(payments, trail) && Contiguous(trail.history)
    requires trail.history != [] && 0 <= ancestor - trail.history[0].block.height < |trail.history|
    ensures SameEntries(OrphanAbove(payments, ancestor), Truncated(trail, ancestor))
  {
    OrphanedEntries(payments, ancestor);
    BelowRespectsMultisets(LiveEntries(payments), Booked(trail), ancestor);
    TruncatedBooks(trail, ancestor);
  }

  lemma {:induction false} BelowIsPart(s: seq<Entry>, ancestor: int)
    ensures forall e :: e in Below(s, ancestor) ==> e in s
  {
    if s != [] {
      BelowIsPart(s[..|s| - 1], ancestor);
    }
  }

  lemma RewindRows(db: Db, ancestor: int)
    requires RewindChain(db, ancestor).Some?
    ensures RewindChain(db, ancestor).value.payments == OrphanAbove(db.payments, ancestor)
  {
  }

  lemma OrphansSettled(payments: seq<Payment>, ancestor: int)
    requires FeesSettled(payments)
    ensures FeesSettled(OrphanAbove(payments, ancestor))
  {
  }

  lemma FeesBelow(fees: seq<Entry>, ancestor: int)
    requires FeeEntries(fees)
    ensures FeeEntries(Below(fees, ancestor))
  {
    BelowIsPart(fees, ancestor);
  }

  lemma RewindEntries(db: Db, trail: Trail, ancestor: int)
    requires RewindChain(db, ancestor).Some? && SameEntries(db.payments, trail) && FeesSettled(db.payments)
    requires Contiguous(trail.history) && trail.history != [] && 0 <= ancestor - trail.history[0].block.height < |trail.history|
    ensures var rows := RewindChain(db, ancestor).value.payments;
            SameEntries(rows, Truncated(trail, ancestor)) && FeesSettled(rows)
  {
    RewindFollowsEntries(db.payments, trail, ancestor);
    RewindRows(db, ancestor);
    OrphansSettled(db.payments, ancestor);
  }

  /** A rewind takes back exactly the transfers and fees above the ancestor. */
  lemma RewindMirrors(db: Db, trail: Trail, ancestor: int)
    requires Mirrors(db, trail)
    requires RewindChain(db, ancestor).Some?
    ensures Mirrors(RewindChain(db, ancestor).value, Truncated(trail, ancestor))
  {
    RewindFollowsBlocks(db, trail.history, ancestor);
    RewindEntries(db, trail, ancestor);
    FeesBelow(trail.fees, ancestor);
    assert Truncated(trail, ancestor) == Trail(trail.history[..ancestor - trail.history[0].block.height + 1], Below(trail.fees, ancestor));
  }

  // ----- Rows that keep their entry -----

  /** Rows that keep their entry and their life keep the mirror. */
  lemma SameRowsMirror(db: Db, after: Db, trail: Trail)
    requires Mirrors(db, trail)
    requires |after.payments| == |db.payments|
    requires forall i :: 0 <= i < |db.payments| ==>
               && EntryOf(after.payments[i]) == EntryOf(db.payments[i])
               && after.payments[i].status.Orphaned? == db.payments[i].status.Orphaned?
               && (db.payments[i].status.Confirmed? ==> after.payments[i].status.Confirmed?)
    requires after.blocks == db.blocks && after.cursor.Some? == db.cursor.Some?
    requires db.cursor.Some? ==> after.cursor.value.last == db.cursor.value.last
    ensures Mirrors(after, trail)
  {
    LiveSame(after.payments, db.payments);
    forall i | 0 <= i < |after.payments| && after.payments[i].key.logIndex < 0
      ensures after.payments[i].status.Confirmed? || after.payments[i].status.Orphaned?
    {
      assert EntryOf(after.payments[i]).key == EntryOf(db.payments[i]).key;
    }
  }

  /** On a mirrored chain no live row disagrees with the retained block at its height. */
  lemma NothingMismatched(db: Db, trail: Trail, i: nat, solidified: int)
    requires Mirrors(db, trail) && i < |db.payments|
    ensures !Mismatched(db, db.payments[i], solidified)
  {
    var p := db.payments[i];
    if Unconfirmed(p) && p.height in db.blocks {
      LiveTransferOnChain(db, trail, i);
      EntryHasBlock(trail.history, EntryOf(p));
      assert BlockAt(trail.history, p.height, db.blocks[p.height]);
    }
  }

  lemma SettleKeepsEntry(db: Db, p: Payment, required: int, stamp: int)
    requires db.cursor.Some? && !Mismatched(db, p, db.cursor.value.solidified)
    ensures var r := Settle(db, p, required, stamp);
            && EntryOf(r) == EntryOf(p) && r.status.Orphaned? == p.status.Orphaned?
            && (p.status.Confirmed? ==> r.status.Confirmed?)
  {
  }

  lemma SolidifyMirrors(db: Db, trail: Trail, height: int, required: int, cooldown: int, now: int)
    requires Mirrors(db, trail)
    requires ApplySolidifiedHeight(db, height, required, cooldown, now).Some?
    ensures Mirrors(ApplySolidifiedHeight(db, height, required, cooldown, now).value, trail)
  {
    var after, raised := ApplySolidifiedHeight(db, height, required, cooldown, now).value, Solidified(db, height);
    SolidifyShape(db, height, required, cooldown, now);
    SameRowsMirror(db, raised, trail);
    forall i | 0 <= i < |db.payments|
      ensures EntryOf(after.payments[i]) == EntryOf(db.payments[i])
              && after.payments[i].status.Orphaned? == db.payments[i].status.Orphaned?
              && (db.payments[i].status.Confirmed? ==> after.payments[i].status.Confirmed?)
    {
      NothingMismatched(raised, trail, i, raised.cursor.value.solidified);
      SettleKeepsEntry(raised, raised.payments[i], required, now);
    }
    SameRowsMirror(db, after, trail);
  }

  lemma AttributeMirrors(db: Db, trail: Trail, payment: nat, order: string)
    requires Mirrors(db, trail)
    requires AttributePayment(db, payment, order).Some?
    ensures Mirrors(AttributePayment(db, payment, order).value, trail)
  {
    SameRowsMirror(db, AttributePayment(db, payment, order).value, trail);
  }

  // ----- The safety net -----

  /** The safety net reports transfers of the current chain, with the data of their blocks. */
  ghost predicate OnChain(history: History, records: seq<Payment>) {
    forall i :: 0 <= i < |records| ==> !records[i].status.Orphaned? && EntryOf(records[i]) in ChainEntries(history)
  }

  /** Sighting a live row again changes neither its entry nor its life. */
  lemma ResightedLive(payments: seq<Payment>, rec: Payment, i: nat)
    requires DistinctKeys(payments)
    requires i < |payments| && !payments[i].status.Orphaned? && EntryOf(payments[i]) == EntryOf(rec)
    ensures UpsertRow(payments, rec) == payments[i := Resighted(payments[i], rec)]
    ensures EntryOf(Resighted(payments[i], rec)) == EntryOf(payments[i]) && Resighted(payments[i], rec).status == payments[i].status
  {
    var j := FindPayment(payments, rec.key);
    assert payments[i].key == rec.key;
    assert j == i;
  }

  lemma ResightRow(db: Db, after: Db, trail: Trail, rec: Payment, i: nat)
    requires DistinctKeys(db.payments) && Mirrors(db, trail)
    requires i < |db.payments| && !db.payments[i].status.Orphaned? && EntryOf(db.payments[i]) == EntryOf(rec)
    requires after.payments == UpsertRow(db.payments, rec) && after.blocks == db.blocks && after.cursor == db.cursor
    ensures Mirrors(after, trail)
  {
    ResightedLive(db.payments, rec, i);
    SameRowsMirror(db, after, trail);
  }

  lemma ResightMirrors(db: Db, trail: Trail, rec: Payment)
    requires WellFormed(db) && Mirrors(db, trail)
    requires !rec.status.Orphaned? && EntryOf(rec) in ChainEntries(trail.history)
    requires Ingest(db, rec).Some?
    ensures Mirrors(Ingest(db, rec).value, trail)
  {
    MatchKeepsEntry(db, rec);
    ChainTransferLive(db, trail, EntryOf(rec));
    var i :| 0 <= i < |db.payments| && !db.payments[i].status.Orphaned? && EntryOf(db.payments[i]) == EntryOf(rec);
    IngestRows(db, rec);
    ResightRow(db, Ingest(db, rec).value, trail, MatchRecord(db, rec), i);
  }

  lemma {:induction false} ReconcileMirrors(db: Db, trail: Trail, records: seq<Payment>)
    requires WellFormed(db) && Mirrors(db, trail) && OnChain(trail.history, records)
    requires IngestAll(db, records).Some?
    ensures Mirrors(IngestAll(db, records).value, trail)
  {
    if records != [] {
      var front, last := records[..|records| - 1], records[|records| - 1];
      ReconcileMirrors(db, trail, front);
      IngestWellFormed(db, front);
      ResightMirrors(IngestAll(db, front).value, trail, last);
    }
  }

  // ----- Receipts -----

  lemma FeeMirrors(payments: seq<Payment>, trail: Trail, row: Payment, fee: nat)
    requires SameEntries(payments, trail) && FeesSettled(payments) && FeeEntries(trail.fees)
    requires row.key.logIndex < 0 && row.status.Confirmed? && row.amount == fee
    ensures var rows := if fee > 0 then InsertIfAbsent(payments, row) else payments;
            var booked := trail.(fees := trail.fees + NewFee(payments, row));
            SameEntries(rows, booked) && FeesSettled(rows) && FeeEntries(booked.fees)
  {
    if fee > 0 && FindPayment(payments, row.key) == |payments| {
      LiveSnoc(payments, row);
      assert Booked(trail.(fees := trail.fees + [EntryOf(row)])) == Booked(trail) + [EntryOf(row)];
    } else {
      assert trail.fees + NewFee(payments, row) == trail.fees;
    }
  }

  lemma RecordFeeMirrors(db: Db, trail: Trail, ev: Event)
    requires Mirrors(db, trail) && ev.Fee? && Attempt(db, ev).Some?
    ensures Mirrors(Apply(db, ev), Advance(db, trail, ev))
  {
    FeeMirrors(db.payments, trail, FeeRow(ev.txid, ev.height, ev.timestamp, AddressAt(db, ev.addressId), ev.addressId, ev.fee, ev.now), ev.fee);
    FeeShape(db, ev.txid, ev.height, ev.timestamp, ev.addressId, ev.fee, ev.now);
  }

  lemma FeeShape(db: Db, txid: string, height: int, timestamp: int, a: nat, fee: nat, now: int)
    requires RecordFee(db, txid, height, timestamp, a, fee, now).Some?
    ensures var after := RecordFee(db, txid, height, timestamp, a, fee, now).value;
            && after.payments == FeeInserted(db, txid, height, timestamp, a, fee, now)
            && after.blocks == db.blocks && after.cursor == db.cursor
  {
  }

  /** The transfer of a top-up is on the chain before its receipt is solid. */
  ghost predicate TopupLive(payments: seq<Payment>, txid: string) {
    exists i :: 0 <= i < |payments| && payments[i].key == PaymentKey(txid, 0) && !payments[i].status.Orphaned?
  }

  /** Confirming the live row of a top-up keeps its entry. */
  lemma TopupConfirms(payments: seq<Payment>, trail: Trail, row: Payment)
    requires DistinctKeys(payments) && SameEntries(payments, trail) && FeesSettled(payments)
    requires exists i :: 0 <= i < |payments| && payments[i].key == row.key && !payments[i].status.Orphaned?
    ensures SameEntries(ConfirmOrInsert(payments, row), trail) && FeesSettled(ConfirmOrInsert(payments, row))
  {
    var i :| 0 <= i < |payments| && payments[i].key == row.key && !payments[i].status.Orphaned?;
    assert FindPayment(payments, row.key) == i;
    LiveSame(ConfirmOrInsert(payments, row), payments);
  }

  lemma FeeKeepsTopup(payments: seq<Payment>, row: Payment, txid: string)
    requires DistinctKeys(payments) && TopupLive(payments, txid) && row.key.logIndex < 0
    ensures DistinctKeys(InsertIfAbsent(payments, row)) && TopupLive(InsertIfAbsent(payments, row), txid)
  {
    var i :| 0 <= i < |payments| && payments[i].key == PaymentKey(txid, 0) && !payments[i].status.Orphaned?;
    assert InsertIfAbsent(payments, row)[i] == payments[i];
  }

  lemma ReceiptMirrors(db: Db, trail: Trail, ev: Event)
    requires WellFormed(db) && Mirrors(db, trail) && ev.GrantReceipt? && Attempt(db, ev).Some?
    requires ev.topup.Some? ==> TopupLive(db.payments, ev.txid)
    ensures Mirrors(Apply(db, ev), Advance(db, trail, ev))
  {
    var row := FeeRow(ev.txid, ev.height, ev.timestamp, AddressAt(db, ev.wallet), ev.wallet, ev.fee, ev.now);
    var fees := FeeInserted(db, ev.txid, ev.height, ev.timestamp, ev.wallet, ev.fee, ev.now);
    var booked := trail.(fees := trail.fees + NewFee(db.payments, row));
    FeeMirrors(db.payments, trail, row, ev.fee);
    ReceiptShape(db, ev.txid, ev.fee, ev.topup, ev.height, ev.timestamp, ev.wallet, ev.now);
    if ev.topup.Some? {
      FeeKeepsTopup(db.payments, row, ev.txid);
      TopupConfirms(fees, booked, TopupRow(ev.txid, ev.height, ev.timestamp, AddressAt(db, ev.wallet), ev.topup.value.0,
                                           ev.wallet, ev.topup.value.1, ev.now));
    }
  }

  // ----- Every run -----

  /** What an event reports about the chain is true of the current one. */
  ghost predicate Genuine(db: Db, trail: Trail, ev: Event, identity: Identity) {
    && Honest(db, ev, identity)
    && (ev.Commit? ==> NewToChain(trail.history, ev.block, ev.records, identity))
    && (ev.Reconcile? ==> OnChain(trail.history, ev.records))
    && (ev.GrantReceipt? && ev.topup.Some? ==> TopupLive(db.payments, ev.txid))
  }

  predicate Housekeeping(ev: Event) {
    ev.Create? || ev.TopUp? || ev.Release? || ev.Disable? || ev.Cancel? || ev.Extend? || ev.Expire? || ev.Suspect? || ev.ClearSuspicion?
  }

  lemma PoolKeepsRows(db: Db, ev: Event)
    requires ev.Create? || ev.TopUp? || ev.Release? || ev.Disable? || ev.Cancel? || ev.Extend?
    ensures var after := Apply(db, ev); after.payments == db.payments && after.blocks == db.blocks && after.cursor == db.cursor
  {
  }

  lemma HousekeepingMirrors(db: Db, trail: Trail, ev: Event)
    requires Mirrors(db, trail) && Housekeeping(ev)
    ensures Mirrors(Apply(db, ev), trail)
  {
    if ev.Expire? {
      ExpireKeepsRows(db, ev.ids, ev.now, ev.cooldown);
    } else if !ev.Suspect? && !ev.ClearSuspicion? {
      PoolKeepsRows(db, ev);
    }
    SameRowsMirror(db, Apply(db, ev), trail);
  }

  lemma TrailFollows(db: Db, trail: Trail, ev: Event)
    requires Attempt(db, ev).Some?
    ensures ev.Commit? ==> Advance(db, trail, ev) == trail.(history := trail.history + [Ingested(ev.block, ev.records)])
    ensures ev.Rewind? ==> Advance(db, trail, ev) == Truncated(trail, ev.ancestor)
    ensures ev.Commit? ==> CommitBlock(db, ev.block, ev.depth, ev.records) == Some(Apply(db, ev))
    ensures ev.Rewind? ==> RewindChain(db, ev.ancestor) == Some(Apply(db, ev))
  {
  }

  lemma FollowerMirrors(db: Db, trail: Trail, ev: Event, identity: Identity)
    requires Sound(db, identity) && Mirrors(db, trail) && Genuine(db, trail, ev, identity)
    requires (ev.Commit? || ev.Rewind?) && Attempt(db, ev).Some?
    ensures Mirrors(Apply(db, ev), Advance(db, trail, ev))
  {
    TrailFollows(db, trail, ev);
    if ev.Commit? {
      CommitMirrors(db, trail, ev.block, ev.depth, ev.records, identity);
    } else {
      RewindMirrors(db, trail, ev.ancestor);
    }
  }

  /** Events that leave the trail alone. */
  lemma StillMirrors(db: Db, trail: Trail, ev: Event, identity: Identity)
    requires Sound(db, identity) && Mirrors(db, trail) && Genuine(db, trail, ev, identity)
    requires Housekeeping(ev) || ev.Solidify? || ev.Attribute? || ev.Reconcile?
    requires Attempt(db, ev).Some?
    ensures Mirrors(Apply(db, ev), trail)
  {
    if ev.Solidify? {
      SolidifyMirrors(db, trail, ev.height, ev.required, ev.cooldown, ev.now);
    } else if ev.Attribute? {
      AttributeMirrors(db, trail, ev.payment, ev.order);
    } else if ev.Reconcile? {
      ReconcileMirrors(db, trail, ev.records);
    } else {
      HousekeepingMirrors(db, trail, ev);
    }
  }

  lemma TrailStays(db: Db, trail: Trail, ev: Event)
    requires Housekeeping(ev) || ev.Solidify? || ev.Attribute? || ev.Reconcile? || Attempt(db, ev).None?
    ensures Advance(db, trail, ev) == trail
  {
  }

  lemma ApplyMirrors(db: Db, trail: Trail, ev: Event, identity: Identity)
    requires Sound(db, identity) && Mirrors(db, trail)
    requires Genuine(db, trail, ev, identity)
    ensures Mirrors(Apply(db, ev), Advance(db, trail, ev))
  {
    if Attempt(db, ev).None? {
      TrailStays(db, trail, ev);
    } else if ev.Commit? || ev.Rewind? {
      FollowerMirrors(db, trail, ev, identity);
    } else if ev.Fee? {
      RecordFeeMirrors(db, trail, ev);
    } else if ev.GrantReceipt? {
      ReceiptMirrors(db, trail, ev);
    } else {
      TrailStays(db, trail, ev);
      StillMirrors(db, trail, ev, identity);
    }
  }

  ghost predicate GenuineRun(db: Db, evs: seq<Event>, identity: Identity) {
    forall i :: 0 <= i < |evs| ==> Genuine(Run(db, evs[..i]), TrailAfter(db, evs[..i]), evs[i], identity)
  }

  ghost predicate Unstarted(db: Db) {
    db.payments == [] && db.blocks == map[] && db.cursor.None?
  }

  lemma GenuineFront(db: Db, evs: seq<Event>, identity: Identity)
    requires evs != [] && GenuineRun(db, evs, identity)
    ensures GenuineRun(db, evs[..|evs| - 1], identity)
  {
    var front := evs[..|evs| - 1];
    forall i | 0 <= i < |front| ensures Genuine(Run(db, front[..i]), TrailAfter(db, front[..i]), front[i], identity) {
      assert front[..i] == evs[..i];
    }
  }

  /** After any run the live rows are exactly the transfers of the surviving chain and the fees booked with it. */
  lemma {:induction false} LiveRowsAreTheChain(db: Db, evs: seq<Event>, identity: Identity)
    requires Sound(db, identity) && Unstarted(db)
    requires GenuineRun(db, evs, identity)
    ensures Sound(Run(db, evs), identity)
    ensures Mirrors(Run(db, evs), TrailAfter(db, evs))
  {
    if evs != [] {
      var front, last := evs[..|evs| - 1], evs[|evs| - 1];
      GenuineFront(db, evs, identity);
      LiveRowsAreTheChain(db, front, identity);
      assert Genuine(Run(db, evs[..|evs| - 1]), TrailAfter(db, evs[..|evs| - 1]), last, identity);
      ApplyKeepsCache(Run(db, front), last, identity);
      ApplyMirrors(Run(db, front), TrailAfter(db, front), last, identity);
    }
  }

  // ----- Balances -----

  /** What one transfer of the chain moves at an address. */
  function EntryEffect(a: nat, address: string, asset: string): Entry -> int {
    (e: Entry) =>
      var amount: int := e.content.amount;
      if e.content.asset != asset then 0
      else if e.content.addressId == Some(a) then (if e.content.direction.Out? then -amount else amount)
      else if e.content.direction.Out? && e.content.to == address then amount
      else 0
  }

  lemma LiveRowEffect(p: Payment, a: nat, address: string, asset: string)
    ensures LiveEffect(p, a, address, asset) == if p.status.Orphaned? then 0 else EntryEffect(a, address, asset)(EntryOf(p))
  {
  }

  lemma {:induction false} LiveSum(payments: seq<Payment>, a: nat, address: string, asset: string)
    ensures Sum(payments, LiveAt(a, address, asset)) == Sum(LiveEntries(payments), EntryEffect(a, address, asset))
  {
    if payments != [] {
      var front, p := payments[..|payments| - 1], payments[|payments| - 1];
      var f, g := LiveAt(a, address, asset), EntryEffect(a, address, asset);
      LiveSum(front, a, address, asset);
      LiveRowEffect(p, a, address, asset);
      assert Sum(payments, f) == Sum(front, f) + f(p);
      if p.status.Orphaned? {
        assert LiveEntries(payments) == LiveEntries(front);
      } else {
        assert LiveEntries(payments) == LiveEntries(front) + [EntryOf(p)];
        SumSnoc(LiveEntries(front), EntryOf(p), g);
      }
    }
  }

  lemma MirroredBalance(db: Db, trail: Trail, key: BalanceKey)
    requires Cached(db) && Mirrors(db, trail) && key.0 < |db.addresses|
    ensures BalanceAt(db, key).confirmed + BalanceAt(db, key).pending
         == Sum(Booked(trail), EntryEffect(key.0, AddressAt(db, key.0), key.1))
  {
    assert Agrees(db, key);
    BucketsPartition(db.payments, key.0, AddressAt(db, key.0), key.1);
    LiveSum(db.payments, key.0, AddressAt(db, key.0), key.1);
    SumMultiset(LiveEntries(db.payments), Booked(trail), EntryEffect(key.0, AddressAt(db, key.0), key.1));
  }

  /** After any run confirmed plus pending is the sum over the surviving chain and the fees booked with it. */
  lemma BalancesFollowTheChain(db: Db, evs: seq<Event>, identity: Identity, key: BalanceKey)
    requires Sound(db, identity) && Unstarted(db)
    requires GenuineRun(db, evs, identity)
    ensures var after := Run(db, evs);
            key.0 < |after.addresses| ==>
              BalanceAt(after, key).confirmed + BalanceAt(after, key).pending
              == Sum(Booked(TrailAfter(db, evs)), EntryEffect(key.0, AddressAt(after, key.0), key.1))
  {
    LiveRowsAreTheChain(db, evs, identity);
    if key.0 < |Run(db, evs).addresses| {
      MirroredBalance(Run(db, evs), TrailAfter(db, evs), key);
    }
  }

  /** Two runs that end on the same chain with the same fees, and the same address behind a key. */
  ghost predicate SameEnd(db: Db, evs: seq<Event>, other: Db, others: seq<Event>, key: BalanceKey) {
    && multiset(Booked(TrailAfter(db, evs))) == multiset(Booked(TrailAfter(other, others)))
    && key.0 < |Run(db, evs).addresses| && key.0 < |Run(other, others).addresses|
    && AddressAt(Run(db, evs), key.0) == AddressAt(Run(other, others), key.0)
  }

  /**
   Two runs that end on the same chain hold the same money at the same address, whatever forks, confirmations,
   attributions and order changes each of them went through.
   */
  lemma ForksLeaveNoTrace(db: Db, evs: seq<Event>, other: Db, others: seq<Event>, identity: Identity, key: BalanceKey)
    requires Sound(db, identity) && Unstarted(db) && GenuineRun(db, evs, identity)
    requires Sound(other, identity) && Unstarted(other) && GenuineRun(other, others, identity)
    ensures SameEnd(db, evs, other, others, key) ==>
              BalanceAt(Run(db, evs), key).confirmed + BalanceAt(Run(db, evs), key).pending
              == BalanceAt(Run(other, others), key).confirmed + BalanceAt(Run(other, others), key).pending
  {
    if SameEnd(db, evs, other, others, key) {
      BalancesFollowTheChain(db, evs, identity, key);
      BalancesFollowTheChain(other, others, identity, key);
      SumMultiset(Booked(TrailAfter(db, evs)), Booked(TrailAfter(other, others)),
                  EntryEffect(key.0, AddressAt(Run(db, evs), key.0), key.1));
    }
  }
}
