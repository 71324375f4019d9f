/**
 The ghost history of a run: the blocks of the current chain and the network fees booked outside it. A commit
 extends the chain, a rewind truncates it, and what a live payment row shares with a transfer is an entry.
 */
module ChainHistory {
  import opened Prelude
  import opened Tables
  import opened Ledger
  import opened Balances

  /** What a live row and a transfer in a block have in common. */
  datatype Entry = Entry(key: PaymentKey, content: Content, height: int, blockId: string, timestamp: int)

  function EntryOf(p: Payment): Entry {
    Entry(p.key, ContentOf(p), p.height, p.blockId, p.timestamp)
  }

  datatype Ingested = Ingested(block: Block, transfers: seq<Payment>)

  type History = seq<Ingested>

  /** The current chain, and the entries of the fee rows that receipts booked. */
  datatype Trail = Trail(history: History, fees: seq<Entry>)

  function Entries(transfers: seq<Payment>): (r: seq<Entry>)
    ensures |r| == |transfers| && forall i :: 0 <= i < |r| ==> r[i] == EntryOf(transfers[i])
  {
    seq(|transfers|, i requires 0 <= i < |transfers| => EntryOf(transfers[i]))
  }

  function ChainEntries(history: History): seq<Entry> {
    if history == [] then []
    else ChainEntries(history[..|history| - 1]) + Entries(history[|history| - 1].transfers)
  }

  function Booked(trail: Trail): seq<Entry> {
    ChainEntries(trail.history) + trail.fees
  }

  function LiveEntries(payments: seq<Payment>): seq<Entry> {
    if payments == [] then []
    else
      var front, p := LiveEntries(payments[..|payments| - 1]), payments[|payments| - 1];
      if p.status.Orphaned? then front else front + [EntryOf(p)]
  }

  /** The entries at or below a height. */
  function Below(s: seq<Entry>, ancestor: int): seq<Entry> {
    if s == [] then []
    else
      var front, e := Below(s[..|s| - 1], ancestor), s[|s| - 1];
      if e.height <= ancestor then front + [e] else front
  }

  // ----- How the trail moves -----

  /** The entry of a fee row that is booked now, and was not stored before. */
  function NewFee(payments: seq<Payment>, row: Payment): seq<Entry> {
    if row.amount > 0 && FindPayment(payments, row.key) == |payments| then [EntryOf(row)] else []
  }

  /** The trail without everything above a height of the chain. */
  function Truncated(trail: Trail, ancestor: int): Trail {
    var history := trail.history;
    var kept := if history != [] && 0 <= ancestor - history[0].block.height < |history|
                then history[..ancestor - history[0].block.height + 1] else history;
    Trail(kept, Below(trail.fees, ancestor))
  }

  /** A commit extends the chain and a rewind truncates it; receipts book fees. */
  function Advance(db: Db, trail: Trail, ev: Event): Trail {
    if Attempt(db, ev).None? then trail
    else
      match ev
      case Commit(block, _, records) => trail.(history := trail.history + [Ingested(block, records)])
      case Rewind(ancestor) => Truncated(trail, ancestor)
      case Fee(txid, height, timestamp, a, fee, now) =>
        trail.(fees := trail.fees + NewFee(db.payments, FeeRow(txid, height, timestamp, AddressAt(db, a), a, fee, now)))
      case GrantReceipt(txid, fee, _, height, timestamp, wallet, now) =>
        trail.(fees := trail.fees + NewFee(db.payments, FeeRow(txid, height, timestamp, AddressAt(db, wallet), wallet, fee, now)))
      case _ => trail
  }

  function TrailAfter(db: Db, evs: seq<Event>): Trail {
    if evs == [] then Trail([], [])
    else
      var front := evs[..|evs| - 1];
      Advance(Run(db, front), TrailAfter(db, front), evs[|evs| - 1])
  }

  // ----- Live rows as a multiset -----

  lemma LiveSnoc(payments: seq<Payment>, p: Payment)
    ensures LiveEntries(payments + [p]) == LiveEntries(payments) + (if p.status.Orphaned? then [] else [EntryOf(p)])
  {
    assert (payments + [p])[..|payments|] == payments;
  }

  lemma {:induction false} LiveRevived(payments: seq<Payment>, i: nat, p: Payment)
    requires i < |payments| && payments[i].status.Orphaned? && !p.status.Orphaned?
    ensures multiset(LiveEntries(payments[i := p])) == multiset(LiveEntries(payments)) + multiset{EntryOf(p)}
  {
    var front, last := payments[..|payments| - 1], payments[|payments| - 1];
    assert payments == front + [last];
    if i == |front| {
      assert payments[i := p] == front + [p];
      LiveSnoc(front, p);
      LiveSnoc(front, last);
    } else {
      assert payments[i := p] == front[i := p] + [last];
      LiveRevived(front, i, p);
      LiveSnoc(front[i := p], last);
      LiveSnoc(front, last);
    }
  }

  lemma {:induction false} LiveSame(s: seq<Payment>, t: seq<Payment>)
    requires |s| == |t|
    requires forall i :: 0 <= i < |s| ==> EntryOf(s[i]) == EntryOf(t[i]) && s[i].status.Orphaned? == t[i].status.Orphaned?
    ensures LiveEntries(s) == LiveEntries(t)
  {
    if s != [] {
      LiveSame(s[..|s| - 1], t[..|t| - 1]);
    }
  }

  lemma {:induction false} LiveMember(payments: seq<Payment>, i: nat)
    requires i < |payments| && !payments[i].status.Orphaned?
    ensures EntryOf(payments[i]) in LiveEntries(payments)
  {
    if i < |payments| - 1 {
      LiveMember(payments[..|payments| - 1], i);
    }
  }

  lemma {:induction false} LiveEntryHasRow(payments: seq<Payment>, e: Entry)
    requires e in LiveEntries(payments)
    ensures exists i :: 0 <= i < |payments| && !payments[i].status.Orphaned? && EntryOf(payments[i]) == e
  {
    var last := |payments| - 1;
    if e in LiveEntries(payments[..last]) {
      LiveEntryHasRow(payments[..last], e);
      var i :| 0 <= i < last && !payments[..last][i].status.Orphaned? && EntryOf(payments[..last][i]) == e;
      assert payments[i] == payments[..last][i];
    } else {
      assert EntryOf(payments[last]) == e;
    }
  }

  // ----- Truncation -----

  lemma BelowSnoc(s: seq<Entry>, e: Entry, ancestor: int)
    ensures Below(s + [e], ancestor) == if e.height <= ancestor then Below(s, ancestor) + [e] else Below(s, ancestor)
  {
    assert (s + [e])[..|s|] == s;
  }

  lemma {:induction false} BelowCount(s: seq<Entry>, ancestor: int, e: Entry)
    ensures multiset(Below(s, ancestor))[e] == if e.height <= ancestor then multiset(s)[e] else 0
  {
    if s != [] {
      assert s == s[..|s| - 1] + [s[|s| - 1]];
      BelowCount(s[..|s| - 1], ancestor, e);
    }
  }

  lemma BelowRespectsMultisets(s: seq<Entry>, t: seq<Entry>, ancestor: int)
    requires multiset(s) == multiset(t)
    ensures multiset(Below(s, ancestor)) == multiset(Below(t, ancestor))
  {
    forall e ensures multiset(Below(s, ancestor))[e] == multiset(Below(t, ancestor))[e] {
      BelowCount(s, ancestor, e);
      BelowCount(t, ancestor, e);
    }
  }

  lemma {:induction false} BelowAppend(s: seq<Entry>, t: seq<Entry>, ancestor: int)
    ensures Below(s + t, ancestor) == Below(s, ancestor) + Below(t, ancestor)
  {
    if t == [] {
      assert s + t == s;
    } else {
      var front, e := t[..|t| - 1], t[|t| - 1];
      assert s + t == (s + front) + [e];
      BelowAppend(s, front, ancestor);
      BelowSnoc(s + front, e, ancestor);
    }
  }

  lemma {:induction false} BelowAll(s: seq<Entry>, ancestor: int)
    requires forall e :: e in s ==> e.height <= ancestor
    ensures Below(s, ancestor) == s
  {
    if s != [] {
      BelowAll(s[..|s| - 1], ancestor);
    }
  }

  lemma {:induction false} BelowNone(s: seq<Entry>, ancestor: int)
    requires forall e :: e in s ==> e.height > ancestor
    ensures Below(s, ancestor) == []
  {
    if s != [] {
      BelowNone(s[..|s| - 1], ancestor);
    }
  }

  lemma {:induction false} OrphanedEntries(payments: seq<Payment>, ancestor: int)
    ensures LiveEntries(OrphanAbove(payments, ancestor)) == Below(LiveEntries(payments), ancestor)
  {
    if payments != [] {
      var front, p := payments[..|payments| - 1], payments[|payments| - 1];
      OrphanedEntries(front, ancestor);
      assert payments == front + [p];
      assert OrphanAbove(payments, ancestor) == OrphanAbove(front, ancestor) + [Orphan(p, ancestor)];
      LiveSnoc(OrphanAbove(front, ancestor), Orphan(p, ancestor));
      if !p.status.Orphaned? {
        BelowSnoc(LiveEntries(front), EntryOf(p), ancestor);
      }
    }
  }

  // ----- The chain -----

  ghost predicate Recorded(ingested: Ingested) {
    forall i :: 0 <= i < |ingested.transfers| ==>
                  && ingested.transfers[i].height == ingested.block.height
                  && ingested.transfers[i].blockId == ingested.block.id
                  && !ingested.transfers[i].status.Orphaned?
                  && ingested.transfers[i].key.logIndex >= 0
  }

  /** Heights count up by one, and each transfer carries the height and id of its block. */
  ghost predicate Contiguous(history: History) {
    forall i :: 0 <= i < |history| ==> history[i].block.height == history[0].block.height + i && Recorded(history[i])
  }

  lemma HistorySnoc(history: History, ingested: Ingested)
    ensures ChainEntries(history + [ingested]) == ChainEntries(history) + Entries(ingested.transfers)
  {
    assert (history + [ingested])[..|history|] == history;
  }

  lemma GrownContiguous(history: History, ingested: Ingested)
    requires Contiguous(history) && Recorded(ingested)
    requires history != [] ==> ingested.block.height == history[|history| - 1].block.height + 1
    ensures Contiguous(history + [ingested])
  {
  }

  /** An entry of the chain sits at its block's place, and is no fee. */
  lemma {:induction false} EntryHasBlock(history: History, e: Entry)
    requires Contiguous(history) && e in ChainEntries(history)
    ensures history != [] && 0 <= e.height - history[0].block.height < |history|
            && history[e.height - history[0].block.height].block.id == e.blockId
    ensures e.key.logIndex >= 0
  {
    var last := |history| - 1;
    if e in ChainEntries(history[..last]) {
      EntryHasBlock(history[..last], e);
    } else {
      assert Recorded(history[last]);
    }
  }

  lemma KeptWhole(history: History, ancestor: int)
    requires Contiguous(history)
    requires history != [] ==> history[0].block.height + |history| - 1 <= ancestor
    ensures Below(ChainEntries(history), ancestor) == ChainEntries(history)
  {
    forall e | e in ChainEntries(history) ensures e.height <= ancestor {
      EntryHasBlock(history, e);
    }
    BelowAll(ChainEntries(history), ancestor);
  }

  lemma DroppedBlock(b: Ingested, ancestor: int)
    requires Recorded(b) && b.block.height > ancestor
    ensures Below(Entries(b.transfers), ancestor) == []
  {
    BelowNone(Entries(b.transfers), ancestor);
  }

  lemma {:induction false} TruncatedEntries(history: History, ancestor: int)
    requires Contiguous(history)
    requires history != [] && 0 <= ancestor - history[0].block.height < |history|
    ensures ChainEntries(history[..ancestor - history[0].block.height + 1]) == Below(ChainEntries(history), ancestor)
    decreases |history|
  {
    var keep := ancestor - history[0].block.height + 1;
    var last := |history| - 1;
    if keep == |history| {
      assert history[..keep] == history;
      KeptWhole(history, ancestor);
    } else {
      var front := history[..last];
      assert front[..keep] == history[..keep];
      TruncatedEntries(front, ancestor);
      BelowAppend(ChainEntries(front), Entries(history[last].transfers), ancestor);
      DroppedBlock(history[last], ancestor);
    }
  }
}
