/**
 The withdrawal engine, over a session with the store. The outside answers anything, by the number of calls made.
 */
module WithdrawalEngine {
  import opened Prelude
  import opened Tables
  import opened Ledger
  import opened Payouts
  import opened Broadcasts
  import opened PayoutStore
  import opened EngineSession
  import opened Claims
  import opened Delegation

  // ----- The outside world -----

  /** A transaction lookup: no answer, an unreadable one, or one that says whether the chain has it. */
  datatype Lookup = Unreachable | Garbled | Absent | Found

  datatype Receipt = NoReceipt | Unreadable | Unsolid | Solid(fee: int, height: int, timestamp: int, success: bool)

  /** How classifyBroadcast reads a response; only five error codes are deterministic. */
  datatype Reply = Accepted | Ambiguous | Deterministic

  datatype PriceQuote = NoQuote | BadQuote | Price(trx: real)

  /** The provider's word on an order: no answer, an order or status in progress, success, or failure. */
  datatype ProviderState = Silent | InProgress | Succeeded | Refused

  /** What an address has, and the network's limits and weights for one unit of each resource. */
  datatype Resources = Resources(energy: int, bandwidth: int, energyLimit: int, energyWeight: int, bandwidthLimit: int, bandwidthWeight: int)

  /** The chain's fees per unit, in sun, as last fetched. */
  datatype Parameters = ReadError | NotFetched | Fees(energy: int, bandwidth: int)

  /** delegation is a prepared and signed grant, its id and expiry; account is an address's TRX on the chain. */
  datatype World = World(
    clock: nat -> int, reference: nat -> Option<int>, sign: (nat, nat) -> Option<string>, reply: nat -> Reply,
    lookup: nat -> Lookup, receipt: nat -> Receipt, quote: nat -> PriceQuote, provider: nat -> ProviderState, newId: nat -> nat,
    delegation: nat -> Option<(string, int)>, resources: nat -> Option<Resources>, parameters: nat -> Parameters,
    account: nat -> Option<int>)

  /**
   Durations are seconds; provider is whether one is configured, enabled whether renting is allowed. maxBurn and
   topup are in sun, None when the configured text is no amount.
   */
  datatype Config = Config(
    expiration: int, provider: bool, enabled: bool, maxPrice: real, pollInterval: int, pollTimeout: int, wallet: nat,
    natives: map<string, bool>, minEnergy: int, minBandwidth: int, fallbackToBurn: bool, maxBurn: Option<nat>,
    delegatesBandwidth: bool, topup: Option<nat>)

  const CIRCUIT_FAILURES := 5
  const CIRCUIT_SECONDS := 600

  predicate CircuitHolds(until: Option<int>, now: int) {
    until.Some? && now < until.value
  }

  // ----- The engine -----

  class Engine {
    const session: Session
    const store: PayoutStore
    const world: World
    const config: Config
    var calls: nat
    var circuitUntil: Option<int>
    var nextEnergyPoll: map<nat, int>

    constructor (session: Session, world: World, config: Config)
      requires session.Valid()
      ensures Valid() && this.session == session && this.world == world && this.config == config
    {
      this.session, this.store, this.world, this.config := session, session.store, world, config;
      calls, circuitUntil, nextEnergyPoll := 0, None, map[];
    }

    ghost predicate Valid()
      reads session, store
    {
      store == session.store && session.Valid()
    }

    // ----- Withdrawals -----

    method Clock() returns (now: int)
      modifies this`calls
      ensures now == world.clock(old(calls)) && calls == old(calls) + 1
    {
      now := world.clock(calls);
      calls := calls + 1;
    }

    /**
     Settles a withdrawal by what the chain says. A transaction that was found ends confirmed with its fee booked on
     a solid success, with the operator on a solid failure, and stays broadcast before. One that was not found fails
     when it was rejected for good or expired. Nothing is sent.
     */
    method Resolve(id: nat, deterministic: bool) returns (ok: bool)
      requires Valid() && Sought(store.books, id) && (session.careful ==> Open(store.books, id))
      modifies this`calls, session`sys, session`taken, store`books
      ensures Valid() && session.sys.calls == old(session.sys.calls) && old(calls) <= calls
      ensures OnlyRow(old(store.books), store.books, id)
      ensures store.books.withdrawals[id].status.Signing? ==> old(store.books).withdrawals[id].status.Signing?
      ensures var gone := Gone(world.lookup(old(calls) + 1), deterministic, old(store.books).withdrawals[id], world.clock(old(calls)));
              && (gone ==> store.books.withdrawals[id].status.Failed?)
              && (store.books.withdrawals[id].status.Failed? ==> gone || old(store.books).withdrawals[id].status.Failed?)
      ensures store.books.withdrawals[id].status.Confirmed? ==>
                world.lookup(old(calls) + 1) == Found && world.receipt(old(calls) + 2).Solid? && world.receipt(old(calls) + 2).success
      ensures ok <== !world.lookup(old(calls) + 1).Found? || world.receipt(old(calls) + 2).NoReceipt? || world.receipt(old(calls) + 2).Unsolid?
      ensures world.lookup(old(calls) + 1).Found? && world.receipt(old(calls) + 2).Unreadable? ==> !ok
      ensures ResolvedAs(world, old(store.books), store.books, id, deterministic, old(calls), ok)
    {
      var now := Clock();
      var found := LookUp(id, deterministic, now);
      ok := true;
      if found {
        ok := SettleFound(id, now);
      }
    }

    method LookUp(id: nat, deterministic: bool, now: int) returns (found: bool)
      requires Valid() && Sought(store.books, id) && (session.careful ==> Open(store.books, id))
      modifies this`calls, session`sys, session`taken, store`books
      ensures Valid() && session.sys.calls == old(session.sys.calls)
      ensures OnlyRow(old(store.books), store.books, id) && calls == old(calls) + 1
      ensures found <==> world.lookup(old(calls)) == Found
      ensures found ==> store.books.withdrawals[id].status.Broadcast?
      ensures var gone := Gone(world.lookup(old(calls)), deterministic, old(store.books).withdrawals[id], now);
              && (gone ==> store.books.withdrawals[id].status.Failed?)
              && (store.books.withdrawals[id].status.Failed? ==> gone || old(store.books).withdrawals[id].status.Failed?)
      ensures !store.books.withdrawals[id].status.Confirmed?
      ensures store.books.withdrawals[id].status.Signing? ==> old(store.books).withdrawals[id].status.Signing?
      ensures store.books.db == old(store.books).db
      ensures found ==> store.books.withdrawals[id].failures == 0
      ensures !found ==> UnfoundAs(old(store.books).withdrawals[id], store.books.withdrawals[id], world.lookup(old(calls)), deterministic, now)
    {
      var answer := world.lookup(calls);
      calls := calls + 1;
      found := answer.Found?;
      if answer.Absent? && (deterministic || PastExpiry(store.books.withdrawals[id], now)) {
        var ok := session.FailAbsent(id, now);
      } else {
        RecordAnswer(id, answer, deterministic, now);
      }
    }

    /** What a lookup that decides nothing leaves behind; a rejected transaction whose lookup fails goes to the operator. */
    method RecordAnswer(id: nat, answer: Lookup, deterministic: bool, now: int)
      requires Valid() && Sought(store.books, id) && (session.careful ==> Open(store.books, id))
      modifies session`sys, session`taken, store`books
      ensures Valid() && session.sys.calls == old(session.sys.calls) && OnlyRow(old(store.books), store.books, id)
      ensures var before, after := old(store.books).withdrawals[id].status, store.books.withdrawals[id].status;
              if answer.Found? then after.Broadcast? else after == before || after.NeedsOperator?
      ensures store.books.db == old(store.books).db
      ensures !answer.Found? && !(answer.Absent? && deterministic) && !(answer.Absent? && PastExpiry(old(store.books).withdrawals[id], now)) ==>
                UnfoundAs(old(store.books).withdrawals[id], store.books.withdrawals[id], answer, deterministic, now)
      ensures answer.Found? ==> store.books.withdrawals[id].failures == 0
    {
      var ok;
      if answer.Unreachable? && deterministic {
        ok := session.Escalate(id, now);
      } else if answer.Unreachable? || answer.Garbled? {
        ok := session.LookupFailure(id, now);
      } else {
        ok := session.RecordLookup(id, answer.Found?, now);
      }
    }

    /** The second half of Resolve, once the transaction was found. */
    method SettleFound(id: nat, now: int) returns (ok: bool)
      requires Valid() && id < |store.books.withdrawals|
      requires store.books.withdrawals[id].status.Broadcast? && store.books.withdrawals[id].txid.Some?
      modifies this`calls, session`sys, session`taken, store`books
      ensures Valid() && session.sys.calls == old(session.sys.calls) && old(calls) <= calls
      ensures OnlyRow(old(store.books), store.books, id)
      ensures !store.books.withdrawals[id].status.Failed? && !store.books.withdrawals[id].status.Signing?
      ensures store.books.withdrawals[id].status.Confirmed? ==>
                world.receipt(old(calls)).Solid? && world.receipt(old(calls)).success
      ensures ok <== world.receipt(old(calls)).NoReceipt? || world.receipt(old(calls)).Unsolid?
      ensures world.receipt(old(calls)).Unreadable? ==> !ok
      ensures FoundAs(old(store.books), store.books, id, world.receipt(old(calls)), now, ok)
    {
      var receipt := world.receipt(calls);
      calls := calls + 1;
      ok := !receipt.Unreadable?;
      if receipt.Solid? {
        if !receipt.success {
          ok := session.Escalate(id, now);
        } else {
          FeeIsBooked(store.books, id, receipt.fee, receipt.height, receipt.timestamp, now);
          ok := session.Confirm(id, receipt.fee, receipt.height, receipt.timestamp, now);
        }
      }
    }

    /**
     Signs, commits the attempt marker, sends once, records the answer and settles a rejected one. Whatever the
     outside answers, at most one call goes out, for the stored transaction id, and only behind its marker. When
     there is no error, the withdrawal is no longer signing without a stored transaction id.
     */
    method SignAndBroadcast(id: nat) returns (ok: bool)
      requires Valid() && id < |store.books.withdrawals| && store.books.withdrawals[id].status.Signing?
      modifies this`calls, session`sys, session`taken, store`books
      ensures Valid() && old(calls) <= calls
      ensures OthersSame(old(store.books), store.books, id)
      ensures session.sys.calls == old(session.sys.calls)
              || (&& store.books.withdrawals[id].txid.Some?
                  && session.sys.calls == old(session.sys.calls) + [ForWithdrawal(id, store.books.withdrawals[id].txid.value)]
                  && old(store.books).withdrawals[id].txid.None?
                  && !store.books.withdrawals[id].status.Signing?)
      ensures session.sys.calls == old(session.sys.calls) ==> store.books.withdrawals[id].txid == old(store.books).withdrawals[id].txid
      ensures store.books.withdrawals[id].energy == old(store.books).withdrawals[id].energy
      ensures ok ==> !Stuck(store.books.withdrawals[id])
      ensures world.reference(old(calls)).None? ==> !ok && store.books == old(store.books)
      ensures world.reference(old(calls)).Some? && world.sign(old(calls), id).None? ==>
                ok && store.books.withdrawals[id].status.NeedsOperator?
      ensures world.reference(old(calls)).Some? && world.sign(old(calls), id).Some? && Unspent(old(store.books).withdrawals[id]) ==>
                && session.sys.calls == old(session.sys.calls) + [ForWithdrawal(id, world.sign(old(calls), id).value)]
                && SentAs(world, |old(store.books).db.addresses|, old(store.books).withdrawals[id], store.books.withdrawals[id], world.sign(old(calls), id).value,
                          world.reference(old(calls)).value + config.expiration, old(calls) + 1)
    {
      var reference := world.reference(calls);
      if reference.None? {
        calls := calls + 1;
        return false;
      }
      var txid := world.sign(calls, id);
      calls := calls + 1;
      if txid.None? {
        var failedAt := Clock();
        ok := session.Escalate(id, failedAt);
        return;
      }
      var sent;
      sent, ok := MarkAndSend(id, txid.value, reference.value + config.expiration);
    }

    /** Nothing happens, and that is an error, when the attempt was already spent. */
    method MarkAndSend(id: nat, txid: string, expiresAt: int) returns (sent: bool, ok: bool)
      requires Valid() && id < |store.books.withdrawals| && store.books.withdrawals[id].status.Signing?
      modifies this`calls, session`sys, session`taken, store`books
      ensures Valid() && old(calls) <= calls && OthersSame(old(store.books), store.books, id)
      ensures sent <==> old(store.books).withdrawals[id].txid.None? && old(store.books).withdrawals[id].attemptedAt.None?
      ensures !sent ==> !ok && store.books == old(store.books) && session.sys.calls == old(session.sys.calls)
      ensures sent ==> && store.books.withdrawals[id].txid == Some(txid) && !store.books.withdrawals[id].status.Signing?
                       && session.sys.calls == old(session.sys.calls) + [ForWithdrawal(id, txid)]
                       && SentAs(world, |old(store.books).db.addresses|, old(store.books).withdrawals[id], store.books.withdrawals[id], txid, expiresAt, old(calls))
      ensures store.books.withdrawals[id].energy == old(store.books).withdrawals[id].energy
    {
      var now := Clock();
      sent := session.SendMarked(id, txid, now, expiresAt);
      ok := false;
      if sent {
        ok := SettleSent(id, now);
      }
    }

    /** Records the response of the one send, and resolves a rejected transaction at once. */
    method SettleSent(id: nat, now: int) returns (ok: bool)
      requires store == session.store && session.Linked() && session.sys.rental.Idle? && id < |store.books.withdrawals|
      requires session.worker in session.sys.hands && session.sys.hands[session.worker].Sent? && Handles(session.sys.hands[session.worker], id)
      requires forall w :: w in session.sys.hands && w != session.worker ==> !session.sys.hands[w].target.ForWithdrawal?
      requires var w := store.books.withdrawals[id]; w.txid.Some? && w.attemptedAt.Some? && w.status.Signing?
      modifies this`calls, session`sys, session`taken, store`books
      ensures Valid() && session.sys.calls == old(session.sys.calls) && old(calls) <= calls
      ensures OnlyRow(old(store.books), store.books, id) && !store.books.withdrawals[id].status.Signing?
      ensures !world.reply(old(calls)).Deterministic? ==> ok && store.books.withdrawals[id].status.Broadcast?
      ensures world.reply(old(calls)).Deterministic? ==> RejectedAs(world, old(store.books).withdrawals[id].addressId < |old(store.books).db.addresses|,
                                                                   store.books.withdrawals[id].status, old(calls) + 2)
    {
      var reply := world.reply(calls);
      calls := calls + 1;
      session.RecordBroadcast(id, now);
      ok := true;
      if reply.Deterministic? {
        ok := ResolveRejected(id);
      }
    }

    /** A transaction that the node rejected for good is resolved at once. */
    method ResolveRejected(id: nat) returns (ok: bool)
      requires Valid() && id < |store.books.withdrawals|
      requires var w := store.books.withdrawals[id]; w.txid.Some? && w.status.Broadcast? && w.failures == 0
      modifies this`calls, session`sys, session`taken, store`books
      ensures Valid() && session.sys.calls == old(session.sys.calls) && old(calls) <= calls
      ensures OnlyRow(old(store.books), store.books, id) && !store.books.withdrawals[id].status.Signing?
      ensures RejectedAs(world, old(store.books).withdrawals[id].addressId < |old(store.books).db.addresses|,
                         store.books.withdrawals[id].status, old(calls) + 1)
    {
      ghost var sent, at := store.books, calls;
      ok := Resolve(id, true);
      ResolvedIsRejected(world, sent, store.books, id, at, ok);
    }

    // ----- Resource grants -----

    /**
     Sends a signed grant once. The caller waits, unless the node rejected it for good and the chain does not have
     it: then the grant is failed.
     */
    method BroadcastResourceGrant(id: nat, txid: string, expiresAt: int) returns (pending: bool, ok: bool)
      requires Valid()
      modifies this`calls, session`sys, session`taken, store`books
      ensures Valid() && old(calls) <= calls
      ensures session.sys.calls == if ok then old(session.sys.calls) + [ForGrant(id, txid)] else old(session.sys.calls)
      ensures ok <==> id < |old(store.books).grants| && UnspentGrant(old(store.books).grants[id])
      ensures !ok ==> !pending && store.books == old(store.books)
      ensures ok ==> id < |store.books.grants|
                     && (!pending <==> world.reply(old(calls) + 1).Deterministic? && world.lookup(old(calls) + 2).Absent?)
                     && store.books.grants[id] == old(store.books).grants[id].(
                          txid := Some(txid), attemptedAt := Some(world.clock(old(calls))), expiresAt := Some(expiresAt),
                          status := if pending then GrantStatus.Broadcast else GrantStatus.Failed)
      ensures OnlyGrant(old(store.books), store.books, id)
    {
      var now := Clock();
      ok := session.SendMarkedGrant(id, txid, now, expiresAt);
      if !ok {
        return false, false;
      }
      pending := SettleSentGrant(id);
    }

    /** A grant rejected for good is looked up once, and failed when the chain does not have it. */
    method SettleSentGrant(id: nat) returns (pending: bool)
      requires Valid() && id < |store.books.grants| && store.books.grants[id].status == GrantStatus.Broadcast
      modifies this`calls, session`sys, session`taken, store`books
      ensures Valid() && session.sys.calls == old(session.sys.calls) && old(calls) <= calls
      ensures OnlyGrant(old(store.books), store.books, id)
      ensures store.books.grants[id] == old(store.books).grants[id].(status := if pending then GrantStatus.Broadcast else GrantStatus.Failed)
      ensures !pending <==> world.reply(old(calls)).Deterministic? && world.lookup(old(calls) + 1).Absent?
    {
      var reply := world.reply(calls);
      calls := calls + 1;
      if !reply.Deterministic? {
        return true;
      }
      var answer := world.lookup(calls);
      calls := calls + 1;
      if !answer.Absent? {
        return true;
      }
      var failed := session.EndGrant(id, false);
      return false;
    }

    /** Ten failed lookups in a row hand the grant, and the withdrawal it funds, to the operator. */
    method GrantLookupFailure(id: nat) returns (pending: bool)
      requires Valid() && id < |store.books.grants|
      modifies this`calls, session`sys, session`taken, store`books
      ensures Valid() && session.sys.calls == old(session.sys.calls) && old(calls) <= calls
      ensures KeepsGrants(old(store.books).grants, store.books.grants, id)
      ensures pending <==> old(store.books).grants[id].failures + 1 < 10
      ensures store.books.grants[id].status == old(store.books).grants[id].status || store.books.grants[id].status.NeedsOperator?
      ensures !pending ==> store.books.grants[id].status in
                           {GrantStatus.Confirmed, GrantStatus.Failed, GrantStatus.NeedsOperator}
      ensures Frame(old(store.books), store.books, old(store.books).grants[id].withdrawal)
      ensures UnansweredAs(old(store.books), store.books, id)
    {
      var ok := session.LookupGrant(id, false);
      if store.books.grants[id].failures < 10 {
        return true;
      }
      ok := session.EscalateGrant(id);
      var withdrawal := store.books.grants[id].withdrawal;
      if withdrawal.Some? {
        var now := Clock();
        ok := session.Escalate(withdrawal.value, now);
      }
      return false;
    }

    /**
     Settles a sent grant by what the chain says: failed only when it reverted, expired unseen, or stayed without
     effect past its timeout; confirmed here only for an operator's grant with a solid successful receipt. An
     error means that a solid receipt could not be booked; the grant then keeps its status.
     */
    method ReconcileResourceGrant(id: nat) returns (pending: bool, ok: bool)
      requires Valid() && id < |store.books.grants|
      modifies this`calls, session`sys, session`taken, store`books
      ensures Valid() && session.sys.calls == old(session.sys.calls) && old(calls) <= calls
      ensures KeepsGrants(old(store.books).grants, store.books.grants, id)
      ensures !old(store.books).grants[id].status.Confirmed? && store.books.grants[id].status.Confirmed? ==>
                && world.lookup(old(calls)).Found? && world.receipt(old(calls) + 1).Solid? && world.receipt(old(calls) + 1).success
                && old(store.books).grants[id].withdrawal.None?
      ensures !old(store.books).grants[id].status.Failed? && store.books.grants[id].status.Failed? ==>
                world.lookup(old(calls)).Absent? || (world.lookup(old(calls)).Found? && world.receipt(old(calls) + 1).Solid?)
      ensures !ok ==> && world.lookup(old(calls)).Found? && world.receipt(old(calls) + 1).Solid?
                      && store.books.grants[id].status == old(store.books).grants[id].status
                      && store.books.db == old(store.books).db
      ensures Frame(old(store.books), store.books, old(store.books).grants[id].withdrawal)
      ensures ReconciledAs(world, config, old(store.books), store.books, id, old(calls), pending, ok)
      ensures Closed(old(store.books).grants[id].status) ==> calls == old(calls)
    {
      var g := store.books.grants[id];
      if g.status.Failed? || g.status.Confirmed? || g.txid.None? || g.attemptedAt.None? {
        return false, true;
      }
      var deadline := GrantDeadline(g);
      pending, ok := SettleSoughtGrant(id, deadline);
    }

    method GrantDeadline(g: Grant) returns (deadline: int)
      ensures deadline == EffectDeadline(config, g)
    {
      deadline := g.createdAt + 300;
      if g.resource.Energy? && config.pollTimeout > 0 {
        deadline := g.createdAt + config.pollTimeout;
      }
    }

    /** The grant was sent and is not settled. */
    method SettleSoughtGrant(id: nat, deadline: int) returns (pending: bool, ok: bool)
      requires Valid() && id < |store.books.grants| && store.books.grants[id].txid.Some?
      requires !store.books.grants[id].status.Failed? && !store.books.grants[id].status.Confirmed?
      modifies this`calls, session`sys, session`taken, store`books
      ensures Valid() && session.sys.calls == old(session.sys.calls) && old(calls) <= calls
      ensures KeepsGrants(old(store.books).grants, store.books.grants, id)
      ensures store.books.grants[id].status.Confirmed? ==>
                && world.lookup(old(calls)).Found? && world.receipt(old(calls) + 1).Solid? && world.receipt(old(calls) + 1).success
                && old(store.books).grants[id].withdrawal.None?
      ensures store.books.grants[id].status.Failed? ==>
                world.lookup(old(calls)).Absent? || (world.lookup(old(calls)).Found? && world.receipt(old(calls) + 1).Solid?)
      ensures !ok ==> && world.lookup(old(calls)).Found? && world.receipt(old(calls) + 1).Solid?
                      && store.books.grants[id].status == old(store.books).grants[id].status
                      && store.books.db == old(store.books).db
      ensures Frame(old(store.books), store.books, old(store.books).grants[id].withdrawal)
      ensures SoughtAs(world, config, old(store.books), store.books, id, deadline, old(calls), pending, ok)
    {
      var answer := world.lookup(calls);
      calls := calls + 1;
      if answer.Unreachable? || answer.Garbled? {
        pending := GrantLookupFailure(id);
        return pending, true;
      }
      pending, ok := SettleAnsweredGrant(id, answer, deadline);
    }

    method SettleAnsweredGrant(id: nat, answer: Lookup, deadline: int) returns (pending: bool, ok: bool)
      requires Valid() && id < |store.books.grants| && store.books.grants[id].txid.Some? && (answer.Absent? || answer.Found?)
      requires !store.books.grants[id].status.Failed? && !store.books.grants[id].status.Confirmed?
      modifies this`calls, session`sys, session`taken, store`books
      ensures Valid() && session.sys.calls == old(session.sys.calls) && old(calls) <= calls
      ensures KeepsGrants(old(store.books).grants, store.books.grants, id)
      ensures store.books.grants[id].status.Confirmed? ==>
                && answer.Found? && world.receipt(old(calls)).Solid? && world.receipt(old(calls)).success
                && old(store.books).grants[id].withdrawal.None?
      ensures store.books.grants[id].status.Failed? ==> answer.Absent? || world.receipt(old(calls)).Solid?
      ensures !ok ==> && answer.Found? && world.receipt(old(calls)).Solid?
                      && store.books.grants[id].status == old(store.books).grants[id].status
                      && store.books.db == old(store.books).db
      ensures Frame(old(store.books), store.books, old(store.books).grants[id].withdrawal)
      ensures AnsweredAs(world, config, old(store.books), store.books, id, answer, deadline, old(calls), pending, ok)
    {
      var seen := session.LookupGrant(id, true);
      if answer.Absent? {
        pending := SettleAbsentGrant(id);
        return pending, true;
      }
      pending, ok := SettleFoundGrant(id, deadline);
    }

    /** A grant the chain does not have fails once it expired. */
    method SettleAbsentGrant(id: nat) returns (pending: bool)
      requires Valid() && id < |store.books.grants|
      requires !store.books.grants[id].status.Failed? && !store.books.grants[id].status.Confirmed?
      modifies this`calls, session`sys, session`taken, store`books
      ensures Valid() && session.sys.calls == old(session.sys.calls) && old(calls) <= calls
      ensures OnlyGrant(old(store.books), store.books, id)
      ensures var g := old(store.books).grants[id];
              pending <==> g.expiresAt.None? || world.clock(old(calls)) < g.expiresAt.value
      ensures store.books.grants[id]
           == old(store.books).grants[id].(status := if pending then old(store.books).grants[id].status else GrantStatus.Failed)
    {
      var now := Clock();
      var expiresAt := store.books.grants[id].expiresAt;
      if expiresAt.None? || now < expiresAt.value {
        return true;
      }
      var failed := session.EndGrant(id, false);
      return false;
    }

    /** The second half of the reconciliation, once the transaction was found. */
    method SettleFoundGrant(id: nat, deadline: int) returns (pending: bool, ok: bool)
      requires Valid() && id < |store.books.grants| && store.books.grants[id].txid.Some?
      requires !store.books.grants[id].status.Failed? && !store.books.grants[id].status.Confirmed?
      modifies this`calls, session`sys, session`taken, store`books
      ensures Valid() && session.sys.calls == old(session.sys.calls) && old(calls) <= calls
      ensures KeepsGrants(old(store.books).grants, store.books.grants, id)
      ensures store.books.grants[id].status.Confirmed? ==>
                world.receipt(old(calls)).Solid? && world.receipt(old(calls)).success && old(store.books).grants[id].withdrawal.None?
      ensures store.books.grants[id].status.Failed? ==> world.receipt(old(calls)).Solid?
      ensures !ok ==> && world.receipt(old(calls)).Solid? && store.books == old(store.books)
      ensures Frame(old(store.books), store.books, old(store.books).grants[id].withdrawal)
      ensures GrantFoundAs(world, config, old(store.books), store.books, id, deadline, old(calls), pending, ok)
    {
      var receipt := world.receipt(calls);
      calls := calls + 1;
      if receipt.NoReceipt? || receipt.Unreadable? {
        pending := GrantLookupFailure(id);
        return pending, true;
      }
      if receipt.Unsolid? {
        return true, true;
      }
      pending, ok := SettleSolidGrant(id, receipt, deadline);
    }

    /** A receipt that cannot be booked is an error, and nothing changes. */
    method SettleSolidGrant(id: nat, receipt: Receipt, deadline: int) returns (pending: bool, ok: bool)
      requires Valid() && id < |store.books.grants| && receipt.Solid?
      requires !store.books.grants[id].status.Failed? && !store.books.grants[id].status.Confirmed?
      modifies this`calls, session`sys, session`taken, store`books
      ensures Valid() && session.sys.calls == old(session.sys.calls) && old(calls) <= calls
      ensures KeepsGrants(old(store.books).grants, store.books.grants, id)
      ensures store.books.grants[id].status.Confirmed? ==> receipt.success && old(store.books).grants[id].withdrawal.None?
      ensures ok <==> RecordResourceGrantReceipt(old(store.books), id, receipt.fee, receipt.height, receipt.timestamp, config.wallet,
                                                 world.clock(old(calls))).Some?
      ensures !ok ==> store.books == old(store.books)
      ensures Frame(old(store.books), store.books, old(store.books).grants[id].withdrawal)
      ensures GrantSolidAs(world, config, old(store.books), store.books, id, receipt, deadline, old(calls), pending, ok)
    {
      var now := Clock();
      ok := session.ReceiveGrant(id, receipt.fee, receipt.height, receipt.timestamp, config.wallet, now);
      if !ok {
        return false, false;
      }
      pending := EndSolidGrant(id, receipt.success, deadline);
    }

    /** A reverted grant fails, an operator's is confirmed, and a withdrawal's waits until its effect is overdue. */
    method EndSolidGrant(id: nat, success: bool, deadline: int) returns (pending: bool)
      requires Valid() && id < |store.books.grants|
      requires !store.books.grants[id].status.Failed? && !store.books.grants[id].status.Confirmed?
      modifies this`calls, session`sys, session`taken, store`books
      ensures Valid() && session.sys.calls == old(session.sys.calls) && old(calls) <= calls
      ensures OnlyGrant(old(store.books), store.books, id)
      ensures var g := old(store.books).grants[id];
              && (store.books.grants[id].status.Confirmed? <==> success && g.withdrawal.None?)
              && (store.books.grants[id].status.Failed? <==> !success || (g.withdrawal.Some? && world.clock(old(calls)) >= deadline))
              && (pending <==> success && g.withdrawal.Some? && world.clock(old(calls)) < deadline)
              && (pending ==> store.books.grants[id].status == g.status)
              && store.books.grants[id] == g.(failures := 0, status := store.books.grants[id].status)
    {
      var seen := session.LookupGrant(id, true);
      var manual := store.books.grants[id].withdrawal.None?;
      var now := Clock();
      if success && !manual && now < deadline {
        return true;
      }
      var ended := session.EndGrant(id, success && manual);
      return false;
    }

    // ----- Energy rental -----

    predicate CircuitOpen(now: int)
      reads this
    {
      CircuitHolds(circuitUntil, now)
    }

    /** Five failures in a row open the circuit for ten minutes. */
    method RecordProviderFailure()
      modifies this`calls, this`circuitUntil, store`providerFailures
      ensures store.providerFailures == old(store.providerFailures) + 1
      ensures store.providerFailures < CIRCUIT_FAILURES ==> circuitUntil == old(circuitUntil)
      ensures store.providerFailures >= CIRCUIT_FAILURES ==> circuitUntil == Some(world.clock(old(calls)) + CIRCUIT_SECONDS)
      ensures old(calls) <= calls
    {
      store.providerFailures := store.providerFailures + 1;
      if store.providerFailures >= CIRCUIT_FAILURES {
        circuitUntil := Some(world.clock(calls) + CIRCUIT_SECONDS);
        calls := calls + 1;
      }
    }

    /** A circuit whose time is up closes. */
    method ProviderEnabled() returns (enabled: bool)
      modifies this`calls, this`circuitUntil
      ensures enabled <==> config.provider && !old(CircuitOpen(world.clock(calls)))
      ensures circuitUntil == if enabled then None else old(circuitUntil)
      ensures calls == old(calls) + 1
    {
      var now := world.clock(calls);
      calls := calls + 1;
      if !config.provider || (circuitUntil.Some? && now < circuitUntil.value) {
        return false;
      }
      circuitUntil := None;
      return true;
    }

    method DelayEnergyPoll(row: nat)
      modifies this`calls, this`nextEnergyPoll
      ensures nextEnergyPoll == old(nextEnergyPoll)[row := world.clock(old(calls)) + config.pollInterval]
      ensures old(calls) <= calls
    {
      nextEnergyPoll := nextEnergyPoll[row := world.clock(calls) + config.pollInterval];
      calls := calls + 1;
    }

    /** A purchase is polled at most once per interval. */
    method EnergyPollDue(row: nat) returns (due: bool)
      modifies this`calls, this`nextEnergyPoll
      ensures due <==> row !in old(nextEnergyPoll) || world.clock(old(calls)) >= old(nextEnergyPoll)[row]
      ensures old(calls) <= calls
      ensures nextEnergyPoll == if due then old(nextEnergyPoll)[row := world.clock(old(calls)) + config.pollInterval] else old(nextEnergyPoll)
    {
      var now := world.clock(calls);
      calls := calls + 1;
      if row in nextEnergyPoll && now < nextEnergyPoll[row] {
        return false;
      }
      nextEnergyPoll := nextEnergyPoll[row := now + config.pollInterval];
      return true;
    }

    /** Closes the row and counts one more provider failure. */
    method FailRental(row: nat)
      requires Valid() && row < |store.books.purchases| && store.books.purchases[row].status.Purchased?
      modifies this, session`sys, session`taken, store
      ensures Valid() && session.sys.calls == old(session.sys.calls) && old(calls) <= calls
      ensures store.books == PutPurchase(old(store.books), row, old(store.books).purchases[row].(status := PurchaseStatus.Failed))
      ensures store.providerFailures == old(store.providerFailures) + 1
      ensures row !in nextEnergyPoll
    {
      var ok := session.FailPurchase(row);
      nextEnergyPoll := nextEnergyPoll - {row};
      RecordProviderFailure();
    }

    /** What a rental attempt reports: the energy is there, it is on its way, or another source must serve. */
    method TryRental(withdrawal: nat) returns (ready: bool, pending: bool, ok: bool)
      requires Valid() && NewerIds(world, store.books, withdrawal, calls)
      modifies this, session`sys, session`taken, store
      ensures Valid() && old(calls) <= calls
      ensures ready ==> !pending && session.sys.calls == old(session.sys.calls) && LatestDelegated(store.books, withdrawal)
      ensures session.sys.calls != old(session.sys.calls) ==>
                && MayQuote(old(store.books), withdrawal)
                && session.sys.calls == old(session.sys.calls) + [ForPurchase(|old(store.books).purchases|, withdrawal)]
      ensures OnlyPurchases(old(store.books), store.books, withdrawal)
      ensures TriedAs(world, config, old(CircuitOpen(world.clock(calls))), old(store.books), store.books,
                      old(session.sys.calls), session.sys.calls, withdrawal, old(calls), ready, pending, ok)
      ensures NothingToRent(config, old(store.books), withdrawal) ==> calls == old(calls)
    {
      var latest := EnergyPurchaseForWithdrawal(store.books.purchases, withdrawal);
      if latest.Some? {
        var status := store.books.purchases[latest.value].status;
        if status.Delegated? {
          return true, false, true;
        }
        if status.Failed? || status.Expired? {
          return false, false, true;
        }
        if status.Purchased? {
          pending := PollPurchase(latest.value);
          return false, pending, true;
        }
      }
      pending, ok := RentNew(withdrawal);
      return false, pending, ok;
    }

    /** Waits for a purchased order, or fails it on timeout or on the provider's word. */
    method PollPurchase(row: nat) returns (pending: bool)
      requires Valid() && row < |store.books.purchases| && store.books.purchases[row].status.Purchased?
      modifies this, session`sys, session`taken, store
      ensures Valid() && session.sys.calls == old(session.sys.calls) && old(calls) <= calls
      ensures row < |store.books.purchases| == |old(store.books).purchases|
      ensures pending <==> StillWaits(world, config, old(store.books).purchases[row], old(calls))
      ensures store.books.purchases[row]
           == old(store.books).purchases[row].(status := if pending then Purchased else PurchaseStatus.Failed)
      ensures store.providerFailures == old(store.providerFailures) + if pending then 0 else 1
      ensures OnlyPurchases(old(store.books), store.books, store.books.purchases[row].withdrawal)
    {
      var now := world.clock(calls);
      calls := calls + 1;
      if config.pollTimeout > 0 && now >= store.books.purchases[row].createdAt + config.pollTimeout {
        FailRental(row);
        return false;
      }
      if !config.provider {
        DelayEnergyPoll(row);
        return true;
      }
      var status := world.provider(calls);
      calls := calls + 1;
      if status.Silent? {
        DelayEnergyPoll(row);
        return true;
      }
      var ok := session.RecordOrder(row, "");
      if status.Refused? {
        FailRental(row);
        return false;
      }
      DelayEnergyPoll(row);
      return true;
    }

    /** Quotes, and buys once when the price is within the maximum. */
    method RentNew(withdrawal: nat) returns (pending: bool, ok: bool)
      requires Valid() && NewerIds(world, store.books, withdrawal, calls) && MayQuote(store.books, withdrawal)
      modifies this, session`sys, session`taken, store
      ensures Valid() && old(calls) <= calls
      ensures session.sys.calls == old(session.sys.calls)
              || session.sys.calls == old(session.sys.calls) + [ForPurchase(|old(store.books).purchases|, withdrawal)]
      ensures session.sys.calls != old(session.sys.calls) ==>
                config.enabled && config.provider && !old(CircuitOpen(world.clock(calls)))
                && world.quote(old(calls) + 1).Price? && 0.0 <= world.quote(old(calls) + 1).trx <= config.maxPrice
      ensures OnlyPurchases(old(store.books), store.books, withdrawal)
      ensures NewRentalAs(world, config, old(CircuitOpen(world.clock(calls))), old(store.books), store.books,
                          old(session.sys.calls), session.sys.calls, withdrawal, old(calls), pending, ok)
      ensures !config.enabled || !config.provider ==> calls == old(calls)
    {
      if !config.enabled || !config.provider {
        return false, true;
      }
      var enabled := ProviderEnabled();
      if !enabled {
        return false, true;
      }
      pending, ok := QuoteAndBuy(withdrawal);
    }

    /** One quote, recorded; bought when the price is within the maximum, refused when it is above. */
    method QuoteAndBuy(withdrawal: nat) returns (pending: bool, ok: bool)
      requires Valid() && NewerIds(world, store.books, withdrawal, calls) && MayQuote(store.books, withdrawal)
      modifies this, session`sys, session`taken, store
      ensures Valid() && old(calls) <= calls
      ensures OnlyPurchases(old(store.books), store.books, withdrawal)
      ensures session.sys.calls == old(session.sys.calls)
              || (&& session.sys.calls == old(session.sys.calls) + [ForPurchase(|old(store.books).purchases|, withdrawal)]
                  && world.quote(old(calls)).Price? && 0.0 <= world.quote(old(calls)).trx <= config.maxPrice)
      ensures QuotedAs(world, config, old(store.books), store.books, old(session.sys.calls), session.sys.calls, withdrawal, old(calls), pending, ok)
      ensures world.quote(old(calls)).NoQuote? ==> store.providerFailures == old(store.providerFailures) + 1
    {
      session.BeginRental(withdrawal);
      var quote := world.quote(calls);
      calls := calls + 1;
      if quote.NoQuote? {
        session.EndRental();
        RecordProviderFailure();
        return false, true;
      }
      if quote.BadQuote? || quote.trx < 0.0 {
        session.EndRental();
        return false, false;
      }
      pending, ok := TakeQuote(withdrawal, quote.trx);
    }

    /** Records the quote; above the maximum price it is refused and not bought. */
    method TakeQuote(withdrawal: nat, trx: real) returns (pending: bool, ok: bool)
      requires store == session.store && session.Renting(Quoting(withdrawal)) && NewerIds(world, store.books, withdrawal, calls)
      modifies this, session`sys, session`taken, store
      ensures Valid() && old(calls) <= calls
      ensures OnlyPurchases(old(store.books), store.books, withdrawal)
      ensures session.sys.calls == old(session.sys.calls)
              || (trx <= config.maxPrice && session.sys.calls == old(session.sys.calls) + [ForPurchase(|old(store.books).purchases|, withdrawal)])
      ensures RentedAs(world, config, old(store.books), store.books, old(session.sys.calls), session.sys.calls, withdrawal, trx, old(calls), pending, ok)
    {
      var row, id, now := |store.books.purchases|, world.newId(calls), world.clock(calls);
      calls := calls + 1;
      assert Newest(store.books, id, withdrawal, now);
      ok := session.CreateQuote(id, withdrawal, trx, now);
      if !ok {
        session.EndRental();
        return false, false;
      }
      if trx > config.maxPrice {
        session.RejectQuote(row);
        return false, true;
      }
      pending, ok := Buy(withdrawal, row);
    }

    /** The purchase call; an unclear answer is never repeated, only polled. */
    method Buy(withdrawal: nat, row: nat) returns (pending: bool, ok: bool)
      requires store == session.store && session.Renting(Rental.Quoted(withdrawal, row))
      requires row < |store.books.purchases| && store.books.purchases[row].withdrawal == withdrawal
      modifies this, session`sys, session`taken, store
      ensures Valid() && old(calls) <= calls
      ensures session.sys.calls == if ok then old(session.sys.calls) + [ForPurchase(row, withdrawal)] else old(session.sys.calls)
      ensures OnlyPurchase(old(store.books), store.books, row)
      ensures var p := old(store.books).purchases[row];
              && (ok <==> p.status.Quoted? && p.order.None?)
              && (ok ==> BoughtAs(p, store.books.purchases[row], world.provider(old(calls)), pending))
              && (!ok ==> !pending && store.books == old(store.books))
    {
      ok := session.BuyQuote(withdrawal, row, "external");
      if !ok {
        return false, false;
      }
      var order := world.provider(calls);
      calls := calls + 1;
      if order.Silent? {
        DelayEnergyPoll(row);
        return true, true;
      }
      var recorded := session.RecordOrder(row, "");
      if order.Refused? {
        FailRental(row);
        return false, true;
      }
      DelayEnergyPoll(row);
      return true, true;
    }

    // ----- Delegated and topped-up resources -----

    /** Prepares, signs and sends a requested grant; what cannot be prepared fails without a send. */
    method StartDelegation(id: nat) returns (pending: bool, ok: bool)
      requires Valid() && id < |store.books.grants| && store.books.grants[id].status.Requested?
      modifies this`calls, session`sys, session`taken, store`books
      ensures Valid() && old(calls) <= calls && OnlyGrant(old(store.books), store.books, id)
      ensures session.sys.calls == old(session.sys.calls)
              || (world.delegation(old(calls)).Some?
                  && session.sys.calls == old(session.sys.calls) + [ForGrant(id, world.delegation(old(calls)).value.0)])
      ensures StartedAs(world, old(store.books).grants[id], store.books.grants[id], id, old(session.sys.calls), session.sys.calls,
                        old(calls), pending, ok)
    {
      var prepared := world.delegation(calls);
      calls := calls + 1;
      if prepared.None? {
        var failed := session.EndGrant(id, false);
        return false, true;
      }
      pending, ok := BroadcastResourceGrant(id, prepared.value.0, prepared.value.1);
    }

    /** Finds or creates the withdrawal's delegation, and starts or reconciles it. */
    method EnsureDelegation(id: nat, resource: Resource, missing: int, limit: int, weight: int) returns (pending: bool, ok: bool)
      requires Valid() && id < |store.books.withdrawals|
      modifies this`calls, session`sys, session`taken, store`books
      ensures Valid() && old(calls) <= calls && Frame(old(store.books), store.books, Some(id))
      ensures GrantsOnly(old(session.sys.calls), session.sys.calls)
      ensures UniqueGrants(old(store.books).grants) ==> UniqueGrants(store.books.grants)
      ensures FundedAs(world, config, old(store.books), store.books, old(session.sys.calls), session.sys.calls, id, resource, SelfDelegated,
                       DelegationAmount(missing, limit, weight), old(calls), pending, ok)
      ensures NothingToGrant(old(store.books), id, resource, DelegationAmount(missing, limit, weight)) ==> calls == old(calls)
    {
      var amount := DelegationAmount(missing, limit, weight);
      if GrantFor(store.books.grants, id, resource).None? && amount.None? {
        return false, true;
      }
      pending, ok := EnsureGrant(id, resource, SelfDelegated, if amount.Some? && amount.value >= 0 then amount.value else 0);
    }

    method EnsureTopup(id: nat) returns (pending: bool, ok: bool)
      requires Valid() && id < |store.books.withdrawals|
      modifies this`calls, session`sys, session`taken, store`books
      ensures Valid() && old(calls) <= calls && Frame(old(store.books), store.books, Some(id))
      ensures GrantsOnly(old(session.sys.calls), session.sys.calls)
      ensures UniqueGrants(old(store.books).grants) ==> UniqueGrants(store.books.grants)
      ensures FundedAs(world, config, old(store.books), store.books, old(session.sys.calls), session.sys.calls, id, Bandwidth, Topup,
                       if config.topup == Some(0) then None else config.topup, old(calls), pending, ok)
      ensures NothingToGrant(old(store.books), id, Bandwidth, if config.topup == Some(0) then None else config.topup) ==> calls == old(calls)
    {
      if GrantFor(store.books.grants, id, Bandwidth).None? && (config.topup.None? || config.topup.value == 0) {
        return false, true;
      }
      pending, ok := EnsureGrant(id, Bandwidth, Topup, config.topup.GetOr(0));
    }

    /**
     One grant per withdrawal and resource: created once, sent while requested, reconciled afterwards. No grant of
     another withdrawal or resource changes.
     */
    method EnsureGrant(id: nat, resource: Resource, source: GrantSource, amount: nat) returns (pending: bool, ok: bool)
      requires Valid() && id < |store.books.withdrawals|
      modifies this`calls, session`sys, session`taken, store`books
      ensures Valid() && old(calls) <= calls && Frame(old(store.books), store.books, Some(id))
      ensures GrantsOnly(old(session.sys.calls), session.sys.calls)
      ensures UniqueGrants(old(store.books).grants) ==> UniqueGrants(store.books.grants)
      ensures GrantFor(store.books.grants, id, resource).Some?
      ensures GrantFor(old(store.books).grants, id, resource).Some? ==> |store.books.grants| == |old(store.books).grants|
      ensures EnsuredAs(world, config, old(store.books), store.books, old(session.sys.calls), session.sys.calls, id, resource, source, amount,
                        old(calls), pending, ok)
      ensures HasClosedGrant(old(store.books), id, resource) ==> calls == old(calls)
    {
      var g := GrantFor(store.books.grants, id, resource);
      if g.None? {
        var now := Clock();
        AddGrant(id, resource, source, amount, now);
        g := Some(|store.books.grants| - 1);
      }
      pending, ok := AdvanceGrant(id, resource, g.value);
    }

    /** A requested grant is started, any other is reconciled. */
    method AdvanceGrant(id: nat, resource: Resource, g: nat) returns (pending: bool, ok: bool)
      requires Valid() && g < |store.books.grants|
      requires store.books.grants[g].withdrawal == Some(id) && store.books.grants[g].resource == resource
      modifies this`calls, session`sys, session`taken, store`books
      ensures Valid() && old(calls) <= calls && Frame(old(store.books), store.books, Some(id))
      ensures GrantsOnly(old(session.sys.calls), session.sys.calls)
      ensures UniqueGrants(old(store.books).grants) ==> UniqueGrants(store.books.grants)
      ensures GrantFor(store.books.grants, id, resource).Some? && |store.books.grants| == |old(store.books).grants|
      ensures AdvancedAs(world, config, old(store.books), store.books, old(session.sys.calls), session.sys.calls, g, old(calls), pending, ok)
      ensures Closed(old(store.books).grants[g].status) ==> calls == old(calls)
    {
      ghost var grants := store.books.grants;
      if store.books.grants[g].status.Requested? {
        pending, ok := StartDelegation(g);
      } else {
        pending, ok := ReconcileResourceGrant(g);
      }
      KeptGrantsStay(grants, store.books.grants, g, id, resource);
    }

    method AddGrant(id: nat, resource: Resource, source: GrantSource, amount: nat, now: int)
      requires Valid() && id < |store.books.withdrawals| && GrantFor(store.books.grants, id, resource).None?
      modifies session`sys, session`taken, store`books
      ensures Valid() && session.sys.calls == old(session.sys.calls)
      ensures store.books == old(store.books).(grants := store.books.grants)
      ensures |store.books.grants| == |old(store.books).grants| + 1 && store.books.grants[..|old(store.books).grants|] == old(store.books).grants
      ensures var g := store.books.grants[|store.books.grants| - 1];
              g == Grant(Some(id), store.books.withdrawals[id].from, resource, source, amount, GrantStatus.Requested,
                         None, None, None, None, 0, now)
      ensures UniqueGrants(old(store.books).grants) ==> UniqueGrants(store.books.grants)
    {
      var ok := session.CreateGrant(id, store.books.withdrawals[id].from, resource, source, amount, now);
    }

    // ----- The energy gate -----

    /** Rental first, then delegation, then the burn. */
    method SourceEnergy(id: nat, r: Resources) returns (source: Option<EnergySource>, ok: bool, ghost burn: nat)
      requires Valid() && id < |store.books.withdrawals| && NewerIds(world, store.books, id, calls)
      modifies this, session`sys, session`taken, store
      ensures Valid() && old(calls) <= calls && Frame(old(store.books), store.books, Some(id))
      ensures NoWithdrawal(old(session.sys.calls), session.sys.calls)
      ensures source.Some? ==> ok && Sourced(world, config, store.books, id, config.minEnergy - r.energy, source.value, burn)
      ensures SourcedAs(world, config, old(CircuitOpen(world.clock(calls))), old(store.books), old(session.sys.calls), session.sys.calls, id, r,
                        old(calls), source, ok)
    {
      burn := calls;
      var ready, next;
      ready, next, ok := RentalTier(id);
      if ready {
        return Some(RentedEnergy), true, burn;
      }
      if !ok || !next {
        return None, ok, burn;
      }
      ghost var rented := session.sys.calls;
      source, ok, burn := DelegateOrBurn(id, r);
      NothingThenNothing(old(session.sys.calls), rented, session.sys.calls);
    }

    /** The rental tier: the energy is there, or the next tier must serve, or the withdrawal waits. */
    method RentalTier(id: nat) returns (ready: bool, next: bool, ok: bool)
      requires Valid() && id < |store.books.withdrawals| && NewerIds(world, store.books, id, calls)
      modifies this, session`sys, session`taken, store
      ensures Valid() && old(calls) <= calls && OnlyPurchases(old(store.books), store.books, id)
      ensures NoWithdrawal(old(session.sys.calls), session.sys.calls)
      ensures !(ready && next) && (ready ==> ok && LatestDelegated(store.books, id)) && (next ==> ok)
      ensures TriedAs(world, config, old(CircuitOpen(world.clock(calls))), old(store.books), store.books,
                      old(session.sys.calls), session.sys.calls, id, old(calls), ready, ok && !ready && !next, ok)
      ensures NothingToRent(config, old(store.books), id) ==>
                !ready && next && store.books == old(store.books) && session.sys.calls == old(session.sys.calls) && calls == old(calls)
      ensures LatestDelegated(old(store.books), id) ==> ready && store.books == old(store.books) && session.sys.calls == old(session.sys.calls)
      ensures CanRent(world, config, old(CircuitOpen(world.clock(calls))), old(store.books), id, old(calls)) ==>
                ok && !ready && !next && session.sys.calls == old(session.sys.calls) + [ForPurchase(|old(store.books).purchases|, id)]
    {
      var pending;
      ready, pending, ok := TryRental(id);
      ready, next := ready && ok, !ready && ok && !pending;
    }

    /** Without a rental the energy is delegated, or else burned for. */
    method DelegateOrBurn(id: nat, r: Resources) returns (source: Option<EnergySource>, ok: bool, ghost burn: nat)
      requires Valid() && id < |store.books.withdrawals|
      modifies this`calls, session`sys, session`taken, store`books
      ensures Valid() && old(calls) <= calls && Frame(old(store.books), store.books, Some(id))
      ensures NoWithdrawal(old(session.sys.calls), session.sys.calls)
      ensures source.Some? ==> && ok && source == Some(BurnedTrx)
                               && Sourced(world, config, store.books, id, config.minEnergy - r.energy, source.value, burn)
      ensures UnrentedAs(world, config, old(store.books), old(session.sys.calls), session.sys.calls, id, r, old(calls), source, ok)
    {
      ghost var before, first, at := store.books, session.sys.calls, calls;
      var next;
      next, ok := DelegationTier(id, r);
      burn := calls;
      if !next {
        return None, ok, burn;
      }
      source, ok := BurnInstead(id, r, before, first, at);
    }

    /** The delegation tier is passed. */
    method BurnInstead(id: nat, r: Resources, ghost before: Books, ghost first: seq<Target>, ghost at: nat)
      returns (source: Option<EnergySource>, ok: bool)
      requires Valid() && id < |store.books.withdrawals| && Frame(before, store.books, Some(id))
      requires DelegationTierAs(world, config, before, store.books, first, session.sys.calls, id, r, at, calls, true, true)
      modifies this`calls, session`sys, session`taken, store`books
      ensures Valid() && old(calls) <= calls && Frame(before, store.books, Some(id))
      ensures session.sys.calls == old(session.sys.calls)
      ensures source.Some? ==> && ok && source == Some(BurnedTrx)
                               && Sourced(world, config, store.books, id, config.minEnergy - r.energy, source.value, old(calls))
      ensures UnrentedAs(world, config, before, first, session.sys.calls, id, r, at, source, ok)
    {
      ghost var delegated, sent, burn := store.books, session.sys.calls, calls;
      source, ok := BurnEnergy(id, config.minEnergy - r.energy);
      FrameTwice(before, delegated, store.books, id);
      ThenUnrented(world, config, before, delegated, first, sent, id, r, at, burn, source, ok);
    }

    method DelegationTier(id: nat, r: Resources) returns (next: bool, ok: bool)
      requires Valid() && id < |store.books.withdrawals|
      modifies this`calls, session`sys, session`taken, store`books
      ensures Valid() && old(calls) <= calls && Frame(old(store.books), store.books, Some(id))
      ensures NoWithdrawal(old(session.sys.calls), session.sys.calls)
      ensures next ==> ok
      ensures DelegationTierAs(world, config, old(store.books), store.books, old(session.sys.calls), session.sys.calls, id, r,
                               old(calls), calls, next, ok)
    {
      ghost var before, sent, at := store.books, session.sys.calls, calls;
      var pending;
      pending, ok := EnsureDelegation(id, Energy, config.minEnergy - r.energy, r.energyLimit, r.energyWeight);
      GrantsAreNoWithdrawals(sent, session.sys.calls);
      FundedIsTier(world, config, before, store.books, sent, session.sys.calls, id, r, at, calls, pending, ok);
      next := ok && !pending;
    }

    /**
     The burn tier; a withdrawal that cannot pay for its energy fails, one without chain parameters waits for
     resources, and an error while reading them changes nothing.
     */
    method BurnEnergy(id: nat, missing: int) returns (source: Option<EnergySource>, ok: bool)
      requires Valid() && id < |store.books.withdrawals|
      modifies this`calls, session`sys, session`taken, store`books
      ensures Valid() && old(calls) <= calls && Frame(old(store.books), store.books, Some(id))
      ensures session.sys.calls == old(session.sys.calls)
      ensures source == if AffordsEnergy(world, config, old(store.books), id, missing, old(calls)) then Some(BurnedTrx) else None
      ensures source.Some? ==> ok && Sourced(world, config, store.books, id, missing, source.value, old(calls))
      ensures source.Some? || !ok ==> store.books == old(store.books)
      ensures ok <==> !config.fallbackToBurn || !world.parameters(old(calls)).ReadError?
      ensures source.None? && ok && AwaitingRow(old(store.books), id) ==>
                var waits := config.fallbackToBurn && world.parameters(old(calls)).NotFetched?;
                store.books.withdrawals[id].status == if waits then AwaitingResources else WithdrawalStatus.Failed
    {
      if !config.fallbackToBurn {
        GiveUp(id);
        return None, true;
      }
      var parameters := world.parameters(calls);
      calls := calls + 1;
      if parameters.ReadError? {
        return None, false;
      }
      if parameters.NotFetched? {
        var now := Clock();
        var waits := session.SetState(id, AwaitingEnergy, AwaitingResources, None, now);
        return None, true;
      }
      var cost := missing * parameters.energy;
      if config.maxBurn.None? || cost > config.maxBurn.value {
        GiveUp(id);
        return None, true;
      }
      var available := AvailableTrx(store.books.db, store.books.withdrawals[id].from);
      if available.None? || available.value < cost {
        GiveUp(id);
        return None, true;
      }
      return Some(BurnedTrx), true;
    }

    /** The resources of an unsigned withdrawal cannot be had. */
    method GiveUp(id: nat)
      requires Valid() && id < |store.books.withdrawals|
      modifies this`calls, session`sys, session`taken, store`books
      ensures Valid() && session.sys.calls == old(session.sys.calls) && old(calls) <= calls
      ensures Frame(old(store.books), store.books, Some(id))
      ensures var before, after := old(store.books).withdrawals[id], store.books.withdrawals[id];
              if before.txid.None? && Awaiting(before.status) then after.status.Failed? else store.books == old(store.books)
    {
      var now := Clock();
      var ok := session.FailResources(id, now);
    }

    /** A purchased order whose energy arrived is closed once the provider confirms it or its time is up. */
    method FinishRental(row: nat) returns (ready: bool)
      requires Valid() && row < |store.books.purchases| && store.books.purchases[row].status.Purchased?
      modifies this, session`sys, session`taken, store
      ensures Valid() && session.sys.calls == old(session.sys.calls) && old(calls) <= calls
      ensures store.books == PutPurchase(old(store.books), row,
                                         old(store.books).purchases[row].(status := if ready then Delegated else Purchased))
      ensures ready ==> store.providerFailures == 0 && circuitUntil.None?
      ensures ready <==> RentalIsOver(world, config, old(store.books).purchases[row], old(calls))
    {
      var status := if config.provider then world.provider(calls) else Succeeded;
      var now := world.clock(calls);
      calls := calls + 1;
      var timedOut := config.pollTimeout > 0 && now >= store.books.purchases[row].createdAt + config.pollTimeout;
      if !status.Succeeded? && !timedOut {
        DelayEnergyPoll(row);
        return false;
      }
      var ok := session.CompletePurchase(row);
      store.providerFailures := 0;
      nextEnergyPoll, circuitUntil := nextEnergyPoll - {row}, None;
      return true;
    }

    /** A grant of the withdrawal that is not failed is reconciled until its receipt is booked, then confirmed. */
    method SettleOwnGrant(id: nat, g: nat) returns (pending: bool, ok: bool)
      requires Valid() && g < |store.books.grants| && store.books.grants[g].withdrawal == Some(id)
      modifies this`calls, session`sys, session`taken, store`books
      ensures Valid() && old(calls) <= calls && Frame(old(store.books), store.books, Some(id))
      ensures session.sys.calls == old(session.sys.calls)
      ensures ok && !pending ==> g < |store.books.grants| && (store.books.grants[g].status.Confirmed? || store.books.grants[g].status.Failed?)
      ensures old(store.books).grants[g].fee.Some? || old(store.books).grants[g].txid.None? ==>
                && ok && !pending
                && (!Closed(old(store.books).grants[g].status) ==> store.books.grants[g].status.Confirmed?)
    {
      if store.books.grants[g].txid.Some? && store.books.grants[g].fee.None? {
        pending, ok := ReconcileResourceGrant(g);
        if pending || !ok {
          return;
        }
      }
      var ended := session.EndGrant(g, true);
      return false, true;
    }

    /** The address has the energy; was it a delegation that brought it? */
    method OwnOrDelegated(id: nat) returns (source: Option<EnergySource>, ok: bool)
      requires Valid() && id < |store.books.withdrawals|
      modifies this`calls, session`sys, session`taken, store`books
      ensures Valid() && old(calls) <= calls && Frame(old(store.books), store.books, Some(id))
      ensures session.sys.calls == old(session.sys.calls)
      ensures source.Some? ==> ok && source.value in {OwnEnergy, DelegatedEnergy}
      ensures var g := GrantFor(old(store.books).grants, id, Energy);
              if g.None? || old(store.books).grants[g.value].status == GrantStatus.Failed then
                source == Some(OwnEnergy) && store.books == old(store.books) && calls == old(calls)
              else
                && source != Some(OwnEnergy)
                && (old(store.books).grants[g.value].fee.Some? ==> source == Some(DelegatedEnergy))
    {
      var g := GrantFor(store.books.grants, id, Energy);
      if g.None? || store.books.grants[g.value].status.Failed? {
        return Some(OwnEnergy), true;
      }
      var pending;
      pending, ok := SettleOwnGrant(id, g.value);
      return if pending || !ok then None else Some(DelegatedEnergy), ok;
    }

    method AwaitEnergy(id: nat, status: WithdrawalStatus) returns (changed: bool)
      requires Valid() && AwaitingRow(store.books, id) && status == store.books.withdrawals[id].status
      modifies this`calls, session`sys, session`taken, store`books
      ensures Valid() && session.sys.calls == old(session.sys.calls) && calls == old(calls) + 1 && changed
      ensures store.books == old(store.books).(withdrawals := store.books.withdrawals) && Frame(old(store.books), store.books, Some(id))
      ensures store.books.withdrawals[id]
           == old(store.books).withdrawals[id].(status := AwaitingEnergy, statusAt := world.clock(old(calls)))
    {
      var now := Clock();
      changed := session.SetState(id, status, AwaitingEnergy, None, now);
    }

    /** Energy is missing: wait in that state while a source is being found. */
    method MissingEnergy(id: nat, status: WithdrawalStatus, r: Resources) returns (source: Option<EnergySource>, ok: bool, ghost burn: nat)
      requires Valid() && AwaitingRow(store.books, id) && status == store.books.withdrawals[id].status
      requires NewerIds(world, store.books, id, calls)
      modifies this, session`sys, session`taken, store
      ensures Valid() && old(calls) <= calls && Frame(old(store.books), store.books, Some(id))
      ensures NoWithdrawal(old(session.sys.calls), session.sys.calls)
      ensures source.Some? ==> ok && Sourced(world, config, store.books, id, config.minEnergy - r.energy, source.value, burn)
      ensures var at := old(calls) + if status.AwaitingEnergy? then 0 else 1;
              SourcedAs(world, config, CircuitHolds(old(circuitUntil), world.clock(at)), old(store.books), old(session.sys.calls), session.sys.calls,
                        id, r, at, source, ok)
    {
      ghost var before := store.books;
      if !status.AwaitingEnergy? {
        var changed := AwaitEnergy(id, status);
        if !changed {
          return None, true, calls;
        }
      }
      ghost var waiting, sent, at, circuit := store.books, session.sys.calls, calls, CircuitOpen(world.clock(calls));
      source, ok, burn := SourceEnergy(id, r);
      SourcedAlike(world, config, circuit, before, waiting, sent, session.sys.calls, id, r, at, source, ok);
    }

    /**
     The energy gate of a token transfer. It opens with enough energy at the address, with a rental whose order is
     delegated, or with a burn that was agreed before or is affordable now. Returns the state the row is expected in.
     */
    method EnergyGate(id: nat, r: Resources) returns (source: Option<EnergySource>, status: WithdrawalStatus, ok: bool, ghost burn: nat)
      requires Valid() && AwaitingRow(store.books, id) && NewerIds(world, store.books, id, calls)
      modifies this, session`sys, session`taken, store
      ensures Valid() && old(calls) <= calls && Frame(old(store.books), store.books, Some(id)) && Awaiting(status)
      ensures NoWithdrawal(old(session.sys.calls), session.sys.calls)
      ensures source.Some? ==> EnergyOpen(world, config, old(store.books), store.books, id, r, source.value, burn)
      ensures EnergyGateAs(world, config, old(circuitUntil), old(store.books), store.books, old(session.sys.calls), session.sys.calls, id, r,
                           old(calls), source, status, ok)
      ensures HasEnergy(config, old(store.books), id, r) ==>
                && ok && store.books == old(store.books) && session.sys.calls == old(session.sys.calls) && calls == old(calls)
                && source == Some(DecidedSource(old(store.books), id).GetOr(OwnEnergy)) && status == old(store.books).withdrawals[id].status
    {
      var w := store.books.withdrawals[id];
      var latest := EnergyPurchaseForWithdrawal(store.books.purchases, id);
      if latest.Some? && r.energy >= config.minEnergy && store.books.purchases[latest.value].status.Purchased? {
        burn := calls;
        var ready := FinishRental(latest.value);
        return if ready then Some(RentedEnergy) else None, w.status, true, burn;
      }
      var decided := w.energy;
      if latest.Some? && store.books.purchases[latest.value].status.Delegated? {
        decided := Some(RentedEnergy);
      }
      source, status, ok, burn := FindEnergy(id, r, decided);
    }

    /** No order waits for energy that arrived: the decided source serves, or one is found. */
    method FindEnergy(id: nat, r: Resources, decided: Option<EnergySource>)
      returns (source: Option<EnergySource>, status: WithdrawalStatus, ok: bool, ghost burn: nat)
      requires Valid() && AwaitingRow(store.books, id) && NewerIds(world, store.books, id, calls)
      modifies this, session`sys, session`taken, store
      ensures Valid() && old(calls) <= calls && Frame(old(store.books), store.books, Some(id)) && Awaiting(status)
      ensures NoWithdrawal(old(session.sys.calls), session.sys.calls)
      ensures source.Some? ==>
                || r.energy >= config.minEnergy || decided == Some(BurnedTrx)
                || Sourced(world, config, store.books, id, config.minEnergy - r.energy, source.value, burn)
      ensures FoundEnergyAs(world, config, old(circuitUntil), old(store.books), store.books, old(session.sys.calls), session.sys.calls, id, r,
                            decided, old(calls), source, status, ok)
      ensures (if r.energy >= config.minEnergy then NoEnergyUnderWay(old(store.books), id) else decided == Some(BurnedTrx)) ==>
                calls == old(calls)
    {
      status, burn := store.books.withdrawals[id].status, calls;
      if r.energy < config.minEnergy && decided != Some(BurnedTrx) {
        source, ok, burn := MissingEnergy(id, status, r);
        status := AwaitingEnergy;
      } else {
        source, ok := EnergyAtHand(id, decided);
      }
    }

    /** The decided source serves; without one the energy is the address's own or was delegated to it. */
    method EnergyAtHand(id: nat, decided: Option<EnergySource>) returns (source: Option<EnergySource>, ok: bool)
      requires Valid() && id < |store.books.withdrawals|
      modifies this`calls, session`sys, session`taken, store`books
      ensures Valid() && old(calls) <= calls && Frame(old(store.books), store.books, Some(id))
      ensures session.sys.calls == old(session.sys.calls) && (source.Some? ==> ok)
      ensures decided.Some? || NoEnergyUnderWay(old(store.books), id) ==>
                ok && store.books == old(store.books) && calls == old(calls) && source == if decided.None? then Some(OwnEnergy) else decided
    {
      source, ok := decided, true;
      if source.None? {
        source, ok := OwnOrDelegated(id);
      }
    }

    // ----- The bandwidth gate -----

    /** Does the TRX left for bandwidth, after the amount and the energy burn, cover it? */
    method CanBurnBandwidth(id: nat, native: bool, source: Option<EnergySource>, g: Option<nat>) returns (burn: bool)
      requires Valid() && id < |store.books.withdrawals| && (g.Some? ==> g.value < |store.books.grants|)
      modifies this`calls
      ensures old(calls) + 1 <= calls <= old(calls) + 2
      ensures burn <==> AffordsBandwidth(world, config, store.books, id, native, source, g, old(calls))
    {
      var w := store.books.withdrawals[id];
      var parameters := world.parameters(calls);
      calls := calls + 1;
      if !parameters.Fees? {
        return false;
      }
      var balance := AvailableTrx(store.books.db, w.from);
      if balance.None? {
        return false;
      }
      var available := balance.value;
      if g.Some? && store.books.grants[g.value].source.Topup? && store.books.grants[g.value].fee.Some? {
        var onChain := world.account(calls);
        calls := calls + 1;
        if onChain.None? || onChain.value < 0 {
          return false;
        }
        available := onChain.value;
      }
      if native {
        available := available - w.amount;
      }
      if source == Some(BurnedTrx) {
        available := available - config.minEnergy * parameters.energy;
      }
      return available >= config.minBandwidth * parameters.bandwidth;
    }

    /** The last gate before signing: enough bandwidth, or TRX to burn for it. */
    method BandwidthGate(id: nat, native: bool, status: WithdrawalStatus, source: Option<EnergySource>, r: Resources) returns (go: bool, ok: bool)
      requires Valid() && id < |store.books.withdrawals| && store.books.withdrawals[id].txid.None? && Awaiting(status)
      modifies this`calls, session`sys, session`taken, store`books
      ensures Valid() && old(calls) <= calls && Frame(old(store.books), store.books, Some(id))
      ensures GrantsOnly(old(session.sys.calls), session.sys.calls)
      ensures go ==> && ok && session.sys.calls == old(session.sys.calls)
                     && BandwidthOpen(world, config, old(store.books), id, native, source, r, old(calls))
      ensures BandwidthGateAs(world, config, old(store.books), store.books, old(session.sys.calls), session.sys.calls, id, native, status,
                              source, r, old(calls), go, ok)
      ensures HasBandwidth(world, config, old(store.books), id, native, source, r, old(calls)) ==>
                go && ok && store.books == old(store.books).(grants := store.books.grants)
    {
      if r.bandwidth < config.minBandwidth {
        go, ok := LowBandwidth(id, native, status, source, r);
        return;
      }
      var g := GrantFor(store.books.grants, id, Bandwidth);
      if g.Some? && !store.books.grants[g.value].status.Failed? {
        var pending;
        pending, ok := SettleOwnGrant(id, g.value);
        return !pending && ok, ok;
      }
      return true, true;
    }

    method LowBandwidth(id: nat, native: bool, status: WithdrawalStatus, source: Option<EnergySource>, r: Resources) returns (go: bool, ok: bool)
      requires Valid() && id < |store.books.withdrawals| && store.books.withdrawals[id].txid.None? && Awaiting(status)
      modifies this`calls, session`sys, session`taken, store`books
      ensures Valid() && old(calls) <= calls && Frame(old(store.books), store.books, Some(id))
      ensures GrantsOnly(old(session.sys.calls), session.sys.calls)
      ensures var g := GrantFor(old(store.books).grants, id, Bandwidth);
              go <==> AffordsBandwidth(world, config, old(store.books), id, native, source, g, old(calls))
      ensures go ==> ok && session.sys.calls == old(session.sys.calls) && store.books == old(store.books).(grants := store.books.grants)
      ensures !go && old(store.books).withdrawals[id].status == status ==>
                WaitsForBandwidth(world, config, old(store.books), store.books, old(session.sys.calls), session.sys.calls, id, r, old(calls), ok)
    {
      var g := GrantFor(store.books.grants, id, Bandwidth);
      ghost var before, sent, at := store.books, session.sys.calls, calls;
      go := CanBurnBandwidth(id, native, source, g);
      if go {
        EndTopup(g);
        return true, true;
      }
      ghost var from := calls + 1;
      ok := MissingBandwidth(id, status, source, r);
      assert before.withdrawals[id].status == status ==> ShortAs(world, config, before, store.books, sent, session.sys.calls, id, r, from, ok);
    }

    /** A top-up that is burned for is over. */
    method EndTopup(g: Option<nat>)
      requires Valid() && (g.Some? ==> g.value < |store.books.grants|)
      modifies session`sys, session`taken, store`books
      ensures Valid() && session.sys.calls == old(session.sys.calls) && store.books == old(store.books).(grants := store.books.grants)
      ensures |store.books.grants| == |old(store.books).grants|
      ensures forall i :: 0 <= i < |store.books.grants| ==>
                var before := old(store.books).grants[i];
                store.books.grants[i]
                == if g == Some(i) && before.source.Topup? && !Closed(before.status) then before.(status := GrantStatus.Confirmed) else before
    {
      if g.Some? && !store.books.grants[g.value].status.Failed? && store.books.grants[g.value].source.Topup? {
        var ended := session.EndGrant(g.value, true);
      }
    }

    /** Bandwidth is missing: grant it, or fail the withdrawal when nothing is under way. */
    method MissingBandwidth(id: nat, status: WithdrawalStatus, source: Option<EnergySource>, r: Resources) returns (ok: bool)
      requires Valid() && id < |store.books.withdrawals| && store.books.withdrawals[id].txid.None? && Awaiting(status)
      modifies this`calls, session`sys, session`taken, store`books
      ensures Valid() && old(calls) <= calls && Frame(old(store.books), store.books, Some(id))
      ensures GrantsOnly(old(session.sys.calls), session.sys.calls)
      ensures old(store.books).withdrawals[id].status == status ==>
                ShortAs(world, config, old(store.books), store.books, old(session.sys.calls), session.sys.calls, id, r, old(calls) + 1, ok)
    {
      ghost var before := store.books;
      var now := Clock();
      if !status.AwaitingResources? {
        var changed := session.SetState(id, status, AwaitingResources, source, now);
        if !changed {
          return true;
        }
      }
      ghost var waiting := store.books;
      assert Frame(before, waiting, Some(id));
      ghost var sent, at := session.sys.calls, calls;
      ok := GrantOrClose(id, source, r, now);
      FrameTwice(before, waiting, store.books, id);
      if before.withdrawals[id].status == status {
        ShortAlike(world, config, before, waiting, store.books, sent, session.sys.calls, id, r, at, ok);
      }
    }

    method GrantOrClose(id: nat, source: Option<EnergySource>, r: Resources, now: int) returns (ok: bool)
      requires Valid() && id < |store.books.withdrawals|
      modifies this`calls, session`sys, session`taken, store`books
      ensures Valid() && old(calls) <= calls && Frame(old(store.books), store.books, Some(id))
      ensures GrantsOnly(old(session.sys.calls), session.sys.calls)
      ensures var w := old(store.books).withdrawals[id];
              w.status.AwaitingResources? && w.txid.None? ==>
                ShortAs(world, config, old(store.books), store.books, old(session.sys.calls), session.sys.calls, id, r, old(calls), ok)
    {
      ghost var before, sent, at := store.books, session.sys.calls, calls;
      var pending;
      pending, ok := SourceBandwidth(id, r);
      ghost var granted := store.books;
      if ok {
        CloseBandwidth(id, source, pending, now);
        FrameTwice(before, granted, store.books, id);
      }
      if before.withdrawals[id].status.AwaitingResources? && before.withdrawals[id].txid.None? {
        ThenShort(world, config, before, granted, store.books, sent, session.sys.calls, id, r, at, pending, ok);
      }
    }

    /** By delegation or by a top-up, as configured. */
    method SourceBandwidth(id: nat, r: Resources) returns (pending: bool, ok: bool)
      requires Valid() && id < |store.books.withdrawals|
      modifies this`calls, session`sys, session`taken, store`books
      ensures Valid() && old(calls) <= calls && Frame(old(store.books), store.books, Some(id))
      ensures GrantsOnly(old(session.sys.calls), session.sys.calls)
      ensures FundedAs(world, config, old(store.books), store.books, old(session.sys.calls), session.sys.calls, id, Bandwidth,
                       if config.delegatesBandwidth then SelfDelegated else Topup, BandwidthAmount(config, r), old(calls), pending, ok)
    {
      if config.delegatesBandwidth {
        pending, ok := EnsureDelegation(id, Bandwidth, config.minBandwidth - r.bandwidth, r.bandwidthLimit, r.bandwidthWeight);
      } else {
        pending, ok := EnsureTopup(id);
      }
    }

    method CloseBandwidth(id: nat, source: Option<EnergySource>, pending: bool, now: int)
      requires Valid() && id < |store.books.withdrawals|
      modifies session`sys, session`taken, store`books
      ensures Valid() && Frame(old(store.books), store.books, Some(id)) && session.sys.calls == old(session.sys.calls)
      ensures var w, v := old(store.books).withdrawals[id], store.books.withdrawals[id];
              w.status.AwaitingResources? && w.txid.None? ==>
                && v.status == (if pending then AwaitingResources else WithdrawalStatus.Failed)
                && v.energy == if source.Some? then source else w.energy
    {
      var ok := session.SetState(id, AwaitingResources, AwaitingResources, source, now);
      if !pending {
        ok := session.FailResources(id, now);
      }
    }

    // ----- Serving a withdrawal -----

    /**
     Acquires energy and bandwidth and then sends. At most one withdrawal leaves, it is this one, and only with
     both gates open. Without an error the row is not left signing without a stored transaction id.
     */
    method AcquireAndSend(id: nat) returns (ok: bool, ghost gates: Gates)
      requires Valid() && AwaitingRow(store.books, id) && NewerIds(world, store.books, id, calls)
      modifies this, session`sys, session`taken, store
      ensures Valid() && old(calls) <= calls
      ensures Served(old(store.books), store.books, old(session.sys.calls), session.sys.calls, id)
      ensures NoWithdrawal(old(session.sys.calls), session.sys.calls) || GatesOpen(world, config, old(store.books), id, gates)
      ensures ok ==> Unstuck(store.books, id)
      ensures !WaitsForOrder(old(store.books), id) ==>
                ReadAs(world, config, old(store.books), store.books, old(session.sys.calls), session.sys.calls, id, old(calls), ok)
    {
      gates := Gates(calls, None, calls, store.books, calls);
      var latest := EnergyPurchaseForWithdrawal(store.books.purchases, id);
      if store.books.withdrawals[id].status.AwaitingEnergy? && latest.Some? && store.books.purchases[latest.value].status.Purchased? {
        var due := EnergyPollDue(latest.value);
        if !due {
          return true, gates;
        }
      }
      ok, gates := ReadAndSend(id);
    }

    /** An error when the resources cannot be read. */
    method ReadAndSend(id: nat) returns (ok: bool, ghost gates: Gates)
      requires Valid() && AwaitingRow(store.books, id) && NewerIds(world, store.books, id, calls)
      modifies this, session`sys, session`taken, store
      ensures Valid() && old(calls) <= calls
      ensures Served(old(store.books), store.books, old(session.sys.calls), session.sys.calls, id)
      ensures NoWithdrawal(old(session.sys.calls), session.sys.calls) || GatesOpen(world, config, old(store.books), id, gates)
      ensures ok ==> Unstuck(store.books, id)
      ensures ReadAs(world, config, old(store.books), store.books, old(session.sys.calls), session.sys.calls, id, old(calls), ok)
    {
      gates := Gates(calls, None, calls, store.books, calls);
      var r := world.resources(calls);
      calls := calls + 1;
      if r.None? {
        return false, gates;
      }
      ok, gates := PassGatesAndSend(id, r.value, calls - 1);
    }

    method PassGatesAndSend(id: nat, r: Resources, ghost read: nat) returns (ok: bool, ghost gates: Gates)
      requires Valid() && AwaitingRow(store.books, id) && NewerIds(world, store.books, id, calls)
      requires world.resources(read) == Some(r)
      modifies this, session`sys, session`taken, store
      ensures Valid() && old(calls) <= calls
      ensures Served(old(store.books), store.books, old(session.sys.calls), session.sys.calls, id)
      ensures NoWithdrawal(old(session.sys.calls), session.sys.calls) || GatesOpen(world, config, old(store.books), id, gates)
      ensures ok ==> Unstuck(store.books, id)
      ensures AcquiredAs(world, config, old(store.books), store.books, old(session.sys.calls), session.sys.calls, id, r, old(calls))
    {
      var w := store.books.withdrawals[id];
      gates := Gates(read, w.energy, calls, store.books, calls);
      if w.asset !in config.natives {
        ok := EscalateUnconfigured(id);
      } else if config.natives[w.asset] {
        ok := PassBandwidthAndSend(id, true, w.status, w.energy, r);
      } else {
        ok, gates := AcquireEnergyAndSend(id, r, read);
      }
    }

    method EscalateUnconfigured(id: nat) returns (ok: bool)
      requires Valid() && AwaitingRow(store.books, id)
      modifies this`calls, session`sys, session`taken, store`books
      ensures Valid() && old(calls) <= calls && Frame(old(store.books), store.books, Some(id))
      ensures session.sys.calls == old(session.sys.calls)
      ensures store.books.withdrawals[id].status.NeedsOperator?
    {
      var now := Clock();
      ok := session.Escalate(id, now);
    }

    method AcquireEnergyAndSend(id: nat, r: Resources, ghost read: nat) returns (ok: bool, ghost gates: Gates)
      requires Valid() && AwaitingRow(store.books, id) && NewerIds(world, store.books, id, calls)
      requires world.resources(read) == Some(r)
      requires store.books.withdrawals[id].asset in config.natives && !config.natives[store.books.withdrawals[id].asset]
      modifies this, session`sys, session`taken, store
      ensures Valid() && old(calls) <= calls
      ensures Supplied(world, config, old(store.books), id, r, old(calls)) ==>
                Left(old(session.sys.calls), session.sys.calls, store.books, id)
      ensures Served(old(store.books), store.books, old(session.sys.calls), session.sys.calls, id)
      ensures NoWithdrawal(old(session.sys.calls), session.sys.calls) || GatesOpen(world, config, old(store.books), id, gates)
      ensures ok ==> Unstuck(store.books, id)
    {
      ghost var before, sent := store.books, session.sys.calls;
      var source, status;
      ghost var burn;
      source, status, ok, burn := EnergyGate(id, r);
      ghost var gated, granted := store.books, session.sys.calls;
      gates := Gates(read, source, burn, gated, calls);
      if source.Some? && ok {
        ok := PassBandwidthAndSend(id, false, status, source, r);
        ThenServed(before, gated, store.books, sent, granted, session.sys.calls, id);
        ThenOpen(world, config, before, id, r, gates, sent, granted, session.sys.calls);
      }
    }

    method PassBandwidthAndSend(id: nat, native: bool, status: WithdrawalStatus, source: Option<EnergySource>, r: Resources) returns (ok: bool)
      requires Valid() && id < |store.books.withdrawals| && store.books.withdrawals[id].txid.None? && Awaiting(status)
      modifies this`calls, session`sys, session`taken, store`books
      ensures Valid() && old(calls) <= calls
      ensures Served(old(store.books), store.books, old(session.sys.calls), session.sys.calls, id)
      ensures NoWithdrawal(old(session.sys.calls), session.sys.calls)
              || BandwidthOpen(world, config, old(store.books), id, native, source, r, old(calls))
      ensures old(store.books).withdrawals[id].status == status && Unspent(old(store.books).withdrawals[id]) && CanSign(world, id, old(calls))
              && HasBandwidth(world, config, old(store.books), id, native, source, r, old(calls)) ==>
                Left(old(session.sys.calls), session.sys.calls, store.books, id)
      ensures ok && !Stuck(old(store.books).withdrawals[id]) ==> Unstuck(store.books, id)
    {
      ghost var before, sent := store.books, session.sys.calls;
      var go;
      go, ok := BandwidthGate(id, native, status, source, r);
      ghost var gated, granted := store.books, session.sys.calls;
      assert go ==> granted == sent;
      if go {
        ok := SignFrom(id, status, source);
        ThenServed(before, gated, store.books, sent, granted, session.sys.calls, id);
      }
    }

    /** Signing starts only from the state the gates were passed in; otherwise nothing changes. */
    method SignFrom(id: nat, status: WithdrawalStatus, source: Option<EnergySource>) returns (ok: bool)
      requires Valid() && id < |store.books.withdrawals| && store.books.withdrawals[id].txid.None? && Awaiting(status)
      modifies this`calls, session`sys, session`taken, store`books
      ensures Valid() && old(calls) <= calls
      ensures Served(old(store.books), store.books, old(session.sys.calls), session.sys.calls, id)
      ensures old(store.books).withdrawals[id].status != status ==> store.books == old(store.books)
      ensures session.sys.calls != old(session.sys.calls) && source.Some? ==> store.books.withdrawals[id].energy == source
      ensures old(store.books).withdrawals[id].status == status && Unspent(old(store.books).withdrawals[id]) && CanSign(world, id, old(calls)) ==>
                Left(old(session.sys.calls), session.sys.calls, store.books, id)
      ensures ok && !Stuck(old(store.books).withdrawals[id]) ==> Unstuck(store.books, id)
    {
      var now := Clock();
      var changed := session.SetState(id, status, Signing, source, now);
      ok := true;
      if changed {
        ok := SignAndBroadcast(id);
      }
    }

    // ----- Recovery -----

    /** Closes what a withdrawal bought before a restart, by whether the energy is there. */
    method ClosePurchases(id: nat, now: int) returns (ok: bool)
      requires Valid() && id < |store.books.withdrawals|
      modifies this`calls, session`sys, session`taken, store`books
      ensures Valid() && calls == old(calls) + 1 && session.sys.calls == old(session.sys.calls)
      ensures ok <==> world.resources(old(calls)).Some?
      ensures store.books == old(store.books).(purchases := store.books.purchases)
      ensures |store.books.purchases| == |old(store.books).purchases|
      ensures SamePurchases(old(store.books).purchases, store.books.purchases, Some(id))
      ensures ok ==> PurchasesClosed(old(store.books), store.books, id)
    {
      var r := world.resources(calls);
      calls := calls + 1;
      if r.None? {
        return false;
      }
      ReconcilingCloses(store.books, id, r.value.energy >= config.minEnergy);
      session.ReconcileEnergy(id, r.value.energy >= config.minEnergy);
      return true;
    }

    /**
     One candidate of the recovery query. A withdrawal with a stored transaction id is looked up and never sent; a
     waiting one is served again, after a restart with its purchases closed first.
     */
    method RecoverOne(id: nat, force: bool, now: int) returns (ok: bool)
      requires Valid() && Candidate(store.books.withdrawals, id, force, now, config.pollTimeout) && (force ==> !session.careful)
      requires NewerIds(world, store.books, id, calls)
      modifies this, session`sys, session`taken, store
      ensures Valid() && old(calls) <= calls
      ensures Served(old(store.books), store.books, old(session.sys.calls), session.sys.calls, id)
      ensures !AwaitingRow(old(store.books), id) ==> session.sys.calls == old(session.sys.calls) && OnlyRow(old(store.books), store.books, id)
      ensures Stuck(old(store.books).withdrawals[id]) ==> store.books.withdrawals[id].status.NeedsOperator?
      ensures ok ==> Unstuck(store.books, id)
      ensures old(store.books).withdrawals[id].txid.Some? ==>
                LookedAgainAs(world, old(store.books), store.books, id, force, now, old(calls), ok)
      ensures old(store.books).withdrawals[id].status.AwaitingResources? && old(store.books).withdrawals[id].txid.None? ==>
                ReadAs(world, config, old(store.books), store.books, old(session.sys.calls), session.sys.calls, id, old(calls), ok)
      ensures ok && force && AwaitingRow(old(store.books), id) && old(store.books).withdrawals[id].status.AwaitingEnergy? ==>
                PurchasesClosed(old(store.books), store.books, id)
    {
      var w := store.books.withdrawals[id];
      if w.txid.Some? {
        ok := LookAgain(id, force, now);
        return;
      }
      if w.status.Signing? {
        ok := session.Escalate(id, now);
        return;
      }
      if w.status.AwaitingEnergy? && !force {
        return true;
      }
      ok := ServeAgain(id, force, now);
    }

    /** A waiting withdrawal is served; after a restart the purchases of one that waits for energy are closed first. */
    method ServeAgain(id: nat, force: bool, now: int) returns (ok: bool)
      requires Valid() && AwaitingRow(store.books, id) && NewerIds(world, store.books, id, calls)
      requires store.books.withdrawals[id].status.AwaitingEnergy? ==> force
      modifies this, session`sys, session`taken, store
      ensures Valid() && old(calls) <= calls
      ensures Served(old(store.books), store.books, old(session.sys.calls), session.sys.calls, id)
      ensures old(store.books).withdrawals[id].status.AwaitingResources? ==>
                ReadAs(world, config, old(store.books), store.books, old(session.sys.calls), session.sys.calls, id, old(calls), ok)
      ensures ok ==> Unstuck(store.books, id)
      ensures ok && old(store.books).withdrawals[id].status.AwaitingEnergy? ==> PurchasesClosed(old(store.books), store.books, id)
    {
      var w := store.books.withdrawals[id];
      if w.status.AwaitingEnergy? {
        ok := ClosePurchases(id, now);
        if !ok {
          return;
        }
      }
      ghost var closed := store.books;
      StaysNewer(world, old(store.books), closed, id, id, old(calls), calls);
      ghost var gates;
      ok, gates := AcquireAndSend(id);
      SameTwice(old(store.books).purchases, closed.purchases, store.books.purchases, Some(id));
      if w.status.AwaitingEnergy? {
        ThenClosed(old(store.books), closed, store.books, id);
      }
    }

    /** A sent withdrawal is looked up, but not too often unless forced. */
    method LookAgain(id: nat, force: bool, now: int) returns (ok: bool)
      requires Valid() && Sought(store.books, id) && (session.careful ==> Open(store.books, id))
      modifies this`calls, session`sys, session`taken, store`books
      ensures Valid() && session.sys.calls == old(session.sys.calls) && old(calls) <= calls
      ensures OnlyRow(old(store.books), store.books, id)
      ensures LookedAgainAs(world, old(store.books), store.books, id, force, now, old(calls), ok)
    {
      var w := store.books.withdrawals[id];
      if !force {
        if w.status.Signing? && w.attemptedAt.Some? && now - w.attemptedAt.value < 60 {
          return true;
        }
        if w.lookupAt.Some? && now - w.lookupAt.value < 15 {
          return true;
        }
      }
      ok := Resolve(id, false);
    }

    /**
     The start of every tick, and with force of every start. No withdrawal with a stored transaction id is sent;
     a waiting one is sent at most once; and when no error stops it, no withdrawal is left signing without a
     stored transaction id.
     */
    method Recover(force: bool) returns (ok: bool)
      requires Valid() && forall i :: 0 <= i < |store.books.withdrawals| ==> NewerIds(world, store.books, i, calls)
      modifies this, session`sys, session`taken, session`careful, store
      ensures Valid() && (!force ==> session.careful == old(session.careful))
      ensures Recovered(old(store.books), store.books, old(session.sys.calls), session.sys.calls,
                        Candidates(old(store.books).withdrawals, force, world.clock(old(calls)), config.pollTimeout))
      ensures ok ==> forall i :: 0 <= i < |store.books.withdrawals| ==> Unstuck(store.books, i)
      ensures ok ==> var ids := Candidates(old(store.books).withdrawals, force, world.clock(old(calls)), config.pollTimeout);
                     AllHandled(world, old(store.books), store.books, ids, |ids|, force, world.clock(old(calls)))
      ensures ok ==> AllCalled(world, old(store.books).grants, |old(store.books).grants|, old(session.sys.calls), session.sys.calls)
    {
      if force {
        session.careful := false;
      }
      var now := Clock();
      ghost var before, sent := store.books, session.sys.calls;
      ok := RecoverGrants();
      var ids := Candidates(store.books.withdrawals, force, now, config.pollTimeout);
      GrantsRecovered(world, before, store.books, sent, session.sys.calls, old(calls), calls);
      if ok {
        ghost var granted, mid := store.books, session.sys.calls;
        ok := RecoverEach(ids, force, now);
        AfterGrants(before, granted, store.books, sent, mid, session.sys.calls, ids);
        StillCalled(world, before.grants, sent, mid, session.sys.calls);
        AllHandledSince(world, before, granted, store.books, ids, force, now, ok);
        NoneStuck(before, store.books, ids, force, now, config.pollTimeout, ok);
      } else {
        NothingRecovered(before, store.books, sent, session.sys.calls, ids);
      }
    }

    /** The grants an operator asked for: each is sent while requested, and reconciled afterwards. */
    method RecoverGrants() returns (ok: bool)
      requires Valid()
      modifies this`calls, session`sys, session`taken, store`books
      ensures Valid() && old(calls) <= calls && Frame(old(store.books), store.books, None)
      ensures ManualGrants(old(store.books).grants, old(session.sys.calls), session.sys.calls)
      ensures ok ==> GrantsUpTo(world, old(store.books).grants, store.books.grants, |store.books.grants|)
      ensures ok ==> AllCalled(world, old(store.books).grants, |store.books.grants|, old(session.sys.calls), session.sys.calls)
    {
      ok := true;
      var n, i := |store.books.grants|, 0;
      while i < n && ok
        invariant i <= n == |store.books.grants| == |old(store.books).grants|
        invariant Valid() && old(calls) <= calls && Frame(old(store.books), store.books, None)
        invariant store.books.grants[i..] == old(store.books).grants[i..]
        invariant ManualGrants(old(store.books).grants, old(session.sys.calls), session.sys.calls)
        invariant ok ==> GrantsUpTo(world, old(store.books).grants, store.books.grants, i)
        invariant AllCalled(world, old(store.books).grants, i, old(session.sys.calls), session.sys.calls)
      {
        ghost var mid, grants := session.sys.calls, store.books.grants;
        ok := RecoverGrant(i);
        OneMoreGrant(world, old(store.books).grants, grants, store.books.grants, i, ok);
        OneMoreCalled(world, old(store.books).grants, i, old(session.sys.calls), mid, session.sys.calls);
        i := i + 1;
      }
    }

    /** Withdrawals' grants are left alone; an operator's is started, or reconciled once it was sent. */
    method RecoverGrant(id: nat) returns (ok: bool)
      requires Valid() && id < |store.books.grants|
      modifies this`calls, session`sys, session`taken, store`books
      ensures Valid() && old(calls) <= calls && Frame(old(store.books), store.books, None)
      ensures KeepsGrants(old(store.books).grants, store.books.grants, id)
      ensures session.sys.calls == old(session.sys.calls)
              || (&& |session.sys.calls| == |old(session.sys.calls)| + 1 && session.sys.calls[..|old(session.sys.calls)|] == old(session.sys.calls)
                  && session.sys.calls[|old(session.sys.calls)|].id == id
                  && ManualGrant(old(store.books).grants, session.sys.calls[|old(session.sys.calls)|]))
      ensures ok ==> GrantRecovered(world, old(store.books).grants[id], store.books.grants[id])
      ensures Startable(world, old(store.books).grants[id]) ==> session.sys.calls != old(session.sys.calls)
    {
      ghost var before, at := store.books, calls;
      var g, pending := store.books.grants[id], false;
      ok := true;
      if g.withdrawal.None? && g.status.Requested? {
        pending, ok := StartDelegation(id);
        assert ok ==> StartedRow(world, g, store.books.grants[id], at);
      } else if g.withdrawal.None? && (g.status.Attempted? || g.status.Broadcast?) {
        pending, ok := ReconcileResourceGrant(id);
        if ok {
          ReconciledRow(world, config, before, store.books, id, at, pending);
        }
      }
    }

    method RecoverNext(ids: seq<nat>, n: nat, force: bool, now: int, ghost first: Books, ghost sent: seq<Target>) returns (ok: bool)
      requires Valid() && (force ==> !session.careful) && n < |ids|
      requires Candidate(first.withdrawals, ids[n], force, now, config.pollTimeout)
      requires Recovered(first, store.books, sent, session.sys.calls, ids[..n])
      requires forall k :: n <= k < |ids| ==> NewerIds(world, store.books, ids[k], calls)
      requires forall j, k :: 0 <= j < k < |ids| ==> ids[j] < ids[k]
      requires AllUnstuck(store.books, ids, n) && AllHandled(world, first, store.books, ids, n, force, now)
      modifies this, session`sys, session`taken, store
      ensures Valid()
      ensures Recovered(first, store.books, sent, session.sys.calls, ids[..n + 1])
      ensures forall k :: n < k < |ids| ==> NewerIds(world, store.books, ids[k], calls)
      ensures ok ==> AllUnstuck(store.books, ids, n + 1) && AllHandled(world, first, store.books, ids, n + 1, force, now)
    {
      ghost var before, mid, from := store.books, session.sys.calls, calls;
      NotYet(first, before, sent, mid, ids, n);
      ok := RecoverOne(ids[n], force, now);
      OneMoreCandidate(first, before, store.books, sent, mid, session.sys.calls, ids, n);
      OneMoreHandled(world, first, before, store.books, ids, n, force, now, from, ok);
      StillNewer(world, before, store.books, ids, n, from, calls);
    }

    method RecoverEach(ids: seq<nat>, force: bool, now: int) returns (ok: bool)
      requires Valid() && (force ==> !session.careful)
      requires forall k :: 0 <= k < |ids| ==> Candidate(store.books.withdrawals, ids[k], force, now, config.pollTimeout)
      requires forall k :: 0 <= k < |ids| ==> NewerIds(world, store.books, ids[k], calls)
      requires forall j, k :: 0 <= j < k < |ids| ==> ids[j] < ids[k]
      modifies this, session`sys, session`taken, store
      ensures Valid()
      ensures Recovered(old(store.books), store.books, old(session.sys.calls), session.sys.calls, ids)
      ensures ok ==> forall k :: 0 <= k < |ids| ==> Unstuck(store.books, ids[k])
      ensures ok ==> AllHandled(world, old(store.books), store.books, ids, |ids|, force, now)
    {
      ghost var first, sent := store.books, session.sys.calls;
      ok := true;
      var n := 0;
      NothingRecovered(first, first, sent, sent, ids[..0]);
      while n < |ids| && ok
        invariant n <= |ids| && Valid() && (force ==> !session.careful)
        invariant Recovered(first, store.books, sent, session.sys.calls, ids[..n])
        invariant forall k :: n <= k < |ids| ==> NewerIds(world, store.books, ids[k], calls)
        invariant ok ==> AllUnstuck(store.books, ids, n) && AllHandled(world, first, store.books, ids, n, force, now)
      {
        ok := RecoverNext(ids, n, force, now, first, sent);
        n := n + 1;
      }
      AllOf(first, store.books, sent, session.sys.calls, ids, n);
    }
  }

  // ----- Candidates of the recovery -----

  /** Signing without a stored transaction id: nobody can tell whether it was sent. */
  predicate Stuck(w: Withdrawal) {
    w.txid.None? && w.status.Signing?
  }

  predicate Unstuck(books: Books, id: nat) {
    id < |books.withdrawals| && !Stuck(books.withdrawals[id])
  }

  /** The recovery query: a stored transaction id wins over the status column, and waiting rows are served again in time. */
  predicate Candidate(ws: seq<Withdrawal>, id: nat, force: bool, now: int, timeout: int) {
    && id < |ws|
    && var w := ws[id];
       || Stuck(w)
       || (w.txid.Some? && !w.status.Confirmed? && (force || (!w.status.Failed? && !w.status.NeedsOperator?)))
       || (w.status.AwaitingResources? && w.statusAt <= now - 300)
       || (w.status.AwaitingEnergy? && w.statusAt <= now - timeout)
  }

  function CandidatesBelow(ws: seq<Withdrawal>, n: nat, force: bool, now: int, timeout: int): (ids: seq<nat>)
    requires n <= |ws|
    ensures forall k :: 0 <= k < |ids| ==> ids[k] < n && Candidate(ws, ids[k], force, now, timeout)
    ensures forall j, k :: 0 <= j < k < |ids| ==> ids[j] < ids[k]
    ensures forall i :: 0 <= i < n && Candidate(ws, i, force, now, timeout) ==> i in ids
  {
    if n == 0 then []
    else
      var ids := CandidatesBelow(ws, n - 1, force, now, timeout);
      if Candidate(ws, n - 1, force, now, timeout) then ids + [n - 1] else ids
  }

  function Candidates(ws: seq<Withdrawal>, force: bool, now: int, timeout: int): (ids: seq<nat>)
    ensures forall k :: 0 <= k < |ids| ==> Candidate(ws, ids[k], force, now, timeout)
    ensures forall j, k :: 0 <= j < k < |ids| ==> ids[j] < ids[k]
    ensures forall i :: 0 <= i < |ws| && Candidate(ws, i, force, now, timeout) ==> i in ids
  {
    CandidatesBelow(ws, |ws|, force, now, timeout)
  }

  /** A withdrawal the recovery may look up at all. */
  predicate Sought(books: Books, id: nat) {
    id < |books.withdrawals| && books.withdrawals[id].txid.Some? && !books.withdrawals[id].status.Confirmed?
  }

  /** A withdrawal that waits for resources and was never signed. */
  predicate AwaitingRow(books: Books, id: nat) {
    id < |books.withdrawals| && Awaiting(books.withdrawals[id].status) && books.withdrawals[id].txid.None?
  }

  // ----- Frames -----

  /** Stored purchases keep their terms, none of them becomes purchased, and new ones belong to one withdrawal. */
  ghost predicate SamePurchases(ps: seq<Purchase>, qs: seq<Purchase>, only: Option<nat>) {
    && |ps| <= |qs| && (only.None? ==> |qs| == |ps|)
    && (forall i :: 0 <= i < |ps| ==> KeptPurchase(ps[i], qs[i]))
    && (forall i :: |ps| <= i < |qs| ==> only == Some(qs[i].withdrawal))
  }

  predicate KeptPurchase(p: Purchase, q: Purchase) {
    && q.id == p.id && q.withdrawal == p.withdrawal && q.createdAt == p.createdAt
    && (q.status.Purchased? ==> p.status.Purchased?)
  }

  ghost predicate OnlyPurchases(before: Books, after: Books, withdrawal: nat) {
    after == before.(purchases := after.purchases) && SamePurchases(before.purchases, after.purchases, Some(withdrawal))
  }

  ghost predicate OnlyPurchase(before: Books, after: Books, row: nat) {
    && after == before.(purchases := after.purchases)
    && |after.purchases| == |before.purchases| && row < |before.purchases|
    && after.purchases[row].withdrawal == before.purchases[row].withdrawal
    && forall i :: 0 <= i < |before.purchases| && i != row ==> after.purchases[i] == before.purchases[i]
  }

  /** The withdrawal's latest purchase brought its energy. */
  predicate LatestDelegated(books: Books, withdrawal: nat) {
    var latest := EnergyPurchaseForWithdrawal(books.purchases, withdrawal);
    latest.Some? && books.purchases[latest.value].status.Delegated?
  }

  ghost predicate KeepsGrants(gs: seq<Grant>, hs: seq<Grant>, id: nat) {
    && |hs| == |gs|
    && (forall i :: 0 <= i < |gs| && i != id ==> hs[i] == gs[i])
    && (id < |gs| ==> hs[id].withdrawal == gs[id].withdrawal && hs[id].resource == gs[id].resource)
  }

  ghost predicate OnlyGrant(before: Books, after: Books, id: nat) {
    after == before.(grants := after.grants) && KeepsGrants(before.grants, after.grants, id)
  }

  ghost predicate UniqueGrants(gs: seq<Grant>) {
    forall i, j :: 0 <= i < j < |gs| && gs[i].withdrawal.Some? && gs[i].withdrawal == gs[j].withdrawal ==> gs[i].resource != gs[j].resource
  }

  /** The withdrawal's grant of a resource. */
  function GrantFor(grants: seq<Grant>, withdrawal: nat, resource: Resource): (g: Option<nat>)
    ensures g.Some? ==> g.value < |grants| && grants[g.value].withdrawal == Some(withdrawal) && grants[g.value].resource == resource
    ensures g.None? ==> forall i :: 0 <= i < |grants| ==> grants[i].withdrawal != Some(withdrawal) || grants[i].resource != resource
  {
    if grants == [] then None
    else
      var last := |grants| - 1;
      if grants[last].withdrawal == Some(withdrawal) && grants[last].resource == resource then Some(last)
      else GrantFor(grants[..last], withdrawal, resource)
  }

  lemma KeptGrantsStay(gs: seq<Grant>, hs: seq<Grant>, g: nat, withdrawal: nat, resource: Resource)
    requires KeepsGrants(gs, hs, g) && g < |gs| && gs[g].withdrawal == Some(withdrawal) && gs[g].resource == resource
    ensures UniqueGrants(gs) ==> UniqueGrants(hs)
    ensures GrantFor(hs, withdrawal, resource).Some?
  {
  }

  /** At most one withdrawal row changes, it is not signed meanwhile, and new purchases are its own. */
  ghost predicate Frame(before: Books, after: Books, only: Option<nat>) {
    && |after.withdrawals| == |before.withdrawals|
    && (forall i :: 0 <= i < |after.withdrawals| ==> KeptWithdrawal(before.withdrawals[i], after.withdrawals[i], only == Some(i)))
    && SamePurchases(before.purchases, after.purchases, only)
  }

  predicate KeptWithdrawal(w: Withdrawal, v: Withdrawal, served: bool) {
    v.txid == w.txid && (v.status.Signing? ==> w.status.Signing?) && (!served ==> v == w)
  }

  ghost predicate OthersSame(before: Books, after: Books, id: nat) {
    && |after.withdrawals| == |before.withdrawals| && id < |after.withdrawals|
    && (forall i :: 0 <= i < |after.withdrawals| && i != id ==> after.withdrawals[i] == before.withdrawals[i])
    && SamePurchases(before.purchases, after.purchases, Some(id))
  }

  /** Only one withdrawal row changes besides the ledger, and it keeps its transaction id and energy source. */
  ghost predicate OnlyRow(before: Books, after: Books, id: nat) {
    && after == before.(db := after.db, withdrawals := after.withdrawals)
    && |after.withdrawals| == |before.withdrawals| && id < |after.withdrawals|
    && (forall i :: 0 <= i < |after.withdrawals| && i != id ==> after.withdrawals[i] == before.withdrawals[i])
    && after.withdrawals[id].txid == before.withdrawals[id].txid
    && after.withdrawals[id].addressId == before.withdrawals[id].addressId
    && after.withdrawals[id].attemptedAt == before.withdrawals[id].attemptedAt
    && after.withdrawals[id].expiresAt == before.withdrawals[id].expiresAt
    && after.withdrawals[id].energy == before.withdrawals[id].energy
  }

  lemma FrameTwice(before: Books, mid: Books, after: Books, id: nat)
    requires Frame(before, mid, Some(id)) && Frame(mid, after, Some(id))
    ensures Frame(before, after, Some(id))
  {
    SameTwice(before.purchases, mid.purchases, after.purchases, Some(id));
    forall i | 0 <= i < |after.withdrawals| ensures KeptWithdrawal(before.withdrawals[i], after.withdrawals[i], id == i) {
      assert KeptWithdrawal(before.withdrawals[i], mid.withdrawals[i], id == i);
      assert KeptWithdrawal(mid.withdrawals[i], after.withdrawals[i], id == i);
    }
  }

  lemma SameTwice(ps: seq<Purchase>, qs: seq<Purchase>, rs: seq<Purchase>, only: Option<nat>)
    requires SamePurchases(ps, qs, only) && SamePurchases(qs, rs, only)
    ensures SamePurchases(ps, rs, only)
  {
    forall i | 0 <= i < |ps| ensures KeptPurchase(ps[i], rs[i]) {
      assert KeptPurchase(ps[i], qs[i]) && KeptPurchase(qs[i], rs[i]);
    }
    forall i | |ps| <= i < |rs| ensures only == Some(rs[i].withdrawal) {
      if i < |qs| { assert KeptPurchase(qs[i], rs[i]); }
    }
  }

  // ----- Calls to the outside -----

  /** Calls went out, but none for a withdrawal. */
  ghost predicate NoWithdrawal(before: seq<Target>, after: seq<Target>) {
    && |before| <= |after| && after[..|before|] == before
    && forall i :: |before| <= i < |after| ==> !after[i].ForWithdrawal?
  }

  ghost predicate GrantsOnly(before: seq<Target>, after: seq<Target>) {
    after == before || (|after| == |before| + 1 && after[..|before|] == before && after[|before|].ForGrant?)
  }

  /** The last call is this withdrawal's, for its stored transaction id; the others are for no withdrawal. */
  ghost predicate SentLast(before: seq<Target>, after: seq<Target>, books: Books, id: nat) {
    && after != [] && NoWithdrawal(before, after[..|after| - 1])
    && id < |books.withdrawals| && books.withdrawals[id].txid.Some?
    && after[|after| - 1] == ForWithdrawal(id, books.withdrawals[id].txid.value)
  }

  /** What serving one withdrawal may do: change its row, call out for its resources, and last send it once. */
  ghost predicate Served(before: Books, after: Books, sent: seq<Target>, calls: seq<Target>, id: nat) {
    OthersSame(before, after, id) && (NoWithdrawal(sent, calls) || SentLast(sent, calls, after, id))
  }

  lemma ThenServed(before: Books, gated: Books, after: Books, sent: seq<Target>, granted: seq<Target>, calls: seq<Target>, id: nat)
    requires Frame(before, gated, Some(id)) && NoWithdrawal(sent, granted)
    requires Served(gated, after, granted, calls, id)
    ensures Served(before, after, sent, calls, id)
  {
    SameTwice(before.purchases, gated.purchases, after.purchases, Some(id));
    if !NoWithdrawal(granted, calls) {
      NothingThenNothing(sent, granted, calls[..|calls| - 1]);
    } else {
      NothingThenNothing(sent, granted, calls);
    }
  }

  lemma GrantsAreNoWithdrawals(sent: seq<Target>, calls: seq<Target>)
    requires GrantsOnly(sent, calls)
    ensures NoWithdrawal(sent, calls)
  {
  }

  lemma NothingThenNothing(sent: seq<Target>, granted: seq<Target>, calls: seq<Target>)
    requires NoWithdrawal(sent, granted) && NoWithdrawal(granted, calls)
    ensures NoWithdrawal(sent, calls)
  {
    assert calls[..|sent|] == calls[..|granted|][..|sent|];
    forall i | |sent| <= i < |calls| ensures !calls[i].ForWithdrawal? {
      assert i < |granted| ==> calls[..|granted|][i] == calls[i];
    }
  }

  // ----- The gates -----

  /** The confirmed TRX of an address whose balance shows no drift. */
  function AvailableTrx(db: Db, address: string): Option<int> {
    var a := Owner(db.addresses, address);
    if a.None? || (a.value, "TRX") !in db.balances || db.balances[(a.value, "TRX")].drift then None
    else Some(db.balances[(a.value, "TRX")].confirmed)
  }

  /** Burning is allowed, and its cost is within the ceiling and the confirmed TRX of the source. */
  predicate AffordsEnergy(world: World, config: Config, books: Books, id: nat, missing: int, at: nat) {
    && id < |books.withdrawals| && config.fallbackToBurn && world.parameters(at).Fees? && config.maxBurn.Some?
    && var cost := missing * world.parameters(at).energy;
       var available := AvailableTrx(books.db, books.withdrawals[id].from);
       cost <= config.maxBurn.value && available.Some? && cost <= available.value
  }

  /** A booked top-up is not yet in the ledger's balance, so the chain's balance counts then. */
  predicate AffordsBandwidth(world: World, config: Config, books: Books, id: nat, native: bool, source: Option<EnergySource>,
                             g: Option<nat>, at: nat)
    requires id < |books.withdrawals| && (g.Some? ==> g.value < |books.grants|)
  {
    var w, available := books.withdrawals[id], AvailableTrx(books.db, books.withdrawals[id].from);
    var onChain := g.Some? && books.grants[g.value].source.Topup? && books.grants[g.value].fee.Some?;
    && world.parameters(at).Fees? && available.Some?
    && (onChain ==> world.account(at + 1).Some? && world.account(at + 1).value >= 0)
    && (if native then w.amount else 0)
       + (if source == Some(BurnedTrx) then config.minEnergy * world.parameters(at).energy else 0)
       + config.minBandwidth * world.parameters(at).bandwidth
       <= (if onChain then world.account(at + 1).value else available.value)
  }

  /** A rental delivered, or a burn was agreed. */
  predicate Sourced(world: World, config: Config, books: Books, id: nat, missing: int, source: EnergySource, burn: nat) {
    || (source.RentedEnergy? && LatestDelegated(books, id))
    || (source.BurnedTrx? && AffordsEnergy(world, config, books, id, missing, burn))
  }

  /** Energy is there, a burn was agreed before, or a source was found on the way to the tables the gate left. */
  predicate EnergyOpen(world: World, config: Config, before: Books, gated: Books, id: nat, r: Resources, source: EnergySource, burn: nat)
    requires id < |before.withdrawals|
  {
    || r.energy >= config.minEnergy || before.withdrawals[id].energy == Some(BurnedTrx)
    || Sourced(world, config, gated, id, config.minEnergy - r.energy, source, burn)
  }

  predicate BandwidthOpen(world: World, config: Config, books: Books, id: nat, native: bool, source: Option<EnergySource>,
                          r: Resources, at: nat)
    requires id < |books.withdrawals|
  {
    r.bandwidth >= config.minBandwidth
    || AffordsBandwidth(world, config, books, id, native, source, GrantFor(books.grants, id, Bandwidth), at)
  }

  /** Where the gates looked: the reading of the resources, the energy gate's result, and the tables in between. */
  datatype Gates = Gates(read: nat, source: Option<EnergySource>, burn: nat, books: Books, bandwidth: nat)

  /** Both gates of a withdrawal were open. */
  predicate GatesOpen(world: World, config: Config, before: Books, id: nat, g: Gates) {
    && world.resources(g.read).Some? && id < |before.withdrawals| && id < |g.books.withdrawals|
    && before.withdrawals[id].asset in config.natives
    && var r, native := world.resources(g.read).value, config.natives[before.withdrawals[id].asset];
       && (native || (g.source.Some? && EnergyOpen(world, config, before, g.books, id, r, g.source.value, g.burn)))
       && BandwidthOpen(world, config, g.books, id, native, g.source, r, g.bandwidth)
  }

  lemma ThenOpen(world: World, config: Config, before: Books, id: nat, r: Resources, g: Gates, sent: seq<Target>, granted: seq<Target>,
                 calls: seq<Target>)
    requires id < |before.withdrawals| && id < |g.books.withdrawals| && world.resources(g.read) == Some(r)
    requires before.withdrawals[id].asset in config.natives && !config.natives[before.withdrawals[id].asset]
    requires g.source.Some? && EnergyOpen(world, config, before, g.books, id, r, g.source.value, g.burn)
    requires NoWithdrawal(sent, granted)
    requires NoWithdrawal(granted, calls) || BandwidthOpen(world, config, g.books, id, false, g.source, r, g.bandwidth)
    ensures NoWithdrawal(sent, calls) || GatesOpen(world, config, before, id, g)
  {
    if NoWithdrawal(granted, calls) {
      NothingThenNothing(sent, granted, calls);
    }
  }

  // ----- Newer purchases -----

  /** Hypothesis on new rows: ids and clock readings to come are later than the purchases of the withdrawal. */
  ghost predicate NewerIds(world: World, books: Books, withdrawal: nat, from: nat) {
    forall m: nat, n: nat :: from <= m && from <= n ==> Newest(books, world.newId(m), withdrawal, world.clock(n))
  }

  /** Serving one withdrawal leaves the hypothesis about the others. */
  lemma StaysNewer(world: World, before: Books, after: Books, id: nat, other: nat, from: nat, to: nat)
    requires NewerIds(world, before, other, from) && from <= to
    requires SamePurchases(before.purchases, after.purchases, Some(id)) && (other != id || |after.purchases| == |before.purchases|)
    ensures NewerIds(world, after, other, to)
  {
    forall m: nat, n: nat | to <= m && to <= n ensures Newest(after, world.newId(m), other, world.clock(n)) {
      assert Newest(before, world.newId(m), other, world.clock(n));
      forall i | 0 <= i < |after.purchases| && after.purchases[i].withdrawal == other
        ensures Later(Purchase(world.newId(m), other, PurchaseStatus.Quoted, None, world.clock(n)), after.purchases[i])
      {
        assert i < |before.purchases| && KeptPurchase(before.purchases[i], after.purchases[i]);
      }
    }
  }

  lemma StillNewer(world: World, before: Books, after: Books, ids: seq<nat>, n: nat, from: nat, to: nat)
    requires n < |ids| && from <= to && OthersSame(before, after, ids[n])
    requires forall k :: n <= k < |ids| ==> NewerIds(world, before, ids[k], from)
    requires forall j, k :: 0 <= j < k < |ids| ==> ids[j] < ids[k]
    ensures forall k :: n < k < |ids| ==> NewerIds(world, after, ids[k], to)
  {
    forall k | n < k < |ids| ensures NewerIds(world, after, ids[k], to) {
      StaysNewer(world, before, after, ids[n], ids[k], from, to);
    }
  }

  /** What was purchased for the withdrawal before is not purchased any more. */
  ghost predicate PurchasesClosed(before: Books, after: Books, id: nat) {
    && |before.purchases| <= |after.purchases|
    && forall i :: 0 <= i < |before.purchases| && before.purchases[i].withdrawal == id ==> !after.purchases[i].status.Purchased?
  }

  lemma ReconcilingCloses(before: Books, id: nat, visible: bool)
    ensures var closed := ReconcileWithdrawalEnergy(before, id, visible);
            && PurchasesClosed(before, closed, id) && SamePurchases(before.purchases, closed.purchases, Some(id))
            && |closed.purchases| == |before.purchases| && closed == before.(purchases := closed.purchases)
  {
  }

  lemma ThenClosed(before: Books, closed: Books, after: Books, id: nat)
    requires PurchasesClosed(before, closed, id) && SamePurchases(closed.purchases, after.purchases, Some(id))
    ensures PurchasesClosed(before, after, id)
  {
    forall i | 0 <= i < |before.purchases| && before.purchases[i].withdrawal == id ensures !after.purchases[i].status.Purchased? {
      assert KeptPurchase(closed.purchases[i], after.purchases[i]);
    }
  }

  // ----- What the recovery may do -----

  /** Each new call is for an operator's grant that was still only requested. */
  ghost predicate ManualGrants(grants: seq<Grant>, sent: seq<Target>, calls: seq<Target>) {
    && |sent| <= |calls| && calls[..|sent|] == sent
    && forall k :: |sent| <= k < |calls| ==> ManualGrant(grants, calls[k])
  }

  predicate ManualGrant(grants: seq<Grant>, call: Target) {
    call.ForGrant? && call.id < |grants| && grants[call.id].withdrawal.None? && grants[call.id].status.Requested?
  }

  /** A waiting withdrawal that was never signed, and now carries the transaction id it was sent with. */
  predicate SentAnew(before: Books, after: Books, call: Target) {
    call.ForWithdrawal? && AwaitingRow(before, call.id)
    && call.id < |after.withdrawals| && after.withdrawals[call.id].txid == Some(call.txid)
  }

  /**
   Only the listed withdrawals change; a stored transaction id stays; every withdrawal that was sent had been
   waiting, and was sent once.
   */
  ghost predicate Recovered(before: Books, after: Books, sent: seq<Target>, calls: seq<Target>, ids: seq<nat>) {
    && |after.withdrawals| == |before.withdrawals|
    && (forall i :: 0 <= i < |after.withdrawals| && i !in ids ==> after.withdrawals[i] == before.withdrawals[i])
    && (forall i :: 0 <= i < |after.withdrawals| && before.withdrawals[i].txid.Some? ==>
          after.withdrawals[i].txid == before.withdrawals[i].txid)
    && |sent| <= |calls| && calls[..|sent|] == sent
    && (forall k :: |sent| <= k < |calls| && calls[k].ForWithdrawal? ==> calls[k].id in ids && SentAnew(before, after, calls[k]))
    && (forall j, k :: |sent| <= j < k < |calls| && calls[j].ForWithdrawal? && calls[k].ForWithdrawal? ==> calls[j].id != calls[k].id)
  }

  lemma NothingRecovered(before: Books, after: Books, sent: seq<Target>, calls: seq<Target>, ids: seq<nat>)
    requires after.withdrawals == before.withdrawals && NoWithdrawal(sent, calls)
    ensures Recovered(before, after, sent, calls, ids)
  {
  }

  /** A candidate not yet reached is as it was read. */
  lemma NotYet(first: Books, before: Books, sent: seq<Target>, mid: seq<Target>, ids: seq<nat>, n: nat)
    requires n < |ids| && Recovered(first, before, sent, mid, ids[..n])
    requires forall j, k :: 0 <= j < k < |ids| ==> ids[j] < ids[k]
    requires ids[n] < |first.withdrawals|
    ensures ids[n] !in ids[..n] && before.withdrawals[ids[n]] == first.withdrawals[ids[n]]
  {
  }

  lemma OneMoreCandidate(first: Books, before: Books, after: Books, sent: seq<Target>, mid: seq<Target>, calls: seq<Target>,
                         ids: seq<nat>, n: nat)
    requires n < |ids| && Recovered(first, before, sent, mid, ids[..n]) && ids[n] !in ids[..n]
    requires ids[n] < |first.withdrawals| && before.withdrawals[ids[n]] == first.withdrawals[ids[n]]
    requires Served(before, after, mid, calls, ids[n])
    requires !AwaitingRow(before, ids[n]) ==> calls == mid && OnlyRow(before, after, ids[n])
    ensures Recovered(first, after, sent, calls, ids[..n + 1])
  {
    assert ids[..n + 1] == ids[..n] + [ids[n]];
    assert |mid| <= |calls| && calls[..|mid|] == mid;
    assert calls[..|sent|] == mid[..|sent|];
    forall k | |sent| <= k < |calls| && calls[k].ForWithdrawal?
      ensures calls[k].id in ids[..n + 1] && SentAnew(first, after, calls[k]) && (k >= |mid| ==> k == |calls| - 1 && calls[k].id == ids[n])
    {
      if k < |mid| { assert calls[k] == mid[k]; }
    }
    forall j, k | |sent| <= j < k < |calls| && calls[j].ForWithdrawal? && calls[k].ForWithdrawal? ensures calls[j].id != calls[k].id {
      if j < |mid| { assert calls[j] == mid[j] && mid[j].id in ids[..n]; }
      if k < |mid| { assert calls[k] == mid[k]; }
    }
  }

  /** The status a resolution that was no error leads to. */
  predicate SettledAs(world: World, w: Withdrawal, v: Withdrawal, at: nat) {
    var answer, receipt := world.lookup(at + 1), world.receipt(at + 2);
    if answer.Found? then
      v.status == if !receipt.Solid? then WithdrawalStatus.Broadcast
                  else if receipt.success then WithdrawalStatus.Confirmed else WithdrawalStatus.NeedsOperator
    else UnfoundAs(w, v, answer, false, world.clock(at))
  }

  /** What the recovery did with a candidate: one nobody can tell about goes to the operator, a sent one is looked up. */
  ghost predicate Handled(world: World, w: Withdrawal, v: Withdrawal, force: bool, now: int) {
    && (Stuck(w) ==> v.status == WithdrawalStatus.NeedsOperator)
    && (w.txid.Some? ==> if !force && TooSoon(w, now) then v == w else exists at: nat :: SettledAs(world, w, v, at))
  }

  ghost predicate AllHandled(world: World, before: Books, after: Books, ids: seq<nat>, n: nat, force: bool, now: int) {
    forall k :: 0 <= k < n && k < |ids| && ids[k] < |before.withdrawals| && ids[k] < |after.withdrawals| ==>
      Handled(world, before.withdrawals[ids[k]], after.withdrawals[ids[k]], force, now)
  }

  predicate AllUnstuck(after: Books, ids: seq<nat>, n: nat) {
    forall k :: 0 <= k < n && k < |ids| ==> Unstuck(after, ids[k])
  }

  lemma LookedAgainSettles(world: World, before: Books, after: Books, id: nat, force: bool, now: int, at: nat)
    requires id < |before.withdrawals| == |after.withdrawals| && before.withdrawals[id].txid.Some?
    requires LookedAgainAs(world, before, after, id, force, now, at, true)
    ensures Handled(world, before.withdrawals[id], after.withdrawals[id], force, now)
  {
    if force || !TooSoon(before.withdrawals[id], now) {
      assert SettledAs(world, before.withdrawals[id], after.withdrawals[id], at);
    }
  }

  lemma OneMoreHandled(world: World, first: Books, before: Books, after: Books, ids: seq<nat>, n: nat, force: bool, now: int, at: nat, ok: bool)
    requires n < |ids| && (forall j, k :: 0 <= j < k < |ids| ==> ids[j] < ids[k])
    requires |first.withdrawals| == |before.withdrawals| && OthersSame(before, after, ids[n])
    requires before.withdrawals[ids[n]] == first.withdrawals[ids[n]]
    requires AllHandled(world, first, before, ids, n, force, now) && AllUnstuck(before, ids, n)
    requires ok ==> Unstuck(after, ids[n])
    requires var w, v := before.withdrawals[ids[n]], after.withdrawals[ids[n]];
             && (Stuck(w) ==> v.status == WithdrawalStatus.NeedsOperator)
             && (w.txid.Some? ==> LookedAgainAs(world, before, after, ids[n], force, now, at, ok))
    ensures ok ==> AllHandled(world, first, after, ids, n + 1, force, now) && AllUnstuck(after, ids, n + 1)
  {
    if ok && before.withdrawals[ids[n]].txid.Some? {
      LookedAgainSettles(world, before, after, ids[n], force, now, at);
    }
  }

  lemma AllHandledSince(world: World, before: Books, granted: Books, after: Books, ids: seq<nat>, force: bool, now: int, ok: bool)
    requires granted.withdrawals == before.withdrawals
    requires ok ==> AllHandled(world, granted, after, ids, |ids|, force, now)
    ensures ok ==> AllHandled(world, before, after, ids, |ids|, force, now)
  {
  }

  lemma AllOf(first: Books, after: Books, sent: seq<Target>, calls: seq<Target>, ids: seq<nat>, n: nat)
    requires n <= |ids| && Recovered(first, after, sent, calls, ids[..n])
    ensures Recovered(first, after, sent, calls, ids)
  {
  }

  /** The operator's grants come first and touch no withdrawal. */
  lemma GrantsRecovered(world: World, before: Books, after: Books, sent: seq<Target>, calls: seq<Target>, from: nat, to: nat)
    requires Frame(before, after, None) && ManualGrants(before.grants, sent, calls) && from <= to
    requires forall i :: 0 <= i < |before.withdrawals| ==> NewerIds(world, before, i, from)
    ensures after.withdrawals == before.withdrawals && NoWithdrawal(sent, calls)
    ensures forall i :: 0 <= i < |after.withdrawals| ==> NewerIds(world, after, i, to)
  {
    forall i | |sent| <= i < |calls| ensures !calls[i].ForWithdrawal? {
      assert ManualGrant(before.grants, calls[i]);
    }
    forall i | 0 <= i < |after.withdrawals| ensures NewerIds(world, after, i, to) {
      StaysNewer(world, before, after, i, i, from, to);
    }
  }

  lemma NoneStuck(before: Books, after: Books, ids: seq<nat>, force: bool, now: int, timeout: int, ok: bool)
    requires ids == Candidates(before.withdrawals, force, now, timeout) && |after.withdrawals| == |before.withdrawals|
    requires forall i :: 0 <= i < |after.withdrawals| && i !in ids ==> after.withdrawals[i] == before.withdrawals[i]
    requires ok ==> forall k :: 0 <= k < |ids| ==> Unstuck(after, ids[k])
    ensures ok ==> forall i :: 0 <= i < |after.withdrawals| ==> Unstuck(after, i)
  {
    forall i | 0 <= i < |after.withdrawals| && ok ensures Unstuck(after, i) {
      if i !in ids {
        assert !Candidate(before.withdrawals, i, force, now, timeout);
      }
    }
  }

  lemma AfterGrants(before: Books, granted: Books, after: Books, sent: seq<Target>, mid: seq<Target>, calls: seq<Target>, ids: seq<nat>)
    requires granted.withdrawals == before.withdrawals && NoWithdrawal(sent, mid)
    requires Recovered(granted, after, mid, calls, ids)
    ensures Recovered(before, after, sent, calls, ids)
  {
    assert calls[..|sent|] == mid[..|sent|];
    forall k | |sent| <= k < |mid| ensures calls[k] == mid[k] {
    }
    forall k | |sent| <= k < |calls| && calls[k].ForWithdrawal? ensures k >= |mid| && SentAnew(before, after, calls[k]) {
      assert k >= |mid|;
      assert SentAnew(granted, after, calls[k]);
    }
  }

  // ----- What a grant's lookup leads to -----

  predicate Closed(status: GrantStatus) {
    status == GrantStatus.Confirmed || status == GrantStatus.Failed
  }

  /** One more lookup without an answer; the tenth in a row hands the grant and its withdrawal to the operator. */
  predicate UnansweredAs(before: Books, after: Books, id: nat)
    requires id < |before.grants| == |after.grants|
  {
    var g, h := before.grants[id], after.grants[id];
    var tenth := g.failures >= 9;
    && after.db == before.db
    && h == g.(failures := g.failures + 1, status := if tenth && !Closed(g.status) then GrantStatus.NeedsOperator else g.status)
    && (if tenth && g.withdrawal.Some? && g.withdrawal.value < |before.withdrawals| then
          && g.withdrawal.value < |after.withdrawals|
          && (var w := before.withdrawals[g.withdrawal.value];
              after.withdrawals[g.withdrawal.value].status
              == if w.status.Confirmed? || w.status.Failed? then w.status else WithdrawalStatus.NeedsOperator)
        else after.withdrawals == before.withdrawals)
  }

  /** The tables after a lookup of a grant that was answered. */
  function Answered(books: Books, id: nat): Books
    requires id < |books.grants|
  {
    books.(grants := books.grants[id := books.grants[id].(failures := 0)])
  }

  /**
   A solid receipt is booked, or that is an error. A reverted grant then fails, an operator's is confirmed, and a
   withdrawal's waits for its effect until the deadline.
   */
  ghost predicate GrantSolidAs(world: World, config: Config, before: Books, after: Books, id: nat, receipt: Receipt, deadline: int,
                               at: nat, pending: bool, ok: bool)
    requires id < |before.grants| == |after.grants| && receipt.Solid?
  {
    var g, h := before.grants[id], after.grants[id];
    var booked := RecordResourceGrantReceipt(before, id, receipt.fee, receipt.height, receipt.timestamp, config.wallet, world.clock(at));
    var manual, late := g.withdrawal == None, deadline <= world.clock(at + 1);
    && (ok <==> booked.Some?)
    && (!ok ==> !pending && after == before)
    && (ok ==> && after.db == booked.value.db && after.withdrawals == before.withdrawals
               && (pending <==> receipt.success && !manual && !late)
               && h.fee == (if g.fee.Some? then g.fee else Some(receipt.fee)) && h.failures == 0
               && h.status == if pending then g.status else if receipt.success && manual then GrantStatus.Confirmed else GrantStatus.Failed)
  }

  ghost predicate GrantFoundAs(world: World, config: Config, before: Books, after: Books, id: nat, deadline: int, at: nat, pending: bool, ok: bool)
    requires id < |before.grants| == |after.grants|
  {
    match world.receipt(at)
    case NoReceipt => ok && UnansweredAs(before, after, id) && (pending <==> before.grants[id].failures < 9)
    case Unreadable => ok && UnansweredAs(before, after, id) && (pending <==> before.grants[id].failures < 9)
    case Unsolid => ok && pending && after == before
    case Solid(_, _, _, _) => GrantSolidAs(world, config, before, after, id, world.receipt(at), deadline, at + 1, pending, ok)
  }

  /** The outcome of looking up a sent grant that is not settled. */
  ghost predicate SoughtAs(world: World, config: Config, before: Books, after: Books, id: nat, deadline: int, at: nat, pending: bool, ok: bool)
    requires id < |before.grants| == |after.grants|
  {
    var answer := world.lookup(at);
    if answer.Unreachable? || answer.Garbled? then
      ok && UnansweredAs(before, after, id) && (pending <==> before.grants[id].failures < 9)
    else AnsweredAs(world, config, before, after, id, answer, deadline, at + 1, pending, ok)
  }

  /** One that the chain does not have fails once it expired; one that it has goes by its receipt. */
  ghost predicate AnsweredAs(world: World, config: Config, before: Books, after: Books, id: nat, answer: Lookup, deadline: int, at: nat,
                             pending: bool, ok: bool)
    requires id < |before.grants| == |after.grants|
  {
    var g := before.grants[id];
    if answer.Found? then GrantFoundAs(world, config, Answered(before, id), after, id, deadline, at, pending, ok)
    else
      && ok && (pending <==> g.expiresAt == None || world.clock(at) < g.expiresAt.value)
      && after == before.(grants := before.grants[id := g.(failures := 0, status := if pending then g.status else GrantStatus.Failed)])
  }

  /** A requested grant that cannot be prepared fails; a prepared one is sent, unless its attempt was spent. */
  ghost predicate StartedAs(world: World, g: Grant, h: Grant, id: nat, sent: seq<Target>, calls: seq<Target>, at: nat,
                            pending: bool, ok: bool) {
    match world.delegation(at)
    case None => ok && !pending && h == g.(status := GrantStatus.Failed) && calls == sent
    case Some(prepared) =>
      if UnspentGrant(g) then
        ok && calls == sent + [ForGrant(id, prepared.0)] && DelegatedAs(world, g, h, prepared, at + 1, pending)
      else !ok && !pending && h == g && calls == sent
  }

  /** A grant after its one send: broadcast, or failed when it was rejected for good and the chain lacks it. */
  predicate DelegatedAs(world: World, g: Grant, h: Grant, prepared: (string, int), at: nat, pending: bool) {
    && (!pending <==> world.reply(at + 1).Deterministic? && world.lookup(at + 2).Absent?)
    && h == g.(txid := Some(prepared.0), attemptedAt := Some(world.clock(at)), expiresAt := Some(prepared.1),
               status := if pending then GrantStatus.Broadcast else GrantStatus.Failed)
  }

  // ----- What a rental leads to -----

  /** A purchase after its one call: failed when the provider refused it, and otherwise waited for. */
  predicate BoughtAs(p: Purchase, q: Purchase, answer: ProviderState, pending: bool) {
    && (pending <==> answer != Refused)
    && q == p.(order := Some("external"), status := if pending then Purchased else PurchaseStatus.Failed)
  }

  /** A quote is recorded under a new id, or that is an error; it is bought unless it is above the maximum price. */
  ghost predicate RentedAs(world: World, config: Config, before: Books, after: Books, sent: seq<Target>, calls: seq<Target>,
                           withdrawal: nat, trx: real, at: nat, pending: bool, ok: bool) {
    var row := Purchase(world.newId(at), withdrawal, PurchaseStatus.Failed, None, world.clock(at));
    if trx < 0.0 || withdrawal >= |before.withdrawals| || exists p :: p in before.purchases && p.id == row.id then
      !ok && !pending && after == before && calls == sent
    else if trx > config.maxPrice then
      ok && !pending && after == before.(purchases := before.purchases + [row]) && calls == sent
    else
      && ok && |after.purchases| == |before.purchases| + 1
      && after == before.(purchases := before.purchases + [after.purchases[|before.purchases|]])
      && BoughtAs(row, after.purchases[|before.purchases|], world.provider(at + 1), pending)
      && calls == sent + [ForPurchase(|before.purchases|, withdrawal)]
  }

  ghost predicate QuotedAs(world: World, config: Config, before: Books, after: Books, sent: seq<Target>, calls: seq<Target>,
                           withdrawal: nat, at: nat, pending: bool, ok: bool) {
    match world.quote(at)
    case NoQuote => ok && !pending && after == before && calls == sent
    case BadQuote => !ok && !pending && after == before && calls == sent
    case Price(trx) => RentedAs(world, config, before, after, sent, calls, withdrawal, trx, at + 1, pending, ok)
  }

  /** Renting is tried while it is configured and the provider's circuit is closed. */
  ghost predicate NewRentalAs(world: World, config: Config, circuitOpen: bool, before: Books, after: Books, sent: seq<Target>,
                              calls: seq<Target>, withdrawal: nat, at: nat, pending: bool, ok: bool) {
    if config.enabled && config.provider && !circuitOpen then
      QuotedAs(world, config, before, after, sent, calls, withdrawal, at + 1, pending, ok)
    else ok && !pending && after == before && calls == sent
  }

  /** A purchased order is waited for until its time is up or the provider refuses it. */
  predicate StillWaits(world: World, config: Config, p: Purchase, at: nat) {
    && (config.pollTimeout <= 0 || world.clock(at) < p.createdAt + config.pollTimeout)
    && (config.provider ==> world.provider(at + 1) != Refused)
  }

  /** The rental by the latest purchase: delivered, given up, waited for, or tried anew. */
  ghost predicate TriedAs(world: World, config: Config, circuitOpen: bool, before: Books, after: Books, sent: seq<Target>,
                          calls: seq<Target>, withdrawal: nat, at: nat, ready: bool, pending: bool, ok: bool) {
    var latest := EnergyPurchaseForWithdrawal(before.purchases, withdrawal);
    if latest.None? || before.purchases[latest.value].status.Quoted? then
      !ready && NewRentalAs(world, config, circuitOpen, before, after, sent, calls, withdrawal, at, pending, ok)
    else
      var p := before.purchases[latest.value];
      && ok && calls == sent
      && (ready <==> p.status == Delegated)
      && (pending <==> p.status == Purchased && StillWaits(world, config, p, at))
      && (if p.status == Purchased then
            |after.purchases| == |before.purchases|
            && after.purchases[latest.value].status == (if pending then Purchased else PurchaseStatus.Failed)
          else after == before)
  }

  /** Energy has the configured time to arrive, bandwidth five minutes. */
  function EffectDeadline(config: Config, g: Grant): int {
    g.createdAt + if g.resource == Bandwidth || config.pollTimeout <= 0 then 300 else config.pollTimeout
  }

  /** A grant that was never sent or is settled stays as it is; any other is looked up. */
  ghost predicate ReconciledAs(world: World, config: Config, before: Books, after: Books, id: nat, at: nat, pending: bool, ok: bool)
    requires id < |before.grants| == |after.grants|
  {
    var g := before.grants[id];
    if Closed(g.status) || g.txid == None || g.attemptedAt == None then after == before && !pending && ok
    else SoughtAs(world, config, before, after, id, EffectDeadline(config, g), at, pending, ok)
  }

  /** A withdrawal without a grant of a resource gets one, which is started; one it has is started or reconciled. */
  ghost predicate EnsuredAs(world: World, config: Config, before: Books, after: Books, sent: seq<Target>, calls: seq<Target>, id: nat,
                            resource: Resource, source: GrantSource, amount: nat, at: nat, pending: bool, ok: bool)
    requires id < |before.withdrawals|
  {
    match GrantFor(before.grants, id, resource)
    case None =>
      var n := |before.grants|;
      && |after.grants| == n + 1 && after == before.(grants := after.grants)
      && StartedAs(world, Grant(Some(id), before.withdrawals[id].from, resource, source, amount, GrantStatus.Requested,
                                None, None, None, None, 0, world.clock(at)),
                   after.grants[n], n, sent, calls, at + 1, pending, ok)
    case Some(g) =>
      |after.grants| == |before.grants| && AdvancedAs(world, config, before, after, sent, calls, g, at, pending, ok)
  }

  predicate HasClosedGrant(books: Books, id: nat, resource: Resource) {
    var g := GrantFor(books.grants, id, resource);
    g.Some? && Closed(books.grants[g.value].status)
  }

  /** The withdrawal's grant is over, or there is none and no amount for one. */
  predicate NothingToGrant(books: Books, id: nat, resource: Resource, amount: Option<int>) {
    HasClosedGrant(books, id, resource) || (GrantFor(books.grants, id, resource).None? && amount.None?)
  }

  /** There is no grant yet, one can be prepared, and it is not rejected for good. */
  predicate CanGrant(world: World, books: Books, id: nat, resource: Resource, amount: Option<int>, at: nat) {
    && GrantFor(books.grants, id, resource).None? && amount.Some?
    && world.delegation(at + 1).Some? && !(world.reply(at + 3).Deterministic? && world.lookup(at + 4).Absent?)
  }

  /** The call of a grant that is created and sent at once. */
  function NewGrantCall(world: World, books: Books, at: nat): Target {
    ForGrant(|books.grants|, if world.delegation(at + 1).Some? then world.delegation(at + 1).value.0 else "")
  }

  /** Without a grant, and without an amount for one, nothing happens. */
  ghost predicate FundedAs(world: World, config: Config, before: Books, after: Books, sent: seq<Target>, calls: seq<Target>, id: nat,
                           resource: Resource, source: GrantSource, amount: Option<int>, at: nat, pending: bool, ok: bool)
    requires id < |before.withdrawals|
  {
    if GrantFor(before.grants, id, resource).None? && amount.None? then ok && !pending && after == before && calls == sent
    else
      EnsuredAs(world, config, before, after, sent, calls, id, resource, source,
                if amount.Some? && amount.value > 0 then amount.value else 0, at, pending, ok)
  }

  ghost predicate AdvancedAs(world: World, config: Config, before: Books, after: Books, sent: seq<Target>, calls: seq<Target>, g: nat,
                             at: nat, pending: bool, ok: bool)
    requires g < |before.grants| == |after.grants|
  {
    if before.grants[g].status == GrantStatus.Requested then
      after == before.(grants := after.grants) && StartedAs(world, before.grants[g], after.grants[g], g, sent, calls, at, pending, ok)
    else calls == sent && ReconciledAs(world, config, before, after, g, at, pending, ok)
  }

  /** How much TRX to delegate for the missing bandwidth, or to send for it. */
  function BandwidthAmount(config: Config, r: Resources): Option<int> {
    if config.delegatesBandwidth then DelegationAmount(config.minBandwidth - r.bandwidth, r.bandwidthLimit, r.bandwidthWeight)
    else if config.topup == Some(0) then None else config.topup
  }

  /** Bandwidth that is missing: one grant for it while that can still be done, and otherwise the withdrawal fails. */
  predicate ShortAs(world: World, config: Config, before: Books, after: Books, sent: seq<Target>, calls: seq<Target>, id: nat, r: Resources,
                    at: nat, ok: bool)
    requires id < |after.withdrawals|
  {
    var amount := BandwidthAmount(config, r);
    && (CanGrant(world, before, id, Bandwidth, amount, at) ==>
          && ok && calls == sent + [NewGrantCall(world, before, at)]
          && after.withdrawals[id].status == AwaitingResources)
    && (NothingToGrant(before, id, Bandwidth, amount) ==>
          ok && calls == sent && after.withdrawals[id].status == WithdrawalStatus.Failed)
  }

  lemma ThenShort(world: World, config: Config, before: Books, granted: Books, after: Books, sent: seq<Target>, calls: seq<Target>,
                  id: nat, r: Resources, at: nat, pending: bool, ok: bool)
    requires id < |before.withdrawals| && id < |granted.withdrawals| && id < |after.withdrawals|
    requires before.withdrawals[id].status.AwaitingResources? && before.withdrawals[id].txid.None?
    requires FundedAs(world, config, before, granted, sent, calls, id, Bandwidth, if config.delegatesBandwidth then SelfDelegated else Topup,
                      BandwidthAmount(config, r), at, pending, ok)
    requires ok && granted.withdrawals[id] == before.withdrawals[id] ==>
               after.withdrawals[id].status == if pending then AwaitingResources else WithdrawalStatus.Failed
    ensures ShortAs(world, config, before, after, sent, calls, id, r, at, ok)
  {
  }

  lemma ShortAlike(world: World, config: Config, before: Books, waiting: Books, after: Books, sent: seq<Target>, calls: seq<Target>,
                   id: nat, r: Resources, at: nat, ok: bool)
    requires id < |after.withdrawals| && waiting.grants == before.grants
    requires ShortAs(world, config, waiting, after, sent, calls, id, r, at, ok)
    ensures ShortAs(world, config, before, after, sent, calls, id, r, at, ok)
  {
  }

  predicate NoBandwidthUnderWay(books: Books, id: nat) {
    var g := GrantFor(books.grants, id, Bandwidth);
    g.None? || books.grants[g.value].status == GrantStatus.Failed
  }

  /** The bandwidth gate by what the address has: it is there, it can be burned for, or it is granted. */
  ghost predicate BandwidthGateAs(world: World, config: Config, before: Books, after: Books, sent: seq<Target>, calls: seq<Target>, id: nat,
                                  native: bool, status: WithdrawalStatus, source: Option<EnergySource>, r: Resources, at: nat,
                                  go: bool, ok: bool)
    requires id < |before.withdrawals| && id < |after.withdrawals|
  {
    if r.bandwidth >= config.minBandwidth then NoBandwidthUnderWay(before, id) ==> go && ok && after == before
    else if AffordsBandwidth(world, config, before, id, native, source, GrantFor(before.grants, id, Bandwidth), at) then
      go && ok && after == before.(grants := after.grants)
    else !go && (before.withdrawals[id].status == status ==> WaitsForBandwidth(world, config, before, after, sent, calls, id, r, at, ok))
  }

  /** The grant starts two or three calls later, by how often affordability had to ask. */
  ghost predicate WaitsForBandwidth(world: World, config: Config, before: Books, after: Books, sent: seq<Target>, calls: seq<Target>,
                                    id: nat, r: Resources, at: nat, ok: bool)
    requires id < |after.withdrawals|
  {
    exists from: nat :: at + 2 <= from <= at + 3 && ShortAs(world, config, before, after, sent, calls, id, r, from, ok)
  }

  /** Energy that is not rented: delegated while that can still be done, and otherwise burned for when affordable. */
  predicate UnrentedAs(world: World, config: Config, before: Books, sent: seq<Target>, calls: seq<Target>, id: nat, r: Resources,
                       at: nat, source: Option<EnergySource>, ok: bool) {
    var missing := config.minEnergy - r.energy;
    var amount := DelegationAmount(missing, r.energyLimit, r.energyWeight);
    && (CanGrant(world, before, id, Energy, amount, at) ==>
          ok && source.None? && calls == sent + [NewGrantCall(world, before, at)])
    && (NothingToGrant(before, id, Energy, amount) ==>
          calls == sent && source == if AffordsEnergy(world, config, before, id, missing, at) then Some(BurnedTrx) else None)
  }

  /** The last rental failed, or there is none and renting is not configured. */
  predicate NothingToRent(config: Config, books: Books, id: nat) {
    match EnergyPurchaseForWithdrawal(books.purchases, id)
    case None => !config.enabled || !config.provider
    case Some(i) =>
      var status := books.purchases[i].status;
      status == PurchaseStatus.Failed || status == PurchaseStatus.Expired || (status == PurchaseStatus.Quoted && (!config.enabled || !config.provider))
  }

  /** Nothing was bought yet, the provider is asked, and its price, the new id and its first word are acceptable. */
  predicate CanRent(world: World, config: Config, circuitOpen: bool, books: Books, id: nat, at: nat) {
    var latest := EnergyPurchaseForWithdrawal(books.purchases, id);
    && (latest.None? || books.purchases[latest.value].status == PurchaseStatus.Quoted)
    && config.enabled && config.provider && !circuitOpen && id < |books.withdrawals|
    && world.quote(at + 1).Price? && 0.0 <= world.quote(at + 1).trx <= config.maxPrice
    && (forall p :: p in books.purchases ==> p.id != world.newId(at + 2))
    && world.provider(at + 3) != Refused
  }

  /** Energy that is missing: the rental that delivered, one purchase call for a new one, or what the next tiers do. */
  predicate SourcedAs(world: World, config: Config, circuitOpen: bool, before: Books, sent: seq<Target>, calls: seq<Target>, id: nat,
                      r: Resources, at: nat, source: Option<EnergySource>, ok: bool) {
    && (LatestDelegated(before, id) ==> ok && source == Some(RentedEnergy) && calls == sent)
    && (CanRent(world, config, circuitOpen, before, id, at) ==>
          ok && source.None? && calls == sent + [ForPurchase(|before.purchases|, id)])
    && (NothingToRent(config, before, id) ==> UnrentedAs(world, config, before, sent, calls, id, r, at, source, ok))
  }

  /** Only the tables a source depends on matter. */
  lemma SourcedAlike(world: World, config: Config, circuitOpen: bool, before: Books, waiting: Books, sent: seq<Target>, calls: seq<Target>,
                     id: nat, r: Resources, at: nat, source: Option<EnergySource>, ok: bool)
    requires id < |before.withdrawals| == |waiting.withdrawals| && waiting == before.(withdrawals := waiting.withdrawals)
    requires waiting.withdrawals[id].from == before.withdrawals[id].from
    ensures SourcedAs(world, config, circuitOpen, waiting, sent, calls, id, r, at, source, ok)
            ==> SourcedAs(world, config, circuitOpen, before, sent, calls, id, r, at, source, ok)
  {
  }

  /** A purchased order whose energy arrived is over once the provider says so, or once its time is up. */
  predicate RentalIsOver(world: World, config: Config, p: Purchase, at: nat) {
    || !config.provider || world.provider(at) == Succeeded
    || (config.pollTimeout > 0 && p.createdAt + config.pollTimeout <= world.clock(at))
  }

  /** No purchase waits for its order, and no grant brought or may still bring energy. */
  predicate NoEnergyUnderWay(books: Books, id: nat) {
    var latest, g := EnergyPurchaseForWithdrawal(books.purchases, id), GrantFor(books.grants, id, Energy);
    && (latest.None? || books.purchases[latest.value].status != Purchased)
    && (g.None? || books.grants[g.value].status == GrantStatus.Failed)
  }

  /** The source decided on before; a delivered rental wins. */
  function DecidedSource(books: Books, id: nat): Option<EnergySource>
    requires id < |books.withdrawals|
  {
    if LatestDelegated(books, id) then Some(RentedEnergy) else books.withdrawals[id].energy
  }

  /**
   The energy gate by what the address has. Energy that is there opens it, after a rental's order is over; a burn that
   was decided on stands; and energy that is missing is sought.
   */
  predicate EnergyGateAs(world: World, config: Config, until: Option<int>, before: Books, after: Books, sent: seq<Target>, calls: seq<Target>,
                         id: nat, r: Resources, at: nat, source: Option<EnergySource>, status: WithdrawalStatus, ok: bool)
    requires id < |before.withdrawals|
  {
    var latest := EnergyPurchaseForWithdrawal(before.purchases, id);
    if r.energy >= config.minEnergy && latest.Some? && before.purchases[latest.value].status == Purchased then
      && ok && status == before.withdrawals[id].status && calls == sent
      && source == if RentalIsOver(world, config, before.purchases[latest.value], at) then Some(RentedEnergy) else None
    else FoundEnergyAs(world, config, until, before, after, sent, calls, id, r, DecidedSource(before, id), at, source, status, ok)
  }

  predicate FoundEnergyAs(world: World, config: Config, until: Option<int>, before: Books, after: Books, sent: seq<Target>, calls: seq<Target>,
                          id: nat, r: Resources, decided: Option<EnergySource>, at: nat, source: Option<EnergySource>, status: WithdrawalStatus,
                          ok: bool)
    requires id < |before.withdrawals|
  {
    var w := before.withdrawals[id];
    if r.energy >= config.minEnergy then
      && status == w.status && calls == sent
      && (NoEnergyUnderWay(before, id) ==> ok && after == before && source == if decided.None? then Some(OwnEnergy) else decided)
    else if decided == Some(BurnedTrx) then status == w.status && ok && source == decided && after == before && calls == sent
    else
      var from := at + if w.status.AwaitingEnergy? then 0 else 1;
      && status == AwaitingEnergy
      && SourcedAs(world, config, CircuitHolds(until, world.clock(from)), before, sent, calls, id, r, from, source, ok)
  }

  /** A delegation that is possible is called out for; without one the next tier follows at once. */
  predicate DelegationTierAs(world: World, config: Config, before: Books, after: Books, sent: seq<Target>, calls: seq<Target>, id: nat,
                             r: Resources, at: nat, from: nat, next: bool, ok: bool) {
    var amount := DelegationAmount(config.minEnergy - r.energy, r.energyLimit, r.energyWeight);
    && (NothingToGrant(before, id, Energy, amount) ==> next && after == before && from == at && calls == sent)
    && (CanGrant(world, before, id, Energy, amount, at) ==> ok && !next && calls == sent + [NewGrantCall(world, before, at)])
  }

  lemma FundedIsTier(world: World, config: Config, before: Books, after: Books, sent: seq<Target>, calls: seq<Target>, id: nat, r: Resources,
                     at: nat, from: nat, pending: bool, ok: bool)
    requires id < |before.withdrawals|
    ensures var amount := DelegationAmount(config.minEnergy - r.energy, r.energyLimit, r.energyWeight);
            && FundedAs(world, config, before, after, sent, calls, id, Energy, SelfDelegated, amount, at, pending, ok)
            && (NothingToGrant(before, id, Energy, amount) ==> from == at)
            ==> DelegationTierAs(world, config, before, after, sent, calls, id, r, at, from, ok && !pending, ok)
  {
  }

  lemma ThenUnrented(world: World, config: Config, before: Books, delegated: Books, sent: seq<Target>, calls: seq<Target>, id: nat,
                     r: Resources, at: nat, from: nat, source: Option<EnergySource>, ok: bool)
    ensures && DelegationTierAs(world, config, before, delegated, sent, calls, id, r, at, from, true, true)
            && source == (if AffordsEnergy(world, config, delegated, id, config.minEnergy - r.energy, from) then Some(BurnedTrx) else None)
            ==> UnrentedAs(world, config, before, sent, calls, id, r, at, source, ok)
  {
  }

  // ----- What makes a withdrawal leave -----

  /** The node gives a reference block and the wallet signs. */
  ghost predicate CanSign(world: World, id: nat, from: nat) {
    forall n: nat :: from <= n ==> world.reference(n).Some? && world.sign(n, id).Some?
  }

  /** One call went out: this withdrawal, under the transaction id on record. */
  predicate Left(sent: seq<Target>, calls: seq<Target>, books: Books, id: nat) {
    && id < |books.withdrawals| && books.withdrawals[id].txid.Some?
    && calls == sent + [ForWithdrawal(id, books.withdrawals[id].txid.value)]
  }

  /** Energy is there with nothing under way, or a burn was decided on. */
  predicate HasEnergy(config: Config, books: Books, id: nat, r: Resources)
    requires id < |books.withdrawals|
  {
    if r.energy >= config.minEnergy then NoEnergyUnderWay(books, id) else DecidedSource(books, id) == Some(BurnedTrx)
  }

  /** Nothing stands between a withdrawal and its send. */
  ghost predicate Supplied(world: World, config: Config, books: Books, id: nat, r: Resources, at: nat)
    requires id < |books.withdrawals|
  {
    var w := books.withdrawals[id];
    && Unspent(w) && CanSign(world, id, at) && w.asset in config.natives
    && (if config.natives[w.asset] then HasBandwidth(world, config, books, id, true, w.energy, r, at)
        else
          && HasEnergy(config, books, id, r)
          && HasBandwidth(world, config, books, id, false, Some(DecidedSource(books, id).GetOr(OwnEnergy)), r, at))
  }

  /** A supplied withdrawal leaves, and one of an asset that is not configured goes to the operator. */
  ghost predicate AcquiredAs(world: World, config: Config, before: Books, after: Books, sent: seq<Target>, calls: seq<Target>, id: nat,
                             r: Resources, at: nat)
    requires id < |before.withdrawals| == |after.withdrawals|
  {
    && (Supplied(world, config, before, id, r, at) ==> Left(sent, calls, after, id))
    && (before.withdrawals[id].asset !in config.natives ==> calls == sent && after.withdrawals[id].status == WithdrawalStatus.NeedsOperator)
  }

  ghost predicate ReadAs(world: World, config: Config, before: Books, after: Books, sent: seq<Target>, calls: seq<Target>, id: nat, at: nat,
                         ok: bool)
    requires id < |before.withdrawals| == |after.withdrawals|
  {
    match world.resources(at)
    case None => !ok && after == before && calls == sent
    case Some(r) => AcquiredAs(world, config, before, after, sent, calls, id, r, at + 1)
  }

  /** The energy of a waiting withdrawal was ordered and is polled for. */
  predicate WaitsForOrder(books: Books, id: nat)
    requires id < |books.withdrawals|
  {
    var latest := EnergyPurchaseForWithdrawal(books.purchases, id);
    books.withdrawals[id].status == AwaitingEnergy && latest.Some? && books.purchases[latest.value].status == Purchased
  }

  predicate HasBandwidth(world: World, config: Config, books: Books, id: nat, native: bool, source: Option<EnergySource>, r: Resources, at: nat)
    requires id < |books.withdrawals|
  {
    if r.bandwidth >= config.minBandwidth then NoBandwidthUnderWay(books, id)
    else AffordsBandwidth(world, config, books, id, native, source, GrantFor(books.grants, id, Bandwidth), at)
  }

  /** An operator's requested grant after the recovery: failed when it cannot be prepared, and otherwise sent. */
  predicate StartedRow(world: World, g: Grant, h: Grant, at: nat) {
    match world.delegation(at)
    case None => h == g.(status := GrantStatus.Failed)
    case Some(prepared) => h.txid == Some(prepared.0) && h.attemptedAt.Some? && h.status in {GrantStatus.Broadcast, GrantStatus.Failed}
  }

  /** An operator's sent grant after the recovery: settled by a solid receipt or its expiry, else still open. */
  predicate LookedUpRow(world: World, g: Grant, h: Grant, at: nat) {
    var lost := if g.failures >= 9 then GrantStatus.NeedsOperator else g.status;
    match world.lookup(at)
    case Absent => h.status == if g.expiresAt.Some? && g.expiresAt.value <= world.clock(at + 1) then GrantStatus.Failed else g.status
    case Found =>
      (match world.receipt(at + 1)
       case Solid(_, _, _, success) => h.status == if success then GrantStatus.Confirmed else GrantStatus.Failed
       case _ => h.status == g.status)
    case _ => h.status == lost
  }

  ghost predicate GrantRecovered(world: World, g: Grant, h: Grant) {
    if g.withdrawal.Some? then h == g
    else if g.status == GrantStatus.Requested then exists at: nat :: StartedRow(world, g, h, at)
    else if (g.status == Attempted || g.status == GrantStatus.Broadcast) && g.txid.Some? && g.attemptedAt.Some? then
      exists at: nat :: LookedUpRow(world, g, h, at)
    else h == g
  }

  /** An operator's grant that was never sent, where every grant can be prepared. */
  ghost predicate Startable(world: World, g: Grant) {
    g.withdrawal.None? && UnspentGrant(g) && forall n: nat :: world.delegation(n).Some?
  }

  predicate CalledFor(id: nat, sent: seq<Target>, calls: seq<Target>) {
    exists j :: |sent| <= j < |calls| && calls[j].ForGrant? && calls[j].id == id
  }

  ghost predicate AllCalled(world: World, grants: seq<Grant>, n: nat, sent: seq<Target>, calls: seq<Target>) {
    forall k :: 0 <= k < n && k < |grants| && Startable(world, grants[k]) ==> CalledFor(k, sent, calls)
  }

  lemma OneMoreCalled(world: World, grants: seq<Grant>, n: nat, sent: seq<Target>, mid: seq<Target>, calls: seq<Target>)
    requires n < |grants| && AllCalled(world, grants, n, sent, mid) && |sent| <= |mid| <= |calls| && calls[..|mid|] == mid
    requires Startable(world, grants[n]) ==> |mid| < |calls| && calls[|mid|].ForGrant? && calls[|mid|].id == n
    requires ManualGrants(grants, sent, mid)
    requires calls == mid || (|calls| == |mid| + 1 && ManualGrant(grants, calls[|mid|]))
    ensures AllCalled(world, grants, n + 1, sent, calls)
    ensures ManualGrants(grants, sent, calls)
  {
    forall k | |sent| <= k < |calls| ensures ManualGrant(grants, calls[k]) {
      if k < |mid| { assert calls[k] == mid[k]; }
    }
    forall k | 0 <= k < n + 1 && Startable(world, grants[k]) ensures CalledFor(k, sent, calls) {
      if k < n {
        var j :| |sent| <= j < |mid| && mid[j].ForGrant? && mid[j].id == k;
        assert calls[j] == mid[j];
      }
    }
  }

  lemma StillCalled(world: World, grants: seq<Grant>, sent: seq<Target>, mid: seq<Target>, calls: seq<Target>)
    requires AllCalled(world, grants, |grants|, sent, mid) && |sent| <= |mid| <= |calls| && calls[..|mid|] == mid
    ensures AllCalled(world, grants, |grants|, sent, calls)
  {
    forall k | 0 <= k < |grants| && Startable(world, grants[k]) ensures CalledFor(k, sent, calls) {
      var j :| |sent| <= j < |mid| && mid[j].ForGrant? && mid[j].id == k;
      assert calls[j] == mid[j];
    }
  }

  ghost predicate GrantsUpTo(world: World, before: seq<Grant>, after: seq<Grant>, n: nat) {
    |after| == |before| && forall k :: 0 <= k < n && k < |before| ==> GrantRecovered(world, before[k], after[k])
  }

  lemma OneMoreGrant(world: World, first: seq<Grant>, before: seq<Grant>, after: seq<Grant>, n: nat, ok: bool)
    requires n < |first| == |before| && GrantsUpTo(world, first, before, n) && before[n..] == first[n..]
    requires KeepsGrants(before, after, n) && (ok ==> GrantRecovered(world, before[n], after[n]))
    ensures ok ==> GrantsUpTo(world, first, after, n + 1)
    ensures before[n] == first[n] && after[n + 1..] == first[n + 1..]
  {
    assert before[n] == before[n..][0] && first[n] == first[n..][0];
    assert before[n + 1..] == before[n..][1..] && first[n + 1..] == first[n..][1..];
    assert after[n + 1..] == before[n + 1..];
  }

  lemma ReconciledRow(world: World, config: Config, before: Books, after: Books, id: nat, at: nat, pending: bool)
    requires id < |before.grants| == |after.grants| && before.grants[id].withdrawal.None?
    requires ReconciledAs(world, config, before, after, id, at, pending, true)
    requires before.grants[id].status.Attempted? || before.grants[id].status.Broadcast?
    ensures GrantRecovered(world, before.grants[id], after.grants[id])
  {
    var g, h := before.grants[id], after.grants[id];
    if g.txid.Some? && g.attemptedAt.Some? {
      assert LookedUpRow(world, g, h, at);
    }
  }

  // ----- What a send leads to -----

  predicate Unspent(w: Withdrawal) {
    w.txid == None && w.attemptedAt == None
  }

  /**
   A withdrawal after its one send: the attempt is on record, and it is broadcast unless the node rejected it for
   good, which one lookup then settles.
   */
  predicate SentAs(world: World, addresses: nat, w: Withdrawal, v: Withdrawal, txid: string, expiresAt: int, at: nat) {
    && v.txid == Some(txid) && v.attemptedAt == Some(world.clock(at)) && v.expiresAt == Some(expiresAt)
    && (if world.reply(at + 1).Deterministic? then RejectedAs(world, w.addressId < addresses, v.status, at + 3) else v.status.Broadcast?)
  }

  /** A rejected transaction is failed when the chain lacks it; otherwise the chain or the operator decides. */
  predicate RejectedAs(world: World, known: bool, status: WithdrawalStatus, at: nat) {
    match world.lookup(at)
    case Absent => status.Failed?
    case Unreachable => status.NeedsOperator?
    case Garbled => status.Broadcast?
    case Found =>
      var receipt := world.receipt(at + 1);
      if !receipt.Solid? then status.Broadcast?
      else if !receipt.success then status.NeedsOperator?
      else if known then status.Confirmed? else status.Broadcast?
  }

  lemma ResolvedIsRejected(world: World, before: Books, after: Books, id: nat, at: nat, ok: bool)
    requires id < |before.withdrawals| == |after.withdrawals|
    requires before.withdrawals[id].txid.Some? && before.withdrawals[id].status.Broadcast? && before.withdrawals[id].failures == 0
    ensures ResolvedAs(world, before, after, id, true, at, ok) ==>
              RejectedAs(world, before.withdrawals[id].addressId < |before.db.addresses|, after.withdrawals[id].status, at + 1)
  {
  }

  // ----- What a lookup leads to -----

  /** The network's fee of a transaction, debited once at the sending address, whose balance follows. */
  ghost predicate FeeBooked(db: Db, after: Db, txid: string, a: nat, fee: int, height: int, timestamp: int, now: int) {
    if fee <= 0 then after == db
    else
      && after == db.(payments := after.payments, balances := after.balances)
      && (if exists i :: 0 <= i < |db.payments| && db.payments[i].key == PaymentKey(txid, -1) then after.payments == db.payments
          else after.payments == db.payments + [Payment(
            PaymentKey(txid, -1), Out, height, "", timestamp, AddressAt(db, a), "network_fee", Some(a), None, "TRX", fee,
            false, PaymentStatus.Confirmed, now, Some(now), None)])
      && after.balances.Keys == db.balances.Keys + {(a, "TRX")}
      && (forall k :: k in db.balances && k != (a, "TRX") ==> after.balances[k] == db.balances[k])
      && after.balances[(a, "TRX")] == Balance(ConfirmedTotal(after, (a, "TRX")), PendingTotal(after, (a, "TRX")),
                                               BalanceAt(db, (a, "TRX")).drift)
  }

  lemma FeeIsRecorded(db: Db, txid: string, a: nat, fee: nat, height: int, timestamp: int, now: int)
    requires a < |db.addresses|
    ensures RecordFee(db, txid, height, timestamp, a, fee, now).Some?
    ensures FeeBooked(db, RecordFee(db, txid, height, timestamp, a, fee, now).value, txid, a, fee, height, timestamp, now)
  {
    assert FindPayment(db.payments, PaymentKey(txid, -1)) < |db.payments| <==>
             exists i :: 0 <= i < |db.payments| && db.payments[i].key == PaymentKey(txid, -1);
  }

  /** Confirming succeeds exactly while the source address is known, and books the fee. */
  lemma FeeIsBooked(books: Books, id: nat, fee: int, height: int, timestamp: int, now: int)
    requires id < |books.withdrawals| && books.withdrawals[id].txid.Some? && !books.withdrawals[id].status.Confirmed?
    ensures var w, r := books.withdrawals[id], ConfirmWithdrawal(books, id, fee, height, timestamp, now);
            && (r.Some? <==> w.addressId < |books.db.addresses|)
            && (r.Some? ==> FeeBooked(books.db, r.value.db, w.txid.value, w.addressId, fee, height, timestamp, now)
                            && r.value.withdrawals[id].status.Confirmed?)
  {
    var w := books.withdrawals[id];
    if w.addressId < |books.db.addresses| {
      FeeIsRecorded(books.db, w.txid.value, w.addressId, if fee > 0 then fee else 0, height, timestamp, now);
    }
  }

  /**
   Where a withdrawal goes whose transaction the lookup did not find. An absence ends it once it is final; the tenth
   lookup in a row without an answer hands it to the operator.
   */
  predicate UnfoundAs(w: Withdrawal, v: Withdrawal, answer: Lookup, deterministic: bool, now: int) {
    if answer.Absent? then
      var final := deterministic || (w.expiresAt.Some? && w.expiresAt.value <= now);
      && v.status == (if final then WithdrawalStatus.Failed else w.status)
      && v.failures == (if final then w.failures else 0)
    else
      var rejected := answer.Unreachable? && deterministic;
      var closed := w.status.Failed? || w.status.NeedsOperator?;
      && v.status == (if !closed && (rejected || w.failures >= 9) then WithdrawalStatus.NeedsOperator else w.status)
      && v.failures == (if rejected then w.failures else w.failures + 1)
  }

  /** Where it goes once the transaction was found: a refused confirmation is an error that changes nothing. */
  ghost predicate FoundAs(before: Books, after: Books, id: nat, receipt: Receipt, now: int, ok: bool)
    requires id < |before.withdrawals| == |after.withdrawals| && before.withdrawals[id].txid.Some?
  {
    var w, status := before.withdrawals[id], after.withdrawals[id].status;
    if receipt.Solid? && receipt.success then
      && (ok <==> w.addressId < |before.db.addresses|)
      && (ok ==> status.Confirmed?
                 && FeeBooked(before.db, after.db, w.txid.value, w.addressId, receipt.fee, receipt.height, receipt.timestamp, now))
      && (!ok ==> status.Broadcast? && after.db == before.db)
    else
      && after.db == before.db && (ok <==> !receipt.Unreadable?)
      && status == if receipt.Solid? then WithdrawalStatus.NeedsOperator else WithdrawalStatus.Broadcast
  }

  /** The whole outcome of a resolution, from the clock, the lookup and the receipt. */
  ghost predicate ResolvedAs(world: World, before: Books, after: Books, id: nat, deterministic: bool, at: nat, ok: bool)
    requires id < |before.withdrawals| == |after.withdrawals| && before.withdrawals[id].txid.Some?
  {
    var now, answer := world.clock(at), world.lookup(at + 1);
    if answer.Found? then FoundAs(before, after, id, world.receipt(at + 2), now, ok)
    else ok && after.db == before.db && UnfoundAs(before.withdrawals[id], after.withdrawals[id], answer, deterministic, now)
  }


  /** A lookup of a sent withdrawal is put off for a minute after its send and for 15 seconds after the last one. */
  predicate TooSoon(w: Withdrawal, now: int) {
    || (w.status == WithdrawalStatus.Signing && w.attemptedAt.Some? && now < w.attemptedAt.value + 60)
    || (w.lookupAt.Some? && now < w.lookupAt.value + 15)
  }

  ghost predicate LookedAgainAs(world: World, before: Books, after: Books, id: nat, force: bool, now: int, at: nat, ok: bool)
    requires id < |before.withdrawals| == |after.withdrawals| && before.withdrawals[id].txid.Some?
  {
    if !force && TooSoon(before.withdrawals[id], now) then ok && after == before
    else ResolvedAs(world, before, after, id, false, at, ok)
  }

  /** The chain does not have the transaction and will not take it: it was rejected for good, or it expired. */
  predicate Gone(answer: Lookup, deterministic: bool, w: Withdrawal, now: int) {
    answer.Absent? && (deterministic || PastExpiry(w, now))
  }

  predicate PastExpiry(w: Withdrawal, now: int) {
    w.expiresAt.Some? && now >= w.expiresAt.value
  }
}
