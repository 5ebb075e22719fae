/** Requests handled one after another, each request's balance update
    followed directly by its ledger insert. The row lock of
    `update_wallet_balance` is released at its commit, before the insert, so
    these replays cover the runs in which no other request's queries fall
    between one request's update and its insert. */
module Sessions {
  import opened Models
  import opened Queries
  import opened TransactionHandler

  /** One authenticated request to `/transaction`, with what the storage
      layer does while handling it. */
  datatype Request = Request(playerId: Uuid, amount: Decimal, reason: string, env: Environment)

  /** The store after a run of requests and the outcome of each request. */
  datatype Trace = Trace(store: Store, outcomes: seq<Outcome>)

  /** Handle the requests in order, each starting from the store the previous
      one left. */
  function Replay(s: Store, rs: seq<Request>): (t: Trace)
    ensures |t.outcomes| == |rs|
    ensures |rs| > 0 ==>
      t.outcomes[0] == HandleTransaction(s, rs[0].playerId, rs[0].amount, rs[0].reason, rs[0].env).outcome
    decreases |rs|
  {
    if |rs| == 0 then Trace(s, [])
    else
      var h := HandleTransaction(s, rs[0].playerId, rs[0].amount, rs[0].reason, rs[0].env);
      var rest := Replay(h.store, rs[1..]);
      Trace(rest.store, [h.outcome] + rest.outcomes)
  }

  /** Did the request's balance update commit? */
  predicate Moved(o: Outcome)
  {
    o.Completed? || o.CompletedUnlogged?
  }

  /** The total of the amounts of the requests for player `p` whose outcome
      satisfies `counted`. */
  function DeltaWhere(p: Uuid, rs: seq<Request>, os: seq<Outcome>, counted: Outcome -> bool): Decimal
    requires |rs| == |os|
    decreases |rs|
  {
    if |rs| == 0 then 0.0
    else
      (if rs[0].playerId == p && counted(os[0]) then rs[0].amount else 0.0)
      + DeltaWhere(p, rs[1..], os[1..], counted)
  }

  /** The total the requests for `p` actually moved. */
  function AcceptedDelta(p: Uuid, rs: seq<Request>, os: seq<Outcome>): Decimal
    requires |rs| == |os|
  {
    DeltaWhere(p, rs, os, Moved)
  }

  /** The total the requests for `p` moved without leaving a ledger row. */
  function UnloggedDelta(p: Uuid, rs: seq<Request>, os: seq<Outcome>): Decimal
    requires |rs| == |os|
  {
    DeltaWhere(p, rs, os, (o: Outcome) => o.CompletedUnlogged?)
  }

  /** What the ledger says player `p`'s balance moved by: the total of the
      amounts of `p`'s successful rows. */
  function LedgerSum(p: Uuid, txs: seq<Transaction>): Decimal
    decreases |txs|
  {
    if |txs| == 0 then 0.0
    else
      var t := txs[|txs| - 1];
      LedgerSum(p, txs[..|txs| - 1]) + (if t.playerId == p && t.success then t.amount else 0.0)
  }

  /** How many of the requests manage to insert their ledger row. */
  function LoggedCount(rs: seq<Request>): nat
    decreases |rs|
  {
    if |rs| == 0 then 0 else (if rs[0].env.logFails then 0 else 1) + LoggedCount(rs[1..])
  }

  /** The rows a run of requests with outcomes `os` logs, in order: one
      `LoggedAs` row per request whose insert does not fail, recording whether
      its update committed. */
  predicate RowsFor(rows: seq<Transaction>, rs: seq<Request>, os: seq<Outcome>)
    requires |rs| == |os|
    decreases |rs|
  {
    if |rs| == 0 then rows == []
    else if rs[0].env.logFails then RowsFor(rows, rs[1..], os[1..])
    else
      && |rows| > 0
      && LoggedAs(rows[0], rs[0].playerId, rs[0].amount, rs[0].reason, rs[0].env.stamp, Moved(os[0]))
      && RowsFor(rows[1..], rs[1..], os[1..])
  }

  /** The total of the requested amounts. */
  function Total(rs: seq<Request>): Decimal
    decreases |rs|
  {
    if |rs| == 0 then 0.0 else rs[0].amount + Total(rs[1..])
  }

  /** Starting from balance `b`, no running total of the requested amounts
      goes below zero. */
  predicate StaysSolvent(b: Decimal, rs: seq<Request>)
    decreases |rs|
  {
    |rs| == 0 || (b + rs[0].amount >= 0.0 && StaysSolvent(b + rs[0].amount, rs[1..]))
  }

  // ---------------------------------------------------------------------------

  /** Appending a row adds its amount to the ledger sum of its player, if it succeeded. */
  lemma LedgerSumAppend(p: Uuid, txs: seq<Transaction>, t: Transaction)
    ensures LedgerSum(p, txs + [t])
         == LedgerSum(p, txs) + (if t.playerId == p && t.success then t.amount else 0.0)
  {
  }

  /** However the requests and storage failures fall, no balance ever goes
      negative, every ledger row stays well formed, and no row is ever
      changed or removed. */
  lemma {:induction false} ReplayPreservesInvariants(s: Store, rs: seq<Request>)
    requires NonNegative(s) && LedgerWellFormed(s)
    ensures var t := Replay(s, rs);
      && NonNegative(t.store)
      && LedgerWellFormed(t.store)
      && s.transactions <= t.store.transactions
    decreases |rs|
  {
    if |rs| > 0 {
      var h := HandleTransaction(s, rs[0].playerId, rs[0].amount, rs[0].reason, rs[0].env);
      HandlePreservesInvariants(s, rs[0].playerId, rs[0].amount, rs[0].reason, rs[0].env);
      ReplayPreservesInvariants(h.store, rs[1..]);
    }
  }

  /** Exactly one ledger row is added per request whose insert does not fail,
      whether or not its balance update committed: the new rows are those
      requests' `LoggedAs` rows in request order, after the untouched earlier
      rows. The set of wallets never changes. */
  lemma {:induction false} ReplayLogsEveryAttempt(s: Store, rs: seq<Request>)
    ensures var t := Replay(s, rs);
      && |t.store.transactions| == |s.transactions| + LoggedCount(rs)
      && s.transactions <= t.store.transactions
      && RowsFor(t.store.transactions[|s.transactions|..], rs, t.outcomes)
      && t.store.wallets.Keys == s.wallets.Keys
    decreases |rs|
  {
    if |rs| > 0 {
      var h := HandleTransaction(s, rs[0].playerId, rs[0].amount, rs[0].reason, rs[0].env);
      var t := Replay(s, rs);
      var rest := Replay(h.store, rs[1..]);
      ReplayLogsEveryAttempt(h.store, rs[1..]);
      var added := t.store.transactions[|s.transactions|..];
      if !rs[0].env.logFails {
        assert added[0] == h.store.transactions[|s.transactions|];
        assert added[1..] == rest.store.transactions[|h.store.transactions|..];
      } else {
        assert added == rest.store.transactions[|h.store.transactions|..];
      }
    }
  }

  /** A player's final balance is the initial one plus exactly the amounts of
      that player's requests whose update committed. */
  lemma {:induction false} BalanceTracksAccepted(s: Store, rs: seq<Request>, p: Uuid)
    requires p in s.wallets
    ensures var t := Replay(s, rs);
      p in t.store.wallets && t.store.wallets[p] == s.wallets[p] + AcceptedDelta(p, rs, t.outcomes)
    decreases |rs|
  {
    if |rs| > 0 {
      var h := HandleTransaction(s, rs[0].playerId, rs[0].amount, rs[0].reason, rs[0].env);
      BalanceTracksAccepted(h.store, rs[1..], p);
    }
  }

  /** The ledger records every committed amount except those whose row could
      not be inserted. */
  lemma {:induction false} LedgerMissesOnlyUnlogged(s: Store, rs: seq<Request>, p: Uuid)
    ensures var t := Replay(s, rs);
      LedgerSum(p, t.store.transactions)
        == LedgerSum(p, s.transactions) + AcceptedDelta(p, rs, t.outcomes) - UnloggedDelta(p, rs, t.outcomes)
    decreases |rs|
  {
    if |rs| > 0 {
      var r := rs[0];
      var h := HandleTransaction(s, r.playerId, r.amount, r.reason, r.env);
      LedgerMissesOnlyUnlogged(h.store, rs[1..], p);
      if !r.env.logFails {
        LedgerSumAppend(p, s.transactions, h.store.transactions[|s.transactions|]);
        assert h.store.transactions == s.transactions + [h.store.transactions[|s.transactions|]];
      }
    }
  }

  /** Balances and ledger never silently diverge: a player's balance has moved
      by what the ledger records for them plus what was reported to the caller
      as completed but not logged. With no such report, they agree exactly. */
  lemma Reconciles(s: Store, rs: seq<Request>, p: Uuid)
    requires p in s.wallets
    ensures var t := Replay(s, rs);
      && p in t.store.wallets
      && t.store.wallets[p] - s.wallets[p]
           == (LedgerSum(p, t.store.transactions) - LedgerSum(p, s.transactions))
              + UnloggedDelta(p, rs, t.outcomes)
  {
    BalanceTracksAccepted(s, rs, p);
    LedgerMissesOnlyUnlogged(s, rs, p);
  }

  /** Requests on one wallet whose running totals never go below zero all
      complete when storage does not fail, and the final balance is the
      initial one plus their total. */
  lemma {:induction false} SolventRequestsAllComplete(s: Store, rs: seq<Request>, p: Uuid)
    requires p in s.wallets
    requires forall i :: 0 <= i < |rs| ==>
      rs[i].playerId == p && rs[i].env.updateFault == NoFault && !rs[i].env.logFails
    requires StaysSolvent(s.wallets[p], rs)
    ensures var t := Replay(s, rs);
      && (forall i :: 0 <= i < |rs| ==> t.outcomes[i].Completed?)
      && p in t.store.wallets
      && t.store.wallets[p] == s.wallets[p] + Total(rs)
    decreases |rs|
  {
    if |rs| > 0 {
      var h := HandleTransaction(s, rs[0].playerId, rs[0].amount, rs[0].reason, rs[0].env);
      assert h.outcome.Completed?;
      SolventRequestsAllComplete(h.store, rs[1..], p);
    }
  }
}
