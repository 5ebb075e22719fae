/** The body of the `/transaction` handler once the player has been
    authenticated: apply the delta, record the attempt whatever its result,
    and classify the pair of results into one of four responses. */
module TransactionHandler {
  import opened Models
  import opened Queries

  const FailedUpdateMessage: string := "Failed to update the balance."
  const RejectedMessage: string := "Could not complete the transaction. Likely a balance failure."
  const UnloggedMessage: string := "Transaction completed but not logged! Unlikely and bad!"
  const FailedMessage: string := "Transaction not completed or logged. Likely a database issue."

  /** The four ways a transaction request can end. */
  datatype Outcome =
    | Completed(balance: Decimal)  // balance updated and logged
    | Rejected                     // balance untouched, failure logged
    | CompletedUnlogged            // balance updated, log missing
    | Failed                       // balance untouched, log missing

  datatype Body = BalanceBody(balance: Decimal) | MessageBody(message: string)

  /** An HTTP response: status code and JSON body. */
  datatype Response = Response(status: nat, body: Body)

  /** What the storage layer does during one request: where the balance
      update fails, if anywhere; whether inserting the transaction row fails;
      and the id and timestamp the database would give that row. */
  datatype Environment = Environment(updateFault: UpdateFault, logFails: bool, stamp: Stamp)

  /** The store after a request and how the request ended. */
  datatype Handled = Handled(store: Store, outcome: Outcome)

  /** The error message the attempt is logged with, given the update's result. */
  function LogMessage(updated: Result<BitWallet>): (m: Option<string>)
    ensures m.None? <==> updated.Ok?
    ensures m.Some? ==> m.value == FailedUpdateMessage
  {
    match updated
    case Ok(_) => None
    case Err(_) => Some(FailedUpdateMessage)
  }

  /** The four-way classification of (update result, log result). */
  function Classify(updated: Result<BitWallet>, logged: Result<Transaction>): (o: Outcome)
    ensures o.Completed? <==> updated.Ok? && logged.Ok?
    ensures o.Completed? ==> o.balance == updated.value.balance
    ensures o.Rejected? <==> updated.Err? && logged.Ok?
    ensures o.CompletedUnlogged? <==> updated.Ok? && logged.Err?
    ensures o.Failed? <==> updated.Err? && logged.Err?
  {
    match (updated, logged)
    case (Ok(w), Ok(_)) => Completed(w.balance)
    case (Err(_), Ok(_)) => Rejected
    case (Ok(_), Err(_)) => CompletedUnlogged
    case (Err(_), Err(_)) => Failed
  }

  /** `handle_transaction` after authentication: `playerId` is the
      authenticated player. */
  function HandleTransaction(s: Store, playerId: Uuid, amount: Decimal, reason: string, env: Environment): (h: Handled)
    // the balance changes exactly when the update commits, and then by exactly `amount`
    ensures UpdateSucceeds(s, playerId, amount, env.updateFault) ==>
      h.store.wallets == Credited(s, playerId, amount)
    ensures !UpdateSucceeds(s, playerId, amount, env.updateFault) ==> h.store.wallets == s.wallets
    // the attempt is logged, whatever the update did, unless the insert fails
    ensures env.logFails ==> h.store.transactions == s.transactions
    ensures !env.logFails ==>
      && |h.store.transactions| == |s.transactions| + 1
      && s.transactions <= h.store.transactions
      && LoggedAs(h.store.transactions[|s.transactions|], playerId, amount, reason, env.stamp,
                  UpdateSucceeds(s, playerId, amount, env.updateFault))
    // the four outcomes
    ensures h.outcome.Completed? <==> UpdateSucceeds(s, playerId, amount, env.updateFault) && !env.logFails
    ensures h.outcome.Completed? ==>
      h.outcome.balance == s.wallets[playerId] + amount == h.store.wallets[playerId]
    ensures h.outcome.Rejected? <==> !UpdateSucceeds(s, playerId, amount, env.updateFault) && !env.logFails
    ensures h.outcome.CompletedUnlogged? <==> UpdateSucceeds(s, playerId, amount, env.updateFault) && env.logFails
    ensures h.outcome.Failed? <==> !UpdateSucceeds(s, playerId, amount, env.updateFault) && env.logFails
  {
    var updated := UpdateWalletBalance(s, playerId, amount, env.updateFault);
    var logged := CommitTransaction(updated.store, playerId, amount, reason, LogMessage(updated.result), env.stamp, env.logFails);
    Handled(logged.store, Classify(updated.result, logged.result))
  }

  /** The row logged for an attempt: the request verbatim, the database's id
      and timestamp, and a success flag that says whether the balance was
      updated, with the fixed failure message otherwise. */
  predicate LoggedAs(t: Transaction, playerId: Uuid, amount: Decimal, reason: string, stamp: Stamp, updated: bool)
  {
    && t.playerId == playerId
    && t.amount == amount
    && t.reason == reason
    && t.id == stamp.id
    && t.timestamp == stamp.timestamp
    && t.success == updated
    && t.errorMessage == (if updated then None else Some(FailedUpdateMessage))
  }

  /** The HTTP response for each outcome. */
  function Respond(o: Outcome): (r: Response)
    ensures r.status == 200 <==> o.Completed?
    ensures o.Completed? ==> r.body == BalanceBody(o.balance)
    ensures r.status == 409 <==> o.Rejected?
    ensures r.status == 500 <==> o.CompletedUnlogged? || o.Failed?
  {
    match o
    case Completed(b) => Response(200, BalanceBody(b))
    case Rejected => Response(409, MessageBody(RejectedMessage))
    case CompletedUnlogged => Response(500, MessageBody(UnloggedMessage))
    case Failed => Response(500, MessageBody(FailedMessage))
  }

  // ---------------------------------------------------------------------------
  // Properties of the handler.

  /** Different outcomes always give different responses: in particular a
      balance change that was not logged is never reported like a request that
      neither changed the balance nor was logged. */
  lemma RespondDistinguishesOutcomes(o1: Outcome, o2: Outcome)
    requires Respond(o1) == Respond(o2)
    ensures o1 == o2
  {
  }

  /** "Completed but not logged" and "neither happened" leave different stores
      behind: in the first the player's balance has moved by `amount`, in the
      second every balance is what it was. */
  lemma UnloggedMovesMoneyFailedDoesNot(s: Store, playerId: Uuid, amount: Decimal, reason: string, env: Environment)
    requires env.logFails
    ensures var h := HandleTransaction(s, playerId, amount, reason, env);
      && h.store.transactions == s.transactions
      && (h.outcome.CompletedUnlogged? ==>
            playerId in s.wallets && h.store.wallets[playerId] == s.wallets[playerId] + amount)
      && (h.outcome.Failed? ==> h.store == s)
  {
  }

  /** A handled request never makes a balance negative and never breaks a
      transaction row's success/message pairing; earlier rows stay put. */
  lemma HandlePreservesInvariants(s: Store, playerId: Uuid, amount: Decimal, reason: string, env: Environment)
    requires NonNegative(s) && LedgerWellFormed(s)
    ensures var h := HandleTransaction(s, playerId, amount, reason, env);
      && NonNegative(h.store)
      && LedgerWellFormed(h.store)
      && s.transactions <= h.store.transactions
  {
  }
}
