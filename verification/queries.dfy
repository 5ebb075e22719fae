/** The four database queries of the service, as pure transitions on the
    contents of the two tables. Each query runs atomically (the row lock of
    `update_wallet_balance` serializes it with every other update of the same
    wallet), so a query is one step from one `Store` to the next. Whether the
    storage layer fails at a given point is an input. */
module Queries {
  import opened Models

  /** The contents of the database: one balance per player with a wallet, and
      the transaction rows in insertion order. */
  datatype Store = Store(wallets: map<Uuid, Decimal>, transactions: seq<Transaction>)

  /** A query's effect: the store afterwards and what the query returned. */
  datatype Step<T> = Step(store: Store, result: Result<T>)

  /** Where, if anywhere, the storage layer fails during `update_wallet_balance`:
      opening the database transaction, the locking `SELECT`, the `UPDATE`, or
      the commit. */
  datatype UpdateFault = NoFault | BeginFails | SelectFails | UpdateFails | CommitFails

  const NegativeBalanceMessage: string := "Cannot create negative balance."

  /** No wallet holds a negative balance. */
  predicate NonNegative(s: Store)
  {
    forall p :: p in s.wallets ==> s.wallets[p] >= 0.0
  }

  /** Every transaction row is well formed. */
  predicate LedgerWellFormed(s: Store)
  {
    forall i :: 0 <= i < |s.transactions| ==> WellFormed(s.transactions[i])
  }

  /** The condition under which `update_wallet_balance` commits: the storage
      layer does not fail, the player has a wallet, and adding `amount` to the
      current balance does not make it negative. */
  predicate UpdateSucceeds(s: Store, playerId: Uuid, amount: Decimal, fault: UpdateFault)
  {
    && fault == NoFault
    && playerId in s.wallets
    && s.wallets[playerId] + amount >= 0.0
  }

  /** The wallets after `amount` has been added to the player's balance. */
  function Credited(s: Store, playerId: Uuid, amount: Decimal): (w: map<Uuid, Decimal>)
    requires playerId in s.wallets
    ensures w.Keys == s.wallets.Keys
    ensures w[playerId] == s.wallets[playerId] + amount
    ensures forall p :: p in s.wallets && p != playerId ==> w[p] == s.wallets[p]
  {
    s.wallets[playerId := s.wallets[playerId] + amount]
  }

  /** `get_wallet`: read the player's wallet. Reading changes nothing, which is
      why it returns no store. */
  function GetWallet(s: Store, playerId: Uuid, storageFails: bool): (r: Result<BitWallet>)
    ensures r.Ok? <==> !storageFails && playerId in s.wallets
    ensures r.Ok? ==> r.value.playerId == playerId && r.value.balance == s.wallets[playerId]
    ensures !storageFails && playerId !in s.wallets ==> r == Err(RowNotFound)
  {
    if storageFails then Err(Storage)
    else if playerId in s.wallets then Ok(BitWallet(playerId, s.wallets[playerId]))
    else Err(RowNotFound)
  }

  /** `update_wallet_balance`: lock the player's wallet, add `amount`, and
      write the sum back only if it is non-negative. No failure leaves a
      committed write, so on every failure the store is left exactly as it
      was. */
  function UpdateWalletBalance(s: Store, playerId: Uuid, amount: Decimal, fault: UpdateFault): (r: Step<BitWallet>)
    ensures r.result.Ok? <==> UpdateSucceeds(s, playerId, amount, fault)
    ensures r.result.Ok? ==>
      && r.result.value == BitWallet(playerId, s.wallets[playerId] + amount)
      && r.store == Store(Credited(s, playerId, amount), s.transactions)
    ensures r.result.Err? ==> r.store == s
    ensures r.store.transactions == s.transactions
  {
    if fault == BeginFails || fault == SelectFails then
      Step(s, Err(Storage))
    else if playerId !in s.wallets then
      Step(s, Err(RowNotFound))
    else
      var newAmount := s.wallets[playerId] + amount;
      if newAmount < 0.0 then
        Step(s, Err(InvalidArgument(NegativeBalanceMessage)))
      else if fault == UpdateFails || fault == CommitFails then
        Step(s, Err(Storage))
      else
        Step(Store(s.wallets[playerId := newAmount], s.transactions), Ok(BitWallet(playerId, newAmount)))
  }

  /** `create_wallet`: insert a wallet holding the database's default balance.
      A store holds at most one wallet per player, so inserting a second one
      is refused like any other failed insert. */
  function CreateWallet(s: Store, playerId: Uuid, initialBalance: Decimal, storageFails: bool): (r: Step<BitWallet>)
    ensures r.result.Ok? <==> !storageFails && playerId !in s.wallets
    ensures r.result.Ok? ==>
      && r.result.value == BitWallet(playerId, initialBalance)
      && r.store.wallets.Keys == s.wallets.Keys + {playerId}
      && r.store.wallets[playerId] == initialBalance
      && (forall p :: p in s.wallets ==> r.store.wallets[p] == s.wallets[p])
    ensures r.result.Err? ==> r.store == s
    ensures r.store.transactions == s.transactions
  {
    if storageFails || playerId in s.wallets then Step(s, Err(Storage))
    else Step(Store(s.wallets[playerId := initialBalance], s.transactions), Ok(BitWallet(playerId, initialBalance)))
  }

  /** `commit_transaction`: append one row to `transactions`. The row failed
      exactly when an error message is given, and then holds that message. */
  function CommitTransaction(
    s: Store, playerId: Uuid, amount: Decimal, reason: string,
    errorMessage: Option<string>, stamp: Stamp, storageFails: bool): (r: Step<Transaction>)
    ensures r.result.Ok? <==> !storageFails
    ensures r.result.Ok? ==>
      && r.store == Store(s.wallets, s.transactions + [r.result.value])
      && r.result.value.playerId == playerId
      && r.result.value.amount == amount
      && r.result.value.reason == reason
      && r.result.value.id == stamp.id
      && r.result.value.timestamp == stamp.timestamp
      && r.result.value.errorMessage == errorMessage
      && WellFormed(r.result.value)
    ensures r.result.Err? ==> r.store == s
  {
    if storageFails then Step(s, Err(Storage))
    else
      var row := match errorMessage
        case Some(em) => Transaction(stamp.id, playerId, amount, stamp.timestamp, reason, false, Some(em))
        case None => Transaction(stamp.id, playerId, amount, stamp.timestamp, reason, true, None);
      Step(Store(s.wallets, s.transactions + [row]), Ok(row))
  }

  // ---------------------------------------------------------------------------
  // Properties relating the queries to each other and to the store invariants.

  /** A balance update never makes a balance negative: whether it commits or
      is refused, a store with no negative balance stays that way. */
  lemma UpdatePreservesNonNegative(s: Store, playerId: Uuid, amount: Decimal, fault: UpdateFault)
    requires NonNegative(s)
    ensures NonNegative(UpdateWalletBalance(s, playerId, amount, fault).store)
  {
  }

  /** An update that would overdraw the wallet is refused with the
      negative-balance error, and nothing is written. */
  lemma UpdateRefusesOverdraft(s: Store, playerId: Uuid, amount: Decimal, fault: UpdateFault)
    requires fault != BeginFails && fault != SelectFails
    requires playerId in s.wallets && s.wallets[playerId] + amount < 0.0
    ensures UpdateWalletBalance(s, playerId, amount, fault)
         == Step(s, Err(InvalidArgument(NegativeBalanceMessage)))
  {
  }

  /** An update of a player without a wallet fails as `fetch_one` does when
      it finds no row, and nothing is written. */
  lemma UpdateOfMissingWallet(s: Store, playerId: Uuid, amount: Decimal, fault: UpdateFault)
    requires fault != BeginFails && fault != SelectFails
    requires playerId !in s.wallets
    ensures UpdateWalletBalance(s, playerId, amount, fault) == Step(s, Err(RowNotFound))
  {
  }

  /** Reading a wallet after an update sees the new balance when the update
      committed and the old wallet when it did not. */
  lemma ReadAfterUpdate(s: Store, playerId: Uuid, amount: Decimal, fault: UpdateFault)
    ensures var r := UpdateWalletBalance(s, playerId, amount, fault);
      GetWallet(r.store, playerId, false)
        == if r.result.Ok? then r.result else GetWallet(s, playerId, false)
  {
  }

  /** An update leaves every other player's wallet readable exactly as before. */
  lemma UpdateIsolatesOtherWallets(s: Store, playerId: Uuid, amount: Decimal, fault: UpdateFault, other: Uuid)
    requires other != playerId
    ensures GetWallet(UpdateWalletBalance(s, playerId, amount, fault).store, other, false)
         == GetWallet(s, other, false)
  {
  }

  /** Reading a wallet right after creating it returns the created wallet. */
  lemma ReadAfterCreate(s: Store, playerId: Uuid, initialBalance: Decimal, storageFails: bool)
    ensures var r := CreateWallet(s, playerId, initialBalance, storageFails);
      r.result.Ok? ==> GetWallet(r.store, playerId, false) == r.result
  {
  }

  /** Creating a wallet with a non-negative default balance keeps every balance
      non-negative. */
  lemma CreatePreservesNonNegative(s: Store, playerId: Uuid, initialBalance: Decimal, storageFails: bool)
    requires NonNegative(s) && initialBalance >= 0.0
    ensures NonNegative(CreateWallet(s, playerId, initialBalance, storageFails).store)
  {
  }

  /** The transactions table is append-only: committing a row keeps every
      earlier row in place and keeps every row well formed. */
  lemma CommitPreservesLedger(
    s: Store, playerId: Uuid, amount: Decimal, reason: string,
    errorMessage: Option<string>, stamp: Stamp, storageFails: bool)
    requires LedgerWellFormed(s)
    ensures var r := CommitTransaction(s, playerId, amount, reason, errorMessage, stamp, storageFails);
      && s.transactions <= r.store.transactions
      && LedgerWellFormed(r.store)
  {
  }
}
