/** Rows of the two tables the currency service owns (`bit_wallets` and
    `transactions`), and the error and option types its queries return. */
module Models {

  /** A UUID, as its 128-bit value. A player's UUID, assigned by the player
      service, is also the key of the player's wallet. */
  newtype Uuid = x: int | 0 <= x < 0x1_0000_0000_0000_0000_0000_0000_0000_0000

  /** `BigDecimal` is exact; every exact decimal is a rational, so `real`
      (Dafny's exact rationals) carries it without rounding. */
  type Decimal = real

  /** A point in time as the database stores it (microseconds since the epoch). */
  type Timestamp = int

  datatype Option<T> = None | Some(value: T)

  /** The three kinds of `sqlx::Error` the queries can produce. */
  datatype DbError =
    | RowNotFound                       // `fetch_one` found no row
    | InvalidArgument(message: string)  // raised by the service itself
    | Storage                           // connection, constraint or commit failure

  datatype Result<T> = Ok(value: T) | Err(error: DbError)

  /** A row of `bit_wallets`. */
  datatype BitWallet = BitWallet(playerId: Uuid, balance: Decimal)

  /** A row of `transactions`: one attempted balance change. */
  datatype Transaction = Transaction(
    id: Uuid,
    playerId: Uuid,
    amount: Decimal,
    timestamp: Timestamp,
    reason: string,
    success: bool,
    errorMessage: Option<string>)

  /** The values the database generates when it inserts a transaction row. */
  datatype Stamp = Stamp(id: Uuid, timestamp: Timestamp)

  /** A transaction row is well formed when it failed exactly when it carries
      an error message. */
  predicate WellFormed(t: Transaction)
  {
    t.success <==> t.errorMessage.None?
  }
}
