/** Shared data types of the wallet service: networks, transactions and the
    events a block listener emits, plus the small failure-carrying wrappers
    that stand for Go's `(value, error)` results. */
module Models {

  /** A blockchain network is identified by its name. */
  type Network = string

  const NetworkBTC: Network := "BTC"
  const NetworkETH: Network := "ETH"
  const NetworkTRX: Network := "TRX"

  /** Byte strings (call data, keys, raw signatures). */
  type Bytes = seq<bv8>

  /** A generic blockchain transaction. Amounts and fees are arbitrary
      precision integers in the source, so they are `int` here. */
  datatype Transaction = Transaction(
    network: Network,
    from: string,
    to: string,
    amount: int,
    fee: int,
    nonce: nat,
    data: Bytes,
    signed: bool,
    txHash: string,
    rawSigned: Bytes)

  /** An event detected by a block listener. A fresh match carries
      `confirmed == false && reorged == false`; it is later re-emitted either
      confirmed or reorged. */
  datatype BlockEvent = BlockEvent(
    network: Network,
    blockNumber: nat,
    txHash: string,
    from: string,
    to: string,
    amount: int,
    confirmed: bool,
    reorged: bool)

  /** A result that carries no value, only a possible error (Go's `error`). */
  datatype Outcome<+E> = Pass | Fail(error: E)

  /** A value or an error (Go's `(T, error)`). */
  datatype Result<+T, +E> = Ok(value: T) | Err(error: E)

  /** A possibly absent value (Go's nil pointer). */
  datatype Option<+T> = None | Some(value: T)

  /** No element occurs twice. */
  predicate Distinct<T(==)>(s: seq<T>) {
    forall i, j :: 0 <= i < j < |s| ==> s[i] != s[j]
  }
}
