/** Vocabulary shared by every module of the model: optional values, instruments and order sides. */
module Common {

  /** A value that the database, or an exchange payload, may not carry. */
  datatype Option<+T> = None | Some(value: T)

  /** An instrument such as BTC/USDT. */
  datatype Symbol = Symbol(base: string, quote: string)

  datatype Side = Buy | Sell | OtherSide(name: string)

  function Max(a: real, b: real): (m: real) {
    if a < b then b else a
  }

  function MaxInt(a: int, b: int): (m: int) {
    if a < b then b else a
  }

  /** An optional string that is present and not empty. */
  predicate Present(s: Option<string>) {
    s.Some? && s.value != ""
  }
}
