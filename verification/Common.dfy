/** Vocabulary shared by every component: order sides, optional values and identifiers. */
module Common {

  /** Identifiers are only ever compared, so they are modelled as integers. */
  type OrderId = int
  type AccountId = int
  type EventId = int

  datatype Option<+T> = None | Some(value: T)

  datatype Side = Buy | Sell

  function Opposite(side: Side): Side {
    if side == Buy then Sell else Buy
  }

  function Min(a: int, b: int): int {
    if a <= b then a else b
  }

  function Max(a: int, b: int): int {
    if a <= b then b else a
  }

  method Pick<T(==)>(s: set<T>) returns (x: T)
    requires s != {}
    ensures x in s
  {
    x :| x in s;
  }
}
