/**
 * The cash ledger: one row for every change of an account's balance, each row
 * carrying the balance it leaves behind.
 */
module Ledger {
  import opened Common

  datatype Reason =
    | TradeBuy | TradeSell | TradeFeeDebt | TradeFeeBuy | TradeFeeSell
    | FuturesPnl | OptionPremium | FuturesSettle | OptionExpiry

  datatype Row = Row(account: AccountId, delta: int, balanceAfter: int, reason: Reason)

  function DeltaOf(row: Row, a: AccountId): int {
    if row.account == a then row.delta else 0
  }

  /** Sum of everything the ledger says happened to one account. */
  function Deltas(rows: seq<Row>, a: AccountId): int {
    if rows == [] then 0 else Deltas(rows[..|rows| - 1], a) + DeltaOf(rows[|rows| - 1], a)
  }

  /** Each row of the account carries the balance left by the rows up to and including it. */
  ghost predicate Chained(rows: seq<Row>, a: AccountId, opening: int) {
    rows == [] ||
    (Chained(rows[..|rows| - 1], a, opening) &&
     (rows[|rows| - 1].account == a ==> rows[|rows| - 1].balanceAfter == opening + Deltas(rows, a)))
  }

  /** `more` continues the chain of account `a` from balance `before` and leaves it at `after`. */
  ghost predicate Links(more: seq<Row>, a: AccountId, before: int, after: int) {
    Chained(more, a, before) && after == before + Deltas(more, a)
  }

  lemma {:induction false} DeltasAppend(rows: seq<Row>, more: seq<Row>, a: AccountId)
    ensures Deltas(rows + more, a) == Deltas(rows, a) + Deltas(more, a)
  {
    if more == [] {
      assert rows + more == rows;
    } else {
      var n := |more| - 1;
      assert (rows + more)[..|rows + more| - 1] == rows + more[..n];
      DeltasAppend(rows, more[..n], a);
    }
  }

  /** A chain extended by a link is a chain: this is how every settlement path keeps the ledger. */
  lemma {:induction false} ChainExtends(rows: seq<Row>, more: seq<Row>, a: AccountId, opening: int)
    requires Chained(rows, a, opening) && Chained(more, a, opening + Deltas(rows, a))
    ensures Chained(rows + more, a, opening)
    ensures Deltas(rows + more, a) == Deltas(rows, a) + Deltas(more, a)
  {
    DeltasAppend(rows, more, a);
    if more == [] {
      assert rows + more == rows;
    } else {
      var n := |more| - 1;
      assert (rows + more)[..|rows + more| - 1] == rows + more[..n];
      ChainExtends(rows, more[..n], a, opening);
    }
  }

  /** Two consecutive links make one. */
  lemma LinksAppend(first: seq<Row>, second: seq<Row>, a: AccountId, x: int, y: int, z: int)
    requires Links(first, a, x, y) && Links(second, a, y, z)
    ensures Links(first + second, a, x, z)
  {
    ChainExtends(first, second, a, x);
  }

  /** A single row links the balances on either side of it; it leaves other accounts alone. */
  lemma RowLinks(row: Row, a: AccountId, before: int)
    ensures row.account == a && row.balanceAfter == before + row.delta ==> Links([row], a, before, row.balanceAfter)
    ensures row.account != a ==> Links([row], a, before, before)
  {
    var rows := [row];
    assert rows[..0] == [];
    assert Deltas(rows, a) == Deltas(rows[..0], a) + DeltaOf(row, a);
  }

  predicate RowsOf(rows: seq<Row>, a: AccountId) {
    forall i :: 0 <= i < |rows| ==> rows[i].account == a
  }

  /** Rows of one account leave every other account's chain where it was. */
  lemma {:induction false} OthersUnmoved(rows: seq<Row>, a: AccountId, b: AccountId, balance: int)
    requires RowsOf(rows, a) && a != b
    ensures Links(rows, b, balance, balance)
  {
    if rows != [] {
      OthersUnmoved(rows[..|rows| - 1], a, b, balance);
    }
  }
}
