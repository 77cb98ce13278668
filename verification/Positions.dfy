/** Counting open positions in an exchange snapshot (services/position_service.py). */
module Positions {
  import opened Common

  type Symbol = string

  /** One row of `futures_position_information`; `amount` is None when it cannot be parsed. */
  datatype PositionRow = PositionRow(symbol: Option<Symbol>, amount: Option<real>)

  predicate IsActive(row: PositionRow) {
    row.symbol.Some? && row.symbol.value != "" && row.amount.Some? && row.amount.value != 0.0
  }

  function ActiveSymbols(rows: seq<PositionRow>): set<Symbol> {
    set row | row in rows && IsActive(row) :: row.symbol.value
  }

  /** A symbol held on both sides (two rows) counts once; unnamed and unreadable rows do not count. */
  method CountActivePositions(rows: seq<PositionRow>) returns (count: nat, symbols: set<Symbol>)
    ensures symbols == ActiveSymbols(rows)
    ensures count == |symbols|
  {
    symbols := {};
    for k := 0 to |rows|
      invariant symbols == ActiveSymbols(rows[..k])
    {
      assert rows[..k + 1] == rows[..k] + [rows[k]];
      var row := rows[k];
      if row.symbol.None? || row.symbol.value == "" {
        continue;
      }
      if row.amount.None? {
        continue;
      }
      if AbsReal(row.amount.value) > 0.0 {
        symbols := symbols + {row.symbol.value};
      }
    }
    assert rows[..|rows|] == rows;
    count := |symbols|;
  }

  /** A symbol is active exactly when some row names it with a readable amount other than zero, long or
      short. */
  lemma ActiveIff(rows: seq<PositionRow>, symbol: Symbol)
    ensures symbol in ActiveSymbols(rows) <==>
      symbol != "" && exists amount: real ::
        (amount > 0.0 || amount < 0.0) && PositionRow(Some(symbol), Some(amount)) in rows
  {
    if symbol in ActiveSymbols(rows) {
      var row :| row in rows && IsActive(row) && row.symbol.value == symbol;
      assert row == PositionRow(Some(symbol), Some(row.amount.value));
    }
    if amount: real :|
      (amount > 0.0 || amount < 0.0) && PositionRow(Some(symbol), Some(amount)) in rows && symbol != "" {
      assert IsActive(PositionRow(Some(symbol), Some(amount)));
    }
  }
}
