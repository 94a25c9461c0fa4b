/**
 * The action pivot (generate_wallet_scores.py lines 22-28) and the net
 * position derived from it (lines 47-52). The pivot has one row per wallet
 * and one column per action that occurs anywhere in the input; a cell is the
 * sum of the wallet's amounts for that action, 0 where there are none.
 */
module Pivot {
  import opened Transactions

  /** Reference definition: the sum of `w`'s amounts for action `a`. */
  function SumAmount(rows: seq<Row>, w: string, a: string): real
  {
    if |rows| == 0 then 0.0
    else
      var r := rows[|rows| - 1];
      SumAmount(rows[..|rows| - 1], w, a) + (if r.wallet == w && r.action == a then r.amount else 0.0)
  }

  /** The (wallet, action) pairs that have at least one row. */
  function PairsOf(rows: seq<Row>): set<(string, string)>
  {
    set r | r in rows :: (r.wallet, r.action)
  }

  /** Extending a prefix by one row adds that row's amount to its own cell only. */
  lemma SumExtend(rows: seq<Row>, i: nat, w: string, a: string)
    requires i < |rows|
    ensures SumAmount(rows[..i + 1], w, a) ==
            SumAmount(rows[..i], w, a) + (if rows[i].wallet == w && rows[i].action == a then rows[i].amount else 0.0)
  {
    assert rows[..i + 1][..i] == rows[..i];
  }

  lemma PairsExtend(rows: seq<Row>, i: nat)
    requires i < |rows|
    ensures PairsOf(rows[..i + 1]) == PairsOf(rows[..i]) + {(rows[i].wallet, rows[i].action)}
  {
    assert rows[..i + 1] == rows[..i] + [rows[i]];
  }

  /** A wallet/action pair without rows sums to exactly 0. */
  lemma {:induction false} SumWithoutRows(rows: seq<Row>, w: string, a: string)
    requires (w, a) !in PairsOf(rows)
    ensures SumAmount(rows, w, a) == 0.0
  {
    if |rows| > 0 {
      var n := |rows| - 1;
      PairsExtend(rows, n);
      assert rows[..n + 1] == rows;
      SumWithoutRows(rows[..n], w, a);
    }
  }

  /** The accumulator of `PivotTable` after the first `i` rows. */
  ghost predicate Accumulated(rows: seq<Row>, i: nat, acc: map<(string, string), real>)
    requires i <= |rows|
  {
    && acc.Keys == PairsOf(rows[..i])
    && forall k :: k in acc ==> acc[k] == SumAmount(rows[..i], k.0, k.1)
  }

  /** Adding row `i` to its own cell keeps the accumulator exact. */
  lemma AccumulateStep(rows: seq<Row>, i: nat, acc: map<(string, string), real>)
    requires i < |rows| && Accumulated(rows, i, acc)
    ensures var key := (rows[i].wallet, rows[i].action);
            var prev := if key in acc then acc[key] else 0.0;
            Accumulated(rows, i + 1, acc[key := prev + rows[i].amount])
  {
    var key := (rows[i].wallet, rows[i].action);
    if key !in acc {
      SumWithoutRows(rows[..i], key.0, key.1);
    }
    PairsExtend(rows, i);
    forall k | k in acc || k == key
      ensures SumAmount(rows[..i + 1], k.0, k.1) ==
              SumAmount(rows[..i], k.0, k.1) + (if k == key then rows[i].amount else 0.0)
    {
      SumExtend(rows, i, k.0, k.1);
    }
  }

  /** A pivot row reads, column by column, the sums of its wallet's rows, absent columns included. */
  predicate IsPivotRow(rows: seq<Row>, w: string, sums: map<string, real>)
  {
    && sums.Keys == ActionsOf(rows)
    && forall a :: a in sums ==> sums[a] == SumAmount(rows, w, a)
  }

  /** The filled grid: wallets x actions, accumulated sum or the fill value 0. */
  function FillGrid(rows: seq<Row>, acc: map<(string, string), real>): (p: map<string, map<string, real>>)
    requires Accumulated(rows, |rows|, acc)
    ensures p.Keys == WalletsOf(rows)
    ensures forall w :: w in p ==> IsPivotRow(rows, w, p[w])
  {
    assert rows[..|rows|] == rows;
    var grid := map w | w in WalletsOf(rows) ::
                  map a | a in ActionsOf(rows) :: if (w, a) in acc then acc[(w, a)] else 0.0;
    assert forall w, a :: w in grid && a in grid[w] && (w, a) !in acc ==> SumAmount(rows, w, a) == 0.0 by {
      forall w, a | w in grid && a in grid[w] && (w, a) !in acc
        ensures SumAmount(rows, w, a) == 0.0
      {
        SumWithoutRows(rows, w, a);
      }
    }
    grid
  }

  /**
   * `pivot_table(index='userWallet', columns='action', values='amount',
   * aggfunc='sum', fill_value=0)`: sums are accumulated for the pairs that
   * occur, and every other cell of the wallet x action grid is filled with 0.
   */
  method PivotTable(rows: seq<Row>) returns (p: map<string, map<string, real>>)
    ensures p.Keys == WalletsOf(rows)
    ensures forall w :: w in p ==> IsPivotRow(rows, w, p[w])
  {
    var acc: map<(string, string), real> := map[];
    var i := 0;
    while i < |rows|
      invariant 0 <= i <= |rows|
      invariant Accumulated(rows, i, acc)
    {
      var r := rows[i];
      var key := (r.wallet, r.action);
      var prev := if key in acc then acc[key] else 0.0;
      AccumulateStep(rows, i, acc);
      acc := acc[key := prev + r.amount];
      i := i + 1;
    }
    p := FillGrid(rows, acc);
  }

  /** `features_df.get(a, 0)`: the pivot column, or 0 when the action never occurs. */
  function Column(sums: map<string, real>, a: string): real
  {
    if a in sums then sums[a] else 0.0
  }

  /** The four columns the net position combines. */
  const NetActions: set<string> := {"deposit", "repay", "borrow", "redeemUnderlying"}

  /**
   * The net position of one pivot row: deposits plus repayments minus borrows
   * and redemptions. A wallet with none of these columns has net position 0.
   */
  function NetPosition(sums: map<string, real>): (r: real)
    ensures sums.Keys !! NetActions ==> r == 0.0
  {
    Column(sums, "deposit") + Column(sums, "repay") - Column(sums, "borrow") - Column(sums, "redeemUnderlying")
  }

  /** Columns outside the four, such as `liquidationcall`, do not move the net position. */
  lemma NetPositionOtherColumns(sums: map<string, real>, a: string, v: real)
    requires a !in NetActions
    ensures NetPosition(sums[a := v]) == NetPosition(sums)
  {
    assert Column(sums[a := v], "deposit") == Column(sums, "deposit");
    assert Column(sums[a := v], "repay") == Column(sums, "repay");
    assert Column(sums[a := v], "borrow") == Column(sums, "borrow");
    assert Column(sums[a := v], "redeemUnderlying") == Column(sums, "redeemUnderlying");
  }

  /** Reading a column of a pivot row gives the wallet's sum for that action, present or not. */
  lemma ColumnIsSum(rows: seq<Row>, w: string, sums: map<string, real>, a: string)
    requires IsPivotRow(rows, w, sums)
    ensures Column(sums, a) == SumAmount(rows, w, a)
  {
    if a !in sums {
      assert (w, a) !in PairsOf(rows);
      SumWithoutRows(rows, w, a);
    }
  }

  /** The net position equals deposit + repay - borrow - redeemUnderlying summed over the records. */
  lemma NetPositionOfRecords(rows: seq<Row>, w: string, sums: map<string, real>)
    requires IsPivotRow(rows, w, sums)
    ensures NetPosition(sums) == SumAmount(rows, w, "deposit") + SumAmount(rows, w, "repay")
                                - SumAmount(rows, w, "borrow") - SumAmount(rows, w, "redeemUnderlying")
  {
    ColumnIsSum(rows, w, sums, "deposit");
    ColumnIsSum(rows, w, sums, "repay");
    ColumnIsSum(rows, w, sums, "borrow");
    ColumnIsSum(rows, w, sums, "redeemUnderlying");
  }
}
