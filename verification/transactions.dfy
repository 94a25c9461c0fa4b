/**
 * The data model of the scoring script: the JSON transaction records it
 * loads, the amount-annotated rows it derives from them, and the exceptions
 * that end a run.
 */
module Transactions {

  /** A JSON value as `json.load` produces it; numbers are exact. */
  datatype Json =
    | JNull
    | JBool(b: bool)
    | JNumber(x: real)
    | JString(s: string)
    | JArray(items: seq<Json>)
    | JObject(fields: map<string, Json>)

  /** One input record: `userWallet`, `timestamp` (epoch seconds), `action`, `actionData`. */
  datatype Record = Record(wallet: string, timestamp: int, action: string, actionData: Json)

  /** A record after the `amount` column has been added: the amount is in whole tokens. */
  datatype Row = Row(wallet: string, timestamp: int, action: string, amount: real)

  /** The exceptions that stop the script before it writes its scores. */
  datatype Error =
    | EmptyInput                          // an empty frame has no `timestamp` column
    | BadAmount(index: nat)               // `float()` raised on this record's `amount`
    | MissingColumns(names: set<string>)  // clustering columns absent from the pivot
    | TooFewWallets(count: nat)           // fewer wallets than clusters

  /** The set of wallets that occur in a sequence of rows. */
  function WalletsOf(rows: seq<Row>): set<string>
  {
    set r | r in rows :: r.wallet
  }

  /** The set of actions that occur in a sequence of rows: the pivot's columns. */
  function ActionsOf(rows: seq<Row>): set<string>
  {
    set r | r in rows :: r.action
  }

  /** The wallets of `rows` in order of first appearance, each exactly once. */
  function DistinctWallets(rows: seq<Row>): (ws: seq<string>)
    ensures forall i, j :: 0 <= i < j < |ws| ==> ws[i] != ws[j]
    ensures forall w :: w in ws <==> w in WalletsOf(rows)
  {
    if |rows| == 0 then []
    else
      var prefix := rows[..|rows| - 1];
      var prev := DistinctWallets(prefix);
      var w := rows[|rows| - 1].wallet;
      assert rows == prefix + [rows[|rows| - 1]];
      if w in prev then prev else prev + [w]
  }
}
