/**
 * Time-based features (generate_wallet_scores.py lines 31-41): per wallet the
 * earliest and latest timestamp, the number of records, the number of
 * distinct UTC calendar days, and records per active day.
 */
module Activity {
  import opened Transactions

  const SecondsPerDay: int := 86400

  /**
   * The UTC calendar day of an epoch timestamp, numbered from 1970-01-01.
   * Dafny's division by a positive divisor rounds down, as the calendar
   * does for instants before the epoch.
   */
  function Day(t: int): (r: int)
    ensures r * SecondsPerDay <= t < (r + 1) * SecondsPerDay
  {
    t / SecondsPerDay
  }

  /** The timestamps of `w`'s rows, in input order. */
  function TimestampsOf(rows: seq<Row>, w: string): seq<int>
  {
    if |rows| == 0 then []
    else
      var r := rows[|rows| - 1];
      TimestampsOf(rows[..|rows| - 1], w) + (if r.wallet == w then [r.timestamp] else [])
  }

  /** The distinct days on which the timestamps fall. */
  function DaysOf(ts: seq<int>): set<int>
  {
    set t | t in ts :: Day(t)
  }

  predicate IsMin(x: int, ts: seq<int>)
  {
    x in ts && forall t :: t in ts ==> x <= t
  }

  predicate IsMax(x: int, ts: seq<int>)
  {
    x in ts && forall t :: t in ts ==> t <= x
  }

  /** A wallet of the input has at least one timestamp. */
  lemma {:induction false} TimestampsOfPresent(rows: seq<Row>, w: string)
    requires w in WalletsOf(rows)
    ensures |TimestampsOf(rows, w)| >= 1
  {
    var n := |rows| - 1;
    assert rows == rows[..n] + [rows[n]];
    if rows[n].wallet != w {
      assert w in WalletsOf(rows[..n]);
      TimestampsOfPresent(rows[..n], w);
    }
  }

  /** A wallet that is not in the input has no timestamps. */
  lemma {:induction false} TimestampsOfAbsent(rows: seq<Row>, w: string)
    requires w !in WalletsOf(rows)
    ensures TimestampsOf(rows, w) == []
  {
    if |rows| > 0 {
      var n := |rows| - 1;
      assert rows == rows[..n] + [rows[n]];
      assert w !in WalletsOf(rows[..n]);
      TimestampsOfAbsent(rows[..n], w);
    }
  }

  lemma DaysOfAppend(ts: seq<int>, t: int)
    ensures DaysOf(ts + [t]) == DaysOf(ts) + {Day(t)}
  {
  }

  /** There are at least one and at most |ts| distinct days among non-empty timestamps. */
  lemma {:induction false} DaysBounds(ts: seq<int>)
    requires |ts| >= 1
    ensures 1 <= |DaysOf(ts)| <= |ts|
  {
    var n := |ts| - 1;
    var prefix := ts[..n];
    assert ts == prefix + [ts[n]];
    DaysOfAppend(prefix, ts[n]);
    if n == 0 {
      assert DaysOf(prefix) == {};
    } else {
      DaysBounds(prefix);
    }
  }

  /** Running per-wallet aggregates while the rows are scanned. */
  datatype Tally = Tally(first: int, last: int, count: nat, days: set<int>)

  /** The aggregates of one wallet, as the `agg` call at lines 34-39 returns them. */
  datatype TimeStats = TimeStats(firstTx: int, lastTx: int, txCount: nat, activeDays: nat)

  ghost predicate TallyOf(ts: seq<int>, t: Tally)
  {
    && t.count == |ts|
    && t.days == DaysOf(ts)
    && IsMin(t.first, ts)
    && IsMax(t.last, ts)
  }

  ghost predicate Tallied(rows: seq<Row>, i: nat, acc: map<string, Tally>)
    requires i <= |rows|
  {
    && acc.Keys == WalletsOf(rows[..i])
    && forall w :: w in acc ==> TallyOf(TimestampsOf(rows[..i], w), acc[w])
  }

  /** Adding row `i` to the tally of its wallet. */
  function AddRow(acc: map<string, Tally>, r: Row): map<string, Tally>
  {
    if r.wallet in acc then
      var t := acc[r.wallet];
      acc[r.wallet := Tally(if r.timestamp < t.first then r.timestamp else t.first,
                            if r.timestamp > t.last then r.timestamp else t.last,
                            t.count + 1, t.days + {Day(r.timestamp)})]
    else
      acc[r.wallet := Tally(r.timestamp, r.timestamp, 1, {Day(r.timestamp)})]
  }

  lemma TimestampsExtend(rows: seq<Row>, i: nat, w: string)
    requires i < |rows|
    ensures TimestampsOf(rows[..i + 1], w) ==
            TimestampsOf(rows[..i], w) + (if rows[i].wallet == w then [rows[i].timestamp] else [])
  {
    assert rows[..i + 1][..i] == rows[..i];
  }

  /** The tally of the wallet of row `i` after adding that row. */
  lemma TallyOwnWallet(rows: seq<Row>, i: nat, acc: map<string, Tally>)
    requires i < |rows| && Tallied(rows, i, acc)
    ensures TallyOf(TimestampsOf(rows[..i + 1], rows[i].wallet), AddRow(acc, rows[i])[rows[i].wallet])
  {
    var r := rows[i];
    var before := TimestampsOf(rows[..i], r.wallet);
    TimestampsExtend(rows, i, r.wallet);
    DaysOfAppend(before, r.timestamp);
    if r.wallet !in acc {
      TimestampsOfAbsent(rows[..i], r.wallet);
    }
  }

  /** The tallies of the other wallets are untouched by row `i`. */
  lemma TallyOtherWallet(rows: seq<Row>, i: nat, acc: map<string, Tally>, w: string)
    requires i < |rows| && w in acc && w != rows[i].wallet
    requires TallyOf(TimestampsOf(rows[..i], w), acc[w])
    ensures TallyOf(TimestampsOf(rows[..i + 1], w), AddRow(acc, rows[i])[w])
  {
    TimestampsExtend(rows, i, w);
    assert AddRow(acc, rows[i])[w] == acc[w];
  }

  lemma TallyStep(rows: seq<Row>, i: nat, acc: map<string, Tally>)
    requires i < |rows| && Tallied(rows, i, acc)
    ensures Tallied(rows, i + 1, AddRow(acc, rows[i]))
  {
    var r := rows[i];
    var acc' := AddRow(acc, r);
    assert rows[..i + 1] == rows[..i] + [r];
    assert WalletsOf(rows[..i + 1]) == WalletsOf(rows[..i]) + {r.wallet};
    assert acc'.Keys == acc.Keys + {r.wallet};
    TallyOwnWallet(rows, i, acc);
    forall w | w in acc'
      ensures TallyOf(TimestampsOf(rows[..i + 1], w), acc'[w])
    {
      if w != r.wallet {
        TallyOtherWallet(rows, i, acc, w);
      }
    }
  }

  /** The time aggregates of wallet `w`, stated against the input rows. */
  ghost predicate DescribesTimes(rows: seq<Row>, w: string, s: TimeStats)
  {
    var ts := TimestampsOf(rows, w);
    && s.txCount == |ts|
    && s.activeDays == |DaysOf(ts)|
    && IsMin(s.firstTx, ts)
    && IsMax(s.lastTx, ts)
    && s.firstTx <= s.lastTx
    && 1 <= s.activeDays <= s.txCount
  }

  /**
   * `groupby("userWallet").agg(first_tx=min, last_tx=max, tx_count=count,
   * active_days=nunique(date))`, computed in one scan of the rows.
   */
  method WalletTimes(rows: seq<Row>) returns (m: map<string, TimeStats>)
    ensures m.Keys == WalletsOf(rows)
    ensures forall w :: w in m ==> DescribesTimes(rows, w, m[w])
  {
    var acc: map<string, Tally> := map[];
    var i := 0;
    while i < |rows|
      invariant 0 <= i <= |rows|
      invariant Tallied(rows, i, acc)
    {
      TallyStep(rows, i, acc);
      acc := AddRow(acc, rows[i]);
      i := i + 1;
    }
    assert rows[..|rows|] == rows;
    m := map w | w in acc :: TimeStats(acc[w].first, acc[w].last, acc[w].count, |acc[w].days|);
    forall w | w in m
      ensures DescribesTimes(rows, w, m[w])
    {
      TimestampsOfPresent(rows, w);
      DaysBounds(TimestampsOf(rows, w));
    }
  }

  /**
   * `tx_count / active_days` (line 41). Multiplying back by the day count
   * gives the record count, and a wallet active on at most as many days as it
   * has records averages at least one record per day.
   */
  function AvgTxPerDay(txCount: nat, activeDays: nat): (r: real)
    requires activeDays >= 1
    ensures r * activeDays as real == txCount as real
    ensures activeDays <= txCount ==> r >= 1.0
  {
    txCount as real / activeDays as real
  }
}
