/**
 * The per-wallet feature table (generate_wallet_scores.py lines 43-58): the
 * action pivot merged with the time aggregates, the net position, and the
 * selection of the seven columns that are clustered.
 */
module Features {
  import opened Wrappers
  import opened Transactions
  import opened Amounts
  import opened Pivot
  import opened Activity

  /** One row of `features_df`. */
  datatype WalletFeatures = WalletFeatures(
    wallet: string,
    sums: map<string, real>,
    firstTx: int,
    lastTx: int,
    txCount: nat,
    activeDays: nat,
    avgTxPerDay: real,
    netPosition: real)

  /** `features_df`: the pivot's action columns and one row per wallet. */
  datatype FeatureTable = FeatureTable(columns: set<string>, rows: seq<WalletFeatures>)

  /** What the feature row of a wallet holds, stated against the input rows. */
  ghost predicate DescribesWallet(rows: seq<Row>, f: WalletFeatures)
  {
    && IsPivotRow(rows, f.wallet, f.sums)
    && DescribesTimes(rows, f.wallet, TimeStats(f.firstTx, f.lastTx, f.txCount, f.activeDays))
    && f.avgTxPerDay == f.txCount as real / f.activeDays as real
    && f.avgTxPerDay >= 1.0
    && f.netPosition == SumAmount(rows, f.wallet, "deposit") + SumAmount(rows, f.wallet, "repay")
                        - SumAmount(rows, f.wallet, "borrow") - SumAmount(rows, f.wallet, "redeemUnderlying")
  }

  /** The feature table of `rows`: every wallet exactly once, each row describing its wallet. */
  ghost predicate IsFeatureTable(rows: seq<Row>, t: FeatureTable)
  {
    && t.columns == ActionsOf(rows)
    && (forall i, j :: 0 <= i < j < |t.rows| ==> t.rows[i].wallet != t.rows[j].wallet)
    && (forall w :: w in WalletsOf(rows) <==> exists i :: 0 <= i < |t.rows| && t.rows[i].wallet == w)
    && (forall i :: 0 <= i < |t.rows| ==> DescribesWallet(rows, t.rows[i]))
  }

  /** One merged row: the wallet's pivot row, its time aggregates and its net position. */
  function MergeRow(rows: seq<Row>, w: string, sums: map<string, real>, s: TimeStats): (f: WalletFeatures)
    requires IsPivotRow(rows, w, sums) && DescribesTimes(rows, w, s)
    ensures f.wallet == w && DescribesWallet(rows, f)
  {
    NetPositionOfRecords(rows, w, sums);
    WalletFeatures(w, sums, s.firstTx, s.lastTx, s.txCount, s.activeDays,
                   AvgTxPerDay(s.txCount, s.activeDays), NetPosition(sums))
  }

  /** The pivot rows of `wallets`, in their order: the pivot side of the merge on `userWallet`. */
  method PivotRowsOf(rows: seq<Row>, wallets: seq<string>) returns (ps: seq<map<string, real>>)
    requires forall w :: w in wallets ==> w in WalletsOf(rows)
    ensures |ps| == |wallets|
    ensures forall i :: 0 <= i < |wallets| ==> IsPivotRow(rows, wallets[i], ps[i])
  {
    var pivot := PivotTable(rows);
    ps := seq(|wallets|, i requires 0 <= i < |wallets| => pivot[wallets[i]]);
  }

  /** The time aggregates of `wallets`, in their order: the other side of the merge. */
  method TimeRowsOf(rows: seq<Row>, wallets: seq<string>) returns (ss: seq<TimeStats>)
    requires forall w :: w in wallets ==> w in WalletsOf(rows)
    ensures |ss| == |wallets|
    ensures forall i :: 0 <= i < |wallets| ==> DescribesTimes(rows, wallets[i], ss[i])
  {
    var times := WalletTimes(rows);
    ss := seq(|wallets|, i requires 0 <= i < |wallets| => times[wallets[i]]);
  }

  /** Rows that describe, in order, each wallet of the input exactly once form its feature table. */
  lemma FeatureTableIntro(rows: seq<Row>, wallets: seq<string>, out: seq<WalletFeatures>)
    requires forall i, j :: 0 <= i < j < |wallets| ==> wallets[i] != wallets[j]
    requires forall w :: w in wallets <==> w in WalletsOf(rows)
    requires |out| == |wallets|
    requires forall i :: 0 <= i < |out| ==> out[i].wallet == wallets[i] && DescribesWallet(rows, out[i])
    ensures IsFeatureTable(rows, FeatureTable(ActionsOf(rows), out))
  {
    forall w | w in WalletsOf(rows)
      ensures exists i :: 0 <= i < |out| && out[i].wallet == w
    {
      var i :| 0 <= i < |wallets| && wallets[i] == w;
      assert out[i].wallet == w;
    }
  }

  /**
   * The left merge of the pivot with the time aggregates on `userWallet`
   * (line 44) and the net position column (lines 47-52).
   */
  method BuildFeatures(rows: seq<Row>) returns (t: FeatureTable)
    ensures IsFeatureTable(rows, t)
  {
    var wallets := DistinctWallets(rows);
    var ps := PivotRowsOf(rows, wallets);
    var ss := TimeRowsOf(rows, wallets);
    var out := seq(|wallets|, i requires 0 <= i < |wallets| => MergeRow(rows, wallets[i], ps[i], ss[i]));
    assert forall i :: 0 <= i < |out| ==> out[i].wallet == wallets[i] && DescribesWallet(rows, out[i]);
    t := FeatureTable(ActionsOf(rows), out);
    FeatureTableIntro(rows, wallets, out);
  }

  /**
   * Lines 13-52 from the loaded records: an empty input has no `timestamp`
   * column, a record whose amount `float()` rejects stops the run, and
   * otherwise the feature table is built.
   */
  method ExtractFeatures(recs: seq<Record>) returns (r: Result<FeatureTable, Error>)
    ensures |recs| == 0 ==> r == Failure(EmptyInput)
    ensures |recs| > 0 && AmountColumn(recs).Failure? ==> r == Failure(AmountColumn(recs).error)
    ensures |recs| > 0 && AmountColumn(recs).Success? ==>
              r.Success? && IsFeatureTable(AmountColumn(recs).value, r.value)
              && r.value.columns == ActionsOf(AmountColumn(recs).value)
  {
    if |recs| == 0 {
      r := Failure(EmptyInput);
    } else {
      match AmountColumn(recs)
      case Failure(e) =>
        r := Failure(e);
      case Success(rows) =>
        var t := BuildFeatures(rows);
        r := Success(t);
    }
  }

  /** The action columns that the clustering step selects (line 56). */
  const ClusterActions: set<string> := {"deposit", "repay", "borrow", "liquidationcall"}

  /** One row of `model_features`, the seven clustered columns. */
  datatype ModelRow = ModelRow(
    deposit: real,
    repay: real,
    borrow: real,
    liquidationcall: real,
    netPosition: real,
    activeDays: nat,
    avgTxPerDay: real)

  /**
   * `features_df[[...]]` (lines 55-58): a KeyError naming the missing action
   * columns when an action never occurs, the seven columns otherwise.
   */
  function ModelFeatures(t: FeatureTable): (r: Result<seq<ModelRow>, Error>)
    ensures r.Failure? <==> !(ClusterActions <= t.columns)
    ensures r.Failure? ==> r.error == MissingColumns(ClusterActions - t.columns) && r.error.names != {}
    ensures r.Success? ==>
              && |r.value| == |t.rows|
              && forall i :: 0 <= i < |t.rows| ==>
                   var f := t.rows[i];
                   r.value[i] == ModelRow(Column(f.sums, "deposit"), Column(f.sums, "repay"),
                                          Column(f.sums, "borrow"), Column(f.sums, "liquidationcall"),
                                          f.netPosition, f.activeDays, f.avgTxPerDay)
  {
    if !(ClusterActions <= t.columns) then
      MissingIsNonEmpty(ClusterActions, t.columns);
      Failure(MissingColumns(ClusterActions - t.columns))
    else
      Success(seq(|t.rows|, i requires 0 <= i < |t.rows| =>
        var f := t.rows[i];
        ModelRow(Column(f.sums, "deposit"), Column(f.sums, "repay"), Column(f.sums, "borrow"),
                 Column(f.sums, "liquidationcall"), f.netPosition, f.activeDays, f.avgTxPerDay)))
  }

  /** A set that is not contained in another has an element the other lacks. */
  lemma MissingIsNonEmpty(wanted: set<string>, present: set<string>)
    requires !(wanted <= present)
    ensures wanted - present != {}
  {
    var x :| x in wanted && x !in present;
    assert x in wanted - present;
  }

  /** A row of `model_features` for wallet `w`, stated against the input rows. */
  ghost predicate ModelRowOf(rows: seq<Row>, w: string, m: ModelRow)
  {
    var ts := TimestampsOf(rows, w);
    && m.deposit == SumAmount(rows, w, "deposit")
    && m.repay == SumAmount(rows, w, "repay")
    && m.borrow == SumAmount(rows, w, "borrow")
    && m.liquidationcall == SumAmount(rows, w, "liquidationcall")
    && m.netPosition == m.deposit + m.repay - m.borrow - SumAmount(rows, w, "redeemUnderlying")
    && m.activeDays == |DaysOf(ts)|
    && 1 <= m.activeDays <= |ts|
    && m.avgTxPerDay == |ts| as real / m.activeDays as real
  }

  /** The four selected action columns of a feature row are the wallet's sums. */
  lemma SelectedSums(rows: seq<Row>, f: WalletFeatures)
    requires DescribesWallet(rows, f)
    ensures Column(f.sums, "deposit") == SumAmount(rows, f.wallet, "deposit")
    ensures Column(f.sums, "repay") == SumAmount(rows, f.wallet, "repay")
    ensures Column(f.sums, "borrow") == SumAmount(rows, f.wallet, "borrow")
    ensures Column(f.sums, "liquidationcall") == SumAmount(rows, f.wallet, "liquidationcall")
  {
    ColumnIsSum(rows, f.wallet, f.sums, "deposit");
    ColumnIsSum(rows, f.wallet, f.sums, "repay");
    ColumnIsSum(rows, f.wallet, f.sums, "borrow");
    ColumnIsSum(rows, f.wallet, f.sums, "liquidationcall");
  }

  /** The selected columns of a feature row carry the wallet's sums and time features. */
  lemma SelectedRowDescribes(rows: seq<Row>, f: WalletFeatures)
    requires DescribesWallet(rows, f)
    ensures ModelRowOf(rows, f.wallet, ModelRow(Column(f.sums, "deposit"), Column(f.sums, "repay"),
                                                Column(f.sums, "borrow"), Column(f.sums, "liquidationcall"),
                                                f.netPosition, f.activeDays, f.avgTxPerDay))
  {
    var ts := TimestampsOf(rows, f.wallet);
    assert DescribesTimes(rows, f.wallet, TimeStats(f.firstTx, f.lastTx, f.txCount, f.activeDays));
    assert f.txCount == |ts|;
    SelectedSums(rows, f);
  }

  /** A sequence without repeats has as many distinct elements as positions. */
  lemma {:induction false} DistinctCount(ws: seq<string>)
    requires forall i, j :: 0 <= i < j < |ws| ==> ws[i] != ws[j]
    ensures |set w | w in ws| == |ws|
  {
    if |ws| > 0 {
      var n := |ws| - 1;
      var prefix := ws[..n];
      assert ws == prefix + [ws[n]];
      assert (set w | w in ws) == (set w | w in prefix) + {ws[n]};
      assert ws[n] !in prefix;
      DistinctCount(prefix);
    }
  }

  /** The feature table has exactly one row per wallet of the input. */
  lemma TableSize(rows: seq<Row>, t: FeatureTable)
    requires IsFeatureTable(rows, t)
    ensures |t.rows| == |WalletsOf(rows)|
  {
    var ws := seq(|t.rows|, i requires 0 <= i < |t.rows| => t.rows[i].wallet);
    assert (set w | w in ws) == WalletsOf(rows) by {
      forall w | w in WalletsOf(rows) ensures w in ws {
        var i :| 0 <= i < |t.rows| && t.rows[i].wallet == w;
        assert ws[i] == w;
      }
    }
    DistinctCount(ws);
  }

  /** The row of a wallet whose one record is a deposit of one token. */
  lemma SingleDepositRow(w: string, time: int, f: WalletFeatures)
    requires f.wallet == w && DescribesWallet([Row(w, time, "deposit", 1.0)], f)
    ensures Column(f.sums, "deposit") == 1.0
    ensures f.txCount == 1 && f.activeDays == 1 && f.avgTxPerDay == 1.0
    ensures f.firstTx == time == f.lastTx
    ensures f.netPosition == 1.0
  {
    var rows := [Row(w, time, "deposit", 1.0)];
    assert rows[..0] == [];
    assert TimestampsOf(rows, w) == [time];
    assert DaysOf([time]) == {Day(time)};
    assert SumAmount(rows, w, "deposit") == 1.0;
    assert SumAmount(rows, w, "repay") == SumAmount(rows, w, "borrow") == 0.0;
    assert SumAmount(rows, w, "redeemUnderlying") == 0.0;
    ColumnIsSum(rows, w, f.sums, "deposit");
  }

  /**
   * A wallet with a single deposit of one token: its feature row has the
   * deposit 1.0, one record on one active day, and 1.0 records per day.
   */
  lemma SingleDepositScenario(w: string, time: int, t: FeatureTable)
    requires IsFeatureTable([Row(w, time, "deposit", 1.0)], t)
    ensures |t.rows| == 1
    ensures var f := t.rows[0];
            && f.wallet == w
            && Column(f.sums, "deposit") == 1.0
            && f.txCount == 1 && f.activeDays == 1 && f.avgTxPerDay == 1.0
            && f.firstTx == time == f.lastTx
            && f.netPosition == 1.0
  {
    var rows := [Row(w, time, "deposit", 1.0)];
    assert WalletsOf(rows) == {w};
    TableSize(rows, t);
    assert t.rows[0].wallet in WalletsOf(rows);
    SingleDepositRow(w, time, t.rows[0]);
  }
}
