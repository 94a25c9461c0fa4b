/**
 * The whole scoring run of generate_wallet_scores.py, from the loaded
 * records to the `userWallet, credit_score_kmeans, cluster` table written at
 * lines 101-103. The scaling and KMeans step (lines 60-66) is a parameter.
 */
module Pipeline {
  import opened Wrappers
  import opened Transactions
  import opened Amounts
  import opened Activity
  import opened Features
  import opened Ranking

  /** One row of the output table. */
  datatype ScoredWallet = ScoredWallet(wallet: string, creditScore: int, cluster: int)

  /**
   * `model_features` as KMeans receives it: each selected row with the wallet
   * that indexes it, in the order of the feature table.
   */
  type Keyed = seq<(string, ModelRow)>

  /** The feature rows of a keyed table, without their wallets. */
  function Points(keyed: Keyed): (m: seq<ModelRow>)
    ensures |m| == |keyed|
    ensures forall i :: 0 <= i < |m| ==> m[i] == keyed[i].1
  {
    seq(|keyed|, i requires 0 <= i < |keyed| => keyed[i].1)
  }

  /** `model_features` for the feature table `t`, whose selected rows are `model`. */
  function KeyedRows(t: FeatureTable, model: seq<ModelRow>): (keyed: Keyed)
    requires |model| == |t.rows|
    ensures |keyed| == |t.rows|
    ensures forall i :: 0 <= i < |keyed| ==> keyed[i] == (t.rows[i].wallet, model[i])
  {
    seq(|model|, i requires 0 <= i < |model| => (t.rows[i].wallet, model[i]))
  }

  /** The scores of the wallets of `keyed`, given their clustering `labels`. */
  method ScoreTable(keyed: Keyed, labels: seq<int>) returns (out: seq<ScoredWallet>)
    requires ValidLabels(labels, |keyed|)
    ensures |out| == |keyed|
    ensures forall i :: 0 <= i < |out| ==>
              && out[i].wallet == keyed[i].0
              && out[i].cluster == labels[i]
              && out[i].creditScore == WalletScore(Points(keyed), labels, i)
              && out[i].creditScore in ScoreBands
  {
    var scores := AssignScores(Points(keyed), labels);
    out := seq(|keyed|, i requires 0 <= i < |keyed| => ScoredWallet(keyed[i].0, scores[i], labels[i]));
  }

  /** What a successful run returns, stated against the amount-annotated rows. */
  ghost predicate ScoredRun(rows: seq<Row>, out: seq<ScoredWallet>, clustered: Keyed, labels: seq<int>)
  {
    && |out| == |clustered| == |labels| == |WalletsOf(rows)|
    && (forall i, j :: 0 <= i < j < |out| ==> out[i].wallet != out[j].wallet)
    && (forall w :: w in WalletsOf(rows) <==> exists i :: 0 <= i < |out| && out[i].wallet == w)
    && ValidLabels(labels, |clustered|)
    && (forall i :: 0 <= i < |out| ==>
          && out[i].wallet == clustered[i].0
          && ModelRowOf(rows, out[i].wallet, clustered[i].1)
          && out[i].cluster == labels[i]
          && out[i].creditScore == WalletScore(Points(clustered), labels, i)
          && out[i].creditScore in ScoreBands)
  }

  /** The wallet-indexed selected rows of a feature table describe, row by row, the wallets of the input. */
  lemma ModelRowsDescribe(rows: seq<Row>, t: FeatureTable, model: seq<ModelRow>)
    requires IsFeatureTable(rows, t) && ModelFeatures(t) == Success(model)
    ensures |model| == |t.rows| == |WalletsOf(rows)|
    ensures var keyed := KeyedRows(t, model);
            forall i :: 0 <= i < |keyed| ==>
              keyed[i].0 == t.rows[i].wallet && ModelRowOf(rows, keyed[i].0, keyed[i].1)
  {
    TableSize(rows, t);
    forall i | 0 <= i < |model|
      ensures ModelRowOf(rows, t.rows[i].wallet, model[i])
    {
      SelectedRowDescribes(rows, t.rows[i]);
    }
  }

  /** Scoring the wallet-indexed rows of a feature table gives a run's result. */
  lemma ScoredRunIntro(rows: seq<Row>, t: FeatureTable, keyed: Keyed, labels: seq<int>, out: seq<ScoredWallet>)
    requires IsFeatureTable(rows, t) && |t.rows| == |WalletsOf(rows)|
    requires |keyed| == |t.rows| && ValidLabels(labels, |keyed|)
    requires forall i :: 0 <= i < |keyed| ==>
               keyed[i].0 == t.rows[i].wallet && ModelRowOf(rows, keyed[i].0, keyed[i].1)
    requires |out| == |keyed|
    requires forall i :: 0 <= i < |out| ==>
               && out[i].wallet == keyed[i].0
               && out[i].cluster == labels[i]
               && out[i].creditScore == WalletScore(Points(keyed), labels, i)
               && out[i].creditScore in ScoreBands
    ensures ScoredRun(rows, out, keyed, labels)
  {
    forall w | w in WalletsOf(rows)
      ensures exists i :: 0 <= i < |out| && out[i].wallet == w
    {
      var i :| 0 <= i < |t.rows| && t.rows[i].wallet == w;
      assert out[i].wallet == w;
    }
  }

  /** Lines 55-103 for a feature table: select, cluster, rank and score. */
  method ScoreFeatures(ghost rows: seq<Row>, t: FeatureTable, kmeans: Keyed -> seq<int>)
    returns (r: Result<seq<ScoredWallet>, Error>, clustered: Keyed)
    requires forall s :: ValidLabels(kmeans(s), |s|)
    requires IsFeatureTable(rows, t)
    ensures !(ClusterActions <= ActionsOf(rows)) ==> r == Failure(MissingColumns(ClusterActions - ActionsOf(rows)))
    ensures ClusterActions <= ActionsOf(rows) && |WalletsOf(rows)| < NumClusters ==>
              r == Failure(TooFewWallets(|WalletsOf(rows)|))
    ensures ClusterActions <= ActionsOf(rows) && |WalletsOf(rows)| >= NumClusters ==>
              r.Success? && ScoredRun(rows, r.value, clustered, kmeans(clustered))
  {
    clustered := [];
    match ModelFeatures(t)
    case Failure(e) =>
      r := Failure(e);
    case Success(model) =>
      ModelRowsDescribe(rows, t, model);
      if |model| < NumClusters {
        r := Failure(TooFewWallets(|model|));
      } else {
        clustered := KeyedRows(t, model);
        var labels := kmeans(clustered);
        var out := ScoreTable(clustered, labels);
        ScoredRunIntro(rows, t, clustered, labels, out);
        r := Success(out);
      }
  }

  /**
   * Lines 9-103 with `kmeans` standing for the scaler and KMeans. The run
   * fails on an empty input, on an amount `float()` rejects, when one of the
   * four clustered actions never occurs, and with fewer wallets than
   * clusters; otherwise every wallet gets exactly one row and one of the
   * five scores. `clustered` is `model_features`, the wallet-indexed rows
   * KMeans labels; KMeans may depend on their order and on the wallets.
   */
  method Run(recs: seq<Record>, kmeans: Keyed -> seq<int>)
    returns (r: Result<seq<ScoredWallet>, Error>, clustered: Keyed)
    requires forall t :: ValidLabels(kmeans(t), |t|)
    ensures |recs| == 0 ==> r == Failure(EmptyInput)
    ensures |recs| > 0 && AmountColumn(recs).Failure? ==> r == Failure(AmountColumn(recs).error)
    ensures |recs| > 0 && AmountColumn(recs).Success? ==>
              var rows := AmountColumn(recs).value;
              && (!(ClusterActions <= ActionsOf(rows)) ==>
                    r == Failure(MissingColumns(ClusterActions - ActionsOf(rows))))
              && (ClusterActions <= ActionsOf(rows) && |WalletsOf(rows)| < NumClusters ==>
                    r == Failure(TooFewWallets(|WalletsOf(rows)|)))
              && (ClusterActions <= ActionsOf(rows) && |WalletsOf(rows)| >= NumClusters ==>
                    r.Success? && ScoredRun(rows, r.value, clustered, kmeans(clustered)))
  {
    var fr := ExtractFeatures(recs);
    if fr.Failure? {
      r, clustered := Failure(fr.error), [];
    } else {
      r, clustered := ScoreFeatures(AmountColumn(recs).value, fr.value, kmeans);
    }
  }
}
