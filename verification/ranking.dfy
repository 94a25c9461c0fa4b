/**
 * Cluster ranking and score assignment (generate_wallet_scores.py lines
 * 69-99). The clusters that occur are summarised by the sums of five
 * feature columns, combined into a score metric rounded to two decimals,
 * ranked in descending order with ties sharing the lowest rank, and each
 * rank is mapped to a fixed credit score that every member wallet receives.
 */
module Ranking {
  import opened Wrappers
  import opened Features
  import opened Rounding

  /** `KMeans(n_clusters=5)`: labels lie in 0..4. */
  const NumClusters: int := 5

  /** A labelling of `n` wallets, one cluster label in 0..4 per wallet. */
  predicate ValidLabels(labels: seq<int>, n: nat)
  {
    |labels| == n && forall i :: 0 <= i < |labels| ==> 0 <= labels[i] < NumClusters
  }

  /** The labels from `c` up that occur in `labels`, in ascending order. */
  function ClustersFrom(labels: seq<int>, c: int): seq<int>
    requires 0 <= c <= NumClusters
    decreases NumClusters - c
  {
    if c == NumClusters then []
    else (if c in labels then [c] else []) + ClustersFrom(labels, c + 1)
  }

  /** The groups of `groupby("cluster")`: the labels that occur, in ascending order. */
  function Clusters(labels: seq<int>): seq<int>
  {
    ClustersFrom(labels, 0)
  }

  /** There are at most as many clusters from `c` up as labels in c..4. */
  lemma {:induction false} ClustersFromLength(labels: seq<int>, c: int)
    requires 0 <= c <= NumClusters
    ensures |ClustersFrom(labels, c)| <= NumClusters - c
    decreases NumClusters - c
  {
    if c < NumClusters {
      ClustersFromLength(labels, c + 1);
    }
  }

  /** Every cluster from `c` up is a label in c..4 that occurs in `labels`. */
  lemma {:induction false} ClustersFromSound(labels: seq<int>, c: int)
    requires 0 <= c <= NumClusters
    ensures forall i :: 0 <= i < |ClustersFrom(labels, c)| ==>
              c <= ClustersFrom(labels, c)[i] < NumClusters && ClustersFrom(labels, c)[i] in labels
    decreases NumClusters - c
  {
    if c < NumClusters {
      ClustersFromSound(labels, c + 1);
    }
  }

  /** The clusters from `c` up are strictly ascending, so none is listed twice. */
  lemma {:induction false} ClustersFromAscending(labels: seq<int>, c: int)
    requires 0 <= c <= NumClusters
    ensures forall i, j :: 0 <= i < j < |ClustersFrom(labels, c)| ==> ClustersFrom(labels, c)[i] < ClustersFrom(labels, c)[j]
    decreases NumClusters - c
  {
    if c < NumClusters {
      ClustersFromSound(labels, c + 1);
      ClustersFromAscending(labels, c + 1);
    }
  }

  /** Every label in c..4 that occurs in `labels` is among the clusters from `c` up. */
  lemma {:induction false} ClustersFromComplete(labels: seq<int>, c: int)
    requires 0 <= c <= NumClusters
    ensures forall d :: c <= d < NumClusters && d in labels ==> d in ClustersFrom(labels, c)
    decreases NumClusters - c
  {
    if c < NumClusters {
      var rest := ClustersFrom(labels, c + 1);
      assert ClustersFrom(labels, c) == (if c in labels then [c] else []) + rest;
      ClustersFromComplete(labels, c + 1);
    }
  }

  /** Every label of a valid labelling occurs in `Clusters` exactly once; there are at most five. */
  lemma ClustersFacts(labels: seq<int>)
    requires ValidLabels(labels, |labels|)
    ensures var cs := Clusters(labels);
            && |cs| <= NumClusters
            && (forall i, j :: 0 <= i < j < |cs| ==> cs[i] < cs[j])
            && (forall c :: c in cs <==> c in labels)
  {
    ClustersFromLength(labels, 0);
    ClustersFromSound(labels, 0);
    ClustersFromAscending(labels, 0);
    ClustersFromComplete(labels, 0);
  }

  /** The five columns summed per cluster (lines 69-75). */
  datatype Column = Deposit | Repay | Borrow | LiquidationCall | NetPosition

  function Get(r: ModelRow, col: Column): real
  {
    match col
    case Deposit => r.deposit
    case Repay => r.repay
    case Borrow => r.borrow
    case LiquidationCall => r.liquidationcall
    case NetPosition => r.netPosition
  }

  /** The sum of one column over the members of cluster `c`. */
  function MemberTotal(rows: seq<ModelRow>, labels: seq<int>, c: int, col: Column): real
    requires |labels| == |rows|
  {
    if |rows| == 0 then 0.0
    else
      var n := |rows| - 1;
      MemberTotal(rows[..n], labels[..n], c, col) + (if labels[n] == c then Get(rows[n], col) else 0.0)
  }

  /** One wallet's contribution to its cluster's metric. */
  function MemberHealth(r: ModelRow): real
  {
    r.deposit + r.repay - r.borrow - r.liquidationcall + r.netPosition
  }

  /** Reference definition: the members' contributions to cluster `c`, summed. */
  function HealthTotal(rows: seq<ModelRow>, labels: seq<int>, c: int): real
    requires |labels| == |rows|
  {
    if |rows| == 0 then 0.0
    else
      var n := |rows| - 1;
      HealthTotal(rows[..n], labels[..n], c) + (if labels[n] == c then MemberHealth(rows[n]) else 0.0)
  }

  /** Combining the column sums is the same as summing the members' combined values. */
  lemma {:induction false} MetricIsMemberSum(rows: seq<ModelRow>, labels: seq<int>, c: int)
    requires |labels| == |rows|
    ensures MemberTotal(rows, labels, c, Deposit) + MemberTotal(rows, labels, c, Repay)
            - MemberTotal(rows, labels, c, Borrow) - MemberTotal(rows, labels, c, LiquidationCall)
            + MemberTotal(rows, labels, c, NetPosition)
            == HealthTotal(rows, labels, c)
  {
    if |rows| > 0 {
      var n := |rows| - 1;
      MetricIsMemberSum(rows[..n], labels[..n], c);
    }
  }

  /** One row of `score_summary`. */
  datatype ClusterSummary = ClusterSummary(
    cluster: int,
    deposit: real,
    repay: real,
    borrow: real,
    liquidationcall: real,
    netPosition: real,
    scoreMetric: real)

  /** Reference definition of a cluster's score metric: its members' summed contributions, rounded. */
  function ClusterMetric(rows: seq<ModelRow>, labels: seq<int>, c: int): real
    requires |labels| == |rows|
  {
    Round2(HealthTotal(rows, labels, c))
  }

  /** The summary of cluster `c`: the five column sums and the rounded metric (lines 69-83). */
  function Summarize(rows: seq<ModelRow>, labels: seq<int>, c: int): (s: ClusterSummary)
    requires |labels| == |rows|
    ensures s.cluster == c
    ensures s.scoreMetric == ClusterMetric(rows, labels, c)
  {
    var d := MemberTotal(rows, labels, c, Deposit);
    var r := MemberTotal(rows, labels, c, Repay);
    var b := MemberTotal(rows, labels, c, Borrow);
    var l := MemberTotal(rows, labels, c, LiquidationCall);
    var n := MemberTotal(rows, labels, c, NetPosition);
    MetricIsMemberSum(rows, labels, c);
    ClusterSummary(c, d, r, b, l, n, Round2(d + r - b - l + n))
  }

  /** How many of `ms` are strictly greater than `x`. */
  function CountAbove(ms: seq<real>, x: real): nat
  {
    if |ms| == 0 then 0
    else
      var n := |ms| - 1;
      CountAbove(ms[..n], x) + (if ms[n] > x then 1 else 0)
  }

  /** A value of `ms` is not above itself, so fewer than |ms| values are above it. */
  lemma {:induction false} CountAboveMember(ms: seq<real>, x: real)
    requires x in ms
    ensures CountAbove(ms, x) < |ms|
  {
    var n := |ms| - 1;
    assert ms == ms[..n] + [ms[n]];
    if ms[n] != x {
      CountAboveMember(ms[..n], x);
    } else {
      CountAboveAtMost(ms[..n], x);
    }
  }

  lemma {:induction false} CountAboveAtMost(ms: seq<real>, x: real)
    ensures CountAbove(ms, x) <= |ms|
  {
    if |ms| > 0 {
      CountAboveAtMost(ms[..|ms| - 1], x);
    }
  }

  /** Raising the threshold never adds values above it. */
  lemma {:induction false} CountAboveMonotone(ms: seq<real>, x: real, y: real)
    requires y <= x
    ensures CountAbove(ms, x) <= CountAbove(ms, y)
  {
    if |ms| > 0 {
      CountAboveMonotone(ms[..|ms| - 1], x, y);
    }
  }

  /** A value of `ms` above `y` is itself counted above `y`, but not above itself. */
  lemma {:induction false} CountAboveStrict(ms: seq<real>, x: real, y: real)
    requires x in ms && y < x
    ensures CountAbove(ms, x) < CountAbove(ms, y)
  {
    var n := |ms| - 1;
    assert ms == ms[..n] + [ms[n]];
    if ms[n] == x {
      CountAboveMonotone(ms[..n], x, y);
    } else {
      CountAboveStrict(ms[..n], x, y);
    }
  }

  /** Nothing is above a maximum. */
  lemma {:induction false} CountAboveMaximum(ms: seq<real>, x: real)
    requires forall i :: 0 <= i < |ms| ==> ms[i] <= x
    ensures CountAbove(ms, x) == 0
  {
    if |ms| > 0 {
      CountAboveMaximum(ms[..|ms| - 1], x);
    }
  }

  /** A non-empty sequence has a position holding its maximum. */
  lemma {:induction false} MaximumExists(ms: seq<real>) returns (k: nat)
    requires |ms| > 0
    ensures k < |ms| && forall i :: 0 <= i < |ms| ==> ms[i] <= ms[k]
  {
    if |ms| == 1 {
      k := 0;
    } else {
      var n := |ms| - 1;
      var j := MaximumExists(ms[..n]);
      assert forall i :: 0 <= i < n ==> ms[..n][i] == ms[i];
      k := if ms[n] > ms[j] then n else j;
    }
  }

  /**
   * `rank(ascending=False, method='min')` (line 85): the rank of a value is
   * one more than the number of values strictly greater than it.
   */
  method RankMin(ms: seq<real>) returns (ranks: seq<int>)
    ensures |ranks| == |ms|
    ensures forall i :: 0 <= i < |ms| ==> ranks[i] == 1 + CountAbove(ms, ms[i])
    ensures forall i :: 0 <= i < |ms| ==> 1 <= ranks[i] <= |ms|
    ensures forall i, j :: 0 <= i < |ms| && 0 <= j < |ms| && ms[i] == ms[j] ==> ranks[i] == ranks[j]
    ensures forall i, j :: 0 <= i < |ms| && 0 <= j < |ms| && ms[i] > ms[j] ==> ranks[i] < ranks[j]
    ensures |ms| > 0 ==> exists i :: 0 <= i < |ms| && ranks[i] == 1
  {
    ranks := [];
    var i := 0;
    while i < |ms|
      invariant 0 <= i <= |ms| && |ranks| == i
      invariant forall k :: 0 <= k < i ==> ranks[k] == 1 + CountAbove(ms, ms[k])
    {
      var above := 0;
      var j := 0;
      while j < |ms|
        invariant 0 <= j <= |ms|
        invariant above == CountAbove(ms[..j], ms[i])
      {
        assert ms[..j + 1][..j] == ms[..j];
        if ms[j] > ms[i] {
          above := above + 1;
        }
        j := j + 1;
      }
      assert ms[..|ms|] == ms;
      ranks := ranks + [1 + above];
      i := i + 1;
    }
    forall k | 0 <= k < |ms|
      ensures 1 <= ranks[k] <= |ms|
    {
      CountAboveMember(ms, ms[k]);
    }
    forall k, l | 0 <= k < |ms| && 0 <= l < |ms| && ms[k] > ms[l]
      ensures ranks[k] < ranks[l]
    {
      CountAboveStrict(ms, ms[k], ms[l]);
    }
    if |ms| > 0 {
      var top := MaximumExists(ms);
      CountAboveMaximum(ms, ms[top]);
    }
  }

  /** The credit score for each rank (lines 88-94). */
  const RankToScore: map<int, int> := map[1 := 1000, 2 := 750, 3 := 500, 4 := 250, 5 := 100]

  /** The five credit scores a wallet can receive. */
  const ScoreBands: set<int> := {1000, 750, 500, 250, 100}

  /** `rank_to_score[rank]`: None where the dictionary has no such key. */
  function ScoreForRank(rank: int): (r: Option<int>)
    ensures r.Some? <==> 1 <= rank <= NumClusters
    ensures r.Some? ==> r.value in ScoreBands
  {
    if rank in RankToScore then Some(RankToScore[rank]) else None
  }

  /** A better (smaller) rank always maps to a strictly higher score. */
  lemma ScoreDecreasesWithRank(r1: int, r2: int)
    requires 1 <= r1 < r2 <= NumClusters
    ensures ScoreForRank(r1).value > ScoreForRank(r2).value
  {
  }

  /** A rank no worse than another maps to a score no lower. */
  lemma ScoreNonIncreasingInRank(r1: int, r2: int)
    requires 1 <= r1 <= r2 <= NumClusters
    ensures ScoreForRank(r1).value >= ScoreForRank(r2).value
  {
  }

  /** The metrics of the clusters that occur, in the order of `Clusters`. */
  function Metrics(rows: seq<ModelRow>, labels: seq<int>): (ms: seq<real>)
    requires ValidLabels(labels, |rows|)
  {
    var cs := Clusters(labels);
    seq(|cs|, k requires 0 <= k < |cs| => ClusterMetric(rows, labels, cs[k]))
  }

  /** Reference definition of a cluster's rank: 1 + the number of clusters with a greater metric. */
  function ClusterRank(rows: seq<ModelRow>, labels: seq<int>, c: int): int
    requires ValidLabels(labels, |rows|)
  {
    1 + CountAbove(Metrics(rows, labels), ClusterMetric(rows, labels, c))
  }

  /** The rank of a cluster that occurs lies in 1..(number of clusters), so 1..5. */
  lemma RankInRange(rows: seq<ModelRow>, labels: seq<int>, c: int)
    requires ValidLabels(labels, |rows|) && c in labels
    ensures 1 <= ClusterRank(rows, labels, c) <= |Clusters(labels)| <= NumClusters
  {
    var cs := Clusters(labels);
    ClustersFacts(labels);
    var k :| 0 <= k < |cs| && cs[k] == c;
    assert Metrics(rows, labels)[k] == ClusterMetric(rows, labels, c);
    CountAboveMember(Metrics(rows, labels), ClusterMetric(rows, labels, c));
  }

  /** The lookup `rank_to_score[cluster_to_rank[c]]` (line 98) never misses. */
  lemma LookupNeverMisses(rows: seq<ModelRow>, labels: seq<int>, i: int)
    requires ValidLabels(labels, |rows|) && 0 <= i < |rows|
    ensures ScoreForRank(ClusterRank(rows, labels, labels[i])).Some?
  {
    RankInRange(rows, labels, labels[i]);
  }

  /** A cluster with a strictly greater metric than another has a strictly smaller rank. */
  lemma RankStrictlyMonotone(rows: seq<ModelRow>, labels: seq<int>, c: int, d: int)
    requires ValidLabels(labels, |rows|) && c in labels
    requires ClusterMetric(rows, labels, c) > ClusterMetric(rows, labels, d)
    ensures ClusterRank(rows, labels, c) < ClusterRank(rows, labels, d)
  {
    var cs := Clusters(labels);
    ClustersFacts(labels);
    var k :| 0 <= k < |cs| && cs[k] == c;
    assert Metrics(rows, labels)[k] == ClusterMetric(rows, labels, c);
    CountAboveStrict(Metrics(rows, labels), ClusterMetric(rows, labels, c), ClusterMetric(rows, labels, d));
  }

  /** A cluster whose unrounded total is at least another's never ranks behind it. */
  lemma RankMonotone(rows: seq<ModelRow>, labels: seq<int>, c: int, d: int)
    requires ValidLabels(labels, |rows|)
    requires HealthTotal(rows, labels, c) >= HealthTotal(rows, labels, d)
    ensures ClusterRank(rows, labels, c) <= ClusterRank(rows, labels, d)
  {
    Round2Monotone(HealthTotal(rows, labels, d), HealthTotal(rows, labels, c));
    CountAboveMonotone(Metrics(rows, labels), ClusterMetric(rows, labels, c), ClusterMetric(rows, labels, d));
  }

  /** The score each wallet receives: its cluster's rank, looked up in the score table. */
  function WalletScore(rows: seq<ModelRow>, labels: seq<int>, i: int): int
    requires ValidLabels(labels, |rows|) && 0 <= i < |rows|
  {
    LookupNeverMisses(rows, labels, i);
    ScoreForRank(ClusterRank(rows, labels, labels[i])).value
  }

  /** A wallet in a cluster with a strictly greater metric receives a strictly higher score. */
  lemma WalletScoreStrictlyMonotone(rows: seq<ModelRow>, labels: seq<int>, i: int, j: int)
    requires ValidLabels(labels, |rows|) && 0 <= i < |rows| && 0 <= j < |rows|
    requires ClusterMetric(rows, labels, labels[i]) > ClusterMetric(rows, labels, labels[j])
    ensures WalletScore(rows, labels, i) > WalletScore(rows, labels, j)
  {
    assert labels[i] in labels && labels[j] in labels;
    RankStrictlyMonotone(rows, labels, labels[i], labels[j]);
    RankInRange(rows, labels, labels[i]);
    RankInRange(rows, labels, labels[j]);
    ScoreDecreasesWithRank(ClusterRank(rows, labels, labels[i]), ClusterRank(rows, labels, labels[j]));
  }

  /** Wallets in clusters with equal metrics, in particular in the same cluster, receive equal scores. */
  lemma WalletScoreTies(rows: seq<ModelRow>, labels: seq<int>, i: int, j: int)
    requires ValidLabels(labels, |rows|) && 0 <= i < |rows| && 0 <= j < |rows|
    requires ClusterMetric(rows, labels, labels[i]) == ClusterMetric(rows, labels, labels[j])
    ensures WalletScore(rows, labels, i) == WalletScore(rows, labels, j)
  {
  }

  /** A wallet whose cluster's unrounded total is at least another's never scores lower. */
  lemma WalletScoreMonotone(rows: seq<ModelRow>, labels: seq<int>, i: int, j: int)
    requires ValidLabels(labels, |rows|) && 0 <= i < |rows| && 0 <= j < |rows|
    requires HealthTotal(rows, labels, labels[i]) >= HealthTotal(rows, labels, labels[j])
    ensures WalletScore(rows, labels, i) >= WalletScore(rows, labels, j)
  {
    assert labels[i] in labels && labels[j] in labels;
    RankMonotone(rows, labels, labels[i], labels[j]);
    RankInRange(rows, labels, labels[i]);
    RankInRange(rows, labels, labels[j]);
    var ri, rj := ClusterRank(rows, labels, labels[i]), ClusterRank(rows, labels, labels[j]);
    assert WalletScore(rows, labels, i) == ScoreForRank(ri).value;
    assert WalletScore(rows, labels, j) == ScoreForRank(rj).value;
    ScoreNonIncreasingInRank(ri, rj);
  }

  lemma TopRankScore(rows: seq<ModelRow>, labels: seq<int>, i: int)
    requires ValidLabels(labels, |rows|) && 0 <= i < |rows|
    requires ClusterRank(rows, labels, labels[i]) == 1
    ensures WalletScore(rows, labels, i) == 1000
  {
    assert ScoreForRank(1) == Some(1000);
  }

  /** Some wallet belongs to a cluster whose metric no other cluster exceeds, of rank 1. */
  lemma RankOneOccupied(rows: seq<ModelRow>, labels: seq<int>) returns (i: int)
    requires ValidLabels(labels, |rows|) && |rows| > 0
    ensures 0 <= i < |rows| && ClusterRank(rows, labels, labels[i]) == 1
  {
    var cs := Clusters(labels);
    ClustersFacts(labels);
    assert labels[0] in labels;
    var ms := Metrics(rows, labels);
    var k := MaximumExists(ms);
    assert cs[k] in labels;
    i :| 0 <= i < |labels| && labels[i] == cs[k];
    assert ms[k] == ClusterMetric(rows, labels, labels[i]);
    CountAboveMaximum(ms, ms[k]);
  }

  /** Some wallet, one in a cluster with the greatest metric, receives the top score 1000. */
  lemma TopScoreAwarded(rows: seq<ModelRow>, labels: seq<int>) returns (i: int)
    requires ValidLabels(labels, |rows|) && |rows| > 0
    ensures 0 <= i < |rows| && WalletScore(rows, labels, i) == 1000
  {
    i := RankOneOccupied(rows, labels);
    TopRankScore(rows, labels, i);
  }

  /** `score_summary["rank"].to_dict()`: each cluster of `cs` mapped to its rank. */
  function RankTable(cs: seq<int>, ranks: seq<int>): (m: map<int, int>)
    requires |cs| == |ranks|
    requires forall i, j :: 0 <= i < j < |cs| ==> cs[i] < cs[j]
    ensures forall k :: 0 <= k < |cs| ==> cs[k] in m && m[cs[k]] == ranks[k]
    ensures forall c :: c in m <==> c in cs
  {
    if |cs| == 0 then map[]
    else
      var n := |cs| - 1;
      assert cs == cs[..n] + [cs[n]];
      RankTable(cs[..n], ranks[..n])[cs[n] := ranks[n]]
  }

  /** `features_df["cluster"].map(lambda c: rank_to_score[cluster_to_rank[c]])` (lines 97-99). */
  method LookupScores(labels: seq<int>, clusterToRank: map<int, int>) returns (scores: seq<int>)
    requires forall c :: c in labels ==> c in clusterToRank && 1 <= clusterToRank[c] <= NumClusters
    ensures |scores| == |labels|
    ensures forall i :: 0 <= i < |labels| ==>
              labels[i] in clusterToRank && ScoreForRank(clusterToRank[labels[i]]) == Some(scores[i])
  {
    scores := [];
    for i := 0 to |labels|
      invariant |scores| == i
      invariant forall j :: 0 <= j < i ==>
                  labels[j] in clusterToRank && ScoreForRank(clusterToRank[labels[j]]) == Some(scores[j])
    {
      var c := labels[i];
      assert c in labels;
      scores := scores + [ScoreForRank(clusterToRank[c]).value];
    }
  }

  /** The `score_metric` column of `score_summary`, computed from the column sums. */
  function SummaryMetrics(rows: seq<ModelRow>, labels: seq<int>): (ms: seq<real>)
    requires ValidLabels(labels, |rows|)
    ensures |ms| == |Clusters(labels)|
    ensures forall k :: 0 <= k < |ms| ==> ms[k] == ClusterMetric(rows, labels, Clusters(labels)[k])
  {
    var cs := Clusters(labels);
    var summaries := seq(|cs|, k requires 0 <= k < |cs| => Summarize(rows, labels, cs[k]));
    seq(|cs|, k requires 0 <= k < |cs| => summaries[k].scoreMetric)
  }

  /** `score_summary["rank"]` (line 85): the rank of each cluster, in `Clusters` order. */
  method RankClusters(rows: seq<ModelRow>, labels: seq<int>) returns (ranks: seq<int>)
    requires ValidLabels(labels, |rows|)
    ensures |ranks| == |Clusters(labels)|
    ensures forall k :: 0 <= k < |ranks| ==> ranks[k] == ClusterRank(rows, labels, Clusters(labels)[k])
  {
    var metrics := SummaryMetrics(rows, labels);
    assert metrics == Metrics(rows, labels);
    ranks := RankMin(metrics);
  }

  /** A table that maps each cluster to its rank covers every label, with ranks in 1..5. */
  lemma RankTableEntry(rows: seq<ModelRow>, labels: seq<int>, ranks: seq<int>, table: map<int, int>, c: int)
    requires ValidLabels(labels, |rows|) && c in labels
    requires |ranks| == |Clusters(labels)|
    requires forall k :: 0 <= k < |ranks| ==> ranks[k] == ClusterRank(rows, labels, Clusters(labels)[k])
    requires forall k :: 0 <= k < |ranks| ==> Clusters(labels)[k] in table && table[Clusters(labels)[k]] == ranks[k]
    ensures c in table && table[c] == ClusterRank(rows, labels, c) && 1 <= table[c] <= NumClusters
  {
    ClustersFacts(labels);
    var k :| 0 <= k < |ranks| && Clusters(labels)[k] == c;
    RankInRange(rows, labels, c);
  }

  /**
   * Lines 69-95: summarise the clusters, rank their metrics and build
   * `cluster_to_rank`; every cluster that occurs gets its rank, in 1..5.
   */
  method ClusterRanks(rows: seq<ModelRow>, labels: seq<int>) returns (clusterToRank: map<int, int>)
    requires ValidLabels(labels, |rows|)
    ensures forall c :: c in labels ==> c in clusterToRank && clusterToRank[c] == ClusterRank(rows, labels, c)
    ensures forall c :: c in labels ==> c in clusterToRank && 1 <= clusterToRank[c] <= NumClusters
    ensures forall c :: c in clusterToRank <==> c in labels
  {
    var ranks := RankClusters(rows, labels);
    ClustersFacts(labels);
    clusterToRank := RankTable(Clusters(labels), ranks);
    forall c | c in labels
      ensures c in clusterToRank && clusterToRank[c] == ClusterRank(rows, labels, c)
      ensures 1 <= clusterToRank[c] <= NumClusters
    {
      RankTableEntry(rows, labels, ranks, clusterToRank, c);
    }
  }

  /**
   * Lines 69-99: every wallet gets the score of its cluster's rank, which
   * is one of the five bands.
   */
  method AssignScores(rows: seq<ModelRow>, labels: seq<int>) returns (scores: seq<int>)
    requires ValidLabels(labels, |rows|)
    ensures |scores| == |rows|
    ensures forall i :: 0 <= i < |rows| ==> scores[i] in ScoreBands
    ensures forall i :: 0 <= i < |rows| ==> ScoreForRank(ClusterRank(rows, labels, labels[i])) == Some(scores[i])
    ensures forall i :: 0 <= i < |rows| ==> scores[i] == WalletScore(rows, labels, i)
  {
    var clusterToRank := ClusterRanks(rows, labels);
    scores := LookupScores(labels, clusterToRank);
    forall i | 0 <= i < |rows|
      ensures ScoreForRank(ClusterRank(rows, labels, labels[i])) == Some(scores[i])
    {
      assert labels[i] in labels;
    }
  }
}
