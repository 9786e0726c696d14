/**
  The offline trainer: turning stored rows into a feature matrix, filling
  missing entries, choosing which of the two clusters means "pump on", and the
  wrapper that maps cluster labels to 0/1 predictions. The k-means fit itself and
  the medians are inputs; cluster assignment of a new row is nearest centroid.
 */
module Trainer {
  import opened Wrappers

  /** Width of a feature row: temperature, humidity, soil moisture. */
  const FeatureCount: nat := 3

  /** Column of soil moisture in a feature row. */
  const SoilIndex: nat := 2

  /** Below this many rows training only warns. */
  const WarnBelowRows: nat := 10

  const NoDataError := "No sensor data found to train the model."

  /** One row of the ordered query; a NULL column reads as None (NaN after the float cast). */
  datatype DbRow = DbRow(temperature: Option<real>, humidity: Option<real>, soilMoisture: Option<real>, timestamp: int)

  /** A feature matrix whose None entries are missing values. */
  type Matrix = seq<seq<Option<real>>>

  predicate Shaped<T>(X: seq<seq<T>>) {
    forall i :: 0 <= i < |X| ==> |X[i]| == FeatureCount
  }

  /**
    Build the feature matrix from the query rows (already in ascending timestamp
    order): no rows is an error; otherwise one row each, in the same order, with
    the timestamp dropped.
   */
  method LoadData(rows: seq<DbRow>) returns (result: Result<Matrix, string>)
    ensures result.Err? <==> rows == []
    ensures result.Err? ==> result.error == NoDataError
    ensures result.Ok? ==> Shaped(result.value) && |result.value| == |rows|
    ensures result.Ok? ==> forall i :: 0 <= i < |rows| ==>
      result.value[i] == [rows[i].temperature, rows[i].humidity, rows[i].soilMoisture]
  {
    if |rows| == 0 {
      return Err(NoDataError);
    }
    var x: Matrix := [];
    for i := 0 to |rows|
      invariant |x| == i
      invariant forall k :: 0 <= k < i ==> x[k] == [rows[k].temperature, rows[k].humidity, rows[k].soilMoisture]
    {
      var r := rows[i];
      x := x + [[r.temperature, r.humidity, r.soilMoisture]];
    }
    return Ok(x);
  }

  /** A fitted median imputer: the fill value of each column. */
  datatype Imputer = Imputer(fill: seq<real>)

  /** A row with every missing entry replaced by its column's fill value and every present entry kept. */
  function ImputeRow(fill: seq<real>, row: seq<Option<real>>): (r: seq<real>)
    requires |row| <= |fill|
    ensures |r| == |row|
    ensures forall j :: 0 <= j < |row| && row[j].Some? ==> r[j] == row[j].value
    ensures forall j :: 0 <= j < |row| && row[j].None? ==> r[j] == fill[j]
  {
    seq(|row|, j requires 0 <= j < |row| => if row[j].Some? then row[j].value else fill[j])
  }

  /** The imputer's transform on a whole matrix: same shape, missing entries filled per column. */
  function Transform(imputer: Imputer, X: Matrix): (r: seq<seq<real>>)
    requires |imputer.fill| == FeatureCount && Shaped(X)
    ensures |r| == |X| && Shaped(r)
    ensures forall i, j :: 0 <= i < |X| && 0 <= j < FeatureCount && X[i][j].Some? ==> r[i][j] == X[i][j].value
    ensures forall i, j :: 0 <= i < |X| && 0 <= j < FeatureCount && X[i][j].None? ==> r[i][j] == imputer.fill[j]
  {
    seq(|X|, i requires 0 <= i < |X| => ImputeRow(imputer.fill, X[i]))
  }

  /** A missing entry is imputed exactly as if it had held the column's fill value. */
  lemma MissingActsAsFill(fill: seq<real>, row: seq<Option<real>>, j: nat)
    requires |row| == |fill| && j < |row|
    ensures ImputeRow(fill, row[j := None]) == ImputeRow(fill, row[j := Some(fill[j])])
  {
  }

  /** A row with no missing entry passes through imputation unchanged. */
  lemma CompleteRowUnchanged(fill: seq<real>, values: seq<real>)
    requires |values| <= |fill|
    ensures ImputeRow(fill, seq(|values|, j requires 0 <= j < |values| => Some(values[j]))) == values
  {
  }

  /** The fitted two-cluster model: its two centroids. */
  datatype KMeans = KMeans(centroid0: seq<real>, centroid1: seq<real>)

  function Centroid(km: KMeans, cluster: nat): seq<real> {
    if cluster == 0 then km.centroid0 else km.centroid1
  }

  /** Squared Euclidean distance. */
  function SqDist(a: seq<real>, b: seq<real>): (d: real)
    requires |a| == |b|
    ensures d >= 0.0
  {
    if a == [] then 0.0 else (a[0] - b[0]) * (a[0] - b[0]) + SqDist(a[1..], b[1..])
  }

  lemma {:induction false} SqDistSelf(a: seq<real>)
    ensures SqDist(a, a) == 0.0
  {
    if a != [] {
      SqDistSelf(a[1..]);
    }
  }

  /** Cluster assignment of one row: the nearer centroid, the first one on a tie. */
  function Assign(km: KMeans, x: seq<real>): (cluster: nat)
    requires |x| == |km.centroid0| == |km.centroid1|
    ensures cluster <= 1
    ensures SqDist(x, Centroid(km, cluster)) <= SqDist(x, Centroid(km, 1 - cluster))
    ensures cluster == 1 ==> SqDist(x, km.centroid1) < SqDist(x, km.centroid0)
  {
    if SqDist(x, km.centroid0) <= SqDist(x, km.centroid1) then 0 else 1
  }

  /** A row sitting on the first centroid belongs to the first cluster. */
  lemma AssignAtCentroid0(km: KMeans)
    requires |km.centroid0| == |km.centroid1|
    ensures Assign(km, km.centroid0) == 0
  {
    SqDistSelf(km.centroid0);
  }

  /** Number of rows labelled `k`. */
  function Count(labels: seq<nat>, k: nat): (n: nat)
    ensures n <= |labels|
    ensures n == 0 <==> forall i :: 0 <= i < |labels| ==> labels[i] != k
  {
    if labels == [] then 0
    else (if labels[0] == k then 1 else 0) + Count(labels[1..], k)
  }

  /** Sum of the soil moisture column over the rows labelled `k`. */
  function SoilSum(Ximp: seq<seq<real>>, labels: seq<nat>, k: nat): real
    requires |Ximp| == |labels| && Shaped(Ximp)
  {
    if labels == [] then 0.0
    else (if labels[0] == k then Ximp[0][SoilIndex] else 0.0) + SoilSum(Ximp[1..], labels[1..], k)
  }

  /**
    Mean soil moisture of cluster `k` over the imputed matrix; None stands for
    the +infinity given to an empty cluster.
   */
  function ClusterMean(Ximp: seq<seq<real>>, labels: seq<nat>, k: nat): (m: Option<real>)
    requires |Ximp| == |labels| && Shaped(Ximp)
    ensures m.None? <==> forall i :: 0 <= i < |labels| ==> labels[i] != k
  {
    var n := Count(labels, k);
    if n == 0 then None else Some(SoilSum(Ximp, labels, k) / n as real)
  }

  /** `c` added once for every row labelled `k`. */
  function Repeat(labels: seq<nat>, k: nat, c: real): real {
    if labels == [] then 0.0
    else (if labels[0] == k then c else 0.0) + Repeat(labels[1..], k, c)
  }

  lemma {:induction false} RepeatIsProduct(labels: seq<nat>, k: nat, c: real)
    ensures Repeat(labels, k, c) == c * Count(labels, k) as real
  {
    if labels != [] {
      var tail := labels[1..];
      RepeatIsProduct(tail, k, c);
      var n' := Count(tail, k) as real;
      if labels[0] == k {
        assert Repeat(labels, k, c) == c + Repeat(tail, k, c);
        assert Count(labels, k) as real == n' + 1.0;
        assert c * (n' + 1.0) == c * n' + c;
      } else {
        assert Repeat(labels, k, c) == Repeat(tail, k, c);
        assert Count(labels, k) == Count(tail, k);
      }
    } else {
      assert Repeat(labels, k, c) == 0.0 && Count(labels, k) == 0;
    }
  }

  lemma {:induction false} SoilSumBelow(Ximp: seq<seq<real>>, labels: seq<nat>, k: nat, c: real)
    requires |Ximp| == |labels| && Shaped(Ximp)
    requires forall i :: 0 <= i < |labels| && labels[i] == k ==> Ximp[i][SoilIndex] < c
    ensures SoilSum(Ximp, labels, k) <= Repeat(labels, k, c)
    ensures Count(labels, k) > 0 ==> SoilSum(Ximp, labels, k) < Repeat(labels, k, c)
  {
    if labels != [] {
      var tailX, tailL := Ximp[1..], labels[1..];
      assert forall i :: 0 <= i < |tailL| && tailL[i] == k ==> tailX[i][SoilIndex] < c by {
        forall i | 0 <= i < |tailL| && tailL[i] == k ensures tailX[i][SoilIndex] < c {
          assert tailX[i] == Ximp[i + 1] && tailL[i] == labels[i + 1];
        }
      }
      SoilSumBelow(tailX, tailL, k, c);
    }
  }

  lemma {:induction false} SoilSumAtLeast(Ximp: seq<seq<real>>, labels: seq<nat>, k: nat, c: real)
    requires |Ximp| == |labels| && Shaped(Ximp)
    requires forall i :: 0 <= i < |labels| && labels[i] == k ==> Ximp[i][SoilIndex] >= c
    ensures SoilSum(Ximp, labels, k) >= Repeat(labels, k, c)
  {
    if labels != [] {
      var tailX, tailL := Ximp[1..], labels[1..];
      assert forall i :: 0 <= i < |tailL| && tailL[i] == k ==> tailX[i][SoilIndex] >= c by {
        forall i | 0 <= i < |tailL| && tailL[i] == k ensures tailX[i][SoilIndex] >= c {
          assert tailX[i] == Ximp[i + 1] && tailL[i] == labels[i + 1];
        }
      }
      SoilSumAtLeast(tailX, tailL, k, c);
    }
  }

  lemma QuotientBelow(s: real, n: real, c: real)
    requires n > 0.0 && s < c * n
    ensures s / n < c
  {
  }

  lemma QuotientAtLeast(s: real, n: real, c: real)
    requires n > 0.0 && s >= c * n
    ensures s / n >= c
  {
  }

  /** A cluster whose members are all drier than `c` has a mean below `c`. */
  lemma MeanBelow(Ximp: seq<seq<real>>, labels: seq<nat>, k: nat, c: real)
    requires |Ximp| == |labels| && Shaped(Ximp)
    requires forall i :: 0 <= i < |labels| && labels[i] == k ==> Ximp[i][SoilIndex] < c
    ensures ClusterMean(Ximp, labels, k).Some? ==> ClusterMean(Ximp, labels, k).value < c
  {
    var n := Count(labels, k);
    if n > 0 {
      SoilSumBelow(Ximp, labels, k, c);
      RepeatIsProduct(labels, k, c);
      assert SoilSum(Ximp, labels, k) < Repeat(labels, k, c);
      QuotientBelow(SoilSum(Ximp, labels, k), n as real, c);
    }
  }

  /** A cluster whose members are all at least `c` has a mean of at least `c`. */
  lemma MeanAtLeast(Ximp: seq<seq<real>>, labels: seq<nat>, k: nat, c: real)
    requires |Ximp| == |labels| && Shaped(Ximp)
    requires forall i :: 0 <= i < |labels| && labels[i] == k ==> Ximp[i][SoilIndex] >= c
    ensures ClusterMean(Ximp, labels, k).Some? ==> ClusterMean(Ximp, labels, k).value >= c
  {
    var n := Count(labels, k);
    if n > 0 {
      SoilSumAtLeast(Ximp, labels, k, c);
      RepeatIsProduct(labels, k, c);
      QuotientAtLeast(SoilSum(Ximp, labels, k), n as real, c);
    }
  }

  /**
    The cluster that means "pump on": cluster 0 exactly when its mean soil
    moisture is strictly below cluster 1's, an empty cluster's mean counting as
    +infinity; so an empty cluster is never chosen beside a non-empty one, and
    an exact tie or two empty clusters give 1.
   */
  function OnLabel(mean0: Option<real>, mean1: Option<real>): (cluster: nat)
    ensures cluster <= 1
    ensures mean0.Some? && mean1.Some? ==> (cluster == 0 <==> mean0.value < mean1.value)
    ensures mean0.None? && mean1.Some? ==> cluster == 1
    ensures mean0.Some? && mean1.None? ==> cluster == 0
    ensures mean0 == mean1 ==> cluster == 1
  {
    match (mean0, mean1)
    case (Some(m0), Some(m1)) => if m0 < m1 then 0 else 1
    case (Some(_), None) => 0
    case (None, _) => 1
  }

  /** The stored wrapper: imputer, cluster model and the cluster that means on. */
  datatype PumpModel = PumpModel(imputer: Imputer, kmeans: KMeans, onLabel: nat)

  predicate WellFormed(m: PumpModel) {
    && |m.imputer.fill| == FeatureCount
    && |m.kmeans.centroid0| == FeatureCount
    && |m.kmeans.centroid1| == FeatureCount
  }

  /** The library's fit: the centroids and the cluster it gave each training row. */
  datatype Fit = Fit(kmeans: KMeans, labels: seq<nat>)

  /** The trained wrapper and whether the small-data warning was printed. */
  datatype Trained = Trained(model: PumpModel, warned: bool)

  /**
    Training on a matrix with the given imputer fill values and k-means fit: a
    model is always produced, with a warning below ten rows; its on-cluster is 0
    or 1 and is the cluster with the lower mean soil moisture over the imputed
    matrix, an empty cluster counting as +infinity and ties going to 1.
   */
  function Train(X: Matrix, imputer: Imputer, fit: Fit): (t: Trained)
    requires Shaped(X) && |imputer.fill| == FeatureCount && |fit.labels| == |X|
    requires |fit.kmeans.centroid0| == FeatureCount && |fit.kmeans.centroid1| == FeatureCount
    ensures t.warned <==> |X| < WarnBelowRows
    ensures WellFormed(t.model)
    ensures t.model.imputer == imputer && t.model.kmeans == fit.kmeans
    ensures t.model.onLabel <= 1
    ensures var m0 := ClusterMean(Transform(imputer, X), fit.labels, 0);
            var m1 := ClusterMean(Transform(imputer, X), fit.labels, 1);
            t.model.onLabel == 0 <==> m0.Some? && (m1.None? || m0.value < m1.value)
  {
    var Ximp := Transform(imputer, X);
    var onLabel := OnLabel(ClusterMean(Ximp, fit.labels, 0), ClusterMean(Ximp, fit.labels, 1));
    Trained(PumpModel(imputer, fit.kmeans, onLabel), |X| < WarnBelowRows)
  }

  /**
    Two clusters separated in soil moisture, every member of cluster 0 drier
    than `c` and every member of cluster 1 at least `c`, make cluster 0 the
    pump-on cluster.
   */
  lemma SeparatedClustersChooseDrier(Ximp: seq<seq<real>>, labels: seq<nat>, c: real)
    requires |Ximp| == |labels| && Shaped(Ximp)
    requires exists i :: 0 <= i < |labels| && labels[i] == 0
    requires exists i :: 0 <= i < |labels| && labels[i] == 1
    requires forall i :: 0 <= i < |labels| && labels[i] == 0 ==> Ximp[i][SoilIndex] < c
    requires forall i :: 0 <= i < |labels| && labels[i] == 1 ==> Ximp[i][SoilIndex] >= c
    ensures OnLabel(ClusterMean(Ximp, labels, 0), ClusterMean(Ximp, labels, 1)) == 0
  {
    MeanBelow(Ximp, labels, 0, c);
    MeanAtLeast(Ximp, labels, 1, c);
  }

  /**
    The wrapper's predict: one entry per row, each 0 or 1, and 1 exactly when
    the row, imputed with the training fill values, is assigned the on-cluster.
   */
  function Predict(m: PumpModel, X: Matrix): (r: seq<int>)
    requires WellFormed(m) && Shaped(X)
    ensures |r| == |X|
    ensures forall i :: 0 <= i < |X| ==> r[i] == 0 || r[i] == 1
    ensures forall i :: 0 <= i < |X| ==>
      (r[i] == 1 <==> Assign(m.kmeans, ImputeRow(m.imputer.fill, X[i])) == m.onLabel)
  {
    var Ximp := Transform(m.imputer, X);
    seq(|X|, i requires 0 <= i < |X| => if Assign(m.kmeans, Ximp[i]) == m.onLabel then 1 else 0)
  }

  /** A row with a missing entry is predicted as it would be with that entry set to its fill value. */
  lemma PredictMissingAsFill(m: PumpModel, row: seq<Option<real>>, j: nat)
    requires WellFormed(m) && |row| == FeatureCount && j < FeatureCount
    ensures Predict(m, [row[j := None]]) == Predict(m, [row[j := Some(m.imputer.fill[j])]])
  {
    MissingActsAsFill(m.imputer.fill, row, j);
  }
}
