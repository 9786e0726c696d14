/**
  The data behind the visualisation page: the ten newest readings, newest
  first, reshaped into four index-aligned series.
 */
module Charts {
  import opened Records

  /** How many readings the page shows. */
  const ChartLimit: nat := 10

  predicate NewestFirst(s: seq<Reading>) {
    forall i, j :: 0 <= i < j < |s| ==> s[i].timestamp >= s[j].timestamp
  }

  /** Insert `x` into a newest-first sequence, before the first reading that is not newer. */
  function Insert(x: Reading, s: seq<Reading>): (r: seq<Reading>)
    requires NewestFirst(s)
    ensures NewestFirst(r)
    ensures multiset(r) == multiset(s) + multiset{x}
    ensures forall y :: y in r ==> y == x || y in s
  {
    if s == [] then [x]
    else if x.timestamp >= s[0].timestamp then [x] + s
    else
      var rest := Insert(x, s[1..]);
      assert s == [s[0]] + s[1..];
      assert forall y :: y in rest ==> y.timestamp <= s[0].timestamp;
      [s[0]] + rest
  }

  /** The readings ordered by descending timestamp (the `-timestamp` ordering). */
  function SortNewestFirst(s: seq<Reading>): (r: seq<Reading>)
    ensures NewestFirst(r)
    ensures multiset(r) == multiset(s)
    ensures |r| == |s|
  {
    if s == [] then []
    else
      assert s == [s[0]] + s[1..];
      Insert(s[0], SortNewestFirst(s[1..]))
  }

  /** In a newest-first sequence, nothing after position `n` is newer than anything before it. */
  lemma {:induction false} PrefixIsNewest(sorted: seq<Reading>, n: nat)
    requires NewestFirst(sorted) && n <= |sorted|
    ensures multiset(sorted) - multiset(sorted[..n]) == multiset(sorted[n..])
    ensures forall x, y :: x in multiset(sorted[n..]) && y in sorted[..n] ==> x.timestamp <= y.timestamp
  {
    assert sorted == sorted[..n] + sorted[n..];
    forall x, y | x in multiset(sorted[n..]) && y in sorted[..n]
      ensures x.timestamp <= y.timestamp
    {
      var i :| 0 <= i < n && sorted[..n][i] == y;
      var j :| 0 <= j < |sorted| - n && sorted[n..][j] == x;
      assert sorted[i] == y && sorted[n + j] == x;
    }
  }

  /**
    The `limit` newest readings, newest first: as many as there are up to the
    limit, every one taken from the table, and none of the readings left out is
    newer than any reading kept.
   */
  function Recent(readings: seq<Reading>, limit: nat): (r: seq<Reading>)
    ensures |r| == if |readings| < limit then |readings| else limit
    ensures NewestFirst(r)
    ensures multiset(r) <= multiset(readings)
    ensures forall x, y :: x in multiset(readings) - multiset(r) && y in r ==> x.timestamp <= y.timestamp
  {
    var sorted := SortNewestFirst(readings);
    var n := if |sorted| < limit then |sorted| else limit;
    PrefixIsNewest(sorted, n);
    sorted[..n]
  }

  /** The four series handed to the chart; timestamps are kept as clock values. */
  datatype Chart = Chart(timestamps: seq<int>, temperatures: seq<real>, humidities: seq<real>, soilMoistures: seq<real>)

  /** Reshape readings into four parallel series, each index standing for the same reading. */
  function ChartOf(data: seq<Reading>): (c: Chart)
    ensures |c.timestamps| == |data| && |c.temperatures| == |data|
    ensures |c.humidities| == |data| && |c.soilMoistures| == |data|
    ensures forall i :: 0 <= i < |data| ==>
      && c.timestamps[i] == data[i].timestamp
      && c.temperatures[i] == data[i].temperature
      && c.humidities[i] == data[i].humidity
      && c.soilMoistures[i] == data[i].soilMoisture
  {
    Chart(
      seq(|data|, i requires 0 <= i < |data| => data[i].timestamp),
      seq(|data|, i requires 0 <= i < |data| => data[i].temperature),
      seq(|data|, i requires 0 <= i < |data| => data[i].humidity),
      seq(|data|, i requires 0 <= i < |data| => data[i].soilMoisture))
  }

  /**
    The visualisation page's series: four sequences of one common length, at
    most ten, aligned on the newest readings with timestamps descending.
   */
  function DataVisualization(readings: seq<Reading>): (c: Chart)
    ensures |c.timestamps| <= ChartLimit
    ensures |c.timestamps| == |c.temperatures| == |c.humidities| == |c.soilMoistures|
    ensures |readings| >= ChartLimit ==> |c.timestamps| == ChartLimit
    ensures forall i, j :: 0 <= i < j < |c.timestamps| ==> c.timestamps[i] >= c.timestamps[j]
    ensures |c.timestamps| == |Recent(readings, ChartLimit)|
    ensures forall i :: 0 <= i < |c.timestamps| ==>
      var r := Recent(readings, ChartLimit)[i];
      && c.timestamps[i] == r.timestamp
      && c.temperatures[i] == r.temperature
      && c.humidities[i] == r.humidity
      && c.soilMoistures[i] == r.soilMoisture
  {
    ChartOf(Recent(readings, ChartLimit))
  }
}
