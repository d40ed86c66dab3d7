/** The log functions (models.py:182-215): `_log_to_influx` turns one dict of
    readings into InfluxDB points, one `write_points` call per point, and the
    `log_functions` table names it "influx".  The InfluxDB client is a sink
    whose answer to each write is an input. */
module InfluxLog {
  import opened PyTypes
  import opened OrderedDict

  /** `{"measurement": name, "fields": {"value": value}, "tags": tags}`. */
  datatype Point = Point(measurement: string, value: Value, tags: Tags)

  /** How the sink answered one `write_points` call. */
  datatype WriteOutcome = Stored | ClientError | ServerError

  /** The log functions a `log_dest` can name. */
  datatype LogFunction = LogToInfluxFunction

  /** `log_functions = dict(influx=_log_to_influx)`. */
  const LogFunctions: map<string, LogFunction> := map["influx" := LogToInfluxFunction]

  /** The entries `data.items()` yields before the loop meets a key that is a
      tag name and breaks. */
  function UntilTagKey(data: Dict, tags: Tags): (written: Dict)
    ensures |written| <= |data|
    ensures written == data[..|written|]
    ensures forall i :: 0 <= i < |written| ==> data[i].0 !in tags
  {
    if |data| == 0 || data[0].0 in tags then []
    else
      var rest := UntilTagKey(data[1..], tags);
      assert data[..|rest| + 1] == [data[0]] + data[1..][..|rest|];
      assert forall i :: 1 <= i < |rest| + 1 ==> data[i] == data[1..][i - 1];
      [data[0]] + rest
  }

  /** `UntilTagKey` stops only at the end of the data or at a tag name: it is
      the longest tag-free prefix. */
  lemma {:induction false} UntilTagKeyLongest(data: Dict, tags: Tags)
    ensures |UntilTagKey(data, tags)| < |data| ==> data[|UntilTagKey(data, tags)|].0 in tags
  {
    if |data| > 0 && data[0].0 !in tags {
      UntilTagKeyLongest(data[1..], tags);
    }
  }

  /** Conversely, a prefix of tag-free keys that ends at the end of the data
      or at a tag name is `UntilTagKey`. */
  lemma {:induction false} UntilTagKeyUnique(data: Dict, tags: Tags, n: nat)
    requires n <= |data|
    requires forall i :: 0 <= i < n ==> data[i].0 !in tags
    requires n == |data| || data[n].0 in tags
    ensures UntilTagKey(data, tags) == data[..n]
  {
    if n > 0 {
      UntilTagKeyUnique(data[1..], tags, n - 1);
      assert data[..n] == [data[0]] + data[1..][..n - 1];
    }
  }

  /** One point per entry, in order, every one tagged with `tags`. */
  function PointsFor(entries: Dict, tags: Tags): (points: seq<Point>)
    ensures |points| == |entries|
    ensures forall i :: 0 <= i < |entries| ==> points[i] == Point(entries[i].0, entries[i].1, tags)
  {
    seq(|entries|, i requires 0 <= i < |entries| => Point(entries[i].0, entries[i].1, tags))
  }

  /** The points whose write (numbered from 0) the sink stored. */
  function StoredPoints(points: seq<Point>, outcome: nat -> WriteOutcome): (stored: seq<Point>)
  {
    if |points| == 0 then []
    else
      StoredPoints(points[..|points| - 1], outcome)
      + (if outcome(|points| - 1) == Stored then [points[|points| - 1]] else [])
  }

  /** One more entry adds one more point at the end. */
  lemma PointsForSnoc(entries: Dict, e: (string, Value), tags: Tags)
    ensures PointsFor(entries + [e], tags) == PointsFor(entries, tags) + [Point(e.0, e.1, tags)]
  {
  }

  /** One more point is stored exactly when its write succeeds. */
  lemma StoredPointsSnoc(points: seq<Point>, p: Point, outcome: nat -> WriteOutcome)
    ensures StoredPoints(points + [p], outcome)
            == StoredPoints(points, outcome) + (if outcome(|points|) == Stored then [p] else [])
  {
    assert (points + [p])[..|points|] == points;
  }

  /** A stored point is one of the points, and one whose write succeeded. */
  lemma {:induction false} StoredPointsSound(points: seq<Point>, outcome: nat -> WriteOutcome)
    ensures |StoredPoints(points, outcome)| <= |points|
    ensures forall p :: p in StoredPoints(points, outcome) ==>
              exists i :: 0 <= i < |points| && points[i] == p && outcome(i) == Stored
  {
    if |points| > 0 {
      var n := |points| - 1;
      StoredPointsSound(points[..n], outcome);
      forall p | p in StoredPoints(points, outcome)
        ensures exists i :: 0 <= i < |points| && points[i] == p && outcome(i) == Stored
      {
        if p in StoredPoints(points[..n], outcome) {
          var i :| 0 <= i < n && points[..n][i] == p && outcome(i) == Stored;
          assert points[i] == p;
        } else {
          assert points[n] == p && outcome(n) == Stored;
        }
      }
    }
  }

  /** `_log_to_influx(data, log_credentials, tags)`: one write per entry up to
      the first key that is a tag name, then nothing more; a client or server
      error on a point is swallowed and the loop goes on.  `attempted` is
      every point handed to `write_points`, `stored` those the sink kept. */
  method LogToInflux(data: Dict, tags: Tags, outcome: nat -> WriteOutcome)
    returns (attempted: seq<Point>, stored: seq<Point>)
    ensures attempted == PointsFor(UntilTagKey(data, tags), tags)
    ensures stored == StoredPoints(attempted, outcome)
  {
    attempted, stored := [], [];
    var i := 0;
    while i < |data|
      invariant 0 <= i <= |data|
      invariant forall j :: 0 <= j < i ==> data[j].0 !in tags
      invariant attempted == PointsFor(data[..i], tags)
      invariant stored == StoredPoints(attempted, outcome)
    {
      var (name, value) := data[i];
      if name in tags {
        break;
      }
      var point := Point(name, value, tags);
      assert data[..i + 1] == data[..i] + [data[i]];
      PointsForSnoc(data[..i], data[i], tags);
      StoredPointsSnoc(attempted, point, outcome);
      attempted := attempted + [point];
      if outcome(i) == Stored {
        stored := stored + [point];
      }
      i := i + 1;
    }
    UntilTagKeyUnique(data, tags, i);
  }
}
