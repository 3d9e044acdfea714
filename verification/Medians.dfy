/** Rank coordinates by per-axis medians: catalogue/geo.go and prepareRows of catalogue/import.go. */
module Medians {

  /** Longitude and latitude; exact numbers where the source has floats. */
  datatype Point = Point(lon: real, lat: real)

  predicate Ascending(s: seq<real>) {
    forall i, j :: 0 <= i < j < |s| ==> s[i] <= s[j]
  }

  function Insert(s: seq<real>, x: real): (r: seq<real>)
    ensures |r| == |s| + 1
  {
    if s == [] || s[|s| - 1] <= x then s + [x] else Insert(s[..|s| - 1], x) + [s[|s| - 1]]
  }

  /** What sort.Float64s leaves. */
  function SortedUp(s: seq<real>): (r: seq<real>)
    ensures |r| == |s|
  {
    if s == [] then [] else Insert(SortedUp(s[..|s| - 1]), s[|s| - 1])
  }

  lemma {:induction false} InsertKeeps(s: seq<real>, x: real)
    ensures multiset(Insert(s, x)) == multiset(s) + multiset{x}
  {
    if s != [] && s[|s| - 1] > x {
      InsertKeeps(s[..|s| - 1], x);
      FrontAndLast(s);
    }
  }

  lemma {:induction false} SortKeeps(s: seq<real>)
    ensures multiset(SortedUp(s)) == multiset(s)
  {
    if s != [] {
      SortKeeps(s[..|s| - 1]);
      InsertKeeps(SortedUp(s[..|s| - 1]), s[|s| - 1]);
      FrontAndLast(s);
    }
  }

  lemma {:induction false} InsertAscends(s: seq<real>, x: real)
    requires Ascending(s)
    ensures Ascending(Insert(s, x))
    ensures |Insert(s, x)| == |s| + 1 && (Insert(s, x)[|s|] == x || (s != [] && Insert(s, x)[|s|] == s[|s| - 1]))
  {
    if s != [] && s[|s| - 1] > x {
      InsertAscends(s[..|s| - 1], x);
    }
  }

  lemma {:induction false} SortAscends(s: seq<real>)
    ensures Ascending(SortedUp(s))
  {
    if s != [] {
      SortAscends(s[..|s| - 1]);
      InsertAscends(SortedUp(s[..|s| - 1]), s[|s| - 1]);
    }
  }

  /** An ascending sequence is determined by what is in it. */
  lemma {:induction false} AscendingIsUnique(s: seq<real>, t: seq<real>)
    requires Ascending(s) && Ascending(t) && multiset(s) == multiset(t)
    ensures s == t
  {
    assert |multiset(s)| == |multiset(t)|;
    if s != [] {
      LastsAgree(s, t);
      FrontAndLast(s);
      FrontAndLast(t);
      FrontAscends(s);
      FrontAscends(t);
      AscendingIsUnique(s[..|s| - 1], t[..|t| - 1]);
    }
  }

  lemma FrontAscends(s: seq<real>)
    requires s != [] && Ascending(s)
    ensures Ascending(s[..|s| - 1])
  {
  }

  lemma LastsAgree(s: seq<real>, t: seq<real>)
    requires s != [] && t != [] && Ascending(s) && Ascending(t) && multiset(s) == multiset(t)
    ensures s[|s| - 1] == t[|t| - 1]
  {
    FrontAndLast(s);
    FrontAndLast(t);
    LastIsGreatest(s, t[|t| - 1]);
    LastIsGreatest(t, s[|s| - 1]);
  }

  lemma FrontAndLast(s: seq<real>)
    requires s != []
    ensures s == s[..|s| - 1] + [s[|s| - 1]] && s[|s| - 1] in multiset(s)
    ensures multiset(s[..|s| - 1]) == multiset(s) - multiset{s[|s| - 1]}
  {
    assert s == s[..|s| - 1] + [s[|s| - 1]];
  }

  lemma LastIsGreatest(s: seq<real>, x: real)
    requires Ascending(s) && x in multiset(s)
    ensures s != [] && x <= s[|s| - 1]
  {
    assert x in s;
    var i :| 0 <= i < |s| && s[i] == x;
  }

  function Median(sorted: seq<real>): real {
    var n := |sorted|;
    if n == 0 then 0.0
    else if n % 2 == 1 then sorted[n / 2]
    else (sorted[n / 2 - 1] + sorted[n / 2]) / 2.0
  }

  function Lons(samples: seq<Point>): (s: seq<real>)
    ensures |s| == |samples| && forall i :: 0 <= i < |s| ==> s[i] == samples[i].lon
  {
    seq(|samples|, i requires 0 <= i < |samples| => samples[i].lon)
  }

  function Lats(samples: seq<Point>): (s: seq<real>)
    ensures |s| == |samples| && forall i :: 0 <= i < |s| ==> s[i] == samples[i].lat
  {
    seq(|samples|, i requires 0 <= i < |samples| => samples[i].lat)
  }

  function Centre(samples: seq<Point>): Point {
    Point(Median(SortedUp(Lons(samples))), Median(SortedUp(Lats(samples))))
  }

  method MedianCoordinate(samples: seq<Point>) returns (centre: Point)
    ensures centre == Centre(samples)
  {
    var lons := new real[|samples|];
    var lats := new real[|samples|];
    for i := 0 to |samples|
      invariant forall k :: 0 <= k < i ==> lons[k] == samples[k].lon && lats[k] == samples[k].lat
    {
      lons[i] := samples[i].lon;
      lats[i] := samples[i].lat;
    }
    assert lons[..] == Lons(samples) && lats[..] == Lats(samples);
    centre := Point(Median(SortedUp(lons[..])), Median(SortedUp(lats[..])));
  }

  /** The middle value however the values are put in order; of an even number, halfway between the middle two. */
  lemma MedianIsTheMiddle(s: seq<real>, t: seq<real>)
    requires Ascending(t) && multiset(t) == multiset(s) && s != []
    ensures |t| == |s|
    ensures |s| % 2 == 1 ==> Median(SortedUp(s)) == t[|s| / 2]
    ensures |s| % 2 == 0 ==> 2.0 * Median(SortedUp(s)) == t[|s| / 2 - 1] + t[|s| / 2]
  {
    hide SortedUp, Median, Ascending;
    SortIs(s, t);
    MiddleOf(t);
  }

  lemma MiddleOf(t: seq<real>)
    requires t != []
    ensures |t| % 2 == 1 ==> Median(t) == t[|t| / 2]
    ensures |t| % 2 == 0 ==> 2.0 * Median(t) == t[|t| / 2 - 1] + t[|t| / 2]
  {
  }

  lemma SortIs(s: seq<real>, t: seq<real>)
    requires Ascending(t) && multiset(t) == multiset(s)
    ensures SortedUp(s) == t && |t| == |s|
  {
    SortKeeps(s);
    SortAscends(s);
    AscendingIsUnique(SortedUp(s), t);
    assert |multiset(t)| == |multiset(s)|;
  }

  /** A rank stands at the median longitude and the median latitude of its samples. */
  lemma CentreIsTheMiddle(samples: seq<Point>, lons: seq<real>, lats: seq<real>)
    requires samples != [] && |lons| == |lats| == |samples|
    requires Ascending(lons) && multiset(lons) == multiset(seq(|samples|, i requires 0 <= i < |samples| => samples[i].lon))
    requires Ascending(lats) && multiset(lats) == multiset(seq(|samples|, i requires 0 <= i < |samples| => samples[i].lat))
    ensures var n, c := |samples|, Centre(samples);
            && 2.0 * c.lon == lons[(n - 1) / 2] + lons[n / 2]
            && 2.0 * c.lat == lats[(n - 1) / 2] + lats[n / 2]
  {
    assert Lons(samples) == seq(|samples|, i requires 0 <= i < |samples| => samples[i].lon);
    assert Lats(samples) == seq(|samples|, i requires 0 <= i < |samples| => samples[i].lat);
    MedianIsTheMiddle(Lons(samples), lons);
    MedianIsTheMiddle(Lats(samples), lats);
  }

  // ----- robustness -----

  /** How many values lie in [lo, hi]. */
  function Inside(s: seq<real>, lo: real, hi: real): (n: nat)
    ensures n <= |s|
  {
    if s == [] then 0 else Inside(s[..|s| - 1], lo, hi) + if lo <= s[|s| - 1] <= hi then 1 else 0
  }

  lemma {:induction false} InsideInsert(s: seq<real>, x: real, lo: real, hi: real)
    ensures Inside(Insert(s, x), lo, hi) == Inside(s, lo, hi) + if lo <= x <= hi then 1 else 0
  {
    if s == [] || s[|s| - 1] <= x {
      InsideOne(s, x, lo, hi);
    } else {
      InsideInsert(s[..|s| - 1], x, lo, hi);
      InsideOne(Insert(s[..|s| - 1], x), s[|s| - 1], lo, hi);
    }
  }

  lemma InsideOne(s: seq<real>, x: real, lo: real, hi: real)
    ensures Inside(s + [x], lo, hi) == Inside(s, lo, hi) + if lo <= x <= hi then 1 else 0
  {
    assert (s + [x])[..|s|] == s;
  }

  lemma {:induction false} InsideSorted(s: seq<real>, lo: real, hi: real)
    ensures Inside(SortedUp(s), lo, hi) == Inside(s, lo, hi)
  {
    if s != [] {
      InsideSorted(s[..|s| - 1], lo, hi);
      InsideInsert(SortedUp(s[..|s| - 1]), s[|s| - 1], lo, hi);
    }
  }

  /** Values that start below the interval or end above it are not inside. */
  lemma {:induction false} FewInside(s: seq<real>, lo: real, hi: real, k: nat)
    requires k <= |s|
    ensures (forall i :: 0 <= i < k ==> s[i] < lo) ==> Inside(s, lo, hi) <= |s| - k
    ensures (forall i :: k <= i < |s| ==> s[i] > hi) ==> Inside(s, lo, hi) <= k
  {
    if s != [] && k < |s| {
      FewInside(s[..|s| - 1], lo, hi, k);
    } else if s != [] {
      FewInside(s[..|s| - 1], lo, hi, k - 1);
    }
  }

  /** Once more than half the samples lie in an interval, so does the median: outliers cannot move it out. */
  lemma MedianIsRobust(s: seq<real>, lo: real, hi: real)
    requires 2 * Inside(s, lo, hi) > |s|
    ensures lo <= Median(SortedUp(s)) <= hi
  {
    SortAscends(s);
    InsideSorted(s, lo, hi);
    MiddleIsInside(SortedUp(s), lo, hi);
  }

  lemma MiddleIsInside(t: seq<real>, lo: real, hi: real)
    requires Ascending(t) && 2 * Inside(t, lo, hi) > |t|
    ensures lo <= Median(t) <= hi
  {
    var m := |t| / 2;
    NotBelow(t, lo, hi, (|t| - 1) / 2);
    NotAbove(t, lo, hi, m);
    assert lo <= t[m] <= hi;
    if |t| % 2 == 0 {
      assert lo <= t[m - 1] <= hi;
    }
  }

  lemma NotBelow(t: seq<real>, lo: real, hi: real, k: nat)
    requires Ascending(t) && k < |t| && Inside(t, lo, hi) > |t| - (k + 1)
    ensures t[k] >= lo && forall i :: k <= i < |t| ==> t[i] >= lo
  {
    if t[k] < lo {
      FewInside(t, lo, hi, k + 1);
    }
  }

  lemma NotAbove(t: seq<real>, lo: real, hi: real, k: nat)
    requires Ascending(t) && k < |t| && Inside(t, lo, hi) > k
    ensures t[k] <= hi && forall i :: 0 <= i <= k ==> t[i] <= hi
  {
    if t[k] > hi {
      FewInside(t, lo, hi, k);
    }
  }

  lemma CentreIsRobust(samples: seq<Point>, lo: Point, hi: Point)
    ensures 2 * Inside(Lons(samples), lo.lon, hi.lon) > |samples| ==> lo.lon <= Centre(samples).lon <= hi.lon
    ensures 2 * Inside(Lats(samples), lo.lat, hi.lat) > |samples| ==> lo.lat <= Centre(samples).lat <= hi.lat
  {
    if 2 * Inside(Lons(samples), lo.lon, hi.lon) > |samples| {
      MedianIsRobust(Lons(samples), lo.lon, hi.lon);
    }
    if 2 * Inside(Lats(samples), lo.lat, hi.lat) > |samples| {
      MedianIsRobust(Lats(samples), lo.lat, hi.lat);
    }
  }

  // ----- samples of a file -----

  /** A row of the file with its canonical rank names. */
  datatype Row = Row(origin: string, dest: string, objectId: int, fare: int, points: seq<Point>)

  /** Where one row says rank stands: at its first point, its last, or both. */
  function RowSamples(row: Row, rank: string): seq<Point> {
    if row.points == [] then []
    else (if row.origin == rank then [row.points[0]] else [])
         + (if row.dest == rank then [row.points[|row.points| - 1]] else [])
  }

  /** A row's first point is a sample of its origin, its last point of its destination, and it has no other. */
  lemma RowSamplesAre(row: Row, rank: string)
    ensures |RowSamples(row, rank)| == if row.points == [] then 0
                                       else (if rank == row.origin then 1 else 0) + (if rank == row.dest then 1 else 0)
    ensures row.points != [] && rank == row.origin ==> RowSamples(row, rank)[0] == row.points[0]
    ensures row.points != [] && rank == row.dest ==>
              RowSamples(row, rank)[|RowSamples(row, rank)| - 1] == row.points[|row.points| - 1]
  {
  }

  function Samples(rows: seq<Row>, rank: string): seq<Point> {
    if rows == [] then [] else Samples(rows[..|rows| - 1], rank) + RowSamples(rows[|rows| - 1], rank)
  }

  function Ranks(rows: seq<Row>): set<string> {
    (set r | r in rows && r.points != [] :: r.origin) + (set r | r in rows && r.points != [] :: r.dest)
  }

  function RankCoordinates(rows: seq<Row>): map<string, Point> {
    map rank | rank in Ranks(rows) :: Centre(Samples(rows, rank))
  }

  /** The samples, rank by rank, in one pass over the file; then their medians. */
  method PrepareRows(rows: seq<Row>) returns (coordinates: map<string, Point>)
    ensures coordinates == RankCoordinates(rows)
  {
    var samples: map<string, seq<Point>> := map[];
    for i := 0 to |rows|
      invariant samples == SamplesByRank(rows[..i])
    {
      var row := rows[i];
      assert rows[..i + 1] == rows[..i] + [row];
      OneMoreRow(rows[..i], row);
      if |row.points| == 0 {
        continue;
      }
      samples := Appended(samples, row.origin, row.points[0]);
      samples := Appended(samples, row.dest, row.points[|row.points| - 1]);
    }
    assert rows[..|rows|] == rows;
    coordinates := Centres(samples);
  }

  method Centres(samples: map<string, seq<Point>>) returns (coordinates: map<string, Point>)
    ensures coordinates == map rank | rank in samples :: Centre(samples[rank])
  {
    coordinates := map[];
    var left := samples.Keys;
    while left != {}
      invariant left <= samples.Keys && coordinates.Keys == samples.Keys - left
      invariant forall rank :: rank in coordinates ==> coordinates[rank] == Centre(samples[rank])
      decreases |left|
    {
      var rank :| rank in left;
      left := left - {rank};
      var centre := MedianCoordinate(samples[rank]);
      coordinates := coordinates[rank := centre];
    }
  }

  function SamplesByRank(rows: seq<Row>): map<string, seq<Point>> {
    map rank | rank in Ranks(rows) :: Samples(rows, rank)
  }

  function Appended(samples: map<string, seq<Point>>, rank: string, p: Point): map<string, seq<Point>> {
    samples[rank := SamplesOf(samples, rank) + [p]]
  }

  function SamplesOf(samples: map<string, seq<Point>>, rank: string): seq<Point> {
    if rank in samples then samples[rank] else []
  }

  lemma SamplesOne(rows: seq<Row>, row: Row, rank: string)
    ensures Samples(rows + [row], rank) == Samples(rows, rank) + RowSamples(row, rank)
  {
    assert (rows + [row])[..|rows|] == rows;
  }

  lemma RanksOne(rows: seq<Row>, row: Row)
    ensures Ranks(rows + [row]) == Ranks(rows) + if row.points == [] then {} else {row.origin, row.dest}
  {
    assert forall r :: r in rows + [row] <==> r in rows || r == row;
  }

  lemma {:induction false} NoSamples(rows: seq<Row>, rank: string)
    requires rank !in Ranks(rows)
    ensures Samples(rows, rank) == []
  {
    if rows != [] {
      var front, last := rows[..|rows| - 1], rows[|rows| - 1];
      assert rows == front + [last];
      RanksOne(front, last);
      NoSamples(front, rank);
    }
  }

  lemma SamplesAreAll(rows: seq<Row>, rank: string)
    ensures SamplesOf(SamplesByRank(rows), rank) == Samples(rows, rank)
  {
    if rank !in Ranks(rows) {
      NoSamples(rows, rank);
    }
  }

  /** What the loop body makes of the samples so far. */
  function Collected(samples: map<string, seq<Point>>, row: Row): map<string, seq<Point>> {
    if row.points == [] then samples
    else Appended(Appended(samples, row.origin, row.points[0]), row.dest, row.points[|row.points| - 1])
  }

  lemma CollectedAt(samples: map<string, seq<Point>>, row: Row)
    ensures var after := Collected(samples, row);
            && after.Keys == samples.Keys + (if row.points == [] then {} else {row.origin, row.dest})
            && forall rank :: rank in after ==> after[rank] == SamplesOf(samples, rank) + RowSamples(row, rank)
  {
    if row.points == [] {
      assert forall rank :: rank in samples ==> samples[rank] + [] == samples[rank];
    }
  }

  lemma SamplesGrow(rows: seq<Row>, row: Row, rank: string)
    ensures Samples(rows + [row], rank) == SamplesOf(SamplesByRank(rows), rank) + RowSamples(row, rank)
  {
    SamplesOne(rows, row, rank);
    SamplesAreAll(rows, rank);
  }

  lemma IsSamplesByRank(m: map<string, seq<Point>>, rows: seq<Row>)
    requires m.Keys == Ranks(rows) && forall rank :: rank in m ==> m[rank] == Samples(rows, rank)
    ensures m == SamplesByRank(rows)
  {
  }

  lemma CollectedKeys(rows: seq<Row>, row: Row)
    ensures Collected(SamplesByRank(rows), row).Keys == Ranks(rows + [row])
  {
    RanksOne(rows, row);
    CollectedAt(SamplesByRank(rows), row);
  }

  lemma CollectedIs(rows: seq<Row>, row: Row, rank: string)
    requires rank in Collected(SamplesByRank(rows), row)
    ensures Collected(SamplesByRank(rows), row)[rank] == Samples(rows + [row], rank)
  {
    CollectedAt(SamplesByRank(rows), row);
    SamplesGrow(rows, row, rank);
  }

  lemma OneMoreRow(rows: seq<Row>, row: Row)
    ensures SamplesByRank(rows + [row]) == Collected(SamplesByRank(rows), row)
  {
    var after, all := Collected(SamplesByRank(rows), row), rows + [row];
    forall rank | rank in after ensures after[rank] == Samples(all, rank) {
      CollectedIs(rows, row, rank);
    }
    CollectedKeys(rows, row);
    IsSamplesByRank(after, all);
  }

  /** A rank has a coordinate exactly when some row with points starts or ends there; and a new row adds its own samples. */
  lemma CoordinatesAre(rows: seq<Row>, row: Row, rank: string)
    ensures rank in RankCoordinates(rows)
            <==> exists i :: 0 <= i < |rows| && rows[i].points != [] && (rows[i].origin == rank || rows[i].dest == rank)
    ensures rank in RankCoordinates(rows) ==> RankCoordinates(rows)[rank] == Centre(Samples(rows, rank))
    ensures Samples([], rank) == [] && Samples(rows + [row], rank) == Samples(rows, rank) + RowSamples(row, rank)
  {
    SamplesOne(rows, row, rank);
    if rank in RankCoordinates(rows) {
      var r :| r in rows && r.points != [] && (r.origin == rank || r.dest == rank);
    }
  }

  // ----- order does not matter -----

  lemma {:induction false} SamplesJoin(a: seq<Row>, b: seq<Row>, rank: string)
    ensures Samples(a + b, rank) == Samples(a, rank) + Samples(b, rank)
  {
    if b == [] {
      assert a + b == a;
    } else {
      var front, last := b[..|b| - 1], b[|b| - 1];
      assert a + b == a + front + [last];
      SamplesJoin(a, front, rank);
      SamplesOne(a + front, last, rank);
      Associates(Samples(a, rank), Samples(front, rank), RowSamples(last, rank));
    }
  }

  lemma Associates(a: seq<Point>, b: seq<Point>, c: seq<Point>)
    ensures a + b + c == a + (b + c)
  {
  }

  lemma RemoveAt(rows: seq<Row>, i: nat)
    requires i < |rows|
    ensures rows == rows[..i] + [rows[i]] + rows[i + 1..]
    ensures multiset(rows[..i] + rows[i + 1..]) == multiset(rows) - multiset{rows[i]}
  {
    assert rows == rows[..i] + [rows[i]] + rows[i + 1..];
  }

  lemma SamplesWithout(rows: seq<Row>, i: nat, rank: string)
    requires i < |rows|
    ensures multiset(Samples(rows, rank))
            == multiset(Samples(rows[..i] + rows[i + 1..], rank)) + multiset(RowSamples(rows[i], rank))
  {
    var a, b := rows[..i], rows[i + 1..];
    RemoveAt(rows, i);
    SamplesJoin(a + [rows[i]], b, rank);
    SamplesOne(a, rows[i], rank);
    SamplesJoin(a, b, rank);
  }

  /** Moving rows about moves samples about. */
  lemma {:induction false} SamplesPermute(rows: seq<Row>, rows': seq<Row>, rank: string)
    requires multiset(rows) == multiset(rows')
    ensures multiset(Samples(rows, rank)) == multiset(Samples(rows', rank))
  {
    assert |multiset(rows)| == |multiset(rows')|;
    if rows != [] {
      var n := |rows| - 1;
      assert rows[n] in multiset(rows');
      var i :| 0 <= i < |rows'| && rows'[i] == rows[n];
      RemoveAt(rows, n);
      RemoveAt(rows', i);
      assert rows[..n] + rows[n + 1..] == rows[..n];
      SamplesPermute(rows[..n], rows'[..i] + rows'[i + 1..], rank);
      SamplesWithout(rows, n, rank);
      SamplesWithout(rows', i, rank);
    }
  }

  /** Samples in another order have the same centre. */
  lemma CentrePermutes(samples: seq<Point>, samples': seq<Point>)
    requires multiset(samples) == multiset(samples')
    ensures Centre(samples) == Centre(samples')
  {
    AxesPermute(samples, samples');
    SortPermutes(Lons(samples), Lons(samples'));
    SortPermutes(Lats(samples), Lats(samples'));
  }

  lemma SortPermutes(s: seq<real>, t: seq<real>)
    requires multiset(s) == multiset(t)
    ensures SortedUp(s) == SortedUp(t)
  {
    SortKeeps(s);
    SortKeeps(t);
    SortAscends(s);
    SortAscends(t);
    AscendingIsUnique(SortedUp(s), SortedUp(t));
  }

  lemma AxesJoin(a: seq<Point>, b: seq<Point>)
    ensures Lons(a + b) == Lons(a) + Lons(b) && Lats(a + b) == Lats(a) + Lats(b)
  {
  }

  lemma PointsWithout(s: seq<Point>, i: nat)
    requires i < |s|
    ensures multiset(s[..i] + s[i + 1..]) == multiset(s) - multiset{s[i]}
    ensures multiset(Lons(s)) == multiset(Lons(s[..i] + s[i + 1..])) + multiset{s[i].lon}
    ensures multiset(Lats(s)) == multiset(Lats(s[..i] + s[i + 1..])) + multiset{s[i].lat}
  {
    var a, x, b := s[..i], s[i], s[i + 1..];
    assert s == a + [x] + b;
    AxesSplit(a, x, b);
  }

  lemma AxesSplit(a: seq<Point>, x: Point, b: seq<Point>)
    ensures multiset(a + b) == multiset(a + [x] + b) - multiset{x}
    ensures multiset(Lons(a + [x] + b)) == multiset(Lons(a + b)) + multiset{x.lon}
    ensures multiset(Lats(a + [x] + b)) == multiset(Lats(a + b)) + multiset{x.lat}
  {
    AxesJoin(a + [x], b);
    AxesJoin(a, [x]);
    AxesJoin(a, b);
    assert Lons([x]) == [x.lon] && Lats([x]) == [x.lat];
  }

  lemma {:induction false} AxesPermute(s: seq<Point>, t: seq<Point>)
    requires multiset(s) == multiset(t)
    ensures multiset(Lons(s)) == multiset(Lons(t)) && multiset(Lats(s)) == multiset(Lats(t))
  {
    assert |multiset(s)| == |multiset(t)|;
    if s != [] {
      var n := |s| - 1;
      assert s[n] in multiset(t);
      var i :| 0 <= i < |t| && t[i] == s[n];
      PointsWithout(s, n);
      PointsWithout(t, i);
      AxesPermute(s[..n] + s[n + 1..], t[..i] + t[i + 1..]);
    }
  }

  /** A rank's coordinate does not depend on the order of the rows in the file. */
  lemma CoordinatesIgnoreOrder(rows: seq<Row>, rows': seq<Row>)
    requires multiset(rows) == multiset(rows')
    ensures RankCoordinates(rows) == RankCoordinates(rows')
  {
    assert forall r :: r in rows <==> r in multiset(rows);
    assert forall r :: r in rows' <==> r in multiset(rows');
    assert Ranks(rows) == Ranks(rows');
    forall rank | rank in Ranks(rows) ensures Centre(Samples(rows, rank)) == Centre(Samples(rows', rank)) {
      SamplesPermute(rows, rows', rank);
      CentrePermutes(Samples(rows, rank), Samples(rows', rank));
    }
  }
}
