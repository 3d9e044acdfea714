/** Importing and clearing the city's route catalogue: catalogue/import.go and the catalogue half of routing/repo.go. */
module Catalogue {
  import opened Wrappers
  import opened Medians
  import opened RouteNames

  datatype Source = Seed | FromCatalogue

  datatype Stop = Stop(id: nat, name: string, coordinate: Option<Point>, source: Source)
  datatype Route = Route(id: nat, name: string, association: string, source: Source)
  datatype Leg = Leg(route: nat, from: nat, to: nat, fare: int, estimated: bool)
  datatype Geometry = Geometry(route: nat, points: seq<Point>)

  /** The tables, rows in insertion order, and the next unused id. */
  datatype Db = Db(stops: seq<Stop>, routes: seq<Route>, legs: seq<Leg>, geometries: seq<Geometry>, next: nat)

  const ASSOCIATION: string := "City of Cape Town open data (unverified, no association attribution)"

  // ----- rows -----

  /** The first row of that name; names are not unique in the tables. */
  function FindStop(stops: seq<Stop>, name: string): Option<Stop> {
    if stops == [] then None
    else
      var first, last := FindStop(stops[..|stops| - 1], name), stops[|stops| - 1];
      if first.Some? then first else if last.name == name then Some(last) else None
  }

  function FindRoute(routes: seq<Route>, name: string): Option<Route> {
    if routes == [] then None
    else
      var first, last := FindRoute(routes[..|routes| - 1], name), routes[|routes| - 1];
      if first.Some? then first else if last.name == name then Some(last) else None
  }

  function CoordinateOf(coordinates: map<string, Point>, name: string): Option<Point> {
    if name in coordinates then Some(coordinates[name]) else None
  }

  /** Finds the stop, or creates it at the rank's coordinate. */
  function WithStop(db: Db, name: string, coordinates: map<string, Point>): (r: Db)
    ensures FindStop(r.stops, name).Some?
  {
    if FindStop(db.stops, name).Some? then db
    else
      var stop := Stop(db.next, name, CoordinateOf(coordinates, name), FromCatalogue);
      assert (db.stops + [stop])[..|db.stops|] == db.stops;
      db.(stops := db.stops + [stop], next := db.next + 1)
  }

  function NameOf(row: Row): string { RouteName(row.origin, row.dest, row.objectId) }

  function WithStops(db: Db, row: Row, coordinates: map<string, Point>): (r: Db)
    ensures FindStop(r.stops, row.origin).Some? && FindStop(r.stops, row.dest).Some?
  {
    FindStopStays(WithStop(db, row.origin, coordinates), row.dest, coordinates, row.origin);
    WithStop(WithStop(db, row.origin, coordinates), row.dest, coordinates)
  }

  lemma FindStopStays(db: Db, name: string, coordinates: map<string, Point>, other: string)
    ensures FindStop(db.stops, other).Some? ==>
              FindStop(WithStop(db, name, coordinates).stops, other) == FindStop(db.stops, other)
  {
    var r := WithStop(db, name, coordinates);
    if r != db {
      assert r.stops[..|db.stops|] == db.stops;
    }
  }

  function WithRoute(db: Db, row: Row): Db
    requires FindStop(db.stops, row.origin).Some? && FindStop(db.stops, row.dest).Some?
  {
    var from, to := FindStop(db.stops, row.origin).value.id, FindStop(db.stops, row.dest).value.id;
    db.(routes := db.routes + [Route(db.next, NameOf(row), ASSOCIATION, FromCatalogue)],
        legs := db.legs + [Leg(db.next, from, to, row.fare, true)],
        geometries := db.geometries + (if row.points == [] then [] else [Geometry(db.next, row.points)]),
        next := db.next + 1)
  }

  /** One row: nothing if a route of its name exists, else stops, route, leg and geometry. */
  function ImportRow(db: Db, row: Row, coordinates: map<string, Point>): Db {
    if FindRoute(db.routes, NameOf(row)).Some? then db else WithRoute(WithStops(db, row, coordinates), row)
  }

  function ImportRows(db: Db, rows: seq<Row>, coordinates: map<string, Point>): Db {
    if rows == [] then db else ImportRow(ImportRows(db, rows[..|rows| - 1], coordinates), rows[|rows| - 1], coordinates)
  }

  /** A completed Import of a parsed file. */
  function Imported(db: Db, rows: seq<Row>): Db { ImportRows(db, rows, RankCoordinates(rows)) }

  // ----- an import that stops -----

  /** How far the statements of one row got; they are not one transaction. */
  datatype Stage = Untouched | OneStop | TwoStops | NoLeg | NoGeometry

  function ImportPart(db: Db, row: Row, coordinates: map<string, Point>, stage: Stage): Db {
    if FindRoute(db.routes, NameOf(row)).Some? then db
    else RowAttempted(db, row, coordinates, Some(stage))
  }

  function RouteAttempted(db: Db, row: Row, stop: Option<Stage>): Db
    requires FindStop(db.stops, row.origin).Some? && FindStop(db.stops, row.dest).Some?
  {
    var r := WithRoute(db, row);
    if stop == Some(NoLeg) then r.(legs := db.legs, geometries := db.geometries)
    else if stop == Some(NoGeometry) then r.(geometries := db.geometries)
    else r
  }

  function RowAttempted(db: Db, row: Row, coordinates: map<string, Point>, stop: Option<Stage>): Db {
    match stop
    case Some(Untouched) => db
    case Some(OneStop) => WithStop(db, row.origin, coordinates)
    case Some(TwoStops) => WithStops(db, row, coordinates)
    case _ => RouteAttempted(WithStops(db, row, coordinates), row, stop)
  }

  /** An Import that stops while it is at row n. */
  function Stopped(db: Db, rows: seq<Row>, n: nat, stage: Stage): Db
    requires n < |rows|
  {
    ImportPart(ImportRows(db, rows[..n], RankCoordinates(rows)), rows[n], RankCoordinates(rows), stage)
  }

  datatype Failure = Failure(row: nat, stage: Stage)

  /** What an Import does to the tables; the failure, if any, is the database's or the operator's. */
  function Attempted(db: Db, rows: seq<Row>, failure: Option<Failure>): Db {
    if failure.Some? && failure.value.row < |rows| then Stopped(db, rows, failure.value.row, failure.value.stage)
    else Imported(db, rows)
  }

  function SeenRanks(rows: seq<Row>): set<string> {
    (set r | r in rows :: r.origin) + (set r | r in rows :: r.dest)
  }

  function NewRanks(db: Db, row: Row): set<string> {
    if FindRoute(db.routes, NameOf(row)).Some? then {} else {row.origin, row.dest}
  }

  /** The ranks of the rows that were not skipped. */
  function UsedRanks(db: Db, rows: seq<Row>, coordinates: map<string, Point>): set<string> {
    if rows == [] then {}
    else
      var front, last := rows[..|rows| - 1], rows[|rows| - 1];
      UsedRanks(db, front, coordinates) + NewRanks(ImportRows(db, front, coordinates), last)
  }

  // ----- clearing -----

  function Where<T>(rows: seq<T>, keep: T -> bool): seq<T> {
    if rows == [] then []
    else Where(rows[..|rows| - 1], keep) + if keep(rows[|rows| - 1]) then [rows[|rows| - 1]] else []
  }

  lemma {:induction false} WhereIs<T(!new)>(s: seq<T>, keep: T -> bool)
    ensures Kept(s, Where(s, keep), keep)
    ensures (forall i :: 0 <= i < |s| ==> keep(s[i])) ==> Where(s, keep) == s
  {
    if s != [] {
      assert s == s[..|s| - 1] + [s[|s| - 1]];
      WhereIs(s[..|s| - 1], keep);
    }
  }

  function CatalogueIds(routes: seq<Route>): set<nat> {
    set r | r in routes && r.source == FromCatalogue :: r.id
  }

  function Ends(legs: seq<Leg>): set<nat> {
    (set l | l in legs :: l.from) + (set l | l in legs :: l.to)
  }

  /** Geometries, legs and routes of the catalogue, then its stops that no leg is left to use. */
  function Cleared(db: Db): Db {
    var gone := CatalogueIds(db.routes);
    var legs := Where(db.legs, LegStays(gone));
    db.(geometries := Where(db.geometries, GeometryStays(gone)),
        legs := legs,
        routes := Where(db.routes, RouteStays()),
        stops := Where(db.stops, StopStays(Ends(legs))))
  }

  ghost predicate Kept<T(!new)>(rows: seq<T>, left: seq<T>, keep: T -> bool) {
    |left| <= |rows| && forall x :: x in left <==> x in rows && keep(x)
  }

  /** Which rows a clear leaves: the seeded routes, their legs and geometries, and the stops seeded or still in use. */
  ghost predicate Survivors(db: Db, left: Db) {
    && Kept(db.routes, left.routes, RouteStays())
    && Kept(db.legs, left.legs, LegStays(CatalogueIds(db.routes)))
    && Kept(db.geometries, left.geometries, GeometryStays(CatalogueIds(db.routes)))
    && Kept(db.stops, left.stops, StopStays(Ends(left.legs)))
  }

  lemma ClearedKeeps(db: Db)
    ensures Survivors(db, Cleared(db))
  {
    var gone := CatalogueIds(db.routes);
    WhereIs(db.geometries, GeometryStays(gone));
    WhereIs(db.legs, LegStays(gone));
    WhereIs(db.routes, RouteStays());
    WhereIs(db.stops, StopStays(Ends(Where(db.legs, LegStays(gone)))));
  }

  function LegStays(gone: set<nat>): Leg -> bool { (l: Leg) => l.route !in gone }
  function GeometryStays(gone: set<nat>): Geometry -> bool { (g: Geometry) => g.route !in gone }
  function RouteStays(): Route -> bool { (r: Route) => r.source != FromCatalogue }
  function StopStays(used: set<nat>): Stop -> bool { (s: Stop) => s.source != FromCatalogue || s.id in used }

  // ----- the tables as objects -----

  /** What an Import reports. */
  datatype Stats = Stats(ranks: nat, imported: nat, existing: nat, created: nat, reused: nat)

  /** Nothing but stops was counted: so many created, so many names met in all. */
  predicate StopCounts(before: Stats, after: Stats, created: int, met: int) {
    && after == before.(created := after.created, reused := after.reused)
    && after.created - before.created == created
    && after.created + after.reused - before.created - before.reused == met
  }

  lemma TakeOneMore<T>(s: seq<T>, i: nat)
    requires i < |s|
    ensures s[..i + 1] == s[..i] + [s[i]]
  {
  }

  lemma OneMoreSeen(front: seq<Row>, row: Row)
    ensures SeenRanks(front + [row]) == SeenRanks(front) + {row.origin, row.dest}
  {
    assert forall r :: r in front + [row] <==> r in front || r == row;
  }

  /** A row handled counts once, as new or as known; one that stops the import is not counted. */
  predicate RowCounts(before: Stats, after: Stats, stop: Option<Stage>, created: int, met: int, routes: int) {
    && StopCounts(before.(imported := after.imported, existing := after.existing), after, created, met)
    && (if stop.Some? then after.imported == before.imported && after.existing == before.existing
        else after.imported - before.imported == routes
             && after.imported + after.existing == before.imported + before.existing + 1)
  }

  predicate CacheOk(cache: map<string, nat>, stops: seq<Stop>) {
    forall n :: n in cache ==> FindStop(stops, n).Some? && FindStop(stops, n).value.id == cache[n]
  }

  lemma CacheGrows(db: Db, cache: map<string, nat>, name: string, coordinates: map<string, Point>)
    requires CacheOk(cache, db.stops)
    ensures var stops := WithStop(db, name, coordinates).stops;
            CacheOk(cache[name := FindStop(stops, name).value.id], stops)
  {
    forall n | n in cache ensures FindStop(WithStop(db, name, coordinates).stops, n) == FindStop(db.stops, n) {
      FindStopStays(db, name, coordinates, n);
    }
  }

  /** Where an Import stands once the front of the file is handled. */
  predicate SoFar(before: Db, d: Db, front: seq<Row>, coordinates: map<string, Point>, cache: map<string, nat>, stats: Stats) {
    && d == ImportRows(before, front, coordinates)
    && CacheOk(cache, d.stops) && cache.Keys == UsedRanks(before, front, coordinates)
    && stats.imported + stats.existing == |front| && stats.imported == |d.routes| - |before.routes|
    && stats.created == |d.stops| - |before.stops| && stats.created + stats.reused == |cache|
  }

  lemma OneMore(before: Db, d: Db, d': Db, front: seq<Row>, row: Row, coordinates: map<string, Point>,
                cache: map<string, nat>, cache': map<string, nat>, stats: Stats, stats': Stats)
    requires SoFar(before, d, front, coordinates, cache, stats)
    requires d' == ImportRow(d, row, coordinates) && CacheOk(cache', d'.stops)
    requires cache'.Keys == cache.Keys + NewRanks(d, row)
    requires RowCounts(stats, stats', None, |d'.stops| - |d.stops|, |cache'| - |cache|, |d'.routes| - |d.routes|)
    ensures SoFar(before, d', front + [row], coordinates, cache', stats')
  {
    assert (front + [row])[..|front|] == front;
  }

  /** Rows a clear removed, by table. */
  datatype Deleted = Deleted(routes: int, legs: int, stops: int, geometries: int)

  method Delete<T>(rows: seq<T>, keep: T -> bool) returns (left: seq<T>, count: nat)
    ensures left == Where(rows, keep) && count == |rows| - |left|
  {
    left, count := [], 0;
    for i := 0 to |rows|
      invariant left == Where(rows[..i], keep) && count == i - |left|
    {
      assert rows[..i + 1][..i] == rows[..i];
      if keep(rows[i]) {
        left := left + [rows[i]];
      } else {
        count := count + 1;
      }
    }
    assert rows[..|rows|] == rows;
  }

  method DeleteFrom(geometries: seq<Geometry>, legs: seq<Leg>, routes: seq<Route>, stops: seq<Stop>, ghost next: nat)
    returns (geometriesLeft: seq<Geometry>, legsLeft: seq<Leg>, routesLeft: seq<Route>, stopsLeft: seq<Stop>, deleted: Deleted)
    ensures Db(stopsLeft, routesLeft, legsLeft, geometriesLeft, next) == Cleared(Db(stops, routes, legs, geometries, next))
    ensures deleted.routes == |routes| - |routesLeft| && deleted.legs == |legs| - |legsLeft|
    ensures deleted.stops == |stops| - |stopsLeft| && deleted.geometries == |geometries| - |geometriesLeft|
  {
    var gone := CatalogueIds(routes);
    var routeCount, legCount, stopCount, geometryCount;
    geometriesLeft, geometryCount := Delete(geometries, GeometryStays(gone));
    legsLeft, legCount := Delete(legs, LegStays(gone));
    routesLeft, routeCount := Delete(routes, RouteStays());
    stopsLeft, stopCount := Delete(stops, StopStays(Ends(legsLeft)));
    deleted := Deleted(routeCount, legCount, stopCount, geometryCount);
  }

  class Repo {
    var stops: seq<Stop>
    var routes: seq<Route>
    var legs: seq<Leg>
    var geometries: seq<Geometry>
    var next: nat

    ghost function View(): Db
      reads this
    {
      Db(stops, routes, legs, geometries, next)
    }

    constructor ()
      ensures View() == Db([], [], [], [], 0)
    {
      stops, routes, legs, geometries, next := [], [], [], [], 0;
    }

    method GetStopByName(name: string) returns (stop: Option<Stop>)
      ensures stop == FindStop(stops, name)
    {
      stop := None;
      for i := 0 to |stops|
        invariant stop == FindStop(stops[..i], name)
      {
        assert stops[..i + 1][..i] == stops[..i];
        if stop.None? && stops[i].name == name {
          stop := Some(stops[i]);
        }
      }
      assert stops[..|stops|] == stops;
    }

    method GetRouteByName(name: string) returns (route: Option<Route>)
      ensures route == FindRoute(routes, name)
    {
      route := None;
      for i := 0 to |routes|
        invariant route == FindRoute(routes[..i], name)
      {
        assert routes[..i + 1][..i] == routes[..i];
        if route.None? && routes[i].name == name {
          route := Some(routes[i]);
        }
      }
      assert routes[..|routes|] == routes;
    }

    method GetOrCreateStop(name: string, coordinates: map<string, Point>) returns (id: nat, made: bool)
      modifies this
      ensures View() == WithStop(old(View()), name, coordinates)
      ensures FindStop(stops, name).value.id == id && |stops| - |old(stops)| == if made then 1 else 0
    {
      var existing := GetStopByName(name);
      if existing.Some? {
        return existing.value.id, false;
      }
      id, made := next, true;
      assert (stops + [Stop(next, name, CoordinateOf(coordinates, name), FromCatalogue)])[..|stops|] == stops;
      stops := stops + [Stop(next, name, CoordinateOf(coordinates, name), FromCatalogue)];
      next := next + 1;
    }

    method CreateCatalogueRoute(row: Row) returns (id: nat)
      modifies this
      ensures id == old(next) && View() == old(View()).(routes := routes, next := id + 1)
      ensures routes == old(routes) + [Route(id, NameOf(row), ASSOCIATION, FromCatalogue)]
    {
      id := next;
      next := next + 1;
      routes := routes + [Route(id, NameOf(row), ASSOCIATION, FromCatalogue)];
    }

    method CreateCatalogueRouteLeg(route: nat, from: nat, to: nat, fare: int)
      modifies this
      ensures View() == old(View()).(legs := old(legs) + [Leg(route, from, to, fare, true)])
    {
      legs := legs + [Leg(route, from, to, fare, true)];
    }

    method CreateRouteGeometry(route: nat, points: seq<Point>)
      modifies this
      ensures View() == old(View()).(geometries := old(geometries) + [Geometry(route, points)])
    {
      geometries := geometries + [Geometry(route, points)];
    }

    /** Stops are cached by name: the table is asked once for each. */
    method Cached(cache: map<string, nat>, stats: Stats, name: string, coordinates: map<string, Point>)
      returns (cache': map<string, nat>, stats': Stats, id: nat)
      requires CacheOk(cache, stops)
      modifies this
      ensures View() == WithStop(old(View()), name, coordinates)
      ensures CacheOk(cache', stops) && cache'.Keys == cache.Keys + {name} && cache'[name] == id
      ensures StopCounts(stats, stats', |stops| - |old(stops)|, |cache'| - |cache|)
    {
      if name in cache {
        return cache, stats, cache[name];
      }
      CacheGrows(View(), cache, name, coordinates);
      var made;
      id, made := GetOrCreateStop(name, coordinates);
      cache' := cache[name := id];
      if made {
        stats' := stats.(created := stats.created + 1);
      } else {
        stats' := stats.(reused := stats.reused + 1);
      }
    }

    method AddStops(cache: map<string, nat>, stats: Stats, row: Row, coordinates: map<string, Point>)
      returns (cache': map<string, nat>, stats': Stats, from: nat, to: nat)
      requires CacheOk(cache, stops)
      modifies this
      ensures View() == WithStops(old(View()), row, coordinates)
      ensures CacheOk(cache', stops) && cache'.Keys == cache.Keys + {row.origin, row.dest}
      ensures from == FindStop(stops, row.origin).value.id && to == FindStop(stops, row.dest).value.id
      ensures StopCounts(stats, stats', |stops| - |old(stops)|, |cache'| - |cache|)
    {
      cache', stats', from := Cached(cache, stats, row.origin, coordinates);
      FindStopStays(View(), row.dest, coordinates, row.origin);
      cache', stats', to := Cached(cache', stats', row.dest, coordinates);
    }

    /** The statements of a new row, up to the one that fails. */
    method AddRow(cache: map<string, nat>, stats: Stats, row: Row, coordinates: map<string, Point>, stop: Option<Stage>)
      returns (cache': map<string, nat>, stats': Stats)
      requires CacheOk(cache, stops)
      modifies this
      ensures View() == RowAttempted(old(View()), row, coordinates, stop)
      ensures CacheOk(cache', stops) && (stop.None? ==> cache'.Keys == cache.Keys + {row.origin, row.dest})
      ensures StopCounts(stats, stats', |stops| - |old(stops)|, |cache'| - |cache|)
    {
      var from, to;
      match stop
      case Some(Untouched) => cache', stats' := cache, stats;
      case Some(OneStop) => cache', stats', from := Cached(cache, stats, row.origin, coordinates);
      case Some(TwoStops) => cache', stats', from, to := AddStops(cache, stats, row, coordinates);
      case _ =>
        cache', stats', from, to := AddStops(cache, stats, row, coordinates);
        CreateRoute(row, from, to, stop);
    }

    /** The statements of a row after its stops. */
    method CreateRoute(row: Row, from: nat, to: nat, stop: Option<Stage>)
      requires FindStop(stops, row.origin).Some? && FindStop(stops, row.dest).Some?
      requires from == FindStop(stops, row.origin).value.id && to == FindStop(stops, row.dest).value.id
      modifies this
      ensures View() == RouteAttempted(old(View()), row, stop) && stops == old(stops)
    {
      var id := CreateCatalogueRoute(row);
      if stop == Some(NoLeg) {
        return;
      }
      CreateCatalogueRouteLeg(id, from, to, row.fare);
      if stop == Some(NoGeometry) {
        return;
      }
      if |row.points| > 0 {
        CreateRouteGeometry(id, row.points);
      } else {
        assert geometries + [] == geometries;
      }
    }

    /** One round of Import's loop. */
    method HandleRow(cache: map<string, nat>, stats: Stats, row: Row, coordinates: map<string, Point>, stop: Option<Stage>)
      returns (cache': map<string, nat>, stats': Stats)
      requires CacheOk(cache, stops)
      modifies this
      ensures View() == if stop.Some? then ImportPart(old(View()), row, coordinates, stop.value)
                        else ImportRow(old(View()), row, coordinates)
      ensures CacheOk(cache', stops)
      ensures stop.None? ==> cache'.Keys == cache.Keys + NewRanks(old(View()), row)
      ensures RowCounts(stats, stats', stop, |stops| - |old(stops)|, |cache'| - |cache|, |routes| - |old(routes)|)
    {
      cache', stats' := cache, stats;
      var known := GetRouteByName(NameOf(row));
      if known.None? {
        cache', stats' := AddRow(cache, stats, row, coordinates, stop);
      }
      if stop.None? {
        stats' := if known.Some? then stats'.(existing := stats'.existing + 1) else stats'.(imported := stats'.imported + 1);
      }
    }

    method Import(rows: seq<Row>, failure: Option<Failure>) returns (ok: bool, stats: Stats)
      modifies this
      ensures View() == Attempted(old(View()), rows, failure)
      ensures ok <==> failure.None? || failure.value.row >= |rows|
      ensures stats.created == |stops| - |old(stops)|
      ensures stats.imported + stats.existing == if ok then |rows| else failure.value.row
      ensures ok ==> stats.imported == |routes| - |old(routes)| && stats.ranks == |SeenRanks(rows)|
      ensures ok ==> stats.created + stats.reused == |UsedRanks(old(View()), rows, RankCoordinates(rows))|
    {
      ghost var before := View();
      var coordinates := PrepareRows(rows);
      ok, stats := true, Stats(0, 0, 0, 0, 0);
      var cache: map<string, nat> := map[];
      var seen: set<string> := {};
      for i := 0 to |rows|
        invariant ok && SoFar(before, View(), rows[..i], coordinates, cache, stats)
        invariant seen == SeenRanks(rows[..i]) && (failure.Some? ==> i <= failure.value.row)
      {
        var row := rows[i];
        TakeOneMore(rows, i);
        OneMoreSeen(rows[..i], row);
        seen := seen + {row.origin, row.dest};
        if failure.Some? && failure.value.row == i {
          cache, stats := HandleRow(cache, stats, row, coordinates, Some(failure.value.stage));
          ok := false;
          return;
        }
        ghost var d, met, so := View(), cache, stats;
        cache, stats := HandleRow(cache, stats, row, coordinates, None);
        OneMore(before, d, View(), rows[..i], row, coordinates, met, cache, so, stats);
      }
      assert rows[..|rows|] == rows;
      stats := stats.(ranks := |seen|);
    }

    /** Four deletes in one transaction; the stops are judged by the legs that are left. */
    method DeleteCatalogueData() returns (deleted: Deleted)
      modifies this
      ensures View() == Cleared(old(View()))
      ensures Survivors(old(View()), View())
      ensures deleted.routes == |old(routes)| - |routes| && deleted.legs == |old(legs)| - |legs|
      ensures deleted.stops == |old(stops)| - |stops| && deleted.geometries == |old(geometries)| - |geometries|
    {
      ClearedKeeps(View());
      geometries, legs, routes, stops, deleted := DeleteFrom(geometries, legs, routes, stops, next);
    }
  }
}
