/** What any sequence of imports and clears does to the tables. */
module CatalogueRuns {
  import opened Wrappers
  import opened Medians
  import opened RouteNames
  import opened Catalogue

  predicate SameTables(a: Db, b: Db) {
    a.stops == b.stops && a.routes == b.routes && a.legs == b.legs && a.geometries == b.geometries
  }

  /** Ids are handed out in order, and legs and geometries point at handed-out ones. */
  predicate IdsKnown(db: Db) {
    && (forall i :: 0 <= i < |db.stops| ==> db.stops[i].id < db.next)
    && (forall i :: 0 <= i < |db.routes| ==> db.routes[i].id < db.next)
    && (forall i :: 0 <= i < |db.legs| ==> db.legs[i].route < db.next && db.legs[i].from < db.next && db.legs[i].to < db.next)
    && (forall i :: 0 <= i < |db.geometries| ==> db.geometries[i].route < db.next)
  }

  predicate NoCatalogue(db: Db) {
    && (forall i :: 0 <= i < |db.stops| ==> db.stops[i].source == Seed)
    && (forall i :: 0 <= i < |db.routes| ==> db.routes[i].source == Seed)
  }

  /** Only rows of the catalogue were added, after what was there. */
  predicate Grown(db: Db, d: Db) {
    && db.next <= d.next
    && db.stops <= d.stops && db.routes <= d.routes && db.legs <= d.legs && db.geometries <= d.geometries
    && (forall i :: |db.stops| <= i < |d.stops| ==> d.stops[i].source == FromCatalogue && d.stops[i].id >= db.next)
    && (forall i :: |db.routes| <= i < |d.routes| ==> d.routes[i].source == FromCatalogue && d.routes[i].id >= db.next)
    && (forall i :: |db.legs| <= i < |d.legs| ==> d.legs[i].route in CatalogueIds(d.routes))
    && (forall i :: |db.geometries| <= i < |d.geometries| ==> d.geometries[i].route in CatalogueIds(d.routes))
  }

  // ----- an import only adds -----

  lemma {:induction false} FoundIsThere(stops: seq<Stop>, name: string)
    requires FindStop(stops, name).Some?
    ensures exists i :: 0 <= i < |stops| && stops[i] == FindStop(stops, name).value && stops[i].name == name
  {
    var front := stops[..|stops| - 1];
    if FindStop(front, name).Some? {
      FoundIsThere(front, name);
      var i :| 0 <= i < |front| && front[i] == FindStop(front, name).value && front[i].name == name;
      assert stops[i] == front[i];
    }
  }

  lemma IdsAdd(routes: seq<Route>, r: Route)
    ensures CatalogueIds(routes + [r]) == CatalogueIds(routes) + if r.source == FromCatalogue then {r.id} else {}
  {
    assert forall x :: x in routes + [r] <==> x in routes || x == r;
  }

  lemma WithStopGrows(db: Db, d: Db, name: string, coordinates: map<string, Point>)
    requires Grown(db, d) && IdsKnown(d)
    ensures Grown(db, WithStop(d, name, coordinates)) && IdsKnown(WithStop(d, name, coordinates))
  {
  }

  lemma WithRouteGrows(db: Db, d: Db, row: Row)
    requires Grown(db, d) && IdsKnown(d)
    requires FindStop(d.stops, row.origin).Some? && FindStop(d.stops, row.dest).Some?
    ensures Grown(db, WithRoute(d, row)) && IdsKnown(WithRoute(d, row))
  {
    FoundIsThere(d.stops, row.origin);
    FoundIsThere(d.stops, row.dest);
    IdsAdd(d.routes, Route(d.next, NameOf(row), ASSOCIATION, FromCatalogue));
  }

  lemma ImportRowGrows(db: Db, d: Db, row: Row, coordinates: map<string, Point>)
    requires Grown(db, d) && IdsKnown(d)
    ensures Grown(db, ImportRow(d, row, coordinates)) && IdsKnown(ImportRow(d, row, coordinates))
  {
    hide WithRoute, WithStop, Grown, IdsKnown;
    WithStopGrows(db, d, row.origin, coordinates);
    WithStopGrows(db, WithStop(d, row.origin, coordinates), row.dest, coordinates);
    WithRouteGrows(db, WithStops(d, row, coordinates), row);
  }

  lemma RouteAttemptedGrows(db: Db, d: Db, row: Row, stop: Option<Stage>)
    requires Grown(db, d) && IdsKnown(d)
    requires FindStop(d.stops, row.origin).Some? && FindStop(d.stops, row.dest).Some?
    ensures Grown(db, RouteAttempted(d, row, stop)) && IdsKnown(RouteAttempted(d, row, stop))
  {
    WithRouteGrows(db, d, row);
    IdsAdd(d.routes, Route(d.next, NameOf(row), ASSOCIATION, FromCatalogue));
  }

  lemma ImportPartGrows(db: Db, d: Db, row: Row, coordinates: map<string, Point>, stage: Stage)
    requires Grown(db, d) && IdsKnown(d)
    ensures Grown(db, ImportPart(d, row, coordinates, stage)) && IdsKnown(ImportPart(d, row, coordinates, stage))
  {
    hide WithRoute, WithStop, Grown, IdsKnown;
    WithStopGrows(db, d, row.origin, coordinates);
    WithStopGrows(db, WithStop(d, row.origin, coordinates), row.dest, coordinates);
    RouteAttemptedGrows(db, WithStops(d, row, coordinates), row, Some(stage));
  }

  /** No row that was there is altered or moved; every added row is the catalogue's. */
  lemma {:induction false} ImportOnlyAdds(db: Db, rows: seq<Row>, coordinates: map<string, Point>)
    requires IdsKnown(db)
    ensures Grown(db, ImportRows(db, rows, coordinates)) && IdsKnown(ImportRows(db, rows, coordinates))
  {
    if rows != [] {
      ImportOnlyAdds(db, rows[..|rows| - 1], coordinates);
      ImportRowGrows(db, ImportRows(db, rows[..|rows| - 1], coordinates), rows[|rows| - 1], coordinates);
    }
  }

  /** However far an import got, it only added rows of the catalogue. */
  lemma AttemptOnlyAdds(db: Db, rows: seq<Row>, failure: Option<Failure>)
    requires IdsKnown(db)
    ensures Grown(db, Attempted(db, rows, failure)) && IdsKnown(Attempted(db, rows, failure))
  {
    var coordinates := RankCoordinates(rows);
    if failure.Some? && failure.value.row < |rows| {
      var n := failure.value.row;
      ImportOnlyAdds(db, rows[..n], coordinates);
      ImportPartGrows(db, ImportRows(db, rows[..n], coordinates), rows[n], coordinates, failure.value.stage);
    } else {
      ImportOnlyAdds(db, rows, coordinates);
    }
  }

  // ----- clearing takes it back -----

  lemma {:induction false} WhereGrown<T>(a: seq<T>, b: seq<T>, f: T -> bool, g: T -> bool)
    requires a <= b
    requires forall i :: 0 <= i < |a| ==> f(a[i]) == g(b[i])
    requires forall i :: |a| <= i < |b| ==> !g(b[i])
    ensures Where(a, f) == Where(b, g)
  {
    if |b| > |a| {
      WhereGrown(a, b[..|b| - 1], f, g);
    } else if a != [] {
      WhereGrown(a[..|a| - 1], b[..|b| - 1], f, g);
    }
  }

  lemma GoneIsOld(db: Db, d: Db, id: nat)
    requires Grown(db, d) && id < db.next
    ensures id in CatalogueIds(d.routes) <==> id in CatalogueIds(db.routes)
  {
    if id in CatalogueIds(db.routes) {
      var i :| 0 <= i < |db.routes| && db.routes[i].source == FromCatalogue && db.routes[i].id == id;
      assert d.routes[i] in d.routes;
    }
  }

  lemma LegsComeBack(db: Db, d: Db)
    requires Grown(db, d) && IdsKnown(db)
    ensures Cleared(d).legs == Cleared(db).legs && Cleared(d).geometries == Cleared(db).geometries
  {
    forall i | 0 <= i < |db.legs|
      ensures d.legs[i].route in CatalogueIds(d.routes) <==> db.legs[i].route in CatalogueIds(db.routes)
    {
      GoneIsOld(db, d, db.legs[i].route);
    }
    forall i | 0 <= i < |db.geometries|
      ensures d.geometries[i].route in CatalogueIds(d.routes) <==> db.geometries[i].route in CatalogueIds(db.routes)
    {
      GoneIsOld(db, d, db.geometries[i].route);
    }
    WhereGrown(db.legs, d.legs, LegStays(CatalogueIds(db.routes)), LegStays(CatalogueIds(d.routes)));
    WhereGrown(db.geometries, d.geometries, GeometryStays(CatalogueIds(db.routes)), GeometryStays(CatalogueIds(d.routes)));
  }

  lemma EndsAreOld(db: Db, id: nat)
    requires IdsKnown(db) && id in Ends(Cleared(db).legs)
    ensures id < db.next
  {
    WhereIs(db.legs, LegStays(CatalogueIds(db.routes)));
    var l :| l in Cleared(db).legs && (l.from == id || l.to == id);
    assert l in db.legs;
  }

  lemma StopsComeBack(db: Db, d: Db)
    requires Grown(db, d) && IdsKnown(db) && Cleared(d).legs == Cleared(db).legs
    ensures Cleared(d).stops == Cleared(db).stops
  {
    var used := Ends(Cleared(db).legs);
    forall i | |db.stops| <= i < |d.stops| ensures d.stops[i].id !in used {
      if d.stops[i].id in used {
        EndsAreOld(db, d.stops[i].id);
      }
    }
    WhereGrown(db.stops, d.stops, StopStays(used), StopStays(used));
  }

  lemma ClearForgetsGrowth(db: Db, d: Db)
    requires Grown(db, d) && IdsKnown(db)
    ensures SameTables(Cleared(d), Cleared(db))
  {
    LegsComeBack(db, d);
    StopsComeBack(db, d);
    WhereGrown(db.routes, d.routes, RouteStays(), RouteStays());
  }

  /** Clearing after an import, complete or stopped at any statement, leaves what clearing before it would have left. */
  lemma ClearForgetsImport(db: Db, rows: seq<Row>, failure: Option<Failure>)
    requires IdsKnown(db)
    ensures SameTables(Cleared(Attempted(db, rows, failure)), Cleared(db))
  {
    AttemptOnlyAdds(db, rows, failure);
    ClearForgetsGrowth(db, Attempted(db, rows, failure));
  }

  predicate NothingToClear(db: Db) {
    && (forall i :: 0 <= i < |db.routes| ==> RouteStays()(db.routes[i]))
    && (forall i :: 0 <= i < |db.stops| ==> StopStays(Ends(db.legs))(db.stops[i]))
  }

  lemma ClearOfNothing(db: Db)
    requires NothingToClear(db)
    ensures Cleared(db) == db
  {
    assert CatalogueIds(db.routes) == {};
    WhereIs(db.legs, LegStays({}));
    WhereIs(db.geometries, GeometryStays({}));
    WhereIs(db.routes, RouteStays());
    WhereIs(db.stops, StopStays(Ends(db.legs)));
  }

  predicate OfCatalogue(routes: seq<Route>, id: nat) {
    exists i :: 0 <= i < |routes| && routes[i].id == id && routes[i].source == FromCatalogue
  }

  lemma CatalogueIdsAre(routes: seq<Route>, id: nat)
    ensures id in CatalogueIds(routes) <==> OfCatalogue(routes, id)
  {
    if id in CatalogueIds(routes) {
      var r :| r in routes && r.source == FromCatalogue && r.id == id;
    }
  }

  /** A clear keeps exactly the seeded routes, the legs and geometries that no catalogue route has, and the stops that are
      seeded or where a leg that is left starts or ends. */
  lemma ClearKeepsExactly(db: Db, r: Route, l: Leg, g: Geometry, s: Stop)
    ensures var c := Cleared(db);
            && (r in c.routes <==> r in db.routes && r.source == Seed)
            && (l in c.legs <==> l in db.legs && !OfCatalogue(db.routes, l.route))
            && (g in c.geometries <==> g in db.geometries && !OfCatalogue(db.routes, g.route))
            && (s in c.stops <==>
                s in db.stops && (s.source == Seed || exists m :: m in c.legs && (m.from == s.id || m.to == s.id)))
  {
    ClearedKeeps(db);
    CatalogueIdsAre(db.routes, l.route);
    CatalogueIdsAre(db.routes, g.route);
  }

  lemma ClearOfSeedsOnly(db: Db)
    requires NoCatalogue(db)
    ensures Cleared(db) == db
  {
    ClearOfNothing(db);
  }

  /** An import cleared again: the tables are exactly what they were. */
  lemma RoundTrip(db: Db, rows: seq<Row>, failure: Option<Failure>)
    requires IdsKnown(db) && NoCatalogue(db)
    ensures SameTables(Cleared(Attempted(db, rows, failure)), db)
  {
    ClearForgetsImport(db, rows, failure);
    ClearOfSeedsOnly(db);
  }

  lemma ClearTwice(db: Db)
    ensures Cleared(Cleared(db)) == Cleared(db)
  {
    var c := Cleared(db);
    WhereIs(db.routes, RouteStays());
    WhereIs(db.stops, StopStays(Ends(c.legs)));
    ClearOfNothing(c);
  }

  lemma ClearKeepsIds(db: Db)
    requires IdsKnown(db)
    ensures IdsKnown(Cleared(db))
  {
    var c := Cleared(db);
    WhereIs(db.legs, LegStays(CatalogueIds(db.routes)));
    WhereIs(db.geometries, GeometryStays(CatalogueIds(db.routes)));
    WhereIs(db.routes, RouteStays());
    WhereIs(db.stops, StopStays(Ends(c.legs)));
    forall i | 0 <= i < |c.stops| ensures c.stops[i].id < c.next { assert c.stops[i] in db.stops; }
    forall i | 0 <= i < |c.routes| ensures c.routes[i].id < c.next { assert c.routes[i] in db.routes; }
    forall i | 0 <= i < |c.legs| ensures c.legs[i].route < c.next && c.legs[i].from < c.next && c.legs[i].to < c.next {
      assert c.legs[i] in db.legs;
    }
    forall i | 0 <= i < |c.geometries| ensures c.geometries[i].route < c.next { assert c.geometries[i] in db.geometries; }
  }

  datatype Op = ImportFile(rows: seq<Row>, failure: Option<Failure>) | Clear

  function Next(db: Db, op: Op): Db {
    match op case ImportFile(rows, failure) => Attempted(db, rows, failure) case Clear => Cleared(db)
  }

  function Run(db: Db, ops: seq<Op>): Db {
    if ops == [] then db else Next(Run(db, ops[..|ops| - 1]), ops[|ops| - 1])
  }

  /** However files were imported, in full or in part, and cleared, a clear brings back the tables as they were first. */
  lemma {:induction false} ClearRestores(db: Db, ops: seq<Op>)
    requires IdsKnown(db) && NoCatalogue(db)
    ensures IdsKnown(Run(db, ops)) && SameTables(Cleared(Run(db, ops)), db)
  {
    if ops == [] {
      ClearOfSeedsOnly(db);
    } else {
      var d, op := Run(db, ops[..|ops| - 1]), ops[|ops| - 1];
      ClearRestores(db, ops[..|ops| - 1]);
      match op
      case ImportFile(rows, failure) =>
        AttemptOnlyAdds(d, rows, failure);
        ClearForgetsImport(d, rows, failure);
      case Clear =>
        ClearKeepsIds(d);
        ClearTwice(d);
    }
  }

  // ----- importing again -----

  lemma {:induction false} FindRouteStays(routes: seq<Route>, more: seq<Route>, name: string)
    requires routes <= more
    ensures FindRoute(routes, name).Some? ==> FindRoute(more, name) == FindRoute(routes, name)
  {
    if |more| > |routes| {
      FindRouteStays(routes, more[..|more| - 1], name);
    } else {
      assert routes == more;
    }
  }

  lemma ImportRowNames(db: Db, row: Row, coordinates: map<string, Point>)
    ensures db.routes <= ImportRow(db, row, coordinates).routes
    ensures FindRoute(ImportRow(db, row, coordinates).routes, NameOf(row)).Some?
  {
    if FindRoute(db.routes, NameOf(row)).None? {
      var d := WithStops(db, row, coordinates);
      assert WithRoute(d, row).routes[..|d.routes|] == d.routes;
    }
  }

  lemma NameStays(d: Db, row: Row, coordinates: map<string, Point>, name: string)
    requires FindRoute(d.routes, name).Some?
    ensures FindRoute(ImportRow(d, row, coordinates).routes, name).Some?
  {
    ImportRowNames(d, row, coordinates);
    FindRouteStays(d.routes, ImportRow(d, row, coordinates).routes, name);
  }

  /** After an import every row of the file has a route of its name. */
  lemma {:induction false} EveryRowHasARoute(db: Db, rows: seq<Row>, coordinates: map<string, Point>, i: nat)
    requires i < |rows|
    ensures FindRoute(ImportRows(db, rows, coordinates).routes, NameOf(rows[i])).Some?
  {
    hide ImportRow;
    var front, last := rows[..|rows| - 1], rows[|rows| - 1];
    var d := ImportRows(db, front, coordinates);
    if i < |front| {
      EveryRowHasARoute(db, front, coordinates, i);
      NameStays(d, last, coordinates, NameOf(rows[i]));
    } else {
      ImportRowNames(d, last, coordinates);
    }
  }

  lemma {:induction false} KnownRowsChangeNothing(db: Db, rows: seq<Row>, coordinates: map<string, Point>)
    requires forall i :: 0 <= i < |rows| ==> FindRoute(db.routes, NameOf(rows[i])).Some?
    ensures ImportRows(db, rows, coordinates) == db
  {
    if rows != [] {
      KnownRowsChangeNothing(db, rows[..|rows| - 1], coordinates);
    }
  }

  /** Importing again, the same file or any rows of it in any order, changes nothing. */
  lemma ReimportIsNoOp(db: Db, rows: seq<Row>, again: seq<Row>)
    requires forall i :: 0 <= i < |again| ==> again[i] in rows
    ensures Imported(Imported(db, rows), again) == Imported(db, rows)
  {
    var d := Imported(db, rows);
    forall i | 0 <= i < |again| ensures FindRoute(d.routes, NameOf(again[i])).Some? {
      var k :| 0 <= k < |rows| && rows[k] == again[i];
      EveryRowHasARoute(db, rows, RankCoordinates(rows), k);
    }
    KnownRowsChangeNothing(d, again, RankCoordinates(again));
  }

  // ----- stopping -----

  /** The stops that were there and then at most these two. */
  predicate OnlyNewStops(before: seq<Stop>, after: seq<Stop>, a: string, b: string) {
    before <= after && forall i :: |before| <= i < |after| ==> after[i].name == a || after[i].name == b
  }

  lemma StopMade(d: Db, name: string, coordinates: map<string, Point>)
    ensures var d' := WithStop(d, name, coordinates);
            OnlyNewStops(d.stops, d'.stops, name, name) && FindStop(d'.stops, name).Some?
  {
  }

  lemma StopsMade(db: Db, row: Row, coordinates: map<string, Point>)
    ensures var d := WithStops(db, row, coordinates);
            && OnlyNewStops(db.stops, d.stops, row.origin, row.dest)
            && FindStop(d.stops, row.origin).Some? && FindStop(d.stops, row.dest).Some?
  {
    StopMade(db, row.origin, coordinates);
    StopMade(WithStop(db, row.origin, coordinates), row.dest, coordinates);
  }

  /** Which of a row's stops are there when the import stops in it. */
  lemma StoppedRowsStops(db: Db, row: Row, coordinates: map<string, Point>, stage: Stage)
    requires FindRoute(db.routes, NameOf(row)).None?
    ensures var stops := ImportPart(db, row, coordinates, stage).stops;
            match stage
            case Untouched => stops == db.stops
            case OneStop => OnlyNewStops(db.stops, stops, row.origin, row.origin) && FindStop(stops, row.origin).Some?
            case _ =>
              && OnlyNewStops(db.stops, stops, row.origin, row.dest)
              && FindStop(stops, row.origin).Some? && FindStop(stops, row.dest).Some?
  {
    StopMade(db, row.origin, coordinates);
    StopsMade(db, row, coordinates);
  }

  predicate SameRoutes(a: Db, b: Db) { a.routes == b.routes && a.legs == b.legs && a.geometries == b.geometries }

  lemma StopLeavesRoutes(d: Db, name: string, coordinates: map<string, Point>)
    ensures SameRoutes(WithStop(d, name, coordinates), d)
  {
  }

  lemma StopsLeaveRoutes(d: Db, row: Row, coordinates: map<string, Point>)
    ensures SameRoutes(WithStops(d, row, coordinates), d)
  {
    StopLeavesRoutes(d, row.origin, coordinates);
    StopLeavesRoutes(WithStop(d, row.origin, coordinates), row.dest, coordinates);
  }

  /** The route's row alone, or its row and leg; never its geometry. */
  predicate RouteBegun(before: Db, after: Db, row: Row, stage: Stage) {
    && after.geometries == before.geometries && before.routes <= after.routes && before.legs <= after.legs
    && |after.routes| == |before.routes| + 1 && |after.legs| == |before.legs| + (if stage.NoGeometry? then 1 else 0)
    && after.routes[|before.routes|].name == NameOf(row)
    && (stage.NoGeometry? ==>
          && after.legs[|before.legs|].route == after.routes[|before.routes|].id
          && after.legs[|before.legs|].fare == row.fare)
  }

  lemma RouteBegins(before: Db, d: Db, row: Row, stage: Stage)
    requires FindStop(d.stops, row.origin).Some? && FindStop(d.stops, row.dest).Some? && (stage.NoLeg? || stage.NoGeometry?)
    requires SameRoutes(d, before)
    ensures RouteBegun(before, RouteAttempted(d, row, Some(stage)), row, stage)
  {
  }

  /** How much of a row's route is there when the import stops in it. */
  lemma StoppedRowsRoute(db: Db, row: Row, coordinates: map<string, Point>, stage: Stage)
    requires FindRoute(db.routes, NameOf(row)).None?
    ensures var d := ImportPart(db, row, coordinates, stage);
            if stage.NoLeg? || stage.NoGeometry? then RouteBegun(db, d, row, stage) else SameRoutes(d, db)
  {
    StopLeavesRoutes(db, row.origin, coordinates);
    StopsLeaveRoutes(db, row, coordinates);
    if stage.NoLeg? || stage.NoGeometry? {
      var d := WithStops(db, row, coordinates);
      RouteBegins(db, d, row, stage);
      assert ImportPart(db, row, coordinates, stage) == RouteAttempted(d, row, Some(stage));
    }
  }

  // ----- resuming -----

  /** The route exists and something of it is missing. */
  predicate InsideRoute(d: Db, row: Row, stage: Stage) {
    FindRoute(d.routes, NameOf(row)).None? && (stage.NoLeg? || (stage.NoGeometry? && row.points != []))
  }

  lemma StopAgain(db: Db, name: string, other: string, coordinates: map<string, Point>)
    ensures var d := WithStop(db, name, coordinates);
            WithStop(d, name, coordinates) == d
            && WithStop(WithStop(d, other, coordinates), name, coordinates) == WithStop(d, other, coordinates)
  {
    FindStopStays(WithStop(db, name, coordinates), other, coordinates, name);
  }

  /** A row stopped among its stops is completed by the next import. */
  lemma StopsResume(d: Db, row: Row, coordinates: map<string, Point>, stage: Stage)
    requires stage.Untouched? || stage.OneStop? || stage.TwoStops?
    ensures ImportRow(ImportPart(d, row, coordinates, stage), row, coordinates) == ImportRow(d, row, coordinates)
  {
    StopAgain(d, row.origin, row.dest, coordinates);
    StopAgain(WithStop(d, row.origin, coordinates), row.dest, row.dest, coordinates);
  }

  /** Past its route row, a row is skipped by the next import. */
  lemma RouteIsSkipped(d: Db, row: Row, coordinates: map<string, Point>, stage: Stage)
    requires stage.NoLeg? || stage.NoGeometry?
    ensures ImportRow(ImportPart(d, row, coordinates, stage), row, coordinates) == ImportPart(d, row, coordinates, stage)
  {
    if FindRoute(d.routes, NameOf(row)).None? {
      StoppedRowsRoute(d, row, coordinates, stage);
      FirstOfName([], ImportPart(d, row, coordinates, stage).routes, NameOf(row));
    }
  }

  /** Alike but for legs and geometries, of which one has this many more. */
  predicate Behind(d: Db, e: Db, legs: nat, geometries: nat) {
    && d.stops == e.stops && d.routes == e.routes && d.next == e.next
    && |d.legs| + legs == |e.legs| && |d.geometries| + geometries == |e.geometries|
  }

  lemma StaysBehind(d: Db, e: Db, row: Row, coordinates: map<string, Point>, legs: nat, geometries: nat)
    requires Behind(d, e, legs, geometries)
    ensures Behind(ImportRow(d, row, coordinates), ImportRow(e, row, coordinates), legs, geometries)
  {
    StopBehind(d, e, row.origin, coordinates, legs, geometries);
    StopBehind(WithStop(d, row.origin, coordinates), WithStop(e, row.origin, coordinates), row.dest, coordinates,
               legs, geometries);
  }

  lemma StopBehind(d: Db, e: Db, name: string, coordinates: map<string, Point>, legs: nat, geometries: nat)
    requires Behind(d, e, legs, geometries)
    ensures Behind(WithStop(d, name, coordinates), WithStop(e, name, coordinates), legs, geometries)
  {
  }

  lemma FrontIsKnown(db: Db, front: seq<Row>, row: Row, coordinates: map<string, Point>, stage: Stage)
    ensures var p := ImportPart(ImportRows(db, front, coordinates), row, coordinates, stage);
            ImportRows(p, front, coordinates) == p
  {
    var d := ImportRows(db, front, coordinates);
    var p := ImportPart(d, row, coordinates, stage);
    hide ImportPart, ImportRow;
    PartKeepsRoutes(d, row, coordinates, stage);
    forall i | 0 <= i < |front| ensures FindRoute(p.routes, NameOf(front[i])).Some? {
      EveryRowHasARoute(db, front, coordinates, i);
      FindRouteStays(d.routes, p.routes, NameOf(front[i]));
    }
    KnownRowsChangeNothing(p, front, coordinates);
  }

  lemma PartKeepsRoutes(d: Db, row: Row, coordinates: map<string, Point>, stage: Stage)
    ensures d.routes <= ImportPart(d, row, coordinates, stage).routes
  {
    if FindRoute(d.routes, NameOf(row)).None? {
      StoppedRowsRoute(d, row, coordinates, stage);
    }
  }

  /** The row in question, stopped and then imported again, against its full import. */
  lemma RowResumes(d: Db, row: Row, coordinates: map<string, Point>, stage: Stage)
    ensures var again := ImportRow(ImportPart(d, row, coordinates, stage), row, coordinates);
            var full := ImportRow(d, row, coordinates);
            Resumed(d, row, stage, again, full)
  {
    if stage.NoLeg? || stage.NoGeometry? {
      RouteIsSkipped(d, row, coordinates, stage);
      BegunIsBehind(WithStops(d, row, coordinates), row, stage);
    } else {
      StopsResume(d, row, coordinates, stage);
    }
  }

  /** What a route begun lacks of the whole. */
  lemma BegunIsBehind(d: Db, row: Row, stage: Stage)
    requires FindStop(d.stops, row.origin).Some? && FindStop(d.stops, row.dest).Some? && (stage.NoLeg? || stage.NoGeometry?)
    ensures var begun, whole := RouteAttempted(d, row, Some(stage)), WithRoute(d, row);
            if stage.NoLeg? || row.points != []
            then Behind(begun, whole, if stage.NoLeg? then 1 else 0, if row.points != [] then 1 else 0)
            else begun == whole
  {
    assert d.geometries + [] == d.geometries;
  }

  lemma PrefixStep(db: Db, rows: seq<Row>, k: nat, coordinates: map<string, Point>)
    requires k < |rows|
    ensures ImportRows(db, rows[..k + 1], coordinates) == ImportRow(ImportRows(db, rows[..k], coordinates), rows[k], coordinates)
  {
    assert rows[..k + 1][..k] == rows[..k];
  }

  /** The rows up to and with the one it stopped in: those before are known, so resuming starts over at that row. */
  lemma ResumesAtRow(db: Db, rows: seq<Row>, n: nat, stage: Stage, coordinates: map<string, Point>)
    requires n < |rows|
    ensures var d := ImportRows(db, rows[..n], coordinates); var p := ImportPart(d, rows[n], coordinates, stage);
            Resumed(d, rows[n], stage, ImportRows(p, rows[..n + 1], coordinates), ImportRows(db, rows[..n + 1], coordinates))
  {
    var d := ImportRows(db, rows[..n], coordinates);
    var p := ImportPart(d, rows[n], coordinates, stage);
    FrontIsKnown(db, rows[..n], rows[n], coordinates, stage);
    hide ImportRow, ImportPart, InsideRoute, Behind;
    PrefixStep(p, rows, n, coordinates);
    PrefixStep(db, rows, n, coordinates);
    RowResumes(d, rows[n], coordinates, stage);
  }

  /** From then on both imports treat the rows alike. */
  lemma {:induction false} ResumesUpTo(db: Db, rows: seq<Row>, n: nat, k: nat, stage: Stage, coordinates: map<string, Point>)
    requires n < k <= |rows|
    ensures var d := ImportRows(db, rows[..n], coordinates); var p := ImportPart(d, rows[n], coordinates, stage);
            Resumed(d, rows[n], stage, ImportRows(p, rows[..k], coordinates), ImportRows(db, rows[..k], coordinates))
    decreases k
  {
    hide ImportRow, ImportPart, InsideRoute, Behind;
    if k == n + 1 {
      ResumesAtRow(db, rows, n, stage, coordinates);
    } else {
      var d := ImportRows(db, rows[..n], coordinates);
      var p := ImportPart(d, rows[n], coordinates, stage);
      ResumesUpTo(db, rows, n, k - 1, stage, coordinates);
      PrefixStep(p, rows, k - 1, coordinates);
      PrefixStep(db, rows, k - 1, coordinates);
      StaysResumed(d, rows[n], stage, ImportRows(p, rows[..k - 1], coordinates), ImportRows(db, rows[..k - 1], coordinates),
                   rows[k - 1], coordinates);
    }
  }

  /** The tables of a resumed import against those of a full one. */
  predicate Resumed(d: Db, row: Row, stage: Stage, again: Db, full: Db) {
    if InsideRoute(d, row, stage) then Behind(again, full, if stage.NoLeg? then 1 else 0, if row.points != [] then 1 else 0)
    else again == full
  }

  lemma StaysResumed(d: Db, row: Row, stage: Stage, again: Db, full: Db, next: Row, coordinates: map<string, Point>)
    requires Resumed(d, row, stage, again, full)
    ensures Resumed(d, row, stage, ImportRow(again, next, coordinates), ImportRow(full, next, coordinates))
  {
    if InsideRoute(d, row, stage) {
      StaysBehind(again, full, next, coordinates, if stage.NoLeg? then 1 else 0, if row.points != [] then 1 else 0);
    }
  }

  /**
   * Importing the file again after a stop gives what one full import gives, except when it stopped inside a route:
   * that route's missing leg or geometry is never written, and the tables stay short of it.
   */
  lemma ResumesUnlessInsideRoute(db: Db, rows: seq<Row>, n: nat, stage: Stage)
    requires n < |rows|
    ensures var d, again := ImportRows(db, rows[..n], RankCoordinates(rows)), Imported(Stopped(db, rows, n, stage), rows);
            && (!InsideRoute(d, rows[n], stage) ==> again == Imported(db, rows))
            && (InsideRoute(d, rows[n], stage) ==> !SameTables(again, Imported(db, rows)))
  {
    ResumesUpTo(db, rows, n, |rows|, stage, RankCoordinates(rows));
    assert rows[..|rows|] == rows;
  }

  // ----- a route for each row -----

  /** The k-th route and leg of an import are those of this row, between the stops of its ranks. */
  predicate Serves(db: Db, d: Db, k: nat, row: Row) {
    && |db.routes| + k < |d.routes| && |db.legs| + k < |d.legs|
    && (var r, l := d.routes[|db.routes| + k], d.legs[|db.legs| + k];
        && r.name == row.origin + " - " + row.dest + " (CoCT #" + Decimal(row.objectId) + ")"
        && r.association == ASSOCIATION && r.source == FromCatalogue
        && l.route == r.id && l.fare == row.fare && l.estimated
        && (row.points != [] ==> Geometry(r.id, row.points) in d.geometries)
        && FindStop(d.stops, row.origin).Some? && FindStop(d.stops, row.origin).value.id == l.from
        && FindStop(d.stops, row.dest).Some? && FindStop(d.stops, row.dest).value.id == l.to)
  }

  predicate DistinctIds(rows: seq<Row>) {
    forall i, j :: 0 <= i < j < |rows| ==> rows[i].objectId != rows[j].objectId
  }

  predicate NoneTaken(db: Db, rows: seq<Row>) {
    forall i :: 0 <= i < |rows| ==> FindRoute(db.routes, NameOf(rows[i])).None?
  }

  lemma ServesStays(db: Db, d: Db, k: nat, row: Row, next: Row, coordinates: map<string, Point>)
    requires Serves(db, d, k, row)
    ensures Serves(db, ImportRow(d, next, coordinates), k, row)
  {
    FindStopStays(d, next.origin, coordinates, row.origin);
    FindStopStays(d, next.origin, coordinates, row.dest);
    FindStopStays(WithStop(d, next.origin, coordinates), next.dest, coordinates, row.origin);
    FindStopStays(WithStop(d, next.origin, coordinates), next.dest, coordinates, row.dest);
  }

  /** An import so far: the routes there before and, in order, one for each row. */
  predicate OneEach(db: Db, d: Db, rows: seq<Row>) {
    && |d.routes| == |db.routes| + |rows| && |d.legs| == |db.legs| + |rows|
    && db.routes <= d.routes
    && forall k :: 0 <= k < |rows| ==> Serves(db, d, k, rows[k])
  }

  lemma {:induction false} NameIsNew(db: Db, routes: seq<Route>, rows: seq<Row>, name: string)
    requires |routes| == |db.routes| + |rows| && db.routes <= routes && FindRoute(db.routes, name).None?
    requires forall k :: 0 <= k < |rows| ==> routes[|db.routes| + k].name == NameOf(rows[k]) && NameOf(rows[k]) != name
    ensures FindRoute(routes, name).None?
  {
    if rows == [] {
      assert routes == db.routes;
    } else {
      var k := |rows| - 1;
      assert routes[|db.routes| + k].name == NameOf(rows[k]) && NameOf(rows[k]) != name;
      NameIsNew(db, routes[..|routes| - 1], rows[..|rows| - 1], name);
    }
  }

  /** Only rows with points store a geometry. */
  lemma {:induction false} GeometriesHavePoints(db: Db, rows: seq<Row>, coordinates: map<string, Point>)
    ensures var d := ImportRows(db, rows, coordinates);
            db.geometries <= d.geometries && forall i :: |db.geometries| <= i < |d.geometries| ==> d.geometries[i].points != []
  {
    if rows != [] {
      GeometriesHavePoints(db, rows[..|rows| - 1], coordinates);
    }
  }

  lemma NewRouteServes(db: Db, d: Db, row: Row, k: nat)
    requires FindStop(d.stops, row.origin).Some? && FindStop(d.stops, row.dest).Some?
    requires |d.routes| == |db.routes| + k && |d.legs| == |db.legs| + k
    ensures var d' := WithRoute(d, row);
            Serves(db, d', k, row) && |d'.routes| == |d.routes| + 1 && |d'.legs| == |d.legs| + 1
  {
  }

  lemma NewRowServes(db: Db, d: Db, row: Row, coordinates: map<string, Point>, k: nat)
    requires FindRoute(d.routes, NameOf(row)).None? && |d.routes| == |db.routes| + k && |d.legs| == |db.legs| + k
    ensures var d' := ImportRow(d, row, coordinates);
            Serves(db, d', k, row) && |d'.routes| == |d.routes| + 1 && |d'.legs| == |d.legs| + 1
  {
    StopsLeaveRoutes(d, row, coordinates);
    NewRouteServes(db, WithStops(d, row, coordinates), row, k);
  }

  lemma NamesAreNew(db: Db, d: Db, front: seq<Row>, last: Row)
    requires forall k :: 0 <= k < |front| ==> front[k].objectId != last.objectId
    requires FindRoute(db.routes, NameOf(last)).None? && OneEach(db, d, front)
    ensures FindRoute(d.routes, NameOf(last)).None?
  {
    forall k | 0 <= k < |front| ensures NameOf(front[k]) != NameOf(last) && d.routes[|db.routes| + k].name == NameOf(front[k]) {
      assert Serves(db, d, k, front[k]);
      if NameOf(front[k]) == NameOf(last) {
        NameInjective(front[k].origin, front[k].dest, front[k].objectId, last.origin, last.dest, last.objectId);
      }
    }
    NameIsNew(db, d.routes, front, NameOf(last));
  }

  lemma RowServed(db: Db, d: Db, rows: seq<Row>, coordinates: map<string, Point>, k: nat)
    requires k < |rows| && OneEach(db, d, rows[..|rows| - 1]) && FindRoute(d.routes, NameOf(rows[|rows| - 1])).None?
    ensures Serves(db, ImportRow(d, rows[|rows| - 1], coordinates), k, rows[k])
  {
    if k < |rows| - 1 {
      assert Serves(db, d, k, rows[..|rows| - 1][k]);
      ServesStays(db, d, k, rows[k], rows[|rows| - 1], coordinates);
    } else {
      NewRowServes(db, d, rows[k], coordinates, k);
    }
  }

  lemma OneMoreEach(db: Db, d: Db, rows: seq<Row>, coordinates: map<string, Point>)
    requires rows != [] && OneEach(db, d, rows[..|rows| - 1]) && FindRoute(d.routes, NameOf(rows[|rows| - 1])).None?
    ensures OneEach(db, ImportRow(d, rows[|rows| - 1], coordinates), rows)
  {
    var d' := ImportRow(d, rows[|rows| - 1], coordinates);
    NewRowServes(db, d, rows[|rows| - 1], coordinates, |rows| - 1);
    ImportRowNames(d, rows[|rows| - 1], coordinates);
    forall k | 0 <= k < |rows| ensures Serves(db, d', k, rows[k]) {
      RowServed(db, d, rows, coordinates, k);
    }
  }

  /** Rows with distinct OBJECTIDs, none imported before, each get a route and a leg of their own, in file order. */
  lemma {:induction false} EachRowItsOwnRoute(db: Db, rows: seq<Row>, coordinates: map<string, Point>)
    requires DistinctIds(rows) && NoneTaken(db, rows)
    ensures OneEach(db, ImportRows(db, rows, coordinates), rows)
  {
    if rows != [] {
      var front, last := rows[..|rows| - 1], rows[|rows| - 1];
      var d := ImportRows(db, front, coordinates);
      EachRowItsOwnRoute(db, front, coordinates);
      NamesAreNew(db, d, front, last);
      OneMoreEach(db, d, rows, coordinates);
    }
  }

  // ----- which stops are made -----

  /** The row of that name that comes first, if there is one. */
  lemma {:induction false} FirstOfName(stops: seq<Stop>, routes: seq<Route>, name: string)
    ensures match FindStop(stops, name)
            case None => forall i :: 0 <= i < |stops| ==> stops[i].name != name
            case Some(s) => exists i :: 0 <= i < |stops| && stops[i] == s && s.name == name
                                        && forall j :: 0 <= j < i ==> stops[j].name != name
    ensures match FindRoute(routes, name)
            case None => forall i :: 0 <= i < |routes| ==> routes[i].name != name
            case Some(r) => exists i :: 0 <= i < |routes| && routes[i] == r && r.name == name
                                        && forall j :: 0 <= j < i ==> routes[j].name != name
    decreases |stops| + |routes|
  {
    if stops != [] {
      var front := stops[..|stops| - 1];
      FirstOfName(front, routes, name);
      assert forall j :: 0 <= j < |front| ==> stops[j] == front[j];
    } else if routes != [] {
      var front := routes[..|routes| - 1];
      FirstOfName(stops, front, name);
      assert forall j :: 0 <= j < |front| ==> routes[j] == front[j];
    }
  }

  /** From the n-th on, no stop has a name that came before. */
  predicate NamesNewFrom(stops: seq<Stop>, n: nat) {
    forall i, j :: n <= i < |stops| && 0 <= j < i ==> stops[j].name != stops[i].name
  }

  lemma StopIsNew(db: Db, d: Db, name: string, coordinates: map<string, Point>)
    requires |db.stops| <= |d.stops| && NamesNewFrom(d.stops, |db.stops|)
    ensures var d' := WithStop(d, name, coordinates);
            |d.stops| <= |d'.stops| && NamesNewFrom(d'.stops, |db.stops|) && d'.routes == d.routes
  {
    FirstOfName(d.stops, [], name);
  }

  /** An import makes a stop only for a name that no stop has, before it or in it. */
  lemma {:induction false} StopsAreNew(db: Db, rows: seq<Row>, coordinates: map<string, Point>)
    ensures var d := ImportRows(db, rows, coordinates); |db.stops| <= |d.stops| && NamesNewFrom(d.stops, |db.stops|)
  {
    if rows != [] {
      var d, row := ImportRows(db, rows[..|rows| - 1], coordinates), rows[|rows| - 1];
      StopsAreNew(db, rows[..|rows| - 1], coordinates);
      StopIsNew(db, d, row.origin, coordinates);
      StopIsNew(db, WithStop(d, row.origin, coordinates), row.dest, coordinates);
    }
  }

  // ----- where stops are put -----

  predicate StandsAt(s: Stop, coordinates: map<string, Point>) {
    s.source == FromCatalogue && s.coordinate == if s.name in coordinates then Some(coordinates[s.name]) else None
  }

  /** Stops were added, each where its rank is. */
  predicate AddedInPlace(before: seq<Stop>, after: seq<Stop>, coordinates: map<string, Point>) {
    before <= after && forall i :: |before| <= i < |after| ==> StandsAt(after[i], coordinates)
  }

  lemma StopIsCentred(d: Db, name: string, coordinates: map<string, Point>)
    ensures AddedInPlace(d.stops, WithStop(d, name, coordinates).stops, coordinates)
  {
  }

  lemma RowStopsAreCentred(d: Db, row: Row, coordinates: map<string, Point>)
    ensures AddedInPlace(d.stops, ImportRow(d, row, coordinates).stops, coordinates)
  {
    StopIsCentred(d, row.origin, coordinates);
    StopIsCentred(WithStop(d, row.origin, coordinates), row.dest, coordinates);
  }

  /** Stops created by an import stand at their rank's median over the whole file. */
  lemma {:induction false} StopsAreCentred(db: Db, rows: seq<Row>, coordinates: map<string, Point>)
    ensures AddedInPlace(db.stops, ImportRows(db, rows, coordinates).stops, coordinates)
  {
    if rows != [] {
      StopsAreCentred(db, rows[..|rows| - 1], coordinates);
      RowStopsAreCentred(ImportRows(db, rows[..|rows| - 1], coordinates), rows[|rows| - 1], coordinates);
    }
  }

  /** A stop an import creates has the median coordinate of its rank over the whole file. */
  lemma ImportedStopsAreCentred(db: Db, rows: seq<Row>, i: nat)
    requires var d := Imported(db, rows); |db.stops| <= i < |d.stops|
    ensures var s := Imported(db, rows).stops[i];
            && s.source == FromCatalogue
            && s.coordinate == if s.name in RankCoordinates(rows) then Some(Centre(Samples(rows, s.name))) else None
  {
    StopsAreCentred(db, rows, RankCoordinates(rows));
  }
}
