/** The route catalog of the simulator (`ROUTE_METADATA`) and the
    stops-between query (`get_stops_in_order`) in datasim.py. */
module Routes {
  import opened Common

  datatype Stop = Stop(name: string, lat: real, lon: real, index: int)

  datatype Route = Route(id: string, name: string, stops: seq<Stop>)

  /** `ROUTE_METADATA`, in the insertion order of the dictionary. */
  function Catalog(): seq<Route> {
    [ Route("Route-1", "City Center to University Loop",
        [ Stop("Town Hall", 26.918, 75.790, 0),
          Stop("Main Market", 26.925, 75.795, 1),
          Stop("University Gate", 26.932, 75.785, 2),
          Stop("Hospital Square", 26.920, 75.778, 3) ]),
      Route("Route-2", "Railway Station Shuttle",
        [ Stop("Railway Station", 26.910, 75.805, 0),
          Stop("Industrial Area", 26.900, 75.815, 1),
          Stop("Airport Road", 26.895, 75.800, 2) ]) ]
  }

  /** `ROUTE_METADATA.get(route_id)`: the first route with that id. */
  function FindRoute(routes: seq<Route>, id: string): (r: Option<Route>)
    ensures r.Some? ==> r.value in routes && r.value.id == id
    ensures r.None? <==> forall k :: 0 <= k < |routes| ==> routes[k].id != id
  {
    if routes == [] then None
    else if routes[0].id == id then Some(routes[0])
    else FindRoute(routes[1..], id)
  }

  function Names(stops: seq<Stop>): (names: seq<string>)
    ensures |names| == |stops|
    ensures forall k :: 0 <= k < |stops| ==> names[k] == stops[k].name
  {
    seq(|stops|, k requires 0 <= k < |stops| => stops[k].name)
  }

  /** `next(s['index'] for s in stops if s['name'] == name)`: the index of
      the first stop with that name, or None where Python raises
      StopIteration. */
  function IndexOf(stops: seq<Stop>, name: string): (r: Option<int>)
    ensures r.None? <==> name !in Names(stops)
  {
    if stops == [] then None
    else if stops[0].name == name then Some(stops[0].index)
    else
      assert Names(stops) == [stops[0].name] + Names(stops[1..]);
      IndexOf(stops[1..], name)
  }

  /** The lookup returns the index of the first stop with that name. */
  lemma {:induction false} IndexOfFirst(stops: seq<Stop>, name: string)
    ensures IndexOf(stops, name).Some? ==>
              exists k :: 0 <= k < |stops| && stops[k].name == name && IndexOf(stops, name).value == stops[k].index
                          && forall j :: 0 <= j < k ==> stops[j].name != name
  {
    if stops != [] && stops[0].name != name {
      IndexOfFirst(stops[1..], name);
      if IndexOf(stops, name).Some? {
        var k :| 0 <= k < |stops[1..]| && stops[1..][k].name == name && IndexOf(stops[1..], name).value == stops[1..][k].index
                 && forall j :: 0 <= j < k ==> stops[1..][j].name != name;
        assert stops[k + 1] == stops[1..][k];
        forall j | 0 <= j < k + 1 ensures stops[j].name != name {
          if j > 0 { assert stops[j] == stops[1..][j - 1]; }
        }
      }
    }
  }

  /** `[s for s in stops if lo < s['index'] <= hi]`. */
  function InRange(stops: seq<Stop>, lo: int, hi: int): (r: seq<Stop>)
    ensures |r| <= |stops|
  {
    if stops == [] then []
    else
      var last := stops[|stops| - 1];
      InRange(stops[..|stops| - 1], lo, hi) + (if lo < last.index <= hi then [last] else [])
  }

  function Min(a: int, b: int): int { if a <= b then a else b }
  function Max(a: int, b: int): int { if a <= b then b else a }

  /** `get_stops_in_order`: the stops after the earlier of the two named stops
      up to and including the later one; empty when the route or a name is
      unknown. */
  function StopsInOrder(routeId: string, startName: string, endName: string): seq<Stop> {
    StopsOn(Catalog(), routeId, startName, endName)
  }

  /** The same lookup over a given route table. */
  function StopsOn(routes: seq<Route>, routeId: string, startName: string, endName: string): seq<Stop> {
    match FindRoute(routes, routeId)
    case None => []
    case Some(route) =>
      match (IndexOf(route.stops, startName), IndexOf(route.stops, endName))
      case (Some(i), Some(j)) => InRange(route.stops, Min(i, j), Max(i, j))
      case _ => []
  }

  // ---------------------------------------------------------------------
  // Shape of the catalog

  /** Each stop's `index` is its position in the route. */
  predicate Positional(stops: seq<Stop>) {
    forall k :: 0 <= k < |stops| ==> stops[k].index == k
  }

  predicate DistinctNames(stops: seq<Stop>) {
    forall i, j :: 0 <= i < j < |stops| ==> stops[i].name != stops[j].name
  }

  predicate WellFormed(route: Route) {
    |route.stops| >= 1 && Positional(route.stops) && DistinctNames(route.stops)
  }

  lemma CatalogWellFormed()
    ensures |Catalog()| == 2
    ensures Catalog()[0].id == "Route-1" && Catalog()[1].id == "Route-2"
    ensures forall k :: 0 <= k < |Catalog()| ==> WellFormed(Catalog()[k])
  {
    var r1, r2 := Catalog()[0], Catalog()[1];
    assert WellFormed(r1);
    assert WellFormed(r2);
  }

  lemma CatalogIdsDistinct()
    ensures forall i, j :: 0 <= i < j < |Catalog()| ==> Catalog()[i].id != Catalog()[j].id
  {
    CatalogWellFormed();
    assert Catalog()[0].id != Catalog()[1].id;
  }

  // ---------------------------------------------------------------------
  // Properties of the stops-between query

  /** The interval rule: exactly the stops whose index lies in `(lo, hi]`,
      in route order. */
  lemma {:induction false} InRangeMembers(stops: seq<Stop>, lo: int, hi: int, s: Stop)
    ensures s in InRange(stops, lo, hi) <==> s in stops && lo < s.index <= hi
  {
    if stops != [] {
      var init := stops[..|stops| - 1];
      InRangeMembers(init, lo, hi, s);
      assert stops == init + [stops[|stops| - 1]];
    }
  }

  /** On a positional route the interval `(lo, hi]` is a contiguous slice. */
  lemma {:induction false} InRangeSlice(stops: seq<Stop>, lo: int, hi: int)
    requires Positional(stops)
    requires -1 <= lo <= hi
    ensures InRange(stops, lo, hi)
         == stops[Min(lo + 1, |stops|)..Min(hi + 1, |stops|)]
  {
    if stops != [] {
      var n := |stops|;
      var init := stops[..n - 1];
      assert Positional(init) && stops[n - 1].index == n - 1;
      InRangeSlice(init, lo, hi);
      if hi + 1 <= n - 1 {
        SliceOfInit(stops, lo + 1, hi + 1);
      } else if lo < n - 1 {
        SliceOfInitExtended(stops, lo + 1);
      }
    }
  }

  /** A slice that stops before the last element is a slice of the prefix. */
  lemma SliceOfInit<T>(s: seq<T>, a: int, b: int)
    requires 0 <= a <= b < |s|
    ensures s[..|s| - 1][a..b] == s[a..b]
  {
  }

  /** A suffix slice of the prefix, followed by the last element, is the
      suffix slice of the whole. */
  lemma SliceOfInitExtended<T>(s: seq<T>, a: int)
    requires 0 <= a < |s|
    ensures s[..|s| - 1][a..|s| - 1] + [s[|s| - 1]] == s[a..|s|]
  {
  }

  /** `next(...)` on a route with distinct names finds the stop itself. */
  lemma {:induction false} IndexOfDistinct(stops: seq<Stop>, k: nat)
    requires DistinctNames(stops) && k < |stops|
    ensures IndexOf(stops, stops[k].name) == Some(stops[k].index)
  {
    if k > 0 {
      assert stops[0].name != stops[k].name;
      var tail := stops[1..];
      assert DistinctNames(tail);
      assert tail[k - 1] == stops[k];
      IndexOfDistinct(tail, k - 1);
    }
  }

  /** No match gives empty: an unknown route id or a name missing from the
      route yields the empty list. */
  lemma NoMatchIsEmpty(routeId: string, startName: string, endName: string)
    ensures FindRoute(Catalog(), routeId).None? ==> StopsInOrder(routeId, startName, endName) == []
    ensures (FindRoute(Catalog(), routeId).Some?
             && (startName !in Names(FindRoute(Catalog(), routeId).value.stops)
                 || endName !in Names(FindRoute(Catalog(), routeId).value.stops)))
            ==> StopsInOrder(routeId, startName, endName) == []
  {
  }

  /** Direction does not matter: swapping start and end gives the same stops. */
  lemma StopsOnSymmetric(routes: seq<Route>, routeId: string, a: string, b: string)
    ensures StopsOn(routes, routeId, a, b) == StopsOn(routes, routeId, b, a)
  {
  }

  /** The same stop as start and end: no stops in between. */
  lemma {:induction false} StopsOnSameStop(routes: seq<Route>, routeId: string, a: string)
    ensures StopsOn(routes, routeId, a, a) == []
  {
    match FindRoute(routes, routeId)
    case None =>
    case Some(route) =>
      match IndexOf(route.stops, a)
      case None =>
      case Some(i) =>
        var r := InRange(route.stops, i, i);
        if r != [] {
          InRangeMembers(route.stops, i, i, r[0]);
        }
  }

  /** The interval rule on the catalog: for stops at positions `i` and `j`
      of a route, the result is the slice strictly after the earlier one up
      to and including the later one. */
  lemma StopsInOrderInterval(routeId: string, i: nat, j: nat)
    requires FindRoute(Catalog(), routeId).Some?
    requires i < |FindRoute(Catalog(), routeId).value.stops|
    requires j < |FindRoute(Catalog(), routeId).value.stops|
    ensures var stops := FindRoute(Catalog(), routeId).value.stops;
            StopsInOrder(routeId, stops[i].name, stops[j].name) == stops[Min(i, j) + 1..Max(i, j) + 1]
  {
    CatalogWellFormed();
    StopsOnInterval(Catalog(), routeId, i, j);
  }

  /** The interval rule on any well-formed route of a table. */
  lemma StopsOnInterval(routes: seq<Route>, routeId: string, i: nat, j: nat)
    requires FindRoute(routes, routeId).Some? && WellFormed(FindRoute(routes, routeId).value)
    requires i < |FindRoute(routes, routeId).value.stops|
    requires j < |FindRoute(routes, routeId).value.stops|
    ensures var stops := FindRoute(routes, routeId).value.stops;
            StopsOn(routes, routeId, stops[i].name, stops[j].name) == stops[Min(i, j) + 1..Max(i, j) + 1]
  {
    var stops := FindRoute(routes, routeId).value.stops;
    assert StopsOn(routes, routeId, stops[i].name, stops[j].name) == InRange(stops, Min(i, j), Max(i, j)) by {
      IndexOfDistinct(stops, i);
      IndexOfDistinct(stops, j);
      assert stops[i].index == i && stops[j].index == j;
    }
    InRangeSlice(stops, Min(i, j), Max(i, j));
  }

  /** From the first stop to the last: every stop but the first. */
  lemma FirstToLast(routeId: string)
    requires FindRoute(Catalog(), routeId).Some?
    ensures var stops := FindRoute(Catalog(), routeId).value.stops;
            StopsInOrder(routeId, stops[0].name, stops[|stops| - 1].name) == stops[1..]
  {
    var stops := FindRoute(Catalog(), routeId).value.stops;
    CatalogWellFormed();
    StopsInOrderInterval(routeId, 0, |stops| - 1);
  }

  /** Town Hall to Hospital Square on Route-1. */
  lemma TownHallToHospitalSquare()
    ensures Names(StopsInOrder("Route-1", "Town Hall", "Hospital Square"))
         == ["Main Market", "University Gate", "Hospital Square"]
  {
    FirstToLast("Route-1");
    var stops := Catalog()[0].stops;
    assert Names(stops[1..]) == ["Main Market", "University Gate", "Hospital Square"];
  }
}
