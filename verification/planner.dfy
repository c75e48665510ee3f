/** The journey planner of run_app.py: `calculate_journey_time`, the
    `/api/v1/plan` handler (`get_route_plan`) that pairs every route serving
    both stops with its running buses and sorts the suggestions by total
    journey time, and the status mapping of `/api/admin/bus-update`. */
module Planner {
  import opened Common
  import opened Routes
  import opened Operational
  import opened LiveStatus
  import opened Sorting

  /** Minutes spent passing `legs` stops at `perLegMin` minutes each. */
  function LegMinutes(legs: nat, perLegMin: real): real {
    legs as real * perLegMin
  }

  /** With 4 to 8 minutes per leg, `legs` stops take 4 to 8 minutes each. */
  lemma LegMinutesBounds(legs: nat, perLegMin: real)
    requires 4.0 <= perLegMin <= 8.0
    ensures 4.0 * legs as real <= LegMinutes(legs, perLegMin) <= 8.0 * legs as real
  {
    var k := legs as real;
    assert k * (perLegMin - 4.0) >= 0.0;
    assert k * (8.0 - perLegMin) >= 0.0;
  }

  /** `calculate_journey_time`: the boarding ETA from the ETA model (`eta`,
      applied to the bus speed and the distance to the start stop) and the
      total journey time, the boarding ETA plus the transit minutes.
      `perLegMin` is the `random.uniform(4, 8)` draw; `routes` is the route
      table the stops between are read from, the catalog in a plan. */
  function JourneyTime(routes: seq<Route>, speed: int, boardingKm: real, startName: string, endName: string,
                       routeId: string, perLegMin: real, eta: (int, real) -> real): (r: (real, real))
    ensures r.0 == eta(speed, boardingKm)
  {
    var boarding := eta(speed, boardingKm);
    (boarding, boarding + LegMinutes(|StopsOn(routes, routeId, startName, endName)|, perLegMin))
  }

  /** With 4 to 8 minutes per leg the journey takes the boarding ETA plus 4
      to 8 minutes for each stop passed, never less than the boarding ETA. */
  lemma JourneyTimeBounds(routes: seq<Route>, speed: int, boardingKm: real, startName: string, endName: string,
                          routeId: string, perLegMin: real, eta: (int, real) -> real)
    requires 4.0 <= perLegMin <= 8.0
    ensures var r := JourneyTime(routes, speed, boardingKm, startName, endName, routeId, perLegMin, eta);
            var legs := |StopsOn(routes, routeId, startName, endName)| as real;
            && r.0 + 4.0 * legs <= r.1 <= r.0 + 8.0 * legs
            && r.0 <= r.1
  {
    LegMinutesBounds(|StopsOn(routes, routeId, startName, endName)|, perLegMin);
  }

  /** The journey time does not depend on the direction of travel. */
  lemma JourneyTimeSymmetric(routes: seq<Route>, speed: int, boardingKm: real, a: string, b: string,
                             routeId: string, perLegMin: real, eta: (int, real) -> real)
    ensures JourneyTime(routes, speed, boardingKm, a, b, routeId, perLegMin, eta)
         == JourneyTime(routes, speed, boardingKm, b, a, routeId, perLegMin, eta)
  {
    StopsOnSymmetric(routes, routeId, a, b);
  }

  /** Boarding at the destination: the journey is just the boarding ETA. */
  lemma JourneyTimeSameStop(routes: seq<Route>, speed: int, boardingKm: real, a: string,
                            routeId: string, perLegMin: real, eta: (int, real) -> real)
    ensures var r := JourneyTime(routes, speed, boardingKm, a, a, routeId, perLegMin, eta);
            r.1 == r.0
  {
    StopsOnSameStop(routes, routeId, a);
  }

  // ---------------------------------------------------------------------
  // The plan request

  /** One entry of the `suggestions` list; the two times are the values of
      their one-decimal renderings (`f"{x:.1f}"`). */
  datatype Suggestion = Suggestion(
    routeId: string,
    busId: string,
    etaToStartMin: real,
    totalJourneyMin: real,
    crowdedness: string,
    currentStop: string,
    endStop: string)

  /** The draws of one suggestion: `random.uniform(0.5, 3.0)` for the
      distance to the start stop and `random.uniform(4, 8)` per leg. */
  datatype PlanDraw = PlanDraw(boardingKm: real, perLegMin: real)

  predicate PlanDrawFits(d: PlanDraw) {
    0.5 <= d.boardingKm <= 3.0 && 4.0 <= d.perLegMin <= 8.0
  }

  datatype PlanError = MissingStops   // HTTP 400

  /** Number of buses the handler asks the simulator for. */
  const PlanFleet: nat := 15

  /** The most suggestions one request can produce. */
  const MaxSuggestions: nat := 2 * PlanFleet

  predicate Serves(route: Route, startName: string, endName: string) {
    startName in Names(route.stops) && endName in Names(route.stops)
  }

  predicate HasBuses(live: map<string, Snapshot>, n: nat) {
    forall i :: 1 <= i <= n ==> BusId(i) in live
  }

  /** Every number is that of a bus of the planned fleet. */
  predicate InFleet(ids: seq<nat>) {
    forall k :: 0 <= k < |ids| ==> 1 <= ids[k] <= PlanFleet
  }

  /** The numbers of the buses among Bus-1..Bus-n that run on `routeId`, in
      the order of the live-status dictionary. */
  function RunningOn(live: map<string, Snapshot>, routeId: string, n: nat): (ids: seq<nat>)
    requires HasBuses(live, PlanFleet) && n <= PlanFleet
    ensures |ids| <= n
    ensures forall k :: 0 <= k < |ids| ==> 1 <= ids[k] <= n
  {
    if n == 0 then []
    else
      var snap := live[BusId(n)];
      RunningOn(live, routeId, n - 1) + (if snap.routeId == routeId && snap.isRunning then [n] else [])
  }

  /** The buses of one route are listed in increasing number order. */
  lemma {:induction false} RunningOnIncreasing(live: map<string, Snapshot>, routeId: string, n: nat)
    requires HasBuses(live, PlanFleet) && n <= PlanFleet
    ensures forall j, k :: 0 <= j < k < |RunningOn(live, routeId, n)| ==>
              RunningOn(live, routeId, n)[j] < RunningOn(live, routeId, n)[k]
  {
    if n > 0 {
      RunningOnIncreasing(live, routeId, n - 1);
    }
  }

  lemma {:induction false} RunningOnMembers(live: map<string, Snapshot>, routeId: string, n: nat, i: nat)
    requires HasBuses(live, PlanFleet) && n <= PlanFleet
    ensures i in RunningOn(live, routeId, n) <==>
              1 <= i <= n && live[BusId(i)].routeId == routeId && live[BusId(i)].isRunning
  {
    if n > 0 {
      RunningOnMembers(live, routeId, n - 1, i);
    }
  }

  /** The bus numbers the two nested loops visit, route by route. */
  function Matches(routes: seq<Route>, live: map<string, Snapshot>, startName: string, endName: string): (ids: seq<nat>)
    requires HasBuses(live, PlanFleet)
    ensures |ids| <= |routes| * PlanFleet
    ensures InFleet(ids)
  {
    if routes == [] then []
    else
      var last := routes[|routes| - 1];
      Matches(routes[..|routes| - 1], live, startName, endName)
        + (if Serves(last, startName, endName) then RunningOn(live, last.id, PlanFleet) else [])
  }

  /** Some route of `routes` with id `routeId` serves both stops. */
  predicate ServedBy(routes: seq<Route>, routeId: string, startName: string, endName: string) {
    exists k :: 0 <= k < |routes| && routes[k].id == routeId && Serves(routes[k], startName, endName)
  }

  lemma ServedBySplit(routes: seq<Route>, routeId: string, startName: string, endName: string)
    requires routes != []
    ensures var init, last := routes[..|routes| - 1], routes[|routes| - 1];
            ServedBy(routes, routeId, startName, endName) <==>
              ServedBy(init, routeId, startName, endName)
              || (last.id == routeId && Serves(last, startName, endName))
  {
    var init := routes[..|routes| - 1];
    if ServedBy(routes, routeId, startName, endName) {
      var k :| 0 <= k < |routes| && routes[k].id == routeId && Serves(routes[k], startName, endName);
      if k < |init| {
        assert init[k] == routes[k];
      }
    }
    if ServedBy(init, routeId, startName, endName) {
      var k :| 0 <= k < |init| && init[k].id == routeId && Serves(init[k], startName, endName);
      assert routes[k] == init[k];
    }
  }

  /** A bus is visited iff it runs on some route serving both stops. */
  lemma {:induction false} MatchesMembers(routes: seq<Route>, live: map<string, Snapshot>,
                                          startName: string, endName: string, i: nat)
    requires HasBuses(live, PlanFleet)
    ensures i in Matches(routes, live, startName, endName) <==>
              && 1 <= i <= PlanFleet && live[BusId(i)].isRunning
              && ServedBy(routes, live[BusId(i)].routeId, startName, endName)
  {
    if routes != [] {
      var init := routes[..|routes| - 1];
      var last := routes[|routes| - 1];
      MatchesMembers(init, live, startName, endName, i);
      RunningOnMembers(live, last.id, PlanFleet, i);
      if 1 <= i <= PlanFleet {
        ServedBySplit(routes, live[BusId(i)].routeId, startName, endName);
      }
    }
  }

  predicate NoRepeats(ids: seq<nat>) {
    forall j, k :: 0 <= j < k < |ids| ==> ids[j] != ids[k]
  }

  /** Each visited bus is visited once when route ids are distinct: a bus
      has one route, and within a route the buses are visited in order. */
  lemma {:induction false} MatchesDistinct(routes: seq<Route>, live: map<string, Snapshot>,
                                           startName: string, endName: string)
    requires HasBuses(live, PlanFleet)
    requires forall j, k :: 0 <= j < k < |routes| ==> routes[j].id != routes[k].id
    ensures NoRepeats(Matches(routes, live, startName, endName))
  {
    if routes != [] {
      var init := routes[..|routes| - 1];
      var last := routes[|routes| - 1];
      MatchesDistinct(init, live, startName, endName);
      var a := Matches(init, live, startName, endName);
      var b := if Serves(last, startName, endName) then RunningOn(live, last.id, PlanFleet) else [];
      RunningOnIncreasing(live, last.id, PlanFleet);
      assert a + b == Matches(routes, live, startName, endName);
      forall x | x in a ensures x !in b {
        MatchesMembers(init, live, startName, endName, x);
        var k :| 0 <= k < |init| && init[k].id == live[BusId(x)].routeId && Serves(init[k], startName, endName);
        assert init[k] == routes[k];
        RunningOnMembers(live, last.id, PlanFleet, x);
      }
      NoRepeatsAppend(a, b);
    }
  }

  lemma NoRepeatsAppend(a: seq<nat>, b: seq<nat>)
    requires NoRepeats(a) && NoRepeats(b)
    requires forall x :: x in a ==> x !in b
    ensures NoRepeats(a + b)
  {
    var ids := a + b;
    forall j, k | 0 <= j < k < |ids| ensures ids[j] != ids[k] {
      if k < |a| {
        assert ids[j] == a[j] && ids[k] == a[k];
      } else if j < |a| {
        assert ids[j] == a[j] && ids[k] == b[k - |a|];
        assert a[j] in a && b[k - |a|] in b;
      } else {
        assert ids[j] == b[j - |a|] && ids[k] == b[k - |a|];
      }
    }
  }

  /** The suggestion for bus `i` built with draw `d`. */
  function Suggest(routes: seq<Route>, live: map<string, Snapshot>, i: nat, startName: string, endName: string,
                   d: PlanDraw, eta: (int, real) -> real): (s: Suggestion)
    requires BusId(i) in live
    ensures s.busId == BusId(i) && s.endStop == endName
    ensures s.routeId == live[BusId(i)].routeId
    ensures s.crowdedness == live[BusId(i)].crowdedness
    ensures s.currentStop == live[BusId(i)].currentStop
  {
    var snap := live[BusId(i)];
    Rendered(snap, BusId(i), endName,
             JourneyTime(routes, snap.speedKmh, d.boardingKm, startName, endName, snap.routeId, d.perLegMin, eta))
  }

  /** The result row: the snapshot's route, crowdedness and current stop,
      and the two times rendered with one decimal. */
  function Rendered(snap: Snapshot, busId: string, endName: string, times: (real, real)): (s: Suggestion)
    ensures s.busId == busId && s.endStop == endName
    ensures s.routeId == snap.routeId && s.crowdedness == snap.crowdedness
    ensures s.currentStop == snap.currentStop
  {
    Suggestion(snap.routeId, busId, Round1(times.0), Round1(times.1),
               snap.crowdedness, snap.currentStop, endName)
  }

  /** The two times a suggestion reports: the boarding ETA from the model,
      and that ETA plus the per-leg draw for every stop passed, both
      rounded to one decimal. */
  lemma SuggestTimes(routes: seq<Route>, live: map<string, Snapshot>, i: nat, startName: string, endName: string,
                     d: PlanDraw, eta: (int, real) -> real)
    requires BusId(i) in live
    ensures var s := Suggest(routes, live, i, startName, endName, d, eta);
            var snap := live[BusId(i)];
            var b := eta(snap.speedKmh, d.boardingKm);
            var legs := |StopsOn(routes, snap.routeId, startName, endName)|;
            && s.etaToStartMin == Round1(b)
            && s.totalJourneyMin == Round1(b + LegMinutes(legs, d.perLegMin))
  {
    var snap := live[BusId(i)];
    JourneyTimeParts(routes, snap.speedKmh, d.boardingKm, startName, endName, snap.routeId, d.perLegMin, eta);
  }

  /** Proof step only: unfolds `JourneyTime` into its two components for
      `SuggestTimes` and `SuggestBounds`. */
  lemma JourneyTimeParts(routes: seq<Route>, speed: int, boardingKm: real, startName: string, endName: string,
                         routeId: string, perLegMin: real, eta: (int, real) -> real)
    ensures JourneyTime(routes, speed, boardingKm, startName, endName, routeId, perLegMin, eta)
         == (eta(speed, boardingKm),
             eta(speed, boardingKm) + LegMinutes(|StopsOn(routes, routeId, startName, endName)|, perLegMin))
  {
  }

  /** With a draw in range, a suggestion's total lies between its boarding
      ETA plus 4 and plus 8 minutes per stop passed, once rounded, and so is
      never below its boarding ETA. */
  lemma SuggestBounds(routes: seq<Route>, live: map<string, Snapshot>, i: nat, startName: string, endName: string,
                      d: PlanDraw, eta: (int, real) -> real)
    requires BusId(i) in live && PlanDrawFits(d)
    ensures var s := Suggest(routes, live, i, startName, endName, d, eta);
            && TimesWithin(s, eta(live[BusId(i)].speedKmh, d.boardingKm), |StopsOn(routes, s.routeId, startName, endName)|)
            && s.etaToStartMin <= s.totalJourneyMin
  {
    var snap := live[BusId(i)];
    var legs := |StopsOn(routes, snap.routeId, startName, endName)|;
    JourneyTimeParts(routes, snap.speedKmh, d.boardingKm, startName, endName, snap.routeId, d.perLegMin, eta);
    RenderedBounds(snap, BusId(i), endName,
                   JourneyTime(routes, snap.speedKmh, d.boardingKm, startName, endName, snap.routeId, d.perLegMin, eta),
                   legs, d.perLegMin);
  }

  /** The two times of `s` as rendered from the boarding ETA `boarding`
      and a transit of `legs` stops at 4 to 8 minutes each: the rendered
      boarding ETA, and a total between the renderings of the two extremes. */
  predicate TimesWithin(s: Suggestion, boarding: real, legs: nat) {
    && s.etaToStartMin == Round1(boarding)
    && Round1(boarding + 4.0 * legs as real) <= s.totalJourneyMin <= Round1(boarding + 8.0 * legs as real)
  }

  /** Rendering two times `legs` stops apart at 4 to 8 minutes a stop. */
  lemma RenderedBounds(snap: Snapshot, busId: string, endName: string, times: (real, real),
                       legs: nat, perLegMin: real)
    requires 4.0 <= perLegMin <= 8.0 && times.1 == times.0 + LegMinutes(legs, perLegMin)
    ensures var s := Rendered(snap, busId, endName, times);
            TimesWithin(s, times.0, legs) && s.etaToStartMin <= s.totalJourneyMin
  {
    RoundedTotalBounds(times.0, legs, perLegMin);
    Round1Monotone(times.0, times.0 + 4.0 * legs as real);
  }

  /** With 4 to 8 minutes per leg, the rounded total lies between the
      rounded boarding ETA plus 4 and plus 8 minutes per stop passed. */
  lemma RoundedTotalBounds(b: real, legs: nat, perLegMin: real)
    requires 4.0 <= perLegMin <= 8.0
    ensures Round1(b + 4.0 * legs as real) <= Round1(b + LegMinutes(legs, perLegMin))
                                           <= Round1(b + 8.0 * legs as real)
  {
    LegMinutesBounds(legs, perLegMin);
    Round1Monotone(b + 4.0 * legs as real, b + LegMinutes(legs, perLegMin));
    Round1Monotone(b + LegMinutes(legs, perLegMin), b + 8.0 * legs as real);
  }

  /** Every visited bus has a live snapshot. */
  predicate LiveIds(live: map<string, Snapshot>, ids: seq<nat>) {
    forall k :: 0 <= k < |ids| ==> BusId(ids[k]) in live
  }

  /** `f` applied to each visited bus with the draw of the same position. */
  function MapWithDraws<D, R>(ids: seq<nat>, draws: seq<D>, f: (nat, D) --> R): (r: seq<R>)
    requires |draws| >= |ids|
    requires forall k :: 0 <= k < |ids| ==> f.requires(ids[k], draws[k])
    ensures |r| == |ids|
    ensures forall k :: 0 <= k < |ids| ==> r[k] == f(ids[k], draws[k])
  {
    if ids == [] then []
    else
      var n := |ids| - 1;
      MapWithDraws(ids[..n], draws, f) + [f(ids[n], draws[n])]
  }

  lemma MapWithDrawsAppend<D, R>(ids: seq<nat>, i: nat, draws: seq<D>, f: (nat, D) --> R)
    requires |draws| > |ids|
    requires forall k :: 0 <= k < |ids| ==> f.requires(ids[k], draws[k])
    requires f.requires(i, draws[|ids|])
    ensures MapWithDraws(ids + [i], draws, f) == MapWithDraws(ids, draws, f) + [f(i, draws[|ids|])]
  {
    assert (ids + [i])[..|ids|] == ids;
  }

  /** `Suggest` for the buses of one live snapshot and one request. */
  function SuggestFor(routes: seq<Route>, live: map<string, Snapshot>, startName: string, endName: string,
                      eta: (int, real) -> real): (nat, PlanDraw) --> Suggestion
  {
    (i: nat, d: PlanDraw) requires BusId(i) in live => Suggest(routes, live, i, startName, endName, d, eta)
  }

  /** The suggestions in the order they are appended: the k-th visited bus
      uses the k-th draw. */
  function Suggestions(routes: seq<Route>, live: map<string, Snapshot>, ids: seq<nat>, startName: string, endName: string,
                       draws: seq<PlanDraw>, eta: (int, real) -> real): seq<Suggestion>
    requires LiveIds(live, ids)
    requires |draws| >= |ids|
  {
    MapWithDraws(ids, draws, SuggestFor(routes, live, startName, endName, eta))
  }

  /** The k-th visited bus gives the k-th suggestion, built with the k-th
      draw. */
  lemma SuggestionsAt(routes: seq<Route>, live: map<string, Snapshot>, ids: seq<nat>, startName: string, endName: string,
                      draws: seq<PlanDraw>, eta: (int, real) -> real)
    requires LiveIds(live, ids)
    requires |draws| >= |ids|
    ensures |Suggestions(routes, live, ids, startName, endName, draws, eta)| == |ids|
    ensures forall k :: 0 <= k < |ids| ==>
              Suggestions(routes, live, ids, startName, endName, draws, eta)[k]
              == Suggest(routes, live, ids[k], startName, endName, draws[k], eta)
  {
  }

  lemma SuggestionsAppend(routes: seq<Route>, live: map<string, Snapshot>, ids: seq<nat>, i: nat, startName: string, endName: string,
                          draws: seq<PlanDraw>, eta: (int, real) -> real)
    requires LiveIds(live, ids)
    requires BusId(i) in live
    requires |draws| > |ids|
    ensures Suggestions(routes, live, ids + [i], startName, endName, draws, eta)
         == Suggestions(routes, live, ids, startName, endName, draws, eta) + [Suggest(routes, live, i, startName, endName, draws[|ids|], eta)]
  {
    MapWithDrawsAppend(ids, i, draws, SuggestFor(routes, live, startName, endName, eta));
  }

  function TotalMinutes(s: Suggestion): real {
    s.totalJourneyMin
  }

  predicate PlanInputs(states: map<string, OpState>, liveDraws: seq<LiveDraw>, planDraws: seq<PlanDraw>) {
    && DrawsFit(states, PlanFleet, liveDraws)
    && |planDraws| >= MaxSuggestions
    && forall k :: 0 <= k < |planDraws| ==> PlanDrawFits(planDraws[k])
  }

  lemma LiveHasBuses(states: map<string, OpState>, liveDraws: seq<LiveDraw>)
    requires DrawsFit(states, PlanFleet, liveDraws)
    ensures HasBuses(FleetStatus(states, PlanFleet, liveDraws), PlanFleet)
  {
    forall i | 1 <= i <= PlanFleet ensures BusId(i) in FleetStatus(states, PlanFleet, liveDraws) {
      LiveStatusAt(states, PlanFleet, liveDraws, i);
    }
  }

  /** The suggestions before sorting. */
  function Unsorted(states: map<string, OpState>, startName: string, endName: string,
                    liveDraws: seq<LiveDraw>, planDraws: seq<PlanDraw>, eta: (int, real) -> real): seq<Suggestion>
    requires PlanInputs(states, liveDraws, planDraws)
  {
    var live := FleetStatus(states, PlanFleet, liveDraws);
    LiveHasBuses(states, liveDraws);
    CatalogWellFormed();
    Suggestions(Catalog(), live, Matches(Catalog(), live, startName, endName), startName, endName, planDraws, eta)
  }

  /** The `suggestions` list of a successful request. */
  function Plan(states: map<string, OpState>, startName: string, endName: string,
                liveDraws: seq<LiveDraw>, planDraws: seq<PlanDraw>, eta: (int, real) -> real): seq<Suggestion>
    requires PlanInputs(states, liveDraws, planDraws)
  {
    SortBy(Unsorted(states, startName, endName, liveDraws, planDraws, eta), TotalMinutes)
  }

  predicate Missing(name: Option<string>) {
    name.None? || name.value == ""
  }

  /** `get_route_plan`: 400 when either stop name is missing or empty;
      otherwise the suggestions for every running bus on every route that
      serves both stops, sorted by total journey time. */
  method PlanRoute(states: map<string, OpState>, start: Option<string>, end: Option<string>,
                   liveDraws: seq<LiveDraw>, planDraws: seq<PlanDraw>, eta: (int, real) -> real)
    returns (r: Result<seq<Suggestion>, PlanError>)
    requires PlanInputs(states, liveDraws, planDraws)
    ensures r.Failure? <==> Missing(start) || Missing(end)
    ensures r.Success? ==> r.value == Plan(states, start.value, end.value, liveDraws, planDraws, eta)
  {
    if Missing(start) || Missing(end) {
      return Failure(MissingStops);
    }
    var live := GenerateLiveStatus(states, PlanFleet, liveDraws);
    LiveHasBuses(states, liveDraws);
    CatalogWellFormed();
    var results := CollectSuggestions(Catalog(), live, start.value, end.value, planDraws, eta);
    r := Success(SortBy(results, TotalMinutes));
  }

  /** The outer loop of `get_route_plan`: the routes in catalog order, each
      serving both stops contributing its running buses. */
  method CollectSuggestions(routes: seq<Route>, live: map<string, Snapshot>, startName: string, endName: string,
                            draws: seq<PlanDraw>, eta: (int, real) -> real)
    returns (results: seq<Suggestion>)
    requires HasBuses(live, PlanFleet)
    requires |draws| >= |routes| * PlanFleet
    ensures results == Suggestions(routes, live, Matches(routes, live, startName, endName), startName, endName, draws, eta)
  {
    results := [];
    var ri := 0;
    ghost var ids := [];
    while ri < |routes|
      invariant 0 <= ri <= |routes|
      invariant ids == Matches(routes[..ri], live, startName, endName)
      invariant LiveIds(live, ids)
      invariant results == Suggestions(routes, live, ids, startName, endName, draws, eta)
    {
      results, ids := CollectServing(routes, live, startName, endName, draws, eta, ri, ids, results);
      ri := ri + 1;
    }
    assert ri == |routes| && routes[..ri] == routes;
  }

  /** One iteration of the outer loop: route `ri` contributes its running
      buses when it serves both stops. */
  method CollectServing(routes: seq<Route>, live: map<string, Snapshot>, startName: string, endName: string,
                        draws: seq<PlanDraw>, eta: (int, real) -> real, ri: nat, ghost ids: seq<nat>,
                        results: seq<Suggestion>)
    returns (out: seq<Suggestion>, ghost ids': seq<nat>)
    requires HasBuses(live, PlanFleet)
    requires |draws| >= |routes| * PlanFleet
    requires ri < |routes|
    requires ids == Matches(routes[..ri], live, startName, endName)
    requires LiveIds(live, ids)
    requires results == Suggestions(routes, live, ids, startName, endName, draws, eta)
    ensures ids' == Matches(routes[..ri + 1], live, startName, endName)
    ensures LiveIds(live, ids')
    ensures out == Suggestions(routes, live, ids', startName, endName, draws, eta)
  {
    var route := routes[ri];
    MatchesStep(routes, live, startName, endName, ri);
    out, ids' := results, ids;
    if Serves(route, startName, endName) {
      out := CollectRoute(routes, live, route.id, startName, endName, draws, eta, ids, results);
      ids' := ids + RunningOn(live, route.id, PlanFleet);
    }
  }

  /** Visiting route `ri` appends its running buses exactly when it serves
      both stops, and the visited buses stay within the fleet and within
      the draws. */
  lemma MatchesStep(routes: seq<Route>, live: map<string, Snapshot>, startName: string, endName: string, ri: nat)
    requires HasBuses(live, PlanFleet)
    requires ri < |routes|
    ensures var ids := Matches(routes[..ri], live, startName, endName);
            && InFleet(ids) && LiveIds(live, ids)
            && |ids| + PlanFleet <= |routes| * PlanFleet
            && Matches(routes[..ri + 1], live, startName, endName)
               == ids + (if Serves(routes[ri], startName, endName) then RunningOn(live, routes[ri].id, PlanFleet) else [])
            && LiveIds(live, Matches(routes[..ri + 1], live, startName, endName))
  {
    assert routes[..ri + 1][..ri] == routes[..ri];
    FleetDraws(ri, |routes|);
    FleetIdsLive(live, Matches(routes[..ri], live, startName, endName));
    FleetIdsLive(live, Matches(routes[..ri + 1], live, startName, endName));
  }

  lemma FleetIdsLive(live: map<string, Snapshot>, ids: seq<nat>)
    requires HasBuses(live, PlanFleet) && InFleet(ids)
    ensures LiveIds(live, ids)
  {
  }

  /** One more route uses at most one more fleet's worth of draws. */
  lemma FleetDraws(ri: nat, n: nat)
    requires ri < n
    ensures ri * PlanFleet + PlanFleet == (ri + 1) * PlanFleet <= n * PlanFleet
  {
  }


  /** Visiting bus `i` extends the visited sequence by `i` exactly when that
      bus runs on the route. */
  lemma RunningOnStep(live: map<string, Snapshot>, routeId: string, before: seq<nat>, i: nat)
    requires HasBuses(live, PlanFleet) && 1 <= i <= PlanFleet
    ensures before + RunningOn(live, routeId, i)
         == before + RunningOn(live, routeId, i - 1)
            + (if live[BusId(i)].routeId == routeId && live[BusId(i)].isRunning then [i] else [])
  {
    var rest := if live[BusId(i)].routeId == routeId && live[BusId(i)].isRunning then [i] else [];
    assert RunningOn(live, routeId, i) == RunningOn(live, routeId, i - 1) + rest;
    assert before + (RunningOn(live, routeId, i - 1) + rest) == before + RunningOn(live, routeId, i - 1) + rest;
  }

  /** One iteration of the inner loop: bus `i` adds its suggestion, built
      with the next unused draw, when it runs on the route. `ids` are the
      buses visited so far, before the route's and the route's own. */
  method CollectBus(routes: seq<Route>, live: map<string, Snapshot>, routeId: string, startName: string, endName: string,
                    draws: seq<PlanDraw>, eta: (int, real) -> real, ghost before: seq<nat>, ghost ids: seq<nat>,
                    i: nat, results: seq<Suggestion>)
    returns (out: seq<Suggestion>, ghost ids': seq<nat>)
    requires HasBuses(live, PlanFleet) && InFleet(before) && 1 <= i <= PlanFleet
    requires |draws| >= |before| + PlanFleet
    requires ids == before + RunningOn(live, routeId, i - 1)
    requires LiveIds(live, ids)
    requires results == Suggestions(routes, live, ids, startName, endName, draws, eta)
    ensures ids' == before + RunningOn(live, routeId, i)
    ensures LiveIds(live, ids')
    ensures out == Suggestions(routes, live, ids', startName, endName, draws, eta)
  {
    RunningOnStep(live, routeId, before, i);
    RunningOnLive(live, routeId, before, i);
    out, ids' := results, ids;
    var snap := live[BusId(i)];
    if snap.routeId == routeId && snap.isRunning {
      SuggestionsAppend(routes, live, ids, i, startName, endName, draws, eta);
      SuggestionsAt(routes, live, ids, startName, endName, draws, eta);
      var s := Suggest(routes, live, i, startName, endName, draws[|results|], eta);
      out, ids' := results + [s], ids + [i];
    }
  }

  lemma RunningOnLive(live: map<string, Snapshot>, routeId: string, before: seq<nat>, n: nat)
    requires HasBuses(live, PlanFleet)
    requires InFleet(before)
    requires n <= PlanFleet
    ensures LiveIds(live, before + RunningOn(live, routeId, n))
  {
    var ids := before + RunningOn(live, routeId, n);
    forall k | 0 <= k < |ids| ensures BusId(ids[k]) in live {
      if k >= |before| {
        assert ids[k] == RunningOn(live, routeId, n)[k - |before|];
      }
    }
  }

  /** The inner loop of `get_route_plan`: one suggestion per running bus of
      the route, in fleet order, each consuming the next draw. */
  method CollectRoute(routes: seq<Route>, live: map<string, Snapshot>, routeId: string, startName: string, endName: string,
                      draws: seq<PlanDraw>, eta: (int, real) -> real, ghost before: seq<nat>,
                      results: seq<Suggestion>)
    returns (out: seq<Suggestion>)
    requires HasBuses(live, PlanFleet)
    requires InFleet(before)
    requires |draws| >= |before| + PlanFleet
    requires results == Suggestions(routes, live, before, startName, endName, draws, eta)
    ensures out == Suggestions(routes, live, before + RunningOn(live, routeId, PlanFleet), startName, endName, draws, eta)
  {
    out := results;
    ghost var ids := before;
    RunningOnLive(live, routeId, before, 0);
    for i := 1 to PlanFleet + 1
      invariant ids == before + RunningOn(live, routeId, i - 1)
      invariant LiveIds(live, ids)
      invariant out == Suggestions(routes, live, ids, startName, endName, draws, eta)
    {
      out, ids := CollectBus(routes, live, routeId, startName, endName, draws, eta, before, ids, i, out);
    }
  }

  // ---------------------------------------------------------------------
  // What the plan promises

  /** The suggestions are in ascending order of total journey time, and they
      are exactly the unsorted suggestions, rearranged; ties keep the order
      in which they were found. */
  lemma PlanOrdered(states: map<string, OpState>, startName: string, endName: string,
                    liveDraws: seq<LiveDraw>, planDraws: seq<PlanDraw>, eta: (int, real) -> real, t: real)
    requires PlanInputs(states, liveDraws, planDraws)
    ensures var p := Plan(states, startName, endName, liveDraws, planDraws, eta);
            var u := Unsorted(states, startName, endName, liveDraws, planDraws, eta);
            && SortedBy(p, TotalMinutes)
            && multiset(p) == multiset(u)
            && WithKey(p, TotalMinutes, t) == WithKey(u, TotalMinutes, t)
  {
    var u := Unsorted(states, startName, endName, liveDraws, planDraws, eta);
    SortBySorted(u, TotalMinutes);
    SortByStable(u, TotalMinutes, t);
  }

  /** Bus `i` is suggested iff it is running and its route serves both
      stops; every suggestion ends at the destination, names a route that
      serves both stops and takes at least as long as its boarding ETA. */
  lemma PlanSuggestsRunningBuses(states: map<string, OpState>, startName: string, endName: string,
                                 liveDraws: seq<LiveDraw>, planDraws: seq<PlanDraw>,
                                 eta: (int, real) -> real, i: nat)
    requires PlanInputs(states, liveDraws, planDraws)
    ensures Suggests(Plan(states, startName, endName, liveDraws, planDraws, eta), BusId(i)) <==>
              Eligible(FleetStatus(states, PlanFleet, liveDraws), i, startName, endName)
  {
    var live := FleetStatus(states, PlanFleet, liveDraws);
    LiveHasBuses(states, liveDraws);
    var ids := Matches(Catalog(), live, startName, endName);
    var u := Unsorted(states, startName, endName, liveDraws, planDraws, eta);
    var p := Plan(states, startName, endName, liveDraws, planDraws, eta);
    assert u == Suggestions(Catalog(), live, ids, startName, endName, planDraws, eta);
    assert multiset(p) == multiset(u);
    MatchesMembers(Catalog(), live, startName, endName, i);
    SuggestionsBuses(Catalog(), live, ids, startName, endName, planDraws, eta, i);
    PermutationKeepsBuses(u, p, BusId(i));
  }

  /** Bus `i` is running, on a route of the catalog that serves both stops. */
  predicate Eligible(live: map<string, Snapshot>, i: nat, startName: string, endName: string) {
    && 1 <= i <= PlanFleet && BusId(i) in live && live[BusId(i)].isRunning
    && ServedBy(Catalog(), live[BusId(i)].routeId, startName, endName)
  }

  predicate Suggests(p: seq<Suggestion>, busId: string) {
    exists k :: 0 <= k < |p| && p[k].busId == busId
  }

  /** Bus `i` has a suggestion iff it is among the visited bus numbers. */
  lemma SuggestionsBuses(routes: seq<Route>, live: map<string, Snapshot>, ids: seq<nat>, startName: string, endName: string,
                         draws: seq<PlanDraw>, eta: (int, real) -> real, i: nat)
    requires LiveIds(live, ids)
    requires |draws| >= |ids|
    ensures Suggests(Suggestions(routes, live, ids, startName, endName, draws, eta), BusId(i)) <==> i in ids
  {
    var r := Suggestions(routes, live, ids, startName, endName, draws, eta);
    SuggestionsAt(routes, live, ids, startName, endName, draws, eta);
    if Suggests(r, BusId(i)) {
      var k :| 0 <= k < |r| && r[k].busId == BusId(i);
      BusIdInjective(ids[k], i);
    }
    if i in ids {
      var k :| 0 <= k < |ids| && ids[k] == i;
      assert r[k].busId == BusId(i);
    }
  }

  /** Rearranging the suggestions keeps the set of suggested buses. */
  lemma PermutationKeepsBuses(u: seq<Suggestion>, p: seq<Suggestion>, busId: string)
    requires multiset(p) == multiset(u)
    ensures Suggests(p, busId) <==> Suggests(u, busId)
  {
    if Suggests(p, busId) {
      var k :| 0 <= k < |p| && p[k].busId == busId;
      assert p[k] in multiset(u);
      var m :| 0 <= m < |u| && u[m] == p[k];
    }
    if Suggests(u, busId) {
      var m :| 0 <= m < |u| && u[m].busId == busId;
      assert u[m] in multiset(p);
      var k :| 0 <= k < |p| && p[k] == u[m];
    }
  }

  /** No bus is suggested twice. */
  lemma PlanNoDuplicateBus(states: map<string, OpState>, startName: string, endName: string,
                           liveDraws: seq<LiveDraw>, planDraws: seq<PlanDraw>, eta: (int, real) -> real)
    requires PlanInputs(states, liveDraws, planDraws)
    ensures var p := Plan(states, startName, endName, liveDraws, planDraws, eta);
            forall j, k :: 0 <= j < k < |p| ==> p[j].busId != p[k].busId
  {
    var live := FleetStatus(states, PlanFleet, liveDraws);
    LiveHasBuses(states, liveDraws);
    CatalogIdsDistinct();
    MatchesDistinct(Catalog(), live, startName, endName);
    var ids := Matches(Catalog(), live, startName, endName);
    SuggestionsDistinctBuses(Catalog(), live, ids, startName, endName, planDraws, eta);
    DistinctBusesPreserved(Unsorted(states, startName, endName, liveDraws, planDraws, eta),
                           Plan(states, startName, endName, liveDraws, planDraws, eta));
  }

  /** Distinct bus numbers give suggestions for distinct bus ids. */
  lemma SuggestionsDistinctBuses(routes: seq<Route>, live: map<string, Snapshot>, ids: seq<nat>, startName: string, endName: string,
                                 draws: seq<PlanDraw>, eta: (int, real) -> real)
    requires LiveIds(live, ids) && |draws| >= |ids| && NoRepeats(ids)
    ensures var u := Suggestions(routes, live, ids, startName, endName, draws, eta);
            forall a, b :: 0 <= a < b < |u| ==> u[a].busId != u[b].busId
  {
    var u := Suggestions(routes, live, ids, startName, endName, draws, eta);
    SuggestionsAt(routes, live, ids, startName, endName, draws, eta);
    forall a, b | 0 <= a < b < |u| ensures u[a].busId != u[b].busId {
      BusIdEquality(ids[a], ids[b]);
    }
  }

  /** A rearrangement of a list without repeated bus ids repeats none. */
  lemma DistinctBusesPreserved(u: seq<Suggestion>, p: seq<Suggestion>)
    requires multiset(p) == multiset(u)
    requires forall a, b :: 0 <= a < b < |u| ==> u[a].busId != u[b].busId
    ensures forall j, k :: 0 <= j < k < |p| ==> p[j].busId != p[k].busId
  {
    forall j, k | 0 <= j < k < |p| ensures p[j].busId != p[k].busId {
      if p[j].busId == p[k].busId {
        assert p[j] in multiset(u) && p[k] in multiset(u);
        var a :| 0 <= a < |u| && u[a] == p[j];
        var b :| 0 <= b < |u| && u[b] == p[k];
        assert a == b;
        UniqueMultiplicity(u, a);
        RepeatedCount(p, j, k);
      }
    }
  }

  /** An element found at two positions occurs at least twice. */
  lemma RepeatedCount<T>(p: seq<T>, j: nat, k: nat)
    requires j < k < |p| && p[j] == p[k]
    ensures multiset(p)[p[j]] >= 2
  {
    assert p == p[..j] + [p[j]] + p[j + 1..k] + [p[k]] + p[k + 1..];
  }

  /** In a list without repeated bus ids each element occurs once. */
  lemma UniqueMultiplicity(u: seq<Suggestion>, a: nat)
    requires a < |u|
    requires forall x, y :: 0 <= x < y < |u| ==> u[x].busId != u[y].busId
    ensures multiset(u)[u[a]] == 1
  {
    var pre, post := u[..a], u[a + 1..];
    assert u == pre + [u[a]] + post;
    assert forall x :: 0 <= x < |pre| ==> pre[x] == u[x];
    assert forall y :: 0 <= y < |post| ==> post[y] == u[a + 1 + y];
    assert u[a] !in pre;
    assert u[a] !in post;
  }

  /** Every suggestion ends at the destination, on a route serving both
      stops, and its total is at least its boarding ETA. */
  lemma PlanSuggestionShape(states: map<string, OpState>, startName: string, endName: string,
                            liveDraws: seq<LiveDraw>, planDraws: seq<PlanDraw>, eta: (int, real) -> real, k: nat)
    requires PlanInputs(states, liveDraws, planDraws)
    requires k < |Plan(states, startName, endName, liveDraws, planDraws, eta)|
    ensures var s := Plan(states, startName, endName, liveDraws, planDraws, eta)[k];
            && s.endStop == endName
            && s.etaToStartMin <= s.totalJourneyMin
            && exists route :: route in Catalog() && route.id == s.routeId && Serves(route, startName, endName)
    ensures var s := Plan(states, startName, endName, liveDraws, planDraws, eta)[k];
            exists boarding :: TimesWithin(s, boarding, |StopsInOrder(s.routeId, startName, endName)|)
  {
    var live := FleetStatus(states, PlanFleet, liveDraws);
    LiveHasBuses(states, liveDraws);
    var ids := Matches(Catalog(), live, startName, endName);
    var u := Unsorted(states, startName, endName, liveDraws, planDraws, eta);
    var p := Plan(states, startName, endName, liveDraws, planDraws, eta);
    SuggestionsAt(Catalog(), live, ids, startName, endName, planDraws, eta);
    assert p[k] in multiset(u);
    var m :| 0 <= m < |u| && u[m] == p[k];
    SuggestionShape(Catalog(), live, startName, endName, planDraws, eta, m);
    var boarding := eta(live[BusId(ids[m])].speedKmh, planDraws[m].boardingKm);
    assert TimesWithin(p[k], boarding, |StopsInOrder(p[k].routeId, startName, endName)|);
  }

  /** The same for the m-th suggestion before sorting, over any list of
      routes. */
  lemma SuggestionShape(routes: seq<Route>, live: map<string, Snapshot>, startName: string, endName: string,
                        draws: seq<PlanDraw>, eta: (int, real) -> real, m: nat)
    requires HasBuses(live, PlanFleet)
    requires m < |Matches(routes, live, startName, endName)| <= |draws|
    requires PlanDrawFits(draws[m])
    ensures var ids := Matches(routes, live, startName, endName);
            var s := Suggestions(routes, live, ids, startName, endName, draws, eta)[m];
            && s.endStop == endName
            && s.etaToStartMin <= s.totalJourneyMin
            && exists route :: route in routes && route.id == s.routeId && Serves(route, startName, endName)
    ensures var ids := Matches(routes, live, startName, endName);
            var s := Suggestions(routes, live, ids, startName, endName, draws, eta)[m];
            TimesWithin(s, eta(live[BusId(ids[m])].speedKmh, draws[m].boardingKm),
                        |StopsOn(routes, s.routeId, startName, endName)|)
  {
    var ids := Matches(routes, live, startName, endName);
    SuggestionsAt(routes, live, ids, startName, endName, draws, eta);
    MatchesMembers(routes, live, startName, endName, ids[m]);
    assert ids[m] in ids;
    var snap := live[BusId(ids[m])];
    SuggestBounds(routes, live, ids[m], startName, endName, draws[m], eta);
    var rk :| 0 <= rk < |routes| && routes[rk].id == snap.routeId && Serves(routes[rk], startName, endName);
    assert routes[rk] in routes;
  }

  // ---------------------------------------------------------------------
  // The admin update endpoint

  /** `update_bus_status`: 200 when the store knows the bus, else 404 and
      no change. */
  method AdminUpdate(store: Store, busId: Option<string>, isRunning: Option<bool>,
                     message: Option<string>, tier: Option<string>, routePick: nat) returns (code: int)
    requires routePick == 1 || routePick == 2
    modifies store
    ensures code == 200 || code == 404
    ensures code == 404 <==> !(busId.Some? && busId.value in old(store.states))
    ensures code == 404 ==> store.states == old(store.states)
    ensures code == 200 ==> store.states == old(store.states)[busId.value :=
              Patch(old(store.states)[busId.value], isRunning, message, tier, routePick)]
  {
    var ok := store.Update(busId, isRunning, message, tier, routePick);
    code := if ok then 200 else 404;
  }
}
