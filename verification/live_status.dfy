/** The live-status synthesizer of datasim.py (`generate_live_bus_status`):
    for each `Bus-i` it builds a depot snapshot for an off-duty bus and a
    randomised snapshot for a running one. Every random draw is an input
    (`LiveDraw`), constrained to the range the code draws it from. */
module LiveStatus {
  import opened Common
  import opened Routes
  import opened Operational

  datatype Snapshot = Snapshot(
    busId: string,
    routeId: string,
    isRunning: bool,
    statusMessage: string,
    crowdedness: string,
    latitude: real,
    longitude: real,
    currentStop: string,
    nextStopName: string,
    nextStopIndex: Option<int>,   // absent from the depot snapshot
    speedKmh: int,
    passengers: int,
    distanceToStopKm: real)

  /** The random draws made for one running bus, in the order of the code:
      the two `random.choice` picks (as positions), the distance, the three
      passenger counts (all three are drawn, one is used), the GPS jitter and
      the speed. */
  datatype LiveDraw = LiveDraw(
    currentPick: nat,
    nextPick: nat,
    distanceKm: real,
    lightCount: int,
    moderateCount: int,
    heavyCount: int,
    latJitter: real,
    lonJitter: real,
    speedKmh: int)

  predicate IsRunning(states: map<string, OpState>, busId: string) {
    busId in states && states[busId].isRunning
  }

  /** `op_state.get("assigned_route_id", "Route-1")` */
  function RouteKeyOf(states: map<string, OpState>, busId: string): string {
    if busId in states then states[busId].routeId else "Route-1"
  }

  /** `ROUTE_METADATA.get(route_key, ROUTE_METADATA["Route-1"])['stops']` */
  function ResolvedStops(routeKey: string): (stops: seq<Stop>)
    ensures |stops| >= 1 && DistinctNames(stops) && Positional(stops)
    ensures FindRoute(Catalog(), routeKey).Some? ==> stops == FindRoute(Catalog(), routeKey).value.stops
    ensures FindRoute(Catalog(), routeKey).None? ==> stops == Catalog()[0].stops
  {
    CatalogWellFormed();
    match FindRoute(Catalog(), routeKey)
    case Some(route) => route.stops
    case None => Catalog()[0].stops
  }

  function StopsFor(states: map<string, OpState>, i: nat): seq<Stop> {
    ResolvedStops(RouteKeyOf(states, BusId(i)))
  }

  /** `[s for s in stops if s['name'] != name]` */
  function OtherStops(stops: seq<Stop>, name: string): seq<Stop> {
    if stops == [] then []
    else
      var last := stops[|stops| - 1];
      assert stops == stops[..|stops| - 1] + [last];
      OtherStops(stops[..|stops| - 1], name) + (if last.name != name then [last] else [])
  }

  /** The next-stop candidates are exactly the stops with another name. */
  lemma {:induction false} OtherStopsMembers(stops: seq<Stop>, name: string, s: Stop)
    ensures s in OtherStops(stops, name) <==> s in stops && s.name != name
  {
    if stops != [] {
      var init, last := stops[..|stops| - 1], stops[|stops| - 1];
      OtherStopsMembers(init, name, s);
      assert stops == init + [last];
    }
  }

  /** On distinctly named stops exactly the chosen stop is left out. */
  lemma {:induction false} OtherStopsCount(stops: seq<Stop>, p: nat)
    requires DistinctNames(stops) && p < |stops|
    ensures |OtherStops(stops, stops[p].name)| == |stops| - 1
  {
    var n := |stops|;
    var init, name := stops[..n - 1], stops[p].name;
    assert DistinctNames(init);
    if p == n - 1 {
      OtherStopsKeepsAll(init, name);
    } else {
      assert init[p] == stops[p];
      OtherStopsCount(init, p);
      assert stops[n - 1].name != name;
    }
  }

  lemma {:induction false} OtherStopsKeepsAll(stops: seq<Stop>, name: string)
    requires forall k :: 0 <= k < |stops| ==> stops[k].name != name
    ensures OtherStops(stops, name) == stops
  {
    if stops != [] {
      var init := stops[..|stops| - 1];
      OtherStopsKeepsAll(init, name);
      assert init + [stops[|stops| - 1]] == stops;
    }
  }

  /** Every draw lies in the range the code draws it from. The next-stop pick
      indexes the stops other than the current one. */
  predicate DrawFits(d: LiveDraw, stops: seq<Stop>) {
    && d.currentPick < |stops|
    && (|stops| >= 2 ==> d.nextPick < |stops| - 1)
    && 0.8 <= d.distanceKm <= 4.5
    && 5 <= d.lightCount <= 20
    && 30 <= d.moderateCount <= 45
    && 50 <= d.heavyCount <= 60
    && -0.0005 <= d.latJitter <= 0.0005
    && -0.0005 <= d.lonJitter <= 0.0005
    && 15 <= d.speedKmh <= 50
  }

  predicate DrawsFit(states: map<string, OpState>, n: nat, draws: seq<LiveDraw>) {
    |draws| >= n && forall k :: 0 <= k < n ==> DrawFits(draws[k], StopsFor(states, k + 1))
  }

  /** The passenger count for a crowdedness tier; 20 for any other value. */
  function Passengers(tier: string, d: LiveDraw): (p: int)
    ensures tier == "LIGHT" ==> p == d.lightCount
    ensures tier == "MODERATE" ==> p == d.moderateCount
    ensures tier == "HEAVY" ==> p == d.heavyCount
    ensures !IsTier(tier) ==> p == 20
  {
    if tier == "LIGHT" then d.lightCount
    else if tier == "MODERATE" then d.moderateCount
    else if tier == "HEAVY" then d.heavyCount
    else 20
  }

  /** The snapshot of `Bus-i` (one iteration of the loop). */
  function SnapshotOf(states: map<string, OpState>, i: nat, d: LiveDraw): Snapshot
    requires DrawFits(d, StopsFor(states, i))
  {
    var busId := BusId(i);
    var routeKey := RouteKeyOf(states, busId);
    if !IsRunning(states, busId) then
      Snapshot(busId, routeKey, false,
        if busId in states then states[busId].statusMessage else "Off Duty",
        if busId in states then states[busId].crowdedness else "LIGHT",
        0.0, 0.0, "Depot", "Depot", None, 0, 0, 0.0)
    else
      var op := states[busId];
      var stops := ResolvedStops(routeKey);
      var current := stops[d.currentPick];
      var others := OtherStops(stops, current.name);
      OtherStopsCount(stops, d.currentPick);
      var next := if |others| > 0 then others[d.nextPick] else current;
      Snapshot(busId, routeKey, true, op.statusMessage, op.crowdedness,
        current.lat + d.latJitter, current.lon + d.lonJitter,
        current.name, next.name, Some(next.index),
        d.speedKmh, Passengers(op.crowdedness, d), d.distanceKm)
  }

  /** What a snapshot reports: the fixed depot snapshot for an off-duty bus,
      with the stored message and tier carried through; for a running bus a
      current and a distinct next stop of its route and values in the drawn
      ranges. */
  lemma SnapshotFields(states: map<string, OpState>, i: nat, d: LiveDraw)
    requires DrawFits(d, StopsFor(states, i))
    ensures var s := SnapshotOf(states, i, d);
            s.busId == BusId(i) && s.routeId == RouteKeyOf(states, BusId(i))
    ensures var s := SnapshotOf(states, i, d);
            s.isRunning == IsRunning(states, BusId(i))
    // off duty: the fixed depot snapshot, stored message and tier carried through
    ensures var s := SnapshotOf(states, i, d);
            !s.isRunning ==>
      && s.latitude == 0.0 && s.longitude == 0.0
      && s.passengers == 0 && s.speedKmh == 0 && s.distanceToStopKm == 0.0
      && s.currentStop == "Depot" && s.nextStopName == "Depot" && s.nextStopIndex.None?
      && s.statusMessage == (if BusId(i) in states then states[BusId(i)].statusMessage else "Off Duty")
      && s.crowdedness == (if BusId(i) in states then states[BusId(i)].crowdedness else "LIGHT")
    // running: stops of the resolved route, a distinct next stop, ranges
    ensures var s := SnapshotOf(states, i, d);
            s.isRunning ==>
      var stops := StopsFor(states, i);
      && s.currentStop in Names(stops)
      && s.nextStopName in Names(stops)
      && (|stops| >= 2 ==> s.nextStopName != s.currentStop)
      && 15 <= s.speedKmh <= 50
      && 0.8 <= s.distanceToStopKm <= 4.5
      && s.statusMessage == states[BusId(i)].statusMessage
      && s.crowdedness == states[BusId(i)].crowdedness
      && (s.crowdedness == "LIGHT" ==> 5 <= s.passengers <= 20)
      && (s.crowdedness == "MODERATE" ==> 30 <= s.passengers <= 45)
      && (s.crowdedness == "HEAVY" ==> 50 <= s.passengers <= 60)
      && (!IsTier(s.crowdedness) ==> s.passengers == 20)
  {
    var stops := StopsFor(states, i);
    if IsRunning(states, BusId(i)) {
      var current := stops[d.currentPick];
      var others := OtherStops(stops, current.name);
      NamesMember(stops, current);
      OtherStopsCount(stops, d.currentPick);
      if |others| > 0 {
        var next := others[d.nextPick];
        OtherStopsMembers(stops, current.name, next);
        NamesMember(stops, next);
      }
    }
  }

  lemma NamesMember(stops: seq<Stop>, s: Stop)
    requires s in stops
    ensures s.name in Names(stops)
  {
    var k :| 0 <= k < |stops| && stops[k] == s;
    assert Names(stops)[k] == s.name;
  }

  /** The running snapshot places the bus within the jitter of its current
      stop. */
  lemma RunningLocationNearStop(states: map<string, OpState>, i: nat, d: LiveDraw)
    requires DrawFits(d, StopsFor(states, i))
    requires IsRunning(states, BusId(i))
    ensures var s := SnapshotOf(states, i, d);
            var stop := StopsFor(states, i)[d.currentPick];
            && s.currentStop == stop.name
            && -0.0005 <= s.latitude - stop.lat <= 0.0005
            && -0.0005 <= s.longitude - stop.lon <= 0.0005
  {
  }

  /** A running bus whose stored route key is unknown still reports that key
      but moves along Route-1's stops. */
  lemma UnknownRouteFallsBack(states: map<string, OpState>, i: nat, d: LiveDraw)
    requires DrawFits(d, StopsFor(states, i))
    requires IsRunning(states, BusId(i))
    requires FindRoute(Catalog(), states[BusId(i)].routeId).None?
    ensures SnapshotOf(states, i, d).routeId == states[BusId(i)].routeId
    ensures SnapshotOf(states, i, d).currentStop in Names(Catalog()[0].stops)
  {
  }

  /** Draws that fit for Bus-1..Bus-n fit for any shorter prefix. */
  lemma DrawsFitPrefix(states: map<string, OpState>, n: nat, draws: seq<LiveDraw>, m: nat)
    requires DrawsFit(states, n, draws) && m <= n
    ensures DrawsFit(states, m, draws)
    ensures 1 <= m ==> DrawFits(draws[m - 1], StopsFor(states, m))
  {
  }

  /** The status dictionary after the loop has handled Bus-1..Bus-n. */
  function FleetStatus(states: map<string, OpState>, n: nat, draws: seq<LiveDraw>): map<string, Snapshot>
    requires DrawsFit(states, n, draws)
  {
    if n == 0 then map[]
    else
      DrawsFitPrefix(states, n, draws, n - 1);
      DrawsFitPrefix(states, n, draws, n);
      FleetStatus(states, n - 1, draws)[BusId(n) := SnapshotOf(states, n, draws[n - 1])]
  }

  /** Snapshot keys: `Bus-i` has an entry iff 1 <= i <= n, and it is the
      snapshot built from the i-th draw. */
  lemma {:induction false} LiveStatusAt(states: map<string, OpState>, n: nat, draws: seq<LiveDraw>, i: nat)
    requires DrawsFit(states, n, draws)
    ensures BusId(i) in FleetStatus(states, n, draws) <==> 1 <= i <= n
    ensures 1 <= i <= n ==> DrawFits(draws[i - 1], StopsFor(states, i))
    ensures 1 <= i <= n ==> FleetStatus(states, n, draws)[BusId(i)] == SnapshotOf(states, i, draws[i - 1])
  {
    if n > 0 {
      FleetStatusStep(states, n, draws);
      if i != n {
        LiveStatusAt(states, n - 1, draws, i);
        BusIdEquality(i, n);
        UpdateOtherKey(FleetStatus(states, n - 1, draws), BusId(n), SnapshotOf(states, n, draws[n - 1]), BusId(i));
      }
    }
  }

  /** One step of the loop: Bus-n's snapshot is added to the dictionary of
      Bus-1..Bus-(n-1). */
  lemma FleetStatusStep(states: map<string, OpState>, n: nat, draws: seq<LiveDraw>)
    requires DrawsFit(states, n, draws) && n >= 1
    ensures DrawsFit(states, n - 1, draws)
    ensures DrawFits(draws[n - 1], StopsFor(states, n))
    ensures FleetStatus(states, n, draws)
         == FleetStatus(states, n - 1, draws)[BusId(n) := SnapshotOf(states, n, draws[n - 1])]
  {
    DrawsFitPrefix(states, n, draws, n - 1);
    DrawsFitPrefix(states, n, draws, n);
  }

  lemma {:induction false} LiveStatusKeys(states: map<string, OpState>, n: nat, draws: seq<LiveDraw>)
    requires DrawsFit(states, n, draws)
    ensures FleetStatus(states, n, draws).Keys == set i: nat | 1 <= i <= n :: BusId(i)
  {
    if n > 0 {
      FleetStatusStep(states, n, draws);
      LiveStatusKeys(states, n - 1, draws);
      BusIdRangeStep(n);
      UpdateKeys(FleetStatus(states, n - 1, draws), BusId(n), SnapshotOf(states, n, draws[n - 1]));
    } else {
      assert (set i: nat | 1 <= i <= n :: BusId(i)) == {};
    }
  }

  /** `generate_live_bus_status(num_buses)`: the loop over Bus-1..Bus-n. */
  method GenerateLiveStatus(states: map<string, OpState>, n: nat, draws: seq<LiveDraw>)
    returns (status: map<string, Snapshot>)
    requires DrawsFit(states, n, draws)
    ensures status == FleetStatus(states, n, draws)
    ensures status.Keys == set i: nat | 1 <= i <= n :: BusId(i)
  {
    status := map[];
    var i := 1;
    DrawsFitPrefix(states, n, draws, 0);
    while i <= n
      invariant 1 <= i <= n + 1
      invariant DrawsFit(states, i - 1, draws)
      invariant status == FleetStatus(states, i - 1, draws)
    {
      DrawsFitPrefix(states, n, draws, i);
      FleetStatusStep(states, i, draws);
      var snap := SnapshotOf(states, i, draws[i - 1]);
      status := status[BusId(i) := snap];
      i := i + 1;
    }
    assert i - 1 == n;
    LiveStatusKeys(states, n, draws);
  }
}
