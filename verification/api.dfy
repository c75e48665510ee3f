/** The stateful core of the web service in main.py: the route and bus
    tables, the traffic-aware ETA helper, the driver endpoints (location
    update with a bounded history, trip start and end with per-route
    analytics), the passenger bus search and the analytics summary.

    Request payloads become parameters; the authenticated user becomes the
    `driver` parameter; clock readings are minutes on one clock; random draws
    are parameters constrained to the range the code draws them from. */
module Api {
  import opened Common
  import opened Text
  import opened Sorting
  import opened EtaModel

  // ---------------------------------------------------------------------
  // Route and bus tables

  /** A route of `ENHANCED_ROUTES`; only the stop names take part in the
      search, so only they are kept (in the listed order). */
  datatype EnhancedRoute = EnhancedRoute(
    routeId: string,
    routeName: string,
    stopNames: seq<string>,
    averageDuration: int,
    fare: real)

  function EnhancedRoutes(): seq<EnhancedRoute> {
    [ EnhancedRoute("RT001", "Route 42",
        ["Central Station", "City Mall", "Hospital Junction", "Airport Terminal"], 45, 2.50),
      EnhancedRoute("RT002", "Route 15",
        ["University Campus", "Tech Park", "Shopping Center", "Downtown Mall"], 35, 1.75),
      EnhancedRoute("RT003", "Route 7",
        ["Suburb Station", "Industrial Area", "Metro Junction", "City Center"], 40, 3.00) ]
  }

  datatype BusRecord = BusRecord(
    busId: string,
    routeNumber: string,
    routeId: string,
    startLocation: string,
    destination: string,
    departureTime: string,
    arrivalTime: string,
    fare: real,
    capacity: int,
    availableSeats: int,
    driverId: string,
    status: string)

  function EnhancedBuses(): seq<BusRecord> {
    [ BusRecord("BUS001", "Route 42", "RT001", "Central Station", "Airport Terminal",
                "08:30", "09:15", 2.50, 50, 35, "driver", "active"),
      BusRecord("BUS002", "Route 15", "RT002", "University Campus", "Downtown Mall",
                "09:00", "09:35", 1.75, 40, 28, "driver1", "active"),
      BusRecord("BUS003", "Route 7", "RT003", "Suburb Station", "City Center",
                "08:45", "09:25", 3.00, 60, 42, "driver2", "active") ]
  }

  /** `next((r for r in ENHANCED_ROUTES if r["route_id"] == id), None)` */
  function FindEnhancedRoute(routes: seq<EnhancedRoute>, id: string): (r: Option<EnhancedRoute>)
    ensures r.Some? ==> r.value in routes && r.value.routeId == id
    ensures r.None? <==> forall k :: 0 <= k < |routes| ==> routes[k].routeId != id
  {
    if routes == [] then None
    else if routes[0].routeId == id then Some(routes[0])
    else FindEnhancedRoute(routes[1..], id)
  }

  /** `any(route["route_name"] == name for route in routes)` */
  function AnyRouteNamed(routes: seq<EnhancedRoute>, name: string): (b: bool)
    ensures b <==> exists k :: 0 <= k < |routes| && routes[k].routeName == name
  {
    if routes == [] then false
    else routes[0].routeName == name || AnyRouteNamed(routes[1..], name)
  }

  /** Trip start validates a route number against the route names; exactly
      the three listed names pass. */
  lemma KnownRouteNames(name: string)
    ensures AnyRouteNamed(EnhancedRoutes(), name) <==> name in {"Route 42", "Route 15", "Route 7"}
  {
    var routes := EnhancedRoutes();
    assert routes[0].routeName == "Route 42";
    assert routes[1].routeName == "Route 15";
    assert routes[2].routeName == "Route 7";
  }

  // ---------------------------------------------------------------------
  // Traffic-aware ETA (`calculate_eta_with_traffic`)

  /** Minutes to cover `distanceKm`: in rush hours the speed drops to 70% and
      the traffic factor rises by 30%, at night the speed rises by 20% and the
      factor drops by 20%; the speed is floored at 5 km/h. A missing hour is
      read from the clock (an explicit 0 is midnight). */
  function TrafficEta(distanceKm: real, speedKmh: real, traffic: real,
                      timeOfDay: Option<int>, clock: Clock): real
  {
    var hour := if timeOfDay.None? then clock.hour else timeOfDay.value;
    var speed := match BandOf(hour)
      case Rush => speedKmh * 0.7
      case Night => speedKmh * 1.2
      case Normal => speedKmh;
    var factor := match BandOf(hour)
      case Rush => traffic * 1.3
      case Night => traffic * 0.8
      case Normal => traffic;
    distanceKm / MaxR(speed, 5.0) * factor * 60.0
  }

  lemma DivideByLarger(d: real, x: real, y: real)
    requires d >= 0.0 && 0.0 < x <= y
    ensures 0.0 <= d / y <= d / x
  {
    assert d / y * y == d;
    assert d / x * x == d;
  }

  lemma MulMonotone(a: real, b: real, c: real, e: real)
    requires 0.0 <= a <= b && 0.0 <= c <= e
    ensures 0.0 <= a * c <= b * e
  {
    assert a * c <= b * c;
    assert b * c <= b * e;
  }

  /** The 5 km/h floor bounds the estimate: never negative, and never more
      than 12 minutes per km times the rush-hour traffic factor. */
  lemma TrafficEtaBounds(distanceKm: real, speedKmh: real, traffic: real,
                         timeOfDay: Option<int>, clock: Clock)
    requires distanceKm >= 0.0 && traffic >= 0.0
    ensures 0.0 <= TrafficEta(distanceKm, speedKmh, traffic, timeOfDay, clock)
                <= distanceKm * traffic * 15.6
  {
    var hour := if timeOfDay.None? then clock.hour else timeOfDay.value;
    var speed := match BandOf(hour)
      case Rush => speedKmh * 0.7
      case Night => speedKmh * 1.2
      case Normal => speedKmh;
    var factor := match BandOf(hour)
      case Rush => traffic * 1.3
      case Night => traffic * 0.8
      case Normal => traffic;
    DivideByLarger(distanceKm, 5.0, MaxR(speed, 5.0));
    assert 0.0 <= factor <= traffic * 1.3;
    MinutesBound(distanceKm / MaxR(speed, 5.0), distanceKm / 5.0, factor, traffic * 1.3);
    ScaleTo156(distanceKm, traffic);
  }

  lemma MinutesBound(a: real, b: real, c: real, e: real)
    requires 0.0 <= a <= b && 0.0 <= c <= e
    ensures 0.0 <= a * c * 60.0 <= b * e * 60.0
  {
    MulMonotone(a, b, c, e);
  }

  lemma ScaleTo156(d: real, t: real)
    ensures d / 5.0 * (t * 1.3) * 60.0 == d * t * 15.6
  {
  }

  /** For a speed at which the floor never applies, the same trip takes no
      longer at night than at a normal hour, and no longer at a normal hour
      than in the rush. */
  lemma TrafficEtaBandOrder(distanceKm: real, speedKmh: real, traffic: real,
                            night: int, normal: int, rush: int, clock: Clock)
    requires distanceKm >= 0.0 && traffic >= 0.0 && speedKmh >= 50.0 / 7.0
    requires BandOf(night) == Night && BandOf(normal) == Normal && BandOf(rush) == Rush
    ensures TrafficEta(distanceKm, speedKmh, traffic, Some(night), clock)
         <= TrafficEta(distanceKm, speedKmh, traffic, Some(normal), clock)
         <= TrafficEta(distanceKm, speedKmh, traffic, Some(rush), clock)
  {
    var q := distanceKm / speedKmh;
    assert distanceKm / (speedKmh * 1.2) == q / 1.2;
    assert distanceKm / (speedKmh * 0.7) == q / 0.7;
    assert q >= 0.0;
    assert TrafficEta(distanceKm, speedKmh, traffic, Some(night), clock) == q * traffic * 40.0;
    assert TrafficEta(distanceKm, speedKmh, traffic, Some(normal), clock) == q * traffic * 60.0;
    MulMonotone(q, q, traffic * 40.0, traffic * 60.0);
  }

  /** Only a missing hour is read from the clock: hour 0 given explicitly is
      a night hour whatever the clock says. */
  lemma TrafficEtaHourSource(distanceKm: real, speedKmh: real, traffic: real, clock: Clock)
    ensures TrafficEta(distanceKm, speedKmh, traffic, None, clock)
         == TrafficEta(distanceKm, speedKmh, traffic, Some(clock.hour), clock)
    ensures TrafficEta(distanceKm, speedKmh, traffic, Some(0), clock)
         == TrafficEta(distanceKm, speedKmh, traffic, Some(23), clock)
  {
  }

  // ---------------------------------------------------------------------
  // Location history

  /** Number of readings kept per bus. */
  const MaxHistory: nat := 100

  datatype Reading = Reading(latitude: real, longitude: real, speed: real, direction: string)

  datatype Location = Location(
    latitude: real,
    longitude: real,
    speed: real,
    direction: string,
    accuracy: Option<real>,
    altitude: Option<real>,
    driver: string,
    passengerLoad: string)

  /** Append a reading, then keep only the last `MaxHistory` of them. */
  function AppendCapped(history: seq<Reading>, p: Reading): (r: seq<Reading>)
    ensures |r| <= MaxHistory
  {
    var grown := history + [p];
    if |grown| > MaxHistory then grown[|grown| - MaxHistory..] else grown
  }

  /** The history is a sliding window: the newest reading is last, the
      window is a suffix of the readings so far, nothing is dropped before
      the window is full, and a full window stays full. */
  lemma HistoryWindow(history: seq<Reading>, p: Reading)
    ensures var r := AppendCapped(history, p);
      && |r| >= 1 && r[|r| - 1] == p
      && r == (history + [p])[|history| + 1 - |r|..]
      && (|history| < MaxHistory ==> r == history + [p])
      && (|history| >= MaxHistory ==> |r| == MaxHistory)
  {
  }

  /** The readings of one bus, empty before its first update. */
  function HistoryOf(histories: map<string, seq<Reading>>, busId: string): seq<Reading> {
    if busId in histories then histories[busId] else []
  }

  // ---------------------------------------------------------------------
  // Trips and route analytics

  datatype TripEnd = TripEnd(
    endLocation: string,
    endTime: real,
    actualDuration: real,
    totalPassengers: int,
    tripRating: Option<int>)

  /** A driver session; `ending` holds the fields `end_trip` adds. */
  datatype Session = Session(
    driver: string,
    routeNumber: string,
    routeExists: bool,
    startLocation: string,
    startTime: real,
    estimatedDuration: Option<int>,
    status: string,
    totalDistance: real,
    passengerCount: int,
    ending: Option<TripEnd>)

  datatype RouteStats = RouteStats(
    totalTrips: int,
    totalPassengers: int,
    averageDuration: real,
    totalDistance: real)

  /** The record created for a route's first completed trip. */
  const NewStats := RouteStats(0, 0, 0.0, 0.0)

  function StatsOf(analytics: map<string, RouteStats>, route: string): RouteStats {
    if route in analytics then analytics[route] else NewStats
  }

  /** One completed trip: the trip and passenger totals grow, and the new
      duration is averaged with the previous average. */
  function RecordTrip(stats: RouteStats, passengers: int, duration: real): (r: RouteStats)
    ensures r.totalTrips == stats.totalTrips + 1
    ensures r.totalPassengers == stats.totalPassengers + passengers
    ensures MinR(stats.averageDuration, duration) <= r.averageDuration
                 <= MaxR(stats.averageDuration, duration)
    ensures r.totalDistance == stats.totalDistance
  {
    RouteStats(stats.totalTrips + 1, stats.totalPassengers + passengers,
               (stats.averageDuration + duration) / 2.0, stats.totalDistance)
  }

  /** The average starts at 0 and each trip only halves the distance to its
      duration, so a route's first ten-minute trip is recorded as five. */
  lemma FirstTripCountsHalf(passengers: int, duration: real)
    ensures RecordTrip(NewStats, passengers, duration).averageDuration == duration / 2.0
    ensures RecordTrip(NewStats, passengers, 10.0).averageDuration == 5.0
  {
  }

  datatype Trip = Trip(passengers: int, duration: real)

  function SumPassengers(trips: seq<Trip>): int {
    if trips == [] then 0 else SumPassengers(trips[..|trips| - 1]) + trips[|trips| - 1].passengers
  }

  /** The statistics of a route after the given trips, in order. */
  function RecordAll(trips: seq<Trip>): RouteStats {
    if trips == [] then NewStats
    else
      var last := trips[|trips| - 1];
      RecordTrip(RecordAll(trips[..|trips| - 1]), last.passengers, last.duration)
  }

  /** After any sequence of trips the record counts them and their
      passengers; with durations in [0, longest] the average stays in that
      range too. */
  lemma {:induction false} RecordAllTotals(trips: seq<Trip>, longest: real)
    ensures RecordAll(trips).totalTrips == |trips|
    ensures RecordAll(trips).totalPassengers == SumPassengers(trips)
    ensures RecordAll(trips).totalDistance == 0.0
    ensures (forall k :: 0 <= k < |trips| ==> 0.0 <= trips[k].duration <= longest) ==>
              0.0 <= RecordAll(trips).averageDuration <= MaxR(0.0, longest)
  {
    if trips != [] {
      var init := trips[..|trips| - 1];
      RecordAllTotals(init, longest);
      if forall k :: 0 <= k < |trips| ==> 0.0 <= trips[k].duration <= longest {
        assert forall k :: 0 <= k < |init| ==> init[k] == trips[k];
      }
    }
  }

  /** The fields `end_trip` adds; the status becomes "completed". */
  function Ended(s: Session, endLocation: string, now: real, passengers: int,
                 rating: Option<int>): (r: Session)
    ensures r.status == "completed"
    ensures r.ending == Some(TripEnd(endLocation, now, now - s.startTime, passengers, rating))
    ensures r.routeNumber == s.routeNumber && r.startTime == s.startTime && r.driver == s.driver
    ensures r.(ending := s.ending, status := s.status) == s
  {
    s.(ending := Some(TripEnd(endLocation, now, now - s.startTime, passengers, rating)),
       status := "completed")
  }

  // ---------------------------------------------------------------------
  // Dictionary order and sums over sessions

  /** `order` lists the keys of a dictionary in insertion order. */
  ghost predicate KeyOrder(order: seq<string>, keys: set<string>) {
    && (forall i, j :: 0 <= i < j < |order| ==> order[i] != order[j])
    && (forall x :: x in order <==> x in keys)
  }

  /** Assigning a key keeps an existing key in place and appends a new one. */
  function InsertKey(order: seq<string>, key: string): (r: seq<string>)
    ensures key in order ==> r == order
    ensures key !in order ==> r == order + [key]
  {
    if key in order then order else order + [key]
  }

  lemma InsertKeyOrder(order: seq<string>, keys: set<string>, key: string)
    requires KeyOrder(order, keys)
    ensures KeyOrder(InsertKey(order, key), keys + {key})
  {
  }

  /** `sum(f(s) for s in sessions.values())` */
  function SumOver(order: seq<string>, sessions: map<string, Session>, f: Session -> int): int
    requires forall x :: x in order ==> x in sessions
  {
    if order == [] then 0
    else SumOver(order[..|order| - 1], sessions, f) + f(sessions[order[|order| - 1]])
  }

  /** 1 for a session whose status is "active". */
  function Activity(s: Session): int {
    if s.status == "active" then 1 else 0
  }

  /** `s.get("total_passengers", 0)` */
  function Recorded(s: Session): int {
    match s.ending
    case Some(e) => e.totalPassengers
    case None => 0
  }

  /** A session stored under a key the sum does not visit does not matter. */
  lemma {:induction false} SumOverFrame(order: seq<string>, sessions: map<string, Session>,
                                        f: Session -> int, b: string, s: Session)
    requires forall x :: x in order ==> x in sessions
    requires b !in order
    ensures SumOver(order, sessions[b := s], f) == SumOver(order, sessions, f)
  {
    if order != [] {
      SumOverFrame(order[..|order| - 1], sessions, f, b, s);
    }
  }

  /** Replacing one visited session changes the sum by the difference of
      its terms. */
  lemma {:induction false} SumOverUpdate(order: seq<string>, sessions: map<string, Session>,
                                         f: Session -> int, b: string, s: Session)
    requires forall x :: x in order ==> x in sessions
    requires forall i, j :: 0 <= i < j < |order| ==> order[i] != order[j]
    requires b in order
    ensures SumOver(order, sessions[b := s], f) == SumOver(order, sessions, f) - f(sessions[b]) + f(s)
  {
    var n := |order| - 1;
    var init := order[..n];
    if order[n] == b {
      assert b !in init;
      SumOverFrame(init, sessions, f, b, s);
    } else {
      assert b in init;
      SumOverUpdate(init, sessions, f, b, s);
    }
  }

  /** A session stored under a new key adds its term to the sum. */
  lemma SumOverAppend(order: seq<string>, sessions: map<string, Session>,
                      f: Session -> int, b: string, s: Session)
    requires forall x :: x in order ==> x in sessions
    requires b !in order
    ensures SumOver(order + [b], sessions[b := s], f) == SumOver(order, sessions, f) + f(s)
  {
    assert (order + [b])[..|order|] == order;
    SumOverFrame(order, sessions, f, b, s);
  }

  // ---------------------------------------------------------------------
  // Bus search (`get_available_buses`)

  /** `any(query.lower() in stop for stop in stops)` over lower-cased names. */
  predicate AnyStopContains(names: seq<string>, query: string) {
    exists k :: 0 <= k < |names| && Contains(Lower(query), Lower(names[k]))
  }

  /** A bus is listed when its route exists and the start or the destination
      occurs in one of the route's stop names. */
  predicate Listed(routes: seq<EnhancedRoute>, bus: BusRecord, start: string, dest: string) {
    match FindEnhancedRoute(routes, bus.routeId)
    case None => false
    case Some(route) => AnyStopContains(route.stopNames, start) || AnyStopContains(route.stopNames, dest)
  }

  /** The random draws for one listed bus: the distance, the fallback ETA
      used when the model cannot predict, and the crowd level. */
  datatype SearchDraw = SearchDraw(distanceKm: real, fallbackEta: int, crowdLevel: int)

  predicate SearchDrawFits(d: SearchDraw) {
    5.0 <= d.distanceKm <= 25.0 && 10 <= d.fallbackEta <= 45 && 1 <= d.crowdLevel <= 5
  }

  predicate SearchDrawsFit(draws: seq<SearchDraw>) {
    forall k :: 0 <= k < |draws| ==> SearchDrawFits(draws[k])
  }

  /** `BusResponse`: the public fields of the bus record plus live data. */
  datatype BusResponse = BusResponse(
    busId: string,
    routeNumber: string,
    startLocation: string,
    destination: string,
    departureTime: string,
    arrivalTime: string,
    fare: real,
    capacity: int,
    availableSeats: int,
    currentSpeed: real,
    crowdLevel: int,
    etaMinutes: int)

  /** The last reported speed of a bus, 0.0 without a report. */
  function CurrentSpeed(locations: map<string, Location>, busId: string): real {
    if busId in locations then locations[busId].speed else 0.0
  }

  /** The ETA of a listed bus: the model's prediction for at least 20 km/h,
      truncated; the fallback draw when the model cannot predict. */
  function SearchEta(ai: TransportAIModel, currentSpeed: real, d: SearchDraw, clock: Clock): int
    reads ai
  {
    match ai.PredictEta(MaxR(currentSpeed, 20.0), d.distanceKm, None, None, 1.0, clock)
    case Success(p) => Trunc(p)
    case Failure(_) => d.fallbackEta
  }

  function Respond(ai: TransportAIModel, locations: map<string, Location>, bus: BusRecord,
                   d: SearchDraw, clock: Clock): BusResponse
    reads ai
  {
    var speed := CurrentSpeed(locations, bus.busId);
    BusResponse(bus.busId, bus.routeNumber, bus.startLocation, bus.destination,
                bus.departureTime, bus.arrivalTime, bus.fare, bus.capacity, bus.availableSeats,
                speed, d.crowdLevel, SearchEta(ai, speed, d, clock))
  }

  /** The responses for the listed buses, in table order; `draws[k]` is
      what the code draws if `buses[k]` is listed. */
  function Search(ai: TransportAIModel, locations: map<string, Location>, routes: seq<EnhancedRoute>,
                  buses: seq<BusRecord>,
                  start: string, dest: string, draws: seq<SearchDraw>, clock: Clock): (found: seq<BusResponse>)
    requires |draws| == |buses|
    reads ai
    ensures |found| <= |buses|
  {
    if buses == [] then []
    else
      var n := |buses| - 1;
      Search(ai, locations, routes, buses[..n], start, dest, draws[..n], clock)
        + (if Listed(routes, buses[n], start, dest) then [Respond(ai, locations, buses[n], draws[n], clock)] else [])
  }

  /** The search loop of `get_available_buses` over a bus table: each bus
      whose route mentions the start or the destination is answered, in
      table order. */
  method SearchBuses(ai: TransportAIModel, locations: map<string, Location>, routes: seq<EnhancedRoute>, buses: seq<BusRecord>,
                     start: string, dest: string, draws: seq<SearchDraw>, clock: Clock)
    returns (found: seq<BusResponse>)
    requires |draws| == |buses|
    ensures found == Search(ai, locations, routes, buses, start, dest, draws, clock)
  {
    found := [];
    var k := 0;
    while k < |buses|
      invariant 0 <= k <= |buses|
      invariant found == Search(ai, locations, routes, buses[..k], start, dest, draws[..k], clock)
    {
      var bus := buses[k];
      SearchStep(ai, locations, routes, buses, start, dest, draws, clock, k);
      var route := FindEnhancedRoute(routes, bus.routeId);
      if route.Some? {
        var stops := route.value.stopNames;
        var startMatch := AnyStopContains(stops, start);
        var destMatch := AnyStopContains(stops, dest);
        if startMatch || destMatch {
          var currentSpeed := CurrentSpeed(locations, bus.busId);
          var eta := SearchEta(ai, currentSpeed, draws[k], clock);
          found := found + [BusResponse(bus.busId, bus.routeNumber, bus.startLocation,
                                        bus.destination, bus.departureTime, bus.arrivalTime,
                                        bus.fare, bus.capacity, bus.availableSeats,
                                        currentSpeed, draws[k].crowdLevel, eta)];
        }
      }
      k := k + 1;
    }
    assert buses[..k] == buses && draws[..k] == draws;
  }

  /** One step of the search loop: bus `k` is answered after the first `k`
      exactly when it is listed. */
  lemma SearchStep(ai: TransportAIModel, locations: map<string, Location>, routes: seq<EnhancedRoute>, buses: seq<BusRecord>,
                   start: string, dest: string, draws: seq<SearchDraw>, clock: Clock, k: nat)
    requires |draws| == |buses| && k < |buses|
    ensures Search(ai, locations, routes, buses[..k + 1], start, dest, draws[..k + 1], clock)
         == Search(ai, locations, routes, buses[..k], start, dest, draws[..k], clock)
            + (if Listed(routes, buses[k], start, dest) then [Respond(ai, locations, buses[k], draws[k], clock)] else [])
  {
    assert buses[..k + 1][..k] == buses[..k];
    assert draws[..k + 1][..k] == draws[..k];
  }

  /** The full answer for a listed bus of `buses`: its table fields, its
      live speed and the draw at its own position. */
  predicate AnswersListedBus(ai: TransportAIModel, locations: map<string, Location>, r: BusResponse,
                             routes: seq<EnhancedRoute>, buses: seq<BusRecord>, start: string, dest: string,
                             draws: seq<SearchDraw>, clock: Clock)
    reads ai
  {
    exists k :: 0 <= k < |buses| && k < |draws| && Listed(routes, buses[k], start, dest)
                && r == Respond(ai, locations, buses[k], draws[k], clock)
  }

  /** The live part of an answer: the stored speed, a crowd level in 1..5
      and an ETA of at least one minute (10..45 when the model cannot
      predict). */
  predicate LiveFieldsFit(ai: TransportAIModel, locations: map<string, Location>, r: BusResponse)
    reads ai
  {
    && r.currentSpeed == CurrentSpeed(locations, r.busId)
    && 1 <= r.crowdLevel <= 5
    && r.etaMinutes >= 1
    && (!ai.Ready() ==> 10 <= r.etaMinutes <= 45)
  }

  lemma RespondFits(ai: TransportAIModel, locations: map<string, Location>, bus: BusRecord,
                    d: SearchDraw, clock: Clock)
    requires SearchDrawFits(d)
    ensures LiveFieldsFit(ai, locations, Respond(ai, locations, bus, d, clock))
  {
    var speed := CurrentSpeed(locations, bus.busId);
    match ai.PredictEta(MaxR(speed, 20.0), d.distanceKm, None, None, 1.0, clock)
    case Success(p) =>
      assert Trunc(p) >= 1;
    case Failure(_) =>
  }

  /** Every answer is for a listed bus and its live fields fit. */
  lemma {:induction false} SearchAnswersListed(ai: TransportAIModel, locations: map<string, Location>, routes: seq<EnhancedRoute>,
                                               buses: seq<BusRecord>, start: string, dest: string,
                                               draws: seq<SearchDraw>, clock: Clock)
    requires |draws| == |buses| && SearchDrawsFit(draws)
    ensures forall r :: r in Search(ai, locations, routes, buses, start, dest, draws, clock) ==>
              AnswersListedBus(ai, locations, r, routes, buses, start, dest, draws, clock) && LiveFieldsFit(ai, locations, r)
  {
    if buses != [] {
      var n := |buses| - 1;
      var prefix := buses[..n];
      SearchAnswersListed(ai, locations, routes, prefix, start, dest, draws[..n], clock);
      var prev := Search(ai, locations, routes, prefix, start, dest, draws[..n], clock);
      var last := Respond(ai, locations, buses[n], draws[n], clock);
      RespondFits(ai, locations, buses[n], draws[n], clock);
      forall r | r in Search(ai, locations, routes, buses, start, dest, draws, clock)
        ensures AnswersListedBus(ai, locations, r, routes, buses, start, dest, draws, clock) && LiveFieldsFit(ai, locations, r)
      {
        if r in prev {
          assert AnswersListedBus(ai, locations, r, routes, prefix, start, dest, draws[..n], clock);
          var k :| 0 <= k < |prefix| && k < n && Listed(routes, prefix[k], start, dest)
                   && r == Respond(ai, locations, prefix[k], draws[..n][k], clock);
          assert prefix[k] == buses[k] && draws[..n][k] == draws[k];
        } else {
          assert r == last;
          assert Listed(routes, buses[n], start, dest);
        }
      }
    }
  }

  /** Every listed bus answers, with its own draw. */
  lemma {:induction false} SearchListsEveryMatch(ai: TransportAIModel, locations: map<string, Location>, routes: seq<EnhancedRoute>,
                                                 buses: seq<BusRecord>, start: string, dest: string,
                                                 draws: seq<SearchDraw>, clock: Clock)
    requires |draws| == |buses|
    ensures forall k :: 0 <= k < |buses| && Listed(routes, buses[k], start, dest) ==>
      Respond(ai, locations, buses[k], draws[k], clock) in Search(ai, locations, routes, buses, start, dest, draws, clock)
  {
    if buses != [] {
      var n := |buses| - 1;
      var prefix := buses[..n];
      SearchListsEveryMatch(ai, locations, routes, prefix, start, dest, draws[..n], clock);
      forall k | 0 <= k < |buses| && Listed(routes, buses[k], start, dest)
        ensures Respond(ai, locations, buses[k], draws[k], clock) in Search(ai, locations, routes, buses, start, dest, draws, clock)
      {
        if k < n {
          assert prefix[k] == buses[k] && draws[..n][k] == draws[k];
        }
      }
    }
  }

  /** The longest stop name has 17 characters. */
  lemma StopNamesAtMost17()
    ensures forall k, j :: 0 <= k < |EnhancedRoutes()| && 0 <= j < |EnhancedRoutes()[k].stopNames| ==>
              |EnhancedRoutes()[k].stopNames[j]| <= 17
  {
  }

  /** A start and destination both longer than every stop name match no
      bus, so the search fails. */
  lemma {:induction false} LongQueryFindsNothing(ai: TransportAIModel, locations: map<string, Location>,
                                                 routes: seq<EnhancedRoute>, buses: seq<BusRecord>,
                                                 start: string, dest: string,
                                                 draws: seq<SearchDraw>, clock: Clock)
    requires |draws| == |buses|
    requires forall k, j :: 0 <= k < |routes| && 0 <= j < |routes[k].stopNames| ==>
               |routes[k].stopNames[j]| < |start| && |routes[k].stopNames[j]| < |dest|
    ensures Search(ai, locations, routes, buses, start, dest, draws, clock) == []
  {
    if buses != [] {
      var n := |buses| - 1;
      LongQueryFindsNothing(ai, locations, routes, buses[..n], start, dest, draws[..n], clock);
      match FindEnhancedRoute(routes, buses[n].routeId)
      case None =>
      case Some(route) =>
        var k :| 0 <= k < |routes| && routes[k] == route;
        forall j | 0 <= j < |route.stopNames|
          ensures !Contains(Lower(start), Lower(route.stopNames[j]))
          ensures !Contains(Lower(dest), Lower(route.stopNames[j]))
        {
          LongerNeverOccurs(Lower(start), Lower(route.stopNames[j]));
          LongerNeverOccurs(Lower(dest), Lower(route.stopNames[j]));
        }
    }
  }

  /** On the route table, any start and destination longer than 17
      characters find no bus. */
  lemma LongQueryFindsNothingOnTable(ai: TransportAIModel, locations: map<string, Location>,
                                     buses: seq<BusRecord>, start: string, dest: string,
                                     draws: seq<SearchDraw>, clock: Clock)
    requires |draws| == |buses|
    requires |start| > 17 && |dest| > 17
    ensures Search(ai, locations, EnhancedRoutes(), buses, start, dest, draws, clock) == []
  {
    StopNamesAtMost17();
    LongQueryFindsNothing(ai, locations, EnhancedRoutes(), buses, start, dest, draws, clock);
  }

  /** An empty start matches every stop name, so every bus of the table is
      listed. */
  lemma EmptyStartListsEveryBus(dest: string)
    ensures forall k :: 0 <= k < |EnhancedBuses()| ==> Listed(EnhancedRoutes(), EnhancedBuses()[k], "", dest)
  {
    var buses, routes := EnhancedBuses(), EnhancedRoutes();
    assert Lower("") == "";
    forall k | 0 <= k < |buses| ensures Listed(routes, buses[k], "", dest) {
      assert buses[k].routeId == routes[k].routeId;
      assert FindEnhancedRoute(routes, buses[k].routeId) == Some(routes[k]);
      EmptyOccursEverywhere(Lower(routes[k].stopNames[0]));
    }
  }

  // ---------------------------------------------------------------------
  // System analytics

  datatype PopularRoute = PopularRoute(route: string, passengers: int, trips: int, avgDuration: real)

  datatype Analytics = Analytics(
    totalBuses: int,
    activeDrivers: int,
    totalPassengersToday: int,
    averageEtaAccuracy: real,
    popularRoutes: seq<PopularRoute>,
    systemRequests: int,
    successfulPredictions: int)

  /** The number of routes reported. */
  const TopCount: nat := 5

  /** `sort(key=passengers, reverse=True)` is stable; it is the ascending
      stable sort on the negated count. */
  function ByPassengersDesc(p: PopularRoute): real {
    -(p.passengers as real)
  }

  /** One row per route, in the insertion order of the analytics. */
  function RouteRows(order: seq<string>, analytics: map<string, RouteStats>): (rows: seq<PopularRoute>)
    requires forall x :: x in order ==> x in analytics
    ensures |rows| == |order|
    ensures forall k :: 0 <= k < |order| ==>
              rows[k] == PopularRoute(order[k], analytics[order[k]].totalPassengers,
                                      analytics[order[k]].totalTrips, analytics[order[k]].averageDuration)
  {
    if order == [] then []
    else
      var name := order[|order| - 1];
      var st := analytics[name];
      RouteRows(order[..|order| - 1], analytics)
        + [PopularRoute(name, st.totalPassengers, st.totalTrips, st.averageDuration)]
  }

  function Ranked(rows: seq<PopularRoute>): seq<PopularRoute> {
    SortBy(rows, ByPassengersDesc)
  }

  function TopRoutes(rows: seq<PopularRoute>): seq<PopularRoute> {
    var ranked := Ranked(rows);
    ranked[..if |ranked| < TopCount then |ranked| else TopCount]
  }

  /** The routes left out of the report. */
  function Dropped(rows: seq<PopularRoute>): seq<PopularRoute> {
    var ranked := Ranked(rows);
    ranked[if |ranked| < TopCount then |ranked| else TopCount..]
  }

  /** The report holds the five busiest routes (all when there are fewer),
      by passenger count descending; together with the routes left out it
      is a permutation of the rows, and no route left out carried more
      passengers than one reported. */
  lemma TopRoutesRanked(rows: seq<PopularRoute>)
    ensures |TopRoutes(rows)| == if |rows| < TopCount then |rows| else TopCount
    ensures forall i, j :: 0 <= i < j < |TopRoutes(rows)| ==>
              TopRoutes(rows)[i].passengers >= TopRoutes(rows)[j].passengers
    ensures multiset(TopRoutes(rows)) + multiset(Dropped(rows)) == multiset(rows)
    ensures forall x, y :: x in Dropped(rows) && y in TopRoutes(rows) ==> y.passengers >= x.passengers
  {
    var ranked := Ranked(rows);
    SortBySorted(rows, ByPassengersDesc);
    var m := if |ranked| < TopCount then |ranked| else TopCount;
    assert |ranked| == |multiset(rows)| == |rows|;
    SortedSplit(ranked, ByPassengersDesc, m);
    forall i, j | 0 <= i < j < |ranked[..m]| ensures ranked[..m][i].passengers >= ranked[..m][j].passengers {
      assert ByPassengersDesc(ranked[i]) <= ByPassengersDesc(ranked[j]);
    }
    forall x, y | x in ranked[m..] && y in ranked[..m] ensures y.passengers >= x.passengers {
      assert ByPassengersDesc(y) <= ByPassengersDesc(x);
    }
  }

  /** A prefix of a stable sort lists the elements of one key in input
      order. */
  lemma SortedPrefixKeepsTieOrder<T>(s: seq<T>, key: T -> real, v: real, m: nat)
    requires m <= |s|
    ensures |SortBy(s, key)| == |s|
    ensures WithKey(SortBy(s, key)[..m], key, v) <= WithKey(s, key, v)
  {
    var sorted := SortBy(s, key);
    assert |sorted| == |multiset(sorted)| == |multiset(s)| == |s|;
    var top, rest := sorted[..m], sorted[m..];
    assert sorted == top + rest;
    WithKeyAppend(top, rest, key, v);
    SortByStable(s, key, v);
  }

  /** Routes with equal passenger counts are reported in the order their
      first trip ended. */
  lemma TopRoutesKeepTieOrder(rows: seq<PopularRoute>, passengers: int)
    ensures var v := -(passengers as real);
      WithKey(TopRoutes(rows), ByPassengersDesc, v) <= WithKey(rows, ByPassengersDesc, v)
  {
    var m := if |rows| < TopCount then |rows| else TopCount;
    SortedPrefixKeepsTieOrder(rows, ByPassengersDesc, -(passengers as real), m);
  }

  // ---------------------------------------------------------------------
  // The service state

  class ApiState {
    var busLocations: map<string, Location>
    var locationHistory: map<string, seq<Reading>>
    var passengerLoads: map<string, string>
    var driverSessions: map<string, Session>
    var sessionOrder: seq<string>
    var routeAnalytics: map<string, RouteStats>
    var analyticsOrder: seq<string>
    var totalRequests: int
    var successfulPredictions: int
    /** `ENHANCED_ROUTES` and `ENHANCED_BUSES`, the tables the search
        walks; never changed. */
    const routes: seq<EnhancedRoute>
    const buses: seq<BusRecord>

    /** The key orders list the dictionaries' keys and every history is
        within its cap. */
    ghost predicate Valid()
      reads this
    {
      && KeyOrder(sessionOrder, driverSessions.Keys)
      && KeyOrder(analyticsOrder, routeAnalytics.Keys)
      && (forall b :: b in locationHistory ==> |locationHistory[b]| <= MaxHistory)
    }

    /** Process start: every store empty, the counters at zero. */
    constructor ()
      ensures Valid()
      ensures busLocations == map[] && locationHistory == map[] && passengerLoads == map[]
      ensures driverSessions == map[] && routeAnalytics == map[]
      ensures totalRequests == 0 && successfulPredictions == 0
      ensures routes == EnhancedRoutes() && buses == EnhancedBuses()
    {
      routes := EnhancedRoutes();
      buses := EnhancedBuses();
      busLocations := map[];
      locationHistory := map[];
      passengerLoads := map[];
      driverSessions := map[];
      sessionOrder := [];
      routeAnalytics := map[];
      analyticsOrder := [];
      totalRequests := 0;
      successfulPredictions := 0;
    }

    /** `update_driver_location`: store the reading as the bus's location,
        append it to the bus's capped history and record the passenger load. */
    method UpdateDriverLocation(busId: string, latitude: real, longitude: real, speed: real,
                                direction: string, passengerLoad: string,
                                accuracy: Option<real>, altitude: Option<real>, driver: string)
      requires Valid()
      modifies this
      ensures Valid()
      ensures busLocations == old(busLocations)[busId :=
                Location(latitude, longitude, speed, direction, accuracy, altitude, driver, passengerLoad)]
      ensures locationHistory == old(locationHistory)[busId :=
                AppendCapped(HistoryOf(old(locationHistory), busId), Reading(latitude, longitude, speed, direction))]
      ensures passengerLoads == old(passengerLoads)[busId := passengerLoad]
      ensures driverSessions == old(driverSessions) && sessionOrder == old(sessionOrder)
      ensures routeAnalytics == old(routeAnalytics) && analyticsOrder == old(analyticsOrder)
      ensures totalRequests == old(totalRequests) && successfulPredictions == old(successfulPredictions)
    {
      busLocations := busLocations[busId :=
        Location(latitude, longitude, speed, direction, accuracy, altitude, driver, passengerLoad)];
      var history := if busId in locationHistory then locationHistory[busId] else [];
      history := history + [Reading(latitude, longitude, speed, direction)];
      if |history| > MaxHistory {
        history := history[|history| - MaxHistory..];
      }
      locationHistory := locationHistory[busId := history];
      passengerLoads := passengerLoads[busId := passengerLoad];
    }

    /** `start_trip`: the route number is validated against the route names
        and a fresh active session replaces whatever the bus had. */
    method StartTrip(busId: string, routeNumber: string, startLocation: string,
                     estimatedDuration: Option<int>, driver: string, now: real)
      returns (routeValidated: bool)
      requires Valid()
      modifies this
      ensures Valid()
      ensures routeValidated <==> AnyRouteNamed(routes, routeNumber)
      ensures routes == EnhancedRoutes() ==> (routeValidated <==> routeNumber in {"Route 42", "Route 15", "Route 7"})
      ensures driverSessions == old(driverSessions)[busId :=
                Session(driver, routeNumber, routeValidated, startLocation, now, estimatedDuration,
                        "active", 0.0, 0, None)]
      ensures sessionOrder == InsertKey(old(sessionOrder), busId)
      ensures busLocations == old(busLocations) && locationHistory == old(locationHistory)
      ensures passengerLoads == old(passengerLoads)
      ensures routeAnalytics == old(routeAnalytics) && analyticsOrder == old(analyticsOrder)
      ensures totalRequests == old(totalRequests) && successfulPredictions == old(successfulPredictions)
    {
      routeValidated := AnyRouteNamed(routes, routeNumber);
      KnownRouteNames(routeNumber);
      InsertKeyOrder(sessionOrder, driverSessions.Keys, busId);
      driverSessions := driverSessions[busId :=
        Session(driver, routeNumber, routeValidated, startLocation, now, estimatedDuration,
                "active", 0.0, 0, None)];
      sessionOrder := InsertKey(sessionOrder, busId);
    }

    /** `end_trip`: for a bus with a session, record the trip in its route's
        statistics (created on the route's first trip) and complete the
        session; an unknown bus changes nothing. Success either way. */
    method EndTrip(busId: string, endLocation: string, totalPassengers: int,
                   tripRating: Option<int>, now: real)
      returns (analyticsUpdated: bool)
      requires Valid()
      modifies this
      ensures Valid()
      ensures analyticsUpdated
      ensures busId !in old(driverSessions) ==>
        && driverSessions == old(driverSessions) && sessionOrder == old(sessionOrder)
        && routeAnalytics == old(routeAnalytics) && analyticsOrder == old(analyticsOrder)
      ensures busId in old(driverSessions) ==>
        var s := old(driverSessions)[busId];
        && driverSessions == old(driverSessions)[busId := Ended(s, endLocation, now, totalPassengers, tripRating)]
        && sessionOrder == old(sessionOrder)
        && routeAnalytics == old(routeAnalytics)[s.routeNumber :=
             RecordTrip(StatsOf(old(routeAnalytics), s.routeNumber), totalPassengers, now - s.startTime)]
        && analyticsOrder == InsertKey(old(analyticsOrder), s.routeNumber)
      ensures busLocations == old(busLocations) && locationHistory == old(locationHistory)
      ensures passengerLoads == old(passengerLoads)
      ensures totalRequests == old(totalRequests) && successfulPredictions == old(successfulPredictions)
    {
      if busId in driverSessions {
        var session := driverSessions[busId];
        var duration := now - session.startTime;
        var route := session.routeNumber;
        InsertKeyOrder(analyticsOrder, routeAnalytics.Keys, route);
        if route !in routeAnalytics {
          routeAnalytics := routeAnalytics[route := NewStats];
          analyticsOrder := analyticsOrder + [route];
        }
        var stats := routeAnalytics[route];
        routeAnalytics := routeAnalytics[route := RecordTrip(stats, totalPassengers, duration)];
        driverSessions := driverSessions[busId := Ended(session, endLocation, now, totalPassengers, tripRating)];
      }
      analyticsUpdated := true;
    }

    /** `get_available_buses`: the listed buses in table order; none listed
        is reported as a server error (the 404 raised inside the handler is
        caught and re-raised as 500). The request counters move only on
        success. */
    method GetAvailableBuses(ai: TransportAIModel, start: string, dest: string,
                             draws: seq<SearchDraw>, clock: Clock)
      returns (r: Result<seq<BusResponse>, int>)
      requires Valid() && |draws| == |buses|
      modifies this
      ensures Valid()
      ensures var found := Search(ai, old(busLocations), routes, buses, start, dest, draws, clock);
        && (r.Failure? <==> found == [])
        && (r.Failure? ==> r.error == 500
                           && totalRequests == old(totalRequests)
                           && successfulPredictions == old(successfulPredictions))
        && (r.Success? ==> r.value == found
                           && totalRequests == old(totalRequests) + 1
                           && successfulPredictions == old(successfulPredictions) + |found|)
      ensures busLocations == old(busLocations) && locationHistory == old(locationHistory)
      ensures passengerLoads == old(passengerLoads)
      ensures driverSessions == old(driverSessions) && sessionOrder == old(sessionOrder)
      ensures routeAnalytics == old(routeAnalytics) && analyticsOrder == old(analyticsOrder)
    {
      var found := SearchBuses(ai, busLocations, routes, buses, start, dest, draws, clock);
      if found == [] {
        r := Failure(500);
      } else {
        totalRequests := totalRequests + 1;
        successfulPredictions := successfulPredictions + |found|;
        r := Success(found);
      }
    }

    /** `get_system_analytics`: active sessions, passengers of completed
        trips, and the five busiest routes. Changes nothing. */
    method GetSystemAnalytics() returns (a: Analytics)
      requires Valid()
      ensures a.totalBuses == |buses| && a.averageEtaAccuracy == 0.89
      ensures a.activeDrivers == SumOver(sessionOrder, driverSessions, Activity)
      ensures a.totalPassengersToday == SumOver(sessionOrder, driverSessions, Recorded)
      ensures a.popularRoutes == TopRoutes(RouteRows(analyticsOrder, routeAnalytics))
      ensures a.systemRequests == totalRequests && a.successfulPredictions == successfulPredictions
    {
      var active := SumOver(sessionOrder, driverSessions, Activity);
      var passengers := SumOver(sessionOrder, driverSessions, Recorded);
      var rows: seq<PopularRoute> := [];
      for k := 0 to |analyticsOrder|
        invariant rows == RouteRows(analyticsOrder[..k], routeAnalytics)
      {
        var name := analyticsOrder[k];
        var st := routeAnalytics[name];
        rows := rows + [PopularRoute(name, st.totalPassengers, st.totalTrips, st.averageDuration)];
        assert analyticsOrder[..k + 1][..k] == analyticsOrder[..k];
      }
      assert analyticsOrder[..|analyticsOrder|] == analyticsOrder;
      var ranked := SortBy(rows, ByPassengersDesc);
      var shown := if |ranked| < TopCount then |ranked| else TopCount;
      a := Analytics(|buses|, active, passengers, 0.89, ranked[..shown],
                     totalRequests, successfulPredictions);
    }
  }

  /** Starting a trip makes its bus an active driver: the active count grows
      by one unless the bus already had an active session. */
  lemma StartTripCountsActive(order: seq<string>, sessions: map<string, Session>,
                              busId: string, s: Session)
    requires KeyOrder(order, sessions.Keys)
    requires s.status == "active"
    ensures SumOver(InsertKey(order, busId), sessions[busId := s], Activity)
         == SumOver(order, sessions, Activity)
            + (if busId in sessions && sessions[busId].status == "active" then 0 else 1)
  {
    if busId in order {
      SumOverUpdate(order, sessions, Activity, busId, s);
    } else {
      SumOverAppend(order, sessions, Activity, busId, s);
    }
  }

  /** Ending a trip stops counting its driver as active and counts its
      passengers (in place of any count an earlier end recorded). */
  lemma EndTripCounts(order: seq<string>, sessions: map<string, Session>, busId: string,
                      endLocation: string, now: real, passengers: int, rating: Option<int>)
    requires KeyOrder(order, sessions.Keys)
    requires busId in sessions
    ensures var after := sessions[busId := Ended(sessions[busId], endLocation, now, passengers, rating)];
      && SumOver(order, after, Activity) == SumOver(order, sessions, Activity) - Activity(sessions[busId])
      && SumOver(order, after, Recorded) == SumOver(order, sessions, Recorded) - Recorded(sessions[busId]) + passengers
  {
    var e := Ended(sessions[busId], endLocation, now, passengers, rating);
    SumOverUpdate(order, sessions, Activity, busId, e);
    SumOverUpdate(order, sessions, Recorded, busId, e);
  }
}
