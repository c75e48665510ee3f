# Public-transport simulator and ETA service, modelled in Dafny

This project models the bookkeeping and ranking core of a small public-transport system. It has four parts:

- **Simulator (`datasim.py`).** A static catalog of two routes with indexed stops and the stops-between query. An operational store of fifteen buses, with its seeded initial state and a partial-field admin update. The live-status generator, which builds a depot snapshot for an off-duty bus and a randomised snapshot for a running one.
- **Planner (`run_app.py`).** The journey-time formula. The `/api/v1/plan` handler pairs every route that serves both stops with the running buses of one live snapshot, then sorts the suggestions by total journey time. The admin update maps its result to 200 or 404.
- **ETA model (`ai_models.py`).** The synthetic training-data generator, with its hour-of-day bands, weekend factors and floors. The `model_loaded` state that `load_model` and `train_model` leave behind. The guarded prediction, floored at one minute and rounded. The confidence score.
- **Web service (`main.py`).** The traffic-aware ETA formula. The driver endpoints: a location update with a 100-point history, and trip start and end with per-route analytics. The passenger bus search, which matches lower-cased stop names. The analytics summary with its five busiest routes.

How the model represents the source:

- Every random draw is a parameter, constrained to the range the code draws it from. This covers `random.choice`, `uniform`, `randint` and `gauss`.
- The clock (`datetime.now()`) is a parameter.
- The fitted regressor is a linear function of the five features. Fitting it is a parameter `fit`.
- Python's `round` and `.1f` formatting round half to even. `int()` truncates toward zero. `list.sort` is a stable sort (`Sorting.SortBy`).
- Dictionaries that are iterated in insertion order keep that order as a sequence of keys.
- Quantities are exact `real`s.
- The planner reads the stops between two names from a route table `routes`; a plan passes the catalog, the code's `ROUTES`.
- One `random.uniform(4, 8)` is drawn per `calculate_journey_time` call (run_app.py:37), so each suggestion has its own `PlanDraw.perLegMin`.

The modules are `Common`, `Text`, `Sorting`, `Routes`, `Operational`, `LiveStatus`, `Planner`, `EtaModel` and `Api`. Stateful code is modelled as classes:

- `Operational.Store` holds the bus operational states.
- `EtaModel.TransportAIModel` holds the model, the loaded flag and the training data.
- `Api.ApiState` holds the location, history, session and analytics stores and the request counters, with the route and bus tables as constant fields.

Loops are methods proved against specification functions:

- `GenerateLiveStatus` against `FleetStatus`;
- `PlanRoute` against `Plan`;
- `GenerateSyntheticData` against `SyntheticData`;
- `GetAvailableBuses` (through `SearchBuses`) against `Search`;
- `GetSystemAnalytics` against `TopRoutes`.

## Model

| member | source | states |
|---|---|---|
| Common.Trunc | main.py:602 | `int()` on a float truncates toward zero: within one of the value, on the zero side |
| Common.RoundHalfEvenNearest | ai_models.py:244 | rounding to an integer lands within 0.5 of the value, on the even integer at a tie |
| Common.Round1Nearest | ai_models.py:244 | `round(x, 1)` is a value with one decimal within 0.05 of x |
| Common.Round2Nearest | ai_models.py:298 | `round(x, 2)` is a value with two decimals within 0.005 of x |
| Common.Round1AtLeastOne | ai_models.py:242-244 | rounding a value floored at 1 to one decimal stays at least 1 |
| Common.Round1Monotone | run_app.py:104-105 | the one-decimal rendering preserves order |
| Text.DigitsRoundTrip | datasim.py:29 | the decimal rendering of a bus number parses back to that number |
| Text.NatToStringInjective | datasim.py:29 | distinct bus numbers give distinct decimal renderings |
| Text.Lower | main.py:581-583 | `lower()` keeps the length and lower-cases each character: 'A'..'Z' become 'a'..'z' (through `LowerChar`), every other character is kept, and no upper-case ASCII letter remains |
| Text.EmptyOccursEverywhere | main.py:582-583 | the empty search term is a substring of every stop name |
| Text.LongerNeverOccurs | main.py:582-583 | a term longer than a stop name is never a substring of it |
| Sorting.SortBy | run_app.py:111 | the sorted list is a permutation of the input |
| Sorting.SortBySorted | run_app.py:111 | the sorted list is non-decreasing in the key |
| Sorting.SortByStable | run_app.py:111 | elements with equal keys keep their input order |
| Sorting.SortByIdempotent | run_app.py:111 | sorting a sorted list changes nothing |
| Routes.FindRoute | datasim.py:43-45 | the lookup finds a route with that id, or reports none exists |
| Routes.IndexOf | datasim.py:47-51 | the `next` lookup fails exactly when the name is not on the route |
| Routes.IndexOfFirst | datasim.py:47-51 | a successful lookup returns the index of the first stop with that name |
| Routes.CatalogWellFormed | datasim.py:6-24 | both routes are non-empty, each stop's index is its position, and names are distinct |
| Routes.CatalogIdsDistinct | datasim.py:6-24 | the route ids are distinct |
| Routes.InRangeMembers | datasim.py:57 | a stop is returned iff it is on the route with index in (lo, hi] |
| Routes.InRangeSlice | datasim.py:54-57 | on a positional route the interval (lo, hi] is a contiguous slice |
| Routes.IndexOfDistinct | datasim.py:48-49 | on distinct names the lookup returns the stop's own index |
| Routes.NoMatchIsEmpty | datasim.py:43-51 | an unknown route, or a name missing from it, gives the empty list |
| Routes.StopsOnSymmetric | datasim.py:54-55 | on any route table, swapping start and end gives the same stops |
| Routes.StopsOnSameStop | datasim.py:54-57 | on any route table, the same start and end gives no stops |
| Routes.StopsOnInterval | datasim.py:41-57 | on a well-formed route of any table, for stops at positions i and j the result is the slice after min(i, j) up to and including max(i, j) |
| Routes.StopsInOrderInterval | datasim.py:41-57 | the same on the catalog: `get_stops_in_order` for stops at positions i and j is the slice after min(i, j) up to and including max(i, j) |
| Routes.FirstToLast | datasim.py:41-57 | from the first stop to the last gives every stop but the first |
| Routes.TownHallToHospitalSquare | datasim.py:10-13 | Town Hall to Hospital Square gives Main Market, University Gate, Hospital Square |
| Operational.BusIdInjective | datasim.py:29 | distinct bus numbers give distinct `Bus-i` ids |
| Operational.InitialStatesUpToAt | datasim.py:28-35 | seeding the first n buses gives `Bus-i` iff 1 <= i <= n, with the i-th tier |
| Operational.InitialStatesLookup | datasim.py:28-35 | `Bus-i` is seeded iff 1 <= i <= 15, with the i-th tier |
| Operational.InitialStateFields | datasim.py:30-33 | a seeded record runs iff i % 3 != 0, with the matching message, on Route-1 for even i and Route-2 for odd i |
| Operational.InitialStatesAt | datasim.py:28-35 | initial state of every `Bus-i`: running flag, message, route and tier as seeded |
| Operational.InitialStatesKeys | datasim.py:28-35 | the store holds exactly Bus-1..Bus-15 and no record has route "N/A" |
| Operational.Patch | datasim.py:123-128 | fields given are overwritten and the others kept; an "N/A" route becomes Route-1 or Route-2 when the bus is switched on |
| Operational.PatchIdempotent | datasim.py:123-128 | applying the same update twice equals applying it once |
| Operational.EmptyPatchIsIdentity | datasim.py:123-128 | an update that gives no field changes nothing |
| Operational.Store.constructor | datasim.py:28-35 | the store starts with the seeded fleet |
| Operational.Store.Update | datasim.py:119-130 | False and no change for a missing or unknown id; otherwise True, and only that bus's record is patched |
| LiveStatus.ResolvedStops | datasim.py:71-72 | an unknown route key falls back to Route-1's stops; the result is non-empty, positional and distinctly named |
| LiveStatus.OtherStopsMembers | datasim.py:90 | the next-stop candidates are exactly the stops with a different name |
| LiveStatus.Passengers | datasim.py:96-97 | the passenger count uses the tier's draw, or is 20 for any other tier |
| LiveStatus.SnapshotFields | datasim.py:66-116 | off duty: depot snapshot, with the stored message and tier carried through. Running: stops of the route, next stop distinct when the route has at least two stops, speed 15..50, distance 0.8..4.5, passengers in the tier's range |
| LiveStatus.OtherStopsCount | datasim.py:90-91 | on distinctly named stops exactly the current stop is dropped, so a route of two or more stops always leaves a different next stop |
| LiveStatus.RunningLocationNearStop | datasim.py:108-111 | a running bus is within 0.0005 degrees of its current stop |
| LiveStatus.UnknownRouteFallsBack | datasim.py:71-72 | an unknown stored route key is still reported, but Route-1's stops are used |
| LiveStatus.LiveStatusAt | datasim.py:64-116 | `Bus-i` has an entry iff 1 <= i <= n, and it is the snapshot built from its own draw |
| LiveStatus.LiveStatusKeys | datasim.py:64-67 | the keys are exactly Bus-1..Bus-n |
| LiveStatus.GenerateLiveStatus | datasim.py:59-117 | the loop builds `FleetStatus`, with keys Bus-1..Bus-n |
| Planner.LegMinutesBounds | run_app.py:36-37 | at 4 to 8 minutes per leg, the transit takes 4 to 8 minutes per stop passed |
| Planner.JourneyTime | run_app.py:29-41 | the first component is the model's ETA to the start stop |
| Planner.JourneyTimeBounds | run_app.py:35-39 | total = boarding + 4..8 minutes per stop between, so total >= boarding |
| Planner.JourneyTimeSymmetric | run_app.py:35 | the journey time does not depend on the direction |
| Planner.JourneyTimeSameStop | run_app.py:35-39 | boarding at the destination: the total is the boarding ETA |
| Planner.RunningOn | run_app.py:91-92 | of the first n buses at most n are visited for a route, each numbered within 1..n |
| Planner.RunningOnIncreasing | run_app.py:91-92 | the buses of one route are visited in increasing bus number, so each at most once |
| Planner.RunningOnMembers | run_app.py:91-92 | a bus is visited for a route iff it runs on that route |
| Planner.Matches | run_app.py:85-92 | the visited bus numbers are within 1..15 and at most 15 per route |
| Planner.MatchesMembers | run_app.py:85-92 | a bus is visited iff it runs on a route whose stops include both names |
| Planner.MatchesDistinct | run_app.py:85-92 | no bus is visited twice |
| Planner.Suggest | run_app.py:94-109 | a suggestion carries the bus's id, route, crowdedness and current stop, and the requested end |
| Planner.SuggestTimes | run_app.py:94-105 | its boarding ETA is the model's ETA for the bus's speed and the drawn distance, and its total is that ETA plus the per-leg draw for every stop passed, both rendered with one decimal |
| Planner.SuggestBounds | run_app.py:94-105 | with draws in range, the boarding ETA is the rendered model ETA b, the total lies between the renderings of b + 4 and b + 8 minutes per stop passed, and the ETA is at most the total |
| Planner.RenderedBounds | run_app.py:104-105 | rendering two times `legs` stops apart at 4 to 8 minutes a stop keeps the total between the renderings of the two extremes and not below the boarding ETA |
| Planner.RoundedTotalBounds | run_app.py:36-39 | the rendered total lies between the renderings of boarding + 4 and boarding + 8 minutes per stop |
| Planner.SuggestionsAt | run_app.py:97-109 | the k-th visited bus gives the k-th suggestion, built with the k-th draw |
| Planner.SuggestionsAppend | run_app.py:103-109 | visiting one more bus appends its suggestion, built with the next draw |
| Planner.SuggestionsDistinctBuses | run_app.py:91-109 | distinct visited bus numbers give suggestions for distinct bus ids |
| Planner.PlanRoute | run_app.py:67-115 | a missing or empty stop gives 400; otherwise the sorted suggestions of `Plan` |
| Planner.CollectSuggestions | run_app.py:85-109 | the outer loop appends the suggestions of every serving route in catalog order |
| Planner.CollectServing | run_app.py:85-109 | one step of the outer loop: the visited buses grow by the route's running buses when the route serves both stops, and the suggestions follow them |
| Planner.CollectRoute | run_app.py:91-109 | the inner loop appends one suggestion per running bus of the route |
| Planner.CollectBus | run_app.py:91-109 | one step of the inner loop: bus i is visited, and its suggestion appended, iff it runs on the route |
| Planner.PlanOrdered | run_app.py:111 | the plan is a permutation of the collected suggestions, non-decreasing in total minutes, and stable |
| Planner.PlanSuggestsRunningBuses | run_app.py:85-109 | bus i is suggested iff it runs on a route whose stops include both names |
| Planner.PlanNoDuplicateBus | run_app.py:85-111 | no bus appears twice in the plan |
| Planner.SuggestionShape | run_app.py:85-109 | for any route table, every suggestion ends at the requested stop, its route serves both stops, its boarding ETA is the rendered model ETA b of its bus, and its total lies between the renderings of b + 4 and b + 8 minutes per stop passed |
| Planner.PlanSuggestionShape | run_app.py:101-109 | every suggestion of the plan ends at the requested stop, its route serves both stops, its boarding ETA is at most its total, and for some boarding ETA b it shows b rendered and a total between the renderings of b + 4 and b + 8 minutes per stop passed |
| Planner.AdminUpdate | run_app.py:143-159 | 404 iff the bus is missing or unknown, and then nothing changes; otherwise 200 and the store update |
| EtaModel.BandsOfDay | ai_models.py:53-61 | rush is 7-9 and 17-19, night is 22-23 and 0-5, the remaining hours are normal |
| EtaModel.Weather | ai_models.py:89 | the weather factor lies in [0.9, 1.3] |
| EtaModel.SampleFloors | ai_models.py:69-90 | speed >= 5, pre-weather ETA >= 1, and the final ETA >= int(0.9 * pre) >= 0 |
| EtaModel.WeatherCanDropBelowFloor | ai_models.py:86-90 | a draw in range with a pre-weather ETA of 1 records 0 minutes |
| EtaModel.WeekendFactors | ai_models.py:64-69 | the weekend multipliers apply iff day_of_week >= 5 |
| EtaModel.WeekdayTrafficInBand | ai_models.py:53-61 | on a weekday the traffic factor lies in its band's range |
| EtaModel.SyntheticData | ai_models.py:46-99 | one row per draw, built from that draw |
| EtaModel.GenerateSyntheticData | ai_models.py:44-107 | the loop builds `SyntheticData`; every row has speed >= 5 and ETA >= 0 |
| EtaModel.ConfidenceUnclamped | ai_models.py:270-298 | the adjusted score already lies in [0.4, 0.95], so clamping and rounding do not change it |
| EtaModel.ConfidenceBest | ai_models.py:270-290 | the score is 0.95 iff speed, distance and traffic are all typical |
| EtaModel.EchoedHour | ai_models.py:303 | an hour of None or 0 is echoed as the clock's hour |
| EtaModel.EchoedDay | ai_models.py:304 | a day of None or 0 is echoed as the clock's weekday |
| EtaModel.TransportAIModel.constructor | ai_models.py:17-26 | after start-up the model is loaded iff a model file was read |
| EtaModel.TransportAIModel.LoadModel | ai_models.py:186-208 | always True; a stored model sets the loaded flag; otherwise a fresh model is trained and the flag is unchanged |
| EtaModel.TransportAIModel.TrainModel | ai_models.py:109-165 | model and training data are set from the given or synthetic rows; the loaded flag is unchanged |
| EtaModel.TransportAIModel.PredictEta | ai_models.py:210-244 | fails iff not loaded or no model; otherwise at least 1, with one decimal, and within 0.05 of max(1, regressor value) |
| EtaModel.TransportAIModel.PredictEtaWithConfidence | ai_models.py:246-307 | same guard; the ETA of `PredictEta`, the confidence score in [0.4, 0.95], and the echoed inputs: speed, distance, traffic factor, and the hour and day after the clock fallback |
| EtaModel.PredictAfterStartup | ai_models.py:186-227 | right after start-up a prediction succeeds iff a model file was read, since training alone never sets the loaded flag; a prediction is at least 1 |
| Api.FindEnhancedRoute | main.py:577 | the lookup finds a route with the bus's route id, or reports none exists |
| Api.AnyRouteNamed | main.py:466 | true iff some route has that name |
| Api.KnownRouteNames | main.py:466 | exactly "Route 42", "Route 15" and "Route 7" validate |
| Api.TrafficEtaBounds | main.py:280-296 | the estimate is >= 0, and at most 15.6 * distance * traffic because the speed is floored at 5 |
| Api.TrafficEtaBandOrder | main.py:286-296 | when the speed floor does not bind, night <= normal <= rush for the same trip |
| Api.TrafficEtaHourSource | main.py:282-283 | only a missing hour is read from the clock; an explicit 0 is a night hour |
| Api.AppendCapped | main.py:440-453 | the history never exceeds 100 points |
| Api.HistoryWindow | main.py:443-453 | the new point is last, the history is a suffix of old ++ [new], nothing is dropped below 100 points, and a full window stays at 100 |
| Api.RecordTrip | main.py:509-512 | trips +1, passengers +n, and the new average lies between the old average and the trip's duration |
| Api.FirstTripCountsHalf | main.py:501-512 | a route's first trip records half its duration as the average |
| Api.RecordAllTotals | main.py:501-512 | after any trips the record counts them and their passengers, and the average stays within the duration range |
| Api.Ended | main.py:514-521 | the session becomes "completed" with the end fields and duration = now - start; every other field of the session (route, start, estimate, distance, passenger count, driver) is kept, as `dict.update` does |
| Api.SumOverUpdate | main.py:819-820 | replacing one session changes a sum over sessions by the difference of its terms |
| Api.SumOverAppend | main.py:819-820 | a new session adds its term to a sum over sessions |
| Api.Search | main.py:575-611 | no more answers than buses in the table (which buses answer, and with what, is stated by `SearchAnswersListed` and `SearchListsEveryMatch`) |
| Api.SearchStep | main.py:575-611 | one more bus of the table adds its answer, with its own draw, iff it is listed |
| Api.SearchBuses | main.py:575-611 | the search loop builds `Search` over the bus table |
| Api.RespondFits | main.py:586-611 | an answer carries the stored speed or 0.0, a crowd level in 1..5, and an ETA >= 1 (10..45 when the model cannot predict) |
| Api.SearchAnswersListed | main.py:575-611 | every answer is the full `Respond` record of a listed bus at some position k, built with the k-th draw (so its table fields are that bus's), and its live fields are in range |
| Api.SearchListsEveryMatch | main.py:577-611 | every listed bus answers, with its own draw |
| Api.LongQueryFindsNothing | main.py:580-585 | for any route table, a start and destination longer than every stop name match no bus |
| Api.LongQueryFindsNothingOnTable | main.py:580-585 | on the service's route table, a start and destination of more than 17 characters match no bus |
| Api.EmptyStartListsEveryBus | main.py:580-585 | an empty start matches every stop name, so every bus is listed |
| Api.RouteRows | main.py:823-830 | one row per route, in insertion order: row k is route `order[k]` with its passengers, trips and average duration |
| Api.TopRoutesRanked | main.py:832-840 | min(5, n) routes in descending passenger order; with the dropped ones they form a permutation of the rows; no dropped route has more passengers than a reported one |
| Api.TopRoutesKeepTieOrder | main.py:833 | routes with equal passenger counts keep their insertion order |
| Api.StartTripCountsActive | main.py:468-478 | a started trip adds one active driver unless that bus already had an active session |
| Api.EndTripCounts | main.py:514-521 | an ended trip stops counting as active, and its passengers replace any count recorded before |
| Api.ApiState.constructor | main.py:57-70 | all stores empty, counters zero |
| Api.ApiState.UpdateDriverLocation | main.py:418-457 | only the bus's location, capped history and passenger load change |
| Api.ApiState.StartTrip | main.py:459-485 | the route is validated by name against the service's route table, so exactly "Route 42", "Route 15" and "Route 7" validate on the table set at start-up; a fresh active session replaces the bus's entry |
| Api.ApiState.EndTrip | main.py:487-523 | always success. An unknown bus changes nothing. Otherwise the route's statistics (created on first use) record the trip and the session is completed |
| Api.ApiState.GetAvailableBuses | main.py:566-626 | `Search` on the stored locations; 500 iff nothing is listed, counters moved only on success; the store invariant is kept |
| Api.ApiState.GetSystemAnalytics | main.py:816-843 | active drivers, passengers of completed trips, the top five routes and the counters; changes nothing |

## Left out

- Web plumbing is left out: routing, CORS, static and `index.html` serving, JSON encoding, the status and analytics pass-through handlers, and `get_routes_metadata`. These are framework I/O with no logic of their own.
- Authentication, login, tokens and role checks are left out. They are calls into a crypto library. `login` also adds one to `total_requests` (main.py:397). Without it, `ApiState.totalRequests`, which `GetSystemAnalytics` reports as `system_requests`, counts only successful searches.
- The SOS alert store and its notification task are left out. They are bookkeeping without logic.
- The `update_system_metrics` background loop is left out. It is concurrency and timers.
- The `/buses/{id}/location`, `/buses/{id}/eta`, `/buses`, `/routes` and `/system/status` handlers are not part of this model. They read the stores without changing them.
- `haversine_distance` is left out. It is trigonometric floating point and nothing in the core calls it.
- Sklearn fitting is left out, along with the train/test split, MSE and R² metrics, DataFrames, `save_model`, `get_model_info` and `retrain_model`. The regressor is a linear function of the five features, and fitting it is the parameter `fit`. A model file is `Missing`, `Unreadable` or `Stored`.
- `ai_models.predict_eta(eta_model, ...)` and `ETA_MODEL_FILE`, called by `run_app.py`, are not defined in the module shown. The planner takes the boarding ETA as an uninterpreted function `eta`.
- Timestamps, trip and alert ids, formatted arrival times and `print` diagnostics are omitted. Clock readings are parameters: an hour and weekday for the model, and minutes on one clock for trip start and end.
- Floating point is not modelled. All quantities are exact reals.
- `random.gauss` noise in sample generation is unbounded. The model gives it no range.
- Text.Lower: only ASCII letters are lower-cased. Unicode case mapping is not modelled.
- Operational.Patch: the "N/A" route reassignment fires for `is_running == True` only. Other truthy payload values such as non-empty strings are not modelled, and neither are the non-bool running flags they would store.
- Planner.PlanRoute: the 500 answer for a failure inside live-status generation is not modelled, because the model of that generation cannot fail.
- Api.ApiState.GetAvailableBuses: the k-th bus of the table uses the k-th draw. The code consumes draws in the order of the listed buses, and skips the fallback ETA draw when the model predicts. The draws are independent and uniformly drawn, so only the bookkeeping differs.
- Api.EnhancedRoute: keeps each route's stop names only. The coordinates and order numbers play no part in the modelled handlers.
- Api.ApiState.EndTrip: `total_distance` is carried unchanged, as the code never updates it.
