/** The ETA model of ai_models.py (`TransportAIModel`): the synthetic
    training-data generator with its hour-of-day bands and weekend factors,
    the `model_loaded` state that `load_model` and `train_model` leave
    behind, the guarded prediction and the confidence score.

    The regressor is a linear model over the five features (what a fitted
    Ridge regression computes); fitting it is a parameter `fit`, and every
    random draw and clock reading is a parameter. */
module EtaModel {
  import opened Common

  // ---------------------------------------------------------------------
  // Synthetic training data

  datatype HourBand = Rush | Night | Normal

  /** Rush hours first, then night, otherwise normal. */
  function BandOf(hour: int): HourBand {
    if 7 <= hour <= 9 || 17 <= hour <= 19 then Rush
    else if 22 <= hour || hour <= 5 then Night
    else Normal
  }

  /** The bands over a day: rush is 7-9 and 17-19, night is 22-23 and 0-5,
      and the remaining hours 6, 10-16 and 20-21 are normal. */
  lemma BandsOfDay(hour: int)
    requires 0 <= hour <= 23
    ensures BandOf(hour) == Rush <==> hour in {7, 8, 9, 17, 18, 19}
    ensures BandOf(hour) == Night <==> hour in {0, 1, 2, 3, 4, 5, 22, 23}
    ensures BandOf(hour) == Normal <==> hour in {6, 10, 11, 12, 13, 14, 15, 16, 20, 21}
  {
  }

  predicate IsWeekend(day: int) {
    day >= 5
  }

  /** The interval `random.uniform` draws the base speed from in a band. */
  function SpeedRange(b: HourBand): (real, real) {
    match b
    case Rush => (15.0, 35.0)
    case Night => (40.0, 60.0)
    case Normal => (25.0, 45.0)
  }

  /** The interval the traffic factor is drawn from in a band. */
  function TrafficRange(b: HourBand): (real, real) {
    match b
    case Rush => (1.2, 2.0)
    case Night => (0.6, 0.9)
    case Normal => (0.8, 1.3)
  }

  /** `random.choice([0.9, 1.0, 1.1, 1.2, 1.3])` by position. */
  function Weather(pick: nat): (w: real)
    ensures 0.9 <= w <= 1.3
  {
    if pick == 0 then 0.9
    else if pick == 1 then 1.0
    else if pick == 2 then 1.1
    else if pick == 3 then 1.2
    else 1.3
  }

  /** The draws of one sample, in the order of the loop body. The weekend
      multipliers are used only on weekends, where the code draws them. */
  datatype SampleDraw = SampleDraw(
    hour: int,
    day: int,
    baseSpeed: real,
    traffic: real,
    weekendSpeedMul: real,
    weekendTrafficMul: real,
    noise: real,          // `random.gauss(0, 5)`: unbounded
    distanceKm: real,
    delay: real,
    weatherPick: nat)

  predicate SampleDrawFits(d: SampleDraw) {
    && 0 <= d.hour <= 23
    && 0 <= d.day <= 6
    && SpeedRange(BandOf(d.hour)).0 <= d.baseSpeed <= SpeedRange(BandOf(d.hour)).1
    && TrafficRange(BandOf(d.hour)).0 <= d.traffic <= TrafficRange(BandOf(d.hour)).1
    && 0.9 <= d.weekendSpeedMul <= 1.1
    && 0.8 <= d.weekendTrafficMul <= 1.1
    && 1.0 <= d.distanceKm <= 50.0
    && 1.05 <= d.delay <= 1.25
    && d.weatherPick < 5
  }

  datatype Sample = Sample(
    speedKmh: real,
    distanceKm: real,
    hourOfDay: int,
    dayOfWeek: int,
    trafficFactor: real,
    etaMinutes: int)

  function SampleSpeed(d: SampleDraw): real {
    MaxR(5.0, (if IsWeekend(d.day) then d.baseSpeed * d.weekendSpeedMul else d.baseSpeed) + d.noise)
  }

  function SampleTraffic(d: SampleDraw): real {
    if IsWeekend(d.day) then d.traffic * d.weekendTrafficMul else d.traffic
  }

  /** The travel time before weather: `max(1, int(hours * 60))`. */
  function PreWeatherEta(d: SampleDraw): int {
    var speed := SampleSpeed(d);
    var hours := d.distanceKm / speed * SampleTraffic(d) * d.delay;
    var minutes := Trunc(hours * 60.0);
    if minutes < 1 then 1 else minutes
  }

  /** One generated row. */
  function MakeSample(d: SampleDraw): Sample {
    var eta := Trunc(PreWeatherEta(d) as real * Weather(d.weatherPick));
    Sample(SampleSpeed(d), d.distanceKm, d.hour, d.day, SampleTraffic(d), eta)
  }

  /** Floors: the speed is at least 5 km/h and the travel time before weather
      at least one minute; after the weather factor and truncation the ETA
      is at least `int(0.9 * pre)` and so never negative. */
  lemma SampleFloors(d: SampleDraw)
    ensures MakeSample(d).speedKmh >= 5.0
    ensures PreWeatherEta(d) >= 1
    ensures MakeSample(d).etaMinutes >= Trunc(0.9 * PreWeatherEta(d) as real) >= 0
  {
    EtaFloor(d);
  }

  lemma EtaFloor(d: SampleDraw)
    ensures MakeSample(d).etaMinutes >= Trunc(0.9 * PreWeatherEta(d) as real) >= 0
  {
    WeatherFloor(PreWeatherEta(d), Weather(d.weatherPick));
  }

  /** A weather factor of at least 0.9 keeps at least `int(0.9 * pre)`. */
  lemma WeatherFloor(pre: int, w: real)
    requires pre >= 1 && w >= 0.9
    ensures Trunc(pre as real * w) >= Trunc(0.9 * pre as real) >= 0
  {
    var p := pre as real;
    assert p * w >= p * 0.9 by {
      assert p * (w - 0.9) >= 0.0;
    }
    TruncMonotone(0.9 * p, p * w);
  }

  lemma TruncMonotone(x: real, y: real)
    requires 0.0 <= x <= y
    ensures Trunc(x) <= Trunc(y)
  {
  }

  /** The weather factor is applied after the one-minute floor, so a sample
      can still record a zero-minute ETA: a short night trip at full speed
      rounds up to one minute, and the 0.9 weather factor truncates it to 0. */
  lemma WeatherCanDropBelowFloor()
    ensures var d := SampleDraw(23, 0, 60.0, 0.6, 1.0, 1.0, 0.0, 1.0, 1.05, 0);
            && SampleDrawFits(d)
            && PreWeatherEta(d) == 1 && MakeSample(d).etaMinutes == 0
  {
    var d := SampleDraw(23, 0, 60.0, 0.6, 1.0, 1.0, 0.0, 1.0, 1.05, 0);
    assert SampleSpeed(d) == 60.0;
    assert d.distanceKm / 60.0 * 0.6 * 1.05 * 60.0 == 0.63;
  }

  /** The weekend factors apply iff `day_of_week >= 5`. */
  lemma WeekendFactors(d: SampleDraw)
    ensures !IsWeekend(d.day) ==> MakeSample(d).trafficFactor == d.traffic
                                  && MakeSample(d).speedKmh == MaxR(5.0, d.baseSpeed + d.noise)
    ensures IsWeekend(d.day) ==> MakeSample(d).trafficFactor == d.traffic * d.weekendTrafficMul
                                 && MakeSample(d).speedKmh == MaxR(5.0, d.baseSpeed * d.weekendSpeedMul + d.noise)
  {
  }

  /** On a weekday the traffic factor lies in its band's range. */
  lemma WeekdayTrafficInBand(d: SampleDraw)
    requires SampleDrawFits(d) && !IsWeekend(d.day)
    ensures var r := TrafficRange(BandOf(d.hour));
            r.0 <= MakeSample(d).trafficFactor <= r.1
  {
  }

  /** The rows `generate_synthetic_historical_data` produces, one per draw. */
  function SyntheticData(draws: seq<SampleDraw>): (data: seq<Sample>)
    ensures |data| == |draws|
    ensures forall k :: 0 <= k < |draws| ==> data[k] == MakeSample(draws[k])
  {
    seq(|draws|, k requires 0 <= k < |draws| => MakeSample(draws[k]))
  }

  /** The generator loop, appending one row per iteration. */
  method GenerateSyntheticData(draws: seq<SampleDraw>) returns (data: seq<Sample>)
    ensures data == SyntheticData(draws)
    ensures forall k :: 0 <= k < |data| ==> data[k].speedKmh >= 5.0 && data[k].etaMinutes >= 0
  {
    data := [];
    var i := 0;
    while i < |draws|
      invariant 0 <= i <= |draws|
      invariant data == SyntheticData(draws[..i])
      invariant forall k :: 0 <= k < |data| ==> data[k].speedKmh >= 5.0 && data[k].etaMinutes >= 0
    {
      SampleFloors(draws[i]);
      data := data + [MakeSample(draws[i])];
      assert draws[..i + 1] == draws[..i] + [draws[i]];
      i := i + 1;
    }
    assert draws[..|draws|] == draws;
  }

  /** `n_samples` when the caller gives no training data. */
  const DefaultSamples: nat := 10000

  // ---------------------------------------------------------------------
  // The model object

  /** A fitted linear regressor over (speed, distance, hour, day, traffic). */
  datatype Regressor = Regressor(wSpeed: real, wDistance: real, wHour: real, wDay: real,
                                 wTraffic: real, intercept: real)

  function Predict(m: Regressor, speed: real, distance: real, hour: int, day: int, traffic: real): real {
    m.intercept + m.wSpeed * speed + m.wDistance * distance + m.wHour * hour as real
      + m.wDay * day as real + m.wTraffic * traffic
  }

  /** What the model file holds: nothing, something that fails to load, or
      a stored regressor. */
  datatype ModelFile = Missing | Unreadable | Stored(regressor: Regressor)

  datatype ModelError = NotLoaded   // "Model not loaded. Please train or load a model first."

  /** `datetime.now()`: the hour and the weekday. */
  datatype Clock = Clock(hour: int, weekday: int)

  datatype TrainingSummary = TrainingSummary(nSamples: nat, nFeatures: nat)

  datatype Prediction = Prediction(
    etaMinutes: real,
    confidence: real,
    speedKmh: real,
    distanceKm: real,
    hourOfDay: int,
    dayOfWeek: int,
    trafficFactor: real)

  /** The five features the regressor reads. */
  const FeatureCount: nat := 5

  // ---------------------------------------------------------------------
  // Confidence score

  function SpeedAdjustment(speed: real): real {
    if 20.0 <= speed <= 50.0 then 0.1
    else if speed < 10.0 || speed > 70.0 then -0.1
    else 0.0
  }

  function DistanceAdjustment(distance: real): real {
    if 5.0 <= distance <= 30.0 then 0.1
    else if distance < 1.0 || distance > 50.0 then -0.1
    else 0.0
  }

  function TrafficAdjustment(traffic: real): real {
    if 0.8 <= traffic <= 1.2 then 0.05
    else if traffic > 2.0 then -0.1
    else 0.0
  }

  /** The clamped score, before `round(confidence, 2)`. */
  function Confidence(speed: real, distance: real, traffic: real): real {
    MaxR(0.3, MinR(0.95, 0.7 + SpeedAdjustment(speed) + DistanceAdjustment(distance) + TrafficAdjustment(traffic)))
  }

  /** The three adjustments already keep the sum within [0.4, 0.95], so the
      clamp never changes it, and the sum has at most two decimals, so the
      final rounding does not either. */
  lemma ConfidenceUnclamped(speed: real, distance: real, traffic: real)
    ensures var raw := 0.7 + SpeedAdjustment(speed) + DistanceAdjustment(distance) + TrafficAdjustment(traffic);
            && 0.4 <= raw <= 0.95
            && Confidence(speed, distance, traffic) == raw
            && Round2(Confidence(speed, distance, traffic)) == raw
  {
    var a := if 20.0 <= speed <= 50.0 then 10 else if speed < 10.0 || speed > 70.0 then -10 else 0;
    var b := if 5.0 <= distance <= 30.0 then 10 else if distance < 1.0 || distance > 50.0 then -10 else 0;
    var c := if 0.8 <= traffic <= 1.2 then 5 else if traffic > 2.0 then -10 else 0;
    var raw := 0.7 + SpeedAdjustment(speed) + DistanceAdjustment(distance) + TrafficAdjustment(traffic);
    assert raw == (70 + a + b + c) as real / 100.0;
    Round2Exact(70 + a + b + c);
  }

  /** The score is highest, 0.95, exactly for a typical speed, distance and
      traffic factor. */
  lemma ConfidenceBest(speed: real, distance: real, traffic: real)
    ensures Confidence(speed, distance, traffic) == 0.95 <==>
              20.0 <= speed <= 50.0 && 5.0 <= distance <= 30.0 && 0.8 <= traffic <= 1.2
  {
    ConfidenceUnclamped(speed, distance, traffic);
  }

  /** The hour echoed in `input_features`: `hour_of_day or now.hour`, so a
      given hour 0 is replaced by the clock's hour. */
  function EchoedHour(hour: Option<int>, clock: Clock): (h: int)
    ensures hour.Some? && hour.value != 0 ==> h == hour.value
    ensures hour.None? || hour.value == 0 ==> h == clock.hour
  {
    if hour.Some? && hour.value != 0 then hour.value else clock.hour
  }

  function EchoedDay(day: Option<int>, clock: Clock): (d: int)
    ensures day.Some? && day.value != 0 ==> d == day.value
    ensures day.None? || day.value == 0 ==> d == clock.weekday
  {
    if day.Some? && day.value != 0 then day.value else clock.weekday
  }

  class TransportAIModel {
    var model: Option<Regressor>
    var modelLoaded: bool
    var trainingData: Option<seq<Sample>>

    /** `__init__`: start empty, then `load_model`. */
    constructor (file: ModelFile, fit: seq<Sample> -> Regressor, draws: seq<SampleDraw>)
      requires |draws| == DefaultSamples
      ensures modelLoaded <==> file.Stored?
      ensures file.Stored? ==> model == Some(file.regressor) && trainingData.None?
      ensures !file.Stored? ==> trainingData == Some(SyntheticData(draws))
                                && model == Some(fit(SyntheticData(draws)))
    {
      model := None;
      modelLoaded := false;
      trainingData := None;
      new;
      var _ := LoadModel(file, fit, draws);
    }

    /** `load_model`: a stored model is loaded and marks the object loaded;
        a missing or unreadable file trains a fresh model on synthetic data
        instead, which leaves `modelLoaded` as it was. Always True. */
    method LoadModel(file: ModelFile, fit: seq<Sample> -> Regressor, draws: seq<SampleDraw>)
      returns (ok: bool)
      requires |draws| == DefaultSamples
      modifies this
      ensures ok
      ensures file.Stored? ==> model == Some(file.regressor) && modelLoaded
                               && trainingData == old(trainingData)
      ensures !file.Stored? ==> model == Some(fit(SyntheticData(draws)))
                                && trainingData == Some(SyntheticData(draws))
                                && modelLoaded == old(modelLoaded)
    {
      if file.Stored? {
        model := Some(file.regressor);
        modelLoaded := true;
      } else {
        var _ := TrainModel(None, fit, draws);
      }
      ok := true;
    }

    /** `train_model`: fit on the given rows, or on freshly generated
        synthetic rows; sets `model` and `trainingData` and leaves
        `modelLoaded` untouched. */
    method TrainModel(data: Option<seq<Sample>>, fit: seq<Sample> -> Regressor, draws: seq<SampleDraw>)
      returns (summary: TrainingSummary)
      requires data.Some? || |draws| == DefaultSamples
      modifies this
      ensures var used := if data.Some? then data.value else SyntheticData(draws);
              && trainingData == Some(used)
              && model == Some(fit(used))
              && summary == TrainingSummary(|used|, FeatureCount)
      ensures modelLoaded == old(modelLoaded)
    {
      var rows: seq<Sample>;
      if data.Some? {
        rows := data.value;
      } else {
        rows := GenerateSyntheticData(draws);
      }
      trainingData := Some(rows);
      model := Some(fit(rows));
      summary := TrainingSummary(|rows|, FeatureCount);
    }

    predicate Ready()
      reads this
    {
      modelLoaded && model.Some?
    }

    /** `predict_eta`: fails unless loaded with a model; otherwise the
        regressor's value floored at 1 and rounded to one decimal. Missing
        hour and day come from the clock. */
    function PredictEta(speed: real, distance: real, hour: Option<int>, day: Option<int>,
                        traffic: real, clock: Clock): (r: Result<real, ModelError>)
      reads this
      ensures r.Failure? <==> !Ready()
      ensures r.Success? ==> r.value >= 1.0
      ensures r.Success? ==> (r.value * 10.0).Floor as real == r.value * 10.0
      ensures r.Success? ==>
        var raw := Predict(model.value, speed, distance,
                           if hour.Some? then hour.value else clock.hour,
                           if day.Some? then day.value else clock.weekday, traffic);
        && -0.05 <= r.value - MaxR(1.0, raw) <= 0.05
        && (raw >= 1.0 ==> -0.05 <= r.value - raw <= 0.05)
    {
      if !Ready() then Failure(NotLoaded)
      else
        var h := if hour.Some? then hour.value else clock.hour;
        var d := if day.Some? then day.value else clock.weekday;
        var floored := MaxR(1.0, Predict(model.value, speed, distance, h, d, traffic));
        Round1AtLeastOne(floored);
        Round1Nearest(floored);
        Success(Round1(floored))
    }

    /** `predict_eta_with_confidence`: the same guard; the prediction, the
        confidence built up step by step, clamped and rounded, and the echoed
        inputs. */
    method PredictEtaWithConfidence(speed: real, distance: real, hour: Option<int>, day: Option<int>,
                                    traffic: real, clock: Clock)
      returns (r: Result<Prediction, ModelError>)
      ensures r.Failure? <==> !Ready()
      ensures r.Success? ==>
        && r.value.etaMinutes == PredictEta(speed, distance, hour, day, traffic, clock).value
        && r.value.etaMinutes >= 1.0
        && r.value.confidence == Confidence(speed, distance, traffic)
        && 0.4 <= r.value.confidence <= 0.95
        && r.value.hourOfDay == EchoedHour(hour, clock)
        && r.value.dayOfWeek == EchoedDay(day, clock)
        && r.value.speedKmh == speed && r.value.distanceKm == distance
        && r.value.trafficFactor == traffic
    {
      if !Ready() {
        return Failure(NotLoaded);
      }
      var eta := PredictEta(speed, distance, hour, day, traffic, clock).value;
      var confidence := 0.7;
      if 20.0 <= speed <= 50.0 {
        confidence := confidence + 0.1;
      } else if speed < 10.0 || speed > 70.0 {
        confidence := confidence - 0.1;
      }
      if 5.0 <= distance <= 30.0 {
        confidence := confidence + 0.1;
      } else if distance < 1.0 || distance > 50.0 {
        confidence := confidence - 0.1;
      }
      if 0.8 <= traffic <= 1.2 {
        confidence := confidence + 0.05;
      } else if traffic > 2.0 {
        confidence := confidence - 0.1;
      }
      confidence := MaxR(0.3, MinR(0.95, confidence));
      ConfidenceUnclamped(speed, distance, traffic);
      r := Success(Prediction(eta, Round2(confidence), speed, distance,
                              EchoedHour(hour, clock), EchoedDay(day, clock), traffic));
    }
  }

  /** Only a successful load from disk makes predictions possible: a model
      object started without a readable model file trains a regressor but is
      never marked loaded, so its predictions fail. */
  method PredictAfterStartup(file: ModelFile, fit: seq<Sample> -> Regressor, draws: seq<SampleDraw>,
                             speed: real, distance: real, clock: Clock)
    returns (r: Result<real, ModelError>)
    requires |draws| == DefaultSamples
    ensures r.Failure? <==> !file.Stored?
    ensures r.Success? ==> r.value >= 1.0
  {
    var ai := new TransportAIModel(file, fit, draws);
    r := ai.PredictEta(speed, distance, None, None, 1.0, clock);
  }
}
