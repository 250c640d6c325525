/**
 * The browser fleet simulator (app/hooks/useVehicleData.ts).
 *
 * Every `Math.random()` draw is an explicit parameter; the predicates
 * `Valid...Draws` say that each draw lies in [0, 1), which is all that
 * `Math.random()` promises. Wall-clock values (`toISOString()`,
 * `toLocaleTimeString()`, elapsed milliseconds) are parameters as well.
 */
module VehicleData {
  import opened VehicleTypes
  import opened Windows
  import Text

  /** The fault taxonomy the emitter samples from, in the source's order. */
  const AnomalyTypes: seq<string> := [
    "SPEED_OUT_OF_RANGE", "RPM_OUT_OF_RANGE", "TEMP_OUT_OF_RANGE",
    "SUDDEN_SPEED_CHANGE", "SUDDEN_RPM_CHANGE", "SUDDEN_TEMP_CHANGE",
    "ENGINE_STALL", "OVERHEATING_PATTERN", "ERRATIC_BEHAVIOR",
    "SENSOR_FAILURE", "FUEL_LEAK", "MAINTENANCE_REQUIRED",
    "GEOFENCE_VIOLATION", "HARSH_ACCELERATION", "HARSH_BRAKING"]

  const Descriptions: map<string, string> := map[
    "SPEED_OUT_OF_RANGE" := "Vehicle speed exceeded safe limits",
    "RPM_OUT_OF_RANGE" := "Engine RPM outside normal operating range",
    "TEMP_OUT_OF_RANGE" := "Engine temperature abnormal",
    "SUDDEN_SPEED_CHANGE" := "Rapid acceleration or deceleration detected",
    "SUDDEN_RPM_CHANGE" := "Sudden RPM spike detected",
    "SUDDEN_TEMP_CHANGE" := "Rapid temperature change",
    "ENGINE_STALL" := "Engine stall pattern detected",
    "OVERHEATING_PATTERN" := "Progressive overheating detected",
    "ERRATIC_BEHAVIOR" := "Erratic driving pattern detected",
    "SENSOR_FAILURE" := "Sensor inconsistency detected",
    "FUEL_LEAK" := "Potential fuel leak detected",
    "MAINTENANCE_REQUIRED" := "Scheduled maintenance due",
    "GEOFENCE_VIOLATION" := "Vehicle entered restricted area",
    "HARSH_ACCELERATION" := "Harsh acceleration detected",
    "HARSH_BRAKING" := "Harsh braking detected"]

  /** Make/model and licence plate of the `k`-th of the twenty simulated
      vehicles. */
  function CatalogEntry(k: nat): (string, string)
    requires k < FleetSize
  {
    match k
    case 0 => ("Honda Civic", "ABC-123")
    case 1 => ("Toyota Camry", "DEF-456")
    case 2 => ("Ford F-150", "GHI-789")
    case 3 => ("BMW X3", "JKL-012")
    case 4 => ("Tesla Model 3", "MNO-345")
    case 5 => ("Chevrolet Silverado", "PQR-678")
    case 6 => ("Nissan Altima", "STU-901")
    case 7 => ("Hyundai Elantra", "VWX-234")
    case 8 => ("Mercedes C-Class", "YZA-567")
    case 9 => ("Audi A4", "BCD-890")
    case 10 => ("Volkswagen Jetta", "EFG-123")
    case 11 => ("Subaru Outback", "HIJ-456")
    case 12 => ("Mazda CX-5", "KLM-789")
    case 13 => ("Jeep Wrangler", "NOP-012")
    case 14 => ("Kia Sorento", "QRS-345")
    case 15 => ("Volvo XC90", "TUV-678")
    case 16 => ("Lexus RX", "WXY-901")
    case 17 => ("Acura MDX", "ZAB-234")
    case 18 => ("Infiniti Q50", "CDE-567")
    case _ => ("Cadillac Escalade", "FGH-890")
  }

  const FleetSize: nat := 20
  /** Per-vehicle, per-tick probability of emitting an anomaly. */
  const AnomalyRate: real := 0.05
  /** The anomaly buffer keeps this many of the most recent anomalies. */
  const AnomalyCap: nat := 1000
  /** The newest-first event log keeps this many entries. */
  const EventLogCap: nat := 10
  /** The exported report carries this many of the most recent anomalies. */
  const ExportRecentCap: nat := 100

  /** What `Math.random()` can return. */
  predicate Unit(x: real) { 0.0 <= x < 1.0 }

  // ---------------------------------------------------------------------
  // Reading generator
  // ---------------------------------------------------------------------

  /** The fifteen draws `generateSensorReading` makes, one per field. */
  datatype ReadingDraws = ReadingDraws(
    speed: real, rpm: real, temperature: real, fuelLevel: real, throttle: real,
    engine: real, latitude: real, longitude: real, acceleration: real,
    brake: real, oil: real, battery: real, odometer: real, abs: real, traction: real)

  predicate ValidReadingDraws(d: ReadingDraws)
  {
    && Unit(d.speed) && Unit(d.rpm) && Unit(d.temperature) && Unit(d.fuelLevel)
    && Unit(d.throttle) && Unit(d.engine) && Unit(d.latitude) && Unit(d.longitude)
    && Unit(d.acceleration) && Unit(d.brake) && Unit(d.oil) && Unit(d.battery)
    && Unit(d.odometer) && Unit(d.abs) && Unit(d.traction)
  }

  /** A bounded-random reading around plausible baselines. */
  function GenerateSensorReading(d: ReadingDraws): (r: SensorReading)
    ensures ValidReadingDraws(d) ==>
      && 20.0 <= r.speed < 120.0
      && 800.0 <= r.rpm < 6000.0
      && 80.0 <= r.temperature < 95.0
      && 10.0 <= r.fuelLevel < 95.0
      && 0.0 <= r.throttlePosition < 100.0
      && -3.0 <= r.acceleration < 3.0
      && 0.0 <= r.brakePressure < 10.0
      && 2.0 <= r.oilPressure < 6.0
      && 11.5 <= r.batteryVoltage < 14.5
      && 0 <= r.odometer < 200000
    ensures r.engineOn <==> d.engine > 0.05
  {
    SensorReading(
      speed := 20.0 + d.speed * 100.0,
      rpm := 800.0 + d.rpm * 5200.0,
      temperature := 80.0 + d.temperature * 15.0,
      fuelLevel := 10.0 + d.fuelLevel * 85.0,
      throttlePosition := d.throttle * 100.0,
      engineOn := d.engine > 0.05,
      latitude := 40.7128 + (d.latitude - 0.5) * 0.1,
      longitude := -74.006 + (d.longitude - 0.5) * 0.1,
      acceleration := (d.acceleration - 0.5) * 6.0,
      brakePressure := d.brake * 10.0,
      oilPressure := 2.0 + d.oil * 4.0,
      batteryVoltage := 11.5 + d.battery * 3.0,
      odometer := (d.odometer * 200000.0).Floor,
      absActive := d.abs > 0.9,
      tractionControlActive := d.traction > 0.95)
  }

  // ---------------------------------------------------------------------
  // State classifier
  // ---------------------------------------------------------------------

  /** First match wins: critical thresholds, then warning thresholds, then
      the engine flag. MAINTENANCE is never assigned. */
  function ClassifyState(r: SensorReading): (s: VehicleState)
    ensures s == VehicleState.Critical <==> r.temperature > 105.0 || r.speed > 150.0
    ensures s == Warning <==>
      !(r.temperature > 105.0 || r.speed > 150.0) && (r.temperature > 100.0 || r.speed > 130.0)
    ensures s == Offline <==>
      !(r.temperature > 100.0 || r.speed > 130.0) && !r.engineOn
    ensures s != Maintenance
  {
    if r.temperature > 105.0 || r.speed > 150.0 then VehicleState.Critical
    else if r.temperature > 100.0 || r.speed > 130.0 then Warning
    else if !r.engineOn then Offline
    else Normal
  }

  /** With the generator's bounds no reading is hot or fast enough for
      WARNING or CRITICAL: only NORMAL and OFFLINE are reachable, and OFFLINE
      exactly when the engine draw says the engine is off. */
  lemma GeneratedStateIsNormalOrOffline(d: ReadingDraws)
    requires ValidReadingDraws(d)
    ensures ClassifyState(GenerateSensorReading(d)) in {Normal, Offline}
    ensures ClassifyState(GenerateSensorReading(d)) == Offline <==> d.engine <= 0.05
  {
  }

  // ---------------------------------------------------------------------
  // Anomaly emitter
  // ---------------------------------------------------------------------

  /** The five draws `generateAnomaly` makes. */
  datatype AnomalyDraws = AnomalyDraws(kind: real, severity: real, value: real, location: real, mlScore: real)

  predicate ValidAnomalyDraws(d: AnomalyDraws)
  {
    Unit(d.kind) && Unit(d.severity) && Unit(d.value) && Unit(d.location) && Unit(d.mlScore)
  }

  /** The priority ladder: >= 4 CRITICAL, 3 HIGH, 2 MEDIUM, otherwise LOW. */
  function PriorityOf(severity: int): (p: Priority)
    ensures p == Priority.Critical <==> severity >= 4
    ensures p == High <==> severity == 3
    ensures p == Medium <==> severity == 2
    ensures p == Low <==> severity <= 1
    ensures p != Emergency
  {
    if severity >= 4 then Priority.Critical
    else if severity >= 3 then High
    else if severity >= 2 then Medium
    else Low
  }

  /** `descriptions[type] || "Unknown anomaly"`. */
  function Description(kind: string): (r: string)
    ensures kind in AnomalyTypes ==> kind in Descriptions && r == Descriptions[kind]
    ensures kind !in Descriptions ==> r == "Unknown anomaly"
  {
    if kind in Descriptions then Descriptions[kind] else "Unknown anomaly"
  }

  /** `type.toLowerCase().split("_")[0]`. */
  function SensorName(kind: string): (r: string)
    ensures |r| <= |kind| && '_' !in r
  {
    Text.FirstField(Text.ToLower(kind), '_')
  }

  /** What every generated anomaly satisfies. */
  predicate WellFormed(a: Anomaly)
  {
    && a.kind in AnomalyTypes
    && 1 <= a.severity <= 5
    && a.priority == PriorityOf(a.severity)
    && a.description == Description(a.kind)
    && !a.acknowledged
  }

  function GenerateAnomaly(vehicleId: int, d: AnomalyDraws, now: string): (a: Anomaly)
    requires ValidAnomalyDraws(d)
    ensures WellFormed(a)
    ensures a.vehicleId == vehicleId && a.timestamp == now
    ensures a.priority != Emergency
    ensures 0.0 <= a.value < 100.0
    ensures a.location.Some? <==> d.location > 0.7
    ensures a.mlScore.Some? && 0.0 <= a.mlScore.value < 5.0
  {
    var kind := AnomalyTypes[(d.kind * 15.0).Floor];
    var severity := (d.severity * 5.0).Floor + 1;
    Anomaly(
      timestamp := now,
      vehicleId := vehicleId,
      sensorName := SensorName(kind),
      value := d.value * 100.0,
      kind := kind,
      description := Description(kind),
      severity := severity,
      priority := PriorityOf(severity),
      acknowledged := false,
      location := if d.location > 0.7 then Some("Downtown Area") else None,
      mlScore := Some(d.mlScore * 5.0))
  }

  /** The anomalies a tick emits for the first `i` vehicles of the fleet,
      in fleet order: vehicle `k` emits one exactly when its roll is below
      the anomaly rate. */
  function EmittedUpTo(fleet: seq<Vehicle>, rolls: seq<real>, draws: seq<AnomalyDraws>, now: string, i: nat): (s: seq<Anomaly>)
    requires i <= |fleet| && |rolls| == |fleet| && |draws| == |fleet|
    requires forall k :: 0 <= k < |draws| ==> ValidAnomalyDraws(draws[k])
    ensures |s| <= i
    ensures forall k :: 0 <= k < |s| ==> WellFormed(s[k])
  {
    if i == 0 then []
    else
      EmittedUpTo(fleet, rolls, draws, now, i - 1)
      + (if rolls[i - 1] < AnomalyRate then [GenerateAnomaly(fleet[i - 1].id, draws[i - 1], now)] else [])
  }

  /** `anomalies.filter((a) => a.vehicleId === id)`. */
  function OfVehicle(s: seq<Anomaly>, id: int): (r: seq<Anomaly>)
    ensures |r| <= |s|
    ensures forall k :: 0 <= k < |r| ==> r[k].vehicleId == id
  {
    if s == [] then []
    else OfVehicle(s[..|s| - 1], id) + (if s[|s| - 1].vehicleId == id then [s[|s| - 1]] else [])
  }

  /** Filtering distributes over concatenation. */
  lemma {:induction false} OfVehicleAppend(a: seq<Anomaly>, b: seq<Anomaly>, id: int)
    ensures OfVehicle(a + b, id) == OfVehicle(a, id) + OfVehicle(b, id)
    decreases |b|
  {
    if b != [] {
      var b' := b[..|b| - 1];
      assert (a + b)[..|a + b| - 1] == a + b';
      OfVehicleAppend(a, b', id);
    } else {
      assert a + b == a;
    }
  }

  /** `prevVehicles.map((v) => v.id === id ? {...v, totalAnomalies: v.totalAnomalies + 1} : v)`. */
  function BumpAnomalyCount(fleet: seq<Vehicle>, id: int): (r: seq<Vehicle>)
    ensures |r| == |fleet|
    ensures forall j :: 0 <= j < |r| ==> r[j] == fleet[j].(totalAnomalies := r[j].totalAnomalies)
    ensures forall j :: 0 <= j < |r| && fleet[j].id != id ==> r[j] == fleet[j]
  {
    seq(|fleet|, j requires 0 <= j < |fleet| =>
      if fleet[j].id == id then fleet[j].(totalAnomalies := fleet[j].totalAnomalies + 1) else fleet[j])
  }

  // ---------------------------------------------------------------------
  // Fleet aggregator: the per-vehicle refresh of one tick
  // ---------------------------------------------------------------------

  /** One vehicle after a tick's new reading: running maximum, half-weight
      smoothed average (not a true mean), distance grown by speed/3600, and
      the classified state. Identity and other counters are untouched. */
  function RefreshVehicle(v: Vehicle, r: SensorReading, now: string): (u: Vehicle)
    ensures u.id == v.id && u.makeModel == v.makeModel && u.licensePlate == v.licensePlate
    ensures u.harshEvents == v.harshEvents && u.totalAnomalies == v.totalAnomalies
    ensures u.currentReading == r && u.lastSeen == now && u.state == ClassifyState(r)
    ensures u.maxSpeed >= v.maxSpeed && u.maxSpeed >= r.speed
    ensures u.maxSpeed == v.maxSpeed || u.maxSpeed == r.speed
    ensures r.speed >= 0.0 ==> u.totalDistance >= v.totalDistance
    ensures v.avgSpeed <= r.speed ==> v.avgSpeed <= u.avgSpeed <= r.speed
    ensures r.speed <= v.avgSpeed ==> r.speed <= u.avgSpeed <= v.avgSpeed
  {
    v.(currentReading := r,
       lastSeen := now,
       totalDistance := v.totalDistance + r.speed / 3600.0,
       avgSpeed := (v.avgSpeed + r.speed) / 2.0,
       maxSpeed := if v.maxSpeed >= r.speed then v.maxSpeed else r.speed,
       state := ClassifyState(r))
  }

  /** The fleet map of one tick: every vehicle refreshed from its own new
      reading, in place. */
  function Refreshed(fleet: seq<Vehicle>, readings: seq<ReadingDraws>, now: string): (r: seq<Vehicle>)
    requires |readings| == |fleet|
    ensures |r| == |fleet|
    ensures forall j :: 0 <= j < |fleet| ==> r[j] == RefreshVehicle(fleet[j], GenerateSensorReading(readings[j]), now)
  {
    seq(|fleet|, j requires 0 <= j < |fleet| => RefreshVehicle(fleet[j], GenerateSensorReading(readings[j]), now))
  }

  /** A vehicle refreshed by each reading of `rs` in turn, one per tick. */
  function RefreshedBy(v: Vehicle, rs: seq<SensorReading>, now: string): Vehicle
    decreases |rs|
  {
    if rs == [] then v else RefreshedBy(RefreshVehicle(v, rs[0], now), rs[1..], now)
  }

  /** Over any number of ticks the recorded maximum never falls, it is at
      least every speed read along the way, and it is either the starting
      maximum or one of those speeds. */
  lemma {:induction false} RefreshKeepsMaxSpeedMonotone(v: Vehicle, rs: seq<SensorReading>, now: string)
    ensures RefreshedBy(v, rs, now).maxSpeed >= v.maxSpeed
    ensures forall k :: 0 <= k < |rs| ==> RefreshedBy(v, rs, now).maxSpeed >= rs[k].speed
    ensures RefreshedBy(v, rs, now).maxSpeed == v.maxSpeed
         || exists k :: 0 <= k < |rs| && RefreshedBy(v, rs, now).maxSpeed == rs[k].speed
    decreases |rs|
  {
    if rs != [] {
      var u := RefreshVehicle(v, rs[0], now);
      var m := RefreshedBy(v, rs, now).maxSpeed;
      RefreshKeepsMaxSpeedMonotone(u, rs[1..], now);
      forall k | 1 <= k < |rs| ensures m >= rs[k].speed {
        assert rs[k] == rs[1..][k - 1];
      }
      if m != u.maxSpeed {
        var j :| 0 <= j < |rs[1..]| && m == rs[1..][j].speed;
        assert m == rs[j + 1].speed;
      } else if u.maxSpeed != v.maxSpeed {
        assert m == rs[0].speed;
      }
    }
  }

  // ---------------------------------------------------------------------
  // System stats aggregator
  // ---------------------------------------------------------------------

  /** JavaScript's `%`: the remainder takes the sign of the dividend. */
  function JsRemainder(a: int, b: int): (r: int)
    requires b > 0
    ensures -b < r < b
    ensures a >= 0 ==> r == a % b
    ensures a < 0 ==> r <= 0
  {
    if a >= 0 then a % b else -((-a) % b)
  }

  /** The remainder of a negated dividend is the negated remainder. */
  lemma JsRemainderNegation(a: int, b: int)
    requires b > 0
    ensures JsRemainder(-a, b) == -JsRemainder(a, b)
  {
  }

  /** `Math.floor(ms / 3600000)`; Dafny's `/` on a positive divisor floors. */
  function UptimeHours(ms: int): (h: int)
    ensures ms >= 0 ==> 0 <= h && h * 3600000 <= ms < (h + 1) * 3600000
  {
    ms / 3600000
  }

  /** `Math.floor((ms % 3600000) / 60000)`. */
  function UptimeMinutes(ms: int): (m: int)
    ensures ms >= 0 ==> 0 <= m <= 59
    ensures ms < 0 ==> -60 <= m <= 0
  {
    JsRemainder(ms, 3600000) / 60000
  }

  /** For a non-negative elapsed time, minutes lie in 0..59 and the pair
      (hours, minutes) is the elapsed time rounded down to the minute. */
  lemma UptimeSplit(ms: int)
    requires ms >= 0
    ensures 0 <= UptimeMinutes(ms) <= 59
    ensures UptimeHours(ms) * 3600000 + UptimeMinutes(ms) * 60000 <= ms
    ensures ms < UptimeHours(ms) * 3600000 + (UptimeMinutes(ms) + 1) * 60000
  {
    var h, rem := ms / 3600000, ms % 3600000;
    assert ms == h * 3600000 + rem;
    var m := rem / 60000;
    assert rem == m * 60000 + rem % 60000;
  }

  /** The `${hours}h ${minutes}m` text. */
  function UptimeText(ms: int): (t: string)
    ensures |t| >= 4 && t[|t| - 1] == 'm'
    ensures (t[0] == '-') <==> ms < 0
  {
    Text.IntToDecimal(UptimeHours(ms)) + "h " + Text.IntToDecimal(UptimeMinutes(ms)) + "m"
  }

  /** The four placeholder gauges a tick samples. */
  datatype StatsDraws = StatsDraws(readingsPerSecond: real, systemHealth: real, memoryUsage: real, cpuUsage: real)

  predicate ValidStatsDraws(d: StatsDraws)
  {
    Unit(d.readingsPerSecond) && Unit(d.systemHealth) && Unit(d.memoryUsage) && Unit(d.cpuUsage)
  }

  /** The tick's `setSystemStats` update: readings grow by the fleet size,
      and the placeholder gauges stay in their bands. */
  function RefreshStats(prev: SystemStats, fleetSize: nat, d: StatsDraws, elapsedMs: int): (s: SystemStats)
    ensures s.totalReadings == prev.totalReadings + fleetSize
    ensures s.totalAnomalies == prev.totalAnomalies && s.recentEvents == prev.recentEvents
    ensures s.uptime == UptimeText(elapsedMs)
    ensures ValidStatsDraws(d) ==>
      && 10 <= s.readingsPerSecond < 30
      && 95.0 <= s.systemHealth < 100.0
      && 200.0 <= s.memoryUsage < 300.0
      && 15.0 <= s.cpuUsage < 35.0
  {
    prev.(totalReadings := prev.totalReadings + fleetSize,
          readingsPerSecond := (d.readingsPerSecond * 20.0).Floor + 10,
          systemHealth := 95.0 + d.systemHealth * 5.0,
          memoryUsage := 200.0 + d.memoryUsage * 100.0,
          cpuUsage := 15.0 + d.cpuUsage * 20.0,
          uptime := UptimeText(elapsedMs))
  }

  /** `[event, ...prev.slice(0, 9)]`: the new event first, then at most
      nine of the previous events, in their order. */
  function PushEvent(log: seq<SystemEvent>, e: SystemEvent): (r: seq<SystemEvent>)
    ensures |r| == Min(|log|, EventLogCap - 1) + 1
    ensures r[0] == e
    ensures r[1..] == log[..|r| - 1]
    ensures |log| < EventLogCap ==> |r| == |log| + 1
  {
    [e] + Take(log, EventLogCap - 1)
  }

  // ---------------------------------------------------------------------
  // Analytics query
  // ---------------------------------------------------------------------

  /** `vehicles.find((v) => v.id === id)`. */
  function FindVehicle(vs: seq<Vehicle>, id: int): (r: Option<Vehicle>)
    ensures r.None? <==> forall k :: 0 <= k < |vs| ==> vs[k].id != id
    ensures r.Some? ==> r.value in vs && r.value.id == id
    ensures r.Some? ==> exists k :: 0 <= k < |vs| && vs[k] == r.value && forall j :: 0 <= j < k ==> vs[j].id != id
  {
    if vs == [] then None
    else if vs[0].id == id then Some(vs[0])
    else
      var r := FindVehicle(vs[1..], id);
      assert r.Some? ==> exists k :: 0 <= k < |vs| && vs[k] == r.value && forall j :: 0 <= j < k ==> vs[j].id != id by {
        if r.Some? {
          var k :| 0 <= k < |vs[1..]| && vs[1..][k] == r.value && forall j :: 0 <= j < k ==> vs[1..][j].id != id;
          assert vs[k + 1] == r.value;
          assert forall j :: 0 <= j < k + 1 ==> vs[j].id != id by {
            forall j | 0 <= j < k + 1 ensures vs[j].id != id {
              if j > 0 { assert vs[j] == vs[1..][j - 1]; }
            }
          }
        }
      }
      assert r.None? ==> forall k :: 0 <= k < |vs| ==> vs[k].id != id by {
        if r.None? {
          forall k | 0 <= k < |vs| ensures vs[k].id != id {
            if k > 0 { assert vs[k] == vs[1..][k - 1]; }
          }
        }
      }
      r
  }

  /** Number of anomalies whose severity is at least `k`. */
  function CountAtLeast(s: seq<Anomaly>, k: int): (n: nat)
    ensures n <= |s|
  {
    if s == [] then 0 else (if s[0].severity >= k then 1 else 0) + CountAtLeast(s[1..], k)
  }

  /** Number of anomalies whose severity is exactly `k`. */
  function CountExactly(s: seq<Anomaly>, k: int): (n: nat)
    ensures n <= |s|
  {
    if s == [] then 0 else (if s[0].severity == k then 1 else 0) + CountExactly(s[1..], k)
  }

  /** For severities in 1..5 the four buckets (>= 4, 3, 2, 1) split the list. */
  lemma {:induction false} BucketsPartition(s: seq<Anomaly>)
    requires forall k :: 0 <= k < |s| ==> 1 <= s[k].severity <= 5
    ensures CountAtLeast(s, 4) + CountExactly(s, 3) + CountExactly(s, 2) + CountExactly(s, 1) == |s|
  {
    if s != [] {
      BucketsPartition(s[1..]);
    }
  }

  datatype MockDraws = MockDraws(mean: real, median: real, stdDeviation: real, trendSlope: real,
                                 coefficientOfVariation: real, outlierCount: real)

  predicate ValidMockDraws(d: MockDraws)
  {
    && Unit(d.mean) && Unit(d.median) && Unit(d.stdDeviation) && Unit(d.trendSlope)
    && Unit(d.coefficientOfVariation) && Unit(d.outlierCount)
  }

  /** One draw per metric for the placeholder statistics. */
  datatype AnalyticsDraws = AnalyticsDraws(speed: MockDraws, rpm: MockDraws, temperature: MockDraws,
                                           fuel: MockDraws, acceleration: MockDraws)

  lemma ScaledDraw(r: real, v: real)
    ensures Unit(r) && v >= 0.0 ==> 0.0 <= r * v <= v
  {
    if Unit(r) && v >= 0.0 {
      assert v - r * v == (1.0 - r) * v;
    }
  }

  /** The baseline-plus-variance placeholder statistics: not computed from
      any history. With a non-negative variance every field lies in its
      band around the baseline. */
  function MockStats(base: real, variance: real, d: MockDraws): (s: Statistics)
    ensures s.min == base - variance * 0.8 && s.max == base + variance * 1.2
    ensures s.percentile95 == base + variance * 0.9
    ensures ValidMockDraws(d) && variance >= 0.0 ==>
      && s.min <= s.mean <= s.max
      && s.min <= s.median <= s.max
      && s.min <= s.percentile95 <= s.max
      && variance * 0.3 <= s.stdDeviation <= variance * 0.5
      && -0.25 <= s.trendSlope < 0.25
      && 0.1 <= s.coefficientOfVariation < 0.4
      && 0 <= s.outlierCount <= 9
  {
    ScaledDraw(d.mean, variance);
    ScaledDraw(d.median, variance);
    ScaledDraw(d.stdDeviation, variance);
    Statistics(
      mean := base + (d.mean - 0.5) * variance,
      median := base + (d.median - 0.5) * variance * 0.8,
      stdDeviation := variance * 0.3 + d.stdDeviation * variance * 0.2,
      min := base - variance * 0.8,
      max := base + variance * 1.2,
      percentile95 := base + variance * 0.9,
      trendSlope := (d.trendSlope - 0.5) * 0.5,
      coefficientOfVariation := 0.1 + d.coefficientOfVariation * 0.3,
      outlierCount := (d.outlierCount * 10.0).Floor)
  }

  const ZeroStatistics: Statistics := Statistics(0.0, 0.0, 0.0, 0.0, 0.0, 0.0, 0.0, 0.0, 0)

  /** The record returned for an id that belongs to no vehicle. */
  const EmptyAnalytics: VehicleAnalytics := VehicleAnalytics(
    ZeroStatistics, ZeroStatistics, ZeroStatistics, ZeroStatistics, ZeroStatistics,
    AnomalySummary(0, 0, 0, 0), [])

  /** The three fixed heuristic predictions, returned verbatim. */
  const FixedPredictions: seq<Prediction> := [
    Prediction("Maintenance Due", "Vehicle may require maintenance within 1000 km", "medium", 0.75),
    Prediction("Fuel Efficiency", "Fuel consumption pattern suggests potential optimization", "low", 0.65),
    Prediction("Temperature Trend", "Engine temperature showing gradual increase", "medium", 0.82)]

  /** `getVehicleAnalytics(id)` over the fleet and anomaly buffer it closes over. */
  function VehicleAnalyticsOf(vehicles: seq<Vehicle>, anomalies: seq<Anomaly>, id: int, d: AnalyticsDraws): (r: VehicleAnalytics)
    ensures FindVehicle(vehicles, id).None? ==>
      && r.speed == ZeroStatistics && r.rpm == ZeroStatistics && r.temperature == ZeroStatistics
      && r.fuel == ZeroStatistics && r.acceleration == ZeroStatistics
      && r.anomalySummary == AnomalySummary(0, 0, 0, 0)
      && r.predictions == []
    ensures FindVehicle(vehicles, id).Some? ==>
      && r.anomalySummary.critical == CountAtLeast(OfVehicle(anomalies, id), 4)
      && r.anomalySummary.high == CountExactly(OfVehicle(anomalies, id), 3)
      && r.anomalySummary.medium == CountExactly(OfVehicle(anomalies, id), 2)
      && r.anomalySummary.low == CountExactly(OfVehicle(anomalies, id), 1)
      && |r.predictions| == 3 && r.predictions == FixedPredictions
      && r.speed.min == FindVehicle(vehicles, id).value.avgSpeed - 16.0
      && r.speed.max == FindVehicle(vehicles, id).value.avgSpeed + 24.0
  {
    match FindVehicle(vehicles, id)
    case None => EmptyAnalytics
    case Some(v) =>
      var mine := OfVehicle(anomalies, id);
      VehicleAnalytics(
        speed := MockStats(v.avgSpeed, 20.0, d.speed),
        rpm := MockStats(3000.0, 1000.0, d.rpm),
        temperature := MockStats(90.0, 10.0, d.temperature),
        fuel := MockStats(50.0, 30.0, d.fuel),
        acceleration := MockStats(0.0, 2.0, d.acceleration),
        anomalySummary := AnomalySummary(
          critical := CountAtLeast(mine, 4),
          high := CountExactly(mine, 3),
          medium := CountExactly(mine, 2),
          low := CountExactly(mine, 1)),
        predictions := FixedPredictions)
  }

  /** For a known vehicle whose anomalies all come from the emitter, the four
      buckets account for every one of that vehicle's anomalies and for no
      other vehicle's. */
  lemma SummaryCountsOwnAnomalies(vehicles: seq<Vehicle>, anomalies: seq<Anomaly>, id: int, d: AnalyticsDraws)
    requires FindVehicle(vehicles, id).Some?
    requires forall k :: 0 <= k < |anomalies| ==> WellFormed(anomalies[k])
    ensures var s := VehicleAnalyticsOf(vehicles, anomalies, id, d).anomalySummary;
            s.critical + s.high + s.medium + s.low == |OfVehicle(anomalies, id)|
  {
    var mine := OfVehicle(anomalies, id);
    assert forall k :: 0 <= k < |mine| ==> 1 <= mine[k].severity <= 5 by {
      OfVehicleMembers(anomalies, id);
    }
    BucketsPartition(mine);
  }

  /** Every anomaly kept by the vehicle filter comes from the filtered list. */
  lemma {:induction false} OfVehicleMembers(s: seq<Anomaly>, id: int)
    ensures forall k :: 0 <= k < |OfVehicle(s, id)| ==> OfVehicle(s, id)[k] in s
  {
    if s != [] {
      OfVehicleMembers(s[..|s| - 1], id);
      var r := OfVehicle(s, id);
      forall k | 0 <= k < |r| ensures r[k] in s {
        var prev := OfVehicle(s[..|s| - 1], id);
        if k < |prev| {
          assert r[k] == prev[k];
          assert prev[k] in s[..|s| - 1];
        } else {
          assert r[k] == s[|s| - 1];
        }
      }
    }
  }

  /** Anomalies of other vehicles never move a vehicle's summary. */
  lemma SummaryIgnoresOtherVehicles(vehicles: seq<Vehicle>, anomalies: seq<Anomaly>, others: seq<Anomaly>, id: int, d: AnalyticsDraws)
    requires forall k :: 0 <= k < |others| ==> others[k].vehicleId != id
    ensures VehicleAnalyticsOf(vehicles, anomalies + others, id, d).anomalySummary
         == VehicleAnalyticsOf(vehicles, anomalies, id, d).anomalySummary
  {
    OfVehicleAppend(anomalies, others, id);
    OfVehicleNone(others, id);
    assert OfVehicle(anomalies, id) + [] == OfVehicle(anomalies, id);
  }

  lemma {:induction false} OfVehicleNone(s: seq<Anomaly>, id: int)
    requires forall k :: 0 <= k < |s| ==> s[k].vehicleId != id
    ensures OfVehicle(s, id) == []
  {
    if s != [] {
      OfVehicleNone(s[..|s| - 1], id);
    }
  }

  /** Adding one anomaly to a list adds one to its vehicle's filtered count
      and nothing to any other vehicle's. */
  lemma OfVehicleSnoc(s: seq<Anomaly>, a: Anomaly, id: int)
    ensures |OfVehicle(s + [a], id)| == |OfVehicle(s, id)| + (if a.vehicleId == id then 1 else 0)
  {
    assert (s + [a])[..|s + [a]| - 1] == s;
  }

  /** The refreshed fleet with each vehicle's counter raised by the number
      of anomalies in `batch` that carry its id. */
  function WithCounts(refreshed: seq<Vehicle>, prev: seq<Vehicle>, batch: seq<Anomaly>): (r: seq<Vehicle>)
    requires |refreshed| == |prev|
    ensures |r| == |refreshed|
  {
    seq(|refreshed|, j requires 0 <= j < |refreshed| =>
      refreshed[j].(totalAnomalies := refreshed[j].totalAnomalies + |OfVehicle(batch, prev[j].id)|))
  }

  /** Bumping the counter of the vehicle an anomaly names is the same as
      adding that anomaly to the batch the counters are computed from. */
  lemma BumpIsOneMore(refreshed: seq<Vehicle>, prev: seq<Vehicle>, batch: seq<Anomaly>, a: Anomaly)
    requires |refreshed| == |prev|
    requires forall j :: 0 <= j < |prev| ==> refreshed[j].id == prev[j].id
    ensures BumpAnomalyCount(WithCounts(refreshed, prev, batch), a.vehicleId) == WithCounts(refreshed, prev, batch + [a])
  {
    var lhs := BumpAnomalyCount(WithCounts(refreshed, prev, batch), a.vehicleId);
    var rhs := WithCounts(refreshed, prev, batch + [a]);
    forall j | 0 <= j < |prev| ensures lhs[j] == rhs[j] {
      OfVehicleSnoc(batch, a, prev[j].id);
    }
  }

  /** One more vehicle of the walk: its anomaly, if its roll hits, goes at
      the end of the batch. */
  lemma EmitStep(fleet: seq<Vehicle>, rolls: seq<real>, draws: seq<AnomalyDraws>, now: string, i: nat)
    requires i < |fleet| && |rolls| == |fleet| && |draws| == |fleet|
    requires forall k :: 0 <= k < |draws| ==> ValidAnomalyDraws(draws[k])
    ensures rolls[i] < AnomalyRate ==>
      EmittedUpTo(fleet, rolls, draws, now, i + 1)
      == EmittedUpTo(fleet, rolls, draws, now, i) + [GenerateAnomaly(fleet[i].id, draws[i], now)]
    ensures rolls[i] >= AnomalyRate ==>
      EmittedUpTo(fleet, rolls, draws, now, i + 1) == EmittedUpTo(fleet, rolls, draws, now, i)
  {
    assert EmittedUpTo(fleet, rolls, draws, now, i) + [] == EmittedUpTo(fleet, rolls, draws, now, i);
  }

  /** The emitter loop's invariant survives one more vehicle. */
  lemma EmitLoopStep(prev: seq<Vehicle>, refreshed: seq<Vehicle>, rolls: seq<real>,
                     draws: seq<AnomalyDraws>, now: string, i: nat, batch: seq<Anomaly>)
    requires i < |prev| && |refreshed| == |prev| && |rolls| == |prev| && |draws| == |prev|
    requires forall j :: 0 <= j < |prev| ==> refreshed[j].id == prev[j].id
    requires forall k :: 0 <= k < |draws| ==> ValidAnomalyDraws(draws[k])
    requires batch == EmittedUpTo(prev, rolls, draws, now, i)
    ensures rolls[i] < AnomalyRate ==>
      var a := GenerateAnomaly(prev[i].id, draws[i], now);
      && batch + [a] == EmittedUpTo(prev, rolls, draws, now, i + 1)
      && BumpAnomalyCount(WithCounts(refreshed, prev, batch), a.vehicleId) == WithCounts(refreshed, prev, batch + [a])
    ensures rolls[i] >= AnomalyRate ==> batch == EmittedUpTo(prev, rolls, draws, now, i + 1)
  {
    EmitStep(prev, rolls, draws, now, i);
    if rolls[i] < AnomalyRate {
      BumpIsOneMore(refreshed, prev, batch, GenerateAnomaly(prev[i].id, draws[i], now));
    }
  }

  /** The tick's emitter loop: walks the fleet as it was before the tick,
      rolls once per vehicle, and for each hit appends a fresh anomaly and
      bumps the counter of the vehicle it names in the refreshed fleet. The
      result is the emitted batch in fleet order, and each refreshed vehicle
      gains exactly as many anomalies as the batch holds for its id. */
  method EmitAnomalies(prev: seq<Vehicle>, refreshed: seq<Vehicle>, rolls: seq<real>,
                       draws: seq<AnomalyDraws>, now: string)
      returns (fleet: seq<Vehicle>, batch: seq<Anomaly>)
    requires |refreshed| == |prev| && |rolls| == |prev| && |draws| == |prev|
    requires forall j :: 0 <= j < |prev| ==> refreshed[j].id == prev[j].id
    requires forall k :: 0 <= k < |draws| ==> ValidAnomalyDraws(draws[k])
    ensures batch == EmittedUpTo(prev, rolls, draws, now, |prev|)
    ensures fleet == WithCounts(refreshed, prev, batch)
  {
    var n := |prev|;
    batch := [];
    fleet := refreshed;
    assert fleet == WithCounts(refreshed, prev, batch);
    var i := 0;
    while i < n
      invariant 0 <= i <= n
      invariant batch == EmittedUpTo(prev, rolls, draws, now, i)
      invariant fleet == WithCounts(refreshed, prev, batch)
    {
      EmitLoopStep(prev, refreshed, rolls, draws, now, i, batch);
      if rolls[i] < AnomalyRate {
        var a := GenerateAnomaly(prev[i].id, draws[i], now);
        fleet := BumpAnomalyCount(fleet, a.vehicleId);
        batch := batch + [a];
      }
      i := i + 1;
    }
  }

  // ---------------------------------------------------------------------
  // Export
  // ---------------------------------------------------------------------

  /** The JSON report handed to the export collaborator. */
  datatype SystemReport = SystemReport(
    exportTimestamp: string,
    systemStats: SystemStats,
    totalVehicles: nat,
    totalAnomalies: nat,
    vehicles: seq<Vehicle>,
    recentAnomalies: seq<Anomaly>)

  function ReportOf(vehicles: seq<Vehicle>, anomalies: seq<Anomaly>, stats: SystemStats, now: string): (r: SystemReport)
    ensures r.totalVehicles == |vehicles| && r.totalAnomalies == |anomalies|
    ensures |r.recentAnomalies| == Min(|anomalies|, ExportRecentCap)
    ensures r.recentAnomalies == anomalies[|anomalies| - |r.recentAnomalies|..]
  {
    SystemReport(now, stats, |vehicles|, |anomalies|, vehicles, LastN(anomalies, ExportRecentCap))
  }

  // ---------------------------------------------------------------------
  // The hook's state and its transitions
  // ---------------------------------------------------------------------

  /** The start-up event's text for a fleet of twenty. */
  lemma ConnectedMessage()
    ensures Text.IntToDecimal(FleetSize) + " vehicles connected" == "20 vehicles connected"
  {
    assert Text.IntToDecimal(20) == "20";
  }

  /** The draws that initialise one vehicle on mount. */
  datatype InitDraws = InitDraws(distance: real, avgSpeed: real, maxSpeed: real, harsh: real,
                                 anomalies: real, reading: ReadingDraws)

  predicate ValidInitDraws(d: InitDraws)
  {
    && Unit(d.distance) && Unit(d.avgSpeed) && Unit(d.maxSpeed) && Unit(d.harsh)
    && Unit(d.anomalies) && ValidReadingDraws(d.reading)
  }

  function InitialVehicle(index: nat, d: InitDraws, now: string): (v: Vehicle)
    requires index < FleetSize
    ensures v.id == index + 1 && v.state == Normal
    ensures ValidInitDraws(d) ==>
      && 0.0 <= v.totalDistance < 50000.0
      && 45.0 <= v.avgSpeed < 75.0
      && 80.0 <= v.maxSpeed < 120.0
      && 0 <= v.harshEvents < 20
      && 0 <= v.totalAnomalies < 50
  {
    Vehicle(
      id := index + 1,
      makeModel := CatalogEntry(index).0,
      licensePlate := CatalogEntry(index).1,
      state := Normal,
      lastSeen := now,
      totalDistance := d.distance * 50000.0,
      avgSpeed := 45.0 + d.avgSpeed * 30.0,
      maxSpeed := 80.0 + d.maxSpeed * 40.0,
      harshEvents := (d.harsh * 20.0).Floor,
      totalAnomalies := (d.anomalies * 50.0).Floor,
      currentReading := GenerateSensorReading(d.reading))
  }

  class FleetSimulator {
    var vehicles: seq<Vehicle>
    var anomalies: seq<Anomaly>
    var systemStats: SystemStats
    var isRunning: bool
    var isPaused: bool
    /** Every anomaly emitted since mount, oldest first. */
    ghost var emitted: seq<Anomaly>
    /** Every event logged since mount, newest first. */
    ghost var events: seq<SystemEvent>

    /** The buffer is the most recent 1000 emitted anomalies, the stats count
        exactly that buffer, the log is the ten most recent events, and every
        anomaly is well-formed. */
    ghost predicate Valid()
      reads this
    {
      && anomalies == LastN(emitted, AnomalyCap)
      && systemStats.totalAnomalies == |anomalies|
      && systemStats.recentEvents == Take(events, EventLogCap)
      && (forall k :: 0 <= k < |emitted| ==> WellFormed(emitted[k]))
    }

    /** The hook's initial state cells followed by its mount effect: twenty
        vehicles, two start-up events, running and not paused. */
    constructor (init: seq<InitDraws>, now: string, clock: string)
      requires |init| == FleetSize
      ensures Valid()
      ensures |vehicles| == FleetSize
      ensures forall j :: 0 <= j < FleetSize ==> vehicles[j] == InitialVehicle(j, init[j], now)
      ensures anomalies == [] && isRunning && !isPaused
      ensures systemStats.totalReadings == 0 && systemStats.totalAnomalies == 0 && systemStats.readingsPerSecond == 0
      ensures systemStats.systemHealth == 98.5 && systemStats.memoryUsage == 245.7 && systemStats.cpuUsage == 23.4
      ensures systemStats.uptime == "0h 0m"
      ensures systemStats.recentEvents == [
        SystemEvent(clock, "info", "System initialized successfully"),
        SystemEvent(clock, "info", "20 vehicles connected")]
    {
      vehicles := seq(FleetSize, j requires 0 <= j < FleetSize => InitialVehicle(j, init[j], now));
      anomalies := [];
      var startEvents := [
        SystemEvent(clock, "info", "System initialized successfully"),
        SystemEvent(clock, "info", Text.IntToDecimal(FleetSize) + " vehicles connected")];
      ConnectedMessage();
      systemStats := SystemStats(0, 0, 0, 98.5, 245.7, 23.4, "0h 0m", startEvents);
      isRunning := true;
      isPaused := false;
      emitted := [];
      events := startEvents;
    }

    /** One interval callback. Nothing happens while stopped or paused;
        otherwise every vehicle is refreshed from its new reading, each
        vehicle whose roll is below the anomaly rate emits one anomaly that
        bumps that vehicle's counter, the buffer keeps the last 1000, and the
        stats count the fleet's readings and the buffer. */
    method Tick(readings: seq<ReadingDraws>, rolls: seq<real>, draws: seq<AnomalyDraws>,
                gauges: StatsDraws, now: string, elapsedMs: int)
      requires Valid()
      requires |readings| == |vehicles| && |rolls| == |vehicles| && |draws| == |vehicles|
      requires forall k :: 0 <= k < |draws| ==> ValidAnomalyDraws(draws[k])
      modifies this
      ensures Valid()
      ensures !old(isRunning) || old(isPaused) ==> unchanged(this)
      ensures isRunning == old(isRunning) && isPaused == old(isPaused)
      ensures old(isRunning) && !old(isPaused) ==>
        var batch := EmittedUpTo(old(vehicles), rolls, draws, now, |old(vehicles)|);
        && |vehicles| == |old(vehicles)|
        && vehicles == WithCounts(Refreshed(old(vehicles), readings, now), old(vehicles), batch)
        && emitted == old(emitted) + batch
        && anomalies == LastN(old(anomalies) + batch, AnomalyCap)
        && systemStats == RefreshStats(old(systemStats), |old(vehicles)|, gauges, elapsedMs)
                            .(totalAnomalies := |anomalies|)
    {
      if !isRunning || isPaused {
        return;
      }
      var n := |vehicles|;
      var prev := vehicles;
      var refreshed := Refreshed(prev, readings, now);
      var fleet, batch := EmitAnomalies(prev, refreshed, rolls, draws, now);
      LastNOfAppend(emitted, batch, AnomalyCap);
      vehicles := fleet;
      anomalies := LastN(anomalies + batch, AnomalyCap);
      emitted := emitted + batch;
      RefreshSystemStats(n, gauges, elapsedMs);
      systemStats := systemStats.(totalAnomalies := |anomalies|);
    }

    /** The tick's `setSystemStats` call. */
    method RefreshSystemStats(fleetSize: nat, gauges: StatsDraws, elapsedMs: int)
      modifies this
      ensures systemStats == RefreshStats(old(systemStats), fleetSize, gauges, elapsedMs)
      ensures vehicles == old(vehicles) && anomalies == old(anomalies) && emitted == old(emitted) && events == old(events)
      ensures isRunning == old(isRunning) && isPaused == old(isPaused)
    {
      systemStats := RefreshStats(systemStats, fleetSize, gauges, elapsedMs);
    }

    /** Start/stop: flips `isRunning` and logs which way it went. */
    method ToggleSimulation(clock: string)
      requires Valid()
      modifies this
      ensures Valid()
      ensures isRunning == !old(isRunning) && isPaused == old(isPaused)
      ensures vehicles == old(vehicles) && anomalies == old(anomalies)
      ensures systemStats == old(systemStats).(recentEvents := PushEvent(old(systemStats.recentEvents),
        SystemEvent(clock, "info", if old(isRunning) then "Simulation stopped" else "Simulation started")))
    {
      var e := SystemEvent(clock, "info", if isRunning then "Simulation stopped" else "Simulation started");
      LogEvent(e);
      isRunning := !isRunning;
    }

    /** Pause/resume: flips `isPaused` and logs which way it went. */
    method PauseResume(clock: string)
      requires Valid()
      modifies this
      ensures Valid()
      ensures isPaused == !old(isPaused) && isRunning == old(isRunning)
      ensures vehicles == old(vehicles) && anomalies == old(anomalies)
      ensures systemStats == old(systemStats).(recentEvents := PushEvent(old(systemStats.recentEvents),
        SystemEvent(clock, "info", if old(isPaused) then "Simulation resumed" else "Simulation paused")))
    {
      var e := SystemEvent(clock, "info", if isPaused then "Simulation resumed" else "Simulation paused");
      LogEvent(e);
      isPaused := !isPaused;
    }

    /** Hands the current snapshot to the export collaborator and logs it. */
    method ExportData(now: string, clock: string) returns (report: SystemReport)
      requires Valid()
      modifies this
      ensures Valid()
      ensures report == ReportOf(old(vehicles), old(anomalies), old(systemStats), now)
      ensures isRunning == old(isRunning) && isPaused == old(isPaused)
      ensures vehicles == old(vehicles) && anomalies == old(anomalies)
      ensures systemStats == old(systemStats).(recentEvents := PushEvent(old(systemStats.recentEvents),
        SystemEvent(clock, "info", "Data exported successfully (CSV + JSON files downloaded)")))
    {
      report := ReportOf(vehicles, anomalies, systemStats, now);
      LogEvent(SystemEvent(clock, "info", "Data exported successfully (CSV + JSON files downloaded)"));
    }

    /** Puts `e` at the front of the event log, keeping ten entries. */
    method LogEvent(e: SystemEvent)
      requires Valid()
      modifies this
      ensures Valid()
      ensures events == [e] + old(events)
      ensures isRunning == old(isRunning) && isPaused == old(isPaused)
      ensures vehicles == old(vehicles) && anomalies == old(anomalies) && emitted == old(emitted)
      ensures systemStats == old(systemStats).(recentEvents := PushEvent(old(systemStats.recentEvents), e))
    {
      PrependTake(events, e, EventLogCap);
      systemStats := systemStats.(recentEvents := PushEvent(systemStats.recentEvents, e));
      events := [e] + events;
    }
  }
}
