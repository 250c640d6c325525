/**
 * The per-reading pipeline of the C++ telematics engine (class
 * AdvancedDataManager in advanced_telematics.cpp): the 200-reading window
 * per vehicle, the vehicle profile with its running speed statistics and
 * 1000-point route, the threshold anomaly rules, the fuel-leak rate, the
 * maintenance check, the anomaly counters and urgent queue, the
 * time-windowed vehicle-state rule, and the synthetic reading generator.
 *
 * What the code obtains from collaborators not modelled here is passed in:
 * the haversine length of the leg since the last route point, the ML
 * anomaly score, the names of the restricted geofences that contain the
 * reading, the random draws and the clock (`now`, in milliseconds).
 */
module DataManager {
  import opened Windows
  import opened TelematicsTypes
  import Analytics
  import VehicleData

  /** `WINDOW_SIZE`: readings kept per vehicle. */
  const WindowSize: nat := 200
  /** Route points kept per profile. */
  const RouteCap: nat := 1000
  /** Profiles created at start-up, with ids 1..20. */
  const ProfileCount: nat := 20
  /** `std::abs(acceleration) > 4.0` counts as a harsh event. */
  const HarshThreshold: real := 4.0
  /** A new profile was last serviced 30 days before its creation. */
  const ServiceAgeAtCreation: int := 24 * 30
  /** Maintenance is due after more than 90 days (in hours). */
  const ServiceIntervalHours: int := 24 * 30 * 3

  function Abs(x: real): real { if x < 0.0 then -x else x }

  function MaxReal(a: real, b: real): real { if a >= b then a else b }

  // ---------------------------------------------------------------------
  // Vehicle profiles
  // ---------------------------------------------------------------------

  /** `VehicleProfile`. The two entries of `performance_metrics` the code
      uses ("total_speed_sum" and "speed_count") are the fields `speedSum`
      and `speedCount`. */
  datatype VehicleProfile = VehicleProfile(
    vehicleId: int,
    makeModel: string,
    licensePlate: string,
    currentState: VehicleState,
    lastSeen: int,
    totalDistanceKm: real,
    totalAnomalies: int,
    avgFuelEfficiency: real,
    routeHistory: seq<(real, real)>,
    lastMaintenance: int,
    maintenanceIntervalKm: int,
    maxSpeedRecorded: real,
    avgSpeed: real,
    harshEventsCount: int,
    speedSum: real,
    speedCount: nat)

  /** The profile constructor, run at time `now`. */
  function NewProfile(id: int, model: string, plate: string, now: int): (p: VehicleProfile)
    ensures p.vehicleId == id && p.currentState == Normal && p.lastSeen == now
    ensures p.lastMaintenance == now - ServiceAgeAtCreation * MillisPerHour
    ensures p.totalAnomalies == 0 && p.routeHistory == [] && p.speedCount == 0
  {
    VehicleProfile(id, model, plate, Normal, now, 0.0, 0, 0.0, [], now - ServiceAgeAtCreation * MillisPerHour,
                   10000, 0.0, 0.0, 0, 0.0, 0)
  }

  /** `initializeVehicleProfiles`: ids 1..20 with the catalogue's make and
      plate, the same twenty pairs the browser simulator uses. */
  function InitialProfiles(n: nat, now: int): (ps: map<int, VehicleProfile>)
    requires n <= ProfileCount
    ensures forall i :: i in ps <==> 1 <= i <= n
  {
    if n == 0 then map[]
    else InitialProfiles(n - 1, now)[n := CatalogProfile(n, now)]
  }

  function CatalogProfile(i: int, now: int): (p: VehicleProfile)
    requires 1 <= i <= ProfileCount
    ensures p.vehicleId == i && p.makeModel == VehicleData.CatalogEntry(i - 1).0
  {
    NewProfile(i, VehicleData.CatalogEntry(i - 1).0, VehicleData.CatalogEntry(i - 1).1, now)
  }

  /** The loop of `initializeVehicleProfiles`: one catalogue profile per
      id 1..20. */
  method InitializeVehicleProfiles(now: int) returns (ps: map<int, VehicleProfile>)
    ensures ps == InitialProfiles(ProfileCount, now)
  {
    ps := map[];
    var i := 1;
    while i <= ProfileCount
      invariant 1 <= i <= ProfileCount + 1
      invariant ps == InitialProfiles(i - 1, now)
    {
      assert InitialProfiles(i, now) == InitialProfiles(i - 1, now)[i := CatalogProfile(i, now)];
      ps := ps[i := CatalogProfile(i, now)];
      i := i + 1;
    }
  }

  /** Every start-up profile is the catalogue entry for its id. */
  lemma {:induction false} InitialProfilesEntries(n: nat, now: int, i: int)
    requires n <= ProfileCount && 1 <= i <= n
    ensures InitialProfiles(n, now)[i] == CatalogProfile(i, now)
  {
    if i < n {
      InitialProfilesEntries(n - 1, now, i);
    }
  }

  /** The start-up profiles have seen no reading and counted no anomaly. */
  lemma InitialProfilesFresh(n: nat, now: int)
    requires n <= ProfileCount
    ensures var ps := InitialProfiles(n, now);
      forall i :: i in ps ==> ps[i].totalAnomalies == 0 && ProfileTracks(ps[i], [])
  {
    var ps := InitialProfiles(n, now);
    forall i | i in ps ensures ps[i].totalAnomalies == 0 && ProfileTracks(ps[i], []) {
      InitialProfilesEntries(n, now, i);
      NewProfileTracks(i, VehicleData.CatalogEntry(i - 1).0, VehicleData.CatalogEntry(i - 1).1, now);
    }
  }

  /** `updateVehicleProfile` with the haversine leg `legKm` from the last
      route point to the reading's position. */
  function UpdatedProfile(p: VehicleProfile, r: Reading, legKm: real): (q: VehicleProfile)
    ensures && q.vehicleId == p.vehicleId && q.makeModel == p.makeModel && q.licensePlate == p.licensePlate
            && q.currentState == p.currentState && q.totalAnomalies == p.totalAnomalies
            && q.avgFuelEfficiency == p.avgFuelEfficiency
            && q.lastMaintenance == p.lastMaintenance && q.maintenanceIntervalKm == p.maintenanceIntervalKm
    ensures q.lastSeen == r.timestamp && q.speedCount == p.speedCount + 1
    ensures q.maxSpeedRecorded >= p.maxSpeedRecorded && q.maxSpeedRecorded >= r.speed
    ensures q.routeHistory != [] && q.routeHistory[|q.routeHistory| - 1] == (r.latitude, r.longitude)
    ensures legKm >= 0.0 ==> q.totalDistanceKm >= p.totalDistanceKm
    ensures q.harshEventsCount == p.harshEventsCount || q.harshEventsCount == p.harshEventsCount + 1
  {
    var sum := p.speedSum + r.speed;
    var count := p.speedCount + 1;
    p.(lastSeen := r.timestamp,
       totalDistanceKm := if p.routeHistory == [] then p.totalDistanceKm else p.totalDistanceKm + legKm,
       routeHistory := Slide(p.routeHistory, (r.latitude, r.longitude), RouteCap),
       maxSpeedRecorded := MaxReal(p.maxSpeedRecorded, r.speed),
       speedSum := sum,
       speedCount := count,
       avgSpeed := sum / (count as real),
       harshEventsCount := if Abs(r.acceleration) > HarshThreshold then p.harshEventsCount + 1 else p.harshEventsCount)
  }

  // Reference definitions over the full reading history of a vehicle.

  function SpeedSum(h: seq<Reading>): real
  {
    if h == [] then 0.0 else SpeedSum(h[..|h| - 1]) + h[|h| - 1].speed
  }

  /** The running maximum starts from the constructor's 0.0. */
  function MaxSpeed(h: seq<Reading>): real
  {
    if h == [] then 0.0 else MaxReal(MaxSpeed(h[..|h| - 1]), h[|h| - 1].speed)
  }

  function HarshCount(h: seq<Reading>): nat
  {
    if h == [] then 0
    else HarshCount(h[..|h| - 1]) + (if Abs(h[|h| - 1].acceleration) > HarshThreshold then 1 else 0)
  }

  function Positions(h: seq<Reading>): (ps: seq<(real, real)>)
    ensures |ps| == |h|
  {
    if h == [] then [] else Positions(h[..|h| - 1]) + [(h[|h| - 1].latitude, h[|h| - 1].longitude)]
  }

  /** A profile that has seen exactly the readings `h`: the true mean and
      running maximum of their speeds, their harsh-event count, the last
      1000 positions and the last reading's timestamp. */
  ghost predicate ProfileTracks(p: VehicleProfile, h: seq<Reading>)
  {
    && p.speedCount == |h|
    && p.speedSum == SpeedSum(h)
    && (h == [] ==> p.avgSpeed == 0.0)
    && (h != [] ==> p.avgSpeed == SpeedSum(h) / (|h| as real))
    && p.maxSpeedRecorded == MaxSpeed(h)
    && p.harshEventsCount == HarshCount(h)
    && p.routeHistory == LastN(Positions(h), RouteCap)
    && (h != [] ==> p.lastSeen == h[|h| - 1].timestamp)
  }

  lemma NewProfileTracks(id: int, model: string, plate: string, now: int)
    ensures ProfileTracks(NewProfile(id, model, plate, now), [])
  {
  }

  /** One profile update keeps the profile in step with the history. */
  lemma {:induction false} ProfileStep(p: VehicleProfile, h: seq<Reading>, r: Reading, legKm: real)
    requires ProfileTracks(p, h)
    ensures ProfileTracks(UpdatedProfile(p, r, legKm), h + [r])
  {
    var h' := h + [r];
    assert h'[..|h'| - 1] == h;
    assert Positions(h') == Positions(h) + [(r.latitude, r.longitude)];
    SlideHistory(Positions(h), (r.latitude, r.longitude), RouteCap);
  }

  /** `max_speed_recorded` is a running maximum: at least every speed seen
      (and 0.0), and equal to one of them unless it is still 0.0. */
  lemma {:induction false} MaxSpeedIsMaximum(h: seq<Reading>)
    ensures MaxSpeed(h) >= 0.0
    ensures forall k :: 0 <= k < |h| ==> h[k].speed <= MaxSpeed(h)
    ensures MaxSpeed(h) == 0.0 || exists k :: 0 <= k < |h| && h[k].speed == MaxSpeed(h)
  {
    if h != [] {
      var h0 := h[..|h| - 1];
      MaxSpeedIsMaximum(h0);
      assert forall k :: 0 <= k < |h0| ==> h[k] == h0[k];
      if MaxSpeed(h) != 0.0 && MaxSpeed(h) != h[|h| - 1].speed {
        var k :| 0 <= k < |h0| && h0[k].speed == MaxSpeed(h0);
        assert h[k].speed == MaxSpeed(h);
      }
    }
  }

  /** The speed sum never exceeds n times the running maximum. */
  lemma {:induction false} SpeedSumAtMostMax(h: seq<Reading>)
    ensures SpeedSum(h) <= (|h| as real) * MaxSpeed(h)
  {
    if h != [] {
      var h0 := h[..|h| - 1];
      SpeedSumAtMostMax(h0);
      MaxSpeedIsMaximum(h0);
      assert MaxSpeed(h0) <= MaxSpeed(h);
      assert (|h0| as real) * MaxSpeed(h0) <= (|h0| as real) * MaxSpeed(h);
    }
  }

  /** The tracked average speed is a true mean, so it never exceeds the
      recorded maximum speed. */
  lemma AverageAtMostMaximum(p: VehicleProfile, h: seq<Reading>)
    requires ProfileTracks(p, h)
    ensures p.avgSpeed <= p.maxSpeedRecorded
  {
    if h != [] {
      var n := |h| as real;
      SpeedSumAtMostMax(h);
      QuotientAtMost(SpeedSum(h), n, MaxSpeed(h));
      assert p.avgSpeed == SpeedSum(h) / n;
    }
  }

  lemma QuotientAtMost(a: real, n: real, m: real)
    requires n > 0.0 && a <= n * m
    ensures a / n <= m
  {
    var q := a / n;
    assert q * n == a;
    if q > m {
      assert q * n > m * n;
    }
  }

  /** The harsh-event count rises by one exactly when the new reading's
      acceleration exceeds 4 m/s^2 in magnitude. */
  lemma HarshCountStep(h: seq<Reading>, r: Reading)
    ensures HarshCount(h + [r]) == HarshCount(h) + 1 <==> Abs(r.acceleration) > HarshThreshold
    ensures HarshCount(h + [r]) == HarshCount(h) <==> Abs(r.acceleration) <= HarshThreshold
  {
    assert (h + [r])[..|h + [r]| - 1] == h;
  }

  /** The route holds the last 1000 positions, oldest first. */
  lemma RouteWindow(p: VehicleProfile, h: seq<Reading>)
    requires ProfileTracks(p, h)
    ensures |p.routeHistory| == Min(|h|, RouteCap)
    ensures p.routeHistory == Positions(h)[|h| - |p.routeHistory|..]
  {
  }

  /** The odometer of the profile never shrinks for a non-negative leg. */
  lemma DistanceMonotone(p: VehicleProfile, r: Reading, legKm: real)
    requires legKm >= 0.0
    ensures UpdatedProfile(p, r, legKm).totalDistanceKm >= p.totalDistanceKm
    ensures p.routeHistory == [] ==> UpdatedProfile(p, r, legKm).totalDistanceKm == p.totalDistanceKm
  {
  }

  // ---------------------------------------------------------------------
  // Detection rules
  // ---------------------------------------------------------------------

  /** The arguments of one `addEnhancedAnomaly` call (the ML score it is
      given only goes to the log). */
  datatype Detection = Detection(sensor: string, value: real, kind: AnomalyType,
                                 description: string, severity: int, location: string)

  function When(c: bool, d: Detection): (r: seq<Detection>)
    ensures d in r <==> c
    ensures forall e :: e in r ==> e == d
    ensures |r| <= 1
  {
    if c then [d] else []
  }

  /** `calculateFuelDropRate`: percent per whole minute between the reading
      ten back and the newest one; 0 with fewer than ten readings or no
      elapsed whole minute. */
  function FuelDropRate(window: seq<Reading>): (rate: real)
    ensures |window| < 10 ==> rate == 0.0
    ensures rate != 0.0 ==> window[|window| - 1].timestamp - window[|window| - 10].timestamp >= MillisPerMinute
  {
    if |window| < 10 then 0.0
    else
      var oldest := window[|window| - 10];
      var newest := window[|window| - 1];
      var minutes := TruncDiv(newest.timestamp - oldest.timestamp, MillisPerMinute);
      if minutes <= 0 then 0.0
      else (oldest.fuelLevel - newest.fuelLevel) / (minutes as real)
  }

  /** The rate is positive exactly when there are ten readings, at least a
      whole minute separates the tenth-newest from the newest, and fuel
      went down between them. */
  lemma FuelDropRatePositive(window: seq<Reading>)
    ensures FuelDropRate(window) > 0.0 <==>
      && |window| >= 10
      && TruncDiv(window[|window| - 1].timestamp - window[|window| - 10].timestamp, MillisPerMinute) > 0
      && window[|window| - 10].fuelLevel > window[|window| - 1].fuelLevel
  {
    if |window| >= 10 {
      var oldest := window[|window| - 10];
      var newest := window[|window| - 1];
      var minutes := TruncDiv(newest.timestamp - oldest.timestamp, MillisPerMinute);
      if minutes > 0 {
        var drop := oldest.fuelLevel - newest.fuelLevel;
        var m := minutes as real;
        assert drop / m > 0.0 <==> drop > 0.0 by {
          assert (drop / m) * m == drop;
        }
      }
    }
  }

  /** Only the last ten readings matter, so trimming the history to the
      200-reading window does not change the rate. */
  lemma FuelDropRateOfWindow(h: seq<Reading>)
    ensures FuelDropRate(LastN(h, WindowSize)) == FuelDropRate(h)
  {
    var w := LastN(h, WindowSize);
    if |h| >= 10 {
      assert w[|w| - 10] == h[|h| - 10];
      assert w[|w| - 1] == h[|h| - 1];
    }
  }

  // The arguments each range rule passes to `addEnhancedAnomaly`.

  function SpeedAlarm(cur: Reading): Detection
  {
    Detection("speed", cur.speed, SpeedOutOfRange, "Speed outside safe range", 4, "")
  }

  function RpmAlarm(cur: Reading): Detection
  {
    Detection("rpm", cur.rpm, RpmOutOfRange, "RPM outside normal range", 3, "")
  }

  function TempAlarm(cur: Reading): Detection
  {
    Detection("temperature", cur.temperature, TempOutOfRange, "Engine overheating detected", 5, "")
  }

  /** Harsh acceleration for a positive value, harsh braking otherwise. */
  function AccelAlarm(cur: Reading): Detection
  {
    if cur.acceleration > 0.0
    then Detection("acceleration", cur.acceleration, HarshAcceleration, "Harsh acceleration detected", 3, "")
    else Detection("acceleration", cur.acceleration, HarshBraking, "Harsh braking detected", 3, "")
  }

  function OilAlarm(cur: Reading): Detection
  {
    Detection("oil_pressure", cur.oilPressure, SensorFailure, "Critically low oil pressure", 5, "")
  }

  function BatteryAlarm(cur: Reading): Detection
  {
    Detection("battery", cur.batteryVoltage, SensorFailure, "Battery voltage abnormal", 3, "")
  }

  function FuelAlarm(rate: real): Detection
  {
    Detection("fuel", rate, FuelLeak, "Potential fuel leak detected", 4, "")
  }

  function MlAlarm(score: real): Detection
  {
    Detection("ml_pattern", score, ErraticBehavior, "ML detected unusual pattern", 3, "")
  }

  predicate SpeedRule(cur: Reading) { cur.speed > 200.0 || cur.speed < -5.0 }
  predicate RpmRule(cur: Reading) { cur.rpm > 8000.0 || (cur.rpm < 400.0 && cur.engineOn && cur.speed > 10.0) }
  predicate TempRule(cur: Reading) { cur.temperature > 110.0 }
  predicate AccelRule(cur: Reading) { Abs(cur.acceleration) > 6.0 }
  predicate OilRule(cur: Reading) { cur.oilPressure < 1.0 && cur.engineOn }
  predicate BatteryRule(cur: Reading) { cur.batteryVoltage < 11.0 || cur.batteryVoltage > 15.0 }
  predicate FuelRule(window: seq<Reading>) { |window| >= 10 && FuelDropRate(window) > 2.0 }
  predicate MlRule(score: real) { score > 3.0 }

  /** The range rules of `detectEnhancedAnomalies`, in the code's order,
      with the window taken after the reading was pushed. */
  function RangeDetections(cur: Reading, window: seq<Reading>, mlScore: real): (ds: seq<Detection>)
    ensures |ds| <= 8
  {
    When(SpeedRule(cur), SpeedAlarm(cur))
    + When(RpmRule(cur), RpmAlarm(cur))
    + When(TempRule(cur), TempAlarm(cur))
    + When(AccelRule(cur), AccelAlarm(cur))
    + When(OilRule(cur), OilAlarm(cur))
    + When(BatteryRule(cur), BatteryAlarm(cur))
    + When(FuelRule(window), FuelAlarm(FuelDropRate(window)))
    + When(MlRule(mlScore), MlAlarm(mlScore))
  }

  /** Each rule's detection is present exactly when its threshold is
      crossed: the rules are told apart by type and severity. */
  lemma RangeRules(cur: Reading, window: seq<Reading>, mlScore: real)
    ensures var ds := RangeDetections(cur, window, mlScore);
      && (SpeedAlarm(cur) in ds <==> cur.speed > 200.0 || cur.speed < -5.0)
      && (RpmAlarm(cur) in ds <==> cur.rpm > 8000.0 || (cur.rpm < 400.0 && cur.engineOn && cur.speed > 10.0))
      && (TempAlarm(cur) in ds <==> cur.temperature > 110.0)
      && (AccelAlarm(cur) in ds <==> cur.acceleration > 6.0 || cur.acceleration < -6.0)
      && (OilAlarm(cur) in ds <==> cur.oilPressure < 1.0 && cur.engineOn)
      && (BatteryAlarm(cur) in ds <==> cur.batteryVoltage < 11.0 || cur.batteryVoltage > 15.0)
      && (FuelAlarm(FuelDropRate(window)) in ds <==> |window| >= 10 && FuelDropRate(window) > 2.0)
      && (MlAlarm(mlScore) in ds <==> mlScore > 3.0)
  {
    SpeedRuleExact(cur, window, mlScore);
    RpmRuleExact(cur, window, mlScore);
    TempRuleExact(cur, window, mlScore);
    AccelRuleExact(cur, window, mlScore);
    OilRuleExact(cur, window, mlScore);
    BatteryRuleExact(cur, window, mlScore);
    FuelRuleExact(cur, window, mlScore);
    MlRuleExact(cur, window, mlScore);
  }

  lemma SpeedRuleExact(cur: Reading, window: seq<Reading>, mlScore: real)
    ensures SpeedAlarm(cur) in RangeDetections(cur, window, mlScore) <==> cur.speed > 200.0 || cur.speed < -5.0
  {
    RangeMembership(cur, window, mlScore, SpeedAlarm(cur));
  }

  lemma RpmRuleExact(cur: Reading, window: seq<Reading>, mlScore: real)
    ensures RpmAlarm(cur) in RangeDetections(cur, window, mlScore) <==> cur.rpm > 8000.0 || (cur.rpm < 400.0 && cur.engineOn && cur.speed > 10.0)
  {
    RangeMembership(cur, window, mlScore, RpmAlarm(cur));
  }

  lemma TempRuleExact(cur: Reading, window: seq<Reading>, mlScore: real)
    ensures TempAlarm(cur) in RangeDetections(cur, window, mlScore) <==> cur.temperature > 110.0
  {
    RangeMembership(cur, window, mlScore, TempAlarm(cur));
  }

  lemma AccelRuleExact(cur: Reading, window: seq<Reading>, mlScore: real)
    ensures AccelAlarm(cur) in RangeDetections(cur, window, mlScore) <==> cur.acceleration > 6.0 || cur.acceleration < -6.0
  {
    RangeMembership(cur, window, mlScore, AccelAlarm(cur));
  }

  lemma OilRuleExact(cur: Reading, window: seq<Reading>, mlScore: real)
    ensures OilAlarm(cur) in RangeDetections(cur, window, mlScore) <==> cur.oilPressure < 1.0 && cur.engineOn
  {
    RangeMembership(cur, window, mlScore, OilAlarm(cur));
  }

  lemma BatteryRuleExact(cur: Reading, window: seq<Reading>, mlScore: real)
    ensures BatteryAlarm(cur) in RangeDetections(cur, window, mlScore) <==> cur.batteryVoltage < 11.0 || cur.batteryVoltage > 15.0
  {
    RangeMembership(cur, window, mlScore, BatteryAlarm(cur));
  }

  lemma FuelRuleExact(cur: Reading, window: seq<Reading>, mlScore: real)
    ensures FuelAlarm(FuelDropRate(window)) in RangeDetections(cur, window, mlScore) <==> |window| >= 10 && FuelDropRate(window) > 2.0
  {
    RangeMembership(cur, window, mlScore, FuelAlarm(FuelDropRate(window)));
  }

  lemma MlRuleExact(cur: Reading, window: seq<Reading>, mlScore: real)
    ensures MlAlarm(mlScore) in RangeDetections(cur, window, mlScore) <==> mlScore > 3.0
  {
    RangeMembership(cur, window, mlScore, MlAlarm(mlScore));
  }

  lemma RangeMembership(cur: Reading, window: seq<Reading>, mlScore: real, e: Detection)
    ensures e in RangeDetections(cur, window, mlScore) <==>
      || e in When(SpeedRule(cur), SpeedAlarm(cur))
      || e in When(RpmRule(cur), RpmAlarm(cur))
      || e in When(TempRule(cur), TempAlarm(cur))
      || e in When(AccelRule(cur), AccelAlarm(cur))
      || e in When(OilRule(cur), OilAlarm(cur))
      || e in When(BatteryRule(cur), BatteryAlarm(cur))
      || e in When(FuelRule(window), FuelAlarm(FuelDropRate(window)))
      || e in When(MlRule(mlScore), MlAlarm(mlScore))
  {
  }

  /** Detections for an acceleration above 6 m/s^2 name harsh acceleration;
      below -6 m/s^2, harsh braking. */
  lemma AccelAlarmKind(cur: Reading)
    ensures cur.acceleration > 6.0 ==> AccelAlarm(cur).kind == HarshAcceleration
    ensures cur.acceleration < -6.0 ==> AccelAlarm(cur).kind == HarshBraking
    ensures AccelAlarm(cur).severity == 3
  {
  }

  /** At most one detection per rule, every severity is 3, 4 or 5, and
      none carries a location. */
  lemma RangeDetectionsShape(cur: Reading, window: seq<Reading>, mlScore: real)
    ensures var ds := RangeDetections(cur, window, mlScore);
      && |ds| <= 8
      && (forall e :: e in ds ==> 3 <= e.severity <= 5 && e.location == "")
  {
    var ds := RangeDetections(cur, window, mlScore);
    forall e | e in ds ensures 3 <= e.severity <= 5 && e.location == "" {
      RangeMembership(cur, window, mlScore, e);
    }
  }

  /** `checkGeofenceViolations`, given the restricted zones (in geofence
      order) that contain the reading. */
  function GeofenceDetections(zones: seq<string>): (ds: seq<Detection>)
    ensures |ds| == |zones|
    ensures forall k :: 0 <= k < |ds| ==>
      ds[k].kind == GeofenceViolation && ds[k].severity == 4 && ds[k].location == zones[k]
      && ds[k].description == "Vehicle entered restricted area: " + zones[k]
  {
    if zones == [] then []
    else [Detection("location", 0.0, GeofenceViolation, "Vehicle entered restricted area: " + zones[0], 4, zones[0])]
         + GeofenceDetections(zones[1..])
  }

  /** The two triggers of `checkMaintenanceRequirements`. */
  function MaintenanceDue(p: VehicleProfile, r: Reading): (due: bool)
    ensures due <==> p.totalDistanceKm > p.maintenanceIntervalKm as real
                     || r.timestamp - p.lastMaintenance >= (ServiceIntervalHours + 1) * MillisPerHour
  {
    p.totalDistanceKm > p.maintenanceIntervalKm as real
    || TruncDiv(r.timestamp - p.lastMaintenance, MillisPerHour) > ServiceIntervalHours
  }

  function MaintenanceDetection(p: VehicleProfile): Detection
  {
    Detection("maintenance", p.totalDistanceKm, MaintenanceRequired, "Scheduled maintenance due", 2, "")
  }

  /** A profile created at `now` that has driven at most 10000 km falls due
      for service once 1441 hours (60 days and one hour) have passed: it
      starts 30 days after its last service and the limit is "more than 90
      whole days". */
  lemma NewProfileServiceDue(id: int, model: string, plate: string, now: int, r: Reading)
    requires r.timestamp >= now
    ensures MaintenanceDue(NewProfile(id, model, plate, now), r)
        <==> r.timestamp - now >= (ServiceIntervalHours - ServiceAgeAtCreation + 1) * MillisPerHour
  {
    var e := r.timestamp - (now - ServiceAgeAtCreation * MillisPerHour);
    var q := TruncDiv(e, MillisPerHour);
    assert q * MillisPerHour <= e < (q + 1) * MillisPerHour;
    if q > ServiceIntervalHours {
      assert q >= ServiceIntervalHours + 1;
      assert e >= (ServiceIntervalHours + 1) * MillisPerHour;
    } else {
      assert e < (ServiceIntervalHours + 1) * MillisPerHour;
    }
  }

  /** The maintenance check's report, for a vehicle with a profile. */
  function MaintenanceCheck(profiles: map<int, VehicleProfile>, cur: Reading): (ds: seq<Detection>)
    ensures |ds| <= 1
    ensures ds != [] ==> cur.vehicleId in profiles
    ensures forall d :: d in ds ==> d.kind == MaintenanceRequired && d.severity == 2 && d.location == ""
  {
    if cur.vehicleId in profiles && MaintenanceDue(profiles[cur.vehicleId], cur)
    then [MaintenanceDetection(profiles[cur.vehicleId])] else []
  }

  /** Everything the pipeline reports for one reading, in call order: the
      range rules, the maintenance check (for a vehicle with a profile,
      already updated with this reading), then the geofences. */
  function ReadingDetections(cur: Reading, window: seq<Reading>, mlScore: real,
                             profiles: map<int, VehicleProfile>, zones: seq<string>): seq<Detection>
  {
    RangeDetections(cur, window, mlScore) + MaintenanceCheck(profiles, cur) + GeofenceDetections(zones)
  }

  /** The records `addEnhancedAnomaly` builds for detections made at `now`. */
  function ToRecords(vid: int, ds: seq<Detection>, now: int): (rs: seq<AnomalyRecord>)
    ensures |rs| == |ds|
    ensures forall k :: 0 <= k < |ds| ==> rs[k] == ToRecord(vid, ds[k], now)
  {
    if ds == [] then [] else ToRecords(vid, ds[..|ds| - 1], now) + [ToRecord(vid, ds[|ds| - 1], now)]
  }

  function ToRecord(vid: int, d: Detection, now: int): (a: AnomalyRecord)
    ensures a.vehicleId == vid && a.timestamp == now && a.severity == d.severity
  {
    NewAnomalyRecord(vid, d.sensor, d.value, d.kind, d.description, d.severity, d.location, now)
  }

  // ---------------------------------------------------------------------
  // Anomaly bookkeeping
  // ---------------------------------------------------------------------

  /** `detected_anomalies[v]`: the records of vehicle `v`, oldest first. */
  function RecordsOf(log: seq<AnomalyRecord>, v: int): (rs: seq<AnomalyRecord>)
    ensures |rs| <= |log|
    ensures forall k :: 0 <= k < |rs| ==> rs[k].vehicleId == v
  {
    if log == [] then []
    else RecordsOf(log[..|log| - 1], v) + (if log[|log| - 1].vehicleId == v then [log[|log| - 1]] else [])
  }

  /** A record is filed under its own vehicle and no other. */
  lemma {:induction false} RecordsOfMembership(log: seq<AnomalyRecord>, v: int, a: AnomalyRecord)
    ensures a in RecordsOf(log, v) <==> a in log && a.vehicleId == v
  {
    if log != [] {
      RecordsOfMembership(log[..|log| - 1], v, a);
      assert log == log[..|log| - 1] + [log[|log| - 1]];
    }
  }

  /** The contents of `anomaly_priority_queue`: a `(severity, vehicle)` pair
      for every record of severity 4 or more. */
  function UrgentOf(log: seq<AnomalyRecord>): multiset<(int, int)>
  {
    if log == [] then multiset{}
    else
      var a := log[|log| - 1];
      UrgentOf(log[..|log| - 1]) + (if a.severity >= 4 then multiset{(a.severity, a.vehicleId)} else multiset{})
  }

  /** A pair is queued exactly when some record has that vehicle and that
      severity, and the severity is at least 4. */
  lemma {:induction false} UrgentMembership(log: seq<AnomalyRecord>, s: int, v: int)
    ensures (s, v) in UrgentOf(log) <==> s >= 4 && exists k :: 0 <= k < |log| && log[k].severity == s && log[k].vehicleId == v
  {
    if log != [] {
      var init := log[..|log| - 1];
      UrgentMembership(init, s, v);
      assert forall k :: 0 <= k < |init| ==> init[k] == log[k];
    }
  }

  /** The anomaly at `timestamp` is recent at `now`: less than six minutes
      old, since `duration_cast<minutes>` truncates and the test is `<= 5`. */
  predicate Recent(a: AnomalyRecord, now: int)
  {
    TruncDiv(now - a.timestamp, MillisPerMinute) <= 5
  }

  /** The number of recent records of severity `sev`. */
  function CountRecent(rs: seq<AnomalyRecord>, now: int, sev: int): nat
  {
    if rs == [] then 0
    else CountRecent(rs[..|rs| - 1], now, sev) + (if Recent(rs[|rs| - 1], now) && rs[|rs| - 1].severity == sev then 1 else 0)
  }

  lemma {:induction false} CountRecentPositive(rs: seq<AnomalyRecord>, now: int, sev: int)
    ensures CountRecent(rs, now, sev) > 0 <==> exists k :: 0 <= k < |rs| && Recent(rs[k], now) && rs[k].severity == sev
  {
    if rs != [] {
      var init := rs[..|rs| - 1];
      CountRecentPositive(init, now, sev);
      assert forall k :: 0 <= k < |init| ==> init[k] == rs[k];
    }
  }

  /** The state `updateVehicleState` leaves: CRITICAL on any recent
      severity-5 record, else WARNING on more than two recent severity-4
      records, else NORMAL unless the vehicle is in MAINTENANCE; OFFLINE
      overrides all of these when the vehicle was last seen more than 30
      whole seconds ago. */
  function NextVehicleState(current: VehicleState, rs: seq<AnomalyRecord>, lastSeen: int, now: int): (s: VehicleState)
    ensures s == Maintenance ==> current == Maintenance
    ensures now - lastSeen >= 31 * MillisPerSecond ==> s == Offline
    ensures now - lastSeen < 31 * MillisPerSecond ==> s != Offline
  {
    var critical := CountRecent(rs, now, 5);
    var high := CountRecent(rs, now, 4);
    var s := if critical > 0 then Critical
             else if high > 2 then Warning
             else if current != Maintenance then Normal
             else current;
    if TruncDiv(now - lastSeen, MillisPerSecond) > 30 then Offline else s
  }

  predicate Stale(lastSeen: int, now: int)
  {
    TruncDiv(now - lastSeen, MillisPerSecond) > 30
  }

  /** The rule's five outcomes, each as an if-and-only-if. */
  lemma VehicleStateRule(current: VehicleState, rs: seq<AnomalyRecord>, lastSeen: int, now: int)
    ensures var s := NextVehicleState(current, rs, lastSeen, now);
      && (s == Offline <==> Stale(lastSeen, now))
      && (s == Critical <==>
            !Stale(lastSeen, now) && exists k :: 0 <= k < |rs| && Recent(rs[k], now) && rs[k].severity == 5)
      && (s == Warning <==> !Stale(lastSeen, now) && CountRecent(rs, now, 5) == 0 && CountRecent(rs, now, 4) > 2)
      && (s == Maintenance <==>
            !Stale(lastSeen, now) && CountRecent(rs, now, 5) == 0 && CountRecent(rs, now, 4) <= 2 && current == Maintenance)
      && (s == Normal <==>
            !Stale(lastSeen, now) && CountRecent(rs, now, 5) == 0 && CountRecent(rs, now, 4) <= 2 && current != Maintenance)
  {
    CountRecentPositive(rs, now, 5);
  }

  /** Thirty whole seconds: a vehicle seen at most 30.999 s ago is not
      stale, one seen 31 s ago or more is. */
  lemma StaleAfterThirtyOneSeconds(lastSeen: int, now: int)
    requires now >= lastSeen
    ensures Stale(lastSeen, now) <==> now - lastSeen >= 31 * MillisPerSecond
  {
  }

  // ---------------------------------------------------------------------
  // The synthetic reading generator
  // ---------------------------------------------------------------------

  /** The draws of one `generateEnhancedSyntheticReading` call: the base
      values from the manager's distributions, the three normal noises,
      the position the trigonometric location step produces, the two
      Bernoulli outcomes, and the unit draw a scenario scales. */
  datatype SyntheticDraws = SyntheticDraws(
    speed: real, rpm: real, temp: real, fuel: real, throttle: real,
    lat: real, lon: real, acceleration: real, brake: real, oil: real, battery: real,
    speedNoise: real, rpmNoise: real, tempNoise: real,
    nextLat: real, nextLon: real,
    absDraw: bool, tractionDraw: bool,
    scenarioUnit: real, brakeUnit: real)

  /** The ranges of the uniform distributions; the normal noises and the
      acceleration may be any value. */
  predicate ValidSyntheticDraws(d: SyntheticDraws)
  {
    && 20.0 <= d.speed < 120.0 && 800.0 <= d.rpm < 6000.0 && 80.0 <= d.temp < 95.0
    && 5.0 <= d.fuel < 95.0 && 0.0 <= d.throttle < 100.0
    && -90.0 <= d.lat < 90.0 && -90.0 <= d.lon < 90.0
    && 0.0 <= d.brake < 10.0 && 2.0 <= d.oil < 6.0 && 11.5 <= d.battery < 14.5
    && 0.0 <= d.scenarioUnit < 1.0 && 0.0 <= d.brakeUnit < 1.0
  }

  /** The fields the generator fills in, before the struct is built. */
  datatype Draft = Draft(speed: real, rpm: real, temp: real, fuel: real, throttle: real,
                         engineOn: bool, lat: real, lon: real, acceleration: real,
                         brake: real, oil: real, battery: real, odometer: int,
                         abs: bool, traction: bool)

  /** The base draws, then continuity from the newest reading of the
      window when there is one. */
  function ContinuedDraft(window: seq<Reading>, d: SyntheticDraws): (f: Draft)
    ensures f.engineOn && f.brake == d.brake && f.oil == d.oil && f.battery == d.battery
    ensures window == [] ==> f.odometer == 0 && f.speed == d.speed && f.fuel == d.fuel
    ensures window != [] ==>
      && f.speed >= 0.0 && f.rpm >= 0.0 && f.temp >= 0.0 && 0.0 <= f.fuel <= 100.0
      && f.odometer >= window[|window| - 1].odometer
  {
    var base := Draft(d.speed, d.rpm, d.temp, d.fuel, d.throttle, true, d.lat, d.lon, d.acceleration,
                      d.brake, d.oil, d.battery, 0, false, false);
    if window == [] then base
    else
      var last := window[|window| - 1];
      var speed := MaxReal(0.0, last.speed + d.speedNoise);
      var acceleration := (speed - last.speed) / 3.6;
      var harsh := Abs(acceleration) > 3.0;
      base.(speed := speed,
            rpm := MaxReal(0.0, last.rpm + d.rpmNoise),
            temp := MaxReal(0.0, last.temperature + d.tempNoise),
            fuel := MaxReal(0.0, if last.fuelLevel - 0.05 <= 100.0 then last.fuelLevel - 0.05 else 100.0),
            acceleration := acceleration,
            odometer := last.odometer + (speed / 3600.0).Floor,
            lat := d.nextLat,
            lon := d.nextLon,
            abs := if harsh then d.absDraw else false,
            traction := if harsh then d.tractionDraw else false)
  }

  /** `applyAnomalyScenario`; scenarios outside 1..10 change nothing. `u`
      is the scenario's uniform draw scaled to [0, 1); harsh braking draws a
      second one, `v`, for the brake pressure. */
  function ApplyScenario(scenario: int, f: Draft, window: seq<Reading>, u: real, v: real): (g: Draft)
    ensures NoScenario(scenario) ==> g == f
    ensures g.throttle == f.throttle && g.lat == f.lat && g.lon == f.lon && g.odometer == f.odometer
  {
    if scenario == 1 then f.(speed := 250.0 + 50.0 * u)
    else if scenario == 2 then f.(rpm := 9000.0 + 2000.0 * u)
    else if scenario == 3 then f.(temp := 120.0 + 20.0 * u)
    else if scenario == 4 then f.(speed := -10.0)
    else if scenario == 5 then f.(engineOn := false, rpm := 0.0, speed := 0.0)
    else if scenario == 6 then f.(acceleration := 8.0 + 4.0 * u, abs := true, traction := true)
    else if scenario == 7 then f.(acceleration := -8.0 - 4.0 * u, brake := 15.0 + 5.0 * v, abs := true)
    else if scenario == 8 then f.(oil := 0.5 + 0.3 * u)
    else if scenario == 9 then f.(battery := 9.0 + u)
    else if scenario == 10 && window != [] then f.(fuel := window[|window| - 1].fuelLevel - 5.0)
    else f
  }

  /** `generateEnhancedSyntheticReading(vid, scenario)` for a vehicle
      whose current window is `window`, at time `now`. */
  function SyntheticReading(vid: int, scenario: int, window: seq<Reading>, d: SyntheticDraws, now: int): (r: Reading)
    ensures r.vehicleId == vid && r.timestamp == now
  {
    var f0 := ContinuedDraft(window, d);
    var f := if scenario > 0 then ApplyScenario(scenario, f0, window, d.scenarioUnit, d.brakeUnit) else f0;
    NewReading(vid, f.speed, f.rpm, f.temp, f.fuel, f.throttle, f.engineOn, f.lat, f.lon, now).(
      acceleration := f.acceleration, brakePressure := f.brake, oilPressure := f.oil,
      batteryVoltage := f.battery, odometer := f.odometer,
      absActive := f.abs, tractionControlActive := f.traction)
  }

  predicate NoScenario(scenario: int) { scenario <= 0 || scenario > 10 }

  /** With a previous reading and no scenario, the continuity clamps hold:
      speed, rpm and temperature are non-negative, fuel is the previous
      level less 0.05 clamped into [0, 100], acceleration is the speed
      change in m/s, and the odometer does not go back. */
  lemma ContinuityClamps(vid: int, scenario: int, window: seq<Reading>, d: SyntheticDraws, now: int)
    requires window != [] && NoScenario(scenario)
    ensures var r := SyntheticReading(vid, scenario, window, d, now);
            var last := window[|window| - 1];
      && r.speed >= 0.0 && r.rpm >= 0.0 && r.temperature >= 0.0
      && 0.0 <= r.fuelLevel <= 100.0
      && r.fuelLevel == Clamp01(last.fuelLevel - 0.05)
      && r.acceleration == (r.speed - last.speed) / 3.6
      && r.odometer >= last.odometer
  {
  }

  /** `std::max(0.0, std::min(100.0, x))`. */
  function Clamp01(x: real): (y: real)
    ensures 0.0 <= y <= 100.0
    ensures 0.0 <= x <= 100.0 ==> y == x
  {
    if x < 0.0 then 0.0 else if x > 100.0 then 100.0 else x
  }

  /** A first reading with no scenario stays inside the distributions'
      ranges and reports the engine on with zero odometer. */
  lemma FirstReadingBounds(vid: int, scenario: int, d: SyntheticDraws, now: int)
    requires ValidSyntheticDraws(d) && NoScenario(scenario)
    ensures var r := SyntheticReading(vid, scenario, [], d, now);
      && 20.0 <= r.speed < 120.0 && 800.0 <= r.rpm < 6000.0 && 80.0 <= r.temperature < 95.0
      && 5.0 <= r.fuelLevel < 95.0 && 11.5 <= r.batteryVoltage < 14.5 && 2.0 <= r.oilPressure < 6.0
      && r.engineOn && r.odometer == 0 && !r.absActive && !r.tractionControlActive
  {
  }

  /** The value each scenario forces onto the reading. */
  lemma ScenarioValues(vid: int, scenario: int, window: seq<Reading>, d: SyntheticDraws, now: int)
    requires ValidSyntheticDraws(d) && 1 <= scenario <= 9
    ensures var r := SyntheticReading(vid, scenario, window, d, now);
      && (scenario == 1 ==> r.speed >= 250.0)
      && (scenario == 2 ==> r.rpm >= 9000.0)
      && (scenario == 3 ==> r.temperature >= 120.0)
      && (scenario == 4 ==> r.speed == -10.0)
      && (scenario == 5 ==> !r.engineOn && r.rpm == 0.0 && r.speed == 0.0)
      && (scenario == 6 ==> r.acceleration >= 8.0 && r.absActive && r.tractionControlActive)
      && (scenario == 7 ==> r.acceleration <= -8.0 && r.brakePressure >= 15.0 && r.absActive)
      && (scenario == 8 ==> r.oilPressure < 1.0 && r.engineOn)
      && (scenario == 9 ==> r.batteryVoltage < 10.0)
  {
  }

  /** Harsh braking takes its deceleration and its brake pressure from two
      separate draws. */
  lemma BrakingScenarioDraws(vid: int, window: seq<Reading>, d: SyntheticDraws, now: int)
    ensures var r := SyntheticReading(vid, 7, window, d, now);
      && r.acceleration == -8.0 - 4.0 * d.scenarioUnit
      && r.brakePressure == 15.0 + 5.0 * d.brakeUnit
      && r.absActive
  {
  }

  /** Every injected scenario except the engine stall (5) is caught by its
      range rule on the reading it produces, whatever the window. */
  lemma ScenariosAreDetected(vid: int, scenario: int, window: seq<Reading>, d: SyntheticDraws, now: int,
                             after: seq<Reading>, mlScore: real)
    requires ValidSyntheticDraws(d) && 1 <= scenario <= 9 && scenario != 5
    ensures var r := SyntheticReading(vid, scenario, window, d, now);
            var flagged := RangeDetections(r, after, mlScore);
      && (scenario == 1 || scenario == 4 ==> SpeedAlarm(r) in flagged)
      && (scenario == 2 ==> RpmAlarm(r) in flagged)
      && (scenario == 3 ==> TempAlarm(r) in flagged)
      && (scenario == 6 ==> AccelAlarm(r) in flagged && AccelAlarm(r).kind == HarshAcceleration)
      && (scenario == 7 ==> AccelAlarm(r) in flagged && AccelAlarm(r).kind == HarshBraking)
      && (scenario == 8 ==> OilAlarm(r) in flagged)
      && (scenario == 9 ==> BatteryAlarm(r) in flagged)
  {
    var r := SyntheticReading(vid, scenario, window, d, now);
    ScenarioValues(vid, scenario, window, d, now);
    RangeRules(r, after, mlScore);
    AccelAlarmKind(r);
  }

  /** Scenario 10 bypasses the clamp: a vehicle whose last fuel level was
      below 5 reports a negative level. */
  lemma FuelLeakScenarioGoesNegative(vid: int, window: seq<Reading>, d: SyntheticDraws, now: int)
    requires window != [] && window[|window| - 1].fuelLevel < 5.0
    ensures SyntheticReading(vid, 10, window, d, now).fuelLevel < 0.0
  {
  }

  /** Scenario 4 reports a negative speed, against the clamp. */
  lemma SensorFailureScenarioNegativeSpeed(vid: int, window: seq<Reading>, d: SyntheticDraws, now: int)
    ensures SyntheticReading(vid, 4, window, d, now).speed == -10.0
  {
  }

  /** One more detection recorded: the log grows by its record and the
      vehicle's count by one. */
  lemma RecordStep(log0: seq<AnomalyRecord>, ps0: map<int, VehicleProfile>, vid: int,
                   ds: seq<Detection>, i: nat, now: int)
    requires i < |ds|
    ensures log0 + ToRecords(vid, ds[..i], now) + [ToRecord(vid, ds[i], now)]
         == log0 + ToRecords(vid, ds[..i + 1], now)
    ensures BumpedBy(BumpedBy(ps0, vid, i), vid, 1) == BumpedBy(ps0, vid, i + 1)
  {
    ToRecordsSnoc(vid, ds, i, now);
    BumpTwice(ps0, vid, i, 1);
  }

  // ---------------------------------------------------------------------
  // The data manager's bookkeeping invariants
  // ---------------------------------------------------------------------

  /** `map[k]` on a map of record vectors. */
  function LookupRecords(detected: map<int, seq<AnomalyRecord>>, vid: int): seq<AnomalyRecord>
  {
    if vid in detected then detected[vid] else []
  }

  /** `vehicle_profiles[vid].total_anomalies += n` when the profile exists. */
  function BumpedBy(ps: map<int, VehicleProfile>, vid: int, n: nat): (qs: map<int, VehicleProfile>)
    ensures qs.Keys == ps.Keys
  {
    if vid in ps then ps[vid := ps[vid].(totalAnomalies := ps[vid].totalAnomalies + n)] else ps
  }

  lemma BumpTwice(ps: map<int, VehicleProfile>, vid: int, i: nat, j: nat)
    ensures BumpedBy(BumpedBy(ps, vid, i), vid, j) == BumpedBy(ps, vid, i + j)
  {
    if vid in ps {
      var p := ps[vid];
      var once := ps[vid := p.(totalAnomalies := p.totalAnomalies + i)];
      assert once[vid].totalAnomalies == p.totalAnomalies + i;
      assert once[vid := once[vid].(totalAnomalies := once[vid].totalAnomalies + j)]
          == ps[vid := p.(totalAnomalies := p.totalAnomalies + (i + j))];
    }
  }

  /** `vehicle_profiles[vid].current_state = s` when the profile exists. */
  function WithState(ps: map<int, VehicleProfile>, vid: int, s: VehicleState): (qs: map<int, VehicleProfile>)
    ensures qs.Keys == ps.Keys
  {
    if vid in ps then ps[vid := ps[vid].(currentState := s)] else ps
  }

  /** `updateVehicleProfile` when the vehicle has a profile. */
  function UpdateIfPresent(ps: map<int, VehicleProfile>, r: Reading, legKm: real): (qs: map<int, VehicleProfile>)
    ensures qs.Keys == ps.Keys
  {
    if r.vehicleId in ps then ps[r.vehicleId := UpdatedProfile(ps[r.vehicleId], r, legKm)] else ps
  }

  /** Each window is the last 200 readings fed for its vehicle. */
  ghost predicate WindowsTrack(windows: map<int, seq<Reading>>, fed: map<int, seq<Reading>>)
  {
    forall v :: WindowAt(windows, fed, v)
  }

  ghost predicate WindowAt(windows: map<int, seq<Reading>>, fed: map<int, seq<Reading>>, v: int)
  {
    && (v in windows <==> v in fed)
    && (v in fed ==> windows[v] == LastN(fed[v], WindowSize))
  }

  /** Each profile is in step with the readings fed for its vehicle. */
  ghost predicate HistoryTracks(ps: map<int, VehicleProfile>, fed: map<int, seq<Reading>>)
  {
    forall v :: HistoryAt(ps, fed, v)
  }

  ghost predicate HistoryAt(ps: map<int, VehicleProfile>, fed: map<int, seq<Reading>>, v: int)
  {
    v in ps ==> ProfileTracks(ps[v], Analytics.LookupHistory(fed, v))
  }

  /** `detected_anomalies` files every record of the log under its vehicle. */
  ghost predicate RecordsTrack(detected: map<int, seq<AnomalyRecord>>, log: seq<AnomalyRecord>)
  {
    forall v :: RecordsAt(detected, log, v)
  }

  ghost predicate RecordsAt(detected: map<int, seq<AnomalyRecord>>, log: seq<AnomalyRecord>, v: int)
  {
    LookupRecords(detected, v) == RecordsOf(log, v)
  }

  /** A profile's `total_anomalies` is the number of its vehicle's records. */
  ghost predicate CountsTrack(ps: map<int, VehicleProfile>, log: seq<AnomalyRecord>)
  {
    forall v :: CountAt(ps, log, v)
  }

  ghost predicate CountAt(ps: map<int, VehicleProfile>, log: seq<AnomalyRecord>, v: int)
  {
    v in ps ==> ps[v].totalAnomalies == |RecordsOf(log, v)|
  }

  lemma WindowsStep(windows: map<int, seq<Reading>>, fed: map<int, seq<Reading>>, r: Reading)
    requires WindowsTrack(windows, fed)
    ensures WindowsTrack(windows[r.vehicleId := Slide(Analytics.LookupHistory(windows, r.vehicleId), r, WindowSize)],
                         fed[r.vehicleId := Analytics.LookupHistory(fed, r.vehicleId) + [r]])
  {
    var vid := r.vehicleId;
    var h := Analytics.LookupHistory(fed, vid);
    var w := Analytics.LookupHistory(windows, vid);
    var windows' := windows[vid := Slide(w, r, WindowSize)];
    var fed' := fed[vid := h + [r]];
    forall v ensures WindowAt(windows', fed', v) {
      if v == vid {
        assert w == LastN(h, WindowSize) by {
          assert WindowAt(windows, fed, vid);
        }
        SlideHistory(h, r, WindowSize);
      } else {
        assert WindowAt(windows, fed, v);
      }
    }
  }

  lemma HistoryStep(ps: map<int, VehicleProfile>, fed: map<int, seq<Reading>>, r: Reading, legKm: real)
    requires HistoryTracks(ps, fed)
    ensures HistoryTracks(UpdateIfPresent(ps, r, legKm), fed[r.vehicleId := Analytics.LookupHistory(fed, r.vehicleId) + [r]])
  {
    var vid := r.vehicleId;
    var ps' := UpdateIfPresent(ps, r, legKm);
    var fed' := fed[vid := Analytics.LookupHistory(fed, vid) + [r]];
    forall v ensures HistoryAt(ps', fed', v) {
      assert HistoryAt(ps, fed, v);
      if v == vid && vid in ps {
        ProfileStep(ps[vid], Analytics.LookupHistory(fed, vid), r, legKm);
      }
    }
  }

  lemma RecordsStep(detected: map<int, seq<AnomalyRecord>>, log: seq<AnomalyRecord>, a: AnomalyRecord)
    requires RecordsTrack(detected, log)
    ensures RecordsTrack(detected[a.vehicleId := LookupRecords(detected, a.vehicleId) + [a]], log + [a])
  {
    var log' := log + [a];
    var detected' := detected[a.vehicleId := LookupRecords(detected, a.vehicleId) + [a]];
    assert log'[..|log'| - 1] == log;
    forall v ensures RecordsAt(detected', log', v) {
      assert RecordsAt(detected, log, v);
      assert RecordsOf(log', v) == RecordsOf(log, v) + (if a.vehicleId == v then [a] else []);
      if v != a.vehicleId {
        assert LookupRecords(detected', v) == LookupRecords(detected, v);
      }
    }
  }

  lemma CountsStep(ps: map<int, VehicleProfile>, log: seq<AnomalyRecord>, a: AnomalyRecord)
    requires CountsTrack(ps, log)
    ensures CountsTrack(BumpedBy(ps, a.vehicleId, 1), log + [a])
  {
    var log' := log + [a];
    assert log'[..|log'| - 1] == log;
    forall v ensures CountAt(BumpedBy(ps, a.vehicleId, 1), log', v) {
      assert CountAt(ps, log, v);
    }
  }

  lemma UrgentStep(log: seq<AnomalyRecord>, a: AnomalyRecord)
    ensures UrgentOf(log + [a]) == UrgentOf(log) + (if a.severity >= 4 then multiset{(a.severity, a.vehicleId)} else multiset{})
  {
    var log' := log + [a];
    assert log'[..|log'| - 1] == log;
  }

  /** A profile update leaves the anomaly count alone. */
  lemma UpdateKeepsCounts(ps: map<int, VehicleProfile>, log: seq<AnomalyRecord>, r: Reading, legKm: real)
    requires CountsTrack(ps, log)
    ensures CountsTrack(UpdateIfPresent(ps, r, legKm), log)
  {
    forall v ensures CountAt(UpdateIfPresent(ps, r, legKm), log, v) {
      assert CountAt(ps, log, v);
    }
  }

  /** The manager's ledgers, each in step with the readings fed and the
      records logged so far. */
  ghost predicate Books(windows: map<int, seq<Reading>>, detected: map<int, seq<AnomalyRecord>>,
                        ps: map<int, VehicleProfile>, queue: multiset<(int, int)>, total: int,
                        fed: map<int, seq<Reading>>, log: seq<AnomalyRecord>)
  {
    && WindowsTrack(windows, fed)
    && HistoryTracks(ps, fed)
    && RecordsTrack(detected, log)
    && CountsTrack(ps, log)
    && total == |log|
    && queue == UrgentOf(log)
  }

  /** Fresh profiles with no history and no anomalies start every ledger
      empty and in step. */
  lemma InitialBooks(ps: map<int, VehicleProfile>)
    requires forall i :: i in ps ==> ps[i].totalAnomalies == 0 && ProfileTracks(ps[i], [])
    ensures Books(map[], map[], ps, multiset{}, 0, map[], [])
  {
    forall v ensures HistoryAt(ps, map[], v) && CountAt(ps, [], v) && RecordsAt(map[], [], v) {
    }
  }

  /** Filing one record keeps every ledger in step. */
  lemma AddStep(windows: map<int, seq<Reading>>, detected: map<int, seq<AnomalyRecord>>,
                ps: map<int, VehicleProfile>, queue: multiset<(int, int)>, total: int,
                fed: map<int, seq<Reading>>, log: seq<AnomalyRecord>, a: AnomalyRecord)
    requires Books(windows, detected, ps, queue, total, fed, log)
    ensures Books(windows, detected[a.vehicleId := LookupRecords(detected, a.vehicleId) + [a]],
                  BumpedBy(ps, a.vehicleId, 1),
                  queue + (if a.severity >= 4 then multiset{(a.severity, a.vehicleId)} else multiset{}),
                  total + 1, fed, log + [a])
  {
    RecordsStep(detected, log, a);
    CountsStep(ps, log, a);
    BumpKeepsHistory(ps, fed, a.vehicleId, 1);
    UrgentStep(log, a);
  }

  /** Setting a vehicle's state keeps every ledger in step. */
  lemma StateStep(windows: map<int, seq<Reading>>, detected: map<int, seq<AnomalyRecord>>,
                  ps: map<int, VehicleProfile>, queue: multiset<(int, int)>, total: int,
                  fed: map<int, seq<Reading>>, log: seq<AnomalyRecord>, vid: int, s: VehicleState)
    requires Books(windows, detected, ps, queue, total, fed, log)
    ensures Books(windows, detected, WithState(ps, vid, s), queue, total, fed, log)
  {
    StateChangeKeepsTracks(ps, fed, log, vid, s);
  }

  /** Setting a vehicle's state touches neither its history nor its count. */
  lemma StateChangeKeepsTracks(ps: map<int, VehicleProfile>, fed: map<int, seq<Reading>>, log: seq<AnomalyRecord>,
                               vid: int, s: VehicleState)
    requires HistoryTracks(ps, fed) && CountsTrack(ps, log)
    ensures HistoryTracks(WithState(ps, vid, s), fed) && CountsTrack(WithState(ps, vid, s), log)
  {
    forall v ensures HistoryAt(WithState(ps, vid, s), fed, v) && CountAt(WithState(ps, vid, s), log, v) {
      assert HistoryAt(ps, fed, v) && CountAt(ps, log, v);
    }
  }

  /** Bumping a count touches no history. */
  lemma BumpKeepsHistory(ps: map<int, VehicleProfile>, fed: map<int, seq<Reading>>, vid: int, n: nat)
    requires HistoryTracks(ps, fed)
    ensures HistoryTracks(BumpedBy(ps, vid, n), fed)
  {
    forall v ensures HistoryAt(BumpedBy(ps, vid, n), fed, v) {
      assert HistoryAt(ps, fed, v);
    }
  }

  /** Counting anomalies does not move a profile's service date. */
  lemma MaintenanceIgnoresCounts(ps: map<int, VehicleProfile>, r: Reading, n: nat)
    ensures MaintenanceCheck(BumpedBy(ps, r.vehicleId, n), r) == MaintenanceCheck(ps, r)
  {
  }

  /** `checkMaintenanceRequirements` on the profiles: when service is due,
      one more anomaly on the vehicle's count and the state MAINTENANCE. */
  function MaintenanceStep(ps: map<int, VehicleProfile>, r: Reading): (qs: map<int, VehicleProfile>)
    ensures qs.Keys == ps.Keys
  {
    if MaintenanceCheck(ps, r) != [] then WithState(BumpedBy(ps, r.vehicleId, 1), r.vehicleId, Maintenance) else ps
  }

  /** The range rules' counts and then the maintenance check, as one update:
      service falls due exactly as it would have before counting, and the
      count goes up by one more when it does. */
  lemma DetectionBumps(ps: map<int, VehicleProfile>, r: Reading, n: nat)
    ensures MaintenanceStep(BumpedBy(ps, r.vehicleId, n), r)
         == (if MaintenanceCheck(ps, r) != []
             then WithState(BumpedBy(ps, r.vehicleId, n + 1), r.vehicleId, Maintenance)
             else BumpedBy(ps, r.vehicleId, n))
  {
    MaintenanceIgnoresCounts(ps, r, n);
    BumpTwice(ps, r.vehicleId, n, 1);
  }

  lemma LogsConcat(l0: seq<AnomalyRecord>, l1: seq<AnomalyRecord>, l2: seq<AnomalyRecord>,
                   a: seq<AnomalyRecord>, b: seq<AnomalyRecord>)
    requires l1 == l0 + a && l2 == l1 + b
    ensures l2 == l0 + (a + b)
  {
  }

  /** `qs` has the keys of `ps` and differs from it only at `vid`. */
  ghost predicate AgreesExcept(ps: map<int, VehicleProfile>, qs: map<int, VehicleProfile>, vid: int)
  {
    && qs.Keys == ps.Keys
    && forall v :: v in ps && v != vid ==> qs[v] == ps[v]
  }

  lemma AgreesExceptTrans(a: map<int, VehicleProfile>, b: map<int, VehicleProfile>, c: map<int, VehicleProfile>, vid: int)
    requires AgreesExcept(a, b, vid) && AgreesExcept(b, c, vid)
    ensures AgreesExcept(a, c, vid)
  {
  }

  /** The profile update of one reading touches no other vehicle. */
  lemma UpdateKeepsOthers(ps: map<int, VehicleProfile>, r: Reading, legKm: real)
    ensures AgreesExcept(ps, UpdateIfPresent(ps, r, legKm), r.vehicleId)
  {
  }

  /** The range rules' counts, the maintenance check and the geofence
      counts of one reading touch no other vehicle. */
  lemma DetectionKeepsOthers(ps: map<int, VehicleProfile>, r: Reading, n: nat, k: nat)
    ensures AgreesExcept(ps, BumpedBy(MaintenanceStep(BumpedBy(ps, r.vehicleId, n), r), r.vehicleId, k), r.vehicleId)
  {
    var vid := r.vehicleId;
    var p2 := BumpedBy(ps, vid, n);
    var p3 := MaintenanceStep(p2, r);
    var p4 := BumpedBy(p3, vid, k);
    assert AgreesExcept(ps, p2, vid);
    assert AgreesExcept(p2, p3, vid);
    assert AgreesExcept(p3, p4, vid);
    AgreesExceptTrans(ps, p2, p3, vid);
    AgreesExceptTrans(ps, p3, p4, vid);
  }

  /** After the counts and the maintenance check the vehicle's state is
      MAINTENANCE exactly when service was due, and its last-seen time is
      untouched. */
  lemma StateAfterDetection(ps: map<int, VehicleProfile>, r: Reading, n: nat, k: nat)
    requires r.vehicleId in ps
    ensures var q := BumpedBy(MaintenanceStep(BumpedBy(ps, r.vehicleId, n), r), r.vehicleId, k)[r.vehicleId];
      && q.currentState == (if MaintenanceDue(ps[r.vehicleId], r) then Maintenance else ps[r.vehicleId].currentState)
      && q.lastSeen == ps[r.vehicleId].lastSeen
  {
    MaintenanceIgnoresCounts(ps, r, n);
  }

  /** `updateVehicleState` on the profiles: a vehicle with a profile gets
      the state its recent records and its last contact call for. */
  function StateRefreshed(ps: map<int, VehicleProfile>, log: seq<AnomalyRecord>, vid: int, now: int): (qs: map<int, VehicleProfile>)
    ensures AgreesExcept(ps, qs, vid)
    ensures vid in qs ==> qs[vid].lastSeen == ps[vid].lastSeen && qs[vid].totalAnomalies == ps[vid].totalAnomalies
  {
    if vid in ps
    then WithState(ps, vid, NextVehicleState(ps[vid].currentState, RecordsOf(log, vid), ps[vid].lastSeen, now))
    else ps
  }

  /** The profiles after one reading's anomalies and state update: `n`
      range reports, the maintenance check, `k` geofence reports, then
      `updateVehicleState` over the log. */
  function ReportedProfiles(ps: map<int, VehicleProfile>, r: Reading, n: nat, k: nat,
                            log: seq<AnomalyRecord>, now: int): map<int, VehicleProfile>
  {
    StateRefreshed(BumpedBy(MaintenanceStep(BumpedBy(ps, r.vehicleId, n), r), r.vehicleId, k), log, r.vehicleId, now)
  }

  /** What one reading does to the profiles after the profile update: only
      the reading's vehicle changes, its state is the one its records call
      for, starting from MAINTENANCE when service fell due, its count grows
      by the reports, and every other field of its profile is kept. */
  lemma ReportOutcome(ps: map<int, VehicleProfile>, r: Reading, n: nat, k: nat, log: seq<AnomalyRecord>, now: int)
    ensures var vid := r.vehicleId;
      var qs := ReportedProfiles(ps, r, n, k, log, now);
      && AgreesExcept(ps, qs, vid)
      && (vid in qs ==>
            qs[vid].currentState
            == NextVehicleState(if MaintenanceDue(ps[vid], r) then Maintenance else ps[vid].currentState,
                                RecordsOf(log, vid), ps[vid].lastSeen, now))
      && (vid in qs ==>
            qs[vid]
            == ps[vid].(currentState := qs[vid].currentState,
                        totalAnomalies := ps[vid].totalAnomalies + n + (if MaintenanceDue(ps[vid], r) then 1 else 0) + k))
  {
    var vid := r.vehicleId;
    var ps3 := BumpedBy(MaintenanceStep(BumpedBy(ps, vid, n), r), vid, k);
    DetectionKeepsOthers(ps, r, n, k);
    if vid in ps3 {
      StateAfterDetection(ps, r, n, k);
      MaintenanceIgnoresCounts(ps, r, n);
    }
    AgreesExceptTrans(ps, ps3, StateRefreshed(ps3, log, vid, now), vid);
  }

  /** The whole profile of the reading's vehicle after `processSensorReading`:
      the updated profile (distance, last contact, route, speed statistics,
      harsh events), with its count grown by the reports and the state the
      rule calls for; make, plate, service date and interval are kept. */
  lemma ProcessedProfile(ps: map<int, VehicleProfile>, r: Reading, legKm: real, n: nat, k: nat,
                         log: seq<AnomalyRecord>, now: int)
    requires r.vehicleId in ps
    ensures var p := ps[r.vehicleId];
      var u := UpdatedProfile(p, r, legKm);
      var q := ReportedProfiles(UpdateIfPresent(ps, r, legKm), r, n, k, log, now)[r.vehicleId];
      && q == u.(currentState := q.currentState,
                 totalAnomalies := p.totalAnomalies + n + (if MaintenanceDue(u, r) then 1 else 0) + k)
      && q.totalDistanceKm == (if p.routeHistory == [] then p.totalDistanceKm else p.totalDistanceKm + legKm)
      && q.lastSeen == r.timestamp
      && q.lastMaintenance == p.lastMaintenance
  {
    ReportOutcome(UpdateIfPresent(ps, r, legKm), r, n, k, log, now);
  }

  lemma ToRecordsSnoc(vid: int, ds: seq<Detection>, i: nat, now: int)
    requires i < |ds|
    ensures ToRecords(vid, ds[..i + 1], now) == ToRecords(vid, ds[..i], now) + [ToRecord(vid, ds[i], now)]
  {
    assert ds[..i + 1][..i] == ds[..i];
  }

  // ---------------------------------------------------------------------
  // The data manager
  // ---------------------------------------------------------------------

  class AdvancedDataManager {
    var windows: map<int, seq<Reading>>
    var detected: map<int, seq<AnomalyRecord>>
    var profiles: map<int, VehicleProfile>
    /** `anomaly_priority_queue`: its `(severity, vehicle)` pairs. */
    var priorityQueue: multiset<(int, int)>
    var totalReadings: int
    var totalAnomalies: int
    var analytics: Analytics.AdvancedAnalytics
    /** Every reading processed, per vehicle, oldest first. */
    ghost var fed: map<int, seq<Reading>>
    /** Every anomaly recorded, oldest first. */
    ghost var log: seq<AnomalyRecord>

    ghost predicate Valid()
      reads this, analytics
    {
      && analytics.Valid() && analytics.pushed == fed
      && Books(windows, detected, profiles, priorityQueue, totalAnomalies, fed, log)
    }

    /** The constructor with `initializeVehicleProfiles`, at time `now`. */
    constructor (now: int)
      ensures Valid()
      ensures profiles == InitialProfiles(ProfileCount, now)
      ensures windows == map[] && detected == map[] && fed == map[] && log == []
      ensures totalReadings == 0 && totalAnomalies == 0 && priorityQueue == multiset{}
    {
      var ps := InitializeVehicleProfiles(now);
      InitialProfilesFresh(ProfileCount, now);
      InitialBooks(ps);
      windows, detected, profiles := map[], map[], ps;
      priorityQueue, totalReadings, totalAnomalies := multiset{}, 0, 0;
      analytics := new Analytics.AdvancedAnalytics();
      fed, log := map[], [];
    }

    /** `addEnhancedAnomaly`: file the record under its vehicle, count it,
        queue it when its severity is 4 or more, and count it on the
        vehicle's profile when there is one. */
    method AddEnhancedAnomaly(vid: int, sensor: string, value: real, kind: AnomalyType,
                              description: string, severity: int, location: string, now: int)
      requires Valid()
      modifies this
      ensures Valid()
      ensures var a := NewAnomalyRecord(vid, sensor, value, kind, description, severity, location, now);
        && log == old(log) + [a]
        && detected == old(detected)[vid := LookupRecords(old(detected), vid) + [a]]
      ensures totalAnomalies == old(totalAnomalies) + 1
      ensures priorityQueue == old(priorityQueue) + (if severity >= 4 then multiset{(severity, vid)} else multiset{})
      ensures profiles == BumpedBy(old(profiles), vid, 1)
      ensures windows == old(windows) && fed == old(fed) && totalReadings == old(totalReadings)
      ensures analytics == old(analytics)
    {
      var a := NewAnomalyRecord(vid, sensor, value, kind, description, severity, location, now);
      var queued := if severity >= 4 then multiset{(severity, vid)} else multiset{};
      AddStep(windows, detected, profiles, priorityQueue, totalAnomalies, fed, log, a);
      detected, profiles, priorityQueue, totalAnomalies, log :=
        detected[vid := LookupRecords(detected, vid) + [a]], BumpedBy(profiles, vid, 1),
        priorityQueue + queued, totalAnomalies + 1, log + [a];
      assert Books(windows, detected, profiles, priorityQueue, totalAnomalies, fed, log);
    }

    /** The `addEnhancedAnomaly` calls for a list of detections, in order. */
    method RecordDetections(vid: int, ds: seq<Detection>, now: int)
      requires Valid()
      modifies this
      ensures Valid()
      ensures log == old(log) + ToRecords(vid, ds, now)
      ensures profiles == BumpedBy(old(profiles), vid, |ds|)
      ensures windows == old(windows) && fed == old(fed) && totalReadings == old(totalReadings)
      ensures analytics == old(analytics)
    {
      ghost var log0, ps0 := log, profiles;
      var i := 0;
      while i < |ds|
        invariant 0 <= i <= |ds|
        invariant Valid()
        invariant log == log0 + ToRecords(vid, ds[..i], now)
        invariant profiles == BumpedBy(ps0, vid, i)
        invariant windows == old(windows) && fed == old(fed) && totalReadings == old(totalReadings)
        invariant analytics == old(analytics)
      {
        var d := ds[i];
        RecordStep(log0, ps0, vid, ds, i, now);
        AddEnhancedAnomaly(vid, d.sensor, d.value, d.kind, d.description, d.severity, d.location, now);
        i := i + 1;
      }
      assert ds[..|ds|] == ds;
    }

    /** `updateVehicleProfile`. */
    method UpdateVehicleProfile(r: Reading, legKm: real)
      requires r.vehicleId in profiles
      modifies this
      ensures profiles == UpdateIfPresent(old(profiles), r, legKm)
      ensures windows == old(windows) && detected == old(detected) && fed == old(fed) && log == old(log)
      ensures totalReadings == old(totalReadings) && totalAnomalies == old(totalAnomalies)
      ensures priorityQueue == old(priorityQueue) && analytics == old(analytics)
    {
      profiles := profiles[r.vehicleId := UpdatedProfile(profiles[r.vehicleId], r, legKm)];
    }

    /** `checkMaintenanceRequirements`: report a due service and put the
        vehicle in MAINTENANCE. Vehicles without a profile are skipped. */
    method CheckMaintenanceRequirements(r: Reading, now: int)
      requires Valid()
      modifies this
      ensures Valid()
      ensures log == old(log) + ToRecords(r.vehicleId, MaintenanceCheck(old(profiles), r), now)
      ensures profiles == MaintenanceStep(old(profiles), r)
      ensures windows == old(windows) && fed == old(fed) && totalReadings == old(totalReadings)
      ensures analytics == old(analytics)
    {
      var vid := r.vehicleId;
      if vid in profiles && MaintenanceDue(profiles[vid], r) {
        var d := MaintenanceDetection(profiles[vid]);
        assert MaintenanceCheck(profiles, r) == [d];
        AddEnhancedAnomaly(vid, d.sensor, d.value, d.kind, d.description, d.severity, d.location, now);
        assert ToRecords(vid, [d], now) == [ToRecord(vid, d, now)];
        StateStep(windows, detected, profiles, priorityQueue, totalAnomalies, fed, log, vid, Maintenance);
        profiles := WithState(profiles, vid, Maintenance);
      }
    }

    /** `detectEnhancedAnomalies`: every range rule that fires is recorded,
        then the maintenance check runs; the result says whether a range
        rule fired. */
    method DetectEnhancedAnomalies(current: Reading, window: seq<Reading>, mlScore: real, now: int)
      returns (found: bool)
      requires Valid()
      modifies this
      ensures Valid()
      ensures found <==> RangeDetections(current, window, mlScore) != []
      ensures log == old(log) + ToRecords(current.vehicleId,
                                          RangeDetections(current, window, mlScore) + MaintenanceCheck(old(profiles), current), now)
      ensures profiles == MaintenanceStep(BumpedBy(old(profiles), current.vehicleId,
                                                   |RangeDetections(current, window, mlScore)|), current)
      ensures windows == old(windows) && fed == old(fed) && totalReadings == old(totalReadings)
      ensures analytics == old(analytics)
    {
      var vid := current.vehicleId;
      var ranged := RangeDetections(current, window, mlScore);
      ghost var ps0 := profiles;
      RecordDetections(vid, ranged, now);
      ghost var ps1, log1 := profiles, log;
      found := ranged != [];
      ghost var m := MaintenanceCheck(ps0, current);
      MaintenanceIgnoresCounts(ps0, current, |ranged|);
      CheckMaintenanceRequirements(current, now);
      ToRecordsAppend(vid, ranged, m, now);
      LogsConcat(old(log), log1, log, ToRecords(vid, ranged, now), ToRecords(vid, m, now));
    }

    /** `checkGeofenceViolations` for the restricted zones containing the
        reading. */
    method CheckGeofenceViolations(r: Reading, zones: seq<string>, now: int)
      requires Valid()
      modifies this
      ensures Valid()
      ensures log == old(log) + ToRecords(r.vehicleId, GeofenceDetections(zones), now)
      ensures profiles == BumpedBy(old(profiles), r.vehicleId, |zones|)
      ensures windows == old(windows) && fed == old(fed) && totalReadings == old(totalReadings)
      ensures analytics == old(analytics)
    {
      RecordDetections(r.vehicleId, GeofenceDetections(zones), now);
    }

    /** `updateVehicleState`: count the vehicle's recent severity-5 and
        severity-4 records and apply `NextVehicleState`. */
    method UpdateVehicleState(vid: int, now: int)
      requires Valid()
      modifies this
      ensures Valid()
      ensures profiles == StateRefreshed(old(profiles), old(log), vid, now)
      ensures windows == old(windows) && detected == old(detected) && fed == old(fed) && log == old(log)
      ensures totalReadings == old(totalReadings) && totalAnomalies == old(totalAnomalies)
      ensures priorityQueue == old(priorityQueue) && analytics == old(analytics)
    {
      if vid !in profiles {
        return;
      }
      var p := profiles[vid];
      assert RecordsAt(detected, log, vid);
      var critical, high := CountRecentAnomalies(LookupRecords(detected, vid), now);
      var s := p.currentState;
      if critical > 0 {
        s := Critical;
      } else if high > 2 {
        s := Warning;
      } else if s != Maintenance {
        s := Normal;
      }
      if TruncDiv(now - p.lastSeen, MillisPerSecond) > 30 {
        s := Offline;
      }
      assert s == NextVehicleState(p.currentState, RecordsOf(log, vid), p.lastSeen, now);
      StateStep(windows, detected, profiles, priorityQueue, totalAnomalies, fed, log, vid, s);
      profiles := WithState(profiles, vid, s);
    }

    /** The first half of `processSensorReading`: the profile update, the
        200-reading window and the trend series. */
    method IngestReading(reading: Reading, legKm: real) returns (window: seq<Reading>)
      requires Valid()
      modifies this, analytics
      ensures Valid()
      ensures var vid := reading.vehicleId;
        && fed == old(fed)[vid := Analytics.LookupHistory(old(fed), vid) + [reading]]
        && window == Slide(Analytics.LookupHistory(old(windows), vid), reading, WindowSize)
        && windows == old(windows)[vid := window]
      ensures profiles == UpdateIfPresent(old(profiles), reading, legKm)
      ensures log == old(log) && totalReadings == old(totalReadings)
    {
      var vid := reading.vehicleId;
      ghost var ps0, fed0 := profiles, fed;
      if vid in profiles {
        UpdateVehicleProfile(reading, legKm);
      }
      assert profiles == UpdateIfPresent(ps0, reading, legKm);
      window := Slide(Analytics.LookupHistory(windows, vid), reading, WindowSize);
      WindowsStep(windows, fed, reading);
      HistoryStep(ps0, fed0, reading, legKm);
      UpdateKeepsCounts(ps0, log, reading, legKm);
      windows := windows[vid := window];
      fed := fed[vid := Analytics.LookupHistory(fed, vid) + [reading]];
      UpdateAnalytics(reading);
    }

    /** `analytics.updateTrends(vehicle_id, reading)`. */
    method UpdateAnalytics(reading: Reading)
      requires analytics.Valid()
      requires fed == analytics.pushed[reading.vehicleId := Analytics.LookupHistory(analytics.pushed, reading.vehicleId) + [reading]]
      modifies analytics
      ensures analytics.Valid() && analytics.pushed == fed
    {
      analytics.UpdateTrends(reading.vehicleId, reading);
    }

    /** The anomalies of one reading: the range rules and the maintenance
        check, then the geofences. */
    method RecordReadingAnomalies(reading: Reading, window: seq<Reading>, mlScore: real, zones: seq<string>, now: int)
      requires Valid()
      modifies this
      ensures Valid()
      ensures log == old(log) + ToRecords(reading.vehicleId,
                                          ReadingDetections(reading, window, mlScore, old(profiles), zones), now)
      ensures profiles == BumpedBy(MaintenanceStep(BumpedBy(old(profiles), reading.vehicleId,
                                                            |RangeDetections(reading, window, mlScore)|), reading),
                                   reading.vehicleId, |zones|)
      ensures windows == old(windows) && fed == old(fed) && totalReadings == old(totalReadings)
      ensures analytics == old(analytics)
    {
      var vid := reading.vehicleId;
      var found := DetectEnhancedAnomalies(reading, window, mlScore, now);
      ghost var log2 := log;
      CheckGeofenceViolations(reading, zones, now);
      ghost var ranged := RangeDetections(reading, window, mlScore);
      ghost var m := MaintenanceCheck(old(profiles), reading);
      ghost var geo := GeofenceDetections(zones);
      LogsConcat(old(log), log2, log, ToRecords(vid, ranged + m, now), ToRecords(vid, geo, now));
      ToRecordsAppend(vid, ranged + m, geo, now);
    }

    /** The second half of `processSensorReading`: the anomalies of the
        reading, then the vehicle's state. */
    method ReportReading(reading: Reading, window: seq<Reading>, mlScore: real, zones: seq<string>, now: int)
      requires Valid()
      modifies this
      ensures Valid()
      ensures log == old(log) + ToRecords(reading.vehicleId,
                                          ReadingDetections(reading, window, mlScore, old(profiles), zones), now)
      ensures profiles == ReportedProfiles(old(profiles), reading, |RangeDetections(reading, window, mlScore)|, |zones|, log, now)
      ensures AgreesExcept(old(profiles), profiles, reading.vehicleId)
      ensures var vid := reading.vehicleId;
        vid in profiles ==>
          profiles[vid].currentState
          == NextVehicleState(if MaintenanceDue(old(profiles)[vid], reading) then Maintenance else old(profiles)[vid].currentState,
                              RecordsOf(log, vid), old(profiles)[vid].lastSeen, now)
      ensures windows == old(windows) && fed == old(fed) && totalReadings == old(totalReadings)
    {
      var vid := reading.vehicleId;
      ghost var ps0, n := profiles, |RangeDetections(reading, window, mlScore)|;
      RecordReadingAnomalies(reading, window, mlScore, zones, now);
      UpdateVehicleState(vid, now);
      ReportOutcome(ps0, reading, n, |zones|, log, now);
    }

    /** `processSensorReading` for `reading`, with the haversine leg since
        the vehicle's last route point, the ML score, the restricted zones
        that contain the reading and the clock. */
    method ProcessSensorReading(reading: Reading, legKm: real, mlScore: real, zones: seq<string>, now: int)
      requires Valid()
      modifies this, analytics
      ensures Valid()
      ensures totalReadings == old(totalReadings) + 1
      ensures var vid := reading.vehicleId;
        && fed == old(fed)[vid := Analytics.LookupHistory(old(fed), vid) + [reading]]
        && windows == old(windows)[vid := Slide(Analytics.LookupHistory(old(windows), vid), reading, WindowSize)]
      ensures var vid := reading.vehicleId;
              var updated := UpdateIfPresent(old(profiles), reading, legKm);
        log == old(log) + ToRecords(vid, ReadingDetections(reading, windows[vid], mlScore, updated, zones), now)
      ensures var vid := reading.vehicleId;
              var updated := UpdateIfPresent(old(profiles), reading, legKm);
        profiles == ReportedProfiles(updated, reading, |RangeDetections(reading, windows[vid], mlScore)|, |zones|, log, now)
      ensures AgreesExcept(old(profiles), profiles, reading.vehicleId)
      ensures var vid := reading.vehicleId;
              var updated := UpdateIfPresent(old(profiles), reading, legKm);
        vid in profiles ==>
          profiles[vid].currentState
          == NextVehicleState(if MaintenanceDue(updated[vid], reading) then Maintenance else updated[vid].currentState,
                              RecordsOf(log, vid), reading.timestamp, now)
    {
      totalReadings := totalReadings + 1;
      var window := IngestReading(reading, legKm);
      ghost var ps1 := profiles;
      assert ps1 == UpdateIfPresent(old(profiles), reading, legKm);
      ReportReading(reading, window, mlScore, zones, now);
      assert window == windows[reading.vehicleId];
      UpdateKeepsOthers(old(profiles), reading, legKm);
      AgreesExceptTrans(old(profiles), ps1, profiles, reading.vehicleId);
    }

    /** `generateEnhancedSyntheticReading`, continuing from the vehicle's
        newest windowed reading. */
    function GenerateEnhancedSyntheticReading(vid: int, scenario: int, d: SyntheticDraws, now: int): (r: Reading)
      reads this
      ensures r.vehicleId == vid && r.timestamp == now
    {
      SyntheticReading(vid, scenario, Analytics.LookupHistory(windows, vid), d, now)
    }

    /** The generator continues from the last reading processed for the
        vehicle, even though the window dropped older ones. */
    lemma GeneratorContinuesFromLastReading(vid: int, scenario: int, d: SyntheticDraws, now: int)
      requires Valid() && vid in fed && fed[vid] != []
      ensures GenerateEnhancedSyntheticReading(vid, scenario, d, now)
           == SyntheticReading(vid, scenario, [fed[vid][|fed[vid]| - 1]], d, now)
    {
      var h := fed[vid];
      assert WindowAt(windows, fed, vid);
      var w := windows[vid];
      assert w != [] && w[|w| - 1] == h[|h| - 1];
      SyntheticUsesNewestOnly(vid, scenario, w, [h[|h| - 1]], d, now);
    }
  }

  /** The counting loop of `updateVehicleState`: recent records of
      severity 5, and recent records of severity 4. */
  method CountRecentAnomalies(rs: seq<AnomalyRecord>, now: int) returns (critical: nat, high: nat)
    ensures critical == CountRecent(rs, now, 5) && high == CountRecent(rs, now, 4)
  {
    critical, high := 0, 0;
    var i := 0;
    while i < |rs|
      invariant 0 <= i <= |rs|
      invariant critical == CountRecent(rs[..i], now, 5)
      invariant high == CountRecent(rs[..i], now, 4)
    {
      assert rs[..i + 1][..i] == rs[..i];
      var a := rs[i];
      if TruncDiv(now - a.timestamp, MillisPerMinute) <= 5 {
        if a.severity == 5 {
          critical := critical + 1;
        } else if a.severity == 4 {
          high := high + 1;
        }
      }
      i := i + 1;
    }
    assert rs[..|rs|] == rs;
  }

  /** The generator reads only the newest reading of the window. */
  lemma SyntheticUsesNewestOnly(vid: int, scenario: int, w: seq<Reading>, w': seq<Reading>, d: SyntheticDraws, now: int)
    requires w != [] && w' != [] && w[|w| - 1] == w'[|w'| - 1]
    ensures SyntheticReading(vid, scenario, w, d, now) == SyntheticReading(vid, scenario, w', d, now)
  {
    assert ContinuedDraft(w, d) == ContinuedDraft(w', d);
    forall f: Draft ensures ApplyScenario(scenario, f, w, d.scenarioUnit, d.brakeUnit) == ApplyScenario(scenario, f, w', d.scenarioUnit, d.brakeUnit) {
    }
  }

  lemma ToRecordsAppend(vid: int, a: seq<Detection>, b: seq<Detection>, now: int)
    ensures ToRecords(vid, a + b, now) == ToRecords(vid, a, now) + ToRecords(vid, b, now)
  {
    var l := ToRecords(vid, a + b, now);
    var r := ToRecords(vid, a, now) + ToRecords(vid, b, now);
    assert |l| == |r|;
    forall k | 0 <= k < |l| ensures l[k] == r[k] {
      if k < |a| {
        assert (a + b)[k] == a[k];
      } else {
        assert (a + b)[k] == b[k - |a|];
      }
    }
  }
}
