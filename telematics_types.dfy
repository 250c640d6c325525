/**
 * The records of the C++ telematics engine (advanced_telematics.cpp):
 * anomaly taxonomy, vehicle states, alert priorities, the sensor reading
 * and the anomaly record with its priority clamp and display labels.
 *
 * `double` becomes `real` (exact arithmetic). A `system_clock::time_point`
 * becomes an `int` count of milliseconds; `duration_cast` to a coarser unit
 * truncates toward zero, which `TruncDiv` spells out.
 */
module TelematicsTypes {

  datatype AnomalyType =
    | SpeedOutOfRange | RpmOutOfRange | TempOutOfRange
    | SuddenSpeedChange | SuddenRpmChange | SuddenTempChange
    | EngineStall | OverheatingPattern | ErraticBehavior
    | SensorFailure | FuelLeak | MaintenanceRequired
    | GeofenceViolation | HarshAcceleration | HarshBraking

  datatype VehicleState = Normal | Warning | Critical | Offline | Maintenance

  /** `enum class AlertPriority { LOW = 1, ..., EMERGENCY = 5 }`. */
  datatype AlertPriority = Low | Medium | High | Urgent | Emergency

  function PriorityLevel(p: AlertPriority): (l: int)
    ensures 1 <= l <= 5
  {
    match p
    case Low => 1
    case Medium => 2
    case High => 3
    case Urgent => 4
    case Emergency => 5
  }

  /** `static_cast<AlertPriority>(l)` for an in-range level. */
  function PriorityOfLevel(l: int): (p: AlertPriority)
    requires 1 <= l <= 5
    ensures PriorityLevel(p) == l
  {
    if l == 1 then Low else if l == 2 then Medium else if l == 3 then High else if l == 4 then Urgent else Emergency
  }

  /** One telemetry sample. `timestamp` is in milliseconds. */
  datatype Reading = Reading(
    timestamp: int,
    vehicleId: int,
    speed: real,
    rpm: real,
    temperature: real,
    fuelLevel: real,
    throttle: real,
    engineOn: bool,
    latitude: real,
    longitude: real,
    acceleration: real,
    brakePressure: real,
    oilPressure: real,
    batteryVoltage: real,
    odometer: int,
    absActive: bool,
    tractionControlActive: bool)

  /** The struct's default-initialised fields with the positional
      constructor's arguments filled in. */
  function NewReading(vid: int, speed: real, rpm: real, temp: real, fuel: real, throttle: real,
                      engine: bool, lat: real, lon: real, now: int): (r: Reading)
    ensures r.timestamp == now && r.vehicleId == vid && r.speed == speed && r.rpm == rpm
    ensures r.temperature == temp && r.fuelLevel == fuel && r.throttle == throttle && r.engineOn == engine
    ensures r.latitude == lat && r.longitude == lon
    ensures r.acceleration == 0.0 && r.brakePressure == 0.0 && r.oilPressure == 0.0
    ensures r.batteryVoltage == 12.0 && r.odometer == 0 && !r.absActive && !r.tractionControlActive
  {
    Reading(now, vid, speed, rpm, temp, fuel, throttle, engine, lat, lon,
            0.0, 0.0, 0.0, 12.0, 0, false, false)
  }

  datatype AnomalyRecord = AnomalyRecord(
    timestamp: int,
    vehicleId: int,
    sensorName: string,
    value: real,
    kind: AnomalyType,
    description: string,
    severity: int,
    priority: AlertPriority,
    acknowledged: bool,
    locationInfo: string)

  function Clamp(lo: int, hi: int, x: int): int
    requires lo <= hi
  {
    if x < lo then lo else if x > hi then hi else x
  }

  /** The record constructor: the severity is kept as given, the priority is
      the severity clamped into 1..5. */
  function NewAnomalyRecord(vid: int, sensor: string, value: real, kind: AnomalyType,
                            desc: string, sev: int, loc: string, now: int): (a: AnomalyRecord)
    ensures a.severity == sev && a.vehicleId == vid && a.kind == kind && a.timestamp == now
    ensures a.sensorName == sensor && a.value == value && a.description == desc && a.locationInfo == loc
    ensures !a.acknowledged
    ensures 1 <= sev <= 5 ==> PriorityLevel(a.priority) == sev
    ensures sev < 1 ==> a.priority == Low
    ensures sev > 5 ==> a.priority == Emergency
  {
    AnomalyRecord(now, vid, sensor, value, kind, desc, sev, PriorityOfLevel(Clamp(1, 5, sev)), false, loc)
  }

  /** `getSeverityString`: LOW, MINOR, MODERATE, HIGH, CRITICAL for 1..5. */
  function SeverityString(sev: int): (r: string)
    ensures r == "UNKNOWN" <==> !(1 <= sev <= 5)
  {
    match sev
    case 1 => "LOW"
    case 2 => "MINOR"
    case 3 => "MODERATE"
    case 4 => "HIGH"
    case 5 => "CRITICAL"
    case _ => "UNKNOWN"
  }

  /** Within 1..5 each severity has its own label. */
  lemma SeverityStringInjective(a: int, b: int)
    requires 1 <= a <= 5 && 1 <= b <= 5
    ensures SeverityString(a) == SeverityString(b) <==> a == b
  {
  }

  /** `getTypeString`: a short label per type; the `default` arm cannot be
      reached from an `enum class` value. */
  function TypeString(t: AnomalyType): (r: string)
    ensures r != "UNKNOWN" && |r| > 0
  {
    match t
    case SpeedOutOfRange => "SPEED_RANGE"
    case RpmOutOfRange => "RPM_RANGE"
    case TempOutOfRange => "TEMP_RANGE"
    case SuddenSpeedChange => "SPEED_SPIKE"
    case SuddenRpmChange => "RPM_SPIKE"
    case SuddenTempChange => "TEMP_SPIKE"
    case EngineStall => "ENGINE_STALL"
    case OverheatingPattern => "OVERHEATING"
    case ErraticBehavior => "ERRATIC"
    case SensorFailure => "SENSOR_FAIL"
    case FuelLeak => "FUEL_LEAK"
    case MaintenanceRequired => "MAINTENANCE"
    case GeofenceViolation => "GEOFENCE"
    case HarshAcceleration => "HARSH_ACCEL"
    case HarshBraking => "HARSH_BRAKE"
  }

  /** No two types share a label, so a log line identifies its type. */
  lemma TypeStringInjective(a: AnomalyType, b: AnomalyType)
    ensures TypeString(a) == TypeString(b) <==> a == b
  {
  }

  /** `duration_cast`: integer division rounding toward zero. */
  function TruncDiv(a: int, b: int): (q: int)
    requires b > 0
    ensures a >= 0 ==> q * b <= a < (q + 1) * b
    ensures a < 0 ==> (q - 1) * b < a <= q * b
  {
    if a >= 0 then a / b else -((-a) / b)
  }

  const MillisPerSecond: int := 1000
  const MillisPerMinute: int := 60000
  const MillisPerHour: int := 3600000
}
