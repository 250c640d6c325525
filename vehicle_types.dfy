/**
 * The records the browser dashboard passes around (app/types/vehicle.ts).
 *
 * JavaScript numbers become `real` (exact arithmetic) except where the
 * program only ever stores whole numbers (ids, counters, severities,
 * the odometer and the outlier count), which become `int`. The TypeScript
 * field `type` is called `kind` here because `type` is a Dafny keyword.
 */
module VehicleTypes {

  datatype Option<T> = None | Some(value: T)

  /** One instantaneous telemetry snapshot. */
  datatype SensorReading = SensorReading(
    speed: real,
    rpm: real,
    temperature: real,
    fuelLevel: real,
    throttlePosition: real,
    engineOn: bool,
    latitude: real,
    longitude: real,
    acceleration: real,
    brakePressure: real,
    oilPressure: real,
    batteryVoltage: real,
    odometer: int,
    absActive: bool,
    tractionControlActive: bool)

  /** The string union "NORMAL" | "WARNING" | "CRITICAL" | "OFFLINE" | "MAINTENANCE". */
  datatype VehicleState = Normal | Warning | Critical | Offline | Maintenance

  /** The string union "LOW" | "MEDIUM" | "HIGH" | "CRITICAL" | "EMERGENCY". */
  datatype Priority = Low | Medium | High | Critical | Emergency

  datatype Vehicle = Vehicle(
    id: int,
    makeModel: string,
    licensePlate: string,
    state: VehicleState,
    lastSeen: string,
    totalDistance: real,
    avgSpeed: real,
    maxSpeed: real,
    harshEvents: int,
    totalAnomalies: int,
    currentReading: SensorReading)

  datatype Anomaly = Anomaly(
    timestamp: string,
    vehicleId: int,
    sensorName: string,
    value: real,
    kind: string,
    description: string,
    severity: int,
    priority: Priority,
    acknowledged: bool,
    location: Option<string>,
    mlScore: Option<real>)

  datatype Statistics = Statistics(
    mean: real,
    median: real,
    stdDeviation: real,
    min: real,
    max: real,
    percentile95: real,
    trendSlope: real,
    coefficientOfVariation: real,
    outlierCount: int)

  datatype AnomalySummary = AnomalySummary(critical: nat, high: nat, medium: nat, low: nat)

  /** `severity` is one of "low", "medium", "high". */
  datatype Prediction = Prediction(kind: string, description: string, severity: string, confidence: real)

  datatype VehicleAnalytics = VehicleAnalytics(
    speed: Statistics,
    rpm: Statistics,
    temperature: Statistics,
    fuel: Statistics,
    acceleration: Statistics,
    anomalySummary: AnomalySummary,
    predictions: seq<Prediction>)

  /** `kind` is one of "info", "warning", "error". */
  datatype SystemEvent = SystemEvent(timestamp: string, kind: string, message: string)

  datatype SystemStats = SystemStats(
    totalReadings: int,
    totalAnomalies: int,
    readingsPerSecond: int,
    systemHealth: real,
    memoryUsage: real,
    cpuUsage: real,
    uptime: string,
    recentEvents: seq<SystemEvent>)
}
