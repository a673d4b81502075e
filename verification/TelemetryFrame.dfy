/** include/TelemetryFrame.h */
module TelemetryFrame {
  import opened Numeric

  /** One snapshot of all subsystem telemetry values. */
  datatype Frame = Frame(
    frameId: uint64,
    timestampMs: uint64,
    satelliteId: string,
    batteryVoltageV: Double,
    batteryCurrentMa: Double,
    solarInputW: Double,
    chargePct: uint8,
    obcTempC: Double,
    batteryTempC: Double,
    payloadTempC: Double,
    cpuUsagePct: uint8,
    memoryUsagePct: uint8,
    uptimeS: uint64,
    faultActive: bool,
    safeMode: bool,
    lastFaultCode: uint32)

  /** All six floating-point fields are finite. */
  predicate AllFinite(f: Frame) {
    && f.batteryVoltageV.Finite?
    && f.batteryCurrentMa.Finite?
    && f.solarInputW.Finite?
    && f.obcTempC.Finite?
    && f.batteryTempC.Finite?
    && f.payloadTempC.Finite?
  }
}
