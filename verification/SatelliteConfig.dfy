/** include/SatelliteConfig.h, as far as the modelled code reads it. */
module SatelliteConfig {
  import opened Numeric

  datatype Config = Config(
    satelliteName: string,
    telemetryMaxFrameQueueDepth: uint32,
    commandMaxQueueDepth: uint32,
    batteryVoltageMinV: Double,
    batteryVoltageMaxV: Double,
    temperatureMinC: Double,
    temperatureMaxC: Double,
    cpuUsageMaxPct: uint8,
    memoryUsageMaxPct: uint8)

  /** The values a Config has before ConfigLoader fills it in, and keeps if loading fails. */
  const DEFAULTS: Config :=
    Config("UNKNOWN", 64, 32, Finite(6.5), Finite(8.4), Finite(-20.0), Finite(85.0), 90, 85)
}
