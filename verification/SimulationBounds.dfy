/** What the simulated loads and readings of src/main.cpp can and cannot trigger. */
module SimulationBounds {
  import opened Numeric
  import opened Wrappers
  import opened TelemetryFrame
  import opened SatelliteConfig
  import opened FaultDetector
  import opened FlagTracking
  import opened Simulation

  // ------------------------------------------------------------------ safe mode

  /** The first frame whose simulated CPU load exceeds the threshold: 30 + id % 60 > cpuMax. */
  function FirstCpuOverload(cfg: Config): Option<nat> {
    if cfg.cpuUsageMaxPct > 88 then None
    else Some(if cfg.cpuUsageMaxPct < 29 then 0 else cfg.cpuUsageMaxPct - 29)
  }

  /** The first frame whose simulated memory load exceeds the threshold: 40 + id % 45 > memMax. */
  function FirstMemoryOverload(cfg: Config): Option<nat> {
    if cfg.memoryUsageMaxPct > 83 then None
    else Some(if cfg.memoryUsageMaxPct < 39 then 0 else cfg.memoryUsageMaxPct - 39)
  }

  predicate ReachedBy(first: Option<nat>, i: nat) {
    first.Some? && first.value <= i
  }

  lemma CpuLoad(cfg: Config, samples: seq<Sample>, j: nat)
    requires j < |samples|
    ensures Violates(cfg, Raw(cfg, samples, j), CPU_OVERLOAD) ==> ReachedBy(FirstCpuOverload(cfg), j)
    ensures FirstCpuOverload(cfg) == Some(j) ==> Violates(cfg, Raw(cfg, samples, j), CPU_OVERLOAD)
  {
  }

  lemma MemoryLoad(cfg: Config, samples: seq<Sample>, j: nat)
    requires j < |samples|
    ensures Violates(cfg, Raw(cfg, samples, j), MEMORY_OVERLOAD) ==> ReachedBy(FirstMemoryOverload(cfg), j)
    ensures FirstMemoryOverload(cfg) == Some(j) ==> Violates(cfg, Raw(cfg, samples, j), MEMORY_OVERLOAD)
  {
  }

  /**
   * Safe mode is entered exactly at the earlier of the two first overloads, for all thresholds
   * and in runs of any length: a frame carries it iff one of them has been reached.
   */
  lemma ExactSafeModeEntry(cfg: Config, samples: seq<Sample>, i: nat)
    requires i < |samples|
    ensures Flight(cfg, samples)[i].safeMode <==>
              ReachedBy(FirstCpuOverload(cfg), i) || ReachedBy(FirstMemoryOverload(cfg), i)
  {
    hide Raw, Violates, Emitted, Flight, LastFaultCode, Violating, FirstCpuOverload, FirstMemoryOverload;
    var raws := Raws(cfg, samples);
    FlightIsEmission(cfg, samples);
    FlagsRefineHistory(cfg, raws, i);
    if OverloadedBy(cfg, raws, i) {
      var j :| 0 <= j <= i && Overloaded(cfg, raws[j]);
      CpuLoad(cfg, samples, j);
      MemoryLoad(cfg, samples, j);
    }
    if ReachedBy(FirstCpuOverload(cfg), i) {
      CpuLoad(cfg, samples, FirstCpuOverload(cfg).value);
      assert Overloaded(cfg, raws[FirstCpuOverload(cfg).value]);
    }
    if ReachedBy(FirstMemoryOverload(cfg), i) {
      MemoryLoad(cfg, samples, FirstMemoryOverload(cfg).value);
      assert Overloaded(cfg, raws[FirstMemoryOverload(cfg).value]);
    }
  }

  // ------------------------------------------------------------------ runs without faults

  /** The thresholds leave room for everything the simulation generates. */
  predicate CoverSimulation(cfg: Config) {
    && !Less(Finite(6.6), cfg.batteryVoltageMinV) && !Less(cfg.batteryVoltageMaxV, Finite(8.2))
    && !Less(Finite(10.0), cfg.temperatureMinC) && !Less(cfg.temperatureMaxC, Finite(40.0))
    && cfg.cpuUsageMaxPct >= 89
    && cfg.memoryUsageMaxPct >= 84
  }

  /** No frame of any run reports a fault. */
  ghost predicate NeverFaults(cfg: Config) {
    forall samples: seq<Sample>, i :: 0 <= i < |samples| ==> !Flight(cfg, samples)[i].faultActive
  }

  lemma QuietWhenCovered(cfg: Config, id: uint64, name: string, sample: Sample)
    requires CoverSimulation(cfg)
    ensures !Violating(cfg, GenerateFrame(id, name, sample, CLEAR))
  {
  }

  /** A reading at one end of its range, or a load at its peak, violates any threshold short of it. */
  lemma LoudWhenNotCovered(cfg: Config, name: string, low: Sample, high: Sample)
    requires low.cycle == low.obcPhase == -1.0 && high.cycle == high.obcPhase == 1.0
    ensures Less(Finite(6.6), cfg.batteryVoltageMinV) || Less(Finite(10.0), cfg.temperatureMinC) ==>
              Violating(cfg, GenerateFrame(0, name, low, CLEAR))
    ensures Less(cfg.batteryVoltageMaxV, Finite(8.2)) || Less(cfg.temperatureMaxC, Finite(40.0)) ==>
              Violating(cfg, GenerateFrame(0, name, high, CLEAR))
    ensures cfg.cpuUsageMaxPct < 89 ==> Violating(cfg, GenerateFrame(59, name, high, CLEAR))
    ensures cfg.memoryUsageMaxPct < 84 ==> Violating(cfg, GenerateFrame(44, name, high, CLEAR))
  {
    var f, g := GenerateFrame(0, name, low, CLEAR), GenerateFrame(0, name, high, CLEAR);
    var p, q := GenerateFrame(59, name, high, CLEAR), GenerateFrame(44, name, high, CLEAR);
    assert f.batteryVoltageV == Finite(6.6) && f.obcTempC == Finite(10.0);
    assert g.batteryVoltageV == Finite(8.2) && g.obcTempC == Finite(40.0);
    if Less(Finite(10.0), cfg.temperatureMinC) {
      assert Violates(cfg, f, UNDER_TEMPERATURE) || Violates(cfg, f, OVER_TEMPERATURE);
    }
    if Less(Finite(6.6), cfg.batteryVoltageMinV) { assert Violates(cfg, f, LOW_BATTERY); }
    if Less(cfg.batteryVoltageMaxV, Finite(8.2)) { assert Violates(cfg, g, LOW_BATTERY); }
    if Less(cfg.temperatureMaxC, Finite(40.0)) { assert Violates(cfg, g, OVER_TEMPERATURE); }
    if cfg.cpuUsageMaxPct < 89 { assert p.cpuUsagePct == 89 && Violates(cfg, p, CPU_OVERLOAD); }
    if cfg.memoryUsageMaxPct < 84 { assert q.memoryUsagePct == 84 && Violates(cfg, q, MEMORY_OVERLOAD); }
  }

  lemma ActiveIffViolating(cfg: Config, samples: seq<Sample>, i: nat)
    requires i < |samples|
    ensures Flight(cfg, samples)[i].faultActive <==> Violating(cfg, Raw(cfg, samples, i))
  {
    hide Raw, Emitted, Flight, LastFaultCode, Violating;
    FlightIsEmission(cfg, samples);
    FlagsRefineHistory(cfg, Raws(cfg, samples), i);
  }

  /** A run is free of faults whatever the sines are if and only if the thresholds leave room. */
  lemma FaultFreeIffCovered(cfg: Config)
    ensures NeverFaults(cfg) <==> CoverSimulation(cfg)
  {
    hide Flight, Violating, GenerateFrame;
    if CoverSimulation(cfg) {
      forall samples: seq<Sample>, i: nat | i < |samples|
        ensures !Flight(cfg, samples)[i].faultActive
      {
        ActiveIffViolating(cfg, samples, i);
        QuietWhenCovered(cfg, i % TWO_TO_64, cfg.satelliteName, samples[i]);
      }
    } else {
      var low, high := Sample(0, 0, -1.0, -1.0, 0.0, 0.0), Sample(0, 0, 1.0, 1.0, 0.0, 0.0);
      var lows, highs := [low], seq(60, _ => high);
      LoudWhenNotCovered(cfg, cfg.satelliteName, low, high);
      ActiveIffViolating(cfg, lows, 0);
      ActiveIffViolating(cfg, highs, 0);
      ActiveIffViolating(cfg, highs, 59);
      ActiveIffViolating(cfg, highs, 44);
    }
  }

  /** ... and then none of the three flags is ever raised. */
  lemma CoveredRunStaysClear(cfg: Config, samples: seq<Sample>, i: nat)
    requires CoverSimulation(cfg) && i < |samples|
    ensures var f := Flight(cfg, samples)[i]; !f.faultActive && !f.safeMode && f.lastFaultCode == 0
  {
    hide Raw, Emitted, Flight, Violating, Violates;
    var raws := Raws(cfg, samples);
    FlightIsEmission(cfg, samples);
    FlagsRefineHistory(cfg, raws, i);
    ExactSafeModeEntry(cfg, samples, i);
    forall j | 0 <= j <= i ensures !Violating(cfg, raws[j]) {
      QuietWhenCovered(cfg, j % TWO_TO_64, cfg.satelliteName, samples[j]);
      DefinitionOfRaw(cfg, samples, j);
    }
  }

  /** The default thresholds are such: a default run of any length reports nothing. */
  lemma DefaultRunIsFaultFree(samples: seq<Sample>, i: nat)
    requires i < |samples|
    ensures var f := Flight(DEFAULTS, samples)[i]; !f.faultActive && !f.safeMode && f.lastFaultCode == 0
  {
    CoveredRunStaysClear(DEFAULTS, samples, i);
  }

  lemma DefinitionOfRaw(cfg: Config, samples: seq<Sample>, j: nat)
    requires j < |samples|
    ensures Raws(cfg, samples)[j] == GenerateFrame(j % TWO_TO_64, cfg.satelliteName, samples[j], CLEAR)
  {
  }
}
