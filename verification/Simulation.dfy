/** generateFrame of src/main.cpp and the frames the main loop makes of it. */
module Simulation {
  import opened Numeric
  import opened TelemetryFrame
  import opened SatelliteConfig
  import opened FaultDetector
  import opened FlagTracking

  /** A value of std::sin. */
  type Sine = x: real | -1.0 <= x <= 1.0

  /** What one iteration reads from outside: the clocks, and the sines of its four phases. */
  datatype Sample = Sample(
    timestampMs: uint64,
    uptimeS: uint64,
    cycle: Sine,
    obcPhase: Sine,
    batteryPhase: Sine,
    payloadPhase: Sine)

  function Abs(x: real): real {
    if x < 0.0 then -x else x
  }

  function MinReal(a: real, b: real): real {
    if b < a then b else a
  }

  function MaxReal(a: real, b: real): real {
    if a < b then b else a
  }

  /** Every conversion to uint8_t in here is in range, whatever the sines are. */
  function GenerateFrame(frameId: uint64, satelliteId: string, sample: Sample, flags: Flags): Frame {
    Frame(frameId,
          sample.timestampMs,
          satelliteId,
          Finite(7.4 + 0.8 * sample.cycle),
          Finite(300.0 + 150.0 * Abs(sample.cycle)),
          Finite(MaxReal(0.0, 12.0 * sample.cycle)),
          MinReal(100.0, 50.0 + 40.0 * sample.cycle).Floor,
          Finite(25.0 + 15.0 * sample.obcPhase),
          Finite(20.0 + 10.0 * sample.batteryPhase),
          Finite(30.0 + 20.0 * sample.payloadPhase),
          30 + frameId % 60,
          40 + frameId % 45,
          sample.uptimeS,
          flags.faultActive,
          flags.safeMode,
          flags.faultCode)
  }

  /** The locals of main's loop. */
  datatype Locals = Locals(frameId: uint64, flags: Flags)

  /** Steps 1 to 3 of an iteration: generate with the current flags, evaluate, stamp. */
  function Iterated(cfg: Config, st: Locals, sample: Sample): (Locals, Frame) {
    var raw := GenerateFrame(st.frameId, cfg.satelliteName, sample, st.flags);
    var flags := Updated(cfg, st.flags, raw);
    (Locals(Increment(st.frameId), flags), Stamped(raw, flags))
  }

  ghost function LocalsAfter(cfg: Config, samples: seq<Sample>): Locals {
    if samples == [] then Locals(0, CLEAR)
    else Iterated(cfg, LocalsAfter(cfg, samples[..|samples| - 1]), samples[|samples| - 1]).0
  }

  /** The frames that main enqueues, one per iteration. */
  ghost function Flight(cfg: Config, samples: seq<Sample>): (frames: seq<Frame>)
    ensures |frames| == |samples|
  {
    seq(|samples|, i requires 0 <= i < |samples| =>
      Iterated(cfg, LocalsAfter(cfg, samples[..i]), samples[i]).1)
  }

  /** Iteration i as generated without any flags. */
  function Raw(cfg: Config, samples: seq<Sample>, i: nat): Frame
    requires i < |samples|
  {
    GenerateFrame(i % TWO_TO_64, cfg.satelliteName, samples[i], CLEAR)
  }

  function Raws(cfg: Config, samples: seq<Sample>): seq<Frame> {
    seq(|samples|, i requires 0 <= i < |samples| => Raw(cfg, samples, i))
  }

  lemma IteratedIsUpdated(cfg: Config, st: Locals, sample: Sample)
    ensures var raw := GenerateFrame(st.frameId, cfg.satelliteName, sample, CLEAR);
            var flags := Updated(cfg, st.flags, raw);
            Iterated(cfg, st, sample) == (Locals(Increment(st.frameId), flags), Stamped(raw, flags))
  {
  }

  lemma {:induction false} LocalsTrackHistory(cfg: Config, samples: seq<Sample>, n: nat)
    requires n <= |samples|
    ensures LocalsAfter(cfg, samples[..n]) == Locals(n % TWO_TO_64, FlagsAfter(cfg, Raws(cfg, samples)[..n]))
  {
    hide Updated, GenerateFrame, Iterated;
    if n > 0 {
      LocalsTrackHistory(cfg, samples, n - 1);
      var st := LocalsAfter(cfg, samples[..n - 1]);
      IteratedIsUpdated(cfg, st, samples[n - 1]);
      IncrementCounts(n - 1);
      assert samples[..n][..n - 1] == samples[..n - 1];
      assert Raws(cfg, samples)[..n][..n - 1] == Raws(cfg, samples)[..n - 1];
    }
  }

  /**
   * Generating with stale flags, overwriting them after evaluation and wrapping the frame counter
   * amounts to emitting the flag-free frames of FlagTracking: the two loops are the same.
   */
  lemma FlightIsEmission(cfg: Config, samples: seq<Sample>)
    ensures Flight(cfg, samples) == Emitted(cfg, Raws(cfg, samples))
  {
    hide Updated, GenerateFrame, Iterated;
    var raws := Raws(cfg, samples);
    forall i | 0 <= i < |samples|
      ensures Flight(cfg, samples)[i] == Emitted(cfg, raws)[i]
    {
      LocalsTrackHistory(cfg, samples, i);
      IteratedIsUpdated(cfg, LocalsAfter(cfg, samples[..i]), samples[i]);
      assert raws[..i + 1][..i] == raws[..i];
    }
  }

  /** Frame i carries the number i, modulo 2^64, and only finite readings. */
  lemma FlightIsNumbered(cfg: Config, samples: seq<Sample>, i: nat)
    requires i < |samples|
    ensures Flight(cfg, samples)[i].frameId == i % TWO_TO_64
    ensures AllFinite(Flight(cfg, samples)[i])
  {
    hide Updated;
    LocalsTrackHistory(cfg, samples, i);
  }

  // ------------------------------------------------------------------ what the frames tell

  /** The distance of a reading from its midpoint. */
  function Swing(d: Double, mid: real): real {
    if d.Finite? then d.value - mid else 0.0
  }

  /**
   * The power readings follow one cycle: the current grows with the swing of the voltage to
   * either side, sunlight arrives only in its upper half, and the charge is the whole
   * percentage below a linear function of it.
   */
  predicate FollowsOneCycle(f: Frame) {
    var swing := Swing(f.batteryVoltageV, 7.4);
    && Swing(f.batteryCurrentMa, 300.0) == (if swing < 0.0 then -187.5 * swing else 187.5 * swing)
    && f.solarInputW == Finite(if swing < 0.0 then 0.0 else 15.0 * swing)
    && f.chargePct as real <= 50.0 + 50.0 * swing < (f.chargePct + 1) as real
  }

  predicate Within(lo: real, d: Double, hi: real) {
    d.Finite? && lo <= d.value <= hi
  }

  predicate InSimulatedRanges(f: Frame) {
    && Within(6.6, f.batteryVoltageV, 8.2)
    && Within(300.0, f.batteryCurrentMa, 450.0)
    && Within(0.0, f.solarInputW, 12.0)
    && 10 <= f.chargePct <= 90
    && Within(10.0, f.obcTempC, 40.0)
    && Within(10.0, f.batteryTempC, 30.0)
    && Within(10.0, f.payloadTempC, 50.0)
    && 30 <= f.cpuUsagePct <= 89
    && 40 <= f.memoryUsagePct <= 84
  }

  /** What is read from the configuration and the sample, each temperature following its own phase. */
  predicate Reports(f: Frame, name: string, x: Sample) {
    && f.satelliteId == name && f.timestampMs == x.timestampMs && f.uptimeS == x.uptimeS
    && Swing(f.batteryVoltageV, 7.4) == 0.8 * x.cycle
    && (f.solarInputW == Finite(0.0) <==> x.cycle <= 0.0)
    && Swing(f.obcTempC, 25.0) == 15.0 * x.obcPhase
    && Swing(f.batteryTempC, 20.0) == 10.0 * x.batteryPhase
    && Swing(f.payloadTempC, 30.0) == 20.0 * x.payloadPhase
  }

  /** What iteration i emits, and how its readings hang together. */
  lemma FlightReadings(cfg: Config, samples: seq<Sample>, i: nat)
    requires i < |samples|
    ensures var f := Flight(cfg, samples)[i];
            Reports(f, cfg.satelliteName, samples[i]) && InSimulatedRanges(f) && FollowsOneCycle(f)
  {
    hide FollowsOneCycle, InSimulatedRanges, Reports, Flight, Emitted, GenerateFrame;
    FlightFrame(cfg, samples, i);
    GeneratedReadings(i % TWO_TO_64, cfg.satelliteName, samples[i], CLEAR);
    StampKeepsReadings(Raw(cfg, samples, i), FlagsAfter(cfg, Raws(cfg, samples)[..i + 1]), cfg.satelliteName, samples[i]);
  }

  lemma FlightFrame(cfg: Config, samples: seq<Sample>, i: nat)
    requires i < |samples|
    ensures Flight(cfg, samples)[i] == Stamped(Raw(cfg, samples, i), FlagsAfter(cfg, Raws(cfg, samples)[..i + 1]))
  {
    hide Flight, Raw;
    FlightIsEmission(cfg, samples);
  }

  lemma GeneratedReadings(frameId: uint64, name: string, x: Sample, flags: Flags)
    ensures var f := GenerateFrame(frameId, name, x, flags);
            Reports(f, name, x) && InSimulatedRanges(f) && FollowsOneCycle(f)
  {
  }

  lemma StampKeepsReadings(f: Frame, flags: Flags, name: string, x: Sample)
    ensures Reports(Stamped(f, flags), name, x) <==> Reports(f, name, x)
    ensures InSimulatedRanges(Stamped(f, flags)) <==> InSimulatedRanges(f)
    ensures FollowsOneCycle(Stamped(f, flags)) <==> FollowsOneCycle(f)
  {
  }

  /** The frame a flight of one iteration makes. */
  ghost function FirstFrame(cfg: Config, x: Sample): Frame {
    Flight(cfg, [x])[0]
  }

  /** The ranges of the readings are exact: each end is reached where the sine has its extreme. */
  lemma RangesAreReached(cfg: Config, low: Sample, mid: Sample, high: Sample)
    requires low.cycle == low.obcPhase == low.batteryPhase == low.payloadPhase == -1.0
    requires mid.cycle == 0.0
    requires high.cycle == high.obcPhase == high.batteryPhase == high.payloadPhase == 1.0
    ensures var f, g, h := FirstFrame(cfg, low), FirstFrame(cfg, mid), FirstFrame(cfg, high);
            && f.batteryVoltageV == Finite(6.6) && h.batteryVoltageV == Finite(8.2)
            && g.batteryCurrentMa == Finite(300.0) && f.batteryCurrentMa == h.batteryCurrentMa == Finite(450.0)
            && f.solarInputW == g.solarInputW == Finite(0.0) && h.solarInputW == Finite(12.0)
            && f.chargePct == 10 && h.chargePct == 90
            && f.obcTempC == Finite(10.0) && h.obcTempC == Finite(40.0)
            && f.batteryTempC == Finite(10.0) && h.batteryTempC == Finite(30.0)
            && f.payloadTempC == Finite(10.0) && h.payloadTempC == Finite(50.0)
  {
    hide Flight;
    FlightReadings(cfg, [low], 0);
    FlightReadings(cfg, [mid], 0);
    FlightReadings(cfg, [high], 0);
  }

  /** The loads climb by one per frame and fall back from their peak; both start over when frame_id wraps. */
  lemma LoadsDriftAndReset(cfg: Config, samples: seq<Sample>, i: nat)
    requires i < |samples|
    ensures var f := Flight(cfg, samples)[i];
            i % TWO_TO_64 == 0 ==> f.cpuUsagePct == 30 && f.memoryUsagePct == 40
    ensures i % TWO_TO_64 != 0 ==>
              var f, g := Flight(cfg, samples)[i - 1], Flight(cfg, samples)[i];
              && g.cpuUsagePct == (if f.cpuUsagePct == 89 then 30 else f.cpuUsagePct + 1)
              && g.memoryUsagePct == (if f.memoryUsagePct == 84 then 40 else f.memoryUsagePct + 1)
  {
    hide Flight;
    FlightLoads(cfg, samples, i);
    if i % TWO_TO_64 != 0 {
      FlightLoads(cfg, samples, i - 1);
      NoWrapBetween(i);
      Sixty((i - 1) % TWO_TO_64);
      FortyFive((i - 1) % TWO_TO_64);
    }
  }

  lemma FlightLoads(cfg: Config, samples: seq<Sample>, i: nat)
    requires i < |samples|
    ensures var f, n := Flight(cfg, samples)[i], i % TWO_TO_64;
            f.cpuUsagePct == 30 + n % 60 && f.memoryUsagePct == 40 + n % 45
  {
    hide Flight;
    FlightFrame(cfg, samples, i);
  }

  lemma NoWrapBetween(i: nat)
    requires i % TWO_TO_64 != 0
    ensures i % TWO_TO_64 == (i - 1) % TWO_TO_64 + 1
  {
  }

  lemma Sixty(p: nat)
    ensures (p + 1) % 60 == if p % 60 == 59 then 0 else p % 60 + 1
  {
  }

  lemma FortyFive(p: nat)
    ensures (p + 1) % 45 == if p % 45 == 44 then 0 else p % 45 + 1
  {
  }
}
