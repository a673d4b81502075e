/** src/health/FaultDetector.cpp, and the callback that main registers with it. */
module FaultDetector {
  import opened Numeric
  import opened TelemetryFrame
  import opened SatelliteConfig

  datatype FaultCode =
    | NONE
    | LOW_BATTERY
    | OVER_TEMPERATURE
    | UNDER_TEMPERATURE
    | CPU_OVERLOAD
    | MEMORY_OVERLOAD

  /** The value of the enumerator. */
  function Value(code: FaultCode): uint32 {
    match code
    case NONE => 0
    case LOW_BATTERY => 1
    case OVER_TEMPERATURE => 2
    case UNDER_TEMPERATURE => 3
    case CPU_OVERLOAD => 4
    case MEMORY_OVERLOAD => 5
  }

  /** The six texts an event can carry, by name. */
  datatype Message =
    | BATTERY_BELOW_MINIMUM
    | BATTERY_ABOVE_MAXIMUM
    | OBC_ABOVE_MAXIMUM
    | OBC_BELOW_MINIMUM
    | CPU_ABOVE_MAXIMUM
    | MEMORY_ABOVE_MAXIMUM

  datatype FaultEvent = FaultEvent(code: FaultCode, message: Message, measured: Double, threshold: Double)

  // ------------------------------------------------------------------ the events of one frame

  function BatteryEvents(cfg: Config, f: Frame): seq<FaultEvent> {
    if Less(f.batteryVoltageV, cfg.batteryVoltageMinV) then
      [FaultEvent(LOW_BATTERY, BATTERY_BELOW_MINIMUM, f.batteryVoltageV, cfg.batteryVoltageMinV)]
    else if Less(cfg.batteryVoltageMaxV, f.batteryVoltageV) then
      [FaultEvent(LOW_BATTERY, BATTERY_ABOVE_MAXIMUM, f.batteryVoltageV, cfg.batteryVoltageMaxV)]
    else []
  }

  function TemperatureEvents(cfg: Config, f: Frame): seq<FaultEvent> {
    if Less(cfg.temperatureMaxC, f.obcTempC) then
      [FaultEvent(OVER_TEMPERATURE, OBC_ABOVE_MAXIMUM, f.obcTempC, cfg.temperatureMaxC)]
    else if Less(f.obcTempC, cfg.temperatureMinC) then
      [FaultEvent(UNDER_TEMPERATURE, OBC_BELOW_MINIMUM, f.obcTempC, cfg.temperatureMinC)]
    else []
  }

  function CpuEvents(cfg: Config, f: Frame): seq<FaultEvent> {
    if f.cpuUsagePct > cfg.cpuUsageMaxPct then
      [FaultEvent(CPU_OVERLOAD, CPU_ABOVE_MAXIMUM, Finite(f.cpuUsagePct as real), Finite(cfg.cpuUsageMaxPct as real))]
    else []
  }

  function MemoryEvents(cfg: Config, f: Frame): seq<FaultEvent> {
    if f.memoryUsagePct > cfg.memoryUsageMaxPct then
      [FaultEvent(MEMORY_OVERLOAD, MEMORY_ABOVE_MAXIMUM, Finite(f.memoryUsagePct as real), Finite(cfg.memoryUsageMaxPct as real))]
    else []
  }

  /** The events that evaluate fires for a frame, in order. */
  function Events(cfg: Config, f: Frame): seq<FaultEvent> {
    BatteryEvents(cfg, f) + TemperatureEvents(cfg, f) + CpuEvents(cfg, f) + MemoryEvents(cfg, f)
  }

  // ------------------------------------------------------------------ what they mean

  /** The frame violates the thresholds in the way the code stands for. */
  predicate Violates(cfg: Config, f: Frame, code: FaultCode) {
    match code
    case NONE => false
    case LOW_BATTERY =>
      Less(f.batteryVoltageV, cfg.batteryVoltageMinV) || Less(cfg.batteryVoltageMaxV, f.batteryVoltageV)
    case OVER_TEMPERATURE => Less(cfg.temperatureMaxC, f.obcTempC)
    case UNDER_TEMPERATURE =>
      Less(f.obcTempC, cfg.temperatureMinC) && !Less(cfg.temperatureMaxC, f.obcTempC)
    case CPU_OVERLOAD => f.cpuUsagePct > cfg.cpuUsageMaxPct
    case MEMORY_OVERLOAD => f.memoryUsagePct > cfg.memoryUsageMaxPct
  }

  predicate Violating(cfg: Config, f: Frame) {
    exists code: FaultCode :: Violates(cfg, f, code)
  }

  predicate Overloaded(cfg: Config, f: Frame) {
    Violates(cfg, f, CPU_OVERLOAD) || Violates(cfg, f, MEMORY_OVERLOAD)
  }

  /** c is the greatest code among the violations of the frame. */
  ghost predicate IsTopCode(cfg: Config, f: Frame, c: uint32) {
    && (exists code: FaultCode :: Violates(cfg, f, code) && Value(code) == c)
    && (forall code: FaultCode :: Violates(cfg, f, code) ==> Value(code) <= c)
  }

  predicate HasCode(es: seq<FaultEvent>, code: FaultCode) {
    exists i :: 0 <= i < |es| && es[i].code == code
  }

  /** Code and text fit, and the measured value is strictly on the side of the threshold that the text says. */
  predicate StrictlyBeyond(e: FaultEvent) {
    match e.message
    case BATTERY_BELOW_MINIMUM => e.code == LOW_BATTERY && Less(e.measured, e.threshold)
    case BATTERY_ABOVE_MAXIMUM => e.code == LOW_BATTERY && Less(e.threshold, e.measured)
    case OBC_ABOVE_MAXIMUM => e.code == OVER_TEMPERATURE && Less(e.threshold, e.measured)
    case OBC_BELOW_MINIMUM => e.code == UNDER_TEMPERATURE && Less(e.measured, e.threshold)
    case CPU_ABOVE_MAXIMUM => e.code == CPU_OVERLOAD && Less(e.threshold, e.measured)
    case MEMORY_ABOVE_MAXIMUM => e.code == MEMORY_OVERLOAD && Less(e.threshold, e.measured)
  }

  /**
   * The event quotes the reading and the threshold that its text speaks of. A voltage below the
   * minimum is reported as such even if it is above the maximum as well.
   */
  predicate QuotesReading(cfg: Config, f: Frame, e: FaultEvent) {
    match e.message
    case BATTERY_BELOW_MINIMUM => e.measured == f.batteryVoltageV && e.threshold == cfg.batteryVoltageMinV
    case BATTERY_ABOVE_MAXIMUM =>
      && e.measured == f.batteryVoltageV && e.threshold == cfg.batteryVoltageMaxV
      && !Less(f.batteryVoltageV, cfg.batteryVoltageMinV)
    case OBC_ABOVE_MAXIMUM => e.measured == f.obcTempC && e.threshold == cfg.temperatureMaxC
    case OBC_BELOW_MINIMUM => e.measured == f.obcTempC && e.threshold == cfg.temperatureMinC
    case CPU_ABOVE_MAXIMUM =>
      e.measured == Finite(f.cpuUsagePct as real) && e.threshold == Finite(cfg.cpuUsageMaxPct as real)
    case MEMORY_ABOVE_MAXIMUM =>
      e.measured == Finite(f.memoryUsagePct as real) && e.threshold == Finite(cfg.memoryUsageMaxPct as real)
  }

  /** Strict violations with codes from lo to hi, in strictly increasing order of code. */
  predicate OrderedWithin(es: seq<FaultEvent>, lo: int, hi: int) {
    && (forall i :: 0 <= i < |es| ==> lo <= Value(es[i].code) <= hi && StrictlyBeyond(es[i]))
    && (forall i, j :: 0 <= i < j < |es| ==> Value(es[i].code) < Value(es[j].code))
  }

  lemma ConcatIsOrdered(a: seq<FaultEvent>, b: seq<FaultEvent>, lo: int, mid: int, hi: int)
    requires OrderedWithin(a, lo, mid) && OrderedWithin(b, mid + 1, hi) && lo <= mid < hi
    ensures OrderedWithin(a + b, lo, hi)
  {
  }

  /** At most four events, in strictly increasing order of code, each a strict violation. */
  lemma EventsAreOrderedViolations(cfg: Config, f: Frame)
    ensures |Events(cfg, f)| <= 4 && OrderedWithin(Events(cfg, f), 1, 5)
  {
    var b, t, c, m := BatteryEvents(cfg, f), TemperatureEvents(cfg, f), CpuEvents(cfg, f), MemoryEvents(cfg, f);
    EachCheckIsOrdered(cfg, f);
    ConcatIsOrdered(b, t, 1, 1, 3);
    ConcatIsOrdered(b + t, c, 1, 3, 4);
    ConcatIsOrdered(b + t + c, m, 1, 4, 5);
  }

  lemma EachCheckIsOrdered(cfg: Config, f: Frame)
    ensures OrderedWithin(BatteryEvents(cfg, f), 1, 1) && |BatteryEvents(cfg, f)| <= 1
    ensures OrderedWithin(TemperatureEvents(cfg, f), 2, 3) && |TemperatureEvents(cfg, f)| <= 1
    ensures OrderedWithin(CpuEvents(cfg, f), 4, 4) && |CpuEvents(cfg, f)| <= 1
    ensures OrderedWithin(MemoryEvents(cfg, f), 5, 5) && |MemoryEvents(cfg, f)| <= 1
  {
  }

  /** What an event tells is true of the frame and the configuration. */
  lemma EventsQuoteReadings(cfg: Config, f: Frame)
    ensures forall e <- Events(cfg, f) :: StrictlyBeyond(e) && QuotesReading(cfg, f, e)
  {
    var b, t, c, m := BatteryEvents(cfg, f), TemperatureEvents(cfg, f), CpuEvents(cfg, f), MemoryEvents(cfg, f);
    assert forall e <- Events(cfg, f) :: e in b || e in t || e in c || e in m;
  }

  lemma ConcatHasCode(a: seq<FaultEvent>, b: seq<FaultEvent>, code: FaultCode)
    ensures HasCode(a + b, code) <==> HasCode(a, code) || HasCode(b, code)
  {
    if HasCode(a, code) {
      var i :| 0 <= i < |a| && a[i].code == code;
      assert (a + b)[i] == a[i];
    }
    if HasCode(b, code) {
      var i :| 0 <= i < |b| && b[i].code == code;
      assert (a + b)[|a| + i] == b[i];
    }
  }

  lemma EachCheckHasCode(cfg: Config, f: Frame, code: FaultCode)
    ensures HasCode(BatteryEvents(cfg, f), code) <==> code == LOW_BATTERY && Violates(cfg, f, code)
    ensures HasCode(TemperatureEvents(cfg, f), code) <==>
              (code == OVER_TEMPERATURE || code == UNDER_TEMPERATURE) && Violates(cfg, f, code)
    ensures HasCode(CpuEvents(cfg, f), code) <==> code == CPU_OVERLOAD && Violates(cfg, f, code)
    ensures HasCode(MemoryEvents(cfg, f), code) <==> code == MEMORY_OVERLOAD && Violates(cfg, f, code)
  {
    var b, t, c, m := BatteryEvents(cfg, f), TemperatureEvents(cfg, f), CpuEvents(cfg, f), MemoryEvents(cfg, f);
    assert b != [] ==> b[0].code == LOW_BATTERY;
    assert t != [] ==> t[0].code == if Less(cfg.temperatureMaxC, f.obcTempC) then OVER_TEMPERATURE else UNDER_TEMPERATURE;
    assert c != [] ==> c[0].code == CPU_OVERLOAD;
    assert m != [] ==> m[0].code == MEMORY_OVERLOAD;
  }

  /** A code is fired if and only if the frame violates the thresholds in its way. */
  lemma EventsAreExactlyTheViolations(cfg: Config, f: Frame, code: FaultCode)
    ensures HasCode(Events(cfg, f), code) <==> Violates(cfg, f, code)
  {
    hide HasCode;
    var b, t, c, m := BatteryEvents(cfg, f), TemperatureEvents(cfg, f), CpuEvents(cfg, f), MemoryEvents(cfg, f);
    EachCheckHasCode(cfg, f, code);
    ConcatHasCode(b + t + c, m, code);
    ConcatHasCode(b + t, c, code);
    ConcatHasCode(b, t, code);
  }

  lemma QuietIffNoViolation(cfg: Config, f: Frame)
    ensures Events(cfg, f) == [] <==> !Violating(cfg, f)
  {
    var es := Events(cfg, f);
    if es != [] {
      EventsAreExactlyTheViolations(cfg, f, es[0].code);
      assert HasCode(es, es[0].code);
    } else {
      forall code: FaultCode ensures !Violates(cfg, f, code) {
        EventsAreExactlyTheViolations(cfg, f, code);
      }
    }
  }

  /** The last event carries the greatest code. */
  lemma LastEventIsTop(cfg: Config, f: Frame)
    requires Events(cfg, f) != []
    ensures IsTopCode(cfg, f, Value(Events(cfg, f)[|Events(cfg, f)| - 1].code))
  {
    var es := Events(cfg, f);
    var last := es[|es| - 1];
    EventsAreOrderedViolations(cfg, f);
    EventsAreExactlyTheViolations(cfg, f, last.code);
    assert HasCode(es, last.code);
    forall code: FaultCode | Violates(cfg, f, code) ensures Value(code) <= Value(last.code) {
      EventsAreExactlyTheViolations(cfg, f, code);
    }
  }

  /** lo <= x <= hi, for finite numbers. */
  predicate InRange(lo: Double, x: Double, hi: Double) {
    lo.Finite? && x.Finite? && hi.Finite? && lo.value <= x.value <= hi.value
  }

  /** For finite values and thresholds a frame is quiet exactly when all four values are in range. */
  lemma QuietIffInRange(cfg: Config, f: Frame)
    requires f.batteryVoltageV.Finite? && cfg.batteryVoltageMinV.Finite? && cfg.batteryVoltageMaxV.Finite?
    requires f.obcTempC.Finite? && cfg.temperatureMinC.Finite? && cfg.temperatureMaxC.Finite?
    ensures Events(cfg, f) == [] <==>
              && InRange(cfg.batteryVoltageMinV, f.batteryVoltageV, cfg.batteryVoltageMaxV)
              && InRange(cfg.temperatureMinC, f.obcTempC, cfg.temperatureMaxC)
              && f.cpuUsagePct <= cfg.cpuUsageMaxPct
              && f.memoryUsagePct <= cfg.memoryUsageMaxPct
  {
  }

  /** A reading that is not a number is never reported, whatever the thresholds. */
  lemma NaNIsNeverReported(cfg: Config, f: Frame)
    ensures f.batteryVoltageV.NaN? ==> !HasCode(Events(cfg, f), LOW_BATTERY)
    ensures f.obcTempC.NaN? ==>
              !HasCode(Events(cfg, f), OVER_TEMPERATURE) && !HasCode(Events(cfg, f), UNDER_TEMPERATURE)
  {
  }

  // ------------------------------------------------------------------ the code

  /** The locals of main that its fault callback captures. */
  datatype Flags = Flags(faultActive: bool, safeMode: bool, faultCode: uint32)

  /** main's callback: one event. */
  function Handled(flags: Flags, e: FaultEvent): Flags {
    Flags(true,
          flags.safeMode || e.code == CPU_OVERLOAD || e.code == MEMORY_OVERLOAD,
          Value(e.code))
  }

  function HandledAll(flags: Flags, es: seq<FaultEvent>): Flags {
    if es == [] then flags else Handled(HandledAll(flags, es[..|es| - 1]), es[|es| - 1])
  }

  lemma HandledConcat(flags: Flags, a: seq<FaultEvent>, b: seq<FaultEvent>)
    requires |b| <= 1
    ensures HandledAll(flags, a + b) == HandledAll(HandledAll(flags, a), b)
  {
    if b == [] {
      assert a + b == a;
    } else {
      assert (a + b)[..|a + b| - 1] == a && b[..0] == [];
    }
  }

  lemma EventsInStages(cfg: Config, f: Frame, flags: Flags, heard: seq<FaultEvent>)
    ensures var b, t, r := BatteryEvents(cfg, f), TemperatureEvents(cfg, f), CpuEvents(cfg, f) + MemoryEvents(cfg, f);
            && heard + Events(cfg, f) == heard + b + t + r
            && HandledAll(flags, Events(cfg, f)) == HandledAll(HandledAll(HandledAll(flags, b), t), r)
  {
    hide HandledAll, BatteryEvents, TemperatureEvents, CpuEvents, MemoryEvents;
    var b, t := BatteryEvents(cfg, f), TemperatureEvents(cfg, f);
    var c, m := CpuEvents(cfg, f), MemoryEvents(cfg, f);
    EachCheckIsOrdered(cfg, f);
    HandledConcat(flags, b, t);
    HandledConcat(flags, b + t, c);
    HandledConcat(flags, b + t + c, m);
    HandledConcat(HandledAll(HandledAll(flags, b), t), c, m);
    assert b + t + c + m == b + t + (c + m);
    assert heard + (b + t + (c + m)) == heard + b + t + (c + m);
  }

  /** The variables captured by main's callback, and the callback itself. */
  class FaultMonitor {
    var faultActive: bool
    var safeMode: bool
    var faultCode: uint32
    ghost var heard: seq<FaultEvent>   // every event delivered, in order

    ghost function State(): Flags
      reads this
    {
      Flags(faultActive, safeMode, faultCode)
    }

    constructor ()
      ensures State() == Flags(false, false, 0) && heard == []
    {
      faultActive, safeMode, faultCode, heard := false, false, 0, [];
    }

    method OnFault(e: FaultEvent)
      modifies this
      ensures State() == Handled(old(State()), e) && heard == old(heard) + [e]
    {
      faultActive := true;
      faultCode := Value(e.code);
      heard := heard + [e];
      if e.code == CPU_OVERLOAD || e.code == MEMORY_OVERLOAD {
        safeMode := true;
      }
    }
  }

  class FaultDetector {
    const cfg: Config
    var callback: FaultMonitor?   // null until setFaultCallback

    constructor (cfg: Config)
      ensures this.cfg == cfg && callback == null
    {
      this.cfg := cfg;
      callback := null;
    }

    method SetFaultCallback(monitor: FaultMonitor)
      modifies this
      ensures callback == monitor
    {
      callback := monitor;
    }

    /** The callback, if there is one, has received es on top of what it had before. */
    twostate predicate Fired(es: seq<FaultEvent>)
      reads this, callback
    {
      && callback == old(callback)
      && (callback != null ==>
            && callback.heard == old(callback.heard) + es
            && callback.State() == HandledAll(old(callback.State()), es))
    }

    /** evaluate: fires exactly the events of the frame, in order, or none without a callback. */
    method Evaluate(frame: Frame)
      modifies callback
      ensures Fired(Events(cfg, frame))
    {
      if callback == null { return; }
      hide HandledAll, BatteryEvents, TemperatureEvents, CpuEvents, MemoryEvents, Events;
      EventsInStages(cfg, frame, callback.State(), callback.heard);
      CheckBattery(frame);
      CheckTemperature(frame);
      CheckResources(frame);
    }

    method CheckBattery(frame: Frame)
      modifies callback
      ensures Fired(BatteryEvents(cfg, frame))
    {
      if callback == null { return; }
      if Less(frame.batteryVoltageV, cfg.batteryVoltageMinV) {
        callback.OnFault(FaultEvent(LOW_BATTERY, BATTERY_BELOW_MINIMUM, frame.batteryVoltageV, cfg.batteryVoltageMinV));
      } else if Less(cfg.batteryVoltageMaxV, frame.batteryVoltageV) {
        callback.OnFault(FaultEvent(LOW_BATTERY, BATTERY_ABOVE_MAXIMUM, frame.batteryVoltageV, cfg.batteryVoltageMaxV));
      }
    }

    method CheckTemperature(frame: Frame)
      modifies callback
      ensures Fired(TemperatureEvents(cfg, frame))
    {
      if callback == null { return; }
      if Less(cfg.temperatureMaxC, frame.obcTempC) {
        callback.OnFault(FaultEvent(OVER_TEMPERATURE, OBC_ABOVE_MAXIMUM, frame.obcTempC, cfg.temperatureMaxC));
      } else if Less(frame.obcTempC, cfg.temperatureMinC) {
        callback.OnFault(FaultEvent(UNDER_TEMPERATURE, OBC_BELOW_MINIMUM, frame.obcTempC, cfg.temperatureMinC));
      }
    }

    method CheckResources(frame: Frame)
      modifies callback
      ensures Fired(CpuEvents(cfg, frame) + MemoryEvents(cfg, frame))
    {
      if callback == null { return; }
      ghost var before := callback.State();
      if frame.cpuUsagePct > cfg.cpuUsageMaxPct {
        callback.OnFault(FaultEvent(CPU_OVERLOAD, CPU_ABOVE_MAXIMUM,
                                    Finite(frame.cpuUsagePct as real), Finite(cfg.cpuUsageMaxPct as real)));
      }
      if frame.memoryUsagePct > cfg.memoryUsageMaxPct {
        callback.OnFault(FaultEvent(MEMORY_OVERLOAD, MEMORY_ABOVE_MAXIMUM,
                                    Finite(frame.memoryUsagePct as real), Finite(cfg.memoryUsageMaxPct as real)));
      }
      HandledConcat(before, CpuEvents(cfg, frame), MemoryEvents(cfg, frame));
    }
  }
}
