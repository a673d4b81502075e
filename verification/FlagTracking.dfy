/**
 * How the main loop turns fault events into the health flags of the frames it emits: a streaming
 * computation with latched state, and the history it stands for.
 */
module FlagTracking {
  import opened Numeric
  import opened TelemetryFrame
  import opened SatelliteConfig
  import opened FaultDetector

  function Stamped(raw: Frame, flags: Flags): Frame {
    raw.(faultActive := flags.faultActive, safeMode := flags.safeMode, lastFaultCode := flags.faultCode)
  }

  const CLEAR := Flags(false, false, 0)

  /** Steps 2 and 3 of the loop: reset fault_active, evaluate the frame, copy the flags into it. */
  function Updated(cfg: Config, flags: Flags, raw: Frame): Flags {
    HandledAll(flags.(faultActive := false), Events(cfg, raw))
  }

  /** The captured variables after the loop has seen these frames. */
  ghost function FlagsAfter(cfg: Config, raws: seq<Frame>): Flags {
    if raws == [] then CLEAR
    else Updated(cfg, FlagsAfter(cfg, raws[..|raws| - 1]), raws[|raws| - 1])
  }

  /** The frames the loop emits for these frames. */
  ghost function Emitted(cfg: Config, raws: seq<Frame>): (out: seq<Frame>)
    ensures |out| == |raws|
  {
    seq(|raws|, i requires 0 <= i < |raws| => Stamped(raws[i], FlagsAfter(cfg, raws[..i + 1])))
  }

  // ------------------------------------------------------------------ the history

  /** Some frame up to and including i overloaded the CPU or the memory. */
  ghost predicate OverloadedBy(cfg: Config, raws: seq<Frame>, i: nat)
    requires i < |raws|
  {
    exists j :: 0 <= j <= i && Overloaded(cfg, raws[j])
  }

  /** j is the latest violating frame up to and including i. */
  ghost predicate LatestViolation(cfg: Config, raws: seq<Frame>, i: nat, j: nat)
    requires i < |raws|
  {
    && j <= i
    && Violating(cfg, raws[j])
    && forall k :: j < k <= i ==> !Violating(cfg, raws[k])
  }

  /** c is the greatest code of the latest violating frame up to i, or 0 if there is none. */
  ghost predicate LastFaultCode(cfg: Config, raws: seq<Frame>, i: nat, c: uint32)
    requires i < |raws|
  {
    || (c == 0 && forall k :: 0 <= k <= i ==> !Violating(cfg, raws[k]))
    || exists j: nat :: LatestViolation(cfg, raws, i, j) && IsTopCode(cfg, raws[j], c)
  }

  /** The flags tell the history of the first i + 1 frames. */
  ghost predicate TellsHistory(cfg: Config, raws: seq<Frame>, i: nat, flags: Flags)
    requires i < |raws|
  {
    && (flags.faultActive <==> Violating(cfg, raws[i]))
    && (flags.safeMode <==> OverloadedBy(cfg, raws, i))
    && LastFaultCode(cfg, raws, i, flags.faultCode)
  }

  // ------------------------------------------------------------------ handling the events of one frame

  lemma {:induction false} HandledAllOutcome(flags: Flags, es: seq<FaultEvent>)
    ensures var out := HandledAll(flags, es);
            && (out.faultActive <==> flags.faultActive || es != [])
            && out.faultCode == (if es == [] then flags.faultCode else Value(es[|es| - 1].code))
            && (out.safeMode <==> flags.safeMode || HasCode(es, CPU_OVERLOAD) || HasCode(es, MEMORY_OVERLOAD))
  {
    if es != [] {
      var init, e := es[..|es| - 1], es[|es| - 1];
      HandledAllOutcome(flags, init);
      assert es == init + [e];
      ConcatHasCode(init, [e], CPU_OVERLOAD);
      ConcatHasCode(init, [e], MEMORY_OVERLOAD);
      assert HasCode([e], e.code);
    }
  }

  lemma UpdatedOutcome(cfg: Config, flags: Flags, raw: Frame)
    ensures var out := Updated(cfg, flags, raw);
            && (out.faultActive <==> Violating(cfg, raw))
            && (out.safeMode <==> flags.safeMode || Overloaded(cfg, raw))
            && (if Violating(cfg, raw) then IsTopCode(cfg, raw, out.faultCode) else out.faultCode == flags.faultCode)
  {
    hide HandledAll, Events, HasCode;
    HandledAllOutcome(flags.(faultActive := false), Events(cfg, raw));
    QuietIffNoViolation(cfg, raw);
    EventsAreExactlyTheViolations(cfg, raw, CPU_OVERLOAD);
    EventsAreExactlyTheViolations(cfg, raw, MEMORY_OVERLOAD);
    if Events(cfg, raw) != [] {
      LastEventIsTop(cfg, raw);
    }
  }

  lemma HistoryStep(cfg: Config, raws: seq<Frame>, i: nat, flags: Flags)
    requires 0 < i < |raws| && TellsHistory(cfg, raws, i - 1, flags)
    ensures TellsHistory(cfg, raws, i, Updated(cfg, flags, raws[i]))
  {
    hide Updated, Violating, Overloaded, IsTopCode;
    UpdatedOutcome(cfg, flags, raws[i]);
    var out := Updated(cfg, flags, raws[i]);
    if Violating(cfg, raws[i]) {
      assert LatestViolation(cfg, raws, i, i);
    } else if exists j: nat :: LatestViolation(cfg, raws, i - 1, j) && IsTopCode(cfg, raws[j], flags.faultCode) {
      var j: nat :| LatestViolation(cfg, raws, i - 1, j) && IsTopCode(cfg, raws[j], flags.faultCode);
      assert LatestViolation(cfg, raws, i, j);
    }
    if flags.safeMode {
      var j :| 0 <= j <= i - 1 && Overloaded(cfg, raws[j]);
      assert 0 <= j <= i;
    }
  }

  lemma HistoryStart(cfg: Config, raws: seq<Frame>)
    requires raws != []
    ensures TellsHistory(cfg, raws, 0, Updated(cfg, CLEAR, raws[0]))
  {
    UpdatedOutcome(cfg, CLEAR, raws[0]);
    if Violating(cfg, raws[0]) {
      assert LatestViolation(cfg, raws, 0, 0);
    }
  }

  lemma {:induction false} FlagsTellHistory(cfg: Config, raws: seq<Frame>, i: nat)
    requires i < |raws|
    ensures TellsHistory(cfg, raws, i, FlagsAfter(cfg, raws[..i + 1]))
  {
    hide TellsHistory, Updated;
    if i == 0 {
      HistoryStart(cfg, raws);
      assert raws[..1][..0] == [] && raws[..1] == [raws[0]];
    } else {
      FlagsTellHistory(cfg, raws, i - 1);
      HistoryStep(cfg, raws, i, FlagsAfter(cfg, raws[..i]));
      assert raws[..i + 1][..i] == raws[..i];
    }
  }

  /**
   * The streaming code refines its history: frame i is emitted with fault_active iff it violates a
   * threshold itself, safe_mode iff some frame so far overloaded CPU or memory, last_fault_code
   * the greatest code of the latest violating frame so far, and everything else as generated.
   */
  lemma FlagsRefineHistory(cfg: Config, raws: seq<Frame>, i: nat)
    requires i < |raws|
    ensures var f := Emitted(cfg, raws)[i];
            && TellsHistory(cfg, raws, i, Flags(f.faultActive, f.safeMode, f.lastFaultCode))
            && f == raws[i].(faultActive := f.faultActive, safeMode := f.safeMode, lastFaultCode := f.lastFaultCode)
  {
    hide TellsHistory, FlagsAfter;
    FlagsTellHistory(cfg, raws, i);
  }

  /** Safe mode, once entered, is never left. */
  lemma SafeModeIsLatched(cfg: Config, raws: seq<Frame>, i: nat, j: nat)
    requires i <= j < |raws| && Emitted(cfg, raws)[i].safeMode
    ensures Emitted(cfg, raws)[j].safeMode
  {
    hide Emitted, LastFaultCode, Violating, Overloaded;
    FlagsRefineHistory(cfg, raws, i);
    FlagsRefineHistory(cfg, raws, j);
    var k :| 0 <= k <= i && Overloaded(cfg, raws[k]);
    assert OverloadedBy(cfg, raws, j);
  }
}
