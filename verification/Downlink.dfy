/** From the main loop to the ground: the dispatcher fed with the frames of a flight. */
module Downlink {
  import opened Numeric
  import opened Wrappers
  import opened Sequences
  import opened TelemetryFrame
  import opened SatelliteConfig
  import opened FaultDetector
  import opened FlagTracking
  import opened Simulation
  import TelemetrySerializer
  import opened DispatcherModel

  /**
   * At this point of a run, main, the only producer, has enqueued the first so many frames of
   * the flight; the background thread and the scheduler may have done anything.
   */
  ghost predicate Feeds(cfg: Config, samples: seq<Sample>, es: seq<Event>) {
    Seen(Initial(cfg.telemetryMaxFrameQueueDepth), es).attempts <= Flight(cfg, samples)
  }

  /** Numbered in strictly increasing order, and safe mode never goes back to normal. */
  ghost predicate Monotone(frames: seq<Frame>) {
    forall i, j :: 0 <= i < j < |frames| ==>
      frames[i].frameId < frames[j].frameId && (frames[i].safeMode ==> frames[j].safeMode)
  }

  lemma FlightIsMonotone(cfg: Config, samples: seq<Sample>)
    requires |samples| <= TWO_TO_64
    ensures Monotone(Flight(cfg, samples))
  {
    hide Flight, Emitted;
    var frames := Flight(cfg, samples);
    forall i, j | 0 <= i < j < |frames|
      ensures frames[i].frameId < frames[j].frameId
      ensures frames[i].safeMode ==> frames[j].safeMode
    {
      FlightIsNumbered(cfg, samples, i);
      FlightIsNumbered(cfg, samples, j);
      FlightIsEmission(cfg, samples);
      if frames[i].safeMode {
        SafeModeIsLatched(cfg, Raws(cfg, samples), i, j);
      }
    }
  }

  lemma SelectionIsMonotone(a: seq<Frame>, b: seq<Frame>)
    requires IsSubsequence(a, b) && Monotone(b)
    ensures Monotone(a)
  {
  }

  /** Whatever is processed or sent is a selection, in order, of what the main loop made. */
  lemma ProcessedComesFromFlight(cfg: Config, samples: seq<Sample>, es: seq<Event>)
    requires Feeds(cfg, samples, es)
    ensures var h := Seen(Initial(cfg.telemetryMaxFrameQueueDepth), es);
            IsSubsequence(h.processed, Flight(cfg, samples)) && IsSubsequence(h.sent, Flight(cfg, samples))
  {
    hide Flight, Run;
    var s0 := Initial(cfg.telemetryMaxFrameQueueDepth);
    var h, frames := Seen(s0, es), Flight(cfg, samples);
    FifoHistory(cfg.telemetryMaxFrameQueueDepth, es);
    HistoryIsOrdered(s0, es);
    var rest := Held(Run(s0, es)) + Run(s0, es).queue;
    assert h.accepted == h.processed + rest;
    PrefixIsSubsequence(h.processed, rest);
    Transitive(h.processed, h.accepted, h.attempts);
    assert frames == h.attempts + frames[|h.attempts|..];
    PrefixIsSubsequence(h.attempts, frames[|h.attempts|..]);
    Transitive(h.processed, h.attempts, frames);
    Transitive(h.sent, h.processed, frames);
  }

  /**
   * Every prefix of the downlink, under every interleaving: the ground decodes exactly the
   * frames that were sent, and they are frames of the flight in strictly increasing order of
   * frame_id, with safe mode latched (before the frame counter wraps).
   */
  lemma DownlinkOfAnyPrefix(cfg: Config, samples: seq<Sample>, es: seq<Event>)
    requires Feeds(cfg, samples, es) && |samples| <= TWO_TO_64
    ensures var h := Seen(Initial(cfg.telemetryMaxFrameQueueDepth), es);
            && IsSubsequence(h.sent, Flight(cfg, samples))
            && Monotone(h.processed) && Monotone(h.sent)
            && forall i :: 0 <= i < |h.sent| ==>
                 TelemetrySerializer.Decode(TelemetrySerializer.Encode(h.sent[i])) == Ok(h.sent[i])
  {
    hide Flight, Run, Seen;
    var h, frames := Seen(Initial(cfg.telemetryMaxFrameQueueDepth), es), Flight(cfg, samples);
    ProcessedComesFromFlight(cfg, samples, es);
    FlightIsMonotone(cfg, samples);
    SelectionIsMonotone(h.processed, frames);
    SelectionIsMonotone(h.sent, frames);
    var at: seq<nat> :| Spells(at, h.sent, frames);
    forall i | 0 <= i < |h.sent|
      ensures TelemetrySerializer.Decode(TelemetrySerializer.Encode(h.sent[i])) == Ok(h.sent[i])
    {
      FlightIsNumbered(cfg, samples, at[i]);
      TelemetrySerializer.RoundTrip(h.sent[i]);
    }
  }

  /** After stop every iteration is accounted for: sent, dropped or left in the queue. */
  lemma ShutdownAccounting(cfg: Config, samples: seq<Sample>, es: seq<Event>)
    requires |samples| < TWO_TO_64
    requires Seen(Initial(cfg.telemetryMaxFrameQueueDepth), es).attempts == Flight(cfg, samples)
    requires var s := Run(Initial(cfg.telemetryMaxFrameQueueDepth), es); s.control == Idle && !s.running
    ensures var s := Run(Initial(cfg.telemetryMaxFrameQueueDepth), es);
            s.framesSent + s.framesDropped + |s.queue| == |samples|
  {
    CounterConservation(cfg.telemetryMaxFrameQueueDepth, es);
    LifecycleHolds(Initial(cfg.telemetryMaxFrameQueueDepth), es);
  }
}
