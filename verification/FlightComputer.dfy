/** src/main.cpp: the main function, its loop and its shutdown, over all subsystems together. */
module FlightComputer {
  import opened Numeric
  import opened Wrappers
  import opened Sequences
  import opened TelemetryFrame
  import opened SatelliteConfig
  import opened FaultDetector
  import opened FlagTracking
  import opened Simulation
  import opened Json
  import opened CommandDeserializer
  import opened CommandPipeline
  import opened DispatcherModel
  import opened Downlink
  import D = TelemetryDispatcher
  import S = TelemetrySerializer
  import Q = CommandQueue
  import H = CommandHandler

  /** The three commands that main injects before its loop. */
  const DEMO: seq<Text> :=
    [Source(Object(map["sequence_number" := Integer(1), "opcode" := Integer(1)])),
     Source(Object(map["sequence_number" := Integer(2), "opcode" := Integer(16), "subsystem" := String("payload"),
                       "parameters" := Object(map["mode" := String("science")])])),
     Source(Object(map["sequence_number" := Integer(3), "opcode" := Integer(32)]))]

  /** Since its construction the dispatcher has gone through exactly the events es. */
  ghost predicate Trail(d: D.TelemetryDispatcher, es: seq<Event>)
    reads d
  {
    && d.Valid()
    && d.State() == Run(Initial(d.maxQueueDepth), es)
    && d.downlink == D.Encoded(Seen(Initial(d.maxQueueDepth), es).sent)
  }

  ghost function Attempts(d: D.TelemetryDispatcher, es: seq<Event>): seq<Frame> {
    Seen(Initial(d.maxQueueDepth), es).attempts
  }

  lemma TrailSnoc(start: State, es: seq<Event>, e: Event, d: seq<Text>)
    requires d == D.Encoded(Seen(start, es).sent)
    ensures Run(start, es + [e]) == Step(Run(start, es), e)
    ensures Seen(start, es + [e]).attempts == Seen(start, es).attempts + if e.Enqueue? then [e.frame] else []
    ensures D.Encoded(Seen(start, es + [e]).sent) == d + D.Encoded(Observed(Run(start, es), e).sent)
  {
    RunSnoc(start, es, e);
    D.EncodedConcat(Seen(start, es).sent, Observed(Run(start, es), e).sent);
  }

  lemma {:induction false} OnlyEnqueueAttempts(s: State, es: seq<Event>)
    requires forall e <- es :: !e.Enqueue?
    ensures Seen(s, es).attempts == []
  {
    if es != [] {
      var init := es[..|es| - 1];
      assert forall e <- init :: e in es;
      OnlyEnqueueAttempts(s, init);
      assert !es[|es| - 1].Enqueue?;
    }
  }

  // ------------------------------------------------------------------ the run of a flight

  function StartEvents(fd: int, created: bool): seq<Event> {
    [OpenSocket(fd)] + [SetRunning] + [Spawn(created)]
  }

  /** The background thread gets these turns, with these answers of sendUdp. */
  function TurnEvents(turns: seq<bool>): seq<Event> {
    seq(|turns|, i requires 0 <= i < |turns| => Turn(turns[i]))
  }

  /** The run up to the end of iteration i: each begins with the turns before it and enqueues its frame. */
  ghost function Script(frames: seq<Frame>, turns: seq<seq<bool>>, fd: int, created: bool, i: nat): seq<Event>
    requires i <= |frames| && i <= |turns|
  {
    if i == 0 then StartEvents(fd, created)
    else Script(frames, turns, fd, created, i - 1) + TurnEvents(turns[i - 1]) + [Enqueue(frames[i - 1])]
  }

  /** The run is prolonged by a call of stop. */
  ghost function WithStop(depth: uint32, es: seq<Event>, udp: nat -> bool): seq<Event> {
    es + D.StopCourse(Run(Initial(depth), es), D.Encoded(Seen(Initial(depth), es).sent), udp).schedule
  }

  /** The whole run of a flight: everything the outside world decides determines it. */
  ghost function FlightRun(cfg: Config, samples: seq<Sample>, turns: seq<seq<bool>>, fd: int, created: bool,
                           udp: nat -> bool): seq<Event>
    requires |turns| == |samples| + 1
  {
    var looped := Script(Flight(cfg, samples), turns, fd, created, |samples|);
    WithStop(cfg.telemetryMaxFrameQueueDepth, looped + TurnEvents(turns[|samples|]), udp)
  }

  method NewDownlink(depth: uint32) returns (d: D.TelemetryDispatcher)
    ensures fresh(d) && d.maxQueueDepth == depth
    ensures Trail(d, []) && !d.running && d.control == Idle
  {
    d := new D.TelemetryDispatcher(depth);
    assert D.Encoded([]) == [];
  }

  /** main calls start; the three events are what it does if the dispatcher is new. */
  method StartDownlink(d: D.TelemetryDispatcher, fd: int, created: bool) returns (ok: bool, ghost es: seq<Event>)
    requires Trail(d, []) && !d.running && d.control == Idle
    modifies d
    ensures Trail(d, es) && d.control == Idle && Attempts(d, es) == []
    ensures es == StartEvents(fd, created)
    ensures ok <==> fd >= 0 && created
    ensures ok ==> d.running
  {
    hide Run, Seen;
    ghost var s0, t := Initial(d.maxQueueDepth), d.downlink;
    var outcome := d.Start(fd, created);
    ok := outcome.Started?;
    es := StartEvents(fd, created);
    StartTrail(s0, fd, created, t);
  }

  lemma StartTrail(s0: State, fd: int, created: bool, d: seq<Text>)
    requires d == D.Encoded(Seen(s0, []).sent)
    ensures var es := [OpenSocket(fd)] + [SetRunning] + [Spawn(created)];
            && Run(s0, es) == Step(Step(Step(Run(s0, []), OpenSocket(fd)), SetRunning), Spawn(created))
            && Seen(s0, es).attempts == []
            && D.Encoded(Seen(s0, es).sent) == d
  {
    RunSnoc(s0, [], OpenSocket(fd));
    RunSnoc(s0, [OpenSocket(fd)], SetRunning);
    RunSnoc(s0, [OpenSocket(fd)] + [SetRunning], Spawn(created));
    assert [] + [OpenSocket(fd)] == [OpenSocket(fd)];
  }

  /** Between two steps of main the background thread gets some turns. */
  method Background(d: D.TelemetryDispatcher, turns: seq<bool>, ghost before: seq<Event>) returns (ghost es: seq<Event>)
    requires Trail(d, before)
    modifies d
    ensures Trail(d, es) && d.control == old(d.control) && d.running == old(d.running)
    ensures Attempts(d, es) == Attempts(d, before)
    ensures es == before + TurnEvents(turns)
  {
    hide Run, Seen, Lifecycle;
    es := before;
    for n := 0 to |turns|
      invariant Trail(d, es) && d.control == old(d.control) && d.running == old(d.running)
      invariant Attempts(d, es) == Attempts(d, before)
      invariant es == before + TurnEvents(turns)[..n]
    {
      assert TurnEvents(turns)[..n + 1] == TurnEvents(turns)[..n] + [Turn(turns[n])];
      if d.thread != NotStarted && d.thread != Exited {
        es := OneTurn(d, turns[n], es);
      } else {
        IdleTurn(d, turns[n], es);
        es := es + [Turn(turns[n])];
      }
    }
    assert TurnEvents(turns)[..|turns|] == TurnEvents(turns);
  }

  /** A turn given to a thread that does not exist changes nothing. */
  lemma IdleTurn(d: D.TelemetryDispatcher, sent: bool, before: seq<Event>)
    requires Trail(d, before) && !Live(d.State())
    ensures Trail(d, before + [Turn(sent)]) && Attempts(d, before + [Turn(sent)]) == Attempts(d, before)
  {
    hide Lifecycle;
    TrailSnoc(Initial(d.maxQueueDepth), before, Turn(sent), d.downlink);
  }

  method OneTurn(d: D.TelemetryDispatcher, sent: bool, ghost before: seq<Event>) returns (ghost es: seq<Event>)
    requires Trail(d, before) && d.thread != NotStarted && d.thread != Exited
    modifies d
    ensures Trail(d, es) && d.control == old(d.control) && d.running == old(d.running)
    ensures Attempts(d, es) == Attempts(d, before)
    ensures es == before + [Turn(sent)]
  {
    hide Lifecycle;
    es := before + [Turn(sent)];
    ghost var c := D.Course(Initial(d.maxQueueDepth), [], es);
    assert es[..|before|] == before && es[..|before| + 1] == es;
    TrailSnoc(Initial(d.maxQueueDepth), before, Turn(sent), d.downlink);
    d.BackgroundTurn(sent, c, |before|);
  }

  method EnqueueFrame(d: D.TelemetryDispatcher, frame: Frame, ghost before: seq<Event>) returns (ghost es: seq<Event>)
    requires Trail(d, before)
    modifies d
    ensures Trail(d, es) && d.control == old(d.control) && d.running == old(d.running)
    ensures Attempts(d, es) == Attempts(d, before) + [frame]
    ensures es == before + [Enqueue(frame)]
  {
    hide Lifecycle;
    es := before + [Enqueue(frame)];
    TrailSnoc(Initial(d.maxQueueDepth), before, Enqueue(frame), d.downlink);
    var _ := d.Enqueue(frame);
  }

  method StopDownlink(d: D.TelemetryDispatcher, udp: nat -> bool, ghost before: seq<Event>) returns (ghost es: seq<Event>)
    requires Trail(d, before) && d.control == Idle && d.running
    modifies d
    ensures Trail(d, es) && d.control == Idle && !d.running && d.thread == NotStarted
    ensures Attempts(d, es) == Attempts(d, before)
    ensures es == WithStop(d.maxQueueDepth, before, udp)
  {
    hide Run, Seen, Lifecycle;
    ghost var c := D.StopCourse(d.State(), d.downlink, udp);
    ghost var s0 := Initial(d.maxQueueDepth);
    d.Stop(udp);
    es := before + c.schedule;
    StopTrail(s0, before, c, d.State(), d.downlink);
  }

  lemma StopTrail(s0: State, before: seq<Event>, c: D.Course, s: State, d: seq<Text>)
    requires c.start == Run(s0, before) && c.startDownlink == D.Encoded(Seen(s0, before).sent)
    requires exists udp :: c == D.StopCourse(c.start, c.startDownlink, udp)
    requires D.Leads(c, |c.schedule|, s, d)
    ensures s == Run(s0, before + c.schedule)
    ensures d == D.Encoded(Seen(s0, before + c.schedule).sent)
    ensures Seen(s0, before + c.schedule).attempts == Seen(s0, before).attempts
  {
    assert c.schedule[..|c.schedule|] == c.schedule;
    RunConcat(s0, before, c.schedule);
    SeenConcat(s0, before, c.schedule);
    OnlyEnqueueAttempts(c.start, c.schedule);
    D.EncodedConcat(Seen(s0, before).sent, Seen(c.start, c.schedule).sent);
  }

  /** Steps 1 to 3 of an iteration. */
  method NextFrame(cfg: Config, monitor: FaultMonitor, detector: FaultDetector, frameId: uint64, sample: Sample)
    returns (frame: Frame)
    requires detector.cfg == cfg && detector.callback == monitor
    modifies monitor
    ensures Iterated(cfg, Locals(frameId, old(monitor.State())), sample)
         == (Locals(Increment(frameId), monitor.State()), frame)
    ensures frame.frameId == frameId && Reports(frame, cfg.satelliteName, sample)
    ensures InSimulatedRanges(frame) && FollowsOneCycle(frame)
    ensures Flags(frame.faultActive, frame.safeMode, frame.lastFaultCode) == monitor.State()
  {
    hide Events, HandledAll, Reports, InSimulatedRanges, FollowsOneCycle;
    GeneratedReadings(frameId, cfg.satelliteName, sample, monitor.State());
    frame := GenerateFrame(frameId, cfg.satelliteName, sample,
                           Flags(monitor.faultActive, monitor.safeMode, monitor.faultCode));
    monitor.faultActive := false;
    detector.Evaluate(frame);
    frame := frame.(faultActive := monitor.faultActive);
    frame := frame.(safeMode := monitor.safeMode);
    frame := frame.(lastFaultCode := monitor.faultCode);
    StampKeepsReadings(GenerateFrame(frameId, cfg.satelliteName, sample, old(monitor.State())), monitor.State(),
                       cfg.satelliteName, sample);
  }

  /** What is known when main has returned after a complete flight. */
  ghost predicate Landed(cfg: Config, samples: seq<Sample>, d: D.TelemetryDispatcher, es: seq<Event>)
    reads d
  {
    && Trail(d, es)
    && d.maxQueueDepth == cfg.telemetryMaxFrameQueueDepth
    && Attempts(d, es) == Flight(cfg, samples)
    && d.control == Idle && !d.running && d.thread == NotStarted
  }

  /** After i iterations: what has been enqueued and what the locals hold. */
  ghost predicate Flying(cfg: Config, samples: seq<Sample>, i: nat, d: D.TelemetryDispatcher, es: seq<Event>,
                         monitor: FaultMonitor, frameId: uint64, turns: seq<seq<bool>>, fd: int)
    requires i <= |samples| && i <= |turns|
    reads d, monitor
  {
    && Trail(d, es) && d.control == Idle && d.running
    && d.maxQueueDepth == cfg.telemetryMaxFrameQueueDepth
    && es == Script(Flight(cfg, samples), turns, fd, true, i)
    && Attempts(d, es) == Flight(cfg, samples)[..i]
    && Locals(frameId, monitor.State()) == LocalsAfter(cfg, samples[..i])
  }

  /** The command side is in order, and everything in the queue has a handler. */
  ghost predicate Serving(queue: Q.CommandQueue, handler: H.CommandHandler)
    reads queue, handler
  {
    queue.Valid() && handler.Valid() && CoversAllowlist(handler.log) && Allowed(queue.queue)
  }

  /** Steps 1 to 5 of iteration i, preceded by some turns of the background thread. */
  method Iterate(cfg: Config, samples: seq<Sample>, i: nat, turns: seq<seq<bool>>, ghost fd: int,
                 d: D.TelemetryDispatcher, monitor: FaultMonitor, detector: FaultDetector, frameId: uint64,
                 ghost before: seq<Event>)
    returns (nextId: uint64, ghost es: seq<Event>)
    requires i < |samples| && i < |turns|
    requires Flying(cfg, samples, i, d, before, monitor, frameId, turns, fd)
    requires detector.cfg == cfg && detector.callback == monitor
    modifies d, monitor
    ensures Flying(cfg, samples, i + 1, d, es, monitor, nextId, turns, fd)
  {
    hide Run, Seen, Flight, LocalsAfter, Iterated, Trail;
    es := Background(d, turns[i], before);
    var frame := NextFrame(cfg, monitor, detector, frameId, samples[i]);
    nextId := Increment(frameId);
    NextLocals(cfg, samples, i);
    assert Flight(cfg, samples)[..i + 1][i] == frame;
    es := EnqueueFrame(d, frame, es);
  }

  /**
   * main, given the outside world: the samples of its iterations, the turns that the background
   * thread gets before each of them and before the shutdown, what socket(), the thread
   * constructor and sendUdp answer, and the clock. An exception from start ends main early.
   */
  method Fly(cfg: Config, samples: seq<Sample>, turns: seq<seq<bool>>, fd: int, created: bool, udp: nat -> bool, now: uint64)
    returns (flown: bool, d: D.TelemetryDispatcher, handler: H.CommandHandler?, ghost es: seq<Event>)
    requires |turns| == |samples| + 1
    ensures flown <==> fd >= 0 && created
    ensures flown ==> Landed(cfg, samples, d, es) && es == FlightRun(cfg, samples, turns, fd, created, udp)
    ensures flown ==>
              && handler != null
              && handler.calls == if samples == [] then [] else Truncated(Decodable(DEMO, now), cfg.commandMaxQueueDepth)
  {
    hide Run, Seen, Flight, LocalsAfter, Iterated, Trail, Serving, Truncated, Decodable;
    var monitor := new FaultMonitor();
    var detector := new FaultDetector(cfg);
    detector.SetFaultCallback(monitor);
    d := NewDownlink(cfg.telemetryMaxFrameQueueDepth);
    handler := null;
    flown, es := StartDownlink(d, fd, created);
    if !flown { return; }

    var queue: Q.CommandQueue;
    queue, handler := PrepareCommands(cfg, now);
    ghost var commands := queue.queue;

    var frameId: uint64 := 0;
    FirstLocals(cfg, samples);
    for i := 0 to |samples|
      invariant Flying(cfg, samples, i, d, es, monitor, frameId, turns, fd)
      invariant detector.cfg == cfg && detector.callback == monitor
      invariant Serving(queue, handler)
      invariant queue.queue == if i == 0 then commands else []
      invariant handler.calls == if i == 0 then [] else commands
    {
      frameId, es := Iterate(cfg, samples, i, turns, fd, d, monitor, detector, frameId, es);
      ServeCommands(queue, handler);
    }
    es := Background(d, turns[|samples|], es);
    es := StopDownlink(d, udp, es);
  }

  /** The command queue, the handlers, and the three commands injected for demonstration. */
  method PrepareCommands(cfg: Config, now: uint64) returns (queue: Q.CommandQueue, handler: H.CommandHandler)
    ensures fresh(queue) && fresh(handler)
    ensures Serving(queue, handler) && handler.calls == []
    ensures queue.queue == Truncated(Decodable(DEMO, now), cfg.commandMaxQueueDepth)
  {
    hide Truncated, Decodable;
    queue := new Q.CommandQueue(cfg.commandMaxQueueDepth);
    handler := new H.CommandHandler();
    RegisterCommandHandlers(handler);
    Inject(queue, DEMO, now);
  }

  /** Step 6 of an iteration; what it returns is only printed. */
  method ServeCommands(queue: Q.CommandQueue, handler: H.CommandHandler)
    requires Serving(queue, handler)
    modifies queue, handler
    ensures Serving(queue, handler) && queue.queue == []
    ensures handler.calls == old(handler.calls) + old(queue.queue)
  {
    var results := DrainCommands(queue, handler);
    assert forall i :: 0 <= i < |results| ==> results[i] == H.SUCCESS;
  }

  lemma FirstLocals(cfg: Config, samples: seq<Sample>)
    ensures LocalsAfter(cfg, samples[..0]) == Locals(0, CLEAR)
    ensures Flight(cfg, samples)[..0] == []
    ensures Flight(cfg, samples)[..|samples|] == Flight(cfg, samples)
  {
  }

  lemma NextLocals(cfg: Config, samples: seq<Sample>, i: nat)
    requires i < |samples|
    ensures var (st, frame) := Iterated(cfg, LocalsAfter(cfg, samples[..i]), samples[i]);
            && LocalsAfter(cfg, samples[..i + 1]) == st
            && Flight(cfg, samples)[..i + 1] == Flight(cfg, samples)[..i] + [frame]
  {
    hide Iterated;
    assert samples[..i + 1][..i] == samples[..i];
  }

  /**
   * After a complete flight: the counters and the queue account for every iteration, the ground
   * decodes what arrived into frames of the flight in order, and what never left is at the end of
   * what was accepted.
   */
  lemma LandedReport(cfg: Config, samples: seq<Sample>, d: D.TelemetryDispatcher, es: seq<Event>)
    requires Landed(cfg, samples, d, es) && |samples| < TWO_TO_64
    ensures d.framesSent + d.framesDropped + |d.queue| == |samples|
    ensures var h := Seen(Initial(d.maxQueueDepth), es);
            && |d.downlink| == d.framesSent == |h.sent|
            && (forall i :: 0 <= i < |h.sent| ==>
                  && S.Decode(d.downlink[i]) == Ok(h.sent[i])
                  && d.downlink[i].Source? && S.IsTelegram(d.downlink[i].tree, h.sent[i]))
            && IsSubsequence(h.sent, Flight(cfg, samples)) && Monotone(h.sent)
            && h.accepted == h.processed + d.queue
  {
    hide Run, Seen, Flight, S.IsTelegram;
    ShutdownAccounting(cfg, samples, es);
    DownlinkOfAnyPrefix(cfg, samples, es);
    CounterConservation(d.maxQueueDepth, es);
    FifoHistory(d.maxQueueDepth, es);
    assert Held(d.State()) == [];
    forall frame: Frame ensures S.IsTelegram(S.Encode(frame).tree, frame) {
      S.EncodeIsTelegram(frame);
    }
  }

  /** The three injected commands are the ones README.md announces. */
  lemma DemoCommands(now: uint64)
    ensures Decodable(DEMO, now)
         == [Command(1, NOOP, "", Object(map[]), now),
             Command(2, SET_MODE, "payload", Object(map["mode" := String("science")]), now),
             Command(3, PAYLOAD_ON, "", Object(map[]), now)]
  {
    DemoDecodes(now);
    assert DEMO[..2][..1] == DEMO[..1] && DEMO[..1][..0] == [];
    assert Decodable(DEMO[..1], now) == Decodable([], now) + [Decode(DEMO[0], now).value];
    assert Decodable(DEMO[..2], now) == Decodable(DEMO[..1], now) + [Decode(DEMO[1], now).value];
  }

  lemma DemoDecodes(now: uint64)
    ensures Decode(DEMO[0], now) == Ok(Command(1, NOOP, "", Object(map[]), now))
    ensures Decode(DEMO[1], now) == Ok(Command(2, SET_MODE, "payload", Object(map["mode" := String("science")]), now))
    ensures Decode(DEMO[2], now) == Ok(Command(3, PAYLOAD_ON, "", Object(map[]), now))
  {
  }
}
