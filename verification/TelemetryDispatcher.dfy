/** src/telemetry/TelemetryDispatcher.cpp, each method proved against the step machine of DispatcherModel. */
module TelemetryDispatcher {
  import opened Numeric
  import opened Wrappers
  import opened TelemetryFrame
  import opened Json
  import opened TelemetrySerializer
  import opened DispatcherModel

  datatype StartOutcome = AlreadyRunning | SocketFailed | ThreadFailed | Started

  /** The texts of the given frames, in order. */
  ghost function Encoded(frames: seq<Frame>): (texts: seq<Text>)
    ensures |texts| == |frames|
    ensures forall i :: 0 <= i < |frames| ==> texts[i] == Encode(frames[i])
  {
    seq(|frames|, i requires 0 <= i < |frames| => Encode(frames[i]))
  }

  /** An execution to be followed: where it starts and the events that the scheduler will pick. */
  datatype Course = Course(start: State, startDownlink: seq<Text>, schedule: seq<Event>)

  /** The first k events of the course end in state s with downlink d. */
  ghost predicate Leads(c: Course, k: nat, s: State, d: seq<Text>)
    requires k <= |c.schedule|
  {
    && s == Run(c.start, c.schedule[..k])
    && d == c.startDownlink + Encoded(Seen(c.start, c.schedule[..k]).sent)
  }

  /** The single event e leads from state s with downlink d to state t with downlink d'. */
  ghost predicate Advances(s: State, d: seq<Text>, e: Event, t: State, d': seq<Text>) {
    t == Step(s, e) && d' == d + Encoded(Observed(s, e).sent)
  }

  lemma OneMore(c: Course, k: nat, s: State, d: seq<Text>, t: State, d': seq<Text>)
    requires k < |c.schedule| && Leads(c, k, s, d) && Advances(s, d, c.schedule[k], t, d')
    ensures Leads(c, k + 1, t, d')
  {
    var es, e := c.schedule[..k], c.schedule[k];
    assert c.schedule[..k + 1] == es + [e];
    RunSnoc(c.start, es, e);
    EncodedConcat(Seen(c.start, es).sent, Observed(s, e).sent);
    Reassociate(c.startDownlink, Encoded(Seen(c.start, es).sent), Encoded(Observed(s, e).sent));
  }

  lemma CourseStep(c: Course, k: nat, s: State, d: seq<Text>, t: State, d': seq<Text>)
    requires k < |c.schedule| && Leads(c, k, s, d) && Leads(c, k + 1, t, d')
    ensures t == Step(s, c.schedule[k])
  {
    assert c.schedule[..k + 1] == c.schedule[..k] + [c.schedule[k]];
    RunSnoc(c.start, c.schedule[..k], c.schedule[k]);
  }

  lemma EncodedConcat(a: seq<Frame>, b: seq<Frame>)
    ensures Encoded(a + b) == Encoded(a) + Encoded(b)
  {
  }

  /**
   * A call of stop that finds the dispatcher running, from clearing m_running to closing the
   * socket: join lasts as many turns of the background thread as DispatcherModel says.
   */
  ghost function StopCourse(s: State, d: seq<Text>, udp: nat -> bool): Course {
    Course(s, d, [ClearRunning] + seq(TurnsLeft(s), i requires 0 <= i => Turn(udp(i))) + [Join, CloseSocket])
  }

  lemma StopCourseShape(s: State, d: seq<Text>, udp: nat -> bool)
    ensures var es, n := StopCourse(s, d, udp).schedule, TurnsLeft(s);
            && |es| == n + 3 && es[0] == ClearRunning && es[n + 1] == Join && es[n + 2] == CloseSocket
            && forall i :: 0 <= i < n ==> es[i + 1] == Turn(udp(i))
    ensures Leads(StopCourse(s, d, udp), 0, s, d)
  {
  }

  lemma StoppedMeansDone(s: State)
    requires Lifecycle(s) && s.control == Idle && !s.running
    ensures !Joinable(s) && s.sockFd < 0
  {
  }

  lemma OneTurnLess(s: State, sent: bool)
    requires Stopping(s) && Live(s)
    ensures var t := Step(s, Turn(sent));
            && Stopping(t) && Joinable(t) && TurnsLeft(t) == TurnsLeft(s) - 1
            && (DoneDraining(s) ==> DoneDraining(t) && t.queue == s.queue)
            && (!DoneDraining(s) && DoneDraining(t) ==> t.queue == [])
  {
  }

  class TelemetryDispatcher {
    const maxQueueDepth: uint32
    var queue: seq<Frame>
    var thread: Thread
    var running: bool
    var sockFd: int
    var framesSent: uint64
    var framesDropped: uint64
    var control: Control             // where the control thread is inside start or stop
    ghost var downlink: seq<Text>    // payloads that sendUdp delivered, oldest first

    ghost function State(): State
      reads this
    {
      DispatcherModel.State(maxQueueDepth, queue, running, thread, control, sockFd, framesSent, framesDropped)
    }

    ghost predicate Valid()
      reads this
    {
      Lifecycle(State()) && |queue| <= maxQueueDepth
    }

    /** The object is where the first k events of the course lead. */
    ghost predicate OnCourse(c: Course, k: nat)
      reads this
    {
      Valid() && k <= |c.schedule| && Leads(c, k, State(), downlink)
    }

    /** ... and the background thread has the next turn. */
    ghost predicate MyTurn(c: Course, k: nat)
      reads this
    {
      OnCourse(c, k) && k < |c.schedule| && c.schedule[k].Turn?
    }

    constructor (maxQueueDepth: uint32)
      ensures Valid() && State() == Initial(maxQueueDepth) && downlink == []
    {
      this.maxQueueDepth := maxQueueDepth;
      queue, thread, running, sockFd := [], NotStarted, false, -1;
      framesSent, framesDropped := 0, 0;
      control, downlink := Idle, [];
    }

    /** enqueue: one critical section. */
    method Enqueue(frame: Frame) returns (ok: bool)
      requires Valid()
      modifies this`queue, this`framesDropped
      ensures Valid()
      ensures State() == Step(old(State()), Event.Enqueue(frame))
      ensures ok <==> old(|queue|) < maxQueueDepth
      ensures queue == if ok then old(queue) + [frame] else old(queue)
      ensures framesDropped == if ok then old(framesDropped) else Increment(old(framesDropped))
    {
      if |queue| >= maxQueueDepth {
        framesDropped := Increment(framesDropped);
        return false;
      }
      queue := queue + [frame];
      return true;
    }

    /** start, given what socket() returns and whether the std::thread can be created. */
    method Start(fd: int, created: bool) returns (outcome: StartOutcome)
      requires Valid() && control == Idle
      modifies this
      ensures Valid() && control == Idle && downlink == old(downlink)
      ensures State() == Step(Step(Step(old(State()), OpenSocket(fd)), SetRunning), Spawn(created))
      ensures queue == old(queue) && framesSent == old(framesSent) && framesDropped == old(framesDropped)
      ensures outcome.Started? <==> !old(running) && fd >= 0 && created
      ensures outcome.Started? ==> running && thread == TestRunning && sockFd == fd
      ensures outcome.AlreadyRunning? <==> old(running)
      ensures outcome.AlreadyRunning? ==> State() == old(State())
      ensures outcome.SocketFailed? <==> !old(running) && fd < 0
      ensures outcome.SocketFailed? ==> !running && !Joinable(State())
      ensures outcome.ThreadFailed? ==> running && !Joinable(State())
    {
      if running { return AlreadyRunning; }
      sockFd := fd;
      if sockFd < 0 { return SocketFailed; }
      control := SocketOpen;
      running := true;
      control := RunningSet;
      if !created {
        control := Idle;
        return ThreadFailed;
      }
      thread := TestRunning;
      control := Idle;
      return Started;
    }

    // ---------------------------------------------------------------- the background thread

    /** The test of m_running in the outer loop. */
    method TestRunningFlag(ghost c: Course, ghost k: nat) returns (on: bool)
      requires MyTurn(c, k) && thread == TestRunning
      modifies this`thread
      ensures OnCourse(c, k + 1)
      ensures on == running && thread == if on then Sleeping else Exited
    {
      ghost var s := State();
      on := running;
      thread := if on then Sleeping else Exited;
      OneMore(c, k, s, downlink, State(), downlink);
    }

    /** sleep_for returns. */
    method WakeUp(ghost c: Course, ghost k: nat)
      requires MyTurn(c, k) && thread == Sleeping
      modifies this`thread
      ensures OnCourse(c, k + 1) && thread == LockAndPop
    {
      ghost var s := State();
      thread := LockAndPop;
      OneMore(c, k, s, downlink, State(), downlink);
    }

    /** The critical section of the inner loop. */
    method TakeFrame(ghost c: Course, ghost k: nat) returns (frame: Result<Frame, ()>)
      requires MyTurn(c, k) && thread == LockAndPop
      modifies this`thread, this`queue
      ensures OnCourse(c, k + 1)
      ensures frame.Err? <==> old(queue) == []
      ensures frame.Ok? ==> old(queue) == [frame.value] + queue
      ensures thread == if frame.Ok? then InFlight(frame.value) else TestRunning
    {
      ghost var s := State();
      if queue == [] {
        thread, frame := TestRunning, Err(());
      } else {
        frame := Ok(queue[0]);
        queue := queue[1..];
        thread := InFlight(frame.value);
      }
      OneMore(c, k, s, downlink, State(), downlink);
    }

    /** toJson, sendUdp and the counter it leads to; sent is what sendUdp returns. */
    method SendAndCount(frame: Frame, sent: bool, ghost c: Course, ghost k: nat)
      requires MyTurn(c, k) && thread == InFlight(frame) && c.schedule[k].sent == sent
      modifies this`thread, this`framesSent, this`framesDropped, this`downlink
      ensures OnCourse(c, k + 1) && thread == LockAndPop
      ensures downlink == old(downlink) + if sent then [Encode(frame)] else []
      ensures framesSent == if sent then Increment(old(framesSent)) else old(framesSent)
      ensures framesDropped == if sent then old(framesDropped) else Increment(old(framesDropped))
    {
      hide IsTelegram, Leads;
      ghost var s, d := State(), downlink;
      var payload := ToJson(frame);
      if sent {
        downlink := downlink + [payload];
        framesSent := Increment(framesSent);
      } else {
        framesDropped := Increment(framesDropped);
      }
      thread := LockAndPop;
      OneMore(c, k, s, d, State(), downlink);
    }

    /**
     * dispatchLoop, run under an arbitrary schedule: the nested loops and the program counter of
     * DispatcherModel take exactly the same steps. The call ends when the thread exits or the
     * schedule, which is a finite piece of a possibly endless one, is used up.
     */
    method DispatchLoop(schedule: seq<Event>, ghost c: Course) returns (k: nat)
      requires OnCourse(c, 0) && thread == TestRunning && c.schedule == schedule
      modifies this
      ensures OnCourse(c, k)
      ensures k < |schedule| ==> thread == Exited
    {
      hide Leads, Lifecycle, OnCourse;
      k := 0;
      while true
        invariant OnCourse(c, k) && thread == TestRunning
        decreases |schedule| - k
      {
        k := Others(schedule, k, c);
        if k == |schedule| { return; }
        var on := TestRunningFlag(c, k);
        k := k + 1;
        if !on { return; }

        k := Others(schedule, k, c);
        if k == |schedule| { return; }
        WakeUp(c, k);
        k := k + 1;

        while true
          invariant OnCourse(c, k) && thread == LockAndPop
          decreases |schedule| - k
        {
          k := Others(schedule, k, c);
          if k == |schedule| { return; }
          var frame := TakeFrame(c, k);
          k := k + 1;
          if frame.Err? { break; }

          k := Others(schedule, k, c);
          if k == |schedule| { return; }
          SendAndCount(frame.value, schedule[k].sent, c, k);
          k := k + 1;
        }
      }
    }

    /** One turn of the background thread, wherever it stands. */
    method BackgroundTurn(sent: bool, ghost c: Course, ghost k: nat)
      requires MyTurn(c, k) && c.schedule[k].sent == sent
      requires thread != NotStarted && thread != Exited
      modifies this`queue, this`thread, this`framesSent, this`framesDropped, this`downlink
      ensures OnCourse(c, k + 1)
      ensures State() == Step(old(State()), Turn(sent))
    {
      hide Leads, Lifecycle;
      ghost var s, d := State(), downlink;
      match thread {
        case TestRunning => var _ := TestRunningFlag(c, k);
        case Sleeping => WakeUp(c, k);
        case LockAndPop => var _ := TakeFrame(c, k);
        case InFlight(frame) => SendAndCount(frame, sent, c, k);
      }
      CourseStep(c, k, s, d, State(), downlink);
    }

    /** One statement of enqueue, start or stop, executed by whichever other thread is at it. */
    method OtherStep(e: Event)
      requires Valid() && !e.Turn?
      modifies this`queue, this`running, this`thread, this`sockFd, this`framesDropped, this`control
      ensures Valid()
      ensures Advances(old(State()), old(downlink), e, State(), downlink)
      ensures Live(old(State())) ==> thread == old(thread)
    {
      match e {
        case Enqueue(frame) =>
          var _ := Enqueue(frame);
        case OpenSocket(fd) =>
          if control == Idle && !running {
            sockFd, control := fd, if fd < 0 then Idle else SocketOpen;
          }
        case SetRunning =>
          if control == SocketOpen {
            running, control := true, RunningSet;
          }
        case Spawn(created) =>
          if control == RunningSet {
            thread, control := if created then TestRunning else NotStarted, Idle;
          }
        case ClearRunning =>
          if control == Idle && running {
            running, control := false, Joining;
          }
        case Join =>
          if control == Joining && (thread == NotStarted || thread == Exited) {
            thread, control := NotStarted, Closing;
          }
        case CloseSocket =>
          if control == Closing {
            sockFd, control := if sockFd >= 0 then -1 else sockFd, Idle;
          }
        case Turn(_) =>
      }
    }

    /** The scheduler lets other threads run until the background thread's next turn in the schedule. */
    method Others(schedule: seq<Event>, from: nat, ghost c: Course) returns (k: nat)
      requires OnCourse(c, from) && c.schedule == schedule
      requires thread != NotStarted && thread != Exited
      modifies this`queue, this`running, this`thread, this`sockFd, this`framesDropped, this`control
      ensures OnCourse(c, k) && thread == old(thread)
      ensures from <= k && (k == |schedule| || MyTurn(c, k))
    {
      k := from;
      while k < |schedule| && !schedule[k].Turn?
        invariant from <= k && OnCourse(c, k) && thread == old(thread)
      {
        ghost var s := State();
        OtherStep(schedule[k]);
        OneMore(c, k, s, downlink, State(), downlink);
        k := k + 1;
      }
    }

    /** stop; udp says how sendUdp answers while the background thread is being joined. */
    method Stop(udp: nat -> bool)
      requires Valid() && control == Idle
      modifies this
      ensures Valid() && control == Idle
      ensures !running && !Joinable(State()) && sockFd < 0
      ensures !old(running) ==> State() == old(State()) && downlink == old(downlink)
      ensures queue == if old(DoneDraining(State())) then old(queue) else []
      ensures var c := StopCourse(old(State()), old(downlink), udp); old(running) ==> OnCourse(c, |c.schedule|)
    {
      hide Leads, Lifecycle;
      if !running {
        StoppedMeansDone(State());
        return;
      }
      ghost var c, n := StopCourse(State(), downlink, udp), TurnsLeft(State());
      StopCourseShape(State(), downlink, udp);
      ClearRunningFlag(c);
      if thread != NotStarted {
        JoinThread(udp, c, n);
      }
      ReleaseThread(c, n + 1);
    }

    /** stop: m_running = false. */
    method ClearRunningFlag(ghost c: Course)
      requires OnCourse(c, 0) && |c.schedule| > 0 && c.schedule[0] == ClearRunning
      requires control == Idle && running
      modifies this`running, this`control
      ensures OnCourse(c, 1) && Stopping(State())
    {
      ghost var s := State();
      running := false;
      control := Joining;
      OneMore(c, 0, s, downlink, State(), downlink);
    }

    /** stop: the joined thread is let go and the socket is closed. */
    method ReleaseThread(ghost c: Course, ghost k: nat)
      requires OnCourse(c, k) && |c.schedule| == k + 2
      requires c.schedule[k] == Join && c.schedule[k + 1] == CloseSocket
      requires Stopping(State()) && !Live(State())
      modifies this`thread, this`control, this`sockFd
      ensures OnCourse(c, k + 2)
      ensures control == Idle && !Joinable(State()) && sockFd < 0
    {
      ghost var s := State();
      thread := NotStarted;
      control := Closing;
      OneMore(c, k, s, downlink, State(), downlink);
      s := State();
      if sockFd >= 0 {
        sockFd := -1;
      }
      control := Idle;
      OneMore(c, k + 1, s, downlink, State(), downlink);
    }

    /** m_thread.join(): the background thread runs, nobody else does, until it exits. */
    method JoinThread(udp: nat -> bool, ghost c: Course, ghost n: nat)
      requires OnCourse(c, 1) && n == TurnsLeft(State()) && |c.schedule| > n
      requires forall i :: 0 <= i < n ==> c.schedule[i + 1] == Turn(udp(i))
      requires Stopping(State()) && Joinable(State())
      modifies this`queue, this`thread, this`framesSent, this`framesDropped, this`downlink
      ensures OnCourse(c, n + 1) && thread == Exited && Stopping(State())
      ensures queue == if old(DoneDraining(State())) then old(queue) else []
    {
      hide Leads, Lifecycle, OnCourse, TurnStep;
      var i := 0;
      while thread != Exited
        invariant OnCourse(c, i + 1) && TurnsLeft(State()) + i == n && Joinable(State())
        invariant old(DoneDraining(State())) ==> DoneDraining(State()) && queue == old(queue)
        invariant !old(DoneDraining(State())) && DoneDraining(State()) ==> queue == []
        decreases TurnsLeft(State())
      {
        OneTurnLess(State(), udp(i));
        BackgroundTurn(udp(i), c, i + 1);
        i := i + 1;
      }
    }

    /** The destructor is a call of stop: it leaves no thread to join and no socket to close. */
    method Destroy(udp: nat -> bool)
      requires Valid() && control == Idle
      modifies this
      ensures Valid() && !Joinable(State()) && sockFd < 0
    {
      Stop(udp);
    }
  }
}
