/**
 * TelemetryDispatcher as a step machine: any number of producers calling enqueue, one control
 * thread calling start and stop, one background thread running dispatchLoop.
 *
 * Every critical section and every access to an atomic is one step; an event sequence is an
 * arbitrary interleaving, in which an event that is not enabled leaves the state alone.
 */
module DispatcherModel {
  import opened Numeric
  import opened Sequences
  import opened TelemetryFrame

  /** Where the thread held by `m_thread` stands; `NotStarted` is a handle that is not joinable. */
  datatype Thread =
    | NotStarted
    | TestRunning              // about to test m_running in the outer loop
    | Sleeping                 // in sleep_for
    | LockAndPop               // about to take the lock in the inner loop
    | InFlight(frame: Frame)   // holds a popped frame, about to send and count it
    | Exited                   // returned from dispatchLoop, not joined yet

  /** Where the control thread stands inside start or stop. */
  datatype Control =
    | Idle         // outside both
    | SocketOpen   // start: socket created, m_running still false
    | RunningSet   // start: m_running set, thread not created yet
    | Joining      // stop: m_running cleared, joining
    | Closing      // stop: joined, socket still open

  datatype State = State(
    maxDepth: uint32,
    queue: seq<Frame>,
    running: bool,
    thread: Thread,
    control: Control,
    sockFd: int,
    framesSent: uint64,
    framesDropped: uint64)

  datatype Event =
    | Enqueue(frame: Frame)     // any producer: the body of enqueue
    | OpenSocket(fd: int)       // start: test m_running, call socket(); a negative fd makes start throw
    | SetRunning                // start: m_running = true
    | Spawn(created: bool)      // start: construct the std::thread; not created makes start throw
    | ClearRunning              // stop: test m_running, m_running = false
    | Join                      // stop: join if joinable
    | CloseSocket               // stop: close the descriptor
    | Turn(sent: bool)          // background thread: its next step; sent is what sendUdp returns

  function Initial(maxDepth: uint32): State {
    State(maxDepth, [], false, NotStarted, Idle, -1, 0, 0)
  }

  predicate Joinable(s: State) {
    s.thread != NotStarted
  }

  /** The background thread still has steps to take. */
  predicate Live(s: State) {
    s.thread != NotStarted && s.thread != Exited
  }

  /** The background thread is between taking the lock for the first time and finding the queue empty. */
  predicate Draining(s: State) {
    s.thread == LockAndPop || s.thread.InFlight?
  }

  predicate Enabled(s: State, e: Event) {
    match e
    case Enqueue(_) => true
    case OpenSocket(_) => s.control == Idle && !s.running
    case SetRunning => s.control == SocketOpen
    case Spawn(_) => s.control == RunningSet
    case ClearRunning => s.control == Idle && s.running
    case Join => s.control == Joining && !Live(s)
    case CloseSocket => s.control == Closing
    case Turn(_) => Live(s)
  }

  /** One step of the background thread. */
  function TurnStep(s: State, sent: bool): State
    requires Live(s)
  {
    match s.thread
    case TestRunning => s.(thread := if s.running then Sleeping else Exited)
    case Sleeping => s.(thread := LockAndPop)
    case LockAndPop =>
      if s.queue == [] then s.(thread := TestRunning)
      else s.(thread := InFlight(s.queue[0]), queue := s.queue[1..])
    case InFlight(_) =>
      if sent then s.(thread := LockAndPop, framesSent := Increment(s.framesSent))
      else s.(thread := LockAndPop, framesDropped := Increment(s.framesDropped))
  }

  function Step(s: State, e: Event): State {
    if !Enabled(s, e) then s else
    match e
    case Enqueue(frame) =>
      if |s.queue| >= s.maxDepth then s.(framesDropped := Increment(s.framesDropped))
      else s.(queue := s.queue + [frame])
    case OpenSocket(fd) => s.(sockFd := fd, control := if fd < 0 then Idle else SocketOpen)
    case SetRunning => s.(running := true, control := RunningSet)
    case Spawn(created) => s.(thread := if created then TestRunning else NotStarted, control := Idle)
    case ClearRunning => s.(running := false, control := Joining)
    case Join => s.(thread := NotStarted, control := Closing)
    case CloseSocket => s.(sockFd := if s.sockFd >= 0 then -1 else s.sockFd, control := Idle)
    case Turn(sent) => TurnStep(s, sent)
  }

  ghost function Run(s: State, es: seq<Event>): State {
    if es == [] then s
    else Step(Run(s, es[..|es| - 1]), es[|es| - 1])
  }

  /** What an observer of a run writes down. */
  datatype History = History(
    attempts: seq<Frame>,    // frames handed to enqueue
    rejected: seq<Frame>,    // ... refused because the queue was full
    accepted: seq<Frame>,    // ... put in the queue
    processed: seq<Frame>,   // frames the background thread is done with
    sent: seq<Frame>,        // ... sendUdp succeeded
    failed: seq<Frame>)      // ... sendUdp failed

  const NOTHING := History([], [], [], [], [], [])

  function Then(a: History, b: History): History {
    History(a.attempts + b.attempts, a.rejected + b.rejected, a.accepted + b.accepted,
            a.processed + b.processed, a.sent + b.sent, a.failed + b.failed)
  }

  /** What one event adds to the history. */
  function Observed(s: State, e: Event): History {
    match e
    case Enqueue(frame) =>
      if |s.queue| >= s.maxDepth then NOTHING.(attempts := [frame], rejected := [frame])
      else NOTHING.(attempts := [frame], accepted := [frame])
    case Turn(sent) =>
      if !s.thread.InFlight? then NOTHING
      else if sent then NOTHING.(processed := [s.thread.frame], sent := [s.thread.frame])
      else NOTHING.(processed := [s.thread.frame], failed := [s.thread.frame])
    case _ => NOTHING
  }

  ghost function Seen(s: State, es: seq<Event>): History {
    if es == [] then NOTHING
    else Then(Seen(s, es[..|es| - 1]), Observed(Run(s, es[..|es| - 1]), es[|es| - 1]))
  }

  /** The frame the background thread holds, if any: in neither the queue nor a counter. */
  function Held(s: State): seq<Frame> {
    if s.thread.InFlight? then [s.thread.frame] else []
  }

  /** Accepted and not yet processed, oldest first. */
  function Pending(s: State): seq<Frame> {
    Held(s) + s.queue
  }

  // ------------------------------------------------------------------ runs compose

  lemma RunSnoc(s: State, es: seq<Event>, e: Event)
    ensures Run(s, es + [e]) == Step(Run(s, es), e)
    ensures Seen(s, es + [e]) == Then(Seen(s, es), Observed(Run(s, es), e))
  {
  }

  lemma ThenIsAssociative(a: History, b: History, c: History)
    ensures Then(Then(a, b), c) == Then(a, Then(b, c))
  {
  }

  lemma NothingIsNeutral(h: History)
    ensures Then(h, NOTHING) == h == Then(NOTHING, h)
  {
  }

  lemma Reassociate<T>(a: seq<T>, b: seq<T>, c: seq<T>)
    ensures (a + b) + c == a + (b + c)
  {
  }

  lemma {:induction false} RunConcat(s: State, a: seq<Event>, b: seq<Event>)
    ensures Run(s, a + b) == Run(Run(s, a), b)
    decreases |b|
  {
    if b == [] {
      assert a + b == a;
    } else {
      var init, e := b[..|b| - 1], b[|b| - 1];
      RunConcat(s, a, init);
      assert a + b == (a + init) + [e];
      RunSnoc(s, a + init, e);
    }
  }

  lemma SplitRun(s: State, es: seq<Event>, k: nat)
    requires k <= |es|
    ensures Run(s, es) == Run(Run(s, es[..k]), es[k..])
  {
    assert es == es[..k] + es[k..];
    RunConcat(s, es[..k], es[k..]);
  }

  lemma {:induction false} SeenConcat(s: State, a: seq<Event>, b: seq<Event>)
    ensures Seen(s, a + b) == Then(Seen(s, a), Seen(Run(s, a), b))
    decreases |b|
  {
    hide Run, Then, Observed;
    if b == [] {
      assert a + b == a;
      NothingIsNeutral(Seen(s, a));
    } else {
      var init, e := b[..|b| - 1], b[|b| - 1];
      SeenConcat(s, a, init);
      SeenOneMore(s, a, init, e);
      assert b == init + [e];
    }
  }

  lemma SeenOneMore(s: State, a: seq<Event>, init: seq<Event>, e: Event)
    requires Seen(s, a + init) == Then(Seen(s, a), Seen(Run(s, a), init))
    ensures Seen(s, a + (init + [e])) == Then(Seen(s, a), Seen(Run(s, a), init + [e]))
  {
    var o := Observed(Run(s, a + init), e);
    RunConcat(s, a, init);
    RunSnoc(s, a + init, e);
    RunSnoc(Run(s, a), init, e);
    Reassociate(a, init, [e]);
    ThenIsAssociative(Seen(s, a), Seen(Run(s, a), init), o);
  }

  // ------------------------------------------------------------------ lifecycle

  /**
   * What start, stop and the thread they manage keep true at every step. In particular: a live
   * background thread always has an open socket, a second thread is never created while one is
   * joinable, and the socket is never closed under a live thread.
   */
  ghost predicate Lifecycle(s: State) {
    match s.control
    case Idle =>
      (s.running <==> s.sockFd >= 0) && (Joinable(s) ==> s.running && Live(s))
    case SocketOpen => !s.running && !Joinable(s) && s.sockFd >= 0
    case RunningSet => s.running && !Joinable(s) && s.sockFd >= 0
    case Joining => !s.running && s.sockFd >= 0
    case Closing => !s.running && !Joinable(s) && s.sockFd >= 0
  }

  lemma {:induction false} LifecycleHolds(s: State, es: seq<Event>)
    requires Lifecycle(s)
    ensures Lifecycle(Run(s, es))
  {
    if es != [] {
      LifecycleHolds(s, es[..|es| - 1]);
    }
  }

  /**
   * What the lifecycle buys, at every step of every run: sendUdp only ever runs on an open
   * socket; the socket changes only while no thread is there to use it; a thread is created only
   * when none is joinable (assigning over a joinable std::thread would terminate the program);
   * and start and stop return with m_running saying whether the socket is open.
   */
  lemma ThreadAndSocketAreSafe(maxDepth: uint32, es: seq<Event>, e: Event)
    ensures var s, t := Run(Initial(maxDepth), es), Step(Run(Initial(maxDepth), es), e);
            && (e.Turn? && Live(s) ==> s.sockFd >= 0)
            && (t.sockFd != s.sockFd ==> !Live(s) && !Live(t))
            && (e.Spawn? && t != s ==> !Joinable(s))
            && (t.control == Idle ==> (t.running <==> t.sockFd >= 0))
            && (Joinable(t) && t.control == Idle ==> t.running)
  {
    LifecycleHolds(Initial(maxDepth), es);
  }

  /** Of the events that decide it, the latest effective one is a failed thread creation. */
  ghost predicate SpawnFailedLast(s: State, es: seq<Event>) {
    es != [] &&
    var before, e := es[..|es| - 1], es[|es| - 1];
    if Enabled(Run(s, before), e) && e.Spawn? then !e.created
    else !(Enabled(Run(s, before), e) && e.ClearRunning?) && SpawnFailedLast(s, before)
  }

  /**
   * Between calls, m_running says whether there is a thread to join, with one exception: start
   * sets m_running before it creates the thread, so when that creation throws, m_running stays
   * set without a thread until the next stop.
   */
  lemma {:induction false} RunningMeansJoinable(maxDepth: uint32, es: seq<Event>)
    ensures var s := Run(Initial(maxDepth), es);
            && (s.control == Idle ==>
                  ((s.running <==> Joinable(s)) <==> !SpawnFailedLast(Initial(maxDepth), es)))
            && (SpawnFailedLast(Initial(maxDepth), es) ==> s.control == Idle && s.running && !Joinable(s))
  {
    if es != [] {
      RunningMeansJoinable(maxDepth, es[..|es| - 1]);
      LifecycleHolds(Initial(maxDepth), es[..|es| - 1]);
    }
  }

  // ------------------------------------------------------------------ no loss, no duplication, no reordering

  lemma PoppingKeepsPending(s: State, e: Event)
    requires Lifecycle(s)
    requires !e.Enqueue? && !(e.Turn? && s.thread.InFlight?)
    ensures Pending(Step(s, e)) == Pending(s)
  {
    if e.Turn? && s.thread == LockAndPop && s.queue != [] {
      calc {
        Pending(Step(s, e));
        [s.queue[0]] + s.queue[1..];
        s.queue;
        [] + s.queue;
        Pending(s);
      }
    } else {
      assert Held(Step(s, e)) == Held(s) && Step(s, e).queue == s.queue;
    }
  }

  lemma StepKeepsOrder(s: State, e: Event)
    requires Lifecycle(s)
    ensures Pending(s) + Observed(s, e).accepted == Observed(s, e).processed + Pending(Step(s, e))
  {
    var a, p := Observed(s, e).accepted, Observed(s, e).processed;
    if e.Enqueue? {
      assert p == [] && Held(Step(s, e)) == Held(s);
    } else if e.Turn? && s.thread.InFlight? {
      assert a == [] && p == [s.thread.frame] && Pending(Step(s, e)) == s.queue;
    } else {
      PoppingKeepsPending(s, e);
      assert a == [] && p == [];
    }
  }

  /**
   * From any state on, under any interleaving of producers, background thread, start and stop:
   * what was pending, followed by what is accepted, is what gets processed, followed by what
   * is pending afterwards. Nothing accepted is lost, duplicated or reordered.
   */
  lemma {:induction false} AcceptedFramesFlowInOrder(s: State, es: seq<Event>)
    requires Lifecycle(s)
    ensures Pending(s) + Seen(s, es).accepted == Seen(s, es).processed + Pending(Run(s, es))
  {
    if es == [] {
    } else {
      var before, e := es[..|es| - 1], es[|es| - 1];
      AcceptedFramesFlowInOrder(s, before);
      LifecycleHolds(s, before);
      var t, h, o := Run(s, before), Seen(s, before), Observed(Run(s, before), e);
      StepKeepsOrder(t, e);
      Reassociate(Pending(s), h.accepted, o.accepted);
      Reassociate(h.processed, Pending(t), o.accepted);
      Reassociate(h.processed, o.processed, Pending(Step(t, e)));
    }
  }

  /** From the very start: accepted == processed, then the frame in flight, then the queue. */
  lemma FifoHistory(maxDepth: uint32, es: seq<Event>)
    ensures var s, h := Run(Initial(maxDepth), es), Seen(Initial(maxDepth), es);
            h.accepted == h.processed + Held(s) + s.queue
  {
    hide Run, Seen;
    var s, h := Run(Initial(maxDepth), es), Seen(Initial(maxDepth), es);
    AcceptedFramesFlowInOrder(Initial(maxDepth), es);
    assert Pending(Initial(maxDepth)) + h.accepted == h.accepted;
    Reassociate(h.processed, Held(s), s.queue);
  }

  /** Frames left over by one stop are processed first, in order, whatever happens later. */
  lemma LeftoverGoesFirst(s: State, es: seq<Event>)
    requires Lifecycle(s) && !Joinable(s)
    ensures var done := Seen(s, es).processed;
            if |done| <= |s.queue| then done <= s.queue else s.queue <= done
  {
    var h := Seen(s, es);
    AcceptedFramesFlowInOrder(s, es);
    assert Pending(s) == s.queue;
    assert h.processed <= s.queue + h.accepted && s.queue <= h.processed + Pending(Run(s, es));
    forall i | 0 <= i < |h.processed| && i < |s.queue|
      ensures h.processed[i] == s.queue[i]
    {
      assert (s.queue + h.accepted)[i] == (h.processed + Pending(Run(s, es)))[i];
    }
  }

  /** The selections an observer makes keep the order of what they select from. */
  ghost predicate Ordered(h: History) {
    && IsSubsequence(h.accepted, h.attempts)
    && IsSubsequence(h.rejected, h.attempts)
    && IsSubsequence(h.sent, h.processed)
    && IsSubsequence(h.failed, h.processed)
  }

  lemma {:induction false} HistoryIsOrdered(s: State, es: seq<Event>)
    ensures Ordered(Seen(s, es))
  {
    if es == [] {
      EmptyIsSubsequence<Frame>([]);
    } else {
      var before, e := es[..|es| - 1], es[|es| - 1];
      HistoryIsOrdered(s, before);
      var h, o := Seen(s, before), Observed(Run(s, before), e);
      ExtendedSelection(h.accepted, h.attempts, o.accepted, o.attempts);
      ExtendedSelection(h.rejected, h.attempts, o.rejected, o.attempts);
      ExtendedSelection(h.sent, h.processed, o.sent, o.processed);
      ExtendedSelection(h.failed, h.processed, o.failed, o.processed);
    }
  }

  lemma ExtendedSelection(a: seq<Frame>, b: seq<Frame>, x: seq<Frame>, y: seq<Frame>)
    requires IsSubsequence(a, b)
    requires x == [] || (x == y && |x| == 1)
    ensures IsSubsequence(a + x, b + y)
  {
    if x == [] {
      ExtendRight(a, b, y);
      assert a + x == a;
    } else {
      assert x == [x[0]];
      ExtendBoth(a, b, x[0]);
    }
  }

  // ------------------------------------------------------------------ conservation

  /** Every attempt is accepted or refused; every processed frame was sent or failed. */
  ghost predicate Partitioned(h: History) {
    && multiset(h.attempts) == multiset(h.accepted) + multiset(h.rejected)
    && multiset(h.processed) == multiset(h.sent) + multiset(h.failed)
  }

  lemma MixedIn<T>(a: seq<T>, b: seq<T>, c: seq<T>, x: seq<T>, y: seq<T>, z: seq<T>)
    requires multiset(a) == multiset(b) + multiset(c)
    requires multiset(x) == multiset(y) + multiset(z)
    ensures multiset(a + x) == multiset(b + y) + multiset(c + z)
  {
  }

  lemma {:induction false} HistoryIsPartitioned(s: State, es: seq<Event>)
    ensures Partitioned(Seen(s, es))
  {
    if es != [] {
      var before, e := es[..|es| - 1], es[|es| - 1];
      HistoryIsPartitioned(s, before);
      var h, o := Seen(s, before), Observed(Run(s, before), e);
      assert Partitioned(o);
      MixedIn(h.attempts, h.accepted, h.rejected, o.attempts, o.accepted, o.rejected);
      MixedIn(h.processed, h.sent, h.failed, o.processed, o.sent, o.failed);
    }
  }

  /**
   * Every frame ever handed to enqueue is, with its multiplicity, exactly one of: refused,
   * sent, failed to send, in flight, still queued.
   */
  ghost predicate Conserved(s: State, h: History) {
    multiset(h.attempts)
    == multiset(h.rejected) + multiset(h.sent) + multiset(h.failed) + multiset(Held(s)) + multiset(s.queue)
  }

  lemma FramesAreConserved(maxDepth: uint32, es: seq<Event>)
    ensures Conserved(Run(Initial(maxDepth), es), Seen(Initial(maxDepth), es))
  {
    FifoHistory(maxDepth, es);
    HistoryIsPartitioned(Initial(maxDepth), es);
  }

  /** The two atomic counters, one of which two threads increment, count modulo 2^64. */
  ghost predicate Counted(s: State, h: History) {
    && s.framesSent == |h.sent| % TWO_TO_64
    && s.framesDropped == (|h.rejected| + |h.failed|) % TWO_TO_64
  }

  lemma StepCounts(s: State, h: History, e: Event)
    requires Counted(s, h)
    ensures Counted(Step(s, e), Then(h, Observed(s, e)))
  {
    IncrementCounts(|h.sent|);
    IncrementCounts(|h.rejected| + |h.failed|);
  }

  lemma {:induction false} CountersCount(maxDepth: uint32, es: seq<Event>)
    ensures Counted(Run(Initial(maxDepth), es), Seen(Initial(maxDepth), es))
  {
    if es != [] {
      var before := es[..|es| - 1];
      CountersCount(maxDepth, before);
      StepCounts(Run(Initial(maxDepth), before), Seen(Initial(maxDepth), before), es[|es| - 1]);
    }
  }

  lemma ConservedSizes(s: State, h: History)
    requires Conserved(s, h)
    ensures |h.attempts| == |h.rejected| + |h.sent| + |h.failed| + |Held(s)| + |s.queue|
  {
    assert |multiset(h.attempts)| == |multiset(h.rejected)| + |multiset(h.sent)| + |multiset(h.failed)|
                                     + |multiset(Held(s))| + |multiset(s.queue)|;
  }

  /** Below the counters' wrap-around: attempts == framesSent + framesDropped + in flight + queued. */
  lemma CounterConservation(maxDepth: uint32, es: seq<Event>)
    requires |Seen(Initial(maxDepth), es).attempts| < TWO_TO_64
    ensures var s, h := Run(Initial(maxDepth), es), Seen(Initial(maxDepth), es);
            && |h.attempts| == s.framesSent + s.framesDropped + |Held(s)| + |s.queue|
            && s.framesSent == |h.sent|
            && s.framesDropped == |h.rejected| + |h.failed|
  {
    FramesAreConserved(maxDepth, es);
    CountersCount(maxDepth, es);
    NoWrap(Run(Initial(maxDepth), es), Seen(Initial(maxDepth), es));
  }

  lemma NoWrap(s: State, h: History)
    requires Conserved(s, h) && Counted(s, h) && |h.attempts| < TWO_TO_64
    ensures s.framesSent == |h.sent| && s.framesDropped == |h.rejected| + |h.failed|
    ensures |h.attempts| == s.framesSent + s.framesDropped + |Held(s)| + |s.queue|
  {
    ConservedSizes(s, h);
  }

  lemma {:induction false} QueueIsBounded(s: State, es: seq<Event>)
    requires |s.queue| <= s.maxDepth
    ensures Run(s, es).maxDepth == s.maxDepth && |Run(s, es).queue| <= s.maxDepth
  {
    if es != [] {
      QueueIsBounded(s, es[..|es| - 1]);
    }
  }

  /** How many frames are between acceptance and the end of their processing, apart from the one in flight. */
  ghost function Waiting(s: State, es: seq<Event>): int {
    |Seen(s, es).accepted| - |Seen(s, es).processed| - |Held(Run(s, es))|
  }

  /**
   * The answer enqueue gives in any run: the frame is accepted, and nothing is dropped, if fewer
   * than depth accepted frames wait for the background thread; otherwise it is refused and
   * counted as dropped. Nothing else decides it, in particular not m_running.
   */
  lemma EnqueueAnswersByDepth(maxDepth: uint32, es: seq<Event>, frame: Frame)
    ensures var s0 := Initial(maxDepth);
            var s, t := Run(s0, es), Run(s0, es + [Enqueue(frame)]);
            var h, g := Seen(s0, es), Seen(s0, es + [Enqueue(frame)]);
            if Waiting(s0, es) < maxDepth then
              && g == h.(attempts := h.attempts + [frame], accepted := h.accepted + [frame])
              && t == s.(queue := s.queue + [frame])
            else
              && g == h.(attempts := h.attempts + [frame], rejected := h.rejected + [frame])
              && t == s.(framesDropped := Increment(s.framesDropped))
  {
    hide Seen, Run;
    FifoHistory(maxDepth, es);
    QueueIsBounded(Initial(maxDepth), es);
    RunSnoc(Initial(maxDepth), es, Enqueue(frame));
    var h := Seen(Initial(maxDepth), es);
    assert h.accepted + [] == h.accepted && h.rejected + [] == h.rejected;
    assert h.processed + [] == h.processed && h.sent + [] == h.sent && h.failed + [] == h.failed;
  }

  /** What sendUdp returned, send by send. */
  ghost function Answers(s: State, es: seq<Event>): seq<bool> {
    if es == [] then []
    else
      Answers(s, es[..|es| - 1]) +
      (if es[|es| - 1].Turn? && Run(s, es[..|es| - 1]).thread.InFlight? then [es[|es| - 1].sent] else [])
  }

  /** The frames whose answer was this one. */
  function Answered(frames: seq<Frame>, answers: seq<bool>, answer: bool): seq<Frame>
    requires |frames| == |answers|
  {
    if frames == [] then []
    else
      var last := |frames| - 1;
      Answered(frames[..last], answers[..last], answer) + if answers[last] == answer then [frames[last]] else []
  }

  lemma AnsweredSnoc(frames: seq<Frame>, answers: seq<bool>, frame: Frame, sent: bool, answer: bool)
    requires |frames| == |answers|
    ensures Answered(frames + [frame], answers + [sent], answer)
         == Answered(frames, answers, answer) + if sent == answer then [frame] else []
  {
    assert (frames + [frame])[..|frames|] == frames && (answers + [sent])[..|frames|] == answers;
  }

  /**
   * Each processed frame had exactly one answer from sendUdp; the sent ones are those it
   * confirmed, and the failed ones, counted as dropped, are those it did not.
   */
  lemma {:induction false} AnswersDecide(s: State, es: seq<Event>)
    ensures var h := Seen(s, es);
            && |h.processed| == |Answers(s, es)|
            && h.sent == Answered(h.processed, Answers(s, es), true)
            && h.failed == Answered(h.processed, Answers(s, es), false)
  {
    hide Run, Answered;
    if es == [] {
      NoAnswersYet();
    } else {
      var before, e := es[..|es| - 1], es[|es| - 1];
      AnswersDecide(s, before);
      var h, t := Seen(s, before), Run(s, before);
      if e.Turn? && t.thread.InFlight? {
        AnsweredSnoc(h.processed, Answers(s, before), t.thread.frame, e.sent, true);
        AnsweredSnoc(h.processed, Answers(s, before), t.thread.frame, e.sent, false);
      } else {
        assert h.processed + [] == h.processed && h.sent + [] == h.sent && h.failed + [] == h.failed;
        assert Answers(s, before) + [] == Answers(s, before);
      }
    }
  }

  lemma NoAnswersYet()
    ensures Answered([], [], true) == [] == Answered([], [], false)
  {
  }

  // ------------------------------------------------------------------ what shutdown leaves behind

  /** The event is the background thread finding the queue empty, which ends a drain. */
  predicate FindsEmpty(s: State, e: Event) {
    e.Turn? && s.thread == LockAndPop && s.queue == []
  }

  /** How much of `es` lies up to and including the last time a background thread found the queue empty. */
  ghost function LastFoundEmpty(s: State, es: seq<Event>): (k: nat)
    ensures k <= |es|
  {
    if es == [] then 0
    else if FindsEmpty(Run(s, es[..|es| - 1]), es[|es| - 1]) then |es|
    else LastFoundEmpty(s, es[..|es| - 1])
  }

  lemma LastFoundEmptyState(s: State, es: seq<Event>)
    requires s.queue == [] && !Joinable(s)
    ensures Pending(Run(s, es[..LastFoundEmpty(s, es)])) == []
  {
    if es != [] {
      var before := es[..|es| - 1];
      if FindsEmpty(Run(s, before), es[|es| - 1]) {
        assert es[..|es|] == es;
      } else {
        LastFoundEmptyState(s, before);
        assert before[..LastFoundEmpty(s, before)] == es[..LastFoundEmpty(s, before)];
      }
    }
  }

  /** Outside a drain, nothing has been taken out of the queue since it was last found empty. */
  lemma {:induction false} NothingTakenSince(s: State, es: seq<Event>)
    requires Lifecycle(s) && s.queue == [] && !Joinable(s)
    requires !Draining(Run(s, es))
    ensures var k := LastFoundEmpty(s, es); Seen(Run(s, es[..k]), es[k..]).processed == []
  {
    hide Step, Observed, Lifecycle, FindsEmpty;
    var k := LastFoundEmpty(s, es);
    if k < |es| {
      var before, e := es[..|es| - 1], es[|es| - 1];
      LifecycleHolds(s, before);
      NotDrainingBefore(Run(s, before), e);
      NothingTakenSince(s, before);
      assert es[..k] == before[..k] && es[k..] == before[k..] + [e];
      SplitRun(s, before, k);
      NoneMoreProcessed(Run(s, es[..k]), before[k..], e);
    }
  }

  lemma NotDrainingBefore(s: State, e: Event)
    requires Lifecycle(s) && !Draining(Step(s, e)) && !FindsEmpty(s, e)
    ensures !Draining(s)
  {
  }

  lemma NoneMoreProcessed(s: State, es: seq<Event>, e: Event)
    requires Seen(s, es).processed == [] && !Draining(Run(s, es))
    ensures Seen(s, es + [e]).processed == []
  {
  }

  /**
   * The exact residue of a shutdown. Whenever no drain is under way, in particular once stop has
   * joined the thread, the queue holds exactly the frames accepted since a background thread
   * last found the queue empty, or since the beginning if none ever did.
   */
  lemma ShutdownResidue(maxDepth: uint32, es: seq<Event>)
    requires !Draining(Run(Initial(maxDepth), es))
    ensures var k := LastFoundEmpty(Initial(maxDepth), es);
            Run(Initial(maxDepth), es).queue == Seen(Run(Initial(maxDepth), es[..k]), es[k..]).accepted
  {
    ResidueSince(Initial(maxDepth), es, LastFoundEmpty(Initial(maxDepth), es));
  }

  lemma ResidueSince(s: State, es: seq<Event>, k: nat)
    requires Lifecycle(s) && s.queue == [] && !Joinable(s)
    requires !Draining(Run(s, es)) && k == LastFoundEmpty(s, es)
    ensures Run(s, es).queue == Seen(Run(s, es[..k]), es[k..]).accepted
  {
    LastFoundEmptyState(s, es);
    NothingTakenSince(s, es);
    LifecycleHolds(s, es[..k]);
    SplitRun(s, es, k);
    AllAcceptedAreQueued(Run(s, es[..k]), es[k..]);
  }

  lemma AllAcceptedAreQueued(s: State, es: seq<Event>)
    requires Lifecycle(s) && Pending(s) == []
    requires Seen(s, es).processed == [] && !Draining(Run(s, es))
    ensures Run(s, es).queue == Seen(s, es).accepted
  {
    var t, h := Run(s, es), Seen(s, es);
    AcceptedFramesFlowInOrder(s, es);
    assert Pending(s) + h.accepted == h.accepted;
    assert h.processed + Pending(t) == Pending(t) == t.queue;
  }

  // ------------------------------------------------------------------ delivery while running

  /** How many turns a running background thread needs until nothing is pending, if nobody enqueues. */
  function TurnsToDeliver(s: State): nat {
    if Pending(s) == [] then 0 else
    match s.thread
    case TestRunning => 2 * |s.queue| + 2
    case LockAndPop => 2 * |s.queue|
    case _ => 2 * |s.queue| + 1
  }

  /** While the dispatcher runs, everything pending is processed after exactly that many turns. */
  lemma {:induction false} DeliveryTakesExactly(s: State, es: seq<Event>)
    requires s.running && Live(s) && forall e <- es :: e.Turn?
    ensures var t := Run(s, es);
            && t.running && Live(t)
            && TurnsToDeliver(t) == (if |es| <= TurnsToDeliver(s) then TurnsToDeliver(s) - |es| else 0)
            && (Pending(t) == [] <==> |es| >= TurnsToDeliver(s))
  {
    if es != [] {
      var before := es[..|es| - 1];
      assert forall e <- before :: e in es;
      DeliveryTakesExactly(s, before);
      assert es[|es| - 1].Turn?;
      OneTurnCloser(Run(s, before), es[|es| - 1].sent);
    } else {
      NothingToDeliver(s);
    }
  }

  lemma OneTurnCloser(s: State, sent: bool)
    requires s.running && Live(s)
    ensures var t := Step(s, Turn(sent));
            && t.running && Live(t)
            && TurnsToDeliver(t) == (if TurnsToDeliver(s) > 0 then TurnsToDeliver(s) - 1 else 0)
            && (Pending(t) == [] <==> TurnsToDeliver(t) == 0)
  {
  }

  lemma NothingToDeliver(s: State)
    requires Live(s)
    ensures Pending(s) == [] <==> TurnsToDeliver(s) == 0
    ensures Pending(s) == [] <==> s.queue == [] && !s.thread.InFlight?
  {
  }

  // ------------------------------------------------------------------ shutdown terminates

  /** The control thread waits in join; only the background thread and producers can move. */
  predicate Stopping(s: State) {
    s.control == Joining && !s.running
  }

  /** How many turns the background thread still needs to exit if nobody enqueues any more. */
  function TurnsLeft(s: State): nat {
    match s.thread
    case NotStarted => 0
    case Exited => 0
    case TestRunning => 1
    case Sleeping => 2 * |s.queue| + 3
    case LockAndPop => 2 * |s.queue| + 2
    case InFlight(_) => 2 * |s.queue| + 3
  }

  function Turns(es: seq<Event>): nat {
    if es == [] then 0
    else Turns(es[..|es| - 1]) + if es[|es| - 1].Turn? then 1 else 0
  }

  /** The thread will not look at the queue again before it exits. */
  predicate DoneDraining(s: State) {
    s.thread == TestRunning || !Live(s)
  }

  /**
   * Without producers stop terminates after exactly TurnsLeft turns of the background thread,
   * not earlier and not later. A thread caught before its test of m_running strands the whole
   * queue; any other thread leaves it empty.
   */
  lemma {:induction false} StopTakesExactly(s: State, es: seq<Event>)
    requires Stopping(s) && forall e <- es :: e.Turn?
    ensures var t := Run(s, es);
            && Stopping(t)
            && TurnsLeft(t) == (if |es| <= TurnsLeft(s) then TurnsLeft(s) - |es| else 0)
            && (Live(t) <==> |es| < TurnsLeft(s))
            && (DoneDraining(s) ==> DoneDraining(t) && t.queue == s.queue)
            && (!DoneDraining(s) && DoneDraining(t) ==> t.queue == [])
  {
    if es != [] {
      var before := es[..|es| - 1];
      assert forall e <- before :: e in es;
      StopTakesExactly(s, before);
      assert es[|es| - 1].Turn?;
    }
  }

  /** With producers each accepted frame costs at most two turns more. */
  lemma {:induction false} ProducersDelayStop(s: State, es: seq<Event>)
    requires Stopping(s) && forall e <- es :: e.Turn? || e.Enqueue?
    ensures var t := Run(s, es);
            && Stopping(t)
            && (Live(t) ==> TurnsLeft(t) + Turns(es) <= TurnsLeft(s) + 2 * |Seen(s, es).accepted|)
            && (Turns(es) >= TurnsLeft(s) + 2 * |Seen(s, es).accepted| ==> !Live(t))
  {
    if es != [] {
      var before := es[..|es| - 1];
      assert forall e <- before :: e in es;
      ProducersDelayStop(s, before);
      var e := es[|es| - 1];
      assert e.Turn? || e.Enqueue?;
      StepDelaysStop(Run(s, before), e);
    }
  }

  lemma StepDelaysStop(s: State, e: Event)
    requires Stopping(s) && (e.Turn? || e.Enqueue?)
    ensures var t := Step(s, e);
            && Stopping(t)
            && (Live(t) ==> Live(s))
            && (Live(t) ==>
                  TurnsLeft(t) + (if e.Turn? then 1 else 0) <= TurnsLeft(s) + 2 * |Observed(s, e).accepted|)
            && (!Live(t) && Live(s) ==> TurnsLeft(s) <= 1)
  {
  }

  /** A producer that refills the queue each time it has been emptied, n times. */
  function Refill(frame: Frame, n: nat): seq<Event> {
    if n == 0 then [] else Refill(frame, n - 1) + [Enqueue(frame)] + [Turn(true)] + [Turn(true)]
  }

  /**
   * The inner loop never looks at m_running, so a steady producer keeps stop waiting for any
   * number of turns: the bound above cannot do without the number of accepted frames.
   */
  lemma {:induction false} SteadyProducerBlocksStop(s: State, frame: Frame, n: nat)
    requires Stopping(s) && s.thread == LockAndPop && s.queue == [] && s.maxDepth > 0
    ensures var es, t := Refill(frame, n), Run(s, Refill(frame, n));
            && Turns(es) == 2 * n
            && Stopping(t) && t.thread == LockAndPop && t.queue == [] && t.maxDepth == s.maxDepth
  {
    if n > 0 {
      SteadyProducerBlocksStop(s, frame, n - 1);
      RefillRound(s, Refill(frame, n - 1), frame);
    }
  }

  lemma RefillRound(s: State, es: seq<Event>, frame: Frame)
    requires var t := Run(s, es); Stopping(t) && t.thread == LockAndPop && t.queue == [] && t.maxDepth > 0
    ensures var more, t := es + [Enqueue(frame)] + [Turn(true)] + [Turn(true)], Run(s, es);
            && Turns(more) == Turns(es) + 2
            && Run(s, more) == t.(framesSent := Increment(t.framesSent))
  {
    var a, b := es + [Enqueue(frame)], es + [Enqueue(frame)] + [Turn(true)];
    RunSnoc(s, es, Enqueue(frame));
    RunSnoc(s, a, Turn(true));
    RunSnoc(s, b, Turn(true));
    PutTakeSend(Run(s, es), frame);
    TurnsSnoc(es, Enqueue(frame));
    TurnsSnoc(a, Turn(true));
    TurnsSnoc(b, Turn(true));
  }

  lemma PutTakeSend(t: State, frame: Frame)
    requires t.thread == LockAndPop && t.queue == [] && t.maxDepth > 0
    ensures Step(Step(Step(t, Enqueue(frame)), Turn(true)), Turn(true)) == t.(framesSent := Increment(t.framesSent))
  {
  }

  lemma TurnsSnoc(es: seq<Event>, e: Event)
    ensures Turns(es + [e]) == Turns(es) + if e.Turn? then 1 else 0
  {
  }
}
