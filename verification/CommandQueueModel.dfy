/**
 * CommandQueue as a monitor: any number of producers, of consumers blocked in popWait and of
 * consumers calling tryPop share one mutex and one condition variable.
 *
 * A thread in popWait is, between its critical sections, either blocked in the condition
 * variable or woken but without the mutex again. What moves it from the one to the other is a
 * notification, the deadline, or nothing at all (a spurious wakeup), as section 33.5.3 of
 * ISO/IEC 14882:2017 allows.
 */
module CommandQueueModel {
  import opened Numeric
  import opened Wrappers
  import opened CommandDeserializer

  type Tid = nat

  datatype State = State(
    maxDepth: uint32,
    queue: seq<Command>,
    blocked: set<Tid>,   // waiting in the condition variable
    woken: set<Tid>,     // unblocked, about to take the mutex and test the predicate
    expired: set<Tid>)   // those of the woken whose deadline has passed

  datatype Event =
    | Push(cmd: Command, picked: Tid)  // notify_one unblocks picked, if anyone is blocked
    | TryPop
    | PopWait(t: Tid)                  // t enters popWait: takes the mutex, tests the predicate
    | Spurious(t: Tid)                 // t unblocks for no reason
    | Timeout(t: Tid)                  // the deadline of t passes
    | Relock(t: Tid)                   // t takes the mutex again and tests the predicate

  function Initial(maxDepth: uint32): State {
    State(maxDepth, [], {}, {}, {})
  }

  predicate Enabled(s: State, e: Event) {
    match e
    case Push(_, picked) => |s.queue| >= s.maxDepth || s.blocked == {} || picked in s.blocked
    case TryPop => true
    case PopWait(t) => t !in s.blocked && t !in s.woken
    case Spurious(t) => t in s.blocked
    case Timeout(t) => t in s.blocked || t in s.woken
    case Relock(t) => t in s.woken
  }

  function Wake(s: State, t: Tid): State {
    s.(blocked := s.blocked - {t}, woken := s.woken + {t})
  }

  /** A consumer holding the mutex leaves with the oldest command. */
  function Take(s: State): State
    requires s.queue != []
  {
    s.(queue := s.queue[1..])
  }

  /** t leaves popWait. */
  function Leave(s: State, t: Tid): State {
    s.(woken := s.woken - {t}, expired := s.expired - {t})
  }

  function Step(s: State, e: Event): State {
    if !Enabled(s, e) then s else
    match e
    case Push(cmd, picked) =>
      if |s.queue| >= s.maxDepth then s
      else
        var t := s.(queue := s.queue + [cmd]);
        if s.blocked == {} then t else Wake(t, picked)
    case TryPop => if s.queue == [] then s else Take(s)
    case PopWait(t) => if s.queue != [] then Take(s) else s.(blocked := s.blocked + {t})
    case Spurious(t) => Wake(s, t)
    case Timeout(t) => Wake(s, t).(expired := s.expired + {t})
    case Relock(t) =>
      if s.queue != [] then Leave(Take(s), t)
      else if t in s.expired then Leave(s, t)
      else s.(woken := s.woken - {t}, blocked := s.blocked + {t})
  }

  ghost function Run(s: State, es: seq<Event>): State {
    if es == [] then s
    else Step(Run(s, es[..|es| - 1]), es[|es| - 1])
  }

  lemma RunSnoc(s: State, es: seq<Event>, e: Event)
    ensures Run(s, es + [e]) == Step(Run(s, es), e)
  {
  }

  lemma {:induction false} RunConcat(s: State, a: seq<Event>, b: seq<Event>)
    ensures Run(s, a + b) == Run(Run(s, a), b)
    decreases |b|
  {
    if b == [] {
      assert a + b == a;
    } else {
      var init, e := b[..|b| - 1], b[|b| - 1];
      RunConcat(s, a, init);
      assert a + b == (a + init) + [e];
      RunSnoc(s, a + init, e);
    }
  }

  // ------------------------------------------------------------------ what the callers observe

  /** A call that returned, at the critical section that decided it. */
  datatype Op = Pushed(cmd: Command, ok: bool) | Popped(result: Option<Command>)

  function Observed(s: State, e: Event): seq<Op> {
    if !Enabled(s, e) then [] else
    match e
    case Push(cmd, _) => [Pushed(cmd, |s.queue| < s.maxDepth)]
    case TryPop => [Popped(if s.queue == [] then None else Some(s.queue[0]))]
    case PopWait(_) => if s.queue == [] then [] else [Popped(Some(s.queue[0]))]
    case Relock(t) =>
      if s.queue != [] then [Popped(Some(s.queue[0]))]
      else if t in s.expired then [Popped(None)]
      else []
    case _ => []
  }

  ghost function Ops(s: State, es: seq<Event>): seq<Op> {
    if es == [] then []
    else Ops(s, es[..|es| - 1]) + Observed(Run(s, es[..|es| - 1]), es[|es| - 1])
  }

  /** What a call puts into the queue. */
  function Gain(op: Op): seq<Command> {
    if op.Pushed? && op.ok then [op.cmd] else []
  }

  /** What a call takes out of the queue. */
  function Loss(op: Op): seq<Command> {
    if op.Popped? && op.result.Some? then [op.result.value] else []
  }

  /** The commands that push accepted, in order. */
  ghost function Accepted(ops: seq<Op>): seq<Command> {
    if ops == [] then [] else Accepted(ops[..|ops| - 1]) + Gain(ops[|ops| - 1])
  }

  /** The commands that popWait and tryPop returned, in order. */
  ghost function Delivered(ops: seq<Op>): seq<Command> {
    if ops == [] then [] else Delivered(ops[..|ops| - 1]) + Loss(ops[|ops| - 1])
  }

  /**
   * The k-th call got the answer that a bounded first-in first-out queue gives: a push is refused
   * exactly when depth commands are outstanding, a pop returns nothing exactly when none is, and
   * otherwise the oldest one that nobody got yet.
   */
  ghost predicate RightAnswer(ops: seq<Op>, k: nat, depth: nat)
    requires k < |ops|
  {
    var accepted, delivered := Accepted(ops[..k]), Delivered(ops[..k]);
    match ops[k]
    case Pushed(_, ok) => ok <==> |accepted| < |delivered| + depth
    case Popped(None) => |delivered| == |accepted|
    case Popped(Some(cmd)) => |delivered| < |accepted| && cmd == accepted[|delivered|]
  }

  ghost predicate FifoHistory(ops: seq<Op>, depth: nat) {
    forall k :: 0 <= k < |ops| ==> RightAnswer(ops, k, depth)
  }

  lemma OpsSnoc(ops: seq<Op>, op: Op)
    ensures Accepted(ops + [op]) == Accepted(ops) + Gain(op)
    ensures Delivered(ops + [op]) == Delivered(ops) + Loss(op)
  {
  }

  /** The call in between, if any, accounts for the change of the queue. */
  lemma StepMovesCommands(s: State, e: Event)
    ensures Observed(s, e) == [] ==> Step(s, e).queue == s.queue
    ensures Observed(s, e) != [] ==>
              && Observed(s, e) == [Observed(s, e)[0]]
              && s.queue + Gain(Observed(s, e)[0]) == Loss(Observed(s, e)[0]) + Step(s, e).queue
  {
    if Observed(s, e) != [] {
      var op := Observed(s, e)[0];
      if op.Popped? && op.result.Some? {
        assert s.queue == [s.queue[0]] + s.queue[1..];
      }
    }
  }

  lemma Rebalance<T>(all: seq<T>, done: seq<T>, left: seq<T>, gain: seq<T>, loss: seq<T>, rest: seq<T>)
    requires all == done + left && left + gain == loss + rest
    ensures all + gain == done + loss + rest
  {
    assert done + left + gain == done + (left + gain);
    assert done + (loss + rest) == done + loss + rest;
  }

  lemma StepBalances(ops: seq<Op>, s: State, e: Event)
    requires Accepted(ops) == Delivered(ops) + s.queue
    ensures Accepted(ops + Observed(s, e)) == Delivered(ops + Observed(s, e)) + Step(s, e).queue
  {
    hide Step, Observed, Gain, Loss, Accepted, Delivered;
    StepMovesCommands(s, e);
    if Observed(s, e) == [] {
      assert ops + Observed(s, e) == ops;
    } else {
      var op := Observed(s, e)[0];
      OpsSnoc(ops, op);
      Rebalance(Accepted(ops), Delivered(ops), s.queue, Gain(op), Loss(op), Step(s, e).queue);
    }
  }

  lemma FifoHistorySnoc(ops: seq<Op>, op: Op, depth: nat)
    requires FifoHistory(ops, depth)
    requires RightAnswer(ops + [op], |ops|, depth)
    ensures FifoHistory(ops + [op], depth)
  {
    forall k | 0 <= k < |ops + [op]|
      ensures RightAnswer(ops + [op], k, depth)
    {
      if k < |ops| {
        assert RightAnswer(ops, k, depth);
        assert (ops + [op])[..k] == ops[..k];
      }
    }
  }

  lemma StepAnswers(ops: seq<Op>, s: State, e: Event)
    requires Accepted(ops) == Delivered(ops) + s.queue && FifoHistory(ops, s.maxDepth)
    ensures FifoHistory(ops + Observed(s, e), s.maxDepth)
  {
    var seen := Observed(s, e);
    if seen == [] {
      assert ops + seen == ops;
    } else {
      var op := seen[0];
      assert ops + seen == ops + [op] && (ops + [op])[..|ops|] == ops;
      FifoHistorySnoc(ops, op, s.maxDepth);
    }
  }

  lemma {:induction false} QueueIsBounded(s: State, es: seq<Event>)
    requires |s.queue| <= s.maxDepth
    ensures Run(s, es).maxDepth == s.maxDepth && |Run(s, es).queue| <= s.maxDepth
  {
    if es != [] {
      QueueIsBounded(s, es[..|es| - 1]);
    }
  }

  /**
   * The queue linearizes to a bounded FIFO: under every interleaving the calls, taken in the
   * order of their deciding critical sections, get the answers of a sequential bounded queue,
   * and what was accepted is what was delivered followed by what is still queued.
   */
  lemma {:induction false} LinearizesToBoundedFifo(maxDepth: uint32, es: seq<Event>)
    ensures var ops, s := Ops(Initial(maxDepth), es), Run(Initial(maxDepth), es);
            && Accepted(ops) == Delivered(ops) + s.queue
            && |s.queue| <= maxDepth
            && FifoHistory(ops, maxDepth)
  {
    hide Step, Observed, FifoHistory;
    var s0 := Initial(maxDepth);
    QueueIsBounded(s0, es);
    if es == [] {
      NothingYet(maxDepth);
    } else {
      var before, e := es[..|es| - 1], es[|es| - 1];
      LinearizesToBoundedFifo(maxDepth, before);
      QueueIsBounded(s0, before);
      StepBalances(Ops(s0, before), Run(s0, before), e);
      StepAnswers(Ops(s0, before), Run(s0, before), e);
    }
  }

  lemma NothingYet(maxDepth: uint32)
    ensures Accepted([]) == Delivered([]) + Initial(maxDepth).queue && FifoHistory([], maxDepth)
  {
  }

  // ------------------------------------------------------------------ no lost wakeup

  /** Every blocked consumer leaves enough woken ones behind to empty the queue. */
  ghost predicate NoLostWakeup(s: State) {
    s.blocked != {} ==> |s.queue| <= |s.woken|
  }

  ghost predicate WaitersAreConsistent(s: State) {
    s.blocked !! s.woken && s.expired <= s.woken
  }

  lemma StepKeepsWakeups(s: State, e: Event)
    requires NoLostWakeup(s) && WaitersAreConsistent(s)
    ensures NoLostWakeup(Step(s, e)) && WaitersAreConsistent(Step(s, e))
  {
    if e.Timeout? && e.t in s.woken {
      assert s.woken + {e.t} == s.woken && s.blocked - {e.t} == s.blocked;
    } else if e.Relock? && Enabled(s, e) {
      assert |s.woken - {e.t}| == |s.woken| - 1;
    }
  }

  /**
   * One notify_one per accepted push is enough: in every reachable state, for any number of
   * threads, while a consumer is blocked there are at least as many woken consumers as queued
   * commands, although tryPop and newly arriving popWait calls may take commands ahead of them.
   */
  lemma {:induction false} NoWakeupIsLost(maxDepth: uint32, es: seq<Event>)
    ensures NoLostWakeup(Run(Initial(maxDepth), es))
    ensures WaitersAreConsistent(Run(Initial(maxDepth), es))
  {
    if es != [] {
      NoWakeupIsLost(maxDepth, es[..|es| - 1]);
      StepKeepsWakeups(Run(Initial(maxDepth), es[..|es| - 1]), es[|es| - 1]);
    }
  }

  /** Once no woken consumer is left to run, no consumer sleeps next to an available command. */
  lemma NobodySleepsNextToACommand(maxDepth: uint32, es: seq<Event>)
    requires Run(Initial(maxDepth), es).woken == {}
    ensures var s := Run(Initial(maxDepth), es); s.queue == [] || s.blocked == {}
  {
    NoWakeupIsLost(maxDepth, es);
  }

  /** The consumers in ts, in the order in which they get the mutex back. */
  function Relocks(ts: seq<Tid>): seq<Event> {
    seq(|ts|, i requires 0 <= i < |ts| => Relock(ts[i]))
  }

  function Min(a: nat, b: nat): nat {
    if a < b then a else b
  }

  /** ts names each woken consumer once. */
  ghost predicate Lists(ts: seq<Tid>, woken: set<Tid>) {
    && Members(ts) == woken
    && (forall i, j :: 0 <= i < j < |ts| ==> ts[i] != ts[j])
  }

  function Members(ts: seq<Tid>): set<Tid> {
    set t | t in ts
  }

  /** Of the first i in ts, those who find the queue empty with time left. */
  function SentBack(s: State, ts: seq<Tid>, i: nat): set<Tid>
    requires i <= |ts|
  {
    if i == 0 then {}
    else SentBack(s, ts, i - 1) + if |s.queue| < i && ts[i - 1] !in s.expired then {ts[i - 1]} else {}
  }

  /** The state after the first i of the woken consumers have run. */
  function Settled(s: State, ts: seq<Tid>, i: nat): State
    requires i <= |ts|
  {
    State(s.maxDepth,
          s.queue[Min(i, |s.queue|)..],
          s.blocked + SentBack(s, ts, i),
          Members(ts[i..]),
          s.expired * Members(ts[i..]))
  }

  lemma SettlingStep(s: State, ts: seq<Tid>, i: nat)
    requires WaitersAreConsistent(s) && Lists(ts, s.woken) && i < |ts|
    ensures Step(Settled(s, ts, i), Relock(ts[i])) == Settled(s, ts, i + 1)
  {
    assert ts[i..] == [ts[i]] + ts[i + 1..];
    assert ts[i] !in ts[i + 1..];
    assert Members(ts[i..]) - {ts[i]} == Members(ts[i + 1..]);
  }

  /**
   * With pushes stopped, letting the woken consumers run, in any order, ends with none woken:
   * the first ones get the queued commands in order, of the rest those out of time return empty-
   * handed and the others block again, and then the queue is empty or nobody is blocked.
   */
  lemma {:induction false} WokenConsumersSettle(maxDepth: uint32, es: seq<Event>, ts: seq<Tid>)
    requires Lists(ts, Run(Initial(maxDepth), es).woken)
    ensures var s := Run(Initial(maxDepth), es);
            var t := Run(s, Relocks(ts));
            && t.queue == s.queue[Min(|ts|, |s.queue|)..]
            && t.blocked == s.blocked + SentBack(s, ts, |ts|)
            && t.woken == {}
            && (t.queue == [] || t.blocked == {})
  {
    var s := Run(Initial(maxDepth), es);
    NoWakeupIsLost(maxDepth, es);
    SettleFirst(s, ts, |ts|);
    assert Relocks(ts)[..|ts|] == Relocks(ts);
    RunConcat(Initial(maxDepth), es, Relocks(ts));
    NobodySleepsNextToACommand(maxDepth, es + Relocks(ts));
  }

  lemma OneMoreRelock(s: State, ts: seq<Tid>, i: nat)
    requires i < |ts|
    ensures Run(s, Relocks(ts)[..i + 1]) == Step(Run(s, Relocks(ts)[..i]), Relock(ts[i]))
  {
    assert Relocks(ts)[..i + 1] == Relocks(ts)[..i] + [Relock(ts[i])];
    RunSnoc(s, Relocks(ts)[..i], Relock(ts[i]));
  }

  lemma {:induction false} SettleFirst(s: State, ts: seq<Tid>, i: nat)
    requires WaitersAreConsistent(s) && Lists(ts, s.woken) && i <= |ts|
    ensures Run(s, Relocks(ts)[..i]) == Settled(s, ts, i)
  {
    if i == 0 {
      assert ts[0..] == ts && Relocks(ts)[..0] == [];
    } else {
      SettleFirst(s, ts, i - 1);
      OneMoreRelock(s, ts, i - 1);
      SettlingStep(s, ts, i - 1);
    }
  }

  // ------------------------------------------------------------------ deadlines

  /**
   * Once its deadline has passed, a consumer stays on its way out of popWait whatever the others
   * do, and the next time it gets the mutex the call returns: with a command if there is one.
   */
  lemma {:induction false} DeadlineEndsTheCall(s: State, t: Tid, es: seq<Event>)
    requires WaitersAreConsistent(s) && t in s.expired
    requires forall e <- es :: e != Relock(t)
    ensures var u := Run(s, es);
            && WaitersAreConsistent(u) && t in u.expired
            && t !in Step(u, Relock(t)).woken && t !in Step(u, Relock(t)).blocked
            && Observed(u, Relock(t)) == [Popped(if u.queue == [] then None else Some(u.queue[0]))]
  {
    if es != [] {
      var before, e := es[..|es| - 1], es[|es| - 1];
      assert forall e <- before :: e in es;
      DeadlineEndsTheCall(s, t, before);
      assert e in es;
      OthersKeepExpired(Run(s, before), t, e);
    }
  }

  lemma OthersKeepExpired(s: State, t: Tid, e: Event)
    requires WaitersAreConsistent(s) && t in s.expired && e != Relock(t)
    ensures WaitersAreConsistent(Step(s, e)) && t in Step(s, e).expired
  {
  }

  /** t is inside popWait, between two of its critical sections. */
  predicate Waits(s: State, t: Tid) {
    t in s.blocked || t in s.woken
  }

  /** Among the events, apart from the first, is the deadline of t. */
  ghost predicate TimedOut(es: seq<Event>, t: Tid) {
    exists i :: 0 < i < |es| && es[i] == Timeout(t)
  }

  /** The events begin with t calling popWait, and t has not returned after any of them. */
  ghost predicate StaysIn(s: State, es: seq<Event>, t: Tid) {
    && es != [] && es[0] == PopWait(t)
    && forall k :: 0 < k <= |es| ==> Waits(Run(s, es[..k]), t)
  }

  lemma OneMoreTimedOut(es: seq<Event>, e: Event, t: Tid)
    requires es != []
    ensures TimedOut(es + [e], t) <==> TimedOut(es, t) || e == Timeout(t)
  {
    if TimedOut(es, t) {
      var i :| 0 < i < |es| && es[i] == Timeout(t);
      assert (es + [e])[i] == Timeout(t);
    }
    if e == Timeout(t) {
      assert (es + [e])[|es|] == Timeout(t);
    }
  }

  /** While t stays in popWait, only its own deadline makes it run out of time. */
  lemma OnlyTheDeadlineExpires(s: State, t: Tid, e: Event)
    requires WaitersAreConsistent(s) && Waits(s, t) && Waits(Step(s, e), t)
    ensures WaitersAreConsistent(Step(s, e))
    ensures t in Step(s, e).expired <==> t in s.expired || e == Timeout(t)
  {
  }

  lemma EntersInTime(s: State, t: Tid)
    requires WaitersAreConsistent(s) && !Waits(s, t)
    ensures WaitersAreConsistent(Step(s, PopWait(t))) && t !in Step(s, PopWait(t)).expired
  {
  }

  lemma {:induction false} ExpiredMeansTimedOut(s: State, t: Tid, es: seq<Event>)
    requires WaitersAreConsistent(s) && !Waits(s, t) && StaysIn(s, es, t)
    ensures WaitersAreConsistent(Run(s, es))
    ensures t in Run(s, es).expired <==> TimedOut(es, t)
  {
    hide Step, WaitersAreConsistent, Waits, TimedOut;
    var before, e := es[..|es| - 1], es[|es| - 1];
    assert es[..|es|] == es && es == before + [e];
    if before == [] {
      EntersInTime(s, t);
      assert !TimedOut(es, t) by { NoDeadlineYet(es, t); }
    } else {
      assert forall k :: 0 < k <= |before| ==> before[..k] == es[..k];
      ExpiredMeansTimedOut(s, t, before);
      assert before[..|before|] == before;
      OnlyTheDeadlineExpires(Run(s, before), t, e);
      OneMoreTimedOut(before, e, t);
    }
  }

  lemma NoDeadlineYet(es: seq<Event>, t: Tid)
    requires |es| <= 1
    ensures !TimedOut(es, t)
  {
  }

  /**
   * What decides a call of popWait, in terms of the schedule alone. t has called popWait and is
   * still in it. When it gets the mutex: once a deadline of t is in the schedule the call
   * returns, empty-handed iff the queue is empty; and it returns empty-handed only then.
   */
  lemma DeadlineDecidesTheCall(s: State, t: Tid, es: seq<Event>)
    requires WaitersAreConsistent(s) && !Waits(s, t) && StaysIn(s, es, t)
    ensures var u, seen := Run(s, es), Observed(Run(s, es), Relock(t));
            && (TimedOut(es, t) ==>
                  && !Waits(Step(u, Relock(t)), t)
                  && seen == [Popped(if u.queue == [] then None else Some(u.queue[0]))])
            && (seen == [Popped(None)] <==> TimedOut(es, t) && u.queue == [])
            && (!TimedOut(es, t) && u.queue == [] ==> seen == [] && Waits(Step(u, Relock(t)), t))
            && (t in u.woken && u.queue != [] ==> seen == [Popped(Some(u.queue[0]))] && !Waits(Step(u, Relock(t)), t))
  {
    hide Run, TimedOut;
    assert es[..|es|] == es;
    ExpiredMeansTimedOut(s, t, es);
  }

  /**
   * Without spurious wakeups and deadlines each wakeup is owed to a push: nobody but push
   * unblocks consumers, and each accepted push unblocks one of them.
   */
  lemma {:induction false} OneWakeupPerPush(maxDepth: uint32, es: seq<Event>)
    requires forall e <- es :: !e.Spurious? && !e.Timeout?
    ensures |Run(Initial(maxDepth), es).woken| <= |Accepted(Ops(Initial(maxDepth), es))|
  {
    hide Step, Observed;
    if es != [] {
      var before, e := es[..|es| - 1], es[|es| - 1];
      assert forall e <- before :: e in es;
      assert e in es;
      OneWakeupPerPush(maxDepth, before);
      StepWakesOne(Ops(Initial(maxDepth), before), Run(Initial(maxDepth), before), e);
    }
  }

  lemma StepWakesOne(ops: seq<Op>, s: State, e: Event)
    requires !e.Spurious? && !e.Timeout?
    requires |s.woken| <= |Accepted(ops)|
    ensures |Step(s, e).woken| <= |Accepted(ops + Observed(s, e))|
  {
    hide Accepted;
    if Observed(s, e) != [] {
      OpsSnoc(ops, Observed(s, e)[0]);
      assert ops + Observed(s, e) == ops + [Observed(s, e)[0]];
    } else {
      assert ops + Observed(s, e) == ops;
    }
    match e
    case Push(_, picked) =>
      assert |s.woken + {picked}| <= |s.woken| + 1;
    case Relock(t) =>
      assert |s.woken - {t}| <= |s.woken|;
    case _ =>
  }
}
