/** src/command/CommandQueue.cpp, each method proved against the monitor of CommandQueueModel. */
module CommandQueue {
  import opened Numeric
  import opened Wrappers
  import opened CommandDeserializer
  import opened CommandQueueModel

  /** A popWait that has returned, or one still under way when the schedule is used up. */
  datatype Outcome = Returned(result: Option<Command>) | StillWaiting

  ghost predicate Leads(start: State, es: seq<Event>, s: State) {
    s == Run(start, es)
  }

  lemma Begin(start: State, schedule: seq<Event>)
    ensures Leads(start, schedule[..0], start)
  {
  }

  lemma OneMore(start: State, schedule: seq<Event>, k: nat, s: State)
    requires k < |schedule| && Leads(start, schedule[..k], s)
    ensures Leads(start, schedule[..k + 1], Step(s, schedule[k]))
    ensures Ops(start, schedule[..k + 1]) == Ops(start, schedule[..k]) + Observed(s, schedule[k])
  {
    assert schedule[..k + 1] == schedule[..k] + [schedule[k]];
    assert schedule[..k + 1][..|schedule[..k + 1]| - 1] == schedule[..k];
    RunSnoc(start, schedule[..k], schedule[k]);
  }

  lemma NotYetWoken(s: State, t: Tid)
    requires t !in s.woken
    ensures Step(s, Relock(t)) == s
  {
  }

  lemma OthersKeepWaiting(s: State, t: Tid, e: Event)
    requires WaitersAreConsistent(s) && e != Relock(t)
    ensures Waits(s, t) ==> Waits(Step(s, e), t) && (t in Step(s, e).expired <==> t in s.expired || e == Timeout(t))
  {
  }

  lemma MovingKeepsUnion(a: set<Tid>, b: set<Tid>, t: Tid)
    requires t in a || t in b
    ensures (a - {t}) + (b + {t}) == a + b
  {
  }

  /**
   * The call that t made with the first event of the schedule must have returned by event j:
   * t gets the mutex there, and its deadline has passed before.
   */
  ghost predicate Due(schedule: seq<Event>, t: Tid, j: nat)
    requires j < |schedule|
  {
    schedule[j] == Relock(t) && TimedOut(schedule[..j], t)
  }

  /** It need not have returned by any of the first k events. */
  ghost predicate NotDue(schedule: seq<Event>, t: Tid, k: nat)
    requires k <= |schedule|
  {
    forall j :: 0 < j < k ==> !Due(schedule, t, j)
  }

  lemma TimedOutBefore(schedule: seq<Event>, t: Tid, k: nat)
    requires 0 < k < |schedule|
    ensures TimedOut(schedule[..k + 1], t) <==> TimedOut(schedule[..k], t) || schedule[k] == Timeout(t)
  {
    assert schedule[..k + 1] == schedule[..k] + [schedule[k]];
    OneMoreTimedOut(schedule[..k], schedule[k], t);
  }

  /** The last call to be decided in the run is a pop with this result. */
  ghost predicate LastAnswer(ops: seq<Op>, result: Option<Command>) {
    ops != [] && ops[|ops| - 1] == Popped(result)
  }

  function Contents(result: Option<Command>): seq<Command> {
    if result.Some? then [result.value] else []
  }

  /** The last event of the run is a pop that took the head of the queue, or found it empty. */
  ghost predicate EndsInPop(start: State, es: seq<Event>, result: Option<Command>, rest: seq<Command>) {
    && es != []
    && LastAnswer(Ops(start, es), result)
    && Run(start, es[..|es| - 1]).queue == Contents(result) + rest
    && (result == None ==> rest == [])
  }

  lemma PopEndsRun(start: State, schedule: seq<Event>, k: nat, s: State, result: Option<Command>, rest: seq<Command>)
    requires k < |schedule| && Leads(start, schedule[..k], s)
    requires Ops(start, schedule[..k + 1]) == Ops(start, schedule[..k]) + [Popped(result)]
    requires s.queue == Contents(result) + rest && (result == None ==> rest == [])
    ensures EndsInPop(start, schedule[..k + 1], result, rest)
  {
    assert schedule[..k + 1][..k] == schedule[..k];
  }

  class CommandQueue {
    const maxDepth: uint32
    var queue: seq<Command>
    // m_cv: its waiters, those it has released, and those of them that ran out of time
    var blocked: set<Tid>
    var woken: set<Tid>
    var expired: set<Tid>

    ghost function State(): State
      reads this
    {
      CommandQueueModel.State(maxDepth, queue, blocked, woken, expired)
    }

    ghost predicate Valid()
      reads this
    {
      && |queue| <= maxDepth
      && NoLostWakeup(State())
      && WaitersAreConsistent(State())
    }

    constructor (maxDepth: uint32)
      ensures Valid() && State() == Initial(maxDepth)
    {
      this.maxDepth := maxDepth;
      queue, blocked, woken, expired := [], {}, {}, {};
    }

    /** push; picked is the waiter that notify_one releases, if there is any. */
    method Push(cmd: Command, picked: Tid) returns (ok: bool)
      requires Valid()
      requires blocked != {} ==> picked in blocked
      modifies this`queue, this`blocked, this`woken
      ensures Valid()
      ensures State() == Step(old(State()), Event.Push(cmd, picked))
      ensures ok <==> old(|queue|) < maxDepth
      ensures queue == if ok then old(queue) + [cmd] else old(queue)
      ensures if ok && old(blocked) != {} then blocked == old(blocked) - {picked} && woken == old(woken) + {picked}
              else blocked == old(blocked) && woken == old(woken)
    {
      hide NoLostWakeup, WaitersAreConsistent;
      StepKeepsWakeups(State(), Event.Push(cmd, picked));
      if |queue| >= maxDepth { return false; }
      queue := queue + [cmd];
      NotifyOne(picked);
      return true;
    }

    /** m_cv.notify_one() */
    method NotifyOne(picked: Tid)
      requires blocked != {} ==> picked in blocked
      modifies this`blocked, this`woken
      ensures if old(blocked) == {} then blocked == {} && woken == old(woken)
              else blocked == old(blocked) - {picked} && woken == old(woken) + {picked}
    {
      if blocked != {} {
        blocked, woken := blocked - {picked}, woken + {picked};
      }
    }

    method TryPop() returns (result: Option<Command>)
      requires Valid()
      modifies this`queue
      ensures Valid()
      ensures State() == Step(old(State()), Event.TryPop)
      ensures Observed(old(State()), Event.TryPop) == [Popped(result)]
      ensures old(queue) == (if result.Some? then [result.value] else []) + queue
      ensures result.None? <==> old(queue) == []
    {
      if queue == [] { return None; }
      result := Some(queue[0]);
      queue := queue[1..];
    }

    method Empty() returns (empty: bool)
      requires Valid()
      ensures empty <==> queue == []
    {
      empty := queue == [];
    }

    /** size: the conversion to uint32_t loses nothing, because the depth is a uint32_t itself. */
    method Size() returns (size: uint32)
      requires Valid()
      ensures size == |queue|
    {
      size := |queue| % TWO_TO_32;
    }

    /** popWait up to the first time it gives the mutex back: in wait_for, or by returning. */
    method TestFirst(t: Tid) returns (result: Option<Option<Command>>)
      requires Valid() && t !in blocked && t !in woken
      modifies this`queue, this`blocked
      ensures Valid()
      ensures State() == Step(old(State()), Event.PopWait(t))
      ensures Observed(old(State()), Event.PopWait(t)) == if result.Some? then [Popped(result.value)] else []
      ensures if result.Some? then result.value.Some? && t !in blocked else t in blocked
      ensures result.None? ==> old(queue) == []
      ensures result.Some? && result.value.Some? ==> old(queue) == [result.value.value] + queue
    {
      StepKeepsWakeups(State(), Event.PopWait(t));
      if queue != [] {
        result := Some(Some(queue[0]));
        queue := queue[1..];
      } else {
        result := None;
        blocked := blocked + {t};
      }
    }

    /** wait_for with the mutex back: the predicate decides, then the deadline, else t blocks again. */
    method TestAgain(t: Tid) returns (result: Option<Option<Command>>)
      requires Valid() && t in woken
      modifies this`queue, this`blocked, this`woken, this`expired
      ensures Valid()
      ensures State() == Step(old(State()), Relock(t))
      ensures Observed(old(State()), Relock(t)) == if result.Some? then [Popped(result.value)] else []
      ensures result.Some? ==> t !in blocked && t !in woken
      ensures result.None? ==> t in blocked
      ensures result == Some(None) <==> old(queue) == [] && t in old(expired)
      ensures result.None? <==> old(queue) == [] && t !in old(expired)
      ensures result.Some? && result.value.Some? ==> old(queue) == [result.value.value] + queue
      ensures old(queue) == [] ==> queue == []
      ensures result.None? ==> t !in expired
    {
      StepKeepsWakeups(State(), Relock(t));
      woken := woken - {t};
      if queue != [] {
        result := Some(Some(queue[0]));
        queue, expired := queue[1..], expired - {t};
      } else if t in expired {
        result := Some(None);
        expired := expired - {t};
      } else {
        result := None;
        blocked := blocked + {t};
      }
    }

    method Unblock(t: Tid)
      requires Valid() && t in blocked
      modifies this`blocked, this`woken
      ensures Valid() && t in woken
      ensures State() == Step(old(State()), Spurious(t))
      ensures blocked + woken == old(blocked + woken)
    {
      hide NoLostWakeup, WaitersAreConsistent;
      StepKeepsWakeups(State(), Spurious(t));
      MovingKeepsUnion(blocked, woken, t);
      blocked, woken := blocked - {t}, woken + {t};
    }

    method Expire(t: Tid)
      requires Valid() && (t in blocked || t in woken)
      modifies this`blocked, this`woken, this`expired
      ensures Valid() && t in woken
      ensures State() == Step(old(State()), Timeout(t))
      ensures blocked + woken == old(blocked + woken)
    {
      hide NoLostWakeup, WaitersAreConsistent;
      StepKeepsWakeups(State(), Timeout(t));
      MovingKeepsUnion(blocked, woken, t);
      blocked, woken, expired := blocked - {t}, woken + {t}, expired + {t};
    }

    /** A step of another thread, or of the condition variable. */
    method OtherStep(e: Event, ghost me: Tid)
      requires Valid() && e != Relock(me)
      modifies this`queue, this`blocked, this`woken, this`expired
      ensures Valid()
      ensures State() == Step(old(State()), e)
      ensures me in old(blocked + woken) ==> me in blocked + woken
      ensures me in old(blocked + woken) ==> (me in expired <==> me in old(expired) || e == Timeout(me))
    {
      hide NoLostWakeup, WaitersAreConsistent;
      OthersKeepWaiting(State(), me, e);
      match e {
        case Push(cmd, picked) =>
          if blocked == {} || picked in blocked {
            var _ := Push(cmd, picked);
          }
        case TryPop =>
          var _ := TryPop();
        case PopWait(t) =>
          if t !in blocked && t !in woken {
            var _ := TestFirst(t);
          }
        case Spurious(t) =>
          if t in blocked {
            Unblock(t);
          }
        case Timeout(t) =>
          if t in blocked || t in woken {
            Expire(t);
          }
        case Relock(t) =>
          if t in woken {
            var _ := TestAgain(t);
          }
      }
    }

    /** The scheduler lets everybody else run until `me` gets the mutex again. */
    method Others(me: Tid, schedule: seq<Event>, from: nat, ghost start: State) returns (k: nat)
      requires Valid() && 0 < from <= |schedule| && Leads(start, schedule[..from], State())
      requires me in blocked + woken
      requires (me in expired <==> TimedOut(schedule[..from], me)) && NotDue(schedule, me, from)
      modifies this`queue, this`blocked, this`woken, this`expired
      ensures Valid() && from <= k <= |schedule| && Leads(start, schedule[..k], State())
      ensures me in blocked + woken
      ensures (me in expired <==> TimedOut(schedule[..k], me)) && NotDue(schedule, me, k)
      ensures k < |schedule| ==> schedule[k] == Relock(me)
    {
      hide Leads, TimedOut;
      k := from;
      while k < |schedule| && schedule[k] != Relock(me)
        invariant Valid() && from <= k <= |schedule| && Leads(start, schedule[..k], State())
        invariant me in blocked + woken
        invariant (me in expired <==> TimedOut(schedule[..k], me)) && NotDue(schedule, me, k)
      {
        OneMore(start, schedule, k, State());
        TimedOutBefore(schedule, me, k);
        OtherStep(schedule[k], me);
        k := k + 1;
      }
    }

    /**
     * popWait called by thread me, as the first event of an arbitrary schedule of everybody's
     * steps: wait_for tests the predicate, and as long as the queue is empty and time is left
     * it blocks and tests again. The call takes exactly the steps of the monitor, and what it
     * returns is the answer of the pop that the run ends with: the oldest command, or nothing
     * iff there is none. Once its deadline has passed it returns the next time it gets the
     * mutex, and empty-handed it never returns earlier.
     */
    method PopWait(me: Tid, schedule: seq<Event>) returns (outcome: Outcome, k: nat)
      requires Valid() && me !in blocked && me !in woken
      requires |schedule| > 0 && schedule[0] == Event.PopWait(me)
      modifies this`queue, this`blocked, this`woken, this`expired
      ensures Valid() && 0 < k <= |schedule| && Leads(old(State()), schedule[..k], State())
      ensures outcome.StillWaiting? ==> k == |schedule| && me in blocked + woken
      ensures outcome.Returned? ==>
                && me !in blocked + woken
                && EndsInPop(old(State()), schedule[..k], outcome.result, queue)
      ensures forall j :: 0 < j < |schedule| && Due(schedule, me, j) ==> outcome.Returned? && k <= j + 1
      ensures outcome == Returned(None) ==> TimedOut(schedule[..k], me)
    {
      hide Leads, Step, Observed, NoLostWakeup, TimedOut, EndsInPop, Ops;
      ghost var start := State();
      Begin(start, schedule);
      var result := EnterWait(me, schedule);
      k := 1;
      while result.None?
        invariant Valid() && 0 < k <= |schedule| && Leads(start, schedule[..k], State())
        invariant result.None? ==> me in blocked + woken && NotDue(schedule, me, k)
        invariant result.None? ==> (me in expired <==> TimedOut(schedule[..k], me))
        invariant result.Some? ==>
                    && me !in blocked + woken
                    && EndsInPop(start, schedule[..k], result.value, queue)
                    && NotDue(schedule, me, k - 1)
                    && (result.value == None ==> TimedOut(schedule[..k], me))
        decreases |schedule| - k, result.None?
      {
        k := Others(me, schedule, k, start);
        if k == |schedule| { return StillWaiting, k; }
        result := Retest(me, schedule, k, start);
        k := k + 1;
      }
      outcome := Returned(result.value);
    }

    /** The first event of the schedule: the call up to its first test of the predicate. */
    method EnterWait(me: Tid, ghost schedule: seq<Event>) returns (result: Option<Option<Command>>)
      requires Valid() && me !in blocked && me !in woken
      requires |schedule| > 0 && schedule[0] == Event.PopWait(me)
      modifies this`queue, this`blocked
      ensures Valid() && Leads(old(State()), schedule[..1], State())
      ensures result.None? ==> me in blocked && me !in expired && !TimedOut(schedule[..1], me)
      ensures result.Some? ==>
                && result.value.Some?
                && me !in blocked + woken
                && EndsInPop(old(State()), schedule[..1], result.value, queue)
    {
      hide Leads, Step, Observed, NoLostWakeup, TimedOut, EndsInPop, Ops;
      ghost var start := State();
      Begin(start, schedule);
      OneMore(start, schedule, 0, start);
      NoDeadlineYet(schedule[..1], me);
      result := TestFirst(me);
      if result.Some? {
        PopEndsRun(start, schedule, 0, start, result.value, queue);
      }
    }

    /** Event k of the schedule, at which me has the mutex again unless it is still blocked. */
    method Retest(me: Tid, ghost schedule: seq<Event>, ghost k: nat, ghost start: State)
      returns (result: Option<Option<Command>>)
      requires Valid() && 0 < k < |schedule| && Leads(start, schedule[..k], State())
      requires me in blocked + woken && NotDue(schedule, me, k) && schedule[k] == Relock(me)
      requires me in expired <==> TimedOut(schedule[..k], me)
      modifies this`queue, this`blocked, this`woken, this`expired
      ensures Valid() && Leads(start, schedule[..k + 1], State())
      ensures result.None? ==> me in blocked + woken && NotDue(schedule, me, k + 1)
      ensures result.None? ==> (me in expired <==> TimedOut(schedule[..k + 1], me))
      ensures result.Some? ==>
                && me !in blocked + woken
                && EndsInPop(start, schedule[..k + 1], result.value, queue)
                && (result.value == None ==> TimedOut(schedule[..k + 1], me))
    {
      hide Leads, Step, Observed, NoLostWakeup, TimedOut, EndsInPop, Ops;
      ghost var s := State();
      OneMore(start, schedule, k, s);
      TimedOutBefore(schedule, me, k);
      if me in woken {
        result := TestAgain(me);
        if result.Some? {
          PopEndsRun(start, schedule, k, s, result.value, queue);
        }
      } else {
        NotYetWoken(s, me);
        result := None;
      }
    }
  }
}
