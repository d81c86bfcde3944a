/** What the accounting gives: the wait for an empty registry is sound, the only states in which
    nothing moves are those waiting for clients, and work is bounded by arrivals. */
module RegistryTermination {
  import opened Sums
  import opened RegistryProtocol
  import opened RegistryInvariant

  // ---- creg_wait_for_empty ----

  /** The waiter can pass only when no client is past the guarded P(count_mutex) with its departure
      unsettled; a client that is still being added has not passed the guard either. */
  lemma WaitMeansEmpty(s: State)
    requires Inv(s) && s.main.Waiting? && CanRunMain(s)
    ensures forall t :: 0 <= t < |s.pcs| ==> Admitted(s.pcs[t]) == 0
    ensures forall t :: 0 <= t < |s.pcs| && Owns(s.pcs[t]) == 1 ==> COUNT_UP <= s.pcs[t].at <= TAKE_TOKEN
  {
    NoneAdmitted(s);
  }

  lemma NoneAdmitted(s: State)
    requires Inv(s) && (s.sh.countMutex > 0 || s.main.Passed?)
    ensures forall t :: 0 <= t < |s.pcs| ==> Admitted(s.pcs[t]) == 0
  {
    forall t | 0 <= t < |s.pcs|
      ensures Admitted(s.pcs[t]) == 0
    {
      SumAtLeast(s.pcs, t, Admitted);
    }
  }

  /** Once the waiter has passed, no client ever gets past the guard again. */
  lemma {:induction false} NoAdmissionAfterWait(s: State, run: seq<Action>)
    requires Inv(s) && s.main.Passed? && Possible(s, run)
    ensures After(s, run).main.Passed?
    ensures forall t :: 0 <= t < |After(s, run).pcs| ==> Admitted(After(s, run).pcs[t]) == 0
    decreases |run|
  {
    if run == [] {
      NoneAdmitted(s);
    } else {
      ApplyKeepsInv(s, run[0]);
      NoAdmissionAfterWait(Apply(s, run[0]), run[1..]);
    }
  }

  // ---- Deadlock freedom ----

  function Serves(pc: Pc): int { Between(pc, SERVE, SERVE) }

  /** No thread and not the terminator can move by itself. */
  ghost predicate Stuck(s: State)
    requires |s.pcs| == |s.conns|
  {
    !CanRunMain(s) && forall t :: 0 <= t < |s.pcs| ==> !CanRun(s, t)
  }

  /** The thread that holds the registry lock is never blocked, until the waiter has the token. */
  lemma LockHolderRuns(s: State, t: nat)
    requires Inv(s) && !s.main.Passed? && t < |s.pcs| && Locks(s.pcs[t]) == 1
    ensures CanRun(s, t)
  {
    if s.pcs[t].at == TAKE_TOKEN {
      TokenAvailable(s, t);
    }
  }

  /** When no thread can move and main does not hold the lock, nobody does. */
  lemma IdleIsUnlocked(s: State)
    requires Inv(s) && !s.main.Passed? && MainLocks(s.main) == 0
    requires forall t :: 0 <= t < |s.pcs| ==> !CanRun(s, t)
    ensures s.sh.mutex == 1
    ensures forall t :: 0 <= t < |s.pcs| ==> Locks(s.pcs[t]) == 0
  {
    forall t | 0 <= t < |s.pcs|
      ensures Locks(s.pcs[t]) == 0
    {
      if Locks(s.pcs[t]) != 0 { LockHolderRuns(s, t); }
    }
    SumConst(s.pcs, 0, Locks);
  }

  ghost predicate AwaitsClient(s: State, t: nat)
    requires t < |s.pcs| == |s.conns|
  {
    s.pcs[t].at == SERVE && s.conns[t].inbox == 0 && !s.conns[t].eof
  }

  /** What threads wait for when none of them can move. */
  lemma IdleThreads(s: State)
    requires Inv(s) && !s.main.Passed? && MainLocks(s.main) == 0
    requires forall t :: 0 <= t < |s.pcs| ==> !CanRun(s, t)
    ensures forall t :: 0 <= t < |s.pcs| ==>
      s.pcs[t].at == DONE || AwaitsClient(s, t) || (s.pcs[t].at == WANT_SLOT && s.sh.slots == 0)
    ensures s.sh.slots == 0 ==> Sum(s.pcs, Serves) == |s.sh.fds|
  {
    IdleIsUnlocked(s);
    forall t | 0 <= t < |s.pcs|
      ensures s.pcs[t].at == DONE || AwaitsClient(s, t) || (s.pcs[t].at == WANT_SLOT && s.sh.slots == 0)
    {
      assert !CanRun(s, t);
      if s.pcs[t].at == WANT_ITEM { ItemAvailable(s, t); }
    }
    StuckSlots(s);
  }

  /** Main result: until the waiter has the token, nothing moves only when every unfinished thread
      is waiting for its own client, or for a slot while all n entries belong to such threads. */
  lemma StuckStates(s: State)
    requires Inv(s) && !s.main.Passed? && Stuck(s)
    ensures forall t :: 0 <= t < |s.pcs| ==>
      s.pcs[t].at == DONE || AwaitsClient(s, t) || (s.pcs[t].at == WANT_SLOT && s.sh.slots == 0)
    ensures s.sh.slots == 0 ==> Sum(s.pcs, Serves) == |s.sh.fds|
    ensures s.main.Accepting? || (s.main.Waiting? && 0 < Sum(s.pcs, Admitted))
  {
    assert MainLocks(s.main) == 0;
    IdleIsUnlocked(s);
    IdleThreads(s);
  }

  lemma StuckSlots(s: State)
    requires Inv(s)
    requires forall t :: 0 <= t < |s.pcs| ==> s.pcs[t].at == DONE || s.pcs[t].at == SERVE || s.pcs[t].at == WANT_SLOT
    ensures s.sh.slots + Sum(s.pcs, Serves) == |s.sh.fds|
  {
    SumConst(s.pcs, 0, Reserves);
    SumConst(s.pcs, 0, Freed);
    SumLe(s.pcs, Owns, Serves);
    SumLe(s.pcs, Serves, Owns);
  }

  // ---- Work is bounded by arrivals ----

  function Left(pc: Pc): int
  {
    if pc.at <= DONE then DONE - pc.at else 0
  }

  function Inbox(c: Conn): int
  {
    c.inbox
  }

  /** Statements the terminator has left, for a registry of n entries. */
  function MainLeft(m: Terminator, n: nat): int
  {
    match m
    case Accepting => n + 5
    case SweepLock => n + 4
    case Sweep(i) => if i <= n then n + 3 - i else 3
    case SweepUnlock => 2
    case Waiting => 1
    case Passed => 0
  }

  ghost function Measure(s: State): int
  {
    Sum(s.pcs, Left) + Sum(s.conns, Inbox) + MainLeft(s.main, |s.sh.fds|)
  }

  lemma MeasureNonNeg(s: State)
    ensures 0 <= Measure(s)
  {
    SumNonNeg(s.pcs, Left);
    SumNonNeg(s.conns, Inbox);
  }

  /** What an action may add to the measure: a new thread, a packet; every other one takes away. */
  function Arrival(a: Action): int
  {
    match a
    case Accept(_) => DONE
    case Deliver(_) => 1
    case HangUp(_, _) => 0
    case _ => -1
  }

  lemma RunDecreases(s: State, t: nat)
    requires Inv(s) && t < |s.pcs| && CanRun(s, t)
    ensures Measure(RunThread(s, t)) < Measure(s)
  {
    var s' := RunThread(s, t);
    var pc := s.pcs[t];
    if pc.at == SERVE && s.conns[t].inbox > 0 {
      SumUpdate(s.conns, t, s'.conns[t], Inbox);
    } else {
      if pc.at == SEARCH { SearchFinds(s, t); }
      if pc.at == SCAN { ScanFinds(s, t); }
      assert s'.pcs == s.pcs[t := s'.pcs[t]] && pc.at < s'.pcs[t].at <= DONE;
      SumUpdate(s.pcs, t, s'.pcs[t], Left);
    }
  }

  lemma {:induction false} SameInboxes(a: seq<Conn>, b: seq<Conn>)
    requires |a| == |b| && forall i :: 0 <= i < |a| ==> a[i].inbox == b[i].inbox
    ensures Sum(a, Inbox) == Sum(b, Inbox)
  {
    if a != [] {
      SameInboxes(a[1..], b[1..]);
    }
  }

  lemma ActionMeasure(s: State, a: Action)
    requires Inv(s) && Enabled(s, a)
    ensures Measure(Apply(s, a)) <= Measure(s) + Arrival(a)
  {
    match a
    case Accept(fd) =>
      SumSnoc(s.pcs, At(WANT_SLOT), Left);
      SumSnoc(s.conns, Conn(fd, 0, false), Inbox);
    case Deliver(t) => SumUpdate(s.conns, t, Apply(s, a).conns[t], Inbox);
    case HangUp(t, left) => SumUpdate(s.conns, t, Apply(s, a).conns[t], Inbox);
    case Run(t) => RunDecreases(s, t);
    case Signal =>
    case RunMain => SameInboxes(s.conns, Apply(s, a).conns);
  }

  /** Main result: over any run, the statements executed never exceed the measure of the start plus
      what arrived, so no thread loops without its client sending. */
  lemma {:induction false} WorkIsBounded(s: State, run: seq<Action>)
    requires Inv(s) && Possible(s, run)
    ensures 0 <= Measure(After(s, run)) <= Measure(s) + Sum(run, Arrival)
    decreases |run|
  {
    if run == [] {
      MeasureNonNeg(s);
    } else {
      ActionMeasure(s, run[0]);
      ApplyKeepsInv(s, run[0]);
      WorkIsBounded(Apply(s, run[0]), run[1..]);
    }
  }
}
