/** Shutdown: which connections the sweep ends, when the waiter is sure to pass, and what the
    terminator needs for that. */
module RegistryShutdown {
  import opened Sums
  import opened RegistryProtocol
  import opened RegistryInvariant
  import opened RegistryTermination

  ghost predicate NoAccept(run: seq<Action>)
  {
    forall i :: 0 <= i < |run| ==> !run[i].Accept?
  }

  /** A thread leaves its service loop only after the read side has ended and every packet that had
      arrived has been received. */
  ghost predicate EndedOnExit(s: State)
    requires |s.pcs| == |s.conns|
  {
    forall t :: 0 <= t < |s.pcs| && LOG_OUT <= s.pcs[t].at ==> s.conns[t].eof && s.conns[t].inbox == 0
  }

  lemma {:induction false} AlwaysEndedOnExit(s: State, run: seq<Action>)
    requires Inv(s) && EndedOnExit(s) && Possible(s, run)
    ensures EndedOnExit(After(s, run))
    decreases |run|
  {
    if run != [] {
      ExitStep(s, run[0]);
      ApplyKeepsInv(s, run[0]);
      AlwaysEndedOnExit(Apply(s, run[0]), run[1..]);
    }
  }

  lemma ExitStep(s: State, a: Action)
    requires Inv(s) && EndedOnExit(s) && Enabled(s, a)
    ensures EndedOnExit(Apply(s, a))
  {
    if a.Run? {
      MoveForward(s, a.t);
    }
  }

  /** A statement moves its own thread forward, keeps every descriptor and ends no read side. */
  lemma MoveForward(s: State, t: nat)
    requires Inv(s) && t < |s.pcs| && CanRun(s, t)
    ensures var s' := RunThread(s, t);
      && |s'.pcs| == |s'.conns| == |s.pcs| && s'.main == s.main && |s'.sh.fds| == |s.sh.fds|
      && (forall u :: 0 <= u < |s.pcs| ==> s'.conns[u].fd == s.conns[u].fd && s'.conns[u].eof == s.conns[u].eof)
      && (forall u :: 0 <= u < |s.pcs| && u != t ==> s'.pcs[u] == s.pcs[u])
      && s.pcs[t].at <= s'.pcs[t].at <= DONE
      && (s.pcs[t].at < LOG_OUT <= s'.pcs[t].at ==> s.conns[t].eof)
      && (MainLocks(s.main) == 1 ==> s'.sh.fds == s.sh.fds && Owns(s'.pcs[t]) == Owns(s.pcs[t]))
  {
    hide Accounting, OneToken;
    if s.pcs[t].at == SEARCH { SearchFinds(s, t); }
    if s.pcs[t].at == SCAN { ScanFinds(s, t); }
    if Locks(s.pcs[t]) == 1 { OneHolder(s.sh, s.pcs, s.main, t); }
  }

  // ---- The order of the terminator ----

  /** Where the terminator stands after `signals` signals and k statements, for n entries: it sweeps all
      entries under the lock, then waits, then has passed. */
  function TerminatorAt(signals: int, k: int, n: nat): Terminator
  {
    if signals <= 0 then Accepting
    else if k <= 0 then SweepLock
    else if k <= n + 1 then Sweep(k - 1)
    else if k == n + 2 then SweepUnlock
    else if k == n + 3 then Waiting
    else Passed
  }

  /** A statement of the terminator. */
  function IsMain(a: Action): int
  {
    if a.RunMain? then 1 else 0
  }

  function IsSignal(a: Action): int
  {
    if a.Signal? then 1 else 0
  }

  /** In every run from the start the terminator is where the number of its statements puts it: no wait
      before a whole sweep, no sweep before a signal. */
  lemma {:induction false} SweepThenWait(n: nat, run: seq<Action>)
    requires Possible(Init(n), run)
    ensures var signals, k := Sum(run, IsSignal), Sum(run, IsMain);
      && 0 <= signals <= 1 && 0 <= k <= n + 4 && (signals == 0 ==> k == 0)
      && After(Init(n), run).main == TerminatorAt(signals, k, n)
    decreases |run|
  {
    hide Accounting, OneToken, Entries;
    if run != [] {
      var before, a := run[..|run| - 1], run[|run| - 1];
      assert run == before + [a];
      RunInParts(Init(n), before, [a]);
      SweepThenWait(n, before);
      SumSnoc(before, a, IsSignal);
      SumSnoc(before, a, IsMain);
      InitInv(n);
      AlwaysInv(Init(n), before);
      EntriesCount(Init(n), before);
      assert [a][1..] == [];
    }
  }

  lemma {:induction false} EntriesCount(s: State, run: seq<Action>)
    requires Inv(s) && Possible(s, run)
    ensures |After(s, run).sh.fds| == |s.sh.fds|
    decreases |run|
  {
    hide Accounting, OneToken, Entries;
    if run != [] {
      if run[0].Run? { MoveForward(s, run[0].t); }
      ApplyKeepsInv(s, run[0]);
      EntriesCount(Apply(s, run[0]), run[1..]);
    }
  }

  // ---- Runs in parts ----

  lemma {:induction false} RunInParts(s: State, run: seq<Action>, rest: seq<Action>)
    requires |s.pcs| == |s.conns|
    ensures Possible(s, run + rest) <==> Possible(s, run) && Possible(After(s, run), rest)
    ensures Possible(s, run + rest) ==> After(s, run + rest) == After(After(s, run), rest)
    decreases |run|
  {
    if run == [] {
      assert run + rest == rest;
    } else {
      assert (run + rest)[1..] == run[1..] + rest;
      if Enabled(s, run[0]) {
        RunInParts(Apply(s, run[0]), run[1..], rest);
      }
    }
  }

  // ---- What the sweep reaches ----

  /** The connection of thread t will have ended when the sweep is through. */
  ghost predicate Reached(s: State, t: nat)
    requires t < |s.pcs| == |s.conns|
  {
    s.conns[t].eof ||
    (Owns(s.pcs[t]) == 1 && s.main.Sweep? && exists j :: s.main.next <= j < |s.sh.fds| && s.sh.fds[j] == s.conns[t].fd)
  }

  lemma ReachedStep(s: State, a: Action, t: nat)
    requires Inv(s) && Enabled(s, a) && t < |s.pcs| && (s.main.Sweep? || (s.main.SweepUnlock? && !a.RunMain?))
    ensures t < |Apply(s, a).pcs| == |Apply(s, a).conns|
    ensures Reached(s, t) ==> Reached(Apply(s, a), t)
    ensures Reached(Apply(s, a), t) ==> Reached(s, t) || (a.HangUp? && a.t == t)
    ensures Apply(s, a).main.Sweep? || Apply(s, a).main.SweepUnlock?
  {
    hide RunThread, Accounting, OneToken;
    var s' := Apply(s, a);
    match a
    case Run(u) => MoveForward(s, u);
    case RunMain =>
      var i := s.main.next;
      if i < |s.sh.fds| {
        if s.sh.fds[i] != -1 {
          var u :| OwnedBy(s, i, u);
          assert s.sh.fds[i] == s.conns[t].fd && IsOpen(s.pcs[t]) ==> u == t;
        }
      }
    case _ =>
  }

  lemma ReachedAtEnd(s: State, t: nat)
    requires t < |s.pcs| == |s.conns| && s.main.SweepUnlock?
    ensures Reached(s, t) <==> s.conns[t].eof
  {
  }

  /** At the start of the sweep: the connection has ended or its own entry is there. */
  lemma ReachedAtStart(s: State, t: nat)
    requires Inv(s) && s.main == Sweep(0) && t < |s.pcs| && IsOpen(s.pcs[t])
    ensures Reached(s, t) <==> s.conns[t].eof || s.conns[t].fd in s.sh.fds
  {
    if s.conns[t].fd in s.sh.fds {
      var j :| 0 <= j < |s.sh.fds| && s.sh.fds[j] == s.conns[t].fd;
      var u :| OwnedBy(s, j, u);
      assert u == t;
    }
  }

  /** Client t does not end its connection itself. */
  ghost predicate StaysOnLine(run: seq<Action>, t: nat)
  {
    forall i :: 0 <= i < |run| && run[i].HangUp? ==> run[i].t != t
  }

  lemma {:induction false} ReachedUntilEnd(s: State, run: seq<Action>, t: nat)
    requires Inv(s) && (s.main.Sweep? || s.main.SweepUnlock?) && t < |s.pcs|
    requires Possible(s, run) && StaysOnLine(run, t) && After(s, run).main.SweepUnlock?
    ensures t < |After(s, run).conns| && (After(s, run).conns[t].eof <==> Reached(s, t))
    decreases |run|
  {
    hide RunThread, Accounting, OneToken, Entries, Reached;
    if run == [] {
      ReachedAtEnd(s, t);
    } else {
      var s' := Apply(s, run[0]);
      ApplyKeepsInv(s, run[0]);
      if s.main.SweepUnlock? && run[0].RunMain? {
        PastSweep(s', run[1..]);
      } else {
        ReachedStep(s, run[0], t);
        ReachedUntilEnd(s', run[1..], t);
      }
    }
  }

  lemma {:induction false} PastSweep(s: State, run: seq<Action>)
    requires Inv(s) && (s.main.Waiting? || s.main.Passed?) && Possible(s, run)
    ensures After(s, run).main.Waiting? || After(s, run).main.Passed?
    decreases |run|
  {
    if run != [] {
      ApplyKeepsInv(s, run[0]);
      PastSweep(Apply(s, run[0]), run[1..]);
    }
  }

  /** Main result, exact: whatever threads, clients and new connections do during the sweep, it ends
      the connection of a client that stays on line if and only if the connection had ended before or
      the client's entry was in the registry when the sweep took the lock. A client between `Accept`
      and its entry is missed. */
  lemma SweepIsExact(s: State, run: seq<Action>, t: nat)
    requires Inv(s) && s.main == Sweep(0) && t < |s.pcs| && IsOpen(s.pcs[t])
    requires Possible(s, run) && StaysOnLine(run, t) && After(s, run).main.SweepUnlock?
    ensures t < |After(s, run).conns|
    ensures After(s, run).conns[t].eof <==> s.conns[t].eof || s.conns[t].fd in s.sh.fds
  {
    ReachedUntilEnd(s, run, t);
    ReachedAtStart(s, t);
  }

  // ---- From the sweep to the end ----

  /** Every connection that is still open has ended or has its entry in the registry. */
  ghost predicate AllRegistered(s: State)
    requires |s.pcs| == |s.conns|
  {
    forall t :: 0 <= t < |s.pcs| && IsOpen(s.pcs[t]) ==> s.conns[t].eof || s.conns[t].fd in s.sh.fds
  }

  ghost predicate Sweeping(s: State)
    requires |s.pcs| == |s.conns|
  {
    s.main.Sweep? && s.main.next <= |s.sh.fds| && forall t :: 0 <= t < |s.pcs| && IsOpen(s.pcs[t]) ==> Reached(s, t)
  }

  /** After the sweep: every connection still open has ended, so clients can add no more work. */
  ghost predicate Draining(s: State)
    requires |s.pcs| == |s.conns|
  {
    && (s.main.SweepUnlock? || s.main.Waiting? || s.main.Passed?)
    && forall t :: 0 <= t < |s.pcs| && IsOpen(s.pcs[t]) ==> s.conns[t].eof
  }

  lemma SweepingAtStart(s: State)
    requires Inv(s) && s.main == Sweep(0) && AllRegistered(s)
    ensures Sweeping(s)
  {
    hide Reached;
    forall t | 0 <= t < |s.pcs| && IsOpen(s.pcs[t])
      ensures Reached(s, t)
    {
      ReachedAtStart(s, t);
    }
  }

  lemma SweepStep(s: State, a: Action)
    requires Inv(s) && Enabled(s, a) && !a.Accept? && Sweeping(s)
    ensures var s' := Apply(s, a);
      if a.RunMain? && s.main.next == |s.sh.fds| then Draining(s')
      else Sweeping(s') && |s'.sh.fds| == |s.sh.fds| && s'.main.next == s.main.next + IsMain(a)
  {
    hide RunThread, Accounting, OneToken, Entries, Reached;
    var s' := Apply(s, a);
    if a.Run? { MoveForward(s, a.t); }
    forall t | 0 <= t < |s.pcs| && IsOpen(s'.pcs[t])
      ensures IsOpen(s.pcs[t]) && Reached(s', t)
    {
      ReachedStep(s, a, t);
    }
    if s'.main.SweepUnlock? {
      forall t | 0 <= t < |s.pcs| && IsOpen(s'.pcs[t])
        ensures s'.conns[t].eof
      {
        ReachedAtEnd(s', t);
      }
    }
  }

  lemma DrainStep(s: State, a: Action)
    requires Inv(s) && Enabled(s, a) && !a.Accept? && Draining(s)
    ensures Draining(Apply(s, a)) && Measure(Apply(s, a)) < Measure(s)
  {
    ActionMeasure(s, a);
    if a.Run? {
      MoveForward(s, a.t);
    }
  }

  lemma {:induction false} DrainStays(s: State, run: seq<Action>)
    requires Inv(s) && Draining(s) && Possible(s, run) && NoAccept(run)
    ensures Draining(After(s, run))
    decreases |run|
  {
    if run != [] {
      DrainStep(s, run[0]);
      ApplyKeepsInv(s, run[0]);
      DrainStays(Apply(s, run[0]), run[1..]);
    }
  }

  /** While the sweep lasts, its position counts the statements of the terminator. */
  lemma {:induction false} SweepProgress(s: State, run: seq<Action>)
    requires Inv(s) && Sweeping(s) && Possible(s, run) && NoAccept(run)
    ensures var e := After(s, run);
      || Draining(e)
      || (Sweeping(e) && |e.sh.fds| == |s.sh.fds| && e.main.next == s.main.next + Sum(run, IsMain))
    decreases |run|
  {
    hide Sweeping, Draining, Accounting, OneToken, Entries;
    if run != [] {
      var s' := Apply(s, run[0]);
      SweepStep(s, run[0]);
      ApplyKeepsInv(s, run[0]);
      if Draining(s') {
        DrainStays(s', run[1..]);
      } else {
        SweepProgress(s', run[1..]);
      }
    }
  }

  /** The sweep is over once the terminator has executed its n + 1 statements. */
  lemma SweepEnds(s: State, run: seq<Action>)
    requires Inv(s) && s.main == Sweep(0) && AllRegistered(s) && Possible(s, run) && NoAccept(run)
    requires |s.sh.fds| < Sum(run, IsMain)
    ensures Draining(After(s, run))
  {
    SweepingAtStart(s);
    SweepProgress(s, run);
  }

  /** After the sweep every run is finite: no run is longer than the measure. */
  lemma {:induction false} DrainIsFinite(s: State, run: seq<Action>)
    requires Inv(s) && Draining(s) && Possible(s, run) && NoAccept(run)
    ensures |run| <= Measure(s)
    decreases |run|
  {
    if run == [] {
      MeasureNonNeg(s);
    } else {
      DrainStep(s, run[0]);
      ApplyKeepsInv(s, run[0]);
      DrainIsFinite(Apply(s, run[0]), run[1..]);
    }
  }

  /** Main result: when the sweep starts with every connection registered or ended and none is accepted
      after it, the run is bounded once the terminator has executed n + 1 statements: what follows is
      no longer than the work then left. */
  lemma ShutdownIsBounded(s: State, run: seq<Action>, rest: seq<Action>)
    requires Inv(s) && s.main == Sweep(0) && AllRegistered(s)
    requires Possible(s, run + rest) && NoAccept(run + rest) && |s.sh.fds| < Sum(run, IsMain)
    ensures Possible(s, run) && |rest| <= Measure(After(s, run))
  {
    RunInParts(s, run, rest);
    assert forall i :: 0 <= i < |run| ==> (run + rest)[i] == run[i];
    assert forall i :: 0 <= i < |rest| ==> (run + rest)[|run| + i] == rest[i];
    AlwaysInv(s, run);
    SweepEnds(s, run);
    DrainIsFinite(After(s, run), rest);
  }

  lemma DrainEndsPassed(s: State)
    requires Inv(s) && Draining(s) && Stuck(s)
    ensures s.main.Passed?
  {
    if !s.main.Passed? {
      StuckStates(s);
      var t := SumWitness(s.pcs, Admitted);
    }
  }

  /** Main result: in the same situation a run that cannot be continued has let the waiter pass; when
      every thread had its entry announced, or nearly, it has also finished every thread. */
  lemma ShutdownTerminates(s: State, run: seq<Action>)
    requires Inv(s) && s.main == Sweep(0) && AllRegistered(s)
    requires Possible(s, run) && NoAccept(run) && Stuck(After(s, run))
    ensures After(s, run).main.Passed?
    ensures (forall t :: 0 <= t < |s.pcs| ==> ANNOUNCE <= s.pcs[t].at) ==>
      forall t :: 0 <= t < |s.pcs| ==> t < |After(s, run).pcs| && After(s, run).pcs[t].at == DONE
  {
    SweepingAtStart(s);
    SweepProgress(s, run);
    AlwaysInv(s, run);
    DrainEndsPassed(After(s, run));
    if forall t :: 0 <= t < |s.pcs| ==> ANNOUNCE <= s.pcs[t].at {
      ThreadsAdvance(s, run);
      NoneAdmitted(After(s, run));
      forall t | 0 <= t < |s.pcs|
        ensures After(s, run).pcs[t].at == DONE
      {
        assert !CanRun(After(s, run), t);
      }
    }
  }

  lemma {:induction false} ThreadsAdvance(s: State, run: seq<Action>)
    requires Inv(s) && Possible(s, run)
    ensures |s.pcs| <= |After(s, run).pcs|
    ensures forall t :: 0 <= t < |s.pcs| ==> s.pcs[t].at <= After(s, run).pcs[t].at
    decreases |run|
  {
    if run != [] {
      if run[0].Run? { MoveForward(s, run[0].t); }
      ApplyKeepsInv(s, run[0]);
      ThreadsAdvance(Apply(s, run[0]), run[1..]);
    }
  }

  // ---- Endless runs ----

  /** Every finite part of the infinite list of actions is possible. */
  ghost predicate Endless(s: State, run: nat -> Action)
    requires |s.pcs| == |s.conns|
  {
    forall k: nat :: Possible(s, Prefix(run, k))
  }

  ghost function StateAt(s: State, run: nat -> Action, k: nat): (e: State)
    requires |s.pcs| == |s.conns| && Endless(s, run)
    ensures |e.pcs| == |e.conns|
  {
    After(s, Prefix(run, k))
  }

  lemma EndlessParts(run: nat -> Action, k: nat, m: nat)
    requires k <= m
    ensures Prefix(run, m) == Prefix(run, k) + Prefix(run, m)[k..]
    ensures Sum(Prefix(run, k), IsMain) <= Sum(Prefix(run, m), IsMain)
  {
    assert Prefix(run, m) == Prefix(run, k) + Prefix(run, m)[k..];
    SumConcat(Prefix(run, k), Prefix(run, m)[k..], IsMain);
    SumNonNeg(Prefix(run, m)[k..], IsMain);
  }

  lemma EndlessNeverDrains(s: State, run: nat -> Action, k: nat)
    requires Inv(s) && Endless(s, run) && forall j: nat :: !run(j).Accept?
    ensures !Draining(StateAt(s, run, k))
  {
    hide Accounting, OneToken, Entries, Draining;
    AlwaysInv(s, Prefix(run, k));
    var e := StateAt(s, run, k);
    if Draining(e) {
      MeasureNonNeg(e);
      var m := k + Measure(e) + 1;
      var rest := Prefix(run, m)[k..];
      EndlessParts(run, k, m);
      assert Possible(s, Prefix(run, m));
      RunInParts(s, Prefix(run, k), rest);
      DrainIsFinite(e, rest);
    }
  }

  lemma EndlessSweeps(s: State, run: nat -> Action, k: nat)
    requires Inv(s) && s.main == Sweep(0) && AllRegistered(s) && Endless(s, run) && forall j: nat :: !run(j).Accept?
    ensures Sweeping(StateAt(s, run, k)) && StateAt(s, run, k).main.next == Sum(Prefix(run, k), IsMain) <= |s.sh.fds|
  {
    SweepingAtStart(s);
    EndlessNeverDrains(s, run, k);
    SweepProgress(s, Prefix(run, k));
  }

  /** From some point on the terminator can always execute its next statement and never does. */
  ghost predicate Starved(s: State, run: nat -> Action, k: nat)
    requires |s.pcs| == |s.conns| && Endless(s, run)
  {
    forall j: nat :: k <= j ==> CanRunMain(StateAt(s, run, j)) && !run(j).RunMain?
  }

  /** Main result: in the situation of a complete shutdown, an endless run is one that starves the
      terminator for ever; under any scheduling that does not, every run ends. */
  lemma EndlessIsStarved(s: State, run: nat -> Action) returns (k: nat)
    requires Inv(s) && s.main == Sweep(0) && AllRegistered(s) && Endless(s, run) && forall j: nat :: !run(j).Accept?
    ensures Starved(s, run, k)
  {
    k := LastOfMain(s, run, 0);
    forall j: nat | k <= j
      ensures CanRunMain(StateAt(s, run, j))
    {
      EndlessSweeps(s, run, j);
    }
  }

  lemma {:induction false} LastOfMain(s: State, run: nat -> Action, from: nat) returns (k: nat)
    requires Inv(s) && s.main == Sweep(0) && AllRegistered(s) && Endless(s, run) && forall j: nat :: !run(j).Accept?
    ensures forall j: nat :: k <= j ==> !run(j).RunMain?
    decreases |s.sh.fds| + 1 - Sum(Prefix(run, from), IsMain)
  {
    hide Inv, Sweeping, AllRegistered, Endless, StateAt;
    if exists j: nat :: from <= j && run(j).RunMain? {
      var j: nat :| from <= j && run(j).RunMain?;
      EndlessSweeps(s, run, from);
      EndlessSweeps(s, run, j + 1);
      EndlessParts(run, from, j);
      assert Prefix(run, j + 1) == Prefix(run, j) + [run(j)];
      SumSnoc(Prefix(run, j), run(j), IsMain);
      k := LastOfMain(s, run, j + 1);
    } else {
      k := from;
    }
  }

  /** Such runs exist: a client that keeps sending, served as it does, leaves the sweep where it is. */
  lemma ChattyClient(s: State, t: nat) returns (run: nat -> Action)
    requires Inv(s) && s.main.Sweep? && t < |s.pcs|
    requires s.pcs[t].at == SERVE && s.conns[t].inbox == 0 && !s.conns[t].eof
    ensures Endless(s, run) && Starved(s, run, 0) && forall j: nat :: !run(j).Accept?
  {
    run := (j: nat) => if j % 2 == 0 then Deliver(t) else Run(t);
    forall k: nat
      ensures Possible(s, Prefix(run, k)) && After(s, Prefix(run, k)).main.Sweep?
    {
      ChattyState(s, t, run, k);
    }
  }

  lemma {:induction false} ChattyState(s: State, t: nat, run: nat -> Action, k: nat)
    requires Inv(s) && s.main.Sweep? && t < |s.pcs|
    requires s.pcs[t].at == SERVE && s.conns[t].inbox == 0 && !s.conns[t].eof
    requires forall j: nat :: run(j) == if j % 2 == 0 then Deliver(t) else Run(t)
    ensures Possible(s, Prefix(run, k))
    ensures After(s, Prefix(run, k)) == if k % 2 == 0 then s else s.(conns := s.conns[t := s.conns[t].(inbox := 1)])
  {
    hide Apply, Inv, Enabled;
    if k == 0 {
      assert Prefix(run, 0) == [];
    } else {
      ChattyState(s, t, run, k - 1);
      assert Prefix(run, k) == Prefix(run, k - 1) + [run(k - 1)];
      ChattyPair(s, t);
      Extend(s, Prefix(run, k - 1), run(k - 1));
    }
  }

  lemma ChattyPair(s: State, t: nat)
    requires Inv(s) && t < |s.pcs| && s.pcs[t].at == SERVE && s.conns[t].inbox == 0 && !s.conns[t].eof
    ensures var s' := s.(conns := s.conns[t := s.conns[t].(inbox := 1)]);
      Enabled(s, Deliver(t)) && Apply(s, Deliver(t)) == s' && Enabled(s', Run(t)) && Apply(s', Run(t)) == s
  {
    assert s.conns[t := s.conns[t].(inbox := 1)][t := s.conns[t]] == s.conns;
  }

  lemma {:induction false} Extend(s: State, run: seq<Action>, a: Action)
    requires |s.pcs| == |s.conns| && Possible(s, run) && Enabled(After(s, run), a)
    ensures Possible(s, run + [a]) && After(s, run + [a]) == Apply(After(s, run), a)
  {
    RunInParts(s, run, [a]);
    assert [a][1..] == [];
  }

  // ---- The converse: a client that is missed ----

  /** Nobody connects, sends or hangs up. */
  ghost predicate Silent(run: seq<Action>)
  {
    forall i :: 0 <= i < |run| ==> run[i].Run? || run[i].RunMain? || run[i].Signal?
  }

  /** What the rest of the sweep, run alone, leaves behind. */
  ghost predicate SweptAlone(s: State, e: State)
    requires |s.pcs| == |s.conns| && s.main.Sweep?
  {
    && e == State(s.sh.(mutex := s.sh.mutex + 1), s.pcs, e.conns, Waiting) && |e.conns| == |s.conns|
    && forall t :: 0 <= t < |s.conns| ==>
         var ended := IsOpen(s.pcs[t]) && exists j :: s.main.next <= j < |s.sh.fds| && s.sh.fds[j] == s.conns[t].fd;
         e.conns[t] == s.conns[t].(eof := s.conns[t].eof || ended)
  }

  /** `creg_shutdown_all` without interference: exactly the open connections whose descriptors are
      entries have ended, and the lock is free again. */
  lemma {:induction false} SweepAlone(s: State) returns (run: seq<Action>)
    requires |s.pcs| == |s.conns| && s.main.Sweep? && s.main.next <= |s.sh.fds|
    ensures Silent(run) && Possible(s, run) && SweptAlone(s, After(s, run))
    decreases |s.sh.fds| - (if s.main.Sweep? then s.main.next else 0)
  {
    var s' := Apply(s, RunMain);
    if s.main.next == |s.sh.fds| {
      run := [RunMain, RunMain];
      assert run[1..] == [RunMain] && [RunMain][1..] == [];
    } else {
      var rest := SweepAlone(s');
      run := [RunMain] + rest;
      assert run[1..] == rest;
    }
  }

  /** Threads run until none of them can; the terminator only waits. */
  lemma {:induction false} ThreadsRunOut(s: State) returns (run: seq<Action>)
    requires Inv(s) && EndedOnExit(s) && s.main.Waiting?
    ensures Silent(run) && Possible(s, run)
    ensures var e := After(s, run);
      && Inv(e) && EndedOnExit(e) && e.main.Waiting? && |e.sh.fds| == |s.sh.fds| && |e.pcs| == |s.pcs|
      && (forall t :: 0 <= t < |e.pcs| ==> !CanRun(e, t))
      && (forall t :: 0 <= t < |s.pcs| ==>
           e.conns[t].eof == s.conns[t].eof && (IsOpen(s.pcs[t]) && !s.conns[t].eof ==> IsOpen(e.pcs[t])))
    decreases Measure(s)
  {
    hide RunThread, CanRun, Measure, Accounting, OneToken, Entries;
    if exists t :: 0 <= t < |s.pcs| && CanRun(s, t) {
      var t :| 0 <= t < |s.pcs| && CanRun(s, t);
      RunDecreases(s, t);
      MeasureNonNeg(RunThread(s, t));
      MoveForward(s, t);
      ExitStep(s, Run(t));
      ApplyKeepsInv(s, Run(t));
      var rest := ThreadsRunOut(RunThread(s, t));
      run := [Run(t)] + rest;
      assert run[1..] == rest;
    } else {
      run := [];
    }
  }

  /** A waiting terminator and an open connection that has not ended: when no thread can move, the
      token is with the clients. */
  lemma OpenClientHoldsToken(s: State, t: nat)
    requires Inv(s) && EndedOnExit(s) && s.main.Waiting? && 0 < |s.sh.fds|
    requires forall u :: 0 <= u < |s.pcs| ==> !CanRun(s, u)
    requires t < |s.pcs| && IsOpen(s.pcs[t]) && !s.conns[t].eof
    ensures Stuck(s)
    ensures AwaitsClient(s, t) || (s.pcs[t].at == WANT_SLOT && Sum(s.pcs, Serves) == |s.sh.fds|)
  {
    hide Accounting, Entries;
    IdleThreads(s);
    var u := t;
    if s.pcs[t].at != SERVE {
      u := SumWitness(s.pcs, Serves);
    }
    SumAtLeast(s.pcs, u, Admitted);
  }

  /** The converse of ShutdownTerminates: a client that has neither its entry nor an ended connection
      when the sweep starts can keep the waiter waiting for ever, by staying silent. */
  lemma UnregisteredIsMissed(s: State, t: nat) returns (run: seq<Action>)
    requires Inv(s) && EndedOnExit(s) && s.main == Sweep(0) && 0 < |s.sh.fds|
    requires t < |s.pcs| && IsOpen(s.pcs[t]) && !s.conns[t].eof && s.conns[t].fd !in s.sh.fds
    ensures Silent(run) && Possible(s, run)
    ensures var e := After(s, run);
      && e.main.Waiting? && Stuck(e) && |e.pcs| == |s.pcs| && |e.sh.fds| == |s.sh.fds|
      && (AwaitsClient(e, t) || (e.pcs[t].at == WANT_SLOT && Sum(e.pcs, Serves) == |e.sh.fds|))
  {
    hide Accounting, OneToken, Entries;
    var sweep := SweepAlone(s);
    AlwaysInv(s, sweep);
    AlwaysEndedOnExit(s, sweep);
    var m := After(s, sweep);
    assert !m.conns[t].eof;
    var rest := ThreadsRunOut(m);
    run := sweep + rest;
    RunInParts(s, sweep, rest);
    OpenClientHoldsToken(After(s, run), t);
  }

  lemma SilentAccepts(run: seq<Action>)
    requires Silent(run)
    ensures NoAccept(run)
  {
    assert forall i :: 0 <= i < |run| ==> !run[i].Accept?;
  }

  /** Main result, exact: every run from the start of the sweep that cannot be continued has let the
      waiter pass if and only if every open connection had ended or was registered at that start. */
  lemma ShutdownIsExact(s: State)
    requires Inv(s) && EndedOnExit(s) && s.main == Sweep(0) && 0 < |s.sh.fds|
    ensures AllRegistered(s) <==>
      forall run :: Possible(s, run) && NoAccept(run) && Stuck(After(s, run)) ==> After(s, run).main.Passed?
  {
    hide Accounting, OneToken, Entries, EndedOnExit, Stuck, Possible, After;
    if AllRegistered(s) {
      forall run | Possible(s, run) && NoAccept(run) && Stuck(After(s, run))
        ensures After(s, run).main.Passed?
      {
        ShutdownTerminates(s, run);
      }
    } else {
      var t :| 0 <= t < |s.pcs| && IsOpen(s.pcs[t]) && !s.conns[t].eof && s.conns[t].fd !in s.sh.fds;
      var run := UnregisteredIsMissed(s, t);
      SilentAccepts(run);
    }
  }

  /** A registry of any size can wait for ever: a client accepted before the signal whose thread
      registers after the sweep is never shut down, and while it stays silent nothing moves. */
  lemma LateClientIsMissed(n: nat, fd: int) returns (run: seq<Action>)
    requires 0 < n && 0 <= fd
    ensures Possible(Init(n), run) && NoHangUp(run)
    ensures After(Init(n), run).main.Waiting? && Stuck(After(Init(n), run)) && |After(Init(n), run).pcs| == 1
    ensures AwaitsClient(After(Init(n), run), 0)
  {
    var start := SweepStarts(n, fd);
    InitInv(n);
    AlwaysInv(Init(n), start);
    var s := After(Init(n), start);
    var rest := UnregisteredIsMissed(s, 0);
    run := start + rest;
    RunInParts(Init(n), start, rest);
    var e := After(Init(n), run);
    if !AwaitsClient(e, 0) {
      var t := SumWitness(e.pcs, Serves);
    }
  }

  ghost predicate NoHangUp(run: seq<Action>)
  {
    forall i :: 0 <= i < |run| ==> !run[i].HangUp?
  }

  lemma SweepStarts(n: nat, fd: int) returns (run: seq<Action>)
    requires 0 < n && 0 <= fd
    ensures Possible(Init(n), run) && NoHangUp(run)
    ensures After(Init(n), run) == State(Fresh(n).(mutex := 0), [At(WANT_SLOT)], [Conn(fd, 0, false)], Sweep(0))
  {
    run := [];
    Extend(Init(n), run, Accept(fd));
    run := run + [Accept(fd)];
    Extend(Init(n), run, Signal);
    run := run + [Signal];
    Extend(Init(n), run, RunMain);
    run := run + [RunMain];
  }
}
