/** What every interleaving of registering, serving, unregistering and terminating threads keeps. */
module RegistryInvariant {
  import opened Sums
  import opened RegistryProtocol

  // ---- Where a thread stands, as 0/1 weights on the statement it executes next ----

  function Between(pc: Pc, first: nat, last: nat): int
  {
    if first <= pc.at <= last then 1 else 0
  }

  /** Holds `mutex`. */
  function Locks(pc: Pc): int { Between(pc, SEARCH, UNLOCK) + Between(pc, SCAN, UNLOCK_AGAIN) }

  /** Past P(slots) and has not written its entry. */
  function Reserves(pc: Pc): int { Between(pc, WANT_LOCK, STORE) }

  /** Has written its entry and not cleared it. */
  function Owns(pc: Pc): int { Between(pc, COUNT_UP, CLEAR) }

  /** Cleared its entry and has not posted `slots`. */
  function Freed(pc: Pc): int { Between(pc, COUNT_DOWN, FREE_SLOT) }

  /** Wrote its entry and has not posted `items`. */
  function Unannounced(pc: Pc): int { Between(pc, COUNT_UP, ANNOUNCE) }

  /** Past P(items) and has not cleared its entry. */
  function Took(pc: Pc): int { Between(pc, WANT_LOCK_AGAIN, CLEAR) }

  /** Its increment of `count` has been done and not undone. */
  function Counted(pc: Pc): int { Between(pc, TEST_ONE, COUNT_DOWN) }

  /** Past the guarded P(count_mutex) of registering and before the guarded V of unregistering. */
  function Admitted(pc: Pc): int { Between(pc, UNLOCK, RETURN_TOKEN) }

  /** Between the increment of `count` and the end of the guarded P. */
  function Entering(pc: Pc): int { Between(pc, TEST_ONE, TAKE_TOKEN) }

  /** Between the decrement of `count` and the end of the guarded V. */
  function Leaving(pc: Pc): int { Between(pc, TEST_ZERO, RETURN_TOKEN) }

  function MainLocks(m: Terminator): int
  {
    if m.Sweep? || m.SweepUnlock? then 1 else 0
  }

  function Occupied(fd: int): int
  {
    if fd == -1 then 0 else 1
  }

  // ---- The invariant ----

  /** Who holds each unit of each semaphore. */
  ghost predicate Accounting(sh: Shared, pcs: seq<Pc>, main: Terminator)
  {
    && sh.mutex + Sum(pcs, Locks) + MainLocks(main) == 1
    && sh.slots + Sum(pcs, Reserves) + Sum(sh.fds, Occupied) + Sum(pcs, Freed) == |sh.fds|
    && sh.items + Sum(pcs, Unannounced) + Sum(pcs, Took) == Sum(sh.fds, Occupied)
    && Sum(pcs, Owns) == Sum(sh.fds, Occupied)
    && sh.count == Sum(pcs, Counted)
  }

  /** The `count_mutex` token is in the semaphore, with the waiter, or with the admitted clients. */
  ghost predicate OneToken(sh: Shared, pcs: seq<Pc>, main: Terminator)
  {
    && sh.countMutex + (if main.Passed? then 1 else 0) + (if Sum(pcs, Admitted) > 0 then 1 else 0) == 1
    && forall t :: 0 <= t < |pcs| ==>
         && (pcs[t].at == TAKE_TOKEN ==> sh.count == 1)
         && (pcs[t].at == RETURN_TOKEN ==> sh.count == 0)
  }

  ghost predicate OwnedBy(s: State, j: nat, t: nat)
    requires j < |s.sh.fds| && |s.pcs| == |s.conns|
  {
    t < |s.pcs| && Owns(s.pcs[t]) == 1 && s.conns[t].fd == s.sh.fds[j]
  }

  /** Entries and threads correspond, and no thread is on an error path. */
  ghost predicate Entries(s: State)
    requires |s.pcs| == |s.conns|
  {
    var fds := s.sh.fds;
    && (forall t :: 0 <= t < |s.pcs| ==>
         var pc, fd := s.pcs[t], s.conns[t].fd;
         && pc.at <= DONE
         && 0 <= fd
         && (pc.at == STORE ==> pc.index < |fds| && fds[pc.index] == -1)
         && (pc.at == CLEAR ==> pc.index < |fds| && fds[pc.index] == fd)
         && (Owns(pc) == 1 ==> fd in fds))
    && (forall t, u :: 0 <= t < u < |s.pcs| && IsOpen(s.pcs[t]) && IsOpen(s.pcs[u]) ==> s.conns[t].fd != s.conns[u].fd)
    && (forall j :: 0 <= j < |fds| && fds[j] != -1 ==> exists t :: OwnedBy(s, j, t))
    && (forall j, k :: 0 <= j < k < |fds| && fds[j] != -1 ==> fds[j] != fds[k])
  }

  ghost predicate Inv(s: State)
  {
    |s.pcs| == |s.conns| && Accounting(s.sh, s.pcs, s.main) && OneToken(s.sh, s.pcs, s.main) && Entries(s)
  }

  lemma InitInv(n: nat)
    ensures Inv(Init(n))
  {
    SumConst(Fresh(n).fds, 0, Occupied);
  }

  // ---- Consequences of mutual exclusion ----

  lemma OneHolder(sh: Shared, pcs: seq<Pc>, main: Terminator, t: nat)
    requires Accounting(sh, pcs, main)
    requires t < |pcs| && Locks(pcs[t]) == 1
    ensures sh.mutex == 0 && MainLocks(main) == 0
    ensures forall u :: 0 <= u < |pcs| && u != t ==> Locks(pcs[u]) == 0
  {
    SumAtLeast(pcs, t, Locks);
    forall u | 0 <= u < |pcs| && u != t
      ensures Locks(pcs[u]) == 0
    {
      if t < u {
        SumAtLeastTwo(pcs, t, u, Locks);
      } else {
        SumAtLeastTwo(pcs, u, t, Locks);
      }
    }
  }

  /** How many clients are admitted, up to the two windows in which the lock holder has changed
      `count` and not yet settled the token. */
  lemma {:induction false} TokenWindows(pcs: seq<Pc>)
    ensures Sum(pcs, Admitted) + Sum(pcs, Entering) == Sum(pcs, Counted) + Sum(pcs, Leaving)
    ensures Sum(pcs, Entering) + Sum(pcs, Leaving) <= Sum(pcs, Locks)
    ensures 0 <= Sum(pcs, Entering) && 0 <= Sum(pcs, Leaving) && 0 <= Sum(pcs, Admitted) && 0 <= Sum(pcs, Counted)
  {
    if pcs != [] {
      TokenWindows(pcs[1..]);
    }
  }

  /** Inside a window exactly one client is counted and not admitted, or admitted and not counted. */
  lemma InWindow(sh: Shared, pcs: seq<Pc>, main: Terminator, t: nat)
    requires Accounting(sh, pcs, main) && t < |pcs|
    ensures Entering(pcs[t]) == 1 ==> Sum(pcs, Admitted) == sh.count - 1
    ensures Leaving(pcs[t]) == 1 ==> Sum(pcs, Admitted) == sh.count + 1
  {
    TokenWindows(pcs);
    SumAtLeast(pcs, t, Entering);
    SumAtLeast(pcs, t, Leaving);
    SumAtLeast(pcs, t, Locks);
  }

  /** The lock holder that reserved a slot always finds an empty entry: the branch that would
      return with the lock held is dead. */
  lemma SearchFinds(s: State, t: nat)
    requires Inv(s) && t < |s.pcs| && s.pcs[t].at == SEARCH
    ensures 0 <= Find(s.sh.fds, -1) < |s.sh.fds|
  {
    if -1 !in s.sh.fds {
      SumConst(s.sh.fds, 1, Occupied);
      SumAtLeast(s.pcs, t, Reserves);
      SumNonNeg(s.pcs, Freed);
    }
  }

  /** The entry a client unregisters is there: the miss branch is dead. */
  lemma ScanFinds(s: State, t: nat)
    requires Inv(s) && t < |s.pcs| && s.pcs[t].at == SCAN
    ensures 0 <= Find(s.sh.fds, s.conns[t].fd) < |s.sh.fds|
  {
  }

  /** P(count_mutex) inside `creg_register`, executed with `mutex` held, finds the token unless the
      waiter has it. */
  lemma TokenAvailable(s: State, t: nat)
    requires Inv(s) && t < |s.pcs| && s.pcs[t].at == TAKE_TOKEN && !s.main.Passed?
    ensures s.sh.countMutex == 1
  {
    InWindow(s.sh, s.pcs, s.main, t);
  }

  /** P(items) inside `creg_unregister` never blocks. */
  lemma ItemAvailable(s: State, t: nat)
    requires Inv(s) && t < |s.pcs| && s.pcs[t].at == WANT_ITEM
    ensures s.sh.items > 0
  {
    SumTriple(s.pcs);
    SumAtLeast(s.pcs, t, Settled);
  }

  /** Registered and not yet taking its item back. */
  function Settled(pc: Pc): int { Between(pc, SERVE, WANT_ITEM) }

  lemma {:induction false} SumTriple(pcs: seq<Pc>)
    ensures Sum(pcs, Owns) == Sum(pcs, Unannounced) + Sum(pcs, Took) + Sum(pcs, Settled)
  {
    if pcs != [] {
      SumTriple(pcs[1..]);
    }
  }

  // ---- Every step keeps the accounts ----

  /** What one statement does to the semaphores and to the place of its thread. */
  ghost predicate Balanced(sh: Shared, pc: Pc, sh': Shared, pc': Pc)
  {
    && sh'.mutex + Locks(pc') == sh.mutex + Locks(pc)
    && sh'.count - Counted(pc') == sh.count - Counted(pc)
    && sh'.slots + Reserves(pc') + Owns(pc') + Freed(pc') == sh.slots + Reserves(pc) + Owns(pc) + Freed(pc)
    && sh'.items + Unannounced(pc') + Took(pc') - Owns(pc') == sh.items + Unannounced(pc) + Took(pc) - Owns(pc)
  }

  lemma RegisterBalanced(sh: Shared, pc: Pc, fd: int)
    requires Registering(pc) && !Blocked(sh, pc)
    requires pc.at == SEARCH ==> -1 in sh.fds
    ensures Balanced(sh, pc, RegisterStep(sh, pc, fd).0, RegisterStep(sh, pc, fd).1)
  {
  }

  lemma UnregisterBalanced(sh: Shared, pc: Pc, fd: int)
    requires Unregistering(pc) && pc.at <= DONE && !Blocked(sh, pc)
    requires pc.at == SCAN ==> fd in sh.fds
    ensures Balanced(sh, pc, UnregisterStep(sh, pc, fd).0, UnregisterStep(sh, pc, fd).1)
  {
  }

  lemma BalancedKeepsAccounts(sh: Shared, pcs: seq<Pc>, main: Terminator, t: nat, sh': Shared, pc': Pc)
    requires Accounting(sh, pcs, main) && t < |pcs| && Balanced(sh, pcs[t], sh', pc') && |sh'.fds| == |sh.fds|
    requires Sum(sh'.fds, Occupied) - Owns(pc') == Sum(sh.fds, Occupied) - Owns(pcs[t])
    ensures Accounting(sh', pcs[t := pc'], main)
  {
    SumUpdate(pcs, t, pc', Locks);
    SumUpdate(pcs, t, pc', Reserves);
    SumUpdate(pcs, t, pc', Owns);
    SumUpdate(pcs, t, pc', Freed);
    SumUpdate(pcs, t, pc', Unannounced);
    SumUpdate(pcs, t, pc', Took);
    SumUpdate(pcs, t, pc', Counted);
  }

  /** The entry write of a statement, if it has one, adds or removes exactly one occupied entry. */
  lemma EntryWrite(fds: seq<int>, i: nat, fd: int)
    requires i < |fds| && (fds[i] == -1 <==> fd != -1)
    ensures Sum(fds[i := fd], Occupied) == Sum(fds, Occupied) + if fd == -1 then -1 else 1
  {
    SumUpdate(fds, i, fd, Occupied);
  }

  lemma RegisterKeepsAccounts(s: State, t: nat)
    requires Inv(s) && t < |s.pcs| && CanRun(s, t) && Registering(s.pcs[t])
    ensures Accounting(RunThread(s, t).sh, RunThread(s, t).pcs, s.main)
  {
    var pc, fd := s.pcs[t], s.conns[t].fd;
    if pc.at == SEARCH {
      SearchFinds(s, t);
    } else if pc.at == STORE {
      EntryWrite(s.sh.fds, pc.index, fd);
    }
    RegisterBalanced(s.sh, pc, fd);
    var (sh', pc') := RegisterStep(s.sh, pc, fd);
    BalancedKeepsAccounts(s.sh, s.pcs, s.main, t, sh', pc');
  }

  lemma UnregisterKeepsAccounts(s: State, t: nat)
    requires Inv(s) && t < |s.pcs| && CanRun(s, t) && Unregistering(s.pcs[t])
    ensures Accounting(RunThread(s, t).sh, RunThread(s, t).pcs, s.main)
  {
    var pc, fd := s.pcs[t], s.conns[t].fd;
    if pc.at == SCAN {
      ScanFinds(s, t);
    } else if pc.at == CLEAR {
      EntryWrite(s.sh.fds, pc.index, -1);
    }
    UnregisterBalanced(s.sh, pc, fd);
    var (sh', pc') := UnregisterStep(s.sh, pc, fd);
    BalancedKeepsAccounts(s.sh, s.pcs, s.main, t, sh', pc');
  }

  // ---- Every step keeps the token in one place ----

  lemma OneTokenAfter(sh: Shared, pcs: seq<Pc>, main: Terminator, t: nat, sh': Shared, pc': Pc)
    requires OneToken(sh, pcs, main) && t < |pcs|
    requires sh'.count == sh.count || forall u :: 0 <= u < |pcs| && u != t ==> Locks(pcs[u]) == 0
    requires (pc'.at == TAKE_TOKEN ==> sh'.count == 1) && (pc'.at == RETURN_TOKEN ==> sh'.count == 0)
    requires var before, after := Sum(pcs, Admitted), Sum(pcs, Admitted) - Admitted(pcs[t]) + Admitted(pc');
      sh'.countMutex + (if after > 0 then 1 else 0) == sh.countMutex + (if before > 0 then 1 else 0)
    ensures OneToken(sh', pcs[t := pc'], main)
  {
    SumUpdate(pcs, t, pc', Admitted);
  }

  lemma RegisterKeepsToken(s: State, t: nat)
    requires Inv(s) && t < |s.pcs| && CanRun(s, t) && Registering(s.pcs[t])
    ensures OneToken(RunThread(s, t).sh, RunThread(s, t).pcs, s.main)
  {
    var pc := s.pcs[t];
    var (sh', pc') := RegisterStep(s.sh, pc, s.conns[t].fd);
    if Locks(pc) == 1 {
      OneHolder(s.sh, s.pcs, s.main, t);
      InWindow(s.sh, s.pcs, s.main, t);
    }
    TokenWindows(s.pcs);
    SumAtLeast(s.pcs, t, Counted);
    OneTokenAfter(s.sh, s.pcs, s.main, t, sh', pc');
  }

  lemma UnregisterKeepsToken(s: State, t: nat)
    requires Inv(s) && t < |s.pcs| && CanRun(s, t) && Unregistering(s.pcs[t])
    ensures OneToken(RunThread(s, t).sh, RunThread(s, t).pcs, s.main)
  {
    var pc := s.pcs[t];
    if pc.at == SCAN {
      ScanFinds(s, t);
    }
    var (sh', pc') := UnregisterStep(s.sh, pc, s.conns[t].fd);
    if Locks(pc) == 1 {
      OneHolder(s.sh, s.pcs, s.main, t);
      InWindow(s.sh, s.pcs, s.main, t);
    }
    TokenWindows(s.pcs);
    SumAtLeast(s.pcs, t, Counted);
    OneTokenAfter(s.sh, s.pcs, s.main, t, sh', pc');
  }

  // ---- Every step keeps entries and threads in correspondence ----

  /** Thread t moves without writing an entry. */
  lemma MoveKeepsEntries(s: State, t: nat, s': State)
    requires |s.pcs| == |s.conns| == |s'.conns| && Entries(s) && t < |s.pcs|
    requires s'.sh.fds == s.sh.fds && |s'.pcs| == |s.pcs| && s'.pcs == s.pcs[t := s'.pcs[t]]
    requires forall u :: 0 <= u < |s.conns| ==> s'.conns[u].fd == s.conns[u].fd
    requires Owns(s'.pcs[t]) == Owns(s.pcs[t]) && s'.pcs[t].at <= DONE && IsOpen(s.pcs[t])
    requires s'.pcs[t].at == STORE ==> s'.pcs[t].index < |s.sh.fds| && s.sh.fds[s'.pcs[t].index] == -1
    requires s'.pcs[t].at == CLEAR ==> s'.pcs[t].index < |s.sh.fds| && s.sh.fds[s'.pcs[t].index] == s.conns[t].fd
    ensures Entries(s')
  {
    forall j | 0 <= j < |s.sh.fds| && s.sh.fds[j] != -1
      ensures exists u :: OwnedBy(s', j, u)
    {
      var u :| OwnedBy(s, j, u);
      assert OwnedBy(s', j, u);
    }
  }

  lemma StoreKeepsEntries(s: State, t: nat)
    requires Inv(s) && t < |s.pcs| && s.pcs[t].at == STORE
    ensures Entries(RunThread(s, t))
  {
    hide Accounting, OneToken;
    var i := s.pcs[t].index;
    var fds, s' := s.sh.fds, RunThread(s, t);
    var fds' := s'.sh.fds;
    assert fds' == fds[i := s.conns[t].fd];
    OneHolder(s.sh, s.pcs, s.main, t);
    forall u | 0 <= u < |s.pcs| && u != t && Owns(s.pcs[u]) == 1
      ensures s.conns[u].fd in fds'
    {
      var j :| 0 <= j < |fds| && fds[j] == s.conns[u].fd;
      assert fds'[j] == s.conns[u].fd;
    }
    assert fds'[i] == s.conns[t].fd;
    forall j | 0 <= j < |fds'| && fds'[j] != -1
      ensures exists u :: OwnedBy(s', j, u)
    {
      if j == i {
        assert OwnedBy(s', j, t);
      } else {
        var u :| OwnedBy(s, j, u);
        assert OwnedBy(s', j, u);
      }
    }
    forall j | 0 <= j < |fds|
      ensures fds[j] != s.conns[t].fd
    {
      if fds[j] != -1 {
        var u :| OwnedBy(s, j, u);
        assert u != t;
      }
    }
  }

  lemma ClearKeepsEntries(s: State, t: nat)
    requires Inv(s) && t < |s.pcs| && s.pcs[t].at == CLEAR
    ensures Entries(RunThread(s, t))
  {
    hide Accounting, OneToken;
    var i := s.pcs[t].index;
    var fds, s' := s.sh.fds, RunThread(s, t);
    var fds' := s'.sh.fds;
    assert fds' == fds[i := -1];
    OneHolder(s.sh, s.pcs, s.main, t);
    forall u | 0 <= u < |s.pcs| && u != t && Owns(s.pcs[u]) == 1
      ensures s.conns[u].fd in fds'
    {
      var j :| 0 <= j < |fds| && fds[j] == s.conns[u].fd;
      assert s.conns[u].fd != s.conns[t].fd;
      assert fds'[j] == s.conns[u].fd;
    }
    forall j | 0 <= j < |fds'| && fds'[j] != -1
      ensures exists u :: OwnedBy(s', j, u)
    {
      var u :| OwnedBy(s, j, u);
      assert OwnedBy(s', j, u);
    }
  }

  lemma RegisterKeepsInv(s: State, t: nat)
    requires Inv(s) && t < |s.pcs| && CanRun(s, t) && Registering(s.pcs[t])
    ensures Inv(RunThread(s, t))
  {
    RegisterKeepsAccounts(s, t);
    RegisterKeepsToken(s, t);
    if s.pcs[t].at == STORE {
      StoreKeepsEntries(s, t);
    } else {
      if s.pcs[t].at == SEARCH { SearchFinds(s, t); }
      MoveKeepsEntries(s, t, RunThread(s, t));
    }
  }

  lemma UnregisterKeepsInv(s: State, t: nat)
    requires Inv(s) && t < |s.pcs| && CanRun(s, t) && Unregistering(s.pcs[t])
    ensures Inv(RunThread(s, t))
  {
    UnregisterKeepsAccounts(s, t);
    UnregisterKeepsToken(s, t);
    if s.pcs[t].at == CLEAR {
      ClearKeepsEntries(s, t);
    } else {
      if s.pcs[t].at == SCAN { ScanFinds(s, t); }
      MoveKeepsEntries(s, t, RunThread(s, t));
    }
  }

  lemma ServeKeepsInv(s: State, t: nat)
    requires Inv(s) && t < |s.pcs| && CanRun(s, t) && !Registering(s.pcs[t]) && !Unregistering(s.pcs[t])
    ensures Inv(RunThread(s, t))
  {
    var s' := RunThread(s, t);
    assert s'.pcs == s.pcs[t := s'.pcs[t]];
    BalancedKeepsAccounts(s.sh, s.pcs, s.main, t, s.sh, s'.pcs[t]);
    OneTokenAfter(s.sh, s.pcs, s.main, t, s.sh, s'.pcs[t]);
    MoveKeepsEntries(s, t, s');
  }

  lemma AcceptKeepsInv(s: State, fd: int)
    requires Inv(s) && Enabled(s, Accept(fd))
    ensures Inv(Apply(s, Accept(fd)))
  {
    var s' := Apply(s, Accept(fd));
    SumSnoc(s.pcs, At(WANT_SLOT), Locks);
    SumSnoc(s.pcs, At(WANT_SLOT), Reserves);
    SumSnoc(s.pcs, At(WANT_SLOT), Owns);
    SumSnoc(s.pcs, At(WANT_SLOT), Freed);
    SumSnoc(s.pcs, At(WANT_SLOT), Unannounced);
    SumSnoc(s.pcs, At(WANT_SLOT), Took);
    SumSnoc(s.pcs, At(WANT_SLOT), Counted);
    SumSnoc(s.pcs, At(WANT_SLOT), Admitted);
    forall j | 0 <= j < |s.sh.fds| && s.sh.fds[j] != -1
      ensures exists u :: OwnedBy(s', j, u)
    {
      var u :| OwnedBy(s, j, u);
      assert OwnedBy(s', j, u);
    }
  }

  /** A step that moves no service thread and writes no entry. */
  lemma SameEntries(s: State, s': State)
    requires |s.pcs| == |s.conns| == |s'.conns| && Entries(s)
    requires s'.pcs == s.pcs && s'.sh.fds == s.sh.fds
    requires forall t :: 0 <= t < |s.pcs| ==> s'.conns[t].fd == s.conns[t].fd
    ensures Entries(s')
  {
    forall j | 0 <= j < |s.sh.fds| && s.sh.fds[j] != -1
      ensures exists u :: OwnedBy(s', j, u)
    {
      var u :| OwnedBy(s, j, u);
      assert OwnedBy(s', j, u);
    }
  }

  lemma MainKeepsInv(s: State)
    requires Inv(s) && CanRunMain(s)
    ensures Inv(RunTerminator(s))
  {
    SameEntries(s, RunTerminator(s));
  }

  lemma ApplyKeepsInv(s: State, a: Action)
    requires Inv(s) && Enabled(s, a)
    ensures Inv(Apply(s, a))
  {
    match a
    case Accept(fd) => AcceptKeepsInv(s, fd);
    case Deliver(t) => SameEntries(s, Apply(s, a));
    case HangUp(t, left) => SameEntries(s, Apply(s, a));
    case Run(t) =>
      if Registering(s.pcs[t]) {
        RegisterKeepsInv(s, t);
      } else if Unregistering(s.pcs[t]) {
        UnregisterKeepsInv(s, t);
      } else {
        ServeKeepsInv(s, t);
      }
    case Signal => SameEntries(s, Apply(s, a));
    case RunMain => MainKeepsInv(s);
  }

  /** Main result: the accounting holds after any list of actions by any number of threads. */
  lemma {:induction false} AlwaysInv(s: State, run: seq<Action>)
    requires Inv(s) && Possible(s, run)
    ensures Inv(After(s, run))
    decreases |run|
  {
    if run != [] {
      ApplyKeepsInv(s, run[0]);
      AlwaysInv(Apply(s, run[0]), run[1..]);
    }
  }
}
