/** The CLIENT_REGISTRY structure itself: `creg_register` and `creg_unregister` as they run when no
    other thread interferes, proved to be the protocol's own steps in order. */
module ClientRegistries {
  import opened RegistryProtocol

  /** Thread `fd` runs alone from `pc` until it leaves the registry code or blocks. */
  function Alone(sh: Shared, pc: Pc, fd: int): (Shared, Pc)
    decreases MISSED - pc.at, sh, fd
  {
    if Blocked(sh, pc) then (sh, pc)
    else if Registering(pc) then
      var (sh', pc') := RegisterStep(sh, pc, fd);
      Alone(sh', pc', fd)
    else if Unregistering(pc) then
      var (sh', pc') := UnregisterStep(sh, pc, fd);
      Alone(sh', pc', fd)
    else (sh, pc)
  }

  class ClientRegistry {
    var fds: array<int>
    const n: nat
    var count: int
    var countMutex: nat
    var mutex: nat
    var items: nat
    var slots: nat

    ghost predicate Valid()
      reads this
    {
      fds.Length == n
    }

    function View(): Shared
      reads this, fds
    {
      Shared(fds[..], count, countMutex, mutex, items, slots)
    }

    /** `creg_init`; the source passes FD_SETSIZE. */
    constructor (n: nat)
      ensures Valid() && fresh(fds) && this.n == n
      ensures View() == Fresh(n)
    {
      this.n := n;
      this.count := 0;
      this.countMutex := 1;
      this.mutex := 1;
      this.slots := n;
      this.items := 0;
      fds := new int[n];
      new;
      for i := 0 to n
        invariant fds.Length == n && fresh(fds)
        invariant count == 0 && countMutex == 1 && mutex == 1 && items == 0 && slots == n
        invariant forall j :: 0 <= j < i ==> fds[j] == -1
      {
        fds[i] := -1;
      }
      assert fds[..] == Fresh(n).fds;
    }

    /** The first empty entry, or -1 exactly when there is none. */
    method SearchForEmptySlot() returns (index: int)
      requires Valid()
      ensures index == Find(fds[..], -1)
    {
      index := SearchFor(-1);
    }

    /** The scan both operations do, front to back. */
    method SearchFor(fd: int) returns (index: int)
      requires Valid()
      ensures index == Find(fds[..], fd)
    {
      for i := 0 to n
        invariant fd !in fds[..i]
      {
        if fds[i] == fd {
          FindIsFirst(fds[..], fd, i);
          return i;
        }
      }
      assert fds[..n] == fds[..];
      return -1;
    }

    /** 0 with the entry written, or -1 with `mutex` still held when no entry is empty. */
    method Register(fd: int) returns (r: int)
      requires Valid()
      requires var at := Alone(View(), At(WANT_SLOT), fd).1.at; at == SERVE || at == FULL
      modifies this, fds
      ensures Valid() && fds == old(fds)
      ensures View() == Alone(old(View()), At(WANT_SLOT), fd).0
      ensures Alone(old(View()), At(WANT_SLOT), fd).1 == At(if r == 0 then SERVE else FULL) && (r == 0 || r == -1)
    {
      RegisterAlone(View(), fd);
      slots := slots - 1;
      mutex := mutex - 1;
      var index := SearchForEmptySlot();
      if index == -1 {
        return -1;
      }
      fds[index] := fd;
      count := count + 1;
      if count == 1 {
        countMutex := countMutex - 1;
      }
      mutex := mutex + 1;
      items := items + 1;
      assert fds[..] == old(fds[..])[index := fd];
      return 0;
    }

    /** 0 with the entry cleared, or -1 when fd is not there; then `slots` is posted all the same. */
    method Unregister(fd: int) returns (r: int)
      requires Valid()
      requires var at := Alone(View(), At(WANT_ITEM), fd).1.at; at == CLOSE || at == MISSED
      modifies this, fds
      ensures Valid() && fds == old(fds)
      ensures View() == Alone(old(View()), At(WANT_ITEM), fd).0
      ensures Alone(old(View()), At(WANT_ITEM), fd).1 == At(if r == 0 then CLOSE else MISSED) && (r == 0 || r == -1)
    {
      UnregisterAlone(View(), fd);
      items := items - 1;
      mutex := mutex - 1;
      var i := SearchFor(fd);
      if i == -1 {
        mutex := mutex + 1;
        slots := slots + 1;
        return -1;
      }
      fds[i] := -1;
      count := count - 1;
      if count == 0 {
        countMutex := countMutex + 1;
      }
      mutex := mutex + 1;
      slots := slots + 1;
      assert fds[..] == old(fds[..])[i := -1];
      return 0;
    }

    /** `creg_shutdown_all` among threads at `pcs` with connections `conns`: asks for the shutdown of
        every entry in turn, empty ones (-1) included. Exactly the open connections with an entry end,
        and nothing in the registry changes. */
    method ShutdownAll(pcs: seq<Pc>, conns: seq<Conn>) returns (after: seq<Conn>)
      requires Valid() && 0 < mutex && |pcs| == |conns|
      modifies `mutex
      ensures View() == old(View()) && |after| == |conns|
      ensures forall t :: 0 <= t < |conns| ==>
        after[t] == conns[t].(eof := conns[t].eof || (IsOpen(pcs[t]) && conns[t].fd in fds[..]))
    {
      mutex := mutex - 1;
      after := conns;
      for i := 0 to n
        invariant View() == old(View()).(mutex := old(mutex) - 1) && |after| == |conns|
        invariant forall t :: 0 <= t < |conns| ==>
          after[t] == conns[t].(eof := conns[t].eof || (IsOpen(pcs[t]) && conns[t].fd in fds[..i]))
      {
        assert fds[..i + 1] == fds[..i] + [fds[i]];
        after := Shutdown(State(View(), pcs, after, Sweep(i)), fds[i]);
      }
      mutex := mutex + 1;
      assert fds[..n] == fds[..];
    }

    /** `creg_wait_for_empty`, once it no longer blocks. */
    method WaitForEmpty()
      requires Valid() && 0 < countMutex
      modifies `countMutex
      ensures View() == old(View()).(countMutex := old(countMutex) - 1)
    {
      countMutex := countMutex - 1;
    }
  }

  lemma FindIsFirst(s: seq<int>, x: int, i: nat)
    requires i < |s| && s[i] == x && x !in s[..i]
    ensures Find(s, x) == i
  {
    var j := Find(s, x);
    assert 0 <= j;
    assert j <= i by {
      assert forall k :: 0 <= k < j ==> s[..j][k] == s[k];
    }
    assert i <= j by {
      assert forall k :: 0 <= k < i ==> s[..i][k] == s[k];
    }
  }

  // The protocol's steps, run alone, in four stretches each way.

  lemma Enter(sh: Shared, fd: int)
    ensures Alone(sh, At(WANT_SLOT), fd) ==
      if sh.slots == 0 then (sh, At(WANT_SLOT))
      else if sh.mutex == 0 then (sh.(slots := sh.slots - 1), At(WANT_LOCK))
      else Alone(sh.(slots := sh.slots - 1, mutex := sh.mutex - 1), At(SEARCH), fd)
  {
    if sh.slots != 0 {
      assert Alone(sh, At(WANT_SLOT), fd) == Alone(sh.(slots := sh.slots - 1), At(WANT_LOCK), fd);
    }
  }

  lemma Place(sh: Shared, fd: int)
    ensures var i := Find(sh.fds, -1);
      Alone(sh, At(SEARCH), fd) ==
        if i == -1 then (sh, At(FULL)) else Alone(sh.(fds := sh.fds[i := fd]), At(COUNT_UP), fd)
  {
    var i := Find(sh.fds, -1);
    if i == -1 {
      assert Alone(sh, At(SEARCH), fd) == Alone(sh, At(FULL), fd);
    } else {
      assert Alone(sh, At(SEARCH), fd) == Alone(sh, Pc(STORE, i), fd);
    }
  }

  lemma Admit(sh: Shared, fd: int)
    ensures var sh' := sh.(count := sh.count + 1);
      Alone(sh, At(COUNT_UP), fd) ==
        if sh.count != 0 then Alone(sh', At(UNLOCK), fd)
        else if sh.countMutex == 0 then (sh', At(TAKE_TOKEN))
        else Alone(sh'.(countMutex := sh.countMutex - 1), At(UNLOCK), fd)
  {
    var sh' := sh.(count := sh.count + 1);
    assert Alone(sh, At(COUNT_UP), fd) == Alone(sh', At(TEST_ONE), fd);
    if sh.count == 0 {
      assert Alone(sh', At(TEST_ONE), fd) == Alone(sh', At(TAKE_TOKEN), fd);
    }
  }

  lemma Leave(sh: Shared, fd: int)
    ensures Alone(sh, At(UNLOCK), fd) == (sh.(mutex := sh.mutex + 1, items := sh.items + 1), At(SERVE))
  {
    var sh' := sh.(mutex := sh.mutex + 1);
    assert Alone(sh, At(UNLOCK), fd) == Alone(sh', At(ANNOUNCE), fd);
    assert Alone(sh', At(ANNOUNCE), fd) == Alone(sh'.(items := sh.items + 1), At(SERVE), fd);
  }

  /** The registry with one more client. */
  function Registered(sh: Shared, fd: int): Shared
    requires 0 < sh.slots && -1 in sh.fds && (sh.count == 0 ==> 0 < sh.countMutex)
  {
    sh.(fds := sh.fds[Find(sh.fds, -1) := fd], count := sh.count + 1, slots := sh.slots - 1, items := sh.items + 1,
        countMutex := if sh.count == 0 then sh.countMutex - 1 else sh.countMutex)
  }

  lemma AdmitAndLeave(sh: Shared, fd: int)
    requires sh.count == 0 ==> 0 < sh.countMutex
    ensures Alone(sh, At(COUNT_UP), fd) ==
      (sh.(count := sh.count + 1, mutex := sh.mutex + 1, items := sh.items + 1,
           countMutex := if sh.count == 0 then sh.countMutex - 1 else sh.countMutex), At(SERVE))
  {
    Admit(sh, fd);
    if sh.count == 0 {
      Leave(sh.(count := sh.count + 1, countMutex := sh.countMutex - 1), fd);
    } else {
      Leave(sh.(count := sh.count + 1), fd);
    }
  }

  lemma PlaceFound(sh: Shared, fd: int)
    requires -1 in sh.fds && (sh.count == 0 ==> 0 < sh.countMutex)
    ensures Alone(sh, At(SEARCH), fd) ==
      (Registered(sh.(slots := sh.slots + 1, mutex := sh.mutex + 1), fd), At(SERVE))
  {
    Place(sh, fd);
    AdmitAndLeave(sh.(fds := sh.fds[Find(sh.fds, -1) := fd]), fd);
  }

  lemma PlaceBlocked(sh: Shared, fd: int)
    requires -1 in sh.fds && sh.count == 0 && sh.countMutex == 0
    ensures Alone(sh, At(SEARCH), fd).1 == At(TAKE_TOKEN)
  {
    Place(sh, fd);
    Admit(sh.(fds := sh.fds[Find(sh.fds, -1) := fd]), fd);
  }

  /** Registering alone completes exactly when no P on its way would block. */
  lemma RegisterAlone(sh: Shared, fd: int)
    ensures var (sh', pc) := Alone(sh, At(WANT_SLOT), fd);
      && (pc.at == FULL ==>
            && 0 < sh.slots && 0 < sh.mutex && -1 !in sh.fds && pc == At(FULL)
            && sh' == sh.(slots := sh.slots - 1, mutex := sh.mutex - 1))
      && (pc.at == SERVE <==> 0 < sh.slots && 0 < sh.mutex && -1 in sh.fds && (sh.count == 0 ==> 0 < sh.countMutex))
      && (pc.at == SERVE ==> pc == At(SERVE) && sh' == Registered(sh, fd))
  {
    Enter(sh, fd);
    if sh.slots > 0 && sh.mutex > 0 {
      var s2 := sh.(slots := sh.slots - 1, mutex := sh.mutex - 1);
      if -1 in sh.fds && sh.count == 0 && sh.countMutex == 0 {
        PlaceBlocked(s2, fd);
      } else if -1 in sh.fds {
        PlaceFound(s2, fd);
      } else {
        Place(s2, fd);
      }
    }
  }

  lemma EnterAgain(sh: Shared, fd: int)
    ensures Alone(sh, At(WANT_ITEM), fd) ==
      if sh.items == 0 then (sh, At(WANT_ITEM))
      else if sh.mutex == 0 then (sh.(items := sh.items - 1), At(WANT_LOCK_AGAIN))
      else Alone(sh.(items := sh.items - 1, mutex := sh.mutex - 1), At(SCAN), fd)
  {
    if sh.items != 0 {
      assert Alone(sh, At(WANT_ITEM), fd) == Alone(sh.(items := sh.items - 1), At(WANT_LOCK_AGAIN), fd);
    }
  }

  lemma Withdraw(sh: Shared, fd: int)
    requires fd in sh.fds
    ensures Alone(sh, At(SCAN), fd) == Alone(sh.(fds := sh.fds[Find(sh.fds, fd) := -1]), At(COUNT_DOWN), fd)
  {
    assert Alone(sh, At(SCAN), fd) == Alone(sh, Pc(CLEAR, Find(sh.fds, fd)), fd);
  }

  lemma WithdrawMissing(sh: Shared, fd: int)
    requires fd !in sh.fds
    ensures Alone(sh, At(SCAN), fd) == (sh.(mutex := sh.mutex + 1, slots := sh.slots + 1), At(MISSED))
  {
    assert UnregisterStep(sh, At(SCAN), fd) == (sh, At(MISS_UNLOCK));
    LeaveMissing(sh, fd);
  }

  lemma LeaveMissing(sh: Shared, fd: int)
    ensures Alone(sh, At(MISS_UNLOCK), fd) == (sh.(mutex := sh.mutex + 1, slots := sh.slots + 1), At(MISSED))
  {
    var sh' := sh.(mutex := sh.mutex + 1);
    assert UnregisterStep(sh, At(MISS_UNLOCK), fd) == (sh', At(MISS_FREE));
    assert UnregisterStep(sh', At(MISS_FREE), fd) == (sh'.(slots := sh.slots + 1), At(MISSED));
    assert Alone(sh', At(MISS_FREE), fd) == (sh'.(slots := sh.slots + 1), At(MISSED));
  }

  lemma Settle(sh: Shared, fd: int)
    ensures var sh' := sh.(count := sh.count - 1);
      Alone(sh, At(COUNT_DOWN), fd) ==
        Alone(if sh.count == 1 then sh'.(countMutex := sh.countMutex + 1) else sh', At(UNLOCK_AGAIN), fd)
  {
    var sh' := sh.(count := sh.count - 1);
    assert Alone(sh, At(COUNT_DOWN), fd) == Alone(sh', At(TEST_ZERO), fd);
    if sh.count == 1 {
      assert Alone(sh', At(TEST_ZERO), fd) == Alone(sh', At(RETURN_TOKEN), fd);
    }
  }

  lemma LeaveAgain(sh: Shared, fd: int)
    ensures Alone(sh, At(UNLOCK_AGAIN), fd) == (sh.(mutex := sh.mutex + 1, slots := sh.slots + 1), At(CLOSE))
  {
    var sh' := sh.(mutex := sh.mutex + 1);
    assert Alone(sh, At(UNLOCK_AGAIN), fd) == Alone(sh', At(FREE_SLOT), fd);
    assert Alone(sh', At(FREE_SLOT), fd) == Alone(sh'.(slots := sh.slots + 1), At(CLOSE), fd);
  }

  /** The registry with one client less. */
  function Unregistered(sh: Shared, fd: int): Shared
    requires 0 < sh.items && fd in sh.fds
  {
    sh.(fds := sh.fds[Find(sh.fds, fd) := -1], count := sh.count - 1, items := sh.items - 1, slots := sh.slots + 1,
        countMutex := if sh.count == 1 then sh.countMutex + 1 else sh.countMutex)
  }

  lemma WithdrawFound(sh: Shared, fd: int)
    requires fd in sh.fds
    ensures Alone(sh, At(SCAN), fd) ==
      (Unregistered(sh.(items := sh.items + 1, mutex := sh.mutex + 1), fd), At(CLOSE))
  {
    Withdraw(sh, fd);
    var s4 := sh.(fds := sh.fds[Find(sh.fds, fd) := -1]);
    Settle(s4, fd);
    if sh.count == 1 {
      LeaveAgain(s4.(count := sh.count - 1, countMutex := sh.countMutex + 1), fd);
    } else {
      LeaveAgain(s4.(count := sh.count - 1), fd);
    }
  }

  /** Unregistering alone completes exactly when neither P blocks; a missing fd is reported, but the
      slot is posted as if an entry had been freed. */
  lemma UnregisterAlone(sh: Shared, fd: int)
    ensures var (sh', pc) := Alone(sh, At(WANT_ITEM), fd);
      && (pc.at == MISSED <==> 0 < sh.items && 0 < sh.mutex && fd !in sh.fds)
      && (pc.at == MISSED ==> pc == At(MISSED) && sh' == sh.(items := sh.items - 1, slots := sh.slots + 1))
      && (pc.at == CLOSE <==> 0 < sh.items && 0 < sh.mutex && fd in sh.fds)
      && (pc.at == CLOSE ==> pc == At(CLOSE) && sh' == Unregistered(sh, fd))
  {
    EnterAgain(sh, fd);
    if sh.items > 0 && sh.mutex > 0 {
      var s2 := sh.(items := sh.items - 1, mutex := sh.mutex - 1);
      if fd in sh.fds {
        WithdrawFound(s2, fd);
      } else {
        WithdrawMissing(s2, fd);
      }
    }
  }

  /** Unregistering undoes registering: the registry is back to what it was, token included. */
  lemma UnregisterUndoesRegister(sh: Shared, fd: int)
    requires fd != -1 && fd !in sh.fds && Alone(sh, At(WANT_SLOT), fd).1.at == SERVE
    ensures Alone(Alone(sh, At(WANT_SLOT), fd).0, At(WANT_ITEM), fd) == (sh, At(CLOSE))
  {
    RegisterAlone(sh, fd);
    var r := Registered(sh, fd);
    UnregisterAlone(r, fd);
    UndoneBy(sh, fd);
  }

  lemma UndoneBy(sh: Shared, fd: int)
    requires 0 < sh.slots && -1 in sh.fds && (sh.count == 0 ==> 0 < sh.countMutex) && fd != -1 && fd !in sh.fds
    ensures fd in Registered(sh, fd).fds && Unregistered(Registered(sh, fd), fd) == sh
  {
    var r, i := Registered(sh, fd), Find(sh.fds, -1);
    assert r.fds[i] == fd;
    FindIsFirst(r.fds, fd, i);
    assert r.fds[i := -1] == sh.fds;
  }
}
