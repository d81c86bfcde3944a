/** The client registry as a step protocol: every P, V, array write and counter update of
    `creg_register`, `creg_unregister`, `creg_shutdown_all` and `creg_wait_for_empty` is one step of
    one thread, and any number of service threads interleave with one terminating thread. */
module RegistryProtocol {

  /** The position of `x` when searching from the front, or -1. */
  function Find(s: seq<int>, x: int): (i: int)
    ensures -1 <= i < |s|
    ensures i == -1 <==> x !in s
    ensures 0 <= i ==> s[i] == x && x !in s[..i]
  {
    if s == [] then -1
    else if s[0] == x then 0
    else
      var j := Find(s[1..], x);
      assert 0 <= j ==> s[..j + 1] == [s[0]] + s[1..][..j];
      if j == -1 then -1 else j + 1
  }

  /** The memory of one CLIENT_REGISTRY; -1 marks an empty entry, and |fds| is its `n`. */
  datatype Shared = Shared(
    fds: seq<int>, count: int,
    countMutex: nat, mutex: nat, items: nat, slots: nat)

  function Fresh(n: nat): Shared
  {
    Shared(seq(n, _ => -1), 0, 1, 1, 0, n)
  }

  // The statements of a service thread in the order of its life; error paths come last.
  // creg_register
  const WANT_SLOT := 0      // P(slots)
  const WANT_LOCK := 1      // P(mutex)
  const SEARCH := 2         // searchForEmptySlot
  const STORE := 3          // fds[index] = fd
  const COUNT_UP := 4       // count++
  const TEST_ONE := 5       // count == 1 ?
  const TAKE_TOKEN := 6     // P(count_mutex)
  const UNLOCK := 7         // V(mutex)
  const ANNOUNCE := 8       // V(items)
  // the service loop
  const SERVE := 9          // proto_recv_packet and dispatch
  const LOG_OUT := 10       // trader_logout, when logged in
  // creg_unregister
  const WANT_ITEM := 11     // P(items)
  const WANT_LOCK_AGAIN := 12 // P(mutex)
  const SCAN := 13          // the search for fd
  const CLEAR := 14         // fds[i] = -1
  const COUNT_DOWN := 15    // count--
  const TEST_ZERO := 16     // count == 0 ?
  const RETURN_TOKEN := 17  // V(count_mutex)
  const UNLOCK_AGAIN := 18  // V(mutex)
  const FREE_SLOT := 19     // V(slots)
  // after it
  const CLOSE := 20         // Close(connfd)
  const DONE := 21
  // creg_register found no entry and returned with the lock held
  const FULL := 22
  // creg_unregister did not find fd
  const MISS_UNLOCK := 23   // V(mutex)
  const MISS_FREE := 24     // V(slots)
  const MISSED := 25

  /** Where a service thread stands: the statement it executes next, and its local `index` or `i`. */
  datatype Pc = Pc(at: nat, index: nat)

  function At(statement: nat): Pc
  {
    Pc(statement, 0)
  }

  /** The terminating thread: accept loop, shutdown sweep over the entries, wait. */
  datatype Terminator = Accepting | SweepLock | Sweep(next: nat) | SweepUnlock | Waiting | Passed

  /** A connection: bytes are not modelled, only how many packets are still to be received and
      whether the read side has ended. */
  datatype Conn = Conn(fd: int, inbox: nat, eof: bool)

  datatype State = State(sh: Shared, pcs: seq<Pc>, conns: seq<Conn>, main: Terminator)

  /** A thread at the entry of a P whose semaphore is zero, or at its end, cannot step by itself. */
  predicate Blocked(sh: Shared, pc: Pc)
  {
    || (pc.at == WANT_SLOT && sh.slots == 0)
    || ((pc.at == WANT_LOCK || pc.at == WANT_LOCK_AGAIN) && sh.mutex == 0)
    || (pc.at == TAKE_TOKEN && sh.countMutex == 0)
    || (pc.at == WANT_ITEM && sh.items == 0)
    || pc.at == DONE || pc.at == FULL || MISSED <= pc.at
  }

  predicate Registering(pc: Pc)
  {
    WANT_SLOT <= pc.at <= ANNOUNCE
  }

  predicate Unregistering(pc: Pc)
  {
    WANT_ITEM <= pc.at <= FREE_SLOT || pc.at == MISS_UNLOCK || pc.at == MISS_FREE
  }

  /** One statement of `creg_register` on behalf of the thread serving `fd`. */
  function RegisterStep(sh: Shared, pc: Pc, fd: int): (Shared, Pc)
    requires Registering(pc) && !Blocked(sh, pc)
  {
    if pc.at == WANT_SLOT then (sh.(slots := sh.slots - 1), At(WANT_LOCK))
    else if pc.at == WANT_LOCK then (sh.(mutex := sh.mutex - 1), At(SEARCH))
    else if pc.at == SEARCH then
      var i := Find(sh.fds, -1);
      (sh, if i == -1 then At(FULL) else Pc(STORE, i))
    else if pc.at == STORE then
      (if pc.index < |sh.fds| then sh.(fds := sh.fds[pc.index := fd]) else sh, At(COUNT_UP))
    else if pc.at == COUNT_UP then (sh.(count := sh.count + 1), At(TEST_ONE))
    else if pc.at == TEST_ONE then (sh, At(if sh.count == 1 then TAKE_TOKEN else UNLOCK))
    else if pc.at == TAKE_TOKEN then (sh.(countMutex := sh.countMutex - 1), At(UNLOCK))
    else if pc.at == UNLOCK then (sh.(mutex := sh.mutex + 1), At(ANNOUNCE))
    else (sh.(items := sh.items + 1), At(SERVE))
  }

  /** One statement of `creg_unregister` on behalf of the thread serving `fd`. */
  function UnregisterStep(sh: Shared, pc: Pc, fd: int): (Shared, Pc)
    requires Unregistering(pc) && !Blocked(sh, pc)
  {
    if pc.at == WANT_ITEM then (sh.(items := sh.items - 1), At(WANT_LOCK_AGAIN))
    else if pc.at == WANT_LOCK_AGAIN then (sh.(mutex := sh.mutex - 1), At(SCAN))
    else if pc.at == SCAN then
      var i := Find(sh.fds, fd);
      (sh, if i == -1 then At(MISS_UNLOCK) else Pc(CLEAR, i))
    else if pc.at == CLEAR then
      (if pc.index < |sh.fds| then sh.(fds := sh.fds[pc.index := -1]) else sh, At(COUNT_DOWN))
    else if pc.at == COUNT_DOWN then (sh.(count := sh.count - 1), At(TEST_ZERO))
    else if pc.at == TEST_ZERO then (sh, At(if sh.count == 0 then RETURN_TOKEN else UNLOCK_AGAIN))
    else if pc.at == RETURN_TOKEN then (sh.(countMutex := sh.countMutex + 1), At(UNLOCK_AGAIN))
    else if pc.at == UNLOCK_AGAIN then (sh.(mutex := sh.mutex + 1), At(FREE_SLOT))
    else if pc.at == FREE_SLOT then (sh.(slots := sh.slots + 1), At(CLOSE))
    else if pc.at == MISS_UNLOCK then (sh.(mutex := sh.mutex + 1), At(MISS_FREE))
    else (sh.(slots := sh.slots + 1), At(MISSED))
  }

  /** A descriptor is open from `Accept` until the `Close` that ends its thread. */
  predicate IsOpen(pc: Pc)
  {
    pc.at != DONE
  }

  datatype Action =
    | Accept(fd: int)                // main starts a thread for a new connection
    | Deliver(t: nat)                // a packet of client t arrives
    | HangUp(t: nat, left: nat)      // client t closes or fails; `left` packets stay readable
    | Run(t: nat)                    // service thread t executes its next statement
    | Signal                         // SIGHUP reaches main
    | RunMain                        // the terminating thread executes its next statement

  predicate Enabled(s: State, a: Action)
    requires |s.pcs| == |s.conns|
  {
    match a
    case Accept(fd) => 0 <= fd && forall t :: 0 <= t < |s.pcs| && IsOpen(s.pcs[t]) ==> s.conns[t].fd != fd
    case Deliver(t) => t < |s.pcs| && IsOpen(s.pcs[t]) && !s.conns[t].eof
    case HangUp(t, left) => t < |s.pcs| && IsOpen(s.pcs[t]) && !s.conns[t].eof && left <= s.conns[t].inbox
    case Run(t) => t < |s.pcs| && CanRun(s, t)
    case Signal => s.main.Accepting?
    case RunMain => CanRunMain(s)
  }

  /** Thread t can execute a statement without any help from outside. */
  predicate CanRun(s: State, t: nat)
    requires t < |s.pcs| == |s.conns|
  {
    !Blocked(s.sh, s.pcs[t]) && (s.pcs[t].at == SERVE ==> s.conns[t].inbox > 0 || s.conns[t].eof)
  }

  predicate CanRunMain(s: State)
  {
    match s.main
    case SweepLock => s.sh.mutex > 0
    case Sweep(_) | SweepUnlock => true
    case Waiting => s.sh.countMutex > 0
    case Accepting | Passed => false
  }

  /** `shutdown(fd, SHUT_RD)`: ends the read side of the open connection with that descriptor. */
  function Shutdown(s: State, fd: int): (conns: seq<Conn>)
    requires |s.pcs| == |s.conns|
    ensures |conns| == |s.conns|
    ensures forall t :: 0 <= t < |conns| ==>
      conns[t] == s.conns[t].(eof := s.conns[t].eof || (IsOpen(s.pcs[t]) && s.conns[t].fd == fd))
  {
    seq(|s.conns|, t requires 0 <= t < |s.conns| =>
      s.conns[t].(eof := s.conns[t].eof || (IsOpen(s.pcs[t]) && s.conns[t].fd == fd)))
  }

  function RunThread(s: State, t: nat): State
    requires t < |s.pcs| == |s.conns| && CanRun(s, t)
  {
    var pc, conn := s.pcs[t], s.conns[t];
    if Registering(pc) then
      var (sh, next) := RegisterStep(s.sh, pc, conn.fd);
      s.(sh := sh, pcs := s.pcs[t := next])
    else if Unregistering(pc) then
      var (sh, next) := UnregisterStep(s.sh, pc, conn.fd);
      s.(sh := sh, pcs := s.pcs[t := next])
    else if pc.at == SERVE && conn.inbox > 0 then s.(conns := s.conns[t := conn.(inbox := conn.inbox - 1)])
    else if pc.at == SERVE then s.(pcs := s.pcs[t := At(LOG_OUT)])
    else if pc.at == LOG_OUT then s.(pcs := s.pcs[t := At(WANT_ITEM)])
    else s.(pcs := s.pcs[t := At(DONE)])
  }

  function RunTerminator(s: State): State
    requires |s.pcs| == |s.conns| && CanRunMain(s)
  {
    match s.main
    case SweepLock => s.(sh := s.sh.(mutex := s.sh.mutex - 1), main := Sweep(0))
    case Sweep(i) =>
      if i < |s.sh.fds| then s.(conns := Shutdown(s, s.sh.fds[i]), main := Sweep(i + 1))
      else s.(main := SweepUnlock)
    case SweepUnlock => s.(sh := s.sh.(mutex := s.sh.mutex + 1), main := Waiting)
    case Waiting => s.(sh := s.sh.(countMutex := s.sh.countMutex - 1), main := Passed)
  }

  function Apply(s: State, a: Action): (s': State)
    requires |s.pcs| == |s.conns| && Enabled(s, a)
    ensures |s'.pcs| == |s'.conns|
  {
    match a
    case Accept(fd) => s.(pcs := s.pcs + [At(WANT_SLOT)], conns := s.conns + [Conn(fd, 0, false)])
    case Deliver(t) => s.(conns := s.conns[t := s.conns[t].(inbox := s.conns[t].inbox + 1)])
    case HangUp(t, left) => s.(conns := s.conns[t := s.conns[t].(inbox := left, eof := true)])
    case Run(t) => RunThread(s, t)
    case Signal => s.(main := SweepLock)
    case RunMain => RunTerminator(s)
  }

  /** `creg_init` with `n` entries and no connection yet. */
  function Init(n: nat): State
  {
    State(Fresh(n), [], [], Accepting)
  }

  /** Every action of the list is possible when its turn comes. */
  predicate Possible(s: State, run: seq<Action>)
    requires |s.pcs| == |s.conns|
    decreases |run|
  {
    run == [] || (Enabled(s, run[0]) && Possible(Apply(s, run[0]), run[1..]))
  }

  function After(s: State, run: seq<Action>): (s': State)
    requires |s.pcs| == |s.conns| && Possible(s, run)
    ensures |s'.pcs| == |s'.conns|
    decreases |run|
  {
    if run == [] then s else After(Apply(s, run[0]), run[1..])
  }
}
