/** The whole server: registry protocol, service threads with their sessions, exchange and
    matchmaker, over all interleavings of their steps. */
module Server {
  import opened Accounts
  import opened Market
  import opened Ledger
  import opened MarketLaws
  import opened Tape
  import opened Service
  import opened Sums
  import opened RegistryProtocol
  import opened RegistryInvariant

  /** `who[t]` is `this_trader` of service thread t, -1 for NULL. */
  datatype System = System(reg: State, b: Bourse, who: seq<int>)

  datatype Step =
    | Threads(a: Action, request: Request)  // the request matters when a thread receives a packet
    | Match(i: nat, j: nat)                 // the matchmaker trades buy i with sell j

  ghost predicate Ready(s: System, step: Step)
    requires |s.reg.pcs| == |s.reg.conns|
  {
    match step
    case Threads(a, _) => Enabled(s.reg, a)
    case Match(i, j) => Matches(s.b, i, j)
  }

  predicate Receives(s: State, a: Action)
    requires |s.pcs| == |s.conns|
  {
    a.Run? && a.t < |s.pcs| && s.pcs[a.t].at == SERVE && s.conns[a.t].inbox > 0
  }

  predicate Leaves(s: State, a: Action)
  {
    a.Run? && a.t < |s.pcs| && s.pcs[a.t].at == LOG_OUT
  }

  /** The effect of a thread's action on the exchange and on the thread's own trader. */
  function Effect(b: Bourse, who: seq<int>, s: State, a: Action, r: Request): (Bourse, seq<int>)
    requires |who| == |s.pcs| == |s.conns|
  {
    if a.Accept? then (b, who + [-1])
    else if Receives(s, a) && (who[a.t] == -1 || Live(b.ts, who[a.t])) then
      var o := Handle(b, who[a.t], s.conns[a.t].fd, r);
      (o.b, who[a.t := o.who])
    else if Leaves(s, a) && Live(b.ts, who[a.t]) then (LogOut(b, who[a.t]), who[a.t := -1])
    else (b, who)
  }

  ghost function Next(s: System, step: Step): (s': System)
    requires |s.who| == |s.reg.pcs| == |s.reg.conns| && Ready(s, step)
    ensures |s'.who| == |s'.reg.pcs| == |s'.reg.conns|
  {
    match step
    case Threads(a, r) =>
      var (b, who) := Effect(s.b, s.who, s.reg, a, r);
      System(Apply(s.reg, a), b, who)
    case Match(i, j) =>
      if Live(s.b.ts, s.b.buys[i].trader) && Live(s.b.ts, s.b.sells[j].trader) then s.(b := Trade(s.b, i, j)) else s
  }

  function Start(n: nat, first: u32): System
  {
    System(Init(n), Opening(first), [])
  }

  // ---- Sessions ----

  ghost predicate InSession(pc: Pc)
  {
    pc.at == SERVE || pc.at == LOG_OUT
  }

  ghost predicate SessionOfThread(b: Bourse, who: seq<int>, k: nat, t: nat)
  {
    t < |who| && who[t] == k
  }

  /** Sessions of traders and logged-in threads correspond, by descriptor. */
  ghost predicate Sessions(b: Bourse, who: seq<int>, s: State)
  {
    && |who| == |s.pcs| == |s.conns|
    && (forall t :: 0 <= t < |who| && who[t] != -1 ==>
         Live(b.ts, who[t]) && Acct(b.ts, who[t]).fd == s.conns[t].fd && InSession(s.pcs[t]))
    && (forall k :: Live(b.ts, k) && Acct(b.ts, k).fd != -1 ==> exists t :: SessionOfThread(b, who, k, t))
  }

  ghost predicate Safe(s: System, first: u32)
  {
    Inv(s.reg) && Sound(s.b) && Truthful(s.b, first) && Sessions(s.b, s.who, s.reg)
  }

  lemma StartSafe(n: nat, first: u32)
    ensures Safe(Start(n, first), first)
  {
    hide Sound, Truthful;
    InitInv(n);
    OpeningSound(first);
    OpeningTruthful(first);
  }

  /** The trader of a thread is the trader of no other thread. */
  lemma OwnTrader(s: System, first: u32, t: nat, u: nat)
    requires Safe(s, first) && t < |s.who| && u < |s.who| && t != u && s.who[t] != -1
    ensures s.who[u] != s.who[t]
  {
    hide Sound, Truthful, Accounting, OneToken;
  }

  /** Same sessions in the exchange, same traders for the threads, threads in session stay there. */
  lemma SessionsStay(b: Bourse, b': Bourse, who: seq<int>, s: State, s': State)
    requires Sessions(b, who, s) && SameSessions(b.ts, b'.ts)
    requires |s'.pcs| == |s.pcs| && |s'.conns| == |s.conns|
    requires forall t :: 0 <= t < |who| ==> s'.conns[t].fd == s.conns[t].fd
    requires forall t :: 0 <= t < |who| && who[t] != -1 ==> InSession(s'.pcs[t])
    ensures Sessions(b', who, s')
  {
    forall k | Live(b'.ts, k) && Acct(b'.ts, k).fd != -1
      ensures exists t :: SessionOfThread(b', who, k, t)
    {
      assert Live(b.ts, k) && Acct(b.ts, k).fd != -1;
      var t :| SessionOfThread(b, who, k, t);
      assert SessionOfThread(b', who, k, t);
    }
  }

  lemma AcceptSessions(b: Bourse, who: seq<int>, s: State, fd: int)
    requires Sessions(b, who, s) && Enabled(s, Accept(fd))
    ensures Sessions(b, who + [-1], Apply(s, Accept(fd)))
  {
    forall k | Live(b.ts, k) && Acct(b.ts, k).fd != -1
      ensures exists t :: SessionOfThread(b, who + [-1], k, t)
    {
      var t :| SessionOfThread(b, who, k, t);
      assert SessionOfThread(b, who + [-1], k, t);
    }
  }

  lemma LoginSessions(s: System, first: u32, t: nat, payload: string)
    requires Safe(s, first) && t < |s.who| && s.who[t] == -1 && s.reg.pcs[t].at == SERVE
    ensures var o := Handle(s.b, -1, s.reg.conns[t].fd, LoginPacket(payload));
      Sessions(o.b, s.who[t := o.who], s.reg)
  {
    hide Truthful, Sound, Accounting, OneToken;
    var fd := s.reg.conns[t].fd;
    var o := Handle(s.b, -1, fd, LoginPacket(payload));
    LoginAnswer(s.b, fd, payload);
    var who := s.who[t := o.who];
    LoginTaken(s, first, t, payload);
    forall k | Live(o.b.ts, k) && Acct(o.b.ts, k).fd != -1
      ensures exists u :: SessionOfThread(o.b, who, k, u)
    {
      if k == o.who {
        assert SessionOfThread(o.b, who, k, t);
      } else {
        assert Live(s.b.ts, k) && Acct(s.b.ts, k).fd != -1;
        var u :| SessionOfThread(s.b, s.who, k, u);
        assert SessionOfThread(o.b, who, k, u);
      }
    }
  }

  /** A login that succeeds is for a trader that no thread has. */
  lemma LoginTaken(s: System, first: u32, t: nat, payload: string)
    requires Safe(s, first) && t < |s.who| && s.who[t] == -1 && s.reg.pcs[t].at == SERVE
    ensures var k := Handle(s.b, -1, s.reg.conns[t].fd, LoginPacket(payload)).who;
      k == -1 || forall u :: 0 <= u < |s.who| ==> s.who[u] != k
  {
    hide Truthful, Even, Accounting, OneToken;
    var fd := s.reg.conns[t].fd;
    var name := UpToNul(payload);
    if FindFirst(s.b.ts.slots, Named(name)) == -1 {
      FreshLogin(s.b.ts, fd, name);
    }
  }

  lemma LogOutSessions(s: System, first: u32, t: nat, s': State)
    requires Safe(s, first) && t < |s.who| && s.who[t] != -1
    requires |s'.pcs| == |s.reg.pcs| && |s'.conns| == |s.reg.conns|
    requires forall u :: 0 <= u < |s.who| ==>
      s'.conns[u].fd == s.reg.conns[u].fd && (u != t ==> s'.pcs[u] == s.reg.pcs[u])
    ensures Sessions(LogOut(s.b, s.who[t]), s.who[t := -1], s')
  {
    hide Truthful, Sound, Accounting, OneToken, LogOut, Logout;
    var k := s.who[t];
    LogOutMoves(s.b, k);
    var b, who := LogOut(s.b, k), s.who[t := -1];
    forall u | 0 <= u < |who| && who[u] != -1
      ensures who[u] != k
    {
      OwnTrader(s, first, t, u);
    }
    forall m | Live(b.ts, m) && Acct(b.ts, m).fd != -1
      ensures exists u :: SessionOfThread(b, who, m, u)
    {
      assert m != k && Live(s.b.ts, m) && Acct(s.b.ts, m).fd != -1;
      var u :| SessionOfThread(s.b, s.who, m, u);
      assert SessionOfThread(b, who, m, u);
    }
  }
}
