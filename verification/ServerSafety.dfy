/** What every run of the whole server keeps, and how it ends. */
module ServerSafety {
  import opened Accounts
  import opened Market
  import opened Ledger
  import opened MarketLaws
  import opened Guarantees
  import opened Tape
  import opened Service
  import opened Server
  import opened Sums
  import opened RegistryProtocol
  import opened RegistryInvariant
  import opened RegistryTermination
  import opened RegistryShutdown

  // ---- Every step keeps the invariant ----

  lemma SettleKeepsSessions(ts: Traders, buyer: nat, seller: nat, quantity: u32, price: u32, maxPrice: u32,
                            buyGone: bool, sellGone: bool)
    requires Live(ts, buyer) && Live(ts, seller) && price <= maxPrice
    requires var same := If(buyer == seller, 1); Acct(ts, buyer).ref > 1 + same && Acct(ts, seller).ref > 1 + same
    ensures SameSessions(ts, Settle(ts, buyer, seller, quantity, price, maxPrice, buyGone, sellGone))
  {
    PaymentsKeep(ts, buyer, seller, quantity, price, maxPrice);
  }

  lemma TradeKeepsSessions(b: Bourse, i: nat, j: nat)
    requires Sound(b) && Matches(b, i, j)
    ensures SameSessions(b.ts, Trade(b, i, j).ts)
  {
    hide Even, SameSessions, Settle, Fill;
    PairHoldsRefs(b, i, j);
    var buy, sell := b.buys[i], b.sells[j];
    var price := Clamp(b.last, sell.price, buy.price);
    var q := Min(buy.quantity, sell.quantity);
    SettleKeepsSessions(b.ts, buy.trader, sell.trader, q, price, buy.price, q == buy.quantity, q == sell.quantity);
  }

  lemma MatchSafe(s: System, i: nat, j: nat, first: u32)
    requires Safe(s, first) && Matches(s.b, i, j)
    ensures Safe(Next(s, Match(i, j)), first)
  {
    hide Even, Truthful, SameSessions, Accounting, OneToken, Entries, Trade;
    TradeSound(s.b, i, j);
    TradeTruthful(s.b, i, j, first);
    TradeKeepsSessions(s.b, i, j);
    SessionsStay(s.b, Trade(s.b, i, j), s.who, s.reg, s.reg);
  }

  /** What any action but an accept does to the threads that are in session. */
  lemma InSessionMoves(s: State, a: Action)
    requires Inv(s) && Enabled(s, a) && !a.Accept?
    ensures var s' := Apply(s, a);
      && |s'.pcs| == |s.pcs|
      && forall t :: 0 <= t < |s.pcs| ==>
           && s'.conns[t].fd == s.conns[t].fd
           && (InSession(s.pcs[t]) && !(Leaves(s, a) && t == a.t) ==> InSession(s'.pcs[t]))
           && (Leaves(s, a) && t != a.t ==> s'.pcs[t] == s.pcs[t])
  {
    hide Accounting, OneToken, Entries;
    if a.Run? {
      MoveForward(s, a.t);
    }
  }

  /** A packet is handled for thread t. */
  lemma ReceiveSafe(s: System, a: Action, r: Request, first: u32)
    requires Safe(s, first) && Enabled(s.reg, a) && Receives(s.reg, a)
    ensures Safe(Next(s, Threads(a, r)), first)
  {
    hide Sound, Truthful, SameSessions, Accounting, OneToken, Entries, HandleLoggedIn, LogIn;
    var t, fd, reg' := a.t, s.reg.conns[a.t].fd, Apply(s.reg, a);
    var k := s.who[t];
    DescriptorsAreValid(s.reg, t);
    ApplyKeepsInv(s.reg, a);
    InSessionMoves(s.reg, a);
    HandleSound(s.b, k, fd, r);
    HandleTruthful(s.b, k, fd, r, first);
    var o := Handle(s.b, k, fd, r);
    SameSessionsAgain(s.b.ts);
    SameSessionsAgain(o.b.ts);
    if k == -1 && r.LoginPacket? {
      LoginSessions(s, first, t, r.payload);
      SessionsStay(o.b, o.b, s.who[t := o.who], s.reg, reg');
    } else {
      if k != -1 { LoggedInSessions(s.b, k, r); }
      HandleKeepsTrader(s.b, k, fd, r);
      assert s.who[t := k] == s.who;
      SessionsStay(s.b, o.b, s.who, s.reg, reg');
    }
  }

  lemma HandleKeepsTrader(b: Bourse, who: int, fd: int, r: Request)
    requires who == -1 || Live(b.ts, who)
    requires who == -1 ==> !r.LoginPacket?
    ensures Handle(b, who, fd, r).who == who
    ensures who == -1 ==> Handle(b, who, fd, r).b == b
    ensures who != -1 ==> Handle(b, who, fd, r) == HandleLoggedIn(b, who, r)
  {
  }

  lemma DescriptorsAreValid(s: State, t: nat)
    requires Inv(s) && t < |s.pcs|
    ensures 0 <= s.conns[t].fd
  {
  }

  /** The service loop of thread t has ended and its trader, if any, is logged out. */
  lemma LeaveSafe(s: System, a: Action, r: Request, first: u32)
    requires Safe(s, first) && Enabled(s.reg, a) && Leaves(s.reg, a) && s.who[a.t] != -1
    ensures Safe(Next(s, Threads(a, r)), first)
  {
    hide Sound, Truthful, Accounting, OneToken, LogOut, Handle;
    ApplyKeepsInv(s.reg, a);
    InSessionMoves(s.reg, a);
    LogOutSessions(s, first, a.t, Apply(s.reg, a));
    LogOutSafe(s.b, s.who[a.t], first);
  }

  lemma LogOutSafe(b: Bourse, k: nat, first: u32)
    requires Sound(b) && Truthful(b, first) && Live(b.ts, k) && Acct(b.ts, k).fd != -1
    ensures Sound(LogOut(b, k)) && Truthful(LogOut(b, k), first)
  {
    hide Sound, Truthful, Logout;
    LogOutSound(b, k);
    PlainTruthful(b, LogOut(b, k), LoggedOut(k), first);
  }

  /** Every other action of threads, clients and main leaves exchange and sessions alone. */
  lemma QuietSafe(s: System, a: Action, r: Request, first: u32)
    requires Safe(s, first) && Enabled(s.reg, a)
    requires !Receives(s.reg, a) && !(Leaves(s.reg, a) && s.who[a.t] != -1)
    ensures Safe(Next(s, Threads(a, r)), first)
  {
    hide Sound, Truthful, SameSessions, Accounting, OneToken, Entries, LogOut, Handle;
    ApplyKeepsInv(s.reg, a);
    if a.Accept? {
      AcceptSessions(s.b, s.who, s.reg, a.fd);
    } else {
      InSessionMoves(s.reg, a);
      SameSessionsAgain(s.b.ts);
      SessionsStay(s.b, s.b, s.who, s.reg, Apply(s.reg, a));
    }
  }

  lemma StepSafe(s: System, step: Step, first: u32)
    requires Safe(s, first) && Ready(s, step)
    ensures Safe(Next(s, step), first)
  {
    hide Sound, Truthful, Inv, Apply, LogOut, Handle;
    match step
    case Match(i, j) => MatchSafe(s, i, j, first);
    case Threads(a, r) =>
      if Receives(s.reg, a) {
        ReceiveSafe(s, a, r, first);
      } else if Leaves(s.reg, a) && s.who[a.t] != -1 {
        LeaveSafe(s, a, r, first);
      } else {
        QuietSafe(s, a, r, first);
      }
  }

  // ---- Runs ----

  ghost predicate Runs(s: System, run: seq<Step>)
    requires |s.who| == |s.reg.pcs| == |s.reg.conns|
    decreases |run|
  {
    run == [] || (Ready(s, run[0]) && Runs(Next(s, run[0]), run[1..]))
  }

  ghost function End(s: System, run: seq<Step>): (e: System)
    requires |s.who| == |s.reg.pcs| == |s.reg.conns| && Runs(s, run)
    ensures |e.who| == |e.reg.pcs| == |e.reg.conns|
    decreases |run|
  {
    if run == [] then s else End(Next(s, run[0]), run[1..])
  }

  lemma {:induction false} RunSafe(s: System, run: seq<Step>, first: u32)
    requires Safe(s, first) && Runs(s, run)
    ensures Safe(End(s, run), first)
    decreases |run|
  {
    hide Sound, Truthful, Inv, Next, Ready;
    if run != [] {
      StepSafe(s, run[0], first);
      RunSafe(Next(s, run[0]), run[1..], first);
    }
  }

  /** Main result: after any interleaving of any number of clients with the matchmaker and the
      terminating thread, every trader that is logged in has the descriptor of exactly one service
      thread, which is open and in the registry; descriptors of different traders differ; and so do
      the entries of the registry. */
  lemma SessionSafety(n: nat, first: u32, run: seq<Step>, k: nat) returns (t: nat)
    requires Runs(Start(n, first), run)
    requires var s := End(Start(n, first), run); Live(s.b.ts, k) && Acct(s.b.ts, k).fd != -1
    ensures var s := End(Start(n, first), run);
      && t < |s.who| && s.who[t] == k && (forall u :: 0 <= u < |s.who| && s.who[u] == k ==> u == t)
      && IsOpen(s.reg.pcs[t]) && Acct(s.b.ts, k).fd == s.reg.conns[t].fd && s.reg.conns[t].fd in s.reg.sh.fds
  {
    hide Sound, Truthful, Accounting, OneToken;
    StartSafe(n, first);
    RunSafe(Start(n, first), run, first);
    var s := End(Start(n, first), run);
    t :| SessionOfThread(s.b, s.who, k, t);
    forall u | 0 <= u < |s.who| && s.who[u] == k
      ensures u == t
    {
      if u != t { OwnTrader(s, first, t, u); }
    }
  }

  lemma DistinctDescriptors(n: nat, first: u32, run: seq<Step>, k: nat, m: nat)
    requires Runs(Start(n, first), run) && k != m
    requires var ts := End(Start(n, first), run).b.ts; Live(ts, k) && Live(ts, m) && Acct(ts, k).fd != -1
    ensures var ts := End(Start(n, first), run).b.ts; Acct(ts, k).fd != Acct(ts, m).fd
  {
    hide Sound, Truthful, Accounting, OneToken;
    StartSafe(n, first);
    RunSafe(Start(n, first), run, first);
    var s := End(Start(n, first), run);
    if Acct(s.b.ts, m).fd != -1 {
      var t := SessionSafety(n, first, run, k);
      var u := SessionSafety(n, first, run, m);
    }
  }

  /** In every run no descriptor has two entries in the registry. */
  lemma DistinctEntries(n: nat, first: u32, run: seq<Step>)
    requires Runs(Start(n, first), run)
    ensures var fds := End(Start(n, first), run).reg.sh.fds;
      forall i, j :: 0 <= i < j < |fds| && fds[i] != -1 ==> fds[i] != fds[j]
  {
    hide Sound, Truthful, Accounting, OneToken, Runs, End;
    StartSafe(n, first);
    RunSafe(Start(n, first), run, first);
  }

  /** Main result: when the wait for an empty registry is over, no trader is logged in. */
  lemma NobodyLoggedIn(n: nat, first: u32, run: seq<Step>, k: nat)
    requires Runs(Start(n, first), run) && End(Start(n, first), run).reg.main.Passed?
    requires Live(End(Start(n, first), run).b.ts, k)
    ensures Acct(End(Start(n, first), run).b.ts, k).fd == -1
  {
    hide Sound, Truthful, Accounting, OneToken, Entries;
    StartSafe(n, first);
    RunSafe(Start(n, first), run, first);
    var s := End(Start(n, first), run);
    if Acct(s.b.ts, k).fd != -1 {
      var t := SessionSafety(n, first, run, k);
      NoneAdmitted(s.reg);
    }
  }

  /** Main result: in every run of the whole server funds and units are conserved, and no account
      has wrapped as long as net deposits and net escrows fit in 32 bits. */
  lemma EveryRunConserves(n: nat, first: u32, run: seq<Step>)
    requires Runs(Start(n, first), run)
    ensures var b := End(Start(n, first), run).b;
      && (Sum(b.journal, FundsIn) < 0x1_0000_0000 ==>
            && NoBalanceWrapped(b.ts)
            && Sum(b.ts.slots, Balance) + Sum(b.buys, Encumbered) == Sum(b.journal, FundsIn))
      && (Sum(b.journal, GoodsIn) < 0x1_0000_0000 ==>
            && NoInventoryWrapped(b.ts)
            && Sum(b.ts.slots, Inventory) + Sum(b.sells, Quantity) == Sum(b.journal, GoodsIn))
  {
    hide Sound, Truthful, Inv, Runs, End;
    StartSafe(n, first);
    RunSafe(Start(n, first), run, first);
    var b := End(Start(n, first), run).b;
    NoWraparound(b);
    ConservedExactly(b);
  }

  /** Main result: in every run each trade goes back to one posting per side, the only one with its
      number, made before it by that trader with that limit; and its price is the allowed one closest
      to the last price. */
  lemma EveryTradeIsTraceable(n: nat, first: u32, run: seq<Step>, p: nat) returns (buy: nat, sell: nat)
    requires Runs(Start(n, first), run)
    requires var j := End(Start(n, first), run).b.journal; p < |j| && j[p].Traded?
    ensures var j := End(Start(n, first), run).b.journal;
      && PostedAt(j[..p], buy, Buy, j[p].buyId, j[p].buyer, j[p].maxPrice)
      && PostedAt(j[..p], sell, Sell, j[p].sellId, j[p].seller, j[p].minPrice)
      && (forall q :: 0 <= q < |j| && j[q].Posted? && j[q].id == j[p].buyId ==> q == buy)
      && (forall q :: 0 <= q < |j| && j[q].Posted? && j[q].id == j[p].sellId ==> q == sell)
      && Closest(j[p].price, LastPrice(j[..p], first), j[p].minPrice, j[p].maxPrice)
  {
    hide Sound, Inv, Runs, End, Closest, LastPrice, Alternates, AllAnnounced;
    StartSafe(n, first);
    RunSafe(Start(n, first), run, first);
    var j := End(Start(n, first), run).b.journal;
    assert GoodTrade(j[..p], j[p], first);
    buy :| PostedAt(j[..p], buy, Buy, j[p].buyId, j[p].buyer, j[p].maxPrice);
    sell :| PostedAt(j[..p], sell, Sell, j[p].sellId, j[p].seller, j[p].minPrice);
  }

  /** Whatever a thread sends while it handles a packet goes to its own client, at most once. */
  lemma AnsweredToSender(s: System, a: Action, r: Request, first: u32)
    requires Safe(s, first) && Enabled(s.reg, a) && Receives(s.reg, a)
    ensures var fd, o := s.reg.conns[a.t].fd, Handle(s.b, s.who[a.t], s.reg.conns[a.t].fd, r);
      |o.replies| <= 1 && forall i :: 0 <= i < |o.replies| ==> o.replies[i].fd == fd
  {
    hide Sound, Truthful, Accounting, OneToken, HandleLoggedIn, LogIn;
    var k, fd := s.who[a.t], s.reg.conns[a.t].fd;
    if k == -1 && r.LoginPacket? {
      DescriptorsAreValid(s.reg, a.t);
      LoginAnswer(s.b, fd, r.payload);
    } else if k != -1 {
      if r.OtherPacket? { OtherIgnored(s.b, k); } else { OneAnswer(s.b, k, fd, r); }
    }
  }

  // ---- The end of the server ----

  /** What the registry sees of a run. */
  function Actions(run: seq<Step>): seq<Action>
    decreases |run|
  {
    if run == [] then []
    else (if run[0].Threads? then [run[0].a] else []) + Actions(run[1..])
  }

  /** A run of the server is a run of the registry protocol with matches in between. */
  lemma {:induction false} RunProjects(s: System, run: seq<Step>, first: u32)
    requires Safe(s, first) && Runs(s, run)
    ensures Possible(s.reg, Actions(run)) && RegistryProtocol.After(s.reg, Actions(run)) == End(s, run).reg
    decreases |run|
  {
    hide Sound, Truthful, Inv;
    if run != [] {
      StepSafe(s, run[0], first);
      RunProjects(Next(s, run[0]), run[1..], first);
      if run[0].Threads? {
        assert Actions(run)[1..] == Actions(run[1..]);
      } else {
        assert Actions(run) == Actions(run[1..]);
      }
    }
  }

  function Orders(b: Bourse): nat
  {
    |b.buys| + |b.sells|
  }

  /** One packet adds at most one order. */
  lemma HandleOrders(b: Bourse, who: int, fd: int, r: Request)
    requires who == -1 || Live(b.ts, who)
    ensures Orders(Handle(b, who, fd, r).b) <= Orders(b) + 1
  {
  }

  /** What is left to do for threads, terminator and matchmaker together. */
  ghost function WorkLeft(s: System): int
  {
    2 * Measure(s.reg) + Orders(s.b)
  }

  lemma DrainingStep(s: System, step: Step, first: u32)
    requires Safe(s, first) && Ready(s, step) && Draining(s.reg)
    requires step.Threads? ==> !step.a.Accept?
    ensures Draining(Next(s, step).reg) && WorkLeft(Next(s, step)) < WorkLeft(s)
  {
    hide Truthful, Even, Draining, Measure, Handle, LogOut;
    match step
    case Match(i, j) => TradeShrinks(s.b, i, j);
    case Threads(a, r) =>
      DrainStep(s.reg, a);
      if Receives(s.reg, a) { HandleOrders(s.b, s.who[a.t], s.reg.conns[a.t].fd, r); }
      if Leaves(s.reg, a) && s.who[a.t] != -1 { LogOutOrders(s.b, s.who[a.t]); }
  }

  lemma LogOutOrders(b: Bourse, k: nat)
    requires Live(b.ts, k)
    ensures Orders(LogOut(b, k)) == Orders(b)
  {
  }

  ghost predicate NoNewClient(run: seq<Step>)
  {
    forall i :: 0 <= i < |run| && run[i].Threads? ==> !run[i].a.Accept?
  }

  /** Main result: once the sweep is over, no run of the whole server, matchmaker included, is longer
      than the work that was left. */
  lemma {:induction false} ServerDrains(s: System, run: seq<Step>, first: u32)
    requires Safe(s, first) && Runs(s, run) && Draining(s.reg) && NoNewClient(run)
    ensures |run| <= WorkLeft(s)
    decreases |run|
  {
    hide Sound, Truthful, Inv, Draining, Measure, Next, Ready;
    if run == [] {
      MeasureNonNeg(s.reg);
    } else {
      DrainingStep(s, run[0], first);
      StepSafe(s, run[0], first);
      ServerDrains(Next(s, run[0]), run[1..], first);
    }
  }

  lemma {:induction false} ActionsAccept(run: seq<Step>)
    requires NoNewClient(run)
    ensures NoAccept(Actions(run))
    decreases |run|
  {
    if run != [] {
      ActionsAccept(run[1..]);
    }
  }

  function IsMainStep(step: Step): int
  {
    if step.Threads? then IsMain(step.a) else 0
  }

  lemma {:induction false} MainSteps(run: seq<Step>)
    ensures Sum(Actions(run), IsMain) == Sum(run, IsMainStep)
    decreases |run|
  {
    if run != [] {
      MainSteps(run[1..]);
      if run[0].Threads? {
        assert Actions(run)[1..] == Actions(run[1..]);
      } else {
        assert Actions(run) == Actions(run[1..]);
      }
    }
  }

  lemma {:induction false} RunsInParts(s: System, run: seq<Step>, rest: seq<Step>)
    requires |s.who| == |s.reg.pcs| == |s.reg.conns|
    ensures Runs(s, run + rest) <==> Runs(s, run) && Runs(End(s, run), rest)
    ensures Runs(s, run + rest) ==> End(s, run + rest) == End(End(s, run), rest)
    decreases |run|
  {
    hide Next, Ready;
    if run == [] {
      assert run + rest == rest;
    } else {
      assert (run + rest)[1..] == run[1..] + rest;
      if Ready(s, run[0]) {
        RunsInParts(Next(s, run[0]), run[1..], rest);
      }
    }
  }

  /** Where the server is after part of a shutdown: still sweeping, or draining. */
  lemma ServerProgress(s: System, run: seq<Step>, first: u32)
    requires Safe(s, first) && s.reg.main == Sweep(0) && AllRegistered(s.reg) && Runs(s, run) && NoNewClient(run)
    ensures var e := End(s, run).reg;
      || Draining(e)
      || (Sweeping(e) && |e.sh.fds| == |s.reg.sh.fds| && e.main.next == Sum(run, IsMainStep) <= |s.reg.sh.fds|)
  {
    hide Sound, Truthful, Accounting, OneToken, Entries, Draining, Reached;
    RunProjects(s, run, first);
    ActionsAccept(run);
    MainSteps(run);
    SweepingAtStart(s.reg);
    SweepProgress(s.reg, Actions(run));
  }

  /** Main result: from a sweep that finds every connection registered or ended, with no client after
      it, the run of the whole server is bounded once the terminator has executed n + 1 statements. */
  lemma ServerIsBounded(s: System, run: seq<Step>, rest: seq<Step>, first: u32)
    requires Safe(s, first) && s.reg.main == Sweep(0) && AllRegistered(s.reg)
    requires Runs(s, run + rest) && NoNewClient(run + rest) && |s.reg.sh.fds| < Sum(run, IsMainStep)
    ensures Runs(s, run) && |rest| <= WorkLeft(End(s, run))
  {
    hide Sound, Truthful, Inv, Draining, Sweeping, AllRegistered, Measure;
    RunsInParts(s, run, rest);
    assert forall i :: 0 <= i < |run| ==> (run + rest)[i] == run[i];
    assert forall i :: 0 <= i < |rest| ==> (run + rest)[|run| + i] == rest[i];
    RunSafe(s, run, first);
    ServerProgress(s, run, first);
    ServerDrains(End(s, run), rest, first);
  }

  /** Main result: in the same situation a run of the whole server that cannot be continued has let the
      waiter pass, and every trader is out. */
  lemma ServerEnds(s: System, run: seq<Step>, first: u32, k: nat)
    requires Safe(s, first) && s.reg.main == Sweep(0) && AllRegistered(s.reg)
    requires Runs(s, run) && NoNewClient(run) && Stuck(End(s, run).reg)
    requires Live(End(s, run).b.ts, k)
    ensures End(s, run).reg.main.Passed? && Acct(End(s, run).b.ts, k).fd == -1
  {
    hide Sound, Truthful, Accounting, OneToken, Entries, Stuck, AllRegistered;
    RunSafe(s, run, first);
    RunProjects(s, run, first);
    ActionsAccept(run);
    ShutdownTerminates(s.reg, Actions(run));
    var e := End(s, run);
    if Acct(e.b.ts, k).fd != -1 {
      var t :| SessionOfThread(e.b, e.who, k, t);
      NoneAdmitted(e.reg);
    }
  }

  // ---- Endless runs of the server ----

  /** Every finite part of the infinite list of steps is a run. */
  ghost predicate EndlessServer(s: System, run: nat -> Step)
    requires |s.who| == |s.reg.pcs| == |s.reg.conns|
  {
    forall k: nat :: Runs(s, Prefix(run, k))
  }

  ghost function ServerAt(s: System, run: nat -> Step, k: nat): (e: System)
    requires |s.who| == |s.reg.pcs| == |s.reg.conns| && EndlessServer(s, run)
    ensures |e.who| == |e.reg.pcs| == |e.reg.conns|
  {
    End(s, Prefix(run, k))
  }

  lemma EndlessServerSweeps(s: System, run: nat -> Step, first: u32, k: nat)
    requires Safe(s, first) && s.reg.main == Sweep(0) && AllRegistered(s.reg) && EndlessServer(s, run)
    requires forall j: nat :: run(j).Threads? ==> !run(j).a.Accept?
    ensures CanRunMain(ServerAt(s, run, k).reg) && Sum(Prefix(run, k), IsMainStep) <= |s.reg.sh.fds|
  {
    hide Sound, Truthful, Inv, Draining, Reached, AllRegistered, Measure, Runs, End;
    ServerProgress(s, Prefix(run, k), first);
    var e := ServerAt(s, run, k);
    if Draining(e.reg) {
      RunSafe(s, Prefix(run, k), first);
      MeasureNonNeg(e.reg);
      var m := k + WorkLeft(e) + 1;
      var rest := Prefix(run, m)[k..];
      assert Prefix(run, m) == Prefix(run, k) + rest;
      assert Runs(s, Prefix(run, m));
      RunsInParts(s, Prefix(run, k), rest);
      ServerDrains(e, rest, first);
    }
  }

  /** Main result: an endless run of the whole server in that situation, matchmaker included, is one in
      which from some point on the terminator could always execute a statement and never does. */
  lemma EndlessServerIsStarved(s: System, run: nat -> Step, first: u32) returns (k: nat)
    requires Safe(s, first) && s.reg.main == Sweep(0) && AllRegistered(s.reg) && EndlessServer(s, run)
    requires forall j: nat :: run(j).Threads? ==> !run(j).a.Accept?
    ensures forall j: nat :: k <= j ==> CanRunMain(ServerAt(s, run, j).reg) && IsMainStep(run(j)) == 0
  {
    hide Sound, Truthful, Inv, AllRegistered, EndlessServer, ServerAt;
    k := LastMainStep(s, run, first, 0);
    forall j: nat | k <= j
      ensures CanRunMain(ServerAt(s, run, j).reg)
    {
      EndlessServerSweeps(s, run, first, j);
    }
  }

  lemma {:induction false} LastMainStep(s: System, run: nat -> Step, first: u32, from: nat) returns (k: nat)
    requires Safe(s, first) && s.reg.main == Sweep(0) && AllRegistered(s.reg) && EndlessServer(s, run)
    requires forall j: nat :: run(j).Threads? ==> !run(j).a.Accept?
    ensures forall j: nat :: k <= j ==> IsMainStep(run(j)) == 0
    decreases |s.reg.sh.fds| + 1 - Sum(Prefix(run, from), IsMainStep)
  {
    hide Sound, Truthful, Inv, AllRegistered, EndlessServer, ServerAt;
    if exists j: nat :: from <= j && IsMainStep(run(j)) != 0 {
      var j: nat :| from <= j && IsMainStep(run(j)) != 0;
      EndlessServerSweeps(s, run, first, from);
      EndlessServerSweeps(s, run, first, j + 1);
      var between := Prefix(run, j)[from..];
      assert Prefix(run, j) == Prefix(run, from) + between;
      SumConcat(Prefix(run, from), between, IsMainStep);
      SumNonNeg(between, IsMainStep);
      assert Prefix(run, j + 1) == Prefix(run, j) + [run(j)];
      SumSnoc(Prefix(run, j), run(j), IsMainStep);
      k := LastMainStep(s, run, first, j + 1);
    } else {
      k := from;
    }
  }
}
