/** The history over runs of the whole server: who may be in it when, and that it holds exactly what the
    clients were told. */
module ServerHistory {
  import opened Accounts
  import opened Market
  import opened Ledger
  import opened MarketLaws
  import opened Tape
  import opened Service
  import opened RequestEffects
  import opened Server
  import opened ServerSafety
  import opened Sums
  import opened RegistryProtocol
  import opened RegistryInvariant

  // ---- Requests belong to sessions ----

  /** The trader at whose request an entry was made, -1 for logins and trades. */
  function Requester(e: Entry): int
  {
    match e
    case LoggedOut(k) => k
    case Deposited(k, _) => k
    case Withdrew(k, _) => k
    case Escrowed(k, _) => k
    case Released(k, _) => k
    case Posted(_, _, k, _, _) => k
    case Canceled(_, _, k, _, _) => k
    case _ => -1
  }

  /** At the time of each request its trader had logged in once more than it had logged out. */
  ghost predicate Attended(j: seq<Entry>)
  {
    forall p :: 0 <= p < |j| && Requester(j[p]) != -1 ==> Sum(j[..p], SessionOf(Requester(j[p]))) == 1
  }

  lemma AttendedWith(j: seq<Entry>, e: Entry)
    requires Attended(j) && (Requester(e) != -1 ==> Sum(j, SessionOf(Requester(e))) == 1)
    ensures Attended(j + [e])
  {
    forall p | 0 <= p < |j + [e]| && Requester((j + [e])[p]) != -1
      ensures Sum((j + [e])[..p], SessionOf(Requester((j + [e])[p]))) == 1
    {
      assert (j + [e])[..p] == j[..p];
      if p == |j| { assert j[..p] == j; }
    }
  }

  /** A history grows by nothing, or by one entry at the request of `who` or of nobody. */
  ghost predicate GrowsFor(j: seq<Entry>, j': seq<Entry>, who: int)
  {
    j' == j || (|j'| == |j| + 1 && j' == j + [j'[|j|]] && (Requester(j'[|j|]) == -1 || Requester(j'[|j|]) == who))
  }

  lemma RequestLogs(b: Bourse, who: nat, r: Request)
    requires Live(b.ts, who)
    ensures GrowsFor(b.journal, HandleLoggedIn(b, who, r).b.journal, who)
  {
    hide IncreaseBalance, DecreaseBalance, IncreaseInventory, DecreaseInventory, Accounts.Ref, Unref, Cost;
  }

  lemma HandleLogs(b: Bourse, who: int, fd: int, r: Request)
    requires who == -1 || Live(b.ts, who)
    ensures GrowsFor(b.journal, Handle(b, who, fd, r).b.journal, who)
  {
    hide HandleLoggedIn, Accounts.Login, UpToNul;
    if who != -1 { RequestLogs(b, who, r); }
  }

  /** A thread whose trader is known has that trader in session. */
  lemma ThreadInSession(s: System, first: u32, t: nat)
    requires Safe(s, first) && t < |s.who| && s.who[t] != -1
    ensures Live(s.b.ts, s.who[t]) && Sum(s.b.journal, SessionOf(s.who[t])) == 1
  {
    hide Sound, Truthful, Accounting, OneToken, Entries;
    DescriptorsAreValid(s.reg, t);
    SessionNow(s.b, s.who[t]);
  }

  lemma StepAttended(s: System, step: Step, first: u32)
    requires Safe(s, first) && Ready(s, step) && Attended(s.b.journal)
    ensures Attended(Next(s, step).b.journal)
  {
    hide Sound, Truthful, Inv, Handle, Market.Settle, Fill, Accounts.Logout, Attended, SessionOf;
    var j, j' := s.b.journal, Next(s, step).b.journal;
    match step
    case Match(i, k) =>
      if j' != j { AttendedWith(j, j'[|j|]); }
    case Threads(a, r) =>
      if Receives(s.reg, a) {
        HandleLogs(s.b, s.who[a.t], s.reg.conns[a.t].fd, r);
        if s.who[a.t] != -1 { ThreadInSession(s, first, a.t); }
        if j' != j { AttendedWith(j, j'[|j|]); }
      } else if Leaves(s.reg, a) && s.who[a.t] != -1 {
        ThreadInSession(s, first, a.t);
        AttendedWith(j, LoggedOut(s.who[a.t]));
      }
  }

  lemma {:induction false} RunAttended(s: System, run: seq<Step>, first: u32)
    requires Safe(s, first) && Runs(s, run) && Attended(s.b.journal)
    ensures Attended(End(s, run).b.journal)
    decreases |run|
  {
    hide Sound, Truthful, Inv, Next, Ready, Attended;
    if run != [] {
      StepAttended(s, run[0], first);
      StepSafe(s, run[0], first);
      RunAttended(Next(s, run[0]), run[1..], first);
    }
  }

  /** The login of the session that is open after the first p entries. */
  lemma {:induction false} OpenSession(j: seq<Entry>, k: nat, p: nat) returns (r: nat)
    requires Alternates(j) && p <= |j| && Sum(j[..p], SessionOf(k)) == 1
    ensures r < p && j[r] == LoggedIn(k) && LoggedOut(k) !in j[r..p]
  {
    if p != 0 {
      assert j[..p] == j[..p - 1] + [j[p - 1]];
      SumSnoc(j[..p - 1], j[p - 1], SessionOf(k));
      if j[p - 1] == LoggedIn(k) {
        r := p - 1;
        assert j[r..p] == [j[r]];
      } else {
        assert 0 <= Sum(j[..p - 1], SessionOf(k)) <= 1;
        r := OpenSession(j, k, p - 1);
        assert j[r..p] == j[r..p - 1] + [j[p - 1]];
      }
    }
  }

  /** Main result: in every run of the whole server each acknowledged request of a trader lies in a
      session of it: a login comes before, and no logout in between. */
  lemma EveryRequestInSession(n: nat, first: u32, run: seq<Step>, p: nat) returns (r: nat)
    requires Runs(Start(n, first), run)
    requires var j := End(Start(n, first), run).b.journal; p < |j| && Requester(j[p]) != -1
    ensures var j := End(Start(n, first), run).b.journal;
      r < p && j[r] == LoggedIn(Requester(j[p])) && LoggedOut(Requester(j[p])) !in j[r..p]
  {
    hide Sound, Inv, Runs, End;
    StartSafe(n, first);
    RunSafe(Start(n, first), run, first);
    RunAttended(Start(n, first), run, first);
    var j := End(Start(n, first), run).b.journal;
    r := OpenSession(j, Requester(j[p]), p);
  }

  // ---- The history is what was acknowledged ----

  /** A request that changes an account or the book when it is acknowledged. */
  predicate IsChange(r: Request)
  {
    !r.LoginPacket? && !r.StatusPacket? && !r.OtherPacket?
  }

  /** The entry that an acknowledged request of this trader stands for, from the fields of the request. */
  ghost predicate EntryFor(b: Bourse, who: nat, r: Request, e: Entry)
  {
    match r
    case DepositPacket(amount) => e == Deposited(who, amount)
    case WithdrawPacket(amount) => e == Withdrew(who, amount)
    case EscrowPacket(quantity) => e == Escrowed(who, quantity)
    case ReleasePacket(quantity) => e == Released(who, quantity)
    case BuyPacket(quantity, price) => e == Posted(Buy, b.nextId, who, quantity, price)
    case SellPacket(quantity, price) => e == Posted(Sell, b.nextId, who, quantity, price)
    case CancelPacket(id) =>
      || (exists o :: o in b.buys && o.id == id && o.trader == who
                      && e == Canceled(Buy, id, who, o.quantity, o.price))
      || (exists o :: o in b.sells && o.id == id && o.trader == who
                      && e == Canceled(Sell, id, who, o.quantity, o.price))
    case _ => false
  }

  /** In this step a client is sent an Ack for a request that changes something. */
  ghost predicate Acknowledges(s: System, step: Step)
    requires |s.who| == |s.reg.pcs| == |s.reg.conns|
  {
    && step.Threads? && Receives(s.reg, step.a) && IsChange(step.request) && Live(s.b.ts, s.who[step.a.t])
    && var replies := Handle(s.b, s.who[step.a.t], s.reg.conns[step.a.t].fd, step.request).replies;
       replies != [] && !replies[0].answer.Nack?
  }

  /** One entry for each such step of the run, in their order. */
  ghost predicate Records(entries: seq<Entry>, s: System, run: seq<Step>)
    requires |s.who| == |s.reg.pcs| == |s.reg.conns| && Runs(s, run)
    decreases |run|
  {
    if run == [] then entries == []
    else if Acknowledges(s, run[0]) then
      && entries != [] && EntryFor(s.b, s.who[run[0].a.t], run[0].request, entries[0])
      && Records(entries[1..], Next(s, run[0]), run[1..])
    else Records(entries, Next(s, run[0]), run[1..])
  }

  /** The entries of requests, in order: all but logins, logouts and trades. */
  function RequestEntries(j: seq<Entry>): seq<Entry>
    decreases |j|
  {
    if j == [] then []
    else
      var last := j[|j| - 1];
      RequestEntries(j[..|j| - 1]) + (if Requester(last) != -1 && !last.LoggedOut? then [last] else [])
  }

  lemma RequestEntriesWith(j: seq<Entry>, e: Entry)
    ensures RequestEntries(j + [e]) == RequestEntries(j) + (if Requester(e) != -1 && !e.LoggedOut? then [e] else [])
  {
    assert (j + [e])[..|j|] == j;
  }

  /** The effect of a request includes its entry. */
  lemma EffectEntry(b: Bourse, b': Bourse, who: nat, r: Request) returns (e: Entry)
    requires Live(b.ts, who) && RequestDone(b, b', who, r) && IsChange(r)
    ensures b'.journal == b.journal + [e] && EntryFor(b, who, r, e) && Requester(e) != -1 && !e.LoggedOut?
  {
    hide OnlyAccount, Without;
    e := b'.journal[|b.journal|];
  }

  lemma NoRequestEntry(b: Bourse, fd: int, r: Request)
    ensures RequestEntries(Handle(b, -1, fd, r).b.journal) == RequestEntries(b.journal)
  {
    hide Accounts.Login, UpToNul, RequestEntries;
    var j' := Handle(b, -1, fd, r).b.journal;
    if j' != b.journal { RequestEntriesWith(b.journal, j'[|b.journal|]); }
  }

  /** What a step adds to the request entries: the entry of the request it acknowledges, or nothing. */
  lemma StepRecords(s: System, step: Step, first: u32) returns (entries: seq<Entry>)
    requires Safe(s, first) && Ready(s, step)
    ensures RequestEntries(Next(s, step).b.journal) == RequestEntries(s.b.journal) + entries
    ensures if Acknowledges(s, step) then |entries| == 1 && EntryFor(s.b, s.who[step.a.t], step.request, entries[0])
            else entries == []
  {
    hide Sound, Truthful, Inv, Handle, Market.Settle, Fill, Accounts.Logout, RequestEntries, EntryFor,
         RequestDone, Refusable;
    var j, j' := s.b.journal, Next(s, step).b.journal;
    entries := [];
    match step
    case Match(i, k) =>
      if j' != j { RequestEntriesWith(j, j'[|j|]); }
    case Threads(a, r) =>
      if Receives(s.reg, a) {
        entries := ReceiveRecords(s.b, s.who[a.t], s.reg.conns[a.t].fd, r);
      } else if Leaves(s.reg, a) && s.who[a.t] != -1 {
        RequestEntriesWith(j, LoggedOut(s.who[a.t]));
      }
  }

  lemma ReceiveRecords(b: Bourse, who: int, fd: int, r: Request) returns (entries: seq<Entry>)
    requires Sound(b) && (who == -1 || Live(b.ts, who))
    ensures var o := Handle(b, who, fd, r);
      && RequestEntries(o.b.journal) == RequestEntries(b.journal) + entries
      && if Live(b.ts, who) && IsChange(r) && o.replies != [] && !o.replies[0].answer.Nack?
         then |entries| == 1 && EntryFor(b, who, r, entries[0]) else entries == []
  {
    hide Sound, Handle, RequestEntries, EntryFor, RequestDone, Refusable;
    entries := [];
    if who == -1 {
      NoRequestEntry(b, fd, r);
    } else {
      var o := Handle(b, who, fd, r);
      HandleKeepsTrader(b, who, fd, r);
      if r.OtherPacket? {
        OtherIgnored(b, who);
      } else {
        OneAnswer(b, who, fd, r);
        if !IsChange(r) {
          NoEffect(b, r, who);
        } else if !Refusable(b, who, r) {
          AcknowledgedEffect(b, who, fd, r);
          var e := EffectEntry(b, o.b, who, r);
          RequestEntriesWith(b.journal, e);
          entries := [e];
        }
      }
    }
  }

  /** Main result: over every run of the whole server the requests in the history, orders and
      cancellations included, are exactly those that clients were sent an Ack for, in the order of their
      handling and with the values the clients sent. */
  lemma {:induction false} HistoryIsWhatWasAcknowledged(s: System, run: seq<Step>, first: u32)
    returns (entries: seq<Entry>)
    requires Safe(s, first) && Runs(s, run)
    ensures RequestEntries(End(s, run).b.journal) == RequestEntries(s.b.journal) + entries
    ensures Records(entries, s, run)
    decreases |run|
  {
    hide Sound, Truthful, Inv, Next, Ready, Acknowledges, RequestEntries, EntryFor;
    if run == [] {
      entries := [];
    } else {
      var now := StepRecords(s, run[0], first);
      StepSafe(s, run[0], first);
      var rest := HistoryIsWhatWasAcknowledged(Next(s, run[0]), run[1..], first);
      entries := now + rest;
      assert now == [] ==> entries == rest;
      assert now != [] ==> entries[1..] == rest;
    }
  }

  // ---- A trader is its name ----

  /** Every trader of the one map is in the other, under the same name. */
  ghost predicate NamesStay(ts: Traders, ts': Traders)
  {
    forall k :: Live(ts, k) ==> Live(ts', k) && Acct(ts', k).name == Acct(ts, k).name
  }

  lemma LoginKeepsNames(b: Bourse, fd: int, name: string)
    ensures NamesStay(b.ts, LogIn(b, fd, name).0.ts)
  {
  }

  lemma ReceiveKeepsNames(b: Bourse, who: int, fd: int, r: Request)
    requires Sound(b) && (who == -1 || Live(b.ts, who))
    ensures NamesStay(b.ts, Handle(b, who, fd, r).b.ts)
  {
    hide Sound, HandleLoggedIn, LogIn;
    if who != -1 {
      LoggedInSessions(b, who, r);
    } else if r.LoginPacket? {
      LoginKeepsNames(b, fd, UpToNul(r.payload));
    }
  }

  lemma StepKeepsNames(s: System, step: Step, first: u32)
    requires Safe(s, first) && Ready(s, step)
    ensures NamesStay(s.b.ts, Next(s, step).b.ts)
  {
    hide Sound, Truthful, Inv, Handle, Trade, LogOut;
    match step
    case Match(i, j) => TradeKeepsSessions(s.b, i, j);
    case Threads(a, r) =>
      if Receives(s.reg, a) {
        ReceiveKeepsNames(s.b, s.who[a.t], s.reg.conns[a.t].fd, r);
      } else if Leaves(s.reg, a) && s.who[a.t] != -1 {
        DescriptorsAreValid(s.reg, a.t);
        LogoutEffect(s.b, s.who[a.t]);
      }
  }

  lemma {:induction false} RunKeepsNames(s: System, run: seq<Step>, first: u32)
    requires Safe(s, first) && Runs(s, run)
    ensures NamesStay(s.b.ts, End(s, run).b.ts)
    decreases |run|
  {
    hide Sound, Truthful, Inv, Next, Ready;
    if run != [] {
      StepKeepsNames(s, run[0], first);
      StepSafe(s, run[0], first);
      RunKeepsNames(Next(s, run[0]), run[1..], first);
    }
  }

  /** The trader that an acknowledged login of this payload reaches, -1 when it is refused. */
  function LoggedInAs(b: Bourse, fd: int, payload: string): int
  {
    Handle(b, -1, fd, LoginPacket(payload)).who
  }

  /** Main result: two acknowledged logins, with any run of the server between them, reach the same
      trader if and only if their payloads name the same; payloads without NUL, if and only if equal. */
  lemma SameTraderSameName(s: System, fd: int, payload: string, s': System, run: seq<Step>, first: u32,
                           fd': int, payload': string)
    requires Safe(s, first) && 0 <= fd && LoggedInAs(s.b, fd, payload) != -1
    requires Safe(s', first) && s'.b == Handle(s.b, -1, fd, LoginPacket(payload)).b && Runs(s', run)
    requires 0 <= fd' && LoggedInAs(End(s', run).b, fd', payload') != -1
    ensures LoggedInAs(s.b, fd, payload) == LoggedInAs(End(s', run).b, fd', payload') <==>
      UpToNul(payload) == UpToNul(payload')
    ensures '\0' !in payload && '\0' !in payload' ==>
      (LoggedInAs(s.b, fd, payload) == LoggedInAs(End(s', run).b, fd', payload') <==> payload == payload')
  {
    hide Sound, Truthful, Inv, Handle, UpToNul, Runs, End;
    var k, k' := LoggedInAs(s.b, fd, payload), LoggedInAs(End(s', run).b, fd', payload');
    var e := End(s', run);
    LoginEffect(s.b, fd, payload);
    RunKeepsNames(s', run, first);
    RunSafe(s', run, first);
    LoginEffect(e.b, fd', payload');
    ReceiveKeepsNames(e.b, -1, fd', LoginPacket(payload'));
    HandleSound(e.b, -1, fd', LoginPacket(payload'));
    NamesDiffer(Handle(e.b, -1, fd', LoginPacket(payload')).b, k, k');
    NameOfPayload(payload);
    NameOfPayload(payload');
  }

  lemma NamesDiffer(b: Bourse, k: nat, m: nat)
    requires Sound(b) && Live(b.ts, k) && Live(b.ts, m)
    ensures Acct(b.ts, k).name == Acct(b.ts, m).name <==> k == m
  {
    hide Even, Orderly, Apart;
  }
}
