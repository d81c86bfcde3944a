/** One request of one client, as `brs_client_service` dispatches it. */
module Service {
  import opened Accounts
  import opened Market
  import opened Ledger
  import opened MarketLaws
  import opened Guarantees
  import opened Tape
  import opened Sums

  /** A received packet with its payload decoded; `OtherPacket` is any type the server ignores. */
  datatype Request =
    | LoginPacket(payload: string)
    | StatusPacket
    | DepositPacket(amount: u32)
    | WithdrawPacket(amount: u32)
    | EscrowPacket(quantity: u32)
    | ReleasePacket(quantity: u32)
    | BuyPacket(quantity: u32, price: u32)
    | SellPacket(quantity: u32, price: u32)
    | CancelPacket(order: u32)
    | OtherPacket

  datatype Answer = Ack | AckInfo(balance: u32, inventory: u32, bid: u32, ask: u32, last: u32) | Nack

  /** A packet sent to descriptor `fd`. */
  datatype Reply = Reply(fd: int, answer: Answer)

  /** After a request: the exchange, `this_trader` (-1 for NULL), and what was sent. */
  datatype Outcome = Outcome(b: Bourse, who: int, replies: seq<Reply>)

  /** What `strcmp` sees of a payload that has been terminated with a NUL. */
  function UpToNul(payload: string): string
  {
    if payload == "" || payload[0] == '\0' then "" else [payload[0]] + UpToNul(payload[1..])
  }

  /** The name a payload gives: its part before the first NUL, or all of it. */
  lemma {:induction false} NameOfPayload(payload: string)
    ensures var name := UpToNul(payload);
      && name <= payload && '\0' !in name && (name == payload || payload[|name|] == '\0')
    ensures '\0' !in payload ==> UpToNul(payload) == payload
  {
    if payload != "" && payload[0] != '\0' {
      NameOfPayload(payload[1..]);
      assert payload == [payload[0]] + payload[1..];
    } else {
      assert payload != "" ==> payload[0] in payload;
    }
  }

  /** `trader_send_ack` with status: the account as it is when the reply is made. */
  function Status(b: Bourse, who: nat): Reply
    requires Live(b.ts, who)
  {
    var a := Acct(b.ts, who);
    Reply(a.fd, AckInfo(a.balance, a.inventory, Bid(b.buys), Ask(b.sells), b.last))
  }

  function Refuse(b: Bourse, who: nat): Reply
    requires Live(b.ts, who)
  {
    Reply(Acct(b.ts, who).fd, Nack)
  }

  function Served(b: Bourse, who: nat, ok: bool): Outcome
  {
    Outcome(b, who, if !Live(b.ts, who) then [] else if ok then [Status(b, who)] else [Refuse(b, who)])
  }

  /** The body of the service loop: before a login only a login is looked at. */
  function Handle(b: Bourse, who: int, fd: int, r: Request): Outcome
    requires who == -1 || Live(b.ts, who)
  {
    if who != -1 then HandleLoggedIn(b, who, r)
    else if !r.LoginPacket? then Outcome(b, -1, [])
    else
      var (b', k) := LogIn(b, fd, UpToNul(r.payload));
      if k == -1 || !Live(b'.ts, k) then Outcome(b', -1, [Reply(fd, Nack)])
      else Outcome(b', k, [Reply(Acct(b'.ts, k).fd, Ack)])
  }

  function HandleLoggedIn(b: Bourse, who: nat, r: Request): Outcome
    requires Live(b.ts, who)
  {
    match r
    case StatusPacket => Served(b, who, true)
    case DepositPacket(amount) => Served(Deposit(b, who, amount), who, true)
    case WithdrawPacket(amount) =>
      var (b', ok) := Withdraw(b, who, amount);
      Served(b', who, ok)
    case EscrowPacket(quantity) => Served(Escrow(b, who, quantity), who, true)
    case ReleasePacket(quantity) =>
      var (b', ok) := Release(b, who, quantity);
      Served(b', who, ok)
    case BuyPacket(quantity, price) =>
      var (b', id) := PostBuy(b, who, quantity, price);
      Served(b', who, id != 0)
    case SellPacket(quantity, price) =>
      var (b', id) := PostSell(b, who, quantity, price);
      Served(b', who, id != 0)
    case CancelPacket(order) =>
      var (b', canceled) := Cancel(b, who, order);
      Served(b', who, canceled.Some?)
    case LoginPacket(_) => Outcome(b, who, [Refuse(b, who)])
    case OtherPacket => Outcome(b, who, [])
  }

  // ---- What requests keep ----

  lemma LoggedInSound(b: Bourse, who: nat, r: Request)
    requires Sound(b) && Live(b.ts, who)
    ensures Sound(HandleLoggedIn(b, who, r).b)
  {
    hide Sound, Deposit, Withdraw, Escrow, Release, PostBuy, PostSell, Cancel;
    match r
    case DepositPacket(amount) => DepositSound(b, who, amount);
    case WithdrawPacket(amount) => WithdrawSound(b, who, amount);
    case EscrowPacket(quantity) => DepositSound(b, who, quantity);
    case ReleasePacket(quantity) => WithdrawSound(b, who, quantity);
    case BuyPacket(quantity, price) => PostBuySound(b, who, quantity, price);
    case SellPacket(quantity, price) => PostSellSound(b, who, quantity, price);
    case CancelPacket(order) => CancelSound(b, who, order);
    case _ =>
  }

  lemma HandleSound(b: Bourse, who: int, fd: int, r: Request)
    requires Sound(b) && 0 <= fd && (who == -1 || Live(b.ts, who))
    ensures Sound(Handle(b, who, fd, r).b)
  {
    hide Sound, HandleLoggedIn, LogIn;
    if who != -1 {
      LoggedInSound(b, who, r);
    } else if r.LoginPacket? {
      LogInSound(b, fd, UpToNul(r.payload));
    }
  }

  /** Names, sessions and slots are as before. */
  ghost predicate SameSessions(ts: Traders, ts': Traders)
  {
    SameNames(ts, ts') && forall k :: Live(ts, k) ==> Acct(ts', k).fd == Acct(ts, k).fd
  }

  lemma AccountSessions(ts: Traders, k: nat, amount: nat)
    requires Live(ts, k)
    ensures SameSessions(ts, IncreaseBalance(ts, k, amount)) && SameSessions(ts, DecreaseBalance(ts, k, amount).0)
    ensures SameSessions(ts, IncreaseInventory(ts, k, amount)) && SameSessions(ts, DecreaseInventory(ts, k, amount).0)
  {
  }

  lemma PostSessions(ts: Traders, k: nat, amount: nat)
    requires Live(ts, k)
    ensures var (paid, ok) := DecreaseBalance(ts, k, amount); Live(paid, k) && SameSessions(ts, Ref(paid, k))
    ensures var (paid, ok) := DecreaseInventory(ts, k, amount); Live(paid, k) && SameSessions(ts, Ref(paid, k))
  {
  }

  /** No request of a logged-in client touches a session. */
  lemma LoggedInSessions(b: Bourse, who: nat, r: Request)
    requires Sound(b) && Live(b.ts, who)
    ensures SameSessions(b.ts, HandleLoggedIn(b, who, r).b.ts)
  {
    hide Sound, SameSessions, IncreaseBalance, DecreaseBalance, IncreaseInventory, DecreaseInventory, Ref, Cancel;
    SameSessionsAgain(b.ts);
    match r
    case DepositPacket(amount) => AccountSessions(b.ts, who, amount);
    case WithdrawPacket(amount) => AccountSessions(b.ts, who, amount);
    case EscrowPacket(quantity) => AccountSessions(b.ts, who, quantity);
    case ReleasePacket(quantity) => AccountSessions(b.ts, who, quantity);
    case BuyPacket(quantity, price) => PostSessions(b.ts, who, Cost(quantity, price));
    case SellPacket(quantity, price) => PostSessions(b.ts, who, quantity);
    case CancelPacket(order) => CancelSessions(b, who, order);
    case _ =>
  }

  lemma SameSessionsAgain(ts: Traders)
    ensures SameSessions(ts, ts)
  {
  }

  lemma RefundSessions(ts: Traders, k: nat, amount: nat)
    requires Live(ts, k) && Acct(ts, k).ref != 1
    ensures SameSessions(ts, Unref(IncreaseBalance(ts, k, amount), k))
    ensures SameSessions(ts, Unref(IncreaseInventory(ts, k, amount), k))
  {
  }

  lemma CancelSessions(b: Bourse, who: nat, id: nat)
    requires Sound(b) && Live(b.ts, who)
    ensures SameSessions(b.ts, Cancel(b, who, id).0.ts)
  {
    hide Sound, SameSessions, IncreaseBalance, IncreaseInventory, Unref;
    SameSessionsAgain(b.ts);
    var i, j := FindFirst(b.buys, PostedBy(id, who)), FindFirst(b.sells, PostedBy(id, who));
    if i != -1 {
      OrderHoldsRef(b, who, b.buys, i);
      RefundSessions(b.ts, who, Cost(b.buys[i].quantity, b.buys[i].price));
    } else if j != -1 {
      OrderHoldsRef(b, who, b.sells, j);
      RefundSessions(b.ts, who, b.sells[j].quantity);
    }
  }

  lemma LoggedInTruthful(b: Bourse, who: nat, r: Request, first: int)
    requires Sound(b) && Live(b.ts, who) && Truthful(b, first)
    ensures Truthful(HandleLoggedIn(b, who, r).b, first)
  {
    hide Sound, Truthful, IncreaseBalance, DecreaseBalance, IncreaseInventory, DecreaseInventory, Accounts.Ref, Cost,
         Cancel;
    LoggedInSound(b, who, r);
    var b' := HandleLoggedIn(b, who, r).b;
    if b' != b {
      match r
      case DepositPacket(amount) => PlainTruthful(b, b', Deposited(who, amount), first);
      case WithdrawPacket(amount) => PlainTruthful(b, b', Withdrew(who, amount), first);
      case EscrowPacket(quantity) => PlainTruthful(b, b', Escrowed(who, quantity), first);
      case ReleasePacket(quantity) => PlainTruthful(b, b', Released(who, quantity), first);
      case BuyPacket(quantity, price) => PostTruthful(b, b', Order(b.nextId, who, quantity, price), Buy, first);
      case SellPacket(quantity, price) => PostTruthful(b, b', Order(b.nextId, who, quantity, price), Sell, first);
      case CancelPacket(order) => CancelTruthful(b, who, order, first);
      case _ =>
    }
  }

  lemma CancelTruthful(b: Bourse, who: nat, id: nat, first: int)
    requires Sound(b) && Live(b.ts, who) && Truthful(b, first)
    ensures Truthful(Cancel(b, who, id).0, first)
  {
    hide Sound, Truthful, IncreaseBalance, IncreaseInventory, Unref, Cost;
    CancelSound(b, who, id);
    var b' := Cancel(b, who, id).0;
    CancelIsOfPending(b, who, id, first);
    if b' != b {
      PlainTruthful(b, b', b'.journal[|b.journal|], first);
    }
  }

  lemma CancelIsOfPending(b: Bourse, who: nat, id: nat, first: int)
    requires Live(b.ts, who) && Truthful(b, first)
    ensures var b' := Cancel(b, who, id).0;
      b' != b ==>
        && |b'.journal| == |b.journal| + 1 && b'.journal[|b.journal|].Canceled?
        && var e := b'.journal[|b.journal|]; Announced(b.journal, e.side, e.id, e.trader, e.price)
  {
    hide GoodTrades, GoodCancels, Alternates, Numbered, Announced, IncreaseBalance, IncreaseInventory, Unref, Cost;
  }

  lemma LogInTruthful(b: Bourse, fd: int, name: string, first: int)
    requires Sound(b) && 0 <= fd && Truthful(b, first)
    ensures Truthful(LogIn(b, fd, name).0, first)
  {
    hide Even;
    LogInSound(b, fd, name);
    var b' := LogIn(b, fd, name).0;
    if b'.journal != b.journal {
      PlainTruthful(b, b', b'.journal[|b.journal|], first);
    }
  }

  lemma HandleTruthful(b: Bourse, who: int, fd: int, r: Request, first: int)
    requires Sound(b) && 0 <= fd && (who == -1 || Live(b.ts, who)) && Truthful(b, first)
    ensures Truthful(Handle(b, who, fd, r).b, first)
  {
    hide Sound, Truthful, HandleLoggedIn, LogIn;
    if who != -1 {
      LoggedInTruthful(b, who, r, first);
    } else if r.LoginPacket? {
      LogInTruthful(b, fd, UpToNul(r.payload), first);
    }
  }

  // ---- What requests answer ----

  /** Before a successful login nothing but a login has any effect or answer. */
  lemma LoginFirst(b: Bourse, fd: int, r: Request)
    requires !r.LoginPacket?
    ensures Handle(b, -1, fd, r) == Outcome(b, -1, [])
  {
  }

  /** A login is answered once: Ack and a session for this descriptor, or Nack; and Nack exactly
      when the name is logged in already or is new to a full map. */
  lemma LoginAnswer(b: Bourse, fd: int, payload: string)
    requires Sound(b) && 0 <= fd
    ensures var o, known := Handle(b, -1, fd, LoginPacket(payload)), FindFirst(b.ts.slots, Named(UpToNul(payload)));
      && o.replies == [Reply(fd, if o.who == -1 then Nack else Ack)]
      && (o.who == -1 <==> if known != -1 then Acct(b.ts, known).fd != -1 else b.ts.count == MAX_TRADERS)
      && (o.who != -1 ==> Live(o.b.ts, o.who) && Acct(o.b.ts, o.who).fd == fd)
      && (forall k :: Live(b.ts, k) ==>
            Live(o.b.ts, k) && Acct(o.b.ts, k).fd == if k == o.who then fd else Acct(b.ts, k).fd)
      && (forall k :: Live(o.b.ts, k) && k != o.who ==> Live(b.ts, k))
  {
    hide Even;
    var name := UpToNul(payload);
    if FindFirst(b.ts.slots, Named(name)) == -1 {
      FreshLogin(b.ts, fd, name);
    }
  }

  /** The promise that a trader returned by a login has two references holds exactly when the name is
      new, or its trader has no pending order and no login was refused while it was logged in; which is
      when the map held its only reference. */
  lemma LoginReferences(b: Bourse, fd: int, name: string)
    requires Sound(b) && 0 <= fd
    requires var known := FindFirst(b.ts.slots, Named(name));
      if known == -1 then b.ts.count < MAX_TRADERS else Acct(b.ts, known).fd == -1
    ensures var (b', k) := LogIn(b, fd, name); Live(b'.ts, k)
    ensures var (b', k) := LogIn(b, fd, name);
      var known := FindFirst(b.ts.slots, Named(name));
      && (Acct(b'.ts, k).ref == 2 <==> known == -1 || Acct(b.ts, known).ref == 1)
      && (Acct(b'.ts, k).ref == 2 <==>
            known == -1 ||
            (Sum(b.buys, HeldBy(known)) == 0 && Sum(b.sells, HeldBy(known)) == 0
             && Sum(b.journal, RefusedOf(known)) == 0))
  {
    hide Even;
    var known := FindFirst(b.ts.slots, Named(name));
    if known == -1 {
      FreshLogin(b.ts, fd, name);
    } else {
      ReloginIs(b.ts, known, fd, name);
      RefAccounting(b, known);
      SumNonNeg(b.buys, HeldBy(known));
      SumNonNeg(b.sells, HeldBy(known));
      SumNonNeg(b.journal, RefusedOf(known));
    }
  }

  lemma AfterRefusal(name: string, fd: nat, other: nat) returns (b: Bourse)
    ensures Sound(b) && Live(b.ts, 0) && Acct(b.ts, 0) == Account(name, 3, fd, 0, 0, 0, 0)
    ensures b.buys == [] && b.sells == [] && b.journal == [LoggedIn(0), LoginRefused(0)]
  {
    hide Sound, Even;
    var b0 := Opening(0);
    OpeningSound(0);
    LogInSound(b0, fd, name);
    NoneIs(b0.ts.slots, Named(name));
    FirstIs(b0.ts.slots, Free, 0);
    b := LogIn(b0, fd, name).0;
    FirstIs(b.ts.slots, Named(name), 0);
    LogInSound(b, other, name);
    b := LogIn(b, other, name).0;
  }

  /** It fails after a refused login: the same name, logged out and in again, has three. */
  lemma ThreeReferences(name: string, fd: nat, other: nat) returns (b: Bourse)
    ensures Sound(b) && Live(b.ts, 0) && Acct(b.ts, 0).fd == other && Acct(b.ts, 0).ref == 3
    ensures b.buys == [] && b.sells == []
    ensures b.journal == [LoggedIn(0), LoginRefused(0), LoggedOut(0), LoggedIn(0)]
  {
    hide Sound, Accounts.Logout, Accounts.Login;
    b := AfterRefusal(name, fd, other);
    LogOutSound(b, 0);
    LogoutIs(b.ts, 0);
    b := LogOut(b, 0);
    FirstIs(b.ts.slots, Named(name), 0);
    LogInSound(b, other, name);
    ReloginIs(b.ts, 0, other, name);
    b := LogIn(b, other, name).0;
  }

  /** When the request of a logged-in client is refused: one condition per kind, checked on the
      account or the book before the request. */
  ghost predicate Refusable(b: Bourse, who: nat, r: Request)
    requires Live(b.ts, who)
  {
    match r
    case LoginPacket(_) => true
    case WithdrawPacket(amount) => Acct(b.ts, who).balance < amount
    case ReleasePacket(quantity) => Acct(b.ts, who).inventory < quantity
    case BuyPacket(quantity, price) => Acct(b.ts, who).balance < quantity * price
    case SellPacket(quantity, price) => Acct(b.ts, who).inventory < quantity
    case CancelPacket(id) =>
      forall o :: o in b.buys || o in b.sells ==> !(o.id == id && o.trader == who)
    case _ => false
  }

  /** What an acknowledgement tells the client: its account, the best prices and the last one. */
  ghost predicate Reports(b: Bourse, who: nat, answer: Answer)
    requires Live(b.ts, who)
  {
    && answer.AckInfo?
    && answer.balance == Acct(b.ts, who).balance && answer.inventory == Acct(b.ts, who).inventory
    && answer.last == b.last
    && (forall o :: o in b.buys ==> o.price <= answer.bid)
    && (b.buys != [] ==> exists o :: o in b.buys && o.price == answer.bid)
    && (forall o :: o in b.sells ==> answer.ask <= o.price)
    && (b.sells != [] ==> exists o :: o in b.sells && o.price == answer.ask)
  }

  lemma StatusReports(b: Bourse, who: nat)
    requires Live(b.ts, who)
    ensures Reports(b, who, Status(b, who).answer)
  {
    if b.buys != [] {
      var i :| 0 <= i < |b.buys| && b.buys[i].price == Bid(b.buys);
      assert b.buys[i] in b.buys;
    }
    if b.sells != [] {
      var i :| 0 <= i < |b.sells| && b.sells[i].price == Ask(b.sells);
      assert b.sells[i] in b.sells;
    }
  }

  /** A packet of a type the server does not know is passed over. */
  lemma OtherIgnored(b: Bourse, who: nat)
    requires Live(b.ts, who)
    ensures HandleLoggedIn(b, who, OtherPacket) == Outcome(b, who, [])
  {
  }

  /** Every request of a logged-in client that the server knows is answered exactly once, to the
      descriptor of the session: Nack with nothing changed exactly when it is refusable, else an
      Ack that reports the account as the request has left it. */
  lemma OneAnswer(b: Bourse, who: nat, fd: int, r: Request)
    requires Sound(b) && Live(b.ts, who) && !r.OtherPacket?
    ensures var o := Handle(b, who, fd, r);
      && o.who == who && |o.replies| == 1 && o.replies[0].fd == Acct(b.ts, who).fd
      && (o.replies[0].answer.Nack? <==> Refusable(b, who, r))
      && (o.replies[0].answer.Nack? ==> o.b == b)
      && (!o.replies[0].answer.Nack? ==>
            Live(o.b.ts, who) && o.replies[0] == Status(o.b, who) && Reports(o.b, who, o.replies[0].answer))
  {
    hide Even, Packed, Orderly, Apart, Put, IncreaseBalance, IncreaseInventory, Accounts.Ref, Cancel, Bid, Ask, Reports;
    LoggedInSessions(b, who, r);
    var b' := Handle(b, who, fd, r).b;
    StatusReports(b', who);
    if r.CancelPacket? {
      CancelRefused(b, who, r.order);
    } else if r.BuyPacket? {
      ProductIs(r.quantity, r.price);
    }
  }

  lemma NoneFound(orders: seq<Order>, id: nat, k: nat)
    ensures FindFirst(orders, PostedBy(id, k)) == -1 <==> forall o :: o in orders ==> !(o.id == id && o.trader == k)
  {
    var i := FindFirst(orders, PostedBy(id, k));
    assert i != -1 ==> orders[i] in orders;
  }

  lemma CancelRefused(b: Bourse, who: nat, id: nat)
    requires Live(b.ts, who)
    ensures Cancel(b, who, id).1.None? <==>
      forall o :: o in b.buys || o in b.sells ==> !(o.id == id && o.trader == who)
    ensures Cancel(b, who, id).1.None? ==> Cancel(b, who, id).0 == b
  {
    hide CancelBuy, CancelSell, PostedBy;
    NoneFound(b.buys, id, who);
    NoneFound(b.sells, id, who);
  }

  // ---- One visit of a client ----

  /** `this_trader` holds the session of this descriptor. */
  ghost predicate OwnSession(b: Bourse, who: int, fd: int)
  {
    who == -1 || (Live(b.ts, who) && Acct(b.ts, who).fd == fd)
  }

  lemma StaysInSession(b: Bourse, who: int, fd: int, r: Request)
    requires Sound(b) && 0 <= fd && OwnSession(b, who, fd)
    ensures var o := Handle(b, who, fd, r); Sound(o.b) && OwnSession(o.b, o.who, fd)
  {
    hide Sound, HandleLoggedIn, LogIn;
    HandleSound(b, who, fd, r);
    if r.LoginPacket? && who == -1 {
      LoginAnswer(b, fd, r.payload);
    } else if who != -1 {
      LoggedInSessions(b, who, r);
      if r.OtherPacket? { OtherIgnored(b, who); } else { OneAnswer(b, who, fd, r); }
    }
  }

  /** After these packets on one connection, served without interference. */
  function Serving(b: Bourse, fd: int, packets: seq<Request>): Outcome
    decreases |packets|
  {
    if packets == [] then Outcome(b, -1, [])
    else
      var o := Serving(b, fd, packets[..|packets| - 1]);
      if o.who != -1 && !Live(o.b.ts, o.who) then o
      else
        var o' := Handle(o.b, o.who, fd, packets[|packets| - 1]);
        o'.(replies := o.replies + o'.replies)
  }

  /** From the first packet to the logout. */
  function Visit(b: Bourse, fd: int, packets: seq<Request>): (Bourse, seq<Reply>)
  {
    var o := Serving(b, fd, packets);
    (if Live(o.b.ts, o.who) then LogOut(o.b, o.who) else o.b, o.replies)
  }

  /** Replies come in the order of the packets: those of one more packet follow the others. */
  lemma ServingOneMore(b: Bourse, fd: int, packets: seq<Request>, r: Request)
    requires var o := Serving(b, fd, packets); o.who == -1 || Live(o.b.ts, o.who)
    ensures var o := Serving(b, fd, packets);
      Serving(b, fd, packets + [r]).replies == o.replies + Handle(o.b, o.who, fd, r).replies
  {
    assert (packets + [r])[..|packets|] == packets;
  }

  /** What was sent stays sent: the replies to the first packets are the first replies. */
  lemma {:induction false} ServingInOrder(b: Bourse, fd: int, packets: seq<Request>, rest: seq<Request>)
    ensures Serving(b, fd, packets).replies <= Serving(b, fd, packets + rest).replies
  {
    hide Handle;
    if rest == [] {
      assert packets + rest == packets;
    } else {
      var last := |rest| - 1;
      assert (packets + rest)[..|packets + rest| - 1] == packets + rest[..last];
      ServingInOrder(b, fd, packets, rest[..last]);
    }
  }

  /** The descriptor is the session of no trader but `who`. */
  ghost predicate OnlySession(b: Bourse, who: int, fd: int)
  {
    OwnSession(b, who, fd) && forall k :: Live(b.ts, k) && Acct(b.ts, k).fd == fd ==> k == who
  }

  lemma StaysOnly(b: Bourse, who: int, fd: int, r: Request)
    requires Sound(b) && 0 <= fd && OnlySession(b, who, fd)
    ensures var o := Handle(b, who, fd, r); OnlySession(o.b, o.who, fd)
  {
    hide Sound, HandleLoggedIn, LogIn;
    StaysInSession(b, who, fd, r);
    if r.LoginPacket? && who == -1 {
      LoginAnswer(b, fd, r.payload);
    } else if who != -1 {
      LoggedInSessions(b, who, r);
      if r.OtherPacket? { OtherIgnored(b, who); } else { OneAnswer(b, who, fd, r); }
    }
  }

  lemma {:induction false} ServingOnly(b: Bourse, fd: int, packets: seq<Request>)
    requires Sound(b) && 0 <= fd && OnlySession(b, -1, fd)
    ensures var o := Serving(b, fd, packets); Sound(o.b) && OnlySession(o.b, o.who, fd)
    decreases |packets|
  {
    hide Sound, Handle;
    if packets != [] {
      ServingOnly(b, fd, packets[..|packets| - 1]);
      var o, r := Serving(b, fd, packets[..|packets| - 1]), packets[|packets| - 1];
      StaysInSession(o.b, o.who, fd, r);
      StaysOnly(o.b, o.who, fd, r);
    }
  }

  /** A visit leaves the books even and no session of its descriptor behind. */
  lemma VisitEndsSession(b: Bourse, fd: int, packets: seq<Request>, k: nat)
    requires Sound(b) && 0 <= fd && OnlySession(b, -1, fd)
    ensures var b' := Visit(b, fd, packets).0;
      Sound(b') && (Live(b'.ts, k) ==> Acct(b'.ts, k).fd != fd)
  {
    hide Sound, Serving;
    ServingOnly(b, fd, packets);
    var o := Serving(b, fd, packets);
    if Live(o.b.ts, o.who) {
      LogOutSound(o.b, o.who);
      LogOutMoves(o.b, o.who);
    }
  }

  /** Logging out ends the session of that trader and of no other. */
  lemma LogOutMoves(b: Bourse, k: nat)
    requires Sound(b) && Live(b.ts, k) && Acct(b.ts, k).fd != -1
    ensures var ts' := LogOut(b, k).ts;
      && |ts'.slots| == |b.ts.slots|
      && forall m :: && Live(ts', m) == Live(b.ts, m)
                     && (Live(b.ts, m) ==> Acct(ts', m).fd == if m == k then -1 else Acct(b.ts, m).fd)
  {
    hide Sound, Logout;
    NeverRemoved(b, k);
    LogoutIs(b.ts, k);
  }
}
