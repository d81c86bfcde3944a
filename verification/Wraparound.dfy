/** Where the unchecked 32-bit additions wrap: a guard for every credit, read off the state before it,
    and conservation over a run exactly when every guard on the way held. */
module Wraparound {
  import opened Accounts
  import opened Market
  import opened Ledger
  import opened MarketLaws
  import opened Guarantees
  import opened Service
  import opened Server
  import opened ServerSafety
  import opened Sums
  import opened RegistryProtocol
  import opened RegistryInvariant
  import Tape

  /** x and y together fit a field of 32 bits. */
  predicate Fits(x: nat, y: nat)
  {
    x + y < 0x1_0000_0000
  }

  lemma CarryIsZero(x: nat, y: nat)
    ensures Carry(x + y) == 0 <==> Fits(x, y)
    ensures Fits(x, y) ==> Low(x + y) == x + y
  {
  }

  // ---- One account ----

  lemma FundsCredit(ts: Traders, k: nat, amount: nat)
    requires Live(ts, k)
    ensures var ts' := IncreaseBalance(ts, k, amount);
      && (NoBalanceWrapped(ts') <==> NoBalanceWrapped(ts) && Fits(Acct(ts, k).balance, amount))
      && (NoInventoryWrapped(ts') <==> NoInventoryWrapped(ts))
  {
    CarryIsZero(Acct(ts, k).balance, amount);
    WrapsElsewhere(ts, k, Acct(IncreaseBalance(ts, k, amount), k));
  }

  lemma GoodsCredit(ts: Traders, k: nat, quantity: nat)
    requires Live(ts, k)
    ensures var ts' := IncreaseInventory(ts, k, quantity);
      && (NoInventoryWrapped(ts') <==> NoInventoryWrapped(ts) && Fits(Acct(ts, k).inventory, quantity))
      && (NoBalanceWrapped(ts') <==> NoBalanceWrapped(ts))
  {
    CarryIsZero(Acct(ts, k).inventory, quantity);
    WrapsElsewhere(ts, k, Acct(IncreaseInventory(ts, k, quantity), k));
  }

  /** Replacing one account whose wraps only grow. */
  lemma WrapsElsewhere(ts: Traders, k: nat, a: Account)
    requires Live(ts, k)
    requires a.balanceWraps >= Acct(ts, k).balanceWraps && a.inventoryWraps >= Acct(ts, k).inventoryWraps
    ensures NoBalanceWrapped(Put(ts, k, a)) <==>
      NoBalanceWrapped(ts) && a.balanceWraps == Acct(ts, k).balanceWraps
    ensures NoInventoryWrapped(Put(ts, k, a)) <==>
      NoInventoryWrapped(ts) && a.inventoryWraps == Acct(ts, k).inventoryWraps
  {
    var ts' := Put(ts, k, a);
    forall s | 0 <= s < |ts.slots|
      ensures s != k ==> BalanceWraps(ts'.slots[s]) == BalanceWraps(ts.slots[s])
      ensures s != k ==> InventoryWraps(ts'.slots[s]) == InventoryWraps(ts.slots[s])
      ensures BalanceWraps(ts.slots[s]) <= BalanceWraps(ts'.slots[s])
      ensures InventoryWraps(ts.slots[s]) <= InventoryWraps(ts'.slots[s])
    {
    }
    assert BalanceWraps(ts'.slots[k]) == a.balanceWraps && InventoryWraps(ts'.slots[k]) == a.inventoryWraps;
  }

  /** No slot has wrapped more or less than before. */
  ghost predicate SameWraps(ts: Traders, ts': Traders)
  {
    && |ts'.slots| == |ts.slots|
    && forall s :: 0 <= s < |ts.slots| ==>
         && BalanceWraps(ts'.slots[s]) == BalanceWraps(ts.slots[s])
         && InventoryWraps(ts'.slots[s]) == InventoryWraps(ts.slots[s])
  }

  lemma SameWrapsAre(ts: Traders, ts': Traders)
    requires SameWraps(ts, ts')
    ensures NoBalanceWrapped(ts') <==> NoBalanceWrapped(ts)
    ensures NoInventoryWrapped(ts') <==> NoInventoryWrapped(ts)
  {
    assert forall s :: 0 <= s < |ts.slots| ==> BalanceWraps(ts'.slots[s]) == BalanceWraps(ts.slots[s]);
    assert forall s :: 0 <= s < |ts.slots| ==> InventoryWraps(ts'.slots[s]) == InventoryWraps(ts.slots[s]);
  }

  lemma UnrefWraps(ts: Traders, k: nat, gone: bool)
    requires Live(ts, k) && Acct(ts, k).ref != 1
    ensures SameWraps(ts, UnrefIf(ts, k, gone))
  {
  }

  // ---- One operation of the exchange ----

  /** Both credits of a trade fit, counted together when one trader posted both orders. */
  predicate TradeFundsFit(b: Bourse, i: nat, j: nat)
    requires Matches(b, i, j) && Live(b.ts, b.buys[i].trader) && Live(b.ts, b.sells[j].trader)
  {
    var buy, sell := b.buys[i], b.sells[j];
    var price := Clamp(b.last, sell.price, buy.price);
    var quantity := Min(buy.quantity, sell.quantity);
    var proceeds, refund := Cost(quantity, price), Cost(quantity, buy.price - price);
    if buy.trader == sell.trader then Fits(Acct(b.ts, buy.trader).balance, proceeds + refund)
    else Fits(Acct(b.ts, sell.trader).balance, proceeds) && Fits(Acct(b.ts, buy.trader).balance, refund)
  }

  predicate TradeGoodsFit(b: Bourse, i: nat, j: nat)
    requires Matches(b, i, j) && Live(b.ts, b.buys[i].trader)
  {
    Fits(Acct(b.ts, b.buys[i].trader).inventory, Min(b.buys[i].quantity, b.sells[j].quantity))
  }

  lemma PaymentsWrap(ts: Traders, buyer: nat, seller: nat, quantity: u32, price: u32, maxPrice: u32)
    requires Live(ts, buyer) && Live(ts, seller) && price <= maxPrice
    ensures var ts' := Market.Settle(ts, buyer, seller, quantity, price, maxPrice, false, false);
      var proceeds, refund := Cost(quantity, price), Cost(quantity, maxPrice - price);
      && (NoBalanceWrapped(ts') <==>
            && NoBalanceWrapped(ts)
            && (if buyer == seller then Fits(Acct(ts, buyer).balance, proceeds + refund)
                else Fits(Acct(ts, seller).balance, proceeds) && Fits(Acct(ts, buyer).balance, refund)))
      && (NoInventoryWrapped(ts') <==> NoInventoryWrapped(ts) && Fits(Acct(ts, buyer).inventory, quantity))
  {
    hide NoBalanceWrapped, NoInventoryWrapped, Cost;
    var proceeds, refund := Cost(quantity, price), Cost(quantity, maxPrice - price);
    var ts1 := IncreaseBalance(ts, seller, proceeds);
    FundsCredit(ts, seller, proceeds);
    CarryIsZero(Acct(ts, seller).balance, proceeds);
    var ts2 := IncreaseInventory(ts1, buyer, quantity);
    GoodsCredit(ts1, buyer, quantity);
    FundsCredit(ts2, buyer, refund);
  }

  lemma SettleWraps(ts: Traders, buyer: nat, seller: nat, quantity: u32, price: u32, maxPrice: u32,
                    buyGone: bool, sellGone: bool)
    requires Live(ts, buyer) && Live(ts, seller) && price <= maxPrice
    requires var same := If(buyer == seller, 1); Acct(ts, buyer).ref > 1 + same && Acct(ts, seller).ref > 1 + same
    ensures SameWraps(Market.Settle(ts, buyer, seller, quantity, price, maxPrice, false, false),
                      Market.Settle(ts, buyer, seller, quantity, price, maxPrice, buyGone, sellGone))
  {
    var ts3 := Market.Settle(ts, buyer, seller, quantity, price, maxPrice, false, false);
    PaymentsKeep(ts, buyer, seller, quantity, price, maxPrice);
    UnrefWraps(ts3, buyer, buyGone);
    UnrefWraps(UnrefIf(ts3, buyer, buyGone), seller, sellGone);
  }

  /** A trade wraps a balance, or an inventory, exactly when its guard fails. */
  lemma TradeWraps(b: Bourse, i: nat, j: nat)
    requires Sound(b) && Matches(b, i, j)
    ensures Live(b.ts, b.buys[i].trader) && Live(b.ts, b.sells[j].trader)
    ensures NoBalanceWrapped(Trade(b, i, j).ts) <==> NoBalanceWrapped(b.ts) && TradeFundsFit(b, i, j)
    ensures NoInventoryWrapped(Trade(b, i, j).ts) <==> NoInventoryWrapped(b.ts) && TradeGoodsFit(b, i, j)
  {
    hide Sound, NoBalanceWrapped, NoInventoryWrapped, Market.Settle, SameWraps, Fits, Cost;
    OwnersLive(b, i, j);
    PairHoldsRefs(b, i, j);
    var buy, sell := b.buys[i], b.sells[j];
    var price := Clamp(b.last, sell.price, buy.price);
    var q := Min(buy.quantity, sell.quantity);
    PaymentsWrap(b.ts, buy.trader, sell.trader, q, price, buy.price);
    SettleWraps(b.ts, buy.trader, sell.trader, q, price, buy.price, q == buy.quantity, q == sell.quantity);
    SameWrapsAre(Market.Settle(b.ts, buy.trader, sell.trader, q, price, buy.price, false, false), Trade(b, i, j).ts);
  }

  /** What a request credits to the balance of its trader: a deposit, or the rest of a canceled buy. */
  function FundsCredited(b: Bourse, who: nat, r: Request): nat
  {
    match r
    case DepositPacket(amount) => amount
    case CancelPacket(id) =>
      var i := FindFirst(b.buys, PostedBy(id, who));
      if i != -1 then Cost(b.buys[i].quantity, b.buys[i].price) else 0
    case _ => 0
  }

  /** What a request credits to the inventory: an escrow, or the rest of a canceled sell. */
  function GoodsCredited(b: Bourse, who: nat, r: Request): nat
  {
    match r
    case EscrowPacket(quantity) => quantity
    case CancelPacket(id) =>
      var i, j := FindFirst(b.buys, PostedBy(id, who)), FindFirst(b.sells, PostedBy(id, who));
      if i == -1 && j != -1 then b.sells[j].quantity else 0
    case _ => 0
  }

  lemma DebitWraps(ts: Traders, k: nat, amount: nat)
    requires Live(ts, k)
    ensures SameWraps(ts, DecreaseBalance(ts, k, amount).0) && SameWraps(ts, DecreaseInventory(ts, k, amount).0)
    ensures var (paid, ok) := DecreaseBalance(ts, k, amount); Live(paid, k) && SameWraps(ts, Accounts.Ref(paid, k))
    ensures var (paid, ok) := DecreaseInventory(ts, k, amount); Live(paid, k) && SameWraps(ts, Accounts.Ref(paid, k))
    ensures SameWraps(ts, ts)
  {
  }

  lemma RefundWraps(ts: Traders, k: nat, amount: nat)
    requires Live(ts, k) && Acct(ts, k).ref != 1
    ensures SameWraps(IncreaseBalance(ts, k, amount), Unref(IncreaseBalance(ts, k, amount), k))
    ensures SameWraps(IncreaseInventory(ts, k, amount), Unref(IncreaseInventory(ts, k, amount), k))
  {
  }

  /** The state in which nothing is credited yet keeps what it has. */
  lemma NothingCredited(ts: Traders, k: nat)
    requires Live(ts, k)
    ensures Fits(Acct(ts, k).balance, 0) && Fits(Acct(ts, k).inventory, 0)
  {
  }

  lemma CancelWraps(b: Bourse, who: nat, id: nat)
    requires Sound(b) && Live(b.ts, who) && id < 0x1_0000_0000
    ensures var ts', a := Cancel(b, who, id).0.ts, Acct(b.ts, who);
      && (NoBalanceWrapped(ts') <==> NoBalanceWrapped(b.ts) && Fits(a.balance, FundsCredited(b, who, CancelPacket(id))))
      && (NoInventoryWrapped(ts') <==>
            NoInventoryWrapped(b.ts) && Fits(a.inventory, GoodsCredited(b, who, CancelPacket(id))))
  {
    hide Sound, NoBalanceWrapped, NoInventoryWrapped, SameWraps, Fits, Cost, IncreaseBalance, IncreaseInventory, Unref;
    NothingCredited(b.ts, who);
    var i, j := FindFirst(b.buys, PostedBy(id, who)), FindFirst(b.sells, PostedBy(id, who));
    if i != -1 {
      var amount := Cost(b.buys[i].quantity, b.buys[i].price);
      OrderHoldsRef(b, who, b.buys, i);
      FundsCredit(b.ts, who, amount);
      RefundWraps(b.ts, who, amount);
      SameWrapsAre(IncreaseBalance(b.ts, who, amount), Cancel(b, who, id).0.ts);
    } else if j != -1 {
      OrderHoldsRef(b, who, b.sells, j);
      GoodsCredit(b.ts, who, b.sells[j].quantity);
      RefundWraps(b.ts, who, b.sells[j].quantity);
      SameWrapsAre(IncreaseInventory(b.ts, who, b.sells[j].quantity), Cancel(b, who, id).0.ts);
    }
  }

  /** A request wraps a balance, or an inventory, exactly when what it credits does not fit. */
  lemma RequestWraps(b: Bourse, who: nat, r: Request)
    requires Sound(b) && Live(b.ts, who)
    ensures var ts', a := HandleLoggedIn(b, who, r).b.ts, Acct(b.ts, who);
      && (NoBalanceWrapped(ts') <==> NoBalanceWrapped(b.ts) && Fits(a.balance, FundsCredited(b, who, r)))
      && (NoInventoryWrapped(ts') <==> NoInventoryWrapped(b.ts) && Fits(a.inventory, GoodsCredited(b, who, r)))
  {
    hide Sound, NoBalanceWrapped, NoInventoryWrapped, SameWraps, Fits, IncreaseBalance, IncreaseInventory,
         DecreaseBalance, DecreaseInventory, Accounts.Ref, Cancel;
    NothingCredited(b.ts, who);
    var ts' := HandleLoggedIn(b, who, r).b.ts;
    match r
    case DepositPacket(amount) => FundsCredit(b.ts, who, amount);
    case EscrowPacket(quantity) => GoodsCredit(b.ts, who, quantity);
    case CancelPacket(id) => CancelWraps(b, who, id);
    case WithdrawPacket(amount) => DebitWraps(b.ts, who, amount); SameWrapsAre(b.ts, ts');
    case ReleasePacket(quantity) => DebitWraps(b.ts, who, quantity); SameWrapsAre(b.ts, ts');
    case BuyPacket(quantity, price) => DebitWraps(b.ts, who, Cost(quantity, price)); SameWrapsAre(b.ts, ts');
    case SellPacket(quantity, price) => DebitWraps(b.ts, who, quantity); SameWrapsAre(b.ts, ts');
    case _ =>
  }

  lemma SessionWraps(b: Bourse, fd: int, name: string)
    ensures SameWraps(b.ts, LogIn(b, fd, name).0.ts)
  {
  }

  lemma LogOutWraps(b: Bourse, k: nat)
    requires Sound(b) && Live(b.ts, k) && Acct(b.ts, k).fd != -1
    ensures SameWraps(b.ts, LogOut(b, k).ts)
  {
    hide Sound, Accounts.Logout;
    NeverRemoved(b, k);
    LogoutIs(b.ts, k);
  }

  // ---- One step of the server, and its runs ----

  /** The guard of a step, read before it: the credits it makes to balances fit. */
  ghost predicate FundsFit(s: System, step: Step)
    requires |s.who| == |s.reg.pcs| == |s.reg.conns| && Ready(s, step)
  {
    match step
    case Threads(a, r) =>
      Receives(s.reg, a) && Live(s.b.ts, s.who[a.t]) ==>
        Fits(Acct(s.b.ts, s.who[a.t]).balance, FundsCredited(s.b, s.who[a.t], r))
    case Match(i, j) =>
      Live(s.b.ts, s.b.buys[i].trader) && Live(s.b.ts, s.b.sells[j].trader) ==> TradeFundsFit(s.b, i, j)
  }

  /** The same for inventories. */
  ghost predicate GoodsFit(s: System, step: Step)
    requires |s.who| == |s.reg.pcs| == |s.reg.conns| && Ready(s, step)
  {
    match step
    case Threads(a, r) =>
      Receives(s.reg, a) && Live(s.b.ts, s.who[a.t]) ==>
        Fits(Acct(s.b.ts, s.who[a.t]).inventory, GoodsCredited(s.b, s.who[a.t], r))
    case Match(i, j) => Live(s.b.ts, s.b.buys[i].trader) ==> TradeGoodsFit(s.b, i, j)
  }

  /** A packet handled for a thread. */
  lemma HandleWraps(b: Bourse, who: int, fd: int, r: Request)
    requires Sound(b) && (who == -1 || Live(b.ts, who))
    ensures var ts' := Handle(b, who, fd, r).b.ts;
      && (NoBalanceWrapped(ts') <==>
            NoBalanceWrapped(b.ts) && (who != -1 ==> Fits(Acct(b.ts, who).balance, FundsCredited(b, who, r))))
      && (NoInventoryWrapped(ts') <==>
            NoInventoryWrapped(b.ts) && (who != -1 ==> Fits(Acct(b.ts, who).inventory, GoodsCredited(b, who, r))))
  {
    hide Sound, NoBalanceWrapped, NoInventoryWrapped, SameWraps, Fits, HandleLoggedIn, LogIn;
    if who == -1 {
      if r.LoginPacket? {
        SessionWraps(b, fd, UpToNul(r.payload));
        SameWrapsAre(b.ts, LogIn(b, fd, UpToNul(r.payload)).0.ts);
      }
    } else {
      NothingCredited(b.ts, who);
      RequestWraps(b, who, r);
    }
  }

  /** A step of the server leaves no balance (no inventory) wrapped exactly when none was and its
      guard holds. */
  lemma StepWraps(s: System, step: Step, first: u32)
    requires Safe(s, first) && Ready(s, step)
    ensures NoBalanceWrapped(Next(s, step).b.ts) <==> NoBalanceWrapped(s.b.ts) && FundsFit(s, step)
    ensures NoInventoryWrapped(Next(s, step).b.ts) <==> NoInventoryWrapped(s.b.ts) && GoodsFit(s, step)
  {
    hide Sound, Inv, Tape.Truthful, NoBalanceWrapped, NoInventoryWrapped, SameWraps, Fits, Handle, Trade, LogOut, Apply,
         FundsCredited, GoodsCredited;
    match step
    case Match(i, j) => TradeWraps(s.b, i, j);
    case Threads(a, r) =>
      if Receives(s.reg, a) {
        HandleWraps(s.b, s.who[a.t], s.reg.conns[a.t].fd, r);
      } else if Leaves(s.reg, a) && s.who[a.t] != -1 {
        DescriptorsAreValid(s.reg, a.t);
        LogOutWraps(s.b, s.who[a.t]);
        SameWrapsAre(s.b.ts, LogOut(s.b, s.who[a.t]).ts);
      }
  }

  /** Every guard on a run held. */
  ghost predicate AllFundsFit(s: System, run: seq<Step>)
    requires |s.who| == |s.reg.pcs| == |s.reg.conns| && Runs(s, run)
    decreases |run|
  {
    run == [] || (FundsFit(s, run[0]) && AllFundsFit(Next(s, run[0]), run[1..]))
  }

  ghost predicate AllGoodsFit(s: System, run: seq<Step>)
    requires |s.who| == |s.reg.pcs| == |s.reg.conns| && Runs(s, run)
    decreases |run|
  {
    run == [] || (GoodsFit(s, run[0]) && AllGoodsFit(Next(s, run[0]), run[1..]))
  }

  lemma {:induction false} RunWraps(s: System, run: seq<Step>, first: u32)
    requires Safe(s, first) && Runs(s, run)
    ensures NoBalanceWrapped(End(s, run).b.ts) <==> NoBalanceWrapped(s.b.ts) && AllFundsFit(s, run)
    ensures NoInventoryWrapped(End(s, run).b.ts) <==> NoInventoryWrapped(s.b.ts) && AllGoodsFit(s, run)
    decreases |run|
  {
    hide Sound, Tape.Truthful, Inv, Next, Ready, FundsFit, GoodsFit, NoBalanceWrapped, NoInventoryWrapped;
    if run != [] {
      StepWraps(s, run[0], first);
      StepSafe(s, run[0], first);
      RunWraps(Next(s, run[0]), run[1..], first);
    }
  }

  /** Main result, exact: after a run of the server funds (units) are conserved if and only if at every
      step of it the credits fitted the accounts as they were before the step. */
  lemma ConservedWhenCreditsFit(n: nat, first: u32, run: seq<Step>)
    requires Runs(Start(n, first), run)
    ensures var b := End(Start(n, first), run).b;
      && (Sum(b.ts.slots, Balance) + Sum(b.buys, Encumbered) == Sum(b.journal, FundsIn) <==>
            AllFundsFit(Start(n, first), run))
      && (Sum(b.ts.slots, Inventory) + Sum(b.sells, Quantity) == Sum(b.journal, GoodsIn) <==>
            AllGoodsFit(Start(n, first), run))
  {
    hide Sound, Tape.Truthful, Inv, Runs, End, AllFundsFit, AllGoodsFit;
    StartSafe(n, first);
    RunSafe(Start(n, first), run, first);
    RunWraps(Start(n, first), run, first);
    ConservedExactly(End(Start(n, first), run).b);
  }
}
