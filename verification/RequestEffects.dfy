/** What each acknowledged request does, field by field and in its own numbers: the account, the book
    and the history after it, said without the functions that compute them. */
module RequestEffects {
  import opened Accounts
  import opened Market
  import opened Ledger
  import opened MarketLaws
  import opened Service
  import opened Sums

  // ---- The effects ----

  /** Every trader but k is as before, and k keeps its name and its session. */
  ghost predicate OnlyAccount(ts: Traders, ts': Traders, k: nat)
  {
    && Live(ts, k) && Live(ts', k) && |ts'.slots| == |ts.slots| && ts'.count == ts.count
    && (forall s :: 0 <= s < |ts.slots| && s != k ==> ts'.slots[s] == ts.slots[s])
    && Acct(ts', k).name == Acct(ts, k).name && Acct(ts', k).fd == Acct(ts, k).fd
  }

  /** The account of k becomes these numbers; the book and the next order number become these. */
  ghost predicate Becomes(b: Bourse, b': Bourse, k: nat, balance: int, inventory: int, ref: int,
                          buys: seq<Order>, sells: seq<Order>, nextId: nat, e: Entry)
  {
    && OnlyAccount(b.ts, b'.ts, k)
    && Acct(b'.ts, k).balance == balance && Acct(b'.ts, k).inventory == inventory && Acct(b'.ts, k).ref == ref
    && b'.buys == buys && b'.sells == sells && b'.nextId == nextId && b'.last == b.last
    && b'.journal == b.journal + [e]
  }

  /** The orders with any other number, in their order. */
  function Without(orders: seq<Order>, id: nat): seq<Order>
  {
    if orders == [] then []
    else (if orders[0].id == id then [] else [orders[0]]) + Without(orders[1..], id)
  }

  ghost predicate BuyCanceled(b: Bourse, b': Bourse, who: nat, o: Order)
    requires Live(b.ts, who)
  {
    var a := Acct(b.ts, who);
    Becomes(b, b', who, (a.balance + o.quantity * o.price) % 0x1_0000_0000, a.inventory, a.ref - 1,
            Without(b.buys, o.id), b.sells, b.nextId, Canceled(Buy, o.id, who, o.quantity, o.price))
  }

  ghost predicate SellCanceled(b: Bourse, b': Bourse, who: nat, o: Order)
    requires Live(b.ts, who)
  {
    var a := Acct(b.ts, who);
    Becomes(b, b', who, a.balance, (a.inventory + o.quantity) % 0x1_0000_0000, a.ref - 1,
            b.buys, Without(b.sells, o.id), b.nextId, Canceled(Sell, o.id, who, o.quantity, o.price))
  }

  /** The whole effect of an acknowledged request. */
  ghost predicate RequestDone(b: Bourse, b': Bourse, who: nat, r: Request)
    requires Live(b.ts, who)
  {
    var a := Acct(b.ts, who);
    match r
    case DepositPacket(amount) =>
      Becomes(b, b', who, (a.balance + amount) % 0x1_0000_0000, a.inventory, a.ref,
              b.buys, b.sells, b.nextId, Deposited(who, amount))
    case WithdrawPacket(amount) =>
      Becomes(b, b', who, a.balance - amount, a.inventory, a.ref, b.buys, b.sells, b.nextId, Withdrew(who, amount))
    case EscrowPacket(quantity) =>
      Becomes(b, b', who, a.balance, (a.inventory + quantity) % 0x1_0000_0000, a.ref,
              b.buys, b.sells, b.nextId, Escrowed(who, quantity))
    case ReleasePacket(quantity) =>
      Becomes(b, b', who, a.balance, a.inventory - quantity, a.ref, b.buys, b.sells, b.nextId, Released(who, quantity))
    case BuyPacket(quantity, price) =>
      Becomes(b, b', who, a.balance - quantity * price, a.inventory, a.ref + 1,
              b.buys + [Order(b.nextId, who, quantity, price)], b.sells, b.nextId + 1,
              Posted(Buy, b.nextId, who, quantity, price))
    case SellPacket(quantity, price) =>
      Becomes(b, b', who, a.balance, a.inventory - quantity, a.ref + 1,
              b.buys, b.sells + [Order(b.nextId, who, quantity, price)], b.nextId + 1,
              Posted(Sell, b.nextId, who, quantity, price))
    case CancelPacket(id) =>
      || (exists o :: o in b.buys && o.id == id && o.trader == who && BuyCanceled(b, b', who, o))
      || (exists o :: o in b.sells && o.id == id && o.trader == who && SellCanceled(b, b', who, o))
    case _ => b' == b
  }

  // ---- Orders ----

  lemma {:induction false} WithoutNone(orders: seq<Order>, id: nat)
    requires forall i :: 0 <= i < |orders| ==> orders[i].id != id
    ensures Without(orders, id) == orders
  {
    if orders != [] {
      WithoutNone(orders[1..], id);
    }
  }

  /** Exactly the orders with another number stay. */
  lemma {:induction false} WithoutKeeps(orders: seq<Order>, id: nat, o: Order)
    ensures o in Without(orders, id) <==> o in orders && o.id != id
  {
    if orders != [] {
      WithoutKeeps(orders[1..], id, o);
      assert o in orders <==> o == orders[0] || o in orders[1..];
    }
  }

  /** Where numbers are distinct, taking out one position takes out one number. */
  lemma {:induction false} RemoveIsWithout(orders: seq<Order>, i: nat)
    requires i < |orders| && forall x, y :: 0 <= x < y < |orders| ==> orders[x].id != orders[y].id
    ensures Remove(orders, i) == Without(orders, orders[i].id)
  {
    if i == 0 {
      WithoutNone(orders[1..], orders[0].id);
      assert Remove(orders, 0) == orders[1..];
    } else {
      RemoveIsWithout(orders[1..], i - 1);
      assert Remove(orders, i) == [orders[0]] + Remove(orders[1..], i - 1);
    }
  }

  /** `exchange_cancel`: the order it takes is a pending one with that number and that trader, no order
      with that number is pending afterwards, every other one is, and the quantity returned is what
      was pending. */
  lemma CancelTakesTheOrder(b: Bourse, k: nat, id: nat) returns (o: Order)
    requires Sound(b) && Live(b.ts, k) && exists x :: (x in b.buys || x in b.sells) && x.id == id && x.trader == k
    ensures o.id == id && o.trader == k && Cancel(b, k, id).1 == Some(o.quantity as nat)
    ensures (o in b.buys && BuyCanceled(b, Cancel(b, k, id).0, k, o))
         || (o in b.sells && SellCanceled(b, Cancel(b, k, id).0, k, o))
    ensures var b' := Cancel(b, k, id).0; forall x :: x in b'.buys || x in b'.sells ==> x.id != id
    ensures var b' := Cancel(b, k, id).0;
      forall x: Order :: x.id != id ==> (x in b'.buys <==> x in b.buys) && (x in b'.sells <==> x in b.sells)
  {
    hide Sound, CancelBuy, CancelSell, BuyCanceled, SellCanceled, Without;
    NoneFound(b.buys, id, k);
    NoneFound(b.sells, id, k);
    var i, j := FindFirst(b.buys, PostedBy(id, k)), FindFirst(b.sells, PostedBy(id, k));
    if i != -1 {
      o := b.buys[i];
      CancelBuyEffect(b, k, i);
    } else {
      o := b.sells[j];
      CancelSellEffect(b, k, j);
    }
  }

  lemma RefundedBuy(ts: Traders, k: nat, o: Order)
    requires Live(ts, k) && Acct(ts, k).ref != 1
    ensures var ts' := Unref(IncreaseBalance(ts, k, Cost(o.quantity, o.price)), k);
      && OnlyAccount(ts, ts', k)
      && Acct(ts', k).balance == (Acct(ts, k).balance + o.quantity * o.price) % 0x1_0000_0000
      && Acct(ts', k).inventory == Acct(ts, k).inventory && Acct(ts', k).ref == Acct(ts, k).ref - 1
  {
    ProductIs(o.quantity, o.price);
    LowAndCarry(Acct(ts, k).balance + Cost(o.quantity, o.price));
  }

  lemma RefundedSell(ts: Traders, k: nat, o: Order)
    requires Live(ts, k) && Acct(ts, k).ref != 1
    ensures var ts' := Unref(IncreaseInventory(ts, k, o.quantity), k);
      && OnlyAccount(ts, ts', k)
      && Acct(ts', k).balance == Acct(ts, k).balance && Acct(ts', k).ref == Acct(ts, k).ref - 1
      && Acct(ts', k).inventory == (Acct(ts, k).inventory + o.quantity) % 0x1_0000_0000
  {
    LowAndCarry(Acct(ts, k).inventory + o.quantity);
  }

  lemma CancelBuyEffect(b: Bourse, k: nat, i: nat)
    requires Sound(b) && Live(b.ts, k) && i < |b.buys| && b.buys[i].trader == k
    ensures var o, b' := b.buys[i], CancelBuy(b, k, i);
      && BuyCanceled(b, b', k, o)
      && (forall x :: x in b'.buys || x in b'.sells ==> x.id != o.id)
      && (forall x: Order :: x.id != o.id ==> (x in b'.buys <==> x in b.buys) && (x in b'.sells <==> x in b.sells))
  {
    hide Even, Without, Remove, Unref, IncreaseBalance, Cost, OnlyAccount;
    var o := b.buys[i];
    OrderHoldsRef(b, k, b.buys, i);
    RefundedBuy(b.ts, k, o);
    RemoveIsWithout(b.buys, i);
    forall x
      ensures x in Without(b.buys, o.id) <==> x in b.buys && x.id != o.id
    {
      WithoutKeeps(b.buys, o.id, x);
    }
  }

  lemma CancelSellEffect(b: Bourse, k: nat, j: nat)
    requires Sound(b) && Live(b.ts, k) && j < |b.sells| && b.sells[j].trader == k
    ensures var o, b' := b.sells[j], CancelSell(b, k, j);
      && SellCanceled(b, b', k, o)
      && (forall x :: x in b'.buys || x in b'.sells ==> x.id != o.id)
      && (forall x: Order :: x.id != o.id ==> (x in b'.buys <==> x in b.buys) && (x in b'.sells <==> x in b.sells))
  {
    hide Even, Without, Remove, Unref, IncreaseInventory, OnlyAccount;
    var o := b.sells[j];
    OrderHoldsRef(b, k, b.sells, j);
    RefundedSell(b.ts, k, o);
    RemoveIsWithout(b.sells, j);
    forall x
      ensures x in Without(b.sells, o.id) <==> x in b.sells && x.id != o.id
    {
      WithoutKeeps(b.sells, o.id, x);
    }
  }

  /** The number a posting returns is the next one, or 0 exactly when it posts nothing. */
  lemma PostReturnsNumber(b: Bourse, k: nat, quantity: u32, price: u32)
    requires Sound(b) && Live(b.ts, k)
    ensures PostBuy(b, k, quantity, price).1 == if Acct(b.ts, k).balance < quantity * price then 0 else b.nextId
    ensures PostSell(b, k, quantity, price).1 == if Acct(b.ts, k).inventory < quantity then 0 else b.nextId
    ensures b.nextId != 0
  {
    hide Even;
    ProductIs(quantity, price);
  }

  // ---- Requests ----

  lemma CreditEffect(b: Bourse, who: nat, amount: u32)
    requires Live(b.ts, who)
    ensures RequestDone(b, Deposit(b, who, amount), who, DepositPacket(amount))
    ensures RequestDone(b, Escrow(b, who, amount), who, EscrowPacket(amount))
  {
    LowAndCarry(Acct(b.ts, who).balance + amount);
    LowAndCarry(Acct(b.ts, who).inventory + amount);
  }

  lemma DebitEffect(b: Bourse, who: nat, amount: u32)
    requires Live(b.ts, who)
    ensures Withdraw(b, who, amount).1 ==> RequestDone(b, Withdraw(b, who, amount).0, who, WithdrawPacket(amount))
    ensures Release(b, who, amount).1 ==> RequestDone(b, Release(b, who, amount).0, who, ReleasePacket(amount))
  {
  }

  lemma BuyEffect(b: Bourse, who: nat, quantity: u32, price: u32)
    requires Live(b.ts, who) && quantity * price <= Acct(b.ts, who).balance
    ensures RequestDone(b, PostBuy(b, who, quantity, price).0, who, BuyPacket(quantity, price))
  {
    ProductIs(quantity, price);
  }

  lemma SellEffect(b: Bourse, who: nat, quantity: u32, price: u32)
    requires Live(b.ts, who) && quantity <= Acct(b.ts, who).inventory
    ensures RequestDone(b, PostSell(b, who, quantity, price).0, who, SellPacket(quantity, price))
  {
  }

  /** Main result: a request of a logged-in client that is not refused has exactly the effect that its
      own fields say, on its trader's account, the book and the history, and on nothing else. */
  lemma AcknowledgedEffect(b: Bourse, who: nat, fd: int, r: Request)
    requires Sound(b) && Live(b.ts, who) && !Refusable(b, who, r)
    ensures RequestDone(b, Handle(b, who, fd, r).b, who, r)
  {
    hide Sound, RequestDone, Deposit, Withdraw, Escrow, Release, PostBuy, PostSell, Cancel;
    match r
    case DepositPacket(amount) => CreditEffect(b, who, amount);
    case EscrowPacket(quantity) => CreditEffect(b, who, quantity);
    case WithdrawPacket(amount) => WithdrawSucceeds(b, who, amount); DebitEffect(b, who, amount);
    case ReleasePacket(quantity) => WithdrawSucceeds(b, who, quantity); DebitEffect(b, who, quantity);
    case BuyPacket(quantity, price) => BuyEffect(b, who, quantity, price);
    case SellPacket(quantity, price) => SellEffect(b, who, quantity, price);
    case CancelPacket(id) => CancelEffect(b, who, id);
    case _ => NoEffect(b, r, who);
  }

  lemma WithdrawSucceeds(b: Bourse, who: nat, amount: u32)
    requires Live(b.ts, who)
    ensures Withdraw(b, who, amount).1 <==> amount <= Acct(b.ts, who).balance
    ensures Release(b, who, amount).1 <==> amount <= Acct(b.ts, who).inventory
  {
  }

  lemma CancelEffect(b: Bourse, who: nat, id: u32)
    requires Sound(b) && Live(b.ts, who) && !Refusable(b, who, CancelPacket(id))
    ensures RequestDone(b, Cancel(b, who, id).0, who, CancelPacket(id))
  {
    hide Sound, Cancel, BuyCanceled, SellCanceled;
    var o := CancelTakesTheOrder(b, who, id);
  }

  lemma NoEffect(b: Bourse, r: Request, who: nat)
    requires Live(b.ts, who) && (r.LoginPacket? || r.StatusPacket? || r.OtherPacket?)
    ensures RequestDone(b, b, who, r) && HandleLoggedIn(b, who, r).b == b
  {
  }

  // ---- Logins and logouts ----

  /** Every trader that was in the map, but k, is as before. */
  ghost predicate OthersStay(ts: Traders, ts': Traders, k: int)
  {
    |ts'.slots| == |ts.slots| && forall s :: 0 <= s < |ts.slots| && s != k ==> ts'.slots[s] == ts.slots[s]
  }

  /** What an acknowledged login does: the account with the name in the payload gets this session and one
      reference more; a new one starts empty, with two. */
  lemma LoginEffect(b: Bourse, fd: int, payload: string)
    requires Sound(b) && 0 <= fd
    ensures var o, name := Handle(b, -1, fd, LoginPacket(payload)), UpToNul(payload);
      && o.b.buys == b.buys && o.b.sells == b.sells && o.b.nextId == b.nextId && o.b.last == b.last
      && (o.who != -1 ==>
            && OthersStay(b.ts, o.b.ts, o.who) && Live(o.b.ts, o.who) && Acct(o.b.ts, o.who).name == name
            && o.b.journal == b.journal + [LoggedIn(o.who)]
            && (if Live(b.ts, o.who) then
                  var a := Acct(b.ts, o.who); Acct(o.b.ts, o.who) == a.(fd := fd, ref := a.ref + 1)
                else Acct(o.b.ts, o.who) == Account(name, 2, fd, 0, 0, 0, 0)))
  {
    hide Even;
    var name := UpToNul(payload);
    var known := FindFirst(b.ts.slots, Named(name));
    if known == -1 {
      FreshLogin(b.ts, fd, name);
    } else if Acct(b.ts, known).fd == -1 {
      ReloginIs(b.ts, known, fd, name);
    }
  }

  lemma LogoutEffect(b: Bourse, k: nat)
    requires Sound(b) && Live(b.ts, k) && Acct(b.ts, k).fd != -1
    ensures var b', a := LogOut(b, k), Acct(b.ts, k);
      && OthersStay(b.ts, b'.ts, k) && Live(b'.ts, k) && Acct(b'.ts, k) == a.(fd := -1, ref := a.ref - 1)
      && b'.buys == b.buys && b'.sells == b.sells && b'.nextId == b.nextId && b'.last == b.last
      && b'.journal == b.journal + [LoggedOut(k)]
  {
    hide Even;
    NeverRemoved(b, k);
    LogoutIs(b.ts, k);
  }

  // ---- Trades ----

  /** Adding to a 32-bit field twice. */
  lemma LowTwice(x: u32, y: nat, z: nat)
    ensures Low(Low(x + y) + z) == (x + y + z) % 0x1_0000_0000
  {
    LowAndCarry(x + y);
    LowAndCarry(Low(x + y) + z);
    var c := Carry(x + y);
    assert x + y + z == Low(x + y) + z + 0x1_0000_0000 * c;
  }

  /** An account after a trade: proceeds if it sold, units and the difference to its limit if it bought, and
      a reference less for each of its orders that the trade finished. */
  ghost predicate Settled(a: Account, a': Account, bought: bool, sold: bool,
                          quantity: nat, price: nat, maxPrice: nat, gone: nat)
    requires price <= maxPrice
  {
    && a'.name == a.name && a'.fd == a.fd && a'.ref == a.ref - gone
    && a'.balance ==
         (a.balance + If(sold, quantity * price) + If(bought, quantity * (maxPrice - price))) % 0x1_0000_0000
    && a'.inventory == (a.inventory + If(bought, quantity)) % 0x1_0000_0000
  }

  /** Two credits that may or may not be made. */
  function Credited(x: u32, first: bool, y: nat, second: bool, z: nat): u32
  {
    var once: u32 := if first then Low(x + y) else x;
    if second then Low(once + z) else once
  }

  lemma CreditedIs(x: u32, first: bool, y: nat, second: bool, z: nat)
    ensures Credited(x, first, y, second, z) == (x + If(first, y) + If(second, z)) % 0x1_0000_0000
  {
    LowTwice(x, y, z);
    LowAndCarry(x + y);
    LowAndCarry(x + z);
  }

  /** The three payments of a trade, seen from one account. */
  lemma PaymentsOf(ts: Traders, buyer: nat, seller: nat, quantity: u32, price: u32, maxPrice: u32, k: nat)
    requires Live(ts, buyer) && Live(ts, seller) && Live(ts, k) && price <= maxPrice
    ensures var ts' := Settle(ts, buyer, seller, quantity, price, maxPrice, false, false);
      && Live(ts', k)
      && var a, a' := Acct(ts, k), Acct(ts', k);
         && a'.name == a.name && a'.fd == a.fd && a'.ref == a.ref
         && a'.balance ==
              Credited(a.balance, k == seller, Cost(quantity, price), k == buyer, Cost(quantity, maxPrice - price))
         && a'.inventory == Credited(a.inventory, k == buyer, quantity, false, 0)
  {
    hide Cost, Low, Carry;
  }

  lemma PaymentsEffect(ts: Traders, buyer: nat, seller: nat, quantity: u32, price: u32, maxPrice: u32, k: nat)
    requires Live(ts, buyer) && Live(ts, seller) && Live(ts, k) && price <= maxPrice
    ensures var ts' := Settle(ts, buyer, seller, quantity, price, maxPrice, false, false);
      Live(ts', k) && Settled(Acct(ts, k), Acct(ts', k), k == buyer, k == seller, quantity, price, maxPrice, 0)
  {
    hide Cost, Credited, Settle;
    PaymentsOf(ts, buyer, seller, quantity, price, maxPrice, k);
    CostIs(quantity, price);
    CostIs(quantity, maxPrice - price);
    var a := Acct(ts, k);
    CreditedIs(a.balance, k == seller, Cost(quantity, price), k == buyer, Cost(quantity, maxPrice - price));
    CreditedIs(a.inventory, k == buyer, quantity, false, 0);
  }

  lemma ReleasesOf(ts: Traders, buyer: nat, seller: nat, quantity: u32, price: u32, maxPrice: u32,
                   buyGone: bool, sellGone: bool, k: nat)
    requires Live(ts, buyer) && Live(ts, seller) && Live(ts, k) && price <= maxPrice
    requires var same := If(buyer == seller, 1); Acct(ts, buyer).ref > 1 + same && Acct(ts, seller).ref > 1 + same
    ensures var ts3 := Settle(ts, buyer, seller, quantity, price, maxPrice, false, false);
      var ts' := Settle(ts, buyer, seller, quantity, price, maxPrice, buyGone, sellGone);
      && Live(ts3, k) && Live(ts', k)
      && Acct(ts', k) == Acct(ts3, k).(ref := Acct(ts3, k).ref - Gone(k == buyer && buyGone, k == seller && sellGone))
  {
    hide Cost, IncreaseBalance, IncreaseInventory;
    PaymentsKeep(ts, buyer, seller, quantity, price, maxPrice);
  }

  function Gone(bought: bool, sold: bool): nat
  {
    (if bought then 1 else 0) + (if sold then 1 else 0)
  }

  /** Main result: a trade, field by field, for every trader: the buyer, the seller, one trader in both
      parts, and every other one. The quantity is the smaller one, the price the last one cut to the
      limits; both orders lose the quantity, and go when nothing is left. */
  lemma TradeEffect(b: Bourse, i: nat, j: nat, k: nat)
    requires Sound(b) && Matches(b, i, j) && Live(b.ts, k)
    ensures var b', buy, sell := Trade(b, i, j), b.buys[i], b.sells[j];
      var q := if buy.quantity <= sell.quantity then buy.quantity else sell.quantity;
      var price := if b.last < sell.price then sell.price else if b.last > buy.price then buy.price else b.last;
      && Live(b'.ts, k)
      && Settled(Acct(b.ts, k), Acct(b'.ts, k), k == buy.trader, k == sell.trader, q, price, buy.price,
                 Gone(k == buy.trader && q == buy.quantity, k == sell.trader && q == sell.quantity))
      && b'.last == price && b'.nextId == b.nextId
      && b'.buys ==
           (if q == buy.quantity then Without(b.buys, buy.id)
            else b.buys[i := buy.(quantity := buy.quantity - q)])
      && b'.sells ==
           (if q == sell.quantity then Without(b.sells, sell.id)
            else b.sells[j := sell.(quantity := sell.quantity - q)])
      && b'.journal ==
           b.journal + [Traded(buy.id, sell.id, buy.trader, sell.trader, q, price, buy.price, sell.price)]
  {
    hide Even, Settle, Without, Remove, Settled, Gone;
    OwnersLive(b, i, j);
    PairHoldsRefs(b, i, j);
    var buy, sell := b.buys[i], b.sells[j];
    var q, price := Min(buy.quantity, sell.quantity), Clamp(b.last, sell.price, buy.price);
    PaymentsEffect(b.ts, buy.trader, sell.trader, q, price, buy.price, k);
    ReleasesOf(b.ts, buy.trader, sell.trader, q, price, buy.price, q == buy.quantity, q == sell.quantity, k);
    SettledLess(Acct(b.ts, k), Acct(Settle(b.ts, buy.trader, sell.trader, q, price, buy.price, false, false), k),
                k == buy.trader, k == sell.trader, q, price, buy.price,
                Gone(k == buy.trader && q == buy.quantity, k == sell.trader && q == sell.quantity));
    RemoveIsWithout(b.buys, i);
    RemoveIsWithout(b.sells, j);
  }

  lemma SettledLess(a: Account, a': Account, bought: bool, sold: bool,
                    quantity: nat, price: nat, maxPrice: nat, gone: nat)
    requires price <= maxPrice && Settled(a, a', bought, sold, quantity, price, maxPrice, 0)
    ensures Settled(a, a'.(ref := a'.ref - gone), bought, sold, quantity, price, maxPrice, gone)
  {
  }

  lemma CostIs(quantity: nat, price: nat)
    ensures Cost(quantity, price) == quantity * price
  {
    ProductIs(quantity, price);
  }
}
