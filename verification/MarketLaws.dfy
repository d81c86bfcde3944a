/** What every operation of the exchange keeps: the shape of map and book, even books for every
    trader and order, and a history in which every trade can be traced to its two postings. */
module MarketLaws {
  import opened Accounts
  import opened Market
  import opened Ledger
  import opened Sums

  // ---- The invariant ----

  ghost predicate Orderly(orders: seq<Order>, ts: Traders, nextId: nat)
  {
    && (forall i :: 0 <= i < |orders| ==> 1 <= orders[i].id < nextId && Live(ts, orders[i].trader))
    && (forall i, j :: 0 <= i < j < |orders| ==> orders[i].id != orders[j].id)
  }

  ghost predicate Apart(buys: seq<Order>, sells: seq<Order>)
  {
    forall i, j :: 0 <= i < |buys| && 0 <= j < |sells| ==> buys[i].id != sells[j].id
  }

  ghost predicate Shaped(b: Bourse)
  {
    && Packed(b.ts) && 1 <= b.nextId
    && Orderly(b.buys, b.ts, b.nextId) && Orderly(b.sells, b.ts, b.nextId) && Apart(b.buys, b.sells)
  }

  /** Shape and bookkeeping. */
  ghost predicate Sound(b: Bourse)
  {
    Shaped(b) && forall k: nat, id: nat :: Even(b, k, id)
  }

  /** Pending orders belong to traders in the map. */
  lemma OwnersLive(b: Bourse, i: nat, j: nat)
    requires Sound(b) && i < |b.buys| && j < |b.sells|
    ensures Live(b.ts, b.buys[i].trader) && Live(b.ts, b.sells[j].trader)
  {
  }

  lemma OpeningEven(first: u32, k: nat, id: nat)
    ensures Even(Opening(first), k, id)
  {
    SumConst(NoTraders().slots, 0, TrueBalance);
    SumConst(NoTraders().slots, 0, TrueInventory);
  }

  lemma OpeningSound(first: u32)
    ensures Sound(Opening(first))
  {
    hide Even;
    forall k: nat, id: nat
      ensures Even(Opening(first), k, id)
    {
      OpeningEven(first, k, id);
    }
  }

  /** Every reference is owned: the map, the session, one per pending order, and one per refused
      login (taken when the known name was found, and never given back). */
  lemma RefAccounting(b: Bourse, k: nat)
    requires Sound(b) && Live(b.ts, k)
    ensures Acct(b.ts, k).ref == 1 + (if Acct(b.ts, k).fd != -1 then 1 else 0)
      + Sum(b.buys, HeldBy(k)) + Sum(b.sells, HeldBy(k)) + Sum(b.journal, RefusedOf(k))
  {
    assert Even(b, k, 0);
  }

  lemma RefsCover(b: Bourse, k: nat, held: int)
    requires Sound(b) && Live(b.ts, k)
    requires held <= Sum(b.buys, HeldBy(k)) + Sum(b.sells, HeldBy(k))
    ensures 1 + held + (if Acct(b.ts, k).fd != -1 then 1 else 0) <= Acct(b.ts, k).ref
  {
    RefAccounting(b, k);
    SumNonNeg(b.journal, RefusedOf(k));
  }

  /** `removeTraderIfEmpty` never removes: the count never reaches zero. */
  lemma NeverRemoved(b: Bourse, k: nat)
    requires Sound(b) && Live(b.ts, k)
    ensures 1 <= Acct(b.ts, k).ref && (Acct(b.ts, k).fd != -1 ==> 2 <= Acct(b.ts, k).ref)
  {
    SumNonNeg(b.buys, HeldBy(k));
    SumNonNeg(b.sells, HeldBy(k));
    RefsCover(b, k, 0);
  }

  lemma OrderHoldsRef(b: Bourse, k: nat, orders: seq<Order>, i: nat)
    requires Sound(b) && Live(b.ts, k) && (orders == b.buys || orders == b.sells)
    requires i < |orders| && orders[i].trader == k
    ensures 2 <= Acct(b.ts, k).ref
  {
    SumNonNeg(b.buys, HeldBy(k));
    SumNonNeg(b.sells, HeldBy(k));
    SumAtLeast(orders, i, HeldBy(k));
    RefsCover(b, k, 1);
  }

  lemma PairHoldsRefs(b: Bourse, i: nat, j: nat)
    requires Sound(b) && i < |b.buys| && j < |b.sells|
    ensures var buyer, seller := b.buys[i].trader, b.sells[j].trader;
      var same := If(buyer == seller, 1);
      Acct(b.ts, buyer).ref > 1 + same && Acct(b.ts, seller).ref > 1 + same
  {
    var buyer, seller := b.buys[i].trader, b.sells[j].trader;
    OrderHoldsRef(b, buyer, b.buys, i);
    OrderHoldsRef(b, seller, b.sells, j);
    if buyer == seller {
      SumAtLeast(b.buys, i, HeldBy(buyer));
      SumAtLeast(b.sells, j, HeldBy(buyer));
      RefsCover(b, buyer, 2);
    }
  }

  // ---- Shape ----

  /** Same slots in use, under the same names. */
  ghost predicate SameNames(ts: Traders, ts': Traders)
  {
    && |ts'.slots| == |ts.slots| && ts'.count == ts.count
    && forall s :: 0 <= s < |ts.slots| ==>
         && ts'.slots[s].Some? == ts.slots[s].Some?
         && (ts.slots[s].Some? ==> ts'.slots[s].value.name == ts.slots[s].value.name)
  }

  lemma SameNamesKeepShape(b: Bourse, b': Bourse)
    requires Shaped(b) && SameNames(b.ts, b'.ts)
    requires b'.buys == b.buys && b'.sells == b.sells && b'.nextId == b.nextId
    ensures Shaped(b')
  {
  }

  /** A list whose orders all come from another, in the same order, filled or not. */
  lemma FillOrderly(orders: seq<Order>, i: nat, q: u32, ts: Traders, nextId: nat)
    requires Orderly(orders, ts, nextId) && i < |orders| && q <= orders[i].quantity
    ensures Orderly(Fill(orders, i, q), ts, nextId)
    ensures forall x :: 0 <= x < |Fill(orders, i, q)| ==>
      exists y :: 0 <= y < |orders| && Fill(orders, i, q)[x].id == orders[y].id
  {
    var f := Fill(orders, i, q);
    if q == orders[i].quantity {
      assert forall x :: 0 <= x < |f| ==> f[x] == orders[if x < i then x else x + 1];
    } else {
      assert forall x :: 0 <= x < |f| ==> f[x].id == orders[x].id;
    }
  }

  lemma FillApart(buys: seq<Order>, i: nat, q: u32, sells: seq<Order>)
    requires i < |buys| && q <= buys[i].quantity
    ensures Apart(buys, sells) ==> Apart(Fill(buys, i, q), sells)
    ensures Apart(sells, buys) ==> Apart(sells, Fill(buys, i, q))
  {
    var f := Fill(buys, i, q);
    if q == buys[i].quantity {
      assert forall x :: 0 <= x < |f| ==> f[x] == buys[if x < i then x else x + 1];
    } else {
      assert forall x :: 0 <= x < |f| ==> f[x].id == buys[x].id;
    }
  }

  lemma OrderlyElsewhere(orders: seq<Order>, ts: Traders, ts': Traders, nextId: nat)
    requires Orderly(orders, ts, nextId) && SameNames(ts, ts')
    ensures Orderly(orders, ts', nextId)
  {
  }

  /** A list with a new order at its end, or as it was, under a greater next number. */
  lemma OrderlyWith(orders: seq<Order>, o: Order, ts: Traders, ts': Traders, nextId: nat)
    requires Orderly(orders, ts, nextId) && SameNames(ts, ts') && o.id == nextId && 1 <= nextId && Live(ts, o.trader)
    ensures Orderly(orders + [o], ts', nextId + 1) && Orderly(orders, ts', nextId + 1)
  {
  }

  lemma ApartWith(orders: seq<Order>, others: seq<Order>, o: Order, ts: Traders)
    requires Apart(orders, others) && Orderly(others, ts, o.id)
    ensures Apart(orders + [o], others)
  {
  }

  lemma ApartFlipped(x: seq<Order>, y: seq<Order>)
    ensures Apart(x, y) <==> Apart(y, x)
  {
  }

  lemma PostKeepsShape(b: Bourse, b': Bourse, o: Order)
    requires Shaped(b) && SameNames(b.ts, b'.ts) && o.id == b.nextId && Live(b.ts, o.trader)
    requires b'.nextId == b.nextId + 1
    requires (b'.buys == b.buys + [o] && b'.sells == b.sells) || (b'.buys == b.buys && b'.sells == b.sells + [o])
    ensures Shaped(b')
  {
    hide Orderly, Apart;
    OrderlyWith(b.buys, o, b.ts, b'.ts, b.nextId);
    OrderlyWith(b.sells, o, b.ts, b'.ts, b.nextId);
    ApartFlipped(b.sells, b.buys);
    ApartWith(b.buys, b.sells, o, b.ts);
    ApartWith(b.sells, b.buys, o, b.ts);
    ApartFlipped(b.sells + [o], b.buys);
  }

  // ---- Every operation keeps the invariant ----

  lemma AccountsSound(b: Bourse, b': Bourse)
    requires Sound(b) && SameNames(b.ts, b'.ts) && b'.buys == b.buys && b'.sells == b.sells && b'.nextId == b.nextId
    requires forall k: nat, id: nat :: Even(b', k, id)
    ensures Sound(b')
  {
    hide Even;
    SameNamesKeepShape(b, b');
  }

  lemma DepositSound(b: Bourse, s: nat, amount: u32)
    requires Sound(b) && Live(b.ts, s)
    ensures Sound(Deposit(b, s, amount)) && Sound(Escrow(b, s, amount))
  {
    hide Even;
    forall k: nat, id: nat
      ensures Even(Deposit(b, s, amount), k, id) && Even(Escrow(b, s, amount), k, id)
    {
      DepositEven(b, s, amount, k, id);
    }
    AccountsSound(b, Deposit(b, s, amount));
    AccountsSound(b, Escrow(b, s, amount));
  }

  lemma WithdrawSound(b: Bourse, s: nat, amount: u32)
    requires Sound(b) && Live(b.ts, s)
    ensures Sound(Withdraw(b, s, amount).0) && Sound(Release(b, s, amount).0)
  {
    hide Even;
    forall k: nat, id: nat
      ensures Even(Withdraw(b, s, amount).0, k, id) && Even(Release(b, s, amount).0, k, id)
    {
      WithdrawEven(b, s, amount, k, id);
    }
    AccountsSound(b, Withdraw(b, s, amount).0);
    AccountsSound(b, Release(b, s, amount).0);
  }

  lemma PostBuySound(b: Bourse, s: nat, quantity: u32, price: u32)
    requires Sound(b) && Live(b.ts, s)
    ensures Sound(PostBuy(b, s, quantity, price).0)
  {
    hide Even;
    var b' := PostBuy(b, s, quantity, price).0;
    forall k: nat, id: nat
      ensures Even(b', k, id)
    {
      PostBuyEven(b, s, quantity, price, k, id);
    }
    if DecreaseBalance(b.ts, s, Cost(quantity, price)).1 {
      PostKeepsShape(b, b', Order(b.nextId, s, quantity, price));
    }
  }

  lemma PostSellSound(b: Bourse, s: nat, quantity: u32, price: u32)
    requires Sound(b) && Live(b.ts, s)
    ensures Sound(PostSell(b, s, quantity, price).0)
  {
    hide Even;
    var b' := PostSell(b, s, quantity, price).0;
    forall k: nat, id: nat
      ensures Even(b', k, id)
    {
      PostSellEven(b, s, quantity, price, k, id);
    }
    if DecreaseInventory(b.ts, s, quantity).1 {
      PostKeepsShape(b, b', Order(b.nextId, s, quantity, price));
    }
  }

  lemma CancelBuySound(b: Bourse, s: nat, oid: nat)
    requires Sound(b) && Live(b.ts, s) && FindFirst(b.buys, PostedBy(oid, s)) != -1
    ensures Sound(Cancel(b, s, oid).0)
  {
    hide Even;
    var i := FindFirst(b.buys, PostedBy(oid, s));
    var b' := Cancel(b, s, oid).0;
    OrderHoldsRef(b, s, b.buys, i);
    forall k: nat, id: nat
      ensures Even(b', k, id)
    {
      CancelBuyEven(b, s, oid, k, id);
    }
    FillOrderly(b.buys, i, b.buys[i].quantity, b.ts, b.nextId);
    FillApart(b.buys, i, b.buys[i].quantity, b.sells);
    assert SameNames(b.ts, b'.ts);
    OrderlyElsewhere(b'.buys, b.ts, b'.ts, b.nextId);
    OrderlyElsewhere(b.sells, b.ts, b'.ts, b.nextId);
  }

  lemma CancelSellSound(b: Bourse, s: nat, oid: nat)
    requires Sound(b) && Live(b.ts, s)
    requires FindFirst(b.buys, PostedBy(oid, s)) == -1 && FindFirst(b.sells, PostedBy(oid, s)) != -1
    ensures Sound(Cancel(b, s, oid).0)
  {
    hide Even;
    var i := FindFirst(b.sells, PostedBy(oid, s));
    var b' := Cancel(b, s, oid).0;
    OrderHoldsRef(b, s, b.sells, i);
    forall k: nat, id: nat
      ensures Even(b', k, id)
    {
      CancelSellEven(b, s, oid, k, id);
    }
    FillOrderly(b.sells, i, b.sells[i].quantity, b.ts, b.nextId);
    FillApart(b.sells, i, b.sells[i].quantity, b.buys);
    assert SameNames(b.ts, b'.ts);
    OrderlyElsewhere(b'.sells, b.ts, b'.ts, b.nextId);
    OrderlyElsewhere(b.buys, b.ts, b'.ts, b.nextId);
  }

  lemma CancelSound(b: Bourse, s: nat, oid: nat)
    requires Sound(b) && Live(b.ts, s)
    ensures Sound(Cancel(b, s, oid).0)
  {
    hide Even;
    if FindFirst(b.buys, PostedBy(oid, s)) != -1 {
      CancelBuySound(b, s, oid);
    } else if FindFirst(b.sells, PostedBy(oid, s)) != -1 {
      CancelSellSound(b, s, oid);
    }
  }

  lemma SettleKeepsNames(ts: Traders, buyer: nat, seller: nat, quantity: u32, price: u32, maxPrice: u32,
                         buyGone: bool, sellGone: bool)
    requires Live(ts, buyer) && Live(ts, seller) && price <= maxPrice
    requires var same := If(buyer == seller, 1); Acct(ts, buyer).ref > 1 + same && Acct(ts, seller).ref > 1 + same
    ensures SameNames(ts, Settle(ts, buyer, seller, quantity, price, maxPrice, buyGone, sellGone))
  {
    PaymentsKeep(ts, buyer, seller, quantity, price, maxPrice);
  }

  lemma TradeSound(b: Bourse, i: nat, j: nat)
    requires Sound(b) && Matches(b, i, j)
    ensures Sound(Trade(b, i, j))
  {
    hide Even;
    PairHoldsRefs(b, i, j);
    var b' := Trade(b, i, j);
    forall k: nat, id: nat
      ensures Even(b', k, id)
    {
      TradeEven(b, i, j, k, id);
    }
    TradeShape(b, i, j);
  }

  lemma TradeShape(b: Bourse, i: nat, j: nat)
    requires Shaped(b) && Matches(b, i, j)
    requires var same := If(b.buys[i].trader == b.sells[j].trader, 1);
      Acct(b.ts, b.buys[i].trader).ref > 1 + same && Acct(b.ts, b.sells[j].trader).ref > 1 + same
    ensures Shaped(Trade(b, i, j)) && SameNames(b.ts, Trade(b, i, j).ts)
  {
    var buy, sell := b.buys[i], b.sells[j];
    var price := Clamp(b.last, sell.price, buy.price);
    var q := Min(buy.quantity, sell.quantity);
    var b' := Trade(b, i, j);
    SettleKeepsNames(b.ts, buy.trader, sell.trader, q, price, buy.price, q == buy.quantity, q == sell.quantity);
    BookAfterTrade(b, i, j, q, b'.ts);
  }

  lemma BookAfterTrade(b: Bourse, i: nat, j: nat, q: u32, ts': Traders)
    requires Shaped(b) && i < |b.buys| && j < |b.sells| && q <= b.buys[i].quantity && q <= b.sells[j].quantity
    requires SameNames(b.ts, ts')
    ensures Shaped(b.(ts := ts', buys := Fill(b.buys, i, q), sells := Fill(b.sells, j, q)))
  {
    FillOrderly(b.buys, i, q, b.ts, b.nextId);
    FillOrderly(b.sells, j, q, b.ts, b.nextId);
    FillApart(b.buys, i, q, b.sells);
    FillApart(b.sells, j, q, Fill(b.buys, i, q));
    OrderlyElsewhere(Fill(b.buys, i, q), b.ts, ts', b.nextId);
    OrderlyElsewhere(Fill(b.sells, j, q), b.ts, ts', b.nextId);
  }

  lemma LogInSound(b: Bourse, fd: int, name: string)
    requires Sound(b) && 0 <= fd
    ensures Sound(LogIn(b, fd, name).0)
  {
    hide Even;
    var b' := LogIn(b, fd, name).0;
    forall k: nat, id: nat
      ensures Even(b', k, id)
    {
      LogInEven(b, fd, name, k, id);
    }
    if FindFirst(b.ts.slots, Named(name)) == -1 {
      FreshLogin(b.ts, fd, name);
    } else {
      RepeatedLogin(b.ts, fd, name);
    }
  }

  lemma LogOutSound(b: Bourse, s: nat)
    requires Sound(b) && Live(b.ts, s) && Acct(b.ts, s).fd != -1
    ensures Sound(LogOut(b, s))
  {
    hide Even;
    NeverRemoved(b, s);
    forall k: nat, id: nat
      ensures Even(LogOut(b, s), k, id)
    {
      LogOutEven(b, s, k, id);
    }
    LogoutIs(b.ts, s);
    AccountsSound(b, LogOut(b, s));
  }
}
