/** The exchange of include/exchange.h updated in place, over the accounts of TraderMaps.dfy. */
module Exchanges {
  import opened Accounts
  import opened Market
  import opened Ledger
  import opened MarketLaws
  import opened Guarantees
  import opened Tape
  import opened Sums
  import opened TraderMaps

  /** The maximum cost of every pending buy fits the 32 bits of an amount of funds. */
  ghost predicate Payable(buys: seq<Order>)
  {
    forall i :: 0 <= i < |buys| ==> Product(buys[i].quantity, buys[i].price) < 0x1_0000_0000
  }

  /** No balance reaches past 32 bits. */
  lemma TooDear(ts: Traders, k: nat, cost: nat)
    requires Live(ts, k) && 0x1_0000_0000 <= cost
    ensures DecreaseBalance(ts, k, cost) == (ts, false)
  {
  }

  lemma PayableWith(buys: seq<Order>, o: Order)
    requires Payable(buys) && Product(o.quantity, o.price) < 0x1_0000_0000
    ensures Payable(buys + [o])
  {
  }

  lemma PayableAt(buys: seq<Order>, i: nat)
    requires Payable(buys) && i < |buys|
    ensures Product(buys[i].quantity, buys[i].price) < 0x1_0000_0000
  {
  }

  lemma PayableWithout(buys: seq<Order>, i: nat)
    requires Payable(buys) && i < |buys|
    ensures Payable(Remove(buys, i))
  {
  }

  lemma PostBuyIs(b: Bourse, k: nat, quantity: u32, price: u32)
    requires Live(b.ts, k)
    ensures Cost(quantity, price) == Product(quantity, price)
    ensures var (ts', ok) := Accounts.DecreaseBalance(b.ts, k, Cost(quantity, price));
      && (ok ==> Live(ts', k))
      && PostBuy(b, k, quantity, price) ==
           if !ok then (b, 0)
           else
             (Log(b.(ts := Accounts.Ref(ts', k), buys := b.buys + [Order(b.nextId, k, quantity, price)],
                     nextId := b.nextId + 1),
                  Posted(Buy, b.nextId, k, quantity, price)), b.nextId)
  {
  }

  lemma FoundOrder(b: Bourse, k: nat, id: nat)
    ensures var i := FindFirst(b.buys, PostedBy(id, k)); i != -1 ==> b.buys[i].trader == k
    ensures var j := FindFirst(b.sells, PostedBy(id, k)); j != -1 ==> b.sells[j].trader == k
  {
  }

  lemma LoginLands(ts: Traders, fd: int, name: string)
    ensures var (ts', k) := Accounts.Login(ts, fd, name); k == -1 || Live(ts', k)
  {
  }

  method Multiply(quantity: nat, price: nat) returns (cost: nat)
    ensures cost == Cost(quantity, price)
  {
    ProductIs(quantity, price);
    cost := quantity * price;
  }

  lemma TradeLogs(b: Bourse, i: nat, j: nat)
    requires Matches(b, i, j) && Live(b.ts, b.buys[i].trader) && Live(b.ts, b.sells[j].trader)
    ensures var j' := Trade(b, i, j).journal; |j'| == |b.journal| + 1 && b.journal <= j' && j'[|b.journal|].Traded?
  {
  }

  /** Price and refund of a trade fit 32 bits when the maximum cost does. */
  lemma PriceAndRefundFit(q: nat, price: nat, maxPrice: nat, orderQuantity: nat)
    requires q <= orderQuantity && price <= maxPrice && Product(orderQuantity, maxPrice) < 0x1_0000_0000
    ensures Product(q, price) < 0x1_0000_0000 && Product(q, maxPrice - price) < 0x1_0000_0000
  {
    SumOfProducts(q, orderQuantity - q, maxPrice);
    ProductNonNeg(orderQuantity - q, maxPrice);
    ProductOfSum(q, price, maxPrice - price);
    ProductNonNeg(q, price);
    ProductNonNeg(q, maxPrice - price);
  }

  lemma PayableFilled(buys: seq<Order>, i: nat, q: u32)
    requires Payable(buys) && i < |buys| && q <= buys[i].quantity
    ensures Payable(Fill(buys, i, q))
  {
    SumOfProducts(q, buys[i].quantity - q, buys[i].price);
    ProductNonNeg(q, buys[i].price);
  }

  class Exchange {
    const traders: TraderMap
    var buys: seq<Order>
    var sells: seq<Order>
    var last: u32
    var nextId: nat
    ghost var journal: seq<Entry>

    ghost function View(): Bourse
      reads this, traders, traders.all, traders.all[..]
    {
      Bourse(traders.View(), buys, sells, last, nextId, journal)
    }

    ghost predicate Valid()
      reads this, traders, traders.all, traders.all[..]
    {
      traders.Valid() && Sound(View()) && Payable(buys)
    }

    /** `exchange_init`, over a fresh map of traders. */
    constructor (first: u32)
      ensures Valid() && View() == Opening(first)
      ensures fresh(traders) && fresh(traders.all)
    {
      traders := new TraderMap();
      buys, sells, last, nextId, journal := [], [], first, 1, [];
      new;
      OpeningSound(first);
    }

    // The book.

    method Enqueue(side: Side, o: Order)
      requires o.id == nextId
      modifies `buys, `sells, `nextId, `journal
      ensures buys == (if side.Buy? then old(buys) + [o] else old(buys))
      ensures sells == (if side.Buy? then old(sells) else old(sells) + [o])
      ensures View() == Log(old(View()).(buys := buys, sells := sells, nextId := o.id + 1),
                            Posted(side, o.id, o.trader, o.quantity, o.price))
    {
      if side.Buy? {
        buys := buys + [o];
      } else {
        sells := sells + [o];
      }
      nextId := nextId + 1;
      journal := journal + [Posted(side, o.id, o.trader, o.quantity, o.price)];
    }

    method Dequeue(side: Side, i: nat)
      requires i < if side.Buy? then |buys| else |sells|
      modifies `buys, `sells, `journal
      ensures buys == (if side.Buy? then Remove(old(buys), i) else old(buys))
      ensures sells == (if side.Buy? then old(sells) else Remove(old(sells), i))
      ensures var o := if side.Buy? then old(buys)[i] else old(sells)[i];
        View() == Log(old(View()).(buys := buys, sells := sells), Canceled(side, o.id, o.trader, o.quantity, o.price))
    {
      ghost var o := if side.Buy? then buys[i] else sells[i];
      if side.Buy? {
        buys := Remove(buys, i);
      } else {
        sells := Remove(sells, i);
      }
      journal := journal + [Canceled(side, o.id, o.trader, o.quantity, o.price)];
    }

    // The operations.

    /** `exchange_post_buy`: sets aside the maximum cost, or does nothing and returns 0. */
    method PostBuy(k: nat, quantity: u32, price: u32) returns (id: nat)
      requires Valid() && Live(View().ts, k)
      modifies this, traders.all[k]
      ensures Valid() && (View(), id) == Market.PostBuy(old(View()), k, quantity, price)
    {
      hide Sound, Payable, Product, Cost, Accounts.Ref, Accounts.DecreaseBalance, Market.PostBuy;
      PostBuyIs(View(), k, quantity, price);
      PostBuySound(View(), k, quantity, price);
      var cost := Multiply(quantity, price);
      if 0x1_0000_0000 <= cost {
        TooDear(traders.View(), k, cost);
        return 0;
      }
      var r := traders.DecreaseBalanceAt(k, cost);
      if r != 0 {
        return 0;
      }
      traders.RefAt(k);
      id := nextId;
      PayableWith(buys, Order(id, k, quantity, price));
      Enqueue(Buy, Order(id, k, quantity, price));
    }

    /** `exchange_post_sell`: sets aside the units, or does nothing and returns 0. */
    method PostSell(k: nat, quantity: u32, price: u32) returns (id: nat)
      requires Valid() && Live(View().ts, k)
      modifies this, traders.all[k]
      ensures Valid() && (View(), id) == Market.PostSell(old(View()), k, quantity, price)
    {
      hide Sound, Payable, Accounts.Ref, Accounts.DecreaseInventory;
      PostSellSound(View(), k, quantity, price);
      var r := traders.DecreaseInventoryAt(k, quantity);
      if r != 0 {
        return 0;
      }
      traders.RefAt(k);
      id := nextId;
      Enqueue(Sell, Order(id, k, quantity, price));
    }

    /** The position of the order that trader k posted under this number, or -1. */
    method FindOrder(orders: seq<Order>, k: nat, id: nat) returns (i: int)
      ensures i == FindFirst(orders, PostedBy(id, k))
    {
      for j := 0 to |orders|
        invariant forall x :: 0 <= x < j ==> !PostedBy(id, k)(orders[x])
      {
        if orders[j].id == id && orders[j].trader == k {
          FirstIs(orders, PostedBy(id, k), j);
          return j;
        }
      }
      NoneIs(orders, PostedBy(id, k));
      return -1;
    }

    /** The end of a pending buy: its encumbrance goes back, its reference is released. */
    method CancelBuy(i: nat)
      requires Valid() && i < |buys| && Live(View().ts, buys[i].trader)
      modifies this, traders.all, traders.all[buys[i].trader]
      ensures traders.Valid() && Payable(buys)
      ensures View() == Market.CancelBuy(old(View()), old(buys)[i].trader, i)
      ensures forall k :: 0 <= k < MAX_TRADERS ==> traders.all[k] == old(traders.all[k]) || traders.all[k] == null
    {
      hide Sound, Payable, Product, Accounts.Unref, Accounts.IncreaseBalance;
      var o := buys[i];
      var refund := Multiply(o.quantity, o.price);
      PayableAt(buys, i);
      PayableWithout(buys, i);
      traders.IncreaseBalanceAt(o.trader, refund);
      traders.Unref(traders.all[o.trader], o.trader);
      Dequeue(Buy, i);
    }

    /** The end of a pending sell. */
    method CancelSell(j: nat)
      requires Valid() && j < |sells| && Live(View().ts, sells[j].trader)
      modifies this, traders.all, traders.all[sells[j].trader]
      ensures traders.Valid() && Payable(buys)
      ensures View() == Market.CancelSell(old(View()), old(sells)[j].trader, j)
      ensures forall k :: 0 <= k < MAX_TRADERS ==> traders.all[k] == old(traders.all[k]) || traders.all[k] == null
    {
      hide Sound, Payable, Accounts.Unref, Accounts.IncreaseInventory;
      var o := sells[j];
      traders.IncreaseInventoryAt(o.trader, o.quantity);
      traders.Unref(traders.all[o.trader], o.trader);
      Dequeue(Sell, j);
    }

    /** `exchange_cancel`: 0 with the quantity that was pending, or -1 with nothing changed. */
    method Cancel(k: nat, id: nat) returns (r: int, quantity: u32)
      requires Valid() && Live(View().ts, k)
      modifies this, traders.all, traders.all[k]
      ensures Valid()
      ensures (View(), if r == 0 then Some(quantity as nat) else None) == Market.Cancel(old(View()), k, id)
      ensures forall k :: 0 <= k < MAX_TRADERS ==> traders.all[k] == old(traders.all[k]) || traders.all[k] == null
    {
      hide Sound, Payable, Market.CancelBuy, Market.CancelSell;
      FoundOrder(View(), k, id);
      CancelSound(View(), k, id);
      var i := FindOrder(buys, k, id);
      if i != -1 {
        quantity := buys[i].quantity;
        CancelBuy(i);
        return 0, quantity;
      }
      var j := FindOrder(sells, k, id);
      if j != -1 {
        quantity := sells[j].quantity;
        CancelSell(j);
        return 0, quantity;
      }
      return -1, 0;
    }

    /** `exchange_get_status`: the highest bid, the lowest ask, the last price. */
    method GetStatus() returns (bid: u32, ask: u32, price: u32)
      ensures bid == Bid(buys) && ask == Ask(sells) && price == last
    {
      bid, ask, price := 0, 0, last;
      for i := |buys| downto 0
        invariant bid == Bid(buys[i..])
      {
        if i == |buys| - 1 || bid <= buys[i].price { bid := buys[i].price; }
      }
      for j := |sells| downto 0
        invariant ask == Ask(sells[j..]) && bid == Bid(buys)
      {
        if j == |sells| - 1 || sells[j].price <= ask { ask := sells[j].price; }
      }
    }

    /** `trader_login` with its entry in the history. */
    method LogIn(fd: int, name: string) returns (trader: Trader?, slot: int)
      requires Valid() && 0 <= fd
      modifies this, traders, traders.all, traders.all[..]
      ensures Valid() && (View(), slot) == Market.LogIn(old(View()), fd, name)
      ensures slot == -1 || Live(View().ts, slot)
      ensures trader == if slot == -1 then null else traders.all[slot]
      ensures forall k :: 0 <= k < MAX_TRADERS ==>
        var t := traders.all[k]; t == old(traders.all[k]) || t == null || fresh(t)
    {
      hide Sound, Payable, Accounts.Login;
      ghost var known := FindFirst(View().ts.slots, Named(name));
      LogInSound(View(), fd, name);
      LoginLands(View().ts, fd, name);
      trader, slot := traders.Login(fd, name);
      if trader != null {
        Note(LoggedIn(slot));
      } else if known != -1 {
        Note(LoginRefused(known));
      }
    }

    /** Adds to the history. */
    ghost method Note(e: Entry)
      modifies `journal
      ensures View() == Log(old(View()), e)
    {
      journal := journal + [e];
    }

    // The matchmaker.

    /** Pays the seller and the buyer and releases the orders that are gone. */
    method Settle(buyer: nat, seller: nat, quantity: u32, price: u32, maxPrice: u32, buyGone: bool, sellGone: bool)
      requires traders.Valid() && Live(traders.View(), buyer) && Live(traders.View(), seller) && price <= maxPrice
      requires Product(quantity, price) < 0x1_0000_0000 && Product(quantity, maxPrice - price) < 0x1_0000_0000
      modifies traders.all, traders.all[buyer], traders.all[seller]
      ensures traders.Valid()
      ensures forall k :: 0 <= k < MAX_TRADERS ==> traders.all[k] == old(traders.all[k]) || traders.all[k] == null
      ensures traders.View() ==
        Market.Settle(old(traders.View()), buyer, seller, quantity, price, maxPrice, buyGone, sellGone)
    {
      hide Product, Accounts.Unref;
      var proceeds := Multiply(quantity, price);
      var refund := Multiply(quantity, maxPrice - price);
      traders.IncreaseBalanceAt(seller, proceeds);
      traders.IncreaseInventoryAt(buyer, quantity);
      traders.IncreaseBalanceAt(buyer, refund);
      if buyGone {
        traders.Unref(traders.all[buyer], buyer);
      }
      if traders.all[seller] != null && sellGone {
        traders.Unref(traders.all[seller], seller);
      }
    }

    method Take(i: nat, j: nat, quantity: u32, price: u32)
      requires i < |buys| && j < |sells| && quantity <= buys[i].quantity && quantity <= sells[j].quantity
      modifies `buys, `sells, `last, `journal
      ensures buys == Fill(old(buys), i, quantity) && sells == Fill(old(sells), j, quantity)
      ensures var buy, sell := old(buys)[i], old(sells)[j];
        View() == Log(old(View()).(buys := buys, sells := sells, last := price),
                      Traded(buy.id, sell.id, buy.trader, sell.trader, quantity, price, buy.price, sell.price))
    {
      journal := journal + [Traded(buys[i].id, sells[j].id, buys[i].trader, sells[j].trader,
                                   quantity, price, buys[i].price, sells[j].price)];
      buys := Fill(buys, i, quantity);
      sells := Fill(sells, j, quantity);
      last := price;
    }

    /** One trade. */
    method TradePair(i: nat, j: nat)
      requires Valid() && Matches(View(), i, j)
      modifies this, traders.all, traders.all[..]
      ensures Valid() && View() == Trade(old(View()), i, j)
      ensures forall k :: 0 <= k < MAX_TRADERS ==> traders.all[k] == old(traders.all[k]) || traders.all[k] == null
    {
      hide Sound, Payable, Product, Market.Settle, Fill;
      OwnersLive(View(), i, j);
      TradeSound(View(), i, j);
      var buy, sell := buys[i], sells[j];
      var price := Clamp(last, sell.price, buy.price);
      var quantity := Min(buy.quantity, sell.quantity);
      PayableAt(buys, i);
      PriceAndRefundFit(quantity, price, buy.price, buy.quantity);
      PayableFilled(buys, i, quantity);
      Settle(buy.trader, sell.trader, quantity, price, buy.price, quantity == buy.quantity, quantity == sell.quantity);
      Take(i, j, quantity, price);
    }

    /** The matchmaker until it has nothing to do: it ends, adds trades only, each traceable and at
        the right price, keeps the books even, and leaves no buy at or above a sell. */
    method Matchmake(ghost first: int)
      requires Valid() && Truthful(View(), first)
      modifies this, traders.all, traders.all[..]
      ensures Valid() && Truthful(View(), first) && Uncrossed(View())
      ensures old(journal) <= journal && forall p :: |old(journal)| <= p < |journal| ==> journal[p].Traded?
    {
      hide Sound, Truthful, Payable, Trade;
      while true
        invariant Valid() && Truthful(View(), first)
        invariant old(journal) <= journal && forall p :: |old(journal)| <= p < |journal| ==> journal[p].Traded?
        invariant forall k :: 0 <= k < MAX_TRADERS ==> traders.all[k] == old(traders.all[k]) || traders.all[k] == null
        decreases |buys| + |sells|
      {
        if i, j :| 0 <= i < |buys| && 0 <= j < |sells| && sells[j].price <= buys[i].price {
          OwnersLive(View(), i, j);
          TradeTruthful(View(), i, j, first);
          TradeLogs(View(), i, j);
          TradeShrinks(View(), i, j);
          TradePair(i, j);
        } else {
          break;
        }
      }
    }
  }
}
