/** The exchange of include/exchange.h as a value: pending orders over the accounts, the matching
    rule, and the history of everything that was acknowledged or announced. */
module Market {
  import opened Accounts
  import opened Sums

  datatype Side = Buy | Sell

  /** A pending order; `price` is the maximum of a buy and the minimum of a sell. */
  datatype Order = Order(id: nat, trader: nat, quantity: u32, price: u32)

  /** One acknowledged change. */
  datatype Entry =
    | LoggedIn(trader: nat)
    | LoginRefused(trader: nat)     // the name was already logged in
    | LoggedOut(trader: nat)
    | Deposited(trader: nat, amount: nat)
    | Withdrew(trader: nat, amount: nat)
    | Escrowed(trader: nat, quantity: nat)
    | Released(trader: nat, quantity: nat)
    | Posted(side: Side, id: nat, trader: nat, quantity: nat, price: nat)
    | Canceled(side: Side, id: nat, trader: nat, quantity: nat, price: nat)
    | Traded(buyId: nat, sellId: nat, buyer: nat, seller: nat, quantity: nat, price: nat, maxPrice: nat, minPrice: nat)

  datatype Bourse = Bourse(
    ts: Traders, buys: seq<Order>, sells: seq<Order>, last: u32, nextId: nat, journal: seq<Entry>)

  /** No trader, no order; `first` stands for the last trade price before any trade. */
  function Opening(first: u32): Bourse
  {
    Bourse(NoTraders(), [], [], first, 1, [])
  }

  function Log(b: Bourse, e: Entry): Bourse
  {
    b.(journal := b.journal + [e])
  }

  /** What `quantity` units cost at `price`. */
  function Cost(quantity: nat, price: nat): (c: nat)
  {
    ProductNonNeg(quantity, price);
    Product(quantity, price)
  }

  // ---- Sessions and accounts ----

  function LogIn(b: Bourse, fd: int, name: string): (Bourse, int)
  {
    var (ts', k) := Login(b.ts, fd, name);
    var b' := b.(ts := ts');
    if k != -1 then (Log(b', LoggedIn(k)), k)
    else
      var known := FindFirst(b.ts.slots, Named(name));
      (if known == -1 then b' else Log(b', LoginRefused(known)), -1)
  }

  function LogOut(b: Bourse, k: nat): Bourse
    requires Live(b.ts, k)
  {
    Log(b.(ts := Logout(b.ts, k)), LoggedOut(k))
  }

  function Deposit(b: Bourse, k: nat, amount: u32): Bourse
    requires Live(b.ts, k)
  {
    Log(b.(ts := IncreaseBalance(b.ts, k, amount)), Deposited(k, amount))
  }

  function Withdraw(b: Bourse, k: nat, amount: u32): (Bourse, bool)
    requires Live(b.ts, k)
  {
    var (ts', ok) := DecreaseBalance(b.ts, k, amount);
    (if ok then Log(b.(ts := ts'), Withdrew(k, amount)) else b, ok)
  }

  function Escrow(b: Bourse, k: nat, quantity: u32): Bourse
    requires Live(b.ts, k)
  {
    Log(b.(ts := IncreaseInventory(b.ts, k, quantity)), Escrowed(k, quantity))
  }

  function Release(b: Bourse, k: nat, quantity: u32): (Bourse, bool)
    requires Live(b.ts, k)
  {
    var (ts', ok) := DecreaseInventory(b.ts, k, quantity);
    (if ok then Log(b.(ts := ts'), Released(k, quantity)) else b, ok)
  }

  // ---- Orders ----

  /** `exchange_post_buy`: encumbers the maximum cost; 0 when the funds are not there. */
  function PostBuy(b: Bourse, k: nat, quantity: u32, price: u32): (Bourse, nat)
    requires Live(b.ts, k)
  {
    var (ts', ok) := DecreaseBalance(b.ts, k, Cost(quantity, price));
    if !ok then (b, 0)
    else
      (Log(b.(ts := Ref(ts', k), buys := b.buys + [Order(b.nextId, k, quantity, price)], nextId := b.nextId + 1),
           Posted(Buy, b.nextId, k, quantity, price)), b.nextId)
  }

  /** `exchange_post_sell`: encumbers the inventory; 0 when it is not there. */
  function PostSell(b: Bourse, k: nat, quantity: u32, price: u32): (Bourse, nat)
    requires Live(b.ts, k)
  {
    var (ts', ok) := DecreaseInventory(b.ts, k, quantity);
    if !ok then (b, 0)
    else
      (Log(b.(ts := Ref(ts', k), sells := b.sells + [Order(b.nextId, k, quantity, price)], nextId := b.nextId + 1),
           Posted(Sell, b.nextId, k, quantity, price)), b.nextId)
  }

  function PostedBy(id: nat, k: nat): Order -> bool
  {
    (o: Order) => o.id == id && o.trader == k
  }

  function CancelBuy(b: Bourse, k: nat, i: nat): Bourse
    requires Live(b.ts, k) && i < |b.buys|
  {
    var o := b.buys[i];
    var ts' := IncreaseBalance(b.ts, k, Cost(o.quantity, o.price));
    Log(b.(ts := Unref(ts', k), buys := Remove(b.buys, i)), Canceled(Buy, o.id, k, o.quantity, o.price))
  }

  function CancelSell(b: Bourse, k: nat, j: nat): Bourse
    requires Live(b.ts, k) && j < |b.sells|
  {
    var o := b.sells[j];
    var ts' := IncreaseInventory(b.ts, k, o.quantity);
    Log(b.(ts := Unref(ts', k), sells := Remove(b.sells, j)), Canceled(Sell, o.id, k, o.quantity, o.price))
  }

  /** `exchange_cancel`: only the trader that posted the order can cancel it, while it is pending;
      the rest of its encumbrance goes back. */
  function Cancel(b: Bourse, k: nat, id: nat): (Bourse, Option<nat>)
    requires Live(b.ts, k)
  {
    var i, j := FindFirst(b.buys, PostedBy(id, k)), FindFirst(b.sells, PostedBy(id, k));
    if i != -1 then (CancelBuy(b, k, i), Some(b.buys[i].quantity))
    else if j != -1 then (CancelSell(b, k, j), Some(b.sells[j].quantity))
    else (b, None)
  }

  // ---- The matchmaker ----

  predicate Matches(b: Bourse, i: nat, j: nat)
  {
    i < |b.buys| && j < |b.sells| && b.sells[j].price <= b.buys[i].price
  }

  /** The price in [low, high] closest to the last trade price. */
  function Clamp(last: u32, low: u32, high: u32): u32
  {
    if last < low then low else if last > high then high else last
  }

  function Min(x: u32, y: u32): u32
  {
    if x <= y then x else y
  }

  /** Takes `quantity` off an order; an order left with nothing is removed. */
  function Fill(orders: seq<Order>, i: nat, quantity: u32): seq<Order>
    requires i < |orders| && quantity <= orders[i].quantity
  {
    var rest: u32 := orders[i].quantity - quantity;
    if rest == 0 then Remove(orders, i) else orders[i := orders[i].(quantity := rest)]
  }

  function UnrefIf(ts: Traders, k: nat, gone: bool): Traders
    requires Live(ts, k)
  {
    if gone then Unref(ts, k) else ts
  }

  /** The accounts after a trade: proceeds to the seller, units and the price difference to the
      buyer, and the references of the orders that are gone. */
  function Settle(ts: Traders, buyer: nat, seller: nat, quantity: u32, price: u32, maxPrice: u32,
                  buyGone: bool, sellGone: bool): Traders
    requires Live(ts, buyer) && Live(ts, seller) && price <= maxPrice
  {
    var ts1 := IncreaseBalance(ts, seller, Cost(quantity, price));
    var ts2 := IncreaseInventory(ts1, buyer, quantity);
    var ts3 := IncreaseBalance(ts2, buyer, Cost(quantity, maxPrice - price));
    var ts4 := UnrefIf(ts3, buyer, buyGone);
    if Live(ts4, seller) then UnrefIf(ts4, seller, sellGone) else ts4
  }

  function Trade(b: Bourse, i: nat, j: nat): Bourse
    requires Matches(b, i, j) && Live(b.ts, b.buys[i].trader) && Live(b.ts, b.sells[j].trader)
  {
    var buy, sell := b.buys[i], b.sells[j];
    var price := Clamp(b.last, sell.price, buy.price);
    var quantity := Min(buy.quantity, sell.quantity);
    var ts' := Settle(b.ts, buy.trader, sell.trader, quantity, price, buy.price,
                      quantity == buy.quantity, quantity == sell.quantity);
    Log(b.(ts := ts', buys := Fill(b.buys, i, quantity), sells := Fill(b.sells, j, quantity), last := price),
        Traded(buy.id, sell.id, buy.trader, sell.trader, quantity, price, buy.price, sell.price))
  }
}
