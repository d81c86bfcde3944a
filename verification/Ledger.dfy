/** Double-entry bookkeeping over the exchange: what the accounts hold plus what the orders encumber
    is what the history says, operation by operation. */
module Ledger {
  import opened Accounts
  import opened Market
  import opened Sums

  // ---- What a slot holds ----

  /** The balance before reduction to 32 bits. */
  function TrueBalance(o: Option<Account>): int
  {
    if o.Some? then o.value.balance + Product(o.value.balanceWraps, 0x1_0000_0000) else 0
  }

  function TrueInventory(o: Option<Account>): int
  {
    if o.Some? then o.value.inventory + Product(o.value.inventoryWraps, 0x1_0000_0000) else 0
  }

  /** References beyond the one of the map and the one of the session. */
  function OtherRefs(o: Option<Account>): int
  {
    if o.Some? then o.value.ref - 1 - Session(o) else 0
  }

  function Session(o: Option<Account>): int
  {
    if o.Some? && o.value.fd != -1 then 1 else 0
  }

  // ---- What a pending order encumbers ----

  function Encumbered(o: Order): int { Product(o.quantity, o.price) }

  function Quantity(o: Order): int { o.quantity }

  function HeldBy(k: nat): Order -> int
  {
    (o: Order) => if o.trader == k then 1 else 0
  }

  function QuantityAt(id: nat): Order -> int
  {
    (o: Order) => if o.id == id then o.quantity else 0
  }

  function CostAt(id: nat): Order -> int
  {
    (o: Order) => if o.id == id then Product(o.quantity, o.price) else 0
  }

  // ---- What an entry of the history says ----

  function FundsIn(e: Entry): int
  {
    match e
    case Deposited(_, amount) => amount
    case Withdrew(_, amount) => -(amount as int)
    case _ => 0
  }

  function GoodsIn(e: Entry): int
  {
    match e
    case Escrowed(_, quantity) => quantity
    case Released(_, quantity) => -(quantity as int)
    case _ => 0
  }

  function BalanceOf(k: nat): Entry -> int
  {
    (e: Entry) =>
      match e
      case Deposited(t, amount) => if t == k then amount else 0
      case Withdrew(t, amount) => if t == k then -(amount as int) else 0
      case Posted(side, _, t, q, p) => if side.Buy? && t == k then -Product(q, p) else 0
      case Canceled(side, _, t, q, p) => if side.Buy? && t == k then Product(q, p) else 0
      case Traded(_, _, buyer, seller, q, price, maxPrice, _) =>
        (if seller == k then Product(q, price) else 0) + (if buyer == k then Product(q, maxPrice - price) else 0)
      case _ => 0
  }

  function InventoryOf(k: nat): Entry -> int
  {
    (e: Entry) =>
      match e
      case Escrowed(t, quantity) => if t == k then quantity else 0
      case Released(t, quantity) => if t == k then -(quantity as int) else 0
      case Posted(side, _, t, q, _) => if side.Sell? && t == k then -(q as int) else 0
      case Canceled(side, _, t, q, _) => if side.Sell? && t == k then q else 0
      case Traded(_, _, buyer, _, q, _, _, _) => if buyer == k then q else 0
      case _ => 0
  }

  function RefusedOf(k: nat): Entry -> int
  {
    (e: Entry) => if e.LoginRefused? && e.trader == k then 1 else 0
  }

  /** Successful logins minus logouts. */
  function SessionOf(k: nat): Entry -> int
  {
    (e: Entry) => if e.LoggedIn? && e.trader == k then 1 else if e.LoggedOut? && e.trader == k then -1 else 0
  }

  /** Posted minus traded minus canceled. */
  function QuantityOf(id: nat): Entry -> int
  {
    (e: Entry) =>
      match e
      case Posted(_, o, _, q, _) => if o == id then q else 0
      case Canceled(_, o, _, q, _) => if o == id then -(q as int) else 0
      case Traded(b, s, _, _, q, _, _, _) => (if b == id then -(q as int) else 0) + (if s == id then -(q as int) else 0)
      case _ => 0
  }

  /** Encumbered by a buy minus paid minus refunded minus returned on cancel. */
  function CostOf(id: nat): Entry -> int
  {
    (e: Entry) =>
      match e
      case Posted(side, o, _, q, p) => if side.Buy? && o == id then Product(q, p) else 0
      case Canceled(side, o, _, q, p) => if side.Buy? && o == id then -Product(q, p) else 0
      case Traded(b, _, _, _, q, price, maxPrice, _) =>
        if b == id then -Product(q, price) - Product(q, maxPrice - price) else 0
      case _ => 0
  }

  // ---- The eight columns of the ledger ----

  datatype Tally = Tally(
    funds: int, goods: int, balance: int, inventory: int, refs: int, session: int, quantity: int, cost: int)

  /** `n` units of funds, of goods, of references or of sessions, on the account in view or not. */
  function Funds(n: int, own: bool): Tally { Tally(n, 0, If(own, n), 0, 0, 0, 0, 0) }

  function Goods(n: int, own: bool): Tally { Tally(0, n, 0, If(own, n), 0, 0, 0, 0) }

  function Refs(n: int): Tally { Tally(0, 0, 0, 0, n, 0, 0, 0) }

  function Sessions(n: int): Tally { Tally(0, 0, 0, 0, 0, n, 0, 0) }

  function If(c: bool, x: int): int
  {
    if c then x else 0
  }

  function Add(x: Tally, y: Tally): Tally
  {
    Tally(x.funds + y.funds, x.goods + y.goods, x.balance + y.balance, x.inventory + y.inventory,
          x.refs + y.refs, x.session + y.session, x.quantity + y.quantity, x.cost + y.cost)
  }

  /** Tallies are equal column by column. */
  lemma Columns(x: Tally, y: Tally)
    requires x.funds == y.funds && x.goods == y.goods && x.balance == y.balance && x.inventory == y.inventory
    requires x.refs == y.refs && x.session == y.session && x.quantity == y.quantity && x.cost == y.cost
    ensures x == y
  {
  }

  function Slot(slots: seq<Option<Account>>, k: nat): Option<Account>
  {
    if k < |slots| then slots[k] else None
  }

  /** The accounts as a whole, and the one of trader k. */
  function Assets(slots: seq<Option<Account>>, k: nat): Tally
  {
    var o := Slot(slots, k);
    Tally(Sum(slots, TrueBalance), Sum(slots, TrueInventory), TrueBalance(o), TrueInventory(o),
          OtherRefs(o), Session(o), 0, 0)
  }

  /** The pending orders as a whole, those of trader k, and order id. */
  function Pending(buys: seq<Order>, sells: seq<Order>, k: nat, id: nat): Tally
  {
    Tally(Sum(buys, Encumbered), Sum(sells, Quantity), 0, 0, -Sum(buys, HeldBy(k)) - Sum(sells, HeldBy(k)), 0,
          Sum(buys, QuantityAt(id)) + Sum(sells, QuantityAt(id)), Sum(buys, CostAt(id)))
  }

  function History(j: seq<Entry>, k: nat, id: nat): Tally
  {
    Tally(Sum(j, FundsIn), Sum(j, GoodsIn), Sum(j, BalanceOf(k)), Sum(j, InventoryOf(k)),
          Sum(j, RefusedOf(k)), Sum(j, SessionOf(k)), Sum(j, QuantityOf(id)), Sum(j, CostOf(id)))
  }

  /** The books are even for trader k and order id. */
  ghost predicate Even(b: Bourse, k: nat, id: nat)
  {
    Add(Assets(b.ts.slots, k), Pending(b.buys, b.sells, k, id)) == History(b.journal, k, id)
  }

  // ---- How each column moves ----

  function Saying(e: Entry, k: nat, id: nat): Tally
  {
    Tally(FundsIn(e), GoodsIn(e), BalanceOf(k)(e), InventoryOf(k)(e), RefusedOf(k)(e), SessionOf(k)(e),
          QuantityOf(id)(e), CostOf(id)(e))
  }

  lemma HistorySnoc(j: seq<Entry>, e: Entry, k: nat, id: nat)
    ensures History(j + [e], k, id) == Add(History(j, k, id), Saying(e, k, id))
  {
    hide Product, Sum, FundsIn, GoodsIn, BalanceOf, InventoryOf, RefusedOf, SessionOf, QuantityOf, CostOf;
    SumSnoc(j, e, FundsIn);
    SumSnoc(j, e, GoodsIn);
    SumSnoc(j, e, BalanceOf(k));
    SumSnoc(j, e, InventoryOf(k));
    SumSnoc(j, e, RefusedOf(k));
    SumSnoc(j, e, SessionOf(k));
    SumSnoc(j, e, QuantityOf(id));
    SumSnoc(j, e, CostOf(id));
  }

  function SlotChange(before: Option<Account>, after: Option<Account>, own: bool): Tally
  {
    var f, g := TrueBalance(after) - TrueBalance(before), TrueInventory(after) - TrueInventory(before);
    if own then Tally(f, g, f, g, OtherRefs(after) - OtherRefs(before), Session(after) - Session(before), 0, 0)
    else Tally(f, g, 0, 0, 0, 0, 0, 0)
  }

  lemma AssetsPut(ts: Traders, s: nat, a: Account, k: nat)
    requires s < |ts.slots|
    ensures Assets(Put(ts, s, a).slots, k) == Add(Assets(ts.slots, k), SlotChange(ts.slots[s], Some(a), s == k))
  {
    SumUpdate(ts.slots, s, Some(a), TrueBalance);
    SumUpdate(ts.slots, s, Some(a), TrueInventory);
  }

  /** Wrapping around loses nothing that the wraps do not remember. */
  lemma {:induction false} Carried(sum: nat, wraps: nat)
    ensures Low(sum) + Product(wraps + Carry(sum), 0x1_0000_0000) == sum + Product(wraps, 0x1_0000_0000)
  {
    if 0x1_0000_0000 <= sum {
      Carried(sum - 0x1_0000_0000, wraps);
      assert wraps + Carry(sum) == wraps + Carry(sum - 0x1_0000_0000) + 1;
    }
  }

  lemma FundsMove(ts: Traders, s: nat, amount: nat, k: nat)
    requires Live(ts, s)
    ensures Assets(IncreaseBalance(ts, s, amount).slots, k) == Add(Assets(ts.slots, k), Funds(amount, s == k))
    ensures DecreaseBalance(ts, s, amount).1 ==>
      Assets(DecreaseBalance(ts, s, amount).0.slots, k) == Add(Assets(ts.slots, k), Funds(-(amount as int), s == k))
  {
    hide Assets, Product, Low, Carry;
    Carried(Acct(ts, s).balance + amount, Acct(ts, s).balanceWraps);
    AssetsPut(ts, s, Acct(IncreaseBalance(ts, s, amount), s), k);
    if Acct(ts, s).balance >= amount {
      AssetsPut(ts, s, Acct(ts, s).(balance := Acct(ts, s).balance - amount), k);
    }
  }

  lemma GoodsMove(ts: Traders, s: nat, quantity: nat, k: nat)
    requires Live(ts, s)
    ensures Assets(IncreaseInventory(ts, s, quantity).slots, k) == Add(Assets(ts.slots, k), Goods(quantity, s == k))
    ensures DecreaseInventory(ts, s, quantity).1 ==>
      Assets(DecreaseInventory(ts, s, quantity).0.slots, k) ==
        Add(Assets(ts.slots, k), Goods(-(quantity as int), s == k))
  {
    hide Assets, Product, Low, Carry;
    Carried(Acct(ts, s).inventory + quantity, Acct(ts, s).inventoryWraps);
    AssetsPut(ts, s, Acct(IncreaseInventory(ts, s, quantity), s), k);
    if Acct(ts, s).inventory >= quantity {
      AssetsPut(ts, s, Acct(ts, s).(inventory := Acct(ts, s).inventory - quantity), k);
    }
  }

  lemma RefsMove(ts: Traders, s: nat, k: nat)
    requires Live(ts, s)
    ensures Assets(Ref(ts, s).slots, k) == Add(Assets(ts.slots, k), Refs(If(s == k, 1)))
    ensures Acct(ts, s).ref != 1 ==> Assets(Unref(ts, s).slots, k) == Add(Assets(ts.slots, k), Refs(If(s == k, -1)))
  {
    var a := Acct(ts, s);
    AssetsPut(ts, s, a.(ref := a.ref + 1), k);
    AssetsPut(ts, s, a.(ref := a.ref - 1), k);
  }

  /** What a pending order adds to the columns. */
  function BuyPending(o: Order, k: nat, id: nat): Tally
  {
    Tally(Encumbered(o), 0, 0, 0, If(o.trader == k, -1), 0, If(o.id == id, o.quantity), If(o.id == id, Encumbered(o)))
  }

  function SellPending(o: Order, k: nat, id: nat): Tally
  {
    Tally(0, o.quantity, 0, 0, If(o.trader == k, -1), 0, If(o.id == id, o.quantity), 0)
  }

  lemma BuyPosted(buys: seq<Order>, sells: seq<Order>, o: Order, k: nat, id: nat)
    ensures Pending(buys + [o], sells, k, id) == Add(Pending(buys, sells, k, id), BuyPending(o, k, id))
  {
    hide Product;
    SumSnoc(buys, o, Encumbered);
    SumSnoc(buys, o, HeldBy(k));
    SumSnoc(buys, o, QuantityAt(id));
    SumSnoc(buys, o, CostAt(id));
  }

  lemma SellPosted(buys: seq<Order>, sells: seq<Order>, o: Order, k: nat, id: nat)
    ensures Pending(buys, sells + [o], k, id) == Add(Pending(buys, sells, k, id), SellPending(o, k, id))
  {
    SumSnoc(sells, o, Quantity);
    SumSnoc(sells, o, HeldBy(k));
    SumSnoc(sells, o, QuantityAt(id));
  }

  lemma FillSum(orders: seq<Order>, i: nat, q: u32, w: Order -> int)
    requires i < |orders| && q <= orders[i].quantity
    ensures var o := orders[i];
      Sum(Fill(orders, i, q), w) == Sum(orders, w) - w(o) +
        (if q == o.quantity then 0 else w(o.(quantity := o.quantity - q)))
  {
    if q == orders[i].quantity {
      SumRemove(orders, i, w);
    } else {
      SumUpdate(orders, i, orders[i].(quantity := orders[i].quantity - q), w);
    }
  }

  /** What filling q units takes off a pending order. */
  function BuyTaken(o: Order, q: nat, k: nat, id: nat): Tally
  {
    Tally(-Product(q, o.price), 0, 0, 0, If(q == o.quantity && o.trader == k, 1), 0,
          If(o.id == id, -(q as int)), If(o.id == id, -Product(q, o.price)))
  }

  function SellTaken(o: Order, q: nat, k: nat, id: nat): Tally
  {
    Tally(0, -(q as int), 0, 0, If(q == o.quantity && o.trader == k, 1), 0, If(o.id == id, -(q as int)), 0)
  }

  lemma BuyFilled(buys: seq<Order>, sells: seq<Order>, i: nat, q: u32, k: nat, id: nat)
    requires i < |buys| && q <= buys[i].quantity
    ensures Pending(Fill(buys, i, q), sells, k, id) == Add(Pending(buys, sells, k, id), BuyTaken(buys[i], q, k, id))
  {
    FillSum(buys, i, q, Encumbered);
    FillSum(buys, i, q, HeldBy(k));
    FillSum(buys, i, q, QuantityAt(id));
    FillSum(buys, i, q, CostAt(id));
    SumOfProducts(q, buys[i].quantity - q, buys[i].price);
  }

  lemma SellFilled(buys: seq<Order>, sells: seq<Order>, j: nat, q: u32, k: nat, id: nat)
    requires j < |sells| && q <= sells[j].quantity
    ensures Pending(buys, Fill(sells, j, q), k, id) == Add(Pending(buys, sells, k, id), SellTaken(sells[j], q, k, id))
  {
    FillSum(sells, j, q, Quantity);
    FillSum(sells, j, q, HeldBy(k));
    FillSum(sells, j, q, QuantityAt(id));
  }

  // ---- Every operation leaves the books even ----

  lemma AddRegroups(x: Tally, y: Tally, dx: Tally, dy: Tally)
    ensures Add(Add(x, dx), Add(y, dy)) == Add(Add(x, y), Add(dx, dy))
    ensures Add(Add(x, dx), y) == Add(Add(x, y), dx)
  {
  }

  lemma AddTwice(x: Tally, y: Tally, z: Tally)
    ensures Add(Add(x, y), z) == Add(x, Add(y, z))
  {
  }

  /** One operation on accounts and orders, column by column. */
  lemma StaysEven(b: Bourse, b': Bourse, e: Entry, k: nat, id: nat, accounts: Tally, orders: Tally)
    requires Even(b, k, id) && b'.journal == b.journal + [e]
    requires Assets(b'.ts.slots, k) == Add(Assets(b.ts.slots, k), accounts)
    requires Pending(b'.buys, b'.sells, k, id) == Add(Pending(b.buys, b.sells, k, id), orders)
    requires Add(accounts, orders) == Saying(e, k, id)
    ensures Even(b', k, id)
  {
    HistorySnoc(b.journal, e, k, id);
    AddRegroups(Assets(b.ts.slots, k), Pending(b.buys, b.sells, k, id), accounts, orders);
  }

  /** One operation on accounts alone. */
  lemma AccountsStayEven(b: Bourse, b': Bourse, e: Entry, k: nat, id: nat)
    requires Even(b, k, id) && b'.journal == b.journal + [e] && b'.buys == b.buys && b'.sells == b.sells
    requires Assets(b'.ts.slots, k) == Add(Assets(b.ts.slots, k), Saying(e, k, id))
    ensures Even(b', k, id)
  {
    HistorySnoc(b.journal, e, k, id);
    AddRegroups(Assets(b.ts.slots, k), Pending(b.buys, b.sells, k, id), Saying(e, k, id), Saying(e, k, id));
  }

  lemma DepositSays(s: nat, amount: nat, k: nat, id: nat)
    ensures Saying(Deposited(s, amount), k, id) == Funds(amount, s == k)
    ensures Saying(Withdrew(s, amount), k, id) == Funds(-(amount as int), s == k)
    ensures Saying(Escrowed(s, amount), k, id) == Goods(amount, s == k)
    ensures Saying(Released(s, amount), k, id) == Goods(-(amount as int), s == k)
  {
  }

  lemma DepositEven(b: Bourse, s: nat, amount: u32, k: nat, id: nat)
    requires Live(b.ts, s) && Even(b, k, id)
    ensures Even(Deposit(b, s, amount), k, id)
    ensures Even(Escrow(b, s, amount), k, id)
  {
    DepositSays(s, amount, k, id);
    FundsMove(b.ts, s, amount, k);
    AccountsStayEven(b, Deposit(b, s, amount), Deposited(s, amount), k, id);
    GoodsMove(b.ts, s, amount, k);
    AccountsStayEven(b, Escrow(b, s, amount), Escrowed(s, amount), k, id);
  }

  lemma WithdrawEven(b: Bourse, s: nat, amount: u32, k: nat, id: nat)
    requires Live(b.ts, s) && Even(b, k, id)
    ensures Even(Withdraw(b, s, amount).0, k, id)
    ensures Even(Release(b, s, amount).0, k, id)
  {
    DepositSays(s, amount, k, id);
    if Withdraw(b, s, amount).1 {
      FundsMove(b.ts, s, amount, k);
      AccountsStayEven(b, Withdraw(b, s, amount).0, Withdrew(s, amount), k, id);
    }
    if Release(b, s, amount).1 {
      GoodsMove(b.ts, s, amount, k);
      AccountsStayEven(b, Release(b, s, amount).0, Released(s, amount), k, id);
    }
  }

  /** What posting an order takes from the account, or canceling it gives back. */
  function BuyFunds(s: nat, amount: int, refs: int, k: nat): Tally
  {
    Tally(amount, 0, If(s == k, amount), 0, If(s == k, refs), 0, 0, 0)
  }

  function SellGoods(s: nat, quantity: int, refs: int, k: nat): Tally
  {
    Tally(0, quantity, 0, If(s == k, quantity), If(s == k, refs), 0, 0, 0)
  }

  lemma BuyPostSays(o: Order, k: nat, id: nat)
    ensures Saying(Posted(Buy, o.id, o.trader, o.quantity, o.price), k, id) ==
      Add(BuyFunds(o.trader, -Encumbered(o), 1, k), BuyPending(o, k, id))
  {
    hide Product;
  }

  lemma BuyCancelSays(o: Order, k: nat, id: nat)
    ensures Saying(Canceled(Buy, o.id, o.trader, o.quantity, o.price), k, id) ==
      Add(BuyFunds(o.trader, Encumbered(o), -1, k), BuyTaken(o, o.quantity, k, id))
  {
  }

  lemma SellPostSays(o: Order, k: nat, id: nat)
    ensures Saying(Posted(Sell, o.id, o.trader, o.quantity, o.price), k, id) ==
      Add(SellGoods(o.trader, -(o.quantity as int), 1, k), SellPending(o, k, id))
  {
  }

  lemma SellCancelSays(o: Order, k: nat, id: nat)
    ensures Saying(Canceled(Sell, o.id, o.trader, o.quantity, o.price), k, id) ==
      Add(SellGoods(o.trader, o.quantity, -1, k), SellTaken(o, o.quantity, k, id))
  {
  }

  lemma PaidStaysLive(ts: Traders, s: nat, amount: nat)
    requires Live(ts, s)
    ensures Live(DecreaseBalance(ts, s, amount).0, s) && Live(DecreaseInventory(ts, s, amount).0, s)
  {
  }

  lemma FundsAndRef(x: Tally, s: nat, amount: int, refs: int, k: nat)
    ensures Add(Add(x, Funds(amount, s == k)), Refs(If(s == k, refs))) == Add(x, BuyFunds(s, amount, refs, k))
    ensures Add(Add(x, Goods(amount, s == k)), Refs(If(s == k, refs))) == Add(x, SellGoods(s, amount, refs, k))
  {
  }

  /** The account's part of posting: the encumbrance goes, a reference comes. */
  lemma PostBuyMoves(ts: Traders, s: nat, cost: nat, k: nat)
    requires Live(ts, s) && DecreaseBalance(ts, s, cost).1
    ensures Live(DecreaseBalance(ts, s, cost).0, s)
    ensures Assets(Ref(DecreaseBalance(ts, s, cost).0, s).slots, k) ==
      Add(Assets(ts.slots, k), BuyFunds(s, -(cost as int), 1, k))
  {
    FundsMove(ts, s, cost, k);
    PaidStaysLive(ts, s, cost);
    RefsMove(DecreaseBalance(ts, s, cost).0, s, k);
    FundsAndRef(Assets(ts.slots, k), s, -(cost as int), 1, k);
  }

  lemma PostSellMoves(ts: Traders, s: nat, quantity: nat, k: nat)
    requires Live(ts, s) && DecreaseInventory(ts, s, quantity).1
    ensures Live(DecreaseInventory(ts, s, quantity).0, s)
    ensures Assets(Ref(DecreaseInventory(ts, s, quantity).0, s).slots, k) ==
      Add(Assets(ts.slots, k), SellGoods(s, -(quantity as int), 1, k))
  {
    GoodsMove(ts, s, quantity, k);
    PaidStaysLive(ts, s, quantity);
    RefsMove(DecreaseInventory(ts, s, quantity).0, s, k);
    FundsAndRef(Assets(ts.slots, k), s, -(quantity as int), 1, k);
  }

  lemma PostBuyEven(b: Bourse, s: nat, quantity: u32, price: u32, k: nat, id: nat)
    requires Live(b.ts, s) && Even(b, k, id)
    ensures Even(PostBuy(b, s, quantity, price).0, k, id)
  {
    hide Assets, Pending, History, Saying;
    if PostBuy(b, s, quantity, price).0 != b {
      var o := Order(b.nextId, s, quantity, price);
      PostBuyMoves(b.ts, s, Cost(quantity, price), k);
      BuyPosted(b.buys, b.sells, o, k, id);
      BuyPostSays(o, k, id);
      StaysEven(b, PostBuy(b, s, quantity, price).0, Posted(Buy, o.id, s, quantity, price), k, id,
                BuyFunds(s, -Encumbered(o), 1, k), BuyPending(o, k, id));
    }
  }

  lemma PostSellEven(b: Bourse, s: nat, quantity: u32, price: u32, k: nat, id: nat)
    requires Live(b.ts, s) && Even(b, k, id)
    ensures Even(PostSell(b, s, quantity, price).0, k, id)
  {
    hide Assets, Pending, History, Saying;
    if PostSell(b, s, quantity, price).0 != b {
      var o := Order(b.nextId, s, quantity, price);
      PostSellMoves(b.ts, s, quantity, k);
      SellPosted(b.buys, b.sells, o, k, id);
      SellPostSays(o, k, id);
      StaysEven(b, PostSell(b, s, quantity, price).0, Posted(Sell, o.id, s, quantity, price), k, id,
                SellGoods(s, -(o.quantity as int), 1, k), SellPending(o, k, id));
    }
  }

  lemma CancelBuyEven(b: Bourse, s: nat, oid: nat, k: nat, id: nat)
    requires Live(b.ts, s) && Acct(b.ts, s).ref != 1 && Even(b, k, id)
    requires FindFirst(b.buys, PostedBy(oid, s)) != -1
    ensures Even(Cancel(b, s, oid).0, k, id)
  {
    var i := FindFirst(b.buys, PostedBy(oid, s));
    var o := b.buys[i];
    FundsMove(b.ts, s, Cost(o.quantity, o.price), k);
    RefsMove(IncreaseBalance(b.ts, s, Cost(o.quantity, o.price)), s, k);
    FundsAndRef(Assets(b.ts.slots, k), s, Encumbered(o), -1, k);
    BuyFilled(b.buys, b.sells, i, o.quantity, k, id);
    BuyCancelSays(o, k, id);
    StaysEven(b, Cancel(b, s, oid).0, Canceled(Buy, oid, s, o.quantity, o.price), k, id,
              BuyFunds(s, Encumbered(o), -1, k), BuyTaken(o, o.quantity, k, id));
  }

  lemma CancelSellEven(b: Bourse, s: nat, oid: nat, k: nat, id: nat)
    requires Live(b.ts, s) && Acct(b.ts, s).ref != 1 && Even(b, k, id)
    requires FindFirst(b.buys, PostedBy(oid, s)) == -1 && FindFirst(b.sells, PostedBy(oid, s)) != -1
    ensures Even(Cancel(b, s, oid).0, k, id)
  {
    var j := FindFirst(b.sells, PostedBy(oid, s));
    var o := b.sells[j];
    GoodsMove(b.ts, s, o.quantity, k);
    RefsMove(IncreaseInventory(b.ts, s, o.quantity), s, k);
    FundsAndRef(Assets(b.ts.slots, k), s, o.quantity, -1, k);
    SellFilled(b.buys, b.sells, j, o.quantity, k, id);
    SellCancelSays(o, k, id);
    StaysEven(b, Cancel(b, s, oid).0, Canceled(Sell, oid, s, o.quantity, o.price), k, id,
              SellGoods(s, o.quantity, -1, k), SellTaken(o, o.quantity, k, id));
  }

  /** What a trade gives the two accounts. */
  function Settled(buyer: nat, seller: nat, q: nat, price: int, maxPrice: int, refs: int, k: nat): Tally
  {
    Tally(Product(q, price) + Product(q, maxPrice - price), q,
          If(seller == k, Product(q, price)) + If(buyer == k, Product(q, maxPrice - price)), If(buyer == k, q),
          refs, 0, 0, 0)
  }

  /** The references of the orders that a trade finishes. */
  function GoneRefs(buyer: nat, seller: nat, buyGone: bool, sellGone: bool, k: nat): int
  {
    If(buyGone && buyer == k, -1) + If(sellGone && seller == k, -1)
  }

  lemma ThreePayments(x: Tally, buyer: nat, seller: nat, q: nat, price: int, maxPrice: int, k: nat)
    ensures Add(Add(Add(x, Funds(Product(q, price), seller == k)), Goods(q, buyer == k)),
                Funds(Product(q, maxPrice - price), buyer == k))
         == Add(x, Settled(buyer, seller, q, price, maxPrice, 0, k))
  {
  }

  lemma PaymentsMove(ts: Traders, buyer: nat, seller: nat, quantity: u32, price: u32, maxPrice: u32, k: nat)
    requires Live(ts, buyer) && Live(ts, seller) && price <= maxPrice
    ensures Assets(Settle(ts, buyer, seller, quantity, price, maxPrice, false, false).slots, k) ==
      Add(Assets(ts.slots, k), Settled(buyer, seller, quantity, price, maxPrice, 0, k))
  {
    var ts1 := IncreaseBalance(ts, seller, Cost(quantity, price));
    FundsMove(ts, seller, Cost(quantity, price), k);
    var ts2 := IncreaseInventory(ts1, buyer, quantity);
    GoodsMove(ts1, buyer, quantity, k);
    FundsMove(ts2, buyer, Cost(quantity, maxPrice - price), k);
    ThreePayments(Assets(ts.slots, k), buyer, seller, quantity, price, maxPrice, k);
  }

  /** Nothing in a settlement but the two last steps touches a name, a session or a reference. */
  lemma PaymentsKeep(ts: Traders, buyer: nat, seller: nat, quantity: u32, price: u32, maxPrice: u32)
    requires Live(ts, buyer) && Live(ts, seller) && price <= maxPrice
    ensures var ts' := Settle(ts, buyer, seller, quantity, price, maxPrice, false, false);
      && |ts'.slots| == |ts.slots| && ts'.count == ts.count
      && forall s :: 0 <= s < |ts.slots| ==>
           && ts'.slots[s].Some? == ts.slots[s].Some?
           && (ts.slots[s].Some? ==>
                 && ts'.slots[s].value.name == ts.slots[s].value.name
                 && ts'.slots[s].value.ref == ts.slots[s].value.ref
                 && ts'.slots[s].value.fd == ts.slots[s].value.fd)
  {
  }

  lemma UnrefIfMoves(ts: Traders, s: nat, gone: bool, k: nat)
    requires Live(ts, s) && Acct(ts, s).ref != 1
    ensures Assets(UnrefIf(ts, s, gone).slots, k) == Add(Assets(ts.slots, k), Refs(If(gone && s == k, -1)))
  {
    RefsMove(ts, s, k);
    Columns(Assets(ts.slots, k), Add(Assets(ts.slots, k), Refs(If(false && s == k, -1))));
  }

  lemma SettledRefs(x: Tally, buyer: nat, seller: nat, q: nat, price: int, maxPrice: int, r1: int, r2: int, k: nat)
    ensures Add(Add(Add(x, Settled(buyer, seller, q, price, maxPrice, 0, k)), Refs(r1)), Refs(r2))
         == Add(x, Settled(buyer, seller, q, price, maxPrice, r1 + r2, k))
  {
  }

  /** What a trade does to the accounts, when neither trader's last reference goes. */
  lemma SettleMoves(ts: Traders, buyer: nat, seller: nat, quantity: u32, price: u32, maxPrice: u32,
                    buyGone: bool, sellGone: bool, k: nat)
    requires Live(ts, buyer) && Live(ts, seller) && price <= maxPrice
    requires var same := If(buyer == seller, 1); Acct(ts, buyer).ref > 1 + same && Acct(ts, seller).ref > 1 + same
    ensures Assets(Settle(ts, buyer, seller, quantity, price, maxPrice, buyGone, sellGone).slots, k) ==
      Add(Assets(ts.slots, k),
          Settled(buyer, seller, quantity, price, maxPrice, GoneRefs(buyer, seller, buyGone, sellGone, k), k))
  {
    var ts3 := Settle(ts, buyer, seller, quantity, price, maxPrice, false, false);
    PaymentsMove(ts, buyer, seller, quantity, price, maxPrice, k);
    PaymentsKeep(ts, buyer, seller, quantity, price, maxPrice);
    var ts4 := UnrefIf(ts3, buyer, buyGone);
    UnrefIfMoves(ts3, buyer, buyGone, k);
    UnrefIfMoves(ts4, seller, sellGone, k);
    SettledRefs(Assets(ts.slots, k), buyer, seller, quantity, price, maxPrice,
                If(buyGone && buyer == k, -1), If(sellGone && seller == k, -1), k);
  }

  lemma BothFilled(buys: seq<Order>, sells: seq<Order>, i: nat, j: nat, q: u32, k: nat, id: nat)
    requires i < |buys| && j < |sells| && q <= buys[i].quantity && q <= sells[j].quantity
    ensures Pending(Fill(buys, i, q), Fill(sells, j, q), k, id) ==
      Add(Pending(buys, sells, k, id), Add(BuyTaken(buys[i], q, k, id), SellTaken(sells[j], q, k, id)))
  {
    BuyFilled(buys, sells, i, q, k, id);
    SellFilled(Fill(buys, i, q), sells, j, q, k, id);
    AddTwice(Pending(buys, sells, k, id), BuyTaken(buys[i], q, k, id), SellTaken(sells[j], q, k, id));
  }

  /** Proceeds and refund together are what the buy order had set aside for the units traded. */
  lemma TradeSays(buy: Order, sell: Order, q: nat, price: nat, k: nat, id: nat)
    requires price <= buy.price
    ensures Saying(Traded(buy.id, sell.id, buy.trader, sell.trader, q, price, buy.price, sell.price), k, id) ==
      Add(Settled(buy.trader, sell.trader, q, price, buy.price,
                  GoneRefs(buy.trader, sell.trader, q == buy.quantity, q == sell.quantity, k), k),
          Add(BuyTaken(buy, q, k, id), SellTaken(sell, q, k, id)))
  {
    ProductOfSum(q, price, buy.price - price);
  }

  lemma TradeEven(b: Bourse, i: nat, j: nat, k: nat, id: nat)
    requires Matches(b, i, j) && Live(b.ts, b.buys[i].trader) && Live(b.ts, b.sells[j].trader)
    requires var same := If(b.buys[i].trader == b.sells[j].trader, 1);
      Acct(b.ts, b.buys[i].trader).ref > 1 + same && Acct(b.ts, b.sells[j].trader).ref > 1 + same
    requires Even(b, k, id)
    ensures Even(Trade(b, i, j), k, id)
  {
    var buy, sell := b.buys[i], b.sells[j];
    var price := Clamp(b.last, sell.price, buy.price);
    var q := Min(buy.quantity, sell.quantity);
    SettleMoves(b.ts, buy.trader, sell.trader, q, price, buy.price, q == buy.quantity, q == sell.quantity, k);
    BothFilled(b.buys, b.sells, i, j, q, k, id);
    TradeSays(buy, sell, q, price, k, id);
    StaysEven(b, Trade(b, i, j),
              Traded(buy.id, sell.id, buy.trader, sell.trader, q, price, buy.price, sell.price), k, id,
              Settled(buy.trader, sell.trader, q, price, buy.price,
                      GoneRefs(buy.trader, sell.trader, q == buy.quantity, q == sell.quantity, k), k),
              Add(BuyTaken(buy, q, k, id), SellTaken(sell, q, k, id)));
  }

  lemma LoginSays(s: nat, k: nat, id: nat)
    ensures Saying(LoggedIn(s), k, id) == Sessions(If(s == k, 1))
  {
  }

  lemma RefusalSays(s: nat, k: nat, id: nat)
    ensures Saying(LoginRefused(s), k, id) == Refs(If(s == k, 1))
  {
  }

  lemma LogoutSays(s: nat, k: nat, id: nat)
    ensures Saying(LoggedOut(s), k, id) == Sessions(If(s == k, -1))
  {
  }

  /** Opening or ending a session moves one reference between the session and the rest. */
  lemma SessionMoves(ts: Traders, s: nat, fd: int, ref: int, k: nat)
    requires Live(ts, s)
    requires ref == Acct(ts, s).ref + (if fd == -1 then 0 else 1) - (if Acct(ts, s).fd == -1 then 0 else 1)
    ensures Assets(Put(ts, s, Acct(ts, s).(ref := ref, fd := fd)).slots, k) ==
      Add(Assets(ts.slots, k), Sessions(If(s == k, ref - Acct(ts, s).ref)))
  {
    AssetsPut(ts, s, Acct(ts, s).(ref := ref, fd := fd), k);
  }

  lemma FirstLoginMoves(ts: Traders, s: nat, fd: int, name: string, k: nat)
    requires s < |ts.slots| && ts.slots[s].None? && fd != -1
    ensures Assets(Put(ts, s, Account(name, 2, fd, 0, 0, 0, 0)).slots, k) ==
      Add(Assets(ts.slots, k), Sessions(If(s == k, 1)))
  {
    AssetsPut(ts, s, Account(name, 2, fd, 0, 0, 0, 0), k);
  }

  lemma FirstLoginEven(b: Bourse, fd: int, name: string, k: nat, id: nat)
    requires Packed(b.ts) && 0 <= fd && Even(b, k, id)
    requires FindFirst(b.ts.slots, Named(name)) == -1 && b.ts.count < MAX_TRADERS
    ensures Even(LogIn(b, fd, name).0, k, id)
  {
    hide Product;
    var s := b.ts.count;
    FreshLogin(b.ts, fd, name);
    FirstLoginMoves(b.ts, s, fd, name, k);
    LoginSays(s, k, id);
    AccountsStayEven(b, LogIn(b, fd, name).0, LoggedIn(s), k, id);
  }

  lemma ReloginEven(b: Bourse, s: nat, fd: int, name: string, k: nat, id: nat)
    requires FindFirst(b.ts.slots, Named(name)) == s && Acct(b.ts, s).fd == -1 && 0 <= fd && Even(b, k, id)
    ensures Even(LogIn(b, fd, name).0, k, id)
  {
    hide Assets, Pending, History, Saying;
    ReloginIs(b.ts, s, fd, name);
    SessionMoves(b.ts, s, fd, Acct(b.ts, s).ref + 1, k);
    LoginSays(s, k, id);
    AccountsStayEven(b, LogIn(b, fd, name).0, LoggedIn(s), k, id);
  }

  lemma RefusedEven(b: Bourse, s: nat, fd: int, name: string, k: nat, id: nat)
    requires FindFirst(b.ts.slots, Named(name)) == s && Acct(b.ts, s).fd != -1 && Even(b, k, id)
    ensures Even(LogIn(b, fd, name).0, k, id)
  {
    RefsMove(b.ts, s, k);
    RefusalSays(s, k, id);
    AccountsStayEven(b, LogIn(b, fd, name).0, LoginRefused(s), k, id);
  }

  lemma LogInEven(b: Bourse, fd: int, name: string, k: nat, id: nat)
    requires Packed(b.ts) && 0 <= fd && Even(b, k, id)
    ensures Even(LogIn(b, fd, name).0, k, id)
  {
    hide Assets, Pending, History, Saying;
    var known := FindFirst(b.ts.slots, Named(name));
    if known != -1 {
      if Acct(b.ts, known).fd == -1 {
        ReloginEven(b, known, fd, name, k, id);
      } else {
        RefusedEven(b, known, fd, name, k, id);
      }
    } else if b.ts.count < MAX_TRADERS {
      FirstLoginEven(b, fd, name, k, id);
    }
  }

  lemma LogoutIs(ts: Traders, s: nat)
    requires Live(ts, s) && Acct(ts, s).ref != 1
    ensures Logout(ts, s) == Put(ts, s, Acct(ts, s).(ref := Acct(ts, s).ref - 1, fd := -1))
  {
    var a := Acct(ts, s).(ref := Acct(ts, s).ref - 1, fd := -1);
    assert Unref(ts, s).slots[s := Some(a)] == ts.slots[s := Some(a)];
  }

  lemma ReloginIs(ts: Traders, s: nat, fd: int, name: string)
    requires FindFirst(ts.slots, Named(name)) == s && Acct(ts, s).fd == -1
    ensures Login(ts, fd, name) == (Put(ts, s, Acct(ts, s).(ref := Acct(ts, s).ref + 1, fd := fd)), s)
  {
    var a, ts' := Acct(ts, s), Ref(ts, s);
    assert ts'.slots[s := Some(a.(ref := a.ref + 1, fd := fd))] == ts.slots[s := Some(a.(ref := a.ref + 1, fd := fd))];
  }

  lemma LogOutEven(b: Bourse, s: nat, k: nat, id: nat)
    requires Live(b.ts, s) && Acct(b.ts, s).ref != 1 && Acct(b.ts, s).fd != -1 && Even(b, k, id)
    ensures Even(LogOut(b, s), k, id)
  {
    var a := Acct(b.ts, s);
    SessionMoves(b.ts, s, -1, a.ref - 1, k);
    LogoutIs(b.ts, s);
    LogoutSays(s, k, id);
    AccountsStayEven(b, LogOut(b, s), LoggedOut(s), k, id);
  }
}
