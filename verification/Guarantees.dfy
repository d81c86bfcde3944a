/** What the books say to a trader or an operator: conservation, no wraparound, accounts as replays
    of acknowledged requests, per-order ledgers, and the end of matching. */
module Guarantees {
  import opened Accounts
  import opened Market
  import opened Ledger
  import opened MarketLaws
  import opened Sums
  import opened Tape

  function Balance(o: Option<Account>): int { if o.Some? then o.value.balance else 0 }

  function BalanceWraps(o: Option<Account>): int { if o.Some? then o.value.balanceWraps else 0 }

  function Inventory(o: Option<Account>): int { if o.Some? then o.value.inventory else 0 }

  function InventoryWraps(o: Option<Account>): int { if o.Some? then o.value.inventoryWraps else 0 }

  lemma {:induction false} TrueIsCarried(slots: seq<Option<Account>>)
    ensures Sum(slots, TrueBalance) == Sum(slots, Balance) + 0x1_0000_0000 * Sum(slots, BalanceWraps)
    ensures Sum(slots, TrueInventory) == Sum(slots, Inventory) + 0x1_0000_0000 * Sum(slots, InventoryWraps)
  {
    if slots != [] {
      TrueIsCarried(slots[1..]);
      if slots[0].Some? {
        ProductIs(slots[0].value.balanceWraps, 0x1_0000_0000);
        ProductIs(slots[0].value.inventoryWraps, 0x1_0000_0000);
      }
    }
  }

  /** Conservation: balances, encumbered funds and what was lost to wraparound add up to deposits
      minus withdrawals; and the same for units. */
  lemma Conservation(b: Bourse)
    requires Sound(b)
    ensures Sum(b.ts.slots, Balance) + 0x1_0000_0000 * Sum(b.ts.slots, BalanceWraps) + Sum(b.buys, Encumbered)
      == Sum(b.journal, FundsIn)
    ensures Sum(b.ts.slots, Inventory) + 0x1_0000_0000 * Sum(b.ts.slots, InventoryWraps) + Sum(b.sells, Quantity)
      == Sum(b.journal, GoodsIn)
  {
    assert Even(b, 0, 0);
    TrueIsCarried(b.ts.slots);
  }

  ghost predicate NoBalanceWrapped(ts: Traders)
  {
    forall k :: 0 <= k < |ts.slots| ==> BalanceWraps(ts.slots[k]) == 0
  }

  ghost predicate NoInventoryWrapped(ts: Traders)
  {
    forall k :: 0 <= k < |ts.slots| ==> InventoryWraps(ts.slots[k]) == 0
  }

  lemma WrapSums(ts: Traders)
    ensures 0 <= Sum(ts.slots, BalanceWraps) && 0 <= Sum(ts.slots, InventoryWraps)
    ensures NoBalanceWrapped(ts) <==> Sum(ts.slots, BalanceWraps) == 0
    ensures NoInventoryWrapped(ts) <==> Sum(ts.slots, InventoryWraps) == 0
  {
    SumNonNeg(ts.slots, BalanceWraps);
    SumNonNeg(ts.slots, InventoryWraps);
    forall k | 0 <= k < |ts.slots|
      ensures BalanceWraps(ts.slots[k]) <= Sum(ts.slots, BalanceWraps)
      ensures InventoryWraps(ts.slots[k]) <= Sum(ts.slots, InventoryWraps)
    {
      SumAtLeast(ts.slots, k, BalanceWraps);
      SumAtLeast(ts.slots, k, InventoryWraps);
    }
    if NoBalanceWrapped(ts) { SumConst(ts.slots, 0, BalanceWraps); }
    if NoInventoryWrapped(ts) { SumConst(ts.slots, 0, InventoryWraps); }
  }

  /** The plain statement, without the wraps, is true exactly while no `+=` on a balance has wrapped. */
  lemma ConservedExactly(b: Bourse)
    requires Sound(b)
    ensures Sum(b.ts.slots, Balance) + Sum(b.buys, Encumbered) == Sum(b.journal, FundsIn) <==> NoBalanceWrapped(b.ts)
    ensures Sum(b.ts.slots, Inventory) + Sum(b.sells, Quantity) == Sum(b.journal, GoodsIn) <==> NoInventoryWrapped(b.ts)
  {
    Conservation(b);
    WrapSums(b.ts);
  }

  /** While net deposits fit in 32 bits, no balance has ever wrapped, whatever was traded or refunded
      on the way; and the same for escrowed units. */
  lemma NoWraparound(b: Bourse)
    requires Sound(b)
    ensures Sum(b.journal, FundsIn) < 0x1_0000_0000 ==> NoBalanceWrapped(b.ts)
    ensures Sum(b.journal, GoodsIn) < 0x1_0000_0000 ==> NoInventoryWrapped(b.ts)
  {
    Conservation(b);
    WrapSums(b.ts);
    SumNonNeg(b.ts.slots, Balance);
    SumNonNeg(b.ts.slots, Inventory);
    SumNonNeg(b.sells, Quantity);
    EncumberedNonNeg(b.buys);
  }

  lemma {:induction false} EncumberedNonNeg(orders: seq<Order>)
    ensures 0 <= Sum(orders, Encumbered)
  {
    if orders != [] {
      ProductNonNeg(orders[0].quantity, orders[0].price);
      EncumberedNonNeg(orders[1..]);
    }
  }

  /** A deposit wraps exactly when balance and amount together pass 32 bits; then funds are lost. */
  lemma DepositWraps(b: Bourse, k: nat, amount: u32)
    requires Live(b.ts, k)
    ensures var a, a' := Acct(b.ts, k), Acct(Deposit(b, k, amount).ts, k);
      && (a'.balanceWraps == a.balanceWraps <==> a.balance + amount < 0x1_0000_0000)
      && (a.balance + amount >= 0x1_0000_0000 ==> a'.balance < a.balance)
  {
    var sum := Acct(b.ts, k).balance + amount;
    if 0x1_0000_0000 <= sum {
      assert Low(sum) == Low(sum - 0x1_0000_0000) == sum - 0x1_0000_0000;
    }
  }

  /** The plain conservation statement fails on a concrete run: two deposits that wrap a balance. */
  lemma ConservationCanFail(fd: nat, name: string) returns (b: Bourse)
    ensures Sound(b) && Sum(b.ts.slots, Balance) + Sum(b.buys, Encumbered) != Sum(b.journal, FundsIn)
  {
    hide Even;
    OpeningSound(0);
    var b0 := Opening(0);
    LogInSound(b0, fd, name);
    NoneIs(b0.ts.slots, Named(name));
    FreshLogin(b0.ts, fd, name);
    var b1 := LogIn(b0, fd, name).0;
    DepositSound(b1, 0, 0xFFFF_FFFF);
    var b2 := Deposit(b1, 0, 0xFFFF_FFFF);
    DepositSound(b2, 0, 1);
    b := Deposit(b2, 0, 1);
    DepositWraps(b2, 0, 1);
    assert BalanceWraps(b.ts.slots[0]) != 0;
    ConservedExactly(b);
  }

  lemma {:induction false} LowPart(x: u32, wraps: nat)
    ensures (x + Product(wraps, 0x1_0000_0000)) % 0x1_0000_0000 == x
  {
    if wraps != 0 {
      LowPart(x, wraps - 1);
    }
  }

  /** Each account is the replay of what was acknowledged to it, modulo 2^32. */
  lemma AccountIsReplay(b: Bourse, k: nat)
    requires Sound(b) && Live(b.ts, k)
    ensures Acct(b.ts, k).balance == Sum(b.journal, BalanceOf(k)) % 0x1_0000_0000
    ensures Acct(b.ts, k).inventory == Sum(b.journal, InventoryOf(k)) % 0x1_0000_0000
  {
    TrueColumns(b, k);
    var a := Acct(b.ts, k);
    hide *;
    LowPart(a.balance, a.balanceWraps);
    LowPart(a.inventory, a.inventoryWraps);
  }

  lemma TrueColumns(b: Bourse, k: nat)
    requires Sound(b) && Live(b.ts, k)
    ensures var a := Acct(b.ts, k);
      && a.balance + Product(a.balanceWraps, 0x1_0000_0000) == Sum(b.journal, BalanceOf(k))
      && a.inventory + Product(a.inventoryWraps, 0x1_0000_0000) == Sum(b.journal, InventoryOf(k))
  {
    assert Even(b, k, 0);
  }

  // ---- One order ----

  function PostedOf(id: nat): Entry -> int
  {
    (e: Entry) => if e.Posted? && e.id == id then e.quantity else 0
  }

  function TradedOf(id: nat): Entry -> int
  {
    (e: Entry) =>
      if e.Traded? then (if e.buyId == id then e.quantity else 0) + (if e.sellId == id then e.quantity else 0) else 0
  }

  function CanceledOf(id: nat): Entry -> int
  {
    (e: Entry) => if e.Canceled? && e.id == id then e.quantity else 0
  }

  lemma {:induction false} QuantityParts(j: seq<Entry>, id: nat)
    ensures Sum(j, QuantityOf(id)) == Sum(j, PostedOf(id)) - Sum(j, TradedOf(id)) - Sum(j, CanceledOf(id))
  {
    if j != [] {
      QuantityParts(j[1..], id);
    }
  }

  /** Whatever was posted under a number = traded + canceled + still pending. */
  lemma NumberQuantity(b: Bourse, id: nat)
    requires Sound(b)
    ensures Sum(b.journal, PostedOf(id)) ==
      Sum(b.journal, TradedOf(id)) + Sum(b.journal, CanceledOf(id))
      + Sum(b.buys, QuantityAt(id)) + Sum(b.sells, QuantityAt(id))
  {
    assert Even(b, 0, id);
    QuantityParts(b.journal, id);
  }

  function SetAside(id: nat): Entry -> int
  {
    (e: Entry) => if e.Posted? && e.side.Buy? && e.id == id then Product(e.quantity, e.price) else 0
  }

  function Paid(id: nat): Entry -> int
  {
    (e: Entry) => if e.Traded? && e.buyId == id then Product(e.quantity, e.price) else 0
  }

  function Refunded(id: nat): Entry -> int
  {
    (e: Entry) => if e.Traded? && e.buyId == id then Product(e.quantity, e.maxPrice - e.price) else 0
  }

  function Returned(id: nat): Entry -> int
  {
    (e: Entry) => if e.Canceled? && e.side.Buy? && e.id == id then Product(e.quantity, e.price) else 0
  }

  lemma {:induction false} CostParts(j: seq<Entry>, id: nat)
    ensures Sum(j, CostOf(id)) == Sum(j, SetAside(id)) - Sum(j, Paid(id)) - Sum(j, Refunded(id)) - Sum(j, Returned(id))
  {
    if j != [] {
      CostParts(j[1..], id);
    }
  }

  /** What was set aside under a number = paid + refunded + returned + still encumbered. */
  lemma NumberFunds(b: Bourse, id: nat)
    requires Sound(b)
    ensures Sum(b.journal, SetAside(id)) ==
      Sum(b.journal, Paid(id)) + Sum(b.journal, Refunded(id)) + Sum(b.journal, Returned(id)) + Sum(b.buys, CostAt(id))
  {
    assert Even(b, 0, id);
    CostParts(b.journal, id);
  }

  /** The pending orders, trades and cancellations of a number are those of its one posting. */
  lemma OfOnePosting(b: Bourse, first: int, p: nat)
    requires Truthful(b, first) && p < |b.journal| && b.journal[p].Posted?
    ensures var e := b.journal[p];
      && (forall o :: o in b.buys && o.id == e.id ==> e.side.Buy? && o.trader == e.trader && o.price == e.price)
      && (forall o :: o in b.sells && o.id == e.id ==> e.side.Sell? && o.trader == e.trader && o.price == e.price)
      && (forall q :: 0 <= q < |b.journal| && b.journal[q].Traded? && b.journal[q].buyId == e.id ==>
            p < q && e.side.Buy? && b.journal[q].buyer == e.trader && b.journal[q].maxPrice == e.price)
      && (forall q :: 0 <= q < |b.journal| && b.journal[q].Traded? && b.journal[q].sellId == e.id ==>
            p < q && e.side.Sell? && b.journal[q].seller == e.trader && b.journal[q].minPrice == e.price)
      && (forall q :: 0 <= q < |b.journal| && b.journal[q].Canceled? && b.journal[q].id == e.id ==>
            p < q && b.journal[q].side == e.side && b.journal[q].trader == e.trader && b.journal[q].price == e.price)
  {
    var j, e := b.journal, b.journal[p];
    forall o | o in b.buys && o.id == e.id
      ensures e.side.Buy? && o.trader == e.trader && o.price == e.price
    {
      var i :| 0 <= i < |b.buys| && b.buys[i] == o;
      var r :| PostedAt(j, r, Buy, o.id, o.trader, o.price);
      assert r == p;
    }
    forall o | o in b.sells && o.id == e.id
      ensures e.side.Sell? && o.trader == e.trader && o.price == e.price
    {
      var i :| 0 <= i < |b.sells| && b.sells[i] == o;
      var r :| PostedAt(j, r, Sell, o.id, o.trader, o.price);
      assert r == p;
    }
    forall q | 0 <= q < |j| && j[q].Traded? && j[q].buyId == e.id
      ensures p < q && e.side.Buy? && j[q].buyer == e.trader && j[q].maxPrice == e.price
    {
      assert GoodTrade(j[..q], j[q], first);
      var r :| PostedAt(j[..q], r, Buy, j[q].buyId, j[q].buyer, j[q].maxPrice);
      assert r == p;
    }
    forall q | 0 <= q < |j| && j[q].Traded? && j[q].sellId == e.id
      ensures p < q && e.side.Sell? && j[q].seller == e.trader && j[q].minPrice == e.price
    {
      assert GoodTrade(j[..q], j[q], first);
      var r :| PostedAt(j[..q], r, Sell, j[q].sellId, j[q].seller, j[q].minPrice);
      assert r == p;
    }
    forall q | 0 <= q < |j| && j[q].Canceled? && j[q].id == e.id
      ensures p < q && j[q].side == e.side && j[q].trader == e.trader && j[q].price == e.price
    {
      var r :| PostedAt(j[..q], r, j[q].side, j[q].id, j[q].trader, j[q].price);
      assert r == p;
    }
  }

  /** For every order: posted = traded + canceled + still pending. */
  lemma OrderQuantity(b: Bourse, first: int, p: nat)
    requires Sound(b) && Truthful(b, first) && p < |b.journal| && b.journal[p].Posted?
    ensures var e := b.journal[p];
      e.quantity == Sum(b.journal, TradedOf(e.id)) + Sum(b.journal, CanceledOf(e.id))
        + Sum(if e.side.Buy? then b.buys else b.sells, QuantityAt(e.id))
  {
    var e := b.journal[p];
    NumberQuantity(b, e.id);
    SumOnly(b.journal, p, PostedOf(e.id));
    OfOnePosting(b, first, p);
    SumConst(if e.side.Buy? then b.sells else b.buys, 0, QuantityAt(e.id));
  }

  /** For every buy order: what was encumbered when it was posted = paid + refunded on better prices
      + returned on cancel + maximum cost of what is still pending. */
  lemma OrderFunds(b: Bourse, first: int, p: nat)
    requires Sound(b) && Truthful(b, first) && p < |b.journal| && b.journal[p].Posted? && b.journal[p].side.Buy?
    ensures var e := b.journal[p];
      Product(e.quantity, e.price) ==
        Sum(b.journal, Paid(e.id)) + Sum(b.journal, Refunded(e.id)) + Sum(b.journal, Returned(e.id))
        + Sum(b.buys, CostAt(e.id))
  {
    NumberFunds(b, b.journal[p].id);
    SumOnly(b.journal, p, SetAside(b.journal[p].id));
  }

  // ---- The end of matching ----

  ghost predicate Uncrossed(b: Bourse)
  {
    forall i, j :: 0 <= i < |b.buys| && 0 <= j < |b.sells| ==> !Matches(b, i, j)
  }

  /** Every trade finishes at least one order, so matching ends. */
  lemma TradeShrinks(b: Bourse, i: nat, j: nat)
    requires Matches(b, i, j) && Live(b.ts, b.buys[i].trader) && Live(b.ts, b.sells[j].trader)
    ensures |Trade(b, i, j).buys| + |Trade(b, i, j).sells| < |b.buys| + |b.sells|
  {
  }

  /** The highest buy price and the lowest sell price; 0 when there is none. */
  function Bid(buys: seq<Order>): (p: u32)
    ensures forall i :: 0 <= i < |buys| ==> buys[i].price <= p
    ensures buys != [] ==> exists i :: 0 <= i < |buys| && buys[i].price == p
  {
    if buys == [] then 0
    else
      var p := Bid(buys[1..]);
      if |buys| == 1 || p <= buys[0].price then assert buys[0].price == buys[0].price; buys[0].price
      else
        assert exists i :: 0 <= i < |buys[1..]| && buys[1..][i].price == p && buys[i + 1].price == p;
        p
  }

  function Ask(sells: seq<Order>): (p: u32)
    ensures forall j :: 0 <= j < |sells| ==> p <= sells[j].price
    ensures sells != [] ==> exists j :: 0 <= j < |sells| && sells[j].price == p
  {
    if sells == [] then 0
    else
      var p := Ask(sells[1..]);
      if |sells| == 1 || sells[0].price <= p then assert sells[0].price == sells[0].price; sells[0].price
      else
        assert exists j :: 0 <= j < |sells[1..]| && sells[1..][j].price == p && sells[j + 1].price == p;
        p
  }

  /** When no orders match, the bid is below the ask, and only then. */
  lemma BidBelowAsk(b: Bourse)
    requires b.buys != [] && b.sells != []
    ensures Uncrossed(b) <==> Bid(b.buys) < Ask(b.sells)
  {
    var i :| 0 <= i < |b.buys| && b.buys[i].price == Bid(b.buys);
    var j :| 0 <= j < |b.sells| && b.sells[j].price == Ask(b.sells);
    assert Matches(b, i, j) <==> Ask(b.sells) <= Bid(b.buys);
  }
}
