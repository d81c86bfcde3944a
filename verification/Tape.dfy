/** The history as a whole: every trade goes back to two earlier postings and is made at the allowed
    price closest to the last one; logins and logouts of a trader alternate. */
module Tape {
  import opened Accounts
  import opened Market
  import opened Ledger
  import opened MarketLaws
  import opened Sums

  /** The price of the latest trade, or `first` before any. */
  function LastPrice(j: seq<Entry>, first: int): int
    decreases |j|
  {
    if j == [] then first
    else
      var e := j[|j| - 1];
      if e.Traded? then e.price else LastPrice(j[..|j| - 1], first)
  }

  ghost predicate PostedAt(j: seq<Entry>, p: nat, side: Side, id: nat, trader: nat, price: nat)
  {
    p < |j| && j[p].Posted? && j[p].side == side && j[p].id == id && j[p].trader == trader && j[p].price == price
  }

  /** The order was announced with this side, owner and limit. */
  ghost predicate Announced(j: seq<Entry>, side: Side, id: nat, trader: nat, price: nat)
  {
    exists p :: PostedAt(j, p, side, id, trader, price)
  }

  /** No price in [low, high] is closer to `last`. */
  ghost predicate Closest(price: int, last: int, low: int, high: int)
  {
    low <= price <= high && forall x :: low <= x <= high ==> Distance(price, last) <= Distance(x, last)
  }

  function Distance(x: int, y: int): nat
  {
    if x < y then y - x else x - y
  }

  /** A trade entry e after the history j: both orders announced before, and the price rule. */
  ghost predicate GoodTrade(j: seq<Entry>, e: Entry, first: int)
    requires e.Traded?
  {
    && Announced(j, Buy, e.buyId, e.buyer, e.maxPrice)
    && Announced(j, Sell, e.sellId, e.seller, e.minPrice)
    && Closest(e.price, LastPrice(j, first), e.minPrice, e.maxPrice)
  }

  ghost predicate GoodTrades(j: seq<Entry>, first: int)
  {
    forall p :: 0 <= p < |j| && j[p].Traded? ==> GoodTrade(j[..p], j[p], first)
  }

  /** Successful logins of a trader exceed its logouts by at most one, at every moment. */
  ghost predicate Alternates(j: seq<Entry>)
  {
    forall p, k: nat :: 0 <= p <= |j| ==> 0 <= Sum(j[..p], SessionOf(k)) <= 1
  }

  ghost predicate AllAnnounced(j: seq<Entry>, orders: seq<Order>, side: Side)
  {
    forall i :: 0 <= i < |orders| ==> Announced(j, side, orders[i].id, orders[i].trader, orders[i].price)
  }

  /** Every cancellation is of an order announced before. */
  ghost predicate GoodCancels(j: seq<Entry>)
  {
    forall p :: 0 <= p < |j| && j[p].Canceled? ==> Announced(j[..p], j[p].side, j[p].id, j[p].trader, j[p].price)
  }

  /** Every posting has a number of its own, below the next one to be given out. */
  ghost predicate Numbered(j: seq<Entry>, nextId: nat)
  {
    && (forall p :: 0 <= p < |j| && j[p].Posted? ==> j[p].id < nextId)
    && (forall p, q :: 0 <= p < q < |j| && j[p].Posted? && j[q].Posted? ==> j[p].id != j[q].id)
  }

  ghost predicate Truthful(b: Bourse, first: int)
  {
    && GoodTrades(b.journal, first) && GoodCancels(b.journal)
    && Alternates(b.journal) && Numbered(b.journal, b.nextId)
    && b.last == LastPrice(b.journal, first)
    && AllAnnounced(b.journal, b.buys, Buy) && AllAnnounced(b.journal, b.sells, Sell)
  }

  lemma OpeningTruthful(first: u32)
    ensures Truthful(Opening(first), first)
  {
  }

  lemma ClampIsClosest(last: u32, low: u32, high: u32)
    requires low <= high
    ensures Closest(Clamp(last, low, high), last, low, high)
  {
  }

  lemma AnnouncedStays(j: seq<Entry>, e: Entry, side: Side, id: nat, trader: nat, price: nat)
    requires Announced(j, side, id, trader, price)
    ensures Announced(j + [e], side, id, trader, price)
  {
    var p :| PostedAt(j, p, side, id, trader, price);
    assert PostedAt(j + [e], p, side, id, trader, price);
  }

  lemma AllAnnouncedStays(j: seq<Entry>, e: Entry, orders: seq<Order>, side: Side)
    requires AllAnnounced(j, orders, side)
    ensures AllAnnounced(j + [e], orders, side)
  {
    forall i | 0 <= i < |orders|
      ensures Announced(j + [e], side, orders[i].id, orders[i].trader, orders[i].price)
    {
      AnnouncedStays(j, e, side, orders[i].id, orders[i].trader, orders[i].price);
    }
  }

  lemma NumberedWith(j: seq<Entry>, e: Entry, nextId: nat)
    requires Numbered(j, nextId) && (e.Posted? ==> e.id == nextId)
    ensures Numbered(j + [e], if e.Posted? then nextId + 1 else nextId)
  {
  }

  lemma AlternatesWith(b: Bourse, j: seq<Entry>, e: Entry)
    requires Sound(b) && Alternates(j) && b.journal == j + [e]
    ensures Alternates(j + [e])
  {
    hide Sound, SessionOf, Sum;
    forall p, k: nat | 0 <= p <= |j + [e]|
      ensures 0 <= Sum((j + [e])[..p], SessionOf(k)) <= 1
    {
      if p <= |j| {
        assert (j + [e])[..p] == j[..p];
      } else {
        assert (j + [e])[..p] == j + [e];
        SessionNow(b, k);
      }
    }
  }

  /** One more entry, which is a trade only if it is a good one. */
  lemma Told(b: Bourse, b': Bourse, e: Entry, first: int)
    requires Truthful(b, first) && Sound(b') && b'.journal == b.journal + [e]
    requires e.Traded? ==> GoodTrade(b.journal, e, first)
    requires e.Canceled? ==> Announced(b.journal, e.side, e.id, e.trader, e.price)
    requires b'.nextId == (if e.Posted? then b.nextId + 1 else b.nextId) && (e.Posted? ==> e.id == b.nextId)
    ensures GoodTrades(b'.journal, first) && GoodCancels(b'.journal)
    ensures Alternates(b'.journal) && Numbered(b'.journal, b'.nextId)
    ensures LastPrice(b'.journal, first) == if e.Traded? then e.price else LastPrice(b.journal, first)
    ensures AllAnnounced(b'.journal, b.buys, Buy) && AllAnnounced(b'.journal, b.sells, Sell)
  {
    hide Sound, GoodTrades, GoodCancels, Alternates, Numbered, AllAnnounced;
    var j := b.journal;
    AllAnnouncedStays(j, e, b.buys, Buy);
    AllAnnouncedStays(j, e, b.sells, Sell);
    assert (j + [e])[..|j|] == j;
    TradesStayGood(j, e, first);
    CancelsStayGood(j, e);
    NumberedWith(j, e, b.nextId);
    AlternatesWith(b', j, e);
  }

  lemma TradesStayGood(j: seq<Entry>, e: Entry, first: int)
    requires GoodTrades(j, first) && (e.Traded? ==> GoodTrade(j, e, first))
    ensures GoodTrades(j + [e], first)
  {
    forall p | 0 <= p < |j + [e]| && (j + [e])[p].Traded?
      ensures GoodTrade((j + [e])[..p], (j + [e])[p], first)
    {
      assert (j + [e])[..p] == j[..p];
      if p == |j| { assert j[..p] == j; }
    }
  }

  lemma CancelsStayGood(j: seq<Entry>, e: Entry)
    requires GoodCancels(j) && (e.Canceled? ==> Announced(j, e.side, e.id, e.trader, e.price))
    ensures GoodCancels(j + [e])
  {
    forall p | 0 <= p < |j + [e]| && (j + [e])[p].Canceled?
      ensures Announced((j + [e])[..p], (j + [e])[p].side, (j + [e])[p].id, (j + [e])[p].trader, (j + [e])[p].price)
    {
      assert (j + [e])[..p] == j[..p];
      if p == |j| { assert j[..p] == j; }
    }
  }

  /** A trader is logged in exactly when it has logged in once more than it has logged out. */
  lemma SessionNow(b: Bourse, k: nat)
    requires Sound(b)
    ensures Sum(b.journal, SessionOf(k)) == if Live(b.ts, k) && Acct(b.ts, k).fd != -1 then 1 else 0
  {
    assert Even(b, k, 0);
  }

  lemma PostTruthful(b: Bourse, b': Bourse, o: Order, side: Side, first: int)
    requires Truthful(b, first) && Sound(b') && b'.last == b.last
    requires b'.journal == b.journal + [Posted(side, o.id, o.trader, o.quantity, o.price)]
    requires o.id == b.nextId && b'.nextId == b.nextId + 1
    requires b'.buys == (if side.Buy? then b.buys + [o] else b.buys)
    requires b'.sells == (if side.Buy? then b.sells else b.sells + [o])
    ensures Truthful(b', first)
  {
    hide Sound, GoodTrades, GoodCancels, Alternates, Numbered, AllAnnounced;
    Told(b, b', Posted(side, o.id, o.trader, o.quantity, o.price), first);
    assert PostedAt(b'.journal, |b.journal|, side, o.id, o.trader, o.price);
    AllAnnouncedWith(b'.journal, if side.Buy? then b.buys else b.sells, side, o);
  }

  lemma AllAnnouncedWith(j: seq<Entry>, orders: seq<Order>, side: Side, o: Order)
    requires AllAnnounced(j, orders, side) && Announced(j, side, o.id, o.trader, o.price)
    ensures AllAnnounced(j, orders + [o], side)
  {
  }

  /** Any entry but a posting or a trade; orders may only go or shrink. */
  lemma PlainTruthful(b: Bourse, b': Bourse, e: Entry, first: int)
    requires Truthful(b, first) && Sound(b') && b'.last == b.last && b'.nextId == b.nextId && !e.Traded? && !e.Posted?
    requires b'.journal == b.journal + [e]
    requires e.Canceled? ==> Announced(b.journal, e.side, e.id, e.trader, e.price)
    requires forall o :: o in b'.buys ==> o in b.buys
    requires forall o :: o in b'.sells ==> o in b.sells
    ensures Truthful(b', first)
  {
    Told(b, b', e, first);
    Fewer(b'.journal, b.buys, b'.buys, Buy);
    Fewer(b'.journal, b.sells, b'.sells, Sell);
  }

  lemma Fewer(j: seq<Entry>, orders: seq<Order>, fewer: seq<Order>, side: Side)
    requires AllAnnounced(j, orders, side) && forall o :: o in fewer ==> o in orders
    ensures AllAnnounced(j, fewer, side)
  {
    forall i | 0 <= i < |fewer|
      ensures Announced(j, side, fewer[i].id, fewer[i].trader, fewer[i].price)
    {
      assert fewer[i] in orders;
    }
  }

  lemma FilledAnnounced(j: seq<Entry>, orders: seq<Order>, i: nat, q: u32, side: Side)
    requires AllAnnounced(j, orders, side) && i < |orders| && q <= orders[i].quantity
    ensures AllAnnounced(j, Fill(orders, i, q), side)
  {
    if q == orders[i].quantity {
      Fewer(j, orders, Remove(orders, i), side);
    }
  }

  lemma TradeTruthful(b: Bourse, i: nat, j: nat, first: int)
    requires Truthful(b, first) && Sound(b) && Matches(b, i, j)
    ensures Truthful(Trade(b, i, j), first)
  {
    hide Even;
    TradeSound(b, i, j);
    var buy, sell := b.buys[i], b.sells[j];
    var price := Clamp(b.last, sell.price, buy.price);
    var q := Min(buy.quantity, sell.quantity);
    var e := Traded(buy.id, sell.id, buy.trader, sell.trader, q, price, buy.price, sell.price);
    ClampIsClosest(b.last, sell.price, buy.price);
    Told(b, Trade(b, i, j), e, first);
    FilledAnnounced(Trade(b, i, j).journal, b.buys, i, q, Buy);
    FilledAnnounced(Trade(b, i, j).journal, b.sells, j, q, Sell);
  }

  /** Between two successful logins of a trader there is a logout. */
  lemma LogoutBetween(j: seq<Entry>, k: nat, p: nat, q: nat) returns (r: nat)
    requires Alternates(j) && p < q < |j| && j[p] == j[q] == LoggedIn(k)
    ensures p < r < q && j[r] == LoggedOut(k)
  {
    var w := SessionOf(k);
    assert j[..p + 1] == j[..p] + [j[p]] && j[..q + 1] == j[..q] + [j[q]];
    SumSnoc(j[..p], j[p], w);
    SumSnoc(j[..q], j[q], w);
    var between := j[p + 1..q];
    assert j[..q] == j[..p + 1] + between;
    SumConcat(j[..p + 1], between, w);
    r := Drop(between, w);
    r := r + p + 1;
  }

  lemma {:induction false} Drop(j: seq<Entry>, w: Entry -> int) returns (i: nat)
    requires Sum(j, w) < 0
    ensures i < |j| && w(j[i]) < 0
  {
    if w(j[0]) < 0 {
      i := 0;
    } else {
      i := Drop(j[1..], w);
      i := i + 1;
    }
  }
}
