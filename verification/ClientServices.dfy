/** `brs_client_service`: the loop of one service thread, updating accounts and book in place. */
module ClientServices {
  import opened Accounts
  import opened Market
  import opened Ledger
  import opened MarketLaws
  import opened Guarantees
  import opened Service
  import opened TraderMaps
  import opened Exchanges
  import opened Sums

  class ClientService {
    const exchange: Exchange
    const connfd: int
    var thisTrader: int   // the slot of `this_trader`, -1 for NULL

    ghost predicate Valid()
      reads this, exchange, exchange.traders, exchange.traders.all, exchange.traders.all[..]
    {
      exchange.Valid() && 0 <= connfd && (thisTrader == -1 || Live(exchange.View().ts, thisTrader))
    }

    constructor (exchange: Exchange, connfd: int)
      requires exchange.Valid() && 0 <= connfd
      ensures Valid() && this.exchange == exchange && this.connfd == connfd && thisTrader == -1
    {
      this.exchange, this.connfd, this.thisTrader := exchange, connfd, -1;
    }

    /** `trader_send_ack` with the status of the exchange, or `trader_send_nack`. */
    method Answered(ok: bool) returns (replies: seq<Reply>)
      requires Valid() && thisTrader != -1
      ensures [if ok then Status(exchange.View(), thisTrader) else Refuse(exchange.View(), thisTrader)] == replies
    {
      var trader := exchange.traders.all[thisTrader];
      if !ok {
        return [Reply(trader.fd, Nack)];
      }
      var bid, ask, last := exchange.GetStatus();
      return [Reply(trader.fd, AckInfo(trader.balance, trader.inventory, bid, ask, last))];
    }

    /** BRS_LOGIN_PKT. */
    method ReceiveLogin(payload: string) returns (replies: seq<Reply>)
      requires Valid()
      modifies this, exchange, exchange.traders, exchange.traders.all, exchange.traders.all[..]
      ensures Valid()
      ensures Outcome(exchange.View(), thisTrader, replies) ==
        Handle(old(exchange.View()), old(thisTrader), connfd, LoginPacket(payload))
      ensures forall k :: 0 <= k < MAX_TRADERS ==>
        var t := exchange.traders.all[k]; t == old(exchange.traders.all[k]) || t == null || fresh(t)
    {
      hide Sound, Payable, Market.LogIn, UpToNul;
      if thisTrader != -1 {
        return [Reply(exchange.traders.all[thisTrader].fd, Nack)];
      }
      var trader, slot := exchange.LogIn(connfd, UpToNul(payload));
      thisTrader := slot;
      if trader == null {
        return [Reply(connfd, Nack)];
      }
      return [Reply(trader.fd, Ack)];
    }

    /** BRS_DEPOSIT_PKT. */
    method ReceiveDeposit(amount: u32) returns (replies: seq<Reply>)
      requires Valid() && thisTrader != -1
      modifies exchange, exchange.traders.all[..]
      ensures Valid() && Outcome(exchange.View(), thisTrader, replies) ==
        HandleLoggedIn(old(exchange.View()), thisTrader, DepositPacket(amount))
    {
      hide Sound, Payable, Accounts.IncreaseBalance;
      LoggedInLive(exchange.View(), thisTrader, DepositPacket(amount));
      exchange.traders.IncreaseBalanceAt(thisTrader, amount);
      exchange.Note(Deposited(thisTrader, amount));
      replies := Answered(true);
    }

    /** BRS_WITHDRAW_PKT. */
    method ReceiveWithdraw(amount: u32) returns (replies: seq<Reply>)
      requires Valid() && thisTrader != -1
      modifies exchange, exchange.traders.all[..]
      ensures Valid() && Outcome(exchange.View(), thisTrader, replies) ==
        HandleLoggedIn(old(exchange.View()), thisTrader, WithdrawPacket(amount))
    {
      hide Sound, Payable, Accounts.DecreaseBalance, Bid, Ask;
      LoggedInLive(exchange.View(), thisTrader, WithdrawPacket(amount));
      var r := exchange.traders.DecreaseBalanceAt(thisTrader, amount);
      if r == 0 {
        exchange.Note(Withdrew(thisTrader, amount));
      }
      replies := Answered(r == 0);
    }

    /** BRS_ESCROW_PKT. */
    method ReceiveEscrow(quantity: u32) returns (replies: seq<Reply>)
      requires Valid() && thisTrader != -1
      modifies exchange, exchange.traders.all[..]
      ensures Valid() && Outcome(exchange.View(), thisTrader, replies) ==
        HandleLoggedIn(old(exchange.View()), thisTrader, EscrowPacket(quantity))
    {
      hide Sound, Payable, Accounts.IncreaseInventory;
      LoggedInLive(exchange.View(), thisTrader, EscrowPacket(quantity));
      exchange.traders.IncreaseInventoryAt(thisTrader, quantity);
      exchange.Note(Escrowed(thisTrader, quantity));
      replies := Answered(true);
    }

    /** BRS_RELEASE_PKT. */
    method ReceiveRelease(quantity: u32) returns (replies: seq<Reply>)
      requires Valid() && thisTrader != -1
      modifies exchange, exchange.traders.all[..]
      ensures Valid() && Outcome(exchange.View(), thisTrader, replies) ==
        HandleLoggedIn(old(exchange.View()), thisTrader, ReleasePacket(quantity))
    {
      hide Sound, Payable, Accounts.DecreaseInventory, Bid, Ask;
      LoggedInLive(exchange.View(), thisTrader, ReleasePacket(quantity));
      var r := exchange.traders.DecreaseInventoryAt(thisTrader, quantity);
      if r == 0 {
        exchange.Note(Released(thisTrader, quantity));
      }
      replies := Answered(r == 0);
    }

    /** BRS_BUY_PKT and BRS_SELL_PKT. */
    method ReceivePost(side: Side, quantity: u32, price: u32) returns (replies: seq<Reply>)
      requires Valid() && thisTrader != -1
      modifies exchange, exchange.traders.all[..]
      ensures Valid() && Outcome(exchange.View(), thisTrader, replies) ==
        HandleLoggedIn(old(exchange.View()), thisTrader,
                       if side.Buy? then BuyPacket(quantity, price) else SellPacket(quantity, price))
    {
      hide Sound, Payable, Market.PostBuy, Market.PostSell;
      LoggedInLive(exchange.View(), thisTrader,
                   if side.Buy? then BuyPacket(quantity, price) else SellPacket(quantity, price));
      var id;
      if side.Buy? {
        id := exchange.PostBuy(thisTrader, quantity, price);
      } else {
        id := exchange.PostSell(thisTrader, quantity, price);
      }
      replies := Answered(id != 0);
    }

    /** BRS_CANCEL_PKT. */
    method ReceiveCancel(order: u32) returns (replies: seq<Reply>)
      requires Valid() && thisTrader != -1
      modifies exchange, exchange.traders.all, exchange.traders.all[..]
      ensures Valid() && Outcome(exchange.View(), thisTrader, replies) ==
        HandleLoggedIn(old(exchange.View()), thisTrader, CancelPacket(order))
      ensures forall k :: 0 <= k < MAX_TRADERS ==>
        var t := exchange.traders.all[k]; t == old(exchange.traders.all[k]) || t == null || fresh(t)
    {
      hide Sound, Payable, Market.Cancel;
      LoggedInLive(exchange.View(), thisTrader, CancelPacket(order));
      var r, _ := exchange.Cancel(thisTrader, order);
      replies := Answered(r == 0);
    }

    /** The body of the loop, once a packet has been received. */
    method Receive(r: Request) returns (replies: seq<Reply>)
      requires Valid()
      modifies this, exchange, exchange.traders, exchange.traders.all, exchange.traders.all[..]
      ensures Valid()
      ensures Outcome(exchange.View(), thisTrader, replies) == Handle(old(exchange.View()), old(thisTrader), connfd, r)
      ensures forall k :: 0 <= k < MAX_TRADERS ==>
        var t := exchange.traders.all[k]; t == old(exchange.traders.all[k]) || t == null || fresh(t)
    {
      hide Sound, Payable, HandleLoggedIn, LogIn;
      if r.LoginPacket? {
        replies := ReceiveLogin(r.payload);
      } else if thisTrader == -1 {
        replies := [];
      } else {
        match r
        case StatusPacket => replies := Answered(true); StatusIs(exchange.View(), thisTrader);
        case DepositPacket(amount) => replies := ReceiveDeposit(amount);
        case WithdrawPacket(amount) => replies := ReceiveWithdraw(amount);
        case EscrowPacket(quantity) => replies := ReceiveEscrow(quantity);
        case ReleasePacket(quantity) => replies := ReceiveRelease(quantity);
        case BuyPacket(quantity, price) => replies := ReceivePost(Buy, quantity, price);
        case SellPacket(quantity, price) => replies := ReceivePost(Sell, quantity, price);
        case CancelPacket(order) => replies := ReceiveCancel(order);
        case OtherPacket => replies := []; OtherIgnored(exchange.View(), thisTrader);
      }
    }

    /** The whole loop, for the packets that arrive before end of file, and the logout after it. */
    method Serve(packets: seq<Request>) returns (replies: seq<Reply>)
      requires Valid() && thisTrader == -1
      modifies this, exchange, exchange.traders, exchange.traders.all, exchange.traders.all[..]
      ensures exchange.Valid()
      ensures (exchange.View(), replies) == Visit(old(exchange.View()), connfd, packets)
    {
      hide Sound, Payable, Handle;
      replies := [];
      for i := 0 to |packets|
        invariant Valid() && OwnSession(exchange.View(), thisTrader, connfd)
        invariant Outcome(exchange.View(), thisTrader, replies) == Serving(old(exchange.View()), connfd, packets[..i])
        invariant forall k :: 0 <= k < MAX_TRADERS ==>
          var t := exchange.traders.all[k]; t == old(exchange.traders.all[k]) || t == null || fresh(t)
      {
        assert packets[..i + 1][..i] == packets[..i];
        StaysInSession(exchange.View(), thisTrader, connfd, packets[i]);
        var more := Receive(packets[i]);
        replies := replies + more;
      }
      assert packets[..|packets|] == packets;
      if thisTrader != -1 {
        LogOutSound(exchange.View(), thisTrader);
        exchange.traders.Logout(exchange.traders.all[thisTrader], thisTrader);
        exchange.Note(LoggedOut(thisTrader));
      }
    }
  }

  /** A request leaves the trader that made it in the map. */
  lemma LoggedInLive(b: Bourse, who: nat, r: Request)
    requires Sound(b) && Live(b.ts, who)
    ensures Live(HandleLoggedIn(b, who, r).b.ts, who) && Sound(HandleLoggedIn(b, who, r).b)
  {
    hide Sound, HandleLoggedIn;
    LoggedInSessions(b, who, r);
    LoggedInSound(b, who, r);
  }

  lemma StatusIs(b: Bourse, who: nat)
    requires Live(b.ts, who)
    ensures HandleLoggedIn(b, who, StatusPacket) == Outcome(b, who, [Status(b, who)])
  {
  }
}
