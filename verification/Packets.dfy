/** Requests on the wire: what `brs_client_service` reads out of a packet, and a visit of a client from
    the bytes it sends to the replies it gets. */
module Packets {
  import opened Accounts
  import opened Market
  import opened Service
  import opened Sockets
  import opened RobustIO
  import opened Protocol
  import opened ClientServices

  // BRS_PACKET_TYPE, client to server.
  const LOGIN: u8 := 1
  const STATUS: u8 := 2
  const DEPOSIT: u8 := 3
  const WITHDRAW: u8 := 4
  const ESCROW: u8 := 5
  const RELEASE: u8 := 6
  const BUY: u8 := 7
  const SELL: u8 := 8
  const CANCEL: u8 := 9

  function Chars(bytes: seq<u8>): string
  {
    seq(|bytes|, i requires 0 <= i < |bytes| => bytes[i] as char)
  }

  function Byte(c: char): u8
  {
    if c as int < 0x100 then c as int else 0
  }

  predicate IsBytes(s: string)
  {
    forall c :: c in s ==> c as int < 0x100
  }

  function AsBytes(s: string): seq<u8>
    requires IsBytes(s)
  {
    seq(|s|, i requires 0 <= i < |s| => Byte(s[i]))
  }

  /** ntohl of the word at this offset of a payload. */
  function Field(payload: seq<u8>, at: nat): u32
    requires at + 4 <= |payload|
  {
    WordValue(payload[at..at + 4])
  }

  /** The payload structure of this type of packet. */
  function Needed(kind: u8): nat
  {
    if DEPOSIT <= kind <= RELEASE || kind == CANCEL then 4 else if kind == BUY || kind == SELL then 8 else 0
  }

  predicate LongEnough(p: Packet)
  {
    WellFormed(p) && Needed(p.hdr[0]) <= |p.payload|
  }

  function Decode(p: Packet): Request
    requires LongEnough(p)
  {
    var kind, d := p.hdr[0], p.payload;
    if kind == LOGIN then LoginPacket(Chars(d))
    else if kind == STATUS then StatusPacket
    else if kind == DEPOSIT then DepositPacket(Field(d, 0))
    else if kind == WITHDRAW then WithdrawPacket(Field(d, 0))
    else if kind == ESCROW then EscrowPacket(Field(d, 0))
    else if kind == RELEASE then ReleasePacket(Field(d, 0))
    else if kind == BUY then BuyPacket(Field(d, 0), Field(d, 4))
    else if kind == SELL then SellPacket(Field(d, 0), Field(d, 4))
    else if kind == CANCEL then CancelPacket(Field(d, 0))
    else OtherPacket
  }

  /** Where each value stands in the bytes of a packet, by the numbers of the packet types. */
  lemma DecodeReads(hdr: seq<u8>, x: u32, y: u32)
    requires |hdr| == HEADER_SIZE
    ensures var p := Packet(hdr, Word(x));
      WellFormed(p) ==>
        && (hdr[0] == 3 ==> LongEnough(p) && Decode(p) == DepositPacket(x))
        && (hdr[0] == 4 ==> LongEnough(p) && Decode(p) == WithdrawPacket(x))
        && (hdr[0] == 5 ==> LongEnough(p) && Decode(p) == EscrowPacket(x))
        && (hdr[0] == 6 ==> LongEnough(p) && Decode(p) == ReleasePacket(x))
        && (hdr[0] == 9 ==> LongEnough(p) && Decode(p) == CancelPacket(x))
    ensures var p := Packet(hdr, Word(x) + Word(y));
      WellFormed(p) ==>
        && (hdr[0] == 7 ==> LongEnough(p) && Decode(p) == BuyPacket(x, y))
        && (hdr[0] == 8 ==> LongEnough(p) && Decode(p) == SellPacket(x, y))
    ensures var p := Packet(hdr, []);
      WellFormed(p) ==> (hdr[0] == 2 ==> LongEnough(p) && Decode(p) == StatusPacket)
    ensures 0x100 * (hdr[2] as int) + hdr[3] == SizeOf(hdr)
  {
    hide Word, WordValue, Field;
    FieldsRoundTrip(x, y);
  }

  /** A login payload is read byte by byte as it stands. */
  lemma DecodeReadsName(hdr: seq<u8>, payload: seq<u8>)
    requires WellFormed(Packet(hdr, payload)) && hdr[0] == 1
    ensures var r := Decode(Packet(hdr, payload));
      && r.LoginPacket? && |r.payload| == |payload|
      && forall i :: 0 <= i < |payload| ==> r.payload[i] as int == payload[i]
  {
  }

  /** What fits a packet. */
  predicate Sendable(r: Request)
  {
    r.LoginPacket? ==> IsBytes(r.payload) && |r.payload| < 0x1_0000
  }

  function Header(kind: u8, size: nat): (hdr: seq<u8>)
    requires size < 0x1_0000
    ensures |hdr| == HEADER_SIZE && SizeOf(hdr) == size && hdr[0] == kind
  {
    [kind, 0, size / 0x100, size % 0x100, 0, 0, 0, 0, 0, 0, 0, 0]
  }

  function Make(kind: u8, payload: seq<u8>): (p: Packet)
    requires |payload| < 0x1_0000
    ensures WellFormed(p)
  {
    Packet(Header(kind, |payload|), payload)
  }

  /** The packet a client sends for a request; the server ignores type 0. */
  function Encode(r: Request): (p: Packet)
    requires Sendable(r)
    ensures LongEnough(p)
  {
    match r
    case LoginPacket(payload) => Make(LOGIN, AsBytes(payload))
    case StatusPacket => Make(STATUS, [])
    case DepositPacket(amount) => Make(DEPOSIT, Word(amount))
    case WithdrawPacket(amount) => Make(WITHDRAW, Word(amount))
    case EscrowPacket(quantity) => Make(ESCROW, Word(quantity))
    case ReleasePacket(quantity) => Make(RELEASE, Word(quantity))
    case BuyPacket(quantity, price) => Make(BUY, Word(quantity) + Word(price))
    case SellPacket(quantity, price) => Make(SELL, Word(quantity) + Word(price))
    case CancelPacket(order) => Make(CANCEL, Word(order))
    case OtherPacket => Make(0, [])
  }

  lemma FieldsRoundTrip(x: u32, y: u32)
    ensures Field(Word(x), 0) == x && Field(Word(x) + Word(y), 0) == x && Field(Word(x) + Word(y), 4) == y
  {
    hide Word, WordValue;
    assert Word(x)[0..4] == Word(x);
    assert (Word(x) + Word(y))[0..4] == Word(x) && (Word(x) + Word(y))[4..8] == Word(y);
    WordRoundTrip(x);
    WordRoundTrip(y);
  }

  lemma CharsRoundTrip(s: string)
    requires IsBytes(s)
    ensures Chars(AsBytes(s)) == s
  {
    forall i | 0 <= i < |s|
      ensures Chars(AsBytes(s))[i] == s[i]
    {
      assert s[i] in s;
    }
  }

  /** The server reads the request the client meant, stamped or not. */
  lemma DecodeEncode(r: Request, t: Time)
    requires Sendable(r)
    ensures LongEnough(Sent(Encode(r), t)) && Decode(Sent(Encode(r), t)) == r
  {
    hide Word, WordValue, Field;
    var p := Encode(r);
    assert Sent(p, t).hdr[0] == Sent(p, t).hdr[..4][0] == p.hdr[0];
    match r
    case LoginPacket(payload) => CharsRoundTrip(payload);
    case DepositPacket(amount) => FieldsRoundTrip(amount, 0);
    case WithdrawPacket(amount) => FieldsRoundTrip(amount, 0);
    case EscrowPacket(quantity) => FieldsRoundTrip(quantity, 0);
    case ReleasePacket(quantity) => FieldsRoundTrip(quantity, 0);
    case BuyPacket(quantity, price) => FieldsRoundTrip(quantity, price);
    case SellPacket(quantity, price) => FieldsRoundTrip(quantity, price);
    case CancelPacket(order) => FieldsRoundTrip(order, 0);
    case _ =>
  }

  predicate AllSendable(rs: seq<Request>)
  {
    forall r :: r in rs ==> Sendable(r)
  }

  function EncodeAll(rs: seq<Request>): (ps: seq<Packet>)
    requires AllSendable(rs)
    ensures |ps| == |rs| && AllWellFormed(ps) && forall i :: 0 <= i < |rs| ==> ps[i] == Encode(rs[i])
  {
    seq(|rs|, i requires 0 <= i < |rs| => Encode(rs[i]))
  }

  lemma DecodedAt(rs: seq<Request>, times: seq<Time>, i: nat)
    requires AllSendable(rs) && |times| == |rs| && i < |rs|
    ensures var p := AllSent(EncodeAll(rs), times)[i]; LongEnough(p) && Decode(p) == rs[i]
  {
    hide Encode, Decode, Sent, LongEnough, Sendable;
    assert rs[i] in rs;
    DecodeEncode(rs[i], times[i]);
  }

  /** Main result: a client's visit has the effect and the replies that its requests determine,
      however the network cuts up the bytes that carry them. */
  method VisitOverNetwork(service: ClientService, rs: seq<Request>, times: seq<Time>,
                          writes: seq<Transfer>, receipts: seq<Transfer>) returns (replies: seq<Reply>)
    requires service.Valid() && service.thisTrader == -1
    requires AllSendable(rs) && |times| == |rs| && Calm(writes) && Calm(receipts)
    modifies service, service.exchange, service.exchange.traders
    modifies service.exchange.traders.all, service.exchange.traders.all[..]
    ensures service.exchange.Valid()
    ensures (service.exchange.View(), replies) == Visit(old(service.exchange.View()), service.connfd, rs)
  {
    var received := Delivered(rs, times, writes, receipts);
    replies := service.Serve(received);
  }

  method Delivered(rs: seq<Request>, times: seq<Time>, writes: seq<Transfer>, receipts: seq<Transfer>)
    returns (received: seq<Request>)
    requires AllSendable(rs) && |times| == |rs| && Calm(writes) && Calm(receipts)
    ensures received == rs
  {
    var packets := RoundTrip(EncodeAll(rs), times, writes, receipts);
    received := DecodeAll(packets, rs, times);
  }

  /** The requests in packets as they were sent. */
  method DecodeAll(packets: seq<Packet>, ghost rs: seq<Request>, ghost times: seq<Time>)
    returns (received: seq<Request>)
    requires AllSendable(rs) && |times| == |rs| && packets == AllSent(EncodeAll(rs), times)
    ensures received == rs
  {
    received := [];
    hide *;
    for i := 0 to |packets|
      invariant received == rs[..i]
    {
      DecodedAt(rs, times, i);
      assert rs[..i + 1] == rs[..i] + [rs[i]];
      received := received + [Decode(packets[i])];
    }
  }
}
