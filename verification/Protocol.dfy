/** Packet framing of src/protocol.c over the robust I/O routines. */
module Protocol {
  import opened Sockets
  import opened RobustIO

  // A BRS_PACKET_HEADER in memory: type, one byte of padding, size, seconds and nanoseconds, the
  // last three in network byte order.
  const HEADER_SIZE := 12

  /** ntohs(hdr->size). */
  function SizeOf(hdr: seq<u8>): nat
    requires |hdr| == HEADER_SIZE
  {
    hdr[2] as int * 0x100 + hdr[3]
  }

  /** htonl of the low 32 bits, as bytes in memory. */
  function Word(x: nat): (w: seq<u8>)
    ensures |w| == 4
  {
    var y := x / 0x100;
    var z := y / 0x100;
    [z / 0x100 % 0x100, z % 0x100, y % 0x100, x % 0x100]
  }

  /** ntohl. */
  function WordValue(w: seq<u8>): nat
    requires |w| == 4
  {
    ((w[0] as int * 0x100 + w[1]) * 0x100 + w[2]) * 0x100 + w[3]
  }

  /** ntohl undoes htonl; what does not fit 32 bits is cut off. */
  lemma WordRoundTrip(x: nat)
    ensures WordValue(Word(x)) == x % 0x1_0000_0000
  {
    var y := x / 0x100;
    var z := y / 0x100;
    var u := z / 0x100;
    Remainder(x, u / 0x100, WordValue(Word(x)));
  }

  lemma Remainder(x: nat, q: nat, r: nat)
    requires x == 0x1_0000_0000 * q + r && r < 0x1_0000_0000
    ensures x % 0x1_0000_0000 == r
  {
  }

  function Stamped(hdr: seq<u8>, sec: nat, nsec: nat): (r: seq<u8>)
    requires |hdr| == HEADER_SIZE
    ensures |r| == HEADER_SIZE && r[..4] == hdr[..4] && SizeOf(r) == SizeOf(hdr)
  {
    hdr[..4] + Word(sec) + Word(nsec)
  }

  /** The seconds are in bytes 4 to 7, the nanoseconds in bytes 8 to 11. */
  lemma StampedFields(hdr: seq<u8>, sec: nat, nsec: nat)
    requires |hdr| == HEADER_SIZE
    ensures WordValue(Stamped(hdr, sec, nsec)[4..8]) == sec % 0x1_0000_0000
    ensures WordValue(Stamped(hdr, sec, nsec)[8..12]) == nsec % 0x1_0000_0000
  {
    hide Word, WordValue;
    assert Stamped(hdr, sec, nsec)[4..8] == Word(sec) && Stamped(hdr, sec, nsec)[8..12] == Word(nsec);
    WordRoundTrip(sec);
    WordRoundTrip(nsec);
  }

  /** Network byte order: words compare from their first byte as the numbers do. */
  lemma NetworkOrder(x: nat, y: nat) returns (i: nat)
    requires x < y < 0x1_0000_0000
    ensures i < 4 && Word(x)[..i] == Word(y)[..i] && Word(x)[i] < Word(y)[i]
  {
    var v, w := Word(x), Word(y);
    WordRoundTrip(x);
    WordRoundTrip(y);
    i := if v[0] != w[0] then 0 else if v[1] != w[1] then 1 else if v[2] != w[2] then 2 else 3;
  }

  datatype Packet = Packet(hdr: seq<u8>, payload: seq<u8>)

  predicate WellFormed(p: Packet)
  {
    |p.hdr| == HEADER_SIZE && |p.payload| == SizeOf(p.hdr)
  }

  /** `proto_send_packet`: stamps the header and writes it, then the payload its size field announces. */
  method SendPacket(fd: Socket, hdr: array<u8>, payload: seq<u8>, sec: nat, nsec: nat) returns (r: int)
    requires hdr.Length == HEADER_SIZE && SizeOf(hdr[..]) <= |payload|
    modifies hdr, fd`outgoing, fd`script
    ensures hdr[..] == Stamped(old(hdr[..]), sec, nsec)
    ensures (r == 0 || r == -1) && (Calm(old(fd.script)) ==> Calm(fd.script) && r == 0)
    ensures r == 0 ==> fd.outgoing == old(fd.outgoing) + (hdr[..] + payload[..SizeOf(hdr[..])])
    ensures old(fd.outgoing) <= fd.outgoing <= old(fd.outgoing) + (hdr[..] + payload[..SizeOf(hdr[..])])
  {
    Stamp(hdr, sec, nsec);
    var rioHdr := WriteN(fd, hdr[..]);
    if rioHdr == -1 {
      return -1;
    }
    var size := SizeOf(hdr[..]);
    if size != 0 {
      var written := WriteN(fd, payload[..size]);
      if written == -1 {
        return -1;
      }
    }
    return 0;
  }

  method Stamp(hdr: array<u8>, sec: nat, nsec: nat)
    requires hdr.Length == HEADER_SIZE
    modifies hdr
    ensures hdr[..] == Stamped(old(hdr[..]), sec, nsec)
  {
    var s, n := Word(sec), Word(nsec);
    hdr[4], hdr[5], hdr[6], hdr[7] := s[0], s[1], s[2], s[3];
    hdr[8], hdr[9], hdr[10], hdr[11] := n[0], n[1], n[2], n[3];
    assert hdr[..] == old(hdr[..4]) + s + n;
  }

  // ---- Receiving ----

  function HeaderBytes(stream: seq<u8>): (k: nat)
    ensures k <= |stream| && k <= HEADER_SIZE
  {
    Smaller(HEADER_SIZE, |stream|)
  }

  /** The header after reading over `before` whatever the stream still holds. */
  function HeaderAfter(stream: seq<u8>, before: seq<u8>): (hdr: seq<u8>)
    requires |before| == HEADER_SIZE
    ensures |hdr| == HEADER_SIZE
  {
    Overlay(before, 0, stream[..HeaderBytes(stream)])
  }

  function PayloadBytes(stream: seq<u8>, before: seq<u8>): (m: nat)
    requires |before| == HEADER_SIZE
    ensures HeaderBytes(stream) + m <= |stream|
  {
    Smaller(SizeOf(HeaderAfter(stream, before)), |stream| - HeaderBytes(stream))
  }

  /** `proto_recv_packet`. Without a hard error it fails only at end of file before the first byte;
      a header or payload that is cut short is accepted as it is. */
  method ReceivePacket(fd: Socket, hdr: array<u8>, payloadp: array?<u8>) returns (r: int, payload: array?<u8>)
    requires hdr.Length == HEADER_SIZE
    modifies hdr, fd`incoming, fd`script
    ensures (r == 0 || r == -1) && (Calm(old(fd.script)) ==> Calm(fd.script) && (r == -1 <==> old(fd.incoming) == []))
    ensures old(fd.incoming) == [] ==> fd.incoming == []
    ensures r == 0 ==>
      && hdr[..] == HeaderAfter(old(fd.incoming), old(hdr[..]))
      && fd.incoming == old(fd.incoming)[HeaderBytes(old(fd.incoming)) + PayloadBytes(old(fd.incoming), old(hdr[..]))..]
    ensures r == 0 && SizeOf(hdr[..]) == 0 ==> payload == payloadp
    ensures r == 0 && SizeOf(hdr[..]) != 0 ==>
      var k, m := HeaderBytes(old(fd.incoming)), PayloadBytes(old(fd.incoming), old(hdr[..]));
      && payload != null && fresh(payload) && payload.Length == SizeOf(hdr[..])
      && payload[..m] == old(fd.incoming)[k..k + m]
  {
    payload := payloadp;
    ghost var stream := fd.incoming;
    var read := ReadN(fd, hdr, HEADER_SIZE);
    if read == -1 || read == 0 {
      return -1, payload;
    }
    var size := SizeOf(hdr[..]);
    if size != 0 {
      payload := new u8[size];
      var readStatus := ReadN(fd, payload, size);
      if readStatus == -1 {
        return -1, payload;
      }
    }
    r := 0;
  }

  // ---- When a success is a whole packet ----

  /** The stream starts with a header and all of the payload it announces. */
  predicate WholeFrame(stream: seq<u8>)
  {
    HEADER_SIZE <= |stream| && SizeOf(stream[..HEADER_SIZE]) <= |stream| - HEADER_SIZE
  }

  /** A successful receive has read a whole packet if and only if the stream held one; the promise
      that 0 means a packet was received is broken for every other non-empty stream. */
  lemma SuccessIsWhole(stream: seq<u8>, before: seq<u8>)
    requires |before| == HEADER_SIZE
    ensures HeaderBytes(stream) + PayloadBytes(stream, before) == HEADER_SIZE + SizeOf(HeaderAfter(stream, before))
      <==> WholeFrame(stream)
  {
    if HEADER_SIZE <= |stream| {
      assert HeaderAfter(stream, before) == stream[..HEADER_SIZE];
    }
  }

  /** One byte of a header, then end of file: the receive reports success. */
  method HeaderCutShort(kind: u8) returns (r: int, hdr: array<u8>)
    ensures r == 0 && !WholeFrame([kind]) && hdr[..] == [kind, 0, 0, 0, 0, 0, 0, 0, 0, 0, 0, 0]
  {
    var fd := new Socket([kind], []);
    hdr := new u8[HEADER_SIZE](_ => 0);
    ghost var before := hdr[..];
    var payload;
    r, payload := ReceivePacket(fd, hdr, null);
    assert hdr[..] == Overlay(before, 0, [kind]);
  }

  // ---- Streams of packets ----

  predicate AllWellFormed(ps: seq<Packet>)
  {
    forall p :: p in ps ==> WellFormed(p)
  }

  /** The bytes of the packets, one frame after the other. */
  function Stream(ps: seq<Packet>): seq<u8>
  {
    if ps == [] then [] else ps[0].hdr + ps[0].payload + Stream(ps[1..])
  }

  lemma {:induction false} StreamSnoc(ps: seq<Packet>, p: Packet)
    ensures Stream(ps + [p]) == Stream(ps) + (p.hdr + p.payload)
  {
    if ps == [] {
      assert [p][1..] == [];
    } else {
      assert (ps + [p])[1..] == ps[1..] + [p];
      StreamSnoc(ps[1..], p);
    }
  }

  /** The first frame ends exactly where the next one begins. */
  lemma FirstFrame(p: Packet, rest: seq<u8>, before: seq<u8>)
    requires WellFormed(p) && |before| == HEADER_SIZE
    ensures var stream := p.hdr + p.payload + rest;
      && stream != [] && HeaderBytes(stream) == HEADER_SIZE && HeaderAfter(stream, before) == p.hdr
      && PayloadBytes(stream, before) == |p.payload|
      && stream[HEADER_SIZE..HEADER_SIZE + |p.payload|] == p.payload && stream[HEADER_SIZE + |p.payload|..] == rest
  {
    var stream := p.hdr + p.payload + rest;
    assert stream[..HEADER_SIZE] == p.hdr;
  }

  /** Different lists of packets have different streams. */
  lemma {:induction false} StreamInjective(ps: seq<Packet>, qs: seq<Packet>)
    requires AllWellFormed(ps) && AllWellFormed(qs) && Stream(ps) == Stream(qs)
    ensures ps == qs
  {
    if ps != [] && qs != [] {
      FirstFrame(ps[0], Stream(ps[1..]), ps[0].hdr);
      FirstFrame(qs[0], Stream(qs[1..]), ps[0].hdr);
      StreamInjective(ps[1..], qs[1..]);
      assert ps == [ps[0]] + ps[1..] && qs == [qs[0]] + qs[1..];
    } else if ps != [] {
      FirstFrame(ps[0], Stream(ps[1..]), ps[0].hdr);
    } else if qs != [] {
      FirstFrame(qs[0], Stream(qs[1..]), qs[0].hdr);
    }
  }

  /** The time of sending, per packet. */
  datatype Time = Time(sec: nat, nsec: nat)

  function Sent(p: Packet, t: Time): (q: Packet)
    requires WellFormed(p)
    ensures WellFormed(q)
  {
    Packet(Stamped(p.hdr, t.sec, t.nsec), p.payload)
  }

  function AllSent(ps: seq<Packet>, times: seq<Time>): (qs: seq<Packet>)
    requires AllWellFormed(ps) && |times| == |ps|
    ensures AllWellFormed(qs) && |qs| == |ps|
    ensures forall i :: 0 <= i < |ps| ==> qs[i] == Sent(ps[i], times[i])
  {
    if ps == [] then [] else [Sent(ps[0], times[0])] + AllSent(ps[1..], times[1..])
  }

  method InMemory(bytes: seq<u8>) returns (a: array<u8>)
    ensures fresh(a) && a[..] == bytes
  {
    a := new u8[|bytes|](k requires 0 <= k < |bytes| => bytes[k]);
  }

  method SendOne(fd: Socket, p: Packet, t: Time)
    requires WellFormed(p) && Calm(fd.script)
    modifies fd`outgoing, fd`script
    ensures Calm(fd.script) && fd.outgoing == old(fd.outgoing) + (Sent(p, t).hdr + Sent(p, t).payload)
  {
    hide Stamped;
    var hdr := InMemory(p.hdr);
    var r := SendPacket(fd, hdr, p.payload, t.sec, t.nsec);
    assert p.payload[..SizeOf(p.hdr)] == p.payload;
  }

  method SendAll(fd: Socket, ps: seq<Packet>, times: seq<Time>)
    requires AllWellFormed(ps) && |times| == |ps| && Calm(fd.script)
    modifies fd`outgoing, fd`script
    ensures fd.outgoing == old(fd.outgoing) + Stream(AllSent(ps, times))
  {
    hide Sent, Stamped, Stream, AllSent;
    ghost var sent := AllSent(ps, times);
    StreamOfNone();
    for i := 0 to |ps|
      invariant Calm(fd.script) && fd.outgoing == old(fd.outgoing) + Stream(sent[..i])
    {
      SendOne(fd, ps[i], times[i]);
      assert sent[..i + 1] == sent[..i] + [sent[i]];
      StreamSnoc(sent[..i], sent[i]);
    }
    assert sent[..|ps|] == sent;
  }

  lemma StreamOfNone()
    ensures Stream([]) == []
  {
  }

  /** Receiving until end of file, with a cleared header each time as the service loop does. */
  method ReceiveAll(fd: Socket, ghost ps: seq<Packet>) returns (received: seq<Packet>)
    requires AllWellFormed(ps) && fd.incoming == Stream(ps) && Calm(fd.script)
    modifies fd`incoming, fd`script
    ensures received == ps && fd.incoming == []
  {
    received := [];
    while true
      invariant Calm(fd.script) && received <= ps && fd.incoming == Stream(ps[|received|..])
      decreases |fd.incoming|
    {
      ghost var left := ps[|received|..];
      var hdr := new u8[HEADER_SIZE](_ => 0);
      ghost var before := hdr[..];
      if left != [] {
        FirstFrame(left[0], Stream(left[1..]), before);
      }
      var r, payload := ReceivePacket(fd, hdr, null);
      if r == -1 {
        assert left == [] && |received| == |ps|;
        break;
      }
      received := received + [Packet(hdr[..], if payload == null then [] else payload[..])];
      assert received[|received| - 1] == left[0];
    }
  }

  /** Main result: whatever the calls to write(2) and read(2) do short of a hard error, the packets
      received are the packets sent, in order, with the stamps of their sending. */
  method RoundTrip(ps: seq<Packet>, times: seq<Time>, writes: seq<Transfer>, receipts: seq<Transfer>)
    returns (received: seq<Packet>)
    requires AllWellFormed(ps) && |times| == |ps| && Calm(writes) && Calm(receipts)
    ensures received == AllSent(ps, times)
  {
    var sender := new Socket([], writes);
    SendAll(sender, ps, times);
    var receiver := new Socket(sender.outgoing, receipts);
    received := ReceiveAll(receiver, AllSent(ps, times));
  }
}
