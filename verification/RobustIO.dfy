/** The robust I/O routines of src/csapp.c. */
module RobustIO {
  import opened Sockets

  /** `rio_readn`: the first n bytes of the stream, or all of it when it is shorter, however the
      calls to read(2) cut it up; -1 only after a hard error. */
  method ReadN(fd: Socket, usrbuf: array<u8>, n: nat) returns (r: int)
    requires n <= usrbuf.Length
    modifies fd`incoming, fd`script, usrbuf
    ensures Calm(old(fd.script)) ==> Calm(fd.script) && r != -1
    ensures |fd.incoming| <= |old(fd.incoming)|
    ensures r != -1 ==>
      && r == Smaller(n, |old(fd.incoming)|) && fd.incoming == old(fd.incoming)[r..]
      && usrbuf[..] == Overlay(old(usrbuf[..]), 0, old(fd.incoming)[..r])
  {
    hide Overlay;
    var nleft, bufp := n, 0;
    ghost var stream := fd.incoming;
    OverlayGrows(usrbuf[..], stream, 0, 0);
    while nleft > 0
      invariant 0 <= nleft <= n && bufp == n - nleft <= |stream|
      invariant fd.incoming == stream[bufp..]
      invariant usrbuf[..] == Overlay(old(usrbuf[..]), 0, stream[..bufp])
      invariant Calm(old(fd.script)) ==> Calm(fd.script)
      decreases nleft, |fd.script|
    {
      var nread, eintr := fd.Read(usrbuf, bufp, nleft);
      if nread < 0 {
        if !eintr {
          return -1;
        }
        nread := 0;
      } else if nread == 0 {
        OverlayGrows(old(usrbuf[..]), stream, bufp, 0);
        break;
      }
      OverlayGrows(old(usrbuf[..]), stream, bufp, nread);
      nleft := nleft - nread;
      bufp := bufp + nread;
    }
    return n - nleft;
  }

  /** `rio_writen`: all n bytes, in order and once; after a hard error a prefix of them. */
  method WriteN(fd: Socket, usrbuf: seq<u8>) returns (r: int)
    modifies fd`outgoing, fd`script
    ensures Calm(old(fd.script)) ==> Calm(fd.script) && r != -1
    ensures r == |usrbuf| || r == -1
    ensures r != -1 ==> fd.outgoing == old(fd.outgoing) + usrbuf
    ensures old(fd.outgoing) <= fd.outgoing <= old(fd.outgoing) + usrbuf
  {
    var nleft, bufp := |usrbuf|, 0;
    while nleft > 0
      invariant 0 <= nleft <= |usrbuf| && bufp == |usrbuf| - nleft
      invariant fd.outgoing == old(fd.outgoing) + usrbuf[..bufp]
      invariant Calm(old(fd.script)) ==> Calm(fd.script)
      decreases nleft, |fd.script|
    {
      var nwritten, eintr := fd.Write(usrbuf[bufp..]);
      if nwritten <= 0 {
        if !eintr {
          return -1;
        }
        nwritten := 0;
      }
      assert usrbuf[..bufp] + usrbuf[bufp..][..nwritten] == usrbuf[..bufp + nwritten];
      nleft := nleft - nwritten;
      bufp := bufp + nwritten;
    }
    return |usrbuf|;
  }

  /** memcpy. */
  method Copy(to: array<u8>, at: nat, from: array<u8>, start: nat, n: nat)
    requires to != from && at + n <= to.Length && start + n <= from.Length
    modifies to
    ensures to[..] == Overlay(old(to[..]), at, from[start..start + n])
  {
    forall k | 0 <= k < n {
      to[at + k] := from[start + k];
    }
  }

  const RIO_BUFSIZE := 8192
  const NEWLINE: u8 := 10

  /** The line at the head of a stream, newline included, cut off after `most` bytes. */
  function LineLength(stream: seq<u8>, most: nat): (r: nat)
    ensures r <= |stream| && r <= most
    ensures forall k :: 0 <= k < r - 1 ==> stream[k] != NEWLINE
    ensures r < most ==> r == |stream| || (0 < r && stream[r - 1] == NEWLINE)
  {
    if stream == [] || most == 0 then 0
    else if stream[0] == NEWLINE then 1
    else 1 + LineLength(stream[1..], most - 1)
  }

  lemma {:induction false} LineLengthIs(stream: seq<u8>, most: nat, r: nat)
    requires r <= |stream| && r <= most && (0 < r ==> NEWLINE !in stream[..r - 1])
    requires r == most || r == |stream| || (0 < r && stream[r - 1] == NEWLINE)
    ensures LineLength(stream, most) == r
  {
    assert 1 < r ==> stream[..r - 1][0] == stream[0];
    if r != 0 && stream[0] != NEWLINE {
      if 1 < r { assert stream[1..][..r - 2] == stream[..r - 1][1..]; }
      LineLengthIs(stream[1..], most - 1, r - 1);
    }
  }

  /** rio_t. */
  class Rio {
    const fd: Socket
    var cnt: int             // rio_cnt: unread bytes in the buffer; -1 after an error
    var ptr: nat             // rio_bufptr, as a position in the buffer
    const buf: array<u8>

    ghost predicate Valid()
      reads this
    {
      buf.Length == RIO_BUFSIZE && ptr + (if cnt < 0 then 0 else cnt) <= RIO_BUFSIZE
    }

    /** What has not been given to the caller: unread bytes of the buffer, then the stream. */
    ghost function Pending(): seq<u8>
      requires Valid()
      reads this, buf, fd
    {
      (if cnt <= 0 then [] else buf[ptr..ptr + cnt]) + fd.incoming
    }

    /** `rio_readinitb`. */
    constructor (fd: Socket)
      ensures Valid() && this.fd == fd && fresh(buf) && Pending() == fd.incoming
    {
      this.fd, this.cnt, this.ptr := fd, 0, 0;
      this.buf := new u8[RIO_BUFSIZE];
    }

    /** The refill loop of `rio_read`: 1 with unread bytes, 0 at end of file, -1 after an error. */
    method Refill() returns (r: int)
      requires Valid()
      modifies this, buf, fd`incoming, fd`script
      ensures Valid() && Pending() == old(Pending())
      ensures Calm(old(fd.script)) ==> Calm(fd.script) && r != -1
      ensures -1 <= r <= 1
      ensures r == 1 ==> 0 < cnt
      ensures r == 0 ==> Pending() == []
    {
      while cnt <= 0
        invariant Valid() && Pending() == old(Pending())
        invariant Calm(old(fd.script)) ==> Calm(fd.script)
        decreases cnt <= 0, |fd.script|
      {
        ghost var stream := fd.incoming;
        var eintr;
        cnt, eintr := fd.Read(buf, 0, RIO_BUFSIZE);
        if cnt < 0 {
          if !eintr {
            return -1;
          }
        } else if cnt == 0 {
          return 0;
        } else {
          ptr := 0;
          assert buf[..][0..cnt] == stream[..cnt];
        }
      }
      return 1;
    }

    /** `rio_read`: some bytes from the head of what is pending, none only at its end. */
    method Read(usrbuf: array<u8>, at: nat, n: nat) returns (r: int)
      requires Valid() && 0 < n && at + n <= usrbuf.Length && usrbuf != buf
      modifies this, buf, fd`incoming, fd`script, usrbuf
      ensures Valid() && (Calm(old(fd.script)) ==> Calm(fd.script) && r != -1)
      ensures r == -1 ==> Pending() == old(Pending()) && usrbuf[..] == old(usrbuf[..])
      ensures r != -1 ==>
        && 0 <= r <= n && r <= |old(Pending())| && (r == 0 <==> old(Pending()) == [])
        && Pending() == old(Pending())[r..] && usrbuf[..] == Overlay(old(usrbuf[..]), at, old(Pending())[..r])
    {
      hide Overlay;
      var filled := Refill();
      if filled <= 0 {
        OverlayNone(usrbuf[..], at);
        return filled;
      }
      r := if cnt < n then cnt else n;
      ghost var pending := Pending();
      assert buf[ptr..ptr + r] == pending[..r];
      Copy(usrbuf, at, buf, ptr, r);
      ptr := ptr + r;
      cnt := cnt - r;
      assert Pending() == pending[r..];
    }

    /** `rio_readnb`: the first n pending bytes, or all when there are fewer. */
    method ReadN(usrbuf: array<u8>, n: nat) returns (r: int)
      requires Valid() && n <= usrbuf.Length && usrbuf != buf
      modifies this, buf, fd`incoming, fd`script, usrbuf
      ensures Valid() && (Calm(old(fd.script)) ==> Calm(fd.script) && r != -1)
      ensures r != -1 ==>
        && r == Smaller(n, |old(Pending())|) && Pending() == old(Pending())[r..]
        && usrbuf[..] == Overlay(old(usrbuf[..]), 0, old(Pending())[..r])
    {
      hide Overlay;
      var nleft, bufp := n, 0;
      ghost var stream := Pending();
      OverlayGrows(usrbuf[..], stream, 0, 0);
      while nleft > 0
        invariant 0 <= nleft <= n && bufp == n - nleft <= |stream|
        invariant Valid() && Pending() == stream[bufp..]
        invariant usrbuf[..] == Overlay(old(usrbuf[..]), 0, stream[..bufp])
        invariant Calm(old(fd.script)) ==> Calm(fd.script)
        decreases nleft
      {
        var nread := Read(usrbuf, bufp, nleft);
        if nread < 0 {
          return -1;
        } else if nread == 0 {
          OverlayGrows(old(usrbuf[..]), stream, bufp, 0);
          break;
        }
        OverlayGrows(old(usrbuf[..]), stream, bufp, nread);
        nleft := nleft - nread;
        bufp := bufp + nread;
      }
      return n - nleft;
    }

    /** `rio_readlineb`: the pending line, cut off to leave room for a NUL after it. The NUL is
        missing in one case: end of file before the first byte. */
    method ReadLine(usrbuf: array<u8>, maxlen: nat) returns (r: int)
      requires Valid() && 1 <= maxlen <= usrbuf.Length && usrbuf != buf
      modifies this, buf, fd`incoming, fd`script, usrbuf
      ensures Valid() && (Calm(old(fd.script)) ==> Calm(fd.script) && r != -1)
      ensures r != -1 ==>
        && r == LineLength(old(Pending()), maxlen - 1) && Pending() == old(Pending())[r..]
        && usrbuf[..] == Overlay(old(usrbuf[..]), 0,
             old(Pending())[..r] + (if old(Pending()) == [] && 1 < maxlen then [] else [0]))
    {
      hide Overlay, LineLength, Pending;
      ghost var stream := Pending();
      var n, bufp := 1, 0;
      OverlayGrows(usrbuf[..], stream, 0, 0);
      while n < maxlen
        invariant 1 <= n <= maxlen && bufp == n - 1 <= |stream|
        invariant Valid() && Pending() == stream[bufp..]
        invariant usrbuf[..] == Overlay(old(usrbuf[..]), 0, stream[..bufp])
        invariant NEWLINE !in stream[..bufp]
        invariant Calm(old(fd.script)) ==> Calm(fd.script)
      {
        var rc, c := ReadByte();
        if rc == 1 {
          OverlayOne(old(usrbuf[..]), stream[..bufp], c);
          assert stream[..bufp] + [c] == stream[..bufp + 1];
          usrbuf[bufp] := c;
          bufp := bufp + 1;
          n := n + 1;
          if c == NEWLINE {
            break;
          }
        } else if rc == 0 {
          if n == 1 {
            LineLengthIs(stream, maxlen - 1, 0);
            assert stream[..0] + [] == stream[..0];
            return 0;
          }
          break;
        } else {
          return -1;
        }
      }
      LineLengthIs(stream, maxlen - 1, bufp);
      OverlayOne(old(usrbuf[..]), stream[..bufp], 0);
      usrbuf[bufp] := 0;
      return n - 1;
    }

    /** `rio_read` of one byte into a local variable. */
    method ReadByte() returns (rc: int, c: u8)
      requires Valid()
      modifies this, buf, fd`incoming, fd`script
      ensures Valid() && (Calm(old(fd.script)) ==> Calm(fd.script) && rc != -1)
      ensures -1 <= rc <= 1
      ensures rc == 0 ==> old(Pending()) == [] == Pending()
      ensures rc == 1 ==> old(Pending()) != [] && c == old(Pending())[0] && Pending() == old(Pending())[1..]
    {
      hide Pending, Overlay;
      ghost var stream := Pending();
      var local := new u8[1];
      ghost var before := local[..];
      rc := Read(local, 0, 1);
      c := local[0];
      assert c == local[..][0];
      if 0 < rc {
        OverlayFirst(before, stream[..rc]);
      }
    }
  }

  // ---- Several calls on one stream ----

  datatype Call = Bytes(n: nat) | Line(maxlen: nat)

  /** How much of the stream one call takes. */
  function Taken(stream: seq<u8>, call: Call): (k: nat)
    requires call.Line? ==> 1 <= call.maxlen
    ensures k <= |stream|
  {
    match call
    case Bytes(n) => Smaller(n, |stream|)
    case Line(maxlen) => LineLength(stream, maxlen - 1)
  }

  predicate Sensible(calls: seq<Call>)
  {
    forall c :: c in calls && c.Line? ==> 1 <= c.maxlen
  }

  /** What a list of calls returns: a function of the stream and the calls alone. */
  function Pieces(stream: seq<u8>, calls: seq<Call>): seq<seq<u8>>
    requires Sensible(calls)
    decreases |calls|
  {
    if calls == [] then []
    else
      var k := Taken(stream, calls[0]);
      [stream[..k]] + Pieces(stream[k..], calls[1..])
  }

  function Joined(pieces: seq<seq<u8>>): seq<u8>
  {
    if pieces == [] then [] else pieces[0] + Joined(pieces[1..])
  }

  lemma {:induction false} JoinedSnoc(pieces: seq<seq<u8>>, last: seq<u8>)
    ensures Joined(pieces + [last]) == Joined(pieces) + last
  {
    if pieces != [] {
      assert (pieces + [last])[1..] == pieces[1..] + [last];
      JoinedSnoc(pieces[1..], last);
    }
  }

  lemma {:induction false} PiecesSnoc(stream: seq<u8>, calls: seq<Call>, c: Call)
    requires Sensible(calls + [c]) && Sensible(calls) && |Joined(Pieces(stream, calls))| <= |stream|
    ensures var rest := stream[|Joined(Pieces(stream, calls))|..];
      Pieces(stream, calls + [c]) == Pieces(stream, calls) + [rest[..Taken(rest, c)]]
    decreases |calls|
  {
    if calls == [] {
      assert calls + [c] == [c] && [c][1..] == [];
    } else {
      var k := Taken(stream, calls[0]);
      var more := Pieces(stream[k..], calls[1..]);
      assert (calls + [c])[1..] == calls[1..] + [c];
      assert ([stream[..k]] + more)[1..] == more;
      assert stream[k..][|Joined(more)|..] == stream[|Joined(Pieces(stream, calls))|..];
      PiecesSnoc(stream[k..], calls[1..], c);
    }
  }

  /** One call into a buffer of its own. */
  method ReadPiece(rp: Rio, call: Call) returns (piece: seq<u8>)
    requires rp.Valid() && Calm(rp.fd.script) && (call.Line? ==> 1 <= call.maxlen)
    modifies rp, rp.buf, rp.fd`incoming, rp.fd`script
    ensures rp.Valid() && Calm(rp.fd.script)
    ensures var k := Taken(old(rp.Pending()), call);
      piece == old(rp.Pending())[..k] && rp.Pending() == old(rp.Pending())[k..]
  {
    hide Rio.Pending, LineLength, Overlay;
    ghost var stream := rp.Pending();
    var usrbuf := new u8[if call.Bytes? then call.n else call.maxlen];
    ghost var before := usrbuf[..];
    var r;
    if call.Bytes? {
      r := rp.ReadN(usrbuf, call.n);
      OverlayPrefix(before, stream[..r], []);
      assert stream[..r] + [] == stream[..r];
    } else {
      r := rp.ReadLine(usrbuf, call.maxlen);
      OverlayPrefix(before, stream[..r], if stream == [] && 1 < call.maxlen then [] else [0]);
    }
    assert usrbuf[..r] == usrbuf[..][..r];
    piece := usrbuf[..r];
  }

  /** Any mix of `rio_readnb` and `rio_readlineb` calls returns consecutive pieces of the stream,
      nothing lost and nothing twice, the same whatever the calls to read(2) delivered. */
  method ReadPieces(rp: Rio, calls: seq<Call>) returns (pieces: seq<seq<u8>>)
    requires rp.Valid() && Calm(rp.fd.script) && Sensible(calls)
    modifies rp, rp.buf, rp.fd`incoming, rp.fd`script
    ensures rp.Valid() && pieces == Pieces(old(rp.Pending()), calls)
    ensures old(rp.Pending()) == Joined(pieces) + rp.Pending()
  {
    hide Rio.Pending, Pieces, Taken, Joined;
    pieces := [];
    ghost var stream := rp.Pending();
    PiecesOfNone(stream);
    for i := 0 to |calls|
      invariant rp.Valid() && Calm(rp.fd.script)
      invariant pieces == Pieces(stream, calls[..i]) && stream == Joined(pieces) + rp.Pending()
    {
      PieceAdded(stream, calls, i, pieces, rp.Pending());
      var piece := ReadPiece(rp, calls[i]);
      pieces := pieces + [piece];
    }
    assert calls[..|calls|] == calls;
  }

  lemma PiecesOfNone(stream: seq<u8>)
    ensures Pieces(stream, []) == [] && Joined([]) == []
  {
  }

  lemma PieceAdded(stream: seq<u8>, calls: seq<Call>, i: nat, pieces: seq<seq<u8>>, rest: seq<u8>)
    requires i < |calls| && Sensible(calls)
    requires pieces == Pieces(stream, calls[..i]) && stream == Joined(pieces) + rest
    ensures var k := Taken(rest, calls[i]);
      && Pieces(stream, calls[..i + 1]) == pieces + [rest[..k]]
      && stream == Joined(pieces + [rest[..k]]) + rest[k..]
  {
    hide Pieces, Taken, Joined;
    assert rest == stream[|Joined(pieces)|..];
    assert calls[..i + 1] == calls[..i] + [calls[i]];
    PiecesSnoc(stream, calls[..i], calls[i]);
    JoinedSnoc(pieces, rest[..Taken(rest, calls[i])]);
  }

  /** A line that a call with this limit can return: nonempty, no newline but at its end. */
  predicate IsLine(l: seq<u8>, maxlen: nat)
  {
    0 < |l| < maxlen && NEWLINE !in l[..|l| - 1]
  }

  lemma LineTaken(stream: seq<u8>, maxlen: nat)
    requires 2 <= maxlen
    ensures var k := Taken(stream, Line(maxlen)); if k == 0 then stream == [] else IsLine(stream[..k], maxlen)
  {
  }

  lemma LineAdded(lines: seq<seq<u8>>, rest: seq<u8>, k: nat)
    requires k <= |rest|
    ensures Joined(lines + [rest[..k]]) + rest[k..] == Joined(lines) + rest
  {
    JoinedSnoc(lines, rest[..k]);
    assert rest[..k] + rest[k..] == rest;
  }

  /** Reading lines until 0 ends, and the lines together are the whole stream. */
  method ReadLines(rp: Rio, maxlen: nat) returns (lines: seq<seq<u8>>)
    requires rp.Valid() && Calm(rp.fd.script) && 2 <= maxlen
    modifies rp, rp.buf, rp.fd`incoming, rp.fd`script
    ensures rp.Valid() && rp.Pending() == [] && Joined(lines) == old(rp.Pending())
    ensures forall l :: l in lines ==> IsLine(l, maxlen)
  {
    hide Rio.Pending, Taken, Joined, IsLine;
    PiecesOfNone(rp.Pending());
    lines := [];
    ghost var stream := rp.Pending();
    while true
      invariant rp.Valid() && Calm(rp.fd.script)
      invariant stream == Joined(lines) + rp.Pending()
      invariant forall l :: l in lines ==> IsLine(l, maxlen)
      decreases |rp.Pending()|
    {
      LineTaken(rp.Pending(), maxlen);
      LineAdded(lines, rp.Pending(), Taken(rp.Pending(), Line(maxlen)));
      var line := ReadPiece(rp, Line(maxlen));
      if line == [] {
        break;
      }
      lines := lines + [line];
    }
  }
}
