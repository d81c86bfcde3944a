/** A descriptor as read(2) and write(2) show it: any call may transfer only part of what was asked,
    be interrupted, or fail. `script` fixes in advance what the next calls will do, so that every
    pattern of short counts and interruptions is covered by some script. */
module Sockets {

  type u8 = x: int | 0 <= x < 0x100

  datatype Transfer =
    | Chunk(size: nat)   // transfer at most this many bytes, but at least one
    | Interrupted        // -1 with EINTR
    | Failed             // -1 with another errno

  /** No hard error is coming. */
  predicate Calm(script: seq<Transfer>)
  {
    Failed !in script
  }

  function Smaller(x: nat, y: nat): nat
  {
    if x < y then x else y
  }

  /** How many of `have` bytes a call that asks for `want` transfers. */
  function Granted(script: seq<Transfer>, want: nat, have: nat): nat
  {
    var most := Smaller(want, have);
    if script != [] && script[0].Chunk? then Smaller(if script[0].size == 0 then 1 else script[0].size, most) else most
  }

  /** `bytes` written over `a` from position `at`. */
  function Overlay(a: seq<u8>, at: nat, bytes: seq<u8>): (r: seq<u8>)
    requires at + |bytes| <= |a|
    ensures |r| == |a|
  {
    a[..at] + bytes + a[at + |bytes|..]
  }

  lemma OverlayTwice(a: seq<u8>, at: nat, x: seq<u8>, y: seq<u8>)
    requires at + |x| + |y| <= |a|
    ensures Overlay(Overlay(a, at, x), at + |x|, y) == Overlay(a, at, x + y)
  {
    assert Overlay(a, at, x)[..at + |x|] == a[..at] + x;
    assert Overlay(a, at, x)[at + |x| + |y|..] == a[at + |x| + |y|..];
  }

  /** The first m bytes of a stream over `a`, then n more. */
  lemma OverlayGrows(a: seq<u8>, stream: seq<u8>, m: nat, n: nat)
    requires m + n <= |a| && m + n <= |stream|
    ensures Overlay(Overlay(a, 0, stream[..m]), m, stream[m..][..n]) == Overlay(a, 0, stream[..m + n])
    ensures Overlay(a, 0, stream[..0]) == a && stream[m..][n..] == stream[m + n..]
  {
    OverlayTwice(a, 0, stream[..m], stream[m..][..n]);
    assert stream[..m] + stream[m..][..n] == stream[..m + n];
  }

  lemma OverlayNone(a: seq<u8>, at: nat)
    requires at <= |a|
    ensures Overlay(a, at, []) == a
  {
  }

  lemma OverlayFirst(a: seq<u8>, x: seq<u8>)
    requires 0 < |x| <= |a|
    ensures Overlay(a, 0, x)[0] == x[0]
  {
  }

  lemma OverlayPrefix(a: seq<u8>, x: seq<u8>, y: seq<u8>)
    requires |x| + |y| <= |a|
    ensures Overlay(a, 0, x + y)[..|x|] == x
  {
  }

  lemma OverlayOne(a: seq<u8>, x: seq<u8>, c: u8)
    requires |x| < |a|
    ensures Overlay(a, 0, x)[|x| := c] == Overlay(a, 0, x + [c])
  {
  }

  class Socket {
    var incoming: seq<u8>   // what the peer has sent or will send before end of file
    var outgoing: seq<u8>   // what has been written so far
    var script: seq<Transfer>

    constructor (incoming: seq<u8>, script: seq<Transfer>)
      ensures this.incoming == incoming && outgoing == [] && this.script == script
    {
      this.incoming, this.outgoing, this.script := incoming, [], script;
    }

    /** read(2): the number of bytes, 0 at end of file, or -1. */
    method Read(buf: array<u8>, at: nat, want: nat) returns (r: int, eintr: bool)
      requires 0 < want && at + want <= buf.Length
      modifies `incoming, `script, buf
      ensures script == if old(script) == [] then [] else old(script)[1..]
      ensures r == -1 <==> old(script) != [] && !old(script)[0].Chunk?
      ensures r == -1 ==>
        (eintr <==> old(script)[0].Interrupted?) && incoming == old(incoming) && buf[..] == old(buf[..])
      ensures r != -1 ==>
        && r == Granted(old(script), want, |old(incoming)|)
        && incoming == old(incoming)[r..] && buf[..] == Overlay(old(buf[..]), at, old(incoming)[..r])
    {
      var answer := if script == [] then Chunk(want) else script[0];
      r := Granted(script, want, |incoming|);
      script := if script == [] then [] else script[1..];
      if !answer.Chunk? {
        return -1, answer.Interrupted?;
      }
      eintr := false;
      var data := incoming[..r];
      forall k | 0 <= k < r {
        buf[at + k] := data[k];
      }
      incoming := incoming[r..];
      assert buf[..] == Overlay(old(buf[..]), at, data);
    }

    /** write(2) of some bytes: how many were taken, or -1. */
    method Write(bytes: seq<u8>) returns (r: int, eintr: bool)
      requires bytes != []
      modifies `outgoing, `script
      ensures script == if old(script) == [] then [] else old(script)[1..]
      ensures r == -1 <==> old(script) != [] && !old(script)[0].Chunk?
      ensures r == -1 ==> (eintr <==> old(script)[0].Interrupted?) && outgoing == old(outgoing)
      ensures r != -1 ==> r == Granted(old(script), |bytes|, |bytes|) && outgoing == old(outgoing) + bytes[..r]
    {
      var answer := if script == [] then Chunk(|bytes|) else script[0];
      r := Granted(script, |bytes|, |bytes|);
      script := if script == [] then [] else script[1..];
      if !answer.Chunk? {
        return -1, answer.Interrupted?;
      }
      eintr := false;
      outgoing := outgoing + bytes[..r];
    }
  }
}
