/** Weighted sums over sequences, the one notion of counting used throughout the model. */
module Sums {

  function Sum<T>(s: seq<T>, w: T -> int): int
  {
    if s == [] then 0 else w(s[0]) + Sum(s[1..], w)
  }

  lemma {:induction false} SumConcat<T>(a: seq<T>, b: seq<T>, w: T -> int)
    ensures Sum(a + b, w) == Sum(a, w) + Sum(b, w)
  {
    if a == [] {
      assert a + b == b;
    } else {
      assert (a + b)[1..] == a[1..] + b;
      SumConcat(a[1..], b, w);
    }
  }

  lemma SumSnoc<T>(s: seq<T>, x: T, w: T -> int)
    ensures Sum(s + [x], w) == Sum(s, w) + w(x)
  {
    SumConcat(s, [x], w);
  }

  lemma {:induction false} SumSplit<T>(s: seq<T>, i: nat, w: T -> int)
    requires i < |s|
    ensures Sum(s, w) == Sum(s[..i], w) + w(s[i]) + Sum(s[i + 1..], w)
  {
    if i != 0 {
      SumSplit(s[1..], i - 1, w);
      assert s[1..][..i - 1] == s[..i][1..] && s[1..][i..] == s[i + 1..];
    }
  }

  lemma SumUpdate<T>(s: seq<T>, i: nat, x: T, w: T -> int)
    requires i < |s|
    ensures Sum(s[i := x], w) == Sum(s, w) - w(s[i]) + w(x)
  {
    SumSplit(s, i, w);
    SumSplit(s[i := x], i, w);
    assert s[i := x][..i] == s[..i] && s[i := x][i + 1..] == s[i + 1..];
  }

  function Remove<T>(s: seq<T>, i: nat): (r: seq<T>)
    requires i < |s|
    ensures |r| == |s| - 1
    ensures forall x :: x in r ==> x in s
  {
    s[..i] + s[i + 1..]
  }

  lemma SumRemove<T>(s: seq<T>, i: nat, w: T -> int)
    requires i < |s|
    ensures Sum(Remove(s, i), w) == Sum(s, w) - w(s[i])
  {
    SumSplit(s, i, w);
    SumConcat(s[..i], s[i + 1..], w);
  }

  lemma {:induction false} SumLe<T>(s: seq<T>, v: T -> int, w: T -> int)
    requires forall x :: x in s ==> v(x) <= w(x)
    ensures Sum(s, v) <= Sum(s, w)
  {
    if s != [] {
      SumLe(s[1..], v, w);
    }
  }

  lemma {:induction false} SumNonNeg<T>(s: seq<T>, w: T -> int)
    requires forall x :: x in s ==> 0 <= w(x)
    ensures 0 <= Sum(s, w)
  {
    if s != [] {
      SumNonNeg(s[1..], w);
    }
  }

  lemma SumAtLeast<T>(s: seq<T>, i: nat, w: T -> int)
    requires i < |s|
    requires forall x :: x in s ==> 0 <= w(x)
    ensures 0 <= w(s[i]) <= Sum(s, w)
  {
    SumSplit(s, i, w);
    SumNonNeg(s[..i], w);
    SumNonNeg(s[i + 1..], w);
  }

  /** Two different positions both count. */
  lemma SumAtLeastTwo<T>(s: seq<T>, i: nat, j: nat, w: T -> int)
    requires i < j < |s|
    requires forall x :: x in s ==> 0 <= w(x)
    ensures w(s[i]) + w(s[j]) <= Sum(s, w)
  {
    SumSplit(s, i, w);
    SumNonNeg(s[..i], w);
    assert s[j] == s[i + 1..][j - i - 1];
    SumAtLeast(s[i + 1..], j - i - 1, w);
  }

  /** Only one position counts. */
  lemma SumOnly<T>(s: seq<T>, i: nat, w: T -> int)
    requires i < |s| && forall k :: 0 <= k < |s| && k != i ==> w(s[k]) == 0
    ensures Sum(s, w) == w(s[i])
  {
    SumSplit(s, i, w);
    forall x | x in s[..i] || x in s[i + 1..]
      ensures w(x) == 0
    {
      if x in s[..i] {
        var k :| 0 <= k < i && s[k] == x;
      } else {
        var k :| i < k < |s| && s[k] == x;
      }
    }
    SumConst(s[..i], 0, w);
    SumConst(s[i + 1..], 0, w);
  }

  lemma {:induction false} SumWitness<T>(s: seq<T>, w: T -> int) returns (i: nat)
    requires 0 < Sum(s, w)
    ensures i < |s| && 0 < w(s[i])
  {
    if 0 < w(s[0]) {
      i := 0;
    } else {
      i := SumWitness(s[1..], w);
      i := i + 1;
    }
  }

  lemma {:induction false} SumConst<T>(s: seq<T>, c: int, w: T -> int)
    requires forall x :: x in s ==> w(x) == c
    ensures Sum(s, w) == c * |s|
  {
    if s != [] {
      SumConst(s[1..], c, w);
    }
  }

  /** The first k of an infinite list. */
  function Prefix<T>(f: nat -> T, k: nat): (p: seq<T>)
    ensures |p| == k && forall i :: 0 <= i < k ==> p[i] == f(i)
  {
    seq(k, (i: nat) => f(i))
  }

  /** q * p by repeated addition, so that the bookkeeping proofs stay linear; see ProductIs. */
  function Product(q: nat, p: int): int
  {
    if q == 0 then 0 else Product(q - 1, p) + p
  }

  lemma {:induction false} ProductIs(q: nat, p: int)
    ensures Product(q, p) == q * p
  {
    if q != 0 {
      ProductIs(q - 1, p);
    }
  }

  lemma {:induction false} ProductOfSum(q: nat, a: int, b: int)
    ensures Product(q, a + b) == Product(q, a) + Product(q, b)
  {
    if q != 0 {
      ProductOfSum(q - 1, a, b);
    }
  }

  lemma {:induction false} SumOfProducts(m: nat, n: nat, p: int)
    ensures Product(m + n, p) == Product(m, p) + Product(n, p)
  {
    if n != 0 {
      SumOfProducts(m, n - 1, p);
    }
  }

  lemma {:induction false} ProductNonNeg(q: nat, p: nat)
    ensures 0 <= Product(q, p)
  {
    if q != 0 {
      ProductNonNeg(q - 1, p);
    }
  }
}
