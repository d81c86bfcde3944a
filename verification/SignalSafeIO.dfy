/** Number printing of src/csapp.c: digits from the low end, then a reversal in place. */
module SignalSafeIO {

  const LONG_MAX := 0x7FFF_FFFF_FFFF_FFFF
  const LONG_MIN := -0x8000_0000_0000_0000

  type Long = x: int | -0x8000_0000_0000_0000 <= x <= 0x7FFF_FFFF_FFFF_FFFF

  /** Negation in two's complement: the smallest number has no negative and stays as it is. */
  function Negated(v: Long): Long
  {
    if v == LONG_MIN then v else -v
  }

  /** The character of a digit, as `sio_ltoa` picks it. */
  function Digit(d: nat): char
    requires d < 36
  {
    if d < 10 then '0' + d as char else 'a' + (d - 10) as char
  }

  function ValueOf(c: char): int
  {
    if '0' <= c <= '9' then c as int - '0' as int else c as int - 'a' as int + 10
  }

  lemma ValueOfDigit(d: nat)
    requires d < 36
    ensures ValueOf(Digit(d)) == d && Digit(d) != '\0' && Digit(d) != '-' && (Digit(d) == '0' ==> d == 0)
  {
  }

  lemma Division(v: nat, b: nat)
    requires 2 <= b
    ensures v == v / b * b + v % b && 0 <= v % b < b
    ensures b <= v ==> 0 < v / b < v
    ensures v < b ==> v / b == 0 && v % b == v
    ensures 2 * (v / b) <= v
  {
    Quotient(v, b, v / b, v % b);
  }

  lemma Quotient(v: nat, b: nat, q: nat, r: nat)
    requires 2 <= b && v == q * b + r && r < b
    ensures b <= v ==> 0 < q < v
    ensures v < b ==> q == 0 && r == v
    ensures 2 * q <= v
  {
    assert q * b == 2 * q + q * (b - 2);
    if 0 < q {
      assert q * b == b + (q - 1) * b;
    }
  }

  /** The numeral of v in base b, most significant digit first. */
  function Digits(v: nat, b: nat): (s: string)
    requires 2 <= b <= 36
    decreases v
  {
    Division(v, b);
    if v < b then [Digit(v)] else Digits(v / b, b) + [Digit(v % b)]
  }

  function Printed(v: int, b: nat): string
    requires 2 <= b <= 36
  {
    if v < 0 then "-" + Digits(-v, b) else Digits(v, b)
  }

  function ParseDigits(s: string, b: nat): int
  {
    if s == "" then 0 else ParseDigits(s[..|s| - 1], b) * b + ValueOf(s[|s| - 1])
  }

  /** Reads a numeral in base b, with or without a sign. */
  function Parse(s: string, b: nat): int
  {
    if s != "" && s[0] == '-' then -ParseDigits(s[1..], b) else ParseDigits(s, b)
  }

  lemma {:induction false} ParseOfDigits(v: nat, b: nat)
    requires 2 <= b <= 36
    ensures ParseDigits(Digits(v, b), b) == v
    decreases v
  {
    Division(v, b);
    ValueOfDigit(v % b);
    var s := Digits(v, b);
    if v < b {
      assert s[..|s| - 1] == "";
    } else {
      assert s[..|s| - 1] == Digits(v / b, b);
      ParseOfDigits(v / b, b);
    }
  }

  /** Printing loses nothing. */
  lemma ParseOfPrinted(v: int, b: nat)
    requires 2 <= b <= 36
    ensures Parse(Printed(v, b), b) == v
  {
    hide Digits, ParseDigits;
    if v < 0 {
      ParseOfDigits(-v, b);
      assert Printed(v, b)[1..] == Digits(-v, b);
    } else {
      ParseOfDigits(v, b);
      DigitsPlain(v, b);
      assert Digits(v, b)[0] in Digits(v, b);
    }
  }

  /** Digits only, and a zero in front only as the numeral of 0. */
  lemma {:induction false} DigitsPlain(v: nat, b: nat)
    requires 2 <= b <= 36
    ensures Digits(v, b) != "" && forall c :: c in Digits(v, b) ==> c != '\0' && c != '-'
    ensures Digits(v, b)[0] == '0' ==> v == 0
    decreases v
  {
    Division(v, b);
    ValueOfDigit(v % b);
    if b <= v {
      DigitsPlain(v / b, b);
    }
  }

  function Pow2(k: nat): nat
  {
    if k == 0 then 1 else 2 * Pow2(k - 1)
  }

  lemma {:induction false} DigitsShort(v: nat, b: nat, k: nat)
    requires 2 <= b <= 36 && 1 <= k && v < Pow2(k)
    ensures |Digits(v, b)| <= k
    decreases k
  {
    Division(v, b);
    if b <= v {
      DigitsShort(v / b, b, k - 1);
    }
  }

  lemma Seven(k: nat)
    ensures Pow2(k + 7) == 0x80 * Pow2(k)
  {
    assert Pow2(k + 3) == 8 * Pow2(k) by {
      assert Pow2(k + 2) == 4 * Pow2(k);
    }
    assert Pow2(k + 5) == 4 * Pow2(k + 3);
  }

  lemma SixtyThree()
    ensures Pow2(63) == LONG_MAX + 1
  {
    assert Pow2(0) == 1;
    hide Pow2;
    Seven(0);
    Seven(7);
    Seven(14);
    Seven(21);
    Seven(28);
    Seven(35);
    Seven(42);
    Seven(49);
    Seven(56);
  }

  /** What the digit loop makes of a number that is still negative: % and / truncate toward zero, so
      the digit is at or below '0' and the quotient ends the loop. */
  function NegativeDigit(v: int, b: nat): char
    requires 2 <= b <= 36 && v < 0
  {
    ('0' as int - -v % b) as char
  }

  /** The digits the loop leaves, most significant first. */
  function Looped(v: int, b: nat): string
    requires 2 <= b <= 36
  {
    if v < 0 then [NegativeDigit(v, b)] else Digits(v, b)
  }

  /** What `sio_ltoa` writes in front of the NUL. */
  function Written(v: Long, b: nat): string
    requires 2 <= b <= 36
  {
    if v < 0 then "-" + Looped(Negated(v), b) else Looped(v, b)
  }

  /** With sign and NUL, a 64-bit number never takes more than 65 bytes. */
  lemma WrittenFits(v: Long, b: nat)
    requires 2 <= b <= 36
    ensures |Written(v, b)| + 1 <= 65
  {
    hide Digits;
    SixtyThree();
    if v != LONG_MIN {
      DigitsShort(if v < 0 then -v else v, b, 63);
    }
  }

  /** Reading back gives the number that was printed if and only if it is not the smallest one. */
  lemma WrittenExactly(v: Long, b: nat)
    requires 2 <= b <= 36
    ensures Parse(Written(v, b), b) == v <==> v != LONG_MIN
    ensures v != LONG_MIN ==> Written(v, b) == Printed(v, b)
  {
    hide Digits, ParseDigits;
    if v == LONG_MIN {
      var digit := NegativeDigit(v, b);
      assert Written(v, b)[1..] == [digit];
      ParseOfOne(digit, b);
    } else {
      ParseOfPrinted(v, b);
    }
  }

  lemma ParseOfOne(c: char, b: nat)
    ensures ParseDigits([c], b) == ValueOf(c)
  {
    assert [c][..0] == "";
  }

  lemma WrittenPlain(v: Long, b: nat)
    requires 2 <= b <= 36
    ensures '\0' !in Written(v, b)
  {
    hide Digits;
    if v != LONG_MIN {
      DigitsPlain(if v < 0 then -v else v, b);
    }
  }

  // ---- Strings in memory ----

  /** `sio_strlen`. */
  method StrLen(s: array<char>) returns (n: nat)
    requires '\0' in s[..]
    ensures n < s.Length && s[n] == '\0' && '\0' !in s[..n]
  {
    n := 0;
    while s[n] != '\0'
      invariant n < s.Length && '\0' !in s[..n]
      decreases s.Length - n
    {
      assert '\0' in s[n + 1..] by {
        var k :| 0 <= k < s.Length && s[..][k] == '\0';
        assert n < k && s[n + 1..][k - n - 1] == '\0';
      }
      n := n + 1;
    }
  }

  function Mirror(s: string): (m: string)
    ensures |m| == |s|
  {
    seq(|s|, k requires 0 <= k < |s| => s[|s| - 1 - k])
  }

  lemma MirrorSnoc(s: string, c: char)
    ensures Mirror(s + [c]) == [c] + Mirror(s)
  {
  }

  lemma MirrorCons(s: string, c: char)
    ensures Mirror([c] + s) == Mirror(s) + [c]
  {
  }

  lemma MirrorOfNone()
    ensures Mirror("") == ""
  {
  }

  lemma MirrorTwice(s: string)
    ensures Mirror(Mirror(s)) == s
    ensures forall c :: c in Mirror(s) ==> c in s
  {
  }

  /** The string at the start of a buffer has length n. */
  predicate StringIn(s: string, n: nat)
  {
    n < |s| && s[n] == '\0' && '\0' !in s[..n]
  }

  lemma OneLength(s: string, m: nat, n: nat)
    requires StringIn(s, m) && StringIn(s, n)
    ensures m == n
  {
    assert forall k :: 0 <= k < n ==> s[..n][k] == s[k];
    assert forall k :: 0 <= k < m ==> s[..m][k] == s[k];
  }

  /** `sio_reverse`: the string in front of the NUL, and nothing else. */
  method Reverse(s: array<char>, ghost n: nat)
    requires StringIn(s[..], n)
    modifies s
    ensures s[..] == Mirror(old(s[..n])) + old(s[n..])
  {
    assert s[..][n] == '\0';
    var length := StrLen(s);
    OneLength(s[..], length, n);
    var i, j := 0, length as int - 1;
    while i < j
      invariant 0 <= i && j == n - 1 - i && i <= j + 2
      invariant forall k :: 0 <= k < i ==> s[k] == old(s[n - 1 - k]) && s[n - 1 - k] == old(s[k])
      invariant forall k :: i <= k < n - i ==> s[k] == old(s[k])
      invariant s[n..] == old(s[n..])
    {
      var c := s[i];
      s[i] := s[j];
      s[j] := c;
      i, j := i + 1, j - 1;
    }
    assert s[..n] == Mirror(old(s[..n]));
    assert s[..] == s[..n] + s[n..];
  }

  /** `v % b` and `v / b`, and what is left to print. */
  method LastDigit(v: nat, b: nat) returns (quotient: nat, c: nat)
    requires 2 <= b <= 36
    ensures c < 36 && (quotient == 0 || quotient < v)
    ensures Digits(v, b) == if quotient == 0 then [Digit(c)] else Digits(quotient, b) + [Digit(c)]
  {
    Division(v, b);
    quotient, c := v / b, v % b;
  }

  lemma OneMore(numeral: string, left: string, more: string, low: string, c: char)
    requires numeral == left + Mirror(low)
    requires left == more + [c]
    ensures numeral == more + Mirror(low + [c]) && (more == "" ==> numeral == Mirror(low + [c]))
  {
    MirrorSnoc(low, c);
  }

  /** `s[i++] = c`. */
  method Append(s: array<char>, i: nat, c: char) returns (next: nat)
    requires i < s.Length
    modifies s
    ensures next == i + 1 && s[..next] == old(s[..i]) + [c] && s[next..] == old(s[i + 1..])
  {
    s[i] := c;
    next := i + 1;
  }

  /** The digit loop of `sio_ltoa`: the numeral back to front. */
  method StoreDigits(number: nat, s: array<char>, b: nat) returns (i: nat)
    requires 2 <= b <= 36 && |Digits(number, b)| <= s.Length
    modifies s
    ensures i == |Digits(number, b)| && s[..i] == Mirror(Digits(number, b)) && s[i..] == old(s[i..])
  {
    var v := number;
    i := 0;
    hide Mirror, Digits, Digit;
    ghost var numeral := Digits(number, b);
    MirrorOfNone();
    DigitsPlain(number, b);
    while true
      invariant 0 <= v && i < |numeral| && numeral == Digits(v, b) + Mirror(s[..i])
      invariant s[i..] == old(s[i..])
      decreases v
    {
      var quotient, c := LastDigit(v, b);
      ghost var low, rest := s[..i], s[i + 1..];
      OneMore(numeral, Digits(v, b), if quotient == 0 then "" else Digits(quotient, b), low, Digit(c));
      i := Append(s, i, Digit(c));
      assert rest == old(s[i - 1..])[1..];
      v := quotient;
      if v <= 0 {
        break;
      }
      DigitsPlain(v, b);
    }
    MirrorTwice(s[..i]);
  }

  /** The digit loop on any number it can be given. */
  method StoreLooped(number: int, s: array<char>, b: nat) returns (i: nat)
    requires 2 <= b <= 36 && |Looped(number, b)| <= s.Length
    modifies s
    ensures i == |Looped(number, b)| && s[..i] == Mirror(Looped(number, b)) && s[i..] == old(s[i..])
  {
    hide Digits;
    if number < 0 {
      s[0] := ('0' as int - -number % b) as char;
      i := 1;
    } else {
      i := StoreDigits(number, s, b);
    }
  }

  /** Digits and sign, back to front. */
  method StoreSigned(number: Long, s: array<char>, b: nat) returns (i: nat)
    requires 2 <= b <= 36 && |Written(number, b)| <= s.Length
    modifies s
    ensures i == |Written(number, b)| && s[..i] == Mirror(Written(number, b)) && s[i..] == old(s[i..])
  {
    hide Digits, Looped, Mirror;
    var v := number;
    var neg := v < 0;
    if neg {
      v := Negated(v);
    }
    i := StoreLooped(v, s, b);
    if neg {
      MirrorCons(Looped(v, b), '-');
      i := Append(s, i, '-');
      assert s[i..] == old(s[i - 1..])[1..];
    }
  }

  /** `sio_ltoa`: the numeral and its NUL, in as many bytes as they need. */
  method Ltoa(number: Long, s: array<char>, b: nat)
    requires 2 <= b <= 36 && |Written(number, b)| < s.Length
    modifies s
    ensures s[..] == Written(number, b) + ['\0'] + old(s[|Written(number, b)| + 1..])
  {
    hide Written, Mirror;
    ghost var written := Written(number, b);
    WrittenPlain(number, b);
    MirrorTwice(written);
    var i := StoreSigned(number, s, b);
    ghost var rest := s[i + 1..];
    assert rest == old(s[i..])[1..];
    s[i] := '\0';
    assert s[..i] == Mirror(written) && s[i..] == ['\0'] + rest;
    Reverse(s, i);
  }

  /** `sio_putl`: what it hands to write(2) reads back as the number, unless that is the smallest one;
      128 bytes are always enough. */
  method PutL(v: Long) returns (written: string)
    ensures written == Written(v, 10) && (Parse(written, 10) == v <==> v != LONG_MIN)
  {
    hide Digits, Looped, Parse;
    var s := new char[128](_ => ' ');
    WrittenFits(v, 10);
    WrittenExactly(v, 10);
    Ltoa(v, s, 10);
    ghost var n := |Written(v, 10)|;
    WrittenPlain(v, 10);
    assert s[n] == '\0' && s[..n] == Written(v, 10) && StringIn(s[..], n);
    var length := StrLen(s);
    OneLength(s[..], length, n);
    written := s[..length];
  }
}
