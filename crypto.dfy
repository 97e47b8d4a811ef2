/**
 * compare_secure: the timing-safe string comparison. Both strings are
 * encoded as UTF-8, every byte pair is XOR-ed and the differences are
 * OR-ed into one accumulator, with no early exit.
 */
module Crypto {

  // ---------------------------------------------------------------------
  // Python's | and ^ on non-negative ints, bit by bit

  function Xor(x: nat, y: nat): nat
  {
    if x == 0 then y
    else if y == 0 then x
    else 2 * Xor(x / 2, y / 2) + (x + y) % 2
  }

  function Or(x: nat, y: nat): nat
  {
    if x == 0 then y
    else if y == 0 then x
    else 2 * Or(x / 2, y / 2) + (if x % 2 == 1 || y % 2 == 1 then 1 else 0)
  }

  /** x ^ y is zero exactly when x and y are equal. */
  lemma {:induction false} XorIsZero(x: nat, y: nat)
    ensures Xor(x, y) == 0 <==> x == y
  {
    if x != 0 && y != 0 {
      XorIsZero(x / 2, y / 2);
    }
  }

  /** x | y is zero exactly when both are. */
  lemma {:induction false} OrIsZero(x: nat, y: nat)
    ensures Or(x, y) == 0 <==> x == 0 && y == 0
  {
    if x != 0 && y != 0 {
      OrIsZero(x / 2, y / 2);
    }
  }

  // ---------------------------------------------------------------------
  // str.encode(): UTF-8

  /** The number of bytes of a character whose encoding starts with b. */
  function LeadLength(b: nat): nat
  {
    if b < 0x80 then 1 else if b < 0xE0 then 2 else if b < 0xF0 then 3 else 4
  }

  /** The UTF-8 bytes of one character; the first byte tells how many there are. */
  function Utf8(c: char): (bs: seq<nat>)
    ensures 1 <= |bs| <= 4
    ensures forall k :: 0 <= k < |bs| ==> bs[k] < 256
    ensures |bs| == LeadLength(bs[0])
  {
    var n := c as int;
    if n < 0x80 then [n]
    else if n < 0x800 then [0xC0 + n / 64, 0x80 + n % 64]
    else if n < 0x1_0000 then [0xE0 + n / 4096, 0x80 + n / 64 % 64, 0x80 + n % 64]
    else [0xF0 + n / 0x4_0000, 0x80 + n / 4096 % 64, 0x80 + n / 64 % 64, 0x80 + n % 64]
  }

  /** The code point that a one-character byte sequence stands for. */
  function CodePoint(bs: seq<nat>): int
    requires 1 <= |bs| <= 4
  {
    if |bs| == 1 then bs[0]
    else if |bs| == 2 then (bs[0] as int - 0xC0) * 64 + (bs[1] as int - 0x80)
    else if |bs| == 3 then (bs[0] as int - 0xE0) * 4096 + (bs[1] as int - 0x80) * 64 + (bs[2] as int - 0x80)
    else (bs[0] as int - 0xF0) * 0x4_0000 + (bs[1] as int - 0x80) * 4096 + (bs[2] as int - 0x80) * 64 + (bs[3] as int - 0x80)
  }

  /** Decoding a character's bytes gives the character back, so distinct characters have distinct encodings. */
  lemma CodePointOfUtf8(c: char)
    ensures CodePoint(Utf8(c)) == c as int
  {
    var n := c as int;
    var q1, r1 := n / 64, n % 64;
    var q2, r2 := q1 / 64, q1 % 64;
    var q3, r3 := q2 / 64, q2 % 64;
    assert n == 64 * q1 + r1;
    assert q1 == 64 * q2 + r2;
    assert q2 == 64 * q3 + r3;
    assert n / 4096 == q2 && n / 64 % 64 == r2 by {
      assert n == 4096 * q2 + (64 * r2 + r1);
    }
    assert n / 0x4_0000 == q3 && n / 4096 % 64 == r3 by {
      assert n == 0x4_0000 * q3 + (4096 * r3 + 64 * r2 + r1);
    }
  }

  /** s.encode() */
  function Encode(s: string): (bs: seq<nat>)
    ensures |bs| >= |s|
    ensures s != "" ==> bs != [] && bs[0] == Utf8(s[0])[0]
  {
    if s == "" then [] else Utf8(s[0]) + Encode(s[1..])
  }

  /** No character's encoding is a proper prefix of another's: if a's bytes start b's, a starts b. */
  lemma {:induction false} EncodePrefix(a: string, b: string)
    requires |Encode(a)| <= |Encode(b)| && Encode(b)[..|Encode(a)|] == Encode(a)
    ensures |a| <= |b| && b[..|a|] == a
  {
    if a != "" {
      var ea, eb := Encode(a), Encode(b);
      assert b != "";
      var ua, ub := Utf8(a[0]), Utf8(b[0]);
      assert ua[0] == eb[0];
      var n := |ua|;
      assert |ub| == n;
      assert ua == ea[..n] && ub == eb[..n];
      CodePointOfUtf8(a[0]);
      CodePointOfUtf8(b[0]);
      assert a[0] == b[0];
      assert Encode(a[1..]) == ea[n..] && Encode(b[1..]) == eb[n..];
      EncodePrefix(a[1..], b[1..]);
      assert a == [a[0]] + a[1..];
      assert b[..|a|] == [b[0]] + b[1..][..|a| - 1];
    }
  }

  /** Strings of equal length whose encodings agree up to the shorter one are equal. */
  lemma EqualLengthSameBytes(a: string, b: string, m: nat)
    requires |a| == |b| && m == Min(|Encode(a)|, |Encode(b)|)
    ensures Encode(a)[..m] == Encode(b)[..m] <==> a == b
  {
    if Encode(a)[..m] == Encode(b)[..m] {
      if |Encode(a)| <= |Encode(b)| {
        EncodePrefix(a, b);
      } else {
        EncodePrefix(b, a);
      }
    }
  }

  function Min(x: nat, y: nat): nat
  {
    if x <= y then x else y
  }

  // ---------------------------------------------------------------------
  // compare_secure

  /** The accumulator after the first i byte pairs: the OR of their XORs. */
  function Diff(xs: seq<nat>, ys: seq<nat>, i: nat): nat
    requires i <= |xs| && i <= |ys|
  {
    if i == 0 then 0 else Or(Diff(xs, ys, i - 1), Xor(xs[i - 1], ys[i - 1]))
  }

  /** The accumulator is zero exactly when the first i bytes agree. */
  lemma {:induction false} DiffIsZero(xs: seq<nat>, ys: seq<nat>, i: nat)
    requires i <= |xs| && i <= |ys|
    ensures Diff(xs, ys, i) == 0 <==> xs[..i] == ys[..i]
  {
    if i > 0 {
      DiffIsZero(xs, ys, i - 1);
      OrIsZero(Diff(xs, ys, i - 1), Xor(xs[i - 1], ys[i - 1]));
      XorIsZero(xs[i - 1], ys[i - 1]);
      assert xs[..i] == xs[..i - 1] + [xs[i - 1]];
      assert ys[..i] == ys[..i - 1] + [ys[i - 1]];
      if xs[..i] == ys[..i] {
        assert xs[..i - 1] == xs[..i][..i - 1];
        assert ys[..i - 1] == ys[..i][..i - 1];
      }
    }
  }

  /**
   * compare_secure: False for an empty argument or a length mismatch;
   * otherwise every byte pair up to the shorter encoding is visited and
   * the result is whether the accumulated difference is zero, which is
   * exactly string equality.
   */
  method CompareSecure(a: string, b: string) returns (r: bool)
    ensures var ea, eb := Encode(a), Encode(b);
      r == (a != "" && b != "" && |a| == |b| && Diff(ea, eb, Min(|ea|, |eb|)) == 0)
    ensures r <==> a != "" && a == b
  {
    if a == "" || b == "" {
      return false;
    }
    if |a| != |b| {
      return false;
    }
    var ea, eb := Encode(a), Encode(b);
    var n := Min(|ea|, |eb|);
    var result := 0;
    var i := 0;
    while i < n
      invariant 0 <= i <= n
      invariant result == Diff(ea, eb, i)
    {
      result := Or(result, Xor(ea[i], eb[i]));
      i := i + 1;
    }
    r := result == 0;
    DiffIsZero(ea, eb, n);
    EqualLengthSameBytes(a, b, n);
  }

  /** "é" encodes as two bytes, and its first byte already differs from that of "e". */
  lemma CompareSecureExample()
    ensures Encode("é") == [0xC3, 0xA9]
    ensures Diff(Encode("é"), Encode("e"), 1) != 0
  {
    assert Utf8('é') == [0xC3, 0xA9];
    assert Encode("e") == [0x65];
    XorIsZero(0xC3, 0x65);
    OrIsZero(0, Xor(0xC3, 0x65));
  }
}
