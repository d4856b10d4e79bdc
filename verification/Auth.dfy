/** Token comparison whose running time does not depend on where two tokens
    first differ. */
module Auth {
  type Byte = bv8

  /** All byte differences of two equally long tokens, or-ed together. */
  function Difference(a: seq<Byte>, b: seq<Byte>): Byte
    requires |a| == |b|
  {
    if a == [] then 0 else Difference(a[..|a| - 1], b[..|b| - 1]) | (a[|a| - 1] ^ b[|b| - 1])
  }

  predicate ConstantTimeEq(a: seq<Byte>, b: seq<Byte>) {
    |a| == |b| && Difference(a, b) == 0
  }

  /** The fold without an early exit decides equality. */
  lemma {:induction false} ConstantTimeEqIsEquality(a: seq<Byte>, b: seq<Byte>)
    ensures ConstantTimeEq(a, b) <==> a == b
  {
    if |a| == |b| && a != [] {
      var a0, b0 := a[..|a| - 1], b[..|b| - 1];
      ConstantTimeEqIsEquality(a0, b0);
      assert a == a0 + [a[|a| - 1]] && b == b0 + [b[|b| - 1]];
    }
  }

  // ---- texts as bytes ----------------------------------------------------------

  /** The bytes of one character in UTF-8, section 3 of RFC 3629. */
  function Utf8Char(c: char): (r: seq<nat>)
    ensures 1 <= |r| <= 4 && forall k :: 0 <= k < |r| ==> r[k] < 256
  {
    var n := c as nat;
    if n < 0x80 then [n]
    else if n < 0x800 then [0xC0 + n / 64, 0x80 + n % 64]
    else if n < 0x1_0000 then [0xE0 + n / 4096, 0x80 + n / 64 % 64, 0x80 + n % 64]
    else [0xF0 + n / 262144, 0x80 + n / 4096 % 64, 0x80 + n / 64 % 64, 0x80 + n % 64]
  }

  function Utf8(s: string): (r: seq<nat>)
    ensures forall k :: 0 <= k < |r| ==> r[k] < 256
  {
    if s == "" then [] else Utf8Char(s[0]) + Utf8(s[1..])
  }

  function Pack(h: bool, g: bool, f: bool, e: bool, d: bool, c: bool, b: bool, a: bool): Byte {
    (if h then 0x80 else 0) | (if g then 0x40 else 0) | (if f then 0x20 else 0) | (if e then 0x10 else 0)
    | (if d then 0x08 else 0) | (if c then 0x04 else 0) | (if b then 0x02 else 0) | (if a then 0x01 else 0)
  }

  /** Halving a number this often. */
  function Half(n: nat, k: nat): nat { if k == 0 then n else Half(n / 2, k - 1) }

  predicate Bit(n: nat, k: nat) { Half(n, k) % 2 == 1 }

  /** The byte with these bits. */
  function ToByte(n: nat): Byte {
    Pack(Bit(n, 7), Bit(n, 6), Bit(n, 5), Bit(n, 4), Bit(n, 3), Bit(n, 2), Bit(n, 1), Bit(n, 0))
  }

  function Bytes(s: string): seq<Byte> {
    var u := Utf8(s);
    seq(|u|, k requires 0 <= k < |u| => ToByte(u[k]))
  }

  /** The comparison of two texts, on their bytes. */
  predicate ConstantTimeEqText(a: string, b: string) { ConstantTimeEq(Bytes(a), Bytes(b)) }

  /** The code point can be read off the bytes. */
  lemma CharFromBytes(c: char)
    ensures var r := Utf8Char(c);
            c as nat == match |r|
                        case 1 => r[0]
                        case 2 => 64 * (r[0] - 0xC0) + (r[1] - 0x80)
                        case 3 => 4096 * (r[0] - 0xE0) + 64 * (r[1] - 0x80) + (r[2] - 0x80)
                        case _ => 262144 * (r[0] - 0xF0) + 4096 * (r[1] - 0x80) + 64 * (r[2] - 0x80) + (r[3] - 0x80)
  {
    var n := c as nat;
    assert n / 64 == 64 * (n / 4096) + n / 64 % 64 by { DivDiv(n / 64, n, 64); }
    assert n / 4096 == 64 * (n / 262144) + n / 4096 % 64 by { DivDiv(n / 4096, n, 4096); }
  }

  lemma DivDiv(m: nat, n: nat, unit: nat)
    requires unit in {64, 4096} && m == n / unit
    ensures m / 64 == n / (unit * 64)
  {
  }

  lemma FirstChar(c: char, d: char, x: seq<nat>, y: seq<nat>)
    requires Utf8Char(c) + x == Utf8Char(d) + y
    ensures c == d && x == y
  {
    var a, b := Utf8Char(c), Utf8Char(d);
    assert (a + x)[0] == a[0] && (b + y)[0] == b[0];
    assert a == (a + x)[..|a|] == (b + y)[..|b|] == b;
    assert x == (a + x)[|a|..] == (b + y)[|b|..] == y;
    CharFromBytes(c);
    CharFromBytes(d);
  }

  lemma {:induction false} Utf8Injective(a: string, b: string)
    requires Utf8(a) == Utf8(b)
    ensures a == b
  {
    if a != "" && b != "" {
      FirstChar(a[0], b[0], Utf8(a[1..]), Utf8(b[1..]));
      Utf8Injective(a[1..], b[1..]);
      assert a == [a[0]] + a[1..] && b == [b[0]] + b[1..];
    }
  }

  function Power2(k: nat): nat { if k == 0 then 1 else 2 * Power2(k - 1) }

  /** A number is determined by its bits. */
  lemma {:induction false} SameBits(n: nat, m: nat, k: nat)
    requires n < Power2(k) && m < Power2(k) && forall j: nat :: j < k ==> (Bit(n, j) <==> Bit(m, j))
    ensures n == m
    decreases k
  {
    if k > 0 {
      assert Half(n, 0) == n && Half(m, 0) == m && (Bit(n, 0) <==> Bit(m, 0));
      forall j: nat | j < k - 1 ensures Bit(n / 2, j) <==> Bit(m / 2, j) {
        assert Half(n, j + 1) == Half(n / 2, j) && Half(m, j + 1) == Half(m / 2, j);
        assert Bit(n, j + 1) <==> Bit(m, j + 1);
      }
      SameBits(n / 2, m / 2, k - 1);
    }
  }

  lemma SameByte(n: nat, m: nat)
    requires n < 256 && m < 256 && ToByte(n) == ToByte(m)
    ensures n == m
  {
    forall j: nat | j < 8 ensures Bit(n, j) <==> Bit(m, j) {
      assert j == 0 || j == 1 || j == 2 || j == 3 || j == 4 || j == 5 || j == 6 || j == 7;
    }
    SameBits(n, m, 8);
  }

  /** So comparing two texts byte by byte without an early exit decides whether
      they are the same text. */
  lemma TextEqIsEquality(a: string, b: string)
    ensures ConstantTimeEqText(a, b) <==> a == b
  {
    ConstantTimeEqIsEquality(Bytes(a), Bytes(b));
    if Bytes(a) == Bytes(b) {
      var u, v := Utf8(a), Utf8(b);
      assert |u| == |Bytes(a)| == |Bytes(b)| == |v|;
      forall k | 0 <= k < |u| ensures u[k] == v[k] {
        assert Bytes(a)[k] == Bytes(b)[k];
        SameByte(u[k], v[k]);
      }
      Utf8Injective(a, b);
    }
  }
}
