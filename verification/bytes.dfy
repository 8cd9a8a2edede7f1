/**
 * Bytes and fixed-width little-endian integers: the byte order the OVF
 * container uses for every 8-byte offset, whatever the host's order.
 */
module Bytes {

  type Byte = b: int | 0 <= b < 256

  /** The range of C++ `uint64_t`. */
  type U64 = n: int | 0 <= n < 0x1_0000_0000_0000_0000

  /** 256^i, the weight of byte i of a little-endian integer (a shift by 8*i bits). */
  function Pow256(i: nat): (r: nat)
    ensures r >= 1
  {
    if i == 0 then 1 else 256 * Pow256(i - 1)
  }

  /** The `width` low-order bytes of `value`, least significant first. */
  function LeBytes(value: nat, width: nat): (r: seq<Byte>)
    ensures |r| == width
  {
    if width == 0 then [] else [value % 256] + LeBytes(value / 256, width - 1)
  }

  /** The unsigned integer whose little-endian bytes are `b`. */
  function LeValue(b: seq<Byte>): (v: nat)
    ensures v < Pow256(|b|)
  {
    if b == [] then 0
    else
      var rest := LeValue(b[1..]);
      assert b[0] + 256 * rest <= 255 + 256 * (Pow256(|b| - 1) - 1);
      b[0] + 256 * rest
  }

  /** Euclidean division by a positive divisor has exactly one quotient and remainder. */
  lemma {:induction false} DivModUnique(a: int, d: int, q: int, r: int)
    requires d > 0 && 0 <= r < d && a == d * q + r
    ensures a / d == q && a % d == r
  {
    var q', r' := a / d, a % d;
    assert a == d * q' + r' && 0 <= r' < d;
    assert d * (q - q') == r' - r;
    MulAtLeast(d, q - q');
  }

  /** A non-zero multiple of a positive number is at least that number in size. */
  lemma {:induction false} MulAtLeast(d: int, k: int)
    requires d > 0
    ensures k > 0 ==> d * k >= d
    ensures k < 0 ==> d * k <= -d
    decreases if k < 0 then -k else k
  {
    if k > 1 {
      MulAtLeast(d, k - 1);
      assert d * k == d * (k - 1) + d;
    } else if k < -1 {
      MulAtLeast(d, k + 1);
      assert d * k == d * (k + 1) - d;
    }
  }

  /** Dividing by `b` and then by `c` is dividing by `b * c`. */
  lemma {:induction false} DivDiv(a: nat, b: nat, c: nat)
    requires b > 0 && c > 0
    ensures a / b / c == a / (b * c)
  {
    var v1 := a / b;
    var s := a % b;
    var q := v1 / c;
    var r := v1 % c;
    assert a == b * v1 + s;
    assert v1 == c * q + r;
    assert b * v1 == (b * c) * q + b * r;
    assert 0 <= b * r + s < b * c by {
      assert r <= c - 1;
      MulAtLeast(b, c - r);
      assert b * (c - r) == b * c - b * r;
    }
    DivModUnique(a, b * c, q, b * r + s);
  }

  /** Dividing by 256 and then by 256^i is dividing by 256^(i+1). */
  lemma {:induction false} DivPow256(value: nat, i: nat)
    ensures value / 256 / Pow256(i) == value / Pow256(i + 1)
  {
    assert Pow256(i + 1) == 256 * Pow256(i);
    DivDiv(value, 256, Pow256(i));
  }

  /**
   * Byte i of the encoding is `(value >> (8 * i)) & 0xFF`, the expression the
   * big-endian branch of the writer computes byte by byte.
   */
  lemma {:induction false} LeBytesAt(value: nat, width: nat, i: nat)
    requires i < width
    ensures LeBytes(value, width)[i] == (value / Pow256(i)) % 256
  {
    var b := LeBytes(value, width);
    if i == 0 {
      assert Pow256(0) == 1;
      assert b[0] == value % 256;
    } else {
      assert b[i] == LeBytes(value / 256, width - 1)[i - 1];
      LeBytesAt(value / 256, width - 1, i - 1);
      DivPow256(value, i - 1);
    }
  }

  /** Decoding the little-endian bytes of a value that fits gives the value back. */
  lemma {:induction false} LeRoundTrip(value: nat, width: nat)
    requires value < Pow256(width)
    ensures LeValue(LeBytes(value, width)) == value
  {
    if width > 0 {
      var b := LeBytes(value, width);
      var hi := value / 256;
      assert b[1..] == LeBytes(hi, width - 1);
      assert value == 256 * hi + value % 256;
      assert hi < Pow256(width - 1) by {
        var p := Pow256(width - 1);
        assert value < 256 * p;
        MulAtLeast(256, hi - p + 1);
      }
      LeRoundTrip(hi, width - 1);
      assert LeValue(b) == b[0] + 256 * LeValue(b[1..]);
    }
  }

  /** Every byte string is the encoding of its own value: the encoding is onto, so decoding is injective. */
  lemma {:induction false} LeValueRoundTrip(b: seq<Byte>)
    ensures LeBytes(LeValue(b), |b|) == b
  {
    if b != [] {
      var rest := LeValue(b[1..]);
      DivModUnique(LeValue(b), 256, rest, b[0]);
      LeValueRoundTrip(b[1..]);
    }
  }

  /** `d` holds the bytes `w` starting at offset `p`. */
  ghost predicate Window(d: seq<Byte>, p: nat, w: seq<Byte>) {
    p + |w| <= |d| && forall i | 0 <= i < |w| :: d[p + i] == w[i]
  }

  /** The slice of `d` a window covers is the window's contents. */
  lemma {:induction false} WindowSlice(d: seq<Byte>, p: nat, w: seq<Byte>)
    requires Window(d, p, w)
    ensures d[p..p + |w|] == w
  {
  }

  /** A window holding `a + b` holds `a` and then `b` right after it. */
  lemma {:induction false} WindowSplit(d: seq<Byte>, p: nat, a: seq<Byte>, b: seq<Byte>)
    requires Window(d, p, a + b)
    ensures Window(d, p, a) && Window(d, p + |a|, b)
  {
    assert d[p..p + |a|] == (a + b)[..|a|];
    assert d[p + |a|..p + |a| + |b|] == (a + b)[|a|..];
  }

  /** A window holding four parts in a row holds each of them, one after another. */
  lemma {:induction false} WindowSplit4(d: seq<Byte>, p: nat, a: seq<Byte>, b: seq<Byte>, c: seq<Byte>, e: seq<Byte>)
    requires Window(d, p, a + b + c + e)
    ensures Window(d, p, a) && Window(d, p + |a|, b)
    ensures Window(d, p + |a| + |b|, c) && Window(d, p + |a| + |b| + |c|, e)
  {
    WindowSplit(d, p, a + b + c, e);
    WindowSplit(d, p, a + b, c);
    WindowSplit(d, p, a, b);
  }

  /** Four parts put one after another are windows of the whole, in order. */
  lemma {:induction false} Concat4Windows(a: seq<Byte>, b: seq<Byte>, c: seq<Byte>, e: seq<Byte>)
    ensures Window(a + b + c + e, 0, a) && Window(a + b + c + e, |a|, b)
    ensures Window(a + b + c + e, |a| + |b|, c) && Window(a + b + c + e, |a| + |b| + |c|, e)
  {
  }
}
