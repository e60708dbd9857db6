/** Byte strings: the fixed-width little-endian lengths that frame every message, and the
    lexicographic order that `Vec<u8>` derives and that orders the two parties of a relation. */
module Bytes {

  type Byte = b: int | 0 <= b < 256
  type Blob = seq<Byte>

  const U32_BYTES := 4
  const U64_BYTES := 8
  const U32_RANGE := 0x1_0000_0000
  const U64_RANGE := 0x1_0000_0000_0000_0000

  function Pow256(width: nat): (p: nat)
    ensures p >= 1
  {
    if width == 0 then 1 else 256 * Pow256(width - 1)
  }

  function ToLittleEndian(n: nat, width: nat): (r: Blob)
    ensures |r| == width
    decreases width
  {
    if width == 0 then [] else [n % 256] + ToLittleEndian(n / 256, width - 1)
  }

  function FromLittleEndian(b: Blob): nat {
    if b == [] then 0 else b[0] + 256 * FromLittleEndian(b[1..])
  }

  lemma {:induction false} LittleEndianRoundTrip(n: nat, width: nat)
    requires n < Pow256(width)
    ensures FromLittleEndian(ToLittleEndian(n, width)) == n
    decreases width
  {
    if width > 0 {
      LittleEndianRoundTrip(n / 256, width - 1);
      assert ToLittleEndian(n, width)[1..] == ToLittleEndian(n / 256, width - 1);
    }
  }

  /** Byte `i` of a fixed-width length is its `i`-th digit to the base 256, the lowest first. */
  lemma {:induction false} LittleEndianDigits(n: nat, width: nat, i: nat)
    requires i < width
    ensures ToLittleEndian(n, width)[i] == (n / Pow256(i)) % 256
    decreases i
  {
    if i > 0 {
      LittleEndianDigits(n / 256, width - 1, i - 1);
      DivideTwice(n, Pow256(i - 1));
    }
  }

  lemma DivideTwice(n: nat, p: nat)
    requires p >= 1
    ensures n / 256 / p == n / (256 * p)
  {
    var q, r := n / (256 * p), n % (256 * p);
    var high, low := r / 256, r % 256;
    assert n == 256 * (p * q + high) + low;
    DivideExact(n, 256, p * q + high, low);
    DivideExact(n / 256, p, q, high);
  }

  lemma DivideExact(m: nat, p: nat, q: nat, r: nat)
    requires p >= 1 && r < p && m == p * q + r
    ensures m / p == q
  {
    var d := m / p - q;
    assert p * d == r - m % p;
    Multiple(p, d);
  }

  lemma Multiple(p: int, d: int)
    requires p >= 1
    ensures d > 0 ==> p * d >= p
    ensures d < 0 ==> p * d <= -p
  {
  }

  lemma WidthRanges()
    ensures Pow256(U32_BYTES) == U32_RANGE
    ensures Pow256(U64_BYTES) == U64_RANGE
  {
    assert Pow256(2) == 65536;
    assert Pow256(4) == 256 * Pow256(3) == 65536 * Pow256(2);
    assert Pow256(6) == 256 * Pow256(5) == 65536 * Pow256(4);
    assert Pow256(8) == 256 * Pow256(7) == 65536 * Pow256(6);
  }

  /** Lexicographic `<` on byte vectors, a proper prefix being smaller. */
  predicate Less(a: Blob, b: Blob) {
    b != [] && (a == [] || a[0] < b[0] || (a[0] == b[0] && Less(a[1..], b[1..])))
  }

  /** The vectors differ first at index `k`, where the first has the smaller byte. */
  predicate SmallerAt(a: Blob, b: Blob, k: nat) {
    k < |a| && k < |b| && a[..k] == b[..k] && a[k] < b[k]
  }

  /** It is the lexicographic order. */
  lemma {:induction false} LessExactly(a: Blob, b: Blob)
    ensures Less(a, b) <==> (a <= b && a != b) || exists k: nat :: SmallerAt(a, b, k)
  {
    if a != [] && b != [] {
      var s, t := a[1..], b[1..];
      LessExactly(s, t);
      assert a == [a[0]] + s && b == [b[0]] + t;
      if a[0] == b[0] {
        forall k: nat ensures SmallerAt(a, b, k) <==> k > 0 && SmallerAt(s, t, k - 1) {
          if 0 < k <= |a| && k <= |b| { assert a[..k] == [a[0]] + s[..k - 1] && b[..k] == [b[0]] + t[..k - 1]; }
        }
        if exists k: nat :: SmallerAt(s, t, k) {
          var k: nat :| SmallerAt(s, t, k);
          assert SmallerAt(a, b, k + 1);
        }
      } else {
        forall k: nat | k > 0 ensures !SmallerAt(a, b, k) {
          if k <= |a| && k <= |b| { assert a[..k][0] == a[0] && b[..k][0] == b[0]; }
        }
        if a[0] < b[0] { assert SmallerAt(a, b, 0); }
      }
    }
  }

  /** Exactly one of a < b, a = b, b < a. */
  lemma {:induction false} Trichotomy(a: Blob, b: Blob)
    ensures Less(a, b) || a == b || Less(b, a)
    ensures !(Less(a, b) && Less(b, a))
    ensures a == b ==> !Less(a, b)
  {
    if a != [] && b != [] && a[0] == b[0] {
      Trichotomy(a[1..], b[1..]);
      assert a == [a[0]] + a[1..] && b == [b[0]] + b[1..];
    }
  }
}
