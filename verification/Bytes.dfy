/** Bytes, byte strings and the big-endian encoding that the chunk format, the SHA-256 length
    field and the election priority all share. */
module Bytes {

  type Byte = b: int | 0 <= b < 256

  /** A `std::vector<uint8_t>` or a `std::string`: both are byte sequences in the source. */
  type Bytes = seq<Byte>

  datatype Option<+T> = None | Some(value: T)

  const U32_LIMIT: nat := 0x1_0000_0000
  const U64_LIMIT: nat := 0x1_0000_0000_0000_0000

  function Zeros(n: nat): (zs: Bytes)
    ensures |zs| == n
  {
    seq(n, _ => 0)
  }

  /** 256 to the power `n`. */
  function Pow256(n: nat): (p: nat)
    ensures p > 0
  {
    if n == 0 then 1 else 256 * Pow256(n - 1)
  }

  lemma Pow256Values()
    ensures Pow256(4) == U32_LIMIT
    ensures Pow256(8) == U64_LIMIT
  {
    assert Pow256(1) == 256;
    assert Pow256(2) == 0x1_0000;
    assert Pow256(3) == 0x100_0000;
    assert Pow256(4) == U32_LIMIT;
    assert Pow256(5) == 0x100_0000_0000;
    assert Pow256(6) == 0x1_0000_0000_0000;
    assert Pow256(7) == 0x100_0000_0000_0000;
  }

  /** The low `n` bytes of `v`, most significant byte first. */
  function BigEndian(v: nat, n: nat): (bs: Bytes)
    ensures |bs| == n
    decreases n, v
  {
    if n == 0 then [] else BigEndian(v / 256, n - 1) + [v % 256]
  }

  /** The number that a byte string denotes, most significant byte first. */
  function Value(bs: Bytes): (v: nat)
  {
    if bs == [] then 0 else 256 * Value(bs[..|bs| - 1]) + bs[|bs| - 1]
  }

  lemma {:induction false} ValueBound(bs: Bytes)
    ensures Value(bs) < Pow256(|bs|)
  {
    if bs != [] {
      ValueBound(bs[..|bs| - 1]);
    }
  }

  /** Decoding an encoded number that fits gives it back. */
  lemma {:induction false} ValueOfBigEndian(v: nat, n: nat)
    requires v < Pow256(n)
    ensures Value(BigEndian(v, n)) == v
    decreases n
  {
    if n > 0 {
      ValueOfBigEndian(v / 256, n - 1);
      var bs := BigEndian(v, n);
      assert bs[..n - 1] == BigEndian(v / 256, n - 1);
    }
  }

  /** Encoding a decoded byte string gives it back. */
  lemma {:induction false} BigEndianOfValue(bs: Bytes)
    ensures BigEndian(Value(bs), |bs|) == bs
  {
    if bs != [] {
      var front := bs[..|bs| - 1];
      BigEndianOfValue(front);
      assert Value(bs) / 256 == Value(front);
      assert bs == front + [bs[|bs| - 1]];
    }
  }

  lemma {:induction false} ValueInjective(x: Bytes, y: Bytes)
    requires |x| == |y|
    requires Value(x) == Value(y)
    ensures x == y
  {
    BigEndianOfValue(x);
    BigEndianOfValue(y);
  }

  /** Byte `k` of the encoding is the byte that a right shift by `8 * (n - 1 - k)` brings down. */
  lemma {:induction false} BigEndianAt(v: nat, n: nat, k: nat)
    requires k < n
    ensures BigEndian(v, n)[k] == v / Pow256(n - 1 - k) % 256
    decreases n
  {
    if k < n - 1 {
      BigEndianAt(v / 256, n - 1, k);
      DivDiv(v, Pow256(n - 2 - k));
    }
  }

  lemma DivDiv(v: nat, m: nat)
    requires m > 0
    ensures v / 256 / m == v / (256 * m)
  {
    var q := v / 256 / m;
    var r := v / 256 % m;
    assert v / 256 == q * m + r;
    assert v == 256 * (q * m + r) + v % 256;
    var low := 256 * r + v % 256;
    assert 0 <= low < 256 * m;
    assert v == q * (256 * m) + low;
    QuotientUnique(v, 256 * m, q, low);
  }

  lemma QuotientUnique(v: int, d: int, q: int, r: int)
    requires 0 <= r < d
    requires v == q * d + r
    ensures v / d == q && v % d == r
  {
    var q', r' := v / d, v % d;
    assert v == q' * d + r' && 0 <= r' < d;
    NoSmallMultiple(q - q', d, r' - r);
  }

  lemma NoSmallMultiple(k: int, d: int, diff: int)
    requires -d < diff < d
    requires k * d == diff
    ensures k == 0 && diff == 0
  {
    if k > 0 {
      MulAtLeast(k, d);
    } else if k < 0 {
      MulAtLeast(-k, d);
    }
  }

  lemma {:induction false} MulAtLeast(k: int, d: int)
    requires k >= 1 && d >= 1
    ensures k * d >= d
    decreases k
  {
    if k > 1 {
      MulAtLeast(k - 1, d);
      assert k * d == (k - 1) * d + d;
    }
  }

  /** `std::string` order: lexicographic on unsigned bytes. */
  predicate LessEq(a: Bytes, b: Bytes) {
    if a == [] then true
    else if b == [] then false
    else a[0] < b[0] || (a[0] == b[0] && LessEq(a[1..], b[1..]))
  }

  /** The two strings first differ at `k`, where `a` has the smaller byte. */
  ghost predicate SmallerAt(a: Bytes, b: Bytes, k: int) {
    0 <= k < |a| && k < |b| && a[..k] == b[..k] && a[k] < b[k]
  }

  /** A string is at most another exactly if it is a prefix of it or has the smaller byte at the
      first place where they differ; their lengths do not matter otherwise. */
  lemma {:induction false} LessEqIsLexicographic(a: Bytes, b: Bytes)
    ensures LessEq(a, b) <==> a <= b || exists k :: SmallerAt(a, b, k)
  {
    if a != [] && b != [] && a[0] == b[0] {
      LessEqIsLexicographic(a[1..], b[1..]);
      assert a == [a[0]] + a[1..] && b == [b[0]] + b[1..];
      forall k | SmallerAt(a[1..], b[1..], k) ensures SmallerAt(a, b, k + 1) {
        assert a[..k + 1] == [a[0]] + a[1..][..k] && b[..k + 1] == [b[0]] + b[1..][..k];
      }
      forall k | SmallerAt(a, b, k) ensures SmallerAt(a[1..], b[1..], k - 1) {
        assert a[1..][..k - 1] == a[..k][1..] && b[1..][..k - 1] == b[..k][1..];
      }
    } else if a != [] && b != [] {
      assert a[0] < b[0] ==> SmallerAt(a, b, 0);
      forall k | 0 < k <= |a| && k <= |b| ensures a[..k] != b[..k] {
        assert a[..k][0] == a[0] && b[..k][0] == b[0];
      }
    }
  }

  lemma {:induction false} LessEqTotal(a: Bytes, b: Bytes)
    ensures LessEq(a, b) || LessEq(b, a)
    ensures LessEq(a, b) && LessEq(b, a) ==> a == b
    ensures LessEq(a, a)
  {
    if a != [] {
      LessEqTotal(a[1..], a[1..]);
    }
    if a != [] && b != [] && a[0] == b[0] {
      LessEqTotal(a[1..], b[1..]);
      assert a == [a[0]] + a[1..] && b == [b[0]] + b[1..];
    }
  }

  lemma {:induction false} LessEqTransitive(a: Bytes, b: Bytes, c: Bytes)
    requires LessEq(a, b) && LessEq(b, c)
    ensures LessEq(a, c)
  {
    if a != [] && b != [] && c != [] && a[0] == b[0] == c[0] {
      LessEqTransitive(a[1..], b[1..], c[1..]);
    }
  }
}
