/** The election priority of a node id (src/coordinator/coordinator_service.cpp, node_priority):
    its bytes folded into a 64-bit number that wraps. */
module Priorities {
  import opened Bytes

  /** The bytes that the wrapping leaves. */
  function LastEight(id: Bytes): (tail: Bytes)
    ensures |tail| <= 8
  {
    if |id| <= 8 then id else id[|id| - 8..]
  }

  function Priority(id: Bytes): nat {
    Value(LastEight(id))
  }

  // ---- The loop ----

  lemma {:induction false} ValueConcat(a: Bytes, b: Bytes)
    ensures Value(a + b) == Value(a) * Pow256(|b|) + Value(b)
  {
    if b == [] {
      assert a + b == a;
    } else {
      var front := b[..|b| - 1];
      assert (a + b)[..|a + b| - 1] == a + front;
      ValueConcat(a, front);
      Scale(Value(a), Pow256(|front|));
    }
  }

  lemma Scale(v: nat, p: nat)
    ensures 256 * (v * p) == v * (256 * p)
  {
  }

  /** Only the last eight bytes survive the wrapping. */
  lemma WrappedValue(id: Bytes)
    ensures Value(id) % U64_LIMIT == Priority(id)
  {
    var tail := LastEight(id);
    Pow256Values();
    ValueBound(tail);
    if |id| > 8 {
      var head := id[..|id| - 8];
      assert id == head + tail;
      ValueConcat(head, tail);
      QuotientUnique(Value(id), U64_LIMIT, Value(head), Value(tail));
    } else {
      PowMonotone(|id|, 8);
    }
  }

  lemma {:induction false} PowMonotone(a: nat, b: nat)
    requires a <= b
    ensures Pow256(a) <= Pow256(b)
  {
    if a < b {
      PowMonotone(a, b - 1);
    }
  }

  method NodePriority(id: Bytes) returns (priority: nat)
    ensures priority == Priority(id) && priority < U64_LIMIT
  {
    priority := 0;
    for i := 0 to |id|
      invariant priority == Value(id[..i]) % U64_LIMIT
    {
      assert id[..i + 1][..i] == id[..i];
      WrapStep(Value(id[..i]), id[i]);
      priority := (priority * 256 + id[i]) % U64_LIMIT;
    }
    assert id[..|id|] == id;
    WrappedValue(id);
  }

  lemma WrapStep(v: nat, c: Byte)
    ensures (v % U64_LIMIT * 256 + c) % U64_LIMIT == (256 * v + c) % U64_LIMIT
  {
    var q, r := v / U64_LIMIT, v % U64_LIMIT;
    var low: int := r * 256 + c;
    assert 256 * v + c == (256 * q) * U64_LIMIT + low;
    QuotientUnique(256 * v + c, U64_LIMIT, 256 * q + low / U64_LIMIT, low % U64_LIMIT);
  }

  // ---- Order ----

  lemma ValueHead(x: Bytes)
    requires x != []
    ensures Value(x) == x[0] * Pow256(|x| - 1) + Value(x[1..])
    ensures Value(x[1..]) < Pow256(|x| - 1)
  {
    assert x == [x[0]] + x[1..];
    ValueConcat([x[0]], x[1..]);
    assert Value([x[0]]) == x[0] by { assert [x[0]][..0] == []; }
    ValueBound(x[1..]);
  }

  /** Among byte strings of one length, numeric order is lexicographic order. */
  lemma {:induction false} OrderIsLexicographic(x: Bytes, y: Bytes)
    requires |x| == |y|
    ensures Value(x) <= Value(y) <==> LessEq(x, y)
  {
    if x != [] {
      ValueHead(x);
      ValueHead(y);
      OrderIsLexicographic(x[1..], y[1..]);
      var p := Pow256(|x| - 1);
      if x[0] < y[0] {
        LeadingDigit(x[0], y[0], p);
      } else if y[0] < x[0] {
        LeadingDigit(y[0], x[0], p);
      }
    }
  }

  lemma LeadingDigit(a: int, b: int, p: nat)
    requires a < b
    ensures a * p + p <= b * p
  {
    assert b * p == a * p + (b - a) * p;
    if p > 0 {
      MulAtLeast(b - a, p);
    }
  }

  lemma {:induction false} CommonPrefix(p: Bytes, x: Bytes, y: Bytes)
    ensures LessEq(p + x, p + y) <==> LessEq(x, y)
  {
    if p == [] {
      assert p + x == x && p + y == y;
    } else {
      CommonPrefix(p[1..], x, y);
      assert (p + x)[1..] == p[1..] + x && (p + y)[1..] == p[1..] + y;
    }
  }

  /** Ids of one length that agree before their last eight bytes are ordered lexicographically. */
  lemma PriorityIsLexicographic(a: Bytes, b: Bytes)
    requires |a| == |b|
    requires |a| > 8 ==> a[..|a| - 8] == b[..|b| - 8]
    ensures Priority(a) <= Priority(b) <==> LessEq(a, b)
    ensures Priority(a) == Priority(b) <==> a == b
  {
    var x, y := LastEight(a), LastEight(b);
    OrderIsLexicographic(x, y);
    if |a| > 8 {
      assert a == a[..|a| - 8] + x && b == b[..|b| - 8] + y;
      CommonPrefix(a[..|a| - 8], x, y);
    }
    if Priority(a) == Priority(b) {
      ValueInjective(x, y);
    }
  }

  // ---- Ties ----

  /** The last eight bytes, filled up with zeros in front. */
  function Padded(id: Bytes): (bs: Bytes)
    ensures |bs| == 8
  {
    Zeros(8 - |LastEight(id)|) + LastEight(id)
  }

  lemma {:induction false} ValueOfZeros(n: nat)
    ensures Value(Zeros(n)) == 0
  {
    if n > 0 {
      ValueOfZeros(n - 1);
      assert Zeros(n)[..n - 1] == Zeros(n - 1);
    }
  }

  lemma PriorityOfPadded(id: Bytes)
    ensures Value(Padded(id)) == Priority(id)
  {
    var tail := LastEight(id);
    ValueConcat(Zeros(8 - |tail|), tail);
    ValueOfZeros(8 - |tail|);
  }

  /** Two ids tie exactly when their zero-padded last eight bytes agree. */
  lemma TieIffSamePadded(a: Bytes, b: Bytes)
    ensures Priority(a) == Priority(b) <==> Padded(a) == Padded(b)
  {
    PriorityOfPadded(a);
    PriorityOfPadded(b);
    if Priority(a) == Priority(b) {
      ValueInjective(Padded(a), Padded(b));
    }
  }
}
