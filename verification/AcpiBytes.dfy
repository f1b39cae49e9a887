/** Bytes of the ACPI tables: little-endian fields and sums. */
module AcpiBytes {
  import opened Common

  function Pow256(n: nat): (r: nat)
    ensures r > 0
  {
    if n == 0 then 1 else 256 * Pow256(n - 1)
  }

  /** `basl_le_enc`: the n low bytes of a value, lowest first. */
  function Enc(v: nat, n: nat): (r: seq<Byte>)
    ensures |r| == n
  {
    if n == 0 then [] else [v % 256] + Enc(v / 256, n - 1)
  }

  /** `basl_le_dec`. */
  function Dec(bs: seq<Byte>): nat {
    if bs == [] then 0 else bs[0] + 256 * Dec(bs[1..])
  }

  lemma {:induction false} SplitMod(v: nat, m: nat)
    requires m > 0
    ensures v % (256 * m) == v % 256 + 256 * (v / 256 % m)
  {
    var q, r := v / 256, v % 256;
    var a, b := q / m, q % m;
    assert v == 256 * q + r && q == m * a + b;
    assert v == (256 * m) * a + (256 * b + r) by {
      assert 256 * (m * a) == (256 * m) * a;
    }
    DivUnique(v, 256 * m, a, 256 * b + r);
  }

  /** Encoding keeps the value up to the field's width. */
  lemma {:induction false} RoundTrip(v: nat, n: nat)
    ensures Dec(Enc(v, n)) == v % Pow256(n)
  {
    if n > 0 {
      RoundTrip(v / 256, n - 1);
      SplitMod(v, Pow256(n - 1));
    }
  }

  lemma {:induction false} SmallMod(v: nat, m: nat)
    requires v < m
    ensures v % m == v
  {
    DivUnique(v, m, 0, v);
  }

  /** A value that fits comes back unchanged. */
  lemma {:induction false} FitsBack(v: nat, n: nat)
    requires v < Pow256(n)
    ensures Dec(Enc(v, n)) == v
  {
    RoundTrip(v, n);
    SmallMod(v, Pow256(n));
  }

  predicate Blank(bs: seq<Byte>) { forall i :: 0 <= i < |bs| ==> bs[i] == 0 }

  lemma {:induction false} DecBlank(bs: seq<Byte>)
    requires Blank(bs)
    ensures Dec(bs) == 0
  {
    if bs != [] {
      DecBlank(bs[1..]);
    }
  }

  function Sum(bs: seq<Byte>): nat {
    if bs == [] then 0 else Sum(bs[..|bs| - 1]) + bs[|bs| - 1]
  }

  lemma {:induction false} SumUpdate(bs: seq<Byte>, i: nat, b: Byte)
    requires i < |bs|
    ensures Sum(bs[i := b]) == Sum(bs) - bs[i] + b
  {
    var n := |bs| - 1;
    if i == n {
      assert bs[i := b][..n] == bs[..n];
    } else {
      assert bs[i := b][..n] == bs[..n][i := b];
      SumUpdate(bs[..n], i, b);
    }
  }

  /** Replace the bytes at `off`. */
  function Put(bs: seq<Byte>, off: nat, field: seq<Byte>): (r: seq<Byte>)
    requires off + |field| <= |bs|
    ensures |r| == |bs|
  {
    seq(|bs|, x requires 0 <= x < |bs| => if off <= x < off + |field| then field[x - off] else bs[x])
  }

  /** Byte i of an encoded value holds its bits 8 i to 8 i + 7: the lowest come first. */
  lemma {:induction false} LowestFirst(v: nat, n: nat, i: nat)
    requires i < n
    ensures Enc(v, n)[i] == v / Pow256(i) % 256
  {
    if i > 0 {
      LowestFirst(v / 256, n - 1, i - 1);
      DivTwice(v, 256, Pow256(i - 1));
    }
  }

  lemma {:induction false} DivTwice(v: nat, a: nat, b: nat)
    requires a > 0 && b > 0
    ensures v / a / b == v / (a * b)
  {
    var q, r := v / a, v % a;
    var p, s := q / b, q % b;
    Regroup(a, b, p, s, r);
    DivUnique(v, a * b, p, a * s + r);
  }

  lemma {:induction false} Regroup(a: nat, b: nat, p: nat, s: nat, r: nat)
    requires a > 0 && s < b && r < a
    ensures a * (b * p + s) + r == (a * b) * p + (a * s + r) && a * b > 0 && a * s + r < a * b
  {
    assert a * (b * p) == (a * b) * p;
    MulSpread(a, b - s);
    assert a * (b - s) == a * b - a * s;
  }
}
