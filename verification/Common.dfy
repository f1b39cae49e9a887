/** What several models use. */
module Common {
  datatype Opt<+T> = None | Some(v: T)

  type Byte = b: nat | b < 256

  lemma {:induction false} SubSlice<T>(s: seq<T>, a: nat, b: nat, i: nat, j: nat)
    requires a <= b <= |s| && i <= j <= b - a
    ensures s[a..b][i..j] == s[a + i..a + j]
  {
    forall k | 0 <= k < j - i ensures s[a..b][i..j][k] == s[a + i..a + j][k] {
      assert s[a..b][i..j][k] == s[a..b][i + k] == s[a + i + k];
    }
  }

  lemma {:induction false} MulSpread(m: nat, x: int)
    requires m > 0
    ensures x >= 1 ==> m * x >= m
    ensures x <= -1 ==> m * x <= 0 - m
  {
    if x >= 1 {
      assert m * x == m * (x - 1) + m;
    } else if x <= -1 {
      assert m * x == m * (x + 1) - m;
    }
  }

  /** Quotient and remainder are determined. */
  lemma {:induction false} DivUnique(v: nat, m: nat, a: nat, r: nat)
    requires m > 0 && v == m * a + r && r < m
    ensures v / m == a && v % m == r
  {
    var q := v / m;
    MulSpread(m, q - a);
    assert m * (q - a) == m * q - m * a;
  }

  lemma {:induction false} SameQuotient(m: nat, v: nat, x: nat)
    requires m > 0 && v <= x < v - v % m + m
    ensures x / m == v / m && x % m == v % m + (x - v)
  {
    var q, r := v / m, v % m;
    assert v == m * q + r;
    DivUnique(x, m, q, r + (x - v));
  }
}
