/** Shared vocabulary: optional values, the machine-integer operations the sources use, and
    sums over finite maps. */
module Prelude {

  datatype Option<+T> = None | Some(value: T)

  const U64_MAX: nat := 0xFFFF_FFFF_FFFF_FFFF
  const U64_SPAN: nat := 0x1_0000_0000_0000_0000
  const U128_MAX: nat := 0xFFFF_FFFF_FFFF_FFFF_FFFF_FFFF_FFFF_FFFF

  const U128_SPAN: nat := 0x1_0000_0000_0000_0000_0000_0000_0000_0000

  type u128 = n: nat | n <= U128_MAX

  /** Plain `+` on u128 in a build without overflow checks. */
  function WrapAdd(a: u128, b: u128): u128 {
    if a + b <= U128_MAX then a + b else a + b - U128_SPAN
  }

  function Min(a: int, b: int): int {
    if a <= b then a else b
  }

  /** Rust's unsigned `saturating_sub`. */
  function SatSub(a: nat, b: nat): nat {
    if a >= b then a - b else 0
  }

  /** Rust's `saturating_add`, for the type whose largest value is `max`. */
  function SatAdd(a: nat, b: nat, max: nat): nat {
    if a + b <= max then a + b else max
  }

  /** Rust's `saturating_mul`, for the type whose largest value is `max`. */
  function SatMul(a: nat, b: nat, max: nat): nat {
    if a * b <= max then a * b else max
  }

  /** `map.get(k).unwrap_or(0)`. */
  function Get<K>(m: map<K, nat>, k: K): nat {
    if k in m then m[k] else 0
  }

  /** Sum of all values of a finite map. */
  ghost function Total<K>(m: map<K, int>): int {
    if m == map[] then 0
    else
      var k :| k in m;
      m[k] + Total(m - {k})
  }

  lemma {:induction false} TotalRemove<K>(m: map<K, int>, k: K)
    requires k in m
    ensures Total(m) == m[k] + Total(m - {k})
    decreases |m|
  {
    var p :| p in m && Total(m) == m[p] + Total(m - {p});
    if p != k {
      TotalRemove(m - {p}, k);
      TotalRemove(m - {k}, p);
      assert m - {p} - {k} == m - {k} - {p};
    }
  }

  lemma TotalUpdate<K>(m: map<K, int>, k: K, v: int)
    ensures Total(m[k := v]) == Total(m) - (if k in m then m[k] else 0) + v
  {
    TotalRemove(m[k := v], k);
    if k in m {
      TotalRemove(m, k);
      assert m[k := v] - {k} == m - {k};
    } else {
      assert m[k := v] - {k} == m;
    }
  }

  /** No entry of a map of non-negative numbers exceeds its sum. */
  lemma {:induction false} TotalBounds<K>(m: map<K, nat>, k: K)
    ensures 0 <= Get(m, k) <= Total(m)
    decreases |m|
  {
    if m != map[] {
      var p :| p in m && Total(m) == m[p] + Total(m - {p});
      TotalBounds(m - {p}, k);
    }
  }

  /** The quotient and remainder facts that Euclidean division hides behind `/`. */
  lemma DivBounds(a: nat, b: nat)
    requires b > 0
    ensures a / b * b <= a < a / b * b + b
    ensures (a / b + 1) * b == a / b * b + b
  {
  }

  /** `a / b` is the largest quotient: anything whose product fits is at most it. */
  lemma DivLargest(a: nat, b: nat, q: nat)
    requires b > 0
    ensures q * b <= a <==> q <= a / b
  {
    DivBounds(a, b);
    if q <= a / b {
      MulMono(q, a / b, b);
    } else {
      MulMono(a / b + 1, q, b);
    }
  }

  lemma MulMono(a: nat, b: nat, c: nat)
    requires a <= b
    ensures a * c <= b * c
  {
  }
}
