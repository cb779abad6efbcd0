/** Machine integers of the engine, with its saturating operations, and stock helpers. */
module Base {
  const U64_MAX: nat := 0xFFFF_FFFF_FFFF_FFFF
  const U32_RANGE: nat := 0x1_0000_0000

  type u64 = n: int | 0 <= n <= U64_MAX
  type pos64 = n: int | 1 <= n <= U64_MAX witness 1
  type u32 = n: int | 0 <= n < U32_RANGE

  type Id = string

  datatype Option<+T> = None | Some(value: T)

  function SatAdd(a: u64, b: u64): u64 {
    if a + b > U64_MAX then U64_MAX else a + b
  }

  function SatSub(a: u64, b: u64): u64 {
    if a < b then 0 else a - b
  }

  function Min(a: int, b: int): int {
    if a < b then a else b
  }

  function Max(a: int, b: int): int {
    if a < b then b else a
  }

  /** `map.get(k).copied().unwrap_or(0)` */
  function Get<K>(m: map<K, u64>, k: K): u64 {
    if k in m then m[k] else 0
  }

  /** Quotient and remainder are determined. */
  lemma Quotient(n: nat, q: nat, r: nat, c: nat)
    requires r < c && n == q * c + r
    ensures n / c == q && n % c == r
  {
    var d := n / c - q;
    assert n == (n / c) * c + n % c;
    assert d * c == r - n % c;
  }

  /** The first i + 1 members are the first i and one more. */
  lemma Prefix<T>(xs: seq<T>, i: nat)
    requires i < |xs|
    ensures xs[..i + 1][..i] == xs[..i] && xs[..i + 1][i] == xs[i] && xs[..i + 1] != [] && |xs[..i + 1]| == i + 1
  {
  }

  lemma WholePrefix<T>(xs: seq<T>)
    ensures xs[..|xs|] == xs
  {
  }

  // ---- Bounded queues ----

  function Last<T>(s: seq<T>, k: nat): seq<T> { if |s| <= k then s else s[|s| - k..] }

  /** A bounded queue after one more arrival. */
  function Shifted<T>(q: seq<T>, k: nat, x: T): seq<T> {
    (if |q| >= k && q != [] then q[1..] else q) + [x]
  }

  lemma LastGrows<T>(s: seq<T>, k: nat, x: T)
    requires k >= 1
    ensures Last(s + [x], k) == Shifted(Last(s, k), k, x)
  {
  }

  lemma LastBounded<T>(s: seq<T>, k: nat)
    ensures |Last(s, k)| <= k
  {
  }
}
