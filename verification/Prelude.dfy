/** Types and arithmetic shared by every part of the model: the machine integers
    of the contract, optional values, and sums over ledgers keyed by address. */
module Prelude {

  datatype Option<+T> = None | Some(value: T)

  const U64_MAX: int := 0xFFFF_FFFF_FFFF_FFFF
  const I128_MAX: int := 0x7FFF_FFFF_FFFF_FFFF_FFFF_FFFF_FFFF_FFFF

  type byte = n: int | 0 <= n < 256
  type u64 = n: int | 0 <= n <= U64_MAX
  type i128 = n: int | -I128_MAX - 1 <= n <= I128_MAX

  function Max(a: int, b: int): int {
    if a < b then b else a
  }

  function Init<T>(s: seq<T>): seq<T>
    requires s != []
  {
    s[..|s| - 1]
  }

  function Last<T>(s: seq<T>): T
    requires s != []
  {
    s[|s| - 1]
  }

  /** The total of a ledger. */
  ghost function Sum<K>(m: map<K, int>): int
    decreases |m|
  {
    if m == map[] then 0
    else
      var k :| k in m;
      m[k] + Sum(m - {k})
  }

  /** The total does not depend on which entry is taken out first. */
  lemma {:induction false} SumTakeOut<K>(m: map<K, int>, k: K)
    requires k in m
    ensures Sum(m) == m[k] + Sum(m - {k})
    decreases |m|
  {
    var c :| c in m && Sum(m) == m[c] + Sum(m - {c});
    if c != k {
      SumTakeOut(m - {c}, k);
      SumTakeOut(m - {k}, c);
      assert m - {c} - {k} == m - {k} - {c};
    }
  }

  function Get<K>(m: map<K, int>, k: K): int {
    if k in m then m[k] else 0
  }

  /** Writing one entry moves the total by exactly the change of that entry. */
  lemma SumUpdate<K>(m: map<K, int>, k: K, v: int)
    ensures Sum(m[k := v]) == Sum(m) - Get(m, k) + v
  {
    var m' := m[k := v];
    SumTakeOut(m', k);
    assert m' - {k} == m - {k};
    if k in m {
      SumTakeOut(m, k);
    } else {
      assert m - {k} == m;
    }
  }

  ghost predicate NonNegative<K>(m: map<K, int>) {
    forall k :: k in m ==> 0 <= m[k]
  }

  lemma {:induction false} SumNonNegative<K>(m: map<K, int>)
    requires NonNegative(m)
    ensures 0 <= Sum(m)
    decreases |m|
  {
    if m != map[] {
      var c :| c in m && Sum(m) == m[c] + Sum(m - {c});
      SumNonNegative(m - {c});
    }
  }

  /** No entry of a non-negative ledger exceeds the total. */
  lemma SumBounds<K>(m: map<K, int>, k: K)
    requires NonNegative(m)
    ensures 0 <= Get(m, k) <= Sum(m)
  {
    SumNonNegative(m);
    if k in m {
      SumTakeOut(m, k);
      SumNonNegative(m - {k});
    }
  }

  /** Two different entries together do not exceed the total either. */
  lemma SumBoundsTwo<K>(m: map<K, int>, a: K, b: K)
    requires NonNegative(m) && a != b
    ensures Get(m, a) + Get(m, b) <= Sum(m)
  {
    SumBounds(m, a);
    SumBounds(m, b);
    if a in m {
      SumTakeOut(m, a);
      SumBounds(m - {a}, b);
    }
  }
}
