/** Count-indexed cycling through a lookup table, the policy every shape
    type uses to pick its colour (and POIs their fallback icon). */
module Palette {

  function Cycle<T>(table: seq<T>, i: nat): (r: T)
    requires |table| > 0
    ensures r in table
    ensures i < |table| ==> r == table[i]
  {
    table[i % |table|]
  }

  /** The choice repeats with the table's length as its period. */
  lemma {:induction false} CyclePeriodic<T>(table: seq<T>, i: nat, k: nat)
    requires |table| > 0
    ensures Cycle(table, i + k * |table|) == Cycle(table, i)
  {
    if k > 0 {
      CyclePeriodic(table, i, k - 1);
      var n := |table|;
      assert i + k * n == (i + (k - 1) * n) + n;
      ModShift(i + (k - 1) * n, n);
    }
  }

  lemma ModShift(a: nat, n: nat)
    requires n > 0
    ensures (a + n) % n == a % n
  {
    var q, r := a / n, a % n;
    assert a == q * n + r;
    assert a + n == (q + 1) * n + r;
    DivModUnique(a + n, n, q + 1, r);
  }

  lemma DivModUnique(a: int, n: int, q: int, r: int)
    requires n > 0 && 0 <= r < n && a == q * n + r
    ensures a % n == r
  {
    var q', r' := a / n, a % n;
    assert (q - q') * n == r' - r;
    if q - q' >= 1 {
      assert false;
    } else if q - q' <= -1 {
      assert false;
    }
  }
}
