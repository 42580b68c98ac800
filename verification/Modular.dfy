/** Remainders and powers of two, as far as cursors, addresses and probe sequences need them. */
module Modular {

  /** The values of a machine word. */
  const WORD: nat := 0x1_0000_0000_0000_0000

  // ---------- Remainders ----------

  lemma Multiples(n: int, k: int)
    requires n > 0
    ensures k >= 1 ==> n * k >= n
    ensures k <= -1 ==> n * k <= -n
  {
    assert n * k == n + n * (k - 1);
    assert n * k == -n + n * (k + 1);
  }

  /** Two numbers less than `n` apart with the same remainder are equal. */
  lemma SameRemainder(d: int, e: int, n: int)
    requires n > 0 && -n < e - d < n && d % n == e % n
    ensures d == e
  {
    var k := e / n - d / n;
    assert e - d == n * k;
    Multiples(n, k);
  }

  lemma RemainderOf(q: int, r: int, n: int)
    requires 0 <= r < n
    ensures (n * q + r) % n == r
  {
    var x := n * q + r;
    var k := q - x / n;
    assert x % n - r == n * k;
    Multiples(n, k);
  }

  // ---------- Powers of two ----------

  function Pow2(k: nat): (p: nat)
    ensures p >= 1
  {
    if k == 0 then 1 else 2 * Pow2(k - 1)
  }

  lemma {:induction false} Pow2Add(a: nat, b: nat)
    ensures Pow2(a + b) == Pow2(a) * Pow2(b)
  {
    if a > 0 { Pow2Add(a - 1, b); }
  }

  lemma Pow2At64()
    ensures Pow2(64) == WORD
  {
    assert Pow2(16) == 0x1_0000 by {
      assert Pow2(8) == 0x100;
      Pow2Add(8, 8);
    }
    Pow2Add(16, 16);
    Pow2Add(32, 32);
  }

  lemma Pow2At52()
    ensures Pow2(52) == 0x10_0000_0000_0000
  {
    assert Pow2(4) == 16 && Pow2(8) == 256;
    Pow2Add(8, 8);
    Pow2Add(16, 16);
    Pow2Add(32, 16);
    Pow2Add(48, 4);
  }
}
