/** Double hashing: the probe sequence that `hash_map` walks for a key.

    A table has a power-of-two number of buckets and every step is odd, so a probe sequence visits
    every bucket exactly once.  The machine computes the index in 64-bit arithmetic that wraps, and
    the wrap never shows because the table size divides 2^64.
 */
module Probe {
  import opened Modular

  // ---------- Hashing ----------

  function Mix64(x: bv64): bv64 {
    var a := x ^ (x >> 33);
    var b := a * 0xff51afd7ed558ccd;
    var c := b ^ (b >> 33);
    var d := c * 0xc4ceb9fe1a85ec53;
    d ^ (d >> 33)
  }

  predicate Odd(x: bv64) { x as nat % 2 == 1 }

  lemma SettingBitZero(x: bv64)
    ensures Odd(x | 1)
  {
  }

  /** The probe step of a key whose hash is `hash`. */
  function Step64(hash: bv64): (step: bv64)
    ensures Odd(step)
  {
    var m := Mix64(hash ^ 0xd6e8feb86659fd93);
    SettingBitZero(m);
    m | 1
  }

  /** The two numbers a table derives from a key. */
  datatype Hashing<!K> = Hashing(start: K -> nat, step: K -> nat)

  /** All that the table relies on. */
  ghost predicate Proper<K(!new)>(h: Hashing<K>) {
    forall k :: h.start(k) < WORD && h.step(k) < WORD && h.step(k) % 2 == 1
  }

  /** The table's own hashing, on top of the caller's hash function. */
  function FromHasher<K>(hasher: K -> bv64): Hashing<K> {
    Hashing(k => hasher(k) as nat, k => Step64(hasher(k)) as nat)
  }

  /** Whatever the caller's hash function, every probe step is odd. */
  lemma HasherProper<K(!new)>(hasher: K -> bv64)
    ensures Proper(FromHasher(hasher))
  {
    forall k
      ensures FromHasher(hasher).step(k) % 2 == 1
    {
      assert Odd(Step64(hasher(k)));
    }
  }

  // ---------- Factors ----------

  ghost predicate Divides(d: nat, n: int) {
    exists q: int :: n == q * d
  }

  lemma HalveProduct(n: nat, odd: nat, q: int, p: nat)
    requires odd % 2 == 1 && n * odd == q * (2 * p)
    ensures n % 2 == 0 && n / 2 * odd == q * p
  {
    var h := odd / 2;
    assert n * odd == 2 * (n * h) + n by {
      assert n * (2 * h + 1) == 2 * (n * h) + n;
    }
    assert q * (2 * p) == 2 * (q * p);
    var m := n / 2;
    assert (2 * m) * odd == 2 * (m * odd);
  }

  /** A power of two that divides a product with an odd factor divides the other factor. */
  lemma {:induction false} OddFactor(k: nat, n: nat, odd: nat)
    requires odd % 2 == 1 && Divides(Pow2(k), n * odd)
    ensures Divides(Pow2(k), n)
  {
    if k == 0 {
      assert n == n * Pow2(0);
    } else {
      var q: int :| n * odd == q * Pow2(k);
      HalveProduct(n, odd, q, Pow2(k - 1));
      OddFactor(k - 1, n / 2, odd);
      var r: int :| n / 2 == r * Pow2(k - 1);
      assert n == r * Pow2(k) by {
        assert r * (2 * Pow2(k - 1)) == 2 * (r * Pow2(k - 1));
      }
    }
  }

  // ---------- Division ----------

  /** Quotient and remainder are unique. */
  lemma DivUnique(x: nat, q: int, r: nat, m: nat)
    requires m > 0 && x == q * m + r && r < m
    ensures x / m == q && x % m == r
  {
    var q', r' := x / m, x % m;
    assert x == q' * m + r';
    assert (q - q') * m == r' - r;
    Multiples(m, q - q');
  }

  lemma ModShift(x: nat, q: int, m: nat)
    requires m > 0 && x + q * m >= 0
    ensures (x + q * m) % m == x % m
  {
    assert (x / m + q) * m == x / m * m + q * m;
    DivUnique(x + q * m, x / m + q, x % m, m);
  }

  lemma ModMod(x: nat, m: nat, q: nat)
    requires m > 0 && q > 0
    ensures m * q > 0 && x % (m * q) % m == x % m
  {
    Multiples(q, m);
    var n := m * q;
    var d, r := x / n, x % n;
    assert x == d * n + r;
    assert d * (m * q) == (d * q) * m;
    ModShift(r, d * q, m);
  }

  lemma AddMod(b: nat, x: nat, m: nat)
    requires m > 0
    ensures (b + x) % m == (b + x % m) % m
  {
    assert x == x / m * m + x % m;
    ModShift(b + x % m, x / m, m);
  }

  lemma DifferenceDivides(x: nat, y: nat, m: nat)
    requires m > 0 && x % m == y % m
    ensures Divides(m, y - x)
  {
    assert y - x == (y / m - x / m) * m by {
      assert x == x / m * m + x % m && y == y / m * m + y % m;
    }
  }

  // ---------- The probe sequence ----------

  /** The `i`-th bucket on the path of a key, in unbounded arithmetic. */
  function Index(start: nat, step: nat, size: nat, i: nat): (b: nat)
    requires size > 0
    ensures b < size
  {
    (start % size + i * (step % size)) % size
  }

  /** The same index as the machine computes it. */
  function MachineIndex(start: nat, step: nat, size: nat, i: nat): nat
    requires size > 0
  {
    (start % size + i * (step % size) % WORD) % WORD % size
  }

  /** The wrap at 2^64 never shows. */
  lemma WrapInvisible(start: nat, step: nat, k: nat, i: nat)
    requires k <= 64
    ensures MachineIndex(start, step, Pow2(k), i) == Index(start, step, Pow2(k), i)
  {
    var q := WordSplit(k);
    Unwrap(start % Pow2(k), i * (step % Pow2(k)), Pow2(k), q);
  }

  lemma WordSplit(k: nat) returns (q: nat)
    requires k <= 64
    ensures q > 0 && Pow2(k) * q == WORD
  {
    Pow2At64();
    Pow2Add(k, 64 - k);
    q := Pow2(64 - k);
  }

  lemma Unwrap(b: nat, x: nat, size: nat, q: nat)
    requires size > 0 && q > 0
    ensures size * q > 0 && (b + x % (size * q)) % (size * q) % size == (b + x) % size
  {
    ModMod(x, size, q);
    var y := x % (size * q);
    ModMod(b + y, size, q);
    AddMod(b, y, size);
    AddMod(b, x, size);
  }

  lemma OddStaysOdd(step: nat, k: nat)
    requires step % 2 == 1 && k > 0
    ensures step % Pow2(k) % 2 == 1
  {
    ModMod(step, 2, Pow2(k - 1));
  }

  lemma Collision(b: nat, s: nat, i: nat, j: nat, size: nat)
    requires size > 0 && i < j && (b + i * s) % size == (b + j * s) % size
    ensures Divides(size, (j - i) * s)
  {
    DifferenceDivides(b + i * s, b + j * s, size);
    assert (b + j * s) - (b + i * s) == (j - i) * s;
  }

  /** Two different probes below the table size hit different buckets. */
  lemma ProbesDistinct(start: nat, step: nat, k: nat, i: nat, j: nat)
    requires step % 2 == 1 && i < j < Pow2(k)
    ensures Index(start, step, Pow2(k), i) != Index(start, step, Pow2(k), j)
  {
    var size := Pow2(k);
    var b, s := start % size, step % size;
    OddStaysOdd(step, k);
    if Index(start, step, size, i) == Index(start, step, size, j) {
      Collision(b, s, i, j, size);
      OddFactor(k, j - i, s);
      var q: int :| j - i == q * size;
      Multiples(size, q);
      assert false;
    }
  }

  /** The buckets of the first `n` probes. */
  ghost function Visited(start: nat, step: nat, size: nat, n: nat): set<nat>
    requires size > 0
  {
    set i: nat | i < n :: Index(start, step, size, i)
  }

  lemma {:induction false} VisitedSize(start: nat, step: nat, k: nat, n: nat)
    requires step % 2 == 1 && n <= Pow2(k)
    ensures |Visited(start, step, Pow2(k), n)| == n
  {
    var size := Pow2(k);
    if n > 0 {
      VisitedSize(start, step, k, n - 1);
      var last := Index(start, step, size, n - 1);
      forall i: nat | i < n - 1
        ensures Index(start, step, size, i) != last
      {
        ProbesDistinct(start, step, k, i, n - 1);
      }
      assert Visited(start, step, size, n) == Visited(start, step, size, n - 1) + {last};
    } else {
      assert Visited(start, step, size, 0) == {};
    }
  }

  ghost function Below(n: nat): (r: set<nat>)
    ensures forall i: nat :: i in r <==> i < n
    ensures |r| == n
  {
    if n == 0 then {} else Below(n - 1) + {n - 1}
  }

  lemma SameSize(a: set<nat>, b: set<nat>)
    requires a <= b && |a| == |b|
    ensures a == b
  {
    assert b == a + (b - a);
  }

  /** Every bucket is on the path of every key. */
  lemma ProbesCover(start: nat, step: nat, k: nat, b: nat) returns (i: nat)
    requires step % 2 == 1 && b < Pow2(k)
    ensures i < Pow2(k) && Index(start, step, Pow2(k), i) == b
  {
    var size := Pow2(k);
    VisitedSize(start, step, k, size);
    SameSize(Visited(start, step, size, size), Below(size));
    assert b in Below(size);
    i :| i < size && Index(start, step, size, i) == b;
  }
}
