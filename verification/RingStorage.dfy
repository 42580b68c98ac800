/** Where the ring queue keeps its slots.

    Values and slot states are spread over cache lines: neighbouring indices go to different packs.
    One function describes both mappings: `index % packs` names the pack, `index / packs` the place in
    it, with enough packs for all indices.
 */
module RingStorage {
  import opened Modular

  const CACHE_LINE: nat := 64

  /** How many values of a size fit in a cache line; a value that does not fit has a pack of its own. */
  function PackCap(bytes: nat): (c: nat)
    requires bytes > 0
    ensures c >= 1 && (c * bytes <= CACHE_LINE || c == 1)
  {
    var fit := CACHE_LINE / bytes;
    FitsBelow(CACHE_LINE, bytes);
    if fit != 0 then fit else 1
  }

  lemma FitsBelow(x: nat, n: nat)
    requires n > 0
    ensures x / n * n <= x
  {
    assert x == n * (x / n) + x % n;
  }

  /** The number of packs for `size` indices. */
  function Packs(size: nat, cap: nat): nat
    requires cap > 0
  {
    (size + cap - 1) / cap
  }

  datatype Cell = Cell(pack: nat, slot: nat)

  function At(index: nat, packs: nat): Cell
    requires packs > 0
  {
    Cell(index % packs, index / packs)
  }

  /** Which index lives in a cell. */
  function IndexOf(c: Cell, packs: nat): nat {
    c.slot * packs + c.pack
  }

  lemma PacksSuffice(size: nat, cap: nat)
    requires size > 0 && cap > 0
    ensures Packs(size, cap) > 0 && size <= Packs(size, cap) * cap
  {
    var p := Packs(size, cap);
    var x := size + cap - 1;
    assert x == cap * p + x % cap;
    assert p * cap == cap * p;
    Multiples(cap, p);
  }

  /** Every index below `size` has a cell within bounds, and the cell tells the index back: so different
      indices never share a cell. */
  lemma CellInBounds(index: nat, size: nat, cap: nat)
    requires index < size && cap > 0
    ensures var packs := Packs(size, cap);
            && packs > 0 && At(index, packs).pack < packs && At(index, packs).slot < cap
            && IndexOf(At(index, packs), packs) == index
  {
    PacksSuffice(size, cap);
    var packs := Packs(size, cap);
    var q := index / packs;
    assert index == packs * q + index % packs;
    Multiples(packs, q - cap);
    assert packs * (q - cap) == packs * q - packs * cap;
    assert packs * q == q * packs;
  }

  /** A value that needs a whole pack is found by its index alone. */
  lemma WholePack(index: nat, size: nat)
    requires index < size
    ensures Packs(size, 1) == size && At(index, Packs(size, 1)) == Cell(index, 0)
  {
    CellInBounds(index, size, 1);
  }

  /** The queue has one spare index, `Cap + 1` in all: neither the values nor the states of two indices
      overlap, for every capacity and every size of the values. */
  lemma NoSharing(capacity: nat, bytes: nat, i: nat, j: nat)
    requires bytes > 0 && i <= capacity && j <= capacity && i != j
    ensures var packs := Packs(capacity + 1, PackCap(bytes));
            && packs > 0 && At(i, packs) != At(j, packs)
            && At(i, packs).pack < packs && At(i, packs).slot < PackCap(bytes)
    ensures var packs := Packs(capacity + 1, CACHE_LINE);
            && packs > 0 && At(i, packs) != At(j, packs)
            && At(i, packs).pack < packs && At(i, packs).slot < CACHE_LINE
  {
    hide At, Packs, PackCap;
    var cap := PackCap(bytes);
    assert cap > 0;
    CellInBounds(i, capacity + 1, cap);
    CellInBounds(j, capacity + 1, cap);
    CellInBounds(i, capacity + 1, CACHE_LINE);
    CellInBounds(j, capacity + 1, CACHE_LINE);
  }
}
