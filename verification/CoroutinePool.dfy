/** The pool that coroutine frames are allocated from.

    Addresses are numbers.  One memory holds what users write into their objects, the link and the
    length that a freed object carries in its first two words, and the owner word at the end of every
    object; the headers of blocks, which `BytesApart` keeps out of all of these, are a map of their own.
    Every thread has a pool, with 63 lists of freed objects and a doubly linked list of blocks; an
    object may be freed by another thread than the one that allocated it.
 */
module CoroutinePool {
  import opened Modular

  type Addr = nat

  const NULL: Addr := 0
  const UNIT: nat := 64
  const BLOCK: nat := 4096
  const LARGEST: nat := 4032
  const CLASSES: nat := 63
  const THRESHOLD: nat := 1024

  // ---------- Sizes ----------

  /** Room for the owner word, rounded up to words. */
  function NeededSize(n: nat): nat {
    (n + 8 + 7) / 8 * 8
  }

  function NeededUnits(n: nat): nat
    requires n > 0
  {
    (n - 1) / UNIT + 1
  }

  function UnitsFor(n: nat): (k: nat)
    ensures k >= 1
  {
    NeededUnits(NeededSize(n))
  }

  /** The pool serves a request for `n` bytes, with `k` units. */
  predicate Fits(n: nat, k: nat) {
    NeededSize(n) <= LARGEST && k == UnitsFor(n)
  }

  /** What a caller may write, and what a freed object carries, ends before the owner word; and a
      size class is a number of units. */
  lemma SizesFit(n: nat)
    ensures var m := NeededSize(n);
            && n + 8 <= m < n + 16 && m % 8 == 0 && UNIT * (NeededUnits(m) - 1) < m <= UNIT * NeededUnits(m)
            && n <= UNIT * NeededUnits(m) - 8 && 16 <= UNIT * NeededUnits(m) - 8
            && (m - 1) / UNIT == NeededUnits(m) - 1
            && (m <= LARGEST <==> NeededUnits(m) <= CLASSES)
  {
  }

  lemma FitsUnits(n: nat, k: nat)
    requires Fits(n, k)
    ensures 1 <= k <= CLASSES && n <= UNIT * k - 8
  {
    SizesFit(n);
  }

  /** The size of a new block, in 64-bit arithmetic. */
  function BlockBytes(e: nat): nat {
    BLOCK * Pow2(e) % WORD
  }

  /** The size of a new block is right up to the exponent 51, and zero from 52 on. */
  lemma BlockBytesExact(e: nat)
    ensures BlockBytes(e) == (if e < 52 then BLOCK * Pow2(e) else 0)
    ensures e < 52 ==> BLOCK <= BlockBytes(e) && BlockBytes(e) % BLOCK == 0
  {
    Pow2At52();
    if e < 52 {
      SmallPow2(e);
      RemainderOf(Pow2(e), 0, BLOCK);
    } else {
      Pow2Add(52, e - 52);
      var k := Pow2(e - 52);
      assert BLOCK * Pow2(e) == WORD * k by { Scale(Pow2(e), k); }
      RemainderOf(k, 0, WORD);
    }
  }

  lemma Scale(x: nat, k: nat)
    requires x == 0x10_0000_0000_0000 * k
    ensures BLOCK * x == WORD * k
  {
  }

  lemma SmallPow2(e: nat)
    requires e < 52
    ensures 1 <= Pow2(e) && BLOCK * Pow2(e) < WORD
  {
    Pow2At52();
    Pow2Add(52 - e, e);
    MulAtLeast(2 * Pow2(52 - e - 1), Pow2(e));
  }

  lemma MulAtLeast(y: nat, x: nat)
    requires y >= 2
    ensures y * x >= 2 * x
  {
  }

  /** The number of units of a block, in 64-bit arithmetic: the header takes the room of one. */
  function UnitCount(size: nat): nat {
    (size / UNIT + WORD - 1) % WORD
  }

  lemma UnitCountExact(size: nat)
    requires size < WORD
    ensures UnitCount(size) == if size < UNIT then WORD - 1 else size / UNIT - 1
  {
  }

  // ---------- The state ----------

  datatype Header = Header(size: nat, unitCount: nat, prev: Addr, next: Addr, index: nat, gaveBack: nat)

  datatype Pool = Pool(heads: seq<Addr>, blocks: Addr, exp: nat, allocations: nat, misses: nat)

  /** `bytes`: what its user asked for and may write. */
  datatype Place = Live(bytes: nat) | Cached(pool: nat, pos: nat)

  /** An object that was allocated from a block and not given back to it. */
  datatype Obj = Obj(block: Addr, first: nat, units: nat, place: Place)

  /** `objs`, `lists` and `chains` say what the memory means: the objects, the freed objects of every
      pool and class from the oldest to the newest, and the blocks of every pool in list order. */
  datatype Books = Books(headers: map<Addr, Header>, mem: map<Addr, nat>, pools: map<nat, Pool>,
                         objs: map<Addr, Obj>, lists: map<nat, seq<seq<Addr>>>, chains: map<nat, seq<Addr>>)

  /** The units of one block that are live or cached. */
  ghost function UnitsOf(objs: map<Addr, Obj>, x: Addr): nat
    decreases |objs|
  {
    if objs == map[] then 0
    else
      var a :| a in objs;
      Share(objs[a], x) + UnitsOf(objs - {a}, x)
  }

  function Share(o: Obj, x: Addr): nat {
    if o.block == x then o.units else 0
  }

  lemma {:induction false} UnitsSplit(objs: map<Addr, Obj>, x: Addr, a: Addr)
    requires a in objs
    ensures UnitsOf(objs, x) == Share(objs[a], x) + UnitsOf(objs - {a}, x)
    decreases |objs|
  {
    hide Share;
    var c :| c in objs && UnitsOf(objs, x) == Share(objs[c], x) + UnitsOf(objs - {c}, x);
    if c != a {
      UnitsSplit(objs - {c}, x, a);
      UnitsSplit(objs - {a}, x, c);
      assert objs - {c} - {a} == objs - {a} - {c};
    }
  }

  lemma UnitsAdd(objs: map<Addr, Obj>, x: Addr, a: Addr, o: Obj)
    requires a !in objs
    ensures UnitsOf(objs[a := o], x) == Share(o, x) + UnitsOf(objs, x)
  {
    UnitsSplit(objs[a := o], x, a);
    assert objs[a := o] - {a} == objs;
  }

  lemma UnitsPlace(objs: map<Addr, Obj>, x: Addr, a: Addr, p: Place)
    requires a in objs
    ensures UnitsOf(objs[a := objs[a].(place := p)], x) == UnitsOf(objs, x)
  {
    UnitsSplit(objs, x, a);
    UnitsSplit(objs[a := objs[a].(place := p)], x, a);
    assert objs[a := objs[a].(place := p)] - {a} == objs - {a};
  }

  // ---------- The invariant ----------

  /** A block is its header, one unit long, and its units. */
  predicate HeaderOk(x: Addr, h: Header) {
    x > 0 && x % BLOCK == 0 && h.size == UNIT * (h.unitCount + 1) && h.index <= h.unitCount
  }

  ghost predicate HeadersOk(hs: map<Addr, Header>) {
    && (forall x | x in hs :: HeaderOk(x, hs[x]))
    && (forall x, y | x in hs && y in hs && x < y :: x + hs[x].size <= y)
  }

  /** Where unit `i` of block `x` begins. */
  function UnitAt(x: Addr, i: nat): Addr {
    x + UNIT * (i + 1)
  }

  /** The last word of an object. */
  function OwnerAt(a: Addr, units: nat): Addr
    requires units >= 1
  {
    a + UNIT * units - 8
  }

  predicate Holds(mem: map<Addr, nat>, w: Addr, v: nat) {
    w in mem && mem[w] == v
  }

  /** The object lies in the used part of its block, ends in its owner word, and is of the size its
      user asked for. */
  predicate ObjOk(b: Books, a: Addr)
    requires a in b.objs
  {
    var o := b.objs[a];
    && o.block in b.headers && a == UnitAt(o.block, o.first)
    && 1 <= o.units <= CLASSES && o.first + o.units <= b.headers[o.block].index
    && Holds(b.mem, OwnerAt(a, o.units), o.block) && (o.place.Live? ==> Fits(o.place.bytes, o.units))
  }

  ghost predicate ObjsOk(b: Books) {
    && (forall a | a in b.objs :: ObjOk(b, a))
    && (forall a, c | a in b.objs && c in b.objs && a < c :: a + UNIT * b.objs[a].units <= c)
  }

  /** Given back, live and cached units are all units that were ever handed out. */
  ghost predicate Accounts(b: Books) {
    forall x | x in b.headers :: b.headers[x].gaveBack + UnitsOf(b.objs, x) == b.headers[x].index
  }

  ghost predicate Distinct(c: seq<Addr>) {
    forall i: nat, j: nat | i < j < |c| :: c[i] != c[j]
  }

  ghost predicate Linked(hs: map<Addr, Header>, c: seq<Addr>, head: Addr) {
    && (forall j: nat | j < |c| :: c[j] in hs && c[j] != NULL)
    && (forall j: nat | j < |c| :: hs[c[j]].next == if j + 1 < |c| then c[j + 1] else NULL)
    && (forall j: nat | j < |c| :: hs[c[j]].prev == if j > 0 then c[j - 1] else NULL)
    && Distinct(c)
    && head == if |c| == 0 then NULL else c[0]
  }

  ghost predicate ChainsOk(b: Books) {
    && b.chains.Keys == b.pools.Keys
    && (forall p | p in b.pools :: Linked(b.headers, b.chains[p], b.pools[p].blocks))
    && (forall p, q, x | p in b.pools && q in b.pools && x in b.chains[p] && x in b.chains[q] :: p == q)
  }

  function Top(list: seq<Addr>): Addr {
    if list == [] then NULL else list[|list| - 1]
  }

  /** A freed object knows its list and its position, and carries the link to the next older one and
      the length of the list up to itself. */
  predicate ItemOk(b: Books, p: nat, i: nat, list: seq<Addr>, j: nat)
    requires j < |list|
  {
    && list[j] in b.objs && b.objs[list[j]].place == Cached(p, j) && b.objs[list[j]].units == i + 1
    && Holds(b.mem, list[j], Top(list[..j])) && Holds(b.mem, list[j] + 8, j + 1)
  }

  /** A list of freed objects of one size, linked from the newest to the oldest. */
  ghost predicate ListOk(b: Books, p: nat, i: nat, list: seq<Addr>) {
    |list| <= THRESHOLD + 1 && forall j: nat | j < |list| :: ItemOk(b, p, i, list, j)
  }

  ghost predicate ListsOk(b: Books) {
    && b.lists.Keys == b.pools.Keys
    && (forall p | p in b.pools :: |b.lists[p]| == CLASSES == |b.pools[p].heads|)
    && (forall p, i: nat | p in b.pools && i < CLASSES ::
          ListOk(b, p, i, b.lists[p][i]) && b.pools[p].heads[i] == Top(b.lists[p][i]))
  }

  /** A cached object is where it says it is. */
  ghost predicate CachedOk(b: Books) {
    forall a | a in b.objs && b.objs[a].place.Cached? ::
      var o := b.objs[a];
      && o.place.pool in b.lists && 1 <= o.units <= |b.lists[o.place.pool]|
      && o.place.pos < |b.lists[o.place.pool][o.units - 1]|
      && b.lists[o.place.pool][o.units - 1][o.place.pos] == a
  }

  ghost predicate Sound(b: Books) {
    HeadersOk(b.headers) && ObjsOk(b) && Accounts(b) && ChainsOk(b) && ListsOk(b) && CachedOk(b)
  }

  // ---------- What soundness means ----------

  /** A block whose counter says that everything was given back holds no object at all. */
  lemma FreeBlockIsUnused(b: Books, x: Addr)
    requires Sound(b) && x in b.headers && b.headers[x].gaveBack == b.headers[x].unitCount
    ensures forall a | a in b.objs :: b.objs[a].block != x
    ensures b.headers[x].index == b.headers[x].unitCount
  {
    assert HeaderOk(x, b.headers[x]);
    forall a | a in b.objs
      ensures b.objs[a].block != x
    {
      UnitsSplit(b.objs, x, a);
      assert ObjOk(b, a);
    }
  }

  lemma ObjInBlock(b: Books, c: Addr)
    requires HeadersOk(b.headers) && ObjsOk(b) && c in b.objs
    ensures var y := b.objs[c].block;
            y in b.headers && y + UNIT <= c && c + UNIT * b.objs[c].units <= y + b.headers[y].size
  {
    assert ObjOk(b, c);
    var y := b.objs[c].block;
    assert HeaderOk(y, b.headers[y]);
  }

  /** The bytes of an object belong to its block and to nothing else: not to a header, not to another
      object.  What its user may write, and what it carries while it is freed, ends before its owner
      word. */
  lemma BytesApart(b: Books, a: Addr, byte: Addr)
    requires Sound(b) && a in b.objs && a <= byte < a + UNIT * b.objs[a].units
    ensures forall x | x in b.headers :: !(x <= byte < x + UNIT)
    ensures forall x | x in b.headers && x <= byte < x + b.headers[x].size :: x == b.objs[a].block
    ensures forall c | c in b.objs && c <= byte < c + UNIT * b.objs[c].units :: c == a
    ensures a % 8 == 0 && a + 16 <= OwnerAt(a, b.objs[a].units)
    ensures b.objs[a].place.Live? ==> a + b.objs[a].place.bytes <= OwnerAt(a, b.objs[a].units)
  {
    assert ObjOk(b, a);
    var y := b.objs[a].block;
    assert HeaderOk(y, b.headers[y]);
    assert byte < y + b.headers[y].size;
    forall x | x in b.headers && x <= byte < x + b.headers[x].size
      ensures x == y
    {
    }
    forall x | x in b.headers
      ensures !(x <= byte < x + UNIT)
    {
      assert HeaderOk(x, b.headers[x]);
    }
    Shape(b, a);
    hide Fits;
  }

  lemma Shape(b: Books, a: Addr)
    requires HeadersOk(b.headers) && a in b.objs && ObjOk(b, a)
    ensures a % 8 == 0 && a + 16 <= OwnerAt(a, b.objs[a].units)
    ensures b.objs[a].place.Live? ==> a + b.objs[a].place.bytes <= OwnerAt(a, b.objs[a].units)
  {
    assert HeaderOk(b.objs[a].block, b.headers[b.objs[a].block]);
    hide HeadersOk;
    Aligned(b.objs[a].block, b.objs[a].first);
    if b.objs[a].place.Live? {
      FitsUnits(b.objs[a].place.bytes, b.objs[a].units);
    }
    hide Fits;
  }

  lemma Aligned(x: Addr, i: nat)
    requires x % BLOCK == 0
    ensures UnitAt(x, i) % 8 == 0
  {
    assert UnitAt(x, i) == 8 * (512 * (x / BLOCK) + 8 * i + 8);
    RemainderOf(512 * (x / BLOCK) + 8 * i + 8, 0, 8);
  }

  /** A word that the pool relies on: an owner word, or the link or the length of a freed object. */
  predicate Kept(b: Books, a: Addr, w: Addr)
    requires a in b.objs && b.objs[a].units >= 1
  {
    w == OwnerAt(a, b.objs[a].units) || (b.objs[a].place.Cached? && (w == a || w == a + 8))
  }

  /** A word that somebody other than the pool may write: in the bytes that the user of a live object
      asked for, or outside all blocks. */
  ghost predicate Writable(b: Books, w: Addr) {
    && w % 8 == 0
    && ((exists c :: c in b.objs && b.objs[c].place.Live? && c <= w < c + b.objs[c].place.bytes)
        || (forall x | x in b.headers :: w < x || x + b.headers[x].size <= w))
  }

  /** Nobody's writes reach a word that the pool relies on. */
  lemma WritesApart(b: Books, a: Addr, w: Addr)
    requires HeadersOk(b.headers) && ObjsOk(b) && a in b.objs && Writable(b, w)
    ensures b.objs[a].units >= 1 && !Kept(b, a, w)
  {
    ObjInBlock(b, a);
    assert ObjOk(b, a);
    if c :| c in b.objs && b.objs[c].place.Live? && c <= w < c + b.objs[c].place.bytes {
      UserApart(b, a, c, w);
    } else {
      hide HeadersOk, HeaderOk, ObjsOk, ObjOk;
    }
  }

  lemma UserApart(b: Books, a: Addr, c: Addr, w: Addr)
    requires HeadersOk(b.headers) && ObjsOk(b) && a in b.objs && c in b.objs && b.objs[c].place.Live?
    requires c <= w < c + b.objs[c].place.bytes
    ensures b.objs[a].units >= 1 && !Kept(b, a, w)
  {
    assert ObjOk(b, a) && ObjOk(b, c);
    Shape(b, a);
    Shape(b, c);
    assert a == c || a + UNIT * b.objs[a].units <= c || c + UNIT * b.objs[c].units <= a;
    hide HeadersOk, ObjsOk, ObjOk;
  }

  // ---------- Steps of the pool ----------

  predicate InPool(b: Books, p: nat, i: nat) {
    && p in b.pools && p in b.lists && p in b.chains && i < CLASSES
    && |b.pools[p].heads| == CLASSES == |b.lists[p]|
  }

  /** There is a freed object of the class. */
  predicate CanPop(b: Books, p: nat, i: nat) {
    && InPool(b, p, i) && b.lists[p][i] != []
    && b.pools[p].heads[i] in b.mem && b.pools[p].heads[i] in b.objs
  }

  /** A freed object is taken off its list, for a user who asked for `n` bytes. */
  function Pop(b: Books, p: nat, i: nat, n: nat): Books
    requires CanPop(b, p, i)
  {
    var a, list := b.pools[p].heads[i], b.lists[p][i];
    b.(pools := b.pools[p := b.pools[p].(heads := b.pools[p].heads[i := b.mem[a]])],
       objs := b.objs[a := b.objs[a].(place := Live(n))],
       lists := b.lists[p := b.lists[p][i := list[..|list| - 1]]])
  }

  function LengthOf(b: Books, head: Addr): nat {
    if head != NULL && head + 8 in b.mem then b.mem[head + 8] else 0
  }

  /** A freed object is put on the list of its size. */
  function Push(b: Books, p: nat, a: Addr): Books
    requires a in b.objs && 1 <= b.objs[a].units && InPool(b, p, b.objs[a].units - 1)
  {
    var i := b.objs[a].units - 1;
    var head := b.pools[p].heads[i];
    b.(mem := b.mem[a := head][a + 8 := LengthOf(b, head) + 1],
       pools := b.pools[p := b.pools[p].(heads := b.pools[p].heads[i := a])],
       objs := b.objs[a := b.objs[a].(place := Cached(p, |b.lists[p][i]|))],
       lists := b.lists[p := b.lists[p][i := b.lists[p][i] + [a]]])
  }

  /** A freed object is given back to its block for good. */
  function GiveBack(b: Books, a: Addr): Books
    requires a in b.objs && b.objs[a].block in b.headers
  {
    var o := b.objs[a];
    b.(headers := b.headers[o.block := b.headers[o.block].(gaveBack := b.headers[o.block].gaveBack + o.units)],
       objs := b.objs - {a})
  }

  /** The next `k` units of a block become an object of `n` bytes. */
  function Bump(b: Books, x: Addr, k: nat, n: nat): Books
    requires x in b.headers && k >= 1
  {
    var a := UnitAt(x, b.headers[x].index);
    b.(mem := b.mem[OwnerAt(a, k) := x],
       headers := b.headers[x := b.headers[x].(index := b.headers[x].index + k)],
       objs := b.objs[a := Obj(x, b.headers[x].index, k, Live(n))])
  }

  /** Somebody writes a word. */
  function Write(b: Books, w: Addr, v: nat): Books {
    b.(mem := b.mem[w := v])
  }

  predicate Agree(mem: map<Addr, nat>, mem': map<Addr, nat>, w: Addr) {
    w in mem ==> w in mem' && mem'[w] == mem[w]
  }

  lemma ListsUntouched(b: Books, b': Books)
    requires ListsOk(b) && b'.lists == b.lists && b'.pools == b.pools
    requires forall a | a in b.objs && b.objs[a].place.Cached? :: a in b'.objs && b'.objs[a] == b.objs[a]
    requires forall a | a in b.objs && b.objs[a].place.Cached? ::
               Agree(b.mem, b'.mem, a) && Agree(b.mem, b'.mem, a + 8)
    ensures ListsOk(b')
  {
    forall p, i: nat | p in b.pools && i < CLASSES
      ensures ListOk(b', p, i, b.lists[p][i]) && b.pools[p].heads[i] == Top(b.lists[p][i])
    {
      ListAgrees(b, b', p, i, b.lists[p][i]);
    }
  }

  /** The objects of the list, and the words they carry, are as before. */
  lemma ListAgrees(b: Books, b': Books, p: nat, i: nat, list: seq<Addr>)
    requires ListOk(b, p, i, list)
    requires forall a | a in list && a in b.objs && b.objs[a].place.Cached? ::
               && a in b'.objs && b'.objs[a] == b.objs[a]
               && Agree(b.mem, b'.mem, a) && Agree(b.mem, b'.mem, a + 8)
    ensures ListOk(b', p, i, list)
  {
    forall j: nat | j < |list|
      ensures ItemOk(b', p, i, list, j)
    {
      assert ItemOk(b, p, i, list, j) && list[j] in list;
      ItemAgrees(b, b', p, i, list, j);
    }
  }

  lemma ItemAgrees(b: Books, b': Books, p: nat, i: nat, list: seq<Addr>, j: nat)
    requires j < |list| && ItemOk(b, p, i, list, j)
    requires list[j] in b'.objs && b'.objs[list[j]] == b.objs[list[j]]
    requires Agree(b.mem, b'.mem, list[j]) && Agree(b.mem, b'.mem, list[j] + 8)
    ensures ItemOk(b', p, i, list, j)
  {
  }

  /** Lists of freed objects depend on the heads, the objects and the memory only. */
  lemma HeadsSame(b: Books, b': Books)
    requires ListsOk(b) && b'.lists == b.lists && b'.objs == b.objs && b'.mem == b.mem
    requires b'.pools.Keys == b.pools.Keys && forall q | q in b.pools :: b'.pools[q].heads == b.pools[q].heads
    ensures ListsOk(b')
  {
    forall q, i: nat | q in b'.pools && i < CLASSES
      ensures ListOk(b', q, i, b'.lists[q][i]) && b'.pools[q].heads[i] == Top(b'.lists[q][i])
    {
      assert ListOk(b, q, i, b.lists[q][i]);
      hide ListOk;
      ListAgrees(b, b', q, i, b.lists[q][i]);
    }
  }

  /** Lists of blocks depend on the links and heads only. */
  lemma ChainsSame(b: Books, b': Books)
    requires ChainsOk(b) && b'.chains == b.chains && b'.pools.Keys == b.pools.Keys
    requires forall p | p in b.pools :: b'.pools[p].blocks == b.pools[p].blocks
    requires b'.headers.Keys == b.headers.Keys
    requires forall x | x in b.headers ::
               b'.headers[x].next == b.headers[x].next && b'.headers[x].prev == b.headers[x].prev
    ensures ChainsOk(b')
  {
    forall p | p in b'.pools
      ensures Linked(b'.headers, b'.chains[p], b'.pools[p].blocks)
    {
      LinkedSame(b.headers, b'.headers, b.chains[p], b.pools[p].blocks);
    }
  }

  lemma LinkedSame(hs: map<Addr, Header>, hs': map<Addr, Header>, c: seq<Addr>, head: Addr)
    requires Linked(hs, c, head)
    requires forall x | x in c :: x in hs' && x in hs && hs'[x].next == hs[x].next && hs'[x].prev == hs[x].prev
    ensures Linked(hs', c, head)
  {
    forall j: nat | j < |c|
      ensures c[j] in hs' && hs'[c[j]].next == hs[c[j]].next && hs'[c[j]].prev == hs[c[j]].prev
    {
      assert c[j] in c;
    }
  }

  lemma HeadersSame(hs: map<Addr, Header>, hs': map<Addr, Header>)
    requires HeadersOk(hs) && hs'.Keys <= hs.Keys
    requires forall x | x in hs' :: HeaderOk(x, hs'[x]) && hs'[x].size == hs[x].size
    ensures HeadersOk(hs')
  {
    hide HeaderOk;
  }

  lemma ObjsSame(b: Books, b': Books)
    requires ObjsOk(b) && b'.objs.Keys <= b.objs.Keys
    requires forall a | a in b'.objs :: b'.objs[a].(place := b.objs[a].place) == b.objs[a]
    requires forall a | a in b'.objs :: b'.objs[a].place == b.objs[a].place || b'.objs[a].place.Cached?
                                        || Fits(b'.objs[a].place.bytes, b.objs[a].units)
    requires forall a | a in b'.objs && b.objs[a].units >= 1 :: Agree(b.mem, b'.mem, OwnerAt(a, b.objs[a].units))
    requires forall a | a in b'.objs :: var x := b.objs[a].block;
               x in b.headers ==> x in b'.headers && b'.headers[x].index >= b.headers[x].index
    ensures ObjsOk(b')
  {
    forall a | a in b'.objs
      ensures ObjOk(b', a) && b'.objs[a].units == b.objs[a].units
    {
      assert ObjOk(b, a);
    }
    hide ObjOk;
  }

  // ----- Giving back -----

  lemma GiveBackSound(b: Books, a: Addr)
    requires Sound(b) && a in b.objs && b.objs[a].place.Live?
    ensures b.objs[a].block in b.headers && Sound(GiveBack(b, a))
  {
    assert ObjOk(b, a);
    hide HeadersOk, ObjsOk, Accounts, ChainsOk, ListsOk, CachedOk;
    GiveBackCached(b, a);
    GiveBackAccounts(b, a);
    GiveBackObjs(b, a);
    GiveBackLists(b, a);
    hide GiveBack;
  }

  lemma GiveBackLists(b: Books, a: Addr)
    requires ChainsOk(b) && ListsOk(b) && a in b.objs && b.objs[a].place.Live? && b.objs[a].block in b.headers
    ensures ChainsOk(GiveBack(b, a)) && ListsOk(GiveBack(b, a))
  {
    hide ChainsOk, ListsOk;
    ChainsSame(b, GiveBack(b, a));
    ListsUntouched(b, GiveBack(b, a));
  }

  lemma GiveBackCached(b: Books, a: Addr)
    requires CachedOk(b) && a in b.objs && b.objs[a].block in b.headers
    ensures CachedOk(GiveBack(b, a))
  {
  }

  lemma GiveBackAccounts(b: Books, a: Addr)
    requires Accounts(b) && a in b.objs && b.objs[a].block in b.headers
    ensures Accounts(GiveBack(b, a))
  {
    forall x | x in b.headers
      ensures UnitsOf(b.objs, x) == Share(b.objs[a], x) + UnitsOf(b.objs - {a}, x)
    {
      UnitsSplit(b.objs, x, a);
    }
  }

  lemma GiveBackHeaders(hs: map<Addr, Header>, x: Addr, k: nat)
    requires HeadersOk(hs) && x in hs
    ensures HeadersOk(hs[x := hs[x].(gaveBack := hs[x].gaveBack + k)])
  {
    var hs' := hs[x := hs[x].(gaveBack := hs[x].gaveBack + k)];
    forall y | y in hs'
      ensures HeaderOk(y, hs'[y]) && hs'[y].size == hs[y].size
    {
      assert HeaderOk(y, hs[y]);
    }
    hide HeaderOk;
    HeadersSame(hs, hs');
  }

  lemma GiveBackObjs(b: Books, a: Addr)
    requires HeadersOk(b.headers) && ObjsOk(b) && a in b.objs && b.objs[a].block in b.headers
    ensures HeadersOk(GiveBack(b, a).headers) && ObjsOk(GiveBack(b, a))
  {
    hide HeadersOk, ObjsOk;
    GiveBackHeaders(b.headers, b.objs[a].block, b.objs[a].units);
    ObjsSame(b, GiveBack(b, a));
  }

  // ----- Bump allocation -----

  lemma BumpSound(b: Books, x: Addr, k: nat, n: nat)
    requires Sound(b) && x in b.headers && Fits(n, k) && b.headers[x].index + k <= b.headers[x].unitCount
    ensures k >= 1 && Sound(Bump(b, x, k, n))
    ensures UnitAt(x, b.headers[x].index) !in b.objs
  {
    FitsUnits(n, k);
    NewIsApart(b, x, k);
    hide Fits, HeadersOk, ObjsOk, Accounts, ChainsOk, ListsOk, CachedOk;
    BumpObjs(b, x, k, n);
    BumpAccounts(b, x, k, n);
    BumpLists(b, x, k, n);
    BumpCached(b, x, k, n);
    hide Bump;
  }

  lemma BumpCached(b: Books, x: Addr, k: nat, n: nat)
    requires CachedOk(b) && x in b.headers && k >= 1 && UnitAt(x, b.headers[x].index) !in b.objs
    ensures CachedOk(Bump(b, x, k, n))
  {
  }

  lemma BumpAgrees(b: Books, x: Addr, k: nat, n: nat)
    requires HeadersOk(b.headers) && ObjsOk(b) && x in b.headers && k >= 1
    requires b.headers[x].index + k <= b.headers[x].unitCount
    ensures forall c | c in b.objs ::
              Agree(b.mem, Bump(b, x, k, n).mem, c) && Agree(b.mem, Bump(b, x, k, n).mem, c + 8)
  {
    NewIsApart(b, x, k);
    forall c | c in b.objs
      ensures Agree(b.mem, Bump(b, x, k, n).mem, c) && Agree(b.mem, Bump(b, x, k, n).mem, c + 8)
    {
      assert ObjOk(b, c);
    }
  }

  lemma BumpLists(b: Books, x: Addr, k: nat, n: nat)
    requires HeadersOk(b.headers) && ObjsOk(b) && ChainsOk(b) && ListsOk(b) && x in b.headers && k >= 1
    requires b.headers[x].index + k <= b.headers[x].unitCount
    ensures ChainsOk(Bump(b, x, k, n)) && ListsOk(Bump(b, x, k, n))
  {
    NewIsApart(b, x, k);
    BumpAgrees(b, x, k, n);
    hide HeadersOk, ObjsOk, ChainsOk, ListsOk, Agree;
    ChainsSame(b, Bump(b, x, k, n));
    ListsUntouched(b, Bump(b, x, k, n));
  }

  /** The new object is behind all objects of its block, and blocks do not overlap. */
  lemma NewIsApart(b: Books, x: Addr, k: nat)
    requires HeadersOk(b.headers) && ObjsOk(b) && x in b.headers && 1 <= k
    requires b.headers[x].index + k <= b.headers[x].unitCount
    ensures var a := UnitAt(x, b.headers[x].index);
            && a + UNIT * k <= x + b.headers[x].size
            && forall c | c in b.objs :: c != a && (c + UNIT * b.objs[c].units <= a || a + UNIT * k <= c)
  {
    assert HeaderOk(x, b.headers[x]);
    hide HeadersOk;
    var a := UnitAt(x, b.headers[x].index);
    forall c | c in b.objs
      ensures c != a && (c + UNIT * b.objs[c].units <= a || a + UNIT * k <= c)
    {
      Beside(b, x, c);
    }
  }

  /** An object is within the used part of block `x`, or outside the block. */
  lemma Beside(b: Books, x: Addr, c: Addr)
    requires HeadersOk(b.headers) && ObjsOk(b) && c in b.objs && x in b.headers
    ensures c + UNIT * b.objs[c].units <= UnitAt(x, b.headers[x].index) || x + b.headers[x].size <= c
    ensures b.objs[c].units >= 1
  {
    ObjInBlock(b, c);
    assert ObjOk(b, c);
    hide HeaderOk;
    var y := b.objs[c].block;
    assert y < x || x < y || x == y;
  }

  lemma BumpHeaders(b: Books, x: Addr, k: nat, n: nat)
    requires HeadersOk(b.headers) && x in b.headers && k >= 1 && b.headers[x].index + k <= b.headers[x].unitCount
    ensures HeadersOk(Bump(b, x, k, n).headers)
  {
    var b' := Bump(b, x, k, n);
    forall y | y in b'.headers
      ensures HeaderOk(y, b'.headers[y]) && b'.headers[y].size == b.headers[y].size
    {
      assert HeaderOk(y, b.headers[y]);
    }
    hide HeadersOk, HeaderOk;
    HeadersSame(b.headers, b'.headers);
  }

  lemma BumpObjs(b: Books, x: Addr, k: nat, n: nat)
    requires HeadersOk(b.headers) && ObjsOk(b) && x in b.headers && 1 <= k <= CLASSES && Fits(n, k)
    requires b.headers[x].index + k <= b.headers[x].unitCount
    ensures HeadersOk(Bump(b, x, k, n).headers) && ObjsOk(Bump(b, x, k, n))
  {
    NewIsApart(b, x, k);
    BumpHeaders(b, x, k, n);
    BumpObj(b, x, k, n);
    hide HeadersOk, ObjOk;
    var a := UnitAt(x, b.headers[x].index);
    assert a !in b.objs;
    forall c | c in b.objs
      ensures ObjOk(Bump(b, x, k, n), c)
    {
      assert ObjOk(b, c);
      ObjGrows(b, x, k, n, c);
    }
  }

  lemma BumpObj(b: Books, x: Addr, k: nat, n: nat)
    requires x in b.headers && 1 <= k <= CLASSES && Fits(n, k)
    ensures ObjOk(Bump(b, x, k, n), UnitAt(x, b.headers[x].index))
  {
  }

  lemma ObjGrows(b: Books, x: Addr, k: nat, n: nat, c: Addr)
    requires x in b.headers && c in b.objs && ObjOk(b, c) && k >= 1
    requires var a := UnitAt(x, b.headers[x].index);
             c != a && (c + UNIT * b.objs[c].units <= a || a + UNIT * k <= c)
    ensures ObjOk(Bump(b, x, k, n), c)
  {
  }

  lemma BumpAccounts(b: Books, x: Addr, k: nat, n: nat)
    requires Accounts(b) && x in b.headers && k >= 1 && UnitAt(x, b.headers[x].index) !in b.objs
    ensures Accounts(Bump(b, x, k, n))
  {
    var a := UnitAt(x, b.headers[x].index);
    forall y | y in b.headers
      ensures UnitsOf(b.objs[a := Obj(x, b.headers[x].index, k, Live(n))], y)
           == Share(Obj(x, b.headers[x].index, k, Live(n)), y) + UnitsOf(b.objs, y)
    {
      UnitsAdd(b.objs, y, a, Obj(x, b.headers[x].index, k, Live(n)));
    }
  }

  // ----- Lists of freed objects -----

  /** Only one object changed its place, and no owner word changed. */
  lemma PlaceSame(b: Books, b': Books, a: Addr, p: Place)
    requires HeadersOk(b.headers) && ObjsOk(b) && Accounts(b) && ChainsOk(b) && a in b.objs
    requires b'.objs == b.objs[a := b.objs[a].(place := p)] && (p.Live? ==> Fits(p.bytes, b.objs[a].units))
    requires b'.headers == b.headers && b'.chains == b.chains && b'.pools.Keys == b.pools.Keys
    requires forall q | q in b.pools :: b'.pools[q].blocks == b.pools[q].blocks
    requires forall c | c in b.objs && b.objs[c].units >= 1 :: Agree(b.mem, b'.mem, OwnerAt(c, b.objs[c].units))
    ensures HeadersOk(b'.headers) && ObjsOk(b') && Accounts(b') && ChainsOk(b')
  {
    hide ObjsOk, ChainsOk, HeadersOk, Fits, Agree;
    ObjsSame(b, b');
    ChainsSame(b, b');
    forall x | x in b.headers
      ensures UnitsOf(b'.objs, x) == UnitsOf(b.objs, x)
    {
      UnitsPlace(b.objs, x, a, p);
    }
  }

  /** A list that the object is not on stays as it is. */
  lemma ListSame(b: Books, b': Books, p: nat, i: nat, list: seq<Addr>, a: Addr)
    requires ListOk(b, p, i, list) && a !in list
    requires forall c | c in b.objs && c != a ::
               c in b'.objs && b'.objs[c] == b.objs[c] && Agree(b.mem, b'.mem, c) && Agree(b.mem, b'.mem, c + 8)
    ensures ListOk(b', p, i, list)
  {
    hide ListOk, Agree;
    ListAgrees(b, b', p, i, list);
  }

  lemma NotOn(b: Books, p: nat, i: nat, list: seq<Addr>, a: Addr)
    requires ListOk(b, p, i, list) && a in b.objs
    requires b.objs[a].place.Live? || b.objs[a].units != i + 1 || b.objs[a].place.pool != p
             || b.objs[a].place.pos >= |list|
    ensures a !in list
  {
    forall c | c in list
      ensures c != a
    {
      var j: nat :| j < |list| && list[j] == c;
      assert ItemOk(b, p, i, list, j);
    }
  }

  lemma OnTop(b: Books, p: nat, i: nat)
    requires ListsOk(b) && p in b.pools && i < CLASSES
    ensures InPool(b, p, i) || p !in b.chains
    ensures p in b.lists && |b.lists[p]| == CLASSES == |b.pools[p].heads|
    ensures ListOk(b, p, i, b.lists[p][i]) && b.pools[p].heads[i] == Top(b.lists[p][i])
    ensures |b.lists[p][i]| <= THRESHOLD + 1
    ensures var list := b.lists[p][i];
            list != [] ==> var a := b.pools[p].heads[i];
              && a == list[|list| - 1] && a in b.objs && b.objs[a].place == Cached(p, |list| - 1)
              && b.objs[a].units == i + 1
              && Holds(b.mem, a, Top(list[..|list| - 1])) && Holds(b.mem, a + 8, |list|)
  {
    assert ListOk(b, p, i, b.lists[p][i]) && b.pools[p].heads[i] == Top(b.lists[p][i]);
    if b.lists[p][i] != [] {
      assert ItemOk(b, p, i, b.lists[p][i], |b.lists[p][i]| - 1);
    }
  }

  lemma ListShrinks(b: Books, b': Books, p: nat, i: nat, list: seq<Addr>, a: Addr)
    requires ListOk(b, p, i, list) && list != [] && a == list[|list| - 1]
    requires forall c | c in b.objs && c != a :: c in b'.objs && b'.objs[c] == b.objs[c]
    requires b'.mem == b.mem
    ensures ListOk(b', p, i, list[..|list| - 1])
  {
    var rest := list[..|list| - 1];
    assert ItemOk(b, p, i, list, |list| - 1);
    forall j: nat | j < |rest|
      ensures ItemOk(b', p, i, rest, j)
    {
      assert ItemOk(b, p, i, list, j);
      assert rest[j] == list[j] && rest[..j] == list[..j] && rest[j] != a;
    }
  }

  lemma ListGrows(b: Books, b': Books, p: nat, i: nat, list: seq<Addr>, a: Addr)
    requires ListOk(b, p, i, list) && |list| <= THRESHOLD && a !in list
    requires forall c | c in b.objs && c != a ::
               c in b'.objs && b'.objs[c] == b.objs[c] && Agree(b.mem, b'.mem, c) && Agree(b.mem, b'.mem, c + 8)
    requires a in b'.objs && b'.objs[a].place == Cached(p, |list|) && b'.objs[a].units == i + 1
    requires Holds(b'.mem, a, Top(list)) && Holds(b'.mem, a + 8, |list| + 1)
    ensures ListOk(b', p, i, list + [a])
  {
    ListSame(b, b', p, i, list, a);
    var more := list + [a];
    forall j: nat | j < |more|
      ensures ItemOk(b', p, i, more, j)
    {
      assert more[..j] == list[..j];
      if j < |list| {
        assert more[j] == list[j] && ItemOk(b', p, i, list, j);
      } else {
        assert more[..j] == list;
      }
    }
  }

  lemma PopLists(b: Books, p: nat, i: nat, n: nat)
    requires ListsOk(b) && p in b.pools && p in b.chains && i < CLASSES && CanPop(b, p, i)
    ensures ListsOk(Pop(b, p, i, n))
  {
    var b' := Pop(b, p, i, n);
    OnTop(b, p, i);
    var a, list := b.pools[p].heads[i], b.lists[p][i];
    forall q, k: nat | q in b'.pools && k < CLASSES
      ensures ListOk(b', q, k, b'.lists[q][k]) && b'.pools[q].heads[k] == Top(b'.lists[q][k])
    {
      OnTop(b, q, k);
      hide ListsOk, ListOk;
      if q == p && k == i {
        ListShrinks(b, b', p, i, list, a);
      } else {
        NotOn(b, q, k, b.lists[q][k], a);
        ListSame(b, b', q, k, b.lists[q][k], a);
      }
    }
  }

  lemma PopCached(b: Books, p: nat, i: nat, n: nat)
    requires ListsOk(b) && CachedOk(b) && p in b.pools && p in b.chains && i < CLASSES && CanPop(b, p, i)
    ensures CachedOk(Pop(b, p, i, n))
  {
    OnTop(b, p, i);
    hide ListsOk, CachedOk, CachedAt;
    var b' := Pop(b, p, i, n);
    forall c | c in b'.objs && b'.objs[c].place.Cached?
      ensures CachedAt(b', c)
    {
      WhereCached(b, c);
      PoppedAt(b, p, i, n, c);
    }
    AllCached(b');
  }

  lemma PoppedAt(b: Books, p: nat, i: nat, n: nat, c: Addr)
    requires CanPop(b, p, i) && b.pools[p].heads[i] == Top(b.lists[p][i])
    requires c in b.objs && CachedAt(b, c) && c != b.pools[p].heads[i]
    ensures c in Pop(b, p, i, n).objs && CachedAt(Pop(b, p, i, n), c)
  {
  }

  ghost predicate CachedAt(b: Books, a: Addr)
    requires a in b.objs
  {
    var o := b.objs[a];
    && o.place.Cached? && o.place.pool in b.lists && 1 <= o.units <= |b.lists[o.place.pool]|
    && o.place.pos < |b.lists[o.place.pool][o.units - 1]|
    && b.lists[o.place.pool][o.units - 1][o.place.pos] == a
  }

  lemma WhereCached(b: Books, c: Addr)
    requires CachedOk(b) && c in b.objs && b.objs[c].place.Cached?
    ensures CachedAt(b, c)
  {
  }

  lemma AllCached(b: Books)
    requires forall c | c in b.objs && b.objs[c].place.Cached? :: CachedAt(b, c)
    ensures CachedOk(b)
  {
  }

  lemma PopRest(b: Books, p: nat, i: nat, n: nat)
    requires HeadersOk(b.headers) && ObjsOk(b) && Accounts(b) && ChainsOk(b)
    requires CanPop(b, p, i) && Fits(n, i + 1) && b.objs[b.pools[p].heads[i]].units == i + 1
    ensures var b' := Pop(b, p, i, n); HeadersOk(b'.headers) && ObjsOk(b') && Accounts(b') && ChainsOk(b')
  {
    hide HeadersOk, ObjsOk, Accounts, ChainsOk, Fits;
    PlaceSame(b, Pop(b, p, i, n), b.pools[p].heads[i], Live(n));
  }

  /** A class has a freed object exactly when its head is not null, and then the newest one is of the
      right size. */
  lemma CanPopExact(b: Books, p: nat, i: nat)
    requires Sound(b) && p in b.pools && i < CLASSES
    ensures InPool(b, p, i) && (CanPop(b, p, i) <==> b.pools[p].heads[i] != NULL)
    ensures CanPop(b, p, i) ==>
              && b.objs[b.pools[p].heads[i]].units == i + 1
              && b.objs[b.pools[p].heads[i]].place == Cached(p, |b.lists[p][i]| - 1)
  {
    OnTop(b, p, i);
    NullIsNoObject(b);
  }

  lemma PopSound(b: Books, p: nat, i: nat, n: nat)
    requires Sound(b) && p in b.pools && i < CLASSES && CanPop(b, p, i) && Fits(n, i + 1)
    ensures b.objs[b.pools[p].heads[i]].units == i + 1
    ensures Sound(Pop(b, p, i, n))
  {
    CanPopExact(b, p, i);
    hide HeadersOk, ObjsOk, Accounts, ListsOk, CachedOk, ChainsOk, Fits;
    PopLists(b, p, i, n);
    PopCached(b, p, i, n);
    PopRest(b, p, i, n);
    hide Pop;
  }

  /** The first two words of an object are no other object's, and not its owner word. */
  lemma LinkWordsApart(b: Books, a: Addr, c: Addr)
    requires HeadersOk(b.headers) && ObjsOk(b) && a in b.objs && c in b.objs
    ensures b.objs[c].units >= 1 && OwnerAt(c, b.objs[c].units) != a && OwnerAt(c, b.objs[c].units) != a + 8
    ensures c != a ==> c != a + 8 && c + 8 != a
  {
    assert ObjOk(b, a) && ObjOk(b, c);
    Shape(b, a);
    Shape(b, c);
    assert a == c || a + UNIT * b.objs[a].units <= c || c + UNIT * b.objs[c].units <= a;
    hide HeadersOk, ObjsOk, ObjOk;
  }

  lemma PushAgrees(b: Books, p: nat, a: Addr)
    requires HeadersOk(b.headers) && ObjsOk(b)
    requires a in b.objs && 1 <= b.objs[a].units && InPool(b, p, b.objs[a].units - 1)
    ensures var mem' := Push(b, p, a).mem;
            && (forall c | c in b.objs && b.objs[c].units >= 1 :: Agree(b.mem, mem', OwnerAt(c, b.objs[c].units)))
            && (forall c | c in b.objs && c != a :: Agree(b.mem, mem', c) && Agree(b.mem, mem', c + 8))
  {
    hide HeadersOk, ObjsOk;
    forall c | c in b.objs
      ensures b.objs[c].units >= 1 && OwnerAt(c, b.objs[c].units) != a && OwnerAt(c, b.objs[c].units) != a + 8
      ensures c != a ==> c != a + 8 && c + 8 != a
    {
      LinkWordsApart(b, a, c);
    }
    hide LengthOf;
  }

  lemma PushListAt(b: Books, p: nat, a: Addr, q: nat, k: nat)
    requires ListsOk(b) && q in b.pools && k < CLASSES && a in b.objs && b.objs[a].place.Live?
    requires 1 <= b.objs[a].units && InPool(b, p, b.objs[a].units - 1)
    requires var list := b.lists[p][b.objs[a].units - 1];
             && LengthOf(b, b.pools[p].heads[b.objs[a].units - 1]) == |list| <= THRESHOLD
    requires var mem' := Push(b, p, a).mem;
             forall c | c in b.objs && c != a :: Agree(b.mem, mem', c) && Agree(b.mem, mem', c + 8)
    ensures var b' := Push(b, p, a);
            && q in b'.lists && k < |b'.lists[q]| && q in b'.pools && k < |b'.pools[q].heads|
            && ListOk(b', q, k, b'.lists[q][k]) && b'.pools[q].heads[k] == Top(b'.lists[q][k])
  {
    hide ListsOk, ListOk, Agree;
    OnTop(b, q, k);
    var b' := Push(b, p, a);
    NotOn(b, q, k, b.lists[q][k], a);
    if q == p && k == b.objs[a].units - 1 {
      ListGrows(b, b', p, k, b.lists[p][k], a);
    } else {
      ListSame(b, b', q, k, b.lists[q][k], a);
    }
  }

  lemma PushPools(b: Books, p: nat, a: Addr)
    requires ListsOk(b) && p in b.pools && a in b.objs && 1 <= b.objs[a].units
    requires InPool(b, p, b.objs[a].units - 1)
    ensures var b' := Push(b, p, a);
            && b'.lists.Keys == b'.pools.Keys == b.pools.Keys
            && forall q | q in b'.pools :: |b'.lists[q]| == CLASSES == |b'.pools[q].heads|
  {
    hide ListOk;
  }

  lemma PushLists(b: Books, p: nat, a: Addr)
    requires Sound(b) && p in b.pools && a in b.objs && b.objs[a].place.Live?
    requires 1 <= b.objs[a].units <= CLASSES && InPool(b, p, b.objs[a].units - 1)
    requires |b.lists[p][b.objs[a].units - 1]| <= THRESHOLD
    ensures ListsOk(Push(b, p, a))
  {
    hide HeadersOk, ObjsOk, Accounts, ChainsOk, ListsOk, ListOk, CachedOk, Agree;
    var b' := Push(b, p, a);
    LengthIsLength(b, p, b.objs[a].units - 1);
    PushAgrees(b, p, a);
    PushPools(b, p, a);
    forall q, k: nat | q in b'.pools && k < CLASSES
      ensures ListOk(b', q, k, b'.lists[q][k]) && b'.pools[q].heads[k] == Top(b'.lists[q][k])
    {
      hide Push;
      PushListAt(b, p, a, q, k);
    }
    hide Push;
    MakeLists(b');
  }

  lemma MakeLists(b: Books)
    requires b.lists.Keys == b.pools.Keys
    requires forall p | p in b.pools :: |b.lists[p]| == CLASSES == |b.pools[p].heads|
    requires forall p, i: nat | p in b.pools && i < CLASSES ::
               ListOk(b, p, i, b.lists[p][i]) && b.pools[p].heads[i] == Top(b.lists[p][i])
    ensures ListsOk(b)
  {
  }

  lemma PushCached(b: Books, p: nat, a: Addr)
    requires CachedOk(b) && a in b.objs && b.objs[a].place.Live?
    requires 1 <= b.objs[a].units <= CLASSES && InPool(b, p, b.objs[a].units - 1)
    ensures CachedOk(Push(b, p, a))
  {
  }

  /** The length that the newest freed object carries is the length of the list. */
  lemma LengthIsLength(b: Books, p: nat, i: nat)
    requires Sound(b) && p in b.pools && i < CLASSES
    ensures p in b.lists && i < |b.lists[p]| && i < |b.pools[p].heads|
    ensures LengthOf(b, b.pools[p].heads[i]) == |b.lists[p][i]| <= THRESHOLD + 1
    ensures b.pools[p].heads[i] == NULL <==> b.lists[p][i] == []
    ensures b.lists[p][i] != [] ==> b.pools[p].heads[i] + 8 in b.mem
  {
    hide HeadersOk, ObjsOk, Accounts, ChainsOk, ListsOk, ListOk, CachedOk;
    OnTop(b, p, i);
    NullIsNoObject(b);
  }

  lemma NullIsNoObject(b: Books)
    requires ObjsOk(b)
    ensures NULL !in b.objs
  {
    forall a | a in b.objs
      ensures a != NULL
    {
      assert ObjOk(b, a);
    }
  }

  lemma PushSound(b: Books, p: nat, a: Addr)
    requires Sound(b) && p in b.pools && a in b.objs && b.objs[a].place.Live?
    ensures 1 <= b.objs[a].units <= CLASSES && InPool(b, p, b.objs[a].units - 1)
    ensures |b.lists[p][b.objs[a].units - 1]| <= THRESHOLD ==> Sound(Push(b, p, a))
  {
    assert ObjOk(b, a);
    OnTop(b, p, b.objs[a].units - 1);
    NullIsNoObject(b);
    assert InPool(b, p, b.objs[a].units - 1);
    if |b.lists[p][b.objs[a].units - 1]| <= THRESHOLD {
      PushLists(b, p, a);
      hide HeadersOk, ObjsOk, Accounts, ListsOk, CachedOk, ChainsOk, ObjOk;
      PushCached(b, p, a);
      PushRest(b, p, a);
      hide Push;
    }
  }

  lemma PushRest(b: Books, p: nat, a: Addr)
    requires HeadersOk(b.headers) && ObjsOk(b) && Accounts(b) && ChainsOk(b)
    requires a in b.objs && 1 <= b.objs[a].units && InPool(b, p, b.objs[a].units - 1)
    ensures var b' := Push(b, p, a); HeadersOk(b'.headers) && ObjsOk(b') && Accounts(b') && ChainsOk(b')
  {
    PushAgrees(b, p, a);
    hide HeadersOk, ObjsOk, Accounts, ChainsOk, Agree;
    PlaceSame(b, Push(b, p, a), a, Cached(p, |b.lists[p][b.objs[a].units - 1]|));
  }

  // ----- Writes by others -----

  /** Whatever a user writes into the bytes of a live object, and whatever anybody writes outside the
      blocks, the pool stays sound. */
  lemma WriteSound(b: Books, w: Addr, v: nat)
    requires Sound(b) && Writable(b, w)
    ensures Sound(Write(b, w, v))
  {
    hide Writable, HeadersOk, ObjsOk, ListsOk, ChainsOk, CachedOk;
    NoneKept(b, w);
    WriteAgrees(b, w, v);
    hide Agree, Kept;
    ListsUntouched(b, Write(b, w, v));
    ObjsSame(b, Write(b, w, v));
    ChainsSame(b, Write(b, w, v));
    WriteCached(b, w, v);
  }

  lemma NoneKept(b: Books, w: Addr)
    requires HeadersOk(b.headers) && ObjsOk(b) && Writable(b, w)
    ensures forall a | a in b.objs :: b.objs[a].units >= 1 && !Kept(b, a, w)
  {
    hide HeadersOk, ObjsOk, Writable, Kept;
    forall a | a in b.objs
      ensures b.objs[a].units >= 1 && !Kept(b, a, w)
    {
      WritesApart(b, a, w);
    }
  }

  lemma WriteAgrees(b: Books, w: Addr, v: nat)
    requires forall a | a in b.objs :: b.objs[a].units >= 1 && !Kept(b, a, w)
    ensures forall a | a in b.objs && b.objs[a].units >= 1 ::
              Agree(b.mem, Write(b, w, v).mem, OwnerAt(a, b.objs[a].units))
    ensures forall a | a in b.objs && b.objs[a].place.Cached? ::
              Agree(b.mem, Write(b, w, v).mem, a) && Agree(b.mem, Write(b, w, v).mem, a + 8)
  {
  }

  lemma WriteCached(b: Books, w: Addr, v: nat)
    requires CachedOk(b)
    ensures CachedOk(Write(b, w, v))
  {
  }

  // ----- The list of blocks -----

  /** What taking a block out of a doubly linked list does to the links. */
  function Relinked(hs: map<Addr, Header>, x: Addr): map<Addr, Header>
    requires x in hs
  {
    var h := hs[x];
    var hs1 := if h.prev in hs && h.prev != NULL then hs[h.prev := hs[h.prev].(next := h.next)] else hs;
    var hs2 := if h.next in hs1 && h.next != NULL then hs1[h.next := hs1[h.next].(prev := h.prev)] else hs1;
    hs2 - {x}
  }

  function Unlink(b: Books, p: nat, j: nat): Books
    requires p in b.pools && p in b.chains && j < |b.chains[p]| && b.chains[p][j] in b.headers
  {
    var x := b.chains[p][j];
    var h := b.headers[x];
    b.(headers := Relinked(b.headers, x),
       pools := if h.prev != NULL then b.pools else b.pools[p := b.pools[p].(blocks := h.next)],
       chains := b.chains[p := b.chains[p][..j] + b.chains[p][j + 1..]])
  }

  lemma LinkedAt(hs: map<Addr, Header>, c: seq<Addr>, head: Addr, j: nat)
    requires Linked(hs, c, head) && j < |c|
    ensures c[j] in hs && c[j] != NULL && head == c[0]
    ensures hs[c[j]].next == (if j + 1 < |c| then c[j + 1] else NULL)
    ensures hs[c[j]].prev == (if j > 0 then c[j - 1] else NULL)
    ensures forall k: nat | k < |c| && k != j :: c[k] != c[j]
  {
    assert c[j] in hs && c[j] != NULL;
    forall k: nat | k < |c| && k != j
      ensures c[k] != c[j]
    {
      assert k < j || j < k;
    }
  }

  lemma MakeLinked(hs: map<Addr, Header>, c: seq<Addr>, head: Addr)
    requires forall j: nat | j < |c| :: c[j] in hs && c[j] != NULL
    requires forall j: nat | j < |c| :: hs[c[j]].next == (if j + 1 < |c| then c[j + 1] else NULL)
    requires forall j: nat | j < |c| :: hs[c[j]].prev == (if j > 0 then c[j - 1] else NULL)
    requires Distinct(c) && head == if |c| == 0 then NULL else c[0]
    ensures Linked(hs, c, head)
  {
  }

  lemma RelinkedLinks(hs: map<Addr, Header>, c: seq<Addr>, head: Addr, j: nat)
    requires Linked(hs, c, head) && j < |c|
    ensures c[j] in hs
    ensures Linked(Relinked(hs, c[j]), c[..j] + c[j + 1..], if hs[c[j]].prev != NULL then head else hs[c[j]].next)
  {
    var d := c[..j] + c[j + 1..];
    LinkedAt(hs, c, head, j);
    var hs' := Relinked(hs, c[j]);
    assert Distinct(d);
    forall i: nat | i < |d|
      ensures d[i] in hs' && d[i] != NULL
      ensures hs'[d[i]].next == (if i + 1 < |d| then d[i + 1] else NULL)
      ensures hs'[d[i]].prev == (if i > 0 then d[i - 1] else NULL)
    {
      var at := if i < j then i else i + 1;
      RelinkedAt(hs, c, head, j, at);
      assert d[i] == c[at];
    }
    if j > 0 {
      LinkedAt(hs, c, head, j - 1);
    }
    MakeLinked(hs', d, if hs[c[j]].prev != NULL then head else hs[c[j]].next);
  }

  /** The links of the other blocks of the list. */
  lemma RelinkedAt(hs: map<Addr, Header>, c: seq<Addr>, head: Addr, j: nat, k: nat)
    requires Linked(hs, c, head) && j < |c| && k < |c| && k != j && c[j] in hs
    ensures c[k] in Relinked(hs, c[j]) && c[k] != NULL
    ensures var h := Relinked(hs, c[j])[c[k]];
            var after := if k + 1 == j then j + 1 else k + 1;
            var before := if k == j + 1 then j - 1 else k - 1;
            && h.next == (if after < |c| then c[after] else NULL)
            && h.prev == (if before >= 0 then c[before] else NULL)
  {
    hide Linked;
    LinkedAt(hs, c, head, j);
    LinkedAt(hs, c, head, k);
    if j + 1 < |c| {
      LinkedAt(hs, c, head, j + 1);
    }
    if j > 0 {
      LinkedAt(hs, c, head, j - 1);
    }
  }

  lemma RelinkedElsewhere(hs: map<Addr, Header>, c: seq<Addr>, head: Addr, j: nat, d: seq<Addr>, top: Addr)
    requires Linked(hs, c, head) && j < |c| && Linked(hs, d, top)
    requires forall x | x in c :: x !in d
    ensures c[j] in hs && Linked(Relinked(hs, c[j]), d, top)
  {
    var h := hs[c[j]];
    assert c[j] in c;
    if h.next != NULL { assert c[j + 1] in c; }
    if h.prev != NULL { assert c[j - 1] in c; }
    LinkedSame(hs, Relinked(hs, c[j]), d, top);
  }

  lemma UnlinkChains(b: Books, p: nat, j: nat)
    requires ChainsOk(b) && p in b.pools && p in b.chains && j < |b.chains[p]| && b.chains[p][j] in b.headers
    ensures ChainsOk(Unlink(b, p, j))
  {
    var b' := Unlink(b, p, j);
    var c := b.chains[p];
    RelinkedLinks(b.headers, c, b.pools[p].blocks, j);
    forall q | q in b'.pools
      ensures Linked(b'.headers, b'.chains[q], b'.pools[q].blocks)
    {
      if q != p {
        RelinkedElsewhere(b.headers, c, b.pools[p].blocks, j, b.chains[q], b.pools[q].blocks);
      }
    }
    assert forall x | x in b'.chains[p] :: x in c;
  }

  lemma RelinkedHeader(hs: map<Addr, Header>, x: Addr, y: Addr)
    requires x in hs && y in hs && y != x
    ensures y in Relinked(hs, x)
    ensures var h := Relinked(hs, x)[y];
            && h.size == hs[y].size && h.unitCount == hs[y].unitCount
            && h.index == hs[y].index && h.gaveBack == hs[y].gaveBack
  {
  }

  lemma RelinkedKeys(hs: map<Addr, Header>, x: Addr)
    requires x in hs
    ensures Relinked(hs, x).Keys == hs.Keys - {x}
  {
  }

  lemma UnlinkHeaders(hs: map<Addr, Header>, x: Addr)
    requires HeadersOk(hs) && x in hs
    ensures HeadersOk(Relinked(hs, x))
    ensures Relinked(hs, x).Keys == hs.Keys - {x}
    ensures forall y | y in hs && y != x ::
              Relinked(hs, x)[y].index == hs[y].index && Relinked(hs, x)[y].gaveBack == hs[y].gaveBack
  {
    var hs' := Relinked(hs, x);
    RelinkedKeys(hs, x);
    hide Relinked;
    forall y | y in hs'
      ensures HeaderOk(y, hs'[y]) && hs'[y].size == hs[y].size
      ensures hs'[y].index == hs[y].index && hs'[y].gaveBack == hs[y].gaveBack
    {
      assert HeaderOk(y, hs[y]);
      RelinkedHeader(hs, x, y);
    }
    HeadersSame(hs, hs');
  }

  lemma UnlinkObjs(b: Books, p: nat, j: nat)
    requires HeadersOk(b.headers) && ObjsOk(b) && p in b.pools && p in b.chains && j < |b.chains[p]|
    requires b.chains[p][j] in b.headers && forall a | a in b.objs :: b.objs[a].block != b.chains[p][j]
    ensures HeadersOk(Unlink(b, p, j).headers) && ObjsOk(Unlink(b, p, j))
  {
    hide HeadersOk, ObjsOk, Relinked;
    UnlinkHeaders(b.headers, b.chains[p][j]);
    ObjsSame(b, Unlink(b, p, j));
  }

  lemma UnlinkAccounts(b: Books, p: nat, j: nat)
    requires HeadersOk(b.headers) && Accounts(b) && p in b.pools && p in b.chains && j < |b.chains[p]|
    requires b.chains[p][j] in b.headers
    ensures Accounts(Unlink(b, p, j)) && Unlink(b, p, j).objs == b.objs
  {
    UnlinkHeaders(b.headers, b.chains[p][j]);
    hide Relinked, HeadersOk;
  }

  lemma UnlinkCached(b: Books, p: nat, j: nat)
    requires CachedOk(b) && p in b.pools && p in b.chains && j < |b.chains[p]| && b.chains[p][j] in b.headers
    ensures CachedOk(Unlink(b, p, j))
  {
    hide Relinked;
  }

  lemma UnlinkLists(b: Books, p: nat, j: nat)
    requires ListsOk(b) && p in b.pools && p in b.chains && j < |b.chains[p]| && b.chains[p][j] in b.headers
    ensures ListsOk(Unlink(b, p, j))
  {
    hide ListsOk, Relinked;
    HeadsSame(b, Unlink(b, p, j));
  }

  /** A block is released only when everything was given back, and then nothing lives in it. */
  lemma UnlinkSound(b: Books, p: nat, j: nat)
    requires Sound(b) && p in b.pools && p in b.chains && j < |b.chains[p]| && b.chains[p][j] in b.headers
    requires b.headers[b.chains[p][j]].gaveBack == b.headers[b.chains[p][j]].unitCount
    ensures Sound(Unlink(b, p, j))
    ensures forall a | a in b.objs :: b.objs[a].block != b.chains[p][j]
  {
    FreeBlockIsUnused(b, b.chains[p][j]);
    UnlinkCached(b, p, j);
    hide HeadersOk, ObjsOk, Accounts, ListsOk, CachedOk, ChainsOk;
    UnlinkChains(b, p, j);
    UnlinkObjs(b, p, j);
    UnlinkAccounts(b, p, j);
    UnlinkLists(b, p, j);
    hide Unlink;
  }

  /** A new block goes to the front of the list. */
  function Link(b: Books, p: nat, x: Addr, size: nat): Books
    requires p in b.pools && p in b.chains
  {
    var head := b.pools[p].blocks;
    var hs := if head in b.headers && head != NULL then b.headers[head := b.headers[head].(prev := x)] else b.headers;
    b.(headers := hs[x := Header(size, UnitCount(size), NULL, head, 0, 0)],
       pools := b.pools[p := b.pools[p].(blocks := x)],
       chains := b.chains[p := [x] + b.chains[p]])
  }

  /** The memory resource hands out memory that no block uses, aligned to blocks. */
  predicate Unused(hs: map<Addr, Header>, x: Addr, size: nat) {
    x > 0 && x % BLOCK == 0 && x !in hs && forall y | y in hs :: y + hs[y].size <= x || x + size <= y
  }

  lemma LinkedIn(hs: map<Addr, Header>, c: seq<Addr>, head: Addr, y: Addr)
    requires Linked(hs, c, head) && y in c
    ensures y in hs && y != NULL
  {
    var j: nat :| j < |c| && c[j] == y;
    LinkedAt(hs, c, head, j);
  }

  lemma LinkedFirst(hs: map<Addr, Header>, hs': map<Addr, Header>, c: seq<Addr>, head: Addr, x: Addr)
    requires Linked(hs, c, head) && x !in hs && x != NULL
    requires x in hs' && hs'[x].next == head && hs'[x].prev == NULL
    requires forall y | y in hs :: y in hs' && hs'[y].next == hs[y].next && (y != head ==> hs'[y].prev == hs[y].prev)
    requires head in hs && head != NULL ==> hs'[head].prev == x
    ensures Linked(hs', [x] + c, x)
  {
    var d := [x] + c;
    forall y | y in c
      ensures y != x
    {
      LinkedIn(hs, c, head, y);
    }
    DistinctCons(x, c);
    var first := if |c| == 0 then NULL else c[0];
    assert head == first;
    hide Linked, Distinct;
    forall j: nat | j < |d|
      ensures d[j] in hs' && d[j] != NULL
      ensures hs'[d[j]].next == (if j + 1 < |d| then d[j + 1] else NULL)
      ensures hs'[d[j]].prev == (if j > 0 then d[j - 1] else NULL)
    {
      if j > 0 {
        var k := j - 1;
        assert d[j] == c[k] && (j + 1 < |d| ==> d[j + 1] == c[k + 1]) && (k > 0 ==> d[j - 1] == c[k - 1]);
        LinkedAt(hs, c, head, k);
      } else {
        assert d[j] == x && (1 < |d| ==> d[1] == first);
      }
    }
    MakeLinked(hs', d, x);
  }

  lemma DistinctCons(x: Addr, c: seq<Addr>)
    requires Distinct(c) && x !in c
    ensures Distinct([x] + c)
  {
    var d := [x] + c;
    forall i: nat, j: nat | i < j < |d|
      ensures d[i] != d[j]
    {
      assert d[j] == c[j - 1] && c[j - 1] in c;
      if i > 0 {
        assert d[i] == c[i - 1];
      }
    }
  }

  lemma ChainFacts(b: Books, p: nat, q: nat, y: Addr)
    requires ChainsOk(b) && p in b.pools && q in b.pools && y in b.chains[q]
    ensures y in b.headers && (q != p && b.chains[p] != [] ==> y != b.pools[p].blocks)
  {
    LinkedIn(b.headers, b.chains[q], b.pools[q].blocks, y);
    if b.chains[p] != [] {
      LinkedAt(b.headers, b.chains[p], b.pools[p].blocks, 0);
      assert b.chains[p][0] in b.chains[p];
    }
  }

  lemma LinkChains(b: Books, p: nat, x: Addr, size: nat)
    requires ChainsOk(b) && p in b.pools && p in b.chains && x !in b.headers && x != NULL
    ensures ChainsOk(Link(b, p, x, size))
  {
    hide Linked;
    forall q | q in b.pools
      ensures q in b.chains
      ensures var b' := Link(b, p, x, size); Linked(b'.headers, b'.chains[q], b'.pools[q].blocks)
      ensures forall y | y in b.chains[q] :: y in b.headers
    {
      LinkChain(b, p, x, size, q);
    }
    LinkDisjoint(b, p, x, size);
  }

  lemma LinkChain(b: Books, p: nat, x: Addr, size: nat, q: nat)
    requires ChainsOk(b) && p in b.pools && p in b.chains && x !in b.headers && x != NULL && q in b.pools
    ensures q in b.chains
    ensures var b' := Link(b, p, x, size); Linked(b'.headers, b'.chains[q], b'.pools[q].blocks)
    ensures forall y | y in b.chains[q] :: y in b.headers
  {
    hide Linked;
    forall y | y in b.chains[q]
      ensures y in b.headers && (q != p && b.chains[p] != [] ==> y != b.pools[p].blocks)
    {
      ChainFacts(b, p, q, y);
    }
    LinkedAfter(b, p, x, size, q);
  }

  lemma LinkDisjoint(b: Books, p: nat, x: Addr, size: nat)
    requires b.chains.Keys == b.pools.Keys && p in b.pools && x !in b.headers
    requires forall q, y | q in b.pools && y in b.chains[q] :: y in b.headers
    requires forall p, q, y | p in b.pools && q in b.pools && y in b.chains[p] && y in b.chains[q] :: p == q
    ensures var b' := Link(b, p, x, size);
            forall p, q, y | p in b'.pools && q in b'.pools && y in b'.chains[p] && y in b'.chains[q] :: p == q
  {
  }

  lemma LinkedAfter(b: Books, p: nat, x: Addr, size: nat, q: nat)
    requires p in b.pools && p in b.chains && x !in b.headers && x != NULL
    requires q in b.pools && q in b.chains
    requires Linked(b.headers, b.chains[p], b.pools[p].blocks) && Linked(b.headers, b.chains[q], b.pools[q].blocks)
    requires forall y | y in b.chains[q] :: y in b.headers && (q != p && b.chains[p] != [] ==> y != b.pools[p].blocks)
    ensures Linked(Link(b, p, x, size).headers, Link(b, p, x, size).chains[q], Link(b, p, x, size).pools[q].blocks)
  {
    var b' := Link(b, p, x, size);
    var c, head := b.chains[p], b.pools[p].blocks;
    if c != [] {
      LinkedAt(b.headers, c, head, 0);
    }
    hide Linked;
    if q == p {
      LinkedFirst(b.headers, b'.headers, c, head, x);
    } else {
      LinkedSame(b.headers, b'.headers, b.chains[q], b.pools[q].blocks);
    }
  }

  lemma {:induction false} UnitsNone(objs: map<Addr, Obj>, x: Addr)
    requires forall a | a in objs :: objs[a].block != x
    ensures UnitsOf(objs, x) == 0
    decreases |objs|
  {
    if a :| a in objs {
      UnitsSplit(objs, x, a);
      UnitsNone(objs - {a}, x);
    } else {
      assert objs == map[];
    }
  }

  lemma LinkHeaders(b: Books, p: nat, x: Addr, size: nat)
    requires HeadersOk(b.headers) && p in b.pools && p in b.chains
    requires UNIT <= size < WORD && size % BLOCK == 0 && Unused(b.headers, x, size)
    ensures HeadersOk(Link(b, p, x, size).headers)
  {
    var hs' := Link(b, p, x, size).headers;
    UnitCountExact(size);
    hide UnitCount;
    forall y | y in hs'
      ensures HeaderOk(y, hs'[y]) && hs'[y].size == (if y == x then size else b.headers[y].size)
    {
      assert y != x ==> HeaderOk(y, b.headers[y]);
    }
    hide HeaderOk, Link;
    assert hs'.Keys == b.headers.Keys + {x} by { LinkKeys(b, p, x, size); }
  }

  lemma LinkKeys(b: Books, p: nat, x: Addr, size: nat)
    requires p in b.pools && p in b.chains
    ensures Link(b, p, x, size).headers.Keys == b.headers.Keys + {x}
  {
  }

  lemma LinkObjs(b: Books, p: nat, x: Addr, size: nat)
    requires ObjsOk(b) && Accounts(b) && p in b.pools && p in b.chains && x !in b.headers
    ensures ObjsOk(Link(b, p, x, size)) && Accounts(Link(b, p, x, size))
  {
    forall a | a in b.objs
      ensures b.objs[a].block != x
    {
      assert ObjOk(b, a);
    }
    UnitsNone(b.objs, x);
    hide ObjsOk;
    LinkAccounts(b, p, x, size);
    hide Accounts;
    ObjsSame(b, Link(b, p, x, size));
  }

  lemma LinkAccounts(b: Books, p: nat, x: Addr, size: nat)
    requires Accounts(b) && p in b.pools && p in b.chains && x !in b.headers && UnitsOf(b.objs, x) == 0
    ensures Accounts(Link(b, p, x, size))
  {
  }

  lemma LinkLists(b: Books, p: nat, x: Addr, size: nat)
    requires ListsOk(b) && p in b.pools && p in b.chains
    ensures ListsOk(Link(b, p, x, size))
  {
    hide ListsOk;
    HeadsSame(b, Link(b, p, x, size));
  }

  lemma LinkSound(b: Books, p: nat, x: Addr, size: nat)
    requires Sound(b) && p in b.pools && p in b.chains && UNIT <= size < WORD && size % BLOCK == 0
    requires Unused(b.headers, x, size)
    ensures Sound(Link(b, p, x, size))
  {
    LinkCached(b, p, x, size);
    hide HeadersOk, ObjsOk, Accounts, ListsOk, CachedOk, ChainsOk;
    LinkChains(b, p, x, size);
    LinkHeaders(b, p, x, size);
    LinkObjs(b, p, x, size);
    LinkLists(b, p, x, size);
    hide Link, Unused;
  }

  lemma LinkCached(b: Books, p: nat, x: Addr, size: nat)
    requires CachedOk(b) && p in b.pools && p in b.chains
    ensures CachedOk(Link(b, p, x, size))
  {
  }

  lemma Neighbours(b: Books, p: nat, j: nat)
    requires Sound(b) && p in b.pools && p in b.chains && j < |b.chains[p]| && b.chains[p][j] in b.headers
    ensures var h := b.headers[b.chains[p][j]];
            && (h.prev != NULL ==> h.prev in b.headers && h.prev != b.chains[p][j])
            && (h.next != NULL ==> h.next in b.headers && h.next != b.chains[p][j])
            && h.next == (if j + 1 < |b.chains[p]| then b.chains[p][j + 1] else NULL)
  {
    var c, head := b.chains[p], b.pools[p].blocks;
    assert Linked(b.headers, c, head);
    LinkedAt(b.headers, c, head, j);
    if j > 0 { LinkedAt(b.headers, c, head, j - 1); }
    if j + 1 < |c| { LinkedAt(b.headers, c, head, j + 1); }
  }

  lemma FirstIsBlock(b: Books, p: nat)
    requires Sound(b) && p in b.pools
    ensures InPool(b, p, 0)
    ensures b.lists.Keys == b.pools.Keys == b.chains.Keys
    ensures b.pools[p].blocks == if |b.chains[p]| == 0 then NULL else b.chains[p][0]
    ensures forall y | y in b.chains[p] :: y in b.headers && y != NULL
  {
    assert Linked(b.headers, b.chains[p], b.pools[p].blocks);
    forall y | y in b.chains[p]
      ensures y in b.headers && y != NULL
    {
      LinkedIn(b.headers, b.chains[p], b.pools[p].blocks, y);
    }
  }

  // ---------- The pools ----------

  /** How the size of the next block follows the share of requests that needed a new block. */
  function Tuned(pl: Pool): Pool {
    if pl.misses == 0 then pl
    else if pl.allocations / pl.misses <= 2 then pl.(exp := pl.exp + 1)
    else pl.(exp := if pl.exp == 0 then 0 else pl.exp - 1)
  }

  /** A request is counted. */
  function Asked(pl: Pool): Pool {
    pl.(allocations := pl.allocations + 1)
  }

  /** A request that no freed object and no block can serve is counted, too. */
  function Missed(pl: Pool): Pool {
    Tuned(pl.(misses := pl.misses + 1))
  }

  function WithPool(b: Books, p: nat, pl: Pool): Books {
    b.(pools := b.pools[p := pl])
  }

  /** The counters of a pool mean nothing to the objects. */
  lemma WithPoolSound(b: Books, p: nat, pl: Pool)
    requires Sound(b) && p in b.pools && pl.heads == b.pools[p].heads && pl.blocks == b.pools[p].blocks
    ensures Sound(WithPool(b, p, pl))
  {
    var b' := WithPool(b, p, pl);
    CountersSame(b, b');
    hide HeadersOk, ObjsOk, Accounts, ListsOk, CachedOk, ChainsOk;
    HeadsSame(b, b');
  }

  lemma CountersSame(b: Books, b': Books)
    requires ObjsOk(b) && Accounts(b) && CachedOk(b) && ChainsOk(b) && b'.(pools := b.pools) == b
    requires b'.pools.Keys == b.pools.Keys && forall q | q in b.pools :: b'.pools[q].blocks == b.pools[q].blocks
    ensures ObjsOk(b') && Accounts(b') && CachedOk(b') && ChainsOk(b')
  {
    hide ObjsOk, ChainsOk;
    ObjsSame(b, b');
    ChainsSame(b, b');
  }

  predicate HasRoom(b: Books, x: Addr, k: nat)
    requires x in b.headers
  {
    b.headers[x].index + k <= b.headers[x].unitCount
  }

  /** The walk over the blocks of a pool from the `j`-th on: it takes the first room it finds, and
      releases the blocks on the way that are not needed any more.  NULL: there is no room. */
  function Walk(b: Books, p: nat, j: nat, k: nat, n: nat): (r: (Books, Addr))
    requires InPool(b, p, 0) && j <= |b.chains[p]| && k >= 1
    ensures InPool(r.0, p, 0)
    decreases |b.chains[p]| - j
  {
    if j == |b.chains[p]| || b.chains[p][j] !in b.headers then (b, NULL)
    else
      var x := b.chains[p][j];
      if HasRoom(b, x, k) then (Bump(b, x, k, n), UnitAt(x, b.headers[x].index))
      else if b.headers[x].gaveBack == b.headers[x].unitCount then Walk(Unlink(b, p, j), p, j, k, n)
      else Walk(b, p, j + 1, k, n)
  }

  /** `Elsewhere`: the request is for the general memory resource, not for the pool. */
  datatype Result = Object(addr: Addr) | OutOfMemory | Elsewhere

  /** No block has room.  A new one is made at `x`, if the memory resource is not `full`. */
  function Open(b: Books, p: nat, k: nat, n: nat, full: bool, x: Addr): (Books, Result)
    requires InPool(b, p, 0) && k >= 1
  {
    var missed := WithPool(b, p, Missed(b.pools[p]));
    if full then (missed, OutOfMemory)
    else (Bump(Link(missed, p, x, BlockBytes(missed.pools[p].exp)), x, k, n), Object(UnitAt(x, 0)))
  }

  /** What a request of `n` bytes on pool `p` does. */
  function Request(b: Books, p: nat, n: nat, full: bool, x: Addr): (Books, Result)
    requires InPool(b, p, 0)
  {
    var k := UnitsFor(n);
    var asked := WithPool(b, p, Asked(b.pools[p]));
    if NeededSize(n) > LARGEST then (b, Elsewhere)
    else if CanPop(asked, p, k - 1) then
      var popped := Pop(asked, p, k - 1, n);
      (WithPool(popped, p, Tuned(popped.pools[p])), Object(asked.pools[p].heads[k - 1]))
    else
      var walked := Walk(asked, p, 0, k, n);
      if walked.1 != NULL then (walked.0, Object(walked.1)) else Open(walked.0, p, k, n, full, x)
  }

  /** The books after the walk of a request. */
  function Walked(b: Books, p: nat, n: nat): (Books, Addr)
    requires InPool(b, p, 0)
  {
    Walk(WithPool(b, p, Asked(b.pools[p])), p, 0, UnitsFor(n), n)
  }

  /** The request finds neither a freed object nor room in a block. */
  predicate Misses(b: Books, p: nat, n: nat)
    requires InPool(b, p, 0)
  {
    NeededSize(n) <= LARGEST && !CanPop(b, p, UnitsFor(n) - 1) && Walked(b, p, n).1 == NULL
  }

  /** The exponent after the next miss. */
  function NextExp(pl: Pool): nat {
    Missed(Asked(pl)).exp
  }

  /** The request opens a block whose size wraps to zero. */
  predicate OpensEmpty(b: Books, p: nat, n: nat, full: bool)
    requires InPool(b, p, 0)
  {
    Misses(b, p, n) && !full && NextExp(b.pools[p]) >= 52
  }

  /** The memory resource answers with unused memory, if it is asked. */
  predicate Answered(b: Books, p: nat, n: nat, full: bool, x: Addr)
    requires InPool(b, p, 0)
  {
    Misses(b, p, n) && !full ==> Unused(Walked(b, p, n).0.headers, x, BlockBytes(NextExp(b.pools[p])))
  }

  predicate CanFree(b: Books, p: nat, a: Addr, n: nat) {
    && InPool(b, p, 0) && a in b.objs && b.objs[a].place == Live(n) && 1 <= b.objs[a].units <= CLASSES
    && b.objs[a].block in b.headers
  }

  /** What freeing an object of `n` bytes on pool `p` does: it is cached by the pool up to the length
      limit, and else its units go back to its block. */
  function Released(b: Books, p: nat, a: Addr, n: nat): Books
    requires NeededSize(n) <= LARGEST ==> CanFree(b, p, a, n)
  {
    if NeededSize(n) > LARGEST then b
    else if |b.lists[p][b.objs[a].units - 1]| <= THRESHOLD then Push(b, p, a)
    else GiveBack(b, a)
  }

  // ---------- What a request does for its caller ----------

  /** What other threads can see of the pools: everything but pool `p` is as before. */
  ghost predicate OthersKept(b: Books, was: Books, p: nat) {
    && b.pools.Keys == was.pools.Keys && b.lists.Keys == was.lists.Keys && b.chains.Keys == was.chains.Keys
    && forall q | q in b.pools && q in b.lists && q in b.chains && q != p ::
         b.pools[q] == was.pools[q] && b.lists[q] == was.lists[q] && b.chains[q] == was.chains[q]
  }

  /** The request is answered with an object that nobody else has: it is new, or it was cached by this
      pool.  All other objects are as before, and so is every word outside the object. */
  ghost predicate Served(b: Books, was: Books, p: nat, a: Addr, n: nat) {
    && a in b.objs && b.objs[a].place == Live(n) && b.objs[a].units == UnitsFor(n)
    && (a in was.objs ==> was.objs[a].place.Cached? && was.objs[a].place.pool == p
                          && b.objs[a] == was.objs[a].(place := Live(n)))
    && b.objs - {a} == was.objs - {a}
    && (forall w: Addr | !(a <= w < a + UNIT * b.objs[a].units) :: Agree(was.mem, b.mem, w))
    && OthersKept(b, was, p)
  }

  /** Nothing but the pool's own lists of blocks and counters changed. */
  ghost predicate Unserved(b: Books, was: Books, p: nat) {
    b.objs == was.objs && b.mem == was.mem && OthersKept(b, was, p)
  }

  lemma Itself(b: Books, p: nat)
    ensures Unserved(b, b, p)
  {
  }

  lemma KeptOn(b: Books, mid: Books, was: Books, p: nat)
    requires Unserved(b, mid, p) && Unserved(mid, was, p)
    requires mid.lists.Keys == mid.pools.Keys == mid.chains.Keys
    ensures Unserved(b, was, p)
  {
  }

  lemma ServedOn(b: Books, mid: Books, was: Books, p: nat, a: Addr, n: nat)
    requires Served(b, mid, p, a, n) && Unserved(mid, was, p)
    requires mid.lists.Keys == mid.pools.Keys == mid.chains.Keys
    ensures Served(b, was, p, a, n)
  {
  }

  lemma WithPoolKeeps(b: Books, was: Books, p: nat, pl: Pool)
    requires Unserved(b, was, p) && p in b.pools
    ensures Unserved(WithPool(b, p, pl), was, p)
  {
  }

  lemma WithPoolServes(b: Books, was: Books, p: nat, pl: Pool, a: Addr, n: nat)
    requires Served(b, was, p, a, n) && p in b.pools
    ensures Served(WithPool(b, p, pl), was, p, a, n)
  {
  }

  lemma UnlinkKeeps(b: Books, was: Books, p: nat, j: nat)
    requires Unserved(b, was, p) && p in b.pools && p in b.chains && j < |b.chains[p]| && b.chains[p][j] in b.headers
    ensures Unserved(Unlink(b, p, j), was, p)
  {
    hide Relinked;
  }

  lemma LinkKeeps(b: Books, was: Books, p: nat, x: Addr, size: nat)
    requires Unserved(b, was, p) && p in b.pools && p in b.chains
    ensures Unserved(Link(b, p, x, size), was, p)
  {
  }

  lemma PopServes(b: Books, p: nat, i: nat, n: nat)
    requires CanPop(b, p, i) && UnitsFor(n) == i + 1
    requires b.objs[b.pools[p].heads[i]].units == i + 1
    requires b.objs[b.pools[p].heads[i]].place == Cached(p, |b.lists[p][i]| - 1)
    ensures Served(Pop(b, p, i, n), b, p, b.pools[p].heads[i], n)
  {
    hide UnitsFor;
  }

  lemma BumpServes(b: Books, was: Books, p: nat, x: Addr, n: nat)
    requires x in b.headers && UnitAt(x, b.headers[x].index) !in b.objs && Unserved(b, was, p)
    ensures Served(Bump(b, x, UnitsFor(n), n), was, p, UnitAt(x, b.headers[x].index), n)
  {
    hide UnitsFor;
  }

  lemma UnlinkPools(b: Books, p: nat, j: nat)
    requires Sound(b) && p in b.pools && p in b.chains && j < |b.chains[p]| && b.chains[p][j] in b.headers
    ensures var b' := Unlink(b, p, j);
            && b'.pools[p].(blocks := b.pools[p].blocks) == b.pools[p]
            && |b'.chains[p]| == |b.chains[p]| - 1 && b'.chains[p][..j] == b.chains[p][..j]
            && b'.lists.Keys == b'.pools.Keys == b'.chains.Keys && InPool(b', p, 0)
  {
    FirstIsBlock(b, p);
    hide Sound, Relinked;
  }

  /** The walk ends, releases only blocks that nothing lives in, and serves the request if it finds
      room. */
  lemma {:induction false} WalkSound(b: Books, p: nat, j: nat, n: nat)
    requires Sound(b) && InPool(b, p, 0) && j <= |b.chains[p]| && NeededSize(n) <= LARGEST
    ensures var r := Walk(b, p, j, UnitsFor(n), n);
            && Sound(r.0) && r.0.pools[p].(blocks := b.pools[p].blocks) == b.pools[p]
            && (if r.1 == NULL then Unserved(r.0, b, p) else Served(r.0, b, p, r.1, n))
    decreases |b.chains[p]| - j
  {
    var k := UnitsFor(n);
    assert Fits(n, k);
    hide Sound, Served, Fits, UnitsFor, Unlink, Unserved;
    Itself(b, p);
    FirstIsBlock(b, p);
    if j < |b.chains[p]| {
      var x := b.chains[p][j];
      assert x in b.chains[p];
      if HasRoom(b, x, k) {
        BumpSound(b, x, k, n);
        BumpServes(b, b, p, x, n);
      } else if b.headers[x].gaveBack == b.headers[x].unitCount {
        UnlinkSound(b, p, j);
        UnlinkKeeps(b, b, p, j);
        UnlinkPools(b, p, j);
        var b1 := Unlink(b, p, j);
        WalkSound(b1, p, j, n);
        var r := Walk(b1, p, j, k, n);
        if r.1 == NULL {
          KeptOn(r.0, b1, b, p);
        } else {
          ServedOn(r.0, b1, b, p, r.1, n);
        }
      } else {
        WalkSound(b, p, j + 1, n);
      }
    }
  }

  /** The object lies in a block without any bytes. */
  predicate Outside(b: Books, a: Addr) {
    a in b.objs && b.objs[a].block in b.headers && b.headers[b.objs[a].block].size == 0
  }

  /** A new block has room for any request, and is sound exactly when its size did not wrap. */
  lemma OpenSound(b: Books, p: nat, n: nat, full: bool, x: Addr)
    requires Sound(b) && InPool(b, p, 0) && NeededSize(n) <= LARGEST
    requires !full ==> Unused(b.headers, x, BlockBytes(Missed(b.pools[p]).exp))
    ensures var r, e := Open(b, p, UnitsFor(n), n, full, x), Missed(b.pools[p]).exp;
            && (Sound(r.0) <==> full || e < 52)
            && (full ==> r.1 == OutOfMemory && Unserved(r.0, b, p))
            && (!full ==> r.1 == Object(UnitAt(x, 0)))
            && (!full && e >= 52 ==> Outside(r.0, UnitAt(x, 0)))
            && (!full && e < 52 ==> Served(r.0, b, p, UnitAt(x, 0), n))
  {
    var pl := Missed(b.pools[p]);
    var missed := WithPool(b, p, pl);
    WithPoolSound(b, p, pl);
    Itself(b, p);
    WithPoolKeeps(b, b, p, pl);
    if !full {
      BlockBytesExact(pl.exp);
      var size := BlockBytes(pl.exp);
      var k := UnitsFor(n);
      assert Fits(n, k);
      FitsUnits(n, k);
      var linked := Link(missed, p, x, size);
      LinkIsNew(missed, p, x, size);
      hide BlockBytes, Missed, Sound, Served, Unserved, Fits, UnitsFor, Unused, Outside;
      if pl.exp < 52 {
        LinkSound(missed, p, x, size);
        BumpSound(linked, x, k, n);
        LinkKeeps(missed, b, p, x, size);
        BumpServes(linked, b, p, x, n);
      } else {
        EmptyIsUnsound(linked, x, k, n);
      }
    }
  }

  lemma LinkIsNew(b: Books, p: nat, x: Addr, size: nat)
    requires p in b.pools && p in b.chains && size < WORD
    ensures var h := Link(b, p, x, size).headers;
            x in h && h[x].size == size && h[x].index == 0 && (size == 0 || size >= BLOCK ==> CLASSES <= h[x].unitCount)
  {
    UnitCountExact(size);
  }

  lemma EmptyIsUnsound(b: Books, x: Addr, k: nat, n: nat)
    requires x in b.headers && b.headers[x].size == 0 && b.headers[x].index == 0 && k >= 1
    ensures !Sound(Bump(b, x, k, n)) && Outside(Bump(b, x, k, n), UnitAt(x, 0))
  {
    var b' := Bump(b, x, k, n);
    assert !HeaderOk(x, b'.headers[x]);
    hide ObjsOk, Accounts, ListsOk, ChainsOk, CachedOk;
  }

  /** A freed object of the right size is reused. */
  lemma ReuseSound(b: Books, p: nat, i: nat, n: nat)
    requires Sound(b) && p in b.pools && i < CLASSES && CanPop(b, p, i) && Fits(n, i + 1)
    ensures var popped := Pop(b, p, i, n);
            p in popped.pools && var b' := WithPool(popped, p, Tuned(popped.pools[p]));
            Sound(b') && Served(b', b, p, b.pools[p].heads[i], n)
  {
    assert UnitsFor(n) == i + 1;
    hide Fits, UnitsFor, Tuned, Sound, Served, Pop, Unserved;
    CanPopExact(b, p, i);
    PopSound(b, p, i, n);
    PopServes(b, p, i, n);
    var popped := Pop(b, p, i, n);
    PopPools(b, p, i, n);
    TunedLists(popped.pools[p]);
    WithPoolSound(popped, p, Tuned(popped.pools[p]));
    WithPoolServes(popped, b, p, Tuned(popped.pools[p]), b.pools[p].heads[i], n);
  }

  lemma PopPools(b: Books, p: nat, i: nat, n: nat)
    requires CanPop(b, p, i)
    ensures p in Pop(b, p, i, n).pools
  {
  }

  lemma ReuseCase(b: Books, p: nat, n: nat, full: bool, x: Addr)
    requires Sound(b) && InPool(b, p, 0) && NeededSize(n) <= LARGEST && CanPop(b, p, UnitsFor(n) - 1)
    ensures var r := Request(b, p, n, full, x);
            Sound(r.0) && r.1.Object? && Served(r.0, b, p, r.1.addr, n)
  {
    FitsUnits(n, UnitsFor(n));
    hide UnitsFor, Walk, Tuned, Sound, Pop, Served, Unserved;
    var asked := WithPool(b, p, Asked(b.pools[p]));
    WithPoolSound(b, p, Asked(b.pools[p]));
    Itself(b, p);
    WithPoolKeeps(b, b, p, Asked(b.pools[p]));
    FirstIsBlock(asked, p);
    ReuseSound(asked, p, UnitsFor(n) - 1, n);
    var r := Request(b, p, n, full, x);
    ServedOn(r.0, asked, b, p, asked.pools[p].heads[UnitsFor(n) - 1], n);
  }

  lemma TunedLists(pl: Pool)
    ensures Tuned(pl).heads == pl.heads && Tuned(pl).blocks == pl.blocks
    ensures Tuned(pl).allocations == pl.allocations && Tuned(pl).misses == pl.misses
  {
  }

  /** No freed object, and the walk found no room. */
  lemma MissCase(b: Books, p: nat, n: nat, full: bool, x: Addr)
    requires Sound(b) && InPool(b, p, 0) && Misses(b, p, n) && Answered(b, p, n, full, x)
    ensures var r := Request(b, p, n, full, x);
            && (Sound(r.0) <==> full || NextExp(b.pools[p]) < 52)
            && (full ==> r.1 == OutOfMemory && Unserved(r.0, b, p))
            && (!full ==> r.1 == Object(UnitAt(x, 0)))
            && (!full && NextExp(b.pools[p]) >= 52 ==> Outside(r.0, UnitAt(x, 0)))
            && (!full && NextExp(b.pools[p]) < 52 ==> Served(r.0, b, p, UnitAt(x, 0), n))
  {
    hide Sound, Fits, UnitsFor, Walk, Open, Unused, Served, Unserved, BlockBytes, Outside;
    var asked := WithPool(b, p, Asked(b.pools[p]));
    WithPoolSound(b, p, Asked(b.pools[p]));
    Itself(b, p);
    WithPoolKeeps(b, b, p, Asked(b.pools[p]));
    FirstIsBlock(asked, p);
    WalkSound(asked, p, 0, n);
    var walked := Walk(asked, p, 0, UnitsFor(n), n);
    assert Missed(walked.0.pools[p]).exp == NextExp(b.pools[p]);
    KeptOn(walked.0, asked, b, p);
    FirstIsBlock(walked.0, p);
    OpenSound(walked.0, p, n, full, x);
    var r := Open(walked.0, p, UnitsFor(n), n, full, x);
    if full {
      KeptOn(r.0, walked.0, b, p);
    } else if NextExp(b.pools[p]) < 52 {
      ServedOn(r.0, walked.0, b, p, UnitAt(x, 0), n);
    }
  }

  /** A request on sound books: what its caller gets, and that the books stay sound unless a block of
      zero bytes is opened. */
  lemma RequestSound(b: Books, p: nat, n: nat, full: bool, x: Addr)
    requires Sound(b) && InPool(b, p, 0) && Answered(b, p, n, full, x)
    ensures var r := Request(b, p, n, full, x);
            && (Sound(r.0) <==> !OpensEmpty(b, p, n, full))
            && (r.1 == Elsewhere <==> NeededSize(n) > LARGEST) && (r.1 == Elsewhere ==> r.0 == b)
            && (r.1 == OutOfMemory <==> Misses(b, p, n) && full)
            && (r.1 == OutOfMemory ==> Unserved(r.0, b, p))
            && (r.1.Object? && !OpensEmpty(b, p, n, full) ==> Served(r.0, b, p, r.1.addr, n))
            && (OpensEmpty(b, p, n, full) ==> r.1 == Object(UnitAt(x, 0)) && Outside(r.0, UnitAt(x, 0)))
  {
    hide Sound, UnitsFor, Unused, Served, Unserved, Walk, Open, Pop, Outside;
    if NeededSize(n) <= LARGEST {
      if CanPop(b, p, UnitsFor(n) - 1) {
        ReuseCase(b, p, n, full, x);
      } else if Misses(b, p, n) {
        MissCase(b, p, n, full, x);
      } else {
        var asked := WithPool(b, p, Asked(b.pools[p]));
        WithPoolSound(b, p, Asked(b.pools[p]));
        Itself(b, p);
        WithPoolKeeps(b, b, p, Asked(b.pools[p]));
        FirstIsBlock(asked, p);
        WalkSound(asked, p, 0, n);
        var walked := Walk(asked, p, 0, UnitsFor(n), n);
        ServedOn(walked.0, asked, b, p, walked.1, n);
      }
    }
  }

  /** Freeing a live object keeps the books sound. */
  lemma ReleasedSound(b: Books, p: nat, a: Addr, n: nat)
    requires Sound(b) && (NeededSize(n) <= LARGEST ==> CanFree(b, p, a, n))
    ensures Sound(Released(b, p, a, n))
  {
    if NeededSize(n) <= LARGEST {
      hide Sound;
      FirstIsBlock(b, p);
      PushSound(b, p, a);
      GiveBackSound(b, a);
    }
  }

  lemma UnlinkNext(b: Books, p: nat, j: nat)
    requires Sound(b) && p in b.pools && p in b.chains && j < |b.chains[p]| && b.chains[p][j] in b.headers
    ensures var c, c' := b.chains[p], Unlink(b, p, j).chains[p];
            (if j == |c'| then NULL else c'[j]) == (if j + 1 < |c| then c[j + 1] else NULL)
  {
    hide Sound, Relinked;
  }

  lemma NoMissAnswered(b: Books, p: nat, n: nat, full: bool)
    requires InPool(b, p, 0)
    ensures Misses(b, p, n) || Answered(b, p, n, full, NULL)
  {
  }

  /** What the memory resource answers in a new block is what the request asks of it. */
  lemma MissAnswered(b: Books, p: nat, n: nat, full: bool, x: Addr)
    requires Sound(b) && InPool(b, p, 0) && NeededSize(n) <= LARGEST
    requires !full ==> Unused(Walked(b, p, n).0.headers, x, BlockBytes(Missed(Walked(b, p, n).0.pools[p]).exp))
    ensures Answered(b, p, n, full, x)
  {
    hide Sound, UnitsFor, Walk, Unused, BlockBytes, Served, Unserved;
    WithPoolSound(b, p, Asked(b.pools[p]));
    WalkSound(WithPool(b, p, Asked(b.pools[p])), p, 0, n);
  }

  /** What a request does to the counters of its pool. */
  lemma RequestCounts(b: Books, p: nat, n: nat, full: bool, x: Addr)
    requires Sound(b) && InPool(b, p, 0) && NeededSize(n) <= LARGEST
    ensures var pl, b' := b.pools[p], Request(b, p, n, full, x).0;
            p in b'.pools && var pl' := b'.pools[p];
            && pl'.allocations == pl.allocations + 1
            && pl'.misses == pl.misses + (if Misses(b, p, n) then 1 else 0)
            && pl'.exp == (if Misses(b, p, n) then NextExp(pl)
                           else if CanPop(b, p, UnitsFor(n) - 1) then Tuned(Asked(pl)).exp
                           else pl.exp)
  {
    hide Sound, UnitsFor, Walk, Unserved, Served, Relinked, BlockBytes, Outside;
    var asked := WithPool(b, p, Asked(b.pools[p]));
    WithPoolSound(b, p, Asked(b.pools[p]));
    if !CanPop(b, p, UnitsFor(n) - 1) {
      WalkSound(asked, p, 0, n);
    }
  }

  /** The owner word of an object names its block, and a live object has the units of its size. */
  lemma OwnerNamed(b: Books, a: Addr)
    requires Sound(b) && a in b.objs
    ensures 1 <= b.objs[a].units <= CLASSES && b.objs[a].block in b.headers
    ensures Holds(b.mem, OwnerAt(a, b.objs[a].units), b.objs[a].block)
    ensures b.objs[a].place.Live? ==> Fits(b.objs[a].place.bytes, b.objs[a].units)
  {
    assert ObjOk(b, a);
  }

  function Nulls(): seq<Addr> {
    seq(CLASSES, _ => NULL)
  }

  function Nothing(): seq<seq<Addr>> {
    seq(CLASSES, _ => [])
  }

  /** The pools of some threads before the first request. */
  function Start(threads: set<nat>): Books {
    Books(map[], map[], map p | p in threads :: Pool(Nulls(), NULL, 0, 0, 0),
          map[], map p | p in threads :: Nothing(), map p | p in threads :: [])
  }

  lemma StartSound(threads: set<nat>)
    ensures Sound(Start(threads))
  {
  }

  lemma {:induction false} UnusedExists(hs: map<Addr, Header>, size: nat) returns (x: Addr)
    ensures Unused(hs, x, size)
    ensures forall y | y in hs :: y + hs[y].size < x
    decreases |hs|
  {
    if y :| y in hs {
      x := UnusedExists(hs - {y}, size);
      x := x + BLOCK * (y + hs[y].size + 1);
      assert forall z | z in hs :: z == y || z in hs - {y};
    } else {
      x := BLOCK;
    }
  }

  class CoroutinePools {
    var headers: map<Addr, Header>
    var mem: map<Addr, nat>
    var pools: map<nat, Pool>
    ghost var objs: map<Addr, Obj>
    ghost var lists: map<nat, seq<seq<Addr>>>
    ghost var chains: map<nat, seq<Addr>>

    ghost function Now(): Books
      reads this
    {
      Books(headers, mem, pools, objs, lists, chains)
    }

    ghost predicate Valid()
      reads this
    {
      Sound(Now())
    }

    /** The pools of some threads before the first request. */
    constructor (threads: set<nat>)
      ensures Valid() && Now() == Start(threads)
    {
      headers, mem, objs := map[], map[], map[];
      pools := map p | p in threads :: Pool(Nulls(), NULL, 0, 0, 0);
      lists := map p | p in threads :: Nothing();
      chains := map p | p in threads :: [];
      new;
      StartSound(threads);
    }

    /** `block::allocate`, for an object of `n` bytes. */
    method BumpFrom(x: Addr, k: nat, ghost n: nat) returns (a: Addr)
      requires x in headers && k >= 1
      modifies this
      ensures x in old(headers)
      ensures if old(HasRoom(Now(), x, k))
              then Now() == Bump(old(Now()), x, k, n) && a == UnitAt(x, old(headers[x].index)) && a != NULL
              else a == NULL && Now() == old(Now())
    {
      var h := headers[x];
      if h.index + k > h.unitCount {
        return NULL;
      }
      a := UnitAt(x, h.index);
      mem := mem[OwnerAt(a, k) := x];
      headers := headers[x := h.(index := h.index + k)];
      objs := objs[a := Obj(x, h.index, k, Live(n))];
    }

    /** A freed object is reused, and the size of the next block is tuned. */
    method Reuse(p: nat, i: nat, ghost n: nat) returns (a: Addr)
      requires CanPop(Now(), p, i)
      modifies this
      ensures old(CanPop(Now(), p, i)) && a == old(pools[p].heads[i]) && p in Pop(old(Now()), p, i, n).pools
      ensures var popped := Pop(old(Now()), p, i, n); Now() == WithPool(popped, p, Tuned(popped.pools[p]))
    {
      hide Tuned;
      a := pools[p].heads[i];
      pools := pools[p := pools[p].(heads := pools[p].heads[i := mem[a]])];
      objs := objs[a := objs[a].(place := Live(n))];
      lists := lists[p := lists[p][i := lists[p][i][..|lists[p][i]| - 1]]];
      pools := pools[p := Tuned(pools[p])];
    }

    /** A block of which everything was given back goes back to the memory resource. */
    method Release(p: nat, x: Addr, ghost j: nat)
      requires Valid() && p in pools && p in chains && j < |chains[p]| && chains[p][j] == x && x in headers
      requires headers[x].gaveBack == headers[x].unitCount
      modifies this
      ensures Valid() && p in old(pools) && p in old(chains) && j < |old(chains[p])| && old(chains[p][j] in headers)
      ensures Now() == Unlink(old(Now()), p, j)
      ensures forall a | a in objs :: objs[a].block != x
    {
      hide Sound;
      ghost var was := Now();
      UnlinkSound(was, p, j);
      Neighbours(was, p, j);
      var h := headers[x];
      if h.prev != NULL {
        headers := headers[h.prev := headers[h.prev].(next := h.next)];
      } else {
        pools := pools[p := pools[p].(blocks := h.next)];
      }
      if h.next != NULL {
        headers := headers[h.next := headers[h.next].(prev := h.prev)];
      }
      headers := headers - {x};
      chains := chains[p := chains[p][..j] + chains[p][j + 1..]];
    }

    /** The memory resource finds memory, and a block is made there and put in front. */
    method NewBlock(p: nat, size: nat) returns (x: Addr)
      requires Valid() && p in pools && p in chains
      modifies this
      ensures p in old(pools) && p in old(chains)
      ensures Unused(old(headers), x, size) && Now() == Link(old(Now()), p, x, size)
    {
      hide Sound;
      ghost var z := UnusedExists(headers, size);
      x :| Unused(headers, x, size);
      FirstIsBlock(Now(), p);
      var head := pools[p].blocks;
      var h := Header(size, UnitCount(size), NULL, head, 0, 0);
      if head != NULL {
        headers := headers[head := headers[head].(prev := x)];
      }
      headers := headers[x := h];
      pools := pools[p := pools[p].(blocks := x)];
      chains := chains[p := [x] + chains[p]];
    }

    /** The walk over the blocks of the pool.  NULL: there is no room. */
    method FromBlocks(p: nat, k: nat, ghost n: nat) returns (a: Addr)
      requires Valid() && InPool(Now(), p, 0) && k >= 1
      modifies this
      ensures old(InPool(Now(), p, 0)) && Now() == Walk(old(Now()), p, 0, k, n).0 && a == Walk(old(Now()), p, 0, k, n).1
    {
      hide Sound, Bump, Unlink;
      ghost var was := Now();
      FirstIsBlock(was, p);
      var x := pools[p].blocks;
      ghost var j := 0;
      while x != NULL
        invariant Valid() && InPool(Now(), p, 0)
        invariant j <= |chains[p]| && x == if j == |chains[p]| then NULL else chains[p][j]
        invariant Walk(Now(), p, j, k, n) == Walk(was, p, 0, k, n)
        decreases |chains[p]| - j
      {
        FirstIsBlock(Now(), p);
        assert x in chains[p];
        ghost var before := Now();
        Neighbours(before, p, j);
        hide OwnerAt, UnitAt;
        a := BumpFrom(x, k, n);
        if a != NULL {
          assert Walk(before, p, j, k, n) == (Bump(before, x, k, n), a);
          return;
        }
        var next := headers[x].next;
        if headers[x].gaveBack == headers[x].unitCount {
          Release(p, x, j);
          UnlinkPools(before, p, j);
          UnlinkNext(before, p, j);
          assert Walk(before, p, j, k, n) == Walk(Unlink(before, p, j), p, j, k, n);
        } else {
          assert Walk(before, p, j, k, n) == Walk(before, p, j + 1, k, n);
          j := j + 1;
        }
        x := next;
      }
      FirstIsBlock(Now(), p);
      assert j == |chains[p]|;
      a := NULL;
    }

    /** No block has room: a new one is made, if the memory resource is not `full`. */
    method OpenBlock(p: nat, k: nat, n: nat, full: bool) returns (r: Result, ghost x: Addr)
      requires Valid() && InPool(Now(), p, 0) && 1 <= k <= CLASSES
      modifies this
      ensures old(InPool(Now(), p, 0))
      ensures Now() == Open(old(Now()), p, k, n, full, x).0 && r == Open(old(Now()), p, k, n, full, x).1
      ensures !full ==> Unused(old(headers), x, BlockBytes(Missed(old(pools[p])).exp))
    {
      hide Sound, Unused, Bump, Tuned, UnitCount;
      ghost var was := Now();
      TunedLists(pools[p].(misses := pools[p].misses + 1));
      WithPoolSound(was, p, Missed(pools[p]));
      pools := pools[p := Tuned(pools[p].(misses := pools[p].misses + 1))];
      x := NULL;
      if full {
        return OutOfMemory, x;
      }
      var size := BlockBytes(pools[p].exp);
      BlockBytesExact(pools[p].exp);
      ghost var missed := Now();
      var y := NewBlock(p, size);
      LinkIsNew(missed, p, y, size);
      hide BlockBytes, Link;
      var a := BumpFrom(y, k, n);
      return Object(a), y;
    }

    /** `coroutine_pool::allocate` on the thread of pool `p`.  `full`: the memory resource has nothing
        left.  `x` is where it found memory, if it was asked.  The pools stay valid unless a block is
        opened whose size wraps to zero: then the object lies outside its block. */
    method Allocate(p: nat, n: nat, full: bool) returns (r: Result, ghost x: Addr)
      requires Valid() && p in pools
      modifies this
      ensures old(InPool(Now(), p, 0)) && old(Answered(Now(), p, n, full, x))
      ensures Now() == Request(old(Now()), p, n, full, x).0 && r == Request(old(Now()), p, n, full, x).1
      ensures Valid() <==> !old(OpensEmpty(Now(), p, n, full))
      ensures r == Elsewhere <==> NeededSize(n) > LARGEST
      ensures r == Elsewhere ==> Now() == old(Now())
      ensures r == OutOfMemory <==> old(Misses(Now(), p, n)) && full
      ensures r == OutOfMemory ==> Unserved(Now(), old(Now()), p)
      ensures r.Object? && Valid() ==> Served(Now(), old(Now()), p, r.addr, n)
      ensures !Valid() ==> r == Object(UnitAt(x, 0)) && Outside(Now(), UnitAt(x, 0))
      ensures NeededSize(n) <= LARGEST ==> p in pools && pools[p].allocations == old(pools[p].allocations) + 1
      ensures NeededSize(n) <= LARGEST ==>
                p in pools && pools[p].misses == old(pools[p].misses) + (if old(Misses(Now(), p, n)) then 1 else 0)
      ensures NeededSize(n) <= LARGEST ==>
                p in pools && pools[p].exp ==
                  if old(Misses(Now(), p, n)) then NextExp(old(pools[p]))
                  else if old(CanPop(Now(), p, UnitsFor(n) - 1)) then Tuned(Asked(old(pools[p]))).exp
                  else old(pools[p].exp)
    {
      hide Sound, Served, Unserved, Unused, Walk, Open, Pop, Outside, Answered, OpensEmpty, Missed, BlockBytes;
      ghost var was := Now();
      FirstIsBlock(was, p);
      assert InPool(was, p, 0);
      x := NULL;
      var m := NeededSize(n);
      SizesFit(n);
      if m > LARGEST {
        r := Elsewhere;
        NoMissAnswered(was, p, n, full);
        RequestSound(was, p, n, full, x);
        return;
      }
      var i := (m - 1) / UNIT;
      var k := NeededUnits(m);
      assert k == UnitsFor(n) && i == k - 1 && k <= CLASSES;
      hide NeededSize, NeededUnits, UnitsFor;
      WithPoolSound(was, p, Asked(pools[p]));
      pools := pools[p := pools[p].(allocations := pools[p].allocations + 1)];
      ghost var asked := Now();
      CanPopExact(asked, p, i);
      NoMissAnswered(was, p, n, full);
      if pools[p].heads[i] != NULL {
        var a := Reuse(p, i, n);
        r := Object(a);
      } else {
        var a := FromBlocks(p, k, n);
        if a != NULL {
          r := Object(a);
        } else {
          WalkSound(asked, p, 0, n);
          r, x := OpenBlock(p, k, n, full);
          MissAnswered(was, p, n, full, x);
        }
      }
      RequestSound(was, p, n, full, x);
      RequestCounts(was, p, n, full, x);
    }

    /** `coroutine_pool::deallocate` on the thread of pool `p`, of a live object that was allocated with
        `n` bytes.  It is cached by this thread, or its units go back to the block that its owner word
        names. */
    method Deallocate(p: nat, a: Addr, n: nat)
      requires Valid() && p in pools
      requires NeededSize(n) <= LARGEST ==> a in objs && objs[a].place == Live(n)
      modifies this
      ensures Valid()
      ensures NeededSize(n) <= LARGEST ==> CanFree(old(Now()), p, a, n)
      ensures Now() == Released(old(Now()), p, a, n)
    {
      hide Sound;
      ghost var was := Now();
      SizesFit(n);
      var m := NeededSize(n);
      if m > LARGEST {
        return;
      }
      var i := (m - 1) / UNIT;
      OwnerNamed(was, a);
      FirstIsBlock(was, p);
      ReleasedSound(was, p, a, n);
      LengthIsLength(was, p, i);
      var head := pools[p].heads[i];
      if head == NULL || mem[head + 8] <= THRESHOLD {
        mem := mem[a := head][a + 8 := if head != NULL then mem[head + 8] + 1 else 1];
        pools := pools[p := pools[p].(heads := pools[p].heads[i := a])];
        objs := objs[a := objs[a].(place := Cached(p, |lists[p][i]|))];
        lists := lists[p := lists[p][i := lists[p][i] + [a]]];
        return;
      }
      var x := mem[OwnerAt(a, NeededUnits(m))];
      headers := headers[x := headers[x].(gaveBack := headers[x].gaveBack + NeededUnits(m))];
      objs := objs - {a};
    }
  }
}
