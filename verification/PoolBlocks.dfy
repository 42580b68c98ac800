/** What a pool does with blocks and freed objects that it may not need any more. */
module PoolBlocks {
  import opened CoroutinePool
  import opened PoolRuns

  /** Everything that was handed out from the block was given back to it. */
  predicate GivenBack(b: Books, x: Addr)
    requires x in b.headers
  {
    b.headers[x].gaveBack == b.headers[x].unitCount
  }

  /** No block from number `j` up to number `i` has room. */
  ghost predicate FullFrom(b: Books, c: seq<Addr>, j: nat, i: nat, k: nat) {
    forall l: nat | j <= l <= i && l < |c| :: c[l] in b.headers && !HasRoom(b, c[l], k)
  }

  /** The walk comes to the block, finds no room in it, and finds that nothing of it is in use. */
  ghost predicate PassedUnused(b: Books, c: seq<Addr>, j: nat, i: nat, k: nat)
    requires i < |c| && c[i] in b.headers
  {
    GivenBack(b, c[i]) && FullFrom(b, c, j, i, k)
  }

  /** A walk releases exactly the blocks that it passes and that everything was given back to. */
  lemma {:induction false} WalkReleases(b: Books, p: nat, j: nat, k: nat, n: nat)
    requires Sound(b) && InPool(b, p, 0) && j <= |b.chains[p]| && k >= 1
    ensures var c, r := b.chains[p], Walk(b, p, j, k, n).0;
            && (forall i: nat | i < |c| :: c[i] in b.headers)
            && (forall i: nat | j <= i < |c| :: c[i] in r.headers <==> !PassedUnused(b, c, j, i, k))
            && (forall x | x in b.headers && x !in c[j..] :: x in r.headers)
            && r.headers.Keys <= b.headers.Keys
    decreases |b.chains[p]| - j
  {
    hide Sound, Relinked, Bump, PassedUnused;
    Chained(b, p);
    var c := b.chains[p];
    if j < |c| {
      if HasRoom(b, c[j], k) {
        ServedAt(b, c, j, k);
        BumpKeys(b, c[j], k, n);
      } else if GivenBack(b, c[j]) {
        UnlinkSound(b, p, j);
        UnlinkPools(b, p, j);
        UnlinkDrops(b, p, j, k);
        WalkReleases(Unlink(b, p, j), p, j, k, n);
        ReleasedRest(b, Unlink(b, p, j), c, Unlink(b, p, j).chains[p], j, k, Walk(b, p, j, k, n).0);
      } else {
        WalkReleases(b, p, j + 1, k, n);
        PassedRest(b, c, j, k, Walk(b, p, j, k, n).0);
      }
    }
  }

  lemma Chained(b: Books, p: nat)
    requires Sound(b) && InPool(b, p, 0)
    ensures forall i: nat | i < |b.chains[p]| :: b.chains[p][i] in b.headers
    ensures CoroutinePool.Distinct(b.chains[p])
  {
    hide HeadersOk, ObjsOk, Accounts, ListsOk, CachedOk;
  }

  lemma ServedAt(b: Books, c: seq<Addr>, j: nat, k: nat)
    requires j < |c| && (forall i: nat | i < |c| :: c[i] in b.headers) && HasRoom(b, c[j], k)
    ensures forall i: nat | j <= i < |c| :: !PassedUnused(b, c, j, i, k)
  {
    forall i: nat | j <= i < |c|
      ensures !FullFrom(b, c, j, i, k)
    {
      assert c[j] in b.headers;
    }
  }

  lemma BumpKeys(b: Books, x: Addr, k: nat, n: nat)
    requires x in b.headers && k >= 1
    ensures Bump(b, x, k, n).headers.Keys == b.headers.Keys
  {
  }

  /** The block at `j` is passed and kept. */
  lemma PassedRest(b: Books, c: seq<Addr>, j: nat, k: nat, r: Books)
    requires j < |c| && (forall i: nat | i < |c| :: c[i] in b.headers) && CoroutinePool.Distinct(c)
    requires !HasRoom(b, c[j], k) && !GivenBack(b, c[j])
    requires forall i: nat | j + 1 <= i < |c| :: c[i] in r.headers <==> !PassedUnused(b, c, j + 1, i, k)
    requires forall x | x in b.headers && x !in c[j + 1..] :: x in r.headers
    ensures forall i: nat | j <= i < |c| :: c[i] in r.headers <==> !PassedUnused(b, c, j, i, k)
    ensures forall x | x in b.headers && x !in c[j..] :: x in r.headers
  {
    forall i: nat | j <= i < |c|
      ensures c[i] in r.headers <==> !PassedUnused(b, c, j, i, k)
    {
      if i == j {
        assert c[j] !in c[j + 1..];
      } else {
        assert FullFrom(b, c, j, i, k) <==> FullFrom(b, c, j + 1, i, k);
      }
    }
    assert c[j..] == [c[j]] + c[j + 1..];
  }

  /** The block at `j` is released, and the others are as before. */
  ghost predicate Dropped(b: Books, b1: Books, c: seq<Addr>, c1: seq<Addr>, j: nat, k: nat)
    requires j < |c|
  {
    && c1 == c[..j] + c[j + 1..] && b1.headers.Keys == b.headers.Keys - {c[j]}
    && forall x | x in b1.headers :: GivenBack(b1, x) == GivenBack(b, x) && HasRoom(b1, x, k) == HasRoom(b, x, k)
  }

  lemma UnlinkDrops(b: Books, p: nat, j: nat, k: nat)
    requires InPool(b, p, 0) && j < |b.chains[p]| && b.chains[p][j] in b.headers
    ensures Dropped(b, Unlink(b, p, j), b.chains[p], Unlink(b, p, j).chains[p], j, k)
  {
    hide Relinked;
    var x := b.chains[p][j];
    RelinkedKeys(b.headers, x);
    forall y | y in b.headers && y != x
      ensures y in Relinked(b.headers, x) && Relinked(b.headers, x)[y].index == b.headers[y].index
      ensures Relinked(b.headers, x)[y].gaveBack == b.headers[y].gaveBack
      ensures Relinked(b.headers, x)[y].unitCount == b.headers[y].unitCount
    {
      RelinkedHeader(b.headers, x, y);
    }
  }

  lemma SameFull(b: Books, b1: Books, c: seq<Addr>, c1: seq<Addr>, j: nat, i: nat, k: nat)
    requires j < i < |c| && (forall l: nat | l < |c| :: c[l] in b.headers) && CoroutinePool.Distinct(c)
    requires Dropped(b, b1, c, c1, j, k) && !HasRoom(b, c[j], k)
    ensures c1[i - 1] == c[i] && c[i] in b1.headers
    ensures PassedUnused(b1, c1, j, i - 1, k) <==> PassedUnused(b, c, j, i, k)
  {
    assert forall l: nat | j < l < |c| :: c1[l - 1] == c[l] && c[l] in b1.headers;
    if FullFrom(b1, c1, j, i - 1, k) {
      forall l: nat | j <= l <= i
        ensures !HasRoom(b, c[l], k)
      {
        if l > j {
          assert c1[l - 1] == c[l];
        }
      }
    }
    if FullFrom(b, c, j, i, k) {
      forall l: nat | j <= l <= i - 1
        ensures c1[l] in b1.headers && !HasRoom(b1, c1[l], k)
      {
        assert c1[l] == c[l + 1];
      }
    }
  }

  lemma ReleasedRest(b: Books, b1: Books, c: seq<Addr>, c1: seq<Addr>, j: nat, k: nat, r: Books)
    requires j < |c| && (forall l: nat | l < |c| :: c[l] in b.headers) && CoroutinePool.Distinct(c)
    requires Dropped(b, b1, c, c1, j, k) && !HasRoom(b, c[j], k) && GivenBack(b, c[j])
    requires forall i: nat | i < |c1| :: c1[i] in b1.headers
    requires forall i: nat | j <= i < |c1| :: c1[i] in r.headers <==> !PassedUnused(b1, c1, j, i, k)
    requires forall x | x in b1.headers && x !in c1[j..] :: x in r.headers
    requires r.headers.Keys <= b1.headers.Keys
    ensures forall i: nat | j <= i < |c| :: c[i] in r.headers <==> !PassedUnused(b, c, j, i, k)
    ensures forall x | x in b.headers && x !in c[j..] :: x in r.headers
  {
    forall i: nat | j <= i < |c|
      ensures c[i] in r.headers <==> !PassedUnused(b, c, j, i, k)
    {
      if i == j {
        assert FullFrom(b, c, j, j, k);
        assert c[j] !in b1.headers;
      } else {
        SameFull(b, b1, c, c1, j, i, k);
      }
    }
    assert c1[j..] == c[j + 1..] && c[j..] == [c[j]] + c[j + 1..];
  }

  // ---------- Freed objects ----------

  /** A freed object is kept for reuse as long as its list has at most 1024 objects; then it is the next
      one that its pool gives out for the size.  Otherwise its units go back to its block. */
  lemma FreedIsKept(b: Books, p: nat, a: Addr, n: nat)
    requires Sound(b) && CanFree(b, p, a, n) && NeededSize(n) <= 4032
    ensures var i, b' := b.objs[a].units - 1, Released(b, p, a, n);
            && InPool(b', p, i)
            && (|b.lists[p][i]| <= 1024 ==>
                  && a in b'.objs && b'.objs[a].place.Cached? && CanPop(b', p, i)
                  && b'.pools[p].heads[i] == a && |b'.lists[p][i]| == |b.lists[p][i]| + 1)
            && (|b.lists[p][i]| > 1024 ==>
                  && a !in b'.objs && b'.lists == b.lists && b.objs[a].block in b'.headers
                  && b'.headers[b.objs[a].block].gaveBack
                     == b.headers[b.objs[a].block].gaveBack + b.objs[a].units)
  {
    hide Sound;
    FirstIsBlock(b, p);
    LengthIsLength(b, p, b.objs[a].units - 1);
  }

  lemma TopIsNext(b: Books, p: nat, i: nat, m: nat, full: bool, x: Addr)
    requires CanPop(b, p, i) && InPool(b, p, 0) && NeededSize(m) <= LARGEST && UnitsFor(m) == i + 1
    ensures Request(b, p, m, full, x).1 == Object(b.pools[p].heads[i])
  {
    hide UnitsFor, NeededSize, Walk, Open, Pop, Tuned;
  }

  /** The next request for the size gets the object that was freed last. */
  lemma FreedIsNext(b: Books, p: nat, a: Addr, n: nat, m: nat, full: bool, x: Addr)
    requires Sound(b) && CanFree(b, p, a, n) && NeededSize(n) <= 4032
    requires |b.lists[p][b.objs[a].units - 1]| <= 1024
    requires NeededSize(m) <= 4032 && UnitsFor(m) == b.objs[a].units
    ensures var b' := Released(b, p, a, n);
            InPool(b', p, 0) && Request(b', p, m, full, x).1 == Object(a)
  {
    hide Sound, UnitsFor, NeededSize, Request, Released;
    FreedIsKept(b, p, a, n);
    TopIsNext(Released(b, p, a, n), p, b.objs[a].units - 1, m, full, x);
  }
}
