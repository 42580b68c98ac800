/** Whole runs of the coroutine pools.

    An event is a request, a free, or a word that somebody other than the pool writes.  The books stay
    sound over a run exactly as long as no block is opened with an exponent of 52 or more.  That takes
    17 requests on one pool that the memory resource refuses, and 17 are enough.  A pool that is never
    refused keeps its exponent at 4 or less for ever.
 */
module PoolRuns {
  import opened CoroutinePool
  import opened Modular

  datatype Event =
    | Ask(p: nat, n: nat, full: bool, x: Addr)  // the memory resource is full, or it would answer with x
    | Free(p: nat, a: Addr, n: nat)
    | Store(w: Addr, v: nat)

  /** What callers and the memory resource keep to. */
  ghost predicate Possible(b: Books, e: Event) {
    match e
    case Ask(p, n, full, x) => InPool(b, p, 0) && Answered(b, p, n, full, x)
    case Free(p, a, n) => NeededSize(n) <= LARGEST ==> CanFree(b, p, a, n)
    case Store(w, _) => Writable(b, w)
  }

  ghost function Apply(b: Books, e: Event): Books {
    if !Possible(b, e) then b
    else
      match e
      case Ask(p, n, full, x) => Request(b, p, n, full, x).0
      case Free(p, a, n) => Released(b, p, a, n)
      case Store(w, v) => Write(b, w, v)
  }

  ghost function At(threads: set<nat>, evs: seq<Event>, i: nat): Books
    requires i <= |evs|
  {
    if i == 0 then Start(threads) else Apply(At(threads, evs, i - 1), evs[i - 1])
  }

  /** A block is opened with an exponent of 52 or more. */
  ghost predicate Bad(b: Books, e: Event) {
    Possible(b, e) && e.Ask? && OpensEmpty(b, e.p, e.n, e.full)
  }

  // ---------- Soundness ----------

  /** Every event keeps the books sound, except the one that opens an empty block. */
  lemma ApplyKeeps(b: Books, e: Event)
    requires Sound(b)
    ensures Sound(Apply(b, e)) <==> !Bad(b, e)
  {
    hide Sound, Answered, Request, Released, Writable;
    if Possible(b, e) {
      match e
      case Ask(p, n, full, x) => RequestSound(b, p, n, full, x);
      case Free(p, a, n) => ReleasedSound(b, p, a, n);
      case Store(w, v) => WriteSound(b, w, v);
    }
  }

  /** And then the object that was asked for lies outside its block. */
  lemma BadIsOutside(b: Books, e: Event)
    requires Sound(b) && Bad(b, e)
    ensures e.Ask? && Outside(Apply(b, e), UnitAt(e.x, 0))
  {
    hide Sound, Answered, Request, OpensEmpty, Outside;
    RequestSound(b, e.p, e.n, e.full, e.x);
  }

  lemma {:induction false} GoodRun(threads: set<nat>, evs: seq<Event>, i: nat)
    requires i <= |evs| && forall j: nat | j < i :: !Bad(At(threads, evs, j), evs[j])
    ensures Sound(At(threads, evs, i))
  {
    hide Apply, Sound, Bad;
    if i == 0 {
      StartSound(threads);
    } else {
      GoodRun(threads, evs, i - 1);
      ApplyKeeps(At(threads, evs, i - 1), evs[i - 1]);
    }
  }

  lemma {:induction false} FirstBad(threads: set<nat>, evs: seq<Event>, i: nat)
    requires i < |evs| && Bad(At(threads, evs, i), evs[i])
    ensures exists j: nat :: j <= |evs| && !Sound(At(threads, evs, j))
  {
    hide Apply, Sound, Bad;
    if j: nat :| j < i && Bad(At(threads, evs, j), evs[j]) {
      FirstBad(threads, evs, j);
    } else {
      GoodRun(threads, evs, i);
      ApplyKeeps(At(threads, evs, i), evs[i]);
      assert !Sound(At(threads, evs, i + 1));
    }
  }

  /** Over every run: the books are sound at every point, so that no two objects ever share a byte, if
      and only if no block is opened with an exponent of 52 or more. */
  lemma RunExact(threads: set<nat>, evs: seq<Event>)
    ensures (forall i: nat | i <= |evs| :: Sound(At(threads, evs, i)))
       <==> (forall i: nat | i < |evs| :: !Bad(At(threads, evs, i), evs[i]))
  {
    hide Apply, Sound, Bad;
    if i: nat :| i < |evs| && Bad(At(threads, evs, i), evs[i]) {
      FirstBad(threads, evs, i);
    } else {
      forall i: nat | i <= |evs|
        ensures Sound(At(threads, evs, i))
      {
        GoodRun(threads, evs, i);
      }
    }
  }

  // ---------- What stays in memory ----------

  predicate Within(b: Books, a: Addr, w: Addr)
    requires a in b.objs
  {
    a <= w < a + UNIT * b.objs[a].units
  }

  lemma InOneObject(b: Books, a: Addr, c: Addr, w: Addr)
    requires Sound(b) && a in b.objs && c in b.objs && Within(b, a, w) && Within(b, c, w)
    ensures a == c
  {
    hide HeadersOk, Accounts, ChainsOk, ListsOk, CachedOk, ObjOk;
  }

  /** An object that is not given back keeps its block and its units. */
  lemma ObjectStays(b: Books, e: Event, a: Addr)
    requires Sound(b) && !Bad(b, e) && a in b.objs && a in Apply(b, e).objs
    ensures Apply(b, e).objs[a].block == b.objs[a].block && Apply(b, e).objs[a].units == b.objs[a].units
  {
    hide Sound, Answered, Request, OpensEmpty, Agree;
    if Possible(b, e) && e.Ask? {
      RequestSound(b, e.p, e.n, e.full, e.x);
      AskedObject(b, Request(b, e.p, e.n, e.full, e.x), e.p, e.n, a);
    }
  }

  lemma AskedObject(b: Books, r: (Books, Result), p: nat, n: nat, a: Addr)
    requires a in b.objs
    requires r.0 == b || Unserved(r.0, b, p) || (r.1.Object? && Served(r.0, b, p, r.1.addr, n))
    ensures a in r.0.objs && r.0.objs[a].(place := b.objs[a].place) == b.objs[a]
    ensures b.objs[a].place.Live? ==> r.0.objs[a] == b.objs[a]
  {
    if r.0 != b && !Unserved(r.0, b, p) && a != r.1.addr {
      assert a in b.objs - {r.1.addr};
      assert a in r.0.objs - {r.1.addr};
    }
  }

  /** Whatever happens to an object, as long as it is not given back its owner word stays and names its
      block, so `deallocate` finds the block on every thread. */
  lemma {:induction false} OwnerStays(threads: set<nat>, evs: seq<Event>, i: nat, j: nat, a: Addr)
    requires i <= j <= |evs| && forall k: nat | k < j :: !Bad(At(threads, evs, k), evs[k])
    requires forall k: nat | i <= k <= j :: a in At(threads, evs, k).objs
    ensures var o := At(threads, evs, i).objs[a];
            && At(threads, evs, j).objs[a].block == o.block && At(threads, evs, j).objs[a].units == o.units >= 1
            && Holds(At(threads, evs, j).mem, OwnerAt(a, o.units), o.block)
    decreases j - i
  {
    hide Apply, Sound, Bad;
    GoodRun(threads, evs, j);
    OwnerNamed(At(threads, evs, j), a);
    if i < j {
      OwnerStays(threads, evs, i, j - 1, a);
      GoodRun(threads, evs, j - 1);
      ObjectStays(At(threads, evs, j - 1), evs[j - 1], a);
    }
  }

  /** No event but a write to it changes a word of a live object. */
  lemma WordStays(b: Books, e: Event, a: Addr, w: Addr)
    requires Sound(b) && !Bad(b, e) && !(e.Store? && e.w == w)
    requires a in b.objs && b.objs[a].place.Live? && Within(b, a, w)
    requires a in Apply(b, e).objs && Apply(b, e).objs[a].place.Live?
    ensures Agree(b.mem, Apply(b, e).mem, w) && Within(Apply(b, e), a, w)
  {
    hide Sound, Answered, Request, OpensEmpty, Writable, Released, Within, CanFree;
    if Possible(b, e) {
      match e
      case Ask(p, n, full, x) => AskWord(b, p, n, full, x, a, w);
      case Free(p, c, n) => FreedWord(b, p, c, n, a, w);
      case Store(_, _) =>
    }
    SameRange(b, e, a, w);
  }

  lemma SameRange(b: Books, e: Event, a: Addr, w: Addr)
    requires Sound(b) && !Bad(b, e) && a in b.objs && a in Apply(b, e).objs && Within(b, a, w)
    ensures Within(Apply(b, e), a, w)
  {
    hide Sound, Bad, Apply;
    ObjectStays(b, e, a);
  }

  lemma AskWord(b: Books, p: nat, n: nat, full: bool, x: Addr, a: Addr, w: Addr)
    requires Sound(b) && InPool(b, p, 0) && Answered(b, p, n, full, x) && !OpensEmpty(b, p, n, full)
    requires a in b.objs && b.objs[a].place.Live? && Within(b, a, w)
    ensures Agree(b.mem, Request(b, p, n, full, x).0.mem, w)
  {
    hide Sound, Answered, Request, OpensEmpty, Served, Unserved, Misses, Within, Agree;
    RequestSound(b, p, n, full, x);
    AskedWord(b, Request(b, p, n, full, x), p, n, a, w);
  }

  lemma AskedWord(b: Books, r: (Books, Result), p: nat, n: nat, a: Addr, w: Addr)
    requires Sound(r.0) && a in b.objs && b.objs[a].place.Live? && Within(b, a, w)
    requires r.0 == b || Unserved(r.0, b, p) || (r.1.Object? && Served(r.0, b, p, r.1.addr, n))
    ensures Agree(b.mem, r.0.mem, w)
  {
    AskedObject(b, r, p, n, a);
    hide Sound;
    if r.0 != b && !Unserved(r.0, b, p) && Within(r.0, r.1.addr, w) {
      InOneObject(r.0, a, r.1.addr, w);
    }
  }

  lemma FreedWord(b: Books, p: nat, c: Addr, n: nat, a: Addr, w: Addr)
    requires Sound(b) && (NeededSize(n) <= LARGEST ==> CanFree(b, p, c, n))
    requires a in b.objs && Within(b, a, w)
    requires a in Released(b, p, c, n).objs && Released(b, p, c, n).objs[a].place.Live?
    ensures Agree(b.mem, Released(b, p, c, n).mem, w)
  {
    hide Sound, Fits, NeededSize;
    if c in b.objs && Within(b, c, w) {
      InOneObject(b, a, c, w);
    }
  }

  /** What the user of an object has written stays there until he writes again, whatever others do. */
  lemma {:induction false} DataStays(threads: set<nat>, evs: seq<Event>, i: nat, j: nat, a: Addr, w: Addr)
    requires i <= j <= |evs| && forall k: nat | k < j :: !Bad(At(threads, evs, k), evs[k])
    requires forall k: nat | i <= k <= j :: a in At(threads, evs, k).objs && At(threads, evs, k).objs[a].place.Live?
    requires forall k: nat | i <= k < j :: !(evs[k].Store? && evs[k].w == w)
    requires Within(At(threads, evs, i), a, w)
    ensures Agree(At(threads, evs, i).mem, At(threads, evs, j).mem, w) && Within(At(threads, evs, j), a, w)
    decreases j - i
  {
    hide Apply, Sound, Bad, Within;
    if i < j {
      DataStays(threads, evs, i, j - 1, a, w);
      GoodRun(threads, evs, j - 1);
      assert At(threads, evs, j) == Apply(At(threads, evs, j - 1), evs[j - 1]);
      WordStays(At(threads, evs, j - 1), evs[j - 1], a, w);
    }
  }

  // ---------- How far the exponent gets ----------

  /** A lower bound on the requests that the newest block of a pool serves before one finds no room in
      it. */
  function Room(b: Books, p: nat): nat {
    if p in b.chains && b.chains[p] != [] && b.chains[p][0] in b.headers
       && b.headers[b.chains[p][0]].index <= b.headers[b.chains[p][0]].unitCount
    then (b.headers[b.chains[p][0]].unitCount - b.headers[b.chains[p][0]].index) / CLASSES
    else 0
  }

  function Pos(d: int): nat {
    if d > 0 then d else 0
  }

  /** After `f` refusals.  The exponent only rises while fewer than three requests were made for every
      miss; `d` is that margin.  A miss adds two to it, but the block it opens takes up `room` of it,
      twice as much with every step of the exponent. */
  predicate Paced(pl: Pool, room: nat, f: nat) {
    var d := 3 * pl.misses - pl.allocations;
    var left := d - room;
    && (d >= 1 ==> d <= 2 * pl.exp) && left <= 1 + 2 * f
    && (left >= 0 ==> pl.exp + left <= 2 + 3 * f)
    && (left >= -1 ==> pl.exp + Pos(left + if room >= 2 then 1 else 0) <= if f == 0 then 3 else 2 + 3 * f)
    && pl.exp + Pos(d - 1) <= 4 + 3 * f
  }

  lemma RatioIs(a: nat, m: nat)
    requires m > 0
    ensures a / m <= 2 <==> a < 3 * m
  {
    var q := a / m;
    assert a == m * q + a % m;
    if q <= 2 {
      assert m * q <= m * 2;
    } else {
      Multiples(m, q - 2);
      assert m * q == m * (q - 2) + 2 * m;
    }
  }

  /** Tuning in terms of the margin. */
  lemma TunedExp(pl: Pool)
    ensures 3 * pl.misses - pl.allocations >= 1 ==> Tuned(pl).exp == pl.exp + 1
    ensures 3 * pl.misses - pl.allocations < 1 ==> Tuned(pl).exp <= pl.exp
    ensures 3 * pl.misses - pl.allocations < 1 && pl.misses > 0 ==> Tuned(pl).exp == Pos(pl.exp - 1)
  {
    if pl.misses > 0 {
      RatioIs(pl.allocations, pl.misses);
    }
  }

  lemma ReusedPaced(pl: Pool, room: nat, f: nat)
    requires Paced(pl, room, f)
    ensures Paced(Tuned(Asked(pl)), room, f)
  {
    TunedExp(Asked(pl));
    TunedLists(Asked(pl));
    hide Tuned;
  }

  lemma ServedPaced(pl: Pool, room: nat, room': nat, f: nat)
    requires Paced(pl, room, f) && room <= room' + 1
    ensures Paced(Asked(pl), room', f)
  {
  }

  lemma RefusedPaced(pl: Pool, f: nat)
    requires Paced(pl, 0, f)
    ensures Paced(Missed(Asked(pl)), 0, f + 1)
  {
    TunedExp(Asked(pl).(misses := pl.misses + 1));
    TunedLists(Asked(pl).(misses := pl.misses + 1));
    hide Tuned;
  }

  lemma {:induction false} Pow2Grows(e: nat)
    ensures e <= 3 ==> Pow2(e) == if e == 0 then 1 else if e == 1 then 2 else if e == 2 then 4 else 8
    ensures e >= 4 ==> Pow2(e) >= 4 * e
  {
    if e > 0 {
      Pow2Grows(e - 1);
    }
  }

  lemma NextExpBounded(pl: Pool, f: nat)
    requires Paced(pl, 0, f)
    ensures NextExp(pl) <= (if f == 0 then 4 else 3 + 3 * f)
  {
    TunedExp(Asked(pl).(misses := pl.misses + 1));
    hide Tuned;
  }

  lemma OpenedPaced(pl: Pool, room: nat, f: nat)
    requires Paced(pl, 0, f) && room >= Pow2(NextExp(pl)) - 1
    ensures Paced(Missed(Asked(pl)), room, f)
  {
    Pow2Grows(NextExp(pl));
    TunedExp(Asked(pl).(misses := pl.misses + 1));
    TunedLists(Asked(pl).(misses := pl.misses + 1));
    hide Tuned, Pow2;
  }

  // ----- The other pools -----

  /** A pool has the counters and the room it had. */
  predicate SamePace(b: Books, was: Books, q: nat) {
    && q in was.pools && q in b.pools && Room(b, q) == Room(was, q)
    && b.pools[q].exp == was.pools[q].exp
    && b.pools[q].allocations == was.pools[q].allocations && b.pools[q].misses == was.pools[q].misses
  }

  lemma NewestIsBlock(b: Books, p: nat, q: nat, x: Addr)
    requires Sound(b) && p in b.pools && q in b.pools && q != p
    ensures q in b.chains && p in b.chains
    ensures b.chains[q] != [] ==> b.chains[q][0] in b.headers && (x in b.chains[p] ==> b.chains[q][0] != x)
  {
    FirstIsBlock(b, q);
    if b.chains[q] != [] {
      assert b.chains[q][0] in b.chains[q];
    }
    hide HeadersOk, ObjsOk, Accounts, ListsOk, CachedOk, Linked;
  }

  lemma BumpPace(b: Books, p: nat, x: Addr, k: nat, n: nat, q: nat)
    requires Sound(b) && p in b.pools && p in b.chains && x in b.chains[p] && x in b.headers && k >= 1
    requires q in b.pools && q != p
    ensures SamePace(Bump(b, x, k, n), b, q)
  {
    hide Sound;
    NewestIsBlock(b, p, q, x);
  }

  lemma UnlinkPace(b: Books, p: nat, j: nat, q: nat)
    requires Sound(b) && p in b.pools && p in b.chains && j < |b.chains[p]| && b.chains[p][j] in b.headers
    requires q in b.pools && q != p
    ensures SamePace(Unlink(b, p, j), b, q)
  {
    hide Sound;
    var x := b.chains[p][j];
    NewestIsBlock(b, p, q, x);
    assert x in b.chains[p];
    if b.chains[q] != [] {
      RelinkedHeader(b.headers, x, b.chains[q][0]);
    }
    hide Relinked;
  }

  lemma LinkPace(b: Books, p: nat, x: Addr, size: nat, q: nat)
    requires Sound(b) && p in b.pools && p in b.chains && x !in b.headers && q in b.pools && q != p
    ensures SamePace(Link(b, p, x, size), b, q)
  {
    hide Sound, UnitCount;
    NewestIsBlock(b, p, q, x);
  }

  lemma {:induction false} WalkPace(b: Books, p: nat, j: nat, n: nat, q: nat)
    requires Sound(b) && InPool(b, p, 0) && j <= |b.chains[p]| && q in b.pools && q != p
    ensures SamePace(Walk(b, p, j, UnitsFor(n), n).0, b, q)
    decreases |b.chains[p]| - j
  {
    hide Sound, UnitsFor, Unlink, Bump;
    var k := UnitsFor(n);
    FirstIsBlock(b, p);
    if j < |b.chains[p]| {
      var x := b.chains[p][j];
      assert x in b.chains[p];
      if HasRoom(b, x, k) {
        BumpPace(b, p, x, k, n, q);
      } else if b.headers[x].gaveBack == b.headers[x].unitCount {
        UnlinkSound(b, p, j);
        UnlinkPools(b, p, j);
        UnlinkPace(b, p, j, q);
        WalkPace(Unlink(b, p, j), p, j, n, q);
      } else {
        WalkPace(b, p, j + 1, n, q);
      }
    }
  }

  lemma PoolPace(b: Books, p: nat, pl: Pool, q: nat)
    requires p in b.pools && q in b.pools && q != p
    ensures SamePace(WithPool(b, p, pl), b, q)
  {
  }

  lemma PopPace(b: Books, p: nat, i: nat, n: nat, q: nat)
    requires CanPop(b, p, i) && q in b.pools
    ensures SamePace(Pop(b, p, i, n), b, q)
  {
  }

  lemma OpenPace(b: Books, p: nat, n: nat, full: bool, x: Addr, q: nat)
    requires Sound(b) && InPool(b, p, 0) && q in b.pools && q != p && (full || x !in b.headers)
    ensures SamePace(Open(b, p, UnitsFor(n), n, full, x).0, b, q)
  {
    var pl := Missed(b.pools[p]);
    TunedLists(b.pools[p].(misses := b.pools[p].misses + 1));
    hide Sound, UnitsFor, Tuned, BlockBytes, Link;
    WithPoolSound(b, p, pl);
    PoolPace(b, p, pl, q);
    if !full {
      var missed := WithPool(b, p, pl);
      var size := BlockBytes(pl.exp);
      LinkPace(missed, p, x, size, q);
      LinkedPace(missed, p, x, size, UnitsFor(n), n, q);
    }
  }

  lemma LinkedPace(b: Books, p: nat, x: Addr, size: nat, k: nat, n: nat, q: nat)
    requires Sound(b) && p in b.pools && p in b.chains && x !in b.headers && q in b.pools && q != p && k >= 1
    ensures SamePace(Bump(Link(b, p, x, size), x, k, n), b, q)
  {
    hide Sound, UnitCount;
    NewestIsBlock(b, p, q, x);
  }

  /** A request on one pool leaves the pace of all others alone. */
  lemma AskPace(b: Books, p: nat, n: nat, full: bool, x: Addr, q: nat)
    requires Sound(b) && InPool(b, p, 0) && Answered(b, p, n, full, x) && q in b.pools && q != p
    ensures SamePace(Request(b, p, n, full, x).0, b, q)
  {
    hide Sound, UnitsFor, Walk, Open, Pop, Room, Tuned;
    var asked := WithPool(b, p, Asked(b.pools[p]));
    PoolPace(b, p, Asked(b.pools[p]), q);
    WithPoolSound(b, p, Asked(b.pools[p]));
    if NeededSize(n) > LARGEST {
    } else if CanPop(asked, p, UnitsFor(n) - 1) {
      PopPace(asked, p, UnitsFor(n) - 1, n, q);
      var popped := Pop(asked, p, UnitsFor(n) - 1, n);
      PopPools(asked, p, UnitsFor(n) - 1, n);
      PoolPace(popped, p, Tuned(popped.pools[p]), q);
    } else {
      WalkPace(asked, p, 0, n, q);
      WalkSound(asked, p, 0, n);
      var walked := Walk(asked, p, 0, UnitsFor(n), n);
      if walked.1 == NULL {
        OpenPace(walked.0, p, n, full, x, q);
      }
    }
  }

  lemma FreePace(b: Books, p: nat, a: Addr, n: nat, q: nat)
    requires (NeededSize(n) <= LARGEST ==> CanFree(b, p, a, n)) && q in b.pools
    ensures SamePace(Released(b, p, a, n), b, q)
  {
    hide NeededSize;
  }

  // ----- The pool of a request -----

  ghost predicate NoRoom(b: Books, p: nat, j: nat, k: nat)
    requires p in b.chains
  {
    forall i: nat | j <= i < |b.chains[p]| :: b.chains[p][i] in b.headers && !HasRoom(b, b.chains[p][i], k)
  }

  /** A walk without a result leaves only blocks behind that have no room. */
  lemma {:induction false} WalkFull(b: Books, p: nat, j: nat, k: nat, n: nat)
    requires Sound(b) && InPool(b, p, 0) && j <= |b.chains[p]| && k >= 1 && Walk(b, p, j, k, n).1 == NULL
    requires forall i: nat | i < j :: b.chains[p][i] in b.headers && !HasRoom(b, b.chains[p][i], k)
    ensures NoRoom(Walk(b, p, j, k, n).0, p, 0, k)
    decreases |b.chains[p]| - j
  {
    hide Sound, Unlink, Bump;
    FirstIsBlock(b, p);
    if j < |b.chains[p]| {
      var x := b.chains[p][j];
      assert x in b.chains[p];
      assert !HasRoom(b, x, k);
      if b.headers[x].gaveBack == b.headers[x].unitCount {
        UnlinkSound(b, p, j);
        UnlinkPools(b, p, j);
        UnlinkFull(b, p, j, k);
        WalkFull(Unlink(b, p, j), p, j, k, n);
      } else {
        WalkFull(b, p, j + 1, k, n);
      }
    }
  }

  lemma NotTwice(b: Books, p: nat, i: nat, j: nat)
    requires Sound(b) && p in b.pools && p in b.chains && i < j < |b.chains[p]|
    ensures b.chains[p][i] != b.chains[p][j]
  {
    hide HeadersOk, ObjsOk, Accounts, ListsOk, CachedOk, Linked;
    LinkedAt(b.headers, b.chains[p], b.pools[p].blocks, j);
  }

  lemma UnlinkFull(b: Books, p: nat, j: nat, k: nat)
    requires Sound(b) && InPool(b, p, 0) && j < |b.chains[p]| && b.chains[p][j] in b.headers
    requires forall i: nat | i < j :: b.chains[p][i] in b.headers && !HasRoom(b, b.chains[p][i], k)
    ensures var b' := Unlink(b, p, j);
            && p in b'.chains && j <= |b'.chains[p]|
            && forall i: nat | i < j :: b'.chains[p][i] in b'.headers && !HasRoom(b', b'.chains[p][i], k)
  {
    hide Sound, Relinked;
    var c, b' := b.chains[p], Unlink(b, p, j);
    forall i: nat | i < j
      ensures b'.chains[p][i] in b'.headers && !HasRoom(b', b'.chains[p][i], k)
    {
      NotTwice(b, p, i, j);
      RelinkedHeader(b.headers, c[j], c[i]);
      assert b'.chains[p][i] == c[i] && !HasRoom(b, c[i], k);
    }
  }

  lemma FullRoom(b: Books, p: nat, k: nat)
    requires p in b.chains && NoRoom(b, p, 0, k) && k <= CLASSES
    ensures Room(b, p) == 0
  {
  }

  /** What a walk does to the room of its pool. */
  lemma WalkRoom(b: Books, p: nat, n: nat)
    requires Sound(b) && InPool(b, p, 0) && NeededSize(n) <= LARGEST
    ensures var r := Walk(b, p, 0, UnitsFor(n), n);
            if r.1 == NULL then Room(r.0, p) == 0 == Room(b, p) else Room(b, p) <= Room(r.0, p) + 1
  {
    var k := UnitsFor(n);
    FitsUnits(n, k);
    hide Sound, UnitsFor, Unlink;
    FirstIsBlock(b, p);
    if b.chains[p] != [] {
      assert b.chains[p][0] in b.chains[p];
      if !HasRoom(b, b.chains[p][0], k) {
        assert Room(b, p) == 0;
      }
    }
    var r := Walk(b, p, 0, k, n);
    if r.1 == NULL {
      WalkFull(b, p, 0, k, n);
      FullRoom(r.0, p, k);
    }
  }

  /** A new block has room for as many requests as the next power of two says, and one of them is
      served at once. */
  lemma OpenRoom(b: Books, p: nat, n: nat, x: Addr)
    requires InPool(b, p, 0) && NeededSize(n) <= LARGEST && Missed(b.pools[p]).exp < 52
    ensures Room(Open(b, p, UnitsFor(n), n, false, x).0, p) >= Pow2(Missed(b.pools[p]).exp) - 1
  {
    var e, k := Missed(b.pools[p]).exp, UnitsFor(n);
    FitsUnits(n, k);
    BlockBytesExact(e);
    UnitCountExact(BlockBytes(e));
    assert UnitCount(BlockBytes(e)) == UNIT * Pow2(e) - 1;
    assert (UNIT * Pow2(e) - 1 - k) / CLASSES >= Pow2(e) - 1;
    hide Missed, UnitsFor, BlockBytes, UnitCount, Pow2;
  }

  lemma AskedRoom(b: Books, p: nat, pl: Pool)
    requires p in b.pools
    ensures Room(WithPool(b, p, pl), p) == Room(b, p)
  {
  }

  lemma BlocksUnpaced(pl: Pool, pl': Pool, room: nat, f: nat)
    requires Paced(pl, room, f)
    requires pl'.exp == pl.exp && pl'.allocations == pl.allocations && pl'.misses == pl.misses
    ensures Paced(pl', room, f)
  {
  }

  lemma ReusePaced(b: Books, p: nat, i: nat, n: nat, f: nat)
    requires CanPop(b, p, i) && Paced(b.pools[p], Room(b, p), f)
    ensures var popped := Pop(WithPool(b, p, Asked(b.pools[p])), p, i, n);
            p in popped.pools && var b' := WithPool(popped, p, Tuned(popped.pools[p]));
            p in b'.pools && Paced(b'.pools[p], Room(b', p), f)
  {
    var asked := WithPool(b, p, Asked(b.pools[p]));
    AskedRoom(b, p, Asked(b.pools[p]));
    PopPace(asked, p, i, n, p);
    var popped := Pop(asked, p, i, n);
    PopPools(asked, p, i, n);
    AskedRoom(popped, p, Tuned(popped.pools[p]));
    ReusedPaced(b.pools[p], Room(b, p), f);
    hide Paced, Room, Pop;
    TunedLike(popped.pools[p], Asked(b.pools[p]));
    TunedLists(popped.pools[p]);
    TunedLists(Asked(b.pools[p]));
    hide Tuned;
    BlocksUnpaced(Tuned(Asked(b.pools[p])), Tuned(popped.pools[p]), Room(b, p), f);
  }

  lemma TunedLike(pl: Pool, pl': Pool)
    requires pl'.exp == pl.exp && pl'.allocations == pl.allocations && pl'.misses == pl.misses
    ensures Tuned(pl').exp == Tuned(pl).exp
  {
  }

  /** A miss, after the walk. */
  lemma MissPaced(pl: Pool, b: Books, p: nat, n: nat, full: bool, x: Addr, f: nat)
    requires InPool(b, p, 0) && Room(b, p) == 0 && NeededSize(n) <= LARGEST
    requires b.pools[p].(blocks := pl.blocks) == Asked(pl) && Paced(pl, 0, f) && f <= 16
    ensures NextExp(pl) < 52
    ensures var b' := Open(b, p, UnitsFor(n), n, full, x).0;
            p in b'.pools && Paced(b'.pools[p], Room(b', p), if full then f + 1 else f)
  {
    NextExpBounded(pl, f);
    MissedLike(pl, b.pools[p]);
    var b' := Open(b, p, UnitsFor(n), n, full, x).0;
    OpenPools(b, p, n, full, x);
    hide UnitsFor, Paced, Room, Missed;
    if full {
      RefusedPaced(pl, f);
      AskedRoom(b, p, Missed(b.pools[p]));
      BlocksUnpaced(Missed(Asked(pl)), b'.pools[p], 0, f + 1);
    } else {
      OpenRoom(b, p, n, x);
      OpenedPaced(pl, Room(b', p), f);
      BlocksUnpaced(Missed(Asked(pl)), b'.pools[p], Room(b', p), f);
    }
  }

  lemma MissedLike(pl: Pool, pl': Pool)
    requires pl'.(blocks := pl.blocks) == Asked(pl)
    ensures Missed(pl').exp == NextExp(pl)
    ensures Missed(pl').allocations == Missed(Asked(pl)).allocations
    ensures Missed(pl').misses == Missed(Asked(pl)).misses
  {
  }

  lemma OpenPools(b: Books, p: nat, n: nat, full: bool, x: Addr)
    requires InPool(b, p, 0)
    ensures var b' := Open(b, p, UnitsFor(n), n, full, x).0;
            && p in b'.pools && b'.pools[p].(blocks := b.pools[p].blocks) ==
                                Missed(b.pools[p]).(blocks := b.pools[p].blocks)
            && (full ==> b' == WithPool(b, p, Missed(b.pools[p])))
  {
    hide Missed, BlockBytes, UnitCount;
  }

  /** A request that is not refused keeps the pace of its pool, and a refusal costs one. */
  lemma AskPaced(b: Books, p: nat, n: nat, full: bool, x: Addr, f: nat)
    requires Sound(b) && InPool(b, p, 0) && Answered(b, p, n, full, x)
    requires Paced(b.pools[p], Room(b, p), f) && f <= 16
    ensures !OpensEmpty(b, p, n, full)
    ensures var b' := Request(b, p, n, full, x).0;
            p in b'.pools && Paced(b'.pools[p], Room(b', p), if Misses(b, p, n) && full then f + 1 else f)
  {
    hide Sound, UnitsFor, Walk, Open, Pop, Room, Tuned, Paced, Missed;
    var pl := b.pools[p];
    var asked := WithPool(b, p, Asked(pl));
    AskedRoom(b, p, Asked(pl));
    WithPoolSound(b, p, Asked(pl));
    if NeededSize(n) > LARGEST {
    } else if CanPop(asked, p, UnitsFor(n) - 1) {
      ReusePaced(b, p, UnitsFor(n) - 1, n, f);
    } else {
      WalkRoom(asked, p, n);
      WalkSound(asked, p, 0, n);
      var walked := Walk(asked, p, 0, UnitsFor(n), n);
      if walked.1 != NULL {
        ServedPaced(pl, Room(b, p), Room(walked.0, p), f);
        BlocksUnpaced(Asked(pl), walked.0.pools[p], Room(walked.0, p), f);
      } else {
        MissPaced(pl, walked.0, p, n, full, x, f);
      }
    }
  }

  // ----- Runs -----

  ghost predicate Refused(b: Books, e: Event, p: nat) {
    Possible(b, e) && e.Ask? && e.p == p && Misses(b, p, e.n) && e.full
  }

  /** How many requests on pool `p` the memory resource has refused. */
  ghost function Refusals(threads: set<nat>, evs: seq<Event>, p: nat, i: nat): nat
    requires i <= |evs|
  {
    if i == 0 then 0
    else Refusals(threads, evs, p, i - 1) + if Refused(At(threads, evs, i - 1), evs[i - 1], p) then 1 else 0
  }

  lemma StepPaced(b: Books, e: Event, p: nat, f: nat)
    requires Sound(b) && p in b.pools && f <= 16 && Paced(b.pools[p], Room(b, p), f)
    ensures p in Apply(b, e).pools
    ensures Paced(Apply(b, e).pools[p], Room(Apply(b, e), p), if Refused(b, e, p) then f + 1 else f)
  {
    hide Sound, Answered, Request, Released, Writable, Paced, Misses, OpensEmpty, CanFree, Room;
    if Possible(b, e) {
      match e
      case Ask(q, n, full, x) =>
        if q == p {
          AskPaced(b, p, n, full, x, f);
        } else {
          AskPace(b, q, n, full, x, p);
          KeepsPaced(b, Request(b, q, n, full, x).0, p, f);
        }
      case Free(q, a, n) =>
        FreePace(b, q, a, n, p);
        KeepsPaced(b, Released(b, q, a, n), p, f);
      case Store(w, v) =>
        WritePace(b, w, v, p);
        KeepsPaced(b, Write(b, w, v), p, f);
    }
  }

  lemma WritePace(b: Books, w: Addr, v: nat, q: nat)
    requires q in b.pools
    ensures SamePace(Write(b, w, v), b, q)
  {
  }

  lemma PoolsStay(b: Books, e: Event)
    requires Sound(b) && !Bad(b, e)
    ensures Apply(b, e).pools.Keys == b.pools.Keys
  {
    hide Sound, Answered, Request, Writable, Misses, OpensEmpty;
    if Possible(b, e) && e.Ask? {
      RequestSound(b, e.p, e.n, e.full, e.x);
    }
  }

  lemma KeepsPaced(b: Books, b': Books, p: nat, f: nat)
    requires p in b.pools && SamePace(b', b, p) && Paced(b.pools[p], Room(b, p), f)
    ensures p in b'.pools && Paced(b'.pools[p], Room(b', p), f)
  {
    hide Room;
  }

  lemma StartPaced(threads: set<nat>)
    ensures Start(threads).pools.Keys == threads
    ensures forall p | p in threads :: Paced(Start(threads).pools[p], Room(Start(threads), p), 0)
  {
  }

  lemma {:induction false} PacedRun(threads: set<nat>, evs: seq<Event>, i: nat)
    requires i <= |evs| && forall p | p in threads :: Refusals(threads, evs, p, i) <= 16
    ensures var b := At(threads, evs, i);
            && Sound(b) && b.pools.Keys == threads
            && forall p | p in threads :: Paced(b.pools[p], Room(b, p), Refusals(threads, evs, p, i))
  {
    hide Apply, Sound, Bad, Paced, Room, Refused;
    if i == 0 {
      StartSound(threads);
      StartPaced(threads);
    } else {
      var b, e := At(threads, evs, i - 1), evs[i - 1];
      PacedRun(threads, evs, i - 1);
      NotBad(b, e, if e.Ask? then Refusals(threads, evs, e.p, i - 1) else 0);
      PoolsStay(b, e);
      ApplyKeeps(b, e);
      forall p | p in threads
        ensures Paced(Apply(b, e).pools[p], Room(Apply(b, e), p), Refusals(threads, evs, p, i))
      {
        StepPaced(b, e, p, Refusals(threads, evs, p, i - 1));
      }
    }
  }

  lemma NotBad(b: Books, e: Event, f: nat)
    requires Sound(b) && (e.Ask? && e.p in b.pools ==> f <= 16 && Paced(b.pools[e.p], Room(b, e.p), f))
    ensures !Bad(b, e)
  {
    hide Sound, Answered, Misses, OpensEmpty, Room, Paced;
    if Possible(b, e) && e.Ask? {
      AskPaced(b, e.p, e.n, e.full, e.x, f);
    }
  }

  /** In a run of any length in which the memory resource refuses no pool more than 16 times, the books
      are sound at every point, and the exponent of a pool is at most 4 plus three for every refusal. */
  lemma FewRefusals(threads: set<nat>, evs: seq<Event>, i: nat)
    requires i <= |evs| && forall p | p in threads :: Refusals(threads, evs, p, i) <= 16
    ensures Sound(At(threads, evs, i))
    ensures forall p | p in threads ::
              p in At(threads, evs, i).pools &&
              At(threads, evs, i).pools[p].exp <= 4 + 3 * Refusals(threads, evs, p, i)
  {
    hide Sound, Apply, Refused;
    PacedRun(threads, evs, i);
  }

  // ---------- Seventeen refusals ----------

  lemma {:induction false} AtPrefix(threads: set<nat>, evs: seq<Event>, e: Event, p: nat, i: nat)
    requires i <= |evs|
    ensures At(threads, evs + [e], i) == At(threads, evs, i)
    ensures Refusals(threads, evs + [e], p, i) == Refusals(threads, evs, p, i)
  {
    hide Apply, Refused;
    if i > 0 {
      AtPrefix(threads, evs, e, p, i - 1);
    }
  }

  /** A run leads to the books, with so many refusals on the pool. */
  ghost predicate Reached(threads: set<nat>, b: Books, p: nat, refusals: nat) {
    exists evs :: LeadsTo(threads, evs, b, p, refusals)
  }

  ghost predicate LeadsTo(threads: set<nat>, evs: seq<Event>, b: Books, p: nat, refusals: nat) {
    At(threads, evs, |evs|) == b && Refusals(threads, evs, p, |evs|) == refusals
  }

  lemma Next(threads: set<nat>, b: Books, p: nat, f: nat, e: Event)
    requires Reached(threads, b, p, f)
    ensures Reached(threads, Apply(b, e), p, if Refused(b, e, p) then f + 1 else f)
  {
    hide Apply, Refused;
    var evs :| LeadsTo(threads, evs, b, p, f);
    AtPrefix(threads, evs, e, p, |evs|);
    assert LeadsTo(threads, evs + [e], Apply(b, e), p, if Refused(b, e, p) then f + 1 else f);
  }

  lemma UnlinkNoRoom(b: Books, p: nat, j: nat, k: nat)
    requires Sound(b) && InPool(b, p, 0) && j < |b.chains[p]| && NoRoom(b, p, 0, k)
    ensures b.chains[p][j] in b.headers && p in Unlink(b, p, j).chains && NoRoom(Unlink(b, p, j), p, 0, k)
  {
    hide Sound, Relinked;
    var c, b' := b.chains[p], Unlink(b, p, j);
    forall i: nat | i < |b'.chains[p]|
      ensures b'.chains[p][i] in b'.headers && !HasRoom(b', b'.chains[p][i], k)
    {
      var at := if i < j then i else i + 1;
      if i < j {
        NotTwice(b, p, i, j);
      } else {
        NotTwice(b, p, j, at);
      }
      RelinkedHeader(b.headers, c[j], c[at]);
      assert b'.chains[p][i] == c[at] && !HasRoom(b, c[at], k);
    }
  }

  /** Where no block has room the walk finds none. */
  lemma {:induction false} WalksInVain(b: Books, p: nat, j: nat, k: nat, n: nat)
    requires Sound(b) && InPool(b, p, 0) && j <= |b.chains[p]| && k >= 1 && NoRoom(b, p, 0, k)
    ensures Walk(b, p, j, k, n).1 == NULL
    decreases |b.chains[p]| - j
  {
    hide Sound, Unlink, Bump;
    if j < |b.chains[p]| {
      var x := b.chains[p][j];
      assert x in b.headers && !HasRoom(b, x, k);
      if b.headers[x].gaveBack == b.headers[x].unitCount {
        UnlinkSound(b, p, j);
        UnlinkPools(b, p, j);
        UnlinkNoRoom(b, p, j, k);
        WalksInVain(Unlink(b, p, j), p, j, k, n);
      } else {
        WalksInVain(b, p, j + 1, k, n);
      }
    }
  }

  lemma {:induction false} WalkLists(b: Books, p: nat, j: nat, k: nat, n: nat)
    requires InPool(b, p, 0) && j <= |b.chains[p]| && k >= 1
    ensures Walk(b, p, j, k, n).0.lists == b.lists
    decreases |b.chains[p]| - j
  {
    hide Relinked;
    if j < |b.chains[p]| && b.chains[p][j] in b.headers {
      var x := b.chains[p][j];
      if !HasRoom(b, x, k) {
        if b.headers[x].gaveBack == b.headers[x].unitCount {
          WalkLists(Unlink(b, p, j), p, j, k, n);
        } else {
          WalkLists(b, p, j + 1, k, n);
        }
      }
    }
  }

  /** The pool has neither a freed object of the largest class nor room for one in any block; somebody
      has one. */
  ghost predicate Starved(b: Books, p: nat, n: nat, a: Addr) {
    && Sound(b) && InPool(b, p, 0) && a in b.objs && b.objs[a].place == Live(n)
    && b.lists[p][CLASSES - 1] == [] && NoRoom(b, p, 0, CLASSES)
  }

  predicate Counts(pl: Pool, exp: nat, allocations: nat, misses: nat) {
    pl.exp == exp && pl.allocations == allocations && pl.misses == misses
  }

  lemma StarvedWalks(b: Books, p: nat, n: nat)
    requires Sound(b) && InPool(b, p, 0) && NoRoom(b, p, 0, CLASSES) && Fits(n, CLASSES)
    ensures var w := Walked(b, p, n);
            w.1 == NULL && w.0.lists == b.lists && NoRoom(w.0, p, 0, CLASSES)
            && w.0.pools[p].(blocks := b.pools[p].blocks) == Asked(b.pools[p])
  {
    assert UnitsFor(n) == CLASSES;
    hide Sound, UnitsFor, Walk, NoRoom, Fits, Served, Unserved;
    var asked := WithPool(b, p, Asked(b.pools[p]));
    WithPoolSound(b, p, Asked(b.pools[p]));
    SameRoom(b, p, Asked(b.pools[p]));
    WalksInVain(asked, p, 0, CLASSES, n);
    WalkLists(asked, p, 0, CLASSES, n);
    WalkSound(asked, p, 0, n);
    AllFull(asked, p, n);
  }

  lemma StarvedMisses(b: Books, p: nat, n: nat, a: Addr)
    requires Starved(b, p, n, a) && Fits(n, CLASSES)
    ensures Misses(b, p, n)
  {
    StarvedWalks(b, p, n);
    hide Sound, Walked, NoRoom, Walk;
    assert UnitsFor(n) - 1 == CLASSES - 1;
  }

  lemma SameRoom(b: Books, p: nat, pl: Pool)
    requires p in b.chains
    ensures NoRoom(WithPool(b, p, pl), p, 0, CLASSES) <==> NoRoom(b, p, 0, CLASSES)
  {
    assert forall x | x in b.headers :: HasRoom(WithPool(b, p, pl), x, CLASSES) == HasRoom(b, x, CLASSES);
  }

  lemma AllFull(b: Books, p: nat, n: nat)
    requires Sound(b) && InPool(b, p, 0) && Walk(b, p, 0, CLASSES, n).1 == NULL
    ensures NoRoom(Walk(b, p, 0, CLASSES, n).0, p, 0, CLASSES)
  {
    hide Sound;
    WalkFull(b, p, 0, CLASSES, n);
  }

  /** What a refused request leaves behind. */
  lemma RefusedRequest(b: Books, p: nat, n: nat, a: Addr)
    requires Starved(b, p, n, a) && Fits(n, CLASSES)
    ensures var w := Walked(b, p, n).0;
            p in w.pools && Request(b, p, n, true, NULL).0 == WithPool(w, p, Missed(w.pools[p]))
  {
    StarvedMisses(b, p, n, a);
    hide Sound, UnitsFor, Walk, NoRoom, Missed;
  }

  /** A refusal leaves the pool starved. */
  lemma RefusedStarves(b: Books, p: nat, n: nat, a: Addr)
    requires Starved(b, p, n, a) && Fits(n, CLASSES)
    ensures Refused(b, Ask(p, n, true, NULL), p)
    ensures Starved(Apply(b, Ask(p, n, true, NULL)), p, n, a)
  {
    StarvedMisses(b, p, n, a);
    StarvedWalks(b, p, n);
    RefusedRequest(b, p, n, a);
    hide Sound, UnitsFor, Walk, Walked, NoRoom, Missed, Misses, Request, OpensEmpty, Fits;
    NotEmptied(b, p, n);
    RequestSound(b, p, n, true, NULL);
    var w := Walked(b, p, n).0;
    SameRoom(w, p, Missed(w.pools[p]));
    assert Apply(b, Ask(p, n, true, NULL)) == WithPool(w, p, Missed(w.pools[p]));
    FirstIsBlock(Apply(b, Ask(p, n, true, NULL)), p);
  }

  lemma NotEmptied(b: Books, p: nat, n: nat)
    requires InPool(b, p, 0)
    ensures Answered(b, p, n, true, NULL) && !OpensEmpty(b, p, n, true)
  {
  }

  lemma RefusedCounts(b: Books, p: nat, n: nat, a: Addr)
    requires Starved(b, p, n, a) && Fits(n, CLASSES)
    ensures p in b.pools && p in Apply(b, Ask(p, n, true, NULL)).pools
    ensures var pl, pl' := b.pools[p], Apply(b, Ask(p, n, true, NULL)).pools[p];
            Counts(pl', NextExp(pl), pl.allocations + 1, pl.misses + 1)
  {
    StarvedMisses(b, p, n, a);
    NotEmptied(b, p, n);
    hide Sound, UnitsFor, Walked, NoRoom, Missed, Misses, Request, OpensEmpty;
    RequestCounts(b, p, n, true, NULL);
  }

  lemma FreedIs(b: Books, p: nat, a: Addr)
    requires InPool(b, p, CLASSES - 1) && a in b.objs && b.objs[a].units == CLASSES
    requires b.lists[p][CLASSES - 1] == []
    ensures var b1 := Push(b, p, a);
            && CanPop(b1, p, CLASSES - 1) && b1.pools[p].heads[CLASSES - 1] == a && b1.lists[p][CLASSES - 1] == [a]
            && b1.headers == b.headers && b1.chains == b.chains
            && Counts(b1.pools[p], b.pools[p].exp, b.pools[p].allocations, b.pools[p].misses)
  {
    hide LengthOf;
  }

  /** The object can be freed, and is cached. */
  lemma Frees(b: Books, p: nat, n: nat, a: Addr)
    requires Starved(b, p, n, a) && Fits(n, CLASSES)
    ensures b.objs[a].units == CLASSES && InPool(b, p, CLASSES - 1)
    ensures Apply(b, Free(p, a, n)) == Push(b, p, a) && Sound(Push(b, p, a))
  {
    hide Sound, NoRoom, Push, Released, Holds;
    OwnerNamed(b, a);
    FirstIsBlock(b, p);
    assert b.objs[a].units == CLASSES;
    hide Fits;
    PushSound(b, p, a);
    FreeIs(b, p, n, a);
  }

  lemma FreeIs(b: Books, p: nat, n: nat, a: Addr)
    requires InPool(b, p, CLASSES - 1) && CanFree(b, p, a, n) && b.objs[a].units == CLASSES
    requires b.lists[p][CLASSES - 1] == []
    requires NeededSize(n) <= LARGEST
    ensures Apply(b, Free(p, a, n)) == Push(b, p, a)
  {
    hide NeededSize, Push;
  }

  lemma FreedStarves(b: Books, p: nat, n: nat, a: Addr)
    requires Starved(b, p, n, a) && Fits(n, CLASSES)
    ensures var b1 := Apply(b, Free(p, a, n));
            && Sound(b1) && InPool(b1, p, 0) && CanPop(b1, p, CLASSES - 1)
            && b1.pools[p].heads[CLASSES - 1] == a && b1.lists[p][CLASSES - 1] == [a]
            && NoRoom(b1, p, 0, CLASSES)
            && Counts(b1.pools[p], b.pools[p].exp, b.pools[p].allocations, b.pools[p].misses)
  {
    Frees(b, p, n, a);
    FreedIs(b, p, a);
    var b1 := Apply(b, Free(p, a, n));
    LikeRoom(b, b1, p);
    hide Sound, NoRoom, Fits, Push, Apply;
    FirstIsBlock(b1, p);
  }

  lemma Reuses(b: Books, p: nat, n: nat)
    requires InPool(b, p, 0) && CanPop(b, p, CLASSES - 1) && UnitsFor(n) == CLASSES
    ensures !Misses(b, p, n) && Possible(b, Ask(p, n, false, NULL)) && !Refused(b, Ask(p, n, false, NULL), p)
  {
    hide UnitsFor, NeededSize, Walk;
  }

  lemma ReusedStarves(b: Books, p: nat, n: nat, a: Addr)
    requires Sound(b) && InPool(b, p, 0) && CanPop(b, p, CLASSES - 1) && Fits(n, CLASSES)
    requires b.pools[p].heads[CLASSES - 1] == a && b.lists[p][CLASSES - 1] == [a] && NoRoom(b, p, 0, CLASSES)
    ensures Starved(Apply(b, Ask(p, n, false, NULL)), p, n, a)
  {
    assert UnitsFor(n) == CLASSES && NeededSize(n) <= LARGEST;
    Reuses(b, p, n);
    ReusedIs(b, p, n, a);
    hide Fits, UnitsFor, NeededSize, Misses, Request, Sound, Served, NoRoom, CanPop;
    ReuseCase(b, p, n, false, NULL);
    var b' := Request(b, p, n, false, NULL).0;
    FirstIsBlock(b', p);
    LikeRoom(b, b', p);
  }

  lemma ReusedCounts(b: Books, p: nat, n: nat)
    requires Sound(b) && InPool(b, p, 0) && CanPop(b, p, CLASSES - 1) && Fits(n, CLASSES)
    ensures var b' := Apply(b, Ask(p, n, false, NULL));
            && p in b'.pools
            && Counts(b'.pools[p], Tuned(Asked(b.pools[p])).exp, b.pools[p].allocations + 1, b.pools[p].misses)
  {
    assert UnitsFor(n) == CLASSES && NeededSize(n) <= LARGEST;
    Reuses(b, p, n);
    hide Fits, UnitsFor, NeededSize, Misses, Request, Sound, Tuned;
    RequestCounts(b, p, n, false, NULL);
  }

  lemma ReusedIs(b: Books, p: nat, n: nat, a: Addr)
    requires InPool(b, p, 0) && CanPop(b, p, CLASSES - 1) && NeededSize(n) <= LARGEST && UnitsFor(n) == CLASSES
    requires b.pools[p].heads[CLASSES - 1] == a && b.lists[p][CLASSES - 1] == [a]
    ensures var b' := Request(b, p, n, false, NULL).0;
            && b'.headers == b.headers && b'.chains == b.chains && p in b'.lists && |b'.lists[p]| == CLASSES
            && b'.lists[p][CLASSES - 1] == [] && a in b'.objs && b'.objs[a].place == Live(n)
  {
    hide Tuned, UnitsFor, NeededSize, Walk;
  }

  lemma LikeRoom(b: Books, b': Books, p: nat)
    requires p in b.chains && b'.headers == b.headers && b'.chains == b.chains && NoRoom(b, p, 0, CLASSES)
    ensures NoRoom(b', p, 0, CLASSES)
  {
    assert forall x | x in b.headers :: HasRoom(b', x, CLASSES) == HasRoom(b, x, CLASSES);
  }

  // ----- From the start -----

  /** A pool with one block that has room for one object. */
  ghost predicate HalfFull(b: Books, p: nat) {
    && Sound(b) && InPool(b, p, 0) && b.chains[p] == [BLOCK] && b.lists[p][CLASSES - 1] == []
    && BLOCK in b.headers && b.headers[BLOCK].unitCount == 127 && b.headers[BLOCK].index == CLASSES
  }

  lemma NewNextExp(k: nat)
    ensures NextExp(Pool(Nulls(), NULL, k, k, k)) == k + 1
    ensures Missed(Asked(Pool(Nulls(), NULL, k, k, k))) == Pool(Nulls(), NULL, k + 1, k + 1, k + 1)
  {
    assert (k + 1) / (k + 1) == 1;
  }

  lemma FirstWalk(b: Books, p: nat, n: nat)
    requires InPool(b, p, 0) && b.chains[p] == []
    ensures Walked(b, p, n) == (WithPool(b, p, Asked(b.pools[p])), NULL)
  {
  }

  /** After the first request: one object, and a block of two. */
  lemma FirstAsk(threads: set<nat>, p: nat, n: nat)
    requires p in threads && Fits(n, CLASSES)
    ensures var b := Apply(Start(threads), Ask(p, n, false, BLOCK));
            HalfFull(b, p) && p in b.pools && Counts(b.pools[p], 1, 1, 1)
    ensures !Refused(Start(threads), Ask(p, n, false, BLOCK), p)
  {
    assert UnitsFor(n) == CLASSES && NeededSize(n) <= LARGEST;
    hide Fits, UnitsFor, NeededSize;
    var b := Start(threads);
    StartSound(threads);
    assert b.lists[p][CLASSES - 1] == [];
    FirstWalk(b, p, n);
    NewNextExp(0);
    assert BlockBytes(1) == 8192 && UnitCount(8192) == 127;
    var asked := WithPool(b, p, Asked(b.pools[p]));
    FirstOpen(asked, p, n);
    hide Sound, Open, Walk, BlockBytes, UnitCount;
    RequestSound(b, p, n, false, BLOCK);
    RequestCounts(b, p, n, false, BLOCK);
  }

  lemma FirstOpen(b: Books, p: nat, n: nat)
    requires InPool(b, p, 0) && b.headers == map[] && b.chains[p] == [] && Missed(b.pools[p]).exp == 1
    requires UnitsFor(n) == CLASSES
    ensures var b' := Open(b, p, UnitsFor(n), n, false, BLOCK).0;
            && p in b'.chains && b'.chains[p] == [BLOCK] && b'.lists == b.lists
            && BLOCK in b'.headers && b'.headers[BLOCK].unitCount == 127 && b'.headers[BLOCK].index == CLASSES
  {
    assert BlockBytes(1) == 8192 && UnitCount(8192) == 127;
    hide UnitsFor, BlockBytes, UnitCount, Missed;
  }

  lemma SecondIs(b: Books, p: nat, n: nat)
    requires HalfFull(b, p) && NeededSize(n) <= LARGEST && UnitsFor(n) == CLASSES
    ensures !Misses(b, p, n)
    ensures var b' := Request(b, p, n, false, NULL).0;
            && p in b'.lists && |b'.lists[p]| == CLASSES && b'.lists[p][CLASSES - 1] == []
            && p in b'.chains && NoRoom(b', p, 0, CLASSES)
            && UnitAt(BLOCK, CLASSES) in b'.objs && b'.objs[UnitAt(BLOCK, CLASSES)].place == Live(n)
  {
    hide Sound, NeededSize, UnitsFor;
    var asked := WithPool(b, p, Asked(b.pools[p]));
    assert HasRoom(asked, BLOCK, CLASSES);
    assert Walk(asked, p, 0, CLASSES, n) == (Bump(asked, BLOCK, CLASSES, n), UnitAt(BLOCK, CLASSES));
  }

  /** After the second one the pool is starved. */
  lemma SecondAsk(b: Books, p: nat, n: nat)
    requires HalfFull(b, p) && Fits(n, CLASSES)
    ensures !Refused(b, Ask(p, n, false, NULL), p)
    ensures var b' := Apply(b, Ask(p, n, false, NULL));
            && Starved(b', p, n, UnitAt(BLOCK, CLASSES)) && p in b'.pools
            && Counts(b'.pools[p], b.pools[p].exp, b.pools[p].allocations + 1, b.pools[p].misses)
  {
    assert UnitsFor(n) == CLASSES && NeededSize(n) <= LARGEST;
    SecondIs(b, p, n);
    assert !CanPop(b, p, CLASSES - 1);
    hide Fits, UnitsFor, NeededSize, Sound, Misses, Request, NoRoom, CanPop, Served;
    RequestSound(b, p, n, false, NULL);
    RequestCounts(b, p, n, false, NULL);
    FirstIsBlock(Request(b, p, n, false, NULL).0, p);
  }

  /** The exponent of a starved pool after one more refusal, and after one more reuse. */
  lemma Tunes(exp: nat, allocations: nat, misses: nat, pl: Pool)
    requires Counts(pl, exp, allocations, misses)
    ensures allocations + 1 < 3 * (misses + 1) ==> NextExp(pl) == exp + 1
    ensures allocations + 1 < 3 * misses ==> Tuned(Asked(pl)).exp == exp + 1
  {
    RatioIs(allocations + 1, misses + 1);
    if misses > 0 {
      RatioIs(allocations + 1, misses);
    }
  }

  lemma {:induction false} Refuses(threads: set<nat>, p: nat, n: nat, i: nat) returns (b: Books)
    requires p in threads && Fits(n, CLASSES)
    ensures Reached(threads, b, p, i) && Starved(b, p, n, UnitAt(BLOCK, CLASSES))
    ensures p in b.pools && Counts(b.pools[p], 1 + i, 2 + i, 1 + i)
  {
    hide Apply, Starved, Refused, Fits, Reached, NextExp;
    if i == 0 {
      var s := Start(threads);
      NewRun(threads, p);
      FirstAsk(threads, p, n);
      Next(threads, s, p, 0, Ask(p, n, false, BLOCK));
      var half := Apply(s, Ask(p, n, false, BLOCK));
      SecondAsk(half, p, n);
      Next(threads, half, p, 0, Ask(p, n, false, NULL));
      b := Apply(half, Ask(p, n, false, NULL));
    } else {
      var b0 := Refuses(threads, p, n, i - 1);
      RefusedStarves(b0, p, n, UnitAt(BLOCK, CLASSES));
      RefusedCounts(b0, p, n, UnitAt(BLOCK, CLASSES));
      Tunes(i, 1 + i, i, b0.pools[p]);
      Next(threads, b0, p, i - 1, Ask(p, n, true, NULL));
      b := Apply(b0, Ask(p, n, true, NULL));
    }
  }

  lemma NewRun(threads: set<nat>, p: nat)
    ensures Reached(threads, Start(threads), p, 0)
  {
    assert LeadsTo(threads, [], Start(threads), p, 0);
  }

  /** After 17 refusals, reuse raises the exponent 33 times more. */
  lemma {:induction false} Recycles(threads: set<nat>, p: nat, n: nat, i: nat) returns (b: Books)
    requires p in threads && Fits(n, CLASSES) && i <= 33
    ensures Reached(threads, b, p, 17) && Starved(b, p, n, UnitAt(BLOCK, CLASSES))
    ensures p in b.pools && Counts(b.pools[p], 18 + i, 19 + i, 18)
  {
    hide Apply, Starved, Refused, Fits, Reached, Tuned, CanPop, NoRoom, Sound;
    if i == 0 {
      b := Refuses(threads, p, n, 17);
    } else {
      var b0 := Recycles(threads, p, n, i - 1);
      var a := UnitAt(BLOCK, CLASSES);
      FreedStarves(b0, p, n, a);
      Next(threads, b0, p, 17, Free(p, a, n));
      FreeIsNoRefusal(b0, p, a, n);
      var b1 := Apply(b0, Free(p, a, n));
      ReusedStarves(b1, p, n, a);
      ReusedCounts(b1, p, n);
      AskIsNoRefusal(b1, p, n, NULL);
      Tunes(17 + i, 18 + i, 18, b1.pools[p]);
      Next(threads, b1, p, 17, Ask(p, n, false, NULL));
      b := Apply(b1, Ask(p, n, false, NULL));
    }
  }

  lemma FreeIsNoRefusal(b: Books, p: nat, a: Addr, n: nat)
    ensures !Refused(b, Free(p, a, n), p)
  {
  }

  lemma AskIsNoRefusal(b: Books, p: nat, n: nat, x: Addr)
    ensures !Refused(b, Ask(p, n, false, x), p)
  {
  }

  /** Seventeen refusals are enough: a run with no more leads to a request that opens a block of zero
      bytes, and breaks the books. */
  lemma SeventeenBreak(threads: set<nat>, p: nat, n: nat) returns (evs: seq<Event>)
    requires p in threads && Fits(n, CLASSES)
    ensures |evs| > 0 && Refusals(threads, evs, p, |evs|) == 17
    ensures Bad(At(threads, evs, |evs| - 1), evs[|evs| - 1]) && !Sound(At(threads, evs, |evs|))
    ensures evs[|evs| - 1].Ask? && Outside(At(threads, evs, |evs|), UnitAt(evs[|evs| - 1].x, 0))
  {
    hide Apply, Starved, Refused, Fits, Tuned, Sound, Bad, Outside;
    var b := Recycles(threads, p, n, 33);
    var x := Opens(b, p, n);
    var pre :| LeadsTo(threads, pre, b, p, 17);
    var e := Ask(p, n, false, x);
    evs := pre + [e];
    AtPrefix(threads, pre, e, p, |pre|);
    AskIsNoRefusal(b, p, n, x);
    StarvedIsSound(b, p, n, UnitAt(BLOCK, CLASSES));
    BadIsOutside(b, e);
  }

  lemma StarvedIsSound(b: Books, p: nat, n: nat, a: Addr)
    requires Starved(b, p, n, a)
    ensures Sound(b)
  {
  }

  lemma Opens(b: Books, p: nat, n: nat) returns (x: Addr)
    requires Starved(b, p, n, UnitAt(BLOCK, CLASSES)) && Fits(n, CLASSES) && p in b.pools
    requires Counts(b.pools[p], 51, 52, 18)
    ensures Bad(b, Ask(p, n, false, x)) && !Sound(Apply(b, Ask(p, n, false, x)))
  {
    hide Sound, NoRoom, Misses, Walked, NextExp, BlockBytes, Unused, Fits, Apply, Bad;
    StarvedMisses(b, p, n, UnitAt(BLOCK, CLASSES));
    Tunes(51, 52, 18, b.pools[p]);
    x := UnusedExists(Walked(b, p, n).0.headers, BlockBytes(NextExp(b.pools[p])));
    OpensBad(b, p, n, x);
    ApplyKeeps(b, Ask(p, n, false, x));
  }

  lemma OpensBad(b: Books, p: nat, n: nat, x: Addr)
    requires InPool(b, p, 0) && Misses(b, p, n) && NextExp(b.pools[p]) >= 52
    requires Unused(Walked(b, p, n).0.headers, x, BlockBytes(NextExp(b.pools[p])))
    ensures Bad(b, Ask(p, n, false, x))
  {
    hide Misses, Walked, NextExp, BlockBytes, Unused;
  }
}
