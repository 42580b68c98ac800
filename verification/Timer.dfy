/** The high-resolution timer: a two-level index of deadlines.

    The outer level maps seconds to areas; an area maps timer ids, ordered by deadline and then by the
    hash of the token to awake, to entries, and remembers which ids were cancelled.  Deadlines are
    nanoseconds of the steady clock.  Two tokens may have the same hash.
 */
module Timer {
  import opened Wrappers

  const SECOND: nat := 1_000_000_000

  type Time = nat

  type Token = nat

  datatype TimerId = TimerId(seqno: Time, hash: nat)

  datatype Entry = Entry(timePoint: Time, token: Token)

  datatype Area = Area(entries: map<TimerId, Entry>, removed: set<TimerId>)

  function SecOf(t: Time): nat {
    t / SECOND
  }

  predicate Before(a: TimerId, b: TimerId) {
    a.seqno < b.seqno || (a.seqno == b.seqno && a.hash < b.hash)
  }

  predicate FirstId(ids: set<TimerId>, a: TimerId) {
    a in ids && forall b | b in ids :: b == a || Before(a, b)
  }

  predicate FirstSec(secs: set<nat>, x: nat) {
    x in secs && forall y | y in secs :: x <= y
  }

  lemma {:induction false} FirstIdExists(ids: set<TimerId>)
    requires ids != {}
    ensures exists a :: FirstId(ids, a)
    decreases |ids|
  {
    var a :| a in ids;
    var rest := ids - {a};
    assert ids == rest + {a};
    if rest == {} {
      assert FirstId(ids, a);
    } else {
      FirstIdExists(rest);
      var b :| FirstId(rest, b);
      assert FirstId(ids, if Before(a, b) then a else b);
    }
  }

  lemma {:induction false} FirstSecExists(secs: set<nat>)
    requires secs != {}
    ensures exists x :: FirstSec(secs, x)
    decreases |secs|
  {
    var x :| x in secs;
    var rest := secs - {x};
    assert secs == rest + {x};
    if rest == {} {
      assert FirstSec(secs, x);
    } else {
      FirstSecExists(rest);
      var y :| FirstSec(rest, y);
      assert FirstSec(secs, if x < y then x else y);
    }
  }

  // ---------- What the two levels mean ----------

  type Tree = map<nat, Area>

  /** Everything is stored under the right second. */
  ghost predicate Placed(tree: Tree) {
    forall x, id | x in tree && id in tree[x].entries ::
      SecOf(id.seqno) == x && tree[x].entries[id].timePoint == id.seqno
  }

  /** And no area is empty. */
  ghost predicate Sound(tree: Tree) {
    Placed(tree) && forall x | x in tree :: tree[x].entries != map[]
  }

  predicate Stored(tree: Tree, id: TimerId) {
    SecOf(id.seqno) in tree && id in tree[SecOf(id.seqno)].entries
  }

  predicate Marked(tree: Tree, id: TimerId) {
    SecOf(id.seqno) in tree && id in tree[SecOf(id.seqno)].removed
  }

  /** A timer that is still going to fire. */
  predicate Pending(tree: Tree, id: TimerId) {
    Stored(tree, id) && !Marked(tree, id)
  }

  /** Whom a stored timer awakes. */
  function TokenOf(tree: Tree, id: TimerId): Token
    requires Stored(tree, id)
  {
    tree[SecOf(id.seqno)].entries[id].token
  }

  function Inserted(tree: Tree, id: TimerId, token: Token): Tree {
    var x := SecOf(id.seqno);
    var area := if x in tree then tree[x] else Area(map[], {});
    tree[x := area.(entries := if id in area.entries then area.entries
                               else area.entries[id := Entry(id.seqno, token)])]
  }

  lemma InsertedFacts(tree: Tree, id: TimerId, token: Token)
    requires Sound(tree)
    ensures var t := Inserted(tree, id, token);
            && Sound(t)
            && (forall k :: Stored(t, k) <==> Stored(tree, k) || k == id)
            && (forall k :: Marked(t, k) <==> Marked(tree, k))
            && (forall k | Stored(t, k) ::
                  TokenOf(t, k) == if k == id && !Stored(tree, id) then token else TokenOf(tree, k))
  {
    hide SecOf;
  }

  function Dropped(tree: Tree, id: TimerId): Tree {
    var x := SecOf(id.seqno);
    if x in tree then tree[x := tree[x].(removed := tree[x].removed + {id})] else tree
  }

  lemma DroppedFacts(tree: Tree, id: TimerId)
    requires Sound(tree)
    ensures var t := Dropped(tree, id);
            && Sound(t) && !Pending(t, id)
            && (forall k :: Stored(t, k) <==> Stored(tree, k))
            && (forall k :: Marked(t, k) <==> Marked(tree, k) || (k == id && SecOf(id.seqno) in tree))
            && (forall k | Stored(t, k) :: TokenOf(t, k) == TokenOf(tree, k))
  {
    hide SecOf;
  }

  /** A registration that is lost: registered, cancelled, and registered again before a pass has taken the
      cancelled entry out.  The second registration is accepted, and its timer is not going to fire. */
  lemma ReregistrationLost(tree: Tree, id: TimerId, first: Token, second: Token)
    requires Sound(tree)
    ensures var t := Inserted(Dropped(Inserted(tree, id, first), id), id, second);
            Sound(t) && Stored(t, id) && Marked(t, id) && !Pending(t, id)
  {
    InsertedFacts(tree, id, first);
    DroppedFacts(Inserted(tree, id, first), id);
    InsertedFacts(Dropped(Inserted(tree, id, first), id), id, second);
  }

  /** A registration that awakes somebody else: two tokens with the same hash and deadline share an id, and
      the first one stays. */
  lemma SameHashShares(tree: Tree, id: TimerId, first: Token, second: Token)
    requires Sound(tree) && !Stored(tree, id)
    ensures var t := Inserted(Inserted(tree, id, first), id, second);
            Stored(t, id) && TokenOf(t, id) == first
  {
    InsertedFacts(tree, id, first);
    InsertedFacts(Inserted(tree, id, first), id, second);
  }

  // ---------- Histories ----------

  datatype Deed = Registered(id: TimerId) | Cancelled(id: TimerId) | Fired(id: TimerId, now: Time)

  /** The last thing that happened to the timer is its registration. */
  predicate Armed(h: seq<Deed>, id: TimerId) {
    h != [] && if h[|h| - 1].id == id then h[|h| - 1].Registered? else Armed(h[..|h| - 1], id)
  }

  /** Nothing fires early, twice, or after it was cancelled. */
  ghost predicate Proper(h: seq<Deed>) {
    forall k | 0 <= k < |h| && h[k].Fired? :: h[k].id.seqno <= h[k].now && Armed(h[..k], h[k].id)
  }

  lemma ProperGrows(h: seq<Deed>, d: Deed)
    requires Proper(h) && (d.Fired? ==> d.id.seqno <= d.now && Armed(h, d.id))
    ensures Proper(h + [d])
    ensures forall id :: Armed(h + [d], id) == if id == d.id then d.Registered? else Armed(h, id)
  {
    var h' := h + [d];
    assert h'[..|h|] == h;
    forall k | 0 <= k < |h'| && h'[k].Fired?
      ensures h'[k].id.seqno <= h'[k].now && Armed(h'[..k], h'[k].id)
    {
      assert h'[..k] == h[..k];
      assert h[..|h|] == h;
    }
  }

  /** Between two firings of one timer there is a registration. */
  lemma NoSecondFiring(h: seq<Deed>, i: nat, j: nat)
    requires Proper(h) && i < j < |h| && h[i].Fired? && h[j].Fired? && h[i].id == h[j].id
    ensures exists k :: i < k < j && h[k] == Registered(h[i].id)
  {
    LastDeed(h[..j], i, h[j].id);
    var k :| i < k < j && h[..j][k] == Registered(h[j].id);
    assert h[k] == Registered(h[i].id);
  }

  /** Between a cancellation and a firing there is a registration. */
  lemma NoFiringAfterCancel(h: seq<Deed>, i: nat, j: nat)
    requires Proper(h) && i < j < |h| && h[i].Cancelled? && h[j].Fired? && h[i].id == h[j].id
    ensures exists k :: i < k < j && h[k] == Registered(h[i].id)
  {
    LastDeed(h[..j], i, h[j].id);
    var k :| i < k < j && h[..j][k] == Registered(h[j].id);
    assert h[k] == Registered(h[i].id);
  }

  lemma {:induction false} LastDeed(h: seq<Deed>, i: nat, id: TimerId)
    requires i < |h| && h[i].id == id && !h[i].Registered? && Armed(h, id)
    ensures exists k :: i < k < |h| && h[k] == Registered(id)
    decreases |h|
  {
    var n := |h| - 1;
    if h[n].id == id {
      assert h[n] == Registered(id);
    } else {
      LastDeed(h[..n], i, id);
      var k :| i < k < n && h[..n][k] == Registered(id);
      assert h[k] == Registered(id);
    }
  }

  // ---------- One pass over the first area ----------

  ghost predicate Sorted(ids: seq<TimerId>) {
    forall i, j | 0 <= i < j < |ids| :: Before(ids[i], ids[j])
  }

  /** `area` is what is left of `was` after the ids in `gone`, the first ones, were taken out; those that
      were not cancelled have fired, in order. */
  ghost predicate Worked(was: Area, area: Area, gone: set<TimerId>, fired: seq<TimerId>, now: Time) {
    && gone <= was.entries.Keys && area.entries == was.entries - gone && area.removed == was.removed - gone
    && (forall a, b | a in gone && b in area.entries :: Before(a, b))
    && Sorted(fired)
    && (forall a | a in fired :: a in gone && a !in was.removed && a.seqno <= now)
    && (forall a | a in gone && a !in was.removed :: a in fired)
  }

  /** The first id is taken out. */
  function Cut(area: Area, a: TimerId): Area {
    Area(area.entries - {a}, area.removed - {a})
  }

  lemma WorkedOn(was: Area, area: Area, gone: set<TimerId>, fired: seq<TimerId>, now: Time, a: TimerId)
    requires Worked(was, area, gone, fired, now) && FirstId(area.entries.Keys, a)
    requires a in area.removed || a.seqno <= now
    ensures var more := if a in area.removed then fired else fired + [a];
            Worked(was, Cut(area, a), gone + {a}, more, now)
            && (a !in area.removed ==> a !in fired && a !in was.removed)
  {
    assert a in was.entries && a !in gone;
    assert was.entries - gone - {a} == was.entries - (gone + {a});
    assert was.removed - gone - {a} == was.removed - (gone + {a});
    forall b, c | b in gone + {a} && c in area.entries - {a}
      ensures Before(b, c)
    {
      assert c in area.entries.Keys;
    }
    var more := if a in area.removed then fired else fired + [a];
    forall i, j | 0 <= i < j < |more|
      ensures Before(more[i], more[j])
    {
      assert i < |fired| && fired[i] in fired && fired[i] in gone;
    }
  }

  /** When the pass stops, exactly what was due and not cancelled has fired. */
  lemma PassDone(was: Area, area: Area, gone: set<TimerId>, fired: seq<TimerId>, now: Time)
    requires Worked(was, area, gone, fired, now)
    requires area.entries == map[] || exists a :: FirstId(area.entries.Keys, a) && a.seqno > now
    ensures forall id | id in was.entries && id !in was.removed :: id.seqno <= now <==> id in fired
    ensures forall id | id in area.entries :: id.seqno > now
    ensures forall id | id in was.entries && id !in was.removed ::
              id in area.entries && id !in area.removed <==> id !in fired
    ensures forall id | id in area.entries && id !in area.removed :: id in was.entries && id !in was.removed
  {
    if area.entries != map[] {
      var a :| FirstId(area.entries.Keys, a) && a.seqno > now;
      forall id | id in area.entries
        ensures id.seqno > now
      {
        assert id in area.entries.Keys;
      }
    }
    forall id | id in was.entries && id !in was.removed
      ensures id.seqno <= now <==> id in fired
      ensures id in area.entries && id !in area.removed <==> id !in fired
    {
      assert id in gone || id in area.entries;
    }
  }

  // ---------- The timer ----------

  class HighResolutionTimer {
    const hash: Token -> nat
    var tree: Tree
    ghost var history: seq<Deed>

    ghost predicate Valid()
      reads this
    {
      Sound(tree) && Proper(history) && forall id | Pending(tree, id) :: Armed(history, id)
    }

    constructor (hash: Token -> nat)
      ensures Valid() && tree == map[] && history == [] && this.hash == hash
    {
      this.hash := hash;
      tree, history := map[], [];
    }

    /** The timer is going to fire, unless its deadline has passed, or its id is still marked as removed.  It
        awakes this token, unless another token with the same hash is stored for the same deadline. */
    method Register(timePoint: Time, token: Token, now: Time) returns (r: Option<TimerId>)
      requires Valid()
      modifies this
      ensures Valid()
      ensures r == if timePoint < now then None else Some(TimerId(timePoint, hash(token)))
      ensures r.None? ==> unchanged(this)
      ensures r.Some? ==>
                && history == old(history) + [Registered(r.value)]
                && (forall id :: Stored(tree, id) <==> old(Stored(tree, id)) || id == r.value)
                && (forall id :: Marked(tree, id) <==> old(Marked(tree, id)))
                && (Pending(tree, r.value) <==> !old(Marked(tree, r.value)))
                && (TokenOf(tree, r.value) == token
                    <==> !Stored(old(tree), r.value) || TokenOf(old(tree), r.value) == token)
                && (forall id | Stored(old(tree), id) :: TokenOf(tree, id) == TokenOf(old(tree), id))
                && tree == Inserted(old(tree), r.value, token)
    {
      if timePoint < now {
        return None;
      }
      var id := TimerId(timePoint, hash(token));
      var x := SecOf(timePoint);
      ProperGrows(history, Registered(id));
      InsertedFacts(tree, id, token);
      hide Sound, Stored, Marked, SecOf, Proper, Armed;
      ghost var was := tree;
      if x !in tree {
        tree := tree[x := Area(map[], {})];
      }
      if id !in tree[x].entries {
        tree := tree[x := tree[x].(entries := tree[x].entries[id := Entry(timePoint, token)])];
      }
      assert tree == Inserted(was, id, token);
      history := history + [Registered(id)];
      r := Some(id);
    }

    /** A timer that has not fired yet never will; everything else is as before. */
    method Cancel(id: TimerId)
      requires Valid()
      modifies this
      ensures Valid() && !Pending(tree, id) && history == old(history) + [Cancelled(id)]
      ensures forall k | k != id :: Pending(tree, k) <==> old(Pending(tree, k))
      ensures forall k :: Stored(tree, k) <==> old(Stored(tree, k))
      ensures forall k | Stored(tree, k) :: TokenOf(tree, k) == TokenOf(old(tree), k)
      ensures forall k :: Marked(tree, k) <==> Marked(old(tree), k) || (k == id && SecOf(id.seqno) in old(tree))
      ensures tree == Dropped(old(tree), id)
    {
      ProperGrows(history, Cancelled(id));
      DroppedFacts(tree, id);
      hide Sound, Stored, Marked, SecOf, Proper, Armed;
      var x := SecOf(id.seqno);
      if x in tree {
        tree := tree[x := tree[x].(removed := tree[x].removed + {id})];
      }
      history := history + [Cancelled(id)];
    }

    method IsExpired(id: TimerId) returns (b: bool)
      requires Valid()
      ensures b <==> !Pending(tree, id)
    {
      var x := SecOf(id.seqno);
      if x in tree {
        var a := id in tree[x].entries;
        var m := id in tree[x].removed;
        b := !a || m;
      } else {
        b := true;
      }
    }

    /** The loop over the entries of the first area. */
    method ServeArea(x: nat, now: Time) returns (awoken: seq<Token>, ghost fired: seq<TimerId>)
      requires Valid() && x in tree
      modifies this
      ensures x in old(tree) && x in tree && tree == old(tree)[x := tree[x]]
      ensures exists gone :: Worked(old(tree)[x], tree[x], gone, fired, now)
      ensures tree[x].entries == map[] || exists a :: FirstId(tree[x].entries.Keys, a) && a.seqno > now
      ensures Noted(old(tree), old(history), history, fired, now) && Awakes(old(tree)[x], fired, awoken)
    {
      hide Sound, Worked, FirstId, Noted, Before, Awakes;
      var area := tree[x];       // both of its locks are held throughout
      ghost var was, gone: set<TimerId> := area, {};
      fired, awoken := [], [];
      StartWork(was, now);
      StartNoted(tree, history, now);
      StartAwakes(was);
      hide Pending, Armed, Proper;
      while area.entries != map[]
        invariant tree == old(tree) && Worked(was, area, gone, fired, now)
        invariant Noted(tree, old(history), history, fired, now) && Awakes(was, fired, awoken)
        decreases |area.entries|
      {
        FirstIdExists(area.entries.Keys);
        var a :| FirstId(area.entries.Keys, a);
        FirstIsIn(area.entries.Keys, a);
        if a !in area.removed && a.seqno > now {
          break;
        }
        WorkedOn(was, area, gone, fired, now, a);
        WasPending(tree, x, area, gone, fired, now, a);
        if a !in area.removed {
          NotedMore(tree, old(history), history, fired, now, a);
          AwakesMore(was, area, gone, fired, now, awoken, a);
          history := history + [Fired(a, now)];
          fired, awoken := fired + [a], awoken + [area.entries[a].token];
        }
        gone := gone + {a};
        ghost var before := area.entries;
        area := Area(area.entries - {a}, area.removed - {a});
        assert before.Keys == area.entries.Keys + {a};
      }
      tree := tree[x := area];
    }

    /** Areas that have become empty go, from the front. */
    method DropEmpty(ghost x: nat)
      requires Placed(tree) && forall y | y in tree && y != x :: tree[y].entries != map[]
      requires x in tree ==> FirstSec(tree.Keys, x)
      modifies this`tree
      ensures Sound(tree) && forall id :: Pending(tree, id) <==> Pending(old(tree), id)
      ensures forall id :: Stored(tree, id) <==> Stored(old(tree), id)
      ensures forall id | Stored(tree, id) :: TokenOf(tree, id) == TokenOf(old(tree), id)
      ensures forall id :: Marked(tree, id) <==> Marked(old(tree), id) && SecOf(id.seqno) in tree
    {
      while tree != map[]
        invariant Placed(tree) && forall y | y in tree && y != x :: tree[y].entries != map[]
        invariant forall y | y in tree :: y in old(tree) && tree[y] == old(tree)[y]
        invariant forall y | y in old(tree) && old(tree)[y].entries != map[] :: y in tree
        invariant x in tree ==> FirstSec(tree.Keys, x)
        decreases |tree|
      {
        FirstSecExists(tree.Keys);
        var y: nat :| FirstSec(tree.Keys, y);
        if tree[y].entries != map[] {
          break;
        }
        ghost var before := tree;
        tree := tree - {y};
        assert before.Keys == tree.Keys + {y};
      }
    }

    /** The next wake-up. */
    method NextDeadline() returns (next: Option<Time>)
      requires Sound(tree)
      ensures next.None? <==> tree == map[]
      ensures next.Some? ==> (exists id :: Stored(tree, id) && id.seqno == next.value)
                             && forall id | Stored(tree, id) :: next.value <= id.seqno
    {
      if tree == map[] {
        return None;
      }
      FirstSecExists(tree.Keys);
      var x: nat :| FirstSec(tree.Keys, x);
      FirstIdExists(tree[x].entries.Keys);
      var a :| FirstId(tree[x].entries.Keys, a);
      next := Some(tree[x].entries[a].timePoint);
      Minimum(tree, x, a);
    }

    /** One pass: awakes what is due in the first area, in order, and nothing else.  A mark goes when its
        entry is taken out, or with the whole area. */
    method RunOnce(now: Time) returns (awoken: seq<Token>, next: Option<Time>, ghost fired: seq<TimerId>)
      requires Valid()
      modifies this
      ensures Valid() && Sorted(fired) && history == old(history) + Deeds(fired, now)
      ensures forall id :: id in fired <==>
                Pending(old(tree), id) && id.seqno <= now && FirstSec(old(tree).Keys, SecOf(id.seqno))
      ensures |awoken| == |fired|
      ensures forall k: nat | k < |fired| :: Stored(old(tree), fired[k]) && awoken[k] == TokenOf(old(tree), fired[k])
      ensures forall id :: Pending(tree, id) <==> Pending(old(tree), id) && id !in fired
      ensures forall id | Stored(tree, id) ::
                Stored(old(tree), id) && TokenOf(tree, id) == TokenOf(old(tree), id)
                && (FirstSec(old(tree).Keys, SecOf(id.seqno)) ==> id.seqno > now)
      ensures forall id :: Marked(tree, id) <==>
                Marked(old(tree), id) && SecOf(id.seqno) in tree && (Stored(old(tree), id) ==> Stored(tree, id))
      ensures next.None? <==> tree == map[]
      ensures next.Some? ==> forall id | Stored(tree, id) :: next.value <= id.seqno
      ensures next.Some? ==> exists id :: Stored(tree, id) && id.seqno == next.value
    {
      hide Proper, Armed;
      fired, awoken := [], [];
      ghost var was := tree;
      ghost var x: nat := 0;
      StartNoted(tree, history, now);
      if tree != map[] {
        FirstSecExists(tree.Keys);
        var y: nat :| FirstSec(tree.Keys, y);
        x := y;
        if y <= SecOf(now) {
          awoken, fired := ServeArea(y, now);
          Served(was, tree, y, fired, now);
          ServedMarks(was, tree, y, fired, now);
          AwakesTokens(was, y, fired, awoken);
        } else {
          NothingDue(was, y, now);
        }
      }
      DropEmpty(x);
      next := NextDeadline();
    }

    /** The daemon's loop while the clock stands at `now`: it makes passes until the wake-up lies in the
        future.  It takes at most one pass for every second that has something stored and has begun, and
        then everything that was due has fired, once and in order of the deadlines. */
    method CatchUp(now: Time) returns (next: Option<Time>, awoken: seq<Token>,
                                       ghost fired: seq<TimerId>, ghost passes: nat)
      requires Valid()
      modifies this
      ensures Valid() && Sorted(fired) && history == old(history) + Deeds(fired, now)
      ensures forall id :: id in fired <==> Pending(old(tree), id) && id.seqno <= now
      ensures forall id :: Pending(tree, id) <==> Pending(old(tree), id) && id.seqno > now
      ensures |awoken| == |fired|
      ensures forall k: nat | k < |fired| :: Stored(old(tree), fired[k]) && awoken[k] == TokenOf(old(tree), fired[k])
      ensures forall id | Stored(tree, id) :: id.seqno > now
      ensures next.None? <==> tree == map[]
      ensures next.Some? ==> next.value > now && Soonest(tree, next.value)
      ensures passes == 1 || passes <= |Begun(old(tree), now)|
    {
      hide Proper, Armed, Sound, Sorted, Stored, Pending, Begun, SecOf, FirstSec, CaughtUp;
      ghost var was := tree;
      awoken, next, fired := RunOnce(now);
      passes := 1;
      assert OnePass(was, tree, fired, awoken, now);
      FirstPass(was, tree, fired, awoken, now);
      if next.Some? && next.value <= now {
        BegunSmaller(was, tree, fired, awoken, next.value, now);
      }
      while next.Some? && next.value <= now
        invariant Valid() && history == old(history) + Deeds(fired, now)
        invariant CaughtUp(was, tree, fired, awoken, now)
        invariant next.None? <==> tree == map[]
        invariant next.Some? ==> Soonest(tree, next.value)
        invariant next.Some? && next.value <= now ==> passes + |Begun(tree, now)| <= |Begun(was, now)|
        invariant passes == 1 || passes <= |Begun(was, now)|
        decreases |Begun(tree, now)|, if next.Some? && next.value <= now then 1 else 0
      {
        ghost var before := tree;
        SomethingBegun(tree, next.value, now);
        var tokens, more;
        ghost var ids;
        tokens, more, ids := RunOnce(now);
        assert OnePass(before, tree, ids, tokens, now);
        PassOn(was, before, tree, fired, awoken, ids, tokens, now);
        DeedsAdd(fired, ids, now);
        if more.Some? && more.value <= now {
          BegunSmaller(before, tree, ids, tokens, more.value, now);
        }
        BegunStays(before, tree, ids, tokens, now);
        next, awoken, fired, passes := more, awoken + tokens, fired + ids, passes + 1;
      }
      NothingLeft(was, tree, fired, awoken, next, now);
    }
  }

  // ---------- Passes one after the other ----------

  /** The seconds that have begun and have something stored. */
  ghost function Begun(tree: Tree, now: Time): set<nat> {
    set x | x in tree && x <= SecOf(now)
  }

  /** The smallest stored deadline. */
  ghost predicate Soonest(tree: Tree, t: Time) {
    (forall id | Stored(tree, id) :: t <= id.seqno) && exists id :: Stored(tree, id) && id.seqno == t
  }

  /** What one pass does. */
  ghost predicate OnePass(was: Tree, tree: Tree, fired: seq<TimerId>, awoken: seq<Token>, now: Time) {
    && Sound(was) && Sound(tree) && Sorted(fired) && |awoken| == |fired|
    && (forall id :: id in fired <==> Pending(was, id) && id.seqno <= now && FirstSec(was.Keys, SecOf(id.seqno)))
    && (forall k: nat | k < |fired| :: Stored(was, fired[k]) && awoken[k] == TokenOf(was, fired[k]))
    && (forall id :: Pending(tree, id) <==> Pending(was, id) && id !in fired)
    && (forall id | Stored(tree, id) ::
          Stored(was, id) && TokenOf(tree, id) == TokenOf(was, id)
          && (FirstSec(was.Keys, SecOf(id.seqno)) ==> id.seqno > now))
  }

  /** What some passes have done so far: all that fired comes before all that is still stored. */
  ghost predicate CaughtUp(was: Tree, tree: Tree, fired: seq<TimerId>, awoken: seq<Token>, now: Time) {
    && Sorted(fired) && |awoken| == |fired|
    && (forall id | id in fired :: Pending(was, id) && id.seqno <= now)
    && (forall k: nat | k < |fired| :: Stored(was, fired[k]) && awoken[k] == TokenOf(was, fired[k]))
    && (forall id :: Pending(tree, id) <==> Pending(was, id) && id !in fired)
    && (forall id | Stored(tree, id) :: Stored(was, id) && TokenOf(tree, id) == TokenOf(was, id))
    && (forall a, b | a in fired && Stored(tree, b) :: Before(a, b))
  }

  lemma StoredSec(tree: Tree, id: TimerId)
    requires Stored(tree, id)
    ensures SecOf(id.seqno) in tree.Keys
  {
  }

  lemma SomethingIn(tree: Tree, x: nat) returns (id: TimerId)
    requires Sound(tree) && x in tree
    ensures Stored(tree, id) && SecOf(id.seqno) == x
  {
    id :| id in tree[x].entries;
  }

  /** What fires in a pass comes before what stays. */
  lemma FiredFirst(was: Tree, tree: Tree, fired: seq<TimerId>, awoken: seq<Token>, now: Time, a: TimerId, b: TimerId)
    requires OnePass(was, tree, fired, awoken, now) && a in fired && Stored(tree, b)
    ensures Before(a, b)
  {
    StoredSec(was, b);
    SecOrder(a.seqno, b.seqno);
    SecOrder(b.seqno, a.seqno);
    hide SecOf;
    if SecOf(a.seqno) == SecOf(b.seqno) {
      assert FirstSec(was.Keys, SecOf(b.seqno));
    }
  }

  lemma FirstPass(was: Tree, tree: Tree, fired: seq<TimerId>, awoken: seq<Token>, now: Time)
    requires OnePass(was, tree, fired, awoken, now)
    ensures CaughtUp(was, tree, fired, awoken, now)
  {
    hide Sorted, Stored, Pending, SecOf, Sound, Before;
    forall a, b | a in fired && Stored(tree, b)
      ensures Before(a, b)
    {
      FiredFirst(was, tree, fired, awoken, now, a, b);
    }
  }

  lemma PassOn(was: Tree, mid: Tree, tree: Tree, fired: seq<TimerId>, awoken: seq<Token>,
               ids: seq<TimerId>, tokens: seq<Token>, now: Time)
    requires CaughtUp(was, mid, fired, awoken, now) && OnePass(mid, tree, ids, tokens, now)
    ensures CaughtUp(was, tree, fired + ids, awoken + tokens, now)
  {
    forall a | a in ids
      ensures Stored(mid, a)
    {
      assert Pending(mid, a);
    }
    FirstPass(mid, tree, ids, tokens, now);
    SortedAdd(fired, ids, mid);
    hide Sorted, Stored, Pending, SecOf, Sound, Before, FirstSec;
  }

  lemma SortedAdd(ids: seq<TimerId>, more: seq<TimerId>, tree: Tree)
    requires Sorted(ids) && Sorted(more) && forall a | a in more :: Stored(tree, a)
    requires forall a, b | a in ids && Stored(tree, b) :: Before(a, b)
    ensures Sorted(ids + more)
  {
    hide Stored, Before;
    var all := ids + more;
    forall i, j | 0 <= i < j < |all|
      ensures Before(all[i], all[j])
    {
      if i < |ids| && j >= |ids| {
        assert all[i] in ids && all[j] in more;
      }
    }
  }

  lemma DeedsAdd(ids: seq<TimerId>, more: seq<TimerId>, now: Time)
    ensures Deeds(ids + more, now) == Deeds(ids, now) + Deeds(more, now)
  {
  }

  lemma BegunStays(was: Tree, tree: Tree, fired: seq<TimerId>, awoken: seq<Token>, now: Time)
    requires OnePass(was, tree, fired, awoken, now)
    ensures Begun(tree, now) <= Begun(was, now) && |Begun(tree, now)| <= |Begun(was, now)|
  {
    forall x | x in tree
      ensures x in was
    {
      var id := SomethingIn(tree, x);
      StoredSec(was, id);
    }
    Smaller(Begun(tree, now), Begun(was, now));
  }

  lemma Smaller(a: set<nat>, b: set<nat>)
    requires a <= b
    ensures |a| <= |b| && (a != b ==> |a| < |b|)
  {
    assert b == a + (b - a);
  }

  /** While something is due after a pass, the pass has emptied its second. */
  lemma BegunSmaller(was: Tree, tree: Tree, fired: seq<TimerId>, awoken: seq<Token>, soonest: Time, now: Time)
    requires OnePass(was, tree, fired, awoken, now) && Soonest(tree, soonest) && soonest <= now
    ensures |Begun(tree, now)| < |Begun(was, now)|
  {
    BegunStays(was, tree, fired, awoken, now);
    var z :| Stored(tree, z) && z.seqno == soonest;
    StoredSec(was, z);
    FirstSecExists(was.Keys);
    var x :| FirstSec(was.Keys, x);
    SecOrder(z.seqno, now);
    if x in tree {
      var id := SomethingIn(tree, x);
      SecOrder(id.seqno, z.seqno);
      assert false;
    }
    StoredSec(was, z);
    assert x in Begun(was, now) && x !in Begun(tree, now);
    Smaller(Begun(tree, now), Begun(was, now));
  }

  lemma SomethingBegun(tree: Tree, soonest: Time, now: Time)
    requires Soonest(tree, soonest) && soonest <= now
    ensures |Begun(tree, now)| >= 1
  {
    var z :| Stored(tree, z) && z.seqno == soonest;
    SecOrder(z.seqno, now);
    assert SecOf(z.seqno) in Begun(tree, now);
  }

  lemma NothingLeft(was: Tree, tree: Tree, fired: seq<TimerId>, awoken: seq<Token>, next: Option<Time>, now: Time)
    requires CaughtUp(was, tree, fired, awoken, now) && (next.None? <==> tree == map[])
    requires next.Some? ==> next.value > now && Soonest(tree, next.value)
    ensures forall id | Stored(tree, id) :: id.seqno > now
    ensures forall id :: id in fired <==> Pending(was, id) && id.seqno <= now
    ensures forall id :: Pending(tree, id) <==> Pending(was, id) && id.seqno > now
    ensures Sorted(fired) && |awoken| == |fired|
    ensures forall k: nat | k < |fired| :: Stored(was, fired[k]) && awoken[k] == TokenOf(was, fired[k])
  {
    forall id | Stored(tree, id)
      ensures id.seqno > now
    {
    }
    hide Sorted;
    forall id
      ensures id in fired <==> Pending(was, id) && id.seqno <= now
      ensures Pending(tree, id) <==> Pending(was, id) && id.seqno > now
    {
    }
  }

  // ---------- Whom a pass awakes ----------

  ghost predicate Awakes(was: Area, fired: seq<TimerId>, awoken: seq<Token>) {
    && |awoken| == |fired|
    && forall k: nat | k < |fired| :: fired[k] in was.entries && awoken[k] == was.entries[fired[k]].token
  }

  lemma StartAwakes(was: Area)
    ensures Awakes(was, [], [])
  {
  }

  lemma AwakesMore(was: Area, area: Area, gone: set<TimerId>, fired: seq<TimerId>, now: Time,
                   awoken: seq<Token>, a: TimerId)
    requires Worked(was, area, gone, fired, now) && a in area.entries && Awakes(was, fired, awoken)
    ensures Awakes(was, fired + [a], awoken + [area.entries[a].token])
  {
  }

  lemma AwakesTokens(tree: Tree, x: nat, fired: seq<TimerId>, awoken: seq<Token>)
    requires Placed(tree) && x in tree && Awakes(tree[x], fired, awoken)
    ensures |awoken| == |fired|
    ensures forall k: nat | k < |fired| :: Stored(tree, fired[k]) && awoken[k] == TokenOf(tree, fired[k])
  {
    forall k: nat | k < |fired|
      ensures Stored(tree, fired[k]) && awoken[k] == TokenOf(tree, fired[k])
    {
      assert fired[k] in tree[x].entries;
    }
  }

  /** A mark of the served area goes exactly when its entry does. */
  lemma ServedMarks(was: Tree, tree: Tree, x: nat, fired: seq<TimerId>, now: Time)
    requires Placed(was) && x in was && x in tree && tree == was[x := tree[x]]
    requires exists gone :: Worked(was[x], tree[x], gone, fired, now)
    ensures forall id :: Marked(tree, id) <==> Marked(was, id) && (Stored(was, id) ==> Stored(tree, id))
    ensures forall id | Stored(tree, id) :: Stored(was, id) && TokenOf(tree, id) == TokenOf(was, id)
  {
    var gone :| Worked(was[x], tree[x], gone, fired, now);
    forall id
      ensures Marked(tree, id) <==> Marked(was, id) && (Stored(was, id) ==> Stored(tree, id))
      ensures Stored(tree, id) ==> Stored(was, id) && TokenOf(tree, id) == TokenOf(was, id)
    {
      if SecOf(id.seqno) == x {
        assert id in tree[x].entries <==> id in was[x].entries && id !in gone;
        assert id in tree[x].removed <==> id in was[x].removed && id !in gone;
      } else {
        assert SecOf(id.seqno) in tree <==> SecOf(id.seqno) in was;
      }
    }
  }

  lemma SecOrder(a: Time, b: Time)
    ensures SecOf(a) < SecOf(b) ==> a < b
    ensures a <= b ==> SecOf(a) <= SecOf(b)
  {
  }

  lemma Minimum(tree: Tree, x: nat, a: TimerId)
    requires Sound(tree) && FirstSec(tree.Keys, x) && FirstId(tree[x].entries.Keys, a)
    ensures Stored(tree, a) && tree[x].entries[a].timePoint == a.seqno
    ensures forall id | Stored(tree, id) :: a.seqno <= id.seqno
  {
    assert a in tree[x].entries && SecOf(a.seqno) == x;
    forall id | Stored(tree, id)
      ensures a.seqno <= id.seqno
    {
      var y := SecOf(id.seqno);
      assert y in tree.Keys;
      SecOrder(a.seqno, id.seqno);
      if y == x {
        assert id in tree[x].entries.Keys;
      }
    }
  }

  lemma NothingDue(tree: Tree, x: nat, now: Time)
    requires FirstSec(tree.Keys, x) && x > SecOf(now)
    ensures forall id | Stored(tree, id) :: id.seqno > now
  {
    forall id | Stored(tree, id)
      ensures id.seqno > now
    {
      assert SecOf(id.seqno) in tree.Keys;
      SecOrder(id.seqno, now);
    }
  }

  /** What serving the first area does to the whole tree. */
  lemma Served(was: Tree, tree: Tree, x: nat, fired: seq<TimerId>, now: Time)
    requires Sound(was) && FirstSec(was.Keys, x) && x in tree && tree == was[x := tree[x]]
    requires exists gone :: Worked(was[x], tree[x], gone, fired, now)
    requires tree[x].entries == map[] || exists a :: FirstId(tree[x].entries.Keys, a) && a.seqno > now
    ensures Placed(tree) && Sorted(fired)
    ensures forall id :: id in fired <==>
              Pending(was, id) && id.seqno <= now && FirstSec(was.Keys, SecOf(id.seqno))
    ensures forall id :: Pending(tree, id) <==> Pending(was, id) && id !in fired
    ensures forall id | Stored(tree, id) && FirstSec(was.Keys, SecOf(id.seqno)) :: id.seqno > now
  {
    var gone :| Worked(was[x], tree[x], gone, fired, now);
    PassDone(was[x], tree[x], gone, fired, now);
    forall id
      ensures id in fired <==> Pending(was, id) && id.seqno <= now && FirstSec(was.Keys, SecOf(id.seqno))
      ensures Pending(tree, id) <==> Pending(was, id) && id !in fired
      ensures Stored(tree, id) && FirstSec(was.Keys, SecOf(id.seqno)) ==> id.seqno > now
    {
      var y := SecOf(id.seqno);
      if id in fired {
        assert id in was[x].entries;
      }
      if FirstSec(was.Keys, y) {
        assert x in was.Keys && y in was.Keys;
        assert x == y;
      }
    }
  }

  lemma FirstIsIn(ids: set<TimerId>, a: TimerId)
    requires FirstId(ids, a)
    ensures a in ids
  {
  }

  function Deeds(ids: seq<TimerId>, now: Time): seq<Deed> {
    seq(|ids|, i requires 0 <= i < |ids| => Fired(ids[i], now))
  }

  /** The history grew by the firings, and whatever is pending and has not fired is armed. */
  ghost predicate Noted(tree: Tree, before: seq<Deed>, h: seq<Deed>, fired: seq<TimerId>, now: Time) {
    && Proper(h) && h == before + Deeds(fired, now)
    && forall id | Pending(tree, id) && id !in fired :: Armed(h, id)
  }

  lemma StartNoted(tree: Tree, h: seq<Deed>, now: Time)
    requires Proper(h) && forall id | Pending(tree, id) :: Armed(h, id)
    ensures Noted(tree, h, h, [], now)
  {
    hide Proper, Pending, Armed;
    assert Deeds([], now) == [];
    assert h + [] == h;
  }

  lemma NotedMore(tree: Tree, before: seq<Deed>, h: seq<Deed>, fired: seq<TimerId>, now: Time, a: TimerId)
    requires Noted(tree, before, h, fired, now) && Pending(tree, a) && a !in fired && a.seqno <= now
    ensures Noted(tree, before, h + [Fired(a, now)], fired + [a], now)
  {
    hide Proper, Pending, Armed;
    ProperGrows(h, Fired(a, now));
    assert Deeds(fired + [a], now) == Deeds(fired, now) + [Fired(a, now)];
    assert before + Deeds(fired + [a], now) == h + [Fired(a, now)];
  }

  lemma StartWork(area: Area, now: Time)
    ensures Worked(area, area, {}, [], now)
  {
    assert area.entries - {} == area.entries && area.removed - {} == area.removed;
  }

  /** What is about to be taken out was pending, if it is not marked. */
  lemma WasPending(tree: Tree, x: nat, area: Area, gone: set<TimerId>, fired: seq<TimerId>, now: Time, a: TimerId)
    requires Sound(tree) && x in tree && Worked(tree[x], area, gone, fired, now) && a in area.entries
    ensures a !in area.removed ==> Pending(tree, a) && a !in fired
  {
    assert a in tree[x].entries && SecOf(a.seqno) == x;
  }
}
