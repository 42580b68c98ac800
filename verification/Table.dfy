/** The bucket array of `hash_map` as a value, and what it means.

    A bucket is the packed word (reference count, state) and the raw storage for a key and a value.
    Between two operations that run one at a time a bucket is empty, filled or a tombstone; the
    other states exist only inside an operation.
 */
module Table {
  import opened Modular
  import opened Probe
  import opened Wrappers

  datatype State = Empty | Constructing | Filled | Predestructing | Destructing | Tombstone

  datatype Slot<+K, +V> = Raw | Pair(key: K, value: V)

  datatype Bucket<+K, +V> = Bucket(refcount: nat, state: State, slot: Slot<K, V>)

  /** What a caller sees of one key: its value and how many guards refer to it. */
  datatype Entry<+V> = Entry(value: V, guards: nat)

  // ---------- Meaning ----------

  ghost predicate Holds<K, V>(bs: seq<Bucket<K, V>>, j: int, key: K) {
    0 <= j < |bs| && bs[j].state.Filled? && bs[j].slot.Pair? && bs[j].slot.key == key
  }

  /** A bucket between two operations. */
  predicate Settled<K, V>(b: Bucket<K, V>) {
    match b.state
    case Empty => b.refcount == 0 && b.slot.Raw?
    case Filled => b.slot.Pair?
    case Tombstone => b.refcount == 0 && b.slot.Raw?
    case _ => false
  }

  ghost predicate AllSettled<K, V>(bs: seq<Bucket<K, V>>) {
    forall j | 0 <= j < |bs| :: Settled(bs[j])
  }

  ghost predicate DistinctKeys<K(!new), V>(bs: seq<Bucket<K, V>>) {
    forall i, j, k :: Holds(bs, i, k) && Holds(bs, j, k) ==> i == j
  }

  function Path<K>(h: Hashing<K>, size: nat, key: K, i: nat): (b: nat)
    requires size > 0
    ensures b < size
  {
    Index(h.start(key), h.step(key), size, i)
  }

  /** In a table of at most 2^64 buckets, the index the machine computes is the one on the path. */
  lemma MachinePath<K>(h: Hashing<K>, bits: nat, key: K, i: nat)
    requires bits <= 64
    ensures MachineIndex(h.start(key), h.step(key), Pow2(bits), i) == Path(h, Pow2(bits), key, i)
  {
    WrapInvisible(h.start(key), h.step(key), bits, i);
  }

  /** No bucket on the first `i` probes of the key has ever been empty since it was stored. */
  ghost predicate NoGap<K, V>(h: Hashing<K>, bs: seq<Bucket<K, V>>, key: K, i: nat)
    requires |bs| > 0
  {
    forall p: nat | p < i :: !bs[Path(h, |bs|, key, p)].state.Empty?
  }

  /** The key in bucket `j` is reached by its own probe path without passing an empty bucket. */
  ghost predicate Placed<K, V>(h: Hashing<K>, bs: seq<Bucket<K, V>>, key: K, j: int)
    requires |bs| > 0
  {
    exists i: nat :: i < |bs| && Path(h, |bs|, key, i) == j && NoGap(h, bs, key, i)
  }

  ghost predicate AllPlaced<K(!new), V>(h: Hashing<K>, bs: seq<Bucket<K, V>>)
    requires |bs| > 0
  {
    forall j, k :: Holds(bs, j, k) ==> Placed(h, bs, k, j)
  }

  ghost function FilledSet<K, V>(bs: seq<Bucket<K, V>>): set<nat> {
    set j: nat | j < |bs| && bs[j].state.Filled?
  }

  ghost function FilledCount<K, V>(bs: seq<Bucket<K, V>>): nat {
    |FilledSet(bs)|
  }

  /** The bucket array stores exactly the entries of `m`. */
  ghost predicate Represents<K(!new), V>(bs: seq<Bucket<K, V>>, m: map<K, Entry<V>>) {
    && (forall j, k :: Holds(bs, j, k) ==> k in m && m[k] == Entry(bs[j].slot.value, bs[j].refcount))
    && (forall k :: k in m ==> exists j :: Holds(bs, j, k))
  }

  /** Everything that holds of the bucket array between two operations. */
  ghost predicate Good<K(!new), V>(h: Hashing<K>, bits: nat, bs: seq<Bucket<K, V>>, m: map<K, Entry<V>>) {
    && Proper(h) && |bs| == Pow2(bits)
    && AllSettled(bs) && DistinctKeys(bs) && AllPlaced(h, bs) && Represents(bs, m)
  }

  // ---------- Searching ----------

  /** Where a search for `key` may stop: an empty bucket after no match, or the whole table. */
  lemma Absent<K(!new), V>(h: Hashing<K>, bits: nat, bs: seq<Bucket<K, V>>, m: map<K, Entry<V>>, key: K, i: nat)
    requires Good(h, bits, bs, m)
    requires forall p: nat | p < i :: !Holds(bs, Path(h, |bs|, key, p), key)
    requires i >= |bs| || bs[Path(h, |bs|, key, i)].state.Empty?
    ensures key !in m
  {
  }

  /** A table that is not full has a bucket on the path of every key that is not filled. */
  lemma NotFull<K(!new), V>(h: Hashing<K>, bits: nat, bs: seq<Bucket<K, V>>, key: K) returns (i: nat)
    requires Proper(h) && |bs| == Pow2(bits) && FilledCount(bs) < |bs|
    ensures i < |bs| && !bs[Path(h, |bs|, key, i)].state.Filled?
  {
    assert FilledSet(bs) != Below(|bs|);
    var j: nat :| j in Below(|bs|) && j !in FilledSet(bs);
    i := ProbesCover(h.start(key), h.step(key), bits, j);
  }

  // ---------- Probing on behalf of an insert ----------

  /** A tombstone that an insert has taken for itself while it goes on probing. */
  function Claiming<K, V>(bs: seq<Bucket<K, V>>, claim: Option<nat>): seq<Bucket<K, V>>
    requires claim.Some? ==> claim.value < |bs|
  {
    if claim.Some? then bs[claim.value := Bucket(0, Constructing, Raw)] else bs
  }

  /** What an insert knows after `i` probes: no match and no empty bucket so far, and the claimed
      bucket, if any, was the first tombstone. */
  ghost predicate Probed<K(!new), V>(h: Hashing<K>, bs: seq<Bucket<K, V>>, key: K, i: nat, claim: Option<nat>, at: nat)
    requires |bs| > 0
  {
    && NoGap(h, bs, key, i)
    && (forall p: nat | p < i :: !Holds(bs, Path(h, |bs|, key, p), key))
    && match claim
       case None => forall p: nat | p < i :: bs[Path(h, |bs|, key, p)].state.Filled?
       case Some(c) => at < i && c == Path(h, |bs|, key, at) && bs[c].state.Tombstone?
  }

  /** One more probe of a bucket that is neither empty nor a match. */
  lemma ProbedOnce<K(!new), V>(h: Hashing<K>, bs: seq<Bucket<K, V>>, key: K, i: nat, claim: Option<nat>, at: nat)
    requires |bs| > 0 && Probed(h, bs, key, i, claim, at)
    requires var b := Path(h, |bs|, key, i); !bs[b].state.Empty? && !Holds(bs, b, key)
    ensures var b := Path(h, |bs|, key, i);
            && (claim.Some? || bs[b].state.Filled? ==> Probed(h, bs, key, i + 1, claim, at))
            && (claim.None? && bs[b].state.Tombstone? ==> Probed(h, bs, key, i + 1, Some(b), i))
  {
  }

  // ---------- Updating one bucket ----------

  lemma CountFill<K, V>(bs: seq<Bucket<K, V>>, j: nat, b: Bucket<K, V>)
    requires j < |bs|
    ensures var d := (if b.state.Filled? then 1 else 0) - (if bs[j].state.Filled? then 1 else 0);
            FilledCount(bs[j := b]) == FilledCount(bs) + d
  {
    var rest := FilledSet(bs) - {j};
    assert FilledSet(bs) == rest + if bs[j].state.Filled? then {j} else {};
    assert FilledSet(bs[j := b]) == rest + if b.state.Filled? then {j} else {};
  }

  /** Storing a new key in the first free bucket of its path. */
  lemma StoreGood<K(!new), V>(h: Hashing<K>, bits: nat, bs: seq<Bucket<K, V>>, m: map<K, Entry<V>>,
                              key: K, value: V, i: nat)
    requires Good(h, bits, bs, m) && key !in m
    requires i < |bs| && !bs[Path(h, |bs|, key, i)].state.Filled? && NoGap(h, bs, key, i)
    ensures var j := Path(h, |bs|, key, i);
            Good(h, bits, bs[j := Bucket(0, Filled, Pair(key, value))], m[key := Entry(value, 0)])
  {
    var j := Path(h, |bs|, key, i);
    var bs' := bs[j := Bucket(0, Filled, Pair(key, value))];
    assert Holds(bs', j, key);
    assert forall l, k :: Holds(bs', l, k) && l != j ==> Holds(bs, l, k);
    assert forall l, k :: Holds(bs, l, k) ==> l != j && Holds(bs', l, k);
    StillPlaced(h, bs, j, bs'[j]);
    assert NoGap(h, bs', key, i);
    assert Placed(h, bs', key, j);
  }

  /** As long as a bucket does not become empty, no stored key loses its place. */
  lemma StillPlaced<K(!new), V>(h: Hashing<K>, bs: seq<Bucket<K, V>>, j: nat, b: Bucket<K, V>)
    requires j < |bs| && AllPlaced(h, bs) && !b.state.Empty?
    ensures forall l, k :: Holds(bs, l, k) ==> Placed(h, bs[j := b], k, l)
  {
    var bs' := bs[j := b];
    forall l, k | Holds(bs, l, k)
      ensures Placed(h, bs', k, l)
    {
      var i: nat :| i < |bs| && Path(h, |bs|, k, i) == l && NoGap(h, bs, k, i);
      assert NoGap(h, bs', k, i);
    }
  }

  /** Erasing a stored key leaves a tombstone. */
  lemma EraseGood<K(!new), V>(h: Hashing<K>, bits: nat, bs: seq<Bucket<K, V>>, m: map<K, Entry<V>>,
                              key: K, j: nat)
    requires Good(h, bits, bs, m) && Holds(bs, j, key)
    ensures Good(h, bits, bs[j := Bucket(0, Tombstone, Raw)], m - {key})
  {
    var bs' := bs[j := Bucket(0, Tombstone, Raw)];
    assert forall l, k :: Holds(bs', l, k) <==> Holds(bs, l, k) && l != j;
    assert forall l :: Holds(bs, l, key) ==> l == j;
    assert forall k :: Holds(bs, j, k) ==> k == key;
    StillPlaced(h, bs, j, bs'[j]);
  }

  /** Only the guard count of one key changes. */
  lemma GuardGood<K(!new), V>(h: Hashing<K>, bits: nat, bs: seq<Bucket<K, V>>, m: map<K, Entry<V>>,
                              key: K, j: nat, guards: nat)
    requires Good(h, bits, bs, m) && Holds(bs, j, key)
    ensures key in m
    ensures Good(h, bits, bs[j := bs[j].(refcount := guards)], m[key := m[key].(guards := guards)])
    ensures FilledCount(bs[j := bs[j].(refcount := guards)]) == FilledCount(bs)
  {
    var bs' := bs[j := bs[j].(refcount := guards)];
    assert forall l, k :: Holds(bs', l, k) <==> Holds(bs, l, k);
    assert forall l :: Holds(bs, l, key) ==> l == j;
    assert forall k :: Holds(bs, j, k) ==> k == key;
    StillPlaced(h, bs, j, bs'[j]);
    CountFill(bs, j, bs'[j]);
  }

  // ---------- Rehashing ----------

  /** The entries of a rehashed table: every guard has been waited for. */
  ghost function Unguarded<K(!new), V>(m: map<K, Entry<V>>): (r: map<K, Entry<V>>) {
    map k | k in m :: m[k].(guards := 0)
  }

  /** The new table after the first `j` old buckets have been moved. */
  ghost predicate Moved<K(!new), V>(old_: seq<Bucket<K, V>>, j: nat, m': map<K, Entry<V>>) {
    && (forall k :: k in m' ==> exists l :: l < j && Holds(old_, l, k) && m'[k] == Entry(old_[l].slot.value, 0))
    && (forall l, k :: l < j && Holds(old_, l, k) ==> k in m')
  }

  lemma MovedOne<K(!new), V>(bs: seq<Bucket<K, V>>, j: nat, m': map<K, Entry<V>>)
    requires j < |bs| && DistinctKeys(bs) && AllSettled(bs) && Moved(bs, j, m')
    ensures !bs[j].state.Filled? ==> Moved(bs, j + 1, m')
    ensures bs[j].state.Filled? ==>
              && bs[j].slot.Pair? && bs[j].slot.key !in m'
              && Moved(bs, j + 1, m'[bs[j].slot.key := Entry(bs[j].slot.value, 0)])
  {
    if bs[j].state.Filled? {
      assert Settled(bs[j]);
      assert Holds(bs, j, bs[j].slot.key);
    }
  }

  lemma MovedAll<K(!new), V>(h: Hashing<K>, bits: nat, bs: seq<Bucket<K, V>>, m: map<K, Entry<V>>, m': map<K, Entry<V>>)
    requires Good(h, bits, bs, m) && Moved(bs, |bs|, m')
    ensures m' == Unguarded(m)
  {
  }

  lemma EmptyTableGood<K(!new), V>(h: Hashing<K>, bits: nat, bs: seq<Bucket<K, V>>)
    requires Proper(h) && |bs| == Pow2(bits)
    requires forall j | 0 <= j < |bs| :: bs[j] == Bucket(0, Empty, Raw)
    ensures Good(h, bits, bs, map[]) && FilledCount(bs) == 0
  {
    assert FilledSet(bs) == {};
  }

  lemma MovedNone<K(!new), V>(bs: seq<Bucket<K, V>>)
    ensures Moved(bs, 0, map[]) && FilledCount(bs[..0]) == 0
  {
    assert FilledSet(bs[..0]) == {};
  }

  /** At most one more filled bucket per step. */
  lemma CountPrefix<K, V>(bs: seq<Bucket<K, V>>, j: nat)
    requires j < |bs|
    ensures FilledCount(bs[..j + 1]) == FilledCount(bs[..j]) + (if bs[j].state.Filled? then 1 else 0)
    ensures FilledCount(bs[..j]) <= j
  {
    var before, after := FilledSet(bs[..j]), FilledSet(bs[..j + 1]);
    assert after == if bs[j].state.Filled? then before + {j} else before;
    assert Below(j) == before + (Below(j) - before);
  }

  /** A table that represents unguarded entries has no pinned bucket. */
  lemma NoGuards<K(!new), V>(h: Hashing<K>, bits: nat, bs: seq<Bucket<K, V>>, m: map<K, Entry<V>>)
    requires Good(h, bits, bs, m)
    requires forall k :: k in m ==> m[k].guards == 0
    ensures forall l: nat | l < |bs| :: bs[l].refcount == 0
  {
    forall l: nat | l < |bs|
      ensures bs[l].refcount == 0
    {
      if bs[l].state.Filled? { assert Holds(bs, l, bs[l].slot.key); }
    }
  }

  lemma LoadBound<K, V>(bs: seq<Bucket<K, V>>)
    ensures FilledCount(bs) <= |bs|
  {
    assert Below(|bs|) == FilledSet(bs) + (Below(|bs|) - FilledSet(bs));
  }
}
