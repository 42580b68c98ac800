/** `hash_map`, its operations run one at a time with any number of guards outstanding.

    The methods follow the probe loops of the source, including the transient bucket states they
    write and take back.  `Contents` is the finite map that callers see: every method says what it
    does to that map, and `Valid` ties the map to the buckets.
 */
module HashMap {
  import opened Modular
  import opened Probe
  import opened Table
  import opened Wrappers

  const INITIAL_BITS: nat := 6

  datatype InsertResult = Inserted | KeyRepeated | RehashNeeded

  datatype RemoveResult<+V> = Removed(value: V) | NoSuchKey | GuardProtecting

  /** A guard refers to a bucket. */
  datatype GetResult = Guard(bucket: nat) | Nothing

  /** How a remover came out of its attempt on one bucket. */
  datatype Grip = Mismatch | Shared | Sole

  /** `load / size >= 0.6` */
  predicate Crowded(load: nat, size: nat) {
    5 * load >= 3 * size
  }

  class HashMap<K(==, !new), V> {
    const hashing: Hashing<K>
    var buckets: seq<Bucket<K, V>>
    var load: nat
    ghost var bits: nat
    ghost var Contents: map<K, Entry<V>>

    ghost predicate Valid()
      reads this
    {
      && Good(hashing, bits, buckets, Contents)
      && load == FilledCount(buckets)
    }

    /** The bucket a live guard refers to keeps its key, its value and its guards. */
    twostate predicate GuardsUndisturbed()
      reads this
    {
      forall j: nat | j < |old(buckets)| && old(buckets)[j].refcount > 0 ::
        j < |buckets| && buckets[j] == old(buckets)[j]
    }

    constructor (hashing: Hashing<K>)
      requires Proper(hashing)
      ensures Valid() && Contents == map[] && |buckets| == 64
    {
      this.hashing := hashing;
      buckets := seq(64, _ => Bucket(0, Empty, Raw));
      load := 0;
      bits := INITIAL_BITS;
      Contents := map[];
      new;
      assert Pow2(6) == 64;
      assert FilledSet(buckets) == {};
    }

    /** Pins a filled bucket, compares its key under the pin, and takes the pin back. */
    method SameKey(index: nat, key: K) returns (same: bool)
      requires index < |buckets| && buckets[index].slot.Pair?
      modifies this`buckets
      ensures buckets == old(buckets)
      ensures same <==> buckets[index].slot.key == key
    {
      var b := buckets[index];
      buckets := buckets[index := b.(refcount := b.refcount + 1)];
      same := buckets[index].slot.key == key;
      buckets := buckets[index := buckets[index].(refcount := buckets[index].refcount - 1)];
    }

    /** Gives a claimed tombstone back. */
    method Unclaim(claim: Option<nat>, ghost start: seq<Bucket<K, V>>)
      requires claim.Some? ==> claim.value < |start| && start[claim.value] == Bucket(0, Tombstone, Raw)
      requires buckets == Claiming(start, claim)
      modifies this`buckets
      ensures buckets == start
    {
      if claim.Some? {
        buckets := buckets[claim.value := Bucket(0, Tombstone, Raw)];
      }
    }

    /** Constructs the pair in the claimed bucket and publishes it. */
    method Store(claim: nat, key: K, value: V, ghost start: seq<Bucket<K, V>>, ghost i: nat, ghost at: nat)
      requires Good(hashing, bits, start, Contents) && load == FilledCount(start)
      requires at <= i <= |start| && at < |start| && claim == Path(hashing, |start|, key, at)
      requires !start[claim].state.Filled? && NoGap(hashing, start, key, i)
      requires forall p: nat | p < i :: !Holds(start, Path(hashing, |start|, key, p), key)
      requires i == |start| || start[Path(hashing, |start|, key, i)].state.Empty?
      requires buckets == start[claim := Bucket(0, Constructing, Raw)]
      modifies this
      ensures Valid() && bits == old(bits) && load == old(load) + 1
      ensures key !in old(Contents) && Contents == old(Contents)[key := Entry(value, 0)]
      ensures buckets == start[claim := Bucket(0, Filled, Pair(key, value))]
    {
      Absent(hashing, bits, start, Contents, key, i);
      StoreGood(hashing, bits, start, Contents, key, value, at);
      CountFill(start, claim, Bucket(0, Filled, Pair(key, value)));
      buckets := buckets[claim := buckets[claim].(slot := Pair(key, value))];
      load := load + 1;
      buckets := buckets[claim := Bucket(0, Filled, buckets[claim].slot)];
      Contents := Contents[key := Entry(value, 0)];
      assert buckets == start[claim := Bucket(0, Filled, Pair(key, value))];
    }

    /** Inserts a key, or says why not and changes nothing. */
    method TryInsert(key: K, value: V) returns (r: InsertResult)
      requires Valid()
      modifies this
      ensures Valid() && bits == old(bits) && GuardsUndisturbed()
      ensures r.RehashNeeded? <==> Crowded(old(load), |old(buckets)|)
      ensures r.KeyRepeated? <==> !Crowded(old(load), |old(buckets)|) && key in old(Contents)
      ensures r.Inserted? ==> Contents == old(Contents)[key := Entry(value, 0)] && load == old(load) + 1
      ensures !r.Inserted? ==> Contents == old(Contents) && buckets == old(buckets) && load == old(load)
    {
      var size := |buckets|;
      if Crowded(load, size) {
        return RehashNeeded;
      }
      hide FilledCount, Represents, AllPlaced, DistinctKeys;
      ghost var start, at := buckets, 0;
      ghost var free := NotFull(hashing, bits, start, key);
      var claim := None;
      var i := 0;
      while i < size
        invariant i <= size == |start|
        invariant load == old(load) && Contents == old(Contents) && bits == old(bits)
        invariant Probed(hashing, start, key, i, claim, at)
        invariant buckets == Claiming(start, claim)
      {
        var index := Path(hashing, size, key, i);
        ghost var before, at' := claim, at;
        if claim.Some? {
          ProbesDistinct(hashing.start(key), hashing.step(key), bits, at, i);
        }
        assert buckets[index] == start[index];
        if buckets[index].state.Filled? {
          var same := SameKey(index, key);
          if same {
            assert Holds(start, index, key);
            Unclaim(claim, start);
            return KeyRepeated;
          }
        } else {
          assert !buckets[index].state.Constructing? && !buckets[index].state.Predestructing?;
          var stop := buckets[index].state.Empty?;
          if claim.None? {
            buckets := buckets[index := Bucket(0, Constructing, Raw)];
            claim, at := Some(index), i;
          }
          if stop {
            Store(claim.value, key, value, start, i, at);
            return Inserted;
          }
        }
        ProbedOnce(hashing, start, key, i, before, at');
        i := i + 1;
      }
      assert claim.Some?;
      Store(claim.value, key, value, start, i, at);
      return Inserted;
    }

    /** Looks a key up and, if it is there, pins its bucket on behalf of the returned guard. */
    method TryGet(key: K) returns (r: GetResult)
      requires Valid()
      modifies this
      ensures Valid() && bits == old(bits) && load == old(load)
      ensures r.Guard? <==> key in old(Contents)
      ensures r.Guard? ==>
                && r.bucket < |buckets| && Holds(buckets, r.bucket, key)
                && Contents == old(Contents)[key := old(Contents)[key].(guards := old(Contents)[key].guards + 1)]
                && var b := old(buckets)[r.bucket];
                   buckets == old(buckets)[r.bucket := b.(refcount := b.refcount + 1)]
      ensures r.Nothing? ==> Contents == old(Contents) && buckets == old(buckets)
    {
      hide FilledCount, AllPlaced;
      var size := |buckets|;
      var i := 0;
      while i < size
        invariant i <= size == |buckets|
        invariant buckets == old(buckets) && Contents == old(Contents) && load == old(load) && bits == old(bits)
        invariant forall p: nat | p < i :: !Holds(buckets, Path(hashing, size, key, p), key)
      {
        var index := Path(hashing, size, key, i);
        if buckets[index].state.Empty? {
          Absent(hashing, bits, buckets, Contents, key, i);
          return Nothing;
        }
        if buckets[index].state.Filled? {
          var same := SameKey(index, key);
          if same {
            var guards := buckets[index].refcount + 1;
            GuardGood(hashing, bits, buckets, Contents, key, index, guards);
            buckets := buckets[index := buckets[index].(refcount := guards)];
            Contents := Contents[key := Contents[key].(guards := guards)];
            return Guard(index);
          }
        }
        i := i + 1;
      }
      Absent(hashing, bits, buckets, Contents, key, i);
      return Nothing;
    }

    /** The destructor of a guard. */
    method Drop(bucket: nat, ghost key: K)
      requires Valid() && Holds(buckets, bucket, key) && buckets[bucket].refcount > 0
      modifies this
      ensures Valid() && bits == old(bits) && load == old(load)
      ensures key in old(Contents) && old(Contents)[key].guards > 0
      ensures Contents == old(Contents)[key := old(Contents)[key].(guards := old(Contents)[key].guards - 1)]
      ensures |buckets| == |old(buckets)|
      ensures forall j: nat | j < |buckets| && j != bucket :: buckets[j] == old(buckets)[j]
    {
      var guards := buckets[bucket].refcount - 1;
      GuardGood(hashing, bits, buckets, Contents, key, bucket, guards);
      buckets := buckets[bucket := buckets[bucket].(refcount := guards)];
      Contents := Contents[key := Contents[key].(guards := guards)];
    }

    /** A lookup whose guard is dropped at once. */
    method TryContains(key: K) returns (found: bool)
      requires Valid()
      modifies this
      ensures Valid() && bits == old(bits) && load == old(load)
      ensures found <==> key in old(Contents)
      ensures Contents == old(Contents) && buckets == old(buckets)
    {
      var g := TryGet(key);
      found := g.Guard?;
      if found {
        Drop(g.bucket, key);
      }
    }

    /** Marks a filled bucket as predestructing with a pin of its own, and takes both back when the
        key is another one or another pin is live. */
    method Grasp(index: nat, key: K) returns (grip: Grip)
      requires index < |buckets| && buckets[index].state.Filled? && buckets[index].slot.Pair?
      modifies this`buckets
      ensures grip.Mismatch? <==> old(buckets[index].slot.key) != key
      ensures grip.Sole? <==> old(buckets[index].slot.key) == key && old(buckets[index].refcount) == 0
      ensures !grip.Sole? ==> buckets == old(buckets)
      ensures grip.Sole? ==> buckets == old(buckets)[index := Bucket(1, Predestructing, old(buckets[index].slot))]
    {
      var slot := buckets[index].slot;
      buckets := buckets[index := Bucket(buckets[index].refcount + 1, Predestructing, slot)];
      if buckets[index].slot.key != key {
        grip := Mismatch;
        buckets := buckets[index := Bucket(buckets[index].refcount - 1, Filled, slot)];
      } else if buckets[index].refcount > 1 {
        grip := Shared;
        buckets := buckets[index := Bucket(buckets[index].refcount - 1, Filled, slot)];
      } else {
        grip := Sole;
      }
    }

    /** Removes a key and returns its value, unless a guard protects it. */
    method TryRemove(key: K) returns (r: RemoveResult<V>)
      requires Valid()
      modifies this
      ensures Valid() && bits == old(bits) && GuardsUndisturbed()
      ensures r.NoSuchKey? <==> key !in old(Contents)
      ensures r.GuardProtecting? <==> key in old(Contents) && old(Contents)[key].guards > 0
      ensures r.Removed? ==> r.value == old(Contents)[key].value
                             && Contents == old(Contents) - {key} && load == old(load) - 1
      ensures !r.Removed? ==> Contents == old(Contents) && buckets == old(buckets) && load == old(load)
    {
      hide FilledCount, AllPlaced;
      var size := |buckets|;
      var i := 0;
      while i < size
        invariant i <= size == |buckets|
        invariant buckets == old(buckets) && Contents == old(Contents) && load == old(load) && bits == old(bits)
        invariant forall p: nat | p < i :: !Holds(buckets, Path(hashing, size, key, p), key)
      {
        var index := Path(hashing, size, key, i);
        if buckets[index].state.Empty? {
          Absent(hashing, bits, buckets, Contents, key, i);
          return NoSuchKey;
        }
        if buckets[index].state.Filled? {
          var grip := Grasp(index, key);
          match grip {
            case Mismatch =>
            case Shared =>
              assert Holds(buckets, index, key);
              return GuardProtecting;
            case Sole =>
              assert Holds(old(buckets), index, key);
              assert buckets[index := Bucket(0, Filled, buckets[index].slot)] == old(buckets);
              var value := Erase(index, key, buckets[index].slot.value);
              return Removed(value);
          }
        }
        i := i + 1;
      }
      Absent(hashing, bits, buckets, Contents, key, i);
      return NoSuchKey;
    }

    /** The sole owner of a predestructing bucket takes the value out and leaves a tombstone. */
    method Erase(index: nat, ghost key: K, ghost value: V) returns (taken: V)
      requires index < |buckets| && buckets[index] == Bucket(1, Predestructing, Pair(key, value))
      requires var before := buckets[index := Bucket(0, Filled, Pair(key, value))];
               Good(hashing, bits, before, Contents) && load == FilledCount(before)
      modifies this
      ensures Valid() && bits == old(bits) && taken == value
      ensures load == old(load) - 1 && Contents == old(Contents) - {key}
      ensures buckets == old(buckets)[index := Bucket(0, Tombstone, Raw)]
    {
      ghost var before := buckets[index := Bucket(0, Filled, Pair(key, value))];
      assert Holds(before, index, key);
      EraseGood(hashing, bits, before, Contents, key, index);
      CountFill(before, index, Bucket(0, Tombstone, Raw));
      buckets := buckets[index := buckets[index].(refcount := 0)];
      taken := buckets[index].slot.value;
      buckets := buckets[index := buckets[index].(slot := Raw)];
      assert load > 0;
      load := load - 1;
      buckets := buckets[index := Bucket(0, Tombstone, Raw)];
      Contents := Contents - {key};
      assert buckets == before[index := Bucket(0, Tombstone, Raw)];
    }

    /** Waits until the guards of one bucket are gone.  Every iteration is another owner's guard
        destructor. */
    method AwaitGuards(j: nat)
      requires j < |buckets|
      modifies this`buckets
      ensures buckets == old(buckets)[j := old(buckets)[j].(refcount := 0)]
    {
      while buckets[j].refcount > 0
        invariant |buckets| == |old(buckets)|
        invariant buckets == old(buckets)[j := old(buckets)[j].(refcount := buckets[j].refcount)]
        decreases buckets[j].refcount
      {
        buckets := buckets[j := buckets[j].(refcount := buckets[j].refcount - 1)];
      }
    }

    /** Moves one pair into the first empty bucket of its path in the new table. */
    method Place(grown: seq<Bucket<K, V>>, ghost newBits: nat, ghost m: map<K, Entry<V>>, key: K, value: V)
      returns (placed: seq<Bucket<K, V>>)
      requires Good(hashing, newBits, grown, m) && key !in m && FilledCount(grown) < |grown|
      requires forall l: nat | l < |grown| :: !grown[l].state.Tombstone?
      ensures Good(hashing, newBits, placed, m[key := Entry(value, 0)])
      ensures FilledCount(placed) == FilledCount(grown) + 1
      ensures forall l: nat | l < |placed| :: !placed[l].state.Tombstone?
    {
      ghost var free := NotFull(hashing, newBits, grown, key);
      var size, i := |grown|, 0;
      while i < size
        invariant i <= free && NoGap(hashing, grown, key, i)
      {
        var index := Path(hashing, size, key, i);
        if grown[index].state.Empty? {
          StoreGood(hashing, newBits, grown, m, key, value, i);
          CountFill(grown, index, Bucket(0, Filled, Pair(key, value)));
          return grown[index := Bucket(0, Filled, Pair(key, value))];
        }
        i := i + 1;
      }
      assert false;
    }

    /** Moves every pair into a table of twice the size, once its guards are gone. */
    method TryRehash()
      requires Valid()
      modifies this
      ensures Valid() && |buckets| == 2 * |old(buckets)|
      ensures Contents == Unguarded(old(Contents)) && load == old(load)
      ensures forall l: nat | l < |buckets| :: buckets[l].refcount == 0 && !buckets[l].state.Tombstone?
    {
      hide Moved, FilledCount, Represents, AllPlaced;
      ghost var start, newBits := buckets, bits + 1;
      var size := |buckets|;
      var grown: seq<Bucket<K, V>> := seq(2 * size, _ => Bucket(0, Empty, Raw));
      ghost var moved: map<K, Entry<V>> := map[];
      EmptyTableGood(hashing, newBits, grown);
      MovedNone(start);
      var j := 0;
      while j < size
        invariant j <= size == |start| == |buckets| && |grown| == 2 * size
        invariant load == old(load) && Contents == old(Contents) && bits == old(bits)
        invariant forall l: nat | j <= l < size :: buckets[l] == start[l]
        invariant Good(hashing, newBits, grown, moved) && Moved(start, j, moved)
        invariant FilledCount(grown) == FilledCount(start[..j])
        invariant forall l: nat | l < |grown| :: !grown[l].state.Tombstone?
      {
        CountPrefix(start, j);
        MovedOne(start, j, moved);
        if buckets[j].state.Filled? {
          AwaitGuards(j);
          var slot := buckets[j].slot;
          grown := Place(grown, newBits, moved, slot.key, slot.value);
          moved := moved[slot.key := Entry(slot.value, 0)];
          buckets := buckets[j := Bucket(0, Tombstone, Raw)];
        }
        j := j + 1;
      }
      assert start[..size] == start;
      MovedAll(hashing, bits, start, Contents, moved);
      NoGuards(hashing, newBits, grown, moved);
      buckets, bits, Contents := grown, newBits, moved;
    }

    /** Inserts a key, growing the table at most once. */
    method Insert(key: K, value: V) returns (inserted: bool, ghost rehashes: nat)
      requires Valid()
      modifies this
      ensures Valid() && rehashes <= 1
      ensures rehashes == 0 <==> !Crowded(old(load), |old(buckets)|)
      ensures |buckets| == if rehashes == 0 then |old(buckets)| else 2 * |old(buckets)|
      ensures inserted <==> key !in old(Contents)
      ensures var m := if rehashes == 0 then old(Contents) else Unguarded(old(Contents));
              Contents == if inserted then m[key := Entry(value, 0)] else m
    {
      rehashes := 0;
      while true
        invariant Valid() && rehashes <= 1 && load == old(load)
        invariant rehashes == 0 ==> Contents == old(Contents) && buckets == old(buckets)
        invariant rehashes == 1 ==> Contents == Unguarded(old(Contents)) && |buckets| == 2 * |old(buckets)|
                                    && Crowded(old(load), |old(buckets)|) && load <= |old(buckets)|
        decreases 1 - rehashes
      {
        var r := TryInsert(key, value);
        match r {
          case Inserted => return true, rehashes;
          case KeyRepeated => return false, rehashes;
          case RehashNeeded =>
            LoadBound(buckets);
            TryRehash();
            rehashes := rehashes + 1;
        }
      }
    }
  }
}
