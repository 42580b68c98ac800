/** A rehash that runs without interference: the table doubles and stores the same map.  It has to wait
    for every guard, so it ends exactly if there is none. */
module SoloGrowth {
  import opened BucketProtocol
  import opened Modular
  import opened Probe
  import opened SoloRuns
  import opened Table
  import opened Wrappers

  /** Inside a rehash: the agent's place, the old buckets and the new ones. */
  function Grower(s: Hash, a: nat, pc: PC, bs: seq<B>, grown: seq<B>): Hash {
    s.(lock := WRITE, agents := s.agents[a := pc], buckets := bs, grown := grown)
  }

  lemma GoesStep(h: Hashing<nat>, a: nat, s: Hash, s': Hash)
    requires a in s.agents && GrowStep(h, s, a, s.agents[a]) == s'
    requires var pc := s.agents[a]; pc.GrowTry? || pc.GrowCas? || Growing(pc)
    ensures Goes(h, a, s, s')
  {
    hide GrowStep;
    GoesOne(h, a, s);
  }

  lemma GrowerTwice(s: Hash, a: nat, pc: PC, bs: seq<B>, grown: seq<B>, pc': PC)
    ensures Goto(Grower(s, a, pc, bs, grown), a, pc') == Grower(s, a, pc', bs, grown)
  {
    assert s.agents[a := pc][a := pc'] == s.agents[a := pc'];
  }

  /** The write lock is taken, and the new array is empty. */
  lemma GrowStarts(h: Hashing<nat>, s: Hash, a: nat)
    requires s.lock == 0 && a !in s.agents
    ensures Goes(h, a, Apply(h, s, Spawn(a, Rehash)),
                 Grower(s, a, GrowAt(0), s.buckets, seq(2 * |s.buckets|, _ => FREE)))
  {
    hide Goes;
    var s1, s2 := Goto(s, a, GrowTry), Goto(s, a, GrowCas);
    var s3 := Grower(s, a, GrowAt(0), s.buckets, seq(2 * |s.buckets|, _ => FREE));
    assert s.agents[a := GrowTry][a := GrowCas] == s.agents[a := GrowCas];
    assert s.agents[a := GrowCas][a := GrowAt(0)] == s.agents[a := GrowAt(0)];
    GoesStep(h, a, s1, s2);
    GoesStep(h, a, s2, s3);
    GoesOn(h, a, s1, s2, s3);
  }

  /** The search for a free bucket in the new array finds the first one on the path. */
  lemma {:induction false} FreeFound(h: Hashing<nat>, bs: seq<B>, k: nat, at: nat, free: nat) returns (i: nat)
    requires at <= free < |bs| && NoGap(h, bs, k, at) && bs[Path(h, |bs|, k, free)].state.Empty?
    ensures i < |bs| && NoGap(h, bs, k, i) && bs[Path(h, |bs|, k, i)].state.Empty?
    ensures FreeFrom(h, bs, k, at) == Some(Path(h, |bs|, k, i))
    decreases free - at
  {
    if bs[Path(h, |bs|, k, at)].state.Empty? {
      i := at;
    } else {
      i := FreeFound(h, bs, k, at + 1, free);
    }
  }

  /** The new array stores what has been moved, and nothing is free but empty buckets. */
  ghost predicate Built(h: Hashing<nat>, bits: nat, start: seq<B>, grown: seq<B>, j: nat, moved: map<nat, Entry<int>>)
    requires j <= |start|
  {
    && Good(h, bits, grown, moved) && Table.Moved(start, j, moved)
    && FilledCount(grown) == FilledCount(start[..j]) && |grown| == 2 * |start|
    && forall l: nat | l < |grown| :: !grown[l].state.Tombstone?
  }

  /** One pair finds its bucket in the new array. */
  lemma Places(h: Hashing<nat>, bits: nat, grown: seq<B>, moved: map<nat, Entry<int>>, k: nat, v: int)
    returns (b: nat)
    requires Good(h, bits, grown, moved) && k !in moved && FilledCount(grown) < |grown|
    requires forall l: nat | l < |grown| :: !grown[l].state.Tombstone?
    ensures b < |grown| && FreeFrom(h, grown, k, 0) == Some(b)
    ensures var grown' := grown[b := Bucket(0, Filled, Pair(k, v))];
            && Good(h, bits, grown', moved[k := Entry(v, 0)]) && FilledCount(grown') == FilledCount(grown) + 1
            && forall l: nat | l < |grown'| :: !grown'[l].state.Tombstone?
  {
    var free := NotFull(h, bits, grown, k);
    assert Settled(grown[Path(h, |grown|, k, free)]);
    hide FilledCount, Represents, AllPlaced, DistinctKeys;
    var i := FreeFound(h, grown, k, 0, free);
    b := Path(h, |grown|, k, i);
    StoreGood(h, bits, grown, moved, k, v, i);
    CountFill(grown, b, Bucket(0, Filled, Pair(k, v)));
  }

  /** One old bucket. */
  lemma MovesOne(h: Hashing<nat>, bits: nat, s: Hash, a: nat, start: seq<B>, bs: seq<B>, grown: seq<B>, j: nat,
                 moved: map<nat, Entry<int>>)
    returns (bs': seq<B>, grown': seq<B>, moved': map<nat, Entry<int>>)
    requires j < |start| && DistinctKeys(start) && AllSettled(start) && Built(h, bits, start, grown, j, moved)
    requires |bs| == |start| && bs[j] == start[j] && start[j].refcount == 0
    ensures Built(h, bits, start, grown', j + 1, moved')
    ensures |bs'| == |start| && forall l: nat | j < l < |start| :: bs'[l] == bs[l]
    ensures Goes(h, a, Grower(s, a, GrowAt(j), bs, grown), Grower(s, a, GrowAt(j + 1), bs', grown'))
  {
    hide Goes, Good, FilledCount, Represents, AllPlaced, DistinctKeys, Table.Moved;
    CountPrefix(start, j);
    MovedOne(start, j, moved);
    var x := start[j];
    if x.state.Filled? {
      var k, v := x.slot.key, x.slot.value;
      var b := Places(h, bits, grown, moved, k, v);
      bs', grown', moved' := bs[j := Bucket(0, Tombstone, Raw)], grown[b := Bucket(0, Filled, Pair(k, v))],
                             moved[k := Entry(v, 0)];
      MovesPair(h, s, a, bs, grown, j, b);
    } else {
      bs', grown', moved' := bs, grown, moved;
      var s0 := Grower(s, a, GrowAt(j), bs, grown);
      GrowerTwice(s, a, GrowAt(j), bs, grown, GrowAt(j + 1));
      GoesStep(h, a, s0, Grower(s, a, GrowAt(j + 1), bs, grown));
    }
  }

  lemma Waits(h: Hashing<nat>, s: Hash, a: nat, bs: seq<B>, grown: seq<B>, j: nat)
    requires j < |bs| && bs[j].state.Filled? && bs[j].refcount == 0
    ensures Goes(h, a, Grower(s, a, GrowAt(j), bs, grown), Grower(s, a, GrowMove(j), bs, grown))
  {
    hide Goes;
    var s0, s1 := Grower(s, a, GrowAt(j), bs, grown), Grower(s, a, GrowWait(j), bs, grown);
    GrowerTwice(s, a, GrowAt(j), bs, grown, GrowWait(j));
    GrowerTwice(s, a, GrowWait(j), bs, grown, GrowMove(j));
    GoesStep(h, a, s0, s1);
    GoesStep(h, a, s1, Grower(s, a, GrowMove(j), bs, grown));
    GoesOn(h, a, s0, s1, Grower(s, a, GrowMove(j), bs, grown));
  }

  lemma Moves(h: Hashing<nat>, s: Hash, a: nat, bs: seq<B>, grown: seq<B>, j: nat, b: nat)
    requires j < |bs| && bs[j].slot.Pair? && b < |grown| && FreeFrom(h, grown, bs[j].slot.key, 0) == Some(b)
    ensures Goes(h, a, Grower(s, a, GrowMove(j), bs, grown),
                 Grower(s, a, GrowAt(j + 1), bs[j := Bucket(0, Tombstone, Raw)],
                        grown[b := Bucket(0, Filled, bs[j].slot)]))
  {
    hide Goes, FreeFrom;
    assert s.agents[a := GrowMove(j)][a := GrowAt(j + 1)] == s.agents[a := GrowAt(j + 1)];
    GoesStep(h, a, Grower(s, a, GrowMove(j), bs, grown),
             Grower(s, a, GrowAt(j + 1), bs[j := Bucket(0, Tombstone, Raw)],
                    grown[b := Bucket(0, Filled, bs[j].slot)]));
  }

  lemma MovesPair(h: Hashing<nat>, s: Hash, a: nat, bs: seq<B>, grown: seq<B>, j: nat, b: nat)
    requires j < |bs| && bs[j].state.Filled? && bs[j].refcount == 0 && bs[j].slot.Pair?
    requires b < |grown| && FreeFrom(h, grown, bs[j].slot.key, 0) == Some(b)
    ensures Goes(h, a, Grower(s, a, GrowAt(j), bs, grown),
                 Grower(s, a, GrowAt(j + 1), bs[j := Bucket(0, Tombstone, Raw)],
                        grown[b := Bucket(0, Filled, bs[j].slot)]))
  {
    hide Goes, FreeFrom, Grower;
    Waits(h, s, a, bs, grown, j);
    Moves(h, s, a, bs, grown, j, b);
    GoesOn(h, a, Grower(s, a, GrowAt(j), bs, grown), Grower(s, a, GrowMove(j), bs, grown),
           Grower(s, a, GrowAt(j + 1), bs[j := Bucket(0, Tombstone, Raw)],
                  grown[b := Bucket(0, Filled, bs[j].slot)]));
  }

  /** The old buckets from `j` on. */
  lemma {:induction false} MovesAll(h: Hashing<nat>, bits: nat, s: Hash, a: nat, start: seq<B>, bs: seq<B>,
                                    grown: seq<B>, j: nat, moved: map<nat, Entry<int>>)
    returns (bs': seq<B>, grown': seq<B>, moved': map<nat, Entry<int>>)
    requires j <= |start| && DistinctKeys(start) && AllSettled(start) && Built(h, bits, start, grown, j, moved)
    requires |bs| == |start| && forall l: nat | j <= l < |start| :: bs[l] == start[l] && start[l].refcount == 0
    ensures Built(h, bits, start, grown', |start|, moved') && |bs'| == |start|
    ensures Goes(h, a, Grower(s, a, GrowAt(j), bs, grown), Grower(s, a, GrowAt(|start|), bs', grown'))
    decreases |start| - j
  {
    hide Goes, Built, AllSettled, DistinctKeys;
    if j == |start| {
      bs', grown', moved' := bs, grown, moved;
      Stands(h, a, Grower(s, a, GrowAt(j), bs, grown));
    } else {
      var bs1, grown1, moved1 := MovesOne(h, bits, s, a, start, bs, grown, j, moved);
      bs', grown', moved' := MovesAll(h, bits, s, a, start, bs1, grown1, j + 1, moved1);
      GoesOn(h, a, Grower(s, a, GrowAt(j), bs, grown), Grower(s, a, GrowAt(j + 1), bs1, grown1),
             Grower(s, a, GrowAt(|start|), bs', grown'));
    }
  }

  lemma Stands(h: Hashing<nat>, a: nat, s: Hash)
    ensures Goes(h, a, s, s)
  {
    assert Alone(h, s, a, 0) == s;
  }

  /** The table at rest with the new array. */
  function Grown(s: Hash, a: nat, grown: seq<B>): Hash {
    s.(lock := 0, generation := s.generation + 1, buckets := grown, grown := [], agents := s.agents[a := Done])
  }

  lemma Replaces(h: Hashing<nat>, s: Hash, a: nat, bs: seq<B>, grown: seq<B>)
    ensures Goes(h, a, Grower(s, a, GrowAt(|bs|), bs, grown),
                 Grower(s, a, GrowLeave, grown, []).(generation := s.generation + 1))
  {
    hide Goes;
    assert s.agents[a := GrowAt(|bs|)][a := GrowLeave] == s.agents[a := GrowLeave];
    GoesStep(h, a, Grower(s, a, GrowAt(|bs|), bs, grown),
             Grower(s, a, GrowLeave, grown, []).(generation := s.generation + 1));
  }

  /** The new array takes the place of the old one. */
  lemma GrowEnds(h: Hashing<nat>, s: Hash, a: nat, bs: seq<B>, grown: seq<B>)
    ensures Goes(h, a, Grower(s, a, GrowAt(|bs|), bs, grown), Grown(s, a, grown))
  {
    hide Goes;
    var s1 := Grower(s, a, GrowLeave, grown, []).(generation := s.generation + 1);
    Replaces(h, s, a, bs, grown);
    assert s.agents[a := GrowLeave][a := Done] == s.agents[a := Done];
    GoesStep(h, a, s1, Grown(s, a, grown));
    GoesOn(h, a, Grower(s, a, GrowAt(|bs|), bs, grown), s1, Grown(s, a, grown));
  }

  /** All pairs are moved. */
  lemma Rebuilds(h: Hashing<nat>, s: Hash, m: map<nat, Entry<int>>, a: nat) returns (bs: seq<B>, grown: seq<B>)
    requires Stores(h, s, m) && forall k | k in m :: m[k].guards == 0
    ensures Goes(h, a, Grower(s, a, GrowAt(0), s.buckets, seq(2 * |s.buckets|, _ => FREE)),
                 Grower(s, a, GrowAt(|bs|), bs, grown))
    ensures |grown| == 2 * |s.buckets| > 0 && DistinctKeys(grown) && AllPlaced(h, grown) && Represents(grown, m)
  {
    var bits := AtRest(h, s, m);
    hide Inv, Goes, Good, Represents, DistinctKeys, AllPlaced, Built, Grower;
    var empty: seq<B> := seq(2 * |s.buckets|, _ => FREE);
    BuiltEmpty(h, bits, s.buckets, m, empty);
    var moved;
    bs, grown, moved := MovesAll(h, bits + 1, s, a, s.buckets, s.buckets, empty, 0, map[]);
    BuiltAll(h, bits, s.buckets, m, grown, moved);
  }

  lemma BuiltEmpty(h: Hashing<nat>, bits: nat, start: seq<B>, m: map<nat, Entry<int>>, empty: seq<B>)
    requires Good(h, bits, start, m) && empty == seq(2 * |start|, _ => FREE)
    requires forall k | k in m :: m[k].guards == 0
    ensures Built(h, bits + 1, start, empty, 0, map[]) && DistinctKeys(start) && AllSettled(start)
    ensures forall l: nat | l < |start| :: start[l].refcount == 0
  {
    EmptyTableGood(h, bits + 1, empty);
    MovedNone(start);
    NoGuards(h, bits, start, m);
    hide Represents, DistinctKeys, AllPlaced, Table.Moved, FilledCount;
  }

  lemma BuiltAll(h: Hashing<nat>, bits: nat, start: seq<B>, m: map<nat, Entry<int>>, grown: seq<B>,
                 moved: map<nat, Entry<int>>)
    requires Good(h, bits, start, m) && Built(h, bits + 1, start, grown, |start|, moved)
    requires forall k | k in m :: m[k].guards == 0
    ensures |grown| == 2 * |start| > 0 && DistinctKeys(grown) && AllPlaced(h, grown) && Represents(grown, m)
  {
    hide Represents, DistinctKeys, AllPlaced, Table.Moved, FilledCount;
    MovedAll(h, bits, start, m, moved);
    assert moved == m;
  }

  /** A rehash that runs alone and finds no guard doubles the table and stores the same map. */
  lemma RehashAlone(h: Hashing<nat>, s: Hash, m: map<nat, Entry<int>>, a: nat) returns (s': Hash)
    requires Stores(h, s, m) && a !in s.agents
    requires forall k | k in m :: m[k].guards == 0
    ensures EndsIn(h, Apply(h, s, Spawn(a, Rehash)), a, s') && Stores(h, s', m)
    ensures s' == s.(agents := s.agents[a := Done], buckets := s'.buckets, generation := s.generation + 1)
    ensures |s'.buckets| == 2 * |s.buckets|
  {
    var bits := AtRest(h, s, m);
    hide Inv, Goes, Represents, DistinctKeys, AllPlaced, Good, Apply, EndsIn;
    var bs, grown := Rebuilds(h, s, m, a);
    var s0, s1 := Apply(h, s, Spawn(a, Rehash)), Grower(s, a, GrowAt(0), s.buckets, seq(2 * |s.buckets|, _ => FREE));
    s' := Grown(s, a, grown);
    GrowStarts(h, s, a);
    GrowEnds(h, s, a, bs, grown);
    GoesOn(h, a, s0, s1, Grower(s, a, GrowAt(|bs|), bs, grown));
    GoesOn(h, a, s0, Grower(s, a, GrowAt(|bs|), bs, grown), s');
    ApplyKeeps(h, s, Spawn(a, Rehash));
    EndsOnce(h, s0, a, s');
  }

  // ---------- With a guard ----------

  /** A rehash that has not passed bucket `p`, which is pinned. */
  predicate Before(s: Hash, a: nat, p: nat) {
    && a in s.agents && p < |s.buckets| && s.buckets[p].state.Filled? && s.buckets[p].refcount > 0
    && match s.agents[a]
       case GrowTry => s.lock == 0
       case GrowCas => s.lock == 0
       case GrowAt(j) => j <= p
       case GrowWait(j) => j <= p
       case GrowMove(j) => j < p
       case _ => false
  }

  lemma StaysBefore(h: Hashing<nat>, s: Hash, a: nat, p: nat)
    requires Before(s, a, p)
    ensures Before(Apply(h, s, Step(a)), a, p)
  {
  }

  lemma {:induction false} NeverOver(h: Hashing<nat>, s: Hash, a: nat, p: nat, n: nat)
    requires Before(s, a, p)
    ensures !Over(Alone(h, s, a, n), a)
    decreases n
  {
    hide Apply;
    if n > 0 {
      StaysBefore(h, s, a, p);
      NeverOver(h, Apply(h, s, Step(a)), a, p, n - 1);
    }
  }

  /** A rehash that runs alone while a guard refers to some key never ends. */
  lemma RehashWaits(h: Hashing<nat>, s: Hash, m: map<nat, Entry<int>>, a: nat, k: nat, n: nat)
    requires Stores(h, s, m) && a !in s.agents && k in m && m[k].guards > 0
    ensures !Over(Alone(h, Apply(h, s, Spawn(a, Rehash)), a, n), a)
  {
    hide Inv, DistinctKeys, AllPlaced;
    var p: nat :| Holds(s.buckets, p, k);
    hide Alone, Stores;
    assert Before(Apply(h, s, Spawn(a, Rehash)), a, p);
    NeverOver(h, Apply(h, s, Spawn(a, Rehash)), a, p, n);
  }
}
