/** What the bucket protocol achieves: an operation that runs without interference is the operation of
    a finite map.

    Nobody else is inside, any number of guards are outstanding, and the buckets store a map.  One agent
    runs one operation to its end.  Its steps are the atomic accesses of the bucket protocol.
 */
module SoloRuns {
  import opened AgentCount
  import opened BucketProtocol
  import opened Modular
  import opened Probe
  import opened Table
  import opened Wrappers

  // ---------- Runs of one agent ----------

  /** `n` steps of agent `a` and nobody else. */
  function Alone(h: Hashing<nat>, s: Hash, a: nat, n: nat): Hash
    decreases n
  {
    if n == 0 then s else Alone(h, Apply(h, s, Step(a)), a, n - 1)
  }

  /** The operation is over: it has given everything back, or it has become a guard. */
  predicate Over(s: Hash, a: nat) {
    a in s.agents && (s.agents[a].Done? || s.agents[a].Held?)
  }

  /** Some number of steps of the agent lead from `s` to `s'`. */
  ghost predicate Goes(h: Hashing<nat>, a: nat, s: Hash, s': Hash) {
    exists n: nat :: Alone(h, s, a, n) == s'
  }

  /** Running alone from `s`, agent `a` ends in `s'` and nowhere else. */
  ghost predicate EndsIn(h: Hashing<nat>, s: Hash, a: nat, s': Hash) {
    && Goes(h, a, s, s') && Over(s', a)
    && forall n: nat :: Over(Alone(h, s, a, n), a) ==> Alone(h, s, a, n) == s'
  }

  /** Nobody is inside an operation, and the buckets store the map `m`: every key is in one bucket and
      its probe path leads there. */
  ghost predicate Stores(h: Hashing<nat>, s: Hash, m: map<nat, Entry<int>>) {
    && Inv(h, s) && s.lock == 0
    && DistinctKeys(s.buckets) && AllPlaced(h, s.buckets) && Represents(s.buckets, m)
  }

  lemma {:induction false} AlonePlus(h: Hashing<nat>, s: Hash, a: nat, i: nat, j: nat)
    ensures Alone(h, s, a, i + j) == Alone(h, Alone(h, s, a, i), a, j)
    decreases i
  {
    hide Apply;
    if i > 0 {
      AlonePlus(h, Apply(h, s, Step(a)), a, i - 1, j);
    }
  }

  lemma {:induction false} StaysOver(h: Hashing<nat>, s: Hash, a: nat, n: nat)
    requires Over(s, a)
    ensures Alone(h, s, a, n) == s
    decreases n
  {
    assert Apply(h, s, Step(a)) == s;
    hide Apply;
    if n > 0 {
      StaysOver(h, s, a, n - 1);
    }
  }

  lemma {:induction false} AloneKeeps(h: Hashing<nat>, s: Hash, a: nat, n: nat)
    requires Inv(h, s)
    ensures Inv(h, Alone(h, s, a, n))
    decreases n
  {
    hide Apply, Inv;
    if n > 0 {
      ApplyKeeps(h, s, Step(a));
      AloneKeeps(h, Apply(h, s, Step(a)), a, n - 1);
    }
  }

  lemma EndsOnce(h: Hashing<nat>, s: Hash, a: nat, s': Hash)
    requires Inv(h, s) && Goes(h, a, s, s') && Over(s', a)
    ensures EndsIn(h, s, a, s') && Inv(h, s')
  {
    hide Apply, Alone, Over, Inv;
    var n: nat :| Alone(h, s, a, n) == s';
    AloneKeeps(h, s, a, n);
    forall i: nat | Over(Alone(h, s, a, i), a)
      ensures Alone(h, s, a, i) == Alone(h, s, a, n)
    {
      var first, more := if i < n then i else n, if i < n then n - i else i - n;
      AlonePlus(h, s, a, first, more);
      StaysOver(h, Alone(h, s, a, first), a, more);
    }
  }

  // ---------- At rest ----------

  lemma NobodyWith(s: Hash, p: PC -> bool)
    requires forall c <- s.agents :: !p(s.agents[c])
    ensures Count(s.agents, p) == 0
  {
    assert Where(s.agents, p) == {};
  }

  lemma NobodyIn(h: Hashing<nat>, s: Hash)
    requires Inv(h, s) && s.lock == 0
    ensures forall c <- s.agents :: !Inside(s.agents[c]) && !Growing(s.agents[c])
  {
    forall c <- s.agents
      ensures !Inside(s.agents[c]) && !Growing(s.agents[c])
    {
      LockIsOk(h, s);
      hide Inv;
      if Growing(s.agents[c]) {
        CountWitness(s.agents, Growing, c);
      }
      CountZero(s.agents, Inside, c);
    }
  }

  lemma NothingOwned(s: Hash, b: nat)
    requires forall c <- s.agents :: !Inside(s.agents[c])
    ensures TallyOf(s, b).claims == 0 && TallyOf(s, b).marks == 0
  {
    NobodyWith(s, ClaimingAt(b));
    NobodyWith(s, MarkingAt(b));
  }

  /** With nobody inside, no bucket is in a transient state. */
  lemma SettledBucket(h: Hashing<nat>, s: Hash, b: nat)
    requires Inv(h, s) && s.lock == 0 && b < |s.buckets|
    ensures Settled(s.buckets[b])
  {
    NobodyIn(h, s);
    hide TallyOf, Inside, AgentOk, LockOk, GrownOk, LoadOk;
    NothingOwned(s, b);
    assert BucketOk(s.buckets[b], TallyOf(s, b));
  }

  lemma SettledLoad(h: Hashing<nat>, s: Hash)
    requires Inv(h, s) && s.lock == 0 && AllSettled(s.buckets)
    ensures s.load == FilledCount(s.buckets) && s.grown == []
  {
    NobodyIn(h, s);
    assert LoadOk(s) && GrownOk(s);
    hide Inv;
    NobodyWith(s, Publishing);
    NobodyWith(s, Burying);
    assert forall b: nat | b < |s.buckets| :: Settled(s.buckets[b]);
    assert LiveSet(s.buckets) == FilledSet(s.buckets);
    assert LiveSet([]) == {};
  }

  /** What the sequential table knows of its buckets holds of a protocol at rest. */
  lemma AtRest(h: Hashing<nat>, s: Hash, m: map<nat, Entry<int>>) returns (bits: nat)
    requires Stores(h, s, m)
    ensures Good(h, bits, s.buckets, m) && s.load == FilledCount(s.buckets) && s.grown == []
  {
    bits :| |s.buckets| == Pow2(bits);
    hide Inv, Represents, DistinctKeys, AllPlaced;
    assert Proper(h) by { ProperHash(h, s); }
    assert AllSettled(s.buckets) by {
      forall b: nat | b < |s.buckets|
        ensures Settled(s.buckets[b])
      {
        SettledBucket(h, s, b);
      }
    }
    SettledLoad(h, s);
  }

  lemma ProperHash(h: Hashing<nat>, s: Hash)
    requires Inv(h, s)
    ensures Proper(h)
  {
  }

  /** A new map stores nothing. */
  lemma NewStores(h: Hashing<nat>)
    requires Proper(h)
    ensures Stores(h, New(), map[])
  {
    NewInv(h);
    assert Pow2(6) == 64;
    EmptyTableGood(h, 6, New().buckets);
    hide Inv;
  }

  // ---------- The view of one agent ----------

  /** Where the agent stands, and what it finds in the table. */
  datatype View = View(pc: PC, bs: seq<B>, lock: nat, load: int)

  function Mine(s: Hash, a: nat, u: View): Hash {
    s.(agents := s.agents[a := u.pc], buckets := u.bs, lock := u.lock, load := u.load)
  }

  /** The same between two views. */
  ghost predicate Leads(h: Hashing<nat>, s: Hash, a: nat, u: View, v: View) {
    Goes(h, a, Mine(s, a, u), Mine(s, a, v))
  }

  lemma MineTwice(s: Hash, a: nat, u: View, v: View)
    ensures Mine(Mine(s, a, u), a, v) == Mine(s, a, v)
  {
    assert s.agents[a := u.pc][a := v.pc] == s.agents[a := v.pc];
  }

  lemma GoesOn(h: Hashing<nat>, a: nat, s: Hash, t: Hash, r: Hash)
    requires Goes(h, a, s, t) && Goes(h, a, t, r)
    ensures Goes(h, a, s, r)
  {
    hide Alone;
    var i: nat :| Alone(h, s, a, i) == t;
    var j: nat :| Alone(h, t, a, j) == r;
    AlonePlus(h, s, a, i, j);
  }

  lemma GoesOne(h: Hashing<nat>, a: nat, s: Hash)
    ensures Goes(h, a, s, Apply(h, s, Step(a)))
  {
    hide Apply;
    assert Alone(h, Apply(h, s, Step(a)), a, 0) == Apply(h, s, Step(a));
    assert Alone(h, s, a, 1) == Apply(h, s, Step(a));
  }

  lemma LeadsOn(h: Hashing<nat>, s: Hash, a: nat, u: View, v: View, w: View)
    requires Leads(h, s, a, u, v) && Leads(h, s, a, v, w)
    ensures Leads(h, s, a, u, w)
  {
    hide Goes, Mine;
    GoesOn(h, a, Mine(s, a, u), Mine(s, a, v), Mine(s, a, w));
  }

  lemma LeadsOne(h: Hashing<nat>, s: Hash, a: nat, u: View, v: View)
    requires Advance(h, Mine(s, a, u), a, u.pc) == Mine(Mine(s, a, u), a, v)
    ensures Leads(h, s, a, u, v)
  {
    hide Advance, Goes;
    MineTwice(s, a, u, v);
    GoesOne(h, a, Mine(s, a, u));
  }

  lemma InsertLeads(h: Hashing<nat>, s: Hash, a: nat, u: View, v: View)
    requires InInsert(u.pc) && InsertStep(h, Mine(s, a, u), a, u.pc) == Mine(Mine(s, a, u), a, v)
    ensures Leads(h, s, a, u, v)
  {
    hide InsertStep, Leads, Mine;
    LeadsOne(h, s, a, u, v);
  }

  lemma RemoveLeads(h: Hashing<nat>, s: Hash, a: nat, u: View, v: View)
    requires InRemove(u.pc) && RemoveStep(h, Mine(s, a, u), a, u.pc) == Mine(Mine(s, a, u), a, v)
    ensures Leads(h, s, a, u, v)
  {
    hide RemoveStep, Leads, Mine;
    LeadsOne(h, s, a, u, v);
  }

  lemma GetLeads(h: Hashing<nat>, s: Hash, a: nat, u: View, v: View)
    requires InGet(u.pc) || IsGuard(u.pc)
    requires GetStep(h, Mine(s, a, u), a, u.pc) == Mine(Mine(s, a, u), a, v)
    ensures Leads(h, s, a, u, v)
  {
    hide GetStep, Leads, Mine;
    LeadsOne(h, s, a, u, v);
  }

  lemma LockLeads(h: Hashing<nat>, s: Hash, a: nat, u: View, v: View)
    requires u.pc.Enter? || u.pc.EnterCas? || u.pc.Leave?
    requires LockStep(Mine(s, a, u), a, u.pc) == Mine(Mine(s, a, u), a, v)
    ensures Leads(h, s, a, u, v)
  {
    hide LockStep, Leads, Mine;
    LeadsOne(h, s, a, u, v);
  }

  // ---------- Entering and leaving ----------

  lemma Enters(h: Hashing<nat>, s: Hash, a: nat, op: Op, bs: seq<B>, load: int)
    ensures Leads(h, s, a, View(Enter(op), bs, 0, load), View(First(op), bs, 1, load))
  {
    hide Leads;
    var u, v := View(Enter(op), bs, 0, load), View(EnterCas(op, 0), bs, 0, load);
    LockLeads(h, s, a, u, v);
    LockLeads(h, s, a, v, View(First(op), bs, 1, load));
    LeadsOn(h, s, a, u, v, View(First(op), bs, 1, load));
  }

  lemma Leaves(h: Hashing<nat>, s: Hash, a: nat, bs: seq<B>, load: int)
    ensures Leads(h, s, a, View(Leave, bs, 1, load), View(Done, bs, 0, load))
  {
    hide Leads;
    LockLeads(h, s, a, View(Leave, bs, 1, load), View(Done, bs, 0, load));
  }

  // ---------- Insert ----------

  /** The bucket of the probe holds a pair: it is pinned ... */
  lemma InsPins(h: Hashing<nat>, s: Hash, a: nat, k: nat, v: int, at: nat, claim: Option<nat>, bs: seq<B>, load: int)
    requires at < |bs| && bs[Path(h, |bs|, k, at)].state.Filled?
    ensures var b := Path(h, |bs|, k, at);
            Leads(h, s, a, View(InsAt(k, v, at, claim), bs, 1, load),
                  View(InsCompare(k, v, at, claim, b), bs[b := bs[b].(refcount := bs[b].refcount + 1)], 1, load))
  {
    hide Leads, Path;
    var b := Path(h, |bs|, k, at);
    var bs' := bs[b := bs[b].(refcount := bs[b].refcount + 1)];
    var u := View(InsAt(k, v, at, claim), bs, 1, load);
    var w := View(InsPin(k, v, at, claim, b, Word(bs[b].refcount, Filled)), bs, 1, load);
    InsertLeads(h, s, a, u, w);
    InsertLeads(h, s, a, w, View(InsCompare(k, v, at, claim, b), bs', 1, load));
    LeadsOn(h, s, a, u, w, View(InsCompare(k, v, at, claim, b), bs', 1, load));
  }

  /** ... compared, and unpinned again. */
  lemma InsUnpins(h: Hashing<nat>, s: Hash, a: nat, k: nat, v: int, at: nat, claim: Option<nat>, b: nat, bs: seq<B>,
                  load: int)
    requires b < |bs| && bs[b].state.Filled? && bs[b].slot.Pair?
    ensures Leads(h, s, a,
                  View(InsCompare(k, v, at, claim, b), bs[b := bs[b].(refcount := bs[b].refcount + 1)], 1, load),
                  View(AfterCompare(bs[b].slot.key == k, k, v, at, claim), bs, 1, load))
  {
    hide Leads;
    var bs' := bs[b := bs[b].(refcount := bs[b].refcount + 1)];
    var same := bs[b].slot.key == k;
    var u := View(InsCompare(k, v, at, claim, b), bs', 1, load);
    var w := View(InsUnpin(k, v, at, claim, b, same), bs', 1, load);
    var x := View(InsUnpinCas(k, v, at, claim, b, same, Word(bs[b].refcount + 1, Filled)), bs', 1, load);
    var y := View(AfterCompare(same, k, v, at, claim), bs, 1, load);
    InsertLeads(h, s, a, u, w);
    InsertLeads(h, s, a, w, x);
    assert bs'[b := bs[b]] == bs;
    InsertLeads(h, s, a, x, y);
    LeadsOn(h, s, a, u, w, x);
    LeadsOn(h, s, a, u, x, y);
  }

  function AfterCompare(same: bool, k: nat, v: int, at: nat, claim: Option<nat>): PC {
    if !same then InsAt(k, v, at + 1, claim) else if claim.Some? then InsAbort(claim.value) else Leave
  }

  lemma InsCompares(h: Hashing<nat>, s: Hash, a: nat, k: nat, v: int, at: nat, claim: Option<nat>, bs: seq<B>,
                    load: int)
    requires at < |bs| && bs[Path(h, |bs|, k, at)].state.Filled? && bs[Path(h, |bs|, k, at)].slot.Pair?
    ensures Leads(h, s, a, View(InsAt(k, v, at, claim), bs, 1, load),
                  View(AfterCompare(bs[Path(h, |bs|, k, at)].slot.key == k, k, v, at, claim), bs, 1, load))
  {
    hide Leads, Path, AfterCompare;
    var b := Path(h, |bs|, k, at);
    var bs' := bs[b := bs[b].(refcount := bs[b].refcount + 1)];
    InsPins(h, s, a, k, v, at, claim, bs, load);
    InsUnpins(h, s, a, k, v, at, claim, b, bs, load);
    LeadsOn(h, s, a, View(InsAt(k, v, at, claim), bs, 1, load), View(InsCompare(k, v, at, claim, b), bs', 1, load),
            View(AfterCompare(bs[b].slot.key == k, k, v, at, claim), bs, 1, load));
  }

  const CLAIMED: B := Bucket(0, Constructing, Raw)

  /** A claimed bucket gets the pair and is published. */
  lemma InsStores(h: Hashing<nat>, s: Hash, a: nat, k: nat, v: int, c: nat, bs: seq<B>, load: int)
    requires c < |bs| && bs[c] == CLAIMED
    ensures Leads(h, s, a, View(InsBuild(k, v, c), bs, 1, load),
                  View(Leave, bs[c := Bucket(0, Filled, Pair(k, v))], 1, load + 1))
  {
    hide Leads;
    var built := bs[c := Bucket(0, Constructing, Pair(k, v))];
    var u, w := View(InsBuild(k, v, c), bs, 1, load), View(InsCount(c), built, 1, load);
    var x := View(InsPublish(c), built, 1, load + 1);
    var y := View(Leave, bs[c := Bucket(0, Filled, Pair(k, v))], 1, load + 1);
    InsertLeads(h, s, a, u, w);
    InsertLeads(h, s, a, w, x);
    assert built[c := Bucket(0, Filled, Pair(k, v))] == y.bs;
    InsertLeads(h, s, a, x, y);
    LeadsOn(h, s, a, u, w, x);
    LeadsOn(h, s, a, u, x, y);
  }

  /** A claimed tombstone is given back. */
  lemma InsGivesBack(h: Hashing<nat>, s: Hash, a: nat, c: nat, bs: seq<B>, load: int)
    requires c < |bs| && bs[c] == CLAIMED
    ensures Leads(h, s, a, View(InsAbort(c), bs, 1, load), View(Leave, bs[c := Bucket(0, Tombstone, Raw)], 1, load))
  {
    hide Leads;
    InsertLeads(h, s, a, View(InsAbort(c), bs, 1, load), View(Leave, bs[c := Bucket(0, Tombstone, Raw)], 1, load));
  }

  /** An empty bucket ends the search. */
  lemma InsStops(h: Hashing<nat>, s: Hash, a: nat, k: nat, v: int, at: nat, claim: Option<nat>, bs: seq<B>, load: int)
    requires at < |bs| && bs[Path(h, |bs|, k, at)] == FREE
    ensures Leads(h, s, a, View(InsAt(k, v, at, claim), bs, 1, load),
                  if claim.Some? then View(InsBuild(k, v, claim.value), bs, 1, load)
                  else var b := Path(h, |bs|, k, at); View(InsBuild(k, v, b), bs[b := CLAIMED], 1, load))
  {
    hide Leads, Path;
    var b := Path(h, |bs|, k, at);
    InsertLeads(h, s, a, View(InsAt(k, v, at, claim), bs, 1, load),
                if claim.Some? then View(InsBuild(k, v, claim.value), bs, 1, load)
                else View(InsBuild(k, v, b), bs[b := CLAIMED], 1, load));
  }

  /** The first tombstone is claimed, and later ones are passed. */
  lemma InsTombs(h: Hashing<nat>, s: Hash, a: nat, k: nat, v: int, at: nat, claim: Option<nat>, bs: seq<B>, load: int)
    requires at < |bs| && bs[Path(h, |bs|, k, at)] == Bucket(0, Tombstone, Raw)
    ensures Leads(h, s, a, View(InsAt(k, v, at, claim), bs, 1, load),
                  if claim.Some? then View(InsAt(k, v, at + 1, claim), bs, 1, load)
                  else var b := Path(h, |bs|, k, at);
                       View(InsAt(k, v, at + 1, Some(b)), bs[b := CLAIMED], 1, load))
  {
    hide Leads, Path;
    var b := Path(h, |bs|, k, at);
    var u := View(InsAt(k, v, at, claim), bs, 1, load);
    if claim.Some? {
      InsertLeads(h, s, a, u, View(InsAt(k, v, at + 1, claim), bs, 1, load));
    } else {
      var w := View(InsTomb(k, v, at, b), bs, 1, load);
      var x := View(InsTombCas(k, v, at, b, Word(0, Tombstone)), bs, 1, load);
      var y := View(InsAt(k, v, at + 1, Some(b)), bs[b := CLAIMED], 1, load);
      InsertLeads(h, s, a, u, w);
      InsertLeads(h, s, a, w, x);
      InsertLeads(h, s, a, x, y);
      LeadsOn(h, s, a, u, w, x);
      LeadsOn(h, s, a, u, x, y);
    }
  }

  /** Where an insert leads: the buckets are as before, or they store one key more. */
  ghost predicate Inserted(h: Hashing<nat>, bits: nat, start: seq<B>, m: map<nat, Entry<int>>, k: nat, v: int,
                           bs: seq<B>) {
    if k in m then bs == start
    else Good(h, bits, bs, m[k := Entry(v, 0)]) && FilledCount(bs) == FilledCount(start) + 1
  }

  function LoadAfter(m: map<nat, Entry<int>>, k: nat, load: int): int {
    if k in m then load else load + 1
  }

  /** The insert has found its place. */
  lemma InsPlaces(h: Hashing<nat>, bits: nat, s: Hash, a: nat, start: seq<B>, m: map<nat, Entry<int>>, k: nat, v: int,
                  load: int, i: nat, at: nat)
    requires Good(h, bits, start, m) && at <= i <= |start| && at < |start|
    requires !start[Path(h, |start|, k, at)].state.Filled? && NoGap(h, start, k, i)
    requires forall p: nat | p < i :: !Holds(start, Path(h, |start|, k, p), k)
    requires i == |start| || start[Path(h, |start|, k, i)].state.Empty?
    ensures var c := Path(h, |start|, k, at); var bs := start[c := Bucket(0, Filled, Pair(k, v))];
            && k !in m && Inserted(h, bits, start, m, k, v, bs)
            && Leads(h, s, a, View(InsBuild(k, v, c), start[c := CLAIMED], 1, load), View(Leave, bs, 1, load + 1))
  {
    var c := Path(h, |start|, k, at);
    Absent(h, bits, start, m, k, i);
    StoreGood(h, bits, start, m, k, v, at);
    CountFill(start, c, Bucket(0, Filled, Pair(k, v)));
    hide Good, Leads, Path, FilledCount;
    InsStores(h, s, a, k, v, c, start[c := CLAIMED], load);
    assert start[c := CLAIMED][c := Bucket(0, Filled, Pair(k, v))] == start[c := Bucket(0, Filled, Pair(k, v))];
  }

  /** The search has ended, at an empty bucket or after the last probe. */
  lemma InsEnds(h: Hashing<nat>, bits: nat, s: Hash, a: nat, start: seq<B>, m: map<nat, Entry<int>>, k: nat, v: int,
                load: int, i: nat, claim: Option<nat>, at: nat)
    returns (bs: seq<B>)
    requires Good(h, bits, start, m) && FilledCount(start) < |start|
    requires i <= |start| && Probed(h, start, k, i, claim, at)
    requires i < |start| ==> start[Path(h, |start|, k, i)].state.Empty? && start[Path(h, |start|, k, i)] == FREE
                             && (claim.Some? ==> claim.value != Path(h, |start|, k, i))
    ensures Inserted(h, bits, start, m, k, v, bs) && k !in m
    ensures Leads(h, s, a, View(InsAt(k, v, i, claim), Claiming(start, claim), 1, load), View(Leave, bs, 1, load + 1))
  {
    var now := Claiming(start, claim);
    if i == |start| && claim.None? {
      var j := NotFull(h, bits, start, k);
      assert false;
    } else {
      var first := if claim.Some? then at else i;
      var c := Path(h, |start|, k, first);
      bs := start[c := Bucket(0, Filled, Pair(k, v))];
      InsPlaces(h, bits, s, a, start, m, k, v, load, i, first);
      hide Good, Leads, Path, FilledCount, Probed, Inserted;
      var u, w := View(InsAt(k, v, i, claim), now, 1, load), View(InsBuild(k, v, c), start[c := CLAIMED], 1, load);
      if i == |start| {
        InsertLeads(h, s, a, u, w);
      } else {
        InsStops(h, s, a, k, v, i, claim, now, load);
      }
      LeadsOn(h, s, a, u, w, View(Leave, bs, 1, load + 1));
    }
  }

  /** The key is there: the claimed bucket is given back. */
  lemma InsRepeats(h: Hashing<nat>, s: Hash, a: nat, start: seq<B>, k: nat, v: int, load: int, i: nat,
                   claim: Option<nat>)
    requires claim.Some? ==> claim.value < |start| && start[claim.value] == Bucket(0, Tombstone, Raw)
    requires i < |start| && Holds(start, Path(h, |start|, k, i), k)
    ensures Leads(h, s, a, View(InsAt(k, v, i, claim), Claiming(start, claim), 1, load), View(Leave, start, 1, load))
  {
    hide Leads, Path;
    var now := Claiming(start, claim);
    InsCompares(h, s, a, k, v, i, claim, now, load);
    if claim.Some? {
      var c := claim.value;
      InsGivesBack(h, s, a, c, now, load);
      assert now[c := Bucket(0, Tombstone, Raw)] == start;
      LeadsOn(h, s, a, View(InsAt(k, v, i, claim), now, 1, load), View(InsAbort(c), now, 1, load),
              View(Leave, start, 1, load));
    }
  }

  /** One probe that does not end the search. */
  lemma InsGoesOn(h: Hashing<nat>, s: Hash, a: nat, start: seq<B>, k: nat, v: int, load: int, i: nat,
                  claim: Option<nat>, at: nat)
    returns (claim': Option<nat>, at': nat)
    requires i < |start| && Probed(h, start, k, i, claim, at) && Settled(start[Path(h, |start|, k, i)])
    requires var b := Path(h, |start|, k, i);
             !start[b].state.Empty? && !Holds(start, b, k) && (claim.Some? ==> claim.value != b)
    ensures Probed(h, start, k, i + 1, claim', at')
    ensures Leads(h, s, a, View(InsAt(k, v, i, claim), Claiming(start, claim), 1, load),
                  View(InsAt(k, v, i + 1, claim'), Claiming(start, claim'), 1, load))
  {
    ProbedOnce(h, start, k, i, claim, at);
    hide Leads, Path;
    var b := Path(h, |start|, k, i);
    if start[b].state.Filled? {
      claim', at' := claim, at;
      InsCompares(h, s, a, k, v, i, claim, Claiming(start, claim), load);
    } else {
      claim', at' := if claim.Some? then claim else Some(b), if claim.Some? then at else i;
      InsTombs(h, s, a, k, v, i, claim, Claiming(start, claim), load);
    }
  }

  /** An insert from probe `i` on. */
  lemma {:induction false} InsProbes(h: Hashing<nat>, bits: nat, s: Hash, a: nat, start: seq<B>,
                                     m: map<nat, Entry<int>>, k: nat, v: int, load: int,
                                     i: nat, claim: Option<nat>, at: nat)
    returns (bs: seq<B>)
    requires Good(h, bits, start, m) && FilledCount(start) < |start|
    requires i <= |start| && Probed(h, start, k, i, claim, at)
    ensures Inserted(h, bits, start, m, k, v, bs)
    ensures Leads(h, s, a, View(InsAt(k, v, i, claim), Claiming(start, claim), 1, load),
                  View(Leave, bs, 1, LoadAfter(m, k, load)))
    decreases |start| - i
  {
    hide Leads, FilledCount, AllPlaced;
    var b := Path(h, |start|, k, i);
    if claim.Some? && i < |start| {
      ProbesDistinct(h.start(k), h.step(k), bits, at, i);
    }
    if i == |start| || start[b].state.Empty? {
      bs := InsEnds(h, bits, s, a, start, m, k, v, load, i, claim, at);
    } else if Holds(start, b, k) {
      bs := start;
      InsRepeats(h, s, a, start, k, v, load, i, claim);
    } else {
      assert Settled(start[b]);
      var claim', at' := InsGoesOn(h, s, a, start, k, v, load, i, claim, at);
      bs := InsProbes(h, bits, s, a, start, m, k, v, load, i + 1, claim', at');
      LeadsOn(h, s, a, View(InsAt(k, v, i, claim), Claiming(start, claim), 1, load),
              View(InsAt(k, v, i + 1, claim'), Claiming(start, claim'), 1, load),
              View(Leave, bs, 1, LoadAfter(m, k, load)));
    }
  }

  /** An operation from its start to its end. */
  lemma Whole(h: Hashing<nat>, s: Hash, a: nat, op: Op, v: View)
    requires Inv(h, s) && s.lock == 0 && a !in s.agents && !op.Rehash? && (v.pc.Done? || v.pc.Held?)
    requires Leads(h, s, a, View(First(op), s.buckets, 1, s.load), v)
    ensures Inv(h, Mine(s, a, v)) && EndsIn(h, Apply(h, s, Spawn(a, op)), a, Mine(s, a, v))
  {
    hide Inv, Leads;
    var u := View(Enter(op), s.buckets, 0, s.load);
    Enters(h, s, a, op, s.buckets, s.load);
    LeadsOn(h, s, a, u, View(First(op), s.buckets, 1, s.load), v);
    assert Apply(h, s, Spawn(a, op)) == Mine(s, a, u);
    ApplyKeeps(h, s, Spawn(a, op));
    Reaches(h, s, a, u, v);
  }

  lemma WholeLeaves(h: Hashing<nat>, s: Hash, a: nat, op: Op, bs: seq<B>, load: int)
    requires Inv(h, s) && s.lock == 0 && a !in s.agents && !op.Rehash?
    requires Leads(h, s, a, View(First(op), s.buckets, 1, s.load), View(Leave, bs, 1, load))
    ensures var s' := Mine(s, a, View(Done, bs, 0, load));
            Inv(h, s') && EndsIn(h, Apply(h, s, Spawn(a, op)), a, s')
  {
    hide Inv, Leads, EndsIn, Apply;
    Leaves(h, s, a, bs, load);
    LeadsOn(h, s, a, View(First(op), s.buckets, 1, s.load), View(Leave, bs, 1, load), View(Done, bs, 0, load));
    Whole(h, s, a, op, View(Done, bs, 0, load));
  }

  lemma Reaches(h: Hashing<nat>, s: Hash, a: nat, u: View, x: View)
    requires Inv(h, Mine(s, a, u)) && Leads(h, s, a, u, x) && (x.pc.Done? || x.pc.Held?)
    ensures Inv(h, Mine(s, a, x)) && EndsIn(h, Mine(s, a, u), a, Mine(s, a, x))
  {
    hide Inv, Goes;
    EndsOnce(h, Mine(s, a, u), a, Mine(s, a, x));
  }

  /** An insert that runs alone puts the key into the map.  It changes nothing if the key is there or the
      table is crowded. */
  lemma InsertAlone(h: Hashing<nat>, s: Hash, m: map<nat, Entry<int>>, a: nat, k: nat, v: int) returns (s': Hash)
    requires Stores(h, s, m) && a !in s.agents
    ensures EndsIn(h, Apply(h, s, Spawn(a, Insert(k, v))), a, s')
    ensures k in m || 5 * s.load >= 3 * |s.buckets| ==> s' == s.(agents := s.agents[a := Done]) && Stores(h, s', m)
    ensures k !in m && 5 * s.load < 3 * |s.buckets| ==> Stores(h, s', m[k := Entry(v, 0)]) && s'.load == s.load + 1
    ensures s' == s.(agents := s.agents[a := Done], buckets := s'.buckets, load := s'.load)
    ensures |s'.buckets| == |s.buckets|
  {
    var bits := AtRest(h, s, m);
    var bs := s.buckets;
    hide Inv, Good, Leads;
    var u := View(InsLoad(k, v), s.buckets, 1, s.load);
    if 5 * s.load >= 3 * |s.buckets| {
      InsertLeads(h, s, a, u, View(Leave, bs, 1, s.load));
      WholeLeaves(h, s, a, Insert(k, v), bs, s.load);
      s' := Mine(s, a, View(Done, bs, 0, s.load));
    } else {
      InsertLeads(h, s, a, u, View(InsAt(k, v, 0, None), bs, 1, s.load));
      bs := InsProbes(h, bits, s, a, s.buckets, m, k, v, s.load, 0, None, 0);
      LeadsOn(h, s, a, u, View(InsAt(k, v, 0, None), s.buckets, 1, s.load),
              View(Leave, bs, 1, LoadAfter(m, k, s.load)));
      WholeLeaves(h, s, a, Insert(k, v), bs, LoadAfter(m, k, s.load));
      s' := Mine(s, a, View(Done, bs, 0, LoadAfter(m, k, s.load)));
    }
  }

  // ---------- Lookup ----------

  function Pinned(bs: seq<B>, b: nat): seq<B>
    requires b < |bs|
  {
    bs[b := bs[b].(refcount := bs[b].refcount + 1)]
  }

  function AfterFound(same: bool, k: nat, at: nat, b: nat): PC {
    if same then GetHit(k, b) else GetUnpin(k, at, b)
  }

  /** The bucket of the probe holds a pair: it is pinned ... */
  lemma GetPins(h: Hashing<nat>, s: Hash, a: nat, k: nat, at: nat, bs: seq<B>, load: int)
    requires at < |bs| && bs[Path(h, |bs|, k, at)].state.Filled?
    ensures var b := Path(h, |bs|, k, at);
            Leads(h, s, a, View(GetAt(k, at), bs, 1, load), View(GetCompare(k, at, b), Pinned(bs, b), 1, load))
  {
    hide Leads, Path;
    var b := Path(h, |bs|, k, at);
    var u, w := View(GetAt(k, at), bs, 1, load), View(GetCas(k, at, b, Word(bs[b].refcount, Filled)), bs, 1, load);
    GetLeads(h, s, a, u, w);
    GetLeads(h, s, a, w, View(GetCompare(k, at, b), Pinned(bs, b), 1, load));
    LeadsOn(h, s, a, u, w, View(GetCompare(k, at, b), Pinned(bs, b), 1, load));
  }

  /** ... compared ... */
  lemma GetCompares(h: Hashing<nat>, s: Hash, a: nat, k: nat, at: nat, bs: seq<B>, load: int)
    requires at < |bs| && bs[Path(h, |bs|, k, at)].state.Filled? && bs[Path(h, |bs|, k, at)].slot.Pair?
    ensures var b := Path(h, |bs|, k, at);
            Leads(h, s, a, View(GetAt(k, at), bs, 1, load),
                  View(AfterFound(bs[b].slot.key == k, k, at, b), Pinned(bs, b), 1, load))
  {
    hide Leads, Path;
    var b := Path(h, |bs|, k, at);
    var w := View(GetCompare(k, at, b), Pinned(bs, b), 1, load);
    var x := View(AfterFound(bs[b].slot.key == k, k, at, b), Pinned(bs, b), 1, load);
    GetPins(h, s, a, k, at, bs, load);
    GetLeads(h, s, a, w, x);
    LeadsOn(h, s, a, View(GetAt(k, at), bs, 1, load), w, x);
  }

  /** ... and unpinned, if it is another key. */
  lemma GetUnpins(h: Hashing<nat>, s: Hash, a: nat, k: nat, at: nat, b: nat, bs: seq<B>, load: int)
    requires b < |bs| && bs[b].state.Filled?
    ensures Leads(h, s, a, View(GetUnpin(k, at, b), Pinned(bs, b), 1, load), View(GetAt(k, at + 1), bs, 1, load))
  {
    hide Leads;
    var u := View(GetUnpin(k, at, b), Pinned(bs, b), 1, load);
    var w := View(GetUnpinCas(k, at, b, Word(bs[b].refcount + 1, Filled)), Pinned(bs, b), 1, load);
    assert Pinned(bs, b)[b := bs[b]] == bs;
    GetLeads(h, s, a, u, w);
    GetLeads(h, s, a, w, View(GetAt(k, at + 1), bs, 1, load));
    LeadsOn(h, s, a, u, w, View(GetAt(k, at + 1), bs, 1, load));
  }

  /** Where a lookup leads: it has found no such key, or it has become a guard of the key's bucket. */
  ghost predicate Found(s: Hash, bs: seq<B>, k: nat, found: Option<nat>, v: View, load: int) {
    match found
    case None => v == View(Leave, bs, 1, load) && forall j: nat :: !Holds(bs, j, k)
    case Some(b) => Holds(bs, b, k) && v == View(Held(k, b, s.generation), Pinned(bs, b), 0, load)
  }

  /** A lookup from probe `i` on. */
  lemma {:induction false} GetProbes(h: Hashing<nat>, bits: nat, s: Hash, a: nat, bs: seq<B>,
                                     m: map<nat, Entry<int>>, k: nat, load: int, i: nat)
    returns (found: Option<nat>, v: View)
    requires Good(h, bits, bs, m) && i <= |bs|
    requires forall p: nat | p < i :: !Holds(bs, Path(h, |bs|, k, p), k)
    ensures Found(s, bs, k, found, v, load)
    ensures Leads(h, s, a, View(GetAt(k, i), bs, 1, load), v)
    decreases |bs| - i
  {
    hide Leads, FilledCount, AllPlaced;
    var u := View(GetAt(k, i), bs, 1, load);
    var b := Path(h, |bs|, k, i);
    if i == |bs| || bs[b].state.Empty? {
      found, v := None, View(Leave, bs, 1, load);
      Absent(h, bits, bs, m, k, i);
      GetEnds(h, s, a, bs, k, load, i);
    } else {
      assert Settled(bs[b]);
      if Holds(bs, b, k) {
        found, v := Some(b), View(Held(k, b, s.generation), Pinned(bs, b), 0, load);
        GetHits(h, s, a, bs, k, load, i);
      } else {
        found, v := GetProbes(h, bits, s, a, bs, m, k, load, i + 1);
        GetGoesOn(h, s, a, bs, k, load, i);
        LeadsOn(h, s, a, u, View(GetAt(k, i + 1), bs, 1, load), v);
      }
    }
  }

  lemma GetEnds(h: Hashing<nat>, s: Hash, a: nat, bs: seq<B>, k: nat, load: int, i: nat)
    requires |bs| > 0 && (i >= |bs| || bs[Path(h, |bs|, k, i)].state.Empty?)
    ensures Leads(h, s, a, View(GetAt(k, i), bs, 1, load), View(Leave, bs, 1, load))
  {
    hide Leads, Path;
    GetLeads(h, s, a, View(GetAt(k, i), bs, 1, load), View(Leave, bs, 1, load));
  }

  lemma GetHits(h: Hashing<nat>, s: Hash, a: nat, bs: seq<B>, k: nat, load: int, i: nat)
    requires i < |bs| && Holds(bs, Path(h, |bs|, k, i), k)
    ensures var b := Path(h, |bs|, k, i);
            Leads(h, s, a, View(GetAt(k, i), bs, 1, load), View(Held(k, b, s.generation), Pinned(bs, b), 0, load))
  {
    hide Leads, Path;
    var b := Path(h, |bs|, k, i);
    var w, v := View(GetHit(k, b), Pinned(bs, b), 1, load), View(Held(k, b, s.generation), Pinned(bs, b), 0, load);
    GetCompares(h, s, a, k, i, bs, load);
    GetLeads(h, s, a, w, v);
    LeadsOn(h, s, a, View(GetAt(k, i), bs, 1, load), w, v);
  }

  lemma GetGoesOn(h: Hashing<nat>, s: Hash, a: nat, bs: seq<B>, k: nat, load: int, i: nat)
    requires i < |bs| && Settled(bs[Path(h, |bs|, k, i)]) && !bs[Path(h, |bs|, k, i)].state.Empty?
    requires !Holds(bs, Path(h, |bs|, k, i), k)
    ensures Leads(h, s, a, View(GetAt(k, i), bs, 1, load), View(GetAt(k, i + 1), bs, 1, load))
  {
    hide Leads, Path;
    var b := Path(h, |bs|, k, i);
    if bs[b].state.Filled? {
      GetCompares(h, s, a, k, i, bs, load);
      GetUnpins(h, s, a, k, i, b, bs, load);
      LeadsOn(h, s, a, View(GetAt(k, i), bs, 1, load), View(GetUnpin(k, i, b), Pinned(bs, b), 1, load),
              View(GetAt(k, i + 1), bs, 1, load));
    } else {
      GetLeads(h, s, a, View(GetAt(k, i), bs, 1, load), View(GetAt(k, i + 1), bs, 1, load));
    }
  }

  /** One more guard refers to `k`. */
  function Guarded(m: map<nat, Entry<int>>, k: nat): map<nat, Entry<int>>
    requires k in m
  {
    m[k := m[k].(guards := m[k].guards + 1)]
  }

  /** The agent has become a guard of bucket `b`, and the pin is all that has changed. */
  predicate GuardTaken(s: Hash, a: nat, k: nat, b: nat, s': Hash) {
    b < |s.buckets| && s' == s.(agents := s.agents[a := Held(k, b, s.generation)], buckets := Pinned(s.buckets, b))
  }

  /** A lookup that runs alone becomes a guard exactly if the key is in the map.  The guard is at the
      key's bucket, and the pin is all that changes. */
  lemma GetAlone(h: Hashing<nat>, s: Hash, m: map<nat, Entry<int>>, a: nat, k: nat)
    returns (s': Hash, b: nat)
    requires Stores(h, s, m) && a !in s.agents
    ensures EndsIn(h, Apply(h, s, Spawn(a, Get(k))), a, s')
    ensures k !in m ==> s' == s.(agents := s.agents[a := Done]) && Stores(h, s', m)
    ensures k in m ==>
              Holds(s.buckets, b, k) && GuardTaken(s, a, k, b, s') && Stores(h, s', Guarded(m, k))
  {
    var bits := AtRest(h, s, m);
    hide Inv, Good, Leads, Holds, Path;
    var found, v := GetProbes(h, bits, s, a, s.buckets, m, k, s.load, 0);
    KeyFound(h, bits, s, m, k, found, v);
    hide EndsIn, Apply, Found, Guarded, Represents, DistinctKeys, AllPlaced;
    if found.Some? {
      b, s' := found.value, Mine(s, a, v);
      Whole(h, s, a, Get(k), v);
    } else {
      b, s' := 0, Mine(s, a, View(Done, s.buckets, 0, s.load));
      WholeLeaves(h, s, a, Get(k), s.buckets, s.load);
    }
  }

  lemma KeyFound(h: Hashing<nat>, bits: nat, s: Hash, m: map<nat, Entry<int>>, k: nat, found: Option<nat>, v: View)
    requires Good(h, bits, s.buckets, m) && Found(s, s.buckets, k, found, v, s.load)
    ensures found.Some? <==> k in m
    ensures k !in m ==> v == View(Leave, s.buckets, 1, s.load)
    ensures k in m ==>
              && Holds(s.buckets, found.value, k)
              && v == View(Held(k, found.value, s.generation), Pinned(s.buckets, found.value), 0, s.load)
              && |v.bs| > 0 && DistinctKeys(v.bs) && AllPlaced(h, v.bs) && Represents(v.bs, Guarded(m, k))
  {
    if found.Some? {
      KeyPinned(h, bits, s.buckets, m, k, found.value);
    } else {
      assert forall j :: !Holds(s.buckets, j, k);
    }
    hide DistinctKeys, AllPlaced;
  }

  lemma KeyPinned(h: Hashing<nat>, bits: nat, bs: seq<B>, m: map<nat, Entry<int>>, k: nat, b: nat)
    requires Good(h, bits, bs, m) && Holds(bs, b, k)
    ensures k in m && Good(h, bits, Pinned(bs, b), Guarded(m, k))
  {
    GuardGood(h, bits, bs, m, k, b, bs[b].refcount + 1);
  }

  /** One guard fewer refers to `k`. */
  function Released(m: map<nat, Entry<int>>, k: nat): map<nat, Entry<int>>
    requires k in m && m[k].guards > 0
  {
    m[k := m[k].(guards := m[k].guards - 1)]
  }

  function Unpinned(bs: seq<B>, b: nat): seq<B>
    requires b < |bs| && bs[b].refcount > 0
  {
    bs[b := bs[b].(refcount := bs[b].refcount - 1)]
  }

  lemma GuardCounted(h: Hashing<nat>, s: Hash, m: map<nat, Entry<int>>, a: nat)
    requires Stores(h, s, m) && a in s.agents && s.agents[a].Held?
    ensures Holds(s.buckets, s.agents[a].b, s.agents[a].key)
    ensures s.agents[a].key in m && m[s.agents[a].key].guards == s.buckets[s.agents[a].b].refcount > 0
  {
    hide TallyOf, LockOk, GrownOk, LoadOk;
    PinCounted(h, s, a, s.agents[a].b);
    Remembers(h, s, a);
    SettledBucket(h, s, s.agents[a].b);
  }

  lemma DropSteps(h: Hashing<nat>, s: Hash, a: nat, k: nat, b: nat, g: nat, bs: seq<B>, load: int)
    requires b < |bs| && bs[b].refcount > 0
    ensures Leads(h, s, a, View(Dropping(k, b, g), bs, 0, load),
                  View(Done, Unpinned(bs, b), 0, load))
  {
    hide Leads;
    var u := View(Dropping(k, b, g), bs, 0, load);
    var w := View(DropCas(k, b, g, Word(bs[b].refcount, bs[b].state)), bs, 0, load);
    var x := View(Done, Unpinned(bs, b), 0, load);
    GetLeads(h, s, a, u, w);
    GetLeads(h, s, a, w, x);
    LeadsOn(h, s, a, u, w, x);
  }

  /** A guard that is dropped alone takes back its own pin. */
  lemma DropAlone(h: Hashing<nat>, s: Hash, m: map<nat, Entry<int>>, a: nat) returns (s': Hash)
    requires Stores(h, s, m) && a in s.agents && s.agents[a].Held?
    ensures EndsIn(h, Apply(h, s, Drop(a)), a, s') && s'.agents == s.agents[a := Done] && s'.load == s.load
    ensures var k := s.agents[a].key;
            k in m && m[k].guards > 0 && Stores(h, s', Released(m, k))
  {
    var bits := AtRest(h, s, m);
    GuardCounted(h, s, m, a);
    KeyReleased(h, bits, s.buckets, m, s.agents[a].key, s.agents[a].b);
    hide Inv, Holds, Represents, DistinctKeys, AllPlaced, EndsIn, Apply;
    s' := DropRuns(h, s, a);
  }

  lemma KeyReleased(h: Hashing<nat>, bits: nat, bs: seq<B>, m: map<nat, Entry<int>>, k: nat, b: nat)
    requires Good(h, bits, bs, m) && Holds(bs, b, k) && bs[b].refcount > 0
    ensures k in m && m[k].guards > 0 && Good(h, bits, Unpinned(bs, b), Released(m, k))
  {
    GuardGood(h, bits, bs, m, k, b, bs[b].refcount - 1);
  }

  lemma DropRuns(h: Hashing<nat>, s: Hash, a: nat) returns (s': Hash)
    requires Inv(h, s) && s.lock == 0 && a in s.agents && s.agents[a].Held?
    requires var b := s.agents[a].b; b < |s.buckets| && s.buckets[b].refcount > 0
    ensures var b := s.agents[a].b;
            s' == s.(agents := s.agents[a := Done], buckets := Unpinned(s.buckets, b))
    ensures Inv(h, s') && EndsIn(h, Apply(h, s, Drop(a)), a, s')
  {
    hide Inv, Leads, EndsIn;
    var k, b, g := s.agents[a].key, s.agents[a].b, s.agents[a].generation;
    var u := View(Dropping(k, b, g), s.buckets, 0, s.load);
    var v := View(Done, Unpinned(s.buckets, b), 0, s.load);
    DropSteps(h, s, a, k, b, g, s.buckets, s.load);
    assert Apply(h, s, Drop(a)) == Mine(s, a, u);
    ApplyKeeps(h, s, Drop(a));
    Reaches(h, s, a, u, v);
    s' := Mine(s, a, v);
  }

  // ---------- Remove ----------

  /** A filled bucket marked for removal, with the remover's pin. */
  function Marked(bs: seq<B>, b: nat): seq<B>
    requires b < |bs|
  {
    bs[b := Bucket(bs[b].refcount + 1, Predestructing, bs[b].slot)]
  }

  /** The bucket of the probe holds a pair: it is marked, whether it is pinned or not ... */
  lemma RemMarks(h: Hashing<nat>, s: Hash, a: nat, k: nat, at: nat, bs: seq<B>, load: int)
    requires at < |bs| && bs[Path(h, |bs|, k, at)].state.Filled?
    ensures var b := Path(h, |bs|, k, at);
            Leads(h, s, a, View(RemAt(k, at), bs, 1, load), View(RemCompare(k, at, b), Marked(bs, b), 1, load))
  {
    hide Leads, Path;
    var b := Path(h, |bs|, k, at);
    var u, y := View(RemAt(k, at), bs, 1, load), View(RemCompare(k, at, b), Marked(bs, b), 1, load);
    if bs[b].refcount == 0 {
      RemoveLeads(h, s, a, u, y);
    } else {
      var w := View(RemSpin(k, at, b), bs, 1, load);
      var x := View(RemSpinCas(k, at, b, Word(bs[b].refcount, Filled)), bs, 1, load);
      RemoveLeads(h, s, a, u, w);
      RemoveLeads(h, s, a, w, x);
      RemoveLeads(h, s, a, x, y);
      LeadsOn(h, s, a, u, w, x);
      LeadsOn(h, s, a, u, x, y);
    }
  }

  /** ... and given back, if it holds another key ... */
  lemma RemBacksOut(h: Hashing<nat>, s: Hash, a: nat, k: nat, at: nat, b: nat, bs: seq<B>, load: int)
    requires b < |bs| && bs[b].state.Filled? && bs[b].slot.Pair? && bs[b].slot.key != k
    ensures Leads(h, s, a, View(RemCompare(k, at, b), Marked(bs, b), 1, load), View(RemAt(k, at + 1), bs, 1, load))
  {
    hide Leads;
    var u, w := View(RemCompare(k, at, b), Marked(bs, b), 1, load), View(RemBack(k, at, b), Marked(bs, b), 1, load);
    var x := View(RemBackCas(k, at, b, Word(bs[b].refcount + 1, Predestructing)), Marked(bs, b), 1, load);
    var y := View(RemAt(k, at + 1), bs, 1, load);
    RemoveLeads(h, s, a, u, w);
    RemoveLeads(h, s, a, w, x);
    assert Marked(bs, b)[b := bs[b]] == bs;
    RemoveLeads(h, s, a, x, y);
    LeadsOn(h, s, a, u, w, x);
    LeadsOn(h, s, a, u, x, y);
  }

  lemma RemChecks(h: Hashing<nat>, s: Hash, a: nat, k: nat, at: nat, b: nat, bs: seq<B>, load: int)
    requires b < |bs| && bs[b].slot.Pair? && bs[b].slot.key == k
    ensures Leads(h, s, a, View(RemCompare(k, at, b), Marked(bs, b), 1, load),
                  View(RemDrain(b), Marked(bs, b), 1, load))
  {
    hide Leads;
    var u, w := View(RemCompare(k, at, b), Marked(bs, b), 1, load), View(RemCheck(b), Marked(bs, b), 1, load);
    RemoveLeads(h, s, a, u, w);
    RemoveLeads(h, s, a, w, View(RemDrain(b), Marked(bs, b), 1, load));
    LeadsOn(h, s, a, u, w, View(RemDrain(b), Marked(bs, b), 1, load));
  }

  /** ... or if a guard protects the key; ... */
  lemma RemGives(h: Hashing<nat>, s: Hash, a: nat, b: nat, bs: seq<B>, load: int)
    requires b < |bs| && bs[b].state.Filled? && bs[b].refcount > 0
    ensures Leads(h, s, a, View(RemDrain(b), Marked(bs, b), 1, load), View(Leave, bs, 1, load))
  {
    hide Leads;
    var u, w := View(RemDrain(b), Marked(bs, b), 1, load), View(RemGive(b), Marked(bs, b), 1, load);
    var x := View(RemGiveCas(b, Word(bs[b].refcount + 1, Predestructing)), Marked(bs, b), 1, load);
    var y := View(Leave, bs, 1, load);
    RemoveLeads(h, s, a, u, w);
    RemoveLeads(h, s, a, w, x);
    assert Marked(bs, b)[b := bs[b]] == bs;
    RemoveLeads(h, s, a, x, y);
    LeadsOn(h, s, a, u, w, x);
    LeadsOn(h, s, a, u, x, y);
  }

  /** ... otherwise the pair is erased and buried. */
  lemma RemDrains(h: Hashing<nat>, s: Hash, a: nat, b: nat, bs: seq<B>, load: int)
    requires b < |bs| && bs[b].refcount == 0
    ensures Leads(h, s, a, View(RemDrain(b), Marked(bs, b), 1, load),
                  View(RemErase(b), bs[b := bs[b].(state := Predestructing)], 1, load))
  {
    hide Leads;
    var u := View(RemDrain(b), Marked(bs, b), 1, load);
    var w := View(RemDrainCas(b, Word(1, Predestructing)), Marked(bs, b), 1, load);
    var x := View(RemErase(b), bs[b := bs[b].(state := Predestructing)], 1, load);
    RemoveLeads(h, s, a, u, w);
    assert Marked(bs, b)[b := bs[b].(state := Predestructing)] == x.bs;
    RemoveLeads(h, s, a, w, x);
    LeadsOn(h, s, a, u, w, x);
  }

  lemma RemBuries(h: Hashing<nat>, s: Hash, a: nat, b: nat, bs: seq<B>, load: int)
    requires b < |bs| && bs[b].refcount == 0 && bs[b].state.Predestructing?
    ensures Leads(h, s, a, View(RemErase(b), bs, 1, load), View(Leave, bs[b := Bucket(0, Tombstone, Raw)], 1, load - 1))
  {
    hide Leads;
    var raw := bs[b := bs[b].(slot := Raw)];
    var u, w := View(RemErase(b), bs, 1, load), View(RemCount(b), raw, 1, load);
    var x, y := View(RemBury(b), raw, 1, load - 1), View(Leave, bs[b := Bucket(0, Tombstone, Raw)], 1, load - 1);
    RemoveLeads(h, s, a, u, w);
    RemoveLeads(h, s, a, w, x);
    assert raw[b := Bucket(0, Tombstone, Raw)] == y.bs;
    RemoveLeads(h, s, a, x, y);
    LeadsOn(h, s, a, u, w, x);
    LeadsOn(h, s, a, u, x, y);
  }

  /** The end of a removal that has found the key. */
  function Removed(bs: seq<B>, b: nat): seq<B>
    requires b < |bs|
  {
    if bs[b].refcount > 0 then bs else bs[b := Bucket(0, Tombstone, Raw)]
  }

  lemma RemHits(h: Hashing<nat>, s: Hash, a: nat, k: nat, at: nat, bs: seq<B>, load: int)
    requires at < |bs| && Holds(bs, Path(h, |bs|, k, at), k)
    ensures var b := Path(h, |bs|, k, at);
            Leads(h, s, a, View(RemAt(k, at), bs, 1, load),
                  View(Leave, Removed(bs, b), 1, if bs[b].refcount > 0 then load else load - 1))
  {
    hide Leads, Path;
    var b := Path(h, |bs|, k, at);
    var u, w, x := View(RemAt(k, at), bs, 1, load), View(RemCompare(k, at, b), Marked(bs, b), 1, load),
                   View(RemDrain(b), Marked(bs, b), 1, load);
    RemMarks(h, s, a, k, at, bs, load);
    RemChecks(h, s, a, k, at, b, bs, load);
    LeadsOn(h, s, a, u, w, x);
    if bs[b].refcount > 0 {
      RemGives(h, s, a, b, bs, load);
      LeadsOn(h, s, a, u, x, View(Leave, bs, 1, load));
    } else {
      var dead := bs[b := bs[b].(state := Predestructing)];
      RemDrains(h, s, a, b, bs, load);
      RemBuries(h, s, a, b, dead, load);
      assert dead[b := Bucket(0, Tombstone, Raw)] == Removed(bs, b);
      LeadsOn(h, s, a, u, x, View(RemErase(b), dead, 1, load));
      LeadsOn(h, s, a, u, View(RemErase(b), dead, 1, load), View(Leave, Removed(bs, b), 1, load - 1));
    }
  }

  lemma RemGoesOn(h: Hashing<nat>, s: Hash, a: nat, bs: seq<B>, k: nat, load: int, i: nat)
    requires i < |bs| && Settled(bs[Path(h, |bs|, k, i)]) && !bs[Path(h, |bs|, k, i)].state.Empty?
    requires !Holds(bs, Path(h, |bs|, k, i), k)
    ensures Leads(h, s, a, View(RemAt(k, i), bs, 1, load), View(RemAt(k, i + 1), bs, 1, load))
  {
    hide Leads, Path;
    var b := Path(h, |bs|, k, i);
    if bs[b].state.Filled? {
      RemMarks(h, s, a, k, i, bs, load);
      RemBacksOut(h, s, a, k, i, b, bs, load);
      LeadsOn(h, s, a, View(RemAt(k, i), bs, 1, load), View(RemCompare(k, i, b), Marked(bs, b), 1, load),
              View(RemAt(k, i + 1), bs, 1, load));
    } else {
      RemoveLeads(h, s, a, View(RemAt(k, i), bs, 1, load), View(RemAt(k, i + 1), bs, 1, load));
    }
  }

  lemma RemEnds(h: Hashing<nat>, s: Hash, a: nat, bs: seq<B>, k: nat, load: int, i: nat)
    requires |bs| > 0 && (i >= |bs| || bs[Path(h, |bs|, k, i)].state.Empty?)
    ensures Leads(h, s, a, View(RemAt(k, i), bs, 1, load), View(Leave, bs, 1, load))
  {
    hide Leads, Path;
    RemoveLeads(h, s, a, View(RemAt(k, i), bs, 1, load), View(Leave, bs, 1, load));
  }

  /** Where a removal leads. */
  ghost predicate Taken(bs: seq<B>, k: nat, found: Option<nat>, bs': seq<B>, load: int, load': int) {
    match found
    case None => bs' == bs && load' == load && forall j: nat :: !Holds(bs, j, k)
    case Some(b) => Holds(bs, b, k) && bs' == Removed(bs, b)
                    && load' == if bs[b].refcount > 0 then load else load - 1
  }

  /** A removal from probe `i` on. */
  lemma {:induction false} RemProbes(h: Hashing<nat>, bits: nat, s: Hash, a: nat, bs: seq<B>,
                                     m: map<nat, Entry<int>>, k: nat, load: int, i: nat)
    returns (found: Option<nat>, bs': seq<B>, load': int)
    requires Good(h, bits, bs, m) && i <= |bs|
    requires forall p: nat | p < i :: !Holds(bs, Path(h, |bs|, k, p), k)
    ensures Taken(bs, k, found, bs', load, load')
    ensures Leads(h, s, a, View(RemAt(k, i), bs, 1, load), View(Leave, bs', 1, load'))
    decreases |bs| - i
  {
    hide Leads, FilledCount, AllPlaced;
    var b := Path(h, |bs|, k, i);
    if i == |bs| || bs[b].state.Empty? {
      found, bs', load' := None, bs, load;
      Absent(h, bits, bs, m, k, i);
      RemEnds(h, s, a, bs, k, load, i);
    } else {
      assert Settled(bs[b]);
      if Holds(bs, b, k) {
        found, bs', load' := Some(b), Removed(bs, b), if bs[b].refcount > 0 then load else load - 1;
        RemHits(h, s, a, k, i, bs, load);
      } else {
        found, bs', load' := RemProbes(h, bits, s, a, bs, m, k, load, i + 1);
        RemGoesOn(h, s, a, bs, k, load, i);
        LeadsOn(h, s, a, View(RemAt(k, i), bs, 1, load), View(RemAt(k, i + 1), bs, 1, load),
                View(Leave, bs', 1, load'));
      }
    }
  }

  lemma KeyTaken(h: Hashing<nat>, bits: nat, s: Hash, m: map<nat, Entry<int>>, k: nat, found: Option<nat>, bs: seq<B>,
                 load: int)
    requires Good(h, bits, s.buckets, m) && Taken(s.buckets, k, found, bs, s.load, load)
    ensures k !in m || m[k].guards > 0 ==> bs == s.buckets && load == s.load
    ensures k in m && m[k].guards == 0 ==>
              |bs| > 0 && DistinctKeys(bs) && AllPlaced(h, bs) && Represents(bs, m - {k}) && load == s.load - 1
  {
    if found.Some? {
      EraseGood(h, bits, s.buckets, m, k, found.value);
    } else {
      assert forall j :: !Holds(s.buckets, j, k);
    }
  }

  /** A removal that runs alone takes the key out of the map, unless a guard protects it. */
  lemma RemoveAlone(h: Hashing<nat>, s: Hash, m: map<nat, Entry<int>>, a: nat, k: nat) returns (s': Hash)
    requires Stores(h, s, m) && a !in s.agents
    ensures EndsIn(h, Apply(h, s, Spawn(a, Remove(k))), a, s')
    ensures k !in m || m[k].guards > 0 ==> s' == s.(agents := s.agents[a := Done]) && Stores(h, s', m)
    ensures k in m && m[k].guards == 0 ==> Stores(h, s', m - {k}) && s'.load == s.load - 1
    ensures s' == s.(agents := s.agents[a := Done], buckets := s'.buckets, load := s'.load)
  {
    var bits := AtRest(h, s, m);
    hide Inv, Good, Leads, Holds, Path;
    var found, bs, load := RemProbes(h, bits, s, a, s.buckets, m, k, s.load, 0);
    KeyTaken(h, bits, s, m, k, found, bs, load);
    hide EndsIn, Apply, Taken, Represents, DistinctKeys, AllPlaced;
    WholeLeaves(h, s, a, Remove(k), bs, load);
    s' := Mine(s, a, View(Done, bs, 0, load));
  }
}
