/** When an insert of the hash map runs out of buckets.

    After its last probe an insert without a claimed bucket is at a place that the source calls
    unreachable.  It gets there only past buckets that all held a pair when it probed them.  So either
    all buckets hold a pair, or a removal was finished behind it while it probed; and the second
    happens in a run in which the map never holds more than one pair.
 */
module InsertRuns {
  import opened BucketProtocol
  import opened Modular
  import opened Probe
  import opened Table
  import opened Wrappers

  // ---------- What lies behind a probing insert ----------

  /** The load check is passed, and no bucket is built, published or given up yet. */
  predicate Probes(pc: PC) {
    pc.InsAt? || pc.InsPin? || pc.InsCompare? || pc.InsUnpin? || pc.InsUnpinCas? || pc.InsTomb? || pc.InsTombCas?
    || pc.InsUnreachable?
  }

  predicate Occupied(s: Hash, b: nat) {
    b < |s.buckets| && (s.buckets[b].state.Filled? || s.buckets[b].state.Predestructing?)
  }

  ghost predicate AllOccupied(s: Hash) {
    forall b: nat | b < |s.buckets| :: Occupied(s, b)
  }

  ghost predicate Passed(h: Hashing<nat>, s: Hash, key: nat, at: nat) {
    forall p: nat | p < at && p < |s.buckets| :: Occupied(s, BucketOf(h, s, key, p))
  }

  /** The agent stands at probe `at` of its path. */
  predicate Stands(h: Hashing<nat>, s: Hash, key: nat, at: nat, b: nat) {
    at < |s.buckets| && b == BucketOf(h, s, key, at)
  }

  /** All buckets behind an insert that has not claimed one are occupied. */
  ghost predicate Behind(h: Hashing<nat>, s: Hash, pc: PC) {
    match pc
    case InsAt(k, _, at, None) => Passed(h, s, k, at)
    case InsPin(k, _, at, None, b, _) => Passed(h, s, k, at) && Stands(h, s, k, at, b)
    case InsCompare(k, _, at, None, b) => Passed(h, s, k, at) && Stands(h, s, k, at, b)
    case InsUnpin(k, _, at, None, b, _) => Passed(h, s, k, at) && Stands(h, s, k, at, b)
    case InsUnpinCas(k, _, at, None, b, _, _) => Passed(h, s, k, at) && Stands(h, s, k, at, b)
    case InsTomb(k, _, at, _) => Passed(h, s, k, at)
    case InsTombCas(k, _, at, _, _) => Passed(h, s, k, at)
    case InsUnreachable => AllOccupied(s)
    case _ => true
  }

  // ---------- Occupied buckets stay occupied ----------

  /** Every occupied bucket stays occupied. */
  ghost predicate Keeps(s: Hash, s': Hash) {
    |s'.buckets| == |s.buckets| && forall b: nat | Occupied(s, b) :: Occupied(s', b)
  }

  lemma InsertOccupies(h: Hashing<nat>, s: Hash, o: nat)
    requires Inv(h, s) && o in s.agents && InInsert(s.agents[o])
    ensures Keeps(s, InsertStep(h, s, o, s.agents[o]))
  {
    hide Inv, TallyOf, Path;
    Remembers(h, s, o);
    if s.agents[o].InsAbort? {
      Look(h, s, o, s.agents[o].c);
    }
  }

  lemma RemoveOccupies(h: Hashing<nat>, s: Hash, o: nat)
    requires o in s.agents && InRemove(s.agents[o]) && !s.agents[o].RemBury?
    ensures Keeps(s, RemoveStep(h, s, o, s.agents[o]))
  {
    hide Path;
  }

  lemma GetOccupies(h: Hashing<nat>, s: Hash, o: nat)
    requires o in s.agents
    ensures Keeps(s, GetStep(h, s, o, s.agents[o])) && Keeps(s, LockStep(s, o, s.agents[o]))
  {
    hide Path;
  }

  lemma GrowOccupies(h: Hashing<nat>, s: Hash, o: nat)
    requires o in s.agents && !Growing(s.agents[o])
    ensures Keeps(s, GrowStep(h, s, o, s.agents[o]))
  {
  }

  /** A removal is finished: the last store of an agent that removes a pair. */
  predicate Buries(s: Hash, e: Event) {
    e.Step? && e.a in s.agents && s.agents[e.a].RemBury?
  }

  /** While an insert is inside, only the end of a removal frees a bucket. */
  lemma StaysOccupied(h: Hashing<nat>, s: Hash, e: Event, a: nat)
    requires Inv(h, s) && a in s.agents && Inside(s.agents[a]) && !Buries(s, e)
    ensures Keeps(s, Apply(h, s, e))
  {
    hide Inv, InsertStep, RemoveStep, GetStep, GrowStep, LockStep;
    LockIsOk(h, s);
    NobodyGrows(s, a);
    if e.Step? && e.a in s.agents {
      var pc := s.agents[e.a];
      if InInsert(pc) { InsertOccupies(h, s, e.a); }
      if InRemove(pc) { RemoveOccupies(h, s, e.a); }
      GetOccupies(h, s, e.a);
      GrowOccupies(h, s, e.a);
    }
  }

  // ---------- One event ----------

  /** Being behind depends on the buckets' number and on which of them are occupied. */
  lemma BehindStays(h: Hashing<nat>, s: Hash, s': Hash, pc: PC)
    requires Behind(h, s, pc) && Keeps(s, s')
    ensures Behind(h, s', pc)
  {
    hide Occupied, Path;
    forall k, at | Passed(h, s, k, at)
      ensures Passed(h, s', k, at)
    {
      PassedStays(h, s, s', k, at);
    }
  }

  lemma PassedStays(h: Hashing<nat>, s: Hash, s': Hash, key: nat, at: nat)
    requires Passed(h, s, key, at) && Keeps(s, s')
    ensures Passed(h, s', key, at)
  {
    hide Occupied, Path;
    forall p: nat | p < at && p < |s'.buckets|
      ensures Occupied(s', BucketOf(h, s', key, p))
    {
      assert BucketOf(h, s', key, p) == BucketOf(h, s, key, p);
    }
  }

  /** An insert that goes on leaves an occupied bucket behind: it had pinned it. */
  lemma GoesOn(h: Hashing<nat>, s: Hash, a: nat, s': Hash)
    requires Inv(h, s) && a in s.agents && Probes(s.agents[a]) && Behind(h, s, s.agents[a])
    requires s' == InsertStep(h, s, a, s.agents[a]) && a in s'.agents
    ensures Behind(h, s, s'.agents[a])
  {
    hide Inv, Path;
    var pc := s.agents[a];
    if pc.InsUnpinCas? && pc.claim.None? {
      PinCounted(h, s, a, pc.b);
      assert Passed(h, s, pc.key, pc.at + 1);
    } else if pc.InsAt? && pc.claim.None? && pc.at >= |s.buckets| {
      AllSeen(h, s, pc.key, pc.at);
    }
  }

  /** A path of full length visits every bucket. */
  lemma AllSeen(h: Hashing<nat>, s: Hash, key: nat, at: nat)
    requires Inv(h, s) && Passed(h, s, key, at) && at >= |s.buckets|
    ensures AllOccupied(s)
  {
    hide LockOk, GrownOk, LoadOk, BucketOk, AgentOk, TallyOf, Occupied;
    var k: nat :| |s.buckets| == Pow2(k);
    forall b: nat | b < |s.buckets|
      ensures Occupied(s, b)
    {
      var i := ProbesCover(h.start(key), h.step(key), k, b);
      assert BucketOf(h, s, key, i) == b;
    }
  }

  lemma Starts(h: Hashing<nat>, s: Hash, a: nat, s': Hash)
    requires a in s.agents && s.agents[a].InsLoad?
    requires s' == InsertStep(h, s, a, s.agents[a]) && a in s'.agents
    ensures Behind(h, s, s'.agents[a])
  {
  }

  /** Every event but the end of a removal leaves only occupied buckets behind a probing insert. */
  lemma BehindKeeps(h: Hashing<nat>, s: Hash, e: Event, a: nat)
    requires Inv(h, s) && a in s.agents && !Buries(s, e)
    requires (Probes(s.agents[a]) || s.agents[a].InsLoad?) && Behind(h, s, s.agents[a])
    ensures a in Apply(h, s, e).agents && Behind(h, Apply(h, s, e), Apply(h, s, e).agents[a])
  {
    hide Inv, InsertStep, RemoveStep, GetStep, GrowStep, LockStep, Behind, Keeps;
    var s' := Apply(h, s, e);
    StaysOccupied(h, s, e, a);
    if e == Step(a) {
      StepMoves(h, s, a);
      if s.agents[a].InsLoad? {
        Starts(h, s, a, s');
      } else {
        GoesOn(h, s, a, s');
      }
    } else {
      OthersMove(h, s, e, a);
    }
    BehindStays(h, s, s', s'.agents[a]);
  }

  lemma StepMoves(h: Hashing<nat>, s: Hash, a: nat)
    requires a in s.agents && InInsert(s.agents[a])
    ensures Apply(h, s, Step(a)) == InsertStep(h, s, a, s.agents[a]) && a in Apply(h, s, Step(a)).agents
  {
    hide InsertStep, RemoveStep, GetStep, GrowStep, LockStep;
    StepInserts(h, s, a);
  }

  lemma StepInserts(h: Hashing<nat>, s: Hash, a: nat)
    requires a in s.agents
    ensures a in InsertStep(h, s, a, s.agents[a]).agents
  {
  }

  /** Only its own steps move a probing insert. */
  lemma OthersMove(h: Hashing<nat>, s: Hash, e: Event, a: nat)
    requires a in s.agents && e != Step(a) && InInsert(s.agents[a])
    ensures a in Apply(h, s, e).agents && Apply(h, s, e).agents[a] == s.agents[a]
  {
    if e.Step? && e.a in s.agents {
      OnlyItself(h, s, e.a, a);
    }
  }

  /** The agent is where it was. */
  predicate Rests(s: Hash, s': Hash, a: nat) {
    a in s.agents ==> a in s'.agents && s'.agents[a] == s.agents[a]
  }

  lemma OnlyItself(h: Hashing<nat>, s: Hash, o: nat, a: nat)
    requires o in s.agents && a != o
    ensures Rests(s, Advance(h, s, o, s.agents[o]), a)
    ensures Advance(h, s, o, s.agents[o]).agents.Keys == s.agents.Keys
  {
    hide InsertStep, RemoveStep, GetStep, GrowStep, LockStep;
    InsertsItself(h, s, o, a);
    RemovesItself(h, s, o, a);
    GetsItself(h, s, o, a);
    GrowsItself(h, s, o, a);
  }

  lemma InsertsItself(h: Hashing<nat>, s: Hash, o: nat, a: nat)
    requires o in s.agents && a != o
    ensures Rests(s, InsertStep(h, s, o, s.agents[o]), a)
    ensures InsertStep(h, s, o, s.agents[o]).agents.Keys == s.agents.Keys
  {
  }

  lemma RemovesItself(h: Hashing<nat>, s: Hash, o: nat, a: nat)
    requires o in s.agents && a != o
    ensures Rests(s, RemoveStep(h, s, o, s.agents[o]), a)
    ensures RemoveStep(h, s, o, s.agents[o]).agents.Keys == s.agents.Keys
  {
  }

  lemma GetsItself(h: Hashing<nat>, s: Hash, o: nat, a: nat)
    requires o in s.agents && a != o
    ensures Rests(s, GetStep(h, s, o, s.agents[o]), a)
    ensures GetStep(h, s, o, s.agents[o]).agents.Keys == s.agents.Keys
    ensures Rests(s, LockStep(s, o, s.agents[o]), a) && LockStep(s, o, s.agents[o]).agents.Keys == s.agents.Keys
  {
  }

  lemma GrowsItself(h: Hashing<nat>, s: Hash, o: nat, a: nat)
    requires o in s.agents && a != o
    ensures Rests(s, GrowStep(h, s, o, s.agents[o]), a)
    ensures GrowStep(h, s, o, s.agents[o]).agents.Keys == s.agents.Keys
  {
  }

  // ---------- Whole runs ----------

  /** Where a probing agent was before the event: it was probing already, or it had just passed the
      load check. */
  lemma Before(h: Hashing<nat>, s: Hash, e: Event, a: nat)
    requires a in Apply(h, s, e).agents && Probes(Apply(h, s, e).agents[a])
    ensures a in s.agents && (Probes(s.agents[a]) || s.agents[a].InsLoad?)
  {
    hide InsertStep, RemoveStep, GetStep, GrowStep, LockStep;
    if e.Step? && e.a in s.agents {
      if e.a == a {
        ProbesOn(h, s, a);
      } else {
        if a in s.agents {
          OnlyItself(h, s, e.a, a);
        } else {
          NobodyNew(h, s, e.a);
        }
      }
    }
  }

  lemma ProbesOn(h: Hashing<nat>, s: Hash, a: nat)
    requires a in s.agents && a in Advance(h, s, a, s.agents[a]).agents
    requires Probes(Advance(h, s, a, s.agents[a]).agents[a])
    ensures Probes(s.agents[a]) || s.agents[a].InsLoad?
  {
    hide InsertStep, RemoveStep, GetStep, GrowStep, LockStep, Probes;
    InsertProbes(h, s, a);
    RemoveProbes(h, s, a);
    GetProbes(h, s, a);
    LockProbes(s, a);
    GrowProbes(h, s, a);
  }

  lemma InsertProbes(h: Hashing<nat>, s: Hash, a: nat)
    requires a in s.agents
    ensures var s' := InsertStep(h, s, a, s.agents[a]);
            a in s'.agents && (Probes(s'.agents[a]) ==> Probes(s.agents[a]) || s.agents[a].InsLoad?)
  {
  }

  lemma RemoveProbes(h: Hashing<nat>, s: Hash, a: nat)
    requires a in s.agents
    ensures var s' := RemoveStep(h, s, a, s.agents[a]);
            a in s'.agents && (Probes(s'.agents[a]) ==> Probes(s.agents[a]))
  {
    hide Path;
    assert InRemove(s.agents[a]) ==> !Probes(s.agents[a]);
  }

  lemma GetProbes(h: Hashing<nat>, s: Hash, a: nat)
    requires a in s.agents
    ensures var s' := GetStep(h, s, a, s.agents[a]);
            a in s'.agents && (Probes(s'.agents[a]) ==> Probes(s.agents[a]))
  {
  }

  lemma LockProbes(s: Hash, a: nat)
    requires a in s.agents
    ensures var s' := LockStep(s, a, s.agents[a]);
            a in s'.agents && (Probes(s'.agents[a]) ==> Probes(s.agents[a]))
  {
  }

  lemma GrowProbes(h: Hashing<nat>, s: Hash, a: nat)
    requires a in s.agents
    ensures var s' := GrowStep(h, s, a, s.agents[a]);
            a in s'.agents && (Probes(s'.agents[a]) ==> Probes(s.agents[a]))
  {
  }

  lemma NobodyNew(h: Hashing<nat>, s: Hash, o: nat)
    requires o in s.agents
    ensures Advance(h, s, o, s.agents[o]).agents.Keys == s.agents.Keys
  {
    hide Advance;
    OnlyItself(h, s, o, o + 1);
  }

  /** From the load check on to event `n` the agent does nothing but probe. */
  ghost predicate ProbesSince(h: Hashing<nat>, es: seq<Event>, a: nat, i: nat, n: nat)
    requires i <= n <= |es|
  {
    && a in After(h, es, i).agents && After(h, es, i).agents[a].InsLoad?
    && forall j: nat | i < j <= n :: a in After(h, es, j).agents
         && (Probes(After(h, es, j).agents[a]) || After(h, es, j).agents[a].InsLoad?)
  }

  lemma AfterStep(h: Hashing<nat>, es: seq<Event>, j: nat)
    requires j < |es|
    ensures After(h, es, j + 1) == Apply(h, After(h, es, j), es[j])
  {
    hide Apply;
    assert es[..j + 1][..j] == es[..j];
  }

  lemma {:induction false} ProbingBegan(h: Hashing<nat>, es: seq<Event>, a: nat, n: nat) returns (i: nat)
    requires n <= |es| && a in After(h, es, n).agents
    requires Probes(After(h, es, n).agents[a]) || After(h, es, n).agents[a].InsLoad?
    ensures i <= n && ProbesSince(h, es, a, i, n)
  {
    hide Apply, Probes;
    if After(h, es, n).agents[a].InsLoad? {
      i := n;
    } else {
      assert n > 0 by { assert es[..0] == []; }
      AfterStep(h, es, n - 1);
      Before(h, After(h, es, n - 1), es[n - 1], a);
      i := ProbingBegan(h, es, a, n - 1);
    }
  }

  lemma SinceShorter(h: Hashing<nat>, es: seq<Event>, a: nat, i: nat, n: nat)
    requires i <= n <= |es| && ProbesSince(h, es, a, i, n)
    ensures a in After(h, es, n).agents && (Probes(After(h, es, n).agents[a]) || After(h, es, n).agents[a].InsLoad?)
    ensures i < n ==> ProbesSince(h, es, a, i, n - 1)
  {
    hide After, Probes;
  }

  lemma AfterInv(h: Hashing<nat>, es: seq<Event>, j: nat)
    requires Proper(h) && j <= |es|
    ensures Inv(h, After(h, es, j))
  {
    hide Inv, Apply;
    RunKeeps(h, es[..j]);
  }

  /** Until a removal is finished, only occupied buckets lie behind the insert. */
  lemma {:induction false} OnlyOccupied(h: Hashing<nat>, es: seq<Event>, a: nat, i: nat, n: nat)
    requires Proper(h) && i <= n <= |es| && ProbesSince(h, es, a, i, n)
    requires forall j: nat | i <= j < n :: !Buries(After(h, es, j), es[j])
    ensures a in After(h, es, n).agents && Behind(h, After(h, es, n), After(h, es, n).agents[a])
    decreases n - i
  {
    hide Apply, Probes, Inv, Behind, Buries, After;
    SinceShorter(h, es, a, i, n);
    if i < n {
      OnlyOccupied(h, es, a, i, n - 1);
      SinceShorter(h, es, a, i, n - 1);
      AfterInv(h, es, n - 1);
      AfterStep(h, es, n - 1);
      BehindKeeps(h, After(h, es, n - 1), es[n - 1], a);
    } else {
      LoadsBehind(h, After(h, es, n), After(h, es, n).agents[a]);
    }
  }

  lemma LoadsBehind(h: Hashing<nat>, s: Hash, pc: PC)
    requires pc.InsLoad?
    ensures Behind(h, s, pc)
  {
  }

  /** In every interleaving: an insert gets to the place that should be unreachable only if every
      bucket holds a pair, or a removal was finished between its load check and now. */
  lemma UnreachableNeeds(h: Hashing<nat>, es: seq<Event>, a: nat)
    requires Proper(h) && a in Run(h, New(), es).agents && Run(h, New(), es).agents[a].InsUnreachable?
    ensures exists i: nat :: i <= |es| && ProbesSince(h, es, a, i, |es|)
              && (AllOccupied(Run(h, New(), es))
                  || exists j: nat :: i <= j < |es| && Buries(After(h, es, j), es[j]) && es[j].a != a)
  {
    hide Apply, Inv, Run, Buries;
    assert es[..|es|] == es;
    var i := ProbingBegan(h, es, a, |es|);
    if j: nat :| i <= j < |es| && Buries(After(h, es, j), es[j]) {
      SomebodyElse(h, es, a, i, j);
    } else {
      OnlyOccupied(h, es, a, i, |es|);
    }
  }

  lemma SomebodyElse(h: Hashing<nat>, es: seq<Event>, a: nat, i: nat, j: nat)
    requires i <= j < |es| && ProbesSince(h, es, a, i, |es|) && Buries(After(h, es, j), es[j])
    ensures es[j].a != a
  {
    hide After;
  }

  // ---------- The run that gets there ----------

  ghost predicate Reached(h: Hashing<nat>, s: Hash) {
    exists es :: Run(h, New(), es) == s
  }

  lemma Next(h: Hashing<nat>, s: Hash, e: Event)
    requires Reached(h, s)
    ensures Reached(h, Apply(h, s, e))
  {
    hide Apply;
    var es :| Run(h, New(), es) == s;
    assert (es + [e])[..|es|] == es;
    assert Run(h, New(), es + [e]) == Apply(h, s, e);
  }

  /** The next step of an agent inside an insert, a removal, or at the table lock. */
  lemma InsertNext(h: Hashing<nat>, s: Hash, a: nat, s': Hash)
    requires Reached(h, s) && a in s.agents && InInsert(s.agents[a]) && s' == InsertStep(h, s, a, s.agents[a])
    ensures Reached(h, s')
  {
    hide InsertStep, RemoveStep, GetStep, GrowStep, LockStep, Reached;
    Next(h, s, Step(a));
  }

  lemma RemoveNext(h: Hashing<nat>, s: Hash, a: nat, s': Hash)
    requires Reached(h, s) && a in s.agents && InRemove(s.agents[a]) && s' == RemoveStep(h, s, a, s.agents[a])
    ensures Reached(h, s')
  {
    hide InsertStep, RemoveStep, GetStep, GrowStep, LockStep, Reached;
    Next(h, s, Step(a));
  }

  lemma LockNext(h: Hashing<nat>, s: Hash, a: nat, s': Hash)
    requires Reached(h, s) && a in s.agents && s' == LockStep(s, a, s.agents[a])
    requires s.agents[a].Enter? || s.agents[a].EnterCas? || s.agents[a].Leave?
    ensures Reached(h, s')
  {
    hide InsertStep, RemoveStep, GetStep, GrowStep, LockStep, Reached;
    Next(h, s, Step(a));
  }

  /** Where one agent stands, and what it finds in one bucket, the lock and the load. */
  datatype Spot = Spot(pc: PC, x: B, lock: nat, load: int)

  function Set(s: Hash, a: nat, b: nat, u: Spot): Hash
    requires b < |s.buckets|
  {
    s.(agents := s.agents[a := u.pc], buckets := s.buckets[b := u.x], lock := u.lock, load := u.load)
  }

  lemma SetTwice(s: Hash, a: nat, b: nat, u: Spot, v: Spot)
    requires b < |s.buckets|
    ensures Set(Set(s, a, b, u), a, b, v) == Set(s, a, b, v)
  {
    assert s.agents[a := u.pc][a := v.pc] == s.agents[a := v.pc];
    assert s.buckets[b := u.x][b := v.x] == s.buckets[b := v.x];
  }

  lemma GotoIsSet(s: Hash, a: nat, b: nat, pc: PC)
    requires b < |s.buckets|
    ensures Goto(s, a, pc) == Set(s, a, b, Spot(pc, s.buckets[b], s.lock, s.load))
  {
    assert s.buckets[b := s.buckets[b]] == s.buckets;
  }

  lemma InsertMove(h: Hashing<nat>, s: Hash, a: nat, b: nat, u: Spot, v: Spot)
    requires b < |s.buckets| && Reached(h, Set(s, a, b, u)) && InInsert(u.pc)
    requires InsertStep(h, Set(s, a, b, u), a, u.pc) == Set(Set(s, a, b, u), a, b, v)
    ensures Reached(h, Set(s, a, b, v))
  {
    hide InsertStep, Reached;
    SetTwice(s, a, b, u, v);
    InsertNext(h, Set(s, a, b, u), a, Set(s, a, b, v));
  }

  lemma RemoveMove(h: Hashing<nat>, s: Hash, a: nat, b: nat, u: Spot, v: Spot)
    requires b < |s.buckets| && Reached(h, Set(s, a, b, u)) && InRemove(u.pc)
    requires RemoveStep(h, Set(s, a, b, u), a, u.pc) == Set(Set(s, a, b, u), a, b, v)
    ensures Reached(h, Set(s, a, b, v))
  {
    hide RemoveStep, Reached;
    SetTwice(s, a, b, u, v);
    RemoveNext(h, Set(s, a, b, u), a, Set(s, a, b, v));
  }

  lemma LockMove(h: Hashing<nat>, s: Hash, a: nat, b: nat, u: Spot, v: Spot)
    requires b < |s.buckets| && Reached(h, Set(s, a, b, u)) && (u.pc.Enter? || u.pc.EnterCas? || u.pc.Leave?)
    requires LockStep(Set(s, a, b, u), a, u.pc) == Set(Set(s, a, b, u), a, b, v)
    ensures Reached(h, Set(s, a, b, v))
  {
    hide LockStep, Reached;
    SetTwice(s, a, b, u, v);
    LockNext(h, Set(s, a, b, u), a, Set(s, a, b, v));
  }

  /** An operation starts and gets the table lock. */
  lemma Enters(h: Hashing<nat>, s: Hash, a: nat, op: Op, b: nat)
    requires Reached(h, s) && a !in s.agents && s.lock < WRITE_WILLING && !op.Rehash? && b < |s.buckets|
    ensures Reached(h, Set(s, a, b, Spot(First(op), s.buckets[b], s.lock + 1, s.load)))
  {
    hide Reached;
    var x, l, d := s.buckets[b], s.lock, s.load;
    var u, v, w := Spot(Enter(op), x, l, d), Spot(EnterCas(op, l), x, l, d), Spot(First(op), x, l + 1, d);
    Spawned(h, s, a, op);
    GotoIsSet(s, a, b, Enter(op));
    GotoIsSet(Set(s, a, b, u), a, b, EnterCas(op, l));
    LockMove(h, s, a, b, u, v);
    GotoIsSet(Set(s, a, b, v).(lock := l + 1), a, b, First(op));
    LockMove(h, s, a, b, v, w);
  }

  lemma Spawned(h: Hashing<nat>, s: Hash, a: nat, op: Op)
    requires Reached(h, s) && a !in s.agents && !op.Rehash?
    ensures Reached(h, Goto(s, a, Enter(op)))
  {
    hide Reached, Advance;
    Next(h, s, Spawn(a, op));
  }

  /** It gives the table lock back. */
  lemma Leaves(h: Hashing<nat>, s: Hash, a: nat, b: nat, x: B, l: nat, d: int)
    requires b < |s.buckets| && Reached(h, Set(s, a, b, Spot(Leave, x, l + 1, d))) && l < WRITE_WILLING
    ensures Reached(h, Set(s, a, b, Spot(Done, x, l, d)))
  {
    hide Reached;
    var u := Spot(Leave, x, l + 1, d);
    GotoIsSet(Set(s, a, b, u).(lock := l), a, b, Done);
    LockMove(h, s, a, b, u, Spot(Done, x, l, d));
  }

  const GRAVE: B := Bucket(0, Tombstone, Raw)

  function PairOf(key: nat, value: int): B {
    Bucket(0, Filled, Pair(key, value))
  }

  lemma Claims(h: Hashing<nat>, s: Hash, a: nat, b: nat, k: nat, v: int, l: nat, d: int)
    requires b < |s.buckets| && BucketOf(h, s, k, 0) == b && 5 * d < 3 * |s.buckets|
    requires Reached(h, Set(s, a, b, Spot(InsLoad(k, v), FREE, l, d)))
    ensures Reached(h, Set(s, a, b, Spot(InsBuild(k, v, b), Bucket(0, Constructing, Raw), l, d)))
  {
    hide Reached, Path;
    var u, w := Spot(InsLoad(k, v), FREE, l, d), Spot(InsAt(k, v, 0, None), FREE, l, d);
    GotoIsSet(Set(s, a, b, u), a, b, w.pc);
    InsertMove(h, s, a, b, u, w);
    assert BucketOf(h, Set(s, a, b, w), k, 0) == b;
    InsertMove(h, s, a, b, w, Spot(InsBuild(k, v, b), Bucket(0, Constructing, Raw), l, d));
  }

  lemma Builds(h: Hashing<nat>, s: Hash, a: nat, b: nat, k: nat, v: int, l: nat, d: int)
    requires b < |s.buckets|
    requires Reached(h, Set(s, a, b, Spot(InsBuild(k, v, b), Bucket(0, Constructing, Raw), l, d)))
    ensures Reached(h, Set(s, a, b, Spot(Leave, PairOf(k, v), l, d + 1)))
  {
    hide Reached;
    var built := Bucket(0, Constructing, Pair(k, v));
    var u, w := Spot(InsCount(b), built, l, d), Spot(InsPublish(b), built, l, d + 1);
    InsertMove(h, s, a, b, Spot(InsBuild(k, v, b), Bucket(0, Constructing, Raw), l, d), u);
    GotoIsSet(Set(s, a, b, u).(load := d + 1), a, b, w.pc);
    InsertMove(h, s, a, b, u, w);
    InsertMove(h, s, a, b, w, Spot(Leave, PairOf(k, v), l, d + 1));
  }

  /** Another agent fills the empty bucket that its key starts at. */
  lemma Fills(h: Hashing<nat>, s: Hash, a: nat, b: nat, k: nat)
    requires Reached(h, s) && a !in s.agents && s.lock < WRITE_WILLING && b < |s.buckets| && s.buckets[b] == FREE
    requires BucketOf(h, s, k, 0) == b && 5 * s.load < 3 * |s.buckets|
    ensures Reached(h, Set(s, a, b, Spot(Done, PairOf(k, 0), s.lock, s.load + 1)))
  {
    hide Reached, Path;
    Enters(h, s, a, Insert(k, 0), b);
    Claims(h, s, a, b, k, 0, s.lock + 1, s.load);
    Builds(h, s, a, b, k, 0, s.lock + 1, s.load);
    Leaves(h, s, a, b, PairOf(k, 0), s.lock, s.load + 1);
  }

  /** The slow insert passes a bucket with another key. */
  lemma Passes(h: Hashing<nat>, s: Hash, a: nat, b: nat, k: nat, v: int, at: nat, other: nat, l: nat, d: int)
    requires b < |s.buckets| && at < |s.buckets| && BucketOf(h, s, k, at) == b && other != k
    requires Reached(h, Set(s, a, b, Spot(InsAt(k, v, at, None), PairOf(other, 0), l, d)))
    ensures Reached(h, Set(s, a, b, Spot(InsAt(k, v, at + 1, None), PairOf(other, 0), l, d)))
  {
    hide Reached, Path;
    var x, y := PairOf(other, 0), PairOf(other, 0).(refcount := 1);
    var u1 := Spot(InsAt(k, v, at, None), x, l, d);
    var u2 := Spot(InsPin(k, v, at, None, b, Word(0, Filled)), x, l, d);
    var u3 := Spot(InsCompare(k, v, at, None, b), y, l, d);
    assert BucketOf(h, Set(s, a, b, u1), k, at) == b;
    GotoIsSet(Set(s, a, b, u1), a, b, u2.pc);
    InsertMove(h, s, a, b, u1, u2);
    InsertMove(h, s, a, b, u2, u3);
    Unpins(h, s, a, b, k, v, at, other, l, d);
  }

  lemma Unpins(h: Hashing<nat>, s: Hash, a: nat, b: nat, k: nat, v: int, at: nat, other: nat, l: nat, d: int)
    requires b < |s.buckets| && other != k
    requires Reached(h, Set(s, a, b, Spot(InsCompare(k, v, at, None, b), PairOf(other, 0).(refcount := 1), l, d)))
    ensures Reached(h, Set(s, a, b, Spot(InsAt(k, v, at + 1, None), PairOf(other, 0), l, d)))
  {
    hide Reached, Path;
    var y := PairOf(other, 0).(refcount := 1);
    var u3 := Spot(InsCompare(k, v, at, None, b), y, l, d);
    var u4 := Spot(InsUnpin(k, v, at, None, b, false), y, l, d);
    var u5 := Spot(InsUnpinCas(k, v, at, None, b, false, Word(1, Filled)), y, l, d);
    GotoIsSet(Set(s, a, b, u3), a, b, u4.pc);
    InsertMove(h, s, a, b, u3, u4);
    GotoIsSet(Set(s, a, b, u4), a, b, u5.pc);
    InsertMove(h, s, a, b, u4, u5);
    InsertMove(h, s, a, b, u5, Spot(InsAt(k, v, at + 1, None), PairOf(other, 0), l, d));
  }

  lemma Marks(h: Hashing<nat>, s: Hash, a: nat, b: nat, k: nat, l: nat, d: int)
    requires b < |s.buckets| && BucketOf(h, s, k, 0) == b
    requires Reached(h, Set(s, a, b, Spot(RemAt(k, 0), PairOf(k, 0), l, d)))
    ensures Reached(h, Set(s, a, b, Spot(RemDrain(b), Bucket(1, Predestructing, Pair(k, 0)), l, d)))
  {
    hide Reached, Path;
    var y := Bucket(1, Predestructing, Pair(k, 0));
    var u1, u2 := Spot(RemAt(k, 0), PairOf(k, 0), l, d), Spot(RemCompare(k, 0, b), y, l, d);
    var u3, u4 := Spot(RemCheck(b), y, l, d), Spot(RemDrain(b), y, l, d);
    assert BucketOf(h, Set(s, a, b, u1), k, 0) == b;
    RemoveMove(h, s, a, b, u1, u2);
    GotoIsSet(Set(s, a, b, u2), a, b, u3.pc);
    RemoveMove(h, s, a, b, u2, u3);
    GotoIsSet(Set(s, a, b, u3), a, b, u4.pc);
    RemoveMove(h, s, a, b, u3, u4);
  }

  lemma Drains(h: Hashing<nat>, s: Hash, a: nat, b: nat, k: nat, l: nat, d: int)
    requires b < |s.buckets|
    requires Reached(h, Set(s, a, b, Spot(RemDrain(b), Bucket(1, Predestructing, Pair(k, 0)), l, d)))
    ensures Reached(h, Set(s, a, b, Spot(RemErase(b), Bucket(0, Predestructing, Pair(k, 0)), l, d)))
  {
    hide Reached;
    var y := Bucket(1, Predestructing, Pair(k, 0));
    var u1, u2 := Spot(RemDrain(b), y, l, d), Spot(RemDrainCas(b, Word(1, Predestructing)), y, l, d);
    GotoIsSet(Set(s, a, b, u1), a, b, u2.pc);
    RemoveMove(h, s, a, b, u1, u2);
    RemoveMove(h, s, a, b, u2, Spot(RemErase(b), y.(refcount := 0), l, d));
  }

  lemma Erases(h: Hashing<nat>, s: Hash, a: nat, b: nat, k: nat, l: nat, d: int)
    requires b < |s.buckets|
    requires Reached(h, Set(s, a, b, Spot(RemErase(b), Bucket(0, Predestructing, Pair(k, 0)), l, d)))
    ensures Reached(h, Set(s, a, b, Spot(Leave, GRAVE, l, d - 1)))
  {
    hide Reached;
    var y := Bucket(0, Predestructing, Pair(k, 0));
    var u2, u3 := Spot(RemCount(b), y.(slot := Raw), l, d), Spot(RemBury(b), y.(slot := Raw), l, d - 1);
    RemoveMove(h, s, a, b, Spot(RemErase(b), y, l, d), u2);
    GotoIsSet(Set(s, a, b, u2).(load := d - 1), a, b, u3.pc);
    RemoveMove(h, s, a, b, u2, u3);
    RemoveMove(h, s, a, b, u3, Spot(Leave, GRAVE, l, d - 1));
  }

  /** Another agent removes the pair again. */
  lemma Takes(h: Hashing<nat>, s: Hash, a: nat, b: nat, k: nat)
    requires Reached(h, s) && a !in s.agents && s.lock < WRITE_WILLING
    requires b < |s.buckets| && s.buckets[b] == PairOf(k, 0) && BucketOf(h, s, k, 0) == b
    ensures Reached(h, Set(s, a, b, Spot(Done, GRAVE, s.lock, s.load - 1)))
  {
    hide Reached, Path;
    Enters(h, s, a, Remove(k), b);
    Marks(h, s, a, b, k, s.lock + 1, s.load);
    Drains(h, s, a, b, k, s.lock + 1, s.load);
    Erases(h, s, a, b, k, s.lock + 1, s.load);
    Leaves(h, s, a, b, GRAVE, s.lock, s.load - 1);
  }

  /** Agent 0 is at probe `at`; the buckets before it are graves, the others have never been used, and
      nobody else is inside. */
  ghost predicate Waiting(h: Hashing<nat>, s: Hash, k: nat, v: int, at: nat) {
    && |s.buckets| == 64 && s.lock == 1 && s.load == 0 && at <= 64
    && 0 in s.agents && s.agents[0] == InsAt(k, v, at, None)
    && (forall a: nat | a > 2 * at :: a !in s.agents)
    && (forall p: nat | p < 64 :: s.buckets[Path(h, 64, k, p)] == if p < at then GRAVE else FREE)
  }

  /** Some other key starts at the bucket. */
  predicate StartsAt(h: Hashing<nat>, k: nat, b: nat, other: nat) {
    other != k && Path(h, 64, other, 0) == b
  }

  ghost predicate HasStart(h: Hashing<nat>, k: nat, b: nat) {
    exists other :: StartsAt(h, k, b, other)
  }

  /** One round: the bucket about to be probed is filled, passed, and emptied again. */
  lemma Round(h: Hashing<nat>, s: Hash, k: nat, v: int, at: nat, other: nat) returns (s': Hash)
    requires Proper(h) && Reached(h, s) && Waiting(h, s, k, v, at) && at < 64
    requires StartsAt(h, k, Path(h, 64, k, at), other)
    ensures Reached(h, s') && Waiting(h, s', k, v, at + 1)
  {
    hide Reached, Path;
    var b := Path(h, 64, k, at);
    var a := 2 * at + 1;
    var x := PairOf(other, 0);
    Fills(h, s, a, b, other);
    var s1 := Set(s, a, b, Spot(Done, x, 1, 1));
    var s2 := Set(s1, 0, b, Spot(InsAt(k, v, at + 1, None), x, 1, 1));
    assert s1 == Set(s1, 0, b, Spot(InsAt(k, v, at, None), x, 1, 1)) by {
      GotoIsSet(s1, 0, b, InsAt(k, v, at, None));
      assert s1.agents[0 := InsAt(k, v, at, None)] == s1.agents;
    }
    Passes(h, s1, 0, b, k, v, at, other, 1, 1);
    Takes(h, s2, a + 1, b, other);
    s' := Set(s2, a + 1, b, Spot(Done, GRAVE, 1, 0));
    RoundLeaves(h, s, s', k, v, at);
  }

  lemma RoundLeaves(h: Hashing<nat>, s: Hash, s': Hash, k: nat, v: int, at: nat)
    requires Proper(h) && Waiting(h, s, k, v, at) && at < 64 && s'.lock == 1 && s'.load == 0
    requires s'.agents == s.agents[2 * at + 1 := Done][0 := InsAt(k, v, at + 1, None)][2 * at + 2 := Done]
    requires var b := Path(h, 64, k, at);
             |s'.buckets| == 64 && s'.buckets[b] == GRAVE
             && forall c: nat | c < 64 && c != b :: s'.buckets[c] == s.buckets[c]
    ensures Waiting(h, s', k, v, at + 1)
  {
    forall p: nat | p < 64
      ensures s'.buckets[Path(h, 64, k, p)] == if p < at + 1 then GRAVE else FREE
    {
      if p != at {
        Apart(h, k, if p < at then p else at, if p < at then at else p);
      }
    }
    hide Path;
  }

  lemma Apart(h: Hashing<nat>, k: nat, p: nat, q: nat)
    requires Proper(h) && p < q < 64
    ensures Path(h, 64, k, p) != Path(h, 64, k, q)
  {
    assert Pow2(6) == 64;
    ProbesDistinct(h.start(k), h.step(k), 6, p, q);
  }

  lemma {:induction false} Rounds(h: Hashing<nat>, k: nat, v: int, at: nat) returns (s: Hash)
    requires Proper(h) && at <= 64 && forall b: nat | b < 64 :: HasStart(h, k, b)
    ensures Reached(h, s) && Waiting(h, s, k, v, at)
  {
    hide Reached, Waiting, Path;
    if at == 0 {
      s := Begins(h, k, v);
    } else {
      var s0 := Rounds(h, k, v, at - 1);
      assert HasStart(h, k, Path(h, 64, k, at - 1));
      var other :| StartsAt(h, k, Path(h, 64, k, at - 1), other);
      s := Round(h, s0, k, v, at - 1, other);
    }
  }

  /** The slow insert passes the load check on a new map. */
  lemma Begins(h: Hashing<nat>, k: nat, v: int) returns (s: Hash)
    requires Proper(h)
    ensures Reached(h, s) && Waiting(h, s, k, v, 0)
  {
    Fresh(h);
    hide Reached, Path;
    Enters(h, New(), 0, Insert(k, v), 0);
    var u, w := Spot(InsLoad(k, v), FREE, 1, 0), Spot(InsAt(k, v, 0, None), FREE, 1, 0);
    GotoIsSet(Set(New(), 0, 0, u), 0, 0, w.pc);
    InsertMove(h, New(), 0, 0, u, w);
    s := Set(New(), 0, 0, w);
  }

  lemma Fresh(h: Hashing<nat>)
    ensures Reached(h, New())
  {
    assert Run(h, New(), []) == New();
  }

  /** The insert is at the place that should be unreachable, nobody else is inside, the load is zero, and
      no bucket holds a pair. */
  ghost predicate Stranded(s: Hash) {
    && 0 in s.agents && s.agents[0].InsUnreachable? && s.lock == 1 && s.load == 0
    && forall b: nat | b < |s.buckets| :: !Occupied(s, b)
  }

  /** The place is reached with an empty map.  It takes one slow insert, and for every bucket another key
      that is inserted there before the bucket is probed, and removed afterwards. */
  lemma UnreachableIsReached(h: Hashing<nat>, k: nat, v: int)
    requires Proper(h) && forall b: nat | b < 64 :: HasStart(h, k, b)
    ensures exists es :: Stranded(Run(h, New(), es))
  {
    hide Path;
    var s0 := Rounds(h, k, v, 64);
    AllGraves(h, s0, k, v);
    var s := Goto(s0, 0, InsUnreachable);
    InsertNext(h, s0, 0, s);
    assert Stranded(s) by {
      assert forall b: nat | b < |s.buckets| :: Occupied(s, b) == Occupied(s0, b);
    }
    hide Stranded, Run;
    var es :| Run(h, New(), es) == s;
  }

  lemma AllGraves(h: Hashing<nat>, s: Hash, k: nat, v: int)
    requires Proper(h) && Waiting(h, s, k, v, 64)
    ensures forall b: nat | b < |s.buckets| :: !Occupied(s, b)
  {
    assert Pow2(6) == 64;
    forall b: nat | b < |s.buckets|
      ensures !Occupied(s, b)
    {
      var i := ProbesCover(h.start(k), h.step(k), 6, b);
      assert s.buckets[Path(h, 64, k, i)] == GRAVE;
    }
  }

  /** Keys that are their own hashes. */
  function Plain(): Hashing<nat> {
    Hashing(k => k % WORD, k => 1)
  }

  lemma PlainStarts(k: nat, b: nat)
    requires b < 64
    ensures HasStart(Plain(), k, b)
  {
    var other := if k == b then b + 64 else b;
    assert other < WORD && other % 64 == b;
    assert Index(other, 1, 64, 0) == b;
    assert Plain().start(other) == other && Plain().step(other) == 1;
    assert StartsAt(Plain(), k, b, other);
  }

  /** With such keys every insert can be driven there. */
  lemma PlainIsStranded(k: nat, v: int)
    ensures exists es :: Stranded(Run(Plain(), New(), es))
  {
    hide HasStart, Stranded, Run;
    forall b: nat | b < 64
      ensures HasStart(Plain(), k, b)
    {
      PlainStarts(k, b);
    }
    UnreachableIsReached(Plain(), k, v);
  }
}
