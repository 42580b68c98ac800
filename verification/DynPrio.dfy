/** The dynamic-priority scheduler of one execution domain.

    The ready queue gives out an execution with the smallest priority value.  A turn adds the ticks
    it took to that value, modulo 2^64 like the source's word.  Parked executions are in a set of
    their own, and awakes that come early leave a token in a third collection.

    The parts proved here: the four collections never disagree about where an execution is, every
    execution lives exactly the life that module Park describes, and the queue is fair.
 */
module DynPrio {
  import opened Modular
  import opened Park
  import opened Wrappers

  type Id = nat

  datatype Entry = Entry(id: Id, priority: nat)

  // ---------- The ready queue ----------

  /** What `top` may give out: no entry has a smaller priority value. */
  predicate Top(q: multiset<Entry>, e: Entry) {
    e in q && forall f | f in q :: e.priority <= f.priority
  }

  lemma {:induction false} TopExists(q: multiset<Entry>)
    requires q != multiset{}
    ensures exists e :: Top(q, e)
    decreases |q|
  {
    var e :| e in q;
    var rest := q - multiset{e};
    assert q == rest + multiset{e};
    if rest == multiset{} {
      assert Top(q, e);
    } else {
      TopExists(rest);
      var t :| Top(rest, t);
      var best := if e.priority < t.priority then e else t;
      assert forall f | f in q :: f == e || f in rest;
      assert Top(q, best);
    }
  }

  /** The priority after a turn of `ticks` clock ticks. */
  function Aged(priority: nat, ticks: nat): (aged: nat)
    ensures aged < WORD
  {
    (priority + ticks) % WORD
  }

  /** Ticks between two readings of the 64-bit clock. */
  function Ticks(begin: nat, now: nat): nat {
    (now - begin) % WORD
  }

  /** A turn of `took` ticks: the 64-bit clock read `begin` when it began and `now` when it ended. */
  predicate Ran(begin: nat, now: nat, took: nat) {
    begin < WORD && now == (begin + took) % WORD
  }

  /** A turn of fewer than 2^64 ticks is measured exactly, even if the clock wraps in between. */
  lemma TicksExact(begin: nat, now: nat, took: nat)
    requires Ran(begin, now, took) && took < WORD
    ensures Ticks(begin, now) == took
  {
    var q := (begin + took) / WORD;
    assert now - begin == WORD * -q + took;
    RemainderOf(-q, took, WORD);
  }

  /** Every execution is queued at most once. */
  ghost predicate Distinct(q: multiset<Entry>) {
    && (forall e | e in q :: q[e] == 1)
    && (forall e, f | e in q && f in q && e.id == f.id :: e == f)
  }

  /** Queued priorities are words. */
  predicate Words(q: multiset<Entry>) {
    forall e | e in q :: e.priority < WORD
  }

  ghost predicate Queued(q: multiset<Entry>, id: Id) {
    exists e :: e in q && e.id == id
  }

  lemma Pushed(q: multiset<Entry>, e: Entry)
    requires Distinct(q) && !Queued(q, e.id)
    ensures Distinct(q + multiset{e})
    ensures forall id :: Queued(q + multiset{e}, id) <==> Queued(q, id) || id == e.id
  {
    var q' := q + multiset{e};
    assert e in q';
    forall id | Queued(q, id)
      ensures Queued(q', id)
    {
      var f :| f in q && f.id == id;
      assert f in q';
    }
  }

  lemma Popped(q: multiset<Entry>, e: Entry)
    requires Distinct(q) && e in q
    ensures Distinct(q - multiset{e}) && Queued(q, e.id)
    ensures forall id :: Queued(q - multiset{e}, id) <==> Queued(q, id) && id != e.id
  {
    var q' := q - multiset{e};
    forall id | Queued(q, id) && id != e.id
      ensures Queued(q', id)
    {
      var f :| f in q && f.id == id;
      assert f in q';
    }
  }

  // ---------- The books of the scheduler ----------

  /** The fields of a scheduler and of its execution domain as one value.  `running` is the execution
      whose turn it is, and `asked` says that its turn will end in suspension. */
  datatype Books = Books(ready: multiset<Entry>, suspended: set<Id>, preawake: set<Id>, known: set<Id>,
                         running: Option<Id>, asked: bool, states: map<Id, State>, story: map<Id, Story>)
  {
    /** Where an execution is, as the collections tell it. */
    function LifeOf(id: Id): Life
      requires id in states
    {
      Life(if running == Some(id) then Running else if id in suspended then Parked else Ready,
           id in preawake, running == Some(id) && asked, states[id])
    }

    /** An execution is in exactly one place. */
    ghost predicate OnePlace(id: Id) {
      if running == Some(id) then !Queued(ready, id) && id !in suspended
      else Queued(ready, id) <==> id !in suspended
    }

    ghost predicate Sound() {
      && Distinct(ready) && Words(ready)
      && states.Keys == known && story.Keys == known && suspended <= known
      && (forall id | id in known :: OnePlace(id) && Lived(Kind.DynPrio, LifeOf(id), story[id]))
      && (forall id | Queued(ready, id) :: id in known)
      && (if running.Some? then running.value in known else !asked)
    }

    /** All executions but `id` are as before. */
    ghost predicate OnlyFor(id: Id, was: Books) {
      && states.Keys == known && story.Keys == known
      && was.states.Keys == was.known && was.story.Keys == was.known
      && known - {id} == was.known - {id}
      && forall o | o in known && o != id :: o in was.known && LifeOf(o) == was.LifeOf(o) && story[o] == was.story[o]
    }

    /** `id` took one step of its life, and all others are as before. */
    ghost predicate Did(id: Id, op: Op, was: Books) {
      && OnlyFor(id, was) && id in known && id in was.known && id in states && id in was.states
      && LifeOf(id) == Do(Kind.DynPrio, was.LifeOf(id), op)
      && id in story && id in was.story && story[id] == Told(was.story[id], op)
    }

    /** The collections changed for `id` at most. */
    ghost predicate Near(id: Id, was: Books) {
      && states.Keys == known && story.Keys == known
      && known - {id} == was.known - {id}
      && suspended - {id} == was.suspended - {id}
      && preawake - {id} == was.preawake - {id}
      && states - {id} == was.states - {id}
      && story - {id} == was.story - {id}
      && Distinct(ready) && Words(ready) && (forall o | o != id :: Queued(ready, o) <==> Queued(was.ready, o))
      && (|| (running == was.running && (running == Some(id) || asked == was.asked))
          || (running == Some(id) && was.running.None?)
          || (running.None? && !asked && was.running == Some(id)))
    }
  }

  lemma NearKeeps(b: Books, was: Books, id: Id)
    requires was.Sound() && b.Near(id, was)
    ensures b.OnlyFor(id, was)
    ensures forall o | o in b.known && o != id :: b.OnePlace(o) && Lived(Kind.DynPrio, b.LifeOf(o), b.story[o])
  {
    hide Lived, Queued, Distinct;
    forall o | o in b.known && o != id
      ensures o in was.known && b.LifeOf(o) == was.LifeOf(o) && b.story[o] == was.story[o]
      ensures b.OnePlace(o) && Lived(Kind.DynPrio, b.LifeOf(o), b.story[o])
    {
      assert o in b.known - {id} && o in was.known;
      assert o in b.states - {id} && o in b.story - {id};
      assert o in b.suspended - {id} <==> o in b.suspended;
      assert o in b.preawake - {id} <==> o in b.preawake;
      assert was.OnePlace(o) && Lived(Kind.DynPrio, was.LifeOf(o), was.story[o]);
    }
  }

  /** Whoever changes the collections for one execution only, and so that this one takes a step of
      its life, keeps the books sound. */
  lemma StepKeeps(b: Books, was: Books, id: Id, op: Op)
    requires was.Sound() && b.Near(id, was) && b.known == was.known && id in b.known
    requires b.OnePlace(id) && Enabled(was.LifeOf(id), op)
    requires b.LifeOf(id) == Do(Kind.DynPrio, was.LifeOf(id), op) && b.story[id] == Told(was.story[id], op)
    ensures b.Sound() && b.Did(id, op, was)
  {
    hide Lived, Queued, Distinct, Do, Enabled;
    NearKeeps(b, was, id);
    assert was.OnePlace(id);
    LivesOn(Kind.DynPrio, was.LifeOf(id), was.story[id], op);
    forall o | Queued(b.ready, o)
      ensures o in b.known
    {
      assert o == id || Queued(was.ready, o);
    }
    forall o | o in b.suspended
      ensures o in b.known
    {
      assert o == id || o in was.suspended - {id};
    }
  }

  // ---------- What the methods do to the books ----------

  function Attached(b: Books, id: Id): Books {
    b.(known := b.known + {id}, ready := b.ready + multiset{Entry(id, 0)}, states := b.states[id := Active],
       story := b.story[id := Story(id in b.preawake, [])])
  }

  function Forgotten(b: Books, id: Id): Books {
    if id in b.suspended then
      b.(known := b.known - {id}, suspended := b.suspended - {id}, states := b.states - {id}, story := b.story - {id})
    else b
  }

  function Awoken(b: Books, id: Id): Books
    requires id in b.story
  {
    var c := b.(story := b.story[id := Told(b.story[id], DoAwake)]);
    if id in b.suspended then
      c.(suspended := b.suspended - {id}, ready := b.ready + multiset{Entry(id, 0)}, states := b.states[id := Active])
    else c.(preawake := b.preawake + {id})
  }

  function Requested(b: Books, id: Id): Books
    requires id in b.story
  {
    var c := b.(story := b.story[id := Told(b.story[id], DoSuspend)]);
    if id in b.preawake then c.(preawake := b.preawake - {id})
    else c.(asked := true, states := b.states[id := State.Suspended])
  }

  function Picked(b: Books, e: Entry): Books
    requires e.id in b.story
  {
    b.(ready := b.ready - multiset{e}, running := Some(e.id), states := b.states[e.id := InTurn],
       story := b.story[e.id := Told(b.story[e.id], DoSchedule)])
  }

  function Ended(b: Books, e: Entry, completed: bool): Books
    requires e.id in b.story
  {
    var c := b.(story := b.story[e.id := Told(b.story[e.id], if completed then DoComplete else DoEnd)],
                running := None, asked := false,
                preawake := if b.asked then b.preawake - {e.id} else b.preawake);
    if (b.asked && e.id !in b.preawake) || completed then
      c.(suspended := b.suspended + {e.id}, states := b.states[e.id := State.Suspended])
    else
      c.(suspended := b.suspended - {e.id}, ready := b.ready + multiset{e}, states := b.states[e.id := Active])
  }

  lemma AttachedSound(b: Books, id: Id)
    requires b.Sound() && id !in b.known
    ensures Attached(b, id).Sound() && Attached(b, id).OnlyFor(id, b)
    ensures id in Attached(b, id).states && Attached(b, id).LifeOf(id) == Born(id in b.preawake)
  {
    hide Distinct, Queued, Lived;
    Pushed(b.ready, Entry(id, 0));
    NewStory(Kind.DynPrio, id in b.preawake);
    NearKeeps(Attached(b, id), b, id);
  }

  lemma ForgottenSound(b: Books, id: Id)
    requires b.Sound()
    ensures Forgotten(b, id).Sound() && Forgotten(b, id).OnlyFor(id, b)
  {
    hide Distinct, Queued, Lived;
    if id in b.suspended {
      assert b.OnePlace(id);
      NearKeeps(Forgotten(b, id), b, id);
    }
  }

  lemma AwokenSound(b: Books, id: Id)
    requires b.Sound() && id in b.known
    ensures Awoken(b, id).Sound() && Awoken(b, id).Did(id, DoAwake, b)
  {
    hide Distinct, Queued, Lived;
    assert b.OnePlace(id);
    if id in b.suspended {
      Pushed(b.ready, Entry(id, 0));
    }
    StepKeeps(Awoken(b, id), b, id, DoAwake);
  }

  lemma RequestedSound(b: Books, id: Id)
    requires b.Sound() && b.running == Some(id)
    ensures Requested(b, id).Sound() && Requested(b, id).Did(id, DoSuspend, b)
  {
    hide Distinct, Queued, Lived;
    assert b.OnePlace(id);
    StepKeeps(Requested(b, id), b, id, DoSuspend);
  }

  lemma PickedSound(b: Books, e: Entry)
    requires b.Sound() && b.running == None && Top(b.ready, e)
    ensures e.id in b.known && Picked(b, e).Sound() && Picked(b, e).Did(e.id, DoSchedule, b)
  {
    hide Distinct, Queued, Lived;
    Popped(b.ready, e);
    assert b.OnePlace(e.id) && Lived(Kind.DynPrio, b.LifeOf(e.id), b.story[e.id]);
    StepKeeps(Picked(b, e), b, e.id, DoSchedule);
  }

  lemma EndedSound(b: Books, e: Entry, completed: bool)
    requires b.Sound() && b.running == Some(e.id) && e.priority < WORD
    ensures Ended(b, e, completed).Sound()
    ensures Ended(b, e, completed).Did(e.id, if completed then DoComplete else DoEnd, b)
  {
    hide Distinct, Queued, Lived;
    assert b.OnePlace(e.id);
    Pushed(b.ready, e);
    StepKeeps(Ended(b, e, completed), b, e.id, if completed then DoComplete else DoEnd);
  }

  /** A turn that took so few ticks that its priority does not wrap has added them to it. */
  ghost predicate Requeued(q: multiset<Entry>, id: Id, priority: nat, begin: nat, now: nat) {
    forall took | Ran(begin, now, took) && priority + took < WORD :: Entry(id, priority + took) in q
  }

  lemma RequeuedAs(b: Books, e: Entry, completed: bool, priority: nat, begin: nat, now: nat)
    requires e.id in b.story && e.priority == Aged(priority, Ticks(begin, now))
    ensures e.id !in Ended(b, e, completed).suspended ==>
              Requeued(Ended(b, e, completed).ready, e.id, priority, begin, now)
  {
    forall took | Ran(begin, now, took) && priority + took < WORD
      ensures e == Entry(e.id, priority + took)
    {
      TicksExact(begin, now, took);
    }
  }

  lemma Listed(b: Books, id: Id)
    requires b.Sound() && (id in b.known || b.running == Some(id))
    ensures id in b.known && id in b.story && id in b.states
  {
  }

  // ---------- The scheduler ----------

  class DynPrio {
    var ready: multiset<Entry>
    var suspended: set<Id>
    var preawake: set<Id>
    var contexts: map<Id, nat>       // per execution, when its turn began
    var current: Entry
    var currentSuspend: bool
    var states: map<Id, State>       // kept by the execution domain
    ghost var running: Option<Id>    // between `Schedule` and the end of that turn
    ghost var story: map<Id, Story>

    ghost function Now(): Books
      reads this
    {
      Books(ready, suspended, preawake, contexts.Keys, running, currentSuspend, states, story)
    }

    ghost predicate Valid()
      reads this
    {
      Now().Sound() && (running.Some? ==> current.id == running.value)
    }

    constructor ()
      ensures Valid() && contexts == map[] && ready == multiset{} && suspended == {} && preawake == {}
      ensures running == None
    {
      ready, suspended, preawake, contexts := multiset{}, {}, {}, map[];
      current, currentSuspend, states := Entry(0, 0), false, map[];
      running, story := None, map[];
    }

    method Attach(id: Id)
      requires Valid() && id !in contexts
      modifies this
      ensures Valid() && Now() == Attached(old(Now()), id) && Now().OnlyFor(id, old(Now()))
      ensures Now().LifeOf(id) == Born(id in preawake) && Top(ready, Entry(id, 0))
    {
      hide Books.Sound, Books.OnlyFor;
      ghost var was := Now();
      AttachedSound(was, id);
      contexts := contexts[id := 0];
      ready := ready + multiset{Entry(id, 0)};
      states := states[id := Active];
      story := story[id := Story(id in preawake, [])];
      assert contexts.Keys == was.known + {id};
    }

    /** Only a parked execution is forgotten; its token stays behind. */
    method DetachSuspended(id: Id)
      requires Valid()
      modifies this
      ensures Valid() && Now() == Forgotten(old(Now()), id) && Now().OnlyFor(id, old(Now()))
    {
      hide Books.Sound, Books.OnlyFor;
      ghost var was := Now();
      ForgottenSound(was, id);
      if id in suspended {
        suspended := suspended - {id};
        contexts := contexts - {id};
        states := states - {id};
        story := story - {id};
      }
    }

    method Awake(id: Id)
      requires Valid()
      modifies this
      ensures Valid() && contexts == old(contexts)
      ensures if id in contexts then Now() == Awoken(old(Now()), id) && Now().Did(id, DoAwake, old(Now()))
              else unchanged(this)
      ensures id in old(suspended) && id in contexts ==> Top(ready, Entry(id, 0))
    {
      hide Books.Sound, Books.Did, Told;
      ghost var was := Now();
      if id !in contexts {
        return;
      }
      assert id in story by { Listed(was, id); }
      AwokenSound(was, id);
      story := story[id := Told(story[id], DoAwake)];
      if id in suspended {
        suspended := suspended - {id};
        ready := ready + multiset{Entry(id, 0)};
        states := states[id := Active];
      } else {
        preawake := preawake + {id};
      }
    }

    method SuspendCurrent(id: Id)
      requires Valid() && running == Some(id)
      modifies this
      ensures Valid() && contexts == old(contexts) && id in old(story)
      ensures Now() == Requested(old(Now()), id) && Now().Did(id, DoSuspend, old(Now()))
    {
      hide Books.Sound, Books.Did;
      ghost var was := Now();
      Listed(was, id);
      RequestedSound(was, id);
      story := story[id := Told(story[id], DoSuspend)];
      if id in preawake {
        preawake := preawake - {id};
      } else {
        states := states[id := State.Suspended];
        currentSuspend := true;
      }
    }

    method Schedule() returns (id: Id)
      requires Valid() && running == None && ready != multiset{}
      modifies this
      ensures Valid() && contexts == old(contexts) && id in old(story)
      ensures Top(old(ready), current) && current.id == id
      ensures Now() == Picked(old(Now()), current) && Now().Did(id, DoSchedule, old(Now()))
    {
      hide Books.Sound, Books.Did, Top, Told;
      ghost var was := Now();
      TopExists(ready);
      var e :| Top(ready, e);
      id := e.id;
      PickedSound(was, e);
      Listed(was, id);
      current := e;
      ready := ready - multiset{e};
      states := states[id := InTurn];
      running := Some(id);
      story := story[id := Told(story[id], DoSchedule)];
    }

    method Begin(id: Id, now: nat)
      requires Valid() && running == Some(id)
      modifies this`contexts
      ensures Valid() && Now() == old(Now()) && contexts == old(contexts)[id := now]
    {
      hide Books.Sound;
      Listed(Now(), id);
      contexts := contexts[id := now];
      assert contexts.Keys == old(contexts).Keys;
    }

    method End(id: Id, completed: bool, now: nat)
      requires Valid() && running == Some(id)
      modifies this
      ensures Valid() && contexts == old(contexts) && current == old(current) && id in old(story) && id in contexts
      ensures Now() == Ended(old(Now()), Entry(id, Aged(current.priority, Ticks(contexts[id], now))), completed)
      ensures Now().Did(id, if completed then DoComplete else DoEnd, old(Now()))
      ensures id !in suspended ==> Requeued(ready, id, current.priority, contexts[id], now)
    {
      hide Books.Sound, Books.Did, Books.LifeOf, Aged, Ticks, Told, Requeued, Enabled, Do;
      ghost var was := Now();
      Listed(was, id);
      var e := Entry(id, Aged(current.priority, Ticks(contexts[id], now)));
      EndedSound(was, e, completed);
      RequeuedAs(was, e, completed, current.priority, contexts[id], now);
      story := story[id := Told(story[id], if completed then DoComplete else DoEnd)];
      running := None;
      var taken := currentSuspend && id in preawake;
      if currentSuspend {
        preawake := preawake - {id};
      }
      if (currentSuspend && !taken) || completed {
        suspended := suspended + {id};
        states := states[id := State.Suspended];
      } else {
        suspended := suspended - {id};
        ready := ready + multiset{e};
        states := states[id := Active];
      }
      currentSuspend := false;
    }

    method HasActive() returns (b: bool)
      requires Valid()
      ensures b <==> exists id :: id in contexts && Now().LifeOf(id).phase.Ready?
    {
      b := ready != multiset{};
      if b {
        var e :| e in ready;
        assert Queued(ready, e.id) && Now().OnePlace(e.id);
        assert Now().LifeOf(e.id).phase.Ready?;
      } else {
        forall id | id in contexts
          ensures !Now().LifeOf(id).phase.Ready?
        {
          assert Now().OnePlace(id);
        }
      }
    }
  }

  /** No execution is parked with an unanswered awake: since its last suspend request none came,
      or else it has completed and waits to be detached.  And it is in no other place. */
  lemma NoLostWakeup(b: Books, id: Id)
    requires b.Sound() && id in b.suspended
    ensures Quiet(b.story[id].ops) || DoComplete in b.story[id].ops
    ensures !Queued(b.ready, id) && b.running != Some(id) && b.states[id].Suspended?
  {
    hide Quiet, Legal;
    assert b.OnePlace(id) && Lived(Kind.DynPrio, b.LifeOf(id), b.story[id]);
    ParkedIsQuiet(Kind.DynPrio, b.story[id].token, b.story[id].ops);
  }

  // ---------- Fairness ----------

  /** One turn: which entry was given out, how long it ran, and whether it is queued again. */
  datatype Turn = Turn(entry: Entry, ticks: nat, again: bool)

  function Aging(t: Turn): Entry {
    Entry(t.entry.id, Aged(t.entry.priority, t.ticks))
  }

  function AfterTurn(q: multiset<Entry>, t: Turn): multiset<Entry> {
    var rest := q - multiset{t.entry};
    if t.again then rest + multiset{Aging(t)} else rest
  }

  /** The turn is possible and takes at least one tick of the 64-bit clock. */
  predicate FairTurn(q: multiset<Entry>, t: Turn) {
    Top(q, t.entry) && 1 <= t.ticks < WORD
  }

  /** The entry is queued again with a priority that has wrapped around. */
  predicate Wraps(t: Turn) {
    t.again && t.entry.priority + t.ticks >= WORD
  }

  function AfterTurns(q: multiset<Entry>, ts: seq<Turn>): multiset<Entry>
    decreases |ts|
  {
    if ts == [] then q else AfterTurns(AfterTurn(q, ts[0]), ts[1..])
  }

  predicate FairTurns(q: multiset<Entry>, ts: seq<Turn>)
    decreases |ts|
  {
    ts == [] || (FairTurn(q, ts[0]) && FairTurns(AfterTurn(q, ts[0]), ts[1..]))
  }

  /** How many turns of one tick an entry can have before an entry of priority `p` comes first. */
  function Lead(e: Entry, p: nat): nat {
    if e.priority <= p then p - e.priority + 1 else 0
  }

  function Share(e: Entry, target: Entry): nat {
    if e.id == target.id then 0 else Lead(e, target.priority)
  }

  /** The sum over the other entries. */
  ghost function Potential(q: multiset<Entry>, target: Entry): nat
    decreases |q|
  {
    if q == multiset{} then 0
    else
      var e :| e in q;
      Share(e, target) + Potential(q - multiset{e}, target)
  }

  /** The sum does not depend on the order of summation. */
  lemma {:induction false} PotentialSplit(q: multiset<Entry>, e: Entry, target: Entry)
    requires e in q
    ensures Potential(q, target) == Share(e, target) + Potential(q - multiset{e}, target)
    decreases |q|
  {
    hide Share;
    var f :| f in q && Potential(q, target) == Share(f, target) + Potential(q - multiset{f}, target);
    if f != e {
      assert q - multiset{f} - multiset{e} == q - multiset{e} - multiset{f};
      PotentialSplit(q - multiset{f}, e, target);
      PotentialSplit(q - multiset{e}, f, target);
    }
  }

  lemma PotentialGrows(q: multiset<Entry>, e: Entry, target: Entry)
    ensures Potential(q + multiset{e}, target) == Share(e, target) + Potential(q, target)
  {
    PotentialSplit(q + multiset{e}, e, target);
    assert q + multiset{e} - multiset{e} == q;
  }

  lemma Ages(t: Turn, target: Entry)
    requires t.entry.priority <= target.priority && 1 <= t.ticks < WORD && t.entry.priority < WORD
    requires t.entry.id != target.id
    ensures Share(Aging(t), target) < Share(t.entry, target) <==> t.entry.priority + t.ticks < WORD
    ensures Share(t.entry, target) >= 1
  {
  }

  lemma WordsStay(q: multiset<Entry>, t: Turn)
    requires Words(q)
    ensures Words(AfterTurn(q, t))
  {
  }

  /** A turn of another execution uses up some of the potential if and only if its entry does not come
      back with a wrapped priority; the target keeps its place in any case. */
  lemma TurnCosts(q: multiset<Entry>, t: Turn, target: Entry)
    requires target in q && Words(q) && FairTurn(q, t) && t.entry.id != target.id
    ensures target in AfterTurn(q, t)
    ensures Potential(AfterTurn(q, t), target) < Potential(q, target) <==> !Wraps(t)
  {
    hide Potential, Share, Aging;
    PotentialSplit(q, t.entry, target);
    Ages(t, target);
    if t.again {
      PotentialGrows(q - multiset{t.entry}, Aging(t), target);
    }
  }

  /** A run of turns that all pass the target over. */
  ghost predicate PassesOver(q: multiset<Entry>, ts: seq<Turn>, target: Entry) {
    target in q && Words(q) && FairTurns(q, ts) && forall t | t in ts :: t.entry.id != target.id
  }

  /** Every turn of the run lowers the potential. */
  ghost predicate AlwaysLowers(q: multiset<Entry>, ts: seq<Turn>, target: Entry)
    decreases |ts|
  {
    ts == [] || (Potential(AfterTurn(q, ts[0]), target) < Potential(q, target)
                 && AlwaysLowers(AfterTurn(q, ts[0]), ts[1..], target))
  }

  /** Over a run: every turn that passes the target over lowers the potential, if and only if no entry
      is queued again with a wrapped priority. */
  lemma {:induction false} LowersExactly(q: multiset<Entry>, ts: seq<Turn>, target: Entry)
    requires PassesOver(q, ts, target)
    ensures AlwaysLowers(q, ts, target) <==> forall t | t in ts :: !Wraps(t)
    ensures target in AfterTurns(q, ts)
    decreases |ts|
  {
    hide Potential, AfterTurn, Wraps, FairTurn, Words;
    if ts != [] {
      TurnCosts(q, ts[0], target);
      WordsStay(q, ts[0]);
      LowersExactly(AfterTurn(q, ts[0]), ts[1..], target);
      assert ts == [ts[0]] + ts[1..];
    }
  }

  lemma {:induction false} LoweringBounds(q: multiset<Entry>, ts: seq<Turn>, target: Entry)
    requires AlwaysLowers(q, ts, target)
    ensures |ts| + Potential(AfterTurns(q, ts), target) <= Potential(q, target)
    decreases |ts|
  {
    hide Potential, AfterTurn;
    if ts != [] {
      LoweringBounds(AfterTurn(q, ts[0]), ts[1..], target);
    }
  }

  /** A ready execution waits for at most `Potential` turns of others, if nobody is attached or awoken
      meanwhile and no entry is queued again with a wrapped priority. */
  lemma Fair(q: multiset<Entry>, ts: seq<Turn>, target: Entry)
    requires PassesOver(q, ts, target)
    requires forall t | t in ts :: !Wraps(t)
    ensures |ts| + Potential(AfterTurns(q, ts), target) <= Potential(q, target)
    ensures target in AfterTurns(q, ts)
  {
    LowersExactly(q, ts, target);
    LoweringBounds(q, ts, target);
  }

  /** Without potential the next turn is the target's. */
  lemma NextAtZero(q: multiset<Entry>, target: Entry, e: Entry)
    requires target in q && Distinct(q) && Potential(q, target) == 0 && Top(q, e)
    ensures e == target
  {
    PotentialSplit(q, e, target);
  }

  /** The turns are the scheduler's own: what `Schedule` and `End` do to the queue is one `AfterTurn`. */
  lemma TurnOfBooks(b: Books, e: Entry, ticks: nat, completed: bool)
    requires b.Sound() && b.running == None && Top(b.ready, e) && e.id in b.story
    ensures var c := Ended(Picked(b, e), Entry(e.id, Aged(e.priority, ticks)), completed);
            c.ready == AfterTurn(b.ready, Turn(e, ticks, e.id !in c.suspended))
  {
    hide Lived, Distinct, Queued;
    PickedSound(b, e);
    assert Picked(b, e).OnePlace(e.id);
  }

  /** The queue of a new scheduler with two attached executions. */
  function TwoAttached(): multiset<Entry> {
    Attached(Attached(EMPTY, 0), 1).ready
  }

  const EMPTY: Books := Books(multiset{}, {}, {}, {}, None, false, map[], map[])

  /** The first turn takes one execution to the largest priority value. */
  const LONG: Turn := Turn(Entry(0, 0), WORD - 1, true)

  const ROUND: seq<Turn> := [Turn(Entry(1, 0), WORD - 1, true), Turn(Entry(1, WORD - 1), 1, true)]

  function Rounds(n: nat): seq<Turn> {
    if n == 0 then [] else ROUND + Rounds(n - 1)
  }

  /** Without the condition there is no bound: after one long turn of execution 0, two turns of
      execution 1 with a wrap in them can be repeated any number of times, and 0 stays ready. */
  lemma WrapStarves(n: nat)
    ensures FairTurns(TwoAttached(), [LONG] + Rounds(n))
    ensures |Rounds(n)| == 2 * n && forall t | t in Rounds(n) :: t.entry.id == 1
    ensures PassesOver(AfterTurn(TwoAttached(), LONG), Rounds(n), Entry(0, WORD - 1))
  {
    hide FairTurns;
    RoundsGoOn(n);
    assert TwoAttached() == multiset{Entry(1, 0)} + multiset{Entry(0, 0)};
    assert AfterTurn(TwoAttached(), LONG) == multiset{Entry(0, WORD - 1)} + multiset{Entry(1, 0)} by {
      assert multiset{Entry(1, 0)} + multiset{Entry(0, 0)} - multiset{Entry(0, 0)} == multiset{Entry(1, 0)};
    }
    assert multiset{Entry(1, 0)} + multiset{Aging(LONG)} == multiset{Entry(0, WORD - 1)} + multiset{Entry(1, 0)};
    OneMore(Entry(1, 0), LONG, Rounds(n));
  }

  lemma {:induction false} RoundsGoOn(n: nat)
    ensures FairTurns(multiset{Entry(0, WORD - 1)} + multiset{Entry(1, 0)}, Rounds(n))
    ensures |Rounds(n)| == 2 * n && forall t | t in Rounds(n) :: t.entry.id == 1
  {
    hide FairTurns;
    if n > 0 {
      RoundsGoOn(n - 1);
      WrapRound(Rounds(n - 1));
    } else {
      NoTurns(multiset{Entry(0, WORD - 1)} + multiset{Entry(1, 0)});
    }
  }

  lemma NoTurns(q: multiset<Entry>)
    ensures FairTurns(q, [])
  {
  }

  lemma WrapRound(ts: seq<Turn>)
    requires FairTurns(multiset{Entry(0, WORD - 1)} + multiset{Entry(1, 0)}, ts)
    ensures FairTurns(multiset{Entry(0, WORD - 1)} + multiset{Entry(1, 0)}, ROUND + ts)
  {
    hide FairTurns;
    OneMore(Entry(0, WORD - 1), ROUND[1], ts);
    OneMore(Entry(0, WORD - 1), ROUND[0], [ROUND[1]] + ts);
    assert [ROUND[0]] + ([ROUND[1]] + ts) == ROUND + ts;
  }

  lemma OneMore(other: Entry, t: Turn, ts: seq<Turn>)
    requires t.entry.priority <= other.priority && 1 <= t.ticks < WORD && t.again
    requires FairTurns(multiset{other} + multiset{Aging(t)}, ts)
    ensures FairTurns(multiset{other} + multiset{t.entry}, [t] + ts)
  {
    hide Aging, FairTurns;
    var q := multiset{other} + multiset{t.entry};
    assert q - multiset{t.entry} == multiset{other};
    assert AfterTurn(q, t) == multiset{other} + multiset{Aging(t)};
    TurnFirst(q, t, ts);
  }

  lemma TurnFirst(q: multiset<Entry>, t: Turn, ts: seq<Turn>)
    requires Top(q, t.entry) && 1 <= t.ticks < WORD && FairTurns(AfterTurn(q, t), ts)
    ensures FairTurns(q, [t] + ts)
  {
    hide Top, AfterTurn;
    assert ([t] + ts)[1..] == ts;
  }
}
