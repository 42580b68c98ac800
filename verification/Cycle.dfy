/** The round-robin scheduler of one execution domain.

    An array of `n` slots is scanned by a cursor that only moves forward.  Slots are never reused: a
    detached execution leaves its slot behind.  The counters of active and detached slots are kept
    beside the array, and a second array remembers which execution got which slot.
 */
module Cycle {
  import opened Modular
  import opened Park
  import opened Wrappers

  type Id = nat

  /** The null coroutine handle. */
  const NOBODY: Id := 0

  datatype Slot = Slot(id: Id, active: bool, suspendNow: bool, preawaken: bool, detached: bool)

  /** A slot that was never filled is active, too. */
  const BLANK: Slot := Slot(NOBODY, true, false, false, false)

  // ---------- Cursor arithmetic ----------

  /** The first cursor from `c` on that is at slot `i`. */
  function Next(c: nat, i: nat, n: nat): (d: nat)
    requires i < n
    ensures c <= d < c + n && d % n == i
  {
    var q, r := c / n, c % n;
    assert c == n * q + r;
    assert n * (q + 1) == n * q + n;
    RemainderOf(q, i, n);
    RemainderOf(q + 1, i, n);
    if i >= r then n * q + i else n * (q + 1) + i
  }

  lemma NextIs(c: nat, i: nat, n: nat, d: nat)
    requires i < n && c <= d < c + n && d % n == i
    ensures Next(c, i, n) == d
  {
    SameRemainder(d, Next(c, i, n), n);
  }

  // ---------- The scan ----------

  predicate Eligible(x: Slot) {
    x.active && !x.detached
  }

  /** The slot under cursor `c`. */
  function Under(slots: seq<Slot>, c: nat): Slot
    requires |slots| > 0
  {
    slots[c % |slots|]
  }

  /** The scan that starts at cursor `c` stops at cursor `d`. */
  predicate StopsAt(slots: seq<Slot>, c: nat, d: nat)
    requires |slots| > 0
  {
    c <= d && Eligible(Under(slots, d)) && forall e: nat | c <= e < d :: !Eligible(Under(slots, e))
  }

  lemma {:induction false} FirstStop(slots: seq<Slot>, c: nat, d: nat)
    requires |slots| > 0 && c <= d && Eligible(Under(slots, d))
    ensures exists e: nat :: e <= d && StopsAt(slots, c, e)
  {
    hide Under, Eligible;
    if e: nat :| c <= e < d && Eligible(Under(slots, e)) {
      FirstStop(slots, c, e);
    } else {
      assert StopsAt(slots, c, d);
    }
  }

  /** The scan ends if and only if some slot is active and not detached, and then it looks at no more
      than `n` slots. */
  lemma ScanEnds(slots: seq<Slot>, c: nat)
    requires |slots| > 0
    ensures (exists d: nat :: StopsAt(slots, c, d)) <==> (exists x :: x in slots && Eligible(x))
    ensures forall d: nat | StopsAt(slots, c, d) :: d < c + |slots|
  {
    forall d: nat | StopsAt(slots, c, d)
      ensures d < c + |slots|
    {
      var e := Next(c, d % |slots|, |slots|);
      assert Under(slots, e) == Under(slots, d);
    }
    if x :| x in slots && Eligible(x) {
      var i: nat :| i < |slots| && slots[i] == x;
      var d := Next(c, i, |slots|);
      assert Under(slots, d) == x;
      FirstStop(slots, c, d);
    }
    if d: nat :| StopsAt(slots, c, d) {
      assert Under(slots, d) in slots;
    }
  }

  // ---------- Fairness ----------

  /** One call of `Schedule`: the slots it found, and where it left the cursor. */
  datatype Call = Call(slots: seq<Slot>, after: nat)

  predicate Possible(call: Call, c: nat, n: nat) {
    |call.slots| == n > 0 && c < call.after && StopsAt(call.slots, c, call.after - 1)
  }

  function Given(call: Call, n: nat): nat
    requires n > 0
  {
    if call.after == 0 then 0 else (call.after - 1) % n
  }

  /** Calls one after the other.  Between them the slots may change in any way. */
  predicate Calls(calls: seq<Call>, c: nat, n: nat)
    decreases |calls|
  {
    calls == [] || (Possible(calls[0], c, n) && Calls(calls[1..], calls[0].after, n))
  }

  predicate Finds(call: Call, i: nat) {
    i < |call.slots| && Eligible(call.slots[i])
  }

  /** A call that finds slot `i` eligible and gives out another one stops before slot `i`. */
  lemma StopsBefore(call: Call, c: nat, n: nat, i: nat)
    requires Possible(call, c, n) && i < n && Finds(call, i) && Given(call, n) != i
    ensures c < call.after <= Next(c, i, n) == Next(call.after, i, n)
  {
    var d := Next(c, i, n);
    assert Under(call.slots, d) == call.slots[i];
    NextIs(call.after, i, n, d);
  }

  /** Calls that find slot `i` eligible and never give it out stay before it. */
  lemma {:induction false} Waits(calls: seq<Call>, c: nat, n: nat, i: nat)
    requires Calls(calls, c, n) && i < n
    requires forall call | call in calls :: Finds(call, i) && Given(call, n) != i
    ensures c + |calls| <= Next(c, i, n)
    decreases |calls|
  {
    hide Possible, Finds, Given;
    if calls != [] {
      StopsBefore(calls[0], c, n, i);
      Waits(calls[1..], calls[0].after, n, i);
    }
  }

  /** Whatever the other executions do: one that stays active is given out within `n` calls. */
  lemma Fair(calls: seq<Call>, c: nat, n: nat, i: nat)
    requires Calls(calls, c, n) && i < n && |calls| == n
    requires forall call | call in calls :: Finds(call, i)
    ensures exists call :: call in calls && Given(call, n) == i
  {
    if forall call | call in calls :: Given(call, n) != i {
      Waits(calls, c, n, i);
    }
  }

  // ---------- The books of the scheduler ----------

  function One(b: bool): nat {
    if b then 1 else 0
  }

  /** How many of the first `fill` slots satisfy `p`. */
  function Tally(slots: seq<Slot>, fill: nat, p: Slot -> bool): nat
    requires fill <= |slots|
  {
    if fill == 0 then 0 else Tally(slots, fill - 1, p) + One(p(slots[fill - 1]))
  }

  lemma {:induction false} TallyUpdate(slots: seq<Slot>, fill: nat, p: Slot -> bool, i: nat, x: Slot)
    requires fill <= |slots| && i < |slots|
    ensures Tally(slots[i := x], fill, p)
         == Tally(slots, fill, p) + if i < fill then One(p(x)) - One(p(slots[i])) else 0
  {
    if fill > 0 {
      TallyUpdate(slots, fill - 1, p, i, x);
    }
  }

  lemma TallyNext(slots: seq<Slot>, fill: nat, p: Slot -> bool)
    requires fill < |slots|
    ensures Tally(slots, fill + 1, p) == Tally(slots, fill, p) + One(p(slots[fill]))
  {
  }

  lemma {:induction false} TallyWitness(slots: seq<Slot>, fill: nat, p: Slot -> bool)
    requires fill <= |slots|
    ensures Tally(slots, fill, p) > 0 <==> exists i: nat :: i < fill && p(slots[i])
  {
    if fill > 0 {
      TallyWitness(slots, fill - 1, p);
    }
  }

  predicate IsActive(x: Slot) { x.active }

  predicate IsDetached(x: Slot) { x.detached }

  datatype Entry = Entry(id: Id, slot: nat)

  /** The fields of a scheduler and of its execution domain as one value.  `running` is the slot whose
      turn it is. */
  datatype Books = Books(slots: seq<Slot>, index: seq<Entry>, fill: nat, active: nat, detached: nat,
                         running: Option<nat>, states: map<Id, State>, story: map<nat, Story>)
  {
    predicate Holds(i: nat, id: Id) {
      i < fill && i < |index| && index[i].id == id
    }

    ghost predicate Unknown(id: Id) {
      forall i: nat :: !Holds(i, id)
    }

    predicate Live(i: nat) {
      i < fill && i < |slots| && i < |index| && !slots[i].detached
    }

    function LifeOf(i: nat): Life
      requires Live(i) && index[i].id in states
    {
      Life(if running == Some(i) then Running else if slots[i].active then Ready else Parked,
           slots[i].preawaken, slots[i].suspendNow, states[index[i].id])
    }

    ghost predicate Filled(i: nat)
      requires i < |slots| && i < |index|
    {
      if i < fill then
        && index[i].slot == i && index[i].id != NOBODY
        && slots[i].id == (if slots[i].detached then NOBODY else index[i].id)
        && (slots[i].detached ==> !slots[i].active && index[i].id !in states)
        && (slots[i].suspendNow ==> running == Some(i))
      else slots[i] == BLANK && index[i] == Entry(NOBODY, 0)
    }

    ghost predicate Alive(i: nat) {
      Live(i) ==> index[i].id in states && i in story && Lived(Kind.Cycle, LifeOf(i), story[i])
    }

    ghost predicate Sound() {
      && 0 < |slots| == |index| && fill <= |slots|
      && (forall i: nat | i < |slots| :: Filled(i))
      && (forall i: nat, j: nat | i < j < fill :: index[i].id != index[j].id)
      && (forall i: nat | i < |slots| :: Alive(i))
      && (running.Some? ==> Live(running.value) && slots[running.value].active)
      && active == Tally(slots, fill, IsActive) && detached == Tally(slots, fill, IsDetached)
    }

    /** Every live slot but `i` is as before. */
    ghost predicate OnlyFor(i: nat, was: Books) {
      && |slots| == |was.slots| && |index| == |was.index| && fill >= was.fill
      && (forall k: nat | k != i && k < |index| :: index[k] == was.index[k])
      && (forall k: nat | k != i && k < |slots| :: slots[k] == was.slots[k])
      && forall k: nat | k != i && was.Live(k) && was.index[k].id in was.states && k in was.story ::
           Live(k) && index[k].id in states && k in story && LifeOf(k) == was.LifeOf(k) && story[k] == was.story[k]
    }

    /** The execution in slot `i` took one step of its life, and all others are as before. */
    ghost predicate Did(i: nat, op: Op, was: Books) {
      && OnlyFor(i, was) && index == was.index && fill == was.fill && detached == was.detached
      && Live(i) && was.Live(i) && index[i].id in states && was.index[i].id in was.states
      && LifeOf(i) == Do(Kind.Cycle, was.LifeOf(i), op)
      && i in story && i in was.story && story[i] == Told(was.story[i], op)
    }
  }

  /** The books after slot `i`, its domain state and its story have changed. */
  function Changed(b: Books, i: nat, x: Slot, active: nat, running: Option<nat>, state: State, op: Op): Books
    requires b.Live(i) && i in b.story
  {
    b.(slots := b.slots[i := x], active := active, running := running,
       states := b.states[b.index[i].id := state], story := b.story[i := Told(b.story[i], op)])
  }

  /** A change of slot `i` that is possible for its execution. */
  ghost predicate Changes(b: Books, i: nat, x: Slot, active: nat, running: Option<nat>, state: State, op: Op) {
    && b.Sound() && b.Live(i) && i in b.story && b.index[i].id in b.states
    && x.id == b.slots[i].id && !x.detached
    && active == b.active + One(x.active) - One(b.slots[i].active)
    && (running == b.running || (running == Some(i) && b.running.None?) || (running.None? && b.running == Some(i)))
    && (running == Some(i) ==> x.active) && (x.suspendNow ==> running == Some(i))
  }

  lemma ChangedSlot(b: Books, i: nat, x: Slot, active: nat, running: Option<nat>, state: State, op: Op, k: nat)
    requires Changes(b, i, x, active, running, state, op) && k < |b.slots|
    ensures Changed(b, i, x, active, running, state, op).Filled(k)
    ensures k != i && b.Live(k) ==>
              var c := Changed(b, i, x, active, running, state, op);
              && c.Live(k) && c.index[k].id in c.states && k in c.story
              && b.index[k].id in b.states && k in b.story
              && c.LifeOf(k) == b.LifeOf(k) && c.story[k] == b.story[k]
  {
    hide Lived, Tally;
    assert b.Filled(i) && b.Filled(k) && b.Alive(k);
  }

  lemma ChangedSound(b: Books, i: nat, x: Slot, active: nat, running: Option<nat>, state: State, op: Op)
    requires Changes(b, i, x, active, running, state, op)
    requires Enabled(b.LifeOf(i), op)
    requires Changed(b, i, x, active, running, state, op).LifeOf(i) == Do(Kind.Cycle, b.LifeOf(i), op)
    ensures Changed(b, i, x, active, running, state, op).Sound()
    ensures Changed(b, i, x, active, running, state, op).Did(i, op, b)
  {
    hide Lived, Do, Enabled, Tally, Books.Filled;
    var c := Changed(b, i, x, active, running, state, op);
    TallyUpdate(b.slots, b.fill, IsActive, i, x);
    TallyUpdate(b.slots, b.fill, IsDetached, i, x);
    assert b.Alive(i);
    forall k: nat | k < |b.slots|
      ensures c.Filled(k)
      ensures k != i && b.Live(k) ==>
                && c.Live(k) && c.index[k].id in c.states && k in c.story
                && b.index[k].id in b.states && k in b.story
                && c.LifeOf(k) == b.LifeOf(k) && c.story[k] == b.story[k]
    {
      ChangedSlot(b, i, x, active, running, state, op, k);
    }
    LivesOn(Kind.Cycle, b.LifeOf(i), b.story[i], op);
    forall k: nat | k < |c.slots|
      ensures c.Alive(k)
    {
      assert b.Alive(k);
    }
  }

  lemma Listed(b: Books, i: nat)
    requires b.Sound() && b.Live(i)
    ensures b.index[i].id in b.states && i in b.story && b.index[i].slot == i && b.index[i].id != NOBODY
    ensures b.slots[i].id == b.index[i].id && (b.slots[i].suspendNow ==> b.running == Some(i))
    ensures (b.slots[i].active ==> b.active > 0) && (b.running == Some(i) ==> b.slots[i].active)
  {
    assert b.Filled(i) && b.Alive(i);
    TallyWitness(b.slots, b.fill, IsActive);
    assert b.slots[i].active ==> IsActive(b.slots[i]);
  }

  lemma Size(b: Books)
    requires b.Sound()
    ensures 0 < |b.slots| == |b.index|
  {
  }

  function Awoken(b: Books, i: nat): Books
    requires b.Live(i) && i in b.story && b.index[i].id in b.states
  {
    var x := b.slots[i];
    if x.active then Changed(b, i, x.(preawaken := true), b.active, b.running, b.states[b.index[i].id], DoAwake)
    else Changed(b, i, x.(suspendNow := false, active := true), b.active + 1, b.running, Active, DoAwake)
  }

  lemma AwokenSound(b: Books, i: nat)
    requires b.Sound() && b.Live(i)
    ensures i in b.story && b.index[i].id in b.states
    ensures Awoken(b, i).Sound() && Awoken(b, i).Did(i, DoAwake, b)
  {
    hide Books.Sound, Books.Did;
    Listed(b, i);
    var x := b.slots[i];
    if x.active {
      ChangedSound(b, i, x.(preawaken := true), b.active, b.running, b.states[b.index[i].id], DoAwake);
    } else {
      ChangedSound(b, i, x.(suspendNow := false, active := true), b.active + 1, b.running, Active, DoAwake);
    }
  }

  function Requested(b: Books, i: nat): Books
    requires b.Live(i) && i in b.story && b.index[i].id in b.states
  {
    var x := b.slots[i];
    if x.preawaken then
      Changed(b, i, x.(preawaken := false), b.active, b.running, b.states[b.index[i].id], DoSuspend)
    else Changed(b, i, x.(suspendNow := true), b.active, b.running, State.Suspended, DoSuspend)
  }

  lemma RequestedSound(b: Books, i: nat)
    requires b.Sound() && b.running == Some(i)
    ensures b.Live(i) && i in b.story && b.index[i].id in b.states
    ensures Requested(b, i).Sound() && Requested(b, i).Did(i, DoSuspend, b)
  {
    assert b.Live(i) && b.slots[i].active;
    hide Books.Sound, Books.Did;
    Listed(b, i);
    var x := b.slots[i];
    if x.preawaken {
      ChangedSound(b, i, x.(preawaken := false), b.active, b.running, b.states[b.index[i].id], DoSuspend);
    } else {
      ChangedSound(b, i, x.(suspendNow := true), b.active, b.running, State.Suspended, DoSuspend);
    }
  }

  function Ended(b: Books, i: nat, completed: bool): Books
    requires b.Live(i) && i in b.story && b.active > 0
  {
    var x, op := b.slots[i], if completed then DoComplete else DoEnd;
    if (x.suspendNow && !x.preawaken) || completed then
      Changed(b, i, x.(active := false, suspendNow := false), b.active - 1, None, State.Suspended, op)
    else Changed(b, i, x.(suspendNow := false), b.active, None, Active, op)
  }

  lemma EndedSound(b: Books, i: nat, completed: bool)
    requires b.Sound() && b.running == Some(i)
    ensures b.Live(i) && i in b.story && b.index[i].id in b.states && b.active > 0 && b.index[i].id == b.slots[i].id
    ensures Ended(b, i, completed).Sound() && Ended(b, i, completed).Did(i, if completed then DoComplete else DoEnd, b)
  {
    assert b.Live(i) && b.slots[i].active;
    hide Books.Sound, Books.Did;
    Listed(b, i);
    var x, op := b.slots[i], if completed then DoComplete else DoEnd;
    if (x.suspendNow && !x.preawaken) || completed {
      ChangedSound(b, i, x.(active := false, suspendNow := false), b.active - 1, None, State.Suspended, op);
    } else {
      ChangedSound(b, i, x.(suspendNow := false), b.active, None, Active, op);
    }
  }

  function Picked(b: Books, i: nat): Books
    requires b.Live(i) && i in b.story
  {
    Changed(b, i, b.slots[i], b.active, Some(i), InTurn, DoSchedule)
  }

  lemma PickedSound(b: Books, i: nat)
    requires b.Sound() && b.running == None && b.Live(i) && b.slots[i].active
    ensures i in b.story && b.index[i].id in b.states && b.index[i].id == b.slots[i].id
    ensures Picked(b, i).Sound() && Picked(b, i).Did(i, DoSchedule, b)
  {
    hide Books.Sound, Books.Did;
    Listed(b, i);
    ChangedSound(b, i, b.slots[i], b.active, Some(i), InTurn, DoSchedule);
  }

  function Attached(b: Books, id: Id): Books
    requires b.fill < |b.slots| == |b.index|
  {
    b.(slots := b.slots[b.fill := Slot(id, true, false, false, false)],
       index := b.index[b.fill := Entry(id, b.fill)], fill := b.fill + 1, active := b.active + 1,
       states := b.states[id := Active], story := b.story[b.fill := Story(false, [])])
  }

  lemma AttachedKeeps(b: Books, id: Id, k: nat)
    requires b.Sound() && b.fill < |b.slots| && id != NOBODY && b.Unknown(id) && k < |b.slots| && k != b.fill
    ensures Attached(b, id).Filled(k) && Attached(b, id).Alive(k)
    ensures b.Live(k) ==> b.index[k].id in b.states && Attached(b, id).LifeOf(k) == b.LifeOf(k)
  {
    assert b.Filled(k) && b.Alive(k) && !b.Holds(k, id);
  }

  lemma AttachedSound(b: Books, id: Id)
    requires b.Sound() && b.fill < |b.slots| && id != NOBODY && b.Unknown(id)
    ensures Attached(b, id).Sound() && Attached(b, id).OnlyFor(b.fill, b)
    ensures Attached(b, id).Live(b.fill) && Attached(b, id).LifeOf(b.fill) == Born(false)
  {
    hide Lived, Tally, Books.Alive;
    var c := Attached(b, id);
    TallyUpdate(b.slots, b.fill, IsActive, b.fill, c.slots[b.fill]);
    TallyUpdate(b.slots, b.fill, IsDetached, b.fill, c.slots[b.fill]);
    TallyNext(c.slots, b.fill, IsActive);
    TallyNext(c.slots, b.fill, IsDetached);
    assert b.Filled(b.fill);
    AttachedAlive(b, id);
    forall k: nat | k < |b.slots| && k != b.fill
      ensures c.Filled(k) && c.Alive(k)
      ensures b.Live(k) ==> b.index[k].id in b.states && c.LifeOf(k) == b.LifeOf(k)
    {
      AttachedKeeps(b, id, k);
    }
    forall i: nat, j: nat | i < j < c.fill
      ensures c.index[i].id != c.index[j].id
    {
      assert !b.Holds(i, id) && !b.Holds(j, id);
    }
  }

  lemma AttachedAlive(b: Books, id: Id)
    requires b.Sound() && b.fill < |b.slots|
    ensures Attached(b, id).Alive(b.fill)
  {
    assert b.Filled(b.fill);
    NewStory(Kind.Cycle, false);
  }

  function Detached(b: Books, i: nat): Books
    requires b.Live(i)
  {
    b.(slots := b.slots[i := b.slots[i].(detached := true, id := NOBODY)], detached := b.detached + 1,
       states := b.states - {b.index[i].id}, story := b.story - {i})
  }

  lemma DetachedSound(b: Books, i: nat)
    requires b.Sound() && b.Live(i) && !b.slots[i].active
    ensures Detached(b, i).Sound() && Detached(b, i).OnlyFor(i, b)
  {
    hide Lived, Tally;
    var c := Detached(b, i);
    TallyUpdate(b.slots, b.fill, IsActive, i, c.slots[i]);
    TallyUpdate(b.slots, b.fill, IsDetached, i, c.slots[i]);
    assert b.Filled(i);
    forall k: nat | k < |b.slots|
      ensures c.Filled(k) && c.Alive(k)
    {
      assert b.Filled(k) && b.Alive(k);
    }
    forall k: nat | k != i && b.Live(k)
      ensures c.Live(k) && c.index[k].id in c.states && k in c.story && c.LifeOf(k) == b.LifeOf(k)
    {
      assert b.Filled(k) && b.Alive(k);
    }
  }

  lemma Blank(b: Books)
    requires 0 < |b.slots| == |b.index| && b.fill == 0 && b.active == 0 && b.detached == 0 && b.running.None?
    requires forall i: nat | i < |b.slots| :: b.slots[i] == BLANK && b.index[i] == Entry(NOBODY, 0)
    ensures b.Sound()
  {
  }

  /** The scan ends exactly when the counter of active slots is positive or a slot was never filled. */
  lemma CountEnds(b: Books, c: nat)
    requires b.Sound()
    ensures b.active > 0 || b.fill < |b.slots| <==> exists d: nat :: StopsAt(b.slots, c, d)
  {
    hide Lived;
    ScanEnds(b.slots, c);
    TallyWitness(b.slots, b.fill, IsActive);
    if b.fill < |b.slots| {
      assert b.Filled(b.fill) && Eligible(b.slots[b.fill]);
    }
    if i: nat :| i < b.fill && IsActive(b.slots[i]) {
      assert b.Filled(i) && Eligible(b.slots[i]);
    }
    if x :| x in b.slots && Eligible(x) {
      var i: nat :| i < |b.slots| && b.slots[i] == x;
      assert IsActive(b.slots[i]);
    }
  }

  /** An eligible slot holds nobody exactly if it was never filled. */
  lemma NobodyIn(b: Books, i: nat)
    requires b.Sound() && i < |b.slots| && !b.slots[i].detached
    ensures b.slots[i].id == NOBODY <==> i >= b.fill
    ensures i >= b.fill ==> b.slots[i] == BLANK
  {
    assert b.Filled(i);
  }

  lemma Gone(b: Books, i: nat)
    requires b.Sound() && i < b.fill && b.slots[i].detached
    ensures !b.slots[i].active && b.index[i].id !in b.states
  {
    assert b.Filled(i);
  }

  // ---------- Handles that are not right ----------

  /** Where a search of the index map stops: at the first slot that was filled for the handle. */
  function Lookup(index: seq<Entry>, id: Id): (i: nat)
    ensures i <= |index| && (i < |index| ==> index[i].id == id) && forall k: nat | k < i :: index[k].id != id
  {
    if index == [] || index[0].id == id then 0 else 1 + Lookup(index[1..], id)
  }

  /** What an awake does to an inactive slot, whether or not anybody lives there. */
  function Raised(b: Books, i: nat): Books
    requires i < |b.slots|
  {
    b.(slots := b.slots[i := b.slots[i].(suspendNow := false, active := true)], active := b.active + 1)
  }

  /** An awake of a detached execution breaks the books: with no active slot and none left to fill, the
      counter becomes positive and the scan still does not end. */
  lemma StaleAwakeSpins(b: Books, i: nat, c: nat, d: nat)
    requires b.Sound() && i < b.fill && b.slots[i].detached
    ensures !Raised(b, i).Sound() && Raised(b, i).active > 0
    ensures b.active == 0 && b.fill == |b.slots| ==> !StopsAt(Raised(b, i).slots, c, d)
  {
    hide Lived;
    var r := Raised(b, i);
    assert !r.Filled(i);
    if b.active == 0 && b.fill == |b.slots| {
      CountEnds(b, c);
      ScanEnds(b.slots, c);
      assert forall x | x in r.slots :: x in b.slots || x == r.slots[i];
      assert Under(r.slots, d) in r.slots;
    }
  }

  /** A handle that is attached a second time: from then on every search for it stops at the earlier
      slot, even if that is detached, so no awake and no suspend request reaches the new execution. */
  lemma ReusedHandle(b: Books, id: Id)
    requires b.Sound() && b.fill < |b.slots| && !b.Unknown(id)
    ensures Lookup(Attached(b, id).index, id) < b.fill
    ensures !Attached(b, id).Sound()
  {
    var i: nat :| b.Holds(i, id);
    var c := Attached(b, id);
    assert c.index[i].id == c.index[b.fill].id;
    hide Lived, Tally;
  }

  // ---------- The scheduler ----------

  class Cycle {
    const n: nat
    const slots: array<Slot>
    const index: array<Entry>
    var cursor: nat
    var fill: nat
    var activeCount: nat
    var detachedCount: nat
    var states: map<Id, State>      // kept by the execution domain
    ghost var running: Option<nat>  // the slot that has its turn
    ghost var story: map<nat, Story>

    ghost function Now(): Books
      reads this, slots, index
    {
      Books(slots[..], index[..], fill, activeCount, detachedCount, running, states, story)
    }

    ghost predicate Valid()
      reads this, slots, index
    {
      slots.Length == index.Length == n && Now().Sound()
    }

    constructor (n: nat)
      requires n > 0
      ensures Valid() && fresh(slots) && fresh(index) && this.n == n && fill == 0 && cursor == 0 && running == None
    {
      this.n := n;
      slots := new Slot[n](_ => BLANK);
      index := new Entry[n](_ => Entry(NOBODY, 0));
      cursor, fill, activeCount, detachedCount := 0, 0, 0, 0;
      states, running, story := map[], None, map[];
      new;
      Blank(Now());
    }

    /** The slot that an execution was given, or `n`. */
    method Find(id: Id) returns (i: nat)
      requires Valid() && id != NOBODY
      ensures i == Lookup(index[..], id)
      ensures if i < n then Now().Holds(i, id) else i == n && Now().Unknown(id)
    {
      i := 0;
      while i < n && index[i].id != id
        invariant i <= n
        invariant forall k: nat | k < i :: index[..][k].id != id
      {
        i := i + 1;
      }
      if i < n {
        assert index[..][i].id == id && Now().Filled(i);
        i := index[i].slot;
      } else {
        assert forall k: nat :: !Now().Holds(k, id);
      }
    }

    /** The books stay right exactly if the handle is not in the index map yet. */
    method Attach(id: Id)
      requires Valid() && fill < n && id != NOBODY
      modifies this, slots, index
      ensures old(fill < n) && Now() == Attached(old(Now()), id) && cursor == old(cursor)
      ensures Valid() <==> old(Now().Unknown(id))
      ensures Valid() ==> Now().OnlyFor(old(fill), old(Now()))
                          && Now().Live(old(fill)) && Now().LifeOf(old(fill)) == Born(false)
    {
      ghost var was := Now();
      if was.Unknown(id) {
        AttachedSound(was, id);
      } else {
        ReusedHandle(was, id);
      }
      hide Books.Sound, Books.OnlyFor;
      slots[fill] := Slot(id, true, false, false, false);
      index[fill] := Entry(id, fill);
      states := states[id := Active];
      story := story[fill := Story(false, [])];
      activeCount := activeCount + 1;
      fill := fill + 1;
      assert Now() == Attached(was, id);
    }

    /** The execution must be parked, as the source asserts.  Its slot stays behind. */
    method DetachSuspended(id: Id) returns (i: nat)
      requires Valid() && id != NOBODY
      requires forall k: nat | Now().Holds(k, id) :: Now().Live(k) && !slots[k].active
      modifies this, slots
      ensures if i < n then Now().Holds(i, id) else i == n && Now().Unknown(id)
      ensures Valid() && cursor == old(cursor)
      ensures if i < n then old(Now()).Live(i) && Now() == Detached(old(Now()), i) && Now().OnlyFor(i, old(Now()))
              else Now() == old(Now())
    {
      ghost var was := Now();
      i := Find(id);
      if i < n {
        DetachedSound(was, i);
        hide Books.Sound, Books.OnlyFor;
        slots[i] := slots[i].(detached := true, id := NOBODY);
        detachedCount := detachedCount + 1;
        states := states - {id};
        story := story - {i};
        assert Now() == Detached(was, i);
      }
    }

    /** `lost`: the execution was detached, so the domain's assertion fails, with the slot marked. */
    method Awake(id: Id) returns (i: nat, lost: bool)
      requires Valid() && id != NOBODY
      modifies this, slots
      ensures if i < n then Now().Holds(i, id) else i == n && Now().Unknown(id)
      ensures cursor == old(cursor) && running == old(running)
      ensures lost <==> i < n && old(slots[..])[i].detached
      ensures lost ==> i < |old(slots[..])| && Now() == Raised(old(Now()), i) && !Valid()
      ensures !lost ==> Valid() && if i < n then Now().Did(i, DoAwake, old(Now())) else Now() == old(Now())
    {
      hide Books.Sound, Books.Did;
      ghost var was := Now();
      lost := false;
      i := Find(id);
      if i < n {
        ghost var alive := !slots[i].detached;
        if alive {
          AwokenSound(was, i);
          story := story[i := Told(story[i], DoAwake)];
        } else {
          StaleAwakeSpins(was, i, 0, 0);
          Gone(was, i);
        }
        if !slots[i].active {
          slots[i] := slots[i].(suspendNow := false);
          slots[i] := slots[i].(active := true);
          activeCount := activeCount + 1;
          lost := id !in states;
          if !lost {
            states := states[id := Active];
          }
        } else {
          slots[i] := slots[i].(preawaken := true);
          assert states == states[id := states[id]];
        }
        assert Now() == if alive then Awoken(was, i) else Raised(was, i);
      }
    }

    method SuspendCurrent(id: Id) returns (i: nat)
      requires Valid() && running.Some? && Now().Holds(running.value, id)
      modifies this, slots
      ensures Valid() && cursor == old(cursor) && running == old(running) == Some(i)
      ensures Now().Did(i, DoSuspend, old(Now()))
    {
      hide Books.Did;
      ghost var was := Now();
      RequestedSound(was, running.value);
      Listed(was, running.value);
      i := Find(id);
      Size(was);
      assert i == running.value;
      hide Books.Sound;
      story := story[i := Told(story[i], DoSuspend)];
      if slots[i].preawaken {
        slots[i] := slots[i].(preawaken := false);
        assert states == states[id := states[id]];
      } else {
        slots[i] := slots[i].(suspendNow := true);
        states := states[id := State.Suspended];
      }
      assert Now() == Requested(was, i);
    }

    /** The scan ends if the counter says that some slot is active, or if a slot was never filled; then
        it may give out such a slot, which belongs to nobody. */
    method Schedule() returns (i: nat)
      requires Valid() && running == None && (activeCount > 0 || fill < n)
      modifies this
      ensures Valid() && i < n
      ensures Possible(Call(old(slots[..]), cursor), old(cursor), n) && Given(Call(old(slots[..]), cursor), n) == i
      ensures if i < fill then running == Some(i) && Now().Did(i, DoSchedule, old(Now()))
              else slots[i] == BLANK && Now() == old(Now())
    {
      hide Books.Sound, Books.Did;
      ghost var was := Now();
      Size(was);
      CountEnds(was, cursor);
      ghost var d: nat :| StopsAt(was.slots, cursor, d);
      while slots[cursor % n].detached || !slots[cursor % n].active
        invariant old(cursor) <= cursor <= d && Now() == was
        invariant forall e: nat | old(cursor) <= e < cursor :: !Eligible(Under(was.slots, e))
        decreases d - cursor
      {
        assert !Eligible(Under(was.slots, cursor));
        cursor := cursor + 1;
      }
      i := cursor % n;
      assert StopsAt(was.slots, old(cursor), cursor);
      cursor := cursor + 1;
      NobodyIn(was, i);
      if slots[i].id == NOBODY {
        return;
      }
      PickedSound(was, i);
      states := states[slots[i].id := InTurn];
      running := Some(i);
      story := story[i := Told(story[i], DoSchedule)];
      assert Now() == Picked(was, i);
    }

    method End(i: nat, completed: bool)
      requires Valid() && running == Some(i)
      modifies this, slots
      ensures Valid() && running == None && cursor == old(cursor)
      ensures Now().Did(i, if completed then DoComplete else DoEnd, old(Now()))
    {
      hide Books.Sound, Books.Did;
      ghost var was := Now();
      EndedSound(was, i, completed);
      running := None;
      story := story[i := Told(story[i], if completed then DoComplete else DoEnd)];
      if (slots[i].suspendNow && !slots[i].preawaken) || completed {
        slots[i] := slots[i].(active := false);
        activeCount := activeCount - 1;
        states := states[slots[i].id := State.Suspended];
      } else {
        states := states[slots[i].id := Active];
      }
      slots[i] := slots[i].(suspendNow := false);
      assert Now() == Ended(was, i, completed);
    }

    /** The unsigned subtraction does not wrap, and it counts the slots that are neither active nor
        detached, among the unfilled ones. */
    method HasSuspended() returns (b: bool)
      requires Valid()
      ensures activeCount + detachedCount <= fill <= n
      ensures b <==> fill < n || exists i: nat :: Now().Live(i) && !slots[i].active
    {
      b := n - activeCount - detachedCount > 0;
      CountsFit(Now());
    }
  }

  lemma CountsFit(b: Books)
    requires b.Sound()
    ensures b.active + b.detached <= b.fill <= |b.slots|
    ensures b.active + b.detached < b.fill <==> exists i: nat :: b.Live(i) && !b.slots[i].active
  {
    hide Lived;
    forall i: nat | i < b.fill
      ensures !(b.slots[i].active && b.slots[i].detached)
    {
      assert b.Filled(i);
    }
    TwoTallies(b.slots, b.fill);
    if i: nat :| i < b.fill && Idle(b.slots[i]) {
      assert b.Live(i);
    }
    if i: nat :| b.Live(i) && !b.slots[i].active {
      assert Idle(b.slots[i]);
    }
  }

  predicate Idle(x: Slot) { !x.active && !x.detached }

  lemma {:induction false} TwoTallies(slots: seq<Slot>, fill: nat)
    requires fill <= |slots| && forall i: nat | i < fill :: !(slots[i].active && slots[i].detached)
    ensures Tally(slots, fill, IsActive) + Tally(slots, fill, IsDetached) <= fill
    ensures Tally(slots, fill, IsActive) + Tally(slots, fill, IsDetached) < fill
       <==> exists i: nat :: i < fill && Idle(slots[i])
  {
    if fill > 0 {
      TwoTallies(slots, fill - 1);
    }
  }

  /** No execution is parked with an unanswered awake: since its last suspend request none came,
      or else it has completed and waits to be detached. */
  lemma NoLostWakeup(b: Books, i: nat)
    requires b.Sound() && b.Live(i) && !b.slots[i].active
    ensures i in b.story && (Quiet(b.story[i].ops) || DoComplete in b.story[i].ops)
    ensures b.index[i].id in b.states && b.states[b.index[i].id].Suspended?
  {
    hide Quiet, Legal;
    Listed(b, i);
    assert b.Alive(i);
    ParkedIsQuiet(Kind.Cycle, b.story[i].token, b.story[i].ops);
  }
}
