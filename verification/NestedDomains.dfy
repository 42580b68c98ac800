/** The tree of execution domains and the worker that walks it.

    An execution may own a subdomain.  The worker then schedules inside the subdomain instead of
    resuming the execution, suspends an owner whose subdomain has nothing ready, and an awake inside
    a subdomain is passed on to suspended owners.  A scheduler method is one step, and so is the
    worker's check of a subdomain together with the suspend request that follows it; awakes may
    arrive between any two steps.  Nothing is cancelled.
 */
module NestedDomains {
  import opened Park
  import opened Wrappers

  type Id = nat
  type Dom = nat

  const ROOT: Dom := 0

  datatype Exec = Exec(dom: Dom, life: Life, sub: Option<Dom>)

  datatype Domain = Domain(kind: Kind, owner: Option<Id>)

  /** What the worker is doing.  `turn` is the execution that was resumed, if any was. */
  datatype PC = Rest | Enter(dom: Dom) | Leaf | Unwind(turn: Option<Id>, completed: bool)

  /** `stack` holds the executions scheduled on the way down, `next` is the next new domain. */
  datatype Sys = Sys(execs: map<Id, Exec>, doms: map<Dom, Domain>, next: Dom, stack: seq<Id>, pc: PC)

  datatype Event =
    | Spawn(e: Id, token: bool)   // a new task arrives in the root domain; a stale awake may wait for it
    | Start
    | Pick(e: Id)                 // the scheduler of the entered domain gives out `e`
    | RequestSuspend              // the resumed coroutine asks to be suspended
    | Create(kind: Kind)          // ... makes a subdomain for itself
    | Attach(e: Id, token: bool)  // ... and attaches an execution to it
    | Finish(completed: bool)     // its resumption returns
    | EndInner                    // the innermost scheduled execution ends its turn
    | Detach                      // a completed execution is forgotten
    | Wake(e: Id)

  // ---------- Transitions ----------

  function Fresh(kind: Kind): Sys {
    Sys(map[], map[ROOT := Domain(kind, None)], 1, [], Rest)
  }

  function SetLife(s: Sys, e: Id, x: Life): Sys
    requires e in s.execs
  {
    s.(execs := s.execs[e := s.execs[e].(life := x)])
  }

  predicate Member(s: Sys, d: Dom, e: Id) {
    e in s.execs && s.execs[e].dom == d
  }

  predicate ReadyIn(s: Sys, d: Dom, e: Id) {
    Member(s, d, e) && s.execs[e].life.phase.Ready?
  }

  predicate Empty(s: Sys, d: Dom) {
    forall e | e in s.execs :: !Member(s, d, e)
  }

  predicate HasReady(s: Sys, d: Dom) {
    exists e :: e in s.execs && ReadyIn(s, d, e)
  }

  function Last(s: Sys): Id
    requires s.stack != []
  {
    s.stack[|s.stack| - 1]
  }

  /** The awake of one execution and, upwards, of its suspended owners. */
  function WakeUp(s: Sys, e: Id): Sys
    requires e in s.execs
    decreases s.execs[e].dom
  {
    var d := s.execs[e].dom;
    var s' := SetLife(s, e, Awake(s.execs[e].life));
    if d in s.doms && s.doms[d].owner.Some? then
      var o := s.doms[d].owner.value;
      // An owner lives in an older domain.
      if o in s'.execs && s'.execs[o].dom < d && s'.execs[o].life.state.Suspended? then WakeUp(s', o) else s'
    else s'
  }

  /** One level of the descent. */
  function PickStep(s: Sys, e: Id): Sys
    requires e in s.execs
  {
    var x := s.execs[e];
    var s' := SetLife(s, e, Schedule(x.life)).(stack := s.stack + [e]);
    if x.sub.None? then s'.(pc := Leaf)
    else if Empty(s, x.sub.value) then
      s'.(execs := s'.execs[e := s'.execs[e].(sub := None)], pc := Unwind(None, false))
    else if !HasReady(s, x.sub.value) then
      SetLife(s', e, Suspend(Schedule(x.life))).(pc := Unwind(None, false))
    else s'.(pc := Enter(x.sub.value))
  }

  predicate Ends(s: Sys) {
    s.pc.Unwind? && s.stack != [] && Last(s) in s.execs && s.execs[Last(s)].dom in s.doms
  }

  function CompletedNow(s: Sys): bool
    requires s.pc.Unwind? && s.stack != []
  {
    s.pc.completed && s.pc.turn == Some(Last(s))
  }

  function EndStep(s: Sys): Sys
    requires Ends(s)
  {
    var e := Last(s);
    var life := End(s.doms[s.execs[e].dom].kind, s.execs[e].life, CompletedNow(s));
    SetLife(s, e, life).(stack := s.stack[..|s.stack| - 1])
  }

  predicate InTurn(s: Sys) {
    s.pc.Leaf? && s.stack != [] && Last(s) in s.execs
  }

  function Apply(s: Sys, ev: Event): Sys {
    match ev
    case Spawn(e, token) =>
      if s.pc.Rest? && e !in s.execs then s.(execs := s.execs[e := Exec(ROOT, Born(token), None)]) else s
    case Start => if s.pc.Rest? && HasReady(s, ROOT) then s.(pc := Enter(ROOT)) else s
    case Pick(e) => if s.pc.Enter? && ReadyIn(s, s.pc.dom, e) then PickStep(s, e) else s
    case RequestSuspend => if InTurn(s) then SetLife(s, Last(s), Suspend(s.execs[Last(s)].life)) else s
    case Create(kind) =>
      if InTurn(s) && s.execs[Last(s)].sub.None? then
        s.(execs := s.execs[Last(s) := s.execs[Last(s)].(sub := Some(s.next))],
           doms := s.doms[s.next := Domain(kind, Some(Last(s)))], next := s.next + 1)
      else s
    case Attach(e, token) =>
      if InTurn(s) && s.execs[Last(s)].sub.Some? && e !in s.execs then
        s.(execs := s.execs[e := Exec(s.execs[Last(s)].sub.value, Born(token), None)])
      else s
    case Finish(completed) => if InTurn(s) then s.(pc := Unwind(Some(Last(s)), completed)) else s
    case EndInner => if Ends(s) then EndStep(s) else s
    case Detach =>
      if s.pc.Unwind? && s.stack == [] then
        (if s.pc.completed && s.pc.turn.Some? then s.(execs := s.execs - {s.pc.turn.value}) else s).(pc := Rest)
      else s
    case Wake(e) =>
      if e in s.execs && !(s.pc.Unwind? && s.pc.completed && s.pc.turn == Some(e)) then WakeUp(s, e) else s
  }

  function Run(s: Sys, evs: seq<Event>): Sys
    decreases |evs|
  {
    if evs == [] then s else Apply(Run(s, evs[..|evs| - 1]), evs[|evs| - 1])
  }

  // ---------- The invariant ----------

  /** The property of interest: an execution that owns a subdomain is parked only if the subdomain
      is not empty and nothing in it is ready. */
  ghost predicate ParkedOwnerIsRight(s: Sys) {
    forall o | o in s.execs && s.execs[o].sub.Some? && s.execs[o].life.phase.Parked? ::
      !Empty(s, s.execs[o].sub.value) && !HasReady(s, s.execs[o].sub.value)
  }

  /** The coroutine that was resumed in this pass, until its turn ends. */
  predicate IsTurn(s: Sys, e: Id) {
    (s.pc.Leaf? && s.stack != [] && Last(s) == e) || (s.pc.Unwind? && s.pc.turn == Some(e) && e in s.stack)
  }

  /** Parked, or about to be: the adaptive suspension has been asked for and no token undoes it. */
  predicate Sleepy(s: Sys, o: Id)
    requires o in s.execs
  {
    var x := s.execs[o].life;
    x.phase.Parked? || (x.asked && !x.token && !IsTurn(s, o))
  }

  ghost predicate OwnerRight(s: Sys, o: Id)
    requires o in s.execs
  {
    s.execs[o].sub.Some? && Sleepy(s, o) ==> !Empty(s, s.execs[o].sub.value) && !HasReady(s, s.execs[o].sub.value)
  }

  /** Members and owners know each other, and owners live in older domains. */
  ghost predicate TreeAt(s: Sys, e: Id)
    requires e in s.execs
  {
    var x := s.execs[e];
    && x.dom in s.doms
    && (x.dom == ROOT || (s.doms[x.dom].owner.Some? && var o := s.doms[x.dom].owner.value;
                          o in s.execs && s.execs[o].sub == Some(x.dom) && s.execs[o].dom < x.dom))
    && (x.sub.Some? ==> x.sub.value in s.doms && x.dom < x.sub.value && s.doms[x.sub.value].owner == Some(e))
  }

  /** The stack is a path from the root.  Only the innermost execution can have asked to sleep. */
  ghost predicate Path(execs: map<Id, Exec>, stack: seq<Id>) {
    && (forall i: nat | i < |stack| :: stack[i] in execs)
    && (stack != [] ==> execs[stack[0]].dom == ROOT)
    && (forall i: nat | 0 < i < |stack| :: execs[stack[i - 1]].sub == Some(execs[stack[i]].dom))
    && (forall i: nat, j: nat | i < j < |stack| :: execs[stack[i]].dom < execs[stack[j]].dom)
    && (forall i: nat | i + 1 < |stack| :: !execs[stack[i]].life.asked)
  }

  ghost predicate StackRight(s: Sys) {
    Path(s.execs, s.stack)
  }

  ghost predicate PcRight(s: Sys) {
    match s.pc
    case Rest => s.stack == []
    case Enter(d) =>
      && HasReady(s, d)
      && (if s.stack == [] then d == ROOT
          else Last(s) in s.execs && s.execs[Last(s)].sub == Some(d) && !s.execs[Last(s)].life.asked)
    case Leaf => s.stack != []
    case Unwind(turn, completed) =>
      && (turn.Some? && turn.value in s.stack ==> turn.value == Last(s))
      && (completed ==> turn.Some? && turn.value in s.execs
                        && (turn.value !in s.stack ==> CompletedRight(s, turn.value)))
  }

  /** A completed execution is parked, owns nothing, and its owner is awake. */
  ghost predicate CompletedRight(s: Sys, e: Id)
    requires e in s.execs
  {
    var x := s.execs[e];
    && x.life.phase.Parked? && x.sub.None?
    && forall o | o in s.execs && s.execs[o].sub == Some(x.dom) ::
         !s.execs[o].life.phase.Parked? && !s.execs[o].life.asked
  }

  /** What the resumed coroutine attached in this turn has not run yet. */
  ghost predicate TurnRight(s: Sys, e: Id)
    requires e in s.execs
  {
    IsTurn(s, e) && s.execs[e].sub.Some? ==>
      forall m | m in s.execs && Member(s, s.execs[e].sub.value, m) :: s.execs[m].life.phase.Ready?
  }

  ghost predicate NodeRight(s: Sys, e: Id)
    requires e in s.execs
  {
    && TreeAt(s, e) && TurnRight(s, e)
    && Tells(s.execs[e].life, true, true)
    && (s.execs[e].life.phase.Running? <==> e in s.stack)
  }

  ghost predicate Shape(s: Sys) {
    && ROOT in s.doms && s.doms[ROOT].owner.None? && (forall d | d in s.doms :: d < s.next)
    && (forall e | e in s.execs :: NodeRight(s, e))
    && StackRight(s) && PcRight(s)
  }

  ghost predicate Inv(s: Sys) {
    Shape(s) && forall o | o in s.execs :: OwnerRight(s, o)
  }

  // ---------- Every event ----------

  /** An owner stays right if it is no sleepier, and its subdomain has nothing new that is ready and
      has not become empty. */
  lemma OwnerFrame(s: Sys, s': Sys, o: Id)
    requires o in s.execs && o in s'.execs && s'.execs[o].sub == s.execs[o].sub && OwnerRight(s, o)
    requires Sleepy(s', o) ==> Sleepy(s, o)
    requires forall m | m in s'.execs && s.execs[o].sub.Some? && ReadyIn(s', s.execs[o].sub.value, m) ::
               m in s.execs && ReadyIn(s, s.execs[o].sub.value, m)
    requires forall m | m in s.execs && s.execs[o].sub.Some? && Member(s, s.execs[o].sub.value, m) ::
               m in s'.execs && Member(s', s.execs[o].sub.value, m)
    ensures OwnerRight(s', o)
  {
    if s.execs[o].sub.Some? && Sleepy(s', o) {
      var d := s.execs[o].sub.value;
      var m :| m in s.execs && Member(s, d, m);
      assert Member(s', d, m);
    }
  }

  lemma SpawnKeeps(s: Sys, e: Id, token: bool)
    requires Inv(s)
    ensures Inv(Apply(s, Spawn(e, token)))
  {
    var s' := Apply(s, Spawn(e, token));
    if s != s' {
      forall o | o in s.execs
        ensures NodeRight(s', o) && OwnerRight(s', o)
      {
        assert NodeRight(s, o);
        OwnerFrame(s, s', o);
      }
      assert NodeRight(s', e);
    }
  }

  lemma StartKeeps(s: Sys)
    requires Inv(s)
    ensures Inv(Apply(s, Start))
  {
    var s' := Apply(s, Start);
    forall o | o in s.execs
      ensures NodeRight(s', o) && OwnerRight(s', o)
    {
      assert NodeRight(s, o);
      OwnerFrame(s, s', o);
    }
  }

  /** What the resumed coroutine can do to the tree: change its own record and add a new member to
      its own subdomain. */
  ghost predicate LeafStep(s: Sys, s': Sys) {
    && InTurn(s) && s'.pc == s.pc && s'.stack == s.stack
    && s.execs.Keys <= s'.execs.Keys && s.doms.Keys <= s'.doms.Keys
    && (forall o | o in s.execs && o != Last(s) :: s'.execs[o] == s.execs[o])
    && (forall d | d in s.doms :: s'.doms[d] == s.doms[d])
    && s'.execs[Last(s)].dom == s.execs[Last(s)].dom && s'.execs[Last(s)].life.phase == s.execs[Last(s)].life.phase
    && (s.execs[Last(s)].sub.Some? ==> s'.execs[Last(s)].sub == s.execs[Last(s)].sub)
    && (forall o | o in s'.execs && o !in s.execs :: s.execs[Last(s)].sub == Some(s'.execs[o].dom))
  }

  lemma LeafPath(s: Sys, s': Sys)
    requires Inv(s) && LeafStep(s, s')
    ensures StackRight(s') && PcRight(s')
  {
    hide OwnerRight, TurnRight, TreeAt, HasReady;
    assert NodeRight(s, Last(s));
  }

  lemma LeafOther(s: Sys, s': Sys, o: Id)
    requires Inv(s) && LeafStep(s, s') && o in s.execs && o != Last(s)
    ensures NodeRight(s', o) && OwnerRight(s', o)
  {
    assert NodeRight(s, o) && NodeRight(s, Last(s)) && OwnerRight(s, o);
    hide StackRight, PcRight, Inv;
    OwnerFrame(s, s', o);
  }

  lemma LeafKeeps(s: Sys, s': Sys)
    requires Inv(s) && LeafStep(s, s')
    requires forall o | o in s'.execs && (o == Last(s) || o !in s.execs) :: NodeRight(s', o) && OwnerRight(s', o)
    requires forall d | d in s'.doms :: d < s'.next
    ensures Inv(s')
  {
    LeafPath(s, s');
    assert ROOT in s'.doms && s'.doms[ROOT].owner.None?;
    forall o | o in s.execs && o != Last(s)
      ensures NodeRight(s', o) && OwnerRight(s', o)
    {
      LeafOther(s, s', o);
    }
    hide NodeRight, OwnerRight, StackRight, PcRight, LeafStep;
  }

  lemma NoMembersYet(s: Sys, m: Id)
    requires Inv(s) && m in s.execs
    ensures s.execs[m].dom != s.next && s.next !in s.doms
  {
    hide StackRight, PcRight, OwnerRight, TurnRight;
    assert NodeRight(s, m);
  }

  lemma CreatedNode(s: Sys, t: Id, kind: Kind)
    requires t in s.execs && NodeRight(s, t) && InTurn(s) && t == Last(s) && s.execs[t].sub.None?
    requires s.execs[t].dom < s.next && s.next !in s.doms && forall m | m in s.execs :: s.execs[m].dom != s.next
    ensures NodeRight(Apply(s, Create(kind)), t) && OwnerRight(Apply(s, Create(kind)), t)
  {
  }

  lemma CreateKeeps(s: Sys, kind: Kind)
    requires Inv(s)
    ensures Inv(Apply(s, Create(kind)))
  {
    if InTurn(s) && s.execs[Last(s)].sub.None? {
      assert NodeRight(s, Last(s)) && s.execs[Last(s)].dom < s.next;
      forall m | m in s.execs
        ensures s.execs[m].dom != s.next && s.next !in s.doms
      {
        NoMembersYet(s, m);
      }
      CreatedNode(s, Last(s), kind);
      assert forall d | d in s.doms :: d < s.next;
      hide NodeRight, OwnerRight, Inv;
      LeafKeeps(s, Apply(s, Create(kind)));
    }
  }

  lemma AttachedNodes(s: Sys, t: Id, e: Id, token: bool)
    requires t in s.execs && NodeRight(s, t) && InTurn(s) && t == Last(s) && s.execs[t].sub.Some?
    requires e !in s.execs && e !in s.stack
    ensures NodeRight(Apply(s, Attach(e, token)), t) && OwnerRight(Apply(s, Attach(e, token)), t)
    ensures NodeRight(Apply(s, Attach(e, token)), e) && OwnerRight(Apply(s, Attach(e, token)), e)
  {
  }

  lemma AttachKeeps(s: Sys, e: Id, token: bool)
    requires Inv(s)
    ensures Inv(Apply(s, Attach(e, token)))
  {
    if InTurn(s) && s.execs[Last(s)].sub.Some? && e !in s.execs {
      assert NodeRight(s, Last(s));
      assert e !in s.stack;
      AttachedNodes(s, Last(s), e, token);
      assert forall d | d in s.doms :: d < s.next;
      hide NodeRight, OwnerRight, Inv;
      LeafKeeps(s, Apply(s, Attach(e, token)));
    }
  }

  lemma RequestedNode(s: Sys, t: Id)
    requires t in s.execs && NodeRight(s, t) && InTurn(s) && t == Last(s)
    ensures NodeRight(Apply(s, RequestSuspend), t) && OwnerRight(Apply(s, RequestSuspend), t)
    ensures Apply(s, RequestSuspend).execs[t].life.phase == s.execs[t].life.phase
  {
    assert t in s.stack;
  }

  lemma SuspendKeeps(s: Sys)
    requires Inv(s)
    ensures Inv(Apply(s, RequestSuspend))
  {
    if InTurn(s) {
      assert NodeRight(s, Last(s));
      RequestedNode(s, Last(s));
      assert forall d | d in s.doms :: d < s.next;
      hide NodeRight, OwnerRight, Inv, Suspend;
      LeafKeeps(s, Apply(s, RequestSuspend));
    }
  }

  lemma FinishKeeps(s: Sys, completed: bool)
    requires Inv(s)
    ensures Inv(Apply(s, Finish(completed)))
  {
    var s' := Apply(s, Finish(completed));
    if s != s' {
      forall o | o in s.execs
        ensures NodeRight(s', o) && OwnerRight(s', o)
      {
        assert NodeRight(s, o);
        assert IsTurn(s', o) == IsTurn(s, o);
        OwnerFrame(s, s', o);
      }
    }
  }

  /** Two executions never own the same domain, and nobody owns the root. */
  lemma OneOwner(s: Sys, o: Id, e: Id)
    requires Inv(s) && o in s.execs && e in s.execs && s.execs[o].sub == Some(s.execs[e].dom)
    ensures s.execs[e].dom != ROOT && s.doms[s.execs[e].dom].owner == Some(o)
    ensures s.execs[o].dom < s.execs[e].dom
  {
    assert NodeRight(s, o) && NodeRight(s, e);
  }

  lemma PickKeeps(s: Sys, e: Id)
    requires Inv(s)
    ensures Inv(Apply(s, Pick(e)))
  {
    if s.pc.Enter? && ReadyIn(s, s.pc.dom, e) {
      PickedOthers(s, e);
      PickedNode(s, e);
      PickedStack(s, e);
      PickedPc(s, e);
      PickFacts(s, e);
      hide PickStep, NodeRight, OwnerRight, StackRight, PcRight, ReadyIn, HasReady;
    }
  }

  lemma PickFacts(s: Sys, e: Id)
    requires e in s.execs
    ensures var s' := PickStep(s, e);
            && s'.stack == s.stack + [e] && s'.doms == s.doms && s'.next == s.next && s'.execs.Keys == s.execs.Keys
            && (forall o | o in s.execs && o != e :: s'.execs[o] == s.execs[o])
            && s'.execs[e].dom == s.execs[e].dom && s'.execs[e].life.phase.Running?
            && (s'.pc.Leaf? || s'.pc.Enter? || s'.pc == Unwind(None, false))
  {
  }

  lemma PickedOthers(s: Sys, e: Id)
    requires Inv(s) && s.pc.Enter? && ReadyIn(s, s.pc.dom, e)
    ensures forall o | o in s.execs && o != e :: NodeRight(PickStep(s, e), o) && OwnerRight(PickStep(s, e), o)
  {
    var s' := PickStep(s, e);
    EnteredDeeper(s, e);
    PickFacts(s, e);
    hide PickStep, StackRight, PcRight;
    forall o | o in s.execs && o != e
      ensures NodeRight(s', o) && OwnerRight(s', o)
    {
      assert NodeRight(s, o);
      PickedOther(s, s', e, o);
    }
  }

  lemma PickedOther(s: Sys, s': Sys, e: Id, o: Id)
    requires e in s.execs && o in s.execs && o != e && NodeRight(s, o) && OwnerRight(s, o) && s.pc.Enter?
    requires s'.stack == s.stack + [e] && s'.doms == s.doms && s'.execs.Keys == s.execs.Keys
    requires forall k | k in s.execs && k != e :: s'.execs[k] == s.execs[k]
    requires s'.execs[e].dom == s.execs[e].dom && s'.execs[e].life.phase.Running?
    requires s'.pc.Leaf? || s'.pc.Enter? || s'.pc == Unwind(None, false)
    requires s.execs[e].sub == Some(s.execs[o].dom) ==> s'.execs[e].sub == s.execs[e].sub
    ensures NodeRight(s', o) && OwnerRight(s', o)
  {
    OwnerFrame(s, s', o);
  }

  lemma PickedPc(s: Sys, e: Id)
    requires Inv(s) && s.pc.Enter? && ReadyIn(s, s.pc.dom, e)
    ensures PcRight(PickStep(s, e))
  {
    assert NodeRight(s, e);
    hide OwnerRight, TurnRight, StackRight, NodeRight;
    var s' := PickStep(s, e);
    if s'.pc.Enter? {
      var d := s.execs[e].sub.value;
      var m :| m in s.execs && ReadyIn(s, d, m);
      assert ReadyIn(s', d, m);
    }
  }

  lemma PickedNode(s: Sys, e: Id)
    requires Inv(s) && s.pc.Enter? && ReadyIn(s, s.pc.dom, e)
    ensures NodeRight(PickStep(s, e), e) && OwnerRight(PickStep(s, e), e)
  {
    assert NodeRight(s, e);
    hide Inv, PickStep, NodeRight, OwnerRight;
    PickedSelf(s, e);
    PickedOwner(s, e);
  }

  lemma PickedSelf(s: Sys, e: Id)
    requires e in s.execs && NodeRight(s, e) && s.pc.Enter? && ReadyIn(s, s.pc.dom, e)
    ensures NodeRight(PickStep(s, e), e)
  {
  }

  lemma PickedOwner(s: Sys, e: Id)
    requires e in s.execs && NodeRight(s, e) && s.pc.Enter? && ReadyIn(s, s.pc.dom, e)
    ensures OwnerRight(PickStep(s, e), e)
  {
    var s' := PickStep(s, e);
    if s'.execs[e].sub.Some? && Sleepy(s', e) {
      var d := s.execs[e].sub.value;
      var m :| m in s.execs && Member(s, d, m);
      assert Member(s', d, m);
      assert !HasReady(s', d) by {
        forall k | k in s'.execs
          ensures !ReadyIn(s', d, k)
        {
          assert !ReadyIn(s, d, k);
        }
      }
    }
  }

  lemma PickedStack(s: Sys, e: Id)
    requires Inv(s) && s.pc.Enter? && ReadyIn(s, s.pc.dom, e)
    ensures StackRight(PickStep(s, e))
  {
    assert NodeRight(s, e);
    EnteredDeeper(s, e);
    PickFacts(s, e);
    hide *;
    PathPush(s.execs, PickStep(s, e).execs, s.stack, e);
  }

  lemma PathPush(execs: map<Id, Exec>, execs': map<Id, Exec>, stack: seq<Id>, e: Id)
    requires Path(execs, stack) && e in execs && e !in stack && execs'.Keys == execs.Keys
    requires forall o | o in execs && o != e :: execs'[o] == execs[o]
    requires execs'[e].dom == execs[e].dom
    requires if stack == [] then execs[e].dom == ROOT else execs[stack[|stack| - 1]].sub == Some(execs[e].dom)
    requires forall i: nat | i < |stack| :: execs[stack[i]].dom < execs[e].dom && !execs[stack[i]].life.asked
    ensures Path(execs', stack + [e])
  {
    var path := stack + [e];
    assert forall i: nat | i < |stack| :: path[i] == stack[i] && execs'[path[i]] == execs[stack[i]];
    assert path[|stack|] == e;
  }

  /** The entered domain is below everything on the stack, and nothing there has asked to sleep. */
  lemma EnteredDeeper(s: Sys, e: Id)
    requires Inv(s) && s.pc.Enter? && ReadyIn(s, s.pc.dom, e)
    ensures e !in s.stack && (s.stack == [] ==> s.execs[e].dom == ROOT)
    ensures s.stack != [] ==> s.execs[Last(s)].sub == Some(s.execs[e].dom)
    ensures forall i: nat | i < |s.stack| :: s.execs[s.stack[i]].dom < s.execs[e].dom && !s.execs[s.stack[i]].life.asked
  {
    hide Tells, OwnerRight, TurnRight;
    assert NodeRight(s, e);
    if s.stack != [] {
      OneOwner(s, Last(s), e);
    }
  }

  /** The only way to go wrong: a coroutine that made a subdomain in this turn also asked for its own
      suspension, or completed. */
  predicate BadEnd(s: Sys) {
    && Ends(s) && s.pc.turn == Some(Last(s)) && s.execs[Last(s)].sub.Some?
    && (s.pc.completed || (s.execs[Last(s)].life.asked && !s.execs[Last(s)].life.token))
  }

  lemma EndKeeps(s: Sys)
    requires Inv(s) && !BadEnd(s)
    ensures Inv(Apply(s, EndInner))
  {
    var s' := Apply(s, EndInner);
    if Ends(s) {
      var e := Last(s);
      assert NodeRight(s, e);
      EndedNodes(s);
      EndedStack(s);
      EndedPc(s);
    }
  }

  lemma EndedNodes(s: Sys)
    requires Inv(s) && Ends(s) && !BadEnd(s)
    ensures forall o | o in s.execs :: NodeRight(EndStep(s), o) && OwnerRight(EndStep(s), o)
  {
    var s' := EndStep(s);
    var e := Last(s);
    assert NodeRight(s, e);
    forall o | o in s.execs
      ensures NodeRight(s', o) && OwnerRight(s', o)
    {
      assert NodeRight(s, o);
      if s.execs[o].sub == Some(s.execs[e].dom) {
        OneOwner(s, o, e);
        OwnerOnStack(s, o);
      } else if s.execs[o].sub.Some? {
        OwnerFrame(s, s', o);
      }
    }
  }

  /** The owner of the innermost domain is the one below on the stack. */
  lemma OwnerOnStack(s: Sys, o: Id)
    requires Inv(s) && s.stack != [] && o in s.execs && s.execs[o].sub == Some(s.execs[Last(s)].dom)
    ensures |s.stack| > 1 && s.stack[|s.stack| - 2] == o && !s.execs[o].life.asked && s.execs[o].life.phase.Running?
  {
    hide Tells, OwnerRight, TurnRight;
    OneOwner(s, o, Last(s));
    var n := |s.stack|;
    assert n > 1;
    assert s.execs[s.stack[n - 1 - 1]].sub == Some(s.execs[s.stack[n - 1]].dom);
    OneOwner(s, s.stack[n - 2], Last(s));
    assert NodeRight(s, o);
  }

  lemma EndedStack(s: Sys)
    requires Inv(s) && Ends(s)
    ensures StackRight(EndStep(s))
  {
  }

  lemma EndedPc(s: Sys)
    requires Inv(s) && Ends(s) && !BadEnd(s)
    ensures PcRight(EndStep(s))
  {
    var s' := EndStep(s);
    var e := Last(s);
    if s.pc.completed && s.pc.turn == Some(e) {
      forall o | o in s'.execs && s'.execs[o].sub == Some(s'.execs[e].dom)
        ensures !s'.execs[o].life.phase.Parked? && !s'.execs[o].life.asked
      {
        OneOwner(s, o, e);
        OwnerOnStack(s, o);
      }
    }
  }

  lemma DetachKeeps(s: Sys)
    requires Inv(s)
    ensures Inv(Apply(s, Detach))
  {
    var s' := Apply(s, Detach);
    if s.pc.Unwind? && s.stack == [] {
      forall o | o in s'.execs
        ensures NodeRight(s', o) && OwnerRight(s', o)
      {
        assert NodeRight(s, o);
        if s.pc.completed {
          var e := s.pc.turn.value;
          assert NodeRight(s, e);
          if s.execs[o].sub != Some(s.execs[e].dom) {
            OwnerFrame(s, s', o);
          }
        } else {
          OwnerFrame(s, s', o);
        }
      }
    }
  }

  /** One execution is awoken.  Only its owner may be left asleep over it. */
  function Woken(s: Sys, e: Id): Sys
    requires e in s.execs
  {
    SetLife(s, e, Awake(s.execs[e].life))
  }

  predicate Gone(s: Sys, e: Id) {
    s.pc.Unwind? && s.pc.completed && s.pc.turn == Some(e) && e !in s.stack
  }

  lemma WokenNode(s: Sys, e: Id, o: Id)
    requires e in s.execs && o in s.execs && NodeRight(s, e) && NodeRight(s, o)
    ensures NodeRight(Woken(s, e), o)
  {
  }

  lemma WokenOwner(s: Sys, e: Id, o: Id)
    requires e in s.execs && o in s.execs && NodeRight(s, e) && (o == e || OwnerRight(s, o))
    requires s.execs[o].sub == Some(s.execs[e].dom) ==> !Sleepy(s, o)
    ensures OwnerRight(Woken(s, e), o)
  {
    var s' := Woken(s, e);
    if o == e || s.execs[o].sub == Some(s.execs[e].dom) {
    } else {
      OwnerFrame(s, s', o);
    }
  }

  lemma WokenPath(s: Sys, e: Id)
    requires e in s.execs && StackRight(s) && PcRight(s) && !Gone(s, e)
    ensures StackRight(Woken(s, e)) && PcRight(Woken(s, e))
  {
    var s' := Woken(s, e);
    if s.pc.Enter? {
      var m :| m in s.execs && ReadyIn(s, s.pc.dom, m);
      assert ReadyIn(s', s.pc.dom, m);
    }
  }

  /** Passing an awake upwards leaves no owner asleep over something ready. */
  lemma {:induction false} WakeUpKeeps(s: Sys, e: Id)
    requires e in s.execs && Shape(s) && !Gone(s, e)
    requires forall o | o in s.execs && o != e :: OwnerRight(s, o)
    ensures Inv(WakeUp(s, e))
    decreases s.execs[e].dom
  {
    hide NodeRight, OwnerRight, StackRight, PcRight, Sleepy, TreeAt;
    var s' := Woken(s, e);
    WokenPath(s, e);
    forall o | o in s.execs
      ensures NodeRight(s', o)
    {
      WokenNode(s, e, o);
    }
    assert Shape(s');
    forall o | o in s.execs && s.execs[o].sub != Some(s.execs[e].dom)
      ensures OwnerRight(s', o)
    {
      WokenOwner(s, e, o);
    }
    var d := s.execs[e].dom;
    if o :| o in s.execs && s.execs[o].sub == Some(d) {
      OwnerFacts(s, o, e);
      forall k | k in s.execs && s.execs[k].sub == Some(d)
        ensures k == o
      {
        OwnerFacts(s, k, e);
      }
      if s'.execs[o].life.state.Suspended? {
        WakeUpKeeps(s', o);
      } else {
        Sleepless(s, o);
        WokenOwner(s, e, o);
      }
    } else {
      Ownerless(s, e);
    }
  }

  lemma Sleepless(s: Sys, o: Id)
    requires o in s.execs && NodeRight(s, o) && !s.execs[o].life.state.Suspended?
    ensures !Sleepy(s, o)
  {
  }

  lemma OwnerFacts(s: Sys, o: Id, e: Id)
    requires Shape(s) && o in s.execs && e in s.execs && s.execs[o].sub == Some(s.execs[e].dom)
    ensures s.execs[e].dom in s.doms && s.doms[s.execs[e].dom].owner == Some(o)
    ensures s.execs[o].dom < s.execs[e].dom && o != e && !Gone(s, o)
  {
    assert NodeRight(s, o) && NodeRight(s, e);
  }

  lemma Ownerless(s: Sys, e: Id)
    requires Shape(s) && e in s.execs && forall o | o in s.execs :: s.execs[o].sub != Some(s.execs[e].dom)
    ensures s.execs[e].dom in s.doms && s.doms[s.execs[e].dom].owner.None?
  {
    assert NodeRight(s, e);
  }

  lemma WakeKeeps(s: Sys, e: Id)
    requires Inv(s)
    ensures Inv(Apply(s, Wake(e)))
  {
    hide NodeRight, OwnerRight, StackRight, PcRight, WakeUp;
    if e in s.execs && !(s.pc.Unwind? && s.pc.completed && s.pc.turn == Some(e)) {
      WakeUpKeeps(s, e);
    }
  }

  /** A bad end parks an owner whose subdomain is empty or has something ready. */
  lemma BadEndIsBad(s: Sys)
    requires Inv(s) && BadEnd(s)
    ensures !ParkedOwnerIsRight(EndStep(s))
  {
    var s' := EndStep(s);
    var e := Last(s);
    assert NodeRight(s, e);
    var d := s.execs[e].sub.value;
    assert s'.execs[e].life.phase.Parked?;
    if !Empty(s', d) {
      var m :| m in s'.execs && Member(s', d, m);
      assert m != e && s'.execs[m] == s.execs[m] && Member(s, d, m);
      assert ReadyIn(s', d, m);
    }
  }

  lemma InvImplies(s: Sys)
    requires Inv(s)
    ensures ParkedOwnerIsRight(s)
  {
    forall o | o in s.execs && s.execs[o].sub.Some? && s.execs[o].life.phase.Parked?
      ensures !Empty(s, s.execs[o].sub.value) && !HasReady(s, s.execs[o].sub.value)
    {
      assert OwnerRight(s, o);
    }
  }

  predicate Bad(s: Sys, ev: Event) {
    ev.EndInner? && BadEnd(s)
  }

  lemma ApplyKeeps(s: Sys, ev: Event)
    requires Inv(s)
    ensures if Bad(s, ev) then !ParkedOwnerIsRight(Apply(s, ev)) else Inv(Apply(s, ev))
  {
    hide Inv, ParkedOwnerIsRight;
    match ev {
      case Spawn(e, token) => SpawnKeeps(s, e, token);
      case Start => StartKeeps(s);
      case Pick(e) => PickKeeps(s, e);
      case RequestSuspend => SuspendKeeps(s);
      case Create(kind) => CreateKeeps(s, kind);
      case Attach(e, token) => AttachKeeps(s, e, token);
      case Finish(completed) => FinishKeeps(s, completed);
      case EndInner => if BadEnd(s) { BadEndIsBad(s); } else { EndKeeps(s); }
      case Detach => DetachKeeps(s);
      case Wake(e) => WakeKeeps(s, e);
    }
  }

  // ---------- Whole runs ----------

  function At(kind: Kind, evs: seq<Event>, i: nat): Sys
    requires i <= |evs|
  {
    Run(Fresh(kind), evs[..i])
  }

  lemma AtStep(kind: Kind, evs: seq<Event>, i: nat)
    requires i < |evs|
    ensures At(kind, evs, i + 1) == Apply(At(kind, evs, i), evs[i])
  {
    assert evs[..i + 1][..i] == evs[..i];
  }

  lemma {:induction false} GoodRun(kind: Kind, evs: seq<Event>, i: nat)
    requires i <= |evs| && forall j: nat | j < i :: !Bad(At(kind, evs, j), evs[j])
    ensures Inv(At(kind, evs, i))
  {
    hide Apply, Inv, Bad;
    if i == 0 {
      assert evs[..0] == [];
      FreshInv(kind);
    } else {
      GoodRun(kind, evs, i - 1);
      ApplyKeeps(At(kind, evs, i - 1), evs[i - 1]);
      AtStep(kind, evs, i - 1);
    }
  }

  lemma FreshInv(kind: Kind)
    ensures Inv(Fresh(kind))
  {
  }

  /** In every run: a parked owner always has a non-empty subdomain with nothing ready in it, if and
      only if no coroutine that made a subdomain in the same turn ended that turn asleep or completed. */
  lemma RunExact(kind: Kind, evs: seq<Event>)
    ensures (forall i: nat | i <= |evs| :: ParkedOwnerIsRight(At(kind, evs, i)))
       <==> (forall i: nat | i < |evs| :: !Bad(At(kind, evs, i), evs[i]))
  {
    hide Apply, Inv, Bad, ParkedOwnerIsRight;
    if i: nat :| i < |evs| && Bad(At(kind, evs, i), evs[i]) {
      FirstBad(kind, evs, i);
    } else {
      forall i: nat | i <= |evs|
        ensures ParkedOwnerIsRight(At(kind, evs, i))
      {
        GoodRun(kind, evs, i);
        InvImplies(At(kind, evs, i));
      }
    }
  }

  lemma {:induction false} FirstBad(kind: Kind, evs: seq<Event>, i: nat)
    requires i < |evs| && Bad(At(kind, evs, i), evs[i])
    ensures exists j: nat :: j <= |evs| && !ParkedOwnerIsRight(At(kind, evs, j))
  {
    hide Apply, Inv, Bad, ParkedOwnerIsRight;
    if j: nat :| j < i && Bad(At(kind, evs, j), evs[j]) {
      FirstBad(kind, evs, j);
    } else {
      GoodRun(kind, evs, i);
      ApplyKeeps(At(kind, evs, i), evs[i]);
      AtStep(kind, evs, i);
    }
  }

  // ---------- Reaching every ready execution ----------

  /** The owners of an execution from the root down, and the execution itself. */
  function Chain(s: Sys, e: Id): seq<Id>
    requires e in s.execs
    decreases s.execs[e].dom
  {
    var d := s.execs[e].dom;
    if d in s.doms && s.doms[d].owner.Some? && s.doms[d].owner.value in s.execs
       && s.execs[s.doms[d].owner.value].dom < d
    then Chain(s, s.doms[d].owner.value) + [e]
    else [e]
  }

  /** One step up: the owner of something that is not parked is not parked either. */
  lemma OwnerAwake(s: Sys, e: Id)
    requires Inv(s) && e in s.execs && !s.execs[e].life.phase.Parked? && s.execs[e].dom != ROOT
    ensures var o := s.doms[s.execs[e].dom].owner.value;
            && o in s.execs && s.execs[o].sub == Some(s.execs[e].dom) && s.execs[o].dom < s.execs[e].dom
            && !s.execs[o].life.phase.Parked? && s.doms[s.execs[e].dom].owner == Some(o)
  {
    assert NodeRight(s, e);
    var d := s.execs[e].dom;
    var o := s.doms[d].owner.value;
    assert NodeRight(s, o) && OwnerRight(s, o);
    if s.execs[e].life.phase.Ready? {
      assert ReadyIn(s, d, e);
    } else {
      var i: nat :| i < |s.stack| && s.stack[i] == e;
      assert s.stack[i - 1] in s.execs && NodeRight(s, s.stack[i - 1]);
    }
  }

  /** Every ready execution has only owners that are not parked, up to the root. */
  lemma {:induction false} ChainAwake(s: Sys, e: Id)
    requires Inv(s) && e in s.execs && !s.execs[e].life.phase.Parked?
    ensures Chain(s, e) != [] && Chain(s, e)[|Chain(s, e)| - 1] == e
    ensures forall o | o in Chain(s, e) :: o in s.execs && !s.execs[o].life.phase.Parked?
    ensures Chain(s, e)[0] in s.execs && s.execs[Chain(s, e)[0]].dom == ROOT
    decreases s.execs[e].dom
  {
    if s.execs[e].dom != ROOT {
      OwnerAwake(s, e);
      ChainAwake(s, s.doms[s.execs[e].dom].owner.value);
    } else {
      assert NodeRight(s, e);
    }
  }

  /** A worker that finds nothing ready in the root domain has nothing ready in any domain: it never
      goes to sleep over a ready execution. */
  lemma SleepsOnlyIdle(s: Sys, e: Id)
    requires Inv(s) && s.pc.Rest? && !HasReady(s, ROOT) && e in s.execs
    ensures s.execs[e].life.phase.Parked?
  {
    if !s.execs[e].life.phase.Parked? {
      ChainAwake(s, e);
      var r := Chain(s, e)[0];
      assert NodeRight(s, r);
      assert ReadyIn(s, ROOT, r);
    }
  }

  /** The events of a descent along a chain. */
  function Descent(chain: seq<Id>): seq<Event> {
    if chain == [] then [Start] else Descent(chain[..|chain| - 1]) + [Pick(chain[|chain| - 1])]
  }

  /** Where a descent that gave out `e` has got to, and what it changed.  An empty subdomain is taken
      away and the pass ends; the owner of a subdomain with nothing ready asks to sleep and the pass
      ends, too. */
  ghost predicate Landed(s: Sys, s': Sys, e: Id)
    requires e in s.execs
  {
    var x := s.execs[e];
    && s'.doms == s.doms && s'.next == s.next && e in s'.execs
    && (x.sub.None? ==> s'.pc.Leaf? && s'.execs[e] == x.(life := Schedule(x.life)))
    && (x.sub.Some? && HasReady(s, x.sub.value) ==>
          s'.pc == Enter(x.sub.value) && s'.execs[e] == x.(life := Schedule(x.life)))
    && (x.sub.Some? && Empty(s, x.sub.value) ==>
          s'.pc == Unwind(None, false) && s'.execs[e] == x.(life := Schedule(x.life), sub := None))
    && (x.sub.Some? && !HasReady(s, x.sub.value) && !Empty(s, x.sub.value) ==>
          s'.pc == Unwind(None, false) && s'.execs[e] == x.(life := Suspend(Schedule(x.life))))
  }

  /** `m` is as in `s`, but for its turn if it is on the stack. */
  predicate Given(s: Sys, s1: Sys, stack: seq<Id>, m: Id)
    requires m in s.execs
  {
    var x := s.execs[m];
    m in s1.execs && s1.execs[m] == if m in stack then x.(life := Schedule(x.life)) else x
  }

  /** Between `s` and `s1` the executions of `stack` were given out and nothing else changed. */
  ghost predicate GivenOut(s: Sys, s1: Sys, stack: seq<Id>) {
    s1.execs.Keys == s.execs.Keys && forall m | m in s.execs :: Given(s, s1, stack, m)
  }

  /** The same of every execution but `e`. */
  ghost predicate OthersGiven(s: Sys, s1: Sys, e: Id) {
    s1.execs.Keys == s.execs.Keys && forall m | m in s.execs && m != e :: Given(s, s1, s1.stack, m)
  }

  /** The worker reaches every ready execution in one pass, if the schedulers give out its owners:
      the descent along the chain of owners ends with the execution on top of the stack. */
  lemma {:induction false} WorkerReaches(s: Sys, e: Id)
    requires Inv(s) && s.pc.Rest? && e in s.execs && s.execs[e].life.phase.Ready?
    ensures var s' := Run(s, Descent(Chain(s, e)));
            && Inv(s') && s'.stack == Chain(s, e) && Landed(s, s', e) && OthersGiven(s, s', e)
    decreases s.execs[e].dom
  {
    if s.execs[e].dom == ROOT {
      ReachesTop(s, e);
    } else {
      OwnerAwake(s, e);
      var o := s.doms[s.execs[e].dom].owner.value;
      OwnerReady(s, o);
      WorkerReaches(s, o);
      ReachesBelow(s, o, e);
    }
  }

  lemma ReachesTop(s: Sys, e: Id)
    requires Inv(s) && s.pc.Rest? && e in s.execs && s.execs[e].life.phase.Ready? && s.execs[e].dom == ROOT
    ensures var s' := Run(s, Descent(Chain(s, e)));
            && Inv(s') && s'.stack == Chain(s, e) && Landed(s, s', e) && OthersGiven(s, s', e)
  {
    assert Chain(s, e) == [e];
    assert Descent([e]) == [Start, Pick(e)] by { assert [e][..0] == []; }
    Two(s, Start, Pick(e));
    hide Run, Descent, Chain, Landed, OthersGiven, Inv, Apply;
    Starts(s, e);
    ApplyKeeps(s, Start);
    PickLands(Apply(s, Start), s, e);
  }

  lemma Starts(s: Sys, e: Id)
    requires Inv(s) && s.pc.Rest? && e in s.execs && s.execs[e].life.phase.Ready? && s.execs[e].dom == ROOT
    ensures Apply(s, Start) == s.(pc := Enter(ROOT)) && s.stack == [] && GivenOut(s, s.(pc := Enter(ROOT)), [])
    ensures !Bad(s, Start)
  {
    assert ReadyIn(s, ROOT, e);
  }

  lemma ReachesBelow(s: Sys, o: Id, e: Id)
    requires Inv(s) && e in s.execs && s.execs[e].life.phase.Ready?
    requires o in s.execs && s.execs[o].sub == Some(s.execs[e].dom) && s.execs[o].dom < s.execs[e].dom
    requires s.execs[e].dom in s.doms && s.doms[s.execs[e].dom].owner == Some(o)
    requires var s1 := Run(s, Descent(Chain(s, o)));
             && Inv(s1) && s1.stack == Chain(s, o) && Landed(s, s1, o) && OthersGiven(s, s1, o)
    ensures var s' := Run(s, Descent(Chain(s, e)));
            && Inv(s') && s'.stack == Chain(s, e) && Landed(s, s', e) && OthersGiven(s, s', e)
  {
    var above := Chain(s, o);
    ChainGrows(s, o, e);
    RunSnoc(s, Descent(above), Pick(e));
    ChainOlder(s, o);
    hide Inv, Run, Descent, Chain, Landed, OthersGiven, Apply;
    var s1 := Run(s, Descent(above));
    EntersBelow(s, s1, o, e);
    PickLands(s1, s, e);
  }

  lemma ChainGrows(s: Sys, o: Id, e: Id)
    requires e in s.execs && o in s.execs && s.execs[o].dom < s.execs[e].dom
    requires s.execs[e].dom in s.doms && s.doms[s.execs[e].dom].owner == Some(o)
    ensures Chain(s, e) == Chain(s, o) + [e] && o in Chain(s, o)
    ensures Descent(Chain(s, e)) == Descent(Chain(s, o)) + [Pick(e)]
  {
    assert Chain(s, o)[|Chain(s, o)| - 1] == o;
    assert (Chain(s, o) + [e])[..|Chain(s, o)|] == Chain(s, o);
  }

  lemma EntersBelow(s: Sys, s1: Sys, o: Id, e: Id)
    requires e in s.execs && s.execs[e].life.phase.Ready? && o in s.execs && s.execs[o].sub == Some(s.execs[e].dom)
    requires Landed(s, s1, o) && OthersGiven(s, s1, o) && o in s1.stack
    ensures s1.pc == Enter(s.execs[e].dom) && s1.doms == s.doms && s1.next == s.next && GivenOut(s, s1, s1.stack)
  {
    assert ReadyIn(s, s.execs[o].sub.value, e);
  }

  /** At rest nothing is running: what is not parked is ready. */
  lemma OwnerReady(s: Sys, o: Id)
    requires Inv(s) && s.pc.Rest? && o in s.execs && !s.execs[o].life.phase.Parked?
    ensures s.execs[o].life.phase.Ready?
  {
    assert NodeRight(s, o);
  }

  lemma RunSnoc(s: Sys, evs: seq<Event>, ev: Event)
    ensures Run(s, evs + [ev]) == Apply(Run(s, evs), ev)
  {
    assert (evs + [ev])[..|evs|] == evs;
  }

  lemma Two(s: Sys, a: Event, b: Event)
    ensures Run(s, [a, b]) == Apply(Apply(s, a), b)
  {
    RunSnoc(s, [], a);
    RunSnoc(s, [a], b);
    assert [a] + [b] == [a, b] && [] + [a] == [a];
  }

  /** The members of a chain live in different domains. */
  lemma {:induction false} ChainOlder(s: Sys, e: Id)
    requires e in s.execs
    ensures forall o | o in Chain(s, e) :: o in s.execs && s.execs[o].dom <= s.execs[e].dom
    decreases s.execs[e].dom
  {
    var d := s.execs[e].dom;
    if d in s.doms && s.doms[d].owner.Some? && s.doms[d].owner.value in s.execs
       && s.execs[s.doms[d].owner.value].dom < d {
      ChainOlder(s, s.doms[d].owner.value);
    }
  }

  /** One level down, when nothing but the chain has been given out since `s`. */
  lemma PickLands(s1: Sys, s: Sys, e: Id)
    requires Inv(s) && Inv(s1) && e in s.execs && s.execs[e].life.phase.Ready?
    requires s1.pc.Enter? && s1.pc.dom == s.execs[e].dom && e !in s1.stack
    requires s1.doms == s.doms && s1.next == s.next && GivenOut(s, s1, s1.stack)
    requires forall m | m in s1.stack :: m in s.execs && s.execs[m].dom <= s.execs[e].dom
    ensures var s' := Apply(s1, Pick(e));
            && Inv(s') && s'.stack == s1.stack + [e] && Landed(s, s', e) && OthersGiven(s, s', e)
  {
    hide Inv, HasReady, Empty, Landed, PickStep;
    SubBelow(s, e);
    PickApplies(s1, s, e);
    ApplyKeeps(s1, Pick(e));
    hide Apply;
    PickedRecord(s1, s, e);
    PickedRest(s1, s, e);
  }

  lemma SubBelow(s: Sys, e: Id)
    requires Inv(s) && e in s.execs
    ensures s.execs[e].sub.Some? ==> s.execs[e].dom < s.execs[e].sub.value
  {
    assert NodeRight(s, e);
  }

  lemma PickApplies(s1: Sys, s: Sys, e: Id)
    requires e in s.execs && s.execs[e].life.phase.Ready? && GivenOut(s, s1, s1.stack)
    requires s1.pc.Enter? && s1.pc.dom == s.execs[e].dom && e !in s1.stack
    ensures e in s1.execs && Apply(s1, Pick(e)) == PickStep(s1, e) && Given(s, s1, [], e)
    ensures !Bad(s1, Pick(e))
  {
    hide PickStep;
    assert Given(s, s1, s1.stack, e);
  }

  lemma PickedRest(s1: Sys, s: Sys, e: Id)
    requires e in s.execs && GivenOut(s, s1, s1.stack)
    ensures var s' := PickStep(s1, e);
            s'.stack == s1.stack + [e] && OthersGiven(s, s', e)
  {
    PickFacts(s1, e);
    hide PickStep;
    forall m | m in s.execs && m != e
      ensures Given(s, PickStep(s1, e), s1.stack + [e], m)
    {
      assert Given(s, s1, s1.stack, m);
    }
  }

  lemma PickedRecord(s1: Sys, s: Sys, e: Id)
    requires e in s.execs && GivenOut(s, s1, s1.stack) && Given(s, s1, [], e)
    requires s1.doms == s.doms && s1.next == s.next
    requires forall m | m in s1.stack :: m in s.execs && s.execs[m].dom <= s.execs[e].dom
    requires s.execs[e].sub.Some? ==> s.execs[e].dom < s.execs[e].sub.value
    ensures Landed(s, PickStep(s1, e), e)
  {
    if s.execs[e].sub.Some? {
      Below(s, s1, s.execs[e].sub.value);
    }
    hide Empty, HasReady;
  }

  /** A descent changes nothing in the domains below it. */
  lemma Below(s: Sys, s1: Sys, d: Dom)
    requires GivenOut(s, s1, s1.stack)
    requires forall m | m in s1.stack :: m in s.execs && s.execs[m].dom < d
    ensures Empty(s1, d) == Empty(s, d) && HasReady(s1, d) == HasReady(s, d)
    ensures !(Empty(s, d) && HasReady(s, d))
  {
    forall m | m in s.execs
      ensures Member(s1, d, m) == Member(s, d, m) && ReadyIn(s1, d, m) == ReadyIn(s, d, m)
    {
      assert m in s1.stack || s1.execs[m] == s.execs[m];
    }
  }

  /** A pass goes down at most as many levels as there are domains. */
  lemma DescentEnds(s: Sys)
    requires Inv(s)
    ensures |s.stack| <= s.next
  {
    hide NodeRight, OwnerRight, PcRight;
    if s.stack != [] {
      Climbs(s, |s.stack| - 1);
      InDomain(s, Last(s));
    }
  }

  lemma InDomain(s: Sys, e: Id)
    requires Inv(s) && e in s.execs
    ensures s.execs[e].dom < s.next
  {
    assert NodeRight(s, e);
  }

  lemma {:induction false} Climbs(s: Sys, i: nat)
    requires StackRight(s) && i < |s.stack|
    ensures s.execs[s.stack[i]].dom >= i
  {
    if i > 0 {
      Climbs(s, i - 1);
    }
  }

  // ---------- The bad end is real ----------

  lemma Steps(s: Sys, a: Event, b: Event, c: Event, d: Event)
    ensures Run(s, [a, b, c, d]) == Apply(Apply(Apply(Apply(s, a), b), c), d)
  {
    hide Apply;
    Two(s, a, b);
    RunSnoc(s, [a, b], c);
    RunSnoc(s, [a, b, c], d);
    assert [a, b] + [c] == [a, b, c] && [a, b, c] + [d] == [a, b, c, d];
  }

  /** The root domain with one execution in its turn, which owns a domain with one new execution. */
  function Young(kind: Kind): Sys {
    Sys(map[1 := Exec(ROOT, Schedule(Born(false)), Some(1)), 2 := Exec(1, Born(false), None)],
        map[ROOT := Domain(kind, None), 1 := Domain(kind, Some(1))], 2, [1], Leaf)
  }

  /** The root domain with one execution that owns nothing. */
  function Single(kind: Kind, life: Life, stack: seq<Id>, pc: PC): Sys {
    Sys(map[1 := Exec(ROOT, life, None)], map[ROOT := Domain(kind, None)], 1, stack, pc)
  }

  lemma EntersRoot(kind: Kind)
    ensures Apply(Apply(Fresh(kind), Spawn(1, false)), Start) == Single(kind, Born(false), [], Enter(ROOT))
  {
    var s := Apply(Fresh(kind), Spawn(1, false));
    assert ReadyIn(s, ROOT, 1);
  }

  lemma PicksFirst(kind: Kind)
    ensures Apply(Single(kind, Born(false), [], Enter(ROOT)), Pick(1)) == Single(kind, Schedule(Born(false)), [1], Leaf)
  {
    hide HasReady, Empty;
    var s, s' := Single(kind, Born(false), [], Enter(ROOT)), Single(kind, Schedule(Born(false)), [1], Leaf);
    assert SetLife(s, 1, Schedule(Born(false))).execs == s'.execs;
  }

  lemma MakesDomain(kind: Kind)
    ensures Apply(Apply(Single(kind, Schedule(Born(false)), [1], Leaf), Create(kind)), Attach(2, false)) == Young(kind)
  {
    hide HasReady, Empty;
    var s := Apply(Single(kind, Schedule(Born(false)), [1], Leaf), Create(kind));
    assert s.execs == map[1 := Exec(ROOT, Schedule(Born(false)), Some(1))];
    assert s.doms == Young(kind).doms;
    assert Apply(s, Attach(2, false)).execs == Young(kind).execs;
  }

  /** It arises when a coroutine makes a subdomain and attaches an execution to it. */
  lemma YoungIsReachable(kind: Kind)
    ensures Run(Fresh(kind), [Spawn(1, false), Start, Pick(1), Create(kind)] + [Attach(2, false)]) == Young(kind)
  {
    hide Apply;
    Steps(Fresh(kind), Spawn(1, false), Start, Pick(1), Create(kind));
    EntersRoot(kind);
    PicksFirst(kind);
    MakesDomain(kind);
    RunSnoc(Fresh(kind), [Spawn(1, false), Start, Pick(1), Create(kind)], Attach(2, false));
  }

  /** If that coroutine then asks to be suspended in the same turn, it is parked, and the ready
      execution in its subdomain is out of reach: the root has nothing ready. */
  lemma SuspendAfterCreate(kind: Kind)
    ensures var s := Run(Young(kind), [RequestSuspend, Finish(false), EndInner, Detach]);
            && s.pc.Rest? && s.execs.Keys == {1, 2} && s.execs[1].life.phase.Parked?
            && s.execs[2].life.phase.Ready? && s.execs[1].sub == Some(s.execs[2].dom) && !HasReady(s, ROOT)
  {
    var s := Young(kind);
    Steps(s, RequestSuspend, Finish(false), EndInner, Detach);
    var s1 := Apply(s, RequestSuspend);
    assert s1 == SetLife(s, 1, Suspend(Schedule(Born(false))));
    var s2 := Apply(s1, Finish(false));
    assert s2 == s1.(pc := Unwind(Some(1), false));
    var s3 := Apply(s2, EndInner);
    assert s3.execs[1].life.phase.Parked? && s3.execs[2] == s.execs[2] && s3.stack == [];
  }
}
