/** Whole passes of the worker over an owner whose subdomain has nothing to run: an empty subdomain
    is taken away, so that the next pass resumes the owner, and otherwise the owner goes to sleep. */
module WorkerPasses {
  import Park
  import opened NestedDomains
  import opened Wrappers

  /** The turns of the `n` innermost executions end. */
  function Ended(n: nat): seq<Event> {
    if n == 0 then [] else Ended(n - 1) + [EndInner]
  }

  /** The schedulers give out a chain of owners, all turns end, and the worker is back at rest. */
  function Pass(chain: seq<Id>): seq<Event> {
    Descent(chain) + Ended(|chain|) + [Detach]
  }

  lemma {:induction false} RunAppend(s: Sys, a: seq<Event>, b: seq<Event>)
    ensures Run(s, a + b) == Run(Run(s, a), b)
  {
    if b == [] {
      assert a + b == a;
    } else {
      assert (a + b)[..|a + b| - 1] == a + b[..|b| - 1];
      RunAppend(s, a, b[..|b| - 1]);
    }
  }

  /** The execution that was resumed and has completed. */
  predicate Completes(s: Sys, m: Id) {
    s.pc.Unwind? && s.pc.completed && s.pc.turn == Some(m)
  }

  /** What the end of its turn leaves of `m`, if it is one of the `k` innermost executions. */
  ghost predicate TurnOver(s: Sys, s': Sys, k: nat, m: Id)
    requires m in s.execs && k <= |s.stack|
  {
    var x := s.execs[m];
    m in s'.execs && s'.execs[m] ==
      if m in s.stack[|s.stack| - k..] && x.dom in s.doms
      then x.(life := Park.End(s.doms[x.dom].kind, x.life, Completes(s, m))) else x
  }

  lemma {:induction false} Unwinds(s: Sys, k: nat)
    requires Inv(s) && s.pc.Unwind? && !BadEnd(s) && k <= |s.stack|
    ensures var s' := Run(s, Ended(k));
            && Inv(s') && s' == s.(execs := s'.execs, stack := s.stack[..|s.stack| - k])
            && s'.execs.Keys == s.execs.Keys && forall m | m in s.execs :: TurnOver(s, s', k, m)
  {
    hide Inv, Apply;
    if k == 0 {
      assert s.stack[..|s.stack|] == s.stack;
    } else {
      Unwinds(s, k - 1);
      OneEnds(s, Run(s, Ended(k - 1)), k);
      RunSnoc(s, Ended(k - 1), EndInner);
    }
  }

  lemma OneEnds(s: Sys, s1: Sys, k: nat)
    requires Inv(s) && Inv(s1) && !BadEnd(s) && 0 < k <= |s.stack|
    requires s1 == s.(execs := s1.execs, stack := s.stack[..|s.stack| - (k - 1)]) && s.pc.Unwind?
    requires s1.execs.Keys == s.execs.Keys && forall m | m in s.execs :: TurnOver(s, s1, k - 1, m)
    ensures var s' := Apply(s1, EndInner);
            && Inv(s') && s' == s.(execs := s'.execs, stack := s.stack[..|s.stack| - k])
            && s'.execs.Keys == s.execs.Keys && forall m | m in s.execs :: TurnOver(s, s', k, m)
  {
    hide Inv, TurnOver, EndStep, BadEnd;
    LastEnds(s1);
    TopIsNew(s, k);
    StillNotBad(s, s1, k);
    ApplyKeeps(s1, EndInner);
    OneEnded(s, s1, k);
  }

  /** Only the innermost turn can be the resumed one. */
  lemma StillNotBad(s: Sys, s1: Sys, k: nat)
    requires Inv(s) && !BadEnd(s) && 0 < k <= |s.stack| && s.pc.Unwind?
    requires s.stack[|s.stack| - k] !in s.stack[|s.stack| - (k - 1)..]
    requires s1 == s.(execs := s1.execs, stack := s.stack[..|s.stack| - (k - 1)])
    requires s1.execs.Keys == s.execs.Keys && forall m | m in s.execs :: TurnOver(s, s1, k - 1, m)
    ensures !BadEnd(s1)
  {
    hide NodeRight, OwnerRight, StackRight;
    var e := s.stack[|s.stack| - k];
    assert Last(s1) == e && e in s.stack;
    assert k > 1 ==> Last(s) in s.stack[|s.stack| - (k - 1)..];
    assert s.pc.turn == Some(e) ==> e == Last(s);
    if k == 1 {
      OnStack(s, |s.stack| - 1);
      assert TurnOver(s, s1, 0, e);
    }
  }

  lemma OnStack(s: Sys, i: nat)
    requires Inv(s) && i < |s.stack|
    ensures s.stack[i] in s.execs && s.execs[s.stack[i]].dom in s.doms
  {
    assert NodeRight(s, s.stack[i]);
  }

  lemma OneEnded(s: Sys, s1: Sys, k: nat)
    requires 0 < k <= |s.stack| && s.stack[|s.stack| - k] !in s.stack[|s.stack| - (k - 1)..]
    requires s1 == s.(execs := s1.execs, stack := s.stack[..|s.stack| - (k - 1)])
    requires Ends(s1) && s.pc.Unwind?
    requires s1.execs.Keys == s.execs.Keys && forall m | m in s.execs :: TurnOver(s, s1, k - 1, m)
    ensures var s' := EndStep(s1);
            && s' == s.(execs := s'.execs, stack := s.stack[..|s.stack| - k])
            && s'.execs.Keys == s.execs.Keys && forall m | m in s.execs :: TurnOver(s, s', k, m)
  {
    assert Last(s1) == s.stack[|s.stack| - k];
    assert s.stack[|s.stack| - k..] == [Last(s1)] + s.stack[|s.stack| - (k - 1)..];
    forall m | m in s.execs
      ensures TurnOver(s, EndStep(s1), k, m)
    {
      assert TurnOver(s, s1, k - 1, m);
    }
  }

  lemma LastEnds(s: Sys)
    requires Inv(s) && s.pc.Unwind? && s.stack != []
    ensures Ends(s)
  {
    assert NodeRight(s, Last(s));
  }

  /** An execution is on the stack only once. */
  lemma TopIsNew(s: Sys, k: nat)
    requires Inv(s) && 0 < k <= |s.stack|
    ensures s.stack[|s.stack| - k] !in s.stack[|s.stack| - (k - 1)..]
  {
    hide NodeRight, OwnerRight, PcRight;
    var i: nat := |s.stack| - k;
    forall j: nat | i < j < |s.stack|
      ensures s.stack[j] != s.stack[i]
    {
      assert s.execs[s.stack[i]].dom < s.execs[s.stack[j]].dom;
    }
  }

  /** A turn without a request leaves an execution as it was. */
  lemma NothingAsked(s: Sys, m: Id)
    requires Inv(s) && m in s.execs && s.execs[m].life.phase.Ready?
    ensures s.execs[m].dom in s.doms
    ensures forall kind :: Park.End(kind, Park.Schedule(s.execs[m].life), false) == s.execs[m].life
  {
    assert NodeRight(s, m);
  }

  /** The owner after its turn: an idle subdomain has put it to sleep, unless a token was waiting. */
  function Asleep(x: Park.Life): Park.Life {
    if x.token then x.(token := false) else Park.Life(Park.Parked, false, false, Park.Suspended)
  }

  function AfterPass(s: Sys, e: Id): Exec
    requires e in s.execs && s.execs[e].sub.Some?
  {
    var x := s.execs[e];
    if Empty(s, x.sub.value) then x.(sub := None) else x.(life := Asleep(x.life))
  }

  lemma OwnerPassed(s: Sys, s1: Sys, s2: Sys, k: nat, e: Id)
    requires Inv(s) && e in s.execs && s.execs[e].life.phase.Ready?
    requires s.execs[e].sub.Some? && !HasReady(s, s.execs[e].sub.value)
    requires Landed(s, s1, e) && k == |s1.stack| && e in s1.stack && TurnOver(s1, s2, k, e)
    requires s1.pc == Unwind(None, false)
    ensures e in s2.execs && s2.execs[e] == AfterPass(s, e)
  {
    NothingAsked(s, e);
    assert NodeRight(s, e);
    assert s1.stack[|s1.stack| - k..] == s1.stack;
    hide HasReady, Empty, Inv, NodeRight;
  }

  lemma OtherPassed(s: Sys, s1: Sys, s2: Sys, k: nat, m: Id)
    requires Inv(s) && m in s.execs && Given(s, s1, s1.stack, m) && s1.doms == s.doms
    requires m in s1.stack ==> s.execs[m].life.phase.Ready? && s1.pc == Unwind(None, false)
    requires k == |s1.stack| && TurnOver(s1, s2, k, m)
    ensures m in s2.execs && s2.execs[m] == s.execs[m]
  {
    assert s1.stack[|s1.stack| - k..] == s1.stack;
    if m in s1.stack {
      NothingAsked(s, m);
    }
  }

  /** At rest the owners of a ready execution are ready, too. */
  lemma ChainReady(s: Sys, e: Id)
    requires Inv(s) && s.pc.Rest? && e in s.execs && s.execs[e].life.phase.Ready?
    ensures e in Chain(s, e)
    ensures forall m | m in Chain(s, e) :: m in s.execs && s.execs[m].life.phase.Ready?
  {
    ChainAwake(s, e);
    forall m | m in Chain(s, e)
      ensures s.execs[m].life.phase.Ready?
    {
      OwnerReady(s, m);
    }
  }

  /** A pass that gives out an owner with nothing ready below it changes this owner and nothing else. */
  lemma PassChangesOwner(s: Sys, e: Id)
    requires Inv(s) && s.pc.Rest? && e in s.execs && s.execs[e].life.phase.Ready?
    requires s.execs[e].sub.Some? && !HasReady(s, s.execs[e].sub.value)
    ensures Inv(Run(s, Pass(Chain(s, e))))
    ensures Run(s, Pass(Chain(s, e))) == s.(execs := s.execs[e := AfterPass(s, e)])
  {
    var chain := Chain(s, e);
    var s1, s2 := Run(s, Descent(chain)), Run(s, Descent(chain) + Ended(|chain|));
    PassedTurns(s, e);
    RunSnoc(s, Descent(chain) + Ended(|chain|), Detach);
    ApplyKeeps(s2, Detach);
    hide Inv, HasReady, Empty, Descent, Ended, Chain, Run, AfterPass;
  }

  lemma PassedTurns(s: Sys, e: Id)
    requires Inv(s) && s.pc.Rest? && e in s.execs && s.execs[e].life.phase.Ready?
    requires s.execs[e].sub.Some? && !HasReady(s, s.execs[e].sub.value)
    ensures var s' := Run(s, Descent(Chain(s, e)) + Ended(|Chain(s, e)|));
            Inv(s') && s' == s.(execs := s.execs[e := AfterPass(s, e)], pc := Unwind(None, false))
  {
    var chain := Chain(s, e);
    var s1 := Run(s, Descent(chain));
    WorkerReaches(s, e);
    Ending(s, s1, e);
    ChainReady(s, e);
    RestsEmpty(s);
    Unwinds(s1, |chain|);
    RunAppend(s, Descent(chain), Ended(|chain|));
    hide Inv, HasReady, Empty, Landed, Given, TurnOver, Descent, Ended, Chain, Run, AfterPass;
    AllPassed(s, s1, Run(s1, Ended(|chain|)), e);
  }

  lemma AllPassed(s: Sys, s1: Sys, s2: Sys, e: Id)
    requires Inv(s) && e in s.execs && s.execs[e].life.phase.Ready?
    requires s.execs[e].sub.Some? && !HasReady(s, s.execs[e].sub.value)
    requires Landed(s, s1, e) && OthersGiven(s, s1, e) && e in s1.stack && s2.execs.Keys == s.execs.Keys
    requires s1.pc == Unwind(None, false)
    requires forall m | m in s1.stack :: m in s.execs && s.execs[m].life.phase.Ready?
    requires forall m | m in s.execs :: TurnOver(s1, s2, |s1.stack|, m)
    ensures s2.execs == s.execs[e := AfterPass(s, e)]
  {
    OwnerPassed(s, s1, s2, |s1.stack|, e);
    assert s1.doms == s.doms;
    hide Inv, HasReady, Empty, Landed, Given, TurnOver, AfterPass;
    forall m | m in s.execs && m != e
      ensures s2.execs[m] == s.execs[m]
    {
      OtherPassed(s, s1, s2, |s1.stack|, m);
    }
  }

  lemma RestsEmpty(s: Sys)
    requires Inv(s) && s.pc.Rest?
    ensures s.stack == []
  {
  }

  lemma Ending(s: Sys, s1: Sys, e: Id)
    requires e in s.execs && s.execs[e].sub.Some? && !HasReady(s, s.execs[e].sub.value) && Landed(s, s1, e)
    ensures s1.pc == Unwind(None, false) && s1.doms == s.doms && s1.next == s.next
  {
  }

  /** The owners of an execution depend on the tree alone. */
  lemma {:induction false} SameChain(s: Sys, s': Sys, e: Id)
    requires e in s.execs && s'.doms == s.doms && s'.execs.Keys == s.execs.Keys
    requires forall m | m in s.execs :: s'.execs[m].dom == s.execs[m].dom
    ensures Chain(s', e) == Chain(s, e)
    decreases s.execs[e].dom
  {
    var d := s.execs[e].dom;
    if d in s.doms && s.doms[d].owner.Some? && s.doms[d].owner.value in s.execs
       && s.execs[s.doms[d].owner.value].dom < d {
      SameChain(s, s', s.doms[d].owner.value);
    }
  }

  /** An owner whose subdomain has become empty runs again: the first pass takes the subdomain away
      and leaves everything else as it was, and the second one resumes the owner. */
  lemma EmptyThenResumed(s: Sys, e: Id)
    requires Inv(s) && s.pc.Rest? && e in s.execs && s.execs[e].life.phase.Ready?
    requires s.execs[e].sub.Some? && Empty(s, s.execs[e].sub.value)
    ensures Run(s, Pass(Chain(s, e))) == s.(execs := s.execs[e := s.execs[e].(sub := None)])
    ensures var s' := Run(s, Pass(Chain(s, e)) + Descent(Chain(s, e)));
            s'.pc.Leaf? && s'.stack == Chain(s, e) && Last(s') == e
  {
    var chain := Chain(s, e);
    assert !HasReady(s, s.execs[e].sub.value);
    PassChangesOwner(s, e);
    var s1 := Run(s, Pass(chain));
    SameChain(s, s1, e);
    RunAppend(s, Pass(chain), Descent(chain));
    ChainAwake(s, e);
    WorkerReaches(s1, e);
  }

  /** An owner whose subdomain has members and nothing ready sleeps after one pass, or has used up the
      token of an awake that came before. */
  lemma IdleOwnerSleeps(s: Sys, e: Id)
    requires Inv(s) && s.pc.Rest? && e in s.execs && s.execs[e].life.phase.Ready?
    requires s.execs[e].sub.Some? && !Empty(s, s.execs[e].sub.value) && !HasReady(s, s.execs[e].sub.value)
    ensures var s' := Run(s, Pass(Chain(s, e)));
            && e in s'.execs && s' == SetLife(s, e, s'.execs[e].life)
            && (s'.execs[e].life.phase.Parked? <==> !s.execs[e].life.token)
            && !s'.execs[e].life.token
  {
    PassChangesOwner(s, e);
  }

  // ---------- The turn of a resumed execution ----------

  /** The coroutine returns, all turns end, and the worker is back at rest. */
  function Return(s: Sys, completed: bool): seq<Event> {
    [Finish(completed)] + Ended(|s.stack|) + [Detach]
  }

  /** Where the end of its turn leaves an execution. */
  function PhaseAfter(x: Park.Life, completed: bool): Park.Phase {
    if completed || (x.asked && !x.token) then Park.Parked else Park.Ready
  }

  /** A turn that ends well: a completed execution is forgotten, one that has asked for it and has no
      token sleeps, and any other is ready again.  Nothing else changes but the turns of its owners,
      which are ready again, too. */
  lemma TurnEnds(s: Sys, completed: bool)
    requires Inv(s) && s.pc.Leaf? && !BadEnd(s.(pc := Unwind(Some(Last(s)), completed)))
    ensures var s', e := Run(s, Return(s, completed)), Last(s);
            && Inv(s') && s'.pc.Rest? && e in s.execs
            && s'.execs.Keys == (if completed then s.execs.Keys - {e} else s.execs.Keys)
            && (!completed ==> s'.execs[e].life.phase == PhaseAfter(s.execs[e].life, false))
            && (forall m | m in s.execs && m !in s.stack :: m in s'.execs && s'.execs[m] == s.execs[m])
            && (forall m | m in s.stack && m != e :: m in s'.execs && s'.execs[m].life.phase.Ready?)
  {
    hide Inv, Ended, Run, BadEnd, PhaseAfter, Apply;
    var evs := [Finish(completed)] + Ended(|s.stack|);
    Finishes(s, completed);
    TurnsOver(s, completed);
    RunSnoc(s, evs, Detach);
    Detaches(Run(s, evs), Last(s), completed);
  }

  lemma Detaches(s: Sys, e: Id, completed: bool)
    requires Inv(s) && s.pc == Unwind(Some(e), completed) && s.stack == []
    ensures Inv(Apply(s, Detach))
    ensures Apply(s, Detach) == s.(execs := if completed then s.execs - {e} else s.execs, pc := Rest)
  {
    ApplyKeeps(s, Detach);
  }

  /** All turns are over, and nobody is forgotten yet. */
  lemma TurnsOver(s: Sys, completed: bool)
    requires Inv(s) && s.pc.Leaf? && !BadEnd(s.(pc := Unwind(Some(Last(s)), completed)))
    ensures var s', e := Run(s, [Finish(completed)] + Ended(|s.stack|)), Last(s);
            && Inv(s') && s'.pc == Unwind(Some(e), completed) && s'.stack == [] && e in s.execs
            && s'.execs.Keys == s.execs.Keys
            && s'.execs[e].life.phase == PhaseAfter(s.execs[e].life, completed)
            && (forall m | m in s.execs && m !in s.stack :: s'.execs[m] == s.execs[m])
            && (forall m | m in s.stack && m != e :: m in s.execs && s'.execs[m].life.phase.Ready?)
  {
    var e := Last(s);
    var s1 := s.(pc := Unwind(Some(e), completed));
    var s2 := Run(s, [Finish(completed)] + Ended(|s.stack|));
    Returned(s, completed);
    hide Inv, TurnOver, Ended, Run, BadEnd, PhaseAfter;
    forall m | m in s.execs
      ensures m in s2.execs && (m !in s.stack ==> s2.execs[m] == s.execs[m])
      ensures m in s.stack ==> s2.execs[m].life.phase == PhaseAfter(s.execs[m].life, completed && m == e)
      ensures m in s.stack && m != e ==> s2.execs[m].life.phase.Ready?
    {
      TurnOf(s, s1, s2, e, m);
    }
    assert e in s.stack;
  }

  lemma Returned(s: Sys, completed: bool)
    requires Inv(s) && s.pc.Leaf? && !BadEnd(s.(pc := Unwind(Some(Last(s)), completed)))
    ensures s.stack != [] && (forall m | m in s.stack :: m in s.execs)
    ensures var s1, s2 := s.(pc := Unwind(Some(Last(s)), completed)), Run(s, [Finish(completed)] + Ended(|s.stack|));
            && Inv(s2) && s2 == s1.(execs := s2.execs, stack := [])
            && s2.execs.Keys == s.execs.Keys && forall m | m in s.execs :: TurnOver(s1, s2, |s.stack|, m)
  {
    Finishes(s, completed);
    hide Inv, TurnOver, Ended, Run, BadEnd, Apply;
    RunSnoc(s, [], Finish(completed));
    assert [] + [Finish(completed)] == [Finish(completed)];
    Unwinds(Apply(s, Finish(completed)), |s.stack|);
    RunAppend(s, [Finish(completed)], Ended(|s.stack|));
  }

  lemma Finishes(s: Sys, completed: bool)
    requires Inv(s) && s.pc.Leaf?
    ensures s.stack != [] && (forall m | m in s.stack :: m in s.execs) && Run(s, []) == s
    ensures Apply(s, Finish(completed)) == s.(pc := Unwind(Some(Last(s)), completed))
    ensures Inv(Apply(s, Finish(completed)))
  {
    ApplyKeeps(s, Finish(completed));
  }

  lemma TurnOf(s: Sys, s1: Sys, s2: Sys, e: Id, m: Id)
    requires Inv(s) && s.pc.Leaf? && s.stack != [] && e == Last(s) && m in s.execs && s1.pc.Unwind?
    requires s1 == s.(pc := Unwind(Some(e), s1.pc.completed)) && TurnOver(s1, s2, |s.stack|, m)
    ensures m in s2.execs && (m !in s.stack ==> s2.execs[m] == s.execs[m])
    ensures m in s.stack ==> s2.execs[m].life.phase == PhaseAfter(s.execs[m].life, s1.pc.completed && m == e)
    ensures m in s.stack && m != e ==> s2.execs[m].life.phase.Ready?
  {
    assert s1.stack[|s1.stack| - |s.stack|..] == s.stack;
    if m in s.stack {
      var i: nat :| i < |s.stack| && s.stack[i] == m;
      OnStack(s, i);
      OnlyTopAsked(s, i);
    }
    hide Inv;
  }

  lemma OnlyTopAsked(s: Sys, i: nat)
    requires Inv(s) && i < |s.stack|
    ensures s.stack[i] in s.execs && (s.stack[i] != Last(s) ==> !s.execs[s.stack[i]].life.asked)
  {
    hide NodeRight, OwnerRight, PcRight;
  }

  // ---------- Awakes ----------

  /** An awake is passed on to older domains only. */
  lemma {:induction false} WakesOlder(s: Sys, e: Id, m: Id)
    requires e in s.execs && m in s.execs && m != e && s.execs[m].dom >= s.execs[e].dom
    ensures m in WakeUp(s, e).execs && WakeUp(s, e).execs[m] == s.execs[m]
    decreases s.execs[e].dom
  {
    var d := s.execs[e].dom;
    var s' := SetLife(s, e, Park.Awake(s.execs[e].life));
    if d in s.doms && s.doms[d].owner.Some? {
      var o := s.doms[d].owner.value;
      if o in s'.execs && s'.execs[o].dom < d && s'.execs[o].life.state.Suspended? {
        WakesOlder(s', o, m);
      }
    }
  }

  lemma WakesItself(s: Sys, e: Id)
    requires e in s.execs
    ensures e in WakeUp(s, e).execs && WakeUp(s, e).execs[e].life == Park.Awake(s.execs[e].life)
  {
    var d := s.execs[e].dom;
    var s' := SetLife(s, e, Park.Awake(s.execs[e].life));
    if d in s.doms && s.doms[d].owner.Some? {
      var o := s.doms[d].owner.value;
      if o in s'.execs && s'.execs[o].dom < d && s'.execs[o].life.state.Suspended? {
        WakesOlder(s', o, e);
      }
    }
  }

  /** An awake makes a parked execution ready and leaves a token with any other one.  None of its owners,
      up to the root, is parked afterwards, so that from rest the worker reaches it. */
  lemma WakeReaches(s: Sys, e: Id)
    requires Inv(s) && e in s.execs && !Completes(s, e)
    ensures var s' := Apply(s, Wake(e));
            && Inv(s') && e in s'.execs
            && (s.execs[e].life.phase.Parked? ==> s'.execs[e].life.phase.Ready?)
            && (!s.execs[e].life.phase.Parked? ==> s'.execs[e].life.token)
            && (forall o | o in Chain(s', e) :: o in s'.execs && !s'.execs[o].life.phase.Parked?)
  {
    hide Inv, WakeUp, Chain;
    WakesItself(s, e);
    WakeKeeps(s, e);
    ChainAwake(Apply(s, Wake(e)), e);
  }
}
