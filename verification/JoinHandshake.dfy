/** How a joined coroutine wakes its joiner.

    Any number of completion paths race: a returned value, an unhandled exception, the final suspend
    and cancellations.  One joiner awaits the coroutine: it publishes an awake token, marks it as
    awaited, and asks its scheduler to be suspended.  Every atomic load, store and compare-exchange and
    every scheduler call is one event, and unrelated awakes may reach the joiner at any time.
 */
module JoinHandshake {
  import opened AgentCount
  import opened Park
  import opened Wrappers

  datatype Completion = NotCompleted | Waiting | Completed

  datatype How = Return | Throw | Final | Cancel

  /** A completion path. */
  datatype PC =
    | Load(how: How)
    | Cas(how: How, e: Completion)
    | Lost
    | Note(how: How)           // it has won: now it stores the value or the exception
    | Release(how: How)
    | LoadToken(how: How)
    | AwakeCaller(how: How)
    | Finished(how: How, woke: bool)

  /** The joiner. */
  datatype JoinPC =
    | Ask                      // await_ready
    | Publish
    | LoadState
    | CasState(e: Completion)
    | RequestSuspend
    | EndTurn
    | Away                     // the turn is over
    | Resumed

  /** Who decided the outcome and how: a value, an exception, the cancellation, or nothing to store. */
  datatype Outcome = Outcome(winner: nat, how: How)

  /** `sem` is the semaphore of a blocking awaiter, `released` counts its releases; `outcome` says who
      stored the value or the exception. */
  datatype Sys = Sys(cstate: Completion, token: bool, sem: nat, released: nat, outcome: Option<Outcome>,
                     pcs: map<nat, PC>, join: JoinPC, life: Life)

  datatype Event =
    | Begin(c: nat, how: How)
    | Step(c: nat)
    | Join
    | Awaken                   // somebody else awakes the joiner
    | Acquire                  // a blocking awaiter takes the semaphore

  /** The joiner is in its turn; an old awake may have left a token. */
  function Fresh(stale: bool): Sys {
    Sys(NotCompleted, false, 0, 0, None, map[], Ask, Life(Running, stale, false, InTurn))
  }

  predicate Won(pc: PC) {
    pc.Note? || pc.Release? || pc.LoadToken? || pc.AwakeCaller? || pc.Finished?
  }

  predicate PastRelease(pc: PC) {
    pc.LoadToken? || pc.AwakeCaller? || pc.Finished?
  }

  function Goto(s: Sys, c: nat, pc: PC): Sys {
    s.(pcs := s.pcs[c := pc])
  }

  function StepCompleter(s: Sys, c: nat): Sys
    requires c in s.pcs
  {
    match s.pcs[c]
    case Load(how) => if s.cstate.Completed? then Goto(s, c, Lost) else Goto(s, c, Cas(how, s.cstate))
    case Cas(how, e) => if s.cstate == e then Goto(s, c, Note(how)).(cstate := Completed) else Goto(s, c, Load(how))
    case Note(how) => Goto(s, c, Release(how)).(outcome := Some(Outcome(c, how)))
    case Release(how) => Goto(s, c, LoadToken(how)).(sem := s.sem + 1, released := s.released + 1)
    case LoadToken(how) => if s.token then Goto(s, c, AwakeCaller(how)) else Goto(s, c, Finished(how, false))
    case AwakeCaller(how) => Goto(s, c, Finished(how, true)).(life := Awake(s.life))
    case Lost => s
    case Finished(_, _) => s
  }

  function StepJoiner(s: Sys, kind: Kind): Sys {
    match s.join
    case Ask => if s.cstate.Completed? then s.(join := Resumed) else s.(join := Publish)
    case Publish => s.(token := true, join := LoadState)
    case LoadState => if s.cstate.Completed? then s.(join := EndTurn) else s.(join := CasState(s.cstate))
    case CasState(e) => if s.cstate == e then s.(cstate := Waiting, join := RequestSuspend) else s.(join := LoadState)
    case RequestSuspend => s.(life := Suspend(s.life), join := EndTurn)
    case EndTurn => s.(life := End(kind, s.life, false), join := Away)
    case Away => if s.life.phase.Ready? then s.(life := Schedule(s.life), join := Resumed) else s
    case Resumed => s
  }

  function Apply(s: Sys, kind: Kind, ev: Event): Sys {
    match ev
    case Begin(c, how) => if c !in s.pcs then Goto(s, c, Load(how)) else s
    case Step(c) => if c in s.pcs then StepCompleter(s, c) else s
    case Join => StepJoiner(s, kind)
    case Awaken => s.(life := Awake(s.life))
    case Acquire => if s.sem > 0 then s.(sem := s.sem - 1) else s
  }

  function Run(s: Sys, kind: Kind, evs: seq<Event>): Sys
    decreases |evs|
  {
    if evs == [] then s else Apply(Run(s, kind, evs[..|evs| - 1]), kind, evs[|evs| - 1])
  }

  // ---------- The invariant ----------

  /** The joiner marked the coroutine as awaited, so it is about to sleep, asleep, or awake again. */
  predicate Committed(s: Sys) {
    s.join.RequestSuspend? || (s.join.EndTurn? && s.life.asked) || (s.join.Away? && s.life.phase.Parked?)
  }

  predicate JoinerOk(s: Sys) {
    match s.join
    case Away => !s.life.phase.Running? && !s.life.asked
    case EndTurn => s.life.phase.Running? && s.token && (s.life.asked ==> s.cstate != NotCompleted)
    case Resumed => s.life.phase.Running?
    case RequestSuspend => s.life.phase.Running? && !s.life.asked && s.token && s.cstate != NotCompleted
    case Publish => s.life.phase.Running? && !s.life.asked
    case Ask => s.life.phase.Running? && !s.life.asked
    case LoadState => s.life.phase.Running? && !s.life.asked && s.token
    case CasState(e) => s.life.phase.Running? && !s.life.asked && s.token && !e.Completed?
  }

  /** Nothing the joiner still does leaves it asleep. */
  predicate WillNotSleep(s: Sys) {
    match s.join
    case RequestSuspend => s.life.token
    case EndTurn => s.life.token || !s.life.asked
    case Away => s.life.phase.Ready?
    case _ => true
  }

  predicate PcOk(s: Sys, c: nat)
    requires c in s.pcs
  {
    match s.pcs[c]
    case Lost => s.cstate.Completed?
    case Cas(_, e) => !e.Completed?
    case Note(_) => s.outcome.None?
    case Release(how) => s.outcome == Some(Outcome(c, how))
    case LoadToken(how) => s.outcome == Some(Outcome(c, how))
    case AwakeCaller(how) => s.outcome == Some(Outcome(c, how))
    // The winner found no token only if the joiner had not published it, and then it cannot commit.
    case Finished(how, woke) => s.outcome == Some(Outcome(c, how)) && if woke then WillNotSleep(s) else !Committed(s)
    case Load(_) => true
  }

  ghost predicate Inv(s: Sys) {
    && Count(s.pcs, Won) == Ind(s.cstate.Completed?)
    && s.released == Count(s.pcs, PastRelease) && s.sem <= s.released
    && (s.outcome.Some? ==> s.outcome.value.winner in s.pcs && Won(s.pcs[s.outcome.value.winner]))
    && (forall c | c in s.pcs :: PcOk(s, c))
    && JoinerOk(s)
    && (Committed(s) ==> s.token && s.cstate != NotCompleted)
  }

  lemma FreshInv(stale: bool)
    ensures Inv(Fresh(stale))
  {
    assert Where(Fresh(stale).pcs, Won) == {} && Where(Fresh(stale).pcs, PastRelease) == {};
  }

  lemma StepKeeps(s: Sys, c: nat)
    requires Inv(s) && c in s.pcs
    ensures Inv(StepCompleter(s, c))
  {
    var s' := StepCompleter(s, c);
    var pc := s'.pcs[c];
    CountMove(s.pcs, Won, c, pc);
    CountMove(s.pcs, PastRelease, c, pc);
    if s.outcome.Some? {
      CountWitness(s.pcs, Won, s.outcome.value.winner);
    }
    if Won(s.pcs[c]) {
      CountWitness(s.pcs, Won, c);
    }
    forall d | d in s'.pcs
      ensures PcOk(s', d)
    {
      assert PcOk(s, d) && PcOk(s, c);
      if d != c && Won(s.pcs[d]) {
        CountWitness(s.pcs, Won, d);
        if Won(s.pcs[c]) {
          CountTwo(s.pcs, Won, c, d);
        }
      }
      StepPc(s, c, d);
    }
    StepJoinerOk(s, c);
  }

  lemma StepPc(s: Sys, c: nat, d: nat)
    requires c in s.pcs && d in s.pcs && PcOk(s, c) && PcOk(s, d) && JoinerOk(s)
    requires Won(s.pcs[c]) || Won(s.pcs[d]) ==> s.cstate.Completed?
    requires Won(s.pcs[c]) && Won(s.pcs[d]) ==> c == d
    requires s.outcome.Some? ==> s.cstate.Completed?
    requires Committed(s) ==> s.token
    ensures PcOk(StepCompleter(s, c), d)
  {
  }

  lemma StepJoinerOk(s: Sys, c: nat)
    requires c in s.pcs && JoinerOk(s) && (Committed(s) ==> s.token && s.cstate != NotCompleted) && PcOk(s, c)
    ensures var s' := StepCompleter(s, c);
            JoinerOk(s') && (Committed(s') ==> s'.token && s'.cstate != NotCompleted)
  {
  }

  lemma BeginKeeps(s: Sys, c: nat, how: How)
    requires Inv(s) && c !in s.pcs
    ensures Inv(Goto(s, c, Load(how)))
  {
    var s' := Goto(s, c, Load(how));
    CountJoin(s.pcs, Won, c, Load(how));
    CountJoin(s.pcs, PastRelease, c, Load(how));
    forall d | d in s'.pcs
      ensures PcOk(s', d)
    {
      assert d != c ==> PcOk(s, d);
    }
  }

  lemma JoinKeeps(s: Sys, kind: Kind)
    requires Inv(s)
    ensures Inv(StepJoiner(s, kind))
  {
    var s' := StepJoiner(s, kind);
    forall d | d in s.pcs
      ensures PcOk(s', d)
    {
      assert PcOk(s, d);
      if Won(s.pcs[d]) {
        CountWitness(s.pcs, Won, d);
      }
      JoinPc(s, kind, d);
    }
    JoinerStepOk(s, kind);
    hide StepJoiner, JoinerOk, Committed, PcOk;
    assert s'.pcs == s.pcs && s'.released == s.released && s'.sem == s.sem && s'.outcome == s.outcome
        && s'.cstate.Completed? == s.cstate.Completed? by { JoinerLeaves(s, kind); }
  }

  lemma JoinerLeaves(s: Sys, kind: Kind)
    requires JoinerOk(s)
    ensures var s' := StepJoiner(s, kind);
            && s'.pcs == s.pcs && s'.released == s.released && s'.sem == s.sem && s'.outcome == s.outcome
            && s'.cstate.Completed? == s.cstate.Completed?
  {
  }

  lemma JoinPc(s: Sys, kind: Kind, d: nat)
    requires d in s.pcs && PcOk(s, d) && JoinerOk(s) && (Won(s.pcs[d]) ==> s.cstate.Completed?)
    requires Committed(s) ==> s.token
    ensures PcOk(StepJoiner(s, kind), d)
  {
  }

  lemma JoinerStepOk(s: Sys, kind: Kind)
    requires JoinerOk(s) && (Committed(s) ==> s.token && s.cstate != NotCompleted)
    ensures var s' := StepJoiner(s, kind);
            JoinerOk(s') && (Committed(s') ==> s'.token && s'.cstate != NotCompleted)
  {
  }

  lemma AwakenKeeps(s: Sys)
    requires Inv(s)
    ensures Inv(s.(life := Awake(s.life)))
  {
    var s' := s.(life := Awake(s.life));
    forall d | d in s.pcs
      ensures PcOk(s', d)
    {
      assert PcOk(s, d);
    }
  }

  lemma AcquireKeeps(s: Sys)
    requires Inv(s) && s.sem > 0
    ensures Inv(s.(sem := s.sem - 1))
  {
    var s' := s.(sem := s.sem - 1);
    forall d | d in s.pcs
      ensures PcOk(s', d)
    {
      assert PcOk(s, d);
    }
  }

  lemma ApplyKeeps(s: Sys, kind: Kind, ev: Event)
    requires Inv(s)
    ensures Inv(Apply(s, kind, ev))
  {
    hide Inv;
    match ev {
      case Begin(c, how) => if c !in s.pcs { BeginKeeps(s, c, how); }
      case Step(c) => if c in s.pcs { StepKeeps(s, c); }
      case Join => JoinKeeps(s, kind);
      case Awaken => AwakenKeeps(s);
      case Acquire => if s.sem > 0 { AcquireKeeps(s); }
    }
  }

  lemma {:induction false} RunKeeps(stale: bool, kind: Kind, evs: seq<Event>)
    ensures Inv(Run(Fresh(stale), kind, evs))
    decreases |evs|
  {
    hide Inv, Apply;
    if evs == [] {
      FreshInv(stale);
    } else {
      RunKeeps(stale, kind, evs[..|evs| - 1]);
      ApplyKeeps(Run(Fresh(stale), kind, evs[..|evs| - 1]), kind, evs[|evs| - 1]);
    }
  }

  // ---------- What it means ----------

  /** Exactly one completion path wins: there are never two, and as soon as one has ended, there is one.
      It alone stores the outcome, and the semaphore is released at most once, and by it. */
  lemma OneWinner(stale: bool, kind: Kind, evs: seq<Event>, c: nat, d: nat)
    ensures var s := Run(Fresh(stale), kind, evs);
            && (c in s.pcs && d in s.pcs && Won(s.pcs[c]) && Won(s.pcs[d]) ==> c == d)
            && (c in s.pcs && (s.pcs[c].Lost? || s.pcs[c].Finished?) ==> Count(s.pcs, Won) == 1)
            && (s.outcome.Some? ==> s.outcome.value.winner in s.pcs && Won(s.pcs[s.outcome.value.winner]))
            && (c in s.pcs && PastRelease(s.pcs[c]) ==> s.outcome == Some(Outcome(c, s.pcs[c].how)))
            && s.sem <= s.released <= 1
            && (c in s.pcs && PastRelease(s.pcs[c]) ==> s.released == 1)
  {
    var s := Run(Fresh(stale), kind, evs);
    RunKeeps(stale, kind, evs);
    if c in s.pcs {
      assert PcOk(s, c);
      if Won(s.pcs[c]) {
        CountWitness(s.pcs, Won, c);
        if d in s.pcs && Won(s.pcs[d]) && c != d {
          CountTwo(s.pcs, Won, c, d);
        }
      }
      if PastRelease(s.pcs[c]) {
        CountWitness(s.pcs, PastRelease, c);
      }
    }
    ReleasersWon(s);
  }

  lemma ReleasersWon(s: Sys)
    ensures Count(s.pcs, PastRelease) <= Count(s.pcs, Won)
  {
    var all, some := Where(s.pcs, Won), Where(s.pcs, PastRelease);
    assert some <= all;
    assert all == some + (all - some);
  }

  /** Once stored, the outcome stays: nobody overwrites the value or the exception. */
  lemma OutcomeStays(stale: bool, kind: Kind, evs: seq<Event>, ev: Event)
    requires Run(Fresh(stale), kind, evs).outcome.Some?
    ensures Run(Fresh(stale), kind, evs + [ev]).outcome == Run(Fresh(stale), kind, evs).outcome
  {
    assert (evs + [ev])[..|evs|] == evs;
    RunKeeps(stale, kind, evs);
    var s := Run(Fresh(stale), kind, evs);
    if ev.Step? && ev.c in s.pcs {
      assert PcOk(s, ev.c);
    }
  }

  /** The joiner is never left asleep: once the winner has finished, the joiner is not parked, whatever
      else happens. */
  lemma NeverLeftAsleep(stale: bool, kind: Kind, evs: seq<Event>, c: nat)
    ensures var s := Run(Fresh(stale), kind, evs);
            c in s.pcs && s.pcs[c].Finished? ==> !(s.join.Away? && s.life.phase.Parked?)
  {
    RunKeeps(stale, kind, evs);
    var s := Run(Fresh(stale), kind, evs);
    if c in s.pcs {
      assert PcOk(s, c);
    }
  }

  function Left(pc: PC): nat {
    match pc
    case Note(_) => 4
    case Release(_) => 3
    case LoadToken(_) => 2
    case AwakeCaller(_) => 1
    case _ => 0
  }

  function Steps(s: Sys, c: nat, n: nat): Sys
    requires c in s.pcs
    decreases n
  {
    if n == 0 then s else Steps(StepCompleter(s, c), c, n - 1)
  }

  /** The winner always gets there: at most four of its own steps after its compare-exchange nobody is
      asleep any more, and nobody can hold it up. */
  lemma {:induction false} WinnerFinishes(s: Sys, c: nat) returns (n: nat)
    requires Inv(s) && c in s.pcs && Won(s.pcs[c])
    ensures n <= Left(s.pcs[c]) <= 4
    ensures var s' := Steps(s, c, n);
            c in s'.pcs && s'.pcs[c].Finished? && !(s'.join.Away? && s'.life.phase.Parked?)
    decreases Left(s.pcs[c])
  {
    hide Inv;
    if s.pcs[c].Finished? {
      n := 0;
      FinishedOk(s, c);
    } else {
      StepKeeps(s, c);
      n := WinnerFinishes(StepCompleter(s, c), c);
      n := n + 1;
    }
  }

  lemma FinishedOk(s: Sys, c: nat)
    requires Inv(s) && c in s.pcs && s.pcs[c].Finished?
    ensures !(s.join.Away? && s.life.phase.Parked?)
  {
    assert PcOk(s, c);
  }

  // ---------- Not too early, and at last ----------

  /** Before the coroutine has completed nothing awakes the joiner. */
  predicate Asleep(s: Sys) {
    !s.cstate.Completed? ==>
      && !s.life.token && !s.join.Resumed?
      && (s.join.EndTurn? ==> s.life.asked) && (s.join.Away? ==> s.life.phase.Parked?)
  }

  lemma AwakersHaveWon(s: Sys, c: nat)
    requires Inv(s) && c in s.pcs && s.pcs[c].AwakeCaller?
    ensures s.cstate.Completed?
  {
    CountWitness(s.pcs, Won, c);
  }

  lemma AsleepKeeps(s: Sys, kind: Kind, ev: Event)
    requires Inv(s) && Asleep(s) && ev != Awaken
    ensures Asleep(Apply(s, kind, ev))
  {
    if ev.Step? && ev.c in s.pcs && s.pcs[ev.c].AwakeCaller? {
      AwakersHaveWon(s, ev.c);
    }
  }

  lemma {:induction false} AsleepRun(kind: Kind, evs: seq<Event>)
    requires Awaken !in evs
    ensures Asleep(Run(Fresh(false), kind, evs))
    decreases |evs|
  {
    hide Inv, Apply, Asleep;
    if evs == [] {
      FreshAsleep();
    } else {
      var head := evs[..|evs| - 1];
      assert evs == head + [evs[|evs| - 1]];
      AsleepRun(kind, head);
      RunKeeps(false, kind, head);
      AsleepKeeps(Run(Fresh(false), kind, head), kind, evs[|evs| - 1]);
    }
  }

  lemma FreshAsleep()
    ensures Asleep(Fresh(false))
  {
  }

  /** The joiner is not resumed too early: if it is, and the coroutine has not completed, somebody else
      has awoken it, or it started with a stale token. */
  lemma ResumedMeansCompleted(stale: bool, kind: Kind, evs: seq<Event>)
    ensures var s := Run(Fresh(stale), kind, evs);
            s.join.Resumed? ==> s.cstate.Completed? || stale || Awaken in evs
  {
    if !stale && Awaken !in evs {
      AsleepRun(kind, evs);
    }
  }

  function Joins(s: Sys, kind: Kind, n: nat): Sys
    decreases n
  {
    if n == 0 then s else Joins(StepJoiner(s, kind), kind, n - 1)
  }

  /** How many steps of the joiner are left when the winner has finished. */
  function Rest(s: Sys): nat {
    match s.join
    case Publish => 4
    case CasState(_) => 4
    case LoadState => 3
    case RequestSuspend => 3
    case EndTurn => 2
    case Ask => 1
    case Away => 1
    case Resumed => 0
  }

  /** What holds of the joiner from then on: it will not sleep. */
  predicate Woken(s: Sys) {
    && s.cstate.Completed? && JoinerOk(s)
    && (s.join.RequestSuspend? ==> s.life.token) && (s.join.EndTurn? ==> s.life.token || !s.life.asked)
    && (s.join.Away? ==> s.life.phase.Ready?)
  }

  lemma WokenStep(s: Sys, kind: Kind)
    requires Woken(s) && !s.join.Resumed?
    ensures var s' := StepJoiner(s, kind); Woken(s') && Rest(s') == Rest(s) - 1
  {
  }

  lemma {:induction false} WokenJoins(s: Sys, kind: Kind)
    requires Woken(s)
    ensures Joins(s, kind, Rest(s)).join.Resumed?
    decreases Rest(s)
  {
    hide Woken, StepJoiner;
    if !s.join.Resumed? {
      WokenStep(s, kind);
      WokenJoins(StepJoiner(s, kind), kind);
    }
  }

  /** Once the winner has finished, at most four steps of the joiner resume it. */
  lemma JoinerResumes(stale: bool, kind: Kind, evs: seq<Event>, c: nat)
    requires c in Run(Fresh(stale), kind, evs).pcs && Run(Fresh(stale), kind, evs).pcs[c].Finished?
    ensures var s := Run(Fresh(stale), kind, evs);
            Rest(s) <= 4 && Joins(s, kind, Rest(s)).join.Resumed?
  {
    var s := Run(Fresh(stale), kind, evs);
    RunKeeps(stale, kind, evs);
    FinishedWakes(s, c);
    WokenJoins(s, kind);
  }

  lemma FinishedWakes(s: Sys, c: nat)
    requires Inv(s) && c in s.pcs && s.pcs[c].Finished?
    ensures Woken(s)
  {
    CountWitness(s.pcs, Won, c);
    assert PcOk(s, c);
  }

  /** A completion path that nobody disturbs wins with two steps, and stores its outcome with the third. */
  lemma LoneWins(s: Sys, c: nat, how: How)
    requires c in s.pcs && s.pcs[c] == Load(how) && !s.cstate.Completed?
    ensures var s' := Steps(s, c, 2); s'.cstate.Completed? && c in s'.pcs && s'.pcs[c] == Note(how)
    ensures Steps(s, c, 3).outcome == Some(Outcome(c, how))
  {
    var s1 := StepCompleter(s, c);
    var s2 := StepCompleter(s1, c);
    assert Steps(s, c, 2) == Steps(s1, c, 1) == s2;
    assert Steps(s, c, 3) == Steps(s1, c, 2) == Steps(s2, c, 1) == StepCompleter(s2, c);
  }
}
