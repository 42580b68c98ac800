/** Parking and waking one execution, as both schedulers do it.

    An execution asks to be suspended while it runs and is parked when its turn ends.  An awake that
    arrives before it is parked leaves a token, and the token cancels a suspension: a wake-up is
    never lost.  The schedulers differ only in when a used token goes away.
 */
module Park {

  datatype Kind = DynPrio | Cycle

  datatype Phase = Ready | Running | Parked

  /** The state that the execution domain keeps beside the scheduler. */
  datatype State = Active | InTurn | Suspended

  /** `token`: an awake came early; `asked`: a suspend request of this turn stands. */
  datatype Life = Life(phase: Phase, token: bool, asked: bool, state: State)

  /** A new execution.  Its token may be stale: detaching does not take a token back, and a new
      execution can get the address of an old one. */
  function Born(token: bool): Life {
    Life(Ready, token, false, Active)
  }

  function Schedule(x: Life): Life {
    x.(phase := Running, state := InTurn)
  }

  function Suspend(x: Life): Life {
    if x.token then x.(token := false) else x.(asked := true, state := Suspended)
  }

  function Awake(x: Life): Life {
    if x.phase.Parked? then x.(phase := Ready, state := Active) else x.(token := true)
  }

  /** The end of a turn.  A completed execution is parked, too, before it is detached. */
  function End(kind: Kind, x: Life, completed: bool): Life {
    var token := if kind.DynPrio? && x.asked then false else x.token;
    if (x.asked && !x.token) || completed then Life(Parked, token, false, Suspended)
    else Life(Ready, token, false, Active)
  }

  // ---------- Histories ----------

  datatype Op = DoSchedule | DoSuspend | DoAwake | DoEnd | DoComplete

  predicate Enabled(x: Life, op: Op) {
    match op
    case DoSchedule => x.phase.Ready?
    case DoSuspend => x.phase.Running?
    case DoAwake => true
    case DoEnd => x.phase.Running?
    case DoComplete => x.phase.Running?
  }

  function Do(kind: Kind, x: Life, op: Op): Life {
    match op
    case DoSchedule => Schedule(x)
    case DoSuspend => Suspend(x)
    case DoAwake => Awake(x)
    case DoEnd => End(kind, x, false)
    case DoComplete => End(kind, x, true)
  }

  function Run(kind: Kind, x: Life, ops: seq<Op>): Life
    decreases |ops|
  {
    if ops == [] then x else Do(kind, Run(kind, x, ops[..|ops| - 1]), ops[|ops| - 1])
  }

  ghost predicate Legal(kind: Kind, x: Life, ops: seq<Op>) {
    forall i | 0 <= i < |ops| :: Enabled(Run(kind, x, ops[..i]), ops[i])
  }

  /** There is a suspend request and no awake has arrived since the last one. */
  ghost predicate Quiet(ops: seq<Op>) {
    exists i :: 0 <= i < |ops| && ops[i] == DoSuspend && forall j | i < j < |ops| :: ops[j] != DoAwake
  }

  lemma QuietExtends(ops: seq<Op>, op: Op)
    requires op == DoSuspend || (Quiet(ops) && op != DoAwake)
    ensures Quiet(ops + [op])
  {
    var all := ops + [op];
    if op == DoSuspend {
      assert all[|ops|] == DoSuspend;
    } else {
      var i :| 0 <= i < |ops| && ops[i] == DoSuspend && forall j | i < j < |ops| :: ops[j] != DoAwake;
      assert all[i] == DoSuspend && forall j | i < j < |all| :: all[j] != DoAwake;
    }
  }

  /** What a life tells about its history. */
  predicate Tells(x: Life, quiet: bool, completed: bool) {
    && (x.phase.Parked? ==> (quiet || completed) && x.state.Suspended?)
    && (x.phase.Running? && x.asked && !x.token ==> quiet)
    && (x.asked ==> x.phase.Running? && x.state.Suspended?)
    && (x.phase.Ready? ==> x.state.Active?)
  }

  lemma TellsStep(kind: Kind, x: Life, op: Op, quiet: bool, completed: bool, quiet': bool, completed': bool)
    requires Tells(x, quiet, completed) && Enabled(x, op)
    requires op == DoSuspend || (quiet && op != DoAwake) ==> quiet'
    requires completed || op == DoComplete ==> completed'
    ensures Tells(Do(kind, x, op), quiet', completed')
  {
  }

  lemma RunStep(kind: Kind, x: Life, ops: seq<Op>, op: Op)
    ensures Run(kind, x, ops + [op]) == Do(kind, Run(kind, x, ops), op)
  {
    assert (ops + [op])[..|ops|] == ops;
  }

  lemma LegalStep(kind: Kind, x: Life, ops: seq<Op>, op: Op)
    ensures Legal(kind, x, ops + [op]) <==> Legal(kind, x, ops) && Enabled(Run(kind, x, ops), op)
  {
    var all := ops + [op];
    assert forall i | 0 <= i <= |ops| :: all[..i] == ops[..i];
    assert all[|ops|] == op && ops[..|ops|] == ops;
    if Legal(kind, x, all) {
      forall i | 0 <= i < |ops|
        ensures Enabled(Run(kind, x, ops[..i]), ops[i])
      {
        assert Enabled(Run(kind, x, all[..i]), all[i]);
      }
    }
  }

  /** No wake-up is lost: whatever happens to an execution, it is parked only if no awake has arrived
      since its last suspend request, or because it has completed. */
  lemma {:induction false} ParkedIsQuiet(kind: Kind, token: bool, ops: seq<Op>)
    requires Legal(kind, Born(token), ops)
    ensures Tells(Run(kind, Born(token), ops), Quiet(ops), DoComplete in ops)
    decreases |ops|
  {
    hide Do, Enabled, Quiet, Legal;
    if ops != [] {
      var head, op := ops[..|ops| - 1], ops[|ops| - 1];
      assert ops == head + [op];
      LegalStep(kind, Born(token), head, op);
      RunStep(kind, Born(token), head, op);
      ParkedIsQuiet(kind, token, head);
      if op == DoSuspend || (Quiet(head) && op != DoAwake) {
        QuietExtends(head, op);
      }
      TellsStep(kind, Run(kind, Born(token), head), op, Quiet(head), DoComplete in head, Quiet(ops), DoComplete in ops);
    }
  }

  // ---------- The story of an execution ----------

  /** Everything that happened to an attached execution. */
  datatype Story = Story(token: bool, ops: seq<Op>)

  /** The execution has lived as told. */
  ghost predicate Lived(kind: Kind, x: Life, s: Story) {
    && Legal(kind, Born(s.token), s.ops)
    && x == Run(kind, Born(s.token), s.ops)
  }

  function Told(s: Story, op: Op): Story {
    s.(ops := s.ops + [op])
  }

  lemma LivesOn(kind: Kind, x: Life, s: Story, op: Op)
    requires Lived(kind, x, s) && Enabled(x, op)
    ensures Lived(kind, Do(kind, x, op), Told(s, op))
  {
    LegalStep(kind, Born(s.token), s.ops, op);
    RunStep(kind, Born(s.token), s.ops, op);
  }

  lemma NewStory(kind: Kind, token: bool)
    ensures Lived(kind, Born(token), Story(token, []))
  {
  }

  // ---------- When one turn parks ----------

  /** A turn with one suspend request, and `before` and `after` awakes around it. */
  function OneRequest(before: nat, after: nat): seq<Op> {
    [DoSchedule] + seq(before, _ => DoAwake) + [DoSuspend] + seq(after, _ => DoAwake) + [DoEnd]
  }

  function Awakes(x: Life, n: nat): Life {
    if n == 0 || x.phase.Parked? then x else x.(token := true)
  }

  lemma RunSplit(kind: Kind, x: Life, a: seq<Op>, b: seq<Op>)
    ensures Run(kind, x, a + b) == Run(kind, Run(kind, x, a), b)
    decreases |b|
  {
    if b == [] {
      assert a + b == a;
    } else {
      var c := b[..|b| - 1];
      assert (a + b)[..|a + b| - 1] == a + c;
      RunSplit(kind, x, a, c);
    }
  }

  lemma {:induction false} RunAwakes(kind: Kind, x: Life, n: nat)
    requires x.phase.Running?
    ensures Run(kind, x, seq(n, _ => DoAwake)) == Awakes(x, n)
  {
    if n > 0 {
      RunAwakes(kind, x, n - 1);
      assert seq(n, _ => DoAwake)[..n - 1] == seq(n - 1, _ => DoAwake);
    }
  }

  /** A turn with one suspend request parks the execution if and only if no awake is pending from
      before the turn and none arrives during it, before or after the request. */
  lemma OneRequestParks(kind: Kind, x: Life, before: nat, after: nat)
    requires x.phase.Ready? && !x.asked
    ensures var y := Run(kind, x, OneRequest(before, after));
            if !x.token && before == 0 && after == 0 then y.phase.Parked? else y.phase.Ready?
  {
    var early, late := seq(before, _ => DoAwake), seq(after, _ => DoAwake);
    var x1 := Schedule(x);
    var x2 := Awakes(x1, before);
    var x3 := Suspend(x2);
    var x4 := Awakes(x3, after);
    RunAwakes(kind, x1, before);
    RunAwakes(kind, x3, after);
    RunSplit(kind, x, [DoSchedule], early);
    RunSplit(kind, x, [DoSchedule] + early, [DoSuspend]);
    RunSplit(kind, x, [DoSchedule] + early + [DoSuspend], late);
    RunSplit(kind, x, [DoSchedule] + early + [DoSuspend] + late, [DoEnd]);
    One(kind, x, DoSchedule);
    One(kind, x2, DoSuspend);
    One(kind, x4, DoEnd);
  }

  lemma One(kind: Kind, x: Life, op: Op)
    ensures Run(kind, x, [op]) == Do(kind, x, op)
  {
    assert [op][..0] == [];
  }

  /** With two suspend requests in one turn the guarantee is only about the last one: the second
      request takes the token of an awake that answered the first, and the execution is parked. */
  lemma SecondRequestTakesToken(kind: Kind)
    ensures var ops := [DoSchedule, DoSuspend, DoAwake, DoSuspend, DoEnd];
            Legal(kind, Born(false), ops) && Run(kind, Born(false), ops).phase.Parked?
  {
    var ops := [DoSchedule, DoSuspend, DoAwake, DoSuspend, DoEnd];
    assert ops[..0] == [] && ops[..1] == [DoSchedule] && ops[..2] == [DoSchedule, DoSuspend]
        && ops[..3] == [DoSchedule, DoSuspend, DoAwake] && ops[..4] == [DoSchedule, DoSuspend, DoAwake, DoSuspend];
    assert forall i | 0 <= i < 4 :: ops[..i + 1][..i] == ops[..i];
    var x0 := Run(kind, Born(false), []);
    var x1 := Run(kind, Born(false), ops[..1]);
    assert x1 == Schedule(Born(false));
    var x2 := Run(kind, Born(false), ops[..2]);
    assert x2 == Suspend(x1);
    var x3 := Run(kind, Born(false), ops[..3]);
    assert x3 == Awake(x2);
    var x4 := Run(kind, Born(false), ops[..4]);
    assert x4 == Suspend(x3);
    assert Run(kind, Born(false), ops) == End(kind, x4, false);
  }

  // ---------- An early awake is kept ----------

  /** What is left of an awake that found the execution in state `x`, not parked: it answers the request
      of that turn, if there was one, and else it waits for the next request.  Under the cycle scheduler
      it does both. */
  predicate StillPending(kind: Kind, x: Life, ended: bool) {
    kind.Cycle? || !x.asked || !ended
  }

  lemma {:induction false} Kept(kind: Kind, x: Life, more: seq<Op>)
    requires !x.phase.Parked? && DoSuspend !in more && DoComplete !in more
    ensures var y := Run(kind, Awake(x), more);
            && !y.phase.Parked? && (y.asked <==> x.asked && DoEnd !in more)
            && (StillPending(kind, x, DoEnd in more) ==> y.token)
            && (y.token ==> StillPending(kind, x, DoEnd in more) || DoAwake in more)
    decreases |more|
  {
    if more != [] {
      var head := more[..|more| - 1];
      assert more == head + [more[|more| - 1]];
      Kept(kind, x, head);
    }
  }

  /** In every history: an awake that finds the execution not parked, and is followed by no request and no
      completion, never lets it be parked.  Until the turn it came in has ended its token is there; after
      that it is there if and only if it did not answer a request of that turn, or the scheduler keeps
      used tokens. */
  lemma AwakeIsKept(kind: Kind, token: bool, ops: seq<Op>, more: seq<Op>)
    requires Legal(kind, Born(token), ops + [DoAwake] + more)
    requires !Run(kind, Born(token), ops).phase.Parked? && DoSuspend !in more && DoComplete !in more
    ensures var x, y := Run(kind, Born(token), ops), Run(kind, Born(token), ops + [DoAwake] + more);
            && !y.phase.Parked?
            && (StillPending(kind, x, DoEnd in more) ==> y.token)
            && (DoAwake !in more ==> (y.token <==> StillPending(kind, x, DoEnd in more)))
  {
    RunStep(kind, Born(token), ops, DoAwake);
    RunSplit(kind, Born(token), ops + [DoAwake], more);
    Kept(kind, Run(kind, Born(token), ops), more);
  }

  /** And then the next turn with one request ends ready; with no other awake, exactly then. */
  lemma NextRequestIsAnswered(kind: Kind, token: bool, ops: seq<Op>, more: seq<Op>, before: nat, after: nat)
    requires Legal(kind, Born(token), ops + [DoAwake] + more)
    requires !Run(kind, Born(token), ops).phase.Parked? && DoSuspend !in more && DoComplete !in more
    requires Run(kind, Born(token), ops + [DoAwake] + more).phase.Ready?
    ensures var pending := StillPending(kind, Run(kind, Born(token), ops), DoEnd in more);
            var y := Run(kind, Born(token), ops + [DoAwake] + more + OneRequest(before, after));
            && (pending || before > 0 || after > 0 ==> y.phase.Ready?)
            && (!pending && before == 0 && after == 0 && DoAwake !in more ==> y.phase.Parked?)
  {
    var all := ops + [DoAwake] + more;
    AwakeIsKept(kind, token, ops, more);
    ParkedIsQuiet(kind, token, all);
    OneRequestParks(kind, Run(kind, Born(token), all), before, after);
    RunSplit(kind, Born(token), all, OneRequest(before, after));
  }

  /** The other case is real: under the dynamic-priority scheduler an awake that answers the request of
      its turn is used up, and the next turn with one request parks. */
  lemma AnsweringIsOnce()
    ensures var ops := [DoSchedule, DoSuspend] + [DoAwake] + [DoEnd];
            && Run(Kind.DynPrio, Born(false), ops).phase.Ready?
            && Run(Kind.DynPrio, Born(false), ops + OneRequest(0, 0)).phase.Parked?
  {
    var k, x := Kind.DynPrio, Born(false);
    var ops := [DoSchedule, DoSuspend] + [DoAwake] + [DoEnd];
    One(k, x, DoSchedule);
    RunStep(k, x, [DoSchedule], DoSuspend);
    assert [DoSchedule] + [DoSuspend] == [DoSchedule, DoSuspend];
    RunStep(k, x, [DoSchedule, DoSuspend], DoAwake);
    RunStep(k, x, [DoSchedule, DoSuspend] + [DoAwake], DoEnd);
    RunSplit(k, x, ops, OneRequest(0, 0));
    OneRequestParks(k, Run(k, x, ops), 0, 0);
  }
}
