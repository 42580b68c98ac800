/** The counting semaphore: one atomic counter, changed by compare-exchange only.

    Every load and every compare-exchange of every agent is one event.  Waiting is left to the events:
    an acquirer that finds no permit loads again later.
 */
module Semaphore {

  type Positive = n: nat | n > 0 witness 1

  datatype PC =
    | Idle
    | TryLoad | TryCas(seen: Positive)             // try_acquire
    | Load | Cas(seen: Positive)                   // acquire
    | AddLoad(n: nat) | AddCas(n: nat, count: nat) // release(n)

  /** `taken` and `given` add up what successful calls took and gave. */
  datatype Sem = Sem(max: nat, count: nat, initial: nat, taken: nat, given: nat, pcs: map<nat, PC>)

  datatype Event = TryAcquire(t: nat) | Acquire(t: nat) | Release(t: nat, n: nat) | Step(t: nat)

  function Min(a: nat, b: nat): nat {
    if a < b then a else b
  }

  function Fresh(max: nat, count: nat): Sem {
    Sem(max, Min(max, count), Min(max, count), 0, 0, map[])
  }

  function At(s: Sem, t: nat): PC {
    if t in s.pcs then s.pcs[t] else Idle
  }

  function Goto(s: Sem, t: nat, pc: PC): Sem {
    s.(pcs := s.pcs[t := pc])
  }

  /** What a release of `n` adds when it sees `e` permits: it never goes over the maximum, and `e`
      never does. */
  function Diff(s: Sem, n: nat, e: nat): nat {
    if e <= s.max then Min(n, s.max - e) else 0
  }

  function StepOf(s: Sem, t: nat, pc: PC): Sem {
    match pc
    case Idle => s
    case TryLoad => if s.count == 0 then Goto(s, t, Idle) else Goto(s, t, TryCas(s.count))
    case TryCas(e) =>
      if s.count == e then Goto(s, t, Idle).(count := e - 1, taken := s.taken + 1) else Goto(s, t, TryLoad)
    case Load => if s.count == 0 then s else Goto(s, t, Cas(s.count))
    case Cas(e) =>
      if s.count == e then Goto(s, t, Idle).(count := e - 1, taken := s.taken + 1) else Goto(s, t, Load)
    case AddLoad(n) => Goto(s, t, AddCas(n, s.count))
    case AddCas(n, e) =>
      if s.count == e then
        Goto(s, t, Idle).(count := e + Diff(s, n, e), given := s.given + Diff(s, n, e))
      else Goto(s, t, AddLoad(n))
  }

  function Apply(s: Sem, ev: Event): Sem {
    match ev
    case TryAcquire(t) => if At(s, t).Idle? then Goto(s, t, TryLoad) else s
    case Acquire(t) => if At(s, t).Idle? then Goto(s, t, Load) else s
    case Release(t, n) => if At(s, t).Idle? then Goto(s, t, AddLoad(n)) else s
    case Step(t) => StepOf(s, t, At(s, t))
  }

  function Run(s: Sem, evs: seq<Event>): Sem
    decreases |evs|
  {
    if evs == [] then s else Apply(Run(s, evs[..|evs| - 1]), evs[|evs| - 1])
  }

  predicate Conserved(s: Sem) {
    s.count <= s.max && s.count + s.taken == s.initial + s.given
  }

  lemma ApplyKeeps(s: Sem, ev: Event)
    requires Conserved(s)
    ensures Conserved(Apply(s, ev))
    ensures var s' := Apply(s, ev);
            s'.max == s.max && s'.initial == s.initial && s'.taken >= s.taken && s'.given >= s.given
  {
  }

  /** In every interleaving no permit is lost or made up, and there are never more than the maximum. */
  lemma {:induction false} PermitsConserved(max: nat, count: nat, evs: seq<Event>)
    ensures var s := Run(Fresh(max, count), evs);
            && s.max == max && s.initial == Min(max, count) && s.count <= max
            && s.count + s.taken == Min(max, count) + s.given
    decreases |evs|
  {
    hide Apply;
    if evs != [] {
      PermitsConserved(max, count, evs[..|evs| - 1]);
      ApplyKeeps(Run(Fresh(max, count), evs[..|evs| - 1]), evs[|evs| - 1]);
    }
  }

  /** A release gives exactly what fits, and what it reports is what the counter gained. */
  lemma ReleaseGives(max: nat, count: nat, evs: seq<Event>, t: nat)
    ensures var s := Run(Fresh(max, count), evs);
            At(s, t).AddCas? && s.count == At(s, t).count ==>
              var s' := Apply(s, Step(t));
              s'.count == Min(max, s.count + At(s, t).n) && s'.given == s.given + (s'.count - s.count)
  {
    PermitsConserved(max, count, evs);
  }

  /** A release that nobody disturbs adds what fits, whatever the interleaving before it. */
  lemma ReleaseAlone(max: nat, count: nat, evs: seq<Event>, t: nat, n: nat)
    ensures var s := Run(Fresh(max, count), evs);
            At(s, t).Idle? ==>
              var s' := Apply(Apply(Apply(s, Release(t, n)), Step(t)), Step(t));
              && At(s', t).Idle? && s'.count == Min(max, s.count + n) && s'.taken == s.taken
              && s'.given == s.given + (s'.count - s.count)
  {
    PermitsConserved(max, count, evs);
  }

  /** A `try_acquire` that nobody disturbs takes a permit if there is one, and refuses otherwise.  An
      `acquire` takes one, too, or waits. */
  lemma AcquireAlone(s: Sem, t: nat)
    requires At(s, t).Idle?
    ensures var s1 := Apply(Apply(s, TryAcquire(t)), Step(t));
            if s.count == 0 then At(s1, t).Idle? && s1.count == 0 && s1.taken == s.taken
            else var s2 := Apply(s1, Step(t));
                 At(s2, t).Idle? && s2.count == s.count - 1 && s2.taken == s.taken + 1
    ensures var s1 := Apply(Apply(s, Acquire(t)), Step(t));
            if s.count == 0 then s1 == Apply(s, Acquire(t)) && !At(s1, t).Idle?
            else var s2 := Apply(s1, Step(t));
                 At(s2, t).Idle? && s2.count == s.count - 1 && s2.taken == s.taken + 1
  {
    assert At(Apply(s, TryAcquire(t)), t).TryLoad? && At(Apply(s, Acquire(t)), t).Load?;
  }
}
