/** Counting the agents (threads, coroutines, guards) whose program counter satisfies a predicate.

    Every protocol model keeps a finite map from agent names to program counters.  A counter kept
    in an atomic word is tied to the number of agents at certain program points, and one step moves
    one agent, so one lemma about updating one entry carries all of those proofs.
 */
module AgentCount {

  /** The agents whose program counter satisfies `p`. */
  ghost function Where<P>(pcs: map<nat, P>, p: P -> bool): set<nat> {
    set a | a in pcs && p(pcs[a])
  }

  ghost function Count<P>(pcs: map<nat, P>, p: P -> bool): nat {
    |Where(pcs, p)|
  }

  function Ind(b: bool): nat {
    if b then 1 else 0
  }

  /** Moving one agent changes a count by what the agent was and what it becomes. */
  lemma CountMove<P>(pcs: map<nat, P>, p: P -> bool, a: nat, pc: P)
    requires a in pcs
    ensures Count(pcs[a := pc], p) == Count(pcs, p) + Ind(p(pc)) - Ind(p(pcs[a]))
  {
    var before, after := Where(pcs, p), Where(pcs[a := pc], p);
    assert after == if p(pc) then before + {a} else before - {a};
  }

  /** A new agent adds itself. */
  lemma CountJoin<P>(pcs: map<nat, P>, p: P -> bool, a: nat, pc: P)
    requires a !in pcs
    ensures Count(pcs[a := pc], p) == Count(pcs, p) + Ind(p(pc))
  {
    var before, after := Where(pcs, p), Where(pcs[a := pc], p);
    assert after == if p(pc) then before + {a} else before;
  }

  /** An agent that satisfies `p` is counted. */
  lemma CountWitness<P>(pcs: map<nat, P>, p: P -> bool, a: nat)
    requires a in pcs && p(pcs[a])
    ensures Count(pcs, p) >= 1
  {
    assert a in Where(pcs, p);
  }

  /** Two different agents that satisfy `p` are counted twice. */
  lemma CountTwo<P>(pcs: map<nat, P>, p: P -> bool, a: nat, b: nat)
    requires a in pcs && p(pcs[a]) && b in pcs && p(pcs[b]) && a != b
    ensures Count(pcs, p) >= 2
  {
    var rest := Where(pcs, p) - {a};
    assert b in rest;
    assert Where(pcs, p) == rest + {a};
  }

  /** A count of zero leaves nobody. */
  lemma CountZero<P>(pcs: map<nat, P>, p: P -> bool, a: nat)
    requires Count(pcs, p) == 0 && a in pcs
    ensures !p(pcs[a])
  {
    if p(pcs[a]) {
      CountWitness(pcs, p, a);
    }
  }
}
