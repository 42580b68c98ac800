/** What the operations of `rwlock<>` achieve, and when they may refuse.

    Alone on a lock that is free for it every operation gets its guard in a few steps.  An upgrade or a
    try-operation is refused only at a moment at which somebody else stands in its way.
 */
module RwAnswers {
  import opened AgentCount
  import opened Modular
  import opened RwLock

  // ---------- Who stands in the way ----------

  /** A writer that has set the write-willing bit and waits. */
  predicate Announced(pc: PC) { pc.WriteReload? || pc.WriteTest? || pc.WriteTake? }

  predicate Blocks(pc: PC) { Announced(pc) || Upgrading(pc) || HoldsWrite(pc) }

  ghost predicate SomeBlocks(s: Lock) {
    exists u :: u in s.pcs && Blocks(s.pcs[u])
  }

  /** The write-willing bit is never left behind. */
  ghost predicate WillingOk(s: Lock) {
    Has(s.word, WRITE_WILLING) ==> SomeBlocks(s)
  }

  /** Only the moving agent's own announcement can set the bit, and it can leave only by clearing it. */
  predicate Fair(s: Lock, s': Lock, t: nat) {
    && (t in s'.pcs ==> s'.pcs == s.pcs[t := s'.pcs[t]]) && (t !in s'.pcs ==> s'.pcs == s.pcs)
    && (Has(s'.word, WRITE_WILLING) ==>
          && (Has(s.word, WRITE_WILLING) || Blocks(At(s', t)))
          && (Blocks(At(s, t)) ==> Blocks(At(s', t))))
  }

  lemma FairKeeps(s: Lock, s': Lock, t: nat)
    requires WillingOk(s) && Fair(s, s', t)
    ensures WillingOk(s')
  {
    if Has(s'.word, WRITE_WILLING) {
      if Blocks(At(s', t)) {
        assert t in s'.pcs;
      } else {
        var u :| u in s.pcs && Blocks(s.pcs[u]);
        assert u != t && u in s'.pcs && s'.pcs[u] == s.pcs[u];
      }
    }
  }

  /** Taking one reader off leaves the willing bits alone. */
  lemma OneLess(s: Lock)
    requires Inv(s) && Readers(s) >= 1
    ensures Has((s.word + WORD - 1) % WORD, WRITE_WILLING) == Has(s.word, WRITE_WILLING)
  {
    Unpacked(s.word);
    var w, ww, uw := Has(s.word, WRITE), Has(s.word, WRITE_WILLING), Has(s.word, UPDATE_WILLING);
    Packed(w, ww, uw, Readers(s) - 1);
    assert (s.word + WORD - 1) % WORD == Pack(w, ww, uw, Readers(s) - 1);
  }

  lemma StepFair(s: Lock, t: nat)
    requires Inv(s) && t in s.pcs
    ensures Fair(s, Advance(s, t, s.pcs[t]), t)
  {
    assert LocalOk(s.pcs[t]);
    Unpacked(s.word);
    if s.pcs[t].UpgradeFailed? {
      CountWitness(s.pcs, HoldsRead, t);
      OneLess(s);
    }
    if s.pcs[t].ReadCas? || s.pcs[t].TryReadCas? {
      ReadFair(s, t);
    }
  }

  lemma ReadFair(s: Lock, t: nat)
    requires Inv(s) && t in s.pcs && (s.pcs[t].ReadCas? || s.pcs[t].TryReadCas?)
    ensures Fair(s, Advance(s, t, s.pcs[t]), t)
  {
    assert LocalOk(s.pcs[t]);
    Unpacked(s.word);
    if s.word == s.pcs[t].e {
      assert s.word < UPDATE_WILLING;
      assert !Has(s.word + 1, WRITE_WILLING);
    }
  }

  lemma EventFair(s: Lock, e: Event)
    requires Inv(s)
    ensures Fair(s, Apply(s, e), e.t)
  {
    if e.Step? && e.t in s.pcs {
      StepFair(s, e.t);
    } else if e.Drop? && At(s, e.t).Reading? {
      CountWitness(s.pcs, HoldsRead, e.t);
      OneLess(s);
    }
  }

  lemma {:induction false} WillingRun(es: seq<Event>, i: nat)
    requires i <= |es| && |Run(Fresh, es).pcs| < UPDATE_WILLING
    ensures Inv(Prefix(es, i)) && WillingOk(Prefix(es, i))
  {
    hide Apply, Inv, WillingOk, Fair, Run;
    RunSafe(es, i);
    if i == 0 {
      FreshWilling();
      assert es[..0] == [] && Run(Fresh, []) == Fresh by { EmptyRun(); }
    } else {
      WillingRun(es, i - 1);
      PrefixStep(es, i - 1);
      EventFair(Prefix(es, i - 1), es[i - 1]);
      FairKeeps(Prefix(es, i - 1), Prefix(es, i), es[i - 1].t);
    }
  }

  lemma EmptyRun()
    ensures Run(Fresh, []) == Fresh
  {
  }

  lemma FreshWilling()
    ensures WillingOk(Fresh)
  {
  }

  /** What a bit or a reader in the word means. */
  lemma WordTells(s: Lock)
    requires Inv(s) && WillingOk(s)
    ensures Has(s.word, WRITE) || Has(s.word, WRITE_WILLING) || Has(s.word, UPDATE_WILLING) ==> SomeBlocks(s)
    ensures s.word != 0 ==> SomeBlocks(s) || exists u :: u in s.pcs && HoldsRead(s.pcs[u])
  {
    Unpacked(s.word);
    if Has(s.word, WRITE) {
      var u :| u in Where(s.pcs, HoldsWrite);
    }
    if Has(s.word, UPDATE_WILLING) {
      var u :| u in Where(s.pcs, Upgrading);
    }
    if ReaderBits(s.word) > 0 {
      var u :| u in Where(s.pcs, HoldsRead);
    }
  }

  // ---------- When an upgrade fails ----------

  predicate TriesUpgrade(pc: PC) { pc.UpgradeLoad? || pc.UpgradeCas? }

  /** Another writer has announced itself, or another upgrade is pending. */
  ghost predicate Contended(s: Lock, t: nat) {
    exists u :: u in s.pcs && u != t && (Announced(s.pcs[u]) || Upgrading(s.pcs[u]))
  }

  lemma FailsHow(s: Lock, e: Event, t: nat)
    requires At(Apply(s, e), t).UpgradeFailed? && !At(s, t).UpgradeFailed?
    ensures e == Step(t) && t in s.pcs && TriesUpgrade(s.pcs[t])
    ensures Has(s.word, UPDATE_WILLING) || Has(s.word, WRITE_WILLING)
  {
  }

  lemma BitsContend(s: Lock, t: nat)
    requires Inv(s) && WillingOk(s) && t in s.pcs && TriesUpgrade(s.pcs[t])
    requires Has(s.word, UPDATE_WILLING) || Has(s.word, WRITE_WILLING)
    ensures Contended(s, t)
  {
    WordTells(s);
    CountWitness(s.pcs, HoldsRead, t);
    var u :| u in s.pcs && Blocks(s.pcs[u]);
    if HoldsWrite(s.pcs[u]) {
      CountWitness(s.pcs, HoldsWrite, u);
    }
  }

  lemma UpgradeFails(s: Lock, e: Event, t: nat)
    requires Inv(s) && WillingOk(s) && At(Apply(s, e), t).UpgradeFailed? && !At(s, t).UpgradeFailed?
    ensures e == Step(t) && TriesUpgrade(At(s, t)) && Contended(s, t)
  {
    hide Apply, Inv, WillingOk, TriesUpgrade, Contended;
    FailsHow(s, e, t);
    BitsContend(s, t);
  }

  lemma UpgradeStarts(s: Lock, e: Event, t: nat)
    requires TriesUpgrade(At(Apply(s, e), t)) && !TriesUpgrade(At(s, t))
    ensures e == Upgrade(t) && At(s, t).Reading?
  {
  }

  /** From event `i` on the agent has been trying to upgrade. */
  ghost predicate TriesSince(es: seq<Event>, t: nat, i: nat, j: nat)
    requires i < j <= |es|
  {
    && es[i] == Upgrade(t) && At(Prefix(es, i), t).Reading?
    && forall k: nat | i < k <= j :: TriesUpgrade(At(Prefix(es, k), t))
  }

  lemma {:induction false} UpgradeBegan(es: seq<Event>, t: nat, j: nat) returns (i: nat)
    requires j <= |es| && TriesUpgrade(At(Prefix(es, j), t))
    ensures i < j && TriesSince(es, t, i, j)
  {
    hide Apply, Run, TriesUpgrade;
    assert j > 0 by {
      if j == 0 {
        assert es[..0] == [];
        EmptyRun();
        NobodyTries(t);
      }
    }
    PrefixStep(es, j - 1);
    if TriesUpgrade(At(Prefix(es, j - 1), t)) {
      i := UpgradeBegan(es, t, j - 1);
    } else {
      UpgradeStarts(Prefix(es, j - 1), es[j - 1], t);
      i := j - 1;
    }
  }

  lemma NobodyTries(t: nat)
    ensures !TriesUpgrade(At(Fresh, t)) && !At(Fresh, t).UpgradeFailed?
  {
  }

  /** In every run: an upgrade fails only at a step at which another writer has announced itself or another
      upgrade is pending; and that step comes after its own `Upgrade`, with nothing but attempts between. */
  lemma {:induction false} UpgradeRefused(es: seq<Event>, t: nat, j: nat) returns (i: nat, k: nat)
    requires j <= |es| && |Run(Fresh, es).pcs| < UPDATE_WILLING && At(Prefix(es, j), t).UpgradeFailed?
    ensures i < k < j && TriesSince(es, t, i, k) && es[k] == Step(t) && Contended(Prefix(es, k), t)
    ensures forall m: nat | k < m <= j :: At(Prefix(es, m), t).UpgradeFailed?
  {
    hide Apply, Run, TriesUpgrade, Contended, Inv, WillingOk;
    assert j > 0 by {
      if j == 0 {
        assert es[..0] == [];
        EmptyRun();
        NobodyTries(t);
      }
    }
    PrefixStep(es, j - 1);
    if At(Prefix(es, j - 1), t).UpgradeFailed? {
      i, k := UpgradeRefused(es, t, j - 1);
    } else {
      WillingRun(es, j - 1);
      UpgradeFails(Prefix(es, j - 1), es[j - 1], t);
      k := j - 1;
      i := UpgradeBegan(es, t, k);
    }
  }

  // ---------- When a try-operation is refused ----------

  lemma RefusedHow(s: Lock, t: nat)
    requires t in s.pcs && At(Apply(s, Step(t)), t).Idle?
    ensures s.pcs[t].TryReadLoad? || s.pcs[t].TryReadCas? ==>
              (Has(s.word, WRITE) || Has(s.word, WRITE_WILLING)) && !Blocks(s.pcs[t])
    ensures s.pcs[t].TryWriteLoad? || s.pcs[t].TryWriteCas? ==>
              s.word != 0 && !Blocks(s.pcs[t]) && !HoldsRead(s.pcs[t])
  {
  }

  /** In every run: `try_read` comes back without a guard only if at that moment somebody else writes, has
      announced a write, or has an upgrade pending. */
  lemma TryReadRefused(es: seq<Event>, t: nat, k: nat)
    requires k < |es| && |Run(Fresh, es).pcs| < UPDATE_WILLING && es[k] == Step(t)
    requires At(Prefix(es, k), t).TryReadLoad? || At(Prefix(es, k), t).TryReadCas?
    requires At(Prefix(es, k + 1), t).Idle?
    ensures exists u :: u in Prefix(es, k).pcs && u != t && Blocks(Prefix(es, k).pcs[u])
  {
    hide Inv, WillingOk, Run, Apply, Blocks;
    WillingRun(es, k);
    PrefixStep(es, k);
    RefusedHow(Prefix(es, k), t);
    WordTells(Prefix(es, k));
  }

  /** And `try_write` only if somebody else holds a guard, has announced a write, or has an upgrade
      pending. */
  lemma TryWriteRefused(es: seq<Event>, t: nat, k: nat)
    requires k < |es| && |Run(Fresh, es).pcs| < UPDATE_WILLING && es[k] == Step(t)
    requires At(Prefix(es, k), t).TryWriteLoad? || At(Prefix(es, k), t).TryWriteCas?
    requires At(Prefix(es, k + 1), t).Idle?
    ensures exists u :: u in Prefix(es, k).pcs && u != t
              && (Blocks(Prefix(es, k).pcs[u]) || HoldsRead(Prefix(es, k).pcs[u]))
  {
    hide Inv, WillingOk, Run, Apply, Blocks;
    WillingRun(es, k);
    PrefixStep(es, k);
    RefusedHow(Prefix(es, k), t);
    WordTells(Prefix(es, k));
  }

  // ---------- Alone ----------

  /** The agent takes `n` steps and nobody else moves. */
  function Alone(s: Lock, t: nat, n: nat): Lock
    decreases n
  {
    if n == 0 then s else Alone(Apply(s, Step(t)), t, n - 1)
  }

  /** Without a writer, an announced writer or a pending upgrade, `read` and `try_read` get a guard in two
      steps, whoever else reads. */
  lemma ReadsAlone(s: Lock, t: nat, op: Op)
    requires Inv(s) && WillingOk(s) && t in s.pcs && s.pcs[t].Idle? && (op.Read? || op.TryRead?)
    requires !SomeBlocks(s) && Readers(s) + 1 < UPDATE_WILLING
    ensures Alone(Apply(s, Begin(t, op)), t, 2) == s.(word := s.word + 1, pcs := s.pcs[t := Reading])
  {
    FreeWord(s);
    var s1 := Apply(s, Begin(t, op));
    var s2 := Apply(s1, Step(t));
    assert Alone(s1, t, 2) == Alone(s2, t, 1) == Apply(s2, Step(t));
    assert s2 == s.(pcs := s.pcs[t := if op.Read? then ReadCas(s.word) else TryReadCas(s.word)]);
  }

  lemma FreeWord(s: Lock)
    requires Inv(s) && WillingOk(s) && !SomeBlocks(s)
    ensures s.word == Readers(s) < UPDATE_WILLING
    ensures !Has(s.word, WRITE) && !Has(s.word, WRITE_WILLING) && !Has(s.word, UPDATE_WILLING)
  {
    WordTells(s);
    Unpacked(s.word);
  }

  /** On a free lock `try_write` gets the write guard in two steps, and `write` in five. */
  lemma WritesAlone(s: Lock, t: nat)
    requires Inv(s) && WillingOk(s) && t in s.pcs && s.pcs[t].Idle? && !SomeBlocks(s) && Readers(s) == 0
    ensures Alone(Apply(s, Begin(t, TryWrite)), t, 2) == s.(word := WRITE, pcs := s.pcs[t := Writing])
    ensures Alone(Apply(s, Begin(t, Write)), t, 5) == s.(word := WRITE + WRITE_WILLING, pcs := s.pcs[t := Writing])
  {
    hide Apply, Alone, Inv, WillingOk, SomeBlocks;
    FreeWord(s);
    TryWriteGoes(s, t);
    WriteGoes(s, t);
  }

  lemma TryWriteGoes(s: Lock, t: nat)
    requires t in s.pcs && s.pcs[t].Idle? && s.word == 0
    ensures Alone(Apply(s, Begin(t, TryWrite)), t, 2) == s.(word := WRITE, pcs := s.pcs[t := Writing])
  {
    var s1 := Apply(Apply(s, Begin(t, TryWrite)), Step(t));
    assert Alone(Apply(s, Begin(t, TryWrite)), t, 2) == Alone(s1, t, 1) == Apply(s1, Step(t));
    assert s1 == s.(pcs := s.pcs[t := TryWriteCas]);
  }

  lemma WriteGoes(s: Lock, t: nat)
    requires t in s.pcs && s.pcs[t].Idle? && s.word == 0
    ensures Alone(Apply(s, Begin(t, Write)), t, 5) == s.(word := WRITE + WRITE_WILLING, pcs := s.pcs[t := Writing])
  {
    Packed(false, false, false, 0);
    Packed(false, true, false, 0);
    var s0 := Apply(s, Begin(t, Write));
    var s1 := Apply(s0, Step(t));
    assert s1 == s.(pcs := s.pcs[t := WriteCas(0)]);
    var s2 := Apply(s1, Step(t));
    assert s2 == s.(word := WRITE_WILLING, pcs := s.pcs[t := WriteReload]);
    var s3 := Apply(s2, Step(t));
    assert s3 == s.(word := WRITE_WILLING, pcs := s.pcs[t := WriteTest(WRITE_WILLING)]);
    var s4 := Apply(s3, Step(t));
    assert s4 == s.(word := WRITE_WILLING, pcs := s.pcs[t := WriteTake(WRITE_WILLING)]);
    var s5 := Apply(s4, Step(t));
    assert s5 == s.(word := WRITE + WRITE_WILLING, pcs := s.pcs[t := Writing]);
    assert Alone(s0, t, 5) == Alone(s1, t, 4) == Alone(s2, t, 3) == Alone(s3, t, 2);
    assert Alone(s3, t, 2) == Alone(s4, t, 1) == s5;
  }

  /** The agent with the only read guard gets the write guard with three steps of its upgrade, if no writer
      has announced itself. */
  lemma UpgradesAlone(s: Lock, t: nat)
    requires Inv(s) && WillingOk(s) && At(s, t).Reading? && Readers(s) == 1
    requires forall u | u in s.pcs :: !Announced(s.pcs[u])
    ensures Alone(Apply(s, Upgrade(t)), t, 3) == s.(word := WRITE + WRITE_WILLING, pcs := s.pcs[t := Writing])
  {
    OnlyReader(s, t);
    FreeWord(s);
    UpgradeGoes(s, t);
  }

  lemma OnlyReader(s: Lock, t: nat)
    requires Inv(s) && At(s, t).Reading? && Readers(s) == 1
    requires forall u | u in s.pcs :: !Announced(s.pcs[u])
    ensures !SomeBlocks(s)
  {
    if u :| u in s.pcs && Blocks(s.pcs[u]) {
      if HoldsWrite(s.pcs[u]) {
        CountWitness(s.pcs, HoldsWrite, u);
      } else {
        CountTwo(s.pcs, HoldsRead, t, u);
      }
    }
  }

  lemma UpgradeGoes(s: Lock, t: nat)
    requires At(s, t).Reading? && s.word == 1
    ensures Alone(Apply(s, Upgrade(t)), t, 3) == s.(word := WRITE + WRITE_WILLING, pcs := s.pcs[t := Writing])
  {
    Packed(false, false, false, 1);
    Packed(false, true, false, 1);
    Packed(false, true, true, 1);
    var s0 := Apply(s, Upgrade(t));
    var s1 := Apply(s0, Step(t));
    assert s1 == s.(pcs := s.pcs[t := UpgradeCas(1)]);
    var s2 := Apply(s1, Step(t));
    assert s2 == s.(word := WRITE_WILLING + (UPDATE_WILLING + 1), pcs := s.pcs[t := UpgradeWait]);
    var s3 := Apply(s2, Step(t));
    assert s3 == s.(word := WRITE + WRITE_WILLING, pcs := s.pcs[t := Writing]);
    assert Alone(s0, t, 3) == Alone(s1, t, 2) == Alone(s2, t, 1) == s3;
  }

  // ---------- When the last guard goes ----------

  /** What the last guard leaves behind: a free lock, or one that a writer has announced itself on. */
  lemma LastDrop(s: Lock, t: nat)
    requires Inv(s) && (At(s, t).Writing? || (At(s, t).Reading? && Readers(s) == 1))
    ensures Apply(s, Drop(t)).word == 0 || Apply(s, Drop(t)).word == WRITE_WILLING
    ensures Apply(s, Drop(t)).pcs == s.pcs[t := Idle]
  {
    Unpacked(s.word);
    if At(s, t).Reading? {
      NoUpgrader(s, t);
    }
  }

  lemma NoUpgrader(s: Lock, t: nat)
    requires Inv(s) && At(s, t).Reading? && Readers(s) == 1
    ensures Upgraders(s) == 0 && !Has(s.word, UPDATE_WILLING)
  {
    if Upgraders(s) != 0 {
      var u :| u in Where(s.pcs, Upgrading);
      CountTwo(s.pcs, HoldsRead, t, u);
    }
  }

  /** A waiting writer on a lock that is its own. */
  lemma TakesOver(s: Lock, u: nat)
    requires At(s, u).WriteReload? && s.word == WRITE_WILLING
    ensures Alone(s, u, 3) == s.(word := WRITE + WRITE_WILLING, pcs := s.pcs[u := Writing])
  {
    Packed(false, true, false, 0);
    var s1 := Apply(s, Step(u));
    assert s1 == s.(pcs := s.pcs[u := WriteTest(WRITE_WILLING)]);
    var s2 := Apply(s1, Step(u));
    assert s2 == s.(pcs := s.pcs[u := WriteTake(WRITE_WILLING)]);
    var s3 := Apply(s2, Step(u));
    assert s3 == s.(word := WRITE + WRITE_WILLING, pcs := s.pcs[u := Writing]);
    assert Alone(s, u, 3) == Alone(s1, u, 2) == Alone(s2, u, 1) == s3;
  }

  /** A waiting writer whose announcement a write guard has wiped out. */
  lemma AnnouncesAgain(s: Lock, u: nat)
    requires At(s, u).WriteReload? && s.word == 0
    ensures Alone(s, u, 6) == s.(word := WRITE + WRITE_WILLING, pcs := s.pcs[u := Writing])
  {
    Packed(false, false, false, 0);
    var s1 := Apply(s, Step(u));
    assert s1 == s.(pcs := s.pcs[u := WriteLoad]);
    var s2 := Apply(s1, Step(u));
    assert s2 == s.(pcs := s.pcs[u := WriteCas(0)]);
    var s3 := Apply(s2, Step(u));
    assert s3 == s.(word := WRITE_WILLING, pcs := s.pcs[u := WriteReload]);
    TakesOver(s3, u);
    assert s3.pcs[u := Writing] == s.pcs[u := Writing];
    assert Alone(s, u, 6) == Alone(s1, u, 5) == Alone(s2, u, 4);
    assert Alone(s2, u, 4) == Alone(s3, u, 3);
  }

  /** Nobody waits for ever behind a guard: when the last guard goes, a waiting writer has the write guard
      after at most six steps of its own, a reader that waited for a writer has its guard after two, and a
      pending upgrade that waited for the last other reader has the write guard after one. */
  lemma WaitersComeIn(s: Lock, t: nat, u: nat)
    requires Inv(s) && u != t
    ensures (At(s, t).Writing? || (At(s, t).Reading? && Readers(s) == 1)) && At(s, u).WriteReload? ==>
              var s' := Apply(s, Drop(t));
              At(Alone(s', u, if s'.word == 0 then 6 else 3), u).Writing?
    ensures At(s, t).Writing? && At(s, u).ReadLoad? ==> At(Alone(Apply(s, Drop(t)), u, 2), u).Reading?
    ensures At(s, t).Reading? && Readers(s) == 2 && At(s, u).UpgradeWait? ==>
              At(Alone(Apply(s, Drop(t)), u, 1), u).Writing?
  {
    hide Inv, Alone, Apply, Readers, Upgraders;
    WriterComesIn(s, t, u);
    ReaderComesIn(s, t, u);
    UpgradeComesIn(s, t, u);
  }

  lemma WriterComesIn(s: Lock, t: nat, u: nat)
    requires Inv(s) && u != t
    ensures (At(s, t).Writing? || (At(s, t).Reading? && Readers(s) == 1)) && At(s, u).WriteReload? ==>
              var s' := Apply(s, Drop(t));
              At(Alone(s', u, if s'.word == 0 then 6 else 3), u).Writing?
  {
    hide Inv, Alone, Readers, Upgraders, Apply;
    if (At(s, t).Writing? || (At(s, t).Reading? && Readers(s) == 1)) && At(s, u).WriteReload? {
      LastDrop(s, t);
      var s' := Apply(s, Drop(t));
      if s'.word == 0 {
        AnnouncesAgain(s', u);
      } else {
        TakesOver(s', u);
      }
    }
  }

  lemma ReaderComesIn(s: Lock, t: nat, u: nat)
    requires u != t
    ensures At(s, t).Writing? && At(s, u).ReadLoad? ==> At(Alone(Apply(s, Drop(t)), u, 2), u).Reading?
  {
    if At(s, t).Writing? && At(s, u).ReadLoad? {
      Packed(false, false, false, 0);
      var s0 := Apply(s, Drop(t));
      var s1 := Apply(s0, Step(u));
      assert s1 == s0.(pcs := s0.pcs[u := ReadCas(0)]);
      assert Alone(s0, u, 2) == Alone(s1, u, 1) == Apply(s1, Step(u));
    }
  }

  lemma UpgradeComesIn(s: Lock, t: nat, u: nat)
    requires Inv(s)
    ensures At(s, t).Reading? && Readers(s) == 2 && At(s, u).UpgradeWait? ==>
              At(Alone(Apply(s, Drop(t)), u, 1), u).Writing?
  {
    if At(s, t).Reading? && Readers(s) == 2 && At(s, u).UpgradeWait? {
      PendingWord(s, u);
      var s0 := Apply(s, Drop(t));
      assert Alone(s0, u, 1) == Apply(s0, Step(u));
    }
  }

  lemma PendingWord(s: Lock, u: nat)
    requires Inv(s) && Readers(s) == 2 && At(s, u).UpgradeWait?
    ensures s.word == WRITE_WILLING + (UPDATE_WILLING + 2)
  {
    CountWitness(s.pcs, Upgrading, u);
    Unpacked(s.word);
  }
}
