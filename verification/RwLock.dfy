/** The upgradable reader-writer lock `rwlock<>`.

    One 64-bit word holds a write bit, a write-willing bit, an update-willing bit and, below them,
    the number of read guards.  Every atomic load, compare-exchange, fetch_sub and store is one
    event of one agent, so the event sequences are exactly the sequentially consistent
    interleavings of any number of readers, writers, try-operations and upgraders.
 */
module RwLock {
  import opened AgentCount
  import opened Modular

  const WRITE: nat := 0x8000_0000_0000_0000
  const WRITE_WILLING: nat := 0x4000_0000_0000_0000
  const UPDATE_WILLING: nat := 0x2000_0000_0000_0000

  // ---------- The bits of the word ----------

  predicate Has(x: nat, mask: nat)
    requires mask > 0
  {
    x / mask % 2 == 1
  }

  /** `x | mask` for a one-bit mask. */
  function Or(x: nat, mask: nat): nat
    requires mask > 0
  {
    if Has(x, mask) then x else x + mask
  }

  /** `x & ~mask` for a one-bit mask. */
  function Clear(x: nat, mask: nat): nat
    requires mask > 0
  {
    if Has(x, mask) && x >= mask then x - mask else x
  }

  function ReaderBits(x: nat): nat {
    x % UPDATE_WILLING
  }

  // ---------- Agents ----------

  datatype Op = Read | TryRead | Write | TryWrite

  datatype PC =
    | Idle
    | ReadLoad
    | ReadCas(e: nat)
    | TryReadLoad
    | TryReadCas(e: nat)
    | Reading                 // a live read guard
    | UpgradeLoad
    | UpgradeCas(e: nat)
    | UpgradeWait             // the pending upgrader, still counted as a reader
    | UpgradeFailed           // the consumed guard is about to be destroyed
    | WriteLoad
    | WriteCas(e: nat)
    | WriteReload
    | WriteTest(e: nat)
    | WriteTake(e: nat)
    | TryWriteLoad
    | TryWriteCas
    | Writing                 // a live write guard

  predicate HoldsRead(pc: PC) {
    pc.Reading? || pc.UpgradeLoad? || pc.UpgradeCas? || pc.UpgradeWait? || pc.UpgradeFailed?
  }

  predicate HoldsWrite(pc: PC) { pc.Writing? }

  predicate Upgrading(pc: PC) { pc.UpgradeWait? }

  /** `data` stands for the value that `rwlock<T>` protects: only a live write guard stores to it. */
  datatype Lock = Lock(word: nat, data: int, pcs: map<nat, PC>)

  const Fresh: Lock := Lock(0, 0, map[])

  datatype Event =
    | Spawn(t: nat)
    | Begin(t: nat, op: Op)
    | Upgrade(t: nat)
    | Drop(t: nat)
    | Store(t: nat, v: int)
    | Step(t: nat)

  // ---------- Transitions ----------

  function At(s: Lock, t: nat): PC {
    if t in s.pcs then s.pcs[t] else Idle
  }

  function Goto(s: Lock, t: nat, pc: PC): Lock {
    s.(pcs := s.pcs[t := pc])
  }

  function First(op: Op): PC {
    match op
    case Read => ReadLoad
    case TryRead => TryReadLoad
    case Write => WriteLoad
    case TryWrite => TryWriteLoad
  }

  /** compare_exchange: on a match the word is replaced and the agent moves on. */
  function Cas(s: Lock, t: nat, expected: nat, desired: nat, ok: PC, failed: PC): Lock {
    if s.word == expected then Goto(s.(word := desired), t, ok) else Goto(s, t, failed)
  }

  /** One atomic step of an agent inside an operation. */
  function Advance(s: Lock, t: nat, pc: PC): Lock {
    match pc
    case ReadLoad => Goto(s, t, ReadCas(Clear(Clear(s.word, WRITE), WRITE_WILLING)))
    case ReadCas(e) => Cas(s, t, e, e + 1, Reading, ReadLoad)
    case TryReadLoad =>
      if Has(s.word, WRITE) || Has(s.word, WRITE_WILLING) then Goto(s, t, Idle)
      else Goto(s, t, TryReadCas(Clear(Clear(s.word, WRITE), WRITE_WILLING)))
    case TryReadCas(e) => Cas(s, t, e, e + 1, Reading, TryReadLoad)
    case UpgradeLoad =>
      if Has(s.word, UPDATE_WILLING) || Has(s.word, WRITE_WILLING) then Goto(s, t, UpgradeFailed)
      else Goto(s, t, UpgradeCas(s.word))
    case UpgradeCas(e) =>
      Cas(s, t, e, Or(Or(e, WRITE_WILLING), UPDATE_WILLING), UpgradeWait,
          if Has(s.word, UPDATE_WILLING) || Has(s.word, WRITE_WILLING) then UpgradeFailed else UpgradeLoad)
    case UpgradeWait =>
      Cas(s, t, WRITE_WILLING + (UPDATE_WILLING + 1), WRITE + WRITE_WILLING, Writing, UpgradeWait)
    case UpgradeFailed => Goto(s.(word := (s.word + WORD - 1) % WORD), t, Idle)
    case WriteLoad => Goto(s, t, WriteCas(s.word))
    case WriteCas(e) => Cas(s, t, e, Or(e, WRITE_WILLING), WriteReload, WriteLoad)
    case WriteReload => Goto(s, t, if s.word == 0 then WriteLoad else WriteTest(s.word))
    case WriteTest(e) => Goto(s, t, if e == WRITE_WILLING then WriteTake(e) else WriteReload)
    case WriteTake(e) => Cas(s, t, e, Or(e, WRITE), Writing, WriteReload)
    case TryWriteLoad => Goto(s, t, if s.word != 0 then Idle else TryWriteCas)
    case TryWriteCas => Cas(s, t, 0, WRITE, Writing, Idle)
    case _ => s
  }

  /** An event that is not enabled leaves the lock as it is. */
  function Apply(s: Lock, e: Event): Lock {
    match e
    case Spawn(t) => if t in s.pcs then s else Goto(s, t, Idle)
    case Begin(t, op) => if t in s.pcs && s.pcs[t].Idle? then Goto(s, t, First(op)) else s
    case Upgrade(t) => if At(s, t).Reading? then Goto(s, t, UpgradeLoad) else s
    case Drop(t) =>
      if At(s, t).Reading? then Goto(s.(word := (s.word + WORD - 1) % WORD), t, Idle)
      else if At(s, t).Writing? then Goto(s.(word := 0), t, Idle)
      else s
    case Store(t, v) => if At(s, t).Writing? then s.(data := v) else s
    case Step(t) => if t in s.pcs then Advance(s, t, s.pcs[t]) else s
  }

  function Run(s: Lock, es: seq<Event>): Lock
    decreases |es|
  {
    if es == [] then s else Apply(Run(s, es[..|es| - 1]), es[|es| - 1])
  }

  // ---------- The invariant ----------

  ghost function Readers(s: Lock): nat { Count(s.pcs, HoldsRead) }
  ghost function Writers(s: Lock): nat { Count(s.pcs, HoldsWrite) }
  ghost function Upgraders(s: Lock): nat { Count(s.pcs, Upgrading) }

  /** The word and the live guards tell the same story. */
  ghost predicate Exact(s: Lock) {
    && s.word < WORD
    && ReaderBits(s.word) == Readers(s)
    && Writers(s) == (if Has(s.word, WRITE) then 1 else 0)
    && Upgraders(s) == (if Has(s.word, UPDATE_WILLING) then 1 else 0)
    && (Writers(s) == 1 ==> Readers(s) == 0)
    && (Upgraders(s) == 1 ==> Has(s.word, WRITE_WILLING))
  }

  /** What an agent may have remembered from an earlier load. */
  predicate LocalOk(pc: PC) {
    match pc
    case ReadCas(e) => e < WRITE_WILLING
    case TryReadCas(e) => e < WRITE_WILLING
    case UpgradeCas(e) => !Has(e, UPDATE_WILLING) && !Has(e, WRITE_WILLING)
    case WriteTake(e) => e == WRITE_WILLING
    case _ => true
  }

  ghost predicate Inv(s: Lock) {
    && Exact(s)
    && (forall t <- s.pcs :: LocalOk(s.pcs[t]))
  }

  // ---------- Packing ----------

  function Pack(w: bool, ww: bool, uw: bool, n: nat): nat {
    (if w then WRITE else 0) + (if ww then WRITE_WILLING else 0) + (if uw then UPDATE_WILLING else 0) + n
  }

  lemma Packed(w: bool, ww: bool, uw: bool, n: nat)
    requires n < UPDATE_WILLING
    ensures var x := Pack(w, ww, uw, n);
            && x < WORD && ReaderBits(x) == n
            && Has(x, WRITE) == w && Has(x, WRITE_WILLING) == ww && Has(x, UPDATE_WILLING) == uw
  {
  }

  lemma Unpacked(x: nat)
    requires x < WORD
    ensures x == Pack(Has(x, WRITE), Has(x, WRITE_WILLING), Has(x, UPDATE_WILLING), ReaderBits(x))
    ensures ReaderBits(x) < UPDATE_WILLING
  {
  }

  // ---------- One step ----------

  /** How the three guard counts move when one agent moves. */
  lemma Moved(s: Lock, t: nat, pc: PC)
    requires t in s.pcs
    ensures Readers(Goto(s, t, pc)) == Readers(s) + Ind(HoldsRead(pc)) - Ind(HoldsRead(s.pcs[t]))
    ensures Writers(Goto(s, t, pc)) == Writers(s) + Ind(HoldsWrite(pc)) - Ind(HoldsWrite(s.pcs[t]))
    ensures Upgraders(Goto(s, t, pc)) == Upgraders(s) + Ind(Upgrading(pc)) - Ind(Upgrading(s.pcs[t]))
    ensures HoldsRead(s.pcs[t]) ==> Readers(s) >= 1
    ensures HoldsWrite(s.pcs[t]) ==> Writers(s) >= 1
    ensures Upgrading(s.pcs[t]) ==> Upgraders(s) >= 1
  {
    CountMove(s.pcs, HoldsRead, t, pc);
    CountMove(s.pcs, HoldsWrite, t, pc);
    CountMove(s.pcs, Upgrading, t, pc);
    if HoldsRead(s.pcs[t]) { CountWitness(s.pcs, HoldsRead, t); }
    if HoldsWrite(s.pcs[t]) { CountWitness(s.pcs, HoldsWrite, t); }
    if Upgrading(s.pcs[t]) { CountWitness(s.pcs, Upgrading, t); }
  }

  /** The new state when one agent moves to `pc` and the word becomes `Pack(w, ww, uw, n)`. */
  lemma MovedInv(s: Lock, t: nat, pc: PC, w: bool, ww: bool, uw: bool, n: nat)
    requires Inv(s) && t in s.pcs && LocalOk(pc) && n < UPDATE_WILLING
    requires n == Readers(s) + Ind(HoldsRead(pc)) - Ind(HoldsRead(s.pcs[t]))
    requires Ind(w) == Writers(s) + Ind(HoldsWrite(pc)) - Ind(HoldsWrite(s.pcs[t]))
    requires Ind(uw) == Upgraders(s) + Ind(Upgrading(pc)) - Ind(Upgrading(s.pcs[t]))
    requires (w ==> n == 0) && (uw ==> ww)
    ensures Inv(Goto(s.(word := Pack(w, ww, uw, n)), t, pc))
  {
    Packed(w, ww, uw, n);
    Moved(s, t, pc);
    var s' := Goto(s.(word := Pack(w, ww, uw, n)), t, pc);
    assert s'.pcs == Goto(s, t, pc).pcs;
    assert Readers(s') == n;
  }

  /** A step that leaves the word alone and changes nobody's guard. */
  lemma Silent(s: Lock, t: nat, pc: PC)
    requires Inv(s) && t in s.pcs && LocalOk(pc)
    requires HoldsRead(pc) == HoldsRead(s.pcs[t])
    requires HoldsWrite(pc) == HoldsWrite(s.pcs[t])
    requires Upgrading(pc) == Upgrading(s.pcs[t])
    ensures Inv(Goto(s, t, pc))
  {
    Moved(s, t, pc);
  }

  lemma ReadStepKeeps(s: Lock, t: nat)
    requires Inv(s) && t in s.pcs
    requires s.pcs[t].ReadCas? || s.pcs[t].TryReadCas?
    requires Readers(Advance(s, t, s.pcs[t])) < UPDATE_WILLING
    ensures Inv(Advance(s, t, s.pcs[t]))
  {
    var pc := s.pcs[t];
    Unpacked(s.word);
    Moved(s, t, Reading);
    assert LocalOk(pc);
    if s.word == pc.e {
      var s' := Goto(s.(word := pc.e + 1), t, Reading);
      assert s'.pcs == Goto(s, t, Reading).pcs;
      assert Readers(s') == Readers(s) + 1;
      MovedInv(s, t, Reading, false, false, false, Readers(s) + 1);
    } else {
      Silent(s, t, if pc.ReadCas? then ReadLoad else TryReadLoad);
    }
  }

  /** Taking the update-willing bit: nobody else can be a writer or an upgrader. */
  lemma UpgradeCasKeeps(s: Lock, t: nat)
    requires Inv(s) && t in s.pcs && s.pcs[t].UpgradeCas?
    ensures Inv(Advance(s, t, s.pcs[t]))
  {
    var e := s.pcs[t].e;
    Unpacked(s.word);
    Moved(s, t, UpgradeWait);
    assert LocalOk(s.pcs[t]);
    if s.word == e {
      MovedInv(s, t, UpgradeWait, false, true, true, Readers(s));
      Packed(false, true, false, Readers(s));
      assert Or(Or(e, WRITE_WILLING), UPDATE_WILLING) == Pack(false, true, true, Readers(s));
    } else {
      Silent(s, t, UpgradeFailed);
      Silent(s, t, UpgradeLoad);
    }
  }

  /** The upgrade itself: the pending upgrader is the last reader, and becomes the only writer. */
  lemma UpgradeWaitKeeps(s: Lock, t: nat)
    requires Inv(s) && t in s.pcs && s.pcs[t].UpgradeWait?
    ensures Inv(Advance(s, t, s.pcs[t]))
  {
    Unpacked(s.word);
    Moved(s, t, Writing);
    if s.word == WRITE_WILLING + (UPDATE_WILLING + 1) {
      Packed(false, true, true, 1);
      MovedInv(s, t, Writing, true, true, false, 0);
    } else {
      Silent(s, t, UpgradeWait);
    }
  }

  lemma WriteStepKeeps(s: Lock, t: nat)
    requires Inv(s) && t in s.pcs && (s.pcs[t].WriteCas? || s.pcs[t].WriteTake? || s.pcs[t].TryWriteCas?)
    ensures Inv(Advance(s, t, s.pcs[t]))
  {
    var pc := s.pcs[t];
    Unpacked(s.word);
    Moved(s, t, Writing);
    assert LocalOk(pc);
    var w, uw := Has(s.word, WRITE), Has(s.word, UPDATE_WILLING);
    match pc {
      case WriteCas(e) =>
        if s.word == e {
          MovedInv(s, t, WriteReload, w, true, uw, Readers(s));
          assert Or(e, WRITE_WILLING) == Pack(w, true, uw, Readers(s));
        } else {
          Silent(s, t, WriteLoad);
        }
      case WriteTake(e) =>
        if s.word == e {
          Packed(false, true, false, 0);
          MovedInv(s, t, Writing, true, true, false, 0);
        } else {
          Silent(s, t, WriteReload);
        }
      case TryWriteCas =>
        if s.word == 0 {
          Packed(false, false, false, 0);
          MovedInv(s, t, Writing, true, false, false, 0);
        } else {
          Silent(s, t, Idle);
        }
    }
  }

  /** A read guard goes away, through its destructor or with a failed upgrade. */
  lemma ReadDropKeeps(s: Lock, t: nat)
    requires Inv(s) && t in s.pcs && HoldsRead(s.pcs[t]) && !Upgrading(s.pcs[t])
    ensures Inv(Goto(s.(word := (s.word + WORD - 1) % WORD), t, Idle))
  {
    Unpacked(s.word);
    Moved(s, t, Idle);
    var ww, uw := Has(s.word, WRITE_WILLING), Has(s.word, UPDATE_WILLING);
    MovedInv(s, t, Idle, false, ww, uw, Readers(s) - 1);
  }

  /** A write guard stores zero: only willing bits of waiting writers can be lost. */
  lemma WriteDropKeeps(s: Lock, t: nat)
    requires Inv(s) && t in s.pcs && HoldsWrite(s.pcs[t])
    ensures Inv(Goto(s.(word := 0), t, Idle))
  {
    Unpacked(s.word);
    Moved(s, t, Idle);
    if Upgraders(s) == 1 {
      var u :| u in Where(s.pcs, Upgrading);
      CountWitness(s.pcs, HoldsRead, u);
    }
    MovedInv(s, t, Idle, false, false, false, 0);
  }

  lemma LoadKeeps(s: Lock, t: nat)
    requires Inv(s) && t in s.pcs
    requires var pc := s.pcs[t]; pc.ReadLoad? || pc.TryReadLoad? || pc.UpgradeLoad? || pc.WriteLoad?
                                 || pc.WriteReload? || pc.WriteTest? || pc.TryWriteLoad?
    ensures Inv(Advance(s, t, s.pcs[t]))
  {
    Unpacked(s.word);
    var pc' := Advance(s, t, s.pcs[t]).pcs[t];
    assert LocalOk(pc') by {
      var ww, uw := Has(s.word, WRITE_WILLING), Has(s.word, UPDATE_WILLING);
      Packed(false, ww, uw, ReaderBits(s.word));
    }
    Silent(s, t, pc');
  }

  lemma AdvanceKeeps(s: Lock, t: nat)
    requires Inv(s) && t in s.pcs
    requires Readers(Advance(s, t, s.pcs[t])) < UPDATE_WILLING
    ensures Inv(Advance(s, t, s.pcs[t]))
  {
    match s.pcs[t] {
      case ReadCas(_) => ReadStepKeeps(s, t);
      case TryReadCas(_) => ReadStepKeeps(s, t);
      case UpgradeCas(_) => UpgradeCasKeeps(s, t);
      case UpgradeWait => UpgradeWaitKeeps(s, t);
      case UpgradeFailed => ReadDropKeeps(s, t);
      case WriteCas(_) => WriteStepKeeps(s, t);
      case WriteTake(_) => WriteStepKeeps(s, t);
      case TryWriteCas => WriteStepKeeps(s, t);
      case Idle =>
      case Reading =>
      case Writing =>
      case _ => LoadKeeps(s, t);
    }
  }

  /** Every event keeps the invariant exactly as long as fewer than 2^61 read guards are live. */
  lemma ApplyKeeps(s: Lock, e: Event)
    requires Inv(s)
    ensures Inv(Apply(s, e)) <==> Readers(Apply(s, e)) < UPDATE_WILLING
  {
    if Readers(Apply(s, e)) < UPDATE_WILLING {
      match e {
        case Spawn(t) =>
          if t !in s.pcs {
            CountJoin(s.pcs, HoldsRead, t, Idle);
            CountJoin(s.pcs, HoldsWrite, t, Idle);
            CountJoin(s.pcs, Upgrading, t, Idle);
          }
        case Begin(t, op) => if t in s.pcs && s.pcs[t].Idle? { Silent(s, t, First(op)); }
        case Upgrade(t) => if At(s, t).Reading? { Silent(s, t, UpgradeLoad); }
        case Drop(t) =>
          if At(s, t).Reading? { ReadDropKeeps(s, t); }
          else if At(s, t).Writing? { WriteDropKeeps(s, t); }
        case Store(t, v) =>
        case Step(t) => if t in s.pcs { AdvanceKeeps(s, t); }
      }
    }
  }

  // ---------- Whole runs ----------

  function Prefix(es: seq<Event>, i: nat): Lock
    requires i <= |es|
  {
    Run(Fresh, es[..i])
  }

  lemma PrefixStep(es: seq<Event>, i: nat)
    requires i < |es|
    ensures Prefix(es, i + 1) == Apply(Prefix(es, i), es[i])
  {
    assert es[..i + 1][..i] == es[..i];
  }

  lemma FreshInv()
    ensures Inv(Fresh)
  {
    assert Where(Fresh.pcs, HoldsRead) == {};
    assert Where(Fresh.pcs, HoldsWrite) == {};
    assert Where(Fresh.pcs, Upgrading) == {};
  }

  lemma {:induction false} PrefixInv(es: seq<Event>, i: nat)
    requires i <= |es|
    requires forall j | 0 <= j <= i :: Readers(Prefix(es, j)) < UPDATE_WILLING
    ensures Inv(Prefix(es, i))
  {
    hide Apply, Inv, Readers;
    if i == 0 {
      FreshInv();
      assert es[..0] == [];
    } else {
      PrefixInv(es, i - 1);
      PrefixStep(es, i - 1);
      ApplyKeeps(Prefix(es, i - 1), es[i - 1]);
    }
  }

  /** In every interleaving, the word matches the live guards at every point of the run if and only
      if at every point fewer than 2^61 read guards are live. */
  lemma RunExact(es: seq<Event>)
    ensures (forall i | 0 <= i <= |es| :: Inv(Prefix(es, i)))
       <==> (forall i | 0 <= i <= |es| :: Readers(Prefix(es, i)) < UPDATE_WILLING)
  {
    hide Apply, Readers;
    if forall i | 0 <= i <= |es| :: Readers(Prefix(es, i)) < UPDATE_WILLING {
      forall i | 0 <= i <= |es|
        ensures Inv(Prefix(es, i))
      {
        PrefixInv(es, i);
      }
    }
  }

  lemma KeysGrow(s: Lock, e: Event)
    ensures s.pcs.Keys <= Apply(s, e).pcs.Keys
  {
  }

  /** Agents never disappear. */
  lemma {:induction false} AgentsGrow(es: seq<Event>, i: nat)
    requires i <= |es|
    ensures Prefix(es, i).pcs.Keys <= Run(Fresh, es).pcs.Keys
    decreases |es|
  {
    hide Apply;
    if i == |es| {
      assert es[..i] == es;
    } else {
      var n := |es| - 1;
      AgentsGrow(es[..n], i);
      assert es[..n][..i] == es[..i];
      PrefixStep(es, n);
      KeysGrow(Prefix(es, n), es[n]);
      assert es[..|es|] == es;
    }
  }

  /** Fewer than 2^61 agents in all is enough for the invariant to hold throughout. */
  lemma RunSafe(es: seq<Event>, i: nat)
    requires i <= |es|
    requires |Run(Fresh, es).pcs| < UPDATE_WILLING
    ensures Inv(Prefix(es, i))
  {
    forall j | 0 <= j <= |es|
      ensures Readers(Prefix(es, j)) < UPDATE_WILLING
    {
      AgentsGrow(es, j);
      SubsetSize(Where(Prefix(es, j).pcs, HoldsRead), Run(Fresh, es).pcs.Keys);
    }
    RunExact(es);
  }

  lemma SubsetSize(a: set<nat>, b: set<nat>)
    requires a <= b
    ensures |a| <= |b|
  {
    assert b == a + (b - a);
  }

  /** Mutual exclusion: a live write guard excludes every other guard, and a pending upgrader
      excludes every other pending upgrader and every write guard. */
  lemma Exclusion(es: seq<Event>, t: nat, u: nat)
    requires |Run(Fresh, es).pcs| < UPDATE_WILLING
    ensures var s := Run(Fresh, es);
            && (HoldsWrite(At(s, t)) && HoldsWrite(At(s, u)) ==> t == u)
            && (HoldsWrite(At(s, t)) ==> !HoldsRead(At(s, u)))
            && (Upgrading(At(s, t)) && Upgrading(At(s, u)) ==> t == u)
            && (Upgrading(At(s, t)) ==> Has(s.word, WRITE_WILLING) && ReaderBits(s.word) >= 1)
  {
    var s := Run(Fresh, es);
    RunSafe(es, |es|);
    assert es[..|es|] == es;
    if t in s.pcs && u in s.pcs {
      if HoldsWrite(s.pcs[t]) && HoldsWrite(s.pcs[u]) && t != u { CountTwo(s.pcs, HoldsWrite, t, u); }
      if HoldsWrite(s.pcs[t]) { CountWitness(s.pcs, HoldsWrite, t); }
      if HoldsRead(s.pcs[u]) { CountWitness(s.pcs, HoldsRead, u); }
      if Upgrading(s.pcs[t]) && Upgrading(s.pcs[u]) && t != u { CountTwo(s.pcs, Upgrading, t, u); }
    }
    if Upgrading(At(s, t)) {
      CountWitness(s.pcs, Upgrading, t);
      CountWitness(s.pcs, HoldsRead, t);
    }
  }

  /** Without a write guard no event changes the protected value. */
  lemma DataStays(s: Lock, e: Event)
    requires Writers(s) == 0
    ensures Apply(s, e).data == s.data
  {
    if e.Store? && e.t in s.pcs {
      CountZero(s.pcs, HoldsWrite, e.t);
    }
  }

  /** While one agent keeps its read guard nobody holds a write guard, so the protected value stays. */
  lemma {:induction false} ReadViewStable(es: seq<Event>, t: nat, i: nat, j: nat)
    requires i <= j <= |es|
    requires |Run(Fresh, es).pcs| < UPDATE_WILLING
    requires forall k | i <= k <= j :: HoldsRead(At(Prefix(es, k), t))
    ensures Prefix(es, j).data == Prefix(es, i).data
    ensures Writers(Prefix(es, j)) == 0
    decreases j - i
  {
    hide Apply, Run;
    RunSafe(es, j);
    CountWitness(Prefix(es, j).pcs, HoldsRead, t);
    if i < j {
      ReadViewStable(es, t, i, j - 1);
      PrefixStep(es, j - 1);
      DataStays(Prefix(es, j - 1), es[j - 1]);
    }
  }

  /** A successful upgrade is atomic: an agent that held its read guard from event `i` on and is a
      writer after event `j` received the value its read guard saw, no write guard existed in
      between, and it is the only guard holder now. */
  lemma UpgradeAtomic(es: seq<Event>, t: nat, i: nat, j: nat)
    requires i < j <= |es|
    requires |Run(Fresh, es).pcs| < UPDATE_WILLING
    requires forall k | i <= k < j :: HoldsRead(At(Prefix(es, k), t))
    requires HoldsWrite(At(Prefix(es, j), t))
    ensures Prefix(es, j).data == Prefix(es, i).data
    ensures forall k | i <= k < j :: Writers(Prefix(es, k)) == 0
    ensures Where(Prefix(es, j).pcs, HoldsWrite) == {t} && Readers(Prefix(es, j)) == 0
  {
    hide Inv, Apply, Run, Readers, Writers;
    forall k | i <= k < j
      ensures Writers(Prefix(es, k)) == 0
    {
      ReadViewStable(es, t, i, k);
    }
    ReadViewStable(es, t, i, j - 1);
    PrefixStep(es, j - 1);
    DataStays(Prefix(es, j - 1), es[j - 1]);
    RunSafe(es, j);
    OnlyWriter(Prefix(es, j), t);
  }

  lemma OnlyWriter(s: Lock, t: nat)
    requires Inv(s) && HoldsWrite(At(s, t))
    ensures Where(s.pcs, HoldsWrite) == {t} && Readers(s) == 0
  {
    CountWitness(s.pcs, HoldsWrite, t);
    forall u | u in Where(s.pcs, HoldsWrite)
      ensures u == t
    {
      if u != t { CountTwo(s.pcs, HoldsWrite, t, u); }
    }
  }

  // ---------- The limit is real ----------

  /** `n` agents that each take a read guard, one after the other. */
  function Crowd(n: nat): seq<Event> {
    if n == 0 then []
    else Crowd(n - 1) + [Spawn(n - 1), Begin(n - 1, TryRead), Step(n - 1), Step(n - 1)]
  }

  lemma RunAppend(s: Lock, es: seq<Event>, e: Event)
    ensures Run(s, es + [e]) == Apply(Run(s, es), e)
  {
    assert (es + [e])[..|es|] == es;
  }

  lemma {:induction false} CrowdReads(n: nat)
    requires n <= UPDATE_WILLING
    ensures var s := Run(Fresh, Crowd(n));
            && s.word == n && Readers(s) == n && Writers(s) == 0 && Upgraders(s) == 0
            && (forall t: nat :: t in s.pcs <==> t < n)
  {
    hide Apply;
    if n == 0 {
      FreshInv();
    } else {
      CrowdReads(n - 1);
      var t := n - 1;
      var s := Run(Fresh, Crowd(t));
      RunAppend4(Crowd(t), Spawn(t), Begin(t, TryRead), Step(t), Step(t));
      OneMoreReader(s, t);
      assert t !in s.pcs;
      CountJoin(s.pcs, HoldsRead, t, Reading);
      CountJoin(s.pcs, HoldsWrite, t, Reading);
      CountJoin(s.pcs, Upgrading, t, Reading);
    }
  }

  lemma RunAppend2(es: seq<Event>, a: Event, b: Event)
    ensures Run(Fresh, es + [a, b]) == Apply(Apply(Run(Fresh, es), a), b)
  {
    hide Apply, Run;
    RunAppend(Fresh, es, a);
    RunAppend(Fresh, es + [a], b);
    assert es + [a, b] == es + [a] + [b];
  }

  lemma RunAppend4(es: seq<Event>, a: Event, b: Event, c: Event, d: Event)
    ensures Run(Fresh, es + [a, b, c, d]) == Apply(Apply(Apply(Apply(Run(Fresh, es), a), b), c), d)
  {
    hide Apply, Run;
    RunAppend2(es, a, b);
    RunAppend2(es + [a, b], c, d);
    assert es + [a, b, c, d] == es + [a, b] + [c, d];
  }

  lemma OneMoreReader(s: Lock, t: nat)
    requires s.word < UPDATE_WILLING && t !in s.pcs
    ensures Apply(Apply(Apply(Apply(s, Spawn(t)), Begin(t, TryRead)), Step(t)), Step(t))
         == s.(word := s.word + 1, pcs := s.pcs[t := Reading])
  {
    Packed(false, false, false, s.word);
    var s1 := Apply(s, Spawn(t));
    var s2 := Apply(s1, Begin(t, TryRead));
    assert s2 == s.(pcs := s.pcs[t := TryReadLoad]);
    var s3 := Apply(s2, Step(t));
    assert s3 == s.(pcs := s.pcs[t := TryReadCas(s.word)]);
  }

  /** With 2^61 read guards the count has run into the update-willing bit: the word reads as a
      pending upgrade without readers, although every agent still holds its guard. */
  lemma CountOverflows()
    ensures var s := Run(Fresh, Crowd(UPDATE_WILLING));
            && Readers(s) == UPDATE_WILLING && ReaderBits(s.word) == 0
            && Has(s.word, UPDATE_WILLING) && Upgraders(s) == 0
  {
    CrowdReads(UPDATE_WILLING);
  }
}
