/** The bucket protocol of `hash_map` under every interleaving of its atomic operations.

    Any number of inserts, removes, lookups, guard destructors and rehashes run at once.  An agent is
    one operation or one guard; its program counter names the next atomic access.  A guard outlives
    the table lock of the lookup that made it: only its pin, the reference count of its bucket,
    protects the pair it refers to.
 */
module BucketProtocol {
  import opened AgentCount
  import opened Modular
  import opened Probe
  import opened Table
  import opened Wrappers

  type B = Bucket<nat, int>

  // The table lock: a write bit above a reader count; `hash_map` uses only try_read and try_write.
  const WRITE: nat := 0x8000_0000_0000_0000
  const WRITE_WILLING: nat := 0x4000_0000_0000_0000

  datatype Op = Insert(key: nat, value: int) | Remove(key: nat) | Get(key: nat) | Rehash

  /** The packed atomic word of a bucket. */
  datatype Word = Word(refcount: nat, state: State)

  datatype PC =
    | Enter(op: Op)
    | EnterCas(op: Op, lockSeen: nat)
    | Leave
    | Done
    // do_insert; `at` counts probes, `b` is the bucket of the current probe
    | InsLoad(key: nat, value: int)
    | InsAt(key: nat, value: int, at: nat, claim: Option<nat>)
    | InsPin(key: nat, value: int, at: nat, claim: Option<nat>, b: nat, seen: Word)
    | InsCompare(key: nat, value: int, at: nat, claim: Option<nat>, b: nat)
    | InsUnpin(key: nat, value: int, at: nat, claim: Option<nat>, b: nat, same: bool)
    | InsUnpinCas(key: nat, value: int, at: nat, claim: Option<nat>, b: nat, same: bool, seen: Word)
    | InsTomb(key: nat, value: int, at: nat, b: nat)
    | InsTombCas(key: nat, value: int, at: nat, b: nat, seen: Word)
    | InsAbort(c: nat)
    | InsBuild(key: nat, value: int, c: nat)
    | InsCount(c: nat)
    | InsPublish(c: nat)
    | InsUnreachable
    // do_remove
    | RemAt(key: nat, at: nat)
    | RemSpin(key: nat, at: nat, b: nat)
    | RemSpinCas(key: nat, at: nat, b: nat, seen: Word)
    | RemCompare(key: nat, at: nat, b: nat)
    | RemBack(key: nat, at: nat, b: nat)
    | RemBackCas(key: nat, at: nat, b: nat, seen: Word)
    | RemCheck(b: nat)
    | RemDrain(b: nat)
    | RemGive(b: nat)
    | RemGiveCas(b: nat, seen: Word)
    | RemDrainCas(b: nat, seen: Word)
    | RemErase(b: nat)
    | RemCount(b: nat)
    | RemBury(b: nat)
    // do_get and the guard
    | GetAt(key: nat, at: nat)
    | GetCas(key: nat, at: nat, b: nat, seen: Word)
    | GetCompare(key: nat, at: nat, b: nat)
    | GetUnpin(key: nat, at: nat, b: nat)
    | GetUnpinCas(key: nat, at: nat, b: nat, seen: Word)
    | GetHit(key: nat, b: nat)
    | Held(key: nat, b: nat, generation: nat)
    | Dropping(key: nat, b: nat, generation: nat)
    | DropCas(key: nat, b: nat, generation: nat, seen: Word)
    // try_rehash
    | GrowTry
    | GrowCas
    | GrowAt(j: nat)
    | GrowWait(j: nat)
    | GrowMove(j: nat)
    | GrowLeave

  /** `generation` counts the bucket arrays so far; `grown` is the new array a rehash is filling. */
  datatype Hash = Hash(lock: nat, generation: nat, buckets: seq<B>, grown: seq<B>, load: int, agents: map<nat, PC>)

  datatype Event = Spawn(a: nat, op: Op) | Step(a: nat) | Drop(a: nat)

  // ---------- Atomic accesses ----------

  function Goto(s: Hash, a: nat, pc: PC): Hash {
    s.(agents := s.agents[a := pc])
  }

  function WordAt(s: Hash, b: nat): Word {
    if b < |s.buckets| then Word(s.buckets[b].refcount, s.buckets[b].state) else Word(0, Empty)
  }

  function Put(s: Hash, b: nat, bucket: B): Hash {
    if b < |s.buckets| then s.(buckets := s.buckets[b := bucket]) else s
  }

  function SetWord(s: Hash, b: nat, w: Word): Hash {
    if b < |s.buckets| then Put(s, b, Bucket(w.refcount, w.state, s.buckets[b].slot)) else s
  }

  function SlotAt(s: Hash, b: nat): Slot<nat, int> {
    if b < |s.buckets| then s.buckets[b].slot else Raw
  }

  function Cas(s: Hash, a: nat, b: nat, seen: Word, want: Word, ok: PC, failed: PC): Hash {
    if WordAt(s, b) == seen then Goto(SetWord(s, b, want), a, ok) else Goto(s, a, failed)
  }

  function Less(n: nat): nat {
    if n == 0 then 0 else n - 1
  }

  function BucketOf(h: Hashing<nat>, s: Hash, key: nat, at: nat): nat {
    if |s.buckets| == 0 then 0 else Path(h, |s.buckets|, key, at)
  }

  // ---------- Transitions ----------

  function LockStep(s: Hash, a: nat, pc: PC): Hash {
    match pc
    case Enter(op) =>
      if s.lock >= WRITE_WILLING then Goto(s, a, Done) else Goto(s, a, EnterCas(op, s.lock))
    case EnterCas(op, seen) =>
      if s.lock == seen then Goto(s.(lock := seen + 1), a, First(op)) else Goto(s, a, Enter(op))
    case Leave => Goto(s.(lock := (s.lock + WORD - 1) % WORD), a, Done)
    case _ => s
  }

  function First(op: Op): PC {
    match op
    case Insert(k, v) => InsLoad(k, v)
    case Remove(k) => RemAt(k, 0)
    case Get(k) => GetAt(k, 0)
    case Rehash => Done
  }

  function InsertStep(h: Hashing<nat>, s: Hash, a: nat, pc: PC): Hash {
    match pc
    case InsLoad(k, v) =>
      Goto(s, a, if 5 * s.load >= 3 * |s.buckets| then Leave else InsAt(k, v, 0, None))
    case InsAt(k, v, at, claim) =>
      var b := BucketOf(h, s, k, at);
      if at >= |s.buckets| then
        Goto(s, a, if claim.Some? then InsBuild(k, v, claim.value) else InsUnreachable)
      else if claim.Some? then
        match WordAt(s, b).state
        case Tombstone => Goto(s, a, InsAt(k, v, at + 1, claim))
        case Empty => Goto(s, a, InsBuild(k, v, claim.value))
        case Filled => Goto(s, a, InsPin(k, v, at, claim, b, WordAt(s, b)))
        case _ => Goto(s, a, InsAbort(claim.value))
      else if WordAt(s, b) == Word(0, Empty) then
        Goto(SetWord(s, b, Word(0, Constructing)), a, InsBuild(k, v, b))
      else (
        match WordAt(s, b).state
        case Constructing => Goto(s, a, Leave)
        case Predestructing => Goto(s, a, Leave)
        case Destructing => Goto(s, a, Leave)
        case Filled => Goto(s, a, InsPin(k, v, at, claim, b, WordAt(s, b)))
        case Tombstone => Goto(s, a, InsTomb(k, v, at, b))
        case Empty => s
      )
    case InsPin(k, v, at, claim, b, seen) =>
      Cas(s, a, b, seen, Word(seen.refcount + 1, seen.state), InsCompare(k, v, at, claim, b),
          if WordAt(s, b).state.Predestructing?
          then (if claim.Some? then InsAbort(claim.value) else Leave)
          else InsAt(k, v, at, claim))
    case InsCompare(k, v, at, claim, b) =>
      Goto(s, a, InsUnpin(k, v, at, claim, b, SlotAt(s, b).Pair? && SlotAt(s, b).key == k))
    case InsUnpin(k, v, at, claim, b, same) =>
      Goto(s, a, InsUnpinCas(k, v, at, claim, b, same, WordAt(s, b)))
    case InsUnpinCas(k, v, at, claim, b, same, seen) =>
      Cas(s, a, b, seen, Word(Less(seen.refcount), seen.state),
          if !same then InsAt(k, v, at + 1, claim)
          else if claim.Some? then InsAbort(claim.value)
          else Leave,
          InsUnpin(k, v, at, claim, b, same))
    case InsTomb(k, v, at, b) =>
      Goto(s, a, if WordAt(s, b).state.Tombstone? then InsTombCas(k, v, at, b, WordAt(s, b)) else InsAt(k, v, at, None))
    case InsTombCas(k, v, at, b, seen) =>
      Cas(s, a, b, seen, Word(0, Constructing), InsAt(k, v, at + 1, Some(b)), InsTomb(k, v, at, b))
    case InsAbort(c) => Goto(SetWord(s, c, Word(0, Tombstone)), a, Leave)
    case InsBuild(k, v, c) =>
      Goto(if c < |s.buckets| then Put(s, c, s.buckets[c].(slot := Pair(k, v))) else s, a, InsCount(c))
    case InsCount(c) => Goto(s.(load := s.load + 1), a, InsPublish(c))
    case InsPublish(c) => Goto(SetWord(s, c, Word(0, Filled)), a, Leave)
    case _ => s
  }

  function RemoveStep(h: Hashing<nat>, s: Hash, a: nat, pc: PC): Hash {
    match pc
    case RemAt(k, at) =>
      var b := BucketOf(h, s, k, at);
      if at >= |s.buckets| then Goto(s, a, Leave)
      else if WordAt(s, b) == Word(0, Filled) then
        Goto(SetWord(s, b, Word(1, Predestructing)), a, RemCompare(k, at, b))
      else (
        match WordAt(s, b).state
        case Filled => Goto(s, a, RemSpin(k, at, b))
        case Empty => Goto(s, a, Leave)
        case Constructing => Goto(s, a, Leave)
        case Predestructing => Goto(s, a, Leave)
        case _ => Goto(s, a, RemAt(k, at + 1))
      )
    case RemSpin(k, at, b) =>
      Goto(s, a,
           if !WordAt(s, b).state.Filled? then Leave
           else if WordAt(s, b).refcount == 0 then RemAt(k, at)
           else RemSpinCas(k, at, b, WordAt(s, b)))
    case RemSpinCas(k, at, b, seen) =>
      Cas(s, a, b, seen, Word(seen.refcount + 1, Predestructing), RemCompare(k, at, b), RemSpin(k, at, b))
    case RemCompare(k, at, b) =>
      Goto(s, a, if SlotAt(s, b).Pair? && SlotAt(s, b).key == k then RemCheck(b) else RemBack(k, at, b))
    case RemBack(k, at, b) => Goto(s, a, RemBackCas(k, at, b, WordAt(s, b)))
    case RemBackCas(k, at, b, seen) =>
      Cas(s, a, b, seen, Word(Less(seen.refcount), Filled), RemAt(k, at + 1), RemBack(k, at, b))
    case RemCheck(b) =>
      // the source backs out when it finds the bucket filled here; it never does
      Goto(s, a, if WordAt(s, b).state.Filled? then RemGive(b) else RemDrain(b))
    case RemDrain(b) =>
      Goto(s, a, if WordAt(s, b).refcount > 1 then RemGive(b) else RemDrainCas(b, WordAt(s, b)))
    case RemGive(b) => Goto(s, a, RemGiveCas(b, WordAt(s, b)))
    case RemGiveCas(b, seen) =>
      Cas(s, a, b, seen, Word(Less(seen.refcount), Filled), Leave, RemGive(b))
    case RemDrainCas(b, seen) =>
      Cas(s, a, b, seen, Word(Less(seen.refcount), Predestructing), RemErase(b), RemDrain(b))
    case RemErase(b) =>
      Goto(if b < |s.buckets| then Put(s, b, s.buckets[b].(slot := Raw)) else s, a, RemCount(b))
    case RemCount(b) => Goto(s.(load := s.load - 1), a, RemBury(b))
    case RemBury(b) => Goto(SetWord(s, b, Word(0, Tombstone)), a, Leave)
    case _ => s
  }

  function GetStep(h: Hashing<nat>, s: Hash, a: nat, pc: PC): Hash {
    match pc
    case GetAt(k, at) =>
      var b := BucketOf(h, s, k, at);
      if at >= |s.buckets| then Goto(s, a, Leave)
      else (
        match WordAt(s, b).state
        case Empty => Goto(s, a, Leave)
        case Constructing => Goto(s, a, Leave)
        case Predestructing => Goto(s, a, Leave)
        case Filled => Goto(s, a, GetCas(k, at, b, WordAt(s, b)))
        case _ => Goto(s, a, GetAt(k, at + 1))
      )
    case GetCas(k, at, b, seen) =>
      Cas(s, a, b, seen, Word(seen.refcount + 1, seen.state), GetCompare(k, at, b), GetAt(k, at))
    case GetCompare(k, at, b) =>
      Goto(s, a, if SlotAt(s, b).Pair? && SlotAt(s, b).key == k then GetHit(k, b) else GetUnpin(k, at, b))
    case GetUnpin(k, at, b) => Goto(s, a, GetUnpinCas(k, at, b, WordAt(s, b)))
    case GetUnpinCas(k, at, b, seen) =>
      Cas(s, a, b, seen, Word(Less(seen.refcount), seen.state), GetAt(k, at + 1), GetUnpin(k, at, b))
    case GetHit(k, b) => Goto(s.(lock := (s.lock + WORD - 1) % WORD), a, Held(k, b, s.generation))
    case Dropping(k, b, g) => Goto(s, a, DropCas(k, b, g, WordAt(s, b)))
    case DropCas(k, b, g, seen) =>
      Cas(s, a, b, seen, Word(Less(seen.refcount), seen.state), Done, Dropping(k, b, g))
    case _ => s
  }

  const FREE: B := Bucket(0, Empty, Raw)

  ghost predicate NoGapFrom(h: Hashing<nat>, bs: seq<B>, key: nat, at: nat)
    requires |bs| > 0
  {
    forall p: nat | at <= p < |bs| :: !bs[Path(h, |bs|, key, p)].state.Empty?
  }

  /** The first empty bucket on the path of a key, from probe `at` on. */
  function FreeFrom(h: Hashing<nat>, bs: seq<B>, key: nat, at: nat): (free: Option<nat>)
    requires |bs| > 0
    ensures free.Some? ==> free.value < |bs| && bs[free.value].state.Empty?
    ensures free.None? ==> NoGapFrom(h, bs, key, at)
    decreases |bs| - at
  {
    if at >= |bs| then None
    else if bs[Path(h, |bs|, key, at)].state.Empty? then Some(Path(h, |bs|, key, at))
    else FreeFrom(h, bs, key, at + 1)
  }

  function GrowStep(h: Hashing<nat>, s: Hash, a: nat, pc: PC): Hash {
    match pc
    case GrowTry => Goto(s, a, if s.lock != 0 then Done else GrowCas)
    case GrowCas =>
      if s.lock == 0 then
        Goto(s.(lock := WRITE, grown := seq(2 * |s.buckets|, _ => FREE)), a, GrowAt(0))
      else Goto(s, a, Done)
    case GrowAt(j) =>
      if j >= |s.buckets| then
        Goto(s.(buckets := s.grown, grown := [], generation := s.generation + 1), a, GrowLeave)
      else Goto(s, a, if WordAt(s, j).state.Filled? then GrowWait(j) else GrowAt(j + 1))
    case GrowWait(j) => Goto(s, a, if WordAt(s, j).refcount > 0 then GrowWait(j) else GrowMove(j))
    case GrowMove(j) =>
      if |s.grown| == 0 || SlotAt(s, j).Raw? then Goto(s, a, GrowAt(j + 1))
      else (
        match FreeFrom(h, s.grown, SlotAt(s, j).key, 0)
        case None => Goto(s, a, GrowAt(j + 1))
        case Some(b) =>
          Goto(Put(s, j, Bucket(0, Tombstone, Raw)).(grown := s.grown[b := Bucket(0, Filled, SlotAt(s, j))]),
               a, GrowAt(j + 1))
      )
    case GrowLeave => Goto(s.(lock := 0), a, Done)
    case _ => s
  }

  predicate InInsert(pc: PC) {
    pc.InsLoad? || pc.InsAt? || pc.InsPin? || pc.InsCompare? || pc.InsUnpin? || pc.InsUnpinCas? || pc.InsTomb?
    || pc.InsTombCas? || pc.InsAbort? || pc.InsBuild? || pc.InsCount? || pc.InsPublish? || pc.InsUnreachable?
  }

  predicate InRemove(pc: PC) {
    pc.RemAt? || pc.RemSpin? || pc.RemSpinCas? || pc.RemCompare? || pc.RemBack? || pc.RemBackCas? || pc.RemCheck?
    || pc.RemDrain? || pc.RemGive? || pc.RemGiveCas? || pc.RemDrainCas? || pc.RemErase? || pc.RemCount? || pc.RemBury?
  }

  predicate InGet(pc: PC) {
    pc.GetAt? || pc.GetCas? || pc.GetCompare? || pc.GetUnpin? || pc.GetUnpinCas? || pc.GetHit?
  }

  predicate IsGuard(pc: PC) { pc.Held? || pc.Dropping? || pc.DropCas? }

  predicate Growing(pc: PC) { pc.GrowAt? || pc.GrowWait? || pc.GrowMove? || pc.GrowLeave? }

  function Advance(h: Hashing<nat>, s: Hash, a: nat, pc: PC): Hash {
    if pc.Enter? || pc.EnterCas? || pc.Leave? then LockStep(s, a, pc)
    else if InInsert(pc) then InsertStep(h, s, a, pc)
    else if InRemove(pc) then RemoveStep(h, s, a, pc)
    else if InGet(pc) || IsGuard(pc) then GetStep(h, s, a, pc)
    else GrowStep(h, s, a, pc)
  }

  /** An event that is not enabled leaves the map as it is. */
  function Apply(h: Hashing<nat>, s: Hash, e: Event): Hash {
    match e
    case Spawn(a, op) => if a in s.agents then s else Goto(s, a, if op.Rehash? then GrowTry else Enter(op))
    case Step(a) => if a in s.agents then Advance(h, s, a, s.agents[a]) else s
    case Drop(a) =>
      if a in s.agents && s.agents[a].Held?
      then Goto(s, a, Dropping(s.agents[a].key, s.agents[a].b, s.agents[a].generation))
      else s
  }

  function Run(h: Hashing<nat>, s: Hash, es: seq<Event>): Hash
    decreases |es|
  {
    if es == [] then s else Apply(h, Run(h, s, es[..|es| - 1]), es[|es| - 1])
  }

  /** A new map: 64 empty buckets. */
  function New(): Hash {
    Hash(0, 0, seq(64, _ => FREE), [], 0, map[])
  }

  // ---------- What an agent owns ----------

  /** Inside an operation, that is, holding a read lock on the table. */
  predicate Inside(pc: PC) {
    InInsert(pc) || InRemove(pc) || InGet(pc) || pc.Leave?
  }

  /** What an agent owns of the buckets: a pin, a claimed bucket and whether its pair is built, a
      bucket marked for removal and how far the removal has come. */
  datatype Own = Own(pin: Option<nat>, claim: Option<nat>, built: bool, mark: Option<nat>, drained: bool, erased: bool)

  const NOTHING: Own := Own(None, None, false, None, false, false)

  function Owns(pc: PC): Own {
    match pc
    case InsAt(_, _, _, claim) => NOTHING.(claim := claim)
    case InsPin(_, _, _, claim, _, _) => NOTHING.(claim := claim)
    case InsCompare(_, _, _, claim, b) => NOTHING.(claim := claim, pin := Some(b))
    case InsUnpin(_, _, _, claim, b, _) => NOTHING.(claim := claim, pin := Some(b))
    case InsUnpinCas(_, _, _, claim, b, _, _) => NOTHING.(claim := claim, pin := Some(b))
    case InsAbort(c) => NOTHING.(claim := Some(c))
    case InsBuild(_, _, c) => NOTHING.(claim := Some(c))
    case InsCount(c) => NOTHING.(claim := Some(c), built := true)
    case InsPublish(c) => NOTHING.(claim := Some(c), built := true)
    case RemCompare(_, _, b) => NOTHING.(pin := Some(b), mark := Some(b))
    case RemBack(_, _, b) => NOTHING.(pin := Some(b), mark := Some(b))
    case RemBackCas(_, _, b, _) => NOTHING.(pin := Some(b), mark := Some(b))
    case RemCheck(b) => NOTHING.(pin := Some(b), mark := Some(b))
    case RemDrain(b) => NOTHING.(pin := Some(b), mark := Some(b))
    case RemGive(b) => NOTHING.(pin := Some(b), mark := Some(b))
    case RemGiveCas(b, _) => NOTHING.(pin := Some(b), mark := Some(b))
    case RemDrainCas(b, _) => NOTHING.(pin := Some(b), mark := Some(b))
    case RemErase(b) => NOTHING.(mark := Some(b), drained := true)
    case RemCount(b) => NOTHING.(mark := Some(b), drained := true, erased := true)
    case RemBury(b) => NOTHING.(mark := Some(b), drained := true, erased := true)
    case GetCompare(_, _, b) => NOTHING.(pin := Some(b))
    case GetUnpin(_, _, b) => NOTHING.(pin := Some(b))
    case GetUnpinCas(_, _, b, _) => NOTHING.(pin := Some(b))
    case GetHit(_, b) => NOTHING.(pin := Some(b))
    case Held(_, b, _) => NOTHING.(pin := Some(b))
    case Dropping(_, b, _) => NOTHING.(pin := Some(b))
    case DropCas(_, b, _, _) => NOTHING.(pin := Some(b))
    case _ => NOTHING
  }

  /** The bucket an agent has pinned, claimed for an insert, or marked for removal. */
  function PinOf(pc: PC): Option<nat> { Owns(pc).pin }
  function ClaimOf(pc: PC): Option<nat> { Owns(pc).claim }
  function MarkOf(pc: PC): Option<nat> { Owns(pc).mark }

  /** The pair of the claimed bucket is constructed. */
  predicate Built(pc: PC) { Owns(pc).built }

  /** The remover has given up its own pin and is the sole owner. */
  predicate Drained(pc: PC) { Owns(pc).drained }

  predicate Erased(pc: PC) { Owns(pc).erased }

  predicate Publishing(pc: PC) { pc.InsPublish? }
  predicate Burying(pc: PC) { pc.RemBury? }

  // ---------- Counting owners ----------

  function Pinning(b: nat): PC -> bool { (pc: PC) => PinOf(pc) == Some(b) }
  function ClaimingAt(b: nat): PC -> bool { (pc: PC) => ClaimOf(pc) == Some(b) }
  function BuiltAt(b: nat): PC -> bool { (pc: PC) => ClaimOf(pc) == Some(b) && Built(pc) }
  function MarkingAt(b: nat): PC -> bool { (pc: PC) => MarkOf(pc) == Some(b) }
  function DrainedAt(b: nat): PC -> bool { (pc: PC) => MarkOf(pc) == Some(b) && Drained(pc) }
  function ErasedAt(b: nat): PC -> bool { (pc: PC) => MarkOf(pc) == Some(b) && Erased(pc) }

  /** Who owns what of one bucket. */
  datatype Tally = Tally(pins: int, claims: int, built: int, marks: int, drained: int, erased: int)

  ghost function TallyOf(s: Hash, b: nat): Tally {
    Tally(Count(s.agents, Pinning(b)), Count(s.agents, ClaimingAt(b)), Count(s.agents, BuiltAt(b)),
          Count(s.agents, MarkingAt(b)), Count(s.agents, DrainedAt(b)), Count(s.agents, ErasedAt(b)))
  }

  /** What one agent contributes. */
  function Share(pc: PC, b: nat): Tally {
    Tally(Ind(PinOf(pc) == Some(b)), Ind(ClaimOf(pc) == Some(b)), Ind(ClaimOf(pc) == Some(b) && Built(pc)),
          Ind(MarkOf(pc) == Some(b)), Ind(MarkOf(pc) == Some(b) && Drained(pc)),
          Ind(MarkOf(pc) == Some(b) && Erased(pc)))
  }

  function Plus(t: Tally, u: Tally, v: Tally): Tally {
    Tally(t.pins + u.pins - v.pins, t.claims + u.claims - v.claims, t.built + u.built - v.built,
          t.marks + u.marks - v.marks, t.drained + u.drained - v.drained, t.erased + u.erased - v.erased)
  }

  lemma PinMove(agents: map<nat, PC>, a: nat, pc: PC, b: nat)
    requires a in agents
    ensures Count(agents[a := pc], Pinning(b))
         == Count(agents, Pinning(b)) + Share(pc, b).pins - Share(agents[a], b).pins
  {
    CountMove(agents, Pinning(b), a, pc);
  }

  lemma ClaimMove(agents: map<nat, PC>, a: nat, pc: PC, b: nat)
    requires a in agents
    ensures Count(agents[a := pc], ClaimingAt(b))
         == Count(agents, ClaimingAt(b)) + Share(pc, b).claims - Share(agents[a], b).claims
  {
    CountMove(agents, ClaimingAt(b), a, pc);
  }

  lemma BuiltMove(agents: map<nat, PC>, a: nat, pc: PC, b: nat)
    requires a in agents
    ensures Count(agents[a := pc], BuiltAt(b))
         == Count(agents, BuiltAt(b)) + Share(pc, b).built - Share(agents[a], b).built
  {
    CountMove(agents, BuiltAt(b), a, pc);
  }

  lemma MarkMove(agents: map<nat, PC>, a: nat, pc: PC, b: nat)
    requires a in agents
    ensures Count(agents[a := pc], MarkingAt(b))
         == Count(agents, MarkingAt(b)) + Share(pc, b).marks - Share(agents[a], b).marks
  {
    CountMove(agents, MarkingAt(b), a, pc);
  }

  lemma DrainMove(agents: map<nat, PC>, a: nat, pc: PC, b: nat)
    requires a in agents
    ensures Count(agents[a := pc], DrainedAt(b))
         == Count(agents, DrainedAt(b)) + Share(pc, b).drained - Share(agents[a], b).drained
  {
    CountMove(agents, DrainedAt(b), a, pc);
  }

  lemma EraseMove(agents: map<nat, PC>, a: nat, pc: PC, b: nat)
    requires a in agents
    ensures Count(agents[a := pc], ErasedAt(b))
         == Count(agents, ErasedAt(b)) + Share(pc, b).erased - Share(agents[a], b).erased
  {
    CountMove(agents, ErasedAt(b), a, pc);
  }

  lemma TallyMove(s: Hash, a: nat, pc: PC, b: nat)
    requires a in s.agents
    ensures TallyOf(Goto(s, a, pc), b) == Plus(TallyOf(s, b), Share(pc, b), Share(s.agents[a], b))
  {
    hide Share, Owns;
    PinMove(s.agents, a, pc, b);
    ClaimMove(s.agents, a, pc, b);
    BuiltMove(s.agents, a, pc, b);
    MarkMove(s.agents, a, pc, b);
    DrainMove(s.agents, a, pc, b);
    EraseMove(s.agents, a, pc, b);
  }

  /** Each owner is counted, and an owner that has not reached a later stage is not counted there. */
  ghost predicate Covers(t: Tally, u: Tally) {
    && t.pins >= u.pins && t.claims >= u.claims && t.built >= u.built
    && t.marks >= u.marks && t.drained >= u.drained && t.erased >= u.erased
    && t.claims - t.built >= u.claims - u.built
    && t.marks - t.drained >= u.marks - u.drained
    && t.drained - t.erased >= u.drained - u.erased
  }

  lemma ErasedDrained()
    ensures forall pc: PC :: Erased(pc) ==> Drained(pc)
  {
  }

  lemma TallyShare(s: Hash, a: nat, b: nat)
    requires a in s.agents
    ensures Covers(TallyOf(s, b), Share(s.agents[a], b))
  {
    hide Owns;
    ErasedDrained();
    var pc := s.agents[a];
    if Pinning(b)(pc) { CountWitness(s.agents, Pinning(b), a); }
    CountStage(s.agents, ClaimingAt(b), BuiltAt(b), a);
    CountStage(s.agents, MarkingAt(b), DrainedAt(b), a);
    CountStage(s.agents, DrainedAt(b), ErasedAt(b), a);
  }

  /** A later stage counts at most as many, and leaves out an agent that has not reached it. */
  lemma CountStage(agents: map<nat, PC>, p: PC -> bool, q: PC -> bool, a: nat)
    requires a in agents && forall pc: PC :: q(pc) ==> p(pc)
    ensures Count(agents, p) >= Ind(p(agents[a])) && Count(agents, q) >= Ind(q(agents[a]))
    ensures Count(agents, p) - Count(agents, q) >= Ind(p(agents[a])) - Ind(q(agents[a]))
  {
    if p(agents[a]) { CountWitness(agents, p, a); }
    if q(agents[a]) { CountWitness(agents, q, a); }
    var more, fewer := Where(agents, p), Where(agents, q);
    assert fewer <= more;
    var rest := more - fewer;
    assert more == fewer + rest;
    if p(agents[a]) && !q(agents[a]) { assert a in rest; }
  }

  // ---------- The invariant ----------

  /** The word and the storage of a bucket agree with its owners. */
  predicate BucketOk(x: B, t: Tally) {
    && x.refcount == t.pins
    && t.built <= t.claims && t.erased <= t.drained <= t.marks
    && match x.state
       case Empty => t.claims == 0 && t.marks == 0 && x.refcount == 0 && x.slot.Raw?
       case Tombstone => t.claims == 0 && t.marks == 0 && x.refcount == 0 && x.slot.Raw?
       case Constructing => t.claims == 1 && t.marks == 0 && x.refcount == 0 && (x.slot.Pair? <==> t.built == 1)
       case Filled => t.claims == 0 && t.marks == 0 && x.slot.Pair?
       case Predestructing =>
         t.claims == 0 && t.marks == 1 && (x.slot.Pair? <==> t.erased == 0) && (t.drained == 1 ==> x.refcount == 0)
       case Destructing => false
  }

  /** The key a lookup has found under its pin. */
  function FoundKey(pc: PC): Slot<nat, nat> {
    match pc
    case GetHit(k, b) => Pair(k, b)
    case Held(k, b, _) => Pair(k, b)
    case Dropping(k, b, _) => Pair(k, b)
    case DropCas(k, b, _, _) => Pair(k, b)
    case _ => Raw
  }

  predicate InRange(o: Option<nat>, n: nat) {
    o.Some? ==> o.value < n
  }

  /** What an agent remembers. */
  predicate AgentOk(s: Hash, pc: PC) {
    && InRange(PinOf(pc), |s.buckets|) && InRange(ClaimOf(pc), |s.buckets|) && InRange(MarkOf(pc), |s.buckets|)
    && (FoundKey(pc).Pair? ==>
          FoundKey(pc).value < |s.buckets| && s.buckets[FoundKey(pc).value].slot.Pair?
          && s.buckets[FoundKey(pc).value].slot.key == FoundKey(pc).key)
    && NotesOk(s, pc)
  }

  /** What an agent has noted from an earlier load. */
  predicate NotesOk(s: Hash, pc: PC) {
    match pc
    case EnterCas(op, seen) => seen < WRITE_WILLING && !op.Rehash?
    case Enter(op) => !op.Rehash?
    case InsPin(_, _, _, _, b, seen) => b < |s.buckets| && seen.state.Filled?
    case InsTomb(_, _, _, b) => b < |s.buckets|
    case InsTombCas(_, _, _, b, seen) => b < |s.buckets| && seen.state.Tombstone?
    case RemSpin(_, _, b) => b < |s.buckets|
    case RemSpinCas(_, _, b, seen) => b < |s.buckets| && seen.state.Filled?
    case RemDrainCas(_, seen) => seen.refcount <= 1
    case GetCas(_, _, b, seen) => b < |s.buckets| && seen.state.Filled?
    case Held(_, _, g) => g == s.generation
    case Dropping(_, _, g) => g == s.generation
    case DropCas(_, _, g, _) => g == s.generation
    case GrowAt(j) => forall l: nat | l < j && l < |s.buckets| :: !s.buckets[l].state.Filled?
    case GrowWait(j) => j < |s.buckets| && s.buckets[j].state.Filled?
                        && forall l: nat | l < j :: !s.buckets[l].state.Filled?
    case GrowMove(j) => j < |s.buckets| && s.buckets[j].state.Filled? && s.buckets[j].refcount == 0
                        && forall l: nat | l < j :: !s.buckets[l].state.Filled?
    case _ => true
  }

  /** Buckets that hold a pair the load counter counts. */
  ghost function LiveSet(bs: seq<B>): set<nat> {
    set j: nat | j < |bs| && (bs[j].state.Filled? || bs[j].state.Predestructing?)
  }

  ghost function Live(bs: seq<B>): nat { |LiveSet(bs)| }

  ghost predicate LockOk(s: Hash) {
    var readers, growers := Count(s.agents, Inside), Count(s.agents, Growing);
    && growers <= 1
    && (growers == 1 ==> readers == 0 && s.lock == WRITE)
    && (growers == 0 ==> s.lock == readers <= WRITE_WILLING)
  }

  /** The new array holds only moved pairs, and there is room for all the others. */
  ghost predicate GrownOk(s: Hash) {
    && (forall l: nat | l < |s.grown| ::
          s.grown[l] == FREE || (s.grown[l].state.Filled? && s.grown[l].refcount == 0 && s.grown[l].slot.Pair?))
    && (s.grown != [] ==> |s.grown| == 2 * |s.buckets| && Live(s.grown) + Live(s.buckets) <= |s.buckets|)
    && (s.grown != [] <==> exists a :: a in s.agents && Growing(s.agents[a]) && !s.agents[a].GrowLeave?)
  }

  ghost predicate LoadOk(s: Hash) {
    s.load == Live(s.buckets) + Live(s.grown) + Count(s.agents, Publishing) - Count(s.agents, Burying)
  }

  ghost predicate Inv(h: Hashing<nat>, s: Hash) {
    && Proper(h) && (exists k: nat :: |s.buckets| == Pow2(k))
    && LockOk(s)
    && (forall b: nat | b < |s.buckets| :: BucketOk(s.buckets[b], TallyOf(s, b)))
    && (forall a <- s.agents :: AgentOk(s, s.agents[a]))
    && GrownOk(s) && LoadOk(s)
  }

  // ---------- How one agent's step changes the counts ----------

  /** The lock counts when one agent moves without touching the lock. */
  lemma LockKept(s: Hash, s': Hash, a: nat, pc: PC)
    requires a in s.agents && LockOk(s)
    requires s'.agents == s.agents[a := pc] && s'.lock == s.lock
    requires Inside(pc) == Inside(s.agents[a]) && Growing(pc) == Growing(s.agents[a])
    ensures LockOk(s')
  {
    CountMove(s.agents, Inside, a, pc);
    CountMove(s.agents, Growing, a, pc);
  }

  /** Nobody grows the table while an agent is inside an operation. */
  lemma NobodyGrows(s: Hash, a: nat)
    requires LockOk(s) && a in s.agents && Inside(s.agents[a])
    ensures forall g <- s.agents :: !Growing(s.agents[g])
  {
    CountWitness(s.agents, Inside, a);
    forall g <- s.agents
      ensures !Growing(s.agents[g])
    {
      if Growing(s.agents[g]) { CountWitness(s.agents, Growing, g); }
    }
  }

  /** Nobody is inside an operation while an agent grows the table. */
  lemma NobodyInside(s: Hash, g: nat)
    requires LockOk(s) && g in s.agents && Growing(s.agents[g])
    ensures forall a <- s.agents :: !Inside(s.agents[a])
    ensures forall a <- s.agents :: Growing(s.agents[a]) ==> a == g
    ensures s.lock == WRITE
  {
    CountWitness(s.agents, Growing, g);
    forall a <- s.agents
      ensures !Inside(s.agents[a]) && (Growing(s.agents[a]) ==> a == g)
    {
      CountZero(s.agents, Inside, a);
      if Growing(s.agents[a]) && a != g { CountTwo(s.agents, Growing, a, g); }
    }
  }

  lemma LiveMove(bs: seq<B>, b: nat, x: B)
    requires b < |bs|
    ensures Live(bs[b := x]) == Live(bs) + Ind(x.state.Filled? || x.state.Predestructing?)
                                - Ind(bs[b].state.Filled? || bs[b].state.Predestructing?)
  {
    var rest := LiveSet(bs) - {b};
    assert LiveSet(bs) == rest + if bs[b].state.Filled? || bs[b].state.Predestructing? then {b} else {};
    assert LiveSet(bs[b := x]) == rest + if x.state.Filled? || x.state.Predestructing? then {b} else {};
  }

  /** A pinned bucket has a positive reference count. */
  lemma PinCounted(h: Hashing<nat>, s: Hash, a: nat, b: nat)
    requires Inv(h, s) && a in s.agents && PinOf(s.agents[a]) == Some(b)
    ensures b < |s.buckets| && s.buckets[b].refcount >= 1
    ensures s.buckets[b].state.Filled? || s.buckets[b].state.Predestructing?
    ensures s.buckets[b].slot.Pair?
  {
    hide Owns, LockOk, GrownOk, LoadOk, TallyOf, NotesOk, FoundKey;
    assert AgentOk(s, s.agents[a]);
    TallyShare(s, a, b);
    assert BucketOk(s.buckets[b], TallyOf(s, b));
  }

  /** One bucket and one agent change together. */
  ghost predicate Legal(h: Hashing<nat>, s: Hash, a: nat, pc: PC, b: nat, x: B) {
    && Inv(h, s) && a in s.agents && b < |s.buckets|
    && var was, prior := s.agents[a], s.buckets[b];
    && Inside(pc) == Inside(was) && !Growing(pc) && !Growing(was)
    && (forall c: nat | c != b :: Share(pc, c) == Share(was, c))
    && BucketOk(x, Plus(TallyOf(s, b), Share(pc, b), Share(was, b)))
    && AgentOk(Put(s, b, x), pc)
    && (x.slot != prior.slot ==> prior.refcount == 0)
    && (Inside(pc) || (x.state == prior.state && x.refcount <= prior.refcount))
    && Ind(x.state.Filled? || x.state.Predestructing?) + Ind(Publishing(pc)) - Ind(Burying(pc))
       == Ind(prior.state.Filled? || prior.state.Predestructing?) + Ind(Publishing(was)) - Ind(Burying(was))
  }

  lemma LegalBuckets(h: Hashing<nat>, s: Hash, a: nat, pc: PC, b: nat, x: B)
    requires Legal(h, s, a, pc, b, x)
    ensures var s' := Goto(Put(s, b, x), a, pc);
            forall c: nat | c < |s'.buckets| :: BucketOk(s'.buckets[c], TallyOf(s', c))
  {
    var s' := Goto(Put(s, b, x), a, pc);
    forall c: nat | c < |s'.buckets|
      ensures BucketOk(s'.buckets[c], TallyOf(s', c))
    {
      TallyMove(s, a, pc, c);
      assert TallyOf(s', c) == TallyOf(Goto(s, a, pc), c);
      assert BucketOk(s.buckets[c], TallyOf(s, c));
    }
  }

  /** What an agent remembers survives a change elsewhere. */
  lemma StillOk(s: Hash, s': Hash, pc: PC)
    requires AgentOk(s, pc) && |s'.buckets| == |s.buckets| && s'.generation == s.generation
    requires FoundKey(pc).Pair? ==> s'.buckets[FoundKey(pc).value].slot == s.buckets[FoundKey(pc).value].slot
    requires Growing(pc) ==> forall l: nat | l < |s.buckets| ::
                s'.buckets[l].state == s.buckets[l].state && s'.buckets[l].refcount <= s.buckets[l].refcount
    ensures AgentOk(s', pc)
  {
  }

  lemma FoundPinned(pc: PC)
    requires FoundKey(pc).Pair?
    ensures PinOf(pc) == Some(FoundKey(pc).value)
  {
  }

  lemma LegalAgents(h: Hashing<nat>, s: Hash, a: nat, pc: PC, b: nat, x: B)
    requires Legal(h, s, a, pc, b, x)
    ensures var s' := Goto(Put(s, b, x), a, pc);
            forall o <- s'.agents :: AgentOk(s', s'.agents[o])
  {
    hide AgentOk, BucketOk, Share, PinOf, ClaimOf, MarkOf, FoundKey, Inside, Growing, Publishing, Burying;
    var s' := Goto(Put(s, b, x), a, pc);
    StillOk(Put(s, b, x), s', pc);
    if Inside(pc) { NobodyGrows(s, a); }
    forall o <- s'.agents | o != a
      ensures AgentOk(s', s.agents[o])
    {
      if FoundKey(s.agents[o]).Pair? {
        FoundPinned(s.agents[o]);
        PinCounted(h, s, o, FoundKey(s.agents[o]).value);
      }
      StillOk(s, s', s.agents[o]);
    }
  }

  lemma LegalRest(h: Hashing<nat>, s: Hash, a: nat, pc: PC, b: nat, x: B)
    requires Legal(h, s, a, pc, b, x)
    ensures var s' := Goto(Put(s, b, x), a, pc);
            LockOk(s') && GrownOk(s') && LoadOk(s')
  {
    hide Owns, AgentOk, BucketOk, TallyOf, Share, Inside;
    var s' := Goto(Put(s, b, x), a, pc);
    LockKept(s, s', a, pc);
    LiveMove(s.buckets, b, x);
    CountMove(s.agents, Publishing, a, pc);
    CountMove(s.agents, Burying, a, pc);
    forall g <- s.agents
      ensures g in s'.agents && Growing(s.agents[g]) == Growing(s'.agents[g])
              && s.agents[g].GrowLeave? == s'.agents[g].GrowLeave?
    {
    }
    if s.grown != [] {
      var g :| g in s.agents && Growing(s.agents[g]) && !s.agents[g].GrowLeave?;
      assert g in s'.agents && Growing(s'.agents[g]) && !s'.agents[g].GrowLeave?;
      NobodyInside(s, g);
    }
  }

  lemma LegalKeeps(h: Hashing<nat>, s: Hash, a: nat, pc: PC, b: nat, x: B)
    requires Legal(h, s, a, pc, b, x)
    ensures Inv(h, Goto(Put(s, b, x), a, pc))
  {
    LegalBuckets(h, s, a, pc, b, x);
    LegalAgents(h, s, a, pc, b, x);
    LegalRest(h, s, a, pc, b, x);
  }

  /** The two program counters own the same things. */
  predicate SameShare(pc: PC, was: PC) { Owns(pc) == Owns(was) }

  /** The two program counters hold the same table lock and stand at the same side of the load counter. */
  predicate SameSide(pc: PC, was: PC) {
    && Inside(pc) == Inside(was) && Growing(pc) == Growing(was) && pc.GrowLeave? == was.GrowLeave?
    && Publishing(pc) == Publishing(was) && Burying(pc) == Burying(was)
  }

  lemma BucketsKept(h: Hashing<nat>, s: Hash, a: nat, pc: PC)
    requires Inv(h, s) && a in s.agents && SameShare(pc, s.agents[a])
    ensures forall b: nat | b < |s.buckets| :: BucketOk(s.buckets[b], TallyOf(Goto(s, a, pc), b))
  {
    hide Owns, AgentOk, BucketOk, LockOk, GrownOk, LoadOk, TallyOf;
    forall b: nat | b < |s.buckets|
      ensures BucketOk(s.buckets[b], TallyOf(Goto(s, a, pc), b))
    {
      TallyMove(s, a, pc, b);
      assert Share(pc, b) == Share(s.agents[a], b);
      assert BucketOk(s.buckets[b], TallyOf(s, b));
    }
  }

  /** An agent moves and nothing else changes. */
  lemma SilentKeeps(h: Hashing<nat>, s: Hash, a: nat, pc: PC)
    requires Inv(h, s) && a in s.agents && SameShare(pc, s.agents[a]) && SameSide(pc, s.agents[a])
    requires AgentOk(s, pc)
    ensures Inv(h, Goto(s, a, pc))
  {
    hide AgentOk, BucketOk, SameShare, Inside, Growing, Publishing, Burying, FoundKey;
    var s' := Goto(s, a, pc);
    LockKept(s, s', a, pc);
    CountMove(s.agents, Publishing, a, pc);
    CountMove(s.agents, Burying, a, pc);
    BucketsKept(h, s, a, pc);
    StillOk(s, s', pc);
    forall o <- s'.agents | o != a
      ensures AgentOk(s', s.agents[o])
    {
      StillOk(s, s', s.agents[o]);
    }
    GrowersSame(s, s', a, pc);
  }

  lemma GrowersSame(s: Hash, s': Hash, a: nat, pc: PC)
    requires a in s.agents && s'.agents == s.agents[a := pc] && GrownOk(s)
    requires s'.grown == s.grown && s'.buckets == s.buckets
    requires (Growing(pc) && !pc.GrowLeave?) == (Growing(s.agents[a]) && !s.agents[a].GrowLeave?)
    ensures GrownOk(s')
  {
    if s.grown != [] {
      var g :| g in s.agents && Growing(s.agents[g]) && !s.agents[g].GrowLeave?;
      assert g in s'.agents && Growing(s'.agents[g]) && !s'.agents[g].GrowLeave?;
    } else {
      forall g <- s'.agents
        ensures !(Growing(s'.agents[g]) && !s'.agents[g].GrowLeave?)
      {
        assert g in s.agents;
      }
    }
  }

  // ---------- Inserts ----------

  /** What the invariant says about one bucket and about one agent. */
  lemma Look(h: Hashing<nat>, s: Hash, a: nat, b: nat)
    requires Inv(h, s) && a in s.agents && b < |s.buckets|
    ensures AgentOk(s, s.agents[a]) && BucketOk(s.buckets[b], TallyOf(s, b))
    ensures Covers(TallyOf(s, b), Share(s.agents[a], b))
  {
    TallyShare(s, a, b);
  }

  lemma Remembers(h: Hashing<nat>, s: Hash, a: nat)
    requires Inv(h, s) && a in s.agents
    ensures AgentOk(s, s.agents[a])
  {
  }

  // ----- One pin or one mark comes or goes -----

  /** The agent owns something else now, and nothing that the lock or the load counts. */
  predicate Trades(s: Hash, was: PC, pc: PC, now: Own) {
    && Owns(pc) == now && Inside(pc) == Inside(was) && !Growing(pc) && !Growing(was)
    && !Publishing(pc) && !Publishing(was) && !Burying(pc) && !Burying(was) && AgentOk(s, pc)
  }

  lemma TradesOk(s: Hash, was: PC, pc: PC, now: Own, b: nat, x: B)
    requires Trades(s, was, pc, now) && b < |s.buckets| && x.slot == s.buckets[b].slot
    ensures AgentOk(Put(s, b, x), pc)
  {
    assert FoundKey(pc).Pair? ==> FoundKey(pc).value < |s.buckets|;
    hide AgentOk;
    StillOk(s, Put(s, b, x), pc);
  }

  /** A pin goes. */
  lemma UnpinKeeps(h: Hashing<nat>, s: Hash, a: nat, pc: PC, b: nat)
    requires Inv(h, s) && a in s.agents && Owns(s.agents[a]).pin == Some(b)
    requires Trades(s, s.agents[a], pc, Owns(s.agents[a]).(pin := None))
    ensures b < |s.buckets| && s.buckets[b].refcount >= 1
    ensures Inv(h, Goto(Put(s, b, s.buckets[b].(refcount := s.buckets[b].refcount - 1)), a, pc))
  {
    hide Inv, TallyOf, LockOk, GrownOk, LoadOk, AgentOk, Owns, Inside, Growing;
    PinCounted(h, s, a, b);
    Look(h, s, a, b);
    var x := s.buckets[b].(refcount := s.buckets[b].refcount - 1);
    TradesOk(s, s.agents[a], pc, Owns(s.agents[a]).(pin := None), b, x);
    LegalKeeps(h, s, a, pc, b, x);
  }

  /** A filled bucket is pinned. */
  lemma PinKeeps(h: Hashing<nat>, s: Hash, a: nat, pc: PC, b: nat)
    requires Inv(h, s) && a in s.agents && Owns(s.agents[a]).pin == None && b < |s.buckets|
    requires s.buckets[b].state.Filled? && Inside(s.agents[a])
    requires Trades(s, s.agents[a], pc, Owns(s.agents[a]).(pin := Some(b)))
    ensures Inv(h, Goto(Put(s, b, s.buckets[b].(refcount := s.buckets[b].refcount + 1)), a, pc))
  {
    hide Inv, TallyOf, LockOk, GrownOk, LoadOk, AgentOk, Owns, Inside, Growing;
    Look(h, s, a, b);
    var x := s.buckets[b].(refcount := s.buckets[b].refcount + 1);
    TradesOk(s, s.agents[a], pc, Owns(s.agents[a]).(pin := Some(b)), b, x);
    LegalKeeps(h, s, a, pc, b, x);
  }

  /** A filled bucket is marked for removal, with a pin of the remover's own. */
  lemma MarkKeeps(h: Hashing<nat>, s: Hash, a: nat, pc: PC, b: nat)
    requires Inv(h, s) && a in s.agents && Owns(s.agents[a]) == NOTHING && b < |s.buckets|
    requires s.buckets[b].state.Filled? && Inside(s.agents[a])
    requires Trades(s, s.agents[a], pc, NOTHING.(pin := Some(b), mark := Some(b)))
    ensures Inv(h, Goto(Put(s, b, Bucket(s.buckets[b].refcount + 1, Predestructing, s.buckets[b].slot)), a, pc))
  {
    hide Inv, TallyOf, LockOk, GrownOk, LoadOk, AgentOk, Owns, Inside, Growing;
    Look(h, s, a, b);
    var x := Bucket(s.buckets[b].refcount + 1, Predestructing, s.buckets[b].slot);
    TradesOk(s, s.agents[a], pc, NOTHING.(pin := Some(b), mark := Some(b)), b, x);
    LegalKeeps(h, s, a, pc, b, x);
  }

  /** The remover takes mark and pin back. */
  lemma UnmarkKeeps(h: Hashing<nat>, s: Hash, a: nat, pc: PC, b: nat)
    requires Inv(h, s) && a in s.agents && Owns(s.agents[a]) == NOTHING.(pin := Some(b), mark := Some(b))
    requires Inside(s.agents[a]) && Trades(s, s.agents[a], pc, NOTHING)
    ensures b < |s.buckets| && s.buckets[b].refcount >= 1 && s.buckets[b].state.Predestructing?
    ensures Inv(h, Goto(Put(s, b, Bucket(s.buckets[b].refcount - 1, Filled, s.buckets[b].slot)), a, pc))
  {
    hide Inv, TallyOf, LockOk, GrownOk, LoadOk, AgentOk, Owns, Inside, Growing;
    PinCounted(h, s, a, b);
    Look(h, s, a, b);
    var x := Bucket(s.buckets[b].refcount - 1, Filled, s.buckets[b].slot);
    TradesOk(s, s.agents[a], pc, NOTHING, b, x);
    LegalKeeps(h, s, a, pc, b, x);
  }

  /** The remover gives up its own pin, and nobody else has one. */
  lemma DrainKeeps(h: Hashing<nat>, s: Hash, a: nat, pc: PC, b: nat)
    requires Inv(h, s) && a in s.agents && Owns(s.agents[a]) == NOTHING.(pin := Some(b), mark := Some(b))
    requires Inside(s.agents[a]) && Trades(s, s.agents[a], pc, NOTHING.(mark := Some(b), drained := true))
    requires b < |s.buckets| && s.buckets[b].refcount <= 1
    ensures s.buckets[b].refcount == 1 && s.buckets[b].state.Predestructing?
    ensures Inv(h, Goto(Put(s, b, s.buckets[b].(refcount := 0)), a, pc))
  {
    hide Inv, TallyOf, LockOk, GrownOk, LoadOk, AgentOk, Owns, Inside, Growing;
    PinCounted(h, s, a, b);
    Look(h, s, a, b);
    var x := s.buckets[b].(refcount := 0);
    TradesOk(s, s.agents[a], pc, NOTHING.(mark := Some(b), drained := true), b, x);
    LegalKeeps(h, s, a, pc, b, x);
  }

  lemma InsPinKeeps(h: Hashing<nat>, s: Hash, a: nat)
    requires Inv(h, s) && a in s.agents && s.agents[a].InsPin?
    ensures Inv(h, InsertStep(h, s, a, s.agents[a]))
  {
    hide Inv, TallyOf, LockOk, GrownOk, LoadOk;
    var InsPin(k, v, at, claim, b, seen) := s.agents[a];
    Remembers(h, s, a);
    if WordAt(s, b) == seen {
      PinKeeps(h, s, a, InsCompare(k, v, at, claim, b), b);
    } else {
      SilentKeeps(h, s, a, InsertStep(h, s, a, s.agents[a]).agents[a]);
    }
  }

  lemma InsUnpinKeeps(h: Hashing<nat>, s: Hash, a: nat)
    requires Inv(h, s) && a in s.agents && s.agents[a].InsUnpinCas?
    ensures Inv(h, InsertStep(h, s, a, s.agents[a]))
  {
    hide Inv, TallyOf, LockOk, GrownOk, LoadOk;
    var InsUnpinCas(k, v, at, claim, b, same, seen) := s.agents[a];
    Remembers(h, s, a);
    var s' := InsertStep(h, s, a, s.agents[a]);
    if WordAt(s, b) == seen {
      UnpinKeeps(h, s, a, s'.agents[a], b);
    } else {
      SilentKeeps(h, s, a, InsUnpin(k, v, at, claim, b, same));
    }
  }

  lemma InsTombKeeps(h: Hashing<nat>, s: Hash, a: nat)
    requires Inv(h, s) && a in s.agents && s.agents[a].InsTombCas?
    ensures Inv(h, InsertStep(h, s, a, s.agents[a]))
  {
    hide Inv, TallyOf, LockOk, GrownOk, LoadOk;
    var InsTombCas(k, v, at, b, seen) := s.agents[a];
    Remembers(h, s, a);
    Look(h, s, a, b);
    if WordAt(s, b) == seen {
      LegalKeeps(h, s, a, InsAt(k, v, at + 1, Some(b)), b, Bucket(0, Constructing, s.buckets[b].slot));
    } else {
      SilentKeeps(h, s, a, InsTomb(k, v, at, b));
    }
  }

  lemma InsAtKeeps(h: Hashing<nat>, s: Hash, a: nat)
    requires Inv(h, s) && a in s.agents && s.agents[a].InsAt?
    ensures Inv(h, InsertStep(h, s, a, s.agents[a]))
  {
    hide Inv, TallyOf, LockOk, GrownOk, LoadOk;
    var InsAt(k, v, at, claim) := s.agents[a];
    Remembers(h, s, a);
    var b := BucketOf(h, s, k, at);
    if at < |s.buckets| && claim.None? && WordAt(s, b) == Word(0, Empty) {
      InsAtClaims(h, s, a, b);
    } else {
      if at < |s.buckets| { Look(h, s, a, b); }
      InsAtMoves(h, s, a);
    }
  }

  lemma InsAtClaims(h: Hashing<nat>, s: Hash, a: nat, b: nat)
    requires Inv(h, s) && a in s.agents && s.agents[a].InsAt? && s.agents[a].claim.None?
    requires b < |s.buckets| && WordAt(s, b) == Word(0, Empty)
    ensures Inv(h, Goto(SetWord(s, b, Word(0, Constructing)), a, InsBuild(s.agents[a].key, s.agents[a].value, b)))
  {
    hide Inv, TallyOf, LockOk, GrownOk, LoadOk;
    var InsAt(k, v, at, claim) := s.agents[a];
    Look(h, s, a, b);
    LegalKeeps(h, s, a, InsBuild(k, v, b), b, Bucket(0, Constructing, s.buckets[b].slot));
  }

  lemma InsAtMoves(h: Hashing<nat>, s: Hash, a: nat)
    requires Inv(h, s) && a in s.agents && s.agents[a].InsAt?
    requires var InsAt(k, v, at, claim) := s.agents[a];
             at < |s.buckets| && claim.None? ==> var w := WordAt(s, BucketOf(h, s, k, at));
                                                 w.state.Empty? ==> false
    ensures Inv(h, InsertStep(h, s, a, s.agents[a]))
  {
    hide Inv, TallyOf, LockOk, GrownOk, LoadOk;
    var InsAt(k, v, at, claim) := s.agents[a];
    Remembers(h, s, a);
    var pc := InsertStep(h, s, a, s.agents[a]).agents[a];
    assert SameShare(pc, s.agents[a]) && SameSide(pc, s.agents[a]) && AgentOk(s, pc);
    SilentKeeps(h, s, a, pc);
  }

  lemma InsAbortKeeps(h: Hashing<nat>, s: Hash, a: nat)
    requires Inv(h, s) && a in s.agents && s.agents[a].InsAbort?
    ensures Inv(h, InsertStep(h, s, a, s.agents[a]))
  {
    hide Inv, TallyOf, LockOk, GrownOk, LoadOk;
    Remembers(h, s, a);
    var InsAbort(c) := s.agents[a];
    Look(h, s, a, c);
    LegalKeeps(h, s, a, Leave, c, Bucket(0, Tombstone, s.buckets[c].slot));
  }

  lemma InsBuildKeeps(h: Hashing<nat>, s: Hash, a: nat)
    requires Inv(h, s) && a in s.agents && s.agents[a].InsBuild?
    ensures Inv(h, InsertStep(h, s, a, s.agents[a]))
  {
    hide Inv, TallyOf, LockOk, GrownOk, LoadOk;
    Remembers(h, s, a);
    var InsBuild(k, v, c) := s.agents[a];
    Look(h, s, a, c);
    LegalKeeps(h, s, a, InsCount(c), c, s.buckets[c].(slot := Pair(k, v)));
  }

  lemma InsPublishKeeps(h: Hashing<nat>, s: Hash, a: nat)
    requires Inv(h, s) && a in s.agents && s.agents[a].InsPublish?
    ensures Inv(h, InsertStep(h, s, a, s.agents[a]))
  {
    hide Inv, TallyOf, LockOk, GrownOk, LoadOk;
    Remembers(h, s, a);
    var InsPublish(c) := s.agents[a];
    Look(h, s, a, c);
    LegalKeeps(h, s, a, Leave, c, Bucket(0, Filled, s.buckets[c].slot));
  }

  /** The load counter and the agent move together. */
  lemma CountKeeps(h: Hashing<nat>, s: Hash, a: nat, pc: PC, load: int)
    requires Inv(h, s) && a in s.agents && SameShare(pc, s.agents[a]) && AgentOk(s, pc)
    requires Inside(pc) && Inside(s.agents[a]) && !Growing(pc) && !Growing(s.agents[a])
    requires load == s.load + Ind(Publishing(pc)) - Ind(Publishing(s.agents[a]))
                            - Ind(Burying(pc)) + Ind(Burying(s.agents[a]))
    ensures Inv(h, Goto(s.(load := load), a, pc))
  {
    hide AgentOk, BucketOk, SameShare, Inside, Growing;
    var s' := Goto(s.(load := load), a, pc);
    LockKept(s, s', a, pc);
    CountMove(s.agents, Publishing, a, pc);
    CountMove(s.agents, Burying, a, pc);
    BucketsKept(h, s, a, pc);
    forall b: nat | b < |s.buckets|
      ensures BucketOk(s'.buckets[b], TallyOf(s', b))
    {
      assert TallyOf(s', b) == TallyOf(Goto(s, a, pc), b);
    }
    forall o <- s'.agents
      ensures AgentOk(s', s'.agents[o])
    {
      LoadUnseen(s, s', s'.agents[o]);
    }
    GrowersSame(s, s', a, pc);
  }

  lemma LoadUnseen(s: Hash, s': Hash, pc: PC)
    requires AgentOk(s, pc) && s'.buckets == s.buckets && s'.generation == s.generation
    ensures AgentOk(s', pc)
  {
  }

  lemma InsCountKeeps(h: Hashing<nat>, s: Hash, a: nat)
    requires Inv(h, s) && a in s.agents && s.agents[a].InsCount?
    ensures Inv(h, InsertStep(h, s, a, s.agents[a]))
  {
    hide Inv;
    Remembers(h, s, a);
    CountKeeps(h, s, a, InsPublish(s.agents[a].c), s.load + 1);
  }

  lemma InsLocalKeeps(h: Hashing<nat>, s: Hash, a: nat)
    requires Inv(h, s) && a in s.agents
    requires var pc := s.agents[a]; pc.InsLoad? || pc.InsCompare? || pc.InsUnpin? || pc.InsTomb?
    ensures Inv(h, InsertStep(h, s, a, s.agents[a]))
  {
    hide Inv, TallyOf, LockOk, GrownOk, LoadOk;
    Remembers(h, s, a);
    SilentKeeps(h, s, a, InsertStep(h, s, a, s.agents[a]).agents[a]);
  }

  lemma InsertKeeps(h: Hashing<nat>, s: Hash, a: nat)
    requires Inv(h, s) && a in s.agents && InInsert(s.agents[a])
    ensures Inv(h, InsertStep(h, s, a, s.agents[a]))
  {
    hide Inv, InsertStep;
    match s.agents[a] {
      case InsAt(_, _, _, _) => InsAtKeeps(h, s, a);
      case InsPin(_, _, _, _, _, _) => InsPinKeeps(h, s, a);
      case InsUnpinCas(_, _, _, _, _, _, _) => InsUnpinKeeps(h, s, a);
      case InsTombCas(_, _, _, _, _) => InsTombKeeps(h, s, a);
      case InsAbort(_) => InsAbortKeeps(h, s, a);
      case InsBuild(_, _, _) => InsBuildKeeps(h, s, a);
      case InsPublish(_) => InsPublishKeeps(h, s, a);
      case InsCount(_) => InsCountKeeps(h, s, a);
      case InsUnreachable => Stays(h, s, a);
      case _ => InsLocalKeeps(h, s, a);
    }
  }

  lemma Stays(h: Hashing<nat>, s: Hash, a: nat)
    requires a in s.agents && s.agents[a].InsUnreachable?
    ensures InsertStep(h, s, a, s.agents[a]) == s
  {
  }

  // ---------- Removes ----------

  lemma RemMarks(h: Hashing<nat>, s: Hash, a: nat, b: nat)
    requires Inv(h, s) && a in s.agents && s.agents[a].RemAt?
    requires b < |s.buckets| && WordAt(s, b) == Word(0, Filled)
    ensures Inv(h, Goto(SetWord(s, b, Word(1, Predestructing)), a, RemCompare(s.agents[a].key, s.agents[a].at, b)))
  {
    hide Inv, TallyOf, LockOk, GrownOk, LoadOk;
    Remembers(h, s, a);
    MarkKeeps(h, s, a, RemCompare(s.agents[a].key, s.agents[a].at, b), b);
  }

  lemma RemAtKeeps(h: Hashing<nat>, s: Hash, a: nat)
    requires Inv(h, s) && a in s.agents && s.agents[a].RemAt?
    ensures Inv(h, RemoveStep(h, s, a, s.agents[a]))
  {
    hide Inv, TallyOf, LockOk, GrownOk, LoadOk;
    Remembers(h, s, a);
    var RemAt(k, at) := s.agents[a];
    var b := BucketOf(h, s, k, at);
    if at < |s.buckets| && WordAt(s, b) == Word(0, Filled) {
      RemMarks(h, s, a, b);
    } else {
      SilentKeeps(h, s, a, RemoveStep(h, s, a, s.agents[a]).agents[a]);
    }
  }

  lemma RemSpinKeeps(h: Hashing<nat>, s: Hash, a: nat)
    requires Inv(h, s) && a in s.agents && s.agents[a].RemSpinCas?
    ensures Inv(h, RemoveStep(h, s, a, s.agents[a]))
  {
    hide Inv, TallyOf, LockOk, GrownOk, LoadOk;
    Remembers(h, s, a);
    var RemSpinCas(k, at, b, seen) := s.agents[a];
    if WordAt(s, b) == seen {
      MarkKeeps(h, s, a, RemCompare(k, at, b), b);
    } else {
      SilentKeeps(h, s, a, RemSpin(k, at, b));
    }
  }

  lemma RemBackKeeps(h: Hashing<nat>, s: Hash, a: nat)
    requires Inv(h, s) && a in s.agents && s.agents[a].RemBackCas?
    ensures Inv(h, RemoveStep(h, s, a, s.agents[a]))
  {
    hide Inv, TallyOf, LockOk, GrownOk, LoadOk;
    Remembers(h, s, a);
    var RemBackCas(k, at, b, seen) := s.agents[a];
    if WordAt(s, b) == seen {
      UnmarkKeeps(h, s, a, RemAt(k, at + 1), b);
    } else {
      SilentKeeps(h, s, a, RemBack(k, at, b));
    }
  }

  lemma RemGiveKeeps(h: Hashing<nat>, s: Hash, a: nat)
    requires Inv(h, s) && a in s.agents && s.agents[a].RemGiveCas?
    ensures Inv(h, RemoveStep(h, s, a, s.agents[a]))
  {
    hide Inv, TallyOf, LockOk, GrownOk, LoadOk;
    Remembers(h, s, a);
    var RemGiveCas(b, seen) := s.agents[a];
    if WordAt(s, b) == seen {
      UnmarkKeeps(h, s, a, Leave, b);
    } else {
      SilentKeeps(h, s, a, RemGive(b));
    }
  }

  lemma RemDrainKeeps(h: Hashing<nat>, s: Hash, a: nat)
    requires Inv(h, s) && a in s.agents && s.agents[a].RemDrainCas?
    ensures Inv(h, RemoveStep(h, s, a, s.agents[a]))
  {
    hide Inv, TallyOf, LockOk, GrownOk, LoadOk;
    Remembers(h, s, a);
    var RemDrainCas(b, seen) := s.agents[a];
    if WordAt(s, b) == seen {
      DrainKeeps(h, s, a, RemErase(b), b);
    } else {
      SilentKeeps(h, s, a, RemDrain(b));
    }
  }

  lemma RemEraseKeeps(h: Hashing<nat>, s: Hash, a: nat)
    requires Inv(h, s) && a in s.agents && s.agents[a].RemErase?
    ensures Inv(h, RemoveStep(h, s, a, s.agents[a]))
  {
    hide Inv, TallyOf, LockOk, GrownOk, LoadOk;
    Remembers(h, s, a);
    var RemErase(b) := s.agents[a];
    Look(h, s, a, b);
    LegalKeeps(h, s, a, RemCount(b), b, s.buckets[b].(slot := Raw));
  }

  lemma RemBuryKeeps(h: Hashing<nat>, s: Hash, a: nat)
    requires Inv(h, s) && a in s.agents && s.agents[a].RemBury?
    ensures Inv(h, RemoveStep(h, s, a, s.agents[a]))
  {
    hide Inv, TallyOf, LockOk, GrownOk, LoadOk;
    Remembers(h, s, a);
    var RemBury(b) := s.agents[a];
    Look(h, s, a, b);
    LegalKeeps(h, s, a, Leave, b, Bucket(0, Tombstone, s.buckets[b].slot));
  }

  lemma RemCountKeeps(h: Hashing<nat>, s: Hash, a: nat)
    requires Inv(h, s) && a in s.agents && s.agents[a].RemCount?
    ensures Inv(h, RemoveStep(h, s, a, s.agents[a]))
  {
    hide Inv;
    Remembers(h, s, a);
    CountKeeps(h, s, a, RemBury(s.agents[a].b), s.load - 1);
  }

  lemma RemLocalKeeps(h: Hashing<nat>, s: Hash, a: nat)
    requires Inv(h, s) && a in s.agents
    requires var pc := s.agents[a];
             pc.RemSpin? || pc.RemCompare? || pc.RemBack? || pc.RemCheck? || pc.RemDrain? || pc.RemGive?
    ensures Inv(h, RemoveStep(h, s, a, s.agents[a]))
  {
    hide Inv, TallyOf, LockOk, GrownOk, LoadOk;
    Remembers(h, s, a);
    SilentKeeps(h, s, a, RemoveStep(h, s, a, s.agents[a]).agents[a]);
  }

  lemma RemoveKeeps(h: Hashing<nat>, s: Hash, a: nat)
    requires Inv(h, s) && a in s.agents && InRemove(s.agents[a])
    ensures Inv(h, RemoveStep(h, s, a, s.agents[a]))
  {
    hide Inv, RemoveStep;
    match s.agents[a] {
      case RemAt(_, _) => RemAtKeeps(h, s, a);
      case RemSpinCas(_, _, _, _) => RemSpinKeeps(h, s, a);
      case RemBackCas(_, _, _, _) => RemBackKeeps(h, s, a);
      case RemGiveCas(_, _) => RemGiveKeeps(h, s, a);
      case RemDrainCas(_, _) => RemDrainKeeps(h, s, a);
      case RemErase(_) => RemEraseKeeps(h, s, a);
      case RemBury(_) => RemBuryKeeps(h, s, a);
      case RemCount(_) => RemCountKeeps(h, s, a);
      case _ => RemLocalKeeps(h, s, a);
    }
  }

  // ---------- Lookups and guards ----------

  lemma GetPinKeeps(h: Hashing<nat>, s: Hash, a: nat)
    requires Inv(h, s) && a in s.agents && s.agents[a].GetCas?
    ensures Inv(h, GetStep(h, s, a, s.agents[a]))
  {
    hide Inv, TallyOf, LockOk, GrownOk, LoadOk;
    Remembers(h, s, a);
    var GetCas(k, at, b, seen) := s.agents[a];
    if WordAt(s, b) == seen {
      PinKeeps(h, s, a, GetCompare(k, at, b), b);
    } else {
      SilentKeeps(h, s, a, GetAt(k, at));
    }
  }

  lemma GetUnpinKeeps(h: Hashing<nat>, s: Hash, a: nat)
    requires Inv(h, s) && a in s.agents && s.agents[a].GetUnpinCas?
    ensures Inv(h, GetStep(h, s, a, s.agents[a]))
  {
    hide Inv, TallyOf, LockOk, GrownOk, LoadOk;
    Remembers(h, s, a);
    var GetUnpinCas(k, at, b, seen) := s.agents[a];
    if WordAt(s, b) == seen {
      UnpinKeeps(h, s, a, GetAt(k, at + 1), b);
    } else {
      SilentKeeps(h, s, a, GetUnpin(k, at, b));
    }
  }

  lemma DropKeeps(h: Hashing<nat>, s: Hash, a: nat)
    requires Inv(h, s) && a in s.agents && s.agents[a].DropCas?
    ensures Inv(h, GetStep(h, s, a, s.agents[a]))
  {
    hide Inv, TallyOf, LockOk, GrownOk, LoadOk;
    Remembers(h, s, a);
    var DropCas(k, b, g, seen) := s.agents[a];
    if WordAt(s, b) == seen {
      UnpinKeeps(h, s, a, Done, b);
    } else {
      SilentKeeps(h, s, a, Dropping(k, b, g));
    }
  }

  lemma GetLocalKeeps(h: Hashing<nat>, s: Hash, a: nat)
    requires Inv(h, s) && a in s.agents
    requires var pc := s.agents[a];
             pc.GetAt? || pc.GetCompare? || pc.GetUnpin? || pc.Held? || pc.Dropping?
    ensures Inv(h, GetStep(h, s, a, s.agents[a]))
  {
    hide Inv, TallyOf, LockOk, GrownOk, LoadOk;
    Remembers(h, s, a);
    if !s.agents[a].Held? {
      SilentKeeps(h, s, a, GetStep(h, s, a, s.agents[a]).agents[a]);
    }
  }

  // ---------- The table lock ----------

  /** An agent takes or releases the table lock and keeps what else it owns. */
  lemma LockMoves(h: Hashing<nat>, s: Hash, a: nat, pc: PC, lock: nat)
    requires Inv(h, s) && a in s.agents && SameShare(pc, s.agents[a]) && AgentOk(s, pc)
    requires Growing(pc) == Growing(s.agents[a]) == false
    requires Publishing(pc) == Publishing(s.agents[a]) == Burying(pc) == Burying(s.agents[a]) == false
    requires LockOk(Goto(s.(lock := lock), a, pc))
    ensures Inv(h, Goto(s.(lock := lock), a, pc))
  {
    hide AgentOk, BucketOk, SameShare, Inside, Growing;
    var s' := Goto(s.(lock := lock), a, pc);
    CountMove(s.agents, Publishing, a, pc);
    CountMove(s.agents, Burying, a, pc);
    BucketsKept(h, s, a, pc);
    forall b: nat | b < |s.buckets|
      ensures BucketOk(s'.buckets[b], TallyOf(s', b))
    {
      assert TallyOf(s', b) == TallyOf(Goto(s, a, pc), b);
    }
    forall o <- s'.agents
      ensures AgentOk(s', s'.agents[o])
    {
      LoadUnseen(s, s', s'.agents[o]);
    }
    GrowersSame(s, s', a, pc);
  }

  lemma EnterLock(s: Hash, a: nat, pc: PC)
    requires LockOk(s) && a in s.agents && s.lock < WRITE_WILLING
    requires !Inside(s.agents[a]) && Inside(pc) && !Growing(pc) && !Growing(s.agents[a])
    ensures LockOk(Goto(s.(lock := s.lock + 1), a, pc))
  {
    hide Inside, Growing;
    CountMove(s.agents, Inside, a, pc);
    CountMove(s.agents, Growing, a, pc);
  }

  lemma LeaveLock(s: Hash, a: nat, pc: PC)
    requires LockOk(s) && a in s.agents
    requires Inside(s.agents[a]) && !Inside(pc) && !Growing(pc) && !Growing(s.agents[a])
    ensures LockOk(Goto(s.(lock := (s.lock + WORD - 1) % WORD), a, pc))
  {
    hide Inside, Growing;
    CountMove(s.agents, Inside, a, pc);
    CountMove(s.agents, Growing, a, pc);
    CountWitness(s.agents, Inside, a);
    assert s.lock == Count(s.agents, Inside);
  }

  lemma EnterKeeps(h: Hashing<nat>, s: Hash, a: nat)
    requires Inv(h, s) && a in s.agents && s.agents[a].Enter?
    ensures Inv(h, LockStep(s, a, s.agents[a]))
  {
    hide Inv, TallyOf, LockOk, GrownOk, LoadOk;
    Remembers(h, s, a);
    SilentKeeps(h, s, a, LockStep(s, a, s.agents[a]).agents[a]);
  }

  lemma EnterCasKeeps(h: Hashing<nat>, s: Hash, a: nat)
    requires Inv(h, s) && a in s.agents && s.agents[a].EnterCas?
    ensures Inv(h, LockStep(s, a, s.agents[a]))
  {
    hide Inv, TallyOf, LockOk, GrownOk, LoadOk;
    Remembers(h, s, a);
    LockIsOk(h, s);
    var EnterCas(op, seen) := s.agents[a];
    if s.lock == seen {
      EnterLock(s, a, First(op));
      LockMoves(h, s, a, First(op), seen + 1);
    } else {
      SilentKeeps(h, s, a, Enter(op));
    }
  }

  lemma LeaveKeeps(h: Hashing<nat>, s: Hash, a: nat)
    requires Inv(h, s) && a in s.agents && s.agents[a].Leave?
    ensures Inv(h, LockStep(s, a, s.agents[a]))
  {
    hide Inv, TallyOf, LockOk, GrownOk, LoadOk;
    Remembers(h, s, a);
    LockIsOk(h, s);
    LeaveLock(s, a, Done);
    LockMoves(h, s, a, Done, (s.lock + WORD - 1) % WORD);
  }

  /** The table lock goes, the pin stays with the guard. */
  lemma GetHitKeeps(h: Hashing<nat>, s: Hash, a: nat)
    requires Inv(h, s) && a in s.agents && s.agents[a].GetHit?
    ensures Inv(h, GetStep(h, s, a, s.agents[a]))
  {
    hide Inv, TallyOf, LockOk, GrownOk, LoadOk;
    Remembers(h, s, a);
    LockIsOk(h, s);
    var GetHit(k, b) := s.agents[a];
    LeaveLock(s, a, Held(k, b, s.generation));
    LockMoves(h, s, a, Held(k, b, s.generation), (s.lock + WORD - 1) % WORD);
  }

  lemma LockIsOk(h: Hashing<nat>, s: Hash)
    requires Inv(h, s)
    ensures LockOk(s)
  {
  }

  lemma GetKeeps(h: Hashing<nat>, s: Hash, a: nat)
    requires Inv(h, s) && a in s.agents && (InGet(s.agents[a]) || IsGuard(s.agents[a]))
    ensures Inv(h, GetStep(h, s, a, s.agents[a]))
  {
    hide Inv, GetStep;
    match s.agents[a] {
      case GetCas(_, _, _, _) => GetPinKeeps(h, s, a);
      case GetUnpinCas(_, _, _, _) => GetUnpinKeeps(h, s, a);
      case DropCas(_, _, _, _) => DropKeeps(h, s, a);
      case GetHit(_, _) => GetHitKeeps(h, s, a);
      case _ => GetLocalKeeps(h, s, a);
    }
  }

  // ---------- Rehashing ----------

  lemma CountNone(agents: map<nat, PC>, p: PC -> bool)
    requires forall a <- agents :: !p(agents[a])
    ensures Count(agents, p) == 0
  {
    assert Where(agents, p) == {};
  }

  lemma LiveNone(bs: seq<B>)
    requires forall j: nat | j < |bs| :: !bs[j].state.Filled? && !bs[j].state.Predestructing?
    ensures Live(bs) == 0
  {
    assert LiveSet(bs) == {};
  }

  lemma LiveBound(bs: seq<B>)
    ensures FilledCount(bs) <= Live(bs) <= |bs|
  {
    assert Below(|bs|) == LiveSet(bs) + (Below(|bs|) - LiveSet(bs));
    assert LiveSet(bs) == FilledSet(bs) + (LiveSet(bs) - FilledSet(bs));
  }

  /** Owning a bucket other than through a guard happens only inside an operation. */
  lemma OwnersInside(pc: PC)
    ensures ClaimOf(pc).Some? || MarkOf(pc).Some? ==> Inside(pc)
    ensures PinOf(pc).Some? ==> Inside(pc) || IsGuard(pc)
    ensures Growing(pc) ==> !Inside(pc) && PinOf(pc).None?
  {
  }

  /** While the table grows every bucket is empty, filled or a tombstone, and only guards pin. */
  lemma GrowQuiet(h: Hashing<nat>, s: Hash, g: nat)
    requires Inv(h, s) && g in s.agents && Growing(s.agents[g])
    ensures forall a <- s.agents :: !Inside(s.agents[a])
    ensures forall b: nat | b < |s.buckets| :: Settled(s.buckets[b])
    ensures forall b: nat | b < |s.buckets| :: TallyOf(s, b) == Tally(s.buckets[b].refcount, 0, 0, 0, 0, 0)
  {
    hide Inside, Growing, PinOf, ClaimOf, MarkOf, AgentOk, GrownOk, LoadOk;
    NobodyInside(s, g);
    forall b: nat | b < |s.buckets|
      ensures Settled(s.buckets[b]) && TallyOf(s, b) == Tally(s.buckets[b].refcount, 0, 0, 0, 0, 0)
    {
      forall a <- s.agents
        ensures !ClaimingAt(b)(s.agents[a]) && !MarkingAt(b)(s.agents[a])
      {
        OwnersInside(s.agents[a]);
      }
      CountNone(s.agents, ClaimingAt(b));
      CountNone(s.agents, MarkingAt(b));
      assert BucketOk(s.buckets[b], TallyOf(s, b));
    }
  }

  lemma StartLock(s: Hash, s': Hash, a: nat)
    requires LockOk(s) && a in s.agents && s.agents[a].GrowCas? && s.lock == 0
    requires s'.agents == s.agents[a := GrowAt(0)] && s'.lock == WRITE
    ensures LockOk(s')
  {
    CountMove(s.agents, Inside, a, GrowAt(0));
    CountMove(s.agents, Growing, a, GrowAt(0));
  }

  lemma StartRest(s: Hash, s': Hash, a: nat)
    requires a in s.agents && s.agents[a].GrowCas? && LockOk(s) && s.lock == 0 && GrownOk(s) && LoadOk(s)
    requires s' == Goto(s.(lock := WRITE, grown := seq(2 * |s.buckets|, _ => FREE)), a, GrowAt(0)) && |s.buckets| > 0
    ensures GrownOk(s') && LoadOk(s')
  {
    hide LockOk;
    CountMove(s.agents, Publishing, a, GrowAt(0));
    CountMove(s.agents, Burying, a, GrowAt(0));
    LiveNone(s'.grown);
    LiveBound(s.buckets);
    assert s'.agents[a] == GrowAt(0);
    assert s.grown == [] by {
      if s.grown != [] {
        var g :| g in s.agents && Growing(s.agents[g]) && !s.agents[g].GrowLeave?;
        NobodyInside(s, g);
      }
    }
    LiveNone([]);
  }

  /** A rehash starts: the lock word was zero, so nobody is inside. */
  lemma GrowStartKeeps(h: Hashing<nat>, s: Hash, a: nat)
    requires Inv(h, s) && a in s.agents && s.agents[a].GrowCas? && s.lock == 0
    ensures Inv(h, GrowStep(h, s, a, s.agents[a]))
  {
    hide BucketOk, AgentOk, LockOk, GrownOk, LoadOk;
    var s' := Goto(s.(lock := WRITE, grown := seq(2 * |s.buckets|, _ => FREE)), a, GrowAt(0));
    StartLock(s, s', a);
    StartRest(s, s', a);
    BucketsKept(h, s, a, GrowAt(0));
    forall b: nat | b < |s.buckets|
      ensures BucketOk(s'.buckets[b], TallyOf(s', b))
    {
      assert TallyOf(s', b) == TallyOf(Goto(s, a, GrowAt(0)), b);
    }
    StartAgents(s, s', a);
  }

  lemma StartAgents(s: Hash, s': Hash, a: nat)
    requires a in s.agents && s'.agents == s.agents[a := GrowAt(0)]
    requires s'.buckets == s.buckets && s'.generation == s.generation
    requires forall o <- s.agents :: AgentOk(s, s.agents[o])
    ensures forall o <- s'.agents :: AgentOk(s', s'.agents[o])
  {
    hide AgentOk;
    forall o <- s'.agents
      ensures AgentOk(s', s'.agents[o])
    {
      if o != a { LoadUnseen(s, s', s.agents[o]); } else { StartOk(s'); }
    }
  }

  lemma StartOk(s: Hash)
    ensures AgentOk(s, GrowAt(0))
  {
  }

  lemma GrowTryKeeps(h: Hashing<nat>, s: Hash, a: nat)
    requires Inv(h, s) && a in s.agents && (s.agents[a].GrowTry? || (s.agents[a].GrowCas? && s.lock != 0))
    ensures Inv(h, GrowStep(h, s, a, s.agents[a]))
  {
    hide Inv, TallyOf, LockOk, GrownOk, LoadOk;
    var pc := if s.agents[a].GrowTry? && s.lock == 0 then GrowCas else Done;
    assert GrowStep(h, s, a, s.agents[a]) == Goto(s, a, pc);
    hide GrowStep;
    IdleSame(s.agents[a], pc);
    IdleOk(s, pc);
    SilentKeeps(h, s, a, pc);
  }

  lemma IdleSame(was: PC, pc: PC)
    requires (was.GrowTry? || was.GrowCas?) && (pc.GrowCas? || pc.Done?)
    ensures SameShare(pc, was) && SameSide(pc, was)
  {
  }

  lemma IdleOk(s: Hash, pc: PC)
    requires pc.GrowCas? || pc.Done?
    ensures AgentOk(s, pc)
  {
  }

  lemma GrowScanKeeps(h: Hashing<nat>, s: Hash, a: nat)
    requires Inv(h, s) && a in s.agents && s.agents[a].GrowAt? && s.agents[a].j < |s.buckets|
    ensures Inv(h, GrowStep(h, s, a, s.agents[a]))
  {
    hide Inv, TallyOf, LockOk, GrownOk, LoadOk;
    Remembers(h, s, a);
    var j := s.agents[a].j;
    SilentKeeps(h, s, a, if s.buckets[j].state.Filled? then GrowWait(j) else GrowAt(j + 1));
  }

  lemma GrowWaitKeeps(h: Hashing<nat>, s: Hash, a: nat)
    requires Inv(h, s) && a in s.agents && s.agents[a].GrowWait?
    ensures Inv(h, GrowStep(h, s, a, s.agents[a]))
  {
    hide Inv, TallyOf, LockOk, GrownOk, LoadOk;
    Remembers(h, s, a);
    var j := s.agents[a].j;
    SilentKeeps(h, s, a, if s.buckets[j].refcount > 0 then GrowWait(j) else GrowMove(j));
  }

  /** There is always a free place in the new array. */
  lemma PlaceExists(h: Hashing<nat>, s: Hash, a: nat, key: nat)
    requires Inv(h, s) && a in s.agents && (s.agents[a].GrowAt? || s.agents[a].GrowMove?)
    ensures s.grown != [] && |s.grown| == 2 * |s.buckets|
    ensures FreeFrom(h, s.grown, key, 0).Some?
    ensures var free := FreeFrom(h, s.grown, key, 0).value; free < |s.grown| && s.grown[free] == FREE
  {
    hide BucketOk, AgentOk, LockOk, LoadOk, TallyOf;
    var k: nat :| |s.buckets| == Pow2(k);
    assert |s.grown| == Pow2(k + 1);
    LiveBound(s.grown);
    LiveBound(s.buckets);
    assert Live(s.grown) <= |s.buckets| < |s.grown|;
    var i := NotFull(h, k + 1, s.grown, key);
    assert s.grown[Path(h, |s.grown|, key, i)] == FREE;
  }

  /** The move of one pair, as a state. */
  function MoveOne(s: Hash, a: nat, j: nat, free: nat): Hash
    requires j < |s.buckets| && free < |s.grown|
  {
    Goto(s.(buckets := s.buckets[j := Bucket(0, Tombstone, Raw)],
            grown := s.grown[free := Bucket(0, Filled, s.buckets[j].slot)]), a, GrowAt(j + 1))
  }

  lemma GrowerOwnsNothing(pc: PC, b: nat)
    requires Growing(pc)
    ensures Share(pc, b) == Tally(0, 0, 0, 0, 0, 0)
  {
  }

  lemma SameTally(s: Hash, s': Hash, b: nat)
    requires s.agents == s'.agents
    ensures TallyOf(s, b) == TallyOf(s', b)
  {
  }

  lemma MoveBuckets(h: Hashing<nat>, s: Hash, a: nat, free: nat)
    requires Inv(h, s) && a in s.agents && s.agents[a].GrowMove? && free < |s.grown|
    requires s.agents[a].j < |s.buckets| && s.buckets[s.agents[a].j].refcount == 0
    ensures var s' := MoveOne(s, a, s.agents[a].j, free);
            forall b: nat | b < |s'.buckets| :: BucketOk(s'.buckets[b], TallyOf(s', b))
  {
    hide AgentOk, LockOk, GrownOk, LoadOk, TallyOf, Share;
    var j := s.agents[a].j;
    var s' := MoveOne(s, a, j, free);
    GrowQuiet(h, s, a);
    forall b: nat | b < |s'.buckets|
      ensures BucketOk(s'.buckets[b], TallyOf(s', b))
    {
      TallyMove(s, a, GrowAt(j + 1), b);
      GrowerOwnsNothing(GrowAt(j + 1), b);
      GrowerOwnsNothing(s.agents[a], b);
      SameTally(s', Goto(s, a, GrowAt(j + 1)), b);
      assert BucketOk(s.buckets[b], TallyOf(s, b));
    }
  }

  lemma MoveAgents(h: Hashing<nat>, s: Hash, a: nat, free: nat)
    requires Inv(h, s) && a in s.agents && s.agents[a].GrowMove? && free < |s.grown|
    requires s.agents[a].j < |s.buckets|
    ensures var s' := MoveOne(s, a, s.agents[a].j, free);
            forall o <- s'.agents :: AgentOk(s', s'.agents[o])
  {
    hide Inv, AgentOk, LockOk, GrownOk, LoadOk, BucketOk, FoundKey, Growing, Inside;
    var j := s.agents[a].j;
    var s' := MoveOne(s, a, j, free);
    LockIsOk(h, s);
    GrowMoveFacts(h, s, a);
    NobodyInside(s, a);
    forall o <- s'.agents | o != a
      ensures AgentOk(s', s.agents[o])
    {
      Remembers(h, s, o);
      if FoundKey(s.agents[o]).Pair? {
        FoundPinned(s.agents[o]);
        PinCounted(h, s, o, FoundKey(s.agents[o]).value);
      }
      StillOk(s, s', s.agents[o]);
    }
    ScannedOk(s', j + 1);
  }

  lemma GrowMoveFacts(h: Hashing<nat>, s: Hash, a: nat)
    requires Inv(h, s) && a in s.agents && s.agents[a].GrowMove?
    ensures Growing(s.agents[a])
    ensures var j := s.agents[a].j;
            j < |s.buckets| && s.buckets[j].state.Filled? && s.buckets[j].refcount == 0
            && forall l: nat | l < j :: !s.buckets[l].state.Filled?
  {
    hide TallyOf, LockOk, GrownOk, LoadOk, BucketOk;
    Remembers(h, s, a);
  }

  lemma ScannedOk(s: Hash, j: nat)
    requires forall l: nat | l < j && l < |s.buckets| :: !s.buckets[l].state.Filled?
    ensures AgentOk(s, GrowAt(j))
  {
  }

  lemma MoveRest(h: Hashing<nat>, s: Hash, a: nat, free: nat)
    requires Inv(h, s) && a in s.agents && s.agents[a].GrowMove? && free < |s.grown| && s.grown[free] == FREE
    requires s.agents[a].j < |s.buckets| && s.buckets[s.agents[a].j].state.Filled?
    requires s.buckets[s.agents[a].j].slot.Pair?
    ensures var s' := MoveOne(s, a, s.agents[a].j, free);
            LockOk(s') && GrownOk(s') && LoadOk(s')
  {
    hide AgentOk, BucketOk, TallyOf;
    var j := s.agents[a].j;
    var s' := MoveOne(s, a, j, free);
    LockKept(s, s', a, GrowAt(j + 1));
    LiveMove(s.buckets, j, Bucket(0, Tombstone, Raw));
    LiveMove(s.grown, free, Bucket(0, Filled, s.buckets[j].slot));
    CountMove(s.agents, Publishing, a, GrowAt(j + 1));
    CountMove(s.agents, Burying, a, GrowAt(j + 1));
    assert s'.agents[a] == GrowAt(j + 1);
  }

  lemma GrowMoveKeeps(h: Hashing<nat>, s: Hash, a: nat)
    requires Inv(h, s) && a in s.agents && s.agents[a].GrowMove?
    ensures Inv(h, GrowStep(h, s, a, s.agents[a]))
  {
    hide TallyOf, LockOk, GrownOk, LoadOk, AgentOk;
    var j := s.agents[a].j;
    GrowMoveFacts(h, s, a);
    assert BucketOk(s.buckets[j], TallyOf(s, j));
    var key := s.buckets[j].slot.key;
    PlaceExists(h, s, a, key);
    var free := FreeFrom(h, s.grown, key, 0).value;
    MoveBuckets(h, s, a, free);
    MoveAgents(h, s, a, free);
    MoveRest(h, s, a, free);
    assert GrowStep(h, s, a, s.agents[a]) == MoveOne(s, a, j, free);
  }

  // ---------- The new array takes over ----------

  function Swap(s: Hash, a: nat): Hash {
    Goto(s.(buckets := s.grown, grown := [], generation := s.generation + 1), a, GrowLeave)
  }

  /** When the last bucket has been handled nobody owns anything. */
  lemma NobodyOwns(h: Hashing<nat>, s: Hash, a: nat)
    requires Inv(h, s) && a in s.agents && s.agents[a].GrowAt? && s.agents[a].j >= |s.buckets|
    ensures forall o <- s.agents :: PinOf(s.agents[o]).None? && ClaimOf(s.agents[o]).None? && MarkOf(s.agents[o]).None?
    ensures Live(s.buckets) == 0
  {
    hide TallyOf, LockOk, GrownOk, LoadOk, AgentOk, PinOf, ClaimOf, MarkOf, BucketOk;
    GrowQuiet(h, s, a);
    GrowScanned(h, s, a);
    LiveNone(s.buckets);
    forall o <- s.agents
      ensures PinOf(s.agents[o]).None? && ClaimOf(s.agents[o]).None? && MarkOf(s.agents[o]).None?
    {
      OwnersInside(s.agents[o]);
      if PinOf(s.agents[o]).Some? {
        PinCounted(h, s, o, PinOf(s.agents[o]).value);
      }
    }
  }

  lemma GrowScanned(h: Hashing<nat>, s: Hash, a: nat)
    requires Inv(h, s) && a in s.agents && s.agents[a].GrowAt? && s.agents[a].j >= |s.buckets|
    ensures forall l: nat | l < |s.buckets| :: !s.buckets[l].state.Filled?
  {
    hide TallyOf, LockOk, GrownOk, LoadOk, BucketOk;
    Remembers(h, s, a);
  }

  lemma TallyNone(s: Hash, b: nat)
    requires forall o <- s.agents :: PinOf(s.agents[o]).None? && ClaimOf(s.agents[o]).None? && MarkOf(s.agents[o]).None?
    ensures TallyOf(s, b) == Tally(0, 0, 0, 0, 0, 0)
  {
    hide PinOf, ClaimOf, MarkOf, Built, Drained, Erased;
    CountNone(s.agents, Pinning(b));
    CountNone(s.agents, ClaimingAt(b));
    CountNone(s.agents, BuiltAt(b));
    CountNone(s.agents, MarkingAt(b));
    CountNone(s.agents, DrainedAt(b));
    CountNone(s.agents, ErasedAt(b));
  }

  /** An agent that owns nothing and is not inside the table remembers nothing about it. */
  lemma OutsideOk(s: Hash, s': Hash, pc: PC)
    requires AgentOk(s, pc) && PinOf(pc).None? && !Inside(pc) && !Growing(pc)
    ensures AgentOk(s', pc)
  {
  }

  lemma SwapBuckets(s: Hash, a: nat)
    requires GrownOk(s)
    requires forall o <- s.agents :: PinOf(s.agents[o]).None? && ClaimOf(s.agents[o]).None? && MarkOf(s.agents[o]).None?
    ensures var s' := Swap(s, a);
            forall b: nat | b < |s'.buckets| :: BucketOk(s'.buckets[b], TallyOf(s', b))
  {
    hide TallyOf, GrownOk, PinOf, ClaimOf, MarkOf;
    var s' := Swap(s, a);
    SwapOwners(s, a);
    forall b: nat | b < |s'.buckets|
      ensures BucketOk(s'.buckets[b], TallyOf(s', b))
    {
      TallyNone(s', b);
      GrownEntry(s, b);
    }
  }

  lemma SwapAgents(h: Hashing<nat>, s: Hash, a: nat)
    requires Inv(h, s) && a in s.agents && s.agents[a].GrowAt?
    requires forall o <- s.agents :: PinOf(s.agents[o]).None?
    ensures var s' := Swap(s, a); forall o <- s'.agents :: AgentOk(s', s'.agents[o])
  {
    hide Inv, TallyOf, LockOk, GrownOk, LoadOk, AgentOk, PinOf, BucketOk, Inside;
    var s' := Swap(s, a);
    LockIsOk(h, s);
    NobodyInside(s, a);
    forall o <- s'.agents
      ensures AgentOk(s', s'.agents[o])
    {
      if o != a {
        Remembers(h, s, o);
        OutsideOk(s, s', s.agents[o]);
      } else {
        DoneGrowing(s');
      }
    }
  }

  lemma GrowSwapKeeps(h: Hashing<nat>, s: Hash, a: nat)
    requires Inv(h, s) && a in s.agents && s.agents[a].GrowAt? && s.agents[a].j >= |s.buckets|
    ensures Inv(h, GrowStep(h, s, a, s.agents[a]))
  {
    hide LockOk, GrownOk, LoadOk, AgentOk, PinOf, ClaimOf, MarkOf, BucketOk, TallyOf;
    var s' := Swap(s, a);
    NobodyOwns(h, s, a);
    SwapBuckets(s, a);
    SwapAgents(h, s, a);
    SwapRest(h, s, a);
    PlaceExists(h, s, a, 0);
    var k: nat :| |s.buckets| == Pow2(k);
    assert |s'.buckets| == Pow2(k + 1);
  }

  lemma GrownEntry(s: Hash, b: nat)
    requires GrownOk(s) && b < |s.grown|
    ensures s.grown[b] == FREE || (s.grown[b].state.Filled? && s.grown[b].refcount == 0 && s.grown[b].slot.Pair?)
  {
  }

  lemma DoneGrowing(s: Hash)
    ensures AgentOk(s, GrowLeave)
  {
  }

  lemma SwapOwners(s: Hash, a: nat)
    requires forall o <- s.agents :: PinOf(s.agents[o]).None? && ClaimOf(s.agents[o]).None? && MarkOf(s.agents[o]).None?
    ensures var s' := Swap(s, a);
            forall o <- s'.agents ::
              PinOf(s'.agents[o]).None? && ClaimOf(s'.agents[o]).None? && MarkOf(s'.agents[o]).None?
  {
  }

  lemma SwapRest(h: Hashing<nat>, s: Hash, a: nat)
    requires Inv(h, s) && a in s.agents && s.agents[a].GrowAt? && Live(s.buckets) == 0
    ensures var s' := Swap(s, a); LockOk(s') && GrownOk(s') && LoadOk(s')
  {
    hide AgentOk, BucketOk, TallyOf;
    var s' := Swap(s, a);
    LockKept(s, s', a, GrowLeave);
    CountMove(s.agents, Publishing, a, GrowLeave);
    CountMove(s.agents, Burying, a, GrowLeave);
    LiveNone([]);
    NobodyInside(s, a);
    forall o <- s'.agents
      ensures !(Growing(s'.agents[o]) && !s'.agents[o].GrowLeave?)
    {
      if o != a { assert o in s.agents; }
    }
  }

  lemma GrowLeaveKeeps(h: Hashing<nat>, s: Hash, a: nat)
    requires Inv(h, s) && a in s.agents && s.agents[a].GrowLeave?
    ensures Inv(h, GrowStep(h, s, a, s.agents[a]))
  {
    hide AgentOk, BucketOk, LoadOk, GrownOk, LockOk;
    var s' := Goto(s.(lock := 0), a, Done);
    BucketsKept(h, s, a, Done);
    forall b: nat | b < |s.buckets|
      ensures BucketOk(s'.buckets[b], TallyOf(s', b))
    {
      assert TallyOf(s', b) == TallyOf(Goto(s, a, Done), b);
    }
    forall o <- s'.agents
      ensures AgentOk(s', s'.agents[o])
    {
      if o != a { LoadUnseen(s, s', s.agents[o]); } else { IdleOk(s', Done); }
    }
    LeaveRest(s, s', a);
  }

  lemma LeaveRest(s: Hash, s': Hash, a: nat)
    requires a in s.agents && s.agents[a].GrowLeave? && s' == Goto(s.(lock := 0), a, Done)
    requires LockOk(s) && GrownOk(s) && LoadOk(s)
    ensures LockOk(s') && GrownOk(s') && LoadOk(s')
  {
    CountMove(s.agents, Inside, a, Done);
    CountMove(s.agents, Growing, a, Done);
    CountMove(s.agents, Publishing, a, Done);
    CountMove(s.agents, Burying, a, Done);
    CountWitness(s.agents, Growing, a);
    GrowersSame(s, s', a, Done);
  }

  lemma GrowKeeps(h: Hashing<nat>, s: Hash, a: nat)
    requires Inv(h, s) && a in s.agents
    requires var pc := s.agents[a]; pc.GrowTry? || pc.GrowCas? || Growing(pc) || pc.Done?
    ensures Inv(h, GrowStep(h, s, a, s.agents[a]))
  {
    hide Inv;
    match s.agents[a] {
      case GrowTry => GrowTryKeeps(h, s, a);
      case GrowCas => if s.lock == 0 { GrowStartKeeps(h, s, a); } else { GrowTryKeeps(h, s, a); }
      case GrowAt(j) => if j < |s.buckets| { GrowScanKeeps(h, s, a); } else { GrowSwapKeeps(h, s, a); }
      case GrowWait(_) => GrowWaitKeeps(h, s, a);
      case GrowMove(_) => GrowMoveKeeps(h, s, a);
      case GrowLeave => GrowLeaveKeeps(h, s, a);
      case Done =>
    }
  }

  // ---------- Every event ----------

  predicate Newcomer(pc: PC) {
    pc.GrowTry? || (pc.Enter? && !pc.op.Rehash?)
  }

  lemma JoinTally(s: Hash, a: nat, pc: PC, b: nat)
    requires a !in s.agents && Owns(pc) == NOTHING
    ensures TallyOf(Goto(s, a, pc), b) == TallyOf(s, b)
  {
    hide Owns;
    CountJoin(s.agents, Pinning(b), a, pc);
    CountJoin(s.agents, ClaimingAt(b), a, pc);
    CountJoin(s.agents, BuiltAt(b), a, pc);
    CountJoin(s.agents, MarkingAt(b), a, pc);
    CountJoin(s.agents, DrainedAt(b), a, pc);
    CountJoin(s.agents, ErasedAt(b), a, pc);
  }

  lemma JoinRest(s: Hash, a: nat, pc: PC)
    requires a !in s.agents && Newcomer(pc) && LockOk(s) && GrownOk(s) && LoadOk(s)
    ensures var s' := Goto(s, a, pc); LockOk(s') && GrownOk(s') && LoadOk(s')
  {
    var s' := Goto(s, a, pc);
    CountJoin(s.agents, Inside, a, pc);
    CountJoin(s.agents, Growing, a, pc);
    CountJoin(s.agents, Publishing, a, pc);
    CountJoin(s.agents, Burying, a, pc);
    if s.grown != [] {
      var g :| g in s.agents && Growing(s.agents[g]) && !s.agents[g].GrowLeave?;
      assert g in s'.agents && Growing(s'.agents[g]) && !s'.agents[g].GrowLeave?;
    }
  }

  lemma NewcomerOk(s: Hash, pc: PC)
    requires Newcomer(pc)
    ensures AgentOk(s, pc) && Owns(pc) == NOTHING
  {
  }

  lemma JoinKeeps(h: Hashing<nat>, s: Hash, a: nat, pc: PC)
    requires Inv(h, s) && a !in s.agents && Newcomer(pc)
    ensures Inv(h, Goto(s, a, pc))
  {
    hide LockOk, GrownOk, LoadOk, AgentOk, BucketOk, TallyOf, Newcomer, Owns;
    var s' := Goto(s, a, pc);
    NewcomerOk(s', pc);
    forall b: nat | b < |s'.buckets|
      ensures BucketOk(s'.buckets[b], TallyOf(s', b))
    {
      JoinTally(s, a, pc, b);
    }
    JoinRest(s, a, pc);
    forall o <- s'.agents
      ensures AgentOk(s', s'.agents[o])
    {
      if o != a { LoadUnseen(s, s', s.agents[o]); }
    }
  }

  lemma DropStarts(h: Hashing<nat>, s: Hash, a: nat)
    requires Inv(h, s) && a in s.agents && s.agents[a].Held?
    ensures Inv(h, Apply(h, s, Drop(a)))
  {
    hide Inv, TallyOf, LockOk, GrownOk, LoadOk;
    Remembers(h, s, a);
    SilentKeeps(h, s, a, Dropping(s.agents[a].key, s.agents[a].b, s.agents[a].generation));
  }

  lemma AdvanceKeeps(h: Hashing<nat>, s: Hash, a: nat)
    requires Inv(h, s) && a in s.agents
    ensures Inv(h, Advance(h, s, a, s.agents[a]))
  {
    hide Inv, LockStep, InsertStep, RemoveStep, GetStep, GrowStep;
    var pc := s.agents[a];
    if pc.Enter? {
      EnterKeeps(h, s, a);
    } else if pc.EnterCas? {
      EnterCasKeeps(h, s, a);
    } else if pc.Leave? {
      LeaveKeeps(h, s, a);
    } else if InInsert(pc) {
      InsertKeeps(h, s, a);
    } else if InRemove(pc) {
      RemoveKeeps(h, s, a);
    } else if InGet(pc) || IsGuard(pc) {
      GetKeeps(h, s, a);
    } else {
      GrowKeeps(h, s, a);
    }
  }

  lemma ApplyKeeps(h: Hashing<nat>, s: Hash, e: Event)
    requires Inv(h, s)
    ensures Inv(h, Apply(h, s, e))
  {
    hide Inv, Advance;
    match e {
      case Spawn(a, op) => if a !in s.agents { JoinKeeps(h, s, a, if op.Rehash? then GrowTry else Enter(op)); }
      case Step(a) => if a in s.agents { AdvanceKeeps(h, s, a); }
      case Drop(a) => if a in s.agents && s.agents[a].Held? { DropStarts(h, s, a); }
    }
  }

  lemma NewInv(h: Hashing<nat>)
    requires Proper(h)
    ensures Inv(h, New())
  {
    var s := New();
    assert Pow2(6) == 64;
    forall b: nat | b < |s.buckets|
      ensures BucketOk(s.buckets[b], TallyOf(s, b))
    {
      TallyNone(s, b);
    }
    CountNone(s.agents, Inside);
    CountNone(s.agents, Growing);
    CountNone(s.agents, Publishing);
    CountNone(s.agents, Burying);
    LiveNone(s.buckets);
    LiveNone([]);
  }

  /** The invariant holds after every interleaving, however many operations and guards take part. */
  lemma {:induction false} RunKeeps(h: Hashing<nat>, es: seq<Event>)
    requires Proper(h)
    ensures Inv(h, Run(h, New(), es))
    decreases |es|
  {
    hide Inv, Apply;
    if es == [] {
      NewInv(h);
    } else {
      RunKeeps(h, es[..|es| - 1]);
      ApplyKeeps(h, Run(h, New(), es[..|es| - 1]), es[|es| - 1]);
    }
  }

  // ---------- What the invariant is good for ----------

  /** Steps that read a key through a pin, and guards. */
  predicate ReadsKey(pc: PC) {
    pc.InsCompare? || pc.RemCompare? || pc.GetCompare? || pc.GetHit? || IsGuard(pc)
  }

  /** The reference count of a bucket is the number of live pins. */
  lemma RefcountIsPins(h: Hashing<nat>, es: seq<Event>, b: nat)
    requires Proper(h)
    ensures var s := Run(h, New(), es);
            b < |s.buckets| ==> s.buckets[b].refcount == |set a | a in s.agents && PinOf(s.agents[a]) == Some(b)|
  {
    hide LockOk, GrownOk, LoadOk, AgentOk;
    RunKeeps(h, es);
    var s := Run(h, New(), es);
    if b < |s.buckets| {
      assert BucketOk(s.buckets[b], TallyOf(s, b));
      assert Where(s.agents, Pinning(b)) == set a | a in s.agents && PinOf(s.agents[a]) == Some(b);
    }
  }

  /** A key is only ever read under a pin, in a bucket of the current array that holds a constructed
      pair; and the pair behind a guard has the key that was looked up. */
  lemma ReadsArePinned(h: Hashing<nat>, es: seq<Event>, a: nat)
    requires Proper(h)
    ensures var s := Run(h, New(), es);
            a in s.agents && ReadsKey(s.agents[a]) ==>
              && PinOf(s.agents[a]).Some?
              && var b := PinOf(s.agents[a]).value;
                 && b < |s.buckets| && s.buckets[b].refcount >= 1 && s.buckets[b].slot.Pair?
                 && (IsGuard(s.agents[a]) ==> s.agents[a].generation == s.generation
                                              && s.buckets[b].slot.key == s.agents[a].key)
  {
    hide Inv, LockOk, GrownOk, LoadOk, TallyOf, Apply, Run, Advance, Share;
    RunKeeps(h, es);
    var s := Run(h, New(), es);
    if a in s.agents && ReadsKey(s.agents[a]) {
      Remembers(h, s, a);
      PinCounted(h, s, a, PinOf(s.agents[a]).value);
    }
  }

  /** A pair is destroyed only by its sole owner, and constructed only in storage that holds none. */
  lemma OwnersAreAlone(h: Hashing<nat>, es: seq<Event>, a: nat)
    requires Proper(h)
    ensures var s := Run(h, New(), es);
            && (a in s.agents && s.agents[a].RemErase? ==>
                  && var b := s.agents[a].b;
                     && b < |s.buckets| && s.buckets[b].slot.Pair? && s.buckets[b].refcount == 0
                     && TallyOf(s, b).pins == 0 && TallyOf(s, b).marks == 1)
            && (a in s.agents && s.agents[a].InsBuild? ==>
                  && var c := s.agents[a].c;
                     && c < |s.buckets| && s.buckets[c].slot.Raw? && s.buckets[c].refcount == 0
                     && TallyOf(s, c).pins == 0 && TallyOf(s, c).claims == 1)
  {
    hide Inv, LockOk, GrownOk, LoadOk, TallyOf;
    RunKeeps(h, es);
    var s := Run(h, New(), es);
    if a in s.agents && (s.agents[a].RemErase? || s.agents[a].InsBuild?) {
      Remembers(h, s, a);
      Look(h, s, a, if s.agents[a].RemErase? then s.agents[a].b else s.agents[a].c);
    }
  }

  /** While a rehash runs nobody is inside an operation, no bucket is under construction or being
      removed, and the pair about to be moved has no pin left. */
  lemma RehashIsAlone(h: Hashing<nat>, es: seq<Event>, g: nat)
    requires Proper(h)
    ensures var s := Run(h, New(), es);
            g in s.agents && Growing(s.agents[g]) ==>
              && s.lock == WRITE
              && (forall a <- s.agents :: !Inside(s.agents[a]) && (Growing(s.agents[a]) ==> a == g))
              && (forall b: nat | b < |s.buckets| :: Settled(s.buckets[b]))
              && (s.agents[g].GrowMove? ==> TallyOf(s, s.agents[g].j).pins == 0)
  {
    hide LockOk, GrownOk, LoadOk, TallyOf, AgentOk, BucketOk, Inside;
    RunKeeps(h, es);
    var s := Run(h, New(), es);
    if g in s.agents && Growing(s.agents[g]) {
      NobodyInside(s, g);
      GrowQuiet(h, s, g);
      if s.agents[g].GrowMove? { GrowMoveFacts(h, s, g); }
    }
  }

  /** The load counter is exact whenever no insert or remove stands between its counter update and
      its last store to the bucket. */
  lemma LoadIsExact(h: Hashing<nat>, es: seq<Event>)
    requires Proper(h)
    ensures var s := Run(h, New(), es);
            s.load == Live(s.buckets) + Live(s.grown) + Count(s.agents, Publishing) - Count(s.agents, Burying)
  {
    hide LockOk, GrownOk, AgentOk, BucketOk, TallyOf;
    RunKeeps(h, es);
  }

  // ---------- No guard dangles ----------

  /** The pair in bucket `b` is where it was. */
  predicate SamePair(s: Hash, s': Hash, b: nat) {
    && s'.generation == s.generation && |s'.buckets| == |s.buckets|
    && (b < |s.buckets| ==> s'.buckets[b].slot == s.buckets[b].slot)
  }

  /** The steps that may touch the pair in bucket `b`. */
  predicate Relocates(s: Hash, pc: PC, b: nat) {
    match pc
    case InsBuild(_, _, c) => c == b
    case RemErase(c) => c == b
    case GrowMove(j) => j == b
    case GrowAt(j) => j >= |s.buckets|
    case _ => false
  }

  lemma InsertPair(h: Hashing<nat>, s: Hash, a: nat, pc: PC, b: nat)
    requires InInsert(pc)
    ensures SamePair(s, InsertStep(h, s, a, pc), b) || Relocates(s, pc, b)
  {
  }

  lemma RemovePair(h: Hashing<nat>, s: Hash, a: nat, pc: PC, b: nat)
    requires InRemove(pc)
    ensures SamePair(s, RemoveStep(h, s, a, pc), b) || Relocates(s, pc, b)
  {
  }

  lemma GetPair(h: Hashing<nat>, s: Hash, a: nat, pc: PC, b: nat)
    ensures SamePair(s, GetStep(h, s, a, pc), b) && SamePair(s, LockStep(s, a, pc), b)
  {
  }

  lemma GrowPair(h: Hashing<nat>, s: Hash, a: nat, pc: PC, b: nat)
    ensures SamePair(s, GrowStep(h, s, a, pc), b) || Relocates(s, pc, b)
  {
  }

  /** An event that destroys, constructs or relocates the pair in a bucket finds it unpinned. */
  lemma PairMovesUnpinned(h: Hashing<nat>, s: Hash, e: Event, b: nat)
    requires Inv(h, s) && b < |s.buckets| && !SamePair(s, Apply(h, s, e), b)
    ensures forall o <- s.agents :: PinOf(s.agents[o]) != Some(b)
  {
    hide Inv, LockOk, GrownOk, LoadOk, TallyOf, InsertStep, RemoveStep, GetStep, GrowStep, LockStep;
    var a := e.a;
    assert e.Step? && a in s.agents;
    var pc := s.agents[a];
    InsertOrOther(h, s, a, b);
    Remembers(h, s, a);
    if pc.InsBuild? || pc.RemErase? {
      Look(h, s, a, b);
    } else if pc.GrowMove? {
      GrowMoveFacts(h, s, a);
    } else {
      NobodyOwns(h, s, a);
    }
    forall o <- s.agents
      ensures PinOf(s.agents[o]) != Some(b)
    {
      if PinOf(s.agents[o]) == Some(b) { PinCounted(h, s, o, b); }
    }
  }

  lemma InsertOrOther(h: Hashing<nat>, s: Hash, a: nat, b: nat)
    requires a in s.agents && !SamePair(s, Advance(h, s, a, s.agents[a]), b)
    ensures Relocates(s, s.agents[a], b)
  {
    hide InsertStep, RemoveStep, GetStep, GrowStep, LockStep;
    var pc := s.agents[a];
    if InInsert(pc) { InsertPair(h, s, a, pc, b); }
    if InRemove(pc) { RemovePair(h, s, a, pc, b); }
    GetPair(h, s, a, pc, b);
    GrowPair(h, s, a, pc, b);
  }

  predicate PairThere(s: Hash, b: nat) {
    b < |s.buckets| && s.buckets[b].slot.Pair? && (s.buckets[b].state.Filled? || s.buckets[b].state.Predestructing?)
  }

  predicate Pinned(s: Hash, a: nat, b: nat) {
    a in s.agents && PinOf(s.agents[a]) == Some(b)
  }

  function After(h: Hashing<nat>, es: seq<Event>, i: nat): Hash
    requires i <= |es|
  {
    Run(h, New(), es[..i])
  }

  /** As long as an agent keeps its pin, the pair it pinned stays constructed, in place and with the
      same key, whatever all the others do in between: no guard dangles. */
  lemma {:induction false} PinnedPairStays(h: Hashing<nat>, es: seq<Event>, a: nat, b: nat, i: nat, j: nat)
    requires Proper(h) && i <= j <= |es|
    requires forall k: nat | i <= k <= j :: Pinned(After(h, es, k), a, b)
    ensures SamePair(After(h, es, i), After(h, es, j), b) && PairThere(After(h, es, j), b)
    decreases j - i
  {
    hide Inv, Apply, PinOf;
    RunKeeps(h, es[..j]);
    PinCounted(h, After(h, es, j), a, b);
    if i < j {
      PinnedPairStays(h, es, a, b, i, j - 1);
      assert es[..j][..j - 1] == es[..j - 1];
      RunKeeps(h, es[..j - 1]);
      var s := After(h, es, j - 1);
      assert After(h, es, j) == Apply(h, s, es[j - 1]);
      if !SamePair(s, Apply(h, s, es[j - 1]), b) {
        PairMovesUnpinned(h, s, es[j - 1], b);
      }
    }
  }
}
