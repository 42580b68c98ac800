/** The ring queue with one producer and one consumer.

    `size` slots, one more than the capacity, each with a state; `head` and `tail` are indices.  Every
    atomic load, store and compare-exchange, every construction and every destruction of a value is one
    event, so the event sequences are the sequentially consistent interleavings of `try_send` and
    `try_recv`.  No constructor throws.
 */
module RingQueue {
  import opened Modular
  import opened Wrappers

  datatype SlotState = Empty | Constructing | Filled | Deconstructing

  /** Inside `try_send(v)`. */
  datatype Prod<V> =
    | SendIdle
    | SendHead(v: V)
    | SendTail(v: V, h: nat)
    | SendCheck(v: V, h: nat, t: nat)
    | SendAgainTail(v: V, h: nat, t: nat)
    | SendAgainHead(v: V, h: nat, t: nat)
    | SendClaim(v: V, t: nat)
    | SendAdvance(v: V, t: nat)
    | SendUndo(v: V, t: nat)
    | SendConstruct(v: V, t: nat)
    | SendFill(t: nat)

  /** Inside `try_recv()`. */
  datatype Cons =
    | RecvIdle
    | RecvHead
    | RecvTail(h: nat)
    | RecvCheck(h: nat, t: nat)
    | RecvAgainHead(h: nat, t: nat)
    | RecvClaim(h: nat, t: nat)
    | RecvAdvance(h: nat)
    | RecvTake(h: nat)
    | RecvRelease(h: nat)

  /** `sent`: the values whose slot was secured by moving the tail; `received`: the values taken out.
      `fault`: a value was read from a slot without one, or constructed over another. */
  datatype Ring<V> = Ring(size: nat, head: nat, tail: nat, states: seq<SlotState>, slots: seq<Option<V>>,
                          prod: Prod<V>, cons: Cons, sent: seq<V>, received: seq<V>, fault: bool)

  datatype Event<V> = Send(v: V) | Recv | StepProd | StepCons

  function Fresh<V>(capacity: nat): Ring<V> {
    var size := capacity + 1;
    Ring(size, 0, 0, seq(size, _ => Empty), seq(size, _ => None), SendIdle, RecvIdle, [], [], false)
  }

  predicate Fits<V>(s: Ring<V>) {
    && s.size > 0 && |s.states| == s.size == |s.slots| && s.head < s.size && s.tail < s.size
    && (match s.prod
        case SendIdle => true
        case SendHead(_) => true
        case SendTail(_, _) => true
        case SendCheck(_, _, t) => t < s.size
        case SendAgainTail(_, _, t) => t < s.size
        case SendAgainHead(_, _, t) => t < s.size
        case SendClaim(_, t) => t < s.size
        case SendAdvance(_, t) => t < s.size
        case SendUndo(_, t) => t < s.size
        case SendConstruct(_, t) => t < s.size
        case SendFill(t) => t < s.size)
    && (match s.cons
        case RecvIdle => true
        case RecvHead => true
        case RecvTail(h) => h < s.size
        case RecvCheck(h, _) => h < s.size
        case RecvAgainHead(h, _) => h < s.size
        case RecvClaim(h, _) => h < s.size
        case RecvAdvance(h) => h < s.size
        case RecvTake(h) => h < s.size
        case RecvRelease(h) => h < s.size)
  }

  function StepProducer<V>(s: Ring<V>): Ring<V>
    requires Fits(s)
  {
    match s.prod
    case SendIdle => s
    case SendHead(v) => s.(prod := SendTail(v, s.head))
    case SendTail(v, h) => s.(prod := SendCheck(v, h, s.tail))
    case SendCheck(v, h, t) =>
      if (t + 1) % s.size == h then s.(prod := SendIdle)   // full: the value goes back to the caller
      else s.(prod := SendAgainTail(v, h, t))
    case SendAgainTail(v, h, t) => if t == s.tail then s.(prod := SendAgainHead(v, h, t)) else s.(prod := SendHead(v))
    case SendAgainHead(v, h, t) =>
      if h == s.head then s.(prod := SendClaim(v, t)) else s.(prod := SendHead(v))
    case SendClaim(v, t) =>
      if s.states[t].Empty? then s.(states := s.states[t := Constructing], prod := SendAdvance(v, t))
      else s.(prod := SendHead(v))
    case SendAdvance(v, t) =>
      if s.tail == t then s.(tail := (t + 1) % s.size, prod := SendConstruct(v, t), sent := s.sent + [v])
      else s.(prod := SendUndo(v, t))
    case SendUndo(v, t) => s.(states := s.states[t := Empty], prod := SendHead(v))
    case SendConstruct(v, t) =>
      s.(slots := s.slots[t := Some(v)], prod := SendFill(t), fault := s.fault || s.slots[t].Some?)
    case SendFill(t) => s.(states := s.states[t := Filled], prod := SendIdle)
  }

  function StepConsumer<V>(s: Ring<V>): Ring<V>
    requires Fits(s)
  {
    match s.cons
    case RecvIdle => s
    case RecvHead => s.(cons := RecvTail(s.head))
    case RecvTail(h) => s.(cons := RecvCheck(h, s.tail))
    case RecvCheck(h, t) => if h == t then s.(cons := RecvIdle) else s.(cons := RecvAgainHead(h, t))
    case RecvAgainHead(h, t) => if h == s.head then s.(cons := RecvClaim(h, t)) else s.(cons := RecvHead)
    case RecvClaim(h, t) =>
      if s.states[h].Filled? then s.(states := s.states[h := Deconstructing], cons := RecvAdvance(h))
      else if s.states[h].Constructing? then s.(cons := RecvIdle)
      else s.(cons := RecvCheck((h + 1) % s.size, t))
    case RecvAdvance(h) => if s.head == h then s.(head := (h + 1) % s.size, cons := RecvTake(h)) else s
    case RecvTake(h) =>
      if s.slots[h].Some? then
        s.(slots := s.slots[h := None], cons := RecvRelease(h), received := s.received + [s.slots[h].value])
      else s.(cons := RecvRelease(h), fault := true)
    case RecvRelease(h) => s.(states := s.states[h := Empty], cons := RecvIdle)
  }

  function Apply<V>(s: Ring<V>, e: Event<V>): Ring<V> {
    match e
    case Send(v) => if s.prod.SendIdle? then s.(prod := SendHead(v)) else s
    case Recv => if s.cons.RecvIdle? then s.(cons := RecvHead) else s
    case StepProd => if Fits(s) then StepProducer(s) else s
    case StepCons => if Fits(s) then StepConsumer(s) else s
  }

  function Run<V>(s: Ring<V>, es: seq<Event<V>>): Ring<V>
    decreases |es|
  {
    if es == [] then s else Apply(Run(s, es[..|es| - 1]), es[|es| - 1])
  }

  // ---------- The invariant ----------

  /** How many values were secured, and how many of them the consumer has claimed or let go of. */
  function Tails<V>(s: Ring<V>): nat { |s.sent| }

  function Heads<V>(s: Ring<V>): nat {
    |s.received| + if s.cons.RecvTake? then 1 else 0
  }

  function Claimed<V>(s: Ring<V>): nat {
    Heads(s) + if s.cons.RecvAdvance? then 1 else 0
  }

  /** The oldest value whose slot is not empty again. */
  function Low<V>(s: Ring<V>): int {
    |s.received| - if s.cons.RecvRelease? then 1 else 0
  }

  datatype Look<V> = Look(state: SlotState, slot: Option<V>)

  /** What slot number `n`, counted from the beginning of time, has to look like. */
  function Want<V>(s: Ring<V>, n: nat): Look<V> {
    if n == Low(s) && (s.cons.RecvAdvance? || s.cons.RecvTake? || s.cons.RecvRelease?) then
      Look(Deconstructing, if s.cons.RecvRelease? || n >= |s.sent| then None else Some(s.sent[n]))
    else if n < |s.sent| then
      if n == |s.sent| - 1 && s.prod.SendConstruct? then Look(Constructing, None)
      else if n == |s.sent| - 1 && s.prod.SendFill? then Look(Constructing, Some(s.sent[n]))
      else Look(Filled, Some(s.sent[n]))
    else if n == |s.sent| && s.prod.SendAdvance? then Look(Constructing, None)
    else Look(Empty, None)
  }

  ghost predicate SlotOk<V>(s: Ring<V>, n: nat)
    requires s.size > 0 && |s.states| == s.size == |s.slots|
  {
    Look(s.states[n % s.size], s.slots[n % s.size]) == Want(s, n)
  }

  /** The head that the producer remembers was right at some time. */
  ghost predicate OldHead<V>(s: Ring<V>, h: nat)
    requires s.size > 0
  {
    exists n: nat :: n % s.size == h && n <= Heads(s) && Tails(s) < n + s.size
  }

  ghost predicate OldTail<V>(s: Ring<V>, t: nat)
    requires s.size > 0
  {
    exists n: nat :: n % s.size == t && Heads(s) <= n <= Tails(s)
  }

  ghost predicate ProdOk<V>(s: Ring<V>)
    requires s.size > 0
  {
    match s.prod
    case SendIdle => true
    case SendHead(_) => true
    case SendTail(_, h) => OldHead(s, h)
    case SendCheck(_, h, t) => OldHead(s, h) && t == s.tail
    case SendAgainTail(_, h, t) => t == s.tail && Tails(s) + 1 < Heads(s) + s.size
    case SendAgainHead(_, h, t) => t == s.tail && Tails(s) + 1 < Heads(s) + s.size
    case SendClaim(_, t) => t == s.tail && Tails(s) + 1 < Heads(s) + s.size
    case SendAdvance(_, t) => t == s.tail && Tails(s) + 1 < Heads(s) + s.size && Tails(s) < Low(s) + s.size
    case SendUndo(_, _) => false
    case SendConstruct(v, t) => Claimed(s) < Tails(s) && t == (Tails(s) - 1) % s.size && s.sent[Tails(s) - 1] == v
    case SendFill(t) => Claimed(s) < Tails(s) && t == (Tails(s) - 1) % s.size
  }

  ghost predicate ConsOk<V>(s: Ring<V>)
    requires s.size > 0
  {
    match s.cons
    case RecvIdle => true
    case RecvHead => true
    case RecvTail(h) => h == s.head
    case RecvCheck(h, t) => h == s.head && OldTail(s, t)
    case RecvAgainHead(h, t) => h == s.head && Heads(s) < Tails(s)
    case RecvClaim(h, t) => h == s.head && Heads(s) < Tails(s)
    case RecvAdvance(h) => h == s.head && Heads(s) < Tails(s)
    case RecvTake(h) => h == Low(s) % s.size && |s.received| < Tails(s)
    case RecvRelease(h) => Low(s) >= 0 && h == Low(s) % s.size && |s.received| <= Tails(s)
  }

  ghost predicate Window<V>(s: Ring<V>)
    requires s.size > 0 && |s.states| == s.size == |s.slots|
  {
    forall n: nat | Low(s) <= n < Low(s) + s.size :: SlotOk(s, n)
  }

  ghost predicate Counts<V>(s: Ring<V>)
    requires s.size > 0
  {
    && s.head == Heads(s) % s.size && s.tail == Tails(s) % s.size
    && Heads(s) <= Tails(s) < Heads(s) + s.size
    && |s.received| <= |s.sent| && s.received == s.sent[..|s.received|]
  }

  ghost predicate Inv<V>(s: Ring<V>) {
    Fits(s) && !s.fault && Counts(s) && Window(s) && ProdOk(s) && ConsOk(s)
  }

  lemma FreshInv<V>(capacity: nat)
    ensures Inv(Fresh<V>(capacity))
  {
    var s := Fresh<V>(capacity);
    assert s.received == s.sent[..0];
    forall n: nat | Low(s) <= n < Low(s) + s.size
      ensures SlotOk(s, n)
    {
      assert n % s.size == n;
    }
  }

  // ---------- The steps ----------

  /** Different numbers in the window have different slots. */
  lemma Apart(n: int, m: int, low: int, size: nat)
    requires size > 0 && low <= n < low + size && low <= m < low + size && n != m
    ensures n % size != m % size
  {
    if n % size == m % size {
      SameRemainder(n, m, size);
    }
  }

  lemma NextRemainder(n: nat, size: nat)
    requires size > 0
    ensures (n % size + 1) % size == (n + 1) % size
  {
    var r := n % size;
    assert n == size * (n / size) + r;
    if r + 1 < size {
      RemainderOf(n / size, r + 1, size);
      RemainderOf(0, r + 1, size);
    } else {
      assert size * (n / size + 1) == size * (n / size) + size;
      RemainderOf(n / size + 1, 0, size);
      RemainderOf(1, 0, size);
    }
  }

  lemma AddSize(n: int, size: nat)
    requires size > 0 && n >= 0
    ensures (n + size) % size == n % size
  {
    assert n + size == size * (n / size + 1) + n % size;
    RemainderOf(n / size + 1, n % size, size);
  }

  ghost predicate Sized<V>(s: Ring<V>) {
    s.size > 0 && |s.states| == s.size == |s.slots|
  }

  /** One slot changed, and only the demands on that one. */
  lemma SlotChanged<V>(s: Ring<V>, s': Ring<V>, k: nat)
    requires Sized(s) && Sized(s') && s'.size == s.size && Window(s) && Low(s') == Low(s) <= k < Low(s) + s.size
    requires forall i: nat | i < s.size && i != k % s.size :: s'.states[i] == s.states[i] && s'.slots[i] == s.slots[i]
    requires forall n: nat | n != k :: Want(s', n) == Want(s, n)
    requires SlotOk(s', k)
    ensures Window(s')
  {
    hide Want;
    forall n: nat | Low(s') <= n < Low(s') + s'.size
      ensures SlotOk(s', n)
    {
      if n != k {
        Apart(n, k, Low(s), s.size);
        assert SlotOk(s, n);
      }
    }
  }

  lemma SlotAt<V>(s: Ring<V>, n: nat)
    requires Sized(s) && Window(s) && Low(s) <= n < Low(s) + s.size
    ensures s.states[n % s.size] == Want(s, n).state && s.slots[n % s.size] == Want(s, n).slot
  {
    assert SlotOk(s, n);
  }

  lemma QuietKeeps<V>(s: Ring<V>, s': Ring<V>)
    requires Sized(s) && Window(s) && s'.size == s.size && s'.states == s.states && s'.slots == s.slots
    requires Low(s') == Low(s) && forall n: nat :: Want(s', n) == Want(s, n)
    ensures Window(s')
  {
    hide Want;
    forall n: nat | Low(s') <= n < Low(s') + s'.size
      ensures SlotOk(s', n)
    {
      assert SlotOk(s, n);
    }
  }

  // ----- The producer -----

  lemma ClaimKeeps<V>(s: Ring<V>)
    requires Inv(s) && s.prod.SendClaim?
    ensures Inv(StepProducer(s))
  {
    var s' := StepProducer(s);
    var k := Tails(s);
    if s.states[s.prod.t].Empty? {
      SlotAt(s, k);
      hide Window;
      SlotChanged(s, s', k);
    } else {
      QuietKeeps(s, s');
    }
  }

  lemma AdvanceKeeps<V>(s: Ring<V>)
    requires Inv(s) && s.prod.SendAdvance?
    ensures Inv(StepProducer(s))
  {
    var s' := StepProducer(s);
    hide Window;
    NextRemainder(Tails(s), s.size);
    QuietKeeps(s, s');
    assert s'.received == s'.sent[..|s'.received|];
    if s.cons.RecvCheck? {
      var n: nat :| n % s.size == s.cons.t && Heads(s) <= n <= Tails(s);
      assert OldTail(s', s.cons.t);
    }
  }

  lemma ConstructKeeps<V>(s: Ring<V>)
    requires Inv(s) && s.prod.SendConstruct?
    ensures Inv(StepProducer(s))
  {
    var s' := StepProducer(s);
    hide Window;
    SlotAt(s, Tails(s) - 1);
    SlotChanged(s, s', Tails(s) - 1);
    QuietCons(s, s');
  }

  lemma FillKeeps<V>(s: Ring<V>)
    requires Inv(s) && s.prod.SendFill?
    ensures Inv(StepProducer(s))
  {
    var s' := StepProducer(s);
    hide Window;
    SlotAt(s, Tails(s) - 1);
    SlotChanged(s, s', Tails(s) - 1);
    QuietCons(s, s');
  }

  /** The fullness check uses an old head, so it is on the safe side. */
  lemma CheckKeeps<V>(s: Ring<V>)
    requires Inv(s) && s.prod.SendCheck?
    ensures Inv(StepProducer(s))
  {
    var s' := StepProducer(s);
    hide Window;
    QuietKeeps(s, s');
    var h := s.prod.h;
    var n: nat :| n % s.size == h && n <= Heads(s) && Tails(s) < n + s.size;
    NextRemainder(Tails(s), s.size);
    if Tails(s) + 1 == n + s.size {
      AddSize(n, s.size);
    }
    QuietCons(s, s');
  }

  lemma QuietCons<V>(s: Ring<V>, s': Ring<V>)
    requires s.size > 0 && ConsOk(s) && s'.size == s.size && s'.cons == s.cons && s'.head == s.head
    requires s'.sent == s.sent && s'.received == s.received
    ensures ConsOk(s')
  {
    if s.cons.RecvCheck? {
      var n: nat :| n % s.size == s.cons.t && Heads(s) <= n <= Tails(s);
      assert OldTail(s', s.cons.t);
    }
  }

  lemma QuietProducerKeeps<V>(s: Ring<V>)
    requires Inv(s)
    requires s.prod.SendIdle? || s.prod.SendHead? || s.prod.SendTail? || s.prod.SendAgainTail? || s.prod.SendAgainHead?
    ensures Inv(StepProducer(s))
  {
    var s' := StepProducer(s);
    hide Window;
    QuietKeeps(s, s');
    QuietCons(s, s');
    match s.prod {
      case SendHead(v) =>
        assert Heads(s) % s.size == s.head && Tails(s) < Heads(s) + s.size;
        assert OldHead(s', s.head);
      case SendTail(v, h) =>
        var n: nat :| n % s.size == h && n <= Heads(s) && Tails(s) < n + s.size;
        assert OldHead(s', h);
      case _ =>
    }
  }

  // ----- The consumer -----

  lemma QuietProd<V>(s: Ring<V>, s': Ring<V>)
    requires s.size > 0 && ProdOk(s) && s'.prod == s.prod && s'.tail == s.tail && s'.size == s.size && s'.sent == s.sent
    requires Heads(s) <= Heads(s') && Low(s) <= Low(s')
    requires s.prod.SendConstruct? || s.prod.SendFill? ==> Claimed(s') < Tails(s)
    ensures ProdOk(s')
  {
    if s.prod.SendTail? || s.prod.SendCheck? {
      var n: nat :| n % s.size == s.prod.h && n <= Heads(s) && Tails(s) < n + s.size;
      assert OldHead(s', s.prod.h);
    }
  }

  lemma QuietConsumerKeeps<V>(s: Ring<V>)
    requires Inv(s)
    requires s.cons.RecvIdle? || s.cons.RecvHead? || s.cons.RecvTail? || s.cons.RecvCheck? || s.cons.RecvAgainHead?
    ensures Inv(StepConsumer(s))
  {
    var s' := StepConsumer(s);
    hide Window;
    QuietKeeps(s, s');
    QuietProd(s, s');
    match s.cons {
      case RecvTail(h) =>
        assert Tails(s) % s.size == s.tail;
        assert OldTail(s', s.tail);
      case RecvCheck(h, t) =>
        var n: nat :| n % s.size == t && Heads(s) <= n <= Tails(s);
      case _ =>
    }
  }

  lemma TakeOverKeeps<V>(s: Ring<V>)
    requires Inv(s) && s.cons.RecvClaim?
    ensures Inv(StepConsumer(s))
  {
    var s' := StepConsumer(s);
    hide Window;
    SlotAt(s, Heads(s));
    if s.states[s.cons.h].Filled? {
      SlotChanged(s, s', Heads(s));
    } else {
      QuietKeeps(s, s');
    }
    QuietProd(s, s');
  }

  lemma HeadKeeps<V>(s: Ring<V>)
    requires Inv(s) && s.cons.RecvAdvance?
    ensures Inv(StepConsumer(s))
  {
    var s' := StepConsumer(s);
    hide Window;
    NextRemainder(Heads(s), s.size);
    SlotAt(s, Heads(s));
    QuietKeeps(s, s');
    QuietProd(s, s');
  }

  lemma TakeKeeps<V>(s: Ring<V>)
    requires Inv(s) && s.cons.RecvTake?
    ensures Inv(StepConsumer(s))
  {
    var s' := StepConsumer(s);
    hide Window;
    var k: nat := Low(s);
    SlotAt(s, k);
    SlotChanged(s, s', k);
    assert s'.received == s'.sent[..|s'.received|];
    QuietProd(s, s');
  }

  /** The window moves on: the slot that was emptied is the last one of the new window. */
  lemma ReleaseKeeps<V>(s: Ring<V>)
    requires Inv(s) && s.cons.RecvRelease?
    ensures Inv(StepConsumer(s))
  {
    var s' := StepConsumer(s);
    var k: nat := Low(s);
    SlotAt(s, k);
    forall n: nat | Low(s') <= n < Low(s') + s'.size
      ensures SlotOk(s', n)
    {
      if n == k + s.size {
        AddSize(k, s.size);
      } else {
        Apart(n, k, Low(s), s.size);
        assert SlotOk(s, n);
      }
    }
    hide Window;
    QuietProd(s, s');
  }

  lemma ApplyKeeps<V>(s: Ring<V>, e: Event<V>)
    requires Inv(s)
    ensures Inv(Apply(s, e))
  {
    match e {
      case Send(v) =>
        if s.prod.SendIdle? {
          QuietKeeps(s, Apply(s, e));
          QuietCons(s, Apply(s, e));
        }
      case Recv =>
        if s.cons.RecvIdle? {
          QuietKeeps(s, Apply(s, e));
          QuietProd(s, Apply(s, e));
        }
      case StepProd => ProducerKeeps(s);
      case StepCons => ConsumerKeeps(s);
    }
  }

  lemma ProducerKeeps<V>(s: Ring<V>)
    requires Inv(s)
    ensures Inv(StepProducer(s))
  {
    hide Inv;
    match s.prod {
      case SendCheck(_, _, _) => CheckKeeps(s);
      case SendClaim(_, _) => ClaimKeeps(s);
      case SendAdvance(_, _) => AdvanceKeeps(s);
      case SendUndo(_, _) => NoUndo(s);
      case SendConstruct(_, _) => ConstructKeeps(s);
      case SendFill(_) => FillKeeps(s);
      case _ => QuietProducerKeeps(s);
    }
  }

  /** With one producer the tail never moves between the claim and the compare-exchange. */
  lemma NoUndo<V>(s: Ring<V>)
    requires Inv(s)
    ensures !s.prod.SendUndo?
  {
  }

  lemma ConsumerKeeps<V>(s: Ring<V>)
    requires Inv(s)
    ensures Inv(StepConsumer(s))
  {
    hide Inv;
    match s.cons {
      case RecvClaim(_, _) => TakeOverKeeps(s);
      case RecvAdvance(_) => HeadKeeps(s);
      case RecvTake(_) => TakeKeeps(s);
      case RecvRelease(_) => ReleaseKeeps(s);
      case _ => QuietConsumerKeeps(s);
    }
  }

  lemma {:induction false} RunKeeps<V>(capacity: nat, es: seq<Event<V>>)
    ensures Inv(Run(Fresh<V>(capacity), es))
    decreases |es|
  {
    hide Inv, Apply;
    if es == [] {
      FreshInv<V>(capacity);
    } else {
      RunKeeps(capacity, es[..|es| - 1]);
      ApplyKeeps(Run(Fresh<V>(capacity), es[..|es| - 1]), es[|es| - 1]);
    }
  }

  lemma SizeStep<V>(s: Ring<V>, e: Event<V>)
    ensures Apply(s, e).size == s.size
  {
  }

  lemma {:induction false} SizeStays<V>(capacity: nat, es: seq<Event<V>>)
    ensures Run(Fresh<V>(capacity), es).size == capacity + 1
    decreases |es|
  {
    hide Apply;
    if es != [] {
      SizeStays(capacity, es[..|es| - 1]);
      SizeStep(Run(Fresh<V>(capacity), es[..|es| - 1]), es[|es| - 1]);
    }
  }

  // ---------- What it means ----------

  /** In every interleaving the queue is a bounded first-in-first-out queue: what was received is a prefix
      of what was sent, at most `capacity` values are queued, no slot was read before a value was
      constructed in it, and none was overwritten before it was emptied. */
  lemma BoundedFifo<V>(capacity: nat, es: seq<Event<V>>)
    ensures var s := Run(Fresh<V>(capacity), es);
            && s.received <= s.sent && !s.fault
            && Heads(s) <= Tails(s) <= Heads(s) + capacity
            && (s.cons.RecvTake? && s.cons.h < |s.slots| ==>
                  |s.received| < |s.sent| && s.slots[s.cons.h] == Some(s.sent[|s.received|]))
            && (s.prod.SendConstruct? && s.prod.t < |s.slots| ==> s.slots[s.prod.t] == None)
  {
    hide Run, Inv;
    RunKeeps(capacity, es);
    SizeStays(capacity, es);
    Meaning(Run(Fresh<V>(capacity), es));
  }

  lemma Meaning<V>(s: Ring<V>)
    requires Inv(s)
    ensures s.received <= s.sent && !s.fault && Heads(s) <= Tails(s) < Heads(s) + s.size
    ensures s.cons.RecvTake? && s.cons.h < |s.slots| ==>
              |s.received| < |s.sent| && s.slots[s.cons.h] == Some(s.sent[|s.received|])
    ensures s.prod.SendConstruct? && s.prod.t < |s.slots| ==> s.slots[s.prod.t] == None
  {
    hide Window;
    if s.cons.RecvTake? {
      SlotAt(s, Low(s));
    }
    if s.prod.SendConstruct? {
      SlotAt(s, Tails(s) - 1);
    }
  }

  /** A send attempt that secures its slot adds exactly its value, at the end. */
  lemma SendAppends<V>(capacity: nat, es: seq<Event<V>>)
    ensures var s := Run(Fresh<V>(capacity), es);
            var s' := Run(Fresh<V>(capacity), es + [StepProd]);
            s.prod.SendAdvance? ==> s'.sent == s.sent + [s.prod.v] && s'.prod.SendConstruct?
  {
    RunKeeps(capacity, es);
    assert (es + [StepProd])[..|es|] == es;
  }

  /** With nothing in between, a send attempt refuses exactly when `capacity` values are queued, and a
      receive attempt gives up at its first comparison exactly when none is. */
  lemma AnswersAreRight<V>(s: Ring<V>)
    requires Inv(s)
    ensures s.prod.SendHead? ==>
              (StepProducer(StepProducer(s)).prod.SendCheck?
               && (Apply(StepProducer(StepProducer(s)), StepProd).prod.SendIdle?
                   <==> Tails(s) + 1 == Heads(s) + s.size))
    ensures s.cons.RecvHead? ==>
              (StepConsumer(StepConsumer(s)).cons.RecvCheck?
               && (Apply(StepConsumer(StepConsumer(s)), StepCons).cons.RecvIdle? <==> Heads(s) == Tails(s)))
  {
    hide Window;
    if s.prod.SendHead? {
      NextRemainder(Tails(s), s.size);
      AddSize(Heads(s), s.size);
      if Tails(s) + 1 < Heads(s) + s.size && (s.tail + 1) % s.size == s.head {
        SameRemainder(Heads(s), Tails(s) + 1, s.size);
      }
    }
    if s.cons.RecvHead? && s.head == s.tail {
      SameRemainder(Heads(s), Tails(s), s.size);
    }
  }

  // ---------- Calls that nobody disturbs ----------

  /** `n` times the same event and no other. */
  function Alone<V>(s: Ring<V>, e: Event<V>, n: nat): Ring<V>
    decreases n
  {
    if n == 0 then s else Alone(Apply(s, e), e, n - 1)
  }

  lemma OneMore<V>(s: Ring<V>, e: Event<V>, s': Ring<V>, n: nat, end: Ring<V>)
    requires Apply(s, e) == s' && Alone(s', e, n) == end
    ensures Alone(s, e, n + 1) == end
  {
    hide Apply;
  }

  lemma LastOne<V>(s: Ring<V>, e: Event<V>, end: Ring<V>)
    requires Apply(s, e) == end
    ensures Alone(s, e, 1) == end
  {
    hide Apply;
    assert Alone(end, e, 0) == end;
  }

  /** The oldest value leaves the queue. */
  function Taken<V>(s: Ring<V>): Ring<V>
    requires Fits(s) && s.slots[s.head].Some?
  {
    s.(head := (s.head + 1) % s.size, states := s.states[s.head := Empty], slots := s.slots[s.head := None],
       received := s.received + [s.slots[s.head].value], cons := RecvIdle)
  }

  /** From the claim on. */
  lemma TakeSteps<V>(s: Ring<V>)
    requires Fits(s) && s.states[s.head].Filled? && s.slots[s.head].Some? && s.cons == RecvAgainHead(s.head, s.tail)
    ensures Alone(s, StepCons, 5) == Taken(s)
  {
    hide Alone;
    var h := s.head;
    var s1 := s.(cons := RecvClaim(h, s.tail));
    var s2 := s.(states := s.states[h := Deconstructing], cons := RecvAdvance(h));
    var s3 := s2.(head := (h + 1) % s.size, cons := RecvTake(h));
    var s4 := s3.(slots := s.slots[h := None], cons := RecvRelease(h), received := s.received + [s.slots[h].value]);
    assert s.states[h := Deconstructing][h := Empty] == s.states[h := Empty];
    LastOne(s4, StepCons, Taken(s));
    OneMore(s3, StepCons, s4, 1, Taken(s));
    OneMore(s2, StepCons, s3, 2, Taken(s));
    OneMore(s1, StepCons, s2, 3, Taken(s));
    OneMore(s, StepCons, s1, 4, Taken(s));
  }

  lemma RecvSteps<V>(s: Ring<V>)
    requires Fits(s) && s.cons.RecvIdle?
    ensures s.head == s.tail ==> Alone(Apply(s, Recv), StepCons, 3) == s
    ensures s.head != s.tail && s.states[s.head].Constructing? ==> Alone(Apply(s, Recv), StepCons, 5) == s
    ensures s.head != s.tail && s.states[s.head].Filled? && s.slots[s.head].Some? ==>
              Alone(Apply(s, Recv), StepCons, 8) == Taken(s)
  {
    hide Alone;
    var h := s.head;
    var s1, s2 := s.(cons := RecvHead), s.(cons := RecvTail(h));
    var s3, s4 := s.(cons := RecvCheck(h, s.tail)), s.(cons := RecvAgainHead(h, s.tail));
    if h == s.tail {
      LastOne(s3, StepCons, s);
      OneMore(s2, StepCons, s3, 1, s);
      OneMore(s1, StepCons, s2, 2, s);
    } else if s.states[h].Constructing? {
      var s5 := s.(cons := RecvClaim(h, s.tail));
      LastOne(s5, StepCons, s);
      OneMore(s4, StepCons, s5, 1, s);
      OneMore(s3, StepCons, s4, 2, s);
      OneMore(s2, StepCons, s3, 3, s);
      OneMore(s1, StepCons, s2, 4, s);
    } else if s.states[h].Filled? && s.slots[h].Some? {
      TakeSteps(s4);
      OneMore(s3, StepCons, s4, 5, Taken(s));
      OneMore(s2, StepCons, s3, 6, Taken(s));
      OneMore(s1, StepCons, s2, 7, Taken(s));
    }
  }

  /** `v` goes into the queue behind the others. */
  function Put<V>(s: Ring<V>, v: V): Ring<V>
    requires Fits(s)
  {
    s.(tail := (s.tail + 1) % s.size, states := s.states[s.tail := Filled], slots := s.slots[s.tail := Some(v)],
       sent := s.sent + [v], prod := SendIdle)
  }

  lemma PutSteps<V>(s: Ring<V>, v: V)
    requires Fits(s) && !s.fault && s.prod == SendAgainHead(v, s.head, s.tail)
    requires s.states[s.tail].Empty? && s.slots[s.tail].None?
    ensures Alone(s, StepProd, 5) == Put(s, v)
  {
    hide Alone;
    var t := s.tail;
    var s1 := s.(prod := SendClaim(v, t));
    var s2 := s.(states := s.states[t := Constructing], prod := SendAdvance(v, t));
    var s3 := s2.(tail := (t + 1) % s.size, prod := SendConstruct(v, t), sent := s.sent + [v]);
    var s4 := s3.(slots := s.slots[t := Some(v)], prod := SendFill(t));
    assert s.states[t := Constructing][t := Filled] == s.states[t := Filled];
    LastOne(s4, StepProd, Put(s, v));
    OneMore(s3, StepProd, s4, 1, Put(s, v));
    OneMore(s2, StepProd, s3, 2, Put(s, v));
    OneMore(s1, StepProd, s2, 3, Put(s, v));
    OneMore(s, StepProd, s1, 4, Put(s, v));
  }

  lemma SendSteps<V>(s: Ring<V>, v: V)
    requires Fits(s) && !s.fault && s.prod.SendIdle?
    ensures (s.tail + 1) % s.size == s.head ==> Alone(Apply(s, Send(v)), StepProd, 3) == s
    ensures (s.tail + 1) % s.size != s.head && s.states[s.tail].Empty? && s.slots[s.tail].None? ==>
              Alone(Apply(s, Send(v)), StepProd, 9) == Put(s, v)
  {
    hide Alone;
    var h, t := s.head, s.tail;
    var s1, s2, s3 := s.(prod := SendHead(v)), s.(prod := SendTail(v, h)), s.(prod := SendCheck(v, h, t));
    if (t + 1) % s.size == h {
      LastOne(s3, StepProd, s);
      OneMore(s2, StepProd, s3, 1, s);
      OneMore(s1, StepProd, s2, 2, s);
    } else if s.states[t].Empty? && s.slots[t].None? {
      var s4, s5 := s.(prod := SendAgainTail(v, h, t)), s.(prod := SendAgainHead(v, h, t));
      PutSteps(s5, v);
      OneMore(s4, StepProd, s5, 5, Put(s, v));
      OneMore(s3, StepProd, s4, 6, Put(s, v));
      OneMore(s2, StepProd, s3, 7, Put(s, v));
      OneMore(s1, StepProd, s2, 8, Put(s, v));
    }
  }

  /** After every run: a receive that the producer does not disturb takes the oldest value out, or finds
      it under construction, or finds the queue empty. */
  lemma RecvAlone<V>(capacity: nat, es: seq<Event<V>>)
    ensures var s := Run(Fresh<V>(capacity), es);
            s.cons.RecvIdle? ==>
              && s.head < |s.states|
              && (s.received == s.sent ==> Alone(Apply(s, Recv), StepCons, 3) == s)
              && (|s.received| < |s.sent| && s.states[s.head].Filled? ==>
                    var s' := Alone(Apply(s, Recv), StepCons, 8);
                    s'.cons.RecvIdle? && s'.received == s.received + [s.sent[|s.received|]] && s'.sent == s.sent)
              && (|s.received| < |s.sent| && !s.states[s.head].Filled? ==>
                    Alone(Apply(s, Recv), StepCons, 5) == s
                    && |s.sent| == |s.received| + 1 && (s.prod.SendConstruct? || s.prod.SendFill?))
  {
    var s := Run(Fresh<V>(capacity), es);
    RunKeeps(capacity, es);
    hide Run, Alone, Apply;
    if s.cons.RecvIdle? {
      Oldest(s);
      hide Inv;
      RecvSteps(s);
    }
  }

  /** What the slot at the head looks like. */
  lemma Oldest<V>(s: Ring<V>)
    requires Inv(s) && s.cons.RecvIdle?
    ensures s.head == s.tail <==> |s.received| == |s.sent|
    ensures s.received == s.sent <==> |s.received| == |s.sent|
    ensures |s.received| < |s.sent| ==>
              if s.states[s.head].Filled? then s.slots[s.head] == Some(s.sent[|s.received|])
              else s.states[s.head].Constructing? && |s.sent| == |s.received| + 1
                   && (s.prod.SendConstruct? || s.prod.SendFill?)
  {
    SlotAt(s, Low(s));
    hide Window;
    if s.head == s.tail && |s.received| < |s.sent| {
      SameRemainder(Heads(s), Tails(s), s.size);
    }
  }

  /** After every run: a send that the consumer does not disturb puts its value behind the others, or
      finds `capacity` values that the consumer has not let go of. */
  lemma SendAlone<V>(capacity: nat, es: seq<Event<V>>, v: V)
    ensures var s := Run(Fresh<V>(capacity), es);
            s.prod.SendIdle? ==>
              && s.tail < |s.states| == |s.slots|
              && (Tails(s) == Heads(s) + capacity ==> Alone(Apply(s, Send(v)), StepProd, 3) == s)
              && (Tails(s) < Heads(s) + capacity ==>
                    var s' := Alone(Apply(s, Send(v)), StepProd, 9);
                    && s'.prod.SendIdle? && s'.sent == s.sent + [v] && s'.received == s.received
                    && s'.states == s.states[s.tail := Filled] && s'.slots == s.slots[s.tail := Some(v)])
  {
    var s := Run(Fresh<V>(capacity), es);
    RunKeeps(capacity, es);
    SizeStays(capacity, es);
    hide Run, Alone, Apply;
    if s.prod.SendIdle? {
      Newest(s);
      hide Inv;
      SendSteps(s, v);
    }
  }

  /** What the slot at the tail looks like. */
  lemma Newest<V>(s: Ring<V>)
    requires Inv(s) && s.prod.SendIdle?
    ensures (s.tail + 1) % s.size == s.head <==> Tails(s) + 1 == Heads(s) + s.size
    ensures Tails(s) + 1 < Heads(s) + s.size ==> s.states[s.tail].Empty? && s.slots[s.tail].None?
  {
    NextRemainder(Tails(s), s.size);
    AddSize(Heads(s), s.size);
    if Tails(s) + 1 < Heads(s) + s.size {
      SlotAt(s, Tails(s));
      if (s.tail + 1) % s.size == s.head {
        SameRemainder(Heads(s), Tails(s) + 1, s.size);
      }
    }
    hide Window;
  }
}
