/** The channel under any interleaving of senders, receivers and stops.

    Two semaphores guard an atomic first-in-first-out queue: `room` for the senders and `count` for the
    receivers.  A semaphore operation, a load or store of `closed` and a queue operation is one event
    each; an acquire that finds no permit is not enabled.
 */
module ChannelProtocol {
  import opened AgentCount

  const CAPACITY: nat := 1024

  datatype PC<V> =
    | Idle
    // send
    | SendCheck(v: V)          // the first look at `closed`
    | SendAcquire(v: V)
    | SendCheckAgain(v: V)     // holds a permit for room
    | SendPut(v: V)            // holds a permit, and has seen the channel open
    | SendPost                 // has put its value
    | SendReturnPermit
    // recv
    | RecvCount
    | RecvClosed(n: nat)
    | RecvAcquire
    | RecvCountAgain           // holds a permit for a value
    | RecvClosedAgain(n: nat)
    | RecvTake
    | RecvPost                 // has taken a value
    // stop
    | StopStore
    | StopCount
    | StopRoom

  /** `dropped`: a sender found the queue full, and the value is lost since the result is ignored. */
  datatype Chan<V> = Chan(closed: bool, count: nat, room: nat, queue: seq<V>, pcs: map<nat, PC<V>>,
                          sent: seq<V>, received: seq<V>, dropped: bool)

  datatype Event<V> = Send(t: nat, v: V) | Recv(t: nat) | Stop(t: nat) | Step(t: nat)

  function Fresh<V>(): Chan<V> {
    Chan(false, 0, CAPACITY, [], map[], [], [], false)
  }

  function Released(x: nat): nat {
    if x < CAPACITY then x + 1 else x
  }

  function At<V>(s: Chan<V>, t: nat): PC<V> {
    if t in s.pcs then s.pcs[t] else Idle
  }

  function Goto<V>(s: Chan<V>, t: nat, pc: PC<V>): Chan<V> {
    s.(pcs := s.pcs[t := pc])
  }

  function StepOf<V>(s: Chan<V>, t: nat, pc: PC<V>): Chan<V> {
    match pc
    case Idle => s
    case SendCheck(v) => Goto(s, t, if s.closed then Idle else SendAcquire(v))
    case SendAcquire(v) => if s.room == 0 then s else Goto(s, t, SendCheckAgain(v)).(room := s.room - 1)
    case SendCheckAgain(v) => Goto(s, t, if s.closed then SendReturnPermit else SendPut(v))
    case SendPut(v) =>
      if |s.queue| < CAPACITY then Goto(s, t, SendPost).(queue := s.queue + [v], sent := s.sent + [v])
      else Goto(s, t, SendPost).(dropped := true)
    case SendPost => Goto(s, t, Idle).(count := Released(s.count))
    case SendReturnPermit => Goto(s, t, Idle).(room := Released(s.room))
    case RecvCount => Goto(s, t, RecvClosed(s.count))
    case RecvClosed(n) => Goto(s, t, if n == 0 && s.closed then Idle else RecvAcquire)
    case RecvAcquire => if s.count == 0 then s else Goto(s, t, RecvCountAgain).(count := s.count - 1)
    case RecvCountAgain => Goto(s, t, RecvClosedAgain(s.count))
    case RecvClosedAgain(n) => Goto(s, t, if n == 0 && s.closed then Idle else RecvTake)
    case RecvTake =>
      if s.queue != [] then Goto(s, t, RecvPost).(queue := s.queue[1..], received := s.received + [s.queue[0]])
      else Goto(s, t, RecvPost)
    case RecvPost => Goto(s, t, Idle).(room := Released(s.room))
    case StopStore => Goto(s, t, StopCount).(closed := true)
    case StopCount => Goto(s, t, StopRoom).(count := Released(s.count))
    case StopRoom => Goto(s, t, Idle).(room := Released(s.room))
  }

  function Apply<V>(s: Chan<V>, ev: Event<V>): Chan<V> {
    match ev
    case Send(t, v) => if At(s, t).Idle? then Goto(s, t, SendCheck(v)) else s
    case Recv(t) => if At(s, t).Idle? then Goto(s, t, RecvCount) else s
    case Stop(t) => if At(s, t).Idle? then Goto(s, t, StopStore) else s
    case Step(t) => StepOf(s, t, At(s, t))
  }

  function Run<V>(s: Chan<V>, evs: seq<Event<V>>): Chan<V>
    decreases |evs|
  {
    if evs == [] then s else Apply(Run(s, evs[..|evs| - 1]), evs[|evs| - 1])
  }

  // ---------- Who holds what ----------

  predicate HoldsRoom<V>(pc: PC<V>) { pc.SendCheckAgain? || pc.SendPut? || pc.SendReturnPermit? || pc.RecvPost? }

  predicate WillPut<V>(pc: PC<V>) { pc.SendPut? }

  predicate HoldsValue<V>(pc: PC<V>) { pc.RecvCountAgain? || pc.RecvClosedAgain? || pc.RecvTake? || pc.SendPost? }

  predicate Stopping<V>(pc: PC<V>) { pc.StopCount? || pc.StopRoom? || pc.SendReturnPermit? }

  /** The number of agents at the points that matter. */
  datatype Tally = Tally(put: int, room: int, value: int, stopping: int)

  ghost function TallyOf<V>(pcs: map<nat, PC<V>>): Tally {
    Tally(Count(pcs, WillPut), Count(pcs, HoldsRoom), Count(pcs, HoldsValue), Count(pcs, Stopping))
  }

  function Moving<V>(n: Tally, from: PC<V>, to: PC<V>): Tally {
    Tally(n.put + Ind(WillPut(to)) - Ind(WillPut(from)), n.room + Ind(HoldsRoom(to)) - Ind(HoldsRoom(from)),
          n.value + Ind(HoldsValue(to)) - Ind(HoldsValue(from)), n.stopping + Ind(Stopping(to)) - Ind(Stopping(from)))
  }

  /** While the channel is open every permit is accounted for; once it is closed, only the senders that
      have seen it open may still put, and there is room for them. */
  ghost predicate Balanced<V>(s: Chan<V>, n: Tally) {
    && s.count <= CAPACITY && s.room <= CAPACITY && !s.dropped
    && s.received + s.queue == s.sent
    && |s.queue| + n.put <= CAPACITY
    && (!s.closed ==>
          && s.room + |s.queue| + n.room == CAPACITY
          && s.count + n.value == |s.queue|
          && n.stopping == 0)
  }

  ghost predicate Inv<V>(s: Chan<V>) {
    Balanced(s, TallyOf(s.pcs))
  }

  lemma PutsHoldRoom<V>(pcs: map<nat, PC<V>>, t: nat)
    requires t in pcs
    ensures Count(pcs, WillPut) + Ind(HoldsRoom(pcs[t]) && !WillPut(pcs[t])) <= Count(pcs, HoldsRoom)
  {
    var some, all := Where(pcs, WillPut), Where(pcs, HoldsRoom);
    var more := if HoldsRoom(pcs[t]) && !WillPut(pcs[t]) then some + {t} else some;
    assert more <= all;
    assert all == more + (all - more);
  }

  lemma Moved<V>(s: Chan<V>, t: nat, pc: PC<V>)
    requires t in s.pcs
    ensures TallyOf(s.pcs[t := pc]) == Moving(TallyOf(s.pcs), s.pcs[t], pc)
  {
    hide Count, Ind;
    CountMove(s.pcs, WillPut, t, pc);
    CountMove(s.pcs, HoldsRoom, t, pc);
    CountMove(s.pcs, HoldsValue, t, pc);
    CountMove(s.pcs, Stopping, t, pc);
  }

  /** An agent at a point is counted there. */
  lemma Counted<V>(s: Chan<V>, t: nat)
    requires t in s.pcs
    ensures var n, pc := TallyOf(s.pcs), s.pcs[t];
            && Ind(WillPut(pc)) <= n.put && n.put + Ind(HoldsRoom(pc) && !WillPut(pc)) <= n.room
            && Ind(HoldsValue(pc)) <= n.value && Ind(Stopping(pc)) <= n.stopping
  {
    PutsHoldRoom(s.pcs, t);
    if WillPut(s.pcs[t]) { CountWitness(s.pcs, WillPut, t); }
    if HoldsValue(s.pcs[t]) { CountWitness(s.pcs, HoldsValue, t); }
    if Stopping(s.pcs[t]) { CountWitness(s.pcs, Stopping, t); }
  }

  lemma StepBalanced<V>(s: Chan<V>, t: nat, pc: PC<V>, n: Tally)
    requires Balanced(s, n) && t in s.pcs && s.pcs[t] == pc
    requires Ind(WillPut(pc)) <= n.put && n.put + Ind(HoldsRoom(pc) && !WillPut(pc)) <= n.room
    requires Ind(HoldsValue(pc)) <= n.value && Ind(Stopping(pc)) <= n.stopping
    ensures var s' := StepOf(s, t, pc);
            && t in s'.pcs && s'.pcs == s.pcs[t := s'.pcs[t]] && Balanced(s', Moving(n, pc, s'.pcs[t]))
  {
    if pc.RecvTake? && s.queue != [] {
      assert s.received + [s.queue[0]] + s.queue[1..] == s.received + s.queue;
    } else if pc.SendPut? {
      assert s.received + (s.queue + [pc.v]) == s.received + s.queue + [pc.v];
    }
  }

  lemma StepKeeps<V>(s: Chan<V>, t: nat)
    requires Inv(s) && t in s.pcs
    ensures Inv(StepOf(s, t, s.pcs[t]))
  {
    hide Balanced, TallyOf, Moving, StepOf, Ind;
    Counted(s, t);
    StepBalanced(s, t, s.pcs[t], TallyOf(s.pcs));
    Moved(s, t, StepOf(s, t, s.pcs[t]).pcs[t]);
  }

  lemma BeginKeeps<V>(s: Chan<V>, t: nat, pc: PC<V>)
    requires Inv(s) && At(s, t).Idle?
    requires !HoldsRoom(pc) && !WillPut(pc) && !HoldsValue(pc) && !Stopping(pc)
    ensures Inv(Goto(s, t, pc))
  {
    if t in s.pcs {
      Moved(s, t, pc);
    } else {
      CountJoin(s.pcs, WillPut, t, pc);
      CountJoin(s.pcs, HoldsRoom, t, pc);
      CountJoin(s.pcs, HoldsValue, t, pc);
      CountJoin(s.pcs, Stopping, t, pc);
    }
  }

  lemma ApplyKeeps<V>(s: Chan<V>, ev: Event<V>)
    requires Inv(s)
    ensures Inv(Apply(s, ev))
  {
    hide Inv;
    match ev {
      case Send(t, v) => if At(s, t).Idle? { BeginKeeps(s, t, SendCheck(v)); }
      case Recv(t) => if At(s, t).Idle? { BeginKeeps(s, t, RecvCount); }
      case Stop(t) => if At(s, t).Idle? { BeginKeeps(s, t, StopStore); }
      case Step(t) => if t in s.pcs { StepKeeps(s, t); }
    }
  }

  lemma FreshInv<V>()
    ensures Inv(Fresh<V>())
  {
    var s := Fresh<V>();
    assert Where(s.pcs, WillPut) == {} && Where(s.pcs, HoldsRoom) == {};
    assert Where(s.pcs, HoldsValue) == {} && Where(s.pcs, Stopping) == {};
  }

  lemma {:induction false} RunKeeps<V>(evs: seq<Event<V>>)
    ensures Inv(Run(Fresh<V>(), evs))
    decreases |evs|
  {
    hide Inv, Apply;
    if evs == [] {
      FreshInv<V>();
    } else {
      RunKeeps(evs[..|evs| - 1]);
      ApplyKeeps(Run(Fresh<V>(), evs[..|evs| - 1]), evs[|evs| - 1]);
    }
  }

  /** In every interleaving, stops included: a sender that reaches the queue finds room in it, so no
      value is ever dropped, and what was received and what is queued is what was sent, in order. */
  lemma SenderFindsRoom<V>(evs: seq<Event<V>>, t: nat)
    ensures var s := Run(Fresh<V>(), evs);
            && (At(s, t).SendPut? ==> |s.queue| < CAPACITY)
            && !s.dropped && s.received + s.queue == s.sent
            && s.count <= CAPACITY && s.room <= CAPACITY && |s.queue| <= CAPACITY
  {
    var s := Run(Fresh<V>(), evs);
    RunKeeps(evs);
    if At(s, t).SendPut? {
      CountWitness(s.pcs, WillPut, t);
    }
  }

  /** Before the first stop a receiver that has its permit finds a value. */
  lemma ReceiverFindsValue<V>(evs: seq<Event<V>>, t: nat)
    ensures var s := Run(Fresh<V>(), evs);
            !s.closed && At(s, t).RecvTake? ==> s.queue != []
  {
    var s := Run(Fresh<V>(), evs);
    RunKeeps(evs);
    if At(s, t).RecvTake? {
      CountWitness(s.pcs, HoldsValue, t);
    }
  }

  // ---------- Calls that nobody disturbs ----------

  /** `n` steps of agent `t` and nobody else. */
  function Alone<V>(s: Chan<V>, t: nat, n: nat): Chan<V>
    decreases n
  {
    if n == 0 then s else Alone(Apply(s, Step(t)), t, n - 1)
  }

  lemma OneMore<V>(s: Chan<V>, t: nat, s': Chan<V>, n: nat, end: Chan<V>)
    requires Apply(s, Step(t)) == s' && Alone(s', t, n) == end
    ensures Alone(s, t, n + 1) == end
  {
    hide Apply;
  }

  lemma LastOne<V>(s: Chan<V>, t: nat, end: Chan<V>)
    requires Apply(s, Step(t)) == end
    ensures Alone(s, t, 1) == end
  {
    hide Apply;
    assert Alone(end, t, 0) == end;
  }

  /** One step that changes no more than the agent's own place, the permits, the queue and its history. */
  lemma Moves<V>(s: Chan<V>, t: nat, pc: PC<V>, r: Chan<V>, pc': PC<V>)
    requires r.pcs == s.pcs && StepOf(Goto(s, t, pc), t, pc) == Goto(s, t, pc).(pcs := s.pcs[t := pc][t := pc'],
      closed := r.closed, count := r.count, room := r.room, queue := r.queue, sent := r.sent, received := r.received,
      dropped := r.dropped)
    ensures Apply(Goto(s, t, pc), Step(t)) == Goto(r, t, pc')
  {
    assert s.pcs[t := pc][t := pc'] == s.pcs[t := pc'];
  }

  /** What a send leaves. */
  function AfterSend<V>(s: Chan<V>, v: V): Chan<V>
    requires s.room > 0
  {
    s.(queue := s.queue + [v], sent := s.sent + [v], room := s.room - 1, count := s.count + 1)
  }

  lemma SendSteps<V>(s: Chan<V>, t: nat, v: V)
    requires !s.closed && s.room > 0 && |s.queue| < CAPACITY && s.count < CAPACITY
    ensures Alone(Goto(s, t, SendCheck(v)), t, 5) == Goto(AfterSend(s, v), t, Idle)
  {
    hide Alone, Apply;
    var s2 := s.(room := s.room - 1);
    var s4 := s2.(queue := s.queue + [v], sent := s.sent + [v]);
    var end := Goto(AfterSend(s, v), t, Idle);
    Moves(s4, t, SendPost, AfterSend(s, v), Idle);
    LastOne(Goto(s4, t, SendPost), t, end);
    Moves(s2, t, SendPut(v), s4, SendPost);
    OneMore(Goto(s2, t, SendPut(v)), t, Goto(s4, t, SendPost), 1, end);
    Moves(s2, t, SendCheckAgain(v), s2, SendPut(v));
    OneMore(Goto(s2, t, SendCheckAgain(v)), t, Goto(s2, t, SendPut(v)), 2, end);
    Moves(s, t, SendAcquire(v), s2, SendCheckAgain(v));
    OneMore(Goto(s, t, SendAcquire(v)), t, Goto(s2, t, SendCheckAgain(v)), 3, end);
    Moves(s, t, SendCheck(v), s, SendAcquire(v));
    OneMore(Goto(s, t, SendCheck(v)), t, Goto(s, t, SendAcquire(v)), 4, end);
  }

  /** What a receive leaves. */
  function AfterRecv<V>(s: Chan<V>): Chan<V>
    requires s.count > 0 && s.queue != []
  {
    s.(queue := s.queue[1..], received := s.received + [s.queue[0]], room := s.room + 1, count := s.count - 1)
  }

  lemma RecvSteps<V>(s: Chan<V>, t: nat)
    requires !s.closed && s.count > 0 && s.queue != [] && s.room < CAPACITY
    ensures Alone(Goto(s, t, RecvCount), t, 7) == Goto(AfterRecv(s), t, Idle)
  {
    hide Alone, Apply;
    var r := s.(count := s.count - 1);
    var end := Goto(AfterRecv(s), t, Idle);
    assert AfterRecv(r.(count := r.count + 1)) == AfterRecv(s);
    RecvChecks(r, t);
    Moves(s, t, RecvAcquire, r, RecvCountAgain);
    OneMore(Goto(s, t, RecvAcquire), t, Goto(r, t, RecvCountAgain), 4, end);
    Moves(s, t, RecvClosed(s.count), s, RecvAcquire);
    OneMore(Goto(s, t, RecvClosed(s.count)), t, Goto(s, t, RecvAcquire), 5, end);
    Moves(s, t, RecvCount, s, RecvClosed(s.count));
    OneMore(Goto(s, t, RecvCount), t, Goto(s, t, RecvClosed(s.count)), 6, end);
  }

  lemma RecvChecks<V>(s: Chan<V>, t: nat)
    requires !s.closed && s.queue != [] && s.room < CAPACITY
    ensures Alone(Goto(s, t, RecvCountAgain), t, 4) == Goto(AfterRecv(s.(count := s.count + 1)), t, Idle)
  {
    hide Alone, Apply;
    var end := Goto(AfterRecv(s.(count := s.count + 1)), t, Idle);
    RecvLast(s, t);
    Moves(s, t, RecvClosedAgain(s.count), s, RecvTake);
    OneMore(Goto(s, t, RecvClosedAgain(s.count)), t, Goto(s, t, RecvTake), 2, end);
    Moves(s, t, RecvCountAgain, s, RecvClosedAgain(s.count));
    OneMore(Goto(s, t, RecvCountAgain), t, Goto(s, t, RecvClosedAgain(s.count)), 3, end);
  }

  /** It holds a permit for the oldest value. */
  lemma RecvLast<V>(s: Chan<V>, t: nat)
    requires s.queue != [] && s.room < CAPACITY
    ensures Alone(Goto(s, t, RecvTake), t, 2) == Goto(AfterRecv(s.(count := s.count + 1)), t, Idle)
  {
    hide Alone, Apply;
    var r := s.(queue := s.queue[1..], received := s.received + [s.queue[0]]);
    var end := Goto(r.(room := s.room + 1), t, Idle);
    Moves(r, t, RecvPost, r.(room := s.room + 1), Idle);
    LastOne(Goto(r, t, RecvPost), t, end);
    Moves(s, t, RecvTake, r, RecvPost);
    OneMore(Goto(s, t, RecvTake), t, Goto(r, t, RecvPost), 1, end);
  }

  /** After every run: if the channel is open and has room, a send that nobody disturbs puts its value
      behind the others and its permit down for a receiver.  If the channel is closed, it changes
      nothing. */
  lemma SendAlone<V>(evs: seq<Event<V>>, t: nat, v: V)
    ensures var s := Run(Fresh<V>(), evs);
            At(s, t).Idle? ==>
              && (s.closed ==> Alone(Apply(s, Send(t, v)), t, 1) == Goto(s, t, Idle))
              && (!s.closed && s.room > 0 ==> Alone(Apply(s, Send(t, v)), t, 5) == Goto(AfterSend(s, v), t, Idle))
  {
    var s := Run(Fresh<V>(), evs);
    RunKeeps(evs);
    hide Run, Alone;
    if At(s, t).Idle? && s.closed {
      Moves(s, t, SendCheck(v), s, Idle);
      LastOne(Goto(s, t, SendCheck(v)), t, Goto(s, t, Idle));
    } else if At(s, t).Idle? && s.room > 0 {
      SendSteps(s, t, v);
    }
  }

  /** After every run: if the channel is open and a permit is there, a receive that nobody disturbs takes
      the oldest value and makes room.  If the channel is closed without permits, it changes nothing. */
  lemma RecvAlone<V>(evs: seq<Event<V>>, t: nat)
    ensures var s := Run(Fresh<V>(), evs);
            At(s, t).Idle? ==>
              && (s.closed && s.count == 0 ==> Alone(Apply(s, Recv(t)), t, 2) == Goto(s, t, Idle))
              && (!s.closed && s.count > 0 ==>
                    s.queue != [] && Alone(Apply(s, Recv(t)), t, 7) == Goto(AfterRecv(s), t, Idle))
  {
    var s := Run(Fresh<V>(), evs);
    RunKeeps(evs);
    hide Run, Alone;
    if At(s, t).Idle? && s.closed && s.count == 0 {
      Moves(s, t, RecvClosed(0), s, Idle);
      LastOne(Goto(s, t, RecvClosed(0)), t, Goto(s, t, Idle));
      Moves(s, t, RecvCount, s, RecvClosed(0));
      OneMore(Goto(s, t, RecvCount), t, Goto(s, t, RecvClosed(0)), 1, Goto(s, t, Idle));
    } else if At(s, t).Idle? && !s.closed && s.count > 0 {
      RecvSteps(s, t);
    }
  }

  /** After every run: a stop that nobody disturbs closes the channel and puts down one permit on each
      side that is below the capacity, so that a waiting agent goes on and sees the channel closed. */
  lemma StopAlone<V>(evs: seq<Event<V>>, t: nat)
    ensures var s := Run(Fresh<V>(), evs);
            At(s, t).Idle? ==>
              var s' := Alone(Apply(s, Stop(t)), t, 3);
              && s'.closed && s'.queue == s.queue && s'.pcs == s.pcs[t := Idle] && s'.count > 0 && s'.room > 0
              && (s.count < 1024 ==> s'.count == s.count + 1) && (s.count >= 1024 ==> s'.count == s.count)
              && (s.room < 1024 ==> s'.room == s.room + 1) && (s.room >= 1024 ==> s'.room == s.room)
  {
    var s := Run(Fresh<V>(), evs);
    hide Run, Alone;
    if At(s, t).Idle? {
      var s1 := s.(closed := true);
      var s2 := s1.(count := Released(s.count));
      var s3 := s2.(room := Released(s.room));
      Moves(s2, t, StopRoom, s3, Idle);
      LastOne(Goto(s2, t, StopRoom), t, Goto(s3, t, Idle));
      Moves(s1, t, StopCount, s2, StopRoom);
      OneMore(Goto(s1, t, StopCount), t, Goto(s2, t, StopRoom), 1, Goto(s3, t, Idle));
      Moves(s, t, StopStore, s1, StopCount);
      OneMore(Goto(s, t, StopStore), t, Goto(s1, t, StopCount), 2, Goto(s3, t, Idle));
    }
  }
}
