/** The channel with its operations run one at a time.

    Closing adds one permit to the receivers' semaphore.  It is the sentinel: the receiver that takes
    the last permit of a closed channel reports the end instead of a value.
 */
module Channel {

  const CAPACITY: nat := 1024

  datatype Chan<V> = Chan(closed: bool, count: nat, room: nat, queue: seq<V>)

  /** `Full`, `Blocked`: the operation would wait, and nobody else runs. */
  datatype Sent<V> = Accepted | Rejected(value: V) | Full

  datatype Got<V> = Value(value: V) | End | Blocked

  function Released(x: nat): nat {
    if x < CAPACITY then x + 1 else x
  }

  function AfterSend<V>(s: Chan<V>, v: V): Chan<V> {
    if s.closed || s.room == 0 then s
    else s.(room := s.room - 1, count := Released(s.count),
            queue := if |s.queue| < CAPACITY then s.queue + [v] else s.queue)
  }

  function AfterStop<V>(s: Chan<V>): Chan<V> {
    s.(closed := true, count := Released(s.count), room := Released(s.room))
  }

  function AfterRecv<V>(s: Chan<V>): Chan<V> {
    if s.count == 0 then s
    else if s.count == 1 && s.closed then s.(count := 0)
    else s.(count := s.count - 1, room := Released(s.room), queue := if s.queue == [] then [] else s.queue[1..])
  }

  function RecvResult<V>(s: Chan<V>): Got<V> {
    if s.count == 0 then if s.closed then End else Blocked
    else if (s.count == 1 && s.closed) || s.queue == [] then End
    else Value(s.queue[0])
  }

  /** Before the first stop: one permit for every value, one for every free place. */
  predicate Open<V>(s: Chan<V>) {
    !s.closed && s.count == |s.queue| && s.count + s.room == CAPACITY
  }

  class Channel<V> {
    var closed: bool
    var count: nat
    var room: nat
    var queue: seq<V>

    function Now(): Chan<V>
      reads this
    {
      Chan(closed, count, room, queue)
    }

    constructor ()
      ensures Open(Now()) && queue == []
    {
      closed, count, room, queue := false, 0, CAPACITY, [];
    }

    method Send(v: V) returns (r: Sent<V>)
      modifies this
      ensures Now() == AfterSend(old(Now()), v)
      ensures r == if old(closed) then Rejected(v) else if old(room) == 0 then Full else Accepted
      ensures !r.Accepted? ==> Now() == old(Now())
      ensures old(Open(Now())) ==>
                && Open(Now())
                && (r.Full? <==> |old(queue)| == CAPACITY)
                && queue == (if r.Full? then old(queue) else old(queue) + [v])
    {
      if closed {
        return Rejected(v);
      }
      if room == 0 {
        return Full;
      }
      room := room - 1;
      if |queue| < CAPACITY {
        queue := queue + [v];
      }
      count := Released(count);
      r := Accepted;
    }

    method Recv() returns (r: Got<V>)
      modifies this
      ensures Now() == AfterRecv(old(Now())) && r == RecvResult(old(Now()))
      ensures old(Open(Now())) ==>
                Open(Now()) && if old(queue) == [] then r.Blocked?
                               else r == Value(old(queue)[0]) && queue == old(queue)[1..]
    {
      if count == 0 && closed {
        return End;
      }
      if count == 0 {
        return Blocked;
      }
      count := count - 1;
      if count == 0 && closed {
        return End;
      }
      if queue == [] {
        r := End;
      } else {
        r := Value(queue[0]);
        queue := queue[1..];
      }
      room := Released(room);
    }

    /** A stop keeps what is buffered and puts the sentinel behind it: the receiver gets the buffered
        values and then the end for ever, except that a full buffer has no permit left for the sentinel
        and loses its last value. */
    method Stop()
      modifies this
      ensures Now() == AfterStop(old(Now()))
      ensures old(Open(Now())) ==>
                var kept := if |queue| < CAPACITY then |queue| else CAPACITY - 1;
                && queue == old(queue) && Sealed(Now(), kept)
                && forall n: nat :: Drain(Now(), n) == Expected(queue[..kept], n)
    {
      ghost var was := Now();
      closed := true;
      count := Released(count);
      room := Released(room);
      if Open(was) {
        ghost var kept := if |queue| < CAPACITY then |queue| else CAPACITY - 1;
        forall n: nat
          ensures Drain(Now(), n) == Expected(queue[..kept], n)
        {
          DrainsSealed(Now(), kept, n);
        }
      }
    }
  }

  // ---------- Draining a closed channel ----------

  /** The results of the next `n` receives. */
  function Drain<V>(s: Chan<V>, n: nat): seq<Got<V>>
    decreases n
  {
    if n == 0 then [] else [RecvResult(s)] + Drain(AfterRecv(s), n - 1)
  }

  /** The values in order, and then the end, again and again. */
  function Expected<V>(q: seq<V>, n: nat): seq<Got<V>> {
    seq(n, i requires 0 <= i => if i < |q| then Value(q[i]) else End)
  }

  /** A closed channel with a sentinel behind the permits of its values. */
  predicate Sealed<V>(s: Chan<V>, k: nat) {
    s.closed && k <= |s.queue| && s.count == k + 1
  }

  lemma {:induction false} AtEnd<V>(s: Chan<V>, n: nat)
    requires s.closed && s.count == 0
    ensures Drain(s, n) == Expected([], n)
  {
    if n > 0 {
      AtEnd(s, n - 1);
    }
  }

  lemma {:induction false} DrainsSealed<V>(s: Chan<V>, k: nat, n: nat)
    requires Sealed(s, k)
    ensures Drain(s, n) == Expected(s.queue[..k], n)
    decreases n
  {
    if n > 0 {
      var s' := AfterRecv(s);
      if k == 0 {
        AtEnd(s', n - 1);
        assert s.queue[..k] == [];
      } else {
        DrainsSealed(s', k - 1, n - 1);
        assert s'.queue[..k - 1] == s.queue[1..k];
      }
      assert Drain(s, n) == [RecvResult(s)] + Drain(s', n - 1);
    }
  }

  /** After a stop the receiver gets the buffered values in order and then sees the end for ever, except
      that with a full buffer the last value is lost: the sentinel has no permit left. */
  lemma DrainsAfterStop<V>(s: Chan<V>, n: nat)
    requires Open(s)
    ensures Drain(AfterStop(s), n) == Expected(if |s.queue| < CAPACITY then s.queue else s.queue[..CAPACITY - 1], n)
  {
    var s' := AfterStop(s);
    if |s.queue| < CAPACITY {
      DrainsSealed(s', |s.queue|, n);
      assert s.queue[..|s.queue|] == s.queue;
    } else {
      DrainsSealed(s', CAPACITY - 1, n);
    }
  }

  /** So everything that was buffered arrives if and only if fewer than 1024 values were buffered. */
  lemma DrainsAllExactly<V>(s: Chan<V>)
    requires Open(s)
    ensures (forall n: nat :: Drain(AfterStop(s), n) == Expected(s.queue, n)) <==> |s.queue| < CAPACITY
  {
    forall n: nat | |s.queue| < CAPACITY
      ensures Drain(AfterStop(s), n) == Expected(s.queue, n)
    {
      DrainsAfterStop(s, n);
    }
    if |s.queue| == CAPACITY {
      DrainsAfterStop(s, CAPACITY);
      assert Expected(s.queue, CAPACITY)[CAPACITY - 1].Value?;
      assert Expected(s.queue[..CAPACITY - 1], CAPACITY)[CAPACITY - 1].End?;
    }
  }
}
