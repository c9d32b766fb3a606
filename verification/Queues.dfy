/** Queues shared between threads: producers append under a lock, one consumer swaps the queue
    out, works on part of it, and puts the rest back in front. */
module Queues {

  /** Pushing a batch back element by element from its end, as the front inserter does. */
  method PushFront<T>(batch: seq<T>, queue: seq<T>) returns (r: seq<T>)
    ensures r == batch + queue
  {
    r := queue;
    var i := |batch|;
    while i > 0
      invariant 0 <= i <= |batch| && r == batch[i..] + queue
    {
      i := i - 1;
      r := [batch[i]] + r;
      assert batch[i..] == [batch[i]] + batch[i + 1..];
    }
  }

  // -------------------------------------- every interleaving, as a machine

  /** `batch` is the consumer's local queue; `budget` what it may still take from it. */
  datatype State<T> = State(shared: seq<T>, batch: seq<T>, busy: bool, budget: nat, delivered: seq<T>, history: seq<T>)

  /** Lock-protected or thread-local steps; any producer may run between two consumer steps. */
  datatype Action<T> = Enqueue(x: T) | Swap | Deliver | PutBack

  predicate Enabled<T>(s: State<T>, a: Action<T>) {
    match a
    case Enqueue(_) => true
    case Swap => !s.busy
    case Deliver => s.busy && s.batch != [] && s.budget > 0
    case PutBack => s.busy
  }

  function Next<T>(s: State<T>, a: Action<T>, max: nat): State<T>
    requires Enabled(s, a)
  {
    match a
    case Enqueue(x) => s.(shared := s.shared + [x], history := s.history + [x])
    case Swap => s.(shared := [], batch := s.shared, busy := true, budget := max)
    case Deliver => s.(batch := s.batch[1..], budget := s.budget - 1, delivered := s.delivered + [s.batch[0]])
    case PutBack => s.(shared := s.batch + s.shared, batch := [], busy := false)
  }

  ghost predicate EnabledRun<T>(s: State<T>, actions: seq<Action<T>>, max: nat)
    decreases |actions|
  {
    actions == [] || (Enabled(s, actions[0]) && EnabledRun(Next(s, actions[0], max), actions[1..], max))
  }

  ghost function After<T>(s: State<T>, actions: seq<Action<T>>, max: nat): State<T>
    requires EnabledRun(s, actions, max)
    decreases |actions|
  {
    if actions == [] then s else After(Next(s, actions[0], max), actions[1..], max)
  }

  /** Nothing lost, nothing twice, nothing out of order. */
  ghost predicate InOrder<T>(s: State<T>) {
    s.delivered + s.batch + s.shared == s.history && (!s.busy ==> s.batch == [])
  }

  lemma StepInOrder<T>(s: State<T>, a: Action<T>, max: nat)
    requires InOrder(s) && Enabled(s, a)
    ensures InOrder(Next(s, a, max))
  {
  }

  /** Through every interleaving of producers and the consumer. */
  lemma {:induction false} RunInOrder<T>(s: State<T>, actions: seq<Action<T>>, max: nat)
    requires InOrder(s) && EnabledRun(s, actions, max)
    ensures InOrder(After(s, actions, max))
    ensures s.delivered <= After(s, actions, max).delivered && s.history <= After(s, actions, max).history
    decreases |actions|
  {
    if actions != [] {
      StepInOrder(s, actions[0], max);
      RunInOrder(Next(s, actions[0], max), actions[1..], max);
    }
  }

  function DeliversIn<T>(actions: seq<Action<T>>): nat {
    if actions == [] then 0 else (if actions[0].Deliver? then 1 else 0) + DeliversIn(actions[1..])
  }

  /** One round, from a swap on, never handles more than max elements. */
  lemma {:induction false} RoundIsBounded<T>(s: State<T>, actions: seq<Action<T>>, max: nat)
    requires EnabledRun(s, actions, max) && forall a :: a in actions ==> !a.Swap?
    ensures DeliversIn(actions) <= s.budget
    ensures |After(s, actions, max).delivered| == |s.delivered| + DeliversIn(actions)
    decreases |actions|
  {
    if actions != [] {
      assert actions[0] in actions && forall a :: a in actions[1..] ==> a in actions;
      RoundIsBounded(Next(s, actions[0], max), actions[1..], max);
    }
  }

  lemma Rejoined<T>(delivered: seq<T>, q: seq<T>, late: seq<T>, n: nat)
    requires n <= |q|
    ensures (delivered + q[..n]) + (q[n..] + late) == (delivered + q) + late
    ensures q[n..] == [] ==> q[n..] + late == late
  {
  }

  lemma Later<T>(history: seq<T>, queue: seq<T>, late: seq<T>)
    ensures (history + queue) + late == history + (queue + late)
  {
  }

  lemma Released<T>(released: seq<T>, q: seq<T>, n: nat)
    requires n <= |q|
    ensures (released + q[..n]) + q[n..] == released + q
  {
  }

  /** What other threads enqueue during the first n steps of a loop. */
  function Arrived<T>(arrivals: nat -> seq<T>, n: nat): seq<T> {
    if n == 0 then [] else Arrived(arrivals, n - 1) + arrivals(n - 1)
  }

  // ------------------------------------------- the consumer in cnetlink

  /** packet_in and fdb_evts are drained by the same code. */
  class EventQueue<T> {
    var queue: seq<T>
    ghost var delivered: seq<T>
    ghost var history: seq<T>

    constructor ()
      ensures queue == [] && delivered == [] && history == []
    {
      queue, delivered, history := [], [], [];
    }

    ghost predicate Ordered()
      reads this
    {
      delivered + queue == history
    }

    method Learn(x: T)
      requires Ordered()
      modifies this
      ensures Ordered() && history == old(history) + [x] && queue == old(queue) + [x] && delivered == old(delivered)
    {
      assert delivered + (queue + [x]) == delivered + queue + [x];
      queue := queue + [x];
      history := history + [x];
    }

    /** One round: arrivals[i] is what other threads enqueue while element i is handled,
        running[i] whether the daemon is still in its running state by then. */
    method Handle(max: nat, arrivals: nat -> seq<T>, running: nat -> bool) returns (size: nat)
      requires Ordered()
      modifies this
      ensures Ordered() && size <= |old(queue)|
      // the first elements are handled, up to the limit or until the daemon stops; the others go back in front
      // of what arrived meanwhile
      ensures var n := |old(queue)| - size;
              && n <= max && (forall i :: 0 <= i < n ==> running(i))
              && (size > 0 && n < max ==> !running(n))
              && delivered == old(delivered) + old(queue)[..n]
              && queue == old(queue)[n..] + Arrived(arrivals, n)
              && history == old(history) + Arrived(arrivals, n)
    {
      var batch := queue;
      queue := [];
      var cnt := 0;
      while cnt < max && batch != [] && running(cnt)
        invariant cnt <= |old(queue)| && cnt <= max && batch == old(queue)[cnt..]
        invariant delivered == old(delivered) + old(queue)[..cnt] && forall i :: 0 <= i < cnt ==> running(i)
        invariant queue == Arrived(arrivals, cnt) && history == old(history) + queue
        decreases |batch|
      {
        delivered := delivered + [batch[0]];
        assert old(queue)[..cnt + 1] == old(queue)[..cnt] + [batch[0]];
        batch := batch[1..];
        history := history + arrivals(cnt);
        queue := queue + arrivals(cnt);
        cnt := cnt + 1;
      }
      size := |batch|;
      ghost var late := queue;
      if size > 0 {
        queue := PushFront(batch, queue);
      }
      Rejoined(old(delivered), old(queue), late, cnt);
    }
  }

  // -------------------------------------------------- the writer in tap_io

  type Packet = nat

  datatype Outcome = Written | Again | Failed

  class TapIo {
    var queue: seq<(nat, Packet)>
    /** Accepted packets given back to the allocator, in that order. */
    var released: seq<(nat, Packet)>
    /** Packets turned away and given back at once. */
    var refused: seq<Packet>
    ghost var written: seq<(nat, Packet)>
    ghost var history: seq<(nat, Packet)>

    constructor ()
      ensures Accounted() && queue == [] && released == [] && refused == []
    {
      queue, released, refused, written, history := [], [], [], [], [];
    }

    /** Every accepted packet was released, in order, or is still queued, in order. */
    ghost predicate Accounted()
      reads this
    {
      released + queue == history
    }

    /** A packet for a descriptor that is not (or no longer) registered is released at once. */
    method Enqueue(fd: int, pkt: Packet, registered: set<nat>) returns (accepted: bool)
      requires Accounted()
      modifies this
      ensures Accounted() && accepted == (fd >= 0 && fd in registered)
      ensures if accepted
              then queue == old(queue) + [(fd, pkt)] && history == old(history) + [(fd, pkt)] && refused == old(refused)
              else queue == old(queue) && history == old(history) && refused == old(refused) + [pkt]
      ensures released == old(released) && written == old(written)
    {
      if fd < 0 {
        refused := refused + [pkt];
        return false;
      }
      if fd !in registered {
        refused := refused + [pkt];
        return false;
      }
      assert released + (queue + [(fd, pkt)]) == released + queue + [(fd, pkt)];
      queue := queue + [(fd, pkt)];
      history := history + [(fd, pkt)];
      accepted := true;
    }

    /** outcome(i) is what the i-th write returns, arrivals(i) what is enqueued meanwhile. */
    method Tx(outcome: nat -> Outcome, arrivals: nat -> seq<(nat, Packet)>) returns (ghost n: nat)
      requires Accounted()
      modifies this
      ensures Accounted() && refused == old(refused)
      // the packets up to the first write that does not succeed are written
      ensures n <= |old(queue)| && written == old(written) + old(queue)[..n]
      ensures (forall i :: 0 <= i < n ==> outcome(i) == Written) && (n < |old(queue)| ==> outcome(n) != Written)
      ensures var late := Arrived(arrivals, if n < |old(queue)| then n + 1 else n);
              && history == old(history) + late
              // EAGAIN keeps the unwritten packets, in order and in front of everything newer
              && (n < |old(queue)| && outcome(n) == Again ==>
                    queue == old(queue)[n..] + late && released == old(released) + old(queue)[..n])
              // otherwise the whole batch has been released, each packet once
              && (n == |old(queue)| || outcome(n) == Failed ==>
                    queue == late && released == old(released) + old(queue))
    {
      var out := queue;
      queue := [];
      var i := 0;
      ghost var q := old(queue);
      while out != []
        invariant i <= |q| && out == q[i..]
        invariant released == old(released) + q[..i] && written == old(written) + q[..i]
        invariant queue == Arrived(arrivals, i) && history == old(history) + queue && refused == old(refused)
        invariant forall j :: 0 <= j < i ==> outcome(j) == Written
        decreases |out|
      {
        var pkt := out[0];
        var rc := outcome(i);
        history := history + arrivals(i);
        queue := queue + arrivals(i);
        Later(old(history), Arrived(arrivals, i), arrivals(i));
        n := i;
        if rc == Again {
          Rejoined(old(released), q, queue, i);
          queue := PushFront(out, queue);
          return;
        }
        if rc == Failed {
          Released(old(released), q, i);
          Release(out);
          return;
        }
        released := released + [pkt];
        written := written + [pkt];
        assert q[..i + 1] == q[..i] + [pkt];
        out := out[1..];
        i := i + 1;
      }
      n := i;
      assert q[..i] == q;
    }

    /** release_packets */
    method Release(q: seq<(nat, Packet)>)
      modifies this`released
      ensures released == old(released) + q
    {
      for i := 0 to |q|
        invariant released == old(released) + q[..i]
      {
        assert q[..i + 1] == q[..i] + [q[i]];
        released := released + [q[i]];
      }
      assert q[..|q|] == q;
    }
  }
}
