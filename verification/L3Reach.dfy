/** Which neighbours the switch should route to: those that the kernel reaches through an on-link route, by longest
    match. The code decides it piecemeal, event by event; this is when that gives the same. */
module L3Reach {
  import opened MacAddress
  import opened L3Types
  import opened L3Model
  import opened L3Kernel
  import opened L3Engine
  import opened L3Run

  type RouteTable = map<Addr, Route>

  /** d is the route that the kernel uses for address a. */
  ghost predicate Longest(t: RouteTable, a: Addr, d: Addr) {
    d in t && Covers(d, a) && forall x :: x in t && Covers(x, a) ==> |x.bits| <= |d.bits|
  }

  /** The kernel reaches a on-link. */
  ghost predicate OnLinkFor(t: RouteTable, a: Addr) {
    exists d :: Longest(t, a, d) && t[d].onLink
  }

  /** Another route is more specific for a. */
  ghost predicate Longer(t: RouteTable, a: Addr, dst: Addr) {
    exists x :: x in t && Covers(x, a) && |x.bits| > |dst.bits|
  }

  ghost function Reached(k: Kernel): set<NeighId> {
    set n | n in k.neighs && !IsLinkLocal(n.addr) && OnLinkFor(k.routes, n.addr)
  }

  /** The route query gives the kernel's answers. */
  ghost predicate Truthful(k: Kernel, ev: Event) {
    match ev
    case NeighUp(n, _, isRoutable) => isRoutable <==> OnLinkFor(k.routes, n.addr)
    case RouteNew(r, routable) => Answers(k, r, routable)
    case RouteChange(r, routable) => Answers(k, r, routable)
    case _ => true
  }

  ghost predicate Answers(k: Kernel, r: Route, routable: set<NeighId>) {
    forall n :: n in NeighsOfPrefix(k.unroutable, r.dst) ==>
      (n in routable <==> OnLinkFor(k.routes[r.dst := r], n.addr))
  }

  /** The event changes what the kernel reaches on-link just as the code takes it to: a new gateway route takes no
      routed neighbour away, the end of a gateway route uncovers no on-link route, the end of an on-link route
      uncovers none for the neighbours under it, and an on-link route that is changed was of no use. */
  ghost predicate Consistent(k: Kernel, ev: Event) {
    match ev
    case RouteNew(r, _) => r.onLink || forall n :: n in Covered(k, r.dst) ==> Longer(k.routes, n.addr, r.dst)
    case RouteGone(dst) =>
      forall n :: n in NeighsOfPrefix(if Disables(k, ev) then HostsOf(k) else k.unroutable, dst) ==>
        !OnLinkFor(k.routes - {dst}, n.addr)
    case RouteChange(r, _) =>
      Disables(k, ev) ==> forall n :: n in Reached(Adopt(k, r, ev.routable)) ==> !Covers(r.dst, n.addr)
    case _ => true
  }

  // ------------------------------------------------------ one route more or less

  lemma SameLength(a: Addr, d: Addr, x: Addr)
    requires Covers(d, a) && Covers(x, a) && |d.bits| == |x.bits|
    ensures d == x
  {
  }

  /** A route for dst, new or changed, decides just the addresses for which it is the most specific one. */
  lemma WithRoute(t: RouteTable, r: Route, a: Addr)
    ensures !Covers(r.dst, a) || Longer(t, a, r.dst) ==> (OnLinkFor(t[r.dst := r], a) <==> OnLinkFor(t, a))
    ensures Covers(r.dst, a) && !Longer(t, a, r.dst) ==> (OnLinkFor(t[r.dst := r], a) <==> r.onLink)
  {
    var t' := t[r.dst := r];
    if !Covers(r.dst, a) || Longer(t, a, r.dst) {
      forall d ensures Longest(t', a, d) <==> Longest(t, a, d) {
        if Longer(t, a, r.dst) {
          var x :| x in t && Covers(x, a) && |x.bits| > |r.dst.bits|;
          assert x in t';
        }
        assert forall x :: x in t ==> x in t';
      }
      forall d | Longest(t, a, d) ensures d != r.dst && t'[d] == t[d] {
        if Covers(r.dst, a) { var x :| x in t && Covers(x, a) && |x.bits| > |r.dst.bits|; }
      }
    } else {
      assert Longest(t', a, r.dst);
      forall d | Longest(t', a, d) ensures d == r.dst {
        assert |r.dst.bits| <= |d.bits|;
        if d != r.dst { assert d in t; SameLength(a, d, r.dst); }
      }
    }
  }

  lemma WithoutRoute(t: RouteTable, dst: Addr, a: Addr)
    requires dst in t
    ensures !Covers(dst, a) || Longer(t, a, dst) ==> (OnLinkFor(t - {dst}, a) <==> OnLinkFor(t, a))
    ensures Covers(dst, a) && !Longer(t, a, dst) ==> (OnLinkFor(t, a) <==> t[dst].onLink)
  {
    var t0 := t - {dst};
    if !Covers(dst, a) || Longer(t, a, dst) {
      forall d ensures Longest(t, a, d) <==> Longest(t0, a, d) {
        if Longer(t, a, dst) {
          var x :| x in t && Covers(x, a) && |x.bits| > |dst.bits|;
          assert x in t0;
        }
        assert forall x :: x in t0 ==> x in t;
      }
      forall d | Longest(t0, a, d) ensures t0[d] == t[d] {}
    } else {
      assert Longest(t, a, dst);
      forall d | Longest(t, a, d) ensures d == dst {
        assert |dst.bits| <= |d.bits|;
        SameLength(a, d, dst);
      }
    }
  }

  // ------------------------------------------------------------------ events

  /** A neighbour is routed just when the kernel reaches it on-link. */
  ghost predicate Right(k: Kernel, n: NeighId) {
    n in k.neighs && !IsLinkLocal(n.addr) ==> (n !in k.unroutable <==> OnLinkFor(k.routes, n.addr))
  }

  lemma RightIff(k: Kernel)
    ensures HostsOf(k) == Reached(k) <==> forall n :: Right(k, n)
  {
    hide OnLinkFor, IsLinkLocal;
    if HostsOf(k) == Reached(k) {
      forall n ensures Right(k, n) { assert n in HostsOf(k) <==> n in Reached(k); }
    }
    if forall n :: Right(k, n) {
      forall n ensures n in HostsOf(k) <==> n in Reached(k) { assert Right(k, n); }
    }
  }

  lemma NewRight(k: Kernel, r: Route, routable: set<NeighId>, n: NeighId)
    requires r.onLink && Right(k, n) && Answers(k, r, routable)
    ensures Right(Adopt(k, r, routable), n)
  {
    hide OnLinkFor, Longer, IsLinkLocal;
    WithRoute(k.routes, r, n.addr);
    assert n in k.unroutable && Covers(r.dst, n.addr) ==> n in NeighsOfPrefix(k.unroutable, r.dst);
  }

  lemma GatewayRight(k: Kernel, r: Route, routable: set<NeighId>, n: NeighId)
    requires !r.onLink && Right(k, n) && n in k.neighs && !IsLinkLocal(n.addr)
    ensures Right(Adopt(k, r, routable), n) <==> (n in Covered(k, r.dst) ==> Longer(k.routes, n.addr, r.dst))
  {
    hide OnLinkFor, Longer, IsLinkLocal;
    WithRoute(k.routes, r, n.addr);
  }

  lemma GoneRight(k: Kernel, dst: Addr, n: NeighId)
    requires Right(k, n) && n in k.neighs && !IsLinkLocal(n.addr) && dst in k.routes
    ensures var ev := RouteGone(dst);
            Right(Step(k, ev), n) <==>
              (n in NeighsOfPrefix(if Disables(k, ev) then HostsOf(k) else k.unroutable, dst) ==>
                 !OnLinkFor(k.routes - {dst}, n.addr))
  {
    hide OnLinkFor, Longer, IsLinkLocal;
    WithoutRoute(k.routes, dst, n.addr);
  }

  /** Under a changed route that was on-link nobody is routed any more. */
  lemma ChangeRight(k: Kernel, r: Route, routable: set<NeighId>, n: NeighId)
    requires Right(k, n) && n in k.neighs && !IsLinkLocal(n.addr) && Disables(k, RouteChange(r, routable))
    ensures Right(Step(k, RouteChange(r, routable)), n) <==>
              (n in Reached(Adopt(k, r, routable)) ==> !Covers(r.dst, n.addr))
  {
    hide OnLinkFor, Longer, IsLinkLocal;
    WithRoute(k.routes, r, n.addr);
  }

  lemma ReplaceRight(k: Kernel, r: Route, routable: set<NeighId>, n: NeighId)
    requires Right(k, n) && n in k.neighs && !IsLinkLocal(n.addr)
    requires r.dst in k.routes && !k.routes[r.dst].onLink && !r.onLink
    ensures Right(Adopt(k, r, routable), n)
  {
    hide OnLinkFor, Longer, IsLinkLocal;
    WithRoute(k.routes, r, n.addr);
    WithoutRoute(k.routes, r.dst, n.addr);
  }

  /** The neighbours that are routed stay just those that the kernel reaches on-link, if and only if the event
      is consistent. */
  lemma ReachIff(links: Links, k: Kernel, ev: Event)
    requires KernelOk(links, k) && Possible(links, k, ev) && Truthful(k, ev) && HostsOf(k) == Reached(k)
    ensures HostsOf(Step(k, ev)) == Reached(Step(k, ev)) <==> Consistent(k, ev)
  {
    RightIff(k);
    RightIff(Step(k, ev));
    hide HostsOf, Reached;
    match ev {
      case NeighUp(_, _, _) => UpRight(k, ev);
      case NeighDown(_, _) => DownRight(k, ev);
      case RouteNew(r, routable) => NewConsistent(links, k, r, routable);
      case RouteGone(dst) => GoneConsistent(links, k, dst);
      case RouteChange(r, routable) => ChangeConsistent(links, k, r, routable);
    }
  }

  lemma UpRight(k: Kernel, ev: Event)
    requires ev.NeighUp? && Truthful(k, ev) && ev.n !in k.neighs && k.unroutable <= k.neighs.Keys
    requires forall n :: Right(k, n)
    ensures forall n :: Right(Step(k, ev), n)
  {
    hide OnLinkFor, IsLinkLocal;
    forall n ensures Right(Step(k, ev), n) { assert Right(k, n); }
  }

  lemma DownRight(k: Kernel, ev: Event)
    requires ev.NeighDown? && forall n :: Right(k, n)
    ensures forall n :: Right(Step(k, ev), n)
  {
    hide OnLinkFor, IsLinkLocal;
    forall n ensures Right(Step(k, ev), n) { assert Right(k, n); }
  }

  lemma NewConsistent(links: Links, k: Kernel, r: Route, routable: set<NeighId>)
    requires KernelOk(links, k) && Truthful(k, RouteNew(r, routable)) && forall n :: Right(k, n)
    ensures (forall n :: Right(Step(k, RouteNew(r, routable)), n)) <==> Consistent(k, RouteNew(r, routable))
  {
    hide OnLinkFor, Longer, IsLinkLocal, Covers;
    var k1 := Adopt(k, r, routable);
    assert Step(k, RouteNew(r, routable)) == k1 && k1.neighs == k.neighs;
    if r.onLink {
      forall n ensures Right(k1, n) { NewRight(k, r, routable, n); }
    } else {
      forall n ensures Right(k1, n) <==> (n in Covered(k, r.dst) ==> Longer(k.routes, n.addr, r.dst)) {
        if n in k.neighs && !IsLinkLocal(n.addr) { GatewayRight(k, r, routable, n); }
      }
      hide Right, Covered;
    }
  }

  lemma GoneConsistent(links: Links, k: Kernel, dst: Addr)
    requires KernelOk(links, k) && dst in k.routes && forall n :: Right(k, n)
    ensures (forall n :: Right(Step(k, RouteGone(dst)), n)) <==> Consistent(k, RouteGone(dst))
  {
    hide OnLinkFor, Longer, IsLinkLocal, Covers, RouteOk, IsHost, IsNet;
    var ev := RouteGone(dst);
    var ns := NeighsOfPrefix(if Disables(k, ev) then HostsOf(k) else k.unroutable, dst);
    forall n | n in k.neighs && !IsLinkLocal(n.addr)
      ensures Right(Step(k, ev), n) <==> (n in ns ==> !OnLinkFor(k.routes - {dst}, n.addr)) {
      GoneRight(k, dst, n);
    }
    assert forall n :: n in ns ==> n in k.neighs && !IsLinkLocal(n.addr);
    assert Step(k, ev).neighs == k.neighs;
  }

  lemma ChangeConsistent(links: Links, k: Kernel, r: Route, routable: set<NeighId>)
    requires KernelOk(links, k) && Possible(links, k, RouteChange(r, routable)) && Truthful(k, RouteChange(r, routable))
    requires forall n :: Right(k, n)
    ensures (forall n :: Right(Step(k, RouteChange(r, routable)), n)) <==> Consistent(k, RouteChange(r, routable))
  {
    hide OnLinkFor, Longer, IsLinkLocal, Covers, RouteOk, IsHost, IsNet;
    var ev, k1 := RouteChange(r, routable), Adopt(k, r, routable);
    assert Step(k, ev).neighs == k.neighs;
    if Disables(k, ev) {
      forall n | n in k.neighs && !IsLinkLocal(n.addr)
        ensures Right(Step(k, ev), n) <==> (n in Reached(k1) ==> !Covers(r.dst, n.addr)) {
        ChangeRight(k, r, routable, n);
      }
      assert forall n :: n in Reached(k1) ==> n in k.neighs && !IsLinkLocal(n.addr);
    } else {
      forall n ensures Right(k1, n) {
        if r.onLink {
          NewRight(k, r, routable, n);
        } else if n in k.neighs && !IsLinkLocal(n.addr) {
          ReplaceRight(k, r, routable, n);
        }
      }
    }
  }

  /** Over whole runs: as long as the events are consistent, exactly the neighbours that the kernel reaches on-link are
      routed. */
  lemma {:induction false} ReachRun(links: Links, events: seq<Event>)
    requires PossibleRun(links, events)
    requires forall i :: 0 <= i < |events| ==>
               Truthful(Final(events[..i]), events[i]) && Consistent(Final(events[..i]), events[i])
    ensures KernelOk(links, Final(events)) && HostsOf(Final(events)) == Reached(Final(events))
  {
    hide Possible, Truthful, Consistent, Step, KernelOk, HostsOf, Reached;
    if events == [] {
      NothingReached(links);
    } else {
      var before, i := events[..|events| - 1], |events| - 1;
      forall j | 0 <= j < i
        ensures Possible(links, Final(before[..j]), before[j])
                && Truthful(Final(before[..j]), before[j]) && Consistent(Final(before[..j]), before[j]) {
        assert before[..j] == events[..j];
      }
      ReachRun(links, before);
      assert events[..i] == before;
      ReachIff(links, Final(before), events[i]);
      StepOk(links, Final(before), events[i]);
    }
  }

  lemma NothingReached(links: Links)
    ensures KernelOk(links, NOTHING) && HostsOf(NOTHING) == Reached(NOTHING)
  {
  }

  // ------------------------------------------------------------- host entries

  /** While the engine tracks the kernel, the host table of the switch holds the addresses that the kernel reaches
      on-link, if and only if these neighbours are the ones that are routed. */
  lemma HostEntriesIff(e: NlL3, k: Kernel, missed: set<NeighId>)
    requires Tracks(e, k, missed)
    ensures e.sw.hosts.Keys == (set n | n in Reached(k) :: n.addr) <==> HostsOf(k) == Reached(k)
  {
    TracksMeans(e, k, missed);
    TracksParts(e, k, missed);
    var keys := Known(e.links, k, missed);
    assert HostsOk(e.sw.hosts, HostsOf(k), keys, e.egress);
    hide Tracks, Exact, NlL3.Settled, NlL3.Listed, NlL3.Parting, Known, OnLinkFor, NoRouteVia, IsNet, RouteOk;
    if e.sw.hosts.Keys == set n | n in Reached(k) :: n.addr {
      SameAddresses(e.sw.hosts, keys, e.egress, e.links, k);
    }
  }

  lemma SameAddresses(table: map<Addr, nat>, keys: Keys, egress: Egress, links: Links, k: Kernel)
    requires KernelOk(links, k) && HostsOk(table, HostsOf(k), keys, egress)
    requires table.Keys == set n | n in Reached(k) :: n.addr
    ensures HostsOf(k) == Reached(k)
  {
    hide OnLinkFor, IsLinkLocal, IsHost, IsNet, RouteOk;
    forall n | n in HostsOf(k) ensures n in Reached(k) {
      assert n.addr in table.Keys;
      var m :| m in Reached(k) && m.addr == n.addr;
    }
    forall n | n in Reached(k) ensures n in HostsOf(k) {
      assert n.addr in table.Keys;
      assert n.addr in table;
      var m :| m in HostsOf(k) && m.addr == n.addr;
    }
  }
}
