/** Whole runs of the layer-3 engine: whatever sequence of neighbour and route events arrives, the engine's
    tables and the switch are determined by the kernel state and by the neighbours that went unnoticed, up to
    the first event in which these get mixed up. */
module L3Run {
  import opened MacAddress
  import opened L3Types
  import opened L3Switch
  import opened L3Model
  import opened L3Release
  import opened L3Walk
  import opened L3Kernel
  import opened L3Engine
  import PrefixSearch

  /** The engine and the switch follow kernel state k, except that the routes take the neighbours in `missed` for
      unresolved; each of these is the next hop of a route. `routes` are the routes that lists and groups follow,
      and `aside` those of them that are on their way out. */
  ghost predicate Tracking(e: NlL3, k: Kernel, missed: set<NeighId>, routes: Routes, aside: Aside)
    reads e
  {
    && KernelOk(e.links, k) && e.unroutable == k.unroutable && e.routable == HostsOf(k)
    && missed <= k.unroutable && (forall n :: n in missed ==> !NoRouteVia(routes, n))
    && e.Resting(routes, Known(e.links, k, missed), aside)
  }

  /** The same between events. */
  ghost predicate Tracks(e: NlL3, k: Kernel, missed: set<NeighId>)
    reads e
  {
    Tracking(e, k, missed, NhRoutes(k), map[])
  }

  /** The engine and the switch mirror kernel state k: nobody is missed. */
  ghost predicate Mirrors(e: NlL3, k: Kernel)
    reads e
  {
    Tracks(e, k, {})
  }

  /** Each (destination, next hop) pair is watched when its neighbour is resolved and waits otherwise. */
  ghost predicate ListsMatch(waiting: seq<Pair>, watching: seq<Pair>, k: Kernel) {
    && (forall p :: p in watching <==> Wants(NhRoutes(k), p) && p.nh.Id() in k.neighs)
    && (forall p :: p in waiting <==> Wants(NhRoutes(k), p) && p.nh.Id() !in k.neighs)
  }

  lemma TracksOf(e: NlL3, k: Kernel, missed: set<NeighId>)
    requires KernelOk(e.links, k) && e.unroutable == k.unroutable && e.routable == HostsOf(k)
    requires missed <= k.unroutable && forall n :: n in missed ==> !NoRouteVia(NhRoutes(k), n)
    requires e.Settled(NhRoutes(k), Known(e.links, k, missed))
    ensures Tracks(e, k, missed)
  {
  }

  lemma TracksParts(e: NlL3, k: Kernel, missed: set<NeighId>)
    requires Tracks(e, k, missed)
    ensures KernelOk(e.links, k) && e.unroutable == k.unroutable && e.routable == HostsOf(k)
    ensures missed <= k.unroutable && forall n :: n in missed ==> !NoRouteVia(NhRoutes(k), n)
    ensures e.Settled(NhRoutes(k), Known(e.links, k, missed)) && e.Listed(NhRoutes(k), Known(e.links, k, missed), [])
    ensures e.Parting(NhRoutes(k), Known(e.links, k, missed), {})
  {
  }

  /** Lists that follow the kernel except for the neighbours in ns, which they take for the opposite of
      what they are, match exactly when no route goes through these. */
  lemma MistakenLists(waiting: seq<Pair>, watching: seq<Pair>, k: Kernel, k': Kernel, ns: set<NeighId>)
    requires ListsMatch(waiting, watching, k) && NhRoutes(k') == NhRoutes(k)
    requires forall m :: m !in ns ==> (m in k.neighs <==> m in k'.neighs)
    requires forall n :: n in ns ==> (n in k.neighs <==> n !in k'.neighs)
    ensures ListsMatch(waiting, watching, k') <==> forall n :: n in ns ==> NoRouteVia(NhRoutes(k), n)
  {
    var routes := NhRoutes(k);
    if n :| n in ns && !NoRouteVia(routes, n) {
      var d, nh: NhStub :| d in routes && nh in routes[d] && nh.Id() == n;
      assert Wants(routes, Pair(d, nh));
      assert Pair(d, nh) in watching <==> n in k.neighs;
    }
  }

  /** Lists that take just the neighbours in ns for unresolved. */
  lemma ListsWithout(waiting: seq<Pair>, watching: seq<Pair>, links: Links, k: Kernel, ns: set<NeighId>)
    requires KernelOk(links, k) && ns <= k.neighs.Keys
    requires ListsOk(waiting, watching, NhRoutes(k), {}, Known(links, k, ns), Known(links, k, ns))
    ensures ListsMatch(waiting, watching, k) <==> forall n :: n in ns ==> NoRouteVia(NhRoutes(k), n)
  {
    var k1 := k.(neighs := k.neighs - ns);
    assert ListsMatch(waiting, watching, k1) && NhRoutes(k1) == NhRoutes(k);
    hide ListsOk, ListsMatch, KernelOk, NoRouteVia, NhRoutes, Known;
    MistakenLists(waiting, watching, k1, k, ns);
  }

  /** The lists match, and the whole mirror holds, if and only if nobody is missed. */
  lemma TracksMatch(e: NlL3, k: Kernel, missed: set<NeighId>)
    requires Tracks(e, k, missed)
    ensures ListsMatch(e.waiting, e.watching, k) <==> missed == {}
    ensures Mirrors(e, k) <==> missed == {}
  {
    ListsOfTracks(e, k, missed);
    if Mirrors(e, k) { ListsOfTracks(e, k, {}); }
    hide Tracks, Tracking, ListsMatch, NoRouteVia, NhRoutes;
    if n :| n in missed { assert !NoRouteVia(NhRoutes(k), n); }
  }

  lemma ListsOfTracks(e: NlL3, k: Kernel, missed: set<NeighId>)
    requires Tracks(e, k, missed)
    ensures ListsMatch(e.waiting, e.watching, k) <==> forall n :: n in missed ==> NoRouteVia(NhRoutes(k), n)
    ensures forall n :: n in missed ==> !NoRouteVia(NhRoutes(k), n)
  {
    hide ListsMatch, NoRouteVia, NhRoutes, Known, NlL3.Midst;
    ListsWithout(e.waiting, e.watching, e.links, k, missed);
  }

  /** The caches resolve next hops that are not missed as the routes take them to be. */
  lemma CacheInSync(links: Links, k: Kernel, missed: set<NeighId>)
    requires KernelOk(links, k)
    ensures CacheRoutes(CacheOf(k), NhRoutes(k)) && CacheOf(k).neighs == k.neighs
    ensures forall s :: NoneIn(s, missed) ==> CacheAgrees(CacheOf(k), links, s, Known(links, k, missed))
    ensures forall ns :: Untouched(NhRoutes(k), ns, missed) ==>
              CacheSync(CacheOf(k), links, NhRoutes(k), Known(links, k, missed), ns)
  {
    hide IsHost, IsNet, RouteOk, KeyOf;
    forall ns | Untouched(NhRoutes(k), ns, missed)
      ensures CacheSync(CacheOf(k), links, NhRoutes(k), Known(links, k, missed), ns) {
      hide KernelOk;
    }
  }

  /** What holds even when track is lost: both kinds of references are counted for what the lists say, and
      every message met the groups it expects. */
  ghost predicate Tallied(e: NlL3, k: Kernel, keys: Keys)
    reads e
  {
    && KernelOk(e.links, k) && e.unroutable == k.unroutable && e.routable == HostsOf(k)
    && Counted(e.egress, e.routable, e.watching, keys) && GroupsCounted(e.ecmp, NhRoutes(k), {})
    && e.Wired() && e.sw == Replay(e.log) && Proper(e.log)
  }

  lemma SettledTallied(e: NlL3, k: Kernel, keys: Keys)
    requires KernelOk(e.links, k) && e.unroutable == k.unroutable && e.routable == HostsOf(k)
    requires e.Settled(NhRoutes(k), keys)
    ensures Tallied(e, k, keys) && ClosedThroughout(e.log)
  {
  }

  // ------------------------------------------------------------ neighbours

  /** All the facts a new neighbour needs. */
  lemma NeighUpReady(e: NlL3, n: NeighId, mac: Mac, isRoutable: bool, k: Kernel, missed: set<NeighId>)
    requires Tracks(e, k, missed) && Possible(e.links, k, NeighUp(n, mac, isRoutable))
    ensures n.ifindex in e.links && n !in Known(e.links, k, missed) && n !in missed && n !in k.unroutable
    ensures forall h :: h in e.routable && !IsLinkLocal(n.addr) ==> h.addr != n.addr
    ensures var k', keys := Step(k, NeighUp(n, mac, isRoutable)), Known(e.links, k, missed);
            && KernelOk(e.links, k') && NhRoutes(k') == NhRoutes(k)
            && Known(e.links, k', missed) == keys[n := KeyOf(e.links, n, mac)]
            && Known(e.links, k', missed + {n}) == keys && Known(e.links, k', missed) - {n} == keys - {n}
            && HostsOf(k') == HostsOf(k) + (if isRoutable && !IsLinkLocal(n.addr) then {n} else {})
            && k'.unroutable == k.unroutable + (if isRoutable || IsLinkLocal(n.addr) then {} else {n})
            && n !in HostsOf(k) && (Untouched(NhRoutes(k), {n}, missed) ==>
                 CacheSync(CacheOf(k'), e.links, NhRoutes(k'), Known(e.links, k', missed), {n}))
  {
    TracksParts(e, k, missed);
    hide NlL3.Settled, NlL3.Listed, Tracks, NoRouteVia;
    StepOk(e.links, k, NeighUp(n, mac, isRoutable));
    var k' := Step(k, NeighUp(n, mac, isRoutable));
    assert NhRoutes(k') == NhRoutes(k);
    CacheInSync(e.links, k', missed);
    NeighUpHosts(e.links, k, n, mac, isRoutable);
    NeighUpKeys(e.links, k, n, mac, isRoutable, missed);
    hide KernelOk, Known, CacheSync, Untouched, NhRoutes;
  }

  lemma NeighUpKeys(links: Links, k: Kernel, n: NeighId, mac: Mac, isRoutable: bool, missed: set<NeighId>)
    requires KernelOk(links, k) && n.ifindex in links && n !in k.neighs && missed <= k.unroutable
    ensures n !in Known(links, k, missed) && n !in missed && n !in k.unroutable
    ensures var k', keys := Step(k, NeighUp(n, mac, isRoutable)), Known(links, k, missed);
            && Known(links, k', missed) == keys[n := KeyOf(links, n, mac)]
            && Known(links, k', missed + {n}) == keys && Known(links, k', missed) - {n} == keys - {n}
  {
    hide IsLinkLocal, IsHost, RouteOk, IsNet;
    var k' := Step(k, NeighUp(n, mac, isRoutable));
    assert k'.neighs == k.neighs[n := mac];
    assert n !in missed && n !in k.unroutable;
    hide Step, KernelOk, KeyOf, ResolvedKeys;
    OneKeyMore(links, k, k', n, mac);
    OneMoreKnown(ResolvedKeys(links, k), missed, n, KeyOf(links, n, mac));
  }

  lemma OneMoreKnown(all: Keys, missed: set<NeighId>, n: NeighId, key: EgressKey)
    requires n !in all && n !in missed
    ensures all[n := key] - missed == (all - missed)[n := key] && all[n := key] - (missed + {n}) == all - missed
    ensures all[n := key] - missed - {n} == all - missed - {n}
  {
  }

  lemma OneKeyMore(links: Links, k: Kernel, k': Kernel, n: NeighId, mac: Mac)
    requires n.ifindex in links && n !in k.neighs && k'.neighs == k.neighs[n := mac]
    ensures n !in ResolvedKeys(links, k)
    ensures ResolvedKeys(links, k') == ResolvedKeys(links, k)[n := KeyOf(links, n, mac)]
  {
    hide KeyOf;
  }

  lemma NeighUpHosts(links: Links, k: Kernel, n: NeighId, mac: Mac, isRoutable: bool)
    requires KernelOk(links, k) && n !in k.neighs
    ensures HostsOf(Step(k, NeighUp(n, mac, isRoutable)))
         == HostsOf(k) + (if isRoutable && !IsLinkLocal(n.addr) then {n} else {})
    ensures n !in HostsOf(k)
  {
  }

  /** A neighbour resolves. The routes through one that is not routed go on waiting: from then on it is missed. */
  method OnNeighUp(e: NlL3, n: NeighId, mac: Mac, isRoutable: bool, cache: Cache, ghost k: Kernel,
                   ghost missed: set<NeighId>)
    requires Tracks(e, k, missed) && Possible(e.links, k, NeighUp(n, mac, isRoutable))
    requires Avoids(k, missed, NeighUp(n, mac, isRoutable)) && cache == CacheOf(Step(k, NeighUp(n, mac, isRoutable)))
    modifies e
    ensures old(e.log) <= e.log
    ensures Tracks(e, Step(k, NeighUp(n, mac, isRoutable)), MissedNext(k, missed, NeighUp(n, mac, isRoutable)))
  {
    hide *;
    ghost var missed' := MissedNext(k, missed, NeighUp(n, mac, isRoutable));
    NeighUpMeans(k, missed, n, mac, isRoutable);
    ghost var k' := Step(k, NeighUp(n, mac, isRoutable));
    ghost var keys := Known(e.links, k, missed);
    TracksParts(e, k, missed);
    NeighUpReady(e, n, mac, isRoutable, k, missed);
    NobodyAside(NhRoutes(k), n);
    SettledRests(e, NhRoutes(k), keys);
    var rv := e.AddL3Neigh(n, mac, cache, isRoutable, NhRoutes(k), keys, map[]);
    SettledRests(e, NhRoutes(k), keys);
    SettledRests(e, NhRoutes(k), keys[n := KeyOf(e.links, n, mac)]);
    if !isRoutable && !IsLinkLocal(n.addr) && NoRouteVia(NhRoutes(k), n) {
      e.KeyWithoutUsers(NhRoutes(k), keys, Known(e.links, k', missed), {n});
    }
    TracksOf(e, k', missed');
  }

  lemma NobodyAside(routes: Routes, n: NeighId)
    ensures NotAside(routes, map[], n)
  {
  }

  lemma SettledRests(e: NlL3, routes: Routes, keys: Keys)
    ensures e.Settled(routes, keys) <==> e.Resting(routes, keys, map[])
  {
  }

  lemma NeighUpMeans(k: Kernel, missed: set<NeighId>, n: NeighId, mac: Mac, isRoutable: bool)
    ensures var ev, told := NeighUp(n, mac, isRoutable), isRoutable || IsLinkLocal(n.addr);
            && (Avoids(k, missed, ev) <==> (told ==> Untouched(NhRoutes(k), {n}, missed)))
            && MissedNext(k, missed, ev) == if told || NoRouteVia(NhRoutes(k), n) then missed else missed + {n}
  {
    hide Untouched, NhRoutes, NoRouteVia, IsLinkLocal;
  }

  /** All the facts a lost neighbour needs. */
  lemma NeighDownReady(e: NlL3, n: NeighId, mac: Mac, k: Kernel, missed: set<NeighId>)
    requires Tracks(e, k, missed) && Possible(e.links, k, NeighDown(n, mac))
    ensures n.ifindex in e.links && (n in HostsOf(k) <==> n !in k.unroutable && !IsLinkLocal(n.addr))
    ensures n !in k.unroutable ==> n !in missed
    ensures n !in missed ==> n in Known(e.links, k, missed) && Known(e.links, k, missed)[n] == KeyOf(e.links, n, mac)
    ensures var k', keys := Step(k, NeighDown(n, mac)), Known(e.links, k, missed);
            && KernelOk(e.links, k') && NhRoutes(k') == NhRoutes(k) && HostsOf(k') == HostsOf(k) - {n}
            && k'.unroutable == k.unroutable - {n} && k'.neighs == k.neighs - {n}
            && CacheRoutes(CacheOf(k'), NhRoutes(k)) && Known(e.links, k', missed - {n}) == keys - {n}
            && (Untouched(NhRoutes(k), {n}, missed) ==>
                  CacheSyncBut(CacheOf(k'), e.links, NhRoutes(k), keys - {n}, n))
  {
    hide *;
    TracksParts(e, k, missed);
    NeighDownStep(e.links, k, n, mac);
    NeighDownKeys(e.links, k, n, mac, missed);
    var k' := Step(k, NeighDown(n, mac));
    CacheInSync(e.links, k', missed - {n});
    if Untouched(NhRoutes(k), {n}, missed) {
      FewerMissed(NhRoutes(k), {n}, missed, missed - {n});
      SyncBut(CacheOf(k'), e.links, NhRoutes(k), Known(e.links, k', missed - {n}), n);
    }
  }

  lemma NeighDownStep(links: Links, k: Kernel, n: NeighId, mac: Mac)
    requires KernelOk(links, k) && Possible(links, k, NeighDown(n, mac))
    ensures n in k.neighs && k.neighs[n] == mac && n.ifindex in links
    ensures var k' := Step(k, NeighDown(n, mac));
            KernelOk(links, k') && k'.unroutable == k.unroutable - {n} && k'.neighs == k.neighs - {n}
  {
    StepOk(links, k, NeighDown(n, mac));
  }

  lemma NeighDownKeys(links: Links, k: Kernel, n: NeighId, mac: Mac, missed: set<NeighId>)
    requires KernelOk(links, k) && n in k.neighs && k.neighs[n] == mac && missed <= k.unroutable
    ensures NhRoutes(Step(k, NeighDown(n, mac))) == NhRoutes(k)
    ensures Known(links, Step(k, NeighDown(n, mac)), missed - {n}) == Known(links, k, missed) - {n}
    ensures n !in missed ==> n in Known(links, k, missed) && Known(links, k, missed)[n] == KeyOf(links, n, mac)
    ensures HostsOf(Step(k, NeighDown(n, mac))) == HostsOf(k) - {n}
    ensures n in HostsOf(k) <==> n !in k.unroutable && !IsLinkLocal(n.addr)
  {
    hide IsHost, RouteOk, IsNet, IsLinkLocal;
    var k' := Step(k, NeighDown(n, mac));
    assert k'.neighs == k.neighs - {n} && k'.routes == k.routes && k'.unroutable == k.unroutable - {n};
    assert n.ifindex in links;
    hide Step, KernelOk;
    OneKnownLess(links, k, k', n, missed);
  }

  lemma OneKnownLess(links: Links, k: Kernel, k': Kernel, n: NeighId, missed: set<NeighId>)
    requires n in k.neighs && n.ifindex in links && k'.neighs == k.neighs - {n}
    ensures Known(links, k', missed - {n}) == Known(links, k, missed) - {n}
    ensures n !in missed ==> n in Known(links, k, missed) && Known(links, k, missed)[n] == KeyOf(links, n, k.neighs[n])
  {
    hide KeyOf;
  }

  lemma SyncBut(cache: Cache, links: Links, routes: Routes, keys: Keys, n: NeighId)
    requires CacheRoutes(cache, routes) && CacheSync(cache, links, routes, keys, {n})
    ensures CacheSyncBut(cache, links, routes, keys, n)
  {
    forall d | d in routes && Via(routes[d], n) ensures CacheAgrees(cache, links, Others(routes[d], n), keys) {
      var nh :| nh in routes[d] && nh.Id() == n;
      assert nh.Id() in {n};
      assert CacheAgrees(cache, links, routes[d], keys);
    }
  }

  /** A neighbour is gone. One that was not routed goes unnoticed: track is lost if a route watches it. */
  method OnNeighDown(e: NlL3, n: NeighId, mac: Mac, cache: Cache, ghost k: Kernel, ghost missed: set<NeighId>)
    requires Tracks(e, k, missed) && Possible(e.links, k, NeighDown(n, mac)) && Avoids(k, missed, NeighDown(n, mac))
    requires cache == CacheOf(Step(k, NeighDown(n, mac)))
    modifies e
    ensures old(e.log) <= e.log
    ensures Keeps(e.links, k, missed, NeighDown(n, mac)) ==>
              Tracks(e, Step(k, NeighDown(n, mac)), MissedNext(k, missed, NeighDown(n, mac)))
    ensures !Keeps(e.links, k, missed, NeighDown(n, mac)) ==>
              && !ListsMatch(e.waiting, e.watching, Step(k, NeighDown(n, mac)))
              && Tallied(e, Step(k, NeighDown(n, mac)), Believed(e.links, k, missed, NeighDown(n, mac)))
    ensures ClosedThroughout(e.log)
  {
    hide *;
    ghost var ev := NeighDown(n, mac);
    NeighDownMeans(e.links, k, missed, n, mac);
    ghost var k' := Step(k, ev);
    ghost var keys := Known(e.links, k, missed);
    TracksParts(e, k, missed);
    NeighDownReady(e, n, mac, k, missed);
    var rv := e.DelL3Neigh(n, mac, cache, NhRoutes(k), keys, []);
    if n in k.unroutable {
      if n in missed {
        assert keys - {n} == keys by { MissedUnknown(e.links, k, missed, n); }
      } else if NoRouteVia(NhRoutes(k), n) {
        assert keys - {n} - {n} == keys - {n};
        e.KeyWithoutUsers(NhRoutes(k), keys, keys - {n}, {n});
      } else {
        ListedLists(e, NhRoutes(k), keys, []);
        PlusNone(e.waiting);
        StaleWatch(e.waiting, e.watching, k', NhRoutes(k), keys, n);
      }
      SettledTallied(e, k', keys);
    }
    if Keeps(e.links, k, missed, ev) {
      TracksOf(e, k', missed - {n});
      SettledTallied(e, k', keys - {n});
    }
  }

  lemma NeighDownMeans(links: Links, k: Kernel, missed: set<NeighId>, n: NeighId, mac: Mac)
    ensures var ev := NeighDown(n, mac);
            && (Avoids(k, missed, ev) <==> (n !in k.unroutable ==> Untouched(NhRoutes(k), {n}, missed)))
            && MissedNext(k, missed, ev) == missed - {n} && Believed(links, k, missed, ev) == Known(links, k, missed)
            && (Keeps(links, k, missed, ev) <==> (n in k.unroutable ==> n in missed || NoRouteVia(NhRoutes(k), n)))
  {
    hide Untouched, NhRoutes, Known, NoRouteVia;
  }

  lemma MissedUnknown(links: Links, k: Kernel, missed: set<NeighId>, n: NeighId)
    requires n in missed
    ensures n !in Known(links, k, missed)
  {
  }

  /** A route watches a neighbour that is gone. */
  lemma StaleWatch(waiting: seq<Pair>, watching: seq<Pair>, k: Kernel, routes: Routes, keys: Keys, n: NeighId)
    requires ListsOk(waiting, watching, routes, {}, keys, keys) && !NoRouteVia(routes, n) && n in keys
    requires n !in k.neighs
    ensures !ListsMatch(waiting, watching, k)
  {
    var d :| d in routes && exists nh | nh in routes[d] :: nh.Id() == n;
    var nh :| nh in routes[d] && nh.Id() == n;
    assert Current(routes, {}, keys, keys, Pair(d, nh));
  }

  // -------------------------------------------------------- gateway routes

  ghost predicate GatewayEvent(k: Kernel, ev: Event, dst: Addr, o: set<NhStub>, s: set<NhStub>) {
    match ev
    case RouteNew(r, _) => r.dst == dst && r.nhs == s && !r.onLink
    case RouteGone(d) => d == dst && d in k.routes && k.routes[d].nhs == o && !k.routes[d].onLink
    case RouteChange(r, _) =>
      && r.dst == dst && r.nhs == s && !r.onLink
      && dst in k.routes && k.routes[dst].nhs == o && !k.routes[dst].onLink
    case _ => false
  }

  lemma GatewayStep(links: Links, k: Kernel, missed: set<NeighId>, ev: Event, dst: Addr, o: set<NhStub>, s: set<NhStub>)
    requires KernelOk(links, k) && Possible(links, k, ev) && GatewayEvent(k, ev, dst, o, s)
    requires Avoids(k, missed, ev) && missed <= k.unroutable
    ensures KernelOk(links, Step(k, ev)) && Step(k, ev).unroutable == k.unroutable && Step(k, ev).neighs == k.neighs
    ensures Known(links, Step(k, ev), missed) == Known(links, k, missed) && HostsOf(Step(k, ev)) == HostsOf(k)
    ensures NhRoutes(Step(k, ev)) == if ev.RouteGone? then NhRoutes(k) - {dst} else NhRoutes(k)[dst := s]
    ensures ev.RouteNew? ==> dst !in NhRoutes(k)
    ensures !ev.RouteNew? ==> dst in NhRoutes(k) && NhRoutes(k)[dst] == o && NoneIn(o, missed)
    ensures !ev.RouteGone? ==> RouteOk(s) && NoneIn(s, missed)
  {
    hide IsHost, RouteOk, Silent;
    StepOk(links, k, ev);
  }

  lemma GatewayReady(links: Links, k: Kernel, missed: set<NeighId>, ev: Event, dst: Addr, o: set<NhStub>,
                     s: set<NhStub>)
    requires KernelOk(links, k) && Possible(links, k, ev) && GatewayEvent(k, ev, dst, o, s)
    requires Avoids(k, missed, ev) && missed <= k.unroutable
    ensures !ev.RouteNew? ==> CacheAgrees(CacheOf(Step(k, ev)), links, o, Known(links, k, missed))
    ensures !ev.RouteGone? ==> CacheAgrees(CacheOf(Step(k, ev)), links, s, Known(links, k, missed))
    ensures Keeps(links, k, missed, ev) <==> ev.RouteGone? || Awaited(dst, s, Known(links, k, missed))
    ensures MissedNext(k, missed, ev) == missed && !StreamBreaks(links, k, missed, ev)
    ensures !ev.RouteGone? ==> Believed(links, k, missed, ev) == Known(links, k, missed)
    ensures !ev.NeighUp? && !ev.NeighDown?
  {
    GatewayStep(links, k, missed, ev, dst, o, s);
    CacheInSync(links, Step(k, ev), missed);
    GatewayHeard(links, k, missed, dst, s);
    hide CacheOf, Step, Known, NoneIn, CacheAgrees, KernelOk, Possible, NhRoutes, Awaited, AllHeard, Breaks, Misled;
  }

  lemma GatewayHeard(links: Links, k: Kernel, missed: set<NeighId>, dst: Addr, s: set<NhStub>)
    requires KernelOk(links, k)
    ensures NoneIn(s, missed) ==> (AllHeard(dst, s, k) <==> Awaited(dst, s, Known(links, k, missed)))
  {
    hide IsHost, IsNet, RouteOk, Silent;
  }

  /** The missed neighbours still have their routes. */
  lemma StillMissed(routes: Routes, routes': Routes, missed: set<NeighId>, dst: Addr)
    requires forall n :: n in missed ==> !NoRouteVia(routes, n)
    requires dst in routes ==> NoneIn(routes[dst], missed)
    requires forall d :: d in routes && d != dst ==> d in routes' && routes'[d] == routes[d]
    ensures forall n :: n in missed ==> !NoRouteVia(routes', n)
  {
    forall n | n in missed ensures !NoRouteVia(routes', n) {
      var d :| d in routes && exists nh | nh in routes[d] :: nh.Id() == n;
      var nh :| nh in routes[d] && nh.Id() == n;
      assert d != dst;
      assert routes'[d] == routes[d];
    }
  }

  /** A new gateway route, or the end or change of one. Track is lost if and only if an unresolved next hop of a
      silent destination is left out. */
  method OnGatewayRoute(e: NlL3, ev: Event, dst: Addr, o: set<NhStub>, s: set<NhStub>, cache: Cache, ghost k: Kernel,
                        ghost missed: set<NeighId>)
    requires Tracks(e, k, missed) && Possible(e.links, k, ev) && Avoids(k, missed, ev)
    requires GatewayEvent(k, ev, dst, o, s) && cache == CacheOf(Step(k, ev))
    modifies e
    ensures old(e.log) <= e.log
    ensures Keeps(e.links, k, missed, ev) ==> Tracks(e, Step(k, ev), MissedNext(k, missed, ev))
    ensures !Keeps(e.links, k, missed, ev) ==>
              && !ListsMatch(e.waiting, e.watching, Step(k, ev))
              && Tallied(e, Step(k, ev), Believed(e.links, k, missed, ev))
    ensures ClosedThroughout(e.log)
  {
    hide *;
    ghost var keys := Known(e.links, k, missed);
    ghost var routes := NhRoutes(k);
    TracksParts(e, k, missed);
    GatewayStep(e.links, k, missed, ev, dst, o, s);
    GatewayReady(e.links, k, missed, ev, dst, o, s);
    StillMissed(routes, NhRoutes(Step(k, ev)), missed, dst);
    ghost var unheard: seq<Pair> := [];
    match ev {
      case RouteNew(_, _) =>
        unheard := e.AddL3UnicastRoute(dst, s, cache, routes, keys);
      case RouteGone(_) =>
        AgreeOwnOnly(o, cache, e.links, keys, e.egress);
        e.DelL3UnicastRoute(dst, o, cache, routes, keys);
      case RouteChange(_, _) =>
        unheard := e.UpdateL3UnicastRoute(dst, o, s, cache, routes, keys);
      case _ =>
    }
    PartingTallied(e, Step(k, ev), keys);
    if Keeps(e.links, k, missed, ev) {
      TracksOf(e, Step(k, ev), missed);
    } else {
      HeardOf(e.links, k, missed, Step(k, ev), unheard, dst, s);
      Unheard(e, Step(k, ev), keys, unheard);
    }
  }

  /** The next hops that are left out are wanted, and not resolved. */
  lemma HeardOf(links: Links, k: Kernel, missed: set<NeighId>, k': Kernel, unheard: seq<Pair>, dst: Addr,
                s: set<NhStub>)
    requires KernelOk(links, k) && k'.neighs == k.neighs && NoneIn(s, missed) && NhRoutes(k') == NhRoutes(k)[dst := s]
    requires forall q :: q in unheard ==> q.dst == dst && q.nh in s && q.nh.Id() !in Known(links, k, missed)
    ensures forall q :: q in unheard ==> Wants(NhRoutes(k'), q) && q.nh.Id() !in k'.neighs
  {
    hide IsHost, IsNet, RouteOk;
  }

  lemma PartingTallied(e: NlL3, k: Kernel, keys: Keys)
    requires KernelOk(e.links, k) && e.unroutable == k.unroutable && e.routable == HostsOf(k)
    requires e.Parting(NhRoutes(k), keys, {})
    ensures Tallied(e, k, keys) && ClosedThroughout(e.log)
  {
  }

  /** A next hop that nobody waits for is in neither list. */
  lemma Unheard(e: NlL3, k: Kernel, keys: Keys, unheard: seq<Pair>)
    requires e.Listed(NhRoutes(k), keys, unheard) && unheard != []
    requires forall q :: q in unheard ==> Wants(NhRoutes(k), q) && q.nh.Id() !in k.neighs
    ensures !ListsMatch(e.waiting, e.watching, k)
  {
    var q, l := unheard[0], unheard + e.waiting;
    assert q in unheard && l == Plus(unheard, e.waiting);
    forall i | 0 <= i < |e.waiting| ensures e.waiting[i] != q {
      assert l[0] == q && l[|unheard| + i] == e.waiting[i];
    }
  }

  // ------------------------------------------------------- on-link routes

  lemma OnLinkStep(links: Links, k: Kernel, missed: set<NeighId>, r: Route, routable: set<NeighId>)
    requires KernelOk(links, k) && Possible(links, k, RouteNew(r, routable)) && r.onLink
    requires missed <= k.unroutable && forall n :: n in missed ==> !NoRouteVia(NhRoutes(k), n)
    ensures var k0 := k.(routes := k.routes[r.dst := r]);
            && KernelOk(links, k0) && r.dst !in NhRoutes(k) && IsPrefix(r.dst) && r.nhs == {}
            && NhRoutes(k0) == NhRoutes(k)[r.dst := {}] && Known(links, k0, missed) == Known(links, k, missed)
            && HostsOf(k0) == HostsOf(k) && k0.unroutable == k.unroutable
            && (forall n :: n in missed ==> !NoRouteVia(NhRoutes(k0), n))
            && (forall ns, ms :: Untouched(NhRoutes(k), ns, ms) ==> Untouched(NhRoutes(k0), ns, ms))
            && CacheOf(Step(k, RouteNew(r, routable))) == CacheOf(k0)
            && NhRoutes(Step(k, RouteNew(r, routable))) == NhRoutes(k0)
            && Step(k, RouteNew(r, routable))
               == k0.(unroutable := k0.unroutable - EnabledBy(k0, r.dst, routable))
            && EnabledBy(k0, r.dst, routable) == EnabledBy(k, r.dst, routable)
  {
    var k0 := k.(routes := k.routes[r.dst := r]);
    assert NhRoutes(k0) == NhRoutes(k)[r.dst := {}];
    StillMissed(NhRoutes(k), NhRoutes(k0), missed, r.dst);
  }

  /** An on-link route appears: the neighbours it covers are routed from now on, and missed no more. */
  method OnLinkRouteNew(e: NlL3, r: Route, routable: set<NeighId>, cache: Cache, ghost k: Kernel,
                        ghost missed: set<NeighId>)
    requires Tracks(e, k, missed) && Possible(e.links, k, RouteNew(r, routable)) && r.onLink
    requires Avoids(k, missed, RouteNew(r, routable)) && cache == CacheOf(Step(k, RouteNew(r, routable)))
    modifies e
    ensures old(e.log) <= e.log && Keeps(e.links, k, missed, RouteNew(r, routable))
    ensures Tracks(e, Step(k, RouteNew(r, routable)), MissedNext(k, missed, RouteNew(r, routable)))
  {
    hide *;
    ghost var k0 := k.(routes := k.routes[r.dst := r]);
    OnLinkKeeps(e.links, k, missed, r, routable);
    TracksParts(e, k, missed);
    OnLinkStep(e.links, k, missed, r, routable);
    ghost var keys := Known(e.links, k, missed);
    NoGateways(cache, e.links, keys, e.egress);
    NoNextHops(r.dst, keys);
    ghost var unheard := e.AddL3UnicastRoute(r.dst, r.nhs, cache, NhRoutes(k), keys);
    TracksOf(e, k0, missed);
    TracksRests(e, k0, missed);
    EnableCovered(e, r.dst, routable, cache, k0, missed, NhRoutes(k0), map[]);
    TracksRests(e, Step(k, RouteNew(r, routable)), missed - EnabledBy(k0, r.dst, routable));
  }

  lemma TracksRests(e: NlL3, k: Kernel, missed: set<NeighId>)
    ensures Tracks(e, k, missed) <==> Tracking(e, k, missed, NhRoutes(k), map[])
    ensures ShownBy(k, NhRoutes(k), map[]) && forall n :: NotAside(NhRoutes(k), map[], n)
  {
  }

  lemma OnLinkKeeps(links: Links, k: Kernel, missed: set<NeighId>, r: Route, routable: set<NeighId>)
    requires Possible(links, k, RouteNew(r, routable)) && r.onLink && Avoids(k, missed, RouteNew(r, routable))
    ensures Keeps(links, k, missed, RouteNew(r, routable))
    ensures MissedNext(k, missed, RouteNew(r, routable)) == missed - EnabledBy(k, r.dst, routable)
    ensures forall n :: n in EnabledBy(k, r.dst, routable) * missed ==> Untouched(NhRoutes(k), {n}, missed - {n})
  {
    hide IsNet, RouteOk, Untouched, NhRoutes;
  }

  lemma NoNextHops(d: Addr, keys: Keys)
    ensures RouteOk({}) && Awaited(d, {}, keys)
  {
  }

  /** The neighbours of `list` inside a prefix, found by the binary search in the ordered set. */
  method FindNeighs(list: set<NeighId>, prefix: Addr) returns (found: seq<NhStub>)
    requires IsPrefix(prefix) && forall n :: n in list ==> IsHost(n.addr)
    ensures Distinct(found) && InOrder(found, NeighsOfPrefix(list, prefix))
  {
    var l := PrefixSearch.Ordered(list);
    found := PrefixSearch.GetL3NeighsOfPrefix(l, prefix);
    SearchFindsNeighs(l, found, list, prefix);
  }

  /** The search over the ordered set finds just the neighbours of the prefix, each once and in order. */
  lemma SearchFindsNeighs(l: seq<NhStub>, found: seq<NhStub>, list: set<NeighId>, prefix: Addr)
    requires forall x :: x in l <==> x.nhid == 0 && x.Id() in list
    requires PrefixSearch.Sorted(found) && forall n :: n in found <==> n in l && Covers(prefix, n.addr)
    ensures Distinct(found) && InOrder(found, NeighsOfPrefix(list, prefix))
  {
    hide PrefixSearch.Less;
    forall i | 0 <= i < |found| ensures found[i].nhid == 0 && found[i].Id() in NeighsOfPrefix(list, prefix) {
      assert found[i] in found;
    }
    forall i, j | 0 <= i < |found| && 0 <= j < |found|
      ensures (Before(found[i].Id(), found[j].Id()) <==> i < j) && (i < j ==> found[i].Id() != found[j].Id()) {
      PrefixSearch.LessIsTotal(found[i], found[j]);
      assert found[i] == NhStub(found[i].addr, found[i].ifindex, 0);
      assert found[j] == NhStub(found[j].addr, found[j].ifindex, 0);
    }
    forall id | id in NeighsOfPrefix(list, prefix) ensures id in Seen(found, |found|) {
      assert NhStub(id.addr, id.ifindex, 0) in found;
    }
  }

  lemma SeenAll(found: seq<NhStub>, all: set<NeighId>)
    requires InOrder(found, all)
    ensures Seen(found, |found|) == all && Seen(found, 0) == {}
    ensures forall i :: 0 <= i < |found| ==> found[i].Id() in all
  {
  }

  lemma HostNeighbours(links: Links, k: Kernel)
    requires KernelOk(links, k)
    ensures forall n :: n in k.unroutable || n in HostsOf(k) ==> IsHost(n.addr)
  {
  }

  /** Kernel state with the accepted ones among the first n found routed again. */
  ghost function Enabled(k: Kernel, found: seq<NhStub>, n: nat, routable: set<NeighId>): Kernel
    requires n <= |found|
  {
    k.(unroutable := k.unroutable - (Seen(found, n) * routable))
  }

  lemma EnabledStart(k: Kernel, found: seq<NhStub>, routable: set<NeighId>)
    ensures Enabled(k, found, 0, routable) == k
  {
  }

  lemma EnabledNext(k: Kernel, found: seq<NhStub>, n: nat, routable: set<NeighId>)
    requires n < |found| && Distinct(found) && found[n].Id() in k.unroutable
    ensures found[n].Id() in Enabled(k, found, n, routable).unroutable
    ensures CacheOf(Enabled(k, found, n, routable)) == CacheOf(k)
    ensures NhRoutes(Enabled(k, found, n, routable)) == NhRoutes(k)
    ensures var id := found[n].Id();
            var ki := Enabled(k, found, n, routable);
            Enabled(k, found, n + 1, routable)
              == ki.(unroutable := ki.unroutable - (if id in routable then {id} else {}))
  {
  }

  /** The kernel shows the routes, except those that are on their way out. */
  ghost predicate ShownBy(k: Kernel, routes: Routes, aside: Aside) {
    forall d :: d in routes && d !in aside ==> d in k.routes && k.routes[d].nhs == routes[d]
  }

  method EnableCovered(e: NlL3, dst: Addr, routable: set<NeighId>, cache: Cache, ghost k: Kernel,
                       ghost missed: set<NeighId>, ghost routes: Routes, ghost aside: Aside)
    requires Tracking(e, k, missed, routes, aside) && ShownBy(k, routes, aside) && cache == CacheOf(k) && IsPrefix(dst)
    requires forall n :: n in EnabledBy(k, dst, routable) * missed ==>
               Untouched(routes, {n}, missed - {n}) && NotAside(routes, aside, n)
    modifies e
    ensures var ns := EnabledBy(k, dst, routable);
            Tracking(e, k.(unroutable := k.unroutable - ns), missed - ns, routes, aside)
    ensures old(e.log) <= e.log
  {
    hide *;
    TrackingParts(e, k, missed, routes, aside);
    HostNeighbours(e.links, k);
    var found := FindNeighs(e.unroutable, dst);
    ghost var ns := NeighsOfPrefix(k.unroutable, dst);
    SeenAll(found, ns);
    CoveredSubset(k.unroutable, dst);
    EnabledAre(k, dst, routable);
    EnabledStart(k, found, routable);
    assert missed - {} * routable == missed;
    for i := 0 to |found|
      invariant Tracking(e, Enabled(k, found, i, routable), missed - Seen(found, i) * routable, routes, aside)
      invariant old(e.log) <= e.log
    {
      var n := found[i].Id();
      EnabledNext(k, found, i, routable);
      SeenNext(found, i);
      ShownStill(k, Enabled(k, found, i, routable), routes, aside);
      ghost var m := missed - Seen(found, i) * routable;
      if n in routable && n in m {
        assert n in EnabledBy(k, dst, routable) * missed;
        FewerMissed(routes, {n}, missed - {n}, m - {n});
      }
      assert m - (if n in routable then {n} else {}) == missed - Seen(found, i + 1) * routable;
      Enable(e, n, n in routable, cache, Enabled(k, found, i, routable), m, routes, aside);
    }
    EnabledAll(k, found, routable);
  }

  lemma TrackingParts(e: NlL3, k: Kernel, missed: set<NeighId>, routes: Routes, aside: Aside)
    requires Tracking(e, k, missed, routes, aside)
    ensures KernelOk(e.links, k) && e.unroutable == k.unroutable && e.routable == HostsOf(k)
    ensures missed <= k.unroutable && forall n :: n in missed ==> !NoRouteVia(routes, n)
    ensures e.Resting(routes, Known(e.links, k, missed), aside)
  {
  }

  lemma TrackingOf(e: NlL3, k: Kernel, missed: set<NeighId>, routes: Routes, aside: Aside)
    requires KernelOk(e.links, k) && e.unroutable == k.unroutable && e.routable == HostsOf(k)
    requires missed <= k.unroutable && forall n :: n in missed ==> !NoRouteVia(routes, n)
    requires e.Resting(routes, Known(e.links, k, missed), aside)
    ensures Tracking(e, k, missed, routes, aside)
  {
  }

  lemma ShownStill(k: Kernel, k': Kernel, routes: Routes, aside: Aside)
    requires ShownBy(k, routes, aside) && CacheOf(k') == CacheOf(k)
    ensures ShownBy(k', routes, aside)
  {
  }

  lemma EnabledAre(k: Kernel, dst: Addr, routable: set<NeighId>)
    ensures EnabledBy(k, dst, routable) == NeighsOfPrefix(k.unroutable, dst) * routable
  {
  }

  lemma FewerMissed(routes: Routes, ns: set<NeighId>, missed: set<NeighId>, missed': set<NeighId>)
    requires Untouched(routes, ns, missed) && missed' <= missed
    ensures Untouched(routes, ns, missed')
  {
  }

  lemma EnabledAll(k: Kernel, found: seq<NhStub>, routable: set<NeighId>)
    ensures Enabled(k, found, |found|, routable) == k.(unroutable := k.unroutable - (Seen(found, |found|) * routable))
  {
  }

  lemma CoveredSubset(list: set<NeighId>, dst: Addr)
    ensures NeighsOfPrefix(list, dst) <= list
  {
  }

  lemma EnableKeys(links: Links, k: Kernel, missed: set<NeighId>, n: NeighId)
    requires KernelOk(links, k) && n in k.unroutable && missed <= k.unroutable
    ensures n in k.neighs && n.ifindex in links && !IsLinkLocal(n.addr)
    ensures n in Known(links, k, missed) <==> n !in missed
    ensures n !in missed ==> Known(links, k, missed)[n] == KeyOf(links, n, k.neighs[n])
    ensures forall h :: h in HostsOf(k) ==> h.addr != n.addr
    ensures var k' := k.(unroutable := k.unroutable - {n});
            && KernelOk(links, k') && NhRoutes(k') == NhRoutes(k) && HostsOf(k') == HostsOf(k) + {n}
            && Known(links, k', missed - {n}) == Known(links, k, missed)[n := KeyOf(links, n, k.neighs[n])]
            && Known(links, k', missed - {n}) == Known(links, k, missed - {n}) && CacheOf(k') == CacheOf(k)
  {
    EnableHosts(links, k, n);
    hide *;
    EnableKnown(links, k, k.(unroutable := k.unroutable - {n}), missed, n);
  }

  lemma EnableHosts(links: Links, k: Kernel, n: NeighId)
    requires KernelOk(links, k) && n in k.unroutable
    ensures n in k.neighs && n.ifindex in links && !IsLinkLocal(n.addr)
    ensures forall h :: h in HostsOf(k) ==> h.addr != n.addr
    ensures var k' := k.(unroutable := k.unroutable - {n});
            && KernelOk(links, k') && NhRoutes(k') == NhRoutes(k) && HostsOf(k') == HostsOf(k) + {n}
            && CacheOf(k') == CacheOf(k)
  {
    hide IsHost, IsNet, RouteOk, IsLinkLocal;
  }

  lemma EnableKnown(links: Links, k: Kernel, k': Kernel, missed: set<NeighId>, n: NeighId)
    requires n in k.neighs && n.ifindex in links && k'.neighs == k.neighs
    ensures n in Known(links, k, missed) <==> n !in missed
    ensures n !in missed ==> Known(links, k, missed)[n] == KeyOf(links, n, k.neighs[n])
    ensures Known(links, k', missed - {n}) == Known(links, k, missed)[n := KeyOf(links, n, k.neighs[n])]
    ensures Known(links, k', missed - {n}) == Known(links, k, missed - {n})
  {
    hide KeyOf;
  }

  /** The caches agree about the routes through a neighbour whose only missed next hop it is. */
  lemma SyncOne(links: Links, k: Kernel, missed: set<NeighId>, routes: Routes, aside: Aside, n: NeighId)
    requires KernelOk(links, k) && ShownBy(k, routes, aside)
    requires Untouched(routes, {n}, missed) && NotAside(routes, aside, n)
    ensures CacheSync(CacheOf(k), links, routes, Known(links, k, missed), {n})
  {
    hide IsHost, IsNet, RouteOk, KeyOf;
    forall d, nh | d in routes && nh in routes[d] && nh.Id() in {n}
      ensures d in k.routes && k.routes[d].nhs == routes[d]
              && CacheAgrees(CacheOf(k), links, routes[d], Known(links, k, missed)) {
      assert d !in aside;
      assert NoneIn(routes[d], missed);
    }
  }

  /** One neighbour under a new on-link route leaves the unroutable set and is added again; the routes through
      it are told if they missed it. */
  method Enable(e: NlL3, n: NeighId, isRoutable: bool, cache: Cache, ghost k: Kernel, ghost missed: set<NeighId>,
                ghost routes: Routes, ghost aside: Aside)
    requires Tracking(e, k, missed, routes, aside) && ShownBy(k, routes, aside)
    requires n in k.unroutable && cache == CacheOf(k)
    requires isRoutable && n in missed ==> Untouched(routes, {n}, missed - {n}) && NotAside(routes, aside, n)
    modifies e
    ensures Tracking(e, k.(unroutable := k.unroutable - (if isRoutable then {n} else {})),
                     missed - (if isRoutable then {n} else {}), routes, aside)
    ensures old(e.log) <= e.log
  {
    hide *;
    TrackingParts(e, k, missed, routes, aside);
    EnableKeys(e.links, k, missed, n);
    if isRoutable && n in missed { SyncOne(e.links, k, missed - {n}, routes, aside, n); }
    CacheInSync(e.links, k, missed - {n});
    ghost var k' := k.(unroutable := k.unroutable - {n});
    assert k.(unroutable := k.unroutable - {}) == k && missed - {} == missed;
    e.unroutable := e.unroutable - {n};
    var rv := e.AddL3Neigh(n, cache.neighs[n], cache, isRoutable, routes, Known(e.links, k, missed), aside);
    if isRoutable {
      TrackingOf(e, k', missed - {n}, routes, aside);
    } else {
      TrackingOf(e, k, missed, routes, aside);
    }
  }

  // --------------------------------------------- on-link routes that vanish

  /** Everything about neighbour n when those in `done` are disabled already. */
  lemma DisableKeys(links: Links, k: Kernel, missed: set<NeighId>, done: set<NeighId>, n: NeighId)
    requires KernelOk(links, k) && missed <= k.unroutable && n in HostsOf(k) && n !in done
    ensures n in k.neighs && n.ifindex in links && n !in k.unroutable && !IsLinkLocal(n.addr)
    ensures var keys := Known(links, k, missed);
            n in keys && n in keys - done && (keys - done)[n] == KeyOf(links, n, k.neighs[n]) == keys[n]
            && keys - done - {n} == keys - (done + {n})
    ensures CacheRoutes(CacheOf(k), NhRoutes(k)) && CacheOf(k).neighs == k.neighs
  {
    hide IsHost, IsNet, IsLinkLocal, RouteOk, KeyOf;
    CacheInSync(links, k, missed);
  }

  /** One neighbour under a vanished on-link route is removed and remembered as unroutable. The routes
      through it are told that it is gone, although the caches still show it. */
  method Disable(e: NlL3, n: NeighId, cache: Cache, ghost k: Kernel, ghost missed: set<NeighId>,
                 ghost done: set<NeighId>, ghost unheard: seq<Pair>)
    requires KernelOk(e.links, k) && missed <= k.unroutable && n in HostsOf(k) && n !in done && cache == CacheOf(k)
    requires e.Listed(NhRoutes(k), Known(e.links, k, missed) - done, unheard)
    requires n !in e.unroutable && n in e.routable
    modifies e
    ensures e.Listed(NhRoutes(k), Known(e.links, k, missed) - (done + {n}), unheard) && old(e.log) <= e.log
    ensures e.unroutable == old(e.unroutable) + {n} && e.routable == old(e.routable) - {n}
    ensures e.ecmp == old(e.ecmp) && e.owner == old(e.owner) && e.watching == Off(old(e.watching), n)
    ensures n in Known(e.links, k, missed)
    ensures (e.egress, e.log) == NeighGone(old(e.watching), n, Known(e.links, k, missed)[n], cache, e.links, e.ecmp,
                                           old(e.egress), old(e.log))
    // the counts stay right whatever the messages do
    ensures old(Counted(e.egress, e.routable, e.watching, Known(e.links, k, missed))) ==>
              Counted(e.egress, e.routable, e.watching, Known(e.links, k, missed))
  {
    hide *;
    DisableKeys(e.links, k, missed, done, n);
    ghost var c, p := SettingOf(e, k, missed, cache, {}), PointOf(e, map[]);
    SettingParts(e, k, missed, cache, {}, map[]);
    if Counted(e.egress, e.routable, e.watching, Known(e.links, k, missed)) { LeaveCounted(c, p, n); }
    LeaveIs(c, p, n);
    var rv := e.DelL3Neigh(n, cache.neighs[n], cache, NhRoutes(k), Known(e.links, k, missed) - done, unheard);
    e.unroutable := e.unroutable + {n};
  }

  /** What does not change while the neighbours ns are disabled, and what does. */
  ghost function SettingOf(e: NlL3, k: Kernel, missed: set<NeighId>, cache: Cache, ns: set<NeighId>): Setting
    reads e
  {
    Setting(cache, e.links, Known(e.links, k, missed), NhRoutes(k), e.ecmp, e.owner, ns)
  }

  ghost function PointOf(e: NlL3, shown: Shown): Point
    reads e
  {
    Point(e.egress, e.watching, e.routable, e.log, shown)
  }

  lemma SettingParts(e: NlL3, k: Kernel, missed: set<NeighId>, cache: Cache, ns: set<NeighId>, shown: Shown)
    ensures SettingOf(e, k, missed, cache, ns)
         == Setting(cache, e.links, Known(e.links, k, missed), NhRoutes(k), e.ecmp, e.owner, ns)
    ensures PointOf(e, shown) == Point(e.egress, e.watching, e.routable, e.log, shown)
  {
  }

  lemma LeaveIs(c: Setting, p: Point, n: NeighId)
    requires n in c.keys
    ensures var r := NeighGone(p.w, n, c.keys[n], c.cache, c.links, c.ecmp, p.egress, p.log);
            Leave(c, p, n) == Point(r.0, Off(p.w, n), p.hosts - {n}, r.1, Tell(p.shown, n))
  {
    hide NeighGone, Tell, Off;
  }

  /** Like tracking, but some unresolved next hops may be in no list. */
  ghost predicate Poised(e: NlL3, k: Kernel, missed: set<NeighId>, unheard: seq<Pair>)
    reads e
  {
    && KernelOk(e.links, k) && e.unroutable == k.unroutable && e.routable == HostsOf(k)
    && missed <= k.unroutable && (forall n :: n in missed ==> !NoRouteVia(NhRoutes(k), n))
    && e.Parting(NhRoutes(k), Known(e.links, k, missed), {})
    && e.Listed(NhRoutes(k), Known(e.links, k, missed), unheard)
    && forall q :: q in unheard ==> Wants(NhRoutes(k), q) && q.nh.Id() !in k.neighs
  }

  lemma PoisedParts(e: NlL3, k: Kernel, missed: set<NeighId>, unheard: seq<Pair>)
    requires Poised(e, k, missed, unheard)
    ensures KernelOk(e.links, k) && e.unroutable == k.unroutable && e.routable == HostsOf(k)
    ensures missed <= k.unroutable && forall n :: n in missed ==> !NoRouteVia(NhRoutes(k), n)
    ensures e.Parting(NhRoutes(k), Known(e.links, k, missed), {})
    ensures e.Listed(NhRoutes(k), Known(e.links, k, missed), unheard)
    ensures forall q :: q in unheard ==> Wants(NhRoutes(k), q) && q.nh.Id() !in k.neighs
  {
  }

  lemma PoisedOf(e: NlL3, k: Kernel, missed: set<NeighId>, unheard: seq<Pair>)
    requires KernelOk(e.links, k) && e.unroutable == k.unroutable && e.routable == HostsOf(k)
    requires missed <= k.unroutable && forall n :: n in missed ==> !NoRouteVia(NhRoutes(k), n)
    requires e.Parting(NhRoutes(k), Known(e.links, k, missed), {})
    requires e.Listed(NhRoutes(k), Known(e.links, k, missed), unheard)
    requires forall q :: q in unheard ==> Wants(NhRoutes(k), q) && q.nh.Id() !in k.neighs
    ensures Poised(e, k, missed, unheard)
  {
  }

  lemma TracksPoised(e: NlL3, k: Kernel, missed: set<NeighId>)
    requires Tracks(e, k, missed)
    ensures Poised(e, k, missed, [])
  {
    hide *;
    TracksParts(e, k, missed);
    PoisedOf(e, k, missed, []);
  }

  /** The walk starts where the watched pairs are right. */
  lemma WalkStarts(e: NlL3, k: Kernel, missed: set<NeighId>, unheard: seq<Pair>, cache: Cache, ns: set<NeighId>,
                   found: seq<NhStub>)
    requires Poised(e, k, missed, unheard) && cache == CacheOf(k) && Untouched(NhRoutes(k), ns, missed)
    ensures var c := SettingOf(e, k, missed, cache, ns);
            SettingOk(c) && OnWay(c, HostsOf(k), found, 0, PointOf(e, ShownAt(c, found, 0)))
    ensures DistinctHosts(HostsOf(k)) && forall h :: h in HostsOf(k) ==> h in Known(e.links, k, missed)
  {
    var c := SettingOf(e, k, missed, cache, ns);
    var p := PointOf(e, ShownAt(c, found, 0));
    hide *;
    PoisedParts(e, k, missed, unheard);
    CacheInSync(e.links, k, missed);
    SettingParts(e, k, missed, cache, ns, ShownAt(c, found, 0));
    PartingOpen(e, NhRoutes(k), Known(e.links, k, missed));
    ListedLists(e, NhRoutes(k), Known(e.links, k, missed), unheard);
    HostsKnown(e.links, k, missed);
    StartOk(c, found, p, e.sw, e.egressPool, e.ecmpPool, Plus(unheard, e.waiting));
    WalkFirst(c, found, p);
  }

  lemma HostsKnown(links: Links, k: Kernel, missed: set<NeighId>)
    requires KernelOk(links, k) && missed <= k.unroutable
    ensures DistinctHosts(HostsOf(k)) && forall h :: h in HostsOf(k) ==> h in Known(links, k, missed)
  {
    hide IsHost, IsNet, RouteOk;
  }

  lemma PartingOpen(e: NlL3, routes: Routes, keys: Keys)
    requires e.Parting(routes, keys, {})
    ensures EgressWired(e.egress, e.egressPool, e.sw.egress) && EcmpWired(e.ecmp, e.ecmpPool, e.sw.ecmp, e.owner)
    ensures RoutesOk(routes) && GroupsCounted(e.ecmp, routes, {}) && Counted(e.egress, e.routable, e.watching, keys)
    ensures TablesOk(e.sw.hosts, e.sw.ecmp, e.sw.flows, e.egress, e.ecmp, e.routable, keys, routes, {}, keys, keys)
    ensures ClosedThroughout(e.log) && e.sw == Replay(e.log)
  {
  }

  lemma SettledOpen(e: NlL3, routes: Routes, keys: Keys)
    requires e.Settled(routes, keys)
    ensures EgressWired(e.egress, e.egressPool, e.sw.egress) && EcmpWired(e.ecmp, e.ecmpPool, e.sw.ecmp, e.owner)
    ensures RoutesOk(routes) && GroupsCounted(e.ecmp, routes, {}) && Counted(e.egress, e.routable, e.watching, keys)
    ensures ListsOk(e.waiting, e.watching, routes, {}, keys, keys)
    ensures TablesOk(e.sw.hosts, e.sw.ecmp, e.sw.flows, e.egress, e.ecmp, e.routable, keys, routes, {}, keys, keys)
    ensures ClosedThroughout(e.log) && e.sw == Replay(e.log)
    ensures DistinctHosts(e.routable) && forall h :: h in e.routable ==> h in keys
  {
  }

  lemma WalkFirst(c: Setting, found: seq<NhStub>, p: Point)
    requires Counted(p.egress, p.hosts, p.w, c.keys) && WatchedBut(c, p.w, {}) && p.shown == ShownAt(c, found, 0)
    requires ClosedThroughout(p.log) && Shows(c, p, Replay(p.log), {})
    ensures OnWay(c, p.hosts, found, 0, p)
  {
    hide Counted, ClosedThroughout, Shows, WatchedBut, ShownAt;
    assert Seen(found, 0) == {};
  }

  /** After the walk, the lists take exactly the covered neighbours for gone, and so do the counts. The stream
      stays closed if and only if nothing is tangled, and the tables are right as well if and only if no
      group is misled. */
  method DisableCovered(e: NlL3, dst: Addr, cache: Cache, ghost k: Kernel, ghost missed: set<NeighId>,
                        ghost unheard: seq<Pair>)
    requires Poised(e, k, missed, unheard) && cache == CacheOf(k) && IsPrefix(dst)
    requires Untouched(NhRoutes(k), Covered(k, dst), missed)
    modifies e
    ensures e.unroutable == k.unroutable + Covered(k, dst) && e.routable == HostsOf(k) - Covered(k, dst)
    ensures old(e.log) <= e.log
    ensures var keys, routes, hosts, ns := Known(e.links, k, missed), NhRoutes(k), HostsOf(k), Covered(k, dst);
            && e.Listed(routes, keys - ns, unheard) && Counted(e.egress, e.routable, e.watching, keys - ns)
            && (ClosedThroughout(e.log) <==> !Breaks(keys, routes, hosts, ns))
            && (unheard == [] ==> (e.Settled(routes, keys - ns) <==>
                                     !Breaks(keys, routes, hosts, ns) && !Misled(keys, routes, hosts, ns)))
  {
    hide *;
    PoisedParts(e, k, missed, unheard);
    HostNeighbours(e.links, k);
    var found := FindNeighs(e.routable, dst);
    ghost var ns, hosts := Covered(k, dst), HostsOf(k);
    ghost var routes, keys := NhRoutes(k), Known(e.links, k, missed);
    ghost var c := SettingOf(e, k, missed, cache, ns);
    CoveredAre(k, dst);
    SeenAll(found, ns);
    WalkStarts(e, k, missed, unheard, cache, ns, found);
    SettingParts(e, k, missed, cache, ns, map[]);
    assert keys - {} == keys;
    for i := 0 to |found|
      invariant e.Listed(routes, keys - Seen(found, i), unheard) && e.ecmp == old(e.ecmp) && e.owner == old(e.owner)
      invariant e.unroutable == k.unroutable + Seen(found, i) && e.routable == hosts - Seen(found, i)
      invariant old(e.log) <= e.log
      invariant OnWay(c, hosts, found, i, PointOf(e, ShownAt(c, found, i)))
    {
      var n := found[i].Id();
      SeenNext(found, i);
      SeenAt(found, i, n);
      DisableKeys(e.links, k, missed, Seen(found, i), n);
      ghost var p := PointOf(e, ShownAt(c, found, i));
      SettingParts(e, k, missed, cache, ns, ShownAt(c, found, i));
      OnWayParts(c, hosts, found, i, p);
      OnWayNext(c, hosts, found, i, p);
      LeaveIs(c, p, n);
      ShownNext(c, found, i);
      Disable(e, n, cache, k, missed, Seen(found, i), unheard);
      SettingParts(e, k, missed, cache, ns, ShownAt(c, found, i + 1));
    }
    WalkEnds(e, c, found, ns, hosts, unheard);
  }

  lemma WalkEnds(e: NlL3, c: Setting, found: seq<NhStub>, ns: set<NeighId>, hosts: set<NeighId>, unheard: seq<Pair>)
    requires SettingOk(c) && InOrder(found, ns) && c.ecmp == e.ecmp
    requires OnWay(c, hosts, found, |found|, PointOf(e, ShownAt(c, found, |found|)))
    requires e.Listed(c.routes, c.keys - ns, unheard) && e.routable == hosts - ns
    requires DistinctHosts(hosts) && forall h :: h in hosts ==> h in c.keys && !IsLinkLocal(h.addr)
    ensures Counted(e.egress, e.routable, e.watching, c.keys - ns)
    ensures ClosedThroughout(e.log) <==> !Breaks(c.keys, c.routes, hosts, ns)
    ensures unheard == [] ==> (e.Settled(c.routes, c.keys - ns) <==>
                                 !Breaks(c.keys, c.routes, hosts, ns) && !Misled(c.keys, c.routes, hosts, ns))
  {
    var p := PointOf(e, ShownAt(c, found, |found|));
    assert p == Point(e.egress, e.watching, e.routable, e.log, ShownAt(c, found, |found|));
    hide *;
    OnWayParts(c, hosts, found, |found|, p);
    SafeIff(c, hosts, ns, found);
    CountedEnd(e, c, ns, unheard);
    EndRightIs(c, p, ns);
    if ClosedThroughout(e.log) { EndTables(c, found, ns, hosts, p); }
    if unheard == [] { SettledEnd(e, c, hosts, ns); }
  }

  lemma CountedEnd(e: NlL3, c: Setting, ns: set<NeighId>, unheard: seq<Pair>)
    requires Counted(e.egress, e.routable, e.watching, c.keys) && e.Listed(c.routes, c.keys - ns, unheard)
    requires forall h :: h in e.routable ==> h in c.keys && h !in ns
    ensures Counted(e.egress, e.routable, e.watching, c.keys - ns)
  {
    hide Counted, NlL3.Wired, GroupsCounted, RoutesOk;
    CountedKeys(e.egress, e.routable, e.watching, c.keys, c.keys - ns);
  }

  /** With lists and counts in order, settled means closed with the right tables. */
  lemma SettledEnd(e: NlL3, c: Setting, hosts: set<NeighId>, ns: set<NeighId>)
    requires e.Listed(c.routes, c.keys - ns, []) && e.routable == hosts - ns && c.ecmp == e.ecmp
    requires Counted(e.egress, e.routable, e.watching, c.keys - ns)
    requires DistinctHosts(hosts) && forall h :: h in hosts ==> h in c.keys && !IsLinkLocal(h.addr)
    ensures var keys, sw := c.keys - ns, Replay(e.log);
            e.Settled(c.routes, keys) <==>
              (ClosedThroughout(e.log)
               && TablesOk(sw.hosts, sw.ecmp, sw.flows, e.egress, c.ecmp, e.routable, keys, c.routes, {}, keys, keys))
  {
    hide TablesOk, Counted, ClosedThroughout, EgressWired, EcmpWired, Proper, Replay, GroupsCounted, RoutesOk,
         IsLinkLocal;
  }

  lemma CoveredAre(k: Kernel, dst: Addr)
    ensures Covered(k, dst) == NeighsOfPrefix(HostsOf(k), dst) && Covered(k, dst) <= HostsOf(k)
    ensures forall n :: n in HostsOf(k) ==> n !in k.unroutable && !IsLinkLocal(n.addr)
  {
  }

  /** The old on-link route ends: the neighbours it covered are not routed any more, and missed by the routes
      through them. In any case the counts are right for what the lists say; the stream stays closed if and only
      if nothing is tangled, and with that the tables are right for what the lists say if and only if no group
      is misled. */
  method WithdrawRoute(e: NlL3, dst: Addr, cache: Cache, ghost k: Kernel, ghost missed: set<NeighId>,
                       ghost unheard: seq<Pair>)
    requires Poised(e, k, missed, unheard) && cache == CacheOf(k) && IsPrefix(dst)
    requires Untouched(NhRoutes(k), Covered(k, dst), missed)
    modifies e
    ensures old(e.log) <= e.log
    ensures var keys, routes, hosts, ns := Known(e.links, k, missed), NhRoutes(k), HostsOf(k), Covered(k, dst);
            var right := !Breaks(keys, routes, hosts, ns) && !Misled(keys, routes, hosts, ns);
            && Tallied(e, Withdraw(k, dst), keys - ns) && e.Listed(routes, keys - ns, unheard)
            && (ClosedThroughout(e.log) <==> !Breaks(keys, routes, hosts, ns))
            && (unheard == [] && right ==> Tracks(e, Withdraw(k, dst), missed + WithRoutes(routes, ns)))
            && (unheard == [] ==> (e.Settled(routes, keys - ns) <==> right))
            && (unheard != [] || !right ==> !ListsMatch(e.waiting, e.watching, Withdraw(k, dst)))
  {
    hide *;
    ghost var k', ns := Withdraw(k, dst), Covered(k, dst);
    PoisedParts(e, k, missed, unheard);
    WithdrawnAre(e.links, k, missed, dst);
    DisableCovered(e, dst, cache, k, missed, unheard);
    ListedTallied(e, k', Known(e.links, k, missed) - ns, unheard);
    if unheard == [] {
      Disabling(e, k, missed, k', ns);
      if forall n :: n in ns ==> NoRouteVia(NhRoutes(k), n) {
        NoneApart(NhRoutes(k), ns);
        ApartIsRight(Known(e.links, k, missed), NhRoutes(k), HostsOf(k), ns);
      }
    } else {
      Unheard(e, k', Known(e.links, k, missed) - ns, unheard);
    }
  }

  lemma WithdrawnAre(links: Links, k: Kernel, missed: set<NeighId>, dst: Addr)
    requires KernelOk(links, k)
    ensures var k', ns := Withdraw(k, dst), Covered(k, dst);
            && KernelOk(links, k') && NhRoutes(k') == NhRoutes(k) && k'.neighs == k.neighs
            && k'.unroutable == k.unroutable + ns && ns <= HostsOf(k) && HostsOf(k') == HostsOf(k) - ns
            && Known(links, k', missed) == Known(links, k, missed)
  {
    hide IsHost, IsLinkLocal, KeyOf, RouteOk, IsNet, Covers;
  }

  /** Kernel states around the end of an on-link route. */
  lemma OffLinkStep(links: Links, k: Kernel, missed: set<NeighId>, dst: Addr)
    requires KernelOk(links, k) && Possible(links, k, RouteGone(dst)) && Disables(k, RouteGone(dst))
    requires missed <= k.unroutable && forall n :: n in missed ==> !NoRouteVia(NhRoutes(k), n)
    ensures dst in NhRoutes(k) && NhRoutes(k)[dst] == {} && IsPrefix(dst)
    ensures var k0 := Middle(k, RouteGone(dst));
            && KernelOk(links, k0) && NhRoutes(k0) == NhRoutes(k) - {dst} && HostsOf(k0) == HostsOf(k)
            && Known(links, k0, missed) == Known(links, k, missed) && k0.unroutable == k.unroutable
            && (forall n :: n in missed ==> !NoRouteVia(NhRoutes(k0), n))
            && CacheOf(Step(k, RouteGone(dst))) == CacheOf(k0)
  {
    hide IsHost, IsLinkLocal, KeyOf, RouteOk;
    var k0 := Middle(k, RouteGone(dst));
    assert NhRoutes(k0) == NhRoutes(k) - {dst};
    StillMissed(NhRoutes(k), NhRoutes(k0), missed, dst);
  }

  /** An on-link route disappears. */
  method OnLinkRouteGone(e: NlL3, dst: Addr, cache: Cache, ghost k: Kernel, ghost missed: set<NeighId>)
    requires Tracks(e, k, missed) && Possible(e.links, k, RouteGone(dst)) && Disables(k, RouteGone(dst))
    requires Avoids(k, missed, RouteGone(dst)) && cache == CacheOf(Step(k, RouteGone(dst)))
    modifies e
    ensures old(e.log) <= e.log
    ensures Keeps(e.links, k, missed, RouteGone(dst)) ==>
              Tracks(e, Step(k, RouteGone(dst)), MissedNext(k, missed, RouteGone(dst)))
    ensures !Keeps(e.links, k, missed, RouteGone(dst)) ==>
              !ListsMatch(e.waiting, e.watching, Step(k, RouteGone(dst)))
    ensures e.Listed(NhRoutes(Step(k, RouteGone(dst))), Believed(e.links, k, missed, RouteGone(dst)), [])
    ensures Tallied(e, Step(k, RouteGone(dst)), Believed(e.links, k, missed, RouteGone(dst)))
    ensures ClosedThroughout(e.log) <==> !StreamBreaks(e.links, k, missed, RouteGone(dst))
    ensures e.Settled(NhRoutes(Step(k, RouteGone(dst))), Believed(e.links, k, missed, RouteGone(dst)))
       <==> Keeps(e.links, k, missed, RouteGone(dst))
  {
    hide *;
    ghost var k0 := Middle(k, RouteGone(dst));
    TracksParts(e, k, missed);
    OffLinkStep(e.links, k, missed, dst);
    DisablesMeans(e.links, k, missed, RouteGone(dst), dst);
    NoGateways(cache, e.links, Known(e.links, k, missed), e.egress);
    e.DelL3UnicastRoute(dst, {}, cache, NhRoutes(k), Known(e.links, k, missed));
    TracksOf(e, k0, missed);
    TracksPoised(e, k0, missed);
    WithdrawRoute(e, dst, cache, k0, missed, []);
  }

  /** What an event that ends an on-link route means, in terms of the state in which it ends. */
  lemma DisablesMeans(links: Links, k: Kernel, missed: set<NeighId>, ev: Event, dst: Addr)
    requires Disables(k, ev) && (ev == RouteGone(dst) || (ev.RouteChange? && ev.r.dst == dst)) && Avoids(k, missed, ev)
    ensures var k1, m1 := Middle(k, ev), MiddleMissed(k, missed, ev);
            var keys, routes, hosts, ns := Known(links, k1, m1), NhRoutes(k1), HostsOf(k1), Covered(k1, dst);
            && Step(k, ev) == Withdraw(k1, dst) && NhRoutes(Step(k, ev)) == routes && Untouched(routes, ns, m1)
            && MissedNext(k, missed, ev) == m1 + WithRoutes(routes, ns) && Believed(links, k, missed, ev) == keys - ns
            && (ev.RouteGone? ==> m1 == missed)
            && (StreamBreaks(links, k, missed, ev) <==> Breaks(keys, routes, hosts, ns))
            && (Keeps(links, k, missed, ev) <==>
                  && !Breaks(keys, routes, hosts, ns) && !Misled(keys, routes, hosts, ns)
                  && (ev.RouteChange? ==> AllHeard(dst, ev.r.nhs, k)))
  {
    assert NhRoutes(Withdraw(Middle(k, ev), dst)) == NhRoutes(Middle(k, ev));
    hide Breaks, Misled, Untouched, NhRoutes, Known, Covered, HostsOf, Withdraw, AllHeard, WithRoutes, NoneIn,
         EnabledBy;
  }

  // ------------------------------------------------------- routes that change

  /** Kernel states around a change in which the old or the new route is on-link. */
  lemma ChangeStep(links: Links, k: Kernel, missed: set<NeighId>, r: Route, routable: set<NeighId>)
    requires KernelOk(links, k) && Possible(links, k, RouteChange(r, routable))
    requires Avoids(k, missed, RouteChange(r, routable))
    requires missed <= k.unroutable && forall n :: n in missed ==> !NoRouteVia(NhRoutes(k), n)
    ensures r.dst in k.routes && r.dst in NhRoutes(k) && NhRoutes(k)[r.dst] == k.routes[r.dst].nhs && IsPrefix(r.dst)
    ensures RouteOk(r.nhs) && NoneIn(r.nhs, missed) && NoneIn(k.routes[r.dst].nhs, missed)
    ensures (k.routes[r.dst].onLink ==> k.routes[r.dst].nhs == {}) && (r.onLink ==> r.nhs == {})
    ensures var k0 := k.(routes := k.routes[r.dst := r]);
            && KernelOk(links, k0) && NhRoutes(k0) == NhRoutes(k)[r.dst := r.nhs] && HostsOf(k0) == HostsOf(k)
            && Known(links, k0, missed) == Known(links, k, missed) && k0.unroutable == k.unroutable
            && k0.neighs == k.neighs && (forall n :: n in missed ==> !NoRouteVia(NhRoutes(k0), n))
            && CacheOf(Step(k, RouteChange(r, routable))) == CacheOf(k0)
            && ShownBy(k0, NhRoutes(k), map[r.dst := ToController])
  {
    hide IsHost, IsLinkLocal, KeyOf, RouteOk, EnabledBy, Covered, Untouched, NoRouteVia, AvoidsNew, AvoidsOld, NoneIn;
    var k0 := k.(routes := k.routes[r.dst := r]);
    assert NhRoutes(k0) == NhRoutes(k)[r.dst := r.nhs];
    StillMissed(NhRoutes(k), NhRoutes(k0), missed, r.dst);
  }

  /** The neighbours that a change makes routed. */
  lemma ChangeEnables(k: Kernel, missed: set<NeighId>, r: Route, routable: set<NeighId>)
    requires r.dst in k.routes && r.onLink && Avoids(k, missed, RouteChange(r, routable))
    ensures var k0, ns := k.(routes := k.routes[r.dst := r]), EnabledBy(k, r.dst, routable);
            && EnabledBy(k0, r.dst, routable) == ns && Adopt(k, r, routable) == k0.(unroutable := k0.unroutable - ns)
            && Middle(k, RouteChange(r, routable)) == Adopt(k, r, routable)
            && CacheOf(Adopt(k, r, routable)) == CacheOf(k0) && NhRoutes(Adopt(k, r, routable)) == NhRoutes(k0)
            && MiddleMissed(k, missed, RouteChange(r, routable)) == missed - ns
            && (forall n :: n in ns * missed ==> Untouched(NhRoutes(k), {n}, missed - {n}))
            && (forall n, aside: Aside :: n in ns * missed && aside.Keys == {r.dst} ==>
                  NotAside(NhRoutes(k), aside, n))
  {
    hide Covers, IsLinkLocal, Untouched;
    forall n, aside: Aside | n in missed && aside.Keys == {r.dst} ensures NotAside(NhRoutes(k), aside, n) {
      assert forall d :: d in aside ==> d in aside.Keys && d == r.dst;
    }
  }

  /** A change whose old route is on-link: the new route, then the neighbours that it makes routed, then the end of
      the old route, which takes all neighbours under it along, whatever the new route is. */
  method OnLinkRouteChange(e: NlL3, r: Route, routable: set<NeighId>, cache: Cache, ghost k: Kernel,
                           ghost missed: set<NeighId>)
    requires Tracks(e, k, missed) && Possible(e.links, k, RouteChange(r, routable))
    requires Disables(k, RouteChange(r, routable)) && Avoids(k, missed, RouteChange(r, routable))
    requires cache == CacheOf(Step(k, RouteChange(r, routable)))
    modifies e
    ensures old(e.log) <= e.log
    ensures Keeps(e.links, k, missed, RouteChange(r, routable)) ==>
              Tracks(e, Step(k, RouteChange(r, routable)), MissedNext(k, missed, RouteChange(r, routable)))
    ensures !Keeps(e.links, k, missed, RouteChange(r, routable)) ==>
              !ListsMatch(e.waiting, e.watching, Step(k, RouteChange(r, routable)))
    ensures Tallied(e, Step(k, RouteChange(r, routable)), Believed(e.links, k, missed, RouteChange(r, routable)))
    ensures ClosedThroughout(e.log) <==> !StreamBreaks(e.links, k, missed, RouteChange(r, routable))
    // host entries are those of the new route alone just when no neighbour under it is routed by then
    ensures e.routable == HostsOf(Adopt(k, r, routable)) <==> Covered(Adopt(k, r, routable), r.dst) == {}
    ensures forall n :: n in e.routable ==> !Covers(r.dst, n.addr)
  {
    hide *;
    ghost var ev, k0, keys := RouteChange(r, routable), k.(routes := k.routes[r.dst := r]), Known(e.links, k, missed);
    TracksParts(e, k, missed);
    ChangeStep(e.links, k, missed, r, routable);
    DisablesMeans(e.links, k, missed, ev, r.dst);
    ChangeIff(k, r, routable);
    OldIsOnLink(k, ev, r.dst);
    CacheInSync(e.links, k0, missed);
    NoGateways(cache, e.links, keys, e.egress);
    GatewayHeard(e.links, k, missed, r.dst, r.nhs);
    ghost var unheard := e.UpdateL3UnicastRoute(r.dst, {}, r.nhs, cache, NhRoutes(k), keys);
    HeardOf(e.links, k, missed, k0, unheard, r.dst, r.nhs);
    PoisedOf(e, k0, missed, unheard);
    if r.onLink {
      NoNextHops(r.dst, keys);
      ChangeEnables(k, missed, r, routable);
      TracksOf(e, k0, missed);
      TracksRests(e, k0, missed);
      assert NhRoutes(k)[r.dst := {}] == NhRoutes(k0);
      OnLinkAlike(NhRoutes(k), r.dst);
      EnableCovered(e, r.dst, routable, cache, k0, missed, NhRoutes(k0), map[]);
      TracksRests(e, Adopt(k, r, routable), missed - EnabledBy(k, r.dst, routable));
      TracksPoised(e, Adopt(k, r, routable), missed - EnabledBy(k, r.dst, routable));
      WithdrawRoute(e, r.dst, cache, Adopt(k, r, routable), missed - EnabledBy(k, r.dst, routable), []);
    } else {
      NothingEnabled(k, missed, r, routable);
      WithdrawRoute(e, r.dst, cache, k0, missed, unheard);
    }
    TalliedHosts(e, Step(k, ev), Believed(e.links, k, missed, ev));
    NoneCovered(e.routable, Step(k, ev), r.dst);
  }

  lemma TalliedHosts(e: NlL3, k: Kernel, keys: Keys)
    requires Tallied(e, k, keys)
    ensures e.routable == HostsOf(k)
  {
  }

  lemma OldIsOnLink(k: Kernel, ev: Event, dst: Addr)
    requires Disables(k, ev) && ev.RouteChange? && ev.r.dst == dst
    ensures dst in k.routes && k.routes[dst].onLink
  {
  }

  lemma OnLinkAlike(routes: Routes, dst: Addr)
    requires dst in routes && routes[dst] == {}
    ensures routes[dst := {}] == routes
  {
  }

  lemma NothingEnabled(k: Kernel, missed: set<NeighId>, r: Route, routable: set<NeighId>)
    requires !r.onLink
    ensures Middle(k, RouteChange(r, routable)) == Adopt(k, r, routable) == k.(routes := k.routes[r.dst := r])
    ensures MiddleMissed(k, missed, RouteChange(r, routable)) == missed
  {
  }

  lemma NoneCovered(hosts: set<NeighId>, k: Kernel, dst: Addr)
    requires hosts == HostsOf(k) && Covered(k, dst) == {}
    ensures forall n :: n in hosts ==> !Covers(dst, n.addr)
  {
    hide IsLinkLocal;
    forall n | n in hosts ensures !Covers(dst, n.addr) { assert n !in Covered(k, dst); }
  }

  /** A gateway route becomes on-link: the new route, then the neighbours that it makes routed while the old next
      hops still hold their references, then these. */
  method GatewayRouteOnLink(e: NlL3, r: Route, o: set<NhStub>, routable: set<NeighId>, cache: Cache, ghost k: Kernel,
                            ghost missed: set<NeighId>)
    requires r.dst in k.routes && k.routes[r.dst].nhs == o
    requires Tracks(e, k, missed) && Possible(e.links, k, RouteChange(r, routable)) && r.onLink
    requires !Disables(k, RouteChange(r, routable)) && Avoids(k, missed, RouteChange(r, routable))
    requires cache == CacheOf(Step(k, RouteChange(r, routable)))
    modifies e
    ensures old(e.log) <= e.log && Keeps(e.links, k, missed, RouteChange(r, routable))
    ensures Tracks(e, Step(k, RouteChange(r, routable)), MissedNext(k, missed, RouteChange(r, routable)))
  {
    hide *;
    ghost var ev, k0, keys := RouteChange(r, routable), k.(routes := k.routes[r.dst := r]), Known(e.links, k, missed);
    ghost var k1, m1 := Adopt(k, r, routable), missed - EnabledBy(k, r.dst, routable);
    TracksParts(e, k, missed);
    ChangeStep(e.links, k, missed, r, routable);
    ChangeEnables(k, missed, r, routable);
    NotDisabling(e.links, k, missed, r, routable);
    ghost var aside := e.MuteRoute(r.dst, cache, NhRoutes(k), keys);
    ShownAside(k0, NhRoutes(k), r.dst, aside);
    TrackingOf(e, k0, missed, NhRoutes(k), aside);
    EnableCovered(e, r.dst, routable, cache, k0, missed, NhRoutes(k), aside);
    TrackingParts(e, k1, m1, NhRoutes(k), aside);
    FewerIn(o, missed, m1);
    CacheInSync(e.links, k1, m1);
    e.RetireRoute(r.dst, o, cache, NhRoutes(k), Known(e.links, k1, m1), aside);
    assert NhRoutes(k1) == NhRoutes(k)[r.dst := {}];
    StillMissed(NhRoutes(k), NhRoutes(k1), m1, r.dst);
    TracksOf(e, k1, m1);
  }

  lemma ShownAside(k: Kernel, routes: Routes, dst: Addr, aside: Aside)
    requires ShownBy(k, routes, map[dst := ToController]) && aside.Keys == {dst}
    ensures ShownBy(k, routes, aside)
  {
    assert forall d :: d in aside <==> d == dst;
  }

  lemma FewerIn(s: set<NhStub>, missed: set<NeighId>, missed': set<NeighId>)
    requires NoneIn(s, missed) && missed' <= missed
    ensures NoneIn(s, missed')
  {
  }

  lemma NotDisabling(links: Links, k: Kernel, missed: set<NeighId>, r: Route, routable: set<NeighId>)
    requires Possible(links, k, RouteChange(r, routable)) && r.onLink && !Disables(k, RouteChange(r, routable))
    ensures Keeps(links, k, missed, RouteChange(r, routable))
    ensures Step(k, RouteChange(r, routable)) == Adopt(k, r, routable)
    ensures MissedNext(k, missed, RouteChange(r, routable)) == missed - EnabledBy(k, r.dst, routable)
    ensures !StreamBreaks(links, k, missed, RouteChange(r, routable))
  {
    hide Breaks, Misled, EnabledBy, RouteOk, Silent;
  }

  lemma NoGateways(cache: Cache, links: Links, keys: Keys, egress: Egress)
    ensures CacheAgrees(cache, links, {}, keys) && CacheKeys(cache, links, {}, keys)
  {
  }

  lemma ListedTallied(e: NlL3, k: Kernel, keys: Keys, unheard: seq<Pair>)
    requires KernelOk(e.links, k) && e.unroutable == k.unroutable && e.routable == HostsOf(k)
    requires e.Listed(NhRoutes(k), keys, unheard) && Counted(e.egress, e.routable, e.watching, keys)
    ensures Tallied(e, k, keys)
  {
  }

  /** What the walk over the covered neighbours leaves: those with routes are missed from then on. */
  lemma Disabling(e: NlL3, k: Kernel, missed: set<NeighId>, k': Kernel, ns: set<NeighId>)
    requires KernelOk(e.links, k') && k'.unroutable == k.unroutable + ns && missed <= k.unroutable
    requires e.unroutable == k'.unroutable && e.routable == HostsOf(k') == HostsOf(k) - ns && ns <= HostsOf(k)
    requires Known(e.links, k', missed) == Known(e.links, k, missed)
    requires e.Listed(NhRoutes(k'), Known(e.links, k, missed) - ns, [])
    requires forall n :: n in missed ==> !NoRouteVia(NhRoutes(k'), n)
    ensures e.Settled(NhRoutes(k'), Known(e.links, k, missed) - ns) ==>
              Tracks(e, k', missed + WithRoutes(NhRoutes(k'), ns))
    ensures (exists n :: n in ns && !NoRouteVia(NhRoutes(k'), n)) ==> !ListsMatch(e.waiting, e.watching, k')
  {
    var keys, gone := Known(e.links, k, missed), WithRoutes(NhRoutes(k'), ns);
    RoutesWith(NhRoutes(k'), ns);
    DisabledKeys(e.links, k', keys, missed, ns, gone);
    HostsResolved(e.links, k', missed + ns);
    hide *;
    if e.Settled(NhRoutes(k'), keys - ns) {
      e.KeyWithoutUsers(NhRoutes(k'), keys - ns, keys - gone, ns - gone);
      TracksOf(e, k', missed + gone);
    }
    ListedLists(e, NhRoutes(k'), keys - ns, []);
    PlusNone(e.waiting);
    ListsWithout(e.waiting, e.watching, e.links, k', missed + ns);
  }

  lemma ListedLists(e: NlL3, routes: Routes, keys: Keys, unheard: seq<Pair>)
    requires e.Listed(routes, keys, unheard)
    ensures ListsOk(Plus(unheard, e.waiting), e.watching, routes, {}, keys, keys)
  {
  }

  lemma RoutesWith(routes: Routes, ns: set<NeighId>)
    ensures WithRoutes(routes, ns) <= ns
    ensures forall n :: n in ns ==> (n in WithRoutes(routes, ns) <==> !NoRouteVia(routes, n))
  {
  }

  lemma DisabledKeys(links: Links, k: Kernel, keys: Keys, missed: set<NeighId>, ns: set<NeighId>, gone: set<NeighId>)
    requires gone <= ns && keys == Known(links, k, missed)
    ensures keys - ns == Known(links, k, missed + ns) && keys - gone == Known(links, k, missed + gone)
    ensures keys - ns - (ns - gone) == keys - gone - (ns - gone)
  {
  }

  lemma HostsResolved(links: Links, k: Kernel, ns: set<NeighId>)
    requires KernelOk(links, k) && ns <= k.unroutable
    ensures ns <= k.neighs.Keys
  {
  }

  // ----------------------------------------------------------- whole runs

  /** One netlink event that touches no missed neighbour, handled against the caches that already show it: the
      engine goes on tracking the kernel if and only if the event keeps track. */
  method Handle(e: NlL3, ev: Event, k: Kernel, ghost missed: set<NeighId>)
    requires Tracks(e, k, missed) && Possible(e.links, k, ev) && Avoids(k, missed, ev)
    modifies e
    ensures old(e.log) <= e.log
    ensures Keeps(e.links, k, missed, ev) ==> Tracks(e, Step(k, ev), MissedNext(k, missed, ev))
    ensures !Keeps(e.links, k, missed, ev) ==>
              && !ListsMatch(e.waiting, e.watching, Step(k, ev))
              && Tallied(e, Step(k, ev), Believed(e.links, k, missed, ev))
    ensures ClosedThroughout(e.log) <==> !StreamBreaks(e.links, k, missed, ev)
  {
    hide Tracks, KernelOk, ListsMatch, Step, Tallied, ClosedThroughout, CacheOf, MissedNext, Believed, Avoids, Breaks,
         Misled, NhRoutes, HostsOf, Covered, Known, AllHeard, NoRouteVia;
    var cache := CacheOf(Step(k, ev));
    match ev {
      case NeighUp(n, mac, isRoutable) =>
        OnNeighUp(e, n, mac, isRoutable, cache, k, missed);
        TracksClosed(e, Step(k, ev), MissedNext(k, missed, ev));
      case NeighDown(n, mac) => OnNeighDown(e, n, mac, cache, k, missed);
      case RouteNew(r, routable) =>
        if r.onLink {
          OnLinkRouteNew(e, r, routable, cache, k, missed);
          TracksClosed(e, Step(k, ev), MissedNext(k, missed, ev));
        } else {
          OnGatewayRoute(e, ev, r.dst, {}, r.nhs, cache, k, missed);
        }
      case RouteGone(dst) =>
        if k.routes[dst].onLink { OnLinkRouteGone(e, dst, cache, k, missed); }
        else { OnGatewayRoute(e, ev, dst, k.routes[dst].nhs, {}, cache, k, missed); }
      case RouteChange(r, routable) =>
        if k.routes[r.dst].onLink {
          OnLinkRouteChange(e, r, routable, cache, k, missed);
        } else if r.onLink {
          GatewayRouteOnLink(e, r, k.routes[r.dst].nhs, routable, cache, k, missed);
          TracksClosed(e, Step(k, ev), MissedNext(k, missed, ev));
        } else {
          OnGatewayRoute(e, ev, r.dst, k.routes[r.dst].nhs, r.nhs, cache, k, missed);
        }
    }
  }

  lemma TracksClosed(e: NlL3, k: Kernel, missed: set<NeighId>)
    requires Tracks(e, k, missed)
    ensures ClosedThroughout(e.log)
  {
  }

  /** Egress group `id` carries a packet to neighbour n: out of n's link, from the link's address to n's own. */
  ghost predicate Reaches(sw: Switch, id: nat, links: Links, k: Kernel, n: NeighId) {
    id in sw.egress && n in k.neighs && n.ifindex in links && Carries(sw.egress[id], links[n.ifindex], k.neighs[n])
  }

  /** The neighbour behind a next hop is resolved, and not missed. */
  predicate NhUp(k: Kernel, missed: set<NeighId>, nh: NhStub) {
    var n := NeighId(nh.ifindex, nh.addr);
    n in k.neighs && n !in missed
  }

  ghost predicate Leads(sw: Switch, id: nat, links: Links, k: Kernel, missed: set<NeighId>, nh: NhStub) {
    NhUp(k, missed, nh) && Reaches(sw, id, links, k, NeighId(nh.ifindex, nh.addr))
  }

  /** The switch sends packets for destination d to the next hops that are up, and to no others: to the
      controller when none does, to the only one, or to a group of exactly those. */
  ghost predicate Forwards(sw: Switch, links: Links, k: Kernel, missed: set<NeighId>, d: Addr)
    requires d in k.routes
  {
    var nhs := k.routes[d].nhs;
    d in sw.flows &&
    match sw.flows[d]
    case ToController => forall nh :: nh in nhs ==> !NhUp(k, missed, nh)
    case ToEgress(id) => |nhs| == 1 && forall nh :: nh in nhs ==> Leads(sw, id, links, k, missed, nh)
    case ToEcmp(g) => |nhs| > 1 && Spreads(sw, g, links, k, missed, nhs)
  }

  ghost predicate Spreads(sw: Switch, g: nat, links: Links, k: Kernel, missed: set<NeighId>, nhs: set<NhStub>) {
    && g in sw.ecmp && sw.ecmp[g] != {}
    && (forall nh :: nh in nhs && NhUp(k, missed, nh) ==>
          exists id :: id in sw.ecmp[g] && Leads(sw, id, links, k, missed, nh))
    && (forall id :: id in sw.ecmp[g] ==> exists nh :: nh in nhs && Leads(sw, id, links, k, missed, nh))
  }

  /** What tracking kernel state k means, part by part. */
  ghost predicate Exact(e: NlL3, k: Kernel, missed: set<NeighId>)
    reads e
  {
    var routes, keys, hosts := NhRoutes(k), Known(e.links, k, missed), HostsOf(k);
    // conservation of egress references
    && (forall key :: key in e.egress <==> Uses(hosts, e.watching, keys, key) > 0)
    && (forall key :: key in e.egress ==> e.egress[key].refcnt == Uses(hosts, e.watching, keys, key))
    // every pair in exactly one list, once
    && Once(e.watching) && Once(e.waiting) && ListsMatch(e.waiting, e.watching, k.(neighs := k.neighs - missed))
    // ECMP groups: one per next-hop set in use, counted and populated exactly
    && (forall s :: s in e.ecmp <==> |s| > 1 && RoutesVia(routes, s) != {})
    && (forall s :: s in e.ecmp ==> e.ecmp[s].refcnt == |RoutesVia(routes, s)|)
    && (forall s :: s in e.ecmp ==> e.ecmp[s].id in e.sw.ecmp && e.sw.ecmp[e.ecmp[s].id] == Ids(s, keys, e.egress))
    // prefix routes and host entries point where the kernel state says, groups have distinct ids
    && e.sw.flows.Keys == k.routes.Keys
    && (forall d :: d in k.routes ==> IsTarget(e.sw.flows[d], k.routes[d].nhs, keys, e.egress, e.ecmp))
    && HostsOk(e.sw.hosts, hosts, keys, e.egress)
    // the packets reach the link-layer addresses of the neighbours
    && (forall n :: n in hosts ==> n.addr in e.sw.hosts && Reaches(e.sw, e.sw.hosts[n.addr], e.links, k, n))
    && (forall d :: d in k.routes ==> Forwards(e.sw, e.links, k, missed, d))
    && (forall a, b :: a in e.egress && b in e.egress && e.egress[a].id == e.egress[b].id ==> a == b)
    // no message of the run left a dangling reference, and each met the groups it expects
    && e.sw == Replay(e.log) && ClosedThroughout(e.log) && Proper(e.log)
  }

  /** The event that ended the run did not keep track of all neighbours. */
  ghost predicate Lost(e: NlL3, k: Kernel, missed: set<NeighId>, ev: Event)
    reads e
  {
    && !Keeps(e.links, k, missed, ev) && !ListsMatch(e.waiting, e.watching, Step(k, ev))
    && Tallied(e, Step(k, ev), Believed(e.links, k, missed, ev))
    && (ClosedThroughout(e.log) <==> !StreamBreaks(e.links, k, missed, ev))
  }

  /** Every run of possible events, from the empty engine: at any time the engine is exact for the neighbours
      that are not missed, and mirrors the kernel if and only if nobody is missed. It gets that far as long as no
      event touches a missed neighbour; an event that does not keep track ends the run with the lists wrong,
      the references counted for what they say, and the stream closed if and only if the event does not
      break it. */
  method Run(links: Links, events: seq<Event>)
    returns (e: NlL3, k: Kernel, n: nat, missed: set<NeighId>, lost: bool)
    requires PossibleRun(links, events)
    ensures fresh(e) && e.links == links && n <= |events| && k == Final(events[..n])
    ensures !lost ==> missed == MissedAfter(events[..n]) && Tracks(e, k, missed) && Exact(e, k, missed)
    ensures !lost ==> KeptTo(links, events, n) && (n == |events| || !Avoids(k, missed, events[n]))
    ensures lost ==> n > 0 && KeptTo(links, events, n - 1)
                     && Lost(e, Final(events[..n - 1]), MissedAfter(events[..n - 1]), events[n - 1])
    ensures ListsMatch(e.waiting, e.watching, k) <==> !lost && missed == {}
    ensures Mirrors(e, k) <==> !lost && missed == {}
    ensures FollowedRun(events) ==> n == |events| && !lost && missed == {}
  {
    hide *;
    e := new NlL3(links);
    k := NOTHING;
    n, missed, lost := 0, {}, false;
    StartTracks(e);
    RunStart(links, events);
    while n < |events| && Avoids(k, missed, events[n])
      invariant fresh(e) && e.links == links && n <= |events|
      invariant k == Final(events[..n]) && missed == MissedAfter(events[..n])
      invariant Tracks(e, k, missed) && KeptTo(links, events, n)
      invariant FollowedRun(events) ==> missed == {}
    {
      RunNext(links, events, n);
      var keeps := Keeps(links, k, missed, events[n]);
      TracksParts(e, k, missed);
      FollowedIff(links, k, events[n]);
      Handle(e, events[n], k, missed);
      k, missed := Step(k, events[n]), MissedNext(k, missed, events[n]);
      n := n + 1;
      if !keeps {
        lost := true;
        LostOf(e, events, n);
        if Mirrors(e, k) { MirrorsMatch(e, k); }
        return;
      }
    }
    if FollowedRun(events) && n < |events| {
      RunNext(links, events, n);
      TracksParts(e, k, missed);
      FollowedIff(links, k, events[n]);
    }
    TracksMatch(e, k, missed);
    TracksMeans(e, k, missed);
  }

  lemma MirrorsMatch(e: NlL3, k: Kernel)
    requires Mirrors(e, k)
    ensures ListsMatch(e.waiting, e.watching, k)
  {
    assert Tracks(e, k, {});
    hide *;
    TracksMatch(e, k, {});
  }

  lemma LostOf(e: NlL3, events: seq<Event>, n: nat)
    requires 0 < n <= |events|
    requires var k, missed, ev := Final(events[..n - 1]), MissedAfter(events[..n - 1]), events[n - 1];
             && !Keeps(e.links, k, missed, ev) && !ListsMatch(e.waiting, e.watching, Step(k, ev))
             && Tallied(e, Step(k, ev), Believed(e.links, k, missed, ev))
             && (ClosedThroughout(e.log) <==> !StreamBreaks(e.links, k, missed, ev))
    ensures Lost(e, Final(events[..n - 1]), MissedAfter(events[..n - 1]), events[n - 1])
  {
  }

  lemma RunStart(links: Links, events: seq<Event>)
    ensures Final(events[..0]) == NOTHING && MissedAfter(events[..0]) == {} && KeptTo(links, events, 0)
  {
  }

  lemma RunNext(links: Links, events: seq<Event>, n: nat)
    requires PossibleRun(links, events) && n < |events| && KeptTo(links, events, n)
    ensures Possible(links, Final(events[..n]), events[n])
    ensures Final(events[..n + 1]) == Step(Final(events[..n]), events[n])
    ensures MissedAfter(events[..n + 1]) == MissedNext(Final(events[..n]), MissedAfter(events[..n]), events[n])
    ensures var k, missed := Final(events[..n]), MissedAfter(events[..n]);
            Avoids(k, missed, events[n]) && Keeps(links, k, missed, events[n]) ==> KeptTo(links, events, n + 1)
    ensures FollowedRun(events) ==> Followed(Final(events[..n]), events[n])
  {
    hide Step, Followed, Possible, MissedNext, Avoids, Keeps;
    assert events[..n + 1][..n] == events[..n];
  }

  lemma StartTracks(e: NlL3)
    requires e.Live() && e.egress == map[] && e.ecmp == map[] && e.waiting == [] && e.watching == []
    requires e.routable == {} && e.unroutable == {} && e.sw == EMPTY
    ensures Tracks(e, NOTHING, {})
  {
    hide NlL3.Live, IsHost, IsNet, IsLinkLocal, IsTarget, Ids;
    assert NhRoutes(NOTHING) == map[] && Known(e.links, NOTHING, {}) == map[];
    hide NhRoutes, Known;
    assert forall k :: HostsOn({}, map[], k) == {};
    assert forall s: set<NhStub> :: RoutesVia(map[], s) == {};
  }

  lemma TracksMeans(e: NlL3, k: Kernel, missed: set<NeighId>)
    requires Tracks(e, k, missed)
    ensures Exact(e, k, missed)
  {
    hide Tracks, NlL3.Settled, NlL3.Listed, KernelOk, IsTarget, Ids, Known, Uses, ListsMatch, HostsOf, HostsOk, Once,
         ClosedThroughout, Proper, Replay, NhRoutes, RoutesVia, Reaches, Forwards;
    TracksParts(e, k, missed);
    TracksLists(e, k, missed);
    TracksForward(e, k, missed);
    SettledMeans(e, NhRoutes(k), Known(e.links, k, missed));
    NhRoutesAt(k);
  }

  /** What is known of a neighbour is the key that reaches it. */
  lemma KnownReaches(e: NlL3, k: Kernel, missed: set<NeighId>, n: NeighId)
    requires KernelOk(e.links, k) && e.Wired()
    ensures n in Known(e.links, k, missed) <==> n in k.neighs && n !in missed
    ensures n in Known(e.links, k, missed) && Known(e.links, k, missed)[n] in e.egress ==>
              Reaches(e.sw, e.egress[Known(e.links, k, missed)[n]].id, e.links, k, n)
  {
    hide IsHost, IsNet, IsLinkLocal, RouteOk, EcmpWired, Proper, Replay;
  }

  lemma TracksForward(e: NlL3, k: Kernel, missed: set<NeighId>)
    requires Tracks(e, k, missed)
    ensures forall n :: n in HostsOf(k) ==> n.addr in e.sw.hosts && Reaches(e.sw, e.sw.hosts[n.addr], e.links, k, n)
    ensures forall d :: d in k.routes ==> Forwards(e.sw, e.links, k, missed, d)
  {
    TracksParts(e, k, missed);
    SettledWired(e, NhRoutes(k), Known(e.links, k, missed));
    SettledMeans(e, NhRoutes(k), Known(e.links, k, missed));
    NhRoutesAt(k);
    hide Tracks, NlL3.Settled, NlL3.Listed, NlL3.Parting, NlL3.Wired, KernelOk, IsTarget, Ids, Known, Uses, HostsOf,
         Once, ClosedThroughout, Proper, Replay, NhRoutes, RoutesVia, Reaches, Forwards, Counted, NoRouteVia;
    forall n | n in HostsOf(k)
      ensures n.addr in e.sw.hosts && Reaches(e.sw, e.sw.hosts[n.addr], e.links, k, n) {
      KnownReaches(e, k, missed, n);
    }
    forall d | d in k.routes ensures Forwards(e.sw, e.links, k, missed, d) {
      HeldNextHops(e, k, missed, d);
      ForwardsAt(e, k, missed, d);
    }
  }

  lemma SettledWired(e: NlL3, routes: Routes, keys: Keys)
    requires e.Settled(routes, keys)
    ensures e.Wired()
  {
  }

  /** The routes hold the egress groups of their known next hops. */
  lemma HeldNextHops(e: NlL3, k: Kernel, missed: set<NeighId>, d: Addr)
    requires Tracks(e, k, missed) && d in k.routes
    ensures var keys := Known(e.links, k, missed);
            forall nh: NhStub :: nh in k.routes[d].nhs && nh.Id() in keys ==> keys[nh.Id()] in e.egress
  {
    TracksParts(e, k, missed);
    TracksLists(e, k, missed);
    SettledMeans(e, NhRoutes(k), Known(e.links, k, missed));
    var keys := Known(e.links, k, missed);
    forall nh: NhStub | nh in k.routes[d].nhs && nh.Id() in keys ensures keys[nh.Id()] in e.egress {
      hide Tracks, NlL3.Settled, NlL3.Listed, NlL3.Parting, KernelOk, IsTarget, Ids, Counted, NoRouteVia;
      assert Wants(NhRoutes(k), Pair(d, nh));
      HeldByPair(e.egress, e.routable, e.watching, keys, Pair(d, nh));
    }
  }

  lemma ForwardsAt(e: NlL3, k: Kernel, missed: set<NeighId>, d: Addr)
    requires KernelOk(e.links, k) && e.Wired() && d in k.routes && d in e.sw.flows
    requires var keys, nhs := Known(e.links, k, missed), k.routes[d].nhs;
             && IsTarget(e.sw.flows[d], nhs, keys, e.egress, e.ecmp)
             && (nhs in e.ecmp ==> e.ecmp[nhs].id in e.sw.ecmp && e.sw.ecmp[e.ecmp[nhs].id] == Ids(nhs, keys, e.egress))
    requires forall nh: NhStub :: nh in k.routes[d].nhs && nh.Id() in Known(e.links, k, missed) ==>
               Known(e.links, k, missed)[nh.Id()] in e.egress
    ensures Forwards(e.sw, e.links, k, missed, d)
  {
    hide NlL3.Wired, KernelOk, Known, Reaches;
    var keys, nhs := Known(e.links, k, missed), k.routes[d].nhs;
    forall nh: NhStub | nh in nhs
      ensures nh.Id() in keys <==> NhUp(k, missed, nh)
      ensures nh.Id() in keys && keys[nh.Id()] in e.egress ==>
                Leads(e.sw, e.egress[keys[nh.Id()]].id, e.links, k, missed, nh) {
      KnownReaches(e, k, missed, nh.Id());
    }
    hide Leads, NhUp, Spreads;
    if AnyResolved(nhs, keys) {
      if |nhs| > 1 {
        hide Ids;
        SpreadsAt(e, k, missed, nhs, keys);
      } else {
        assert nhs != {} && |nhs| == 1;
      }
    }
  }

  lemma SpreadsAt(e: NlL3, k: Kernel, missed: set<NeighId>, nhs: set<NhStub>, keys: Keys)
    requires AnyResolved(nhs, keys) && nhs in e.ecmp
    requires e.ecmp[nhs].id in e.sw.ecmp && e.sw.ecmp[e.ecmp[nhs].id] == Ids(nhs, keys, e.egress)
    requires forall nh: NhStub :: nh in nhs ==> (nh.Id() in keys <==> NhUp(k, missed, nh))
    requires forall nh: NhStub :: nh in nhs && nh.Id() in keys ==>
               keys[nh.Id()] in e.egress && Leads(e.sw, e.egress[keys[nh.Id()]].id, e.links, k, missed, nh)
    ensures Spreads(e.sw, e.ecmp[nhs].id, e.links, k, missed, nhs)
  {
    hide Leads, NhUp;
    var g := e.ecmp[nhs].id;
    var some: NhStub :| some in nhs && some.Id() in keys;
    assert e.egress[keys[some.Id()]].id in e.sw.ecmp[g];
    forall nh: NhStub | nh in nhs && NhUp(k, missed, nh)
      ensures exists id :: id in e.sw.ecmp[g] && Leads(e.sw, id, e.links, k, missed, nh) {
      assert e.egress[keys[nh.Id()]].id in e.sw.ecmp[g];
    }
  }

  lemma TracksLists(e: NlL3, k: Kernel, missed: set<NeighId>)
    requires Tracks(e, k, missed)
    ensures ListsMatch(e.waiting, e.watching, k.(neighs := k.neighs - missed))
  {
    assert NhRoutes(k.(neighs := k.neighs - missed)) == NhRoutes(k);
  }

  lemma NhRoutesAt(k: Kernel)
    ensures NhRoutes(k).Keys == k.routes.Keys && forall d :: d in k.routes ==> NhRoutes(k)[d] == k.routes[d].nhs
  {
  }

  lemma SettledMeans(e: NlL3, routes: Routes, keys: Keys)
    requires e.Settled(routes, keys)
    ensures Counted(e.egress, e.routable, e.watching, keys) && Once(e.watching) && Once(e.waiting)
    ensures forall s :: s in e.ecmp <==> |s| > 1 && RoutesVia(routes, s) != {}
    ensures forall s :: s in e.ecmp ==> e.ecmp[s].refcnt == |RoutesVia(routes, s)|
    ensures forall s :: s in e.ecmp ==> e.ecmp[s].id in e.sw.ecmp && e.sw.ecmp[e.ecmp[s].id] == Ids(s, keys, e.egress)
    ensures e.sw.flows.Keys == routes.Keys
    ensures forall d :: d in routes ==> IsTarget(e.sw.flows[d], routes[d], keys, e.egress, e.ecmp)
    ensures HostsOk(e.sw.hosts, e.routable, keys, e.egress)
    ensures forall a, b :: a in e.egress && b in e.egress && e.egress[a].id == e.egress[b].id ==> a == b
    ensures e.sw == Replay(e.log) && ClosedThroughout(e.log) && Proper(e.log)
  {
    assert Touched(routes, {}) == {};
    hide IsTarget, AnyResolved, Ids, Uses, Counted, HostsOk, Tracked, ClosedThroughout, Proper, Replay;
  }
}
