/** The layer-3 engine: neighbours and routes sharing reference-counted switch groups. */
module L3Engine {
  import opened MacAddress
  import opened L3Types
  import opened L3Switch
  import opened IdPool
  import opened L3Model
  import opened L3Release

  const EEXIST := 17
  const EINVAL := 22
  const ENODATA := 61
  const ENETUNREACH := 101
  const EHOSTUNREACH := 113

  class NlL3 {
    const links: Links

    var egress: Egress            // l3_interface_mapping
    var ecmp: Ecmp                // nh_grp_to_l3_ecmp_mapping
    var waiting: seq<Pair>        // nh_callbacks
    var watching: seq<Pair>       // nh_unreach_callbacks
    var routable: set<NeighId>    // routable_l3_neighs
    var unroutable: set<NeighId>  // unroutable_l3_neighs

    var egressPool: Pool          // egress_interface_id, freed_egress_interfaces_ids
    var ecmpPool: Pool            // ecmp_interface_id, freed_ecmp_interfaces_ids
    var sw: Switch

    ghost var log: seq<Msg>
    ghost var owner: map<nat, set<NhStub>>

    constructor (links: Links)
      ensures this.links == links
      ensures egress == map[] && ecmp == map[] && waiting == [] && watching == []
      ensures routable == {} && unroutable == {}
      ensures sw == EMPTY && log == []
      ensures Live()
    {
      this.links := links;
      egress, ecmp, waiting, watching := map[], map[], [], [];
      routable, unroutable := {}, {};
      egressPool, ecmpPool := Pool(1, {}), Pool(1, {});
      sw, log, owner := EMPTY, [], map[];
    }

    /** Tables and switch agree group by group, and every message met the groups it expects. */
    ghost predicate Wired()
      reads this`egress, this`egressPool, this`ecmp, this`ecmpPool, this`owner, this`sw, this`log
    {
      && EgressWired(egress, egressPool, sw.egress)
      && EcmpWired(ecmp, ecmpPool, sw.ecmp, owner)
      && sw == Replay(log) && Proper(log)
    }

    /** On top of that no message so far left a dangling name. */
    ghost predicate Live()
      reads this`egress, this`egressPool, this`ecmp, this`ecmpPool, this`owner, this`sw, this`log
    {
      Wired() && ClosedThroughout(log)
    }

    method Send(m: Msg)
      requires sw == Replay(log) && Proper(log) && Fits(sw, m)
      modifies this`sw, this`log
      ensures sw == Apply(old(sw), m) && sw == Replay(log) && Proper(log) && log == old(log) + [m]
      ensures ClosedThroughout(log) <==> ClosedThroughout(old(log)) && Closed(sw)
    {
      hide ClosedThroughout, Proper, Closed, Replay, Fits;
      OneMore(log, m);
      sw := Apply(sw, m);
      log := log + [m];
    }

    lemma SwClosed()
      ensures Live() ==> Closed(sw)
    {
      if Live() { ClosedAtEnd(log); }
    }

    // ------------------------------------------------------ egress groups

    method AddL3Egress(k: EgressKey) returns (id: nat)
      requires Wired()
      modifies this`egress, this`egressPool, this`sw, this`log
      ensures Wired() && (old(Live()) ==> Live()) && old(log) <= log
      ensures egress == Acquired(old(egress), k, id)
      ensures k in old(egress) ==> id == old(egress)[k].id
      ensures sw == old(sw).(egress := sw.egress)
    {
      hide EgressWired, EcmpWired, ClosedThroughout, Proper, Replay, IsNextId;
      SwClosed();
      if k in egress {
        EgressWiredRecount(egress, egressPool, sw.egress, k, egress[k].refcnt + 1);
        id := egress[k].id;
        egress := egress[k := L3Interface(id, egress[k].refcnt + 1)];
      } else {
        id := NextId(egressPool);
        EgressWiredNew(egress, egressPool, sw.egress, k, id);
        Send(EgressAdd(id, k));
        egressPool := Take(egressPool, id);
        egress := egress[k := L3Interface(id, 1)];
      }
    }

    /** The group of the key goes with its last reference; the stream stays closed exactly when nothing
        names the group by then. */
    method DelL3Egress(k: EgressKey) returns (rv: int)
      requires Wired()
      modifies this`egress, this`egressPool, this`sw, this`log
      ensures Wired()
      ensures egress == Released(old(egress), k) && log == old(log) + ReleaseMsgs(old(egress), k)
      ensures sw == old(sw).(egress := sw.egress) && FewerGroups(old(sw.egress), sw.egress)
      ensures Live() <==> old(Live()) && (LastRef(old(egress), k) ==> Unnamed(old(sw), old(egress)[k].id))
      ensures rv == if k in old(egress) then -EEXIST else -ENODATA
    {
      hide EgressWired, EcmpWired, ClosedThroughout, Proper, Replay, Unnamed, Closed;
      SwClosed();
      if k !in egress {
        return -ENODATA;
      }
      EgressWiredAt(egress, egressPool, sw.egress, k);
      var e := egress[k];
      if e.refcnt > 1 {
        EgressWiredRecount(egress, egressPool, sw.egress, k, e.refcnt - 1);
        egress := egress[k := L3Interface(e.id, e.refcnt - 1)];
      } else {
        EgressWiredDrop(egress, egressPool, sw.egress, k);
        if Live() { RemovableIff(sw, e.id); }
        Send(EgressRemove(e.id));
        egressPool := Free(egressPool, e.id);
        egress := egress - {k};
      }
      rv := -EEXIST;
    }

    // -------------------------------------------------------- ECMP groups

    method AddL3EcmpGroup(s: set<NhStub>) returns (id: nat)
      requires Wired()
      modifies this`ecmp, this`ecmpPool, this`sw, this`log, this`owner
      ensures Wired() && (old(Live()) ==> Live())
      ensures log == old(log) + (if s in old(ecmp) then [] else [EcmpAdd(id, {})])
      ensures ecmp == old(ecmp)[s := L3Interface(id, 1 + (if s in old(ecmp) then old(ecmp)[s].refcnt else 0))]
      ensures s in old(ecmp) ==> id == old(ecmp)[s].id && sw == old(sw)
      ensures s !in old(ecmp) ==> id !in old(sw.ecmp) && sw == old(sw).(ecmp := old(sw.ecmp)[id := {}])
    {
      hide EgressWired, EcmpWired, ClosedThroughout, Proper, Replay, IsNextId;
      SwClosed();
      if s in ecmp {
        id := ecmp[s].id;
        EcmpWiredRecount(ecmp, ecmpPool, sw.ecmp, owner, s, ecmp[s].refcnt + 1);
        ecmp := ecmp[s := L3Interface(id, ecmp[s].refcnt + 1)];
      } else {
        id := NextId(ecmpPool);
        EcmpWiredNew(ecmp, ecmpPool, sw.ecmp, owner, s, id);
        Send(EcmpAdd(id, {}));
        ecmpPool := Take(ecmpPool, id);
        ecmp := ecmp[s := L3Interface(id, 1)];
        owner := owner[id := s];
      }
    }

    method DelL3EcmpGroup(s: set<NhStub>)
      requires Wired()
      modifies this`ecmp, this`ecmpPool, this`sw, this`log, this`owner
      ensures Wired() && old(log) <= log
      ensures ecmp == GroupReleased(old(ecmp), s)
      ensures sw == old(sw).(ecmp := if LastGroupRef(old(ecmp), s) then old(sw.ecmp) - {old(ecmp)[s].id}
                                     else old(sw.ecmp))
      ensures Live() <==> old(Live()) && (LastGroupRef(old(ecmp), s) ==> NoFlowTo(old(sw), old(ecmp)[s].id))
    {
      hide EgressWired, EcmpWired, ClosedThroughout, Proper, Replay;
      SwClosed();
      if s !in ecmp {
        return;
      }
      EcmpWiredAt(ecmp, ecmpPool, sw.ecmp, owner, s);
      var e := ecmp[s];
      if e.refcnt > 1 {
        EcmpWiredRecount(ecmp, ecmpPool, sw.ecmp, owner, s, e.refcnt - 1);
        ecmp := ecmp[s := L3Interface(e.id, e.refcnt - 1)];
      } else {
        EcmpWiredDrop(ecmp, ecmpPool, sw.ecmp, owner, s);
        Send(EcmpRemove(e.id));
        ecmpPool := Free(ecmpPool, e.id);
        ecmp := ecmp - {s};
        owner := owner - {e.id};
      }
    }

    // ------------------------------------------------- next-hop notifications

    /** Lookup of the egress id of a next hop through the neighbour cache. */
    method GetL3InterfaceId(nh: NhStub, cache: Cache) returns (rv: int, id: nat)
      ensures rv == 0 <==> nh.Id() in cache.neighs && nh.ifindex in links
                           && KeyOf(links, nh.Id(), cache.neighs[nh.Id()]) in egress
      ensures rv == 0 ==> id == egress[KeyOf(links, nh.Id(), cache.neighs[nh.Id()])].id
    {
      if nh.Id() !in cache.neighs {
        return -EHOSTUNREACH, 0;
      }
      if nh.ifindex !in links {
        return -EINVAL, 0;
      }
      var k := KeyOf(links, nh.Id(), cache.neighs[nh.Id()]);
      if k !in egress {
        return -ENODATA, 0;
      }
      return 0, egress[k].id;
    }

    /** First half of the reachable notification: one more reference on the key of p's
        next hop, and the egress ids of all resolved next hops of the route. */
    method ReachableIds(p: Pair, k: EgressKey, s: set<NhStub>, cache: Cache, ghost keys1: Keys) returns (ids: set<nat>)
      requires Live()
      requires p.nh in s && RouteOk(s) && p.nh.Id() in keys1 && keys1[p.nh.Id()] == k
      requires CacheAgrees(cache, links, s, keys1)
      requires forall nh :: nh in s && nh != p.nh && nh.Id() in keys1 ==> keys1[nh.Id()] in egress
      modifies this`egress, this`egressPool, this`sw, this`log
      ensures Live() && old(log) <= log
      ensures k in egress
      ensures egress == Acquired(old(egress), k, egress[k].id)
      ensures SameIds(old(egress), egress)
      ensures sw == old(sw).(egress := sw.egress)
      ensures ids == Ids(s, keys1, egress)
    {
      hide Wired, ClosedThroughout, Ids, RouteOk;
      ids := {};
      IdsNone(keys1, egress);
      var todo := s;
      assert s - todo == {};
      while todo != {}
        invariant todo <= s
        invariant Live() && old(log) <= log
        invariant p.nh in todo ==> egress == old(egress)
        invariant p.nh !in todo ==> k in egress && egress == Acquired(old(egress), k, egress[k].id)
        invariant SameIds(old(egress), egress)
        invariant sw == old(sw).(egress := sw.egress)
        invariant ids == Ids(s - todo, keys1, egress)
        decreases todo
      {
        var nh :| nh in todo;
        ghost var e0 := egress;
        ghost var seen := s - todo;
        if nh == p.nh {
          var id := AddL3Egress(k);
          IdsStable(seen, keys1, e0, egress);
          IdsAdd(seen, nh, keys1, egress);
          ids := ids + {id};
        } else {
          var rv, id := GetL3InterfaceId(nh, cache);
          IdsAdd(seen, nh, keys1, egress);
          if rv == 0 {
            ids := ids + {id};
          }
        }
        todo := todo - {nh};
        assert s - todo == seen + {nh};
      }
      assert s - todo == s;
    }

    /** State between two steps of one event: `w` are the pairs holding references. */
    ghost predicate Midst(w: seq<Pair>, all: Keys, routes: Routes, done: set<Addr>, keys0: Keys, keys1: Keys,
                          aside: Aside)
      reads this`egress, this`egressPool, this`ecmp, this`ecmpPool, this`owner, this`sw, this`log, this`routable
    {
      && Live() && RoutesOk(routes)
      && SubKeys(keys0, all) && SubKeys(keys1, all)
      && Counted(egress, routable, w, all)
      && Tracked(routes, done, keys0, keys1, w)
      && GroupsCounted(ecmp, routes, {}) && Muted(sw.flows, aside)
      && TablesOk(sw.hosts, sw.ecmp, Virtual(sw.flows, aside), egress, ecmp, routable, all, routes, done, keys0, keys1)
    }

    /** The same with no route on its way out. */
    ghost predicate Midway(w: seq<Pair>, all: Keys, routes: Routes, done: set<Addr>, keys0: Keys, keys1: Keys)
      reads this`egress, this`egressPool, this`ecmp, this`ecmpPool, this`owner, this`sw, this`log, this`routable
    {
      Midst(w, all, routes, done, keys0, keys1, map[])
    }

    // Single messages.

    method EcmpUpdate(id: nat, members: set<nat>)
      requires Wired() && id in sw.ecmp
      modifies this`sw, this`log
      ensures Wired() && log == old(log) + [EcmpModify(id, members)]
      ensures sw == old(sw).(ecmp := old(sw.ecmp)[id := members])
      ensures old(Live()) && members <= sw.egress.Keys ==> Live()
    {
      hide EgressWired, ClosedThroughout, Proper, Replay;
      SwClosed();
      Send(EcmpModify(id, members));
      assert sw.ecmp.Keys == old(sw.ecmp).Keys;
    }

    method RouteUpdate(d: Addr, t: Target)
      requires Wired()
      modifies this`sw, this`log
      ensures Wired() && log == old(log) + [RouteSet(d, t)]
      ensures sw == old(sw).(flows := old(sw.flows)[d := t])
      ensures old(Live()) && LiveTarget(sw, t) ==> Live()
    {
      hide EgressWired, EcmpWired, ClosedThroughout, Proper, Replay;
      SwClosed();
      Send(RouteSet(d, t));
    }

    /** Point the route of d at its target, rewriting its ECMP group first when it has one. */
    method Redirect(d: Addr, s: set<NhStub>, ids: set<nat>, t: Target)
      requires Wired() && (|s| > 1 ==> s in ecmp)
      modifies this`sw, this`log
      ensures Wired() && log == old(log) + RedirectMsgs(d, s, ids, t, ecmp)
      ensures sw == Redirected(old(sw), d, s, ids, t, ecmp)
      ensures old(Live()) && ids <= sw.egress.Keys && LiveTarget(sw, t) ==> Live()
    {
      hide EgressWired, ClosedThroughout, Proper, Replay;
      if |s| > 1 {
        EcmpUpdate(ecmp[s].id, ids);
      }
      RouteUpdate(d, t);
    }

    /** The same in the middle of an event: from then on d follows the new neighbour state. */
    method RedirectRight(d: Addr, s: set<NhStub>, ids: set<nat>, t: Target, ghost all: Keys, ghost routes: Routes,
                         ghost done: set<Addr>, ghost keys0: Keys, ghost keys1: Keys, ghost aside: Aside)
      requires Wired() && (|s| > 1 ==> s in ecmp)
      modifies this`sw, this`log
      ensures Wired() && log == old(log) + RedirectMsgs(d, s, ids, t, ecmp)
      ensures sw.egress == old(sw.egress)
      ensures (&& old(Live()) && GroupsCounted(ecmp, routes, {}) && old(Muted(sw.flows, aside)) && d !in aside
               && TablesOk(old(sw.hosts), old(sw.ecmp), Virtual(old(sw.flows), aside), egress, ecmp, routable, all,
                           routes, done, keys0, keys1)
               && d in routes && routes[d] == s && ids == Ids(s, keys1, egress) && IsTarget(t, s, keys1, egress, ecmp))
              ==> Live() && Muted(sw.flows, aside)
                  && TablesOk(sw.hosts, sw.ecmp, Virtual(sw.flows, aside), egress, ecmp, routable, all, routes,
                              done + {d}, keys0, keys1)
    {
      hide TablesOk, IsTarget, ClosedThroughout, Proper, Replay, EgressWired, EcmpWired, Ids, GroupsCounted, LiveTarget,
           Virtual, Muted;
      ghost var right := Live() && GroupsCounted(ecmp, routes, {}) && Muted(sw.flows, aside) && d !in aside
        && TablesOk(sw.hosts, sw.ecmp, Virtual(sw.flows, aside), egress, ecmp, routable, all, routes, done, keys0,
                    keys1)
        && d in routes && routes[d] == s && ids == Ids(s, keys1, egress) && IsTarget(t, s, keys1, egress, ecmp);
      if right {
        TargetLive(t, s, keys1, egress, ecmp, egressPool, ecmpPool, owner, sw);
        LiveAfter(sw, d, s, ids, t, ecmp);
        NoSmallGroups(ecmp, routes);
        VirtualSet(sw.flows, aside, d, t);
        ghost var seen := sw.(flows := Virtual(sw.flows, aside));
        TablesAdvance(seen, egress, ecmp, ecmpPool, owner, routable, all, routes, done, keys0, keys1, d, t,
                      Redirected(seen, d, s, ids, t, ecmp));
      }
      Redirect(d, s, ids, t);
    }

    method NhReachable(n: NeighId, k: EgressKey, p: Pair, cache: Cache, ghost routes: Routes, ghost done: set<Addr>,
                       ghost keys0: Keys, ghost keys1: Keys, ghost aside: Aside)
      requires Midst(watching, keys1, routes, done, keys0, keys1, aside)
      requires n !in keys0 && keys1 == keys0[n := k]
      requires Wants(routes, p) && p.nh.Id() == n && p.dst !in done && p.dst !in aside
      requires p.dst in cache.routes && cache.routes[p.dst].nhs == routes[p.dst]
      requires CacheAgrees(cache, links, routes[p.dst], keys1)
      modifies this`egress, this`egressPool, this`sw, this`log, this`watching
      ensures Midst(watching, keys1, routes, done + {p.dst}, keys0, keys1, aside)
      ensures watching == old(watching) + [p] && old(log) <= log
    {
      hide TablesOk, IsTarget, Wired, ClosedThroughout, Counted, Tracked, GroupsCounted, RouteOk, RoutesOk, SubKeys,
           SameIds, CacheAgrees, Virtual, Muted;
      var s := cache.routes[p.dst].nhs;
      ghost var w := watching;
      ghost var e0 := egress;
      SiblingsHeld(egress, routable, w, keys1, routes, done, keys0, keys1, p, n);
      var ids := ReachableIds(p, k, s, cache, keys1);
      CountedAddPair(e0, routable, w, keys1, p, egress[k].id);
      TrackedAdvanceUp(routes, done, keys0, n, k, w, p);
      TablesRecounted(sw.(flows := Virtual(sw.flows, aside)), e0, egress, ecmp, routable, w, w + [p], keys1, routes,
                      done, keys0, keys1);
      watching := watching + [p];

      assert p.nh in s && egress[k].id in ids;
      var t: Target;
      if |s| > 1 {
        GroupPresent(ecmp, routes, p.dst);
        t := ToEcmp(ecmp[s].id);
      } else {
        var id :| id in ids;
        t := ToEgress(id);
      }
      ResolvedTarget(s, keys1, egress, ecmp, p.nh, t);
      RedirectRight(p.dst, s, ids, t, keys1, routes, done, keys0, keys1, aside);
    }

    // ------------------------------------------------------------ neighbours

    /** What neighbour events keep in any case: tables and switch agree group by group, ECMP groups are
        counted, and each pair of each route is in exactly one list, by whether its neighbour is in keys; the
        pairs in `unheard` should wait, but nobody knows of them. */
    ghost predicate Listed(routes: Routes, keys: Keys, unheard: seq<Pair>)
      reads this`egress, this`egressPool, this`ecmp, this`ecmpPool, this`owner, this`sw, this`log,
            this`waiting, this`watching
    {
      && Wired() && RoutesOk(routes) && GroupsCounted(ecmp, routes, {})
      && ListsOk(Plus(unheard, waiting), watching, routes, {}, keys, keys)
    }

    /** Between two neighbours: keys maps every active neighbour to its egress key. */
    ghost predicate Resting(routes: Routes, keys: Keys, aside: Aside)
      reads this`egress, this`egressPool, this`ecmp, this`ecmpPool, this`owner, this`sw, this`log,
            this`waiting, this`watching, this`routable
    {
      && Midst(watching, keys, routes, {}, keys, keys, aside)
      && ListsOk(waiting, watching, routes, {}, keys, keys)
      && routable <= HostNeighs(keys) && DistinctHosts(routable)
    }

    /** Between events. */
    ghost predicate Settled(routes: Routes, keys: Keys)
      reads this`egress, this`egressPool, this`ecmp, this`ecmpPool, this`owner, this`sw, this`log,
            this`waiting, this`watching, this`routable
    {
      Resting(routes, keys, map[])
    }

    /** The keys of neighbours that have no host entry and no route through them do not matter. */
    lemma KeyWithoutUsers(routes: Routes, keys: Keys, keys': Keys, ns: set<NeighId>)
      requires Settled(routes, keys) && keys - ns == keys' - ns
      requires forall n :: n in ns ==> NoRouteVia(routes, n) && n !in routable
      ensures Settled(routes, keys')
    {
      hide Wired, ClosedThroughout, GroupsCounted, RouteOk, TablesOk, Counted, NoRouteVia;
      KeysOutside(keys, keys', ns);
      NoPairVia(routes, keys, keys', ns);
      CountedKeys(egress, routable, watching, keys, keys');
      TablesLater(sw, egress, ecmp, routable, routes, keys, keys');
      TablesFinish(sw.hosts, sw.ecmp, sw.flows, egress, ecmp, routable, keys, routes, {}, keys, keys', ns);
    }

    method HostAdd(a: Addr, id: nat)
      requires Live() && id in sw.egress
      modifies this`sw, this`log
      ensures Live() && log == old(log) + [HostSet(a, id)]
      ensures sw == old(sw).(hosts := old(sw.hosts)[a := id])
    {
      hide EgressWired, EcmpWired, ClosedThroughout, Proper, Replay;
      SwClosed();
      Send(HostSet(a, id));
    }

    method HostDelete(a: Addr)
      requires Wired()
      modifies this`sw, this`log
      ensures Wired() && (old(Live()) ==> Live()) && log == old(log) + [HostRemove(a)]
      ensures sw == old(sw).(hosts := old(sw.hosts) - {a})
    {
      hide EgressWired, EcmpWired, ClosedThroughout, Proper, Replay;
      SwClosed();
      Send(HostRemove(a));
    }

    method InstallHost(n: NeighId, k: EgressKey, ghost routes: Routes, ghost keys0: Keys, ghost aside: Aside)
      requires Resting(routes, keys0, aside) && (n in keys0 ==> keys0[n] == k)
      requires forall h :: h in routable ==> h.addr != n.addr
      modifies this`egress, this`egressPool, this`sw, this`log, this`routable
      ensures Midst(watching, keys0[n := k], routes, {}, keys0, keys0[n := k], aside)
      ensures routable == old(routable) + {n} && old(log) <= log
    {
      hide MembersOk, FlowsOk, HostsOk, Wired, ClosedThroughout, Counted, Tracked, GroupsCounted, RoutesOk, CurrentHeld,
           Once, Virtual, Muted;
      routable := routable + {n};
      ghost var e0 := egress;
      TrackedHeld(e0, routable - {n}, watching, keys0, routes, {}, keys0, keys0);
      var id := AddL3Egress(k);
      EgressLive(k);
      HostAdd(n.addr, id);
      HostCounted(e0, old(routable), watching, keys0, n, k, id);
      HostListed(old(sw.hosts), e0, old(routable), keys0, n, k, id);
      AcquiredHeld(e0, k, id, routes, keys0);
      ghost var flows := Virtual(sw.flows, aside);
      RoutingStable(sw.ecmp, flows, e0, egress, ecmp, routes, {}, keys0, keys0);
      TrackedEmpty(routes, keys0, keys0, keys0[n := k], watching, ecmp, sw.ecmp, flows, egress);
    }

    lemma EgressLive(k: EgressKey)
      requires Live() && k in egress
      ensures egress[k].id in sw.egress
    {
    }

    /** A link-local neighbour joins without a host entry. */
    lemma LinkLocalJoins(n: NeighId, k: EgressKey, routes: Routes, keys0: Keys, aside: Aside)
      requires Resting(routes, keys0, aside) && n !in keys0
      ensures Midst(watching, keys0[n := k], routes, {}, keys0, keys0[n := k], aside)
    {
      hide MembersOk, FlowsOk, Wired, ClosedThroughout, Counted, Tracked, GroupsCounted, RoutesOk, CurrentHeld, Once,
           Virtual, Muted;
      CountedKeys(egress, routable, watching, keys0, keys0[n := k]);
      TrackedEmpty(routes, keys0, keys0, keys0[n := k], watching, ecmp, sw.ecmp, Virtual(sw.flows, aside), egress);
    }

    /** A resolved neighbour appears: host entry, then every route waiting for it. That works also while routes
        that do not use it are on their way out. */
    method AddL3Neigh(n: NeighId, mac: Mac, cache: Cache, isRoutable: bool, ghost routes: Routes, ghost keys0: Keys,
                      ghost aside: Aside)
      returns (rv: int)
      requires n.ifindex in links && Resting(routes, keys0, aside)
      requires n in keys0 ==> keys0[n] == KeyOf(links, n, mac) && !IsLinkLocal(n.addr)
      requires !IsLinkLocal(n.addr) ==> forall h :: h in routable ==> h.addr != n.addr
      requires (isRoutable || IsLinkLocal(n.addr)) && n !in keys0 ==>
                 CacheSync(cache, links, routes, keys0[n := KeyOf(links, n, mac)], {n}) && NotAside(routes, aside, n)
      modifies this`egress, this`egressPool, this`sw, this`log, this`routable, this`unroutable, this`waiting,
               this`watching
      ensures old(log) <= log
      ensures isRoutable || IsLinkLocal(n.addr) ==>
                rv == 0 && Resting(routes, keys0[n := KeyOf(links, n, mac)], aside) && unroutable == old(unroutable)
                && routable == old(routable) + (if IsLinkLocal(n.addr) then {} else {n})
      // the host entry leads to a group with the addresses of the link and of the neighbour
      ensures isRoutable && !IsLinkLocal(n.addr) ==> HostLeads(n, mac)
      ensures !isRoutable && !IsLinkLocal(n.addr) ==>
                rv == -ENETUNREACH && Resting(routes, keys0, aside) && unroutable == old(unroutable) + {n}
                && routable == old(routable) && waiting == old(waiting) && watching == old(watching)
    {
      hide Midst, ListsOk, CacheSync, HostNeighs, NotAside;
      var k := KeyOf(links, n, mac);
      ghost var keys1 := keys0[n := k];
      ListsEmpty(waiting, watching, routes, keys0, keys0, keys1);
      HostNeighsAdd(keys0, n, k);
      if !IsLinkLocal(n.addr) {
        if isRoutable {
          InstallHost(n, k, routes, keys0, aside);
        } else {
          unroutable := unroutable + {n};
          return -ENETUNREACH;
        }
      } else {
        LinkLocalJoins(n, k, routes, keys0, aside);
      }
      NotifyReachable(n, k, cache, routes, keys0, keys1, aside);
      if !IsLinkLocal(n.addr) { HostCarries(n, mac, routes, keys1, aside); }
      rv := 0;
    }

    /** The host entry of n. */
    ghost predicate HostLeads(n: NeighId, mac: Mac)
      reads this`sw
      requires n.ifindex in links
    {
      && n.addr in sw.hosts && sw.hosts[n.addr] in sw.egress
      && Carries(sw.egress[sw.hosts[n.addr]], links[n.ifindex], mac)
    }

    lemma HostCarries(n: NeighId, mac: Mac, routes: Routes, keys: Keys, aside: Aside)
      requires n.ifindex in links && n in routable && n in keys && keys[n] == KeyOf(links, n, mac)
      requires Resting(routes, keys, aside)
      ensures HostLeads(n, mac)
    {
      hide ListsOk, Counted, Tracked, GroupsCounted, ClosedThroughout, Proper, Replay, EcmpWired, RoutesOk;
    }

    /** The walk over nh_callbacks when neighbour n has become reachable. */
    method NotifyReachable(n: NeighId, k: EgressKey, cache: Cache, ghost routes: Routes, ghost keys0: Keys,
                           ghost keys1: Keys, ghost aside: Aside)
      requires (n in keys0 ==> keys0[n] == k) && keys1 == keys0[n := k]
      requires Midst(watching, keys1, routes, {}, keys0, keys1, aside)
      requires ListsOk(waiting, watching, routes, {}, keys0, keys1)
      requires n !in keys0 ==> CacheSync(cache, links, routes, keys1, {n}) && NotAside(routes, aside, n)
      requires routable <= HostNeighs(keys1) && DistinctHosts(routable)
      modifies this`egress, this`egressPool, this`sw, this`log, this`waiting, this`watching
      ensures old(log) <= log && Resting(routes, keys1, aside)
    {
      hide TablesOk, Wired, ClosedThroughout, Counted, Tracked, GroupsCounted, RouteOk, RoutesOk, CacheAgrees, ListsOk,
           Virtual, Muted;
      ghost var done: set<Addr> := {};
      var i := 0;
      while i < |waiting|
        invariant i <= |waiting| && old(log) <= log
        invariant Midst(watching, keys1, routes, done, keys0, keys1, aside)
        invariant ListsOk(waiting, watching, routes, done, keys0, keys1)
        invariant forall j :: 0 <= j < i ==> waiting[j].nh.Id() != n
        invariant n in keys0 ==> done == {}
        decreases |waiting| - i
      {
        var p := waiting[i];
        if p.nh.Id() == n {
          WaitingWanted(waiting, watching, routes, done, keys0, keys1, i);
          assert n in keys0 ==> keys0 == keys1;
          assert n !in keys0;
          ListsUp(waiting, watching, routes, done, keys0, n, k, i);
          NhReachable(n, k, p, cache, routes, done, keys0, keys1, aside);
          waiting := Without(waiting, i);
          done := done + {p.dst};
        } else {
          i := i + 1;
        }
      }
      if n in keys0 {
        assert keys0 == keys1;
      } else {
        RisenAll(waiting, watching, routes, done, keys0, keys1, n);
        TablesFinish(sw.hosts, sw.ecmp, Virtual(sw.flows, aside), egress, ecmp, routable, keys1, routes, done, keys0,
                     keys1, {n});
      }
    }

    /** Egress ids of the next hops of a route other than `gone`. */
    method RemainingIds(gone: NhStub, s: set<NhStub>, cache: Cache) returns (ids: set<nat>)
      ensures ids == CachedIds(s - {gone}, cache, links, egress)
    {
      ids := {};
      var todo := s;
      while todo != {}
        invariant todo <= s
        invariant ids == CachedIds(s - todo - {gone}, cache, links, egress)
        decreases todo
      {
        var nh :| nh in todo;
        ghost var seen := s - todo - {gone};
        CachedIdsAdd(seen, nh, cache, links, egress);
        if nh != gone {
          var rv, id := GetL3InterfaceId(nh, cache);
          if rv == 0 {
            ids := ids + {id};
          }
        }
        todo := todo - {nh};
        assert s - todo - {gone} == if nh == gone then seen else seen + {nh};
      }
      assert s - todo - {gone} == s - {gone};
    }

    /** Give up a reference. In the middle of an orderly event, with the pairs w1 left as users, the
        tables stay right and the stream closed. */
    method ReleaseRef(k: EgressKey, ghost h0: set<NeighId>, ghost w0: seq<Pair>, ghost w1: seq<Pair>, ghost all: Keys,
                      ghost routes: Routes, ghost done: set<Addr>, ghost keys0: Keys, ghost keys1: Keys)
      returns (rv: int)
      requires Wired()
      modifies this`egress, this`egressPool, this`sw, this`log
      ensures Wired()
      ensures egress == Released(old(egress), k) && log == old(log) + ReleaseMsgs(old(egress), k)
      ensures sw == old(sw).(egress := sw.egress)
      ensures old(Live()) && old(Releasing(k, h0, w0, w1, all, routes, done, keys0, keys1)) ==>
                Live() && Counted(egress, routable, w1, all)
                && TablesOk(sw.hosts, sw.ecmp, sw.flows, egress, ecmp, routable, all, routes, done, keys0, keys1)
    {
      hide TablesOk, Wired, ClosedThroughout, Counted, Tracked, GroupsCounted, SameIds, Unnamed, SubKeys, HeldAll;
      ghost var e0 := egress;
      ghost var orderly := Live() && Releasing(k, h0, w0, w1, all, routes, done, keys0, keys1);
      if orderly {
        HostsHaveKeys(sw, egress, ecmp, routable, all, routes, done, keys0, keys1);
        TrackedHeld(egress, h0, w0, all, routes, done, keys0, keys1);
        CountedHeld(Released(egress, k), routable, w1, all, routes, done, keys0, keys1);
      }
      rv := ReleaseHeld(k, all, routes, done, keys0, keys1);
    }

    ghost predicate Releasing(k: EgressKey, h0: set<NeighId>, w0: seq<Pair>, w1: seq<Pair>, all: Keys, routes: Routes,
                              done: set<Addr>, keys0: Keys, keys1: Keys)
      reads this`egress, this`ecmp, this`sw, this`routable
    {
      && GroupsCounted(ecmp, routes, {}) && SubKeys(keys0, all) && SubKeys(keys1, all)
      && TablesOk(sw.hosts, sw.ecmp, sw.flows, egress, ecmp, routable, all, routes, done, keys0, keys1)
      && Counted(egress, h0, w0, all) && Tracked(routes, done, keys0, keys1, w0)
      && Counted(Released(egress, k), routable, w1, all) && Tracked(routes, done, keys0, keys1, w1)
    }

    /** The same with the users that stay behind named directly. */
    method ReleaseHeld(k: EgressKey, ghost all: Keys, ghost routes: Routes, ghost done: set<Addr>, ghost keys0: Keys,
                       ghost keys1: Keys) returns (rv: int)
      requires Wired()
      modifies this`egress, this`egressPool, this`sw, this`log
      ensures Wired()
      ensures egress == Released(old(egress), k) && log == old(log) + ReleaseMsgs(old(egress), k)
      ensures sw == old(sw).(egress := sw.egress) && FewerGroups(old(sw.egress), sw.egress)
      ensures (&& old(Live()) && GroupsCounted(ecmp, routes, {})
               && TablesOk(sw.hosts, sw.ecmp, sw.flows, old(egress), ecmp, routable, all, routes, done, keys0, keys1)
               && CurrentHeld(old(egress), routes, done, keys0, keys1)
               && HeldAll(egress, routable, all, routes, done, keys0, keys1))
              ==> Live() && TablesOk(sw.hosts, sw.ecmp, sw.flows, egress, ecmp, routable, all, routes, done, keys0,
                                     keys1)
    {
      hide TablesOk, EgressWired, EcmpWired, ClosedThroughout, Proper, Replay, GroupsCounted, SameIds, Unnamed, HeldAll,
           CurrentHeld;
      ghost var e0 := egress;
      ghost var right := && Live() && GroupsCounted(ecmp, routes, {})
        && TablesOk(sw.hosts, sw.ecmp, sw.flows, egress, ecmp, routable, all, routes, done, keys0, keys1)
        && CurrentHeld(egress, routes, done, keys0, keys1)
        && HeldAll(Released(egress, k), routable, all, routes, done, keys0, keys1);
      if right && LastRef(egress, k) {
        ReleaseSafe(sw, egress, egressPool, k, ecmp, ecmpPool, owner, routable, all, routes, done, keys0, keys1);
      }
      rv := DelL3Egress(k);
      if right {
        ReleasedSameIds(e0, k);
        TablesStable(sw, e0, egress, ecmp, routable, all, routes, done, keys0, keys1);
      }
    }

    /** Entry i of nh_unreach_callbacks is about to lose its next hop n in an orderly way. */
    ghost predicate Losing(n: NeighId, k: EgressKey, i: nat, cache: Cache, routes: Routes, done: set<Addr>, keys0: Keys,
                           keys1: Keys)
      requires i < |watching|
      reads this`egress, this`egressPool, this`ecmp, this`ecmpPool, this`owner, this`sw, this`log, this`routable,
            this`watching
    {
      && Midway(watching, keys0, routes, done, keys0, keys1)
      && n in keys0 && keys0[n] == k && keys1 == keys0 - {n}
      && watching[i].nh.Id() == n && Wants(routes, watching[i]) && watching[i].dst !in done
      && CacheSyncBut(cache, links, routes, keys1, n)
    }

    /** The ids left over and the target chosen from them are the right ones. */
    lemma LossTarget(n: NeighId, k: EgressKey, i: nat, cache: Cache, routes: Routes, done: set<Addr>, keys0: Keys,
                     keys1: Keys)
      requires i < |watching| && Losing(n, k, i, cache, routes, done, keys0, keys1)
      ensures watching[i].dst in cache.routes && cache.routes[watching[i].dst].nhs == routes[watching[i].dst]
      ensures var p := watching[i];
              var s := routes[p.dst];
              var ids := CachedIds(s - {p.nh}, cache, links, egress);
              (|s| > 1 ==> s in ecmp) && ids == Ids(s, keys1, egress)
                  && IsTarget(AfterLoss(s, ids, ecmp), s, keys1, egress, ecmp)
    {
      hide TablesOk, IsTarget, Wired, ClosedThroughout, Counted, Tracked, GroupsCounted, RouteOk, RoutesOk, CacheAgrees,
           Ids, CachedIds;
      var p := watching[i];
      var s := routes[p.dst];
      SiblingsHeld(egress, routable, watching, keys0, routes, done, keys0, keys1, p, n);
      assert Via(s, n);
      OthersOf(s, p.nh, n);
      CachedIdsAgree(s, p.nh, cache, links, keys1, egress);
      if |s| > 1 {
        GroupPresent(ecmp, routes, p.dst);
      }
      RemainingTarget(s, keys1, egress, ecmp, AfterLoss(s, Ids(s, keys1, egress), ecmp), p.nh);
    }

    /** First half of the unreachable notification: the route moves away from the egress group. */
    method MoveOff(n: NeighId, k: EgressKey, i: nat, cache: Cache, ghost routes: Routes, ghost done: set<Addr>,
                   ghost keys0: Keys, ghost keys1: Keys)
      requires Wired() && i < |watching| && watching[i].dst in cache.routes
      requires var s := cache.routes[watching[i].dst].nhs; |s| > 1 ==> s in ecmp
      modifies this`sw, this`log
      ensures Wired() && sw.egress == old(sw.egress)
      ensures var p := watching[i];
              var s := cache.routes[p.dst].nhs;
              var ids := CachedIds(s - {p.nh}, cache, links, egress);
              log == old(log) + RedirectMsgs(p.dst, s, ids, AfterLoss(s, ids, ecmp), ecmp)
      ensures old(Losing(n, k, i, cache, routes, done, keys0, keys1)) ==>
                Live() && TablesOk(sw.hosts, sw.ecmp, sw.flows, egress, ecmp, routable, keys0, routes,
                                   done + {watching[i].dst}, keys0, keys1)
    {
      hide TablesOk, IsTarget, Wired, ClosedThroughout, Counted, Tracked, GroupsCounted, RoutesOk, CacheSyncBut,
           CachedIds, Ids, RedirectMsgs;
      var p := watching[i];
      var s := cache.routes[p.dst].nhs;
      if Losing(n, k, i, cache, routes, done, keys0, keys1) {
        LossTarget(n, k, i, cache, routes, done, keys0, keys1);
      }
      var ids := RemainingIds(p.nh, s, cache);
      var t := ToController;
      if |s| > 1 {
        if ids != {} {
          t := ToEcmp(ecmp[s].id);
        }
      }
      RedirectRight(p.dst, s, ids, t, keys0, routes, done, keys0, keys1, map[]);
    }

    /** Entry i of nh_unreach_callbacks loses its next hop n: the route moves away from the
        egress group first, then the reference is dropped, then the pair waits again. */
    method NhUnreachable(n: NeighId, k: EgressKey, i: nat, cache: Cache, ghost routes: Routes, ghost done: set<Addr>,
                         ghost keys0: Keys, ghost keys1: Keys)
      requires Wired() && i < |watching|
      requires watching[i].dst in cache.routes ==>
                 var s := cache.routes[watching[i].dst].nhs; |s| > 1 ==> s in ecmp
      modifies this`egress, this`egressPool, this`sw, this`log, this`waiting
      ensures Wired() && egress == Released(old(egress), k)
      ensures log == old(log) + UnreachMsgs(watching[i], k, cache, links, ecmp, old(egress))
      ensures waiting == old(waiting) + (if watching[i].dst in cache.routes then [watching[i]] else [])
      ensures old(Losing(n, k, i, cache, routes, done, keys0, keys1)) ==>
                Midway(Without(watching, i), keys0, routes, done + {watching[i].dst}, keys0, keys1)
    {
      hide TablesOk, IsTarget, Wired, ClosedThroughout, Counted, Tracked, GroupsCounted, RoutesOk, CacheSyncBut,
           CachedIds, RedirectMsgs, ReleaseMsgs, Released, SubKeys;
      var p := watching[i];
      ghost var losing := Losing(n, k, i, cache, routes, done, keys0, keys1);
      if losing { LossTarget(n, k, i, cache, routes, done, keys0, keys1); }
      if p.dst !in cache.routes {
        var rv := DelL3Egress(k);
        return;
      }
      ghost var w' := Without(watching, i);
      MoveOff(n, k, i, cache, routes, done, keys0, keys1);
      if losing {
        TrackedAdvanceDown(routes, done, keys0, n, watching, i);
        CountedDropPair(egress, routable, watching, keys0, i);
      }
      var rv := ReleaseRef(k, routable, watching, w', keys0, routes, done + {p.dst}, keys0, keys1);
      waiting := waiting + [p];
    }

    /** The host entry of n goes first, then the reference it held. */
    method RemoveHost(n: NeighId, k: EgressKey, ghost routes: Routes, ghost keys0: Keys)
      requires Wired()
      modifies this`egress, this`egressPool, this`sw, this`log, this`routable
      ensures Wired() && egress == Released(old(egress), k)
      ensures log == old(log) + [HostRemove(n.addr)] + ReleaseMsgs(old(egress), k)
      ensures routable == old(routable) - {n}
      ensures old(Settled(routes, keys0)) && n in old(routable) && keys0[n] == k ==>
                Midway(watching, keys0, routes, {}, keys0, keys0 - {n})
    {
      hide MembersOk, FlowsOk, HostsOk, Wired, ClosedThroughout, Counted, Tracked, GroupsCounted, RoutesOk, ListsOk,
           Unnamed, DistinctHosts, Released, ReleaseMsgs;
      ghost var keys1 := keys0 - {n};
      ghost var orderly := Settled(routes, keys0) && n in routable && keys0[n] == k;
      if orderly {
        HostUnlisted(sw.hosts, egress, routable, keys0, n);
        CountedDropHost(egress, routable, watching, keys0, n);
        TrackedEmpty(routes, keys0, keys0, keys1, watching, ecmp, sw.ecmp, sw.flows, egress);
      }
      routable := routable - {n};
      HostDelete(n.addr);
      var rv := ReleaseRef(k, old(routable), watching, watching, keys0, routes, {}, keys0, keys1);
    }

    /** A neighbour goes away: its host entry, then every route that was using it. The lists follow in
        any case; counts and tables do when the cache is right about the routes through the neighbour. */
    method DelL3Neigh(n: NeighId, mac: Mac, cache: Cache, ghost routes: Routes, ghost keys0: Keys,
                      ghost unheard: seq<Pair>)
      returns (rv: int)
      requires n.ifindex in links && Listed(routes, keys0, unheard) && CacheRoutes(cache, routes)
      requires n !in unroutable ==>
                 n in keys0 && keys0[n] == KeyOf(links, n, mac) && (!IsLinkLocal(n.addr) ==> n in routable)
      modifies this`egress, this`egressPool, this`sw, this`log, this`routable, this`unroutable, this`waiting,
               this`watching
      ensures rv == 0 && old(log) <= log
      ensures n in old(unroutable) ==>
                Listed(routes, keys0, unheard) && (old(Settled(routes, keys0)) ==> Settled(routes, keys0))
                && unroutable == old(unroutable) - {n} && routable == old(routable)
                && waiting == old(waiting) && watching == old(watching) && egress == old(egress) && log == old(log)
      ensures n !in old(unroutable) ==>
                Listed(routes, keys0 - {n}, unheard) && unroutable == old(unroutable) && routable == old(routable) - {n}
                && watching == Off(old(watching), n)
                && (egress, log)
                == NeighGone(old(watching), n, KeyOf(links, n, mac), cache, links, ecmp, old(egress), old(log))
      ensures n !in old(unroutable) && unheard == [] && old(Settled(routes, keys0))
              && CacheSyncBut(cache, links, routes, keys0 - {n}, n) ==>
                Settled(routes, keys0 - {n})
    {
      hide Midst, Midway, ListsOk, HostNeighs, CacheSyncBut, Wired, GroupsCounted, RoutesOk, Notified, CacheRoutes,
           Released, ReleaseMsgs, Plus;
      if n in unroutable {
        unroutable := unroutable - {n};
        return 0;
      }
      var k := KeyOf(links, n, mac);
      ghost var keys1 := keys0 - {n};
      ListsEmpty(Plus(unheard, waiting), watching, routes, keys0, keys0, keys1);
      HostNeighsAdd(keys0, n, k);
      HostNeighsMember(keys0, n);
      if !IsLinkLocal(n.addr) {
        RemoveHost(n, k, routes, keys0);
      } else {
        if Settled(routes, keys0) {
          LinkLocalLeaves(n, routes, keys0);
          assert routable - {n} == routable;
        }
        routable := routable - {n};
      }
      ghost var e1, log1 := egress, log;
      ghost var w := watching;
      NotifyUnreachable(n, k, cache, routes, keys0, keys1, unheard);
      NotifiedGrows(w, n, k, cache, links, ecmp, e1, log1);
      rv := 0;
    }

    lemma LinkLocalLeaves(n: NeighId, routes: Routes, keys0: Keys)
      requires Settled(routes, keys0)
      ensures Midway(watching, keys0, routes, {}, keys0, keys0 - {n})
    {
      hide MembersOk, FlowsOk, Wired, ClosedThroughout, Counted, Tracked, GroupsCounted, RoutesOk, Once;
      TrackedEmpty(routes, keys0, keys0, keys0 - {n}, watching, ecmp, sw.ecmp, sw.flows, egress);
    }

    /** The walk over nh_unreach_callbacks when neighbour n has gone. */
    method NotifyUnreachable(n: NeighId, k: EgressKey, cache: Cache, ghost routes: Routes, ghost keys0: Keys,
                             ghost keys1: Keys, ghost unheard: seq<Pair>)
      requires n in keys0 && keys0[n] == k && keys1 == keys0 - {n}
      requires Wired() && RoutesOk(routes) && GroupsCounted(ecmp, routes, {}) && CacheRoutes(cache, routes)
      requires ListsOk(Plus(unheard, waiting), watching, routes, {}, keys0, keys1)
      modifies this`egress, this`egressPool, this`sw, this`log, this`waiting, this`watching
      ensures Listed(routes, keys1, unheard) && watching == Off(old(watching), n)
      ensures (egress, log) == Notified(old(watching), n, k, cache, links, ecmp, old(egress), old(log))
      ensures (&& old(Midway(watching, keys0, routes, {}, keys0, keys1)) && CacheSyncBut(cache, links, routes, keys1, n)
               && routable <= HostNeighs(keys1) && DistinctHosts(routable) && unheard == []) ==> Settled(routes, keys1)
    {
      hide TablesOk, Wired, ClosedThroughout, Counted, Tracked, GroupsCounted, RouteOk, RoutesOk, CacheSyncBut, ListsOk,
           UnreachMsgs, Released, Notified, Off, Without, Midway, Midst, Resting, Plus;
      OffEnds(watching, n, k, cache, links, ecmp, egress, log);
      ghost var done: set<Addr> := {};
      ghost var orderly := Midway(watching, keys0, routes, {}, keys0, keys1)
                           && CacheSyncBut(cache, links, routes, keys1, n);
      var i := 0;
      while i < |watching|
        invariant i <= |watching| && Wired()
        invariant orderly ==> Midway(watching, keys0, routes, done, keys0, keys1)
        invariant ListsOk(Plus(unheard, waiting), watching, routes, done, keys0, keys1)
        invariant forall j :: 0 <= j < i ==> watching[j].nh.Id() != n
        invariant watching[..i] + Off(watching[i..], n) == Off(old(watching), n)
        invariant Notified(watching[i..], n, k, cache, links, ecmp, egress, log)
               == Notified(old(watching), n, k, cache, links, ecmp, old(egress), old(log))
        decreases |watching| - i
      {
        var p := watching[i];
        OffStep(watching, i, n, k, cache, links, ecmp, egress, log);
        if p.nh.Id() == n {
          PlusOne(unheard, waiting, p);
          ListsDown(Plus(unheard, waiting), watching, routes, done, keys0, n, i);
          WatchedWanted(Plus(unheard, waiting), watching, routes, done, keys0, keys1, i);
          if |routes[p.dst]| > 1 { GroupPresent(ecmp, routes, p.dst); }
          WithoutAt(watching, i);
          NhUnreachable(n, k, i, cache, routes, done, keys0, keys1);
          watching := Without(watching, i);
          done := done + {p.dst};
        } else {
          i := i + 1;
        }
      }
      OffEnds(watching, n, k, cache, links, ecmp, egress, log);
      FallenAll(Plus(unheard, waiting), watching, routes, done, keys0, n);
      if orderly && routable <= HostNeighs(keys1) && DistinctHosts(routable) && unheard == [] {
        PlusNone(waiting);
        FallenSettled(n, routes, done, keys0, keys1);
      }
    }

    lemma FallenSettled(n: NeighId, routes: Routes, done: set<Addr>, keys0: Keys, keys1: Keys)
      requires n in keys0 && keys1 == keys0 - {n} && Midway(watching, keys0, routes, done, keys0, keys1)
      requires ListsOk(waiting, watching, routes, done, keys0, keys1)
      requires forall j :: 0 <= j < |watching| ==> watching[j].nh.Id() != n
      requires routable <= HostNeighs(keys1) && DistinctHosts(routable)
      ensures Settled(routes, keys1)
    {
      hide TablesOk, Wired, ClosedThroughout, Counted, Tracked, GroupsCounted, RoutesOk, ListsOk;
      FallenAll(waiting, watching, routes, done, keys0, n);
      CountedKeys(egress, routable, watching, keys0, keys1);
      TablesFinish(sw.hosts, sw.ecmp, sw.flows, egress, ecmp, routable, keys0, routes, done, keys0, keys1, {n});
    }

    // ---------------------------------------------------------------- routes

    /** One next hop of a new route: take a reference and watch it, or wait for it. */
    method AcquireNextHop(d: Addr, nh: NhStub, cache: Cache, ghost keys: Keys) returns (ids: set<nat>)
      requires Live() && Counted(egress, routable, watching, keys) && CacheAgrees(cache, links, {nh}, keys)
      modifies this`egress, this`egressPool, this`sw, this`log, this`waiting, this`watching
      ensures Live() && Counted(egress, routable, watching, keys) && old(log) <= log
      ensures sw == old(sw).(egress := sw.egress)
      ensures SameIds(old(egress), egress) && forall k :: k in old(egress) ==> k in egress
      ensures nh.Id() in keys ==> keys[nh.Id()] in egress
      ensures ids == if nh.Id() in keys then {egress[keys[nh.Id()]].id} else {}
      ensures watching == old(watching) + (if nh.Id() in keys then [Pair(d, nh)] else [])
      ensures waiting == old(waiting) + (if nh.Id() !in keys && !Silent(d) then [Pair(d, nh)] else [])
    {
      hide Wired, ClosedThroughout, Counted, Silent;
      assert nh in {nh};
      ids := {};
      if nh.Id() !in cache.neighs {
        if !Silent(d) {
          waiting := waiting + [Pair(d, nh)];
        }
      } else {
        ghost var e0 := egress;
        var id := AddL3Egress(KeyOf(links, nh.Id(), cache.neighs[nh.Id()]));
        CountedAddPair(e0, routable, watching, keys, Pair(d, nh), id);
        ids := {id};
        watching := watching + [Pair(d, nh)];
      }
    }

    /** Each next hop of a new route. */
    method AcquireNextHops(d: Addr, s: set<NhStub>, cache: Cache, ghost keys: Keys)
      returns (ids: set<nat>, ghost u: seq<Pair>, ghost w: seq<Pair>)
      requires Live() && Counted(egress, routable, watching, keys)
      requires CacheAgrees(cache, links, s, keys)
      modifies this`egress, this`egressPool, this`sw, this`log, this`waiting, this`watching
      ensures Live() && Counted(egress, routable, watching, keys) && old(log) <= log
      ensures sw == old(sw).(egress := sw.egress)
      ensures SameIds(old(egress), egress) && forall k :: k in old(egress) ==> k in egress
      ensures ids == Ids(s, keys, egress)
      ensures forall nh :: nh in s && nh.Id() in keys ==> keys[nh.Id()] in egress
      ensures waiting == old(waiting) + u && watching == old(watching) + w
      ensures Entries(u, d, Heard(d, s), keys, false) && Entries(w, d, s, keys, true)
    {
      hide Live, Counted, Entries, Once, Silent, Ids;
      ids, u, w := {}, [], [];
      EntriesEmpty(d, keys);
      IdsNone(keys, egress);
      var todo := s;
      assert s - todo == {} && Heard(d, {}) == {};
      while todo != {}
        invariant todo <= s
        invariant Live() && Counted(egress, routable, watching, keys) && old(log) <= log
        invariant sw == old(sw).(egress := sw.egress)
        invariant SameIds(old(egress), egress) && forall k :: k in old(egress) ==> k in egress
        invariant ids == Ids(s - todo, keys, egress)
        invariant forall nh :: nh in s - todo && nh.Id() in keys ==> keys[nh.Id()] in egress
        invariant waiting == old(waiting) + u && watching == old(watching) + w
        invariant Entries(u, d, Heard(d, s - todo), keys, false) && Entries(w, d, s - todo, keys, true)
        decreases todo
      {
        var nh :| nh in todo;
        ghost var seen := s - todo;
        ghost var e0 := egress;
        EntriesHeard(u, d, seen, keys, nh);
        EntriesAdd(w, d, seen, keys, true, nh);
        var one := AcquireNextHop(d, nh, cache, keys);
        IdsStable(seen, keys, e0, egress);
        IdsAdd(seen, nh, keys, egress);
        ids := ids + one;
        if nh.Id() !in keys && !Silent(d) { u := u + [Pair(d, nh)]; }
        if nh.Id() in keys { w := w + [Pair(d, nh)]; }
        todo := todo - {nh};
        assert s - todo == seen + {nh};
      }
      assert s - todo == s;
    }

    /** Reference or create the ECMP group of s; rewrite its members when a next hop is resolved. */
    method JoinGroup(s: set<NhStub>, ids: set<nat>, ghost keys: Keys) returns (g: nat)
      requires Live() && MembersOk(ecmp, sw.ecmp, {}, keys, keys, egress)
      requires |s| > 1 && ids == Ids(s, keys, egress) && ids <= sw.egress.Keys
      modifies this`ecmp, this`ecmpPool, this`sw, this`log, this`owner
      ensures Live() && sw == old(sw).(ecmp := sw.ecmp)
      ensures log == old(log) + (if s in old(ecmp) then [] else [EcmpAdd(g, {})])
                              + (if ids == {} then [] else [EcmpModify(g, ids)])
      ensures ecmp == old(ecmp)[s := L3Interface(g, 1 + (if s in old(ecmp) then old(ecmp)[s].refcnt else 0))]
      ensures s in old(ecmp) ==> g == old(ecmp)[s].id
      ensures g in sw.ecmp && sw.ecmp[g] == ids
      ensures forall i :: i in old(sw.ecmp) && i != g ==> i in sw.ecmp && sw.ecmp[i] == old(sw.ecmp)[i]
    {
      hide EgressWired, ClosedThroughout, Replay, Ids, IsTarget;
      g := AddL3EcmpGroup(s);
      if ids != {} {
        EcmpUpdate(g, ids);
      }
    }

    /** The target of a route, with its group referenced when it is a multipath route. */
    method ChooseTarget(s: set<NhStub>, ids: set<nat>, ghost keys: Keys) returns (t: Target, g: nat)
      requires Live() && MembersOk(ecmp, sw.ecmp, {}, keys, keys, egress)
      requires ids == Ids(s, keys, egress)
      requires forall nh :: nh in s && nh.Id() in keys ==> keys[nh.Id()] in egress
      modifies this`ecmp, this`ecmpPool, this`sw, this`log, this`owner
      ensures Live() && old(log) <= log
      ensures sw == old(sw).(ecmp := sw.ecmp)
      ensures ecmp == if |s| > 1
                      then old(ecmp)[s := L3Interface(g, 1 + (if s in old(ecmp) then old(ecmp)[s].refcnt else 0))]
                      else old(ecmp)
      ensures |s| > 1 && s in old(ecmp) ==> g == old(ecmp)[s].id
      ensures |s| > 1 ==> g in sw.ecmp && sw.ecmp[g] == ids
      ensures |s| <= 1 ==> sw == old(sw)
      ensures |s| > 1 ==> forall i :: i in old(sw.ecmp) && i != g ==> i in sw.ecmp && sw.ecmp[i] == old(sw.ecmp)[i]
      ensures IsTarget(t, s, keys, egress, ecmp)
    {
      hide Wired, ClosedThroughout, Ids, IsTarget, MembersOk;
      IdsLive(s, keys);
      g := 0;
      if |s| > 1 {
        g := JoinGroup(s, ids, keys);
      }
      if ids == {} {
        t := ToController;
      } else if |s| > 1 {
        t := ToEcmp(g);
      } else {
        var id :| id in ids;
        t := ToEgress(id);
      }
      ChosenTarget(t, s, keys, egress, ecmp);
    }

    lemma TargetIsLive(t: Target, s: set<NhStub>, keys: Keys)
      requires Live() && IsTarget(t, s, keys, egress, ecmp)
      ensures LiveTarget(sw, t)
    {
    }

    lemma IdsLive(s: set<NhStub>, keys: Keys)
      requires Live()
      ensures Ids(s, keys, egress) <= sw.egress.Keys
    {
    }

    lemma OtherGroups(s: set<NhStub>, g: nat, ecmp0: Ecmp, t0: map<nat, set<nat>>)
      requires Live() && (|s| > 1 ==> s in ecmp && ecmp[s].id == g)
      requires forall x :: x in ecmp0 ==> x in ecmp && ecmp[x].id == ecmp0[x].id && ecmp0[x].id in t0
      requires |s| <= 1 ==> sw.ecmp == t0 && s !in ecmp0
      requires |s| > 1 ==> forall i :: i in t0 && i != g ==> i in sw.ecmp && sw.ecmp[i] == t0[i]
      ensures forall x :: x in ecmp0 && x != s ==> ecmp0[x].id in sw.ecmp && sw.ecmp[ecmp0[x].id] == t0[ecmp0[x].id]
    {
    }

    /** A route whose next hops and group still hold references is on its way out. */
    ghost predicate Parting(routes: Routes, keys: Keys, leaving: set<NhStub>)
      reads this
    {
      && Live() && RoutesOk(routes)
      && Counted(egress, routable, watching, keys)
      && GroupsCounted(ecmp, routes, leaving)
      && TablesOk(sw.hosts, sw.ecmp, sw.flows, egress, ecmp, routable, keys, routes, {}, keys, keys)
    }

    /** Common part of adding a route and of replacing its next hops. */
    method InstallRoute(d: Addr, s: set<NhStub>, cache: Cache, ghost routes: Routes, ghost keys: Keys)
      returns (ghost u: seq<Pair>, ghost w: seq<Pair>)
      requires Settled(routes, keys) && RouteOk(s) && CacheAgrees(cache, links, s, keys)
      modifies this`egress, this`egressPool, this`ecmp, this`ecmpPool, this`owner, this`sw, this`log,
               this`waiting, this`watching
      ensures Parting(routes[d := s], keys, if d in routes then routes[d] else {})
      ensures waiting == old(waiting) + u && watching == old(watching) + w && old(log) <= log
      ensures Entries(u, d, Heard(d, s), keys, false) && Entries(w, d, s, keys, true)
    {
      hide HostsOk, Wired, ClosedThroughout, Counted, Tracked, GroupsCounted, CurrentHeld, Once, MembersOk, FlowsOk,
           Entries, IsTarget, ListsOk, SameIds, Heard, CacheAgrees;
      ghost var e0 := egress;
      ghost var ecmp0 := ecmp;
      TrackedHeld(e0, routable, watching, keys, routes, {}, keys, keys);
      var ids;
      ids, u, w := AcquireNextHops(d, s, cache, keys);
      AcquiredCurrent(e0, egress, routes, keys);
      assert Touched(routes, {}) == {} && Touched(routes[d := s], {}) == {};
      RoutingStable(sw.ecmp, sw.flows, e0, egress, ecmp, routes, {}, keys, keys);
      HostsStable(sw.hosts, e0, egress, routable, keys);
      var t, g := ChooseTarget(s, ids, keys);
      TargetIsLive(t, s, keys);
      NoSmallGroups(ecmp0, routes);
      GroupsWithin(ecmp0, old(sw.ecmp), keys, egress);
      OtherGroups(s, g, ecmp0, old(sw.ecmp));
      GroupsInstalled(ecmp0, ecmp, routes, d, s, g);
      RoutingInstalled(old(sw.ecmp), sw.ecmp, sw.flows, egress, ecmp0, ecmp, routes, keys, d, s, t);
      RouteUpdate(d, t);
    }

    /** Give up the group reference of a route that is leaving. */
    method DropGroup(leaving: set<NhStub>, ghost routes: Routes, ghost keys: Keys)
      requires Parting(routes, keys, leaving)
      modifies this`ecmp, this`ecmpPool, this`sw, this`log, this`owner
      ensures Parting(routes, keys, {}) && old(log) <= log && sw == old(sw).(ecmp := sw.ecmp)
    {
      hide HostsOk, Counted, GroupsCounted, MembersOk, FlowsOk, EgressWired, ClosedThroughout, Replay, RoutesOk;
      ghost var ecmp0 := ecmp;
      GroupsReleased(ecmp, routes, leaving);
      if |leaving| > 1 {
        if leaving in ecmp && ecmp[leaving].refcnt == 1 {
          GroupUnnamed(ecmp, ecmpPool, sw.ecmp, owner, sw.flows, routes, leaving, keys, egress);
        }
        DelL3EcmpGroup(leaving);
        assert ecmp == GroupReleased(ecmp0, leaving);
        RoutingGroupReleased(old(sw.ecmp), sw.flows, egress, ecmp0, old(ecmpPool), old(owner), routes, keys, leaving);
      }
    }

    /** The next hops of a route that is leaving: first list hit, then the reference. A next hop that the
        cache resolves gives up a reference of its key even when no entry is found. */
    method ReleaseNextHops(d: Addr, o: set<NhStub>, cache: Cache, ghost routes: Routes, ghost keys: Keys,
                           ghost u0: seq<Pair>, ghost u: seq<Pair>, ghost w0: seq<Pair>, ghost w: seq<Pair>)
      returns (ghost u1: seq<Pair>, ghost w1: seq<Pair>)
      requires Parting(routes, keys, {}) && CacheKeys(cache, links, o, keys)
      requires waiting == u0 + u && watching == w0 + w && Once(u0) && Once(w0)
      requires forall nh :: nh in o ==>
                 (nh.Id() in keys <==> Pair(d, nh) in w0) && (nh.Id() !in keys <==> Pair(d, nh) in u0)
      requires CacheAgrees(cache, links, o, keys) || (u == [] && w == [])
      requires Survives(routes, keys, d, w0, w) && Accounted(w0 + w, d, o, routes, keys)
      modifies this`egress, this`egressPool, this`sw, this`log, this`waiting, this`watching
      ensures Wired() && old(log) <= log && sw == old(sw).(egress := sw.egress)
              && FewerGroups(old(sw.egress), sw.egress)
      ensures waiting == u1 + u && watching == w1 + w
      ensures Stripped(u1, u0, d, Uncached(o, cache)) && Stripped(w1, w0, d, Cached(o, cache))
      ensures forall k :: Refs(egress, k) == Monus(Refs(old(egress), k), |OnKey(o, cache, links, k)|)
      ensures Counted(egress, routable, watching, keys) <==> OwnOnly(o, cache, links, keys, old(egress))
      ensures Live() <==> Spared(o, cache, links, keys, old(egress))
      ensures Spared(o, cache, links, keys, old(egress)) ==>
                TablesOk(sw.hosts, sw.ecmp, sw.flows, egress, ecmp, routable, keys, routes, {}, keys, keys)
      ensures OwnOnly(o, cache, links, keys, old(egress)) ==> Parting(routes, keys, {})
    {
      hide TablesOk, Wired, ClosedThroughout, Counted, GroupsCounted, RoutesOk, Survives, Stripped, Progress, OwnOnly,
           Spared, Accounted, CacheKeys, CacheAgrees, Once, OnKey, Monus, Refs, HeldAll, EgressWired, Positive;
      u1, w1 := u0, w0;
      var todo := o;
      assert o - todo == {} && Uncached({}, cache) == {} && Cached({}, cache) == {};
      StrippedNothing(u0, d);
      StrippedNothing(w0, d);
      WiredPositive();
      ProgressStart(egress, watching, routable, cache, links, keys);
      ghost var e0, all := egress, watching;
      ghost var good := Spared(o, cache, links, keys, egress);
      while todo != {}
        invariant todo <= o && Wired() && old(log) <= log
        invariant sw == old(sw).(egress := sw.egress) && FewerGroups(old(sw.egress), sw.egress)
        invariant waiting == u1 + u && watching == w1 + w
        invariant Stripped(u1, u0, d, Uncached(o - todo, cache)) && Stripped(w1, w0, d, Cached(o - todo, cache))
        invariant Progress(e0, all, egress, watching, routable, cache, links, keys, o - todo)
        invariant good ==> Live()
        invariant good ==> TablesOk(sw.hosts, sw.ecmp, sw.flows, egress, ecmp, routable, keys, routes, {}, keys, keys)
        decreases todo
      {
        var nh :| nh in todo;
        ghost var gone := o - todo;
        todo := todo - {nh};
        assert o - todo == gone + {nh};
        if nh.Id() !in cache.neighs {
          UncachedWaits(nh, o, cache, links, keys);
          u1 := DropWaiting(d, nh, u1, u, u0, Uncached(gone, cache));
          ProgressUncached(e0, all, egress, watching, routable, cache, links, keys, gone, nh);
          assert Uncached(gone + {nh}, cache) == Uncached(gone, cache) + {nh}
                 && Cached(gone + {nh}, cache) == Cached(gone, cache);
        } else {
          w1 := DropWatched(d, o, nh, cache, routes, keys, e0, all, w1, w, w0, gone);
          assert Cached(gone + {nh}, cache) == Cached(gone, cache) + {nh}
                 && Uncached(gone + {nh}, cache) == Uncached(gone, cache);
        }
      }
      assert o - todo == o;
      CountedIff(e0, all, egress, watching, routable, cache, links, keys, o);
      ProgressRefs(e0, all, egress, watching, routable, cache, links, keys, o);
      if OwnOnly(o, cache, links, keys, e0) { OwnOnlySpared(o, cache, links, keys, e0); }
      if !good {
        if CacheAgrees(cache, links, o, keys) { AgreeOwnOnly(o, cache, links, keys, e0); }
        assert all == w0;
        Unspared(old(sw), old(egressPool), e0, all, routes, cache, keys, d, o);
      }
    }

    lemma Unspared(sw0: Switch, pool0: Pool, e0: Egress, w: seq<Pair>, routes: Routes, cache: Cache, keys: Keys,
                   d: Addr, o: set<NhStub>)
      requires Wired() && EgressWired(e0, pool0, sw0.egress)
      requires Counted(e0, routable, w, keys) && Once(w) && Accounted(w, d, o, routes, keys)
      requires TablesOk(sw0.hosts, sw0.ecmp, sw0.flows, e0, ecmp, routable, keys, routes, {}, keys, keys)
      requires sw == sw0.(egress := sw.egress) && FewerGroups(sw0.egress, sw.egress)
      requires forall k :: Refs(egress, k) == Monus(Refs(e0, k), |OnKey(o, cache, links, k)|)
      requires !Spared(o, cache, links, keys, e0)
      ensures !Live()
    {
      hide Counted, Once, Accounted, TablesOk, OnKey, Spared, EgressWired, EcmpWired, Replay, ClosedThroughout, Proper,
           Closed, FewerGroups, Refs, Monus;
      UnsparedDangles(sw0, pool0, e0, sw, egressPool, egress, w, routable, ecmp, routes, cache, links, keys, d, o);
      SwClosed();
    }

    lemma WiredPositive()
      requires Wired()
      ensures Positive(egress) && EgressWired(egress, egressPool, sw.egress)
    {
    }

    /** The unresolved next hop nh of a leaving route: its entry in nh_callbacks goes, if there is one. */
    method DropWaiting(d: Addr, nh: NhStub, ghost u1: seq<Pair>, ghost u: seq<Pair>, ghost u0: seq<Pair>,
                       ghost gone: set<NhStub>)
      returns (ghost u2: seq<Pair>)
      requires waiting == u1 + u && Stripped(u1, u0, d, gone) && nh !in gone && (Pair(d, nh) in u0 || u == [])
      modifies this`waiting
      ensures waiting == u2 + u && Stripped(u2, u0, d, gone + {nh})
    {
      hide Stripped;
      var i := FindFirst(waiting, Pair(d, nh));
      if Pair(d, nh) in u0 {
        StripFirst(u1, u, u0, d, gone, nh, i);
        u2 := Without(u1, i);
      } else {
        StripNone(u1, u0, d, gone, nh);
        NotThere(u1, u0, d, gone, nh);
        u2 := u1;
      }
      if i < |waiting| {
        waiting := Without(waiting, i);
      }
    }

    /** The next hop nh of a leaving route that the cache resolves: its entry in nh_unreach_callbacks goes,
        if there is one, and a reference of its key in any case. */
    method DropWatched(d: Addr, ghost o: set<NhStub>, nh: NhStub, cache: Cache, ghost routes: Routes, ghost keys: Keys,
                       ghost e0: Egress, ghost all: seq<Pair>, ghost w1: seq<Pair>, ghost w: seq<Pair>,
                       ghost w0: seq<Pair>, ghost gone: set<NhStub>) returns (ghost w2: seq<Pair>)
      requires Wired() && nh in o && nh !in gone && gone <= o && nh.Id() in cache.neighs
      requires watching == w1 + w && all == w0 + w && Stripped(w1, w0, d, Cached(gone, cache))
      requires forall x :: x in o ==> (x.Id() in keys <==> Pair(d, x) in w0)
      requires CacheKeys(cache, links, o, keys) && (CacheAgrees(cache, links, o, keys) || w == [])
      requires Progress(e0, all, egress, watching, routable, cache, links, keys, gone)
      requires Survives(routes, keys, d, w0, w) && Counted(e0, routable, all, keys) && GroupsCounted(ecmp, routes, {})
      modifies this`egress, this`egressPool, this`sw, this`log, this`watching
      ensures Wired() && old(log) <= log && sw == old(sw).(egress := sw.egress)
              && FewerGroups(old(sw.egress), sw.egress)
      ensures watching == w2 + w && Stripped(w2, w0, d, Cached(gone, cache) + {nh})
      ensures Progress(e0, all, egress, watching, routable, cache, links, keys, gone + {nh})
      ensures (&& old(Live()) && Spared(o, cache, links, keys, e0)
               && old(TablesOk(sw.hosts, sw.ecmp, sw.flows, egress, ecmp, routable, keys, routes, {}, keys, keys)))
              ==> Live() && TablesOk(sw.hosts, sw.ecmp, sw.flows, egress, ecmp, routable, keys, routes, {}, keys, keys)
    {
      hide TablesOk, Wired, ClosedThroughout, Counted, GroupsCounted, Survives, Stripped, Progress, Spared, CacheAgrees,
           HeldAll, Tracked, Released;
      KeyKnown(nh, o, cache, links, keys);
      var k := KeyOf(links, nh.Id(), cache.neighs[nh.Id()]);
      var i := FindFirst(watching, Pair(d, nh));
      CachedNew(gone, nh, cache);
      ghost var good := Live() && Spared(o, cache, links, keys, e0)
        && TablesOk(sw.hosts, sw.ecmp, sw.flows, egress, ecmp, routable, keys, routes, {}, keys, keys);
      ghost var w' := watching;
      SurvivesTracked(routes, keys, d, w0, w, w1, Cached(gone, cache));
      if nh.Id() in keys {
        StripFirst(w1, w, w0, d, Cached(gone, cache), nh, i);
        w2 := Without(w1, i);
        w' := Without(watching, i);
      } else {
        AgreeKeys(nh, o, cache, links, keys);
        StripNone(w1, w0, d, Cached(gone, cache), nh);
        NotThere(w1, w0, d, Cached(gone, cache), nh);
        w2 := w1;
      }
      ProgressCached(e0, all, egress, watching, routable, cache, links, keys, gone, nh, k, i);
      SurvivesTracked(routes, keys, d, w0, w, w2, Cached(gone, cache) + {nh});
      if good {
        HostsHaveKeys(sw, egress, ecmp, routable, keys, routes, {}, keys, keys);
        StillHeld(e0, all, egress, watching, routable, cache, links, keys, d, o, gone, routes, w0, w);
        StillHeld(e0, all, Released(egress, k), w', routable, cache, links, keys, d, o, gone + {nh}, routes, w0, w);
        HeldCurrent(egress, routable, keys, routes, {}, keys, keys);
      }
      if i < |watching| {
        watching := Without(watching, i);
      }
      var rv := ReleaseHeld(k, keys, routes, {}, keys, keys);
    }

    method RouteDelete(d: Addr)
      requires Wired()
      modifies this`sw, this`log
      ensures Wired() && (old(Live()) ==> Live()) && log == old(log) + [RouteRemove(d)]
      ensures sw == old(sw).(flows := old(sw.flows) - {d})
    {
      hide EgressWired, EcmpWired, ClosedThroughout, Proper, Replay;
      SwClosed();
      Send(RouteRemove(d));
    }

    /** A new route with next-hop set s. Everything follows, except that unresolved next hops of a silent
        destination are not waited for. */
    method AddL3UnicastRoute(d: Addr, s: set<NhStub>, cache: Cache, ghost routes: Routes, ghost keys: Keys)
      returns (ghost unheard: seq<Pair>)
      requires Settled(routes, keys) && d !in routes
      requires RouteOk(s) && CacheAgrees(cache, links, s, keys)
      modifies this`egress, this`egressPool, this`ecmp, this`ecmpPool, this`owner, this`sw, this`log, this`waiting,
               this`watching
      ensures Parting(routes[d := s], keys, {}) && Listed(routes[d := s], keys, unheard) && old(log) <= log
      ensures Awaited(d, s, keys) ==> unheard == [] && Settled(routes[d := s], keys)
      ensures !Awaited(d, s, keys) ==> unheard != []
      ensures forall q :: q in unheard ==> q.dst == d && q.nh in s && q.nh.Id() !in keys
    {
      hide TablesOk, Wired, ClosedThroughout, Counted, Tracked, GroupsCounted, RouteOk, RoutesOk, ListsOk, Entries,
           Silent, Heard, Awaited, Plus;
      ListsDst(waiting, watching, routes, d, keys);
      ghost var u, w := InstallRoute(d, s, cache, routes, keys);
      unheard := ListsUnheard(old(waiting), old(watching), u, w, routes, d, s, keys);
      PlusNone(waiting);
    }

    /** The route to d goes away: flow, group reference, then the next hops. Whatever the cache shows, the
        counts survive if and only if no reference is taken from a key that others use, and the stream stays
        closed if and only if every such key has references to spare. */
    method DelL3UnicastRoute(d: Addr, o: set<NhStub>, cache: Cache, ghost routes: Routes, ghost keys: Keys)
      requires Settled(routes, keys) && d in routes && routes[d] == o
      requires CacheKeys(cache, links, o, keys)
      modifies this`egress, this`egressPool, this`ecmp, this`ecmpPool, this`owner, this`sw, this`log, this`waiting,
               this`watching
      ensures Wired() && old(log) <= log && sw.hosts == old(sw.hosts) && FewerGroups(old(sw.egress), sw.egress)
      ensures Stripped(waiting, old(waiting), d, Uncached(o, cache))
              && Stripped(watching, old(watching), d, Cached(o, cache))
      ensures forall k :: Refs(egress, k) == Monus(Refs(old(egress), k), |OnKey(o, cache, links, k)|)
      ensures Counted(egress, routable, watching, keys) <==> OwnOnly(o, cache, links, keys, old(egress))
      ensures Live() <==> Spared(o, cache, links, keys, old(egress))
      ensures Spared(o, cache, links, keys, old(egress)) ==>
                TablesOk(sw.hosts, sw.ecmp, sw.flows, egress, ecmp, routable, keys, routes - {d}, {}, keys, keys)
      ensures OwnOnly(o, cache, links, keys, old(egress)) ==> Parting(routes - {d}, keys, {})
      ensures CacheAgrees(cache, links, o, keys) ==> Settled(routes - {d}, keys)
    {
      hide HostsOk, MembersOk, FlowsOk, Wired, ClosedThroughout, Counted, Tracked, GroupsCounted, RouteOk, RoutesOk,
           ListsOk, Once, Survives, Stripped, OwnOnly, Spared, Accounted, CacheKeys, CacheAgrees, OnKey, Monus, Refs;
      ListsOfRoute(waiting, watching, routes, d, keys);
      ListsAccounted(waiting, watching, routes, d, keys);
      RouteDelete(d);
      FlowRemoved(old(sw.flows), sw.ecmp, egress, ecmp, routes, keys, d);
      GroupsParting(ecmp, routes, d);
      FewerRoutesOk(routes, d);
      DropGroup(o, routes - {d}, keys);
      assert waiting == old(waiting) + [] && watching == old(watching) + [];
      ghost var u1, w1 := ReleaseNextHops(d, o, cache, routes - {d}, keys, waiting, [], watching, []);
      assert u1 + [] == u1 && w1 + [] == w1;
      if CacheAgrees(cache, links, o, keys) {
        AgreeOwnOnly(o, cache, links, keys, old(egress));
        StrippedAgree(u1, old(waiting), w1, old(watching), d, o, cache, links, keys);
        ListsRemoved(old(waiting), old(watching), u1, w1, routes, d, keys);
      }
    }

    /** New next hops for an installed route: add the new ones, then remove the old ones. */
    method UpdateL3UnicastRoute(d: Addr, o: set<NhStub>, s: set<NhStub>, cache: Cache, ghost routes: Routes,
                                ghost keys: Keys)
      returns (ghost unheard: seq<Pair>)
      requires Settled(routes, keys) && d in routes && routes[d] == o
      requires RouteOk(s) && CacheAgrees(cache, links, s, keys) && CacheAgrees(cache, links, o, keys)
      modifies this`egress, this`egressPool, this`ecmp, this`ecmpPool, this`owner, this`sw, this`log, this`waiting,
               this`watching
      ensures Parting(routes[d := s], keys, {}) && Listed(routes[d := s], keys, unheard) && old(log) <= log
      ensures Awaited(d, s, keys) ==> unheard == [] && Settled(routes[d := s], keys)
      ensures !Awaited(d, s, keys) ==> unheard != []
      ensures forall q :: q in unheard ==> q.dst == d && q.nh in s && q.nh.Id() !in keys
    {
      hide TablesOk, Wired, ClosedThroughout, Counted, Tracked, GroupsCounted, RouteOk, RoutesOk, ListsOk, Entries,
           Once, Survives, Stripped, CacheKeys, CacheAgrees, Silent, Heard, Awaited, OwnOnly, Spared, Accounted, Plus;
      ListsOfRoute(waiting, watching, routes, d, keys);
      ghost var u, w := InstallRoute(d, s, cache, routes, keys);
      DropGroup(o, routes[d := s], keys);
      AgreeOwnOnly(o, cache, links, keys, egress);
      EntriesAccounted(old(waiting), old(watching), w, routes, d, s, keys);
      ghost var u1, w1 := ReleaseNextHops(d, o, cache, routes[d := s], keys, old(waiting), u, old(watching), w);
      StrippedAgree(u1, old(waiting), w1, old(watching), d, o, cache, links, keys);
      ListsRemoved(old(waiting), old(watching), u1, w1, routes, d, keys);
      ListsDst(u1, w1, routes - {d}, d, keys);
      assert (routes - {d})[d := s] == routes[d := s];
      unheard := ListsUnheard(u1, w1, u, w, routes - {d}, d, s, keys);
      PlusNone(waiting);
    }

    // ------------------------------------- a gateway route that becomes on-link

    /** The new on-link route is installed: the flow points to the controller, while lists and groups still
        follow the old next hops. */
    method MuteRoute(d: Addr, cache: Cache, ghost routes: Routes, ghost keys: Keys) returns (ghost aside: Aside)
      requires Settled(routes, keys) && d in routes
      modifies this`egress, this`egressPool, this`ecmp, this`ecmpPool, this`owner, this`sw, this`log, this`waiting,
               this`watching
      ensures old(log) <= log && Resting(routes, keys, aside) && aside.Keys == {d}
    {
      hide TablesOk, Wired, ClosedThroughout, Counted, Tracked, GroupsCounted, RouteOk, RoutesOk, ListsOk, Entries,
           Virtual, Muted, Heard;
      NothingToResolve(cache, links, keys);
      ghost var u, w := InstallRoute(d, {}, cache, routes, keys);
      NoEntries(u, w, d, keys);
      assert old(waiting) + [] == old(waiting) && old(watching) + [] == old(watching);
      ListsTracked(waiting, watching, routes, keys);
      GroupsAside(ecmp, routes, d);
      aside := TablesAside(sw, egress, ecmp, routable, watching, routes, keys, d);
    }

    /** The old next hops go, after neighbours may have become routed in between. */
    method RetireRoute(d: Addr, o: set<NhStub>, cache: Cache, ghost routes: Routes, ghost keys: Keys,
                       ghost aside: Aside)
      requires Resting(routes, keys, aside) && aside.Keys == {d} && d in routes && routes[d] == o
      requires CacheAgrees(cache, links, o, keys)
      modifies this`egress, this`egressPool, this`ecmp, this`ecmpPool, this`owner, this`sw, this`log, this`waiting,
               this`watching
      ensures old(log) <= log && Settled(routes[d := {}], keys)
    {
      hide TablesOk, Wired, ClosedThroughout, Counted, Tracked, GroupsCounted, RouteOk, RoutesOk, ListsOk, Entries,
           Once, Survives, Stripped, CacheKeys, CacheAgrees, OwnOnly, Spared, Accounted, Virtual, Muted, Awaited, Plus;
      ListsOfRoute(waiting, watching, routes, d, keys);
      AgreeOwnOnly(o, cache, links, keys, egress);
      EntriesEmpty(d, keys);
      EntriesAccounted(waiting, watching, [], routes, d, {}, keys);
      GroupsAside(ecmp, routes, d);
      TablesOwn(sw, egress, ecmp, routable, routes, keys, d, aside);
      FewerNextHops(routes, d);
      DropGroup(o, routes[d := {}], keys);
      AgreeOwnOnly(o, cache, links, keys, egress);
      assert waiting == old(waiting) + [] && watching == old(watching) + [];
      ghost var u1, w1 := ReleaseNextHops(d, o, cache, routes[d := {}], keys, old(waiting), [], old(watching), []);
      assert u1 + [] == u1 && w1 + [] == w1;
      StrippedAgree(u1, old(waiting), w1, old(watching), d, o, cache, links, keys);
      ListsRemoved(old(waiting), old(watching), u1, w1, routes, d, keys);
      ListsDst(u1, w1, routes - {d}, d, keys);
      ListsInstalled(u1, w1, [], [], routes - {d}, d, {}, keys);
      assert (routes - {d})[d := {}] == routes[d := {}];
      VirtualNone(sw.flows);
    }
  }
}
