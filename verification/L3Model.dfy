/** What the reference counts, lists and tables of the layer-3 engine must mean,
    as predicates over plain values, with the lemmas the engine's methods use. */
module L3Model {
  import opened L3Types
  import opened SetFacts
  import opened L3Switch
  import opened IdPool

  type Egress = map<EgressKey, L3Interface>
  type Ecmp = map<set<NhStub>, L3Interface>

  // ------------------------------------------------------------------ wiring

  /** The egress table and the switch's egress groups are inverse maps, and the
      id pool knows exactly the ids in use. */
  ghost predicate EgressWired(egress: Egress, pool: Pool, groups: map<nat, EgressKey>) {
    && PoolOk(pool, groups.Keys)
    && (forall k :: k in egress ==> egress[k].id in groups && groups[egress[k].id] == k && egress[k].refcnt > 0)
    && (forall i :: i in groups ==> groups[i] in egress && egress[groups[i]].id == i)
  }

  /** The same for ECMP groups; `owner` names the next-hop set of each group. */
  ghost predicate EcmpWired(ecmp: Ecmp, pool: Pool, groups: map<nat, set<nat>>, owner: map<nat, set<NhStub>>) {
    && PoolOk(pool, groups.Keys)
    && owner.Keys == groups.Keys
    && (forall s :: s in ecmp ==> ecmp[s].id in owner && owner[ecmp[s].id] == s && ecmp[s].refcnt > 0)
    && (forall i :: i in owner ==> owner[i] in ecmp && ecmp[owner[i]].id == i)
  }

  lemma EgressWiredNew(egress: Egress, pool: Pool, groups: map<nat, EgressKey>, k: EgressKey, id: nat)
    requires EgressWired(egress, pool, groups) && k !in egress && IsNextId(pool, id)
    ensures id !in groups
    ensures EgressWired(egress[k := L3Interface(id, 1)], Take(pool, id), groups[id := k])
  {
    hide PoolOk, IsNextId, Take;
    TakeOk(pool, groups.Keys, id);
    assert groups[id := k].Keys == groups.Keys + {id};
  }

  lemma EgressWiredRecount(egress: Egress, pool: Pool, groups: map<nat, EgressKey>, k: EgressKey, refcnt: nat)
    requires EgressWired(egress, pool, groups) && k in egress && refcnt > 0
    ensures EgressWired(egress[k := L3Interface(egress[k].id, refcnt)], pool, groups)
  {
  }

  lemma EgressWiredDrop(egress: Egress, pool: Pool, groups: map<nat, EgressKey>, k: EgressKey)
    requires EgressWired(egress, pool, groups) && k in egress
    ensures EgressWired(egress - {k}, Free(pool, egress[k].id), groups - {egress[k].id})
  {
    hide PoolOk, Free;
    FreeOk(pool, groups.Keys, egress[k].id);
    assert (groups - {egress[k].id}).Keys == groups.Keys - {egress[k].id};
  }

  lemma EgressWiredAt(egress: Egress, pool: Pool, groups: map<nat, EgressKey>, k: EgressKey)
    requires EgressWired(egress, pool, groups) && k in egress
    ensures egress[k].refcnt > 0 && egress[k].id in groups
  {
  }

  lemma EcmpWiredAt(ecmp: Ecmp, pool: Pool, groups: map<nat, set<nat>>, owner: map<nat, set<NhStub>>, s: set<NhStub>)
    requires EcmpWired(ecmp, pool, groups, owner) && s in ecmp
    ensures ecmp[s].refcnt > 0 && ecmp[s].id in groups
  {
  }

  lemma EcmpWiredNew(ecmp: Ecmp, pool: Pool, groups: map<nat, set<nat>>, owner: map<nat, set<NhStub>>, s: set<NhStub>,
                     id: nat)
    requires EcmpWired(ecmp, pool, groups, owner) && s !in ecmp && IsNextId(pool, id)
    ensures id !in groups
    ensures EcmpWired(ecmp[s := L3Interface(id, 1)], Take(pool, id), groups[id := {}], owner[id := s])
  {
    hide PoolOk, IsNextId, Take;
    TakeOk(pool, groups.Keys, id);
    assert groups[id := {}].Keys == groups.Keys + {id} == owner[id := s].Keys;
  }

  lemma EcmpWiredRecount(ecmp: Ecmp, pool: Pool, groups: map<nat, set<nat>>, owner: map<nat, set<NhStub>>,
                         s: set<NhStub>, refcnt: nat)
    requires EcmpWired(ecmp, pool, groups, owner) && s in ecmp && refcnt > 0
    ensures EcmpWired(ecmp[s := L3Interface(ecmp[s].id, refcnt)], pool, groups, owner)
  {
  }

  lemma EcmpWiredDrop(ecmp: Ecmp, pool: Pool, groups: map<nat, set<nat>>, owner: map<nat, set<NhStub>>, s: set<NhStub>)
    requires EcmpWired(ecmp, pool, groups, owner) && s in ecmp
    ensures EcmpWired(ecmp - {s}, Free(pool, ecmp[s].id), groups - {ecmp[s].id}, owner - {ecmp[s].id})
  {
    hide PoolOk, Free;
    var id := ecmp[s].id;
    FreeOk(pool, groups.Keys, id);
    assert (groups - {id}).Keys == groups.Keys - {id} == (owner - {id}).Keys;
  }

  // ---------------------------------------------------------------- counting

  predicate Resolves(p: Pair, keys: Keys, k: EgressKey) {
    p.nh.Id() in keys && keys[p.nh.Id()] == k
  }

  ghost function HostsOn(hosts: set<NeighId>, keys: Keys, k: EgressKey): set<NeighId> {
    set n | n in hosts && n in keys && keys[n] == k
  }

  ghost function Watchers(w: seq<Pair>, keys: Keys, k: EgressKey): nat {
    if w == [] then 0
    else (if Resolves(w[0], keys, k) then 1 else 0) + Watchers(w[1..], keys, k)
  }

  /** Installed host neighbours on key k plus watched (route, next hop) pairs resolving to it. */
  ghost function Uses(hosts: set<NeighId>, w: seq<Pair>, keys: Keys, k: EgressKey): nat {
    |HostsOn(hosts, keys, k)| + Watchers(w, keys, k)
  }

  /** The conservation law. */
  ghost predicate Counted(egress: Egress, hosts: set<NeighId>, w: seq<Pair>, keys: Keys) {
    && (forall k :: k in egress <==> Uses(hosts, w, keys, k) > 0)
    && (forall k :: k in egress ==> egress[k].refcnt == Uses(hosts, w, keys, k))
  }

  lemma {:induction false} WatchersConcat(a: seq<Pair>, b: seq<Pair>, keys: Keys, k: EgressKey)
    ensures Watchers(a + b, keys, k) == Watchers(a, keys, k) + Watchers(b, keys, k)
  {
    if a == [] {
      assert a + b == b;
    } else {
      assert (a + b)[1..] == a[1..] + b;
      WatchersConcat(a[1..], b, keys, k);
    }
  }

  lemma WatchersRemove(w: seq<Pair>, i: nat, keys: Keys, k: EgressKey)
    requires i < |w|
    ensures Watchers(w, keys, k)
         == Watchers(w[..i] + w[i + 1..], keys, k) + (if Resolves(w[i], keys, k) then 1 else 0)
  {
    WatchersConcat(w[..i], w[i + 1..], keys, k);
    WatchersConcat(w[..i], w[i..], keys, k);
    assert w == w[..i] + w[i..];
    assert w[i..][1..] == w[i + 1..];
  }

  lemma {:induction false} WatchersMember(w: seq<Pair>, p: Pair, keys: Keys, k: EgressKey)
    requires p in w && Resolves(p, keys, k)
    ensures Watchers(w, keys, k) > 0
  {
    if w[0] != p {
      assert p in w[1..];
      WatchersMember(w[1..], p, keys, k);
    }
  }

  lemma {:induction false} WatchersNone(w: seq<Pair>, keys: Keys, k: EgressKey)
    requires forall q :: q in w ==> !Resolves(q, keys, k)
    ensures Watchers(w, keys, k) == 0
  {
    if w != [] {
      assert w[0] in w;
      WatchersNone(w[1..], keys, k);
    }
  }

  /** Only the resolution of the watched pairs matters. */
  lemma {:induction false} WatchersKeys(w: seq<Pair>, keys: Keys, keys': Keys, k: EgressKey)
    requires forall p :: p in w ==> (Resolves(p, keys, k) <==> Resolves(p, keys', k))
    ensures Watchers(w, keys, k) == Watchers(w, keys', k)
  {
    if w != [] {
      assert w[0] in w;
      assert forall p :: p in w[1..] ==> p in w;
      WatchersKeys(w[1..], keys, keys', k);
    }
  }

  lemma HostsOnAdd(hosts: set<NeighId>, keys: Keys, n: NeighId, k: EgressKey)
    requires n in keys && n !in hosts
    ensures |HostsOn(hosts + {n}, keys, k)| == |HostsOn(hosts, keys, k)| + (if k == keys[n] then 1 else 0)
  {
    if k == keys[n] {
      assert HostsOn(hosts + {n}, keys, k) == HostsOn(hosts, keys, k) + {n};
    } else {
      assert HostsOn(hosts + {n}, keys, k) == HostsOn(hosts, keys, k);
    }
  }

  lemma CountedAddPair(egress: Egress, hosts: set<NeighId>, w: seq<Pair>, keys: Keys, p: Pair, id: nat)
    requires Counted(egress, hosts, w, keys)
    requires p.nh.Id() in keys
    ensures Counted(Acquired(egress, keys[p.nh.Id()], id), hosts, w + [p], keys)
  {
    forall k ensures Uses(hosts, w + [p], keys, k)
                  == Uses(hosts, w, keys, k) + (if k == keys[p.nh.Id()] then 1 else 0) {
      WatchersConcat(w, [p], keys, k);
      assert [p][1..] == [];
    }
  }

  lemma CountedAddHost(egress: Egress, hosts: set<NeighId>, w: seq<Pair>, keys: Keys, n: NeighId, id: nat)
    requires Counted(egress, hosts, w, keys)
    requires n in keys && n !in hosts
    ensures Counted(Acquired(egress, keys[n], id), hosts + {n}, w, keys)
  {
    forall k ensures Uses(hosts + {n}, w, keys, k)
                  == Uses(hosts, w, keys, k) + (if k == keys[n] then 1 else 0) {
      HostsOnAdd(hosts, keys, n, k);
    }
  }

  /** The egress table after one more reference on key k, with switch id `id`. */
  function Acquired(egress: Egress, k: EgressKey, id: nat): Egress {
    egress[k := L3Interface(id, 1 + (if k in egress then egress[k].refcnt else 0))]
  }

  /** The egress table after one release of key k. */
  function Released(egress: Egress, k: EgressKey): Egress {
    if k !in egress then egress
    else if egress[k].refcnt <= 1 then egress - {k}
    else egress[k := egress[k].(refcnt := egress[k].refcnt - 1)]
  }

  /** Giving up the reference takes the group along. */
  predicate LastRef(egress: Egress, k: EgressKey) {
    k in egress && egress[k].refcnt <= 1
  }

  /** What a release of key k says to the switch. */
  function ReleaseMsgs(egress: Egress, k: EgressKey): seq<Msg> {
    if LastRef(egress, k) then [EgressRemove(egress[k].id)] else []
  }

  lemma CountedDropPair(egress: Egress, hosts: set<NeighId>, w: seq<Pair>, keys: Keys, i: nat)
    requires Counted(egress, hosts, w, keys)
    requires i < |w| && w[i].nh.Id() in keys
    ensures keys[w[i].nh.Id()] in egress
    ensures Counted(Released(egress, keys[w[i].nh.Id()]), hosts, w[..i] + w[i + 1..], keys)
  {
    forall k ensures Uses(hosts, w, keys, k) == Uses(hosts, w[..i] + w[i + 1..], keys, k)
                                              + (if k == keys[w[i].nh.Id()] then 1 else 0) {
      WatchersRemove(w, i, keys, k);
    }
  }

  lemma CountedDropHost(egress: Egress, hosts: set<NeighId>, w: seq<Pair>, keys: Keys, n: NeighId)
    requires Counted(egress, hosts, w, keys)
    requires n in keys && n in hosts
    ensures keys[n] in egress
    ensures Counted(Released(egress, keys[n]), hosts - {n}, w, keys)
  {
    forall k ensures Uses(hosts, w, keys, k) == Uses(hosts - {n}, w, keys, k)
                                              + (if k == keys[n] then 1 else 0) {
      HostsOnAdd(hosts - {n}, keys, n, k);
      assert hosts - {n} + {n} == hosts;
    }
  }

  lemma CountedKeys(egress: Egress, hosts: set<NeighId>, w: seq<Pair>, keys: Keys, keys': Keys)
    requires Counted(egress, hosts, w, keys)
    requires forall p, k :: p in w ==> (Resolves(p, keys, k) <==> Resolves(p, keys', k))
    requires forall n :: n in hosts ==> n in keys && n in keys' && keys[n] == keys'[n]
    ensures Counted(egress, hosts, w, keys')
  {
    forall k ensures Uses(hosts, w, keys, k) == Uses(hosts, w, keys', k) {
      WatchersKeys(w, keys, keys', k);
      assert HostsOn(hosts, keys, k) == HostsOn(hosts, keys', k);
    }
  }

  /** A user that stays behind keeps the key's count above the one being dropped. */
  lemma HeldByPair(egress: Egress, hosts: set<NeighId>, w: seq<Pair>, keys: Keys, p: Pair)
    requires Counted(egress, hosts, w, keys)
    requires p in w && p.nh.Id() in keys
    ensures keys[p.nh.Id()] in egress
  {
    WatchersMember(w, p, keys, keys[p.nh.Id()]);
  }

  lemma HeldByHost(egress: Egress, hosts: set<NeighId>, w: seq<Pair>, keys: Keys, n: NeighId)
    requires Counted(egress, hosts, w, keys)
    requires n in hosts && n in keys
    ensures keys[n] in egress
  {
    assert n in HostsOn(hosts, keys, keys[n]);
  }

  // ------------------------------------------------------ flows, groups, lists

  /** Egress ids of the next hops in s that are resolved according to keys. */
  ghost function Ids(s: set<NhStub>, keys: Keys, egress: Egress): set<nat> {
    set nh | nh in s && nh.Id() in keys && keys[nh.Id()] in egress :: egress[keys[nh.Id()]].id
  }

  ghost predicate AnyResolved(s: set<NhStub>, keys: Keys) {
    exists nh :: nh in s && nh.Id() in keys
  }

  /** Where the prefix route with next-hop set s must point. */
  ghost predicate IsTarget(t: Target, s: set<NhStub>, keys: Keys, egress: Egress, ecmp: Ecmp) {
    if !AnyResolved(s, keys) then t == ToController
    else if |s| > 1 then s in ecmp && t == ToEcmp(ecmp[s].id)
    else forall nh :: nh in s ==> nh.Id() in keys && keys[nh.Id()] in egress
                                  && t == ToEgress(egress[keys[nh.Id()]].id)
  }

  function RoutesVia(routes: Routes, s: set<NhStub>): set<Addr> {
    set d | d in routes && routes[d] == s
  }

  /** References on the ECMP group of s: installed routes using s, plus one for a route
      whose removal is under way (`leaving`; the empty set when there is none). */
  function GroupUses(routes: Routes, leaving: set<NhStub>, s: set<NhStub>): nat {
    |RoutesVia(routes, s)| + (if s == leaving then 1 else 0)
  }

  ghost predicate GroupsCounted(ecmp: Ecmp, routes: Routes, leaving: set<NhStub>) {
    && (forall s :: s in ecmp <==> |s| > 1 && GroupUses(routes, leaving, s) > 0)
    && (forall s :: s in ecmp ==> ecmp[s].refcnt == GroupUses(routes, leaving, s))
  }

  /** While one neighbour changes, the groups and flows of the destinations in `done`
      already follow keys1, the others still follow keys0. */
  ghost predicate MembersOk(ecmp: Ecmp, groups: map<nat, set<nat>>, touched: set<set<NhStub>>, keys0: Keys, keys1: Keys,
                            egress: Egress) {
    forall s :: s in ecmp ==>
      && ecmp[s].id in groups
      && groups[ecmp[s].id] == Ids(s, if s in touched then keys1 else keys0, egress)
  }

  ghost predicate FlowsOk(flows: map<Addr, Target>, routes: Routes, done: set<Addr>, keys0: Keys, keys1: Keys,
                          egress: Egress, ecmp: Ecmp) {
    && flows.Keys == routes.Keys
    && forall d :: d in routes ==>
         IsTarget(flows[d], routes[d], if d in done then keys1 else keys0, egress, ecmp)
  }

  ghost predicate HostsOk(table: map<Addr, nat>, hosts: set<NeighId>, keys: Keys, egress: Egress) {
    && (forall n :: n in hosts ==> n in keys && keys[n] in egress && n.addr in table
                                   && table[n.addr] == egress[keys[n]].id)
    && (forall a :: a in table ==> exists n :: n in hosts && n.addr == a)
  }

  ghost predicate Once<T>(s: seq<T>) {
    forall i, j :: 0 <= i < j < |s| ==> s[i] != s[j]
  }

  predicate Wants(routes: Routes, p: Pair) {
    p.dst in routes && p.nh in routes[p.dst]
  }

  /** Next hops of one route differ in more than the next-hop object id. */
  ghost predicate RouteOk(s: set<NhStub>) {
    forall a, b :: a in s && b in s && a.Id() == b.Id() ==> a == b
  }

  ghost predicate RoutesOk(routes: Routes) {
    forall d :: d in routes ==> RouteOk(routes[d])
  }

  // ------------------------------------------------- tables during an event

  ghost predicate SubKeys(keys: Keys, all: Keys) {
    forall n :: n in keys ==> n in all && all[n] == keys[n]
  }

  function Touched(routes: Routes, done: set<Addr>): set<set<NhStub>> {
    set d | d in done && d in routes :: routes[d]
  }

  /** The pair (d, nh) counts as resolved at this point of the event. */
  predicate Current(routes: Routes, done: set<Addr>, keys0: Keys, keys1: Keys, p: Pair) {
    Wants(routes, p) && p.nh.Id() in (if p.dst in done then keys1 else keys0)
  }

  /** Every pair that counts as resolved holds a reference. */
  ghost predicate Tracked(routes: Routes, done: set<Addr>, keys0: Keys, keys1: Keys, w: seq<Pair>) {
    forall p :: Current(routes, done, keys0, keys1, p) ==> p in w
  }

  /** Hosts, ECMP groups and prefix routes on the switch are what the event has produced so far:
      destinations in `done` follow keys1, the others keys0. */
  ghost predicate TablesOk(tHosts: map<Addr, nat>, tEcmp: map<nat, set<nat>>, tFlows: map<Addr, Target>, egress: Egress,
                           ecmp: Ecmp, hosts: set<NeighId>, all: Keys, routes: Routes, done: set<Addr>, keys0: Keys,
                           keys1: Keys) {
    && HostsOk(tHosts, hosts, all, egress)
    && MembersOk(ecmp, tEcmp, Touched(routes, done), keys0, keys1, egress)
    && FlowsOk(tFlows, routes, done, keys0, keys1, egress, ecmp)
  }

  ghost predicate SameIds(e0: Egress, e1: Egress) {
    forall k :: k in e0 && k in e1 ==> e0[k].id == e1[k].id
  }

  lemma IdsStable(s: set<NhStub>, keys: Keys, e0: Egress, e1: Egress)
    requires SameIds(e0, e1)
    requires forall nh :: nh in s && nh.Id() in keys ==> keys[nh.Id()] in e0 && keys[nh.Id()] in e1
    ensures Ids(s, keys, e0) == Ids(s, keys, e1)
  {
  }

  lemma IdsKeys(s: set<NhStub>, keys0: Keys, keys1: Keys, egress: Egress)
    requires forall nh :: nh in s ==> (nh.Id() in keys0 <==> nh.Id() in keys1)
                                      && (nh.Id() in keys0 ==> keys0[nh.Id()] == keys1[nh.Id()])
    ensures Ids(s, keys0, egress) == Ids(s, keys1, egress)
    ensures AnyResolved(s, keys0) == AnyResolved(s, keys1)
    ensures forall t, ecmp :: IsTarget(t, s, keys0, egress, ecmp) == IsTarget(t, s, keys1, egress, ecmp)
  {
  }

  ghost predicate CurrentHeld(e: Egress, routes: Routes, done: set<Addr>, keys0: Keys, keys1: Keys) {
    forall p :: Current(routes, done, keys0, keys1, p) ==>
                (if p.dst in done then keys1 else keys0)[p.nh.Id()] in e
  }

  lemma TrackedHeld(e: Egress, hosts: set<NeighId>, w: seq<Pair>, all: Keys, routes: Routes, done: set<Addr>,
                    keys0: Keys, keys1: Keys)
    requires Counted(e, hosts, w, all) && Tracked(routes, done, keys0, keys1, w)
    requires SubKeys(keys0, all) && SubKeys(keys1, all)
    ensures CurrentHeld(e, routes, done, keys0, keys1)
  {
    forall p | Current(routes, done, keys0, keys1, p) ensures all[p.nh.Id()] in e {
      HeldByPair(e, hosts, w, all, p);
    }
  }

  /** Changing only counts, or adding and dropping keys nobody uses, leaves routes and groups right. */
  lemma RoutingStable(tEcmp: map<nat, set<nat>>, tFlows: map<Addr, Target>, e0: Egress, e1: Egress, ecmp: Ecmp,
                      routes: Routes, done: set<Addr>, keys0: Keys, keys1: Keys)
    requires MembersOk(ecmp, tEcmp, Touched(routes, done), keys0, keys1, e0)
    requires FlowsOk(tFlows, routes, done, keys0, keys1, e0, ecmp)
    requires GroupsCounted(ecmp, routes, {}) && SameIds(e0, e1)
    requires CurrentHeld(e0, routes, done, keys0, keys1) && CurrentHeld(e1, routes, done, keys0, keys1)
    ensures MembersOk(ecmp, tEcmp, Touched(routes, done), keys0, keys1, e1)
    ensures FlowsOk(tFlows, routes, done, keys0, keys1, e1, ecmp)
  {
    forall s | s in ecmp ensures Ids(s, if s in Touched(routes, done) then keys1 else keys0, e0)
                              == Ids(s, if s in Touched(routes, done) then keys1 else keys0, e1) {
      var keys := if s in Touched(routes, done) then keys1 else keys0;
      var d := GroupHasRoute(ecmp, routes, done, s);
      forall nh | nh in s && nh.Id() in keys ensures keys[nh.Id()] in e0 && keys[nh.Id()] in e1 {
        assert Current(routes, done, keys0, keys1, Pair(d, nh));
      }
      IdsStable(s, keys, e0, e1);
    }
    forall d | d in routes
      ensures IsTarget(tFlows[d], routes[d], if d in done then keys1 else keys0, e1, ecmp) {
      var keys := if d in done then keys1 else keys0;
      forall nh | nh in routes[d] && nh.Id() in keys ensures keys[nh.Id()] in e0 && keys[nh.Id()] in e1 {
        assert Current(routes, done, keys0, keys1, Pair(d, nh));
      }
    }
  }

  /** Every host and every pair that counts as resolved has a live egress key. */
  ghost predicate HeldAll(e: Egress, hosts: set<NeighId>, all: Keys, routes: Routes, done: set<Addr>, keys0: Keys,
                          keys1: Keys) {
    && (forall n :: n in hosts ==> n in all && all[n] in e)
    && CurrentHeld(e, routes, done, keys0, keys1)
  }

  lemma CountedHeld(e: Egress, hosts: set<NeighId>, w: seq<Pair>, all: Keys, routes: Routes, done: set<Addr>,
                    keys0: Keys, keys1: Keys)
    requires Counted(e, hosts, w, all) && Tracked(routes, done, keys0, keys1, w)
    requires SubKeys(keys0, all) && SubKeys(keys1, all) && forall n :: n in hosts ==> n in all
    ensures HeldAll(e, hosts, all, routes, done, keys0, keys1)
  {
    TrackedHeld(e, hosts, w, all, routes, done, keys0, keys1);
    forall n | n in hosts ensures all[n] in e {
      HeldByHost(e, hosts, w, all, n);
    }
  }

  /** Tables do not depend on the counts of the keys in use, nor on keys nobody uses. */
  lemma TablesStable(sw: Switch, e0: Egress, e1: Egress, ecmp: Ecmp, hosts: set<NeighId>, all: Keys, routes: Routes,
                     done: set<Addr>, keys0: Keys, keys1: Keys)
    requires TablesOk(sw.hosts, sw.ecmp, sw.flows, e0, ecmp, hosts, all, routes, done, keys0, keys1)
    requires GroupsCounted(ecmp, routes, {}) && SameIds(e0, e1)
    requires CurrentHeld(e0, routes, done, keys0, keys1) && HeldAll(e1, hosts, all, routes, done, keys0, keys1)
    ensures TablesOk(sw.hosts, sw.ecmp, sw.flows, e1, ecmp, hosts, all, routes, done, keys0, keys1)
  {
    RoutingStable(sw.ecmp, sw.flows, e0, e1, ecmp, routes, done, keys0, keys1);
  }

  lemma TablesRecounted(sw: Switch, e0: Egress, e1: Egress, ecmp: Ecmp, hosts: set<NeighId>, w0: seq<Pair>,
                        w1: seq<Pair>, all: Keys, routes: Routes, done: set<Addr>, keys0: Keys, keys1: Keys)
    requires TablesOk(sw.hosts, sw.ecmp, sw.flows, e0, ecmp, hosts, all, routes, done, keys0, keys1)
    requires GroupsCounted(ecmp, routes, {})
    requires Counted(e0, hosts, w0, all) && Counted(e1, hosts, w1, all) && SameIds(e0, e1)
    requires Tracked(routes, done, keys0, keys1, w0) && Tracked(routes, done, keys0, keys1, w1)
    requires SubKeys(keys0, all) && SubKeys(keys1, all)
    ensures TablesOk(sw.hosts, sw.ecmp, sw.flows, e1, ecmp, hosts, all, routes, done, keys0, keys1)
  {
    hide TablesOk, Counted, Tracked, GroupsCounted, SameIds, SubKeys, HeldAll;
    HostsHaveKeys(sw, e0, ecmp, hosts, all, routes, done, keys0, keys1);
    TrackedHeld(e0, hosts, w0, all, routes, done, keys0, keys1);
    CountedHeld(e1, hosts, w1, all, routes, done, keys0, keys1);
    TablesStable(sw, e0, e1, ecmp, hosts, all, routes, done, keys0, keys1);
  }

  lemma HostsHaveKeys(sw: Switch, e: Egress, ecmp: Ecmp, hosts: set<NeighId>, all: Keys, routes: Routes,
                      done: set<Addr>, keys0: Keys, keys1: Keys)
    requires TablesOk(sw.hosts, sw.ecmp, sw.flows, e, ecmp, hosts, all, routes, done, keys0, keys1)
    ensures forall n :: n in hosts ==> n in all
  {
  }

  lemma GroupHasRoute(ecmp: Ecmp, routes: Routes, done: set<Addr>, s: set<NhStub>) returns (d: Addr)
    requires GroupsCounted(ecmp, routes, {}) && s in ecmp
    ensures d in routes && routes[d] == s
    ensures s in Touched(routes, done) <==> d in done
  {
    if s in Touched(routes, done) {
      d :| d in done && d in routes && routes[d] == s;
    } else {
      assert RoutesVia(routes, s) != {};
      d :| d in RoutesVia(routes, s);
    }
  }

  /** An egress key no remaining user resolves to is named nowhere on the switch. */
  lemma ReleaseSafe(sw: Switch, e0: Egress, pool: Pool, k: EgressKey, ecmp: Ecmp, ecmpPool: Pool,
                    owner: map<nat, set<NhStub>>, hosts: set<NeighId>, all: Keys, routes: Routes, done: set<Addr>,
                    keys0: Keys, keys1: Keys)
    requires EgressWired(e0, pool, sw.egress) && EcmpWired(ecmp, ecmpPool, sw.ecmp, owner)
    requires TablesOk(sw.hosts, sw.ecmp, sw.flows, e0, ecmp, hosts, all, routes, done, keys0, keys1)
    requires GroupsCounted(ecmp, routes, {})
    requires HeldAll(Released(e0, k), hosts, all, routes, done, keys0, keys1)
    requires LastRef(e0, k)
    ensures Unnamed(sw, e0[k].id)
  {
    forall g | g in sw.ecmp ensures e0[k].id !in sw.ecmp[g] {
      var s := owner[g];
      var keys := if s in Touched(routes, done) then keys1 else keys0;
      var d := GroupHasRoute(ecmp, routes, done, s);
      assert sw.ecmp[g] == Ids(s, keys, e0);
      if e0[k].id in sw.ecmp[g] {
        var nh :| nh in s && nh.Id() in keys && keys[nh.Id()] in e0 && e0[keys[nh.Id()]].id == e0[k].id;
        assert keys[nh.Id()] == k;
        assert Current(routes, done, keys0, keys1, Pair(d, nh));
      }
    }
    forall d | d in sw.flows ensures sw.flows[d] != ToEgress(e0[k].id) {
      var keys := if d in done then keys1 else keys0;
      if sw.flows[d] == ToEgress(e0[k].id) {
        var nh :| nh in routes[d] && nh.Id() in keys;
        assert keys[nh.Id()] == k;
        assert Current(routes, done, keys0, keys1, Pair(d, nh));
      }
    }
  }

  lemma IdsAdd(s: set<NhStub>, nh: NhStub, keys: Keys, egress: Egress)
    ensures Ids(s + {nh}, keys, egress)
         == Ids(s, keys, egress)
            + (if nh.Id() in keys && keys[nh.Id()] in egress then {egress[keys[nh.Id()]].id} else {})
  {
  }

  /** The cache resolves the next hops in s exactly as keys does. */
  ghost predicate CacheAgrees(cache: Cache, links: Links, s: set<NhStub>, keys: Keys) {
    forall nh :: nh in s ==>
      && (nh.Id() in cache.neighs <==> nh.Id() in keys)
      && (nh.Id() in keys ==> nh.ifindex in links
                              && KeyOf(links, nh.Id(), cache.neighs[nh.Id()]) == keys[nh.Id()])
  }

  /** The messages that point destination d at t, its ECMP group first when it has one. */
  function RedirectMsgs(d: Addr, s: set<NhStub>, ids: set<nat>, t: Target, ecmp: Ecmp): seq<Msg> {
    (if |s| > 1 && s in ecmp then [EcmpModify(ecmp[s].id, ids)] else []) + [RouteSet(d, t)]
  }

  function Redirected(sw: Switch, d: Addr, s: set<NhStub>, ids: set<nat>, t: Target, ecmp: Ecmp): Switch {
    sw.(flows := sw.flows[d := t], ecmp := if |s| > 1 && s in ecmp then sw.ecmp[ecmp[s].id := ids] else sw.ecmp)
  }

  lemma FlowsAdvance(flows: map<Addr, Target>, routes: Routes, done: set<Addr>, keys0: Keys, keys1: Keys,
                     egress: Egress, ecmp: Ecmp, d: Addr, t: Target)
    requires FlowsOk(flows, routes, done, keys0, keys1, egress, ecmp)
    requires d in routes && IsTarget(t, routes[d], keys1, egress, ecmp)
    ensures FlowsOk(flows[d := t], routes, done + {d}, keys0, keys1, egress, ecmp)
  {
  }

  lemma MembersAdvance(groups: map<nat, set<nat>>, groups': map<nat, set<nat>>, egress: Egress, ecmp: Ecmp, pool: Pool,
                       owner: map<nat, set<NhStub>>, touched: set<set<NhStub>>, keys0: Keys, keys1: Keys,
                       s: set<NhStub>)
    requires MembersOk(ecmp, groups, touched, keys0, keys1, egress) && EcmpWired(ecmp, pool, groups, owner)
    requires forall x :: x in ecmp ==> |x| > 1
    requires groups' == if |s| > 1 && s in ecmp then groups[ecmp[s].id := Ids(s, keys1, egress)] else groups
    ensures MembersOk(ecmp, groups', touched + {s}, keys0, keys1, egress)
  {
    forall x | x in ecmp && x != s && s in ecmp ensures ecmp[x].id != ecmp[s].id {
      assert owner[ecmp[x].id] == x;
    }
  }

  /** Rewriting the group and the flow of destination d for keys1 moves d into `done`. */
  lemma TablesAdvance(sw: Switch, egress: Egress, ecmp: Ecmp, pool: Pool, owner: map<nat, set<NhStub>>,
                      hosts: set<NeighId>, all: Keys, routes: Routes, done: set<Addr>, keys0: Keys, keys1: Keys,
                      d: Addr, t: Target, sw': Switch)
    requires TablesOk(sw.hosts, sw.ecmp, sw.flows, egress, ecmp, hosts, all, routes, done, keys0, keys1)
    requires EcmpWired(ecmp, pool, sw.ecmp, owner)
    requires d in routes && (|routes[d]| > 1 ==> routes[d] in ecmp)
    requires forall s :: s in ecmp ==> |s| > 1
    requires IsTarget(t, routes[d], keys1, egress, ecmp)
    requires sw' == Redirected(sw, d, routes[d], Ids(routes[d], keys1, egress), t, ecmp)
    ensures TablesOk(sw'.hosts, sw'.ecmp, sw'.flows, egress, ecmp, hosts, all, routes, done + {d}, keys0, keys1)
  {
    assert Touched(routes, done + {d}) == Touched(routes, done) + {routes[d]};
    hide MembersOk, FlowsOk, HostsOk, Touched, IsTarget;
    MembersAdvance(sw.ecmp, sw'.ecmp, egress, ecmp, pool, owner, Touched(routes, done), keys0, keys1, routes[d]);
    FlowsAdvance(sw.flows, routes, done, keys0, keys1, egress, ecmp, d, t);
  }

  lemma TargetLive(t: Target, s: set<NhStub>, keys: Keys, egress: Egress, ecmp: Ecmp, pool: Pool, ecmpPool: Pool,
                   owner: map<nat, set<NhStub>>, sw: Switch)
    requires EgressWired(egress, pool, sw.egress) && EcmpWired(ecmp, ecmpPool, sw.ecmp, owner)
    requires IsTarget(t, s, keys, egress, ecmp)
    ensures LiveTarget(sw, t)
    ensures Ids(s, keys, egress) <= sw.egress.Keys
  {
  }

  lemma LiveAfter(sw: Switch, d: Addr, s: set<NhStub>, ids: set<nat>, t: Target, ecmp: Ecmp)
    requires LiveTarget(sw, t)
    ensures LiveTarget(Redirected(sw, d, s, ids, t, ecmp), t)
  {
  }

  /** The target the engine picks from the ids of the resolved next hops is the right one. */
  lemma ResolvedTarget(s: set<NhStub>, keys: Keys, egress: Egress, ecmp: Ecmp, nh: NhStub, t: Target)
    requires nh in s && nh.Id() in keys && keys[nh.Id()] in egress
    requires |s| > 1 ==> s in ecmp && t == ToEcmp(ecmp[s].id)
    requires |s| <= 1 ==> t.ToEgress? && t.id in Ids(s, keys, egress)
    ensures IsTarget(t, s, keys, egress, ecmp)
  {
    if |s| <= 1 {
      forall x | x in s ensures x == nh {
        if x != nh { SubsetSize({x, nh}, s); }
      }
    }
  }

  /** One more destination follows keys1, and its pair for neighbour n holds a reference. */
  lemma TrackedAdvanceUp(routes: Routes, done: set<Addr>, keys0: Keys, n: NeighId, k: EgressKey, w: seq<Pair>, p: Pair)
    requires Tracked(routes, done, keys0, keys0[n := k], w) && RoutesOk(routes)
    requires Wants(routes, p) && p.nh.Id() == n
    ensures Tracked(routes, done + {p.dst}, keys0, keys0[n := k], w + [p])
    ensures Tracked(routes, done, keys0, keys0[n := k], w + [p])
  {
  }

  lemma GroupPresent(ecmp: Ecmp, routes: Routes, d: Addr)
    requires GroupsCounted(ecmp, routes, {}) && d in routes && |routes[d]| > 1
    ensures routes[d] in ecmp
  {
    assert d in RoutesVia(routes, routes[d]);
  }

  /** The other resolved next hops of p's route have live egress keys. */
  lemma SiblingsHeld(e: Egress, hosts: set<NeighId>, w: seq<Pair>, all: Keys, routes: Routes, done: set<Addr>,
                     keys0: Keys, keys1: Keys, p: Pair, n: NeighId)
    requires Counted(e, hosts, w, all) && Tracked(routes, done, keys0, keys1, w) && RoutesOk(routes)
    requires SubKeys(keys0, all) && SubKeys(keys1, all)
    requires Wants(routes, p) && p.nh.Id() == n
    requires forall x :: x != n ==> (x in keys0 <==> x in keys1)
    ensures RouteOk(routes[p.dst])
    ensures forall nh :: nh in routes[p.dst] && nh != p.nh && nh.Id() in keys1 ==> keys1[nh.Id()] in e
  {
    TrackedHeld(e, hosts, w, all, routes, done, keys0, keys1);
    forall nh | nh in routes[p.dst] && nh != p.nh && nh.Id() in keys1 ensures keys1[nh.Id()] in e {
      assert Current(routes, done, keys0, keys1, Pair(p.dst, nh));
    }
  }

  // ------------------------------------------------------------------- lists

  function Without<T>(s: seq<T>, i: nat): seq<T>
    requires i < |s|
  {
    s[..i] + s[i + 1..]
  }

  lemma WithoutAt<T>(s: seq<T>, i: nat)
    requires i < |s|
    ensures |Without(s, i)| == |s| - 1 && forall j :: 0 <= j < i ==> Without(s, i)[j] == s[j]
  {
  }

  lemma OnceWithout<T>(s: seq<T>, i: nat)
    requires Once(s) && i < |s|
    ensures Once(Without(s, i))
    ensures forall x :: x in Without(s, i) <==> x in s && x != s[i]
  {
  }

  /** Each (destination, next hop) pair of each route is in exactly one list, once:
      watched while it counts as resolved, waiting otherwise. */
  ghost predicate ListsOk(waiting: seq<Pair>, watching: seq<Pair>, routes: Routes, done: set<Addr>, keys0: Keys,
                          keys1: Keys) {
    && Once(waiting) && Once(watching)
    && (forall p :: p in watching <==> Current(routes, done, keys0, keys1, p))
    && (forall p :: p in waiting <==> Wants(routes, p) && !Current(routes, done, keys0, keys1, p))
  }

  /** Both lists, which is just the second when the first is empty. */
  function Plus<T>(a: seq<T>, b: seq<T>): seq<T> {
    if a == [] then b else a + b
  }

  lemma PlusOne<T>(a: seq<T>, b: seq<T>, x: T)
    ensures Plus(a, b + [x]) == Plus(a, b) + [x]
  {
  }

  lemma PlusNone<T>(b: seq<T>)
    ensures Plus([], b) == b
  {
  }

  lemma ListsUp(waiting: seq<Pair>, watching: seq<Pair>, routes: Routes, done: set<Addr>, keys0: Keys, n: NeighId,
                k: EgressKey, i: nat)
    requires ListsOk(waiting, watching, routes, done, keys0, keys0[n := k]) && RoutesOk(routes)
    requires n !in keys0 && i < |waiting| && waiting[i].nh.Id() == n
    ensures waiting[i].dst !in done
    ensures ListsOk(Without(waiting, i), watching + [waiting[i]], routes, done + {waiting[i].dst}, keys0, keys0[n := k])
  {
    var p := waiting[i];
    OnceWithout(waiting, i);
    assert p in waiting && RouteOk(routes[p.dst]);
  }

  lemma ListsDown(waiting: seq<Pair>, watching: seq<Pair>, routes: Routes, done: set<Addr>, keys0: Keys, n: NeighId,
                  i: nat)
    requires ListsOk(waiting, watching, routes, done, keys0, keys0 - {n}) && RoutesOk(routes)
    requires i < |watching| && watching[i].nh.Id() == n
    ensures watching[i].dst !in done
    ensures ListsOk(waiting + [watching[i]], Without(watching, i), routes, done + {watching[i].dst}, keys0, keys0 - {n})
  {
    var p := watching[i];
    OnceWithout(watching, i);
    assert p in watching && RouteOk(routes[p.dst]);
  }

  lemma KeysOutside(keys: Keys, keys': Keys, ns: set<NeighId>)
    requires keys - ns == keys' - ns
    ensures forall m :: m !in ns ==> (m in keys <==> m in keys') && (m in keys ==> keys[m] == keys'[m])
  {
    assert forall m :: m !in ns ==> (m in keys <==> m in keys - ns) && (m in keys' <==> m in keys' - ns);
    assert forall m :: m !in ns && m in keys ==> keys[m] == (keys - ns)[m] == keys'[m];
  }

  /** Once no destination left behind uses a neighbour in ns, all tables follow keys1. */
  lemma TablesFinish(tHosts: map<Addr, nat>, tEcmp: map<nat, set<nat>>, tFlows: map<Addr, Target>, egress: Egress,
                     ecmp: Ecmp, hosts: set<NeighId>, all: Keys, routes: Routes, done: set<Addr>, keys0: Keys,
                     keys1: Keys, ns: set<NeighId>)
    requires TablesOk(tHosts, tEcmp, tFlows, egress, ecmp, hosts, all, routes, done, keys0, keys1)
    requires GroupsCounted(ecmp, routes, {})
    requires keys0 - ns == keys1 - ns
    requires forall d, nh :: d in routes && d !in done && nh in routes[d] ==> nh.Id() !in ns
    requires forall h :: h in hosts ==> h in keys1 && keys1[h] == all[h]
    ensures TablesOk(tHosts, tEcmp, tFlows, egress, ecmp, hosts, keys1, routes, {}, keys1, keys1)
  {
    KeysOutside(keys0, keys1, ns);
    forall s | s in ecmp && s !in Touched(routes, done) ensures Ids(s, keys0, egress) == Ids(s, keys1, egress) {
      var d := GroupHasRoute(ecmp, routes, done, s);
      IdsKeys(s, keys0, keys1, egress);
    }
    forall d | d in routes && d !in done ensures IsTarget(tFlows[d], routes[d], keys1, egress, ecmp) {
      IdsKeys(routes[d], keys0, keys1, egress);
    }
  }

  function HostNeighs(keys: Keys): set<NeighId> {
    set n | n in keys && !IsLinkLocal(n.addr)
  }

  /** The cache shows the routes through a neighbour in ns, and resolves their next hops as keys does. */
  ghost predicate CacheSync(cache: Cache, links: Links, routes: Routes, keys: Keys, ns: set<NeighId>) {
    forall d, nh :: d in routes && nh in routes[d] && nh.Id() in ns ==>
      && d in cache.routes && cache.routes[d].nhs == routes[d]
      && CacheAgrees(cache, links, routes[d], keys)
  }

  // ------------------------------------------------- a route on its way out

  /** Destinations whose flow already points to the controller, although lists and groups still follow their
      next hops, with the target that these would have. */
  type Aside = map<Addr, Target>

  function Virtual(flows: map<Addr, Target>, aside: Aside): map<Addr, Target> {
    if aside == map[] then flows else flows + aside
  }

  ghost predicate Muted(flows: map<Addr, Target>, aside: Aside) {
    forall d :: d in aside ==> d in flows && flows[d] == ToController
  }

  /** No route on its way out goes through n. */
  ghost predicate NotAside(routes: Routes, aside: Aside, n: NeighId) {
    forall d, nh :: d in aside && d in routes && nh in routes[d] ==> nh.Id() != n
  }

  lemma VirtualNone(flows: map<Addr, Target>)
    ensures Virtual(flows, map[]) == flows && Muted(flows, map[])
  {
  }

  lemma VirtualSet(flows: map<Addr, Target>, aside: Aside, d: Addr, t: Target)
    requires d !in aside
    ensures Virtual(flows[d := t], aside) == Virtual(flows, aside)[d := t]
    ensures Muted(flows, aside) ==> Muted(flows[d := t], aside)
  {
  }

  predicate NoRouteVia(routes: Routes, n: NeighId) {
    forall d | d in routes :: forall nh | nh in routes[d] :: nh.Id() != n
  }

  lemma NoPairVia(routes: Routes, keys: Keys, keys': Keys, ns: set<NeighId>)
    requires forall n :: n in ns ==> NoRouteVia(routes, n)
    requires forall m :: m !in ns ==> (m in keys <==> m in keys') && (m in keys ==> keys[m] == keys'[m])
    ensures forall p :: Current(routes, {}, keys, keys, p) == Current(routes, {}, keys', keys', p)
    ensures forall p, k :: Wants(routes, p) ==> (Resolves(p, keys, k) <==> Resolves(p, keys', k))
    ensures forall d, nh :: d in routes && nh in routes[d] ==> nh.Id() !in ns
  {
  }

  /** With nothing done yet, the tables do not depend on the key map to come. */
  lemma TablesLater(sw: Switch, egress: Egress, ecmp: Ecmp, hosts: set<NeighId>, routes: Routes, keys: Keys,
                    keys': Keys)
    requires TablesOk(sw.hosts, sw.ecmp, sw.flows, egress, ecmp, hosts, keys, routes, {}, keys, keys)
    ensures TablesOk(sw.hosts, sw.ecmp, sw.flows, egress, ecmp, hosts, keys, routes, {}, keys, keys')
  {
  }

  /** A neighbour that joins with its host entry: counts and host table follow. */
  lemma HostCounted(e0: Egress, hosts: set<NeighId>, w: seq<Pair>, keys0: Keys, n: NeighId, k: EgressKey, id: nat)
    requires Counted(e0, hosts, w, keys0) && n !in hosts && (n in keys0 ==> keys0[n] == k)
    requires forall p :: p in w ==> p.nh.Id() in keys0
    requires forall h :: h in hosts ==> h in keys0
    ensures Counted(Acquired(e0, k, id), hosts + {n}, w, keys0[n := k])
  {
    hide Counted, Acquired;
    CountedKeys(e0, hosts, w, keys0, keys0[n := k]);
    CountedAddHost(e0, hosts, w, keys0[n := k], n, id);
  }

  lemma HostListed(tHosts: map<Addr, nat>, e0: Egress, hosts: set<NeighId>, keys0: Keys, n: NeighId, k: EgressKey,
                   id: nat)
    requires HostsOk(tHosts, hosts, keys0, e0)
    requires (n in keys0 ==> keys0[n] == k) && (k in e0 ==> e0[k].id == id)
    requires forall h :: h in hosts ==> h.addr != n.addr
    ensures HostsOk(tHosts[n.addr := id], hosts + {n}, keys0[n := k], Acquired(e0, k, id))
  {
  }

  lemma AcquiredHeld(e0: Egress, k: EgressKey, id: nat, routes: Routes, keys: Keys)
    requires CurrentHeld(e0, routes, {}, keys, keys)
    requires k in e0 ==> e0[k].id == id
    ensures CurrentHeld(Acquired(e0, k, id), routes, {}, keys, keys)
    ensures SameIds(e0, Acquired(e0, k, id))
  {
  }

  /** With nothing done yet, the key map to come does not matter. */
  lemma TrackedEmpty(routes: Routes, keys: Keys, a: Keys, b: Keys, w: seq<Pair>, ecmp: Ecmp, tEcmp: map<nat, set<nat>>,
                     tFlows: map<Addr, Target>, e: Egress)
    ensures Tracked(routes, {}, keys, a, w) == Tracked(routes, {}, keys, b, w)
    ensures MembersOk(ecmp, tEcmp, Touched(routes, {}), keys, a, e)
         == MembersOk(ecmp, tEcmp, Touched(routes, {}), keys, b, e)
    ensures FlowsOk(tFlows, routes, {}, keys, a, e, ecmp) == FlowsOk(tFlows, routes, {}, keys, b, e, ecmp)
  {
  }

  lemma WaitingWanted(waiting: seq<Pair>, watching: seq<Pair>, routes: Routes, done: set<Addr>, keys0: Keys,
                      keys1: Keys, i: nat)
    requires ListsOk(waiting, watching, routes, done, keys0, keys1) && i < |waiting|
    ensures Wants(routes, waiting[i])
    ensures keys0 == keys1 ==> waiting[i].nh.Id() !in keys0
  {
  }

  /** When no waiting pair is left for n, every destination using n has been handled. */
  lemma RisenAll(waiting: seq<Pair>, watching: seq<Pair>, routes: Routes, done: set<Addr>, keys0: Keys, keys1: Keys,
                 n: NeighId)
    requires ListsOk(waiting, watching, routes, done, keys0, keys1)
    requires n !in keys0 && n in keys1 && keys0 == keys1 - {n}
    requires forall j :: 0 <= j < |waiting| ==> waiting[j].nh.Id() != n
    ensures forall d, nh :: d in routes && d !in done && nh in routes[d] ==> nh.Id() != n
    ensures ListsOk(waiting, watching, routes, {}, keys1, keys1)
    ensures Tracked(routes, {}, keys1, keys1, watching)
    ensures keys0 - {n} == keys1 - {n}
  {
    assert forall p :: p in waiting ==> p.nh.Id() != n;
    forall d, nh | d in routes && d !in done && nh in routes[d] ensures nh.Id() != n {
      var p := Pair(d, nh);
      assert p in waiting || p in watching;
    }
    assert forall m :: m in keys0 <==> m in keys1 && m != n;
    forall p | Wants(routes, p)
      ensures Current(routes, done, keys0, keys1, p) == Current(routes, {}, keys1, keys1, p) {
    }
  }

  lemma ListsEmpty(waiting: seq<Pair>, watching: seq<Pair>, routes: Routes, keys: Keys, a: Keys, b: Keys)
    ensures ListsOk(waiting, watching, routes, {}, keys, a) == ListsOk(waiting, watching, routes, {}, keys, b)
  {
  }

  lemma HostNeighsAdd(keys: Keys, n: NeighId, k: EgressKey)
    ensures HostNeighs(keys[n := k]) == HostNeighs(keys) + (if IsLinkLocal(n.addr) then {} else {n})
    ensures HostNeighs(keys - {n}) == HostNeighs(keys) - {n}
  {
  }

  // -------------------------------------------------- a neighbour goes away

  function Others(s: set<NhStub>, n: NeighId): set<NhStub> {
    set nh | nh in s && nh.Id() != n
  }

  ghost predicate CacheRoutes(cache: Cache, routes: Routes) {
    cache.routes.Keys == routes.Keys && forall d :: d in routes ==> cache.routes[d].nhs == routes[d]
  }

  ghost predicate Via(s: set<NhStub>, n: NeighId) {
    exists nh :: nh in s && nh.Id() == n
  }

  /** The cache agrees about the other next hops of the routes through neighbour n; n itself it may
      or may not still list. */
  ghost predicate CacheSyncBut(cache: Cache, links: Links, routes: Routes, keys: Keys, n: NeighId) {
    && CacheRoutes(cache, routes)
    && forall d :: d in routes && Via(routes[d], n) ==> CacheAgrees(cache, links, Others(routes[d], n), keys)
  }

  /** Egress ids of the next hops in s, as the cache resolves them. */
  ghost function CachedIds(s: set<NhStub>, cache: Cache, links: Links, egress: Egress): set<nat> {
    set nh | nh in s && nh.Id() in cache.neighs && nh.ifindex in links
             && KeyOf(links, nh.Id(), cache.neighs[nh.Id()]) in egress
           :: egress[KeyOf(links, nh.Id(), cache.neighs[nh.Id()])].id
  }

  lemma CachedIdsAdd(s: set<NhStub>, nh: NhStub, cache: Cache, links: Links, egress: Egress)
    ensures CachedIds(s + {nh}, cache, links, egress)
         == CachedIds(s, cache, links, egress) + CachedIds({nh}, cache, links, egress)
  {
  }

  lemma CachedIdsAgree(s: set<NhStub>, gone: NhStub, cache: Cache, links: Links, keys: Keys, egress: Egress)
    requires CacheAgrees(cache, links, s - {gone}, keys) && gone.Id() !in keys
    ensures CachedIds(s - {gone}, cache, links, egress) == Ids(s, keys, egress)
  {
  }

  /** Where a route goes that has lost a next hop and has the ids left. */
  function AfterLoss(s: set<NhStub>, ids: set<nat>, ecmp: Ecmp): Target {
    if |s| > 1 && s in ecmp && ids != {} then ToEcmp(ecmp[s].id) else ToController
  }

  /** What a watched pair says to the switch when its next hop, with egress key k, is gone. */
  ghost function UnreachMsgs(p: Pair, k: EgressKey, cache: Cache, links: Links, ecmp: Ecmp, egress: Egress): seq<Msg> {
    if p.dst !in cache.routes then ReleaseMsgs(egress, k)
    else
      var s := cache.routes[p.dst].nhs;
      var ids := CachedIds(s - {p.nh}, cache, links, egress);
      RedirectMsgs(p.dst, s, ids, AfterLoss(s, ids, ecmp), ecmp) + ReleaseMsgs(egress, k)
  }

  /** The egress table and the message stream once every pair of w for neighbour n was told that n is gone. */
  ghost function Notified(w: seq<Pair>, n: NeighId, k: EgressKey, cache: Cache, links: Links, ecmp: Ecmp,
                          egress: Egress, log: seq<Msg>): (Egress, seq<Msg>) {
    if w == [] then (egress, log)
    else if w[0].nh.Id() != n then Notified(w[1..], n, k, cache, links, ecmp, egress, log)
    else Notified(w[1..], n, k, cache, links, ecmp, Released(egress, k),
                  log + UnreachMsgs(w[0], k, cache, links, ecmp, egress))
  }

  /** The watched pairs that are left then. */
  function Off(w: seq<Pair>, n: NeighId): seq<Pair> {
    if w == [] then []
    else (if w[0].nh.Id() == n then [] else [w[0]]) + Off(w[1..], n)
  }

  /** The walk at place i: what is still to come, after a pair for n or after another one. */
  lemma OffStep(w: seq<Pair>, i: nat, n: NeighId, k: EgressKey, cache: Cache, links: Links, ecmp: Ecmp, egress: Egress,
                log: seq<Msg>)
    requires i < |w|
    ensures w[i].nh.Id() == n ==>
              && Without(w, i)[..i] + Off(Without(w, i)[i..], n) == w[..i] + Off(w[i..], n)
              && Notified(Without(w, i)[i..], n, k, cache, links, ecmp, Released(egress, k),
                          log + UnreachMsgs(w[i], k, cache, links, ecmp, egress))
              == Notified(w[i..], n, k, cache, links, ecmp, egress, log)
    ensures w[i].nh.Id() != n ==>
              && w[..i + 1] + Off(w[i + 1..], n) == w[..i] + Off(w[i..], n)
              && Notified(w[i + 1..], n, k, cache, links, ecmp, egress, log)
              == Notified(w[i..], n, k, cache, links, ecmp, egress, log)
  {
    hide UnreachMsgs, Released;
    assert w[i..][1..] == w[i + 1..];
    assert Without(w, i)[..i] == w[..i] && Without(w, i)[i..] == w[i + 1..];
    assert w[..i + 1] == w[..i] + [w[i]];
  }

  lemma OffEnds(w: seq<Pair>, n: NeighId, k: EgressKey, cache: Cache, links: Links, ecmp: Ecmp, egress: Egress,
                log: seq<Msg>)
    ensures w[..0] + Off(w[0..], n) == Off(w, n) && w[..|w|] + Off(w[|w|..], n) == w
    ensures Notified(w[0..], n, k, cache, links, ecmp, egress, log)
         == Notified(w, n, k, cache, links, ecmp, egress, log)
    ensures Notified(w[|w|..], n, k, cache, links, ecmp, egress, log) == (egress, log)
  {
    assert w[0..] == w && w[..0] == [] && w[|w|..] == [] && w[..|w|] == w;
  }

  lemma {:induction false} NotifiedGrows(w: seq<Pair>, n: NeighId, k: EgressKey, cache: Cache, links: Links, ecmp: Ecmp,
                                         egress: Egress, log: seq<Msg>)
    ensures log <= Notified(w, n, k, cache, links, ecmp, egress, log).1
  {
    if w != [] {
      if w[0].nh.Id() != n {
        NotifiedGrows(w[1..], n, k, cache, links, ecmp, egress, log);
      } else {
        NotifiedGrows(w[1..], n, k, cache, links, ecmp, Released(egress, k),
                      log + UnreachMsgs(w[0], k, cache, links, ecmp, egress));
      }
    }
  }

  lemma {:induction false} NotifiedNone(w: seq<Pair>, n: NeighId, k: EgressKey, cache: Cache, links: Links, ecmp: Ecmp,
                                        egress: Egress, log: seq<Msg>)
    requires forall q :: q in w ==> q.nh.Id() != n
    ensures Notified(w, n, k, cache, links, ecmp, egress, log) == (egress, log)
  {
    if w != [] {
      assert w[0] in w;
      NotifiedNone(w[1..], n, k, cache, links, ecmp, egress, log);
    }
  }

  /** The same with the neighbour's host entry, which goes first. */
  ghost function NeighGone(w: seq<Pair>, n: NeighId, k: EgressKey, cache: Cache, links: Links, ecmp: Ecmp,
                           egress: Egress, log: seq<Msg>): (Egress, seq<Msg>) {
    if IsLinkLocal(n.addr) then Notified(w, n, k, cache, links, ecmp, egress, log)
    else Notified(w, n, k, cache, links, ecmp, Released(egress, k), log + [HostRemove(n.addr)] + ReleaseMsgs(egress, k))
  }

  lemma TrackedAdvanceDown(routes: Routes, done: set<Addr>, keys0: Keys, n: NeighId, w: seq<Pair>, i: nat)
    requires Tracked(routes, done, keys0, keys0 - {n}, w)
    requires i < |w| && w[i].nh.Id() == n
    ensures Tracked(routes, done + {w[i].dst}, keys0, keys0 - {n}, Without(w, i))
    ensures Tracked(routes, done + {w[i].dst}, keys0, keys0 - {n}, w)
  {
    var d := w[i].dst;
    forall q | Current(routes, done + {d}, keys0, keys0 - {n}, q) ensures q in Without(w, i) {
      assert Current(routes, done, keys0, keys0 - {n}, q);
      var j :| 0 <= j < |w| && w[j] == q;
      assert j != i;
      assert Without(w, i)[if j < i then j else j - 1] == q;
    }
  }

  /** The target after one next hop is lost. */
  lemma RemainingTarget(s: set<NhStub>, keys: Keys, egress: Egress, ecmp: Ecmp, t: Target, gone: NhStub)
    requires gone in s && gone.Id() !in keys && (|s| > 1 ==> s in ecmp)
    requires forall nh :: nh in s && nh.Id() in keys ==> keys[nh.Id()] in egress
    requires t == if Ids(s, keys, egress) != {} && |s| > 1 then ToEcmp(ecmp[s].id) else ToController
    ensures IsTarget(t, s, keys, egress, ecmp)
  {
    if AnyResolved(s, keys) {
      var nh :| nh in s && nh.Id() in keys;
      assert egress[keys[nh.Id()]].id in Ids(s, keys, egress);
      SubsetSize({nh, gone}, s);
    }
  }

  /** When no watched pair is left for n, every destination using n has been handled. */
  lemma FallenAll(waiting: seq<Pair>, watching: seq<Pair>, routes: Routes, done: set<Addr>, keys0: Keys, n: NeighId)
    requires ListsOk(waiting, watching, routes, done, keys0, keys0 - {n}) && n in keys0
    requires forall j :: 0 <= j < |watching| ==> watching[j].nh.Id() != n
    ensures forall d, nh :: d in routes && d !in done && nh in routes[d] ==> nh.Id() != n
    ensures ListsOk(waiting, watching, routes, {}, keys0 - {n}, keys0 - {n})
    ensures Tracked(routes, {}, keys0 - {n}, keys0 - {n}, watching)
    ensures forall p, k :: p in watching ==> (Resolves(p, keys0, k) <==> Resolves(p, keys0 - {n}, k))
  {
    var keys1 := keys0 - {n};
    assert forall p :: p in watching ==> p.nh.Id() != n;
    forall d, nh | d in routes && d !in done && nh in routes[d] ensures nh.Id() != n {
      var p := Pair(d, nh);
      assert p in waiting || p in watching;
    }
    forall p | Wants(routes, p)
      ensures Current(routes, done, keys0, keys1, p) == Current(routes, {}, keys1, keys1, p) {
    }
  }

  lemma OthersOf(s: set<NhStub>, gone: NhStub, n: NeighId)
    requires RouteOk(s) && gone in s && gone.Id() == n
    ensures s - {gone} == Others(s, n)
  {
  }

  lemma ReleasedSameIds(e: Egress, k: EgressKey)
    ensures SameIds(e, Released(e, k))
  {
  }

  /** The host table has no interface column, so host addresses must be distinct. */
  predicate DistinctHosts(hosts: set<NeighId>) {
    forall a, b | a in hosts && b in hosts && a.addr == b.addr :: a == b
  }

  lemma HostUnlisted(tHosts: map<Addr, nat>, e: Egress, hosts: set<NeighId>, keys: Keys, n: NeighId)
    requires HostsOk(tHosts, hosts, keys, e) && DistinctHosts(hosts) && n in hosts
    ensures HostsOk(tHosts - {n.addr}, hosts - {n}, keys, e)
  {
  }

  lemma HostNeighsMember(keys: Keys, n: NeighId)
    ensures n in HostNeighs(keys) <==> n in keys && !IsLinkLocal(n.addr)
  {
  }

  lemma WatchedWanted(waiting: seq<Pair>, watching: seq<Pair>, routes: Routes, done: set<Addr>, keys0: Keys,
                      keys1: Keys, i: nat)
    requires ListsOk(waiting, watching, routes, done, keys0, keys1) && i < |watching|
    ensures Wants(routes, watching[i])
  {
    assert watching[i] in watching;
  }

  // --------------------------------------------------- a route comes or goes

  /** New list entries for route (d, s): one for each next hop, by whether it is resolved. */
  ghost predicate Entries(l: seq<Pair>, d: Addr, s: set<NhStub>, keys: Keys, resolved: bool) {
    Once(l) && forall p :: p in l <==> p.dst == d && p.nh in s && (p.nh.Id() in keys <==> resolved)
  }

  /** The next hops of a route that are waited for while they are unresolved. */
  function Heard(d: Addr, s: set<NhStub>): set<NhStub> {
    if Silent(d) then {} else s
  }

  /** No unresolved next hop is left out. */
  ghost predicate Awaited(d: Addr, s: set<NhStub>, keys: Keys) {
    Silent(d) ==> forall nh :: nh in s ==> nh.Id() in keys
  }

  lemma EntriesAwaited(u: seq<Pair>, d: Addr, s: set<NhStub>, keys: Keys)
    requires Entries(u, d, Heard(d, s), keys, false)
    ensures Awaited(d, s, keys) ==> Entries(u, d, s, keys, false)
    ensures Silent(d) ==> u == []
  {
    assert |u| > 0 ==> u[0] in u;
  }

  lemma EntriesAdd(l: seq<Pair>, d: Addr, s: set<NhStub>, keys: Keys, resolved: bool, nh: NhStub)
    requires Entries(l, d, s, keys, resolved) && nh !in s
    ensures (nh.Id() in keys <==> resolved) ==> Entries(l + [Pair(d, nh)], d, s + {nh}, keys, resolved)
    ensures !(nh.Id() in keys <==> resolved) ==> Entries(l, d, s + {nh}, keys, resolved)
  {
  }

  lemma EntriesHeard(u: seq<Pair>, d: Addr, s: set<NhStub>, keys: Keys, nh: NhStub)
    requires Entries(u, d, Heard(d, s), keys, false) && nh !in s
    ensures Entries(if nh.Id() !in keys && !Silent(d) then u + [Pair(d, nh)] else u, d, Heard(d, s + {nh}), keys, false)
  {
  }

  lemma IdsNone(keys: Keys, egress: Egress)
    ensures Ids({}, keys, egress) == {}
  {
  }

  lemma AcquiredCurrent(e0: Egress, e1: Egress, routes: Routes, keys: Keys)
    requires CurrentHeld(e0, routes, {}, keys, keys) && forall k :: k in e0 ==> k in e1
    ensures CurrentHeld(e1, routes, {}, keys, keys)
  {
  }

  lemma RoutesViaSet(routes: Routes, d: Addr, s: set<NhStub>, x: set<NhStub>)
    ensures |RoutesVia(routes[d := s], x)|
         == |RoutesVia(routes - {d}, x)| + (if x == s then 1 else 0)
  {
    if x == s {
      assert RoutesVia(routes[d := s], x) == RoutesVia(routes - {d}, x) + {d};
    } else {
      assert RoutesVia(routes[d := s], x) == RoutesVia(routes - {d}, x);
    }
  }

  lemma RoutesViaDrop(routes: Routes, d: Addr, x: set<NhStub>)
    ensures |RoutesVia(routes, x)|
         == |RoutesVia(routes - {d}, x)| + (if d in routes && routes[d] == x then 1 else 0)
  {
    if d in routes {
      RoutesViaSet(routes, d, routes[d], x);
      assert routes[d := routes[d]] == routes;
    } else {
      assert routes - {d} == routes;
    }
  }

  lemma GroupsInstalled(ecmp: Ecmp, ecmp': Ecmp, routes: Routes, d: Addr, s: set<NhStub>, id: nat)
    requires GroupsCounted(ecmp, routes, {})
    requires ecmp' == if |s| > 1
                      then ecmp[s := L3Interface(id, 1 + (if s in ecmp then ecmp[s].refcnt else 0))] else ecmp
    ensures GroupsCounted(ecmp', routes[d := s], if d in routes then routes[d] else {})
  {
    var old_ := if d in routes then routes[d] else {};
    forall x | |x| > 1
      ensures GroupUses(routes[d := s], old_, x) == GroupUses(routes, {}, x) + (if x == s then 1 else 0) {
      RoutesViaSet(routes, d, s, x);
      RoutesViaDrop(routes, d, x);
    }
  }

  lemma GroupsParting(ecmp: Ecmp, routes: Routes, d: Addr)
    requires GroupsCounted(ecmp, routes, {}) && d in routes
    ensures GroupsCounted(ecmp, routes - {d}, routes[d])
  {
    forall x | |x| > 1 ensures GroupUses(routes - {d}, routes[d], x) == GroupUses(routes, {}, x) {
      RoutesViaDrop(routes, d, x);
    }
  }

  /** ECMP table after the reference of a leaving route on s is dropped. */
  function GroupReleased(ecmp: Ecmp, s: set<NhStub>): Ecmp {
    if s !in ecmp then ecmp
    else if ecmp[s].refcnt <= 1 then ecmp - {s}
    else ecmp[s := L3Interface(ecmp[s].id, ecmp[s].refcnt - 1)]
  }

  predicate LastGroupRef(ecmp: Ecmp, s: set<NhStub>) {
    s in ecmp && ecmp[s].refcnt <= 1
  }

  lemma GroupsReleased(ecmp: Ecmp, routes: Routes, leaving: set<NhStub>)
    requires GroupsCounted(ecmp, routes, leaving)
    ensures GroupsCounted(if |leaving| > 1 then GroupReleased(ecmp, leaving) else ecmp, routes, {})
  {
  }

  /** A group whose last user is the leaving route is named by no flow. */
  lemma GroupUnnamed(ecmp: Ecmp, pool: Pool, tEcmp: map<nat, set<nat>>, owner: map<nat, set<NhStub>>,
                     tFlows: map<Addr, Target>, routes: Routes, leaving: set<NhStub>, keys: Keys, egress: Egress)
    requires EcmpWired(ecmp, pool, tEcmp, owner) && GroupsCounted(ecmp, routes, leaving)
    requires FlowsOk(tFlows, routes, {}, keys, keys, egress, ecmp)
    requires leaving in ecmp && ecmp[leaving].refcnt == 1
    ensures forall d :: d in tFlows ==> tFlows[d] != ToEcmp(ecmp[leaving].id)
  {
    assert RoutesVia(routes, leaving) == {};
    forall d | d in tFlows ensures tFlows[d] != ToEcmp(ecmp[leaving].id) {
      assert d !in RoutesVia(routes, leaving);
      assert routes[d] in ecmp ==> owner[ecmp[routes[d]].id] == routes[d];
    }
  }

  /** Flows and groups once route (d, s) points at t. */
  lemma RoutingInstalled(tEcmp: map<nat, set<nat>>, tEcmp': map<nat, set<nat>>, tFlows: map<Addr, Target>,
                         egress: Egress, ecmp: Ecmp, ecmp': Ecmp, routes: Routes, keys: Keys, d: Addr, s: set<NhStub>,
                         t: Target)
    requires MembersOk(ecmp, tEcmp, {}, keys, keys, egress)
    requires FlowsOk(tFlows, routes, {}, keys, keys, egress, ecmp)
    requires forall x :: x in ecmp ==> x in ecmp' && ecmp'[x].id == ecmp[x].id
    requires forall x :: x in ecmp' ==> x in ecmp || x == s
    requires forall x :: x in ecmp && x != s ==> ecmp[x].id in tEcmp' && tEcmp'[ecmp[x].id] == tEcmp[ecmp[x].id]
    requires s in ecmp' ==> ecmp'[s].id in tEcmp' && tEcmp'[ecmp'[s].id] == Ids(s, keys, egress)
    requires IsTarget(t, s, keys, egress, ecmp')
    ensures MembersOk(ecmp', tEcmp', {}, keys, keys, egress)
    ensures FlowsOk(tFlows[d := t], routes[d := s], {}, keys, keys, egress, ecmp')
  {
  }

  lemma ListsInstalled(waiting: seq<Pair>, watching: seq<Pair>, u: seq<Pair>, w: seq<Pair>, routes: Routes, d: Addr,
                       s: set<NhStub>, keys: Keys)
    requires ListsOk(waiting, watching, routes, {}, keys, keys) && d !in routes
    requires Entries(u, d, s, keys, false) && Entries(w, d, s, keys, true)
    ensures ListsOk(waiting + u, watching + w, routes[d := s], {}, keys, keys)
    ensures Tracked(routes[d := s], {}, keys, keys, watching + w)
  {
    var r' := routes[d := s];
    forall p ensures Current(r', {}, keys, keys, p) == (Current(routes, {}, keys, keys, p) || p in w) {}
    forall p ensures (Wants(r', p) && !Current(r', {}, keys, keys, p))
                  == ((Wants(routes, p) && !Current(routes, {}, keys, keys, p)) || p in u) {}
    OnceConcat(waiting, u);
    OnceConcat(watching, w);
  }

  lemma OnceConcat<T>(a: seq<T>, b: seq<T>)
    requires Once(a) && Once(b) && forall x :: x in a ==> x !in b
    ensures Once(a + b)
    ensures forall x :: x in a + b <==> x in a || x in b
  {
    forall i, j | 0 <= i < j < |a + b| ensures (a + b)[i] != (a + b)[j] {
      if i < |a| <= j { assert (a + b)[i] in a && (a + b)[j] in b; }
    }
  }

  lemma EntriesEmpty(d: Addr, keys: Keys)
    ensures Entries([], d, {}, keys, true) && Entries([], d, {}, keys, false)
  {
  }

  lemma TargetByIds(s: set<NhStub>, keys: Keys, egress: Egress)
    requires forall nh :: nh in s && nh.Id() in keys ==> keys[nh.Id()] in egress
    ensures Ids(s, keys, egress) == {} <==> !AnyResolved(s, keys)
    ensures |s| <= 1 ==> forall nh, i :: nh in s && i in Ids(s, keys, egress) ==>
                           nh.Id() in keys && keys[nh.Id()] in egress && i == egress[keys[nh.Id()]].id
  {
    if AnyResolved(s, keys) {
      var nh :| nh in s && nh.Id() in keys;
      assert egress[keys[nh.Id()]].id in Ids(s, keys, egress);
      if |s| <= 1 {
        forall x | x in s ensures x == nh { if x != nh { SubsetSize({x, nh}, s); } }
      }
    }
  }

  lemma HostsStable(tHosts: map<Addr, nat>, e0: Egress, e1: Egress, hosts: set<NeighId>, keys: Keys)
    requires HostsOk(tHosts, hosts, keys, e0) && SameIds(e0, e1) && forall k :: k in e0 ==> k in e1
    ensures HostsOk(tHosts, hosts, keys, e1)
  {
  }

  lemma ChosenTarget(t: Target, s: set<NhStub>, keys: Keys, egress: Egress, ecmp: Ecmp)
    requires forall nh :: nh in s && nh.Id() in keys ==> keys[nh.Id()] in egress
    requires if Ids(s, keys, egress) == {} then t == ToController
             else if |s| > 1 then s in ecmp && t == ToEcmp(ecmp[s].id)
             else t.ToEgress? && t.id in Ids(s, keys, egress)
    ensures IsTarget(t, s, keys, egress, ecmp)
  {
    TargetByIds(s, keys, egress);
  }

  lemma NoSmallGroups(ecmp: Ecmp, routes: Routes)
    requires GroupsCounted(ecmp, routes, {})
    ensures forall s :: s in ecmp ==> |s| > 1
  {
  }

  lemma GroupsWithin(ecmp: Ecmp, tEcmp: map<nat, set<nat>>, keys: Keys, egress: Egress)
    requires MembersOk(ecmp, tEcmp, {}, keys, keys, egress)
    ensures forall s :: s in ecmp ==> ecmp[s].id in tEcmp
  {
  }

  // --------------------------------------------------- removing list entries

  /** Index of the first occurrence, |l| when there is none. */
  method FindFirst(l: seq<Pair>, p: Pair) returns (i: nat)
    ensures i <= |l| && p !in l[..i] && (i < |l| ==> l[i] == p)
  {
    i := 0;
    while i < |l| && l[i] != p
      invariant i <= |l| && p !in l[..i]
    {
      i := i + 1;
    }
  }

  /** a is the part of base that is left once the entries of (d, gone) have been removed. */
  ghost predicate Stripped(a: seq<Pair>, base: seq<Pair>, d: Addr, gone: set<NhStub>) {
    Once(a) && forall p :: p in a <==> p in base && !(p.dst == d && p.nh in gone)
  }

  /** Removing the first hit takes it from the front part, and leaves the new entries behind it alone. */
  lemma StripFirst(a: seq<Pair>, b: seq<Pair>, base: seq<Pair>, d: Addr, gone: set<NhStub>, nh: NhStub, i: nat)
    requires Stripped(a, base, d, gone) && nh !in gone && Pair(d, nh) in base
    requires i <= |a + b| && Pair(d, nh) !in (a + b)[..i] && (i < |a + b| ==> (a + b)[i] == Pair(d, nh))
    ensures i < |a| && Without(a + b, i) == Without(a, i) + b
    ensures Stripped(Without(a, i), base, d, gone + {nh})
  {
    var p := Pair(d, nh);
    assert p in a;
    var j :| 0 <= j < |a| && a[j] == p;
    assert (a + b)[j] == p;
    assert i <= j;
    OnceWithout(a, i);
  }

  lemma StripNone(a: seq<Pair>, base: seq<Pair>, d: Addr, gone: set<NhStub>, nh: NhStub)
    requires Stripped(a, base, d, gone) && Pair(d, nh) !in base
    ensures Stripped(a, base, d, gone + {nh})
  {
  }

  /** The pairs every remaining route needs survive the removal of (d, ...) from base. */
  ghost predicate Survives(routes: Routes, keys: Keys, d: Addr, base: seq<Pair>, fresh_: seq<Pair>) {
    forall p :: Current(routes, {}, keys, keys, p) ==> (p.dst != d && p in base) || p in fresh_
  }

  lemma SurvivesTracked(routes: Routes, keys: Keys, d: Addr, base: seq<Pair>, fresh_: seq<Pair>, a: seq<Pair>,
                        gone: set<NhStub>)
    requires Survives(routes, keys, d, base, fresh_) && Stripped(a, base, d, gone)
    ensures Tracked(routes, {}, keys, keys, a + fresh_)
  {
  }

  lemma StrippedNothing(base: seq<Pair>, d: Addr)
    requires Once(base)
    ensures Stripped(base, base, d, {})
  {
  }

  lemma FlowsGroupReleased(tFlows: map<Addr, Target>, egress: Egress, ecmp: Ecmp, routes: Routes, keys: Keys,
                           leaving: set<NhStub>)
    requires FlowsOk(tFlows, routes, {}, keys, keys, egress, ecmp)
    requires GroupsCounted(GroupReleased(ecmp, leaving), routes, {})
    ensures FlowsOk(tFlows, routes, {}, keys, keys, egress, GroupReleased(ecmp, leaving))
  {
    forall d | d in routes && |routes[d]| > 1 ensures routes[d] in GroupReleased(ecmp, leaving) {
      GroupPresent(GroupReleased(ecmp, leaving), routes, d);
    }
  }

  lemma RoutingGroupReleased(tEcmp: map<nat, set<nat>>, tFlows: map<Addr, Target>, egress: Egress, ecmp: Ecmp,
                             pool: Pool, owner: map<nat, set<NhStub>>, routes: Routes, keys: Keys, leaving: set<NhStub>)
    requires EcmpWired(ecmp, pool, tEcmp, owner)
    requires MembersOk(ecmp, tEcmp, Touched(routes, {}), keys, keys, egress)
    requires FlowsOk(tFlows, routes, {}, keys, keys, egress, ecmp)
    requires GroupsCounted(GroupReleased(ecmp, leaving), routes, {})
    ensures MembersOk(GroupReleased(ecmp, leaving),
                      if leaving in ecmp && ecmp[leaving].refcnt == 1 then tEcmp - {ecmp[leaving].id} else tEcmp,
                      Touched(routes, {}), keys, keys, egress)
    ensures FlowsOk(tFlows, routes, {}, keys, keys, egress, GroupReleased(ecmp, leaving))
  {
    forall s | s in ecmp && s != leaving && leaving in ecmp ensures ecmp[s].id != ecmp[leaving].id {
      assert owner[ecmp[s].id] == s;
    }
    FlowsGroupReleased(tFlows, egress, ecmp, routes, keys, leaving);
  }

  lemma ListsRemoved(waiting: seq<Pair>, watching: seq<Pair>, u1: seq<Pair>, w1: seq<Pair>, routes: Routes, d: Addr,
                     keys: Keys)
    requires ListsOk(waiting, watching, routes, {}, keys, keys) && d in routes
    requires Stripped(u1, waiting, d, routes[d]) && Stripped(w1, watching, d, routes[d])
    ensures ListsOk(u1, w1, routes - {d}, {}, keys, keys)
    ensures Tracked(routes - {d}, {}, keys, keys, w1)
  {
  }

  /** What the lists of a settled state say about the next hops of one route. */
  lemma ListsOfRoute(waiting: seq<Pair>, watching: seq<Pair>, routes: Routes, d: Addr, keys: Keys)
    requires ListsOk(waiting, watching, routes, {}, keys, keys) && d in routes
    ensures Once(waiting) && Once(watching)
    ensures forall nh :: nh in routes[d] ==>
              (nh.Id() in keys <==> Pair(d, nh) in watching) && (nh.Id() !in keys <==> Pair(d, nh) in waiting)
    ensures Survives(routes - {d}, keys, d, watching, [])
    ensures forall s, w :: Entries(w, d, s, keys, true) ==> Survives(routes[d := s], keys, d, watching, w)
  {
  }

  lemma ListsDst(waiting: seq<Pair>, watching: seq<Pair>, routes: Routes, d: Addr, keys: Keys)
    requires ListsOk(waiting, watching, routes, {}, keys, keys) && d !in routes
    ensures forall nh :: Pair(d, nh) !in waiting && Pair(d, nh) !in watching
  {
  }

  lemma FlowRemoved(tFlows: map<Addr, Target>, tEcmp: map<nat, set<nat>>, egress: Egress, ecmp: Ecmp, routes: Routes,
                    keys: Keys, d: Addr)
    requires FlowsOk(tFlows, routes, {}, keys, keys, egress, ecmp)
    requires MembersOk(ecmp, tEcmp, Touched(routes, {}), keys, keys, egress)
    ensures FlowsOk(tFlows - {d}, routes - {d}, {}, keys, keys, egress, ecmp)
    ensures MembersOk(ecmp, tEcmp, Touched(routes - {d}, {}), keys, keys, egress)
  {
  }

  lemma FewerRoutesOk(routes: Routes, d: Addr)
    requires RoutesOk(routes)
    ensures RoutesOk(routes - {d})
  {
  }

  // ---------------------------------------------- next hops that nobody hears of

  lemma {:induction false} SomeEntries(d: Addr, s: set<NhStub>, keys: Keys) returns (l: seq<Pair>)
    ensures Entries(l, d, s, keys, false)
  {
    l := [];
    if s != {} {
      var nh :| nh in s;
      l := SomeEntries(d, s - {nh}, keys);
      EntriesAdd(l, d, s - {nh}, keys, false, nh);
      assert s - {nh} + {nh} == s;
      if nh.Id() !in keys { l := l + [Pair(d, nh)]; }
    }
  }

  /** The lists after a route (d, s) came, whether its unresolved next hops are waited for or not. */
  lemma ListsUnheard(u0: seq<Pair>, w0: seq<Pair>, u: seq<Pair>, w: seq<Pair>, routes: Routes, d: Addr, s: set<NhStub>,
                     keys: Keys) returns (unheard: seq<Pair>)
    requires ListsOk(u0, w0, routes, {}, keys, keys) && d !in routes
    requires Entries(u, d, Heard(d, s), keys, false) && Entries(w, d, s, keys, true)
    ensures ListsOk(Plus(unheard, u0 + u), w0 + w, routes[d := s], {}, keys, keys)
    ensures Tracked(routes[d := s], {}, keys, keys, w0 + w)
    ensures Awaited(d, s, keys) <==> unheard == []
    ensures forall q :: q in unheard ==> q.dst == d && q.nh in s && q.nh.Id() !in keys
  {
    EntriesAwaited(u, d, s, keys);
    unheard := [];
    if Awaited(d, s, keys) {
      ListsInstalled(u0, w0, u, w, routes, d, s, keys);
    } else {
      unheard := SomeEntries(d, s, keys);
      ListsInstalled(u0, w0, unheard, w, routes, d, s, keys);
      assert u0 + u == u0;
      var nh :| nh in s && nh.Id() !in keys;
      assert Pair(d, nh) in unheard;
      ListsSwap(u0, unheard, w0 + w, routes[d := s], keys);
    }
  }

  lemma ListsSwap(a: seq<Pair>, b: seq<Pair>, w: seq<Pair>, routes: Routes, keys: Keys)
    requires ListsOk(a + b, w, routes, {}, keys, keys)
    ensures ListsOk(b + a, w, routes, {}, keys, keys)
  {
    assert forall p :: p in a + b <==> p in b + a;
    forall i, j | 0 <= i < j < |b + a| ensures (b + a)[i] != (b + a)[j] {
      var i', j' := if i < |b| then |a| + i else i - |b|, if j < |b| then |a| + j else j - |b|;
      assert (a + b)[i'] == (b + a)[i] && (a + b)[j'] == (b + a)[j];
    }
  }

  // --------------------------------------------- a gateway route turned on-link

  lemma NothingToResolve(cache: Cache, links: Links, keys: Keys)
    ensures RouteOk({}) && CacheAgrees(cache, links, {}, keys)
  {
  }

  lemma NoEntries(u: seq<Pair>, w: seq<Pair>, d: Addr, keys: Keys)
    requires Entries(u, d, Heard(d, {}), keys, false) && Entries(w, d, {}, keys, true)
    ensures u == [] && w == []
  {
    FirstMember(u);
    FirstMember(w);
  }

  lemma FirstMember<T>(s: seq<T>)
    ensures s != [] ==> s[0] in s
  {
  }

  lemma ListsTracked(waiting: seq<Pair>, watching: seq<Pair>, routes: Routes, keys: Keys)
    requires ListsOk(waiting, watching, routes, {}, keys, keys)
    ensures Tracked(routes, {}, keys, keys, watching)
  {
  }

  lemma FewerNextHops(routes: Routes, d: Addr)
    requires RoutesOk(routes)
    ensures RoutesOk(routes[d := {}])
  {
  }

  /** A route that is leaving counts for its group as it did before. */
  lemma GroupsAside(ecmp: Ecmp, routes: Routes, d: Addr)
    requires d in routes
    ensures GroupsCounted(ecmp, routes, {}) <==> GroupsCounted(ecmp, routes[d := {}], routes[d])
  {
    forall x | |x| > 1 ensures GroupUses(routes[d := {}], routes[d], x) == GroupUses(routes, {}, x) {
      RoutesViaSet(routes, d, {}, x);
      RoutesViaDrop(routes, d, x);
    }
  }

  lemma TargetExists(s: set<NhStub>, keys: Keys, egress: Egress, ecmp: Ecmp) returns (t: Target)
    requires forall nh :: nh in s && nh.Id() in keys ==> keys[nh.Id()] in egress
    requires |s| > 1 ==> s in ecmp
    ensures IsTarget(t, s, keys, egress, ecmp)
  {
    if !AnyResolved(s, keys) {
      t := ToController;
    } else if |s| > 1 {
      t := ToEcmp(ecmp[s].id);
    } else {
      var nh :| nh in s && nh.Id() in keys;
      t := ToEgress(egress[keys[nh.Id()]].id);
      forall x | x in s ensures x == nh { if x != nh { SubsetSize({x, nh}, s); } }
    }
  }

  /** From the tables of the new on-link route to those of the old one with its flow set aside. */
  lemma TablesAside(sw: Switch, egress: Egress, ecmp: Ecmp, hosts: set<NeighId>, w: seq<Pair>, routes: Routes,
                    keys: Keys, d: Addr) returns (aside: Aside)
    requires TablesOk(sw.hosts, sw.ecmp, sw.flows, egress, ecmp, hosts, keys, routes[d := {}], {}, keys, keys)
    requires d in routes && GroupsCounted(ecmp, routes, {}) && Counted(egress, hosts, w, keys)
    requires Tracked(routes, {}, keys, keys, w)
    ensures aside.Keys == {d} && Muted(sw.flows, aside)
    ensures TablesOk(sw.hosts, sw.ecmp, Virtual(sw.flows, aside), egress, ecmp, hosts, keys, routes, {}, keys, keys)
  {
    forall nh | nh in routes[d] && nh.Id() in keys ensures keys[nh.Id()] in egress {
      assert Current(routes, {}, keys, keys, Pair(d, nh));
      HeldByPair(egress, hosts, w, keys, Pair(d, nh));
    }
    if |routes[d]| > 1 { GroupPresent(ecmp, routes, d); }
    hide Counted, GroupsCounted, Tracked;
    var t := TargetExists(routes[d], keys, egress, ecmp);
    aside := map[d := t];
    assert Touched(routes, {}) == {} && Touched(routes[d := {}], {}) == {};
    hide MembersOk, HostsOk;
    FlowsAside(sw.flows, egress, ecmp, routes, keys, d, t);
  }

  lemma FlowsAside(flows: map<Addr, Target>, egress: Egress, ecmp: Ecmp, routes: Routes, keys: Keys, d: Addr, t: Target)
    requires FlowsOk(flows, routes[d := {}], {}, keys, keys, egress, ecmp) && d in routes
    requires IsTarget(t, routes[d], keys, egress, ecmp)
    ensures Muted(flows, map[d := t])
    ensures FlowsOk(Virtual(flows, map[d := t]), routes, {}, keys, keys, egress, ecmp)
  {
    assert !AnyResolved({}, keys);
    assert routes[d := {}][d] == {};
    assert IsTarget(flows[d], {}, keys, egress, ecmp);
    hide AnyResolved;
    assert map[d := t] != map[] by { assert d in map[d := t]; }
  }

  /** And back. */
  lemma TablesOwn(sw: Switch, egress: Egress, ecmp: Ecmp, hosts: set<NeighId>, routes: Routes, keys: Keys, d: Addr,
                  aside: Aside)
    requires TablesOk(sw.hosts, sw.ecmp, Virtual(sw.flows, aside), egress, ecmp, hosts, keys, routes, {}, keys, keys)
    requires d in routes && aside.Keys == {d} && Muted(sw.flows, aside)
    ensures TablesOk(sw.hosts, sw.ecmp, sw.flows, egress, ecmp, hosts, keys, routes[d := {}], {}, keys, keys)
  {
    assert Touched(routes, {}) == {} && Touched(routes[d := {}], {}) == {};
    hide MembersOk, HostsOk;
    assert aside != map[] by { assert d in aside; }
    assert !AnyResolved({}, keys);
    forall x | x in routes && x != d ensures IsTarget(sw.flows[x], routes[x], keys, egress, ecmp) {
      assert Virtual(sw.flows, aside)[x] == sw.flows[x];
    }
    hide IsTarget;
    assert IsTarget(sw.flows[d], {}, keys, egress, ecmp) by { IsTargetNone(keys, egress, ecmp); }
  }

  lemma IsTargetNone(keys: Keys, egress: Egress, ecmp: Ecmp)
    ensures IsTarget(ToController, {}, keys, egress, ecmp)
  {
    assert !AnyResolved({}, keys);
  }
}
