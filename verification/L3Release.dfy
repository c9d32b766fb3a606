/** Giving up the references of a route when the neighbour cache and the callback lists may disagree:
    what happens to the counts, exactly. */
module L3Release {
  import opened L3Types
  import opened SetFacts
  import opened L3Switch
  import IdPool
  import opened L3Model

  function Refs(egress: Egress, k: EgressKey): nat { if k in egress then egress[k].refcnt else 0 }

  function Monus(a: nat, b: nat): nat { if a >= b then a - b else 0 }

  ghost predicate Positive(egress: Egress) {
    forall k :: k in egress ==> egress[k].refcnt > 0
  }

  /** Next hops the cache resolves, and the others. */
  function Cached(o: set<NhStub>, cache: Cache): set<NhStub> {
    set nh | nh in o && nh.Id() in cache.neighs
  }

  function Uncached(o: set<NhStub>, cache: Cache): set<NhStub> {
    set nh | nh in o && nh.Id() !in cache.neighs
  }

  /** The cache knows the interfaces of the next hops it resolves, and agrees with keys on those in both. */
  ghost predicate CacheKeys(cache: Cache, links: Links, o: set<NhStub>, keys: Keys) {
    forall nh :: nh in o && nh.Id() in cache.neighs ==>
      && nh.ifindex in links
      && (nh.Id() in keys ==> KeyOf(links, nh.Id(), cache.neighs[nh.Id()]) == keys[nh.Id()])
  }

  /** The reference given up for nh is one of key k. */
  predicate IsOn(nh: NhStub, cache: Cache, links: Links, k: EgressKey) {
    && nh.Id() in cache.neighs && nh.ifindex in links
    && KeyOf(links, nh.Id(), cache.neighs[nh.Id()]) == k
  }

  function OnKey(o: set<NhStub>, cache: Cache, links: Links, k: EgressKey): set<NhStub> {
    set nh | nh in o && IsOn(nh, cache, links, k)
  }

  /** Those of them that hold a reference: keys has them, so a watched pair is counted. */
  function Held(o: set<NhStub>, cache: Cache, links: Links, keys: Keys, k: EgressKey): set<NhStub> {
    set nh | nh in o && IsOn(nh, cache, links, k) && nh.Id() in keys
  }

  /** Next hops the cache resolves although their pairs still wait. */
  function Stale(o: set<NhStub>, cache: Cache, links: Links, keys: Keys, k: EgressKey): set<NhStub> {
    set nh | nh in o && IsOn(nh, cache, links, k) && nh.Id() !in keys
  }

  /** A next hop without a reference of its own is on a key that nobody but this route refers to. */
  ghost predicate OwnOnly(o: set<NhStub>, cache: Cache, links: Links, keys: Keys, egress: Egress) {
    forall k :: Stale(o, cache, links, keys, k) != {} ==> Refs(egress, k) == |Held(o, cache, links, keys, k)|
  }

  /** The watched next hops of the route on key k, whether the cache still resolves them or not. */
  function Own(o: set<NhStub>, keys: Keys, k: EgressKey): set<NhStub> {
    set nh | nh in o && nh.Id() in keys && keys[nh.Id()] == k
  }

  /** A key that others refer to as well has more references than the route gives up. */
  ghost predicate Spared(o: set<NhStub>, cache: Cache, links: Links, keys: Keys, egress: Egress) {
    forall k :: Refs(egress, k) > |Own(o, keys, k)| ==> Refs(egress, k) > |OnKey(o, cache, links, k)|
  }

  lemma HeldIsOwn(o: set<NhStub>, cache: Cache, links: Links, keys: Keys, k: EgressKey)
    requires CacheKeys(cache, links, o, keys)
    ensures Held(o, cache, links, keys, k) <= Own(o, keys, k)
    ensures |Held(o, cache, links, keys, k)| <= |Own(o, keys, k)|
    ensures (forall nh :: nh in o && nh.Id() in keys ==> nh.Id() in cache.neighs && nh.ifindex in links) ==>
              Held(o, cache, links, keys, k) == Own(o, keys, k)
  {
    SubsetSize(Held(o, cache, links, keys, k), Own(o, keys, k));
  }

  lemma OwnOnlySpared(o: set<NhStub>, cache: Cache, links: Links, keys: Keys, egress: Egress)
    requires CacheKeys(cache, links, o, keys) && OwnOnly(o, cache, links, keys, egress)
    ensures Spared(o, cache, links, keys, egress)
  {
    hide Held, Stale, OnKey, Own, CacheKeys;
    forall k | Refs(egress, k) > |Own(o, keys, k)| ensures Refs(egress, k) > |OnKey(o, cache, links, k)| {
      KeySplit(o, cache, links, keys, k);
      HeldIsOwn(o, cache, links, keys, k);
    }
  }

  /** While the cache resolves every watched next hop, only keys with a stale next hop are at risk. */
  lemma SparedStale(o: set<NhStub>, cache: Cache, links: Links, keys: Keys, egress: Egress)
    requires CacheKeys(cache, links, o, keys)
    requires forall nh :: nh in o && nh.Id() in keys ==> nh.Id() in cache.neighs && nh.ifindex in links
    requires forall k :: Refs(egress, k) >= |Own(o, keys, k)|
    ensures Spared(o, cache, links, keys, egress) <==> forall k :: Stale(o, cache, links, keys, k) != {} ==>
              Refs(egress, k) == |Held(o, cache, links, keys, k)| || Refs(egress, k) > |OnKey(o, cache, links, k)|
  {
    hide Held, Stale, OnKey, Own, CacheKeys;
    forall k ensures |OnKey(o, cache, links, k)| == |Own(o, keys, k)| + |Stale(o, cache, links, keys, k)|
                  && Held(o, cache, links, keys, k) == Own(o, keys, k)
                  && (Stale(o, cache, links, keys, k) == {} <==> |Stale(o, cache, links, keys, k)| == 0) {
      KeySplit(o, cache, links, keys, k);
      HeldIsOwn(o, cache, links, keys, k);
    }
  }

  lemma AgreeOwnOnly(o: set<NhStub>, cache: Cache, links: Links, keys: Keys, egress: Egress)
    requires CacheAgrees(cache, links, o, keys)
    ensures CacheKeys(cache, links, o, keys) && OwnOnly(o, cache, links, keys, egress)
    ensures Spared(o, cache, links, keys, egress)
  {
    assert OwnOnly(o, cache, links, keys, egress);
    OwnOnlySpared(o, cache, links, keys, egress);
  }

  lemma KeySplit(o: set<NhStub>, cache: Cache, links: Links, keys: Keys, k: EgressKey)
    ensures |OnKey(o, cache, links, k)| == |Held(o, cache, links, keys, k)| + |Stale(o, cache, links, keys, k)|
  {
    assert OnKey(o, cache, links, k) == Held(o, cache, links, keys, k) + Stale(o, cache, links, keys, k);
    assert Held(o, cache, links, keys, k) !! Stale(o, cache, links, keys, k);
  }

  lemma ReleasedRefs(egress: Egress, k: EgressKey, x: EgressKey)
    requires Positive(egress)
    ensures Refs(Released(egress, k), x) == if x == k then Monus(Refs(egress, x), 1) else Refs(egress, x)
    ensures Positive(Released(egress, k))
  {
  }

  /** State of the loop after the next hops in `gone`: each took one reference of its key, as long as there
      was one, and the watched pairs left are the users at the start less the ones that held a reference. */
  ghost predicate Progress(e0: Egress, w0: seq<Pair>, e: Egress, w: seq<Pair>, hosts: set<NeighId>, cache: Cache,
                           links: Links, keys: Keys, gone: set<NhStub>) {
    && Positive(e)
    && (forall x :: Refs(e, x) == Monus(Refs(e0, x), |OnKey(gone, cache, links, x)|))
    && (forall x :: Uses(hosts, w, keys, x) + |Held(gone, cache, links, keys, x)| == Uses(hosts, w0, keys, x))
  }

  lemma ProgressStart(e0: Egress, w0: seq<Pair>, hosts: set<NeighId>, cache: Cache, links: Links, keys: Keys)
    requires Positive(e0)
    ensures Progress(e0, w0, e0, w0, hosts, cache, links, keys, {})
  {
  }

  lemma ProgressUncached(e0: Egress, w0: seq<Pair>, e: Egress, w: seq<Pair>, hosts: set<NeighId>, cache: Cache,
                         links: Links, keys: Keys, gone: set<NhStub>, nh: NhStub)
    requires Progress(e0, w0, e, w, hosts, cache, links, keys, gone) && nh.Id() !in cache.neighs
    ensures Progress(e0, w0, e, w, hosts, cache, links, keys, gone + {nh})
  {
    forall x ensures OnKey(gone + {nh}, cache, links, x) == OnKey(gone, cache, links, x)
                  && Held(gone + {nh}, cache, links, keys, x) == Held(gone, cache, links, keys, x) {
    }
  }

  /** One more next hop that the cache resolves; i is its place in w when it is watched. */
  lemma ProgressCached(e0: Egress, w0: seq<Pair>, e: Egress, w: seq<Pair>, hosts: set<NeighId>, cache: Cache,
                       links: Links, keys: Keys, gone: set<NhStub>, nh: NhStub, k: EgressKey, i: nat)
    requires Progress(e0, w0, e, w, hosts, cache, links, keys, gone) && nh !in gone && IsOn(nh, cache, links, k)
    requires nh.Id() in keys ==> keys[nh.Id()] == k && i < |w| && w[i].nh == nh
    ensures Progress(e0, w0, Released(e, k), if nh.Id() in keys then Without(w, i) else w, hosts, cache, links, keys,
                     gone + {nh})
  {
    hide Uses, Released;
    var w' := if nh.Id() in keys then Without(w, i) else w;
    forall x ensures Refs(Released(e, k), x) == Monus(Refs(e0, x), |OnKey(gone + {nh}, cache, links, x)|)
                  && Uses(hosts, w', keys, x) + |Held(gone + {nh}, cache, links, keys, x)| == Uses(hosts, w0, keys, x) {
      ReleasedRefs(e, k, x);
      OneOn(gone, nh, cache, links, keys, x);
      if nh.Id() in keys { UsesRemove(hosts, w, i, keys, x); }
    }
    ReleasedRefs(e, k, k);
  }

  lemma OneOn(gone: set<NhStub>, nh: NhStub, cache: Cache, links: Links, keys: Keys, x: EgressKey)
    requires nh !in gone
    ensures |OnKey(gone + {nh}, cache, links, x)|
         == |OnKey(gone, cache, links, x)| + (if IsOn(nh, cache, links, x) then 1 else 0)
    ensures |Held(gone + {nh}, cache, links, keys, x)|
         == |Held(gone, cache, links, keys, x)| + (if IsOn(nh, cache, links, x) && nh.Id() in keys then 1 else 0)
  {
    hide IsOn;
    if IsOn(nh, cache, links, x) {
      assert OnKey(gone + {nh}, cache, links, x) == OnKey(gone, cache, links, x) + {nh};
    } else {
      assert OnKey(gone + {nh}, cache, links, x) == OnKey(gone, cache, links, x);
    }
    if IsOn(nh, cache, links, x) && nh.Id() in keys {
      assert Held(gone + {nh}, cache, links, keys, x) == Held(gone, cache, links, keys, x) + {nh};
    } else {
      assert Held(gone + {nh}, cache, links, keys, x) == Held(gone, cache, links, keys, x);
    }
  }

  lemma UsesRemove(hosts: set<NeighId>, w: seq<Pair>, i: nat, keys: Keys, x: EgressKey)
    requires i < |w| && w[i].nh.Id() in keys
    ensures Uses(hosts, w, keys, x) == Uses(hosts, Without(w, i), keys, x) + (if keys[w[i].nh.Id()] == x then 1 else 0)
  {
    WatchersRemove(w, i, keys, x);
  }

  /** At the end the counts are right if and only if every reference that was not held came from a key
      only this route referred to. */
  lemma CountedIff(e0: Egress, w0: seq<Pair>, e: Egress, w: seq<Pair>, hosts: set<NeighId>, cache: Cache, links: Links,
                   keys: Keys, o: set<NhStub>)
    requires Counted(e0, hosts, w0, keys) && Progress(e0, w0, e, w, hosts, cache, links, keys, o)
    ensures Counted(e, hosts, w, keys) <==> OwnOnly(o, cache, links, keys, e0)
  {
    hide Uses, OnKey, Held, Stale;
    forall x ensures Refs(e, x) == Uses(hosts, w, keys, x)
                <==> (Stale(o, cache, links, keys, x) != {} ==> Refs(e0, x) == |Held(o, cache, links, keys, x)|) {
      KeySplit(o, cache, links, keys, x);
      assert Refs(e0, x) == Uses(hosts, w0, keys, x);
      assert |Stale(o, cache, links, keys, x)| == 0 <==> Stale(o, cache, links, keys, x) == {};
    }
    assert Counted(e, hosts, w, keys) <==> forall x :: Refs(e, x) == Uses(hosts, w, keys, x) by {
      if Counted(e, hosts, w, keys) {
        forall x ensures Refs(e, x) == Uses(hosts, w, keys, x) {
        }
      }
    }
  }

  /** Watched pairs of a route are users of their key, and so is everyone else. */
  lemma {:induction false} OwnCounted(w: seq<Pair>, d: Addr, own: set<NhStub>, keys: Keys, k: EgressKey, other: Pair)
    requires forall nh :: nh in own ==> Pair(d, nh) in w && Resolves(Pair(d, nh), keys, k)
    ensures Watchers(w, keys, k) >= |own|
    ensures other in w && Resolves(other, keys, k) && !(other.dst == d && other.nh in own) ==>
              Watchers(w, keys, k) > |own|
    decreases |own|
  {
    if own == {} {
      if other in w && Resolves(other, keys, k) { WatchersMember(w, other, keys, k); }
    } else {
      var nh :| nh in own;
      var i :| 0 <= i < |w| && w[i] == Pair(d, nh);
      var rest := own - {nh};
      WatchersRemove(w, i, keys, k);
      forall m | m in rest ensures Pair(d, m) in Without(w, i) { StaysIn(w, i, Pair(d, m)); }
      if other in w && other != w[i] { StaysIn(w, i, other); }
      OwnCounted(Without(w, i), d, rest, keys, k, other);
    }
  }

  lemma StaysIn(w: seq<Pair>, i: nat, p: Pair)
    requires i < |w| && p in w && p != w[i]
    ensures p in Without(w, i)
  {
  }

  /** A key with users is still there as long as it lost held references only, or has references to spare. */
  lemma NeededStays(e0: Egress, w0: seq<Pair>, e: Egress, w: seq<Pair>, hosts: set<NeighId>, cache: Cache, links: Links,
                    keys: Keys, o: set<NhStub>, gone: set<NhStub>, k: EgressKey)
    requires Counted(e0, hosts, w0, keys) && Progress(e0, w0, e, w, hosts, cache, links, keys, gone) && gone <= o
    requires Stale(o, cache, links, keys, k) == {} || Refs(e0, k) > |OnKey(o, cache, links, k)|
    requires Uses(hosts, w, keys, k) > 0
    ensures k in e
  {
    if Stale(o, cache, links, keys, k) == {} {
      assert Stale(gone, cache, links, keys, k) <= Stale(o, cache, links, keys, k);
      KeySplit(gone, cache, links, keys, k);
      assert Refs(e0, k) == Uses(hosts, w0, keys, k);
    } else {
      SubsetSize(OnKey(gone, cache, links, k), OnKey(o, cache, links, k));
    }
    assert Refs(e, k) > 0;
  }

  /** A key that somebody else needs has references to spare. */
  lemma NeededSpared(e0: Egress, w0: seq<Pair>, hosts: set<NeighId>, cache: Cache, links: Links, keys: Keys, d: Addr,
                     o: set<NhStub>, k: EgressKey, other: Pair)
    requires Counted(e0, hosts, w0, keys) && Spared(o, cache, links, keys, e0)
    requires forall nh :: nh in o && nh.Id() in keys ==> Pair(d, nh) in w0
    requires HostsOn(hosts, keys, k) != {} || (other in w0 && other.dst != d && Resolves(other, keys, k))
    ensures Refs(e0, k) > |OnKey(o, cache, links, k)|
  {
    OwnCounted(w0, d, Own(o, keys, k), keys, k, other);
    assert HostsOn(hosts, keys, k) != {} ==> |HostsOn(hosts, keys, k)| > 0;
    assert Refs(e0, k) == Uses(hosts, w0, keys, k);
  }

  /** So hosts and the routes that stay keep their groups throughout. */
  lemma StillHeld(e0: Egress, w0: seq<Pair>, e: Egress, w: seq<Pair>, hosts: set<NeighId>, cache: Cache, links: Links,
                  keys: Keys, d: Addr, o: set<NhStub>, gone: set<NhStub>, routes: Routes, base: seq<Pair>,
                  fresh_: seq<Pair>)
    requires Counted(e0, hosts, w0, keys) && Progress(e0, w0, e, w, hosts, cache, links, keys, gone) && gone <= o
    requires Spared(o, cache, links, keys, e0)
    requires w0 == base + fresh_ && (CacheAgrees(cache, links, o, keys) || fresh_ == [])
    requires forall nh :: nh in o && nh.Id() in keys ==> Pair(d, nh) in base
    requires Survives(routes, keys, d, base, fresh_) && Tracked(routes, {}, keys, keys, w)
    requires forall h :: h in hosts ==> h in keys
    ensures HeldAll(e, hosts, keys, routes, {}, keys, keys)
  {
    hide Counted, Progress, Spared, Uses, Survives;
    forall h | h in hosts ensures keys[h] in e {
      var k := keys[h];
      assert h in HostsOn(hosts, keys, k);
      NotStale(e0, w0, hosts, cache, links, keys, d, o, k, Pair(d, NhStub(h.addr, h.ifindex, 0)));
      UsedByHost(hosts, w, keys, h);
      NeededStays(e0, w0, e, w, hosts, cache, links, keys, o, gone, k);
    }
    forall p | Current(routes, {}, keys, keys, p) ensures keys[p.nh.Id()] in e {
      var k := keys[p.nh.Id()];
      if !CacheAgrees(cache, links, o, keys) { SurvivorInBase(routes, keys, d, base, p); }
      NotStale(e0, w0, hosts, cache, links, keys, d, o, k, p);
      UsedByPair(hosts, w, keys, p);
      NeededStays(e0, w0, e, w, hosts, cache, links, keys, o, gone, k);
    }
  }

  lemma NotStale(e0: Egress, w0: seq<Pair>, hosts: set<NeighId>, cache: Cache, links: Links, keys: Keys, d: Addr,
                 o: set<NhStub>, k: EgressKey, other: Pair)
    requires Counted(e0, hosts, w0, keys) && Spared(o, cache, links, keys, e0)
    requires forall nh :: nh in o && nh.Id() in keys ==> Pair(d, nh) in w0
    requires CacheAgrees(cache, links, o, keys) || HostsOn(hosts, keys, k) != {}
             || (other in w0 && other.dst != d && Resolves(other, keys, k))
    ensures Stale(o, cache, links, keys, k) == {} || Refs(e0, k) > |OnKey(o, cache, links, k)|
  {
    if !CacheAgrees(cache, links, o, keys) {
      NeededSpared(e0, w0, hosts, cache, links, keys, d, o, k, other);
    }
  }

  // ------------------------------------------ a reference that others need

  /** Pairs watched once, all of them of the route, are no more than its own next hops. */
  lemma {:induction false} OwnAtMost(w: seq<Pair>, d: Addr, own: set<NhStub>, keys: Keys, k: EgressKey)
    requires Once(w) && forall q :: q in w && Resolves(q, keys, k) ==> q.dst == d && q.nh in own
    ensures Watchers(w, keys, k) <= |own|
  {
    if w != [] {
      var r := w[1..];
      assert forall i, j :: 0 <= i < j < |r| ==> r[i] == w[i + 1] && r[j] == w[j + 1];
      assert w[0] in w && forall q :: q in r ==> q in w && q != w[0];
      OwnAtMost(r, d, if Resolves(w[0], keys, k) then own - {w[0].nh} else own, keys, k);
    }
  }

  /** Every watched pair is one of the leaving route or wanted by another one. */
  ghost predicate Accounted(w: seq<Pair>, d: Addr, o: set<NhStub>, routes: Routes, keys: Keys) {
    forall q :: q in w ==> (q.dst == d && q.nh in o) || Current(routes, {}, keys, keys, q)
  }

  lemma ListsAccounted(waiting: seq<Pair>, watching: seq<Pair>, routes: Routes, d: Addr, keys: Keys)
    requires ListsOk(waiting, watching, routes, {}, keys, keys) && d in routes
    ensures Accounted(watching, d, routes[d], routes - {d}, keys)
  {
  }

  lemma EntriesAccounted(waiting: seq<Pair>, watching: seq<Pair>, w: seq<Pair>, routes: Routes, d: Addr, s: set<NhStub>,
                         keys: Keys)
    requires ListsOk(waiting, watching, routes, {}, keys, keys) && d in routes && Entries(w, d, s, keys, true)
    ensures Accounted(watching + w, d, routes[d], routes[d := s], keys)
  {
  }

  /** More references than the route's own: a host or another route is named on the switch through the key. */
  lemma OthersNamed(sw: Switch, e0: Egress, w: seq<Pair>, hosts: set<NeighId>, ecmp: Ecmp, routes: Routes, keys: Keys,
                    d: Addr, o: set<NhStub>, k: EgressKey)
    requires Counted(e0, hosts, w, keys) && Once(w) && Accounted(w, d, o, routes, keys)
    requires TablesOk(sw.hosts, sw.ecmp, sw.flows, e0, ecmp, hosts, keys, routes, {}, keys, keys)
    requires Refs(e0, k) > |Own(o, keys, k)|
    ensures k in e0 && !Unnamed(sw, e0[k].id)
  {
    hide TablesOk, Once, Own;
    if HostsOn(hosts, keys, k) != {} {
      var h :| h in HostsOn(hosts, keys, k);
      NamedByHost(sw, e0, hosts, ecmp, routes, keys, h);
    } else {
      if forall q :: q in w && Resolves(q, keys, k) ==> q.dst == d && q.nh in Own(o, keys, k) {
        OwnAtMost(w, d, Own(o, keys, k), keys, k);
      }
      var q :| q in w && Resolves(q, keys, k) && !(q.dst == d && q.nh in Own(o, keys, k));
      OwnHas(o, keys, k, q.nh);
      NamedByPair(sw, e0, hosts, ecmp, routes, keys, q);
    }
  }

  lemma OwnHas(o: set<NhStub>, keys: Keys, k: EgressKey, nh: NhStub)
    ensures nh in o && nh.Id() in keys && keys[nh.Id()] == k ==> nh in Own(o, keys, k)
  {
  }

  lemma NamedByHost(sw: Switch, e0: Egress, hosts: set<NeighId>, ecmp: Ecmp, routes: Routes, keys: Keys, h: NeighId)
    requires TablesOk(sw.hosts, sw.ecmp, sw.flows, e0, ecmp, hosts, keys, routes, {}, keys, keys)
    requires h in hosts && h in keys && keys[h] in e0
    ensures !Unnamed(sw, e0[keys[h]].id)
  {
    hide MembersOk, FlowsOk;
    assert h.addr in sw.hosts;
  }

  lemma NamedByPair(sw: Switch, e0: Egress, hosts: set<NeighId>, ecmp: Ecmp, routes: Routes, keys: Keys, q: Pair)
    requires TablesOk(sw.hosts, sw.ecmp, sw.flows, e0, ecmp, hosts, keys, routes, {}, keys, keys)
    requires Current(routes, {}, keys, keys, q) && keys[q.nh.Id()] in e0
    ensures !Unnamed(sw, e0[keys[q.nh.Id()]].id)
  {
    hide HostsOk;
    var s := routes[q.dst];
    assert IsTarget(sw.flows[q.dst], s, keys, e0, ecmp) && AnyResolved(s, keys);
    if |s| > 1 {
      assert s !in Touched(routes, {});
      assert e0[keys[q.nh.Id()]].id in Ids(s, keys, e0);
      assert ecmp[s].id in sw.ecmp;
    }
  }

  /** A key that is not spared is gone in the end, while something names it. */
  lemma UnsparedDangles(sw0: Switch, pool0: IdPool.Pool, e0: Egress, sw1: Switch, pool1: IdPool.Pool, e1: Egress,
                        w: seq<Pair>, hosts: set<NeighId>, ecmp: Ecmp, routes: Routes, cache: Cache, links: Links,
                        keys: Keys, d: Addr, o: set<NhStub>)
    requires Counted(e0, hosts, w, keys) && Once(w) && Accounted(w, d, o, routes, keys)
    requires TablesOk(sw0.hosts, sw0.ecmp, sw0.flows, e0, ecmp, hosts, keys, routes, {}, keys, keys)
    requires EgressWired(e0, pool0, sw0.egress) && EgressWired(e1, pool1, sw1.egress)
    requires sw1 == sw0.(egress := sw1.egress) && FewerGroups(sw0.egress, sw1.egress)
    requires forall k :: Refs(e1, k) == Monus(Refs(e0, k), |OnKey(o, cache, links, k)|)
    requires !Spared(o, cache, links, keys, e0)
    ensures !Closed(sw1)
  {
    hide Counted, Once, Accounted, TablesOk, OnKey, Own;
    var k :| Refs(e0, k) > |Own(o, keys, k)| && Refs(e0, k) <= |OnKey(o, cache, links, k)|;
    OthersNamed(sw0, e0, w, hosts, ecmp, routes, keys, d, o, k);
    assert Refs(e1, k) == 0;
    assert k !in e1;
    assert e0[k].id !in sw1.egress;
  }

  lemma SurvivorInBase(routes: Routes, keys: Keys, d: Addr, base: seq<Pair>, p: Pair)
    requires Survives(routes, keys, d, base, []) && Current(routes, {}, keys, keys, p)
    ensures p in base && p.dst != d
  {
  }

  lemma UsedByHost(hosts: set<NeighId>, w: seq<Pair>, keys: Keys, h: NeighId)
    requires h in hosts && h in keys
    ensures Uses(hosts, w, keys, keys[h]) > 0
  {
    assert h in HostsOn(hosts, keys, keys[h]);
  }

  lemma UsedByPair(hosts: set<NeighId>, w: seq<Pair>, keys: Keys, p: Pair)
    requires p in w && p.nh.Id() in keys
    ensures Uses(hosts, w, keys, keys[p.nh.Id()]) > 0
  {
    WatchersMember(w, p, keys, keys[p.nh.Id()]);
  }

  /** With cache and lists in agreement, what is removed is everything of the route. */
  lemma StrippedAgree(u1: seq<Pair>, u0: seq<Pair>, w1: seq<Pair>, w0: seq<Pair>, d: Addr, o: set<NhStub>, cache: Cache,
                      links: Links, keys: Keys)
    requires CacheAgrees(cache, links, o, keys)
    requires forall nh :: nh in o ==>
               (nh.Id() in keys <==> Pair(d, nh) in w0) && (nh.Id() !in keys <==> Pair(d, nh) in u0)
    requires Stripped(u1, u0, d, Uncached(o, cache)) && Stripped(w1, w0, d, Cached(o, cache))
    ensures Stripped(u1, u0, d, o) && Stripped(w1, w0, d, o)
  {
  }

  lemma ProgressRefs(e0: Egress, w0: seq<Pair>, e: Egress, w: seq<Pair>, hosts: set<NeighId>, cache: Cache,
                     links: Links, keys: Keys, gone: set<NhStub>)
    requires Progress(e0, w0, e, w, hosts, cache, links, keys, gone)
    ensures forall x :: Refs(e, x) == Monus(Refs(e0, x), |OnKey(gone, cache, links, x)|)
  {
  }

  lemma NotThere(a: seq<Pair>, base: seq<Pair>, d: Addr, gone: set<NhStub>, nh: NhStub)
    requires Stripped(a, base, d, gone) && Pair(d, nh) !in base
    ensures Pair(d, nh) !in a
  {
  }

  lemma KeyKnown(nh: NhStub, o: set<NhStub>, cache: Cache, links: Links, keys: Keys)
    requires CacheKeys(cache, links, o, keys) && nh in o && nh.Id() in cache.neighs
    ensures nh.ifindex in links
    ensures nh.Id() in keys ==> KeyOf(links, nh.Id(), cache.neighs[nh.Id()]) == keys[nh.Id()]
  {
  }

  lemma AgreeKeys(nh: NhStub, o: set<NhStub>, cache: Cache, links: Links, keys: Keys)
    requires nh in o && nh.Id() in cache.neighs && nh.Id() !in keys
    ensures !CacheAgrees(cache, links, o, keys)
  {
  }

  lemma UncachedWaits(nh: NhStub, o: set<NhStub>, cache: Cache, links: Links, keys: Keys)
    requires nh in o && nh.Id() !in cache.neighs
    ensures CacheAgrees(cache, links, o, keys) ==> nh.Id() !in keys
  {
  }

  lemma CachedNew(gone: set<NhStub>, nh: NhStub, cache: Cache)
    requires nh !in gone && nh.Id() in cache.neighs
    ensures nh !in Cached(gone, cache)
  {
  }

  lemma HeldCurrent(e: Egress, hosts: set<NeighId>, all: Keys, routes: Routes, done: set<Addr>, keys0: Keys,
                    keys1: Keys)
    requires HeldAll(e, hosts, all, routes, done, keys0, keys1)
    ensures CurrentHeld(e, routes, done, keys0, keys1)
  {
  }
}
