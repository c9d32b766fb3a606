/** Neighbours that are told to go one after the other while the cache still shows all of them: what the
    groups are made to show, and when a message leaves a dangling reference, exactly. */
module L3Walk {
  import opened L3Types
  import opened SetFacts
  import opened L3Switch
  import opened L3Model
  import opened L3Release
  import IdPool
  import PrefixSearch

  /** Next hops whose egress ids an ECMP group was last given. */
  type Shown = map<set<NhStub>, set<NhStub>>

  /** What does not change on the way; ns are the neighbours that go. */
  datatype Setting = Setting(cache: Cache, links: Links, keys: Keys, routes: Routes, ecmp: Ecmp,
                             owner: map<nat, set<NhStub>>, ns: set<NeighId>)

  ghost predicate SettingOk(c: Setting) {
    && CacheSync(c.cache, c.links, c.routes, c.keys, c.ns) && RoutesOk(c.routes)
    && (forall s :: s in c.ecmp ==> |s| > 1 && c.ecmp[s].id in c.owner && c.owner[c.ecmp[s].id] == s)
    && (forall d :: d in c.routes && |c.routes[d]| > 1 ==> c.routes[d] in c.ecmp)
    && (forall s :: s in c.ecmp ==> exists d :: d in c.routes && c.routes[d] == s)
  }

  /** Egress table and egress groups are inverse maps. */
  ghost predicate IdsWired(egress: Egress, groups: map<nat, EgressKey>) {
    && (forall k :: k in egress ==> egress[k].id in groups && groups[egress[k].id] == k && egress[k].refcnt > 0)
    && (forall i :: i in groups ==> groups[i] in egress && egress[groups[i]].id == i)
  }

  ghost predicate GroupsShow(c: Setting, groups: map<nat, set<nat>>, shown: Shown, egress: Egress) {
    && (forall g :: g in groups ==> g in c.owner && c.owner[g] in c.ecmp && c.ecmp[c.owner[g]].id == g)
    && (forall s :: s in c.ecmp ==>
          && s in shown && shown[s] <= s && c.ecmp[s].id in groups
          && groups[c.ecmp[s].id] == Ids(shown[s], c.keys, egress))
  }

  /** The flow of destination d: a multipath route follows what its group shows, unless it is still to be
      told; a route with one next hop uses it while the pair is watched. */
  ghost predicate FlowShows(c: Setting, t: Target, d: Addr, w: seq<Pair>, groups: map<nat, set<nat>>, egress: Egress,
                            pending: set<Addr>)
    requires d in c.routes
  {
    var s := c.routes[d];
    if |s| > 1 then
      && s in c.ecmp && c.ecmp[s].id in groups
      && (t == ToController || t == ToEcmp(c.ecmp[s].id))
      && (d !in pending ==> t == AfterLoss(s, groups[c.ecmp[s].id], c.ecmp))
    else
      || (t == ToController && forall nh :: nh in s ==> Pair(d, nh) !in w)
      || (exists nh :: nh in s && Pair(d, nh) in w && nh.Id() in c.keys && c.keys[nh.Id()] in egress
                       && t == ToEgress(egress[c.keys[nh.Id()]].id))
  }

  ghost predicate FlowsShow(c: Setting, flows: map<Addr, Target>, w: seq<Pair>, groups: map<nat, set<nat>>,
                            egress: Egress, pending: set<Addr>) {
    flows.Keys == c.routes.Keys && forall d :: d in c.routes ==> FlowShows(c, flows[d], d, w, groups, egress, pending)
  }

  ghost predicate PairsOk(c: Setting, w: seq<Pair>) {
    Once(w) && forall q :: q in w ==> Wants(c.routes, q) && q.nh.Id() in c.keys
  }

  /** A point of the walk: egress table, watched pairs, host neighbours, message stream and what is shown. */
  datatype Point = Point(egress: Egress, w: seq<Pair>, hosts: set<NeighId>, log: seq<Msg>, shown: Shown)

  /** The switch holds what is shown at this point. */
  ghost predicate Shows(c: Setting, p: Point, sw: Switch, pending: set<Addr>) {
    && IdsWired(p.egress, sw.egress) && PairsOk(c, p.w)
    && HostsOk(sw.hosts, p.hosts, c.keys, p.egress)
    && GroupsShow(c, sw.ecmp, p.shown, p.egress)
    && FlowsShow(c, sw.flows, p.w, sw.ecmp, p.egress, pending)
  }

  ghost predicate Walking(c: Setting, p: Point, pending: set<Addr>) {
    ClosedThroughout(p.log) && Counted(p.egress, p.hosts, p.w, c.keys) && Shows(c, p, Replay(p.log), pending)
  }

  /** No group shows a next hop on key k. */
  ghost predicate NotShown(c: Setting, shown: Shown, k: EgressKey) {
    forall s, nh :: s in c.ecmp && s in shown && nh in shown[s] && nh.Id() in c.keys ==> c.keys[nh.Id()] != k
  }

  // ------------------------------------------------------------ releases

  /** Under a right count, the last reference names nothing but what the groups show. */
  lemma LastNames(c: Setting, p: Point, sw: Switch, k: EgressKey, pending: set<Addr>)
    requires LastRef(p.egress, k) && Shows(c, p, sw, pending)
    requires Counted(Released(p.egress, k), p.hosts, p.w, c.keys)
    ensures Unnamed(sw, p.egress[k].id) <==> NotShown(c, p.shown, k)
  {
    hide Counted, FlowsShow, GroupsShow, PairsOk, NotShown;
    forall a | a in sw.hosts ensures sw.hosts[a] != p.egress[k].id {
      var n :| n in p.hosts && n.addr == a;
      HeldByHost(Released(p.egress, k), p.hosts, p.w, c.keys, n);
    }
    FlowsLeave(c, p, sw, k, pending);
    GroupNames(c, p.egress, sw, p.shown, k);
  }

  lemma FlowsLeave(c: Setting, p: Point, sw: Switch, k: EgressKey, pending: set<Addr>)
    requires LastRef(p.egress, k) && IdsWired(p.egress, sw.egress)
    requires FlowsShow(c, sw.flows, p.w, sw.ecmp, p.egress, pending)
    requires Counted(Released(p.egress, k), p.hosts, p.w, c.keys)
    ensures forall d :: d in sw.flows ==> sw.flows[d] != ToEgress(p.egress[k].id)
  {
    hide Counted;
    var id := p.egress[k].id;
    forall d | d in sw.flows ensures sw.flows[d] != ToEgress(id) {
      assert FlowShows(c, sw.flows[d], d, p.w, sw.ecmp, p.egress, pending);
      if sw.flows[d] == ToEgress(id) {
        var nh :| nh in c.routes[d] && Pair(d, nh) in p.w && nh.Id() in c.keys && c.keys[nh.Id()] in p.egress
                  && ToEgress(id) == ToEgress(p.egress[c.keys[nh.Id()]].id);
        HeldByPair(Released(p.egress, k), p.hosts, p.w, c.keys, Pair(d, nh));
      }
    }
  }

  /** A group names the id of key k exactly when it shows a next hop on k. */
  lemma GroupNames(c: Setting, egress: Egress, sw: Switch, shown: Shown, k: EgressKey)
    requires GroupsShow(c, sw.ecmp, shown, egress) && IdsWired(egress, sw.egress) && k in egress
    ensures (forall g :: g in sw.ecmp ==> egress[k].id !in sw.ecmp[g]) <==> NotShown(c, shown, k)
  {
    if NotShown(c, shown, k) {
      forall g | g in sw.ecmp ensures egress[k].id !in sw.ecmp[g] {
        var s := c.owner[g];
        assert sw.ecmp[g] == Ids(shown[s], c.keys, egress);
      }
    }
    if forall g :: g in sw.ecmp ==> egress[k].id !in sw.ecmp[g] {
      forall s, nh | s in c.ecmp && s in shown && nh in shown[s] && nh.Id() in c.keys ensures c.keys[nh.Id()] != k {
        assert egress[k].id !in sw.ecmp[c.ecmp[s].id];
      }
    }
  }

  /** The point once one reference of key k is given up. */
  ghost function AfterRelease(p: Point, k: EgressKey): Point {
    p.(egress := Released(p.egress, k), log := p.log + ReleaseMsgs(p.egress, k))
  }

  /** The switch goes on showing the same when key k goes that no group shows and nobody uses. */
  lemma ShowsReleased(c: Setting, p: Point, sw: Switch, k: EgressKey, pending: set<Addr>)
    requires Shows(c, p, sw, pending) && Counted(Released(p.egress, k), p.hosts, p.w, c.keys)
    requires k in p.egress && (LastRef(p.egress, k) ==> NotShown(c, p.shown, k))
    ensures Shows(c, AfterRelease(p, k),
                  if LastRef(p.egress, k) then sw.(egress := sw.egress - {p.egress[k].id}) else sw, pending)
  {
    hide Counted, Released, NotShown, HostsOk, IdsWired, GroupsShow, FlowsShow, PairsOk, LastRef;
    var e := Released(p.egress, k);
    forall n | n in p.hosts && n in c.keys ensures c.keys[n] in e { HeldByHost(e, p.hosts, p.w, c.keys, n); }
    forall q | q in p.w && q.nh.Id() in c.keys ensures c.keys[q.nh.Id()] in e {
      HeldByPair(e, p.hosts, p.w, c.keys, q);
    }
    WiredReleased(p.egress, sw.egress, k);
    HostsReleased(sw.hosts, p.hosts, c.keys, p.egress, k);
    GroupsReleasedShow(c, p, sw, k);
    FlowsReleasedShow(c, p, sw, k, pending);
  }

  lemma WiredReleased(egress: Egress, groups: map<nat, EgressKey>, k: EgressKey)
    requires IdsWired(egress, groups) && k in egress
    ensures IdsWired(Released(egress, k), if LastRef(egress, k) then groups - {egress[k].id} else groups)
  {
  }

  lemma HostsReleased(table: map<Addr, nat>, hosts: set<NeighId>, keys: Keys, egress: Egress, k: EgressKey)
    requires HostsOk(table, hosts, keys, egress)
    requires forall n :: n in hosts && n in keys ==> keys[n] in Released(egress, k)
    ensures HostsOk(table, hosts, keys, Released(egress, k))
  {
  }

  lemma GroupsReleasedShow(c: Setting, p: Point, sw: Switch, k: EgressKey)
    requires GroupsShow(c, sw.ecmp, p.shown, p.egress) && (LastRef(p.egress, k) ==> NotShown(c, p.shown, k))
    ensures GroupsShow(c, sw.ecmp, p.shown, Released(p.egress, k))
  {
    hide Ids, NotShown, LastRef, Released;
    forall s | s in c.ecmp ensures Ids(p.shown[s], c.keys, p.egress) == Ids(p.shown[s], c.keys, Released(p.egress, k)) {
      ShownIds(c, p.shown, s, p.egress, k);
    }
  }

  lemma FlowsReleasedShow(c: Setting, p: Point, sw: Switch, k: EgressKey, pending: set<Addr>)
    requires FlowsShow(c, sw.flows, p.w, sw.ecmp, p.egress, pending)
    requires forall q :: q in p.w && q.nh.Id() in c.keys ==> c.keys[q.nh.Id()] in Released(p.egress, k)
    ensures FlowsShow(c, sw.flows, p.w, sw.ecmp, Released(p.egress, k), pending)
  {
    var e := Released(p.egress, k);
    ReleasedSameIds(p.egress, k);
    assert forall x :: x in e ==> x in p.egress;
    hide Released;
    forall d | d in c.routes ensures FlowShows(c, sw.flows[d], d, p.w, sw.ecmp, e, pending) {
      assert FlowShows(c, sw.flows[d], d, p.w, sw.ecmp, p.egress, pending);
    }
  }

  lemma ShownIds(c: Setting, shown: Shown, s: set<NhStub>, egress: Egress, k: EgressKey)
    requires s in c.ecmp && s in shown && (LastRef(egress, k) ==> NotShown(c, shown, k))
    ensures Ids(shown[s], c.keys, egress) == Ids(shown[s], c.keys, Released(egress, k))
  {
  }

  lemma ReleaseStep(c: Setting, p: Point, k: EgressKey, pending: set<Addr>)
    requires SettingOk(c) && ClosedThroughout(p.log) && Shows(c, p, Replay(p.log), pending) && k in p.egress
    requires Counted(Released(p.egress, k), p.hosts, p.w, c.keys)
    ensures ClosedThroughout(AfterRelease(p, k).log) <==> (LastRef(p.egress, k) ==> NotShown(c, p.shown, k))
    ensures ClosedThroughout(AfterRelease(p, k).log) ==> Walking(c, AfterRelease(p, k), pending)
  {
    hide ClosedThroughout, Shows, Replay, Counted, NotShown, SettingOk, Proper, Released, Closed, Unnamed;
    var sw := Replay(p.log);
    if LastRef(p.egress, k) {
      var m := EgressRemove(p.egress[k].id);
      OneMore(p.log, m);
      ClosedAtEnd(p.log);
      LastNames(c, p, sw, k, pending);
      RemovableIff(sw, p.egress[k].id);
    } else {
      assert p.log + [] == p.log;
    }
    if LastRef(p.egress, k) ==> NotShown(c, p.shown, k) {
      ShowsReleased(c, p, sw, k, pending);
    }
  }

  // ------------------------------------------------------- notifications

  /** What is shown once the route of pair q was told that its next hop is gone. */
  function TellOne(c: Setting, shown: Shown, q: Pair): Shown {
    if q.dst in c.routes && |c.routes[q.dst]| > 1 then shown[c.routes[q.dst] := c.routes[q.dst] - {q.nh}] else shown
  }

  /** The messages of the first half of an unreachable notification. */
  ghost function MoveMsgs(c: Setting, q: Pair, egress: Egress): seq<Msg>
    requires q.dst in c.routes
  {
    var s := c.routes[q.dst];
    var ids := Ids(s - {q.nh}, c.keys, egress);
    RedirectMsgs(q.dst, s, ids, AfterLoss(s, ids, c.ecmp), c.ecmp)
  }

  /** Pair i has been moved off its next hop and is not watched any more. */
  ghost function AfterMove(c: Setting, p: Point, i: nat): Point
    requires i < |p.w| && p.w[i].dst in c.routes
  {
    p.(w := Without(p.w, i), shown := TellOne(c, p.shown, p.w[i]), log := p.log + MoveMsgs(c, p.w[i], p.egress))
  }

  lemma CachedIsIds(s: set<NhStub>, cache: Cache, links: Links, keys: Keys, egress: Egress)
    requires CacheAgrees(cache, links, s, keys)
    ensures CachedIds(s, cache, links, egress) == Ids(s, keys, egress)
  {
  }

  /** With the cache showing everybody, a notification tells the route to use all its other next hops. */
  lemma UnreachIs(c: Setting, q: Pair, k: EgressKey, egress: Egress)
    requires SettingOk(c) && Wants(c.routes, q) && q.nh.Id() in c.ns
    ensures UnreachMsgs(q, k, c.cache, c.links, c.ecmp, egress) == MoveMsgs(c, q, egress) + ReleaseMsgs(egress, k)
  {
    var s := c.routes[q.dst];
    assert CacheAgrees(c.cache, c.links, s, c.keys);
    CachedIsIds(s - {q.nh}, c.cache, c.links, c.keys, egress);
  }

  /** All routes with next-hop set s that are not to be told any more have been told. */
  ghost predicate ToldAlike(c: Setting, shown: Shown, q: Pair, pending: set<Addr>)
    requires q.dst in c.routes
  {
    var s := c.routes[q.dst];
    |s| > 1 ==>
      forall d :: d in c.routes && c.routes[d] == s && d !in pending && s in shown ==> shown[s] == s - {q.nh}
  }

  /** The switch after these messages. */
  lemma {:induction false} MoveCloses(c: Setting, log: seq<Msg>, d: Addr, s: set<NhStub>, ids: set<nat>, t: Target)
    requires ClosedThroughout(log) && ids <= Replay(log).egress.Keys && LiveTarget(Replay(log), t)
    requires |s| > 1 ==> s in c.ecmp && c.ecmp[s].id in Replay(log).ecmp
    ensures var l := log + RedirectMsgs(d, s, ids, t, c.ecmp);
            ClosedThroughout(l) && Replay(l) == Redirected(Replay(log), d, s, ids, t, c.ecmp)
  {
    hide ClosedThroughout, Replay, Proper;
    ClosedAtEnd(log);
    if |s| > 1 {
      var m := EcmpModify(c.ecmp[s].id, ids);
      OneMore(log, m);
      OneMore(log + [m], RouteSet(d, t));
      assert log + [m] + [RouteSet(d, t)] == log + RedirectMsgs(d, s, ids, t, c.ecmp);
    } else {
      OneMore(log, RouteSet(d, t));
      assert [] + [RouteSet(d, t)] == [RouteSet(d, t)];
    }
  }

  lemma MoveStep(c: Setting, p: Point, i: nat, pending: set<Addr>)
    requires SettingOk(c) && ClosedThroughout(p.log) && Shows(c, p, Replay(p.log), pending)
    requires i < |p.w| && Wants(c.routes, p.w[i]) && ToldAlike(c, p.shown, p.w[i], pending)
    ensures var p' := AfterMove(c, p, i);
            ClosedThroughout(p'.log) && Shows(c, p', Replay(p'.log), pending - {p.w[i].dst})
  {
    var q, sw := p.w[i], Replay(p.log);
    var s := c.routes[q.dst];
    var ids := Ids(s - {q.nh}, c.keys, p.egress);
    var t := AfterLoss(s, ids, c.ecmp);
    hide ClosedThroughout, Replay, FlowsShow, HostsOk, ToldAlike, CacheSync, RoutesOk, PairsOk, Once;
    assert ids <= sw.egress.Keys;
    assert LiveTarget(sw, t);
    MoveCloses(c, p.log, q.dst, s, ids, t);
    var sw' := Redirected(sw, q.dst, s, ids, t, c.ecmp);
    OneFewer(c, p.w, i);
    GroupsMove(c, p, sw, i);
    FlowsMove(c, p, sw, i, pending);
  }

  lemma OneFewer(c: Setting, w: seq<Pair>, i: nat)
    requires PairsOk(c, w) && i < |w|
    ensures PairsOk(c, Without(w, i)) && forall x :: x in Without(w, i) <==> x in w && x != w[i]
  {
    OnceWithout(w, i);
  }

  lemma GroupsMove(c: Setting, p: Point, sw: Switch, i: nat)
    requires SettingOk(c) && GroupsShow(c, sw.ecmp, p.shown, p.egress)
    requires i < |p.w| && Wants(c.routes, p.w[i])
    ensures var q := p.w[i];
            var s := c.routes[q.dst];
            var ids := Ids(s - {q.nh}, c.keys, p.egress);
            GroupsShow(c, Redirected(sw, q.dst, s, ids, AfterLoss(s, ids, c.ecmp), c.ecmp).ecmp,
                       TellOne(c, p.shown, q), p.egress)
  {
    hide CacheSync, RoutesOk, Ids;
    var q := p.w[i];
    var s := c.routes[q.dst];
    forall x | x in c.ecmp && x != s && s in c.ecmp ensures c.ecmp[x].id != c.ecmp[s].id {
      assert c.owner[c.ecmp[x].id] == x;
    }
  }

  lemma FlowsMove(c: Setting, p: Point, sw: Switch, i: nat, pending: set<Addr>)
    requires SettingOk(c) && GroupsShow(c, sw.ecmp, p.shown, p.egress) && PairsOk(c, p.w)
    requires FlowsShow(c, sw.flows, p.w, sw.ecmp, p.egress, pending)
    requires i < |p.w| && Wants(c.routes, p.w[i]) && ToldAlike(c, p.shown, p.w[i], pending)
    ensures var q := p.w[i];
            var s := c.routes[q.dst];
            var ids := Ids(s - {q.nh}, c.keys, p.egress);
            var sw' := Redirected(sw, q.dst, s, ids, AfterLoss(s, ids, c.ecmp), c.ecmp);
            FlowsShow(c, sw'.flows, Without(p.w, i), sw'.ecmp, p.egress, pending - {q.dst})
  {
    hide CacheSync, RoutesOk, Ids, PairsOk;
    var q := p.w[i];
    var s := c.routes[q.dst];
    var ids := Ids(s - {q.nh}, c.keys, p.egress);
    var t := AfterLoss(s, ids, c.ecmp);
    var sw' := Redirected(sw, q.dst, s, ids, t, c.ecmp);
    OneFewer(c, p.w, i);
    forall d | d in c.routes
      ensures FlowShows(c, sw'.flows[d], d, Without(p.w, i), sw'.ecmp, p.egress, pending - {q.dst}) {
      assert FlowShows(c, sw.flows[d], d, p.w, sw.ecmp, p.egress, pending);
      hide FlowsShow, SettingOk, GroupsShow;
      if d == q.dst {
        FlowTold(c, p, sw, i, pending);
      } else {
        FlowStays(c, p, sw, i, pending, d);
      }
    }
  }

  /** The destination that is told follows its group. */
  lemma FlowTold(c: Setting, p: Point, sw: Switch, i: nat, pending: set<Addr>)
    requires SettingOk(c) && GroupsShow(c, sw.ecmp, p.shown, p.egress) && i < |p.w| && Wants(c.routes, p.w[i])
    requires p.w[i] !in Without(p.w, i)
    ensures var q := p.w[i];
            var s := c.routes[q.dst];
            var ids := Ids(s - {q.nh}, c.keys, p.egress);
            var sw' := Redirected(sw, q.dst, s, ids, AfterLoss(s, ids, c.ecmp), c.ecmp);
            FlowShows(c, sw'.flows[q.dst], q.dst, Without(p.w, i), sw'.ecmp, p.egress, pending - {q.dst})
  {
    hide CacheSync, RoutesOk, Ids;
    var q := p.w[i];
    if |c.routes[q.dst]| <= 1 { OnlyOne(c.routes[q.dst], q.nh); }
  }

  /** The others keep their flows, and their groups show what they showed if they have been told. */
  lemma FlowStays(c: Setting, p: Point, sw: Switch, i: nat, pending: set<Addr>, d: Addr)
    requires SettingOk(c) && GroupsShow(c, sw.ecmp, p.shown, p.egress) && i < |p.w| && Wants(c.routes, p.w[i])
    requires ToldAlike(c, p.shown, p.w[i], pending) && d in c.routes && d != p.w[i].dst && d in sw.flows
    requires forall x :: x in Without(p.w, i) <==> x in p.w && x != p.w[i]
    requires FlowShows(c, sw.flows[d], d, p.w, sw.ecmp, p.egress, pending)
    ensures var q := p.w[i];
            var s := c.routes[q.dst];
            var ids := Ids(s - {q.nh}, c.keys, p.egress);
            var sw' := Redirected(sw, q.dst, s, ids, AfterLoss(s, ids, c.ecmp), c.ecmp);
            FlowShows(c, sw'.flows[d], d, Without(p.w, i), sw'.ecmp, p.egress, pending - {q.dst})
  {
    hide CacheSync, RoutesOk, Ids, Without;
    var s := c.routes[p.w[i].dst];
    if |c.routes[d]| > 1 && |s| > 1 && c.routes[d] != s {
      assert c.owner[c.ecmp[s].id] == s && c.owner[c.ecmp[c.routes[d]].id] == c.routes[d];
    }
  }

  lemma OnlyOne<T>(s: set<T>, x: T)
    requires x in s && |s| <= 1
    ensures forall y :: y in s ==> y == x
  {
    forall y | y in s ensures y == x { if y != x { SubsetSize({x, y}, s); } }
  }

  /** Destinations that are still to be told that neighbour n is gone. */
  ghost function Pending(w: seq<Pair>, n: NeighId): set<Addr> {
    set q | q in w && q.nh.Id() == n :: q.dst
  }

  function TellAll(c: Setting, shown: Shown, w: seq<Pair>, n: NeighId): Shown
    decreases |w|
  {
    if w == [] then shown
    else TellAll(c, if w[0].nh.Id() == n then TellOne(c, shown, w[0]) else shown, w[1..], n)
  }

  lemma {:induction false} TellNone(c: Setting, shown: Shown, w: seq<Pair>, n: NeighId)
    requires forall q :: q in w ==> q.nh.Id() != n
    ensures TellAll(c, shown, w, n) == shown
  {
    if w != [] {
      assert w[0] in w;
      TellNone(c, shown, w[1..], n);
    }
  }

  /** The first pair is one for another neighbour: the walk goes on behind it. */
  lemma SkipFirst(c: Setting, pre: seq<Pair>, w: seq<Pair>, n: NeighId, k: EgressKey, egress: Egress, log: seq<Msg>)
    requires w != [] && w[0].nh.Id() != n
    ensures pre + w == (pre + [w[0]]) + w[1..] && pre + Off(w, n) == (pre + [w[0]]) + Off(w[1..], n)
    ensures Notified(w, n, k, c.cache, c.links, c.ecmp, egress, log)
         == Notified(w[1..], n, k, c.cache, c.links, c.ecmp, egress, log)
  {
    hide UnreachMsgs, Released;
  }

  lemma TakeFirst(c: Setting, pre: seq<Pair>, w: seq<Pair>, n: NeighId, k: EgressKey, egress: Egress, log: seq<Msg>)
    requires w != [] && w[0].nh.Id() == n
    ensures Without(pre + w, |pre|) == pre + w[1..] && (pre + w)[|pre|] == w[0] && Off(w, n) == Off(w[1..], n)
    ensures Notified(w, n, k, c.cache, c.links, c.ecmp, egress, log)
         == Notified(w[1..], n, k, c.cache, c.links, c.ecmp, Released(egress, k),
                     log + UnreachMsgs(w[0], k, c.cache, c.links, c.ecmp, egress))
  {
    hide UnreachMsgs, Released;
  }

  /** The counts stay right whatever the messages do. */
  lemma {:induction false} NotifiedCounted(c: Setting, pre: seq<Pair>, w: seq<Pair>, hosts: set<NeighId>, n: NeighId,
                                           egress: Egress, log: seq<Msg>)
    requires n in c.keys && Counted(egress, hosts, pre + w, c.keys)
    ensures Counted(Notified(w, n, c.keys[n], c.cache, c.links, c.ecmp, egress, log).0, hosts, pre + Off(w, n), c.keys)
    decreases |w|
  {
    if w == [] {
      assert pre + w == pre + Off(w, n);
    } else if w[0].nh.Id() == n {
      hide Counted, UnreachMsgs, Released, Notified, Off;
      TakeFirst(c, pre, w, n, c.keys[n], egress, log);
      CountedDropPair(egress, hosts, pre + w, c.keys, |pre|);
      NotifiedCounted(c, pre, w[1..], hosts, n, Released(egress, c.keys[n]),
                      log + UnreachMsgs(w[0], c.keys[n], c.cache, c.links, c.ecmp, egress));
    } else {
      hide Counted, UnreachMsgs, Released, Notified, Off;
      SkipFirst(c, pre, w, n, c.keys[n], egress, log);
      NotifiedCounted(c, pre + [w[0]], w[1..], hosts, n, egress, log);
    }
  }

  /** Routes through n that are not pending have been told. */
  ghost predicate ToldRest(c: Setting, shown: Shown, n: NeighId, pending: set<Addr>) {
    forall d, nh :: d in c.routes && nh in c.routes[d] && nh.Id() == n && d !in pending && |c.routes[d]| > 1
                    && c.routes[d] in shown ==>
      shown[c.routes[d]] == c.routes[d] - {nh}
  }

  lemma PendingNext(c: Setting, pre: seq<Pair>, w: seq<Pair>, n: NeighId)
    requires RoutesOk(c.routes) && PairsOk(c, pre + w) && w != [] && w[0].nh.Id() == n
    ensures Wants(c.routes, w[0]) && Without(pre + w, |pre|) == pre + w[1..] && (pre + w)[|pre|] == w[0]
    ensures Pending(w[1..], n) == Pending(w, n) - {w[0].dst}
  {
    var q := w[0];
    assert (pre + w)[|pre|] == q;
    assert q in pre + w;
    forall x | x in w[1..] && x.nh.Id() == n ensures x.dst != q.dst {
      var j :| 0 <= j < |w[1..]| && w[1..][j] == x;
      assert (pre + w)[|pre| + 1 + j] == x;
      assert x in pre + w;
      assert RouteOk(c.routes[q.dst]);
    }
    assert forall x :: x in w <==> x == q || x in w[1..];
  }

  /** One more route is told. */
  lemma ToldNext(c: Setting, shown: Shown, q: Pair, pending: set<Addr>)
    requires RoutesOk(c.routes) && Wants(c.routes, q) && ToldRest(c, shown, q.nh.Id(), pending)
    ensures ToldAlike(c, shown, q, pending)
    ensures ToldRest(c, TellOne(c, shown, q), q.nh.Id(), pending - {q.dst})
  {
    assert RouteOk(c.routes[q.dst]);
  }

  ghost function Gone(c: Setting, p: Point, pre: seq<Pair>, w: seq<Pair>, n: NeighId): Point
    requires n in c.keys
  {
    var r := Notified(w, n, c.keys[n], c.cache, c.links, c.ecmp, p.egress, p.log);
    Point(r.0, pre + Off(w, n), p.hosts, r.1, TellAll(c, p.shown, w, n))
  }

  lemma TellReady(c: Setting, p: Point, pre: seq<Pair>, w: seq<Pair>, n: NeighId)
    requires SettingOk(c) && p.w == pre + w && w != [] && w[0].nh.Id() == n
    requires Walking(c, p, Pending(w, n)) && ToldRest(c, p.shown, n, Pending(w, n))
    ensures Wants(c.routes, w[0]) && Without(p.w, |pre|) == pre + w[1..] && p.w[|pre|] == w[0]
    ensures ToldAlike(c, p.shown, w[0], Pending(w, n)) && Pending(w[1..], n) == Pending(w, n) - {w[0].dst}
    ensures ToldRest(c, TellOne(c, p.shown, w[0]), n, Pending(w[1..], n))
  {
    assert RoutesOk(c.routes) && PairsOk(c, p.w);
    hide SettingOk, Walking, PairsOk, ToldRest, ToldAlike, Wants, RoutesOk, Pending, TellOne;
    PendingNext(c, pre, w, n);
    ToldNext(c, p.shown, w[0], Pending(w, n));
  }

  /** The point after the pair at the front of w was told. */
  ghost function Next(c: Setting, p: Point, pre: seq<Pair>, w: seq<Pair>, k: EgressKey): Point
    requires w != []
  {
    Point(Released(p.egress, k), pre + w[1..], p.hosts,
          p.log + UnreachMsgs(w[0], k, c.cache, c.links, c.ecmp, p.egress), TellOne(c, p.shown, w[0]))
  }

  lemma NextIs(c: Setting, p: Point, pre: seq<Pair>, w: seq<Pair>, k: EgressKey)
    requires SettingOk(c) && w != [] && Wants(c.routes, w[0]) && w[0].nh.Id() in c.ns && p.w == pre + w
    requires Without(p.w, |pre|) == pre + w[1..] && p.w[|pre|] == w[0]
    ensures var p1 := AfterMove(c, p, |pre|);
            && p1.egress == p.egress && p1.hosts == p.hosts
            && p1.w == pre + w[1..] && p1.shown == TellOne(c, p.shown, w[0])
            && AfterRelease(p1, k) == Next(c, p, pre, w, k)
  {
    hide SettingOk, Released, ReleaseMsgs, MoveMsgs, UnreachMsgs, TellOne;
    UnreachIs(c, w[0], k, p.egress);
    assert p.log + MoveMsgs(c, w[0], p.egress) + ReleaseMsgs(p.egress, k)
        == p.log + (MoveMsgs(c, w[0], p.egress) + ReleaseMsgs(p.egress, k));
  }

  lemma WalkingParts(c: Setting, p: Point, pending: set<Addr>)
    requires Walking(c, p, pending)
    ensures ClosedThroughout(p.log) && Counted(p.egress, p.hosts, p.w, c.keys) && Shows(c, p, Replay(p.log), pending)
  {
  }

  lemma DropFirst(c: Setting, p: Point, pre: seq<Pair>, w: seq<Pair>, n: NeighId)
    requires n in c.keys && p.w == pre + w && w != [] && w[0].nh.Id() == n
    requires Counted(p.egress, p.hosts, p.w, c.keys)
    ensures c.keys[n] in p.egress && Counted(Released(p.egress, c.keys[n]), p.hosts, pre + w[1..], c.keys)
  {
    hide Counted;
    CountedDropPair(p.egress, p.hosts, p.w, c.keys, |pre|);
    assert p.w[..|pre|] + p.w[|pre| + 1..] == pre + w[1..];
  }

  lemma TellFirst(c: Setting, p: Point, pre: seq<Pair>, w: seq<Pair>, n: NeighId)
    requires SettingOk(c) && n in c.keys && n in c.ns && p.w == pre + w && w != [] && w[0].nh.Id() == n
    requires Walking(c, p, Pending(w, n)) && ToldRest(c, p.shown, n, Pending(w, n))
    ensures c.keys[n] in p.egress
    ensures var k := c.keys[n];
            var p' := Next(c, p, pre, w, k);
            && ToldRest(c, p'.shown, n, Pending(w[1..], n)) && Counted(p'.egress, p'.hosts, p'.w, c.keys)
            && (ClosedThroughout(p'.log) <==> (LastRef(p.egress, k) ==> NotShown(c, p'.shown, k)))
            && (ClosedThroughout(p'.log) ==> Walking(c, p', Pending(w[1..], n)))
  {
    var k := c.keys[n];
    var p' := Next(c, p, pre, w, k);
    assert p'.egress == Released(p.egress, k) && p'.w == pre + w[1..] && p'.hosts == p.hosts
           && p'.shown == TellOne(c, p.shown, w[0]);
    hide *;
    WalkingParts(c, p, Pending(w, n));
    TellReady(c, p, pre, w, n);
    DropFirst(c, p, pre, w, n);
    WantedDst(c, w[0]);
    NextIs(c, p, pre, w, k);
    MoveStep(c, p, |pre|, Pending(w, n));
    ReleaseStep(c, AfterMove(c, p, |pre|), k, Pending(w[1..], n));
  }

  lemma WantedDst(c: Setting, q: Pair)
    requires Wants(c.routes, q)
    ensures q.dst in c.routes
  {
  }

  lemma GoneFirst(c: Setting, p: Point, pre: seq<Pair>, w: seq<Pair>, n: NeighId)
    requires n in c.keys
    ensures w == [] ==> Gone(c, p, pre, w, n) == p.(w := pre + w) && Pending(w, n) == {}
    ensures w != [] && w[0].nh.Id() != n ==>
              && Gone(c, p, pre, w, n) == Gone(c, p, pre + [w[0]], w[1..], n)
              && pre + w == (pre + [w[0]]) + w[1..] && Pending(w, n) == Pending(w[1..], n)
    ensures w != [] && w[0].nh.Id() == n ==>
              Gone(c, p, pre, w, n) == Gone(c, Next(c, p, pre, w, c.keys[n]), pre, w[1..], n)
  {
    hide UnreachMsgs, Released, TellOne;
    if w != [] && w[0].nh.Id() != n { SkipFirst(c, pre, w, n, c.keys[n], p.egress, p.log); }
    if w != [] && w[0].nh.Id() == n { TakeFirst(c, pre, w, n, c.keys[n], p.egress, p.log); }
  }

  /** Nothing is left to tell. */
  lemma GoneNone(c: Setting, p: Point, pre: seq<Pair>, w: seq<Pair>, n: NeighId)
    requires n in c.keys && Counted(p.egress, p.hosts, pre + w, c.keys) && c.keys[n] !in p.egress
    ensures Gone(c, p, pre, w, n).log == p.log && Gone(c, p, pre, w, n).shown == p.shown
    ensures Gone(c, p, pre, w, n).egress == p.egress
  {
    hide Counted, Notified, TellAll;
    NoneLeft(p.egress, p.hosts, pre, w, c.keys, n);
    NotifiedNone(w, n, c.keys[n], c.cache, c.links, c.ecmp, p.egress, p.log);
    TellNone(c, p.shown, w, n);
  }

  lemma NextParts(c: Setting, p: Point, pre: seq<Pair>, w: seq<Pair>, k: EgressKey)
    requires w != []
    ensures var p' := Next(c, p, pre, w, k); p'.w == pre + w[1..] && p'.egress == Released(p.egress, k)
  {
  }

  /** All pairs for neighbour n are told: the stream stays closed if and only if the key stays or no group
      shows it afterwards. */
  lemma {:induction false} NotifiedWalk(c: Setting, p: Point, pre: seq<Pair>, w: seq<Pair>, n: NeighId)
    requires SettingOk(c) && n in c.keys && n in c.ns && p.w == pre + w
    requires Walking(c, p, Pending(w, n)) && ToldRest(c, p.shown, n, Pending(w, n))
    ensures var p', k := Gone(c, p, pre, w, n), c.keys[n];
            && (ClosedThroughout(p'.log) <==> (k in p.egress && k !in p'.egress ==> NotShown(c, p'.shown, k)))
            && (ClosedThroughout(p'.log) ==> Walking(c, p', {}))
    decreases |w|
  {
    hide *;
    var k := c.keys[n];
    GoneFirst(c, p, pre, w, n);
    if w == [] {
      WalkingParts(c, p, Pending(w, n));
      assert p.(w := pre + w) == p;
    } else if w[0].nh.Id() != n {
      NotifiedWalk(c, p, pre + [w[0]], w[1..], n);
    } else {
      TellFirst(c, p, pre, w, n);
      var p' := Next(c, p, pre, w, k);
      NextParts(c, p, pre, w, k);
      LastIsGone(p.egress, k);
      if LastRef(p.egress, k) { GoneNone(c, p', pre, w[1..], n); }
      if ClosedThroughout(p'.log) { NotifiedWalk(c, p', pre, w[1..], n); }
    }
  }

  lemma LastIsGone(egress: Egress, k: EgressKey)
    requires k in egress
    ensures k in Released(egress, k) <==> !LastRef(egress, k)
  {
  }

  lemma NoneLeft(egress: Egress, hosts: set<NeighId>, pre: seq<Pair>, w: seq<Pair>, keys: Keys, n: NeighId)
    requires Counted(egress, hosts, pre + w, keys) && n in keys && keys[n] !in egress
    ensures forall q :: q in w ==> q.nh.Id() != n
  {
    hide Counted;
    forall q | q in w ensures q.nh.Id() != n {
      assert q in pre + w;
      if q.nh.Id() == n { HeldByPair(egress, hosts, pre + w, keys, q); }
    }
  }

  /** What is shown once neighbour n is gone: all other next hops of each set it was in. */
  ghost function Tell(shown: Shown, n: NeighId): Shown {
    map s | s in shown :: if Via(s, n) then Others(s, n) else shown[s]
  }

  ghost predicate ToldOf(c: Setting, w: seq<Pair>, n: NeighId, s: set<NhStub>) {
    exists q :: q in w && q.nh.Id() == n && q.dst in c.routes && c.routes[q.dst] == s
  }

  lemma {:induction false} TellAllIs(c: Setting, shown: Shown, w: seq<Pair>, n: NeighId, s: set<NhStub>)
    requires SettingOk(c) && shown.Keys == c.ecmp.Keys && s in c.ecmp && forall q :: q in w ==> Wants(c.routes, q)
    ensures TellAll(c, shown, w, n).Keys == c.ecmp.Keys
    ensures TellAll(c, shown, w, n)[s] == if ToldOf(c, w, n, s) then Others(s, n) else shown[s]
    decreases |w|
  {
    hide SettingOk, Others, TellOne;
    if w != [] {
      assert w[0] in w && forall q :: q in w <==> q == w[0] || q in w[1..];
      var shown' := if w[0].nh.Id() == n then TellOne(c, shown, w[0]) else shown;
      TellOneIs(c, shown, w[0], s);
      TellAllIs(c, shown', w[1..], n, s);
      assert ToldOf(c, w, n, s) <==> ToldOf(c, w[1..], n, s) || (w[0].nh.Id() == n && c.routes[w[0].dst] == s);
    }
  }

  lemma TellOneIs(c: Setting, shown: Shown, q: Pair, s: set<NhStub>)
    requires SettingOk(c) && shown.Keys == c.ecmp.Keys && s in c.ecmp && Wants(c.routes, q)
    ensures TellOne(c, shown, q).Keys == c.ecmp.Keys
    ensures TellOne(c, shown, q)[s] == if c.routes[q.dst] == s then Others(s, q.nh.Id()) else shown[s]
  {
    hide SettingOk, Others;
    OthersIn(c, q);
  }

  lemma OthersIn(c: Setting, q: Pair)
    requires SettingOk(c) && Wants(c.routes, q)
    ensures c.routes[q.dst] - {q.nh} == Others(c.routes[q.dst], q.nh.Id())
    ensures c.routes[q.dst] in c.ecmp <==> |c.routes[q.dst]| > 1
  {
    assert RouteOk(c.routes[q.dst]);
  }

  /** Every route through n is watched. */
  ghost predicate Watched(c: Setting, w: seq<Pair>, n: NeighId) {
    forall q :: Wants(c.routes, q) && q.nh.Id() == n ==> q in w
  }

  lemma TellAllTells(c: Setting, shown: Shown, w: seq<Pair>, n: NeighId)
    requires SettingOk(c) && shown.Keys == c.ecmp.Keys && PairsOk(c, w) && Watched(c, w, n)
    ensures TellAll(c, shown, w, n) == Tell(shown, n) && ToldRest(c, shown, n, Pending(w, n))
  {
    hide SettingOk, Others, TellAll, Via, ToldOf, Once, Pending;
    forall s | s in c.ecmp ensures TellAll(c, shown, w, n).Keys == c.ecmp.Keys
                              && TellAll(c, shown, w, n)[s] == Tell(shown, n)[s] {
      TellAllIs(c, shown, w, n, s);
      ToldIsVia(c, w, n, s);
    }
    if c.ecmp.Keys == {} { TellNoGroup(c, shown, w, n); }
    AllPending(c, w, n);
  }

  lemma ToldIsVia(c: Setting, w: seq<Pair>, n: NeighId, s: set<NhStub>)
    requires SettingOk(c) && s in c.ecmp && PairsOk(c, w) && Watched(c, w, n)
    ensures ToldOf(c, w, n, s) <==> Via(s, n)
  {
    var d :| d in c.routes && c.routes[d] == s;
    if Via(s, n) {
      var nh :| nh in s && nh.Id() == n;
      assert Pair(d, nh) in w;
    }
  }

  lemma {:induction false} TellNoGroup(c: Setting, shown: Shown, w: seq<Pair>, n: NeighId)
    requires SettingOk(c) && c.ecmp.Keys == {}
    ensures TellAll(c, shown, w, n) == shown
    decreases |w|
  {
    if w != [] { TellNoGroup(c, shown, w[1..], n); }
  }

  lemma AllPending(c: Setting, w: seq<Pair>, n: NeighId)
    requires Watched(c, w, n)
    ensures forall d, nh :: d in c.routes && nh in c.routes[d] && nh.Id() == n ==> d in Pending(w, n)
  {
    forall d, nh | d in c.routes && nh in c.routes[d] && nh.Id() == n ensures d in Pending(w, n) {
      assert Pair(d, nh) in w;
    }
  }

  // ------------------------------------------------- one neighbour goes

  /** The point once neighbour n is gone. */
  ghost function Leave(c: Setting, p: Point, n: NeighId): Point
    requires n in c.keys
  {
    var r := NeighGone(p.w, n, c.keys[n], c.cache, c.links, c.ecmp, p.egress, p.log);
    Point(r.0, Off(p.w, n), p.hosts - {n}, r.1, Tell(p.shown, n))
  }

  lemma LeaveCounted(c: Setting, p: Point, n: NeighId)
    requires n in c.keys && n in p.hosts && !IsLinkLocal(n.addr) && Counted(p.egress, p.hosts, p.w, c.keys)
    ensures var p' := Leave(c, p, n); Counted(p'.egress, p'.hosts, p'.w, c.keys)
  {
    hide Counted, IsLinkLocal, Notified, Released;
    var k := c.keys[n];
    CountedDropHost(p.egress, p.hosts, p.w, c.keys, n);
    assert [] + p.w == p.w && [] + Off(p.w, n) == Off(p.w, n);
    NotifiedCounted(c, [], p.w, p.hosts - {n}, n, Released(p.egress, k),
                    p.log + [HostRemove(n.addr)] + ReleaseMsgs(p.egress, k));
  }

  /** The point between host entry and notifications, before and after the reference is given up. */
  ghost function HostOff(p: Point, n: NeighId): Point {
    p.(hosts := p.hosts - {n}, log := p.log + [HostRemove(n.addr)])
  }

  lemma HostStep(c: Setting, p: Point, n: NeighId)
    requires SettingOk(c) && Walking(c, p, {}) && n in c.keys && n in p.hosts && DistinctHosts(p.hosts)
    ensures var p0 := HostOff(p, n);
            && ClosedThroughout(p0.log) && Shows(c, p0, Replay(p0.log), {}) && c.keys[n] in p.egress
            && Counted(Released(p.egress, c.keys[n]), p0.hosts, p.w, c.keys)
  {
    hide ClosedThroughout, Replay, Counted, Released, GroupsShow, FlowsShow, PairsOk, HostsOk, Proper, DistinctHosts,
         SettingOk;
    OneMore(p.log, HostRemove(n.addr));
    ClosedAtEnd(p.log);
    HostUnlisted(Replay(p.log).hosts, p.egress, p.hosts, c.keys, n);
    CountedDropHost(p.egress, p.hosts, p.w, c.keys, n);
  }

  lemma MorePending(c: Setting, p: Point, pending: set<Addr>)
    requires Walking(c, p, {})
    ensures Walking(c, p, pending)
  {
    hide Counted, ClosedThroughout, Replay, GroupsShow, PairsOk, HostsOk;
    var sw := Replay(p.log);
    forall d | d in c.routes ensures FlowShows(c, sw.flows[d], d, p.w, sw.ecmp, p.egress, pending) {
      assert FlowShows(c, sw.flows[d], d, p.w, sw.ecmp, p.egress, {});
    }
  }

  lemma PairsOfWalk(c: Setting, p: Point, pending: set<Addr>)
    requires Walking(c, p, pending)
    ensures PairsOk(c, p.w)
  {
  }

  /** A neighbour goes: the stream stays closed if and only if its group stays or no ECMP group shows it
      afterwards, and then the switch holds what is shown. */
  lemma LeaveStep(c: Setting, p: Point, n: NeighId)
    requires SettingOk(c) && Walking(c, p, {}) && n in c.keys && n in p.hosts && DistinctHosts(p.hosts)
    requires !IsLinkLocal(n.addr) && n in c.ns && p.shown.Keys == c.ecmp.Keys && Watched(c, p.w, n)
    ensures var p', k := Leave(c, p, n), c.keys[n];
            && (ClosedThroughout(p'.log) <==> (k !in p'.egress ==> NotShown(c, p'.shown, k)))
            && (ClosedThroughout(p'.log) ==> Walking(c, p', {}))
  {
    hide SettingOk, ClosedThroughout, Walking, Shows, Replay, Counted, NotShown, ToldRest, UnreachMsgs, Released,
         ReleaseMsgs, Notified, IsLinkLocal, Watched, PairsOk, Tell, TellAll, Off, LastRef, DistinctHosts, Pending;
    var k := c.keys[n];
    var p0 := HostOff(p, n);
    HostStep(c, p, n);
    ReleaseStep(c, p0, k, {});
    var p1 := AfterRelease(p0, k);
    LastIsGone(p.egress, k);
    PairsOfWalk(c, p, {});
    TellAllTells(c, p.shown, p.w, n);
    assert [] + p.w == p.w && [] + Off(p.w, n) == Off(p.w, n);
    if LastRef(p.egress, k) {
      NoneLeft(p1.egress, p1.hosts, [], p.w, c.keys, n);
      NotifiedNone(p.w, n, k, c.cache, c.links, c.ecmp, p1.egress, p1.log);
      TellNone(c, p.shown, p.w, n);
      NoOff(p.w, n);
    } else {
      MorePending(c, p1, Pending(p.w, n));
      NotifiedWalk(c, p1, [], p.w, n);
    }
  }

  lemma {:induction false} NoOff(w: seq<Pair>, n: NeighId)
    requires forall q :: q in w ==> q.nh.Id() != n
    ensures Off(w, n) == w
  {
    if w != [] {
      assert w[0] in w;
      NoOff(w[1..], n);
    }
  }

  // ------------------------------------------------ one after the other

  /** The neighbours already visited. */
  ghost function Seen(found: seq<NhStub>, n: nat): set<NeighId>
    requires n <= |found|
  {
    set i | 0 <= i < n :: found[i].Id()
  }

  /** Each neighbour is met once. */
  ghost predicate Distinct(found: seq<NhStub>) {
    forall i, j :: 0 <= i < j < |found| ==> found[i].Id() != found[j].Id()
  }

  lemma SeenNext(found: seq<NhStub>, n: nat)
    requires n < |found| && Distinct(found)
    ensures Seen(found, n + 1) == Seen(found, n) + {found[n].Id()} && found[n].Id() !in Seen(found, n)
  {
  }

  /** What is shown after the first i neighbours. */
  ghost function ShownAt(c: Setting, found: seq<NhStub>, i: nat): Shown
    requires i <= |found|
  {
    if i == 0 then map s | s in c.ecmp :: s else Tell(ShownAt(c, found, i - 1), found[i - 1].Id())
  }

  /** Somebody outside `gone` uses key k: a host entry or a route. */
  predicate UserLeft(keys: Keys, routes: Routes, hosts: set<NeighId>, gone: set<NeighId>, k: EgressKey) {
    || (exists h | h in hosts :: h !in gone && IsOnKey(keys, h, k))
    || (exists d | d in routes :: exists nh | nh in routes[d] :: nh.Id() !in gone && IsOnKey(keys, nh.Id(), k))
  }

  predicate IsOnKey(keys: Keys, n: NeighId, k: EgressKey) { n in keys && keys[n] == k }

  /** Step j leaves nothing dangling: the key stays in use, or no ECMP group shows it. */
  ghost predicate Safe(c: Setting, hosts: set<NeighId>, found: seq<NhStub>, j: nat)
    requires j < |found|
  {
    var n := found[j].Id();
    n in c.keys ==> UserLeft(c.keys, c.routes, hosts, Seen(found, j + 1), c.keys[n])
                    || NotShown(c, ShownAt(c, found, j + 1), c.keys[n])
  }

  ghost predicate SafeTo(c: Setting, hosts: set<NeighId>, found: seq<NhStub>, i: nat)
    requires i <= |found|
  {
    forall j :: 0 <= j < i ==> Safe(c, hosts, found, j)
  }

  /** The pairs watched once the neighbours in gone have left. */
  ghost predicate WatchedBut(c: Setting, w: seq<Pair>, gone: set<NeighId>) {
    Once(w) && forall q :: q in w <==> Wants(c.routes, q) && q.nh.Id() in c.keys && q.nh.Id() !in gone
  }

  /** Where the walk is after the first i neighbours, closed or not. */
  ghost predicate OnWay(c: Setting, hosts: set<NeighId>, found: seq<NhStub>, i: nat, p: Point)
    requires i <= |found|
  {
    && p.hosts == hosts - Seen(found, i) && p.shown == ShownAt(c, found, i)
    && Counted(p.egress, p.hosts, p.w, c.keys) && WatchedBut(c, p.w, Seen(found, i))
    && (ClosedThroughout(p.log) ==> Walking(c, p, {}))
    && (ClosedThroughout(p.log) <==> SafeTo(c, hosts, found, i))
  }

  lemma {:induction false} OffMembers(w: seq<Pair>, n: NeighId)
    requires Once(w)
    ensures Once(Off(w, n)) && forall q :: q in Off(w, n) <==> q in w && q.nh.Id() != n
  {
    if w != [] {
      var r := w[1..];
      assert forall i, j :: 0 <= i < j < |r| ==> r[i] == w[i + 1] && r[j] == w[j + 1];
      OffMembers(r, n);
      assert w[0] !in r;
      assert forall q :: q in w <==> q == w[0] || q in r;
    }
  }

  /** A key is in the egress table exactly while somebody uses it. */
  lemma LeftIff(c: Setting, egress: Egress, hosts: set<NeighId>, w: seq<Pair>, gone: set<NeighId>, k: EgressKey)
    requires Counted(egress, hosts - gone, w, c.keys) && WatchedBut(c, w, gone)
    ensures k in egress <==> UserLeft(c.keys, c.routes, hosts, gone, k)
  {
    if UserLeft(c.keys, c.routes, hosts, gone, k) {
      if h :| h in hosts && h !in gone && IsOnKey(c.keys, h, k) {
        HeldByHost(egress, hosts - gone, w, c.keys, h);
      } else {
        var d :| d in c.routes && exists nh | nh in c.routes[d] :: nh.Id() !in gone && IsOnKey(c.keys, nh.Id(), k);
        var nh :| nh in c.routes[d] && nh.Id() !in gone && IsOnKey(c.keys, nh.Id(), k);
        HeldByPair(egress, hosts - gone, w, c.keys, Pair(d, nh));
      }
    }
    if k in egress {
      if HostsOn(hosts - gone, c.keys, k) == {} {
        var q := SomeWatcher(w, c.keys, k);
        assert q.dst in c.routes && q.nh in c.routes[q.dst] && IsOnKey(c.keys, q.nh.Id(), k);
      } else {
        var h :| h in HostsOn(hosts - gone, c.keys, k);
      }
    }
  }

  lemma {:induction false} SomeWatcher(w: seq<Pair>, keys: Keys, k: EgressKey) returns (q: Pair)
    requires Watchers(w, keys, k) > 0
    ensures q in w && Resolves(q, keys, k)
  {
    if Resolves(w[0], keys, k) {
      q := w[0];
    } else {
      q := SomeWatcher(w[1..], keys, k);
    }
  }

  lemma {:induction false} ShownKeys(c: Setting, found: seq<NhStub>, i: nat)
    requires i <= |found|
    ensures ShownAt(c, found, i).Keys == c.ecmp.Keys
  {
    if i > 0 { ShownKeys(c, found, i - 1); }
  }

  /** One more neighbour of the walk. */
  lemma OnWayNext(c: Setting, hosts: set<NeighId>, found: seq<NhStub>, i: nat, p: Point)
    requires SettingOk(c) && i < |found| && Distinct(found) && OnWay(c, hosts, found, i, p) && DistinctHosts(hosts)
    requires var n := found[i].Id(); n in hosts && n in c.keys && n in c.ns && !IsLinkLocal(n.addr)
    ensures OnWay(c, hosts, found, i + 1, Leave(c, p, found[i].Id()))
  {
    hide *;
    var n := found[i].Id();
    var p' := Leave(c, p, n);
    OnWayParts(c, hosts, found, i, p);
    SeenNext(found, i);
    ShownKeys(c, found, i);
    LeaveParts(c, p, n);
    ShownNext(c, found, i);
    WatchedNext(c, p.w, Seen(found, i), n);
    FewerHosts(hosts, Seen(found, i));
    LeaveCounted(c, p, n);
    assert p'.hosts == hosts - Seen(found, i + 1);
    LeftIff(c, p'.egress, hosts, p'.w, Seen(found, i + 1), c.keys[n]);
    SafeNext(c, hosts, found, i);
    if ClosedThroughout(p.log) {
      LeaveStep(c, p, n);
      SafeIs(c, hosts, found, i, p');
    } else {
      if ClosedThroughout(p'.log) { StaysOpen(p.log, p'.log); }
    }
    OnWayOf(c, hosts, found, i + 1, p');
  }

  lemma OnWayParts(c: Setting, hosts: set<NeighId>, found: seq<NhStub>, i: nat, p: Point)
    requires i <= |found| && OnWay(c, hosts, found, i, p)
    ensures p.hosts == hosts - Seen(found, i) && p.shown == ShownAt(c, found, i)
    ensures Counted(p.egress, p.hosts, p.w, c.keys) && WatchedBut(c, p.w, Seen(found, i))
    ensures ClosedThroughout(p.log) ==> Walking(c, p, {})
    ensures ClosedThroughout(p.log) <==> SafeTo(c, hosts, found, i)
  {
  }

  lemma OnWayOf(c: Setting, hosts: set<NeighId>, found: seq<NhStub>, i: nat, p: Point)
    requires i <= |found| && p.hosts == hosts - Seen(found, i) && p.shown == ShownAt(c, found, i)
    requires Counted(p.egress, p.hosts, p.w, c.keys) && WatchedBut(c, p.w, Seen(found, i))
    requires ClosedThroughout(p.log) ==> Walking(c, p, {})
    requires ClosedThroughout(p.log) <==> SafeTo(c, hosts, found, i)
    ensures OnWay(c, hosts, found, i, p)
  {
  }

  lemma ShownNext(c: Setting, found: seq<NhStub>, i: nat)
    requires i < |found|
    ensures ShownAt(c, found, i + 1) == Tell(ShownAt(c, found, i), found[i].Id())
  {
  }

  lemma SafeNext(c: Setting, hosts: set<NeighId>, found: seq<NhStub>, i: nat)
    requires i < |found|
    ensures SafeTo(c, hosts, found, i + 1) <==> SafeTo(c, hosts, found, i) && Safe(c, hosts, found, i)
  {
  }

  lemma FewerHosts(hosts: set<NeighId>, gone: set<NeighId>)
    requires DistinctHosts(hosts)
    ensures DistinctHosts(hosts - gone)
  {
  }

  lemma LeaveParts(c: Setting, p: Point, n: NeighId)
    requires n in c.keys
    ensures var p' := Leave(c, p, n);
            p'.hosts == p.hosts - {n} && p'.w == Off(p.w, n) && p'.shown == Tell(p.shown, n) && p.log <= p'.log
  {
    hide Notified, IsLinkLocal;
    var k := c.keys[n];
    NotifiedGrows(p.w, n, k, c.cache, c.links, c.ecmp, p.egress, p.log);
    NotifiedGrows(p.w, n, k, c.cache, c.links, c.ecmp, Released(p.egress, k),
                  p.log + [HostRemove(n.addr)] + ReleaseMsgs(p.egress, k));
  }

  lemma WatchedNext(c: Setting, w: seq<Pair>, gone: set<NeighId>, n: NeighId)
    requires WatchedBut(c, w, gone) && n in c.keys && n !in gone
    ensures Watched(c, w, n) && WatchedBut(c, Off(w, n), gone + {n})
  {
    OffMembers(w, n);
  }

  lemma SafeIs(c: Setting, hosts: set<NeighId>, found: seq<NhStub>, i: nat, p: Point)
    requires i < |found| && found[i].Id() in c.keys && p.shown == ShownAt(c, found, i + 1)
    requires c.keys[found[i].Id()] in p.egress
        <==> UserLeft(c.keys, c.routes, hosts, Seen(found, i + 1), c.keys[found[i].Id()])
    ensures Safe(c, hosts, found, i)
       <==> (c.keys[found[i].Id()] !in p.egress ==> NotShown(c, p.shown, c.keys[found[i].Id()]))
  {
  }

  lemma StaysOpen(log: seq<Msg>, log': seq<Msg>)
    requires log <= log' && ClosedThroughout(log')
    ensures ClosedThroughout(log)
  {
    forall n | 0 <= n <= |log| ensures Closed(Replay(log[..n])) { assert log[..n] == log'[..n]; }
  }

  // ----------------------------------------------- the condition, in order

  /** The order in which neighbours are met. */
  predicate Before(a: NeighId, b: NeighId) {
    PrefixSearch.Less(NhStub(a.addr, a.ifindex, 0), NhStub(b.addr, b.ifindex, 0))
  }

  /** Every user of k is among the neighbours ns, and so is the next hop y of d on k; another next hop x of
      d is met after y, but not after the last neighbour z on k. */
  predicate Tangled(keys: Keys, routes: Routes, hosts: set<NeighId>, ns: set<NeighId>, k: EgressKey, d: Addr,
                          x: NhStub, y: NhStub, z: NeighId) {
    && !UserLeft(keys, routes, hosts, ns, k)
    && d in routes && x in routes[d] && y in routes[d] && x.Id() in ns && y.Id() in ns && z in ns
    && IsOnKey(keys, y.Id(), k) && IsOnKey(keys, z, k)
    && Before(y.Id(), x.Id()) && (x.Id() == z || Before(x.Id(), z))
  }

  /** Telling the neighbours ns to go, one after the other, leaves a dangling reference on the way. */
  predicate Breaks(keys: Keys, routes: Routes, hosts: set<NeighId>, ns: set<NeighId>) {
    exists z | z in ns :: z in keys && exists d | d in routes ::
      exists x | x in routes[d] :: exists y | y in routes[d] :: Tangled(keys, routes, hosts, ns, keys[z], d, x, y, z)
  }

  lemma TangleIn(keys: Keys, routes: Routes, hosts: set<NeighId>, ns: set<NeighId>)
    returns (d: Addr, x: NhStub, y: NhStub, z: NeighId)
    requires Breaks(keys, routes, hosts, ns)
    ensures z in keys && Tangled(keys, routes, hosts, ns, keys[z], d, x, y, z)
  {
    hide Tangled;
    z :| z in ns && z in keys && exists d | d in routes :: exists x | x in routes[d] ::
           exists y | y in routes[d] :: Tangled(keys, routes, hosts, ns, keys[z], d, x, y, z);
    d :| d in routes && exists x | x in routes[d] ::
           exists y | y in routes[d] :: Tangled(keys, routes, hosts, ns, keys[z], d, x, y, z);
    x :| x in routes[d] && exists y | y in routes[d] :: Tangled(keys, routes, hosts, ns, keys[z], d, x, y, z);
    y :| y in routes[d] && Tangled(keys, routes, hosts, ns, keys[z], d, x, y, z);
  }

  /** The walk meets ns in order. */
  ghost predicate InOrder(found: seq<NhStub>, ns: set<NeighId>) {
    && Seen(found, |found|) == ns
    && forall i, j :: 0 <= i < |found| && 0 <= j < |found| ==> (Before(found[i].Id(), found[j].Id()) <==> i < j)
  }

  /** A set of next hops shows all but the last one met. */
  lemma {:induction false} LastMet(c: Setting, found: seq<NhStub>, i: nat, s: set<NhStub>)
    requires i <= |found| && s in c.ecmp
    ensures s in ShownAt(c, found, i) && ShownAt(c, found, i)[s] <= s
    ensures (forall m :: 0 <= m < i ==> !Via(s, found[m].Id())) ==> ShownAt(c, found, i)[s] == s
    ensures forall m :: 0 <= m < i && Via(s, found[m].Id()) && (forall l :: m < l < i ==> !Via(s, found[l].Id())) ==>
              ShownAt(c, found, i)[s] == Others(s, found[m].Id())
  {
    if i > 0 {
      hide Via, ShownAt;
      LastMet(c, found, i - 1, s);
      ShownStep(c, found, i, s);
      if Via(s, found[i - 1].Id()) {
        forall m | 0 <= m < i && Via(s, found[m].Id()) && (forall l :: m < l < i ==> !Via(s, found[l].Id()))
          ensures m == i - 1 {
        }
      }
    }
  }

  lemma ShownStep(c: Setting, found: seq<NhStub>, i: nat, s: set<NhStub>)
    requires 0 < i <= |found| && s in ShownAt(c, found, i - 1)
    ensures s in ShownAt(c, found, i)
    ensures ShownAt(c, found, i)[s]
         == if Via(s, found[i - 1].Id()) then Others(s, found[i - 1].Id()) else ShownAt(c, found, i - 1)[s]
  {
    hide Via, Others;
  }

  /** The last of the first i neighbours with P, at `at` or later. */
  lemma {:induction false} LastWith(found: seq<NhStub>, i: nat, P: NeighId -> bool, at: nat) returns (m: nat)
    requires at < i <= |found| && P(found[at].Id())
    ensures at <= m < i && P(found[m].Id()) && forall l :: m < l < i ==> !P(found[l].Id())
  {
    m := i - 1;
    if !P(found[m].Id()) { m := LastWith(found, i - 1, P, at); }
  }

  lemma SeenAt(found: seq<NhStub>, i: nat, n: NeighId)
    requires i <= |found|
    ensures n in Seen(found, i) <==> exists m :: 0 <= m < i && found[m].Id() == n
    ensures Seen(found, i) <= Seen(found, |found|)
  {
  }

  /** An unsafe step is a tangle. */
  lemma UnsafeTangled(c: Setting, hosts: set<NeighId>, ns: set<NeighId>, found: seq<NhStub>, j: nat)
    requires SettingOk(c) && InOrder(found, ns) && j < |found| && !Safe(c, hosts, found, j)
    ensures Breaks(c.keys, c.routes, hosts, ns)
  {
    hide *;
    var d, y := UnsafeShown(c, hosts, found, j);
    var z := found[j].Id();
    var k := c.keys[z];
    var m, l := LastShown(c, found, j + 1, d, c.routes[d], y, hosts, k);
    var x := TheVia(c.routes[d], found[m].Id());
    SeenAt(found, j + 1, z);
    OrderAt(found, ns, l, m);
    OrderAt(found, ns, m, j);
    FewerLeft(c.keys, c.routes, hosts, Seen(found, j + 1), ns, k);
    OnOwnKey(c.keys, z);
    TangleOf(c.keys, c.routes, hosts, ns, k, d, x, y, z);
  }

  lemma OrderAt(found: seq<NhStub>, ns: set<NeighId>, i: nat, j: nat)
    requires InOrder(found, ns) && i <= j < |found|
    ensures found[i].Id() in ns && found[j].Id() in ns && Seen(found, |found|) == ns
    ensures i < j ==> Before(found[i].Id(), found[j].Id())
  {
    hide Before;
  }

  lemma OnOwnKey(keys: Keys, z: NeighId)
    requires z in keys
    ensures IsOnKey(keys, z, keys[z])
  {
  }

  lemma TangleOf(keys: Keys, routes: Routes, hosts: set<NeighId>, ns: set<NeighId>, k: EgressKey, d: Addr, x: NhStub,
                 y: NhStub, z: NeighId)
    requires !UserLeft(keys, routes, hosts, ns, k)
    requires d in routes && x in routes[d] && y in routes[d] && x.Id() in ns && y.Id() in ns && z in ns
    requires IsOnKey(keys, y.Id(), k) && IsOnKey(keys, z, k)
    requires Before(y.Id(), x.Id()) && (x.Id() == z || Before(x.Id(), z))
    ensures Breaks(keys, routes, hosts, ns)
  {
    assert Tangled(keys, routes, hosts, ns, k, d, x, y, z);
  }

  lemma TheVia(s: set<NhStub>, n: NeighId) returns (x: NhStub)
    requires Via(s, n)
    ensures x in s && x.Id() == n
  {
    x :| x in s && x.Id() == n;
  }

  /** A next hop y of d on the key that goes is shown. */
  lemma UnsafeShown(c: Setting, hosts: set<NeighId>, found: seq<NhStub>, j: nat) returns (d: Addr, y: NhStub)
    requires SettingOk(c) && j < |found| && !Safe(c, hosts, found, j)
    ensures found[j].Id() in c.keys
    ensures d in c.routes && c.routes[d] in c.ecmp && c.routes[d] in ShownAt(c, found, j + 1)
    ensures y in c.routes[d] && y in ShownAt(c, found, j + 1)[c.routes[d]]
    ensures IsOnKey(c.keys, y.Id(), c.keys[found[j].Id()])
    ensures !UserLeft(c.keys, c.routes, hosts, Seen(found, j + 1), c.keys[found[j].Id()])
  {
    hide CacheSync, RoutesOk, ShownAt, Seen, UserLeft, Via, Others;
    var s;
    s, y :| s in c.ecmp && s in ShownAt(c, found, j + 1) && y in ShownAt(c, found, j + 1)[s]
            && y.Id() in c.keys && c.keys[y.Id()] == c.keys[found[j].Id()];
    d :| d in c.routes && c.routes[d] == s;
    LastMet(c, found, j + 1, s);
  }

  lemma FewerLeft(keys: Keys, routes: Routes, hosts: set<NeighId>, gone: set<NeighId>, more: set<NeighId>, k: EgressKey)
    requires gone <= more && !UserLeft(keys, routes, hosts, gone, k)
    ensures !UserLeft(keys, routes, hosts, more, k)
  {
  }

  /** A next hop that is shown although it was met: another one was met later. */
  lemma LastShown(c: Setting, found: seq<NhStub>, i: nat, d: Addr, s: set<NhStub>, y: NhStub, hosts: set<NeighId>,
                  k: EgressKey) returns (m: nat, l: nat)
    requires i <= |found| && s in c.ecmp && d in c.routes && c.routes[d] == s && s in ShownAt(c, found, i)
    requires y in ShownAt(c, found, i)[s] && y in s && IsOnKey(c.keys, y.Id(), k)
    requires !UserLeft(c.keys, c.routes, hosts, Seen(found, i), k)
    ensures l < m < i && Via(s, found[m].Id()) && found[l].Id() == y.Id()
  {
    hide ShownAt, Seen, Via;
    assert y.Id() in Seen(found, i);
    SeenAt(found, i, y.Id());
    l :| 0 <= l < i && found[l].Id() == y.Id();
    assert Via(s, found[l].Id()) by { ViaOf(s, y); }
    m := LastWith(found, i, n => Via(s, n), l);
    assert forall j :: m < j < i ==> !Via(s, found[j].Id());
    LastMet(c, found, i, s);
    assert y !in Others(s, y.Id());
  }

  lemma ViaOf(s: set<NhStub>, y: NhStub)
    requires y in s
    ensures Via(s, y.Id())
  {
  }

  /** A tangle is an unsafe step: that of the last neighbour on the key. */
  lemma TangledUnsafe(c: Setting, hosts: set<NeighId>, ns: set<NeighId>, found: seq<NhStub>, k: EgressKey, d: Addr,
                      x: NhStub, y: NhStub, z: NeighId) returns (j: nat)
    requires SettingOk(c) && InOrder(found, ns) && Tangled(c.keys, c.routes, hosts, ns, k, d, x, y, z)
    ensures j < |found| && !Safe(c, hosts, found, j)
  {
    hide CacheSync, RoutesOk, ShownAt, Before, Seen, UserLeft, Via;
    var iz := Place(found, ns, z);
    var ix := Place(found, ns, x.Id());
    var iy := Place(found, ns, y.Id());
    assert iy < ix <= iz;
    j := LastWith(found, |found|, n => IsOnKey(c.keys, n, k), iz);
    NobodyLeft(c, hosts, ns, found, k, j);
    var s := c.routes[d];
    SubsetSize({x, y}, s);
    ViaOf(s, x);
    var m := LastWith(found, j + 1, n => Via(s, n), ix);
    assert forall l :: m < l < j + 1 ==> !Via(s, found[l].Id());
    LastMet(c, found, j + 1, s);
    assert Before(found[iy].Id(), found[m].Id()) && !Before(found[m].Id(), found[m].Id());
    assert y in Others(s, found[m].Id());
  }

  lemma Place(found: seq<NhStub>, ns: set<NeighId>, n: NeighId) returns (i: nat)
    requires Seen(found, |found|) == ns && n in ns
    ensures i < |found| && found[i].Id() == n
  {
    i :| i < |found| && found[i].Id() == n;
  }

  /** After the last neighbour on key k nobody is left on it. */
  lemma NobodyLeft(c: Setting, hosts: set<NeighId>, ns: set<NeighId>, found: seq<NhStub>, k: EgressKey, j: nat)
    requires !UserLeft(c.keys, c.routes, hosts, ns, k) && Seen(found, |found|) == ns && j < |found|
    requires forall l :: j < l < |found| ==> !IsOnKey(c.keys, found[l].Id(), k)
    ensures !UserLeft(c.keys, c.routes, hosts, Seen(found, j + 1), k)
  {
    forall n | n in ns && IsOnKey(c.keys, n, k) ensures n in Seen(found, j + 1) {
      var i := Place(found, ns, n);
      assert i <= j;
    }
    hide Seen;
  }

  /** The whole walk is safe if and only if nothing is tangled. */
  lemma SafeIff(c: Setting, hosts: set<NeighId>, ns: set<NeighId>, found: seq<NhStub>)
    requires SettingOk(c) && InOrder(found, ns)
    ensures SafeTo(c, hosts, found, |found|) <==> !Breaks(c.keys, c.routes, hosts, ns)
  {
    hide SettingOk, InOrder, Safe, Tangled;
    if !SafeTo(c, hosts, found, |found|) {
      var j :| 0 <= j < |found| && !Safe(c, hosts, found, j);
      UnsafeTangled(c, hosts, ns, found, j);
    }
    if Breaks(c.keys, c.routes, hosts, ns) {
      var d, x, y, z := TangleIn(c.keys, c.routes, hosts, ns);
      var j := TangledUnsafe(c, hosts, ns, found, c.keys[z], d, x, y, z);
    }
  }

  // ------------------------------------------------------ start and end

  /** Before the first neighbour every group shows all its next hops. */
  lemma StartOk(c: Setting, found: seq<NhStub>, p: Point, sw: Switch, pool: IdPool.Pool, ecmpPool: IdPool.Pool,
                waiting: seq<Pair>)
    requires EgressWired(p.egress, pool, sw.egress) && EcmpWired(c.ecmp, ecmpPool, sw.ecmp, c.owner)
    requires CacheSync(c.cache, c.links, c.routes, c.keys, c.ns) && RoutesOk(c.routes)
    requires GroupsCounted(c.ecmp, c.routes, {})
    requires ListsOk(waiting, p.w, c.routes, {}, c.keys, c.keys) && Counted(p.egress, p.hosts, p.w, c.keys)
    requires TablesOk(sw.hosts, sw.ecmp, sw.flows, p.egress, c.ecmp, p.hosts, c.keys, c.routes, {}, c.keys, c.keys)
    requires p.shown == ShownAt(c, found, 0)
    ensures SettingOk(c) && Shows(c, p, sw, {}) && WatchedBut(c, p.w, {})
  {
    assert p.shown == map s | s in c.ecmp :: s;
    hide SettingOk, CacheSync, RoutesOk, GroupsCounted, HostsOk, MembersOk, FlowsOk, GroupsShow, FlowsShow, ShownAt,
         EcmpWired, Counted, ListsOk, EgressWired, IdsWired, PairsOk, WatchedBut;
    StartSetting(c, ecmpPool, sw.ecmp);
    StartIds(p.egress, pool, sw.egress);
    StartPairs(c, p.w, waiting);
    StartGroups(c, p, sw, ecmpPool);
    StartFlows(c, p, sw, waiting);
  }

  lemma StartIds(egress: Egress, pool: IdPool.Pool, groups: map<nat, EgressKey>)
    requires EgressWired(egress, pool, groups)
    ensures IdsWired(egress, groups)
  {
  }

  lemma StartPairs(c: Setting, w: seq<Pair>, waiting: seq<Pair>)
    requires ListsOk(waiting, w, c.routes, {}, c.keys, c.keys)
    ensures PairsOk(c, w) && WatchedBut(c, w, {})
  {
  }

  lemma StartSetting(c: Setting, ecmpPool: IdPool.Pool, groups: map<nat, set<nat>>)
    requires EcmpWired(c.ecmp, ecmpPool, groups, c.owner) && GroupsCounted(c.ecmp, c.routes, {})
    requires CacheSync(c.cache, c.links, c.routes, c.keys, c.ns) && RoutesOk(c.routes)
    ensures SettingOk(c)
  {
    hide CacheSync, RoutesOk;
    NoSmallGroups(c.ecmp, c.routes);
    forall s | s in c.ecmp ensures exists d :: d in c.routes && c.routes[d] == s {
      var d := GroupHasRoute(c.ecmp, c.routes, {}, s);
    }
    forall d | d in c.routes && |c.routes[d]| > 1 ensures c.routes[d] in c.ecmp {
      GroupPresent(c.ecmp, c.routes, d);
    }
  }

  lemma StartGroups(c: Setting, p: Point, sw: Switch, ecmpPool: IdPool.Pool)
    requires EcmpWired(c.ecmp, ecmpPool, sw.ecmp, c.owner) && p.shown == map s | s in c.ecmp :: s
    requires MembersOk(c.ecmp, sw.ecmp, Touched(c.routes, {}), c.keys, c.keys, p.egress)
    ensures GroupsShow(c, sw.ecmp, p.shown, p.egress)
  {
    hide Ids;
  }

  lemma StartFlows(c: Setting, p: Point, sw: Switch, waiting: seq<Pair>)
    requires SettingOk(c) && GroupsShow(c, sw.ecmp, p.shown, p.egress) && p.shown == map s | s in c.ecmp :: s
    requires ListsOk(waiting, p.w, c.routes, {}, c.keys, c.keys) && Counted(p.egress, p.hosts, p.w, c.keys)
    requires FlowsOk(sw.flows, c.routes, {}, c.keys, c.keys, p.egress, c.ecmp)
    ensures FlowsShow(c, sw.flows, p.w, sw.ecmp, p.egress, {})
  {
    hide CacheSync, RoutesOk, Counted, Ids, Once;
    forall d | d in c.routes ensures FlowShows(c, sw.flows[d], d, p.w, sw.ecmp, p.egress, {}) {
      var s := c.routes[d];
      forall nh | nh in s && nh.Id() in c.keys ensures Pair(d, nh) in p.w && c.keys[nh.Id()] in p.egress {
        assert Current(c.routes, {}, c.keys, c.keys, Pair(d, nh));
        HeldByPair(p.egress, p.hosts, p.w, c.keys, Pair(d, nh));
      }
      TargetByIds(s, c.keys, p.egress);
      forall nh | nh in s && nh.Id() !in c.keys ensures Pair(d, nh) !in p.w {
        assert !Current(c.routes, {}, c.keys, c.keys, Pair(d, nh));
      }
    }
  }

  /** Two next hops x and y of d are told to go, x later: the group goes on showing y, whose key is still in
      use, although no other next hop of d is on it. */
  predicate Misleads(keys: Keys, routes: Routes, hosts: set<NeighId>, ns: set<NeighId>, d: Addr, x: NhStub,
                           y: NhStub) {
    && d in routes && x in routes[d] && y in routes[d] && x.Id() in ns && y.Id() in ns && Before(y.Id(), x.Id())
    && y.Id() in keys && UserLeft(keys, routes, hosts, ns, keys[y.Id()])
    && forall v | v in routes[d] :: v.Id() !in ns ==> !IsOnKey(keys, v.Id(), keys[y.Id()])
  }

  predicate Misled(keys: Keys, routes: Routes, hosts: set<NeighId>, ns: set<NeighId>) {
    exists d | d in routes :: exists x | x in routes[d] :: exists y | y in routes[d] ::
      Misleads(keys, routes, hosts, ns, d, x, y)
  }

  /** In the end a group shows the next hops that stay, and those told to go but the last. */
  lemma ShownInTheEnd(c: Setting, found: seq<NhStub>, ns: set<NeighId>, s: set<NhStub>, y: NhStub)
    requires InOrder(found, ns) && s in c.ecmp && y in s
    ensures s in ShownAt(c, found, |found|)
    ensures y in ShownAt(c, found, |found|)[s]
       <==> (y.Id() in ns ==> exists x :: x in s && x.Id() in ns && Before(y.Id(), x.Id()))
  {
    hide *;
    LastMet(c, found, |found|, s);
    if x: NhStub :| x in s && x.Id() in ns {
      OrderSeen(found, ns);
      var ix := Place(found, ns, x.Id());
      ViaOf(s, x);
      var m := LastWith(found, |found|, n => Via(s, n), ix);
      assert forall l :: m < l < |found| ==> !Via(s, found[l].Id());
      EndOthers(found, ns, s, y, m);
    } else {
      NeverMet(found, ns, s);
    }
  }

  lemma OrderSeen(found: seq<NhStub>, ns: set<NeighId>)
    requires InOrder(found, ns)
    ensures Seen(found, |found|) == ns
  {
  }

  lemma NeverMet(found: seq<NhStub>, ns: set<NeighId>, s: set<NhStub>)
    requires InOrder(found, ns) && forall x: NhStub :: x in s ==> x.Id() !in ns
    ensures forall m :: 0 <= m < |found| ==> !Via(s, found[m].Id())
  {
    hide Before;
    forall m | 0 <= m < |found| ensures found[m].Id() in ns { OrderAt(found, ns, m, m); }
  }

  /** The last next hop met is found[m]. */
  lemma EndOthers(found: seq<NhStub>, ns: set<NeighId>, s: set<NhStub>, y: NhStub, m: nat)
    requires InOrder(found, ns) && y in s && m < |found| && Via(s, found[m].Id())
    requires forall l :: m < l < |found| ==> !Via(s, found[l].Id())
    ensures y in Others(s, found[m].Id())
       <==> (y.Id() in ns ==> exists x :: x in s && x.Id() in ns && Before(y.Id(), x.Id()))
  {
    hide Before, Seen;
    var last := TheVia(s, found[m].Id());
    OrderAt(found, ns, m, m);
    if y.Id() in ns {
      var iy := Place(found, ns, y.Id());
      ViaOf(s, y);
      if iy == m {
        forall x | x in s && x.Id() in ns ensures !Before(y.Id(), x.Id()) {
          var ix := Place(found, ns, x.Id());
          ViaOf(s, x);
        }
      }
    }
  }

  /** The next hops of a group that is left with those that stay, and those told to go but the last. */
  ghost predicate AllButLast(shown: set<NhStub>, s: set<NhStub>, ns: set<NeighId>) {
    shown <= s && forall y :: y in s ==>
      (y in shown <==> (y.Id() in ns ==> exists x :: x in s && x.Id() in ns && Before(y.Id(), x.Id())))
  }

  lemma EndShown(c: Setting, found: seq<NhStub>, ns: set<NeighId>, s: set<NhStub>)
    requires InOrder(found, ns) && s in c.ecmp
    ensures s in ShownAt(c, found, |found|) && AllButLast(ShownAt(c, found, |found|)[s], s, ns)
  {
    hide Before, InOrder, ShownAt;
    LastMet(c, found, |found|, s);
    forall y | y in s
      ensures y in ShownAt(c, found, |found|)[s]
         <==> (y.Id() in ns ==> exists x :: x in s && x.Id() in ns && Before(y.Id(), x.Id())) {
      ShownInTheEnd(c, found, ns, s, y);
    }
  }

  /** Somebody misleads the group: it names an id that none of the next hops that stay has. */
  lemma MisledIds(c: Setting, shown: set<NhStub>, ns: set<NeighId>, hosts: set<NeighId>, egress: Egress,
                  groups: map<nat, EgressKey>, d: Addr, x: NhStub, y: NhStub)
    requires Misleads(c.keys, c.routes, hosts, ns, d, x, y) && AllButLast(shown, c.routes[d], ns)
    requires IdsWired(egress, groups) && c.keys[y.Id()] in egress
    ensures Ids(shown, c.keys, egress) != Ids(c.routes[d], c.keys - ns, egress)
  {
    hide UserLeft, Before;
    var id := egress[c.keys[y.Id()]].id;
    assert y in shown && id in Ids(shown, c.keys, egress);
    assert id !in Ids(c.routes[d], c.keys - ns, egress);
  }

  /** Otherwise it names exactly their ids. */
  lemma UnmisledIds(c: Setting, shown: set<NhStub>, ns: set<NeighId>, hosts: set<NeighId>, egress: Egress, d: Addr)
    requires d in c.routes && AllButLast(shown, c.routes[d], ns)
    requires forall k :: k in egress ==> UserLeft(c.keys, c.routes, hosts, ns, k)
    requires forall x, y :: x in c.routes[d] && y in c.routes[d] ==> !Misleads(c.keys, c.routes, hosts, ns, d, x, y)
    ensures Ids(shown, c.keys, egress) == Ids(c.routes[d], c.keys - ns, egress)
  {
    hide UserLeft, Before;
    var s := c.routes[d];
    forall id | id in Ids(shown, c.keys, egress) ensures id in Ids(s, c.keys - ns, egress) {
      var y :| y in shown && y.Id() in c.keys && c.keys[y.Id()] in egress && egress[c.keys[y.Id()]].id == id;
      if y.Id() in ns {
        var x :| x in s && x.Id() in ns && Before(y.Id(), x.Id());
        assert !Misleads(c.keys, c.routes, hosts, ns, d, x, y);
        var v :| v in s && v.Id() !in ns && IsOnKey(c.keys, v.Id(), c.keys[y.Id()]);
        assert v.Id() in c.keys - ns;
      } else {
        assert y.Id() in c.keys - ns;
      }
    }
    assert Ids(s, c.keys - ns, egress) <= Ids(shown, c.keys, egress);
  }

  /** The switch is right for the neighbours other than ns. */
  ghost predicate EndRight(c: Setting, p: Point, ns: set<NeighId>) {
    var sw, keys := Replay(p.log), c.keys - ns;
    TablesOk(sw.hosts, sw.ecmp, sw.flows, p.egress, c.ecmp, p.hosts, keys, c.routes, {}, keys, keys)
  }

  /** At the end of a closed walk the tables are right for the neighbours that stay, except for groups that
      were misled. */
  lemma EndTables(c: Setting, found: seq<NhStub>, ns: set<NeighId>, hosts: set<NeighId>, p: Point)
    requires SettingOk(c) && InOrder(found, ns) && OnWay(c, hosts, found, |found|, p) && ClosedThroughout(p.log)
    requires forall h :: h in hosts ==> h in c.keys
    ensures Misled(c.keys, c.routes, hosts, ns) <==> !EndRight(c, p, ns)
  {
    var sw := Replay(p.log);
    hide *;
    EndRightIs(c, p, ns);
    OnWayParts(c, hosts, found, |found|, p);
    OrderSeen(found, ns);
    EndUsers(c, hosts, ns, p);
    WalkingParts(c, p, {});
    ShowsParts(c, p, sw, {});
    if Misled(c.keys, c.routes, hosts, ns) {
      EndMisled(c, found, ns, hosts, p, sw);
    } else {
      EndMembers(c, found, ns, hosts, p, sw);
      EndFlows(c, ns, p, sw);
      EndHosts(c, ns, hosts, p, sw);
      NothingTouched(sw, p, c, c.keys - ns);
    }
  }

  lemma EndRightIs(c: Setting, p: Point, ns: set<NeighId>)
    ensures var sw := Replay(p.log);
            EndRight(c, p, ns) == TablesOk(sw.hosts, sw.ecmp, sw.flows, p.egress, c.ecmp, p.hosts, c.keys - ns,
                                           c.routes, {}, c.keys - ns, c.keys - ns)
  {
  }

  lemma NothingTouched(sw: Switch, p: Point, c: Setting, keys: Keys)
    requires HostsOk(sw.hosts, p.hosts, keys, p.egress) && MembersOk(c.ecmp, sw.ecmp, {}, keys, keys, p.egress)
    requires FlowsOk(sw.flows, c.routes, {}, keys, keys, p.egress, c.ecmp)
    ensures TablesOk(sw.hosts, sw.ecmp, sw.flows, p.egress, c.ecmp, p.hosts, keys, c.routes, {}, keys, keys)
  {
    assert Touched(c.routes, {}) == {};
  }

  lemma EndUsers(c: Setting, hosts: set<NeighId>, ns: set<NeighId>, p: Point)
    requires Counted(p.egress, p.hosts, p.w, c.keys) && WatchedBut(c, p.w, ns) && p.hosts == hosts - ns
    ensures forall k :: k in p.egress <==> UserLeft(c.keys, c.routes, hosts, ns, k)
  {
    hide Counted, WatchedBut, UserLeft;
    forall k ensures k in p.egress <==> UserLeft(c.keys, c.routes, hosts, ns, k) {
      LeftIff(c, p.egress, hosts, p.w, ns, k);
    }
  }

  lemma ShowsParts(c: Setting, p: Point, sw: Switch, pending: set<Addr>)
    requires Shows(c, p, sw, pending)
    ensures IdsWired(p.egress, sw.egress) && HostsOk(sw.hosts, p.hosts, c.keys, p.egress)
    ensures GroupsShow(c, sw.ecmp, p.shown, p.egress) && FlowsShow(c, sw.flows, p.w, sw.ecmp, p.egress, pending)
  {
  }

  lemma EndHosts(c: Setting, ns: set<NeighId>, hosts: set<NeighId>, p: Point, sw: Switch)
    requires HostsOk(sw.hosts, p.hosts, c.keys, p.egress) && p.hosts == hosts - ns
    ensures HostsOk(sw.hosts, p.hosts, c.keys - ns, p.egress)
  {
  }

  lemma EndMisled(c: Setting, found: seq<NhStub>, ns: set<NeighId>, hosts: set<NeighId>, p: Point, sw: Switch)
    requires SettingOk(c) && InOrder(found, ns) && Misled(c.keys, c.routes, hosts, ns)
    requires IdsWired(p.egress, sw.egress) && GroupsShow(c, sw.ecmp, p.shown, p.egress)
    requires p.shown == ShownAt(c, found, |found|)
    requires forall k :: k in p.egress <==> UserLeft(c.keys, c.routes, hosts, ns, k)
    ensures !TablesOk(sw.hosts, sw.ecmp, sw.flows, p.egress, c.ecmp, p.hosts, c.keys - ns, c.routes, {},
                      c.keys - ns, c.keys - ns)
  {
    hide *;
    var d, x, y := Misleader(c, hosts, ns);
    EndShown(c, found, ns, c.routes[d]);
    MisledIds(c, p.shown[c.routes[d]], ns, hosts, p.egress, sw.egress, d, x, y);
    WrongGroup(c, p, sw, ns, c.routes[d]);
  }

  lemma Misleader(c: Setting, hosts: set<NeighId>, ns: set<NeighId>) returns (d: Addr, x: NhStub, y: NhStub)
    requires SettingOk(c) && Misled(c.keys, c.routes, hosts, ns)
    ensures Misleads(c.keys, c.routes, hosts, ns, d, x, y) && d in c.routes && c.routes[d] in c.ecmp
    ensures y.Id() in c.keys && UserLeft(c.keys, c.routes, hosts, ns, c.keys[y.Id()])
  {
    hide UserLeft, Before, CacheSync, RoutesOk;
    d :| d in c.routes && exists x | x in c.routes[d] :: exists y | y in c.routes[d] ::
           Misleads(c.keys, c.routes, hosts, ns, d, x, y);
    x :| x in c.routes[d] && exists y | y in c.routes[d] :: Misleads(c.keys, c.routes, hosts, ns, d, x, y);
    y :| y in c.routes[d] && Misleads(c.keys, c.routes, hosts, ns, d, x, y);
    NotBefore(x.Id());
    SubsetSize({x, y}, c.routes[d]);
  }

  lemma WrongGroup(c: Setting, p: Point, sw: Switch, ns: set<NeighId>, s: set<NhStub>)
    requires GroupsShow(c, sw.ecmp, p.shown, p.egress) && s in c.ecmp && s in p.shown
    requires Ids(p.shown[s], c.keys, p.egress) != Ids(s, c.keys - ns, p.egress)
    ensures !TablesOk(sw.hosts, sw.ecmp, sw.flows, p.egress, c.ecmp, p.hosts, c.keys - ns, c.routes, {},
                      c.keys - ns, c.keys - ns)
  {
    hide Ids, HostsOk, FlowsOk;
    assert Touched(c.routes, {}) == {};
  }

  lemma NotBefore(n: NeighId)
    ensures !Before(n, n)
  {
    PrefixSearch.CmpAntisymmetric(n.addr.bits, n.addr.bits);
  }

  lemma EndMembers(c: Setting, found: seq<NhStub>, ns: set<NeighId>, hosts: set<NeighId>, p: Point, sw: Switch)
    requires SettingOk(c) && InOrder(found, ns) && !Misled(c.keys, c.routes, hosts, ns)
    requires GroupsShow(c, sw.ecmp, p.shown, p.egress) && p.shown == ShownAt(c, found, |found|)
    requires forall k :: k in p.egress <==> UserLeft(c.keys, c.routes, hosts, ns, k)
    ensures MembersOk(c.ecmp, sw.ecmp, {}, c.keys - ns, c.keys - ns, p.egress)
  {
    hide ShownAt, UserLeft, Misleads, InOrder, CacheSync, RoutesOk, AllButLast, Ids;
    forall s | s in c.ecmp ensures Ids(p.shown[s], c.keys, p.egress) == Ids(s, c.keys - ns, p.egress) {
      var d :| d in c.routes && c.routes[d] == s;
      EndShown(c, found, ns, s);
      UnmisledIds(c, p.shown[s], ns, hosts, p.egress, d);
    }
  }

  lemma EndFlows(c: Setting, ns: set<NeighId>, p: Point, sw: Switch)
    requires SettingOk(c) && FlowsShow(c, sw.flows, p.w, sw.ecmp, p.egress, {})
    requires MembersOk(c.ecmp, sw.ecmp, {}, c.keys - ns, c.keys - ns, p.egress)
    requires WatchedBut(c, p.w, ns) && Counted(p.egress, p.hosts, p.w, c.keys)
    ensures FlowsOk(sw.flows, c.routes, {}, c.keys - ns, c.keys - ns, p.egress, c.ecmp)
  {
    var keys := c.keys - ns;
    hide CacheSync, RoutesOk, Counted, Ids, Once, IsTarget;
    forall d | d in c.routes ensures IsTarget(sw.flows[d], c.routes[d], keys, p.egress, c.ecmp) {
      assert FlowShows(c, sw.flows[d], d, p.w, sw.ecmp, p.egress, {});
      var s := c.routes[d];
      forall nh | nh in s && nh.Id() in keys ensures Pair(d, nh) in p.w && keys[nh.Id()] in p.egress {
        HeldByPair(p.egress, p.hosts, p.w, c.keys, Pair(d, nh));
      }
      EndTarget(c, s, d, sw.flows[d], p.w, sw.ecmp, p.egress, keys);
    }
  }

  lemma EndTarget(c: Setting, s: set<NhStub>, d: Addr, t: Target, w: seq<Pair>, groups: map<nat, set<nat>>,
                  egress: Egress, keys: Keys)
    requires d in c.routes && c.routes[d] == s && FlowShows(c, t, d, w, groups, egress, {})
    requires forall nh :: nh in s && nh.Id() in keys ==> Pair(d, nh) in w && keys[nh.Id()] in egress
    requires forall nh :: Pair(d, nh) in w ==> nh.Id() in keys && nh.Id() in c.keys && c.keys[nh.Id()] == keys[nh.Id()]
    requires s in c.ecmp && c.ecmp[s].id in groups ==> groups[c.ecmp[s].id] == Ids(s, keys, egress)
    ensures IsTarget(t, s, keys, egress, c.ecmp)
  {
    TargetByIds(s, keys, egress);
    hide Ids;
    if |s| <= 1 && t != ToController {
      var nh :| nh in s && Pair(d, nh) in w && nh.Id() in c.keys && c.keys[nh.Id()] in egress
                && t == ToEgress(egress[c.keys[nh.Id()]].id);
      OnlyOne(s, nh);
    }
  }

  // ---------------------------------------------------- when all goes well

  /** No route has two next hops among the neighbours in ns. */
  ghost predicate Apart(routes: Routes, ns: set<NeighId>) {
    forall d, a, b :: d in routes && a in routes[d] && b in routes[d] && a.Id() in ns && b.Id() in ns ==> a == b
  }

  lemma ApartIsRight(keys: Keys, routes: Routes, hosts: set<NeighId>, ns: set<NeighId>)
    requires Apart(routes, ns)
    ensures !Breaks(keys, routes, hosts, ns) && !Misled(keys, routes, hosts, ns)
  {
    hide UserLeft, Before;
    forall n ensures !Before(n, n) { NotBefore(n); }
  }

  /** Neighbours that share no egress key leave one after the other without a dangling reference. */
  lemma OwnKeysClose(keys: Keys, routes: Routes, hosts: set<NeighId>, ns: set<NeighId>)
    requires forall a, b :: a in ns && b in ns && a in keys && b in keys && keys[a] == keys[b] ==> a == b
    requires forall n :: n in ns ==> IsHost(n.addr)
    ensures !Breaks(keys, routes, hosts, ns)
  {
    hide UserLeft;
    forall k, d, x: NhStub, y: NhStub, z: NeighId ensures !Tangled(keys, routes, hosts, ns, k, d, x, y, z) {
      if Tangled(keys, routes, hosts, ns, k, d, x, y, z) {
        var a, b := NhStub(x.addr, x.ifindex, 0), NhStub(y.addr, y.ifindex, 0);
        PrefixSearch.LessIsTotal(a, b);
      }
    }
  }
}
