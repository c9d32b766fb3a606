/** What the layer-3 code hears: kernel states, the events between them, and which of them it follows. */
module L3Kernel {
  import opened MacAddress
  import opened L3Types
  import opened L3Model
  import opened L3Walk

  /** Resolved neighbours, those without an on-link route (not routed by the switch), and routes. */
  datatype Kernel = Kernel(neighs: map<NeighId, Mac>, unroutable: set<NeighId>, routes: map<Addr, Route>)

  datatype Event =
    | NeighUp(n: NeighId, mac: Mac, isRoutable: bool)
    | NeighDown(n: NeighId, mac: Mac)
    | RouteNew(r: Route, routable: set<NeighId>)
    | RouteGone(dst: Addr)
    | RouteChange(r: Route, routable: set<NeighId>)

  const NOTHING := Kernel(map[], {}, map[])

  function CacheOf(k: Kernel): Cache {
    Cache(k.neighs, k.routes)
  }

  function NhRoutes(k: Kernel): Routes {
    map d | d in k.routes :: k.routes[d].nhs
  }

  /** The resolved neighbours and their egress keys. */
  function ResolvedKeys(links: Links, k: Kernel): Keys {
    map n | n in k.neighs && n.ifindex in links :: KeyOf(links, n, k.neighs[n])
  }

  /** The neighbours of `list` inside a prefix. */
  function NeighsOfPrefix(list: set<NeighId>, prefix: Addr): set<NeighId> {
    set n | n in list && Covers(prefix, n.addr)
  }

  /** The neighbours the switch routes to. */
  function HostsOf(k: Kernel): set<NeighId> {
    set n | n in k.neighs && n !in k.unroutable && !IsLinkLocal(n.addr)
  }

  /** Neighbours that lose their on-link route. */
  function Covered(k: Kernel, dst: Addr): set<NeighId> {
    NeighsOfPrefix(HostsOf(k), dst)
  }

  /** Neighbours that become routed with a new on-link route. */
  function EnabledBy(k: Kernel, dst: Addr, routable: set<NeighId>): set<NeighId> {
    NeighsOfPrefix(k.unroutable, dst) * routable
  }

  /** A route is there: an on-link route makes neighbours routed. */
  function Adopt(k: Kernel, r: Route, routable: set<NeighId>): Kernel {
    k.(routes := k.routes[r.dst := r],
       unroutable := if r.onLink then k.unroutable - EnabledBy(k, r.dst, routable) else k.unroutable)
  }

  /** The neighbours under an old on-link route are not routed any more. */
  function Withdraw(k: Kernel, dst: Addr): Kernel {
    k.(unroutable := k.unroutable + Covered(k, dst))
  }

  /** Which neighbours are routed is what the code makes of it: on a change it handles the new route and then
      the end of the old one, also when both are on-link. */
  function Step(k: Kernel, ev: Event): Kernel {
    match ev
    case NeighUp(n, mac, isRoutable) =>
      k.(neighs := k.neighs[n := mac],
         unroutable := if isRoutable || IsLinkLocal(n.addr) then k.unroutable else k.unroutable + {n})
    case NeighDown(n, _) =>
      k.(neighs := k.neighs - {n}, unroutable := k.unroutable - {n})
    case RouteNew(r, routable) => Adopt(k, r, routable)
    case RouteGone(dst) => if Disables(k, ev) then Withdraw(Middle(k, ev), dst) else Middle(k, ev)
    case RouteChange(r, _) => if Disables(k, ev) then Withdraw(Middle(k, ev), r.dst) else Middle(k, ev)
  }

  /** The event ends an on-link route. */
  predicate Disables(k: Kernel, ev: Event) {
    match ev
    case RouteGone(dst) => dst in k.routes && k.routes[dst].onLink
    case RouteChange(r, _) => r.dst in k.routes && k.routes[r.dst].onLink
    case _ => false
  }

  /** The state in which the old route of the event ends. */
  function Middle(k: Kernel, ev: Event): Kernel {
    match ev
    case RouteGone(dst) => k.(routes := k.routes - {dst})
    case RouteChange(r, routable) => Adopt(k, r, routable)
    case _ => k
  }

  /** The neighbours it takes along. */
  function Disabled(k: Kernel, ev: Event): set<NeighId> {
    match ev
    case RouteGone(dst) => Covered(Middle(k, ev), dst)
    case RouteChange(r, _) => Covered(Middle(k, ev), r.dst)
    case _ => {}
  }

  /** A destination that goes into the routing table and not into the host table. */
  predicate IsNet(dst: Addr) { IsPrefix(dst) && !IsHost(dst) }

  /** What the kernel guarantees: neighbours are hosts on switch ports, on-link routes have no gateway,
      host addresses are distinct. */
  ghost predicate KernelOk(links: Links, k: Kernel) {
    && (forall n :: n in k.neighs ==> n.ifindex in links && IsHost(n.addr))
    && k.unroutable <= k.neighs.Keys && (forall n :: n in k.unroutable ==> !IsLinkLocal(n.addr))
    && (forall a, b :: a in k.neighs && b in k.neighs && a.addr == b.addr && !IsLinkLocal(a.addr) ==> a == b)
    && (forall d :: d in k.routes ==> && IsNet(d) && RouteOk(k.routes[d].nhs)
                                      && (k.routes[d].onLink ==> k.routes[d].nhs == {}))
  }

  /** Events the kernel can send in state k. */
  ghost predicate Possible(links: Links, k: Kernel, ev: Event) {
    match ev
    case NeighUp(n, mac, isRoutable) =>
      && n !in k.neighs && n.ifindex in links && IsHost(n.addr)
      && (forall m :: m in k.neighs && !IsLinkLocal(n.addr) ==> m.addr != n.addr)
    case NeighDown(n, mac) => n in k.neighs && k.neighs[n] == mac
    case RouteNew(r, routable) => r.dst !in k.routes && IsNet(r.dst) && RouteOk(r.nhs) && (r.onLink ==> r.nhs == {})
    case RouteGone(dst) => dst in k.routes
    case RouteChange(r, routable) => r.dst in k.routes && RouteOk(r.nhs) && (r.onLink ==> r.nhs == {})
  }

  /** The code notices what the event means for the routes. A neighbour that is resolved but not routed
      comes and goes unnoticed, one that becomes unrouted counts as gone, and unresolved next hops of a
      silent destination are not waited for. */
  predicate Followed(k: Kernel, ev: Event) {
    match ev
    case NeighUp(n, _, isRoutable) => isRoutable || IsLinkLocal(n.addr) || NoRouteVia(NhRoutes(k), n)
    case NeighDown(n, _) => n in k.unroutable ==> NoRouteVia(NhRoutes(k), n)
    case RouteNew(r, _) => AllHeard(r.dst, r.nhs, k)
    case RouteGone(_) => NoneDisabled(k, ev)
    case RouteChange(r, _) => AllHeard(r.dst, r.nhs, k) && NoneDisabled(k, ev)
  }

  /** No route goes through a neighbour that is disabled. */
  predicate NoneDisabled(k: Kernel, ev: Event) {
    Disables(k, ev) ==> forall n | n in Disabled(k, ev) :: NoRouteVia(NhRoutes(Middle(k, ev)), n)
  }

  predicate AllHeard(dst: Addr, nhs: set<NhStub>, k: Kernel) {
    Silent(dst) ==> forall nh | nh in nhs :: nh.Id() in k.neighs
  }

  lemma StepOk(links: Links, k: Kernel, ev: Event)
    requires KernelOk(links, k) && Possible(links, k, ev)
    ensures KernelOk(links, Step(k, ev))
  {
    hide IsLinkLocal, IsHost, IsNet, RouteOk, NoRouteVia, Covers;
    match ev {
      case RouteNew(r, routable) => AdoptOk(links, k, r, routable);
      case RouteGone(dst) =>
        hide Covered;
        WithdrawOk(links, Middle(k, ev), dst);
      case RouteChange(r, routable) =>
        AdoptOk(links, k, r, routable);
        hide KernelOk, Adopt, Withdraw;
        WithdrawOk(links, Middle(k, ev), r.dst);
      case _ =>
    }
  }

  lemma AdoptOk(links: Links, k: Kernel, r: Route, routable: set<NeighId>)
    requires KernelOk(links, k) && RouteOk(r.nhs) && (r.onLink ==> r.nhs == {}) && (r.dst !in k.routes ==> IsNet(r.dst))
    ensures KernelOk(links, Adopt(k, r, routable))
  {
    hide IsLinkLocal, IsHost, IsNet, RouteOk, EnabledBy;
  }

  lemma WithdrawOk(links: Links, k: Kernel, dst: Addr)
    requires KernelOk(links, k)
    ensures KernelOk(links, Withdraw(k, dst))
  {
    hide IsLinkLocal, IsHost, IsNet, RouteOk, Covers;
  }

  /** Kernel state after a run. */
  ghost function Final(events: seq<Event>): Kernel {
    if events == [] then NOTHING else Step(Final(events[..|events| - 1]), events[|events| - 1])
  }

  ghost predicate PossibleRun(links: Links, events: seq<Event>) {
    forall i :: 0 <= i < |events| ==> Possible(links, Final(events[..i]), events[i])
  }

  /** The first n events are followed. */
  ghost predicate FollowedTo(events: seq<Event>, n: nat)
    requires n <= |events|
  {
    forall i :: 0 <= i < n ==> Followed(Final(events[..i]), events[i])
  }

  ghost predicate FollowedRun(events: seq<Event>) {
    FollowedTo(events, |events|)
  }

  // ------------------------------------------- neighbours that go unnoticed

  /** The neighbours that the routes take for resolved when those in `missed` have gone unnoticed. */
  function Known(links: Links, k: Kernel, missed: set<NeighId>): Keys {
    ResolvedKeys(links, k) - missed
  }

  predicate NoneIn(s: set<NhStub>, missed: set<NeighId>) {
    forall nh | nh in s :: nh.Id() !in missed
  }

  /** No route through a neighbour in ns has a missed next hop. */
  predicate Untouched(routes: Routes, ns: set<NeighId>, missed: set<NeighId>) {
    forall d | d in routes :: (exists nh | nh in routes[d] :: nh.Id() in ns) ==> NoneIn(routes[d], missed)
  }

  function WithRoutes(routes: Routes, ns: set<NeighId>): set<NeighId> {
    set n | n in ns && !NoRouteVia(routes, n)
  }

  /** The missed neighbours after an event: one that comes unrouted, or that becomes unrouted, is missed by the
      routes through it until it goes or becomes routed. */
  function MissedNext(k: Kernel, missed: set<NeighId>, ev: Event): set<NeighId> {
    match ev
    case NeighUp(n, _, isRoutable) =>
      if isRoutable || IsLinkLocal(n.addr) || NoRouteVia(NhRoutes(k), n) then missed else missed + {n}
    case NeighDown(n, _) => missed - {n}
    case RouteNew(_, _) => MiddleMissed(k, missed, ev)
    case _ =>
      if Disables(k, ev) then MiddleMissed(k, missed, ev) + WithRoutes(NhRoutes(Middle(k, ev)), Disabled(k, ev))
      else MiddleMissed(k, missed, ev)
  }

  /** Those who are missed while the old route of the event ends: a new on-link route has been heeded. */
  function MiddleMissed(k: Kernel, missed: set<NeighId>, ev: Event): set<NeighId> {
    if (ev.RouteNew? || ev.RouteChange?) && ev.r.onLink then missed - EnabledBy(k, ev.r.dst, ev.routable) else missed
  }

  /** The event makes the code look at no missed next hop. */
  predicate Avoids(k: Kernel, missed: set<NeighId>, ev: Event) {
    match ev
    case NeighUp(n, _, isRoutable) => isRoutable || IsLinkLocal(n.addr) ==> Untouched(NhRoutes(k), {n}, missed)
    case NeighDown(n, _) => n !in k.unroutable ==> Untouched(NhRoutes(k), {n}, missed)
    case RouteNew(r, routable) => NoneIn(r.nhs, missed) && AvoidsNew(k, missed, r, routable)
    case RouteGone(dst) => (dst in k.routes ==> NoneIn(k.routes[dst].nhs, missed)) && AvoidsOld(k, missed, ev)
    case RouteChange(r, routable) =>
      && NoneIn(r.nhs, missed) && (r.dst in k.routes ==> NoneIn(k.routes[r.dst].nhs, missed))
      && AvoidsNew(k, missed, r, routable) && AvoidsOld(k, missed, ev)
  }

  /** A neighbour that is missed and becomes routed is the only missed next hop of the routes through it. */
  predicate AvoidsNew(k: Kernel, missed: set<NeighId>, r: Route, routable: set<NeighId>) {
    r.onLink ==> forall n | n in EnabledBy(k, r.dst, routable) * missed :: Untouched(NhRoutes(k), {n}, missed - {n})
  }

  predicate AvoidsOld(k: Kernel, missed: set<NeighId>, ev: Event) {
    Disables(k, ev) ==> Untouched(NhRoutes(Middle(k, ev)), Disabled(k, ev), MiddleMissed(k, missed, ev))
  }

  /** The event leaves nobody but missed neighbours behind: no watched neighbour goes unnoticed, no next hop is
      left out, and disabling neighbours neither breaks the stream nor misleads a group. */
  predicate Keeps(links: Links, k: Kernel, missed: set<NeighId>, ev: Event) {
    match ev
    case NeighUp(_, _, _) => true
    case NeighDown(n, _) => n in k.unroutable ==> n in missed || NoRouteVia(NhRoutes(k), n)
    case RouteNew(r, _) => AllHeard(r.dst, r.nhs, k)
    case RouteGone(_) => !StreamBreaks(links, k, missed, ev) && !GroupMisled(links, k, missed, ev)
    case RouteChange(r, _) =>
      AllHeard(r.dst, r.nhs, k) && !StreamBreaks(links, k, missed, ev) && !GroupMisled(links, k, missed, ev)
  }

  /** The messages of the event leave a dangling reference. */
  predicate StreamBreaks(links: Links, k: Kernel, missed: set<NeighId>, ev: Event) {
    var k1 := Middle(k, ev);
    Disables(k, ev)
    && Breaks(Known(links, k1, MiddleMissed(k, missed, ev)), NhRoutes(k1), HostsOf(k1), Disabled(k, ev))
  }

  /** They leave a group that names a neighbour which is gone. */
  predicate GroupMisled(links: Links, k: Kernel, missed: set<NeighId>, ev: Event) {
    var k1 := Middle(k, ev);
    Disables(k, ev)
    && Misled(Known(links, k1, MiddleMissed(k, missed, ev)), NhRoutes(k1), HostsOf(k1), Disabled(k, ev))
  }

  /** The neighbours that the routes take for resolved after an event that does not keep track. */
  function Believed(links: Links, k: Kernel, missed: set<NeighId>, ev: Event): Keys {
    if ev.NeighDown? then Known(links, k, missed)
    else if Disables(k, ev) then Known(links, Middle(k, ev), MiddleMissed(k, missed, ev)) - Disabled(k, ev)
    else Known(links, Step(k, ev), missed)
  }

  /** As long as nobody is missed, an event is followed if and only if it keeps track of everybody. */
  lemma FollowedIff(links: Links, k: Kernel, ev: Event)
    requires KernelOk(links, k) && Possible(links, k, ev)
    ensures Avoids(k, {}, ev)
    ensures Followed(k, ev) <==> Keeps(links, k, {}, ev) && MissedNext(k, {}, ev) == {}
  {
    hide IsLinkLocal, IsHost, Breaks, Misled, RouteOk, Silent, ResolvedKeys, NhRoutes, Step, HostsOf, Middle, Disabled;
    assert MiddleMissed(k, {}, ev) == {};
    NoneWithRoutes(NhRoutes(Middle(k, ev)), Disabled(k, ev));
    hide WithRoutes, NoRouteVia;
    if Disables(k, ev) && NoneDisabled(k, ev) {
      NoneApart(NhRoutes(Middle(k, ev)), Disabled(k, ev));
      ApartIsRight(Known(links, Middle(k, ev), {}), NhRoutes(Middle(k, ev)), HostsOf(Middle(k, ev)), Disabled(k, ev));
    }
  }

  /** What a change of a route should do is what the new route alone would do. The host entries end up like that
      if and only if the old route was not on-link, or no neighbour under it is routed by then. */
  lemma ChangeIff(k: Kernel, r: Route, routable: set<NeighId>)
    ensures HostsOf(Step(k, RouteChange(r, routable))) == HostsOf(Adopt(k, r, routable))
       <==> !Disables(k, RouteChange(r, routable)) || Covered(Adopt(k, r, routable), r.dst) == {}
    ensures Disables(k, RouteChange(r, routable)) ==>
              Covered(Step(k, RouteChange(r, routable)), r.dst) == {}
  {
    hide IsLinkLocal, Covers, NoRouteVia;
    var ev := RouteChange(r, routable);
    var k1 := Adopt(k, r, routable);
    if Disables(k, ev) {
      assert HostsOf(Withdraw(k1, r.dst)) == HostsOf(k1) - Covered(k1, r.dst);
      if n :| n in Covered(k1, r.dst) { assert n in HostsOf(k1) && n !in HostsOf(Withdraw(k1, r.dst)); }
    }
  }

  lemma NoneWithRoutes(routes: Routes, ns: set<NeighId>)
    ensures WithRoutes(routes, ns) == {} <==> forall n :: n in ns ==> NoRouteVia(routes, n)
  {
    hide NoRouteVia;
    assert forall n :: n in ns && !NoRouteVia(routes, n) ==> n in WithRoutes(routes, ns);
  }

  lemma NoneApart(routes: Routes, ns: set<NeighId>)
    requires forall n :: n in ns ==> NoRouteVia(routes, n)
    ensures Apart(routes, ns)
  {
  }

  // ------------------------------------------------------------------- runs

  ghost function MissedAfter(events: seq<Event>): set<NeighId> {
    if events == [] then {}
    else
      var before := events[..|events| - 1];
      MissedNext(Final(before), MissedAfter(before), events[|events| - 1])
  }

  /** Each of the first n events avoids the missed neighbours and keeps track of all others. */
  ghost predicate KeptTo(links: Links, events: seq<Event>, n: nat)
    requires n <= |events|
  {
    forall i :: 0 <= i < n ==>
      var k, missed := Final(events[..i]), MissedAfter(events[..i]);
      Avoids(k, missed, events[i]) && Keeps(links, k, missed, events[i])
  }
}
