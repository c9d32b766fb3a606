/** Runs in which the layer-3 code loses track, one for each kind of event it does not follow. */
module L3Witness {
  import opened MacAddress
  import opened L3Types
  import opened L3Switch
  import opened L3Model
  import opened L3Release
  import opened L3Walk
  import opened L3Kernel
  import opened L3Engine
  import opened L3Run
  import opened L3Reach
  import PrefixSearch

  /** 10.0.0.0/24, and the routers 10.0.0.1 and 10.0.0.2 in it. */
  const NET: seq<bool> := [false, false, false, false, true, false, true, false,
                           false, false, false, false, false, false, false, false,
                           false, false, false, false, false, false, false, false]
  const ON_LINK := Addr(false, NET)
  const ROUTER1 := Addr(false, NET + [false, false, false, false, false, false, false, true])
  const ROUTER2 := Addr(false, NET + [false, false, false, false, false, false, true, false])

  /** 192.168.0.0/16 behind them. */
  const FAR := Addr(false, [true, true, false, false, false, false, false, false,
                            true, false, true, false, true, false, false, false])

  const VIA1 := NhStub(ROUTER1, 1, 0)
  const VIA2 := NhStub(ROUTER2, 1, 0)
  const MAC: Mac := 0x02_00_00_00_00_07

  lemma Addresses()
    ensures IsHost(ROUTER1) && IsHost(ROUTER2) && ROUTER1 != ROUTER2
    ensures IsNet(ON_LINK) && IsNet(FAR) && ON_LINK != FAR
    ensures Covers(ON_LINK, ROUTER1) && Covers(ON_LINK, ROUTER2)
    ensures !IsLinkLocal(ROUTER1) && !IsLinkLocal(ROUTER2) && !Silent(FAR) && !Silent(ON_LINK)
  {
    assert |ROUTER1.bits| == 32 && |ROUTER2.bits| == 32 && |FAR.bits| == 16 && |ON_LINK.bits| == 24;
    assert ROUTER1.bits[31] && !ROUTER2.bits[31];
  }

  const NET_UP := RouteNew(Route(ON_LINK, {}, true), {})
  const NET_GONE := RouteGone(ON_LINK)
  const ROUTE_VIA1 := RouteNew(Route(FAR, {VIA1}, false), {})
  const ROUTE_VIA_BOTH := RouteNew(Route(FAR, {VIA1, VIA2}, false), {})
  const UP1 := NeighUp(VIA1.Id(), MAC, true)
  const UP2 := NeighUp(VIA2.Id(), MAC, true)
  const UNROUTED1 := NeighUp(VIA1.Id(), MAC, false)

  // ------------------------------------------------ runs, event by event

  lemma FinalNext(events: seq<Event>, ev: Event)
    ensures Final(events + [ev]) == Step(Final(events), ev)
    ensures MissedAfter(events + [ev]) == MissedNext(Final(events), MissedAfter(events), ev)
  {
    hide Step, MissedNext;
    assert (events + [ev])[..|events|] == events;
  }

  /** A run with one more event at its end. */
  lemma OneMoreEvent(links: Links, events: seq<Event>, ev: Event)
    requires PossibleRun(links, events) && Possible(links, Final(events), ev)
    ensures PossibleRun(links, events + [ev]) && Final(events + [ev]) == Step(Final(events), ev)
    ensures FollowedRun(events) ==> (FollowedRun(events + [ev]) <==> Followed(Final(events), ev))
  {
    hide Possible, Followed, Step, Final;
    var l := events + [ev];
    FinalNext(events, ev);
    assert l[..|events|] == events;
    forall i | 0 <= i < |l| ensures Possible(links, Final(l[..i]), l[i]) {
      if i < |events| { assert l[..i] == events[..i]; }
    }
    if FollowedRun(events) && Followed(Final(events), ev) {
      forall i | 0 <= i < |l| ensures Followed(Final(l[..i]), l[i]) {
        if i < |events| { assert l[..i] == events[..i]; }
      }
    }
    if FollowedRun(l) { assert Followed(Final(l[..|events|]), l[|events|]); }
  }

  lemma NoEvent(links: Links)
    ensures PossibleRun(links, []) && FollowedRun([]) && Final([]) == NOTHING && MissedAfter([]) == {}
  {
  }

  /** Nobody is missed by a run that is followed. */
  lemma {:induction false} NobodyMissed(links: Links, events: seq<Event>)
    requires PossibleRun(links, events) && FollowedRun(events)
    ensures KernelOk(links, Final(events)) && MissedAfter(events) == {}
  {
    hide Possible, Followed, Step, Avoids, Keeps, MissedNext, KernelOk;
    if events == [] {
      NothingOk(links);
    } else {
      var before, ev := events[..|events| - 1], events[|events| - 1];
      assert events == before + [ev];
      forall i | 0 <= i < |before|
        ensures Possible(links, Final(before[..i]), before[i]) && Followed(Final(before[..i]), before[i]) {
        assert before[..i] == events[..i];
      }
      NobodyMissed(links, before);
      FinalNext(before, ev);
      assert Possible(links, Final(events[..|before|]), events[|before|]);
      FollowedIff(links, Final(before), ev);
      StepOk(links, Final(before), ev);
    }
  }

  lemma NothingOk(links: Links)
    ensures KernelOk(links, NOTHING)
  {
  }

  /** The run gets to the event after n others that are followed. */
  lemma GetsThere(links: Links, events: seq<Event>, i: nat)
    requires PossibleRun(links, events) && i < |events| && FollowedTo(events, i)
    ensures MissedAfter(events[..i]) == {} && KernelOk(links, Final(events[..i]))
    ensures Possible(links, Final(events[..i]), events[i])
    ensures Avoids(Final(events[..i]), {}, events[i])
    ensures Followed(Final(events[..i]), events[i])
       <==> Keeps(links, Final(events[..i]), {}, events[i]) && MissedNext(Final(events[..i]), {}, events[i]) == {}
  {
    hide Possible, Followed, Step, Avoids, Keeps, MissedNext, KernelOk, Final, MissedAfter;
    var l := events[..i];
    forall j | 0 <= j < |l| ensures Possible(links, Final(l[..j]), l[j]) && Followed(Final(l[..j]), l[j]) {
      assert l[..j] == events[..j];
    }
    NobodyMissed(links, l);
    FollowedIff(links, Final(l), events[i]);
  }

  /** A run whose last event is the first one that is not followed, and what it leads to: the lists do not match
      the kernel; either some neighbours are missed, or track is lost. */
  ghost predicate LosesTrack(e: NlL3, k: Kernel, events: seq<Event>, ev: Event)
    reads e
  {
    && PossibleRun(e.links, events + [ev]) && FollowedRun(events) && !Followed(Final(events), ev)
    && k == Final(events + [ev]) && !ListsMatch(e.waiting, e.watching, k) && !Mirrors(e, k)
    && (if Keeps(e.links, Final(events), {}, ev) then Tracks(e, k, MissedNext(Final(events), {}, ev))
        else Lost(e, Final(events), {}, ev))
  }

  method Lose(links: Links, events: seq<Event>, ev: Event) returns (e: NlL3, k: Kernel)
    requires PossibleRun(links, events + [ev]) && FollowedRun(events) && !Followed(Final(events), ev)
    ensures fresh(e) && e.links == links && LosesTrack(e, k, events, ev)
  {
    hide *;
    var n, missed, lost;
    ghost var l := events + [ev];
    e, k, n, missed, lost := Run(links, events + [ev]);
    if lost {
      LostMeans(e, Final(l[..n - 1]), MissedAfter(l[..n - 1]), l[n - 1]);
      LostLast(links, events, ev, n);
    } else {
      KeptLast(links, events, ev, n);
    }
    FinalNext(events, ev);
    LosesTrackOf(e, k, events, ev);
  }

  lemma LostMeans(e: NlL3, k: Kernel, missed: set<NeighId>, ev: Event)
    requires Lost(e, k, missed, ev)
    ensures !Keeps(e.links, k, missed, ev) && !ListsMatch(e.waiting, e.watching, Step(k, ev))
  {
  }

  lemma LosesTrackOf(e: NlL3, k: Kernel, events: seq<Event>, ev: Event)
    requires PossibleRun(e.links, events + [ev]) && FollowedRun(events) && !Followed(Final(events), ev)
    requires k == Final(events + [ev]) && !ListsMatch(e.waiting, e.watching, k) && !Mirrors(e, k)
    requires if Keeps(e.links, Final(events), {}, ev) then Tracks(e, k, MissedNext(Final(events), {}, ev))
             else Lost(e, Final(events), {}, ev)
    ensures LosesTrack(e, k, events, ev)
  {
  }

  lemma PrefixesOf(events: seq<Event>, ev: Event, n: nat)
    requires n <= |events|
    ensures (events + [ev])[..n] == events[..n] && events[..|events|] == events
    ensures (events + [ev])[..|events| + 1] == events + [ev] && (events + [ev])[|events|] == ev
  {
  }

  /** The first n events of a followed run with one more event. */
  lemma FollowedPart(events: seq<Event>, ev: Event, n: nat)
    requires FollowedRun(events) && n <= |events|
    ensures FollowedTo(events + [ev], n)
    ensures n < |events| ==> Followed(Final((events + [ev])[..n]), (events + [ev])[n])
  {
    hide Followed, Final;
    forall i | 0 <= i < |events| ensures Followed(Final((events + [ev])[..i]), (events + [ev])[i]) {
      PrefixesOf(events, ev, i);
    }
  }

  /** Track is lost with the last event. */
  lemma LostLast(links: Links, events: seq<Event>, ev: Event, n: nat)
    requires PossibleRun(links, events + [ev]) && FollowedRun(events) && 0 < n <= |events| + 1
    requires var l := events + [ev]; !Keeps(links, Final(l[..n - 1]), MissedAfter(l[..n - 1]), l[n - 1])
    ensures var l := events + [ev];
            n == |l| && l[..n] == l && l[..n - 1] == events && l[n - 1] == ev && MissedAfter(events) == {}
            && !Keeps(links, Final(events), {}, ev)
  {
    hide *;
    var l := events + [ev];
    FollowedPart(events, ev, n - 1);
    GetsThere(links, l, n - 1);
    PrefixesOf(events, ev, n - 1);
  }

  /** Or the last event is reached and keeps track. */
  lemma KeptLast(links: Links, events: seq<Event>, ev: Event, n: nat)
    requires PossibleRun(links, events + [ev]) && FollowedRun(events) && n <= |events| + 1
    requires KeptTo(links, events + [ev], n)
    requires var l := events + [ev]; n == |l| || !Avoids(Final(l[..n]), MissedAfter(l[..n]), l[n])
    ensures var l := events + [ev];
            n == |l| && l[..n] == l && Keeps(links, Final(events), {}, ev)
            && MissedAfter(l) == MissedNext(Final(events), {}, ev)
            && (MissedAfter(l) == {} ==> Followed(Final(events), ev))
  {
    hide *;
    var l := events + [ev];
    if n < |l| {
      FollowedPart(events, ev, n);
      GetsThere(links, l, n);
    } else {
      FollowedPart(events, ev, n - 1);
      GetsThere(links, l, n - 1);
      PrefixesOf(events, ev, n - 1);
      FinalNext(events, ev);
      KeptAt(links, l, n, n - 1);
    }
  }

  lemma KeptAt(links: Links, events: seq<Event>, n: nat, i: nat)
    requires n <= |events| && KeptTo(links, events, n) && i < n
    ensures Keeps(links, Final(events[..i]), MissedAfter(events[..i]), events[i])
  {
  }

  // ------------------------------------------------- a gateway comes unrouted

  lemma UnroutedGatewayRun(links: Links)
    requires 1 in links
    ensures PossibleRun(links, [ROUTE_VIA1] + [UNROUTED1]) && FollowedRun([ROUTE_VIA1])
    ensures !Followed(Final([ROUTE_VIA1]), UNROUTED1)
  {
    UnroutedGatewayState(links);
    hide *;
    NoEvent(links);
    OneMoreEvent(links, [], ROUTE_VIA1);
    assert [] + [ROUTE_VIA1] == [ROUTE_VIA1];
    OneMoreEvent(links, [ROUTE_VIA1], UNROUTED1);
  }

  lemma UnroutedGatewayState(links: Links)
    requires 1 in links
    ensures Possible(links, NOTHING, ROUTE_VIA1) && Followed(NOTHING, ROUTE_VIA1)
    ensures var k := Step(NOTHING, ROUTE_VIA1); Possible(links, k, UNROUTED1) && !Followed(k, UNROUTED1)
  {
    Addresses();
    var k := Step(NOTHING, ROUTE_VIA1);
    assert VIA1 in NhRoutes(k)[FAR];
    assert !NoRouteVia(NhRoutes(k), VIA1.Id());
  }

  /** A route waits for its gateway; the gateway resolves while no on-link route covers it. The caches show
      it resolved, the route goes on waiting. */
  method UnroutedGateway(links: Links) returns (e: NlL3, k: Kernel)
    requires 1 in links
    ensures e.links == links && LosesTrack(e, k, [ROUTE_VIA1], UNROUTED1) && Tracks(e, k, {VIA1.Id()})
  {
    hide *;
    UnroutedGatewayRun(links);
    UnroutedMissed(links, Final([ROUTE_VIA1]));
    e, k := Lose(links, [ROUTE_VIA1], UNROUTED1);
    LosesTrackMeans(e, k, [ROUTE_VIA1], UNROUTED1);
  }

  lemma UnroutedMissed(links: Links, k: Kernel)
    ensures Keeps(links, k, {}, UNROUTED1)
    ensures !Followed(k, UNROUTED1) ==> MissedNext(k, {}, UNROUTED1) == {VIA1.Id()}
  {
  }

  lemma LosesTrackMeans(e: NlL3, k: Kernel, events: seq<Event>, ev: Event)
    requires LosesTrack(e, k, events, ev)
    ensures k == Final(events + [ev])
    ensures Keeps(e.links, Final(events), {}, ev) ==> Tracks(e, k, MissedNext(Final(events), {}, ev))
    ensures !Keeps(e.links, Final(events), {}, ev) ==> Lost(e, Final(events), {}, ev)
  {
  }

  // ------------------------------------------------------- and is noticed later

  const NET_UP1 := RouteNew(Route(ON_LINK, {}, true), {VIA1.Id()})
  const WAITING := Kernel(map[], {}, map[FAR := ROUTE_VIA1.r])
  const UNNOTICED := Kernel(map[VIA1.Id() := MAC], {VIA1.Id()}, map[FAR := ROUTE_VIA1.r])

  ghost predicate Goes(links: Links, k: Kernel, missed: set<NeighId>, ev: Event, k': Kernel, missed': set<NeighId>) {
    && Possible(links, k, ev) && Avoids(k, missed, ev) && Keeps(links, k, missed, ev)
    && Step(k, ev) == k' && MissedNext(k, missed, ev) == missed'
  }

  lemma RecoveredStates(links: Links)
    requires 1 in links
    ensures Goes(links, NOTHING, {}, ROUTE_VIA1, WAITING, {})
    ensures Goes(links, WAITING, {}, UNROUTED1, UNNOTICED, {VIA1.Id()}) && !Followed(WAITING, UNROUTED1)
    ensures Goes(links, UNNOTICED, {VIA1.Id()}, NET_UP1, Step(UNNOTICED, NET_UP1), {})
  {
    Addresses();
    hide IsHost, IsNet, IsLinkLocal, Covers, Silent;
    assert VIA1 in NhRoutes(WAITING)[FAR];
    assert !NoRouteVia(NhRoutes(WAITING), VIA1.Id());
    assert VIA1.Id() in NeighsOfPrefix(UNNOTICED.unroutable, ON_LINK);
    assert EnabledBy(UNNOTICED, ON_LINK, {VIA1.Id()}) == {VIA1.Id()};
  }

  lemma RecoveredRun(links: Links)
    requires 1 in links
    ensures var l := [ROUTE_VIA1, UNROUTED1, NET_UP1];
            && PossibleRun(links, l) && KeptTo(links, l, 3) && !FollowedRun(l) && MissedAfter(l) == {}
  {
    RecoveredStates(links);
    NoEvent(links);
    var l := [ROUTE_VIA1, UNROUTED1, NET_UP1];
    hide Possible, Followed, Step, Avoids, Keeps, MissedNext, Final, MissedAfter;
    FinalNext([], ROUTE_VIA1);
    assert [] + [ROUTE_VIA1] == l[..1] && l[..0] == [];
    FinalNext([ROUTE_VIA1], UNROUTED1);
    assert [ROUTE_VIA1] == l[..1] && [ROUTE_VIA1] + [UNROUTED1] == l[..2];
    FinalNext([ROUTE_VIA1, UNROUTED1], NET_UP1);
    assert [ROUTE_VIA1, UNROUTED1] == l[..2] && [ROUTE_VIA1, UNROUTED1] + [NET_UP1] == l;
    assert !Followed(Final(l[..1]), l[1]);
  }

  /** The routes are told when an on-link route makes the gateway routed: the lists match again, and the whole
      mirror holds. */
  method Recovered(links: Links) returns (e: NlL3, k: Kernel)
    requires 1 in links
    ensures var l := [ROUTE_VIA1, UNROUTED1, NET_UP1];
            e.links == links && PossibleRun(links, l) && !FollowedRun(l) && k == Final(l) && Mirrors(e, k)
  {
    hide *;
    RecoveredRun(links);
    var n, missed, lost;
    e, k, n, missed, lost := Run(links, [ROUTE_VIA1, UNROUTED1, NET_UP1]);
    RunsThrough(e, links, [ROUTE_VIA1, UNROUTED1, NET_UP1], n, lost);
  }

  /** A run that keeps track is never lost. */
  lemma RunsThrough(e: NlL3, links: Links, events: seq<Event>, n: nat, lost: bool)
    requires KeptTo(links, events, |events|) && n <= |events| && e.links == links
    requires lost ==> n > 0 && Lost(e, Final(events[..n - 1]), MissedAfter(events[..n - 1]), events[n - 1])
    requires !lost ==> n == |events| || !Avoids(Final(events[..n]), MissedAfter(events[..n]), events[n])
    ensures !lost && n == |events| && events[..n] == events
  {
    hide Avoids, Keeps, Final, MissedAfter;
  }

  // ------------------------------------ an on-link route goes, the gateway stays

  lemma OnLink(links: Links)
    ensures Possible(links, NOTHING, NET_UP) && Followed(NOTHING, NET_UP)
    ensures Step(NOTHING, NET_UP) == Kernel(map[], {}, map[ON_LINK := NET_UP.r])
  {
  }

  /** The on-link route is changed, and stays on-link. */
  const NET_CHANGE := RouteChange(Route(ON_LINK, {}, true), {VIA1.Id()})
  const GATEWAY_UP := Kernel(map[VIA1.Id() := MAC], {}, map[ON_LINK := NET_UP.r, FAR := ROUTE_VIA1.r])

  lemma GatewayUpStates(links: Links)
    requires 1 in links
    ensures var k1 := Kernel(map[], {}, map[ON_LINK := NET_UP.r]);
            var k2 := Kernel(map[VIA1.Id() := MAC], {}, map[ON_LINK := NET_UP.r]);
            && Possible(links, k1, UP1) && Followed(k1, UP1) && Step(k1, UP1) == k2
            && Possible(links, k2, ROUTE_VIA1) && Followed(k2, ROUTE_VIA1) && Step(k2, ROUTE_VIA1) == GATEWAY_UP
  {
    Addresses();
    hide IsHost, IsNet, IsLinkLocal, Covers, Silent;
  }

  lemma GatewayUpRun(links: Links)
    requires 1 in links
    ensures PossibleRun(links, [NET_UP, UP1, ROUTE_VIA1]) && FollowedRun([NET_UP, UP1, ROUTE_VIA1])
    ensures Final([NET_UP, UP1, ROUTE_VIA1]) == GATEWAY_UP
  {
    hide *;
    NoEvent(links);
    OnLink(links);
    GatewayUpStates(links);
    OneMoreEvent(links, [], NET_UP);
    assert [] + [NET_UP] == [NET_UP];
    OneMoreEvent(links, [NET_UP], UP1);
    assert [NET_UP] + [UP1] == [NET_UP, UP1];
    OneMoreEvent(links, [NET_UP, UP1], ROUTE_VIA1);
    assert [NET_UP, UP1] + [ROUTE_VIA1] == [NET_UP, UP1, ROUTE_VIA1];
  }

  /** Both ends of the on-link route disable the gateway. */
  lemma GatewayDisabled(links: Links, ev: Event)
    requires ev == NET_GONE || ev == NET_CHANGE
    ensures Possible(links, GATEWAY_UP, ev) && Disables(GATEWAY_UP, ev) && Disabled(GATEWAY_UP, ev) == {VIA1.Id()}
    ensures var routes := NhRoutes(Middle(GATEWAY_UP, ev));
            FAR in routes && routes[FAR] == {VIA1} && forall d :: d in routes && d != FAR ==> routes[d] == {}
  {
    Addresses();
    hide IsHost, IsNet, IsLinkLocal, Covers, Silent;
    var k1 := Middle(GATEWAY_UP, ev);
    assert EnabledBy(GATEWAY_UP, ON_LINK, {VIA1.Id()}) == {};
    assert HostsOf(k1) == {VIA1.Id()};
  }

  lemma GatewayMissed(links: Links, ev: Event)
    requires ev == NET_GONE || ev == NET_CHANGE
    ensures Possible(links, GATEWAY_UP, ev) && !Followed(GATEWAY_UP, ev)
    ensures Keeps(links, GATEWAY_UP, {}, ev) && MissedNext(GATEWAY_UP, {}, ev) == {VIA1.Id()}
  {
    GatewayDisabled(links, ev);
    var k1 := Middle(GATEWAY_UP, ev);
    var routes := NhRoutes(k1);
    assert VIA1 in routes[FAR];
    assert !NoRouteVia(routes, VIA1.Id());
    assert WithRoutes(routes, {VIA1.Id()}) == {VIA1.Id()};
    assert Apart(routes, {VIA1.Id()});
    assert MiddleMissed(GATEWAY_UP, {}, ev) == {};
    hide Middle, NhRoutes, NoRouteVia, Breaks, Misled, HostsOf, Known, Disabled, Disables, Silent, WithRoutes, Apart;
    ApartIsRight(Known(links, k1, {}), routes, HostsOf(k1), {VIA1.Id()});
  }

  lemma VanishedNetRun(links: Links, ev: Event)
    requires 1 in links && (ev == NET_GONE || ev == NET_CHANGE)
    ensures PossibleRun(links, [NET_UP, UP1, ROUTE_VIA1] + [ev]) && FollowedRun([NET_UP, UP1, ROUTE_VIA1])
    ensures var k := Final([NET_UP, UP1, ROUTE_VIA1]);
            !Followed(k, ev) && Keeps(links, k, {}, ev) && MissedNext(k, {}, ev) == {VIA1.Id()}
  {
    GatewayUpRun(links);
    GatewayMissed(links, ev);
    hide *;
    OneMoreEvent(links, [NET_UP, UP1, ROUTE_VIA1], ev);
  }

  /** The on-link route of a gateway is deleted while a route through the gateway stays: the route waits for
      a neighbour that the caches show resolved. */
  method VanishedNet(links: Links) returns (e: NlL3, k: Kernel)
    requires 1 in links
    ensures e.links == links && LosesTrack(e, k, [NET_UP, UP1, ROUTE_VIA1], NET_GONE) && Tracks(e, k, {VIA1.Id()})
  {
    VanishedNetRun(links, NET_GONE);
    hide *;
    e, k := Lose(links, [NET_UP, UP1, ROUTE_VIA1], NET_GONE);
    LosesTrackMeans(e, k, [NET_UP, UP1, ROUTE_VIA1], NET_GONE);
  }

  /** The on-link route is only changed, and the same happens: it is still there, but the gateway has lost its host
      entry, and the route through it waits. */
  method ChangedNet(links: Links) returns (e: NlL3, k: Kernel)
    requires 1 in links
    ensures e.links == links && LosesTrack(e, k, [NET_UP, UP1, ROUTE_VIA1], NET_CHANGE) && Tracks(e, k, {VIA1.Id()})
    ensures ON_LINK in k.routes && k.routes[ON_LINK].onLink && e.routable == {}
  {
    VanishedNetRun(links, NET_CHANGE);
    GatewayUpRun(links);
    hide *;
    e, k := Lose(links, [NET_UP, UP1, ROUTE_VIA1], NET_CHANGE);
    LosesTrackMeans(e, k, [NET_UP, UP1, ROUTE_VIA1], NET_CHANGE);
    FinalNext([NET_UP, UP1, ROUTE_VIA1], NET_CHANGE);
    TracksParts(e, k, {VIA1.Id()});
    StillOnLink();
  }

  lemma StillOnLink()
    ensures var k := Step(GATEWAY_UP, NET_CHANGE); ON_LINK in k.routes && k.routes[ON_LINK].onLink && HostsOf(k) == {}
  {
    Addresses();
    hide IsHost, IsNet, IsLinkLocal, Covers, Silent;
    assert EnabledBy(GATEWAY_UP, ON_LINK, {VIA1.Id()}) == {};
  }

  // ----------------------------- the same with two gateways on one egress key

  const BOTH_UP := Kernel(map[VIA1.Id() := MAC, VIA2.Id() := MAC], {},
                          map[ON_LINK := NET_UP.r, FAR := ROUTE_VIA_BOTH.r])

  lemma SharedKeyStates(links: Links)
    requires 1 in links
    ensures var k1 := Kernel(map[], {}, map[ON_LINK := NET_UP.r]);
            var k2 := Kernel(map[VIA1.Id() := MAC], {}, map[ON_LINK := NET_UP.r]);
            var k3 := Kernel(map[VIA1.Id() := MAC, VIA2.Id() := MAC], {}, map[ON_LINK := NET_UP.r]);
            && Possible(links, k1, UP1) && Followed(k1, UP1) && Step(k1, UP1) == k2
            && Possible(links, k2, UP2) && Followed(k2, UP2) && Step(k2, UP2) == k3
            && Possible(links, k3, ROUTE_VIA_BOTH) && Followed(k3, ROUTE_VIA_BOTH)
            && Step(k3, ROUTE_VIA_BOTH) == BOTH_UP && Possible(links, BOTH_UP, NET_GONE)
  {
    Addresses();
    hide IsHost, IsNet, IsLinkLocal, Covers, Silent;
  }

  lemma SharedKeyRun(links: Links)
    requires 1 in links
    ensures PossibleRun(links, [NET_UP, UP1, UP2, ROUTE_VIA_BOTH] + [NET_GONE])
    ensures FollowedRun([NET_UP, UP1, UP2, ROUTE_VIA_BOTH]) && Final([NET_UP, UP1, UP2, ROUTE_VIA_BOTH]) == BOTH_UP
  {
    hide *;
    NoEvent(links);
    OnLink(links);
    SharedKeyStates(links);
    OneMoreEvent(links, [], NET_UP);
    assert [] + [NET_UP] == [NET_UP];
    OneMoreEvent(links, [NET_UP], UP1);
    assert [NET_UP] + [UP1] == [NET_UP, UP1];
    OneMoreEvent(links, [NET_UP, UP1], UP2);
    assert [NET_UP, UP1] + [UP2] == [NET_UP, UP1, UP2];
    OneMoreEvent(links, [NET_UP, UP1, UP2], ROUTE_VIA_BOTH);
    assert [NET_UP, UP1, UP2] + [ROUTE_VIA_BOTH] == [NET_UP, UP1, UP2, ROUTE_VIA_BOTH];
    OneMoreEvent(links, [NET_UP, UP1, UP2, ROUTE_VIA_BOTH], NET_GONE);
  }

  /** The first router is met before the second, and both share the key. */
  lemma SharedKeyBreaks(links: Links)
    requires 1 in links
    ensures !Followed(BOTH_UP, NET_GONE) && StreamBreaks(links, BOTH_UP, {}, NET_GONE)
  {
    SharedKeyRoutes();
    SharedKeyFacts(links);
    SharedKeyTangled(KeyOf(links, VIA1.Id(), MAC));
    hide Step, Covered, HostsOf, ResolvedKeys, Known, Breaks, Middle, NhRoutes;
    var routes := NhRoutes(Middle(BOTH_UP, NET_GONE));
    assert VIA1 in routes[FAR] && !NoRouteVia(routes, VIA1.Id());
    assert VIA1.Id() in Disabled(BOTH_UP, NET_GONE);
  }

  lemma SharedKeyTangled(key: EgressKey)
    ensures var ns := {VIA1.Id(), VIA2.Id()};
            Breaks(map[VIA1.Id() := key, VIA2.Id() := key], map[FAR := {VIA1, VIA2}], ns, ns)
  {
    RouterOrder();
    hide Before;
    var ns, keys := {VIA1.Id(), VIA2.Id()}, map[VIA1.Id() := key, VIA2.Id() := key];
    TangleOf(keys, map[FAR := {VIA1, VIA2}], ns, ns, key, FAR, VIA2, VIA1, VIA2.Id());
  }

  lemma SharedKeyRoutes()
    ensures NhRoutes(Middle(BOTH_UP, NET_GONE)) == map[FAR := {VIA1, VIA2}] && Disables(BOTH_UP, NET_GONE)
  {
    Addresses();
    hide IsHost, IsNet, IsLinkLocal, Covers, Silent, HostsOf;
  }

  lemma SharedKeyFacts(links: Links)
    requires 1 in links
    ensures var k1, key := Middle(BOTH_UP, NET_GONE), KeyOf(links, VIA1.Id(), MAC);
            && HostsOf(k1) == {VIA1.Id(), VIA2.Id()} == Disabled(BOTH_UP, NET_GONE)
            && Known(links, k1, {}) == map[VIA1.Id() := key, VIA2.Id() := key]
  {
    Addresses();
    hide IsHost, IsNet, IsLinkLocal, Covers, Silent;
  }

  /** Addresses of one network are ordered by their last bits. */
  lemma RouterOrder()
    ensures Before(VIA1.Id(), VIA2.Id())
  {
    var a, b: seq<bool> := [false, false, false, false, false, false, false, true],
                           [false, false, false, false, false, false, true, false];
    SameNet(NET, a, b);
    SameNet(a[..6], a[6..], b[6..]);
    assert a == a[..6] + a[6..] && b == a[..6] + b[6..];
    assert ROUTER1.bits == NET + a && ROUTER2.bits == NET + b;
  }

  lemma {:induction false} SameNet(p: seq<bool>, a: seq<bool>, b: seq<bool>)
    ensures PrefixSearch.CmpBits(p + a, p + b) == PrefixSearch.CmpBits(a, b)
  {
    if p == [] {
      assert p + a == a && p + b == b;
    } else {
      assert (p + a)[1..] == p[1..] + a && (p + b)[1..] == p[1..] + b;
      SameNet(p[1..], a, b);
    }
  }

  /** Both gateways of a multipath route lose their on-link route. The second one is told to leave while the
      cache still resolves the first, on the same egress key: the ECMP group is made to name the egress group
      that is removed with the next message. */
  method SharedKey(links: Links) returns (e: NlL3, k: Kernel)
    requires 1 in links
    ensures e.links == links && LosesTrack(e, k, [NET_UP, UP1, UP2, ROUTE_VIA_BOTH], NET_GONE)
    ensures Lost(e, BOTH_UP, {}, NET_GONE) && !ClosedThroughout(e.log)
  {
    hide *;
    SharedKeyRun(links);
    SharedKeyBreaks(links);
    BreaksLoses(links, BOTH_UP, NET_GONE);
    e, k := Lose(links, [NET_UP, UP1, UP2, ROUTE_VIA_BOTH], NET_GONE);
    LosesTrackMeans(e, k, [NET_UP, UP1, UP2, ROUTE_VIA_BOTH], NET_GONE);
    LostStream(e, BOTH_UP, NET_GONE);
  }

  lemma BreaksLoses(links: Links, k: Kernel, ev: Event)
    requires StreamBreaks(links, k, {}, ev)
    ensures !Keeps(links, k, {}, ev)
  {
    hide Breaks, Misled;
  }

  lemma LostStream(e: NlL3, k: Kernel, ev: Event)
    requires Lost(e, k, {}, ev) && StreamBreaks(e.links, k, {}, ev)
    ensures !ClosedThroughout(e.log)
  {
  }

  // ---------------------------------- a reference that was never taken is dropped

  const ONE_HOST := Kernel(map[VIA2.Id() := MAC], {}, map[FAR := ROUTE_VIA1.r])

  lemma BorrowedStates(links: Links)
    requires 1 in links
    ensures var k1 := Kernel(map[VIA2.Id() := MAC], {}, map[]);
            && Possible(links, NOTHING, UP2) && Followed(NOTHING, UP2) && Step(NOTHING, UP2) == k1
            && Possible(links, k1, ROUTE_VIA1) && Followed(k1, ROUTE_VIA1) && Step(k1, ROUTE_VIA1) == ONE_HOST
            && Possible(links, ONE_HOST, UNROUTED1) && !Followed(ONE_HOST, UNROUTED1)
    ensures Step(ONE_HOST, UNROUTED1).neighs == map[VIA2.Id() := MAC, VIA1.Id() := MAC]
    ensures Possible(links, Step(ONE_HOST, UNROUTED1), RouteGone(FAR))
  {
    Addresses();
    hide IsHost, IsNet, IsLinkLocal, Covers, Silent;
    assert VIA1 in NhRoutes(ONE_HOST)[FAR];
    assert !NoRouteVia(NhRoutes(ONE_HOST), VIA1.Id());
  }

  lemma BorrowedRun(links: Links)
    requires 1 in links
    ensures PossibleRun(links, [UP2, ROUTE_VIA1] + [UNROUTED1]) && FollowedRun([UP2, ROUTE_VIA1])
    ensures Final([UP2, ROUTE_VIA1]) == ONE_HOST && !Followed(ONE_HOST, UNROUTED1)
    ensures Final([UP2, ROUTE_VIA1] + [UNROUTED1]) == Step(ONE_HOST, UNROUTED1)
    ensures PossibleRun(links, [UP2, ROUTE_VIA1, UNROUTED1, RouteGone(FAR)])
    ensures Final([UP2, ROUTE_VIA1, UNROUTED1, RouteGone(FAR)]) == Step(Step(ONE_HOST, UNROUTED1), RouteGone(FAR))
  {
    hide *;
    NoEvent(links);
    BorrowedStates(links);
    OneMoreEvent(links, [], UP2);
    assert [] + [UP2] == [UP2];
    OneMoreEvent(links, [UP2], ROUTE_VIA1);
    assert [UP2] + [ROUTE_VIA1] == [UP2, ROUTE_VIA1];
    OneMoreEvent(links, [UP2, ROUTE_VIA1], UNROUTED1);
    assert [UP2, ROUTE_VIA1] + [UNROUTED1] == [UP2, ROUTE_VIA1, UNROUTED1];
    OneMoreEvent(links, [UP2, ROUTE_VIA1, UNROUTED1], RouteGone(FAR));
    assert [UP2, ROUTE_VIA1, UNROUTED1] + [RouteGone(FAR)] == [UP2, ROUTE_VIA1, UNROUTED1, RouteGone(FAR)];
  }

  /** Before the deletion the host entry of router 2 is the only user of the key both routers share. */
  lemma BorrowedBefore(e: NlL3, k: Kernel, cache: Cache)
    requires 1 in e.links && k == Step(ONE_HOST, UNROUTED1) && Tracks(e, k, {VIA1.Id()})
    requires cache.neighs == map[VIA2.Id() := MAC, VIA1.Id() := MAC]
    ensures var routes, keys := NhRoutes(k), Known(e.links, k, {VIA1.Id()});
            && e.Settled(routes, keys) && FAR in routes && routes[FAR] == {VIA1}
            && CacheKeys(cache, e.links, {VIA1}, keys) && !OwnOnly({VIA1}, cache, e.links, keys, e.egress)
            && !Spared({VIA1}, cache, e.links, keys, e.egress)
  {
    BorrowedKeys(e.links);
    var routes, keys := NhRoutes(k), Known(e.links, k, {VIA1.Id()});
    var key := KeyOf(e.links, VIA1.Id(), MAC);
    hide Tracks, NlL3.Settled, EgressWired, Counted, ListsOk, NhRoutes, Known, HostsOf, OwnOnly, Spared, CacheKeys,
         Step;
    TracksParts(e, k, {VIA1.Id()});
    SettledOpen(e, routes, keys);
    BorrowedUse(e.egress, e.waiting, e.watching, routes, keys, key);
    BorrowedOwn(cache, e.links, keys, key, e.egress);
  }

  lemma BorrowedKeys(links: Links)
    requires 1 in links
    ensures var k := Step(ONE_HOST, UNROUTED1);
            && NhRoutes(k) == map[FAR := {VIA1}] && HostsOf(k) == {VIA2.Id()} && ROUTER1 != ROUTER2
            && Known(links, k, {VIA1.Id()}) == map[VIA2.Id() := KeyOf(links, VIA1.Id(), MAC)]
  {
    Addresses();
    hide IsHost, IsNet, IsLinkLocal, Covers, Silent;
  }

  lemma BorrowedOwn(cache: Cache, links: Links, keys: Keys, key: EgressKey, egress: Egress)
    requires 1 in links && cache.neighs == map[VIA2.Id() := MAC, VIA1.Id() := MAC] && ROUTER1 != ROUTER2
    requires key == KeyOf(links, VIA1.Id(), MAC) && keys == map[VIA2.Id() := key]
    requires key in egress && egress[key].refcnt == 1
    ensures CacheKeys(cache, links, {VIA1}, keys)
    ensures !OwnOnly({VIA1}, cache, links, keys, egress) && !Spared({VIA1}, cache, links, keys, egress)
  {
    assert IsOn(VIA1, cache, links, key) && VIA1.Id() !in keys;
    assert Stale({VIA1}, cache, links, keys, key) == {VIA1} && Held({VIA1}, cache, links, keys, key) == {};
    assert OnKey({VIA1}, cache, links, key) == {VIA1} && Own({VIA1}, keys, key) == {};
    assert Refs(egress, key) == 1;
  }

  lemma BorrowedUse(egress: Egress, waiting: seq<Pair>, watching: seq<Pair>, routes: Routes, keys: Keys, key: EgressKey)
    requires keys == map[VIA2.Id() := key] && routes == map[FAR := {VIA1}] && ROUTER1 != ROUTER2
    requires Counted(egress, {VIA2.Id()}, watching, keys) && ListsOk(waiting, watching, routes, {}, keys, keys)
    ensures key in egress && egress[key].refcnt == 1
  {
    forall q | q in watching ensures !Resolves(q, keys, key) {
      assert Current(routes, {}, keys, keys, q);
    }
    WatchersNone(watching, keys, key);
    assert HostsOn({VIA2.Id()}, keys, key) == {VIA2.Id()};
  }

  lemma NotLive(e: NlL3)
    requires e.Wired() && !e.Live()
    ensures !ClosedThroughout(e.log)
  {
  }

  /** Two routers share an egress key, and only the host entry of the second refers to it. A route that never
      got a reference for the first drops one when it is deleted: the count is wrong, the group is gone, and
      the host entry dangles. */
  method BorrowedReference(links: Links) returns (e: NlL3, k: Kernel)
    requires 1 in links
    ensures PossibleRun(links, [UP2, ROUTE_VIA1, UNROUTED1, RouteGone(FAR)])
    ensures k == Final([UP2, ROUTE_VIA1, UNROUTED1, RouteGone(FAR)]) && e.links == links && e.Wired()
    ensures !Counted(e.egress, e.routable, e.watching, Known(links, Step(ONE_HOST, UNROUTED1), {VIA1.Id()}))
    ensures !ClosedThroughout(e.log)
  {
    hide *;
    BorrowedRun(links);
    BorrowedStates(links);
    UnroutedMissed(links, ONE_HOST);
    e, k := Lose(links, [UP2, ROUTE_VIA1], UNROUTED1);
    LosesTrackMeans(e, k, [UP2, ROUTE_VIA1], UNROUTED1);
    var cache := CacheOf(Step(k, RouteGone(FAR)));
    CacheAfter(k);
    BorrowedBefore(e, k, cache);
    e.DelL3UnicastRoute(FAR, {VIA1}, cache, NhRoutes(k), Known(links, k, {VIA1.Id()}));
    k := Step(k, RouteGone(FAR));
    NotLive(e);
  }

  lemma CacheAfter(k: Kernel)
    ensures CacheOf(Step(k, RouteGone(FAR))).neighs == k.neighs
  {
  }

  /** A watched next hop that the cache has lost counts for its route as well: the key of a stale sibling may
      lose its last reference here, and still nothing dangles. */
  lemma LostSibling(links: Links, cache: Cache, keys: Keys, egress: Egress)
    requires 1 in links && cache.neighs == map[VIA1.Id() := MAC]
    requires keys == map[VIA2.Id() := KeyOf(links, VIA1.Id(), MAC)]
    requires egress == map[KeyOf(links, VIA1.Id(), MAC) := L3Interface(1, 1)]
    ensures var o, key := {VIA1, VIA2}, KeyOf(links, VIA1.Id(), MAC);
            && CacheKeys(cache, links, o, keys) && Spared(o, cache, links, keys, egress)
            && Stale(o, cache, links, keys, key) != {}
            && |Held(o, cache, links, keys, key)| < Refs(egress, key) <= |OnKey(o, cache, links, key)|
  {
    Addresses();
    hide IsHost, IsNet, IsLinkLocal, Covers, Silent;
    var o, key := {VIA1, VIA2}, KeyOf(links, VIA1.Id(), MAC);
    assert IsOn(VIA1, cache, links, key) && !IsOn(VIA2, cache, links, key) && VIA1.Id() !in keys;
    assert Stale(o, cache, links, keys, key) == {VIA1} && Held(o, cache, links, keys, key) == {};
    assert OnKey(o, cache, links, key) == {VIA1} && Own(o, keys, key) == {VIA2};
    assert forall k :: k != key ==> Refs(egress, k) == 0;
  }

  // ------------------------------------------------------ one network in another

  /** 10.0.0.0/16, around 10.0.0.0/24. */
  const WIDE := Addr(false, NET[..16])
  const NESTED := Kernel(map[VIA1.Id() := MAC], {}, map[WIDE := Route(WIDE, {}, true), ON_LINK := NET_UP.r])

  lemma Nested()
    ensures WIDE != ON_LINK && Covers(WIDE, ROUTER1) && Covers(ON_LINK, ROUTER1) && !IsLinkLocal(ROUTER1)
  {
    Addresses();
    assert |WIDE.bits| == 16 && |ON_LINK.bits| == 24;
  }

  /** The inner of two on-link routes goes: the kernel reaches the router through the outer one, but its host entry
      is taken away. */
  lemma NestedNets(links: Links)
    requires 1 in links
    ensures Possible(links, NESTED, NET_GONE) && Truthful(NESTED, NET_GONE) && HostsOf(NESTED) == Reached(NESTED)
    ensures !Consistent(NESTED, NET_GONE)
    ensures HostsOf(Step(NESTED, NET_GONE)) == {} && Reached(Step(NESTED, NET_GONE)) == {VIA1.Id()}
  {
    Nested();
    hide Covers, IsLinkLocal;
    assert Longest(NESTED.routes, ROUTER1, ON_LINK);
    assert HostsOf(NESTED) == {VIA1.Id()} == Reached(NESTED);
    var t := NESTED.routes - {ON_LINK};
    assert t == map[WIDE := Route(WIDE, {}, true)];
    assert Longest(t, ROUTER1, WIDE);
    assert OnLinkFor(t, ROUTER1);
    assert VIA1.Id() in NeighsOfPrefix(HostsOf(NESTED), ON_LINK);
    hide Longest;
    assert HostsOf(Middle(NESTED, NET_GONE)) == {VIA1.Id()};
    assert Step(NESTED, NET_GONE) == Kernel(map[VIA1.Id() := MAC], {VIA1.Id()}, t);
  }

  // ------------------------------------------------------ a default route

  /** fe80::1, and ::/0 through it. */
  const GATEWAY6 := NhStub(Addr(true, LINK_LOCAL + seq(117, _ => false) + [true]), 1, 0)
  const DEFAULT6 := RouteNew(Route(Addr(true, []), {GATEWAY6}, false), {})

  lemma DefaultRouteRun(links: Links)
    ensures PossibleRun(links, [] + [DEFAULT6]) && FollowedRun([]) && !Followed(Final([]), DEFAULT6)
  {
    NoEvent(links);
    assert Covers(Addr(true, []), Addr(true, LINK_LOCAL));
    assert GATEWAY6 in DEFAULT6.r.nhs;
    assert Possible(links, NOTHING, DEFAULT6) && !Followed(NOTHING, DEFAULT6);
    hide Possible, Followed, Step, Final, PossibleRun, FollowedRun;
    OneMoreEvent(links, [], DEFAULT6);
  }

  /** The IPv6 default route compares alike to fe80::/10: its gateway, if it is not resolved yet, is never
      waited for. */
  method DefaultRoute(links: Links) returns (e: NlL3, k: Kernel)
    ensures e.links == links && LosesTrack(e, k, [], DEFAULT6)
  {
    hide *;
    DefaultRouteRun(links);
    e, k := Lose(links, [], DEFAULT6);
  }

  // ---------------------------------------------------- an ordinary IPv6 route

  /** 2001:db8::/32 through the same gateway, which resolves afterwards. */
  const FAR6 := Addr(true, [false, false, true, false, false, false, false, false,
                            false, false, false, false, false, false, false, true,
                            false, false, false, false, true, true, false, true,
                            true, false, true, true, true, false, false, false])
  const ROUTE6 := RouteNew(Route(FAR6, {GATEWAY6}, false), {})
  const UP6 := NeighUp(GATEWAY6.Id(), MAC, true)
  const RESOLVED6 := Kernel(map[GATEWAY6.Id() := MAC], {}, map[FAR6 := ROUTE6.r])

  lemma Addresses6()
    ensures IsNet(FAR6) && !Silent(FAR6) && IsHost(GATEWAY6.addr)
  {
    SilentIff(FAR6);
    assert |FAR6.bits| == 32 && !FAR6.bits[0];
  }

  lemma Route6Run(links: Links)
    requires 1 in links
    ensures var l := [ROUTE6, UP6];
            PossibleRun(links, l) && FollowedRun(l) && Final(l) == RESOLVED6
  {
    NoEvent(links);
    Addresses6();
    var waiting := Kernel(map[], {}, map[FAR6 := ROUTE6.r]);
    assert Possible(links, NOTHING, ROUTE6) && Followed(NOTHING, ROUTE6) && Step(NOTHING, ROUTE6) == waiting;
    assert Possible(links, waiting, UP6) && Followed(waiting, UP6) && Step(waiting, UP6) == RESOLVED6;
    hide Possible, Followed, Step, Final, PossibleRun, FollowedRun;
    OneMoreEvent(links, [], ROUTE6);
    OneMoreEvent(links, [] + [ROUTE6], UP6);
    assert [] + [ROUTE6] + [UP6] == [ROUTE6, UP6];
  }

  /** The route waits for its gateway and leaves the controller when the gateway resolves: packets then go out
      on the gateway's link, to its link-layer address. */
  method OrdinaryRoute6(links: Links) returns (e: NlL3, k: Kernel)
    requires 1 in links
    ensures e.links == links && k == Final([ROUTE6, UP6]) && Mirrors(e, k)
    ensures FAR6 in e.sw.flows && e.sw.flows[FAR6].ToEgress? && e.sw.flows[FAR6].id in e.sw.egress
            && Carries(e.sw.egress[e.sw.flows[FAR6].id], links[1], MAC)
  {
    hide *;
    Route6Run(links);
    var n, missed, lost;
    e, k, n, missed, lost := Run(links, [ROUTE6, UP6]);
    assert [ROUTE6, UP6][..n] == [ROUTE6, UP6];
    ExactFlow6(e);
  }

  lemma ExactFlow6(e: NlL3)
    requires 1 in e.links && Exact(e, RESOLVED6, {})
    ensures FAR6 in e.sw.flows && e.sw.flows[FAR6].ToEgress? && e.sw.flows[FAR6].id in e.sw.egress
            && Carries(e.sw.egress[e.sw.flows[FAR6].id], e.links[1], MAC)
  {
    assert FAR6 in RESOLVED6.routes;
    assert Forwards(e.sw, e.links, RESOLVED6, {}, FAR6);
    hide Exact;
    assert GATEWAY6 in RESOLVED6.routes[FAR6].nhs && NhUp(RESOLVED6, {}, GATEWAY6);
    assert |RESOLVED6.routes[FAR6].nhs| == 1;
  }
}
