# baseboxd: shadow state and switch programming, verified

baseboxd mirrors the Linux network state it hears about over netlink into an OF-DPA switch. To do
that it keeps shadow state (reference counts, group memberships, id pools, lists of pending
callbacks) and changes the switch in an order that must never leave a table entry pointing at
something that is gone. This project models those engines in Dafny and proves what they keep over
whole runs. `dafny verify dfyconfig.toml` checks everything.

## How the model is built

Objects with fields that the C++ code updates are classes with the same fields and methods; their
`ensures` give the new state, and the invariants are predicates over plain field values with lemmas
beside them. The switch is a state machine over messages (`L3Switch`, `L2Switch`); a ghost log
records every message, and "nothing dangles" is stated for every prefix of that log. Queries into the
libnl caches are parameters: an abstract kernel state whose events drive the engine.

| file | about |
|---|---|
| `MacAddress`, `SetFacts` | shared by the others |
| `L3Types`, `L3Switch`, `IdPool` | addresses, next hops and routes; the routing tables of the switch; counter plus freed-set id pools |
| `L3Model`, `L3Engine` | neighbours and routes sharing egress and ECMP groups: meaning of counts and lists, the class `NlL3` |
| `L3Kernel`, `L3Run` | kernel states, events and the neighbours that go unnoticed; whole runs of the engine |
| `L3Reach` | which neighbours the kernel reaches on-link by longest match, and when the host entries are just theirs |
| `L3Walk` | neighbours disabled one after the other while the caches still show them: what ECMP groups are made to name, and when a reference dangles |
| `L3Release`, `L3Witness` | releasing a route when caches and lists disagree: exact effect on counts and stream; runs that get there |
| `PrefixSearch` | the binary search for the neighbours inside a prefix |
| `L2Switch`, `McGroups`, `L2Controller` | bridging tables; multicast groups; flood groups |
| `VlanBitmaps`, `BridgeVlans`, `BridgeRun` | VLAN bitmaps of a bridge port, their difference, and whole runs of the bridging half |
| `Stg`, `BridgeStp` | spanning-tree group allocator; per-VLAN spanning-tree state and its runs |
| `PortVlans` | layer-3 VLANs of ports, all-or-nothing set-up, joining and leaving the bridge |
| `Vxlan` | endpoints, next hops and access ports of tunnels, and their runs |
| `Queues` | queues drained in batches while other threads add to them |

## Main results

1. **Layer 3, every run** (`L3Run.Run`). For any sequence of neighbour and route events that the kernel can
   send, the engine follows the kernel except for a set of missed neighbours, which is a function of the events
   (`L3Kernel.MissedAfter`): neighbours that are resolved while the routes through them were not told, or were
   told the opposite. For all other neighbours the state is exact. Each egress group's reference count is the
   number of host entries on its key plus the number of watched (route, next hop) pairs resolving to it, and it
   exists exactly when that sum is positive. Each pair of each route is in exactly one of the two callback
   lists, once, by whether its neighbour is resolved and not missed. Each next-hop set with several members has
   an ECMP group exactly while a route uses it, counted by these routes, whose members are the egress ids of the
   known next hops. On the switch, packets for a routed neighbour, and for a destination through its next hops,
   go out on the port and VLAN of the neighbour's link, from the link's address to the neighbour's own
   (`L3Run.Reaches`, `L3Run.Forwards`): to the controller when no next hop is up, to the only one, or to a group
   of exactly those that are up. After every single message nothing on the switch names a missing group, and
   each message met the groups it expects. The lists match the kernel, and the whole mirror holds, if and only
   if nobody is missed; a run all of whose events are followed (`L3Kernel.Followed`) misses nobody, and a missed
   neighbour that becomes routed or goes is missed no more. The statement reaches up to the first event that
   makes the code look at a missed next hop (`L3Kernel.Avoids`), or through the first one that does not keep
   track of everybody (`L3Kernel.Keeps`).
2. **When that fails, exactly.** Conditions on the kernel state and the event decide every event that touches no
   missed neighbour. The code does not tell waiting routes about a neighbour that resolves while no on-link
   route covers it (`L3Run.OnNeighUp`), nor watching routes when such a neighbour goes (`L3Run.OnNeighDown`); it
   tells routes that a neighbour is gone when only its on-link route went (`L3Run.OnLinkRouteGone`); and it does
   not wait for unresolved next hops of destinations that compare alike to fe80::/10 or ff00::/8, which includes
   the IPv6 default route (`L3Run.OnGatewayRoute`). A change adds the new route and then ends the old one, which
   takes the neighbours under an on-link route along even if the route stays on-link: the host entries end up as
   the new route alone would have them if and only if the old route was not on-link or no neighbour under it is
   routed by then (`L3Kernel.ChangeIff`, `L3Run.OnLinkRouteChange`). After each of these events both kinds of
   references are counted for what the lists say. When the neighbours of an on-link route are disabled, in
   address order and while the caches still show them, the stream dangles if and only if, for some route with
   two of them as next hops, the egress group of the one met first goes while the ECMP group still names it
   (`L3Walk.Breaks`), and then, or if a group goes on naming a neighbour that is gone (`L3Walk.Misled`), and
   only then, the tables are wrong. When the caches and the lists disagree, deleting a route keeps the counts if
   and only if no reference is taken from a key that others use, and the stream closed if and only if every such
   key has references to spare (`L3Engine.NlL3.DelL3UnicastRoute`). Which neighbours have host entries the code
   decides piecemeal: they are those that the kernel reaches on-link, by longest match, if and only if each
   event is consistent with that (`L3Reach.ReachIff`). `L3Types.SilentIff` says on bit positions which
   destinations are not waited for. `L3Witness` has a run or a state for each of these, and a run that recovers.
3. **Bridging, every run** (`BridgeRun.Run`). The state is right if and only if every new multicast group found
   a free index; the run is followed up to the first one that does not. Recorded VLANs and tagging of each port
   are exactly its last bitmaps, and the registered multicast members are exactly the kernel's. Every table of
   the switch is given entry by entry (`BridgeRun.OnSwitch`): interface groups, tagging and ingress entries are
   the bitmaps, flooding reaches the ports of the VLAN, unicast flows are the addresses learned and not dropped
   with their VLAN since, and a multicast group is delivered to exactly the members that joined, or whose port
   came back into the VLAN, after the port last left it. If groups are only joined on ports of the VLAN, these
   are the members whose port is in the VLAN. After every message flood groups have their interface groups,
   flows their groups, and an interface group is only removed when no flood group, multicast group or unicast
   flow names it. Every message that adds a group meets none, every one that changes a group meets it. Multicast
   groups and unicast flows never name a missing interface group, if and only if addresses are learned and
   groups are joined on ports of the VLAN. `BridgeVlans.NlBridge.UpdateVlans` handles each changed VLAN exactly
   once.
4. **Multicast indexes.** The one-pass index scan finds a free index if and only if the used indexes below the
   least free one stand in ascending order (`McGroups.ScanIsFreshIff`); runs without an erased group keep them
   distinct (`McGroups.RunWithoutErase`), and `McGroups.RunWithEraseCollides` is a run where two groups of a
   VLAN end up with one index.
5. **Spanning tree, every run** (`BridgeStp.Run`). The bridge tracks exactly the (port, VLAN) entries that the
   events left, the switch shows the effective state of each, each such VLAN has a group of its own until its
   last port goes, and the default group shows what was last written there, whatever group creation and
   destruction answer. The cyclic group scan ends, by pigeonhole (`Stg.FreeSlot`).
6. **VLAN shadow, VXLAN counts, queues, prefix search.** `PortVlans.Run`: the switch has the recorded VLANs of
   unbridged ports except those it refused on leaving the bridge. `Vxlan.Run`: endpoint counts are what the
   events left, the switch has their ports, each on the next hop the endpoint was created with and tenant of
   exactly the VNIs that an address added and that still have users, and a next hop's count is its endpoints
   plus one for each time an endpoint that was already known was created again, so it outlives its last endpoint
   exactly then. `PortVlans.NlVlan.EnableVlan`, `Queues.RunInOrder`, `PrefixSearch.GetL3NeighsOfPrefix`.

## Model

| member | source | states |
|---|---|---|
| L3Run.Run | src/netlink/nl_l3.cc:736-2205 | for every possible run: exact for all neighbours that are not missed, counts, lists, groups, flows, host entries and message stream; packets for a routed neighbour and for every destination go out on the link, from the link-layer address and to the link-layer address of the neighbours that are up, and of no others; lists match and the mirror holds if and only if nobody is missed; ends before an event that touches a missed neighbour, or after one that loses track, then with wrong lists, right counts, and a closed stream if and only if that event does not break it; followed runs miss nobody |
| L3Run.Handle | src/netlink/nl_l3.cc:736-2148 | one event, any kind, that touches no missed neighbour: either it keeps track and the missed neighbours are the predicted ones, or the lists do not match while both counts are right for what they say; the stream is closed if and only if the event does not break it |
| L3Run.OnNeighUp | src/netlink/nl_l3.cc:759-818 | a neighbour resolves: the engine tracks the kernel, and the neighbour is missed exactly when it is not routed and a route goes through it |
| L3Run.OnNeighDown | src/netlink/nl_l3.cc:972-1040 | a neighbour goes: tracked unless a route watches one that was not routed; then the lists are wrong, the counts right for what they say, the stream closed |
| L3Run.Disable | src/netlink/nl_l3.cc:2069-2084 | one neighbour under a vanished on-link route: the lists take it for gone, with the exact message stream; the counts stay right in any case |
| L3Run.Enable | src/netlink/nl_l3.cc:1928-1941 | a neighbour under a new on-link route gets its host entry, and the routes that missed it are told, or it stays unrouted when the route query still says no |
| L3Run.EnableCovered | src/netlink/nl_l3.cc:1924-1942 | exactly the unrouted neighbours inside the prefix that the query accepts become routed, and are missed no more |
| L3Run.DisableCovered | src/netlink/nl_l3.cc:2065-2085 | afterwards lists and counts take exactly the covered neighbours for gone, in any case; the stream is closed if and only if nothing is tangled; the whole state is right for that if and only if moreover no group is misled |
| L3Run.OnLinkRouteNew | src/netlink/nl_l3.cc:1916-1942 | a new on-link route keeps track, and the neighbours it makes routed are missed no more |
| L3Run.OnLinkRouteGone | src/netlink/nl_l3.cc:2058-2085 | the end of an on-link route: lists and counts take exactly the covered neighbours for gone in any case; stream closed if and only if nothing is tangled; tables right for the lists if and only if nothing is tangled and no group misled; then the covered neighbours with routes are the newly missed ones |
| L3Run.WithdrawRoute | src/netlink/nl_l3.cc:2065-2085 | the neighbours under an old on-link route are disabled, also when some next hops wait in no list: exact conditions for stream, tables, lists and missed neighbours |
| L3Run.OnLinkRouteChange | src/netlink/nl_l3.cc:1963-1971 | a change of an on-link route to any other: new route, then the neighbours it makes routed, then the end of the old one; counts right for what the lists say in any case, stream closed if and only if nothing is tangled, tracked if and only if moreover no group is misled and no next hop left out; no neighbour under the route keeps its host entry, so they are those of the new route alone if and only if none is routed by then |
| L3Run.GatewayRouteOnLink | src/netlink/nl_l3.cc:1916-1971 | a gateway route becomes on-link: neighbours become routed while the old next hops still hold their references, then these go; tracked throughout, stream closed |
| L3Run.OnGatewayRoute | src/netlink/nl_l3.cc:1798-2148 | adding or deleting a gateway route, or changing it to another one: tracked if and only if the destination is not silent or all new next hops are resolved; stream closed and counts right in any case |
| L3Run.MistakenLists | src/netlink/nl_l3.cc:975-979 | lists that take some neighbours for the opposite of what the caches show match exactly when no route goes through these |
| L3Run.FindNeighs | src/netlink/nl_l3.cc:2227-2238 | the walks visit exactly the neighbours inside the prefix, each once, in the order of the set |
| L3Run.SearchFindsNeighs | src/netlink/nl_l3.cc:2227-2238 | the binary search over the ordered set finds exactly the neighbours inside the prefix, no two the same, in order |
| L3Run.TracksMatch | src/netlink/nl_l3.cc:975-979 | while the engine tracks the kernel, the callback lists match the caches, and the whole mirror holds, if and only if nobody is missed |
| L3Run.TracksMeans | src/netlink/nl_l3.cc:93-103 | what tracking says about counts, lists, groups, flows and host entries, and about where packets go |
| L3Run.TracksForward | src/netlink/nl_l3.cc:595-669 | while the engine tracks the kernel, host entries and routes lead to egress groups with port, VLAN and source address of the link and the destination address of the neighbour; routes lead to exactly the next hops that are up |
| L3Kernel.FollowedIff | src/netlink/nl_l3.cc:736-2148 | an event is followed if and only if it keeps track of everybody and nobody is missed after it |
| L3Kernel.ChangeIff | src/netlink/nl_l3.cc:1963-2085 | after a change the neighbours with host entries are those that the new route alone would leave, if and only if the old route was not on-link or no neighbour under it is routed by then; under a changed on-link route none is left |
| L3Reach.ReachIff | src/netlink/nl_l3.cc:2207-2225 | with truthful route queries, the routed neighbours stay exactly those that the kernel reaches on-link by longest match, if and only if the event is consistent: a new gateway route takes none away, the end of a route uncovers no on-link route, a changed on-link route reached nobody |
| L3Reach.ReachRun | src/netlink/nl_l3.cc:761-770 | over whole runs of such events they are exactly those |
| L3Reach.HostEntriesIff | src/netlink/nl_l3.cc:761-806 | the host table holds exactly the addresses that the kernel reaches on-link if and only if these neighbours are the routed ones |
| L3Reach.WithRoute | src/netlink/nl_l3.cc:2211-2218 | a new or changed route decides exactly the addresses for which it is the most specific one |
| L3Witness.UnroutedGateway | src/netlink/nl_l3.cc:765-770 | a run of two events after which a route waits for 10.0.0.1, which the caches show resolved: it is missed, everything else is tracked |
| L3Witness.VanishedNet | src/netlink/nl_l3.cc:2065-2085 | a run that ends with the deletion of 10.0.0.0/24 under a route through 10.0.0.1: the route waits for a resolved neighbour, everything else is tracked |
| L3Witness.ChangedNet | src/netlink/nl_l3.cc:1963-1971 | a run that ends with a change of 10.0.0.0/24, which stays on-link: the gateway 10.0.0.1 has lost its host entry and the route through it waits for it |
| L3Witness.SharedKey | src/netlink/nl_l3.cc:1774-1795 | a run that ends with the deletion of 10.0.0.0/24 under a multipath route through two addresses of one router: track is lost, an egress group is removed while the ECMP group names it |
| L3Witness.BorrowedReference | src/netlink/nl_l3.cc:2125-2135 | a run in which a route deleted without ever having held a reference takes one from a host entry: count wrong, entry dangling |
| L3Witness.DefaultRoute | src/netlink/nl_l3.cc:1855-1866 | the run of one event in which the IPv6 default route is added before its gateway resolves: track is lost, nobody waits for the gateway |
| L3Witness.OrdinaryRoute6 | src/netlink/nl_l3.cc:1706-1866 | the run of 2001:db8::/32 through an unresolved gateway that resolves afterwards: the mirror holds and the flow is on an egress group with the addresses of the link and the gateway |
| L3Types.SilentIff | src/netlink/nl_l3.cc:1855-1866 | on bit positions: not waited for are the next hops of the IPv6 prefixes whose bits, as far as they go, agree with 1111111010 or are eight ones first, and of no others; link-local are the addresses with all ten bits |
| L3Witness.Recovered | src/netlink/nl_l3.cc:1924-1942 | the same run and then an on-link route over 10.0.0.1: the mirror holds again |
| L3Witness.LostSibling | src/netlink/nl_l3.cc:2102-2135 | a watched next hop that the cache has lost counts for its route: the last reference of a stale sibling goes and nothing dangles |
| L3Witness.NestedNets | src/netlink/nl_l3.cc:2065-2085 | the inner of two nested on-link routes is deleted: the kernel still reaches the router, its host entry is gone |
| L3Release.CountedIff | src/netlink/nl_l3.cc:2102-2135 | after the next hops of a route are released the counts are right if and only if no reference that was not held came from a key with other users |
| L3Release.StillHeld | src/netlink/nl_l3.cc:2102-2135 | if every such key has references to spare, every host entry and every other route keeps its group throughout |
| L3Release.UnsparedDangles | src/netlink/nl_l3.cc:2102-2135 | if a key with other users loses as many references as it has, the switch ends up naming a missing group |
| L3Release.SparedStale | src/netlink/nl_l3.cc:2102-2135 | while the cache resolves every watched next hop, only keys of stale next hops are at risk, and they are safe exactly when the route alone uses them or gives up fewer references than there are |
| L3Walk.LastNames | src/netlink/nl_l3.cc:1109-1130 | under right counts, a group that loses its last reference is named by something exactly when an ECMP group shows one of its next hops |
| L3Walk.NotifiedCounted | src/netlink/nl_l3.cc:1031-1040 | the walk over the watched pairs of a neighbour keeps the conservation law whatever its messages do |
| L3Walk.NotifiedWalk | src/netlink/nl_l3.cc:1752-1796 | all routes through a neighbour are told while the caches show everybody: closed if and only if the key stays or no ECMP group is made to show it; then the switch holds exactly what was shown |
| L3Walk.LeaveStep | src/netlink/nl_l3.cc:981-1040 | the same with the host entry that goes first |
| L3Walk.LeaveCounted | src/netlink/nl_l3.cc:981-1040 | the counts after a neighbour is gone, in any case |
| L3Walk.OnWayNext | src/netlink/nl_l3.cc:2069-2084 | one more neighbour of the walk: closed so far if and only if every step was safe, and then the switch holds what the groups were made to show |
| L3Walk.SafeIff | src/netlink/nl_l3.cc:2065-2085 | a walk in order is safe if and only if nothing is tangled: no key all of whose users go, with a next hop y on it, another next hop x of the same route met after y, and a neighbour on it met at x or later |
| L3Walk.ShownInTheEnd | src/netlink/nl_l3.cc:1774-1783 | an ECMP group ends up with the next hops that stay and those that went, except the last one met |
| L3Walk.EndTables | src/netlink/nl_l3.cc:1774-1795 | after a closed walk host entries, ECMP groups and routes are right for the neighbours that stay if and only if no group is misled |
| L3Walk.ApartIsRight | src/netlink/nl_l3.cc:2065-2085 | if no route has two next hops among them, neither stream nor tables suffer |
| L3Walk.OwnKeysClose | src/netlink/nl_l3.cc:2065-2085 | neighbours that share no egress key leave without a dangling reference, also as next hops of one route |
| L3Switch.RemovableIff | src/of-dpa/controller.cc:1307-1329 | removing an egress group leaves the switch closed if and only if nothing names it |
| L3Engine.NlL3.AddL3Egress | src/netlink/nl_l3.cc:1045-1090 | one more reference on the key; a new group gets an id no live group has; nothing else on the switch changes |
| L3Engine.NlL3.DelL3Egress | src/netlink/nl_l3.cc:1092-1138 | one reference less; the last one removes the group, and the stream stays closed if and only if nothing names it; unknown keys change nothing and return -ENODATA |
| L3Engine.NlL3.AddL3EcmpGroup | src/netlink/nl_l3.cc:2150-2169 | one more reference on the group of a next-hop set; a new one starts empty under an unused id |
| L3Engine.NlL3.DelL3EcmpGroup | src/netlink/nl_l3.cc:2187-2205 | one reference less; the last one removes the group, and the stream stays closed if and only if no route points at it |
| L3Engine.NlL3.GetL3InterfaceId | src/netlink/nl_l3.cc:1604-1633 | succeeds exactly for a resolved neighbour whose key has a group, with that group's id |
| L3Engine.NlL3.ReachableIds | src/netlink/nl_l3.cc:1724-1736 | exactly one new reference, and the egress ids of all resolved next hops of the route |
| L3Engine.NlL3.NhReachable | src/netlink/nl_l3.cc:1706-1750 | a waiting pair becomes watched, with its reference, and its route and ECMP group follow the new neighbour |
| L3Engine.NlL3.RemainingIds | src/netlink/nl_l3.cc:1774-1783 | the egress ids of the other next hops, as the cache resolves them |
| L3Engine.NlL3.NhUnreachable | src/netlink/nl_l3.cc:1752-1796 | in any state: the exact messages, one reference less, the pair waits again, or is forgotten when its route is unknown; in the middle of an orderly event the route moves off the group before the reference is dropped and everything stays right |
| L3Engine.NlL3.Redirect | src/netlink/nl_l3.cc:1742-1749 | group first, then route, exactly |
| L3Engine.NlL3.RedirectRight | src/netlink/nl_l3.cc:1742-1749 | afterwards this destination follows the new neighbour state, all others are as before |
| L3Engine.NlL3.ReleaseHeld | src/netlink/nl_l3.cc:1109-1130 | a reference dropped while all other users keep theirs: tables stay right, the stream stays closed |
| L3Engine.NlL3.InstallHost | src/netlink/nl_l3.cc:761-806 | host entry on the neighbour's egress group, counted |
| L3Engine.NlL3.AddL3Neigh | src/netlink/nl_l3.cc:736-821 | from the settled state without the neighbour to the settled state with it, also while a route that does not use it is on its way out; the host entry leads to a group with port, VLAN and source address of the link and the destination address of the neighbour; unrouted ones are only remembered, with -ENETUNREACH |
| L3Engine.NlL3.NotifyReachable | src/netlink/nl_l3.cc:809-818 | the walk that erases while iterating reaches every waiting pair of the neighbour and settles the state |
| L3Engine.NlL3.RemoveHost | src/netlink/nl_l3.cc:981-1026 | host entry first, then its reference, exactly |
| L3Engine.NlL3.DelL3Neigh | src/netlink/nl_l3.cc:940-1043 | the lists lose the neighbour in any case, with the exact messages; from a settled state and a cache that is right about the routes through it to the settled state without it; an unrouted one is only forgotten |
| L3Engine.NlL3.NotifyUnreachable | src/netlink/nl_l3.cc:1031-1040 | the walk reaches every watched pair of the neighbour, in order, with the exact messages, and settles an orderly state |
| L3Engine.NlL3.KeyWithoutUsers | src/netlink/nl_l3.cc:765-770 | neighbours without host entry and without routes may come and go without touching any table |
| L3Engine.NlL3.AcquireNextHop | src/netlink/nl_l3.cc:1850-1884 | one next hop: a counted reference and a watched pair, or a waiting one unless the destination is silent |
| L3Engine.NlL3.AcquireNextHops | src/netlink/nl_l3.cc:1850-1884 | one counted reference and one watched pair per resolved next hop, one waiting pair per unresolved one unless the destination is silent |
| L3Engine.NlL3.JoinGroup | src/netlink/nl_l3.cc:1901-1914 | the shared group's members become the ids of the resolved next hops; other groups are untouched |
| L3Engine.NlL3.ChooseTarget | src/netlink/nl_l3.cc:1889-1914 | controller, egress group or ECMP group, as the resolved next hops demand |
| L3Engine.NlL3.InstallRoute | src/netlink/nl_l3.cc:1846-1917 | the route points at its target while references of the next hops it replaces are still held |
| L3Engine.NlL3.DropGroup | src/netlink/nl_l3.cc:2099-2100 | the leaving route's group reference is gone, and the group with it if it was the last |
| L3Engine.NlL3.ReleaseNextHops | src/netlink/nl_l3.cc:2102-2145 | each key loses as many references as the cache resolves next hops on it, found or not; entries found are exactly the old route's; counts survive if and only if no reference comes from a key with other users; the stream stays closed if and only if every such key has references to spare, and then the tables stay right |
| L3Engine.NlL3.DropWatched | src/netlink/nl_l3.cc:2125-2135 | the entry goes if there is one, a reference in any case |
| L3Engine.NlL3.DropWaiting | src/netlink/nl_l3.cc:2114-2121 | the entry goes if there is one |
| L3Engine.NlL3.AddL3UnicastRoute | src/netlink/nl_l3.cc:1798-1917 | the settled state gains the route, except that exactly the unresolved next hops of a silent destination are in neither list |
| L3Engine.NlL3.DelL3UnicastRoute | src/netlink/nl_l3.cc:2058-2148 | whatever the cache shows: exact counts and lists, counts right if and only if no reference comes from a key with other users, stream closed if and only if every such key has references to spare; with cache and lists in agreement the settled state loses the route |
| L3Engine.NlL3.UpdateL3UnicastRoute | src/netlink/nl_l3.cc:1963-1971 | next hops of a route that change: add-new-then-delete-old ends in the state in which only the new route was ever added; unresolved next hops of a silent destination are in neither list |
| L3Engine.NlL3.MuteRoute | src/netlink/nl_l3.cc:1889-1917 | a gateway route replaced by an on-link one: the flow points to the controller, lists and groups still follow the old next hops |
| L3Engine.NlL3.RetireRoute | src/netlink/nl_l3.cc:2099-2145 | then the old next hops and the group go: the state of the new route alone |
| L3Model.CountedAddPair | src/netlink/nl_l3.cc:1079-1087 | watching one more pair and taking one reference keeps the conservation law |
| L3Model.CountedAddHost | src/netlink/nl_l3.cc:766-800 | a host entry and one reference keep the law |
| L3Model.CountedDropPair | src/netlink/nl_l3.cc:1109-1130 | a pair that goes had a reference, and dropping it keeps the law |
| L3Model.CountedDropHost | src/netlink/nl_l3.cc:1024-1026 | the same for a host entry |
| L3Model.ReleaseSafe | src/netlink/nl_l3.cc:1115-1119 | the group whose last counted user is gone is named by no route, host entry or ECMP group |
| L3Model.TablesStable | src/netlink/nl_l3.cc:1079-1130 | changing references of other keys does not change what routes, hosts and groups must contain |
| L3Model.ListsUp | src/netlink/nl_l3.cc:809-818 | moving a pair to the watched list keeps every pair in exactly one list |
| L3Model.ListsDown | src/netlink/nl_l3.cc:1031-1040 | moving a pair to the waiting list keeps every pair in exactly one list |
| L3Model.StripFirst | src/netlink/nl_l3.cc:2110-2121 | the first hit lies among the old entries, so the ones of the new route stay |
| L3Model.ListsInstalled | src/netlink/nl_l3.cc:1855-1884 | a new route's entries keep every pair in exactly one list |
| L3Model.ListsRemoved | src/netlink/nl_l3.cc:2102-2135 | a deleted route leaves no entry behind |
| L3Model.GroupsInstalled | src/netlink/nl_l3.cc:2154-2166 | the ECMP count follows the routes when one is added or replaced |
| L3Model.GroupsReleased | src/netlink/nl_l3.cc:2194-2202 | the ECMP count follows the routes when one has left |
| L3Model.GroupUnnamed | src/netlink/nl_l3.cc:2198-2199 | a group about to be removed is named by no route |
| L3Model.FindFirst | src/netlink/nl_l3.cc:2114-2118 | index of the first matching entry |
| IdPool.NextId | src/of-dpa/controller.cc:1236-1241 | the smallest freed id, otherwise the counter |
| IdPool.TakeOk | src/of-dpa/controller.cc:1265-1271 | the id handed out is not in use; live and freed ids still partition all ids given out so far |
| IdPool.FreeOk | src/of-dpa/controller.cc:1326-1326 | a freed id leaves the live ones, none is lost |
| PrefixSearch.GetL3NeighsOfPrefix | src/netlink/nl_l3.cc:2227-2238 | the binary search returns exactly what filtering the whole ordered set returns, in order |
| PrefixSearch.LowerBound | src/netlink/nl_l3.h:36-38 | first position not below the prefix |
| PrefixSearch.UpperBound | src/netlink/nl_l3.h:40-42 | first position above the prefix |
| PrefixSearch.SortedMonotone | src/netlink/nl_l3.h:34-43 | along the neighbour order the comparison with a prefix never decreases |
| PrefixSearch.CoveredRange | src/netlink/nl_l3.cc:2231-2232 | covered addresses are contiguous, exactly between the two bounds |
| PrefixSearch.LessIsTotal | src/netlink/nl_l3_interfaces.h:54-69 | of two neighbours exactly one is smaller, or they are equal |
| McGroups.ScanIsFreshIff | src/of-dpa/controller.cc:968-974 | the scan's index is free if and only if the used indexes below the least free one ascend; then it is that least one |
| McGroups.FreshIndexIff | src/of-dpa/controller.cc:968-976 | the same condition, on the group list |
| McGroups.RunWithoutErase | src/of-dpa/controller.cc:957-979 | a run that erases no group gives every new group a free index and keeps indexes 1, 2, 3, … per VLAN |
| McGroups.RunWithEraseCollides | src/of-dpa/controller.cc:1066-1067 | three groups, the first dropped, two more added: two groups share index 2 |
| McGroups.JoinedOk | src/of-dpa/controller.cc:962-979 | a join registers and enables exactly the member; enabled and disabled stay disjoint, no empty entry |
| McGroups.LeftOk | src/of-dpa/controller.cc:1025-1068 | a leave takes exactly the member out of the registered and out of the enabled ones, and the entry with the last one |
| McGroups.OffOnRoundTrip | src/of-dpa/controller.cc:1083-1118 | disabling and enabling restores an entry if and only if the port was not already disabled in it |
| McGroups.DisabledAll | src/of-dpa/controller.cc:1102-1118 | a port that leaves a VLAN: exactly its memberships there stop being enabled |
| McGroups.EnabledAll | src/of-dpa/controller.cc:1083-1100 | a port that enters a VLAN: exactly its registered memberships there are enabled |
| McGroups.DiffExact | src/netlink/nl_bridge.cc:1191-1249 | one leave per element of old minus new, one join per element of new minus old, nothing else and nothing twice |
| McGroups.DiffTakesOldToNew | src/netlink/nl_bridge.cc:1177-1252 | from exactly the old registered members to exactly the new ones; those that stay are enabled as before, the new ones are enabled |
| McGroups.RegApplyAll | src/of-dpa/controller.cc:962-1068 | joins and leaves depend on the registered members only, not on which of them are disabled |
| L2Controller.Controller.FreeIndex | src/of-dpa/controller.cc:968-974 | the loop computes the one-pass scan |
| L2Controller.Controller.L2MulticastGroupJoin | src/of-dpa/controller.cc:945-1003 | the member is enabled, every message prefix closed; groups, flows and indexes are exactly those of the entries if and only if a new group got a free index; the update flag is right unless the member was enabled already |
| L2Controller.Controller.L2MulticastGroupLeave | src/of-dpa/controller.cc:1005-1081 | the member is removed or disabled; flow before group; succeeds exactly for registered members |
| L2Controller.Controller.L2MulticastGroupLeaveAllInVlan | src/of-dpa/controller.cc:1102-1118 | no entry is erased, exactly the port's memberships in the VLAN are disabled, and no group names the port there any more |
| L2Controller.Controller.L2MulticastGroupRejoinAllInVlan | src/of-dpa/controller.cc:1083-1100 | exactly the port's disabled memberships in the VLAN are enabled |
| L2Controller.Controller.LeaveAndRejoin | src/of-dpa/controller.cc:1083-1118 | off and on again: in between exactly the memberships of the port in the VLAN are off, afterwards all of them are on; every entry is restored if and only if the port was not disabled in the VLAN before |
| L2Controller.Controller.MdbUpdate | src/netlink/nl_bridge.cc:1177-1252 | the walk over two ordered sets executes exactly their difference; registered members go from old to exactly new, those that stay are enabled as before and the new ones are enabled; groups get existing interface groups if and only if the new members have them |
| L2Controller.Controller.UpdateUntilCollision | src/netlink/nl_bridge.cc:1191-1249 | the calls of an update up to the first join that meets a used index: all before it found a free one, and with it groups and entries do not correspond any more |
| L2Controller.Controller.EgressBridgePortVlanAdd | src/of-dpa/controller.cc:2058-2112 | interface group, flood group, flow in that order; flood groups follow the domains |
| L2Controller.Controller.EgressBridgePortVlanRemove | src/of-dpa/controller.cc:2114-2174 | flood group, or flow and flood group, before the interface group, which nothing names by then |
| L2Controller.Controller.L2AddrRemoveAllInVlan | src/of-dpa/controller.cc:805-825 | exactly the unicast flows of the VLAN that point at the port go |
| L2Controller.Controller.L2AddrAdd | src/of-dpa/controller.cc:827-866 | exactly the flow of the address changes, removed first when it is an update; it names an existing interface group if and only if the port has one in the VLAN |
| L2Controller.DeliversActive | src/of-dpa/controller.cc:945-1003 | the switch delivers a group to a port exactly when the member is enabled |
| L2Controller.WiredLean | src/of-dpa/controller.cc:945-1081 | no multicast flow without a group that has a member, no group without a flow of its own, no member of another VLAN |
| L2Switch.GroundedStands | src/netlink/nl_bridge.cc:564-569 | a stream that gives multicast groups and unicast flows only existing interface groups, and removes these only when unnamed, never leaves them dangling |
| VlanBitmaps.FindNextBitSpec | src/netlink/nl_bridge.cc:234-247 | the next set bit from a position on, or none |
| BridgeVlans.NlBridge.UpdateVlans | src/netlink/nl_bridge.cc:438-606 | each changed VLAN handled exactly once; the port goes from exactly the old VLANs and tagging to exactly the new ones, other ports untouched; its multicast memberships are enabled in VLANs that appear and disabled in those that disappear, where exactly its unicast flows go; the switch follows and every message prefix is sound |
| BridgeVlans.NlBridge.UpdateWord | src/netlink/nl_bridge.cc:438-605 | the same for one word |
| BridgeVlans.NlBridge.ChangeMembers | src/netlink/nl_bridge.cc:453-584 | the membership loop ends and handles exactly the changed bits; memberships and unicast flows follow |
| BridgeVlans.NlBridge.ChangeTags | src/netlink/nl_bridge.cc:588-605 | the tagging loop ends and handles exactly the changed bits |
| BridgeVlans.NlBridge.AddBridgeVlan | src/netlink/nl_vlan.cc:377-461 | interface group, tagging, ingress entry and flood membership follow the record, if and only if the VLAN was not recorded with the other tagging |
| BridgeVlans.NlBridge.RemoveBridgeVlan | src/netlink/nl_vlan.cc:518-586 | record and switch lose the VLAN together, no empty record is kept |
| BridgeVlans.NlBridge.RemoveVlan | src/netlink/nl_bridge.cc:564-569 | whatever names the interface group goes before it: exactly the flows and enabled memberships of the port in the VLAN |
| BridgeVlans.NlBridge.UpdateEgressBridgeVlan | src/netlink/nl_vlan.cc:463-516 | tagging changes in record and switch, or -EINVAL and nothing |
| BridgeRun.Run | src/netlink/nl_bridge.cc:347-1252 | any run of VLAN, multicast and learning events, up to the first new group that meets a used index: the state is right if and only if there is none; then records are the last bitmaps, registered members the last multicast database, and every table of the switch is given entry by entry; if groups are joined on ports of the VLAN, a group is delivered to exactly the members whose port is in the VLAN; every message prefix is sound and met the groups it expects; multicast and unicast references never dangle if and only if ports are in the VLANs they learn and join in |
| BridgeRun.Handle | src/netlink/nl_bridge.cc:347-1252 | one event: the state is right afterwards if and only if new groups find a free index, and then follows the event |
| BridgeRun.OnSwitchOf | src/netlink/nl_bridge.cc:347-606 | interface groups, tagging, ingress, flooding, multicast delivery and unicast flows are those of the bitmaps, the active members and the learned addresses |
| BridgeRun.HousedActive | src/netlink/nl_bridge.cc:497-569 | as long as groups are joined on ports of the VLAN, the active members are those whose port is in the VLAN |
| Stg.FreeSlot | src/of-dpa/controller.cc:2594-2597 | a slot is free if and only if fewer than 510 VLANs are mapped |
| Stg.StgTable.FindFreeStgid | src/of-dpa/controller.cc:2594-2607 | the cyclic scan ends with the first unused id from the current one on, or -ENOSPC exactly when all are taken |
| Stg.StgTable.Create | src/of-dpa/controller.cc:2664-2694 | under any answers: map injective into 2..511, in-use flags exactly its range, failure changes no mapping |
| Stg.StgTable.Destroy | src/of-dpa/controller.cc:2609-2626 | the same for removal |
| Stg.StgTable.StatePortSet | src/of-dpa/controller.cc:2628-2662 | writes the VLAN's group, the default group without one, and rejects unknown states |
| BridgeStp.MinStateIsEffective | src/netlink/nl_bridge.h:92-142 | the eight-bit arithmetic computes the effective state: blocking absorbs, a missing global state is neutral, otherwise the minimum |
| BridgeStp.GetMinStates | src/netlink/nl_bridge.h:120-132 | exactly the tracked VLANs of the port, pointwise the single-VLAN answer |
| BridgeStp.AddPvlanOk | src/netlink/nl_bridge.h:60-71 | exactly this entry takes the state, all others keep theirs; no empty VLAN is kept, undoing a first entry restores the map |
| BridgeStp.DelPvlanOk | src/netlink/nl_bridge.h:73-86 | exactly this entry goes, all others keep their states; the VLAN goes exactly with its last port |
| BridgeStp.WriteState | src/netlink/nl_bridge.cc:1254-1271 | writing one VLAN's group disturbs no other VLAN |
| BridgeStp.EntryRemoved | src/netlink/nl_bridge.cc:1302-1319 | dropping one tracked VLAN leaves all others right |
| BridgeStp.Bridge.SetPortStpState | src/netlink/nl_bridge.cc:1273-1281 | after a global change the switch shows the effective states again, and the state itself in the default group; nothing else is written |
| BridgeStp.Bridge.AddPortVlanStpState | src/netlink/nl_bridge.cc:1283-1300 | refused exactly when no group can be had; otherwise exactly this entry is tracked with its state and the effective state written to its group; a refused first port leaves no trace |
| BridgeStp.Bridge.DelPortVlanStpState | src/netlink/nl_bridge.cc:1302-1319 | exactly this entry is untracked; the group goes only when no other port was tracked, unless the switch refuses; forwarding is written to the group, without one to the default group |
| BridgeStp.Run | src/netlink/nl_bridge.cc:1254-1319 | over every run the tracked (port, VLAN) entries are those the events left, the switch shows the effective state of each, each tracked VLAN has its own group, and the default group shows what was last written to it |
| PortVlans.NlVlan.AddIngressVlan | src/netlink/nl_vlan.cc:78-102 | all ingress entries or, on a refusal, none |
| PortVlans.NlVlan.RemoveIngressVlan | src/netlink/nl_vlan.cc:178-190 | exactly the entries of the LAG and its members go |
| PortVlans.NlVlan.EnableVlan | src/netlink/nl_vlan.cc:236-284 | all entries of the LAG and its members, or none; succeeds exactly when nothing is refused |
| PortVlans.NlVlan.DisableVlan | src/netlink/nl_vlan.cc:286-325 | exactly the VLAN's entries go |
| PortVlans.NlVlan.AddVlan | src/netlink/nl_vlan.cc:24-65 | one more user; the shadow rule survives if and only if the bridge query agrees with the port's state where it matters |
| PortVlans.NlVlan.RemoveVlan | src/netlink/nl_vlan.cc:192-234 | one user less; the same for the shadow rule |
| PortVlans.NlVlan.JoinBridge | src/netlink/nl_vlan.cc:352-375 | a bridged port has no layer-3 VLAN entries |
| PortVlans.NlVlan.LeaveBridge | src/netlink/nl_vlan.cc:327-350 | an unbridged port has its recorded VLANs except the refused ones, which are lost; the shadow rule holds if and only if nothing is or was refused |
| PortVlans.NlVlan.JoinAndLeave | src/netlink/nl_vlan.cc:327-375 | a round trip on the switch entries if and only if no VLAN of the port is refused |
| PortVlans.Run | src/netlink/nl_vlan.cc:24-375 | over any interleaving, with any refusals, the switch has exactly the recorded VLANs of the unbridged ports that were not refused on leaving; without refusals on leaving it has all of them |
| PortVlans.NothingLost | src/netlink/nl_vlan.cc:345-346 | a run whose leaves are all granted loses no VLAN |
| Vxlan.AcquireRelease | src/netlink/nl_vxlan.cc:726-738 | one user more and one less cancel out; the total stays the sum over the VNIs |
| Vxlan.SumRemove | src/netlink/nl_vxlan.cc:103-112 | the sum over VNIs does not depend on the order of summation |
| Vxlan.NhDrop | src/netlink/nl_vxlan.cc:1156-1190 | the last reference goes only when no endpoint uses the next hop |
| Vxlan.NlVxlan.CreateNextHop | src/netlink/nl_vxlan.cc:1018-1096 | one more reference, on a new id if the next hop is unknown; the two maps and the switch stay in agreement |
| Vxlan.NlVxlan.DeleteNextHop | src/netlink/nl_vxlan.cc:1142-1190 | one reference less; a next hop that goes is used by no endpoint port; unknown ids give -ENODATA |
| Vxlan.NlVxlan.CreateEndpoint | src/netlink/nl_vxlan.cc:564-771 | a known endpoint gains a user in total and in the VNI and leaks one next-hop reference, a new one starts with one and leads to its next hop; exactly this port is added to the VNI |
| Vxlan.NlVxlan.AddRemote | src/netlink/nl_vxlan.cc:1264-1288 | a remote address is one more user of its endpoint, creating it if needed; exactly this port is added to the VNI |
| Vxlan.NlVxlan.AddMac | src/netlink/nl_vxlan.cc:1309-1328 | a MAC address is one more user of a known endpoint, -EINVAL otherwise; no port joins or leaves a VNI |
| Vxlan.NlVxlan.Release | src/netlink/nl_vxlan.cc:894-938 | one user less in total and in the VNI; the last one in the VNI takes the tenant along, and nothing else does; the last one at all takes port and next-hop reference along |
| Vxlan.NlVxlan.CreateAccessPort | src/netlink/nl_vxlan.cc:301-386 | succeeds exactly when one of 50 attempts does; then the switch has the port, which is no endpoint and no other access port, as tenant of its tunnel |
| Vxlan.NlVxlan.DeleteAccessPort | src/netlink/nl_vxlan.cc:388-424 | exactly this access port goes, with its tenant and its port on the switch |
| Vxlan.Run | src/netlink/nl_vxlan.cc:301-1518 | over runs whose releases match counted users: per-VNI counts are what the events left, totals their sums; the switch has exactly the ports of the endpoints, each on the next hop its endpoint was created with; the tenants are exactly those the events left; a next hop has a count of its endpoints plus the references leaked on it and exists exactly while that is positive; access ports are those the events left, with ports and tenants of their own |
| Vxlan.LeakMeans | src/netlink/nl_vxlan.cc:1060-1066 | a next hop is there exactly while an endpoint uses it or a reference on it was leaked |
| Vxlan.TenantsLess | src/netlink/nl_vxlan.cc:902-927 | a VNI loses a port exactly when its last user there goes |
| Queues.PushFront | src/netlink/cnetlink.cc:1079-1081 | pushing a batch back from its end puts it in front, in order |
| Queues.StepInOrder | src/netlink/cnetlink.cc:1046-1133 | after any single step of a producer or the consumer, delivered plus batch plus queue is the history |
| Queues.RunInOrder | src/netlink/cnetlink.cc:1046-1133 | through any interleaving nothing is lost, doubled or reordered |
| Queues.RoundIsBounded | src/netlink/cnetlink.cc:1065-1073 | one round delivers at most the given number |
| Queues.EventQueue.Learn | src/netlink/cnetlink.cc:1046-1054 | appended to queue and history |
| Queues.EventQueue.Handle | src/netlink/cnetlink.cc:1056-1085 | exactly the first elements are delivered, up to the limit or until the daemon stops; the others are back in front of exactly what arrived meanwhile |
| Queues.TapIo.Enqueue | src/netlink/tap_io.cc:57-73 | accepted packets are queued, all others given back at once |
| Queues.TapIo.Tx | src/netlink/tap_io.cc:137-177 | exactly the packets before the first write that fails are written; every accepted packet is released once, in order, or still queued; EAGAIN keeps the rest in front of exactly what arrived meanwhile, a failure releases it |
| Queues.TapIo.Release | src/netlink/tap_io.cc:12-16 | every packet of the batch is released once |

## Left out

- L3Run.Run: assumes that the caches show exactly the events delivered so far, that sends to the switch succeed, one route per destination, destinations shorter than a host address (host-length ones go into the host table) and on-link routes without a gateway; all of a route's next hops carry the route's next-hop object id, so they differ in address or interface. It ends before an event that makes the code look at a missed next hop, and after one that does not keep track; from there on only the list, count and message facts of the engine's methods hold.
- L3Engine.NlL3.DelL3UnicastRoute: the flow goes first and the neighbours under an on-link route are disabled after the (empty) next-hop part, which is the same since on-link routes have no gateways; a link-layer address that changed under a watched pair is left out.
- L3Engine.NlL3.UpdateL3UnicastRoute: needs cache and lists in agreement about the old and the new next hops; the neighbours that an on-link route makes routed or takes along are in L3Run.OnLinkRouteChange and L3Run.GatewayRouteOnLink.
- L3Kernel.Step: which neighbours are routed is the code's own bookkeeping, with the answers of the route query in the events; L3Reach compares it with the kernel's routes.
- L3Engine.NlL3.AddL3Neigh: host addresses of routed neighbours are distinct, because the host table has no interface column; neighbour states failed and incomplete, and the local-address test on deletion are not modelled.
- L3Engine.NlL3.AddL3Egress: a failing request to the switch is not modelled; the same holds for DelL3Egress.
- L3Types.Silent: follows libnl's prefix comparison, which looks at the bits both sides have; libnl is not part of this model.
- BridgeRun.Run: ends with the first new multicast group that meets a used index; McGroups.FreshIndexIff says exactly when that happens, McGroups.RunWithEraseCollides gives a run that gets there. What the remaining calls of that update do is not modelled.
- L2Controller.Controller.EgressBridgePortVlanRemove: needs that multicast groups and unicast flows no longer name the interface group; BridgeVlans.NlBridge.RemoveVlan establishes it, in the order of the source.
- L2Controller.Controller.MdbUpdate: the three loops of the source are one loop that makes the same calls in the same order; every new group must find a free index, and UpdateUntilCollision has the updates in which one does not.
- BridgeStp.Run: ports differ modulo 2^16, the width of the inner key of pv_states, and port-state writes succeed.
- Vxlan.Run: calls succeed; error paths (some give a next-hop reference back twice) and the neighbours that create_endpoint adds without counting them are not modelled; every release matches a counted user; a VNI stands for the tunnel id it is mapped to.
- Vxlan.NlVxlan.Release: erases the endpoint before it gives the next-hop reference back, the source the other way round; nothing looks at the endpoint in between.
- PortVlans.NlVlan.DisableVlan: the unicast flows that are removed between ingress and egress entries are not part of this class, nor is the tagging of an entry (untagged for the default VLAN) or the VRF.
- PortVlans.Run: physical ports; only bridged ports leave the bridge, and the bridge query about a link answers as the port's own state does. LAG members are modelled in EnableVlan and DisableVlan.
- Port numbers stand for group ids, which the flow-mod library is taken to compute injectively; LAG ports in bridging and spanning tree are not modelled.
- 32-bit overflow of id counters and reference counts.
- Bridge interfaces as layer-3 interfaces with their forwarding-database lookups, VRFs, the duplicate-route query, changes of a neighbour's link-layer address, update_l3_egress, the VLAN set-up inside add_l3_neigh_egress, and the callbacks of VXLAN in the same lists.
- PVID handling, stacked VLANs, the VXLAN branch and the spanning-tree initialisation of update_vlans; mdb_to_set and the flooding of tunnel and access ports.
- nl_bond, statistics, packet encoding, reconnects, device creation, libnl caches and sockets.
