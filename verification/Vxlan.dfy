/** VXLAN tunnels: endpoints counted per endpoint and per VNI, next hops shared between
    endpoints, and logical ports numbered from one counter. */
module Vxlan {

  const EINVAL := 22
  const ENODATA := 61

  datatype TunnelNh = TunnelNh(srcMac: nat, dstMac: nat, pport: nat, vid: nat)
  datatype NhPort = NhPort(refcnt: nat, id: nat)
  datatype EndpointKey = EndpointKey(local: nat, remote: nat, udpPort: nat)
  datatype Endpoint = Endpoint(refcnt: nat, lport: nat, nh: nat, vnis: map<nat, nat>)
  datatype AccessKey = AccessKey(pport: nat, vid: nat)
  datatype AccessPort = AccessPort(lport: nat, tunnel: nat)
  datatype TunnelPort = TunnelPort(endpoint: EndpointKey, nh: nat)

  type NextHops = map<TunnelNh, NhPort>
  type Endpoints = map<EndpointKey, Endpoint>
  type AccessPorts = map<AccessKey, AccessPort>
  type TunnelPorts = map<nat, TunnelPort>
  type Tenants = set<(nat, nat)>                   // (port, VNI or tunnel)

  // ------------------------------------------------------------------ sums

  ghost function Sum(m: map<nat, nat>): nat {
    if m == map[] then 0
    else
      var k :| k in m;
      m[k] + Sum(m - {k})
  }

  lemma {:induction false} SumRemove(m: map<nat, nat>, k: nat)
    requires k in m
    ensures Sum(m) == m[k] + Sum(m - {k})
    decreases |m|
  {
    var j :| j in m && Sum(m) == m[j] + Sum(m - {j});
    if j != k {
      assert |m - {j}| < |m| && |m - {k}| < |m| by { Smaller(m, j); Smaller(m, k); }
      SumRemove(m - {j}, k);
      SumRemove(m - {k}, j);
      assert m - {j} - {k} == m - {k} - {j};
    }
  }

  lemma Smaller(m: map<nat, nat>, k: nat)
    requires k in m
    ensures |m - {k}| == |m| - 1
  {
  }

  function Get(m: map<nat, nat>, k: nat): nat { if k in m then m[k] else 0 }

  lemma SumSet(m: map<nat, nat>, k: nat, v: nat)
    ensures Sum(m[k := v]) == Sum(m) - Get(m, k) + v
    ensures Get(m, k) <= Sum(m)
  {
    SumRemove(m[k := v], k);
    assert m[k := v] - {k} == m - {k};
    if k in m {
      SumRemove(m, k);
    } else {
      assert m - {k} == m;
    }
  }

  // -------------------------------------------------------------- next hops

  function UsersOf(eps: Endpoints, nh: nat): set<EndpointKey> {
    set e | e in eps && eps[e].nh == nh
  }

  /** The two next-hop maps are inverse to each other. */
  ghost predicate Inverse(nhs: NextHops, byId: map<nat, TunnelNh>) {
    && (forall t :: t in nhs ==> nhs[t].id in byId && byId[nhs[t].id] == t)
    && (forall i :: i in byId ==> byId[i] in nhs && nhs[byId[i]].id == i)
  }

  /** References of a next hop: live endpoints that use it plus the references taken for
      endpoints that already existed, which nothing ever gives back. */
  ghost predicate NhCounted(nhs: NextHops, byId: map<nat, TunnelNh>, eps: Endpoints, kept: map<nat, nat>) {
    && (forall t :: t in nhs ==> nhs[t].refcnt == |UsersOf(eps, nhs[t].id)| + Get(kept, nhs[t].id) && nhs[t].refcnt > 0)
    && (forall e :: e in eps ==> eps[e].nh in byId)
    && (forall i :: i in kept ==> i in byId)
  }

  lemma UsersAdd(eps: Endpoints, e: EndpointKey, ep: Endpoint, nh: nat)
    requires e !in eps
    ensures |UsersOf(eps[e := ep], nh)| == |UsersOf(eps, nh)| + (if ep.nh == nh then 1 else 0)
  {
    if ep.nh == nh {
      assert UsersOf(eps[e := ep], nh) == UsersOf(eps, nh) + {e};
    } else {
      assert UsersOf(eps[e := ep], nh) == UsersOf(eps, nh);
    }
  }

  lemma UsersRemove(eps: Endpoints, e: EndpointKey, nh: nat)
    requires e in eps
    ensures |UsersOf(eps, nh)| == |UsersOf(eps - {e}, nh)| + (if eps[e].nh == nh then 1 else 0)
  {
    UsersAdd(eps - {e}, e, eps[e], nh);
    assert (eps - {e})[e := eps[e]] == eps;
  }

  lemma UsersUpdate(eps: Endpoints, e: EndpointKey, ep: Endpoint, nh: nat)
    requires e in eps && ep.nh == eps[e].nh
    ensures UsersOf(eps[e := ep], nh) == UsersOf(eps, nh)
  {
  }

  // -------------------------------------------------------------- endpoints

  ghost predicate EndpointOk(ep: Endpoint) {
    ep.refcnt == Sum(ep.vnis) && ep.refcnt > 0
  }

  ghost predicate EndpointsOk(eps: Endpoints) {
    forall e :: e in eps ==> EndpointOk(eps[e])
  }

  lemma EndpointsAt(eps: Endpoints, e: EndpointKey)
    requires EndpointsOk(eps) && e in eps
    ensures EndpointOk(eps[e]) && EndpointsOk(eps - {e})
  {
  }

  lemma EndpointsSet(eps: Endpoints, e: EndpointKey, ep: Endpoint)
    requires EndpointsOk(eps) && EndpointOk(ep)
    ensures EndpointsOk(eps[e := ep])
  {
  }

  function Acquired(ep: Endpoint, vni: nat): Endpoint {
    ep.(refcnt := ep.refcnt + 1, vnis := ep.vnis[vni := Get(ep.vnis, vni) + 1])
  }

  function Released(ep: Endpoint, vni: nat): Endpoint
    requires ep.refcnt > 0 && Get(ep.vnis, vni) > 0
  {
    ep.(refcnt := ep.refcnt - 1, vnis := ep.vnis[vni := Get(ep.vnis, vni) - 1])
  }

  /** One user more and one user less cancel out, and the sum over the VNIs stays the total. */
  lemma AcquireRelease(ep: Endpoint, vni: nat)
    requires ep.refcnt == Sum(ep.vnis)
    ensures EndpointOk(Acquired(ep, vni))
    ensures Released(Acquired(ep, vni), vni).refcnt == ep.refcnt
    ensures Get(ep.vnis, vni) > 0 ==> ep.refcnt > 0 && Released(ep, vni).refcnt == Sum(Released(ep, vni).vnis)
  {
    SumSet(ep.vnis, vni, Get(ep.vnis, vni) + 1);
    if Get(ep.vnis, vni) > 0 {
      SumSet(ep.vnis, vni, Get(ep.vnis, vni) - 1);
    }
  }

  // ------------------------------------------------------- next-hop bookkeeping

  ghost predicate NhValid(nhs: NextHops, byId: map<nat, TunnelNh>, eps: Endpoints, kept: map<nat, nat>, cnt: nat,
                          swNhs: map<nat, TunnelNh>) {
    && Inverse(nhs, byId) && NhCounted(nhs, byId, eps, kept)
    && cnt > 0 && (forall i :: i in byId ==> 0 < i < cnt)
    && swNhs == byId
  }

  function Plus(kept: map<nat, nat>, i: nat): map<nat, nat> { kept[i := Get(kept, i) + 1] }

  function Minus(kept: map<nat, nat>, i: nat): map<nat, nat>
    requires Get(kept, i) > 0
  {
    kept[i := kept[i] - 1]
  }

  lemma NhReuse(nhs: NextHops, byId: map<nat, TunnelNh>, eps: Endpoints, kept: map<nat, nat>, cnt: nat,
                swNhs: map<nat, TunnelNh>, t: TunnelNh)
    requires NhValid(nhs, byId, eps, kept, cnt, swNhs) && t in nhs
    ensures NhValid(nhs[t := NhPort(nhs[t].refcnt + 1, nhs[t].id)], byId, eps, Plus(kept, nhs[t].id), cnt, swNhs)
  {
    hide UsersOf;
  }

  lemma NhCreate(nhs: NextHops, byId: map<nat, TunnelNh>, eps: Endpoints, kept: map<nat, nat>, cnt: nat,
                 swNhs: map<nat, TunnelNh>, t: TunnelNh)
    requires NhValid(nhs, byId, eps, kept, cnt, swNhs) && t !in nhs
    ensures NhValid(nhs[t := NhPort(1, cnt)], byId[cnt := t], eps, Plus(kept, cnt), cnt + 1, swNhs[cnt := t])
  {
    assert UsersOf(eps, cnt) == {} && cnt !in kept;
    hide UsersOf;
  }

  /** A reference kept for nobody is given back; the last one deletes the next hop. */
  lemma NhDrop(nhs: NextHops, byId: map<nat, TunnelNh>, eps: Endpoints, kept: map<nat, nat>, cnt: nat,
               swNhs: map<nat, TunnelNh>, id: nat)
    requires NhValid(nhs, byId, eps, kept, cnt, swNhs) && Get(kept, id) > 0
    ensures id in byId && byId[id] in nhs && id in swNhs && nhs[byId[id]].refcnt > 0
    ensures var t := byId[id];
            var n := nhs[t].refcnt;
            if n > 1 then NhValid(nhs[t := NhPort(n - 1, id)], byId, eps, Minus(kept, id), cnt, swNhs)
            else NhValid(nhs - {t}, byId - {id}, eps, kept - {id}, cnt, swNhs - {id}) && UsersOf(eps, id) == {}
  {
    var t := byId[id];
    if nhs[t].refcnt == 1 {
      assert |UsersOf(eps, id)| == 0;
      forall e | e in eps ensures eps[e].nh in byId - {id} { assert eps[e].nh == id ==> e in UsersOf(eps, id); }
    }
    hide UsersOf;
  }

  lemma NhEndpointNew(nhs: NextHops, byId: map<nat, TunnelNh>, eps: Endpoints, kept: map<nat, nat>, cnt: nat,
                      swNhs: map<nat, TunnelNh>, e: EndpointKey, ep: Endpoint)
    requires NhValid(nhs, byId, eps, kept, cnt, swNhs) && e !in eps && Get(kept, ep.nh) > 0
    ensures NhValid(nhs, byId, eps[e := ep], Minus(kept, ep.nh), cnt, swNhs)
  {
    forall t | t in nhs
      ensures nhs[t].refcnt == |UsersOf(eps[e := ep], nhs[t].id)| + Get(Minus(kept, ep.nh), nhs[t].id) {
      UsersAdd(eps, e, ep, nhs[t].id);
    }
  }

  lemma NhEndpointGone(nhs: NextHops, byId: map<nat, TunnelNh>, eps: Endpoints, kept: map<nat, nat>, cnt: nat,
                       swNhs: map<nat, TunnelNh>, e: EndpointKey)
    requires NhValid(nhs, byId, eps, kept, cnt, swNhs) && e in eps
    ensures NhValid(nhs, byId, eps - {e}, Plus(kept, eps[e].nh), cnt, swNhs)
  {
    forall t | t in nhs
      ensures nhs[t].refcnt == |UsersOf(eps - {e}, nhs[t].id)| + Get(Plus(kept, eps[e].nh), nhs[t].id) {
      UsersRemove(eps, e, nhs[t].id);
    }
  }

  lemma NhEndpointChanged(nhs: NextHops, byId: map<nat, TunnelNh>, eps: Endpoints, kept: map<nat, nat>, cnt: nat,
                          swNhs: map<nat, TunnelNh>, e: EndpointKey, ep: Endpoint)
    requires NhValid(nhs, byId, eps, kept, cnt, swNhs) && e in eps && ep.nh == eps[e].nh
    ensures NhValid(nhs, byId, eps[e := ep], kept, cnt, swNhs)
  {
    forall t | t in nhs ensures UsersOf(eps[e := ep], nhs[t].id) == UsersOf(eps, nhs[t].id) {
      UsersUpdate(eps, e, ep, nhs[t].id);
    }
  }

  // ---------------------------------------------------------- logical ports

  /** Logical ports come from one counter and are never shared; the switch has exactly the ports of the
      endpoints, each with the addresses and the next hop of its endpoint. */
  ghost predicate PortsOk(eps: Endpoints, access: AccessPorts, swPorts: TunnelPorts, next: nat) {
    && next > 0
    && (forall e :: e in eps ==> 0 < eps[e].lport < next && eps[e].lport in swPorts
                                 && swPorts[eps[e].lport] == TunnelPort(e, eps[e].nh))
    && (forall p :: p in swPorts ==> swPorts[p].endpoint in eps && eps[swPorts[p].endpoint].lport == p)
    && (forall a :: a in access ==> 0 < access[a].lport < next && access[a].lport !in swPorts)
    && (forall a, b :: a in access && b in access && access[a].lport == access[b].lport ==> a == b)
  }

  /** A port is tenant of a VNI only while the endpoint has users in that VNI. */
  ghost predicate TenantsUsed(eps: Endpoints, swPorts: TunnelPorts, tenants: Tenants) {
    forall t :: t in tenants ==> t.0 in swPorts && swPorts[t.0].endpoint in eps
                                 && Get(eps[swPorts[t.0].endpoint].vnis, t.1) > 0
  }

  ghost predicate Untenanted(tenants: Tenants, port: nat) {
    forall t :: t in tenants ==> t.0 != port
  }

  /** The switch has exactly the recorded access ports, each tenant of its own tunnel alone. */
  ghost predicate AccessOk(access: AccessPorts, swAccess: map<nat, AccessKey>, tenants: Tenants) {
    && (forall a :: a in access ==> access[a].lport in swAccess && swAccess[access[a].lport] == a
                                    && (access[a].lport, access[a].tunnel) in tenants)
    && (forall p :: p in swAccess ==> swAccess[p] in access && access[swAccess[p]].lport == p)
    && (forall t :: t in tenants ==> t.0 in swAccess && access[swAccess[t.0]].tunnel == t.1)
  }

  lemma NoPortOn(eps: Endpoints, access: AccessPorts, swPorts: TunnelPorts, next: nat, nh: nat)
    requires PortsOk(eps, access, swPorts, next) && UsersOf(eps, nh) == {}
    ensures forall p :: p in swPorts ==> swPorts[p].nh != nh
  {
    forall p | p in swPorts ensures swPorts[p].nh != nh {
      assert swPorts[p].endpoint !in UsersOf(eps, nh);
    }
  }

  /** References on next hop t that no live endpoint accounts for. */
  ghost function Leak(nhs: NextHops, kept: map<nat, nat>, t: TunnelNh): nat {
    if t in nhs then Get(kept, nhs[t].id) else 0
  }

  /** The same for every next hop, after one more or one less on id i. */
  lemma LeakPlus(nhs: NextHops, byId: map<nat, TunnelNh>, kept: map<nat, nat>, i: nat)
    requires Inverse(nhs, byId) && i in byId
    ensures forall t :: Leak(nhs, Plus(kept, i), t) == Leak(nhs, kept, t) + (if t == byId[i] then 1 else 0)
    ensures Get(kept, i) > 0 ==>
              forall t :: Leak(nhs, Minus(kept, i), t) == Leak(nhs, kept, t) - (if t == byId[i] then 1 else 0)
  {
  }

  lemma LeakReuse(nhs: NextHops, byId: map<nat, TunnelNh>, kept: map<nat, nat>, t: TunnelNh)
    requires Inverse(nhs, byId) && t in nhs
    ensures forall x :: Leak(nhs[t := NhPort(nhs[t].refcnt + 1, nhs[t].id)], Plus(kept, nhs[t].id), x)
                     == Leak(nhs, kept, x) + (if x == t then 1 else 0)
  {
  }

  lemma LeakCreate(nhs: NextHops, byId: map<nat, TunnelNh>, eps: Endpoints, kept: map<nat, nat>, cnt: nat,
                   swNhs: map<nat, TunnelNh>, t: TunnelNh)
    requires NhValid(nhs, byId, eps, kept, cnt, swNhs) && t !in nhs
    ensures forall x :: Leak(nhs[t := NhPort(1, cnt)], Plus(kept, cnt), x)
                     == Leak(nhs, kept, x) + (if x == t then 1 else 0)
  {
  }

  lemma LeakDrop(nhs: NextHops, byId: map<nat, TunnelNh>, eps: Endpoints, kept: map<nat, nat>, cnt: nat,
                 swNhs: map<nat, TunnelNh>, id: nat)
    requires NhValid(nhs, byId, eps, kept, cnt, swNhs) && Get(kept, id) > 0
    ensures id in byId && byId[id] in nhs
    ensures var t := byId[id];
            var n := nhs[t].refcnt;
            forall x :: (if n > 1 then Leak(nhs[t := NhPort(n - 1, id)], Minus(kept, id), x)
                         else Leak(nhs - {t}, kept - {id}, x)) == Leak(nhs, kept, x) - (if x == t then 1 else 0)
  {
  }

  /** Some endpoint uses next hop t. */
  ghost predicate Used(eps: Endpoints, byId: map<nat, TunnelNh>, t: TunnelNh) {
    exists e :: e in eps && eps[e].nh in byId && byId[eps[e].nh] == t
  }

  /** A next hop is there exactly while an endpoint uses it or a reference was leaked on it. */
  lemma LeakMeans(nhs: NextHops, byId: map<nat, TunnelNh>, eps: Endpoints, kept: map<nat, nat>, cnt: nat,
                  swNhs: map<nat, TunnelNh>, t: TunnelNh)
    requires NhValid(nhs, byId, eps, kept, cnt, swNhs)
    ensures t in nhs ==> nhs[t].refcnt == |UsersOf(eps, nhs[t].id)| + Leak(nhs, kept, t)
    ensures t in nhs <==> Used(eps, byId, t) || Leak(nhs, kept, t) > 0
  {
  }

  lemma NoPortUnknown(nhs: NextHops, byId: map<nat, TunnelNh>, eps: Endpoints, kept: map<nat, nat>, cnt: nat,
                      swNhs: map<nat, TunnelNh>, access: AccessPorts, swPorts: TunnelPorts, next: nat, nh: nat)
    requires NhValid(nhs, byId, eps, kept, cnt, swNhs) && PortsOk(eps, access, swPorts, next) && nh !in byId
    ensures forall p :: p in swPorts ==> swPorts[p].nh != nh
  {
  }

  /** The next hop every endpoint was created with. */
  type Homes = map<EndpointKey, TunnelNh>

  ghost predicate HomesAre(eps: Endpoints, byId: map<nat, TunnelNh>, homes: Homes) {
    eps.Keys == homes.Keys && forall e :: e in eps ==> eps[e].nh in byId && byId[eps[e].nh] == homes[e]
  }

  lemma HomesGrow(eps: Endpoints, byId: map<nat, TunnelNh>, eps': Endpoints, byId': map<nat, TunnelNh>, homes: Homes,
                  e: EndpointKey, t: TunnelNh)
    requires e in eps' && eps' == eps[e := eps'[e]] && (e in eps ==> eps'[e].nh == eps[e].nh)
    requires e !in eps ==> eps'[e].nh in byId' && byId'[eps'[e].nh] == t
    requires forall i :: i in byId ==> i in byId' && byId'[i] == byId[i]
    ensures HomesAre(eps, byId, homes) ==> HomesAre(eps', byId', if e in eps then homes else homes[e := t])
  {
  }

  lemma HomesShrink(eps: Endpoints, byId: map<nat, TunnelNh>, eps': Endpoints, byId': map<nat, TunnelNh>, homes: Homes,
                    e: EndpointKey)
    requires forall d :: d in eps' ==> d in eps && eps'[d].nh == eps[d].nh && eps'[d].nh in byId'
    requires forall d :: d in eps && d != e ==> d in eps'
    requires forall i :: i in byId' ==> i in byId && byId'[i] == byId[i]
    ensures HomesAre(eps, byId, homes) ==> HomesAre(eps', byId', if e in eps' then homes else homes - {e})
  {
  }

  class NlVxlan {
    var nextHops: NextHops                 // tunnel_next_hop_id
    var nextHopById: map<nat, TunnelNh>    // tunnel_next_hop2tnh
    var endpoints: Endpoints               // endpoint_id
    var access: AccessPorts                // access_port_ids
    var nextHopIdCnt: nat
    var portIdCnt: nat

    /** The switch: next hops, endpoint ports and the VNIs they are tenant of, access ports and the tunnels
        they are tenant of. */
    var swNextHops: map<nat, TunnelNh>
    var swPorts: TunnelPorts
    var tenants: Tenants
    var swAccess: map<nat, AccessKey>
    var accessTenants: Tenants

    ghost var kept: map<nat, nat>

    constructor ()
      ensures Valid() && nextHops == map[] && endpoints == map[] && access == map[] && tenants == {}
    {
      nextHops, nextHopById, endpoints, access := map[], map[], map[], map[];
      nextHopIdCnt, portIdCnt := 1, 1;
      swNextHops, swPorts, tenants, swAccess, accessTenants, kept := map[], map[], {}, map[], {}, map[];
    }

    ghost predicate Valid()
      reads this
    {
      && NhValid(nextHops, nextHopById, endpoints, kept, nextHopIdCnt, swNextHops)
      && EndpointsOk(endpoints)
      && PortsOk(endpoints, access, swPorts, portIdCnt)
      && TenantsUsed(endpoints, swPorts, tenants)
      && AccessOk(access, swAccess, accessTenants)
    }

    /** Take a reference on the next hop, creating it if necessary. */
    method CreateNextHop(t: TunnelNh) returns (id: nat)
      requires Valid()
      modifies this`nextHops, this`nextHopById, this`nextHopIdCnt, this`swNextHops, this`kept
      ensures Valid() && kept == Plus(old(kept), id)
      ensures var before := if t in old(nextHops) then old(nextHops)[t].refcnt else 0;
              nextHops == old(nextHops)[t := NhPort(before + 1, id)]
      ensures t in old(nextHops) ==> id == old(nextHops)[t].id
      ensures forall x :: Leak(nextHops, kept, x) == old(Leak(nextHops, kept, x)) + (if x == t then 1 else 0)
      ensures nextHopById == old(nextHopById)[id := t]
      ensures id in old(nextHopById) ==> old(nextHopById)[id] == t
    {
      hide NhValid, EndpointsOk, PortsOk, TenantsUsed, AccessOk;
      if t in nextHops {
        ValidInverse();
        LeakReuse(nextHops, nextHopById, kept, t);
        NhReuse(nextHops, nextHopById, endpoints, kept, nextHopIdCnt, swNextHops, t);
        id := nextHops[t].id;
        assert nextHopById == nextHopById[id := t];
        nextHops := nextHops[t := NhPort(nextHops[t].refcnt + 1, id)];
      } else {
        LeakCreate(nextHops, nextHopById, endpoints, kept, nextHopIdCnt, swNextHops, t);
        NhCreate(nextHops, nextHopById, endpoints, kept, nextHopIdCnt, swNextHops, t);
        FreshId();
        id := nextHopIdCnt;
        swNextHops := swNextHops[id := t];
        nextHops := nextHops[t := NhPort(1, id)];
        nextHopById := nextHopById[id := t];
        nextHopIdCnt := nextHopIdCnt + 1;
      }
      kept := Plus(kept, id);
    }

    lemma KeptKnown(i: nat)
      requires NhValid(nextHops, nextHopById, endpoints, kept, nextHopIdCnt, swNextHops)
      ensures Get(kept, i) > 0 ==> i in nextHopById
      ensures forall e :: e in endpoints ==> endpoints[e].nh in nextHopById
    {
    }

    lemma FreshId()
      requires NhValid(nextHops, nextHopById, endpoints, kept, nextHopIdCnt, swNextHops)
      ensures nextHopIdCnt !in nextHopById
    {
    }

    lemma ValidInverse()
      requires NhValid(nextHops, nextHopById, endpoints, kept, nextHopIdCnt, swNextHops)
      ensures Inverse(nextHops, nextHopById)
    {
    }

    /** Give a reference back; no endpoint port on the switch uses a next hop that goes away. */
    method DeleteNextHop(id: nat) returns (rv: int)
      requires Valid() && (id in nextHopById ==> Get(kept, id) > 0)
      modifies this`nextHops, this`nextHopById, this`swNextHops, this`kept
      ensures Valid() && rv == if id in old(nextHopById) then 0 else -ENODATA
      ensures rv < 0 ==> nextHops == old(nextHops)
      ensures rv == 0 ==>
                var t := old(nextHopById)[id];
                t in old(nextHops) && old(nextHops)[t].refcnt > 0
                && nextHops == if old(nextHops)[t].refcnt == 1 then old(nextHops) - {t}
                               else old(nextHops)[t := NhPort(old(nextHops)[t].refcnt - 1, id)]
      ensures rv == 0 ==> forall x :: Leak(nextHops, kept, x)
                                   == old(Leak(nextHops, kept, x)) - (if x == old(nextHopById)[id] then 1 else 0)
      ensures nextHopById == if rv == 0 && old(nextHops)[old(nextHopById)[id]].refcnt == 1 then old(nextHopById) - {id}
                             else old(nextHopById)
      ensures id !in swNextHops ==> forall p :: p in swPorts ==> swPorts[p].nh != id
    {
      hide NhValid, EndpointsOk, PortsOk, TenantsUsed, AccessOk;
      if id !in nextHopById {
        NoPortUnknown(nextHops, nextHopById, endpoints, kept, nextHopIdCnt, swNextHops, access, swPorts,
                      portIdCnt, id);
        return -ENODATA;
      }
      LeakDrop(nextHops, nextHopById, endpoints, kept, nextHopIdCnt, swNextHops, id);
      NhDrop(nextHops, nextHopById, endpoints, kept, nextHopIdCnt, swNextHops, id);
      var t := nextHopById[id];
      var n := nextHops[t].refcnt - 1;
      if n == 0 {
        NoPortOn(endpoints, access, swPorts, portIdCnt, id);
        swNextHops := swNextHops - {id};
        nextHopById := nextHopById - {id};
        nextHops := nextHops - {t};
        kept := kept - {id};
      } else {
        nextHops := nextHops[t := NhPort(n, id)];
        kept := Minus(kept, id);
      }
      rv := 0;
    }

    /** A user of the endpoint in a VNI more; `tenant` whether its port is added to the VNI. */
    method Acquire(e: EndpointKey, vni: nat, tenant: bool)
      requires Valid() && e in endpoints
      modifies this`endpoints, this`tenants
      ensures Valid() && endpoints == old(endpoints)[e := Acquired(old(endpoints)[e], vni)]
      ensures tenants == old(tenants) + (if tenant then {(endpoints[e].lport, vni)} else {})
    {
      hide NhValid, EndpointsOk, PortsOk, TenantsUsed, AccessOk;
      var ep := Acquired(endpoints[e], vni);
      EndpointsAt(endpoints, e);
      AcquireRelease(endpoints[e], vni);
      EndpointsSet(endpoints, e, ep);
      NhEndpointChanged(nextHops, nextHopById, endpoints, kept, nextHopIdCnt, swNextHops, e, ep);
      PortsAcquire(endpoints, access, portIdCnt, swPorts, tenants, e, vni);
      if tenant {
        tenants := tenants + {(ep.lport, vni)};
      }
      endpoints := endpoints[e := ep];
    }

    /** create_endpoint: next hop, endpoint, tenant. */
    method CreateEndpoint(e: EndpointKey, vni: nat, t: TunnelNh, ghost homes: Homes)
      requires Valid()
      modifies this
      ensures Valid() && e in endpoints
      ensures endpoints == old(endpoints)[e := endpoints[e]] && access == old(access)
      ensures e in old(endpoints) ==> endpoints[e] == Acquired(old(endpoints)[e], vni)
      ensures e !in old(endpoints) ==> endpoints[e].refcnt == 1 && endpoints[e].vnis == map[vni := 1]
      ensures e !in old(endpoints) ==> Untenanted(old(tenants), endpoints[e].lport)
      // the port belongs to the VNI, and leads to the next hop the endpoint was created with
      ensures tenants == old(tenants) + {(endpoints[e].lport, vni)}
      ensures forall d :: d in old(endpoints) ==> endpoints[d].lport == old(endpoints)[d].lport
      ensures HomesAre(old(endpoints), old(nextHopById), homes) ==>
                HomesAre(endpoints, nextHopById, if e in old(endpoints) then homes else homes[e := t])
      // the reference taken for an endpoint that is known already has no owner
      ensures forall x :: Leak(nextHops, kept, x)
                       == old(Leak(nextHops, kept, x)) + (if e in old(endpoints) && x == t then 1 else 0)
    {
      hide NhValid, EndpointsOk, PortsOk, TenantsUsed, AccessOk;
      var nh := CreateNextHop(t);
      if e in endpoints {
        Acquire(e, vni, true);
      } else {
        NewEndpoint(e, vni, nh);
      }
      HomesGrow(old(endpoints), old(nextHopById), endpoints, nextHopById, homes, e, t);
    }

    /** A port for an endpoint that is not known yet; it becomes the user the reference on nh was taken for. */
    method NewEndpoint(e: EndpointKey, vni: nat, nh: nat)
      requires Valid() && e !in endpoints && Get(kept, nh) > 0
      modifies this`endpoints, this`swPorts, this`kept, this`tenants, this`portIdCnt
      ensures Valid() && endpoints == old(endpoints)[e := Endpoint(1, old(portIdCnt), nh, map[vni := 1])]
      ensures kept == Minus(old(kept), nh) && tenants == old(tenants) + {(old(portIdCnt), vni)}
      ensures Untenanted(old(tenants), old(portIdCnt))
      ensures nh in nextHopById && forall x :: Leak(nextHops, kept, x)
                                           == old(Leak(nextHops, kept, x)) - (if x == nextHopById[nh] then 1 else 0)
    {
      hide NhValid, EndpointsOk, PortsOk, TenantsUsed, AccessOk, Leak, Inverse;
      var ep := Endpoint(1, portIdCnt, nh, map[vni := 1]);
      ValidInverse();
      KeptKnown(nh);
      LeakPlus(nextHops, nextHopById, kept, nh);
      NewEndpointOk(ep, vni);
      EndpointsSet(endpoints, e, ep);
      NhEndpointNew(nextHops, nextHopById, endpoints, kept, nextHopIdCnt, swNextHops, e, ep);
      PortsNew(endpoints, access, portIdCnt, swPorts, tenants, e, ep, vni);
      swPorts := swPorts[portIdCnt := TunnelPort(e, nh)];
      kept := Minus(kept, nh);
      endpoints := endpoints[e := ep];
      tenants := tenants + {(portIdCnt, vni)};
      portIdCnt := portIdCnt + 1;
    }

    /** add_l2_neigh for an all-zero MAC: a remote of the tunnel. */
    method AddRemote(e: EndpointKey, vni: nat, t: TunnelNh, ghost homes: Homes)
      requires Valid()
      modifies this
      ensures Valid() && e in endpoints && access == old(access)
      ensures endpoints == old(endpoints)[e := endpoints[e]]
      ensures e in old(endpoints) ==> endpoints[e] == Acquired(old(endpoints)[e], vni)
      ensures e !in old(endpoints) ==> endpoints[e].refcnt == 1 && endpoints[e].vnis == map[vni := 1]
      ensures e !in old(endpoints) ==> Untenanted(old(tenants), endpoints[e].lport)
      ensures tenants == old(tenants) + {(endpoints[e].lport, vni)}
      ensures forall d :: d in old(endpoints) ==> endpoints[d].lport == old(endpoints)[d].lport
      ensures HomesAre(old(endpoints), old(nextHopById), homes) ==>
                HomesAre(endpoints, nextHopById, if e in old(endpoints) then homes else homes[e := t])
      ensures forall x :: Leak(nextHops, kept, x) == old(Leak(nextHops, kept, x))
    {
      hide NhValid, EndpointsOk, PortsOk, TenantsUsed, AccessOk;
      if e !in endpoints {
        CreateEndpoint(e, vni, t, homes);
      } else {
        Acquire(e, vni, true);
      }
    }

    /** add_l2_neigh for a MAC address behind an endpoint. */
    method AddMac(e: EndpointKey, vni: nat) returns (rv: int)
      requires Valid()
      modifies this`endpoints, this`tenants
      ensures Valid() && rv == if e in old(endpoints) then 0 else -EINVAL
      ensures endpoints == if rv == 0 then old(endpoints)[e := Acquired(old(endpoints)[e], vni)] else old(endpoints)
      ensures tenants == old(tenants)
    {
      hide NhValid, EndpointsOk, PortsOk, TenantsUsed, AccessOk;
      if e !in endpoints {
        return -EINVAL;
      }
      Acquire(e, vni, false);
      rv := 0;
    }

    /** delete_endpoint and delete_l2_neigh_endpoint: a counted user goes away. The last one in the VNI
        takes the tenant along, the last one at all the port and the reference on the next hop. */
    method Release(e: EndpointKey, vni: nat, ghost homes: Homes)
      requires Valid()
      requires e in endpoints ==> Get(endpoints[e].vnis, vni) > 0
      modifies this
      ensures Valid() && access == old(access)
      ensures e !in old(endpoints) ==> endpoints == old(endpoints)
      ensures e in old(endpoints) ==>
                endpoints == if old(endpoints)[e].refcnt == 1 then old(endpoints) - {e}
                             else old(endpoints)[e := Released(old(endpoints)[e], vni)]
      ensures tenants == old(tenants) - (if e in old(endpoints) && old(endpoints)[e].vnis[vni] == 1
                                         then {(old(endpoints)[e].lport, vni)} else {})
      ensures HomesAre(old(endpoints), old(nextHopById), homes) ==>
                HomesAre(endpoints, nextHopById, if e in old(endpoints) && e !in endpoints then homes - {e} else homes)
      ensures forall x :: Leak(nextHops, kept, x) == old(Leak(nextHops, kept, x))
    {
      hide NhValid, EndpointsOk, PortsOk, TenantsUsed, AccessOk;
      if e !in endpoints {
        return;
      }
      EndpointsAt(endpoints, e);
      AcquireRelease(endpoints[e], vni);
      var ep := Released(endpoints[e], vni);
      PortsRelease(endpoints, access, portIdCnt, swPorts, tenants, e, vni);
      if Get(ep.vnis, vni) == 0 {
        tenants := tenants - {(ep.lport, vni)};
      }
      if ep.refcnt > 0 {
        NhEndpointChanged(nextHops, nextHopById, endpoints, kept, nextHopIdCnt, swNextHops, e, ep);
        EndpointsSet(endpoints, e, ep);
        endpoints := endpoints[e := ep];
      } else {
        RemovePort(e, ep);
      }
      KeptKnown(0);
      HomesShrink(old(endpoints), old(nextHopById), endpoints, nextHopById, homes, e);
    }

    /** The port goes first, then the reference on the next hop. */
    method RemovePort(e: EndpointKey, ep: Endpoint)
      requires e in endpoints && ep.lport == endpoints[e].lport && ep.nh == endpoints[e].nh
      requires ep.refcnt == 0 && ep.refcnt == Sum(ep.vnis)
      requires NhValid(nextHops, nextHopById, endpoints, kept, nextHopIdCnt, swNextHops) && EndpointsOk(endpoints)
      requires PortsOk(endpoints[e := ep], access, swPorts, portIdCnt)
      requires TenantsUsed(endpoints[e := ep], swPorts, tenants) && AccessOk(access, swAccess, accessTenants)
      modifies this
      ensures Valid() && access == old(access) && endpoints == old(endpoints) - {e} && tenants == old(tenants)
      ensures forall i :: i in nextHopById ==> i in old(nextHopById) && nextHopById[i] == old(nextHopById)[i]
      ensures forall x :: Leak(nextHops, kept, x) == old(Leak(nextHops, kept, x))
    {
      hide NhValid, EndpointsOk, PortsOk, TenantsUsed, AccessOk;
      NoUsersLeft(ep);
      EndpointsAt(endpoints, e);
      PortsGone(endpoints[e := ep], access, portIdCnt, swPorts, tenants, e);
      assert endpoints[e := ep] - {e} == endpoints - {e};
      NhEndpointGone(nextHops, nextHopById, endpoints, kept, nextHopIdCnt, swNextHops, e);
      KeptKnown(ep.nh);
      ValidInverse();
      LeakPlus(nextHops, nextHopById, kept, ep.nh);
      swPorts := swPorts - {ep.lport};
      kept := Plus(kept, ep.nh);
      endpoints := endpoints - {e};
      var rv := DeleteNextHop(ep.nh);
    }

    /** attempts(i) is the switch's answer to the i-th of at most 50 tries. */
    method CreateAccessPort(a: AccessKey, tunnel: nat, attempts: nat -> int) returns (rv: int)
      requires Valid()
      modifies this`access, this`portIdCnt, this`swAccess, this`accessTenants
      ensures Valid()
      ensures a in old(access) ==> rv == -EINVAL
      ensures a !in old(access) && rv >= 0 ==>
                a in access && access[a].tunnel == tunnel && access == old(access)[a := access[a]]
      ensures rv < 0 ==> access == old(access)
      ensures a !in old(access) ==> (rv >= 0 <==> exists i :: 0 <= i < 50 && attempts(i) >= 0)
    {
      hide NhValid, TenantsUsed, EndpointsOk, PortsOk, AccessOk;
      if a in access {
        return -EINVAL;
      }
      var cnt := 0;
      rv := -1;
      while rv < 0 && cnt < 50
        invariant 0 <= cnt <= 50
        invariant rv < 0 ==> forall i :: 0 <= i < cnt ==> attempts(i) < 0
        invariant rv >= 0 ==> 0 < cnt && attempts(cnt - 1) >= 0
        decreases 50 - cnt, if rv < 0 then 1 else 0
      {
        rv := attempts(cnt);
        cnt := cnt + 1;
      }
      if rv < 0 {
        return;
      }
      AccessNewOk(endpoints, access, swPorts, portIdCnt, swAccess, accessTenants, a, tunnel);
      swAccess := swAccess[portIdCnt := a];
      accessTenants := accessTenants + {(portIdCnt, tunnel)};
      access := access[a := AccessPort(portIdCnt, tunnel)];
      portIdCnt := portIdCnt + 1;
    }

    method DeleteAccessPort(a: AccessKey)
      requires Valid()
      modifies this`access, this`swAccess, this`accessTenants
      ensures Valid() && access == old(access) - {a}
    {
      hide NhValid, TenantsUsed, EndpointsOk, PortsOk, AccessOk;
      if a !in access {
        assert access - {a} == access;
        return;
      }
      AccessGoneOk(endpoints, access, swPorts, portIdCnt, swAccess, accessTenants, a);
      var lport := access[a].lport;
      accessTenants := accessTenants - {(lport, access[a].tunnel)};
      swAccess := swAccess - {lport};
      access := access - {a};
    }
  }

  lemma AccessNewOk(eps: Endpoints, access: AccessPorts, swPorts: TunnelPorts, next: nat, swAccess: map<nat, AccessKey>,
                    tenants: Tenants, a: AccessKey, tunnel: nat)
    requires PortsOk(eps, access, swPorts, next) && AccessOk(access, swAccess, tenants) && a !in access
    ensures PortsOk(eps, access[a := AccessPort(next, tunnel)], swPorts, next + 1)
    ensures AccessOk(access[a := AccessPort(next, tunnel)], swAccess[next := a], tenants + {(next, tunnel)})
  {
  }

  lemma AccessGoneOk(eps: Endpoints, access: AccessPorts, swPorts: TunnelPorts, next: nat,
                     swAccess: map<nat, AccessKey>, tenants: Tenants, a: AccessKey)
    requires PortsOk(eps, access, swPorts, next) && AccessOk(access, swAccess, tenants) && a in access
    ensures PortsOk(eps, access - {a}, swPorts, next)
    ensures AccessOk(access - {a}, swAccess - {access[a].lport}, tenants - {(access[a].lport, access[a].tunnel)})
  {
  }

  lemma NewEndpointOk(ep: Endpoint, vni: nat)
    requires ep.refcnt == 1 && ep.vnis == map[vni := 1]
    ensures EndpointOk(ep)
  {
    SumSet(map[], vni, 1);
    assert map[][vni := 1] == map[vni := 1];
  }

  lemma PortsAcquire(eps: Endpoints, access: AccessPorts, next: nat, swPorts: TunnelPorts, tenants: Tenants,
                     e: EndpointKey, vni: nat)
    requires PortsOk(eps, access, swPorts, next) && TenantsUsed(eps, swPorts, tenants) && e in eps
    ensures var eps' := eps[e := Acquired(eps[e], vni)];
            && PortsOk(eps', access, swPorts, next)
            && TenantsUsed(eps', swPorts, tenants)
            && TenantsUsed(eps', swPorts, tenants + {(eps[e].lport, vni)})
  {
  }

  lemma PortsNew(eps: Endpoints, access: AccessPorts, next: nat, swPorts: TunnelPorts, tenants: Tenants, e: EndpointKey,
                 ep: Endpoint, vni: nat)
    requires PortsOk(eps, access, swPorts, next) && TenantsUsed(eps, swPorts, tenants)
    requires e !in eps && ep.lport == next && Get(ep.vnis, vni) > 0
    ensures PortsOk(eps[e := ep], access, swPorts[next := TunnelPort(e, ep.nh)], next + 1) && Untenanted(tenants, next)
    ensures TenantsUsed(eps[e := ep], swPorts[next := TunnelPort(e, ep.nh)], tenants + {(next, vni)})
  {
  }

  lemma PortsRelease(eps: Endpoints, access: AccessPorts, next: nat, swPorts: TunnelPorts, tenants: Tenants,
                     e: EndpointKey, vni: nat)
    requires PortsOk(eps, access, swPorts, next) && TenantsUsed(eps, swPorts, tenants)
    requires e in eps && eps[e].refcnt > 0 && Get(eps[e].vnis, vni) > 0
    ensures var ep := Released(eps[e], vni);
            var tenants' := if Get(ep.vnis, vni) == 0 then tenants - {(ep.lport, vni)} else tenants;
            PortsOk(eps[e := ep], access, swPorts, next) && TenantsUsed(eps[e := ep], swPorts, tenants')
  {
  }

  /** With no user in any VNI the port is tenant nowhere. */
  lemma PortsGone(eps: Endpoints, access: AccessPorts, next: nat, swPorts: TunnelPorts, tenants: Tenants,
                  e: EndpointKey)
    requires PortsOk(eps, access, swPorts, next) && TenantsUsed(eps, swPorts, tenants)
    requires e in eps && forall vni :: Get(eps[e].vnis, vni) == 0
    ensures PortsOk(eps - {e}, access, swPorts - {eps[e].lport}, next)
    ensures TenantsUsed(eps - {e}, swPorts - {eps[e].lport}, tenants)
  {
  }

  lemma NoUsersLeft(ep: Endpoint)
    requires ep.refcnt == 0 && ep.refcnt == Sum(ep.vnis)
    ensures forall vni :: Get(ep.vnis, vni) == 0
  {
    forall vni ensures Get(ep.vnis, vni) == 0 {
      SumSet(ep.vnis, vni, 0);
    }
  }

  // -------------------------------------------------------------- whole runs

  datatype Event =
    | Create(e: EndpointKey, vni: nat, t: TunnelNh)
    | Remote(e: EndpointKey, vni: nat, t: TunnelNh)
    | Mac(e: EndpointKey, vni: nat)
    | Gone(e: EndpointKey, vni: nat)
    | AccessNew(a: AccessKey, tunnel: nat, answers: seq<int>)
    | AccessGone(a: AccessKey)

  /** Users per endpoint and VNI, as the events say. */
  type Counts = map<EndpointKey, map<nat, nat>>

  /** References leaked per next hop, as the events say: each time create_endpoint meets a known endpoint. */
  type Leaks = map<TunnelNh, nat>

  /** What the events leave: users, the next hop of each endpoint, the (endpoint, VNI) pairs that are tenants,
      leaked references and the tunnel of each access port. */
  datatype View = View(counts: Counts, homes: Homes, tenants: set<(EndpointKey, nat)>, leaks: Leaks,
                       access: map<AccessKey, nat>)

  const NOTHING := View(map[], map[], {}, map[], map[])

  function One(c: Counts, e: EndpointKey, vni: nat): Counts {
    var m := if e in c then c[e] else map[];
    c[e := m[vni := Get(m, vni) + 1]]
  }

  function OneLess(m: map<nat, nat>, vni: nat): map<nat, nat>
    requires Get(m, vni) > 0
  {
    m[vni := m[vni] - 1]
  }

  function LeakAt(l: Leaks, t: TunnelNh): nat { if t in l then l[t] else 0 }

  /** The switch grants one of the first fifty requests. */
  predicate Granted(answers: seq<int>) {
    exists i :: 0 <= i < |answers| && i < 50 && answers[i] >= 0
  }

  lemma GrantedMeans(answers: seq<int>, attempts: nat -> int)
    requires forall i: nat :: attempts(i) == if i < |answers| then answers[i] else -1
    ensures Granted(answers) <==> exists i: nat :: 0 <= i < 50 && attempts(i) >= 0
  {
    if Granted(answers) {
      var i :| 0 <= i < |answers| && i < 50 && answers[i] >= 0;
      assert attempts(i) >= 0;
    }
  }

  /** An address more on endpoint e; its port belongs to the VNI from now on. */
  function Joined(v: View, e: EndpointKey, vni: nat, t: TunnelNh): View {
    v.(counts := One(v.counts, e, vni), tenants := v.tenants + {(e, vni)},
       homes := if e in v.counts then v.homes else v.homes[e := t])
  }

  ghost function Step(v: View, ev: Event): View {
    match ev
    case Create(e, vni, t) =>
      Joined(v, e, vni, t).(leaks := if e in v.counts then v.leaks[t := LeakAt(v.leaks, t) + 1] else v.leaks)
    case Remote(e, vni, t) => Joined(v, e, vni, t)
    case Mac(e, vni) => if e in v.counts then v.(counts := One(v.counts, e, vni)) else v
    case Gone(e, vni) =>
      if e !in v.counts || Get(v.counts[e], vni) == 0 then v
      else
        var last := Sum(v.counts[e]) == 1;
        v.(counts := if last then v.counts - {e} else v.counts[e := OneLess(v.counts[e], vni)],
           homes := if last then v.homes - {e} else v.homes,
           tenants := if v.counts[e][vni] == 1 then v.tenants - {(e, vni)} else v.tenants)
    case AccessNew(a, tunnel, answers) =>
      if a in v.access || !Granted(answers) then v else v.(access := v.access[a := tunnel])
    case AccessGone(a) => v.(access := v.access - {a})
  }

  ghost function Final(v: View, events: seq<Event>): View
    decreases |events|
  {
    if events == [] then v else Final(Step(v, events[0]), events[1..])
  }

  /** The event releases only what is counted. */
  ghost predicate EventOk(c: Counts, ev: Event) {
    ev.Gone? && ev.e in c ==> Get(c[ev.e], ev.vni) > 0
  }

  /** Every release matches a counted acquire. */
  ghost predicate Matched(v: View, events: seq<Event>)
    decreases |events|
  {
    events == [] || (EventOk(v.counts, events[0]) && Matched(Step(v, events[0]), events[1..]))
  }

  ghost predicate LeaksAre(nhs: NextHops, kept: map<nat, nat>, l: Leaks) {
    forall t :: Leak(nhs, kept, t) == LeakAt(l, t)
  }

  /** The count of a next hop is its endpoints plus the leaked references, and it is there exactly while that
      is positive: it outlives its last endpoint exactly when a reference on it was leaked. */
  ghost predicate NextHopExact(nhs: NextHops, byId: map<nat, TunnelNh>, eps: Endpoints, l: Leaks, t: TunnelNh) {
    && (t in nhs ==> nhs[t].refcnt == |UsersOf(eps, nhs[t].id)| + LeakAt(l, t))
    && (t in nhs <==> Used(eps, byId, t) || LeakAt(l, t) > 0)
  }

  lemma LeaksSame(nhs: NextHops, kept: map<nat, nat>, nhs': NextHops, kept': map<nat, nat>, l: Leaks)
    requires LeaksAre(nhs, kept, l) && forall t :: Leak(nhs', kept', t) == Leak(nhs, kept, t)
    ensures LeaksAre(nhs', kept', l)
  {
  }

  lemma LeaksMore(nhs: NextHops, kept: map<nat, nat>, nhs': NextHops, kept': map<nat, nat>, l: Leaks, t: TunnelNh)
    requires LeaksAre(nhs, kept, l)
             && forall x :: Leak(nhs', kept', x) == Leak(nhs, kept, x) + (if x == t then 1 else 0)
    ensures LeaksAre(nhs', kept', l[t := LeakAt(l, t) + 1])
  {
  }

  // tenants

  ghost predicate TenantsAre(eps: Endpoints, tenants: Tenants, ts: set<(EndpointKey, nat)>) {
    && (forall e, vni: nat :: e in eps ==> ((eps[e].lport, vni) in tenants <==> (e, vni) in ts))
    && (forall q :: q in ts ==> q.0 in eps)
  }

  ghost predicate OwnPorts(eps: Endpoints) {
    forall d, e :: d in eps && e in eps && eps[d].lport == eps[e].lport ==> d == e
  }

  lemma TenantsMore(eps: Endpoints, eps': Endpoints, tenants: Tenants, ts: set<(EndpointKey, nat)>, e: EndpointKey,
                    vni: nat)
    requires TenantsAre(eps, tenants, ts) && OwnPorts(eps') && e in eps' && eps' == eps[e := eps'[e]]
    requires if e in eps then eps'[e].lport == eps[e].lport else Untenanted(tenants, eps'[e].lport)
    ensures TenantsAre(eps', tenants + {(eps'[e].lport, vni)}, ts + {(e, vni)})
  {
  }

  lemma TenantsSame(eps: Endpoints, tenants: Tenants, ts: set<(EndpointKey, nat)>, e: EndpointKey, ep: Endpoint)
    requires TenantsAre(eps, tenants, ts) && e in eps && ep.lport == eps[e].lport
    ensures TenantsAre(eps[e := ep], tenants, ts)
  {
  }

  lemma TenantsLess(eps: Endpoints, eps': Endpoints, tenants: Tenants, tenants': Tenants, ts: set<(EndpointKey, nat)>,
                    e: EndpointKey, vni: nat, last: bool)
    requires TenantsAre(eps, tenants, ts) && OwnPorts(eps) && e in eps
    requires tenants' == tenants - (if last then {(eps[e].lport, vni)} else {})
    requires if e in eps' then eps' == eps[e := eps'[e]] && eps'[e].lport == eps[e].lport
             else eps' == eps - {e} && Untenanted(tenants', eps[e].lport)
    ensures TenantsAre(eps', tenants', if last then ts - {(e, vni)} else ts)
  {
    if e !in eps' {
      forall q | q in ts && (!last || q != (e, vni)) ensures q.0 != e {
        assert (eps[q.0].lport, q.1) in tenants;
      }
    }
  }

  lemma OwnPortsOk(x: NlVxlan)
    requires x.Valid()
    ensures OwnPorts(x.endpoints)
  {
  }

  /** A port that belonged to an endpoint now gone is tenant nowhere. */
  lemma GoneUntenanted(eps: Endpoints, x: NlVxlan, e: EndpointKey)
    requires x.Valid() && OwnPorts(eps) && e in eps && x.endpoints == eps - {e}
    ensures Untenanted(x.tenants, eps[e].lport)
  {
    hide NhValid, EndpointsOk, AccessOk;
  }

  ghost function Project(eps: Endpoints): Counts {
    map e | e in eps :: eps[e].vnis
  }

  ghost predicate AccessIs(access: AccessPorts, m: map<AccessKey, nat>) {
    access.Keys == m.Keys && forall a :: a in access ==> access[a].tunnel == m[a]
  }

  /** The tables are what the events left. */
  ghost predicate Shows(x: NlVxlan, v: View)
    reads x
  {
    && Project(x.endpoints) == v.counts && HomesAre(x.endpoints, x.nextHopById, v.homes)
    && TenantsAre(x.endpoints, x.tenants, v.tenants) && LeaksAre(x.nextHops, x.kept, v.leaks)
    && AccessIs(x.access, v.access)
  }

  lemma ProjectSet(eps: Endpoints, e: EndpointKey)
    ensures e in Project(eps) <==> e in eps
    ensures e in eps ==> Project(eps)[e] == eps[e].vnis
  {
  }

  /** A user more changes the projection as the event says. */
  lemma AcquireCounts(eps: Endpoints, e: EndpointKey, vni: nat, ep: Endpoint)
    requires ep.vnis == if e in eps then Acquired(eps[e], vni).vnis else map[vni := 1]
    ensures Project(eps[e := ep]) == One(Project(eps), e, vni)
  {
  }

  lemma ReleaseCounts(eps: Endpoints, e: EndpointKey, vni: nat)
    requires e in eps && EndpointOk(eps[e]) && Get(eps[e].vnis, vni) > 0
    ensures Project(if eps[e].refcnt == 1 then eps - {e} else eps[e := Released(eps[e], vni)])
         == if Sum(eps[e].vnis) == 1 then Project(eps) - {e}
            else Project(eps)[e := OneLess(eps[e].vnis, vni)]
  {
  }

  method OnAddress(x: NlVxlan, ev: Event, ghost v: View)
    requires x.Valid() && Shows(x, v) && (ev.Create? || ev.Remote?)
    modifies x
    ensures x.Valid() && Shows(x, Step(v, ev))
  {
    hide NlVxlan.Valid, Project, Sum, One, Acquired, Leak, LeaksAre, LeakAt, HomesAre, TenantsAre, AccessIs, OwnPorts,
         Untenanted;
    ghost var eps, nhs, kept, tenants := x.endpoints, x.nextHops, x.kept, x.tenants;
    var e, vni, t := ev.e, ev.vni, ev.t;
    ProjectSet(eps, e);
    if ev.Create? {
      x.CreateEndpoint(e, vni, t, v.homes);
    } else {
      x.AddRemote(e, vni, t, v.homes);
    }
    AcquireCounts(eps, e, vni, x.endpoints[e]);
    OwnPortsOk(x);
    TenantsMore(eps, x.endpoints, tenants, v.tenants, e, vni);
    if ev.Create? && e in eps {
      LeaksMore(nhs, kept, x.nextHops, x.kept, v.leaks, t);
    } else {
      LeaksSame(nhs, kept, x.nextHops, x.kept, v.leaks);
    }
  }

  method OnMac(x: NlVxlan, e: EndpointKey, vni: nat, ghost v: View)
    requires x.Valid() && Shows(x, v)
    modifies x
    ensures x.Valid() && Shows(x, Step(v, Mac(e, vni)))
  {
    hide NlVxlan.Valid, Project, Sum, One, LeaksAre, TenantsAre, AccessIs;
    ghost var eps := x.endpoints;
    ProjectSet(eps, e);
    var rv := x.AddMac(e, vni);
    if e in eps {
      AcquireCounts(eps, e, vni, x.endpoints[e]);
      TenantsSame(eps, x.tenants, v.tenants, e, x.endpoints[e]);
    }
  }

  method OnGone(x: NlVxlan, e: EndpointKey, vni: nat, ghost v: View)
    requires x.Valid() && Shows(x, v) && EventOk(v.counts, Gone(e, vni))
    modifies x
    ensures x.Valid() && Shows(x, Step(v, Gone(e, vni)))
  {
    hide Project, Sum, NhValid, PortsOk, TenantsUsed, AccessOk, Leak, LeaksAre, HomesAre, TenantsAre, AccessIs,
         OwnPorts, Untenanted;
    ghost var eps, nhs, kept, tenants := x.endpoints, x.nextHops, x.kept, x.tenants;
    ProjectSet(eps, e);
    OwnPortsOk(x);
    x.Release(e, vni, v.homes);
    LeaksSame(nhs, kept, x.nextHops, x.kept, v.leaks);
    if e in eps {
      EndpointsAt(eps, e);
      ReleaseCounts(eps, e, vni);
      if e !in x.endpoints {
        GoneUntenanted(eps, x, e);
      }
      TenantsLess(eps, x.endpoints, tenants, x.tenants, v.tenants, e, vni, eps[e].vnis[vni] == 1);
    } else {
      assert x.tenants == tenants;
    }
  }

  method Handle(x: NlVxlan, ev: Event, ghost v: View)
    requires x.Valid() && Shows(x, v) && EventOk(v.counts, ev)
    modifies x
    ensures x.Valid() && Shows(x, Step(v, ev))
  {
    hide NlVxlan.Valid, Project, Sum, One, LeaksAre, HomesAre, TenantsAre;
    match ev {
      case Create(_, _, _) => OnAddress(x, ev, v);
      case Remote(_, _, _) => OnAddress(x, ev, v);
      case Mac(e, vni) => OnMac(x, e, vni, v);
      case Gone(e, vni) => OnGone(x, e, vni, v);
      case AccessNew(a, tunnel, answers) =>
        var attempts := (i: nat) => if i < |answers| then answers[i] else -1;
        GrantedMeans(answers, attempts);
        var rv := x.CreateAccessPort(a, tunnel, attempts);
      case AccessGone(a) => x.DeleteAccessPort(a);
    }
  }

  /** What a caller reads off the tables and the switch when the events left v. */
  ghost predicate Exact(x: NlVxlan, v: View)
    reads x
  {
    // the counts are the users the events left, in total and per VNI
    && x.endpoints.Keys == v.counts.Keys == v.homes.Keys
    && (forall e :: e in x.endpoints ==>
          x.endpoints[e].vnis == v.counts[e] && x.endpoints[e].refcnt == Sum(v.counts[e]))
    // the switch has the ports of the endpoints and no other, on the next hops the endpoints were created with
    && (forall e :: e in x.endpoints ==> PortLeads(x.swPorts, x.swNextHops, x.endpoints[e].lport, e, v.homes[e]))
    && (forall p :: p in x.swPorts ==> x.swPorts[p].endpoint in x.endpoints
                                       && x.endpoints[x.swPorts[p].endpoint].lport == p)
    // the tenants are those the events left
    && TenantsAre(x.endpoints, x.tenants, v.tenants)
    && (forall t :: t in x.tenants ==> t.0 in x.swPorts && (x.swPorts[t.0].endpoint, t.1) in v.tenants)
    // a next hop lives as long as an endpoint uses it or a reference on it was leaked
    && (forall t :: NextHopExact(x.nextHops, x.nextHopById, x.endpoints, v.leaks, t))
    && Inverse(x.nextHops, x.nextHopById) && x.swNextHops == x.nextHopById
    // access ports are those the events left, each with a port of its own on the switch
    && AccessIs(x.access, v.access) && AccessOk(x.access, x.swAccess, x.accessTenants)
    && (forall a :: a in x.access ==> x.access[a].lport !in x.swPorts)
  }

  /** On the switch the port carries the addresses of endpoint e and leads to next hop t. */
  ghost predicate PortLeads(swPorts: TunnelPorts, swNhs: map<nat, TunnelNh>, port: nat, e: EndpointKey, t: TunnelNh) {
    port in swPorts && swPorts[port].endpoint == e && swPorts[port].nh in swNhs && swNhs[swPorts[port].nh] == t
  }

  lemma ShowsMeans(x: NlVxlan, v: View)
    requires x.Valid() && Shows(x, v)
    ensures Exact(x, v)
  {
    hide NhValid, EndpointsOk, LeaksAre, NextHopExact, Inverse, AccessOk, AccessIs, Sum, Leak, UsersOf, Used;
    forall t ensures NextHopExact(x.nextHops, x.nextHopById, x.endpoints, v.leaks, t) {
      NextHopMeans(x, v.leaks, t);
    }
    NhMeans(x.nextHops, x.nextHopById, x.endpoints, x.kept, x.nextHopIdCnt, x.swNextHops);
    forall e | e in x.endpoints ensures EndpointOk(x.endpoints[e]) { EndpointsAt(x.endpoints, e); }
  }

  lemma NextHopMeans(x: NlVxlan, leaks: Leaks, t: TunnelNh)
    requires x.Valid() && LeaksAre(x.nextHops, x.kept, leaks)
    ensures NextHopExact(x.nextHops, x.nextHopById, x.endpoints, leaks, t)
  {
    hide NhValid, EndpointsOk, PortsOk, TenantsUsed, AccessOk, Leak, UsersOf, Used;
    LeakMeans(x.nextHops, x.nextHopById, x.endpoints, x.kept, x.nextHopIdCnt, x.swNextHops, t);
  }

  lemma NhMeans(nhs: NextHops, byId: map<nat, TunnelNh>, eps: Endpoints, kept: map<nat, nat>, cnt: nat,
                swNhs: map<nat, TunnelNh>)
    requires NhValid(nhs, byId, eps, kept, cnt, swNhs)
    ensures Inverse(nhs, byId) && swNhs == byId
  {
  }

  /** Every run in which each release matches a counted acquire leaves tables and switch as the events say. */
  method Run(events: seq<Event>) returns (x: NlVxlan)
    requires Matched(NOTHING, events)
    ensures fresh(x) && x.Valid()
    ensures Exact(x, Final(NOTHING, events))
  {
    hide *;
    x := Start();
    var rest := events;
    ghost var v := NOTHING;
    while rest != []
      invariant fresh(x) && x.Valid() && Shows(x, v)
      invariant Matched(v, rest) && Final(v, rest) == Final(NOTHING, events)
      decreases |rest|
    {
      MatchedFirst(v, rest);
      Handle(x, rest[0], v);
      v := Step(v, rest[0]);
      rest := rest[1..];
    }
    FinalLast(v);
    ShowsMeans(x, v);
  }

  method Start() returns (x: NlVxlan)
    ensures fresh(x) && x.Valid() && Shows(x, NOTHING)
  {
    x := new NlVxlan();
    assert Project(x.endpoints) == map[];
  }

  lemma MatchedFirst(v: View, events: seq<Event>)
    requires Matched(v, events) && events != []
    ensures EventOk(v.counts, events[0]) && Matched(Step(v, events[0]), events[1..])
    ensures Final(v, events) == Final(Step(v, events[0]), events[1..])
  {
  }

  lemma FinalLast(v: View)
    ensures Final(v, []) == v
  {
  }
}
