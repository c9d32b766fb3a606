/** Addresses, neighbours, next hops and routes as the layer-3 code sees them. */
module L3Types {
  import opened MacAddress

  /** An address or prefix: family plus the bits that count (all of them for a host). */
  datatype Addr = Addr(v6: bool, bits: seq<bool>)

  /** fe80::/10 */
  const LINK_LOCAL: seq<bool> := [true, true, true, true, true, true, true, false, true, false]

  /** ff00::/8 */
  const MULTICAST: seq<bool> := [true, true, true, true, true, true, true, true]

  predicate IsHost(a: Addr) { |a.bits| == if a.v6 then 128 else 32 }

  predicate IsPrefix(a: Addr) { |a.bits| <= if a.v6 then 128 else 32 }

  predicate Covers(prefix: Addr, addr: Addr) {
    prefix.v6 == addr.v6 && prefix.bits <= addr.bits
  }

  predicate IsLinkLocal(a: Addr) {
    Covers(Addr(true, LINK_LOCAL), a)
  }

  /** nl_addr_cmp_prefix finds no difference: it compares the bits both sides have. */
  predicate Alike(a: Addr, b: Addr) {
    Covers(a, b) || Covers(b, a)
  }

  /** Destinations whose unresolved next hops are not waited for. Meant are link-local and multicast
      destinations, but ::/0 and the other prefixes around them compare alike as well. */
  predicate Silent(dst: Addr) {
    Alike(dst, Addr(true, LINK_LOCAL)) || Alike(dst, Addr(true, MULTICAST))
  }

  /** On bit positions: fe80::/10 is 1111111010, ff00::/8 eight ones. Link-local are the addresses and prefixes that
      have all ten bits; silent are the IPv6 prefixes that do not depart from one of the two as far as they go. */
  lemma SilentIff(a: Addr)
    ensures IsLinkLocal(a) <==> a.v6 && |a.bits| >= 10 && forall i :: 0 <= i < 10 ==> a.bits[i] == (i != 7 && i != 9)
    ensures Silent(a) <==> a.v6 && (|| (forall i :: 0 <= i < |a.bits| && i < 10 ==> a.bits[i] == (i != 7 && i != 9))
                                    || (forall i :: 0 <= i < |a.bits| && i < 8 ==> a.bits[i]))
  {
    var l, m := LINK_LOCAL, MULTICAST;
    assert |l| == 10 && forall i :: 0 <= i < 10 ==> l[i] == (i != 7 && i != 9);
    assert |m| == 8 && forall i :: 0 <= i < 8 ==> m[i];
  }

  datatype NeighId = NeighId(ifindex: int, addr: Addr)

  datatype NhStub = NhStub(addr: Addr, ifindex: int, nhid: nat) {
    function Id(): NeighId { NeighId(ifindex, addr) }
  }

  /** A callback entry: the route destination and the next hop it waits for or watches. */
  datatype Pair = Pair(dst: Addr, nh: NhStub)

  datatype Link = Link(port: nat, vid: nat, mac: Mac)

  datatype EgressKey = EgressKey(port: nat, vid: nat, srcMac: Mac, dstMac: Mac)

  /** The group sends out on the link's port and VLAN, from the link's address to `mac`. */
  predicate Carries(key: EgressKey, l: Link, mac: Mac) {
    key.port == l.port && key.vid == l.vid && key.srcMac == l.mac && key.dstMac == mac
  }

  /** Value type of both reference-counted tables: switch id and reference count. */
  datatype L3Interface = L3Interface(id: nat, refcnt: nat)

  datatype Route = Route(dst: Addr, nhs: set<NhStub>, onLink: bool)

  /** What the libnl caches answer: resolved neighbours and installed routes. */
  datatype Cache = Cache(neighs: map<NeighId, Mac>, routes: map<Addr, Route>)

  type Links = map<int, Link>
  type Keys = map<NeighId, EgressKey>
  type Routes = map<Addr, set<NhStub>>

  function KeyOf(links: Links, n: NeighId, mac: Mac): EgressKey
    requires n.ifindex in links
  {
    var l := links[n.ifindex];
    EgressKey(l.port, l.vid, l.mac, mac)
  }
}
