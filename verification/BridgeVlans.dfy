/** VLAN changes of a bridge port: from two bitmaps to the recorded VLANs and the switch. */
module BridgeVlans {
  import opened MacAddress
  import opened L2Switch
  import opened L2Controller
  import opened McGroups
  import opened VlanBitmaps

  type VlanTags = map<nat, map<nat, bool>>       // port -> vid -> tagged

  function At(bv: VlanTags, port: nat, vid: nat): Membership {
    if port in bv && vid in bv[port] then In(bv[port][vid]) else Out
  }

  function SetAt(bv: VlanTags, port: nat, vid: nat, tagged: bool): VlanTags {
    bv[port := (if port in bv then bv[port] else map[])[vid := tagged]]
  }

  function DropAt(bv: VlanTags, port: nat, vid: nat): VlanTags {
    if port !in bv then bv
    else if bv[port] - {vid} == map[] then bv - {port}
    else bv[port := bv[port] - {vid}]
  }

  ghost predicate NoEmpty(bv: VlanTags) {
    forall p :: p in bv ==> bv[p] != map[]
  }

  lemma SetAtOk(bv: VlanTags, port: nat, vid: nat, tagged: bool)
    requires NoEmpty(bv)
    ensures NoEmpty(SetAt(bv, port, vid, tagged))
    ensures forall p, v ::
              At(SetAt(bv, port, vid, tagged), p, v) == if p == port && v == vid then In(tagged) else At(bv, p, v)
  {
    assert vid in SetAt(bv, port, vid, tagged)[port];
  }

  lemma DropAtOk(bv: VlanTags, port: nat, vid: nat)
    requires NoEmpty(bv)
    ensures NoEmpty(DropAt(bv, port, vid))
    ensures forall p, v :: At(DropAt(bv, port, vid), p, v) == if p == port && v == vid then Out else At(bv, p, v)
  {
    if port in bv && bv[port] - {vid} == map[] {
      assert forall v :: v in bv[port] && v != vid ==> v in bv[port] - {vid};
    }
  }

  /** Interface group, tagging, ingress entry and flood membership of one (port, VLAN). */
  ghost predicate LinkedAt(m: Membership, f: Iface, dom: map<nat, set<nat>>, ifaces: map<Iface, bool>,
                           ingress: set<Iface>) {
    match m
    case Out => f !in ifaces && f !in ingress && !(f.vid in dom && f.port in dom[f.vid])
    case In(tagged) => f in ifaces && ifaces[f] == !tagged && f in ingress && f.vid in dom && f.port in dom[f.vid]
  }

  /** The switch has exactly the recorded VLANs of every port. */
  ghost predicate Linked(bv: VlanTags, dom: map<nat, set<nat>>, ifaces: map<Iface, bool>, ingress: set<Iface>) {
    forall f: Iface :: LinkedAt(At(bv, f.port, f.vid), f, dom, ifaces, ingress)
  }

  lemma LinkedIn(bv: VlanTags, dom: map<nat, set<nat>>, ifaces: map<Iface, bool>, ingress: set<Iface>, port: nat,
                 vid: nat, tagged: bool)
    requires NoEmpty(bv) && Linked(bv, dom, ifaces, ingress)
    ensures Linked(SetAt(bv, port, vid, tagged), dom[vid := PortsOf(dom, vid) + {port}],
                   ifaces[Iface(port, vid) := !tagged], ingress + {Iface(port, vid)})
  {
    SetAtOk(bv, port, vid, tagged);
    hide SetAt, At, NoEmpty;
    var bv' := SetAt(bv, port, vid, tagged);
    forall f: Iface ensures LinkedAt(At(bv', f.port, f.vid), f, dom[vid := PortsOf(dom, vid) + {port}],
                                     ifaces[Iface(port, vid) := !tagged], ingress + {Iface(port, vid)}) {
      assert LinkedAt(At(bv, f.port, f.vid), f, dom, ifaces, ingress);
    }
  }

  lemma LinkedOut(bv: VlanTags, dom: map<nat, set<nat>>, ifaces: map<Iface, bool>, ingress: set<Iface>, port: nat,
                  vid: nat)
    requires NoEmpty(bv) && Linked(bv, dom, ifaces, ingress) && vid in dom
    ensures Linked(DropAt(bv, port, vid), dom[vid := dom[vid] - {port}], ifaces - {Iface(port, vid)},
                   ingress - {Iface(port, vid)})
  {
    DropAtOk(bv, port, vid);
    hide DropAt, At, NoEmpty;
    var bv' := DropAt(bv, port, vid);
    forall f: Iface ensures LinkedAt(At(bv', f.port, f.vid), f, dom[vid := dom[vid] - {port}],
                                     ifaces - {Iface(port, vid)}, ingress - {Iface(port, vid)}) {
      assert LinkedAt(At(bv, f.port, f.vid), f, dom, ifaces, ingress);
    }
  }

  lemma SetAtSame(bv: VlanTags, port: nat, vid: nat, tagged: bool)
    ensures At(bv, port, vid) == In(tagged) ==> SetAt(bv, port, vid, tagged) == bv
  {
    if At(bv, port, vid) == In(tagged) { assert bv[port][vid := tagged] == bv[port]; }
  }

  lemma DropAtOut(bv: VlanTags, port: nat, vid: nat)
    requires NoEmpty(bv) && At(bv, port, vid) == Out
    ensures DropAt(bv, port, vid) == bv
  {
    if port in bv { assert bv[port] - {vid} == bv[port]; }
  }

  /** In a linked state the tagging of the interface group is the recorded one. */
  lemma TagAgrees(bv: VlanTags, dom: map<nat, set<nat>>, ifaces: map<Iface, bool>, ingress: set<Iface>, port: nat,
                  vid: nat)
    ensures Linked(bv, dom, ifaces, ingress) && At(bv, port, vid).In? ==>
              Iface(port, vid) in ifaces && ifaces[Iface(port, vid)] == !At(bv, port, vid).tagged
  {
  }

  lemma OutUnlinked(bv: VlanTags, dom: map<nat, set<nat>>, ifaces: map<Iface, bool>, ingress: set<Iface>, port: nat,
                    vid: nat)
    requires Linked(bv, dom, ifaces, ingress) && At(bv, port, vid) == Out
    ensures Iface(port, vid) !in ifaces && port !in PortsOf(dom, vid)
  {
  }

  lemma LinkedNowhere(bv: VlanTags, dom: map<nat, set<nat>>, ifaces: map<Iface, bool>, ingress: set<Iface>, port: nat,
                      vid: nat)
    requires NoEmpty(bv) && Linked(bv, dom, ifaces, ingress) && vid !in dom
    ensures DropAt(bv, port, vid) == bv && ingress - {Iface(port, vid)} == ingress
  {
    assert LinkedAt(At(bv, port, vid), Iface(port, vid), dom, ifaces, ingress);
    DropAtOut(bv, port, vid);
  }

  /** Multicast groups and unicast flows. */
  datatype Shown = Shown(groups: seq<Entry>, uni: map<(Mac, nat), nat>)

  /** In these VLANs the members on the port are enabled where its bit is set, its unicast flows gone where it
      is not; nothing else changes, and nobody is registered or forgotten. */
  ghost predicate Settled(s: Shown, s': Shown, port: nat, b: Bitmap, vids: set<nat>) {
    && RegOf(s'.groups) == RegOf(s.groups)
    && (forall m :: Active(s'.groups, m) <==> if m.port == port && m.vid in vids
                                              then Bit(b, m.vid) && Registered(s.groups, m) else Active(s.groups, m))
    && Forgotten(s.uni, s'.uni, port, Cleared(b, vids))
  }

  ghost function Cleared(b: Bitmap, vids: set<nat>): set<nat> {
    set v | v in vids && !Bit(b, v)
  }

  /** The port left the VLAN. */
  ghost predicate Removed(s: Shown, s': Shown, port: nat, vid: nat) {
    && RegOf(s'.groups) == RegOf(s.groups)
    && (forall m :: Active(s'.groups, m) <==> Active(s.groups, m) && !Places(m, port, vid))
    && Forgotten(s.uni, s'.uni, port, {vid})
  }

  lemma SettledNone(s: Shown, port: nat, b: Bitmap)
    ensures Settled(s, s, port, b, {})
  {
  }

  lemma SettledIn(s: Shown, s': Shown, port: nat, b: Bitmap, i: nat, k: nat)
    requires i < WORDS && k < WORD_BITS && b[i][k] && RegOf(s'.groups) == RegOf(s.groups) && s'.uni == s.uni
    requires forall m :: Active(s'.groups, m)
                    <==> Active(s.groups, m) || (Places(m, port, Vid(i, k)) && Registered(s.groups, m))
    ensures Settled(s, s', port, b, {Vid(i, k)})
  {
    BitAt(b, i, k);
    forall m | Active(s.groups, m) ensures Registered(s.groups, m) { ActiveRegistered(s.groups, m); }
    hide RegOf, Active, Registered;
  }

  lemma SettledOut(s: Shown, s': Shown, port: nat, b: Bitmap, i: nat, k: nat)
    requires i < WORDS && k < WORD_BITS && !b[i][k] && Removed(s, s', port, Vid(i, k))
    ensures Settled(s, s', port, b, {Vid(i, k)})
  {
    BitAt(b, i, k);
    assert Cleared(b, {Vid(i, k)}) == {Vid(i, k)};
    hide RegOf, Active, Registered, Forgotten;
  }

  lemma BitAt(b: Bitmap, i: nat, k: nat)
    requires i < WORDS && k < WORD_BITS
    ensures Bit(b, Vid(i, k)) <==> b[i][k]
  {
    assert Vid(i, k) / WORD_BITS == i && Vid(i, k) % WORD_BITS == k;
  }

  lemma SettledTwice(s: Shown, s1: Shown, s2: Shown, port: nat, b: Bitmap, vids: set<nat>, more: set<nat>)
    requires Settled(s, s1, port, b, vids) && Settled(s1, s2, port, b, more)
    ensures Settled(s, s2, port, b, vids + more)
  {
    SameMembers(s.groups, s1.groups);
    hide RegOf, Active, Registered, Bit;
  }

  /** VLANs that appear on or disappear from the port: in word i, and below word n. */
  ghost function FlipsIn(a: BrVlan, b: BrVlan, i: nat): set<nat>
    requires i < WORDS
  {
    set k | 0 <= k < WORD_BITS && a.vlan[i][k] != b.vlan[i][k] :: Vid(i, k)
  }

  ghost function Flips(a: BrVlan, b: BrVlan, n: nat): set<nat> {
    set v | 0 <= v < n * WORD_BITS && Bit(a.vlan, v) != Bit(b.vlan, v)
  }

  lemma FlipsNone(a: BrVlan, b: BrVlan)
    ensures Flips(a, b, 0) == {}
  {
  }

  lemma FlipsNext(a: BrVlan, b: BrVlan, i: nat)
    requires i < WORDS
    ensures Flips(a, b, i + 1) == Flips(a, b, i) + FlipsIn(a, b, i)
  {
    forall v | v in Flips(a, b, i + 1) ensures v in Flips(a, b, i) + FlipsIn(a, b, i) {
      if v >= i * WORD_BITS {
        var k := v - i * WORD_BITS;
        BitAt(a.vlan, i, k);
        BitAt(b.vlan, i, k);
        assert v == Vid(i, k);
      }
    }
    forall v | v in FlipsIn(a, b, i) ensures v in Flips(a, b, i + 1) {
      var k :| 0 <= k < WORD_BITS && a.vlan[i][k] != b.vlan[i][k] && v == Vid(i, k);
      BitAt(a.vlan, i, k);
      BitAt(b.vlan, i, k);
    }
  }

  ghost function Elements(h: seq<nat>): set<nat> { set v | v in h }

  lemma ElementsNext(h: seq<nat>, v: nat)
    ensures Elements(h + [v]) == Elements(h) + {v}
  {
  }

  lemma ElementsFlip(h: seq<nat>, a: BrVlan, b: BrVlan, i: nat)
    requires i < WORDS && Bits(h, i, Xor(a.vlan[i], b.vlan[i]), WORD_BITS)
    ensures Elements(h) == FlipsIn(a, b, i)
  {
    forall v | v in h ensures v in FlipsIn(a, b, i) {
      assert IsBit(v, i, Xor(a.vlan[i], b.vlan[i]), WORD_BITS);
    }
  }

  class NlBridge {
    var bridgeVlan: VlanTags
    const ctl: Controller

    constructor (ctl: Controller)
      requires ctl.Valid() && ctl.l2Domain == map[] && ctl.sw.ifaces == map[] && ctl.sw.ingress == {}
      ensures this.ctl == ctl && bridgeVlan == map[] && Valid()
    {
      this.ctl := ctl;
      bridgeVlan := map[];
    }

    ghost predicate Valid()
      reads this, ctl
    {
      ctl.Valid() && NoEmpty(bridgeVlan) && Linked(bridgeVlan, ctl.l2Domain, ctl.sw.ifaces, ctl.sw.ingress)
    }

    ghost function Now(): Shown
      reads ctl
    {
      Shown(ctl.mcGroups, ctl.sw.uni)
    }

    /** A VLAN on the port. One that is there already keeps its recorded tagging although the
        switch is told the new one, so record and switch agree exactly when the tagging is the same. */
    method AddBridgeVlan(port: nat, vid: nat, tagged: bool) returns (rv: int)
      requires Valid()
      modifies this, ctl
      ensures ctl.Valid() && old(ctl.log) <= ctl.log && Now() == old(Now())
      ensures At(old(bridgeVlan), port, vid) == Out ==> Tidy(old(ctl.log), ctl.log)
      ensures rv == 0 ==> Iface(port, vid) in ctl.sw.ifaces
      ensures rv == if 1 <= vid <= 0xfff then 0 else -EINVAL
      ensures bridgeVlan == if rv == 0 && At(old(bridgeVlan), port, vid) == Out
                            then SetAt(old(bridgeVlan), port, vid, tagged) else old(bridgeVlan)
      ensures Valid() <==> rv < 0 || At(old(bridgeVlan), port, vid) != In(!tagged)
    {
      hide Controller.Valid, Proper, Grounded, NoEmpty, SetAt, Linked;
      if !(1 <= vid <= 0xfff) {
        return -EINVAL;
      }
      LinkedIn(bridgeVlan, ctl.l2Domain, ctl.sw.ifaces, ctl.sw.ingress, port, vid, tagged);
      SetAtOk(bridgeVlan, port, vid, tagged);
      SetAtSame(bridgeVlan, port, vid, tagged);
      if At(bridgeVlan, port, vid) == Out {
        OutUnlinked(bridgeVlan, ctl.l2Domain, ctl.sw.ifaces, ctl.sw.ingress, port, vid);
      }
      if port !in bridgeVlan || vid !in bridgeVlan[port] {
        bridgeVlan := SetAt(bridgeVlan, port, vid, tagged);
      }
      ctl.EgressBridgePortVlanAdd(port, vid, !tagged);
      ctl.IngressPortVlanAdd(port, vid);
      TagAgrees(bridgeVlan, ctl.l2Domain, ctl.sw.ifaces, ctl.sw.ingress, port, vid);
      rv := 0;
    }

    method RemoveBridgeVlan(port: nat, vid: nat)
      requires Valid()
      requires forall g :: g in ctl.sw.mc ==> Iface(port, vid) !in ctl.sw.mc[g]
      requires forall k :: k in ctl.sw.uni ==> !(k.1 == vid && ctl.sw.uni[k] == port)
      modifies this, ctl
      ensures Valid() && Tidy(old(ctl.log), ctl.log) && Now() == old(Now())
      ensures bridgeVlan == if 1 <= vid <= 0xfff then DropAt(old(bridgeVlan), port, vid) else old(bridgeVlan)
    {
      hide Controller.Valid, Proper, Grounded, NoEmpty, DropAt, Linked;
      if !(1 <= vid <= 0xfff) {
        return;
      }
      DropAtOk(bridgeVlan, port, vid);
      if vid in ctl.l2Domain {
        LinkedOut(bridgeVlan, ctl.l2Domain, ctl.sw.ifaces, ctl.sw.ingress, port, vid);
      } else {
        LinkedNowhere(bridgeVlan, ctl.l2Domain, ctl.sw.ifaces, ctl.sw.ingress, port, vid);
      }
      bridgeVlan := DropAt(bridgeVlan, port, vid);
      ctl.EgressBridgePortVlanRemove(port, vid);
      ctl.IngressPortVlanRemove(port, vid);
    }

    /** A VLAN leaves the port; whatever names its interface group goes first. */
    method RemoveVlan(port: nat, vid: nat)
      requires Valid()
      modifies this, ctl
      ensures Valid() && Tidy(old(ctl.log), ctl.log) && Removed(old(Now()), Now(), port, vid)
      ensures bridgeVlan == if 1 <= vid <= 0xfff then DropAt(old(bridgeVlan), port, vid) else old(bridgeVlan)
    {
      hide Controller.Valid, Proper, Grounded, NoEmpty, DropAt, Linked, RegOf, Active;
      ctl.L2AddrRemoveAllInVlan(port, vid);
      ctl.L2MulticastGroupLeaveAllInVlan(port, vid);
      RemoveBridgeVlan(port, vid);
    }

    method UpdateEgressBridgeVlan(port: nat, vid: nat, untagged: bool) returns (rv: int)
      requires Valid()
      modifies this, ctl
      ensures Valid() && Tidy(old(ctl.log), ctl.log) && Now() == old(Now())
      ensures rv == if !(1 <= vid <= 0xfff) || At(old(bridgeVlan), port, vid) == Out then -EINVAL else 0
      ensures bridgeVlan == if rv < 0 then old(bridgeVlan) else SetAt(old(bridgeVlan), port, vid, !untagged)
    {
      hide Controller.Valid, Proper, Grounded, NoEmpty, SetAt;
      SetAtOk(bridgeVlan, port, vid, !untagged);
      if !(1 <= vid <= 0xfff) {
        return -EINVAL;
      }
      if port !in bridgeVlan || vid !in bridgeVlan[port] {
        return -EINVAL;
      }
      assert LinkedAt(At(bridgeVlan, port, vid), Iface(port, vid), ctl.l2Domain, ctl.sw.ifaces, ctl.sw.ingress);
      bridgeVlan := SetAt(bridgeVlan, port, vid, !untagged);
      ctl.EgressPortVlanUpdate(port, vid, untagged);
      rv := 0;
    }

    /** One VLAN appears on or disappears from the port. */
    method ChangeMember(port: nat, i: nat, k: nat, a: BrVlan, b: BrVlan)
      requires Valid() && i < WORDS && k < WORD_BITS && NoVidZero(a) && NoVidZero(b)
      requires a.vlan[i][k] != b.vlan[i][k] && At(bridgeVlan, port, Vid(i, k)) == Of(a, i, k)
      modifies this, ctl
      ensures Valid() && Tidy(old(ctl.log), ctl.log)
      ensures Settled(old(Now()), Now(), port, b.vlan, {Vid(i, k)})
      ensures At(bridgeVlan, port, Vid(i, k)) == Of(b, i, k) && OnlyAt(old(bridgeVlan), bridgeVlan, port, Vid(i, k))
    {
      hide Controller.Valid, Proper, Grounded, NoEmpty, SetAt, DropAt, Linked, At, Settled, Removed, RegOf, Bit;
      var vid := Vid(i, k);
      var egressUntagged := b.untagged[i][k];
      SetAtOk(bridgeVlan, port, vid, !egressUntagged);
      DropAtOk(bridgeVlan, port, vid);
      VidValid(i, k, a, b);
      if b.vlan[i][k] {
        var rv := AddBridgeVlan(port, vid, !egressUntagged);
        ctl.L2MulticastGroupRejoinAllInVlan(port, vid);
        SettledIn(old(Now()), Now(), port, b.vlan, i, k);
      } else {
        RemoveVlan(port, vid);
        SettledOut(old(Now()), Now(), port, b.vlan, i, k);
      }
    }

    /** The vlan_diff loop over word i: VLANs that appear or disappear. */
    method ChangeMembers(port: nat, i: nat, a: BrVlan, b: BrVlan) returns (handled: seq<nat>)
      requires Valid() && i < WORDS && NoVidZero(a) && NoVidZero(b)
      requires Partly(bridgeVlan, port, i, a, b, Xor(a.vlan[i], b.vlan[i]), 0)
      modifies this, ctl
      ensures Valid() && Tidy(old(ctl.log), ctl.log)
      ensures Settled(old(Now()), Now(), port, b.vlan, Elements(handled))
      ensures Partly(bridgeVlan, port, i, a, b, Xor(a.vlan[i], b.vlan[i]), WORD_BITS)
      ensures Elsewhere(old(bridgeVlan), bridgeVlan, port, i)
      ensures Bits(handled, i, Xor(a.vlan[i], b.vlan[i]), WORD_BITS)
    {
      hide Valid, Proper, Grounded, Bits, Partly, Elsewhere, OnlyAt, FindNextBit, NoVidZero, Settled, Elements;
      var diff := Xor(a.vlan[i], b.vlan[i]);
      handled := [];
      BitsNone(i, diff, bridgeVlan, port);
      SettledNone(Now(), port, b.vlan);
      var j := FindNextBit(-1, diff);
      FindNextBitSpec(-1, diff);
      SkipClear(handled, i, diff, a, b, bridgeVlan, port, 0, Upto(j));
      while j > 0
        invariant j <= WORD_BITS && (j > 0 ==> diff[j - 1])
        invariant Valid() && Tidy(old(ctl.log), ctl.log)
        invariant Settled(old(Now()), Now(), port, b.vlan, Elements(handled))
        invariant Bits(handled, i, diff, Upto(j))
        invariant Partly(bridgeVlan, port, i, a, b, diff, Upto(j))
        invariant Elsewhere(old(bridgeVlan), bridgeVlan, port, i)
        decreases WORD_BITS - Upto(j)
      {
        ghost var bv, h, done, now := bridgeVlan, handled, j, Now();
        PartlyAt(bridgeVlan, port, i, a, b, diff, j - 1);
        ChangeMember(port, i, j - 1, a, b);
        handled := handled + [Vid(i, j - 1)];
        SettledTwice(old(Now()), now, Now(), port, b.vlan, Elements(h), {Vid(i, j - 1)});
        ElementsNext(h, Vid(i, j - 1));
        BitsNext(h, i, diff, j - 1);
        PartlyNext(bv, bridgeVlan, port, i, a, b, diff, j - 1);
        ElsewhereNext(old(bridgeVlan), bv, bridgeVlan, port, i, j - 1);
        j := FindNextBit(j, diff);
        FindNextBitSpec(done, diff);
        SkipClear(handled, i, diff, a, b, bridgeVlan, port, done, Upto(j));
      }
    }

    /** One VLAN keeps its membership but changes its tagging. */
    method ChangeTag(port: nat, i: nat, k: nat, a: BrVlan, b: BrVlan)
      requires Valid() && i < WORDS && k < WORD_BITS && NoVidZero(a) && NoVidZero(b)
      requires a.vlan[i][k] == b.vlan[i][k] && Changed(a, b, i, k) && At(bridgeVlan, port, Vid(i, k)) == Of(a, i, k)
      modifies this, ctl
      ensures Valid() && Tidy(old(ctl.log), ctl.log) && Now() == old(Now())
      ensures At(bridgeVlan, port, Vid(i, k)) == Of(b, i, k) && OnlyAt(old(bridgeVlan), bridgeVlan, port, Vid(i, k))
    {
      hide Valid, Proper, Grounded, SetAt, At;
      var vid := Vid(i, k);
      var egressUntagged := b.untagged[i][k];
      assert NoEmpty(bridgeVlan) by { ValidNoEmpty(); }
      SetAtOk(bridgeVlan, port, vid, !egressUntagged);
      VidValid(i, k, a, b);
      var rv := UpdateEgressBridgeVlan(port, vid, egressUntagged);
    }

    lemma ValidNoEmpty()
      requires Valid()
      ensures NoEmpty(bridgeVlan)
    {
    }

    /** The untagged_diff loop over word i. */
    method ChangeTags(port: nat, i: nat, a: BrVlan, b: BrVlan, diff: Word) returns (handled: seq<nat>)
      requires Valid() && i < WORDS && NoVidZero(a) && NoVidZero(b)
      requires forall k :: 0 <= k < WORD_BITS && diff[k] ==> a.vlan[i][k] == b.vlan[i][k] && Changed(a, b, i, k)
      requires Partly(bridgeVlan, port, i, a, b, diff, 0)
      modifies this, ctl
      ensures Valid() && Tidy(old(ctl.log), ctl.log) && Now() == old(Now())
      ensures Partly(bridgeVlan, port, i, a, b, diff, WORD_BITS)
      ensures Elsewhere(old(bridgeVlan), bridgeVlan, port, i)
      ensures Bits(handled, i, diff, WORD_BITS)
    {
      hide Valid, Proper, Grounded, Bits, Partly, Elsewhere, OnlyAt, FindNextBit, NoVidZero;
      handled := [];
      BitsNone(i, diff, bridgeVlan, port);
      var j := FindNextBit(-1, diff);
      FindNextBitSpec(-1, diff);
      SkipClear(handled, i, diff, a, b, bridgeVlan, port, 0, Upto(j));
      while j > 0
        invariant j <= WORD_BITS && (j > 0 ==> diff[j - 1])
        invariant Valid() && Tidy(old(ctl.log), ctl.log) && Now() == old(Now())
        invariant Bits(handled, i, diff, Upto(j))
        invariant Partly(bridgeVlan, port, i, a, b, diff, Upto(j))
        invariant Elsewhere(old(bridgeVlan), bridgeVlan, port, i)
        decreases WORD_BITS - Upto(j)
      {
        ghost var bv, h, done := bridgeVlan, handled, j;
        PartlyAt(bridgeVlan, port, i, a, b, diff, j - 1);
        ChangeTag(port, i, j - 1, a, b);
        handled := handled + [Vid(i, j - 1)];
        BitsNext(h, i, diff, j - 1);
        PartlyNext(bv, bridgeVlan, port, i, a, b, diff, j - 1);
        ElsewhereNext(old(bridgeVlan), bv, bridgeVlan, port, i, j - 1);
        j := FindNextBit(j, diff);
        FindNextBitSpec(done, diff);
        SkipClear(handled, i, diff, a, b, bridgeVlan, port, done, Upto(j));
      }
    }

    /** Everything about word i. */
    method UpdateWord(port: nat, i: nat, a: BrVlan, b: BrVlan) returns (handled: seq<nat>)
      requires Valid() && i < WORDS && NoVidZero(a) && NoVidZero(b)
      requires WordIs(bridgeVlan, port, i, a)
      modifies this, ctl
      ensures Valid() && Tidy(old(ctl.log), ctl.log) && Settled(old(Now()), Now(), port, b.vlan, FlipsIn(a, b, i))
      ensures WordIs(bridgeVlan, port, i, b) && Elsewhere(old(bridgeVlan), bridgeVlan, port, i)
      ensures WordHandled(handled, a, b, i)
    {
      hide Valid, Proper, Grounded, Bits, Elsewhere, WordHandled, Settled, Elements, FlipsIn;
      var vlanDiff := Xor(a.vlan[i], b.vlan[i]);
      var untaggedDiff := AndNot(Xor(a.untagged[i], b.untagged[i]), vlanDiff);
      var h1 := ChangeMembers(port, i, a, b);
      ElementsFlip(h1, a, b, i);
      ghost var bv := bridgeVlan;
      var c := Between(a, b, i);
      BetweenPartly(bridgeVlan, port, i, a, b);
      var h2 := ChangeTags(port, i, c, b, untaggedDiff);
      ElsewhereTwice(old(bridgeVlan), bv, bridgeVlan, port, i);
      BetweenDone(bridgeVlan, port, i, a, b);
      handled := h1 + h2;
      HandledWord(h1, h2, a, b, i);
    }

    /** The kernel reports new VLAN bitmaps for a port that is not a VXLAN port. */
    method UpdateVlans(port: nat, a: BrVlan, b: BrVlan) returns (handled: seq<nat>)
      requires Valid() && NoVidZero(a) && NoVidZero(b)
      requires forall i :: 0 <= i < WORDS ==> WordIs(bridgeVlan, port, i, a)
      modifies this, ctl
      ensures Valid() && Tidy(old(ctl.log), ctl.log)
      // memberships of the port follow its VLANs, and the flows of VLANs it leaves are gone
      ensures Settled(old(Now()), Now(), port, b.vlan, Flips(a, b, WORDS))
      // from exactly the old VLANs and tagging to exactly the new ones, on this port only
      ensures forall i :: 0 <= i < WORDS ==> WordIs(bridgeVlan, port, i, b)
      ensures forall p, v: nat :: p != port || v >= WORDS * WORD_BITS ==>
                At(bridgeVlan, p, v) == At(old(bridgeVlan), p, v)
      // every changed VLAN was handled, and handled once
      ensures forall x, y :: 0 <= x < y < |handled| ==> handled[x] != handled[y]
      ensures forall i, k :: 0 <= i < WORDS && 0 <= k < WORD_BITS ==> (Vid(i, k) in handled <==> Changed(a, b, i, k))
      ensures forall v :: v in handled ==> v < WORDS * WORD_BITS
      // no message of the update left a dangling reference or removed a named interface group
      ensures Sound(ctl.log)
    {
      hide Valid, Proper, Grounded, WordIs, At, RegOf, Settled;
      FlipsNone(a, b);
      SettledNone(Now(), port, b.vlan);
      handled := [];
      for i := 0 to WORDS
        invariant Valid() && Tidy(old(ctl.log), ctl.log) && Settled(old(Now()), Now(), port, b.vlan, Flips(a, b, i))
        invariant forall w :: 0 <= w < i ==> WordIs(bridgeVlan, port, w, b)
        invariant forall w :: i <= w < WORDS ==> WordIs(bridgeVlan, port, w, a)
        invariant forall p, v: nat :: p != port || v >= WORDS * WORD_BITS ==>
                    At(bridgeVlan, p, v) == At(old(bridgeVlan), p, v)
        invariant AllHandled(handled, a, b, i)
      {
        hide Valid, Proper, Grounded, WordIs, WordHandled, AllHandled, Elsewhere, Settled, Flips, FlipsIn;
        ghost var bv, before, now := bridgeVlan, handled, Now();
        var h := UpdateWord(port, i, a, b);
        handled := handled + h;
        SettledTwice(old(Now()), now, Now(), port, b.vlan, Flips(a, b, i), FlipsIn(a, b, i));
        FlipsNext(a, b, i);
        HandledMore(before, h, a, b, i);
        OtherWords(bv, bridgeVlan, port, i, a, b);
      }
      ValidSound();
    }

    lemma ValidSound()
      requires Valid()
      ensures Sound(ctl.log)
    {
    }
  }

  ghost predicate WordIs(bv: VlanTags, port: nat, i: nat, b: BrVlan)
    requires i < WORDS
  {
    forall k :: 0 <= k < WORD_BITS ==> At(bv, port, Vid(i, k)) == Of(b, i, k)
  }

  /** h holds the changed VLANs of word i, each once. */
  ghost predicate WordHandled(h: seq<nat>, a: BrVlan, b: BrVlan, i: nat)
    requires i < WORDS
  {
    && (forall x, y :: 0 <= x < y < |h| ==> h[x] != h[y])
    && (forall v :: v in h ==> InWord(v, i))
    && (forall k :: 0 <= k < WORD_BITS ==> (Vid(i, k) in h <==> Changed(a, b, i, k)))
  }

  /** The same for all words below n. */
  ghost predicate AllHandled(h: seq<nat>, a: BrVlan, b: BrVlan, n: nat)
    requires n <= WORDS
  {
    && (forall x, y :: 0 <= x < y < |h| ==> h[x] != h[y])
    && (forall v :: v in h ==> v < n * WORD_BITS)
    && (forall i, k :: 0 <= i < n && 0 <= k < WORD_BITS ==> (Vid(i, k) in h <==> Changed(a, b, i, k)))
  }

  /** The VLANs between the two loops: membership is new, tagging only where membership changed. */
  function Between(a: BrVlan, b: BrVlan, i: nat): BrVlan
    requires i < WORDS
  {
    var tags: Word := seq(WORD_BITS, k requires 0 <= k < WORD_BITS =>
      if a.vlan[i][k] != b.vlan[i][k] then b.untagged[i][k] else a.untagged[i][k]);
    BrVlan(a.vlan[i := b.vlan[i]], a.untagged[i := tags])
  }

  lemma BetweenPartly(bv: VlanTags, port: nat, i: nat, a: BrVlan, b: BrVlan)
    requires i < WORDS && NoVidZero(a) && NoVidZero(b)
    requires Partly(bv, port, i, a, b, Xor(a.vlan[i], b.vlan[i]), WORD_BITS)
    ensures NoVidZero(Between(a, b, i))
    ensures forall w :: Partly(bv, port, i, Between(a, b, i), b, w, 0)
    ensures var diff := AndNot(Xor(a.untagged[i], b.untagged[i]), Xor(a.vlan[i], b.vlan[i]));
            forall k :: 0 <= k < WORD_BITS && diff[k] ==>
              Between(a, b, i).vlan[i][k] == b.vlan[i][k] && Changed(Between(a, b, i), b, i, k)
  {
  }

  lemma BetweenDone(bv: VlanTags, port: nat, i: nat, a: BrVlan, b: BrVlan)
    requires i < WORDS
    requires Partly(bv, port, i, Between(a, b, i), b,
                    AndNot(Xor(a.untagged[i], b.untagged[i]), Xor(a.vlan[i], b.vlan[i])), WORD_BITS)
    ensures WordIs(bv, port, i, b)
  {
  }

  lemma ElsewhereTwice(first: VlanTags, bv: VlanTags, bv': VlanTags, port: nat, i: nat)
    requires Elsewhere(first, bv, port, i) && Elsewhere(bv, bv', port, i)
    ensures Elsewhere(first, bv', port, i)
  {
  }

  lemma HandledWord(h1: seq<nat>, h2: seq<nat>, a: BrVlan, b: BrVlan, i: nat)
    requires i < WORDS
    requires Bits(h1, i, Xor(a.vlan[i], b.vlan[i]), WORD_BITS)
    requires Bits(h2, i, AndNot(Xor(a.untagged[i], b.untagged[i]), Xor(a.vlan[i], b.vlan[i])), WORD_BITS)
    ensures WordHandled(h1 + h2, a, b, i)
  {
    var d1 := Xor(a.vlan[i], b.vlan[i]);
    var d2 := AndNot(Xor(a.untagged[i], b.untagged[i]), d1);
    var h := h1 + h2;
    forall k | 0 <= k < WORD_BITS
      ensures (Vid(i, k) in h1 <==> d1[k]) && (Vid(i, k) in h2 <==> d2[k]) {
      BitsMember(h1, i, d1, k);
      BitsMember(h2, i, d2, k);
    }
    forall v | v in h ensures InWord(v, i) {
      assert IsBit(v, i, d1, WORD_BITS) || IsBit(v, i, d2, WORD_BITS);
    }
    forall x, y | 0 <= x < y < |h| ensures h[x] != h[y] {
      if x < |h1| <= y {
        assert h[x] in h1 && h[y] in h2;
        var k :| 0 <= k < WORD_BITS && k < WORD_BITS && d1[k] && h[x] == Vid(i, k);
      }
    }
  }

  lemma BitsMember(h: seq<nat>, i: nat, w: Word, k: nat)
    requires k < WORD_BITS && Bits(h, i, w, WORD_BITS)
    ensures Vid(i, k) in h <==> w[k]
  {
  }

  lemma HandledMore(before: seq<nat>, h: seq<nat>, a: BrVlan, b: BrVlan, n: nat)
    requires n < WORDS && AllHandled(before, a, b, n) && WordHandled(h, a, b, n)
    ensures AllHandled(before + h, a, b, n + 1)
  {
    var r := before + h;
    forall x, y | 0 <= x < y < |r| ensures r[x] != r[y] {
      if x < |before| <= y { assert r[x] in before && r[y] in h; }
    }
    forall v | v in r ensures v < (n + 1) * WORD_BITS {
      if v in before { assert v < n * WORD_BITS; } else { assert InWord(v, n); }
    }
    forall i, k | 0 <= i < n + 1 && 0 <= k < WORD_BITS ensures Vid(i, k) in r <==> Changed(a, b, i, k) {
      if i == n {
        assert Vid(i, k) >= n * WORD_BITS;
        assert Vid(i, k) !in before;
      } else {
        assert Vid(i, k) < n * WORD_BITS;
        assert !InWord(Vid(i, k), n);
        assert Vid(i, k) !in h;
      }
    }
  }

  lemma OtherWords(bv: VlanTags, bv': VlanTags, port: nat, i: nat, a: BrVlan, b: BrVlan)
    requires i < WORDS && Elsewhere(bv, bv', port, i)
    ensures forall w, c :: 0 <= w < WORDS && w != i && WordIs(bv, port, w, c) ==> WordIs(bv', port, w, c)
    ensures forall p, v: nat :: p != port || v >= WORDS * WORD_BITS ==> At(bv', p, v) == At(bv, p, v)
  {
  }

  /** Bits below this position are dealt with when the scan stands at j. */
  function Upto(j: int): nat { if 0 < j <= WORD_BITS then j - 1 else WORD_BITS }

  ghost predicate OnlyAt(bv: VlanTags, bv': VlanTags, port: nat, vid: nat) {
    forall p, v :: p != port || v != vid ==> At(bv', p, v) == At(bv, p, v)
  }

  /** Only VLANs of word i on this port differ. */
  ghost predicate Elsewhere(bv: VlanTags, bv': VlanTags, port: nat, i: nat) {
    forall p, v :: p != port || !InWord(v, i) ==> At(bv', p, v) == At(bv, p, v)
  }

  predicate InWord(v: nat, i: nat) { i * WORD_BITS <= v < (i + 1) * WORD_BITS }

  /** In word i, VLANs whose bit below `upto` is set in w follow b, the others a. */
  ghost predicate Partly(bv: VlanTags, port: nat, i: nat, a: BrVlan, b: BrVlan, w: Word, upto: nat)
    requires i < WORDS
  {
    forall k :: 0 <= k < WORD_BITS ==> At(bv, port, Vid(i, k)) == Of(if k < upto && w[k] then b else a, i, k)
  }

  /** h lists, in ascending order, the VLANs of word i whose bit below `upto` is set in w. */
  ghost predicate Bits(h: seq<nat>, i: nat, w: Word, upto: nat) {
    && (forall x, y :: 0 <= x < y < |h| ==> h[x] < h[y])
    && (forall v :: v in h ==> IsBit(v, i, w, upto))
    && (forall k :: 0 <= k < WORD_BITS && k < upto && w[k] ==> Vid(i, k) in h)
  }

  ghost predicate IsBit(v: nat, i: nat, w: Word, upto: nat) {
    exists k :: 0 <= k < WORD_BITS && k < upto && w[k] && v == Vid(i, k)
  }

  lemma VidValid(i: nat, k: nat, a: BrVlan, b: BrVlan)
    requires i < WORDS && k < WORD_BITS && NoVidZero(a) && NoVidZero(b) && Changed(a, b, i, k)
    ensures 1 <= Vid(i, k) <= 0xfff
  {
  }

  lemma BitsNone(i: nat, w: Word, bv: VlanTags, port: nat)
    ensures Bits([], i, w, 0) && Elsewhere(bv, bv, port, i) && Elements([]) == {}
  {
  }

  lemma BitsNext(h: seq<nat>, i: nat, w: Word, k: nat)
    requires k < WORD_BITS && w[k] && Bits(h, i, w, k)
    ensures Bits(h + [Vid(i, k)], i, w, k + 1)
  {
    var h' := h + [Vid(i, k)];
    forall v | v in h ensures v < Vid(i, k) && IsBit(v, i, w, k + 1) {
      var x :| 0 <= x < WORD_BITS && x < k && w[x] && v == Vid(i, x);
    }
    assert IsBit(Vid(i, k), i, w, k + 1);
    forall x, y | 0 <= x < y < |h'| ensures h'[x] < h'[y] {
      assert h'[x] == h[x] && h[x] in h;
    }
    forall x | 0 <= x < WORD_BITS && x < k + 1 && w[x] ensures Vid(i, x) in h' {
      if x < k { assert Vid(i, x) in h; }
    }
  }

  lemma PartlyAt(bv: VlanTags, port: nat, i: nat, a: BrVlan, b: BrVlan, w: Word, k: nat)
    requires i < WORDS && k < WORD_BITS && Partly(bv, port, i, a, b, w, k)
    ensures At(bv, port, Vid(i, k)) == Of(a, i, k)
  {
  }

  lemma PartlyNext(bv: VlanTags, bv': VlanTags, port: nat, i: nat, a: BrVlan, b: BrVlan, w: Word, k: nat)
    requires i < WORDS && k < WORD_BITS && w[k] && Partly(bv, port, i, a, b, w, k)
    requires At(bv', port, Vid(i, k)) == Of(b, i, k) && OnlyAt(bv, bv', port, Vid(i, k))
    ensures Partly(bv', port, i, a, b, w, k + 1)
  {
  }

  lemma ElsewhereNext(first: VlanTags, bv: VlanTags, bv': VlanTags, port: nat, i: nat, k: nat)
    requires k < WORD_BITS && Elsewhere(first, bv, port, i) && OnlyAt(bv, bv', port, Vid(i, k))
    ensures Elsewhere(first, bv', port, i)
  {
  }

  /** Bits the scan jumps over are clear, so nothing is left to do for them. */
  lemma SkipClear(h: seq<nat>, i: nat, w: Word, a: BrVlan, b: BrVlan, bv: VlanTags, port: nat, from: nat, upto: nat)
    requires i < WORDS && Bits(h, i, w, from) && Partly(bv, port, i, a, b, w, from) && from <= upto
    requires forall k :: from <= k < WORD_BITS && k < upto ==> !w[k]
    ensures Bits(h, i, w, upto) && Partly(bv, port, i, a, b, w, upto)
  {
  }
}
