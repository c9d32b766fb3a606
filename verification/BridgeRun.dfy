/** Whole runs of the bridging half: VLAN changes, multicast changes and learned addresses in any order. */
module BridgeRun {
  import opened MacAddress
  import opened L2Switch
  import opened McGroups
  import opened L2Controller
  import opened VlanBitmaps
  import opened BridgeVlans

  function ClearWord(): Word { seq(WORD_BITS, _ => false) }

  function ClearBitmap(): Bitmap { seq(WORDS, _ => ClearWord()) }

  /** The bitmaps of a port the kernel has not reported on. */
  function NoVlans(): BrVlan { BrVlan(ClearBitmap(), ClearBitmap()) }

  datatype Event =
    | Vlans(port: nat, b: BrVlan)
    | Mdb(members: seq<Member>)
    | Learn(port: nat, vid: nat, mac: Mac, update: bool)

  /** What the kernel shows: the bitmaps of each port, the multicast members and the port of each learned
      address. `active` are the members that joined or whose port entered the VLAN after it last left it.
      `groups` are the multicast groups the members make up, in the order the controller keeps them. */
  datatype Kernel = Kernel(vlans: map<nat, BrVlan>, members: seq<Member>, active: set<Member>,
                           learned: map<(Mac, nat), nat>, groups: seq<Entry>)

  const NOTHING := Kernel(map[], [], {}, map[], [])

  function VlansOf(k: Kernel, port: nat): BrVlan {
    if port in k.vlans then k.vlans[port] else NoVlans()
  }

  function Step(k: Kernel, ev: Event): Kernel {
    match ev
    case Vlans(port, b) =>
      var a := VlansOf(k, port);
      k.(vlans := k.vlans[port := b],
         active := (set m | m in k.members && if m.port == port && Bit(a.vlan, m.vid) != Bit(b.vlan, m.vid)
                                              then Bit(b.vlan, m.vid) else m in k.active),
         learned := map q | q in k.learned && !(k.learned[q] == port && Bit(a.vlan, q.1) && !Bit(b.vlan, q.1))
                      :: k.learned[q])
    case Mdb(members) =>
      k.(members := members, active := (set m | m in members && (m !in k.members || m in k.active)),
         groups := ApplyOps(k.groups, Diff(k.members, members)))
    case Learn(port, vid, mac, _) => k.(learned := k.learned[(mac, vid) := port])
  }

  ghost function Final(events: seq<Event>): Kernel {
    if events == [] then NOTHING else Step(Final(events[..|events| - 1]), events[|events| - 1])
  }

  /** VLAN 0 is in no bitmap, and members are an ordered set. */
  ghost predicate Possible(k: Kernel, ev: Event) {
    match ev
    case Vlans(_, b) => NoVidZero(b)
    case Mdb(members) => Sorted(members)
    case Learn(_, _, _, _) => true
  }

  /** New multicast groups find a free index. */
  predicate Fresh(k: Kernel, ev: Event) {
    ev.Mdb? ==> FreshRun(k.groups, Diff(k.members, ev.members))
  }

  ghost predicate FreshEvents(events: seq<Event>) {
    FreshTo(events, |events|)
  }

  ghost predicate FreshTo(events: seq<Event>, n: nat)
    requires n <= |events|
  {
    forall i :: 0 <= i < n ==> Fresh(Final(events[..i]), events[i])
  }

  ghost predicate PossibleRun(events: seq<Event>) {
    forall i :: 0 <= i < |events| ==> Possible(Final(events[..i]), events[i])
  }

  /** The port is in the VLAN. */
  predicate InVlan(k: Kernel, port: nat, vid: nat) {
    Bit(VlansOf(k, port).vlan, vid)
  }

  /** Addresses are learned and groups are joined on ports that are in the VLAN. */
  ghost predicate Housing(k: Kernel, ev: Event) {
    match ev
    case Vlans(_, _) => true
    case Mdb(members) => forall m :: m in members && m !in k.members ==> InVlan(k, m.port, m.vid)
    case Learn(port, vid, _, _) => InVlan(k, port, vid)
  }

  ghost predicate HousedRun(events: seq<Event>) {
    forall i :: 0 <= i < |events| ==> Housing(Final(events[..i]), events[i])
  }

  ghost predicate KernelOk(k: Kernel) {
    Sorted(k.members) && forall p :: p in k.vlans ==> NoVidZero(k.vlans[p])
  }

  /** Recorded VLANs, registered and enabled members and unicast flows are exactly what the kernel shows. */
  ghost predicate Follows(bv: VlanTags, s: Shown, k: Kernel) {
    && KernelOk(k)
    && (forall port: nat, i: nat :: i < WORDS ==> WordIs(bv, port, i, VlansOf(k, port)))
    && (forall port: nat, v: nat :: v >= WORDS * WORD_BITS ==> At(bv, port, v) == Out)
    && MembersAre(s.groups, k) && RegOf(s.groups) == k.groups && s.uni == k.learned
  }

  ghost predicate MembersAre(l: seq<Entry>, k: Kernel) {
    (forall m :: Registered(l, m) <==> m in k.members) && (forall m :: Active(l, m) <==> m in k.active)
  }

  lemma FollowsVlans(bv: VlanTags, bv': VlanTags, s: Shown, s': Shown, k: Kernel, port: nat, b: BrVlan)
    requires Follows(bv, s, k) && NoVidZero(b)
    requires Settled(s, s', port, b.vlan, Flips(VlansOf(k, port), b, WORDS))
    requires forall i :: 0 <= i < WORDS ==> WordIs(bv', port, i, b)
    requires forall p, v: nat :: p != port || v >= WORDS * WORD_BITS ==> At(bv', p, v) == At(bv, p, v)
    ensures Follows(bv', s', Step(k, Vlans(port, b)))
  {
    var k' := Step(k, Vlans(port, b));
    forall p, i: nat | i < WORDS ensures WordIs(bv', p, i, VlansOf(k', p)) {
      if p != port {
        assert WordIs(bv, p, i, VlansOf(k, p));
      }
    }
    hide WordIs;
    MembersVlans(s, s', k, port, b);
    LearnedVlans(s, s', k, port, b);
  }

  lemma MembersVlans(s: Shown, s': Shown, k: Kernel, port: nat, b: BrVlan)
    requires MembersAre(s.groups, k) && Settled(s, s', port, b.vlan, Flips(VlansOf(k, port), b, WORDS))
    ensures MembersAre(s'.groups, Step(k, Vlans(port, b)))
  {
    SameMembers(s.groups, s'.groups);
    forall m | Active(s.groups, m) ensures Registered(s.groups, m) { ActiveRegistered(s.groups, m); }
    hide RegOf, Registered, Active, Forgotten;
  }

  lemma LearnedVlans(s: Shown, s': Shown, k: Kernel, port: nat, b: BrVlan)
    requires s.uni == k.learned && Settled(s, s', port, b.vlan, Flips(VlansOf(k, port), b, WORDS))
    ensures s'.uni == Step(k, Vlans(port, b)).learned
  {
    hide RegOf, Registered, Active;
  }

  lemma FollowsMdb(bv: VlanTags, s: Shown, k: Kernel, members: seq<Member>)
    requires Follows(bv, s, k) && ListOk(s.groups) && Possible(k, Mdb(members))
    ensures FreshRun(s.groups, Diff(k.members, members)) <==> Fresh(k, Mdb(members))
    ensures Follows(bv, s.(groups := ApplyOps(s.groups, Diff(k.members, members))), Step(k, Mdb(members)))
  {
    hide WordIs, ListOk, FreshRun, Active, Registered, RegOf;
    RegApplyAll(s.groups, Diff(k.members, members));
    DiffTakesOldToNew(s.groups, k.members, members);
    forall port: nat, i: nat | i < WORDS ensures WordIs(bv, port, i, VlansOf(Step(k, Mdb(members)), port)) {
      assert WordIs(bv, port, i, VlansOf(k, port));
    }
  }

  lemma FollowsLearn(bv: VlanTags, s: Shown, k: Kernel, port: nat, vid: nat, mac: Mac, update: bool)
    requires Follows(bv, s, k)
    ensures Follows(bv, s.(uni := s.uni[(mac, vid) := port]), Step(k, Learn(port, vid, mac, update)))
  {
    hide WordIs, Active, Registered, RegOf;
    var k' := Step(k, Learn(port, vid, mac, update));
    forall p, i: nat | i < WORDS ensures WordIs(bv, p, i, VlansOf(k', p)) {
      assert WordIs(bv, p, i, VlansOf(k, p));
    }
  }

  lemma FollowsBit(bv: VlanTags, s: Shown, k: Kernel, port: nat, vid: nat)
    requires Follows(bv, s, k)
    ensures At(bv, port, vid).In? <==> InVlan(k, port, vid)
    ensures At(bv, port, vid).In? ==> At(bv, port, vid).tagged == !Bit(VlansOf(k, port).untagged, vid)
  {
    hide MembersAre, RegOf;
    if vid < WORDS * WORD_BITS {
      var i, b := vid / WORD_BITS, vid % WORD_BITS;
      assert Vid(i, b) == vid;
      assert WordIs(bv, port, i, VlansOf(k, port));
      assert At(bv, port, Vid(i, b)) == Of(VlansOf(k, port), i, b);
    }
  }

  /** The interface group of a port is there exactly when the port is in the VLAN. */
  lemma IfaceInVlan(br: NlBridge, k: Kernel, port: nat, vid: nat)
    requires br.Valid() && Follows(br.bridgeVlan, br.Now(), k)
    ensures Iface(port, vid) in br.ctl.sw.ifaces <==> InVlan(k, port, vid)
  {
    hide Controller.Valid, Follows;
    var f := Iface(port, vid);
    assert LinkedAt(At(br.bridgeVlan, port, vid), f, br.ctl.l2Domain, br.ctl.sw.ifaces, br.ctl.sw.ingress);
    hide Linked;
    FollowsBit(br.bridgeVlan, br.Now(), k, port, vid);
  }

  lemma HousingMdb(br: NlBridge, k: Kernel, members: seq<Member>)
    requires br.Valid() && Follows(br.bridgeVlan, br.Now(), k)
    ensures Housed(k.members, members, |members|, br.ctl.sw.ifaces) <==> Housing(k, Mdb(members))
  {
    hide NlBridge.Valid, Follows, InVlan;
    assert members[..|members|] == members;
    forall m: Member ensures Iface(m.port, m.vid) in br.ctl.sw.ifaces <==> InVlan(k, m.port, m.vid) {
      IfaceInVlan(br, k, m.port, m.vid);
    }
  }

  /** One event; a multicast update in which a new group meets a used index is followed up to that join, where
      the groups of two entries become one. */
  method Handle(br: NlBridge, ev: Event, k: Kernel)
    requires br.Valid() && Follows(br.bridgeVlan, br.Now(), k) && Possible(k, ev)
    modifies br, br.ctl
    ensures br.ctl.Streamed() && old(br.ctl.log) <= br.ctl.log
    ensures br.Valid() <==> Fresh(k, ev)
    ensures Fresh(k, ev) ==>
              && Follows(br.bridgeVlan, br.Now(), Step(k, ev))
              && (Proper(old(br.ctl.log)) ==> Proper(br.ctl.log))
              && (Grounded(br.ctl.log) <==> Grounded(old(br.ctl.log)) && Housing(k, ev))
  {
    hide Linked, NoEmpty, FreshRun, Diff, ApplyOps, FloodWired, McWired, Sound, Replay, ListOk, Proper, Grounded,
         Housed, InVlan, Follows, Settled, Step, Flips, Registered, Active, WordIs, At;
    match ev {
      case Vlans(port, b) =>
        FollowsWords(br.bridgeVlan, br.Now(), k, port);
        var handled := br.UpdateVlans(port, VlansOf(k, port), b);
        FollowsVlans(old(br.bridgeVlan), br.bridgeVlan, old(br.Now()), br.Now(), k, port, b);
      case Mdb(members) =>
        HousingMdb(br, k, members);
        FollowsWords(br.bridgeVlan, br.Now(), k, 0);
        FollowsMdb(br.bridgeVlan, br.Now(), k, members);
        if Fresh(k, ev) {
          br.ctl.MdbUpdate(k.members, members);
        } else {
          var n := br.ctl.UpdateUntilCollision(Diff(k.members, members));
        }
      case Learn(port, vid, mac, update) =>
        IfaceInVlan(br, k, port, vid);
        FollowsLearn(br.bridgeVlan, br.Now(), k, port, vid, mac, update);
        br.ctl.L2AddrAdd(port, vid, mac, update);
    }
  }

  lemma FollowsWords(bv: VlanTags, s: Shown, k: Kernel, port: nat)
    requires Follows(bv, s, k)
    ensures NoVidZero(VlansOf(k, port)) && forall i :: 0 <= i < WORDS ==> WordIs(bv, port, i, VlansOf(k, port))
    ensures forall m :: Registered(s.groups, m) <==> m in k.members
    ensures Sorted(k.members)
  {
    hide RegOf;
  }

  lemma StartFollows()
    ensures Follows(map[], Shown([], map[]), NOTHING)
  {
  }

  /** Every run, up to the first multicast update in which a new group meets a used index: the state is right
      if and only if there is no such update. */
  method Run(events: seq<Event>) returns (br: NlBridge, k: Kernel, n: nat)
    requires PossibleRun(events)
    ensures fresh(br) && n <= |events| && k == Final(events[..n])
    ensures br.Valid() <==> FreshEvents(events)
    ensures FreshEvents(events) ==> n == |events|
    ensures !FreshEvents(events) ==> n < |events| && FreshTo(events, n) && !Fresh(k, events[n])
    // in any case no message left a flood group with a missing interface group or a flow with a missing group,
    // or removed an interface group that something names
    ensures br.ctl.sw == Replay(br.ctl.log) && Sound(br.ctl.log)
    // the state is exact, and multicast groups and unicast flows never name a missing interface group if and
    // only if addresses are learned and groups joined on ports of the VLAN
    ensures FreshEvents(events) ==> Exact(br, k) && (Grounded(br.ctl.log) <==> HousedRun(events))
    ensures FreshEvents(events) && HousedRun(events) ==> StandingThroughout(br.ctl.log)
    // then the switch delivers a group to exactly the members whose port is in the VLAN
    ensures FreshEvents(events) && HousedRun(events) ==>
              forall m :: Delivers(br.ctl.sw, m) <==> m in k.members && InVlan(k, m.port, m.vid)
  {
    hide *;
    br := Start();
    k := NOTHING;
    RunStart(events);
    n := 0;
    while n < |events|
      invariant n <= |events| && fresh(br) && fresh(br.ctl) && br.Valid()
      invariant Follows(br.bridgeVlan, br.Now(), k) && k == Final(events[..n]) && FreshTo(events, n)
      invariant Proper(br.ctl.log) && (Grounded(br.ctl.log) <==> HousedTo(events, n))
    {
      RunNext(events, n);
      var isFresh := Fresh(k, events[n]);
      Handle(br, events[n], k);
      if !isFresh {
        StreamedMeans(br);
        return;
      }
      k := Step(k, events[n]);
      n := n + 1;
    }
    assert events[..n] == events;
    ExactOf(br, k);
    ValidMeans(br);
    if HousedRun(events) {
      HousedActive(events, n);
      ExactDelivers(br, k);
    }
    if Grounded(br.ctl.log) { StandsThroughout(br.ctl.log); }
  }

  /** The tables of the switch, entry by entry, as the kernel's state has them. */
  ghost predicate OnSwitch(sw: Switch, k: Kernel) {
    // interface groups with their tagging, and ingress entries
    && (forall f: Iface :: f in sw.ifaces <==> InVlan(k, f.port, f.vid))
    && (forall f: Iface :: f in sw.ifaces ==> sw.ifaces[f] == Bit(VlansOf(k, f.port).untagged, f.vid))
    && (forall f: Iface :: f in sw.ingress <==> f in sw.ifaces)
    // flooding reaches the ports of the VLAN
    && (forall f: Iface :: Floods(sw, f) <==> f in sw.ifaces)
    && (forall v :: v in sw.flood ==> sw.flood[v] != {} && forall f :: f in sw.flood[v] ==> f.vid == v)
    && sw.dlf == sw.flood.Keys
    // multicast groups reach the active members, and learned addresses their port
    && (forall m :: Delivers(sw, m) <==> m in k.active) && Lean(sw)
    && sw.uni == k.learned
  }

  ghost predicate Floods(sw: Switch, f: Iface) { f.vid in sw.flood && f in sw.flood[f.vid] }

  /** What a right state means, part by part. */
  ghost predicate Exact(br: NlBridge, k: Kernel)
    reads br, br.ctl
  {
    // recorded VLANs and tagging are the last bitmaps of each port
    && (forall port: nat, i: nat, v: nat :: i < WORDS && v < WORD_BITS ==>
          At(br.bridgeVlan, port, Vid(i, v)) == Of(VlansOf(k, port), i, v))
    && OnSwitch(br.ctl.sw, k)
    // every multicast member of the kernel is registered, enabled or disabled, and nobody else
    && (forall m :: Registered(br.ctl.mcGroups, m) <==> m in k.members) && ListOk(br.ctl.mcGroups)
    // every add met an absent group and every modification a present one
    && Proper(br.ctl.log)
  }

  lemma ExactOf(br: NlBridge, k: Kernel)
    requires br.Valid() && Follows(br.bridgeVlan, br.Now(), k) && Proper(br.ctl.log)
    ensures Exact(br, k)
  {
    ValidMeans(br);
    OnSwitchOf(br, k);
    hide NlBridge.Valid, Linked, ListOk, Proper, Follows, Registered, OnSwitch;
    FollowsAt(br.bridgeVlan, br.Now(), k);
  }

  lemma ExactDelivers(br: NlBridge, k: Kernel)
    requires Exact(br, k) && ActiveInVlan(k)
    ensures forall m :: Delivers(br.ctl.sw, m) <==> m in k.members && InVlan(k, m.port, m.vid)
  {
    hide Delivers;
  }

  lemma OnSwitchOf(br: NlBridge, k: Kernel)
    requires br.Valid() && Follows(br.bridgeVlan, br.Now(), k)
    ensures OnSwitch(br.ctl.sw, k)
  {
    var sw := br.ctl.sw;
    FloodsOf(br);
    WiredLean(br.ctl.mcGroups, sw);
    forall m ensures Delivers(sw, m) <==> m in k.active {
      DeliversActive(br.ctl.mcGroups, sw, m);
    }
    forall f: Iface
      ensures f in sw.ifaces <==> InVlan(k, f.port, f.vid)
      ensures f in sw.ingress <==> f in sw.ifaces
      ensures f in sw.ifaces ==> sw.ifaces[f] == Bit(VlansOf(k, f.port).untagged, f.vid) {
      FollowsBit(br.bridgeVlan, br.Now(), k, f.port, f.vid);
      assert LinkedAt(At(br.bridgeVlan, f.port, f.vid), f, br.ctl.l2Domain, sw.ifaces, sw.ingress);
    }
  }

  lemma FloodsOf(br: NlBridge)
    requires br.Valid()
    ensures var sw := br.ctl.sw;
            && (forall f: Iface :: Floods(sw, f) <==> f in sw.ifaces)
            && (forall v :: v in sw.flood ==> sw.flood[v] != {} && forall f :: f in sw.flood[v] ==> f.vid == v)
            && sw.dlf == sw.flood.Keys
  {
    hide McWired, ListOk, Sound, Replay, At;
    var sw := br.ctl.sw;
    forall f: Iface ensures Floods(sw, f) <==> f in sw.ifaces {
      assert LinkedAt(At(br.bridgeVlan, f.port, f.vid), f, br.ctl.l2Domain, sw.ifaces, sw.ingress);
    }
    forall v | v in sw.flood ensures sw.flood[v] != {} {
      var p :| p in br.ctl.l2Domain[v];
      assert Iface(p, v) in sw.flood[v];
    }
  }

  /** The active members are those whose port is in the VLAN. */
  ghost predicate ActiveInVlan(k: Kernel) {
    forall m :: m in k.active <==> m in k.members && InVlan(k, m.port, m.vid)
  }

  /** This holds as long as members join on ports of the VLAN. */
  lemma {:induction false} HousedActive(events: seq<Event>, n: nat)
    requires n <= |events| && HousedTo(events, n)
    ensures ActiveInVlan(Final(events[..n]))
  {
    if n > 0 {
      HousedActive(events, n - 1);
      assert events[..n][..n - 1] == events[..n - 1];
      ActiveNext(Final(events[..n - 1]), events[n - 1]);
    }
  }

  lemma ActiveNext(k: Kernel, ev: Event)
    requires Housing(k, ev) && ActiveInVlan(k)
    ensures ActiveInVlan(Step(k, ev))
  {
    hide Bit, Diff, ApplyOps;
  }

  lemma StreamedMeans(br: NlBridge)
    requires br.ctl.Streamed()
    ensures br.ctl.sw == Replay(br.ctl.log) && Sound(br.ctl.log)
  {
  }

  method Start() returns (br: NlBridge)
    ensures fresh(br) && fresh(br.ctl) && br.Valid() && Follows(br.bridgeVlan, br.Now(), NOTHING)
    ensures Proper(br.ctl.log) && Grounded(br.ctl.log)
  {
    StartFollows();
    var ctl := new Controller();
    br := new NlBridge(ctl);
  }

  lemma ValidMeans(br: NlBridge)
    requires br.Valid()
    ensures Linked(br.bridgeVlan, br.ctl.l2Domain, br.ctl.sw.ifaces, br.ctl.sw.ingress)
    ensures ListOk(br.ctl.mcGroups) && br.ctl.sw == Replay(br.ctl.log) && Sound(br.ctl.log)
  {
  }

  ghost predicate HousedTo(events: seq<Event>, n: nat)
    requires n <= |events|
  {
    forall i :: 0 <= i < n ==> Housing(Final(events[..i]), events[i])
  }

  lemma RunStart(events: seq<Event>)
    ensures Final(events[..0]) == NOTHING && HousedTo(events, 0) && FreshTo(events, 0)
    ensures FreshEvents(events) <==> FreshTo(events, |events|)
    ensures HousedRun(events) <==> HousedTo(events, |events|)
  {
  }

  lemma RunNext(events: seq<Event>, n: nat)
    requires PossibleRun(events) && n < |events| && FreshTo(events, n)
    ensures Possible(Final(events[..n]), events[n])
    ensures Final(events[..n + 1]) == Step(Final(events[..n]), events[n])
    ensures HousedTo(events, n + 1) <==> HousedTo(events, n) && Housing(Final(events[..n]), events[n])
    ensures Fresh(Final(events[..n]), events[n]) ==> FreshTo(events, n + 1)
    ensures !Fresh(Final(events[..n]), events[n]) ==> !FreshEvents(events)
  {
    hide Step, Housing, Possible, Fresh;
    assert events[..n + 1][..n] == events[..n];
  }

  lemma FollowsAt(bv: VlanTags, s: Shown, k: Kernel)
    requires Follows(bv, s, k)
    ensures forall port: nat, i: nat, v: nat :: i < WORDS && v < WORD_BITS ==>
              At(bv, port, Vid(i, v)) == Of(VlansOf(k, port), i, v)
    ensures forall m :: Registered(s.groups, m) <==> m in k.members
  {
    forall port: nat, i: nat, v: nat | i < WORDS && v < WORD_BITS
      ensures At(bv, port, Vid(i, v)) == Of(VlansOf(k, port), i, v) {
      assert WordIs(bv, port, i, VlansOf(k, port));
    }
  }
}
