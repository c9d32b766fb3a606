/** The bridging tables of the switch as a state machine over messages. */
module L2Switch {
  import opened MacAddress

  /** The layer-2 interface group of a port in a VLAN. */
  datatype Iface = Iface(port: nat, vid: nat)

  datatype Switch = Switch(
    ifaces: map<Iface, bool>,                 // interface groups; true: untagged
    ingress: set<Iface>,                      // VLAN filtering at ingress
    flood: map<nat, set<Iface>>,              // flood group per VLAN
    dlf: set<nat>,                            // destination-lookup-failure flow per VLAN
    mc: map<(nat, nat), set<Iface>>,          // multicast group per (index, VLAN)
    mcFlow: map<(Mac, nat), nat>,             // multicast flow per (MAC, VLAN): group index
    uni: map<(Mac, nat), nat>)                // unicast flow per (MAC, VLAN): port

  datatype Msg =
    | IfaceAdd(f: Iface, untagged: bool)
    | IfaceModify(f: Iface, untagged: bool)
    | IfaceRemove(f: Iface)
    | IngressAdd(f: Iface)
    | IngressRemove(f: Iface)
    | FloodAdd(vid: nat, members: set<Iface>)
    | FloodModify(vid: nat, members: set<Iface>)
    | FloodRemove(vid: nat)
    | DlfAdd(vid: nat)
    | DlfRemove(vid: nat)
    | McAdd(index: nat, vid: nat, members: set<Iface>)
    | McModify(index: nat, vid: nat, members: set<Iface>)
    | McRemove(index: nat, vid: nat)
    | McFlowAdd(mac: Mac, vid: nat, index: nat)
    | McFlowRemove(mac: Mac, vid: nat)
    | UniAdd(mac: Mac, vid: nat, port: nat)
    | UniRemove(mac: Mac, vid: nat)
    | UniRemoveAll(port: nat, vid: nat)

  const EMPTY := Switch(map[], {}, map[], {}, map[], map[], map[])

  function Apply(s: Switch, m: Msg): Switch {
    match m
    case IfaceAdd(f, u) => s.(ifaces := s.ifaces[f := u])
    case IfaceModify(f, u) => s.(ifaces := s.ifaces[f := u])
    case IfaceRemove(f) => s.(ifaces := s.ifaces - {f})
    case IngressAdd(f) => s.(ingress := s.ingress + {f})
    case IngressRemove(f) => s.(ingress := s.ingress - {f})
    case FloodAdd(vid, members) => s.(flood := s.flood[vid := members])
    case FloodModify(vid, members) => s.(flood := s.flood[vid := members])
    case FloodRemove(vid) => s.(flood := s.flood - {vid})
    case DlfAdd(vid) => s.(dlf := s.dlf + {vid})
    case DlfRemove(vid) => s.(dlf := s.dlf - {vid})
    case McAdd(index, vid, members) => s.(mc := s.mc[(index, vid) := members])
    case McModify(index, vid, members) => s.(mc := s.mc[(index, vid) := members])
    case McRemove(index, vid) => s.(mc := s.mc - {(index, vid)})
    case McFlowAdd(mac, vid, index) => s.(mcFlow := s.mcFlow[(mac, vid) := index])
    case McFlowRemove(mac, vid) => s.(mcFlow := s.mcFlow - {(mac, vid)})
    case UniAdd(mac, vid, port) => s.(uni := s.uni[(mac, vid) := port])
    case UniRemove(mac, vid) => s.(uni := s.uni - {(mac, vid)})
    case UniRemoveAll(port, vid) => s.(uni := map k | k in s.uni && !(k.1 == vid && s.uni[k] == port) :: s.uni[k])
  }

  ghost function Replay(log: seq<Msg>): Switch {
    if log == [] then EMPTY else Apply(Replay(log[..|log| - 1]), log[|log| - 1])
  }

  /** DLF flows name flood groups, flood groups name interface groups, multicast flows name
      multicast groups that are there. */
  ghost predicate Closed(s: Switch) {
    && s.dlf <= s.flood.Keys
    && (forall v :: v in s.flood ==> s.flood[v] <= s.ifaces.Keys)
    && (forall k :: k in s.mcFlow ==> (s.mcFlow[k], k.1) in s.mc)
  }

  /** No flood group, multicast group or unicast flow names interface group f. */
  ghost predicate Unnamed(s: Switch, f: Iface) {
    && (forall v :: v in s.flood ==> f !in s.flood[v])
    && (forall g :: g in s.mc ==> f !in s.mc[g])
    && (forall k :: k in s.uni ==> Iface(s.uni[k], k.1) != f)
  }

  /** Every message prefix is closed, and an interface group is only removed when nothing names it. */
  ghost predicate Sound(log: seq<Msg>) {
    && (forall n :: 0 <= n <= |log| ==> Closed(Replay(log[..n])))
    && (forall n :: 0 <= n < |log| && log[n].IfaceRemove? ==> Unnamed(Replay(log[..n]), log[n].f))
  }

  /** Adding a group or a multicast flow meets none of that name, modifying meets one. */
  predicate Fits(s: Switch, m: Msg) {
    match m
    case IfaceAdd(f, _) => f !in s.ifaces
    case IfaceModify(f, _) => f in s.ifaces
    case FloodAdd(vid, _) => vid !in s.flood
    case FloodModify(vid, _) => vid in s.flood
    case McAdd(index, vid, _) => (index, vid) !in s.mc
    case McModify(index, vid, _) => (index, vid) in s.mc
    case McFlowAdd(mac, vid, _) => (mac, vid) !in s.mcFlow
    case _ => true
  }

  ghost predicate Proper(log: seq<Msg>) {
    forall n :: 0 <= n < |log| ==> Fits(Replay(log[..n]), log[n])
  }

  /** Multicast groups and unicast flows are only given interface groups that are there. */
  predicate Rests(s: Switch, m: Msg) {
    match m
    case McAdd(_, _, members) => members <= s.ifaces.Keys
    case McModify(_, _, members) => members <= s.ifaces.Keys
    case UniAdd(_, vid, port) => Iface(port, vid) in s.ifaces
    case _ => true
  }

  ghost predicate Grounded(log: seq<Msg>) {
    forall n :: 0 <= n < |log| ==> Rests(Replay(log[..n]), log[n])
  }

  /** Multicast groups and unicast flows name interface groups that are there. */
  ghost predicate Standing(s: Switch) {
    && (forall g :: g in s.mc ==> s.mc[g] <= s.ifaces.Keys)
    && (forall k :: k in s.uni ==> Iface(s.uni[k], k.1) in s.ifaces)
  }

  /** What a part of the stream keeps: if the messages before it met the groups they expect then so do its
      own, and it gives nobody a missing interface group. */
  ghost predicate Tidy(before: seq<Msg>, after: seq<Msg>) {
    && before <= after
    && (Proper(before) ==> Proper(after))
    && (Grounded(before) <==> Grounded(after))
  }

  lemma Sent(log: seq<Msg>, m: Msg)
    ensures Replay(log + [m]) == Apply(Replay(log), m)
    ensures Proper(log + [m]) <==> Proper(log) && Fits(Replay(log), m)
    ensures Grounded(log + [m]) <==> Grounded(log) && Rests(Replay(log), m)
  {
    hide Fits, Rests, Apply;
    var l := log + [m];
    assert l[..|log|] == log && l[|log|] == m;
    assert forall n :: 0 <= n < |log| ==> l[..n] == log[..n] && l[n] == log[n];
    if Proper(l) {
      forall n | 0 <= n < |log| ensures Fits(Replay(log[..n]), log[n]) { assert l[..n] == log[..n]; }
      assert Fits(Replay(l[..|log|]), l[|log|]);
    }
    if Grounded(l) {
      forall n | 0 <= n < |log| ensures Rests(Replay(log[..n]), log[n]) { assert l[..n] == log[..n]; }
      assert Rests(Replay(l[..|log|]), l[|log|]);
    }
  }

  /** A sound and grounded stream never leaves a multicast group or a unicast flow with a missing interface
      group: they only get existing ones, and an interface group goes only when nothing names it. */
  lemma {:induction false} GroundedStands(log: seq<Msg>)
    requires Sound(log) && Grounded(log)
    ensures Standing(Replay(log))
  {
    if log != [] {
      var n := |log| - 1;
      var l := log[..n];
      assert log == l + [log[n]];
      SoundPrefix(log, n);
      GroundedStands(l);
      assert Rests(Replay(log[..n]), log[n]);
      assert log[n].IfaceRemove? ==> Unnamed(Replay(log[..n]), log[n].f);
      StandingNext(Replay(l), log[n]);
    }
  }

  ghost predicate StandingThroughout(log: seq<Msg>) {
    forall n :: 0 <= n <= |log| ==> Standing(Replay(log[..n]))
  }

  lemma StandsThroughout(log: seq<Msg>)
    requires Sound(log) && Grounded(log)
    ensures StandingThroughout(log)
  {
    forall n | 0 <= n <= |log| ensures Standing(Replay(log[..n])) {
      SoundPrefix(log, n);
      GroundedStands(log[..n]);
    }
  }

  lemma SoundPrefix(log: seq<Msg>, n: nat)
    requires Sound(log) && Grounded(log) && n <= |log|
    ensures Sound(log[..n]) && Grounded(log[..n])
  {
    var l := log[..n];
    assert forall i :: 0 <= i <= n ==> l[..i] == log[..i];
  }

  lemma StandingNext(s: Switch, m: Msg)
    requires Standing(s) && Rests(s, m) && (m.IfaceRemove? ==> Unnamed(s, m.f))
    ensures Standing(Apply(s, m))
  {
    var s' := Apply(s, m);
    if m.IfaceRemove? {
      forall g | g in s'.mc ensures s'.mc[g] <= s'.ifaces.Keys { assert m.f !in s.mc[g]; }
    } else {
      assert s.ifaces.Keys <= s'.ifaces.Keys;
      forall g | g in s'.mc ensures s'.mc[g] <= s.ifaces.Keys {}
      forall k | k in s'.uni ensures Iface(s'.uni[k], k.1) in s.ifaces {}
    }
  }

  lemma SoundSend(log: seq<Msg>, m: Msg)
    requires Sound(log) && Closed(Apply(Replay(log), m)) && (m.IfaceRemove? ==> Unnamed(Replay(log), m.f))
    ensures Replay(log + [m]) == Apply(Replay(log), m)
    ensures Sound(log + [m])
  {
    var l := log + [m];
    assert l[..|log|] == log;
    forall n | 0 <= n <= |l| ensures Closed(Replay(l[..n])) {
      if n <= |log| { assert l[..n] == log[..n]; } else { assert l[..n] == l; }
    }
    forall n | 0 <= n < |l| && l[n].IfaceRemove? ensures Unnamed(Replay(l[..n]), l[n].f) {
      assert l[..n] == log[..n];
    }
  }
}
