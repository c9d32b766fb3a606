/** The switch tables the layer-3 code writes, as a state machine over messages. */
module L3Switch {
  import opened L3Types

  datatype Target = ToController | ToEgress(id: nat) | ToEcmp(id: nat)

  datatype Switch = Switch(
    egress: map<nat, EgressKey>,
    ecmp: map<nat, set<nat>>,
    flows: map<Addr, Target>,
    hosts: map<Addr, nat>)

  datatype Msg =
    | EgressAdd(id: nat, key: EgressKey)
    | EgressRemove(id: nat)
    | EcmpAdd(id: nat, members: set<nat>)
    | EcmpModify(id: nat, members: set<nat>)
    | EcmpRemove(id: nat)
    | RouteSet(dst: Addr, target: Target)
    | RouteRemove(dst: Addr)
    | HostSet(addr: Addr, id: nat)
    | HostRemove(addr: Addr)

  const EMPTY := Switch(map[], map[], map[], map[])

  function Apply(s: Switch, m: Msg): Switch {
    match m
    case EgressAdd(id, key) => s.(egress := s.egress[id := key])
    case EgressRemove(id) => s.(egress := s.egress - {id})
    case EcmpAdd(id, members) => s.(ecmp := s.ecmp[id := members])
    case EcmpModify(id, members) => s.(ecmp := s.ecmp[id := members])
    case EcmpRemove(id) => s.(ecmp := s.ecmp - {id})
    case RouteSet(dst, t) => s.(flows := s.flows[dst := t])
    case RouteRemove(dst) => s.(flows := s.flows - {dst})
    case HostSet(a, id) => s.(hosts := s.hosts[a := id])
    case HostRemove(a) => s.(hosts := s.hosts - {a})
  }

  ghost function Replay(log: seq<Msg>): Switch {
    if log == [] then EMPTY else Apply(Replay(log[..|log| - 1]), log[|log| - 1])
  }

  predicate LiveTarget(s: Switch, t: Target) {
    match t
    case ToController => true
    case ToEgress(id) => id in s.egress
    case ToEcmp(id) => id in s.ecmp
  }

  /** Nothing on the switch names a group that is not there. */
  ghost predicate Closed(s: Switch) {
    && (forall d :: d in s.flows ==> LiveTarget(s, s.flows[d]))
    && (forall g :: g in s.ecmp ==> s.ecmp[g] <= s.egress.Keys)
    && (forall a :: a in s.hosts ==> s.hosts[a] in s.egress)
  }

  /** `Closed` after every prefix of the message stream. */
  ghost predicate ClosedThroughout(log: seq<Msg>) {
    forall n :: 0 <= n <= |log| ==> Closed(Replay(log[..n]))
  }

  /** Adding a group meets no group of that id; modifying and removing meet one. */
  predicate Fits(s: Switch, m: Msg) {
    match m
    case EgressAdd(id, _) => id !in s.egress
    case EgressRemove(id) => id in s.egress
    case EcmpAdd(id, _) => id !in s.ecmp
    case EcmpModify(id, _) => id in s.ecmp
    case EcmpRemove(id) => id in s.ecmp
    case _ => true
  }

  /** Every message of the stream met the groups it expects. */
  ghost predicate Proper(log: seq<Msg>) {
    forall n :: 0 <= n < |log| ==> Fits(Replay(log[..n]), log[n])
  }

  lemma ReplayMore(log: seq<Msg>, m: Msg)
    ensures Replay(log + [m]) == Apply(Replay(log), m)
  {
    hide Apply;
    assert (log + [m])[..|log|] == log;
  }

  lemma OneMore(log: seq<Msg>, m: Msg)
    ensures Replay(log + [m]) == Apply(Replay(log), m)
    ensures ClosedThroughout(log + [m]) <==> ClosedThroughout(log) && Closed(Apply(Replay(log), m))
    ensures Proper(log) && Fits(Replay(log), m) ==> Proper(log + [m])
  {
    hide Replay, Closed, Fits, Apply;
    var l := log + [m];
    ReplayMore(log, m);
    assert l[..|log|] == log && l[..|l|] == l;
    forall n | 0 <= n <= |log| ensures Replay(l[..n]) == Replay(log[..n]) { assert l[..n] == log[..n]; }
    if ClosedThroughout(l) {
      assert Closed(Replay(l[..|l|]));
      forall n | 0 <= n <= |log| ensures Closed(Replay(log[..n])) { assert Closed(Replay(l[..n])); }
    }
    if ClosedThroughout(log) && Closed(Replay(l)) {
      forall n | 0 <= n <= |l| ensures Closed(Replay(l[..n])) {
        if n <= |log| { assert Closed(Replay(log[..n])); }
      }
    }
    if Proper(log) && Fits(Replay(log), m) {
      forall n | 0 <= n < |l| ensures Fits(Replay(l[..n]), l[n]) {
        if n < |log| { assert Fits(Replay(log[..n]), log[n]); }
      }
    }
  }

  /** The last state of a closed stream is closed. */
  lemma ClosedAtEnd(log: seq<Msg>)
    requires ClosedThroughout(log)
    ensures Closed(Replay(log))
  {
    assert log[..|log|] == log;
  }

  /** No flow, host entry or ECMP group names egress group `id`. */
  ghost predicate Unnamed(s: Switch, id: nat) {
    && (forall d :: d in s.flows ==> s.flows[d] != ToEgress(id))
    && (forall g :: g in s.ecmp ==> id !in s.ecmp[g])
    && (forall a :: a in s.hosts ==> s.hosts[a] != id)
  }

  /** Exactly then it may be removed. */
  lemma RemovableIff(s: Switch, id: nat)
    requires Closed(s)
    ensures Closed(Apply(s, EgressRemove(id))) <==> Unnamed(s, id)
  {
  }

  /** No flow names ECMP group `id`. */
  ghost predicate NoFlowTo(s: Switch, id: nat) {
    forall d :: d in s.flows ==> s.flows[d] != ToEcmp(id)
  }

  /** Groups are only taken away. */
  ghost predicate FewerGroups(before: map<nat, EgressKey>, after: map<nat, EgressKey>) {
    forall i :: i in after ==> i in before && before[i] == after[i]
  }
}
