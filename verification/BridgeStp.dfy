/** Per-VLAN spanning tree of the bridge: a global state per port and a state per (VLAN, port)
    combine into one effective state, which is what the switch must hold. */
module BridgeStp {
  import opened Stg

  type Uint8 = x: nat | x < 256

  /** pv_states is keyed by uint16_t. */
  type PortKey = x: nat | x < 0x1_0000

  type PortStates = map<nat, Uint8>                     // port -> state
  type VlanStates = map<nat, map<PortKey, Uint8>>       // vid -> port key -> state

  function Key(port: nat): PortKey { port % 0x1_0000 }

  /** An int passed as uint8_t. */
  function AsUint8(x: int): Uint8 { x % 256 }

  /** Reference definition: BLOCKING absorbs, a missing global state is neutral, otherwise the minimum. */
  datatype Global = Unset | Set(state: Uint8)

  function Effective(g: Global, pv: Uint8): Uint8 {
    match g
    case Unset => pv
    case Set(s) => if s == BLOCKING || pv == BLOCKING then BLOCKING else if s <= pv then s else pv
  }

  function GetEffectiveState(g: Uint8, pv: Uint8): Uint8 {
    if g == BLOCKING || pv == BLOCKING then BLOCKING else if g <= pv then g else pv
  }

  function GetGlobalState(gl: PortStates, port: nat): int {
    if port in gl then gl[port] else -EINVAL
  }

  function GetPvlanState(pv: VlanStates, port: nat, vid: nat): int {
    if vid !in pv then -EINVAL
    else if Key(port) !in pv[vid] then -EINVAL
    else pv[vid][Key(port)]
  }

  function GetMinState(gl: PortStates, pv: VlanStates, port: nat, vid: nat): int {
    var s := GetPvlanState(pv, port, vid);
    if s < 0 then GetGlobalState(gl, port)
    else GetEffectiveState(AsUint8(GetGlobalState(gl, port)), AsUint8(s))
  }

  function GlobalOf(gl: PortStates, port: nat): Global {
    if port in gl then Set(gl[port]) else Unset
  }

  ghost predicate StatesOk(m: PortStates) {
    forall p :: p in m ==> m[p] <= BLOCKING
  }

  ghost predicate Tracked(pv: VlanStates, port: nat, vid: nat) {
    vid in pv && Key(port) in pv[vid]
  }

  /** The error code of a missing global state, truncated to eight bits, is neutral. */
  lemma MinStateIsEffective(gl: PortStates, pv: VlanStates, port: nat, vid: nat)
    requires StatesOk(gl) && Tracked(pv, port, vid) && StatesOk(pv[vid])
    ensures GetMinState(gl, pv, port, vid) == Effective(GlobalOf(gl, port), pv[vid][Key(port)])
    ensures 0 <= GetMinState(gl, pv, port, vid) <= BLOCKING
  {
  }

  /** The loop of get_min_states. */
  method GetMinStates(gl: PortStates, pv: VlanStates, port: nat) returns (ret: map<nat, Uint8>)
    ensures forall vid :: vid in ret <==> Tracked(pv, port, vid)
    ensures forall vid :: vid in ret ==> ret[vid] == GetMinState(gl, pv, port, vid)
  {
    var g := GetGlobalState(gl, port);
    ret := map[];
    var todo := pv.Keys;
    while todo != {}
      invariant todo <= pv.Keys
      invariant forall vid :: vid in ret <==> vid in pv && vid !in todo && Key(port) in pv[vid]
      invariant forall vid :: vid in ret ==> ret[vid] == GetMinState(gl, pv, port, vid)
      decreases todo
    {
      var vid :| vid in todo;
      todo := todo - {vid};
      if Key(port) in pv[vid] {
        ret := ret[vid := GetEffectiveState(AsUint8(g), pv[vid][Key(port)])];
      }
    }
  }

  function AddPvlan(pv: VlanStates, port: nat, vid: nat, state: Uint8): VlanStates {
    pv[vid := (if vid in pv then pv[vid] else map[])[Key(port) := state]]
  }

  function DelPvlan(pv: VlanStates, port: nat, vid: nat): VlanStates {
    if vid !in pv then pv
    else if pv[vid] - {Key(port)} == map[] then pv - {vid}
    else pv[vid := pv[vid] - {Key(port)}]
  }

  /** No empty VLAN entry is kept. */
  ghost predicate PvOk(pv: VlanStates) {
    forall v :: v in pv ==> pv[v] != map[] && StatesOk(pv[v])
  }

  /** Exactly the entry of (port, vid) takes the state; every other entry stays as it was. */
  ghost predicate EntrySet(pv: VlanStates, pv': VlanStates, port: nat, vid: nat, state: Uint8) {
    && (forall p, v :: Tracked(pv', p, v) <==> Tracked(pv, p, v) || (Key(p) == Key(port) && v == vid))
    && (forall p, v :: Tracked(pv', p, v) ==>
          pv'[v][Key(p)] == if Key(p) == Key(port) && v == vid then state else pv[v][Key(p)])
  }

  /** Exactly the entry of (port, vid) is gone; every other entry stays as it was. */
  ghost predicate EntryGone(pv: VlanStates, pv': VlanStates, port: nat, vid: nat) {
    && (forall p, v :: Tracked(pv', p, v) <==> Tracked(pv, p, v) && !(Key(p) == Key(port) && v == vid))
    && (forall p, v :: Tracked(pv', p, v) ==> pv'[v][Key(p)] == pv[v][Key(p)])
  }

  /** The port is the only one tracked in the VLAN. */
  ghost predicate Alone(pv: VlanStates, port: nat, vid: nat) {
    Tracked(pv, port, vid) && forall p :: Tracked(pv, p, vid) ==> Key(p) == Key(port)
  }

  lemma AddPvlanOk(pv: VlanStates, port: nat, vid: nat, state: Uint8)
    requires PvOk(pv) && state <= BLOCKING
    ensures PvOk(AddPvlan(pv, port, vid, state)) && EntrySet(pv, AddPvlan(pv, port, vid, state), port, vid, state)
    ensures Tracked(AddPvlan(pv, port, vid, state), port, vid)
    ensures AddPvlan(pv, port, vid, state).Keys == pv.Keys + {vid}
    ensures vid !in pv ==> DelPvlan(AddPvlan(pv, port, vid, state), port, vid) == pv
  {
  }

  lemma EntryHolds(pv: VlanStates, pv': VlanStates, port: nat, vid: nat, state: Uint8)
    requires EntrySet(pv, pv', port, vid, state)
    ensures Tracked(pv', port, vid) && pv'[vid][Key(port)] == state
  {
  }

  /** A VLAN is forgotten with the last of its ports. */
  lemma DelPvlanOk(pv: VlanStates, port: nat, vid: nat)
    requires PvOk(pv)
    ensures PvOk(DelPvlan(pv, port, vid)) && EntryGone(pv, DelPvlan(pv, port, vid), port, vid)
    ensures DelPvlan(pv, port, vid).Keys == pv.Keys - (if Alone(pv, port, vid) then {vid} else {})
  {
    if vid in pv && pv[vid] - {Key(port)} != map[] {
      var k :| k in pv[vid] - {Key(port)};
      assert Key(k) == k && Tracked(pv, k, vid);
    } else if vid in pv {
      assert forall k :: k in pv[vid] && k != Key(port) ==> k in pv[vid] - {Key(port)};
      var k :| k in pv[vid];
    }
  }

  type GroupStates = map<(nat, nat), nat>          // (port, group) -> state

  /** Where the switch shows the VLAN states of a port. */
  ghost function ShownAt(pv: VlanStates, groups: map<nat, nat>, port: nat): set<(nat, nat)> {
    set v | v in pv && Tracked(pv, port, v) && v in groups :: (port, groups[v])
  }

  ghost predicate SameAt(gs: GroupStates, gs': GroupStates, q: (nat, nat)) {
    (q in gs' <==> q in gs) && (q in gs ==> gs'[q] == gs[q])
  }

  ghost predicate Shows(groups: map<nat, nat>, gs: GroupStates, port: nat, vid: nat, state: nat) {
    vid in groups && (port, groups[vid]) in gs && gs[(port, groups[vid])] == state
  }

  /** The switch holds the effective state of every tracked (port, VLAN), except for the VLANs in
      `but` on port `on`. */
  ghost predicate SyncedBut(ports: set<nat>, gl: PortStates, pv: VlanStates, groups: map<nat, nat>, gs: GroupStates,
                            on: nat, but: set<nat>) {
    forall port, vid :: port in ports && Tracked(pv, port, vid) && (port != on || vid !in but) ==>
                        Shows(groups, gs, port, vid, Effective(GlobalOf(gl, port), pv[vid][Key(port)]))
  }

  ghost predicate Synced(ports: set<nat>, gl: PortStates, pv: VlanStates, groups: map<nat, nat>, gs: GroupStates) {
    forall port, vid :: port in ports && Tracked(pv, port, vid) ==>
                        Shows(groups, gs, port, vid, Effective(GlobalOf(gl, port), pv[vid][Key(port)]))
  }

  /** A write to one VLAN's group disturbs no other VLAN, because groups are not shared. */
  lemma WriteState(ports: set<nat>, gl: PortStates, pv: VlanStates, groups: map<nat, nat>, gs: GroupStates, port: nat,
                   but: set<nat>, vid: nat, state: nat)
    requires SyncedBut(ports, gl, pv, groups, gs, port, but)
    requires Injective(groups) && vid in groups
    requires Tracked(pv, port, vid) ==> vid !in but || state == Effective(GlobalOf(gl, port), pv[vid][Key(port)])
    requires vid in but
    ensures SyncedBut(ports, gl, pv, groups, gs[(port, groups[vid]) := state], port, but - {vid})
  {
  }

  lemma WriteDefault(ports: set<nat>, gl: PortStates, pv: VlanStates, groups: map<nat, nat>, gs: GroupStates, port: nat,
                     state: nat)
    requires Synced(ports, gl, pv, groups, gs)
    requires forall v :: v in groups ==> groups[v] != DEFAULT_STG
    ensures Synced(ports, gl, pv, groups, gs[(port, DEFAULT_STG) := state])
  {
  }

  predicate OwnKey(ports: set<nat>, port: nat) {
    port in ports && forall p | p in ports && Key(p) == Key(port) :: p == port
  }

  /** A new or changed VLAN entry leaves only that entry to be written. */
  lemma EntryAdded(ports: set<nat>, gl: PortStates, pv: VlanStates, groups: map<nat, nat>, groups': map<nat, nat>,
                   gs: GroupStates, port: nat, vid: nat, state: Uint8, pv': VlanStates)
    requires Synced(ports, gl, pv, groups, gs) && OwnKey(ports, port) && EntrySet(pv, pv', port, vid, state)
    requires forall v :: v in pv ==> v in groups && v in groups' && groups'[v] == groups[v]
    ensures SyncedBut(ports, gl, pv', groups', gs, port, {vid})
  {
  }

  function GroupOf(groups: map<nat, nat>, vid: nat): nat {
    if vid in groups then groups[vid] else DEFAULT_STG
  }

  lemma EntryRemoved(ports: set<nat>, gl: PortStates, pv: VlanStates, groups: map<nat, nat>, groups': map<nat, nat>,
                     gs: GroupStates, port: nat, vid: nat, state: nat, pv': VlanStates)
    requires Synced(ports, gl, pv, groups, gs) && OwnKey(ports, port) && Injective(groups)
    requires EntryGone(pv, pv', port, vid)
    requires forall v :: v in groups ==> groups[v] != DEFAULT_STG
    requires forall v :: v in pv ==> v in groups
    requires forall v :: v in pv' ==> v in groups && v in groups' && groups'[v] == groups[v]
    ensures Synced(ports, gl, pv', groups', gs[(port, GroupOf(groups, vid)) := state])
  {
    forall p, v | p in ports && Tracked(pv', p, v)
      ensures Tracked(pv, p, v) && (p != port || v != vid) && pv'[v][Key(p)] == pv[v][Key(p)] {
    }
  }

  /** The first port of a VLAN is turned down: no group left, or the switch does not make one. */
  predicate Refused(tracked: set<nat>, vlans: set<nat>, vid: nat, createRv: int, addRv: int) {
    && vid !in tracked && vid !in vlans
    && (|vlans| == 510 || createRv < 0 || addRv < 0)
  }

  lemma RefusedBy(groups: map<nat, nat>, vid: nat, createRv: int, addRv: int)
    ensures Refused({}, groups.Keys, vid, createRv, addRv)
       <==> vid !in groups && (|groups| == 510 || createRv < 0 || addRv < 0)
  {
  }

  /** At most VLAN vid has got a group. */
  ghost predicate GroupsKept(groups: map<nat, nat>, groups': map<nat, nat>, vid: nat) {
    vid in groups' && groups' == groups[vid := groups'[vid]] && (vid in groups ==> groups' == groups)
  }

  lemma GroupsKeptKeys(groups: map<nat, nat>, groups': map<nat, nat>, vid: nat)
    ensures GroupsKept(groups, groups', vid) ==>
              groups'.Keys == groups.Keys + {vid} && forall v :: v in groups ==> v in groups' && groups'[v] == groups[v]
  {
  }

  lemma RefusedOnlyFirst(tracked: set<nat>, vlans: set<nat>, vid: nat, createRv: int, addRv: int)
    ensures Refused(tracked, vlans, vid, createRv, addRv)
       <==> vid !in tracked && Refused({}, vlans, vid, createRv, addRv)
  {
  }

  lemma OwnGroups(sw: StgTable)
    requires sw.Valid()
    ensures Injective(sw.vlanToStg) && forall v :: v in sw.vlanToStg ==> sw.vlanToStg[v] != DEFAULT_STG
  {
  }

  lemma GroupsSame(groups: map<nat, nat>, vid: nat)
    requires vid in groups
    ensures GroupsKept(groups, groups, vid)
  {
  }

  class Bridge {
    var glStates: PortStates
    var pvStates: VlanStates
    const sw: StgTable

    constructor ()
      ensures Valid() && glStates == map[] && pvStates == map[] && sw.vlanToStg == map[] && sw.portState == map[]
              && fresh(sw) && fresh(sw.inUse)
    {
      glStates, pvStates := map[], map[];
      sw := new StgTable();
    }

    /** Every VLAN with a tracked port has a group of its own, whatever the switch answered. */
    ghost predicate Valid()
      reads this, sw, sw.inUse
    {
      && sw.Valid() && 0 !in sw.vlanToStg
      && PvOk(pvStates) && (forall v :: v in pvStates ==> v in sw.vlanToStg)
      && StatesOk(glStates)
    }

    ghost predicate InSync(ports: set<nat>)
      reads this, sw
    {
      Synced(ports, glStates, pvStates, sw.vlanToStg, sw.portState)
    }

    method SetPortStpState(port: nat, state: Uint8, ghost ports: set<nat>)
      requires Valid() && InSync(ports) && state <= BLOCKING
      modifies this`glStates, sw`portState
      ensures Valid() && InSync(ports) && glStates == old(glStates)[port := state]
      ensures (port, DEFAULT_STG) in sw.portState && sw.portState[(port, DEFAULT_STG)] == state
      ensures forall q :: q !in ShownAt(pvStates, sw.vlanToStg, port) && q != (port, DEFAULT_STG) ==>
                SameAt(old(sw.portState), sw.portState, q)
    {
      glStates := glStates[port := state];
      var states := GetMinStates(glStates, pvStates, port);
      assert SyncedBut(ports, glStates, pvStates, sw.vlanToStg, sw.portState, port, states.Keys);
      WriteStates(port, states, ports);
      WriteDefault(ports, glStates, pvStates, sw.vlanToStg, sw.portState, port, state);
      var rv := sw.StatePortSet(port, 0, state);
    }

    /** The loop of set_port_stp_state. */
    method WriteStates(port: nat, states: map<nat, Uint8>, ghost ports: set<nat>)
      requires Valid()
      requires forall vid :: vid in states ==>
                 Tracked(pvStates, port, vid) && states[vid] == GetMinState(glStates, pvStates, port, vid)
      requires SyncedBut(ports, glStates, pvStates, sw.vlanToStg, sw.portState, port, states.Keys)
      modifies sw`portState
      ensures Valid() && InSync(ports)
      ensures forall q :: q !in ShownAt(pvStates, sw.vlanToStg, port) ==> SameAt(old(sw.portState), sw.portState, q)
    {
      hide Synced, SyncedBut, Effective, GetMinState;
      var todo := states.Keys;
      while todo != {}
        invariant todo <= states.Keys && Valid()
        invariant SyncedBut(ports, glStates, pvStates, sw.vlanToStg, sw.portState, port, todo)
        invariant forall q :: q !in ShownAt(pvStates, sw.vlanToStg, port) ==> SameAt(old(sw.portState), sw.portState, q)
        decreases todo
      {
        var vid :| vid in todo;
        MinStateIsEffective(glStates, pvStates, port, vid);
        WriteState(ports, glStates, pvStates, sw.vlanToStg, sw.portState, port, todo, vid, states[vid]);
        var rv := sw.StatePortSet(port, vid, states[vid]);
        todo := todo - {vid};
      }
      NothingLeft(ports, glStates, pvStates, sw.vlanToStg, sw.portState, port);
    }

    method AddPortVlanStpState(port: nat, vid: nat, state: Uint8, createRv: int, addRv: int,
                               ghost ports: set<nat>) returns (rv: int)
      requires Valid() && InSync(ports) && state <= BLOCKING && vid != 0 && OwnKey(ports, port)
      modifies this`pvStates, sw, sw.inUse
      ensures Valid() && InSync(ports)
      ensures rv < 0 ==> pvStates == old(pvStates) && sw.portState == old(sw.portState)
      ensures rv >= 0 ==>
                EntrySet(old(pvStates), pvStates, port, vid, state) && pvStates.Keys == old(pvStates.Keys) + {vid}
      ensures rv < 0 <==> Refused(old(pvStates.Keys), old(sw.vlanToStg.Keys), vid, createRv, addRv)
      ensures rv < 0 ==> sw.vlanToStg == old(sw.vlanToStg)
      ensures rv >= 0 ==> GroupsKept(old(sw.vlanToStg), sw.vlanToStg, vid)
      ensures rv >= 0 ==> vid in sw.vlanToStg
                          && sw.portState == old(sw.portState)[(port, sw.vlanToStg[vid])
                                                               := Effective(GlobalOf(glStates, port), state)]
    {
      hide Synced, SyncedBut, Effective, GetMinState, AddPvlan, EntrySet, Refused, GroupsKept;
      ghost var groups := sw.vlanToStg;
      rv := Track(port, vid, state, createRv, addRv);
      GroupsKeptKeys(groups, sw.vlanToStg, vid);
      if rv < 0 {
        SameGroups(ports, glStates, pvStates, groups, sw.vlanToStg, sw.portState);
        return;
      }
      EntryAdded(ports, glStates, old(pvStates), groups, sw.vlanToStg, sw.portState, port, vid, state, pvStates);
      MinStateIsEffective(glStates, pvStates, port, vid);
      EntryHolds(old(pvStates), pvStates, port, vid, state);
      WriteState(ports, glStates, pvStates, sw.vlanToStg, sw.portState, port, {vid}, vid,
                 GetMinState(glStates, pvStates, port, vid));
      assert {vid} - {vid} == {};
      rv := sw.StatePortSet(port, vid, GetMinState(glStates, pvStates, port, vid));
      NothingLeft(ports, glStates, pvStates, sw.vlanToStg, sw.portState, port);
    }

    method NewGroup(vid: nat, createRv: int, addRv: int) returns (rv: int)
      requires sw.Valid()
      modifies sw`currentStg, sw`vlanToStg, sw.inUse
      ensures sw.Valid()
      ensures rv < 0 <==> Refused({}, old(sw.vlanToStg.Keys), vid, createRv, addRv)
      ensures rv < 0 ==> sw.vlanToStg == old(sw.vlanToStg)
      ensures rv >= 0 ==> GroupsKept(old(sw.vlanToStg), sw.vlanToStg, vid)
    {
      hide StgTable.Valid, Refused;
      RefusedBy(sw.vlanToStg, vid, createRv, addRv);
      rv := sw.Create(vid, createRv, addRv);
    }

    /** Record the VLAN state; the first port of a VLAN creates the group, or is forgotten again. */
    method Track(port: nat, vid: nat, state: Uint8, createRv: int, addRv: int) returns (rv: int)
      requires Valid() && state <= BLOCKING && vid != 0
      modifies this`pvStates, sw`currentStg, sw`vlanToStg, sw.inUse
      ensures Valid()
      ensures rv < 0 ==> pvStates == old(pvStates)
      ensures rv >= 0 ==>
                EntrySet(old(pvStates), pvStates, port, vid, state) && pvStates.Keys == old(pvStates.Keys) + {vid}
      ensures rv < 0 <==> Refused(old(pvStates.Keys), old(sw.vlanToStg.Keys), vid, createRv, addRv)
      ensures rv >= 0 ==> Tracked(pvStates, port, vid)
      ensures rv < 0 ==> sw.vlanToStg == old(sw.vlanToStg)
      ensures rv >= 0 ==> GroupsKept(old(sw.vlanToStg), sw.vlanToStg, vid)
    {
      hide AddPvlan, DelPvlan, EntrySet, PvOk, Tracked, StatesOk, StgTable.Valid, GroupsKept, Refused;
      AddPvlanOk(pvStates, port, vid, state);
      RefusedOnlyFirst(pvStates.Keys, sw.vlanToStg.Keys, vid, createRv, addRv);
      ghost var groups := sw.vlanToStg;
      var newGroup := vid !in pvStates;
      pvStates := AddPvlan(pvStates, port, vid, state);
      rv := 0;
      if newGroup {
        rv := NewGroup(vid, createRv, addRv);
        if rv < 0 {
          pvStates := DelPvlan(pvStates, port, vid);
        }
      } else {
        GroupsSame(groups, vid);
      }
      GroupsKeptKeys(groups, sw.vlanToStg, vid);
    }

    method DelPortVlanStpState(port: nat, vid: nat, destroyRv: int, ghost ports: set<nat>) returns (rv: int)
      requires Valid() && InSync(ports) && OwnKey(ports, port)
      modifies this`pvStates, sw, sw.inUse
      ensures Valid() && InSync(ports)
      ensures EntryGone(old(pvStates), pvStates, port, vid)
      // VLAN and group go only with the last port
      ensures pvStates.Keys == old(pvStates.Keys) - (if Alone(old(pvStates), port, vid) then {vid} else {})
      ensures rv == if Alone(old(pvStates), port, vid) && destroyRv < 0 then destroyRv else 0
      ensures sw.vlanToStg == old(sw.vlanToStg)
                              - (if Alone(old(pvStates), port, vid) && destroyRv >= 0 then {vid} else {})
      // without a group the write lands in the default group and overrides the port's global state there
      ensures sw.portState == old(sw.portState)[(port, GroupOf(old(sw.vlanToStg), vid)) := FORWARDING]
    {
      OwnGroups(sw);
      hide Synced, Effective, EntryGone, Alone, PvOk, StatesOk, StgTable.Valid, Injective;
      ghost var gs, groups := sw.portState, sw.vlanToStg;
      rv := sw.StatePortSet(port, vid, FORWARDING);
      var err := Untrack(port, vid, destroyRv);
      if err < 0 && rv == 0 {
        rv := err;
      }
      EntryRemoved(ports, glStates, old(pvStates), groups, sw.vlanToStg, gs, port, vid, FORWARDING, pvStates);
    }

    /** Forget the VLAN state; the last port of a VLAN destroys the group. */
    method Untrack(port: nat, vid: nat, destroyRv: int) returns (err: int)
      requires Valid()
      modifies this`pvStates, sw`vlanToStg, sw.inUse
      ensures Valid() && EntryGone(old(pvStates), pvStates, port, vid)
      ensures pvStates.Keys == old(pvStates.Keys) - (if Alone(old(pvStates), port, vid) then {vid} else {})
      ensures err == if Alone(old(pvStates), port, vid) then destroyRv else 0
      ensures sw.vlanToStg == old(sw.vlanToStg)
                              - (if Alone(old(pvStates), port, vid) && destroyRv >= 0 then {vid} else {})
    {
      hide EntryGone, Alone, DelPvlan, PvOk, StatesOk, StgTable.Valid;
      DelPvlanOk(pvStates, port, vid);
      AloneTracked(pvStates, port, vid);
      var known := vid in pvStates;
      pvStates := DelPvlan(pvStates, port, vid);
      var lastMember := known && vid !in pvStates;
      err := 0;
      if lastMember {
        err := sw.Destroy(vid, destroyRv);
      }
    }
  }

  lemma AloneTracked(pv: VlanStates, port: nat, vid: nat)
    ensures Alone(pv, port, vid) ==> vid in pv
  {
  }

  lemma SameGroups(ports: set<nat>, gl: PortStates, pv: VlanStates, groups: map<nat, nat>, groups': map<nat, nat>,
                   gs: GroupStates)
    requires Synced(ports, gl, pv, groups, gs)
    requires forall v :: v in pv ==> v in groups && v in groups' && groups'[v] == groups[v]
    ensures Synced(ports, gl, pv, groups', gs)
  {
  }

  lemma NothingLeft(ports: set<nat>, gl: PortStates, pv: VlanStates, groups: map<nat, nat>, gs: GroupStates, on: nat)
    requires SyncedBut(ports, gl, pv, groups, gs, on, {})
    ensures Synced(ports, gl, pv, groups, gs)
  {
  }

  datatype Event =
    | PortState(port: nat, state: Uint8)
    | VlanAdd(port: nat, vid: nat, state: Uint8, createRv: int, addRv: int)
    | VlanDel(port: nat, vid: nat, destroyRv: int)

  /** Ports known, states and VLANs in range. */
  predicate EventOk(ports: set<nat>, ev: Event) {
    match ev
    case PortState(port, state) => port in ports && state <= BLOCKING
    case VlanAdd(port, vid, state, _, _) => port in ports && state <= BLOCKING && vid != 0
    case VlanDel(port, vid, _) => port in ports
  }

  /** What the events ask for: states per port, states per (port, VLAN), VLANs that have a group, and
      the states of the default group. */
  datatype Model = Model(gl: PortStates, pv: map<(nat, nat), Uint8>, vlans: set<nat>, dflt: PortStates)

  function MembersOf(pv: map<(nat, nat), Uint8>, vid: nat): set<nat> {
    set q | q in pv && q.1 == vid :: q.0
  }

  function TrackedVlans(pv: map<(nat, nat), Uint8>): set<nat> {
    set q | q in pv :: q.1
  }

  function Step(m: Model, ev: Event): Model {
    match ev
    case PortState(port, state) => m.(gl := m.gl[port := state], dflt := m.dflt[port := state])
    case VlanAdd(port, vid, state, createRv, addRv) =>
      if Refused(TrackedVlans(m.pv), m.vlans, vid, createRv, addRv) then m
      else m.(pv := m.pv[(port, vid) := state], vlans := m.vlans + {vid})
    case VlanDel(port, vid, destroyRv) =>
      m.(pv := m.pv - {(port, vid)},
         vlans := if MembersOf(m.pv, vid) == {port} && destroyRv >= 0 then m.vlans - {vid} else m.vlans,
         dflt := if vid in m.vlans then m.dflt else m.dflt[port := FORWARDING])
  }

  /** Every key of the record belongs to a port. */
  ghost predicate KeysKnown(ports: set<nat>, pv: VlanStates) {
    forall p, v :: Tracked(pv, p, v) ==> exists k :: k in ports && Key(k) == Key(p)
  }

  /** The record of the bridge, port by port, is the record of the events. */
  ghost predicate Records(ports: set<nat>, pv: VlanStates, m: map<(nat, nat), Uint8>) {
    && (forall p: nat, v: nat :: p in ports ==> (Tracked(pv, p, v) <==> (p, v) in m))
    && (forall p: nat, v: nat :: p in ports && Tracked(pv, p, v) ==> pv[v][Key(p)] == m[(p, v)])
    && (forall q :: q in m ==> q.0 in ports)
    && pv.Keys == TrackedVlans(m) && KeysKnown(ports, pv)
  }

  ghost predicate DefaultsAre(gs: GroupStates, dflt: PortStates) {
    forall p: nat :: ((p, DEFAULT_STG) in gs <==> p in dflt) && (p in dflt ==> gs[(p, DEFAULT_STG)] == dflt[p])
  }

  ghost predicate Models(b: Bridge, ports: set<nat>, m: Model)
    reads b, b.sw
  {
    && b.glStates == m.gl && Records(ports, b.pvStates, m.pv)
    && b.sw.vlanToStg.Keys == m.vlans && DefaultsAre(b.sw.portState, m.dflt)
  }

  function Final(m: Model, events: seq<Event>): Model
    decreases |events|
  {
    if events == [] then m else Step(Final(m, events[..|events| - 1]), events[|events| - 1])
  }

  /** The port ids stay apart when they are truncated to sixteen bits. */
  ghost predicate Distinct(ports: set<nat>) {
    forall p, q :: p in ports && q in ports && p % 0x1_0000 == q % 0x1_0000 ==> p == q
  }

  lemma VlansAdd(m: map<(nat, nat), Uint8>, port: nat, vid: nat, state: Uint8)
    ensures TrackedVlans(m[(port, vid) := state]) == TrackedVlans(m) + {vid}
  {
    var m' := m[(port, vid) := state];
    assert (port, vid) in m';
    forall v | v in TrackedVlans(m) ensures v in TrackedVlans(m') {
      var q :| q in m && q.1 == v;
      assert q in m';
    }
  }

  lemma RecordsAdd(ports: set<nat>, pv: VlanStates, pv': VlanStates, m: map<(nat, nat), Uint8>, port: nat, vid: nat,
                   state: Uint8)
    requires Records(ports, pv, m) && OwnKey(ports, port) && EntrySet(pv, pv', port, vid, state)
    requires pv'.Keys == pv.Keys + {vid}
    ensures Records(ports, pv', m[(port, vid) := state])
  {
    VlansAdd(m, port, vid, state);
    hide TrackedVlans, Key;
  }

  /** A port is alone in its VLAN when the events left it alone there. */
  lemma AloneIn(ports: set<nat>, pv: VlanStates, m: map<(nat, nat), Uint8>, port: nat, vid: nat)
    requires Records(ports, pv, m) && OwnKey(ports, port)
    ensures Alone(pv, port, vid) <==> MembersOf(m, vid) == {port}
  {
    if Alone(pv, port, vid) {
      assert (port, vid) in m;
      forall p | p in MembersOf(m, vid) ensures p == port { assert (p, vid) in m; }
    }
    if MembersOf(m, vid) == {port} {
      assert (port, vid) in m;
      forall p | Tracked(pv, p, vid) ensures Key(p) == Key(port) {
        var k :| k in ports && Key(k) == Key(p);
        assert Tracked(pv, k, vid) && k in MembersOf(m, vid);
      }
    }
  }

  lemma RecordsDel(ports: set<nat>, pv: VlanStates, pv': VlanStates, m: map<(nat, nat), Uint8>, port: nat, vid: nat)
    requires Records(ports, pv, m) && OwnKey(ports, port) && EntryGone(pv, pv', port, vid)
    requires pv'.Keys == pv.Keys - (if Alone(pv, port, vid) then {vid} else {})
    requires Alone(pv, port, vid) <==> MembersOf(m, vid) == {port}
    ensures Records(ports, pv', m - {(port, vid)})
  {
    VlansDel(m, port, vid);
    hide TrackedVlans, MembersOf, Key, Alone;
  }

  lemma VlansDel(m: map<(nat, nat), Uint8>, port: nat, vid: nat)
    ensures TrackedVlans(m - {(port, vid)})
         == TrackedVlans(m) - (if MembersOf(m, vid) == {port} then {vid} else {})
  {
    var m' := m - {(port, vid)};
    forall v | v in TrackedVlans(m) && (v != vid || MembersOf(m, vid) != {port}) ensures v in TrackedVlans(m') {
      var q :| q in m && q.1 == v;
      if q == (port, vid) {
        assert port in MembersOf(m, vid);
        var p :| p in MembersOf(m, vid) && p != port;
        assert (p, vid) in m';
      } else {
        assert q in m';
      }
    }
    if MembersOf(m, vid) == {port} {
      forall q | q in m' ensures q.1 != vid { assert q.1 == vid ==> q.0 in MembersOf(m, vid); }
    }
  }

  lemma RecordsVlans(ports: set<nat>, pv: VlanStates, m: map<(nat, nat), Uint8>)
    requires Records(ports, pv, m)
    ensures pv.Keys == TrackedVlans(m)
  {
  }

  lemma DefaultsPort(gs: GroupStates, gs': GroupStates, dflt: PortStates, port: nat, state: Uint8, pv: VlanStates,
                     groups: map<nat, nat>)
    requires DefaultsAre(gs, dflt) && (port, DEFAULT_STG) in gs' && gs'[(port, DEFAULT_STG)] == state
    requires forall q :: q !in ShownAt(pv, groups, port) && q != (port, DEFAULT_STG) ==> SameAt(gs, gs', q)
    ensures DefaultsAre(gs', dflt[port := state])
  {
    forall p: nat | p != port ensures SameAt(gs, gs', (p, DEFAULT_STG)) {
      assert (p, DEFAULT_STG) !in ShownAt(pv, groups, port);
    }
  }

  /** A write to the group of a VLAN reaches the default group only when the VLAN has none. */
  lemma DefaultsVlan(gs: GroupStates, dflt: PortStates, groups: map<nat, nat>, port: nat, vid: nat, state: Uint8)
    requires DefaultsAre(gs, dflt) && forall v :: v in groups ==> groups[v] != DEFAULT_STG
    ensures DefaultsAre(gs[(port, GroupOf(groups, vid)) := state], if vid in groups then dflt else dflt[port := state])
  {
  }

  method OnPortState(b: Bridge, port: nat, state: Uint8, ghost ports: set<nat>, ghost m: Model)
    requires b.Valid() && b.InSync(ports) && state <= BLOCKING && Models(b, ports, m)
    modifies b, b.sw, b.sw.inUse
    ensures b.Valid() && b.InSync(ports) && Models(b, ports, Step(m, PortState(port, state)))
  {
    hide Records, DefaultsAre, SameAt, ShownAt, Bridge.Valid, Bridge.InSync;
    ghost var gs := b.sw.portState;
    b.SetPortStpState(port, state, ports);
    DefaultsPort(gs, b.sw.portState, m.dflt, port, state, b.pvStates, b.sw.vlanToStg);
  }

  method OnVlanAdd(b: Bridge, port: nat, vid: nat, state: Uint8, createRv: int, addRv: int,
                   ghost ports: set<nat>, ghost m: Model)
    requires b.Valid() && b.InSync(ports) && state <= BLOCKING && vid != 0 && OwnKey(ports, port)
    requires Models(b, ports, m)
    modifies b, b.sw, b.sw.inUse
    ensures b.Valid() && b.InSync(ports) && Models(b, ports, Step(m, VlanAdd(port, vid, state, createRv, addRv)))
  {
    hide Refused, Records, EntrySet, Effective, TrackedVlans, GroupsKept, DefaultsAre, OwnKey, Bridge.Valid,
         Bridge.InSync;
    ghost var pv, gs, groups := b.pvStates, b.sw.portState, b.sw.vlanToStg;
    RecordsVlans(ports, pv, m.pv);
    var rv := b.AddPortVlanStpState(port, vid, state, createRv, addRv, ports);
    if rv >= 0 {
      GroupsKeptKeys(groups, b.sw.vlanToStg, vid);
      RecordsAdd(ports, pv, b.pvStates, m.pv, port, vid, state);
      ValidGroups(b);
      DefaultsVlan(gs, m.dflt, b.sw.vlanToStg, port, vid, Effective(GlobalOf(b.glStates, port), state));
    }
  }

  method OnVlanDel(b: Bridge, port: nat, vid: nat, destroyRv: int, ghost ports: set<nat>, ghost m: Model)
    requires b.Valid() && b.InSync(ports) && OwnKey(ports, port) && Models(b, ports, m)
    modifies b, b.sw, b.sw.inUse
    ensures b.Valid() && b.InSync(ports) && Models(b, ports, Step(m, VlanDel(port, vid, destroyRv)))
  {
    ValidGroups(b);
    hide Records, EntryGone, Alone, MembersOf, GroupOf, DefaultsAre, OwnKey, Bridge.Valid, Bridge.InSync;
    ghost var pv, gs, groups := b.pvStates, b.sw.portState, b.sw.vlanToStg;
    AloneIn(ports, pv, m.pv, port, vid);
    var rv := b.DelPortVlanStpState(port, vid, destroyRv, ports);
    RecordsDel(ports, pv, b.pvStates, m.pv, port, vid);
    DefaultsVlan(gs, m.dflt, groups, port, vid, FORWARDING);
  }

  method Handle(b: Bridge, ev: Event, ghost ports: set<nat>, ghost m: Model)
    requires b.Valid() && b.InSync(ports) && EventOk(ports, ev) && Distinct(ports) && Models(b, ports, m)
    modifies b, b.sw, b.sw.inUse
    ensures b.Valid() && b.InSync(ports) && Models(b, ports, Step(m, ev))
  {
    DistinctKeys(ports);
    hide Bridge.Valid, Bridge.InSync, Models, Step, OwnKey, Distinct;
    match ev {
      case PortState(port, state) => OnPortState(b, port, state, ports, m);
      case VlanAdd(port, vid, state, createRv, addRv) =>
        OnVlanAdd(b, port, vid, state, createRv, addRv, ports, m);
      case VlanDel(port, vid, destroyRv) => OnVlanDel(b, port, vid, destroyRv, ports, m);
    }
  }

  lemma ValidGroups(b: Bridge)
    requires b.Valid()
    ensures forall v :: v in b.sw.vlanToStg ==> b.sw.vlanToStg[v] != DEFAULT_STG
  {
    OwnGroups(b.sw);
  }

  lemma DistinctKeys(ports: set<nat>)
    requires Distinct(ports)
    ensures forall p :: p in ports ==> OwnKey(ports, p)
  {
  }

  /** Every run, with group creation and destruction failing at will: the bridge tracks exactly the
      entries the events left, the switch shows the effective state of each of them in a group of the
      VLAN's own, and the default group shows what the events left there. */
  method Run(events: seq<Event>, ports: set<nat>) returns (b: Bridge)
    requires forall i :: 0 <= i < |events| ==> EventOk(ports, events[i])
    requires Distinct(ports)
    ensures fresh(b) && b.Valid()
    ensures Models(b, ports, Final(Model(map[], map[], {}, map[]), events))
    ensures var m := Final(Model(map[], map[], {}, map[]), events);
            forall q :: q in m.pv ==> Shows(b.sw.vlanToStg, b.sw.portState, q.0, q.1,
                                            Effective(GlobalOf(m.gl, q.0), m.pv[q]))
    ensures forall v :: v in b.pvStates ==> v in b.sw.vlanToStg
    ensures Injective(b.sw.vlanToStg)
  {
    b := new Bridge();
    ghost var m := Model(map[], map[], {}, map[]);
    for i := 0 to |events|
      invariant fresh(b) && fresh(b.sw) && fresh(b.sw.inUse)
      invariant b.Valid() && b.InSync(ports)
      invariant m == Final(Model(map[], map[], {}, map[]), events[..i]) && Models(b, ports, m)
    {
      hide Step, Bridge.Valid, Bridge.InSync, Models;
      assert events[..i + 1][..i] == events[..i];
      Handle(b, events[i], ports, m);
      m := Step(m, events[i]);
    }
    assert events[..|events|] == events;
  }
}
