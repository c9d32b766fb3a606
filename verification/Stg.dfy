/** Spanning-tree groups of the controller: which group a VLAN uses, the cyclic allocator,
    and the port states the switch holds per group. */
module Stg {
  import opened SetFacts

  const STG_COUNT: nat := 512
  const FIRST_STG: nat := 2     // 0 and 1 are reserved
  const DEFAULT_STG: nat := 1
  const ENOSPC := 28
  const EINVAL := 22

  const DISABLED := 0
  const LISTENING := 1
  const LEARNING := 2
  const FORWARDING := 3
  const BLOCKING := 4

  ghost predicate Injective(m: map<nat, nat>) {
    forall a, b :: a in m && b in m && m[a] == m[b] ==> a == b
  }

  lemma {:induction false} InjectiveRange(m: map<nat, nat>)
    requires Injective(m)
    ensures |m.Values| == |m|
  {
    if m == map[] {
      assert m.Values == {};
    } else {
      var k :| k in m;
      var rest := m - {k};
      assert m.Values == rest.Values + {m[k]} by {
        forall v | v in m.Values ensures v in rest.Values + {m[k]} {
          var j :| j in m && m[j] == v;
          if j != k { assert j in rest && rest[j] == v; }
        }
      }
      assert m[k] !in rest.Values;
      assert m.Keys == rest.Keys + {k};
      InjectiveRange(rest);
    }
  }

  function Slots(lo: nat, hi: nat): (s: set<nat>)
    ensures forall i :: i in s <==> lo <= i < hi
    decreases hi
  {
    if lo >= hi then {} else Slots(lo, hi - 1) + {hi - 1}
  }

  lemma {:induction false} SlotsSize(lo: nat, hi: nat)
    requires lo <= hi
    ensures |Slots(lo, hi)| == hi - lo
    decreases hi
  {
    if lo < hi {
      SlotsSize(lo, hi - 1);
    }
  }

  /** Pigeonhole: an injective map into the 510 slots leaves one free exactly when it has fewer entries. */
  lemma FreeSlot(m: map<nat, nat>)
    requires Injective(m) && forall v :: v in m ==> FIRST_STG <= m[v] < STG_COUNT
    ensures |m| <= STG_COUNT - FIRST_STG
    ensures |m| < STG_COUNT - FIRST_STG <==> exists i :: FIRST_STG <= i < STG_COUNT && i !in m.Values
  {
    InjectiveRange(m);
    SlotsSize(FIRST_STG, STG_COUNT);
    SubsetSize(m.Values, Slots(FIRST_STG, STG_COUNT));
    if forall i :: FIRST_STG <= i < STG_COUNT ==> i in m.Values {
      assert m.Values == Slots(FIRST_STG, STG_COUNT);
    }
  }

  class StgTable {
    var vlanToStg: map<nat, nat>
    var currentStg: nat
    const inUse: array<bool>
    /** Port states on the switch, by (port, group). */
    var portState: map<(nat, nat), nat>

    ghost predicate Valid()
      reads this, inUse
    {
      && inUse.Length == STG_COUNT
      && FIRST_STG <= currentStg < STG_COUNT
      && Injective(vlanToStg)
      && (forall v :: v in vlanToStg ==> FIRST_STG <= vlanToStg[v] < STG_COUNT)
      && (forall i :: 0 <= i < STG_COUNT ==> (inUse[i] <==> i in vlanToStg.Values))
    }

    constructor ()
      ensures Valid() && vlanToStg == map[] && portState == map[] && fresh(inUse)
    {
      vlanToStg := map[];
      currentStg := FIRST_STG;
      inUse := new bool[STG_COUNT](_ => false);
      portState := map[];
    }

    function Lookup(vlan: nat): (id: nat)
      requires Valid()
      reads this, inUse
      ensures id == 0 <==> vlan !in vlanToStg
    {
      if vlan in vlanToStg then vlanToStg[vlan] else 0
    }

    /** Steps the cyclic scan still has to take from slot `from` to slot `to`. */
    static function Distance(from: nat, to: nat): nat
      requires FIRST_STG <= from < STG_COUNT && FIRST_STG <= to < STG_COUNT
    {
      if from <= to then to - from else to + (STG_COUNT - FIRST_STG) - from
    }

    method FindFreeStgid() returns (id: int)
      requires Valid()
      modifies this`currentStg
      ensures Valid()
      ensures id == -ENOSPC <==> |vlanToStg| == 510
      ensures id != -ENOSPC ==> 2 <= id < 512 && id !in vlanToStg.Values && id == currentStg
      // the first free group from the current one on, going round
      ensures id != -ENOSPC ==>
                forall s: nat :: FIRST_STG <= s < STG_COUNT && s !in vlanToStg.Values ==>
                  Distance(old(currentStg), id) <= Distance(old(currentStg), s)
    {
      FreeSlot(vlanToStg);
      if |vlanToStg| == STG_COUNT - FIRST_STG {
        return -ENOSPC;
      }
      ghost var free: nat :| FIRST_STG <= free < STG_COUNT && free !in vlanToStg.Values;
      while inUse[currentStg]
        invariant FIRST_STG <= currentStg < STG_COUNT
        invariant forall s: nat :: FIRST_STG <= s < STG_COUNT && s !in vlanToStg.Values ==>
                    Distance(old(currentStg), currentStg) <= Distance(old(currentStg), s)
        decreases Distance(currentStg, free)
      {
        currentStg := currentStg + 1;
        if currentStg == STG_COUNT {
          currentStg := FIRST_STG;
        }
      }
      id := currentStg;
    }

    /** createRv and addRv are what the switch answers to the two requests. */
    method Create(vlan: nat, createRv: int, addRv: int) returns (rv: int)
      requires Valid()
      modifies this`currentStg, this`vlanToStg, inUse
      ensures Valid()
      ensures vlan in old(vlanToStg) ==> rv == old(vlanToStg)[vlan] && vlanToStg == old(vlanToStg)
      ensures vlan !in old(vlanToStg) && |old(vlanToStg)| == 510 ==> rv == -ENOSPC
      ensures vlan !in old(vlanToStg) && |old(vlanToStg)| != 510 ==>
                rv == if createRv < 0 then createRv else addRv
      ensures rv < 0 ==> vlanToStg == old(vlanToStg)
      ensures rv >= 0 ==> vlan in vlanToStg && vlanToStg == old(vlanToStg)[vlan := vlanToStg[vlan]]
      ensures rv >= 0 && vlan !in old(vlanToStg) ==> vlanToStg[vlan] == currentStg
    {
      var stg := Lookup(vlan);
      if stg != 0 {
        return stg;
      }
      var id := FindFreeStgid();
      FreeSlot(vlanToStg);
      if id < 0 {
        return id;
      }
      if createRv < 0 {
        return createRv;
      }
      if addRv < 0 {
        return addRv;
      }
      vlanToStg := vlanToStg[vlan := id];
      inUse[currentStg] := true;
      RangeAdd(old(vlanToStg), vlan, id);
      rv := addRv;
    }

    method Destroy(vlan: nat, destroyRv: int) returns (rv: int)
      requires Valid()
      modifies this`vlanToStg, inUse
      ensures Valid()
      ensures rv == if vlan !in old(vlanToStg) then 0 else destroyRv
      ensures vlanToStg == if rv < 0 then old(vlanToStg) else old(vlanToStg) - {vlan}
    {
      var stg := Lookup(vlan);
      if stg == 0 {
        assert vlanToStg - {vlan} == vlanToStg;
        return 0;
      }
      if destroyRv < 0 {
        return destroyRv;
      }
      vlanToStg := vlanToStg - {vlan};
      inUse[stg] := false;
      RangeRemove(old(vlanToStg), vlan);
      rv := destroyRv;
    }

    /** A successful port-state write; VLANs without a group fall back to the default group. */
    method StatePortSet(port: nat, vlan: nat, state: nat) returns (rv: int)
      requires Valid()
      modifies this`portState
      ensures state > BLOCKING ==> rv == -EINVAL && portState == old(portState)
      ensures state <= BLOCKING ==> rv == 0
      ensures state <= BLOCKING ==>
                portState == old(portState)[(port, if vlan in vlanToStg then vlanToStg[vlan] else DEFAULT_STG) := state]
    {
      var stg := Lookup(vlan);
      if stg == 0 {
        stg := DEFAULT_STG;
      }
      if state > BLOCKING {
        return -EINVAL;
      }
      portState := portState[(port, stg) := state];
      rv := 0;
    }
  }

  lemma RangeAdd(m: map<nat, nat>, k: nat, v: nat)
    requires k !in m
    ensures m[k := v].Values == m.Values + {v}
  {
    var m' := m[k := v];
    assert k in m' && m'[k] == v;
    forall x | x in m.Values ensures x in m'.Values {
      var j :| j in m && m[j] == x;
      assert j in m' && m'[j] == x;
    }
  }

  lemma RangeRemove(m: map<nat, nat>, k: nat)
    requires Injective(m) && k in m
    ensures (m - {k}).Values == m.Values - {m[k]}
  {
    var m' := m - {k};
    forall x | x in m.Values && x != m[k] ensures x in m'.Values {
      var j :| j in m && m[j] == x;
      assert j in m' && m'[j] == x;
    }
  }
}
