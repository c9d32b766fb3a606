/** The bridging half of the controller: flood groups, multicast groups and the order of the
    messages that keep the switch free of dangling references. Physical ports only. */
module L2Controller {
  import opened MacAddress
  import opened L2Switch
  import opened McGroups

  const EINVAL := 22

  function Ifaces(ports: set<nat>, vid: nat): set<Iface> {
    set p | p in ports :: Iface(p, vid)
  }

  /** Flood groups and DLF flows follow the recorded layer-2 domains. */
  ghost predicate FloodWired(dom: map<nat, set<nat>>, flood: map<nat, set<Iface>>, dlf: set<nat>) {
    && (forall v :: v in flood <==> v in dom && dom[v] != {})
    && (forall v :: v in flood ==> flood[v] == Ifaces(dom[v], v))
    && dlf == flood.Keys
  }

  /** Entries of one VLAN have distinct group indexes. */
  ghost predicate IndexesDistinct(l: seq<Entry>) {
    forall i, j :: 0 <= i < j < |l| && l[i].vid == l[j].vid ==> l[i].index != l[j].index
  }

  /** An enabled entry owns its group and flow, a disabled one has neither. */
  ghost predicate EntryWired(e: Entry, mc: map<(nat, nat), set<Iface>>, mcFlow: map<(Mac, nat), nat>) {
    if e.on == {} then (e.index, e.vid) !in mc && (e.mac, e.vid) !in mcFlow
    else (e.index, e.vid) in mc && mc[(e.index, e.vid)] == Ifaces(e.on, e.vid)
         && (e.mac, e.vid) in mcFlow && mcFlow[(e.mac, e.vid)] == e.index
  }

  ghost predicate EntriesWired(l: seq<Entry>, mc: map<(nat, nat), set<Iface>>, mcFlow: map<(Mac, nat), nat>) {
    forall i :: 0 <= i < |l| ==> EntryWired(l[i], mc, mcFlow)
  }

  predicate IsAt(e: Entry, g: (nat, nat)) { e.index == g.0 && e.vid == g.1 }

  /** Every group and flow on the switch belongs to an entry. */
  ghost predicate Owned(l: seq<Entry>, mc: map<(nat, nat), set<Iface>>, mcFlow: map<(Mac, nat), nat>) {
    && (forall g :: g in mc ==> exists i :: 0 <= i < |l| && IsAt(l[i], g))
    && (forall k :: k in mcFlow ==> exists i :: 0 <= i < |l| && IsFor(l[i], k.0, k.1))
  }

  ghost predicate McWired(l: seq<Entry>, mc: map<(nat, nat), set<Iface>>, mcFlow: map<(Mac, nat), nat>) {
    IndexesDistinct(l) && EntriesWired(l, mc, mcFlow) && Owned(l, mc, mcFlow)
  }

  class Controller {
    var l2Domain: map<nat, set<nat>>
    var mcGroups: seq<Entry>
    var sw: Switch
    ghost var log: seq<Msg>

    constructor ()
      ensures Valid() && l2Domain == map[] && mcGroups == [] && sw == EMPTY && log == []
    {
      l2Domain, mcGroups, sw, log := map[], [], EMPTY, [];
    }

    ghost predicate Streamed()
      reads this`sw, this`log
    {
      sw == Replay(log) && Sound(log)
    }

    ghost predicate Valid()
      reads this
    {
      && Streamed()
      && ListOk(mcGroups)
      && FloodWired(l2Domain, sw.flood, sw.dlf)
      && McWired(mcGroups, sw.mc, sw.mcFlow)
    }

    lemma SwClosed()
      requires Streamed()
      ensures Closed(sw)
    {
      assert log[..|log|] == log;
    }

    method Send(m: Msg)
      requires Streamed() && Closed(Apply(sw, m)) && (m.IfaceRemove? ==> Unnamed(sw, m.f))
      modifies this`sw, this`log
      ensures Streamed() && sw == Apply(old(sw), m) && log == old(log) + [m]
      ensures Proper(log) <==> Proper(old(log)) && Fits(old(sw), m)
      ensures Grounded(log) <==> Grounded(old(log)) && Rests(old(sw), m)
    {
      hide Sound, Replay, Proper, Grounded, Fits, Rests, Apply;
      SoundSend(log, m);
      Sent(log, m);
      sw := Apply(sw, m);
      log := log + [m];
    }

    // ----------------------------------------------------------- multicast

    /** The loop that picks the index of a new group. */
    method FreeIndex(vid: nat) returns (index: nat)
      ensures index == Scan(IndexesIn(mcGroups, vid), 1)
    {
      index := 1;
      assert mcGroups[0..] == mcGroups;
      for i := 0 to |mcGroups|
        invariant Scan(IndexesIn(mcGroups[i..], vid), index) == Scan(IndexesIn(mcGroups, vid), 1)
      {
        var e := mcGroups[i];
        ghost var rest := IndexesIn(mcGroups[i + 1..], vid);
        assert mcGroups[i..][1..] == mcGroups[i + 1..] && mcGroups[i..][0] == e;
        assert ([e.index] + rest)[1..] == rest && [] + rest == rest;
        if e.vid == vid {
          if index == e.index {
            index := index + 1;
          }
        }
      }
    }

    /** Add a multicast group or modify one. */
    method SetGroup(index: nat, vid: nat, members: set<Iface>, update: bool)
      requires Streamed()
      modifies this`sw, this`log
      ensures Streamed() && old(log) <= log
      ensures sw == old(sw).(mc := old(sw.mc)[(index, vid) := members])
      ensures Proper(log) <==> Proper(old(log)) && (update <==> (index, vid) in old(sw.mc))
      ensures Grounded(log) <==> Grounded(old(log)) && members <= sw.ifaces.Keys
    {
      hide Sound, Replay, Proper, Grounded;
      SwClosed();
      if update {
        Send(McModify(index, vid, members));
      } else {
        Send(McAdd(index, vid, members));
      }
    }

    /** Write the group of an entry, and its flow when it has its first member. For entry i of a wired list
        this makes the list with the entry in place wired. */
    method PublishGroup(e: Entry, ghost l: seq<Entry>, ghost i: nat)
      requires Streamed() && e.on != {} && i < |l|
      modifies this`sw, this`log
      ensures Streamed() && old(log) <= log
      ensures sw == old(sw).(mc := sw.mc, mcFlow := sw.mcFlow)
      ensures Publishing(l, i, e, old(sw.mc), old(sw.mcFlow)) ==> McWired(l[i := e], sw.mc, sw.mcFlow)
      ensures Publishing(l, i, e, old(sw.mc), old(sw.mcFlow)) && (|e.on| == 1 ==> l[i].on == {}) && Proper(old(log)) ==>
                Proper(log)
      ensures Grounded(log) <==> Grounded(old(log)) && Ifaces(e.on, e.vid) <= sw.ifaces.Keys
    {
      hide Sound, Replay, Proper, Grounded, Owned, IndexesDistinct, KeysOnce, EntriesWired;
      if Publishing(l, i, e, sw.mc, sw.mcFlow) { WiredAt(l, i, sw.mc, sw.mcFlow); }
      SetGroup(e.index, e.vid, Ifaces(e.on, e.vid), |e.on| > 1);
      if |e.on| == 1 {
        AddMcFlow(e.mac, e.vid, e.index);
      }
      if Publishing(l, i, e, old(sw.mc), old(sw.mcFlow)) {
        McReplace(l, i, e, old(sw.mc), old(sw.mcFlow), sw.mc, sw.mcFlow);
      }
    }

    method AddMcFlow(mac: Mac, vid: nat, index: nat)
      requires Streamed() && (index, vid) in sw.mc
      modifies this`sw, this`log
      ensures Streamed() && old(log) <= log && sw == old(sw).(mcFlow := old(sw.mcFlow)[(mac, vid) := index])
      ensures Proper(log) <==> Proper(old(log)) && (mac, vid) !in old(sw.mcFlow)
      ensures Grounded(log) <==> Grounded(old(log))
    {
      hide Sound, Replay, Proper, Grounded;
      SwClosed();
      Send(McFlowAdd(mac, vid, index));
    }

    /** In a grounded stream the members of an entry have their interface groups. */
    lemma JoinRests(l: seq<Entry>, i: nat, port: nat, vid: nat)
      requires Streamed() && McWired(l, sw.mc, sw.mcFlow) && l == mcGroups && (i < |l| ==> l[i].vid == vid)
      ensures i < |l| && Grounded(log) ==>
                (Ifaces(l[i].on + {port}, vid) <= sw.ifaces.Keys <==> Iface(port, vid) in sw.ifaces)
      ensures i < |l| && Grounded(log) ==> Ifaces(l[i].on, vid) <= sw.ifaces.Keys
      ensures Ifaces({port}, vid) == {Iface(port, vid)}
    {
      if i < |l| && Grounded(log) {
        GroundedStands(log);
        WiredAt(l, i, sw.mc, sw.mcFlow);
        hide Sound, Replay, Grounded, Owned, EntriesWired;
        IfacesAdd(l[i].on, port, vid);
      }
    }

    /** The member is enabled. Everything is in place afterwards if and only if a new group got a free index. */
    method L2MulticastGroupJoin(m: Member)
      requires Valid()
      modifies this`sw, this`log, this`mcGroups
      ensures Streamed() && ListOk(mcGroups) && FloodWired(l2Domain, sw.flood, sw.dlf) && old(log) <= log
      ensures mcGroups == Joined(old(mcGroups), m)
      ensures Valid() <==> JoinFresh(old(mcGroups), m)
      ensures sw == old(sw).(mc := sw.mc, mcFlow := sw.mcFlow)
      ensures Proper(old(log)) && !Enabled(old(mcGroups), m) && JoinFresh(old(mcGroups), m) ==> Proper(log)
      ensures Grounded(log) <==> Grounded(old(log)) && Iface(m.port, m.vid) in sw.ifaces
    {
      hide Sound, Replay, Proper, Grounded, McWired, ListOk, FreshIndex;
      var i := Position(mcGroups, m.mac, m.vid);
      JoinedOk(mcGroups, m);
      KeysOf(mcGroups);
      JoinRests(mcGroups, i, m.port, m.vid);
      if i < |mcGroups| {
        var e := JoinEntry(mcGroups[i], m.port);
        OneOrMore(mcGroups[i].on, m.port);
        PublishGroup(e, mcGroups, i);
        mcGroups := mcGroups[i := e];
      } else {
        var index := FreeIndex(m.vid);
        var e := Entry(m.mac, m.vid, index, {m.port}, {});
        ghost var blank := e.(on := {});
        ghost var l := mcGroups + [blank];
        JoinedIndexes(mcGroups, m);
        if JoinFresh(mcGroups, m) { BlankWired(mcGroups, blank, sw.mc, sw.mcFlow); }
        assert l[i := e] == mcGroups + [e];
        PublishGroup(e, l, i);
        mcGroups := mcGroups + [e];
        WiredIndexes(mcGroups, sw.mc, sw.mcFlow);
      }
    }

    /** The group of entry i loses a member; the last one takes flow and group along. */
    method WithdrawGroup(i: nat, e: Entry)
      requires Streamed() && KeysOnce(mcGroups) && McWired(mcGroups, sw.mc, sw.mcFlow) && i < |mcGroups|
      requires e.index == mcGroups[i].index && e.vid == mcGroups[i].vid && e.mac == mcGroups[i].mac
      requires mcGroups[i].on != {} && e.on <= mcGroups[i].on
      modifies this`sw, this`log
      ensures Streamed() && old(log) <= log
      ensures McWired(mcGroups[i := e], sw.mc, sw.mcFlow)
      ensures sw == old(sw).(mc := sw.mc, mcFlow := sw.mcFlow) && Tidy(old(log), log)
    {
      hide Sound, Replay, Proper, Grounded, Owned, IndexesDistinct, KeysOnce, EntriesWired, Closed, Ifaces;
      WiredAt(mcGroups, i, sw.mc, sw.mcFlow);
      if e.on != {} {
        ShrinkGroup(i, e);
      } else {
        RemoveGroup(i, e);
      }
      McReplace(mcGroups, i, e, old(sw.mc), old(sw.mcFlow), sw.mc, sw.mcFlow);
    }

    method ShrinkGroup(i: nat, e: Entry)
      requires Streamed() && McWired(mcGroups, sw.mc, sw.mcFlow) && i < |mcGroups|
      requires e.index == mcGroups[i].index && e.vid == mcGroups[i].vid && e.on <= mcGroups[i].on
      requires (e.index, e.vid) in sw.mc
      modifies this`sw, this`log
      ensures Streamed() && old(log) <= log
      ensures sw == old(sw).(mc := old(sw.mc)[(e.index, e.vid) := Ifaces(e.on, e.vid)]) && Tidy(old(log), log)
    {
      hide Sound, Replay, Proper, Grounded, McWired;
      JoinRests(mcGroups, i, 0, e.vid);
      IfacesFewer(e.on, mcGroups[i].on, e.vid);
      hide Ifaces;
      SetGroup(e.index, e.vid, Ifaces(e.on, e.vid), true);
    }

    /** Flow first, then the group nothing names any more. */
    method RemoveGroup(i: nat, e: Entry)
      requires Streamed() && KeysOnce(mcGroups) && McWired(mcGroups, sw.mc, sw.mcFlow) && i < |mcGroups|
      requires e.index == mcGroups[i].index && e.vid == mcGroups[i].vid && e.mac == mcGroups[i].mac
      modifies this`sw, this`log
      ensures Streamed() && old(log) <= log
      ensures sw == old(sw).(mc := old(sw.mc) - {(e.index, e.vid)}, mcFlow := old(sw.mcFlow) - {(e.mac, e.vid)})
      ensures Tidy(old(log), log)
    {
      hide Sound, Replay, Proper, Grounded, McWired, KeysOnce;
      forall k | k in sw.mcFlow && sw.mcFlow[k] == e.index && k.1 == e.vid ensures k == (e.mac, e.vid) {
        FlowOfGroup(mcGroups, i, sw.mc, sw.mcFlow, k);
      }
      DropMcFlow(e.mac, e.vid);
      DropMcGroup(e.index, e.vid);
    }

    method DropMcFlow(mac: Mac, vid: nat)
      requires Streamed()
      modifies this`sw, this`log
      ensures Streamed() && Tidy(old(log), log) && sw == old(sw).(mcFlow := old(sw.mcFlow) - {(mac, vid)})
    {
      hide Sound, Replay, Proper, Grounded;
      SwClosed();
      Send(McFlowRemove(mac, vid));
    }

    method DropMcGroup(index: nat, vid: nat)
      requires Streamed() && forall k :: k in sw.mcFlow && k.1 == vid ==> sw.mcFlow[k] != index
      modifies this`sw, this`log
      ensures Streamed() && Tidy(old(log), log) && sw == old(sw).(mc := old(sw.mc) - {(index, vid)})
    {
      hide Sound, Replay, Proper, Grounded;
      SwClosed();
      Send(McRemove(index, vid));
    }

    method L2MulticastGroupLeave(m: Member, disableOnly: bool) returns (rv: int)
      requires Valid()
      modifies this`sw, this`log, this`mcGroups
      ensures Valid() && old(log) <= log
      ensures sw == old(sw).(mc := sw.mc, mcFlow := sw.mcFlow)
      ensures !disableOnly ==> mcGroups == Left(old(mcGroups), m)
      ensures rv == 0 <==> if disableOnly then Enabled(old(mcGroups), m) else Registered(old(mcGroups), m)
      ensures disableOnly ==>
                var i := Position(old(mcGroups), m.mac, m.vid);
                mcGroups == if i < |old(mcGroups)| then old(mcGroups)[i := Disable(old(mcGroups)[i], m.port, m.vid)]
                            else old(mcGroups)
      ensures rv == 0 || rv == -EINVAL
      ensures Tidy(old(log), log)
    {
      hide Sound, Replay, Proper, Grounded, McWired, ListOk;
      var i := Position(mcGroups, m.mac, m.vid);
      RegisteredAt(mcGroups, m);
      LeftOk(mcGroups, m);
      KeysOf(mcGroups);
      if i == |mcGroups| {
        return -EINVAL;
      }
      var e := mcGroups[i];
      EntryAt(mcGroups, i);
      if m.port !in e.on {
        if disableOnly {
          assert mcGroups[i := Disable(mcGroups[i], m.port, m.vid)] == mcGroups;
          return -EINVAL;
        }
        if m.port !in e.off {
          assert LeaveEntry(e, m.port) == e && mcGroups[i := e] == mcGroups;
          return -EINVAL;
        }
        var e' := e.(off := e.off - {m.port});
        assert e' == LeaveEntry(e, m.port);
        WiredSameOn(mcGroups, i, e', sw.mc, sw.mcFlow);
        mcGroups := mcGroups[i := e'];
        if e'.on == {} && e'.off == {} {
          McErase(mcGroups, i, sw.mc, sw.mcFlow);
          mcGroups := mcGroups[..i] + mcGroups[i + 1..];
          assert mcGroups == Left(old(mcGroups), m);
        }
        return 0;
      }
      var e' := e.(on := e.on - {m.port}, off := if disableOnly then e.off + {m.port} else e.off);
      WithdrawGroup(i, e');
      ghost var l := mcGroups;
      mcGroups := mcGroups[i := e'];
      if disableOnly {
        DisableOk(l, i, m.port);
      } else {
        assert e' == LeaveEntry(e, m.port) by { assert e.off - {m.port} == e.off; }
      }
      if e'.on == {} && e'.off == {} {
        McErase(mcGroups, i, sw.mc, sw.mcFlow);
        mcGroups := mcGroups[..i] + mcGroups[i + 1..];
        assert mcGroups == Left(l, m);
      }
      rv := 0;
    }

    /** The port leaves the VLAN: its memberships there are kept, but disabled. */
    method L2MulticastGroupLeaveAllInVlan(port: nat, vid: nat)
      requires Valid()
      modifies this`sw, this`log, this`mcGroups
      ensures Valid() && old(log) <= log
      ensures sw == old(sw).(mc := sw.mc, mcFlow := sw.mcFlow)
      ensures |mcGroups| == |old(mcGroups)|
      ensures forall i :: 0 <= i < |mcGroups| ==> mcGroups[i] == Disable(old(mcGroups)[i], port, vid)
      ensures forall m :: Active(mcGroups, m) <==> Active(old(mcGroups), m) && !Places(m, port, vid)
      ensures forall g :: g in sw.mc ==> Iface(port, vid) !in sw.mc[g]
      ensures RegOf(mcGroups) == RegOf(old(mcGroups)) && Tidy(old(log), log)
    {
      hide Active, EntryOk, Streamed, McWired, ListOk, FloodWired, KeysOnce, Proper, Grounded;
      for i := 0 to |mcGroups|
        invariant Valid() && Tidy(old(log), log)
        invariant sw == old(sw).(mc := sw.mc, mcFlow := sw.mcFlow)
        invariant |mcGroups| == |old(mcGroups)|
        invariant forall j :: 0 <= j < i ==> mcGroups[j] == Disable(old(mcGroups)[j], port, vid)
        invariant forall j :: i <= j < |mcGroups| ==> mcGroups[j] == old(mcGroups)[j]
      {
        var e := mcGroups[i];
        if e.vid == vid && port in e.on {
          KeysOf(mcGroups);
          PositionAt(mcGroups, i);
          var rv := L2MulticastGroupLeave(Member(port, vid, e.mac), true);
        }
      }
      NoGroupNames(mcGroups, sw.mc, sw.mcFlow, port, vid);
      DisabledAll(old(mcGroups), mcGroups, port, vid);
      RegPointwise(old(mcGroups), mcGroups, port, vid);
    }

    /** The port is back in the VLAN: disabled memberships become active again. */
    method L2MulticastGroupRejoinAllInVlan(port: nat, vid: nat)
      requires Valid()
      modifies this`sw, this`log, this`mcGroups
      ensures Valid() && old(log) <= log
      ensures sw == old(sw).(mc := sw.mc, mcFlow := sw.mcFlow)
      ensures |mcGroups| == |old(mcGroups)|
      ensures forall i :: 0 <= i < |mcGroups| ==> mcGroups[i] == Enable(old(mcGroups)[i], port, vid)
      ensures forall m :: Active(mcGroups, m)
                     <==> Active(old(mcGroups), m) || (Places(m, port, vid) && Registered(old(mcGroups), m))
      ensures RegOf(mcGroups) == RegOf(old(mcGroups))
      ensures Iface(port, vid) in sw.ifaces ==> Tidy(old(log), log)
    {
      hide Active, Registered, Streamed, McWired, ListOk, FloodWired, KeysOnce, FreshIndex, Proper, Grounded, EntryOk;
      for i := 0 to |mcGroups|
        invariant Valid() && old(log) <= log && (Iface(port, vid) in sw.ifaces ==> Tidy(old(log), log))
        invariant sw == old(sw).(mc := sw.mc, mcFlow := sw.mcFlow)
        invariant |mcGroups| == |old(mcGroups)|
        invariant forall j :: 0 <= j < i ==> mcGroups[j] == Enable(old(mcGroups)[j], port, vid)
        invariant forall j :: i <= j < |mcGroups| ==> mcGroups[j] == old(mcGroups)[j]
      {
        var e := mcGroups[i];
        if e.vid == vid && port in e.off {
          KeysOf(mcGroups);
          PositionAt(mcGroups, i);
          OffNotOn(mcGroups, i, port);
          L2MulticastGroupJoin(Member(port, vid, e.mac));
        }
      }
      EnabledAll(old(mcGroups), mcGroups, port, vid);
      RegPointwise(old(mcGroups), mcGroups, port, vid);
    }

    /** A VLAN goes and comes back on a port: every membership is restored exactly when the port
        was not disabled in the VLAN before. */
    method LeaveAndRejoin(port: nat, vid: nat) returns (between: seq<Entry>)
      requires Valid()
      modifies this`sw, this`log, this`mcGroups
      ensures Valid() && old(log) <= log
      ensures forall m :: Active(between, m) <==> Active(old(mcGroups), m) && !Places(m, port, vid)
      ensures forall m :: Active(mcGroups, m)
                     <==> if Places(m, port, vid) then Registered(old(mcGroups), m) else Active(old(mcGroups), m)
      ensures mcGroups == old(mcGroups) <==> forall e :: e in old(mcGroups) && e.vid == vid ==> port !in e.off
    {
      hide Streamed, McWired, FloodWired, KeysOnce, Active, Registered, RegOf;
      ghost var l := mcGroups;
      L2MulticastGroupLeaveAllInVlan(port, vid);
      between := mcGroups;
      SameMembers(l, between);
      L2MulticastGroupRejoinAllInVlan(port, vid);
      forall i | 0 <= i < |l| ensures mcGroups[i] == l[i] <==> !(l[i].vid == vid && port in l[i].off) {
        EntryAt(l, i);
        OffOnRoundTrip(l[i], port, vid);
      }
    }

    lemma ValidList()
      requires Valid()
      ensures ListOk(mcGroups)
    {
    }

    /** The walk over the old and the new multicast database entries of the bridge. */
    method MdbUpdate(old_: seq<Member>, new_: seq<Member>)
      requires Valid() && FreshRun(mcGroups, Diff(old_, new_)) && Sorted(old_) && Sorted(new_)
      modifies this`sw, this`log, this`mcGroups
      ensures Valid() && old(log) <= log
      ensures sw == old(sw).(mc := sw.mc, mcFlow := sw.mcFlow)
      ensures mcGroups == ApplyOps(old(mcGroups), Diff(old_, new_))
      ensures (forall m :: Registered(old(mcGroups), m) <==> m in old_) ==>
                && (forall m :: Registered(mcGroups, m) <==> m in new_)
                && (forall m :: Active(mcGroups, m) <==> m in new_ && (m !in old_ || Active(old(mcGroups), m)))
      ensures Proper(old(log)) && (forall m :: Registered(old(mcGroups), m) <==> m in old_) ==> Proper(log)
      ensures Grounded(log) <==> Grounded(old(log)) && Housed(old_, new_, |new_|, sw.ifaces)
    {
      hide Streamed, McWired, ListOk, FloodWired, JoinFresh, Joined, Left, Proper, Grounded, Registered, Active, Less,
           Enabled;
      ghost var exact := forall m :: Registered(mcGroups, m) <==> m in old_;
      var i, j := 0, 0;
      assert old_[0..] == old_ && new_[0..] == new_;
      while i < |old_| || j < |new_|
        invariant i <= |old_| && j <= |new_|
        invariant Valid() && old(log) <= log
        invariant sw == old(sw).(mc := sw.mc, mcFlow := sw.mcFlow)
        invariant ApplyOps(mcGroups, Diff(old_[i..], new_[j..])) == ApplyOps(old(mcGroups), Diff(old_, new_))
        invariant FreshRun(mcGroups, Diff(old_[i..], new_[j..]))
        invariant i > 0 && j < |new_| ==> Less(old_[i - 1], new_[j])
        invariant exact ==> forall m :: Registered(mcGroups, m) ==> m in old_ || m in new_[..j]
        invariant Proper(old(log)) && exact ==> Proper(log)
        invariant Grounded(log) <==> Grounded(old(log)) && Housed(old_, new_, j, sw.ifaces)
        decreases |old_| - i + |new_| - j
      {
        MergeFacts(old_, new_, i, j);
        ghost var ops := Diff(old_[i..], new_[j..]);
        if i < |old_| { assert old_[i..][1..] == old_[i + 1..]; }
        if j < |new_| { assert new_[j..][1..] == new_[j + 1..]; }
        if j == |new_| || (i < |old_| && Less(old_[i], new_[j])) {
          assert ops == [LeaveOp(old_[i])] + Diff(old_[i + 1..], new_[j..])
                 && ops[1..] == Diff(old_[i + 1..], new_[j..]);
          ValidList();
          LeftOk(mcGroups, old_[i]);
          var rv := L2MulticastGroupLeave(old_[i], false);
          i := i + 1;
        } else if i == |old_| || Less(new_[j], old_[i]) {
          assert ops == [JoinOp(new_[j])] + Diff(old_[i..], new_[j + 1..])
                 && ops[1..] == Diff(old_[i..], new_[j + 1..]);
          ValidList();
          JoinedOk(mcGroups, new_[j]);
          if Enabled(mcGroups, new_[j]) { EnabledRegistered(mcGroups, new_[j]); }
          L2MulticastGroupJoin(new_[j]);
          j := j + 1;
        } else {
          i, j := i + 1, j + 1;
        }
      }
      if forall m :: Registered(old(mcGroups), m) <==> m in old_ {
        DiffTakesOldToNew(old(mcGroups), old_, new_);
      }
    }

    /** The calls of an update in which a new group meets a used index, up to that join: every entry before it
        has a group of its own, and with it one group serves two entries. */
    method UpdateUntilCollision(ops: seq<Op>) returns (n: nat)
      requires Valid() && !FreshRun(mcGroups, ops)
      modifies this`sw, this`log, this`mcGroups
      ensures Streamed() && ListOk(mcGroups) && FloodWired(l2Domain, sw.flood, sw.dlf) && old(log) <= log
      ensures sw == old(sw).(mc := sw.mc, mcFlow := sw.mcFlow)
      ensures 0 < n <= |ops| && mcGroups == ApplyOps(old(mcGroups), ops[..n])
      ensures FreshRun(old(mcGroups), ops[..n - 1]) && !FreshRun(old(mcGroups), ops[..n])
      ensures !Valid()
    {
      hide Streamed, McWired, ListOk, FloodWired, JoinFresh, Joined, Left, Tidy;
      n := 0;
      assert ops[0..] == ops && ops[..0] == [];
      while n < |ops| && (ops[n].JoinOp? ==> JoinFresh(mcGroups, ops[n].m))
        invariant n <= |ops| && Valid() && old(log) <= log && sw == old(sw).(mc := sw.mc, mcFlow := sw.mcFlow)
        invariant mcGroups == ApplyOps(old(mcGroups), ops[..n])
        invariant FreshRun(old(mcGroups), ops[..n]) && !FreshRun(mcGroups, ops[n..])
      {
        assert ops[n..][1..] == ops[n + 1..] && ops[..n + 1] == ops[..n] + [ops[n]];
        ApplyLast(old(mcGroups), ops[..n], ops[n]);
        match ops[n] {
          case JoinOp(m) => L2MulticastGroupJoin(m);
          case LeaveOp(m) => var rv := L2MulticastGroupLeave(m, false);
        }
        n := n + 1;
      }
      assert ops[..n + 1] == ops[..n] + [ops[n]];
      ApplyLast(old(mcGroups), ops[..n], ops[n]);
      L2MulticastGroupJoin(ops[n].m);
      n := n + 1;
    }

    // ------------------------------------------------------------ flooding

    /** Add a flood group or modify one. */
    method SetFlood(vid: nat, members: set<Iface>, update: bool)
      requires Streamed() && members <= sw.ifaces.Keys
      modifies this`sw, this`log
      ensures Streamed() && old(log) <= log && sw == old(sw).(flood := old(sw.flood)[vid := members])
      ensures Proper(log) <==> Proper(old(log)) && (update <==> vid in old(sw.flood))
      ensures Grounded(log) <==> Grounded(old(log))
    {
      hide Sound, Replay, Proper, Grounded;
      SwClosed();
      if update {
        Send(FloodModify(vid, members));
      } else {
        Send(FloodAdd(vid, members));
      }
    }

    method EgressBridgePortVlanAdd(port: nat, vid: nat, untagged: bool)
      requires Valid()
      modifies this`sw, this`log, this`l2Domain
      ensures Valid() && old(log) <= log
      ensures l2Domain == old(l2Domain)[vid := PortsOf(old(l2Domain), vid) + {port}]
      ensures sw.ifaces == old(sw.ifaces)[Iface(port, vid) := untagged]
      ensures sw.ingress == old(sw.ingress) && sw.mc == old(sw.mc) && sw.mcFlow == old(sw.mcFlow)
              && sw.uni == old(sw.uni)
      ensures Iface(port, vid) !in old(sw.ifaces) && port !in PortsOf(old(l2Domain), vid) ==> Tidy(old(log), log)
      ensures Grounded(log) <==> Grounded(old(log))
    {
      hide ListOk, McWired, Sound, Replay, Proper, Grounded, FloodWired, Ifaces, PortsOf;
      SwClosed();
      ghost var dom0, flood0, ifaces0 := l2Domain, sw.flood, sw.ifaces;
      Send(IfaceAdd(Iface(port, vid), untagged));
      var dom := PortsOf(l2Domain, vid) + {port};
      l2Domain := l2Domain[vid := dom];
      FloodGrows(dom0, flood0, sw.dlf, port, vid);
      FloodMembers(dom0, flood0, sw.dlf, ifaces0.Keys, port, vid);
      SwClosed();
      if |dom| == 1 { FirstOfDomain(dom0, flood0, sw.dlf, port, vid); }
      SetFlood(vid, Ifaces(dom, vid), |dom| != 1);
      SwClosed();
      if |dom| == 1 {
        Send(DlfAdd(vid));
      }
    }

    method EgressBridgePortVlanRemove(port: nat, vid: nat)
      requires Valid()
      requires forall g :: g in sw.mc ==> Iface(port, vid) !in sw.mc[g]
      requires forall k :: k in sw.uni ==> !(k.1 == vid && sw.uni[k] == port)
      modifies this`sw, this`log, this`l2Domain
      ensures Valid() && old(log) <= log
      ensures vid !in old(l2Domain) ==> l2Domain == old(l2Domain) && sw == old(sw)
      ensures vid in old(l2Domain) ==> l2Domain == old(l2Domain)[vid := old(l2Domain)[vid] - {port}]
                                       && sw.ifaces == old(sw.ifaces) - {Iface(port, vid)}
      ensures sw.ingress == old(sw.ingress) && sw.mc == old(sw.mc) && sw.mcFlow == old(sw.mcFlow)
              && sw.uni == old(sw.uni)
      ensures Tidy(old(log), log)
    {
      hide ListOk, McWired, Sound, Replay, Proper, Grounded, FloodWired;
      SwClosed();
      if vid !in l2Domain {
        return;
      }
      var dom := l2Domain[vid] - {port};
      FloodShrinks(l2Domain, sw.flood, sw.dlf, port, vid);
      l2Domain := l2Domain[vid := dom];
      if dom != {} {
        SetFlood(vid, Ifaces(dom, vid), true);
      } else {
        Send(DlfRemove(vid));
        SwClosed();
        Send(FloodRemove(vid));
      }
      SwClosed();
      Send(IfaceRemove(Iface(port, vid)));
    }

    /** A unicast flow; a changed one is removed first, because the port is part of its cookie. */
    method L2AddrAdd(port: nat, vid: nat, mac: Mac, update: bool)
      requires Valid()
      modifies this`sw, this`log
      ensures Valid() && sw == old(sw).(uni := old(sw.uni)[(mac, vid) := port])
      ensures log == old(log) + (if update then [UniRemove(mac, vid)] else []) + [UniAdd(mac, vid, port)]
      ensures Proper(old(log)) ==> Proper(log)
      ensures Grounded(log) <==> Grounded(old(log)) && Iface(port, vid) in sw.ifaces
    {
      hide ListOk, McWired, Sound, Replay, Proper, Grounded, FloodWired;
      SwClosed();
      if update {
        Send(UniRemove(mac, vid));
        SwClosed();
      }
      Send(UniAdd(mac, vid, port));
    }

    /** Drop every unicast flow of the VLAN that points at the port. */
    method L2AddrRemoveAllInVlan(port: nat, vid: nat)
      requires Valid()
      modifies this`sw, this`log
      ensures Valid() && Tidy(old(log), log)
      ensures sw == old(sw).(uni := sw.uni) && Forgotten(old(sw.uni), sw.uni, port, {vid})
    {
      hide ListOk, McWired, Sound, Replay, Proper, Grounded, FloodWired;
      SwClosed();
      Send(UniRemoveAll(port, vid));
    }

    /** Change the tagging of an existing interface group. */
    method EgressPortVlanUpdate(port: nat, vid: nat, untagged: bool)
      requires Valid() && Iface(port, vid) in sw.ifaces
      modifies this`sw, this`log
      ensures Valid() && Tidy(old(log), log) && sw == old(sw).(ifaces := old(sw.ifaces)[Iface(port, vid) := untagged])
    {
      hide ListOk, McWired, Sound, Replay, Proper, Grounded, FloodWired;
      SwClosed();
      assert sw.ifaces[Iface(port, vid) := untagged].Keys == sw.ifaces.Keys;
      Send(IfaceModify(Iface(port, vid), untagged));
    }

    method IngressPortVlanAdd(port: nat, vid: nat)
      requires Valid()
      modifies this`sw, this`log
      ensures Valid() && Tidy(old(log), log) && sw == old(sw).(ingress := old(sw.ingress) + {Iface(port, vid)})
    {
      hide ListOk, McWired, Sound, Replay, Proper, Grounded, FloodWired;
      SwClosed();
      Send(IngressAdd(Iface(port, vid)));
    }

    method IngressPortVlanRemove(port: nat, vid: nat)
      requires Valid()
      modifies this`sw, this`log
      ensures Valid() && Tidy(old(log), log) && sw == old(sw).(ingress := old(sw.ingress) - {Iface(port, vid)})
    {
      hide ListOk, McWired, Sound, Replay, Proper, Grounded, FloodWired;
      SwClosed();
      Send(IngressRemove(Iface(port, vid)));
    }
  }

  /** Exactly the unicast flows of these VLANs that point at the port are gone. */
  ghost predicate Forgotten(uni: map<(Mac, nat), nat>, uni': map<(Mac, nat), nat>, port: nat, vids: set<nat>) {
    && (forall k :: k in uni' <==> k in uni && !(uni[k] == port && k.1 in vids))
    && (forall k :: k in uni' ==> uni'[k] == uni[k])
  }

  // ------------------------------------------------------- multicast lemmas

  /** m's port is an enabled member of its group. */
  predicate Enabled(l: seq<Entry>, m: Member) {
    var i := Position(l, m.mac, m.vid);
    i < |l| && m.port in l[i].on
  }

  lemma EnabledRegistered(l: seq<Entry>, m: Member)
    requires Enabled(l, m)
    ensures Registered(l, m)
  {
  }

  lemma OffNotOn(l: seq<Entry>, i: nat, port: nat)
    requires ListOk(l) && i < |l| && port in l[i].off
    ensures !Enabled(l, Member(port, l[i].vid, l[i].mac))
  {
  }

  /** The switch delivers the group of m to m's port. */
  ghost predicate Delivers(sw: Switch, m: Member) {
    && (m.mac, m.vid) in sw.mcFlow && (sw.mcFlow[(m.mac, m.vid)], m.vid) in sw.mc
    && Iface(m.port, m.vid) in sw.mc[(sw.mcFlow[(m.mac, m.vid)], m.vid)]
  }

  /** The switch delivers to exactly the enabled members. */
  lemma DeliversActive(l: seq<Entry>, sw: Switch, m: Member)
    requires ListOk(l) && McWired(l, sw.mc, sw.mcFlow)
    ensures Delivers(sw, m) <==> Active(l, m)
  {
    hide IndexesDistinct;
    if Active(l, m) {
      var i :| 0 <= i < |l| && IsOn(l[i], m);
      assert EntryWired(l[i], sw.mc, sw.mcFlow);
    }
    if Delivers(sw, m) {
      var i :| 0 <= i < |l| && IsFor(l[i], m.mac, m.vid);
      assert EntryWired(l[i], sw.mc, sw.mcFlow) && IsOn(l[i], m);
    }
  }

  /** Nothing is there for nobody: a flow has a group with a member, a group serves one flow, and groups hold
      interface groups of their own VLAN. */
  ghost predicate Lean(sw: Switch) {
    && (forall k :: k in sw.mcFlow ==> exists p: nat :: Delivers(sw, Member(p, k.1, k.0)))
    && (forall g :: g in sw.mc ==> exists mac :: (mac, g.1) in sw.mcFlow && sw.mcFlow[(mac, g.1)] == g.0)
    && (forall j, k :: j in sw.mcFlow && k in sw.mcFlow && j.1 == k.1 && sw.mcFlow[j] == sw.mcFlow[k] ==> j == k)
    && (forall g, f :: g in sw.mc && f in sw.mc[g] ==> f.vid == g.1)
  }

  lemma WiredLean(l: seq<Entry>, sw: Switch)
    requires ListOk(l) && McWired(l, sw.mc, sw.mcFlow)
    ensures Lean(sw)
  {
    hide IndexesDistinct;
    forall k | k in sw.mcFlow ensures exists p: nat :: Delivers(sw, Member(p, k.1, k.0)) {
      var i :| 0 <= i < |l| && IsFor(l[i], k.0, k.1);
      assert EntryWired(l[i], sw.mc, sw.mcFlow);
      var p :| p in l[i].on;
      assert Delivers(sw, Member(p, k.1, k.0));
    }
    forall g | g in sw.mc
      ensures exists mac :: (mac, g.1) in sw.mcFlow && sw.mcFlow[(mac, g.1)] == g.0
      ensures forall f :: f in sw.mc[g] ==> f.vid == g.1 {
      var i :| 0 <= i < |l| && IsAt(l[i], g);
      assert EntryWired(l[i], sw.mc, sw.mcFlow);
      assert (l[i].mac, g.1) in sw.mcFlow;
    }
    WiredApart(l, sw);
  }

  lemma WiredApart(l: seq<Entry>, sw: Switch)
    requires ListOk(l) && McWired(l, sw.mc, sw.mcFlow)
    ensures forall j, k :: j in sw.mcFlow && k in sw.mcFlow && j.1 == k.1 && sw.mcFlow[j] == sw.mcFlow[k] ==> j == k
  {
    hide IndexesDistinct;
    forall j, k | j in sw.mcFlow && k in sw.mcFlow && j.1 == k.1 && sw.mcFlow[j] == sw.mcFlow[k] ensures j == k {
      var i :| 0 <= i < |l| && IsFor(l[i], j.0, j.1);
      assert EntryWired(l[i], sw.mc, sw.mcFlow);
      FlowOfGroup(l, i, sw.mc, sw.mcFlow, k);
    }
  }

  /** The new members among the first n have their interface groups. */
  ghost predicate Housed(old_: seq<Member>, new_: seq<Member>, n: nat, ifaces: map<Iface, bool>)
    requires n <= |new_|
  {
    forall m :: m in new_[..n] && m !in old_ ==> Iface(m.port, m.vid) in ifaces
  }

  /** What the merge knows at positions i and j. */
  lemma MergeFacts(old_: seq<Member>, new_: seq<Member>, i: nat, j: nat)
    requires Sorted(old_) && Sorted(new_) && i <= |old_| && j <= |new_|
    requires i > 0 && j < |new_| ==> Less(old_[i - 1], new_[j])
    ensures i > 0 && j + 1 < |new_| ==> Less(old_[i - 1], new_[j + 1])
    ensures i < |old_| && j + 1 < |new_| && old_[i] == new_[j] ==> Less(old_[i], new_[j + 1])
    ensures j < |new_| && (i == |old_| || Less(new_[j], old_[i])) ==> new_[j] !in old_
    ensures j < |new_| ==> new_[j] !in new_[..j] && new_[..j + 1] == new_[..j] + [new_[j]]
    ensures i < |old_| && j < |new_| && !Less(old_[i], new_[j]) && !Less(new_[j], old_[i]) ==> old_[i] == new_[j]
  {
  }

  lemma IfacesFewer(ports: set<nat>, more: set<nat>, vid: nat)
    requires ports <= more
    ensures Ifaces(ports, vid) <= Ifaces(more, vid)
  {
  }

  lemma IfacesAdd(ports: set<nat>, port: nat, vid: nat)
    ensures Ifaces(ports + {port}, vid) == Ifaces(ports, vid) + {Iface(port, vid)}
  {
  }

  lemma FirstOfDomain(dom: map<nat, set<nat>>, flood: map<nat, set<Iface>>, dlf: set<nat>, port: nat, vid: nat)
    requires FloodWired(dom, flood, dlf) && |PortsOf(dom, vid) + {port}| == 1
    ensures port !in PortsOf(dom, vid) ==> vid !in flood
  {
  }

  ghost predicate Publishing(l: seq<Entry>, i: nat, e: Entry, mc: map<(nat, nat), set<Iface>>,
                             mcFlow: map<(Mac, nat), nat>)
    requires i < |l|
  {
    && KeysOnce(l) && McWired(l, mc, mcFlow) && e.on != {} && (|e.on| != 1 ==> l[i].on != {})
    && e.index == l[i].index && e.vid == l[i].vid && e.mac == l[i].mac
  }

  /** A new entry takes a used index exactly when the join is not fresh. */
  lemma JoinedIndexes(l: seq<Entry>, m: Member)
    requires Position(l, m.mac, m.vid) == |l|
    ensures IndexesDistinct(Joined(l, m)) ==> JoinFresh(l, m)
  {
    var l' := Joined(l, m);
    forall i | 0 <= i < |l| && l[i].vid == m.vid
        && IndexesDistinct(l') ensures l[i].index != Scan(IndexesIn(l, m.vid), 1) {
      assert l'[i] == l[i] && l'[|l|].vid == m.vid;
    }
  }

  lemma WiredIndexes(l: seq<Entry>, mc: map<(nat, nat), set<Iface>>, mcFlow: map<(Mac, nat), nat>)
    ensures McWired(l, mc, mcFlow) ==> IndexesDistinct(l)
  {
  }

  lemma BlankWired(l: seq<Entry>, blank: Entry, mc: map<(nat, nat), set<Iface>>, mcFlow: map<(Mac, nat), nat>)
    requires ListOk(l) && McWired(l, mc, mcFlow) && Position(l, blank.mac, blank.vid) == |l|
    requires blank.on == {} && blank.index == Scan(IndexesIn(l, blank.vid), 1) && FreshIndex(l, blank.vid)
    ensures McWired(l + [blank], mc, mcFlow) && KeysOnce(l + [blank])
  {
    McAppend(l, blank, mc, mcFlow);
  }

  /** The registered members do not depend on who is enabled. */
  lemma SameMembers(l: seq<Entry>, l': seq<Entry>)
    requires RegOf(l') == RegOf(l)
    ensures forall m :: Registered(l', m) <==> Registered(l, m)
  {
    forall m ensures Registered(l', m) <==> Registered(l, m) {
      RegMembers(l, m);
      RegMembers(l', m);
    }
  }

  lemma RegPointwise(l: seq<Entry>, l': seq<Entry>, port: nat, vid: nat)
    requires |l| == |l'|
    requires || (forall i :: 0 <= i < |l| ==> l'[i] == Disable(l[i], port, vid))
             || (forall i :: 0 <= i < |l| ==> l'[i] == Enable(l[i], port, vid))
    ensures RegOf(l') == RegOf(l)
  {
    forall i | 0 <= i < |l| ensures Reg(l'[i]) == Reg(l[i]) {
      RegOnOff(l[i], port, vid);
    }
  }

  lemma KeysOf(l: seq<Entry>)
    requires ListOk(l)
    ensures KeysOnce(l)
  {
  }

  lemma WiredAt(l: seq<Entry>, i: nat, mc: map<(nat, nat), set<Iface>>, mcFlow: map<(Mac, nat), nat>)
    requires EntriesWired(l, mc, mcFlow) && i < |l|
    ensures EntryWired(l[i], mc, mcFlow)
  {
  }

  lemma EntryAt(l: seq<Entry>, i: nat)
    requires ListOk(l) && i < |l|
    ensures EntryOk(l[i])
  {
  }

  lemma OneOrMore(on: set<nat>, port: nat)
    ensures on + {port} != {} && (|on + {port}| != 1 ==> on != {})
  {
  }

  lemma RegisteredAt(l: seq<Entry>, m: Member)
    requires ListOk(l)
    ensures var i := Position(l, m.mac, m.vid);
            Registered(l, m) <==> i < |l| && (m.port in l[i].on || m.port in l[i].off)
  {
  }

  lemma WiredSameOn(l: seq<Entry>, i: nat, e: Entry, mc: map<(nat, nat), set<Iface>>, mcFlow: map<(Mac, nat), nat>)
    requires McWired(l, mc, mcFlow) && KeysOnce(l) && i < |l| && e == l[i].(off := e.off)
    ensures McWired(l[i := e], mc, mcFlow)
  {
    hide Owned, IndexesDistinct;
    assert EntryWired(l[i], mc, mcFlow);
    McReplace(l, i, e, mc, mcFlow, mc, mcFlow);
  }

  lemma DisableOk(l: seq<Entry>, i: nat, port: nat)
    requires ListOk(l) && i < |l| && port in l[i].on
    ensures ListOk(l[i := l[i].(on := l[i].on - {port}, off := l[i].off + {port})])
  {
  }

  /** No multicast group names (port, vid) once the port is enabled in no entry of the VLAN. */
  lemma NoGroupNames(l: seq<Entry>, mc: map<(nat, nat), set<Iface>>, mcFlow: map<(Mac, nat), nat>, port: nat, vid: nat)
    requires McWired(l, mc, mcFlow)
    requires forall i :: 0 <= i < |l| && l[i].vid == vid ==> port !in l[i].on
    ensures forall g :: g in mc ==> Iface(port, vid) !in mc[g]
  {
  }

  ghost predicate SameBut<K(!new), V>(m: map<K, V>, m': map<K, V>, k: K) {
    forall x :: x != k ==> (x in m' <==> x in m) && (x in m && x in m' ==> m'[x] == m[x])
  }

  lemma OwnedMap(l: seq<Entry>, l': seq<Entry>, mc: map<(nat, nat), set<Iface>>, mcFlow: map<(Mac, nat), nat>,
                 mc': map<(nat, nat), set<Iface>>, mcFlow': map<(Mac, nat), nat>, i: nat)
    requires Owned(l, mc, mcFlow) && i < |l'| && |l| <= |l'|
    requires forall j :: 0 <= j < |l| ==> l'[j].mac == l[j].mac && l'[j].vid == l[j].vid && l'[j].index == l[j].index
    requires forall g :: g in mc' ==> g in mc || IsAt(l'[i], g)
    requires forall k :: k in mcFlow' ==> k in mcFlow || IsFor(l'[i], k.0, k.1)
    ensures Owned(l', mc', mcFlow')
  {
  }

  /** Rewriting one entry together with its group and flow. */
  lemma McReplace(l: seq<Entry>, i: nat, e: Entry, mc: map<(nat, nat), set<Iface>>, mcFlow: map<(Mac, nat), nat>,
                  mc': map<(nat, nat), set<Iface>>, mcFlow': map<(Mac, nat), nat>)
    requires KeysOnce(l) && McWired(l, mc, mcFlow) && i < |l|
    requires e.index == l[i].index && e.vid == l[i].vid && e.mac == l[i].mac
    requires SameBut(mc, mc', (e.index, e.vid)) && SameBut(mcFlow, mcFlow', (e.mac, e.vid))
    requires EntryWired(e, mc', mcFlow')
    ensures McWired(l[i := e], mc', mcFlow')
  {
    hide Owned;
    var l' := l[i := e];
    forall j | 0 <= j < |l'| ensures EntryWired(l'[j], mc', mcFlow') {
      if j != i { assert EntryWired(l[j], mc, mcFlow); assert !IsFor(l[j], e.mac, e.vid); }
    }
    OwnedMap(l, l', mc, mcFlow, mc', mcFlow', i);
  }

  lemma McErase(l: seq<Entry>, i: nat, mc: map<(nat, nat), set<Iface>>, mcFlow: map<(Mac, nat), nat>)
    requires McWired(l, mc, mcFlow) && i < |l| && l[i].on == {}
    ensures McWired(l[..i] + l[i + 1..], mc, mcFlow)
  {
    hide IndexesDistinct, Owned;
    assert EntryWired(l[i], mc, mcFlow);
    EraseIndexes(l, i);
    EraseEntries(l, i, mc, mcFlow);
    EraseOwned(l, i, mc, mcFlow);
  }

  lemma EraseOwned(l: seq<Entry>, i: nat, mc: map<(nat, nat), set<Iface>>, mcFlow: map<(Mac, nat), nat>)
    requires Owned(l, mc, mcFlow) && i < |l|
    requires (l[i].index, l[i].vid) !in mc && (l[i].mac, l[i].vid) !in mcFlow
    ensures Owned(l[..i] + l[i + 1..], mc, mcFlow)
  {
    var l' := l[..i] + l[i + 1..];
    forall g | g in mc ensures exists j :: 0 <= j < |l'| && IsAt(l'[j], g) {
      var j :| 0 <= j < |l| && IsAt(l[j], g);
      var j' := if j < i then j else j - 1;
      assert l'[j'] == l[j];
    }
    forall k | k in mcFlow ensures exists j :: 0 <= j < |l'| && IsFor(l'[j], k.0, k.1) {
      var j :| 0 <= j < |l| && IsFor(l[j], k.0, k.1);
      var j' := if j < i then j else j - 1;
      assert l'[j'] == l[j];
    }
  }

  lemma EraseIndexes(l: seq<Entry>, i: nat)
    requires IndexesDistinct(l) && i < |l|
    ensures IndexesDistinct(l[..i] + l[i + 1..])
  {
  }

  lemma EraseEntries(l: seq<Entry>, i: nat, mc: map<(nat, nat), set<Iface>>, mcFlow: map<(Mac, nat), nat>)
    requires EntriesWired(l, mc, mcFlow) && i < |l|
    ensures EntriesWired(l[..i] + l[i + 1..], mc, mcFlow)
  {
  }

  lemma McAppend(l: seq<Entry>, e: Entry, mc: map<(nat, nat), set<Iface>>, mcFlow: map<(Mac, nat), nat>)
    requires McWired(l, mc, mcFlow)
    requires forall i :: 0 <= i < |l| ==> !IsFor(l[i], e.mac, e.vid)
    requires forall i :: 0 <= i < |l| && l[i].vid == e.vid ==> l[i].index != e.index
    requires e.on == {}
    ensures McWired(l + [e], mc, mcFlow)
  {
    hide Owned, IndexesDistinct, EntriesWired, IsFor, IsAt;
    NotOwned(l, e, mc, mcFlow);
    AppendIndexes(l, e);
    AppendEntries(l, e, mc, mcFlow);
    OwnedMap(l, l + [e], mc, mcFlow, mc, mcFlow, |l|);
  }

  lemma AppendEntries(l: seq<Entry>, e: Entry, mc: map<(nat, nat), set<Iface>>, mcFlow: map<(Mac, nat), nat>)
    requires EntriesWired(l, mc, mcFlow) && EntryWired(e, mc, mcFlow)
    ensures EntriesWired(l + [e], mc, mcFlow)
  {
  }

  lemma AppendIndexes(l: seq<Entry>, e: Entry)
    requires IndexesDistinct(l)
    requires forall i :: 0 <= i < |l| && l[i].vid == e.vid ==> l[i].index != e.index
    ensures IndexesDistinct(l + [e])
  {
  }

  lemma NotOwned(l: seq<Entry>, e: Entry, mc: map<(nat, nat), set<Iface>>, mcFlow: map<(Mac, nat), nat>)
    requires Owned(l, mc, mcFlow)
    requires forall i :: 0 <= i < |l| ==> !IsFor(l[i], e.mac, e.vid)
    requires forall i :: 0 <= i < |l| && l[i].vid == e.vid ==> l[i].index != e.index
    ensures (e.index, e.vid) !in mc && (e.mac, e.vid) !in mcFlow
  {
  }

  /** Only the entry's own flow names its group. */
  lemma FlowOfGroup(l: seq<Entry>, i: nat, mc: map<(nat, nat), set<Iface>>, mcFlow: map<(Mac, nat), nat>, k: (Mac, nat))
    requires KeysOnce(l) && McWired(l, mc, mcFlow) && i < |l|
    requires k in mcFlow && mcFlow[k] == l[i].index && k.1 == l[i].vid
    ensures k == (l[i].mac, l[i].vid)
  {
  }

  function FloodWithout(flood: map<nat, set<Iface>>, ports: set<nat>, vid: nat): map<nat, set<Iface>> {
    if ports != {} then flood[vid := Ifaces(ports, vid)] else flood - {vid}
  }

  /** One port less in the domain: no flood group names its interface group any more. */
  lemma FloodShrinks(dom: map<nat, set<nat>>, flood: map<nat, set<Iface>>, dlf: set<nat>, port: nat, vid: nat)
    requires FloodWired(dom, flood, dlf) && vid in dom
    ensures var ports := dom[vid] - {port};
            && FloodWired(dom[vid := ports], FloodWithout(flood, ports, vid), if ports != {} then dlf else dlf - {vid})
            && (forall v :: v in FloodWithout(flood, ports, vid) ==>
                  Iface(port, vid) !in FloodWithout(flood, ports, vid)[v])
            && (ports != {} ==> vid in flood && Ifaces(ports, vid) <= flood[vid])
            && dlf == flood.Keys
  {
  }

  function PortsOf(dom: map<nat, set<nat>>, vid: nat): set<nat> {
    if vid in dom then dom[vid] else {}
  }

  /** One more port in the domain: the DLF flow is missing only if the port is the first one. */
  lemma FloodGrows(dom: map<nat, set<nat>>, flood: map<nat, set<Iface>>, dlf: set<nat>, port: nat, vid: nat)
    requires FloodWired(dom, flood, dlf)
    ensures var ports := PortsOf(dom, vid) + {port};
            && FloodWired(dom[vid := ports], flood[vid := Ifaces(ports, vid)],
                          if |ports| == 1 then dlf + {vid} else dlf)
            && (|ports| != 1 ==> vid in flood && vid in dlf)
  {
  }

  /** The grown flood group only names existing interface groups. */
  lemma FloodMembers(dom: map<nat, set<nat>>, flood: map<nat, set<Iface>>, dlf: set<nat>, ifaces: set<Iface>, port: nat,
                     vid: nat)
    requires FloodWired(dom, flood, dlf) && forall v :: v in flood ==> flood[v] <= ifaces
    ensures Ifaces(PortsOf(dom, vid) + {port}, vid) <= ifaces + {Iface(port, vid)}
  {
  }

}
