/** Layer-3 VLANs of ports: reference counts, switch entries, and what bridging does to them. */
module PortVlans {

  const EINVAL := 22

  /** One VLAN filter entry on the switch. */
  datatype Cell = Cell(port: nat, vid: nat)

  /** An add request to the switch. */
  datatype Request = Ingress(c: Cell) | Egress(c: Cell)

  function Cells(ports: set<nat>, vid: nat): set<Cell> {
    set p | p in ports :: Cell(p, vid)
  }

  lemma CellsAdd(ports: set<nat>, p: nat, vid: nat)
    ensures Cells(ports + {p}, vid) == Cells(ports, vid) + {Cell(p, vid)}
    ensures Cells({}, vid) == {}
  {
  }

  /** Both requests for a cell are granted. */
  predicate Granted(c: Cell, refused: set<Request>) {
    Ingress(c) !in refused && Egress(c) !in refused
  }

  class NlVlan {
    /** port_vlan: users of each (port, VLAN). */
    var portVlan: map<Cell, nat>
    /** VLAN entries on the switch. */
    var ingress: set<Cell>
    var egress: set<Cell>
    /** Kernel state: ports that are in the bridge. */
    var bridged: set<nat>
    /** Recorded VLANs that the switch refused when their port left the bridge. */
    ghost var lost: set<Cell>

    constructor ()
      ensures portVlan == map[] && ingress == {} && egress == {} && bridged == {} && lost == {}
    {
      portVlan, ingress, egress, bridged, lost := map[], {}, {}, {}, {};
    }

    // ------------------------------------------------- switch requests

    method IngressAdd(port: nat, vid: nat, refused: set<Request>) returns (rv: int)
      modifies this`ingress
      ensures rv == if Ingress(Cell(port, vid)) in refused then -EINVAL else 0
      ensures ingress == if rv == 0 then old(ingress) + {Cell(port, vid)} else old(ingress)
    {
      if Ingress(Cell(port, vid)) in refused {
        return -EINVAL;
      }
      ingress := ingress + {Cell(port, vid)};
      rv := 0;
    }

    method EgressAdd(port: nat, vid: nat, refused: set<Request>) returns (rv: int)
      modifies this`egress
      ensures rv == if Egress(Cell(port, vid)) in refused then -EINVAL else 0
      ensures egress == if rv == 0 then old(egress) + {Cell(port, vid)} else old(egress)
    {
      if Egress(Cell(port, vid)) in refused {
        return -EINVAL;
      }
      egress := egress + {Cell(port, vid)};
      rv := 0;
    }

    // ---------------------------------------------- one VLAN, all or nothing

    /** Ingress entries of a LAG (or port, without members); undone when one is refused. */
    method AddIngressVlan(port: nat, members: set<nat>, vid: nat, refused: set<Request>) returns (rv: int)
      requires port !in members
      modifies this`ingress
      ensures rv == 0 || rv == -EINVAL
      ensures rv == 0 <==> forall p :: p in members + {port} ==> Ingress(Cell(p, vid)) !in refused
      ensures ingress == if rv == 0 then old(ingress) + Cells(members + {port}, vid)
                         else if Ingress(Cell(port, vid)) in refused then old(ingress)
                         else old(ingress) - Cells(members + {port}, vid)
    {
      rv := IngressAdd(port, vid, refused);
      if rv < 0 {
        assert port in members + {port};
        return;
      }
      var todo := members;
      CellsAdd({}, port, vid);
      while todo != {} && rv == 0
        invariant todo <= members && (rv == 0 || rv == -EINVAL)
        invariant rv == 0 ==> ingress == old(ingress) + Cells(members - todo + {port}, vid)
        invariant old(ingress) <= ingress <= old(ingress) + Cells(members + {port}, vid)
        invariant rv == 0 ==> forall p :: p in members - todo + {port} ==> Ingress(Cell(p, vid)) !in refused
        invariant rv < 0 ==> exists p :: p in members && Ingress(Cell(p, vid)) in refused
        decreases todo
      {
        var mem :| mem in todo;
        ghost var seen := members - todo + {port};
        CellsAdd(seen, mem, vid);
        rv := IngressAdd(mem, vid, refused);
        todo := todo - {mem};
        assert members - todo + {port} == seen + {mem};
        assert Cell(mem, vid) in Cells(members + {port}, vid);
      }
      if rv < 0 {
        RemoveIngressVlan(port, members, vid);
      } else {
        assert members - todo + {port} == members + {port};
      }
    }

    method RemoveIngressVlan(port: nat, members: set<nat>, vid: nat)
      modifies this`ingress
      ensures ingress == old(ingress) - Cells(members + {port}, vid)
    {
      var todo := members;
      CellsAdd(members, port, vid);
      assert members - todo == {};
      while todo != {}
        invariant todo <= members
        invariant ingress == old(ingress) - Cells(members - todo, vid)
        decreases todo
      {
        var mem :| mem in todo;
        CellsAdd(members - todo, mem, vid);
        ingress := ingress - {Cell(mem, vid)};
        assert members - (todo - {mem}) == members - todo + {mem};
        todo := todo - {mem};
      }
      assert members - todo == members;
      ingress := ingress - {Cell(port, vid)};
    }

    method RemoveEgressVlan(port: nat, members: set<nat>, vid: nat)
      modifies this`egress
      ensures egress == old(egress) - Cells(members + {port}, vid)
    {
      var todo := members;
      CellsAdd(members, port, vid);
      assert members - todo == {};
      while todo != {}
        invariant todo <= members
        invariant egress == old(egress) - Cells(members - todo, vid)
        decreases todo
      {
        var mem :| mem in todo;
        CellsAdd(members - todo, mem, vid);
        egress := egress - {Cell(mem, vid)};
        assert members - (todo - {mem}) == members - todo + {mem};
        todo := todo - {mem};
      }
      assert members - todo == members;
      egress := egress - {Cell(port, vid)};
    }

    /** Egress entries of the members; stops at the first refusal. */
    method AddEgressMembers(port: nat, members: set<nat>, vid: nat, refused: set<Request>) returns (rv: int)
      modifies this`egress
      ensures rv == 0 || rv == -EINVAL
      ensures rv == 0 <==> forall p :: p in members ==> Egress(Cell(p, vid)) !in refused
      ensures rv == 0 ==> egress == old(egress) + Cells(members, vid)
      ensures old(egress) <= egress <= old(egress) + Cells(members, vid)
    {
      rv := 0;
      var todo := members;
      CellsAdd({}, port, vid);
      assert members - todo == {};
      while todo != {} && rv == 0
        invariant todo <= members && (rv == 0 || rv == -EINVAL)
        invariant rv == 0 ==> egress == old(egress) + Cells(members - todo, vid)
        invariant old(egress) <= egress <= old(egress) + Cells(members, vid)
        invariant rv == 0 ==> forall p :: p in members - todo ==> Egress(Cell(p, vid)) !in refused
        invariant rv < 0 ==> exists p :: p in members && Egress(Cell(p, vid)) in refused
        decreases todo
      {
        var mem :| mem in todo;
        ghost var seen := members - todo;
        CellsAdd(seen, mem, vid);
        rv := EgressAdd(mem, vid, refused);
        todo := todo - {mem};
        assert members - todo == seen + {mem};
        assert Cell(mem, vid) in Cells(members, vid);
      }
      if rv == 0 {
        assert members - todo == members;
      }
    }

    /** All entries of the VLAN on the port and its members, or none. */
    method EnableVlan(port: nat, members: set<nat>, vid: nat, refused: set<Request>) returns (rv: int)
      requires port !in members
      modifies this`ingress, this`egress
      ensures rv == 0 || rv == -EINVAL
      ensures rv == 0 <==> forall p :: p in members + {port} ==> Granted(Cell(p, vid), refused)
      ensures rv == 0 ==> ingress == old(ingress) + Cells(members + {port}, vid)
                          && egress == old(egress) + Cells(members + {port}, vid)
      ensures rv != 0 && old(ingress) !! Cells(members + {port}, vid) && old(egress) !! Cells(members + {port}, vid) ==>
                ingress == old(ingress) && egress == old(egress)
    {
      CellsAdd(members, port, vid);
      rv := AddIngressVlan(port, members, vid, refused);
      if rv < 0 {
        return;
      }
      rv := EgressAdd(port, vid, refused);
      if rv < 0 {
        assert port in members + {port};
        RemoveIngressVlan(port, members, vid);
        return;
      }
      if members != {} {
        rv := AddEgressMembers(port, members, vid, refused);
        if rv < 0 {
          RemoveEgressVlan(port, members, vid);
          RemoveIngressVlan(port, members, vid);
          return;
        }
      } else {
        CellsAdd({}, port, vid);
      }
    }

    method DisableVlan(port: nat, members: set<nat>, vid: nat)
      modifies this`ingress, this`egress
      ensures ingress == old(ingress) - Cells(members + {port}, vid)
      ensures egress == old(egress) - Cells(members + {port}, vid)
    {
      RemoveIngressVlan(port, members, vid);
      RemoveEgressVlan(port, members, vid);
    }

    // -------------------------------------------------- the recorded VLANs

    /** An unbridged port has its recorded VLANs on the switch, but for the lost ones; a bridged one has none. */
    ghost predicate Kept()
      reads this
    {
      && egress == ingress
      && (forall c :: c in ingress <==> c in portVlan && c.port !in bridged && c !in lost)
      && (forall c :: c in lost ==> c in portVlan && c.port !in bridged)
      && (forall c :: c in portVlan ==> portVlan[c] > 0)
    }

    /** An unbridged port has exactly its recorded VLANs on the switch, a bridged one has none. */
    ghost predicate Shadow()
      reads this
    {
      Kept() && lost == {}
    }

    /** viaBridge is what is_bridge_interface says about the link the VLAN was requested for. */
    method AddVlan(port: nat, vid: nat, viaBridge: bool, refused: set<Request>) returns (rv: int)
      requires Kept()
      modifies this`portVlan, this`ingress, this`egress
      ensures rv == if !(1 <= vid <= 0xfff) then -EINVAL
                    else if Cell(port, vid) in old(portVlan) || viaBridge then 0
                    else if Granted(Cell(port, vid), refused) then 0 else -EINVAL
      ensures portVlan == if rv < 0 || (viaBridge && Cell(port, vid) !in old(portVlan)) then old(portVlan)
                          else old(portVlan)[Cell(port, vid) := 1 + Users(old(portVlan), Cell(port, vid))]
      // broken exactly when the answer for the link is no although the port is bridged
      ensures Kept() <==> !(rv == 0 && Cell(port, vid) !in old(portVlan) && !viaBridge && port in bridged)
    {
      var key := Cell(port, vid);
      if !(1 <= vid <= 0xfff) {
        return -EINVAL;
      }
      if key in portVlan {
        portVlan := portVlan[key := portVlan[key] + 1];
        return 0;
      }
      if viaBridge {
        return 0;
      }
      CellsAdd({}, port, vid);
      assert {} + {port} == {port} && port in {} + {port};
      rv := EnableVlan(port, {}, vid, refused);
      if rv < 0 {
        return;
      }
      portVlan := portVlan[key := 1];
      assert key in ingress;
    }

    method RemoveVlan(port: nat, vid: nat, viaBridge: bool) returns (rv: int)
      requires Kept()
      modifies this`portVlan, this`ingress, this`egress, this`lost
      ensures rv == if 1 <= vid <= 0xfff && Cell(port, vid) in old(portVlan) then 0 else -EINVAL
      ensures rv < 0 ==> portVlan == old(portVlan)
      ensures rv == 0 ==> portVlan == if old(portVlan)[Cell(port, vid)] > 1
                                      then old(portVlan)[Cell(port, vid) := old(portVlan)[Cell(port, vid)] - 1]
                                      else old(portVlan) - {Cell(port, vid)}
      ensures lost == if rv == 0 && Cell(port, vid) !in portVlan then old(lost) - {Cell(port, vid)} else old(lost)
      // broken exactly when the answer for the link is yes although the port is not bridged
      ensures Kept() <==> !(&& rv == 0 && old(portVlan)[Cell(port, vid)] == 1 && viaBridge && port !in bridged
                            && Cell(port, vid) !in old(lost))
    {
      var key := Cell(port, vid);
      if !(1 <= vid <= 0xfff) {
        return -EINVAL;
      }
      if key !in portVlan {
        return -EINVAL;
      }
      if portVlan[key] > 1 {
        portVlan := portVlan[key := portVlan[key] - 1];
        return 0;
      }
      portVlan := portVlan - {key};
      lost := lost - {key};
      if viaBridge {
        assert port !in bridged && key !in old(lost) ==> key in ingress;
        return 0;
      }
      CellsAdd({}, port, vid);
      assert {} + {port} == {port};
      DisableVlan(port, {}, vid);
      rv := 0;
    }

    function PortCells(port: nat): set<Cell>
      reads this`portVlan
    {
      set c | c in portVlan && c.port == port
    }

    /** disable_vlans: the port joins the bridge. */
    method JoinBridge(port: nat)
      requires Kept()
      modifies this`ingress, this`egress, this`bridged, this`lost
      ensures Kept() && bridged == old(bridged) + {port} && lost == old(lost) - PortCells(port)
    {
      bridged := bridged + {port};
      lost := lost - PortCells(port);
      var todo := PortCells(port);
      while todo != {}
        invariant todo <= PortCells(port) && bridged == old(bridged) + {port} && lost == old(lost) - PortCells(port)
        invariant egress == ingress
        invariant forall c :: c in ingress <==>
                    c in portVlan && c !in lost && (c.port !in bridged || (c in todo && c in old(ingress)))
        decreases todo
      {
        var c :| c in todo;
        CellsAdd({}, port, c.vid);
        assert {} + {port} == {port};
        DisableVlan(port, {}, c.vid);
        todo := todo - {c};
      }
    }

    /** enable_vlans: the port leaves the bridge and gets its VLANs back. A refusal is ignored, and the VLAN
        stays off. */
    method LeaveBridge(port: nat, refused: set<Request>)
      requires Kept() && port in bridged
      modifies this`ingress, this`egress, this`bridged, this`lost
      ensures Kept() && bridged == old(bridged) - {port}
      ensures forall c :: c in lost <==> c in old(lost) || (c in PortCells(port) && !Granted(c, refused))
      ensures Shadow() <==> old(lost) == {} && forall c :: c in PortCells(port) ==> Granted(c, refused)
    {
      bridged := bridged - {port};
      var todo := PortCells(port);
      while todo != {}
        invariant todo <= PortCells(port) && bridged == old(bridged) - {port}
        invariant egress == ingress
        invariant forall c :: c in lost <==>
                    c in old(lost) || (c in PortCells(port) && c !in todo && !Granted(c, refused))
        invariant forall c :: c in ingress <==> c in portVlan && c.port !in bridged && c !in todo && c !in lost
        decreases todo
      {
        var c :| c in todo;
        CellsAdd({}, port, c.vid);
        assert {} + {port} == {port} && port in {} + {port} && Cell(port, c.vid) == c;
        var rv := EnableVlan(port, {}, c.vid, refused);
        if rv < 0 {
          lost := lost + {c};
        }
        todo := todo - {c};
      }
      if c :| c in PortCells(port) && !Granted(c, refused) {
        assert c in lost;
      }
      if c :| c in old(lost) {
        assert c in lost;
      }
    }

    /** Joining and leaving again restores the switch entries exactly when none of them is refused. */
    method JoinAndLeave(port: nat, refused: set<Request>)
      requires Shadow() && port !in bridged
      modifies this`ingress, this`egress, this`bridged, this`lost
      ensures bridged == old(bridged)
      ensures (ingress == old(ingress) && egress == old(egress))
         <==> forall c :: c in PortCells(port) ==> Granted(c, refused)
    {
      JoinBridge(port);
      LeaveBridge(port, refused);
      assert forall c :: c in old(ingress) <==> c in portVlan && c.port !in bridged;
      if c :| c in PortCells(port) && !Granted(c, refused) {
        assert c in old(ingress) && c !in ingress;
      }
    }
  }

  function Users(m: map<Cell, nat>, c: Cell): nat { if c in m then m[c] else 0 }

  datatype Event =
    | Add(port: nat, vid: nat, refused: set<Request>)
    | Remove(port: nat, vid: nat)
    | Join(port: nat)
    | Leave(port: nat, refused: set<Request>)

  /** Recorded users, bridged ports and refused VLANs, as the events say. */
  datatype Model = Model(users: map<Cell, nat>, bridged: set<nat>, lost: set<Cell>)

  function CellsOf(users: map<Cell, nat>, port: nat): set<Cell> {
    set c | c in users && c.port == port
  }

  function Step(m: Model, ev: Event): Model {
    match ev
    case Add(port, vid, refused) =>
      var c := Cell(port, vid);
      if !(1 <= vid <= 0xfff) then m
      else if c in m.users then m.(users := m.users[c := m.users[c] + 1])
      else if port in m.bridged || !Granted(c, refused) then m
      else m.(users := m.users[c := 1])
    case Remove(port, vid) =>
      var c := Cell(port, vid);
      if !(1 <= vid <= 0xfff) || c !in m.users then m
      else if m.users[c] > 1 then m.(users := m.users[c := m.users[c] - 1])
      else m.(users := m.users - {c}, lost := m.lost - {c})
    case Join(port) => m.(bridged := m.bridged + {port}, lost := m.lost - CellsOf(m.users, port))
    case Leave(port, refused) =>
      m.(bridged := m.bridged - {port},
         lost := m.lost + set c | c in CellsOf(m.users, port) && !Granted(c, refused))
  }

  function Final(events: seq<Event>): Model {
    if events == [] then Model(map[], {}, {}) else Step(Final(events[..|events| - 1]), events[|events| - 1])
  }

  /** Only bridged ports leave the bridge. */
  ghost predicate PossibleRun(events: seq<Event>) {
    forall i :: 0 <= i < |events| && events[i].Leave? ==> events[i].port in Final(events[..i]).bridged
  }

  /** No leave of the run is refused a VLAN that the port has. */
  ghost predicate GrantedRun(events: seq<Event>) {
    forall i, c :: 0 <= i < |events| && events[i].Leave? && c in CellsOf(Final(events[..i]).users, events[i].port) ==>
                   Granted(c, events[i].refused)
  }

  lemma {:induction false} NothingLost(events: seq<Event>)
    requires GrantedRun(events)
    ensures Final(events).lost == {}
  {
    if events != [] {
      var n := |events| - 1;
      var l := events[..n];
      forall i, c | 0 <= i < |l| && l[i].Leave? && c in CellsOf(Final(l[..i]).users, l[i].port)
        ensures Granted(c, l[i].refused) {
        assert l[..i] == events[..i] && l[i] == events[i];
      }
      NothingLost(l);
      assert events[..n] == l;
    }
  }

  /** Any interleaving of VLAN users coming and going with ports joining and leaving the bridge: the switch has
      the recorded VLANs of the unbridged ports but for the ones it refused on leaving, and nothing else. */
  method Run(events: seq<Event>) returns (v: NlVlan)
    requires PossibleRun(events)
    ensures fresh(v) && Model(v.portVlan, v.bridged, v.lost) == Final(events)
    ensures var m := Final(events);
            forall c :: c in v.ingress <==> c in m.users && c.port !in m.bridged && c !in m.lost
    ensures v.egress == v.ingress
    ensures GrantedRun(events) ==> v.Shadow()
  {
    v := new NlVlan();
    for i := 0 to |events|
      invariant fresh(v) && v.Kept() && Model(v.portVlan, v.bridged, v.lost) == Final(events[..i])
    {
      assert events[..i + 1][..i] == events[..i];
      Handle(v, events[i]);
    }
    assert events[..|events|] == events;
    if GrantedRun(events) { NothingLost(events); }
  }

  method Handle(v: NlVlan, ev: Event)
    requires v.Kept() && (ev.Leave? ==> ev.port in v.bridged)
    modifies v
    ensures v.Kept()
    ensures Model(v.portVlan, v.bridged, v.lost) == Step(Model(old(v.portVlan), old(v.bridged), old(v.lost)), ev)
  {
    match ev {
      case Add(port, vid, refused) => var rv := v.AddVlan(port, vid, port in v.bridged, refused);
      case Remove(port, vid) => var rv := v.RemoveVlan(port, vid, port in v.bridged);
      case Join(port) => v.JoinBridge(port);
      case Leave(port, refused) => v.LeaveBridge(port, refused);
    }
  }
}
