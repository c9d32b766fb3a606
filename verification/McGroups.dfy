/** The controller's multicast group list and what its operations compute. */
module McGroups {
  import opened MacAddress

  /** One registered group: members that are active and members whose VLAN is currently off. */
  datatype Entry = Entry(mac: Mac, vid: nat, index: nat, on: set<nat>, off: set<nat>)

  predicate IsFor(e: Entry, mac: Mac, vid: nat) { e.mac == mac && e.vid == vid }

  // ---------------------------------------------------------------- indexes

  /** The one-pass scan for a free index. */
  function Scan(l: seq<nat>, index: nat): nat {
    if l == [] then index else Scan(l[1..], if l[0] == index then index + 1 else index)
  }

  function IndexesIn(l: seq<Entry>, vid: nat): seq<nat> {
    if l == [] then []
    else (if l[0].vid == vid then [l[0].index] else []) + IndexesIn(l[1..], vid)
  }

  ghost predicate Distinct(l: seq<nat>) {
    forall i, j :: 0 <= i < j < |l| ==> l[i] != l[j]
  }

  /** m is the least index >= lo that is not in l. */
  ghost predicate LeastUnused(l: seq<nat>, lo: nat, m: nat) {
    lo <= m && m !in l && forall v :: lo <= v < m ==> v in l
  }

  /** The used indexes in lo .. m-1 occur in ascending order. */
  ghost predicate AscendingBelow(l: seq<nat>, lo: nat, m: nat) {
    forall i, j :: 0 <= i < j < |l| && lo <= l[i] < m && lo <= l[j] < m ==> l[i] < l[j]
  }

  lemma {:induction false} ScanGrows(l: seq<nat>, lo: nat)
    ensures lo <= Scan(l, lo)
  {
    if l != [] { ScanGrows(l[1..], if l[0] == lo then lo + 1 else lo); }
  }

  lemma {:induction false} ScanUnused(l: seq<nat>, lo: nat, m: nat)
    requires LeastUnused(l, lo, m) && AscendingBelow(l, lo, m)
    ensures Scan(l, lo) == m
  {
    if l == [] {
      assert lo !in l;
    } else if l[0] == lo {
      forall v | lo + 1 <= v < m ensures v in l[1..] { assert v in l; }
      assert forall i, j :: 0 <= i < j < |l[1..]| ==> l[1..][i] == l[i + 1] && l[1..][j] == l[j + 1];
      ScanUnused(l[1..], lo + 1, m);
    } else {
      if lo < m {
        // lo comes later, so nothing in its range may stand before it
        assert lo in l;
        var j :| 0 <= j < |l| && l[j] == lo;
        assert !(lo <= l[0] < m);
      }
      forall v | lo <= v < m ensures v in l[1..] { assert v in l; }
      assert forall i, j :: 0 <= i < j < |l[1..]| ==> l[1..][i] == l[i + 1] && l[1..][j] == l[j + 1];
      ScanUnused(l[1..], lo, m);
    }
  }

  lemma {:induction false} ScanAscends(l: seq<nat>, lo: nat)
    requires Distinct(l)
    ensures lo <= Scan(l, lo)
    ensures AscendingBelow(l, lo, Scan(l, lo)) && forall v :: lo <= v < Scan(l, lo) ==> v in l
  {
    if l != [] {
      var t := l[1..];
      assert forall i :: 0 <= i < |t| ==> t[i] == l[i + 1];
      var next := if l[0] == lo then lo + 1 else lo;
      ScanAscends(t, next);
      var r := Scan(t, next);
      assert l[0] !in t;
      forall i, j | 0 <= i < j < |l| && lo <= l[i] < r && lo <= l[j] < r ensures l[i] < l[j] {
        assert l[j] == t[j - 1];
        if i > 0 { assert l[i] == t[i - 1]; }
      }
      forall v | lo <= v < r ensures v in l { assert v in t || v == l[0]; }
    }
  }

  /** Exactly when the scan finds a free index: the used indexes below the least unused one
      must stand in ascending order. It is then the least unused index. */
  lemma ScanIsFreshIff(l: seq<nat>, m: nat)
    requires Distinct(l) && LeastUnused(l, 1, m)
    ensures Scan(l, 1) !in l <==> AscendingBelow(l, 1, m)
    ensures AscendingBelow(l, 1, m) ==> Scan(l, 1) == m
  {
    ScanAscends(l, 1);
    var r := Scan(l, 1);
    if AscendingBelow(l, 1, m) {
      ScanUnused(l, 1, m);
    }
    if r !in l {
      assert r <= m;
      assert m <= r;
    }
  }

  /** Three groups, the first dropped, two more added: the second addition reuses index 2. */
  lemma ScanCollides()
    ensures Scan([], 1) == 1 && Scan([1], 1) == 2 && Scan([1, 2], 1) == 3
    ensures Scan([2, 3], 1) == 1
    ensures Scan([2, 3, 1], 1) == 2 && 2 in [2, 3, 1]
  {
  }

  /** Indexes 1 .. n in order, which is what additions alone produce. */
  ghost predicate Counting(l: seq<nat>) {
    forall i :: 0 <= i < |l| ==> l[i] == i + 1
  }

  lemma CountingScan(l: seq<nat>)
    requires Counting(l)
    ensures Distinct(l) && Scan(l, 1) == |l| + 1 && Counting(l + [Scan(l, 1)])
  {
    forall v | 1 <= v < |l| + 1 ensures v in l { assert l[v - 1] == v; }
    ScanUnused(l, 1, |l| + 1);
  }

  // ------------------------------------------------------------- membership

  /** A port that joined a multicast group in a VLAN, as the kernel reports it. */
  datatype Member = Member(port: nat, vid: nat, mac: Mac)

  ghost predicate EntryOk(e: Entry) {
    e.on !! e.off && (e.on != {} || e.off != {})
  }

  /** One entry per group and VLAN, none without members, nobody both enabled and disabled. */
  ghost predicate ListOk(l: seq<Entry>) {
    KeysOnce(l) && forall i :: 0 <= i < |l| ==> EntryOk(l[i])
  }

  ghost predicate KeysOnce(l: seq<Entry>) {
    forall i, j :: 0 <= i < j < |l| ==> !IsFor(l[i], l[j].mac, l[j].vid)
  }

  predicate HasMember(e: Entry, m: Member) {
    IsFor(e, m.mac, m.vid) && (m.port in e.on || m.port in e.off)
  }

  /** m is registered: in some entry, enabled or disabled. */
  ghost predicate Registered(l: seq<Entry>, m: Member) {
    exists i :: 0 <= i < |l| && HasMember(l[i], m)
  }

  predicate IsOn(e: Entry, m: Member) {
    IsFor(e, m.mac, m.vid) && m.port in e.on
  }

  /** m is enabled in some entry. */
  ghost predicate Active(l: seq<Entry>, m: Member) {
    exists i :: 0 <= i < |l| && IsOn(l[i], m)
  }

  lemma ActiveRegistered(l: seq<Entry>, m: Member)
    requires Active(l, m)
    ensures Registered(l, m)
  {
    var i :| 0 <= i < |l| && IsOn(l[i], m);
    assert HasMember(l[i], m);
  }

  function Position(l: seq<Entry>, mac: Mac, vid: nat): (i: nat)
    ensures i <= |l| && (i < |l| ==> IsFor(l[i], mac, vid))
    ensures forall j :: 0 <= j < i ==> !IsFor(l[j], mac, vid)
  {
    if l == [] then 0
    else if IsFor(l[0], mac, vid) then 0
    else
      var i := Position(l[1..], mac, vid);
      assert forall j :: 0 < j < i + 1 ==> l[j] == l[1..][j - 1];
      i + 1
  }

  function JoinEntry(e: Entry, port: nat): Entry {
    e.(on := e.on + {port}, off := e.off - {port})
  }

  function Joined(l: seq<Entry>, m: Member): seq<Entry> {
    var i := Position(l, m.mac, m.vid);
    if i < |l| then l[i := JoinEntry(l[i], m.port)]
    else l + [Entry(m.mac, m.vid, Scan(IndexesIn(l, m.vid), 1), {m.port}, {})]
  }

  function LeaveEntry(e: Entry, port: nat): Entry {
    e.(on := e.on - {port}, off := e.off - {port})
  }

  function Left(l: seq<Entry>, m: Member): seq<Entry> {
    var i := Position(l, m.mac, m.vid);
    if i == |l| then l
    else
      var e := LeaveEntry(l[i], m.port);
      if e.on == {} && e.off == {} then l[..i] + l[i + 1..] else l[i := e]
  }

  /** Join registers and enables m and nobody else. */
  lemma JoinedOk(l: seq<Entry>, m: Member)
    requires ListOk(l)
    ensures ListOk(Joined(l, m))
    ensures forall x :: Registered(Joined(l, m), x) <==> Registered(l, x) || x == m
    ensures forall x :: Active(Joined(l, m), x) <==> Active(l, x) || x == m
  {
    var i := Position(l, m.mac, m.vid);
    var l' := Joined(l, m);
    assert HasMember(l'[i], m) && IsOn(l'[i], m);
    forall x | Registered(l, x) ensures Registered(l', x) {
      var j :| 0 <= j < |l| && HasMember(l[j], x);
      assert HasMember(l'[j], x);
    }
    forall x | Registered(l', x) && x != m ensures Registered(l, x) {
      var j :| 0 <= j < |l'| && HasMember(l'[j], x);
      assert HasMember(l[j], x);
    }
    forall x | Active(l, x) ensures Active(l', x) {
      var j :| 0 <= j < |l| && IsOn(l[j], x);
      assert IsOn(l'[j], x);
    }
    forall x | Active(l', x) && x != m ensures Active(l, x) {
      var j :| 0 <= j < |l'| && IsOn(l'[j], x);
      assert IsOn(l[j], x);
    }
  }

  /** Entry i is the one of m, with the port taken out; it is dropped when nobody is left in it. */
  ghost predicate LeftAt(l: seq<Entry>, l': seq<Entry>, m: Member, i: nat) {
    && i < |l| && IsFor(l[i], m.mac, m.vid) && (forall j :: 0 <= j < |l| && j != i ==> !IsFor(l[j], m.mac, m.vid))
    && (forall j :: 0 <= j < i && j < |l'| ==> l'[j] == l[j])
    && if |l'| == |l| then
         l'[i] == LeaveEntry(l[i], m.port) && forall j :: i < j < |l| ==> l'[j] == l[j]
       else
         && |l'| == |l| - 1 && (forall j :: i <= j < |l'| ==> l'[j] == l[j + 1])
         && (forall p :: p in l[i].on || p in l[i].off ==> p == m.port)
  }

  lemma LeftIs(l: seq<Entry>, m: Member, i: nat)
    requires KeysOnce(l) && i == Position(l, m.mac, m.vid) < |l|
    ensures LeftAt(l, Left(l, m), m, i)
  {
    hide Position;
    var e, l' := LeaveEntry(l[i], m.port), Left(l, m);
    assert forall p :: p in l[i].on || p in l[i].off ==> p == m.port || p in e.on || p in e.off;
    if e.on == {} && e.off == {} {
      assert l' == l[..i] + l[i + 1..];
    } else {
      assert l' == l[i := e];
    }
    hide Left;
  }

  /** Leave takes m out of the registered and the enabled members, and nobody else. */
  lemma LeftOk(l: seq<Entry>, m: Member)
    requires ListOk(l)
    ensures ListOk(Left(l, m))
    ensures forall x :: Registered(Left(l, m), x) <==> Registered(l, x) && x != m
    ensures forall x :: Active(Left(l, m), x) <==> Active(l, x) && x != m
  {
    var i := Position(l, m.mac, m.vid);
    if i < |l| {
      LeftIs(l, m, i);
      LeftRegistered(l, Left(l, m), m, i);
      LeftActive(l, Left(l, m), m, i);
    }
    hide Registered, Active;
  }

  lemma LeftRegistered(l: seq<Entry>, l': seq<Entry>, m: Member, i: nat)
    requires LeftAt(l, l', m, i)
    ensures forall x :: Registered(l', x) <==> Registered(l, x) && x != m
  {
    forall x | Registered(l, x) && x != m ensures Registered(l', x) {
      var j :| 0 <= j < |l| && HasMember(l[j], x);
      assert HasMember(l'[if |l'| < |l| && j > i then j - 1 else j], x);
    }
    forall x | Registered(l', x) ensures Registered(l, x) && x != m {
      var j :| 0 <= j < |l'| && HasMember(l'[j], x);
      assert HasMember(l[if |l'| < |l| && j >= i then j + 1 else j], x);
    }
  }

  lemma LeftActive(l: seq<Entry>, l': seq<Entry>, m: Member, i: nat)
    requires LeftAt(l, l', m, i)
    ensures forall x :: Active(l', x) <==> Active(l, x) && x != m
  {
    forall x | Active(l, x) && x != m ensures Active(l', x) {
      var j :| 0 <= j < |l| && IsOn(l[j], x);
      assert IsOn(l'[if |l'| < |l| && j > i then j - 1 else j], x);
    }
    forall x | Active(l', x) ensures Active(l, x) && x != m {
      var j :| 0 <= j < |l'| && IsOn(l'[j], x);
      assert IsOn(l[if |l'| < |l| && j >= i then j + 1 else j], x);
    }
  }

  // ------------------------------------------------ VLAN off and on again

  function Disable(e: Entry, port: nat, vid: nat): Entry {
    if e.vid == vid && port in e.on then e.(on := e.on - {port}, off := e.off + {port}) else e
  }

  function Enable(e: Entry, port: nat, vid: nat): Entry {
    if e.vid == vid && port in e.off then JoinEntry(e, port) else e
  }

  /** Turning a VLAN off and on again restores an entry exactly when the port was not
      disabled in it beforehand. */
  lemma OffOnRoundTrip(e: Entry, port: nat, vid: nat)
    requires EntryOk(e)
    ensures Enable(Disable(e, port, vid), port, vid) == e <==> !(e.vid == vid && port in e.off)
  {
  }

  predicate Places(m: Member, port: nat, vid: nat) { m.port == port && m.vid == vid }

  /** A port leaves a VLAN: exactly its memberships there are disabled. */
  lemma DisabledAll(l: seq<Entry>, l': seq<Entry>, port: nat, vid: nat)
    requires |l'| == |l| && forall i :: 0 <= i < |l| ==> l'[i] == Disable(l[i], port, vid)
    requires ListOk(l)
    ensures forall m :: Active(l', m) <==> Active(l, m) && !Places(m, port, vid)
  {
    forall m ensures Active(l', m) <==> Active(l, m) && !Places(m, port, vid) {
      assert forall i :: 0 <= i < |l| ==> (IsOn(l'[i], m) <==> IsOn(l[i], m) && !Places(m, port, vid));
    }
  }

  /** A port enters a VLAN: exactly its memberships there are enabled. */
  lemma EnabledAll(l: seq<Entry>, l': seq<Entry>, port: nat, vid: nat)
    requires |l'| == |l| && forall i :: 0 <= i < |l| ==> l'[i] == Enable(l[i], port, vid)
    ensures forall m :: Active(l', m) <==> Active(l, m) || (Places(m, port, vid) && Registered(l, m))
  {
    forall m ensures Active(l', m) <==> Active(l, m) || (Places(m, port, vid) && Registered(l, m)) {
      assert forall i :: 0 <= i < |l| ==>
               (IsOn(l'[i], m) <==> IsOn(l[i], m) || (Places(m, port, vid) && HasMember(l[i], m)));
    }
  }

  lemma PositionAt(l: seq<Entry>, i: nat)
    requires KeysOnce(l) && i < |l|
    ensures Position(l, l[i].mac, l[i].vid) == i
  {
  }

  // ---------------------------------------- differences of two member sets

  /** The order of std::tuple<port, vid, mac>. */
  predicate Less(a: Member, b: Member) {
    a.port < b.port || (a.port == b.port && (a.vid < b.vid || (a.vid == b.vid && a.mac < b.mac)))
  }

  /** An ordered set. */
  ghost predicate Sorted(l: seq<Member>) {
    forall i, j :: 0 <= i < j < |l| ==> Less(l[i], l[j])
  }

  datatype Op = JoinOp(m: Member) | LeaveOp(m: Member)

  /** The calls made by the parallel walk over the old and the new entries. */
  function Diff(a: seq<Member>, b: seq<Member>): seq<Op>
    decreases |a| + |b|
  {
    if a == [] && b == [] then []
    else if b == [] || (a != [] && Less(a[0], b[0])) then [LeaveOp(a[0])] + Diff(a[1..], b)
    else if a == [] || Less(b[0], a[0]) then [JoinOp(b[0])] + Diff(a, b[1..])
    else Diff(a[1..], b[1..])
  }

  function ApplyOp(l: seq<Entry>, op: Op): seq<Entry> {
    match op
    case JoinOp(m) => Joined(l, m)
    case LeaveOp(m) => Left(l, m)
  }

  function ApplyOps(l: seq<Entry>, ops: seq<Op>): seq<Entry>
    decreases |ops|
  {
    if ops == [] then l else ApplyOps(ApplyOp(l, ops[0]), ops[1..])
  }

  lemma TailSorted(a: seq<Member>)
    requires Sorted(a) && a != []
    ensures Sorted(a[1..]) && forall x :: x in a <==> x == a[0] || x in a[1..]
    ensures forall x :: x in a[1..] ==> Less(a[0], x)
  {
  }

  /** Exactly one leave for each element of a \ b, one join for each element of b \ a. */
  lemma {:induction false} DiffExact(a: seq<Member>, b: seq<Member>)
    requires Sorted(a) && Sorted(b)
    ensures forall m :: LeaveOp(m) in Diff(a, b) <==> m in a && m !in b
    ensures forall m :: JoinOp(m) in Diff(a, b) <==> m in b && m !in a
    ensures forall i, j :: 0 <= i < j < |Diff(a, b)| ==> Diff(a, b)[i] != Diff(a, b)[j]
    decreases |a| + |b|
  {
    if a != [] { TailSorted(a); }
    if b != [] { TailSorted(b); }
    if a == [] && b == [] {
    } else if b == [] || (a != [] && Less(a[0], b[0])) {
      DiffExact(a[1..], b);
      assert a[0] !in b;
    } else if a == [] || Less(b[0], a[0]) {
      DiffExact(a, b[1..]);
      assert b[0] !in a;
    } else {
      assert a[0] == b[0];
      DiffExact(a[1..], b[1..]);
    }
  }

  /** Executing operations on distinct members changes the registration of just these. */
  lemma {:induction false} ApplyOpsRegistered(l: seq<Entry>, ops: seq<Op>)
    requires ListOk(l)
    requires forall m :: !(JoinOp(m) in ops && LeaveOp(m) in ops)
    ensures ListOk(ApplyOps(l, ops))
    ensures forall m :: Registered(ApplyOps(l, ops), m)
                        <==> JoinOp(m) in ops || (Registered(l, m) && LeaveOp(m) !in ops)
    ensures forall m :: Active(ApplyOps(l, ops), m) <==> JoinOp(m) in ops || (Active(l, m) && LeaveOp(m) !in ops)
    decreases |ops|
  {
    if ops != [] {
      match ops[0] {
        case JoinOp(m) => JoinedOk(l, m);
        case LeaveOp(m) => LeftOk(l, m);
      }
      assert forall op :: op in ops <==> op == ops[0] || op in ops[1..];
      hide Active, Registered, Joined, Left, ListOk;
      ApplyOpsRegistered(ApplyOp(l, ops[0]), ops[1..]);
    }
  }

  /** From exactly the old members to exactly the new ones; those that stay keep being enabled or disabled,
      and the new ones are enabled. */
  lemma DiffTakesOldToNew(l: seq<Entry>, a: seq<Member>, b: seq<Member>)
    requires ListOk(l) && Sorted(a) && Sorted(b)
    requires forall m :: Registered(l, m) <==> m in a
    ensures ListOk(ApplyOps(l, Diff(a, b)))
    ensures forall m :: Registered(ApplyOps(l, Diff(a, b)), m) <==> m in b
    ensures forall m :: Active(ApplyOps(l, Diff(a, b)), m) <==> m in b && (m !in a || Active(l, m))
  {
    DiffExact(a, b);
    ApplyOpsRegistered(l, Diff(a, b));
    forall m | Active(l, m) ensures m in a { ActiveRegistered(l, m); }
  }

  // ---------------------------------------------------- indexes over a run

  lemma {:induction false} IndexesMember(l: seq<Entry>, vid: nat, x: nat)
    ensures x in IndexesIn(l, vid) <==> exists i :: 0 <= i < |l| && l[i].vid == vid && l[i].index == x
  {
    if l != [] {
      IndexesMember(l[1..], vid, x);
      if x in IndexesIn(l[1..], vid) {
        var i :| 0 <= i < |l[1..]| && l[1..][i].vid == vid && l[1..][i].index == x;
        assert l[i + 1].vid == vid && l[i + 1].index == x;
      }
      if i :| 0 < i < |l| && l[i].vid == vid && l[i].index == x {
        assert l[1..][i - 1].vid == vid && l[1..][i - 1].index == x;
      }
    }
  }

  /** The index a new group of the VLAN would get is not in use there. */
  predicate FreshIndex(l: seq<Entry>, vid: nat) {
    forall i | 0 <= i < |l| :: l[i].vid == vid ==> l[i].index != Scan(IndexesIn(l, vid), 1)
  }

  /** When a new group gets a free index, in terms of the list the scan walks over. */
  lemma FreshIndexIff(l: seq<Entry>, vid: nat, m: nat)
    requires Distinct(IndexesIn(l, vid)) && LeastUnused(IndexesIn(l, vid), 1, m)
    ensures FreshIndex(l, vid) <==> AscendingBelow(IndexesIn(l, vid), 1, m)
  {
    IndexesMember(l, vid, Scan(IndexesIn(l, vid), 1));
    ScanIsFreshIff(IndexesIn(l, vid), m);
  }

  lemma {:induction false} IndexesAppend(l: seq<Entry>, e: Entry, vid: nat)
    ensures IndexesIn(l + [e], vid) == IndexesIn(l, vid) + (if e.vid == vid then [e.index] else [])
  {
    var last := if e.vid == vid then [e.index] else [];
    if l == [] {
      assert l + [e] == [e] && [e][1..] == [];
    } else {
      var first := if l[0].vid == vid then [l[0].index] else [];
      assert (l + [e])[1..] == l[1..] + [e] && (l + [e])[0] == l[0];
      IndexesAppend(l[1..], e, vid);
      assert first + (IndexesIn(l[1..], vid) + last) == (first + IndexesIn(l[1..], vid)) + last;
    }
  }

  lemma {:induction false} IndexesUpdate(l: seq<Entry>, i: nat, e: Entry, vid: nat)
    requires i < |l| && e.vid == l[i].vid && e.index == l[i].index
    ensures IndexesIn(l[i := e], vid) == IndexesIn(l, vid)
  {
    if i == 0 {
      assert l[i := e][1..] == l[1..];
    } else {
      assert l[i := e][1..] == l[1..][i - 1 := e];
      IndexesUpdate(l[1..], i - 1, e, vid);
    }
  }

  ghost predicate AllCounting(l: seq<Entry>) {
    forall vid :: Counting(IndexesIn(l, vid))
  }

  /** Joining m does not create a group under a used index. */
  predicate JoinFresh(l: seq<Entry>, m: Member) {
    Position(l, m.mac, m.vid) == |l| ==> FreshIndex(l, m.vid)
  }

  lemma JoinCounting(l: seq<Entry>, m: Member)
    requires AllCounting(l)
    ensures JoinFresh(l, m) && AllCounting(Joined(l, m))
  {
    var i := Position(l, m.mac, m.vid);
    CountingScan(IndexesIn(l, m.vid));
    IndexesMember(l, m.vid, Scan(IndexesIn(l, m.vid), 1));
    forall vid ensures Counting(IndexesIn(Joined(l, m), vid)) {
      if i < |l| {
        IndexesUpdate(l, i, JoinEntry(l[i], m.port), vid);
      } else {
        IndexesAppend(l, Entry(m.mac, m.vid, Scan(IndexesIn(l, m.vid), 1), {m.port}, {}), vid);
      }
    }
  }

  lemma LeaveCounting(l: seq<Entry>, m: Member)
    requires AllCounting(l) && |Left(l, m)| == |l|
    ensures AllCounting(Left(l, m))
  {
    var i := Position(l, m.mac, m.vid);
    if i < |l| {
      forall vid ensures Counting(IndexesIn(Left(l, m), vid)) {
        IndexesUpdate(l, i, LeaveEntry(l[i], m.port), vid);
      }
    }
  }

  /** Every join of a sequence of operations finds a free index. */
  predicate FreshRun(l: seq<Entry>, ops: seq<Op>)
    decreases |ops|
  {
    ops == [] || ((ops[0].JoinOp? ==> JoinFresh(l, ops[0].m)) && FreshRun(ApplyOp(l, ops[0]), ops[1..]))
  }

  /** One more operation at the end. */
  lemma {:induction false} ApplyLast(l: seq<Entry>, ops: seq<Op>, op: Op)
    ensures ApplyOps(l, ops + [op]) == ApplyOp(ApplyOps(l, ops), op)
    ensures FreshRun(l, ops + [op]) <==>
              FreshRun(l, ops) && (op.JoinOp? ==> JoinFresh(ApplyOps(l, ops), op.m))
    decreases |ops|
  {
    hide JoinFresh, ApplyOp;
    if ops == [] {
      assert ops + [op] == [op] && [op][1..] == [];
    } else {
      assert (ops + [op])[1..] == ops[1..] + [op];
      ApplyLast(ApplyOp(l, ops[0]), ops[1..], op);
    }
  }

  /** No leave of the sequence takes the last member of a group. */
  ghost predicate NoErase(l: seq<Entry>, ops: seq<Op>)
    decreases |ops|
  {
    ops == [] || (|ApplyOp(l, ops[0])| >= |l| && NoErase(ApplyOp(l, ops[0]), ops[1..]))
  }

  /** As long as no group is erased, every new group of a VLAN gets the next index and all stay distinct. */
  lemma {:induction false} RunWithoutErase(l: seq<Entry>, ops: seq<Op>)
    requires AllCounting(l) && NoErase(l, ops)
    ensures FreshRun(l, ops) && AllCounting(ApplyOps(l, ops))
    decreases |ops|
  {
    if ops != [] {
      match ops[0] {
        case JoinOp(m) => JoinCounting(l, m);
        case LeaveOp(m) => LeaveCounting(l, m);
      }
      RunWithoutErase(ApplyOp(l, ops[0]), ops[1..]);
    }
  }

  /** Addresses of five IPv4 multicast groups, 224.0.0.10 and following. */
  const G10: Mac := 0x01_00_5e_00_00_0a
  const G11: Mac := 0x01_00_5e_00_00_0b
  const G12: Mac := 0x01_00_5e_00_00_0c
  const G13: Mac := 0x01_00_5e_00_00_0d
  const G14: Mac := 0x01_00_5e_00_00_0e

  const E10 := Entry(G10, 5, 1, {1}, {})
  const E11 := Entry(G11, 5, 2, {1}, {})
  const E12 := Entry(G12, 5, 3, {1}, {})
  const E13 := Entry(G13, 5, 1, {1}, {})
  const E14 := Entry(G14, 5, 2, {1}, {})

  lemma ThreeGroups()
    ensures Joined([], Member(1, 5, G10)) == [E10]
    ensures Joined([E10], Member(1, 5, G11)) == [E10, E11]
    ensures Joined([E10, E11], Member(1, 5, G12)) == [E10, E11, E12]
    ensures Left([E10, E11, E12], Member(1, 5, G10)) == [E11, E12]
  {
    ScanCollides();
    IndexesAppend([], E10, 5);
    IndexesAppend([E10], E11, 5);
    assert [] + [E10] == [E10] && [E10] + [E11] == [E10, E11] && [E10, E11] + [E12] == [E10, E11, E12];
    assert LeaveEntry(E10, 1).on == {};
  }

  lemma TwoMore()
    ensures Joined([E11, E12], Member(1, 5, G13)) == [E11, E12, E13]
    ensures Joined([E11, E12, E13], Member(1, 5, G14)) == [E11, E12, E13, E14]
    ensures !JoinFresh([E11, E12, E13], Member(1, 5, G14))
  {
    ScanCollides();
    IndexesAppend([], E11, 5);
    IndexesAppend([E11], E12, 5);
    IndexesAppend([E11, E12], E13, 5);
    var l := [E11, E12, E13];
    assert [] + [E11] == [E11] && [E11] + [E12] == [E11, E12] && [E11, E12] + [E13] == l
           && l + [E14] == [E11, E12, E13, E14];
    assert IndexesIn(l, 5) == [2, 3, 1];
    assert Position(l, G14, 5) == 3;
    assert l[0].vid == 5 && l[0].index == 2;
  }

  /** Three groups, the first one dropped, two more added: two groups end up with index 2. */
  lemma RunWithEraseCollides()
    ensures var ops := [JoinOp(Member(1, 5, G10)), JoinOp(Member(1, 5, G11)), JoinOp(Member(1, 5, G12)),
                        LeaveOp(Member(1, 5, G10)), JoinOp(Member(1, 5, G13)), JoinOp(Member(1, 5, G14))];
            ApplyOps([], ops) == [E11, E12, E13, E14] && !FreshRun([], ops)
    ensures E11.vid == E14.vid && E11.index == E14.index && E11.mac != E14.mac
  {
    hide Joined, Left, JoinFresh;
    ThreeGroups();
    TwoMore();
    var o0, o1, o2 := JoinOp(Member(1, 5, G10)), JoinOp(Member(1, 5, G11)), JoinOp(Member(1, 5, G12));
    var o3, o4, o5 := LeaveOp(Member(1, 5, G10)), JoinOp(Member(1, 5, G13)), JoinOp(Member(1, 5, G14));
    ApplyFirst([E11, E12, E13], o5, []);
    ApplyFirst([E11, E12], o4, [o5]);
    ApplyFirst([E10, E11, E12], o3, [o4, o5]);
    ApplyFirst([E10, E11], o2, [o3, o4, o5]);
    ApplyFirst([E10], o1, [o2, o3, o4, o5]);
    ApplyFirst([], o0, [o1, o2, o3, o4, o5]);
    assert [o5] + [] == [o5] && [o4] + [o5] == [o4, o5] && [o3] + [o4, o5] == [o3, o4, o5];
    assert [o2] + [o3, o4, o5] == [o2, o3, o4, o5] && [o1] + [o2, o3, o4, o5] == [o1, o2, o3, o4, o5];
    assert [o0] + [o1, o2, o3, o4, o5] == [o0, o1, o2, o3, o4, o5];
  }

  lemma ApplyFirst(l: seq<Entry>, op: Op, rest: seq<Op>)
    ensures ApplyOps(l, [op] + rest) == ApplyOps(ApplyOp(l, op), rest)
    ensures FreshRun(l, [op] + rest) <==> (op.JoinOp? ==> JoinFresh(l, op.m)) && FreshRun(ApplyOp(l, op), rest)
  {
  }

  // ------------------------------------------- registration, enabled or not

  /** An entry without the difference between enabled and disabled members. */
  function Reg(e: Entry): Entry {
    e.(on := e.on + e.off, off := {})
  }

  function RegOf(l: seq<Entry>): seq<Entry> {
    seq(|l|, i requires 0 <= i < |l| => Reg(l[i]))
  }

  lemma RegOnOff(e: Entry, port: nat, vid: nat)
    ensures Reg(Disable(e, port, vid)) == Reg(e) && Reg(Enable(e, port, vid)) == Reg(e)
  {
  }

  lemma RegMembers(l: seq<Entry>, m: Member)
    ensures Registered(RegOf(l), m) <==> Registered(l, m)
  {
    if Registered(l, m) {
      var i :| 0 <= i < |l| && HasMember(l[i], m);
      assert HasMember(RegOf(l)[i], m);
    }
    if Registered(RegOf(l), m) {
      var i :| 0 <= i < |l| && HasMember(RegOf(l)[i], m);
      assert HasMember(l[i], m);
    }
  }

  lemma RegPosition(l: seq<Entry>, mac: Mac, vid: nat)
    ensures Position(RegOf(l), mac, vid) == Position(l, mac, vid)
  {
    var i, j := Position(l, mac, vid), Position(RegOf(l), mac, vid);
    assert i < |l| ==> IsFor(RegOf(l)[i], mac, vid);
    assert j < |l| ==> IsFor(l[j], mac, vid);
  }

  lemma {:induction false} RegIndexes(l: seq<Entry>, vid: nat)
    ensures IndexesIn(RegOf(l), vid) == IndexesIn(l, vid)
  {
    if l != [] {
      assert RegOf(l)[1..] == RegOf(l[1..]);
      RegIndexes(l[1..], vid);
    }
  }

  lemma RegFresh(l: seq<Entry>, vid: nat)
    ensures FreshIndex(RegOf(l), vid) <==> FreshIndex(l, vid)
  {
    var x := Scan(IndexesIn(l, vid), 1);
    RegIndexes(l, vid);
    IndexesMember(l, vid, x);
    IndexesMember(RegOf(l), vid, x);
  }

  lemma RegEntry(e: Entry, port: nat)
    ensures Reg(JoinEntry(e, port)) == JoinEntry(Reg(e), port)
    ensures Reg(LeaveEntry(e, port)) == LeaveEntry(Reg(e), port)
  {
  }

  lemma RegList(l: seq<Entry>, i: nat, e: Entry)
    ensures RegOf(l + [e]) == RegOf(l) + [Reg(e)]
    ensures i < |l| ==> RegOf(l[i := e]) == RegOf(l)[i := Reg(e)]
    ensures i < |l| ==> RegOf(l[..i] + l[i + 1..]) == RegOf(l)[..i] + RegOf(l)[i + 1..]
  {
  }

  /** Joins and leaves work on the registration alone: which members are disabled does not matter. */
  lemma RegApply(l: seq<Entry>, op: Op)
    ensures RegOf(ApplyOp(l, op)) == ApplyOp(RegOf(l), op)
    ensures op.JoinOp? ==> (JoinFresh(l, op.m) <==> JoinFresh(RegOf(l), op.m))
  {
    var m := op.m;
    var i := Position(l, m.mac, m.vid);
    RegPosition(l, m.mac, m.vid);
    RegIndexes(l, m.vid);
    if i < |l| {
      RegEntry(l[i], m.port);
      RegList(l, i, JoinEntry(l[i], m.port));
      RegList(l, i, LeaveEntry(l[i], m.port));
    } else {
      var e := Entry(m.mac, m.vid, Scan(IndexesIn(l, m.vid), 1), {m.port}, {});
      assert Reg(e) == e;
      RegList(l, i, e);
      RegFresh(l, m.vid);
    }
  }

  lemma {:induction false} RegApplyAll(l: seq<Entry>, ops: seq<Op>)
    ensures RegOf(ApplyOps(l, ops)) == ApplyOps(RegOf(l), ops)
    ensures FreshRun(l, ops) <==> FreshRun(RegOf(l), ops)
    decreases |ops|
  {
    if ops != [] {
      RegApply(l, ops[0]);
      RegApplyAll(ApplyOp(l, ops[0]), ops[1..]);
    }
  }
}
