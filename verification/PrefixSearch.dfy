/** Finding the neighbours inside a prefix by binary search in the ordered neighbour set. */
module PrefixSearch {
  import opened L3Types

  /** Lexicographic comparison of as many bits as both sides have. */
  function CmpBits(a: seq<bool>, b: seq<bool>): int {
    if a == [] || b == [] then 0
    else if a[0] == b[0] then CmpBits(a[1..], b[1..])
    else if b[0] then -1 else 1
  }

  /** nl_addr_cmp_prefix; between two host addresses of one family it is nl_addr_cmp as well. */
  function CmpPrefix(a: Addr, b: Addr): int {
    if a.v6 != b.v6 then (if b.v6 then -1 else 1) else CmpBits(a.bits, b.bits)
  }

  /** nh_stub::operator< */
  predicate Less(a: NhStub, b: NhStub) {
    var c := CmpPrefix(a.addr, b.addr);
    if c < 0 then true
    else if c > 0 then false
    else if a.nhid < b.nhid then true
    else if a.nhid > b.nhid then false
    else a.ifindex < b.ifindex
  }

  ghost predicate Sorted(l: seq<NhStub>) {
    && (forall i :: 0 <= i < |l| ==> IsHost(l[i].addr))
    && (forall i, j :: 0 <= i < j < |l| ==> Less(l[i], l[j]))
  }

  /** operator< is a strict order whose incomparable elements are equal. */
  lemma LessIsTotal(a: NhStub, b: NhStub)
    requires IsHost(a.addr) && IsHost(b.addr)
    ensures (if Less(a, b) then 1 else 0) + (if Less(b, a) then 1 else 0) + (if a == b then 1 else 0) == 1
  {
    CmpAntisymmetric(a.addr.bits, b.addr.bits);
  }

  lemma {:induction false} CmpAntisymmetric(a: seq<bool>, b: seq<bool>)
    ensures CmpBits(a, b) == -CmpBits(b, a)
    ensures |a| == |b| && CmpBits(a, b) == 0 ==> a == b
  {
    if a != [] && b != [] {
      CmpAntisymmetric(a[1..], b[1..]);
      assert a == [a[0]] + a[1..] && b == [b[0]] + b[1..];
    }
  }

  lemma {:induction false} CmpZeroIsPrefix(a: seq<bool>, p: seq<bool>)
    requires |p| <= |a|
    ensures CmpBits(a, p) == 0 <==> p <= a
  {
    if p != [] {
      CmpZeroIsPrefix(a[1..], p[1..]);
      assert a == [a[0]] + a[1..] && p == [p[0]] + p[1..];
    }
  }

  /** The comparison with a fixed prefix is monotone in the address. */
  lemma {:induction false} CmpMonotone(a: seq<bool>, b: seq<bool>, p: seq<bool>)
    requires |a| == |b| && CmpBits(a, b) <= 0
    ensures CmpBits(a, p) <= CmpBits(b, p)
  {
    if a != [] && p != [] {
      if a[0] == b[0] {
        CmpMonotone(a[1..], b[1..], p[1..]);
      } else {
        CmpRange(a, p);
        CmpRange(b, p);
      }
    }
  }

  lemma {:induction false} CmpRange(a: seq<bool>, p: seq<bool>)
    ensures -1 <= CmpBits(a, p) <= 1
  {
    if a != [] && p != [] { CmpRange(a[1..], p[1..]); }
  }

  lemma CoversIsZero(prefix: Addr, a: Addr)
    requires IsHost(a) && IsPrefix(prefix)
    ensures Covers(prefix, a) <==> CmpPrefix(a, prefix) == 0
    ensures CmpPrefix(a, prefix) == -CmpPrefix(prefix, a)
  {
    if a.v6 == prefix.v6 {
      CmpZeroIsPrefix(a.bits, prefix.bits);
      CmpAntisymmetric(a.bits, prefix.bits);
    }
  }

  /** Along a sorted list the comparison with the prefix never decreases: what the prefix covers is contiguous. */
  lemma SortedMonotone(l: seq<NhStub>, prefix: Addr)
    requires Sorted(l)
    ensures forall i, j :: 0 <= i <= j < |l| ==> CmpPrefix(l[i].addr, prefix) <= CmpPrefix(l[j].addr, prefix)
  {
    forall i, j | 0 <= i <= j < |l| ensures CmpPrefix(l[i].addr, prefix) <= CmpPrefix(l[j].addr, prefix) {
      var a, b := l[i].addr, l[j].addr;
      CmpAntisymmetric(a.bits, b.bits);
      CmpRange(a.bits, prefix.bits);
      CmpRange(b.bits, prefix.bits);
      if i < j && a.v6 == b.v6 { CmpMonotone(a.bits, b.bits, prefix.bits); }
    }
  }

  /** First position whose address does not compare below the prefix. */
  method LowerBound(l: seq<NhStub>, prefix: Addr) returns (first: nat)
    requires Sorted(l)
    ensures first <= |l|
    ensures forall i :: 0 <= i < |l| ==> (CmpPrefix(l[i].addr, prefix) < 0 <==> i < first)
  {
    SortedMonotone(l, prefix);
    first := 0;
    var len := |l|;
    while len > 0
      invariant 0 <= len && first + len <= |l|
      invariant forall i :: 0 <= i < first ==> CmpPrefix(l[i].addr, prefix) < 0
      invariant forall i :: first + len <= i < |l| ==> CmpPrefix(l[i].addr, prefix) >= 0
    {
      var half := len / 2;
      var middle := first + half;
      if CmpPrefix(l[middle].addr, prefix) < 0 {
        first := middle + 1;
        len := len - half - 1;
      } else {
        len := half;
      }
    }
  }

  /** First position whose address the prefix compares below. */
  method UpperBound(l: seq<NhStub>, prefix: Addr) returns (first: nat)
    requires Sorted(l) && IsPrefix(prefix)
    ensures first <= |l|
    ensures forall i :: 0 <= i < |l| ==> (CmpPrefix(prefix, l[i].addr) < 0 <==> i >= first)
  {
    SortedMonotone(l, prefix);
    forall i | 0 <= i < |l| ensures CmpPrefix(l[i].addr, prefix) == -CmpPrefix(prefix, l[i].addr) {
      CoversIsZero(prefix, l[i].addr);
    }
    first := 0;
    var len := |l|;
    while len > 0
      invariant 0 <= len && first + len <= |l|
      invariant forall i :: 0 <= i < first ==> CmpPrefix(prefix, l[i].addr) >= 0
      invariant forall i :: first + len <= i < |l| ==> CmpPrefix(prefix, l[i].addr) < 0
    {
      var half := len / 2;
      var middle := first + half;
      if CmpPrefix(prefix, l[middle].addr) < 0 {
        len := half;
      } else {
        first := middle + 1;
        len := len - half - 1;
      }
    }
  }

  /** The simple form: go through all neighbours. */
  function Filter(l: seq<NhStub>, prefix: Addr): seq<NhStub> {
    if l == [] then []
    else (if Covers(prefix, l[0].addr) then [l[0]] else []) + Filter(l[1..], prefix)
  }

  lemma {:induction false} FilterSlice(l: seq<NhStub>, prefix: Addr, lo: nat, hi: nat)
    requires lo <= hi <= |l| && forall i :: 0 <= i < |l| ==> (Covers(prefix, l[i].addr) <==> lo <= i < hi)
    ensures Filter(l, prefix) == l[lo..hi]
  {
    if l != [] {
      var t := l[1..];
      assert forall i :: 0 <= i < |t| ==> t[i] == l[i + 1];
      if lo == 0 && hi > 0 {
        FilterSlice(t, prefix, 0, hi - 1);
        assert l[0..hi] == [l[0]] + t[0..hi - 1];
      } else if hi == 0 {
        FilterSlice(t, prefix, 0, 0);
      } else {
        FilterSlice(t, prefix, lo - 1, hi - 1);
        assert l[lo..hi] == t[lo - 1..hi - 1];
      }
    }
  }

  /** The binary search returns exactly what the full walk would, in the same order. */
  method GetL3NeighsOfPrefix(l: seq<NhStub>, prefix: Addr) returns (ret: seq<NhStub>)
    requires Sorted(l) && IsPrefix(prefix)
    ensures ret == Filter(l, prefix) && Sorted(ret)
    ensures forall n :: n in ret <==> n in l && Covers(prefix, n.addr)
  {
    hide CmpPrefix, Filter;
    var first := LowerBound(l, prefix);
    var last := UpperBound(l, prefix);
    CoveredRange(l, prefix, first, last);
    FilterSlice(l, prefix, first, last);
    SliceMembers(l, prefix, first, last);
    ret := [];
    var n := first;
    while n != last
      invariant first <= n <= last && ret == l[first..n]
      decreases last - n
    {
      assert l[first..n + 1] == l[first..n] + [l[n]];
      ret := ret + [l[n]];
      n := n + 1;
    }
  }

  lemma CoveredRange(l: seq<NhStub>, prefix: Addr, first: nat, last: nat)
    requires Sorted(l) && IsPrefix(prefix) && first <= |l| && last <= |l|
    requires forall i :: 0 <= i < |l| ==> (CmpPrefix(l[i].addr, prefix) < 0 <==> i < first)
    requires forall i :: 0 <= i < |l| ==> (CmpPrefix(prefix, l[i].addr) < 0 <==> i >= last)
    ensures first <= last && forall i :: 0 <= i < |l| ==> (Covers(prefix, l[i].addr) <==> first <= i < last)
  {
    forall i | 0 <= i < |l|
      ensures (Covers(prefix, l[i].addr) <==> first <= i < last)
              && CmpPrefix(l[i].addr, prefix) == -CmpPrefix(prefix, l[i].addr) {
      CoversIsZero(prefix, l[i].addr);
    }
    assert last < |l| ==> CmpPrefix(prefix, l[last].addr) < 0;
  }

  lemma SliceMembers(l: seq<NhStub>, prefix: Addr, first: nat, last: nat)
    requires first <= last <= |l| && forall i :: 0 <= i < |l| ==> (Covers(prefix, l[i].addr) <==> first <= i < last)
    ensures forall n :: n in l[first..last] <==> n in l && Covers(prefix, n.addr)
  {
  }

  // ------------------------------------------------ the set as a list in order

  lemma {:induction false} CmpTransitive(a: seq<bool>, b: seq<bool>, c: seq<bool>)
    requires |a| == |b| == |c| && CmpBits(a, b) <= 0 && CmpBits(b, c) <= 0
    ensures CmpBits(a, c) <= 0 && (CmpBits(a, c) == 0 ==> CmpBits(a, b) == 0 && CmpBits(b, c) == 0)
  {
    if a != [] && a[0] == b[0] == c[0] {
      CmpTransitive(a[1..], b[1..], c[1..]);
    }
  }

  lemma LessTransitive(a: NhStub, b: NhStub, c: NhStub)
    requires IsHost(a.addr) && IsHost(b.addr) && IsHost(c.addr) && Less(a, b) && Less(b, c)
    ensures Less(a, c)
  {
    if a.addr.v6 == b.addr.v6 == c.addr.v6 {
      CmpTransitive(a.addr.bits, b.addr.bits, c.addr.bits);
    }
  }

  /** x takes its place in the order. */
  method Insert(l: seq<NhStub>, x: NhStub) returns (r: seq<NhStub>)
    requires Sorted(l) && IsHost(x.addr) && x !in l
    ensures Sorted(r) && forall y :: y in r <==> y in l || y == x
  {
    hide Less, IsHost;
    var i := 0;
    while i < |l| && Less(l[i], x)
      invariant i <= |l| && forall j :: 0 <= j < i ==> Less(l[j], x)
    {
      i := i + 1;
    }
    if i < |l| {
      LessIsTotal(l[i], x);
      forall j | i <= j < |l| ensures Less(x, l[j]) {
        if j > i { LessTransitive(x, l[i], l[j]); }
      }
    }
    r := l[..i] + [x] + l[i..];
    assert forall y :: y in l <==> y in l[..i] || y in l[i..] by { assert l == l[..i] + l[i..]; }
  }

  /** The neighbours of a set in the order of std::set<nh_stub>. */
  method Ordered(s: set<NeighId>) returns (l: seq<NhStub>)
    requires forall n :: n in s ==> IsHost(n.addr)
    ensures Sorted(l) && forall x :: x in l <==> x.nhid == 0 && x.Id() in s
  {
    hide Less, IsHost;
    l := [];
    var todo := s;
    while todo != {}
      invariant todo <= s && Sorted(l)
      invariant forall x :: x in l <==> x.nhid == 0 && x.Id() in s && x.Id() !in todo
      decreases todo
    {
      var n :| n in todo;
      l := Insert(l, NhStub(n.addr, n.ifindex, 0));
      todo := todo - {n};
    }
  }
}
