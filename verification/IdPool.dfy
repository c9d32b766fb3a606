/** The id pools of the controller: a counter plus a set of freed ids, smallest first. */
module IdPool {

  datatype Pool = Pool(next: nat, freed: set<nat>)

  /** Live and freed ids partition 1 .. next-1: no id is lost and none is given out twice. */
  ghost predicate PoolOk(p: Pool, live: set<nat>) {
    && 1 <= p.next
    && live !! p.freed
    && (forall i :: i in live || i in p.freed <==> 1 <= i < p.next)
  }

  lemma LeastExists(s: set<nat>) returns (m: nat)
    requires s != {}
    ensures m in s && forall i :: i in s ==> m <= i
  {
    var x :| x in s;
    var rest := s - {x};
    assert s == rest + {x};
    m := x;
    if rest != {} {
      var l := LeastExists(rest);
      m := if l < x then l else x;
    }
  }

  /** The id handed out by the next allocation. */
  predicate IsNextId(p: Pool, id: nat) {
    if p.freed == {} then id == p.next
    else id in p.freed && forall i | i in p.freed :: id <= i
  }

  function Take(p: Pool, id: nat): Pool {
    if p.freed == {} then p.(next := p.next + 1) else p.(freed := p.freed - {id})
  }

  function Free(p: Pool, id: nat): Pool {
    p.(freed := p.freed + {id})
  }

  method NextId(p: Pool) returns (id: nat)
    ensures IsNextId(p, id)
  {
    if p.freed == {} {
      id := p.next;
    } else {
      ghost var m := LeastExists(p.freed);
      id :| id in p.freed && forall i | i in p.freed :: id <= i;
    }
  }

  lemma TakeOk(p: Pool, live: set<nat>, id: nat)
    requires PoolOk(p, live) && IsNextId(p, id)
    ensures id !in live && id >= 1 && PoolOk(Take(p, id), live + {id})
  {
  }

  lemma FreeOk(p: Pool, live: set<nat>, id: nat)
    requires PoolOk(p, live) && id in live
    ensures PoolOk(Free(p, id), live - {id})
  {
  }
}
