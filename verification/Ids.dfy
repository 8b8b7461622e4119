/** The source of unique ids (src/id.rs). */
module Ids {
  import opened Types

  /** An inclusive range; only `IdSource.NewRange` makes one, and never an empty one. */
  datatype IdRange = IdRange(first: Id, last: Id) {
    function Len(): int { last - first + 1 }

    function Get(index: nat): Id { first + index }

    ghost predicate Has(id: Id) { first <= id <= last }
  }

  /** `get` does not check its index: it yields each id of the range for exactly one index
      below the length, and from the length on ids that the range does not own. */
  lemma GetIsExact(r: IdRange, id: Id)
    requires r.first <= r.last
    ensures forall i: nat :: r.Has(r.Get(i)) <==> i < r.Len()
    ensures forall i: nat, j: nat :: r.Get(i) == r.Get(j) ==> i == j
    ensures r.Has(id) ==> exists i: nat :: i < r.Len() && r.Get(i) == id
  {
    if r.Has(id) {
      var i: nat := id - r.first;
      assert r.Get(i) == id;
    }
  }

  class IdSource {
    var preNextGlobalId: nat
    ghost var issued: set<Id>

    ghost predicate Valid()
      reads this
    {
      forall id :: id in issued ==> 0 < id <= preNextGlobalId
    }

    constructor ()
      ensures Valid() && issued == {}
    {
      preNextGlobalId, issued := 0, {};
    }

    /** `Id::new` never returns an id that was issued before. */
    method New() returns (id: Id)
      requires Valid()
      modifies this
      ensures Valid() && id > 0 && id !in old(issued) && issued == old(issued) + {id}
    {
      id := preNextGlobalId + 1;
      preNextGlobalId := id;
      issued := issued + {id};
    }

    /** `IdRange::new` issues `len` ids at once, all of them new. */
    method NewRange(len: nat) returns (r: IdRange)
      requires Valid() && len > 0
      modifies this
      ensures Valid() && r.first > 0 && r.Len() == len
      ensures forall id :: r.Has(id) ==> id !in old(issued)
      ensures forall id :: id in issued <==> id in old(issued) || r.Has(id)
    {
      var last := preNextGlobalId + len;
      preNextGlobalId := last;
      r := IdRange(last - (len - 1), last);
      issued := issued + set id: Id | id <= r.last && r.Has(id);
    }
  }
}
