/** Finite sums over maps, and sizes of finite sets. */
module Sums {
  import opened Types

  ghost function Pick(ids: set<Id>): (id: Id)
    requires ids != {}
    ensures id in ids
  {
    var id :| id in ids;
    id
  }

  ghost function Sum(m: map<Id, int>): int
    decreases |m.Keys|
  {
    if m.Keys == {} then 0
    else
      var id := Pick(m.Keys);
      assert (m - {id}).Keys == m.Keys - {id};
      m[id] + Sum(m - {id})
  }

  lemma Without(m: map<Id, int>, id: Id)
    requires id in m
    ensures (m - {id}).Keys == m.Keys - {id} && |(m - {id}).Keys| < |m.Keys|
  {
    assert (m - {id}).Keys == m.Keys - {id};
  }

  lemma RemovalsCommute(m: map<Id, int>, a: Id, b: Id)
    ensures m - {a} - {b} == m - {b} - {a}
  {
  }

  lemma {:induction false} SumSplit(m: map<Id, int>, id: Id)
    requires id in m
    ensures Sum(m) == m[id] + Sum(m - {id})
    decreases |m.Keys|
  {
    var first := Pick(m.Keys);
    if first != id {
      Without(m, first);
      Without(m, id);
      SumSplit(m - {first}, id);
      SumSplit(m - {id}, first);
      RemovalsCommute(m, first, id);
    }
  }

  lemma {:induction false} SumIsNatural(m: map<Id, int>)
    requires forall id :: id in m ==> m[id] >= 0
    ensures Sum(m) >= 0
    decreases |m.Keys|
  {
    if m.Keys != {} {
      var id := Pick(m.Keys);
      assert (m - {id}).Keys == m.Keys - {id};
      SumIsNatural(m - {id});
    }
  }

  lemma Subset(small: set<Id>, big: set<Id>)
    requires small <= big
    ensures |small| <= |big|
  {
    assert big == small + (big - small);
  }
}
