/** Cardinality facts about pairs and multisets. */
module Counting {

  function Pairs<G, E>(gs: set<G>, es: set<E>): set<(G, E)>
  {
    set g, e | g in gs && e in es :: (g, e)
  }

  lemma {:induction false} PairsCount<G, E>(gs: set<G>, es: set<E>)
    ensures |Pairs(gs, es)| == |gs| * |es|
  {
    if gs != {} {
      var g :| g in gs;
      PairsCount(gs - {g}, es);
      PairsOfOne(g, es);
      PairsSplit(g, gs, es);
      OneMore(|gs - {g}|, |es|);
    } else {
      assert Pairs(gs, es) == {};
    }
  }

  lemma OneMore(n: nat, size: nat)
    ensures (n + 1) * size == n * size + size
  {
  }

  lemma PairsSplit<G, E>(g: G, gs: set<G>, es: set<E>)
    requires g in gs
    ensures |Pairs(gs, es)| == |Pairs(gs - {g}, es)| + |Pairs({g}, es)| && |gs| == |gs - {g}| + 1
  {
    assert Pairs(gs, es) == Pairs(gs - {g}, es) + Pairs({g}, es);
    assert Pairs(gs - {g}, es) !! Pairs({g}, es);
  }

  lemma {:induction false} PairsOfOne<G, E>(g: G, es: set<E>)
    ensures |Pairs({g}, es)| == |es|
  {
    if es == {} {
      assert Pairs({g}, es) == {};
    } else {
      var e :| e in es;
      PairsOfOne(g, es - {e});
      assert Pairs({g}, es) == Pairs({g}, es - {e}) + {(g, e)};
    }
  }

  /** At most `limit` of each of the elements of `support`. */
  lemma {:induction false} MultisetBound<T>(ms: multiset<T>, support: set<T>, limit: nat)
    requires forall x :: x in ms ==> x in support && ms[x] <= limit
    ensures |ms| <= |support| * limit
  {
    if support == {} {
      assert ms == multiset{};
    } else {
      var x :| x in support;
      var rest := ms[x := 0];
      MultisetBound(rest, support - {x}, limit);
      assert |ms| == |rest| + ms[x];
      assert |support| * limit == (|support| - 1) * limit + limit;
    }
  }
}
