/** Small value types and counting facts shared by the other modules. */
module Common {

  datatype Option<+T> = None | Some(value: T)

  datatype Result<+T, +E> = Ok(value: T) | Err(error: E)

  function Filter<T>(keep: T -> bool, s: seq<T>): seq<T>
  {
    if s == [] then []
    else if keep(s[0]) then [s[0]] + Filter(keep, s[1..])
    else Filter(keep, s[1..])
  }

  function Min(a: int, b: int): int { if a <= b then a else b }

  function Max(a: int, b: int): int { if a <= b then b else a }

  lemma {:induction false} FilterMembers<T>(keep: T -> bool, s: seq<T>)
    ensures forall x :: x in Filter(keep, s) <==> x in s && keep(x)
  {
    if s != [] {
      FilterMembers(keep, s[1..]);
      assert s == [s[0]] + s[1..];
    }
  }

  lemma {:induction false} FilterAppend<T>(keep: T -> bool, a: seq<T>, b: seq<T>)
    ensures Filter(keep, a + b) == Filter(keep, a) + Filter(keep, b)
  {
    if a == [] {
      assert a + b == b;
    } else {
      FilterAppend(keep, a[1..], b);
      assert (a + b)[1..] == a[1..] + b;
    }
  }

  lemma {:induction false} FilterNone<T>(keep: T -> bool, s: seq<T>)
    requires forall i :: 0 <= i < |s| ==> !keep(s[i])
    ensures Filter(keep, s) == []
  {
    if s != [] {
      assert forall i :: 0 <= i < |s[1..]| ==> s[1..][i] == s[i + 1];
      FilterNone(keep, s[1..]);
    }
  }

  /** Steps that may fail, one after the other. */
  function Chain<S, T>(step: (S, T) -> Option<S>, s: S, items: seq<T>): Option<S>
  {
    if items == [] then Some(s)
    else
      match step(s, items[0])
      case None => None
      case Some(next) => Chain(step, next, items[1..])
  }

  lemma {:induction false} ChainAppend<S, T>(step: (S, T) -> Option<S>, s: S, a: seq<T>, b: seq<T>)
    ensures Chain(step, s, a + b) == match Chain(step, s, a) case None => None case Some(t) => Chain(step, t, b)
  {
    if a == [] {
      assert a + b == b;
    } else if step(s, a[0]).Some? {
      ChainAppend(step, step(s, a[0]).value, a[1..], b);
      assert (a + b)[1..] == a[1..] + b;
    }
  }

  lemma ChainSplit<S, T>(step: (S, T) -> Option<S>, s: S, a: seq<T>, b: seq<T>, mid: S)
    requires Chain(step, s, a) == Some(mid)
    ensures Chain(step, s, a + b) == Chain(step, mid, b)
  {
    ChainAppend(step, s, a, b);
  }

  /** One step more. */
  lemma ChainLast<S, T>(step: (S, T) -> Option<S>, s: S, a: seq<T>, x: T)
    ensures Chain(step, s, a + [x]) == match Chain(step, s, a) case None => None case Some(mid) => step(mid, x)
  {
    ChainAppend(step, s, a, [x]);
    assert [x][1..] == [];
    if Chain(step, s, a).Some? && step(Chain(step, s, a).value, x).Some? {
      assert Chain(step, step(Chain(step, s, a).value, x).value, []) == step(Chain(step, s, a).value, x);
    }
  }

  predicate Distinct<T(==)>(s: seq<T>)
  {
    forall i, j :: 0 <= i < j < |s| ==> s[i] != s[j]
  }

  lemma DistinctMore<T>(s: seq<T>, x: T)
    requires Distinct(s) && x !in s
    ensures Distinct(s + [x])
  {
  }

  /** Distinct values below a bound are at most that many. */
  lemma {:induction false} DistinctBelow(s: seq<nat>, bound: nat)
    requires forall i, j :: 0 <= i < j < |s| ==> s[i] != s[j]
    requires forall i :: 0 <= i < |s| ==> s[i] < bound
    ensures |s| <= bound
  {
    var values := set i | 0 <= i < |s| :: s[i];
    DistinctCount(s);
    BelowCount(bound);
    SubsetCount(values, Below(bound));
  }

  function Below(bound: nat): set<nat>
  {
    if bound == 0 then {} else Below(bound - 1) + {bound - 1}
  }

  lemma {:induction false} DistinctCount<T>(s: seq<T>)
    requires forall i, j :: 0 <= i < j < |s| ==> s[i] != s[j]
    ensures |set i | 0 <= i < |s| :: s[i]| == |s|
  {
    if s == [] {
    } else {
      var front := s[..|s| - 1];
      DistinctCount(front);
      var before := set i | 0 <= i < |front| :: front[i];
      assert (set i | 0 <= i < |s| :: s[i]) == before + {s[|s| - 1]};
    }
  }

  lemma {:induction false} BelowCount(bound: nat)
    ensures |Below(bound)| == bound
    ensures forall n: nat :: n in Below(bound) <==> n < bound
  {
    if bound > 0 {
      BelowCount(bound - 1);
    }
  }

  lemma {:induction false} SubsetCount<T>(a: set<T>, b: set<T>)
    requires a <= b
    ensures |a| <= |b|
  {
    if a != {} {
      var x :| x in a;
      SubsetCount(a - {x}, b - {x});
    }
  }
}
