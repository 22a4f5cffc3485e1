/** A run over a fixture bundle is its messages delivered one after the other. */
module BundleRuns {
  import opened Common
  import opened IngestStore
  import opened IngestTables
  import opened IngestProcess

  function Deliveries(source: Source, bundle: seq<Message>, stream: string, start: nat, stop: nat): seq<Delivery>
    requires start <= stop <= |bundle|
  {
    seq(stop - start, k requires 0 <= k < stop - start => Delivery(source, bundle[start + k], stream, Index(start + k)))
  }

  /** None of the deliveries raises where it comes. */
  ghost predicate NoneRaises(st: Store, ds: seq<Delivery>)
  {
    forall i :: 0 <= i < |ds| ==> !ResultOf(st, ds, i).Raised?
  }

  /**
   * A range of a bundle is its messages delivered one after the other with their indices as cursors; it fails
   * exactly if one of them raises.
   */
  lemma {:induction false} RangeIsDeliveries(source: Source, st: Store, bundle: seq<Message>, stream: string, start: nat, stop: nat)
    requires start <= stop <= |bundle|
    ensures IngestRange(source, st, bundle, stream, start, stop) == AllOf(st, Deliveries(source, bundle, stream, start, stop))
    decreases stop
  {
    if start < stop {
      var front := Deliveries(source, bundle, stream, start, stop - 1);
      var d := Delivery(source, bundle[stop - 1], stream, Index(stop - 1));
      assert Deliveries(source, bundle, stream, start, stop) == front + [d];
      RangeIsDeliveries(source, st, bundle, stream, start, stop - 1);
      AllOfMore(st, front, d);
      RangeLast(source, st, bundle, stream, start, stop);
    }
  }

  /** The store after all of the deliveries, unless one raises. */
  ghost function AllOf(st: Store, ds: seq<Delivery>): Option<Store>
  {
    if NoneRaises(st, ds) then Some(IngestAll(st, ds)) else None
  }

  lemma AllOfMore(st: Store, front: seq<Delivery>, d: Delivery)
    ensures AllOf(st, front + [d])
            == match AllOf(st, front)
               case None => None
               case Some(mid) => if IngestOne(mid, d).1.Raised? then None else Some(IngestOne(mid, d).0)
  {
    RaisesMore(st, front, d);
    assert (front + [d])[..|front + [d]| - 1] == front;
  }

  lemma RaisesMore(st: Store, front: seq<Delivery>, d: Delivery)
    ensures NoneRaises(st, front + [d]) <==> NoneRaises(st, front) && !IngestOne(IngestAll(st, front), d).1.Raised?
  {
    var ds := front + [d];
    assert ds[..|front|] == front && ds[|front|] == d;
    assert forall i :: 0 <= i < |front| ==> ds[..i] == front[..i] && ds[i] == front[i];
    assert forall i :: 0 <= i < |front| ==> ResultOf(st, ds, i) == ResultOf(st, front, i);
    assert ResultOf(st, ds, |front|) == IngestOne(IngestAll(st, front), d).1;
  }

  lemma RangeLast(source: Source, st: Store, bundle: seq<Message>, stream: string, start: nat, stop: nat)
    requires start < stop <= |bundle|
    ensures IngestRange(source, st, bundle, stream, start, stop)
            == match IngestRange(source, st, bundle, stream, start, stop - 1)
               case None => None
               case Some(mid) => IngestAt(source, stream)(mid, (stop - 1, bundle[stop - 1]))
  {
    var last: (nat, Message) := (stop - 1, bundle[stop - 1]);
    assert Numbered(bundle, start, stop) == Numbered(bundle, start, stop - 1) + [last];
    ChainLast(IngestAt(source, stream), st, Numbered(bundle, start, stop - 1), last);
  }
}
