/**
 * Where ingest and the event path meet: a persisted message is one observation with its facts and one
 * canonical outbox row, and that is the only thing the event path learns of it.
 */
module IngestFeed {
  import opened Common
  import opened SourceKeys
  import opened Normalizer
  import opened IngestStore
  import opened IngestTables
  import opened IngestKeys
  import opened Alerts
  import P = PipelineState
  import Frames
  import Records
  import ClosedLoop

  // ------------------------------------------------------------- facts

  function KindName(kind: EventKind): string
  {
    if kind.Review? then "review" else "object"
  }

  /** The flags of the objects seen in an observation, in the order of their rows. */
  function Flags(objects: seq<ObservedObject>, o: nat): seq<Option<bool>>
  {
    if objects == [] then []
    else
      var last := objects[|objects| - 1];
      Flags(objects[..|objects| - 1], o) + if last.obs == o then [last.item.stationary] else []
  }

  function EventFlags(objects: seq<EventObject>): seq<Option<bool>>
  {
    seq(|objects|, i requires 0 <= i < |objects| => objects[i].stationary)
  }

  function FactWith(e: Event, stationary: seq<Option<bool>>): Fact
  {
    Fact(KindName(e.kind), Word(e.lifecycle), e.labels, e.zones, stationary)
  }

  /** What the shadow handler reads of a stored observation. */
  function FactOf(st: Store, o: nat): Fact
    requires o < |st.observations|
  {
    FactWith(st.observations[o].event, Flags(st.objects, o))
  }

  /** The facts of the persisted messages, in the order of ingest. */
  function Ingested(ds: seq<Delivery>): seq<Fact>
  {
    if ds == [] then []
    else
      var d := ds[|ds| - 1];
      Ingested(ds[..|ds| - 1])
      + if ResultOf(EMPTY, ds, |ds| - 1).Persisted? && NormalizeMessage(d.source, d.message).Normal?
        then var e := NormalizeMessage(d.source, d.message).event; [FactWith(e, EventFlags(e.objects))] else []
  }

  ghost predicate ObjectsOk(st: Store)
  {
    forall k :: 0 <= k < |st.objects| ==> st.objects[k].obs < |st.observations|
  }

  lemma {:induction false} FlagsOfOthers(objects: seq<ObservedObject>, o: nat)
    requires forall k :: 0 <= k < |objects| ==> objects[k].obs != o
    ensures Flags(objects, o) == []
  {
    if objects != [] {
      FlagsOfOthers(objects[..|objects| - 1], o);
    }
  }

  lemma {:induction false} FlagsAppend(objects: seq<ObservedObject>, rows: seq<ObservedObject>, o: nat)
    ensures Flags(objects + rows, o) == Flags(objects, o) + Flags(rows, o)
  {
    if rows == [] {
      assert objects + rows == objects;
    } else {
      var k := |rows| - 1;
      FlagsAppend(objects, rows[..k], o);
      assert (objects + rows)[..|objects| + k] == objects + rows[..k];
    }
  }

  lemma {:induction false} FlagsOwn(rows: seq<ObservedObject>, o: nat)
    requires forall k :: 0 <= k < |rows| ==> rows[k].obs == o
    ensures |Flags(rows, o)| == |rows| && forall k :: 0 <= k < |rows| ==> Flags(rows, o)[k] == rows[k].item.stationary
  {
    if rows != [] {
      FlagsOwn(rows[..|rows| - 1], o);
    }
  }

  lemma FlagsMore(objects: seq<ObservedObject>, n: nat, e: Event, o: nat)
    ensures Flags(objects + ObjectsOf(n, e), o) == Flags(objects, o) + if o == n then EventFlags(e.objects) else []
  {
    var rows := ObjectsOf(n, e);
    FlagsAppend(objects, rows, o);
    if o == n {
      FlagsOwn(rows, o);
      assert Flags(rows, o) == EventFlags(e.objects);
    } else {
      FlagsOfOthers(rows, o);
    }
  }

  lemma PersistFacts(st: Store, source: Uuid, m: Message, e: Event, o: nat)
    requires ObjectsOk(st) && o <= |st.observations|
    ensures var st' := Persist(st, source, m, e);
            && |st'.observations| == |st.observations| + 1 && ObjectsOk(st')
            && FactOf(st', o) == if o < |st.observations| then FactOf(st, o) else FactWith(e, EventFlags(e.objects))
  {
    PersistShape(st, source, m, e);
    PersistObjects(st, source, m, e);
    FlagsMore(st.objects, |st.observations|, e, o);
    if o == |st.observations| {
      FlagsOfOthers(st.objects, o);
    }
  }

  lemma PersistObjects(st: Store, source: Uuid, m: Message, e: Event)
    ensures Persist(st, source, m, e).objects == st.objects + ObjectsOf(|st.observations|, e)
  {
  }

  /** One message: its observation, if it is persisted, or nothing of interest here. */
  lemma OneFeeds(st: Store, d: Delivery)
    ensures var (st', result) := IngestOne(st, d);
            var n := NormalizeMessage(d.source, d.message);
            if result.Persisted? then
              n.Normal? && st'.observations == Persist(st, d.source.id, d.message, n.event).observations
              && st'.objects == Persist(st, d.source.id, d.message, n.event).objects
            else st'.observations == st.observations && st'.objects == st.objects
  {
  }

  lemma {:induction false} StoreFacts(ds: seq<Delivery>)
    ensures var st := IngestAll(EMPTY, ds);
            && ObjectsOk(st) && |st.observations| == |Ingested(ds)|
            && forall o :: 0 <= o < |st.observations| ==> FactOf(st, o) == Ingested(ds)[o]
  {
    if ds != [] {
      var front, d := ds[..|ds| - 1], ds[|ds| - 1];
      var st, st' := IngestAll(EMPTY, front), IngestAll(EMPTY, ds);
      StoreFacts(front);
      OneFeeds(st, d);
      assert ResultOf(EMPTY, ds, |ds| - 1) == IngestOne(st, d).1;
      if IngestOne(st, d).1.Persisted? {
        var e := NormalizeMessage(d.source, d.message).event;
        forall o | 0 <= o <= |st.observations|
          ensures |st'.observations| == |st.observations| + 1 && ObjectsOk(st') && FactOf(st', o) == Ingested(ds)[o]
        {
          PersistFacts(st, d.source.id, d.message, e, o);
        }
        PersistFacts(st, d.source.id, d.message, e, 0);
      }
    }
  }

  /** The object rows of an observation carry the flags of its event. */
  lemma StoredFlags(ds: seq<Delivery>, o: nat)
    requires o < |IngestAll(EMPTY, ds).observations|
    ensures Flags(IngestAll(EMPTY, ds).objects, o) == EventFlags(IngestAll(EMPTY, ds).observations[o].event.objects)
    decreases |ds|
  {
    var front, d := ds[..|ds| - 1], ds[|ds| - 1];
    var st := IngestAll(EMPTY, front);
    StoreFacts(front);
    OneFeeds(st, d);
    if o < |st.observations| {
      StoredFlags(front, o);
    }
    if IngestOne(st, d).1.Persisted? {
      PersistFacts(st, d.source.id, d.message, NormalizeMessage(d.source, d.message).event, o);
      PersistShape(st, d.source.id, d.message, NormalizeMessage(d.source, d.message).event);
    }
  }

  // ------------------------------------------------------------- the event path

  /** The facts of a run's ingest moves, in their order. */
  function Fed(moves: seq<P.Move>): seq<Fact>
  {
    if moves == [] then []
    else
      Fed(moves[..|moves| - 1]) + if moves[|moves| - 1].Ingest? then [moves[|moves| - 1].fact] else []
  }

  function FactsIn(db: P.Db): seq<Fact>
  {
    seq(|db.observations|, o requires 0 <= o < |db.observations| => db.observations[o].fact)
  }

  lemma NextFacts(c: P.Config, s: P.Sys, m: P.Move)
    ensures FactsIn(P.Next(c, s, m).db) == FactsIn(s.db) + if m.Ingest? then [m.fact] else []
  {
    if Frames.PublisherMove(m) {
      Frames.PublisherMoves(c, s, m);
    } else if Frames.ConsumerMove(m) {
      Frames.ConsumerMoves(c, s, m);
    }
  }

  lemma {:induction false} RunFacts(c: P.Config, s0: P.Sys, moves: seq<P.Move>)
    requires P.Start(s0)
    ensures FactsIn(P.Run(c, s0, moves).db) == Fed(moves)
  {
    if moves != [] {
      RunFacts(c, s0, moves[..|moves| - 1]);
      NextFacts(c, P.Run(c, s0, moves[..|moves| - 1]), moves[|moves| - 1]);
    }
  }

  // ------------------------------------------------------------- both together

  /** The only row that announces the observation. */
  ghost predicate OneRow(db: P.Db, o: nat)
  {
    exists r :: 0 <= r < |db.outbox| && db.outbox[r].payload == P.ObservationPersisted(o) && db.outbox[r].key == P.CanonicalKey(o)
                && forall q :: 0 <= q < |db.outbox| && db.outbox[q].payload == P.ObservationPersisted(o) ==> q == r
  }

  lemma LinkedOneRow(policy: Policy, db: P.Db, o: nat)
    requires Records.Linked(policy, db) && o < |db.observations|
    ensures OneRow(db, o)
  {
    assert Records.HasRow(db.outbox, P.ObservationPersisted(o));
    var r :| 0 <= r < |db.outbox| && db.outbox[r].payload == P.ObservationPersisted(o);
    assert Records.RowLinked(db, db.outbox[r]);
    forall q | 0 <= q < |db.outbox| && db.outbox[q].payload == P.ObservationPersisted(o) ensures q == r {
      assert Records.RowLinked(db, db.outbox[q]);
    }
  }

  /**
   * Let messages be ingested and let their facts be what enters the event path, in the same order, with
   * anything else of it in between. Then both have the same observations with the same facts, and each
   * has exactly one canonical outbox row on either side.
   */
  lemma OneRowPerPersisted(c: P.Config, s0: P.Sys, moves: seq<P.Move>, ds: seq<Delivery>, o: nat)
    requires P.Start(s0) && Fed(moves) == Ingested(ds) && o < |IngestAll(EMPTY, ds).observations|
    ensures var st := IngestAll(EMPTY, ds);
            var db := P.Run(c, s0, moves).db;
            && |db.observations| == |st.observations| == |st.outbox|
            && db.observations[o].fact == FactOf(st, o)
            && OneRow(db, o) && st.outbox[o].obs == o
            && st.outbox[o].key == CanonicalKey(st.observations[o].event.key)
            && (forall q :: 0 <= q < |st.outbox| && (st.outbox[q].obs == o || st.outbox[q].key == st.outbox[o].key) ==> q == o)
  {
    StoreFacts(ds);
    RunFacts(c, s0, moves);
    Records.RunLinked(c, s0, moves);
    var st := IngestAll(EMPTY, ds);
    var db := P.Run(c, s0, moves).db;
    assert FactsIn(db)[o] == Ingested(ds)[o];
    LinkedOneRow(c.policy, db, o);
    EmptyConsistent();
    RunConsistent(EMPTY, ds);
    forall q | 0 <= q < |st.outbox| && st.outbox[q].key == st.outbox[o].key ensures q == o {
      CanonicalKeyInjective(st.observations[q].event.key, st.observations[o].event.key);
    }
  }

  /** The observation of a message in the store. */
  ghost predicate ObservedAs(st: Store, d: Delivery, o: nat)
  {
    && o < |st.observations| && st.observations[o].source == d.source.id
    && ContentOf(d).Some? && st.observations[o].event.key == ContentOf(d).value.key
  }

  /**
   * From the message to its notification: when the event path has come to rest with nothing in the dead
   * letter stream, every valid message has its observation, and that has been processed, decided once by
   * the policy on the stored facts, and, if the decision was to notify, notified once.
   */
  lemma EveryMessageIsSettled(c: P.Config, s0: P.Sys, moves: seq<P.Move>, ds: seq<Delivery>, i: nat) returns (o: nat, d: nat)
    requires P.Start(s0) && ClosedLoop.OneNotifier(s0.workers) && Fed(moves) == Ingested(ds)
    requires i < |ds| && ContentOf(ds[i]).Some? && !Clash(ds)
    requires var s := P.Run(c, s0, moves);
             && (forall r :: 0 <= r < |s.db.outbox| ==> s.db.outbox[r].published) && s.net.dlq == []
             && ClosedLoop.Drained(s, P.Canonical) && ClosedLoop.Drained(s, P.Shadow) && ClosedLoop.Drained(s, P.Notify)
    ensures ObservedAs(IngestAll(EMPTY, ds), ds[i], o)
    ensures var st := IngestAll(EMPTY, ds);
            var db := P.Run(c, s0, moves).db;
            && o < |db.observations| && db.observations[o].processed
            && d < |db.decisions| && db.decisions[d].obs == o
            && (forall e :: 0 <= e < |db.decisions| && db.decisions[e].obs == o ==> e == d)
            && db.decisions[d].outcome == Evaluate(c.policy, FactOf(st, o)).outcome
            && (db.decisions[d].outcome == Send || db.decisions[d].outcome == Escalate ==> ClosedLoop.NotifiedOnce(db, d))
  {
    var st := IngestAll(EMPTY, ds);
    var db := P.Run(c, s0, moves).db;
    var source, key := ds[i].source.id, ContentOf(ds[i]).value.key;
    KeysAreValidMessages(ds, source, key);
    assert StandsFor(ds[i], source, key);
    o :| 0 <= o < |st.observations| && st.observations[o].source == source && st.observations[o].event.key == key;
    OneRowPerPersisted(c, s0, moves, ds, o);
    ClosedLoop.ClosedLoop(c, s0, moves);
    assert ClosedLoop.DecidedOnce(c.policy, db, o);
    d :| 0 <= d < |db.decisions| && db.decisions[d].obs == o
         && db.decisions[d].outcome == Evaluate(c.policy, db.observations[o].fact).outcome
         && forall e :: 0 <= e < |db.decisions| && db.decisions[e].obs == o ==> e == d;
  }
}
