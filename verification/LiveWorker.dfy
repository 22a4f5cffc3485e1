/** The live MQTT worker: a message is acknowledged only after its transaction committed. */
module LiveWorker {
  import opened Common
  import opened SourceKeys
  import opened Normalizer
  import opened IngestStore
  import opened IngestTables
  import opened IngestKeys
  import opened IngestProcess

  /** Ingesting the message again would find its trace and change nothing but a checkpoint. */
  predicate Settled(source: Source, st: Store, m: Message)
  {
    || HasRaw(st.raws, source.id, m)
    || (!EndsWith(m.topic, "/available") && NormalizeMessage(source, m).Normal?
        && HasObservation(st.observations, source.id, NormalizeMessage(source, m).event.key))
  }

  /** Tables are only appended to. */
  ghost predicate Extends(st: Store, st': Store)
  {
    st.raws <= st'.raws && st.observations <= st'.observations
  }

  lemma IngestExtends(source: Source, st: Store, m: Message, stream: string, cursor: Cursor)
    ensures Extends(st, Ingest(source, st, m, stream, cursor).0)
  {
    var n := NormalizeMessage(source, m);
    if n.Normal? {
      PersistShape(st, source.id, m, n.event);
    }
  }

  lemma ExtendedRaw(raws: seq<RawMessage>, raws': seq<RawMessage>, source: Uuid, m: Message)
    requires raws <= raws' && HasRaw(raws, source, m)
    ensures HasRaw(raws', source, m)
  {
    var r :| 0 <= r < |raws| && raws[r].source == source && raws[r].topic == m.topic
             && raws[r].secrets == m.secrets && raws[r].body == m.body;
    assert raws'[r] == raws[r];
  }

  lemma ExtendedObservation(observations: seq<Observation>, observations': seq<Observation>, source: Uuid, key: string)
    requires observations <= observations' && HasObservation(observations, source, key)
    ensures HasObservation(observations', source, key)
  {
    var o :| 0 <= o < |observations| && observations[o].source == source && observations[o].event.key == key;
    assert observations'[o] == observations[o];
  }

  lemma SettledStays(source: Source, st: Store, st': Store, m: Message)
    requires Extends(st, st') && Settled(source, st, m)
    ensures Settled(source, st', m)
  {
    if HasRaw(st.raws, source.id, m) {
      ExtendedRaw(st.raws, st'.raws, source.id, m);
    } else {
      ExtendedObservation(st.observations, st'.observations, source.id, NormalizeMessage(source, m).event.key);
    }
  }

  /** An ingest that returns has settled its message. */
  lemma IngestSettles(source: Source, st: Store, m: Message, stream: string, cursor: Cursor)
    requires !Ingest(source, st, m, stream, cursor).1.Raised?
    ensures Settled(source, Ingest(source, st, m, stream, cursor).0, m)
  {
    var st' := Ingest(source, st, m, stream, cursor).0;
    var n := NormalizeMessage(source, m);
    if n.Normal? {
      PersistShape(st, source.id, m, n.event);
    }
    if |st'.raws| > |st.raws| {
      assert st'.raws[|st.raws|].body == m.body;
    }
  }

  /** A settled message is a duplicate: redelivery changes no table. */
  lemma SettledIsDuplicate(source: Source, st: Store, m: Message, stream: string, cursor: Cursor)
    requires Settled(source, st, m)
    ensures Ingest(source, st, m, stream, cursor) == (Advance(st, source.id, stream, cursor), Duplicate)
  {
  }

  // ------------------------------------------------------------- runs

  /** What comes of one delivery: the ingest fails, or commits unseen by the callback, or is acknowledged. */
  datatype Outcome = Failed | CommittedUnseen | Acknowledged

  datatype Arrival = Arrival(message: Message, stream: string, cursor: Cursor, outcome: Outcome)

  function Committed(source: Source, st: Store, a: Arrival): Store
  {
    if a.outcome.Failed? then st else Ingest(source, st, a.message, a.stream, a.cursor).0
  }

  function AfterArrivals(source: Source, st: Store, arrivals: seq<Arrival>): Store
  {
    if arrivals == [] then st
    else Committed(source, AfterArrivals(source, st, arrivals[..|arrivals| - 1]), arrivals[|arrivals| - 1])
  }

  /** An acknowledgement is sent only when the transaction did not raise. */
  ghost predicate Possible(source: Source, st: Store, arrivals: seq<Arrival>)
  {
    forall i :: 0 <= i < |arrivals| && !arrivals[i].outcome.Failed? ==>
      !Ingest(source, AfterArrivals(source, st, arrivals[..i]), arrivals[i].message, arrivals[i].stream, arrivals[i].cursor).1.Raised?
  }

  /**
   * At-least-once delivery needs it: after any run of deliveries, failures and redeliveries, every
   * acknowledged message is settled in the committed store.
   */
  lemma {:induction false} AcknowledgedIsSettled(source: Source, st: Store, arrivals: seq<Arrival>, i: nat)
    requires Possible(source, st, arrivals) && i < |arrivals| && arrivals[i].outcome.Acknowledged?
    ensures Settled(source, AfterArrivals(source, st, arrivals), arrivals[i].message)
  {
    var front, a := arrivals[..|arrivals| - 1], arrivals[|arrivals| - 1];
    var before := AfterArrivals(source, st, front);
    if i == |front| {
      IngestSettles(source, before, a.message, a.stream, a.cursor);
    } else {
      assert forall j :: 0 <= j < |front| ==> arrivals[..j] == front[..j];
      AcknowledgedIsSettled(source, st, front, i);
      IngestExtends(source, before, a.message, a.stream, a.cursor);
      SettledStays(source, before, Committed(source, before, a), arrivals[i].message);
    }
  }

  lemma {:induction false} ArrivalsBacked(source: Source, arrivals: seq<Arrival>)
    ensures AllBacked(AfterArrivals(source, EMPTY, arrivals))
  {
    if arrivals != [] {
      var a := arrivals[|arrivals| - 1];
      ArrivalsBacked(source, arrivals[..|arrivals| - 1]);
      OneBacked(AfterArrivals(source, EMPTY, arrivals[..|arrivals| - 1]), Delivery(source, a.message, a.stream, a.cursor));
    }
  }

  /** In particular the observation of every acknowledged valid message is committed. */
  lemma AcknowledgedIsObserved(source: Source, arrivals: seq<Arrival>, i: nat)
    requires Possible(source, EMPTY, arrivals) && i < |arrivals| && arrivals[i].outcome.Acknowledged?
    requires Content(source.id, arrivals[i].message.topic, arrivals[i].message.body).Some?
    ensures HasObservation(AfterArrivals(source, EMPTY, arrivals).observations, source.id,
                           Content(source.id, arrivals[i].message.topic, arrivals[i].message.body).value.key)
  {
    var st, m := AfterArrivals(source, EMPTY, arrivals), arrivals[i].message;
    AcknowledgedIsSettled(source, EMPTY, arrivals, i);
    ArrivalsBacked(source, arrivals);
    NormalizedContent(Delivery(source, m, arrivals[i].stream, arrivals[i].cursor));
    if HasRaw(st.raws, source.id, m) {
      var r :| 0 <= r < |st.raws| && st.raws[r].source == source.id && st.raws[r].topic == m.topic
               && st.raws[r].secrets == m.secrets && st.raws[r].body == m.body;
      assert Backed(st.observations, st.raws[r]);
    }
  }

  // ------------------------------------------------------------- the worker

  /** A message off the wire: its payload may be no JSON object, and then only its hash is kept. */
  datatype MqttMessage = MqttMessage(mid: string, topic: string, payload: Option<(string, Body)>, hash: string, fallback: Digest)

  function Decoded(m: MqttMessage, now: int): Message
  {
    match m.payload
    case Some(p) => Message(m.topic, now, p.0, p.1)
    case None => Message(m.topic, now, m.hash, Body(None, None, None, m.fallback))
  }

  /** What is ingested has the topic and the time of arrival, and the payload, or its hash in place of one. */
  lemma DecodedMeaning(m: MqttMessage, now: int)
    ensures Decoded(m, now).topic == m.topic && Decoded(m, now).observedAt == now
    ensures m.payload.Some? ==> (Decoded(m, now).secrets, Decoded(m, now).body) == m.payload.value
    ensures m.payload.None? ==>
              && Decoded(m, now).secrets == m.hash && Decoded(m, now).body.digest == m.fallback
              && Decoded(m, now).body.review.None? && Decoded(m, now).body.tracked.None? && Decoded(m, now).body.update.None?
  {
  }

  class FrigateLiveIngestWorker {
    const session: Session
    const source: Source
    var connected: bool

    constructor (session: Session, source: Source)
      ensures this.session == session && this.source == source && connected
    {
      this.session, this.source, connected := session, source, true;
    }

    /** The transaction around one ingest; any error, in it or at its commit, rolls it back. */
    method IngestTransaction(m: MqttMessage, now: int) returns (ok: bool)
      requires session.working == session.committed
      modifies session
      ensures session.working == session.committed
      ensures var one := Ingest(source, old(session.committed), Decoded(m, now), "mqtt:" + m.topic, Live(m.mid));
              if ok then !one.1.Raised? && session.committed == one.0 else session.committed == old(session.committed)
    {
      var pipeline := new FrigateIngestPipeline(session, source);
      var result := pipeline.IngestMessage(Decoded(m, now), "mqtt:" + m.topic, Live(m.mid));
      var commits: bool := *;
      ok := commits && !result.Raised?;
      if ok {
        session.Commit();
      } else {
        session.Rollback();
      }
    }

    /**
     * The callback of the MQTT client. A timeout may strike although the transaction commits; only a
     * returned ingest is acknowledged, and a failed acknowledgement drops the connection.
     */
    method OnMessage(m: MqttMessage, now: int) returns (acked: bool, ghost outcome: Outcome)
      requires session.working == session.committed
      modifies this, session
      ensures session.working == session.committed
      ensures var arrival := Arrival(Decoded(m, now), "mqtt:" + m.topic, Live(m.mid), outcome);
              && session.committed == Committed(source, old(session.committed), arrival)
              && (outcome.Failed? || !Ingest(source, old(session.committed), arrival.message, arrival.stream, arrival.cursor).1.Raised?)
      ensures acked <==> outcome.Acknowledged?
      ensures acked ==> Settled(source, session.committed, Decoded(m, now))
      ensures !acked ==> !connected
    {
      ghost var before := session.committed;
      var ok := IngestTransaction(m, now);
      var timedOut: bool := *;
      if !ok || timedOut {
        connected := false;
        outcome := if ok then CommittedUnseen else Failed;
        return false, outcome;
      }
      IngestSettles(source, before, Decoded(m, now), "mqtt:" + m.topic, Live(m.mid));
      var sent: bool := *;
      if !sent {
        connected := false;
      }
      return true, Acknowledged;
    }
  }
}
