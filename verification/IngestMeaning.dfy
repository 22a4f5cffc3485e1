/** What the store ends up saying of the messages it was given: nothing lost, swapped or made up. */
module IngestMeaning {
  import opened Common
  import opened SourceKeys
  import opened Normalizer
  import opened IngestStore
  import opened IngestTables
  import opened IngestKeys
  import opened ReviewItems
  import opened Alerts
  import IngestFeed

  // ------------------------------------------------------------- rows and their messages

  /** The raw row keeps the whole message, and is quarantined exactly if there is no payload to read in it. */
  predicate RawFrom(raw: RawMessage, d: Delivery)
  {
    && raw.source == d.source.id && raw.topic == d.message.topic && raw.secrets == d.message.secrets
    && raw.body == d.message.body && raw.observedAt == d.message.observedAt
    && (raw.quarantined <==> !EndsWith(d.message.topic, "/available") && !Readable(d.message.topic, d.message.body))
  }

  /** The observation tells the message, and points to its raw row. */
  ghost predicate ObservedFrom(st: Store, o: nat, d: Delivery)
    requires o < |st.observations|
  {
    && st.observations[o].source == d.source.id
    && Tells(st.observations[o].event, d.source.id, d.message.topic, d.message.body, d.source.cameras, d.message.observedAt)
    && st.observations[o].raw < |st.raws| && RawFrom(st.raws[st.observations[o].raw], d)
  }

  ghost predicate SomeRaw(st: Store, ds: seq<Delivery>, r: nat)
    requires r < |st.raws|
  {
    exists i :: 0 <= i < |ds| && RawFrom(st.raws[r], ds[i])
  }

  ghost predicate SomeMessage(st: Store, ds: seq<Delivery>, o: nat)
    requires o < |st.observations|
  {
    exists i :: 0 <= i < |ds| && ObservedFrom(st, o, ds[i])
  }

  predicate ObjectRow(observations: seq<Observation>, row: ObservedObject)
  {
    row.obs < |observations| && observations[row.obs].event.objects == [row.item]
  }

  predicate HasObjectRow(objects: seq<ObservedObject>, o: nat)
  {
    exists k :: 0 <= k < |objects| && objects[k].obs == o
  }

  /** The rows of observed objects are the objects of the events, one each. */
  ghost predicate ObjectRows(observations: seq<Observation>, objects: seq<ObservedObject>)
  {
    && (forall k :: 0 <= k < |objects| ==> ObjectRow(observations, objects[k]))
    && (forall o :: 0 <= o < |observations| && observations[o].event.objects != [] ==> HasObjectRow(objects, o))
    && (forall j, k :: 0 <= j < k < |objects| ==> objects[j].obs != objects[k].obs)
  }

  ghost predicate AllFromMessages(st: Store, ds: seq<Delivery>)
  {
    && (forall r :: 0 <= r < |st.raws| ==> SomeRaw(st, ds, r))
    && (forall o :: 0 <= o < |st.observations| ==> SomeMessage(st, ds, o))
    && ObjectRows(st.observations, st.objects)
  }

  /** What one message adds: a raw row at most, and with that at most an observation and its objects. */
  ghost predicate Adds(st: Store, st': Store, d: Delivery)
  {
    && (st'.raws == st.raws || (|st'.raws| == |st.raws| + 1 && st.raws <= st'.raws && RawFrom(st'.raws[|st.raws|], d)))
    && if st'.observations == st.observations then st'.objects == st.objects
       else
         && st'.raws != st.raws && |st'.observations| == |st.observations| + 1 && st.observations <= st'.observations
         && ObservedFrom(st', |st.observations|, d) && |st'.observations[|st.observations|].event.objects| <= 1
         && st'.objects == st.objects + ObjectsOf(|st.observations|, st'.observations[|st.observations|].event)
  }

  lemma PersistAdds(st: Store, d: Delivery, e: Event)
    requires WellFormed(d.source.id, e) && Readable(d.message.topic, d.message.body)
    requires Tells(e, d.source.id, d.message.topic, d.message.body, d.source.cameras, d.message.observedAt)
    ensures Adds(st, Persist(st, d.source.id, d.message, e), d)
  {
    PersistShape(st, d.source.id, d.message, e);
    IngestFeed.PersistObjects(st, d.source.id, d.message, e);
  }

  /** Without an observation there is at most a raw row more, quarantined or not. */
  lemma OneRaw(st: Store, d: Delivery)
    requires !IngestOne(st, d).1.Persisted?
    ensures var st' := IngestOne(st, d).0;
            && st'.observations == st.observations && st'.objects == st.objects
            && (st'.raws == st.raws
                || (!EndsWith(d.message.topic, "/available") && NormalizeMessage(d.source, d.message).ProtocolError?
                    && st'.raws == AddRaw(st, d.source.id, d.message, true).raws)
                || (EndsWith(d.message.topic, "/available") && st'.raws == AddRaw(st, d.source.id, d.message, false).raws))
  {
  }

  lemma OnePersists(st: Store, d: Delivery)
    requires IngestOne(st, d).1.Persisted?
    ensures NormalizeMessage(d.source, d.message).Normal?
    ensures var st' := IngestOne(st, d).0;
            var persisted := Persist(st, d.source.id, d.message, NormalizeMessage(d.source, d.message).event);
            st'.raws == persisted.raws && st'.observations == persisted.observations && st'.objects == persisted.objects
  {
  }

  lemma RawAdds(st: Store, st': Store, d: Delivery)
    requires st'.observations == st.observations && st'.objects == st.objects
    requires var n := NormalizeMessage(d.source, d.message);
             || st'.raws == st.raws
             || (!EndsWith(d.message.topic, "/available") && n.ProtocolError? && st'.raws == AddRaw(st, d.source.id, d.message, true).raws)
             || (EndsWith(d.message.topic, "/available") && st'.raws == AddRaw(st, d.source.id, d.message, false).raws)
    ensures Adds(st, st', d)
  {
    NormalizedIff(d.source.id, d.message.topic, d.message.body, d.source.cameras, d.message.observedAt);
  }

  lemma SameAdds(st: Store, a: Store, b: Store, d: Delivery)
    requires Adds(st, a, d) && b.raws == a.raws && b.observations == a.observations && b.objects == a.objects
    ensures Adds(st, b, d)
  {
  }

  lemma OneAdds(st: Store, d: Delivery)
    ensures Adds(st, IngestOne(st, d).0, d)
  {
    var m, st' := d.message, IngestOne(st, d).0;
    if IngestOne(st, d).1.Persisted? {
      OnePersists(st, d);
      var e := NormalizeMessage(d.source, m).event;
      NormalizedTells(d.source.id, m.topic, m.body, d.source.cameras, m.observedAt);
      NormalizeWellFormed(d.source.id, m.topic, m.body, d.source.cameras, m.observedAt);
      PersistAdds(st, d, e);
      SameAdds(st, Persist(st, d.source.id, m, e), st', d);
    } else {
      OneRaw(st, d);
      RawAdds(st, st', d);
    }
  }

  lemma RawsStay(st: Store, st': Store, ds: seq<Delivery>, d: Delivery, r: nat)
    requires st.raws <= st'.raws && r < |st.raws| && SomeRaw(st, ds, r)
    ensures SomeRaw(st', ds + [d], r)
  {
    var i :| 0 <= i < |ds| && RawFrom(st.raws[r], ds[i]);
    assert (ds + [d])[i] == ds[i] && st'.raws[r] == st.raws[r];
  }

  lemma MessageStays(st: Store, st': Store, ds: seq<Delivery>, d: Delivery, o: nat)
    requires st.raws <= st'.raws && st.observations <= st'.observations && o < |st.observations| && SomeMessage(st, ds, o)
    ensures SomeMessage(st', ds + [d], o)
  {
    var i :| 0 <= i < |ds| && ObservedFrom(st, o, ds[i]);
    assert (ds + [d])[i] == ds[i];
    assert st'.observations[o] == st.observations[o];
    assert ObservedFrom(st', o, (ds + [d])[i]);
  }

  lemma SameObjectRows(observations: seq<Observation>, o: Observation, objects: seq<ObservedObject>)
    requires ObjectRows(observations, objects) && o.event.objects == []
    ensures ObjectRows(observations + [o], objects)
  {
    forall k | 0 <= k < |objects| ensures ObjectRow(observations + [o], objects[k]) {
      assert ObjectRow(observations, objects[k]);
    }
  }

  lemma NewObjectRow(observations: seq<Observation>, o: Observation, objects: seq<ObservedObject>, row: ObservedObject)
    requires ObjectRows(observations, objects) && row.obs == |observations| && o.event.objects == [row.item]
    ensures ObjectRows(observations + [o], objects + [row])
  {
    var more, rows := observations + [o], objects + [row];
    forall k | 0 <= k < |rows| ensures ObjectRow(more, rows[k]) {
      assert k < |objects| ==> ObjectRow(observations, objects[k]);
    }
    forall p | 0 <= p < |more| && more[p].event.objects != [] ensures HasObjectRow(rows, p) {
      ObjectRowThere(observations, o, objects, row, p);
    }
    forall k | 0 <= k < |objects| ensures rows[k].obs != row.obs {
      assert ObjectRow(observations, objects[k]);
    }
  }

  lemma ObjectRowThere(observations: seq<Observation>, o: Observation, objects: seq<ObservedObject>, row: ObservedObject, p: nat)
    requires p < |observations| && observations[p].event.objects != [] ==> HasObjectRow(objects, p)
    requires row.obs == |observations| && p <= |observations| && (observations + [o])[p].event.objects != []
    ensures HasObjectRow(objects + [row], p)
  {
    if p < |observations| {
      var k :| 0 <= k < |objects| && objects[k].obs == p;
      assert (objects + [row])[k] == objects[k];
    } else {
      assert (objects + [row])[|objects|] == row;
    }
  }

  lemma ObjectRowsMore(observations: seq<Observation>, o: Observation, objects: seq<ObservedObject>)
    requires ObjectRows(observations, objects) && |o.event.objects| <= 1
    ensures ObjectRows(observations + [o], objects + ObjectsOf(|observations|, o.event))
  {
    if o.event.objects == [] {
      assert objects + ObjectsOf(|observations|, o.event) == objects;
      SameObjectRows(observations, o, objects);
    } else {
      var row := ObservedObject(|observations|, o.event.objects[0]);
      assert ObjectsOf(|observations|, o.event) == [row] && o.event.objects == [row.item];
      NewObjectRow(observations, o, objects, row);
    }
  }

  lemma AddedRaws(st: Store, st': Store, ds: seq<Delivery>, d: Delivery)
    requires (forall r :: 0 <= r < |st.raws| ==> SomeRaw(st, ds, r)) && Adds(st, st', d)
    ensures forall r :: 0 <= r < |st'.raws| ==> SomeRaw(st', ds + [d], r)
  {
    assert (ds + [d])[|ds|] == d && st.raws <= st'.raws;
    forall r | 0 <= r < |st'.raws| ensures SomeRaw(st', ds + [d], r) {
      if r < |st.raws| {
        RawsStay(st, st', ds, d, r);
      }
    }
  }

  lemma AddedMessages(st: Store, st': Store, ds: seq<Delivery>, d: Delivery)
    requires (forall o :: 0 <= o < |st.observations| ==> SomeMessage(st, ds, o)) && Adds(st, st', d)
    ensures forall o :: 0 <= o < |st'.observations| ==> SomeMessage(st', ds + [d], o)
  {
    assert (ds + [d])[|ds|] == d && st.raws <= st'.raws && st.observations <= st'.observations;
    forall o | 0 <= o < |st'.observations| ensures SomeMessage(st', ds + [d], o) {
      if o < |st.observations| {
        MessageStays(st, st', ds, d, o);
      }
    }
  }

  lemma AddedObjects(st: Store, st': Store, d: Delivery)
    requires ObjectRows(st.observations, st.objects) && Adds(st, st', d)
    ensures ObjectRows(st'.observations, st'.objects)
  {
    if st'.observations != st.observations {
      var o := st'.observations[|st.observations|];
      assert st'.observations == st.observations + [o];
      ObjectRowsMore(st.observations, o, st.objects);
    }
  }

  lemma AddedFromMessages(st: Store, st': Store, ds: seq<Delivery>, d: Delivery)
    requires AllFromMessages(st, ds) && Adds(st, st', d)
    ensures AllFromMessages(st', ds + [d])
  {
    AddedRaws(st, st', ds, d);
    AddedMessages(st, st', ds, d);
    AddedObjects(st, st', d);
  }

  lemma RowsStep(front: seq<Delivery>, d: Delivery, ds: seq<Delivery>)
    requires ds == front + [d] && AllFromMessages(IngestAll(EMPTY, front), front)
    ensures AllFromMessages(IngestAll(EMPTY, ds), ds)
  {
    OneAdds(IngestAll(EMPTY, front), d);
    assert ds[..|ds| - 1] == front;
    AddedFromMessages(IngestAll(EMPTY, front), IngestAll(EMPTY, ds), front, d);
  }

  /**
   * After any run every raw row is that of a delivered message, every observation tells the message of its
   * raw row, and the object rows are the objects seen in it.
   */
  lemma {:induction false} RowsTellMessages(ds: seq<Delivery>)
    ensures AllFromMessages(IngestAll(EMPTY, ds), ds)
  {
    if ds != [] {
      var front, d := ds[..|ds| - 1], ds[|ds| - 1];
      RowsTellMessages(front);
      RowsStep(front, d, ds);
    }
  }

  // ------------------------------------------------------------- results

  /** The raw message is stored already. */
  predicate SeenBefore(st: Store, d: Delivery)
  {
    exists r :: 0 <= r < |st.raws| && st.raws[r].source == d.source.id && st.raws[r].topic == d.message.topic
                && st.raws[r].secrets == d.message.secrets && st.raws[r].body == d.message.body
  }

  /** An object seen with a confidence that is no probability. */
  predicate OddConfidence(topic: string, body: Body)
    requires Readable(topic, body)
  {
    && !EndsWith(topic, "/reviews") && EndsWith(topic, "/events")
    && body.tracked.value.score.Some? && !(0.0 <= body.tracked.value.score.value <= 1.0)
  }

  /** An observation of the source has the key of the message's event. */
  predicate KnownEvent(st: Store, d: Delivery)
    requires NormalizeMessage(d.source, d.message).Normal?
  {
    exists o :: 0 <= o < |st.observations| && st.observations[o].source == d.source.id
                && st.observations[o].event.key == NormalizeMessage(d.source, d.message).event.key
  }

  /** Another observation of the source holds the event's evidence reference. */
  predicate TakenRef(st: Store, d: Delivery)
    requires NormalizeMessage(d.source, d.message).Normal?
  {
    exists i, k :: 0 <= i < |NormalizeMessage(d.source, d.message).event.evidence| && 0 <= k < |st.evidence|
                   && st.evidence[k].source == d.source.id
                   && st.evidence[k].item.ref == NormalizeMessage(d.source, d.message).event.evidence[i].ref
  }

  /**
   * Which result a message has, in this order: a raw repetition is a duplicate, availability is ignored,
   * an unreadable payload quarantined, a time that does not fit raises, a known key is a duplicate, an odd
   * confidence and then a taken evidence reference raise, and everything else is persisted.
   */
  ghost predicate ResultIsRight(st: Store, d: Delivery, result: IngestResult)
  {
    var m := d.message;
    if SeenBefore(st, d) then result == Duplicate
    else if EndsWith(m.topic, "/available") then result == Ignored
    else if !Readable(m.topic, m.body) then result == Quarantined
    else if !TimesFit(m.topic, m.body) then result == Raised(BadTimestamp)
    else
      NormalizeMessage(d.source, m).Normal? && EventIsRight(st, d, result)
  }

  lemma OddMeaning(d: Delivery, e: Event)
    requires Tells(e, d.source.id, d.message.topic, d.message.body, d.source.cameras, d.message.observedAt)
    ensures OddConfidence(d.message.topic, d.message.body) <==> exists i :: 0 <= i < |e.objects| && !ValidObject(e.objects[i])
  {
    if e.objects != [] {
      assert ValidObject(e.objects[0]) <==> !OddConfidence(d.message.topic, d.message.body);
    }
  }

  ghost predicate OutcomeIs(st: Store, source: Uuid, e: Event, result: IngestResult)
  {
    if HasObservation(st.observations, source, e.key) then result == Duplicate
    else if !ValidEvent(Normal(e)) then result == Raised(BadConfidence)
    else if RefTaken(st.evidence, source, e) then result == Raised(DuplicateEvidenceRef)
    else result == Persisted(|st.observations|)
  }

  lemma OutcomeOf(st: Store, d: Delivery, e: Event)
    requires Consistent(st) && WellFormed(d.source.id, e)
    ensures OutcomeIs(st, d.source.id, e, IngestEvent(d.source, st, d.message, e).1)
  {
    EventOutcome(d.source, st, d.message, e);
  }

  /** A readable message whose times fit, not seen before. */
  ghost predicate EventIsRight(st: Store, d: Delivery, result: IngestResult)
    requires NormalizeMessage(d.source, d.message).Normal? && Readable(d.message.topic, d.message.body)
  {
    if KnownEvent(st, d) then result == Duplicate
    else if OddConfidence(d.message.topic, d.message.body) then result == Raised(BadConfidence)
    else if TakenRef(st, d) then result == Raised(DuplicateEvidenceRef)
    else result == Persisted(|st.observations|)
  }

  lemma EventResult(st: Store, d: Delivery, e: Event, result: IngestResult)
    requires NormalizeMessage(d.source, d.message) == Normal(e) && Readable(d.message.topic, d.message.body)
    requires Tells(e, d.source.id, d.message.topic, d.message.body, d.source.cameras, d.message.observedAt)
    requires OutcomeIs(st, d.source.id, e, result)
    ensures EventIsRight(st, d, result)
  {
    OddMeaning(d, e);
    TakenMeaning(st, d);
  }

  lemma ResultByCases(st: Store, d: Delivery)
    ensures var result := IngestOne(st, d).1;
            var n := NormalizeMessage(d.source, d.message);
            if HasRaw(st.raws, d.source.id, d.message) then result == Duplicate
            else if EndsWith(d.message.topic, "/available") then result == Ignored
            else if n.ProtocolError? then result == Quarantined
            else if n.TimeError? then result == Raised(BadTimestamp)
            else result == IngestEvent(d.source, st, d.message, n.event).1
  {
  }

  lemma ResultMeaning(st: Store, d: Delivery)
    requires Consistent(st)
    ensures ResultIsRight(st, d, IngestOne(st, d).1)
  {
    var result, n := IngestOne(st, d).1, NormalizeMessage(d.source, d.message);
    ResultByCases(st, d);
    if n.Normal? {
      NormalizeWellFormed(d.source.id, d.message.topic, d.message.body, d.source.cameras, d.message.observedAt);
      OutcomeOf(st, d, n.event);
    }
    ResultFrom(st, d, result);
  }

  lemma ResultFrom(st: Store, d: Delivery, result: IngestResult)
    requires var n := NormalizeMessage(d.source, d.message);
             if HasRaw(st.raws, d.source.id, d.message) then result == Duplicate
             else if EndsWith(d.message.topic, "/available") then result == Ignored
             else if n.ProtocolError? then result == Quarantined
             else if n.TimeError? then result == Raised(BadTimestamp)
             else OutcomeIs(st, d.source.id, n.event, result)
    ensures ResultIsRight(st, d, result)
  {
    var m, n := d.message, NormalizeMessage(d.source, d.message);
    NormalizedTells(d.source.id, m.topic, m.body, d.source.cameras, m.observedAt);
    if n.Normal? && !HasRaw(st.raws, d.source.id, m) && !EndsWith(m.topic, "/available") {
      EventResult(st, d, n.event, result);
    }
  }

  lemma TakenMeaning(st: Store, d: Delivery)
    requires NormalizeMessage(d.source, d.message).Normal?
    ensures TakenRef(st, d) <==> RefTaken(st.evidence, d.source.id, NormalizeMessage(d.source, d.message).event)
  {
    var e := NormalizeMessage(d.source, d.message).event;
    if RefTaken(st.evidence, d.source.id, e) {
      var i :| 0 <= i < |e.evidence| && HasEvidence(st.evidence, d.source.id, e.evidence[i].ref);
      var k :| 0 <= k < |st.evidence| && st.evidence[k].source == d.source.id && st.evidence[k].item.ref == e.evidence[i].ref;
    }
    if TakenRef(st, d) {
      var i, k :| 0 <= i < |e.evidence| && 0 <= k < |st.evidence| && st.evidence[k].source == d.source.id
                  && st.evidence[k].item.ref == e.evidence[i].ref;
      assert HasEvidence(st.evidence, d.source.id, e.evidence[i].ref);
    }
  }

  /** In any run every result is the one its message and the store before it call for. */
  lemma ResultsAreRight(ds: seq<Delivery>, i: nat)
    requires i < |ds|
    ensures ResultIsRight(IngestAll(EMPTY, ds[..i]), ds[i], ResultOf(EMPTY, ds, i))
  {
    EmptyConsistent();
    RunConsistent(EMPTY, ds[..i]);
    ResultMeaning(IngestAll(EMPTY, ds[..i]), ds[i]);
  }

  /** Unless it raises, a message leaves its cursor as the checkpoint of its stream; all others stay where they are. */
  lemma CheckpointMoves(st: Store, d: Delivery)
    ensures var (st', result) := IngestOne(st, d);
            var place := (d.source.id, d.stream);
            if result.Raised? then st' == st
            else
              && place in st'.checkpoints && st'.checkpoints[place] == d.cursor
              && (forall other :: other != place ==> (other in st'.checkpoints <==> other in st.checkpoints))
              && (forall other :: other != place && other in st.checkpoints ==> st'.checkpoints[other] == st.checkpoints[other])
  {
    OneCheckpoints(st, d);
  }

  lemma OneCheckpoints(st: Store, d: Delivery)
    ensures var (st', result) := IngestOne(st, d);
            if result.Raised? then st' == st else st'.checkpoints == st.checkpoints[(d.source.id, d.stream) := d.cursor]
  {
    var n := NormalizeMessage(d.source, d.message);
    if n.Normal? {
      PersistShape(st, d.source.id, d.message, n.event);
    }
  }

  // ------------------------------------------------------------- what follows for reviews and alerts

  /** The fact the shadow handler evaluates tells the message of a review. */
  ghost predicate ReviewFact(f: Fact, p: ReviewPayload)
  {
    && f.eventKind == "review" && f.lifecycle == (match p.messageType case New => "started" case Update => "updated" case End => "ended")
    && (forall l :: l in f.labels <==> l in p.objects || l in p.audio)
    && (forall z :: z in f.zones <==> z in p.zones) && f.stationary == []
  }

  ghost predicate ObjectFact(f: Fact, p: ObjectPayload)
  {
    && f.eventKind == "object" && f.lifecycle == (match p.messageType case New => "started" case Update => "updated" case End => "ended")
    && (forall l :: l in f.labels <==> l == p.name)
    && (forall z :: z in f.zones <==> z in p.currentZones || z in p.enteredZones) && f.stationary == [p.stationary]
  }

  ghost predicate FactTells(f: Fact, topic: string, body: Body)
    requires Readable(topic, body)
  {
    if EndsWith(topic, "/reviews") then ReviewFact(f, body.review.value)
    else if EndsWith(topic, "/events") then ObjectFact(f, body.tracked.value)
    else f == Fact("object", "updated", {}, {}, [])
  }

  lemma FlagsAre(st: Store, ds: seq<Delivery>, o: nat)
    requires o < |IngestAll(EMPTY, ds).observations| && st == IngestAll(EMPTY, ds)
    ensures IngestFeed.Flags(st.objects, o) == IngestFeed.EventFlags(st.observations[o].event.objects)
  {
    IngestFeed.StoredFlags(ds, o);
  }

  /** Every observation's fact is what some delivered message says of the scene. */
  lemma FactsTellMessages(ds: seq<Delivery>, o: nat) returns (i: nat)
    requires o < |IngestAll(EMPTY, ds).observations|
    ensures i < |ds| && ObservedFrom(IngestAll(EMPTY, ds), o, ds[i])
    ensures FactTells(IngestFeed.FactOf(IngestAll(EMPTY, ds), o), ds[i].message.topic, ds[i].message.body)
  {
    var st := IngestAll(EMPTY, ds);
    i := MessageOf(ds, o);
    FlagsAre(st, ds, o);
  }

  /** The item shows what the last review message of its entity said. */
  ghost predicate ItemTells(r: ReviewItem, p: ReviewPayload, revision: string)
  {
    && (r.status == Active <==> p.messageType == New || p.messageType == Update)
    && (r.status == EndedReview <==> p.messageType == End)
    && (forall l :: l in r.labels <==> l in p.objects || l in p.audio)
    && (forall z :: z in r.zones <==> z in p.zones)
    && r.revision == revision
  }

  lemma ReviewOnly(st: Store, o: nat, d: Delivery)
    requires o < |st.observations| && ObservedFrom(st, o, d) && st.observations[o].event.kind.Review?
    ensures d.message.body.review.Some?
    ensures TellsReview(st.observations[o].event, d.message.body.review.value, d.message.body.digest, d.source.cameras,
                        d.message.observedAt)
  {
  }

  /** The item tells the review message from which the last observation of its entity stems. */
  ghost predicate ItemFrom(st: Store, id: nat, d: Delivery)
  {
    && id in st.reviews && d.message.body.review.Some? && id < |st.mappings| && EntityOf(st, id) != []
    && var last := EntityOf(st, id)[|EntityOf(st, id)| - 1];
       && TellsReview(last.event, d.message.body.review.value, d.message.body.digest, d.source.cameras, d.message.observedAt)
       && ItemTells(st.reviews[id], d.message.body.review.value, last.event.revision)
  }

  lemma SummaryTells(st: Store, id: nat, o: nat, d: Delivery)
    requires id in st.reviews && id < |st.mappings| && EntityOf(st, id) != [] && Summarizes(st.reviews[id], EntityOf(st, id))
    requires o < |st.observations| && st.observations[o] == EntityOf(st, id)[|EntityOf(st, id)| - 1]
    requires ObservedFrom(st, o, d) && st.observations[o].event.kind.Review?
    ensures ItemFrom(st, id, d)
  {
    ReviewOnly(st, o, d);
  }

  lemma SummaryOf(ds: seq<Delivery>, id: nat)
    requires id in IngestAll(EMPTY, ds).reviews
    ensures var st := IngestAll(EMPTY, ds);
            id < |st.mappings| && EntityOf(st, id) != [] && Summarizes(st.reviews[id], EntityOf(st, id))
  {
    ReviewItemsSummarize(ds, id);
  }

  /** Every review item tells the message of its entity's last observation. */
  lemma ItemsTellMessages(ds: seq<Delivery>, id: nat) returns (i: nat)
    requires id in IngestAll(EMPTY, ds).reviews
    ensures i < |ds| && ItemFrom(IngestAll(EMPTY, ds), id, ds[i])
  {
    SummaryOf(ds, id);
    RunLinked(ds);
    var o := LastOfEntity(IngestAll(EMPTY, ds), id);
    i := MessageOf(ds, o);
    SummaryTells(IngestAll(EMPTY, ds), id, o, ds[i]);
  }

  lemma MessageOf(ds: seq<Delivery>, o: nat) returns (i: nat)
    requires o < |IngestAll(EMPTY, ds).observations|
    ensures i < |ds| && ObservedFrom(IngestAll(EMPTY, ds), o, ds[i])
  {
    RowsTellMessages(ds);
    assert SomeMessage(IngestAll(EMPTY, ds), ds, o);
    i :| 0 <= i < |ds| && ObservedFrom(IngestAll(EMPTY, ds), o, ds[i]);
  }

  ghost predicate LastReview(st: Store, id: nat, o: nat)
  {
    && id < |st.mappings| && EntityOf(st, id) != []
    && o < |st.observations| && st.observations[o] == EntityOf(st, id)[|EntityOf(st, id)| - 1]
    && st.observations[o].event.kind.Review?
  }

  lemma LastOfEntity(st: Store, id: nat) returns (o: nat)
    requires Linked(st) && id in st.reviews && id < |st.mappings| && EntityOf(st, id) != []
    ensures LastReview(st, id, o)
  {
    o := EntityMember(st, id, |EntityOf(st, id)| - 1);
  }

  /** An observation of a review item's entity is one of the store, and a review. */
  lemma EntityMember(st: Store, id: nat, k: nat) returns (o: nat)
    requires Linked(st) && id in st.reviews && id < |st.mappings| && k < |EntityOf(st, id)|
    ensures o < |st.observations| && st.observations[o] == EntityOf(st, id)[k] && st.observations[o].event.kind.Review?
  {
    var m := st.mappings[id];
    FilterMembers(x => SameEntity(x, m.source, m.namespace, m.entity), st.observations);
    assert EntityOf(st, id)[k] in EntityOf(st, id);
    o :| 0 <= o < |st.observations| && st.observations[o] == EntityOf(st, id)[k];
    var ob := st.observations[o];
    FindMeaning(st.mappings, ob.source, ob.event.namespace, ob.event.entity);
    assert Target(st.mappings, ob) < |st.mappings| && st.mappings[Target(st.mappings, ob)].kind == ob.event.kind;
    SameMapping(st, Target(st.mappings, ob), id);
  }
}
