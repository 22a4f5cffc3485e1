/** What holds between the tables of the canonical store after any sequence of messages. */
module IngestTables {
  import opened Common
  import opened SourceKeys
  import opened Normalizer
  import opened IngestStore

  // ------------------------------------------------------------- mappings

  predicate Maps(m: Mapping, source: Uuid, namespace: string, entity: string)
  {
    m.source == source && m.namespace == namespace && m.entity == entity
  }

  lemma {:induction false} FindMeaning(mappings: seq<Mapping>, source: Uuid, namespace: string, entity: string)
    ensures var id := FindMapping(mappings, source, namespace, entity);
            && (id < |mappings| ==> Maps(mappings[id], source, namespace, entity))
            && (forall i :: 0 <= i < id ==> !Maps(mappings[i], source, namespace, entity))
  {
    if mappings != [] && !Maps(mappings[0], source, namespace, entity) {
      FindMeaning(mappings[1..], source, namespace, entity);
      var id := FindMapping(mappings, source, namespace, entity);
      forall i | 0 <= i < id ensures !Maps(mappings[i], source, namespace, entity) {
        assert i > 0 ==> mappings[i] == mappings[1..][i - 1];
      }
    }
  }

  lemma {:induction false} FindAppend(mappings: seq<Mapping>, m: Mapping, source: Uuid, namespace: string, entity: string)
    ensures var id := FindMapping(mappings, source, namespace, entity);
            FindMapping(mappings + [m], source, namespace, entity)
            == if id < |mappings| || Maps(m, source, namespace, entity) then id else |mappings| + 1
  {
    if mappings == [] {
      assert mappings + [m] == [m];
      assert [m][1..] == [];
    } else if !Maps(mappings[0], source, namespace, entity) {
      FindAppend(mappings[1..], m, source, namespace, entity);
      assert (mappings + [m])[1..] == mappings[1..] + [m];
    }
  }

  /** The internal id an observation's entity is mapped to. */
  function Target(mappings: seq<Mapping>, o: Observation): (id: nat)
    ensures id <= |mappings|
  {
    FindMapping(mappings, o.source, o.event.namespace, o.event.entity)
  }

  ghost predicate MappingsOk(st: Store)
  {
    && (forall i, j :: 0 <= i < j < |st.mappings| ==>
          !Maps(st.mappings[i], st.mappings[j].source, st.mappings[j].namespace, st.mappings[j].entity))
    && (forall o :: 0 <= o < |st.observations| ==>
          Target(st.mappings, st.observations[o]) < |st.mappings|
          && st.mappings[Target(st.mappings, st.observations[o])].kind == st.observations[o].event.kind)
    && (forall i :: 0 <= i < |st.mappings| ==> st.mappings[i].namespace == if st.mappings[i].kind.Review? then REVIEWS else EVENTS)
  }

  // ------------------------------------------------------------- keys

  ghost predicate RawsOk(raws: seq<RawMessage>)
  {
    forall i, j :: 0 <= i < j < |raws| ==>
      !(raws[i].source == raws[j].source && raws[i].topic == raws[j].topic
        && raws[i].secrets == raws[j].secrets && raws[i].body == raws[j].body)
  }

  ghost predicate KeysOk(observations: seq<Observation>)
  {
    && (forall o :: 0 <= o < |observations| ==>
          WellFormed(observations[o].source, observations[o].event)
          && forall i :: 0 <= i < |observations[o].event.objects| ==> ValidObject(observations[o].event.objects[i]))
    && (forall i, j :: 0 <= i < j < |observations| ==> observations[i].event.key != observations[j].event.key)
  }

  ghost predicate OutboxOk(st: Store)
  {
    && |st.outbox| == |st.observations|
    && (forall i :: 0 <= i < |st.outbox| ==>
          st.outbox[i] == OutboxRow(CanonicalKey(st.observations[i].event.key),
                                    Target(st.mappings, st.observations[i]), i))
  }

  // ------------------------------------------------------------- evidence

  ghost predicate EvidenceOk(st: Store)
  {
    && (forall k :: 0 <= k < |st.evidence| ==>
          st.evidence[k].obs < |st.observations|
          && st.evidence[k].source == st.observations[st.evidence[k].obs].source
          && st.observations[st.evidence[k].obs].event.evidence == [st.evidence[k].item])
    && (forall o :: 0 <= o < |st.observations| && st.observations[o].event.evidence != [] ==>
          exists k :: 0 <= k < |st.evidence| && st.evidence[k].obs == o)
    && (forall i, j :: 0 <= i < j < |st.evidence| ==>
          st.evidence[i].obs != st.evidence[j].obs
          && !(st.evidence[i].source == st.evidence[j].source && st.evidence[i].item.ref == st.evidence[j].item.ref))
  }

  function EvidenceIds(evidence: seq<Evidence>, o: nat): (ids: seq<nat>)
  {
    if evidence == [] then []
    else
      var front := EvidenceIds(evidence[..|evidence| - 1], o);
      if evidence[|evidence| - 1].obs == o then front + [|evidence| - 1] else front
  }

  // ------------------------------------------------------------- invariant

  ghost predicate Consistent(st: Store)
  {
    RawsOk(st.raws) && KeysOk(st.observations) && MappingsOk(st) && OutboxOk(st) && EvidenceOk(st)
  }

  lemma EmptyConsistent()
    ensures Consistent(EMPTY)
  {
  }

  lemma RawAdded(raws: seq<RawMessage>, source: Uuid, m: Message, quarantined: bool)
    requires RawsOk(raws) && !HasRaw(raws, source, m)
    ensures RawsOk(raws + [RawMessage(source, m.topic, m.secrets, m.body, m.observedAt, quarantined)])
  {
  }

  lemma KeyAdded(observations: seq<Observation>, o: Observation)
    requires KeysOk(observations) && WellFormed(o.source, o.event) && !HasObservation(observations, o.source, o.event.key)
    requires forall i :: 0 <= i < |o.event.objects| ==> ValidObject(o.event.objects[i])
    ensures KeysOk(observations + [o])
  {
    forall i | 0 <= i < |observations| ensures observations[i].event.key != o.event.key {
      SameKey(observations[i].source, observations[i].event, o.source, o.event);
    }
  }

  /** The mapping table after an event: its entity is mapped, and nothing else moves. */
  lemma MappingAdded(st: Store, st': Store, o: Observation)
    requires MappingsOk(st) && st'.observations == st.observations + [o]
    requires o.event.namespace == if o.event.kind.Review? then REVIEWS else EVENTS
    requires st'.mappings == if Target(st.mappings, o) < |st.mappings| then st.mappings
                             else st.mappings + [Mapping(o.source, o.event.namespace, o.event.entity, o.event.kind)]
    ensures MappingsOk(st') && Target(st'.mappings, o) == Target(st.mappings, o)
    ensures forall p :: 0 <= p < |st.observations| ==>
              Target(st'.mappings, st.observations[p]) == Target(st.mappings, st.observations[p])
  {
    var id := Target(st.mappings, o);
    FindMeaning(st.mappings, o.source, o.event.namespace, o.event.entity);
    if id == |st.mappings| {
      var m := Mapping(o.source, o.event.namespace, o.event.entity, o.event.kind);
      FindAppend(st.mappings, m, o.source, o.event.namespace, o.event.entity);
      forall p | 0 <= p < |st.observations|
        ensures Target(st'.mappings, st.observations[p]) == Target(st.mappings, st.observations[p])
      {
        var q := st.observations[p];
        FindAppend(st.mappings, m, q.source, q.event.namespace, q.event.entity);
      }
    }
  }

  lemma EvidenceAdded(st: Store, st': Store, o: Observation)
    requires EvidenceOk(st) && |o.event.evidence| <= 1 && st'.observations == st.observations + [o]
    requires st'.evidence == st.evidence + EvidenceOf(o.source, |st.observations|, o.event)
    requires forall i :: 0 <= i < |o.event.evidence| ==> !HasEvidence(st.evidence, o.source, o.event.evidence[i].ref)
    ensures EvidenceOk(st')
  {
    var n := |st.observations|;
    assert o.event.evidence != [] ==> o.event.evidence == [o.event.evidence[0]];
    forall p | 0 <= p < |st'.observations| && st'.observations[p].event.evidence != []
      ensures exists k :: 0 <= k < |st'.evidence| && st'.evidence[k].obs == p
    {
      if p == n {
        assert st'.evidence[|st.evidence|].obs == n;
      } else {
        var k :| 0 <= k < |st.evidence| && st.evidence[k].obs == p;
        assert st'.evidence[k].obs == p;
      }
    }
    forall i | 0 <= i < |st.evidence| && o.event.evidence != []
      ensures !(st.evidence[i].source == o.source && st.evidence[i].item.ref == o.event.evidence[0].ref)
    {
      assert !HasEvidence(st.evidence, o.source, o.event.evidence[0].ref);
    }
  }

  /** In a consistent store a new event cannot clash in the outbox. */
  lemma NoOutboxClash(st: Store, source: Uuid, e: Event)
    requires Consistent(st) && WellFormed(source, e) && !HasObservation(st.observations, source, e.key)
    ensures !HasOutbox(st.outbox, CanonicalKey(e.key))
  {
    forall i | 0 <= i < |st.outbox| ensures st.outbox[i].key != CanonicalKey(e.key) {
      CanonicalKeyInjective(st.observations[i].event.key, e.key);
      SameKey(st.observations[i].source, st.observations[i].event, source, e);
    }
  }

  lemma OutboxAdded(st: Store, st': Store, o: Observation)
    requires OutboxOk(st) && st'.observations == st.observations + [o]
    requires forall p :: 0 <= p < |st.observations| ==>
               Target(st'.mappings, st.observations[p]) == Target(st.mappings, st.observations[p])
    requires Target(st'.mappings, o) == Target(st.mappings, o)
    requires st'.outbox == st.outbox + [OutboxRow(CanonicalKey(o.event.key), Target(st.mappings, o), |st.observations|)]
    ensures OutboxOk(st')
  {
  }

  /** The tables a persisted event touches, one by one. */
  lemma PersistShape(st: Store, source: Uuid, m: Message, e: Event)
    ensures var st' := Persist(st, source, m, e);
            var o := ObservationOf(st, source, e);
            && st'.raws == AddRaw(st, source, m, false).raws
            && st'.observations == st.observations + [o] && o.source == source && o.event == e && o.raw == |st.raws|
            && st'.mappings == (if Target(st.mappings, o) < |st.mappings| then st.mappings
                                else st.mappings + [Mapping(source, e.namespace, e.entity, e.kind)])
            && st'.evidence == st.evidence + EvidenceOf(source, |st.observations|, e)
            && st'.outbox == st.outbox + [OutboxRow(CanonicalKey(e.key), Target(st.mappings, o), |st.observations|)]
            && st'.checkpoints == st.checkpoints
  {
  }

  lemma PersistConsistent(st: Store, source: Uuid, m: Message, e: Event)
    requires Consistent(st) && WellFormed(source, e)
    requires !HasRaw(st.raws, source, m) && !HasObservation(st.observations, source, e.key)
    requires Conflict(st, source, e).None?
    ensures Consistent(Persist(st, source, m, e))
  {
    var st' := Persist(st, source, m, e);
    var o := ObservationOf(st, source, e);
    PersistShape(st, source, m, e);
    RawAdded(st.raws, source, m, false);
    KeyAdded(st.observations, o);
    MappingAdded(st, st', o);
    EvidenceAdded(st, st', o);
    OutboxAdded(st, st', o);
  }

  lemma EventConsistent(source: Source, st: Store, m: Message, e: Event)
    requires Consistent(st) && WellFormed(source.id, e) && !HasRaw(st.raws, source.id, m)
    ensures Consistent(IngestEvent(source, st, m, e).0)
  {
    if !HasObservation(st.observations, source.id, e.key) && Conflict(st, source.id, e).None? {
      PersistConsistent(st, source.id, m, e);
    }
  }

  lemma RawConsistent(st: Store, source: Uuid, m: Message, quarantined: bool)
    requires Consistent(st) && !HasRaw(st.raws, source, m)
    ensures Consistent(AddRaw(st, source, m, quarantined))
  {
    RawAdded(st.raws, source, m, quarantined);
  }

  lemma AcceptConsistent(source: Source, st: Store, m: Message)
    requires Consistent(st)
    ensures Consistent(Accept(source, st, m).0)
  {
    if !HasRaw(st.raws, source.id, m) {
      RawConsistent(st, source.id, m, true);
      RawConsistent(st, source.id, m, false);
      NormalizeWellFormed(source.id, m.topic, m.body, source.cameras, m.observedAt);
      var n := NormalizeMessage(source, m);
      if n.Normal? {
        EventConsistent(source, st, m, n.event);
      }
    }
  }

  // ------------------------------------------------------------- runs

  datatype Delivery = Delivery(source: Source, message: Message, stream: string, cursor: Cursor)

  function IngestOne(st: Store, d: Delivery): (Store, IngestResult)
  {
    Ingest(d.source, st, d.message, d.stream, d.cursor)
  }

  function IngestAll(st: Store, ds: seq<Delivery>): Store
  {
    if ds == [] then st else IngestOne(IngestAll(st, ds[..|ds| - 1]), ds[|ds| - 1]).0
  }

  function ResultOf(st: Store, ds: seq<Delivery>, i: nat): IngestResult
    requires i < |ds|
  {
    IngestOne(IngestAll(st, ds[..i]), ds[i]).1
  }

  lemma OneConsistent(st: Store, d: Delivery)
    requires Consistent(st)
    ensures Consistent(IngestOne(st, d).0)
  {
    AcceptConsistent(d.source, st, d.message);
  }

  lemma {:induction false} RunConsistent(st: Store, ds: seq<Delivery>)
    requires Consistent(st)
    ensures Consistent(IngestAll(st, ds))
  {
    if ds != [] {
      RunConsistent(st, ds[..|ds| - 1]);
      OneConsistent(IngestAll(st, ds[..|ds| - 1]), ds[|ds| - 1]);
    }
  }
}
