/** Ingest is idempotent and insensitive to order: which keys the store ends up with. */
module IngestKeys {
  import opened Common
  import opened SourceKeys
  import opened Normalizer
  import opened IngestStore
  import opened IngestTables

  predicate ValidEvent(n: Normalized)
  {
    n.Normal? && forall i :: 0 <= i < |n.event.objects| ==> ValidObject(n.event.objects[i])
  }

  /** The event a topic and payload stand for, if the message is a valid one. */
  function Content(source: Uuid, topic: string, body: Body): Option<Event>
  {
    var n := Normalize(source, topic, body, map[], 0);
    if EndsWith(topic, "/available") || !ValidEvent(n) then None else Some(Essence(n.event))
  }

  function ContentOf(d: Delivery): Option<Event>
  {
    Content(d.source.id, d.message.topic, d.message.body)
  }

  predicate StandsFor(d: Delivery, source: Uuid, key: string)
  {
    d.source.id == source && ContentOf(d).Some? && ContentOf(d).value.key == key
  }

  lemma NormalizedContent(d: Delivery)
    ensures var n := NormalizeMessage(d.source, d.message);
            && ContentOf(d).Some? == (!EndsWith(d.message.topic, "/available") && ValidEvent(n))
            && (ContentOf(d).Some? ==> ContentOf(d).value == Essence(n.event))
            && (n.Normal? ==> WellFormed(d.source.id, n.event))
  {
    ContentDecides(d.source.id, d.message.topic, d.message.body, d.source.cameras, d.message.observedAt, map[], 0);
    NormalizeWellFormed(d.source.id, d.message.topic, d.message.body, d.source.cameras, d.message.observedAt);
  }

  ghost predicate SomeStands(ds: seq<Delivery>, source: Uuid, key: string)
  {
    exists i :: 0 <= i < |ds| && StandsFor(ds[i], source, key)
  }

  /** A valid delivery that is the first with its key. */
  ghost predicate Leading(ds: seq<Delivery>, i: nat)
  {
    i < |ds| && ContentOf(ds[i]).Some?
    && forall j :: 0 <= j < i ==> !StandsFor(ds[j], ds[i].source.id, ContentOf(ds[i]).value.key)
  }

  /** Two revisions of one entity that share their text although their lifecycles differ. */
  predicate SameRef(c: Delivery, d: Delivery)
  {
    && c.source.id == d.source.id && ContentOf(c).Some? && ContentOf(d).Some?
    && var e, f := ContentOf(c).value, ContentOf(d).value;
       e.evidence != [] && f.evidence != [] && e.namespace == f.namespace && e.entity == f.entity && e.revision == f.revision
  }

  ghost predicate Clash(ds: seq<Delivery>)
  {
    exists i, j :: 0 <= i < j && Leading(ds, i) && Leading(ds, j) && SameRef(ds[i], ds[j])
  }

  /** Which deliveries are stored: a valid one, if none stored before has its key or holds its evidence reference. */
  ghost predicate Stored(ds: seq<Delivery>, i: nat)
    decreases i
  {
    && i < |ds| && ContentOf(ds[i]).Some?
    && forall j :: 0 <= j < i && Stored(ds, j) ==>
         !StandsFor(ds[j], ds[i].source.id, ContentOf(ds[i]).value.key) && !SameRef(ds[j], ds[i])
  }

  ghost predicate SomeStored(ds: seq<Delivery>, source: Uuid, key: string)
  {
    exists i :: 0 <= i < |ds| && Stored(ds, i) && StandsFor(ds[i], source, key)
  }

  predicate Observed(observations: seq<Observation>, source: Uuid, e: Event)
  {
    exists o :: 0 <= o < |observations| && observations[o].source == source && Essence(observations[o].event) == e
  }

  ghost function StoredSet(ds: seq<Delivery>): (stored: set<nat>)
  {
    set i | 0 <= i < |ds| && Stored(ds, i)
  }

  /** Each of these deliveries has its observation. */
  predicate Seen(observations: seq<Observation>, ds: seq<Delivery>, stored: set<nat>)
  {
    forall i :: i in stored ==>
      i < |ds| && ContentOf(ds[i]).Some? && Observed(observations, ds[i].source.id, ContentOf(ds[i]).value)
  }

  predicate From(ds: seq<Delivery>, stored: set<nat>, o: Observation)
  {
    exists i :: i in stored && i < |ds| && ds[i].source.id == o.source && ContentOf(ds[i]) == Some(Essence(o.event))
  }

  /** Each observation is that of one of these deliveries. */
  predicate AllFrom(observations: seq<Observation>, ds: seq<Delivery>, stored: set<nat>)
  {
    forall o :: 0 <= o < |observations| ==> From(ds, stored, observations[o])
  }

  /** The observation of a valid raw message is there. */
  ghost predicate Backed(observations: seq<Observation>, raw: RawMessage)
  {
    var content := Content(raw.source, raw.topic, raw.body);
    content.Some? ==> HasObservation(observations, raw.source, content.value.key)
  }

  lemma BackedGrows(observations: seq<Observation>, o: Observation, raw: RawMessage)
    requires Backed(observations, raw) || (raw.source == o.source && Content(raw.source, raw.topic, raw.body) == Some(Essence(o.event)))
    ensures Backed(observations + [o], raw)
  {
    var content := Content(raw.source, raw.topic, raw.body);
    if content.Some? {
      if Backed(observations, raw) {
        var p :| 0 <= p < |observations| && observations[p].source == raw.source && observations[p].event.key == content.value.key;
        assert (observations + [o])[p] == observations[p];
      } else {
        assert (observations + [o])[|observations|] == o;
      }
    }
  }

  /** The observations are those of the stored deliveries, and no raw row of a valid message lacks one. */
  ghost predicate Holds(st: Store, ds: seq<Delivery>)
  {
    HoldsExactly(st, ds, StoredSet(ds))
  }

  ghost predicate HoldsExactly(st: Store, ds: seq<Delivery>, stored: set<nat>)
  {
    && Seen(st.observations, ds, stored) && AllFrom(st.observations, ds, stored)
    && (forall r :: 0 <= r < |st.raws| ==> Backed(st.observations, st.raws[r]))
  }

  lemma {:induction false} StoredPrefix(ds: seq<Delivery>, d: Delivery, i: nat)
    requires i < |ds|
    ensures Stored(ds + [d], i) <==> Stored(ds, i)
  {
    assert (ds + [d])[i] == ds[i];
    forall j | 0 <= j < i ensures Stored(ds + [d], j) <==> Stored(ds, j) {
      StoredPrefix(ds, d, j);
    }
    assert forall j :: 0 <= j < i ==> (ds + [d])[j] == ds[j];
  }

  /** The new delivery is stored exactly if it is valid and nothing stored stands in its way. */
  lemma StoredLast(ds: seq<Delivery>, d: Delivery)
    ensures Stored(ds + [d], |ds|) <==>
              ContentOf(d).Some? && !SomeStored(ds, d.source.id, ContentOf(d).value.key)
              && forall j :: 0 <= j < |ds| && Stored(ds, j) ==> !SameRef(ds[j], d)
  {
    var more := ds + [d];
    assert more[|ds|] == d;
    forall j | 0 <= j < |ds| ensures more[j] == ds[j] && (Stored(more, j) <==> Stored(ds, j)) {
      StoredPrefix(ds, d, j);
    }
  }

  /** A key is in the store exactly if a stored delivery stands for it. */
  lemma KeyStored(st: Store, ds: seq<Delivery>, source: Uuid, key: string)
    requires Holds(st, ds)
    ensures HasObservation(st.observations, source, key) <==> SomeStored(ds, source, key)
  {
    if HasObservation(st.observations, source, key) {
      var o :| 0 <= o < |st.observations| && st.observations[o].source == source && st.observations[o].event.key == key;
      assert From(ds, StoredSet(ds), st.observations[o]);
      var i :| i in StoredSet(ds) && i < |ds| && ds[i].source.id == source
               && ContentOf(ds[i]) == Some(Essence(st.observations[o].event));
      assert StandsFor(ds[i], source, key);
    }
    if i :| 0 <= i < |ds| && Stored(ds, i) && StandsFor(ds[i], source, key) {
      assert i in StoredSet(ds);
    }
  }

  lemma StoredSetMore(ds: seq<Delivery>, d: Delivery)
    ensures StoredSet(ds + [d]) == StoredSet(ds) + if Stored(ds + [d], |ds|) then {|ds|} else {}
  {
    forall i: nat ensures i in StoredSet(ds + [d]) <==> i in StoredSet(ds) || (i == |ds| && Stored(ds + [d], |ds|)) {
      if i < |ds| {
        StoredPrefix(ds, d, i);
      }
    }
  }

  lemma SeenStill(observations: seq<Observation>, ds: seq<Delivery>, d: Delivery, stored: set<nat>)
    requires Seen(observations, ds, stored)
    ensures Seen(observations, ds + [d], stored)
  {
    assert forall i :: i in stored ==> (ds + [d])[i] == ds[i];
  }

  lemma SeenMore(observations: seq<Observation>, o: Observation, ds: seq<Delivery>, d: Delivery, stored: set<nat>)
    requires Seen(observations, ds, stored) && d.source.id == o.source && ContentOf(d) == Some(Essence(o.event))
    ensures Seen(observations + [o], ds + [d], stored + {|ds|})
  {
    var more := observations + [o];
    forall i | i in stored ensures Observed(more, ds[i].source.id, ContentOf(ds[i]).value) && (ds + [d])[i] == ds[i] {
      ObservedGrows(observations, o, ds[i].source.id, ContentOf(ds[i]).value);
    }
    assert more[|observations|] == o && (ds + [d])[|ds|] == d;
  }

  lemma FromStill(ds: seq<Delivery>, d: Delivery, stored: set<nat>, stored': set<nat>, o: Observation)
    requires From(ds, stored, o) && stored <= stored'
    ensures From(ds + [d], stored', o)
  {
    var i :| i in stored && i < |ds| && ds[i].source.id == o.source && ContentOf(ds[i]) == Some(Essence(o.event));
    assert (ds + [d])[i] == ds[i];
  }

  lemma AllFromMore(observations: seq<Observation>, o: Observation, ds: seq<Delivery>, d: Delivery, stored: set<nat>)
    requires AllFrom(observations, ds, stored) && d.source.id == o.source && ContentOf(d) == Some(Essence(o.event))
    ensures AllFrom(observations + [o], ds + [d], stored + {|ds|})
  {
    forall p | 0 <= p < |observations| ensures From(ds + [d], stored + {|ds|}, observations[p]) {
      FromStill(ds, d, stored, stored + {|ds|}, observations[p]);
    }
    assert (ds + [d])[|ds|] == d;
  }

  /** Stores without new observations. */
  lemma HoldsStill(st: Store, st': Store, ds: seq<Delivery>, d: Delivery, stored: set<nat>)
    requires HoldsExactly(st, ds, stored) && st'.observations == st.observations
    requires st'.raws == st.raws
             || (|st'.raws| == |st.raws| + 1 && st'.raws[..|st.raws|] == st.raws
                 && Content(st'.raws[|st.raws|].source, st'.raws[|st.raws|].topic, st'.raws[|st.raws|].body).None?)
    ensures HoldsExactly(st', ds + [d], stored)
  {
    SeenStill(st.observations, ds, d, stored);
    forall o | 0 <= o < |st.observations| ensures From(ds + [d], stored, st.observations[o]) {
      FromStill(ds, d, stored, stored, st.observations[o]);
    }
    forall r | 0 <= r < |st'.raws| ensures Backed(st'.observations, st'.raws[r]) {
      assert r < |st.raws| ==> st'.raws[..|st.raws|][r] == st'.raws[r];
    }
  }

  lemma ObservedGrows(observations: seq<Observation>, o: Observation, source: Uuid, e: Event)
    requires Observed(observations, source, e)
    ensures Observed(observations + [o], source, e)
  {
    var p :| 0 <= p < |observations| && observations[p].source == source && Essence(observations[p].event) == e;
    assert (observations + [o])[p] == observations[p];
  }

  lemma HoldsMore(st: Store, ds: seq<Delivery>, d: Delivery, e: Event, stored: set<nat>)
    requires HoldsExactly(st, ds, stored) && ContentOf(d) == Some(Essence(e))
    ensures HoldsExactly(Persist(st, d.source.id, d.message, e), ds + [d], stored + {|ds|})
  {
    var st' := Persist(st, d.source.id, d.message, e);
    var o := ObservationOf(st, d.source.id, e);
    PersistShape(st, d.source.id, d.message, e);
    SeenMore(st.observations, o, ds, d, stored);
    AllFromMore(st.observations, o, ds, d, stored);
    forall r | 0 <= r < |st'.raws| ensures Backed(st'.observations, st'.raws[r]) {
      BackedGrows(st.observations, o, st'.raws[r]);
    }
  }

  // ------------------------------------------------------------- one delivery

  lemma RawIsBacked(st: Store, ds: seq<Delivery>, d: Delivery)
    requires Holds(st, ds) && HasRaw(st.raws, d.source.id, d.message)
    ensures ContentOf(d).Some? ==> SomeStored(ds, d.source.id, ContentOf(d).value.key)
  {
    var r :| 0 <= r < |st.raws| && st.raws[r].source == d.source.id && st.raws[r].topic == d.message.topic
             && st.raws[r].secrets == d.message.secrets && st.raws[r].body == d.message.body;
    assert Backed(st.observations, st.raws[r]);
    if ContentOf(d).Some? {
      KeyStored(st, ds, d.source.id, ContentOf(d).value.key);
    }
  }

  /** In a consistent store an event is known, invalid, refused for its evidence, or persisted. */
  lemma EventOutcome(source: Source, st: Store, m: Message, e: Event)
    requires Consistent(st) && WellFormed(source.id, e)
    ensures var (st', result) := IngestEvent(source, st, m, e);
            if HasObservation(st.observations, source.id, e.key) then result == Duplicate && st' == st
            else if !ValidEvent(Normal(e)) then result == Raised(BadConfidence) && st' == st
            else if RefTaken(st.evidence, source.id, e) then result == Raised(DuplicateEvidenceRef) && st' == st
            else result.Persisted? && st' == Persist(st, source.id, m, e)
  {
    if !HasObservation(st.observations, source.id, e.key) {
      NoOutboxClash(st, source.id, e);
    }
  }

  predicate RefTaken(evidence: seq<Evidence>, source: Uuid, e: Event)
  {
    exists i :: 0 <= i < |e.evidence| && HasEvidence(evidence, source, e.evidence[i].ref)
  }

  /** Who holds an evidence reference. */
  lemma HolderOfRef(st: Store, source: Uuid, e: Event) returns (o: nat)
    requires KeysOk(st.observations) && EvidenceOk(st) && WellFormed(source, e) && RefTaken(st.evidence, source, e)
    ensures o < |st.observations| && st.observations[o].source == source
    ensures var f := st.observations[o].event;
            f.evidence != [] && f.namespace == e.namespace && f.entity == e.entity && f.revision == e.revision
  {
    var i :| 0 <= i < |e.evidence| && HasEvidence(st.evidence, source, e.evidence[i].ref);
    var k :| 0 <= k < |st.evidence| && st.evidence[k].source == source && st.evidence[k].item.ref == e.evidence[i].ref;
    o := st.evidence[k].obs;
    var f := st.observations[o].event;
    assert f.evidence[0] == st.evidence[k].item;
    SnapshotRefInjective(f.namespace, f.entity, f.revision, e.namespace, e.entity, e.revision);
  }

  /** The evidence row of an observation that has evidence. */
  lemma RefOf(st: Store, a: nat) returns (k: nat)
    requires KeysOk(st.observations) && EvidenceOk(st) && a < |st.observations| && st.observations[a].event.evidence != []
    ensures k < |st.evidence| && st.evidence[k].source == st.observations[a].source
    ensures var e := st.observations[a].event; st.evidence[k].item.ref == SnapshotRef(e.namespace, e.entity, e.revision)
  {
    k :| 0 <= k < |st.evidence| && st.evidence[k].obs == a;
    assert WellFormed(st.observations[a].source, st.observations[a].event);
    assert st.observations[a].event.evidence[0] == st.evidence[k].item;
  }

  lemma ObservedHoldsRef(st: Store, source: Uuid, e: Event, f: Event)
    requires KeysOk(st.observations) && EvidenceOk(st) && WellFormed(source, e) && Observed(st.observations, source, f)
    requires e.evidence != [] && f.evidence != [] && e.namespace == f.namespace && e.entity == f.entity && e.revision == f.revision
    ensures RefTaken(st.evidence, source, e)
  {
    var a :| 0 <= a < |st.observations| && st.observations[a].source == source && Essence(st.observations[a].event) == f;
    var k := RefOf(st, a);
    assert HasEvidence(st.evidence, source, e.evidence[0].ref);
  }

  lemma RefHeldBy(ds: seq<Delivery>, d: Delivery, e: Event, o: Observation, stored: set<nat>)
    requires From(ds, stored, o) && o.source == d.source.id && ContentOf(d) == Some(Essence(e))
    requires e.evidence != [] && o.event.evidence != [] && o.event.namespace == e.namespace
    requires o.event.entity == e.entity && o.event.revision == e.revision
    ensures exists j :: j in stored && j < |ds| && SameRef(ds[j], d)
  {
    var j :| j in stored && j < |ds| && ds[j].source.id == o.source && ContentOf(ds[j]) == Some(Essence(o.event));
    assert SameRef(ds[j], d);
  }

  /** A reference is taken exactly if a stored delivery has it. */
  lemma RefTakenIff(st: Store, ds: seq<Delivery>, d: Delivery, e: Event)
    requires Consistent(st) && Holds(st, ds) && WellFormed(d.source.id, e) && ContentOf(d) == Some(Essence(e))
    ensures RefTaken(st.evidence, d.source.id, e) <==> exists j :: 0 <= j < |ds| && Stored(ds, j) && SameRef(ds[j], d)
  {
    if RefTaken(st.evidence, d.source.id, e) {
      var o := HolderOfRef(st, d.source.id, e);
      RefHeldBy(ds, d, e, st.observations[o], StoredSet(ds));
    }
    if j :| 0 <= j < |ds| && Stored(ds, j) && SameRef(ds[j], d) {
      assert j in StoredSet(ds);
      ObservedHoldsRef(st, d.source.id, e, ContentOf(ds[j]).value);
    }
  }

  /** What becomes of a delivery, told by the deliveries before it. */
  ghost predicate Fate(ds: seq<Delivery>, d: Delivery, result: IngestResult)
  {
    && (result.Persisted? <==> Stored(ds + [d], |ds|))
    && (result == Raised(DuplicateEvidenceRef) <==>
          ContentOf(d).Some? && !SomeStored(ds, d.source.id, ContentOf(d).value.key)
          && exists j :: 0 <= j < |ds| && Stored(ds, j) && SameRef(ds[j], d))
  }

  /** An event that reaches the store's constraints. */
  lemma EventHolds(st: Store, ds: seq<Delivery>, d: Delivery, e: Event)
    requires Consistent(st) && Holds(st, ds)
    requires !EndsWith(d.message.topic, "/available") && NormalizeMessage(d.source, d.message) == Normal(e)
    ensures Holds(IngestEvent(d.source, st, d.message, e).0, ds + [d])
    ensures Fate(ds, d, IngestEvent(d.source, st, d.message, e).1)
  {
    NormalizedContent(d);
    EventOutcome(d.source, st, d.message, e);
    StoredLast(ds, d);
    if ValidEvent(Normal(e)) {
      KeyStored(st, ds, d.source.id, e.key);
      RefTakenIff(st, ds, d, e);
    }
    StoredSetMore(ds, d);
    if IngestEvent(d.source, st, d.message, e).1.Persisted? {
      HoldsMore(st, ds, d, e, StoredSet(ds));
    } else {
      HoldsStill(st, st, ds, d, StoredSet(ds));
    }
  }

  lemma AcceptHolds(st: Store, ds: seq<Delivery>, d: Delivery)
    requires Consistent(st) && Holds(st, ds)
    ensures Holds(Accept(d.source, st, d.message).0, ds + [d]) && Fate(ds, d, Accept(d.source, st, d.message).1)
  {
    NormalizedContent(d);
    StoredLast(ds, d);
    StoredSetMore(ds, d);
    var n := NormalizeMessage(d.source, d.message);
    if HasRaw(st.raws, d.source.id, d.message) {
      RawIsBacked(st, ds, d);
      HoldsStill(st, st, ds, d, StoredSet(ds));
    } else if !EndsWith(d.message.topic, "/available") && n.Normal? {
      EventHolds(st, ds, d, n.event);
    } else {
      HoldsStill(st, Accept(d.source, st, d.message).0, ds, d, StoredSet(ds));
    }
  }

  /** The checkpoint aside, ingesting is accepting. */
  lemma OneIsAccept(st: Store, d: Delivery)
    ensures IngestOne(st, d).1 == Accept(d.source, st, d.message).1
    ensures IngestOne(st, d).0.observations == Accept(d.source, st, d.message).0.observations
    ensures IngestOne(st, d).0.raws == Accept(d.source, st, d.message).0.raws
  {
  }

  lemma HoldsSame(st: Store, st': Store, ds: seq<Delivery>)
    requires Holds(st, ds) && st'.observations == st.observations && st'.raws == st.raws
    ensures Holds(st', ds)
  {
  }

  lemma OneHolds(st: Store, ds: seq<Delivery>, d: Delivery)
    requires Consistent(st) && Holds(st, ds)
    ensures Holds(IngestOne(st, d).0, ds + [d]) && Fate(ds, d, IngestOne(st, d).1)
  {
    AcceptHolds(st, ds, d);
    OneIsAccept(st, d);
    HoldsSame(Accept(d.source, st, d.message).0, IngestOne(st, d).0, ds + [d]);
  }

  ghost predicate AllBacked(st: Store)
  {
    forall r :: 0 <= r < |st.raws| ==> Backed(st.observations, st.raws[r])
  }

  /** No raw row of a valid message ever lacks its observation. */
  lemma OneBacked(st: Store, d: Delivery)
    requires AllBacked(st)
    ensures AllBacked(IngestOne(st, d).0)
  {
    var st' := IngestOne(st, d).0;
    var n := NormalizeMessage(d.source, d.message);
    NormalizedContent(d);
    if |st'.observations| > |st.observations| {
      PersistBacked(st, d, n.event);
    } else {
      UnobservedBacked(st, d);
    }
  }

  lemma PersistBacked(st: Store, d: Delivery, e: Event)
    requires AllBacked(st) && ContentOf(d) == Some(Essence(e))
    ensures AllBacked(Persist(st, d.source.id, d.message, e))
  {
    PersistShape(st, d.source.id, d.message, e);
    var st' := Persist(st, d.source.id, d.message, e);
    forall r | 0 <= r < |st'.raws| ensures Backed(st'.observations, st'.raws[r]) {
      BackedGrows(st.observations, ObservationOf(st, d.source.id, e), st'.raws[r]);
    }
  }

  lemma UnobservedBacked(st: Store, d: Delivery)
    requires AllBacked(st) && |IngestOne(st, d).0.observations| == |st.observations|
    ensures AllBacked(IngestOne(st, d).0)
  {
    NormalizedContent(d);
    var n := NormalizeMessage(d.source, d.message);
    if n.Normal? {
      PersistShape(st, d.source.id, d.message, n.event);
    }
  }

  // ------------------------------------------------------------- runs

  lemma {:induction false} RunHolds(ds: seq<Delivery>)
    ensures Consistent(IngestAll(EMPTY, ds)) && Holds(IngestAll(EMPTY, ds), ds)
  {
    EmptyConsistent();
    RunConsistent(EMPTY, ds);
    if ds != [] {
      var front, d := ds[..|ds| - 1], ds[|ds| - 1];
      assert ds == front + [d];
      RunHolds(front);
      OneHolds(IngestAll(EMPTY, front), front, d);
    }
  }

  lemma {:induction false} StoredAt(ds: seq<Delivery>, n: nat, i: nat)
    requires i < n <= |ds|
    ensures Stored(ds[..n], i) <==> Stored(ds, i)
    decreases |ds| - n
  {
    if n < |ds| {
      StoredAt(ds, n + 1, i);
      assert ds[..n] + [ds[n]] == ds[..n + 1];
      StoredPrefix(ds[..n], ds[n], i);
    } else {
      assert ds[..n] == ds;
    }
  }

  /** A message is persisted exactly if it is stored in the sense above. */
  lemma PersistedIffStored(ds: seq<Delivery>, i: nat)
    requires i < |ds|
    ensures ResultOf(EMPTY, ds, i).Persisted? <==> Stored(ds, i)
    ensures ResultOf(EMPTY, ds, i) != Raised(DuplicateOutboxKey)
  {
    RunHolds(ds[..i]);
    OneHolds(IngestAll(EMPTY, ds[..i]), ds[..i], ds[i]);
    NeverOutboxClash(IngestAll(EMPTY, ds[..i]), ds[i]);
    assert ds[..i] + [ds[i]] == ds[..i + 1];
    StoredAt(ds, i + 1, i);
  }

  /** A valid message, not stored already, whose evidence reference a stored one holds. */
  ghost predicate Barred(ds: seq<Delivery>, i: nat)
    requires i < |ds|
  {
    && ContentOf(ds[i]).Some?
    && (forall j :: 0 <= j < i && Stored(ds, j) ==> !StandsFor(ds[j], ds[i].source.id, ContentOf(ds[i]).value.key))
    && exists j :: 0 <= j < i && Stored(ds, j) && SameRef(ds[j], ds[i])
  }

  lemma BarredByPrefix(ds: seq<Delivery>, i: nat)
    requires i < |ds|
    ensures Barred(ds, i) <==>
              ContentOf(ds[i]).Some? && !SomeStored(ds[..i], ds[i].source.id, ContentOf(ds[i]).value.key)
              && exists j :: 0 <= j < i && Stored(ds[..i], j) && SameRef(ds[..i][j], ds[i])
  {
    forall j | 0 <= j < i ensures ds[..i][j] == ds[j] && (Stored(ds[..i], j) <==> Stored(ds, j)) {
      StoredAt(ds, i, j);
    }
  }

  lemma RefusedIffBarred(ds: seq<Delivery>, i: nat)
    requires i < |ds|
    ensures ResultOf(EMPTY, ds, i) == Raised(DuplicateEvidenceRef) <==> Barred(ds, i)
  {
    RunHolds(ds[..i]);
    OneHolds(IngestAll(EMPTY, ds[..i]), ds[..i], ds[i]);
    BarredByPrefix(ds, i);
  }

  lemma NeverOutboxClash(st: Store, d: Delivery)
    requires Consistent(st)
    ensures IngestOne(st, d).1 != Raised(DuplicateOutboxKey)
  {
    NormalizedContent(d);
    var n := NormalizeMessage(d.source, d.message);
    if n.Normal? {
      EventOutcome(d.source, st, d.message, n.event);
    }
  }

  // ------------------------------------------------------------- clashes

  ghost predicate NoneRefused(ds: seq<Delivery>)
  {
    forall i :: 0 <= i < |ds| ==> ResultOf(EMPTY, ds, i) != Raised(DuplicateEvidenceRef)
  }

  /** Every key a valid delivery stands for has its leading delivery. */
  lemma {:induction false} LeaderOf(ds: seq<Delivery>, i: nat) returns (k: nat)
    requires i < |ds| && ContentOf(ds[i]).Some?
    ensures k <= i && Leading(ds, k) && StandsFor(ds[k], ds[i].source.id, ContentOf(ds[i]).value.key)
  {
    if j :| 0 <= j < i && StandsFor(ds[j], ds[i].source.id, ContentOf(ds[i]).value.key) {
      k := LeaderOf(ds, j);
    } else {
      k := i;
    }
  }

  /** Without a clash the stored deliveries are the leading ones. */
  lemma {:induction false} StoredIffLeading(ds: seq<Delivery>, i: nat)
    requires i < |ds| && !Clash(ds)
    ensures Stored(ds, i) <==> Leading(ds, i)
  {
    forall j | 0 <= j < i ensures Stored(ds, j) <==> Leading(ds, j) {
      StoredIffLeading(ds, j);
    }
    if Stored(ds, i) {
      var k := LeaderOf(ds, i);
      assert k == i;
    }
  }

  lemma LeadingIsStored(ds: seq<Delivery>, i: nat)
    requires NoneRefused(ds) && Leading(ds, i)
    ensures Stored(ds, i)
  {
    RefusedIffBarred(ds, i);
  }

  /**
   * A run of ingests refuses an evidence reference exactly if two of its leading deliveries clash, and
   * no other uniqueness constraint is ever violated.
   */
  lemma RefusedIffClash(ds: seq<Delivery>)
    ensures NoneRefused(ds) <==> !Clash(ds)
    ensures forall i :: 0 <= i < |ds| ==> ResultOf(EMPTY, ds, i) != Raised(DuplicateOutboxKey)
  {
    forall i | 0 <= i < |ds| ensures ResultOf(EMPTY, ds, i) != Raised(DuplicateOutboxKey) {
      PersistedIffStored(ds, i);
    }
    if !Clash(ds) {
      forall i | 0 <= i < |ds| ensures ResultOf(EMPTY, ds, i) != Raised(DuplicateEvidenceRef) {
        BarredIsClash(ds, i);
        RefusedIffBarred(ds, i);
      }
    }
    if NoneRefused(ds) {
      forall i, j | 0 <= i < j && Leading(ds, i) && Leading(ds, j) ensures !SameRef(ds[i], ds[j]) {
        LeadingIsStored(ds, i);
        LeadingIsStored(ds, j);
      }
    }
  }

  lemma BarredIsClash(ds: seq<Delivery>, i: nat)
    requires i < |ds|
    ensures Barred(ds, i) ==> Clash(ds)
  {
    if Barred(ds, i) && !Clash(ds) {
      var k := LeaderOf(ds, i);
      StoredIffLeading(ds, k);
      var j :| 0 <= j < i && Stored(ds, j) && SameRef(ds[j], ds[i]);
      StoredIffLeading(ds, j);
      assert false;
    }
  }

  lemma StoredAreValid(ds: seq<Delivery>, source: Uuid, key: string)
    requires !Clash(ds)
    ensures SomeStored(ds, source, key) <==> SomeStands(ds, source, key)
  {
    if i :| 0 <= i < |ds| && StandsFor(ds[i], source, key) {
      var k := LeaderOf(ds, i);
      StoredIffLeading(ds, k);
    }
  }

  /**
   * The observation keys are those of the stored deliveries: a valid message is stored unless one stored
   * before it has its key or its evidence reference. Without a clash these are the keys of all valid
   * messages: how often and in what order they came is forgotten. Each key is there once, and the outbox
   * holds one canonical key for each.
   */
  lemma KeysAreValidMessages(ds: seq<Delivery>, source: Uuid, key: string)
    ensures var st := IngestAll(EMPTY, ds);
            && (HasObservation(st.observations, source, key) <==> SomeStored(ds, source, key))
            && (!Clash(ds) ==> (SomeStored(ds, source, key) <==> SomeStands(ds, source, key)))
            && (forall i, j :: 0 <= i < j < |st.observations| ==> st.observations[i].event.key != st.observations[j].event.key)
            && |st.outbox| == |st.observations|
            && (forall i :: 0 <= i < |st.outbox| ==> st.outbox[i].key == "canonical:" + st.observations[i].event.key)
  {
    RunHolds(ds);
    KeyStored(IngestAll(EMPTY, ds), ds, source, key);
    if !Clash(ds) {
      StoredAreValid(ds, source, key);
    }
  }

  predicate SameContent(c: Delivery, d: Delivery)
  {
    c.source.id == d.source.id && c.message.topic == d.message.topic && c.message.body == d.message.body
  }

  ghost predicate Covers(ds: seq<Delivery>, es: seq<Delivery>)
  {
    forall i :: 0 <= i < |ds| ==> exists j :: 0 <= j < |es| && SameContent(ds[i], es[j])
  }

  lemma CoveredStands(ds: seq<Delivery>, es: seq<Delivery>, source: Uuid, key: string)
    requires Covers(ds, es) && SomeStands(ds, source, key)
    ensures SomeStands(es, source, key)
  {
    var i :| 0 <= i < |ds| && StandsFor(ds[i], source, key);
    var j :| 0 <= j < |es| && SameContent(ds[i], es[j]);
    assert StandsFor(es[j], source, key);
  }

  /** Repeating, dropping repeats, or permuting messages leaves the same keys. */
  lemma OrderAndRepeatsDoNotMatter(ds: seq<Delivery>, es: seq<Delivery>, source: Uuid, key: string)
    requires !Clash(ds) && !Clash(es) && Covers(ds, es) && Covers(es, ds)
    ensures HasObservation(IngestAll(EMPTY, ds).observations, source, key)
            <==> HasObservation(IngestAll(EMPTY, es).observations, source, key)
  {
    KeysAreValidMessages(ds, source, key);
    KeysAreValidMessages(es, source, key);
    if SomeStands(ds, source, key) {
      CoveredStands(ds, es, source, key);
    }
    if SomeStands(es, source, key) {
      CoveredStands(es, ds, source, key);
    }
  }

  /** Twelve hexadecimal digits that do tell the payloads apart rule clashes out. */
  lemma DistinctDigestsSuffice(ds: seq<Delivery>)
    requires forall i, j :: 0 <= i < |ds| && 0 <= j < |ds| && ds[i].message.body.digest == ds[j].message.body.digest ==>
               ds[i].message.body == ds[j].message.body
    ensures !Clash(ds)
  {
    forall i, j | 0 <= i < j && Leading(ds, i) && Leading(ds, j) ensures !SameRef(ds[i], ds[j]) {
      if SameRef(ds[i], ds[j]) {
        SameBodySameKey(ds[i], ds[j]);
      }
    }
  }

  /** Events with evidence come from the review model and the object model only. */
  lemma ContentWithEvidence(source: Uuid, topic: string, body: Body)
    requires Content(source, topic, body).Some? && Content(source, topic, body).value.evidence != []
    ensures var e := Content(source, topic, body).value;
            if e.namespace == REVIEWS then
              body.review.Some? && e.revision == Revision(ReviewTime(body.review.value), body.digest)
              && e.key == KeyFor(source, REVIEWS, e.entity, body.review.value.messageType, e.revision)
            else
              e.namespace == EVENTS && body.tracked.Some?
              && e.revision == Revision(ObjectTime(body.tracked.value), body.digest)
              && e.key == KeyFor(source, EVENTS, e.entity, body.tracked.value.messageType, e.revision)
  {
  }

  lemma SameBodySameKey(c: Delivery, d: Delivery)
    requires SameRef(c, d) && (c.message.body.digest == d.message.body.digest ==> c.message.body == d.message.body)
    ensures StandsFor(c, d.source.id, ContentOf(d).value.key)
  {
    var a, b := c.message.body, d.message.body;
    ContentWithEvidence(c.source.id, c.message.topic, a);
    ContentWithEvidence(d.source.id, d.message.topic, b);
    if ContentOf(c).value.namespace == REVIEWS {
      RevisionShowsDigest(ReviewTime(a.review.value), a.digest, ReviewTime(b.review.value), b.digest);
    } else {
      RevisionShowsDigest(ObjectTime(a.tracked.value), a.digest, ObjectTime(b.tracked.value), b.digest);
    }
  }

  /** A review that was last updated and one that ended at the same instant, their digests alike. */
  function ClashingMessage(t: MessageType): Message
  {
    var p := ReviewPayload(t, "r", "gate", 1, if t.End? then Some(2) else None, Some(2), None, [], {}, {}, {});
    Message("frigate/reviews", 3, "", Body(Some(p), None, None, "000000000000"))
  }

  function ClashingDelivery(t: MessageType): Delivery
  {
    Delivery(Source("00000000-0000-0000-0000-000000000000", map[]), ClashingMessage(t), "s", Index(0))
  }

  lemma ClashingContent(t: MessageType)
    ensures var source := ClashingDelivery(t).source.id;
            var revision := Revision(2, "000000000000");
            && ContentOf(ClashingDelivery(t)).Some?
            && var e := ContentOf(ClashingDelivery(t)).value;
               && e.evidence != [] && e.namespace == REVIEWS && e.entity == "r" && e.revision == revision
               && e.lifecycle == LifecycleOf(t)
               && WellFormed(source, e)
  {
    var m := ClashingMessage(t);
    var suffix := "/reviews";
    assert m.topic[|m.topic| - |suffix|..] == suffix;
    assert m.topic[|m.topic| - 1] == 's' && "/available"[9] == 'e';
    assert !EndsWith(m.topic, "/available") by {
      assert m.topic[|m.topic| - 10..][9] == 's';
    }
    NormalizeWellFormed(ClashingDelivery(t).source.id, m.topic, m.body, map[], 0);
  }

  /** So the refusal is real: it takes an accident of twelve digits. */
  lemma ClashExample()
    ensures var ds := [ClashingDelivery(Update), ClashingDelivery(End)]; Clash(ds) && !NoneRefused(ds)
  {
    var ds := [ClashingDelivery(Update), ClashingDelivery(End)];
    ClashingContent(Update);
    ClashingContent(End);
    SameKey(ds[0].source.id, ContentOf(ds[0]).value, ds[1].source.id, ContentOf(ds[1]).value);
    assert Leading(ds, 0) && Leading(ds, 1) && SameRef(ds[0], ds[1]);
    RefusedIffClash(ds);
  }

  function Recorded(ds: seq<Delivery>): nat
  {
    if ds == [] then 0
    else
      var r := ResultOf(EMPTY, ds, |ds| - 1);
      Recorded(ds[..|ds| - 1]) + (if r.Persisted? || r.Quarantined? || r.Ignored? then 1 else 0)
  }

  /** Raw rows are counted by the results: one for each persisted, quarantined or ignored message. */
  lemma {:induction false} RawsCountResults(ds: seq<Delivery>)
    ensures |IngestAll(EMPTY, ds).raws| == Recorded(ds)
  {
    if ds != [] {
      var front, d := ds[..|ds| - 1], ds[|ds| - 1];
      RawsCountResults(front);
      var st := IngestAll(EMPTY, front);
      assert ResultOf(EMPTY, ds, |ds| - 1) == IngestOne(st, d).1;
      var n := NormalizeMessage(d.source, d.message);
      if n.Normal? {
        PersistShape(st, d.source.id, d.message, n.event);
      }
    }
  }
}
