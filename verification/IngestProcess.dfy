/** Ingest as the pipeline runs it, over a session whose changes last only when committed. */
module IngestProcess {
  import opened Common
  import opened SourceKeys
  import opened Normalizer
  import opened IngestStore
  import opened IngestTables
  import opened Lifecycles

  class Session {
    var committed: Store
    var working: Store

    constructor (store: Store)
      ensures committed == working == store
    {
      committed, working := store, store;
    }

    method Commit()
      modifies this
      ensures committed == working == old(working)
    {
      committed := working;
    }

    method Rollback()
      modifies this
      ensures committed == working == old(committed)
    {
      working := committed;
    }
  }

  /** The index after the stored checkpoint; a cursor that is no number is an error. */
  function StartIndex(st: Store, source: Uuid, stream: string): Option<nat>
  {
    if (source, stream) !in st.checkpoints then Some(0)
    else
      match st.checkpoints[(source, stream)]
      case Index(i) => Some(i + 1)
      case Live(_) => None
  }

  function IngestAt(source: Source, stream: string): (Store, (nat, Message)) -> Option<Store>
  {
    (st: Store, item: (nat, Message)) =>
      var one := Ingest(source, st, item.1, stream, Index(item.0));
      if one.1.Raised? then None else Some(one.0)
  }

  function Numbered(bundle: seq<Message>, start: nat, stop: nat): seq<(nat, Message)>
    requires stop <= |bundle|
  {
    seq(Max(0, stop - start), k requires 0 <= k < stop - start => (start + k, bundle[start + k]))
  }

  /** The messages from one index up to another, one after the other, unless one raises. */
  function IngestRange(source: Source, st: Store, bundle: seq<Message>, stream: string, start: nat, stop: nat): Option<Store>
    requires stop <= |bundle|
  {
    Chain(IngestAt(source, stream), st, Numbered(bundle, start, stop))
  }

  lemma RangeStep(source: Source, st: Store, bundle: seq<Message>, stream: string, start: nat, stop: nat)
    requires start < stop <= |bundle|
    ensures var one := Ingest(source, st, bundle[start], stream, Index(start));
            IngestRange(source, st, bundle, stream, start, stop)
            == if one.1.Raised? then None else IngestRange(source, one.0, bundle, stream, start + 1, stop)
  {
    assert Numbered(bundle, start, stop)[1..] == Numbered(bundle, start + 1, stop);
  }

  /** What the rest of a range has to come to. */
  ghost predicate Remains(source: Source, st: Store, bundle: seq<Message>, stream: string, start: nat, stop: nat, target: Option<Store>)
    requires stop <= |bundle|
  {
    IngestRange(source, st, bundle, stream, start, stop) == target
  }

  lemma RemainsNext(source: Source, st: Store, bundle: seq<Message>, stream: string, start: nat, stop: nat, target: Option<Store>)
    requires start < stop <= |bundle| && Remains(source, st, bundle, stream, start, stop, target)
    ensures match IngestAt(source, stream)(st, (start, bundle[start]))
            case None => target == None
            case Some(next) => Remains(source, next, bundle, stream, start + 1, stop, target)
  {
    RangeStep(source, st, bundle, stream, start, stop);
  }

  lemma RemainsNothing(source: Source, st: Store, bundle: seq<Message>, stream: string, start: nat, stop: nat, target: Option<Store>)
    requires stop <= start && stop <= |bundle| && Remains(source, st, bundle, stream, start, stop, target)
    ensures target == Some(st)
  {
  }

  function StopIndex(bundle: seq<Message>, start: nat, limit: Option<nat>): nat
  {
    match limit
    case None => |bundle|
    case Some(n) => Min(|bundle|, start + n)
  }

  function BundleRun(source: Source, st: Store, bundle: seq<Message>, stream: string, limit: Option<nat>): Option<Store>
  {
    match StartIndex(st, source.id, stream)
    case None => None
    case Some(start) => IngestRange(source, st, bundle, stream, start, StopIndex(bundle, start, limit))
  }

  lemma BundleRange(source: Source, st: Store, bundle: seq<Message>, stream: string, limit: Option<nat>, start: nat, stop: nat)
    requires StartIndex(st, source.id, stream) == Some(start) && StopIndex(bundle, start, limit) == stop
    ensures BundleRun(source, st, bundle, stream, limit) == IngestRange(source, st, bundle, stream, start, stop)
  {
  }

  function Unflagged(o: Observation): Observation
  {
    o.(partialHistory := false, outOfOrder := false, afterTerminal := false)
  }

  /** What the flags of a new observation say of the history it joins. */
  ghost predicate Classified(history: seq<Observation>, o: Observation)
  {
    && (o.outOfOrder <==> exists i :: 0 <= i < |history| && history[i].event.occurredAt > o.event.occurredAt)
    && (o.afterTerminal <==>
          !o.event.lifecycle.Corrected? && !o.event.lifecycle.Deleted?
          && exists i :: 0 <= i < |history| && (history[i].event.lifecycle.Ended? || history[i].event.lifecycle.Deleted?))
    && (o.partialHistory <==>
          !o.event.lifecycle.Started? && forall i :: 0 <= i < |history| ==> !history[i].event.lifecycle.Started?)
  }

  lemma Classifies(st: Store, source: Uuid, e: Event)
    ensures Classified(History(st.observations, source, e.namespace, e.entity), ObservationOf(st, source, e))
  {
    var history := History(st.observations, source, e.namespace, e.entity);
    if history != [] {
      LatestMeaning(history);
    }
  }

  /** There is one way to classify. */
  lemma ClassifiedOnce(st: Store, source: Uuid, e: Event, o: Observation)
    requires Unflagged(o) == Observation(source, |st.raws|, e, false, false, false)
    requires Classified(History(st.observations, source, e.namespace, e.entity), o)
    ensures o == ObservationOf(st, source, e)
  {
    var history := History(st.observations, source, e.namespace, e.entity);
    if history != [] {
      LatestMeaning(history);
    }
  }

  lemma FlagsMore(st: Store, source: Uuid, e: Event)
    ensures var history := History(st.observations, source, e.namespace, e.entity);
            WellFormed(source, e) && AllSay(history) ==> AllSay(history + [ObservationOf(st, source, e)])
  {
    var history := History(st.observations, source, e.namespace, e.entity);
    if WellFormed(source, e) && AllSay(history) {
      FlagsOfNew(st, source, e);
      forall j | 0 <= j < |history| ensures FlagsSay(history + [ObservationOf(st, source, e)], j) {
        FlagsPrefix(history, ObservationOf(st, source, e), j);
      }
    }
  }

  class FrigateIngestPipeline {
    const session: Session
    const source: Source

    constructor (session: Session, source: Source)
      ensures this.session == session && this.source == source
    {
      this.session, this.source := session, source;
    }

    /** The first constraint the rows of an event would violate. */
    method Constraints(e: Event) returns (failure: Option<Failure>)
      ensures failure == Conflict(session.working, source.id, e)
    {
      var st := session.working;
      for i := 0 to |e.objects|
        invariant forall k :: 0 <= k < i ==> ValidObject(e.objects[k])
      {
        if !ValidObject(e.objects[i]) {
          return Some(BadConfidence);
        }
      }
      for i := 0 to |e.evidence|
        invariant forall k :: 0 <= k < i ==> !HasEvidence(st.evidence, source.id, e.evidence[k].ref)
      {
        if HasEvidence(st.evidence, source.id, e.evidence[i].ref) {
          return Some(DuplicateEvidenceRef);
        }
      }
      failure := if HasOutbox(st.outbox, CanonicalKey(e.key)) then Some(DuplicateOutboxKey) else None;
    }

    /** The review item of the event's entity: created by its first event, updated by the others. */
    method UpdateReview(id: nat, o: nat, e: Event, grants: seq<nat>)
      requires e.kind.Review?
      modifies session`working
      ensures session.working == WithReview(old(session.working), id, o, e, grants)
    {
      var st := session.working;
      var review: ReviewItem;
      if id !in st.reviews {
        review := ReviewItem(e.camera, StatusOf(e.lifecycle), e.extensions.severity,
                             if e.startAt.Some? then e.startAt.value else e.occurredAt, e.endAt, e.labels, e.zones, e.revision);
      } else {
        review := st.reviews[id];
        review := review.(camera := OrElse(e.camera, review.camera));
        review := review.(status := StatusOf(e.lifecycle));
        review := review.(severity := OrElse(e.extensions.severity, review.severity));
        review := review.(endAt := OrElse(e.endAt, review.endAt));
        review := review.(labels := e.labels, zones := e.zones);
        review := review.(revision := e.revision);
      }
      st := st.(reviews := st.reviews[id := review], links := st.links + {(id, o)});
      if e.lifecycle.Ended? {
        st := st.(jobs := CreateJob(st.jobs, Job(id, e.revision, grants)));
      }
      session.working := st;
    }

    method InsertEvidence(o: nat, e: Event) returns (grants: seq<nat>)
      modifies session`working
      ensures session.working == old(session.working).(evidence := old(session.working).evidence + EvidenceOf(source.id, o, e))
      ensures grants == Ids(|old(session.working).evidence|, |e.evidence|)
    {
      var before := session.working.evidence;
      var rows := before;
      grants := [];
      for i := 0 to |e.evidence|
        invariant rows == before + EvidenceOf(source.id, o, e)[..i] && grants == Ids(|before|, |e.evidence|)[..i]
      {
        grants := grants + [|rows|];
        rows := rows + [Evidence(source.id, o, e.evidence[i])];
      }
      session.working := session.working.(evidence := rows);
    }

    method InsertObjects(o: nat, e: Event)
      modifies session`working
      ensures session.working == old(session.working).(objects := old(session.working).objects + ObjectsOf(o, e))
    {
      var before := session.working.objects;
      var rows := before;
      for i := 0 to |e.objects|
        invariant rows == before + ObjectsOf(o, e)[..i]
      {
        rows := rows + [ObservedObject(o, e.objects[i])];
      }
      session.working := session.working.(objects := rows);
    }

    /** The flags of a new observation; a classified history stays classified with it. */
    method Classify(e: Event) returns (observation: Observation)
      ensures Unflagged(observation) == Observation(source.id, |session.working.raws|, e, false, false, false)
      ensures var history := History(session.working.observations, source.id, e.namespace, e.entity);
              && Classified(history, observation)
              && (WellFormed(source.id, e) && AllSay(history) ==> AllSay(history + [observation]))
    {
      var history := History(session.working.observations, source.id, e.namespace, e.entity);
      var outOfOrder := history != [] && e.occurredAt < LatestTime(history);
      var afterTerminal := HasTerminal(history) && !e.lifecycle.Corrected? && !e.lifecycle.Deleted?;
      var partialHistory := !e.lifecycle.Started? && !HasStart(history);
      observation := Observation(source.id, |session.working.raws|, e, partialHistory, outOfOrder, afterTerminal);
      Classifies(session.working, source.id, e);
      FlagsMore(session.working, source.id, e);
    }

    /** The rows of an event that passed all checks. */
    method Insert(m: Message, e: Event) returns (o: nat)
      modifies session`working
      ensures session.working == Persist(old(session.working), source.id, m, e) && o == |old(session.working).observations|
    {
      var observation := Classify(e);
      ClassifiedOnce(session.working, source.id, e, observation);
      var st := AddRaw(session.working, source.id, m, false);
      var id := FindMapping(st.mappings, source.id, e.namespace, e.entity);
      if id == |st.mappings| {
        st := st.(mappings := st.mappings + [Mapping(source.id, e.namespace, e.entity, e.kind)]);
      }
      o := |st.observations|;
      session.working := st.(observations := st.observations + [observation]);
      var grants := InsertEvidence(o, e);
      InsertObjects(o, e);
      if e.kind.Review? {
        UpdateReview(id, o, e, grants);
      }
      session.working := session.working.(outbox := session.working.outbox + [OutboxRow(CanonicalKey(e.key), id, o)]);
    }

    /** One message. When it raises, the caller has to roll the session back. */
    method IngestMessage(m: Message, stream: string, cursor: Cursor) returns (result: IngestResult)
      modifies session`working
      ensures result == Ingest(source, old(session.working), m, stream, cursor).1
      ensures !result.Raised? ==> session.working == Ingest(source, old(session.working), m, stream, cursor).0
    {
      var st := session.working;
      if HasRaw(st.raws, source.id, m) {
        session.working := Advance(st, source.id, stream, cursor);
        return Duplicate;
      }
      if EndsWith(m.topic, "/available") {
        session.working := Advance(AddRaw(st, source.id, m, false), source.id, stream, cursor);
        return Ignored;
      }
      var normalized := NormalizeMessage(source, m);
      if normalized.TimeError? {
        return Raised(BadTimestamp);
      }
      if normalized.ProtocolError? {
        session.working := Advance(AddRaw(st, source.id, m, true), source.id, stream, cursor);
        return Quarantined;
      }
      var e := normalized.event;
      if HasObservation(st.observations, source.id, e.key) {
        session.working := Advance(st, source.id, stream, cursor);
        return Duplicate;
      }
      var failure := Constraints(e);
      if failure.Some? {
        return Raised(failure.value);
      }
      var o := Insert(m, e);
      session.working := Advance(session.working, source.id, stream, cursor);
      return Persisted(o);
    }

    method IngestNext(bundle: seq<Message>, stream: string, index: nat, stop: nat, ghost target: Option<Store>)
      returns (result: IngestResult)
      requires index < stop <= |bundle| && Remains(source, session.working, bundle, stream, index, stop, target)
      modifies session`working
      ensures result.Raised? ==> target == None
      ensures !result.Raised? ==> Remains(source, session.working, bundle, stream, index + 1, stop, target)
    {
      RemainsNext(source, session.working, bundle, stream, index, stop, target);
      result := IngestMessage(bundle[index], stream, Index(index));
    }

    /** One message after the other; `target` is what all of them together have to come to. */
    method IngestBetween(bundle: seq<Message>, stream: string, start: nat, stop: nat, ghost target: Option<Store>)
      returns (results: seq<IngestResult>, raised: bool)
      requires stop <= |bundle| && Remains(source, session.working, bundle, stream, start, stop, target)
      modifies session`working
      ensures raised ==> target == None
      ensures !raised ==> target == Some(session.working) && |results| == Max(0, stop - start)
    {
      results, raised := [], false;
      var index := start;
      while index < stop
        invariant start <= index && (if start <= stop then index <= stop else index == start)
        invariant |results| == index - start
        invariant Remains(source, session.working, bundle, stream, index, stop, target)
      {
        var result := IngestNext(bundle, stream, index, stop, target);
        if result.Raised? {
          return results, true;
        }
        results := results + [result];
        index := index + 1;
      }
      RemainsNothing(source, session.working, bundle, stream, index, stop, target);
    }

    /** The rest of a bundle from the checkpoint on, at most `limit` messages of it. */
    method IngestFixtureBundle(bundle: seq<Message>, stream: string, limit: Option<nat>)
      returns (results: seq<IngestResult>, raised: bool)
      modifies session`working
      ensures raised <==> BundleRun(source, old(session.working), bundle, stream, limit).None?
      ensures !raised ==> Some(session.working) == BundleRun(source, old(session.working), bundle, stream, limit)
    {
      var start := 0;
      if (source.id, stream) in session.working.checkpoints {
        match session.working.checkpoints[(source.id, stream)]
        case Live(_) => return [], true;
        case Index(i) => start := i + 1;
      }
      var stop := if limit.Some? then Min(|bundle|, start + limit.value) else |bundle|;
      BundleRange(source, session.working, bundle, stream, limit, start, stop);
      results, raised := IngestBetween(bundle, stream, start, stop,
                                       IngestRange(source, session.working, bundle, stream, start, stop));
    }
  }
}
