/** The canonical store and what ingesting one message does to it. */
module IngestStore {
  import opened Common
  import opened SourceKeys
  import opened Normalizer

  /** A whole payload stands for its own hash; `secrets` is what redaction removes. */
  datatype Message = Message(topic: string, observedAt: int, secrets: string, body: Body)

  /** Where an ingest got to: an index into a fixture bundle, or the id of a live message. */
  datatype Cursor = Index(index: nat) | Live(mid: string)

  datatype RawMessage = RawMessage(
    source: Uuid, topic: string, secrets: string, body: Body, observedAt: int, quarantined: bool)

  datatype Observation = Observation(
    source: Uuid, raw: nat, event: Event, partialHistory: bool, outOfOrder: bool, afterTerminal: bool)

  datatype Mapping = Mapping(source: Uuid, namespace: string, entity: string, kind: EventKind)

  datatype Evidence = Evidence(source: Uuid, obs: nat, item: EvidenceItem)

  datatype ObservedObject = ObservedObject(obs: nat, item: EventObject)

  datatype ReviewStatus = Active | EndedReview | CorrectedReview | DeletedReview

  datatype ReviewItem = ReviewItem(
    camera: Option<Uuid>, status: ReviewStatus, severity: Option<string>, startAt: int, endAt: Option<int>,
    labels: set<string>, zones: set<string>, revision: string)

  /** The identity of a job is its subject, revision and evidence; policy and outputs are constants. */
  datatype Job = Job(review: nat, revision: string, grants: seq<nat>)

  datatype OutboxRow = OutboxRow(key: string, aggregate: nat, obs: nat)

  /** Tables in the order of insertion; the index of a row is its id. */
  datatype Store = Store(
    raws: seq<RawMessage>,
    observations: seq<Observation>,
    mappings: seq<Mapping>,
    evidence: seq<Evidence>,
    objects: seq<ObservedObject>,
    reviews: map<nat, ReviewItem>,
    links: set<(nat, nat)>,
    jobs: seq<Job>,
    outbox: seq<OutboxRow>,
    checkpoints: map<(Uuid, string), Cursor>)

  const EMPTY := Store([], [], [], [], [], map[], {}, [], [], map[])

  datatype Failure = BadTimestamp | BadConfidence | DuplicateEvidenceRef | DuplicateOutboxKey

  datatype IngestResult = Persisted(obs: nat) | Duplicate | Quarantined | Ignored | Raised(failure: Failure)

  // ------------------------------------------------------------- lookups

  predicate HasRaw(raws: seq<RawMessage>, source: Uuid, m: Message)
  {
    exists r :: 0 <= r < |raws| && raws[r].source == source && raws[r].topic == m.topic
                && raws[r].secrets == m.secrets && raws[r].body == m.body
  }

  predicate HasObservation(observations: seq<Observation>, source: Uuid, key: string)
  {
    exists o :: 0 <= o < |observations| && observations[o].source == source && observations[o].event.key == key
  }

  predicate SameEntity(o: Observation, source: Uuid, namespace: string, entity: string)
  {
    o.source == source && o.event.namespace == namespace && o.event.entity == entity
  }

  function History(observations: seq<Observation>, source: Uuid, namespace: string, entity: string): seq<Observation>
  {
    Filter(o => SameEntity(o, source, namespace, entity), observations)
  }

  function FindMapping(mappings: seq<Mapping>, source: Uuid, namespace: string, entity: string): (id: nat)
    ensures id <= |mappings|
  {
    if mappings == [] then 0
    else if mappings[0].source == source && mappings[0].namespace == namespace && mappings[0].entity == entity then 0
    else 1 + FindMapping(mappings[1..], source, namespace, entity)
  }

  // ------------------------------------------------------------- flags

  predicate HasStart(history: seq<Observation>)
  {
    exists o :: 0 <= o < |history| && history[o].event.lifecycle.Started?
  }

  predicate HasTerminal(history: seq<Observation>)
  {
    exists o :: 0 <= o < |history| && (history[o].event.lifecycle.Ended? || history[o].event.lifecycle.Deleted?)
  }

  function LatestTime(history: seq<Observation>): int
    requires history != []
  {
    if |history| == 1 then history[0].event.occurredAt
    else Max(history[0].event.occurredAt, LatestTime(history[1..]))
  }

  function ObservationOf(st: Store, source: Uuid, e: Event): Observation
  {
    var history := History(st.observations, source, e.namespace, e.entity);
    Observation(source, |st.raws|, e,
                !e.lifecycle.Started? && !HasStart(history),
                history != [] && e.occurredAt < LatestTime(history),
                HasTerminal(history) && !e.lifecycle.Corrected? && !e.lifecycle.Deleted?)
  }

  // ------------------------------------------------------------- reviews

  function StatusOf(l: Lifecycle): ReviewStatus
  {
    match l
    case Started => Active
    case Updated => Active
    case Ended => EndedReview
    case Corrected => CorrectedReview
    case Deleted => DeletedReview
  }

  function OrElse<T>(a: Option<T>, b: Option<T>): Option<T>
  {
    if a.Some? then a else b
  }

  function ReviewAfter(before: Option<ReviewItem>, e: Event): ReviewItem
  {
    match before
    case None =>
      ReviewItem(e.camera, StatusOf(e.lifecycle), e.extensions.severity,
                 if e.startAt.Some? then e.startAt.value else e.occurredAt, e.endAt, e.labels, e.zones, e.revision)
    case Some(r) =>
      ReviewItem(OrElse(e.camera, r.camera), StatusOf(e.lifecycle), OrElse(e.extensions.severity, r.severity),
                 r.startAt, OrElse(e.endAt, r.endAt), e.labels, e.zones, e.revision)
  }

  function ReviewAt(reviews: map<nat, ReviewItem>, id: nat): Option<ReviewItem>
  {
    if id in reviews then Some(reviews[id]) else None
  }

  function CreateJob(jobs: seq<Job>, job: Job): seq<Job>
  {
    if job in jobs then jobs else jobs + [job]
  }

  // ------------------------------------------------------------- one message

  function Advance(st: Store, source: Uuid, stream: string, cursor: Cursor): Store
  {
    st.(checkpoints := st.checkpoints[(source, stream) := cursor])
  }

  function AddRaw(st: Store, source: Uuid, m: Message, quarantined: bool): Store
  {
    st.(raws := st.raws + [RawMessage(source, m.topic, m.secrets, m.body, m.observedAt, quarantined)])
  }

  function EvidenceOf(source: Uuid, o: nat, e: Event): seq<Evidence>
  {
    seq(|e.evidence|, i requires 0 <= i < |e.evidence| => Evidence(source, o, e.evidence[i]))
  }

  function ObjectsOf(o: nat, e: Event): seq<ObservedObject>
  {
    seq(|e.objects|, i requires 0 <= i < |e.objects| => ObservedObject(o, e.objects[i]))
  }

  /** The ids `count` new rows get after `from` old ones. */
  function Ids(from: nat, count: nat): seq<nat>
  {
    seq(count, i requires 0 <= i < count => from + i)
  }

  function WithReview(st: Store, id: nat, o: nat, e: Event, grants: seq<nat>): Store
  {
    if !e.kind.Review? then st
    else
      st.(reviews := st.reviews[id := ReviewAfter(ReviewAt(st.reviews, id), e)],
      links := st.links + {(id, o)},
      jobs := if e.lifecycle.Ended? then CreateJob(st.jobs, Job(id, e.revision, grants)) else st.jobs)
  }

  /** Everything a persisted event adds; the checkpoint comes on top. */
  function Persist(st: Store, source: Uuid, m: Message, e: Event): Store
  {
    var o := |st.observations|;
    var id := FindMapping(st.mappings, source, e.namespace, e.entity);
    var st1 := AddRaw(st, source, m, false).(
      observations := st.observations + [ObservationOf(st, source, e)],
      mappings := if id < |st.mappings| then st.mappings
                  else st.mappings + [Mapping(source, e.namespace, e.entity, e.kind)],
      evidence := st.evidence + EvidenceOf(source, o, e),
      objects := st.objects + ObjectsOf(o, e));
    WithReview(st1, id, o, e, Ids(|st.evidence|, |e.evidence|)).(
    outbox := st.outbox + [OutboxRow(CanonicalKey(e.key), id, o)])
  }

  predicate HasEvidence(evidence: seq<Evidence>, source: Uuid, ref: string)
  {
    exists i :: 0 <= i < |evidence| && evidence[i].source == source && evidence[i].item.ref == ref
  }

  predicate HasOutbox(outbox: seq<OutboxRow>, key: string)
  {
    exists i :: 0 <= i < |outbox| && outbox[i].key == key
  }

  predicate ValidObject(o: EventObject)
  {
    o.confidence.Some? ==> 0.0 <= o.confidence.value <= 1.0
  }

  /** The constraint of the database that the rows of an event would violate, if any. */
  function Conflict(st: Store, source: Uuid, e: Event): Option<Failure>
  {
    if exists i :: 0 <= i < |e.objects| && !ValidObject(e.objects[i]) then Some(BadConfidence)
    else if exists i :: 0 <= i < |e.evidence| && HasEvidence(st.evidence, source, e.evidence[i].ref) then Some(DuplicateEvidenceRef)
    else if HasOutbox(st.outbox, CanonicalKey(e.key)) then Some(DuplicateOutboxKey)
    else None
  }

  datatype Source = Source(id: Uuid, cameras: map<string, Uuid>)

  function NormalizeMessage(source: Source, m: Message): Normalized
  {
    Normalize(source.id, m.topic, m.body, source.cameras, m.observedAt)
  }

  function IngestEvent(source: Source, st: Store, m: Message, e: Event): (Store, IngestResult)
  {
    if HasObservation(st.observations, source.id, e.key) then (st, Duplicate)
    else
      match Conflict(st, source.id, e)
      case Some(failure) => (st, Raised(failure))
      case None => (Persist(st, source.id, m, e), Persisted(|st.observations|))
  }

  /** A message without its checkpoint. A raised error rolls everything back. */
  function Accept(source: Source, st: Store, m: Message): (Store, IngestResult)
  {
    if HasRaw(st.raws, source.id, m) then (st, Duplicate)
    else if EndsWith(m.topic, "/available") then (AddRaw(st, source.id, m, false), Ignored)
    else
      match NormalizeMessage(source, m)
      case ProtocolError => (AddRaw(st, source.id, m, true), Quarantined)
      case TimeError => (st, Raised(BadTimestamp))
      case Normal(e) => IngestEvent(source, st, m, e)
  }

  function Ingest(source: Source, st: Store, m: Message, stream: string, cursor: Cursor): (Store, IngestResult)
  {
    var (st', result) := Accept(source, st, m);
    (if result.Raised? then st else Advance(st', source.id, stream, cursor), result)
  }
}
