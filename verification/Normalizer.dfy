/** From a Frigate MQTT message to the vendor-neutral event. */
module Normalizer {
  import opened Common
  import opened SourceKeys

  datatype MessageType = New | Update | End

  datatype Lifecycle = Started | Updated | Ended | Corrected | Deleted

  datatype EventKind = Review | Object

  // The three payload models, as validation yields them. Times are in microseconds.

  datatype ReviewPayload = ReviewPayload(
    messageType: MessageType, id: string, camera: string,
    startTime: int, endTime: Option<int>, thumbTime: Option<int>, severity: Option<string>,
    detections: seq<string>, objects: set<string>, audio: set<string>, zones: set<string>)

  datatype ObjectPayload = ObjectPayload(
    messageType: MessageType, id: string, camera: string,
    startTime: int, endTime: Option<int>, frameTime: Option<int>,
    name: string, subLabels: seq<string>, score: Option<real>, stationary: Option<bool>,
    currentZones: set<string>, enteredZones: set<string>,
    hasSnapshot: Option<bool>, hasClip: Option<bool>)

  datatype UpdatePayload = UpdatePayload(
    id: string, camera: Option<string>, timestamp: Option<int>, details: map<string, string>)

  /** A redacted payload: what each model makes of it, if it validates, and the head of its hash. */
  datatype Body = Body(
    review: Option<ReviewPayload>, tracked: Option<ObjectPayload>, update: Option<UpdatePayload>, digest: Digest)

  datatype EventObject = EventObject(
    key: string, name: string, subLabels: seq<string>, confidence: Option<real>, stationary: Option<bool>)

  datatype EvidenceItem = Snapshot(ref: string, capturedAt: int)

  datatype Extensions = Extensions(
    severity: Option<string>, snapshotAvailable: Option<bool>, clipAvailable: Option<bool>, details: map<string, string>)

  datatype Event = Event(
    namespace: string, entity: string, revision: string, key: string, kind: EventKind, lifecycle: Lifecycle,
    occurredAt: int, observedAt: int, camera: Option<Uuid>, startAt: Option<int>, endAt: Option<int>,
    labels: set<string>, zones: set<string>, objects: seq<EventObject>, evidence: seq<EvidenceItem>,
    links: seq<string>, extensions: Extensions)

  /** `TimeError` is any error other than a protocol error, which ingest does not catch. */
  datatype Normalized = Normal(event: Event) | ProtocolError | TimeError

  predicate EndsWith(s: string, suffix: string)
  {
    |suffix| <= |s| && s[|s| - |suffix|..] == suffix
  }

  function LifecycleOf(t: MessageType): Lifecycle
  {
    match t
    case New => Started
    case Update => Updated
    case End => Ended
  }

  function Word(l: Lifecycle): string
  {
    match l
    case Started => "started"
    case Updated => "updated"
    case Ended => "ended"
    case Corrected => "corrected"
    case Deleted => "deleted"
  }

  /** Python's `or` on an optional number: zero counts as missing. */
  function Or(a: Option<int>, b: int): int
  {
    if a.Some? && a.value != 0 then a.value else b
  }

  const MIN_TIME := -62_135_596_800_000_000
  const MAX_TIME := 253_402_300_799_999_999

  /** The years 1 to 9999, outside of which `datetime.fromtimestamp` raises. */
  predicate Representable(t: int)
  {
    MIN_TIME <= t <= MAX_TIME
  }

  predicate AllRepresentable(revision: int, start: Option<int>, end: Option<int>)
  {
    Representable(revision) && (start.Some? ==> Representable(start.value)) && (end.Some? ==> Representable(end.value))
  }

  function ReviewTime(p: ReviewPayload): int { Or(p.endTime, Or(p.thumbTime, p.startTime)) }

  function ObjectTime(p: ObjectPayload): int { Or(p.endTime, Or(p.frameTime, p.startTime)) }

  function KeyFor(source: Uuid, namespace: string, entity: string, t: MessageType, revision: string): string
  {
    DedupeKey(source, namespace, entity, Word(LifecycleOf(t)), revision)
  }

  function CameraOf(cameras: map<string, Uuid>, camera: Option<string>): Option<Uuid>
  {
    if camera.Some? && camera.value in cameras then Some(cameras[camera.value]) else None
  }

  function FromReview(source: Uuid, p: ReviewPayload, digest: Digest, cameras: map<string, Uuid>, observedAt: int): Normalized
  {
    var time := ReviewTime(p);
    if !AllRepresentable(time, Some(p.startTime), p.endTime) then TimeError
    else
      var revision := Revision(time, digest);
      Normal(Event(REVIEWS, p.id, revision, KeyFor(source, REVIEWS, p.id, p.messageType, revision), Review,
                   LifecycleOf(p.messageType), time, observedAt, CameraOf(cameras, Some(p.camera)),
                   Some(p.startTime), p.endTime, p.objects + p.audio, p.zones, [],
                   [Snapshot(SnapshotRef(REVIEWS, p.id, revision), time)], p.detections,
                   Extensions(if p.severity == Some("") then None else p.severity, None, None, map[])))
  }

  function FromObject(source: Uuid, p: ObjectPayload, digest: Digest, cameras: map<string, Uuid>, observedAt: int): Normalized
  {
    var time := ObjectTime(p);
    if !AllRepresentable(time, Some(p.startTime), p.endTime) then TimeError
    else
      var revision := Revision(time, digest);
      Normal(Event(EVENTS, p.id, revision, KeyFor(source, EVENTS, p.id, p.messageType, revision), Object,
                   LifecycleOf(p.messageType), time, observedAt, CameraOf(cameras, Some(p.camera)),
                   Some(p.startTime), p.endTime, {p.name}, p.currentZones + p.enteredZones,
                   [EventObject(p.id, p.name, p.subLabels, p.score, p.stationary)],
                   if p.hasSnapshot == Some(true) then [Snapshot(SnapshotRef(EVENTS, p.id, revision), time)] else [],
                   [], Extensions(None, p.hasSnapshot, p.hasClip, map[])))
  }

  function FromUpdate(source: Uuid, p: UpdatePayload, digest: Digest, cameras: map<string, Uuid>, observedAt: int): Normalized
  {
    if p.timestamp.Some? && !Representable(p.timestamp.value) then TimeError
    else
      var revision := Revision(if p.timestamp.Some? then p.timestamp.value else 0, digest);
      Normal(Event(EVENTS, p.id, revision, KeyFor(source, EVENTS, p.id, Update, revision), Object, Updated,
                   if p.timestamp.Some? then p.timestamp.value else observedAt, observedAt,
                   CameraOf(cameras, p.camera), None, None, {}, {}, [], [], [], Extensions(None, None, None, p.details)))
  }

  function Normalize(source: Uuid, topic: string, body: Body, cameras: map<string, Uuid>, observedAt: int): Normalized
  {
    if EndsWith(topic, "/reviews") then
      match body.review case None => ProtocolError case Some(p) => FromReview(source, p, body.digest, cameras, observedAt)
    else if EndsWith(topic, "/events") then
      match body.tracked case None => ProtocolError case Some(p) => FromObject(source, p, body.digest, cameras, observedAt)
    else if EndsWith(topic, "/tracked_object_update") then
      match body.update case None => ProtocolError case Some(p) => FromUpdate(source, p, body.digest, cameras, observedAt)
    else ProtocolError
  }

  /** What every normalized event looks like. */
  ghost predicate WellFormed(source: Uuid, e: Event)
  {
    && e.namespace == (if e.kind.Review? then REVIEWS else EVENTS)
    && IsRevision(e.revision)
    && e.key == DedupeKey(source, e.namespace, e.entity, Word(e.lifecycle), e.revision)
    && !e.lifecycle.Corrected? && !e.lifecycle.Deleted?
    && |e.evidence| <= 1 && |e.objects| <= 1 && (e.kind.Review? ==> |e.evidence| == 1 && e.objects == [])
    && (forall i :: 0 <= i < |e.evidence| ==> e.evidence[i].ref == SnapshotRef(e.namespace, e.entity, e.revision))
  }

  lemma ReviewWellFormed(source: Uuid, p: ReviewPayload, digest: Digest, cameras: map<string, Uuid>, observedAt: int)
    ensures var n := FromReview(source, p, digest, cameras, observedAt); n.Normal? ==> WellFormed(source, n.event)
  {
    RevisionHasForm(ReviewTime(p), digest);
  }

  lemma ObjectWellFormed(source: Uuid, p: ObjectPayload, digest: Digest, cameras: map<string, Uuid>, observedAt: int)
    ensures var n := FromObject(source, p, digest, cameras, observedAt); n.Normal? ==> WellFormed(source, n.event)
  {
    RevisionHasForm(ObjectTime(p), digest);
  }

  lemma UpdateWellFormed(source: Uuid, p: UpdatePayload, digest: Digest, cameras: map<string, Uuid>, observedAt: int)
    ensures var n := FromUpdate(source, p, digest, cameras, observedAt); n.Normal? ==> WellFormed(source, n.event)
  {
    RevisionHasForm(if p.timestamp.Some? then p.timestamp.value else 0, digest);
  }

  lemma NormalizeWellFormed(source: Uuid, topic: string, body: Body, cameras: map<string, Uuid>, observedAt: int)
    ensures var n := Normalize(source, topic, body, cameras, observedAt); n.Normal? ==> WellFormed(source, n.event)
  {
    if EndsWith(topic, "/reviews") {
      if body.review.Some? {
        ReviewWellFormed(source, body.review.value, body.digest, cameras, observedAt);
      }
    } else if EndsWith(topic, "/events") {
      if body.tracked.Some? {
        ObjectWellFormed(source, body.tracked.value, body.digest, cameras, observedAt);
      }
    } else if body.update.Some? {
      UpdateWellFormed(source, body.update.value, body.digest, cameras, observedAt);
    }
  }

  /** The message type, if the message is of a topic that carries one. */
  function TypeOf(topic: string, body: Body): Option<MessageType>
  {
    if EndsWith(topic, "/reviews") then (if body.review.Some? then Some(body.review.value.messageType) else None)
    else if EndsWith(topic, "/events") then (if body.tracked.Some? then Some(body.tracked.value.messageType) else None)
    else None
  }

  /**
   * What an event says about its message: reviews come from the reviews topic, objects from the events
   * topic; its lifecycle is the message's type; it has a snapshot exactly for reviews and for objects
   * that have one; and its revision is the text of its time, unless the message had no time at all.
   * Everything else in it tells the payload, as spelled out below.
   */
  lemma EventMeaning(source: Uuid, topic: string, body: Body, cameras: map<string, Uuid>, observedAt: int)
    requires Normalize(source, topic, body, cameras, observedAt).Normal?
    ensures var e := Normalize(source, topic, body, cameras, observedAt).event;
            && (e.kind.Review? <==> EndsWith(topic, "/reviews"))
            && (e.objects != [] <==> !EndsWith(topic, "/reviews") && EndsWith(topic, "/events"))
            && (e.lifecycle.Started? <==> TypeOf(topic, body) == Some(New))
            && (e.lifecycle.Ended? <==> TypeOf(topic, body) == Some(End))
            && (e.evidence != [] <==> e.kind.Review? || e.extensions.snapshotAvailable == Some(true))
            && (forall i :: 0 <= i < |e.evidence| ==> e.evidence[i].capturedAt == e.occurredAt)
            && (TypeOf(topic, body).Some? ==>
                  e.revision == Revision(e.occurredAt, body.digest)
                  && (e.endAt.Some? && e.endAt.value != 0 ==> e.occurredAt == e.endAt.value))
            && Representable(if TypeOf(topic, body).Some? then e.occurredAt else 0)
            && Tells(e, source, topic, body, cameras, observedAt)
  {
    NormalizedTells(source, topic, body, cameras, observedAt);
  }

  // ------------------------------------------------------------- what an event tells of its payload

  /** The text of a lifecycle, as stored and evaluated. */
  predicate SaysType(l: Lifecycle, t: MessageType)
  {
    && (l == Started <==> t == New) && (l == Updated <==> t == Update) && (l == Ended <==> t == End)
    && Word(l) == (match t case New => "started" case Update => "updated" case End => "ended")
  }

  predicate Given(t: Option<int>)
  {
    t.Some? && t.value != 0
  }

  predicate CameraIs(cameras: map<string, Uuid>, name: Option<string>, camera: Option<Uuid>)
  {
    && (camera.Some? <==> name.Some? && name.value in cameras)
    && (camera.Some? ==> camera.value == cameras[name.value])
  }

  /**
   * The event of a review: its end if given, else its thumbnail's time, else its start is when it occurred;
   * its labels are what was detected or heard, its zones those listed, and it links to its detections.
   */
  ghost predicate TellsReview(e: Event, p: ReviewPayload, digest: Digest, cameras: map<string, Uuid>, observedAt: int)
  {
    && e.kind == Review && e.namespace == "frigate.review" && e.entity == p.id && SaysType(e.lifecycle, p.messageType)
    && (forall l :: l in e.labels <==> l in p.objects || l in p.audio)
    && (forall z :: z in e.zones <==> z in p.zones)
    && e.occurredAt == (if Given(p.endTime) then p.endTime.value else if Given(p.thumbTime) then p.thumbTime.value else p.startTime)
    && e.observedAt == observedAt && e.startAt == Some(p.startTime) && e.endAt == p.endTime
    && CameraIs(cameras, Some(p.camera), e.camera)
    && e.links == p.detections && e.objects == []
    && e.revision == SecondsText(e.occurredAt) + ":" + digest
    && |e.evidence| == 1 && e.evidence[0].capturedAt == e.occurredAt
    && e.evidence[0].ref == "frigate:review:" + p.id + ":preview:" + e.revision
    && (e.extensions.severity.Some? <==> p.severity.Some? && p.severity.value != "")
    && (e.extensions.severity.Some? ==> e.extensions.severity == p.severity)
    && e.extensions.snapshotAvailable.None? && e.extensions.clipAvailable.None? && e.extensions.details == map[]
  }

  /** The event of a tracked object: its one label is its name, its zones those it is in or has entered. */
  ghost predicate TellsObject(e: Event, p: ObjectPayload, digest: Digest, cameras: map<string, Uuid>, observedAt: int)
  {
    && e.kind == Object && e.namespace == "frigate.event" && e.entity == p.id && SaysType(e.lifecycle, p.messageType)
    && (forall l :: l in e.labels <==> l == p.name)
    && (forall z :: z in e.zones <==> z in p.currentZones || z in p.enteredZones)
    && e.occurredAt == (if Given(p.endTime) then p.endTime.value else if Given(p.frameTime) then p.frameTime.value else p.startTime)
    && e.observedAt == observedAt && e.startAt == Some(p.startTime) && e.endAt == p.endTime
    && CameraIs(cameras, Some(p.camera), e.camera)
    && e.links == [] && |e.objects| == 1
    && e.objects[0] == EventObject(p.id, p.name, p.subLabels, p.score, p.stationary)
    && e.revision == SecondsText(e.occurredAt) + ":" + digest
    && (e.evidence != [] <==> p.hasSnapshot == Some(true)) && |e.evidence| <= 1
    && (e.evidence != [] ==>
          e.evidence[0].capturedAt == e.occurredAt
          && e.evidence[0].ref == "frigate:event:" + p.id + ":snapshot:" + e.revision)
    && e.extensions.severity.None? && e.extensions.snapshotAvailable == p.hasSnapshot && e.extensions.clipAvailable == p.hasClip
    && e.extensions.details == map[]
  }

  /** The event of an update: it has the time of the update or of its arrival, and nothing of the scene. */
  ghost predicate TellsUpdate(e: Event, p: UpdatePayload, digest: Digest, cameras: map<string, Uuid>, observedAt: int)
  {
    && e.kind == Object && e.namespace == "frigate.event" && e.entity == p.id && SaysType(e.lifecycle, Update)
    && e.labels == {} && e.zones == {} && e.objects == [] && e.evidence == [] && e.links == []
    && e.occurredAt == (if p.timestamp.Some? then p.timestamp.value else observedAt)
    && e.observedAt == observedAt && e.startAt.None? && e.endAt.None?
    && CameraIs(cameras, p.camera, e.camera)
    && e.revision == SecondsText(if p.timestamp.Some? then p.timestamp.value else 0) + ":" + digest
    && e.extensions.severity.None? && e.extensions.snapshotAvailable.None? && e.extensions.clipAvailable.None?
    && e.extensions.details == p.details
  }

  /** The payload that counts for the topic is there. */
  predicate Readable(topic: string, body: Body)
  {
    || (EndsWith(topic, "/reviews") && body.review.Some?)
    || (!EndsWith(topic, "/reviews") && EndsWith(topic, "/events") && body.tracked.Some?)
    || (!EndsWith(topic, "/reviews") && !EndsWith(topic, "/events") && EndsWith(topic, "/tracked_object_update") && body.update.Some?)
  }

  /** The event tells its message, by the payload that counts for the topic, and has the key made of its parts. */
  ghost predicate Tells(e: Event, source: Uuid, topic: string, body: Body, cameras: map<string, Uuid>, observedAt: int)
  {
    && Readable(topic, body)
    && (if EndsWith(topic, "/reviews") then TellsReview(e, body.review.value, body.digest, cameras, observedAt)
        else if EndsWith(topic, "/events") then TellsObject(e, body.tracked.value, body.digest, cameras, observedAt)
        else TellsUpdate(e, body.update.value, body.digest, cameras, observedAt))
    && e.key == source + ":" + e.namespace + ":" + e.entity + ":" + Word(e.lifecycle) + ":" + e.revision
  }

  predicate InYears(t: int)
  {
    -62_135_596_800_000_000 <= t < 253_402_300_800_000_000
  }

  /** All the times an event would carry are within the years 1 to 9999. */
  predicate TimesFit(topic: string, body: Body)
    requires Readable(topic, body)
  {
    if EndsWith(topic, "/reviews") then
      var p := body.review.value;
      && InYears(p.startTime) && (p.endTime.Some? ==> InYears(p.endTime.value))
      && (!Given(p.endTime) && Given(p.thumbTime) ==> InYears(p.thumbTime.value))
    else if EndsWith(topic, "/events") then
      var p := body.tracked.value;
      && InYears(p.startTime) && (p.endTime.Some? ==> InYears(p.endTime.value))
      && (!Given(p.endTime) && Given(p.frameTime) ==> InYears(p.frameTime.value))
    else body.update.value.timestamp.Some? ==> InYears(body.update.value.timestamp.value)
  }

  lemma ReviewTells(source: Uuid, p: ReviewPayload, digest: Digest, cameras: map<string, Uuid>, observedAt: int)
    ensures var n := FromReview(source, p, digest, cameras, observedAt);
            n.Normal? ==> TellsReview(n.event, p, digest, cameras, observedAt)
  {
    SnapshotRefText(p.id, Revision(ReviewTime(p), digest));
  }

  lemma ObjectTells(source: Uuid, p: ObjectPayload, digest: Digest, cameras: map<string, Uuid>, observedAt: int)
    ensures var n := FromObject(source, p, digest, cameras, observedAt);
            n.Normal? ==> TellsObject(n.event, p, digest, cameras, observedAt)
  {
    SnapshotRefText(p.id, Revision(ObjectTime(p), digest));
  }

  lemma UpdateTells(source: Uuid, p: UpdatePayload, digest: Digest, cameras: map<string, Uuid>, observedAt: int)
    ensures var n := FromUpdate(source, p, digest, cameras, observedAt);
            n.Normal? ==> TellsUpdate(n.event, p, digest, cameras, observedAt)
  {
  }

  lemma ReviewFits(source: Uuid, topic: string, body: Body, cameras: map<string, Uuid>, observedAt: int)
    requires EndsWith(topic, "/reviews") && body.review.Some?
    ensures FromReview(source, body.review.value, body.digest, cameras, observedAt).Normal? <==> TimesFit(topic, body)
  {
  }

  lemma ObjectFits(source: Uuid, topic: string, body: Body, cameras: map<string, Uuid>, observedAt: int)
    requires !EndsWith(topic, "/reviews") && EndsWith(topic, "/events") && body.tracked.Some?
    ensures FromObject(source, body.tracked.value, body.digest, cameras, observedAt).Normal? <==> TimesFit(topic, body)
  {
  }

  lemma NormalizedIff(source: Uuid, topic: string, body: Body, cameras: map<string, Uuid>, observedAt: int)
    ensures var n := Normalize(source, topic, body, cameras, observedAt);
            && (n.Normal? <==> Readable(topic, body) && TimesFit(topic, body))
            && (n.ProtocolError? <==> !Readable(topic, body))
  {
    if EndsWith(topic, "/reviews") {
      if body.review.Some? {
        ReviewFits(source, topic, body, cameras, observedAt);
      }
    } else if EndsWith(topic, "/events") {
      if body.tracked.Some? {
        ObjectFits(source, topic, body, cameras, observedAt);
      }
    }
  }

  /** Every event tells its message; a message has one exactly if its payload is readable and its times fit. */
  lemma NormalizedTells(source: Uuid, topic: string, body: Body, cameras: map<string, Uuid>, observedAt: int)
    ensures var n := Normalize(source, topic, body, cameras, observedAt);
            && (n.Normal? ==> Tells(n.event, source, topic, body, cameras, observedAt))
            && (n.Normal? <==> Readable(topic, body) && TimesFit(topic, body))
            && (n.ProtocolError? <==> !Readable(topic, body))
  {
    NormalizedIff(source, topic, body, cameras, observedAt);
    NormalizeWellFormed(source, topic, body, cameras, observedAt);
    if Normalize(source, topic, body, cameras, observedAt).Normal? {
      if EndsWith(topic, "/reviews") {
        ReviewTells(source, body.review.value, body.digest, cameras, observedAt);
      } else if EndsWith(topic, "/events") {
        ObjectTells(source, body.tracked.value, body.digest, cameras, observedAt);
      } else {
        UpdateTells(source, body.update.value, body.digest, cameras, observedAt);
      }
    }
  }

  lemma WordsDiffer(a: Lifecycle, b: Lifecycle)
    ensures ColonFree(Word(a)) && (Word(a) == Word(b) <==> a == b)
  {
    assert Word(a)[0] == Word(b)[0] ==> a == b;
  }

  /** Two events have the same key exactly when source, entity, lifecycle and revision are the same. */
  lemma SameKey(s1: Uuid, e1: Event, s2: Uuid, e2: Event)
    requires WellFormed(s1, e1) && WellFormed(s2, e2)
    ensures e1.key == e2.key <==>
              s1 == s2 && e1.namespace == e2.namespace && e1.entity == e2.entity
              && e1.lifecycle == e2.lifecycle && e1.revision == e2.revision
  {
    WordsDiffer(e1.lifecycle, e2.lifecycle);
    WordsDiffer(e2.lifecycle, e1.lifecycle);
    DedupeKeyInjective(s1, e1.namespace, e1.entity, Word(e1.lifecycle), e1.revision,
                       s2, e2.namespace, e2.entity, Word(e2.lifecycle), e2.revision);
  }

  /** An event apart from when it was seen and which camera table was at hand. */
  function Essence(e: Event): Event { e.(occurredAt := 0, observedAt := 0, camera := None) }

  /** Whether a message is valid, and the essence of its event, are in its topic and payload alone. */
  lemma ContentDecides(source: Uuid, topic: string, body: Body, c1: map<string, Uuid>, t1: int, c2: map<string, Uuid>, t2: int)
    ensures var n1 := Normalize(source, topic, body, c1, t1);
            var n2 := Normalize(source, topic, body, c2, t2);
            && (n1.ProtocolError? <==> n2.ProtocolError?) && (n1.TimeError? <==> n2.TimeError?)
            && (n1.Normal? ==> Essence(n1.event) == Essence(n2.event))
  {
    if EndsWith(topic, "/reviews") {
      if body.review.Some? {
        ReviewContent(source, body.review.value, body.digest, c1, t1, c2, t2);
      }
    } else if EndsWith(topic, "/events") {
      if body.tracked.Some? {
        ObjectContent(source, body.tracked.value, body.digest, c1, t1, c2, t2);
      }
    } else if body.update.Some? {
      UpdateContent(source, body.update.value, body.digest, c1, t1, c2, t2);
    }
  }

  ghost predicate SameContent(n1: Normalized, n2: Normalized)
  {
    !n1.ProtocolError? && !n2.ProtocolError? && (n1.TimeError? <==> n2.TimeError?)
    && (n1.Normal? ==> Essence(n1.event) == Essence(n2.event))
  }

  lemma ReviewContent(source: Uuid, p: ReviewPayload, digest: Digest, c1: map<string, Uuid>, t1: int, c2: map<string, Uuid>, t2: int)
    ensures SameContent(FromReview(source, p, digest, c1, t1), FromReview(source, p, digest, c2, t2))
  {
  }

  lemma ObjectContent(source: Uuid, p: ObjectPayload, digest: Digest, c1: map<string, Uuid>, t1: int, c2: map<string, Uuid>, t2: int)
    ensures SameContent(FromObject(source, p, digest, c1, t1), FromObject(source, p, digest, c2, t2))
  {
  }

  lemma UpdateContent(source: Uuid, p: UpdatePayload, digest: Digest, c1: map<string, Uuid>, t1: int, c2: map<string, Uuid>, t2: int)
    ensures SameContent(FromUpdate(source, p, digest, c1, t1), FromUpdate(source, p, digest, c2, t2))
  {
  }

  /** Two events with evidence and the same revision stem from payloads with the same digest. */
  lemma RevisionShowsDigest(t1: int, d1: Digest, t2: int, d2: Digest)
    requires Revision(t1, d1) == Revision(t2, d2)
    ensures d1 == d2
  {
    var r, q := Revision(t1, d1), Revision(t2, d2);
    assert r[|r| - 12..] == d1 && q[|q| - 12..] == d2;
  }
}
