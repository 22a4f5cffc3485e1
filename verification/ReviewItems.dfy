/** Review items as folds of their observations, the jobs they lead to, and how they are looked up. */
module ReviewItems {
  import opened Common
  import opened SourceKeys
  import opened Normalizer
  import opened IngestStore
  import opened IngestTables
  import opened Lifecycles

  // ------------------------------------------------------------- review items

  /** What ingest leaves of a history of review events, applied one after the other. */
  function Folded(h: seq<Observation>): Option<ReviewItem>
  {
    if h == [] then None else Some(ReviewAfter(Folded(h[..|h| - 1]), h[|h| - 1].event))
  }

  /** The last value that is there. */
  ghost predicate LastOf<T>(values: seq<Option<T>>, r: Option<T>)
  {
    match r
    case None => forall i :: 0 <= i < |values| ==> values[i] == None
    case Some(_) =>
      exists i :: 0 <= i < |values| && values[i] == r && forall j :: i < j < |values| ==> values[j] == None
  }

  function Cameras(h: seq<Observation>): seq<Option<Uuid>>
  {
    seq(|h|, i requires 0 <= i < |h| => h[i].event.camera)
  }

  function Severities(h: seq<Observation>): seq<Option<string>>
  {
    seq(|h|, i requires 0 <= i < |h| => h[i].event.extensions.severity)
  }

  function Ends(h: seq<Observation>): seq<Option<int>>
  {
    seq(|h|, i requires 0 <= i < |h| => h[i].event.endAt)
  }

  lemma LastOfMore<T>(values: seq<Option<T>>, r: Option<T>, next: Option<T>)
    requires LastOf(values, r)
    ensures LastOf(values + [next], OrElse(next, r))
  {
    var more := values + [next];
    if next.Some? {
      assert more[|values|] == next;
    } else if r.Some? {
      var i :| 0 <= i < |values| && values[i] == r && forall j :: i < j < |values| ==> values[j] == None;
      assert more[i] == r;
    }
  }

  /** A review item read off its history, without replaying it. */
  ghost predicate Summarizes(r: ReviewItem, h: seq<Observation>)
    requires h != []
  {
    var first, last := h[0].event, h[|h| - 1].event;
    && (r.status == Active <==> last.lifecycle == Started || last.lifecycle == Updated)
    && (r.status == EndedReview <==> last.lifecycle == Ended)
    && (r.status == CorrectedReview <==> last.lifecycle == Corrected)
    && r.labels == last.labels && r.zones == last.zones
    && r.revision == last.revision
    && r.startAt == (if first.startAt.Some? then first.startAt.value else first.occurredAt)
    && LastOf(Cameras(h), r.camera) && LastOf(Severities(h), r.severity) && LastOf(Ends(h), r.endAt)
  }

  lemma {:induction false} FoldSummarizes(h: seq<Observation>)
    requires h != []
    ensures Summarizes(Folded(h).value, h)
  {
    var front, e := h[..|h| - 1], h[|h| - 1].event;
    assert Cameras(h) == Cameras(front) + [e.camera];
    assert Severities(h) == Severities(front) + [e.extensions.severity];
    assert Ends(h) == Ends(front) + [e.endAt];
    if front == [] {
      LastOfMore(Cameras(front), None, e.camera);
      LastOfMore(Severities(front), None, e.extensions.severity);
      LastOfMore(Ends(front), None, e.endAt);
    } else {
      FoldSummarizes(front);
      var r := Folded(front).value;
      LastOfMore(Cameras(front), r.camera, e.camera);
      LastOfMore(Severities(front), r.severity, e.extensions.severity);
      LastOfMore(Ends(front), r.endAt, e.endAt);
    }
  }

  // ------------------------------------------------------------- links, jobs

  function JobOf(st: Store, o: nat): Job
    requires o < |st.observations|
  {
    Job(Target(st.mappings, st.observations[o]), st.observations[o].event.revision, EvidenceIds(st.evidence, o))
  }

  predicate EndsReview(o: Observation)
  {
    o.event.kind.Review? && o.event.lifecycle.Ended?
  }

  /** One job for each ended review observation, in the order of ingest. */
  function ExpectedJobs(st: Store, n: nat): seq<Job>
    requires n <= |st.observations|
  {
    if n == 0 then []
    else ExpectedJobs(st, n - 1) + (if EndsReview(st.observations[n - 1]) then [JobOf(st, n - 1)] else [])
  }

  /** The link of an observation: the review item its entity is mapped to, and no other. */
  predicate LinkedRight(st: Store, id: nat, o: nat)
    requires o < |st.observations|
  {
    (id, o) in st.links <==> st.observations[o].event.kind.Review? && Target(st.mappings, st.observations[o]) == id
  }

  ghost predicate LinksOk(st: Store)
  {
    && (forall id, o :: (id, o) in st.links ==> o < |st.observations|)
    && (forall o: nat, id: nat :: o < |st.observations| ==> LinkedRight(st, id, o))
  }

  ghost predicate ReviewsOk(st: Store)
  {
    && (forall id :: id in st.reviews ==> id < |st.mappings| && st.mappings[id].kind.Review?)
    && (forall id: nat :: id < |st.mappings| && st.mappings[id].kind.Review? ==>
          ReviewAt(st.reviews, id) == Folded(EntityOf(st, id)))
  }

  /** The observations of the entity behind a mapping. */
  function EntityOf(st: Store, id: nat): seq<Observation>
    requires id < |st.mappings|
  {
    History(st.observations, st.mappings[id].source, st.mappings[id].namespace, st.mappings[id].entity)
  }

  ghost predicate JobsOk(st: Store)
  {
    st.jobs == ExpectedJobs(st, |st.observations|)
  }

  ghost predicate Linked(st: Store)
  {
    Consistent(st) && LinksOk(st) && ReviewsOk(st) && JobsOk(st)
  }

  lemma {:induction false} IdsMeaning(evidence: seq<Evidence>, o: nat)
    ensures forall k: nat :: k in EvidenceIds(evidence, o) <==> k < |evidence| && evidence[k].obs == o
    ensures Ascending(EvidenceIds(evidence, o))
  {
    if evidence != [] {
      var front := evidence[..|evidence| - 1];
      IdsMeaning(front, o);
      forall k: nat ensures k in EvidenceIds(evidence, o) <==> k < |evidence| && evidence[k].obs == o {
        assert k < |front| ==> front[k] == evidence[k];
      }
      forall i, j | 0 <= i < j < |EvidenceIds(evidence, o)|
        ensures EvidenceIds(evidence, o)[i] < EvidenceIds(evidence, o)[j]
      {
        if i < |EvidenceIds(front, o)| {
          assert EvidenceIds(front, o)[i] in EvidenceIds(front, o);
        }
      }
    }
  }

  predicate Ascending(ids: seq<nat>)
  {
    forall i, j :: 0 <= i < j < |ids| ==> ids[i] < ids[j]
  }

  lemma {:induction false} IdsOfNone(evidence: seq<Evidence>, o: nat)
    requires forall k :: 0 <= k < |evidence| ==> evidence[k].obs != o
    ensures EvidenceIds(evidence, o) == []
  {
    if evidence != [] {
      IdsOfNone(evidence[..|evidence| - 1], o);
    }
  }

  /** Rows of other observations do not count. */
  lemma {:induction false} IdsAppend(evidence: seq<Evidence>, more: seq<Evidence>, o: nat)
    requires forall i :: 0 <= i < |more| ==> more[i].obs != o
    ensures EvidenceIds(evidence + more, o) == EvidenceIds(evidence, o)
  {
    if more == [] {
      assert evidence + more == evidence;
    } else {
      var front := more[..|more| - 1];
      assert (evidence + more)[..|evidence + more| - 1] == evidence + front;
      IdsAppend(evidence, front, o);
    }
  }

  lemma {:induction false} IdsOfNew(evidence: seq<Evidence>, more: seq<Evidence>, o: nat)
    requires forall k :: 0 <= k < |evidence| ==> evidence[k].obs != o
    requires forall i :: 0 <= i < |more| ==> more[i].obs == o
    ensures EvidenceIds(evidence + more, o) == Ids(|evidence|, |more|)
  {
    if more == [] {
      assert evidence + more == evidence;
      IdsOfNone(evidence, o);
    } else {
      var front := more[..|more| - 1];
      assert (evidence + more)[..|evidence + more| - 1] == evidence + front;
      IdsOfNew(evidence, front, o);
    }
  }

  lemma {:induction false} JobsUnchanged(st: Store, st': Store, n: nat)
    requires n <= |st.observations| <= |st'.observations|
    requires forall o :: 0 <= o < n ==> st'.observations[o] == st.observations[o] && JobOf(st', o) == JobOf(st, o)
    ensures ExpectedJobs(st', n) == ExpectedJobs(st, n)
  {
    if n > 0 {
      JobsUnchanged(st, st', n - 1);
    }
  }

  lemma {:induction false} ExpectedOld(st: Store, n: nat, job: Job)
    requires n <= |st.observations| && job in ExpectedJobs(st, n)
    ensures exists o :: 0 <= o < n && EndsReview(st.observations[o]) && job == JobOf(st, o)
  {
    if job !in ExpectedJobs(st, n - 1) {
      assert job == JobOf(st, n - 1);
    } else {
      ExpectedOld(st, n - 1, job);
    }
  }

  /** A grown store: one observation more, its evidence, and its entity mapped. */
  ghost predicate Grown(st: Store, st': Store, source: Uuid, e: Event)
  {
    var o := ObservationOf(st, source, e);
    var id := Target(st.mappings, o);
    && o.source == source && o.event == e
    && e.namespace == (if e.kind.Review? then REVIEWS else EVENTS) && (e.kind.Review? ==> e.evidence != [])
    && st'.observations == st.observations + [o]
    && st'.mappings == (if id < |st.mappings| then st.mappings
                        else st.mappings + [Mapping(source, e.namespace, e.entity, e.kind)])
    && st'.evidence == st.evidence + EvidenceOf(source, |st.observations|, e)
    && st'.links == st.links + (if e.kind.Review? then {(id, |st.observations|)} else {})
    && st'.reviews == (if e.kind.Review? then st.reviews[id := ReviewAfter(ReviewAt(st.reviews, id), e)] else st.reviews)
    && st'.jobs == (if EndsReview(o) then CreateJob(st.jobs, Job(id, e.revision, Ids(|st.evidence|, |e.evidence|)))
                    else st.jobs)
  }

  lemma PersistGrows(st: Store, source: Uuid, m: Message, e: Event)
    requires WellFormed(source, e)
    ensures Grown(st, Persist(st, source, m, e), source, e)
  {
  }

  lemma OldLink(st: Store, st': Store, source: Uuid, e: Event, id: nat, o: nat)
    requires MappingsOk(st) && LinksOk(st) && Grown(st, st', source, e) && o < |st.observations|
    ensures LinkedRight(st', id, o)
  {
    MappingAdded(st, st', ObservationOf(st, source, e));
    assert LinkedRight(st, id, o) && st'.observations[o] == st.observations[o];
    assert (id, o) in st'.links <==> (id, o) in st.links;
  }

  lemma NewLink(st: Store, st': Store, source: Uuid, e: Event, id: nat)
    requires MappingsOk(st) && LinksOk(st) && Grown(st, st', source, e)
    ensures LinkedRight(st', id, |st.observations|)
  {
    MappingAdded(st, st', ObservationOf(st, source, e));
    assert (id, |st.observations|) !in st.links;
  }

  lemma LinksGrow(st: Store, st': Store, source: Uuid, e: Event)
    requires MappingsOk(st) && LinksOk(st) && Grown(st, st', source, e)
    ensures LinksOk(st')
  {
    assert forall id, o :: (id, o) in st'.links ==> (id, o) in st.links || o == |st.observations|;
    forall o: nat, id: nat | o < |st'.observations| ensures LinkedRight(st', id, o) {
      if o < |st.observations| {
        OldLink(st, st', source, e, id, o);
      } else {
        NewLink(st, st', source, e, id);
      }
    }
  }

  /** The new observation's entity is the only one whose history grows. */
  lemma EntityGrows(st: Store, st': Store, source: Uuid, e: Event, id: nat)
    requires MappingsOk(st) && Grown(st, st', source, e) && id < |st'.mappings|
    ensures var o := ObservationOf(st, source, e);
            var target := Target(st.mappings, o);
            && target < |st'.mappings| && st'.mappings[target].kind == e.kind
            && (id < |st.mappings| ==> EntityOf(st', id) == EntityOf(st, id) + (if id == target then [o] else []))
            && (id == |st.mappings| ==> id == target && EntityOf(st', id) == [o])
  {
    var o := ObservationOf(st, source, e);
    var target := Target(st.mappings, o);
    MappingAdded(st, st', o);
    FindMeaning(st'.mappings, source, e.namespace, e.entity);
    var m := st'.mappings[id];
    HistoryAppend(st.observations, o, m.source, m.namespace, m.entity);
    assert Maps(st'.mappings[target], source, e.namespace, e.entity);
    if id != target {
      assert !Maps(st'.mappings[Common.Min(id, target)], st'.mappings[Common.Max(id, target)].source,
                   st'.mappings[Common.Max(id, target)].namespace, st'.mappings[Common.Max(id, target)].entity);
    }
    if id == |st.mappings| {
      UnmappedIsNew(st, source, e);
    }
  }

  /** An entity without a mapping has no observations. */
  lemma UnmappedIsNew(st: Store, source: Uuid, e: Event)
    requires MappingsOk(st) && FindMapping(st.mappings, source, e.namespace, e.entity) == |st.mappings|
    ensures History(st.observations, source, e.namespace, e.entity) == []
  {
    forall o | 0 <= o < |st.observations| ensures !SameEntity(st.observations[o], source, e.namespace, e.entity) {
      assert Target(st.mappings, st.observations[o]) < |st.mappings|;
    }
    FilterNone(o => SameEntity(o, source, e.namespace, e.entity), st.observations);
  }

  lemma FoldedMore(h: seq<Observation>, o: Observation)
    ensures Folded(h + [o]) == Some(ReviewAfter(Folded(h), o.event))
  {
    assert (h + [o])[..|h|] == h;
  }

  /** The review item of the event's entity takes the event in; the others stay. */
  lemma ReviewStep(st: Store, st': Store, source: Uuid, e: Event, id: nat)
    requires Grown(st, st', source, e)
    ensures var target := Target(st.mappings, ObservationOf(st, source, e));
            ReviewAt(st'.reviews, id) == if e.kind.Review? && id == target
                                         then Some(ReviewAfter(ReviewAt(st.reviews, id), e)) else ReviewAt(st.reviews, id)
  {
  }

  lemma ReviewGrows(st: Store, st': Store, source: Uuid, e: Event, id: nat)
    requires MappingsOk(st) && ReviewsOk(st) && Grown(st, st', source, e)
    requires id < |st'.mappings| && st'.mappings[id].kind.Review?
    ensures ReviewAt(st'.reviews, id) == Folded(EntityOf(st', id))
  {
    var o := ObservationOf(st, source, e);
    EntityGrows(st, st', source, e, id);
    ReviewStep(st, st', source, e, id);
    ReviewBefore(st, st', source, e, id);
    FoldStep(ReviewAt(st.reviews, id), if id < |st.mappings| then EntityOf(st, id) else [],
             ReviewAt(st'.reviews, id), EntityOf(st', id), o, id == Target(st.mappings, o));
  }

  lemma ReviewBefore(st: Store, st': Store, source: Uuid, e: Event, id: nat)
    requires ReviewsOk(st) && Grown(st, st', source, e) && id < |st'.mappings| && st'.mappings[id].kind.Review?
    ensures ReviewAt(st.reviews, id) == Folded(if id < |st.mappings| then EntityOf(st, id) else [])
  {
  }

  lemma FoldStep(before: Option<ReviewItem>, h: seq<Observation>, after: Option<ReviewItem>, h': seq<Observation>,
                 o: Observation, target: bool)
    requires before == Folded(h) && h' == (if target then h + [o] else h)
    requires after == if target then Some(ReviewAfter(before, o.event)) else before
    ensures after == Folded(h')
  {
    FoldedMore(h, o);
  }

  lemma ReviewKindsGrow(st: Store, st': Store, source: Uuid, e: Event)
    requires MappingsOk(st) && ReviewsOk(st) && Grown(st, st', source, e)
    ensures forall id :: id in st'.reviews ==> id < |st'.mappings| && st'.mappings[id].kind.Review?
  {
    EntityGrows(st, st', source, e, Target(st.mappings, ObservationOf(st, source, e)));
  }

  lemma ReviewsGrow(st: Store, st': Store, source: Uuid, e: Event)
    requires MappingsOk(st) && ReviewsOk(st) && Grown(st, st', source, e)
    ensures ReviewsOk(st')
  {
    ReviewKindsGrow(st, st', source, e);
    forall id: nat | id < |st'.mappings| && st'.mappings[id].kind.Review?
      ensures ReviewAt(st'.reviews, id) == Folded(EntityOf(st', id))
    {
      ReviewGrows(st, st', source, e, id);
    }
  }

  lemma OldJob(st: Store, st': Store, source: Uuid, e: Event, p: nat)
    requires MappingsOk(st) && Grown(st, st', source, e) && p < |st.observations|
    ensures JobOf(st', p) == JobOf(st, p)
  {
    MappingAdded(st, st', ObservationOf(st, source, e));
    IdsAppend(st.evidence, EvidenceOf(source, |st.observations|, e), p);
  }

  lemma NewJob(st: Store, st': Store, source: Uuid, e: Event)
    requires MappingsOk(st) && EvidenceOk(st) && Grown(st, st', source, e)
    ensures JobOf(st', |st.observations|)
            == Job(Target(st.mappings, ObservationOf(st, source, e)), e.revision, Ids(|st.evidence|, |e.evidence|))
  {
    MappingAdded(st, st', ObservationOf(st, source, e));
    IdsOfNew(st.evidence, EvidenceOf(source, |st.observations|, e), |st.observations|);
  }

  /** No earlier job grants the evidence that is only now being stored. */
  lemma JobIsNew(st: Store, n: nat, job: Job)
    requires n <= |st.observations| && |st.evidence| in job.grants
    ensures job !in ExpectedJobs(st, n)
  {
    if job in ExpectedJobs(st, n) {
      ExpectedOld(st, n, job);
      var o :| 0 <= o < n && EndsReview(st.observations[o]) && job == JobOf(st, o);
      IdsMeaning(st.evidence, o);
    }
  }

  lemma JobsMore(st: Store, n: nat, jobs: seq<Job>)
    requires n < |st.observations| && jobs == ExpectedJobs(st, n)
    requires EndsReview(st.observations[n]) ==> JobOf(st, n) !in jobs
    ensures (if EndsReview(st.observations[n]) then CreateJob(jobs, JobOf(st, n)) else jobs) == ExpectedJobs(st, n + 1)
  {
  }

  lemma OldJobs(st: Store, st': Store, source: Uuid, e: Event)
    requires MappingsOk(st) && Grown(st, st', source, e)
    ensures ExpectedJobs(st', |st.observations|) == ExpectedJobs(st, |st.observations|)
  {
    forall p | 0 <= p < |st.observations| ensures JobOf(st', p) == JobOf(st, p) {
      OldJob(st, st', source, e, p);
    }
    JobsUnchanged(st, st', |st.observations|);
  }

  lemma JobsGrow(st: Store, st': Store, source: Uuid, e: Event)
    requires MappingsOk(st) && EvidenceOk(st) && JobsOk(st) && Grown(st, st', source, e)
    ensures JobsOk(st')
  {
    var n := |st.observations|;
    OldJobs(st, st', source, e);
    NewJob(st, st', source, e);
    if EndsReview(st'.observations[n]) {
      assert JobOf(st', n).grants[0] == |st.evidence|;
      JobIsNew(st, n, JobOf(st', n));
    }
    JobsMore(st', n, st.jobs);
  }

  /** Nothing that reviews depend on has changed. */
  ghost predicate SameReviews(st: Store, st': Store)
  {
    && st'.observations == st.observations && st'.mappings == st.mappings && st'.evidence == st.evidence
    && st'.reviews == st.reviews && st'.links == st.links && st'.jobs == st.jobs
  }

  lemma SameLinked(st: Store, st': Store)
    requires LinksOk(st) && ReviewsOk(st) && JobsOk(st) && SameReviews(st, st')
    ensures LinksOk(st') && ReviewsOk(st') && JobsOk(st')
  {
    JobsUnchanged(st, st', |st.observations|);
    assert forall o: nat, id: nat :: o < |st.observations| ==> (LinkedRight(st', id, o) <==> LinkedRight(st, id, o));
    assert forall id :: 0 <= id < |st.mappings| ==> EntityOf(st', id) == EntityOf(st, id);
  }

  lemma OneLinked(st: Store, d: Delivery)
    requires Linked(st)
    ensures Linked(IngestOne(st, d).0)
  {
    OneConsistent(st, d);
    var st' := IngestOne(st, d).0;
    OneGrows(st, d);
    if st'.observations == st.observations {
      SameLinked(st, st');
    } else {
      var e := NormalizeMessage(d.source, d.message).event;
      LinksGrow(st, st', d.source.id, e);
      ReviewsGrow(st, st', d.source.id, e);
      JobsGrow(st, st', d.source.id, e);
    }
  }

  lemma OneGrows(st: Store, d: Delivery)
    ensures var st' := IngestOne(st, d).0;
            if st'.observations == st.observations
            then SameReviews(st, st')
            else NormalizeMessage(d.source, d.message).Normal?
                 && Grown(st, st', d.source.id, NormalizeMessage(d.source, d.message).event)
  {
    var n := NormalizeMessage(d.source, d.message);
    NormalizeWellFormed(d.source.id, d.message.topic, d.message.body, d.source.cameras, d.message.observedAt);
    if n.Normal? {
      PersistGrows(st, d.source.id, d.message, n.event);
    }
  }

  lemma {:induction false} RunLinked(ds: seq<Delivery>)
    ensures Linked(IngestAll(EMPTY, ds))
  {
    if ds != [] {
      RunLinked(ds[..|ds| - 1]);
      OneLinked(IngestAll(EMPTY, ds[..|ds| - 1]), ds[|ds| - 1]);
    }
  }

  // ------------------------------------------------------------- theorems

  /**
   * A review item is there exactly for the mapped entities with review observations, and it says what
   * its history says: a late update after the end shows as active again.
   */
  lemma ReviewItemsSummarize(ds: seq<Delivery>, id: nat)
    ensures var st := IngestAll(EMPTY, ds);
            && (id in st.reviews <==> exists o :: 0 <= o < |st.observations| && (id, o) in st.links)
            && (id in st.reviews ==> id < |st.mappings| && EntityOf(st, id) != [] && Summarizes(st.reviews[id], EntityOf(st, id)))
  {
    RunLinked(ds);
    var st := IngestAll(EMPTY, ds);
    if id in st.reviews {
      assert ReviewAt(st.reviews, id) == Folded(EntityOf(st, id));
      FoldSummarizes(EntityOf(st, id));
      ReviewIsLinked(st, id);
    }
    if o :| 0 <= o < |st.observations| && (id, o) in st.links {
      LinkedIsReview(st, id, o);
    }
  }

  lemma InHistory(st: Store, id: nat, o: nat)
    requires id < |st.mappings| && o < |st.observations|
    ensures Maps(st.mappings[id], st.observations[o].source, st.observations[o].event.namespace, st.observations[o].event.entity)
            ==> st.observations[o] in EntityOf(st, id)
  {
    var m := st.mappings[id];
    FilterMembers(o => SameEntity(o, m.source, m.namespace, m.entity), st.observations);
  }

  lemma LinkedIsReview(st: Store, id: nat, o: nat)
    requires Linked(st) && o < |st.observations| && (id, o) in st.links
    ensures id in st.reviews
  {
    var ob := st.observations[o];
    assert LinkedRight(st, id, o);
    assert Target(st.mappings, ob) < |st.mappings|;
    FindMeaning(st.mappings, ob.source, ob.event.namespace, ob.event.entity);
    InHistory(st, id, o);
    assert ReviewAt(st.reviews, id) == Folded(EntityOf(st, id));
  }

  lemma ReviewIsLinked(st: Store, id: nat)
    requires Linked(st) && id < |st.mappings| && st.mappings[id].kind.Review? && EntityOf(st, id) != []
    ensures exists o :: 0 <= o < |st.observations| && (id, o) in st.links
  {
    var m := st.mappings[id];
    FilterMembers(o => SameEntity(o, m.source, m.namespace, m.entity), st.observations);
    assert EntityOf(st, id)[0] in EntityOf(st, id);
    var o :| 0 <= o < |st.observations| && st.observations[o] == EntityOf(st, id)[0];
    MappedIsLinked(st, id, o);
  }

  /** Being linked to a review item and being of its mapped entity are the same. */
  lemma MappedIsLinked(st: Store, id: nat, o: nat)
    requires Linked(st) && id < |st.mappings| && st.mappings[id].kind.Review? && o < |st.observations|
    ensures (id, o) in st.links <==>
              SameEntity(st.observations[o], st.mappings[id].source, st.mappings[id].namespace, st.mappings[id].entity)
  {
    var ob := st.observations[o];
    var target := Target(st.mappings, ob);
    assert LinkedRight(st, id, o);
    FindMeaning(st.mappings, ob.source, ob.event.namespace, ob.event.entity);
    assert target < |st.mappings| && st.mappings[target].kind == ob.event.kind;
    if SameEntity(ob, st.mappings[id].source, st.mappings[id].namespace, st.mappings[id].entity) {
      SameMapping(st, target, id);
    }
  }

  lemma SameMapping(st: Store, a: nat, b: nat)
    requires MappingsOk(st) && a < |st.mappings| && b < |st.mappings|
    requires Maps(st.mappings[a], st.mappings[b].source, st.mappings[b].namespace, st.mappings[b].entity)
    ensures a == b
  {
    assert Maps(st.mappings[b], st.mappings[a].source, st.mappings[a].namespace, st.mappings[a].entity);
  }

  /** Ended reviews have a snapshot to grant. */
  ghost predicate SnapshotsThere(observations: seq<Observation>)
  {
    forall o :: 0 <= o < |observations| && EndsReview(observations[o]) ==> observations[o].event.evidence != []
  }

  lemma KeysShowSnapshots(observations: seq<Observation>)
    requires KeysOk(observations)
    ensures SnapshotsThere(observations)
  {
    forall o | 0 <= o < |observations| && EndsReview(observations[o]) ensures observations[o].event.evidence != [] {
      assert WellFormed(observations[o].source, observations[o].event);
    }
  }

  lemma {:induction false} JobsMeaning(st: Store, n: nat)
    requires n <= |st.observations| && EvidenceOk(st) && SnapshotsThere(st.observations)
    ensures forall o :: 0 <= o < n && EndsReview(st.observations[o]) ==> JobOf(st, o) in ExpectedJobs(st, n)
    ensures Distinct(ExpectedJobs(st, n))
  {
    if n > 0 {
      JobsMeaning(st, n - 1);
      var before := ExpectedJobs(st, n - 1);
      if EndsReview(st.observations[n - 1]) {
        LastJobIsNew(st, n - 1);
        DistinctMore(before, JobOf(st, n - 1));
        assert ExpectedJobs(st, n) == before + [JobOf(st, n - 1)];
      } else {
        assert ExpectedJobs(st, n) == before;
      }
      forall o | 0 <= o < n && EndsReview(st.observations[o]) ensures JobOf(st, o) in ExpectedJobs(st, n) {
        assert o < n - 1 ==> JobOf(st, o) in before;
      }
    }
  }

  lemma LastJobIsNew(st: Store, n: nat)
    requires n < |st.observations| && EvidenceOk(st) && SnapshotsThere(st.observations) && EndsReview(st.observations[n])
    ensures JobOf(st, n) !in ExpectedJobs(st, n)
  {
    if JobOf(st, n) in ExpectedJobs(st, n) {
      ExpectedOld(st, n, JobOf(st, n));
      var o :| 0 <= o < n && EndsReview(st.observations[o]) && JobOf(st, n) == JobOf(st, o);
      JobsDiffer(st, o, n);
    }
  }

  lemma JobsDiffer(st: Store, p: nat, q: nat)
    requires EvidenceOk(st) && SnapshotsThere(st.observations) && p < |st.observations| && q < |st.observations| && p != q
    requires EndsReview(st.observations[q])
    ensures JobOf(st, p) != JobOf(st, q)
  {
    var k :| 0 <= k < |st.evidence| && st.evidence[k].obs == q;
    IdsMeaning(st.evidence, p);
    IdsMeaning(st.evidence, q);
    assert k in JobOf(st, q).grants && k !in JobOf(st, p).grants;
  }

  predicate OnlyJobAt(jobs: seq<Job>, job: Job, j: nat)
  {
    j < |jobs| && jobs[j] == job && forall i :: 0 <= i < |jobs| && jobs[i] == job ==> i == j
  }

  lemma DistinctOnly(jobs: seq<Job>, job: Job) returns (j: nat)
    requires Distinct(jobs) && job in jobs
    ensures OnlyJobAt(jobs, job, j)
  {
    j :| 0 <= j < |jobs| && jobs[j] == job;
  }

  ghost predicate EndedBy(st: Store, job: Job)
  {
    exists p :: 0 <= p < |st.observations| && EndsReview(st.observations[p]) && job == JobOf(st, p)
  }

  /**
   * Every ended review observation has exactly one job, for its revision and exactly its snapshots;
   * there are no other jobs.
   */
  lemma JobsFollowEndings(ds: seq<Delivery>, o: nat)
    requires o < |IngestAll(EMPTY, ds).observations|
    ensures var st := IngestAll(EMPTY, ds);
            && (EndsReview(st.observations[o]) ==> exists j: nat :: OnlyJobAt(st.jobs, JobOf(st, o), j))
            && (forall job :: job in st.jobs ==> EndedBy(st, job))
            && (forall k: nat :: k in JobOf(st, o).grants <==> k < |st.evidence| && st.evidence[k].obs == o)
  {
    RunLinked(ds);
    var st := IngestAll(EMPTY, ds);
    KeysShowSnapshots(st.observations);
    JobsMeaning(st, |st.observations|);
    IdsMeaning(st.evidence, o);
    forall job | job in st.jobs ensures EndedBy(st, job) {
      ExpectedOld(st, |st.observations|, job);
    }
    if EndsReview(st.observations[o]) {
      var j := DistinctOnly(st.jobs, JobOf(st, o));
    }
  }

  // ------------------------------------------------------------- lookups

  /** ORDER BY occurred_at DESC, id DESC LIMIT 1 over the chosen ones of the first `n` observations. */
  function Latest(observations: seq<Observation>, chosen: set<nat>, n: nat): (latest: Option<nat>)
    requires n <= |observations|
    ensures latest.Some? ==> latest.value < n && latest.value in chosen
    ensures latest.None? ==> forall o :: 0 <= o < n ==> o !in chosen
    ensures forall o :: 0 <= o < n && o in chosen ==>
              latest.Some? && observations[o].event.occurredAt <= observations[latest.value].event.occurredAt
              && (observations[o].event.occurredAt == observations[latest.value].event.occurredAt ==> o <= latest.value)
  {
    if n == 0 then None
    else
      var best := Latest(observations, chosen, n - 1);
      if n - 1 in chosen
         && (best.None? || observations[n - 1].event.occurredAt >= observations[best.value].event.occurredAt)
      then Some(n - 1) else best
  }

  function LinkedTo(st: Store, id: nat): set<nat>
  {
    set o | 0 <= o < |st.observations| && (id, o) in st.links
  }

  function MappedTo(st: Store, m: Mapping): set<nat>
  {
    set o | 0 <= o < |st.observations| && SameEntity(st.observations[o], m.source, m.namespace, m.entity)
            && st.observations[o].event.kind.Review?
  }

  function ByLinks(st: Store, id: nat): Option<nat>
  {
    Latest(st.observations, LinkedTo(st, id), |st.observations|)
  }

  function ByMapping(st: Store, id: nat): Option<nat>
  {
    if id >= |st.mappings| || !st.mappings[id].kind.Review? then None
    else Latest(st.observations, MappedTo(st, st.mappings[id]), |st.observations|)
  }

  function LatestObservationForReview(st: Store, id: nat): Option<nat>
  {
    if id !in st.reviews then None
    else if ByLinks(st, id).Some? then ByLinks(st, id)
    else ByMapping(st, id)
  }

  /** The link table and the mapping lead to the same latest observation. */
  lemma LookupsAgree(ds: seq<Delivery>, id: nat)
    requires id in IngestAll(EMPTY, ds).reviews
    ensures var st := IngestAll(EMPTY, ds);
            id < |st.mappings| && ByLinks(st, id).Some? && ByLinks(st, id) == ByMapping(st, id) == LatestObservationForReview(st, id)
  {
    RunLinked(ds);
    ReviewItemsSummarize(ds, id);
    SameChoice(IngestAll(EMPTY, ds), id);
    SameLatest(IngestAll(EMPTY, ds), id);
  }

  lemma SameLatest(st: Store, id: nat)
    requires id in st.reviews && id < |st.mappings| && st.mappings[id].kind.Review?
    requires LinkedTo(st, id) == MappedTo(st, st.mappings[id])
    requires exists o :: 0 <= o < |st.observations| && (id, o) in st.links
    ensures ByLinks(st, id).Some? && ByLinks(st, id) == ByMapping(st, id) == LatestObservationForReview(st, id)
  {
    var o :| 0 <= o < |st.observations| && (id, o) in st.links;
    assert o in LinkedTo(st, id);
  }

  lemma SameChoice(st: Store, id: nat)
    requires Linked(st) && id < |st.mappings| && st.mappings[id].kind.Review?
    ensures LinkedTo(st, id) == MappedTo(st, st.mappings[id])
  {
    forall o: nat | o < |st.observations| ensures o in LinkedTo(st, id) <==> o in MappedTo(st, st.mappings[id]) {
      MappedIsLinked(st, id, o);
    }
  }
}
