/** The lifecycle flags of an observation classify every history of an entity. */
module Lifecycles {
  import opened Common
  import opened SourceKeys
  import opened Normalizer
  import opened IngestStore
  import opened IngestTables

  /** Whatever a message does, it adds at most one observation, made from the history at that point. */
  lemma OneAppends(st: Store, d: Delivery)
    ensures var st' := IngestOne(st, d).0;
            || st'.observations == st.observations
            || (NormalizeMessage(d.source, d.message).Normal?
                && var e := NormalizeMessage(d.source, d.message).event;
                   st'.observations == st.observations + [ObservationOf(st, d.source.id, e)])
  {
    var n := NormalizeMessage(d.source, d.message);
    if n.Normal? {
      PersistShape(st, d.source.id, d.message, n.event);
    }
  }

  lemma {:induction false} LatestMeaning(h: seq<Observation>)
    requires h != []
    ensures forall i :: 0 <= i < |h| ==> h[i].event.occurredAt <= LatestTime(h)
    ensures exists i :: 0 <= i < |h| && h[i].event.occurredAt == LatestTime(h)
  {
    if |h| > 1 {
      LatestMeaning(h[1..]);
      var i :| 0 <= i < |h[1..]| && h[1..][i].event.occurredAt == LatestTime(h[1..]);
      assert h[i + 1] == h[1..][i];
      forall k | 0 <= k < |h| ensures h[k].event.occurredAt <= LatestTime(h) {
        assert k > 0 ==> h[k] == h[1..][k - 1];
      }
    } else {
      assert h[0].event.occurredAt == LatestTime(h);
    }
  }

  predicate Later(h: seq<Observation>, j: nat)
    requires j < |h|
  {
    exists i :: 0 <= i < j && h[i].event.occurredAt > h[j].event.occurredAt
  }

  predicate EndedBefore(h: seq<Observation>, j: nat)
    requires j < |h|
  {
    exists i :: 0 <= i < j && h[i].event.lifecycle.Ended?
  }

  predicate StartedBy(h: seq<Observation>, j: nat)
    requires j < |h|
  {
    exists i :: 0 <= i <= j && h[i].event.lifecycle.Started?
  }

  /** What the three flags of one observation say about the history before it. */
  predicate FlagsSay(h: seq<Observation>, j: nat)
    requires j < |h|
  {
    && (h[j].outOfOrder <==> Later(h, j))
    && (h[j].afterTerminal <==> EndedBefore(h, j))
    && (h[j].partialHistory <==> !StartedBy(h, j))
    && !h[j].event.lifecycle.Corrected? && !h[j].event.lifecycle.Deleted?
  }

  predicate AllSay(h: seq<Observation>)
  {
    forall j :: 0 <= j < |h| ==> FlagsSay(h, j)
  }

  lemma FlagsPrefix(h: seq<Observation>, o: Observation, j: nat)
    requires j < |h| && FlagsSay(h, j)
    ensures FlagsSay(h + [o], j)
  {
    assert forall i :: 0 <= i <= j ==> (h + [o])[i] == h[i];
    assert Later(h + [o], j) <==> Later(h, j);
    assert EndedBefore(h + [o], j) <==> EndedBefore(h, j);
    assert StartedBy(h + [o], j) <==> StartedBy(h, j);
  }

  lemma FlagsOfNew(st: Store, source: Uuid, e: Event)
    requires WellFormed(source, e) && AllSay(History(st.observations, source, e.namespace, e.entity))
    ensures var h := History(st.observations, source, e.namespace, e.entity);
            FlagsSay(h + [ObservationOf(st, source, e)], |h|)
  {
    var h := History(st.observations, source, e.namespace, e.entity);
    var o := ObservationOf(st, source, e);
    var h' := h + [o];
    assert forall i :: 0 <= i < |h| ==> h'[i] == h[i];
    assert h'[|h|] == o;
    if HasTerminal(h) {
      var i :| 0 <= i < |h| && (h[i].event.lifecycle.Ended? || h[i].event.lifecycle.Deleted?);
      assert FlagsSay(h, i) && h'[i] == h[i];
    }
    if h != [] {
      LatestMeaning(h);
    }
    assert o.outOfOrder <==> Later(h', |h|);
    assert o.afterTerminal <==> EndedBefore(h', |h|);
    if HasStart(h) {
      var i :| 0 <= i < |h| && h[i].event.lifecycle.Started?;
      assert h'[i].event.lifecycle.Started?;
    }
  }

  lemma HistoryAppend(observations: seq<Observation>, o: Observation, source: Uuid, namespace: string, entity: string)
    ensures History(observations + [o], source, namespace, entity)
            == History(observations, source, namespace, entity) + (if SameEntity(o, source, namespace, entity) then [o] else [])
  {
    FilterAppend(o => SameEntity(o, source, namespace, entity), observations, [o]);
    assert [o][1..] == [];
  }

  /** In every reachable store, every observation's flags say exactly what they should. */
  lemma {:induction false} FlagsClassify(ds: seq<Delivery>, source: Uuid, namespace: string, entity: string)
    ensures AllSay(History(IngestAll(EMPTY, ds).observations, source, namespace, entity))
  {
    if ds != [] {
      var front, d := ds[..|ds| - 1], ds[|ds| - 1];
      FlagsClassify(front, source, namespace, entity);
      var st := IngestAll(EMPTY, front);
      OneAppends(st, d);
      if IngestOne(st, d).0.observations != st.observations {
        NormalizeWellFormed(d.source.id, d.message.topic, d.message.body, d.source.cameras, d.message.observedAt);
        FlagsAppend(st, d.source.id, NormalizeMessage(d.source, d.message).event, source, namespace, entity);
      }
    }
  }

  lemma FlagsAppend(st: Store, origin: Uuid, e: Event, source: Uuid, namespace: string, entity: string)
    requires WellFormed(origin, e) && AllSay(History(st.observations, source, namespace, entity))
    ensures AllSay(History(st.observations + [ObservationOf(st, origin, e)], source, namespace, entity))
  {
    var o := ObservationOf(st, origin, e);
    var h := History(st.observations, source, namespace, entity);
    HistoryAppend(st.observations, o, source, namespace, entity);
    if SameEntity(o, source, namespace, entity) {
      assert origin == source && e.namespace == namespace && e.entity == entity;
      FlagsOfNew(st, origin, e);
      forall j | 0 <= j < |h + [o]| ensures FlagsSay(h + [o], j) {
        if j < |h| {
          FlagsPrefix(h, o, j);
        }
      }
    } else {
      assert h + [] == h;
    }
  }

  /**
   * Per entity, in the order of ingest: the observations that are not out of order are sorted by time,
   * those that are not after a terminal one are a run of non-terminal ones with at most one ended
   * observation at its end, and the history is partial until the first started observation.
   */
  lemma HistoriesAreClassified(ds: seq<Delivery>, source: Uuid, namespace: string, entity: string, i: nat, j: nat)
    requires i < j < |History(IngestAll(EMPTY, ds).observations, source, namespace, entity)|
    ensures var h := History(IngestAll(EMPTY, ds).observations, source, namespace, entity);
            && (!h[i].outOfOrder && !h[j].outOfOrder ==> h[i].event.occurredAt <= h[j].event.occurredAt)
            && (!h[i].afterTerminal && !h[j].afterTerminal ==> !h[i].event.lifecycle.Ended?)
            && (!h[i].partialHistory ==> !h[j].partialHistory)
            && (h[j].event.lifecycle.Started? ==> !h[j].partialHistory)
  {
    FlagsClassify(ds, source, namespace, entity);
    var h := History(IngestAll(EMPTY, ds).observations, source, namespace, entity);
    assert FlagsSay(h, i) && FlagsSay(h, j);
  }
}
