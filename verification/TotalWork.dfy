/** Without crashes and Redis errors, the number of handler calls is bounded. */
module TotalWork {
  import opened Common
  import opened PipelineState
  import opened Records
  import opened Counting
  import NoLoss

  /** No process stops in the middle and Redis answers; handlers may fail as they like. */
  predicate Calm(m: Move)
  {
    !m.Abort? && !m.PublisherAbort? && (m.Xadd? ==> m.xadd.Added?)
  }

  // ------------------------------------------------------------- every row is appended once

  predicate Appended(pub: Publisher, row: nat)
  {
    pub.Open? && pub.done <= |pub.batch| && row in pub.batch[..pub.done]
  }

  ghost predicate RowOwned(s: Sys, row: nat)
    requires row < |s.db.outbox|
  {
    s.db.outbox[row].published || exists p :: 0 <= p < |s.pubs| && Appended(s.pubs[p], row)
  }

  ghost predicate PubCalm(s: Sys, pub: Publisher)
  {
    pub.Open? ==>
      && Ascending(pub.batch) && pub.done <= |pub.batch| && !pub.stopped
      && (forall i :: 0 <= i < |pub.batch| ==> pub.batch[i] < |s.db.outbox| && !s.db.outbox[pub.batch[i]].published)
  }

  ghost predicate Disjoint(a: Publisher, b: Publisher)
  {
    a.Open? && b.Open? ==> forall i :: 0 <= i < |a.batch| ==> a.batch[i] !in b.batch
  }

  ghost predicate AppendedOnce(s: Sys)
  {
    && (forall e :: 0 <= e < |s.net.entries| ==> s.net.entries[e].row < |s.db.outbox| && RowOwned(s, s.net.entries[e].row))
    && (forall e, f :: 0 <= e < f < |s.net.entries| ==> s.net.entries[e].row != s.net.entries[f].row)
    && (forall p :: 0 <= p < |s.pubs| ==> PubCalm(s, s.pubs[p]))
    && (forall p, q :: 0 <= p < |s.pubs| && 0 <= q < |s.pubs| && p != q ==> Disjoint(s.pubs[p], s.pubs[q]))
  }

  lemma PickIsFree(outbox: seq<Row>, pubs: seq<Publisher>, p: nat, from: nat, limit: nat)
    ensures var b := Pick(outbox, pubs, p, from, limit);
            && Ascending(b)
            && forall i :: 0 <= i < |b| ==>
                 from <= b[i] < |outbox| && !outbox[b[i]].published && !LockedByOther(pubs, p, b[i])
    decreases |outbox| - from
  {
  }

  lemma SelectOnce(c: Config, s: Sys, p: nat)
    requires AppendedOnce(s)
    ensures AppendedOnce(DoSelect(c, s, p))
  {
    if p < |s.pubs| && s.pubs[p].Checked? {
      var s' := DoSelect(c, s, p);
      PickIsFree(s.db.outbox, s.pubs, p, 0, c.batchSize);
      forall e | 0 <= e < |s.net.entries| ensures RowOwned(s', s.net.entries[e].row) {
        var row := s.net.entries[e].row;
        assert RowOwned(s, row);
        if !s.db.outbox[row].published {
          var q :| 0 <= q < |s.pubs| && Appended(s.pubs[q], row);
          assert Appended(s'.pubs[q], row);
        }
      }
      forall q | 0 <= q < |s.pubs| ensures PubCalm(s', s'.pubs[q]) {
        assert PubCalm(s, s.pubs[q]);
      }
      forall a, b | 0 <= a < |s.pubs| && 0 <= b < |s.pubs| && a != b ensures Disjoint(s'.pubs[a], s'.pubs[b]) {
        assert Disjoint(s.pubs[a], s.pubs[b]);
      }
    }
  }

  /** The row about to be appended is in no entry yet. */
  lemma NextRowIsNew(s: Sys, p: nat)
    requires AppendedOnce(s) && CanXadd(s, p)
    ensures forall e :: 0 <= e < |s.net.entries| ==> s.net.entries[e].row != s.pubs[p].batch[s.pubs[p].done]
  {
    var pub := s.pubs[p];
    var row := pub.batch[pub.done];
    assert PubCalm(s, pub);
    forall q | 0 <= q < |s.pubs| ensures !Appended(s.pubs[q], row) {
      if q != p {
        assert Disjoint(pub, s.pubs[q]);
      }
    }
    assert !RowOwned(s, row);
  }

  lemma XaddOnce(s: Sys, p: nat)
    requires AppendedOnce(s)
    ensures AppendedOnce(DoXadd(s, p, Added))
  {
    if CanXadd(s, p) {
      var s' := DoXadd(s, p, Added);
      var row := s.pubs[p].batch[s.pubs[p].done];
      NextRowIsNew(s, p);
      assert PubCalm(s, s.pubs[p]);
      assert s'.pubs[p].batch[..s'.pubs[p].done][s.pubs[p].done] == row;
      forall e | 0 <= e < |s'.net.entries| ensures RowOwned(s', s'.net.entries[e].row) {
        if e == |s.net.entries| {
          assert Appended(s'.pubs[p], row);
        } else {
          assert RowOwned(s, s.net.entries[e].row);
          if !s.db.outbox[s.net.entries[e].row].published {
            var q :| 0 <= q < |s.pubs| && Appended(s.pubs[q], s.net.entries[e].row);
            var i :| 0 <= i < s.pubs[q].done && s.pubs[q].batch[i] == s.net.entries[e].row;
            assert s'.pubs[q].batch[..s'.pubs[q].done][i] == s.net.entries[e].row;
            assert Appended(s'.pubs[q], s.net.entries[e].row);
          }
        }
      }
      forall q | 0 <= q < |s.pubs| ensures PubCalm(s', s'.pubs[q]) {
        assert PubCalm(s, s.pubs[q]);
      }
      forall a, b | 0 <= a < |s.pubs| && 0 <= b < |s.pubs| && a != b ensures Disjoint(s'.pubs[a], s'.pubs[b]) {
        assert Disjoint(s.pubs[a], s.pubs[b]);
      }
    }
  }

  lemma CommitOnce(s: Sys, p: nat)
    requires AppendedOnce(s)
    ensures AppendedOnce(DoCommit(s, p))
  {
    if CanCommit(s, p) {
      var s' := DoCommit(s, p);
      var pub := s.pubs[p];
      assert PubCalm(s, pub);
      forall e | 0 <= e < |s.net.entries| ensures RowOwned(s', s.net.entries[e].row) {
        var row := s.net.entries[e].row;
        assert RowOwned(s, row);
        if !s.db.outbox[row].published {
          var q :| 0 <= q < |s.pubs| && Appended(s.pubs[q], row);
          if q != p {
            assert Appended(s'.pubs[q], row);
          }
        }
      }
      forall q | 0 <= q < |s.pubs| ensures PubCalm(s', s'.pubs[q]) {
        assert PubCalm(s, s.pubs[q]);
        assert Disjoint(s.pubs[q], pub) || q == p;
      }
      forall a, b | 0 <= a < |s.pubs| && 0 <= b < |s.pubs| && a != b ensures Disjoint(s'.pubs[a], s'.pubs[b]) {
        assert Disjoint(s.pubs[a], s.pubs[b]);
      }
    }
  }

  lemma GrowOnce(s: Sys, s': Sys)
    requires AppendedOnce(s) && s'.net.entries == s.net.entries && |s.db.outbox| <= |s'.db.outbox|
    requires forall r :: 0 <= r < |s.db.outbox| ==> s'.db.outbox[r] == s.db.outbox[r]
    requires s'.pubs == s.pubs
    ensures AppendedOnce(s')
  {
    forall e | 0 <= e < |s.net.entries| ensures RowOwned(s', s.net.entries[e].row) {
      assert RowOwned(s, s.net.entries[e].row);
    }
    forall q | 0 <= q < |s.pubs| ensures PubCalm(s', s'.pubs[q]) {
      assert PubCalm(s, s.pubs[q]);
    }
  }

  lemma CheckOnce(c: Config, s: Sys, p: nat)
    requires AppendedOnce(s)
    ensures AppendedOnce(DoCheck(c, s, p))
  {
    var s' := DoCheck(c, s, p);
    forall e | 0 <= e < |s.net.entries| ensures RowOwned(s', s.net.entries[e].row) {
      var row := s.net.entries[e].row;
      assert RowOwned(s, row);
      if !s.db.outbox[row].published {
        var q :| 0 <= q < |s.pubs| && Appended(s.pubs[q], row);
        assert Appended(s'.pubs[q], row);
      }
    }
    forall q | 0 <= q < |s.pubs| ensures PubCalm(s', s'.pubs[q]) {
      assert PubCalm(s, s.pubs[q]);
    }
    forall a, b | 0 <= a < |s.pubs| && 0 <= b < |s.pubs| && a != b ensures Disjoint(s'.pubs[a], s'.pubs[b]) {
      assert Disjoint(s.pubs[a], s.pubs[b]);
    }
  }

  lemma QuietOutbox(c: Config, s: Sys, m: Move)
    requires Calm(m) && !m.Check? && !m.Select? && !m.Xadd? && !m.Commit?
    ensures var s' := Next(c, s, m);
            && s'.net.entries == s.net.entries && s'.pubs == s.pubs && |s.db.outbox| <= |s'.db.outbox|
            && forall r :: 0 <= r < |s.db.outbox| ==> s'.db.outbox[r] == s.db.outbox[r]
  {
  }

  lemma NextOnce(c: Config, s: Sys, m: Move)
    requires AppendedOnce(s) && Calm(m)
    ensures AppendedOnce(Next(c, s, m))
  {
    if m.Check? {
      CheckOnce(c, s, m.p);
    } else if m.Select? {
      SelectOnce(c, s, m.p);
    } else if m.Xadd? {
      XaddOnce(s, m.p);
    } else if m.Commit? {
      CommitOnce(s, m.p);
    } else {
      QuietOutbox(c, s, m);
      GrowOnce(s, Next(c, s, m));
    }
  }

  /** At most two entries per observation: its canonical row and its decision's row. */
  lemma EntriesBound(policy: Alerts.Policy, s: Sys)
    requires Linked(policy, s.db) && AppendedOnce(s)
    ensures |s.net.entries| <= |s.db.outbox| <= 2 * |s.db.observations|
  {
    var rows: seq<nat> := seq(|s.net.entries|, e requires 0 <= e < |s.net.entries| => s.net.entries[e].row);
    DistinctBelow(rows, |s.db.outbox|);
    var subjects: seq<nat> := seq(|s.db.decisions|, d requires 0 <= d < |s.db.decisions| => s.db.decisions[d].obs);
    forall d | 0 <= d < |s.db.decisions| ensures subjects[d] < |s.db.observations| {
      assert DecisionLinked(policy, s.db, d);
    }
    DistinctBelow(subjects, |s.db.observations|);
  }

  // ------------------------------------------------------------- every delivery is one call

  predicate HeadHandled(phase: Phase)
  {
    phase.Delivering? || phase.Replied? || phase.Returned? || phase.Raised? || phase.Dying?
  }

  /** Deliveries of a pending entry are its handler calls, plus one if a call is still due. */
  ghost predicate EntryCalls(limit: nat, gs: GroupState, phase: Phase, calls: nat, e: nat)
  {
    var queue := NoLoss.QueueOf(phase);
    if e in gs.pending then
      if e in queue then
        gs.pending[e] <= limit
        && gs.pending[e] == (if HeadHandled(phase) && e == queue[0] then calls else calls + 1)
      else calls == gs.pending[e] && gs.pending[e] < limit
    else calls <= limit && (e >= gs.last ==> calls == 0)
  }

  ghost predicate WorkerCalls(c: Config, s: Sys, w: nat)
    requires w < |s.workers|
  {
    var g := s.workers[w].group;
    if g in s.net.groups then
      var queue := NoLoss.QueueOf(s.workers[w].phase);
      && (HeadHandled(s.workers[w].phase) || s.workers[w].phase.Batch? ==> queue != [])
      && Ascending(queue) && (forall i :: 0 <= i < |queue| ==> queue[i] in s.net.groups[g].pending)
      && (forall e :: EntryCalls(c.maxDeliveries, s.net.groups[g], s.workers[w].phase, s.hist.calls[(g, e)], e))
    else s.workers[w].phase.Idle? && forall e: nat :: s.hist.calls[(g, e)] == 0
  }

  predicate HasWorker(s: Sys, g: Group)
  {
    exists w :: 0 <= w < |s.workers| && s.workers[w].group == g
  }

  ghost predicate CallsOk(c: Config, s: Sys)
  {
    && OneWorkerPerGroup(s)
    && (forall w :: 0 <= w < |s.workers| ==> WorkerCalls(c, s, w))
    && (forall g :: g in s.net.groups ==> HasWorker(s, g))
    && (forall pair :: pair in s.hist.calls ==> HasWorker(s, pair.0))
  }

  /** A move of worker `w` leaves the other groups and their call counts alone. */
  ghost predicate OnlyGroupOf(s: Sys, s': Sys, w: nat)
  {
    && w < |s.workers| && |s'.workers| == |s.workers|
    && (forall v :: 0 <= v < |s.workers| ==> s'.workers[v].group == s.workers[v].group)
    && (forall v :: 0 <= v < |s.workers| && v != w ==> s'.workers[v] == s.workers[v])
    && (forall g :: g != s.workers[w].group ==>
          (g in s'.net.groups <==> g in s.net.groups) && (g in s.net.groups ==> s'.net.groups[g] == s.net.groups[g]))
    && (forall g, e :: g != s.workers[w].group ==> s'.hist.calls[(g, e)] == s.hist.calls[(g, e)])
  }

  lemma OneGroupKeeps(c: Config, s: Sys, s': Sys, w: nat)
    requires CallsOk(c, s) && OnlyGroupOf(s, s', w) && WorkerCalls(c, s', w)
    ensures CallsOk(c, s')
  {
    forall v | 0 <= v < |s'.workers| ensures WorkerCalls(c, s', v) {
      if v != w {
        assert WorkerCalls(c, s, v);
        assert s.workers[v].group != s.workers[w].group;
      }
    }
    forall g | HasWorker(s, g) ensures HasWorker(s', g) {
      var v :| 0 <= v < |s.workers| && s.workers[v].group == g;
      assert s'.workers[v].group == g;
    }
    forall g | g in s'.net.groups ensures HasWorker(s', g) {
      if g == s.workers[w].group {
        assert s'.workers[w].group == g;
      }
    }
    forall pair | pair in s'.hist.calls ensures HasWorker(s', pair.0) {
      if pair.0 == s.workers[w].group {
        assert s'.workers[w].group == pair.0;
      } else {
        assert s'.hist.calls[(pair.0, pair.1)] == s.hist.calls[(pair.0, pair.1)];
      }
    }
  }

  lemma EnsureGroupCalls(c: Config, s: Sys, w: nat)
    requires CallsOk(c, s)
    ensures CallsOk(c, DoEnsureGroup(s, w))
  {
    var s' := DoEnsureGroup(s, w);
    if s' != s {
      assert WorkerCalls(c, s, w);
      OneGroupKeeps(c, s, s', w);
    }
  }

  lemma ClaimShape(c: Config, s: Sys, w: nat, ids: seq<nat>)
    requires OneWorkerPerGroup(s) && CanClaim(c, s, w, ids)
    ensures var s' := DoClaim(c, s, w, ids);
            && OnlyGroupOf(s, s', w) && HasGroup(s', w) && s'.hist == s.hist
            && s'.workers[w].phase == (if ids == [] then Polling else Batch(ids))
            && GroupOf(s', w).last == GroupOf(s, w).last
            && GroupOf(s', w).pending.Keys == GroupOf(s, w).pending.Keys
            && forall e :: e in GroupOf(s, w).pending ==>
                 GroupOf(s', w).pending[e] == GroupOf(s, w).pending[e] + (if e in ids then 1 else 0)
  {
  }

  lemma ClaimCalls(c: Config, s: Sys, w: nat, ids: seq<nat>)
    requires CallsOk(c, s)
    ensures CallsOk(c, DoClaim(c, s, w, ids))
  {
    if CanClaim(c, s, w, ids) {
      ClaimShape(c, s, w, ids);
      ClaimedCalls(c, s, DoClaim(c, s, w, ids), w, ids);
    }
  }

  lemma ClaimedCalls(c: Config, s: Sys, s': Sys, w: nat, ids: seq<nat>)
    requires CallsOk(c, s) && CanClaim(c, s, w, ids)
    requires OnlyGroupOf(s, s', w) && HasGroup(s', w) && s'.hist == s.hist
    requires s'.workers[w].phase == if ids == [] then Polling else Batch(ids)
    requires GroupOf(s', w).last == GroupOf(s, w).last
    requires GroupOf(s', w).pending.Keys == GroupOf(s, w).pending.Keys
    requires forall e :: e in GroupOf(s, w).pending ==>
               GroupOf(s', w).pending[e] == GroupOf(s, w).pending[e] + (if e in ids then 1 else 0)
    ensures CallsOk(c, s')
  {
    var g := s.workers[w].group;
    assert WorkerCalls(c, s, w);
    assert NoLoss.QueueOf(s'.workers[w].phase) == ids;
    forall e ensures EntryCalls(c.maxDeliveries, GroupOf(s', w), s'.workers[w].phase, s'.hist.calls[(g, e)], e) {
      assert EntryCalls(c.maxDeliveries, GroupOf(s, w), s.workers[w].phase, s.hist.calls[(g, e)], e);
      assert e in GroupOf(s', w).pending <==> e in GroupOf(s', w).pending.Keys;
      assert e in GroupOf(s, w).pending <==> e in GroupOf(s, w).pending.Keys;
    }
    OneGroupKeeps(c, s, s', w);
  }

  lemma ReadCalls(c: Config, s: Sys, w: nat)
    requires CallsOk(c, s) && NoLoss.Inv(s) && 1 <= c.maxDeliveries
    ensures CallsOk(c, DoRead(c, s, w))
  {
    if HasGroup(s, w) && s.workers[w].phase.Polling? {
      var s' := DoRead(c, s, w);
      var gs := GroupOf(s, w);
      var n := Min(c.batchSize, |s.net.entries| - gs.last);
      assert WorkerCalls(c, s, w);
      SpanMembers(gs.last, n);
      assert NoLoss.QueueOf(s'.workers[w].phase) == Span(gs.last, n);
      forall e ensures EntryCalls(c.maxDeliveries, GroupOf(s', w), s'.workers[w].phase, s'.hist.calls[(s.workers[w].group, e)], e) {
        assert EntryCalls(c.maxDeliveries, gs, s.workers[w].phase, s.hist.calls[(s.workers[w].group, e)], e);
      }
      OneGroupKeeps(c, s, s', w);
    }
  }

  /** The head is handled: one more call, and the phase says so. */
  lemma CalledCalls(c: Config, s: Sys, s': Sys, w: nat)
    requires CallsOk(c, s) && HasGroup(s, w) && s.workers[w].phase.Batch? && s.workers[w].phase.queue != []
    requires OnlyGroupOf(s, s', w) && s'.net == s.net
    requires HeadHandled(s'.workers[w].phase) && s'.workers[w].phase.queue == s.workers[w].phase.queue
    requires s'.hist.calls == s.hist.calls + multiset{(s.workers[w].group, s.workers[w].phase.queue[0])}
    ensures CallsOk(c, s')
  {
    var g := s.workers[w].group;
    var queue := s.workers[w].phase.queue;
    assert WorkerCalls(c, s, w);
    assert NoLoss.QueueOf(s'.workers[w].phase) == queue == NoLoss.QueueOf(s.workers[w].phase);
    assert queue[0] in queue;
    forall e ensures EntryCalls(c.maxDeliveries, GroupOf(s', w), s'.workers[w].phase, s'.hist.calls[(g, e)], e) {
      assert EntryCalls(c.maxDeliveries, GroupOf(s, w), s.workers[w].phase, s.hist.calls[(g, e)], e);
    }
    OneGroupKeeps(c, s, s', w);
  }

  lemma HandleShape(c: Config, s: Sys, w: nat, tx: TxReply)
    requires w < |s.workers| && s.workers[w].phase.Batch? && HasMessage(s, w, s.workers[w].phase.queue)
    ensures var s' := DoHandle(c, s, w, tx);
            && |s'.workers| == |s.workers| && s'.workers == s.workers[w := s'.workers[w]]
            && s'.workers[w].group == s.workers[w].group
            && HeadHandled(s'.workers[w].phase) && s'.workers[w].phase.queue == s.workers[w].phase.queue
            && s'.net == s.net
            && s'.hist.calls == s.hist.calls + multiset{(s.workers[w].group, s.workers[w].phase.queue[0])}
  {
  }

  lemma HandleCalls(c: Config, s: Sys, w: nat, tx: TxReply)
    requires CallsOk(c, s)
    ensures CallsOk(c, DoHandle(c, s, w, tx))
  {
    if w < |s.workers| && s.workers[w].phase.Batch? && HasMessage(s, w, s.workers[w].phase.queue) {
      HandleShape(c, s, w, tx);
      CalledCalls(c, s, DoHandle(c, s, w, tx), w);
    }
  }

  /** The webhook call and its bookkeeping stay inside the same handler call. */
  lemma InsideCalls(c: Config, s: Sys, s': Sys, w: nat)
    requires CallsOk(c, s) && OnlyGroupOf(s, s', w) && s'.net == s.net && s'.hist.calls == s.hist.calls
    requires HeadHandled(s.workers[w].phase) && HeadHandled(s'.workers[w].phase)
    requires s'.workers[w].phase.queue == s.workers[w].phase.queue
    ensures CallsOk(c, s')
  {
    var g := s.workers[w].group;
    assert WorkerCalls(c, s, w);
    assert NoLoss.QueueOf(s'.workers[w].phase) == NoLoss.QueueOf(s.workers[w].phase);
    assert g in s.net.groups ==> forall e ::
      EntryCalls(c.maxDeliveries, s.net.groups[g], s.workers[w].phase, s.hist.calls[(g, e)], e)
      == EntryCalls(c.maxDeliveries, s.net.groups[g], s'.workers[w].phase, s'.hist.calls[(g, e)], e);
    OneGroupKeeps(c, s, s', w);
  }

  /** The head leaves the worker's hand: retired, or pending below the limit. */
  lemma LeaveCalls(c: Config, s: Sys, s': Sys, w: nat)
    requires CallsOk(c, s) && OnlyGroupOf(s, s', w) && s'.hist.calls == s.hist.calls && HasGroup(s, w) && HasGroup(s', w)
    requires HeadHandled(s.workers[w].phase) && s.workers[w].phase.queue != []
    requires s'.workers[w].phase == AfterHead(s.workers[w].phase.queue)
    requires s.workers[w].phase.queue[0] < GroupOf(s, w).last == GroupOf(s', w).last
    requires var head := s.workers[w].phase.queue[0];
             GroupOf(s', w).pending == GroupOf(s, w).pending - {head}
             || (GroupOf(s', w).pending == GroupOf(s, w).pending
                 && DeliveryCount(GroupOf(s, w), head) < c.maxDeliveries)
    ensures CallsOk(c, s')
  {
    var g := s.workers[w].group;
    var queue := s.workers[w].phase.queue;
    assert WorkerCalls(c, s, w);
    var after := NoLoss.QueueOf(s'.workers[w].phase);
    assert after == queue[1..];
    assert queue == [queue[0]] + queue[1..];
    assert queue[0] !in after && queue[0] in queue;
    forall e ensures EntryCalls(c.maxDeliveries, GroupOf(s', w), s'.workers[w].phase, s'.hist.calls[(g, e)], e) {
      assert EntryCalls(c.maxDeliveries, GroupOf(s, w), s.workers[w].phase, s.hist.calls[(g, e)], e);
      assert e != queue[0] ==> (e in after <==> e in queue);
    }
    assert forall i :: 0 <= i < |after| ==> after[i] == queue[i + 1] && queue[i + 1] in GroupOf(s, w).pending;
    OneGroupKeeps(c, s, s', w);
  }

  lemma RetireShape(c: Config, s: Sys, m: Move)
    requires NoLoss.Inv(s) && (m.Ack? || m.Count? || m.MoveToDlq?) && Next(c, s, m) != s
    ensures var s' := Next(c, s, m);
            && OnlyGroupOf(s, s', m.w) && s'.hist.calls == s.hist.calls && HasGroup(s, m.w) && HasGroup(s', m.w)
            && HeadHandled(s.workers[m.w].phase) && s.workers[m.w].phase.queue != []
            && s.workers[m.w].phase.queue[0] < GroupOf(s, m.w).last == GroupOf(s', m.w).last
            && var head := s.workers[m.w].phase.queue[0];
               if s'.workers[m.w].phase.Dying?
               then s'.net == s.net && s'.workers[m.w].phase.queue == s.workers[m.w].phase.queue
               else s'.workers[m.w].phase == AfterHead(s.workers[m.w].phase.queue)
                    && (GroupOf(s', m.w).pending == GroupOf(s, m.w).pending - {head}
                        || (GroupOf(s', m.w).pending == GroupOf(s, m.w).pending
                            && DeliveryCount(GroupOf(s, m.w), head) < c.maxDeliveries))
  {
    assert NoLoss.WorkerOk(s.net.groups, s.hist.returned, s.workers[m.w]);
    assert NoLoss.QueueOf(s.workers[m.w].phase) == s.workers[m.w].phase.queue;
  }

  lemma RetireCalls(c: Config, s: Sys, m: Move)
    requires CallsOk(c, s) && NoLoss.Inv(s) && (m.Ack? || m.Count? || m.MoveToDlq?)
    ensures CallsOk(c, Next(c, s, m))
  {
    var s' := Next(c, s, m);
    if s' != s {
      RetireShape(c, s, m);
      if s'.workers[m.w].phase.Dying? {
        InsideCalls(c, s, s', m.w);
      } else {
        LeaveCalls(c, s, s', m.w);
      }
    }
  }

  /** A webhook call, or writing its answer back, is a step inside one handler call. */
  ghost predicate InsideCall(s: Sys, s': Sys, w: nat)
  {
    && OnlyGroupOf(s, s', w) && s'.net == s.net && s'.hist.calls == s.hist.calls
    && HeadHandled(s.workers[w].phase) && HeadHandled(s'.workers[w].phase)
    && s'.workers[w].phase.queue == s.workers[w].phase.queue
  }

  lemma DeliverShape(s: Sys, w: nat, reply: DeliveryReply)
    requires DoDeliver(s, w, reply) != s
    ensures InsideCall(s, DoDeliver(s, w, reply), w)
  {
  }

  lemma FinishShape(s: Sys, w: nat, tx: TxReply)
    requires DoFinish(s, w, tx) != s
    ensures InsideCall(s, DoFinish(s, w, tx), w)
  {
  }

  lemma FinishCalls(c: Config, s: Sys, m: Move)
    requires CallsOk(c, s) && (m.Finish? || m.Deliver?)
    ensures CallsOk(c, Next(c, s, m))
  {
    var s' := Next(c, s, m);
    if s' != s {
      if m.Deliver? {
        DeliverShape(s, m.w, m.delivery);
      } else {
        FinishShape(s, m.w, m.tx);
      }
      InsideCalls(c, s, s', m.w);
    }
  }

  /** Ingest and publishers do not touch the consumers. */
  lemma OutsideCalls(c: Config, s: Sys, s': Sys)
    requires CallsOk(c, s) && s'.workers == s.workers && s'.net.groups == s.net.groups && s'.hist == s.hist
    ensures CallsOk(c, s')
  {
    forall v | 0 <= v < |s.workers| ensures WorkerCalls(c, s', v) {
      assert WorkerCalls(c, s, v);
    }
    assert forall g :: HasWorker(s', g) == HasWorker(s, g);
  }

  lemma NextCalls(c: Config, s: Sys, m: Move)
    requires CallsOk(c, s) && NoLoss.Inv(s) && 1 <= c.maxDeliveries && Calm(m)
    ensures CallsOk(c, Next(c, s, m))
  {
    match m
    case EnsureGroup(w) => EnsureGroupCalls(c, s, w);
    case Claim(w, ids) => ClaimCalls(c, s, w, ids);
    case Read(w) => ReadCalls(c, s, w);
    case Handle(w, tx) => HandleCalls(c, s, w, tx);
    case Deliver(_, _) => FinishCalls(c, s, m);
    case Finish(_, _) => FinishCalls(c, s, m);
    case Ack(_) => RetireCalls(c, s, m);
    case Count(_) => RetireCalls(c, s, m);
    case MoveToDlq(_) => RetireCalls(c, s, m);
    case Ingest(_) => OutsideCalls(c, s, Next(c, s, m));
    case Check(_) => OutsideCalls(c, s, Next(c, s, m));
    case Select(_) => OutsideCalls(c, s, Next(c, s, m));
    case Xadd(_, _) => OutsideCalls(c, s, Next(c, s, m));
    case Commit(_) => OutsideCalls(c, s, Next(c, s, m));
    case _ =>
  }

  ghost predicate WorkInv(c: Config, s: Sys)
  {
    NoLoss.Inv(s) && Linked(c.policy, s.db) && AppendedOnce(s) && CallsOk(c, s)
  }

  lemma NextWork(c: Config, s: Sys, m: Move)
    requires WorkInv(c, s) && 1 <= c.maxDeliveries && Calm(m)
    ensures WorkInv(c, Next(c, s, m))
  {
    NoLoss.NextKeeps(c, s, m);
    NextLinked(c, s, m);
    NextOnce(c, s, m);
    NextCalls(c, s, m);
  }

  lemma {:induction false} RunWork(c: Config, s: Sys, moves: seq<Move>)
    requires WorkInv(c, s) && 1 <= c.maxDeliveries && forall i :: 0 <= i < |moves| ==> Calm(moves[i])
    ensures WorkInv(c, Run(c, s, moves))
  {
    if moves != [] {
      RunWork(c, s, moves[..|moves| - 1]);
      NextWork(c, Run(c, s, moves[..|moves| - 1]), moves[|moves| - 1]);
    }
  }

  lemma StartWork(c: Config, s: Sys)
    requires Start(s) && OneWorkerPerGroup(s)
    ensures WorkInv(c, s)
  {
    NoLoss.StartOk(s);
  }

  /** A call counted for a group and an entry was made for a delivered entry of an existing group. */
  lemma CallsAreBounded(c: Config, s: Sys)
    requires WorkInv(c, s)
    ensures forall pair :: pair in s.hist.calls ==>
              pair.0 in s.net.groups && pair.1 < |s.net.entries| && s.hist.calls[pair] <= c.maxDeliveries
  {
    forall pair | pair in s.hist.calls
      ensures pair.0 in s.net.groups && pair.1 < |s.net.entries| && s.hist.calls[pair] <= c.maxDeliveries
    {
      var w :| 0 <= w < |s.workers| && s.workers[w].group == pair.0;
      assert WorkerCalls(c, s, w);
      assert s.hist.calls[(pair.0, pair.1)] > 0;
      assert pair.0 in s.net.groups;
      assert EntryCalls(c.maxDeliveries, s.net.groups[pair.0], s.workers[w].phase, s.hist.calls[(pair.0, pair.1)], pair.1);
      assert s.net.groups[pair.0].last <= |s.net.entries|;
    }
  }

  function Quota(c: Config, s: Sys): nat
  {
    2 * |s.db.observations| * |s.net.groups| * c.maxDeliveries
  }

  /** In a calm run: at most 2 * observations * groups * maxDeliveries handler calls, all told. */
  lemma HandlerCallsAreBounded(c: Config, s0: Sys, moves: seq<Move>)
    requires ValidConfig(c) && Start(s0) && OneWorkerPerGroup(s0)
    requires forall i :: 0 <= i < |moves| ==> Calm(moves[i])
    ensures var s := Run(c, s0, moves); |s.hist.calls| <= Quota(c, s) && |s.net.entries| <= 2 * |s.db.observations|
  {
    StartWork(c, s0);
    RunWork(c, s0, moves);
    WorkBound(c, Run(c, s0, moves));
  }

  lemma WorkBound(c: Config, s: Sys)
    requires WorkInv(c, s)
    ensures |s.hist.calls| <= Quota(c, s) && |s.net.entries| <= 2 * |s.db.observations|
  {
    CallsAreBounded(c, s);
    EntriesBound(c.policy, s);
    var groups := s.net.groups.Keys;
    var support := Pairs(groups, Below(|s.net.entries|));
    BelowCount(|s.net.entries|);
    PairsCount(groups, Below(|s.net.entries|));
    forall pair | pair in s.hist.calls ensures pair in support && s.hist.calls[pair] <= c.maxDeliveries {
      assert pair == (pair.0, pair.1);
    }
    MultisetBound(s.hist.calls, support, c.maxDeliveries);
    QuotaArithmetic(|s.hist.calls|, |groups|, |s.net.entries|, 2 * |s.db.observations|, c.maxDeliveries);
  }

  lemma QuotaArithmetic(calls: nat, groups: nat, entries: nat, rows: nat, limit: nat)
    requires calls <= groups * entries * limit && entries <= rows
    ensures calls <= rows * groups * limit
  {
    assert groups * entries <= groups * rows;
    assert groups * entries * limit <= groups * rows * limit;
    assert groups * rows == rows * groups;
  }
}
