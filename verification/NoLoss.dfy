/** No committed outbox row is ever lost, whatever crashes and in whatever order. */
module NoLoss {
  import opened Common
  import opened PipelineState
  import opened Frames

  predicate Streamed(entries: seq<Envelope>, row: nat)
  {
    exists e :: 0 <= e < |entries| && entries[e].row == row
  }

  ghost predicate EntriesOk(s: Sys)
  {
    forall e :: 0 <= e < |s.net.entries| ==>
      s.net.entries[e].row < |s.db.outbox| && s.net.entries[e] == EnvelopeOf(s.db.outbox, s.net.entries[e].row)
  }

  ghost predicate RowsOk(s: Sys)
  {
    forall r :: 0 <= r < |s.db.outbox| && s.db.outbox[r].published ==> Streamed(s.net.entries, r)
  }

  ghost predicate PubOk(s: Sys, pub: Publisher)
  {
    pub.Open? ==>
      pub.done <= |pub.batch|
      && (forall i :: 0 <= i < |pub.batch| ==> pub.batch[i] < |s.db.outbox|)
      && (forall i :: 0 <= i < pub.done ==> Streamed(s.net.entries, pub.batch[i]))
  }

  ghost predicate PubsOk(s: Sys)
  {
    forall p :: 0 <= p < |s.pubs| ==> PubOk(s, s.pubs[p])
  }

  /** A delivered entry is still pending, or its handler returned, or it is a dead letter. */
  ghost predicate Accounted(s: Sys, g: Group, e: nat)
    requires g in s.net.groups
  {
    e in s.net.groups[g].pending || (g, e) in s.hist.returned || (g, e) in s.hist.dead
  }

  ghost predicate GroupsOk(s: Sys)
  {
    forall g :: g in s.net.groups ==>
      s.net.groups[g].last <= |s.net.entries|
      && (forall e :: e in s.net.groups[g].pending ==> e < s.net.groups[g].last)
      && (forall e :: 0 <= e < s.net.groups[g].last ==> Accounted(s, g, e))
  }

  function QueueOf(phase: Phase): seq<nat>
  {
    if phase.Idle? || phase.Polling? then [] else phase.queue
  }

  ghost predicate WorkerOk(groups: map<Group, GroupState>, returned: set<(Group, nat)>, worker: Worker)
  {
    && (!worker.phase.Idle? ==> worker.group in groups)
    && (!worker.phase.Idle? && !worker.phase.Polling? ==> worker.phase.queue != [])
    && (forall i :: 0 <= i < |QueueOf(worker.phase)| ==>
          worker.group in groups && QueueOf(worker.phase)[i] < groups[worker.group].last)
    && (worker.phase.Returned? ==> (worker.group, worker.phase.queue[0]) in returned)
  }

  ghost predicate WorkersOk(s: Sys)
  {
    forall w :: 0 <= w < |s.workers| ==> WorkerOk(s.net.groups, s.hist.returned, s.workers[w])
  }

  predicate InDlq(net: Stream, e: nat)
  {
    exists k :: 0 <= k < |net.dlq| && net.dlq[k].entry == e
  }

  ghost predicate DeadOk(s: Sys)
  {
    forall g, e :: (g, e) in s.hist.dead ==> InDlq(s.net, e)
  }

  ghost predicate Inv(s: Sys)
  {
    EntriesOk(s) && RowsOk(s) && PubsOk(s) && GroupsOk(s) && WorkersOk(s) && DeadOk(s)
  }

  lemma PickBounds(outbox: seq<Row>, pubs: seq<Publisher>, p: nat, from: nat, limit: nat)
    ensures var b := Pick(outbox, pubs, p, from, limit);
            |b| <= limit && forall i :: 0 <= i < |b| ==> from <= b[i] < |outbox| && !outbox[b[i]].published
    decreases |outbox| - from
  {
  }

  lemma StartOk(s: Sys)
    requires Start(s)
    ensures Inv(s)
  {
    forall w | 0 <= w < |s.workers| ensures WorkerOk(s.net.groups, s.hist.returned, s.workers[w]) {
      assert QueueOf(s.workers[w].phase) == [];
    }
  }

  /** Moves of ingest and publishers leave groups, workers and history alone. */
  lemma ConsumersKeep(s: Sys, s': Sys)
    requires GroupsOk(s) && WorkersOk(s)
    requires s'.net.groups == s.net.groups && |s.net.entries| <= |s'.net.entries|
    requires s'.workers == s.workers && s'.hist == s.hist
    ensures GroupsOk(s') && WorkersOk(s')
  {
    forall g, e: nat | g in s.net.groups && e < s.net.groups[g].last ensures Accounted(s', g, e) {
      assert Accounted(s, g, e);
    }
    forall w | 0 <= w < |s'.workers| ensures WorkerOk(s'.net.groups, s'.hist.returned, s'.workers[w]) {
      assert WorkerOk(s.net.groups, s.hist.returned, s.workers[w]);
    }
  }

  lemma OutboxGrows(s: Sys, db: Db)
    requires Inv(s)
    requires |s.db.outbox| <= |db.outbox|
    requires forall r :: 0 <= r < |s.db.outbox| ==> db.outbox[r] == s.db.outbox[r]
    requires forall r :: |s.db.outbox| <= r < |db.outbox| ==> !db.outbox[r].published
    ensures Inv(s.(db := db))
  {
    var s' := s.(db := db);
    ConsumersKeep(s, s');
    assert forall p :: 0 <= p < |s.pubs| ==> PubOk(s, s.pubs[p]) ==> PubOk(s', s.pubs[p]);
  }

  lemma XaddKeeps(s: Sys, p: nat, reply: XaddReply)
    requires Inv(s)
    ensures Inv(DoXadd(s, p, reply))
  {
    if CanXadd(s, p) {
      var s' := DoXadd(s, p, reply);
      var row := s.pubs[p].batch[s.pubs[p].done];
      assert !reply.Refused? ==> s'.net.entries[|s.net.entries|].row == row;
      forall r: nat | Streamed(s.net.entries, r) ensures Streamed(s'.net.entries, r) {
        var e :| 0 <= e < |s.net.entries| && s.net.entries[e].row == r;
        assert s'.net.entries[e].row == r;
      }
      assert PubOk(s, s.pubs[p]);
      forall q | 0 <= q < |s'.pubs| ensures PubOk(s', s'.pubs[q]) {
        assert PubOk(s, s.pubs[q]);
      }
      ConsumersKeep(s, s');
    }
  }

  lemma CommitKeeps(s: Sys, p: nat)
    requires Inv(s)
    ensures Inv(DoCommit(s, p))
  {
    if CanCommit(s, p) {
      var s' := DoCommit(s, p);
      var pub := s.pubs[p];
      assert PubOk(s, pub);
      forall r | 0 <= r < |s'.db.outbox| && s'.db.outbox[r].published ensures Streamed(s'.net.entries, r) {
        if r in pub.batch[..pub.done] {
          var i :| 0 <= i < pub.done && pub.batch[i] == r;
        }
      }
      forall q | 0 <= q < |s'.pubs| ensures PubOk(s', s'.pubs[q]) {
        assert PubOk(s, s.pubs[q]);
      }
      ConsumersKeep(s, s');
    }
  }

  lemma PublisherKeeps(c: Config, s: Sys, m: Move)
    requires Inv(s)
    requires m.Check? || m.Select? || m.Xadd? || m.Commit? || m.PublisherAbort?
    ensures Inv(Next(c, s, m))
  {
    if m.Xadd? {
      XaddKeeps(s, m.p, m.xadd);
    } else if m.Commit? {
      CommitKeeps(s, m.p);
    } else {
      var s' := Next(c, s, m);
      PickBounds(s.db.outbox, s.pubs, m.p, 0, c.batchSize);
      forall q | 0 <= q < |s'.pubs| ensures PubOk(s', s'.pubs[q]) {
        assert PubOk(s, s.pubs[q]);
      }
      ConsumersKeep(s, s');
    }
  }

  /** Moves that deliver or retire messages touch groups, workers and history only. */
  ghost predicate StreamMove(s: Sys, s': Sys)
  {
    && s'.db == s.db && s'.pubs == s.pubs && s'.net.entries == s.net.entries
    && |s'.workers| == |s.workers|
    && s.hist.returned <= s'.hist.returned && s.hist.dead <= s'.hist.dead
    && (forall g :: g in s.net.groups ==> g in s'.net.groups && s.net.groups[g].last <= s'.net.groups[g].last)
  }

  lemma StreamMoveKeeps(s: Sys, s': Sys, w: nat)
    requires Inv(s) && StreamMove(s, s') && GroupsOk(s') && DeadOk(s')
    requires forall v :: 0 <= v < |s.workers| && v != w ==> s'.workers[v] == s.workers[v]
    requires w < |s'.workers| ==> WorkerOk(s'.net.groups, s'.hist.returned, s'.workers[w])
    ensures Inv(s')
  {
    forall v | 0 <= v < |s'.workers| ensures WorkerOk(s'.net.groups, s'.hist.returned, s'.workers[v]) {
      if v != w {
        WorkerGrows(s.net.groups, s'.net.groups, s.hist.returned, s'.hist.returned, s.workers[v]);
      }
    }
    assert forall p :: 0 <= p < |s.pubs| ==> PubOk(s, s.pubs[p]) ==> PubOk(s', s.pubs[p]);
  }

  lemma WorkerGrows(groups: map<Group, GroupState>, groups': map<Group, GroupState>,
                    returned: set<(Group, nat)>, returned': set<(Group, nat)>, worker: Worker)
    requires WorkerOk(groups, returned, worker) && returned <= returned'
    requires forall g :: g in groups ==> g in groups' && groups[g].last <= groups'[g].last
    ensures WorkerOk(groups', returned', worker)
  {
    var queue := QueueOf(worker.phase);
    forall i | 0 <= i < |queue| ensures worker.group in groups' && queue[i] < groups'[worker.group].last {
      assert worker.group in groups && queue[i] < groups[worker.group].last;
    }
  }

  lemma ClaimKeeps(c: Config, s: Sys, w: nat, ids: seq<nat>)
    requires Inv(s)
    ensures Inv(DoClaim(c, s, w, ids))
  {
    if CanClaim(c, s, w, ids) {
      var s' := DoClaim(c, s, w, ids);
      assert forall g, e :: g in s.net.groups ==> Accounted(s', g, e) == Accounted(s, g, e);
      StreamMoveKeeps(s, s', w);
    }
  }

  lemma ReadKeeps(c: Config, s: Sys, w: nat)
    requires Inv(s)
    ensures Inv(DoRead(c, s, w))
  {
    var s' := DoRead(c, s, w);
    if s' != s {
      var g := s.workers[w].group;
      var gs := s.net.groups[g];
      var n := Min(c.batchSize, |s.net.entries| - gs.last);
      SpanMembers(gs.last, n);
      forall h, e: nat | h in s'.net.groups && e < s'.net.groups[h].last ensures Accounted(s', h, e) {
        if h == g && gs.last <= e {
          assert e in FirstDeliveries(gs.last, n);
        } else {
          assert Accounted(s, h, e);
        }
      }
      StreamMoveKeeps(s, s', w);
    }
  }

  lemma AfterHeadOk(s: Sys, s': Sys, w: nat)
    requires w < |s.workers| && w < |s'.workers|
    requires WorkerOk(s.net.groups, s.hist.returned, s.workers[w]) && !s.workers[w].phase.Idle? && !s.workers[w].phase.Polling?
    requires s'.workers[w] == Worker(s.workers[w].group, AfterHead(s.workers[w].phase.queue))
    requires forall g :: g in s.net.groups ==> g in s'.net.groups && s'.net.groups[g].last == s.net.groups[g].last
    ensures WorkerOk(s'.net.groups, s'.hist.returned, s'.workers[w])
  {
    var before := QueueOf(s.workers[w].phase);
    var after := QueueOf(s'.workers[w].phase);
    assert forall i :: 0 <= i < |after| ==> after[i] == before[i + 1];
  }

  /** Retiring the head of a queue is safe when the group is done with it. */
  lemma RetireKeeps(s: Sys, s': Sys, w: nat)
    requires Inv(s) && w < |s.workers|
    requires !s.workers[w].phase.Idle? && !s.workers[w].phase.Polling?
    requires HasMessage(s, w, s.workers[w].phase.queue) && StreamMove(s, s') && DeadOk(s')
    requires var queue := s.workers[w].phase.queue;
             var g := s.workers[w].group;
             s'.net.groups == s.net.groups[g := s.net.groups[g].(pending := s.net.groups[g].pending - {queue[0]})]
             && s'.workers == s.workers[w := Worker(g, AfterHead(queue))]
             && ((g, queue[0]) in s'.hist.returned || (g, queue[0]) in s'.hist.dead)
    ensures Inv(s')
  {
    assert WorkerOk(s.net.groups, s.hist.returned, s.workers[w]);
    forall h, e: nat | h in s'.net.groups && e < s'.net.groups[h].last ensures Accounted(s', h, e) {
      assert Accounted(s, h, e);
    }
    AfterHeadOk(s, s', w);
    StreamMoveKeeps(s, s', w);
  }

  lemma AckKeeps(s: Sys, w: nat)
    requires Inv(s)
    ensures Inv(DoAck(s, w))
  {
    var s' := DoAck(s, w);
    if w < |s.workers| && s.workers[w].phase.Returned? && HasMessage(s, w, s.workers[w].phase.queue) {
      assert WorkerOk(s.net.groups, s.hist.returned, s.workers[w]);
      RetireKeeps(s, s', w);
    }
  }

  lemma MoveToDlqKeeps(s: Sys, w: nat)
    requires Inv(s)
    ensures Inv(DoMoveToDlq(s, w))
  {
    var s' := DoMoveToDlq(s, w);
    if w < |s.workers| && s.workers[w].phase.Dying? && HasMessage(s, w, s.workers[w].phase.queue) {
      var head := s.workers[w].phase.queue[0];
      assert s'.net.dlq[|s.net.dlq|].entry == head;
      forall g, e | (g, e) in s'.hist.dead ensures InDlq(s'.net, e) {
        if (g, e) in s.hist.dead {
          var k :| 0 <= k < |s.net.dlq| && s.net.dlq[k].entry == e;
          assert s'.net.dlq[k].entry == e;
        }
      }
      RetireKeeps(s, s', w);
    }
  }

  /** A step inside one worker: its phase changes, at most the head gains a return. */
  lemma InnerKeeps(s: Sys, w: nat, phase: Phase, hist: History)
    requires Inv(s) && w < |s.workers|
    requires s.hist.returned <= hist.returned && hist.dead == s.hist.dead
    requires phase.Idle? || (QueueOf(phase) != [] && !s.workers[w].phase.Idle? && !s.workers[w].phase.Polling?
                             && QueueOf(phase) == s.workers[w].phase.queue)
             || (!s.workers[w].phase.Idle? && !s.workers[w].phase.Polling?
                 && phase == AfterHead(s.workers[w].phase.queue))
    requires phase.Returned? ==> (s.workers[w].group, phase.queue[0]) in hist.returned
    ensures Inv(SetPhase(s, w, phase).(hist := hist))
  {
    var s' := SetPhase(s, w, phase).(hist := hist);
    assert WorkerOk(s.net.groups, s.hist.returned, s.workers[w]);
    forall g, e: nat | g in s.net.groups && e < s.net.groups[g].last ensures Accounted(s', g, e) {
      assert Accounted(s, g, e);
    }
    if phase.Idle? {
      assert QueueOf(phase) == [];
    } else if QueueOf(phase) == QueueOf(s.workers[w].phase) {
      assert WorkerOk(s'.net.groups, s'.hist.returned, s'.workers[w]);
    } else {
      AfterHeadOk(s, s', w);
    }
    assert DeadOk(s') && GroupsOk(s') && StreamMove(s, s');
    StreamMoveKeeps(s, s', w);
  }

  /** What a database transaction of the path may do to the outbox: append unpublished rows. */
  ghost predicate Appends(db: Db, db': Db)
  {
    && |db.outbox| <= |db'.outbox|
    && (forall r :: 0 <= r < |db.outbox| ==> db'.outbox[r] == db.outbox[r])
    && (forall r :: |db.outbox| <= r < |db'.outbox| ==> !db'.outbox[r].published)
  }

  /** A handler transaction changes the database, the phase of its worker and the history. */
  lemma HandleParts(c: Config, s: Sys, w: nat, tx: TxReply)
    requires w < |s.workers| && s.workers[w].phase.Batch? && HasMessage(s, w, s.workers[w].phase.queue)
    ensures var s' := DoHandle(c, s, w, tx);
            && Appends(s.db, s'.db) && |s'.workers| == |s.workers|
            && s' == SetPhase(s.(db := s'.db), w, s'.workers[w].phase).(hist := s'.hist)
            && s.hist.returned <= s'.hist.returned && s'.hist.dead == s.hist.dead
            && QueueOf(s'.workers[w].phase) == s.workers[w].phase.queue
            && (s'.workers[w].phase.Returned? ==> (s.workers[w].group, s.workers[w].phase.queue[0]) in s'.hist.returned)
  {
  }

  lemma HandleKeeps(c: Config, s: Sys, w: nat, tx: TxReply)
    requires Inv(s)
    ensures Inv(DoHandle(c, s, w, tx))
  {
    if w < |s.workers| && s.workers[w].phase.Batch? && HasMessage(s, w, s.workers[w].phase.queue) {
      var s' := DoHandle(c, s, w, tx);
      HandleParts(c, s, w, tx);
      OutboxGrows(s, s'.db);
      InnerKeeps(s.(db := s'.db), w, s'.workers[w].phase, s'.hist);
    }
  }

  lemma FinishKeeps(s: Sys, w: nat, tx: TxReply)
    requires Inv(s)
    ensures Inv(DoFinish(s, w, tx))
  {
    var s' := DoFinish(s, w, tx);
    if w < |s.workers| && s.workers[w].phase.Replied? && HasMessage(s, w, s.workers[w].phase.queue) {
      var plan := FinishDelivery(s.db, s.workers[w].phase.key, s.workers[w].phase.reply);
      var db := if plan.Writes? && !tx.RollsBack? then plan.db else s.db;
      OutboxGrows(s, db);
      InnerKeeps(s.(db := db), w, s'.workers[w].phase, s'.hist);
      assert s' == SetPhase(s.(db := db), w, s'.workers[w].phase).(hist := s'.hist);
    }
  }

  lemma EnsureGroupKeeps(s: Sys, w: nat)
    requires Inv(s)
    ensures Inv(DoEnsureGroup(s, w))
  {
    var s' := DoEnsureGroup(s, w);
    if s' != s {
      assert forall g, e :: g in s.net.groups ==> Accounted(s', g, e) == Accounted(s, g, e);
      assert WorkerOk(s.net.groups, s.hist.returned, s.workers[w]);
      StreamMoveKeeps(s, s', w);
    }
  }

  lemma DeliverKeeps(s: Sys, w: nat, reply: DeliveryReply)
    requires Inv(s)
    ensures Inv(DoDeliver(s, w, reply))
  {
    var s' := DoDeliver(s, w, reply);
    if s' != s {
      assert WorkerOk(s.net.groups, s.hist.returned, s.workers[w]);
      InnerKeeps(s, w, s'.workers[w].phase, s'.hist);
      assert s' == SetPhase(s, w, s'.workers[w].phase).(hist := s'.hist);
    }
  }

  lemma CountKeeps(c: Config, s: Sys, w: nat)
    requires Inv(s)
    ensures Inv(DoCount(c, s, w))
  {
    var s' := DoCount(c, s, w);
    if s' != s {
      InnerKeeps(s, w, s'.workers[w].phase, s'.hist);
      assert s' == SetPhase(s, w, s'.workers[w].phase).(hist := s'.hist);
    }
  }

  lemma AbortKeeps(s: Sys, w: nat)
    requires Inv(s)
    ensures Inv(DoAbort(s, w))
  {
    if w < |s.workers| {
      var s' := DoAbort(s, w);
      InnerKeeps(s, w, Idle, s'.hist);
      assert s' == SetPhase(s, w, Idle).(hist := s'.hist);
    }
  }

  lemma ConsumerKeeps(c: Config, s: Sys, m: Move)
    requires Inv(s) && ConsumerMove(m)
    ensures Inv(Next(c, s, m))
  {
    if m.EnsureGroup? {
      EnsureGroupKeeps(s, m.w);
    } else if m.Claim? {
      ClaimKeeps(c, s, m.w, m.ids);
    } else if m.Read? {
      ReadKeeps(c, s, m.w);
    } else if m.Ack? {
      AckKeeps(s, m.w);
    } else if m.Count? {
      CountKeeps(c, s, m.w);
    } else {
      MoveToDlqKeeps(s, m.w);
    }
  }

  lemma NextKeeps(c: Config, s: Sys, m: Move)
    requires Inv(s)
    ensures Inv(Next(c, s, m))
  {
    if PublisherMove(m) {
      PublisherKeeps(c, s, m);
    } else if ConsumerMove(m) {
      ConsumerKeeps(c, s, m);
    } else if m.Ingest? {
      OutboxGrows(s, AddObservation(s.db, m.fact));
    } else if m.Handle? {
      HandleKeeps(c, s, m.w, m.tx);
    } else if m.Deliver? {
      DeliverKeeps(s, m.w, m.delivery);
    } else if m.Finish? {
      FinishKeeps(s, m.w, m.tx);
    } else {
      AbortKeeps(s, m.w);
    }
  }

  lemma {:induction false} RunKeeps(c: Config, s: Sys, moves: seq<Move>)
    requires Inv(s)
    ensures Inv(Run(c, s, moves))
  {
    if moves != [] {
      RunKeeps(c, s, moves[..|moves| - 1]);
      NextKeeps(c, Run(c, s, moves[..|moves| - 1]), moves[|moves| - 1]);
    }
  }

  /**
   * Every committed row, in every reachable state and for every group that exists by then: the row
   * waits to be published, or it is in the stream and each of its entries waits for the group, is
   * pending there, was handled to a normal return, or was moved to the dead letter stream.
   */
  lemma NoRowIsLost(c: Config, s0: Sys, moves: seq<Move>, row: nat, g: Group)
    requires Start(s0)
    requires var s := Run(c, s0, moves); row < |s.db.outbox| && g in s.net.groups
    ensures var s := Run(c, s0, moves);
            || !s.db.outbox[row].published
            || (Streamed(s.net.entries, row)
                && forall e :: 0 <= e < |s.net.entries| && s.net.entries[e].row == row ==>
                     && s.net.entries[e] == EnvelopeOf(s.db.outbox, row)
                     && (e >= s.net.groups[g].last || e in s.net.groups[g].pending || (g, e) in s.hist.returned
                         || ((g, e) in s.hist.dead && InDlq(s.net, e))))
  {
    StartOk(s0);
    RunKeeps(c, s0, moves);
    var s := Run(c, s0, moves);
    forall e | 0 <= e < |s.net.entries| && s.net.entries[e].row == row
      ensures e >= s.net.groups[g].last || Accounted(s, g, e)
    {
    }
  }
}
