/** How observations, decisions and outbox rows refer to each other in every committed database. */
module Records {
  import opened Common
  import opened Alerts
  import opened PipelineState
  import opened Frames

  predicate HasRow(outbox: seq<Row>, payload: Payload)
  {
    exists r :: 0 <= r < |outbox| && outbox[r].payload == payload
  }

  function AnnouncementOf(db: Db, d: nat): Payload
    requires d < |db.decisions|
  {
    DecisionCreated(d, db.decisions[d].obs, db.decisions[d].outcome)
  }

  ghost predicate RowLinked(db: Db, row: Row)
  {
    match row.payload
    case ObservationPersisted(o) => o < |db.observations| && row.key == CanonicalKey(o)
    case DecisionCreated(d, o, outcome) =>
      d < |db.decisions| && row.payload == AnnouncementOf(db, d) && row.key == ShadowKey(o)
  }

  ghost predicate DecisionLinked(policy: Policy, db: Db, d: nat)
    requires d < |db.decisions|
  {
    var decision := db.decisions[d];
    && decision.obs < |db.observations|
    && decision.outcome == Evaluate(policy, db.observations[decision.obs].fact).outcome
    && decision.reasons == Evaluate(policy, db.observations[decision.obs].fact).reasons
  }

  /** One canonical row per observation, one decision and one shadow row per decided observation. */
  ghost predicate Linked(policy: Policy, db: Db)
  {
    && (forall r :: 0 <= r < |db.outbox| ==> RowLinked(db, db.outbox[r]))
    && (forall d :: 0 <= d < |db.decisions| ==> DecisionLinked(policy, db, d))
    && (forall d, e :: 0 <= d < e < |db.decisions| ==> db.decisions[d].obs != db.decisions[e].obs)
    && (forall o :: 0 <= o < |db.observations| ==> HasRow(db.outbox, ObservationPersisted(o)))
    && (forall d :: 0 <= d < |db.decisions| ==> HasRow(db.outbox, AnnouncementOf(db, d)))
    && (forall q, r :: 0 <= q < r < |db.outbox| ==> db.outbox[q].key != db.outbox[r].key)
    && |db.outbox| == |db.observations| + |db.decisions|
  }

  /** Facts, decisions, keys and payloads never change; marks are only ever set. */
  ghost predicate Grows(a: Db, b: Db)
  {
    && |a.observations| <= |b.observations| && |a.decisions| <= |b.decisions| && |a.outbox| <= |b.outbox|
    && (forall o :: 0 <= o < |a.observations| ==>
          b.observations[o].fact == a.observations[o].fact
          && (a.observations[o].processed ==> b.observations[o].processed))
    && (forall d :: 0 <= d < |a.decisions| ==> b.decisions[d] == a.decisions[d])
    && (forall r :: 0 <= r < |a.outbox| ==>
          b.outbox[r].key == a.outbox[r].key && b.outbox[r].payload == a.outbox[r].payload
          && (a.outbox[r].published ==> b.outbox[r].published))
  }

  lemma HasRowGrows(a: seq<Row>, b: seq<Row>)
    requires |a| <= |b| && forall r :: 0 <= r < |a| ==> b[r].payload == a[r].payload
    ensures forall p :: HasRow(a, p) ==> HasRow(b, p)
  {
    forall p | HasRow(a, p) ensures HasRow(b, p) {
      var r :| 0 <= r < |a| && a[r].payload == p;
      assert b[r].payload == p;
    }
  }

  lemma AddObservationLinked(policy: Policy, db: Db, fact: Fact)
    requires Linked(policy, db)
    ensures Linked(policy, AddObservation(db, fact)) && Grows(db, AddObservation(db, fact))
  {
    var db' := AddObservation(db, fact);
    HasRowGrows(db.outbox, db'.outbox);
    assert db'.outbox[|db.outbox|].payload == ObservationPersisted(|db.observations|);
    forall r | 0 <= r < |db'.outbox| ensures RowLinked(db', db'.outbox[r]) {
      if r < |db.outbox| {
        assert RowLinked(db, db.outbox[r]);
      }
    }
    forall d | 0 <= d < |db.decisions| ensures DecisionLinked(policy, db', d) && AnnouncementOf(db', d) == AnnouncementOf(db, d) {
      assert DecisionLinked(policy, db, d);
    }
    forall q | 0 <= q < |db.outbox| ensures db'.outbox[q].key != CanonicalKey(|db.observations|) {
      assert RowLinked(db, db.outbox[q]);
    }
  }

  lemma DecideLinked(policy: Policy, db: Db, payload: Payload)
    requires Linked(policy, db) && Decide(policy, db, payload).Writes?
    ensures var db' := Decide(policy, db, payload).db;
            Linked(policy, db') && Grows(db, db') && payload.ObservationPersisted?
            && Decided(db'.decisions, payload.obs)
            && db'.actions == db.actions && db'.notifications == db.notifications
  {
    var db' := Decide(policy, db, payload).db;
    var o := payload.obs;
    if !Decided(db.decisions, o) {
      var d0 := |db.decisions|;
      HasRowGrows(db.outbox, db'.outbox);
      assert db'.decisions[d0].obs == o;
      assert db'.outbox[|db.outbox|].payload == AnnouncementOf(db', d0);
      forall r | 0 <= r < |db'.outbox| ensures RowLinked(db', db'.outbox[r]) {
        if r < |db.outbox| {
          assert RowLinked(db, db.outbox[r]);
        }
      }
      forall d | 0 <= d < |db'.decisions| ensures DecisionLinked(policy, db', d) {
        if d < d0 {
          assert DecisionLinked(policy, db, d);
        }
      }
      assert forall d :: 0 <= d < d0 ==> AnnouncementOf(db', d) == AnnouncementOf(db, d);
      forall q | 0 <= q < |db.outbox| ensures db'.outbox[q].key != ShadowKey(o) {
        assert RowLinked(db, db.outbox[q]);
      }
    }
  }

  /** Changes that leave facts, decisions, keys and payloads as they are. */
  lemma MarksLinked(policy: Policy, db: Db, db': Db)
    requires Linked(policy, db) && Grows(db, db') && db'.decisions == db.decisions
    requires |db'.outbox| == |db.outbox| && |db'.observations| == |db.observations|
    ensures Linked(policy, db')
  {
    HasRowGrows(db.outbox, db'.outbox);
    forall r | 0 <= r < |db'.outbox| ensures RowLinked(db', db'.outbox[r]) {
      assert RowLinked(db, db.outbox[r]);
    }
    forall d | 0 <= d < |db'.decisions| ensures DecisionLinked(policy, db', d) && AnnouncementOf(db', d) == AnnouncementOf(db, d) {
      assert DecisionLinked(policy, db, d);
    }
  }

  /** Every handler transaction. */
  lemma PlanLinked(policy: Policy, g: Group, db: Db, payload: Payload)
    requires Linked(policy, db)
    ensures var plan := PlanFor(policy, g, db, payload);
            && (plan.Writes? ==> Linked(policy, plan.db) && Grows(db, plan.db)
                                 && plan.db.actions == db.actions && plan.db.notifications == db.notifications)
            && (plan.Starts? ==> g.Notify? && Linked(policy, plan.started) && Grows(db, plan.started)
                                 && plan.started.observations == db.observations
                                 && plan.started.decisions == db.decisions)
  {
    var plan := PlanFor(policy, g, db, payload);
    if plan.Writes? && g.Shadow? {
      DecideLinked(policy, db, payload);
    } else if plan.Writes? {
      MarksLinked(policy, db, plan.db);
    } else if plan.Starts? {
      MarksLinked(policy, db, plan.started);
    }
  }

  lemma HandleLinked(c: Config, s: Sys, w: nat, tx: TxReply)
    requires Linked(c.policy, s.db)
    ensures var db' := DoHandle(c, s, w, tx).db; Linked(c.policy, db') && Grows(s.db, db')
  {
    if w < |s.workers| && s.workers[w].phase.Batch? && HasMessage(s, w, s.workers[w].phase.queue) {
      PlanLinked(c.policy, s.workers[w].group, s.db, s.net.entries[s.workers[w].phase.queue[0]].payload);
    }
  }

  lemma FinishLinked(policy: Policy, s: Sys, w: nat, tx: TxReply)
    requires Linked(policy, s.db)
    ensures var db' := DoFinish(s, w, tx).db; Linked(policy, db') && Grows(s.db, db')
  {
    MarksLinked(policy, s.db, DoFinish(s, w, tx).db);
  }

  lemma NextLinked(c: Config, s: Sys, m: Move)
    requires Linked(c.policy, s.db)
    ensures Linked(c.policy, Next(c, s, m).db) && Grows(s.db, Next(c, s, m).db)
  {
    if PublisherMove(m) {
      PublisherMoves(c, s, m);
      MarksLinked(c.policy, s.db, Next(c, s, m).db);
    } else if ConsumerMove(m) {
      ConsumerMoves(c, s, m);
    } else if m.Ingest? {
      AddObservationLinked(c.policy, s.db, m.fact);
    } else if m.Handle? {
      HandleLinked(c, s, m.w, m.tx);
    } else if m.Finish? {
      FinishLinked(c.policy, s, m.w, m.tx);
    }
  }

  lemma {:induction false} RunLinked(c: Config, s: Sys, moves: seq<Move>)
    requires Linked(c.policy, s.db)
    ensures Linked(c.policy, Run(c, s, moves).db) && Grows(s.db, Run(c, s, moves).db)
  {
    if moves != [] {
      RunLinked(c, s, moves[..|moves| - 1]);
      NextLinked(c, Run(c, s, moves[..|moves| - 1]), moves[|moves| - 1]);
    }
  }
}
