/** Nothing happens on its own: every effect of the event path has the handler call that caused it. */
module Causes {
  import opened Common
  import opened Alerts
  import opened PipelineState
  import opened Frames

  /** The group's handler was called for an entry that announces the observation. */
  predicate CalledFor(s: Sys, g: Group, o: nat)
  {
    exists e :: 0 <= e < |s.net.entries| && s.net.entries[e].payload == ObservationPersisted(o) && (g, e) in s.hist.calls
  }

  /** The notifier was called for an entry that announces the decision. */
  predicate CalledAbout(s: Sys, d: nat)
  {
    exists e :: 0 <= e < |s.net.entries| && s.net.entries[e].payload.DecisionCreated?
                && s.net.entries[e].payload.decision == d && (Notify, e) in s.hist.calls
  }

  predicate InCall(phase: Phase)
  {
    phase.Delivering? || phase.Replied? || phase.Returned? || phase.Raised? || phase.Dying?
  }

  /** Its head is the message of a call that was made, if the worker is past the call's beginning. */
  ghost predicate HeadCalled(s: Sys, worker: Worker)
  {
    InCall(worker.phase) && worker.phase.queue != [] ==> (worker.group, worker.phase.queue[0]) in s.hist.calls
  }

  ghost predicate Caused(s: Sys)
  {
    && (forall o :: 0 <= o < |s.db.observations| && s.db.observations[o].processed ==> CalledFor(s, Canonical, o))
    && (forall d :: 0 <= d < |s.db.decisions| ==> CalledFor(s, Shadow, s.db.decisions[d].obs))
    && (forall key :: key in s.db.actions ==> CalledAbout(s, key.decision))
    && (forall key :: key in s.db.notifications ==> key in s.db.actions)
    && (forall w :: 0 <= w < |s.workers| ==> HeadCalled(s, s.workers[w]))
    && (forall pair :: pair in s.hist.returned || pair in s.hist.dead ==> pair in s.hist.calls)
  }

  ghost predicate CallsGrow(s: Sys, s': Sys)
  {
    EntriesGrow(s.net.entries, s'.net.entries) && forall pair :: pair in s.hist.calls ==> pair in s'.hist.calls
  }

  lemma CalledStays(s: Sys, s': Sys, g: Group, o: nat)
    requires CallsGrow(s, s') && CalledFor(s, g, o)
    ensures CalledFor(s', g, o)
  {
    var e :| 0 <= e < |s.net.entries| && s.net.entries[e].payload == ObservationPersisted(o) && (g, e) in s.hist.calls;
    assert s'.net.entries[e].payload == ObservationPersisted(o);
  }

  lemma AboutStays(s: Sys, s': Sys, d: nat)
    requires CallsGrow(s, s') && CalledAbout(s, d)
    ensures CalledAbout(s', d)
  {
    var e :| 0 <= e < |s.net.entries| && s.net.entries[e].payload.DecisionCreated?
             && s.net.entries[e].payload.decision == d && (Notify, e) in s.hist.calls;
    assert s'.net.entries[e].payload.DecisionCreated?;
  }

  /** What is new in a database: at most a processed mark, a decision or an action, each about the payload. */
  ghost predicate NewsOf(db: Db, db': Db, g: Group, payload: Payload)
  {
    && (forall o :: 0 <= o < |db'.observations| && db'.observations[o].processed ==>
          (o < |db.observations| && db.observations[o].processed) || (g.Canonical? && payload == ObservationPersisted(o)))
    && (forall d :: 0 <= d < |db'.decisions| ==>
          (d < |db.decisions| && db'.decisions[d] == db.decisions[d])
          || (g.Shadow? && payload == ObservationPersisted(db'.decisions[d].obs)))
    && (forall key :: key in db'.actions ==>
          key in db.actions || (g.Notify? && payload.DecisionCreated? && payload.decision == key.decision))
    && (forall key :: key in db'.notifications ==> key in db.notifications || key in db'.actions)
    && db.actions.Keys <= db'.actions.Keys
  }

  lemma PlanNews(policy: Policy, g: Group, db: Db, payload: Payload)
    ensures var plan := PlanFor(policy, g, db, payload);
            && (plan.Writes? ==> NewsOf(db, plan.db, g, payload))
            && (plan.Starts? ==> NewsOf(db, plan.started, g, payload))
  {
  }

  lemma HandleNews(c: Config, s: Sys, w: nat, tx: TxReply)
    requires w < |s.workers| && s.workers[w].phase.Batch? && HasMessage(s, w, s.workers[w].phase.queue)
    ensures var t := DoHandle(c, s, w, tx);
            var head := s.workers[w].phase.queue[0];
            && NewsOf(s.db, t.db, s.workers[w].group, s.net.entries[head].payload) && t.net == s.net
            && t.hist.calls == s.hist.calls + multiset{(s.workers[w].group, head)}
            && t.hist.returned <= s.hist.returned + {(s.workers[w].group, head)} && t.hist.dead == s.hist.dead
            && |t.workers| == |s.workers| && t.workers == s.workers[w := t.workers[w]]
            && t.workers[w].group == s.workers[w].group
            && InCall(t.workers[w].phase) && t.workers[w].phase.queue == s.workers[w].phase.queue
  {
    PlanNews(c.policy, s.workers[w].group, s.db, s.net.entries[s.workers[w].phase.queue[0]].payload);
  }

  lemma HandleCaused(c: Config, s: Sys, w: nat, tx: TxReply)
    requires Caused(s) && w < |s.workers| && s.workers[w].phase.Batch? && HasMessage(s, w, s.workers[w].phase.queue)
    ensures Caused(DoHandle(c, s, w, tx))
  {
    var t := DoHandle(c, s, w, tx);
    var g, head := s.workers[w].group, s.workers[w].phase.queue[0];
    HandleNews(c, s, w, tx);
    assert (g, head) in t.hist.calls;
    forall o | 0 <= o < |t.db.observations| && t.db.observations[o].processed ensures CalledFor(t, Canonical, o) {
      if o < |s.db.observations| && s.db.observations[o].processed {
        CalledStays(s, t, Canonical, o);
      }
    }
    forall d | 0 <= d < |t.db.decisions| ensures CalledFor(t, Shadow, t.db.decisions[d].obs) {
      if d < |s.db.decisions| && t.db.decisions[d] == s.db.decisions[d] {
        CalledStays(s, t, Shadow, s.db.decisions[d].obs);
      }
    }
    forall key | key in t.db.actions ensures CalledAbout(t, key.decision) {
      if key in s.db.actions {
        AboutStays(s, t, key.decision);
      }
    }
  }

  /** Moves that change no more of the database than statuses, and finish calls made before. */
  ghost predicate Uneventful(s: Sys, t: Sys)
  {
    && CallsGrow(s, t) && |t.db.observations| >= |s.db.observations|
    && (forall o :: 0 <= o < |t.db.observations| && t.db.observations[o].processed ==>
          o < |s.db.observations| && s.db.observations[o].processed)
    && t.db.decisions == s.db.decisions && t.db.actions.Keys == s.db.actions.Keys
    && t.db.notifications.Keys <= s.db.notifications.Keys + s.db.actions.Keys
    && |t.workers| == |s.workers|
    && (forall w :: 0 <= w < |t.workers| ==> HeadCalled(t, t.workers[w]))
    && (forall pair :: pair in t.hist.returned || pair in t.hist.dead ==> pair in t.hist.calls)
  }

  lemma UneventfulCaused(s: Sys, t: Sys)
    requires Caused(s) && Uneventful(s, t)
    ensures Caused(t)
  {
    forall o | 0 <= o < |t.db.observations| && t.db.observations[o].processed ensures CalledFor(t, Canonical, o) {
      CalledStays(s, t, Canonical, o);
    }
    forall d | 0 <= d < |t.db.decisions| ensures CalledFor(t, Shadow, t.db.decisions[d].obs) {
      CalledStays(s, t, Shadow, s.db.decisions[d].obs);
    }
    forall key | key in t.db.actions ensures CalledAbout(t, key.decision) {
      assert key in s.db.actions.Keys;
      AboutStays(s, t, key.decision);
    }
    forall key | key in t.db.notifications ensures key in t.db.actions {
      assert key in t.db.notifications.Keys && key in t.db.actions.Keys;
    }
  }

  /** One worker moves on with the call it is in, and no more of the database changes than statuses. */
  ghost predicate MovesOn(s: Sys, t: Sys, w: nat)
  {
    && t.net == s.net && t.hist.calls == s.hist.calls && t.hist.dead == s.hist.dead
    && t.db.observations == s.db.observations && t.db.decisions == s.db.decisions
    && t.db.actions.Keys == s.db.actions.Keys && t.db.notifications.Keys == s.db.notifications.Keys
    && w < |s.workers| && |t.workers| == |s.workers| && t.workers == s.workers[w := t.workers[w]]
    && t.workers[w].group == s.workers[w].group
    && (InCall(t.workers[w].phase) ==> InCall(s.workers[w].phase) && t.workers[w].phase.queue == s.workers[w].phase.queue)
    && (forall pair :: pair in t.hist.returned ==>
          pair in s.hist.returned
          || (InCall(s.workers[w].phase) && s.workers[w].phase.queue != [] && pair == (s.workers[w].group, s.workers[w].phase.queue[0])))
  }

  lemma MovedOnUneventful(s: Sys, t: Sys, w: nat)
    requires Caused(s) && MovesOn(s, t, w)
    ensures Uneventful(s, t)
  {
    assert HeadCalled(s, s.workers[w]);
    forall v | 0 <= v < |t.workers| ensures HeadCalled(t, t.workers[v]) {
      assert HeadCalled(s, s.workers[v]);
    }
  }

  lemma FinishKeys(db: Db, key: ActionKey, reply: DeliveryReply)
    ensures var plan := FinishDelivery(db, key, reply);
            plan.Writes? ==>
              && plan.db.observations == db.observations && plan.db.decisions == db.decisions
              && plan.db.actions.Keys == db.actions.Keys && plan.db.notifications.Keys == db.notifications.Keys
  {
    if key in db.actions {
      assert db.actions.Keys + {key} == db.actions.Keys;
    }
    if key in db.notifications {
      assert db.notifications.Keys + {key} == db.notifications.Keys;
    }
  }

  lemma FinishMovesOn(s: Sys, w: nat, tx: TxReply)
    requires w < |s.workers| && s.workers[w].phase.Replied? && HasMessage(s, w, s.workers[w].phase.queue)
    ensures MovesOn(s, DoFinish(s, w, tx), w)
  {
    FinishKeys(s.db, s.workers[w].phase.key, s.workers[w].phase.reply);
  }

  lemma InCallMoves(c: Config, s: Sys, m: Move)
    requires Caused(s) && (m.Deliver? || m.Finish? || m.Abort?) && Next(c, s, m) != s
    ensures Uneventful(s, Next(c, s, m))
  {
    if m.Finish? {
      FinishMovesOn(s, m.w, m.tx);
    } else {
      assert MovesOn(s, Next(c, s, m), m.w);
    }
    MovedOnUneventful(s, Next(c, s, m), m.w);
  }

  lemma ConsumerCaused(c: Config, s: Sys, m: Move)
    requires Caused(s) && ConsumerMove(m)
    ensures Uneventful(s, Next(c, s, m))
  {
    var t := Next(c, s, m);
    ConsumerMoves(c, s, m);
    assert m.w < |s.workers| ==> HeadCalled(s, s.workers[m.w]);
    forall v | 0 <= v < |t.workers| ensures HeadCalled(t, t.workers[v]) {
      assert HeadCalled(s, s.workers[v]);
    }
  }

  lemma PublisherCaused(c: Config, s: Sys, m: Move)
    requires Caused(s) && (PublisherMove(m) || m.Ingest?)
    ensures Uneventful(s, Next(c, s, m))
  {
    if PublisherMove(m) {
      PublisherMoves(c, s, m);
    }
    forall v | 0 <= v < |s.workers| ensures HeadCalled(Next(c, s, m), s.workers[v]) {
      assert HeadCalled(s, s.workers[v]);
    }
  }

  lemma NextCaused(c: Config, s: Sys, m: Move)
    requires Caused(s)
    ensures Caused(Next(c, s, m))
  {
    if m.Handle? {
      if m.w < |s.workers| && s.workers[m.w].phase.Batch? && HasMessage(s, m.w, s.workers[m.w].phase.queue) {
        HandleCaused(c, s, m.w, m.tx);
      }
    } else if Next(c, s, m) != s {
      if ConsumerMove(m) {
        ConsumerCaused(c, s, m);
      } else if PublisherMove(m) || m.Ingest? {
        PublisherCaused(c, s, m);
      } else {
        InCallMoves(c, s, m);
      }
      UneventfulCaused(s, Next(c, s, m));
    }
  }

  lemma {:induction false} RunCaused(c: Config, s0: Sys, moves: seq<Move>)
    requires Start(s0)
    ensures Caused(Run(c, s0, moves))
  {
    if moves != [] {
      RunCaused(c, s0, moves[..|moves| - 1]);
      NextCaused(c, Run(c, s0, moves[..|moves| - 1]), moves[|moves| - 1]);
    }
  }

  /**
   * In every run: what is processed was handed to the canonical handler, what is decided to the shadow
   * handler, what has an action or a notification to the notifier; and only calls that were made return
   * or end in the dead letter stream.
   */
  lemma NothingUncaused(c: Config, s0: Sys, moves: seq<Move>)
    requires Start(s0)
    ensures var s := Run(c, s0, moves);
            && (forall o :: 0 <= o < |s.db.observations| && s.db.observations[o].processed ==> CalledFor(s, Canonical, o))
            && (forall d :: 0 <= d < |s.db.decisions| ==> CalledFor(s, Shadow, s.db.decisions[d].obs))
            && (forall key :: key in s.db.actions || key in s.db.notifications ==> CalledAbout(s, key.decision))
            && (forall pair :: pair in s.hist.returned || pair in s.hist.dead ==> pair in s.hist.calls)
  {
    RunCaused(c, s0, moves);
  }
}
