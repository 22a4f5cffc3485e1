/** At-least-once delivery with crashes turned into exactly-once effects. */
module ClosedLoop {
  import opened Common
  import opened Alerts
  import opened PipelineState
  import opened Records
  import opened Notifications
  import opened Frames
  import NoLoss

  predicate OneNotifier(workers: seq<Worker>)
  {
    forall v, w :: 0 <= v < w < |workers| ==> !(workers[v].group.Notify? && workers[w].group.Notify?)
  }

  predicate Finished(db: Db, key: ActionKey)
  {
    key in db.actions && (db.actions[key].status == Succeeded || db.actions[key].status == PermanentFailure)
  }

  /** What a normal return of a group's handler promises for good. */
  ghost predicate Effect(db: Db, g: Group, payload: Payload)
  {
    match payload
    case ObservationPersisted(o) =>
      (g.Canonical? ==> o < |db.observations| && db.observations[o].processed)
      && (g.Shadow? ==> Decided(db.decisions, o))
    case DecisionCreated(d, _, outcome) => g.Notify? && Notifies(outcome) ==> Finished(db, KeyOf(d, outcome))
  }

  ghost predicate EffectsOk(s: Sys)
  {
    forall g, e :: (g, e) in s.hist.returned ==> e < |s.net.entries| && Effect(s.db, g, s.net.entries[e].payload)
  }

  ghost predicate SendsRunning(s: Sys, worker: Worker)
  {
    worker.phase.Delivering? || worker.phase.Replied? ==>
      worker.phase.key in s.db.actions && s.db.actions[worker.phase.key].status.Running?
  }

  ghost predicate SendingOk(s: Sys)
  {
    forall w :: 0 <= w < |s.workers| ==> SendsRunning(s, s.workers[w])
  }

  predicate InStream(entries: seq<Envelope>, payload: Payload)
  {
    exists e :: 0 <= e < |entries| && entries[e].payload == payload
  }

  ghost predicate AnnouncedOk(s: Sys)
  {
    forall key :: key in s.db.actions ==>
      KeyOk(s.db, key) && InStream(s.net.entries, AnnouncementOf(s.db, key.decision))
  }

  ghost predicate LoopInv(c: Config, s: Sys)
  {
    Ready(c, s) && OneNotifier(s.workers) && EffectsOk(s) && SendingOk(s) && AnnouncedOk(s)
  }

  // ------------------------------------------------------------- terminal statuses stay

  ghost predicate TerminalKept(db: Db, db': Db)
  {
    forall key :: Finished(db, key) ==> key in db'.actions && db'.actions[key] == db.actions[key]
  }

  lemma NextGroups(c: Config, s: Sys, m: Move)
    requires OneNotifier(s.workers)
    ensures OneNotifier(Next(c, s, m).workers)
  {
    ProcessesStay(c, s, m);
  }

  lemma PlanTerminal(policy: Policy, g: Group, db: Db, payload: Payload)
    ensures var plan := PlanFor(policy, g, db, payload);
            && (plan.Writes? ==> TerminalKept(db, plan.db)) && (plan.Starts? ==> TerminalKept(db, plan.started))
  {
  }

  lemma HandleTerminal(c: Config, s: Sys, w: nat, tx: TxReply)
    ensures TerminalKept(s.db, DoHandle(c, s, w, tx).db) && DoHandle(c, s, w, tx).hist.sent == s.hist.sent
  {
    if w < |s.workers| && s.workers[w].phase.Batch? && HasMessage(s, w, s.workers[w].phase.queue) {
      PlanTerminal(c.policy, s.workers[w].group, s.db, s.net.entries[s.workers[w].phase.queue[0]].payload);
    }
  }

  lemma NextTerminal(c: Config, s: Sys, m: Move)
    requires SendingOk(s)
    ensures TerminalKept(s.db, Next(c, s, m).db)
    ensures forall key :: Finished(s.db, key) ==> Next(c, s, m).hist.sent[key] == s.hist.sent[key]
  {
    if PublisherMove(m) {
      PublisherMoves(c, s, m);
    } else if ConsumerMove(m) {
      ConsumerMoves(c, s, m);
    } else if m.Handle? {
      HandleTerminal(c, s, m.w, m.tx);
    } else if m.Finish? || m.Deliver? {
      assert m.w < |s.workers| ==> SendsRunning(s, s.workers[m.w]);
    }
  }

  /** With one notifier no one else is sending while it starts or finishes. */
  lemma OthersIdle(s: Sys, w: nat)
    requires OneNotifier(s.workers) && NotesOk(s) && w < |s.workers| && s.workers[w].group.Notify?
    ensures forall v :: 0 <= v < |s.workers| && v != w ==>
              !s.workers[v].phase.Delivering? && !s.workers[v].phase.Replied?
  {
    forall v | 0 <= v < |s.workers| && v != w
      ensures !s.workers[v].phase.Delivering? && !s.workers[v].phase.Replied?
    {
      assert SenderOk(s, s.workers[v]);
    }
  }

  lemma SendingFrame(s: Sys, s': Sys)
    requires SendingOk(s) && s'.db.actions == s.db.actions && |s'.workers| == |s.workers|
    requires forall v :: 0 <= v < |s.workers| && (s'.workers[v].phase.Delivering? || s'.workers[v].phase.Replied?) ==>
               (s.workers[v].phase.Delivering? || s.workers[v].phase.Replied?)
               && s'.workers[v].phase.key == s.workers[v].phase.key
    ensures SendingOk(s')
  {
    forall v | 0 <= v < |s'.workers| ensures SendsRunning(s', s'.workers[v]) {
      assert SendsRunning(s, s.workers[v]);
    }
  }

  lemma HandleSending(c: Config, s: Sys, w: nat, tx: TxReply)
    requires SendingOk(s) && OneNotifier(s.workers) && NotesOk(s) && Linked(c.policy, s.db)
    ensures SendingOk(DoHandle(c, s, w, tx))
  {
    var s' := DoHandle(c, s, w, tx);
    if w < |s.workers| && s.workers[w].phase.Batch? && HasMessage(s, w, s.workers[w].phase.queue) {
      var payload := s.net.entries[s.workers[w].phase.queue[0]].payload;
      PlanLinked(c.policy, s.workers[w].group, s.db, payload);
      if PlanFor(c.policy, s.workers[w].group, s.db, payload).Starts? && !tx.RollsBack? {
        OthersIdle(s, w);
        StartShape(c, s, w, tx);
        StartSending(s, s', w);
      } else {
        HandleShape(c, s, w, tx);
        SendingFrame(s, s');
      }
    }
  }

  lemma StartSending(s: Sys, s': Sys, w: nat)
    requires w < |s.workers| && |s'.workers| == |s.workers| && s'.workers == s.workers[w := s'.workers[w]]
    requires forall v :: 0 <= v < |s.workers| && v != w ==>
               !s.workers[v].phase.Delivering? && !s.workers[v].phase.Replied?
    requires SendsRunning(s', s'.workers[w])
    ensures SendingOk(s')
  {
  }

  lemma FinishSending(s: Sys, w: nat, tx: TxReply)
    requires SendingOk(s) && OneNotifier(s.workers) && NotesOk(s)
    ensures SendingOk(DoFinish(s, w, tx))
  {
    var s' := DoFinish(s, w, tx);
    if w < |s.workers| && s.workers[w].phase.Replied? && HasMessage(s, w, s.workers[w].phase.queue) {
      assert SenderOk(s, s.workers[w]);
      OthersIdle(s, w);
      FinishShape(s, w, tx);
      assert forall v :: 0 <= v < |s'.workers| ==> SendsRunning(s', s'.workers[v]);
    }
  }

  lemma QuietSending(c: Config, s: Sys, m: Move)
    requires SendingOk(s) && !m.Handle? && !m.Finish?
    ensures SendingOk(Next(c, s, m))
  {
    SendingFrame(s, Next(c, s, m));
  }

  lemma NextSending(c: Config, s: Sys, m: Move)
    requires SendingOk(s) && OneNotifier(s.workers) && NotesOk(s) && Linked(c.policy, s.db)
    ensures SendingOk(Next(c, s, m))
  {
    if m.Handle? {
      HandleSending(c, s, m.w, m.tx);
    } else if m.Finish? {
      FinishSending(s, m.w, m.tx);
    } else {
      QuietSending(c, s, m);
    }
  }

  // ------------------------------------------------------------- effects

  lemma EffectStays(db: Db, db': Db, g: Group, payload: Payload)
    requires Grows(db, db') && TerminalKept(db, db') && Effect(db, g, payload)
    ensures Effect(db', g, payload)
  {
    if payload.ObservationPersisted? && g.Shadow? {
      var d :| 0 <= d < |db.decisions| && db.decisions[d].obs == payload.obs;
      assert db'.decisions[d].obs == payload.obs;
    }
  }

  lemma EffectsFrame(s: Sys, s': Sys)
    requires EffectsOk(s) && Grows(s.db, s'.db) && TerminalKept(s.db, s'.db)
    requires |s.net.entries| <= |s'.net.entries|
    requires forall e :: 0 <= e < |s.net.entries| ==> s'.net.entries[e] == s.net.entries[e]
    requires forall g, e :: (g, e) in s'.hist.returned && (g, e) !in s.hist.returned ==>
               e < |s'.net.entries| && Effect(s'.db, g, s'.net.entries[e].payload)
    ensures EffectsOk(s')
  {
    forall g, e | (g, e) in s'.hist.returned
      ensures e < |s'.net.entries| && Effect(s'.db, g, s'.net.entries[e].payload)
    {
      if (g, e) in s.hist.returned {
        EffectStays(s.db, s'.db, g, s.net.entries[e].payload);
      }
    }
  }

  lemma HandleEffect(c: Config, s: Sys, w: nat, tx: TxReply)
    requires Linked(c.policy, s.db)
    requires w < |s.workers| && s.workers[w].phase.Batch? && HasMessage(s, w, s.workers[w].phase.queue)
    ensures var s' := DoHandle(c, s, w, tx);
            var head := (s.workers[w].group, s.workers[w].phase.queue[0]);
            && s'.net == s.net
            && (s'.hist.returned == s.hist.returned
                || (s'.hist.returned == s.hist.returned + {head}
                    && Effect(s'.db, head.0, s.net.entries[head.1].payload)))
  {
    var payload := s.net.entries[s.workers[w].phase.queue[0]].payload;
    if s.workers[w].group.Shadow? && Decide(c.policy, s.db, payload).Writes? {
      DecideLinked(c.policy, s.db, payload);
    }
  }

  lemma FinishEffect(s: Sys, w: nat, tx: TxReply)
    requires NotesOk(s) && w < |s.workers| && s.workers[w].phase.Replied?
    requires HasMessage(s, w, s.workers[w].phase.queue)
    ensures var s' := DoFinish(s, w, tx);
            var head := (s.workers[w].group, s.workers[w].phase.queue[0]);
            && s'.net == s.net
            && (s'.hist.returned == s.hist.returned
                || (s'.hist.returned == s.hist.returned + {head}
                    && Effect(s'.db, head.0, s.net.entries[head.1].payload)))
  {
    assert SenderOk(s, s.workers[w]);
  }

  /** The returns recorded by a move are of the message at the head of the moving worker's queue. */
  lemma NewReturns(c: Config, s: Sys, m: Move)
    requires Linked(c.policy, s.db) && NotesOk(s)
    ensures var s' := Next(c, s, m);
            forall g, e :: (g, e) in s'.hist.returned && (g, e) !in s.hist.returned ==>
              e < |s'.net.entries| && Effect(s'.db, g, s'.net.entries[e].payload)
  {
    if PublisherMove(m) {
      PublisherMoves(c, s, m);
    } else if ConsumerMove(m) {
      ConsumerMoves(c, s, m);
    } else if m.Handle? && m.w < |s.workers| && s.workers[m.w].phase.Batch? && HasMessage(s, m.w, s.workers[m.w].phase.queue) {
      HandleEffect(c, s, m.w, m.tx);
    } else if m.Finish? && m.w < |s.workers| && s.workers[m.w].phase.Replied?
              && HasMessage(s, m.w, s.workers[m.w].phase.queue) {
      FinishEffect(s, m.w, m.tx);
    }
  }

  lemma NextEffects(c: Config, s: Sys, m: Move)
    requires EffectsOk(s) && SendingOk(s) && Linked(c.policy, s.db) && NotesOk(s)
    ensures EffectsOk(Next(c, s, m))
  {
    NextLinked(c, s, m);
    NextTerminal(c, s, m);
    NewReturns(c, s, m);
    ProcessesStay(c, s, m);
    EffectsFrame(s, Next(c, s, m));
  }

  /** Only starting a delivery adds an action, and then its announcement is being handled. */
  lemma HandleAction(c: Config, s: Sys, w: nat, tx: TxReply, key: ActionKey)
    requires EntriesLinked(s) && key in DoHandle(c, s, w, tx).db.actions && key !in s.db.actions
    ensures KeyOk(s.db, key) && InStream(s.net.entries, AnnouncementOf(s.db, key.decision))
  {
    assert RowOfPayload(s, s.net.entries[s.workers[w].phase.queue[0]].payload);
  }

  lemma NewAction(c: Config, s: Sys, m: Move, key: ActionKey)
    requires EntriesLinked(s) && key in Next(c, s, m).db.actions
    ensures key in s.db.actions || (KeyOk(s.db, key) && InStream(s.net.entries, AnnouncementOf(s.db, key.decision)))
  {
    if PublisherMove(m) {
      PublisherMoves(c, s, m);
    } else if ConsumerMove(m) {
      ConsumerMoves(c, s, m);
    } else if m.Handle? && key !in s.db.actions {
      HandleAction(c, s, m.w, m.tx, key);
    }
  }

  lemma NextAnnounced(c: Config, s: Sys, m: Move)
    requires AnnouncedOk(s) && EntriesLinked(s) && Linked(c.policy, s.db)
    ensures AnnouncedOk(Next(c, s, m))
  {
    var s' := Next(c, s, m);
    NextLinked(c, s, m);
    ProcessesStay(c, s, m);
    forall key | key in s'.db.actions
      ensures KeyOk(s'.db, key) && InStream(s'.net.entries, AnnouncementOf(s'.db, key.decision))
    {
      NewAction(c, s, m, key);
      KeyGrows(s.db, s'.db, key);
      StreamGrows(s.net.entries, s'.net.entries, AnnouncementOf(s.db, key.decision));
    }
  }

  lemma StreamGrows(a: seq<Envelope>, b: seq<Envelope>, payload: Payload)
    requires |a| <= |b| && (forall e :: 0 <= e < |a| ==> b[e] == a[e]) && InStream(a, payload)
    ensures InStream(b, payload)
  {
    var e :| 0 <= e < |a| && a[e].payload == payload;
    assert b[e].payload == payload;
  }

  lemma NextLoop(c: Config, s: Sys, m: Move)
    requires LoopInv(c, s)
    ensures LoopInv(c, Next(c, s, m))
  {
    NextReady(c, s, m);
    NextGroups(c, s, m);
    NextEffects(c, s, m);
    NextSending(c, s, m);
    EntriesAreLinked(c.policy, s);
    NextAnnounced(c, s, m);
  }

  lemma {:induction false} RunLoop(c: Config, s: Sys, moves: seq<Move>)
    requires LoopInv(c, s)
    ensures LoopInv(c, Run(c, s, moves))
  {
    if moves != [] {
      RunLoop(c, s, moves[..|moves| - 1]);
      NextLoop(c, Run(c, s, moves[..|moves| - 1]), moves[|moves| - 1]);
    }
  }

  lemma StartLoop(c: Config, s: Sys)
    requires Start(s) && OneNotifier(s.workers)
    ensures LoopInv(c, s)
  {
    StartReady(c, s);
  }

  // ------------------------------------------------------------- theorems

  /** The group has seen the whole stream and has nothing pending. */
  predicate Drained(s: Sys, g: Group)
  {
    g in s.net.groups && s.net.groups[g].last == |s.net.entries| && s.net.groups[g].pending == map[]
  }

  /** The group's handler returned for some entry carrying this payload. */
  lemma DrainedReturns(c: Config, s: Sys, g: Group, payload: Payload)
    requires LoopInv(c, s) && Drained(s, g) && s.net.dlq == []
    requires forall r :: 0 <= r < |s.db.outbox| ==> s.db.outbox[r].published
    requires HasRow(s.db.outbox, payload)
    ensures Effect(s.db, g, payload)
  {
    var r :| 0 <= r < |s.db.outbox| && s.db.outbox[r].payload == payload;
    assert NoLoss.Streamed(s.net.entries, r);
    var e :| 0 <= e < |s.net.entries| && s.net.entries[e].row == r;
    assert s.net.entries[e] == EnvelopeOf(s.db.outbox, r);
    assert NoLoss.Accounted(s, g, e);
    assert (g, e) in s.hist.dead ==> NoLoss.InDlq(s.net, e);
  }

  /** Exactly one decision about the observation, and it is the policy's. */
  ghost predicate DecidedOnce(policy: Policy, db: Db, o: nat)
    requires o < |db.observations|
  {
    exists d :: 0 <= d < |db.decisions| && db.decisions[d].obs == o
                && db.decisions[d].outcome == Evaluate(policy, db.observations[o].fact).outcome
                && forall e :: 0 <= e < |db.decisions| && db.decisions[e].obs == o ==> e == d
  }

  /** Exactly one action and one notification for the decision, in the same terminal status. */
  ghost predicate NotifiedOnce(db: Db, d: nat)
    requires d < |db.decisions|
  {
    var key := ActionKey(d, if db.decisions[d].outcome == Escalate then Escalated else Initial);
    && key in db.actions && (db.actions[key].status == Succeeded || db.actions[key].status == PermanentFailure)
    && key in db.notifications && db.notifications[key] == db.actions[key].status
    && (forall k :: k in db.actions && k.decision == d ==> k == key)
    && (forall k :: k in db.notifications && k.decision == d ==> k == key)
  }

  /**
   * The closed loop. Take any run from an empty system, with crashes anywhere and one notification
   * worker. When every row is published and the dead letter stream is empty, each group that has
   * seen the whole stream has had exactly its effects: every observation is processed; every
   * observation has exactly one decision, with the outcome of the policy; every decision to notify
   * has exactly one action, succeeded or permanently failed, and one notification in that same status.
   * No other decision ever has an action or a notification.
   */
  lemma ClosedLoop(c: Config, s0: Sys, moves: seq<Move>)
    requires Start(s0) && OneNotifier(s0.workers)
    requires var s := Run(c, s0, moves);
             (forall r :: 0 <= r < |s.db.outbox| ==> s.db.outbox[r].published) && s.net.dlq == []
    ensures var s := Run(c, s0, moves);
            && (Drained(s, Canonical) ==> forall o :: 0 <= o < |s.db.observations| ==> s.db.observations[o].processed)
            && (Drained(s, Shadow) ==>
                  forall o :: 0 <= o < |s.db.observations| ==> DecidedOnce(c.policy, s.db, o))
            && (Drained(s, Notify) ==>
                  forall d :: 0 <= d < |s.db.decisions| && (s.db.decisions[d].outcome == Send || s.db.decisions[d].outcome == Escalate) ==>
                    NotifiedOnce(s.db, d))
            && (forall key :: key in s.db.actions || key in s.db.notifications ==>
                  key.decision < |s.db.decisions|
                  && (s.db.decisions[key.decision].outcome == Send || s.db.decisions[key.decision].outcome == Escalate))
  {
    var s := Run(c, s0, moves);
    StartLoop(c, s0);
    RunLoop(c, s0, moves);
    if Drained(s, Canonical) {
      forall o | 0 <= o < |s.db.observations| ensures s.db.observations[o].processed {
        DrainedReturns(c, s, Canonical, ObservationPersisted(o));
      }
    }
    if Drained(s, Shadow) {
      forall o | 0 <= o < |s.db.observations|
        ensures DecidedOnce(c.policy, s.db, o)
      {
        DrainedReturns(c, s, Shadow, ObservationPersisted(o));
        var d :| 0 <= d < |s.db.decisions| && s.db.decisions[d].obs == o;
        assert DecisionLinked(c.policy, s.db, d);
      }
    }
    if Drained(s, Notify) {
      forall d | 0 <= d < |s.db.decisions| && (s.db.decisions[d].outcome == Send || s.db.decisions[d].outcome == Escalate)
        ensures NotifiedOnce(s.db, d)
      {
        DrainedReturns(c, s, Notify, AnnouncementOf(s.db, d));
        assert ActionRowOk(s.db, KeyOf(d, s.db.decisions[d].outcome));
        forall k | k in s.db.actions && k.decision == d ensures k == KeyOf(d, s.db.decisions[d].outcome) {
          assert ActionRowOk(s.db, k);
        }
      }
    }
    OnlyToNotify(s);
  }

  lemma OnlyToNotify(s: Sys)
    requires NotesOk(s)
    ensures forall key :: key in s.db.actions || key in s.db.notifications ==>
              key.decision < |s.db.decisions|
              && (s.db.decisions[key.decision].outcome == Send || s.db.decisions[key.decision].outcome == Escalate)
  {
    forall key | key in s.db.actions || key in s.db.notifications
      ensures key.decision < |s.db.decisions|
              && (s.db.decisions[key.decision].outcome == Send || s.db.decisions[key.decision].outcome == Escalate)
    {
      assert key in s.db.actions;
      assert ActionRowOk(s.db, key);
    }
  }

  lemma {:induction false} FinishedStays(c: Config, s: Sys, more: seq<Move>, key: ActionKey)
    requires LoopInv(c, s) && Finished(s.db, key)
    ensures var t := Run(c, s, more);
            key in t.db.actions && t.db.actions[key] == s.db.actions[key] && t.hist.sent[key] == s.hist.sent[key]
  {
    if more != [] {
      var t := Run(c, s, more[..|more| - 1]);
      FinishedStays(c, s, more[..|more| - 1], key);
      RunLoop(c, s, more[..|more| - 1]);
      NextTerminal(c, t, more[|more| - 1]);
    }
  }

  /** A terminal action never changes again and is never delivered again. */
  lemma TerminalIsFinal(c: Config, s0: Sys, moves: seq<Move>, more: seq<Move>, key: ActionKey)
    requires Start(s0) && OneNotifier(s0.workers)
    requires Finished(Run(c, s0, moves).db, key)
    ensures var s := Run(c, s0, moves);
            var t := Run(c, s0, moves + more);
            && key in t.db.actions && t.db.actions[key] == s.db.actions[key]
            && t.hist.sent[key] == s.hist.sent[key]
  {
    StartLoop(c, s0);
    RunLoop(c, s0, moves);
    FinishedStays(c, Run(c, s0, moves), more, key);
    RunAppend(c, s0, moves, more);
  }

  function Crashes(moves: seq<Move>): nat
  {
    if moves == [] then 0
    else
      var m := moves[|moves| - 1];
      Crashes(moves[..|moves| - 1]) + (if m.Abort? || (m.Handle? && m.tx.CommitsThenRaises?) then 1 else 0)
  }

  lemma {:induction false} LostAreCrashes(c: Config, s0: Sys, moves: seq<Move>, key: ActionKey)
    requires Start(s0)
    ensures Run(c, s0, moves).hist.lost[key] <= Crashes(moves)
  {
    if moves != [] {
      LostAreCrashes(c, s0, moves[..|moves| - 1], key);
      NextLost(c, Run(c, s0, moves[..|moves| - 1]), moves[|moves| - 1], key);
    }
  }

  lemma NextLost(c: Config, s: Sys, m: Move, key: ActionKey)
    ensures Next(c, s, m).hist.lost[key]
            <= s.hist.lost[key] + (if m.Abort? || (m.Handle? && m.tx.CommitsThenRaises?) then 1 else 0)
  {
    if PublisherMove(m) {
      PublisherMoves(c, s, m);
    } else if ConsumerMove(m) {
      ConsumerMoves(c, s, m);
    }
  }

  lemma AtMostOneInDelivery(s: Sys, key: ActionKey)
    requires NotesOk(s) && OneNotifier(s.workers)
    ensures InDelivery(s.workers, key) <= 1
  {
    if w :| 0 <= w < |s.workers| && s.workers[w].phase.Delivering? {
      assert SenderOk(s, s.workers[w]);
      OthersIdle(s, w);
      var idle := s.workers[w := s.workers[w].(phase := Idle)];
      InDeliveryUpdate(s.workers, w, s.workers[w].(phase := Idle), key);
      InDeliveryNone(idle, key);
    } else {
      InDeliveryNone(s.workers, key);
    }
  }

  /**
   * Attempts of an action, at any point of any run: the webhook calls made, plus the starts whose
   * call a crash swallowed, plus one while a worker stands between the two. All calls carry the same
   * message, and it is the one the stored action shows.
   */
  lemma AttemptsCountCalls(c: Config, s0: Sys, moves: seq<Move>, key: ActionKey)
    requires Start(s0) && OneNotifier(s0.workers)
    ensures var s := Run(c, s0, moves);
            && s.hist.sent[key] <= Attempts(s.db, key) <= s.hist.sent[key] + Crashes(moves) + InDelivery(s.workers, key)
            && Attempts(s.db, key) == s.hist.sent[key] + s.hist.lost[key] + InDelivery(s.workers, key)
            && InDelivery(s.workers, key) <= 1
            && (forall m :: m in s.hist.messages && m.key == key && key in s.db.actions ==> m == s.db.actions[key].payload)
            && (forall m, n :: m in s.hist.messages && n in s.hist.messages && m.key == n.key ==> m == n)
  {
    var s := Run(c, s0, moves);
    StartLoop(c, s0);
    RunLoop(c, s0, moves);
    LostAreCrashes(c, s0, moves, key);
    AtMostOneInDelivery(s, key);
    assert AttemptsOk(s, key);
    assert forall m :: m in s.hist.messages ==> MessageOk(s.db, m);
    assert key in s.db.actions ==> ActionRowOk(s.db, key);
  }

  lemma WaitsNowhere(s: Sys, key: ActionKey)
    requires EffectsOk(s) && AnnouncedOk(s) && NoLoss.GroupsOk(s) && NoLoss.DeadOk(s)
    requires Notify in s.net.groups && key in s.db.actions && !Terminal(s.db.actions[key].status)
    requires KeyOk(s.db, key)
    requires forall e :: 0 <= e < |s.net.entries| && s.net.entries[e].payload == AnnouncementOf(s.db, key.decision) ==>
               e < s.net.groups[Notify].last && e !in s.net.groups[Notify].pending
    ensures exists e :: 0 <= e < |s.net.entries| && s.net.entries[e].payload == AnnouncementOf(s.db, key.decision)
                        && (Notify, e) in s.hist.dead && NoLoss.InDlq(s.net, e)
  {
    assert InStream(s.net.entries, AnnouncementOf(s.db, key.decision));
    var e :| 0 <= e < |s.net.entries| && s.net.entries[e].payload == AnnouncementOf(s.db, key.decision);
    assert NoLoss.Accounted(s, Notify, e);
    assert !Effect(s.db, Notify, s.net.entries[e].payload);
  }

  /** An action left short of a terminal status, with none of its envelopes waiting, is a dead letter. */
  lemma UnfinishedIsDeadLetter(c: Config, s0: Sys, moves: seq<Move>, key: ActionKey)
    requires Start(s0) && OneNotifier(s0.workers)
    requires var s := Run(c, s0, moves);
             && Notify in s.net.groups && key in s.db.actions && !Terminal(s.db.actions[key].status)
             && key.decision < |s.db.decisions|
             && forall e :: 0 <= e < |s.net.entries| && s.net.entries[e].payload == AnnouncementOf(s.db, key.decision) ==>
                  e < s.net.groups[Notify].last && e !in s.net.groups[Notify].pending
    ensures var s := Run(c, s0, moves);
            exists e :: 0 <= e < |s.net.entries| && s.net.entries[e].payload == AnnouncementOf(s.db, key.decision)
                        && (Notify, e) in s.hist.dead && NoLoss.InDlq(s.net, e)
  {
    StartLoop(c, s0);
    RunLoop(c, s0, moves);
    assert KeyOk(Run(c, s0, moves).db, key);
    WaitsNowhere(Run(c, s0, moves), key);
  }
}
