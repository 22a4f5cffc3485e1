/** What the webhook answered is what actions and notifications say, no more and no less. */
module Answers {
  import opened Common
  import opened Alerts
  import opened PipelineState
  import opened Records
  import opened Notifications
  import opened Frames
  import NoLoss

  /** The status is the one for this answer. */
  predicate Tells(reply: DeliveryReply, status: ActionStatus)
  {
    && (status == Succeeded <==> reply == Accepted)
    && (status == RetryableFailure <==> reply == Retryable)
    && (status == PermanentFailure <==> reply == Permanent)
  }

  /** An answer is written to the action and its notification alone, and nothing else of the database moves. */
  ghost predicate Written(db: Db, db': Db, key: ActionKey, reply: DeliveryReply)
  {
    && key in db.actions && key in db'.actions && key in db'.notifications
    && Tells(reply, db'.actions[key].status) && db'.notifications[key] == db'.actions[key].status
    && db'.actions[key].attempts == db.actions[key].attempts && db'.actions[key].payload == db.actions[key].payload
    && db'.actions.Keys == db.actions.Keys && db'.notifications.Keys == db.notifications.Keys
    && (forall k :: k in db.actions && k != key ==> db'.actions[k] == db.actions[k])
    && (forall k :: k in db.notifications && k != key ==> db'.notifications[k] == db.notifications[k])
    && db'.observations == db.observations && db'.decisions == db.decisions && db'.outbox == db.outbox
  }

  /** A worker with an answer in hand has its message, its action and its notification. */
  lemma HoldsAll(s: Sys, w: nat)
    requires NoLoss.Inv(s) && NotesOk(s) && w < |s.workers| && s.workers[w].phase.Replied?
    ensures var ph := s.workers[w].phase;
            HasMessage(s, w, ph.queue) && ph.key in s.db.actions && ph.key in s.db.notifications && ph.reply != Unexpected
  {
    assert SenderOk(s, s.workers[w]);
    assert NoLoss.WorkerOk(s.net.groups, s.hist.returned, s.workers[w]);
    assert ActionRowOk(s.db, s.workers[w].phase.key);
  }

  lemma FinishWrites(db: Db, key: ActionKey, reply: DeliveryReply)
    requires key in db.actions && key in db.notifications && !reply.Unexpected?
    ensures FinishDelivery(db, key, reply).Writes? && Written(db, FinishDelivery(db, key, reply).db, key, reply)
  {
    assert db.actions.Keys + {key} == db.actions.Keys && db.notifications.Keys + {key} == db.notifications.Keys;
  }

  lemma FinishPhase(s: Sys, w: nat, tx: TxReply)
    requires w < |s.workers| && s.workers[w].phase.Replied? && HasMessage(s, w, s.workers[w].phase.queue)
    requires FinishDelivery(s.db, s.workers[w].phase.key, s.workers[w].phase.reply).Writes?
    ensures var ph := s.workers[w].phase;
            var t := DoFinish(s, w, tx);
            && t.db == (if tx.RollsBack? then s.db else FinishDelivery(s.db, ph.key, ph.reply).db) && |t.workers| == |s.workers|
            && t.workers[w].phase == if tx.Commits? && ph.reply != Retryable then Returned(ph.queue) else Raised(ph.queue)
  {
  }

  /** The answer a worker holds is written, or nothing if the transaction rolls back, and the call ends accordingly. */
  ghost predicate AnswerTold(s: Sys, t: Sys, w: nat, tx: TxReply)
    requires w < |s.workers| && s.workers[w].phase.Replied?
  {
    var ph := s.workers[w].phase;
    && (if tx.RollsBack? then t.db == s.db else Written(s.db, t.db, ph.key, ph.reply))
    && |t.workers| == |s.workers|
    && t.workers[w].phase == if tx.Commits? && ph.reply != Retryable then Returned(ph.queue) else Raised(ph.queue)
  }

  lemma AnswerWritten(c: Config, s: Sys, w: nat, tx: TxReply)
    requires w < |s.workers| && s.workers[w].phase.Replied? && HasMessage(s, w, s.workers[w].phase.queue)
    requires s.workers[w].phase.key in s.db.actions && s.workers[w].phase.key in s.db.notifications
    requires s.workers[w].phase.reply != Unexpected
    ensures AnswerTold(s, Next(c, s, Finish(w, tx)), w, tx)
  {
    FinishWrites(s.db, s.workers[w].phase.key, s.workers[w].phase.reply);
    FinishPhase(s, w, tx);
  }

  /**
   * At any point of any run: the second transaction of a notification writes the status of the answer,
   * or nothing if it rolls back; and the handler returns normally exactly if the transaction commits and
   * the webhook did not ask to try again.
   */
  lemma AnswerIsWritten(c: Config, s0: Sys, moves: seq<Move>, w: nat, tx: TxReply)
    requires Start(s0)
    requires w < |Run(c, s0, moves).workers| && Run(c, s0, moves).workers[w].phase.Replied?
    ensures AnswerTold(Run(c, s0, moves), Next(c, Run(c, s0, moves), Finish(w, tx)), w, tx)
  {
    StartReady(c, s0);
    RunReady(c, s0, moves);
    HoldsAll(Run(c, s0, moves), w);
    AnswerWritten(c, Run(c, s0, moves), w, tx);
  }

  // ------------------------------------------------------------- whole runs

  /** An outcome needs its answer. */
  predicate Backed(answers: set<(ActionKey, DeliveryReply)>, key: ActionKey, status: ActionStatus)
  {
    && (status == Succeeded ==> (key, Accepted) in answers)
    && (status == RetryableFailure ==> (key, Retryable) in answers)
    && (status == PermanentFailure ==> (key, Permanent) in answers)
  }

  predicate HoldsAnswer(answers: set<(ActionKey, DeliveryReply)>, phase: Phase)
  {
    phase.Replied? ==> (phase.key, phase.reply) in answers && phase.reply != Unexpected
  }

  ghost predicate AnswersOk(s: Sys)
  {
    && (forall key :: key in s.db.actions ==> s.db.actions[key].status != Planned && Backed(s.hist.answers, key, s.db.actions[key].status))
    && (forall key :: key in s.db.notifications ==>
          s.db.notifications[key] != Running && Backed(s.hist.answers, key, s.db.notifications[key]))
    && (forall w :: 0 <= w < |s.workers| ==> HoldsAnswer(s.hist.answers, s.workers[w].phase))
  }

  /** Answers are only ever added, by the webhook. */
  lemma NextAnswers(c: Config, s: Sys, m: Move)
    ensures s.hist.answers <= Next(c, s, m).hist.answers
    ensures !m.Deliver? ==> Next(c, s, m).hist.answers == s.hist.answers
    ensures |Next(c, s, m).workers| == |s.workers|
  {
    ProcessesStay(c, s, m);
    if PublisherMove(m) {
      PublisherMoves(c, s, m);
    } else if ConsumerMove(m) {
      ConsumerMoves(c, s, m);
    }
  }

  lemma HandleAnswers(c: Config, s: Sys, w: nat, tx: TxReply)
    requires AnswersOk(s)
    ensures AnswersOk(DoHandle(c, s, w, tx))
  {
    if w < |s.workers| && s.workers[w].phase.Batch? && HasMessage(s, w, s.workers[w].phase.queue) {
      var payload := s.net.entries[s.workers[w].phase.queue[0]].payload;
      if PlanFor(c.policy, s.workers[w].group, s.db, payload).Starts? && !tx.RollsBack? {
        StartShape(c, s, w, tx);
        StartedStatuses(s.db, payload);
        NextAnswers(c, s, Handle(w, tx));
      } else {
        HandleKeepsActions(c, s, w, tx);
      }
    }
  }

  lemma HandleKeepsActions(c: Config, s: Sys, w: nat, tx: TxReply)
    requires w < |s.workers| && s.workers[w].phase.Batch? && HasMessage(s, w, s.workers[w].phase.queue)
    requires PlanFor(c.policy, s.workers[w].group, s.db, s.net.entries[s.workers[w].phase.queue[0]].payload).Starts? ==> tx.RollsBack?
    ensures var t := DoHandle(c, s, w, tx);
            && t.db.actions == s.db.actions && t.db.notifications == s.db.notifications && t.hist.answers == s.hist.answers
            && |t.workers| == |s.workers| && t.workers == s.workers[w := t.workers[w]] && !t.workers[w].phase.Replied?
  {
  }

  lemma StartedStatuses(db: Db, payload: Payload)
    ensures StartDelivery(db, payload).Starts? ==>
              var plan := StartDelivery(db, payload);
              && plan.key in plan.started.actions && plan.started.actions[plan.key].status == Running
              && (forall k :: k in plan.started.actions && k != plan.key ==> k in db.actions && plan.started.actions[k] == db.actions[k])
              && (forall k :: k in plan.started.notifications ==>
                    (k in db.notifications && plan.started.notifications[k] == db.notifications[k])
                    || plan.started.notifications[k] == Planned)
  {
  }

  lemma DeliverAnswers(s: Sys, w: nat, reply: DeliveryReply)
    requires AnswersOk(s)
    ensures AnswersOk(DoDeliver(s, w, reply))
  {
  }

  lemma FinishAnswers(s: Sys, w: nat, tx: TxReply)
    requires AnswersOk(s)
    ensures AnswersOk(DoFinish(s, w, tx))
  {
    if w < |s.workers| && s.workers[w].phase.Replied? && HasMessage(s, w, s.workers[w].phase.queue) {
      var ph := s.workers[w].phase;
      FinishShape(s, w, tx);
      FinishedStatuses(s.db, ph.key, ph.reply);
      assert HoldsAnswer(s.hist.answers, ph);
    }
  }

  lemma FinishedStatuses(db: Db, key: ActionKey, reply: DeliveryReply)
    requires reply != Unexpected
    ensures var plan := FinishDelivery(db, key, reply);
            plan.Writes? ==>
              && key in plan.db.actions && Tells(reply, plan.db.actions[key].status) && plan.db.actions[key].status != Planned
              && (forall k :: k in plan.db.actions && k != key ==> k in db.actions && plan.db.actions[k] == db.actions[k])
              && (forall k :: k in plan.db.notifications ==>
                    k in db.notifications
                    && if k == key then plan.db.notifications[k] == plan.db.actions[key].status
                       else plan.db.notifications[k] == db.notifications[k])
              && plan.db.actions[key].status != Running
  {
  }

  lemma QuietAnswers(c: Config, s: Sys, m: Move)
    requires AnswersOk(s) && !m.Handle? && !m.Deliver? && !m.Finish?
    ensures AnswersOk(Next(c, s, m))
  {
    NextAnswers(c, s, m);
    if PublisherMove(m) {
      PublisherMoves(c, s, m);
    } else if ConsumerMove(m) {
      ConsumerMoves(c, s, m);
    }
  }

  lemma {:induction false} RunAnswers(c: Config, s0: Sys, moves: seq<Move>)
    requires Start(s0)
    ensures AnswersOk(Run(c, s0, moves))
  {
    if moves != [] {
      var s, m := Run(c, s0, moves[..|moves| - 1]), moves[|moves| - 1];
      RunAnswers(c, s0, moves[..|moves| - 1]);
      if m.Handle? {
        HandleAnswers(c, s, m.w, m.tx);
      } else if m.Deliver? {
        DeliverAnswers(s, m.w, m.delivery);
      } else if m.Finish? {
        FinishAnswers(s, m.w, m.tx);
      } else {
        QuietAnswers(c, s, m);
      }
    }
  }

  /**
   * In every run a succeeded action has had an accepted call, a permanently failed one a permanent
   * refusal, and one to be retried a refusal for now; so does what a notification says. An action that
   * was only ever refused for now, or not answered at all, is open to the next delivery.
   */
  lemma StatusHasItsAnswer(c: Config, s0: Sys, moves: seq<Move>, key: ActionKey)
    requires Start(s0) && key in Run(c, s0, moves).db.actions
    ensures var s := Run(c, s0, moves);
            var status := s.db.actions[key].status;
            && (status == Running || status == Succeeded || status == RetryableFailure || status == PermanentFailure)
            && Backed(s.hist.answers, key, status)
            && key in s.db.notifications && s.db.notifications[key] != Running && Backed(s.hist.answers, key, s.db.notifications[key])
            && ((forall reply :: (key, reply) in s.hist.answers ==> reply == Retryable || reply == Unexpected) ==>
                  !Terminal(status) && status != Succeeded && status != PermanentFailure)
  {
    RunAnswers(c, s0, moves);
    StartReady(c, s0);
    RunReady(c, s0, moves);
    assert ActionRowOk(Run(c, s0, moves).db, key);
  }

  // ------------------------------------------------------------- messages

  /** The message says whom it is for and why. */
  ghost predicate Describes(m: Message, db: Db)
  {
    && m.key.decision < |db.decisions|
    && var d := db.decisions[m.key.decision];
       && (d.outcome == Send || d.outcome == Escalate)
       && m.key.stage == (if d.outcome == Escalate then Escalated else Initial)
       && m.outcome == d.outcome && m.reasons == d.reasons && m.subject == d.obs
       && d.obs < |db.observations| && m.source == db.observations[d.obs].fact
  }

  /** In every run the messages sent and stored tell outcome, reasons and fact of a decision to notify. */
  lemma MessagesDescribe(c: Config, s0: Sys, moves: seq<Move>)
    requires Start(s0)
    ensures var s := Run(c, s0, moves);
            && (forall m :: m in s.hist.messages ==> Describes(m, s.db))
            && (forall key :: key in s.db.actions ==> s.db.actions[key].payload.key == key && Describes(s.db.actions[key].payload, s.db))
  {
    var s := Run(c, s0, moves);
    StartReady(c, s0);
    RunReady(c, s0, moves);
    forall m | m in s.hist.messages ensures Describes(m, s.db) {
      assert MessageOk(s.db, m);
    }
    forall key | key in s.db.actions ensures s.db.actions[key].payload.key == key && Describes(s.db.actions[key].payload, s.db) {
      assert ActionRowOk(s.db, key);
    }
  }
}
