/** The three handlers of the event path, each call a few database transactions. */
module Handlers {
  import opened Common
  import opened Alerts
  import opened PipelineState
  import opened PipelineProcess
  import Answers

  /** The database and whether the call raised, after the one transaction of a plan. */
  function AfterPlan(plan: Plan, db: Db, tx: TxReply): (Db, bool)
  {
    match plan
    case Skip => (db, false)
    case Fails => (db, true)
    case Writes(written) => (if tx.RollsBack? then db else written, !tx.Commits?)
    case Starts(started, _, _) => (if tx.RollsBack? then db else started, !tx.Commits?)
  }

  /** How a database transaction with these changes ends is up to the database. */
  method Transaction(db: Database, changed: Db) returns (raised: bool, ghost tx: TxReply)
    modifies db
    ensures (db.Value(), raised) == AfterPlan(Writes(changed), old(db.Value()), tx)
  {
    var reply: TxReply := *;
    tx := reply;
    raised := !reply.Commits?;
    if !reply.RollsBack? {
      db.Store(changed);
    }
  }

  class ObservationProcessedHandler {
    const db: Database

    constructor (db: Database)
      ensures this.db == db
    {
      this.db := db;
    }

    method Call(payload: Payload) returns (raised: bool, ghost tx: TxReply)
      modifies db
      ensures (db.Value(), raised) == AfterPlan(MarkProcessed(old(db.Value()), payload), old(db.Value()), tx)
      ensures !payload.ObservationPersisted? ==> db.Value() == old(db.Value()) && !raised
      ensures payload.ObservationPersisted? ==>
                (raised <==> payload.obs >= |old(db.observations)| || tx != Commits)
                && if payload.obs >= |old(db.observations)| || tx == RollsBack then db.Value() == old(db.Value())
                   else db.Value() == old(db.Value()).(observations :=
                     old(db.observations)[payload.obs := Observation(old(db.observations)[payload.obs].fact, true)])
    {
      tx := Commits;
      if !payload.ObservationPersisted? {
        return false, tx;
      }
      if payload.obs >= |db.observations| {
        return true, tx;
      }
      var observation := db.observations[payload.obs];
      raised, tx := Transaction(db, db.Value().(observations :=
        db.observations[payload.obs := observation.(processed := true)]));
    }
  }

  /** One decision more, the policy's on the observation's fact, and the row that announces it. */
  ghost predicate DecidedNow(db: Db, db': Db, policy: Policy, o: nat)
    requires o < |db.observations|
  {
    var d := |db.decisions|;
    var e := Evaluate(policy, db.observations[o].fact);
    && db'.decisions == db.decisions + [Decision(o, e.outcome, e.reasons)]
    && db'.outbox == db.outbox + [Row(ShadowKey(o), DecisionCreated(d, o, e.outcome), false, 0, false)]
    && db'.observations == db.observations && db'.actions == db.actions && db'.notifications == db.notifications
  }

  class ShadowDecisionHandler {
    const db: Database
    const policy: Policy

    constructor (db: Database, policy: Policy)
      ensures this.db == db && this.policy == policy
    {
      this.db, this.policy := db, policy;
    }

    method Call(payload: Payload) returns (raised: bool, ghost tx: TxReply)
      modifies db
      ensures (db.Value(), raised) == AfterPlan(Decide(policy, old(db.Value()), payload), old(db.Value()), tx)
      ensures !payload.ObservationPersisted? ==> db.Value() == old(db.Value()) && !raised
      ensures payload.ObservationPersisted? ==>
                (raised <==> payload.obs >= |old(db.observations)| || tx != Commits)
                && if payload.obs >= |old(db.observations)| || tx == RollsBack
                      || exists d :: 0 <= d < |old(db.decisions)| && old(db.decisions)[d].obs == payload.obs
                   then db.Value() == old(db.Value())
                   else DecidedNow(old(db.Value()), db.Value(), policy, payload.obs)
    {
      tx := Commits;
      if !payload.ObservationPersisted? {
        return false, tx;
      }
      var o := payload.obs;
      if o >= |db.observations| {
        return true, tx;
      }
      var value := db.Value();
      if !Decided(db.decisions, o) {
        var result := EvaluateRules(policy, db.observations[o].fact);
        var d := |db.decisions|;
        value := value.(decisions := value.decisions + [Decision(o, result.outcome, result.reasons)]);
        value := value.(outbox := value.outbox
          + [Row(ShadowKey(o), DecisionCreated(d, o, result.outcome), false, 0, false)]);
      }
      raised, tx := Transaction(db, value);
    }
  }

  /** A notification call: the starting transaction, the webhook, the finishing transaction. */
  function NotifyResult(db: Db, payload: Payload, tx1: TxReply, reply: DeliveryReply, tx2: TxReply): (Db, bool)
  {
    match StartDelivery(db, payload)
    case Starts(started, key, _) =>
      if !tx1.Commits? then (if tx1.RollsBack? then db else started, true)
      else if reply.Unexpected? then (started, true)
      else
        var plan := FinishDelivery(started, key, reply);
        var (after, raised) := AfterPlan(plan, started, tx2);
        (after, raised || reply.Retryable?)
    case plan => AfterPlan(plan, db, tx1)
  }

  /** The announced decision is one to notify about. */
  predicate ToNotify(payload: Payload)
  {
    payload.DecisionCreated? && (payload.outcome == Send || payload.outcome == Escalate)
  }

  /** Decision and observation are there and belong together. */
  predicate Known(db: Db, payload: Payload)
    requires payload.DecisionCreated?
  {
    && payload.decision < |db.decisions| && payload.subject < |db.observations|
    && db.decisions[payload.decision].obs == payload.subject
  }

  function StageKey(payload: Payload): ActionKey
    requires payload.DecisionCreated?
  {
    ActionKey(payload.decision, if payload.outcome == Escalate then Escalated else Initial)
  }

  predicate Over(db: Db, key: ActionKey)
  {
    key in db.actions && (db.actions[key].status == Succeeded || db.actions[key].status == PermanentFailure)
  }

  /** The start of a delivery: the action is running with one attempt more, new together with its notification if it was not there. */
  ghost predicate StartedAs(db: Db, db': Db, payload: Payload)
    requires payload.DecisionCreated? && Known(db, payload)
  {
    var key := StageKey(payload);
    && key in db'.actions && key in db'.notifications && db'.actions[key].status == Running
    && (if key in db.actions then
          db'.actions[key].attempts == db.actions[key].attempts + 1 && db'.actions[key].payload == db.actions[key].payload
          && db'.notifications == db.notifications
        else
          && db'.actions[key].attempts == 1 && db'.notifications == db.notifications[key := Planned]
          && db'.actions[key].payload == Message(key, payload.subject, payload.outcome, db.decisions[payload.decision].reasons,
                                                 db.observations[payload.subject].fact))
    && db'.actions == db.actions[key := db'.actions[key]]
    && db'.observations == db.observations && db'.decisions == db.decisions && db'.outbox == db.outbox
  }

  /**
   * What a notification call comes to. Other announcements are skipped, unknown subjects raise, and what is
   * over is left alone. Otherwise the delivery is started; unless that fails, or the webhook breaks, its
   * answer is written. The call returns normally exactly if all that commits and it need not be tried again.
   */
  ghost predicate CallMeans(db: Db, db': Db, payload: Payload, tx1: TxReply, reply: DeliveryReply, tx2: TxReply, raised: bool)
  {
    if !ToNotify(payload) then db' == db && !raised
    else if !Known(db, payload) then db' == db && raised
    else if Over(db, StageKey(payload)) then db' == db && (raised <==> tx1 != Commits)
    else if tx1 == RollsBack then db' == db && raised
    else if tx1 == CommitsThenRaises || reply == Unexpected || tx2 == RollsBack then StartedAs(db, db', payload) && raised
    else
      && (raised <==> tx2 != Commits || reply == Retryable)
      && exists mid :: StartedAs(db, mid, payload) && Answers.Written(mid, db', StageKey(payload), reply)
  }

  lemma StartMeaning(db: Db, payload: Payload)
    requires ToNotify(payload) && Known(db, payload) && !Over(db, StageKey(payload)) && db.actions.Keys == db.notifications.Keys
    ensures StartDelivery(db, payload).Starts? && StartDelivery(db, payload).key == StageKey(payload)
    ensures StartedAs(db, StartDelivery(db, payload).started, payload)
  {
  }

  lemma NotifyMeaning(db: Db, payload: Payload, tx1: TxReply, reply: DeliveryReply, tx2: TxReply)
    requires db.actions.Keys == db.notifications.Keys
    ensures var (after, raised) := NotifyResult(db, payload, tx1, reply, tx2);
            CallMeans(db, after, payload, tx1, reply, tx2, raised)
  {
    if ToNotify(payload) && Known(db, payload) && !Over(db, StageKey(payload)) {
      StartMeaning(db, payload);
      var started := StartDelivery(db, payload).started;
      if reply != Unexpected {
        Answers.FinishWrites(started, StageKey(payload), reply);
      }
    }
  }

  class CommunityNotificationHandler {
    const db: Database

    constructor (db: Database)
      ensures this.db == db
    {
      this.db := db;
    }

    /** The webhook: accepted, refused for now, refused for good, or any other exception. */
    method Deliver(message: Message) returns (reply: DeliveryReply)
    {
      reply := *;
    }

    method Call(payload: Payload)
      returns (raised: bool, ghost tx1: TxReply, ghost reply: DeliveryReply, ghost tx2: TxReply)
      modifies db
      ensures (db.Value(), raised) == NotifyResult(old(db.Value()), payload, tx1, reply, tx2)
      ensures old(db.actions.Keys == db.notifications.Keys) ==>
                CallMeans(old(db.Value()), db.Value(), payload, tx1, reply, tx2, raised)
    {
      ghost var before := db.Value();
      forall tx, answer, tx' | before.actions.Keys == before.notifications.Keys
        ensures var (after, raises) := NotifyResult(before, payload, tx, answer, tx');
                CallMeans(before, after, payload, tx, answer, tx', raises)
      {
        NotifyMeaning(before, payload, tx, answer, tx');
      }
      tx1, reply, tx2 := Commits, Accepted, Commits;
      if !payload.DecisionCreated? || !Notifies(payload.outcome) {
        return false, tx1, reply, tx2;
      }
      var d, o, outcome := payload.decision, payload.subject, payload.outcome;
      var key := KeyOf(d, outcome);
      if d >= |db.decisions| || o >= |db.observations| || db.decisions[d].obs != o {
        return true, tx1, reply, tx2;
      }
      if key in db.actions && Terminal(db.actions[key].status) {
        raised, tx1 := Transaction(db, db.Value());
        return raised, tx1, reply, tx2;
      }
      var message := MessageOf(db.Value(), d, o, outcome);
      var value := db.Value();
      if key !in db.actions {
        value := value.(actions := value.actions[key := ActionRow(Planned, 0, message)],
                        notifications := value.notifications[key := Planned]);
      }
      var action := value.actions[key];
      value := value.(actions := value.actions[key := action.(status := Running, attempts := action.attempts + 1)]);
      assert value.actions == db.actions[key := action.(status := Running, attempts := action.attempts + 1)];
      assert StartDelivery(db.Value(), payload) == Starts(value, key, message);
      raised, tx1 := Transaction(db, value);
      if raised {
        return raised, tx1, reply, tx2;
      }
      var answer := Deliver(message);
      reply := answer;
      if answer.Unexpected? {
        return true, tx1, reply, tx2;
      }
      raised, tx2 := Finish(key, answer);
      raised := raised || answer.Retryable?;
    }

    method Finish(key: ActionKey, answer: DeliveryReply) returns (raised: bool, ghost tx: TxReply)
      modifies db
      ensures (db.Value(), raised) == AfterPlan(FinishDelivery(old(db.Value()), key, answer), old(db.Value()), tx)
      ensures key in old(db.actions) && key in old(db.notifications) && answer != Unexpected ==>
                && (raised <==> tx != Commits)
                && if tx == RollsBack then db.Value() == old(db.Value())
                   else Answers.Written(old(db.Value()), db.Value(), key, answer)
    {
      tx := Commits;
      if key !in db.actions || (answer.Accepted? && key !in db.notifications) {
        return true, tx;
      }
      var value := db.Value();
      value := value.(actions := value.actions[key := value.actions[key].(status := StatusOf(answer))]);
      if key in value.notifications {
        value := value.(notifications := value.notifications[key := StatusOf(answer)]);
      }
      if key in db.notifications && answer != Unexpected {
        Answers.FinishWrites(db.Value(), key, answer);
      }
      raised, tx := Transaction(db, value);
    }
  }
}
