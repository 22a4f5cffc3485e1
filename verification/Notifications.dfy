/** The webhook action machine: attempts, messages, terminal statuses. */
module Notifications {
  import opened Common
  import opened Alerts
  import opened PipelineState
  import opened Records
  import opened Frames
  import NoLoss

  predicate DeliveringOn(worker: Worker, key: ActionKey)
  {
    worker.phase.Delivering? && worker.phase.key == key
  }

  /** Workers between the committed start of a delivery and the webhook call. */
  function InDelivery(workers: seq<Worker>, key: ActionKey): nat
  {
    if workers == [] then 0
    else (if DeliveringOn(workers[0], key) then 1 else 0) + InDelivery(workers[1..], key)
  }

  lemma {:induction false} InDeliveryUpdate(workers: seq<Worker>, w: nat, worker: Worker, key: ActionKey)
    requires w < |workers|
    ensures InDelivery(workers[w := worker], key) + (if DeliveringOn(workers[w], key) then 1 else 0)
            == InDelivery(workers, key) + (if DeliveringOn(worker, key) then 1 else 0)
  {
    var updated := workers[w := worker];
    if w == 0 {
      assert updated[1..] == workers[1..];
    } else {
      InDeliveryUpdate(workers[1..], w - 1, worker, key);
      assert updated[1..] == workers[1..][w - 1 := worker];
    }
  }

  lemma {:induction false} InDeliveryNone(workers: seq<Worker>, key: ActionKey)
    requires forall w :: 0 <= w < |workers| ==> !DeliveringOn(workers[w], key)
    ensures InDelivery(workers, key) == 0
  {
    if workers != [] {
      assert !DeliveringOn(workers[0], key);
      assert forall w :: 0 <= w < |workers[1..]| ==> workers[1..][w] == workers[w + 1];
      InDeliveryNone(workers[1..], key);
    }
  }

  /** The key names a committed decision that asks for this notification. */
  predicate KeyOk(db: Db, key: ActionKey)
  {
    && key.decision < |db.decisions|
    && db.decisions[key.decision].obs < |db.observations|
    && Notifies(db.decisions[key.decision].outcome)
    && key == KeyOf(key.decision, db.decisions[key.decision].outcome)
  }

  function MessageFor(db: Db, key: ActionKey): Message
    requires KeyOk(db, key)
  {
    var d := db.decisions[key.decision];
    MessageOf(db, key.decision, d.obs, d.outcome)
  }

  /** An action keeps its message and, once terminal, its notification's status. */
  ghost predicate ActionRowOk(db: Db, key: ActionKey)
    requires key in db.actions
  {
    && KeyOk(db, key) && key in db.notifications
    && db.actions[key].payload == MessageFor(db, key)
    && (Terminal(db.actions[key].status) ==> db.notifications[key] == db.actions[key].status)
  }

  function Attempts(db: Db, key: ActionKey): nat
  {
    if key in db.actions then db.actions[key].attempts else 0
  }

  /** Committed starts are the calls made, the calls never made, and those about to be made. */
  ghost predicate AttemptsOk(s: Sys, key: ActionKey)
  {
    Attempts(s.db, key) == s.hist.sent[key] + s.hist.lost[key] + InDelivery(s.workers, key)
  }

  ghost predicate MessageOk(db: Db, m: Message)
  {
    KeyOk(db, m.key) && m == MessageFor(db, m.key)
  }

  /** A worker inside a notification handles the announcement its key comes from. */
  ghost predicate SenderOk(s: Sys, worker: Worker)
  {
    worker.phase.Delivering? || worker.phase.Replied? ==>
      && worker.group.Notify? && worker.phase.queue != []
      && worker.phase.queue[0] < |s.net.entries|
      && worker.phase.key in s.db.actions && KeyOk(s.db, worker.phase.key)
      && s.net.entries[worker.phase.queue[0]].payload == AnnouncementOf(s.db, worker.phase.key.decision)
      && (if worker.phase.Delivering? then worker.phase.message == MessageFor(s.db, worker.phase.key)
          else !worker.phase.reply.Unexpected?)
  }

  /** The payload, if an announcement, is that of a committed decision. */
  ghost predicate RowOfPayload(s: Sys, payload: Payload)
  {
    payload.DecisionCreated? ==> payload.decision < |s.db.decisions| && payload == AnnouncementOf(s.db, payload.decision)
  }

  ghost predicate EntriesLinked(s: Sys)
  {
    forall e :: 0 <= e < |s.net.entries| ==> RowOfPayload(s, s.net.entries[e].payload)
  }

  lemma EntriesAreLinked(policy: Policy, s: Sys)
    requires NoLoss.Inv(s) && Linked(policy, s.db)
    ensures EntriesLinked(s)
  {
    forall e | 0 <= e < |s.net.entries| ensures RowOfPayload(s, s.net.entries[e].payload) {
      assert RowLinked(s.db, s.db.outbox[s.net.entries[e].row]);
    }
  }

  ghost predicate NotesOk(s: Sys)
  {
    && s.db.actions.Keys == s.db.notifications.Keys
    && (forall key :: key in s.db.actions ==> ActionRowOk(s.db, key))
    && (forall key :: AttemptsOk(s, key))
    && (forall m :: m in s.hist.messages ==> MessageOk(s.db, m))
    && (forall w :: 0 <= w < |s.workers| ==> SenderOk(s, s.workers[w]))
  }

  lemma NotesStart(s: Sys)
    requires Start(s)
    ensures NotesOk(s)
  {
    forall key ensures AttemptsOk(s, key) {
      InDeliveryNone(s.workers, key);
    }
  }

  lemma KeyGrows(a: Db, b: Db, key: ActionKey)
    requires Grows(a, b) && KeyOk(a, key)
    ensures KeyOk(b, key) && MessageFor(b, key) == MessageFor(a, key)
    ensures AnnouncementOf(b, key.decision) == AnnouncementOf(a, key.decision)
  {
  }

  /** Everything that survives when the database grows and the entries of the stream stay. */
  lemma SendersGrow(s: Sys, s': Sys)
    requires NotesOk(s) && Grows(s.db, s'.db)
    requires |s.net.entries| <= |s'.net.entries|
    requires forall e :: 0 <= e < |s.net.entries| ==> s'.net.entries[e] == s.net.entries[e]
    requires s.db.actions.Keys <= s'.db.actions.Keys
    ensures forall w :: 0 <= w < |s.workers| ==> SenderOk(s', s.workers[w])
    ensures forall m :: m in s.hist.messages ==> MessageOk(s'.db, m)
  {
    forall w | 0 <= w < |s.workers| ensures SenderOk(s', s.workers[w]) {
      assert SenderOk(s, s.workers[w]);
      if s.workers[w].phase.Delivering? || s.workers[w].phase.Replied? {
        KeyGrows(s.db, s'.db, s.workers[w].phase.key);
      }
    }
    forall m | m in s.hist.messages ensures MessageOk(s'.db, m) {
      KeyGrows(s.db, s'.db, m.key);
    }
  }

  /** A move that leaves actions and deliveries alone. */
  ghost predicate Quiet(s: Sys, s': Sys, w: nat)
  {
    && |s.net.entries| <= |s'.net.entries|
    && (forall e :: 0 <= e < |s.net.entries| ==> s'.net.entries[e] == s.net.entries[e])
    && s'.db.actions == s.db.actions && s'.db.notifications == s.db.notifications
    && s'.hist.sent == s.hist.sent && s'.hist.lost == s.hist.lost && s'.hist.messages == s.hist.messages
    && (s'.workers == s.workers
        || (w < |s.workers| && |s'.workers| == |s.workers| && s'.workers == s.workers[w := s'.workers[w]]
            && !s.workers[w].phase.Delivering?
            && !s'.workers[w].phase.Delivering? && !s'.workers[w].phase.Replied?))
  }

  lemma NotesFrame(s: Sys, s': Sys, w: nat)
    requires NotesOk(s) && Grows(s.db, s'.db) && Quiet(s, s', w)
    ensures NotesOk(s')
  {
    SendersGrow(s, s');
    forall key | key in s'.db.actions ensures ActionRowOk(s'.db, key) {
      assert ActionRowOk(s.db, key);
      KeyGrows(s.db, s'.db, key);
    }
    forall key ensures AttemptsOk(s', key) {
      assert AttemptsOk(s, key);
      if s'.workers != s.workers {
        InDeliveryUpdate(s.workers, w, s'.workers[w], key);
      }
    }
  }

  /** One worker changes: the committed starts and the calls change together. */
  lemma AttemptsStep(s: Sys, s': Sys, w: nat, key: ActionKey)
    requires AttemptsOk(s, key)
    requires w < |s.workers| && |s'.workers| == |s.workers| && s'.workers == s.workers[w := s'.workers[w]]
    requires Attempts(s'.db, key) - s'.hist.sent[key] - s'.hist.lost[key] - (if DeliveringOn(s'.workers[w], key) then 1 else 0)
             == Attempts(s.db, key) - s.hist.sent[key] - s.hist.lost[key] - (if DeliveringOn(s.workers[w], key) then 1 else 0)
    ensures AttemptsOk(s', key)
  {
    InDeliveryUpdate(s.workers, w, s'.workers[w], key);
  }

  lemma StartedDb(db: Db, payload: Payload, started: Db, key: ActionKey, message: Message)
    requires StartDelivery(db, payload) == Starts(started, key, message) && db.actions.Keys == db.notifications.Keys
    ensures started.actions.Keys == started.notifications.Keys == db.actions.Keys + {key}
    ensures forall k :: k in db.actions && k != key ==>
              started.actions[k] == db.actions[k] && started.notifications[k] == db.notifications[k]
    ensures started.actions[key].status.Running?
    ensures started.actions[key].payload == if key in db.actions then db.actions[key].payload else message
    ensures payload.DecisionCreated? && key == KeyOf(payload.decision, payload.outcome)
  {
    assert key in db.actions ==> db.actions.Keys + {key} == db.actions.Keys;
  }

  lemma StartedActions(s: Sys, db: Db, payload: Payload, key: ActionKey, message: Message)
    requires s.db.actions.Keys == s.db.notifications.Keys
    requires forall k :: k in s.db.actions ==> ActionRowOk(s.db, k)
    requires Grows(s.db, db) && StartDelivery(s.db, payload) == Starts(db, key, message)
    requires KeyOk(s.db, key) && message == MessageFor(s.db, key)
    ensures db.actions.Keys == db.notifications.Keys && s.db.actions.Keys <= db.actions.Keys
    ensures forall k :: k in db.actions ==> ActionRowOk(db, k)
  {
    StartedDb(s.db, payload, db, key, message);
    forall k | k in db.actions ensures ActionRowOk(db, k) {
      if k in s.db.actions {
        assert ActionRowOk(s.db, k);
      }
      KeyGrows(s.db, db, k);
    }
  }

  lemma StartedAttempts(db: Db, payload: Payload, started: Db, key: ActionKey, message: Message)
    requires StartDelivery(db, payload) == Starts(started, key, message)
    ensures forall k :: Attempts(started, k) == Attempts(db, k) + (if k == key then 1 else 0)
  {
  }

  /** Starting a delivery: the action exists, is running, and has one more attempt. */
  lemma StartedNotes(s: Sys, s': Sys, w: nat, key: ActionKey)
    requires NotesOk(s) && Grows(s.db, s'.db) && s.db.actions.Keys <= s'.db.actions.Keys == s'.db.notifications.Keys
    requires forall k :: k in s'.db.actions ==> ActionRowOk(s'.db, k)
    requires forall k :: Attempts(s'.db, k) == Attempts(s.db, k) + (if k == key then 1 else 0)
    requires w < |s.workers| && |s'.workers| == |s.workers| && s'.workers == s.workers[w := s'.workers[w]]
    requires s.workers[w].phase.Batch? && s'.net == s.net && s'.hist.messages == s.hist.messages
    requires s'.hist.sent == s.hist.sent && SenderOk(s', s'.workers[w])
    requires if s'.workers[w].phase.Delivering? then s'.workers[w].phase.key == key && s'.hist.lost == s.hist.lost
             else s'.hist.lost == s.hist.lost + multiset{key}
    ensures NotesOk(s')
  {
    SendersGrow(s, s');
    forall k ensures AttemptsOk(s', k) {
      assert AttemptsOk(s, k);
      AttemptsStep(s, s', w, k);
    }
  }

  lemma StartShape(c: Config, s: Sys, w: nat, tx: TxReply)
    requires w < |s.workers| && s.workers[w].phase.Batch? && HasMessage(s, w, s.workers[w].phase.queue) && !tx.RollsBack?
    requires PlanFor(c.policy, s.workers[w].group, s.db, s.net.entries[s.workers[w].phase.queue[0]].payload).Starts?
    ensures var s' := DoHandle(c, s, w, tx);
            var plan := PlanFor(c.policy, s.workers[w].group, s.db, s.net.entries[s.workers[w].phase.queue[0]].payload);
            && s.workers[w].group.Notify? && s'.db == plan.started && s'.net == s.net && s'.hist.returned == s.hist.returned
            && |s'.workers| == |s.workers| && s'.workers == s.workers[w := s'.workers[w]]
            && !s'.workers[w].phase.Replied? && (s'.workers[w].phase.Delivering? ==> s'.workers[w].phase.key == plan.key)
            && plan.key in s'.db.actions && s'.db.actions[plan.key].status.Running?
            && s'.db.actions.Keys == s.db.actions.Keys + {plan.key}
            && s'.hist.sent == s.hist.sent && s'.hist.messages == s.hist.messages
            && (if s'.workers[w].phase.Delivering?
                then s'.workers[w].phase.message == plan.message && s'.workers[w].phase.queue == s.workers[w].phase.queue
                     && s'.hist.lost == s.hist.lost
                else s'.hist.lost == s.hist.lost + multiset{plan.key})
            && plan.key == KeyOf(s.net.entries[s.workers[w].phase.queue[0]].payload.decision,
                                 s.net.entries[s.workers[w].phase.queue[0]].payload.outcome)
  {
  }

  lemma StartNotes(c: Config, s: Sys, w: nat, tx: TxReply)
    requires NotesOk(s) && Linked(c.policy, s.db) && EntriesLinked(s)
    requires w < |s.workers| && s.workers[w].phase.Batch? && HasMessage(s, w, s.workers[w].phase.queue)
    requires !tx.RollsBack?
    requires PlanFor(c.policy, s.workers[w].group, s.db, s.net.entries[s.workers[w].phase.queue[0]].payload).Starts?
    ensures NotesOk(DoHandle(c, s, w, tx))
  {
    var s' := DoHandle(c, s, w, tx);
    var payload := s.net.entries[s.workers[w].phase.queue[0]].payload;
    PlanLinked(c.policy, s.workers[w].group, s.db, payload);
    assert RowOfPayload(s, payload);
    assert DecisionLinked(c.policy, s.db, payload.decision);
    var plan := StartDelivery(s.db, payload);
    StartShape(c, s, w, tx);
    assert KeyOk(s.db, plan.key) && KeyOk(s'.db, plan.key);
    StartedActions(s, s'.db, payload, plan.key, plan.message);
    StartedAttempts(s.db, payload, s'.db, plan.key, plan.message);
    StartedNotes(s, s', w, plan.key);
  }

  lemma DeliverNotes(s: Sys, w: nat, reply: DeliveryReply)
    requires NotesOk(s)
    ensures NotesOk(DoDeliver(s, w, reply))
  {
    var s' := DoDeliver(s, w, reply);
    if w < |s.workers| && s.workers[w].phase.Delivering? {
      assert SenderOk(s, s.workers[w]);
      SendersGrow(s, s');
      forall key | key in s'.db.actions ensures ActionRowOk(s'.db, key) {
        assert ActionRowOk(s.db, key);
      }
      forall key ensures AttemptsOk(s', key) {
        assert AttemptsOk(s, key);
        AttemptsStep(s, s', w, key);
      }
    }
  }

  /** Writing an outcome back touches one action and its notification. */
  lemma FinishedShape(db: Db, key: ActionKey, reply: DeliveryReply)
    requires db.actions.Keys == db.notifications.Keys && FinishDelivery(db, key, reply).Writes?
    ensures var db' := FinishDelivery(db, key, reply).db;
            && key in db.actions && db'.observations == db.observations && db'.decisions == db.decisions && db'.outbox == db.outbox
            && db'.actions == db.actions[key := db.actions[key].(status := StatusOf(reply))]
            && db'.notifications == db.notifications[key := StatusOf(reply)]
            && db'.actions.Keys == db.actions.Keys && db'.notifications.Keys == db.notifications.Keys
  {
    var db' := FinishDelivery(db, key, reply).db;
    assert key in db.actions.Keys;
    assert db.actions.Keys + {key} == db.actions.Keys && db.notifications.Keys + {key} == db.notifications.Keys;
  }

  lemma FinishedActions(db: Db, key: ActionKey, reply: DeliveryReply)
    requires db.actions.Keys == db.notifications.Keys
    requires forall k :: k in db.actions ==> ActionRowOk(db, k)
    requires FinishDelivery(db, key, reply).Writes?
    ensures var db' := FinishDelivery(db, key, reply).db;
            && Grows(db, db') && db'.actions.Keys == db'.notifications.Keys == db.actions.Keys
            && (forall k :: k in db'.actions ==> ActionRowOk(db', k) && Attempts(db', k) == Attempts(db, k))
  {
    FinishedShape(db, key, reply);
    FinishedRows(db, FinishDelivery(db, key, reply).db, key, StatusOf(reply));
  }

  lemma FinishedRows(db: Db, db': Db, key: ActionKey, status: ActionStatus)
    requires db.actions.Keys == db.notifications.Keys && key in db.actions
    requires forall k :: k in db.actions ==> ActionRowOk(db, k)
    requires db' == db.(actions := db.actions[key := db.actions[key].(status := status)],
                        notifications := db.notifications[key := status])
    ensures forall k :: k in db'.actions ==> ActionRowOk(db', k) && Attempts(db', k) == Attempts(db, k)
  {
    forall k | k in db'.actions ensures ActionRowOk(db', k) && Attempts(db', k) == Attempts(db, k) {
      assert ActionRowOk(db, k);
    }
  }

  lemma FinishShape(s: Sys, w: nat, tx: TxReply)
    requires w < |s.workers| && s.workers[w].phase.Replied? && HasMessage(s, w, s.workers[w].phase.queue)
    ensures var s' := DoFinish(s, w, tx);
            var plan := FinishDelivery(s.db, s.workers[w].phase.key, s.workers[w].phase.reply);
            && s'.db == (if plan.Writes? && !tx.RollsBack? then plan.db else s.db) && s'.net == s.net
            && |s'.workers| == |s.workers| && s'.workers == s.workers[w := s'.workers[w]]
            && !s'.workers[w].phase.Delivering? && !s'.workers[w].phase.Replied?
            && s'.hist.sent == s.hist.sent && s'.hist.lost == s.hist.lost && s'.hist.messages == s.hist.messages
  {
  }

  lemma FinishNotes(s: Sys, w: nat, tx: TxReply)
    requires NotesOk(s)
    ensures NotesOk(DoFinish(s, w, tx))
  {
    var s' := DoFinish(s, w, tx);
    if w < |s.workers| && s.workers[w].phase.Replied? && HasMessage(s, w, s.workers[w].phase.queue) {
      var ph := s.workers[w].phase;
      if FinishDelivery(s.db, ph.key, ph.reply).Writes? {
        FinishedActions(s.db, ph.key, ph.reply);
      }
      FinishShape(s, w, tx);
      FinishFrame(s, s', w);
    }
  }

  lemma FinishFrame(s: Sys, s': Sys, w: nat)
    requires NotesOk(s) && Grows(s.db, s'.db) && s'.net == s.net
    requires s'.db.actions.Keys == s'.db.notifications.Keys == s.db.actions.Keys
    requires forall k :: k in s'.db.actions ==> ActionRowOk(s'.db, k) && Attempts(s'.db, k) == Attempts(s.db, k)
    requires w < |s.workers| && |s'.workers| == |s.workers| && s'.workers == s.workers[w := s'.workers[w]]
    requires !s.workers[w].phase.Delivering? && !s'.workers[w].phase.Delivering? && !s'.workers[w].phase.Replied?
    requires s'.hist.sent == s.hist.sent && s'.hist.lost == s.hist.lost && s'.hist.messages == s.hist.messages
    ensures NotesOk(s')
  {
    SendersGrow(s, s');
    forall key ensures AttemptsOk(s', key) {
      assert AttemptsOk(s, key);
      AttemptsStep(s, s', w, key);
    }
  }

  lemma AbortNotes(s: Sys, w: nat)
    requires NotesOk(s)
    ensures NotesOk(DoAbort(s, w))
  {
    var s' := DoAbort(s, w);
    if w < |s.workers| {
      SendersGrow(s, s');
      assert s'.db == s.db && !s'.workers[w].phase.Delivering? && s'.hist.sent == s.hist.sent;
      forall key ensures AttemptsOk(s', key) {
        assert AttemptsOk(s, key);
        AttemptsStep(s, s', w, key);
      }
      assert SenderOk(s', s'.workers[w]);
    }
  }

  lemma HandleShape(c: Config, s: Sys, w: nat, tx: TxReply)
    requires w < |s.workers| && s.workers[w].phase.Batch? && HasMessage(s, w, s.workers[w].phase.queue)
    requires var plan := PlanFor(c.policy, s.workers[w].group, s.db, s.net.entries[s.workers[w].phase.queue[0]].payload);
             (plan.Writes? ==> plan.db.actions == s.db.actions && plan.db.notifications == s.db.notifications)
             && (plan.Starts? ==> tx.RollsBack?)
    ensures Quiet(s, DoHandle(c, s, w, tx), w)
  {
  }

  lemma HandleNotes(c: Config, s: Sys, w: nat, tx: TxReply)
    requires NotesOk(s) && Linked(c.policy, s.db) && EntriesLinked(s)
    ensures NotesOk(DoHandle(c, s, w, tx))
  {
    if w < |s.workers| && s.workers[w].phase.Batch? && HasMessage(s, w, s.workers[w].phase.queue) {
      var payload := s.net.entries[s.workers[w].phase.queue[0]].payload;
      PlanLinked(c.policy, s.workers[w].group, s.db, payload);
      if PlanFor(c.policy, s.workers[w].group, s.db, payload).Starts? && !tx.RollsBack? {
        StartNotes(c, s, w, tx);
      } else {
        HandleShape(c, s, w, tx);
        NextLinked(c, s, Handle(w, tx));
        NotesFrame(s, DoHandle(c, s, w, tx), w);
      }
    }
  }

  lemma QuietMoves(c: Config, s: Sys, m: Move)
    requires !HandlerMove(m)
    ensures Quiet(s, Next(c, s, m), if ConsumerMove(m) then m.w else 0)
  {
    if PublisherMove(m) {
      PublisherMoves(c, s, m);
    } else if ConsumerMove(m) {
      ConsumerMoves(c, s, m);
    }
  }

  lemma NextNotes(c: Config, s: Sys, m: Move)
    requires NotesOk(s) && Linked(c.policy, s.db) && EntriesLinked(s)
    ensures NotesOk(Next(c, s, m))
  {
    if m.Handle? {
      HandleNotes(c, s, m.w, m.tx);
    } else if m.Deliver? {
      DeliverNotes(s, m.w, m.delivery);
    } else if m.Finish? {
      FinishNotes(s, m.w, m.tx);
    } else if m.Abort? {
      AbortNotes(s, m.w);
    } else {
      QuietMoves(c, s, m);
      NextLinked(c, s, m);
      NotesFrame(s, Next(c, s, m), if ConsumerMove(m) then m.w else 0);
    }
  }

  ghost predicate Ready(c: Config, s: Sys)
  {
    NoLoss.Inv(s) && Linked(c.policy, s.db) && NotesOk(s)
  }

  lemma NextReady(c: Config, s: Sys, m: Move)
    requires Ready(c, s)
    ensures Ready(c, Next(c, s, m))
  {
    NoLoss.NextKeeps(c, s, m);
    NextLinked(c, s, m);
    EntriesAreLinked(c.policy, s);
    NextNotes(c, s, m);
  }

  lemma {:induction false} RunReady(c: Config, s: Sys, moves: seq<Move>)
    requires Ready(c, s)
    ensures Ready(c, Run(c, s, moves))
  {
    if moves != [] {
      RunReady(c, s, moves[..|moves| - 1]);
      NextReady(c, Run(c, s, moves[..|moves| - 1]), moves[|moves| - 1]);
    }
  }

  lemma StartReady(c: Config, s: Sys)
    requires Start(s)
    ensures Ready(c, s)
  {
    NoLoss.StartOk(s);
    NotesStart(s);
  }
}
