/**
 * The durable event path as one state machine: database rows, the Redis stream with its
 * consumer groups, publishers, and workers. A move is one atomic step of some process; a
 * move that its process cannot make now leaves the state as it is, so a run is any
 * sequence of moves and a crash is an `Abort` move at any point.
 */
module PipelineState {
  import opened Common
  import opened Alerts

  datatype Group = Canonical | Shadow | Notify

  datatype Config = Config(batchSize: nat, maxDeliveries: nat, maxInflight: nat, policy: Policy)

  predicate ValidConfig(c: Config)
  {
    1 <= c.batchSize <= 1000 && 1 <= c.maxDeliveries <= 100 && 100 <= c.maxInflight <= 10_000_000
  }

  // ---------------------------------------------------------------- database

  datatype Observation = Observation(fact: Fact, processed: bool)

  datatype Decision = Decision(obs: nat, outcome: Outcome, reasons: seq<string>)

  /** What an outbox row tells its consumers; rows refer to observations and decisions by index. */
  datatype Payload =
    | ObservationPersisted(obs: nat)
    | DecisionCreated(decision: nat, subject: nat, outcome: Outcome)

  datatype DedupeKey = CanonicalKey(obs: nat) | ShadowKey(subject: nat)

  datatype Row = Row(key: DedupeKey, payload: Payload, published: bool, attempts: nat, failed: bool)

  datatype Stage = Initial | Escalated

  datatype ActionKey = ActionKey(decision: nat, stage: Stage)

  datatype Message = Message(key: ActionKey, subject: nat, outcome: Outcome, reasons: seq<string>, source: Fact)

  datatype ActionStatus = Planned | Running | Succeeded | RetryableFailure | PermanentFailure

  datatype ActionRow = ActionRow(status: ActionStatus, attempts: nat, payload: Message)

  predicate Terminal(status: ActionStatus) { status.Succeeded? || status.PermanentFailure? }

  /** Row indices stand for the (created_at, id) order; a new row gets the next index. */
  datatype Db = Db(
    observations: seq<Observation>,
    decisions: seq<Decision>,
    outbox: seq<Row>,
    actions: map<ActionKey, ActionRow>,
    notifications: map<ActionKey, ActionStatus>)

  // ---------------------------------------------------------------- stream

  datatype Envelope = Envelope(row: nat, key: DedupeKey, payload: Payload)

  /** `last` counts the entries read so far; `pending` maps an entry to its delivery count. */
  datatype GroupState = GroupState(last: nat, pending: map<nat, nat>)

  datatype DeadLetter = DeadLetter(entry: nat, attempts: nat)

  datatype Stream = Stream(entries: seq<Envelope>, groups: map<Group, GroupState>, dlq: seq<DeadLetter>)

  // ---------------------------------------------------------------- processes

  datatype Publisher = Off | Checked | Open(batch: seq<nat>, done: nat, stopped: bool)

  /** Where a worker is in `run_once`; the head of `queue` is the message being handled. */
  datatype Phase =
    | Idle
    | Polling
    | Batch(queue: seq<nat>)
    | Delivering(queue: seq<nat>, key: ActionKey, message: Message)
    | Replied(queue: seq<nat>, key: ActionKey, reply: DeliveryReply)
    | Returned(queue: seq<nat>)
    | Raised(queue: seq<nat>)
    | Dying(queue: seq<nat>, attempts: nat)

  datatype Worker = Worker(group: Group, phase: Phase)

  /** What the program does not store, kept to state properties of whole runs. */
  datatype History = History(
    calls: multiset<(Group, nat)>,
    returned: set<(Group, nat)>,
    dead: set<(Group, nat)>,
    sent: multiset<ActionKey>,
    messages: set<Message>,
    answers: set<(ActionKey, DeliveryReply)>,
    lost: multiset<ActionKey>)

  datatype Sys = Sys(db: Db, net: Stream, pubs: seq<Publisher>, workers: seq<Worker>, hist: History)

  datatype XaddReply = Added | Refused | AddedButRaised

  datatype TxReply = Commits | RollsBack | CommitsThenRaises

  datatype DeliveryReply = Accepted | Retryable | Permanent | Unexpected

  datatype Move =
    | Ingest(fact: Fact)
    | EnsureGroup(w: nat)
    | Check(p: nat)
    | Select(p: nat)
    | Xadd(p: nat, xadd: XaddReply)
    | Commit(p: nat)
    | PublisherAbort(p: nat)
    | Claim(w: nat, ids: seq<nat>)
    | Read(w: nat)
    | Handle(w: nat, tx: TxReply)
    | Deliver(w: nat, delivery: DeliveryReply)
    | Finish(w: nat, tx: TxReply)
    | Ack(w: nat)
    | Count(w: nat)
    | MoveToDlq(w: nat)
    | Abort(w: nat)

  // ---------------------------------------------------------------- database transactions

  function AddObservation(db: Db, fact: Fact): Db
  {
    var o := |db.observations|;
    db.(observations := db.observations + [Observation(fact, false)],
    outbox := db.outbox + [Row(CanonicalKey(o), ObservationPersisted(o), false, 0, false)])
  }

  /** What a handler call does with its database: nothing, an error, or one transaction. */
  datatype Plan =
    | Skip
    | Fails
    | Writes(db: Db)
    | Starts(started: Db, key: ActionKey, message: Message)

  function MarkProcessed(db: Db, payload: Payload): Plan
  {
    match payload
    case ObservationPersisted(o) =>
      if o >= |db.observations| then Fails
      else Writes(db.(observations := db.observations[o := db.observations[o].(processed := true)]))
    case DecisionCreated(_, _, _) => Skip
  }

  predicate Decided(decisions: seq<Decision>, o: nat)
  {
    exists d :: 0 <= d < |decisions| && decisions[d].obs == o
  }

  function Decide(policy: Policy, db: Db, payload: Payload): Plan
  {
    match payload
    case ObservationPersisted(o) =>
      if o >= |db.observations| then Fails
      else if Decided(db.decisions, o) then Writes(db)
      else
        var result := Evaluate(policy, db.observations[o].fact);
        var d := |db.decisions|;
        Writes(db.(decisions := db.decisions + [Decision(o, result.outcome, result.reasons)],
               outbox := db.outbox + [Row(ShadowKey(o), DecisionCreated(d, o, result.outcome), false, 0, false)]))
    case DecisionCreated(_, _, _) => Skip
  }

  predicate Notifies(outcome: Outcome) { outcome.Send? || outcome.Escalate? }

  function KeyOf(d: nat, outcome: Outcome): ActionKey
  {
    ActionKey(d, if outcome.Escalate? then Escalated else Initial)
  }

  function MessageOf(db: Db, d: nat, o: nat, outcome: Outcome): Message
    requires d < |db.decisions| && o < |db.observations|
  {
    Message(KeyOf(d, outcome), o, outcome, db.decisions[d].reasons, db.observations[o].fact)
  }

  function StartDelivery(db: Db, payload: Payload): Plan
  {
    match payload
    case ObservationPersisted(_) => Skip
    case DecisionCreated(d, o, outcome) =>
      if !Notifies(outcome) then Skip
      else if d >= |db.decisions| || o >= |db.observations| || db.decisions[d].obs != o then Fails
      else
        var key := KeyOf(d, outcome);
        if key in db.actions && Terminal(db.actions[key].status) then Writes(db)
        else
          var message := MessageOf(db, d, o, outcome);
          var action := if key in db.actions then db.actions[key] else ActionRow(Planned, 0, message);
          var notifications := if key in db.actions then db.notifications else db.notifications[key := Planned];
          Starts(db.(actions := db.actions[key := action.(status := Running, attempts := action.attempts + 1)],
                 notifications := notifications),
                 key, message)
  }

  function StatusOf(reply: DeliveryReply): ActionStatus
  {
    match reply
    case Accepted => Succeeded
    case Retryable => RetryableFailure
    case Permanent => PermanentFailure
    case Unexpected => Running
  }

  /** Writing the outcome back: a missing action is an error, a missing notification only on success. */
  function FinishDelivery(db: Db, key: ActionKey, reply: DeliveryReply): Plan
  {
    if key !in db.actions || (reply.Accepted? && key !in db.notifications) then Fails
    else
      Writes(db.(actions := db.actions[key := db.actions[key].(status := StatusOf(reply))],
             notifications := if key in db.notifications then db.notifications[key := StatusOf(reply)]
             else db.notifications))
  }

  function PlanFor(policy: Policy, g: Group, db: Db, payload: Payload): Plan
  {
    match g
    case Canonical => MarkProcessed(db, payload)
    case Shadow => Decide(policy, db, payload)
    case Notify => StartDelivery(db, payload)
  }

  // ---------------------------------------------------------------- Redis commands

  function CreateGroup(net: Stream, g: Group): Stream
  {
    if g in net.groups then net else net.(groups := net.groups[g := GroupState(0, map[])])
  }

  /** XAUTOCLAIM counts one more delivery of each entry it hands over. */
  function ClaimEntries(net: Stream, g: Group, ids: seq<nat>): Stream
    requires g in net.groups
  {
    var gs := net.groups[g];
    var pending := map e | e in gs.pending :: if e in ids then gs.pending[e] + 1 else gs.pending[e];
    net.(groups := net.groups[g := gs.(pending := pending)])
  }

  function Span(from: nat, n: nat): seq<nat>
  {
    seq(n, i requires 0 <= i < n => from + i)
  }

  function FirstDeliveries(from: nat, n: nat): map<nat, nat>
  {
    map e | e in Span(from, n) :: 1
  }

  lemma SpanMembers(from: nat, n: nat)
    ensures forall e :: e in Span(from, n) <==> from <= e < from + n
    ensures forall e :: e in FirstDeliveries(from, n) <==> from <= e < from + n
  {
    forall e | from <= e < from + n ensures e in Span(from, n) {
      assert Span(from, n)[e - from] == e;
    }
  }

  function NewEntries(net: Stream, g: Group, count: nat): seq<nat>
    requires g in net.groups && net.groups[g].last <= |net.entries|
  {
    Span(net.groups[g].last, Min(count, |net.entries| - net.groups[g].last))
  }

  /** XREADGROUP delivers the next undelivered entries for the first time. */
  function ReadEntries(net: Stream, g: Group, count: nat): Stream
    requires g in net.groups && net.groups[g].last <= |net.entries|
  {
    var gs := net.groups[g];
    var n := |NewEntries(net, g, count)|;
    net.(groups := net.groups[g := GroupState(gs.last + n, gs.pending + FirstDeliveries(gs.last, n))])
  }

  function Acknowledge(net: Stream, g: Group, e: nat): Stream
    requires g in net.groups
  {
    net.(groups := net.groups[g := net.groups[g].(pending := net.groups[g].pending - {e})])
  }

  /** XADD to the dead letter stream and XACK, in one Redis transaction. */
  function Bury(net: Stream, g: Group, e: nat, attempts: nat): Stream
    requires g in net.groups
  {
    Acknowledge(net, g, e).(dlq := net.dlq + [DeadLetter(e, attempts)])
  }

  // ---------------------------------------------------------------- publisher moves

  /** Entries a group has not finished with: undelivered ones plus pending ones. */
  function Lag(net: Stream, g: Group): int
    requires g in net.groups
  {
    |net.entries| - net.groups[g].last
  }

  function Backlog(net: Stream, g: Group): int
  {
    if g in net.groups then |net.groups[g].pending| + Lag(net, g) else 0
  }

  function Inflight(net: Stream): int
  {
    Max(Backlog(net, Canonical), Max(Backlog(net, Shadow), Max(Backlog(net, Notify), 0)))
  }

  /** Rows inside the open batch of a publisher other than `p`. */
  predicate LockedByOther(pubs: seq<Publisher>, p: nat, row: nat)
  {
    exists q :: 0 <= q < |pubs| && q != p && pubs[q].Open? && row in pubs[q].batch
  }

  function Pick(outbox: seq<Row>, pubs: seq<Publisher>, p: nat, from: nat, limit: nat): seq<nat>
    decreases |outbox| - from
  {
    if from >= |outbox| || limit == 0 then []
    else if !outbox[from].published && !LockedByOther(pubs, p, from)
    then [from] + Pick(outbox, pubs, p, from + 1, limit - 1)
    else Pick(outbox, pubs, p, from + 1, limit)
  }

  function EnvelopeOf(outbox: seq<Row>, row: nat): Envelope
    requires row < |outbox|
  {
    Envelope(row, outbox[row].key, outbox[row].payload)
  }

  function Append(net: Stream, outbox: seq<Row>, row: nat): Stream
    requires row < |outbox|
  {
    net.(entries := net.entries + [EnvelopeOf(outbox, row)])
  }

  function PublishedRow(r: Row, i: nat, batch: seq<nat>, done: nat, stopped: bool): Row
    requires done <= |batch|
  {
    if i in batch[..done] then r.(published := true, attempts := r.attempts + 1, failed := false)
    else if stopped && done < |batch| && i == batch[done] then r.(attempts := r.attempts + 1, failed := true)
    else r
  }

  function MarkPublished(outbox: seq<Row>, batch: seq<nat>, done: nat, stopped: bool): (r: seq<Row>)
    requires done <= |batch|
    ensures |r| == |outbox|
  {
    seq(|outbox|, i requires 0 <= i < |outbox| => PublishedRow(outbox[i], i, batch, done, stopped))
  }

  function SetPub(s: Sys, p: nat, pub: Publisher): Sys
    requires p < |s.pubs|
  {
    s.(pubs := s.pubs[p := pub])
  }

  function DoCheck(c: Config, s: Sys, p: nat): Sys
  {
    if p < |s.pubs| && s.pubs[p].Off? && Inflight(s.net) < c.maxInflight then SetPub(s, p, Checked) else s
  }

  function DoSelect(c: Config, s: Sys, p: nat): Sys
  {
    if p < |s.pubs| && s.pubs[p].Checked?
    then SetPub(s, p, Open(Pick(s.db.outbox, s.pubs, p, 0, c.batchSize), 0, false))
    else s
  }

  predicate CanXadd(s: Sys, p: nat)
  {
    && p < |s.pubs| && s.pubs[p].Open? && !s.pubs[p].stopped
    && s.pubs[p].done < |s.pubs[p].batch| && s.pubs[p].batch[s.pubs[p].done] < |s.db.outbox|
  }

  function DoXadd(s: Sys, p: nat, reply: XaddReply): Sys
  {
    if !CanXadd(s, p) then s
    else
      var pub := s.pubs[p];
      var row := pub.batch[pub.done];
      var net := if reply.Refused? then s.net else Append(s.net, s.db.outbox, row);
      var pub' := if reply.Added? then pub.(done := pub.done + 1) else pub.(stopped := true);
      SetPub(s, p, pub').(net := net)
  }

  predicate CanCommit(s: Sys, p: nat)
  {
    && p < |s.pubs| && s.pubs[p].Open? && s.pubs[p].done <= |s.pubs[p].batch|
    && (s.pubs[p].stopped || s.pubs[p].done == |s.pubs[p].batch|)
  }

  function DoCommit(s: Sys, p: nat): Sys
  {
    if !CanCommit(s, p) then s
    else
      var pub := s.pubs[p];
      SetPub(s, p, Off).(db := s.db.(outbox := MarkPublished(s.db.outbox, pub.batch, pub.done, pub.stopped)))
  }

  // ---------------------------------------------------------------- worker moves

  function SetPhase(s: Sys, w: nat, phase: Phase): Sys
    requires w < |s.workers|
  {
    s.(workers := s.workers[w := s.workers[w].(phase := phase)])
  }

  function AfterHead(queue: seq<nat>): Phase
  {
    if |queue| <= 1 then Idle else Batch(queue[1..])
  }

  function DoEnsureGroup(s: Sys, w: nat): Sys
  {
    if w < |s.workers| then s.(net := CreateGroup(s.net, s.workers[w].group)) else s
  }

  predicate HasGroup(s: Sys, w: nat)
  {
    w < |s.workers| && s.workers[w].group in s.net.groups
  }

  function GroupOf(s: Sys, w: nat): GroupState
    requires HasGroup(s, w)
  {
    s.net.groups[s.workers[w].group]
  }

  predicate Ascending(ids: seq<nat>)
  {
    forall i, j :: 0 <= i < j < |ids| ==> ids[i] < ids[j]
  }

  predicate CanClaim(c: Config, s: Sys, w: nat, ids: seq<nat>)
  {
    && HasGroup(s, w) && s.workers[w].phase.Idle? && |ids| <= c.batchSize && Ascending(ids)
    && forall i :: 0 <= i < |ids| ==> ids[i] in GroupOf(s, w).pending
  }

  /** Some of the entries that have been pending long enough, in stream order. */
  function DoClaim(c: Config, s: Sys, w: nat, ids: seq<nat>): Sys
  {
    if !CanClaim(c, s, w, ids) then s
    else
      SetPhase(s, w, if ids == [] then Polling else Batch(ids)).(
      net := ClaimEntries(s.net, s.workers[w].group, ids))
  }

  function DoRead(c: Config, s: Sys, w: nat): Sys
  {
    if !HasGroup(s, w) || !s.workers[w].phase.Polling? || GroupOf(s, w).last > |s.net.entries| then s
    else
      var ids := NewEntries(s.net, s.workers[w].group, c.batchSize);
      SetPhase(s, w, if ids == [] then Idle else Batch(ids)).(
      net := ReadEntries(s.net, s.workers[w].group, c.batchSize))
  }

  /** The message at the head of a worker's queue is one of the stream. */
  predicate HasMessage(s: Sys, w: nat, queue: seq<nat>)
  {
    HasGroup(s, w) && queue != [] && queue[0] < |s.net.entries|
  }

  function Return(s: Sys, w: nat, queue: seq<nat>): Sys
    requires w < |s.workers| && queue != []
  {
    SetPhase(s, w, Returned(queue)).(
    hist := s.hist.(returned := s.hist.returned + {(s.workers[w].group, queue[0])}))
  }

  /** A transaction of a handler, and what the call does when it commits. */
  function Transact(s: Sys, w: nat, queue: seq<nat>, db: Db, tx: TxReply, raises: bool): Sys
    requires w < |s.workers| && queue != []
  {
    match tx
    case Commits =>
      var s' := s.(db := db);
      if raises then SetPhase(s', w, Raised(queue)) else Return(s', w, queue)
    case RollsBack => SetPhase(s, w, Raised(queue))
    case CommitsThenRaises => SetPhase(s.(db := db), w, Raised(queue))
  }

  function DoHandle(c: Config, s: Sys, w: nat, tx: TxReply): Sys
  {
    if w >= |s.workers| || !s.workers[w].phase.Batch? || !HasMessage(s, w, s.workers[w].phase.queue) then s
    else
      var queue := s.workers[w].phase.queue;
      var g := s.workers[w].group;
      var s1 := s.(hist := s.hist.(calls := s.hist.calls + multiset{(g, queue[0])}));
      match PlanFor(c.policy, g, s.db, s.net.entries[queue[0]].payload)
      case Skip => Return(s1, w, queue)
      case Fails => SetPhase(s1, w, Raised(queue))
      case Writes(db) => Transact(s1, w, queue, db, tx, false)
      case Starts(db, key, message) =>
        match tx
        case Commits => SetPhase(s1.(db := db), w, Delivering(queue, key, message))
        case RollsBack => SetPhase(s1, w, Raised(queue))
        case CommitsThenRaises =>
          SetPhase(s1.(db := db, hist := s1.hist.(lost := s1.hist.lost + multiset{key})), w, Raised(queue))
  }

  function DoDeliver(s: Sys, w: nat, reply: DeliveryReply): Sys
  {
    if w >= |s.workers| || !s.workers[w].phase.Delivering? then s
    else
      var ph := s.workers[w].phase;
      var hist := s.hist.(sent := s.hist.sent + multiset{ph.key}, messages := s.hist.messages + {ph.message},
                          answers := s.hist.answers + {(ph.key, reply)});
      SetPhase(s, w, if reply.Unexpected? then Raised(ph.queue) else Replied(ph.queue, ph.key, reply)).(hist := hist)
  }

  function DoFinish(s: Sys, w: nat, tx: TxReply): Sys
  {
    if w >= |s.workers| || !s.workers[w].phase.Replied? || !HasMessage(s, w, s.workers[w].phase.queue) then s
    else
      var ph := s.workers[w].phase;
      match FinishDelivery(s.db, ph.key, ph.reply)
      case Writes(db) => Transact(s, w, ph.queue, db, tx, ph.reply.Retryable?)
      case _ => SetPhase(s, w, Raised(ph.queue))
  }

  function DoAck(s: Sys, w: nat): Sys
  {
    if w >= |s.workers| || !s.workers[w].phase.Returned? || !HasMessage(s, w, s.workers[w].phase.queue) then s
    else
      var queue := s.workers[w].phase.queue;
      SetPhase(s, w, AfterHead(queue)).(net := Acknowledge(s.net, s.workers[w].group, queue[0]))
  }

  function DeliveryCount(gs: GroupState, e: nat): nat
  {
    if e in gs.pending then gs.pending[e] else 1
  }

  function DoCount(c: Config, s: Sys, w: nat): Sys
  {
    if w >= |s.workers| || !s.workers[w].phase.Raised? || !HasMessage(s, w, s.workers[w].phase.queue) then s
    else
      var queue := s.workers[w].phase.queue;
      var attempts := DeliveryCount(GroupOf(s, w), queue[0]);
      SetPhase(s, w, if attempts >= c.maxDeliveries then Dying(queue, attempts) else AfterHead(queue))
  }

  function DoMoveToDlq(s: Sys, w: nat): Sys
  {
    if w >= |s.workers| || !s.workers[w].phase.Dying? || !HasMessage(s, w, s.workers[w].phase.queue) then s
    else
      var queue := s.workers[w].phase.queue;
      var g := s.workers[w].group;
      SetPhase(s, w, AfterHead(queue)).(
      net := Bury(s.net, g, queue[0], s.workers[w].phase.attempts),
      hist := s.hist.(dead := s.hist.dead + {(g, queue[0])}))
  }

  /** A crash, or an error that leaves `run_once`: what the worker had in hand is forgotten. */
  function DoAbort(s: Sys, w: nat): Sys
  {
    if w >= |s.workers| then s
    else
      var ph := s.workers[w].phase;
      var s' := SetPhase(s, w, Idle);
      if ph.Delivering? then s'.(hist := s.hist.(lost := s.hist.lost + multiset{ph.key})) else s'
  }

  function Next(c: Config, s: Sys, m: Move): Sys
  {
    match m
    case Ingest(fact) => s.(db := AddObservation(s.db, fact))
    case EnsureGroup(w) => DoEnsureGroup(s, w)
    case Check(p) => DoCheck(c, s, p)
    case Select(p) => DoSelect(c, s, p)
    case Xadd(p, reply) => DoXadd(s, p, reply)
    case Commit(p) => DoCommit(s, p)
    case PublisherAbort(p) => if p < |s.pubs| then SetPub(s, p, Off) else s
    case Claim(w, ids) => DoClaim(c, s, w, ids)
    case Read(w) => DoRead(c, s, w)
    case Handle(w, tx) => DoHandle(c, s, w, tx)
    case Deliver(w, reply) => DoDeliver(s, w, reply)
    case Finish(w, tx) => DoFinish(s, w, tx)
    case Ack(w) => DoAck(s, w)
    case Count(w) => DoCount(c, s, w)
    case MoveToDlq(w) => DoMoveToDlq(s, w)
    case Abort(w) => DoAbort(s, w)
  }

  /** Nothing has happened: no rows, no stream, every process at rest. */
  predicate Start(s: Sys)
  {
    && s.db == Db([], [], [], map[], map[])
    && s.net == Stream([], map[], [])
    && s.hist == History(multiset{}, {}, {}, multiset{}, {}, {}, multiset{})
    && (forall p :: 0 <= p < |s.pubs| ==> s.pubs[p].Off?)
    && (forall w :: 0 <= w < |s.workers| ==> s.workers[w].phase.Idle?)
  }

  function Run(c: Config, s: Sys, moves: seq<Move>): Sys
  {
    if moves == [] then s else Next(c, Run(c, s, moves[..|moves| - 1]), moves[|moves| - 1])
  }

  lemma {:induction false} RunAppend(c: Config, s: Sys, a: seq<Move>, b: seq<Move>)
    ensures Run(c, s, a + b) == Run(c, Run(c, s, a), b)
  {
    if b == [] {
      assert a + b == a;
    } else {
      RunAppend(c, s, a, b[..|b| - 1]);
      assert (a + b)[..|a + b| - 1] == a + b[..|b| - 1];
    }
  }

  predicate OneWorkerPerGroup(s: Sys)
  {
    forall v, w :: 0 <= v < w < |s.workers| ==> s.workers[v].group != s.workers[w].group
  }
}
