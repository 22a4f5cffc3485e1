/** The consumer loop of one group. */
module WorkerProcess {
  import opened Common
  import opened Alerts
  import opened PipelineState
  import opened PipelineProcess
  import opened Handlers
  import ClosedLoop
  import NoLoss
  import TotalWork

  datatype WorkerRunResult = WorkerRunResult(processed: nat, failed: nat, deadLettered: nat)

  function Total(r: WorkerRunResult): nat { r.processed + r.failed + r.deadLettered }

  ghost predicate CalmTrace(trace: seq<Move>)
  {
    forall i :: 0 <= i < |trace| ==> TotalWork.Calm(trace[i]) && !trace[i].Ingest?
  }

  /** The moves of one handler call. */
  function CallTrace(w: nat, plan: Plan, tx1: TxReply, reply: DeliveryReply, tx2: TxReply): seq<Move>
  {
    if !plan.Starts? || !tx1.Commits? then [Handle(w, tx1)]
    else if reply.Unexpected? then [Handle(w, tx1), Deliver(w, reply)]
    else [Handle(w, tx1), Deliver(w, reply), Finish(w, tx2)]
  }

  function PlanOfHead(c: Config, s: Sys, w: nat): Plan
    requires w < |s.workers| && s.workers[w].phase.Batch? && HasMessage(s, w, s.workers[w].phase.queue)
  {
    PlanFor(c.policy, s.workers[w].group, s.db, s.net.entries[s.workers[w].phase.queue[0]].payload)
  }

  /** After a call: the worker knows whether the handler raised, and one more call is on record. */
  ghost predicate Called(s: Sys, t: Sys, w: nat, db: Db, raised: bool)
  {
    && w < |s.workers| && s.workers[w].phase.Batch? && s.workers[w].phase.queue != []
    && t.db == db && t.net == s.net && t.pubs == s.pubs
    && t.workers == s.workers[w := s.workers[w].(phase :=
         if raised then Raised(s.workers[w].phase.queue) else Returned(s.workers[w].phase.queue))]
    && t.hist.calls == s.hist.calls + multiset{(s.workers[w].group, s.workers[w].phase.queue[0])}
  }

  lemma SimpleCall(c: Config, s: Sys, w: nat, tx: TxReply)
    requires w < |s.workers| && s.workers[w].phase.Batch? && HasMessage(s, w, s.workers[w].phase.queue)
    requires !PlanOfHead(c, s, w).Starts? || !tx.Commits?
    ensures var after := AfterPlan(PlanOfHead(c, s, w), s.db, tx);
            Called(s, Next(c, s, Handle(w, tx)), w, after.0, after.1)
  {
  }

  lemma StartedCall(c: Config, s: Sys, w: nat)
    requires w < |s.workers| && s.workers[w].phase.Batch? && HasMessage(s, w, s.workers[w].phase.queue)
    requires PlanOfHead(c, s, w).Starts?
    ensures var plan := PlanOfHead(c, s, w);
            var queue := s.workers[w].phase.queue;
            Next(c, s, Handle(w, Commits)) == s.(db := plan.started,
              workers := s.workers[w := s.workers[w].(phase := Delivering(queue, plan.key, plan.message))],
              hist := s.hist.(calls := s.hist.calls + multiset{(s.workers[w].group, queue[0])}))
  {
  }

  lemma DeliveredCall(c: Config, s: Sys, w: nat, reply: DeliveryReply)
    requires w < |s.workers| && s.workers[w].phase.Delivering?
    ensures var ph := s.workers[w].phase;
            var t := Next(c, s, Deliver(w, reply));
            && t.db == s.db && t.net == s.net && t.pubs == s.pubs && t.hist.calls == s.hist.calls
            && t.workers == s.workers[w := s.workers[w].(phase :=
                 if reply.Unexpected? then Raised(ph.queue) else Replied(ph.queue, ph.key, reply))]
  {
  }

  lemma FinishedCall(c: Config, s: Sys, w: nat, tx: TxReply)
    requires w < |s.workers| && s.workers[w].phase.Replied? && HasMessage(s, w, s.workers[w].phase.queue)
    ensures var ph := s.workers[w].phase;
            var t := Next(c, s, Finish(w, tx));
            var after := AfterPlan(FinishDelivery(s.db, ph.key, ph.reply), s.db, tx);
            && t.db == after.0 && t.net == s.net && t.pubs == s.pubs && t.hist.calls == s.hist.calls
            && t.workers == s.workers[w := s.workers[w].(phase :=
                 if after.1 || ph.reply.Retryable? then Raised(ph.queue) else Returned(ph.queue))]
  {
  }

  lemma NotifyCall(c: Config, s: Sys, w: nat, reply: DeliveryReply, tx2: TxReply)
    requires w < |s.workers| && s.workers[w].phase.Batch? && HasMessage(s, w, s.workers[w].phase.queue)
    requires PlanOfHead(c, s, w).Starts? && s.workers[w].group.Notify?
    ensures var payload := s.net.entries[s.workers[w].phase.queue[0]].payload;
            var after := NotifyResult(s.db, payload, Commits, reply, tx2);
            Called(s, Run(c, s, CallTrace(w, PlanOfHead(c, s, w), Commits, reply, tx2)), w, after.0, after.1)
  {
    var s1 := Next(c, s, Handle(w, Commits));
    StartedCall(c, s, w);
    DeliveredCall(c, s1, w, reply);
    var s2 := Next(c, s1, Deliver(w, reply));
    RunTwo(c, s, Handle(w, Commits), Deliver(w, reply));
    if !reply.Unexpected? {
      FinishedCall(c, s2, w, tx2);
      RunStep(c, s, [Handle(w, Commits), Deliver(w, reply)], Finish(w, tx2));
      assert [Handle(w, Commits), Deliver(w, reply)] + [Finish(w, tx2)]
          == [Handle(w, Commits), Deliver(w, reply), Finish(w, tx2)];
    }
  }

  lemma RunOne(c: Config, s: Sys, m: Move)
    ensures Run(c, s, [m]) == Next(c, s, m)
  {
    RunStep(c, s, [], m);
    assert [] + [m] == [m];
  }

  /** What a handler call leaves in the database, and whether it raises. */
  function CallResult(policy: Policy, g: Group, db: Db, payload: Payload, tx1: TxReply, reply: DeliveryReply, tx2: TxReply)
    : (Db, bool)
  {
    if g.Notify? then NotifyResult(db, payload, tx1, reply, tx2) else AfterPlan(PlanFor(policy, g, db, payload), db, tx1)
  }

  lemma HandlerCall(c: Config, s: Sys, w: nat, tx1: TxReply, reply: DeliveryReply, tx2: TxReply)
    requires w < |s.workers| && s.workers[w].phase.Batch? && HasMessage(s, w, s.workers[w].phase.queue)
    ensures var payload := s.net.entries[s.workers[w].phase.queue[0]].payload;
            var after := CallResult(c.policy, s.workers[w].group, s.db, payload, tx1, reply, tx2);
            Called(s, Run(c, s, CallTrace(w, PlanOfHead(c, s, w), tx1, reply, tx2)), w, after.0, after.1)
  {
    if PlanOfHead(c, s, w).Starts? && tx1.Commits? {
      NotifyCall(c, s, w, reply, tx2);
    } else {
      SimpleCall(c, s, w, tx1);
      RunOne(c, s, Handle(w, tx1));
    }
  }

  /** A round begins by making sure of the group and claiming; only an empty claim reads on. */
  function PollMoves(w: nat, claimed: seq<nat>): seq<Move>
  {
    [Move.EnsureGroup(w), Claim(w, claimed)] + if claimed == [] then [Read(w)] else []
  }

  predicate Claimable(c: Config, net: Stream, g: Group, claimed: seq<nat>)
  {
    && g in net.groups && |claimed| <= c.batchSize && Ascending(claimed)
    && forall i :: 0 <= i < |claimed| ==> claimed[i] in net.groups[g].pending
  }

  /** What a poll leaves in Redis, and the messages it returns. */
  function PollResult(c: Config, net: Stream, g: Group, claimed: seq<nat>): (Stream, seq<nat>)
    requires g in net.groups && net.groups[g].last <= |net.entries|
  {
    if claimed != [] then (ClaimEntries(net, g, claimed), claimed)
    else (ReadEntries(net, g, c.batchSize), NewEntries(net, g, c.batchSize))
  }

  lemma EmptyClaim(net: Stream, g: Group)
    requires g in net.groups
    ensures ClaimEntries(net, g, []) == net
  {
    assert ClaimEntries(net, g, []).groups[g].pending == net.groups[g].pending;
  }

  lemma ClaimMove(c: Config, s: Sys, w: nat, claimed: seq<nat>)
    requires w < |s.workers| && s.workers[w].phase.Idle? && Claimable(c, s.net, s.workers[w].group, claimed)
    ensures Next(c, s, Claim(w, claimed)) == s.(net := ClaimEntries(s.net, s.workers[w].group, claimed),
              workers := s.workers[w := s.workers[w].(phase := if claimed == [] then Polling else Batch(claimed))])
  {
  }

  lemma ReadMove(c: Config, s: Sys, w: nat)
    requires w < |s.workers| && s.workers[w].phase.Polling? && s.workers[w].group in s.net.groups
    requires s.net.groups[s.workers[w].group].last <= |s.net.entries|
    ensures var ids := NewEntries(s.net, s.workers[w].group, c.batchSize);
            Next(c, s, Read(w)) == s.(net := ReadEntries(s.net, s.workers[w].group, c.batchSize),
              workers := s.workers[w := s.workers[w].(phase := if ids == [] then Idle else Batch(ids))])
  {
  }

  /** The moves of a poll leave exactly what the poll returned in the worker's hand. */
  lemma PollTrace(c: Config, s: Sys, w: nat, claimed: seq<nat>)
    requires w < |s.workers| && s.workers[w].phase.Idle?
    requires var net := CreateGroup(s.net, s.workers[w].group);
             net.groups[s.workers[w].group].last <= |net.entries| && Claimable(c, net, s.workers[w].group, claimed)
    ensures var polled := PollResult(c, CreateGroup(s.net, s.workers[w].group), s.workers[w].group, claimed);
            Run(c, s, PollMoves(w, claimed)) == s.(net := polled.0,
              workers := s.workers[w := s.workers[w].(phase := if polled.1 == [] then Idle else Batch(polled.1))])
  {
    var g := s.workers[w].group;
    var s1 := s.(net := CreateGroup(s.net, g));
    assert Next(c, s, Move.EnsureGroup(w)) == s1;
    ClaimMove(c, s1, w, claimed);
    var s2 := Next(c, s1, Claim(w, claimed));
    RunTwo(c, s, Move.EnsureGroup(w), Claim(w, claimed));
    if claimed == [] {
      EmptyClaim(s1.net, g);
      ReadMove(c, s2, w);
      RunStep(c, s, [Move.EnsureGroup(w), Claim(w, [])], Read(w));
    } else {
      assert PollMoves(w, claimed) == [Move.EnsureGroup(w), Claim(w, claimed)];
    }
  }

  /** Nothing was pending and nothing new arrived. */
  ghost predicate NothingThere(s: Sys, t: Sys, g: Group)
  {
    ClosedLoop.Drained(t, g) && (g in s.net.groups ==> t == s)
  }

  lemma EmptyPoll(c: Config, net: Stream, g: Group)
    requires g in net.groups && net.groups[g] == GroupState(|net.entries|, map[])
    ensures PollResult(c, net, g, []) == (net, [])
  {
    assert FirstDeliveries(|net.entries|, 0) == map[];
    assert ReadEntries(net, g, c.batchSize).groups == net.groups;
  }

  /** The first `i` of the polled messages had their turn. */
  ghost predicate Partway(s: Sys, t: Sys, w: nat, ids: seq<nat>, i: nat)
  {
    && w < |s.workers| && i <= |ids|
    && t.workers == s.workers[w := s.workers[w].(phase := if i == |ids| then Idle else Batch(ids[i..]))]
    && t.pubs == s.pubs && t.net.entries == s.net.entries && t.net.groups.Keys == s.net.groups.Keys
    && |t.hist.calls| == |s.hist.calls| + i && s.workers[w].group in s.net.groups
  }

  lemma HeadInHand(s: Sys, t: Sys, w: nat, ids: seq<nat>, i: nat)
    requires Partway(s, t, w, ids, i) && i < |ids| && ids[i] < |s.net.entries|
    ensures t.workers[w].phase == Batch(ids[i..]) && HasMessage(t, w, ids[i..]) && ids[i..][0] == ids[i]
  {
  }

  /** The turns so far are the moves of the first `i` messages. */
  ghost predicate Consuming(c: Config, s: Sys, t: Sys, w: nat, ids: seq<nat>, i: nat, turns: seq<Move>)
  {
    t == Run(c, s, turns) && CalmTrace(turns) && Partway(s, t, w, ids, i) && (i == 0 ==> turns == [])
  }

  lemma TurnDone(c: Config, s: Sys, t: Sys, t': Sys, w: nat, ids: seq<nat>, i: nat, turns: seq<Move>, turn: seq<Move>)
    requires Consuming(c, s, t, w, ids, i, turns) && i < |ids|
    requires Turned(t, t', w) && t' == Run(c, t, turn) && CalmTrace(turn)
    ensures Consuming(c, s, t', w, ids, i + 1, turns + turn)
  {
    assert ids[i..][1..] == ids[i + 1..];
    RunAppend(c, s, turns, turn);
  }

  /** Everything a poll returns is in the stream. */
  lemma PolledInStream(s: Sys, w: nat, ids: seq<nat>)
    requires NoLoss.Inv(s) && w < |s.workers| && s.workers[w].phase == if ids == [] then Idle else Batch(ids)
    ensures forall i :: 0 <= i < |ids| ==> ids[i] < |s.net.entries|
  {
    assert NoLoss.WorkerOk(s.net.groups, s.hist.returned, s.workers[w]);
    assert NoLoss.QueueOf(s.workers[w].phase) == ids;
  }

  function Tally(result: WorkerRunResult, ending: Ending): (r: WorkerRunResult)
    ensures Total(r) == Total(result) + 1
  {
    match ending
    case Processed => result.(processed := result.processed + 1)
    case Failed => result.(failed := result.failed + 1)
    case DeadLettered => result.(deadLettered := result.deadLettered + 1)
  }

  /** After a round: the worker is at rest again, and `calls` messages had a handler call. */
  ghost predicate Rounded(s: Sys, t: Sys, w: nat, calls: nat)
  {
    && w < |s.workers| && t.workers == s.workers && t.pubs == s.pubs && t.net.entries == s.net.entries
    && t.net.groups.Keys == s.net.groups.Keys + {s.workers[w].group}
    && |t.hist.calls| == |s.hist.calls| + calls
  }

  lemma ClaimNeedsPending(c: Config, net: Stream, g: Group, claimed: seq<nat>)
    requires Claimable(c, net, g, claimed) && claimed != []
    ensures net.groups[g].pending != map[]
  {
    assert claimed[0] in net.groups[g].pending;
  }

  lemma RoundEnds(c: Config, s: Sys, s1: Sys, t: Sys, w: nat, claimed: seq<nat>, ids: seq<nat>)
    requires w < |s.workers| && s.workers[w].phase.Idle? && ValidConfig(c)
    requires var g := s.workers[w].group;
             var net := CreateGroup(s.net, g);
             && net.groups[g].last <= |net.entries| && Claimable(c, net, g, claimed)
             && (s1.net, ids) == PollResult(c, net, g, claimed)
             && s1 == s.(net := s1.net,
                         workers := s.workers[w := s.workers[w].(phase := if ids == [] then Idle else Batch(ids))])
    requires Partway(s1, t, w, ids, |ids|) && (ids == [] ==> t == s1)
    ensures var g := s.workers[w].group;
            var net := CreateGroup(s.net, g);
            && Rounded(s, t, w, |ids|)
            && (ids == [] && net.groups[g].pending == map[] ==> NothingThere(s, t, g))
            && (ClosedLoop.Drained(s, g) ==> t == s)
  {
    var g := s.workers[w].group;
    var net := CreateGroup(s.net, g);
    assert s.workers[w := s.workers[w]] == s.workers;
    if net.groups[g] == GroupState(|net.entries|, map[]) {
      if claimed != [] {
        ClaimNeedsPending(c, net, g, claimed);
      }
      EmptyPoll(c, net, g);
    }
  }

  class RedisStreamWorker {
    const db: Database
    const redis: RedisServer
    const config: Config
    const group: Group
    var groupReady: bool

    constructor (db: Database, redis: RedisServer, config: Config, group: Group)
      ensures this.db == db && this.redis == redis && this.config == config && this.group == group && !groupReady
    {
      this.db, this.redis, this.config, this.group, groupReady := db, redis, config, group, false;
    }

    /**
     * The group, once. An existing group is no error; any other error of Redis raises, before or after
     * the group was made, and then the next call tries again.
     */
    method EnsureGroup(healthy: bool) returns (raised: bool)
      requires groupReady ==> group in redis.groups
      modifies this, redis
      ensures groupReady <==> !raised
      ensures raised ==> !healthy && !old(groupReady)
      ensures redis.Value() == CreateGroup(old(redis.Value()), group) || (raised && redis.Value() == old(redis.Value()))
    {
      if groupReady {
        return false;
      }
      var answered: bool := *;
      if !healthy && !answered {
        var made: bool := *;
        if made {
          redis.XgroupCreate(group);
        }
        return true;
      }
      redis.XgroupCreate(group);
      groupReady := true;
      raised := false;
    }

    /** The handler of this worker's group, with the moves its call makes. */
    method Invoke(e: nat, ghost s: Sys, ghost w: nat)
      returns (raised: bool, ghost t: Sys, ghost trace: seq<Move>)
      requires Synced(s, db, redis) && w < |s.workers| && s.workers[w].group == group
      requires s.workers[w].phase.Batch? && HasMessage(s, w, s.workers[w].phase.queue)
      requires e == s.workers[w].phase.queue[0]
      modifies db
      ensures Synced(t, db, redis) && t == Run(config, s, trace) && CalmTrace(trace)
      ensures Called(s, t, w, t.db, raised) && trace != [] && trace[0].Handle?
    {
      var payload := redis.entries[e].payload;
      ghost var tx, reply, tx2 := Commits, Accepted, Commits;
      match group {
        case Canonical =>
          var handler := new ObservationProcessedHandler(db);
          raised, tx := handler.Call(payload);
        case Shadow =>
          var handler := new ShadowDecisionHandler(db, config.policy);
          raised, tx := handler.Call(payload);
        case Notify =>
          var handler := new CommunityNotificationHandler(db);
          raised, tx, reply, tx2 := handler.Call(payload);
      }
      HandlerCall(config, s, w, tx, reply, tx2);
      trace := CallTrace(w, PlanOfHead(config, s, w), tx, reply, tx2);
      t := Run(config, s, trace);
    }

    /** XAUTOCLAIM: some of the entries pending long enough; with `idle`, at least one if any is pending. */
    method RecoverPending(idle: bool) returns (ids: seq<nat>)
      requires group in redis.groups && 1 <= config.batchSize
      modifies redis
      ensures Claimable(config, old(redis.Value()), group, ids)
      ensures idle && ids == [] ==> old(redis.groups[group]).pending == map[]
      ensures redis.Value() == ClaimEntries(old(redis.Value()), group, ids)
    {
      ids := *;
      if !Claimable(config, redis.Value(), group, ids) || (idle && ids == []) {
        ids := [];
        var pending := redis.groups[group].pending;
        if pending != map[] {
          var e :| e in pending;
          ids := [e];
        }
      }
      redis.Xautoclaim(group, ids);
    }

    /** The messages of this round: recovered pending ones, otherwise new ones. */
    method Poll(idle: bool) returns (ids: seq<nat>, ghost claimed: seq<nat>)
      requires ValidConfig(config) && (groupReady ==> group in redis.groups)
      requires group in redis.groups ==> redis.groups[group].last <= |redis.entries|
      modifies this, redis
      ensures groupReady && Claimable(config, CreateGroup(old(redis.Value()), group), group, claimed)
      ensures (redis.Value(), ids) == PollResult(config, CreateGroup(old(redis.Value()), group), group, claimed)
      ensures idle && claimed == [] ==> CreateGroup(old(redis.Value()), group).groups[group].pending == map[]
    {
      var raised := EnsureGroup(true);
      ghost var net := redis.Value();
      ids := RecoverPending(idle);
      claimed := ids;
      if ids == [] {
        EmptyClaim(net, group);
        ids := redis.Xreadgroup(group, config.batchSize);
      }
    }

    /** The loop over the messages of a round. */
    method Consume(ids: seq<nat>, ghost s: Sys, ghost w: nat)
      returns (result: WorkerRunResult, ghost t: Sys, ghost turns: seq<Move>)
      requires Synced(s, db, redis) && group in redis.groups
      requires forall i :: 0 <= i < |ids| ==> ids[i] < |s.net.entries|
      requires w < |s.workers| && s.workers[w] == Worker(group, if ids == [] then Idle else Batch(ids))
      modifies db, redis
      ensures Synced(t, db, redis) && t == Run(config, s, turns) && CalmTrace(turns)
      ensures Partway(s, t, w, ids, |ids|) && Total(result) == |ids| && (ids == [] ==> turns == [])
    {
      result, t, turns := WorkerRunResult(0, 0, 0), s, [];
      assert ids[0..] == ids;
      assert s.workers[w := s.workers[w]] == s.workers;
      for i := 0 to |ids|
        invariant Synced(t, db, redis) && Consuming(config, s, t, w, ids, i, turns) && Total(result) == i
        invariant s.workers[w].group == group
      {
        HeadInHand(s, t, w, ids, i);
        ghost var turn;
        ghost var t1;
        var ending;
        ending, t1, turn := HandleMessage(ids[i], t, w);
        TurnDone(config, s, t, t1, w, ids, i, turns, turn);
        result, turns, t := Tally(result, ending), turns + turn, t1;
      }
    }

    /** One round of the worker. */
    method RunOnce(idle: bool, ghost s: Sys, ghost w: nat)
      returns (result: WorkerRunResult, ghost t: Sys, ghost claimed: seq<nat>, ghost turns: seq<Move>)
      requires Synced(s, db, redis) && NoLoss.Inv(s) && ValidConfig(config)
      requires w < |s.workers| && s.workers[w] == Worker(group, Idle) && (groupReady ==> group in redis.groups)
      modifies this, db, redis
      ensures Synced(t, db, redis) && t == Run(config, s, PollMoves(w, claimed) + turns) && CalmTrace(turns)
      ensures Rounded(s, t, w, Total(result)) && groupReady
      ensures idle && Total(result) == 0 ==> NothingThere(s, t, group)
      ensures ClosedLoop.Drained(s, group) ==> t == s
    {
      var ids;
      ghost var net := CreateGroup(s.net, group);
      ids, claimed := Poll(idle);
      PollTrace(config, s, w, claimed);
      ghost var s1 := Run(config, s, PollMoves(w, claimed));
      NoLoss.RunKeeps(config, s, PollMoves(w, claimed));
      PolledInStream(s1, w, ids);
      result, t, turns := Consume(ids, s1, w);
      RunAppend(config, s, PollMoves(w, claimed), turns);
      RoundEnds(config, s, s1, t, w, claimed, ids);
    }

    method DeliveryCountOf(e: nat) returns (attempts: nat)
      requires group in redis.groups
      ensures attempts == DeliveryCount(redis.groups[group], e)
    {
      attempts := if e in redis.groups[group].pending then redis.groups[group].pending[e] else 1;
    }

    /** One turn of the loop over the messages: call the handler, then acknowledge, keep or bury. */
    method HandleMessage(e: nat, ghost s: Sys, ghost w: nat)
      returns (ending: Ending, ghost t: Sys, ghost trace: seq<Move>)
      requires Synced(s, db, redis) && w < |s.workers| && s.workers[w].group == group
      requires s.workers[w].phase.Batch? && HasMessage(s, w, s.workers[w].phase.queue)
      requires e == s.workers[w].phase.queue[0]
      modifies db, redis
      ensures Synced(t, db, redis) && t == Run(config, s, trace) && CalmTrace(trace) && trace != [] && trace[0].Handle?
      ensures Turned(s, t, w)
      ensures ending.Processed? <==> trace[|trace| - 1] == Ack(w)
      ensures ending.DeadLettered? <==> trace[|trace| - 1] == Move.MoveToDlq(w)
    {
      var raised;
      ghost var t1, call;
      raised, t1, call := Invoke(e, s, w);
      if raised {
        CountTurn(config, s, t1, w);
        var attempts := DeliveryCountOf(e);
        if attempts >= config.maxDeliveries {
          redis.MoveToDlq(group, e, attempts);
          trace := call + [Count(w)] + [Move.MoveToDlq(w)];
          ending := DeadLettered;
          RunStep(config, s, call + [Count(w)], Move.MoveToDlq(w));
        } else {
          trace := call + [Count(w)];
          ending := Failed;
        }
        RunStep(config, s, call, Count(w));
      } else {
        redis.Xack(group, e);
        trace := call + [Ack(w)];
        ending := Processed;
        AckTurn(config, s, t1, w);
        RunStep(config, s, call, Ack(w));
      }
      t := Run(config, s, trace);
    }
  }

  datatype Ending = Processed | Failed | DeadLettered

  /** The head of the queue has had its turn. */
  ghost predicate Turned(s: Sys, t: Sys, w: nat)
  {
    && w < |s.workers| && s.workers[w].phase.Batch? && s.workers[w].phase.queue != []
    && s.workers[w].group in s.net.groups
    && t.pubs == s.pubs && t.net.entries == s.net.entries
    && t.workers == s.workers[w := s.workers[w].(phase := AfterHead(s.workers[w].phase.queue))]
    && t.net.groups.Keys == s.net.groups.Keys
    && |t.hist.calls| == |s.hist.calls| + 1
  }

  lemma AckTurn(c: Config, s: Sys, t: Sys, w: nat)
    requires w < |s.workers| && s.workers[w].phase.Batch? && HasMessage(s, w, s.workers[w].phase.queue)
    requires Called(s, t, w, t.db, false)
    ensures var t2 := Next(c, t, Ack(w));
            var g := s.workers[w].group;
            && t2.db == t.db && Turned(s, t2, w)
            && t2.net == Acknowledge(t.net, g, s.workers[w].phase.queue[0])
  {
  }

  lemma CountTurn(c: Config, s: Sys, t: Sys, w: nat)
    requires w < |s.workers| && s.workers[w].phase.Batch? && HasMessage(s, w, s.workers[w].phase.queue)
    requires Called(s, t, w, t.db, true)
    ensures var t2 := Next(c, t, Count(w));
            var g := s.workers[w].group;
            var head := s.workers[w].phase.queue[0];
            var attempts := DeliveryCount(t.net.groups[g], head);
            && t2.db == t.db && t2.net == t.net
            && (attempts < c.maxDeliveries ==> Turned(s, t2, w))
            && (attempts >= c.maxDeliveries ==>
                  var t3 := Next(c, t2, Move.MoveToDlq(w));
                  && t3.db == t.db && Turned(s, t3, w)
                  && t3.net == Bury(t.net, g, head, attempts))
  {
  }
}
