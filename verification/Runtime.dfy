/** The runtime loop: publish a batch, then one round of every worker, again and again. */
module Runtime {
  import opened Common
  import opened PipelineState
  import opened PipelineProcess
  import opened WorkerProcess
  import opened TotalWork
  import opened Frames
  import ClosedLoop
  import NoLoss

  /** No row waits to be published and no group has anything left to read or to finish. */
  ghost predicate Quiescent(s: Sys)
  {
    && (forall r :: 0 <= r < |s.db.outbox| ==> s.db.outbox[r].published)
    && AllDrained(s, |s.workers|)
  }

  /** The groups of the first `n` workers. */
  ghost predicate AllDrained(s: Sys, n: nat)
    requires n <= |s.workers|
  {
    forall w :: 0 <= w < n ==> ClosedLoop.Drained(s, s.workers[w].group)
  }

  function Work(s: Sys): nat
  {
    |s.hist.calls| + |s.net.entries|
  }

  /** The moves made in between, with no crash, no Redis error and no new observation. */
  ghost predicate Traced(c: Config, s: Sys, t: Sys, trace: seq<Move>)
  {
    t == Run(c, s, trace) && CalmTrace(trace)
  }

  lemma TraceAppend(c: Config, s: Sys, t: Sys, u: Sys, a: seq<Move>, b: seq<Move>)
    requires Traced(c, s, t, a) && Traced(c, t, u, b)
    ensures Traced(c, s, u, a + b)
  {
    RunAppend(c, s, a, b);
  }

  lemma RoundTrace(c: Config, s: Sys, t: Sys, w: nat, claimed: seq<nat>, turns: seq<Move>)
    requires t == Run(c, s, PollMoves(w, claimed) + turns) && CalmTrace(turns)
    ensures Traced(c, s, t, PollMoves(w, claimed) + turns)
  {
  }

  lemma NextObservations(c: Config, s: Sys, m: Move)
    requires !m.Ingest?
    ensures |Next(c, s, m).db.observations| == |s.db.observations|
  {
    if PublisherMove(m) {
      PublisherMoves(c, s, m);
    } else if ConsumerMove(m) {
      ConsumerMoves(c, s, m);
    }
  }

  lemma {:induction false} TracedKeeps(c: Config, s: Sys, t: Sys, trace: seq<Move>)
    requires WorkInv(c, s) && 1 <= c.maxDeliveries && Traced(c, s, t, trace)
    ensures WorkInv(c, t) && |t.db.observations| == |s.db.observations|
  {
    RunWork(c, s, trace);
    RunObservations(c, s, trace);
  }

  lemma {:induction false} RunObservations(c: Config, s: Sys, trace: seq<Move>)
    requires CalmTrace(trace)
    ensures |Run(c, s, trace).db.observations| == |s.db.observations|
  {
    if trace != [] {
      RunObservations(c, s, trace[..|trace| - 1]);
      NextObservations(c, Run(c, s, trace[..|trace| - 1]), trace[|trace| - 1]);
    }
  }

  /** A publisher alone picks every unpublished row it has room for. */
  lemma {:induction false} PickFinds(outbox: seq<Row>, pubs: seq<Publisher>, from: nat, limit: nat)
    requires |pubs| == 1 && 1 <= limit && Pick(outbox, pubs, 0, from, limit) == []
    ensures forall r :: from <= r < |outbox| ==> outbox[r].published
    decreases |outbox| - from
  {
    if from < |outbox| {
      assert !LockedByOther(pubs, 0, from);
      PickFinds(outbox, pubs, from + 1, limit);
    }
  }

  lemma {:induction false} PickNothing(outbox: seq<Row>, pubs: seq<Publisher>, from: nat, limit: nat)
    requires forall r :: 0 <= r < |outbox| ==> outbox[r].published
    ensures Pick(outbox, pubs, 0, from, limit) == []
    decreases |outbox| - from
  {
    if from < |outbox| {
      PickNothing(outbox, pubs, from + 1, limit);
    }
  }

  /** Drained groups put no pressure on the publisher. */
  lemma DrainedInflight(c: Config, s: Sys)
    requires CallsOk(c, s) && AllDrained(s, |s.workers|)
    ensures Inflight(s.net) == 0
  {
    forall g ensures Backlog(s.net, g) == 0 {
      if g in s.net.groups {
        var w :| 0 <= w < |s.workers| && s.workers[w].group == g;
        assert ClosedLoop.Drained(s, g);
      }
    }
  }

  /** What one worker's round comes to. */
  ghost predicate TurnOf(c: Config, s: Sys, t: Sys, w: nat, trace: seq<Move>)
  {
    && Traced(c, s, t, trace) && w < |s.workers|
    && t.net.entries == s.net.entries && t.net.groups.Keys == s.net.groups.Keys && t.workers == s.workers
    && (|t.hist.calls| > |s.hist.calls| || (t == s && ClosedLoop.Drained(s, s.workers[w].group)))
    && (ClosedLoop.Drained(s, s.workers[w].group) ==> t == s)
  }

  /** After the rounds of the first `n` workers. */
  ghost predicate Rounding(c: Config, s: Sys, t: Sys, n: nat, trace: seq<Move>)
  {
    && Traced(c, s, t, trace) && n <= |s.workers|
    && t.net.entries == s.net.entries && t.net.groups.Keys == s.net.groups.Keys && t.workers == s.workers
    && (|t.hist.calls| > |s.hist.calls| || (t == s && AllDrained(s, n)))
    && (AllDrained(s, |s.workers|) ==> t == s)
  }

  lemma RoundingStep(c: Config, s: Sys, t: Sys, t': Sys, n: nat, trace: seq<Move>, turn: seq<Move>)
    requires Rounding(c, s, t, n, trace) && TurnOf(c, t, t', n, turn)
    ensures Rounding(c, s, t', n + 1, trace + turn)
  {
    TraceAppend(c, s, t, t', trace, turn);
  }

  lemma RoundingKeeps(c: Config, s: Sys, t: Sys, n: nat, trace: seq<Move>)
    requires NoLoss.Inv(s) && Rounding(c, s, t, n, trace) && n < |s.workers| && s.workers[n].group in s.net.groups
    ensures NoLoss.Inv(t) && t.workers[n].group in t.net.groups
  {
    NoLoss.RunKeeps(c, s, trace);
    assert t.workers[n].group in t.net.groups.Keys;
  }

  class PipelineRuntime {
    const db: Database
    const redis: RedisServer
    const config: Config
    const publisher: OutboxPublisher
    const workers: seq<RedisStreamWorker>

    constructor (db: Database, redis: RedisServer, config: Config, publisher: OutboxPublisher, workers: seq<RedisStreamWorker>)
      ensures this.db == db && this.redis == redis && this.config == config
      ensures this.publisher == publisher && this.workers == workers
    {
      this.db, this.redis, this.config, this.publisher, this.workers := db, redis, config, publisher, workers;
    }

    ghost predicate WorkerWired(worker: RedisStreamWorker)
      reads redis, worker
    {
      && worker.db == db && worker.redis == redis && worker.config == config
      && (worker.groupReady ==> worker.group in redis.groups)
    }

    /** The processes at rest over the state `s`. */
    ghost predicate AtRest(s: Sys)
      reads db, redis, workers
    {
      && Synced(s, db, redis) && s.pubs == [Off] && ValidConfig(config)
      && publisher.db == db && publisher.redis == redis && publisher.config == config
      && |s.workers| == |workers|
      && (forall w :: 0 <= w < |workers| ==> WorkerWired(workers[w]) && s.workers[w] == Worker(workers[w].group, Idle))
    }

    /** Every group exists before the loop begins. */
    method EnsureGroups(ghost s: Sys) returns (ghost t: Sys, ghost trace: seq<Move>)
      requires AtRest(s) && WorkInv(config, s)
      modifies workers, redis
      ensures AtRest(t) && Traced(config, s, t, trace) && t.db == s.db && t.hist == s.hist && t.workers == s.workers
      ensures forall w :: 0 <= w < |workers| ==> workers[w].group in redis.groups
    {
      t, trace := s, [];
      for w := 0 to |workers|
        invariant AtRest(t) && Traced(config, s, t, trace) && t.db == s.db && t.hist == s.hist && t.workers == s.workers
        invariant forall v :: 0 <= v < w ==> workers[v].group in redis.groups
      {
        var raised := workers[w].EnsureGroup(true);
        RunStep(config, s, trace, Move.EnsureGroup(w));
        trace := trace + [Move.EnsureGroup(w)];
        t := t.(net := redis.Value());
      }
    }

    /** One worker's round, as the loop sees it. */
    method Turn(w: nat, ghost s: Sys) returns (ghost t: Sys, ghost trace: seq<Move>)
      requires AtRest(s) && NoLoss.Inv(s) && w < |workers| && workers[w].group in redis.groups
      modifies workers, db, redis
      ensures AtRest(t) && TurnOf(config, s, t, w, trace)
    {
      ghost var claimed, turns;
      var result;
      result, t, claimed, turns := workers[w].RunOnce(true, s, w);
      trace := PollMoves(w, claimed) + turns;
      RoundTrace(config, s, t, w, claimed, turns);
    }

    /** One round of every worker; a round without a handler call found every group drained. */
    method RunWorkers(ghost s: Sys) returns (ghost t: Sys, ghost trace: seq<Move>)
      requires AtRest(s) && NoLoss.Inv(s)
      requires forall w :: 0 <= w < |workers| ==> workers[w].group in redis.groups
      modifies workers, db, redis
      ensures AtRest(t) && Rounding(config, s, t, |workers|, trace)
    {
      t, trace := s, [];
      for w := 0 to |workers|
        invariant AtRest(t) && Rounding(config, s, t, w, trace)
      {
        ghost var t1, turn;
        RoundingKeeps(config, s, t, w, trace);
        t1, turn := Turn(w, t);
        RoundingStep(config, s, t, t1, w, trace, turn);
        trace, t := trace + turn, t1;
      }
    }

    /** One pass of the loop either does some of the bounded work or finds nothing left to do. */
    method Round(ghost s: Sys) returns (ghost t: Sys, ghost trace: seq<Move>)
      requires AtRest(s) && WorkInv(config, s)
      requires forall w :: 0 <= w < |workers| ==> workers[w].group in redis.groups
      modifies workers, db, redis
      ensures AtRest(t) && Traced(config, s, t, trace) && t.net.groups.Keys == s.net.groups.Keys
      ensures Work(t) > Work(s) || (t == s && Quiescent(s))
      ensures Quiescent(s) ==> t == s
    {
      ghost var t1, published, last;
      var result, raised;
      result, raised, t1, published, last := publisher.PublishBatch([Off], 0, true, s);
      PublishCalm(config, s, t1, published, result);
      TracedKeeps(config, s, t1, published);
      ghost var turns;
      t, turns := RunWorkers(t1);
      TraceAppend(config, s, t1, t, published, turns);
      trace := published + turns;
      if Work(t) == Work(s) {
        DrainedInflight(config, s);
        PickFinds(s.db.outbox, s.pubs, 0, config.batchSize);
      }
      if Quiescent(s) {
        PickNothing(s.db.outbox, s.pubs, 0, config.batchSize);
      }
    }

    /**
     * The loop for `rounds` passes over a healthy Redis and database whose handlers may fail as they
     * like, each pass finding at least one pending entry old enough: after more passes than the
     * bound on work, nothing is left, and the handler calls stayed within their bound.
     */
    method Run(rounds: nat, ghost s: Sys) returns (ghost t: Sys, ghost trace: seq<Move>)
      requires AtRest(s) && WorkInv(config, s)
      modifies workers, db, redis
      ensures AtRest(t) && Traced(config, s, t, trace) && |t.db.observations| == |s.db.observations|
      ensures |t.hist.calls| <= Quota(config, t)
      ensures rounds > Quota(config, t) + 2 * |t.db.observations| ==> Quiescent(t)
    {
      ghost var more;
      t, trace := EnsureGroups(s);
      TracedKeeps(config, s, t, trace);
      for i := 0 to rounds
        invariant AtRest(t) && WorkInv(config, t) && Traced(config, s, t, trace)
        invariant forall w :: 0 <= w < |workers| ==> workers[w].group in redis.groups
        invariant |t.db.observations| == |s.db.observations|
        invariant Quiescent(t) || Work(t) >= i
      {
        ghost var t1;
        t1, more := Round(t);
        TraceAppend(config, s, t, t1, trace, more);
        TracedKeeps(config, t, t1, more);
        trace, t := trace + more, t1;
      }
      WorkBound(config, t);
    }
  }

  lemma PublishCalm(c: Config, s: Sys, t: Sys, trace: seq<Move>, result: OutboxPublishResult)
    requires t == PipelineState.Run(c, s, trace)
    requires trace == [] || trace == [Check(0), Select(0)] + (Appends(0, result.published) + []) + [Commit(0)]
    ensures Traced(c, s, t, trace)
  {
  }
}
