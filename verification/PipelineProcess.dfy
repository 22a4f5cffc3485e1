/**
 * The processes of the event path as the program writes them: the publisher's batch, the worker's
 * `run_once`, the three handlers and the runtime loop, over a database and a Redis server that
 * they update. Every call is shown to make exactly the moves of the state machine that its trace
 * lists; what the environment answers is havocked.
 */
module PipelineProcess {
  import opened Common
  import opened Alerts
  import opened PipelineState
  import NoLoss
  import TotalWork
  import Steps

  class Database {
    var observations: seq<Observation>
    var decisions: seq<Decision>
    var outbox: seq<Row>
    var actions: map<ActionKey, ActionRow>
    var notifications: map<ActionKey, ActionStatus>

    function Value(): Db
      reads this
    {
      Db(observations, decisions, outbox, actions, notifications)
    }

    method Store(value: Db)
      modifies this
      ensures Value() == value
    {
      observations, decisions, outbox := value.observations, value.decisions, value.outbox;
      actions, notifications := value.actions, value.notifications;
    }
  }

  class RedisServer {
    var entries: seq<Envelope>
    var groups: map<Group, GroupState>
    var dlq: seq<DeadLetter>

    function Value(): Stream
      reads this
    {
      Stream(entries, groups, dlq)
    }

    /** XGROUP CREATE at 0-0; an existing group answers BUSYGROUP and stays as it is. */
    method XgroupCreate(g: Group)
      modifies this
      ensures Value() == CreateGroup(old(Value()), g)
    {
      if g !in groups {
        groups := groups[g := GroupState(0, map[])];
      }
    }

    method Xadd(envelope: Envelope)
      modifies this
      ensures Value() == old(Value()).(entries := old(entries) + [envelope])
    {
      entries := entries + [envelope];
    }

    method Xautoclaim(g: Group, ids: seq<nat>)
      requires g in groups
      modifies this
      ensures Value() == ClaimEntries(old(Value()), g, ids)
    {
      var gs := groups[g];
      groups := groups[g := gs.(pending :=
        map e | e in gs.pending :: if e in ids then gs.pending[e] + 1 else gs.pending[e])];
    }

    method Xreadgroup(g: Group, count: nat) returns (ids: seq<nat>)
      requires g in groups && groups[g].last <= |entries|
      modifies this
      ensures ids == NewEntries(old(Value()), g, count) && Value() == ReadEntries(old(Value()), g, count)
    {
      var gs := groups[g];
      var n: nat := Min(count, |entries| - gs.last);
      ids := Span(gs.last, n);
      groups := groups[g := GroupState(gs.last + n, gs.pending + FirstDeliveries(gs.last, n))];
    }

    method Xack(g: Group, e: nat)
      requires g in groups
      modifies this
      ensures Value() == Acknowledge(old(Value()), g, e)
    {
      groups := groups[g := groups[g].(pending := groups[g].pending - {e})];
    }

    /** MULTI: XADD to the dead letter stream and XACK. */
    method MoveToDlq(g: Group, e: nat, attempts: nat)
      requires g in groups
      modifies this
      ensures Value() == Bury(old(Value()), g, e, attempts)
    {
      dlq := dlq + [DeadLetter(e, attempts)];
      groups := groups[g := groups[g].(pending := groups[g].pending - {e})];
    }
  }

  ghost predicate Synced(s: Sys, db: Database, redis: RedisServer)
    reads db, redis
  {
    s.db == db.Value() && s.net == redis.Value()
  }

  // ------------------------------------------------------------- publisher

  datatype OutboxPublishResult = OutboxPublishResult(published: nat, failed: nat, backpressured: bool)

  class OutboxPublisher {
    const db: Database
    const redis: RedisServer
    const config: Config

    constructor (db: Database, redis: RedisServer, config: Config)
      ensures this.db == db && this.redis == redis && this.config == config
    {
      this.db, this.redis, this.config := db, redis, config;
    }

    /** The largest backlog over the groups the server lists. */
    method InflightCount() returns (maximum: int)
      ensures maximum == Inflight(redis.Value())
      ensures forall g :: g in redis.groups ==> |redis.groups[g].pending| + (|redis.entries| - redis.groups[g].last) <= maximum
      ensures maximum == 0 || exists g :: g in redis.groups
                                          && maximum == |redis.groups[g].pending| + (|redis.entries| - redis.groups[g].last)
    {
      Steps.InflightMeaning(redis.Value());
      maximum := 0;
      var names := [Canonical, Shadow, Notify];
      ghost var net := redis.Value();
      for i := 0 to 3
        invariant maximum == Max(0, Max(if i > 0 then Backlog(net, Canonical) else 0,
                                        Max(if i > 1 then Backlog(net, Shadow) else 0,
                                            if i > 2 then Backlog(net, Notify) else 0)))
      {
        if names[i] in redis.groups {
          var group := redis.groups[names[i]];
          maximum := Max(maximum, |group.pending| + (|redis.entries| - group.last));
        }
      }
    }

    /**
     * The loop over the selected rows. `healthy` says that Redis answers every call; otherwise an
     * append may be refused, or be made and still answer with an error, and either stops the loop.
     */
    method AppendRows(batch: seq<nat>, p: nat, healthy: bool, ghost s: Sys)
      returns (rows: seq<Row>, published: nat, failed: nat, ghost t: Sys, ghost last: seq<Move>)
      requires Synced(s, db, redis) && p < |s.pubs| && s.pubs[p] == Open(batch, 0, false)
      requires Ascending(batch) && forall i :: 0 <= i < |batch| ==> batch[i] < |db.outbox|
      requires forall e :: 0 <= e < |batch| ==> EnvelopeOf(db.outbox, batch[e]) == EnvelopeOf(s.db.outbox, batch[e])
      modifies redis
      ensures Synced(t, db, redis) && t == Run(config, s, Appends(p, published) + last)
      ensures t.db == s.db && t.pubs == s.pubs[p := Open(batch, published, failed == 1)] && SameConsumers(s, t)
      ensures published <= |batch| && failed <= 1 && (failed == 0 ==> published == |batch|)
      ensures rows == MarkPublished(s.db.outbox, batch, published, failed == 1)
      ensures failed == 0 ==> |t.net.entries| == |s.net.entries| + published
      ensures if failed == 0 then last == []
              else !healthy && published < |batch| && (last == [Xadd(p, Refused)] || last == [Xadd(p, AddedButRaised)])
    {
      t, last := s, [];
      rows, published, failed := db.outbox, 0, 0;
      ProgressStarts(config, s, batch, p);
      while published < |batch| && failed == 0
        invariant db.Value() == s.db && redis.Value() == t.net && (failed == 1 ==> !healthy)
        invariant Progress(config, s, t, rows, batch, p, published, failed, last)
        decreases |batch| - published, 1 - failed
      {
        var reply;
        ghost var before := rows;
        rows, reply := AppendRow(rows, batch[published], healthy);
        ProgressStep(config, s, t, before, batch, p, published, reply);
        t := Next(config, t, Xadd(p, reply));
        if reply.Added? {
          published := published + 1;
        } else {
          failed := 1;
          last := [Xadd(p, reply)];
        }
      }
    }

    /** One row: count the attempt, append, and mark it published or failed in the open transaction. */
    method AppendRow(before: seq<Row>, i: nat, healthy: bool) returns (rows: seq<Row>, reply: XaddReply)
      requires i < |before|
      modifies redis
      ensures healthy ==> reply.Added?
      ensures redis.Value() == if reply.Refused? then old(redis.Value())
                               else old(redis.Value()).(entries := old(redis.entries)
                                                                   + [Envelope(i, before[i].key, before[i].payload)])
      ensures rows == Marked(before, i, reply.Added?)
    {
      rows := before[i := before[i].(attempts := before[i].attempts + 1)];
      reply := XaddReplies(healthy);
      if !reply.Refused? {
        redis.Xadd(Envelope(i, rows[i].key, rows[i].payload));
      }
      if reply.Added? {
        rows := rows[i := rows[i].(published := true, failed := false)];
      } else {
        rows := rows[i := rows[i].(failed := true)];
      }
    }

    /** What Redis answers to an append. */
    method XaddReplies(healthy: bool) returns (reply: XaddReply)
      ensures healthy ==> reply.Added?
    {
      reply := *;
      if healthy {
        reply := Added;
      }
    }

    /**
     * One batch: look at the backlog, append the next unpublished rows that no other publisher has
     * locked, and commit the marks. When the commit fails the call raises, and the marks are lost
     * although the entries stay.
     */
    method PublishBatch(pubs: seq<Publisher>, p: nat, healthy: bool, ghost s: Sys)
      returns (result: OutboxPublishResult, raised: bool, ghost t: Sys, ghost trace: seq<Move>, ghost last: seq<Move>)
      requires Synced(s, db, redis) && pubs == s.pubs && p < |pubs| && pubs[p].Off?
      modifies db, redis
      ensures Synced(t, db, redis) && t == Run(config, s, trace) && t.pubs == s.pubs && SameConsumers(s, t)
      ensures result.backpressured ==> trace == [] && Inflight(s.net) >= config.maxInflight
      ensures healthy ==> !raised && result.failed == 0 && (result.backpressured <==> Inflight(s.net) >= config.maxInflight)
      ensures trace == [] <==> !raised && (result.backpressured || (result.failed == 1 && result.published == 0 && last == []))
      ensures raised ==> t.db == s.db
      ensures trace != [] ==>
                && trace == [Check(p), Select(p)] + (Appends(p, result.published) + last)
                            + [if raised then PublisherAbort(p) else Commit(p)]
                && if result.failed == 0
                   then last == [] && result.published == |Pick(s.db.outbox, pubs, p, 0, config.batchSize)|
                   else last == [Xadd(p, Refused)] || last == [Xadd(p, AddedButRaised)]
      ensures healthy ==> |t.net.entries| == |s.net.entries| + result.published && (result.published == 0 ==> t == s)
    {
      t, trace, last := s, [], [];
      if !healthy {
        var reachable: bool := *;
        if !reachable {
          return OutboxPublishResult(0, 1, false), false, t, trace, last;
        }
      }
      var inflight := InflightCount();
      if inflight >= config.maxInflight {
        return OutboxPublishResult(0, 0, true), false, t, trace, last;
      }
      var batch := Pick(db.outbox, pubs, p, 0, config.batchSize);
      TotalWork.PickIsFree(db.outbox, pubs, p, 0, config.batchSize);
      SelectTrace(config, s, p, batch);
      ghost var s1 := s.(pubs := s.pubs[p := Open(batch, 0, false)]);
      var rows, published, failed;
      rows, published, failed, t, last := AppendRows(batch, p, healthy, s1);
      raised := *;
      if raised && !healthy {
        AbortTrace(config, s, s1, t, p, Appends(p, published) + last);
        trace := [Check(p), Select(p)] + (Appends(p, published) + last) + [PublisherAbort(p)];
        t := t.(pubs := s.pubs);
        return OutboxPublishResult(published, failed, false), true, t, trace, last;
      }
      db.outbox := rows;
      CommitTrace(config, s, s1, t, p, Appends(p, published) + last, published);
      trace := [Check(p), Select(p)] + (Appends(p, published) + last) + [Commit(p)];
      if batch == [] {
        EmptyBatch(config, s1, p);
      }
      t := t.(pubs := s.pubs, db := t.db.(outbox := rows));
      return OutboxPublishResult(published, failed, false), false, t, trace, last;
    }
  }

  lemma SelectTrace(c: Config, s: Sys, p: nat, batch: seq<nat>)
    requires p < |s.pubs| && s.pubs[p].Off? && Inflight(s.net) < c.maxInflight
    requires batch == Pick(s.db.outbox, s.pubs, p, 0, c.batchSize)
    ensures Run(c, s, [Check(p), Select(p)]) == s.(pubs := s.pubs[p := Open(batch, 0, false)])
  {
    PickIgnoresOwn(s.db.outbox, s.pubs, p, Checked, 0, c.batchSize);
    RunTwo(c, s, Check(p), Select(p));
    assert s.pubs[p := Checked][p := Open(batch, 0, false)] == s.pubs[p := Open(batch, 0, false)];
  }

  lemma CommitTrace(c: Config, s: Sys, s1: Sys, t: Sys, p: nat, appends: seq<Move>, done: nat)
    requires p < |s.pubs| && s.pubs[p].Off? && s1 == Run(c, s, [Check(p), Select(p)])
    requires t == Run(c, s1, appends) && |t.pubs| == |s.pubs| && t.pubs[p].Open?
    requires t.pubs == s.pubs[p := t.pubs[p]] && t.pubs[p].done == done && CanCommit(t, p)
    ensures Run(c, s, [Check(p), Select(p)] + appends + [Commit(p)])
            == t.(pubs := s.pubs,
                  db := t.db.(outbox := MarkPublished(t.db.outbox, t.pubs[p].batch, done, t.pubs[p].stopped)))
  {
    RunAppend(c, s, [Check(p), Select(p)], appends);
    RunStep(c, s, [Check(p), Select(p)] + appends, Commit(p));
    assert t.pubs[p := Off] == s.pubs;
  }

  lemma AbortTrace(c: Config, s: Sys, s1: Sys, t: Sys, p: nat, appends: seq<Move>)
    requires p < |s.pubs| && s.pubs[p].Off? && s1 == Run(c, s, [Check(p), Select(p)])
    requires t == Run(c, s1, appends) && |t.pubs| == |s.pubs| && t.pubs == s.pubs[p := t.pubs[p]]
    ensures Run(c, s, [Check(p), Select(p)] + appends + [PublisherAbort(p)]) == t.(pubs := s.pubs)
  {
    RunAppend(c, s, [Check(p), Select(p)], appends);
    RunStep(c, s, [Check(p), Select(p)] + appends, PublisherAbort(p));
    assert t.pubs[p := Off] == s.pubs;
  }

  lemma EmptyBatch(c: Config, s: Sys, p: nat)
    ensures Run(c, s, Appends(p, 0) + []) == s && MarkPublished(s.db.outbox, [], 0, false) == s.db.outbox
  {
    assert Appends(p, 0) + [] == [];
  }

  /** Publisher moves leave groups, workers, dead letters and history as they are. */
  ghost predicate SameConsumers(s: Sys, t: Sys)
  {
    t.workers == s.workers && t.hist == s.hist && t.net.groups == s.net.groups && t.net.dlq == s.net.dlq
  }

  /** After `done` appends of the batch and, if stopped, one more that failed. */
  ghost predicate Appending(c: Config, s: Sys, t: Sys, batch: seq<nat>, p: nat, done: nat, stopped: bool, last: seq<Move>)
  {
    && p < |s.pubs| && t.db == s.db && t.pubs == s.pubs[p := Open(batch, done, stopped)] && SameConsumers(s, t)
    && t == Run(c, s, Appends(p, done) + last)
  }

  lemma AppendingStep(c: Config, s: Sys, t: Sys, batch: seq<nat>, p: nat, done: nat, reply: XaddReply)
    requires Appending(c, s, t, batch, p, done, false, []) && done < |batch| && batch[done] < |s.db.outbox|
    ensures var t' := Next(c, t, Xadd(p, reply));
            && t'.net == (if reply.Refused? then t.net else Append(t.net, s.db.outbox, batch[done]))
            && (reply.Added? ==> Appending(c, s, t', batch, p, done + 1, false, []))
            && (!reply.Added? ==> Appending(c, s, t', batch, p, done, true, [Xadd(p, reply)]))
  {
    assert Appends(p, done) + [] == Appends(p, done);
    assert Appends(p, done) + [Xadd(p, Added)] == Appends(p, done + 1) + [];
    RunStep(c, s, Appends(p, done), Xadd(p, reply));
  }

  /** Where the loop over a batch is: rows marked and appended so far, at most one of them failed. */
  ghost predicate Progress(c: Config, s: Sys, t: Sys, rows: seq<Row>, batch: seq<nat>, p: nat,
                           published: nat, failed: nat, last: seq<Move>)
  {
    && published <= |batch| && failed <= 1
    && rows == MarkPublished(s.db.outbox, batch, published, failed == 1)
    && Appending(c, s, t, batch, p, published, failed == 1, last)
    && (if failed == 0 then last == [] && |t.net.entries| == |s.net.entries| + published
        else published < |batch| && (last == [Xadd(p, Refused)] || last == [Xadd(p, AddedButRaised)]))
  }

  lemma ProgressStarts(c: Config, s: Sys, batch: seq<nat>, p: nat)
    requires p < |s.pubs| && s.pubs[p] == Open(batch, 0, false)
    ensures Progress(c, s, s, s.db.outbox, batch, p, 0, 0, [])
  {
    assert Appends(p, 0) + [] == [];
    assert s.pubs[p := s.pubs[p]] == s.pubs;
  }

  lemma ProgressStep(c: Config, s: Sys, t: Sys, rows: seq<Row>, batch: seq<nat>, p: nat, published: nat, reply: XaddReply)
    requires Progress(c, s, t, rows, batch, p, published, 0, []) && published < |batch| && Ascending(batch)
    requires forall i :: 0 <= i < |batch| ==> batch[i] < |s.db.outbox|
    ensures var t' := Next(c, t, Xadd(p, reply));
            var rows' := Marked(rows, batch[published], reply.Added?);
            && t'.net == (if reply.Refused? then t.net else Append(t.net, s.db.outbox, batch[published])) && t'.db == s.db
            && (if reply.Added? then Progress(c, s, t', rows', batch, p, published + 1, 0, [])
                else Progress(c, s, t', rows', batch, p, published, 1, [Xadd(p, reply)]))
  {
    AppendingStep(c, s, t, batch, p, published, reply);
    MarkNext(s.db.outbox, batch, published, reply.Added?);
  }

  /** `n` successful appends. */
  function Appends(p: nat, n: nat): seq<Move>
  {
    seq(n, i => Xadd(p, Added))
  }

  lemma RunStep(c: Config, s: Sys, trace: seq<Move>, m: Move)
    ensures Run(c, s, trace + [m]) == Next(c, Run(c, s, trace), m)
  {
    assert (trace + [m])[..|trace + [m]| - 1] == trace;
  }

  lemma RunTwo(c: Config, s: Sys, m: Move, n: Move)
    ensures Run(c, s, [m, n]) == Next(c, Next(c, s, m), n)
  {
    RunStep(c, s, [], m);
    RunStep(c, s, [m], n);
    assert [] + [m] == [m] && [m] + [n] == [m, n];
  }

  lemma {:induction false} PickIgnoresOwn(outbox: seq<Row>, pubs: seq<Publisher>, p: nat, pub: Publisher, from: nat, limit: nat)
    requires p < |pubs|
    ensures Pick(outbox, pubs[p := pub], p, from, limit) == Pick(outbox, pubs, p, from, limit)
    decreases |outbox| - from
  {
    if from < |outbox| && limit > 0 {
      assert forall q :: 0 <= q < |pubs| && q != p ==> pubs[p := pub][q] == pubs[q];
      if LockedByOther(pubs, p, from) {
        var q :| 0 <= q < |pubs| && q != p && pubs[q].Open? && from in pubs[q].batch;
        assert pubs[p := pub][q].Open?;
      }
      PickIgnoresOwn(outbox, pubs, p, pub, from + 1, limit);
      PickIgnoresOwn(outbox, pubs, p, pub, from + 1, limit - 1);
    }
  }

  function Marked(rows: seq<Row>, i: nat, added: bool): seq<Row>
    requires i < |rows|
  {
    var row := rows[i].(attempts := rows[i].attempts + 1);
    rows[i := if added then row.(published := true, failed := false) else row.(failed := true)]
  }

  lemma MarkNext(outbox: seq<Row>, batch: seq<nat>, done: nat, added: bool)
    requires done < |batch| && Ascending(batch) && forall i :: 0 <= i < |batch| ==> batch[i] < |outbox|
    ensures Marked(MarkPublished(outbox, batch, done, false), batch[done], added)
            == if added then MarkPublished(outbox, batch, done + 1, false) else MarkPublished(outbox, batch, done, true)
  {
    assert batch[..done + 1] == batch[..done] + [batch[done]];
    assert batch[done] !in batch[..done];
  }
}
