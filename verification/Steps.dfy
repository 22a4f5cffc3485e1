/** What single moves of publishers and consumers come to, in terms of rows, entries and delivery counts. */
module Steps {
  import opened Common
  import opened PipelineState
  import opened Frames

  // ------------------------------------------------------------- publishers

  /** Entries of the stream the group has not seen, and those it has but not finished with. */
  function Unfinished(net: Stream, g: Group): int
    requires g in net.groups
  {
    |net.groups[g].pending| + (|net.entries| - net.groups[g].last)
  }

  lemma InflightMeaning(net: Stream)
    ensures forall g :: g in net.groups ==> Unfinished(net, g) <= Inflight(net)
    ensures Inflight(net) == 0 || exists g :: g in net.groups && Inflight(net) == Unfinished(net, g)
  {
    forall g | g in net.groups ensures Unfinished(net, g) <= Inflight(net) {
      assert g == Canonical || g == Shadow || g == Notify;
    }
    if Inflight(net) != 0 {
      var g := if Inflight(net) == Backlog(net, Canonical) then Canonical
               else if Inflight(net) == Backlog(net, Shadow) then Shadow else Notify;
      assert g in net.groups && Backlog(net, g) == Unfinished(net, g);
    }
  }

  /** A publisher goes on exactly while every group's backlog is below the limit. */
  lemma CheckMeaning(c: Config, s: Sys, p: nat)
    requires p < |s.pubs| && s.pubs[p].Off? && 1 <= c.maxInflight
    ensures Next(c, s, Check(p)).pubs[p].Checked? <==>
              forall g :: g in s.net.groups ==> Unfinished(s.net, g) < c.maxInflight
  {
    InflightMeaning(s.net);
  }

  /** Waiting, and in no other publisher's open batch. */
  predicate Free(outbox: seq<Row>, pubs: seq<Publisher>, p: nat, r: nat)
    requires r < |outbox|
  {
    && !outbox[r].published
    && forall q :: 0 <= q < |pubs| && q != p && pubs[q].Open? ==> r !in pubs[q].batch
  }

  /** The first free rows from `from` on, in their order, as many as fit. */
  ghost predicate FirstFree(outbox: seq<Row>, pubs: seq<Publisher>, p: nat, from: nat, limit: nat, batch: seq<nat>)
  {
    && |batch| <= limit && (forall i, j :: 0 <= i < j < |batch| ==> batch[i] < batch[j])
    && (forall i :: 0 <= i < |batch| ==> from <= batch[i] < |outbox| && Free(outbox, pubs, p, batch[i]))
    && (forall r :: from <= r < |outbox| && Free(outbox, pubs, p, r) && r !in batch ==>
          |batch| == limit && forall i :: 0 <= i < |batch| ==> batch[i] < r)
  }

  lemma FirstFreeMore(outbox: seq<Row>, pubs: seq<Publisher>, p: nat, from: nat, limit: nat, rest: seq<nat>)
    requires from < |outbox| && limit > 0 && Free(outbox, pubs, p, from) && FirstFree(outbox, pubs, p, from + 1, limit - 1, rest)
    ensures FirstFree(outbox, pubs, p, from, limit, [from] + rest)
  {
    var batch := [from] + rest;
    forall r | from <= r < |outbox| && Free(outbox, pubs, p, r) && r !in batch
      ensures |batch| == limit && forall i :: 0 <= i < |batch| ==> batch[i] < r
    {
      assert batch[0] == from && r != from;
      assert r !in rest;
    }
  }

  lemma {:induction false} PickMeaning(outbox: seq<Row>, pubs: seq<Publisher>, p: nat, from: nat, limit: nat)
    ensures FirstFree(outbox, pubs, p, from, limit, Pick(outbox, pubs, p, from, limit))
    decreases |outbox| - from
  {
    if from < |outbox| && limit > 0 {
      if !outbox[from].published && !LockedByOther(pubs, p, from) {
        PickMeaning(outbox, pubs, p, from + 1, limit - 1);
        FirstFreeMore(outbox, pubs, p, from, limit, Pick(outbox, pubs, p, from + 1, limit - 1));
      } else {
        PickMeaning(outbox, pubs, p, from + 1, limit);
        LockedIsNotFree(outbox, pubs, p, from);
      }
    }
  }

  lemma LockedIsNotFree(outbox: seq<Row>, pubs: seq<Publisher>, p: nat, r: nat)
    requires r < |outbox| && (outbox[r].published || LockedByOther(pubs, p, r))
    ensures !Free(outbox, pubs, p, r)
  {
  }

  /** A batch is the first free rows in their order, as many as fit, and nothing of it is done yet. */
  lemma SelectMeaning(c: Config, s: Sys, p: nat)
    requires p < |s.pubs| && s.pubs[p].Checked?
    ensures var pub := Next(c, s, Select(p)).pubs[p];
            pub.Open? && pub.done == 0 && !pub.stopped && FirstFree(s.db.outbox, s.pubs, p, 0, c.batchSize, pub.batch)
  {
    PickMeaning(s.db.outbox, s.pubs, p, 0, c.batchSize);
  }

  /** The batch appended the row. */
  predicate Sent(pub: Publisher, r: nat)
    requires pub.Open? && pub.done <= |pub.batch|
  {
    exists i :: 0 <= i < pub.done && pub.batch[i] == r
  }

  /** The append of the row was refused, or answered with an error. */
  predicate Stuck(pub: Publisher, r: nat)
    requires pub.Open?
  {
    pub.stopped && pub.done < |pub.batch| && pub.batch[pub.done] == r
  }

  /** A commit publishes exactly the rows sent, counts one attempt for those and the one that got stuck, and notes its error. */
  lemma CommitMeaning(c: Config, s: Sys, p: nat, r: nat)
    requires CanCommit(s, p) && r < |s.db.outbox|
    requires forall i, j :: 0 <= i < j < |s.pubs[p].batch| ==> s.pubs[p].batch[i] < s.pubs[p].batch[j]
    ensures var row, row' := s.db.outbox[r], Next(c, s, Commit(p)).db.outbox[r];
            var sent, stuck := Sent(s.pubs[p], r), Stuck(s.pubs[p], r);
            && (row'.published <==> row.published || sent)
            && row'.attempts == (if sent || stuck then row.attempts + 1 else row.attempts)
            && (row'.failed <==> stuck || (row.failed && !sent))
            && row'.key == row.key && row'.payload == row.payload
  {
    var pub := s.pubs[p];
    assert r in pub.batch[..pub.done] <==> Sent(pub, r);
  }

  // ------------------------------------------------------------- consumers

  /** A claim takes exactly the entries asked for, and counts one more delivery of each. */
  lemma ClaimMeaning(c: Config, s: Sys, w: nat, ids: seq<nat>)
    requires CanClaim(c, s, w, ids)
    ensures var t := Next(c, s, Claim(w, ids));
            var before, after := GroupOf(s, w), GroupOf(t, w);
            && t.workers[w].phase == (if ids == [] then Polling else Batch(ids))
            && after.last == before.last && after.pending.Keys == before.pending.Keys && t.net.entries == s.net.entries
            && forall e :: e in before.pending ==> after.pending[e] == if e in ids then before.pending[e] + 1 else before.pending[e]
  {
  }

  /** A read takes the next entries the group has not seen, all of them or as many as fit, each delivered once now. */
  lemma ReadMeaning(c: Config, s: Sys, w: nat)
    requires HasGroup(s, w) && s.workers[w].phase.Polling? && GroupOf(s, w).last <= |s.net.entries|
    ensures var t := Next(c, s, Read(w));
            var before, after := GroupOf(s, w), GroupOf(t, w);
            && before.last <= after.last <= |s.net.entries| && after.last - before.last <= c.batchSize
            && (after.last == |s.net.entries| || after.last - before.last == c.batchSize)
            && (if after.last == before.last then t.workers[w].phase == Idle
                else t.workers[w].phase.Batch? && |t.workers[w].phase.queue| == after.last - before.last
                     && forall i :: 0 <= i < |t.workers[w].phase.queue| ==> t.workers[w].phase.queue[i] == before.last + i)
            && (forall e: nat :: e in after.pending <==> e in before.pending || before.last <= e < after.last)
            && (forall e: nat :: before.last <= e < after.last ==> after.pending[e] == 1)
            && (forall e: nat :: e in before.pending && e < before.last ==> after.pending[e] == before.pending[e])
  {
    var before := GroupOf(s, w);
    SpanMembers(before.last, |NewEntries(s.net, s.workers[w].group, c.batchSize)|);
  }

  /** How often the entry was delivered to the group; an entry no longer pending counts as once. */
  function Deliveries(gs: GroupState, e: nat): nat
  {
    if e !in gs.pending then 1 else gs.pending[e]
  }

  /** After a failed call the message stays pending, unless it has been delivered as often as allowed. */
  lemma CountMeaning(c: Config, s: Sys, w: nat)
    requires w < |s.workers| && s.workers[w].phase.Raised? && HasMessage(s, w, s.workers[w].phase.queue)
    ensures var t := Next(c, s, Count(w));
            var queue := s.workers[w].phase.queue;
            var deliveries := Deliveries(GroupOf(s, w), queue[0]);
            && t.net == s.net && t.db == s.db && t.hist == s.hist
            && t.workers[w].phase
               == if deliveries >= c.maxDeliveries then Dying(queue, deliveries)
                  else if |queue| == 1 then Idle else Batch(queue[1..])
  {
  }

  ghost predicate AtLimit(c: Config, phase: Phase)
  {
    phase.Dying? ==> phase.attempts >= c.maxDeliveries
  }

  ghost predicate LettersOk(c: Config, s: Sys)
  {
    && (forall w :: 0 <= w < |s.workers| ==> AtLimit(c, s.workers[w].phase))
    && (forall k :: 0 <= k < |s.net.dlq| ==>
          s.net.dlq[k].attempts >= c.maxDeliveries && exists g :: (g, s.net.dlq[k].entry) in s.hist.dead)
  }

  lemma NextLetters(c: Config, s: Sys, m: Move)
    requires LettersOk(c, s)
    ensures LettersOk(c, Next(c, s, m))
  {
    if m.MoveToDlq? {
      BuryLetters(c, s, m.w);
    } else if ConsumerMove(m) || HandlerMove(m) {
      OtherLetters(c, s, m);
    } else {
      if PublisherMove(m) {
        PublisherMoves(c, s, m);
      }
      SameLetters(c, s, Next(c, s, m), 0);
    }
  }

  lemma BuryLetters(c: Config, s: Sys, w: nat)
    requires LettersOk(c, s)
    ensures LettersOk(c, DoMoveToDlq(s, w))
  {
    var t := DoMoveToDlq(s, w);
    if t != s {
      var g, e := s.workers[w].group, s.workers[w].phase.queue[0];
      assert (g, e) in t.hist.dead;
      assert t.net.dlq == s.net.dlq + [DeadLetter(e, s.workers[w].phase.attempts)];
      assert AtLimit(c, s.workers[w].phase);
      forall k | 0 <= k < |s.net.dlq| ensures exists g :: (g, s.net.dlq[k].entry) in t.hist.dead {
        var g :| (g, s.net.dlq[k].entry) in s.hist.dead;
        assert (g, s.net.dlq[k].entry) in t.hist.dead;
      }
    }
  }

  /** No other move fills the dead letter stream, or has a message about to be moved there. */
  ghost predicate NoLetter(c: Config, s: Sys, t: Sys, w: nat)
  {
    && t.net.dlq == s.net.dlq && t.hist.dead == s.hist.dead
    && (t.workers == s.workers
        || (w < |s.workers| == |t.workers| && t.workers == s.workers[w := t.workers[w]] && AtLimit(c, t.workers[w].phase)))
  }

  lemma PollNoLetter(c: Config, s: Sys, m: Move)
    requires m.EnsureGroup? || m.Claim? || m.Read?
    ensures NoLetter(c, s, Next(c, s, m), m.w)
  {
  }

  lemma AckNoLetter(c: Config, s: Sys, m: Move)
    requires m.Ack? || m.Count?
    ensures NoLetter(c, s, Next(c, s, m), m.w)
  {
  }

  lemma DeliverNoLetter(c: Config, s: Sys, m: Move)
    requires m.Deliver? || m.Abort?
    ensures NoLetter(c, s, Next(c, s, m), m.w)
  {
  }

  lemma HandleNoLetter(c: Config, s: Sys, w: nat, tx: TxReply)
    ensures NoLetter(c, s, DoHandle(c, s, w, tx), w)
  {
  }

  lemma FinishNoLetter(c: Config, s: Sys, w: nat, tx: TxReply)
    ensures NoLetter(c, s, DoFinish(s, w, tx), w)
  {
  }

  lemma SameLetters(c: Config, s: Sys, t: Sys, w: nat)
    requires LettersOk(c, s) && NoLetter(c, s, t, w)
    ensures LettersOk(c, t)
  {
  }

  lemma OtherLetters(c: Config, s: Sys, m: Move)
    requires LettersOk(c, s) && ((ConsumerMove(m) && !m.MoveToDlq?) || HandlerMove(m))
    ensures LettersOk(c, Next(c, s, m))
  {
    if m.Handle? {
      HandleNoLetter(c, s, m.w, m.tx);
    } else if m.Finish? {
      FinishNoLetter(c, s, m.w, m.tx);
    } else if m.EnsureGroup? || m.Claim? || m.Read? {
      PollNoLetter(c, s, m);
    } else if m.Ack? || m.Count? {
      AckNoLetter(c, s, m);
    } else {
      DeliverNoLetter(c, s, m);
    }
    SameLetters(c, s, Next(c, s, m), m.w);
  }

  lemma {:induction false} RunLetters(c: Config, s0: Sys, moves: seq<Move>)
    requires Start(s0)
    ensures LettersOk(c, Run(c, s0, moves))
  {
    if moves != [] {
      RunLetters(c, s0, moves[..|moves| - 1]);
      NextLetters(c, Run(c, s0, moves[..|moves| - 1]), moves[|moves| - 1]);
    }
  }

  /** In every run a dead letter tells of at least as many deliveries as are allowed, and of a group that gave up. */
  lemma BuriedAtLimit(c: Config, s0: Sys, moves: seq<Move>, k: nat)
    requires Start(s0) && k < |Run(c, s0, moves).net.dlq|
    ensures var s := Run(c, s0, moves);
            s.net.dlq[k].attempts >= c.maxDeliveries && exists g :: (g, s.net.dlq[k].entry) in s.hist.dead
  {
    RunLetters(c, s0, moves);
  }
}
