/** With one publisher, the stream without repeats is a prefix of the outbox, in its order. */
module OutboxOrder {
  import opened Common
  import opened PipelineState
  import opened Records
  import opened Frames

  /** The keys of the stream in the order of their first entries. */
  function FirstKeys(entries: seq<Envelope>): seq<DedupeKey>
  {
    if entries == [] then []
    else
      var front := FirstKeys(entries[..|entries| - 1]);
      var key := entries[|entries| - 1].key;
      if key in front then front else front + [key]
  }

  function Keys(outbox: seq<Row>): (keys: seq<DedupeKey>)
    ensures |keys| == |outbox| && forall r :: 0 <= r < |outbox| ==> keys[r] == outbox[r].key
  {
    seq(|outbox|, r requires 0 <= r < |outbox| => outbox[r].key)
  }

  /** The first `k` rows are published, and the stream has reached at least as far. */
  ghost predicate OrderAt(db: Db, entries: seq<Envelope>, pub: Publisher, k: nat)
  {
    && k <= |FirstKeys(entries)| <= |db.outbox|
    && FirstKeys(entries) == Keys(db.outbox)[..|FirstKeys(entries)|]
    && (forall r :: 0 <= r < |db.outbox| ==> (db.outbox[r].published <==> r < k))
    && (pub.Open? ==>
          && pub.batch == Span(k, |pub.batch|) && pub.done <= |pub.batch|
          && k + |pub.batch| <= |db.outbox| && k + pub.done <= |FirstKeys(entries)|)
  }

  ghost predicate Ordered(s: Sys)
  {
    |s.pubs| == 1 && exists k: nat :: OrderAt(s.db, s.net.entries, s.pubs[0], k)
  }

  lemma PickIsNextRows(outbox: seq<Row>, pubs: seq<Publisher>, k: nat, from: nat, limit: nat)
    requires |pubs| == 1 && k <= |outbox| && from <= |outbox|
    requires forall r :: 0 <= r < |outbox| ==> (outbox[r].published <==> r < k)
    ensures var start := if from < k then k else from;
            var picked := Pick(outbox, pubs, 0, from, limit);
            picked == Span(start, |picked|) && start + |picked| <= |outbox|
    decreases |outbox| - from
  {
    if from < |outbox| && limit > 0 {
      assert !LockedByOther(pubs, 0, from);
      if outbox[from].published {
        PickIsNextRows(outbox, pubs, k, from + 1, limit);
      } else {
        PickIsNextRows(outbox, pubs, k, from + 1, limit - 1);
        var rest := Pick(outbox, pubs, 0, from + 1, limit - 1);
        assert [from] + Span(from + 1, |rest|) == Span(from, |rest| + 1);
      }
    }
  }

  lemma AppendOrdered(s: Sys, row: nat)
    requires row <= |FirstKeys(s.net.entries)| <= |s.db.outbox| && row < |s.db.outbox|
    requires FirstKeys(s.net.entries) == Keys(s.db.outbox)[..|FirstKeys(s.net.entries)|]
    requires forall q, r :: 0 <= q < r < |s.db.outbox| ==> s.db.outbox[q].key != s.db.outbox[r].key
    ensures var first := FirstKeys(Append(s.net, s.db.outbox, row).entries);
            && first == Keys(s.db.outbox)[..|first|] && |first| <= |s.db.outbox|
            && |first| == (if row == |FirstKeys(s.net.entries)| then row + 1 else |FirstKeys(s.net.entries)|)
  {
    var old_ := FirstKeys(s.net.entries);
    var entries := Append(s.net, s.db.outbox, row).entries;
    assert entries[..|entries| - 1] == s.net.entries;
    if row < |old_| {
      assert old_[row] == s.db.outbox[row].key;
    } else {
      assert forall i :: 0 <= i < |old_| ==> old_[i] == s.db.outbox[i].key;
    }
  }

  lemma XaddOrdered(s: Sys, p: nat, reply: XaddReply)
    requires Ordered(s)
    requires forall q, r :: 0 <= q < r < |s.db.outbox| ==> s.db.outbox[q].key != s.db.outbox[r].key
    ensures Ordered(DoXadd(s, p, reply))
  {
    if CanXadd(s, p) {
      var k: nat :| OrderAt(s.db, s.net.entries, s.pubs[0], k);
      var s' := DoXadd(s, p, reply);
      assert s.pubs[0].batch[s.pubs[0].done] == k + s.pubs[0].done;
      if !reply.Refused? {
        AppendOrdered(s, k + s.pubs[0].done);
      }
      assert OrderAt(s'.db, s'.net.entries, s'.pubs[0], k);
    }
  }

  lemma CommitOrdered(s: Sys, p: nat)
    requires Ordered(s)
    ensures Ordered(DoCommit(s, p))
  {
    if CanCommit(s, p) {
      var k: nat :| OrderAt(s.db, s.net.entries, s.pubs[0], k);
      var pub := s.pubs[0];
      var s' := DoCommit(s, p);
      assert Keys(s'.db.outbox) == Keys(s.db.outbox);
      forall r | 0 <= r < |s.db.outbox| ensures s'.db.outbox[r].published <==> r < k + pub.done {
        if k <= r < k + pub.done {
          assert pub.batch[..pub.done][r - k] == r;
        } else {
          assert forall i :: 0 <= i < pub.done ==> pub.batch[i] == k + i;
        }
      }
      assert OrderAt(s'.db, s'.net.entries, s'.pubs[0], k + pub.done);
    }
  }

  /** Rows are only appended, unpublished; keys and published marks of old rows stay. */
  lemma GrowOrdered(s: Sys, s': Sys)
    requires Ordered(s) && s'.pubs == s.pubs && s'.net.entries == s.net.entries
    requires |s.db.outbox| <= |s'.db.outbox|
    requires forall r :: 0 <= r < |s.db.outbox| ==> s'.db.outbox[r] == s.db.outbox[r]
    requires forall r :: |s.db.outbox| <= r < |s'.db.outbox| ==> !s'.db.outbox[r].published
    ensures Ordered(s')
  {
    var k: nat :| OrderAt(s.db, s.net.entries, s.pubs[0], k);
    var m := |FirstKeys(s.net.entries)|;
    assert Keys(s'.db.outbox)[..m] == Keys(s.db.outbox)[..m];
    assert OrderAt(s'.db, s'.net.entries, s'.pubs[0], k);
  }

  lemma OtherMovesGrow(c: Config, s: Sys, m: Move)
    requires !PublisherMove(m)
    ensures var s' := Next(c, s, m);
            && s'.pubs == s.pubs && s'.net.entries == s.net.entries
            && |s.db.outbox| <= |s'.db.outbox|
            && (forall r :: 0 <= r < |s.db.outbox| ==> s'.db.outbox[r] == s.db.outbox[r])
            && (forall r :: |s.db.outbox| <= r < |s'.db.outbox| ==> !s'.db.outbox[r].published)
  {
    if ConsumerMove(m) {
      ConsumerMoves(c, s, m);
    } else if HandlerMove(m) {
      HandlerMoves(c, s, m);
    }
  }

  /** A publisher that looks, begins a batch, or gives one up. */
  lemma BatchOrdered(c: Config, s: Sys, p: nat)
    requires Ordered(s)
    ensures Ordered(DoCheck(c, s, p)) && Ordered(DoSelect(c, s, p))
    ensures p < |s.pubs| ==> Ordered(SetPub(s, p, Off))
  {
    var k: nat :| OrderAt(s.db, s.net.entries, s.pubs[0], k);
    PickIsNextRows(s.db.outbox, s.pubs, k, 0, c.batchSize);
    assert OrderAt(s.db, s.net.entries, DoCheck(c, s, p).pubs[0], k);
    assert OrderAt(s.db, s.net.entries, DoSelect(c, s, p).pubs[0], k);
    if p < |s.pubs| {
      assert OrderAt(s.db, s.net.entries, SetPub(s, p, Off).pubs[0], k);
    }
  }

  lemma NextOrdered(c: Config, s: Sys, m: Move)
    requires Ordered(s) && Linked(c.policy, s.db)
    ensures Ordered(Next(c, s, m))
  {
    if m.Xadd? {
      XaddOrdered(s, m.p, m.xadd);
    } else if m.Commit? {
      CommitOrdered(s, m.p);
    } else if PublisherMove(m) {
      BatchOrdered(c, s, m.p);
    } else {
      OtherMovesGrow(c, s, m);
      GrowOrdered(s, Next(c, s, m));
    }
  }

  lemma {:induction false} RunOrdered(c: Config, s: Sys, moves: seq<Move>)
    requires Ordered(s) && Linked(c.policy, s.db)
    ensures Ordered(Run(c, s, moves))
  {
    if moves != [] {
      var front := moves[..|moves| - 1];
      RunOrdered(c, s, front);
      RunLinked(c, s, front);
      NextOrdered(c, Run(c, s, front), moves[|moves| - 1]);
    }
  }

  /**
   * Whatever crashes, refused or ambiguous appends and re-publishing did to the stream, its keys in
   * order of first appearance are the first rows of the outbox, one by one, and every published row
   * is among them.
   */
  lemma StreamRefinesOutbox(c: Config, s0: Sys, moves: seq<Move>)
    requires Start(s0) && |s0.pubs| == 1
    ensures var s := Run(c, s0, moves);
            var first := FirstKeys(s.net.entries);
            && first <= Keys(s.db.outbox)
            && forall r :: 0 <= r < |s.db.outbox| && s.db.outbox[r].published ==> r < |first|
  {
    assert OrderAt(s0.db, s0.net.entries, s0.pubs[0], 0);
    RunOrdered(c, s0, moves);
    var s := Run(c, s0, moves);
    var k: nat :| OrderAt(s.db, s.net.entries, s.pubs[0], k);
  }
}
