/** The stream stays bounded although each publisher looks at the backlog once per batch. */
module Backpressure {
  import opened Common
  import opened PipelineState
  import opened Frames
  import opened Counting
  import NoLoss

  /** How many more entries a publisher may append before it looks at the backlog again. */
  function Budget(c: Config, pub: Publisher): nat
  {
    match pub
    case Off => 0
    case Checked => c.batchSize
    case Open(batch, done, stopped) => if stopped || done >= |batch| then 0 else |batch| - done
  }

  function Budgets(c: Config, pubs: seq<Publisher>): nat
  {
    if pubs == [] then 0 else Budget(c, pubs[0]) + Budgets(c, pubs[1..])
  }

  lemma {:induction false} BudgetsUpdate(c: Config, pubs: seq<Publisher>, p: nat, pub: Publisher)
    requires p < |pubs|
    ensures Budgets(c, pubs[p := pub]) + Budget(c, pubs[p]) == Budgets(c, pubs) + Budget(c, pub)
  {
    var updated := pubs[p := pub];
    if p == 0 {
      assert updated[1..] == pubs[1..];
    } else {
      BudgetsUpdate(c, pubs[1..], p - 1, pub);
      assert updated[1..] == pubs[1..][p - 1 := pub];
    }
  }

  /** All publishers at full budget. */
  lemma {:induction false} BudgetsBound(c: Config, pubs: seq<Publisher>)
    requires forall p :: 0 <= p < |pubs| ==> Budget(c, pubs[p]) <= c.batchSize
    ensures Budgets(c, pubs) <= |pubs| * c.batchSize
  {
    if pubs != [] {
      assert forall p :: 0 <= p < |pubs[1..]| ==> pubs[1..][p] == pubs[p + 1];
      BudgetsBound(c, pubs[1..]);
      OneMore(|pubs| - 1, c.batchSize);
    }
  }

  lemma {:induction false} BudgetsOff(c: Config, pubs: seq<Publisher>)
    requires forall p :: 0 <= p < |pubs| ==> pubs[p].Off?
    ensures Budgets(c, pubs) == 0
  {
    if pubs != [] {
      assert forall p :: 0 <= p < |pubs[1..]| ==> pubs[1..][p] == pubs[p + 1];
      BudgetsOff(c, pubs[1..]);
    }
  }

  function Limit(c: Config, s: Sys): int
  {
    c.maxInflight - 1 + |s.pubs| * c.batchSize
  }

  ghost predicate Bounded(c: Config, s: Sys)
  {
    && (forall p :: 0 <= p < |s.pubs| ==> Budget(c, s.pubs[p]) <= c.batchSize)
    && (forall w :: 0 <= w < |s.workers| ==> s.workers[w].group in s.net.groups)
    && (forall g :: g in s.net.groups ==> Backlog(s.net, g) + Budgets(c, s.pubs) <= Limit(c, s))
  }

  lemma FirstDeliveriesCount(from: nat, n: nat)
    ensures |FirstDeliveries(from, n)| == n
    ensures forall e :: e in FirstDeliveries(from, n) <==> from <= e < from + n
  {
    SpanMembers(from, n);
    var span := Span(from, n);
    DistinctCount(span);
    assert FirstDeliveries(from, n).Keys == set i | 0 <= i < |span| :: span[i];
  }

  /** Reading moves entries from the lag to the pending ones. */
  lemma ReadBacklog(net: Stream, g: Group, count: nat, h: Group)
    requires g in net.groups && net.groups[g].last <= |net.entries|
    requires forall e :: e in net.groups[g].pending ==> e < net.groups[g].last
    ensures Backlog(ReadEntries(net, g, count), h) == Backlog(net, h)
  {
    var gs := net.groups[g];
    var n := |NewEntries(net, g, count)|;
    FirstDeliveriesCount(gs.last, n);
    var added := FirstDeliveries(gs.last, n);
    assert gs.pending.Keys !! added.Keys;
    assert (gs.pending + added).Keys == gs.pending.Keys + added.Keys;
  }

  lemma ClaimBacklog(net: Stream, g: Group, ids: seq<nat>, h: Group)
    requires g in net.groups
    ensures Backlog(ClaimEntries(net, g, ids), h) == Backlog(net, h)
  {
    assert ClaimEntries(net, g, ids).groups[g].pending.Keys == net.groups[g].pending.Keys;
  }

  lemma AcknowledgeBacklog(net: Stream, g: Group, e: nat, h: Group)
    requires g in net.groups
    ensures Backlog(Acknowledge(net, g, e), h) <= Backlog(net, h)
  {
    var pending := net.groups[g].pending;
    assert (pending - {e}).Keys == pending.Keys - {e};
    SubsetCount(pending.Keys - {e}, pending.Keys);
  }

  lemma RetireBacklog(c: Config, s: Sys, w: nat, h: Group)
    ensures Backlog(DoAck(s, w).net, h) <= Backlog(s.net, h)
    ensures Backlog(DoMoveToDlq(s, w).net, h) <= Backlog(s.net, h)
    ensures DoAck(s, w).net.groups.Keys == DoMoveToDlq(s, w).net.groups.Keys == s.net.groups.Keys
  {
    if w < |s.workers| && HeadOf(s, w).Some? && HasGroup(s, w) {
      AcknowledgeBacklog(s.net, s.workers[w].group, HeadOf(s, w).value, h);
    }
  }

  lemma DeliverBacklog(c: Config, s: Sys, w: nat, ids: seq<nat>, h: Group)
    requires NoLoss.GroupsOk(s)
    ensures Backlog(DoClaim(c, s, w, ids).net, h) == Backlog(DoRead(c, s, w).net, h) == Backlog(s.net, h)
    ensures DoClaim(c, s, w, ids).net.groups.Keys == DoRead(c, s, w).net.groups.Keys == s.net.groups.Keys
  {
    if HasGroup(s, w) {
      ClaimBacklog(s.net, s.workers[w].group, ids, h);
      ReadBacklog(s.net, s.workers[w].group, c.batchSize, h);
    }
  }

  lemma StillBacklog(c: Config, s: Sys, w: nat)
    requires forall v :: 0 <= v < |s.workers| ==> s.workers[v].group in s.net.groups
    ensures DoEnsureGroup(s, w).net == s.net && DoCount(c, s, w).net == s.net
  {
  }

  /** No consumer move lets a backlog grow, nor creates a group when every worker has its own. */
  lemma ConsumerBacklog(c: Config, s: Sys, m: Move, h: Group)
    requires NoLoss.GroupsOk(s) && ConsumerMove(m)
    requires forall w :: 0 <= w < |s.workers| ==> s.workers[w].group in s.net.groups
    ensures Backlog(Next(c, s, m).net, h) <= Backlog(s.net, h) && Next(c, s, m).net.groups.Keys == s.net.groups.Keys
  {
    var s' := Next(c, s, m);
    if m.Read? {
      assert s' == DoRead(c, s, m.w);
      DeliverBacklog(c, s, m.w, [], h);
    } else if m.Claim? {
      assert s' == DoClaim(c, s, m.w, m.ids);
      DeliverBacklog(c, s, m.w, m.ids, h);
    } else if m.Ack? {
      assert s' == DoAck(s, m.w);
      RetireBacklog(c, s, m.w, h);
    } else if m.MoveToDlq? {
      assert s' == DoMoveToDlq(s, m.w);
      RetireBacklog(c, s, m.w, h);
    } else {
      StillBacklog(c, s, m.w);
    }
  }

  function HeadOf(s: Sys, w: nat): Option<nat>
    requires w < |s.workers|
  {
    var queue := NoLoss.QueueOf(s.workers[w].phase);
    if queue == [] then None else Some(queue[0])
  }

  lemma BacklogBelowInflight(net: Stream, g: Group)
    requires g in net.groups
    ensures Backlog(net, g) <= Inflight(net)
  {
  }

  /** One publisher changes, and the stream grows by at most what its budget shrinks. */
  lemma PublisherStep(c: Config, s: Sys, s': Sys, p: nat)
    requires Bounded(c, s) && p < |s.pubs| && |s'.pubs| == |s.pubs| && s'.pubs == s.pubs[p := s'.pubs[p]]
    requires s'.workers == s.workers && s'.net.groups == s.net.groups
    requires Budget(c, s'.pubs[p]) <= c.batchSize
    requires |s'.net.entries| - |s.net.entries| + Budget(c, s'.pubs[p]) <= Budget(c, s.pubs[p])
             || (s'.net == s.net && Inflight(s.net) < c.maxInflight)
    ensures Bounded(c, s')
  {
    BudgetsUpdate(c, s.pubs, p, s'.pubs[p]);
    BudgetsBound(c, s'.pubs);
    forall g | g in s'.net.groups ensures Backlog(s'.net, g) + Budgets(c, s'.pubs) <= Limit(c, s') {
      assert Backlog(s.net, g) + Budgets(c, s.pubs) <= Limit(c, s);
      BacklogBelowInflight(s.net, g);
    }
  }

  lemma PublisherChange(c: Config, s: Sys, m: Move)
    requires PublisherMove(m) && m.p < |s.pubs| && Budget(c, s.pubs[m.p]) <= c.batchSize
    ensures var s' := Next(c, s, m);
            && |s'.pubs| == |s.pubs| && s'.pubs == s.pubs[m.p := s'.pubs[m.p]]
            && Budget(c, s'.pubs[m.p]) <= c.batchSize
            && (|s'.net.entries| - |s.net.entries| + Budget(c, s'.pubs[m.p]) <= Budget(c, s.pubs[m.p])
                || (s'.net == s.net && Inflight(s.net) < c.maxInflight))
  {
    NoLoss.PickBounds(s.db.outbox, s.pubs, m.p, 0, c.batchSize);
  }

  lemma NextBounded(c: Config, s: Sys, m: Move)
    requires NoLoss.GroupsOk(s) && Bounded(c, s)
    ensures Bounded(c, Next(c, s, m))
  {
    var s' := Next(c, s, m);
    ProcessesStay(c, s, m);
    if PublisherMove(m) {
      if m.p < |s.pubs| {
        PublisherChange(c, s, m);
        PublisherMoves(c, s, m);
        PublisherStep(c, s, s', m.p);
      }
    } else if ConsumerMove(m) {
      ConsumerMoves(c, s, m);
      forall g | g in s'.net.groups ensures Backlog(s'.net, g) + Budgets(c, s'.pubs) <= Limit(c, s') {
        ConsumerBacklog(c, s, m, g);
      }
      ConsumerBacklog(c, s, m, Canonical);
    } else if HandlerMove(m) {
      HandlerMoves(c, s, m);
    }
  }

  lemma {:induction false} RunBounded(c: Config, s: Sys, moves: seq<Move>)
    requires NoLoss.Inv(s) && Bounded(c, s)
    ensures Bounded(c, Run(c, s, moves)) && |Run(c, s, moves).pubs| == |s.pubs|
  {
    if moves != [] {
      var front := moves[..|moves| - 1];
      RunBounded(c, s, front);
      NoLoss.RunKeeps(c, s, front);
      NextBounded(c, Run(c, s, front), moves[|moves| - 1]);
      ProcessesStay(c, Run(c, s, front), moves[|moves| - 1]);
    }
  }

  lemma {:induction false} SetupIsEmpty(c: Config, s0: Sys, setup: seq<Move>)
    requires Start(s0) && forall i :: 0 <= i < |setup| ==> setup[i].EnsureGroup?
    ensures var s := Run(c, s0, setup);
            && s.net.entries == [] && s.pubs == s0.pubs && s.workers == s0.workers
            && forall g :: g in s.net.groups ==> s.net.groups[g] == GroupState(0, map[])
  {
    if setup != [] {
      SetupIsEmpty(c, s0, setup[..|setup| - 1]);
    }
  }

  lemma SetupBounded(c: Config, s: Sys)
    requires ValidConfig(c) && s.net.entries == []
    requires forall p :: 0 <= p < |s.pubs| ==> s.pubs[p].Off?
    requires forall g :: g in s.net.groups ==> s.net.groups[g] == GroupState(0, map[])
    requires forall w :: 0 <= w < |s.workers| ==> s.workers[w].group in s.net.groups
    ensures Bounded(c, s)
  {
    BudgetsOff(c, s.pubs);
    BudgetsBound(c, s.pubs);
  }

  /**
   * With the groups of all workers created first, in every interleaving of any number of
   * publishers, with crashes anywhere, no group ever has more than
   * `maxInflight - 1 + publishers * batchSize` undelivered and pending entries.
   */
  lemma BacklogIsBounded(c: Config, s0: Sys, setup: seq<Move>, moves: seq<Move>, g: Group)
    requires ValidConfig(c) && Start(s0)
    requires forall i :: 0 <= i < |setup| ==> setup[i].EnsureGroup?
    requires forall w :: 0 <= w < |s0.workers| ==> s0.workers[w].group in Run(c, s0, setup).net.groups
    requires g in Run(c, s0, setup + moves).net.groups
    ensures var net := Run(c, s0, setup + moves).net;
            |net.groups[g].pending| + (|net.entries| - net.groups[g].last) <= c.maxInflight - 1 + |s0.pubs| * c.batchSize
  {
    var s := Run(c, s0, setup);
    SetupIsEmpty(c, s0, setup);
    NoLoss.StartOk(s0);
    NoLoss.RunKeeps(c, s0, setup);
    SetupBounded(c, s);
    RunBounded(c, s, moves);
    RunAppend(c, s0, setup, moves);
  }
}
