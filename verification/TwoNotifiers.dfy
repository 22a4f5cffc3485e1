/**
 * Why the guarantees on notifications ask for one notification worker. A terminal status is final in
 * every run exactly if there is at most one such worker, or nothing can ever be announced: with two of
 * them, wherever they stand among the workers and whatever the policy, some run reports an action that
 * had succeeded as a permanent failure after all.
 */
module TwoNotifiers {
  import opened Common
  import opened Alerts
  import opened PipelineState
  import opened PipelineProcess
  import opened WorkerProcess
  import opened Records
  import opened Notifications
  import opened Frames
  import ClosedLoop

  /** What it takes to get an announcement to the notifiers. */
  ghost predicate CanAnnounce(c: Config, s0: Sys)
  {
    && s0.pubs != []
    && (exists a :: 0 <= a < |s0.workers| && s0.workers[a].group.Shadow?)
    && (exists fact :: Notifies(Evaluate(c.policy, fact).outcome))
  }

  /** In no run does a terminal action change or get another webhook call. */
  ghost predicate AlwaysFinal(c: Config, s0: Sys)
  {
    forall moves, more, key :: ClosedLoop.Finished(Run(c, s0, moves).db, key) ==>
      StillAs(Run(c, s0, moves), Run(c, s0, moves + more), key)
  }

  predicate StillAs(s: Sys, t: Sys, key: ActionKey)
    requires key in s.db.actions
  {
    key in t.db.actions && t.db.actions[key] == s.db.actions[key] && t.hist.sent[key] == s.hist.sent[key]
  }

  // ------------------------------------------------------------- the scene

  /** A shadow worker `a`, two notification workers `v` and `w`, and a fact to notify about. */
  datatype Scene = Scene(c: Config, s0: Sys, fact: Fact, a: nat, v: nat, w: nat)

  predicate Ready(sc: Scene)
  {
    && ValidConfig(sc.c) && Start(sc.s0) && sc.s0.pubs != [] && Notifies(Verdict(sc).outcome)
    && sc.a < |sc.s0.workers| && sc.v < |sc.s0.workers| && sc.w < |sc.s0.workers| && sc.v != sc.w
    && sc.s0.workers[sc.a].group.Shadow? && sc.s0.workers[sc.v].group.Notify? && sc.s0.workers[sc.w].group.Notify?
  }

  function Verdict(sc: Scene): Evaluation
  {
    Evaluate(sc.c.policy, sc.fact)
  }

  function Key(sc: Scene): ActionKey
  {
    KeyOf(0, Verdict(sc).outcome)
  }

  function Told(sc: Scene): Message
  {
    Message(Key(sc), 0, Verdict(sc).outcome, Verdict(sc).reasons, sc.fact)
  }

  function ObservedRow(published: bool): Row
  {
    Row(CanonicalKey(0), ObservationPersisted(0), published, if published then 1 else 0, false)
  }

  function DecidedRow(sc: Scene, published: bool): Row
  {
    Row(ShadowKey(0), DecisionCreated(0, 0, Verdict(sc).outcome), published, if published then 1 else 0, false)
  }

  const OBSERVED: Envelope := Envelope(0, CanonicalKey(0), ObservationPersisted(0))

  function Announced(sc: Scene): Envelope
  {
    Envelope(1, ShadowKey(0), DecisionCreated(0, 0, Verdict(sc).outcome))
  }

  /** One observation, not yet decided. */
  function Undecided(sc: Scene, published: bool): Db
  {
    Db([Observation(sc.fact, false)], [], [ObservedRow(published)], map[], map[])
  }

  /** Decided, with the state of the action if there is one. */
  function DecidedDb(sc: Scene, published: bool, action: Option<ActionRow>, notified: ActionStatus): Db
  {
    Db([Observation(sc.fact, false)], [Decision(0, Verdict(sc).outcome, Verdict(sc).reasons)],
       [ObservedRow(true), DecidedRow(sc, published)],
       if action.Some? then map[Key(sc) := action.value] else map[],
       if action.Some? then map[Key(sc) := notified] else map[])
  }

  /** The action after `attempts` starts. */
  function ActionDb(sc: Scene, status: ActionStatus, attempts: nat, notified: ActionStatus): Db
  {
    DecidedDb(sc, true, Some(ActionRow(status, attempts, Told(sc))), notified)
  }

  function Cast(sc: Scene, shadow: Phase, first: Phase, second: Phase): seq<Worker>
    requires Ready(sc)
  {
    sc.s0.workers[sc.a := Worker(Shadow, shadow)][sc.v := Worker(Notify, first)][sc.w := Worker(Notify, second)]
  }

  lemma CastMoves(sc: Scene, shadow: Phase, first: Phase, second: Phase, phase: Phase)
    requires Ready(sc)
    ensures var cast := Cast(sc, shadow, first, second);
            && cast[sc.a] == Worker(Shadow, shadow) && cast[sc.v] == Worker(Notify, first) && cast[sc.w] == Worker(Notify, second)
            && cast[sc.a := Worker(Shadow, phase)] == Cast(sc, phase, first, second)
            && cast[sc.v := Worker(Notify, phase)] == Cast(sc, shadow, phase, second)
            && cast[sc.w := Worker(Notify, phase)] == Cast(sc, shadow, first, phase)
  {
    ThreeUpdates(sc.s0.workers, sc.a, sc.v, sc.w, Worker(Shadow, shadow), Worker(Notify, first), Worker(Notify, second),
                 Worker(Shadow, phase), Worker(Notify, phase));
  }

  lemma ThreeUpdates(ws: seq<Worker>, i: nat, j: nat, k: nat, x: Worker, y: Worker, z: Worker, x': Worker, y': Worker)
    requires i < |ws| && j < |ws| && k < |ws| && i != j && i != k && j != k
    ensures var cast := ws[i := x][j := y][k := z];
            && cast[i] == x && cast[j] == y && cast[k] == z
            && cast[i := x'] == ws[i := x'][j := y][k := z]
            && cast[j := y'] == ws[i := x][j := y'][k := z]
            && cast[k := y'] == ws[i := x][j := y][k := y']
  {
  }

  /** Where the database, the stream and the three workers are; everyone else is at rest. */
  ghost predicate At(sc: Scene, s: Sys, db: Db, net: Stream, shadow: Phase, first: Phase, second: Phase)
    requires Ready(sc)
  {
    s.db == db && s.net == net && s.pubs == sc.s0.pubs && s.workers == Cast(sc, shadow, first, second)
  }

  /** The stream, with the shadow group holding the first entry, and the notification group if there is one. */
  function StreamOf(entries: seq<Envelope>, notify: Option<GroupState>): Stream
  {
    var shadow := map[Shadow := GroupState(1, map[0 := 1])];
    Stream(entries, if notify.Some? then shadow[Notify := notify.value] else shadow, [])
  }

  function Two(sc: Scene, pending: map<nat, nat>): Stream
  {
    StreamOf([OBSERVED, Announced(sc)], Some(GroupState(2, pending)))
  }

  // ------------------------------------------------------------- publishing and polling

  const PUBLISH: seq<Move> := [Check(0), Select(0)] + (Appends(0, 1) + []) + [Commit(0)]

  lemma PickLast(outbox: seq<Row>, pubs: seq<Publisher>, from: nat, limit: nat)
    requires forall p :: 0 <= p < |pubs| ==> pubs[p].Off?
    requires from < |outbox| && 1 <= limit && !outbox[|outbox| - 1].published
    requires forall r :: from <= r < |outbox| - 1 ==> outbox[r].published
    ensures Pick(outbox, pubs, 0, from, limit) == [|outbox| - 1]
    decreases |outbox| - from
  {
    if from < |outbox| - 1 {
      PickLast(outbox, pubs, from + 1, limit);
    }
  }

  lemma MarkOne(outbox: seq<Row>, row: nat)
    requires row < |outbox|
    ensures MarkPublished(outbox, [row], 1, false)
            == outbox[row := outbox[row].(published := true, attempts := outbox[row].attempts + 1, failed := false)]
  {
    assert [row][..1] == [row];
  }

  /** A publisher moves the one row that waits, the last. */
  lemma PublishOne(c: Config, s: Sys)
    requires s.pubs != [] && (forall p :: 0 <= p < |s.pubs| ==> s.pubs[p].Off?) && 1 <= c.batchSize
    requires s.db.outbox != [] && Inflight(s.net) < c.maxInflight && !s.db.outbox[|s.db.outbox| - 1].published
    requires forall r :: 0 <= r < |s.db.outbox| - 1 ==> s.db.outbox[r].published
    ensures var t := Run(c, s, PUBLISH);
            var row := |s.db.outbox| - 1;
            && t.workers == s.workers && t.pubs == s.pubs
            && t.net == Append(s.net, s.db.outbox, row)
            && t.db == s.db.(outbox := MarkPublished(s.db.outbox, [row], 1, false))
  {
    var row := |s.db.outbox| - 1;
    PickLast(s.db.outbox, s.pubs, 0, c.batchSize);
    SelectTrace(c, s, 0, [row]);
    var s1 := s.(pubs := s.pubs[0 := Open([row], 0, false)]);
    assert Appends(0, 0) + [] == [];
    assert Appending(c, s1, s1, [row], 0, 0, false, []);
    AppendingStep(c, s1, s1, [row], 0, 0, Added);
    var t1 := Next(c, s1, Xadd(0, Added));
    CommitTrace(c, s, s1, t1, 0, Appends(0, 1) + [], 1);
  }

  /** A group with one entry left reads it. */
  lemma ReadOne(c: Config, net: Stream, g: Group)
    requires g in net.groups && net.entries != [] && net.groups[g] == GroupState(|net.entries| - 1, map[]) && 1 <= c.batchSize
    ensures var e := |net.entries| - 1;
            PollResult(c, net, g, []) == (net.(groups := net.groups[g := GroupState(e + 1, map[e := 1])]), [e])
  {
    var e := |net.entries| - 1;
    assert NewEntries(net, g, c.batchSize) == [e];
    SpanMembers(e, 1);
    assert map[] + FirstDeliveries(e, 1) == map[e := 1];
  }

  lemma PollOne(c: Config, s: Sys, w: nat)
    requires w < |s.workers| && s.workers[w].phase.Idle? && 1 <= c.batchSize && s.net.entries != []
    requires CreateGroup(s.net, s.workers[w].group).groups[s.workers[w].group] == GroupState(|s.net.entries| - 1, map[])
    ensures var g, e := s.workers[w].group, |s.net.entries| - 1;
            Run(c, s, PollMoves(w, [])) == s.(
              net := s.net.(groups := s.net.groups[g := GroupState(e + 1, map[e := 1])]),
              workers := s.workers[w := s.workers[w].(phase := Batch([e]))])
  {
    var g := s.workers[w].group;
    var net := CreateGroup(s.net, g);
    ReadOne(c, net, g);
    PollTrace(c, s, w, []);
    assert net.groups[g := GroupState(|s.net.entries|, map[|s.net.entries| - 1 := 1])]
        == s.net.groups[g := GroupState(|s.net.entries|, map[|s.net.entries| - 1 := 1])];
  }

  // ------------------------------------------------------------- the steps of the run

  lemma IngestAndPublish(sc: Scene)
    requires Ready(sc)
    ensures At(sc, Run(sc.c, Next(sc.c, sc.s0, Ingest(sc.fact)), PUBLISH), Undecided(sc, true), Stream([OBSERVED], map[], []),
               Idle, Idle, Idle)
  {
    var s1 := Next(sc.c, sc.s0, Ingest(sc.fact));
    assert s1.db == Undecided(sc, false) && s1.net == Stream([], map[], []);
    PublishOne(sc.c, s1);
    MarkOne([ObservedRow(false)], 0);
    assert sc.s0.workers == Cast(sc, Idle, Idle, Idle);
  }

  lemma ShadowPolls(sc: Scene, s: Sys)
    requires Ready(sc) && At(sc, s, Undecided(sc, true), Stream([OBSERVED], map[], []), Idle, Idle, Idle)
    ensures At(sc, Run(sc.c, s, PollMoves(sc.a, [])), Undecided(sc, true), StreamOf([OBSERVED], None), Batch([0]), Idle, Idle)
  {
    CastMoves(sc, Idle, Idle, Idle, Batch([0]));
    PollOne(sc.c, s, sc.a);
    assert s.net.groups[Shadow := GroupState(1, map[0 := 1])] == map[Shadow := GroupState(1, map[0 := 1])];
  }

  lemma ShadowDecides(sc: Scene, s: Sys)
    requires Ready(sc) && At(sc, s, Undecided(sc, true), StreamOf([OBSERVED], None), Batch([0]), Idle, Idle)
    ensures At(sc, Next(sc.c, s, Handle(sc.a, Commits)), DecidedDb(sc, false, None, Planned), StreamOf([OBSERVED], None),
               Returned([0]), Idle, Idle)
  {
    CastMoves(sc, Batch([0]), Idle, Idle, Returned([0]));
    SimpleCall(sc.c, s, sc.a, Commits);
  }

  lemma NotifierPolls(sc: Scene, s: Sys)
    requires Ready(sc)
    requires At(sc, s, DecidedDb(sc, false, None, Planned), StreamOf([OBSERVED], None), Returned([0]), Idle, Idle)
    ensures At(sc, Run(sc.c, s, PollMoves(sc.v, [])), DecidedDb(sc, false, None, Planned),
               StreamOf([OBSERVED], Some(GroupState(1, map[0 := 1]))), Returned([0]), Batch([0]), Idle)
  {
    CastMoves(sc, Returned([0]), Idle, Idle, Batch([0]));
    PollOne(sc.c, s, sc.v);
  }

  /** The canonical entry is nothing to a notifier. */
  lemma NotifierSkips(sc: Scene, s: Sys)
    requires Ready(sc)
    requires At(sc, s, DecidedDb(sc, false, None, Planned), StreamOf([OBSERVED], Some(GroupState(1, map[0 := 1]))),
                Returned([0]), Batch([0]), Idle)
    ensures At(sc, Next(sc.c, Next(sc.c, s, Handle(sc.v, Commits)), Ack(sc.v)), DecidedDb(sc, false, None, Planned),
               StreamOf([OBSERVED], Some(GroupState(1, map[]))), Returned([0]), Idle, Idle)
  {
    CastMoves(sc, Returned([0]), Batch([0]), Idle, Idle);
    SimpleCall(sc.c, s, sc.v, Commits);
    var s1 := Next(sc.c, s, Handle(sc.v, Commits));
    AckTurn(sc.c, s, s1, sc.v);
    var pending: map<nat, nat> := map[0 := 1];
    assert pending - {0} == map[];
    assert s.net.groups[Notify := GroupState(1, map[])] == StreamOf([OBSERVED], Some(GroupState(1, map[]))).groups;
  }

  lemma PublishDecision(sc: Scene, s: Sys)
    requires Ready(sc)
    requires At(sc, s, DecidedDb(sc, false, None, Planned), StreamOf([OBSERVED], Some(GroupState(1, map[]))),
                Returned([0]), Idle, Idle)
    ensures At(sc, Run(sc.c, s, PUBLISH), DecidedDb(sc, true, None, Planned),
               StreamOf([OBSERVED, Announced(sc)], Some(GroupState(1, map[]))), Returned([0]), Idle, Idle)
  {
    assert Backlog(s.net, Shadow) == 1 && Backlog(s.net, Notify) == 0 && Backlog(s.net, Canonical) == 0;
    PublishOne(sc.c, s);
    MarkOne([ObservedRow(true), DecidedRow(sc, false)], 1);
  }

  lemma FirstPolls(sc: Scene, s: Sys)
    requires Ready(sc)
    requires At(sc, s, DecidedDb(sc, true, None, Planned), StreamOf([OBSERVED, Announced(sc)], Some(GroupState(1, map[]))),
                Returned([0]), Idle, Idle)
    ensures At(sc, Run(sc.c, s, PollMoves(sc.v, [])), DecidedDb(sc, true, None, Planned), Two(sc, map[1 := 1]),
               Returned([0]), Batch([1]), Idle)
  {
    CastMoves(sc, Returned([0]), Idle, Idle, Batch([1]));
    PollOne(sc.c, s, sc.v);
    assert s.net.groups[Notify := GroupState(2, map[1 := 1])] == Two(sc, map[1 := 1]).groups;
  }

  lemma FirstStarts(sc: Scene, s: Sys)
    requires Ready(sc)
    requires At(sc, s, DecidedDb(sc, true, None, Planned), Two(sc, map[1 := 1]), Returned([0]), Batch([1]), Idle)
    ensures At(sc, Next(sc.c, s, Handle(sc.v, Commits)), ActionDb(sc, Running, 1, Planned), Two(sc, map[1 := 1]),
               Returned([0]), Delivering([1], Key(sc), Told(sc)), Idle)
  {
    CastMoves(sc, Returned([0]), Batch([1]), Idle, Delivering([1], Key(sc), Told(sc)));
    StartedCall(sc.c, s, sc.v);
  }

  /** The entry has been pending long enough for the other worker to claim it. */
  lemma SecondClaims(sc: Scene, s: Sys)
    requires Ready(sc)
    requires At(sc, s, ActionDb(sc, Running, 1, Planned), Two(sc, map[1 := 1]),
                Returned([0]), Delivering([1], Key(sc), Told(sc)), Idle)
    ensures At(sc, Next(sc.c, s, Claim(sc.w, [1])), ActionDb(sc, Running, 1, Planned), Two(sc, map[1 := 2]),
               Returned([0]), Delivering([1], Key(sc), Told(sc)), Batch([1]))
  {
    CastMoves(sc, Returned([0]), Delivering([1], Key(sc), Told(sc)), Idle, Batch([1]));
    assert Claimable(sc.c, s.net, Notify, [1]);
    ClaimMove(sc.c, s, sc.w, [1]);
    var claimed := ClaimEntries(s.net, Notify, [1]).groups[Notify].pending;
    assert claimed.Keys == {1} && 1 in [1] && claimed[1] == 2;
    assert claimed == map[1 := 2];
    assert ClaimEntries(s.net, Notify, [1]).groups == Two(sc, map[1 := 2]).groups;
  }

  lemma SecondStarts(sc: Scene, s: Sys)
    requires Ready(sc)
    requires At(sc, s, ActionDb(sc, Running, 1, Planned), Two(sc, map[1 := 2]),
                Returned([0]), Delivering([1], Key(sc), Told(sc)), Batch([1]))
    ensures At(sc, Next(sc.c, s, Handle(sc.w, Commits)), ActionDb(sc, Running, 2, Planned), Two(sc, map[1 := 2]),
               Returned([0]), Delivering([1], Key(sc), Told(sc)), Delivering([1], Key(sc), Told(sc)))
  {
    CastMoves(sc, Returned([0]), Delivering([1], Key(sc), Told(sc)), Batch([1]), Delivering([1], Key(sc), Told(sc)));
    StartedCall(sc.c, s, sc.w);
  }

  lemma FirstSucceeds(sc: Scene, s: Sys)
    requires Ready(sc)
    requires At(sc, s, ActionDb(sc, Running, 2, Planned), Two(sc, map[1 := 2]),
                Returned([0]), Delivering([1], Key(sc), Told(sc)), Delivering([1], Key(sc), Told(sc)))
    ensures At(sc, Next(sc.c, Next(sc.c, s, Deliver(sc.v, Accepted)), Finish(sc.v, Commits)),
               ActionDb(sc, Succeeded, 2, Succeeded), Two(sc, map[1 := 2]),
               Returned([0]), Returned([1]), Delivering([1], Key(sc), Told(sc)))
  {
    var sending := Delivering([1], Key(sc), Told(sc));
    var replied := Replied([1], Key(sc), Accepted);
    CastMoves(sc, Returned([0]), sending, sending, replied);
    DeliveredCall(sc.c, s, sc.v, Accepted);
    CastMoves(sc, Returned([0]), replied, sending, Returned([1]));
    FinishedCall(sc.c, Next(sc.c, s, Deliver(sc.v, Accepted)), sc.v, Commits);
  }

  lemma SecondFails(sc: Scene, s: Sys)
    requires Ready(sc)
    requires At(sc, s, ActionDb(sc, Succeeded, 2, Succeeded), Two(sc, map[1 := 2]),
                Returned([0]), Returned([1]), Delivering([1], Key(sc), Told(sc)))
    ensures Next(sc.c, Next(sc.c, s, Deliver(sc.w, Permanent)), Finish(sc.w, Commits)).db
            == ActionDb(sc, PermanentFailure, 2, PermanentFailure)
  {
    var sending := Delivering([1], Key(sc), Told(sc));
    var replied := Replied([1], Key(sc), Permanent);
    CastMoves(sc, Returned([0]), Returned([1]), sending, replied);
    DeliveredCall(sc.c, s, sc.w, Permanent);
    CastMoves(sc, Returned([0]), Returned([1]), replied, Idle);
    FinishedCall(sc.c, Next(sc.c, s, Deliver(sc.w, Permanent)), sc.w, Commits);
  }

  // ------------------------------------------------------------- the run

  function Deciding(sc: Scene): seq<Move>
  {
    [Ingest(sc.fact)] + PUBLISH + PollMoves(sc.a, []) + [Handle(sc.a, Commits)]
  }

  function Skipping(sc: Scene): seq<Move>
  {
    Deciding(sc) + PollMoves(sc.v, []) + [Handle(sc.v, Commits), Ack(sc.v)]
  }

  function Announcing(sc: Scene): seq<Move>
  {
    Skipping(sc) + PUBLISH + PollMoves(sc.v, [])
  }

  function Both(sc: Scene): seq<Move>
  {
    Announcing(sc) + [Handle(sc.v, Commits)] + [Claim(sc.w, [1])] + [Handle(sc.w, Commits)]
  }

  function Reported(sc: Scene): seq<Move>
  {
    Both(sc) + [Deliver(sc.v, Accepted), Finish(sc.v, Commits)]
  }

  function Overwriting(sc: Scene): seq<Move>
  {
    [Deliver(sc.w, Permanent), Finish(sc.w, Commits)]
  }

  lemma DecidingRun(sc: Scene)
    requires Ready(sc)
    ensures At(sc, Run(sc.c, sc.s0, Deciding(sc)), DecidedDb(sc, false, None, Planned), StreamOf([OBSERVED], None),
               Returned([0]), Idle, Idle)
  {
    var a := [Ingest(sc.fact)];
    RunOne(sc.c, sc.s0, Ingest(sc.fact));
    RunAppend(sc.c, sc.s0, a, PUBLISH);
    RunAppend(sc.c, sc.s0, a + PUBLISH, PollMoves(sc.a, []));
    RunStep(sc.c, sc.s0, a + PUBLISH + PollMoves(sc.a, []), Handle(sc.a, Commits));
    IngestAndPublish(sc);
    ShadowPolls(sc, Run(sc.c, sc.s0, a + PUBLISH));
    ShadowDecides(sc, Run(sc.c, sc.s0, a + PUBLISH + PollMoves(sc.a, [])));
  }

  lemma SkippingRun(sc: Scene)
    requires Ready(sc)
    ensures At(sc, Run(sc.c, sc.s0, Skipping(sc)), DecidedDb(sc, false, None, Planned),
               StreamOf([OBSERVED], Some(GroupState(1, map[]))), Returned([0]), Idle, Idle)
  {
    DecidingRun(sc);
    RunAppend(sc.c, sc.s0, Deciding(sc), PollMoves(sc.v, []));
    var s := Run(sc.c, sc.s0, Deciding(sc) + PollMoves(sc.v, []));
    RunAppend(sc.c, sc.s0, Deciding(sc) + PollMoves(sc.v, []), [Handle(sc.v, Commits), Ack(sc.v)]);
    RunTwo(sc.c, s, Handle(sc.v, Commits), Ack(sc.v));
    NotifierPolls(sc, Run(sc.c, sc.s0, Deciding(sc)));
    NotifierSkips(sc, s);
  }

  lemma AnnouncingRun(sc: Scene)
    requires Ready(sc)
    ensures At(sc, Run(sc.c, sc.s0, Announcing(sc)), DecidedDb(sc, true, None, Planned), Two(sc, map[1 := 1]),
               Returned([0]), Batch([1]), Idle)
  {
    SkippingRun(sc);
    RunAppend(sc.c, sc.s0, Skipping(sc), PUBLISH);
    RunAppend(sc.c, sc.s0, Skipping(sc) + PUBLISH, PollMoves(sc.v, []));
    PublishDecision(sc, Run(sc.c, sc.s0, Skipping(sc)));
    FirstPolls(sc, Run(sc.c, sc.s0, Skipping(sc) + PUBLISH));
  }

  lemma BothRun(sc: Scene)
    requires Ready(sc)
    ensures At(sc, Run(sc.c, sc.s0, Both(sc)), ActionDb(sc, Running, 2, Planned), Two(sc, map[1 := 2]),
               Returned([0]), Delivering([1], Key(sc), Told(sc)), Delivering([1], Key(sc), Told(sc)))
  {
    AnnouncingRun(sc);
    RunStep(sc.c, sc.s0, Announcing(sc), Handle(sc.v, Commits));
    RunStep(sc.c, sc.s0, Announcing(sc) + [Handle(sc.v, Commits)], Claim(sc.w, [1]));
    RunStep(sc.c, sc.s0, Announcing(sc) + [Handle(sc.v, Commits)] + [Claim(sc.w, [1])], Handle(sc.w, Commits));
    FirstStarts(sc, Run(sc.c, sc.s0, Announcing(sc)));
    SecondClaims(sc, Run(sc.c, sc.s0, Announcing(sc) + [Handle(sc.v, Commits)]));
    SecondStarts(sc, Run(sc.c, sc.s0, Announcing(sc) + [Handle(sc.v, Commits)] + [Claim(sc.w, [1])]));
  }

  /** With two notification workers, in any deployment that can announce, a terminal status does not last. */
  lemma TerminalIsOverwritten(sc: Scene)
    requires Ready(sc)
    ensures var s := Run(sc.c, sc.s0, Reported(sc));
            var t := Run(sc.c, sc.s0, Reported(sc) + Overwriting(sc));
            && ClosedLoop.Finished(s.db, Key(sc)) && s.db.actions[Key(sc)].status == Succeeded
            && Key(sc) in t.db.actions && t.db.actions[Key(sc)].status == PermanentFailure
  {
    BothRun(sc);
    var s := Run(sc.c, sc.s0, Both(sc));
    RunAppend(sc.c, sc.s0, Both(sc), [Deliver(sc.v, Accepted), Finish(sc.v, Commits)]);
    RunTwo(sc.c, s, Deliver(sc.v, Accepted), Finish(sc.v, Commits));
    FirstSucceeds(sc, s);
    var t := Run(sc.c, sc.s0, Reported(sc));
    RunAppend(sc.c, sc.s0, Reported(sc), Overwriting(sc));
    RunTwo(sc.c, t, Deliver(sc.w, Permanent), Finish(sc.w, Commits));
    SecondFails(sc, t);
  }

  // ------------------------------------------------------------- nothing to announce

  lemma {:induction false} NoPublisherNoAction(c: Config, s0: Sys, moves: seq<Move>)
    requires Start(s0) && s0.pubs == []
    ensures var s := Run(c, s0, moves); s.pubs == [] && s.net.entries == [] && s.db.actions == map[]
  {
    if moves != [] {
      NoPublisherNoAction(c, s0, moves[..|moves| - 1]);
      NextUnpublished(c, Run(c, s0, moves[..|moves| - 1]), moves[|moves| - 1]);
    }
  }

  lemma NextUnpublished(c: Config, s: Sys, m: Move)
    requires s.pubs == [] && s.net.entries == [] && s.db.actions == map[]
    ensures var s' := Next(c, s, m); s'.pubs == [] && s'.net.entries == [] && s'.db.actions == map[]
  {
  }

  lemma NextUndecided(c: Config, s: Sys, m: Move)
    requires s.db.decisions == [] && forall a :: 0 <= a < |s.workers| ==> !s.workers[a].group.Shadow?
    ensures Next(c, s, m).db.decisions == []
    ensures forall a :: 0 <= a < |Next(c, s, m).workers| ==> !Next(c, s, m).workers[a].group.Shadow?
  {
    ProcessesStay(c, s, m);
    if PublisherMove(m) {
      PublisherMoves(c, s, m);
    } else if ConsumerMove(m) {
      ConsumerMoves(c, s, m);
    }
  }

  lemma {:induction false} NoShadowNoDecision(c: Config, s0: Sys, moves: seq<Move>)
    requires Start(s0) && forall a :: 0 <= a < |s0.workers| ==> !s0.workers[a].group.Shadow?
    ensures var s := Run(c, s0, moves);
            s.db.decisions == [] && forall a :: 0 <= a < |s.workers| ==> !s.workers[a].group.Shadow?
  {
    if moves != [] {
      NoShadowNoDecision(c, s0, moves[..|moves| - 1]);
      NextUndecided(c, Run(c, s0, moves[..|moves| - 1]), moves[|moves| - 1]);
    }
  }

  /** Where nothing can be announced, nothing is ever finished. */
  lemma NothingFinished(c: Config, s0: Sys, moves: seq<Move>, key: ActionKey)
    requires Start(s0) && !CanAnnounce(c, s0)
    ensures !ClosedLoop.Finished(Run(c, s0, moves).db, key)
  {
    var s := Run(c, s0, moves);
    StartReady(c, s0);
    RunReady(c, s0, moves);
    if key in s.db.actions {
      assert ActionRowOk(s.db, key) && DecisionLinked(c.policy, s.db, key.decision);
      if s0.pubs == [] {
        NoPublisherNoAction(c, s0, moves);
      } else {
        NoShadowNoDecision(c, s0, moves);
      }
      assert false;
    }
  }

  // ------------------------------------------------------------- the exact condition

  lemma OverwrittenSomewhere(c: Config, s0: Sys) returns (sc: Scene)
    requires ValidConfig(c) && Start(s0) && CanAnnounce(c, s0) && !ClosedLoop.OneNotifier(s0.workers)
    ensures sc.c == c && sc.s0 == s0 && Ready(sc)
  {
    var a :| 0 <= a < |s0.workers| && s0.workers[a].group.Shadow?;
    var fact :| Notifies(Evaluate(c.policy, fact).outcome);
    var v, w :| 0 <= v < w < |s0.workers| && s0.workers[v].group.Notify? && s0.workers[w].group.Notify?;
    sc := Scene(c, s0, fact, a, v, w);
  }

  /** A terminal status is final in every run exactly with one notifier, or where nothing can be announced. */
  lemma FinalIffOneNotifier(c: Config, s0: Sys)
    requires ValidConfig(c) && Start(s0)
    ensures AlwaysFinal(c, s0) <==> ClosedLoop.OneNotifier(s0.workers) || !CanAnnounce(c, s0)
  {
    if ClosedLoop.OneNotifier(s0.workers) || !CanAnnounce(c, s0) {
      forall moves, more, key | ClosedLoop.Finished(Run(c, s0, moves).db, key)
        ensures StillAs(Run(c, s0, moves), Run(c, s0, moves + more), key)
      {
        if ClosedLoop.OneNotifier(s0.workers) {
          ClosedLoop.TerminalIsFinal(c, s0, moves, more, key);
        } else {
          NothingFinished(c, s0, moves, key);
        }
      }
    } else {
      var sc := OverwrittenSomewhere(c, s0);
      TerminalIsOverwritten(sc);
      assert !StillAs(Run(c, s0, Reported(sc)), Run(c, s0, Reported(sc) + Overwriting(sc)), Key(sc));
    }
  }
}
