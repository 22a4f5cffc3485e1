/** Which parts of the state each kind of move can touch. */
module Frames {
  import opened Common
  import opened PipelineState

  predicate PublisherMove(m: Move)
  {
    m.Check? || m.Select? || m.Xadd? || m.Commit? || m.PublisherAbort?
  }

  predicate ConsumerMove(m: Move)
  {
    m.EnsureGroup? || m.Claim? || m.Read? || m.Ack? || m.Count? || m.MoveToDlq?
  }

  predicate HandlerMove(m: Move)
  {
    m.Handle? || m.Deliver? || m.Finish? || m.Abort?
  }

  ghost predicate OneChanged(ws: seq<Worker>, ws': seq<Worker>, w: nat)
  {
    && |ws'| == |ws|
    && (ws' == ws || (w < |ws| && ws' == ws[w := ws'[w]] && ws'[w].group == ws[w].group))
  }

  ghost predicate EntriesGrow(a: seq<Envelope>, b: seq<Envelope>)
  {
    |a| <= |b| && forall e :: 0 <= e < |a| ==> b[e] == a[e]
  }

  ghost predicate PublisherFrame(s: Sys, s': Sys)
  {
    && s'.workers == s.workers && s'.hist == s.hist && s'.net.groups == s.net.groups && s'.net.dlq == s.net.dlq
    && |s'.pubs| == |s.pubs| && EntriesGrow(s.net.entries, s'.net.entries)
    && s'.db == s.db.(outbox := s'.db.outbox) && |s'.db.outbox| == |s.db.outbox|
    && (forall r :: 0 <= r < |s.db.outbox| ==>
          s'.db.outbox[r].key == s.db.outbox[r].key && s'.db.outbox[r].payload == s.db.outbox[r].payload
          && (s.db.outbox[r].published ==> s'.db.outbox[r].published))
  }

  predicate Sending(phase: Phase) { phase.Delivering? || phase.Replied? }

  ghost predicate ConsumerFrame(s: Sys, s': Sys, w: nat)
  {
    && s'.db == s.db && s'.pubs == s.pubs && s'.net.entries == s.net.entries
    && s'.hist == s.hist.(dead := s'.hist.dead)
    && OneChanged(s.workers, s'.workers, w)
    && (s'.workers != s.workers ==> !Sending(s.workers[w].phase) && !Sending(s'.workers[w].phase))
  }

  ghost predicate HandlerFrame(s: Sys, s': Sys, w: nat)
  {
    s'.pubs == s.pubs && s'.net == s.net && OneChanged(s.workers, s'.workers, w)
  }

  lemma PublisherMoves(c: Config, s: Sys, m: Move)
    requires PublisherMove(m)
    ensures PublisherFrame(s, Next(c, s, m))
  {
  }

  lemma ConsumerMoves(c: Config, s: Sys, m: Move)
    requires ConsumerMove(m)
    ensures ConsumerFrame(s, Next(c, s, m), m.w)
  {
  }

  lemma HandleMoves(c: Config, s: Sys, w: nat, tx: TxReply)
    ensures HandlerFrame(s, DoHandle(c, s, w, tx), w)
  {
  }

  lemma HandlerMoves(c: Config, s: Sys, m: Move)
    requires HandlerMove(m)
    ensures HandlerFrame(s, Next(c, s, m), m.w)
  {
    if m.Handle? {
      HandleMoves(c, s, m.w, m.tx);
    }
  }

  /** Processes keep their number, and workers their groups. */
  ghost predicate SameProcesses(s: Sys, s': Sys)
  {
    && |s'.pubs| == |s.pubs| && |s'.workers| == |s.workers|
    && (forall w :: 0 <= w < |s.workers| ==> s'.workers[w].group == s.workers[w].group)
    && EntriesGrow(s.net.entries, s'.net.entries)
  }

  lemma ProcessesStay(c: Config, s: Sys, m: Move)
    ensures SameProcesses(s, Next(c, s, m))
  {
    if PublisherMove(m) {
      PublisherMoves(c, s, m);
    } else if ConsumerMove(m) {
      ConsumerMoves(c, s, m);
    } else if HandlerMove(m) {
      HandlerMoves(c, s, m);
    }
  }
}
