/** Decision revisions and the feedback chain, with shadow handlers and feedback posts interleaved. */
module DecisionHistory {
  import opened Common
  import opened SourceKeys

  datatype PolicyRef = PolicyRef(id: string, version: string)

  const ANCHOR := PolicyRef("ui-feedback-anchor", "1.0.0")

  datatype Decision = Decision(subject: Uuid, revision: nat, policy: PolicyRef)

  datatype Feedback = Feedback(decision: nat, verdict: string, supersedes: Option<nat>)

  /** Rows in the order they were committed; `shadow` holds the keys of the outbox rows. */
  datatype Db = Db(decisions: seq<Decision>, shadow: set<string>, feedback: seq<Feedback>)

  function ShadowKey(o: Uuid, p: PolicyRef): string
  {
    "shadow" + ":" + (o + ":" + (p.id + ":" + p.version))
  }

  /** The handler holds the observation's row lock from `Locked` on; the last two hold new rows too. */
  datatype Handler =
    | Waiting
    | Locked(subject: Uuid, policy: PolicyRef)
    | Unhandled(subject: Uuid, policy: PolicyRef)
    | Numbered(subject: Uuid, policy: PolicyRef, revision: nat)
    | Inserted(subject: Uuid, policy: PolicyRef, revision: nat)

  /** A feedback post; `own` says that it inserted the anchor decision itself. */
  datatype Poster =
    | Silent
    | Found(subject: Uuid, verdict: string, decision: Option<nat>)
    | Anchored(subject: Uuid, verdict: string)
    | Ready(subject: Uuid, verdict: string, decision: Option<nat>, previous: Option<nat>)

  datatype Sys = Sys(db: Db, handlers: seq<Handler>, posters: seq<Poster>)

  datatype Move =
    | Lock(h: nat, subject: Uuid, policy: PolicyRef)
    | Look(h: nat)
    | Number(h: nat)
    | Insert(h: nat)
    | Commit(h: nat)
    | HandlerAbort(h: nat)
    | Read(p: nat, post: Uuid, verdict: string)
    | Anchor(p: nat)
    | Previous(p: nat)
    | PostCommit(p: nat)
    | PosterAbort(p: nat)

  // ------------------------------------------------------------- queries

  function Count(decisions: seq<Decision>, o: Uuid): nat
  {
    if decisions == [] then 0
    else Count(decisions[..|decisions| - 1], o) + (if decisions[|decisions| - 1].subject == o then 1 else 0)
  }

  /** coalesce(max(revision), 0) */
  function MaxRevision(decisions: seq<Decision>, o: Uuid): nat
  {
    if decisions == [] then 0
    else
      var rest := MaxRevision(decisions[..|decisions| - 1], o);
      var last := decisions[|decisions| - 1];
      if last.subject == o && last.revision > rest then last.revision else rest
  }

  predicate HasDecision(decisions: seq<Decision>, o: Uuid, p: PolicyRef)
  {
    exists d :: 0 <= d < |decisions| && decisions[d].subject == o && decisions[d].policy == p
  }

  predicate HasRevision(decisions: seq<Decision>, o: Uuid, revision: nat)
  {
    exists d :: 0 <= d < |decisions| && decisions[d].subject == o && decisions[d].revision == revision
  }

  /** ORDER BY revision DESC LIMIT 1 */
  function LatestDecision(decisions: seq<Decision>, o: Uuid): (d: Option<nat>)
    ensures d.Some? ==> d.value < |decisions| && decisions[d.value].subject == o
    ensures d.None? ==> forall i :: 0 <= i < |decisions| ==> decisions[i].subject != o
  {
    if decisions == [] then None
    else
      var front := decisions[..|decisions| - 1];
      var best := LatestDecision(front, o);
      if decisions[|decisions| - 1].subject != o then best
      else if best.Some? && front[best.value].revision > decisions[|decisions| - 1].revision then best
      else Some(|decisions| - 1)
  }

  predicate About(db: Db, f: Feedback, o: Uuid)
  {
    f.decision < |db.decisions| && db.decisions[f.decision].subject == o
  }

  /** ORDER BY created_at DESC, id DESC LIMIT 1, among the first `n` rows */
  function LatestFeedback(db: Db, o: Uuid, n: nat): (f: Option<nat>)
    requires n <= |db.feedback|
    ensures f.Some? ==> f.value < n && About(db, db.feedback[f.value], o)
    ensures forall i :: 0 <= i < n && About(db, db.feedback[i], o) ==> f.Some? && i <= f.value
  {
    if n == 0 then None
    else if About(db, db.feedback[n - 1], o) then Some(n - 1)
    else LatestFeedback(db, o, n - 1)
  }

  // ------------------------------------------------------------- moves

  predicate LockedByOther(handlers: seq<Handler>, h: nat, o: Uuid)
  {
    exists k :: 0 <= k < |handlers| && k != h && !handlers[k].Waiting? && handlers[k].subject == o
  }

  /** An open transaction holds a new row with this subject and revision. */
  predicate Pending(s: Sys, o: Uuid, revision: nat)
  {
    || (exists h :: 0 <= h < |s.handlers| && s.handlers[h].Inserted? && s.handlers[h].subject == o
                    && s.handlers[h].revision == revision)
    || (revision == 1 && exists p :: 0 <= p < |s.posters| && Anchoring(s.posters[p], o))
  }

  predicate Anchoring(p: Poster, o: Uuid)
  {
    (p.Anchored? && p.subject == o) || (p.Ready? && p.subject == o && p.decision.None?)
  }

  function SetHandler(s: Sys, h: nat, x: Handler): Sys
    requires h < |s.handlers|
  {
    s.(handlers := s.handlers[h := x])
  }

  function SetPoster(s: Sys, p: nat, x: Poster): Sys
    requires p < |s.posters|
  {
    s.(posters := s.posters[p := x])
  }

  function HandlerNext(s: Sys, m: Move): Sys
    requires (m.Lock? || m.Look? || m.Number? || m.Insert? || m.Commit? || m.HandlerAbort?) && m.h < |s.handlers|
  {
    var x := s.handlers[m.h];
    match m
    case Lock(h, o, policy) =>
      if x.Waiting? && !LockedByOther(s.handlers, h, o) then SetHandler(s, h, Locked(o, policy)) else s
    case Look(h) =>
      if !x.Locked? then s
      else SetHandler(s, h, if HasDecision(s.db.decisions, x.subject, x.policy) then Waiting else Unhandled(x.subject, x.policy))
    case Number(h) =>
      if !x.Unhandled? then s
      else SetHandler(s, h, Numbered(x.subject, x.policy, MaxRevision(s.db.decisions, x.subject) + 1))
    case Insert(h) =>
      if !x.Numbered? || Pending(s, x.subject, x.revision) then s
      else SetHandler(s, h, if HasRevision(s.db.decisions, x.subject, x.revision) then Waiting
                            else Inserted(x.subject, x.policy, x.revision))
    case Commit(h) =>
      if !x.Inserted? then s
      else if ShadowKey(x.subject, x.policy) in s.db.shadow then SetHandler(s, h, Waiting)
      else SetHandler(s, h, Waiting).(db := s.db.(
                decisions := s.db.decisions + [Decision(x.subject, x.revision, x.policy)],
                shadow := s.db.shadow + {ShadowKey(x.subject, x.policy)}))
    case HandlerAbort(h) => SetHandler(s, h, Waiting)
  }

  function AddFeedback(db: Db, o: Uuid, verdict: string, decision: Option<nat>, previous: Option<nat>): Db
  {
    match decision
    case Some(d) => db.(feedback := db.feedback + [Feedback(d, verdict, previous)])
    case None =>
      db.(decisions := db.decisions + [Decision(o, 1, ANCHOR)],
      feedback := db.feedback + [Feedback(|db.decisions|, verdict, previous)])
  }

  function PosterNext(s: Sys, m: Move): Sys
    requires (m.Read? || m.Anchor? || m.Previous? || m.PostCommit? || m.PosterAbort?) && m.p < |s.posters|
  {
    var x := s.posters[m.p];
    match m
    case Read(p, o, verdict) =>
      if x.Silent? then SetPoster(s, p, Found(o, verdict, LatestDecision(s.db.decisions, o))) else s
    case Anchor(p) =>
      if !x.Found? || x.decision.Some? || Pending(s, x.subject, 1) then s
      else SetPoster(s, p, if HasRevision(s.db.decisions, x.subject, 1) then Silent else Anchored(x.subject, x.verdict))
    case Previous(p) =>
      if x.Anchored? || (x.Found? && x.decision.Some?)
      then SetPoster(s, p, Ready(x.subject, x.verdict, if x.Found? then x.decision else None,
                                 LatestFeedback(s.db, x.subject, |s.db.feedback|)))
      else s
    case PostCommit(p) =>
      if !x.Ready? then s
      else SetPoster(s, p, Silent).(db := AddFeedback(s.db, x.subject, x.verdict, x.decision, x.previous))
    case PosterAbort(p) => SetPoster(s, p, Silent)
  }

  predicate OfHandler(m: Move) { m.Lock? || m.Look? || m.Number? || m.Insert? || m.Commit? || m.HandlerAbort? }

  function Next(s: Sys, m: Move): Sys
  {
    if OfHandler(m) then (if m.h < |s.handlers| then HandlerNext(s, m) else s)
    else if m.p < |s.posters| then PosterNext(s, m) else s
  }

  predicate Start(s: Sys)
  {
    && s.db == Db([], {}, [])
    && (forall h :: 0 <= h < |s.handlers| ==> s.handlers[h].Waiting?)
    && (forall p :: 0 <= p < |s.posters| ==> s.posters[p].Silent?)
  }

  function Run(s: Sys, moves: seq<Move>): Sys
  {
    if moves == [] then s else Next(Run(s, moves[..|moves| - 1]), moves[|moves| - 1])
  }

  /** No shadow policy goes by the name of the feedback anchor. */
  predicate Lawful(moves: seq<Move>)
  {
    forall i :: 0 <= i < |moves| && moves[i].Lock? ==> moves[i].policy != ANCHOR
  }

  // ------------------------------------------------------------- revisions

  /** The decisions of each subject are numbered 1, 2, 3, ... in the order of their commits. */
  ghost predicate RevisionsOk(decisions: seq<Decision>)
  {
    forall d :: 0 <= d < |decisions| ==> decisions[d].revision == Count(decisions[..d], decisions[d].subject) + 1
  }

  ghost predicate PoliciesOk(db: Db)
  {
    && (forall d, e :: 0 <= d < e < |db.decisions| ==>
          !(db.decisions[d].subject == db.decisions[e].subject && db.decisions[d].policy == db.decisions[e].policy))
    && (forall d :: 0 <= d < |db.decisions| && db.decisions[d].policy != ANCHOR ==>
          ShadowKey(db.decisions[d].subject, db.decisions[d].policy) in db.shadow)
    && (forall key :: key in db.shadow ==> HasShadow(db.decisions, key))
    && (forall d :: 0 <= d < |db.decisions| && db.decisions[d].policy == ANCHOR ==> db.decisions[d].revision == 1)
  }

  ghost predicate HasShadow(decisions: seq<Decision>, key: string)
  {
    exists d :: 0 <= d < |decisions| && decisions[d].policy != ANCHOR && key == ShadowKey(decisions[d].subject, decisions[d].policy)
  }

  ghost predicate HandlerOk(s: Sys, h: nat)
    requires h < |s.handlers|
  {
    var x := s.handlers[h];
    && (!x.Waiting? ==> x.policy != ANCHOR)
    && (x.Unhandled? || x.Numbered? || x.Inserted? ==> !HasDecision(s.db.decisions, x.subject, x.policy))
    && (x.Numbered? ==>
          x.revision >= 1 && (x.revision >= 2 ==> Count(s.db.decisions, x.subject) == x.revision - 1))
    && (x.Inserted? ==> x.revision >= 1 && Count(s.db.decisions, x.subject) == x.revision - 1
                        && (x.revision == 1 ==> NoAnchoring(s, x.subject)))
  }

  /** A row lock has one holder. */
  ghost predicate LocksOk(handlers: seq<Handler>)
  {
    forall h, k :: 0 <= h < k < |handlers| && !handlers[h].Waiting? && !handlers[k].Waiting? ==>
      handlers[h].subject != handlers[k].subject
  }

  ghost predicate NoAnchoring(s: Sys, o: Uuid)
  {
    forall p :: 0 <= p < |s.posters| ==> !Anchoring(s.posters[p], o)
  }

  ghost predicate PosterOk(s: Sys, p: nat)
    requires p < |s.posters|
  {
    var x := s.posters[p];
    && (x.Found? && x.decision.Some? ==> x.decision.value < |s.db.decisions| && s.db.decisions[x.decision.value].subject == x.subject)
    && (x.Ready? && x.decision.Some? ==> x.decision.value < |s.db.decisions| && s.db.decisions[x.decision.value].subject == x.subject)
    && (!x.Silent? && Anchoring(x, x.subject) ==>
          Count(s.db.decisions, x.subject) == 0
          && forall q :: 0 <= q < |s.posters| && q != p ==> !Anchoring(s.posters[q], x.subject))
  }

  ghost predicate Inv(s: Sys)
  {
    && RevisionsOk(s.db.decisions) && PoliciesOk(s.db) && LocksOk(s.handlers)
    && (forall h :: 0 <= h < |s.handlers| ==> HandlerOk(s, h))
    && (forall p :: 0 <= p < |s.posters| ==> PosterOk(s, p))
  }

  lemma FrontOk(decisions: seq<Decision>)
    requires RevisionsOk(decisions) && decisions != []
    ensures RevisionsOk(decisions[..|decisions| - 1])
    ensures var last := decisions[|decisions| - 1];
            last.revision == Count(decisions[..|decisions| - 1], last.subject) + 1
  {
    var front := decisions[..|decisions| - 1];
    assert forall d :: 0 <= d < |front| ==> front[..d] == decisions[..d];
  }

  lemma {:induction false} MaxIsCount(decisions: seq<Decision>, o: Uuid)
    requires RevisionsOk(decisions)
    ensures MaxRevision(decisions, o) == Count(decisions, o)
  {
    if decisions != [] {
      FrontOk(decisions);
      MaxIsCount(decisions[..|decisions| - 1], o);
    }
  }

  lemma {:induction false} RevisionsPresent(decisions: seq<Decision>, o: Uuid, r: nat)
    requires RevisionsOk(decisions)
    ensures HasRevision(decisions, o, r) <==> 1 <= r <= Count(decisions, o)
  {
    if decisions != [] {
      var front, last := decisions[..|decisions| - 1], decisions[|decisions| - 1];
      FrontOk(decisions);
      RevisionsPresent(front, o, r);
      HasRevisionMore(front, last, o, r);
      assert front + [last] == decisions;
    }
  }

  lemma HasRevisionMore(front: seq<Decision>, last: Decision, o: Uuid, r: nat)
    ensures HasRevision(front + [last], o, r) <==> HasRevision(front, o, r) || (last.subject == o && last.revision == r)
    ensures |front + [last]| > 0 && (front + [last])[..|front|] == front
  {
    var more := front + [last];
    assert more[|front|] == last;
    if HasRevision(front, o, r) {
      var d :| 0 <= d < |front| && front[d].subject == o && front[d].revision == r;
      assert more[d] == front[d];
    }
  }

  lemma CountMore(decisions: seq<Decision>, d: Decision, o: Uuid)
    ensures Count(decisions + [d], o) == Count(decisions, o) + (if d.subject == o then 1 else 0)
  {
    assert (decisions + [d])[..|decisions|] == decisions;
  }

  lemma RevisionsMore(decisions: seq<Decision>, d: Decision)
    requires RevisionsOk(decisions) && d.revision == Count(decisions, d.subject) + 1
    ensures RevisionsOk(decisions + [d])
  {
    var more := decisions + [d];
    forall i | 0 <= i < |more| ensures more[i].revision == Count(more[..i], more[i].subject) + 1 {
      assert more[..i] == if i < |decisions| then decisions[..i] else decisions;
    }
  }

  // ------------------------------------------------------------- moves keep the invariant

  /** A handler's step that commits nothing. */
  lemma HandlerMoveKeeps(s: Sys, h: nat, x: Handler)
    requires Inv(s) && h < |s.handlers|
    requires x.Waiting? || (s.handlers[h].Waiting? && !LockedByOther(s.handlers, h, x.subject))
             || (!s.handlers[h].Waiting? && s.handlers[h].subject == x.subject)
    requires HandlerOk(SetHandler(s, h, x), h)
    ensures Inv(SetHandler(s, h, x))
  {
    var s' := SetHandler(s, h, x);
    forall k | 0 <= k < |s'.handlers| ensures HandlerOk(s', k) {
      assert HandlerOk(s, k);
    }
    forall p | 0 <= p < |s'.posters| ensures PosterOk(s', p) {
      assert PosterOk(s, p);
    }
  }

  lemma InsertKeeps(s: Sys, h: nat)
    requires Inv(s) && h < |s.handlers|
    ensures Inv(Next(s, Insert(h)))
  {
    var s' := Next(s, Insert(h));
    var x := s.handlers[h];
    assert HandlerOk(s, h);
    if s' != s {
      RevisionsPresent(s.db.decisions, x.subject, x.revision);
      HandlerMoveKeeps(s, h, s'.handlers[h]);
    }
  }

  lemma LookKeeps(s: Sys, m: Move)
    requires Inv(s) && (m.Lock? || m.Look? || m.Number? || m.HandlerAbort?) && m.h < |s.handlers|
    requires m.Lock? ==> m.policy != ANCHOR
    ensures Inv(Next(s, m))
  {
    var s' := Next(s, m);
    assert HandlerOk(s, m.h);
    if m.Number? && s.handlers[m.h].Unhandled? {
      MaxIsCount(s.db.decisions, s.handlers[m.h].subject);
    }
    if s' != s {
      HandlerMoveKeeps(s, m.h, s'.handlers[m.h]);
    }
  }

  lemma {:induction false} ZeroIsNone(decisions: seq<Decision>, o: Uuid)
    requires Count(decisions, o) == 0
    ensures forall d :: 0 <= d < |decisions| ==> decisions[d].subject != o
  {
    if decisions != [] {
      ZeroIsNone(decisions[..|decisions| - 1], o);
    }
  }

  lemma HasDecisionMore(decisions: seq<Decision>, d: Decision, o: Uuid, p: PolicyRef)
    ensures HasDecision(decisions + [d], o, p) <==> HasDecision(decisions, o, p) || (d.subject == o && d.policy == p)
  {
    var more := decisions + [d];
    assert more[|decisions|] == d;
    if HasDecision(decisions, o, p) {
      var i :| 0 <= i < |decisions| && decisions[i].subject == o && decisions[i].policy == p;
      assert more[i] == decisions[i];
    }
  }

  lemma PoliciesMore(db: Db, d: Decision)
    requires PoliciesOk(db) && !HasDecision(db.decisions, d.subject, d.policy) && (d.policy == ANCHOR ==> d.revision == 1)
    ensures var shadow := if d.policy == ANCHOR then db.shadow else db.shadow + {ShadowKey(d.subject, d.policy)};
            PoliciesOk(db.(decisions := db.decisions + [d], shadow := shadow))
  {
    var shadow := if d.policy == ANCHOR then db.shadow else db.shadow + {ShadowKey(d.subject, d.policy)};
    var more := db.decisions + [d];
    forall key | key in shadow ensures HasShadow(more, key) {
      if key in db.shadow {
        var i :| 0 <= i < |db.decisions| && db.decisions[i].policy != ANCHOR
                 && key == ShadowKey(db.decisions[i].subject, db.decisions[i].policy);
        assert more[i] == db.decisions[i];
      } else {
        assert more[|db.decisions|] == d;
      }
    }
    forall i | 0 <= i < |db.decisions| ensures !(more[i].subject == d.subject && more[i].policy == d.policy) {
      assert more[i] == db.decisions[i];
    }
  }

  /** Posters only stop anchoring. */
  ghost predicate FewerAnchoring(posters: seq<Poster>, posters': seq<Poster>)
  {
    |posters'| == |posters|
    && forall p :: 0 <= p < |posters| ==> posters'[p] == posters[p] || posters'[p].Silent?
  }

  /** A handler does not notice a new decision about another subject, nor, early on, an anchor. */
  lemma HandlerGrows(s: Sys, s': Sys, h: nat, d: Decision)
    requires h < |s.handlers| && h < |s'.handlers| && s'.handlers[h] == s.handlers[h] && HandlerOk(s, h)
    requires s'.db.decisions == s.db.decisions + [d] && FewerAnchoring(s.posters, s'.posters)
    requires var x := s.handlers[h];
             || x.Waiting? || x.subject != d.subject
             || (d.policy == ANCHOR && !x.Inserted? && (x.Numbered? ==> x.revision == 1))
    ensures HandlerOk(s', h)
  {
    var x := s.handlers[h];
    if !x.Waiting? {
      CountMore(s.db.decisions, d, x.subject);
      HasDecisionMore(s.db.decisions, d, x.subject, x.policy);
    }
  }

  lemma PosterGrows(s: Sys, s': Sys, p: nat, d: Decision)
    requires p < |s.posters| && PosterOk(s, p) && FewerAnchoring(s.posters, s'.posters)
    requires s'.db.decisions == s.db.decisions + [d] && s'.posters[p] == s.posters[p]
    requires !s.posters[p].Silent? && Anchoring(s.posters[p], s.posters[p].subject) ==> s.posters[p].subject != d.subject
    ensures PosterOk(s', p)
  {
    if !s.posters[p].Silent? {
      CountMore(s.db.decisions, d, s.posters[p].subject);
    }
  }

  lemma CommitKeeps(s: Sys, h: nat)
    requires Inv(s) && h < |s.handlers|
    ensures Inv(Next(s, Commit(h)))
  {
    var s' := Next(s, Commit(h));
    var x := s.handlers[h];
    if s'.db == s.db {
      if s' != s {
        HandlerMoveKeeps(s, h, Waiting);
      }
    } else {
      DecisionCommits(s, h);
    }
  }

  lemma DecisionCommits(s: Sys, h: nat)
    requires Inv(s) && h < |s.handlers| && Next(s, Commit(h)).db != s.db
    ensures Inv(Next(s, Commit(h)))
  {
    var s' := Next(s, Commit(h));
    var x := s.handlers[h];
    var d := Decision(x.subject, x.revision, x.policy);
    assert HandlerOk(s, h);
    RevisionsMore(s.db.decisions, d);
    PoliciesMore(s.db, d);
    forall k | 0 <= k < |s'.handlers| ensures HandlerOk(s', k) {
      if k != h {
        HandlerGrows(s, s', k, d);
      }
    }
    forall p | 0 <= p < |s'.posters| ensures PosterOk(s', p) {
      assert PosterOk(s, p);
      PosterGrows(s, s', p, d);
    }
  }

  /** A poster's step that commits nothing. */
  lemma PosterMoveKeeps(s: Sys, p: nat, x: Poster)
    requires Inv(s) && p < |s.posters| && PosterOk(SetPoster(s, p, x), p)
    requires !x.Silent? && Anchoring(x, x.subject) ==>
               Anchoring(s.posters[p], x.subject) || !Pending(s, x.subject, 1)
    ensures Inv(SetPoster(s, p, x))
  {
    var s' := SetPoster(s, p, x);
    forall h | 0 <= h < |s'.handlers| ensures HandlerOk(s', h) {
      assert HandlerOk(s, h);
    }
    forall q | 0 <= q < |s'.posters| ensures PosterOk(s', q) {
      assert PosterOk(s, q) && PosterOk(s, p);
    }
  }

  lemma AnchorKeeps(s: Sys, p: nat)
    requires Inv(s) && p < |s.posters|
    ensures Inv(Next(s, Anchor(p)))
  {
    var s' := Next(s, Anchor(p));
    var x := s.posters[p];
    assert PosterOk(s, p);
    if s' != s {
      RevisionsPresent(s.db.decisions, x.subject, 1);
      PosterMoveKeeps(s, p, s'.posters[p]);
    }
  }

  lemma ReadKeeps(s: Sys, m: Move)
    requires Inv(s) && (m.Read? || m.Previous? || m.PosterAbort?) && m.p < |s.posters|
    ensures Inv(Next(s, m))
  {
    var s' := Next(s, m);
    assert PosterOk(s, m.p);
    if s' != s {
      PosterMoveKeeps(s, m.p, s'.posters[m.p]);
    }
  }

  lemma PostCommitKeeps(s: Sys, p: nat)
    requires Inv(s) && p < |s.posters|
    ensures Inv(Next(s, PostCommit(p)))
  {
    var s' := Next(s, PostCommit(p));
    var x := s.posters[p];
    assert PosterOk(s, p);
    if s'.db.decisions == s.db.decisions {
      if s' != s {
        PosterMoveKeeps(s, p, Silent);
        FeedbackKeeps(SetPoster(s, p, Silent), s');
      }
    } else {
      AnchorCommits(s, p);
    }
  }

  /** Feedback rows do not matter to decisions. */
  lemma FeedbackKeeps(s: Sys, s': Sys)
    requires Inv(s) && s' == s.(db := s'.db) && s'.db == s.db.(feedback := s'.db.feedback)
    ensures Inv(s')
  {
    forall h | 0 <= h < |s'.handlers| ensures HandlerOk(s', h) {
      assert HandlerOk(s, h);
    }
    forall q | 0 <= q < |s'.posters| ensures PosterOk(s', q) {
      assert PosterOk(s, q);
    }
  }

  lemma AnchorRows(db: Db, db': Db, d: Decision)
    requires RevisionsOk(db.decisions) && PoliciesOk(db) && Count(db.decisions, d.subject) == 0
    requires d.revision == 1 && d.policy == ANCHOR
    requires db'.decisions == db.decisions + [d] && db'.shadow == db.shadow
    ensures RevisionsOk(db'.decisions) && PoliciesOk(db')
  {
    ZeroIsNone(db.decisions, d.subject);
    RevisionsMore(db.decisions, d);
    PoliciesMore(db, d);
  }

  /** The processes of a subject whose first decision is a committed anchor. */
  lemma AnchorHandlers(s: Sys, s': Sys, p: nat, d: Decision)
    requires Inv(s) && p < |s.posters| && !s.posters[p].Silent? && Anchoring(s.posters[p], d.subject)
    requires s.posters[p].subject == d.subject && d.policy == ANCHOR
    requires s'.db.decisions == s.db.decisions + [d] && s'.handlers == s.handlers && FewerAnchoring(s.posters, s'.posters)
    ensures forall h :: 0 <= h < |s'.handlers| ==> HandlerOk(s', h)
  {
    assert PosterOk(s, p);
    forall h | 0 <= h < |s'.handlers| ensures HandlerOk(s', h) {
      assert HandlerOk(s, h);
      HandlerGrows(s, s', h, d);
    }
  }

  lemma AnchorPosters(s: Sys, s': Sys, p: nat, d: Decision)
    requires Inv(s) && p < |s.posters| && !s.posters[p].Silent? && Anchoring(s.posters[p], d.subject)
    requires s.posters[p].subject == d.subject && s'.posters == s.posters[p := Silent]
    requires s'.db.decisions == s.db.decisions + [d]
    ensures forall q :: 0 <= q < |s'.posters| ==> PosterOk(s', q)
  {
    assert PosterOk(s, p);
    forall q | 0 <= q < |s'.posters| ensures PosterOk(s', q) {
      if q != p {
        assert PosterOk(s, q);
        PosterGrows(s, s', q, d);
      }
    }
  }

  lemma AnchorCommits(s: Sys, p: nat)
    requires Inv(s) && p < |s.posters| && s.posters[p].Ready? && s.posters[p].decision.None?
    ensures Inv(Next(s, PostCommit(p)))
  {
    var s' := Next(s, PostCommit(p));
    var d := Decision(s.posters[p].subject, 1, ANCHOR);
    assert PosterOk(s, p);
    AnchorRows(s.db, s'.db, d);
    AnchorHandlers(s, s', p, d);
    AnchorPosters(s, s', p, d);
  }

  lemma NextKeeps(s: Sys, m: Move)
    requires Inv(s) && (m.Lock? ==> m.policy != ANCHOR)
    ensures Inv(Next(s, m))
  {
    if OfHandler(m) {
      if m.h < |s.handlers| {
        if m.Insert? {
          InsertKeeps(s, m.h);
        } else if m.Commit? {
          CommitKeeps(s, m.h);
        } else {
          LookKeeps(s, m);
        }
      }
    } else if m.p < |s.posters| {
      if m.Anchor? {
        AnchorKeeps(s, m.p);
      } else if m.PostCommit? {
        PostCommitKeeps(s, m.p);
      } else {
        ReadKeeps(s, m);
      }
    }
  }

  lemma {:induction false} RunKeeps(s0: Sys, moves: seq<Move>)
    requires Start(s0) && Lawful(moves)
    ensures Inv(Run(s0, moves))
  {
    if moves != [] {
      RunKeeps(s0, moves[..|moves| - 1]);
      NextKeeps(Run(s0, moves[..|moves| - 1]), moves[|moves| - 1]);
    }
  }

  // ------------------------------------------------------------- theorems on decisions

  /**
   * Under any interleaving of shadow handlers and feedback posts: the revisions of a subject are
   * exactly 1 to the number of its decisions, and no policy has two of them.
   */
  lemma RevisionsAreConsecutive(s0: Sys, moves: seq<Move>, o: Uuid, r: nat)
    requires Start(s0) && Lawful(moves)
    ensures var db := Run(s0, moves).db;
            && (HasRevision(db.decisions, o, r) <==> 1 <= r <= Count(db.decisions, o))
            && (forall d, e :: 0 <= d < e < |db.decisions| && db.decisions[d].subject == db.decisions[e].subject ==>
                  db.decisions[d].revision < db.decisions[e].revision && db.decisions[d].policy != db.decisions[e].policy)
  {
    RunKeeps(s0, moves);
    var db := Run(s0, moves).db;
    RevisionsPresent(db.decisions, o, r);
    forall d, e | 0 <= d < e < |db.decisions| && db.decisions[d].subject == db.decisions[e].subject
      ensures db.decisions[d].revision < db.decisions[e].revision
    {
      CountGrows(db.decisions, d, e, db.decisions[d].subject);
    }
  }

  lemma {:induction false} CountGrows(decisions: seq<Decision>, d: nat, e: nat, o: Uuid)
    requires d < e <= |decisions| && decisions[d].subject == o
    ensures Count(decisions[..d], o) < Count(decisions[..e], o)
    decreases e
  {
    assert decisions[..e][..e - 1] == decisions[..e - 1];
    if d + 1 < e {
      CountGrows(decisions, d, e - 1, o);
    }
  }

  /** The latest decision on a subject is the one of the highest revision. */
  lemma LatestIsHighest(s0: Sys, moves: seq<Move>, o: Uuid, d: nat)
    requires Start(s0) && Lawful(moves)
    requires d < |Run(s0, moves).db.decisions| && Run(s0, moves).db.decisions[d].subject == o
    ensures var decisions := Run(s0, moves).db.decisions;
            var latest := LatestDecision(decisions, o);
            latest.Some? && (d == latest.value || decisions[d].revision < decisions[latest.value].revision)
  {
    RunKeeps(s0, moves);
    var decisions := Run(s0, moves).db.decisions;
    LatestIsLast(decisions, o, d);
    var latest := LatestDecision(decisions, o).value;
    if d < latest {
      CountGrows(decisions, d, latest, o);
    }
  }

  lemma RevisionsRise(decisions: seq<Decision>, d: nat, e: nat)
    requires RevisionsOk(decisions) && d < e < |decisions| && decisions[d].subject == decisions[e].subject
    ensures decisions[d].revision < decisions[e].revision
  {
    CountGrows(decisions, d, e, decisions[d].subject);
  }

  /** No decision on the subject comes after the latest. */
  lemma {:induction false} LatestIsLast(decisions: seq<Decision>, o: Uuid, d: nat)
    requires RevisionsOk(decisions) && d < |decisions| && decisions[d].subject == o
    ensures LatestDecision(decisions, o).Some? && d <= LatestDecision(decisions, o).value
  {
    var front := decisions[..|decisions| - 1];
    if decisions[|front|].subject == o {
      LastIsLatest(decisions, o);
    } else {
      FrontOk(decisions);
      LatestIsLast(front, o, d);
    }
  }

  lemma LastIsLatest(decisions: seq<Decision>, o: Uuid)
    requires RevisionsOk(decisions) && decisions != [] && decisions[|decisions| - 1].subject == o
    ensures LatestDecision(decisions, o) == Some(|decisions| - 1)
  {
    var best := LatestDecision(decisions[..|decisions| - 1], o);
    if best.Some? {
      RevisionsRise(decisions, best.value, |decisions| - 1);
    }
  }

  // ------------------------------------------------------------- one handler undisturbed

  function OneHandling(s: Sys, h: nat, o: Uuid, p: PolicyRef): Sys
  {
    Next(Next(Next(Next(Next(s, Lock(h, o, p)), Look(h)), Number(h)), Insert(h)), Commit(h))
  }

  /** What a handling adds, the next revision being `revision`. */
  function Handled(s: Sys, o: Uuid, p: PolicyRef, revision: nat): Sys
  {
    if HasDecision(s.db.decisions, o, p) || ShadowKey(o, p) in s.db.shadow then s
    else s.(db := s.db.(decisions := s.db.decisions + [Decision(o, revision, p)], shadow := s.db.shadow + {ShadowKey(o, p)}))
  }

  /** The observation's row is not locked, and no post is about to anchor a decision on it. */
  predicate Undisturbed(s: Sys, h: nat, o: Uuid)
  {
    && h < |s.handlers| && s.handlers[h].Waiting?
    && (forall k :: 0 <= k < |s.handlers| && k != h && !s.handlers[k].Waiting? ==> s.handlers[k].subject != o)
    && (forall q :: 0 <= q < |s.posters| ==> !Anchoring(s.posters[q], o))
  }

  ghost predicate HandlesRight(s: Sys, h: nat, o: Uuid, p: PolicyRef, revision: nat)
  {
    OneHandling(s, h, o, p) == Handled(s, o, p, revision)
  }

  lemma HandlingSteps(s: Sys, h: nat, o: Uuid, p: PolicyRef, revision: nat)
    requires Undisturbed(s, h, o) && revision == MaxRevision(s.db.decisions, o) + 1 && !HasRevision(s.db.decisions, o, revision)
    ensures HandlesRight(s, h, o, p, revision)
  {
    assert !LockedByOther(s.handlers, h, o);
    LockAndLook(s, h, o, p);
    if HasDecision(s.db.decisions, o, p) {
      RestIsIdle(s, h);
    } else {
      NumberAndCommit(s, h, o, p, revision);
    }
  }

  lemma NextRevision(s0: Sys, moves: seq<Move>, o: Uuid)
    requires Start(s0) && Lawful(moves)
    ensures var decisions := Run(s0, moves).db.decisions;
            MaxRevision(decisions, o) == Count(decisions, o) && !HasRevision(decisions, o, Count(decisions, o) + 1)
  {
    RunKeeps(s0, moves);
    MaxIsCount(Run(s0, moves).db.decisions, o);
    RevisionsPresent(Run(s0, moves).db.decisions, o, Count(Run(s0, moves).db.decisions, o) + 1);
  }

  /**
   * A handler that no one disturbs decides: unless the policy has decided already, or its row's key is
   * taken, it adds the policy's decision with the next revision, and the row, in one commit.
   */
  lemma UndisturbedDecides(s0: Sys, moves: seq<Move>, h: nat, o: Uuid, p: PolicyRef)
    requires Start(s0) && Lawful(moves) && Undisturbed(Run(s0, moves), h, o)
    ensures HandlesRight(Run(s0, moves), h, o, p, Count(Run(s0, moves).db.decisions, o) + 1)
  {
    NextRevision(s0, moves, o);
    HandlingSteps(Run(s0, moves), h, o, p, Count(Run(s0, moves).db.decisions, o) + 1);
  }

  lemma LockAndLook(s: Sys, h: nat, o: Uuid, p: PolicyRef)
    requires h < |s.handlers| && s.handlers[h].Waiting? && !LockedByOther(s.handlers, h, o)
    ensures Next(Next(s, Lock(h, o, p)), Look(h))
            == if HasDecision(s.db.decisions, o, p) then s else SetHandler(s, h, Unhandled(o, p))
  {
    assert s.handlers[h := Locked(o, p)][h := Waiting] == s.handlers;
    assert s.handlers[h := Locked(o, p)][h := Unhandled(o, p)] == s.handlers[h := Unhandled(o, p)];
  }

  lemma RestIsIdle(s: Sys, h: nat)
    requires h < |s.handlers| && s.handlers[h].Waiting?
    ensures Next(Next(Next(s, Number(h)), Insert(h)), Commit(h)) == s
  {
  }

  lemma NumberAndCommit(s: Sys, h: nat, o: Uuid, p: PolicyRef, revision: nat)
    requires h < |s.handlers| && s.handlers[h].Waiting? && revision == MaxRevision(s.db.decisions, o) + 1
    requires !HasRevision(s.db.decisions, o, revision)
    requires forall k :: 0 <= k < |s.handlers| && k != h && !s.handlers[k].Waiting? ==> s.handlers[k].subject != o
    requires forall q :: 0 <= q < |s.posters| ==> !Anchoring(s.posters[q], o)
    ensures Next(Next(Next(SetHandler(s, h, Unhandled(o, p)), Number(h)), Insert(h)), Commit(h))
            == if ShadowKey(o, p) in s.db.shadow then s
               else s.(db := s.db.(decisions := s.db.decisions + [Decision(o, revision, p)], shadow := s.db.shadow + {ShadowKey(o, p)}))
  {
    var numbered := SetHandler(s, h, Numbered(o, p, revision));
    assert s.handlers[h := Unhandled(o, p)][h := Numbered(o, p, revision)] == numbered.handlers;
    assert !Pending(numbered, o, revision);
    assert numbered.handlers[h := Inserted(o, p, revision)] == s.handlers[h := Inserted(o, p, revision)];
    CommitOne(s, h, o, p, revision);
  }

  lemma CommitOne(s: Sys, h: nat, o: Uuid, p: PolicyRef, revision: nat)
    requires h < |s.handlers| && s.handlers[h].Waiting?
    ensures Next(SetHandler(s, h, Inserted(o, p, revision)), Commit(h))
            == if ShadowKey(o, p) in s.db.shadow then s
               else s.(db := s.db.(decisions := s.db.decisions + [Decision(o, revision, p)], shadow := s.db.shadow + {ShadowKey(o, p)}))
  {
    assert s.handlers[h := Inserted(o, p, revision)][h := Waiting] == s.handlers;
  }

  // ------------------------------------------------------------- shadow rows

  /** All that a shadow key shows of a policy. */
  function JoinedName(p: PolicyRef): string
  {
    p.id + ":" + p.version
  }

  /** The key written out; no canonical row has it. */
  lemma ShadowKeyText(o: Uuid, p: PolicyRef, key: string)
    ensures ShadowKey(o, p) == "shadow:" + o + ":" + p.id + ":" + p.version
    ensures ShadowKey(o, p) != CanonicalKey(key)
  {
    assert "shadow:" == "shadow" + ":";
    assert ("shadow" + ":") + (o + ":" + (p.id + ":" + p.version)) == "shadow:" + o + ":" + p.id + ":" + p.version;
    assert ShadowKey(o, p)[0] == 's' && CanonicalKey(key)[0] == 'c';
  }

  lemma ShadowKeyMeaning(o: Uuid, p: PolicyRef, o': Uuid, p': PolicyRef)
    ensures ShadowKey(o, p) == ShadowKey(o', p') <==> o == o' && JoinedName(p) == JoinedName(p')
  {
    if ShadowKey(o, p) == ShadowKey(o', p') {
      SplitFirst("shadow", o + ":" + JoinedName(p), "shadow", o' + ":" + JoinedName(p'));
      SplitFirst(o, JoinedName(p), o', JoinedName(p'));
    }
  }

  /** Some shadow policy with this joined name has decided on the subject. */
  predicate NameDecided(decisions: seq<Decision>, o: Uuid, name: string)
  {
    exists d :: 0 <= d < |decisions| && decisions[d].subject == o && decisions[d].policy != ANCHOR
                && JoinedName(decisions[d].policy) == name
  }

  /** In every run, a shadow row says that a policy of that joined name has decided, no more and no less. */
  lemma ShadowRowIffNameDecided(s0: Sys, moves: seq<Move>, o: Uuid, p: PolicyRef)
    requires Start(s0) && Lawful(moves)
    ensures var db := Run(s0, moves).db; ShadowKey(o, p) in db.shadow <==> NameDecided(db.decisions, o, JoinedName(p))
  {
    RunKeeps(s0, moves);
    var db := Run(s0, moves).db;
    if ShadowKey(o, p) in db.shadow {
      assert HasShadow(db.decisions, ShadowKey(o, p));
      var d :| 0 <= d < |db.decisions| && db.decisions[d].policy != ANCHOR
               && ShadowKey(o, p) == ShadowKey(db.decisions[d].subject, db.decisions[d].policy);
      ShadowKeyMeaning(o, p, db.decisions[d].subject, db.decisions[d].policy);
    }
    if NameDecided(db.decisions, o, JoinedName(p)) {
      var d :| 0 <= d < |db.decisions| && db.decisions[d].subject == o && db.decisions[d].policy != ANCHOR
               && JoinedName(db.decisions[d].policy) == JoinedName(p);
      ShadowKeyMeaning(o, p, o, db.decisions[d].policy);
    }
  }

  ghost predicate NamesOnce(decisions: seq<Decision>)
  {
    forall d, e :: 0 <= d < e < |decisions| && decisions[d].subject == decisions[e].subject
                   && decisions[d].policy != ANCHOR && decisions[e].policy != ANCHOR ==>
      JoinedName(decisions[d].policy) != JoinedName(decisions[e].policy)
  }

  lemma NextNames(s: Sys, m: Move)
    requires PoliciesOk(s.db) && NamesOnce(s.db.decisions)
    ensures NamesOnce(Next(s, m).db.decisions)
  {
    if m.Commit? && m.h < |s.handlers| && s.handlers[m.h].Inserted? {
      var x := s.handlers[m.h];
      forall d | 0 <= d < |s.db.decisions| && s.db.decisions[d].subject == x.subject && s.db.decisions[d].policy != ANCHOR
        ensures ShadowKey(x.subject, x.policy) !in s.db.shadow ==>
                  JoinedName(s.db.decisions[d].policy) != JoinedName(x.policy)
      {
        ShadowKeyMeaning(x.subject, x.policy, x.subject, s.db.decisions[d].policy);
      }
    }
  }

  lemma {:induction false} RunNames(s0: Sys, moves: seq<Move>)
    requires Start(s0) && Lawful(moves)
    ensures NamesOnce(Run(s0, moves).db.decisions)
  {
    if moves != [] {
      RunNames(s0, moves[..|moves| - 1]);
      RunKeeps(s0, moves[..|moves| - 1]);
      NextNames(Run(s0, moves[..|moves| - 1]), moves[|moves| - 1]);
    }
  }

  // ------------------------------------------------------------- when rows tell decisions

  /** The handlers run these policies. */
  ghost predicate Deployed(moves: seq<Move>, policies: set<PolicyRef>)
  {
    forall i :: 0 <= i < |moves| && moves[i].Lock? ==> moves[i].policy in policies
  }

  predicate NamesDiffer(policies: set<PolicyRef>)
  {
    forall p, q :: p in policies && q in policies && JoinedName(p) == JoinedName(q) ==> p == q
  }

  /** In every run of these policies the row of a policy is there exactly if its decision is. */
  ghost predicate RowsTellDecisions(policies: set<PolicyRef>)
  {
    forall s0, moves, o, p :: Start(s0) && Deployed(moves, policies) && p in policies ==>
      (ShadowKey(o, p) in Run(s0, moves).db.shadow <==> HasDecision(Run(s0, moves).db.decisions, o, p))
  }

  ghost predicate OnlyPolicies(s: Sys, policies: set<PolicyRef>)
  {
    && (forall d :: 0 <= d < |s.db.decisions| ==> s.db.decisions[d].policy == ANCHOR || s.db.decisions[d].policy in policies)
    && (forall h :: 0 <= h < |s.handlers| && !s.handlers[h].Waiting? ==> s.handlers[h].policy in policies)
  }

  lemma HandlerPolicies(s: Sys, m: Move, policies: set<PolicyRef>)
    requires OnlyPolicies(s, policies) && OfHandler(m) && m.h < |s.handlers| && (m.Lock? ==> m.policy in policies)
    ensures OnlyPolicies(HandlerNext(s, m), policies)
  {
    var x := s.handlers[m.h];
    assert !x.Waiting? ==> x.policy in policies;
  }

  lemma {:induction false} RunPolicies(s0: Sys, moves: seq<Move>, policies: set<PolicyRef>)
    requires Start(s0) && Deployed(moves, policies)
    ensures OnlyPolicies(Run(s0, moves), policies)
  {
    if moves != [] {
      var s, m := Run(s0, moves[..|moves| - 1]), moves[|moves| - 1];
      RunPolicies(s0, moves[..|moves| - 1], policies);
      if OfHandler(m) && m.h < |s.handlers| {
        HandlerPolicies(s, m, policies);
      }
    }
  }

  lemma RowTellsDecision(s0: Sys, moves: seq<Move>, policies: set<PolicyRef>, o: Uuid, p: PolicyRef)
    requires Start(s0) && Deployed(moves, policies) && ANCHOR !in policies && p in policies && NamesDiffer(policies)
    ensures var db := Run(s0, moves).db; ShadowKey(o, p) in db.shadow <==> HasDecision(db.decisions, o, p)
  {
    RunPolicies(s0, moves, policies);
    ShadowRowIffNameDecided(s0, moves, o, p);
    var db := Run(s0, moves).db;
    if NameDecided(db.decisions, o, JoinedName(p)) {
      var d :| 0 <= d < |db.decisions| && db.decisions[d].subject == o && db.decisions[d].policy != ANCHOR
               && JoinedName(db.decisions[d].policy) == JoinedName(p);
      assert db.decisions[d].policy == p;
    }
  }

  /**
   * For the policies that may run, the shadow row of each is there exactly if its decision is, in all
   * runs, exactly if their joined names tell them apart.
   */
  lemma ShadowRowIffDecision(policies: set<PolicyRef>)
    requires ANCHOR !in policies
    ensures RowsTellDecisions(policies) <==> NamesDiffer(policies)
  {
    if NamesDiffer(policies) {
      forall s0, moves, o, p | Start(s0) && Deployed(moves, policies) && p in policies
        ensures ShadowKey(o, p) in Run(s0, moves).db.shadow <==> HasDecision(Run(s0, moves).db.decisions, o, p)
      {
        RowTellsDecision(s0, moves, policies, o, p);
      }
    }
    forall p, q | RowsTellDecisions(policies) && p in policies && q in policies && JoinedName(p) == JoinedName(q)
      ensures p == q
    {
      var o := "00000000-0000-0000-0000-000000000000";
      if p != q {
        assert Deployed(Deciding(o, p), policies) && Deciding(o, p) + [] == Deciding(o, p);
        SharedNameHidesDecision(o, p, q, []);
      }
    }
  }

  /** Ids without colons are told apart by their joined names. */
  lemma ColonFreeNamesDiffer(policies: set<PolicyRef>)
    requires forall p :: p in policies ==> ColonFree(p.id)
    ensures NamesDiffer(policies)
  {
    forall p, q | p in policies && q in policies && JoinedName(p) == JoinedName(q) ensures p == q {
      SplitFirst(p.id, p.version, q.id, q.version);
    }
  }

  // ------------------------------------------------------------- one decision

  function Deciding(o: Uuid, p: PolicyRef): seq<Move>
  {
    [Lock(0, o, p), Look(0), Number(0), Insert(0), Commit(0)]
  }

  /** One handler and two posters, and nothing decided yet. */
  function Stage(handler: Handler): Sys
  {
    Sys(Db([], {}, []), [handler], [Silent, Silent])
  }

  /** The observation has one decision; the posts are where they are. */
  function Posting(o: Uuid, p: PolicyRef, feedback: seq<Feedback>, a: Poster, b: Poster): Sys
  {
    Sys(Db([Decision(o, 1, p)], {ShadowKey(o, p)}, feedback), [Waiting], [a, b])
  }

  lemma RunMore(s: Sys, moves: seq<Move>, n: nat, t: Sys, m: Move, u: Sys)
    requires n < |moves| && moves[n] == m && Run(s, moves[..n]) == t && Next(t, m) == u
    ensures Run(s, moves[..n + 1]) == u
  {
    assert moves[..n + 1][..n] == moves[..n];
  }

  lemma DecideSteps(o: Uuid, p: PolicyRef)
    ensures Next(Stage(Waiting), Lock(0, o, p)) == Stage(Handler.Locked(o, p))
    ensures Next(Stage(Handler.Locked(o, p)), Look(0)) == Stage(Unhandled(o, p))
    ensures Next(Stage(Unhandled(o, p)), Number(0)) == Stage(Numbered(o, p, 1))
    ensures Next(Stage(Numbered(o, p, 1)), Insert(0)) == Stage(Inserted(o, p, 1))
  {
  }

  lemma DecideCommit(o: Uuid, p: PolicyRef)
    ensures Next(Stage(Inserted(o, p, 1)), Commit(0)) == Posting(o, p, [], Silent, Silent)
  {
  }

  lemma DecideRun(o: Uuid, p: PolicyRef, moves: seq<Move>)
    requires Deciding(o, p) <= moves
    ensures Run(Stage(Waiting), moves[..5]) == Posting(o, p, [], Silent, Silent)
  {
    var s0 := Stage(Waiting);
    DecideSteps(o, p);
    DecideCommit(o, p);
    assert moves[..0] == [];
    assert forall i :: 0 <= i < 5 ==> moves[i] == Deciding(o, p)[i];
    RunMore(s0, moves, 0, s0, Lock(0, o, p), Stage(Handler.Locked(o, p)));
    RunMore(s0, moves, 1, Stage(Handler.Locked(o, p)), Look(0), Stage(Unhandled(o, p)));
    RunMore(s0, moves, 2, Stage(Unhandled(o, p)), Number(0), Stage(Numbered(o, p, 1)));
    RunMore(s0, moves, 3, Stage(Numbered(o, p, 1)), Insert(0), Stage(Inserted(o, p, 1)));
    RunMore(s0, moves, 4, Stage(Inserted(o, p, 1)), Commit(0), Posting(o, p, [], Silent, Silent));
  }

  lemma {:induction false} DecisionStays(s: Sys, moves: seq<Move>, more: seq<Move>, o: Uuid, p: PolicyRef)
    requires HasDecision(Run(s, moves).db.decisions, o, p)
    ensures HasDecision(Run(s, moves + more).db.decisions, o, p)
  {
    if more == [] {
      assert moves + more == moves;
    } else {
      var front, m := more[..|more| - 1], more[|more| - 1];
      DecisionStays(s, moves, front, o, p);
      assert (moves + more)[..|moves + more| - 1] == moves + front;
      DecisionGrows(Run(s, moves + front), m, o, p);
    }
  }

  lemma DecisionGrows(s: Sys, m: Move, o: Uuid, p: PolicyRef)
    requires HasDecision(s.db.decisions, o, p)
    ensures HasDecision(Next(s, m).db.decisions, o, p)
  {
    var d :| 0 <= d < |s.db.decisions| && s.db.decisions[d].subject == o && s.db.decisions[d].policy == p;
    assert Next(s, m).db.decisions[d] == s.db.decisions[d];
  }

  /**
   * Any two policies with the same joined name: once one of them has decided on an observation, the row
   * of the other is there although its decision is not, and will never be.
   */
  lemma SharedNameHidesDecision(o: Uuid, p: PolicyRef, q: PolicyRef, more: seq<Move>)
    requires p != q && JoinedName(p) == JoinedName(q) && p != ANCHOR && q != ANCHOR && Lawful(more)
    ensures var s0 := Stage(Waiting);
            var db := Run(s0, Deciding(o, p) + more).db;
            && Start(s0) && Lawful(Deciding(o, p) + more)
            && ShadowKey(o, q) in db.shadow && !HasDecision(db.decisions, o, q)
  {
    var s0 := Stage(Waiting);
    var moves := Deciding(o, p) + more;
    DecideRun(o, p, Deciding(o, p));
    assert Deciding(o, p)[..5] == Deciding(o, p);
    assert Posting(o, p, [], Silent, Silent).db.decisions[0].policy == p;
    DecisionStays(s0, Deciding(o, p), more, o, p);
    assert Lawful(moves) by {
      forall i | 0 <= i < |moves| && moves[i].Lock? ensures moves[i].policy != ANCHOR {
        assert i >= 5 ==> moves[i] == more[i - 5];
      }
    }
    RunNames(s0, moves);
    ShadowRowIffNameDecided(s0, moves, o, q);
  }
}
