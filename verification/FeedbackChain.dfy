/** Feedback on an observation: one chain of corrections, unless one post overtakes another. */
module FeedbackChain {
  import opened Common
  import opened SourceKeys
  import opened DecisionHistory

  /** Every feedback row supersedes the row before it on the same observation. */
  ghost predicate Chained(db: Db)
  {
    forall f :: 0 <= f < |db.feedback| ==> Linked(db, f)
  }

  predicate Linked(db: Db, f: nat)
    requires f < |db.feedback|
  {
    && db.feedback[f].decision < |db.decisions|
    && db.feedback[f].supersedes == LatestFeedback(db, SubjectOf(db, f), f)
  }

  function SubjectOf(db: Db, f: nat): Uuid
    requires f < |db.feedback| && db.feedback[f].decision < |db.decisions|
  {
    db.decisions[db.feedback[f].decision].subject
  }

  /** No two rows on one observation supersede the same row, or none. */
  ghost predicate Unbranched(db: Db)
  {
    forall f, g :: 0 <= f < g < |db.feedback| && Akin(db, f, g) ==> db.feedback[f].supersedes != db.feedback[g].supersedes
  }

  /** Both rows are about the same observation. */
  predicate Akin(db: Db, f: nat, g: nat)
    requires f < |db.feedback| && g < |db.feedback|
  {
    && db.feedback[f].decision < |db.decisions| && db.feedback[g].decision < |db.decisions|
    && SubjectOf(db, f) == SubjectOf(db, g)
  }

  // ------------------------------------------------------------- rows in every run

  /** The row names a decision, and supersedes at most an earlier row on the same observation. */
  predicate RowOk(db: Db, f: nat)
    requires f < |db.feedback|
  {
    && db.feedback[f].decision < |db.decisions|
    && (db.feedback[f].supersedes.Some? ==>
          db.feedback[f].supersedes.value < f && About(db, db.feedback[db.feedback[f].supersedes.value], SubjectOf(db, f)))
  }

  ghost predicate RowsOk(db: Db)
  {
    forall f :: 0 <= f < |db.feedback| ==> RowOk(db, f)
  }

  ghost predicate PreviousOk(db: Db, x: Poster)
  {
    x.Ready? && x.previous.Some? ==>
      x.previous.value < |db.feedback| && About(db, db.feedback[x.previous.value], x.subject)
  }

  ghost predicate Sound(s: Sys)
  {
    && Inv(s) && RowsOk(s.db)
    && forall p :: 0 <= p < |s.posters| ==> PreviousOk(s.db, s.posters[p])
  }

  /** Rows only get appended. */
  ghost predicate Extends(db: Db, db': Db)
  {
    db.decisions <= db'.decisions && db.feedback <= db'.feedback
  }

  /** The move commits a feedback row. */
  predicate Posts(s: Sys, m: Move)
  {
    m.PostCommit? && m.p < |s.posters| && s.posters[m.p].Ready?
  }

  lemma QuietMove(s: Sys, m: Move)
    requires !Posts(s, m)
    ensures Extends(s.db, Next(s, m).db) && Next(s, m).db.feedback == s.db.feedback
  {
  }

  lemma NewRow(s: Sys, p: nat)
    requires p < |s.posters| && s.posters[p].Ready? && PosterOk(s, p)
    ensures var s' := Next(s, PostCommit(p));
            var f := |s.db.feedback|;
            && Extends(s.db, s'.db) && |s'.db.feedback| == f + 1 && s'.posters == s.posters[p := Silent]
            && s'.db.feedback[f].supersedes == s.posters[p].previous
            && About(s'.db, s'.db.feedback[f], s.posters[p].subject)
  {
  }

  lemma NextExtends(s: Sys, m: Move)
    requires Sound(s)
    ensures Extends(s.db, Next(s, m).db)
  {
    if Posts(s, m) {
      assert PosterOk(s, m.p);
      NewRow(s, m.p);
    } else {
      QuietMove(s, m);
    }
  }

  lemma PreviousStays(s: Sys, m: Move, p: nat)
    requires Sound(s) && p < |Next(s, m).posters|
    ensures PreviousOk(Next(s, m).db, Next(s, m).posters[p])
  {
    if Next(s, m).posters[p].Ready? {
      if p < |s.posters| && s.posters[p].Ready? {
        NextExtends(s, m);
        ReadyStays(s, m, p);
        assert PreviousOk(s.db, s.posters[p]);
      } else {
        ReadyBegins(s, m, p);
      }
    }
  }

  lemma NextRows(s: Sys, m: Move)
    requires Sound(s)
    ensures RowsOk(Next(s, m).db)
  {
    var db' := Next(s, m).db;
    NextExtends(s, m);
    if Posts(s, m) {
      assert PosterOk(s, m.p) && PreviousOk(s.db, s.posters[m.p]);
      NewRow(s, m.p);
    } else {
      QuietMove(s, m);
    }
    forall f | 0 <= f < |db'.feedback| ensures RowOk(db', f) {
      assert f < |s.db.feedback| ==> RowOk(s.db, f);
    }
  }

  lemma {:induction false} RunSound(s0: Sys, moves: seq<Move>)
    requires Start(s0) && Lawful(moves)
    ensures Sound(Run(s0, moves))
  {
    RunKeeps(s0, moves);
    if moves != [] {
      var s, m := Run(s0, moves[..|moves| - 1]), moves[|moves| - 1];
      RunSound(s0, moves[..|moves| - 1]);
      NextRows(s, m);
      forall p | 0 <= p < |Next(s, m).posters| ensures PreviousOk(Next(s, m).db, Next(s, m).posters[p]) {
        PreviousStays(s, m, p);
      }
    }
  }

  // ------------------------------------------------------------- one commit

  lemma {:induction false} LatestStays(db: Db, db': Db, o: Uuid, n: nat)
    requires RowsOk(db) && Extends(db, db') && n <= |db.feedback|
    ensures LatestFeedback(db', o, n) == LatestFeedback(db, o, n)
  {
    if n > 0 {
      assert RowOk(db, n - 1);
      LatestStays(db, db', o, n - 1);
    }
  }

  lemma LinkedStays(db: Db, db': Db, f: nat)
    requires RowsOk(db) && Extends(db, db') && f < |db.feedback|
    ensures Linked(db', f) <==> Linked(db, f)
  {
    assert RowOk(db, f);
    LatestStays(db, db', SubjectOf(db, f), f);
  }

  /** What the post has read is still the latest row. */
  predicate Fresh(s: Sys, p: nat)
    requires p < |s.posters| && s.posters[p].Ready?
  {
    s.posters[p].previous == LatestFeedback(s.db, s.posters[p].subject, |s.db.feedback|)
  }

  /** A chain stays one under a new row exactly if that supersedes the latest. */
  lemma ChainedMore(db: Db, db': Db, o: Uuid)
    requires RowsOk(db) && Extends(db, db') && |db'.feedback| == |db.feedback| + 1
    requires About(db', db'.feedback[|db.feedback|], o)
    ensures Chained(db') <==>
              Chained(db) && db'.feedback[|db.feedback|].supersedes == LatestFeedback(db, o, |db.feedback|)
  {
    var n := |db.feedback|;
    forall f | 0 <= f < n ensures Linked(db', f) <==> Linked(db, f) {
      LinkedStays(db, db', f);
    }
    LatestStays(db, db', o, n);
    assert SubjectOf(db', n) == o;
    assert Linked(db', n) <==> db'.feedback[n].supersedes == LatestFeedback(db, o, n);
  }

  lemma ChainedSame(db: Db, db': Db)
    requires RowsOk(db) && Extends(db, db') && db'.feedback == db.feedback
    ensures Chained(db') <==> Chained(db)
  {
    forall f | 0 <= f < |db.feedback| ensures Linked(db', f) <==> Linked(db, f) {
      LinkedStays(db, db', f);
    }
  }

  /** A move keeps the chain exactly if it commits no row, or one that has read the latest row. */
  lemma ChainedNext(s: Sys, m: Move)
    requires Sound(s)
    ensures Chained(Next(s, m).db) <==> Chained(s.db) && (Posts(s, m) ==> Fresh(s, m.p))
  {
    if Posts(s, m) {
      assert PosterOk(s, m.p);
      NewRow(s, m.p);
      ChainedMore(s.db, Next(s, m).db, s.posters[m.p].subject);
    } else {
      QuietMove(s, m);
      ChainedSame(s.db, Next(s, m).db);
    }
  }

  // ------------------------------------------------------------- whole runs

  /** The state before move `n`. */
  function At(s0: Sys, moves: seq<Move>, n: nat): Sys
    requires n <= |moves|
  {
    Run(s0, moves[..n])
  }

  lemma AtNext(s0: Sys, moves: seq<Move>, n: nat)
    requires n < |moves|
    ensures At(s0, moves, n + 1) == Next(At(s0, moves, n), moves[n])
  {
    assert moves[..n + 1][..n] == moves[..n];
  }

  predicate ReadyAt(s0: Sys, moves: seq<Move>, n: nat, p: nat)
    requires n <= |moves|
  {
    p < |At(s0, moves, n).posters| && At(s0, moves, n).posters[p].Ready?
  }

  /** Move `k` commits a feedback row on the observation. */
  predicate PostsOn(s0: Sys, moves: seq<Move>, k: nat, o: Uuid)
    requires k < |moves|
  {
    Posts(At(s0, moves, k), moves[k]) && At(s0, moves, k).posters[moves[k].p].subject == o
  }

  /** Before move `n`, poster `p` has stood ready since before move `k`. */
  ghost predicate ReadySince(s0: Sys, moves: seq<Move>, k: nat, n: nat, p: nat)
    requires n <= |moves|
  {
    forall i :: k <= i <= n ==> ReadyAt(s0, moves, i, p)
  }

  /** Since its last look, some move committed a row on the observation of the poster. */
  ghost predicate Stale(s0: Sys, moves: seq<Move>, n: nat, p: nat, o: Uuid)
    requires n <= |moves|
  {
    exists k :: 0 <= k < n && PostsOn(s0, moves, k, o) && ReadySince(s0, moves, k, n, p)
  }

  /**
   * Move `i` commits a post, and while that stood between its last look at the latest row and its commit,
   * move `k` committed a row on the same observation.
   */
  ghost predicate Overtaken(s0: Sys, moves: seq<Move>, k: nat, i: nat)
    requires k < i < |moves|
  {
    && Posts(At(s0, moves, i), moves[i])
    && PostsOn(s0, moves, k, At(s0, moves, i).posters[moves[i].p].subject)
    && ReadySince(s0, moves, k, i, moves[i].p)
  }

  ghost predicate NoneOvertaken(s0: Sys, moves: seq<Move>)
  {
    forall k, i :: 0 <= k < i < |moves| ==> !Overtaken(s0, moves, k, i)
  }

  /** A ready poster stays as it is until it is done. */
  lemma ReadyStays(s: Sys, m: Move, p: nat)
    requires p < |s.posters| && s.posters[p].Ready? && p < |Next(s, m).posters| && Next(s, m).posters[p].Ready?
    ensures Next(s, m).posters[p] == s.posters[p] && (Posts(s, m) ==> m.p != p)
  {
  }

  lemma ReadyBegins(s: Sys, m: Move, p: nat)
    requires p < |Next(s, m).posters| && Next(s, m).posters[p].Ready? && !(p < |s.posters| && s.posters[p].Ready?)
    ensures Next(s, m).db == s.db && Fresh(Next(s, m), p)
  {
  }

  lemma LatestMore(db: Db, db': Db, o: Uuid, other: Uuid)
    requires RowsOk(db) && Extends(db, db') && |db'.feedback| == |db.feedback| + 1
    requires About(db', db'.feedback[|db.feedback|], o)
    ensures LatestFeedback(db', other, |db'.feedback|)
            == if other == o then Some(|db.feedback|) else LatestFeedback(db, other, |db.feedback|)
  {
    LatestStays(db, db', other, |db.feedback|);
  }

  /** The next move makes what a poster read out of date exactly if it posts on the same observation. */
  lemma FreshNext(s: Sys, m: Move, p: nat)
    requires Sound(s) && p < |s.posters| && s.posters[p].Ready?
    requires p < |Next(s, m).posters| && Next(s, m).posters[p].Ready?
    ensures Fresh(Next(s, m), p) <==> Fresh(s, p) && !(Posts(s, m) && s.posters[m.p].subject == s.posters[p].subject)
  {
    ReadyStays(s, m, p);
    assert PreviousOk(s.db, s.posters[p]);
    if Posts(s, m) {
      assert PosterOk(s, m.p);
      NewRow(s, m.p);
      LatestMore(s.db, Next(s, m).db, s.posters[m.p].subject, s.posters[p].subject);
    } else {
      QuietMove(s, m);
      LatestStays(s.db, Next(s, m).db, s.posters[p].subject, |s.db.feedback|);
    }
  }

  lemma StaleNext(s0: Sys, moves: seq<Move>, n: nat, p: nat, o: Uuid)
    requires n < |moves| && ReadyAt(s0, moves, n, p) && ReadyAt(s0, moves, n + 1, p)
    ensures Stale(s0, moves, n + 1, p, o) <==> Stale(s0, moves, n, p, o) || PostsOn(s0, moves, n, o)
  {
    if PostsOn(s0, moves, n, o) {
      assert ReadySince(s0, moves, n, n + 1, p);
    }
    if Stale(s0, moves, n, p, o) {
      var k :| 0 <= k < n && PostsOn(s0, moves, k, o) && ReadySince(s0, moves, k, n, p);
      assert ReadySince(s0, moves, k, n + 1, p);
    }
    if Stale(s0, moves, n + 1, p, o) {
      var k :| 0 <= k < n + 1 && PostsOn(s0, moves, k, o) && ReadySince(s0, moves, k, n + 1, p);
      assert k < n ==> ReadySince(s0, moves, k, n, p);
    }
  }

  lemma SoundAt(s0: Sys, moves: seq<Move>, n: nat)
    requires Start(s0) && Lawful(moves) && n <= |moves|
    ensures Sound(At(s0, moves, n))
  {
    RunSound(s0, moves[..n]);
  }

  lemma {:induction false} FreshIffNotStale(s0: Sys, moves: seq<Move>, n: nat, p: nat)
    requires Start(s0) && Lawful(moves) && n <= |moves| && ReadyAt(s0, moves, n, p)
    ensures Fresh(At(s0, moves, n), p) <==> !Stale(s0, moves, n, p, At(s0, moves, n).posters[p].subject)
  {
    if n > 0 {
      AtNext(s0, moves, n - 1);
      var s, m := At(s0, moves, n - 1), moves[n - 1];
      if ReadyAt(s0, moves, n - 1, p) {
        SoundAt(s0, moves, n - 1);
        ReadyStays(s, m, p);
        FreshIffNotStale(s0, moves, n - 1, p);
        FreshNext(s, m, p);
        StaleNext(s0, moves, n - 1, p, s.posters[p].subject);
      } else {
        ReadyBegins(s, m, p);
      }
    }
  }

  lemma OvertakenIffStale(s0: Sys, moves: seq<Move>, i: nat)
    requires Start(s0) && Lawful(moves) && i < |moves| && Posts(At(s0, moves, i), moves[i])
    ensures Fresh(At(s0, moves, i), moves[i].p) <==> forall k :: 0 <= k < i ==> !Overtaken(s0, moves, k, i)
  {
    var p, o := moves[i].p, At(s0, moves, i).posters[moves[i].p].subject;
    assert ReadyAt(s0, moves, i, p);
    FreshIffNotStale(s0, moves, i, p);
    if Stale(s0, moves, i, p, o) {
      var k :| 0 <= k < i && PostsOn(s0, moves, k, o) && ReadySince(s0, moves, k, i, p);
      assert Overtaken(s0, moves, k, i);
    }
  }

  lemma ChainedAtNext(s0: Sys, moves: seq<Move>, i: nat)
    requires Start(s0) && Lawful(moves) && i < |moves|
    ensures Chained(At(s0, moves, i + 1).db)
            <==> Chained(At(s0, moves, i).db) && forall k :: 0 <= k < i ==> !Overtaken(s0, moves, k, i)
  {
    SoundAt(s0, moves, i);
    AtNext(s0, moves, i);
    ChainedNext(At(s0, moves, i), moves[i]);
    if Posts(At(s0, moves, i), moves[i]) {
      OvertakenIffStale(s0, moves, i);
    } else {
      assert forall k :: 0 <= k < i ==> !Overtaken(s0, moves, k, i);
    }
  }

  lemma {:induction false} ChainedSoFar(s0: Sys, moves: seq<Move>, n: nat)
    requires Start(s0) && Lawful(moves) && n <= |moves|
    ensures Chained(At(s0, moves, n).db) <==> forall k, i :: 0 <= k < i < n ==> !Overtaken(s0, moves, k, i)
  {
    if n > 0 {
      ChainedSoFar(s0, moves, n - 1);
      ChainedAtNext(s0, moves, n - 1);
    }
  }

  /** In all runs: the rows form chains exactly if no post was overtaken. */
  lemma ChainedIffNoneOvertaken(s0: Sys, moves: seq<Move>)
    requires Start(s0) && Lawful(moves)
    ensures Chained(Run(s0, moves).db) <==> NoneOvertaken(s0, moves)
  {
    ChainedSoFar(s0, moves, |moves|);
    assert moves[..|moves|] == moves;
  }

  // ------------------------------------------------------------- chains and branches

  /** A row on the observation that had `y` before it. */
  lemma {:induction false} Successor(db: Db, o: Uuid, y: Option<nat>, g: nat) returns (h: nat)
    requires g < |db.feedback| && About(db, db.feedback[g], o)
    requires y.Some? ==> y.value < g && About(db, db.feedback[y.value], o)
    ensures h <= g && About(db, db.feedback[h], o) && LatestFeedback(db, o, h) == y
    decreases g
  {
    var before := LatestFeedback(db, o, g);
    if before == y {
      h := g;
    } else {
      h := Successor(db, o, y, before.value);
    }
  }

  /** A row that supersedes less than the latest shares what it supersedes with an earlier row. */
  lemma StaleRowBranches(db: Db, f: nat) returns (h: nat)
    requires f < |db.feedback| && RowOk(db, f) && !Linked(db, f)
    requires forall g :: 0 <= g < f ==> Linked(db, g)
    ensures h < f && Akin(db, h, f) && db.feedback[h].supersedes == db.feedback[f].supersedes
  {
    var o, y := SubjectOf(db, f), db.feedback[f].supersedes;
    var latest := LatestFeedback(db, o, f).value;
    h := Successor(db, o, y, latest);
    assert Linked(db, h);
  }

  lemma {:induction false} UnbranchedIsChained(db: Db, n: nat)
    requires RowsOk(db) && Unbranched(db) && n <= |db.feedback|
    ensures forall f :: 0 <= f < n ==> Linked(db, f)
  {
    if n > 0 {
      UnbranchedIsChained(db, n - 1);
      if !Linked(db, n - 1) {
        assert RowOk(db, n - 1);
        var h := StaleRowBranches(db, n - 1);
      }
    }
  }

  /** Following the latest row each time is the same as never superseding a row twice. */
  lemma ChainedIffUnbranched(db: Db)
    requires RowsOk(db)
    ensures Chained(db) <==> Unbranched(db)
  {
    if Unbranched(db) {
      UnbranchedIsChained(db, |db.feedback|);
    }
    if Chained(db) {
      forall f, g | 0 <= f < g < |db.feedback| && Akin(db, f, g)
        ensures db.feedback[f].supersedes != db.feedback[g].supersedes
      {
        assert RowOk(db, f) && Linked(db, g);
      }
    }
  }

  /**
   * Whatever shadow handlers and posts do: the feedback on every observation is unbranched exactly if no
   * post commits while another one on the same observation stands between its look at the latest row
   * and its own commit.
   */
  lemma UnbranchedIffNoneOvertaken(s0: Sys, moves: seq<Move>)
    requires Start(s0) && Lawful(moves)
    ensures Unbranched(Run(s0, moves).db) <==> NoneOvertaken(s0, moves)
  {
    RunSound(s0, moves);
    ChainedIffUnbranched(Run(s0, moves).db);
    ChainedIffNoneOvertaken(s0, moves);
  }

  ghost predicate Superseded(db: Db, o: Uuid, f: nat)
  {
    exists h: nat :: h < |db.feedback| && About(db, db.feedback[h], o) && db.feedback[h].supersedes == Some(f)
  }

  /**
   * And then it is one chain per observation: each row supersedes the one before it, no two rows
   * supersede the same one, and only the latest row is superseded by none.
   */
  lemma FeedbackIsOneChain(s0: Sys, moves: seq<Move>, o: Uuid, f: nat, g: nat)
    requires Start(s0) && Lawful(moves) && NoneOvertaken(s0, moves)
    requires var db := Run(s0, moves).db;
             f < |db.feedback| && g < |db.feedback| && About(db, db.feedback[f], o) && About(db, db.feedback[g], o)
    ensures var db := Run(s0, moves).db;
            && db.feedback[f].supersedes == LatestFeedback(db, o, f)
            && (f != g ==> db.feedback[f].supersedes != db.feedback[g].supersedes)
            && LatestFeedback(db, o, |db.feedback|).Some?
            && (f == LatestFeedback(db, o, |db.feedback|).value <==> !Superseded(db, o, f))
  {
    ChainedIffNoneOvertaken(s0, moves);
    var db := Run(s0, moves).db;
    assert Linked(db, f) && Linked(db, g);
    var head := LatestFeedback(db, o, |db.feedback|).value;
    if f < head {
      var h := Successor(db, o, Some(f), head);
      assert Linked(db, h);
    }
    if Superseded(db, o, f) {
      var h: nat :| h < |db.feedback| && About(db, db.feedback[h], o) && db.feedback[h].supersedes == Some(f);
      assert Linked(db, h);
    }
  }

  // ------------------------------------------------------------- serial posts

  /** No post on the observation is open but this one. */
  predicate Alone(posters: seq<Poster>, p: nat, o: Uuid)
  {
    forall q :: 0 <= q < |posters| && q != p ==> posters[q].Silent? || posters[q].subject != o
  }

  /** Posts on one observation come one after the other; everything else may interleave. */
  ghost predicate Serial(s0: Sys, moves: seq<Move>)
  {
    forall i :: 0 <= i < |moves| && moves[i].Read? ==> Alone(Run(s0, moves[..i]).posters, moves[i].p, moves[i].post)
  }

  ghost predicate AllAlone(posters: seq<Poster>)
  {
    forall p :: 0 <= p < |posters| && !posters[p].Silent? ==> Alone(posters, p, posters[p].subject)
  }

  lemma AloneNext(s: Sys, m: Move)
    requires AllAlone(s.posters) && (m.Read? ==> Alone(s.posters, m.p, m.post))
    ensures AllAlone(Next(s, m).posters)
  {
    if !OfHandler(m) && m.p < |s.posters| && !s.posters[m.p].Silent? {
      assert Alone(s.posters, m.p, s.posters[m.p].subject);
    }
  }

  lemma {:induction false} RunAlone(s0: Sys, moves: seq<Move>)
    requires Start(s0) && Serial(s0, moves)
    ensures AllAlone(Run(s0, moves).posters)
  {
    if moves != [] {
      var front, m := moves[..|moves| - 1], moves[|moves| - 1];
      assert forall i :: 0 <= i < |front| ==> moves[..i] == front[..i];
      RunAlone(s0, front);
      AloneNext(Run(s0, front), m);
    }
  }

  /** In serial histories nothing is overtaken. */
  lemma SerialIsNotOvertaken(s0: Sys, moves: seq<Move>)
    requires Start(s0) && Serial(s0, moves)
    ensures NoneOvertaken(s0, moves)
  {
    forall k, i | 0 <= k < i < |moves| ensures !Overtaken(s0, moves, k, i) {
      if Overtaken(s0, moves, k, i) {
        OnlyOneReady(s0, moves, k, i);
      }
    }
  }

  lemma OnlyOneReady(s0: Sys, moves: seq<Move>, k: nat, i: nat)
    requires Start(s0) && Serial(s0, moves) && k < i < |moves|
    requires Posts(At(s0, moves, k), moves[k]) && Posts(At(s0, moves, i), moves[i])
    requires ReadySince(s0, moves, k, i, moves[i].p)
    ensures At(s0, moves, k).posters[moves[k].p].subject != At(s0, moves, i).posters[moves[i].p].subject
  {
    var s, p, q := At(s0, moves, k), moves[k].p, moves[i].p;
    RunAloneAt(s0, moves, k);
    AtNext(s0, moves, k);
    assert ReadyAt(s0, moves, k, q) && ReadyAt(s0, moves, k + 1, q);
    ReadyStays(s, moves[k], q);
    SameSubject(s0, moves, k, i, q);
    assert Alone(s.posters, p, s.posters[p].subject);
  }

  lemma RunAloneAt(s0: Sys, moves: seq<Move>, k: nat)
    requires Start(s0) && Serial(s0, moves) && k <= |moves|
    ensures AllAlone(At(s0, moves, k).posters)
  {
    assert forall i :: 0 <= i < k ==> moves[..k][..i] == moves[..i];
    RunAlone(s0, moves[..k]);
  }

  /** A poster that stays ready stays with its observation. */
  lemma {:induction false} SameSubject(s0: Sys, moves: seq<Move>, k: nat, i: nat, p: nat)
    requires k <= i <= |moves| && ReadySince(s0, moves, k, i, p)
    ensures ReadyAt(s0, moves, k, p) && ReadyAt(s0, moves, i, p)
    ensures At(s0, moves, i).posters[p].subject == At(s0, moves, k).posters[p].subject
    decreases i
  {
    if k < i {
      SameSubject(s0, moves, k, i - 1, p);
      assert ReadyAt(s0, moves, i, p);
      AtNext(s0, moves, i - 1);
      ReadyStays(At(s0, moves, i - 1), moves[i - 1], p);
    } else {
      assert ReadyAt(s0, moves, k, p);
    }
  }

  // ------------------------------------------------------------- overlapping posts

  const SHADOW := PolicyRef("community", "1")

  function Overlap(o: Uuid): seq<Move>
  {
    [Lock(0, o, SHADOW), Look(0), Number(0), Insert(0), Commit(0),
     Read(0, o, "important"), Read(1, o, "uncertain"), Previous(0), Previous(1), PostCommit(0), PostCommit(1)]
  }

  lemma PostSteps(o: Uuid, a: string, b: string)
    ensures Next(Posting(o, SHADOW, [], Silent, Silent), Read(0, o, a)) == Posting(o, SHADOW, [], Found(o, a, Some(0)), Silent)
    ensures Next(Posting(o, SHADOW, [], Found(o, a, Some(0)), Silent), Read(1, o, b))
            == Posting(o, SHADOW, [], Found(o, a, Some(0)), Found(o, b, Some(0)))
  {
    assert [Decision(o, 1, SHADOW)][..0] == [];
    assert LatestDecision([Decision(o, 1, SHADOW)], o) == Some(0);
  }

  lemma PreviousSteps(o: Uuid, a: string, b: string)
    ensures Next(Posting(o, SHADOW, [], Found(o, a, Some(0)), Found(o, b, Some(0))), Previous(0))
            == Posting(o, SHADOW, [], Ready(o, a, Some(0), None), Found(o, b, Some(0)))
    ensures Next(Posting(o, SHADOW, [], Ready(o, a, Some(0), None), Found(o, b, Some(0))), Previous(1))
            == Posting(o, SHADOW, [], Ready(o, a, Some(0), None), Ready(o, b, Some(0), None))
  {
  }

  lemma CommitSteps(o: Uuid, a: string, b: string)
    ensures Next(Posting(o, SHADOW, [], Ready(o, a, Some(0), None), Ready(o, b, Some(0), None)), PostCommit(0))
            == Posting(o, SHADOW, [Feedback(0, a, None)], Silent, Ready(o, b, Some(0), None))
    ensures Next(Posting(o, SHADOW, [Feedback(0, a, None)], Silent, Ready(o, b, Some(0), None)), PostCommit(1))
            == Posting(o, SHADOW, [Feedback(0, a, None), Feedback(0, b, None)], Silent, Silent)
  {
  }

  lemma LookRun(o: Uuid, moves: seq<Move>, a: string, b: string)
    requires moves == Overlap(o) && a == "important" && b == "uncertain"
    ensures Run(Stage(Waiting), moves[..9]) == Posting(o, SHADOW, [], Ready(o, a, Some(0), None), Ready(o, b, Some(0), None))
  {
    var s0 := Stage(Waiting);
    assert moves[..5] == Deciding(o, SHADOW);
    DecideRun(o, SHADOW, moves);
    PostSteps(o, a, b);
    PreviousSteps(o, a, b);
    var s5, s6 := Posting(o, SHADOW, [], Silent, Silent), Posting(o, SHADOW, [], Found(o, a, Some(0)), Silent);
    var s7 := Posting(o, SHADOW, [], Found(o, a, Some(0)), Found(o, b, Some(0)));
    var s8 := Posting(o, SHADOW, [], Ready(o, a, Some(0), None), Found(o, b, Some(0)));
    var s9 := Posting(o, SHADOW, [], Ready(o, a, Some(0), None), Ready(o, b, Some(0), None));
    RunMore(s0, moves, 5, s5, Read(0, o, a), s6);
    RunMore(s0, moves, 6, s6, Read(1, o, b), s7);
    RunMore(s0, moves, 7, s7, Previous(0), s8);
    RunMore(s0, moves, 8, s8, Previous(1), s9);
  }

  lemma PostRun(o: Uuid, moves: seq<Move>, a: string, b: string)
    requires moves == Overlap(o) && a == "important" && b == "uncertain"
    ensures Run(Stage(Waiting), moves) == Posting(o, SHADOW, [Feedback(0, a, None), Feedback(0, b, None)], Silent, Silent)
  {
    LookRun(o, moves, a, b);
    CommitSteps(o, a, b);
    var s9 := Posting(o, SHADOW, [], Ready(o, a, Some(0), None), Ready(o, b, Some(0), None));
    var s10 := Posting(o, SHADOW, [Feedback(0, a, None)], Silent, Ready(o, b, Some(0), None));
    var s11 := Posting(o, SHADOW, [Feedback(0, a, None), Feedback(0, b, None)], Silent, Silent);
    RunMore(Stage(Waiting), moves, 9, s9, PostCommit(0), s10);
    RunMore(Stage(Waiting), moves, 10, s10, PostCommit(1), s11);
    assert moves[..11] == moves;
  }

  /** It happens: two posts that both look before either commits supersede the same row. */
  lemma OverlapBranches(o: Uuid)
    ensures var s0 := Stage(Waiting);
            && Start(s0) && Lawful(Overlap(o)) && !NoneOvertaken(s0, Overlap(o))
            && Run(s0, Overlap(o)).db.feedback == [Feedback(0, "important", None), Feedback(0, "uncertain", None)]
  {
    PostRun(o, Overlap(o), "important", "uncertain");
    UnbranchedIffNoneOvertaken(Stage(Waiting), Overlap(o));
    assert Akin(Run(Stage(Waiting), Overlap(o)).db, 0, 1);
  }

  // ------------------------------------------------------------- the request

  /** A post that nothing interferes with. */
  function Posted(db: Db, o: Uuid, verdict: string): Db
  {
    AddFeedback(db, o, verdict, LatestDecision(db.decisions, o), LatestFeedback(db, o, |db.feedback|))
  }

  lemma RowsMore(db: Db, db': Db, o: Uuid)
    requires RowsOk(db) && Extends(db, db') && |db'.feedback| == |db.feedback| + 1
    requires About(db', db'.feedback[|db.feedback|], o)
    requires db'.feedback[|db.feedback|].supersedes == LatestFeedback(db, o, |db.feedback|)
    ensures RowsOk(db') && LatestFeedback(db', o, |db'.feedback|) == Some(|db.feedback|)
  {
    forall f | 0 <= f < |db'.feedback| ensures RowOk(db', f) {
      assert f < |db.feedback| ==> RowOk(db, f);
    }
  }

  class EventDatabase {
    var decisions: seq<Decision>
    var shadow: set<string>
    var feedback: seq<Feedback>

    function Value(): Db
      reads this
    {
      Db(decisions, shadow, feedback)
    }

    /** The request, in a transaction of its own; an observation without decisions gets an anchor first. */
    method CreateFeedback(o: Uuid, verdict: string) returns (created: Feedback)
      requires RowsOk(Value())
      modifies this
      ensures Value() == Posted(old(Value()), o, verdict) && RowsOk(Value())
      ensures Chained(Value()) <==> old(Chained(Value()))
      ensures LatestFeedback(Value(), o, |feedback|) == Some(|old(feedback)|) && created == feedback[|old(feedback)|]
      ensures created.supersedes == LatestFeedback(old(Value()), o, |old(feedback)|)
      ensures created.verdict == verdict && created.decision < |decisions| && decisions[created.decision].subject == o
      ensures if LatestDecision(old(decisions), o).Some?
              then decisions == old(decisions) && Some(created.decision) == LatestDecision(old(decisions), o)
              else decisions == old(decisions) + [Decision(o, 1, PolicyRef("ui-feedback-anchor", "1.0.0"))]
                   && created.decision == |old(decisions)|
      ensures feedback == old(feedback) + [created] && shadow == old(shadow)
    {
      ghost var before := Value();
      var decision := LatestDecision(decisions, o);
      if decision.None? {
        decision := Some(|decisions|);
        decisions := decisions + [Decision(o, 1, ANCHOR)];
      }
      LatestStays(before, Value(), o, |feedback|);
      var previous := LatestFeedback(Value(), o, |feedback|);
      created := Feedback(decision.value, verdict, previous);
      feedback := feedback + [created];
      ChainedMore(before, Value(), o);
      RowsMore(before, Value(), o);
    }
  }
}
