/** Interrupted, limited and rolled-back runs over a fixture bundle add up to one uninterrupted run. */
module Restart {
  import opened Common
  import opened SourceKeys
  import opened IngestStore
  import opened IngestProcess

  /** One run of a process: how many messages it asks for, and whether its transaction commits. */
  datatype Attempt = Attempt(limit: Option<nat>, commits: bool)

  function AfterAttempt(source: Source, st: Store, bundle: seq<Message>, stream: string, a: Attempt): Store
  {
    match BundleRun(source, st, bundle, stream, a.limit)
    case None => st
    case Some(st') => if a.commits then st' else st
  }

  function AfterAttempts(source: Source, st: Store, bundle: seq<Message>, stream: string, attempts: seq<Attempt>): Store
  {
    if attempts == [] then st
    else AfterAttempt(source, AfterAttempts(source, st, bundle, stream, attempts[..|attempts| - 1]), bundle, stream,
                      attempts[|attempts| - 1])
  }

  /** An ingest that does not raise leaves its own index as the checkpoint. */
  lemma CheckpointMoves(source: Source, st: Store, m: Message, stream: string, i: nat)
    requires !Ingest(source, st, m, stream, Index(i)).1.Raised?
    ensures StartIndex(Ingest(source, st, m, stream, Index(i)).0, source.id, stream) == Some(i + 1)
  {
  }

  lemma EmptyRange(source: Source, st: Store, bundle: seq<Message>, stream: string, stop: nat)
    requires stop <= |bundle|
    ensures IngestRange(source, st, bundle, stream, stop, stop) == Some(st)
  {
  }

  lemma {:induction false} RangeCheckpoint(source: Source, st: Store, bundle: seq<Message>, stream: string, start: nat, stop: nat)
    requires start < stop <= |bundle| && IngestRange(source, st, bundle, stream, start, stop).Some?
    ensures StartIndex(IngestRange(source, st, bundle, stream, start, stop).value, source.id, stream) == Some(stop)
    decreases stop - start
  {
    RangeStep(source, st, bundle, stream, start, stop);
    CheckpointMoves(source, st, bundle[start], stream, start);
    var next := Ingest(source, st, bundle[start], stream, Index(start)).0;
    if start + 1 < stop {
      RangeCheckpoint(source, next, bundle, stream, start + 1, stop);
    } else {
      EmptyRange(source, next, bundle, stream, stop);
    }
  }

  lemma RangeSplit(source: Source, st: Store, bundle: seq<Message>, stream: string, a: nat, b: nat, c: nat, mid: Store)
    requires a <= b <= c <= |bundle| && IngestRange(source, st, bundle, stream, a, b) == Some(mid)
    ensures IngestRange(source, st, bundle, stream, a, c) == IngestRange(source, mid, bundle, stream, b, c)
  {
    NumberedSplit(bundle, a, b, c);
    ChainSplit(IngestAt(source, stream), st, Numbered(bundle, a, b), Numbered(bundle, b, c), mid);
  }

  lemma NumberedSplit(bundle: seq<Message>, a: nat, b: nat, c: nat)
    requires a <= b <= c <= |bundle|
    ensures Numbered(bundle, a, c) == Numbered(bundle, a, b) + Numbered(bundle, b, c)
  {
  }

  /** The store holds the messages from `start` up to `n`, exactly as one run leaves them. */
  ghost predicate Reached(source: Source, st0: Store, bundle: seq<Message>, stream: string, start: nat, st: Store, n: nat)
  {
    && start <= n <= |bundle|
    && IngestRange(source, st0, bundle, stream, start, n) == Some(st)
    && StartIndex(st, source.id, stream) == Some(n)
  }

  lemma RangeReaches(source: Source, st0: Store, bundle: seq<Message>, stream: string, start: nat, st: Store, n: nat,
                     stop: nat, st': Store)
    requires Reached(source, st0, bundle, stream, start, st, n) && n <= stop <= |bundle|
    requires IngestRange(source, st, bundle, stream, n, stop) == Some(st')
    ensures Reached(source, st0, bundle, stream, start, st', stop)
  {
    RangeSplit(source, st0, bundle, stream, start, n, stop, st);
    if n < stop {
      RangeCheckpoint(source, st, bundle, stream, n, stop);
    }
  }

  lemma AttemptReaches(source: Source, st0: Store, bundle: seq<Message>, stream: string, start: nat, st: Store, n: nat, a: Attempt)
    returns (n': nat)
    requires Reached(source, st0, bundle, stream, start, st, n)
    ensures Reached(source, st0, bundle, stream, start, AfterAttempt(source, st, bundle, stream, a), n')
    ensures n' == if a.commits && BundleRun(source, st, bundle, stream, a.limit).Some? then StopIndex(bundle, n, a.limit) else n
  {
    n' := n;
    var run := BundleRun(source, st, bundle, stream, a.limit);
    if a.commits && run.Some? {
      n' := StopIndex(bundle, n, a.limit);
      BundleRange(source, st, bundle, stream, a.limit, n, n');
      RangeReaches(source, st0, bundle, stream, start, st, n, n', run.value);
    }
  }

  lemma {:induction false} AttemptsReach(source: Source, st0: Store, bundle: seq<Message>, stream: string, start: nat,
                                         attempts: seq<Attempt>) returns (n: nat)
    requires StartIndex(st0, source.id, stream) == Some(start) && start <= |bundle|
    ensures Reached(source, st0, bundle, stream, start, AfterAttempts(source, st0, bundle, stream, attempts), n)
  {
    if attempts == [] {
      n := start;
    } else {
      var front := attempts[..|attempts| - 1];
      n := AttemptsReach(source, st0, bundle, stream, start, front);
      n := AttemptReaches(source, st0, bundle, stream, start, AfterAttempts(source, st0, bundle, stream, front), n,
                          attempts[|attempts| - 1]);
    }
  }

  /**
   * However a bundle is cut into runs, and whichever of them are rolled back: the store and its
   * checkpoint are those of one run over the messages done so far, and once the checkpoint has
   * reached the end they are those of one uninterrupted run over the bundle.
   */
  lemma RestartIsTransparent(source: Source, st0: Store, bundle: seq<Message>, stream: string, start: nat, attempts: seq<Attempt>)
    requires StartIndex(st0, source.id, stream) == Some(start) && start <= |bundle|
    ensures var st := AfterAttempts(source, st0, bundle, stream, attempts);
            var done := StartIndex(st, source.id, stream);
            && done.Some? && start <= done.value <= |bundle|
            && IngestRange(source, st0, bundle, stream, start, done.value) == Some(st)
            && (done.value == |bundle| ==> BundleRun(source, st0, bundle, stream, None) == Some(st))
  {
    var n := AttemptsReach(source, st0, bundle, stream, start, attempts);
    BundleRange(source, st0, bundle, stream, None, start, |bundle|);
  }

  /** A committed run that does not raise does as many messages as it asks for, or all that are left. */
  lemma AttemptAdvances(source: Source, st: Store, bundle: seq<Message>, stream: string, start: nat, a: Attempt)
    requires StartIndex(st, source.id, stream) == Some(start) && start <= |bundle|
    requires a.commits && BundleRun(source, st, bundle, stream, a.limit).Some?
    ensures var done := StartIndex(AfterAttempt(source, st, bundle, stream, a), source.id, stream);
            done == Some(if a.limit.Some? && start + a.limit.value < |bundle| then start + a.limit.value else |bundle|)
  {
    var n := AttemptReaches(source, st, bundle, stream, start, st, start, a);
  }

  /** One more committed run without a limit finishes, exactly if the uninterrupted run would. */
  lemma LastAttemptFinishes(source: Source, st0: Store, bundle: seq<Message>, stream: string, start: nat, attempts: seq<Attempt>)
    requires StartIndex(st0, source.id, stream) == Some(start) && start <= |bundle|
    ensures var st := AfterAttempts(source, st0, bundle, stream, attempts);
            BundleRun(source, st, bundle, stream, None) == BundleRun(source, st0, bundle, stream, None)
  {
    var st := AfterAttempts(source, st0, bundle, stream, attempts);
    var n := AttemptsReach(source, st0, bundle, stream, start, attempts);
    BundleRange(source, st0, bundle, stream, None, start, |bundle|);
    BundleRange(source, st, bundle, stream, None, n, |bundle|);
    RangeSplit(source, st0, bundle, stream, start, n, |bundle|, st);
  }
}
