/** The two requests of the processor API, each a transaction of its own. */
module ProcessorApi {
  import opened Common
  import opened ProcessorJobs

  /** A submission that nothing interferes with. */
  function Submission(db: Db, r: EnrichmentResult): (Db, Answer)
  {
    var loaded := LoadAnswer(db, r);
    if !loaded.Proceed? then (db, loaded)
    else
      var checked := CheckAnswer(db, r, db.jobs[r.job].status);
      if !checked.Proceed? then (db, checked)
      else if Repeats(r.claims) then (db, IntegrityError)
      else (Accept(db, r), Receipted(FirstReceipt(db, r)))
  }

  // ------------------------------------------------------------- what a submission comes to

  /** Some claim of the result cites the evidence. */
  predicate Cites(r: EnrichmentResult, e: nat)
  {
    exists k, i :: 0 <= k < |r.claims| && 0 <= i < |r.claims[k].evidence| && r.claims[k].evidence[i] == e
  }

  predicate Matching(db: Db, r: EnrichmentResult)
  {
    r.job < |db.jobs| && r.key == db.jobs[r.job].key
  }

  /** The job already has its invocation. */
  predicate Decided(db: Db, r: EnrichmentResult)
  {
    exists i :: 0 <= i < |db.invocations| && db.invocations[i].job == r.job
  }

  predicate Granted(db: Db, r: EnrichmentResult)
    requires r.job < |db.jobs|
  {
    forall k, i :: 0 <= k < |r.claims| && 0 <= i < |r.claims[k].evidence| ==> r.claims[k].evidence[i] in db.jobs[r.job].grants
  }

  /** Some claim cites the same evidence twice. */
  predicate CitesTwice(r: EnrichmentResult)
  {
    exists k, i, j :: 0 <= k < |r.claims| && 0 <= i < j < |r.claims[k].evidence| && r.claims[k].evidence[i] == r.claims[k].evidence[j]
  }

  /** Everything that has to hold for an undecided job's result to be accepted. */
  predicate Acceptable(db: Db, r: EnrichmentResult)
  {
    && Matching(db, r) && !Decided(db, r) && db.jobs[r.job].status == Running && Granted(db, r)
    && r.route == db.jobs[r.job].route && (r.networkUsed ==> db.jobs[r.job].networkAllowed) && !CitesTwice(r)
  }

  /** Which answer each condition leads to, the first that fails deciding. */
  ghost predicate AnswersRightly(db: Db, r: EnrichmentResult, answer: Answer)
  {
    && (answer == NotFound <==> r.job >= |db.jobs|)
    && (answer == Mismatch <==> r.job < |db.jobs| && !Matching(db, r))
    && (answer.Receipted? && !answer.receipt.accepted <==> Matching(db, r) && Decided(db, r))
    && (Matching(db, r) && !Decided(db, r) ==>
          var job := db.jobs[r.job];
          && (answer == NotRunning <==> job.status != Running)
          && (job.status == Running ==>
                && (answer == OutsideGrant <==> !Granted(db, r))
                && (Granted(db, r) ==>
                      && (answer == WrongRoute <==> r.route != job.route)
                      && (r.route == job.route ==>
                            && (answer == NetworkDenied <==> r.networkUsed && !job.networkAllowed)
                            && (!r.networkUsed || job.networkAllowed ==>
                                  (answer == IntegrityError <==> CitesTwice(r)))))))
    && (answer.Receipted? && answer.receipt.accepted <==> Acceptable(db, r))
    && answer != Proceed
  }

  /** All that an accepted result leaves behind, and its receipt. */
  ghost predicate Recorded(db: Db, r: EnrichmentResult, after: Db, receipt: Receipt)
    requires r.job < |db.jobs|
  {
    var i := |db.invocations|;
    && after.jobs == db.jobs[r.job := db.jobs[r.job].(status := r.status)]
    && after.invocations == db.invocations + [Invocation(r.job, r.status, r.route, r.networkUsed)]
    && |after.claims| == |db.claims| + |r.claims| && db.claims <= after.claims
    && (forall k :: 0 <= k < |r.claims| ==> after.claims[|db.claims| + k] == ClaimRow(i, r.claims[k].text))
    && (forall c: nat, e: nat :: (c, e) in after.claimEvidence <==>
          (c, e) in db.claimEvidence
          || (|db.claims| <= c < |after.claims| && e in r.claims[c - |db.claims|].evidence))
    && (forall o: nat, e: nat :: (o, e) in after.invocationEvidence <==> (o, e) in db.invocationEvidence || (o == i && Cites(r, e)))
    && receipt.job == r.job && receipt.status == r.status
    && (forall c: nat :: c in receipt.claims <==> |db.claims| <= c < |after.claims|)
    && (forall e: nat :: e in receipt.evidence <==> Cites(r, e))
  }

  lemma SubmittedMeaning(r: EnrichmentResult)
    ensures forall e :: e in Submitted(r.claims) <==> Cites(r, e)
  {
  }

  lemma RepeatsMeaning(r: EnrichmentResult)
    ensures Repeats(r.claims) <==> CitesTwice(r)
  {
    if Repeats(r.claims) {
      var k :| 0 <= k < |r.claims| && !Distinct(r.claims[k].evidence);
      var i, j :| 0 <= i < j < |r.claims[k].evidence| && r.claims[k].evidence[i] == r.claims[k].evidence[j];
    }
    if CitesTwice(r) {
      var k, i, j :| 0 <= k < |r.claims| && 0 <= i < j < |r.claims[k].evidence| && r.claims[k].evidence[i] == r.claims[k].evidence[j];
      assert !Distinct(r.claims[k].evidence);
    }
  }

  lemma GrantedMeaning(db: Db, r: EnrichmentResult)
    requires r.job < |db.jobs|
    ensures Submitted(r.claims) <= db.jobs[r.job].grants <==> Granted(db, r)
  {
    if Submitted(r.claims) <= db.jobs[r.job].grants {
      forall k, i | 0 <= k < |r.claims| && 0 <= i < |r.claims[k].evidence|
        ensures r.claims[k].evidence[i] in db.jobs[r.job].grants
      {
        SubmittedMembers(r.claims, k, i);
      }
    }
  }

  lemma AcceptMeaning(db: Db, r: EnrichmentResult)
    requires r.job < |db.jobs|
    ensures Recorded(db, r, Accept(db, r), FirstReceipt(db, r))
  {
    SubmittedMeaning(r);
    RangeMembers(|db.claims|, |r.claims|);
    var after := Accept(db, r);
    forall c: nat, e: nat ensures (c, e) in after.claimEvidence <==>
        (c, e) in db.claimEvidence || (|db.claims| <= c < |after.claims| && e in r.claims[c - |db.claims|].evidence)
    {
      LinkMeaning(r.claims, |db.claims|, c, e);
    }
  }

  lemma LinkMeaning(claims: seq<WireClaim>, from: nat, c: nat, e: nat)
    ensures (c, e) in ClaimLinks(claims, from) <==> from <= c < from + |claims| && e in claims[c - from].evidence
  {
    if from <= c < from + |claims| && e in claims[c - from].evidence {
      var i :| 0 <= i < |claims[c - from].evidence| && claims[c - from].evidence[i] == e;
      assert (from + (c - from), claims[c - from].evidence[i]) in ClaimLinks(claims, from);
    }
  }

  lemma CheckMeaning(db: Db, r: EnrichmentResult)
    requires Matching(db, r)
    ensures var job := db.jobs[r.job];
            var answer := CheckAnswer(db, r, job.status);
            && (answer.Receipted? <==> Decided(db, r)) && (answer.Receipted? ==> !answer.receipt.accepted)
            && (!Decided(db, r) ==>
                  && (answer == NotRunning <==> job.status != Running)
                  && (answer == OutsideGrant <==> job.status == Running && !Granted(db, r))
                  && (answer == WrongRoute <==> job.status == Running && Granted(db, r) && r.route != job.route)
                  && (answer == NetworkDenied <==>
                        job.status == Running && Granted(db, r) && r.route == job.route && r.networkUsed && !job.networkAllowed)
                  && (answer == Proceed <==>
                        job.status == Running && Granted(db, r) && r.route == job.route && (!r.networkUsed || job.networkAllowed)))
            && answer != NotFound && answer != Mismatch && answer != IntegrityError
  {
    GrantedMeaning(db, r);
  }

  /** An undisturbed submission is answered rightly; it is recorded if accepted and changes nothing otherwise. */
  lemma SubmissionMeaning(db: Db, r: EnrichmentResult)
    ensures var (after, answer) := Submission(db, r);
            && AnswersRightly(db, r, answer)
            && (if Acceptable(db, r) then Recorded(db, r, after, answer.receipt) else after == db)
  {
    RepeatsMeaning(r);
    if Matching(db, r) {
      CheckMeaning(db, r);
      if Acceptable(db, r) {
        AcceptMeaning(db, r);
      }
    }
  }

  // ------------------------------------------------------------- the moves of a submission

  lemma IdleMoves(s: Sys, k: nat)
    requires k < |s.submitters| && s.submitters[k].NoCall?
    ensures Next(s, Check(k)) == s && Next(s, Insert(k)) == s && Next(s, Submit(k)) == s
  {
  }

  lemma LoadMove(s: Sys, k: nat, r: EnrichmentResult)
    requires k < |s.submitters| && s.submitters[k].NoCall? && Terminal(r.status)
    ensures Next(s, Load(k, r))
            == if LoadAnswer(s.db, r).Proceed? then SetSubmitter(s, k, Loaded(r, s.db.jobs[r.job].status)) else s
  {
  }

  lemma CheckMove(s: Sys, k: nat)
    requires k < |s.submitters| && s.submitters[k].Loaded? && s.submitters[k].result.job < |s.db.jobs|
    ensures var x := s.submitters[k];
            Next(s, Check(k))
            == SetSubmitter(s, k, if CheckAnswer(s.db, x.result, x.status).Proceed? then Passed(x.result) else NoCall)
  {
  }

  lemma InsertMove(s: Sys, k: nat)
    requires k < |s.submitters| && s.submitters[k].Passed?
    requires !Blocked(s.submitters, s.submitters[k].result.job) && !HasInvocation(s.db.invocations, s.submitters[k].result.job)
    ensures var r := s.submitters[k].result;
            Next(s, Insert(k)) == SetSubmitter(s, k, if Repeats(r.claims) then NoCall else Inserted(r))
  {
  }

  lemma SubmitMove(s: Sys, k: nat)
    requires k < |s.submitters| && s.submitters[k].Inserted? && s.submitters[k].result.job < |s.db.jobs|
    ensures var r := s.submitters[k].result;
            Next(s, Submit(k)) == SetSubmitter(s, k, NoCall).(db := Accept(s.db, r), receipts := s.receipts[r.job := FirstReceipt(s.db, r)])
  {
  }

  function FourMoves(s: Sys, k: nat, r: EnrichmentResult): Sys
  {
    Next(Next(Next(Next(s, Load(k, r)), Check(k)), Insert(k)), Submit(k))
  }

  lemma RunOfFour(s: Sys, k: nat, r: EnrichmentResult)
    ensures Run(s, [Load(k, r), Check(k), Insert(k), Submit(k)]) == FourMoves(s, k, r)
  {
    var trace := [Load(k, r), Check(k), Insert(k), Submit(k)];
    assert trace[..3] == [Load(k, r), Check(k), Insert(k)];
    RunOfThree(s, k, r);
  }

  lemma RunOfThree(s: Sys, k: nat, r: EnrichmentResult)
    ensures Run(s, [Load(k, r), Check(k), Insert(k)]) == Next(Next(Next(s, Load(k, r)), Check(k)), Insert(k))
  {
    var trace := [Load(k, r), Check(k), Insert(k)];
    assert trace[..2] == [Load(k, r), Check(k)] && trace[..2][..1] == [Load(k, r)] && [Load(k, r)][..0] == [];
    assert Run(s, [Load(k, r)]) == Next(Run(s, []), Load(k, r));
    assert Run(s, [Load(k, r), Check(k)]) == Next(Run(s, [Load(k, r)]), Check(k));
  }

  /** A refused or answered submission leaves the machine as it is. */
  lemma RefusedMoves(s: Sys, k: nat, r: EnrichmentResult)
    requires k < |s.submitters| && s.submitters[k].NoCall? && Terminal(r.status)
    requires LoadAnswer(s.db, r).Proceed? ==> !CheckAnswer(s.db, r, s.db.jobs[r.job].status).Proceed?
    ensures FourMoves(s, k, r) == s
  {
    LoadMove(s, k, r);
    IdleMoves(s, k);
    if LoadAnswer(s.db, r).Proceed? {
      CheckMove(Next(s, Load(k, r)), k);
      assert Next(Next(s, Load(k, r)), Check(k)) == s;
    }
  }

  lemma PassedMoves(s: Sys, k: nat, r: EnrichmentResult)
    requires k < |s.submitters| && s.submitters[k].NoCall? && Terminal(r.status) && !Blocked(s.submitters, r.job)
    requires LoadAnswer(s.db, r).Proceed? && CheckAnswer(s.db, r, s.db.jobs[r.job].status).Proceed?
    ensures FourMoves(s, k, r)
            == if Repeats(r.claims) then s
               else s.(db := Accept(s.db, r), receipts := s.receipts[r.job := FirstReceipt(s.db, r)])
  {
    var s1 := Next(s, Load(k, r));
    LoadMove(s, k, r);
    CheckMove(s1, k);
    var s2 := Next(s1, Check(k));
    InsertMove(s2, k);
    var s3 := Next(s2, Insert(k));
    assert s.submitters[k := NoCall] == s.submitters;
    if Repeats(r.claims) {
      IdleMoves(s3, k);
    } else {
      SubmitMove(s3, k);
    }
  }

  /** It is four moves of the machine, which accept exactly what is acceptable and write exactly that. */
  lemma SubmissionIsFourMoves(s: Sys, k: nat, r: EnrichmentResult)
    requires k < |s.submitters| && s.submitters[k].NoCall? && Terminal(r.status) && !Blocked(s.submitters, r.job)
    ensures var t := Run(s, [Load(k, r), Check(k), Insert(k), Submit(k)]);
            && t.db == Submission(s.db, r).0 && t.submitters == s.submitters
            && (Submission(s.db, r).1.Receipted? && Submission(s.db, r).1.receipt.accepted ==>
                  r.job in t.receipts && t.receipts[r.job] == Submission(s.db, r).1.receipt)
            && AnswersRightly(s.db, r, Submission(s.db, r).1)
            && (if Acceptable(s.db, r) then Recorded(s.db, r, t.db, t.receipts[r.job]) else t.db == s.db)
  {
    RunOfFour(s, k, r);
    SubmissionMeaning(s.db, r);
    if LoadAnswer(s.db, r).Proceed? && CheckAnswer(s.db, r, s.db.jobs[r.job].status).Proceed? {
      PassedMoves(s, k, r);
    } else {
      RefusedMoves(s, k, r);
    }
  }

  /** The job waits to be handed out, is due, and no open transaction holds it. */
  predicate Due(jobs: seq<Job>, locked: set<nat>, now: int, j: nat)
    requires j < |jobs|
  {
    (jobs[j].status == Pending || jobs[j].status == RetryWait) && jobs[j].availableAt <= now && j !in locked
  }

  /** Of the jobs that are due, the one due longest, and the oldest among equals; none only if none is due. */
  ghost predicate LongestWaiting(jobs: seq<Job>, locked: set<nat>, now: int, next: Option<nat>)
  {
    match next
    case None => forall j :: 0 <= j < |jobs| ==> !Due(jobs, locked, now, j)
    case Some(n) =>
      && n < |jobs| && Due(jobs, locked, now, n)
      && forall j :: 0 <= j < |jobs| && Due(jobs, locked, now, j) ==>
           jobs[n].availableAt < jobs[j].availableAt || (jobs[n].availableAt == jobs[j].availableAt && n <= j)
  }

  // ------------------------------------------------------------- every job can be completed

  /** What the result contract demands: claims exactly with success, few enough, and no network on the local route. */
  predicate ContractOk(r: EnrichmentResult)
  {
    && (r.status == Succeeded || r.status == Abstained || r.status == Failed)
    && (r.status == Succeeded <==> r.claims != []) && |r.claims| <= 16
    && (forall k :: 0 <= k < |r.claims| ==> 1 <= |r.claims[k].evidence| <= 16)
    && (r.route == LocalOnly ==> !r.networkUsed)
  }

  lemma {:induction false} Listing(items: set<nat>) returns (list: seq<nat>)
    ensures |list| == |items| && Distinct(list) && forall e :: e in list <==> e in items
  {
    if items == {} {
      list := [];
    } else {
      var e :| e in items;
      var rest := Listing(items - {e});
      DistinctMore(rest, e);
      list := rest + [e];
    }
  }

  /** A result that cites all that the job grants. */
  lemma FullResult(job: Job, j: nat) returns (r: EnrichmentResult)
    requires 1 <= |job.grants| <= 16
    ensures ContractOk(r) && r.job == j && r.key == job.key && r.route == job.route && !r.networkUsed
    ensures (forall e :: Cites(r, e) <==> e in job.grants) && !CitesTwice(r)
  {
    var list := Listing(job.grants);
    r := EnrichmentResult(j, job.key, Succeeded, [WireClaim("caption", list)], job.route, false);
    forall e ensures Cites(r, e) <==> e in job.grants {
      if e in list {
        var i :| 0 <= i < |list| && list[i] == e;
        assert r.claims[0].evidence[i] == e;
      }
    }
  }

  /**
   * In every run, a job that was handed out and not decided can be completed: unless another submission
   * is about to commit for it, some result that keeps the contract and cites all of the job's grants
   * is accepted, leaves the job terminal, and has its evidence stored. Job contracts grant 1 to 16 items.
   */
  lemma HandedOutCanComplete(s0: Sys, moves: seq<Move>, j: nat, k: nat) returns (r: EnrichmentResult)
    requires Start(s0)
    requires var s := Run(s0, moves);
             && s.handed[j] > 0 && j < |s.db.jobs| && 1 <= |s.db.jobs[j].grants| <= 16
             && (forall i :: 0 <= i < |s.db.invocations| ==> s.db.invocations[i].job != j)
             && !Blocked(s.submitters, j) && k < |s.submitters| && s.submitters[k].NoCall?
    ensures ContractOk(r) && r.job == j
    ensures var s := Run(s0, moves);
            var t := Run(s, [Load(k, r), Check(k), Insert(k), Submit(k)]);
            && Acceptable(s.db, r) && |t.db.jobs| == |s.db.jobs| && t.db.jobs[j].status == Succeeded
            && |t.db.invocations| == |s.db.invocations| + 1 && t.db.invocations[|s.db.invocations|].job == j
            && forall e: nat :: (|s.db.invocations|, e) in t.db.invocationEvidence <==> e in s.db.jobs[j].grants
  {
    RunKeeps(s0, moves);
    var s := Run(s0, moves);
    r := FullResult(s.db.jobs[j], j);
    assert s.db.jobs[j].status == Running;
    FullGranted(s.db, r);
    SubmissionMeaning(s.db, r);
    SubmissionIsFourMoves(s, k, r);
    NoEvidenceYet(s.db);
  }

  lemma FullGranted(db: Db, r: EnrichmentResult)
    requires r.job < |db.jobs| && forall e :: Cites(r, e) <==> e in db.jobs[r.job].grants
    ensures Granted(db, r)
  {
    forall k, i | 0 <= k < |r.claims| && 0 <= i < |r.claims[k].evidence| ensures Cites(r, r.claims[k].evidence[i]) {
    }
  }

  lemma NoEvidenceYet(db: Db)
    requires ClaimsOk(db)
    ensures forall e: nat :: (|db.invocations|, e) !in db.invocationEvidence
  {
  }

  class ProcessorDatabase {
    var jobs: seq<Job>
    var invocations: seq<Invocation>
    var claims: seq<ClaimRow>
    var claimEvidence: set<(nat, nat)>
    var invocationEvidence: set<(nat, nat)>

    function Value(): Db
      reads this
    {
      Db(jobs, invocations, claims, claimEvidence, invocationEvidence)
    }
  }

  class Processor {
    const db: ProcessorDatabase

    constructor (db: ProcessorDatabase)
      ensures this.db == db
    {
      this.db := db;
    }

    /** Claim the job that has been available longest among those no open transaction has locked. */
    method NextJob(now: int, locked: set<nat>) returns (next: Option<nat>)
      modifies db`jobs
      ensures next == ProcessorJobs.NextJob(old(db.jobs), locked, now, |old(db.jobs)|)
      ensures db.jobs == if next.None? then old(db.jobs) else HandOut(old(db.jobs), next.value)
      ensures LongestWaiting(old(db.jobs), locked, now, next)
      ensures next.Some? ==>
                && |db.jobs| == |old(db.jobs)| && (forall j :: 0 <= j < |db.jobs| && j != next.value ==> db.jobs[j] == old(db.jobs)[j])
                && db.jobs[next.value] == old(db.jobs)[next.value].(status := Running, attempts := old(db.jobs)[next.value].attempts + 1)
    {
      next := ProcessorJobs.NextJob(db.jobs, locked, now, |db.jobs|);
      if next.None? {
        return next;
      }
      var job := db.jobs[next.value];
      job := job.(status := Running);
      job := job.(attempts := job.attempts + 1);
      db.jobs := db.jobs[next.value := job];
    }

    /** One claim with its links; a repeated link violates a primary key. */
    method AddClaim(claim: WireClaim, invocation: nat) returns (id: nat, failed: bool)
      requires forall pair :: pair in db.claimEvidence ==> pair.0 < |db.claims|
      modifies db`claims, db`claimEvidence
      ensures id == |old(db.claims)| && db.claims == old(db.claims) + [ClaimRow(invocation, claim.text)]
      ensures failed <==> !Distinct(claim.evidence)
      ensures !failed ==> db.claimEvidence == old(db.claimEvidence) + Links(id, claim.evidence)
    {
      id, failed := |db.claims|, false;
      db.claims := db.claims + [ClaimRow(invocation, claim.text)];
      for i := 0 to |claim.evidence|
        invariant db.claims == old(db.claims) + [ClaimRow(invocation, claim.text)] && !failed
        invariant Distinct(claim.evidence[..i])
        invariant db.claimEvidence == old(db.claimEvidence) + Links(id, claim.evidence[..i])
      {
        var link := (id, claim.evidence[i]);
        assert claim.evidence[..i + 1] == claim.evidence[..i] + [claim.evidence[i]];
        LinksMore(id, claim.evidence[..i], claim.evidence[i]);
        if link in db.claimEvidence {
          assert claim.evidence[i] in claim.evidence[..i];
          return id, true;
        }
        db.claimEvidence := db.claimEvidence + {link};
      }
      assert claim.evidence[..|claim.evidence|] == claim.evidence;
    }

    /** The claims of a result, up to the first that fails. */
    method AddClaims(claims: seq<WireClaim>, invocation: nat) returns (ids: set<nat>, failed: bool)
      requires forall pair :: pair in db.claimEvidence ==> pair.0 < |db.claims|
      modifies db`claims, db`claimEvidence
      ensures failed <==> Repeats(claims)
      ensures !failed ==>
                && ids == Range(|old(db.claims)|, |claims|)
                && db.claims == old(db.claims) + NewClaims(claims, invocation)
                && db.claimEvidence == old(db.claimEvidence) + ClaimLinks(claims, |old(db.claims)|)
    {
      ids, failed := {}, false;
      ghost var from := |db.claims|;
      for k := 0 to |claims|
        invariant !failed && !Repeats(claims[..k]) && ids == Range(from, k)
        invariant db.claims == old(db.claims) + NewClaims(claims[..k], invocation)
        invariant db.claimEvidence == old(db.claimEvidence) + ClaimLinks(claims[..k], from)
        invariant forall pair :: pair in db.claimEvidence ==> pair.0 < |db.claims|
      {
        var id;
        assert claims[..k + 1] == claims[..k] + [claims[k]];
        ClaimLinksMore(claims[..k], claims[k], from);
        id, failed := AddClaim(claims[k], invocation);
        if failed {
          return;
        }
        ids := ids + {id};
      }
      assert claims[..|claims|] == claims;
    }

    /** Accept the first result of a running job, or answer what became of it. */
    method SubmitResult(r: EnrichmentResult) returns (answer: Answer)
      requires forall pair :: pair in db.claimEvidence ==> pair.0 < |db.claims|
      modifies db
      ensures (db.Value(), answer) == Submission(old(db.Value()), r)
      ensures AnswersRightly(old(db.Value()), r, answer)
      ensures if Acceptable(old(db.Value()), r) then Recorded(old(db.Value()), r, db.Value(), answer.receipt)
              else db.Value() == old(db.Value())
    {
      SubmissionMeaning(db.Value(), r);
      if r.job >= |db.jobs| {
        return NotFound;
      }
      var job := db.jobs[r.job];
      if r.key != job.key {
        return Mismatch;
      }
      var checked := CheckAnswer(db.Value(), r, job.status);
      if !checked.Proceed? {
        return checked;
      }
      var before := db.Value();
      var submitted := Submitted(r.claims);
      var invocation := |db.invocations|;
      db.invocations := db.invocations + [Invocation(r.job, r.status, r.route, r.networkUsed)];
      var ids, failed := AddClaims(r.claims, invocation);
      if failed {
        db.invocations, db.claims, db.claimEvidence := before.invocations, before.claims, before.claimEvidence;
        return IntegrityError;
      }
      db.invocationEvidence := db.invocationEvidence + Pairs(invocation, submitted);
      db.jobs := db.jobs[r.job := job.(status := r.status)];
      return Receipted(Receipt(r.job, r.status, true, ids, submitted));
    }
  }

  function Links(claim: nat, evidence: seq<nat>): set<(nat, nat)>
  {
    set i | 0 <= i < |evidence| :: (claim, evidence[i])
  }

  lemma LinksMore(claim: nat, evidence: seq<nat>, e: nat)
    ensures Links(claim, evidence + [e]) == Links(claim, evidence) + {(claim, e)}
    ensures (claim, e) in Links(claim, evidence) <==> e in evidence
  {
    var more := evidence + [e];
    forall pair ensures pair in Links(claim, more) <==> pair in Links(claim, evidence) + {(claim, e)} {
      if pair in Links(claim, evidence) {
        var i :| 0 <= i < |evidence| && pair == (claim, evidence[i]);
        assert more[i] == evidence[i];
      }
      assert more[|evidence|] == e;
    }
  }

  lemma ClaimLinksMore(claims: seq<WireClaim>, claim: WireClaim, from: nat)
    ensures ClaimLinks(claims + [claim], from) == ClaimLinks(claims, from) + Links(from + |claims|, claim.evidence)
  {
    var more := claims + [claim];
    forall pair ensures pair in ClaimLinks(more, from) <==> pair in ClaimLinks(claims, from) + Links(from + |claims|, claim.evidence) {
      if pair in ClaimLinks(claims, from) {
        var k, i :| 0 <= k < |claims| && 0 <= i < |claims[k].evidence| && pair == (from + k, claims[k].evidence[i]);
        assert more[k] == claims[k];
      }
      if pair in Links(from + |claims|, claim.evidence) {
        var i :| 0 <= i < |claim.evidence| && pair == (from + |claims|, claim.evidence[i]);
        assert more[|claims|].evidence[i] == claim.evidence[i];
      }
    }
  }
}
