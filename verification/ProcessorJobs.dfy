/** The processor's jobs under any interleaving of pollers and submitters. */
module ProcessorJobs {
  import opened Common

  datatype JobStatus = Pending | RetryWait | Running | Succeeded | Abstained | Failed

  predicate Terminal(s: JobStatus) { s.Succeeded? || s.Abstained? || s.Failed? }

  datatype Route = LocalOnly | CloudRedacted | CloudAllowed

  datatype Job = Job(key: string, grants: set<nat>, route: Route, networkAllowed: bool, availableAt: int,
                     status: JobStatus, attempts: nat)

  datatype Invocation = Invocation(job: nat, status: JobStatus, route: Route, networkUsed: bool)

  datatype ClaimRow = ClaimRow(invocation: nat, text: string)

  /** Rows are ids by their index; the two link tables are sets of pairs, their primary keys. */
  datatype Db = Db(
    jobs: seq<Job>,
    invocations: seq<Invocation>,
    claims: seq<ClaimRow>,
    claimEvidence: set<(nat, nat)>,
    invocationEvidence: set<(nat, nat)>)

  datatype WireClaim = WireClaim(text: string, evidence: seq<nat>)

  /** A result that passed the contract's own validation; its status is one of the terminal ones. */
  datatype EnrichmentResult = EnrichmentResult(
    job: nat, key: string, status: JobStatus, claims: seq<WireClaim>, route: Route, networkUsed: bool)

  datatype Receipt = Receipt(job: nat, status: JobStatus, accepted: bool, claims: set<nat>, evidence: set<nat>)

  datatype Answer = Receipted(receipt: Receipt) | NotFound | Mismatch | NotRunning | OutsideGrant | WrongRoute | NetworkDenied
                  | IntegrityError | Proceed

  // ------------------------------------------------------------- rows

  predicate HasInvocation(invocations: seq<Invocation>, j: nat)
  {
    exists i :: 0 <= i < |invocations| && invocations[i].job == j
  }

  function InvocationOf(invocations: seq<Invocation>, j: nat): (i: nat)
    requires HasInvocation(invocations, j)
    ensures i < |invocations| && invocations[i].job == j
  {
    if invocations[|invocations| - 1].job == j then |invocations| - 1
    else InvocationOf(invocations[..|invocations| - 1], j)
  }

  function ClaimsOf(claims: seq<ClaimRow>, i: nat): set<nat>
  {
    set c | 0 <= c < |claims| && claims[c].invocation == i
  }

  function EvidenceOf(pairs: set<(nat, nat)>, owner: nat): set<nat>
  {
    set pair | pair in pairs && pair.0 == owner :: pair.1
  }

  function Submitted(claims: seq<WireClaim>): set<nat>
  {
    set k, i | 0 <= k < |claims| && 0 <= i < |claims[k].evidence| :: claims[k].evidence[i]
  }

  /** A claim naming one piece of evidence twice violates the primary key of its link table. */
  predicate Repeats(claims: seq<WireClaim>)
  {
    exists k :: 0 <= k < |claims| && !Distinct(claims[k].evidence)
  }

  function ClaimLinks(claims: seq<WireClaim>, from: nat): set<(nat, nat)>
  {
    set k, i | 0 <= k < |claims| && 0 <= i < |claims[k].evidence| :: (from + k, claims[k].evidence[i])
  }

  function NewClaims(claims: seq<WireClaim>, i: nat): seq<ClaimRow>
  {
    seq(|claims|, k requires 0 <= k < |claims| => ClaimRow(i, claims[k].text))
  }

  function Pairs(owner: nat, items: set<nat>): set<(nat, nat)>
  {
    set e | e in items :: (owner, e)
  }

  /** Everything an accepted result writes. */
  function Accept(db: Db, r: EnrichmentResult): Db
    requires r.job < |db.jobs|
  {
    var i := |db.invocations|;
    Db(db.jobs[r.job := db.jobs[r.job].(status := r.status)],
       db.invocations + [Invocation(r.job, r.status, r.route, r.networkUsed)],
       db.claims + NewClaims(r.claims, i),
       db.claimEvidence + ClaimLinks(r.claims, |db.claims|),
       db.invocationEvidence + Pairs(i, Submitted(r.claims)))
  }

  function Range(from: nat, n: nat): set<nat>
  {
    if n == 0 then {} else Range(from, n - 1) + {from + n - 1}
  }

  lemma {:induction false} RangeMembers(from: nat, n: nat)
    ensures forall c: nat :: c in Range(from, n) <==> from <= c < from + n
  {
    if n > 0 {
      RangeMembers(from, n - 1);
    }
  }

  function FirstReceipt(db: Db, r: EnrichmentResult): Receipt
  {
    Receipt(r.job, r.status, true, Range(|db.claims|, |r.claims|), Submitted(r.claims))
  }

  // ------------------------------------------------------------- reads

  predicate Claimable(jobs: seq<Job>, locked: set<nat>, now: int, j: nat)
  {
    j < |jobs| && (jobs[j].status.Pending? || jobs[j].status.RetryWait?) && jobs[j].availableAt <= now && j !in locked
  }

  /** ORDER BY available_at, created_at, id LIMIT 1 FOR UPDATE SKIP LOCKED, over the first `n` rows. */
  function NextJob(jobs: seq<Job>, locked: set<nat>, now: int, n: nat): (next: Option<nat>)
    requires n <= |jobs|
    ensures next.Some? ==> next.value < n && Claimable(jobs, locked, now, next.value)
    ensures forall j: nat :: j < n && Claimable(jobs, locked, now, j) ==>
              next.Some? && jobs[next.value].availableAt <= jobs[j].availableAt
              && (jobs[next.value].availableAt == jobs[j].availableAt ==> next.value <= j)
  {
    if n == 0 then None
    else
      var best := NextJob(jobs, locked, now, n - 1);
      if Claimable(jobs, locked, now, n - 1) && (best.None? || jobs[n - 1].availableAt < jobs[best.value].availableAt)
      then Some(n - 1) else best
  }

  /** Loading the job a result names. */
  function LoadAnswer(db: Db, r: EnrichmentResult): Answer
  {
    if r.job >= |db.jobs| then NotFound
    else if r.key != db.jobs[r.job].key then Mismatch
    else Proceed
  }

  /** The checks after loading; `status` is what the job's row said when it was loaded. */
  function CheckAnswer(db: Db, r: EnrichmentResult, status: JobStatus): Answer
    requires r.job < |db.jobs|
  {
    if HasInvocation(db.invocations, r.job) then
      var i := InvocationOf(db.invocations, r.job);
      Receipted(Receipt(r.job, status, false, ClaimsOf(db.claims, i), EvidenceOf(db.invocationEvidence, i)))
    else if !status.Running? then NotRunning
    else if !(Submitted(r.claims) <= db.jobs[r.job].grants) then OutsideGrant
    else if r.route != db.jobs[r.job].route then WrongRoute
    else if r.networkUsed && !db.jobs[r.job].networkAllowed then NetworkDenied
    else Proceed
  }

  // ------------------------------------------------------------- machine

  datatype Poller = Free | Holding(job: nat)

  datatype Submitter = NoCall
                     | Loaded(result: EnrichmentResult, status: JobStatus)
                     | Passed(result: EnrichmentResult)
                     | Inserted(result: EnrichmentResult)

  /** `handed` and `receipts` record what pollers and first submitters were answered. */
  datatype Sys = Sys(db: Db, pollers: seq<Poller>, submitters: seq<Submitter>, handed: multiset<nat>, receipts: map<nat, Receipt>)

  datatype Move =
    | Create(job: Job)
    | Poll(p: nat, now: int)
    | PollCommit(p: nat)
    | PollAbort(p: nat)
    | Load(s: nat, result: EnrichmentResult)
    | Check(s: nat)
    | Insert(s: nat)
    | Submit(s: nat)
    | SubmitAbort(s: nat)

  function Locked(pollers: seq<Poller>): set<nat>
  {
    set p | 0 <= p < |pollers| && pollers[p].Holding? :: pollers[p].job
  }

  /** Another open transaction has inserted an invocation for the job and not yet ended. */
  predicate Blocked(submitters: seq<Submitter>, j: nat)
  {
    exists s :: 0 <= s < |submitters| && submitters[s].Inserted? && submitters[s].result.job == j
  }

  function HandOut(jobs: seq<Job>, j: nat): seq<Job>
    requires j < |jobs|
  {
    jobs[j := jobs[j].(status := Running, attempts := jobs[j].attempts + 1)]
  }

  function SetSubmitter(s: Sys, k: nat, x: Submitter): Sys
    requires k < |s.submitters|
  {
    s.(submitters := s.submitters[k := x])
  }

  function SetPoller(s: Sys, p: nat, x: Poller): Sys
    requires p < |s.pollers|
  {
    s.(pollers := s.pollers[p := x])
  }

  function DoInsert(s: Sys, k: nat): Sys
  {
    if k >= |s.submitters| || !s.submitters[k].Passed? then s
    else
      var r := s.submitters[k].result;
      if Blocked(s.submitters, r.job) then s
      else if HasInvocation(s.db.invocations, r.job) || Repeats(r.claims) then SetSubmitter(s, k, NoCall)
      else SetSubmitter(s, k, Inserted(r))
  }

  function DoSubmit(s: Sys, k: nat): Sys
  {
    if k >= |s.submitters| || !s.submitters[k].Inserted? || s.submitters[k].result.job >= |s.db.jobs| then s
    else
      var r := s.submitters[k].result;
      SetSubmitter(s, k, NoCall).(db := Accept(s.db, r), receipts := s.receipts[r.job := FirstReceipt(s.db, r)])
  }

  function Next(s: Sys, m: Move): Sys
  {
    match m
    case Create(job) => s.(db := s.db.(jobs := s.db.jobs + [job.(status := Pending, attempts := 0)]))
    case Poll(p, now) =>
      if p >= |s.pollers| || !s.pollers[p].Free? then s
      else
        var next := NextJob(s.db.jobs, Locked(s.pollers), now, |s.db.jobs|);
        if next.None? then s else SetPoller(s, p, Holding(next.value))
    case PollCommit(p) =>
      if p >= |s.pollers| || !s.pollers[p].Holding? || s.pollers[p].job >= |s.db.jobs| then s
      else
        var j := s.pollers[p].job;
        SetPoller(s, p, Free).(db := s.db.(jobs := HandOut(s.db.jobs, j)), handed := s.handed + multiset{j})
    case PollAbort(p) => if p >= |s.pollers| then s else SetPoller(s, p, Free)
    case Load(k, r) =>
      if k >= |s.submitters| || !s.submitters[k].NoCall? || !Terminal(r.status) || !LoadAnswer(s.db, r).Proceed? then s
      else SetSubmitter(s, k, Loaded(r, s.db.jobs[r.job].status))
    case Check(k) =>
      if k >= |s.submitters| || !s.submitters[k].Loaded? || s.submitters[k].result.job >= |s.db.jobs| then s
      else
        var sub := s.submitters[k];
        SetSubmitter(s, k, if CheckAnswer(s.db, sub.result, sub.status).Proceed? then Passed(sub.result) else NoCall)
    case Insert(k) => DoInsert(s, k)
    case Submit(k) => DoSubmit(s, k)
    case SubmitAbort(k) => if k >= |s.submitters| then s else SetSubmitter(s, k, NoCall)
  }

  predicate Start(s: Sys)
  {
    && s.db == Db([], [], [], {}, {}) && s.handed == multiset{} && s.receipts == map[]
    && (forall p :: 0 <= p < |s.pollers| ==> s.pollers[p].Free?)
    && (forall k :: 0 <= k < |s.submitters| ==> s.submitters[k].NoCall?)
  }

  function Run(s: Sys, moves: seq<Move>): Sys
  {
    if moves == [] then s else Next(Run(s, moves[..|moves| - 1]), moves[|moves| - 1])
  }

  // ------------------------------------------------------------- invariant

  ghost predicate PollersOk(s: Sys)
  {
    && (forall p :: 0 <= p < |s.pollers| && s.pollers[p].Holding? ==>
          s.pollers[p].job < |s.db.jobs| && s.db.jobs[s.pollers[p].job].status.Pending?)
    && (forall p, q :: 0 <= p < q < |s.pollers| && s.pollers[p].Holding? && s.pollers[q].Holding? ==>
          s.pollers[p].job != s.pollers[q].job)
  }

  ghost predicate HandedOk(s: Sys)
  {
    && (forall j :: 0 <= j < |s.db.jobs| ==> !s.db.jobs[j].status.RetryWait?)
    && (forall j: nat :: s.handed[j] == if j < |s.db.jobs| && !s.db.jobs[j].status.Pending? then 1 else 0)
    && (forall j :: 0 <= j < |s.db.jobs| ==> s.db.jobs[j].attempts == s.handed[j])
  }

  ghost predicate InvocationsOk(db: Db)
  {
    && (forall i, k :: 0 <= i < k < |db.invocations| ==> db.invocations[i].job != db.invocations[k].job)
    && (forall i :: 0 <= i < |db.invocations| ==>
          db.invocations[i].job < |db.jobs| && Terminal(db.invocations[i].status)
          && db.jobs[db.invocations[i].job].status == db.invocations[i].status
          && Obeys(db.jobs[db.invocations[i].job], db.invocations[i].route, db.invocations[i].networkUsed))
    && (forall j: nat :: j < |db.jobs| && Terminal(db.jobs[j].status) ==> HasInvocation(db.invocations, j))
  }

  /** The privacy policy of a job. */
  predicate Obeys(job: Job, route: Route, networkUsed: bool)
  {
    route == job.route && (networkUsed ==> job.networkAllowed)
  }

  ghost predicate ClaimsOk(db: Db)
  {
    && (forall c :: 0 <= c < |db.claims| ==> db.claims[c].invocation < |db.invocations|)
    && (forall pair :: pair in db.claimEvidence ==> pair.0 < |db.claims|)
    && (forall pair :: pair in db.invocationEvidence ==> pair.0 < |db.invocations|)
  }

  /** Evidence stays inside the job's grants, and an invocation's evidence is that of its claims. */
  ghost predicate GrantsOk(db: Db)
    requires InvocationsOk(db) && ClaimsOk(db)
  {
    && (forall pair :: pair in db.claimEvidence ==>
          pair.1 in db.jobs[db.invocations[db.claims[pair.0].invocation].job].grants
          && (db.claims[pair.0].invocation, pair.1) in db.invocationEvidence)
    && (forall pair :: pair in db.invocationEvidence ==> Backed(db, pair))
  }

  ghost predicate Backed(db: Db, pair: (nat, nat))
  {
    exists c :: 0 <= c < |db.claims| && db.claims[c].invocation == pair.0 && (c, pair.1) in db.claimEvidence
  }

  ghost predicate ReceiptsOk(s: Sys)
  {
    forall i :: 0 <= i < |s.db.invocations| ==>
      var j := s.db.invocations[i].job;
      && j in s.receipts && s.receipts[j].accepted && s.receipts[j].job == j && s.receipts[j].status == s.db.invocations[i].status
      && s.receipts[j].claims == ClaimsOf(s.db.claims, i)
      && s.receipts[j].evidence == EvidenceOf(s.db.invocationEvidence, i)
  }

  /** What a submitter knows still holds, or the job is decided. */
  ghost predicate SubmitterOk(db: Db, x: Submitter)
  {
    !x.NoCall? ==>
      && x.result.job < |db.jobs| && x.result.key == db.jobs[x.result.job].key && Terminal(x.result.status)
      && (x.Loaded? && x.status.Running? ==> !db.jobs[x.result.job].status.Pending?)
      && (x.Loaded? && Terminal(x.status) ==> db.jobs[x.result.job].status == x.status)
      && (x.Passed? || x.Inserted? ==>
            Submitted(x.result.claims) <= db.jobs[x.result.job].grants && !db.jobs[x.result.job].status.Pending?
            && Obeys(db.jobs[x.result.job], x.result.route, x.result.networkUsed))
      && (x.Inserted? ==> !HasInvocation(db.invocations, x.result.job) && !Repeats(x.result.claims))
  }

  ghost predicate SubmittersOk(s: Sys)
  {
    && (forall k :: 0 <= k < |s.submitters| ==> SubmitterOk(s.db, s.submitters[k]))
    && (forall k, l :: 0 <= k < l < |s.submitters| && s.submitters[k].Inserted? && s.submitters[l].Inserted? ==>
          s.submitters[k].result.job != s.submitters[l].result.job)
  }

  ghost predicate RowsOk(db: Db)
  {
    InvocationsOk(db) && ClaimsOk(db) && GrantsOk(db)
  }

  ghost predicate Inv(s: Sys)
  {
    PollersOk(s) && HandedOk(s) && RowsOk(s.db) && ReceiptsOk(s) && SubmittersOk(s)
  }

  lemma StartInv(s: Sys)
    requires Start(s)
    ensures Inv(s)
  {
  }

  lemma CreateKeeps(s: Sys, job: Job)
    requires Inv(s)
    ensures Inv(Next(s, Create(job)))
  {
    var s' := Next(s, Create(job));
    assert forall k :: 0 <= k < |s.submitters| ==> SubmitterOk(s.db, s.submitters[k]) ==> SubmitterOk(s'.db, s.submitters[k]);
    assert forall pair :: Backed(s.db, pair) ==> Backed(s'.db, pair);
  }

  lemma PollKeeps(s: Sys, p: nat, now: int)
    requires Inv(s)
    ensures Inv(Next(s, Poll(p, now)))
  {
    var next := NextJob(s.db.jobs, Locked(s.pollers), now, |s.db.jobs|);
    if p < |s.pollers| && s.pollers[p].Free? && next.Some? {
      forall q | 0 <= q < |s.pollers| && s.pollers[q].Holding? ensures s.pollers[q].job != next.value {
        assert s.pollers[q].job in Locked(s.pollers);
      }
    }
  }

  /** A job that leaves the pending ones changes neither grants nor decisions. */
  lemma HandOutKeeps(s: Sys, p: nat)
    requires Inv(s)
    ensures Inv(Next(s, PollCommit(p)))
  {
    var s' := Next(s, PollCommit(p));
    if s' != s {
      var j := s.pollers[p].job;
      HandOutRows(s.db, s'.db, j);
      forall k | 0 <= k < |s.submitters| ensures SubmitterOk(s'.db, s'.submitters[k]) {
        assert SubmitterOk(s.db, s.submitters[k]);
      }
    }
  }

  lemma HandOutRows(db: Db, db': Db, j: nat)
    requires RowsOk(db) && j < |db.jobs| && db.jobs[j].status.Pending? && db' == db.(jobs := HandOut(db.jobs, j))
    ensures RowsOk(db')
  {
    assert forall pair :: Backed(db, pair) ==> Backed(db', pair);
  }

  lemma SubmitterMoveKeeps(s: Sys, k: nat, x: Submitter)
    requires Inv(s) && k < |s.submitters| && SubmitterOk(s.db, x)
    requires x.Inserted? ==> !Blocked(s.submitters, x.result.job)
    ensures Inv(SetSubmitter(s, k, x))
  {
  }

  lemma LoadKeeps(s: Sys, m: Move)
    requires Inv(s) && (m.Load? || m.Check? || m.Insert? || m.SubmitAbort?)
    ensures Inv(Next(s, m))
  {
    var s' := Next(s, m);
    if s' != s {
      assert SubmitterOk(s.db, s.submitters[m.s]);
      SubmitterMoveKeeps(s, m.s, s'.submitters[m.s]);
    }
  }

  // ------------------------------------------------------------- accepting a result

  lemma SubmittedMembers(claims: seq<WireClaim>, k: nat, i: nat)
    requires k < |claims| && i < |claims[k].evidence|
    ensures claims[k].evidence[i] in Submitted(claims)
  {
  }

  lemma AcceptInvocations(db: Db, r: EnrichmentResult)
    requires InvocationsOk(db) && r.job < |db.jobs| && Terminal(r.status) && !HasInvocation(db.invocations, r.job)
    requires Obeys(db.jobs[r.job], r.route, r.networkUsed)
    ensures InvocationsOk(Accept(db, r))
  {
    var db' := Accept(db, r);
    forall j: nat | j < |db'.jobs| && Terminal(db'.jobs[j].status) ensures HasInvocation(db'.invocations, j) {
      if j == r.job {
        assert db'.invocations[|db.invocations|].job == j;
      } else {
        var i :| 0 <= i < |db.invocations| && db.invocations[i].job == j;
        assert db'.invocations[i].job == j;
      }
    }
  }

  lemma AcceptClaims(db: Db, r: EnrichmentResult)
    requires ClaimsOk(db) && r.job < |db.jobs|
    ensures ClaimsOk(Accept(db, r))
  {
  }

  /** A new link of a claim to evidence, and the same link of its invocation. */
  lemma NewLink(db: Db, r: EnrichmentResult, pair: (nat, nat))
    requires ClaimsOk(db) && r.job < |db.jobs| && pair in ClaimLinks(r.claims, |db.claims|)
    ensures var db' := Accept(db, r);
            && pair.0 < |db'.claims| && db'.claims[pair.0].invocation == |db.invocations|
            && pair.1 in Submitted(r.claims) && (|db.invocations|, pair.1) in db'.invocationEvidence
  {
    var k, i :| 0 <= k < |r.claims| && 0 <= i < |r.claims[k].evidence| && pair == (|db.claims| + k, r.claims[k].evidence[i]);
    SubmittedMembers(r.claims, k, i);
  }

  lemma NewBacked(db: Db, r: EnrichmentResult, e: nat)
    requires ClaimsOk(db) && r.job < |db.jobs| && e in Submitted(r.claims)
    ensures Backed(Accept(db, r), (|db.invocations|, e))
  {
    var k, i :| 0 <= k < |r.claims| && 0 <= i < |r.claims[k].evidence| && e == r.claims[k].evidence[i];
    var db' := Accept(db, r);
    assert (|db.claims| + k, r.claims[k].evidence[i]) in ClaimLinks(r.claims, |db.claims|);
    assert db'.claims[|db.claims| + k].invocation == |db.invocations|;
  }

  lemma OldBacked(db: Db, r: EnrichmentResult, pair: (nat, nat))
    requires r.job < |db.jobs| && Backed(db, pair)
    ensures Backed(Accept(db, r), pair)
  {
    var c :| 0 <= c < |db.claims| && db.claims[c].invocation == pair.0 && (c, pair.1) in db.claimEvidence;
    assert Accept(db, r).claims[c] == db.claims[c];
  }

  ghost predicate ClaimGranted(db: Db, pair: (nat, nat))
    requires InvocationsOk(db) && ClaimsOk(db) && pair in db.claimEvidence
  {
    && pair.1 in db.jobs[db.invocations[db.claims[pair.0].invocation].job].grants
    && (db.claims[pair.0].invocation, pair.1) in db.invocationEvidence
  }

  lemma AcceptRows(db: Db, r: EnrichmentResult)
    requires RowsOk(db) && r.job < |db.jobs| && Terminal(r.status) && !HasInvocation(db.invocations, r.job)
    requires Submitted(r.claims) <= db.jobs[r.job].grants && Obeys(db.jobs[r.job], r.route, r.networkUsed)
    ensures RowsOk(Accept(db, r))
  {
    var db' := Accept(db, r);
    AcceptInvocations(db, r);
    AcceptClaims(db, r);
    forall pair | pair in db'.claimEvidence ensures ClaimGranted(db', pair) {
      if pair in ClaimLinks(r.claims, |db.claims|) {
        NewLink(db, r, pair);
      } else {
        assert ClaimGranted(db, pair);
      }
    }
    forall pair | pair in db'.invocationEvidence ensures Backed(db', pair) {
      if pair in db.invocationEvidence {
        OldBacked(db, r, pair);
      } else {
        NewBacked(db, r, pair.1);
      }
    }
  }

  lemma OldReceipt(db: Db, r: EnrichmentResult, i: nat)
    requires ClaimsOk(db) && r.job < |db.jobs| && i < |db.invocations|
    ensures ClaimsOf(Accept(db, r).claims, i) == ClaimsOf(db.claims, i)
    ensures EvidenceOf(Accept(db, r).invocationEvidence, i) == EvidenceOf(db.invocationEvidence, i)
  {
    var db' := Accept(db, r);
    forall c: nat ensures c in ClaimsOf(db'.claims, i) <==> c in ClaimsOf(db.claims, i) {
      assert c < |db.claims| ==> db'.claims[c] == db.claims[c];
    }
    forall e: nat ensures e in EvidenceOf(db'.invocationEvidence, i) <==> e in EvidenceOf(db.invocationEvidence, i) {
      assert (i, e) in db'.invocationEvidence <==> (i, e) in db.invocationEvidence;
    }
  }

  lemma NewReceipt(db: Db, r: EnrichmentResult)
    requires ClaimsOk(db) && r.job < |db.jobs|
    ensures ClaimsOf(Accept(db, r).claims, |db.invocations|) == Range(|db.claims|, |r.claims|)
    ensures EvidenceOf(Accept(db, r).invocationEvidence, |db.invocations|) == Submitted(r.claims)
  {
    var db', i := Accept(db, r), |db.invocations|;
    RangeMembers(|db.claims|, |r.claims|);
    forall c: nat ensures c in ClaimsOf(db'.claims, i) <==> c in Range(|db.claims|, |r.claims|) {
      assert c < |db.claims| ==> db'.claims[c] == db.claims[c];
    }
    forall e: nat ensures e in EvidenceOf(db'.invocationEvidence, i) <==> e in Submitted(r.claims) {
      assert (i, e) in db'.invocationEvidence <==> e in Submitted(r.claims);
    }
  }

  lemma SubmitReceipts(s: Sys, k: nat)
    requires Inv(s) && DoSubmit(s, k) != s
    ensures ReceiptsOk(DoSubmit(s, k))
  {
    var s' := DoSubmit(s, k);
    var r := s.submitters[k].result;
    assert SubmitterOk(s.db, s.submitters[k]);
    forall i | 0 <= i < |s'.db.invocations|
      ensures var j := s'.db.invocations[i].job;
              && j in s'.receipts && s'.receipts[j].accepted && s'.receipts[j].job == j
              && s'.receipts[j].status == s'.db.invocations[i].status
              && s'.receipts[j].claims == ClaimsOf(s'.db.claims, i)
              && s'.receipts[j].evidence == EvidenceOf(s'.db.invocationEvidence, i)
    {
      if i < |s.db.invocations| {
        OldReceipt(s.db, r, i);
        assert s.db.invocations[i].job != r.job;
      } else {
        NewReceipt(s.db, r);
      }
    }
  }

  /** The job of an inserted invocation is running. */
  lemma InsertedIsRunning(s: Sys, k: nat)
    requires Inv(s) && k < |s.submitters| && s.submitters[k].Inserted?
    ensures s.submitters[k].result.job < |s.db.jobs| && s.db.jobs[s.submitters[k].result.job].status.Running?
  {
    assert SubmitterOk(s.db, s.submitters[k]);
  }

  lemma SubmitSubmitters(s: Sys, k: nat)
    requires Inv(s) && DoSubmit(s, k) != s
    ensures SubmittersOk(DoSubmit(s, k))
  {
    var s' := DoSubmit(s, k);
    var r := s.submitters[k].result;
    InsertedIsRunning(s, k);
    forall l | 0 <= l < |s'.submitters| ensures SubmitterOk(s'.db, s'.submitters[l]) {
      assert SubmitterOk(s.db, s.submitters[l]);
      if l != k && s.submitters[l].Inserted? {
        var j := s.submitters[l].result.job;
        assert j != r.job;
        assert forall i :: 0 <= i < |s'.db.invocations| ==> s'.db.invocations[i].job != j;
      }
    }
  }

  lemma SubmitKeeps(s: Sys, k: nat)
    requires Inv(s)
    ensures Inv(DoSubmit(s, k))
  {
    var s' := DoSubmit(s, k);
    if s' != s {
      assert SubmitterOk(s.db, s.submitters[k]);
      AcceptRows(s.db, s.submitters[k].result);
      InsertedIsRunning(s, k);
      SubmitReceipts(s, k);
      SubmitSubmitters(s, k);
    }
  }

  lemma NextKeeps(s: Sys, m: Move)
    requires Inv(s)
    ensures Inv(Next(s, m))
  {
    if m.Create? {
      CreateKeeps(s, m.job);
    } else if m.Poll? {
      PollKeeps(s, m.p, m.now);
    } else if m.PollCommit? {
      HandOutKeeps(s, m.p);
    } else if m.Submit? {
      SubmitKeeps(s, m.s);
    } else if !m.PollAbort? {
      LoadKeeps(s, m);
    }
  }

  lemma {:induction false} RunKeeps(s0: Sys, moves: seq<Move>)
    requires Start(s0)
    ensures Inv(Run(s0, moves))
  {
    if moves == [] {
      StartInv(s0);
    } else {
      RunKeeps(s0, moves[..|moves| - 1]);
      NextKeeps(Run(s0, moves[..|moves| - 1]), moves[|moves| - 1]);
    }
  }

  // ------------------------------------------------------------- theorems

  /** Each job is handed out at most once, and exactly once when it is no longer pending. */
  lemma HandedOutAtMostOnce(s0: Sys, moves: seq<Move>, j: nat)
    requires Start(s0)
    ensures var s := Run(s0, moves);
            s.handed[j] == if j < |s.db.jobs| && !s.db.jobs[j].status.Pending? then 1 else 0
  {
    RunKeeps(s0, moves);
  }

  /** A job is terminal exactly if it has an invocation; it has one at most, and their statuses are equal. */
  lemma TerminalIffInvocation(s0: Sys, moves: seq<Move>, j: nat)
    requires Start(s0) && j < |Run(s0, moves).db.jobs|
    ensures var db := Run(s0, moves).db;
            && (Terminal(db.jobs[j].status) <==> HasInvocation(db.invocations, j))
            && (HasInvocation(db.invocations, j) ==>
                  db.invocations[InvocationOf(db.invocations, j)].status == db.jobs[j].status)
            && (forall i, k :: 0 <= i < k < |db.invocations| ==> !(db.invocations[i].job == j && db.invocations[k].job == j))
  {
    RunKeeps(s0, moves);
  }

  /**
   * Claims cite granted evidence only, an invocation cites exactly what its claims cite, and it kept to
   * the privacy policy of its job.
   */
  lemma EvidenceIsGranted(s0: Sys, moves: seq<Move>, i: nat, e: nat)
    requires Start(s0) && i < |Run(s0, moves).db.invocations|
    ensures var db := Run(s0, moves).db;
            && db.invocations[i].job < |db.jobs|
            && ((i, e) in db.invocationEvidence <==> Backed(db, (i, e)))
            && Obeys(db.jobs[db.invocations[i].job], db.invocations[i].route, db.invocations[i].networkUsed)
            && ((i, e) in db.invocationEvidence ==> e in db.jobs[db.invocations[i].job].grants)
  {
    RunKeeps(s0, moves);
    var db := Run(s0, moves).db;
    if Backed(db, (i, e)) {
      var c :| 0 <= c < |db.claims| && db.claims[c].invocation == i && (c, e) in db.claimEvidence;
      assert ClaimGranted(db, (c, e));
    }
  }

  /**
   * Once a job is decided, every submission with its id and key changes nothing and is answered with
   * the claims and evidence of the first receipt. Its status is the decided one exactly if the job's row
   * was loaded after the decision; before that it is the status the row still showed.
   */
  lemma LaterSubmissionsGetTheFirstReceipt(s0: Sys, moves: seq<Move>, k: nat)
    requires Start(s0)
    requires var s := Run(s0, moves);
             && k < |s.submitters| && s.submitters[k].Loaded?
             && s.submitters[k].result.job < |s.db.jobs| && HasInvocation(s.db.invocations, s.submitters[k].result.job)
    ensures var s := Run(s0, moves);
            var r := s.submitters[k].result;
            var answer := CheckAnswer(s.db, r, s.submitters[k].status);
            && r.job in s.receipts && answer.Receipted?
            && !answer.receipt.accepted && answer.receipt.job == r.job
            && answer.receipt.claims == s.receipts[r.job].claims && answer.receipt.evidence == s.receipts[r.job].evidence
            && (answer.receipt.status == s.receipts[r.job].status <==> Terminal(s.submitters[k].status))
            && Next(s, Check(k)) == SetSubmitter(s, k, NoCall)
  {
    RunKeeps(s0, moves);
    var s := Run(s0, moves);
    var r := s.submitters[k].result;
    var i := InvocationOf(s.db.invocations, r.job);
    assert SubmitterOk(s.db, s.submitters[k]);
    assert s.db.invocations[i].job == r.job;
  }

  // ------------------------------------------------------------- a decision is for good

  /** What a decided job shows: its invocation with all that hangs on it, and its first receipt. */
  datatype Outcome = Outcome(invocation: Invocation, claims: set<nat>, evidence: set<nat>, receipt: Receipt, status: JobStatus)

  ghost predicate DecidedAs(s: Sys, j: nat, outcome: Outcome)
  {
    && j < |s.db.jobs| && HasInvocation(s.db.invocations, j) && j in s.receipts
    && var i := InvocationOf(s.db.invocations, j);
       outcome == Outcome(s.db.invocations[i], ClaimsOf(s.db.claims, i), EvidenceOf(s.db.invocationEvidence, i),
                          s.receipts[j], s.db.jobs[j].status)
  }

  /** A job has one invocation, so any row of it is the one. */
  lemma TheInvocation(db: Db, j: nat, i: nat)
    requires InvocationsOk(db) && i < |db.invocations| && db.invocations[i].job == j
    ensures HasInvocation(db.invocations, j) && InvocationOf(db.invocations, j) == i
  {
  }

  /** A result for another job adds rows of its own. */
  lemma SubmitOutcome(s: Sys, k: nat, j: nat, outcome: Outcome)
    requires Inv(s) && DecidedAs(s, j, outcome) && DoSubmit(s, k) != s
    ensures DecidedAs(DoSubmit(s, k), j, outcome)
  {
    var s' := DoSubmit(s, k);
    var r, i := s.submitters[k].result, InvocationOf(s.db.invocations, j);
    SubmitKeeps(s, k);
    assert SubmitterOk(s.db, s.submitters[k]);
    assert r.job != j;
    assert s'.db.invocations[i].job == j;
    TheInvocation(s'.db, j, i);
    OldReceipt(s.db, r, i);
  }

  lemma NextOutcome(s: Sys, m: Move, j: nat, outcome: Outcome)
    requires Inv(s) && DecidedAs(s, j, outcome)
    ensures DecidedAs(Next(s, m), j, outcome)
  {
    if m.Submit? && DoSubmit(s, m.s) != s {
      SubmitOutcome(s, m.s, j, outcome);
    } else if m.PollCommit? && m.p < |s.pollers| && s.pollers[m.p].Holding? {
      assert s.db.invocations[InvocationOf(s.db.invocations, j)].job == j;
    }
  }

  /** Waiting to insert for the job, or no longer. */
  predicate PassedOrDone(s: Sys, k: nat, result: EnrichmentResult)
  {
    k < |s.submitters| && (s.submitters[k] == Passed(result) || s.submitters[k].NoCall?)
  }

  lemma NextLoser(s: Sys, m: Move, k: nat, result: EnrichmentResult)
    requires PassedOrDone(s, k, result) && HasInvocation(s.db.invocations, result.job) && !(m.Load? && m.s == k)
    ensures PassedOrDone(Next(s, m), k, result)
  {
  }

  lemma {:induction false} LoserRun(s: Sys, more: seq<Move>, k: nat, result: EnrichmentResult, outcome: Outcome)
    requires Inv(s) && DecidedAs(s, result.job, outcome) && PassedOrDone(s, k, result)
    requires forall i :: 0 <= i < |more| ==> !(more[i].Load? && more[i].s == k)
    ensures Inv(Run(s, more)) && DecidedAs(Run(s, more), result.job, outcome) && PassedOrDone(Run(s, more), k, result)
  {
    if more != [] {
      var front, m := more[..|more| - 1], more[|more| - 1];
      LoserRun(s, front, k, result, outcome);
      NextKeeps(Run(s, front), m);
      NextOutcome(Run(s, front), m, result.job, outcome);
      NextLoser(Run(s, front), m, k, result);
    }
  }

  lemma {:induction false} RunAppend(s: Sys, a: seq<Move>, b: seq<Move>)
    ensures Run(s, a + b) == Run(Run(s, a), b)
  {
    if b == [] {
      assert a + b == a;
    } else {
      RunAppend(s, a, b[..|b| - 1]);
      assert (a + b)[..|a + b| - 1] == a + b[..|b| - 1];
    }
  }

  /**
   * A submitter that passed all checks while another one got the job decided: however the run goes on, it
   * never gets to insert, and what the job shows stays as the winner left it, to the last link.
   */
  lemma LosersWriteNothing(s0: Sys, moves: seq<Move>, more: seq<Move>, k: nat, outcome: Outcome)
    requires Start(s0)
    requires var s := Run(s0, moves);
             && k < |s.submitters| && s.submitters[k].Passed? && DecidedAs(s, s.submitters[k].result.job, outcome)
    requires forall i :: 0 <= i < |more| ==> !(more[i].Load? && more[i].s == k)
    ensures var result := Run(s0, moves).submitters[k].result;
            var t := Run(s0, moves + more);
            PassedOrDone(t, k, result) && DecidedAs(t, result.job, outcome)
  {
    RunKeeps(s0, moves);
    RunAppend(s0, moves, more);
    LoserRun(Run(s0, moves), more, k, Run(s0, moves).submitters[k].result, outcome);
  }
}
