/** The shadow policy: rules, the facts they look at, and the first-match evaluation. */
module Alerts {
  import opened Common
  import opened Ordering

  datatype Outcome = Send | Suppress | Escalate | NoAction

  datatype RuleMatch = RuleMatch(
    eventKinds: set<string>,
    lifecycles: set<string>,
    labelsAny: set<string>,
    zonesAny: set<string>,
    allStationary: Option<bool>,
    excludeLabels: set<string>)

  datatype Rule = Rule(ruleId: string, priority: nat, outcome: Outcome, description: string, criteria: RuleMatch)

  datatype Policy = Policy(policyId: string, version: string, rules: seq<Rule>)

  /** `stationary` lists the observed objects of the observation; a flag can be unknown. */
  datatype Fact = Fact(
    eventKind: string,
    lifecycle: string,
    labels: set<string>,
    zones: set<string>,
    stationary: seq<Option<bool>>)

  datatype Checks = Checks(
    eventKind: bool,
    lifecycle: bool,
    labelsAny: bool,
    zonesAny: bool,
    excludeLabels: bool,
    allStationary: bool)

  datatype RuleTrace = RuleTrace(ruleId: string, priority: nat, matched: bool, checks: Checks)

  datatype Evaluation = Evaluation(
    outcome: Outcome,
    policyId: string,
    policyVersion: string,
    matchedRule: Option<string>,
    reasons: seq<string>,
    trace: seq<RuleTrace>)

  const NO_RULE_MATCHED := "no rule matched"

  predicate StationaryMatches(required: Option<bool>, values: seq<Option<bool>>)
  {
    required.None?
    || (values != []
        && None !in values
        && (if required.value then forall v :: v in values ==> v == Some(true)
            else exists v :: v in values && v == Some(false)))
  }

  function CheckRule(r: Rule, f: Fact): Checks
  {
    var c := r.criteria;
    Checks(
      c.eventKinds == {} || f.eventKind in c.eventKinds,
      c.lifecycles == {} || f.lifecycle in c.lifecycles,
      c.labelsAny == {} || f.labels * c.labelsAny != {},
      c.zonesAny == {} || f.zones * c.zonesAny != {},
      f.labels * c.excludeLabels == {},
      StationaryMatches(c.allStationary, f.stationary))
  }

  predicate Matches(r: Rule, f: Fact)
  {
    var k := CheckRule(r, f);
    k.eventKind && k.lifecycle && k.labelsAny && k.zonesAny && k.excludeLabels && k.allStationary
  }

  function TraceOf(r: Rule, f: Fact): RuleTrace
  {
    RuleTrace(r.ruleId, r.priority, Matches(r, f), CheckRule(r, f))
  }

  predicate RuleLe(a: Rule, b: Rule)
  {
    a.priority < b.priority || (a.priority == b.priority && StrLe(a.ruleId, b.ruleId))
  }

  lemma RuleLeIsPreorder()
    ensures TotalPreorder(RuleLe)
  {
    forall a, b ensures RuleLe(a, b) || RuleLe(b, a) {
      StrLeTotal(a.ruleId, b.ruleId);
    }
    forall a, b, c | RuleLe(a, b) && RuleLe(b, c) ensures RuleLe(a, c) {
      if a.priority == b.priority == c.priority {
        StrLeTransitive(a.ruleId, b.ruleId, c.ruleId);
      }
    }
  }

  /** The first rule of a sorted list that matches. */
  function FirstMatch(rules: seq<Rule>, f: Fact): Option<Rule>
  {
    if rules == [] then None
    else if Matches(rules[0], f) then Some(rules[0])
    else FirstMatch(rules[1..], f)
  }

  /** The rules looked at: up to and including the first match. */
  function Looked(rules: seq<Rule>, f: Fact): seq<Rule>
  {
    if rules == [] then []
    else if Matches(rules[0], f) then [rules[0]]
    else [rules[0]] + Looked(rules[1..], f)
  }

  function Traces(rules: seq<Rule>, f: Fact): seq<RuleTrace>
  {
    seq(|rules|, i requires 0 <= i < |rules| => TraceOf(rules[i], f))
  }

  function Winner(p: Policy, f: Fact): Option<Rule>
  {
    FirstMatch(Sort(RuleLe, p.rules), f)
  }

  function Verdict(p: Policy, winner: Option<Rule>, traces: seq<RuleTrace>): Evaluation
  {
    match winner
    case None => Evaluation(NoAction, p.policyId, p.version, None, [NO_RULE_MATCHED], traces)
    case Some(r) => Evaluation(r.outcome, p.policyId, p.version, Some(r.ruleId), [r.description], traces)
  }

  function Evaluate(p: Policy, f: Fact): Evaluation
  {
    var rules := Sort(RuleLe, p.rules);
    Verdict(p, FirstMatch(rules, f), Traces(Looked(rules, f), f))
  }

  lemma {:induction false} SkipUnmatched(rules: seq<Rule>, i: nat, f: Fact)
    requires i <= |rules| && NoneBefore(rules, i, f)
    ensures FirstMatch(rules, f) == FirstMatch(rules[i..], f)
    ensures Looked(rules, f) == rules[..i] + Looked(rules[i..], f)
  {
    if i == 0 {
      assert rules[0..] == rules;
    } else {
      forall j | 0 <= j < i - 1 ensures !Matches(rules[1..][j], f) {
        assert rules[1..][j] == rules[j + 1];
      }
      SkipUnmatched(rules[1..], i - 1, f);
      assert !Matches(rules[0], f) && rules[1..][i - 1..] == rules[i..];
      assert rules[..i] == [rules[0]] + rules[1..][..i - 1];
    }
  }

  /** The evaluation is that of the least rule met, or of none. */
  ghost predicate Judged(p: Policy, f: Fact, e: Evaluation)
  {
    && e.policyId == p.policyId && e.policyVersion == p.version
    && if forall r :: r in p.rules ==> !Meets(r, f) then
         e.outcome == NoAction && e.matchedRule == None && e.reasons == ["no rule matched"]
       else
         exists w :: w in p.rules && Meets(w, f) && (forall r :: r in p.rules && Meets(r, f) ==> Before(w, r))
                     && e.outcome == w.outcome && e.matchedRule == Some(w.ruleId) && e.reasons == [w.description]
  }

  lemma EvaluateIsJudged(p: Policy, f: Fact)
    ensures Judged(p, f, Evaluate(p, f))
  {
    WinnerIsLeastMatch(p, f);
  }

  /** None of the first `i` sorted rules matches. */
  predicate NoneBefore(rules: seq<Rule>, i: nat, f: Fact)
    requires i <= |rules|
  {
    forall j :: 0 <= j < i ==> !Matches(rules[j], f)
  }

  lemma FoundAt(p: Policy, f: Fact, rules: seq<Rule>, i: nat)
    requires rules == Sort(RuleLe, p.rules) && i < |rules| && NoneBefore(rules, i, f) && Matches(rules[i], f)
    ensures Evaluate(p, f) == Verdict(p, Some(rules[i]), Traces(rules[..i + 1], f))
  {
    SkipUnmatched(rules, i, f);
    assert rules[..i] + [rules[i]] == rules[..i + 1];
  }

  lemma FoundNowhere(p: Policy, f: Fact, rules: seq<Rule>)
    requires rules == Sort(RuleLe, p.rules) && NoneBefore(rules, |rules|, f)
    ensures Evaluate(p, f) == Verdict(p, None, Traces(rules, f))
  {
    SkipUnmatched(rules, |rules|, f);
    assert rules[..|rules|] == rules;
  }

  lemma TracesMore(rules: seq<Rule>, i: nat, f: Fact)
    requires i < |rules|
    ensures Traces(rules[..i + 1], f) == Traces(rules[..i], f) + [TraceOf(rules[i], f)]
  {
  }

  /** The evaluator's loop, with its early return. */
  method EvaluateRules(policy: Policy, fact: Fact) returns (result: Evaluation)
    ensures result == Evaluate(policy, fact) && Judged(policy, fact, result)
  {
    var rules := Sort(RuleLe, policy.rules);
    var traces: seq<RuleTrace> := [];
    EvaluateIsJudged(policy, fact);
    for i := 0 to |rules|
      invariant traces == Traces(rules[..i], fact) && NoneBefore(rules, i, fact)
    {
      var trace := TraceOf(rules[i], fact);
      TracesMore(rules, i, fact);
      traces := traces + [trace];
      if trace.matched {
        FoundAt(policy, fact, rules, i);
        return Evaluation(rules[i].outcome, policy.policyId, policy.version,
                          Some(rules[i].ruleId), [rules[i].description], traces);
      }
    }
    FoundNowhere(policy, fact, rules);
    assert rules[..|rules|] == rules;
    return Evaluation(NoAction, policy.policyId, policy.version, None, [NO_RULE_MATCHED], traces);
  }

  lemma {:induction false} FirstMatchMeaning(rules: seq<Rule>, f: Fact)
    ensures FirstMatch(rules, f).None? ==> forall r :: r in rules ==> !Matches(r, f)
    ensures FirstMatch(rules, f).Some? ==>
              exists i :: 0 <= i < |rules| && rules[i] == FirstMatch(rules, f).value && Matches(rules[i], f)
                          && forall j :: 0 <= j < i ==> !Matches(rules[j], f)
  {
    if rules != [] && !Matches(rules[0], f) {
      FirstMatchMeaning(rules[1..], f);
      if FirstMatch(rules, f).Some? {
        var i :| 0 <= i < |rules[1..]| && rules[1..][i] == FirstMatch(rules[1..], f).value
                 && Matches(rules[1..][i], f) && forall j :: 0 <= j < i ==> !Matches(rules[1..][j], f);
        forall j | 0 <= j < i + 1 ensures !Matches(rules[j], f) {
          if j > 0 {
            assert rules[j] == rules[1..][j - 1];
          }
        }
        assert rules[i + 1] == rules[1..][i];
      }
    }
  }

  /** The objects of an observation meet a demand on stationarity: there are some, and all flags are known. */
  predicate ObjectsMeet(demand: bool, flags: seq<Option<bool>>)
  {
    && |flags| > 0 && (forall i :: 0 <= i < |flags| ==> flags[i].Some?)
    && (if demand then forall i :: 0 <= i < |flags| ==> flags[i] == Some(true)
        else exists i :: 0 <= i < |flags| && flags[i] == Some(false))
  }

  /**
   * What a rule asks of a fact: of each of its four lists the fact has something, unless the list is
   * empty; nothing it excludes; and objects that meet its demand on stationarity, if it has one.
   */
  predicate Meets(r: Rule, f: Fact)
  {
    && (|r.criteria.eventKinds| > 0 ==> exists k :: k in r.criteria.eventKinds && k == f.eventKind)
    && (|r.criteria.lifecycles| > 0 ==> exists l :: l in r.criteria.lifecycles && l == f.lifecycle)
    && (|r.criteria.labelsAny| > 0 ==> exists l :: l in f.labels && l in r.criteria.labelsAny)
    && (|r.criteria.zonesAny| > 0 ==> exists z :: z in f.zones && z in r.criteria.zonesAny)
    && (forall l :: l in r.criteria.excludeLabels ==> l !in f.labels)
    && (r.criteria.allStationary.Some? ==> ObjectsMeet(r.criteria.allStationary.value, f.stationary))
  }

  lemma StationaryMeaning(required: Option<bool>, flags: seq<Option<bool>>)
    ensures StationaryMatches(required, flags) <==> (required.Some? ==> ObjectsMeet(required.value, flags))
  {
    if required.Some? {
      assert None in flags <==> exists i :: 0 <= i < |flags| && flags[i].None?;
      if exists v :: v in flags && v == Some(false) {
        var i :| 0 <= i < |flags| && flags[i] == Some(false);
      }
      if i :| 0 <= i < |flags| && flags[i] == Some(false) {
        assert flags[i] in flags;
      }
      if forall i :: 0 <= i < |flags| ==> flags[i] == Some(true) {
        assert forall v :: v in flags ==> v == Some(true);
      } else {
        var i :| 0 <= i < |flags| && flags[i] != Some(true);
        assert flags[i] in flags;
      }
    }
  }

  lemma CommonElement<T>(a: set<T>, b: set<T>)
    ensures a * b != {} <==> exists x :: x in a && x in b
  {
    if x :| x in a && x in b {
      assert x in a * b;
    }
    if a * b != {} {
      var x :| x in a * b;
    }
  }

  /** Each flag of a trace says of its criterion what the fact has of it, and a rule matches if it is met. */
  lemma MatchMeaning(r: Rule, f: Fact)
    ensures TraceOf(r, f).ruleId == r.ruleId && TraceOf(r, f).priority == r.priority
    ensures TraceOf(r, f).matched <==> Meets(r, f)
    ensures Matches(r, f) <==> Meets(r, f)
    ensures var k := TraceOf(r, f).checks;
            && (k.eventKind <==> |r.criteria.eventKinds| > 0 ==> f.eventKind in r.criteria.eventKinds)
            && (k.lifecycle <==> |r.criteria.lifecycles| > 0 ==> f.lifecycle in r.criteria.lifecycles)
            && (k.labelsAny <==> |r.criteria.labelsAny| > 0 ==> exists l :: l in f.labels && l in r.criteria.labelsAny)
            && (k.zonesAny <==> |r.criteria.zonesAny| > 0 ==> exists z :: z in f.zones && z in r.criteria.zonesAny)
            && (k.excludeLabels <==> forall l :: l in r.criteria.excludeLabels ==> l !in f.labels)
            && (k.allStationary <==>
                  r.criteria.allStationary.Some? ==> ObjectsMeet(r.criteria.allStationary.value, f.stationary))
  {
    CommonElement(f.labels, r.criteria.labelsAny);
    CommonElement(f.zones, r.criteria.zonesAny);
    CommonElement(f.labels, r.criteria.excludeLabels);
    StationaryMeaning(r.criteria.allStationary, f.stationary);
  }

  /** A rule goes before another by priority, and by id among equal priorities. */
  ghost predicate Before(a: Rule, b: Rule)
  {
    a.priority < b.priority || (a.priority == b.priority && AtMost(a.ruleId, b.ruleId))
  }

  lemma RuleLeMeaning(a: Rule, b: Rule)
    ensures RuleLe(a, b) <==> Before(a, b)
  {
    StrLeMeaning(a.ruleId, b.ruleId);
  }

  /**
   * The winner is the least rule that the fact meets, by priority and id; its outcome, id and description
   * are the evaluation's, under the policy's own id and version. Without one, nothing happens.
   */
  lemma WinnerIsLeastMatch(p: Policy, f: Fact)
    ensures Winner(p, f).None? <==> forall r :: r in p.rules ==> !Meets(r, f)
    ensures Winner(p, f).Some? ==>
              var w := Winner(p, f).value;
              w in p.rules && Meets(w, f) && forall r :: r in p.rules && Meets(r, f) ==> Before(w, r)
    ensures var e := Evaluate(p, f);
            && e.policyId == p.policyId && e.policyVersion == p.version
            && match Winner(p, f)
               case None => e.outcome == NoAction && e.matchedRule == None && e.reasons == ["no rule matched"]
               case Some(w) => e.outcome == w.outcome && e.matchedRule == Some(w.ruleId) && e.reasons == [w.description]
  {
    RuleLeIsPreorder();
    var rules := Sort(RuleLe, p.rules);
    SortSorted(RuleLe, p.rules);
    SortMembers(RuleLe, p.rules);
    FirstMatchMeaning(rules, f);
    forall r ensures Matches(r, f) <==> Meets(r, f) {
      MatchMeaning(r, f);
    }
    if Winner(p, f).Some? {
      var w := Winner(p, f).value;
      var i :| 0 <= i < |rules| && rules[i] == w && Matches(rules[i], f)
               && forall j :: 0 <= j < i ==> !Matches(rules[j], f);
      forall r | r in p.rules && Meets(r, f) ensures Before(w, r) {
        var k :| 0 <= k < |rules| && rules[k] == r;
        if k == i {
          StrLeTotal(r.ruleId, r.ruleId);
        }
        RuleLeMeaning(w, r);
      }
    }
  }

  lemma {:induction false} LookedMeaning(rules: seq<Rule>, f: Fact)
    ensures var n := |Looked(rules, f)|;
            && n <= |rules| && Looked(rules, f) == rules[..n]
            && (forall i :: 0 <= i < n - 1 ==> !Matches(rules[i], f))
            && (n < |rules| ==> n > 0 && Matches(rules[n - 1], f))
  {
    if rules != [] && !Matches(rules[0], f) {
      LookedMeaning(rules[1..], f);
      var n := |Looked(rules[1..], f)|;
      assert rules[..n + 1] == [rules[0]] + rules[1..][..n];
      forall i | 0 <= i < n ensures !Matches(rules[i], f) {
        assert i > 0 ==> rules[i] == rules[1..][i - 1];
      }
      assert n < |rules[1..]| ==> rules[n] == rules[1..][n - 1];
    }
  }

  /** The trace lists the rules in their order, each as it fared, up to and including the first one met. */
  lemma TraceTells(p: Policy, f: Fact)
    ensures var rules := Sort(RuleLe, p.rules);
            var trace := Evaluate(p, f).trace;
            && |trace| <= |rules| && multiset(rules) == multiset(p.rules)
            && (forall i, j :: 0 <= i < j < |rules| ==> Before(rules[i], rules[j]))
            && (forall i :: 0 <= i < |trace| ==> trace[i] == TraceOf(rules[i], f))
            && (forall i :: 0 <= i < |trace| - 1 ==> !Meets(rules[i], f))
            && (|trace| < |rules| ==> |trace| > 0 && Meets(rules[|trace| - 1], f))
  {
    var rules := Sort(RuleLe, p.rules);
    RuleLeIsPreorder();
    SortSorted(RuleLe, p.rules);
    SortContents(RuleLe, p.rules);
    LookedMeaning(rules, f);
    forall i, j | 0 <= i < j < |rules| ensures Before(rules[i], rules[j]) {
      RuleLeMeaning(rules[i], rules[j]);
    }
    forall i | 0 <= i < |rules| ensures Matches(rules[i], f) <==> Meets(rules[i], f) {
      MatchMeaning(rules[i], f);
    }
  }

  predicate NeedsStationarity(r: Rule) { r.criteria.allStationary.Some? }

  function WithoutStationarity(p: Policy): Policy
  {
    p.(rules := Filter(r => !NeedsStationarity(r), p.rules))
  }

  /** The fact the replay sink builds: it has no observed objects to look at. */
  function WithoutObjects(f: Fact): Fact { f.(stationary := []) }

  lemma {:induction false} ReplayScan(rules: seq<Rule>, f: Fact)
    ensures FirstMatch(rules, WithoutObjects(f)) == FirstMatch(Filter(r => !NeedsStationarity(r), rules), f)
    ensures Looked(Filter(r => !NeedsStationarity(r), rules), f)
            == Filter(r => !NeedsStationarity(r), Looked(rules, WithoutObjects(f)))
  {
    var keep := (r: Rule) => !NeedsStationarity(r);
    if rules != [] {
      ReplayScan(rules[1..], f);
      var kept := Filter(keep, rules);
      if keep(rules[0]) {
        assert kept[1..] == Filter(keep, rules[1..]);
        assert Matches(rules[0], f) == Matches(rules[0], WithoutObjects(f));
        if !Matches(rules[0], f) {
          var rest := Looked(rules[1..], WithoutObjects(f));
          assert ([rules[0]] + rest)[1..] == rest;
        }
      } else {
        assert !Matches(rules[0], WithoutObjects(f));
        var rest := Looked(rules[1..], WithoutObjects(f));
        assert ([rules[0]] + rest)[1..] == rest;
      }
    }
  }

  /** Re-evaluating without objects is evaluating the policy without its stationarity rules. */
  lemma ReplayIsReducedPolicy(p: Policy, f: Fact)
    ensures var replayed := Evaluate(p, WithoutObjects(f));
            var reduced := Evaluate(WithoutStationarity(p), f);
            replayed.(trace := []) == reduced.(trace := [])
            && Winner(p, WithoutObjects(f)) == Winner(WithoutStationarity(p), f)
  {
    RuleLeIsPreorder();
    FilterSort(RuleLe, r => !NeedsStationarity(r), p.rules);
    ReplayScan(Sort(RuleLe, p.rules), f);
  }

  lemma {:induction false} ReplayWinner(rules: seq<Rule>, f: Fact)
    ensures FirstMatch(rules, WithoutObjects(f)) == FirstMatch(rules, f)
            <==> FirstMatch(rules, f).None? || !NeedsStationarity(FirstMatch(rules, f).value)
  {
    if rules != [] {
      ReplayWinner(rules[1..], f);
      FirstMatchMeaning(rules, WithoutObjects(f));
    }
  }

  /** Replay finds the live winning rule exactly when that rule does not look at stationarity. */
  lemma ReplayKeepsWinnerIff(p: Policy, f: Fact)
    ensures Winner(p, WithoutObjects(f)) == Winner(p, f)
            <==> Winner(p, f).None? || !NeedsStationarity(Winner(p, f).value)
    ensures Winner(p, f).None? || !NeedsStationarity(Winner(p, f).value) ==>
              Evaluate(p, WithoutObjects(f)).(trace := []) == Evaluate(p, f).(trace := [])
  {
    ReplayWinner(Sort(RuleLe, p.rules), f);
  }
}
