/** Exporting, loading and replaying a source through the shadow sink, against the decisions of its life. */
module ReplayHistory {
  import opened Common
  import opened Ordering
  import opened SourceKeys
  import opened Alerts
  import opened ReplayBundle
  import opened ReplayEngine
  import P = PipelineState
  import Records

  /** A stored observation with the stationary flags of its observed objects. */
  datatype Stored = Stored(event: ReplayBundle.Event, stationary: seq<Option<bool>>)

  /** The fact the live handler evaluates. */
  function LiveFact(x: Stored): Fact
  {
    Fact(x.event.kind, x.event.lifecycle, x.event.labels, x.event.zones, x.stationary)
  }

  function EventsOf(stored: seq<Stored>): seq<ReplayBundle.Event>
  {
    seq(|stored|, i requires 0 <= i < |stored| => stored[i].event)
  }

  /** What the shadow sink evaluates when an export of the source is loaded and replayed. */
  function Replayed(c: Codec, q: Request, sources: seq<Source>, stored: seq<Stored>, policy: Policy, runId: Uuid, clock: Option<int>)
    : Result<seq<Evaluation>, LoadError>
    requires RequestError(q, sources).None?
  {
    var x := Export(c, q, sources, EventsOf(stored)).value;
    match Load(c, Files(false, Some(x.manifestFile), Some(x.eventsFile)))
    case Err(e) => Err(e)
    case Ok(b) => Ok(Evaluations(policy, Envelopes(b, runId, clock)))
  }

  /** Observation by observation, replay evaluates what is left of the policy without its stationarity rules. */
  lemma ReplayEvaluates(c: Codec, q: Request, sources: seq<Source>, stored: seq<Stored>, policy: Policy,
                        runId: Uuid, clock: Option<int>, i: nat, x: Stored)
    requires Faithful(c) && RequestError(q, sources).None?
    requires WithinLimits(c, Export(c, q, sources, EventsOf(stored)).value, Selected(q, EventsOf(stored)))
    requires i < |Selected(q, EventsOf(stored))| && x in stored && x.event == Selected(q, EventsOf(stored))[i].event
    ensures var replayed := Replayed(c, q, sources, stored, policy, runId, clock);
            var live := Evaluate(policy, LiveFact(x));
            var winner := Winner(policy, LiveFact(x));
            && replayed.Ok? && |replayed.value| == |Selected(q, EventsOf(stored))|
            && replayed.value[i].(trace := []) == Evaluate(WithoutStationarity(policy), LiveFact(x)).(trace := [])
            && (winner.None? || !NeedsStationarity(winner.value) ==> replayed.value[i].(trace := []) == live.(trace := []))
            && (Winner(policy, ReplayedFact(x.event)) == winner <==> winner.None? || !NeedsStationarity(winner.value))
  {
    LoadOfExport(c, q, sources, EventsOf(stored));
    assert ReplayedFact(x.event) == WithoutObjects(LiveFact(x));
    ReplayIsReducedPolicy(policy, LiveFact(x));
    ReplayKeepsWinnerIff(policy, LiveFact(x));
  }

  /** These are the observations of the database the handlers worked on. */
  ghost predicate Recorded(db: P.Db, stored: seq<Stored>)
  {
    && |stored| == |db.observations|
    && forall o :: 0 <= o < |stored| ==>
         && db.observations[o].fact.eventKind == stored[o].event.kind && db.observations[o].fact.lifecycle == stored[o].event.lifecycle
         && db.observations[o].fact.labels == stored[o].event.labels && db.observations[o].fact.zones == stored[o].event.zones
         && db.observations[o].fact.stationary == stored[o].stationary
  }

  /**
   * Take any run of the event path, with crashes anywhere, and any decision stored in it. Exporting,
   * loading and replaying gives the decided observation the stored outcome and reasons, under the same
   * policy, unless the winning rule looks at stationarity; it finds the winning rule again exactly if that
   * does not. In any case it gives what the policy without its stationarity rules gives. Clock and run do
   * not matter.
   */
  lemma ReplayAgreesWithHistory(c: Codec, q: Request, sources: seq<Source>, stored: seq<Stored>, runId: Uuid, clock: Option<int>,
                                config: P.Config, s0: P.Sys, moves: seq<P.Move>, o: nat, d: nat, i: nat)
    requires Faithful(c) && RequestError(q, sources).None?
    requires WithinLimits(c, Export(c, q, sources, EventsOf(stored)).value, Selected(q, EventsOf(stored)))
    requires P.Start(s0) && Recorded(P.Run(config, s0, moves).db, stored)
    requires d < |P.Run(config, s0, moves).db.decisions| && o < |stored| && P.Run(config, s0, moves).db.decisions[d].obs == o
    requires i < |Selected(q, EventsOf(stored))| && stored[o].event == Selected(q, EventsOf(stored))[i].event
    ensures var replayed := Replayed(c, q, sources, stored, config.policy, runId, clock);
            var decision := P.Run(config, s0, moves).db.decisions[d];
            var fact := LiveFact(stored[o]);
            var winner := Winner(config.policy, fact);
            && replayed.Ok? && |replayed.value| == |Selected(q, EventsOf(stored))|
            && (winner.None? || !NeedsStationarity(winner.value) ==>
                  replayed.value[i].outcome == decision.outcome && replayed.value[i].reasons == decision.reasons)
            && (Winner(config.policy, ReplayedFact(stored[o].event)) == winner
                <==> winner.None? || !NeedsStationarity(winner.value))
            && replayed.value[i].(trace := []) == Evaluate(WithoutStationarity(config.policy), fact).(trace := [])
  {
    Records.RunLinked(config, s0, moves);
    var db := P.Run(config, s0, moves).db;
    assert Records.DecisionLinked(config.policy, db, d);
    ReplayEvaluates(c, q, sources, stored, config.policy, runId, clock, i, stored[o]);
  }

  /** Every wanted observation is replayed, unless the manifest says that the export was cut short. */
  lemma EveryObservationIsReplayed(c: Codec, q: Request, sources: seq<Source>, stored: seq<Stored>, x: Stored)
    requires RequestError(q, sources).None? && x in stored && Wanted(q, x.event)
    requires !Export(c, q, sources, EventsOf(stored)).value.manifest.truncated
    ensures exists i :: 0 <= i < |Selected(q, EventsOf(stored))| && Selected(q, EventsOf(stored))[i].event == x.event
  {
    var events := EventsOf(stored);
    ExportSelects(c, q, sources, events);
    FilterMembers(e => Wanted(q, e), events);
    var k :| 0 <= k < |stored| && stored[k] == x;
    assert events[k] == x.event && x.event in events;
    var ordered := Matching(q, events);
    SortMembers(EventLe, Filter(e => Wanted(q, e), events));
    assert x.event in ordered;
    var i :| 0 <= i < |ordered| && ordered[i] == x.event;
    assert |ordered| == |multiset(ordered)|;
    assert Selected(q, events)[i].event == ordered[i];
  }

  // ------------------------------------------------------------- the community policy

  const ANY := RuleMatch({}, {}, {}, {}, None, {})

  const PRIORITY_ZONE := Rule("person.priority-zone", 10, Escalate, "person in a priority zone",
                              ANY.(labelsAny := {"person"}, zonesAny := {"porch", "entrance", "perimeter"}))

  const PERSON := Rule("person.detected", 20, Send, "person detected", ANY.(labelsAny := {"person"}))

  const STATIONARY := Rule("stationary.non-person-update", 30, Suppress, "stationary update without a person",
                           ANY.(lifecycles := {"updated"}, allStationary := Some(true), excludeLabels := {"person"}))

  const VEHICLE := Rule("vehicle.detected", 40, Send, "vehicle detected",
                        ANY.(labelsAny := {"car", "truck", "bus", "motorcycle", "bicycle"}))

  const COMMUNITY_POLICY := Policy("community.basic-alerts", "1.1.0", [PRIORITY_ZONE, PERSON, STATIONARY, VEHICLE])

  lemma CommunityOrder()
    ensures Sort(RuleLe, COMMUNITY_POLICY.rules) == COMMUNITY_POLICY.rules
  {
    SortOfSorted(RuleLe, COMMUNITY_POLICY.rules);
  }

  lemma FirstMore(rule: Rule, rest: seq<Rule>, f: Fact)
    ensures FirstMatch([rule] + rest, f) == if Matches(rule, f) then Some(rule) else FirstMatch(rest, f)
  {
    assert ([rule] + rest)[1..] == rest;
  }

  lemma FirstOfFour(a: Rule, b: Rule, c: Rule, d: Rule, f: Fact)
    ensures FirstMatch([a, b, c, d], f)
            == if Matches(a, f) then Some(a) else if Matches(b, f) then Some(b)
               else if Matches(c, f) then Some(c) else if Matches(d, f) then Some(d) else None
  {
    FirstMore(d, [], f);
    FirstMore(c, [d], f);
    FirstMore(b, [c, d], f);
    FirstMore(a, [b, c, d], f);
    assert [d] + [] == [d] && [c] + [d] == [c, d] && [b] + [c, d] == [b, c, d] && [a] + [b, c, d] == [a, b, c, d];
  }

  lemma CommunityMatch(f: Fact)
    ensures Winner(COMMUNITY_POLICY, f)
            == if Matches(PRIORITY_ZONE, f) then Some(PRIORITY_ZONE)
               else if Matches(PERSON, f) then Some(PERSON)
               else if Matches(STATIONARY, f) then Some(STATIONARY)
               else if Matches(VEHICLE, f) then Some(VEHICLE) else None
  {
    CommunityOrder();
    FirstOfFour(PRIORITY_ZONE, PERSON, STATIONARY, VEHICLE, f);
  }

  /** A person somewhere that has priority. */
  predicate PersonInPriorityZone(f: Fact)
  {
    "person" in f.labels && ("porch" in f.zones || "entrance" in f.zones || "perimeter" in f.zones)
  }

  /** An update without a person all of whose objects, and there are some, are known to stand still. */
  predicate StillUpdate(f: Fact)
  {
    && "person" !in f.labels && f.lifecycle == "updated"
    && |f.stationary| > 0 && forall i :: 0 <= i < |f.stationary| ==> f.stationary[i] == Some(true)
  }

  predicate Vehicle(f: Fact)
  {
    "car" in f.labels || "truck" in f.labels || "bus" in f.labels || "motorcycle" in f.labels || "bicycle" in f.labels
  }

  lemma CommunityRules(f: Fact)
    ensures Matches(PRIORITY_ZONE, f) <==> PersonInPriorityZone(f)
    ensures Matches(PERSON, f) <==> "person" in f.labels
    ensures Matches(STATIONARY, f) <==> StillUpdate(f)
    ensures Matches(VEHICLE, f) <==> Vehicle(f)
  {
    MatchMeaning(PRIORITY_ZONE, f);
    MatchMeaning(PERSON, f);
    MatchMeaning(STATIONARY, f);
    MatchMeaning(VEHICLE, f);
    assert "porch" in PRIORITY_ZONE.criteria.zonesAny && "person" in PERSON.criteria.labelsAny;
    assert "updated" in STATIONARY.criteria.lifecycles && "car" in VEHICLE.criteria.labelsAny;
  }

  /** What the community policy does with a fact, in terms of its labels and zones. */
  lemma CommunityOutcomes(f: Fact)
    ensures var outcome := Evaluate(COMMUNITY_POLICY, f).outcome;
            && (outcome == Escalate <==> PersonInPriorityZone(f))
            && (outcome == Suppress <==> StillUpdate(f))
            && (outcome == Send <==>
                  ("person" in f.labels && !PersonInPriorityZone(f)) || ("person" !in f.labels && !StillUpdate(f) && Vehicle(f)))
            && (outcome == NoAction <==> "person" !in f.labels && !StillUpdate(f) && !Vehicle(f))
  {
    CommunityMatch(f);
    CommunityRules(f);
    WinnerIsLeastMatch(COMMUNITY_POLICY, f);
  }

  /** Under the community policy replay tells the same story exactly where nothing was suppressed. */
  lemma CommunityReplay(f: Fact)
    ensures Evaluate(COMMUNITY_POLICY, WithoutObjects(f)).outcome == Evaluate(COMMUNITY_POLICY, f).outcome
            <==> Evaluate(COMMUNITY_POLICY, f).outcome != Suppress
  {
    CommunityMatch(f);
    CommunityMatch(WithoutObjects(f));
    WinnerIsLeastMatch(COMMUNITY_POLICY, f);
    WinnerIsLeastMatch(COMMUNITY_POLICY, WithoutObjects(f));
  }
}
