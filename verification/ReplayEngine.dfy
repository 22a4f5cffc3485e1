/** Replaying a bundle: what is emitted, when, and how long the engine sleeps. */
module ReplayEngine {
  import opened Common
  import opened Ordering
  import opened SourceKeys
  import opened ReplayBundle
  import opened Alerts

  datatype Envelope = Envelope(runId: Uuid, bundleId: (Uuid, Bytes), sequence: nat, replayedAt: int, event: ReplayBundle.Event)

  /** Sleep lengths are in seconds, times in microseconds. */
  function Seconds(micros: int): real { micros as real / 1_000_000.0 }

  function ReplayedAt(records: seq<Record>, i: nat, clock: Option<int>): int
    requires i < |records|
  {
    var at := records[i].event.occurredAt;
    if clock.Some? then clock.value + (at - records[0].event.occurredAt) else at
  }

  /** What a run emits: it depends on the bundle, the run and the clock, not on speed or stepping. */
  function Envelopes(b: Bundle, runId: Uuid, clock: Option<int>): seq<Envelope>
  {
    seq(|b.records|, i requires 0 <= i < |b.records| =>
      Envelope(runId, b.manifest.bundleId, b.records[i].sequence, ReplayedAt(b.records, i, clock), b.records[i].event))
  }

  /** `max(0.0, gap) / speed`, before every event but the first. */
  function Sleep(records: seq<Record>, i: nat, speed: real): real
    requires 0 < i < |records| && speed > 0.0
  {
    var gap := Seconds(records[i].event.occurredAt - records[i - 1].event.occurredAt);
    (if gap < 0.0 then 0.0 else gap) / speed
  }

  function Sleeps(records: seq<Record>, n: nat, speed: real): seq<real>
    requires n <= |records| && speed > 0.0
  {
    if n <= 1 then [] else Sleeps(records, n - 1, speed) + [Sleep(records, n - 1, speed)]
  }

  function Sum(values: seq<real>): real
  {
    if values == [] then 0.0 else Sum(values[..|values| - 1]) + values[|values| - 1]
  }

  // ------------------------------------------------------------- what is emitted

  /** One envelope for each record, in order, of this run and bundle, with number and event as they are. */
  predicate Carries(b: Bundle, runId: Uuid, emitted: seq<Envelope>)
  {
    && |emitted| == |b.records|
    && forall i :: 0 <= i < |emitted| ==>
         && emitted[i].runId == runId && emitted[i].bundleId == b.manifest.bundleId
         && emitted[i].sequence == b.records[i].sequence && emitted[i].event == b.records[i].event
  }

  /** Without a clock an event is replayed at its own time. */
  predicate OwnTimes(b: Bundle, emitted: seq<Envelope>)
    requires |emitted| == |b.records|
  {
    forall i :: 0 <= i < |emitted| ==> emitted[i].replayedAt == b.records[i].event.occurredAt
  }

  /** With a clock the first event is replayed at the clock, and any two as far apart as they occurred. */
  predicate ShiftedTimes(b: Bundle, clock: int, emitted: seq<Envelope>)
    requires |emitted| == |b.records|
  {
    && (emitted != [] ==> emitted[0].replayedAt == clock)
    && forall i, j :: 0 <= i < |emitted| && 0 <= j < |emitted| ==>
         emitted[j].replayedAt - emitted[i].replayedAt == b.records[j].event.occurredAt - b.records[i].event.occurredAt
  }

  lemma EnvelopesMeaning(b: Bundle, runId: Uuid, clock: Option<int>)
    ensures var emitted := Envelopes(b, runId, clock);
            && Carries(b, runId, emitted)
            && (clock.None? ==> OwnTimes(b, emitted)) && (clock.Some? ==> ShiftedTimes(b, clock.value, emitted))
  {
  }

  function Sequences(records: seq<Record>): seq<nat>
  {
    seq(|records|, i requires 0 <= i < |records| => records[i].sequence)
  }

  // ------------------------------------------------------------- time

  /** On a bundle in canonical order, fixed-clock times keep every gap and never go back. */
  lemma ClockKeepsGaps(b: Bundle, runId: Uuid, clock: int, i: nat, j: nat)
    requires Sorted(RecordLe, b.records) && i < j < |b.records|
    ensures var e := Envelopes(b, runId, Some(clock));
            && |e| == |b.records| && e[0].replayedAt == clock && e[i].replayedAt <= e[j].replayedAt
            && e[j].replayedAt - e[i].replayedAt == b.records[j].event.occurredAt - b.records[i].event.occurredAt
            && e[j].sequence == b.records[j].sequence && e[j].event == b.records[j].event
  {
    assert RecordLe(b.records[i], b.records[j]);
  }

  lemma DivideBack(a: real, b: real)
    requires b > 0.0
    ensures a / b * b == a
  {
  }

  /** Event times never go back. */
  predicate Rising(records: seq<Record>)
  {
    forall i, j :: 0 <= i < j < |records| ==> records[i].event.occurredAt <= records[j].event.occurredAt
  }

  lemma CanonicalRises(records: seq<Record>)
    requires Sorted(RecordLe, records)
    ensures Rising(records)
  {
    forall i, j | 0 <= i < j < |records| ensures records[i].event.occurredAt <= records[j].event.occurredAt {
      assert RecordLe(records[i], records[j]);
    }
  }

  lemma SleepIsGap(records: seq<Record>, i: nat, speed: real)
    requires Rising(records) && 0 < i < |records| && speed > 0.0
    ensures Sleep(records, i, speed) * speed == Times(records)[i] - Times(records)[i - 1]
  {
    var gap := Seconds(records[i].event.occurredAt - records[i - 1].event.occurredAt);
    assert gap >= 0.0 && gap == Times(records)[i] - Times(records)[i - 1];
    DivideBack(gap, speed);
  }

  function Times(records: seq<Record>): seq<real>
  {
    seq(|records|, i requires 0 <= i < |records| => Seconds(records[i].event.occurredAt))
  }

  /** Each sleep of a run, scaled back up, is a step of time. */
  lemma {:induction false} SleepsAreSteps(records: seq<Record>, n: nat, speed: real)
    requires Rising(records) && 0 < n <= |records| && speed > 0.0
    ensures StepsOf(Sleeps(records, n, speed), Times(records)[..n], speed)
  {
    if n > 1 {
      SleepsAreSteps(records, n - 1, speed);
      SleepIsGap(records, n - 1, speed);
      var times, slept, sleep := Times(records), Sleeps(records, n - 1, speed), Sleep(records, n - 1, speed);
      assert times[..n] == times[..n - 1] + [times[n - 1]] && times[..n - 1][|slept|] == times[n - 2];
      StepsMore(slept, times[..n - 1], speed, sleep, times[n - 1]);
    }
  }

  lemma StepsMore(values: seq<real>, times: seq<real>, speed: real, value: real, time: real)
    requires StepsOf(values, times, speed) && value * speed == time - times[|values|]
    ensures StepsOf(values + [value], times + [time], speed)
  {
    forall i | 0 <= i < |values + [value]| ensures StepAt(values + [value], times + [time], speed, i) {
      if i < |values| {
        assert StepAt(values, times, speed, i);
      }
    }
  }

  /** `values` are the steps between successive `times`, scaled down by `speed`. */
  predicate StepsOf(values: seq<real>, times: seq<real>, speed: real)
  {
    |times| == |values| + 1 && forall i :: 0 <= i < |values| ==> StepAt(values, times, speed, i)
  }

  predicate StepAt(values: seq<real>, times: seq<real>, speed: real, i: nat)
    requires |times| == |values| + 1 && i < |values|
  {
    values[i] * speed == times[i + 1] - times[i]
  }

  lemma Accumulate(a: real, b: real, speed: real, x: real, y: real, z: real)
    requires a * speed == y - x && b * speed == z - y
    ensures (a + b) * speed == z - x
  {
  }

  lemma {:induction false} StepsTelescope(values: seq<real>, times: seq<real>, speed: real)
    requires StepsOf(values, times, speed)
    ensures Sum(values) * speed == times[|values|] - times[0]
  {
    if values != [] {
      var n := |values| - 1;
      var front, before := values[..n], times[..n + 1];
      forall i | 0 <= i < n ensures StepAt(front, before, speed, i) {
        assert StepAt(values, times, speed, i);
      }
      assert StepAt(values, times, speed, n);
      StepsTelescope(front, before, speed);
      Accumulate(Sum(values[..n]), values[n], speed, times[0], times[n], times[n + 1]);
    }
  }

  /** Scaled back up, the sleeps take as long as it is from one time to another. */
  predicate Spans(slept: seq<real>, speed: real, since: int, until: int)
  {
    Sum(slept) * speed == Seconds(until) - Seconds(since)
  }

  lemma SleepsSpan(records: seq<Record>, speed: real)
    requires Rising(records) && records != [] && speed > 0.0
    ensures Spans(Sleeps(records, |records|, speed), speed, records[0].event.occurredAt, records[|records| - 1].event.occurredAt)
  {
    SleepsAreSteps(records, |records|, speed);
    assert Times(records)[..|records|] == Times(records);
    StepsTelescope(Sleeps(records, |records|, speed), Times(records), speed);
  }

  lemma BundleSpans(b: Bundle, speed: real)
    requires Sorted(RecordLe, b.records) && Describes(b.manifest, b.records) && b.records != [] && speed > 0.0
    ensures b.manifest.first.Some? && b.manifest.last.Some? && Rising(b.records)
    ensures Spans(Sleeps(b.records, |b.records|, speed), speed, b.manifest.first.value, b.manifest.last.value)
  {
    CanonicalRises(b.records);
    SleepsSpan(b.records, speed);
  }

  /**
   * Each sleep of a timed run, scaled back up, is the time between an event and the one before it, or
   * nothing where that goes back; there is none before the first event, and none at all otherwise.
   */
  lemma {:induction false} SleptMeaning(o: Options, records: seq<Record>, n: nat, k: nat)
    requires n <= |records|
    ensures |SleptFor(o, records, n)| == if o.stepping || o.speed <= 0.0 || n == 0 then 0 else n - 1
    ensures k < |SleptFor(o, records, n)| ==>
              var gap := records[k + 1].event.occurredAt - records[k].event.occurredAt;
              SleptFor(o, records, n)[k] * o.speed == if gap > 0 then gap as real / 1_000_000.0 else 0.0
  {
    if !o.stepping && o.speed > 0.0 && n > 1 {
      SleptMeaning(o, records, n - 1, k);
      var gap := Seconds(records[n - 1].event.occurredAt - records[n - 2].event.occurredAt);
      DivideBack(if gap < 0.0 then 0.0 else gap, o.speed);
    }
  }

  /**
   * On every bundle the loader accepts: the sleeps, times the speed, add up to the time between the
   * first and the last event, as the manifest gives it, and the clamp at zero never acts.
   */
  lemma SleepsAddUp(c: Codec, files: Files, speed: real)
    requires Load(c, files).Ok? && speed > 0.0 && Load(c, files).value.records != []
    ensures var b := Load(c, files).value;
            && b.manifest.first.Some? && b.manifest.last.Some? && Rising(b.records)
            && Spans(Sleeps(b.records, |b.records|, speed), speed, b.manifest.first.value, b.manifest.last.value)
  {
    LoadedIsCanonical(c, files);
    BundleSpans(Load(c, files).value, speed);
  }

  // ------------------------------------------------------------- sinks

  datatype Safety = DryRun | TestSink | Production

  /** The sink keeps a running digest, represented by what went into it. */
  class DryRunDigestSink {
    var digest: seq<Envelope>
    var count: nat

    constructor ()
      ensures digest == [] && count == 0
    {
      digest, count := [], 0;
    }

    method Emit(envelope: Envelope)
      modifies this
      ensures digest == old(digest) + [envelope] && count == old(count) + 1
    {
      digest := digest + [envelope];
      count := count + 1;
    }
  }

  datatype SetupError = NegativeSpeed | StepWithSpeed | NaiveClock | UnsafeSink

  datatype Options = Options(runId: Uuid, speed: real, clock: Option<Stamp>, stepping: bool, safety: Safety, allowProduction: bool)

  function SetupProblem(o: Options): Option<SetupError>
  {
    if o.speed < 0.0 then Some(NegativeSpeed)
    else if o.stepping && o.speed > 0.0 then Some(StepWithSpeed)
    else if o.clock.Some? && !o.clock.value.aware then Some(NaiveClock)
    else if o.safety.Production? && !o.allowProduction then Some(UnsafeSink)
    else None
  }

  /** An engine is refused for a negative speed, a timed stepper, a clock without zone, or a live sink not allowed. */
  lemma SetupMeaning(o: Options)
    ensures SetupProblem(o) == Some(NegativeSpeed) <==> o.speed < 0.0
    ensures SetupProblem(o) == Some(StepWithSpeed) <==> o.stepping && o.speed > 0.0
    ensures SetupProblem(o) == Some(NaiveClock) <==>
              o.speed >= 0.0 && !(o.stepping && o.speed > 0.0) && o.clock.Some? && !o.clock.value.aware
    ensures SetupProblem(o).None? <==>
              && o.speed >= 0.0 && (o.stepping ==> o.speed == 0.0) && (o.clock.Some? ==> o.clock.value.aware)
              && (o.safety == Production ==> o.allowProduction)
  {
  }

  function ClockOf(o: Options): Option<int>
  {
    if o.clock.Some? then Some(o.clock.value.at) else None
  }

  /** What a run has slept before its first `n` events. */
  function SleptFor(o: Options, records: seq<Record>, n: nat): seq<real>
    requires n <= |records|
  {
    if !o.stepping && o.speed > 0.0 then Sleeps(records, n, o.speed) else []
  }

  datatype ReplayResult = ReplayResult(runId: Uuid, bundleId: (Uuid, Bytes), emitted: nat, digest: seq<Envelope>)

  class Engine {
    const bundle: Bundle
    const sink: DryRunDigestSink
    const options: Options
    var slept: seq<real>
    var steps: seq<nat>

    constructor (bundle: Bundle, sink: DryRunDigestSink, options: Options)
      requires SetupProblem(options).None?
      ensures this.bundle == bundle && this.sink == sink && this.options == options && slept == [] && steps == []
    {
      this.bundle, this.sink, this.options, slept, steps := bundle, sink, options, [], [];
    }

    /** Wait before an event: ask the stepper, or sleep for the gap to the event before. */
    method Wait(i: nat)
      requires i < |bundle.records|
      modifies this
      ensures steps == if options.stepping then old(steps) + [bundle.records[i].sequence] else old(steps)
      ensures old(slept) == SleptFor(options, bundle.records, i) ==> slept == SleptFor(options, bundle.records, i + 1)
    {
      if options.stepping {
        steps := steps + [bundle.records[i].sequence];
      } else if options.speed > 0.0 && i > 0 {
        slept := slept + [Sleep(bundle.records, i, options.speed)];
      }
    }

    /** The run: its digest is the sink's, whatever the speed and whether stepping or not. */
    method Run() returns (result: ReplayResult)
      requires slept == [] && steps == []
      modifies this, sink
      ensures result.digest == Envelopes(bundle, options.runId, ClockOf(options))
      ensures Carries(bundle, options.runId, result.digest)
      ensures options.clock.None? ==> OwnTimes(bundle, result.digest)
      ensures options.clock.Some? ==> ShiftedTimes(bundle, options.clock.value.at, result.digest)
      ensures sink.digest == old(sink.digest) + result.digest && sink.count == old(sink.count) + |bundle.records|
      ensures result.emitted == |bundle.records| && result.runId == options.runId && result.bundleId == bundle.manifest.bundleId
      ensures slept == SleptFor(options, bundle.records, |bundle.records|)
      ensures steps == if options.stepping then Sequences(bundle.records) else []
    {
      var digest: seq<Envelope> := [];
      var emitted := 0;
      ghost var all := Envelopes(bundle, options.runId, ClockOf(options));
      for i := 0 to |bundle.records|
        invariant digest == all[..i] && emitted == i
        invariant sink.digest == old(sink.digest) + digest && sink.count == old(sink.count) + i
        invariant slept == SleptFor(options, bundle.records, i)
        invariant steps == if options.stepping then Sequences(bundle.records)[..i] else []
      {
        Wait(i);
        var record := bundle.records[i];
        var replayedAt := record.event.occurredAt;
        if options.clock.Some? {
          replayedAt := options.clock.value.at + (record.event.occurredAt - bundle.records[0].event.occurredAt);
        }
        var envelope := Envelope(options.runId, bundle.manifest.bundleId, record.sequence, replayedAt, record.event);
        sink.Emit(envelope);
        digest := digest + [envelope];
        emitted := emitted + 1;
      }
      EnvelopesMeaning(bundle, options.runId, ClockOf(options));
      return ReplayResult(options.runId, bundle.manifest.bundleId, emitted, digest);
    }
  }

  // ------------------------------------------------------------- shadow evaluation

  /** The fact the shadow sink builds from an event: there are no observed objects in it. */
  function ReplayedFact(e: ReplayBundle.Event): Fact
  {
    Fact(e.kind, e.lifecycle, e.labels, e.zones, [])
  }

  /** It judges the event by its kind, lifecycle, labels and zones, as if there were no objects. */
  lemma SinkJudges(policy: Policy, e: ReplayBundle.Event)
    ensures Judged(policy, Fact(e.kind, e.lifecycle, e.labels, e.zones, []), Evaluate(policy, ReplayedFact(e)))
  {
    EvaluateIsJudged(policy, ReplayedFact(e));
  }

  class ShadowDecisionDryRunSink {
    const policy: Policy
    var evaluations: seq<Evaluation>

    constructor (policy: Policy)
      ensures this.policy == policy && evaluations == []
    {
      this.policy, evaluations := policy, [];
    }

    method Emit(envelope: Envelope)
      modifies this
      ensures evaluations == old(evaluations) + [Evaluate(policy, ReplayedFact(envelope.event))]
    {
      var result := EvaluateRules(policy, ReplayedFact(envelope.event));
      evaluations := evaluations + [result];
    }

    /** The envelopes of a run, in their order. */
    method EmitAll(envelopes: seq<Envelope>)
      modifies this
      ensures evaluations == old(evaluations) + Evaluations(policy, envelopes)
    {
      for i := 0 to |envelopes|
        invariant evaluations == old(evaluations) + Evaluations(policy, envelopes)[..i]
      {
        Emit(envelopes[i]);
      }
    }
  }

  function Evaluations(policy: Policy, envelopes: seq<Envelope>): seq<Evaluation>
  {
    seq(|envelopes|, i requires 0 <= i < |envelopes| => Evaluate(policy, ReplayedFact(envelopes[i].event)))
  }
}
