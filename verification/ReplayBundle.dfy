/** Replay bundles: what the exporter writes, what the loader accepts, and that they fit. */
module ReplayBundle {
  import opened Common
  import opened Ordering
  import opened SourceKeys

  type Byte = b: int | 0 <= b < 256

  type Bytes = seq<Byte>

  const LF: Byte := 10
  const CR: Byte := 13

  const MAX_MANIFEST_BYTES := 256 * 1024
  const MAX_EVENT_LINE_BYTES := 4 * 1024 * 1024
  const MAX_EVENTS := 100_000
  const MAX_BUNDLE_BYTES := 512 * 1024 * 1024

  /** `rest` holds the fields replay carries along without looking at them. */
  datatype Event = Event(
    id: Uuid, source: Uuid, occurredAt: int, observedAt: int,
    kind: string, lifecycle: string, labels: set<string>, zones: set<string>, rest: string)

  /** A hash is represented by what it was taken of. */
  datatype Record = Record(sequence: nat, digest: Event, event: Event)

  datatype Manifest = Manifest(
    bundleId: (Uuid, Bytes), source: Uuid, sourceType: string, sourceVersion: Option<string>, exportedAt: int,
    eventCount: nat, first: Option<int>, last: Option<int>, eventsHash: Bytes, truncated: bool)

  /** The JSON text of records and manifests, and the models that read it back. */
  datatype Codec = Codec(
    encodeRecord: Record -> Bytes,
    decodeRecord: Bytes -> Option<Record>,
    encodeManifest: Manifest -> Bytes,
    decodeManifest: Bytes -> Option<Manifest>)

  predicate OneLine(line: Bytes)
  {
    LF !in line && CR !in line
  }

  /** JSON escapes control characters, and the models accept what they wrote, with a newline after it. */
  ghost predicate Faithful(c: Codec)
  {
    && (forall r: Record :: OneLine(c.encodeRecord(r)) && c.decodeRecord(c.encodeRecord(r)) == Some(r))
    && (forall m: Manifest :: c.decodeManifest(c.encodeManifest(m) + [LF]) == Some(m))
  }

  // ------------------------------------------------------------- order

  predicate EventLe(a: Event, b: Event)
  {
    a.occurredAt < b.occurredAt
    || (a.occurredAt == b.occurredAt
        && (a.observedAt < b.observedAt || (a.observedAt == b.observedAt && StrLe(a.id, b.id))))
  }

  predicate RecordLe(a: Record, b: Record) { EventLe(a.event, b.event) }

  lemma EventLeIsPreorder()
    ensures TotalPreorder(EventLe)
  {
    forall a, b ensures EventLe(a, b) || EventLe(b, a) {
      StrLeTotal(a.id, b.id);
    }
    forall a, b, c | EventLe(a, b) && EventLe(b, c) ensures EventLe(a, c) {
      if a.occurredAt == b.occurredAt == c.occurredAt && a.observedAt == b.observedAt == c.observedAt {
        StrLeTransitive(a.id, b.id, c.id);
      }
    }
  }

  // ------------------------------------------------------------- framing

  function Join(lines: seq<Bytes>): Bytes
  {
    if lines == [] then [] else lines[0] + [LF] + Join(lines[1..])
  }

  /** The length of the text before the first line end. */
  function LineLength(data: Bytes): (n: nat)
    ensures n <= |data| && OneLine(data[..n]) && (n < |data| ==> data[n] == LF || data[n] == CR)
  {
    if data == [] || data[0] == LF || data[0] == CR then 0 else LineLength(data[1..]) + 1
  }

  /** `bytes.splitlines`: LF, CR and CR LF end a line, and a last line need not be ended. */
  function SplitLines(data: Bytes): seq<Bytes>
    decreases |data|
  {
    if data == [] then []
    else
      var n := LineLength(data);
      if n == |data| then [data]
      else if data[n] == CR && n + 1 < |data| && data[n + 1] == LF then [data[..n]] + SplitLines(data[n + 2..])
      else [data[..n]] + SplitLines(data[n + 1..])
  }

  lemma {:induction false} LineLengthOf(line: Bytes, rest: Bytes)
    requires OneLine(line)
    ensures LineLength(line + [LF] + rest) == |line|
  {
    var data := line + [LF] + rest;
    if line == [] {
      assert data[0] == LF;
    } else {
      assert data[0] == line[0] && line[0] in line;
      assert data[1..] == line[1..] + [LF] + rest;
      LineLengthOf(line[1..], rest);
    }
  }

  /** Splitting undoes joining exactly, for lines without line ends in them. */
  lemma {:induction false} SplitOfJoin(lines: seq<Bytes>)
    requires forall i :: 0 <= i < |lines| ==> OneLine(lines[i])
    ensures SplitLines(Join(lines)) == lines
  {
    if lines != [] {
      var line, rest := lines[0], Join(lines[1..]);
      var data := Join(lines);
      assert data == line + [LF] + rest;
      LineLengthOf(line, rest);
      assert data[|line|] == LF && data[..|line|] == line && data[|line| + 1..] == rest;
      SplitOfJoin(lines[1..]);
    }
  }

  // ------------------------------------------------------------- export

  datatype Stamp = Stamp(at: int, aware: bool)

  datatype Request = Request(
    source: Uuid, exportedAt: Stamp, occurredFrom: Option<Stamp>, occurredTo: Option<Stamp>, limit: int, outputExists: bool)

  datatype Source = Source(id: Uuid, sourceType: string, version: Option<string>)

  datatype ExportError = NaiveTime | BadLimit | BadRange | OutputExists | UnknownSource

  /** The two files of a bundle, and the manifest the exporter returns. */
  datatype Exported = Exported(manifest: Manifest, manifestFile: Bytes, eventsFile: Bytes)

  function FindSource(sources: seq<Source>, id: Uuid): Option<Source>
  {
    if sources == [] then None else if sources[0].id == id then Some(sources[0]) else FindSource(sources[1..], id)
  }

  predicate Aware(t: Option<Stamp>) { t.Some? ==> t.value.aware }

  function RequestError(q: Request, sources: seq<Source>): Option<ExportError>
  {
    if !q.exportedAt.aware || !Aware(q.occurredFrom) || !Aware(q.occurredTo) then Some(NaiveTime)
    else if q.limit < 1 || q.limit > MAX_EVENTS then Some(BadLimit)
    else if q.occurredFrom.Some? && q.occurredTo.Some? && q.occurredFrom.value.at > q.occurredTo.value.at then Some(BadRange)
    else if q.outputExists then Some(OutputExists)
    else if FindSource(sources, q.source).None? then Some(UnknownSource)
    else None
  }

  predicate Wanted(q: Request, e: Event)
  {
    && e.source == q.source
    && (q.occurredFrom.Some? ==> q.occurredFrom.value.at <= e.occurredAt)
    && (q.occurredTo.Some? ==> e.occurredAt <= q.occurredTo.value.at)
  }

  /** WHERE and ORDER BY of the export query. */
  function Matching(q: Request, events: seq<Event>): seq<Event>
  {
    Sort(EventLe, Filter(e => Wanted(q, e), events))
  }

  function First<T>(s: seq<T>, n: nat): seq<T>
  {
    if n <= |s| then s[..n] else s
  }

  function Records(events: seq<Event>): seq<Record>
  {
    seq(|events|, i requires 0 <= i < |events| => Record(i, events[i], events[i]))
  }

  function Lines(c: Codec, records: seq<Record>): seq<Bytes>
  {
    seq(|records|, i requires 0 <= i < |records| => c.encodeRecord(records[i]))
  }

  function ManifestOf(q: Request, source: Source, records: seq<Record>, events: Bytes, truncated: bool): Manifest
  {
    Manifest((source.id, events), source.id, source.sourceType, source.version, q.exportedAt.at, |records|,
             if records == [] then None else Some(records[0].event.occurredAt),
             if records == [] then None else Some(records[|records| - 1].event.occurredAt), events, truncated)
  }

  /** What a valid request exports. */
  function Selected(q: Request, events: seq<Event>): seq<Record>
    requires q.limit >= 0
  {
    Records(First(Matching(q, events), q.limit))
  }

  function Export(c: Codec, q: Request, sources: seq<Source>, events: seq<Event>): Result<Exported, ExportError>
  {
    match RequestError(q, sources)
    case Some(error) => Err(error)
    case None =>
      var records := Selected(q, events);
      var data := Join(Lines(c, records));
      var manifest := ManifestOf(q, FindSource(sources, q.source).value, records, data, |Matching(q, events)| > q.limit);
      Ok(Exported(manifest, c.encodeManifest(manifest) + [LF], data))
  }

  // ------------------------------------------------------------- load

  datatype Bundle = Bundle(manifest: Manifest, records: seq<Record>)

  /** What is in the bundle's directory; a missing file is None. */
  datatype Files = Files(links: bool, manifest: Option<Bytes>, events: Option<Bytes>)

  datatype LoadError =
    | SymbolicLink | Incomplete | ManifestTooLarge | InvalidManifest | BundleIdMismatch | EventsTooLarge
    | HashMismatch | TooManyEvents
    | LineTooLong(line: nat) | InvalidLine(line: nat) | SequenceMismatch(line: nat) | SourceMismatch(line: nat)
    | EventHashMismatch(line: nat)
    | CountMismatch | WrongOrder | FirstTimeMismatch | LastTimeMismatch | EmptyWithTimes

  /** One line of the events file, or what is wrong with it. */
  function LoadLine(c: Codec, m: Manifest, line: Bytes, i: nat): Result<Record, LoadError>
  {
    if |line| > MAX_EVENT_LINE_BYTES then Err(LineTooLong(i))
    else
      match c.decodeRecord(line)
      case None => Err(InvalidLine(i))
      case Some(r) =>
        if r.sequence != i then Err(SequenceMismatch(i))
        else if r.event.source != m.source then Err(SourceMismatch(i))
        else if r.event != r.digest then Err(EventHashMismatch(i))
        else Ok(r)
  }

  /** The lines from `i` on. */
  function LoadLines(c: Codec, m: Manifest, lines: seq<Bytes>, i: nat): Result<seq<Record>, LoadError>
    requires i <= |lines|
    decreases |lines| - i
  {
    if i == |lines| then Ok([])
    else
      match LoadLine(c, m, lines[i], i)
      case Err(e) => Err(e)
      case Ok(r) =>
        match LoadLines(c, m, lines, i + 1)
        case Err(e) => Err(e)
        case Ok(rest) => Ok([r] + rest)
  }

  function CheckRecords(m: Manifest, records: seq<Record>): Result<Bundle, LoadError>
  {
    if |records| != m.eventCount then Err(CountMismatch)
    else if records != [] then
      if records != Sort(RecordLe, records) then Err(WrongOrder)
      else if Some(records[0].event.occurredAt) != m.first then Err(FirstTimeMismatch)
      else if Some(records[|records| - 1].event.occurredAt) != m.last then Err(LastTimeMismatch)
      else Ok(Bundle(m, records))
    else if m.first.Some? || m.last.Some? then Err(EmptyWithTimes)
    else Ok(Bundle(m, records))
  }

  function LoadEvents(c: Codec, m: Manifest, data: Bytes): Result<Bundle, LoadError>
  {
    if |data| > MAX_BUNDLE_BYTES then Err(EventsTooLarge)
    else if data != m.eventsHash then Err(HashMismatch)
    else if |SplitLines(data)| > MAX_EVENTS then Err(TooManyEvents)
    else
      match LoadLines(c, m, SplitLines(data), 0)
      case Err(e) => Err(e)
      case Ok(records) => CheckRecords(m, records)
  }

  function Load(c: Codec, files: Files): Result<Bundle, LoadError>
  {
    if files.links then Err(SymbolicLink)
    else if files.manifest.None? || files.events.None? then Err(Incomplete)
    else if |files.manifest.value| > MAX_MANIFEST_BYTES then Err(ManifestTooLarge)
    else
      match c.decodeManifest(files.manifest.value)
      case None => Err(InvalidManifest)
      case Some(m) =>
        if m.bundleId != (m.source, m.eventsHash) then Err(BundleIdMismatch)
        else LoadEvents(c, m, files.events.value)
  }

  // ------------------------------------------------------------- round trip

  /** The loader's limits, which the exporter does not look at. */
  predicate WithinLimits(c: Codec, x: Exported, records: seq<Record>)
  {
    |x.manifestFile| <= MAX_MANIFEST_BYTES && |x.eventsFile| <= MAX_BUNDLE_BYTES && LinesFit(c, records, 0)
  }

  lemma SelectedShape(q: Request, events: seq<Event>)
    requires q.limit >= 0
    ensures var records := Selected(q, events);
            && |records| <= q.limit
            && (forall i :: 0 <= i < |records| ==>
                  records[i].sequence == i && records[i].digest == records[i].event && records[i].event.source == q.source)
            && Sorted(RecordLe, records) && Sort(RecordLe, records) == records
  {
    var records := Selected(q, events);
    var kept := Filter(e => Wanted(q, e), events);
    EventLeIsPreorder();
    SortSorted(EventLe, kept);
    SortMembers(EventLe, kept);
    FilterMembers(e => Wanted(q, e), events);
    forall i | 0 <= i < |records| ensures records[i].event.source == q.source {
      assert records[i].event == Matching(q, events)[i] && Matching(q, events)[i] in Matching(q, events);
    }
    assert Sorted(RecordLe, records) by {
      forall i, j | 0 <= i < j < |records| ensures RecordLe(records[i], records[j]) {
        assert EventLe(Matching(q, events)[i], Matching(q, events)[j]);
      }
    }
    SortOfSorted(RecordLe, records);
  }

  predicate LinesFit(c: Codec, records: seq<Record>, i: nat)
  {
    forall k :: i <= k < |records| ==> |c.encodeRecord(records[k])| <= MAX_EVENT_LINE_BYTES
  }

  lemma {:induction false} LoadGoodLines(c: Codec, m: Manifest, records: seq<Record>, i: nat)
    requires Faithful(c) && i <= |records|
    requires forall k :: 0 <= k < |records| ==>
               records[k].sequence == k && records[k].digest == records[k].event && records[k].event.source == m.source
    ensures var loaded := LoadLines(c, m, Lines(c, records), i);
            if LinesFit(c, records, i) then loaded == Ok(records[i..]) else loaded.Err?
    decreases |records| - i
  {
    if i < |records| {
      LoadGoodLines(c, m, records, i + 1);
      var line := c.encodeRecord(records[i]);
      assert Lines(c, records)[i] == line && c.decodeRecord(line) == Some(records[i]);
      assert LoadLine(c, m, line, i) == if |line| > MAX_EVENT_LINE_BYTES then Err(LineTooLong(i)) else Ok(records[i]);
      assert [records[i]] + records[i + 1..] == records[i..];
      assert LinesFit(c, records, i) <==> |line| <= MAX_EVENT_LINE_BYTES && LinesFit(c, records, i + 1);
    } else {
      assert records[i..] == [] && LoadLines(c, m, Lines(c, records), i) == Ok([]);
    }
  }

  /** A manifest that describes these records. */
  predicate Describes(m: Manifest, records: seq<Record>)
  {
    && m.eventCount == |records|
    && m.first == (if records == [] then None else Some(records[0].event.occurredAt))
    && m.last == (if records == [] then None else Some(records[|records| - 1].event.occurredAt))
  }

  lemma LoadGoodEvents(c: Codec, m: Manifest, records: seq<Record>)
    requires Faithful(c) && Describes(m, records) && m.eventsHash == Join(Lines(c, records))
    requires |records| <= MAX_EVENTS && Sort(RecordLe, records) == records
    requires forall k :: 0 <= k < |records| ==>
               records[k].sequence == k && records[k].digest == records[k].event && records[k].event.source == m.source
    ensures var loaded := LoadEvents(c, m, m.eventsHash);
            if |m.eventsHash| <= MAX_BUNDLE_BYTES && LinesFit(c, records, 0) then loaded == Ok(Bundle(m, records)) else loaded.Err?
  {
    SplitOfJoin(Lines(c, records));
    LoadGoodLines(c, m, records, 0);
    assert records[0..] == records;
  }

  /**
   * For every store and valid request: loading an export returns the same manifest and records exactly
   * if the files keep within the loader's byte limits, and an error otherwise.
   */
  lemma LoadOfExport(c: Codec, q: Request, sources: seq<Source>, events: seq<Event>)
    requires Faithful(c) && RequestError(q, sources).None?
    ensures var x := Export(c, q, sources, events).value;
            var records := Selected(q, events);
            var loaded := Load(c, Files(false, Some(x.manifestFile), Some(x.eventsFile)));
            if WithinLimits(c, x, records) then loaded == Ok(Bundle(x.manifest, records)) else loaded.Err?
  {
    var x := Export(c, q, sources, events).value;
    var records := Selected(q, events);
    SelectedShape(q, events);
    SourceFound(sources, q.source);
    LoadGoodEvents(c, x.manifest, records);
    assert c.decodeManifest(x.manifestFile) == Some(x.manifest);
    LoadsItsManifest(c, x.manifest, x.manifestFile, x.eventsFile);
  }

  /** Past the checks on files and manifest, loading is reading the events. */
  lemma LoadsItsManifest(c: Codec, m: Manifest, manifestFile: Bytes, data: Bytes)
    requires c.decodeManifest(manifestFile) == Some(m) && m.bundleId == (m.source, m.eventsHash)
    ensures Load(c, Files(false, Some(manifestFile), Some(data)))
            == if |manifestFile| > MAX_MANIFEST_BYTES then Err(ManifestTooLarge) else LoadEvents(c, m, data)
  {
  }

  lemma {:induction false} SourceFound(sources: seq<Source>, id: Uuid)
    ensures FindSource(sources, id).Some? ==> FindSource(sources, id).value.id == id && FindSource(sources, id).value in sources
    ensures FindSource(sources, id).None? ==> forall s :: s in sources ==> s.id != id
  {
    if sources != [] && sources[0].id != id {
      SourceFound(sources[1..], id);
    }
  }

  /**
   * The exported records are the first `limit` wanted observations in canonical order, and the manifest
   * says whether there were more.
   */
  lemma ExportSelects(c: Codec, q: Request, sources: seq<Source>, events: seq<Event>)
    requires RequestError(q, sources).None?
    ensures var manifest := Export(c, q, sources, events).value.manifest;
            var wanted := Filter(e => Wanted(q, e), events);
            var ordered := Matching(q, events);
            var records := Selected(q, events);
            && multiset(ordered) == multiset(wanted) && Sorted(EventLe, ordered)
            && |records| == Min(q.limit, |wanted|) == manifest.eventCount
            && (forall i :: 0 <= i < |records| ==> records[i].event == ordered[i])
            && manifest.truncated == (|wanted| > q.limit)
  {
    var wanted := Filter(e => Wanted(q, e), events);
    EventLeIsPreorder();
    SortContents(EventLe, wanted);
    SortSorted(EventLe, wanted);
  }

  // ------------------------------------------------------------- what the loader accepts

  lemma {:induction false} LoadedLines(c: Codec, m: Manifest, lines: seq<Bytes>, i: nat)
    requires i <= |lines| && LoadLines(c, m, lines, i).Ok?
    ensures var records := LoadLines(c, m, lines, i).value;
            && |records| == |lines| - i
            && forall k :: 0 <= k < |records| ==>
                 records[k].sequence == i + k && records[k].event.source == m.source && records[k].digest == records[k].event
    decreases |lines| - i
  {
    if i < |lines| {
      LoadedLines(c, m, lines, i + 1);
      var r := LoadLine(c, m, lines[i], i).value;
      var rest := LoadLines(c, m, lines, i + 1).value;
      forall k | 0 <= k < |[r] + rest|
        ensures var x := ([r] + rest)[k]; x.sequence == i + k && x.event.source == m.source && x.digest == x.event
      {
        assert k > 0 ==> ([r] + rest)[k] == rest[k - 1];
      }
    }
  }

  lemma RecordLeIsPreorder()
    ensures TotalPreorder(RecordLe)
  {
    EventLeIsPreorder();
    forall a: Record, b: Record ensures RecordLe(a, b) || RecordLe(b, a) {
      assert EventLe(a.event, b.event) || EventLe(b.event, a.event);
    }
    forall a: Record, b: Record, d: Record | RecordLe(a, b) && RecordLe(b, d) ensures RecordLe(a, d) {
      assert EventLe(a.event, b.event) && EventLe(b.event, d.event);
    }
  }

  /** Whatever the loader accepts is in canonical order, numbered from zero, and of one source. */
  lemma LoadedIsCanonical(c: Codec, files: Files)
    requires Load(c, files).Ok?
    ensures var b := Load(c, files).value;
            && Sorted(RecordLe, b.records) && Describes(b.manifest, b.records)
            && b.manifest.bundleId == (b.manifest.source, b.manifest.eventsHash)
            && forall k :: 0 <= k < |b.records| ==>
                 b.records[k].sequence == k && b.records[k].event.source == b.manifest.source
                 && b.records[k].digest == b.records[k].event
  {
    var m := c.decodeManifest(files.manifest.value).value;
    AcceptedEvents(c, m, files.events.value);
  }

  lemma AcceptedEvents(c: Codec, m: Manifest, data: Bytes)
    requires LoadEvents(c, m, data).Ok?
    ensures var b := LoadEvents(c, m, data).value;
            && b.manifest == m && Sorted(RecordLe, b.records) && Describes(m, b.records)
            && forall k :: 0 <= k < |b.records| ==>
                 b.records[k].sequence == k && b.records[k].event.source == m.source && b.records[k].digest == b.records[k].event
  {
    var records := LoadLines(c, m, SplitLines(data), 0).value;
    LoadedLines(c, m, SplitLines(data), 0);
    RecordLeIsPreorder();
    SortSorted(RecordLe, records);
    if records == [] {
      assert Sorted(RecordLe, records);
    }
  }
}
