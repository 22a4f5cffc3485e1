/** What exporting and loading come to, stated without the query, the loop or the splitting. */
module ReplayMeaning {
  import opened Common
  import opened Ordering
  import opened SourceKeys
  import opened ReplayBundle

  // ------------------------------------------------------------- requests

  predicate KnownSource(sources: seq<Source>, id: Uuid)
  {
    exists i :: 0 <= i < |sources| && sources[i].id == id
  }

  predicate ZonesGiven(q: Request)
  {
    q.exportedAt.aware && (q.occurredFrom.Some? ==> q.occurredFrom.value.aware) && (q.occurredTo.Some? ==> q.occurredTo.value.aware)
  }

  predicate RangeOk(q: Request)
  {
    q.occurredFrom.Some? && q.occurredTo.Some? ==> q.occurredFrom.value.at <= q.occurredTo.value.at
  }

  /** A request is refused for the first of these that fails, and served if none does. */
  lemma RequestMeaning(q: Request, sources: seq<Source>)
    ensures var error := RequestError(q, sources);
            if !ZonesGiven(q) then error == Some(NaiveTime)
            else if !(1 <= q.limit <= 100_000) then error == Some(BadLimit)
            else if !RangeOk(q) then error == Some(BadRange)
            else if q.outputExists then error == Some(OutputExists)
            else if !KnownSource(sources, q.source) then error == Some(UnknownSource)
            else error == None
  {
    SourceFound(sources, q.source);
  }

  // ------------------------------------------------------------- the export

  /** Of the source asked for, and not before or after the range. */
  predicate InRange(q: Request, e: Event)
  {
    && e.source == q.source
    && !(q.occurredFrom.Some? && e.occurredAt < q.occurredFrom.value.at)
    && !(q.occurredTo.Some? && e.occurredAt > q.occurredTo.value.at)
  }

  /** The canonical order: when it occurred, then when it was observed, then its id. */
  ghost predicate NotAfter(a: Event, b: Event)
  {
    || a.occurredAt < b.occurredAt
    || (a.occurredAt == b.occurredAt && a.observedAt < b.observedAt)
    || (a.occurredAt == b.occurredAt && a.observedAt == b.observedAt && AtMost(a.id, b.id))
  }

  lemma OrderMeaning(a: Event, b: Event)
    ensures EventLe(a, b) <==> NotAfter(a, b)
  {
    StrLeMeaning(a.id, b.id);
  }

  ghost predicate InOrder(records: seq<Record>)
  {
    forall i, j :: 0 <= i < j < |records| ==> NotAfter(records[i].event, records[j].event)
  }

  predicate Exports(records: seq<Record>, e: Event)
  {
    exists i :: 0 <= i < |records| && records[i].event == e
  }

  /** The records are numbered, in range and order, and no more than asked for; what is left out comes later. */
  ghost predicate FirstInRange(q: Request, events: seq<Event>, records: seq<Record>)
  {
    && |records| <= q.limit && InOrder(records)
    && (forall i :: 0 <= i < |records| ==>
          records[i].sequence == i && records[i].digest == records[i].event && InRange(q, records[i].event) && records[i].event in events)
    && (forall e :: e in events && InRange(q, e) && !Exports(records, e) ==>
          |records| == q.limit && forall i :: 0 <= i < |records| ==> NotAfter(records[i].event, e))
  }

  /** The manifest describes the source and the records. */
  predicate TellsExport(q: Request, sources: seq<Source>, records: seq<Record>, m: Manifest, data: Bytes)
  {
    && (exists i :: 0 <= i < |sources| && sources[i].id == q.source
                    && m.sourceType == sources[i].sourceType && m.sourceVersion == sources[i].version)
    && m.source == q.source && m.bundleId == (q.source, data) && m.eventsHash == data && m.exportedAt == q.exportedAt.at
    && m.eventCount == |records|
    && (m.first.Some? <==> records != []) && (m.last.Some? <==> records != [])
    && (records != [] ==> m.first == Some(records[0].event.occurredAt) && m.last == Some(records[|records| - 1].event.occurredAt))
  }

  lemma SelectedMeaning(q: Request, events: seq<Event>)
    requires q.limit >= 0
    ensures FirstInRange(q, events, Selected(q, events))
  {
    var wanted := Filter(e => Wanted(q, e), events);
    var ordered := Matching(q, events);
    var records := Selected(q, events);
    EventLeIsPreorder();
    SortSorted(EventLe, wanted);
    SortMembers(EventLe, wanted);
    FilterMembers(e => Wanted(q, e), events);
    forall i | 0 <= i < |records| ensures InRange(q, records[i].event) && records[i].event in events {
      assert records[i].event == ordered[i] && ordered[i] in ordered;
    }
    forall i, j | 0 <= i < j < |records| ensures NotAfter(records[i].event, records[j].event) {
      OrderMeaning(ordered[i], ordered[j]);
    }
    forall e | e in events && InRange(q, e)
      ensures Exports(records, e) || (|records| == q.limit && forall i :: 0 <= i < |records| ==> NotAfter(records[i].event, e))
    {
      assert Wanted(q, e) && e in ordered;
      var k :| 0 <= k < |ordered| && ordered[k] == e;
      if k < |records| {
        assert records[k].event == e;
      } else {
        forall i | 0 <= i < |records| ensures NotAfter(records[i].event, e) {
          OrderMeaning(ordered[i], ordered[k]);
        }
      }
    }
  }

  /** An export is the first records in range, a manifest that tells them, and the two files written from them. */
  lemma ExportMeaning(c: Codec, q: Request, sources: seq<Source>, events: seq<Event>)
    requires RequestError(q, sources).None?
    ensures var x := Export(c, q, sources, events).value;
            var records := Selected(q, events);
            && FirstInRange(q, events, records)
            && TellsExport(q, sources, records, x.manifest, x.eventsFile)
            && SplitsInto(x.eventsFile, Lines(c, records)) && x.manifestFile == c.encodeManifest(x.manifest) + [10]
            && (x.manifest.truncated <==> |Filter(e => Wanted(q, e), events)| > q.limit)
            && (x.manifest.truncated ==> |records| == q.limit)
            && (!x.manifest.truncated ==> forall e :: e in events && InRange(q, e) ==> Exports(records, e))
  {
    SelectedMeaning(q, events);
    SourceFound(sources, q.source);
    ExportSelects(c, q, sources, events);
    JoinMeaning(Lines(c, Selected(q, events)));
    var records, ordered := Selected(q, events), Matching(q, events);
    var wanted := Filter(e => Wanted(q, e), events);
    SortMembers(EventLe, wanted);
    FilterMembers(e => Wanted(q, e), events);
    forall e | |wanted| <= q.limit && e in events && InRange(q, e) ensures Exports(records, e) {
      assert Wanted(q, e) && e in ordered;
      var k :| 0 <= k < |ordered| && ordered[k] == e;
      SortContents(EventLe, wanted);
      assert records[k].event == e;
    }
  }

  /** The data is these lines, each with a newline after it. */
  predicate SplitsInto(data: Bytes, lines: seq<Bytes>)
    decreases lines
  {
    if lines == [] then data == []
    else |lines[0]| < |data| && data[..|lines[0]|] == lines[0] && data[|lines[0]|] == 10 && SplitsInto(data[|lines[0]| + 1..], lines[1..])
  }

  lemma {:induction false} JoinMeaning(lines: seq<Bytes>)
    ensures SplitsInto(Join(lines), lines)
  {
    if lines != [] {
      JoinMeaning(lines[1..]);
      var data := lines[0] + [LF] + Join(lines[1..]);
      assert data[..|lines[0]|] == lines[0] && data[|lines[0]| + 1..] == Join(lines[1..]);
    }
  }

  // ------------------------------------------------------------- lines

  /** The data is cut at every line end: a carriage return right before a newline ends a line together with it. */
  predicate CutAtEnds(data: Bytes, lines: seq<Bytes>)
    decreases lines
  {
    if lines == [] then data == []
    else
      && OneLine(lines[0]) && lines[0] <= data
      && if |lines| == 1 && data == lines[0] then data != []
         else
           || (|lines[0]| < |data| && data[|lines[0]|] == 10 && CutAtEnds(data[|lines[0]| + 1..], lines[1..]))
           || (|lines[0]| < |data| && data[|lines[0]|] == 13
               && !(|lines[0]| + 1 < |data| && data[|lines[0]| + 1] == 10) && CutAtEnds(data[|lines[0]| + 1..], lines[1..]))
           || (|lines[0]| + 1 < |data| && data[|lines[0]|] == 13 && data[|lines[0]| + 1] == 10
               && CutAtEnds(data[|lines[0]| + 2..], lines[1..]))
  }

  lemma {:induction false} SplitMeaning(data: Bytes)
    ensures CutAtEnds(data, SplitLines(data))
    decreases |data|
  {
    if data != [] {
      var n := LineLength(data);
      if n < |data| {
        var skip := if data[n] == CR && n + 1 < |data| && data[n + 1] == LF then 2 else 1;
        SplitMeaning(data[n + skip..]);
        assert SplitLines(data) == [data[..n]] + SplitLines(data[n + skip..]);
        assert SplitLines(data)[1..] == SplitLines(data[n + skip..]);
      }
    }
  }

  // ------------------------------------------------------------- the load

  /** One line of the events file is as it should be. */
  predicate GoodLine(c: Codec, m: Manifest, line: Bytes, i: nat)
  {
    && |line| <= 4_194_304 && c.decodeRecord(line).Some?
    && var r := c.decodeRecord(line).value; r.sequence == i && r.event.source == m.source && r.digest == r.event
  }

  /** Everything the loader asks of a directory. */
  ghost predicate Loadable(c: Codec, files: Files)
  {
    && !files.links && files.manifest.Some? && files.events.Some?
    && |files.manifest.value| <= 262_144 && c.decodeManifest(files.manifest.value).Some?
    && var m, data := c.decodeManifest(files.manifest.value).value, files.events.value;
       && m.bundleId == (m.source, m.eventsHash) && |data| <= 536_870_912 && data == m.eventsHash
       && |SplitLines(data)| <= 100_000
       && (forall i :: 0 <= i < |SplitLines(data)| ==> GoodLine(c, m, SplitLines(data)[i], i))
       && RecordsFit(m, Decoded(c, SplitLines(data)))
  }

  /** The records are as many, as ordered, and from and to when the manifest says. */
  ghost predicate RecordsFit(m: Manifest, records: seq<Record>)
  {
    && |records| == m.eventCount && InOrder(records)
    && (m.first.Some? <==> records != []) && (m.last.Some? <==> records != [])
    && (records != [] ==> m.first == Some(records[0].event.occurredAt) && m.last == Some(records[|records| - 1].event.occurredAt))
  }

  const NO_RECORD := Record(0, NO_EVENT, NO_EVENT)

  const NO_EVENT := Event("00000000-0000-0000-0000-000000000000", "00000000-0000-0000-0000-000000000000", 0, 0, "", "", {}, {}, "")

  function Decoded(c: Codec, lines: seq<Bytes>): seq<Record>
  {
    seq(|lines|, i requires 0 <= i < |lines| => if c.decodeRecord(lines[i]).Some? then c.decodeRecord(lines[i]).value else NO_RECORD)
  }

  lemma {:induction false} LinesMeaning(c: Codec, m: Manifest, lines: seq<Bytes>, i: nat)
    requires i <= |lines|
    ensures LoadLines(c, m, lines, i).Ok? <==> forall k :: i <= k < |lines| ==> GoodLine(c, m, lines[k], k)
    ensures LoadLines(c, m, lines, i).Ok? ==> LoadLines(c, m, lines, i).value == Decoded(c, lines)[i..]
    decreases |lines| - i
  {
    if i < |lines| {
      LinesMeaning(c, m, lines, i + 1);
      assert LoadLine(c, m, lines[i], i).Ok? <==> GoodLine(c, m, lines[i], i);
      if LoadLines(c, m, lines, i).Ok? {
        assert [Decoded(c, lines)[i]] + Decoded(c, lines)[i + 1..] == Decoded(c, lines)[i..];
      }
    }
  }

  lemma SortedMeaning(records: seq<Record>)
    ensures records == Sort(RecordLe, records) <==> InOrder(records)
  {
    forall i, j | 0 <= i < j < |records|
      ensures RecordLe(records[i], records[j]) <==> NotAfter(records[i].event, records[j].event)
    {
      OrderMeaning(records[i].event, records[j].event);
    }
    RecordLeIsPreorder();
    SortSorted(RecordLe, records);
    if InOrder(records) {
      SortOfSorted(RecordLe, records);
    }
  }

  lemma CheckMeaning(m: Manifest, records: seq<Record>)
    ensures CheckRecords(m, records) == Ok(Bundle(m, records)) <==> RecordsFit(m, records)
    ensures CheckRecords(m, records).Ok? ==> CheckRecords(m, records) == Ok(Bundle(m, records))
  {
    SortedMeaning(records);
  }

  /** A directory loads exactly if it is as the loader asks, and then to its manifest and the records of its lines. */
  lemma LoadIff(c: Codec, files: Files)
    ensures Load(c, files).Ok? <==> Loadable(c, files)
    ensures Load(c, files).Ok? ==>
              Load(c, files).value
              == Bundle(c.decodeManifest(files.manifest.value).value, Decoded(c, SplitLines(files.events.value)))
  {
    if files.manifest.Some? && files.events.Some? && c.decodeManifest(files.manifest.value).Some? {
      var m, lines := c.decodeManifest(files.manifest.value).value, SplitLines(files.events.value);
      LinesMeaning(c, m, lines, 0);
      assert Decoded(c, lines)[0..] == Decoded(c, lines);
      CheckMeaning(m, Decoded(c, lines));
    }
  }
}
