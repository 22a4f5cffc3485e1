/** Writing and reading replay bundles, step by step. */
module ReplayFiles {
  import opened Common
  import opened Ordering
  import opened SourceKeys
  import opened ReplayBundle

  class ObservationDatabase {
    var sources: seq<Source>
    var observations: seq<Event>
  }

  class ObservationExporter {
    const db: ObservationDatabase

    constructor (db: ObservationDatabase)
      ensures this.db == db
    {
      this.db := db;
    }

    /** The query, built up step by step, with one row more than the limit. */
    method Fetch(q: Request) returns (rows: seq<Event>)
      requires q.limit >= 0
      ensures rows == First(Matching(q, db.observations), q.limit + 1)
    {
      var selected: seq<Event> := [];
      for i := 0 to |db.observations|
        invariant selected == Filter(e => Wanted(q, e), db.observations[..i])
      {
        var e := db.observations[i];
        var kept := e.source == q.source;
        if q.occurredFrom.Some? {
          kept := kept && q.occurredFrom.value.at <= e.occurredAt;
        }
        if q.occurredTo.Some? {
          kept := kept && e.occurredAt <= q.occurredTo.value.at;
        }
        assert db.observations[..i + 1] == db.observations[..i] + [e];
        FilterAppend(e => Wanted(q, e), db.observations[..i], [e]);
        assert [e][1..] == [];
        if kept {
          selected := selected + [e];
        }
      }
      assert db.observations[..|db.observations|] == db.observations;
      var ordered := Sort(EventLe, selected);
      rows := if q.limit + 1 <= |ordered| then ordered[..q.limit + 1] else ordered;
    }

    /** The records of the rows, and the bytes of the events file. */
    method Write(c: Codec, rows: seq<Event>) returns (records: seq<Record>, data: Bytes)
      ensures records == Records(rows) && data == Join(Lines(c, records))
    {
      records, data := [], [];
      for i := 0 to |rows|
        invariant records == Records(rows[..i]) && data == Join(Lines(c, records))
      {
        var record := Record(i, rows[i], rows[i]);
        JoinMore(Lines(c, records), c.encodeRecord(record));
        assert Lines(c, records + [record]) == Lines(c, records) + [c.encodeRecord(record)];
        records := records + [record];
        data := data + c.encodeRecord(record) + [LF];
      }
      assert rows[..|rows|] == rows;
    }

    method ExportBundle(c: Codec, q: Request) returns (result: Result<Exported, ExportError>)
      ensures result == Export(c, q, db.sources, db.observations)
    {
      if !q.exportedAt.aware || !Aware(q.occurredFrom) || !Aware(q.occurredTo) {
        return Err(NaiveTime);
      }
      if q.limit < 1 || q.limit > MAX_EVENTS {
        return Err(BadLimit);
      }
      if q.occurredFrom.Some? && q.occurredTo.Some? && q.occurredFrom.value.at > q.occurredTo.value.at {
        return Err(BadRange);
      }
      if q.outputExists {
        return Err(OutputExists);
      }
      var source := FindSource(db.sources, q.source);
      if source.None? {
        return Err(UnknownSource);
      }
      var rows := Fetch(q);
      var truncated := |rows| > q.limit;
      rows := if truncated then rows[..q.limit] else rows;
      assert rows == First(Matching(q, db.observations), q.limit);
      var records, data := Write(c, rows);
      var manifest := ManifestOf(q, source.value, records, data, truncated);
      return Ok(Exported(manifest, c.encodeManifest(manifest) + [LF], data));
    }
  }

  lemma {:induction false} JoinMore(lines: seq<Bytes>, line: Bytes)
    ensures Join(lines + [line]) == Join(lines) + line + [LF]
  {
    if lines == [] {
      assert [] + [line] == [line] && [line][1..] == [];
    } else {
      JoinMore(lines[1..], line);
      assert (lines + [line])[1..] == lines[1..] + [line];
    }
  }

  lemma {:induction false} LoadedSoFar(c: Codec, m: Manifest, lines: seq<Bytes>, i: nat, records: seq<Record>)
    requires i <= |lines| && |records| == i
    requires forall k :: 0 <= k < i ==> LoadLine(c, m, lines[k], k) == Ok(records[k])
    ensures LoadLines(c, m, lines, 0)
            == match LoadLines(c, m, lines, i) case Err(e) => Err(e) case Ok(rest) => Ok(records + rest)
  {
    if i == 0 {
      assert forall rest: seq<Record> :: records + rest == rest;
    } else {
      var front := records[..i - 1];
      LoadedSoFar(c, m, lines, i - 1, front);
      assert forall rest :: front + ([records[i - 1]] + rest) == records + rest;
    }
  }

  /** The lines of the events file, each checked in turn. */
  method LoadRecords(c: Codec, m: Manifest, lines: seq<Bytes>) returns (result: Result<seq<Record>, LoadError>)
    ensures result == LoadLines(c, m, lines, 0)
  {
    var records: seq<Record> := [];
    for sequence := 0 to |lines|
      invariant |records| == sequence
      invariant forall k :: 0 <= k < sequence ==> LoadLine(c, m, lines[k], k) == Ok(records[k])
    {
      LoadedSoFar(c, m, lines, sequence, records);
      if |lines[sequence]| > MAX_EVENT_LINE_BYTES {
        return Err(LineTooLong(sequence));
      }
      var decoded := c.decodeRecord(lines[sequence]);
      if decoded.None? {
        return Err(InvalidLine(sequence));
      }
      var record := decoded.value;
      if record.sequence != sequence {
        return Err(SequenceMismatch(sequence));
      }
      if record.event.source != m.source {
        return Err(SourceMismatch(sequence));
      }
      if record.event != record.digest {
        return Err(EventHashMismatch(sequence));
      }
      records := records + [record];
    }
    LoadedSoFar(c, m, lines, |lines|, records);
    assert records + [] == records;
    return Ok(records);
  }

  method LoadReplayBundle(c: Codec, files: Files) returns (result: Result<Bundle, LoadError>)
    ensures result == Load(c, files)
  {
    if files.links {
      return Err(SymbolicLink);
    }
    if files.manifest.None? || files.events.None? {
      return Err(Incomplete);
    }
    if |files.manifest.value| > MAX_MANIFEST_BYTES {
      return Err(ManifestTooLarge);
    }
    var decoded := c.decodeManifest(files.manifest.value);
    if decoded.None? {
      return Err(InvalidManifest);
    }
    var manifest := decoded.value;
    if manifest.bundleId != (manifest.source, manifest.eventsHash) {
      return Err(BundleIdMismatch);
    }
    var data := files.events.value;
    if |data| > MAX_BUNDLE_BYTES {
      return Err(EventsTooLarge);
    }
    if data != manifest.eventsHash {
      return Err(HashMismatch);
    }
    var lines := SplitLines(data);
    if |lines| > MAX_EVENTS {
      return Err(TooManyEvents);
    }
    var loaded := LoadRecords(c, manifest, lines);
    if loaded.Err? {
      return Err(loaded.error);
    }
    return CheckRecords(manifest, loaded.value);
  }
}
