/**
 * The public data plane: parse, normalise, insert with the primary key as the
 * only deduplication, then add what was new to the meter.
 */
module Edge {
  import opened Sequences
  import opened Attributes

  const LOG_NAME_MAX := 128
  const MAX_BATCH_ENTRIES := 500
  const CHUNK := 500
  const SOURCE_ID := "firstrun.source.id"

  datatype WireEntry = WireEntry(id: string, time: nat, name: string, severity: Option<nat>, attributes: Option<Attrs>)

  datatype Body = Body(key: string, resource: Option<Attrs>, entries: seq<WireEntry>)

  datatype Source = Source(projectId: string, sourceId: string)

  datatype Key = Key(project: string, time: nat, id: string)

  datatype Row = Row(key: Key, name: string, severity: Option<nat>, attributes: Attrs, ingestedAt: int)

  datatype Server = Server(sources: map<string, Source>, rows: seq<Row>, meter: nat)

  datatype Response = Accepted(accepted: nat, duplicates: nat, dropped: nat) | Refused(status: nat)

  // ---------------------------------------------------------------------------
  // Parsing
  // ---------------------------------------------------------------------------

  predicate Alphanumeric(c: char) { 'a' <= c <= 'z' || 'A' <= c <= 'Z' || '0' <= c <= '9' }

  predicate LogName(s: string) {
    1 <= |s| <= LOG_NAME_MAX && Alphanumeric(s[0]) &&
    forall i | 0 <= i < |s| :: Alphanumeric(s[i]) || s[i] in "_.-"
  }

  predicate Parses(e: WireEntry) {
    LogName(e.name) && (e.severity.Some? ==> 1 <= e.severity.value <= 24) && AcceptsOptional(e.attributes)
  }

  function KeepParsable(entries: seq<WireEntry>): (kept: seq<WireEntry>)
    ensures |kept| <= |entries|
  {
    if entries == [] then []
    else KeepParsable(Front(entries)) + if Parses(Last(entries)) then [Last(entries)] else []
  }

  lemma {:induction false} KeepParsableMembers(entries: seq<WireEntry>)
    ensures forall e :: e in KeepParsable(entries) <==> e in entries && Parses(e)
    decreases |entries|
  {
    if entries != [] {
      KeepParsableMembers(Front(entries));
      assert entries == Front(entries) + [Last(entries)];
    }
  }

  /** The resource a batch goes in with: its own, or none when its own is the only thing wrong. */
  function UsableResource(r: Option<Attrs>): Option<Attrs> {
    if AcceptsOptional(r) then r else None
  }

  // ---------------------------------------------------------------------------
  // Normalising
  // ---------------------------------------------------------------------------

  function OrEmpty(a: Option<Attrs>): Attrs { if a.Some? then a.value else map[] }

  /** Resource under entry under the edge's own stamp. */
  function Layered(resource: Option<Attrs>, e: WireEntry, source: Source): Attrs {
    OrEmpty(resource) + OrEmpty(e.attributes) + map[SOURCE_ID := Str(source.sourceId)]
  }

  /** A stored row, or None where the stored shape does not parse and the handler throws. */
  function Normalise(resource: Option<Attrs>, e: WireEntry, source: Source, now: int): (r: Option<Row>)
    ensures r.Some? ==> r.value.key == Key(source.projectId, e.time, e.id)
  {
    var attributes := Layered(resource, e, source);
    if Accepts(attributes)
    then Some(Row(Key(source.projectId, e.time, e.id), e.name, e.severity, attributes, now))
    else None
  }

  function NormaliseAll(resource: Option<Attrs>, entries: seq<WireEntry>, source: Source, now: int): (r: Option<seq<Row>>)
    ensures r.Some? ==>
              |r.value| == |entries| &&
              forall i | 0 <= i < |entries| :: r.value[i].key == Key(source.projectId, entries[i].time, entries[i].id)
    ensures r.None? ==> exists e | e in entries :: Normalise(resource, e, source, now).None?
  {
    if entries == [] then Some([])
    else
      assert entries == Front(entries) + [Last(entries)];
      var before := NormaliseAll(resource, Front(entries), source, now);
      var row := Normalise(resource, Last(entries), source, now);
      if before.Some? && row.Some? then Some(before.value + [row.value]) else None
  }

  lemma {:induction false} NormaliseAllRows(resource: Option<Attrs>, entries: seq<WireEntry>, source: Source, now: int, i: nat)
    requires NormaliseAll(resource, entries, source, now).Some? && i < |entries|
    ensures Normalise(resource, entries[i], source, now) == Some(NormaliseAll(resource, entries, source, now).value[i])
    decreases |entries|
  {
    hide Normalise;
    if i < |entries| - 1 {
      NormaliseAllRows(resource, Front(entries), source, now, i);
      assert Front(entries)[i] == entries[i];
    }
  }

  lemma NormaliseAllSucceeds(resource: Option<Attrs>, entries: seq<WireEntry>, source: Source, now: int)
    ensures NormaliseAll(resource, entries, source, now).Some? <==>
            forall i | 0 <= i < |entries| :: Normalise(resource, entries[i], source, now).Some?
  {
    hide Normalise, NormaliseAll;
    if NormaliseAll(resource, entries, source, now).Some? {
      forall i | 0 <= i < |entries|
        ensures Normalise(resource, entries[i], source, now).Some?
      {
        NormaliseAllRows(resource, entries, source, now, i);
      }
    }
  }

  /** Under each key the edge's stamp, else what the entry says, else what the resource says; and no other key. */
  ghost predicate Stamped(attributes: Attrs, resource: Option<Attrs>, e: WireEntry, source: Source) {
    && (forall k :: k in attributes <==>
          k == SOURCE_ID || (e.attributes.Some? && k in e.attributes.value) || (resource.Some? && k in resource.value))
    && forall k | k in attributes ::
         attributes[k] == if k == SOURCE_ID then Str(source.sourceId)
                          else if e.attributes.Some? && k in e.attributes.value then e.attributes.value[k]
                          else resource.value[k]
  }

  /** What a row made of an entry holds: the entry's own name, severity, time and id, when it was taken in, and its layers. */
  ghost predicate Made(row: Row, resource: Option<Attrs>, e: WireEntry, source: Source, now: int) {
    && row.key == Key(source.projectId, e.time, e.id) && row.name == e.name && row.severity == e.severity
    && row.ingestedAt == now && Stamped(row.attributes, resource, e, source)
  }

  /** The same under the resource a body came with: one that is no good of itself is left out. */
  ghost predicate MadeUnder(row: Row, resource: Option<Attrs>, e: WireEntry, source: Source, now: int) {
    Made(row, if AcceptsOptional(resource) then resource else None, e, source, now)
  }

  /** The source's stamp is above what an entry says, that above what its resource says, and a stored row has all three. */
  lemma LayeringOrder(resource: Option<Attrs>, e: WireEntry, source: Source, now: int)
    ensures Stamped(Layered(resource, e, source), resource, e, source)
    ensures Normalise(resource, e, source, now).Some? ==>
              Made(Normalise(resource, e, source, now).value, resource, e, source, now)
  {
    hide Accepts;
  }

  /** Parts that are each valid can still add up to too many keys, and that is the only way to fail. */
  lemma NormaliseSucceedsIff(resource: Option<Attrs>, e: WireEntry, source: Source, now: int)
    requires AcceptsOptional(resource) && Parses(e) && |source.sourceId| <= MAX_ATTRIBUTE_STRING
    ensures Normalise(resource, e, source, now).Some? <==> Fits(resource, e)
  {
    hide AcceptsValue, KeyOk;
    var attributes := Layered(resource, e, source);
    assert attributes.Keys == OrEmpty(resource).Keys + OrEmpty(e.attributes).Keys + {SOURCE_ID};
    SourceIdAccepted(source);
    forall k | k in attributes
      ensures KeyOk(k) && AcceptsValue(attributes[k], MAX_ATTRIBUTE_DEPTH)
    {
      if k != SOURCE_ID && k !in OrEmpty(e.attributes) { assert k in OrEmpty(resource); }
    }
  }

  /** Resource, entry and stamp together are within the bound on keys. */
  predicate Fits(resource: Option<Attrs>, e: WireEntry) {
    |OrEmpty(resource).Keys + OrEmpty(e.attributes).Keys + {SOURCE_ID}| <= MAX_ATTRIBUTES
  }

  lemma SourceIdAccepted(source: Source)
    requires |source.sourceId| <= MAX_ATTRIBUTE_STRING
    ensures KeyOk(SOURCE_ID) && AcceptsValue(Str(source.sourceId), MAX_ATTRIBUTE_DEPTH)
  {
  }

  // ---------------------------------------------------------------------------
  // Inserting
  // ---------------------------------------------------------------------------

  predicate Stored(rows: seq<Row>, key: Key) { exists i | 0 <= i < |rows| :: rows[i].key == key }

  predicate KeysDistinct(rows: seq<Row>) {
    forall i, j | 0 <= i < j < |rows| :: rows[i].key != rows[j].key
  }

  function InsertOne(rows: seq<Row>, r: Row): seq<Row> { if Stored(rows, r.key) then rows else rows + [r] }

  /** `INSERT ... ON CONFLICT DO NOTHING`: a tuple conflicts with the table and with earlier tuples. */
  function InsertAll(rows: seq<Row>, batch: seq<Row>): (r: seq<Row>)
    ensures rows <= r && |r| <= |rows| + |batch|
    decreases batch
  {
    if batch == [] then rows else InsertAll(InsertOne(rows, batch[0]), batch[1..])
  }

  lemma InsertNone(rows: seq<Row>)
    ensures InsertAll(rows, []) == rows
  {
  }

  lemma InsertOneStored(rows: seq<Row>, r: Row, k: Key)
    ensures Stored(InsertOne(rows, r), k) <==> Stored(rows, k) || k == r.key
  {
    var next := InsertOne(rows, r);
    if Stored(rows, k) { var i :| 0 <= i < |rows| && rows[i].key == k; assert next[i].key == k; }
    if k == r.key && !Stored(rows, k) { assert next[|rows|].key == k; }
  }

  lemma StoredCons(batch: seq<Row>, k: Key)
    requires batch != []
    ensures Stored(batch, k) <==> k == batch[0].key || Stored(batch[1..], k)
  {
    if Stored(batch[1..], k) {
      var i :| 0 <= i < |batch[1..]| && batch[1..][i].key == k;
      assert batch[i + 1].key == k;
    }
    if Stored(batch, k) && k != batch[0].key {
      var i :| 0 <= i < |batch| && batch[i].key == k;
      assert batch[1..][i - 1].key == k;
    }
  }

  lemma {:induction false} InsertAllKey(rows: seq<Row>, batch: seq<Row>, k: Key)
    ensures Stored(InsertAll(rows, batch), k) <==> Stored(rows, k) || Stored(batch, k)
    decreases batch
  {
    if batch != [] {
      hide Stored, InsertOne;
      InsertAllKey(InsertOne(rows, batch[0]), batch[1..], k);
      InsertOneStored(rows, batch[0], k);
      StoredCons(batch, k);
    }
  }

  lemma InsertOneDistinct(rows: seq<Row>, r: Row)
    requires KeysDistinct(rows)
    ensures KeysDistinct(InsertOne(rows, r))
  {
  }

  lemma {:induction false} InsertAllStores(rows: seq<Row>, batch: seq<Row>)
    ensures KeysDistinct(rows) ==> KeysDistinct(InsertAll(rows, batch))
    ensures forall k :: Stored(InsertAll(rows, batch), k) <==> Stored(rows, k) || Stored(batch, k)
    ensures forall r | r in InsertAll(rows, batch) :: r in rows || r in batch
    decreases batch
  {
    hide Stored, KeysDistinct;
    forall k
      ensures Stored(InsertAll(rows, batch), k) <==> Stored(rows, k) || Stored(batch, k)
    {
      InsertAllKey(rows, batch, k);
    }
    if batch != [] {
      InsertAllStores(InsertOne(rows, batch[0]), batch[1..]);
      if KeysDistinct(rows) { InsertOneDistinct(rows, batch[0]); }
    }
  }

  /** Splitting a batch into statements changes nothing: the table and the count are those of one statement. */
  lemma {:induction false} InsertAllConcat(rows: seq<Row>, a: seq<Row>, b: seq<Row>)
    ensures InsertAll(rows, a + b) == InsertAll(InsertAll(rows, a), b)
    decreases a
  {
    if a == [] {
      assert a + b == b;
    } else {
      assert (a + b)[1..] == a[1..] + b;
      InsertAllConcat(InsertOne(rows, a[0]), a[1..], b);
    }
  }

  lemma InsertAllChunk(rows: seq<Row>, entries: seq<Row>, start: nat, end: nat)
    requires start <= end <= |entries|
    ensures InsertAll(InsertAll(rows, entries[..start]), entries[start..end]) == InsertAll(rows, entries[..end])
  {
    hide InsertAll;
    InsertAllConcat(rows, entries[..start], entries[start..end]);
    assert entries[..start] + entries[start..end] == entries[..end];
  }

  /** A replay writes nothing and counts nothing. */
  lemma {:induction false} ReplayIsFree(rows: seq<Row>, batch: seq<Row>)
    requires forall i | 0 <= i < |batch| :: Stored(rows, batch[i].key)
    ensures InsertAll(rows, batch) == rows
    decreases batch
  {
    if batch != [] { ReplayIsFree(rows, batch[1..]); }
  }

  // ---------------------------------------------------------------------------
  // The handler
  // ---------------------------------------------------------------------------

  function Ingest(s: Server, batch: seq<Row>, meterOk: bool): Server {
    var rows := InsertAll(s.rows, batch);
    s.(rows := rows, meter := s.meter + if meterOk then |rows| - |s.rows| else 0)
  }

  function Handle(s: Server, body: Body, meterOk: bool, now: int): (Response, Server) {
    if body.key !in s.sources then (Refused(404), s)
    else
      var kept := KeepParsable(body.entries);
      if kept == [] then (Accepted(0, 0, |body.entries|), s)
      else if |kept| > MAX_BATCH_ENTRIES then (Refused(400), s)
      else
        var batch := NormaliseAll(UsableResource(body.resource), kept, s.sources[body.key], now);
        if batch.None? then (Refused(500), s)
        else
          var s' := Ingest(s, batch.value, meterOk);
          var accepted: nat := |s'.rows| - |s.rows|;
          (Accepted(accepted, |kept| - accepted, |body.entries| - |kept|), s')
  }

  /** What every request leaves true of the table and the meter. */
  ghost predicate ServerInv(s: Server) { KeysDistinct(s.rows) && s.meter <= |s.rows| }

  function EntryKey(sources: map<string, Source>, body: Body, e: WireEntry): Key
    requires body.key in sources
  {
    Key(sources[body.key].projectId, e.time, e.id)
  }

  /**
   * One request, whatever it carries: the table keeps its rows and its distinct
   * keys, gains only rows made of entries of this body, and counts each at
   * most once; a 202 means every entry of the body that parses is stored.
   */
  lemma HandleKeeps(s: Server, body: Body, meterOk: bool, now: int)
    requires ServerInv(s)
    ensures var (r, s') := Handle(s, body, meterOk, now);
            && ServerInv(s') && s.rows <= s'.rows && s'.sources == s.sources
            && (meterOk ==> s'.meter - s.meter == |s'.rows| - |s.rows|)
            && (forall k | Stored(s'.rows, k) :: Stored(s.rows, k) ||
                  (body.key in s.sources && exists e | e in body.entries :: k == EntryKey(s.sources, body, e)))
            && (forall row | row in s'.rows :: row in s.rows || RowOf(s.sources, body, now, row))
            && (r.Accepted? ==> body.key in s.sources && r.accepted + r.duplicates + r.dropped == |body.entries|)
            && (r.Accepted? ==> r.accepted == |s'.rows| - |s.rows| && r.dropped == |body.entries| - |KeepParsable(body.entries)|)
            && (r.Accepted? ==> forall e | e in body.entries && Parses(e) :: Stored(s'.rows, EntryKey(s.sources, body, e)))
            && (r.Refused? ==> s' == s)
  {
    var kept := KeepParsable(body.entries);
    KeepParsableMembers(body.entries);
    if body.key in s.sources && 0 < |kept| <= MAX_BATCH_ENTRIES {
      var batch := NormaliseAll(UsableResource(body.resource), kept, s.sources[body.key], now);
      if batch.Some? {
        InsertAllStores(s.rows, batch.value);
        BatchKeys(s.sources, body, kept, batch.value);
        BatchRows(s.sources, body, kept, batch.value, now);
      }
    }
  }

  /** A row is made of an entry of the body that parses, under the body's resource where that is acceptable. */
  ghost predicate RowOf(sources: map<string, Source>, body: Body, now: int, row: Row) {
    body.key in sources &&
    exists e | e in body.entries && Parses(e) :: MadeUnder(row, body.resource, e, sources[body.key], now)
  }

  lemma BatchRows(sources: map<string, Source>, body: Body, kept: seq<WireEntry>, batch: seq<Row>, now: int)
    requires body.key in sources && (forall e | e in kept :: e in body.entries && Parses(e))
    requires NormaliseAll(UsableResource(body.resource), kept, sources[body.key], now) == Some(batch)
    ensures forall row | row in batch :: RowOf(sources, body, now, row)
  {
    hide Normalise, NormaliseAll, Parses, AcceptsOptional, Made;
    forall row | row in batch
      ensures RowOf(sources, body, now, row)
    {
      var i :| 0 <= i < |batch| && batch[i] == row;
      NormaliseAllRows(UsableResource(body.resource), kept, sources[body.key], now, i);
      LayeringOrder(UsableResource(body.resource), kept[i], sources[body.key], now);
      assert kept[i] in kept;
    }
  }

  lemma UsableAccepted(r: Option<Attrs>)
    ensures AcceptsOptional(UsableResource(r))
  {
  }

  predicate AllFit(resource: Option<Attrs>, entries: seq<WireEntry>) { forall e | e in entries :: Fits(resource, e) }

  lemma FitsAll(resource: Option<Attrs>, entries: seq<WireEntry>)
    ensures AllFit(resource, entries) <==> forall i | 0 <= i < |entries| :: Fits(resource, entries[i])
  {
    hide Fits;
  }

  /**
   * What each request is answered with. One entry over the bound refuses every
   * entry beside it, for every retry of the batch.
   */
  lemma HandleAcceptsIff(s: Server, body: Body, meterOk: bool, now: int)
    requires body.key in s.sources ==> |s.sources[body.key].sourceId| <= MAX_ATTRIBUTE_STRING
    ensures var r, kept := Handle(s, body, meterOk, now).0, KeepParsable(body.entries);
            var fit := AllFit(UsableResource(body.resource), kept);
            && (r == Refused(404) <==> body.key !in s.sources)
            && (r == Refused(400) <==> body.key in s.sources && |kept| > MAX_BATCH_ENTRIES)
            && (r == Refused(500) <==> body.key in s.sources && |kept| <= MAX_BATCH_ENTRIES && !fit)
            && (r.Accepted? <==> body.key in s.sources && |kept| <= MAX_BATCH_ENTRIES && fit)
  {
    hide Normalise, NormaliseAll, Parses, Fits, AllFit, AcceptsOptional, UsableResource, InsertAll;
    if body.key in s.sources {
      var kept, resource, source := KeepParsable(body.entries), UsableResource(body.resource), s.sources[body.key];
      KeepParsableMembers(body.entries);
      UsableAccepted(body.resource);
      NormaliseAllSucceeds(resource, kept, source, now);
      forall i | 0 <= i < |kept|
        ensures Normalise(resource, kept[i], source, now).Some? <==> Fits(resource, kept[i])
      {
        assert kept[i] in kept;
        NormaliseSucceedsIff(resource, kept[i], source, now);
      }
      FitsAll(resource, kept);
    }
  }

  /** The rows of a normalised batch are stored under the keys of the entries they came from. */
  lemma BatchKeys(sources: map<string, Source>, body: Body, kept: seq<WireEntry>, batch: seq<Row>)
    requires body.key in sources && (forall e | e in kept :: e in body.entries)
    requires |batch| == |kept|
    requires forall i | 0 <= i < |kept| :: batch[i].key == EntryKey(sources, body, kept[i])
    ensures forall e | e in kept :: Stored(batch, EntryKey(sources, body, e))
    ensures forall k | Stored(batch, k) :: exists e | e in body.entries :: k == EntryKey(sources, body, e)
  {
    forall e | e in kept
      ensures Stored(batch, EntryKey(sources, body, e))
    {
      var i :| 0 <= i < |kept| && kept[i] == e;
      assert batch[i].key == EntryKey(sources, body, e);
    }
    forall k | Stored(batch, k)
      ensures exists e | e in body.entries :: k == EntryKey(sources, body, e)
    {
      var i :| 0 <= i < |batch| && batch[i].key == k;
      assert kept[i] in kept;
      assert k == EntryKey(sources, body, kept[i]);
    }
  }

  // ---------------------------------------------------------------------------
  // The store and the chunk loop
  // ---------------------------------------------------------------------------

  class Store {
    var rows: seq<Row>
    var meter: nat

    constructor ()
      ensures rows == [] && meter == 0
    {
      rows, meter := [], 0;
    }

    /** One statement. Returns how many rows came back from `RETURNING`. */
    method InsertStatement(tuples: seq<Row>) returns (returned: nat)
      modifies this`rows
      ensures rows == InsertAll(old(rows), tuples) && returned == |rows| - |old(rows)|
    {
      returned := 0;
      for i := 0 to |tuples|
        invariant InsertAll(rows, tuples[i..]) == InsertAll(old(rows), tuples)
        invariant |old(rows)| + returned == |rows|
      {
        assert tuples[i..][1..] == tuples[i + 1..];
        if !Stored(rows, tuples[i].key) {
          rows := rows + [tuples[i]];
          returned := returned + 1;
        }
      }
    }

    method InsertLogEntries(entries: seq<Row>) returns (inserted: nat)
      modifies this`rows
      ensures rows == InsertAll(old(rows), entries) && inserted == |rows| - |old(rows)|
    {
      inserted := 0;
      var start := 0;
      InsertNone(rows);
      hide InsertAll;
      while start < |entries|
        invariant 0 <= start <= |entries|
        invariant rows == InsertAll(old(rows), entries[..start])
        invariant inserted == |rows| - |old(rows)|
      {
        var end := Min(start + CHUNK, |entries|);
        InsertAllChunk(old(rows), entries, start, end);
        var returned := InsertStatement(entries[start..end]);
        inserted := inserted + returned;
        start := end;
      }
      assert entries[..start] == entries;
    }

    /** The rows are durable before the meter runs, and a meter that throws is swallowed. */
    method IngestEntries(entries: seq<Row>, meterOk: bool) returns (accepted: nat, duplicates: nat)
      modifies this
      ensures rows == InsertAll(old(rows), entries)
      ensures meter == old(meter) + if meterOk then |rows| - |old(rows)| else 0
      ensures accepted == |rows| - |old(rows)| && accepted + duplicates == |entries|
    {
      if |entries| == 0 { return 0, 0; }
      accepted := InsertLogEntries(entries);
      if accepted > 0 && meterOk {
        meter := meter + accepted;
      }
      duplicates := |entries| - accepted;
    }

    method HandleEntries(sources: map<string, Source>, body: Body, meterOk: bool, now: int) returns (response: Response)
      modifies this
      ensures (response, Server(sources, rows, meter)) ==
              Handle(Server(sources, old(rows), old(meter)), body, meterOk, now)
    {
      hide KeepParsable, NormaliseAll, InsertAll, UsableResource;
      if body.key !in sources { return Refused(404); }
      var kept := KeepParsable(body.entries);
      var dropped := |body.entries| - |kept|;
      if |kept| == 0 { return Accepted(0, 0, dropped); }
      if |kept| > MAX_BATCH_ENTRIES { return Refused(400); }
      var batch := NormaliseAll(UsableResource(body.resource), kept, sources[body.key], now);
      if batch.None? { return Refused(500); }
      var accepted, duplicates := IngestEntries(batch.value, meterOk);
      return Accepted(accepted, duplicates, dropped);
    }
  }
}
