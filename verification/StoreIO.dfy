// The loops that write and read a store, section by section, with a writer that
// appends and a reader that advances (src/persistence.cpp).

module StoreIO {
  import opened Base
  import opened Policy
  import opened Records
  import opened Durable
  import opened Codec
  import opened StoreRecords
  import opened Store

  // ------------------------------------------------------------------------
  // Writing
  // ------------------------------------------------------------------------

  lemma BytesPrepend(x: seq<byte>, rest: seq<byte>)
    ensures PutBytes(x, rest) == PutBytes(x, []) + rest
  {
    hide PutU64;
    var length := |x| % TWO_64;
    WritersPrepend(0, length, x + rest);
    WritersPrepend(0, length, x + []);
    assert PutU64(length, []) + (x + rest) == PutU64(length, []) + (x + []) + rest;
  }

  lemma {:induction false} RecordsPrepend<T>(xs: seq<T>, put: T -> seq<byte>, rest: seq<byte>)
    ensures PutRecords(xs, put, rest) == PutRecords(xs, put, []) + rest
  {
    hide PutBytes;
    if xs != [] {
      RecordsPrepend(xs[1..], put, rest);
      BytesPrepend(put(xs[0]), PutRecords(xs[1..], put, rest));
      BytesPrepend(put(xs[0]), PutRecords(xs[1..], put, []));
    }
  }

  lemma SectionPrepends<T>(xs: seq<T>, put: T -> seq<byte>, rest: seq<byte>)
    ensures PutSection(xs, put, rest) == PutSection(xs, put, []) + rest
  {
    hide PutU64, PutRecords;
    var count := |xs| % TWO_64;
    RecordsPrepend(xs, put, rest);
    WritersPrepend(0, count, PutRecords(xs, put, rest));
    WritersPrepend(0, count, PutRecords(xs, put, []));
  }

  lemma {:induction false} RecordsGrow<T>(xs: seq<T>, i: nat, put: T -> seq<byte>)
    requires i < |xs|
    ensures PutRecords(xs[..i + 1], put, []) == PutRecords(xs[..i], put, []) + PutBytes(put(xs[i]), [])
    decreases i
  {
    hide PutBytes;
    if i > 0 {
      RecordsGrow(xs[1..], i - 1, put);
      assert xs[1..][..i] == xs[..i + 1][1..] && xs[1..][..i - 1] == xs[..i][1..];
      BytesPrepend(put(xs[0]), PutRecords(xs[..i + 1][1..], put, []));
      BytesPrepend(put(xs[0]), PutRecords(xs[..i][1..], put, []));
    }
  }

  method WriteSection<T>(writer: ByteWriter, xs: seq<T>, put: T -> seq<byte>)
    modifies writer
    ensures writer.buffer == old(writer.buffer) + PutSection(xs, put, [])
  {
    hide PutU64, PutBytes;
    ghost var before := writer.buffer;
    var count := |xs| % TWO_64;
    writer.WriteU64(count);
    for i := 0 to |xs|
      invariant writer.buffer == before + PutU64(count, []) + PutRecords(xs[..i], put, [])
    {
      RecordsGrow(xs, i, put);
      writer.WriteBytes(put(xs[i]));
    }
    assert xs[..|xs|] == xs;
    WritersPrepend(0, count, PutRecords(xs, put, []));
    assert before + PutU64(count, []) + PutRecords(xs, put, [])
        == before + (PutU64(count, []) + PutRecords(xs, put, []));
  }

  method WriteBody(d: DurableState) returns (body: seq<byte>)
    ensures body == PutBody(d)
  {
    hide PutU64, PutSection;
    var writer := new ByteWriter();
    writer.WriteU64(d.epoch);
    writer.WriteU64(d.authorityGeneration);
    writer.WriteU64(d.evidenceGeneration);
    writer.WriteU64(d.evidenceWatermark);
    writer.WriteU64(d.upstreamWatermark);
    ghost var counters := writer.buffer;
    CountersPrepend(CountersIn(d), []);
    assert counters == PutCounters(CountersIn(d), []);
    WriteSection(writer, d.policies, PutPolicyRecord);
    WriteSection(writer, d.revocations, PutRevocationRecord);
    WriteSection(writer, d.preferences, PutPreferenceRecord);
    WriteSection(writer, d.stables, PutStableRecord);
    WriteSection(writer, d.timings, PutTimingRecord);
    WriteSection(writer, d.history, PutHistoryRecord);
    BodyIsConcatenation(d);
    body := writer.buffer;
  }

  lemma CountersPrepend(c: Counters, rest: seq<byte>)
    ensures PutCounters(c, rest) ==
      PutU64(c.epoch, []) + PutU64(c.authorityGeneration, []) + PutU64(c.evidenceGeneration, [])
      + PutU64(c.evidenceWatermark, []) + PutU64(c.upstreamWatermark, []) + rest
  {
    hide PutU64;
    var b5 := PutU64(c.upstreamWatermark, rest);
    var b4 := PutU64(c.evidenceWatermark, b5);
    var b3 := PutU64(c.evidenceGeneration, b4);
    var b2 := PutU64(c.authorityGeneration, b3);
    WritersPrepend(0, c.upstreamWatermark, rest);
    WritersPrepend(0, c.evidenceWatermark, b5);
    WritersPrepend(0, c.evidenceGeneration, b4);
    WritersPrepend(0, c.authorityGeneration, b3);
    WritersPrepend(0, c.epoch, b2);
  }

  lemma BodyIsConcatenation(d: DurableState)
    ensures PutBody(d) ==
      PutCounters(CountersIn(d), []) + PutSection(d.policies, PutPolicyRecord, [])
      + PutSection(d.revocations, PutRevocationRecord, []) + PutSection(d.preferences, PutPreferenceRecord, [])
      + PutSection(d.stables, PutStableRecord, []) + PutSection(d.timings, PutTimingRecord, [])
      + PutSection(d.history, PutHistoryRecord, [])
  {
    hide PutSection, PutU64;
    var b6 := PutSection(d.history, PutHistoryRecord, []);
    var b5 := PutSection(d.timings, PutTimingRecord, b6);
    var b4 := PutSection(d.stables, PutStableRecord, b5);
    var b3 := PutSection(d.preferences, PutPreferenceRecord, b4);
    var b2 := PutSection(d.revocations, PutRevocationRecord, b3);
    var b1 := PutSection(d.policies, PutPolicyRecord, b2);
    SectionPrepends(d.timings, PutTimingRecord, b6);
    SectionPrepends(d.stables, PutStableRecord, b5);
    SectionPrepends(d.preferences, PutPreferenceRecord, b4);
    SectionPrepends(d.revocations, PutRevocationRecord, b3);
    SectionPrepends(d.policies, PutPolicyRecord, b2);
    CountersPrepend(CountersIn(d), b1);
    CountersPrepend(CountersIn(d), []);
    hide PutCounters;
  }

  method EncodeStore(d: DurableState, hash: seq<byte> -> u64) returns (bytes: seq<byte>)
    ensures bytes == Encode(d, hash)
  {
    hide PutBody, PutU32, PutU64;
    var writer := new ByteWriter();
    writer.WriteLittleEndian(STORE_MAGIC, 4);
    writer.WriteLittleEndian(PERSISTENCE_FORMAT_VERSION, 4);
    var body := WriteBody(d);
    HeaderIsConcatenation(body);
    writer.buffer := writer.buffer + body;
    HeaderIsConcatenation(body);
    assert writer.buffer == PutHeader(body) by {
      assert [] + LittleEndian(STORE_MAGIC, 4, []) == LittleEndian(STORE_MAGIC, 4, []);
    }
    hide PutHeader, LittleEndian;
    var integrity := hash(writer.buffer);
    writer.WriteU64(integrity);
    bytes := writer.buffer;
  }

  lemma HeaderIsConcatenation(body: seq<byte>)
    ensures PutHeader(body) == LittleEndian(STORE_MAGIC, 4, []) + LittleEndian(PERSISTENCE_FORMAT_VERSION, 4, []) + body
  {
    WritersPrepend(PERSISTENCE_FORMAT_VERSION, 0, body);
    WritersPrepend(STORE_MAGIC, 0, PutU32(PERSISTENCE_FORMAT_VERSION, body));
  }

  // ------------------------------------------------------------------------
  // Reading
  // ------------------------------------------------------------------------

  method ReadSection<T>(reader: ByteReader, limit: u64, missing: Status, get: (seq<T>, seq<byte>) -> Parse<T>)
    returns (r: Parse<seq<T>>)
    requires reader.Valid()
    modifies reader`offset
    ensures reader.Valid() && r == Section(old(reader.Remaining()), limit, missing, get)
    ensures r.Got? ==> reader.Remaining() == r.rest
  {
    hide U64, Bytes;
    ghost var input := reader.Remaining();
    var count := reader.ReadU64(missing);
    if count.Bad? {
      return Bad(count.status);
    }
    if count.value > limit {
      return Bad(AbsurdCount);
    }
    var xs: seq<T> := [];
    var left: nat := count.value;
    while left > 0
      invariant reader.Valid()
      invariant RecordsOf(count.rest, count.value, get, []) == RecordsOf(reader.Remaining(), left, get, xs)
    {
      var record := reader.ReadBytes(MAX_RECORD, Truncated);
      if record.Bad? {
        return Bad(record.status);
      }
      var x := get(xs, record.value);
      if x.Bad? {
        return Bad(x.status);
      }
      xs := xs + [x.value];
      left := left - 1;
    }
    return Got(xs, reader.Remaining());
  }

  method ReadCounters(reader: ByteReader) returns (c: Parse<Counters>)
    requires reader.Valid()
    modifies reader`offset
    ensures reader.Valid() && c == CountersOf(old(reader.Remaining()))
    ensures c.Got? ==> reader.Remaining() == c.rest
  {
    hide U64;
    var epoch := reader.ReadU64(Truncated);
    if epoch.Bad? { return Bad(epoch.status); }
    var authority := reader.ReadU64(Truncated);
    if authority.Bad? { return Bad(authority.status); }
    var evidence := reader.ReadU64(Truncated);
    if evidence.Bad? { return Bad(evidence.status); }
    var evidenceWatermark := reader.ReadU64(Truncated);
    if evidenceWatermark.Bad? { return Bad(evidenceWatermark.status); }
    var upstreamWatermark := reader.ReadU64(Truncated);
    if upstreamWatermark.Bad? { return Bad(upstreamWatermark.status); }
    if epoch.value == 0 || authority.value == 0 || evidence.value == 0 {
      return Bad(InvalidGeneration);
    }
    return Got(Counters(epoch.value, authority.value, evidence.value, evidenceWatermark.value, upstreamWatermark.value),
               reader.Remaining());
  }

  method ReadBody(body: seq<byte>) returns (r: Parse<DurableState>)
    ensures r == BodyOf(body)
  {
    hide CountersOf, Section;
    var reader := new ByteReader(body);
    var c := ReadCounters(reader);
    if c.Bad? { return Bad(c.status); }
    var policies := ReadSection(reader, MAX_POLICIES, Truncated, PolicyOf);
    if policies.Bad? { return Bad(policies.status); }
    var revocations := ReadSection(reader, MAX_REVOCATIONS, Truncated, NextRevocation);
    if revocations.Bad? { return Bad(revocations.status); }
    var preferences := ReadSection(reader, MAX_POLICIES, Truncated, NextPreference(policies.value));
    if preferences.Bad? { return Bad(preferences.status); }
    var stables := ReadSection(reader, MAX_POLICIES, AbsurdCount, NextStable(policies.value));
    if stables.Bad? { return Bad(stables.status); }
    var timings := ReadSection(reader, MAX_POLICIES, AbsurdCount, NextTiming(policies.value));
    if timings.Bad? { return Bad(timings.status); }
    var history := ReadSection(reader, MAX_HISTORY, AbsurdCount, NextHistory(policies.value));
    if history.Bad? { return Bad(history.status); }
    if reader.Remaining() != [] { return Bad(TrailingBytes); }
    r := Got(DurableState(PERSISTENCE_FORMAT_VERSION, c.value.epoch, c.value.authorityGeneration,
                          c.value.evidenceGeneration, c.value.evidenceWatermark, c.value.upstreamWatermark,
                          policies.value, revocations.value, preferences.value, stables.value, timings.value,
                          history.value), []);
  }

  method DecodeStore(bytes: seq<byte>, hash: seq<byte> -> u64) returns (r: Parse<DurableState>)
    ensures r == Decode(bytes, hash)
  {
    hide BodyOf;
    var body := Unseal(bytes, hash);
    if body.Bad? {
      return Bad(body.status);
    }
    r := ReadBody(body.value);
  }
}
