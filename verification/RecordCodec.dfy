/** Encoding and decoding of stored records over segmented buffers (adapters/config_file_store.py), proved
    against the record format: the encoder writes exactly the record, the decoder computes exactly Decode. */
module RecordCodec {
  import opened Options
  import opened Bytes
  import opened Decimal
  import opened JsonText
  import opened JsonParser
  import opened SegmentedRecords
  import opened RecordFormat
  import Crc32
  import JsonReader
  import JsonWriter

  datatype Layout = Layout(payloadLength: nat, headerLength: nat, footerLength: nat, recordLength: nat)

  function RecordOf(payload: Json, generation: nat): seq<byte> {
    RecordBytes(JsonWriter.CanonicalText(payload), generation)
  }

  /** What the encoder accepts. */
  predicate Storable(payload: Json, generation: int, maximum: nat) {
    1 <= generation <= MAX_GENERATION && Writable(payload, 0) && |RecordOf(payload, generation)| <= maximum
  }

  lemma RecordLength(text: seq<byte>, generation: nat)
    ensures var digits := |Digits(generation)| + |Digits(|text|)|;
            && |MetaLine(MAGIC, MetaOf(text, generation))| + 1 == |MAGIC| + digits + 12
            && |MetaLine(FOOTER_MAGIC, MetaOf(text, generation))| + 2 == |FOOTER_MAGIC| + digits + 13
            && |RecordBytes(text, generation)| == (|MAGIC| + digits + 12) + |text| + (|FOOTER_MAGIC| + digits + 13)
  {
    hide MetaLine, Digits;
    MetaLineLength(MAGIC, MetaOf(text, generation));
    MetaLineLength(FOOTER_MAGIC, MetaOf(text, generation));
    FramedSlices(MetaOf(text, generation), text);
  }

  /** The lengths of a record's parts before any of it is written; None for whatever cannot be stored. */
  method PlanRecord(payload: Json, generation: int, maximum: nat) returns (layout: Option<Layout>)
    ensures layout.Some? <==> Storable(payload, generation, maximum)
    ensures layout.Some? ==>
      var text := JsonWriter.CanonicalText(payload);
      && layout.value.payloadLength == |text|
      && layout.value.headerLength == |MetaLine(MAGIC, MetaOf(text, generation))| + 1
      && layout.value.footerLength == |MetaLine(FOOTER_MAGIC, MetaOf(text, generation))| + 2
      && layout.value.recordLength == |RecordOf(payload, generation)|
  {
    hide MetaLine, Digits, RecordBytes, JsonWriter.CanonicalText, Writable;
    if generation < 1 || generation > MAX_GENERATION { return None; }
    RecordLength(JsonWriter.CanonicalText(payload), generation);
    var size := JsonWriter.JsonSize(payload, 0, Some(maximum));
    if size.None? { return None; }
    var payloadLength := size.value;
    var headerLength := |MAGIC| + |Digits(generation)| + |Digits(payloadLength)| + 12;
    var footerLength := |FOOTER_MAGIC| + |Digits(generation)| + |Digits(payloadLength)| + 13;
    var recordLength := headerLength + payloadLength + footerLength;
    if recordLength > maximum { return None; }
    return Some(Layout(payloadLength, headerLength, footerLength, recordLength));
  }

  lemma FramedByOverwriting(blank: seq<byte>, m: Meta, text: seq<byte>)
    requires |blank| == |Framed(m, text)|
    ensures var header, footer := MetaLine(MAGIC, m) + [NEWLINE], [NEWLINE] + MetaLine(FOOTER_MAGIC, m) + [NEWLINE];
            && |header| + |text| + |footer| == |blank|
            && Overwritten(Overwritten(Overwritten(blank, |header|, text), 0, header), |header| + |text|, footer) == Framed(m, text)
  {
  }

  /** A fresh buffer holding the record; null for a payload or generation that cannot be stored. */
  method EncodeRecord(payload: Json, generation: int, maximum: nat) returns (record: SegmentedRecord?)
    ensures record != null <==> Storable(payload, generation, maximum)
    ensures record != null ==>
      fresh(record) && fresh(record.chunks) && record.Valid() && record.Contents() == RecordOf(payload, generation)
  {
    hide MetaLine, RecordBytes, JsonWriter.CanonicalText, Writable, Overwritten, Crc32.Checksum, Storable;
    var layout := PlanRecord(payload, generation, maximum);
    if layout.None? { return null; }
    StorableIsWritable(payload, generation, maximum);
    ghost var text := JsonWriter.CanonicalText(payload);
    record := new SegmentedRecord(layout.value.recordLength);
    ghost var blank := record.Contents();
    RecordLength(text, generation);
    var ok, payloadEnd := JsonWriter.WriteJson(payload, record, layout.value.headerLength, 0);
    WriteMetadata(record, generation, layout.value.headerLength, payloadEnd, blank, text);
  }

  /** The header and the footer around a payload that is already in place. */
  method WriteMetadata(
    record: SegmentedRecord, generation: nat, payloadStart: nat, payloadEnd: nat, ghost blank: seq<byte>, ghost text: seq<byte>)
    requires record.Valid() && |blank| == record.length == |RecordBytes(text, generation)|
    requires payloadStart == |MetaLine(MAGIC, MetaOf(text, generation))| + 1 && payloadEnd == payloadStart + |text|
    requires payloadEnd <= |blank| && record.Contents() == Overwritten(blank, payloadStart, text)
    modifies record.chunks
    ensures record.Contents() == RecordBytes(text, generation)
  {
    hide MetaLine, RecordBytes, Overwritten, Crc32.Checksum;
    OverwrittenSlice(blank, payloadStart, text);
    var written := record.SliceBytes(payloadStart, payloadEnd);
    var checksum := Crc32.Compute(written);
    var m := Meta(generation, payloadEnd - payloadStart, checksum);
    RecordIsFramed(text, generation);
    FramedByOverwriting(blank, m, text);
    var headerEnd := record.WriteBytes(0, MetaLine(MAGIC, m) + [NEWLINE]);
    var end := record.WriteBytes(payloadEnd, [NEWLINE] + MetaLine(FOOTER_MAGIC, m) + [NEWLINE]);
  }

  lemma RecordIsFramed(text: seq<byte>, generation: nat)
    ensures RecordBytes(text, generation) == Framed(Meta(generation, |text|, Crc32.Checksum(text)), text)
  {
  }

  lemma StorableIsWritable(payload: Json, generation: int, maximum: nat)
    requires Storable(payload, generation, maximum)
    ensures Writable(payload, 0) && 1 <= generation <= MAX_GENERATION && |RecordOf(payload, generation)| <= maximum
  {
  }

  /** The decoder over the buffer, check by check. */
  method DecodeRecord(record: SegmentedRecord, maximum: nat) returns (stored: Option<Stored>)
    requires record.Valid()
    ensures stored == RecordFormat.Decode(record.Contents(), maximum)
  {
    hide ParseMeta, Crc32.Checksum, JsonParser.ParseValue;
    if record.length == 0 || record.length > maximum { return None; }
    var headerEnd := record.FindByte(NEWLINE, 0);
    if headerEnd <= 0 { return None; }
    var line := record.SliceBytes(0, headerEnd);
    var header := ParseMeta(line, MAGIC);
    if header.None? { return None; }
    stored := DecodeRest(record, headerEnd + 1, header.value);
  }

  method DecodeRest(record: SegmentedRecord, start: nat, m: Meta) returns (stored: Option<Stored>)
    requires record.Valid() && start <= record.length
    ensures stored == DecodeBehind(record.Contents(), start, m)
  {
    hide ParseMeta, Crc32.Checksum, JsonParser.ParseValue, SegmentedRecord.Valid, SegmentedRecord.Contents;
    var payloadEnd := start + m.length;
    if payloadEnd >= record.length { return None; }
    var separator := record.Get(payloadEnd);
    if separator != Some(NEWLINE) { return None; }
    var footerEnd := record.FindByte(NEWLINE, payloadEnd + 1);
    if footerEnd != record.length - 1 { return None; }
    var line := record.SliceBytes(payloadEnd + 1, footerEnd);
    if ParseMeta(line, FOOTER_MAGIC) != Some(m) { return None; }
    var text := record.SliceBytes(start, payloadEnd);
    var checksum := Crc32.Compute(text);
    if checksum != m.checksum { return None; }
    var payload := ParsePayload(record, start, payloadEnd);
    if payload.None? { return None; }
    return Some(Stored(m.generation, payload.value, m.checksum, text));
  }

  /** A parser started inside a longer string accepts what it accepts of the part behind it. */
  lemma ParseInPlace(b: seq<byte>, start: nat, v: Json)
    requires start <= |b|
    ensures ParseValue(b, start, 0) == Some((v, |b|)) <==> Parse(b[start..]) == Some(v)
  {
    hide ParseValue, Printable, TextOf, Occurs, Parse;
    var text := b[start..];
    ParseInvertsPrint(text, v);
    if ParseValue(b, start, 0) == Some((v, |b|)) {
      ValueIsSound(b, start, 0);
      OccursSlice(TextOf(v), b, start);
    }
    if Parse(text) == Some(v) {
      OccursSlice(TextOf(v), b, start);
      ValueIsComplete(b, start, 0, v);
    }
  }

  /** The parser run over one range of the record. */
  method ParsePayload(record: SegmentedRecord, start: nat, end: nat) returns (payload: Option<Json>)
    requires record.Valid() && start <= end <= record.length
    ensures payload == Parse(record.Contents()[start..end])
  {
    hide ParseValue, Parse;
    ghost var input := record.Contents()[..end];
    assert input[start..] == record.Contents()[start..end];
    var parser := new JsonReader.CanonicalParser(record, start, end);
    payload := parser.Value(0);
    if payload.None? || parser.position != end { payload := None; }
    if payload.Some? {
      ParseInPlace(input, start, payload.value);
    } else if Parse(input[start..]).Some? {
      ParseInPlace(input, start, Parse(input[start..]).value);
    }
  }
}
