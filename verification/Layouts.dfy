/** The bytes of the messages, tag by tag, as their definitions number the fields. A tag is the
    field number times eight plus the wire type: 0 for varints, 2 for bytes and messages, 5 for
    four fixed bytes. */
module Layouts {
  import opened Varint
  import opened Wire
  import opened Messages
  import opened PackedIDs
  import opened Wrappers

  /** A number that is left out when it is zero. */
  function Number(tag: Byte, v: UInt64): seq<Byte> {
    if v == 0 then [] else [tag] + VarintBytes(v)
  }

  /** Bytes that are left out when there are none. */
  function Text(tag: Byte, b: Bytes): seq<Byte> {
    if b == [] then [] else Message(tag, b)
  }

  /** A message, which is always written. */
  function Message(tag: Byte, b: Bytes): seq<Byte> {
    [tag] + VarintBytes(|b|) + b
  }

  function Fixed(tag: Byte, v: UInt32): seq<Byte> {
    if v == 0 then [] else [tag, v % 256, v / 256 % 256, v / 65536 % 256, v / 16777216]
  }

  lemma CatBytes(a: seq<Field>, b: seq<Field>)
    requires AllWellFormed(a) && AllWellFormed(b)
    ensures EncodeFields(Cat(a, b)) == EncodeFields(a) + EncodeFields(b)
  {
    EncodeConcat(a, b);
  }

  lemma OptBytesText(num: int, b: Bytes)
    requires 1 <= num < 16
    ensures EncodeFields(OptBytes(num, b)) == Text(num * 8 + 2, b)
  {
    OptBytesBytes(num, b);
  }

  lemma FixedBytes(num: int, v: UInt32)
    requires 1 <= num < 16
    ensures EncodeFields(OptFixed32(num, v)) == Fixed(num * 8 + 5, v)
  {
    if v != 0 {
      EncodeSingle(Fixed32Field(num, LittleEndian32(v)));
      assert Tag(num, 5) == [num * 8 + 5];
      assert v / 256 / 256 == v / 65536 && v / 65536 / 256 == v / 16777216;
    }
  }

  lemma TimestampLayout(m: Timestamp)
    ensures TimestampBytes(m) == Number(8, ToUInt64(m.wallTime)) + Number(16, ToUInt64(m.logical))
  {
    var a, b := OptVarint(1, ToUInt64(m.wallTime)), OptVarint(2, ToUInt64(m.logical));
    CatBytes(a, b);
    OptVarintBytes(1, ToUInt64(m.wallTime));
    OptVarintBytes(2, ToUInt64(m.logical));
  }

  lemma SpanLayout(m: Span)
    ensures EncodeFields(SpanFields(m)) == Text(26, m.key) + Text(34, m.endKey)
  {
    CatBytes(OptBytes(3, m.key), OptBytes(4, m.endKey));
    OptBytesText(3, m.key);
    OptBytesText(4, m.endKey);
  }

  lemma MVCCKeyValueLayout(m: MVCCKeyValue)
    ensures EncodeFields(MVCCKeyValueFields(m)) == Text(10, m.key) + Text(18, m.value)
  {
    CatBytes(OptBytes(1, m.key), OptBytes(2, m.value));
    OptBytesText(1, m.key);
    OptBytesText(2, m.value);
  }

  lemma ValueLayout(m: Value)
    ensures EncodeFields(ValueFields(m))
         == Text(10, m.bytes) + (Fixed(21, m.checksum)
            + ((if m.timestamp.None? then [] else Message(26, TimestampBytes(m.timestamp.value))) + Number(32, ToUInt64(m.tag))))
  {
    var ts := if m.timestamp.None? then [] else TimestampBytes(m.timestamp.value);
    hide ToUInt64, EncodeFields, Cat, TimestampBytes;
    var third: seq<Field> := if m.timestamp.None? then [] else Embedded(3, ts);
    OptionalMessage(3, m.timestamp.Some?, ts);
    var c := Cat(third, OptVarint(4, ToUInt64(m.tag)));
    CatBytes(third, OptVarint(4, ToUInt64(m.tag)));
    CatBytes(OptFixed32(2, m.checksum), c);
    CatBytes(OptBytes(1, m.bytes), Cat(OptFixed32(2, m.checksum), c));
    hide Text, Fixed, Message, Number, OptBytes, OptFixed32, OptVarint, Embedded;
    OptBytesText(1, m.bytes);
    FixedBytes(2, m.checksum);
    OptNumber(4, ToUInt64(m.tag));
  }

  lemma OptionalMessage(num: int, there: bool, b: Bytes)
    requires 1 <= num < 16
    ensures var fs: seq<Field> := if there then Embedded(num, b) else [];
            AllWellFormed(fs) && EncodeFields(fs) == if there then Message(num * 8 + 2, b) else []
  {
    OptBytesBytes(num, b);
  }

  lemma OptNumber(num: int, v: UInt64)
    requires 1 <= num < 16
    ensures EncodeFields(OptVarint(num, v)) == Number(num * 8, v)
  {
    OptVarintBytes(num, v);
  }

  /** The elements one after the other, each under the same tag. */
  function Elements(kvs: seq<MVCCKeyValue>): seq<Byte>
    requires AllFit(kvs)
  {
    if kvs == [] then [] else Message(10, EncodeFields(MVCCKeyValueFields(kvs[0]))) + Elements(kvs[1..])
  }

  lemma {:induction false} SnapshotLayout(kvs: seq<MVCCKeyValue>)
    requires AllFit(kvs)
    ensures EncodeFields(SnapshotFields(kvs)) == Elements(kvs)
  {
    if kvs != [] {
      SnapshotLayout(kvs[1..]);
      CatBytes(Element(kvs[0]), SnapshotFields(kvs[1..]));
      OptBytesBytes(1, EncodeFields(MVCCKeyValueFields(kvs[0])));
    }
  }

  lemma TransactionLayout(m: Transaction)
    ensures EncodeFields(TransactionFields(m))
         == Text(10, m.name) + (Text(18, m.id) + (Number(24, ToUInt64(m.priority)) + (Number(32, ToUInt64(m.status))
            + (Number(40, ToUInt64(m.lastHeartbeat)) + (Message(50, TimestampBytes(m.timestamp)) + Number(56, ToUInt64(m.sequence)))))))
  {
    var ts := TimestampBytes(m.timestamp);
    hide ToUInt64, EncodeFields, Cat;
    var f := Cat(Embedded(6, ts), OptVarint(7, ToUInt64(m.sequence)));
    CatBytes(Embedded(6, ts), OptVarint(7, ToUInt64(m.sequence)));
    var e := Cat(OptVarint(5, ToUInt64(m.lastHeartbeat)), f);
    CatBytes(OptVarint(5, ToUInt64(m.lastHeartbeat)), f);
    var d := Cat(OptVarint(4, ToUInt64(m.status)), e);
    CatBytes(OptVarint(4, ToUInt64(m.status)), e);
    var c := Cat(OptVarint(3, ToUInt64(m.priority)), d);
    CatBytes(OptVarint(3, ToUInt64(m.priority)), d);
    CatBytes(OptBytes(2, m.id), c);
    CatBytes(OptBytes(1, m.name), Cat(OptBytes(2, m.id), c));
    TransactionParts(m, ts);
  }

  lemma TransactionParts(m: Transaction, ts: Bytes)
    ensures EncodeFields(OptBytes(1, m.name)) == Text(10, m.name) && EncodeFields(OptBytes(2, m.id)) == Text(18, m.id)
    ensures EncodeFields(OptVarint(3, ToUInt64(m.priority))) == Number(24, ToUInt64(m.priority))
    ensures EncodeFields(OptVarint(4, ToUInt64(m.status))) == Number(32, ToUInt64(m.status))
    ensures EncodeFields(OptVarint(5, ToUInt64(m.lastHeartbeat))) == Number(40, ToUInt64(m.lastHeartbeat))
    ensures EncodeFields(Embedded(6, ts)) == Message(50, ts)
    ensures EncodeFields(OptVarint(7, ToUInt64(m.sequence))) == Number(56, ToUInt64(m.sequence))
  {
    hide ToUInt64, EncodeFields;
    OptBytesText(1, m.name);
    OptBytesText(2, m.id);
    OptVarintBytes(3, ToUInt64(m.priority));
    OptVarintBytes(4, ToUInt64(m.status));
    OptVarintBytes(5, ToUInt64(m.lastHeartbeat));
    OptBytesBytes(6, ts);
    OptVarintBytes(7, ToUInt64(m.sequence));
  }

  lemma IntentLayout(m: Intent)
    requires Messages.Fits(SpanFields(m.span)) && Messages.Fits(TransactionFields(m.txn))
    ensures EncodeFields(IntentFields(m))
         == Message(10, EncodeFields(SpanFields(m.span))) + Message(18, EncodeFields(TransactionFields(m.txn)))
  {
    hide SpanFields, TransactionFields;
    var a, b := EncodeFields(SpanFields(m.span)), EncodeFields(TransactionFields(m.txn));
    CatBytes(Embedded(1, a), Embedded(2, b));
    OptBytesBytes(1, a);
    OptBytesBytes(2, b);
  }

  lemma RequestHeaderLayout(m: RequestHeader)
    requires m.txn.Some? ==> Messages.Fits(TransactionFields(m.txn.value))
    ensures EncodeFields(RequestHeaderFields(m))
         == Text(10, m.key) + (Text(18, m.endKey) + (Message(26, TimestampBytes(m.timestamp)) + (Number(32, ToUInt64(m.rangeID))
            + ((if m.txn.None? then [] else Message(42, EncodeFields(TransactionFields(m.txn.value)))) + Number(48, ToUInt64(m.flag))))))
  {
    hide ToUInt64, EncodeFields, Cat, TransactionFields, TimestampBytes;
    var ts, txn := TimestampBytes(m.timestamp), if m.txn.None? then [] else EncodeFields(TransactionFields(m.txn.value));
    var fifth: seq<Field> := if m.txn.None? then [] else Embedded(5, txn);
    OptionalMessage(5, m.txn.Some?, txn);
    var e := Cat(fifth, OptVarint(6, ToUInt64(m.flag)));
    CatBytes(fifth, OptVarint(6, ToUInt64(m.flag)));
    var d := Cat(OptVarint(4, ToUInt64(m.rangeID)), e);
    CatBytes(OptVarint(4, ToUInt64(m.rangeID)), e);
    var c := Cat(Embedded(3, ts), d);
    CatBytes(Embedded(3, ts), d);
    CatBytes(OptBytes(2, m.endKey), c);
    CatBytes(OptBytes(1, m.key), Cat(OptBytes(2, m.endKey), c));
    hide Text, Message, Number, OptBytes, OptVarint, Embedded;
    OptBytesText(1, m.key);
    OptBytesText(2, m.endKey);
    OptionalMessage(3, true, ts);
    OptNumber(4, ToUInt64(m.rangeID));
    OptNumber(6, ToUInt64(m.flag));
  }

  lemma PackedLayout(ids: seq<Int64>)
    requires |PackedBytes(ids)| < TWO63
    ensures EncodeFields(IDFields(ids)) == Text(18, PackedBytes(ids))
  {
    if ids != [] {
      VarintWidth(ToUInt64(ids[0]));
      assert PackedBytes(ids) != [];
      OptBytesText(2, PackedBytes(ids));
    }
  }

  lemma GetRangeStatsLayout(m: GetRangeStatsRequest)
    requires RequestFits(m)
    ensures EncodeFields(GetRangeStatsFields(m))
         == Message(10, EncodeFields(RequestHeaderFields(m.header))) + Text(18, PackedBytes(m.rangeIDs))
  {
    PackedLayout(m.rangeIDs);
    hide EncodeFields, Cat, RequestHeaderFields, PackedBytes, IDFields, Text;
    var head := EncodeFields(RequestHeaderFields(m.header));
    CatBytes(Embedded(1, head), IDFields(m.rangeIDs));
    OptionalMessage(1, true, head);
  }
}
