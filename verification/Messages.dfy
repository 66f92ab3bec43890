/** The records of data.proto and the request header of api.proto, the fields each one
    is written as, and the `switch` each one is read back with. */
module Messages {
  import opened Varint
  import opened Wire
  import opened Wrappers

  /** A Go byte slice or string; nil and empty are one value. */
  type Bytes = b: seq<Byte> | |b| < TWO63

  datatype Timestamp = Timestamp(wallTime: Int64, logical: Int32)
  datatype Span = Span(key: Bytes, endKey: Bytes)
  datatype Value = Value(bytes: Bytes, checksum: UInt32, timestamp: Option<Timestamp>, tag: Int32)
  datatype MVCCKeyValue = MVCCKeyValue(key: Bytes, value: Bytes)
  datatype SnapshotKeyValues = SnapshotKeyValues(keyValues: seq<MVCCKeyValue>)
  datatype Transaction = Transaction(
    name: Bytes, id: Bytes, priority: Int32, status: Int32,
    lastHeartbeat: Int64, timestamp: Timestamp, sequence: UInt32)
  datatype Intent = Intent(span: Span, txn: Transaction)
  datatype RequestHeader = RequestHeader(
    key: Bytes, endKey: Bytes, timestamp: Timestamp,
    rangeID: Int64, txn: Option<Transaction>, flag: Int32)

  const ZERO_TIMESTAMP := Timestamp(0, 0)
  const ZERO_SPAN := Span([], [])
  const ZERO_VALUE := Value([], 0, None, 0)
  const ZERO_MVCC_KEY_VALUE := MVCCKeyValue([], [])
  const ZERO_TRANSACTION := Transaction([], [], 0, 0, 0, ZERO_TIMESTAMP, 0)
  const ZERO_INTENT := Intent(ZERO_SPAN, ZERO_TRANSACTION)
  const ZERO_REQUEST_HEADER := RequestHeader([], [], ZERO_TIMESTAMP, 0, None, 0)

  // ------------------------------------------------------------ what is written

  /** proto3 leaves out zero scalars and empty strings. */
  function OptVarint(num: int, v: UInt64): (fs: seq<Field>)
    requires 1 <= num < TWO31
    ensures AllWellFormed(fs)
  {
    if v == 0 then [] else [VarintField(num, v)]
  }

  function OptBytes(num: int, b: Bytes): (fs: seq<Field>)
    requires 1 <= num < TWO31
    ensures AllWellFormed(fs)
  {
    if b == [] then [] else [BytesField(num, b)]
  }

  /** An embedded message is written even when it is empty. */
  function Embedded(num: int, b: Bytes): (fs: seq<Field>)
    requires 1 <= num < TWO31
    ensures AllWellFormed(fs)
  {
    [BytesField(num, b)]
  }

  function LittleEndian32(v: UInt32): (b: seq<Byte>)
    ensures |b| == 4
  {
    [v % 256, v / 256 % 256, v / 256 / 256 % 256, v / 256 / 256 / 256]
  }

  function OptFixed32(num: int, v: UInt32): (fs: seq<Field>)
    requires 1 <= num < TWO31
    ensures AllWellFormed(fs)
  {
    if v == 0 then [] else [Fixed32Field(num, LittleEndian32(v))]
  }

  /** For field numbers below 16 the tag is one byte. */
  lemma OptVarintBytes(num: int, v: UInt64)
    requires 1 <= num < 16
    ensures EncodeFields(OptVarint(num, v)) == if v == 0 then [] else [num * 8] + VarintBytes(v)
  {
    if v != 0 { EncodeSingle(VarintField(num, v)); }
  }

  lemma OptBytesBytes(num: int, b: Bytes)
    requires 1 <= num < 16
    ensures EncodeFields(Embedded(num, b)) == [num * 8 + 2] + VarintBytes(|b|) + b
    ensures b != [] ==> OptBytes(num, b) == Embedded(num, b)
  {
    var f := BytesField(num, b);
    EncodeSingle(f);
    assert Tag(num, 2) == [num * 8 + 2];
    assert EncodeField(f) == [num * 8 + 2] + (VarintBytes(|b|) + b);
  }

  lemma EncodeSingle(f: Field)
    requires WellFormed(f)
    ensures AllWellFormed([f]) && EncodeFields([f]) == EncodeField(f)
  {
    assert EncodeFields([f]) == EncodeField(f) + EncodeFields([f][1..]);
  }

  /** Concatenation of well-formed field lists. */
  function Cat(a: seq<Field>, b: seq<Field>): (fs: seq<Field>)
    requires AllWellFormed(a) && AllWellFormed(b)
    ensures AllWellFormed(fs)
  {
    AllWellFormedConcat(a, b);
    a + b
  }

  function TimestampFields(m: Timestamp): (fs: seq<Field>)
    ensures AllWellFormed(fs)
  {
    Cat(OptVarint(1, ToUInt64(m.wallTime)), OptVarint(2, ToUInt64(m.logical)))
  }

  function TimestampBytes(m: Timestamp): (b: Bytes)
    ensures |b| <= 22
  {
    TimestampIsSmall(m);
    EncodeFields(TimestampFields(m))
  }

  lemma TimestampIsSmall(m: Timestamp)
    ensures |EncodeFields(TimestampFields(m))| <= 22
  {
    hide ReadVarintFrom, VarintBytes;
    var a, b := OptVarint(1, ToUInt64(m.wallTime)), OptVarint(2, ToUInt64(m.logical));
    EncodeConcat(a, b);
    VarintWidth(ToUInt64(m.wallTime));
    VarintWidth(ToUInt64(m.logical));
    OptVarintBytes(1, ToUInt64(m.wallTime));
    OptVarintBytes(2, ToUInt64(m.logical));
  }

  function SpanFields(m: Span): (fs: seq<Field>)
    ensures AllWellFormed(fs)
  {
    Cat(OptBytes(3, m.key), OptBytes(4, m.endKey))
  }

  function ValueFields(m: Value): (fs: seq<Field>)
    ensures AllWellFormed(fs)
  {
    ValueFieldsWith(m, if m.timestamp.None? then [] else TimestampBytes(m.timestamp.value))
  }

  /** The fields with some encoding of the timestamp, if there is one. */
  function ValueFieldsWith(m: Value, ts: Bytes): (fs: seq<Field>)
    requires |ts| < TWO63
    ensures AllWellFormed(fs)
  {
    Cat(OptBytes(1, m.bytes),
    Cat(OptFixed32(2, m.checksum),
    Cat(if m.timestamp.None? then [] else Embedded(3, ts),
        OptVarint(4, ToUInt64(m.tag)))))
  }

  /** The size of an embedded message is that of a Go slice. */
  predicate Fits(fs: seq<Field>)
    requires AllWellFormed(fs)
  {
    |EncodeFields(fs)| < TWO63
  }

  function MVCCKeyValueFields(m: MVCCKeyValue): (fs: seq<Field>)
    ensures AllWellFormed(fs)
  {
    Cat(OptBytes(1, m.key), OptBytes(2, m.value))
  }

  predicate AllFit(kvs: seq<MVCCKeyValue>) {
    kvs == [] || (Fits(MVCCKeyValueFields(kvs[0])) && AllFit(kvs[1..]))
  }

  /** One element of the repeated field. */
  function Element(kv: MVCCKeyValue): (fs: seq<Field>)
    requires Fits(MVCCKeyValueFields(kv))
    ensures AllWellFormed(fs)
  {
    Embedded(1, EncodeFields(MVCCKeyValueFields(kv)))
  }

  function SnapshotFields(kvs: seq<MVCCKeyValue>): (fs: seq<Field>)
    requires AllFit(kvs)
    ensures AllWellFormed(fs)
  {
    if kvs == [] then []
    else Cat(Element(kvs[0]), SnapshotFields(kvs[1..]))
  }

  function TransactionFields(m: Transaction): (fs: seq<Field>)
    ensures AllWellFormed(fs)
  {
    TransactionFieldsWith(m, TimestampBytes(m.timestamp))
  }

  /** The fields with some encoding of the timestamp. */
  function TransactionFieldsWith(m: Transaction, ts: Bytes): (fs: seq<Field>)
    requires |ts| < TWO63
    ensures AllWellFormed(fs)
  {
    Cat(OptBytes(1, m.name),
    Cat(OptBytes(2, m.id),
    Cat(OptVarint(3, ToUInt64(m.priority)),
    Cat(OptVarint(4, ToUInt64(m.status)),
    Cat(OptVarint(5, ToUInt64(m.lastHeartbeat)),
    Cat(Embedded(6, ts),
        OptVarint(7, ToUInt64(m.sequence))))))))
  }

  function IntentFields(m: Intent): (fs: seq<Field>)
    requires Fits(SpanFields(m.span)) && Fits(TransactionFields(m.txn))
    ensures AllWellFormed(fs)
  {
    IntentFieldsWith(EncodeFields(SpanFields(m.span)), EncodeFields(TransactionFields(m.txn)))
  }

  function IntentFieldsWith(span: Bytes, txn: Bytes): (fs: seq<Field>)
    requires |span| < TWO63 && |txn| < TWO63
    ensures AllWellFormed(fs)
  {
    Cat(Embedded(1, span), Embedded(2, txn))
  }

  function RequestHeaderFields(m: RequestHeader): (fs: seq<Field>)
    requires m.txn.Some? ==> Fits(TransactionFields(m.txn.value))
    ensures AllWellFormed(fs)
  {
    Cat(OptBytes(1, m.key),
    Cat(OptBytes(2, m.endKey),
    Cat(Embedded(3, TimestampBytes(m.timestamp)),
    Cat(OptVarint(4, ToUInt64(m.rangeID)),
    Cat(if m.txn.None? then [] else Embedded(5, EncodeFields(TransactionFields(m.txn.value))),
        OptVarint(6, ToUInt64(m.flag)))))))
  }

  // ------------------------------------------------------------ what is read

  /** A varint case of a switch: any other wire type is refused, then comes the loop. */
  function ReadInt(wt: int, t: seq<Byte>): WireResult<(nat, nat)> {
    if wt != 0 then Err(WrongWireType) else ReadVarint(t)
  }

  /** A length-delimited case. */
  function ReadBytes(wt: int, t: seq<Byte>): (r: WireResult<(Bytes, nat)>) {
    if wt != 2 then Err(WrongWireType)
    else match ReadVarint(t)
      case Err(e) => Err(e)
      case Ok((raw, used)) =>
        var length := ToInt64(raw);
        if length < 0 then Err(InvalidLength)
        else if used + length > |t| then Err(UnexpectedEOF)
        else Ok((t[used..used + length], used + length))
  }

  function ReadFixed32(wt: int, t: seq<Byte>): WireResult<(UInt32, nat)> {
    if wt != 5 then Err(WrongWireType)
    else if 4 > |t| then Err(UnexpectedEOF)
    else
      var b0: int, b1: int, b2: int, b3: int := t[0], t[1], t[2], t[3];
      Ok((b0 + 256 * b1 + 65536 * b2 + 16777216 * b3, 4))
  }

  /** Store what was read, or report what went wrong. */
  function Store<V, M>(r: WireResult<(V, nat)>, assign: V -> M): Step<M> {
    match r case Err(e) => Fail(e) case Ok((v, used)) => Next(assign(v), used)
  }

  function TimestampSwitch(m: Timestamp, num: int, wt: int, t: seq<Byte>): Step<Timestamp> {
    match num
    case 1 => Store(ReadInt(wt, t), v => m.(wallTime := ToInt64(v)))
    case 2 => Store(ReadInt(wt, t), v => m.(logical := ToInt32(v)))
    case _ => Unknown
  }

  function SpanSwitch(m: Span, num: int, wt: int, t: seq<Byte>): Step<Span> {
    match num
    case 3 => Store(ReadBytes(wt, t), b => m.(key := b))
    case 4 => Store(ReadBytes(wt, t), b => m.(endKey := b))
    case _ => Unknown
  }

  /** An embedded message is decoded into the one already there. */
  function Merge<M>(sw: Switch<M>, m: M, r: WireResult<(Bytes, nat)>): WireResult<(M, nat)> {
    match r
    case Err(e) => Err(e)
    case Ok((b, used)) => Within(Decode(sw, m, b), used)
  }

  function Within<M>(r: WireResult<M>, used: nat): WireResult<(M, nat)> {
    match r case Err(e) => Err(e) case Ok(m) => Ok((m, used))
  }

  function ValueSwitch(m: Value, num: int, wt: int, t: seq<Byte>): Step<Value> {
    match num
    case 1 => Store(ReadBytes(wt, t), b => m.(bytes := b))
    case 2 => Store(ReadFixed32(wt, t), v => m.(checksum := v))
    case 3 =>
      var prior := if m.timestamp.None? then ZERO_TIMESTAMP else m.timestamp.value;
      Store(Merge(TimestampSwitch, prior, ReadBytes(wt, t)), ts => m.(timestamp := Some(ts)))
    case 4 => Store(ReadInt(wt, t), v => m.(tag := ToInt32(v)))
    case _ => Unknown
  }

  function MVCCKeyValueSwitch(m: MVCCKeyValue, num: int, wt: int, t: seq<Byte>): Step<MVCCKeyValue> {
    match num
    case 1 => Store(ReadBytes(wt, t), b => m.(key := b))
    case 2 => Store(ReadBytes(wt, t), b => m.(value := b))
    case _ => Unknown
  }

  function SnapshotSwitch(m: SnapshotKeyValues, num: int, wt: int, t: seq<Byte>): Step<SnapshotKeyValues> {
    match num
    case 1 => Store(Merge(MVCCKeyValueSwitch, ZERO_MVCC_KEY_VALUE, ReadBytes(wt, t)),
                         kv => m.(keyValues := m.keyValues + [kv]))
    case _ => Unknown
  }

  function TransactionSwitch(m: Transaction, num: int, wt: int, t: seq<Byte>): Step<Transaction> {
    match num
    case 1 => Store(ReadBytes(wt, t), b => m.(name := b))
    case 2 => Store(ReadBytes(wt, t), b => m.(id := b))
    case 3 => Store(ReadInt(wt, t), v => m.(priority := ToInt32(v)))
    case 4 => Store(ReadInt(wt, t), v => m.(status := ToInt32(v)))
    case 5 => Store(ReadInt(wt, t), v => m.(lastHeartbeat := ToInt64(v)))
    case 6 => Store(Merge(TimestampSwitch, m.timestamp, ReadBytes(wt, t)), ts => m.(timestamp := ts))
    case 7 => Store(ReadInt(wt, t), v => m.(sequence := ToUInt32(v)))
    case _ => Unknown
  }

  function IntentSwitch(m: Intent, num: int, wt: int, t: seq<Byte>): Step<Intent> {
    match num
    case 1 => Store(Merge(SpanSwitch, m.span, ReadBytes(wt, t)), s => m.(span := s))
    case 2 => Store(Merge(TransactionSwitch, m.txn, ReadBytes(wt, t)), x => m.(txn := x))
    case _ => Unknown
  }

  function RequestHeaderSwitch(m: RequestHeader, num: int, wt: int, t: seq<Byte>): Step<RequestHeader> {
    match num
    case 1 => Store(ReadBytes(wt, t), b => m.(key := b))
    case 2 => Store(ReadBytes(wt, t), b => m.(endKey := b))
    case 3 => Store(Merge(TimestampSwitch, m.timestamp, ReadBytes(wt, t)), ts => m.(timestamp := ts))
    case 4 => Store(ReadInt(wt, t), v => m.(rangeID := ToInt64(v)))
    case 5 =>
      var prior := if m.txn.None? then ZERO_TRANSACTION else m.txn.value;
      Store(Merge(TransactionSwitch, prior, ReadBytes(wt, t)), x => m.(txn := Some(x)))
    case 6 => Store(ReadInt(wt, t), v => m.(flag := ToInt32(v)))
    case _ => Unknown
  }

  // ------------------------------------------------------------ the switches are local

  lemma ReadersAreLocal(f: Field, rest: seq<Byte>)
    requires WellFormed(f)
    ensures ReadInt(WireType(f), Body(f) + rest)
         == (if f.VarintField? then Ok((f.v, |Body(f)|)) else Err(WrongWireType))
    ensures ReadBytes(WireType(f), Body(f) + rest)
         == (if f.BytesField? then Ok((f.b, |Body(f)|)) else Err(WrongWireType))
    ensures ReadFixed32(WireType(f), Body(f) + rest) == ReadFixed32(WireType(f), Body(f))
    ensures f.Fixed32Field? ==> |Body(f)| == 4
  {
    hide ReadVarintFrom, VarintBytes;
    match f {
      case VarintField(_, v) => ReadWritten(v, rest);
      case BytesField(_, b) =>
        assert Body(f) + rest == VarintBytes(|b|) + (b + rest);
        ReadWritten(|b|, b + rest);
        assert (Body(f) + rest)[|VarintBytes(|b|)|..|Body(f)|] == b;
      case _ =>
    }
  }

  /** The readers give one answer with and without what follows the field. */
  lemma ReadersAgree(f: Field, rest: seq<Byte>)
    requires WellFormed(f)
    ensures ReadInt(WireType(f), Body(f) + rest) == ReadInt(WireType(f), Body(f))
    ensures ReadBytes(WireType(f), Body(f) + rest) == ReadBytes(WireType(f), Body(f))
    ensures ReadFixed32(WireType(f), Body(f) + rest) == ReadFixed32(WireType(f), Body(f))
    ensures ReadInt(WireType(f), Body(f)).Ok? ==> ReadInt(WireType(f), Body(f)).value.1 == |Body(f)|
    ensures ReadBytes(WireType(f), Body(f)).Ok? ==> ReadBytes(WireType(f), Body(f)).value.1 == |Body(f)|
    ensures ReadFixed32(WireType(f), Body(f)).Ok? ==> ReadFixed32(WireType(f), Body(f)).value.1 == |Body(f)|
  {
    hide ReadVarintFrom, VarintBytes;
    ReadersAreLocal(f, rest);
    ReadersAreLocal(f, []);
    assert Body(f) + [] == Body(f);
  }

  lemma TimestampIsLocal()
    ensures LocalSwitch(TimestampSwitch) && Knows(TimestampSwitch, {1, 2})
  {
    hide Body, WireType, ReadInt, ReadBytes, ReadFixed32, Decode;
    forall f, m, rest | WellFormed(f) ensures LocalAt(TimestampSwitch, f, m, rest) { ReadersAgree(f, rest); }
  }

  lemma SpanIsLocal()
    ensures LocalSwitch(SpanSwitch) && Knows(SpanSwitch, {3, 4})
  {
    hide Body, WireType, ReadInt, ReadBytes, ReadFixed32, Decode;
    forall f, m, rest | WellFormed(f) ensures LocalAt(SpanSwitch, f, m, rest) { ReadersAgree(f, rest); }
  }

  lemma ValueIsLocal()
    ensures LocalSwitch(ValueSwitch) && Knows(ValueSwitch, {1, 2, 3, 4})
  {
    hide Body, WireType, ReadInt, ReadBytes, ReadFixed32, Decode;
    forall f, m, rest | WellFormed(f) ensures LocalAt(ValueSwitch, f, m, rest) { ReadersAgree(f, rest); }
  }

  lemma MVCCKeyValueIsLocal()
    ensures LocalSwitch(MVCCKeyValueSwitch) && Knows(MVCCKeyValueSwitch, {1, 2})
  {
    hide Body, WireType, ReadInt, ReadBytes, ReadFixed32, Decode;
    forall f, m, rest | WellFormed(f) ensures LocalAt(MVCCKeyValueSwitch, f, m, rest) { ReadersAgree(f, rest); }
  }

  lemma SnapshotIsLocal()
    ensures LocalSwitch(SnapshotSwitch) && Knows(SnapshotSwitch, {1})
  {
    hide Body, WireType, ReadInt, ReadBytes, ReadFixed32, Decode;
    forall f, m, rest | WellFormed(f) ensures LocalAt(SnapshotSwitch, f, m, rest) { ReadersAgree(f, rest); }
  }

  lemma TransactionIsLocal()
    ensures LocalSwitch(TransactionSwitch) && Knows(TransactionSwitch, {1, 2, 3, 4, 5, 6, 7})
  {
    hide Body, WireType, ReadInt, ReadBytes, ReadFixed32, Decode;
    forall f, m, rest | WellFormed(f) ensures LocalAt(TransactionSwitch, f, m, rest) { ReadersAgree(f, rest); }
  }

  lemma IntentIsLocal()
    ensures LocalSwitch(IntentSwitch) && Knows(IntentSwitch, {1, 2})
  {
    hide Body, WireType, ReadInt, ReadBytes, ReadFixed32, Decode;
    forall f, m, rest | WellFormed(f) ensures LocalAt(IntentSwitch, f, m, rest) { ReadersAgree(f, rest); }
  }

  lemma RequestHeaderIsLocal()
    ensures LocalSwitch(RequestHeaderSwitch) && Knows(RequestHeaderSwitch, {1, 2, 3, 4, 5, 6})
  {
    hide Body, WireType, ReadInt, ReadBytes, ReadFixed32, Decode;
    forall f, m, rest | WellFormed(f) ensures LocalAt(RequestHeaderSwitch, f, m, rest) { ReadersAgree(f, rest); }
  }

  // ------------------------------------------------------------ round trips

  lemma FoldCat<M>(sw: Switch<M>, m: M, a: seq<Field>, m': M, b: seq<Field>)
    requires AllWellFormed(a) && AllWellFormed(b)
    requires Fold(sw, m, a) == Ok(m')
    ensures Fold(sw, m, Cat(a, b)) == Fold(sw, m', b)
  {
    FoldConcat(sw, m, a, b);
  }

  lemma FoldSingle<M>(sw: Switch<M>, m: M, f: Field, m': M)
    requires WellFormed(f) && sw(m, f.num, WireType(f), Body(f)) == Next(m', |Body(f)|)
    ensures AllWellFormed([f]) && Fold(sw, m, [f]) == Ok(m')
  {
    assert Fold(sw, m, [f]) == Fold(sw, m', [f][1..]);
  }

  lemma FoldVarint<M>(sw: Switch<M>, m: M, num: int, v: UInt64, m': M)
    requires 1 <= num < TWO31
    requires v == 0 ==> m == m'
    requires v != 0 ==> sw(m, num, 0, VarintBytes(v)) == Next(m', |VarintBytes(v)|)
    ensures Fold(sw, m, OptVarint(num, v)) == Ok(m')
  {
    hide ReadVarintFrom, VarintBytes;
    if v != 0 { FoldSingle(sw, m, VarintField(num, v), m'); }
  }

  lemma FoldBytes<M>(sw: Switch<M>, m: M, num: int, b: Bytes, m': M)
    requires 1 <= num < TWO31
    requires sw(m, num, 2, VarintBytes(|b|) + b) == Next(m', |VarintBytes(|b|) + b|)
    ensures Fold(sw, m, Embedded(num, b)) == Ok(m')
    ensures b != [] || m == m' ==> Fold(sw, m, OptBytes(num, b)) == Ok(m')
  {
    hide ReadVarintFrom, VarintBytes;
    FoldSingle(sw, m, BytesField(num, b), m');
  }

  /** What the varint and length-delimited cases read from a field just written. */
  lemma ReadsBackInt(v: UInt64)
    ensures ReadInt(0, VarintBytes(v)) == Ok((v, |VarintBytes(v)|))
  {
    hide ReadVarintFrom, VarintBytes;
    ReadersAreLocal(VarintField(1, v), []);
    assert VarintBytes(v) + [] == VarintBytes(v);
  }

  lemma ReadsBackBytes(b: Bytes)
    ensures ReadBytes(2, VarintBytes(|b|) + b) == Ok((b, |VarintBytes(|b|) + b|))
  {
    hide ReadVarintFrom, VarintBytes;
    ReadersAreLocal(BytesField(1, b), []);
    assert VarintBytes(|b|) + b + [] == VarintBytes(|b|) + b;
  }

  /** A message type round-trips from the message it is decoded into. */
  ghost predicate RoundTrips<M>(sw: Switch<M>, zero: M, m: M, fs: seq<Field>)
    requires AllWellFormed(fs)
  {
    Decode(sw, zero, EncodeFields(fs)) == Ok(m)
  }

  lemma RoundTripFromFold<M(!new)>(sw: Switch<M>, zero: M, m: M, fs: seq<Field>)
    requires AllWellFormed(fs) && LocalSwitch(sw)
    requires Fold(sw, zero, fs) == Ok(m)
    ensures RoundTrips(sw, zero, m, fs)
  {
    AllAreLocal(sw, fs);
    DecodeIsFold(sw, zero, fs);
  }

  lemma TimestampRoundTrip(m: Timestamp)
    ensures RoundTrips(TimestampSwitch, ZERO_TIMESTAMP, m, TimestampFields(m))
  {
    hide ReadVarintFrom, VarintBytes;
    var w, l := ToUInt64(m.wallTime), ToUInt64(m.logical);
    ReadsBackInt(w);
    ReadsBackInt(l);
    SignRoundTrip(m.wallTime);
    SignRoundTrip(m.logical);
    var m1 := ZERO_TIMESTAMP.(wallTime := m.wallTime);
    FoldVarint(TimestampSwitch, ZERO_TIMESTAMP, 1, w, m1);
    FoldVarint(TimestampSwitch, m1, 2, l, m);
    FoldCat(TimestampSwitch, ZERO_TIMESTAMP, OptVarint(1, w), m1, OptVarint(2, l));
    TimestampIsLocal();
    RoundTripFromFold(TimestampSwitch, ZERO_TIMESTAMP, m, TimestampFields(m));
  }

  lemma TransactionRoundTrip(m: Transaction)
    ensures RoundTrips(TransactionSwitch, ZERO_TRANSACTION, m, TransactionFields(m))
  {
    TimestampRoundTrip(m.timestamp);
    TransactionReadsBack(m, TimestampBytes(m.timestamp));
  }

  /** Whatever encoding of the timestamp is embedded. */
  lemma TransactionReadsBack(m: Transaction, ts: Bytes)
    requires |ts| < TWO63 && Decode(TimestampSwitch, ZERO_TIMESTAMP, ts) == Ok(m.timestamp)
    ensures RoundTrips(TransactionSwitch, ZERO_TRANSACTION, m, TransactionFieldsWith(m, ts))
  {
    hide ReadVarintFrom, VarintBytes;
    var sw := TransactionSwitch;
    var m0 := ZERO_TRANSACTION;
    var m1 := m0.(name := m.name);
    var m2 := m1.(id := m.id);
    var m3 := m2.(priority := m.priority);
    var m4 := m3.(status := m.status);
    var m5 := m4.(lastHeartbeat := m.lastHeartbeat);
    var m6 := m5.(timestamp := m.timestamp);
    var f7 := OptVarint(7, ToUInt64(m.sequence));
    var f6 := Cat(Embedded(6, ts), f7);
    var f5 := Cat(OptVarint(5, ToUInt64(m.lastHeartbeat)), f6);
    var f4 := Cat(OptVarint(4, ToUInt64(m.status)), f5);
    var f3 := Cat(OptVarint(3, ToUInt64(m.priority)), f4);
    var f2 := Cat(OptBytes(2, m.id), f3);
    TransactionHead(m);
    TransactionInts(m, m2);
    TransactionTail(m, m5, ts);
    FoldCat(sw, m0, OptBytes(1, m.name), m1, f2);
    FoldCat(sw, m1, OptBytes(2, m.id), m2, f3);
    FoldCat(sw, m2, OptVarint(3, ToUInt64(m.priority)), m3, f4);
    FoldCat(sw, m3, OptVarint(4, ToUInt64(m.status)), m4, f5);
    FoldCat(sw, m4, OptVarint(5, ToUInt64(m.lastHeartbeat)), m5, f6);
    FoldCat(sw, m5, Embedded(6, ts), m6, f7);
    TransactionIsLocal();
    RoundTripFromFold(sw, m0, m, TransactionFieldsWith(m, ts));
  }

  lemma TransactionHead(m: Transaction)
    ensures Fold(TransactionSwitch, ZERO_TRANSACTION, OptBytes(1, m.name)) == Ok(ZERO_TRANSACTION.(name := m.name))
    ensures Fold(TransactionSwitch, ZERO_TRANSACTION.(name := m.name), OptBytes(2, m.id))
         == Ok(ZERO_TRANSACTION.(name := m.name, id := m.id))
  {
    hide ReadVarintFrom, VarintBytes;
    ReadsBackBytes(m.name);
    ReadsBackBytes(m.id);
    FoldBytes(TransactionSwitch, ZERO_TRANSACTION, 1, m.name, ZERO_TRANSACTION.(name := m.name));
    FoldBytes(TransactionSwitch, ZERO_TRANSACTION.(name := m.name), 2, m.id, ZERO_TRANSACTION.(name := m.name, id := m.id));
  }

  lemma TransactionInts(m: Transaction, x: Transaction)
    requires x.priority == 0 && x.status == 0 && x.lastHeartbeat == 0
    ensures Fold(TransactionSwitch, x, OptVarint(3, ToUInt64(m.priority))) == Ok(x.(priority := m.priority))
    ensures Fold(TransactionSwitch, x.(priority := m.priority), OptVarint(4, ToUInt64(m.status)))
         == Ok(x.(priority := m.priority, status := m.status))
    ensures Fold(TransactionSwitch, x.(priority := m.priority, status := m.status), OptVarint(5, ToUInt64(m.lastHeartbeat)))
         == Ok(x.(priority := m.priority, status := m.status, lastHeartbeat := m.lastHeartbeat))
  {
    hide ReadVarintFrom, VarintBytes;
    ReadsBackInt(ToUInt64(m.priority));
    ReadsBackInt(ToUInt64(m.status));
    ReadsBackInt(ToUInt64(m.lastHeartbeat));
    SignRoundTrip(m.priority);
    SignRoundTrip(m.status);
    SignRoundTrip(m.lastHeartbeat);
    var x1 := x.(priority := m.priority);
    var x2 := x1.(status := m.status);
    FoldVarint(TransactionSwitch, x, 3, ToUInt64(m.priority), x1);
    FoldVarint(TransactionSwitch, x1, 4, ToUInt64(m.status), x2);
    FoldVarint(TransactionSwitch, x2, 5, ToUInt64(m.lastHeartbeat), x2.(lastHeartbeat := m.lastHeartbeat));
  }

  lemma TransactionTail(m: Transaction, x: Transaction, ts: Bytes)
    requires x.timestamp == ZERO_TIMESTAMP && x.sequence == 0
    requires |ts| < TWO63 && Decode(TimestampSwitch, ZERO_TIMESTAMP, ts) == Ok(m.timestamp)
    ensures Fold(TransactionSwitch, x, Embedded(6, ts)) == Ok(x.(timestamp := m.timestamp))
    ensures Fold(TransactionSwitch, x.(timestamp := m.timestamp), OptVarint(7, ToUInt64(m.sequence)))
         == Ok(x.(timestamp := m.timestamp, sequence := m.sequence))
  {
    hide ReadVarintFrom, VarintBytes, Decode;
    ReadsBackBytes(ts);
    var x1 := x.(timestamp := m.timestamp);
    FoldBytes(TransactionSwitch, x, 6, ts, x1);
    ReadsBackInt(ToUInt64(m.sequence));
    SignRoundTrip(m.sequence);
    FoldVarint(TransactionSwitch, x1, 7, ToUInt64(m.sequence), x1.(sequence := m.sequence));
  }

  lemma ValueRoundTrip(m: Value)
    ensures RoundTrips(ValueSwitch, ZERO_VALUE, m, ValueFields(m))
  {
    if m.timestamp.Some? { TimestampRoundTrip(m.timestamp.value); }
    ValueReadsBack(m, if m.timestamp.None? then [] else TimestampBytes(m.timestamp.value));
  }

  lemma ValueReadsBack(m: Value, ts: Bytes)
    requires |ts| < TWO63 && (m.timestamp.Some? ==> Decode(TimestampSwitch, ZERO_TIMESTAMP, ts) == Ok(m.timestamp.value))
    ensures RoundTrips(ValueSwitch, ZERO_VALUE, m, ValueFieldsWith(m, ts))
  {
    hide ReadVarintFrom, VarintBytes;
    var sw := ValueSwitch;
    var m1 := ZERO_VALUE.(bytes := m.bytes);
    var m2 := m1.(checksum := m.checksum);
    var m3 := m2.(timestamp := m.timestamp);
    var f3 := if m.timestamp.None? then [] else Embedded(3, ts);
    var f4 := OptVarint(4, ToUInt64(m.tag));
    ReadsBackBytes(m.bytes);
    FoldBytes(sw, ZERO_VALUE, 1, m.bytes, m1);
    ChecksumReadsBack(m1, m.checksum);
    ValueTimestampReadsBack(m2, m.timestamp, ts);
    ReadsBackInt(ToUInt64(m.tag));
    SignRoundTrip(m.tag);
    FoldVarint(sw, m3, 4, ToUInt64(m.tag), m);
    FoldCat(sw, ZERO_VALUE, OptBytes(1, m.bytes), m1, Cat(OptFixed32(2, m.checksum), Cat(f3, f4)));
    FoldCat(sw, m1, OptFixed32(2, m.checksum), m2, Cat(f3, f4));
    FoldCat(sw, m2, f3, m3, f4);
    ValueIsLocal();
    RoundTripFromFold(sw, ZERO_VALUE, m, ValueFieldsWith(m, ts));
  }

  lemma LittleEndianReadsBack(v: UInt32)
    ensures ReadFixed32(5, LittleEndian32(v)) == Ok((v, 4))
  {
  }

  lemma ChecksumReadsBack(x: Value, v: UInt32)
    requires x.checksum == 0
    ensures Fold(ValueSwitch, x, OptFixed32(2, v)) == Ok(x.(checksum := v))
  {
    hide LittleEndian32, ReadFixed32;
    if v != 0 {
      LittleEndianReadsBack(v);
      FoldSingle(ValueSwitch, x, Fixed32Field(2, LittleEndian32(v)), x.(checksum := v));
    }
  }

  lemma ValueTimestampReadsBack(x: Value, ts: Option<Timestamp>, b: Bytes)
    requires x.timestamp.None? && |b| < TWO63
    requires ts.Some? ==> Decode(TimestampSwitch, ZERO_TIMESTAMP, b) == Ok(ts.value)
    ensures Fold(ValueSwitch, x, if ts.None? then [] else Embedded(3, b)) == Ok(x.(timestamp := ts))
  {
    hide ReadVarintFrom, VarintBytes, Decode;
    if ts.Some? {
      ReadsBackBytes(b);
      FoldBytes(ValueSwitch, x, 3, b, x.(timestamp := ts));
    }
  }

  lemma SpanRoundTrip(m: Span)
    ensures RoundTrips(SpanSwitch, ZERO_SPAN, m, SpanFields(m))
  {
    hide ReadVarintFrom, VarintBytes;
    var m1 := ZERO_SPAN.(key := m.key);
    ReadsBackBytes(m.key);
    ReadsBackBytes(m.endKey);
    FoldBytes(SpanSwitch, ZERO_SPAN, 3, m.key, m1);
    FoldBytes(SpanSwitch, m1, 4, m.endKey, m);
    FoldCat(SpanSwitch, ZERO_SPAN, OptBytes(3, m.key), m1, OptBytes(4, m.endKey));
    SpanIsLocal();
    RoundTripFromFold(SpanSwitch, ZERO_SPAN, m, SpanFields(m));
  }

  lemma IntentRoundTrip(m: Intent)
    requires Fits(SpanFields(m.span)) && Fits(TransactionFields(m.txn))
    ensures RoundTrips(IntentSwitch, ZERO_INTENT, m, IntentFields(m))
  {
    SpanRoundTrip(m.span);
    TransactionRoundTrip(m.txn);
    IntentReadsBack(m, EncodeFields(SpanFields(m.span)), EncodeFields(TransactionFields(m.txn)));
  }

  lemma IntentReadsBack(m: Intent, s: Bytes, x: Bytes)
    requires |s| < TWO63 && |x| < TWO63
    requires Decode(SpanSwitch, ZERO_SPAN, s) == Ok(m.span) && Decode(TransactionSwitch, ZERO_TRANSACTION, x) == Ok(m.txn)
    ensures RoundTrips(IntentSwitch, ZERO_INTENT, m, IntentFieldsWith(s, x))
  {
    hide ReadVarintFrom, VarintBytes;
    var m1 := ZERO_INTENT.(span := m.span);
    ReadsBackBytes(s);
    ReadsBackBytes(x);
    FoldBytes(IntentSwitch, ZERO_INTENT, 1, s, m1);
    FoldBytes(IntentSwitch, m1, 2, x, m);
    FoldCat(IntentSwitch, ZERO_INTENT, Embedded(1, s), m1, Embedded(2, x));
    IntentIsLocal();
    RoundTripFromFold(IntentSwitch, ZERO_INTENT, m, IntentFieldsWith(s, x));
  }

  lemma MVCCKeyValueRoundTrip(m: MVCCKeyValue)
    ensures RoundTrips(MVCCKeyValueSwitch, ZERO_MVCC_KEY_VALUE, m, MVCCKeyValueFields(m))
  {
    hide ReadVarintFrom, VarintBytes;
    var m1 := ZERO_MVCC_KEY_VALUE.(key := m.key);
    ReadsBackBytes(m.key);
    ReadsBackBytes(m.value);
    FoldBytes(MVCCKeyValueSwitch, ZERO_MVCC_KEY_VALUE, 1, m.key, m1);
    FoldBytes(MVCCKeyValueSwitch, m1, 2, m.value, m);
    FoldCat(MVCCKeyValueSwitch, ZERO_MVCC_KEY_VALUE, OptBytes(1, m.key), m1, OptBytes(2, m.value));
    MVCCKeyValueIsLocal();
    RoundTripFromFold(MVCCKeyValueSwitch, ZERO_MVCC_KEY_VALUE, m, MVCCKeyValueFields(m));
  }

  lemma SnapshotOne(m: SnapshotKeyValues, kv: MVCCKeyValue)
    requires Fits(MVCCKeyValueFields(kv))
    ensures Fold(SnapshotSwitch, m, Element(kv)) == Ok(SnapshotKeyValues(m.keyValues + [kv]))
  {
    hide ReadVarintFrom, VarintBytes;
    var b := EncodeFields(MVCCKeyValueFields(kv));
    ReadsBackBytes(b);
    MVCCKeyValueRoundTrip(kv);
    FoldBytes(SnapshotSwitch, m, 1, b, SnapshotKeyValues(m.keyValues + [kv]));
  }

  /** Repeated messages are appended in order to those already decoded. */
  lemma {:induction false} SnapshotFold(m: SnapshotKeyValues, kvs: seq<MVCCKeyValue>)
    requires AllFit(kvs)
    ensures Fold(SnapshotSwitch, m, SnapshotFields(kvs)) == Ok(SnapshotKeyValues(m.keyValues + kvs))
    decreases kvs
  {
    hide EncodeFields, Body, Element, SnapshotSwitch, Cat, MVCCKeyValueFields;
    if kvs == [] {
      assert m.keyValues + kvs == m.keyValues;
    } else {
      var m1 := SnapshotKeyValues(m.keyValues + [kvs[0]]);
      SnapshotOne(m, kvs[0]);
      FoldCat(SnapshotSwitch, m, Element(kvs[0]), m1, SnapshotFields(kvs[1..]));
      SnapshotFold(m1, kvs[1..]);
      assert m1.keyValues + kvs[1..] == m.keyValues + kvs;
    }
  }

  lemma SnapshotRoundTrip(m: SnapshotKeyValues)
    requires AllFit(m.keyValues)
    ensures RoundTrips(SnapshotSwitch, SnapshotKeyValues([]), m, SnapshotFields(m.keyValues))
  {
    hide ReadVarintFrom, VarintBytes;
    SnapshotFold(SnapshotKeyValues([]), m.keyValues);
    assert [] + m.keyValues == m.keyValues;
    SnapshotIsLocal();
    RoundTripFromFold(SnapshotSwitch, SnapshotKeyValues([]), m, SnapshotFields(m.keyValues));
  }

  lemma RequestHeaderRoundTrip(m: RequestHeader)
    requires m.txn.Some? ==> Fits(TransactionFields(m.txn.value))
    ensures RoundTrips(RequestHeaderSwitch, ZERO_REQUEST_HEADER, m, RequestHeaderFields(m))
  {
    hide ReadVarintFrom, VarintBytes;
    var sw := RequestHeaderSwitch;
    var m0 := ZERO_REQUEST_HEADER;
    var m1 := m0.(key := m.key);
    var m2 := m1.(endKey := m.endKey);
    var m3 := m2.(timestamp := m.timestamp);
    var m4 := m3.(rangeID := m.rangeID);
    var m5 := m4.(txn := m.txn);
    var f5 := if m.txn.None? then [] else Embedded(5, EncodeFields(TransactionFields(m.txn.value)));
    var f6 := OptVarint(6, ToUInt64(m.flag));
    var f45 := Cat(OptVarint(4, ToUInt64(m.rangeID)), Cat(f5, f6));
    HeaderHead(m);
    HeaderTimestamp(m2, m.timestamp);
    HeaderRangeID(m3, m.rangeID);
    HeaderTxn(m4, m.txn);
    HeaderFlag(m5, m.flag);
    FoldCat(sw, m0, OptBytes(1, m.key), m1, Cat(OptBytes(2, m.endKey), Cat(Embedded(3, TimestampBytes(m.timestamp)), f45)));
    FoldCat(sw, m1, OptBytes(2, m.endKey), m2, Cat(Embedded(3, TimestampBytes(m.timestamp)), f45));
    FoldCat(sw, m2, Embedded(3, TimestampBytes(m.timestamp)), m3, f45);
    FoldCat(sw, m3, OptVarint(4, ToUInt64(m.rangeID)), m4, Cat(f5, f6));
    FoldCat(sw, m4, f5, m5, f6);
    RequestHeaderIsLocal();
    RoundTripFromFold(sw, m0, m, RequestHeaderFields(m));
  }

  lemma HeaderHead(m: RequestHeader)
    ensures Fold(RequestHeaderSwitch, ZERO_REQUEST_HEADER, OptBytes(1, m.key)) == Ok(ZERO_REQUEST_HEADER.(key := m.key))
    ensures Fold(RequestHeaderSwitch, ZERO_REQUEST_HEADER.(key := m.key), OptBytes(2, m.endKey))
         == Ok(ZERO_REQUEST_HEADER.(key := m.key, endKey := m.endKey))
  {
    hide ReadVarintFrom, VarintBytes;
    ReadsBackBytes(m.key);
    ReadsBackBytes(m.endKey);
    var m1 := ZERO_REQUEST_HEADER.(key := m.key);
    FoldBytes(RequestHeaderSwitch, ZERO_REQUEST_HEADER, 1, m.key, m1);
    FoldBytes(RequestHeaderSwitch, m1, 2, m.endKey, m1.(endKey := m.endKey));
  }

  lemma HeaderTimestamp(x: RequestHeader, ts: Timestamp)
    requires x.timestamp == ZERO_TIMESTAMP
    ensures Fold(RequestHeaderSwitch, x, Embedded(3, TimestampBytes(ts))) == Ok(x.(timestamp := ts))
  {
    hide ReadVarintFrom, VarintBytes;
    ReadsBackBytes(TimestampBytes(ts));
    TimestampRoundTrip(ts);
    FoldBytes(RequestHeaderSwitch, x, 3, TimestampBytes(ts), x.(timestamp := ts));
  }

  lemma HeaderRangeID(x: RequestHeader, id: Int64)
    requires x.rangeID == 0
    ensures Fold(RequestHeaderSwitch, x, OptVarint(4, ToUInt64(id))) == Ok(x.(rangeID := id))
  {
    hide ReadVarintFrom, VarintBytes;
    ReadsBackInt(ToUInt64(id));
    SignRoundTrip(id);
    FoldVarint(RequestHeaderSwitch, x, 4, ToUInt64(id), x.(rangeID := id));
  }

  lemma HeaderTxn(x: RequestHeader, txn: Option<Transaction>)
    requires txn.Some? ==> Fits(TransactionFields(txn.value))
    requires x.txn.None?
    ensures Fold(RequestHeaderSwitch, x, if txn.None? then [] else Embedded(5, EncodeFields(TransactionFields(txn.value))))
         == Ok(x.(txn := txn))
  {
    hide ReadVarintFrom, VarintBytes, TransactionFields, EncodeFields;
    if txn.Some? {
      var b := EncodeFields(TransactionFields(txn.value));
      ReadsBackBytes(b);
      TransactionRoundTrip(txn.value);
      FoldBytes(RequestHeaderSwitch, x, 5, b, x.(txn := txn));
    }
  }

  lemma HeaderFlag(x: RequestHeader, flag: Int32)
    requires x.flag == 0
    ensures Fold(RequestHeaderSwitch, x, OptVarint(6, ToUInt64(flag))) == Ok(x.(flag := flag))
  {
    hide ReadVarintFrom, VarintBytes;
    ReadsBackInt(ToUInt64(flag));
    SignRoundTrip(flag);
    FoldVarint(RequestHeaderSwitch, x, 6, ToUInt64(flag), x.(flag := flag));
  }

  // ------------------------------------------------------------ unknown fields

  /** A message still round-trips when a newer writer has put fields of its own, with
      other numbers, anywhere between the fields of the message. */
  lemma RoundTripAmongUnknown<M(!new)>(sw: Switch<M>, known: set<int>, zero: M, m: M, fs: seq<Field>)
    requires AllWellFormed(fs) && LocalSwitch(sw) && Knows(sw, known)
    requires RoundTrips(sw, zero, m, OnlyKnown(known, fs))
    ensures RoundTrips(sw, zero, m, fs)
  {
    AllAreLocal(sw, fs);
    UnknownFieldsAreTransparent(sw, known, zero, fs);
  }

  /** An encoding of a timestamp with unknown fields of any kind among its own. */
  ghost predicate SpeaksTimestamp(ts: Timestamp, fs: seq<Field>) {
    AllWellFormed(fs) && Fits(fs) && OnlyKnown({1, 2}, fs) == TimestampFields(ts)
  }

  lemma TimestampAmongUnknown(ts: Timestamp, fs: seq<Field>)
    requires SpeaksTimestamp(ts, fs)
    ensures RoundTrips(TimestampSwitch, ZERO_TIMESTAMP, ts, fs)
  {
    hide ReadVarintFrom, VarintBytes;
    TimestampIsLocal();
    TimestampRoundTrip(ts);
    RoundTripAmongUnknown(TimestampSwitch, {1, 2}, ZERO_TIMESTAMP, ts, fs);
  }

  ghost predicate SpeaksSpan(m: Span, fs: seq<Field>) {
    AllWellFormed(fs) && Fits(fs) && OnlyKnown({3, 4}, fs) == SpanFields(m)
  }

  lemma SpanAmongUnknown(m: Span, fs: seq<Field>)
    requires SpeaksSpan(m, fs)
    ensures RoundTrips(SpanSwitch, ZERO_SPAN, m, fs)
  {
    hide ReadVarintFrom, VarintBytes;
    SpanIsLocal();
    SpanRoundTrip(m);
    RoundTripAmongUnknown(SpanSwitch, {3, 4}, ZERO_SPAN, m, fs);
  }

  /** With unknown fields among its own and among those of its timestamp. */
  ghost predicate SpeaksTransaction(m: Transaction, ts: seq<Field>, fs: seq<Field>) {
    && SpeaksTimestamp(m.timestamp, ts) && AllWellFormed(fs) && Fits(fs)
    && OnlyKnown({1, 2, 3, 4, 5, 6, 7}, fs) == TransactionFieldsWith(m, EncodeFields(ts))
  }

  lemma TransactionAmongUnknown(m: Transaction, ts: seq<Field>, fs: seq<Field>)
    requires SpeaksTransaction(m, ts, fs)
    ensures RoundTrips(TransactionSwitch, ZERO_TRANSACTION, m, fs)
  {
    hide ReadVarintFrom, VarintBytes;
    TransactionIsLocal();
    TimestampAmongUnknown(m.timestamp, ts);
    TransactionReadsBack(m, EncodeFields(ts));
    RoundTripAmongUnknown(TransactionSwitch, {1, 2, 3, 4, 5, 6, 7}, ZERO_TRANSACTION, m, fs);
  }

  lemma ValueAmongUnknown(m: Value, ts: seq<Field>, fs: seq<Field>)
    requires AllWellFormed(fs) && AllWellFormed(ts) && Fits(ts)
    requires m.timestamp.Some? ==> SpeaksTimestamp(m.timestamp.value, ts)
    requires OnlyKnown({1, 2, 3, 4}, fs) == ValueFieldsWith(m, EncodeFields(ts))
    ensures RoundTrips(ValueSwitch, ZERO_VALUE, m, fs)
  {
    hide ReadVarintFrom, VarintBytes;
    ValueIsLocal();
    if m.timestamp.Some? { TimestampAmongUnknown(m.timestamp.value, ts); }
    ValueReadsBack(m, EncodeFields(ts));
    RoundTripAmongUnknown(ValueSwitch, {1, 2, 3, 4}, ZERO_VALUE, m, fs);
  }

  /** Three levels: unknown fields in the intent, in its span, in its transaction and in the
      timestamp of that. */
  lemma IntentAmongUnknown(m: Intent, ss: seq<Field>, ts: seq<Field>, xs: seq<Field>, fs: seq<Field>)
    requires SpeaksSpan(m.span, ss) && SpeaksTransaction(m.txn, ts, xs) && AllWellFormed(fs)
    requires OnlyKnown({1, 2}, fs) == IntentFieldsWith(EncodeFields(ss), EncodeFields(xs))
    ensures RoundTrips(IntentSwitch, ZERO_INTENT, m, fs)
  {
    hide ReadVarintFrom, VarintBytes;
    SpanAmongUnknown(m.span, ss);
    TransactionAmongUnknown(m.txn, ts, xs);
    hide SpeaksSpan, SpeaksTransaction;
    IntentIsLocal();
    IntentReadsBack(m, EncodeFields(ss), EncodeFields(xs));
    RoundTripAmongUnknown(IntentSwitch, {1, 2}, ZERO_INTENT, m, fs);
  }
}
