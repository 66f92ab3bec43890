/** Size and MarshalTo: the sizing pass and the writing pass of each message, in the
    order and with the tag bytes of the generated code. Every writer consumes, from the
    bytes still to be written, exactly the encoding of its message. */
module Marshal {
  import opened Varint
  import opened Wire
  import opened Messages
  import opened PackedIDs
  import opened Wrappers

  // ------------------------------------------------------------ one field

  /** A varint field: tag and value, unless the value is zero. */
  method PutVarint(buf: array<Byte>, i: nat, tag: Byte, v: UInt64, ghost g: Fill, ghost rest: seq<Byte>)
    returns (next: nat)
    requires 8 <= tag < 128 && tag % 8 == 0
    requires Plan(buf, g, i, EncodeFields(OptVarint(tag / 8, v)) + rest)
    modifies buf
    ensures Plan(buf, g, next, rest)
  {
    hide Plan, EncodeFields, VarintBytes;
    next := i;
    OptVarintBytes(tag / 8, v);
    if v != 0 {
      assert [tag] + VarintBytes(v) + rest == [tag] + (VarintBytes(v) + rest);
      PutByte(buf, i, tag, g, VarintBytes(v) + rest);
      next := EncodeVarint(buf, i + 1, v, g, rest);
    } else {
      assert [] + rest == rest;
    }
  }

  /** Tag and length of a length-delimited field; the content follows. */
  method PutLength(buf: array<Byte>, i: nat, tag: Byte, ghost b: Bytes, length: nat, ghost g: Fill, ghost rest: seq<Byte>)
    returns (next: nat)
    requires 8 <= tag < 128 && tag % 8 == 2 && length == |b|
    requires Plan(buf, g, i, EncodeFields(Embedded(tag / 8, b)) + rest)
    modifies buf
    ensures Plan(buf, g, next, b + rest)
  {
    hide Plan, EncodeFields, VarintBytes;
    OptBytesBytes(tag / 8, b);
    assert [tag] + VarintBytes(|b|) + b + rest == [tag] + (VarintBytes(|b|) + (b + rest));
    PutByte(buf, i, tag, g, VarintBytes(|b|) + (b + rest));
    next := EncodeVarint(buf, i + 1, length, g, b + rest);
  }

  /** A bytes field: tag, length and content, unless it is empty. */
  method PutBytes(buf: array<Byte>, i: nat, tag: Byte, b: Bytes, ghost g: Fill, ghost rest: seq<Byte>)
    returns (next: nat)
    requires 8 <= tag < 128 && tag % 8 == 2
    requires Plan(buf, g, i, EncodeFields(OptBytes(tag / 8, b)) + rest)
    modifies buf
    ensures Plan(buf, g, next, rest)
  {
    hide Plan, EncodeFields, VarintBytes;
    next := i;
    OptBytesBytes(tag / 8, b);
    if |b| > 0 {
      next := PutLength(buf, i, tag, b, |b|, g, rest);
      next := CopyBytes(buf, next, b, g, rest);
    } else {
      NoBytes();
      assert [] + rest == rest;
    }
  }

  lemma NoBytes()
    ensures EncodeFields([]) == []
  {
  }

  /** The encoding of two field lists, with more to come. */
  lemma CatBytes(a: seq<Field>, b: seq<Field>, rest: seq<Byte>)
    requires AllWellFormed(a) && AllWellFormed(b)
    ensures EncodeFields(Cat(a, b)) + rest == EncodeFields(a) + (EncodeFields(b) + rest)
  {
    hide EncodeFields;
    EncodeConcat(a, b);
  }

  // ------------------------------------------------------------ Timestamp

  method MarshalTimestampTo(buf: array<Byte>, i: nat, m: Timestamp, ghost g: Fill, ghost rest: seq<Byte>)
    returns (next: nat)
    requires Plan(buf, g, i, EncodeFields(TimestampFields(m)) + rest)
    modifies buf
    ensures Plan(buf, g, next, rest)
  {
    hide Plan, EncodeFields, VarintBytes;
    ghost var f2 := OptVarint(2, ToUInt64(m.logical));
    CatBytes(OptVarint(1, ToUInt64(m.wallTime)), f2, rest);
    next := PutVarint(buf, i, 0x08, ToUInt64(m.wallTime), g, EncodeFields(f2) + rest);
    next := PutVarint(buf, next, 0x10, ToUInt64(m.logical), g, rest);
  }

  method SizeVarint(num: int, v: UInt64) returns (n: nat)
    requires 1 <= num < 16
    ensures n == |EncodeFields(OptVarint(num, v))|
  {
    OptVarintBytes(num, v);
    n := 0;
    if v != 0 {
      var s := Sov(v);
      n := 1 + s;
    }
  }

  /** The size of a length-delimited field: one byte of tag, the length and the content. */
  method SizeLength(num: int, ghost b: Bytes, length: nat) returns (n: nat)
    requires 1 <= num < 16 && length == |b|
    ensures n == |EncodeFields(Embedded(num, b))|
  {
    OptBytesBytes(num, b);
    var s := Sov(length);
    n := 1 + length + s;
  }

  method SizeBytes(num: int, b: Bytes) returns (n: nat)
    requires 1 <= num < 16
    ensures n == |EncodeFields(OptBytes(num, b))|
  {
    n := 0;
    if |b| > 0 {
      OptBytesBytes(num, b);
      n := SizeLength(num, b, |b|);
    }
  }

  method TimestampSize(m: Timestamp) returns (n: nat)
    ensures n == |EncodeFields(TimestampFields(m))|
  {
    EncodeConcat(OptVarint(1, ToUInt64(m.wallTime)), OptVarint(2, ToUInt64(m.logical)));
    n := SizeVarint(1, ToUInt64(m.wallTime));
    var s := SizeVarint(2, ToUInt64(m.logical));
    n := n + s;
  }

  // ------------------------------------------------------------ Transaction

  method MarshalTransactionTo(buf: array<Byte>, i: nat, m: Transaction, ghost g: Fill, ghost rest: seq<Byte>)
    returns (next: nat)
    requires Plan(buf, g, i, EncodeFields(TransactionFields(m)) + rest)
    modifies buf
    ensures Plan(buf, g, next, rest)
  {
    hide Plan, EncodeFields, VarintBytes;
    ghost var ts := TimestampBytes(m.timestamp);
    ghost var f7 := OptVarint(7, ToUInt64(m.sequence));
    ghost var f6 := Cat(Embedded(6, ts), f7);
    ghost var f5 := Cat(OptVarint(5, ToUInt64(m.lastHeartbeat)), f6);
    ghost var f4 := Cat(OptVarint(4, ToUInt64(m.status)), f5);
    ghost var f3 := Cat(OptVarint(3, ToUInt64(m.priority)), f4);
    ghost var f2 := Cat(OptBytes(2, m.id), f3);
    CatBytes(OptBytes(1, m.name), f2, rest);
    next := PutBytes(buf, i, 0x0a, m.name, g, EncodeFields(f2) + rest);
    CatBytes(OptBytes(2, m.id), f3, rest);
    next := PutBytes(buf, next, 0x12, m.id, g, EncodeFields(f3) + rest);
    CatBytes(OptVarint(3, ToUInt64(m.priority)), f4, rest);
    next := PutVarint(buf, next, 0x18, ToUInt64(m.priority), g, EncodeFields(f4) + rest);
    CatBytes(OptVarint(4, ToUInt64(m.status)), f5, rest);
    next := PutVarint(buf, next, 0x20, ToUInt64(m.status), g, EncodeFields(f5) + rest);
    CatBytes(OptVarint(5, ToUInt64(m.lastHeartbeat)), f6, rest);
    next := PutVarint(buf, next, 0x28, ToUInt64(m.lastHeartbeat), g, EncodeFields(f6) + rest);
    CatBytes(Embedded(6, ts), f7, rest);
    var l := TimestampSize(m.timestamp);
    next := PutLength(buf, next, 0x32, ts, l, g, EncodeFields(f7) + rest);
    next := MarshalTimestampTo(buf, next, m.timestamp, g, EncodeFields(f7) + rest);
    next := PutVarint(buf, next, 0x38, ToUInt64(m.sequence), g, rest);
  }

  lemma CatSize(a: seq<Field>, b: seq<Field>)
    requires AllWellFormed(a) && AllWellFormed(b)
    ensures |EncodeFields(Cat(a, b))| == |EncodeFields(a)| + |EncodeFields(b)|
  {
    hide EncodeFields;
    EncodeConcat(a, b);
  }

  method TransactionSize(m: Transaction) returns (n: nat)
    ensures n == |EncodeFields(TransactionFields(m))|
  {
    hide EncodeFields, VarintBytes;
    ghost var ts := TimestampBytes(m.timestamp);
    ghost var f7 := OptVarint(7, ToUInt64(m.sequence));
    ghost var f6 := Cat(Embedded(6, ts), f7);
    ghost var f5 := Cat(OptVarint(5, ToUInt64(m.lastHeartbeat)), f6);
    ghost var f4 := Cat(OptVarint(4, ToUInt64(m.status)), f5);
    ghost var f3 := Cat(OptVarint(3, ToUInt64(m.priority)), f4);
    ghost var f2 := Cat(OptBytes(2, m.id), f3);
    CatSize(OptBytes(1, m.name), f2);
    CatSize(OptBytes(2, m.id), f3);
    CatSize(OptVarint(3, ToUInt64(m.priority)), f4);
    CatSize(OptVarint(4, ToUInt64(m.status)), f5);
    CatSize(OptVarint(5, ToUInt64(m.lastHeartbeat)), f6);
    CatSize(Embedded(6, ts), f7);
    n := SizeBytes(1, m.name);
    var s := SizeBytes(2, m.id);
    n := n + s;
    s := SizeVarint(3, ToUInt64(m.priority));
    n := n + s;
    s := SizeVarint(4, ToUInt64(m.status));
    n := n + s;
    s := SizeVarint(5, ToUInt64(m.lastHeartbeat));
    n := n + s;
    var l := TimestampSize(m.timestamp);
    s := SizeLength(6, ts, l);
    n := n + s;
    s := SizeVarint(7, ToUInt64(m.sequence));
    n := n + s;
  }

  // ------------------------------------------------------------ Span and Intent

  method MarshalSpanTo(buf: array<Byte>, i: nat, m: Span, ghost g: Fill, ghost rest: seq<Byte>)
    returns (next: nat)
    requires Plan(buf, g, i, EncodeFields(SpanFields(m)) + rest)
    modifies buf
    ensures Plan(buf, g, next, rest)
  {
    hide Plan, EncodeFields, VarintBytes;
    ghost var f4 := OptBytes(4, m.endKey);
    CatBytes(OptBytes(3, m.key), f4, rest);
    next := PutBytes(buf, i, 0x1a, m.key, g, EncodeFields(f4) + rest);
    next := PutBytes(buf, next, 0x22, m.endKey, g, rest);
  }

  method SpanSize(m: Span) returns (n: nat)
    ensures n == |EncodeFields(SpanFields(m))|
  {
    CatSize(OptBytes(3, m.key), OptBytes(4, m.endKey));
    n := SizeBytes(3, m.key);
    var s := SizeBytes(4, m.endKey);
    n := n + s;
  }

  method MarshalIntentTo(buf: array<Byte>, i: nat, m: Intent, ghost g: Fill, ghost rest: seq<Byte>)
    returns (next: nat)
    requires Fits(SpanFields(m.span)) && Fits(TransactionFields(m.txn))
    requires Plan(buf, g, i, EncodeFields(IntentFields(m)) + rest)
    modifies buf
    ensures Plan(buf, g, next, rest)
  {
    hide Plan, EncodeFields, VarintBytes;
    ghost var sb, xb := EncodeFields(SpanFields(m.span)), EncodeFields(TransactionFields(m.txn));
    ghost var f2 := Embedded(2, xb);
    CatBytes(Embedded(1, sb), f2, rest);
    var l := SpanSize(m.span);
    next := PutLength(buf, i, 0x0a, sb, l, g, EncodeFields(f2) + rest);
    next := MarshalSpanTo(buf, next, m.span, g, EncodeFields(f2) + rest);
    l := TransactionSize(m.txn);
    next := PutLength(buf, next, 0x12, xb, l, g, rest);
    next := MarshalTransactionTo(buf, next, m.txn, g, rest);
  }

  method IntentSize(m: Intent) returns (n: nat)
    requires Fits(SpanFields(m.span)) && Fits(TransactionFields(m.txn))
    ensures n == |EncodeFields(IntentFields(m))|
  {
    hide EncodeFields, VarintBytes;
    ghost var sb, xb := EncodeFields(SpanFields(m.span)), EncodeFields(TransactionFields(m.txn));
    CatSize(Embedded(1, sb), Embedded(2, xb));
    var l := SpanSize(m.span);
    n := SizeLength(1, sb, l);
    l := TransactionSize(m.txn);
    var s := SizeLength(2, xb, l);
    n := n + s;
  }

  // ------------------------------------------------------------ Value

  method PutFixed32(buf: array<Byte>, i: nat, tag: Byte, v: UInt32, ghost g: Fill, ghost rest: seq<Byte>)
    returns (next: nat)
    requires 8 <= tag < 128 && tag % 8 == 5
    requires Plan(buf, g, i, EncodeFields(OptFixed32(tag / 8, v)) + rest)
    modifies buf
    ensures Plan(buf, g, next, rest)
  {
    hide Plan, LittleEndian32, VarintBytes;
    next := i;
    OptFixed32Bytes(tag / 8, v);
    hide EncodeFields;
    if v != 0 {
      assert [tag] + LittleEndian32(v) + rest == [tag] + (LittleEndian32(v) + rest);
      PutByte(buf, i, tag, g, LittleEndian32(v) + rest);
      next := CopyBytes(buf, i + 1, LittleEndian32(v), g, rest);
    } else {
      assert [] + rest == rest;
    }
  }

  lemma OptFixed32Bytes(num: int, v: UInt32)
    requires 1 <= num < 16
    ensures EncodeFields(OptFixed32(num, v)) == if v == 0 then [] else [num * 8 + 5] + LittleEndian32(v)
  {
    hide LittleEndian32;
    if v != 0 {
      EncodeSingle(Fixed32Field(num, LittleEndian32(v)));
      assert Tag(num, 5) == [num * 8 + 5];
    }
  }

  method MarshalValueTo(buf: array<Byte>, i: nat, m: Value, ghost g: Fill, ghost rest: seq<Byte>)
    returns (next: nat)
    requires Plan(buf, g, i, EncodeFields(ValueFields(m)) + rest)
    modifies buf
    ensures Plan(buf, g, next, rest)
  {
    NoBytes();
    hide Plan, EncodeFields, VarintBytes, LittleEndian32;
    ghost var f4 := OptVarint(4, ToUInt64(m.tag));
    ghost var ts := if m.timestamp.None? then [] else Embedded(3, TimestampBytes(m.timestamp.value));
    ghost var f2 := Cat(OptFixed32(2, m.checksum), Cat(ts, f4));
    ghost var r4 := EncodeFields(f4) + rest;
    CatBytes(OptBytes(1, m.bytes), f2, rest);
    next := PutBytes(buf, i, 0x0a, m.bytes, g, EncodeFields(f2) + rest);
    CatBytes(OptFixed32(2, m.checksum), Cat(ts, f4), rest);
    next := PutFixed32(buf, next, 0x15, m.checksum, g, EncodeFields(Cat(ts, f4)) + rest);
    CatBytes(ts, f4, rest);
    if m.timestamp.Some? {
      var l := TimestampSize(m.timestamp.value);
      next := PutLength(buf, next, 0x1a, TimestampBytes(m.timestamp.value), l, g, r4);
      next := MarshalTimestampTo(buf, next, m.timestamp.value, g, r4);
    } else {
      assert [] + r4 == r4;
    }
    next := PutVarint(buf, next, 0x20, ToUInt64(m.tag), g, rest);
  }

  method ValueSize(m: Value) returns (n: nat)
    ensures n == |EncodeFields(ValueFields(m))|
  {
    NoBytes();
    hide EncodeFields, VarintBytes, LittleEndian32;
    ghost var f4 := OptVarint(4, ToUInt64(m.tag));
    ghost var ts := if m.timestamp.None? then [] else Embedded(3, TimestampBytes(m.timestamp.value));
    CatSize(OptBytes(1, m.bytes), Cat(OptFixed32(2, m.checksum), Cat(ts, f4)));
    CatSize(OptFixed32(2, m.checksum), Cat(ts, f4));
    CatSize(ts, f4);
    OptFixed32Bytes(2, m.checksum);
    n := SizeBytes(1, m.bytes);
    if m.checksum != 0 { n := n + 5; }
    if m.timestamp.Some? {
      var l := TimestampSize(m.timestamp.value);
      var s := SizeLength(3, TimestampBytes(m.timestamp.value), l);
      n := n + s;
    }
    var s := SizeVarint(4, ToUInt64(m.tag));
    n := n + s;
  }

  // ------------------------------------------------------------ SnapshotKeyValues

  method MarshalMVCCKeyValueTo(buf: array<Byte>, i: nat, m: MVCCKeyValue, ghost g: Fill, ghost rest: seq<Byte>)
    returns (next: nat)
    requires Plan(buf, g, i, EncodeFields(MVCCKeyValueFields(m)) + rest)
    modifies buf
    ensures Plan(buf, g, next, rest)
  {
    hide Plan, EncodeFields, VarintBytes;
    ghost var f2 := OptBytes(2, m.value);
    CatBytes(OptBytes(1, m.key), f2, rest);
    next := PutBytes(buf, i, 0x0a, m.key, g, EncodeFields(f2) + rest);
    next := PutBytes(buf, next, 0x12, m.value, g, rest);
  }

  method MVCCKeyValueSize(m: MVCCKeyValue) returns (n: nat)
    ensures n == |EncodeFields(MVCCKeyValueFields(m))|
  {
    CatSize(OptBytes(1, m.key), OptBytes(2, m.value));
    n := SizeBytes(1, m.key);
    var s := SizeBytes(2, m.value);
    n := n + s;
  }

  lemma {:induction false} AllFitFrom(kvs: seq<MVCCKeyValue>, k: nat)
    requires AllFit(kvs) && k <= |kvs|
    ensures AllFit(kvs[k..])
  {
    if k > 0 {
      AllFitFrom(kvs[1..], k - 1);
      assert kvs[1..][k - 1..] == kvs[k..];
    } else {
      assert kvs[0..] == kvs;
    }
  }

  lemma SnapshotStep(kvs: seq<MVCCKeyValue>, k: nat)
    requires AllFit(kvs) && k < |kvs|
    ensures AllFit(kvs[k..]) && AllFit(kvs[k + 1..])
    ensures Fits(MVCCKeyValueFields(kvs[k]))
    ensures SnapshotFields(kvs[k..]) == Cat(Element(kvs[k]), SnapshotFields(kvs[k + 1..]))
  {
    hide MVCCKeyValueFields, Cat;
    AllFitFrom(kvs, k);
    assert kvs[k..][0] == kvs[k] && kvs[k..][1..] == kvs[k + 1..];
  }

  method MarshalSnapshotTo(buf: array<Byte>, i: nat, m: SnapshotKeyValues, ghost g: Fill, ghost rest: seq<Byte>)
    returns (next: nat)
    requires AllFit(m.keyValues)
    requires Plan(buf, g, i, EncodeFields(SnapshotFields(m.keyValues)) + rest)
    modifies buf
    ensures Plan(buf, g, next, rest)
  {
    hide Plan, EncodeFields, VarintBytes, SnapshotFields, MVCCKeyValueFields, AllFit;
    var kvs := m.keyValues;
    next := i;
    assert kvs[0..] == kvs;
    for k := 0 to |kvs|
      invariant AllFit(kvs[k..])
      invariant Plan(buf, g, next, EncodeFields(SnapshotFields(kvs[k..])) + rest)
    {
      SnapshotStep(kvs, k);
      ghost var more := SnapshotFields(kvs[k + 1..]);
      CatBytes(Element(kvs[k]), more, rest);
      var l := MVCCKeyValueSize(kvs[k]);
      next := PutLength(buf, next, 0x0a, EncodeFields(MVCCKeyValueFields(kvs[k])), l, g, EncodeFields(more) + rest);
      next := MarshalMVCCKeyValueTo(buf, next, kvs[k], g, EncodeFields(more) + rest);
    }
    assert kvs[|kvs|..] == [];
    NoElements(rest);
  }

  lemma NoElements(rest: seq<Byte>)
    ensures EncodeFields(SnapshotFields([])) + rest == rest
  {
  }

  method SnapshotSize(m: SnapshotKeyValues) returns (n: nat)
    requires AllFit(m.keyValues)
    ensures n == |EncodeFields(SnapshotFields(m.keyValues))|
  {
    hide EncodeFields, VarintBytes, SnapshotFields, MVCCKeyValueFields, AllFit;
    var kvs := m.keyValues;
    n := 0;
    assert kvs[0..] == kvs;
    for k := 0 to |kvs|
      invariant AllFit(kvs[k..])
      invariant n + |EncodeFields(SnapshotFields(kvs[k..]))| == |EncodeFields(SnapshotFields(kvs))|
    {
      SnapshotStep(kvs, k);
      CatSize(Element(kvs[k]), SnapshotFields(kvs[k + 1..]));
      var l := MVCCKeyValueSize(kvs[k]);
      var s := SizeLength(1, EncodeFields(MVCCKeyValueFields(kvs[k])), l);
      n := n + s;
    }
    assert kvs[|kvs|..] == [];
    NoElements([]);
  }

  // ------------------------------------------------------------ GetRangeStatsRequest

  method MarshalRequestHeaderTo(buf: array<Byte>, i: nat, m: RequestHeader, ghost g: Fill, ghost rest: seq<Byte>)
    returns (next: nat)
    requires m.txn.Some? ==> Fits(TransactionFields(m.txn.value))
    requires Plan(buf, g, i, EncodeFields(RequestHeaderFields(m)) + rest)
    modifies buf
    ensures Plan(buf, g, next, rest)
  {
    NoBytes();
    hide Plan, EncodeFields, VarintBytes, TransactionFields;
    ghost var ts := TimestampBytes(m.timestamp);
    ghost var f6 := OptVarint(6, ToUInt64(m.flag));
    ghost var x := if m.txn.None? then [] else Embedded(5, EncodeFields(TransactionFields(m.txn.value)));
    ghost var f5 := Cat(x, f6);
    ghost var f4 := Cat(OptVarint(4, ToUInt64(m.rangeID)), f5);
    ghost var f3 := Cat(Embedded(3, ts), f4);
    ghost var f2 := Cat(OptBytes(2, m.endKey), f3);
    ghost var r6 := EncodeFields(f6) + rest;
    CatBytes(OptBytes(1, m.key), f2, rest);
    next := PutBytes(buf, i, 0x0a, m.key, g, EncodeFields(f2) + rest);
    CatBytes(OptBytes(2, m.endKey), f3, rest);
    next := PutBytes(buf, next, 0x12, m.endKey, g, EncodeFields(f3) + rest);
    CatBytes(Embedded(3, ts), f4, rest);
    var l := TimestampSize(m.timestamp);
    next := PutLength(buf, next, 0x1a, ts, l, g, EncodeFields(f4) + rest);
    next := MarshalTimestampTo(buf, next, m.timestamp, g, EncodeFields(f4) + rest);
    CatBytes(OptVarint(4, ToUInt64(m.rangeID)), f5, rest);
    next := PutVarint(buf, next, 0x20, ToUInt64(m.rangeID), g, EncodeFields(f5) + rest);
    CatBytes(x, f6, rest);
    if m.txn.Some? {
      l := TransactionSize(m.txn.value);
      next := PutLength(buf, next, 0x2a, EncodeFields(TransactionFields(m.txn.value)), l, g, r6);
      next := MarshalTransactionTo(buf, next, m.txn.value, g, r6);
    } else {
      assert [] + r6 == r6;
    }
    next := PutVarint(buf, next, 0x30, ToUInt64(m.flag), g, rest);
  }

  method RequestHeaderSize(m: RequestHeader) returns (n: nat)
    requires m.txn.Some? ==> Fits(TransactionFields(m.txn.value))
    ensures n == |EncodeFields(RequestHeaderFields(m))|
  {
    NoBytes();
    hide EncodeFields, VarintBytes, TransactionFields;
    ghost var ts := TimestampBytes(m.timestamp);
    ghost var f6 := OptVarint(6, ToUInt64(m.flag));
    ghost var x := if m.txn.None? then [] else Embedded(5, EncodeFields(TransactionFields(m.txn.value)));
    ghost var f4 := Cat(OptVarint(4, ToUInt64(m.rangeID)), Cat(x, f6));
    CatSize(OptBytes(1, m.key), Cat(OptBytes(2, m.endKey), Cat(Embedded(3, ts), f4)));
    CatSize(OptBytes(2, m.endKey), Cat(Embedded(3, ts), f4));
    CatSize(Embedded(3, ts), f4);
    CatSize(OptVarint(4, ToUInt64(m.rangeID)), Cat(x, f6));
    CatSize(x, f6);
    n := SizeBytes(1, m.key);
    var s := SizeBytes(2, m.endKey);
    n := n + s;
    var l := TimestampSize(m.timestamp);
    s := SizeLength(3, ts, l);
    n := n + s;
    s := SizeVarint(4, ToUInt64(m.rangeID));
    n := n + s;
    if m.txn.Some? {
      l := TransactionSize(m.txn.value);
      s := SizeLength(5, EncodeFields(TransactionFields(m.txn.value)), l);
      n := n + s;
    }
    s := SizeVarint(6, ToUInt64(m.flag));
    n := n + s;
  }

  /** The elements are packed into a scratch buffer of ten bytes an element. */
  method PackIDs(ids: seq<Int64>) returns (packed: seq<Byte>)
    ensures packed == PackedBytes(ids)
  {
    hide VarintBytes;
    var scratch := new Byte[|ids| * 10](_ => 0);
    ghost var all := PackedBytes(ids);
    ghost var g := Fill(scratch[..], 0, all);
    PackedSize(ids);
    assert Plan(scratch, g, 0, all);
    var j: nat := 0;
    assert ids[0..] == ids;
    for k := 0 to |ids|
      invariant Plan(scratch, g, j, PackedBytes(ids[k..]))
    {
      assert ids[k..][0] == ids[k] && ids[k..][1..] == ids[k + 1..];
      j := EncodeVarint(scratch, j, ToUInt64(ids[k]), g, PackedBytes(ids[k + 1..]));
    }
    assert scratch[0..j] == all;
    packed := scratch[..j];
  }

  method MarshalGetRangeStatsTo(buf: array<Byte>, i: nat, m: GetRangeStatsRequest, ghost g: Fill, ghost rest: seq<Byte>)
    returns (next: nat)
    requires RequestFits(m)
    requires Plan(buf, g, i, EncodeFields(GetRangeStatsFields(m)) + rest)
    modifies buf
    ensures Plan(buf, g, next, rest)
  {
    NoBytes();
    hide Plan, EncodeFields, VarintBytes, RequestHeaderFields;
    ghost var h, f2 := EncodeFields(RequestHeaderFields(m.header)), IDFields(m.rangeIDs);
    CatBytes(Embedded(1, h), f2, rest);
    var l := RequestHeaderSize(m.header);
    next := PutLength(buf, i, 0x0a, h, l, g, EncodeFields(f2) + rest);
    next := MarshalRequestHeaderTo(buf, next, m.header, g, EncodeFields(f2) + rest);
    if |m.rangeIDs| > 0 {
      var packed := PackIDs(m.rangeIDs);
      next := PutLength(buf, next, 0x12, packed, |packed|, g, rest);
      next := CopyBytes(buf, next, packed, g, rest);
    } else {
      assert [] + rest == rest;
    }
  }

  method GetRangeStatsSize(m: GetRangeStatsRequest) returns (n: nat)
    requires RequestFits(m)
    ensures n == |EncodeFields(GetRangeStatsFields(m))|
  {
    NoBytes();
    hide EncodeFields, VarintBytes, RequestHeaderFields;
    ghost var h := EncodeFields(RequestHeaderFields(m.header));
    CatSize(Embedded(1, h), IDFields(m.rangeIDs));
    var l := RequestHeaderSize(m.header);
    n := SizeLength(1, h, l);
    if |m.rangeIDs| > 0 {
      l := 0;
      var ids := m.rangeIDs;
      assert ids[0..] == ids;
      for k := 0 to |ids|
        invariant 0 <= l && l + |PackedBytes(ids[k..])| == |PackedBytes(ids)|
      {
        assert ids[k..][0] == ids[k] && ids[k..][1..] == ids[k + 1..];
        var e := Sov(ToUInt64(ids[k]));
        l := l + e;
      }
      var s := SizeLength(2, PackedBytes(m.rangeIDs), l);
      n := n + s;
    }
  }

  // ------------------------------------------------------------ Marshal

  lemma PlanStarts(buf: array<Byte>, g: Fill, all: seq<Byte>)
    requires buf.Length == |all| && g == Fill(buf[..], 0, all)
    ensures Plan(buf, g, 0, all + [])
  {
    assert all + [] == all;
  }

  lemma PlanEnds(buf: array<Byte>, g: Fill, n: nat)
    requires buf.Length == |g.all| && g.start == 0 && Plan(buf, g, n, [])
    ensures n == buf.Length && buf[..n] == g.all
  {
    assert buf[0..n] == g.all;
  }

  /** A buffer of exactly Size bytes, filled to its end, that decodes to the message. */
  method MarshalIntent(m: Intent) returns (data: seq<Byte>)
    requires Fits(SpanFields(m.span)) && Fits(TransactionFields(m.txn))
    ensures data == EncodeFields(IntentFields(m)) && Decode(IntentSwitch, ZERO_INTENT, data) == Ok(m)
  {
    IntentRoundTrip(m);
    hide EncodeFields, IntentFields, Decode, Plan;
    var size := IntentSize(m);
    var buf := new Byte[size](_ => 0);
    ghost var g := Fill(buf[..], 0, EncodeFields(IntentFields(m)));
    PlanStarts(buf, g, g.all);
    var n := MarshalIntentTo(buf, 0, m, g, []);
    PlanEnds(buf, g, n);
    data := buf[..n];
  }

  method MarshalTransaction(m: Transaction) returns (data: seq<Byte>)
    ensures data == EncodeFields(TransactionFields(m)) && Decode(TransactionSwitch, ZERO_TRANSACTION, data) == Ok(m)
  {
    TransactionRoundTrip(m);
    hide EncodeFields, TransactionFields, Decode, Plan;
    var size := TransactionSize(m);
    var buf := new Byte[size](_ => 0);
    ghost var g := Fill(buf[..], 0, EncodeFields(TransactionFields(m)));
    PlanStarts(buf, g, g.all);
    var n := MarshalTransactionTo(buf, 0, m, g, []);
    PlanEnds(buf, g, n);
    data := buf[..n];
  }

  method MarshalValue(m: Value) returns (data: seq<Byte>)
    ensures data == EncodeFields(ValueFields(m)) && Decode(ValueSwitch, ZERO_VALUE, data) == Ok(m)
  {
    ValueRoundTrip(m);
    hide EncodeFields, ValueFields, Decode, Plan;
    var size := ValueSize(m);
    var buf := new Byte[size](_ => 0);
    ghost var g := Fill(buf[..], 0, EncodeFields(ValueFields(m)));
    PlanStarts(buf, g, g.all);
    var n := MarshalValueTo(buf, 0, m, g, []);
    PlanEnds(buf, g, n);
    data := buf[..n];
  }

  method MarshalSnapshot(m: SnapshotKeyValues) returns (data: seq<Byte>)
    requires AllFit(m.keyValues)
    ensures data == EncodeFields(SnapshotFields(m.keyValues)) && Decode(SnapshotSwitch, SnapshotKeyValues([]), data) == Ok(m)
  {
    SnapshotRoundTrip(m);
    hide EncodeFields, SnapshotFields, Decode, Plan;
    var size := SnapshotSize(m);
    var buf := new Byte[size](_ => 0);
    ghost var g := Fill(buf[..], 0, EncodeFields(SnapshotFields(m.keyValues)));
    PlanStarts(buf, g, g.all);
    var n := MarshalSnapshotTo(buf, 0, m, g, []);
    PlanEnds(buf, g, n);
    data := buf[..n];
  }

  method MarshalGetRangeStats(m: GetRangeStatsRequest) returns (data: seq<Byte>)
    requires RequestFits(m)
    ensures data == EncodeFields(GetRangeStatsFields(m)) && Decode(GetRangeStatsSwitch, ZERO_GET_RANGE_STATS, data) == Ok(m)
  {
    GetRangeStatsRoundTrip(m);
    hide EncodeFields, GetRangeStatsFields, Decode, Plan;
    var size := GetRangeStatsSize(m);
    var buf := new Byte[size](_ => 0);
    ghost var g := Fill(buf[..], 0, EncodeFields(GetRangeStatsFields(m)));
    PlanStarts(buf, g, g.all);
    var n := MarshalGetRangeStatsTo(buf, 0, m, g, []);
    PlanEnds(buf, g, n);
    data := buf[..n];
  }
}
