/** The generated Unmarshal methods as they are written: a loop over the fields, whose cases
    are loops over the index that collect into variables of the width of the field, and the
    Unmarshal of nested messages. Each case refines the step its message's switch takes, and
    each Unmarshal refines Decode over that switch. */
module Fields {
  import opened Varint
  import opened Wire
  import opened Messages
  import opened PackedIDs
  import opened Wrappers

  /** Converting is the same before and after truncation to the width of the variable. */
  lemma TruncatedAlike(v: nat)
    ensures ToInt64(Truncate(Bits64, v)) == ToInt64(v)
    ensures ToInt32(Truncate(Bits32, v)) == ToInt32(v)
    ensures ToUInt32(Truncate(Bits32, v)) == ToUInt32(v)
  {
  }

  method ReadIntAt(wt: int, d: seq<Byte>, j: nat, width: Width) returns (r: WireResult<(nat, nat)>)
    requires j <= |d|
    ensures r == match ReadInt(wt, d[j..]) case Err(e) => Err(e) case Ok((v, used)) => Ok((Truncate(width, v), used))
  {
    hide ReadVarint, Truncate;
    if wt != 0 { return Err(WrongWireType); }
    var v := DecodeVarint(d, j, width);
    if v.Err? { return Err(v.error); }
    return Ok((v.value.0, v.value.1 - j));
  }

  method ReadBytesAt(wt: int, d: seq<Byte>, j: nat) returns (r: WireResult<(Bytes, nat)>)
    requires j <= |d|
    ensures r == ReadBytes(wt, d[j..])
  {
    hide ReadVarintFrom, Truncate;
    if wt != 2 { return Err(WrongWireType); }
    var v := DecodeVarint(d, j, Bits64);
    if v.Err? { return Err(v.error); }
    ghost var raw := ReadVarint(d[j..]).value.0;
    TruncatedAlike(raw);
    var length, i := ToInt64(v.value.0), v.value.1;
    if length < 0 { return Err(InvalidLength); }
    if i + length > |d| { return Err(UnexpectedEOF); }
    assert d[j..][i - j..i - j + length] == d[i..i + length];
    return Ok((d[i..i + length], i - j + length));
  }

  method ReadFixed32At(wt: int, d: seq<Byte>, j: nat) returns (r: WireResult<(UInt32, nat)>)
    requires j <= |d|
    ensures r == ReadFixed32(wt, d[j..])
  {
    if wt != 5 { return Err(WrongWireType); }
    if j + 4 > |d| { return Err(UnexpectedEOF); }
    var b0: int, b1: int, b2: int, b3: int := d[j], d[j + 1], d[j + 2], d[j + 3];
    return Ok((b0 + 256 * b1 + 65536 * b2 + 16777216 * b3, 4));
  }

  method Int64At(wt: int, d: seq<Byte>, j: nat) returns (r: WireResult<(Int64, nat)>)
    requires j <= |d|
    ensures r == match ReadInt(wt, d[j..]) case Err(e) => Err(e) case Ok((v, used)) => Ok((ToInt64(v), used))
  {
    hide ReadInt, ToInt64, Truncate;
    var v := ReadIntAt(wt, d, j, Bits64);
    if v.Err? { return Err(v.error); }
    TruncatedAlike(ReadInt(wt, d[j..]).value.0);
    return Ok((ToInt64(v.value.0), v.value.1));
  }

  method Int32At(wt: int, d: seq<Byte>, j: nat) returns (r: WireResult<(Int32, nat)>)
    requires j <= |d|
    ensures r == match ReadInt(wt, d[j..]) case Err(e) => Err(e) case Ok((v, used)) => Ok((ToInt32(v), used))
  {
    hide ReadInt, ToInt32, Truncate;
    var v := ReadIntAt(wt, d, j, Bits32);
    if v.Err? { return Err(v.error); }
    TruncatedAlike(ReadInt(wt, d[j..]).value.0);
    return Ok((ToInt32(v.value.0), v.value.1));
  }

  method UInt32At(wt: int, d: seq<Byte>, j: nat) returns (r: WireResult<(UInt32, nat)>)
    requires j <= |d|
    ensures r == match ReadInt(wt, d[j..]) case Err(e) => Err(e) case Ok((v, used)) => Ok((ToUInt32(v), used))
  {
    hide ReadInt, ToUInt32, Truncate;
    var v := ReadIntAt(wt, d, j, Bits32);
    if v.Err? { return Err(v.error); }
    TruncatedAlike(ReadInt(wt, d[j..]).value.0);
    return Ok((ToUInt32(v.value.0), v.value.1));
  }

  method TimestampField(m: Timestamp, num: int, wt: int, d: seq<Byte>, j: nat) returns (s: Step<Timestamp>)
    requires j <= |d|
    ensures s == TimestampSwitch(m, num, wt, d[j..])
  {
    hide ReadInt, ReadBytes, ReadFixed32, Decode, ToInt64, ToInt32, ToUInt32;
    match num {
      case 1 =>
        var r := Int64At(wt, d, j);
        return Store(r, x => m.(wallTime := x));
      case 2 =>
        var r := Int32At(wt, d, j);
        return Store(r, x => m.(logical := x));
      case _ => return Unknown;
    }
  }

  method UnmarshalTimestamp(m: Timestamp, d: seq<Byte>) returns (r: WireResult<Timestamp>)
    ensures r == Decode(TimestampSwitch, m, d)
  {
    hide TagOf, Dispatch, TimestampSwitch;
    var cur, i := m, 0;
    assert d[0..] == d;
    while i < |d|
      invariant i <= |d| && Decode(TimestampSwitch, m, d) == Decode(TimestampSwitch, cur, d[i..])
    {
      var tag := ReadTagAt(d, i);
      if tag.Err? { return Err(tag.error); }
      var (num, wt, j) := tag.value;
      var step := TimestampField(cur, num, wt, d, j);
      var one := FinishField(step, cur, d, i, j);
      OneTurn(TimestampSwitch, cur, d, i, one);
      if one.Err? { return Err(one.error); }
      cur, i := one.value.0, one.value.1;
    }
    return Ok(cur);
  }

  method SpanField(m: Span, num: int, wt: int, d: seq<Byte>, j: nat) returns (s: Step<Span>)
    requires j <= |d|
    ensures s == SpanSwitch(m, num, wt, d[j..])
  {
    hide ReadInt, ReadBytes, ReadFixed32, Decode, ToInt64, ToInt32, ToUInt32;
    match num {
      case 3 =>
        var r := ReadBytesAt(wt, d, j);
        return Store(r, x => m.(key := x));
      case 4 =>
        var r := ReadBytesAt(wt, d, j);
        return Store(r, x => m.(endKey := x));
      case _ => return Unknown;
    }
  }

  method UnmarshalSpan(m: Span, d: seq<Byte>) returns (r: WireResult<Span>)
    ensures r == Decode(SpanSwitch, m, d)
  {
    hide TagOf, Dispatch, SpanSwitch;
    var cur, i := m, 0;
    assert d[0..] == d;
    while i < |d|
      invariant i <= |d| && Decode(SpanSwitch, m, d) == Decode(SpanSwitch, cur, d[i..])
    {
      var tag := ReadTagAt(d, i);
      if tag.Err? { return Err(tag.error); }
      var (num, wt, j) := tag.value;
      var step := SpanField(cur, num, wt, d, j);
      var one := FinishField(step, cur, d, i, j);
      OneTurn(SpanSwitch, cur, d, i, one);
      if one.Err? { return Err(one.error); }
      cur, i := one.value.0, one.value.1;
    }
    return Ok(cur);
  }

  method MVCCKeyValueField(m: MVCCKeyValue, num: int, wt: int, d: seq<Byte>, j: nat) returns (s: Step<MVCCKeyValue>)
    requires j <= |d|
    ensures s == MVCCKeyValueSwitch(m, num, wt, d[j..])
  {
    hide ReadInt, ReadBytes, ReadFixed32, Decode, ToInt64, ToInt32, ToUInt32;
    match num {
      case 1 =>
        var r := ReadBytesAt(wt, d, j);
        return Store(r, x => m.(key := x));
      case 2 =>
        var r := ReadBytesAt(wt, d, j);
        return Store(r, x => m.(value := x));
      case _ => return Unknown;
    }
  }

  method UnmarshalMVCCKeyValue(m: MVCCKeyValue, d: seq<Byte>) returns (r: WireResult<MVCCKeyValue>)
    ensures r == Decode(MVCCKeyValueSwitch, m, d)
  {
    hide TagOf, Dispatch, MVCCKeyValueSwitch;
    var cur, i := m, 0;
    assert d[0..] == d;
    while i < |d|
      invariant i <= |d| && Decode(MVCCKeyValueSwitch, m, d) == Decode(MVCCKeyValueSwitch, cur, d[i..])
    {
      var tag := ReadTagAt(d, i);
      if tag.Err? { return Err(tag.error); }
      var (num, wt, j) := tag.value;
      var step := MVCCKeyValueField(cur, num, wt, d, j);
      var one := FinishField(step, cur, d, i, j);
      OneTurn(MVCCKeyValueSwitch, cur, d, i, one);
      if one.Err? { return Err(one.error); }
      cur, i := one.value.0, one.value.1;
    }
    return Ok(cur);
  }

  method ValueField(m: Value, num: int, wt: int, d: seq<Byte>, j: nat) returns (s: Step<Value>)
    requires j <= |d|
    ensures s == ValueSwitch(m, num, wt, d[j..])
  {
    hide ReadInt, ReadBytes, ReadFixed32, Decode, ToInt64, ToInt32, ToUInt32;
    match num {
      case 1 =>
        var r := ReadBytesAt(wt, d, j);
        return Store(r, x => m.(bytes := x));
      case 2 =>
        var r := ReadFixed32At(wt, d, j);
        return Store(r, x => m.(checksum := x));
      case 3 =>
        var prior := if m.timestamp.None? then ZERO_TIMESTAMP else m.timestamp.value;
        var b := ReadBytesAt(wt, d, j);
        if b.Err? { return Fail(b.error); }
        var r := UnmarshalTimestamp(prior, b.value.0);
        return Store(Within(r, b.value.1), x => m.(timestamp := Some(x)));
      case 4 =>
        var r := Int32At(wt, d, j);
        return Store(r, x => m.(tag := x));
      case _ => return Unknown;
    }
  }

  method UnmarshalValue(m: Value, d: seq<Byte>) returns (r: WireResult<Value>)
    ensures r == Decode(ValueSwitch, m, d)
  {
    hide TagOf, Dispatch, ValueSwitch;
    var cur, i := m, 0;
    assert d[0..] == d;
    while i < |d|
      invariant i <= |d| && Decode(ValueSwitch, m, d) == Decode(ValueSwitch, cur, d[i..])
    {
      var tag := ReadTagAt(d, i);
      if tag.Err? { return Err(tag.error); }
      var (num, wt, j) := tag.value;
      var step := ValueField(cur, num, wt, d, j);
      var one := FinishField(step, cur, d, i, j);
      OneTurn(ValueSwitch, cur, d, i, one);
      if one.Err? { return Err(one.error); }
      cur, i := one.value.0, one.value.1;
    }
    return Ok(cur);
  }

  method SnapshotKeyValuesField(m: SnapshotKeyValues, num: int, wt: int, d: seq<Byte>, j: nat) returns (s: Step<SnapshotKeyValues>)
    requires j <= |d|
    ensures s == SnapshotSwitch(m, num, wt, d[j..])
  {
    hide ReadInt, ReadBytes, ReadFixed32, Decode, ToInt64, ToInt32, ToUInt32;
    match num {
      case 1 =>
        var b := ReadBytesAt(wt, d, j);
        if b.Err? { return Fail(b.error); }
        var r := UnmarshalMVCCKeyValue(ZERO_MVCC_KEY_VALUE, b.value.0);
        return Store(Within(r, b.value.1), x => m.(keyValues := m.keyValues + [x]));
      case _ => return Unknown;
    }
  }

  method UnmarshalSnapshotKeyValues(m: SnapshotKeyValues, d: seq<Byte>) returns (r: WireResult<SnapshotKeyValues>)
    ensures r == Decode(SnapshotSwitch, m, d)
  {
    hide TagOf, Dispatch, SnapshotSwitch;
    var cur, i := m, 0;
    assert d[0..] == d;
    while i < |d|
      invariant i <= |d| && Decode(SnapshotSwitch, m, d) == Decode(SnapshotSwitch, cur, d[i..])
    {
      var tag := ReadTagAt(d, i);
      if tag.Err? { return Err(tag.error); }
      var (num, wt, j) := tag.value;
      var step := SnapshotKeyValuesField(cur, num, wt, d, j);
      var one := FinishField(step, cur, d, i, j);
      OneTurn(SnapshotSwitch, cur, d, i, one);
      if one.Err? { return Err(one.error); }
      cur, i := one.value.0, one.value.1;
    }
    return Ok(cur);
  }

  method TransactionField(m: Transaction, num: int, wt: int, d: seq<Byte>, j: nat) returns (s: Step<Transaction>)
    requires j <= |d|
    ensures s == TransactionSwitch(m, num, wt, d[j..])
  {
    hide ReadInt, ReadBytes, ReadFixed32, Decode, ToInt64, ToInt32, ToUInt32;
    match num {
      case 1 =>
        var r := ReadBytesAt(wt, d, j);
        return Store(r, x => m.(name := x));
      case 2 =>
        var r := ReadBytesAt(wt, d, j);
        return Store(r, x => m.(id := x));
      case 3 =>
        var r := Int32At(wt, d, j);
        return Store(r, x => m.(priority := x));
      case 4 =>
        var r := Int32At(wt, d, j);
        return Store(r, x => m.(status := x));
      case 5 =>
        var r := Int64At(wt, d, j);
        return Store(r, x => m.(lastHeartbeat := x));
      case 6 =>
        var b := ReadBytesAt(wt, d, j);
        if b.Err? { return Fail(b.error); }
        var r := UnmarshalTimestamp(m.timestamp, b.value.0);
        return Store(Within(r, b.value.1), x => m.(timestamp := x));
      case 7 =>
        var r := UInt32At(wt, d, j);
        return Store(r, x => m.(sequence := x));
      case _ => return Unknown;
    }
  }

  method UnmarshalTransaction(m: Transaction, d: seq<Byte>) returns (r: WireResult<Transaction>)
    ensures r == Decode(TransactionSwitch, m, d)
  {
    hide TagOf, Dispatch, TransactionSwitch;
    var cur, i := m, 0;
    assert d[0..] == d;
    while i < |d|
      invariant i <= |d| && Decode(TransactionSwitch, m, d) == Decode(TransactionSwitch, cur, d[i..])
    {
      var tag := ReadTagAt(d, i);
      if tag.Err? { return Err(tag.error); }
      var (num, wt, j) := tag.value;
      var step := TransactionField(cur, num, wt, d, j);
      var one := FinishField(step, cur, d, i, j);
      OneTurn(TransactionSwitch, cur, d, i, one);
      if one.Err? { return Err(one.error); }
      cur, i := one.value.0, one.value.1;
    }
    return Ok(cur);
  }

  method IntentField(m: Intent, num: int, wt: int, d: seq<Byte>, j: nat) returns (s: Step<Intent>)
    requires j <= |d|
    ensures s == IntentSwitch(m, num, wt, d[j..])
  {
    hide ReadInt, ReadBytes, ReadFixed32, Decode, ToInt64, ToInt32, ToUInt32;
    match num {
      case 1 =>
        var b := ReadBytesAt(wt, d, j);
        if b.Err? { return Fail(b.error); }
        var r := UnmarshalSpan(m.span, b.value.0);
        return Store(Within(r, b.value.1), x => m.(span := x));
      case 2 =>
        var b := ReadBytesAt(wt, d, j);
        if b.Err? { return Fail(b.error); }
        var r := UnmarshalTransaction(m.txn, b.value.0);
        return Store(Within(r, b.value.1), x => m.(txn := x));
      case _ => return Unknown;
    }
  }

  method UnmarshalIntent(m: Intent, d: seq<Byte>) returns (r: WireResult<Intent>)
    ensures r == Decode(IntentSwitch, m, d)
  {
    hide TagOf, Dispatch, IntentSwitch;
    var cur, i := m, 0;
    assert d[0..] == d;
    while i < |d|
      invariant i <= |d| && Decode(IntentSwitch, m, d) == Decode(IntentSwitch, cur, d[i..])
    {
      var tag := ReadTagAt(d, i);
      if tag.Err? { return Err(tag.error); }
      var (num, wt, j) := tag.value;
      var step := IntentField(cur, num, wt, d, j);
      var one := FinishField(step, cur, d, i, j);
      OneTurn(IntentSwitch, cur, d, i, one);
      if one.Err? { return Err(one.error); }
      cur, i := one.value.0, one.value.1;
    }
    return Ok(cur);
  }

  method RequestHeaderField(m: RequestHeader, num: int, wt: int, d: seq<Byte>, j: nat) returns (s: Step<RequestHeader>)
    requires j <= |d|
    ensures s == RequestHeaderSwitch(m, num, wt, d[j..])
  {
    hide ReadInt, ReadBytes, ReadFixed32, Decode, ToInt64, ToInt32, ToUInt32;
    match num {
      case 1 =>
        var r := ReadBytesAt(wt, d, j);
        return Store(r, x => m.(key := x));
      case 2 =>
        var r := ReadBytesAt(wt, d, j);
        return Store(r, x => m.(endKey := x));
      case 3 =>
        var b := ReadBytesAt(wt, d, j);
        if b.Err? { return Fail(b.error); }
        var r := UnmarshalTimestamp(m.timestamp, b.value.0);
        return Store(Within(r, b.value.1), x => m.(timestamp := x));
      case 4 =>
        var r := Int64At(wt, d, j);
        return Store(r, x => m.(rangeID := x));
      case 5 =>
        var prior := if m.txn.None? then ZERO_TRANSACTION else m.txn.value;
        var b := ReadBytesAt(wt, d, j);
        if b.Err? { return Fail(b.error); }
        var r := UnmarshalTransaction(prior, b.value.0);
        return Store(Within(r, b.value.1), x => m.(txn := Some(x)));
      case 6 =>
        var r := Int32At(wt, d, j);
        return Store(r, x => m.(flag := x));
      case _ => return Unknown;
    }
  }

  method UnmarshalRequestHeader(m: RequestHeader, d: seq<Byte>) returns (r: WireResult<RequestHeader>)
    ensures r == Decode(RequestHeaderSwitch, m, d)
  {
    hide TagOf, Dispatch, RequestHeaderSwitch;
    var cur, i := m, 0;
    assert d[0..] == d;
    while i < |d|
      invariant i <= |d| && Decode(RequestHeaderSwitch, m, d) == Decode(RequestHeaderSwitch, cur, d[i..])
    {
      var tag := ReadTagAt(d, i);
      if tag.Err? { return Err(tag.error); }
      var (num, wt, j) := tag.value;
      var step := RequestHeaderField(cur, num, wt, d, j);
      var one := FinishField(step, cur, d, i, j);
      OneTurn(RequestHeaderSwitch, cur, d, i, one);
      if one.Err? { return Err(one.error); }
      cur, i := one.value.0, one.value.1;
    }
    return Ok(cur);
  }

  /** The packed case: the length, then the loop up to its end. */
  method ReadPackedAt(d: seq<Byte>, j: nat) returns (r: WireResult<(seq<Int64>, nat)>)
    requires j <= |d|
    ensures r == ReadPackedField(d[j..])
  {
    hide ReadVarintFrom, Truncate, ReadPacked;
    var t := d[j..];
    assert t[0..] == t;
    var v := DecodeVarint(t, 0, Bits64);
    if v.Err? { return Err(v.error); }
    TruncatedAlike(ReadVarint(t).value.0);
    var length := ToInt64(v.value.0);
    if length < 0 { return Err(InvalidLength); }
    if v.value.1 + length > |t| { return Err(UnexpectedEOF); }
    r := UnmarshalPacked(t, v.value.1, v.value.1 + length);
  }

  method GetRangeStatsRequestField(m: GetRangeStatsRequest, num: int, wt: int, d: seq<Byte>, j: nat) returns (s: Step<GetRangeStatsRequest>)
    requires j <= |d|
    ensures s == GetRangeStatsSwitch(m, num, wt, d[j..])
  {
    hide ReadVarint, ReadPackedField, ReadBytes, ReadFixed32, Decode, ToInt64, ToInt32, ToUInt32;
    match num {
      case 1 =>
        var b := ReadBytesAt(wt, d, j);
        if b.Err? { return Fail(b.error); }
        var r := UnmarshalRequestHeader(m.header, b.value.0);
        return Store(Within(r, b.value.1), x => m.(header := x));
      case 2 =>
        if wt == 0 {
          var r := Int64At(wt, d, j);
          return Store(r, x => m.(rangeIDs := m.rangeIDs + [x]));
        } else if wt == 2 {
          var r := ReadPackedAt(d, j);
          return Store(r, x => m.(rangeIDs := m.rangeIDs + x));
        } else {
          return Fail(WrongWireType);
        }
      case _ => return Unknown;
    }
  }

  method UnmarshalGetRangeStatsRequest(m: GetRangeStatsRequest, d: seq<Byte>) returns (r: WireResult<GetRangeStatsRequest>)
    ensures r == Decode(GetRangeStatsSwitch, m, d)
  {
    hide TagOf, Dispatch, GetRangeStatsSwitch;
    var cur, i := m, 0;
    assert d[0..] == d;
    while i < |d|
      invariant i <= |d| && Decode(GetRangeStatsSwitch, m, d) == Decode(GetRangeStatsSwitch, cur, d[i..])
    {
      var tag := ReadTagAt(d, i);
      if tag.Err? { return Err(tag.error); }
      var (num, wt, j) := tag.value;
      var step := GetRangeStatsRequestField(cur, num, wt, d, j);
      var one := FinishField(step, cur, d, i, j);
      OneTurn(GetRangeStatsSwitch, cur, d, i, one);
      if one.Err? { return Err(one.error); }
      cur, i := one.value.0, one.value.1;
    }
    return Ok(cur);
  }
}
