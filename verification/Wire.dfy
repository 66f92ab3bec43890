/** The message structure: tagged fields, the skipping of unknown ones, and the
    decoding loop that every generated Unmarshal shares. */
module Wire {
  import opened Varint
  import opened Wrappers

  // ------------------------------------------------------------ fields

  /** A well-formed field as any writer may send it, nested groups included. */
  datatype Field =
    | VarintField(num: int, v: UInt64)
    | Fixed64Field(num: int, b: seq<Byte>)
    | BytesField(num: int, b: seq<Byte>)
    | GroupField(num: int, fields: seq<Field>)
    | Fixed32Field(num: int, b: seq<Byte>)

  function WireType(f: Field): (wt: int)
    ensures 0 <= wt < 6 && wt != 4
  {
    match f
    case VarintField(_, _) => 0
    case Fixed64Field(_, _) => 1
    case BytesField(_, _) => 2
    case GroupField(_, _) => 3
    case Fixed32Field(_, _) => 5
  }

  /** Field numbers are positive `int32`s; lengths are those of Go slices. */
  predicate WellFormed(f: Field) {
    && 1 <= f.num < TWO31
    && match f
       case VarintField(_, _) => true
       case Fixed64Field(_, b) => |b| == 8
       case BytesField(_, b) => |b| < TWO63
       case GroupField(_, fs) => AllWellFormed(fs)
       case Fixed32Field(_, b) => |b| == 4
  }

  predicate AllWellFormed(fs: seq<Field>) {
    fs == [] || (WellFormed(fs[0]) && AllWellFormed(fs[1..]))
  }

  function Tag(num: int, wt: int): (b: seq<Byte>)
    requires 1 <= num < TWO31 && 0 <= wt < 8
  {
    VarintBytes(num * 8 + wt)
  }

  /** What follows the tag. */
  function Body(f: Field): seq<Byte>
    requires WellFormed(f)
    decreases f, 0
  {
    match f
    case VarintField(_, v) => VarintBytes(v)
    case Fixed64Field(_, b) => b
    case BytesField(_, b) => VarintBytes(|b|) + b
    case GroupField(num, fs) => EncodeFields(fs) + Tag(num, 4)
    case Fixed32Field(_, b) => b
  }

  function EncodeField(f: Field): (b: seq<Byte>)
    requires WellFormed(f)
    ensures |b| >= 1
    decreases f, 1
  {
    Tag(f.num, WireType(f)) + Body(f)
  }

  function EncodeFields(fs: seq<Field>): seq<Byte>
    requires AllWellFormed(fs)
    decreases fs, 0
  {
    if fs == [] then [] else EncodeField(fs[0]) + EncodeFields(fs[1..])
  }

  // ------------------------------------------------------------ skipping

  /** skipData: the length of the field that `d` starts with. The end of a fixed or
      length-delimited field is not compared with the end of `d`; callers do that. */
  function Skip(d: seq<Byte>): (r: WireResult<nat>)
    requires d != []
    ensures r.Ok? ==> r.value >= 1
    decreases |d|, 0
  {
    match ReadVarint(d)
    case Err(e) => Err(e)
    case Ok((raw, j)) => Shift(j, SkipBody(raw % TWO64 % 8, d[j..]))
  }

  function Shift(j: nat, r: WireResult<nat>): WireResult<nat> {
    if r.Ok? then Ok(j + r.value) else r
  }

  /** The switch on the wire type, over the bytes after the tag. */
  function SkipBody(wt: int, t: seq<Byte>): WireResult<nat>
    decreases |t|, 2
  {
    match wt
    case 0 => (match ReadVarint(t) case Err(e) => Err(e) case Ok((_, used)) => Ok(used))
    case 1 => Ok(8)
    case 2 => SkipBytes(t)
    case 3 => SkipGroup(t)
    case 4 => Ok(0)
    case 5 => Ok(4)
    case _ => Err(IllegalWireType)
  }

  function SkipBytes(t: seq<Byte>): WireResult<nat> {
    match ReadVarint(t)
    case Err(e) => Err(e)
    case Ok((raw, used)) =>
      var length := ToInt64(raw);
      if length < 0 then Err(InvalidLength) else Ok(used + length)
  }

  /** The inner loop of skipData: fields up to and including an end-group tag. */
  function SkipGroup(d: seq<Byte>): WireResult<nat>
    decreases |d|, 1
  {
    match ReadVarint(d)
    case Err(e) => Err(e)
    case Ok((raw, used)) =>
      if raw % TWO64 % 8 == 4 then Ok(used)
      else match Skip(d)
        case Err(e) => Err(e)
        case Ok(n) => if n >= |d| then Err(UnexpectedEOF) else Shift(n, SkipGroup(d[n..]))
  }

  lemma ReadTag(num: int, wt: int, rest: seq<Byte>)
    requires 1 <= num < TWO31 && 0 <= wt < 8
    ensures ReadVarint(Tag(num, wt) + rest) == Ok((num * 8 + wt, |Tag(num, wt)|))
    ensures (num * 8 + wt) % TWO64 % 8 == wt && (num * 8 + wt) % TWO64 / 8 == num
    ensures (Tag(num, wt) + rest)[|Tag(num, wt)|..] == rest
  {
    ReadWritten(num * 8 + wt, rest);
  }

  lemma {:induction false} SkipOneField(f: Field, rest: seq<Byte>)
    requires WellFormed(f)
    ensures Skip(EncodeField(f) + rest) == Ok(|EncodeField(f)|)
    decreases f, 2
  {
    hide ReadVarintFrom, VarintBytes;
    assert EncodeField(f) + rest == Tag(f.num, WireType(f)) + (Body(f) + rest);
    ReadTag(f.num, WireType(f), Body(f) + rest);
    SkipOneBody(f, rest);
  }

  lemma {:induction false} SkipOneBody(f: Field, rest: seq<Byte>)
    requires WellFormed(f)
    ensures SkipBody(WireType(f), Body(f) + rest) == Ok(|Body(f)|)
    decreases f, 1
  {
    hide ReadVarintFrom, VarintBytes;
    match f {
      case VarintField(_, v) => ReadWritten(v, rest);
      case BytesField(_, b) =>
        assert Body(f) + rest == VarintBytes(|b|) + (b + rest);
        ReadWritten(|b|, b + rest);
      case GroupField(num, fs) => SkipWholeGroup(fs, num, rest);
      case _ =>
    }
  }

  lemma {:induction false} SkipWholeGroup(fs: seq<Field>, num: int, rest: seq<Byte>)
    requires AllWellFormed(fs) && 1 <= num < TWO31
    ensures SkipGroup(EncodeFields(fs) + Tag(num, 4) + rest) == Ok(|EncodeFields(fs)| + |Tag(num, 4)|)
    decreases fs, 0
  {
    hide ReadVarintFrom, VarintBytes;
    var d := EncodeFields(fs) + Tag(num, 4) + rest;
    if fs == [] {
      assert d == Tag(num, 4) + rest;
      ReadTag(num, 4, rest);
    } else {
      var more := EncodeFields(fs[1..]) + Tag(num, 4) + rest;
      assert d == EncodeField(fs[0]) + more;
      SkipOneField(fs[0], more);
      SkipGroupStep(fs[0], more);
      SkipWholeGroup(fs[1..], num, rest);
    }
  }

  lemma SkipGroupStep(f: Field, more: seq<Byte>)
    requires WellFormed(f) && more != []
    requires Skip(EncodeField(f) + more) == Ok(|EncodeField(f)|)
    ensures SkipGroup(EncodeField(f) + more) == Shift(|EncodeField(f)|, SkipGroup(more))
  {
    hide ReadVarintFrom, VarintBytes;
    var d := EncodeField(f) + more;
    assert d == Tag(f.num, WireType(f)) + (Body(f) + more);
    ReadTag(f.num, WireType(f), Body(f) + more);
    assert d[|EncodeField(f)|..] == more;
  }

  // ------------------------------------------------------------ decoding

  /** What a message's switch on the field number does with the bytes after a tag. */
  datatype Step<+M> = Unknown | Fail(error: WireError) | Next(msg: M, used: nat)

  /** (message so far, field number, wire type, bytes after the tag) -> Step */
  type Switch<!M> = (M, int, int, seq<Byte>) -> Step<M>

  /** The field number and the wire type that `d` starts with, and their length. */
  function TagOf(d: seq<Byte>): (r: WireResult<(int, int, nat)>)
    ensures r.Ok? ==> 0 < r.value.2 <= |d|
  {
    match ReadVarint(d)
    case Err(e) => Err(e)
    case Ok((raw, j)) =>
      var wire := raw % TWO64;
      var num, wt := ToInt32(wire / 8), wire % 8;
      if wt == 4 then Err(EndGroup)
      else if num <= 0 then Err(IllegalTag)
      else Ok((num, wt, j))
  }

  /** One turn of a generated Unmarshal's loop: the message after the field that `d`
      starts with, and the length of that field. */
  function DecodeOne<M>(sw: Switch<M>, m: M, d: seq<Byte>): (r: WireResult<(M, nat)>)
    requires d != []
    ensures r.Ok? ==> 0 < r.value.1 <= |d|
  {
    match TagOf(d)
    case Err(e) => Err(e)
    case Ok((num, wt, j)) => Dispatch(sw(m, num, wt, d[j..]), m, j, d)
  }

  function Dispatch<M>(step: Step<M>, m: M, j: nat, d: seq<Byte>): (r: WireResult<(M, nat)>)
    requires 0 < j <= |d|
    ensures r.Ok? ==> 0 < r.value.1 <= |d|
  {
    match step
    case Fail(e) => Err(e)
    case Next(m', used) => if j + used > |d| then Err(UnexpectedEOF) else Ok((m', j + used))
    case Unknown =>
      match Skip(d)
      case Err(e) => Err(e)
      case Ok(n) => if n > |d| then Err(UnexpectedEOF) else Ok((m, n))
  }

  /** A generated Unmarshal. */
  function Decode<M>(sw: Switch<M>, m: M, d: seq<Byte>): WireResult<M>
    decreases |d|
  {
    if d == [] then Ok(m)
    else match DecodeOne(sw, m, d)
      case Err(e) => Err(e)
      case Ok((m', n)) => Decode(sw, m', d[n..])
  }

  /** skipData, with its loops. */
  method SkipData(d: seq<Byte>) returns (r: WireResult<nat>)
    requires d != []
    ensures r == Skip(d)
    decreases |d|, 0
  {
    hide ReadVarintFrom, VarintBytes;
    assert d[0..] == d;
    var tag := DecodeVarint(d, 0, Bits64);
    if tag.Err? { return Err(tag.error); }
    var (wire, i) := tag.value;
    match wire % 8 {
      case 0 =>
        var v := DecodeVarint(d, i, Bits64);
        return if v.Err? then Err(v.error) else Ok(v.value.1);
      case 1 => return Ok(i + 8);
      case 2 =>
        var v := DecodeVarint(d, i, Bits64);
        if v.Err? { return Err(v.error); }
        var length := ToInt64(v.value.0);
        return if length < 0 then Err(InvalidLength) else Ok(v.value.1 + length);
      case 3 => r := SkipDataGroup(d, i);
      case 4 => return Ok(i);
      case 5 => return Ok(i + 4);
      case _ => return Err(IllegalWireType);
    }
  }

  /** The start-group case of skipData. */
  method SkipDataGroup(d: seq<Byte>, start: nat) returns (r: WireResult<nat>)
    requires 0 < start <= |d|
    ensures r == Shift(start, SkipGroup(d[start..]))
    decreases |d| - start, 1
  {
    hide ReadVarintFrom, VarintBytes;
    var i := start;
    while true
      invariant start <= i <= |d|
      invariant Shift(start, SkipGroup(d[start..])) == Shift(i, SkipGroup(d[i..]))
      decreases |d| - i
    {
      var inner := DecodeVarint(d, i, Bits64);
      if inner.Err? { return Err(inner.error); }
      if inner.value.0 % 8 == 4 { return Ok(inner.value.1); }
      var next := SkipData(d[i..]);
      if next.Err? { return Err(next.error); }
      // Past the end the next tag read reports the end of the input.
      if i + next.value >= |d| { return Err(UnexpectedEOF); }
      assert d[i..][next.value..] == d[i + next.value..];
      i := i + next.value;
    }
  }

  /** The start of that loop's body: the tag of the field at index i. */
  method ReadTagAt(d: seq<Byte>, i: nat) returns (r: WireResult<(int, int, nat)>)
    requires i < |d|
    ensures r == match TagOf(d[i..]) case Err(e) => Err(e) case Ok((num, wt, n)) => Ok((num, wt, i + n))
    ensures r.Ok? ==> i < r.value.2 <= |d| && d[i..][r.value.2 - i..] == d[r.value.2..]
  {
    hide ReadVarintFrom, VarintBytes;
    var tag := DecodeVarint(d, i, Bits64);
    if tag.Err? { return Err(tag.error); }
    var num, wt := ToInt32(tag.value.0 / 8), tag.value.0 % 8;
    if wt == 4 { return Err(EndGroup); }
    if num <= 0 { return Err(IllegalTag); }
    return Ok((num, wt, tag.value.1));
  }

  /** Its end: what the switch made of the bytes from index j on, or the unknown field skipped. */
  method FinishField<M>(step: Step<M>, m: M, d: seq<Byte>, i: nat, j: nat) returns (r: WireResult<(M, nat)>)
    requires i < j <= |d|
    ensures r == From(i, Dispatch(step, m, j - i, d[i..]))
  {
    hide Skip;
    match step {
      case Fail(e) => return Err(e);
      case Next(m', used) =>
        return if j + used > |d| then Err(UnexpectedEOF) else Ok((m', j + used));
      case Unknown =>
        var skipped := SkipData(d[i..]);
        if skipped.Err? { return Err(skipped.error); }
        return if i + skipped.value > |d| then Err(UnexpectedEOF) else Ok((m, i + skipped.value));
    }
  }

  function From<M>(i: nat, r: WireResult<(M, nat)>): WireResult<(M, nat)> {
    match r case Err(e) => Err(e) case Ok((m, n)) => Ok((m, i + n))
  }

  /** One turn of the loop is one step of Decode. */
  lemma OneTurn<M>(sw: Switch<M>, m: M, d: seq<Byte>, i: nat, r: WireResult<(M, nat)>)
    requires i < |d| && r == From(i, DecodeOne(sw, m, d[i..]))
    ensures r.Err? ==> Decode(sw, m, d[i..]) == Err(r.error)
    ensures r.Ok? ==> i < r.value.1 <= |d| && Decode(sw, m, d[i..]) == Decode(sw, r.value.0, d[r.value.1..])
  {
    hide DecodeOne;
    if r.Ok? { assert d[i..][r.value.1 - i..] == d[r.value.1..]; }
  }

  // ------------------------------------------------------------ decoding a stream of fields

  /** The switch looks no further than the field it is given. */
  ghost predicate Local<M(!new)>(sw: Switch<M>, f: Field)
    requires WellFormed(f)
  {
    forall m: M, rest :: LocalAt(sw, f, m, rest)
  }

  ghost predicate LocalAt<M>(sw: Switch<M>, f: Field, m: M, rest: seq<Byte>)
    requires WellFormed(f)
  {
    var step := sw(m, f.num, WireType(f), Body(f));
    && sw(m, f.num, WireType(f), Body(f) + rest) == step
    && (step.Next? ==> step.used == |Body(f)|)
  }

  ghost predicate AllLocal<M(!new)>(sw: Switch<M>, fs: seq<Field>)
    requires AllWellFormed(fs)
  {
    fs == [] || (Local(sw, fs[0]) && AllLocal(sw, fs[1..]))
  }

  ghost predicate LocalSwitch<M(!new)>(sw: Switch<M>) {
    forall f | WellFormed(f) :: Local(sw, f)
  }

  lemma {:induction false} AllAreLocal<M(!new)>(sw: Switch<M>, fs: seq<Field>)
    requires AllWellFormed(fs) && LocalSwitch(sw)
    ensures AllLocal(sw, fs)
  {
    if fs != [] {
      assert WellFormed(fs[0]);
      AllAreLocal(sw, fs[1..]);
    }
  }

  /** What a stream of fields means to a message: each known field is applied in
      order, the unknown ones are dropped. */
  function Fold<M>(sw: Switch<M>, m: M, fs: seq<Field>): WireResult<M>
    requires AllWellFormed(fs)
    decreases |fs|
  {
    if fs == [] then Ok(m)
    else match sw(m, fs[0].num, WireType(fs[0]), Body(fs[0]))
      case Unknown => Fold(sw, m, fs[1..])
      case Fail(e) => Err(e)
      case Next(m', _) => Fold(sw, m', fs[1..])
  }

  lemma DecodeOneField<M>(sw: Switch<M>, m: M, f: Field, rest: seq<Byte>)
    requires WellFormed(f) && LocalAt(sw, f, m, rest)
    ensures DecodeOne(sw, m, EncodeField(f) + rest)
         == match sw(m, f.num, WireType(f), Body(f))
            case Unknown => Ok((m, |EncodeField(f)|))
            case Fail(e) => Err(e)
            case Next(m', _) => Ok((m', |EncodeField(f)|))
  {
    hide ReadVarintFrom, VarintBytes;
    var d, j := EncodeField(f) + rest, |Tag(f.num, WireType(f))|;
    assert d == Tag(f.num, WireType(f)) + (Body(f) + rest);
    ReadTag(f.num, WireType(f), Body(f) + rest);
    SkipOneField(f, rest);
    var step := sw(m, f.num, WireType(f), Body(f) + rest);
    assert ToInt32(f.num) == f.num;
    assert DecodeOne(sw, m, d) == Dispatch(step, m, j, d);
  }

  /** The byte-level loop computes the field-level meaning. */
  lemma {:induction false} DecodeIsFold<M(!new)>(sw: Switch<M>, m: M, fs: seq<Field>)
    requires AllWellFormed(fs) && AllLocal(sw, fs)
    ensures Decode(sw, m, EncodeFields(fs)) == Fold(sw, m, fs)
    decreases |fs|
  {
    if fs != [] {
      var f, rest := fs[0], EncodeFields(fs[1..]);
      assert LocalAt(sw, f, m, rest);
      DecodeOneField(sw, m, f, rest);
      assert EncodeFields(fs)[|EncodeField(f)|..] == rest;
      match sw(m, f.num, WireType(f), Body(f)) {
        case Unknown => DecodeIsFold(sw, m, fs[1..]);
        case Fail(_) =>
        case Next(m', _) => DecodeIsFold(sw, m', fs[1..]);
      }
    }
  }

  /** `known` is the set of field numbers the switch has a case for. */
  ghost predicate Knows<M(!new)>(sw: Switch<M>, known: set<int>) {
    forall m: M, num, wt, t :: sw(m, num, wt, t).Unknown? <==> num !in known
  }

  function OnlyKnown(known: set<int>, fs: seq<Field>): (r: seq<Field>)
    requires AllWellFormed(fs)
    ensures AllWellFormed(r)
  {
    if fs == [] then []
    else
      var rest := OnlyKnown(known, fs[1..]);
      if fs[0].num !in known then rest
      else
        assert ([fs[0]] + rest)[1..] == rest;
        [fs[0]] + rest
  }

  lemma {:induction false} FoldIgnoresUnknown<M(!new)>(sw: Switch<M>, known: set<int>, m: M, fs: seq<Field>)
    requires AllWellFormed(fs) && Knows(sw, known)
    ensures Fold(sw, m, fs) == Fold(sw, m, OnlyKnown(known, fs))
    decreases |fs|
  {
    if fs != [] {
      var f := fs[0];
      match sw(m, f.num, WireType(f), Body(f)) {
        case Unknown =>
          assert OnlyKnown(known, fs) == OnlyKnown(known, fs[1..]);
          FoldIgnoresUnknown(sw, known, m, fs[1..]);
        case Fail(_) =>
        case Next(m', _) =>
          assert OnlyKnown(known, fs)[1..] == OnlyKnown(known, fs[1..]);
          FoldIgnoresUnknown(sw, known, m', fs[1..]);
      }
    }
  }

  lemma {:induction false} OnlyKnownLocal<M(!new)>(sw: Switch<M>, known: set<int>, fs: seq<Field>)
    requires AllWellFormed(fs) && AllLocal(sw, fs)
    ensures AllLocal(sw, OnlyKnown(known, fs))
    decreases |fs|
  {
    if fs != [] {
      OnlyKnownLocal(sw, known, fs[1..]);
      var r := OnlyKnown(known, fs);
      if fs[0].num in known {
        assert r[1..] == OnlyKnown(known, fs[1..]);
      } else {
        assert r == OnlyKnown(known, fs[1..]);
      }
    }
  }

  /** Fields with unused numbers, of any wire type and nesting, may stand anywhere
      between the known ones: the message decodes as if they were absent. */
  lemma UnknownFieldsAreTransparent<M(!new)>(sw: Switch<M>, known: set<int>, m: M, fs: seq<Field>)
    requires AllWellFormed(fs) && AllLocal(sw, fs) && Knows(sw, known)
    ensures Decode(sw, m, EncodeFields(fs)) == Decode(sw, m, EncodeFields(OnlyKnown(known, fs)))
  {
    OnlyKnownLocal(sw, known, fs);
    DecodeIsFold(sw, m, fs);
    DecodeIsFold(sw, m, OnlyKnown(known, fs));
    FoldIgnoresUnknown(sw, known, m, fs);
  }

  // ------------------------------------------------------------ concatenation

  lemma {:induction false} AllWellFormedConcat(a: seq<Field>, b: seq<Field>)
    ensures AllWellFormed(a + b) <==> AllWellFormed(a) && AllWellFormed(b)
  {
    if a == [] {
      assert a + b == b;
    } else {
      assert (a + b)[1..] == a[1..] + b;
      AllWellFormedConcat(a[1..], b);
    }
  }

  lemma {:induction false} EncodeConcat(a: seq<Field>, b: seq<Field>)
    requires AllWellFormed(a) && AllWellFormed(b)
    ensures AllWellFormed(a + b)
    ensures EncodeFields(a + b) == EncodeFields(a) + EncodeFields(b)
  {
    AllWellFormedConcat(a, b);
    if a == [] {
      assert a + b == b;
    } else {
      assert (a + b)[1..] == a[1..] + b;
      EncodeConcat(a[1..], b);
    }
  }

  lemma {:induction false} FoldConcat<M>(sw: Switch<M>, m: M, a: seq<Field>, b: seq<Field>)
    requires AllWellFormed(a) && AllWellFormed(b)
    ensures AllWellFormed(a + b)
    ensures Fold(sw, m, a + b) == match Fold(sw, m, a) case Err(e) => Err(e) case Ok(m') => Fold(sw, m', b)
    decreases |a|
  {
    AllWellFormedConcat(a, b);
    if a == [] {
      assert a + b == b;
    } else {
      assert (a + b)[1..] == a[1..] + b;
      match sw(m, a[0].num, WireType(a[0]), Body(a[0])) {
        case Unknown => FoldConcat(sw, m, a[1..], b);
        case Fail(_) =>
        case Next(m', _) => FoldConcat(sw, m', a[1..], b);
      }
    }
  }
}
