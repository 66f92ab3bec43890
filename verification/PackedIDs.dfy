/** GetRangeStatsRequest: a repeated integer field, written packed and read packed,
    one by one, or in any mixture of the two. */
module PackedIDs {
  import opened Varint
  import opened Wire
  import opened Messages
  import opened Wrappers

  datatype GetRangeStatsRequest = GetRangeStatsRequest(header: RequestHeader, rangeIDs: seq<Int64>)

  const ZERO_GET_RANGE_STATS := GetRangeStatsRequest(ZERO_REQUEST_HEADER, [])

  /** The packed elements: varints end to end. */
  function PackedBytes(ids: seq<Int64>): seq<Byte> {
    if ids == [] then [] else VarintBytes(ToUInt64(ids[0])) + PackedBytes(ids[1..])
  }

  /** The packed loop: varints are read while the index is below `post`; like the
      source it lets the last one run past `post`, up to the end of the input. */
  function ReadPacked(t: seq<Byte>, i: nat, post: nat): (r: WireResult<(seq<Int64>, nat)>)
    requires i <= |t| && post <= |t|
    ensures r.Ok? ==> i <= r.value.1 <= |t|
    decreases |t| - i
  {
    if i >= post then Ok(([], i))
    else match ReadVarint(t[i..])
      case Err(e) => Err(e)
      case Ok((v, used)) =>
        match ReadPacked(t, i + used, post)
        case Err(e) => Err(e)
        case Ok((ids, next)) => Ok(([ToInt64(v)] + ids, next))
  }

  function ReadPackedField(t: seq<Byte>): WireResult<(seq<Int64>, nat)> {
    match ReadVarint(t)
    case Err(e) => Err(e)
    case Ok((raw, used)) =>
      var length := ToInt64(raw);
      if length < 0 then Err(InvalidLength)
      else if used + length > |t| then Err(UnexpectedEOF)
      else ReadPacked(t, used, used + length)
  }

  function GetRangeStatsSwitch(m: GetRangeStatsRequest, num: int, wt: int, t: seq<Byte>): Step<GetRangeStatsRequest> {
    match num
    case 1 => Store(Merge(RequestHeaderSwitch, m.header, ReadBytes(wt, t)), h => m.(header := h))
    case 2 =>
      if wt == 0 then Store(ReadVarint(t), v => m.(rangeIDs := m.rangeIDs + [ToInt64(v)]))
      else if wt == 2 then Store(ReadPackedField(t), ids => m.(rangeIDs := m.rangeIDs + ids))
      else Fail(WrongWireType)
    case _ => Unknown
  }

  /** The packed loop of GetRangeStatsRequest.Unmarshal. */
  method UnmarshalPacked(t: seq<Byte>, start: nat, post: nat) returns (r: WireResult<(seq<Int64>, nat)>)
    requires start <= |t| && post <= |t|
    ensures r == ReadPacked(t, start, post)
  {
    hide ReadVarintFrom;
    var ids, i := [], start;
    ghost var whole := ReadPacked(t, start, post);
    if whole.Ok? { assert [] + whole.value.0 == whole.value.0; }
    while i < post
      invariant start <= i <= |t|
      invariant ReadPacked(t, start, post) == match ReadPacked(t, i, post)
                case Err(e) => Err(e)
                case Ok((more, next)) => Ok((ids + more, next))
      decreases |t| - i
    {
      var v := DecodeVarint(t, i, Bits64);
      if v.Err? { return Err(v.error); }
      ghost var tail := ReadPacked(t, v.value.1, post);
      var id := ToInt64(v.value.0);
      if tail.Ok? { assert ids + ([id] + tail.value.0) == (ids + [id]) + tail.value.0; }
      ids := ids + [id];
      i := v.value.1;
    }
    assert ids + [] == ids;
    return Ok((ids, i));
  }

  lemma {:induction false} PackedReadsBack(pre: seq<Byte>, ids: seq<Int64>, rest: seq<Byte>)
    ensures var t := pre + PackedBytes(ids) + rest;
            var post := |pre| + |PackedBytes(ids)|;
            ReadPacked(t, |pre|, post) == Ok((ids, post))
    decreases ids
  {
    hide ReadVarintFrom, VarintBytes;
    var t := pre + PackedBytes(ids) + rest;
    if ids != [] {
      var b := VarintBytes(ToUInt64(ids[0]));
      assert t == (pre + b) + PackedBytes(ids[1..]) + rest;
      assert t[|pre|..] == b + (PackedBytes(ids[1..]) + rest);
      ReadWritten(ToUInt64(ids[0]), PackedBytes(ids[1..]) + rest);
      SignRoundTrip(ids[0]);
      PackedReadsBack(pre + b, ids[1..], rest);
      assert [ids[0]] + ids[1..] == ids;
    }
  }

  lemma PackedFieldReadsBack(ids: seq<Int64>, rest: seq<Byte>)
    requires |PackedBytes(ids)| < TWO63
    ensures var b := PackedBytes(ids);
            ReadPackedField(VarintBytes(|b|) + b + rest) == Ok((ids, |VarintBytes(|b|) + b|))
  {
    hide ReadVarintFrom, VarintBytes;
    var b := PackedBytes(ids);
    assert VarintBytes(|b|) + b + rest == VarintBytes(|b|) + (b + rest);
    ReadWritten(|b|, b + rest);
    PackedReadsBack(VarintBytes(|b|), ids, rest);
  }

  // ------------------------------------------------------------ any mixture of the two forms

  datatype Chunk = One(id: Int64) | Packed(ids: seq<Int64>)

  predicate ChunksFit(cs: seq<Chunk>) {
    cs == [] || ((cs[0].Packed? ==> |PackedBytes(cs[0].ids)| < TWO63) && ChunksFit(cs[1..]))
  }

  function ChunkField(c: Chunk): (f: Field)
    requires c.Packed? ==> |PackedBytes(c.ids)| < TWO63
    ensures WellFormed(f) && f.num == 2
  {
    match c
    case One(id) => VarintField(2, ToUInt64(id))
    case Packed(ids) => BytesField(2, PackedBytes(ids))
  }

  function ChunkFields(cs: seq<Chunk>): (fs: seq<Field>)
    requires ChunksFit(cs)
    ensures AllWellFormed(fs)
  {
    if cs == [] then []
    else
      var rest := ChunkFields(cs[1..]);
      assert ([ChunkField(cs[0])] + rest)[1..] == rest;
      [ChunkField(cs[0])] + rest
  }

  function ChunkIDs(c: Chunk): seq<Int64> {
    match c case One(id) => [id] case Packed(ids) => ids
  }

  /** The list a sequence of chunks stands for. */
  function Flatten(cs: seq<Chunk>): seq<Int64> {
    if cs == [] then [] else ChunkIDs(cs[0]) + Flatten(cs[1..])
  }

  lemma ChunkIsLocal(m: GetRangeStatsRequest, c: Chunk, rest: seq<Byte>)
    requires c.Packed? ==> |PackedBytes(c.ids)| < TWO63
    ensures var f := ChunkField(c);
            GetRangeStatsSwitch(m, 2, WireType(f), Body(f) + rest)
            == Next(m.(rangeIDs := m.rangeIDs + ChunkIDs(c)), |Body(f)|)
  {
    hide ReadVarintFrom, VarintBytes, ReadPackedField;
    match c {
      case One(id) =>
        ReadWritten(ToUInt64(id), rest);
        SignRoundTrip(id);
      case Packed(ids) => PackedFieldReadsBack(ids, rest);
    }
  }

  lemma {:induction false} ChunksAreLocal(cs: seq<Chunk>)
    requires ChunksFit(cs)
    ensures AllLocal(GetRangeStatsSwitch, ChunkFields(cs))
  {
    hide GetRangeStatsSwitch, Body;
    if cs != [] {
      var f := ChunkField(cs[0]);
      forall m, rest ensures LocalAt(GetRangeStatsSwitch, f, m, rest) {
        ChunkIsLocal(m, cs[0], rest);
        ChunkIsLocal(m, cs[0], []);
        assert Body(f) + [] == Body(f);
      }
      ChunksAreLocal(cs[1..]);
      assert ChunkFields(cs)[1..] == ChunkFields(cs[1..]);
    }
  }

  lemma ChunkFold(m: GetRangeStatsRequest, c: Chunk)
    requires c.Packed? ==> |PackedBytes(c.ids)| < TWO63
    ensures Fold(GetRangeStatsSwitch, m, [ChunkField(c)]) == Ok(m.(rangeIDs := m.rangeIDs + ChunkIDs(c)))
  {
    hide GetRangeStatsSwitch, Body, ChunkField, WireType, PackedBytes, ChunkIDs;
    var f := ChunkField(c);
    ChunkIsLocal(m, c, []);
    assert Body(f) + [] == Body(f);
    FoldSingle(GetRangeStatsSwitch, m, f, m.(rangeIDs := m.rangeIDs + ChunkIDs(c)));
  }

  /** The identifiers of the chunks, one chunk at a time. */
  lemma FlattenStep(ids: seq<Int64>, cs: seq<Chunk>)
    requires cs != []
    ensures ids + ChunkIDs(cs[0]) + Flatten(cs[1..]) == ids + Flatten(cs)
  {
    hide ChunkIDs;
  }

  lemma {:induction false} ChunksFold(m: GetRangeStatsRequest, cs: seq<Chunk>)
    requires ChunksFit(cs)
    ensures Fold(GetRangeStatsSwitch, m, ChunkFields(cs)) == Ok(m.(rangeIDs := m.rangeIDs + Flatten(cs)))
    decreases |cs|
  {
    if cs == [] {
      assert m.rangeIDs + [] == m.rangeIDs;
    } else {
      assert ChunkFields(cs) == [ChunkField(cs[0])] + ChunkFields(cs[1..]);
      hide GetRangeStatsSwitch, ChunkField, PackedBytes, Fold, ChunkFields, Flatten, ChunkIDs;
      var m1 := m.(rangeIDs := m.rangeIDs + ChunkIDs(cs[0]));
      ChunkFold(m, cs[0]);
      FoldCat(GetRangeStatsSwitch, m, [ChunkField(cs[0])], m1, ChunkFields(cs[1..]));
      ChunksFold(m1, cs[1..]);
      FlattenStep(m.rangeIDs, cs);
    }
  }

  /** However a writer splits the list between packed and single fields, the reader
      appends the same identifiers in the same order. */
  lemma AnyPackingDecodesAlike(m: GetRangeStatsRequest, cs: seq<Chunk>)
    requires ChunksFit(cs)
    ensures Decode(GetRangeStatsSwitch, m, EncodeFields(ChunkFields(cs)))
         == Ok(m.(rangeIDs := m.rangeIDs + Flatten(cs)))
  {
    ChunksAreLocal(cs);
    ChunksFold(m, cs);
    DecodeIsFold(GetRangeStatsSwitch, m, ChunkFields(cs));
  }

  // ------------------------------------------------------------ the whole request

  predicate RequestFits(m: GetRangeStatsRequest) {
    && (m.header.txn.Some? ==> Fits(TransactionFields(m.header.txn.value)))
    && Fits(RequestHeaderFields(m.header))
    && |PackedBytes(m.rangeIDs)| < TWO63
  }

  function IDFields(ids: seq<Int64>): (fs: seq<Field>)
    requires |PackedBytes(ids)| < TWO63
    ensures AllWellFormed(fs)
  {
    if ids == [] then [] else [BytesField(2, PackedBytes(ids))]
  }

  function GetRangeStatsFields(m: GetRangeStatsRequest): (fs: seq<Field>)
    requires RequestFits(m)
    ensures AllWellFormed(fs)
  {
    Cat(Embedded(1, EncodeFields(RequestHeaderFields(m.header))), IDFields(m.rangeIDs))
  }

  lemma GetRangeStatsRoundTrip(m: GetRangeStatsRequest)
    requires RequestFits(m)
    ensures RoundTrips(GetRangeStatsSwitch, ZERO_GET_RANGE_STATS, m, GetRangeStatsFields(m))
  {
    var sw := GetRangeStatsSwitch;
    var m1 := ZERO_GET_RANGE_STATS.(header := m.header);
    var cs := if m.rangeIDs == [] then [] else [Packed(m.rangeIDs)];
    var head := Embedded(1, EncodeFields(RequestHeaderFields(m.header)));
    HeaderField(m.header);
    assert ChunkFields(cs) == IDFields(m.rangeIDs);
    ChunksAreLocal(cs);
    ChunksFold(m1, cs);
    assert [] + Flatten(cs) == m.rangeIDs;
    FoldCat(sw, ZERO_GET_RANGE_STATS, head, m1, ChunkFields(cs));
    var fs := GetRangeStatsFields(m);
    assert fs[0] == head[0] && fs[1..] == ChunkFields(cs);
    DecodeIsFold(sw, ZERO_GET_RANGE_STATS, fs);
  }

  lemma HeaderField(h: RequestHeader)
    requires h.txn.Some? ==> Fits(TransactionFields(h.txn.value))
    requires Fits(RequestHeaderFields(h))
    ensures var b := EncodeFields(RequestHeaderFields(h));
            && Local(GetRangeStatsSwitch, BytesField(1, b))
            && Fold(GetRangeStatsSwitch, ZERO_GET_RANGE_STATS, Embedded(1, b)) == Ok(ZERO_GET_RANGE_STATS.(header := h))
  {
    hide ReadVarintFrom, VarintBytes, RequestHeaderFields, EncodeFields, Decode;
    var b := EncodeFields(RequestHeaderFields(h));
    var f := BytesField(1, b);
    forall m, rest ensures LocalAt(GetRangeStatsSwitch, f, m, rest) { ReadersAgree(f, rest); }
    ReadsBackBytes(b);
    RequestHeaderRoundTrip(h);
    FoldBytes(GetRangeStatsSwitch, ZERO_GET_RANGE_STATS, 1, b, ZERO_GET_RANGE_STATS.(header := h));
  }

  // ------------------------------------------------------------ the scratch buffer

  /** Ten bytes an element are always enough. */
  lemma {:induction false} PackedSize(ids: seq<Int64>)
    ensures |PackedBytes(ids)| <= 10 * |ids|
  {
    if ids != [] {
      VarintWidth(ToUInt64(ids[0]));
      PackedSize(ids[1..]);
    }
  }
}
