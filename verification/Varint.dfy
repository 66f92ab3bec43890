/** Base 128 varints and the machine integers they carry.
    Bytes and words are integers with explicit bounds: masking out seven bits is a remainder,
    setting the eighth adds 128, shifting by seven divides by 128, and putting a fresh group
    of seven bits in is an addition, truncated to the width of the variable it is stored in. */
module Varint {
  import opened Wrappers

  type Byte = b: int | 0 <= b < 256

  const TWO31 := 0x8000_0000
  const TWO32 := 0x1_0000_0000
  const TWO63 := 0x8000_0000_0000_0000
  const TWO64 := 0x1_0000_0000_0000_0000

  type UInt32 = v: int | 0 <= v < TWO32
  type UInt64 = v: int | 0 <= v < TWO64
  type Int32 = v: int | -TWO31 <= v < TWO31
  type Int64 = v: int | -TWO63 <= v < TWO63

  datatype WireError =
    | IntOverflow | UnexpectedEOF | InvalidLength
    | EndGroup | IllegalTag | WrongWireType | IllegalWireType

  type WireResult<T> = Result<T, WireError>

  // ------------------------------------------------------------ conversions

  /** Go's `uint64(x)` of a signed value: two's complement, sign extended. */
  function ToUInt64(x: Int64): UInt64 {
    if x >= 0 then x else x + TWO64
  }

  /** Truncation of an accumulated value to 64 bits, read as signed. */
  function ToInt64(v: nat): Int64 {
    var w := v % TWO64;
    if w < TWO63 then w else w - TWO64
  }

  /** Truncation of an accumulated value to 32 bits, read as signed. */
  function ToInt32(v: nat): Int32 {
    var w := v % TWO32;
    if w < TWO31 then w else w - TWO32
  }

  function ToUInt32(v: nat): UInt32 {
    v % TWO32
  }

  // ------------------------------------------------------------ the encoding

  function Pow128(k: nat): (p: nat)
    ensures p >= 1
  {
    if k == 0 then 1 else 128 * Pow128(k - 1)
  }

  /** The bytes of a varint: low 7-bit group first, high bit set on all but the last. */
  function VarintBytes(v: nat): (b: seq<Byte>)
    ensures |b| >= 1
  {
    if v < 128 then [v] else [v % 128 + 128] + VarintBytes(v / 128)
  }

  /** The reading loop with `k` bytes of `d` consumed: the value of the remaining
      groups and the index after the last one. The value is untruncated; the variable
      it is collected in decides the width. */
  function ReadVarintFrom(d: seq<Byte>, k: nat): (r: WireResult<(nat, nat)>)
    ensures r.Ok? ==> k < r.value.1 <= |d|
    decreases 10 - k
  {
    if k >= 10 then Err(IntOverflow)
    else if k >= |d| then Err(UnexpectedEOF)
    else if d[k] < 128 then Ok((d[k], k + 1))
    else match ReadVarintFrom(d, k + 1)
      case Err(e) => Err(e)
      case Ok((high, next)) => Ok((d[k] - 128 + 128 * high, next))
  }

  function ReadVarint(d: seq<Byte>): (r: WireResult<(nat, nat)>)
    ensures r.Ok? ==> 0 < r.value.1 <= |d|
  {
    ReadVarintFrom(d, 0)
  }

  /** Reading undoes writing, whatever precedes and follows the varint. */
  lemma {:induction false} ReadWrittenFrom(pre: seq<Byte>, v: nat, rest: seq<Byte>)
    requires |pre| < 10 && v < Pow128(10 - |pre|)
    ensures ReadVarintFrom(pre + VarintBytes(v) + rest, |pre|) == Ok((v, |pre| + |VarintBytes(v)|))
    decreases v
  {
    var d := pre + VarintBytes(v) + rest;
    var k := |pre|;
    if v < 128 {
      assert d[k] == v;
    } else {
      var b: Byte := v % 128 + 128;
      assert d == (pre + [b]) + VarintBytes(v / 128) + rest;
      assert d[k] == b;
      assert Pow128(10 - k) == 128 * Pow128(9 - k);
      assert k != 9 by { assert Pow128(1) == 128; }
      ReadWrittenFrom(pre + [b], v / 128, rest);
    }
  }

  lemma Pow128Ten()
    ensures Pow128(10) > TWO64 && Pow128(9) == TWO63
  {
    assert Pow128(2) == 16384;
    assert Pow128(4) == 268435456;
    assert Pow128(6) == 4398046511104;
    assert Pow128(8) == 72057594037927936;
    assert Pow128(9) == 128 * Pow128(8);
    assert Pow128(10) == 128 * Pow128(9);
  }

  lemma ReadWritten(v: UInt64, rest: seq<Byte>)
    ensures ReadVarint(VarintBytes(v) + rest) == Ok((v, |VarintBytes(v)|))
  {
    Pow128Ten();
    ReadWrittenFrom([], v, rest);
    assert [] + VarintBytes(v) + rest == VarintBytes(v) + rest;
  }

  // ------------------------------------------------------------ sizes

  /** A varint takes the fewest groups of seven bits that hold the value. */
  lemma {:induction false} VarintLength(v: nat, n: nat)
    requires n >= 1
    ensures |VarintBytes(v)| <= n <==> v < Pow128(n)
    decreases v
  {
    assert Pow128(n) == 128 * Pow128(n - 1);
    if v < 128 {
    } else if n == 1 {
      assert Pow128(1) == 128;
    } else {
      VarintLength(v / 128, n - 1);
    }
  }

  /** Every 64-bit value fits ten bytes, and every negative one needs all ten. */
  lemma VarintWidth(v: UInt64)
    ensures 1 <= |VarintBytes(v)| <= 10
    ensures v >= TWO63 <==> |VarintBytes(v)| == 10
  {
    Pow128Ten();
    VarintLength(v, 10);
    VarintLength(v, 9);
  }

  lemma SignRoundTrip(x: Int64)
    ensures ToInt64(ToUInt64(x)) == x
    ensures -TWO31 <= x < TWO31 ==> ToInt32(ToUInt64(x)) == x
    ensures 0 <= x < TWO32 ==> ToUInt32(ToUInt64(x)) == x
  {
  }

  // ------------------------------------------------------------ the loops

  /** sovData: the number of bytes a varint takes. */
  method Sov(x: UInt64) returns (n: nat)
    ensures n == |VarintBytes(x)|
  {
    n := 0;
    var v := x;
    while true
      invariant v >= 0
      invariant n + |VarintBytes(v)| == |VarintBytes(x)|
      decreases v
    {
      n := n + 1;
      if v / 128 == 0 { break; }
      v := v / 128;
    }
  }

  /** A stretch of a buffer to be filled: `all` is to go to `start`, over the
      contents `orig`. */
  datatype Fill = Fill(orig: seq<Byte>, start: nat, all: seq<Byte>)

  /** The fill has reached index `i`, and `todo` is what is still to be written. */
  ghost predicate Plan(buf: array<Byte>, g: Fill, i: nat, todo: seq<Byte>)
    reads buf
  {
    && |g.orig| == buf.Length && g.start + |g.all| <= buf.Length
    && |todo| <= |g.all| && i == g.start + |g.all| - |todo|
    && g.all[|g.all| - |todo|..] == todo
    && buf[..g.start] == g.orig[..g.start]
    && buf[g.start..i] == g.all[..|g.all| - |todo|]
    && buf[i..] == g.orig[i..]
  }

  method PutByte(buf: array<Byte>, i: nat, b: Byte, ghost g: Fill, ghost rest: seq<Byte>)
    requires Plan(buf, g, i, [b] + rest)
    modifies buf
    ensures Plan(buf, g, i + 1, rest)
  {
    ghost var before := buf[..];
    ghost var k := |g.all| - |rest|;
    assert g.all[k..] == g.all[k - 1..][1..] == rest;
    assert g.all[..k] == g.all[..k - 1] + [b] by { assert g.all[k - 1] == g.all[k - 1..][0]; }
    buf[i] := b;
    assert buf[..g.start] == before[..g.start];
    assert buf[g.start..i + 1] == before[g.start..i] + [b];
    assert buf[i + 1..] == before[i..][1..] == g.orig[i..][1..];
  }

  lemma VarintUnfold(w: nat)
    ensures VarintBytes(w) == if w < 128 then [w] else [w % 128 + 128] + VarintBytes(w / 128)
  {
  }

  /** encodeVarintData */
  method EncodeVarint(buf: array<Byte>, offset: nat, v: UInt64, ghost g: Fill, ghost rest: seq<Byte>)
    returns (next: nat)
    requires Plan(buf, g, offset, VarintBytes(v) + rest)
    modifies buf
    ensures Plan(buf, g, next, rest)
    ensures next == offset + |VarintBytes(v)|
  {
    hide Plan, VarintBytes;
    next := offset;
    var w := v;
    while w >= 128
      invariant w >= 0 && Plan(buf, g, next, VarintBytes(w) + rest)
      invariant next + |VarintBytes(w)| == offset + |VarintBytes(v)|
      decreases w
    {
      VarintUnfold(w);
      var b: Byte := w % 128 + 128;
      assert [b] + (VarintBytes(w / 128) + rest) == VarintBytes(w) + rest;
      PutByte(buf, next, b, g, VarintBytes(w / 128) + rest);
      w := w / 128;
      next := next + 1;
    }
    VarintUnfold(w);
    PutByte(buf, next, w, g, rest);
    next := next + 1;
  }

  /** The copy of a byte slice into the buffer. */
  method CopyBytes(buf: array<Byte>, i: nat, b: seq<Byte>, ghost g: Fill, ghost rest: seq<Byte>)
    returns (next: nat)
    requires Plan(buf, g, i, b + rest)
    modifies buf
    ensures Plan(buf, g, next, rest)
  {
    hide Plan;
    next := i;
    assert b[0..] == b;
    for k := 0 to |b|
      invariant next == i + k && Plan(buf, g, next, b[k..] + rest)
    {
      assert [b[k]] + (b[k + 1..] + rest) == b[k..] + rest;
      PutByte(buf, next, b[k], g, b[k + 1..] + rest);
      next := next + 1;
    }
    assert b[|b|..] + rest == rest;
  }

  /** The reading loop with the value collected so far: `unit` is the weight of the
      next group. */
  ghost function Collect(d: seq<Byte>, k: nat, full: nat, unit: nat): WireResult<(nat, nat)>
    decreases 10 - k
  {
    if k >= 10 then Err(IntOverflow)
    else if k >= |d| then Err(UnexpectedEOF)
    else
      var full' := full + Weigh(d[k], unit);
      if d[k] < 128 then Ok((full', k + 1)) else Collect(d, k + 1, full', unit * 128)
  }

  function Weigh(b: Byte, unit: nat): nat {
    b % 128 * unit
  }

  lemma WeighGroup(b: Byte, unit: nat, high: nat)
    requires b >= 128
    ensures Weigh(b, unit) + unit * 128 * high == unit * (b - 128 + 128 * high)
  {
    var g := b - 128;
    assert b % 128 == g;
    assert unit * (g + 128 * high) == unit * g + unit * (128 * high);
    assert unit * (128 * high) == unit * 128 * high;
  }

  lemma {:induction false} CollectReads(d: seq<Byte>, k: nat, full: nat, unit: nat)
    ensures Collect(d, k, full, unit)
         == match ReadVarintFrom(d, k) case Err(e) => Err(e) case Ok((v, n)) => Ok((full + unit * v, n))
    decreases 10 - k
  {
    if k < 10 && k < |d| {
      if d[k] < 128 {
        assert Weigh(d[k], unit) == unit * d[k];
      } else {
        hide Weigh;
        CollectReads(d, k + 1, full + Weigh(d[k], unit), unit * 128);
        var r := ReadVarintFrom(d, k + 1);
        if r.Ok? { WeighGroup(d[k], unit, r.value.0); }
      }
    }
  }

  lemma CollectAll(d: seq<Byte>)
    ensures Collect(d, 0, 0, 1) == ReadVarint(d)
  {
    CollectReads(d, 0, 0, 1);
  }

  lemma CollectUnfold(d: seq<Byte>, k: nat, full: nat, unit: nat)
    ensures Collect(d, k, full, unit) ==
            if k >= 10 then Err(IntOverflow)
            else if k >= |d| then Err(UnexpectedEOF)
            else if d[k] < 128 then Ok((full + Weigh(d[k], unit), k + 1))
            else Collect(d, k + 1, full + Weigh(d[k], unit), unit * 128)
  {
  }

  /** The width of the variable a varint is collected in. */
  datatype Width = Bits32 | Bits64

  function Truncate(w: Width, v: nat): nat {
    if w.Bits32? then v % TWO32 else v % TWO64
  }

  lemma TruncateSum(w: Width, full: nat, g: nat)
    ensures Truncate(w, Truncate(w, full) + g) == Truncate(w, full + g)
  {
  }

  /** The loop inlined at every field: each group is added to a variable of the given
      width, so the value is truncated at every step. */
  method DecodeVarint(d: seq<Byte>, start: nat, width: Width) returns (r: WireResult<(nat, nat)>)
    requires start <= |d|
    ensures r == match ReadVarint(d[start..])
                 case Err(e) => Err(e)
                 case Ok((v, used)) => Ok((Truncate(width, v), start + used))
  {
    hide ReadVarint, ReadVarintFrom, Weigh, Truncate, Collect;
    var acc, k, unit := Truncate(width, 0), 0, 1;
    ghost var t := d[start..];
    ghost var full: nat := 0;
    CollectAll(t);
    while true
      invariant 0 <= k <= 10 && start + k <= |d| && unit >= 1
      invariant acc == Truncate(width, full)
      invariant ReadVarint(t) == Collect(t, k, full, unit)
      decreases 10 - k
    {
      CollectUnfold(t, k, full, unit);
      if k >= 10 { return Err(IntOverflow); }
      if start + k >= |d| { return Err(UnexpectedEOF); }
      var b := d[start + k];
      assert t[k] == b;
      var g := Weigh(b, unit);
      TruncateSum(width, full, g);
      acc := Truncate(width, acc + g);
      full := full + g;
      k := k + 1;
      if b < 128 { return Ok((acc, start + k)); }
      unit := unit * 128;
    }
  }
}
