/** The fixed-width integer codec of the protocol buffer: `Buffer.pack(fmt, v)`,
    `Buffer.unpack(fmt)` and `Buffer.read(n)` for the struct formats b, h, H, i and q,
    big-endian as `struct.pack(">" + fmt, v)` writes them. The Buffer class itself
    (pymine/types/buffer.py) is not part of this model; what is modelled here is the
    behaviour its callers rely on: a cursor over immutable bytes that fails with an
    underflow rather than reading past the end. */
module WireBuffer {
  import opened Python

  /** struct formats: b (signed byte), h (signed short), H (unsigned short),
      i (signed int), q (signed long long). */
  datatype Format = SByte | Short | UShort | Int | Long

  function Width(f: Format): (w: nat)
    ensures 1 <= w <= 8
  {
    match f
    case SByte => 1
    case Short => 2
    case UShort => 2
    case Int => 4
    case Long => 8
  }

  /** 256 to the power w: the number of distinct w-byte patterns. */
  function Pow256(w: nat): (r: nat)
    ensures r >= 1
  {
    if w == 0 then 1 else 256 * Pow256(w - 1)
  }

  function MinValue(f: Format): int
  {
    if f == UShort then 0 else -(Pow256(Width(f)) / 2)
  }

  function MaxValue(f: Format): int
  {
    if f == UShort then Pow256(Width(f)) - 1 else Pow256(Width(f)) / 2 - 1
  }

  /** struct.pack raises struct.error for a value outside the format's range. */
  predicate Fits(f: Format, v: int) { MinValue(f) <= v <= MaxValue(f) }

  lemma FormatRanges()
    ensures MinValue(SByte) == -128 && MaxValue(SByte) == 127
    ensures MinValue(Short) == -32768 && MaxValue(Short) == 32767
    ensures MinValue(UShort) == 0 && MaxValue(UShort) == 65535
    ensures MinValue(Int) == -0x8000_0000 && MaxValue(Int) == 0x7FFF_FFFF
    ensures MinValue(Long) == -0x8000_0000_0000_0000 && MaxValue(Long) == 0x7FFF_FFFF_FFFF_FFFF
  {
    assert Pow256(2) == 0x1_0000;
    assert Pow256(4) == 0x1_0000_0000;
    assert Pow256(8) == 0x1_0000_0000_0000_0000;
  }

  /** The w-byte big-endian representation of x. */
  function ToBigEndian(x: nat, w: nat): (r: seq<Byte>)
    requires x < Pow256(w)
    ensures |r| == w
  {
    if w == 0 then [] else ToBigEndian(x / 256, w - 1) + [x % 256]
  }

  function FromBigEndian(bs: seq<Byte>): (x: nat)
    ensures x < Pow256(|bs|)
  {
    if bs == [] then 0 else FromBigEndian(bs[..|bs| - 1]) * 256 + bs[|bs| - 1]
  }

  lemma {:induction false} BigEndianRoundTrip(x: nat, w: nat)
    requires x < Pow256(w)
    ensures FromBigEndian(ToBigEndian(x, w)) == x
  {
    if w > 0 {
      var bs := ToBigEndian(x, w);
      assert bs[..|bs| - 1] == ToBigEndian(x / 256, w - 1);
      BigEndianRoundTrip(x / 256, w - 1);
    }
  }

  lemma {:induction false} BigEndianOfBytes(bs: seq<Byte>)
    ensures ToBigEndian(FromBigEndian(bs), |bs|) == bs
  {
    if bs != [] {
      var init := bs[..|bs| - 1];
      var x := FromBigEndian(bs);
      assert x / 256 == FromBigEndian(init) && x % 256 == bs[|bs| - 1];
      BigEndianOfBytes(init);
      assert bs == init + [bs[|bs| - 1]];
    }
  }

  /** Two's complement: the unsigned pattern that stores v in the format's width. */
  function Unsigned(f: Format, v: int): (u: nat)
    requires Fits(f, v)
    ensures u < Pow256(Width(f))
  {
    if v < 0 then v + Pow256(Width(f)) else v
  }

  function Reinterpret(f: Format, u: nat): (v: int)
    requires u < Pow256(Width(f))
    ensures Fits(f, v)
  {
    if f != UShort && u >= Pow256(Width(f)) / 2 then u - Pow256(Width(f)) else u
  }

  /** `Buffer.pack(fmt, v)`. */
  function Pack(f: Format, v: int): (r: Result<seq<Byte>>)
    ensures r.Ok? <==> Fits(f, v)
    ensures r.Ok? ==> |r.value| == Width(f)
  {
    if Fits(f, v) then Ok(ToBigEndian(Unsigned(f, v), Width(f))) else Err(StructError)
  }

  /** The value that `struct.unpack(">" + fmt, bs)` returns for exactly Width(f) bytes. */
  function Decode(f: Format, bs: seq<Byte>): (v: int)
    requires |bs| == Width(f)
    ensures Fits(f, v)
  {
    Reinterpret(f, FromBigEndian(bs))
  }

  /** Unpacking what was packed gives the value back. */
  lemma PackDecode(f: Format, v: int)
    requires Fits(f, v)
    ensures Pack(f, v).Ok? && Decode(f, Pack(f, v).value) == v
  {
    BigEndianRoundTrip(Unsigned(f, v), Width(f));
  }

  /** Packing what was unpacked gives the bytes back: the codec is a bijection between
      the format's range and its byte patterns. */
  lemma DecodePack(f: Format, bs: seq<Byte>)
    requires |bs| == Width(f)
    ensures Pack(f, Decode(f, bs)) == Ok(bs)
  {
    BigEndianOfBytes(bs);
  }

  // ---------------------------------------------------------------------------
  // Reading from a cursor

  /** `buf.read(n)` from position pos: the next n bytes and the new position. */
  function ReadAt(data: seq<Byte>, pos: nat, n: int): (r: Result<(seq<Byte>, nat)>)
    requires pos <= |data|
    ensures r.Ok? <==> 0 <= n && pos + n <= |data|
    ensures r.Ok? ==> r.value.0 == data[pos..pos + n] && r.value.1 == pos + n
  {
    if n < 0 || pos + n > |data| then Err(Underflow) else Ok((data[pos..pos + n], pos + n))
  }

  /** `buf.unpack(fmt)` from position pos. */
  function UnpackAt(f: Format, data: seq<Byte>, pos: nat): (r: Result<(int, nat)>)
    requires pos <= |data|
    ensures r.Ok? <==> pos + Width(f) <= |data|
    ensures r.Ok? ==> Fits(f, r.value.0) && r.value.1 == pos + Width(f) <= |data|
  {
    if pos + Width(f) > |data| then Err(Underflow)
    else Ok((Decode(f, data[pos..pos + Width(f)]), pos + Width(f)))
  }

  /** The bytes e sit in data at position pos. */
  predicate Placed(data: seq<Byte>, pos: nat, e: seq<Byte>)
  {
    pos + |e| <= |data| && data[pos..pos + |e|] == e
  }

  /** Two concatenated byte strings sit one after the other. */
  lemma PlacedSplit(data: seq<Byte>, pos: nat, a: seq<Byte>, b: seq<Byte>)
    requires Placed(data, pos, a + b)
    ensures Placed(data, pos, a) && Placed(data, pos + |a|, b)
  {
    forall i | 0 <= i < |a| ensures data[pos..pos + |a|][i] == a[i] {
      assert data[pos + i] == data[pos..pos + |a| + |b|][i] == (a + b)[i];
    }
    forall i | 0 <= i < |b| ensures data[pos + |a|..pos + |a| + |b|][i] == b[i] {
      assert data[pos + |a| + i] == data[pos..pos + |a| + |b|][|a| + i] == (a + b)[|a| + i];
    }
  }

  /** A packed value reads back from wherever it sits in the data. */
  lemma UnpackPacked(f: Format, v: int, data: seq<Byte>, pos: nat)
    requires Fits(f, v)
    requires Placed(data, pos, Pack(f, v).value)
    ensures UnpackAt(f, data, pos) == Ok((v, pos + Width(f)))
  {
    PackDecode(f, v);
  }

  /** A step-by-step reader agrees with the pure parser `spec`: it returns the value the
      parser returns and leaves the cursor where the parser stops, or fails with the
      parser's error. */
  predicate Follows<T(==)>(r: Result<T>, spec: Result<(T, nat)>, pos: nat)
  {
    match spec
    case Ok((v, p)) => r == Ok(v) && pos == p
    case Err(e) => r == Err(e)
  }

  /** A Python-side byte cursor: `data` never changes, `pos` advances as fields are read. */
  class Buffer {
    const data: seq<Byte>
    var pos: nat

    ghost predicate Valid()
      reads this
    {
      pos <= |data|
    }

    constructor (bytes: seq<Byte>)
      ensures Valid() && data == bytes && pos == 0
    {
      data := bytes;
      pos := 0;
    }

    /** `buf.read(n)`. */
    method Read(n: int) returns (r: Result<seq<Byte>>)
      requires Valid()
      modifies this
      ensures Valid()
      ensures match ReadAt(data, old(pos), n)
              case Ok((bs, p)) => r == Ok(bs) && pos == p
              case Err(e) => r == Err(e) && pos == old(pos)
    {
      if n < 0 || pos + n > |data| {
        return Err(Underflow);
      }
      r := Ok(data[pos..pos + n]);
      pos := pos + n;
    }

    /** `buf.unpack(fmt)`. */
    method Unpack(f: Format) returns (r: Result<int>)
      requires Valid()
      modifies this
      ensures Valid()
      ensures match UnpackAt(f, data, old(pos))
              case Ok((v, p)) => r == Ok(v) && pos == p
              case Err(e) => r == Err(e) && pos == old(pos)
    {
      if pos + Width(f) > |data| {
        return Err(Underflow);
      }
      r := Ok(Decode(f, data[pos..pos + Width(f)]));
      pos := pos + Width(f);
    }
  }
}
