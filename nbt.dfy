/** Named Binary Tag values and their byte layout (pymine/types/nbt.py).

    Every tag class has an `encode` and a `from_buf`; the pairs are not uniform:
    TAG_End is the single byte 0; TAG_Byte writes its meta (type id and name) before
    its value; the other classes write their value alone. TAG_List writes the type
    id of its first element, a 4-byte count and its elements' own encodings, and
    reads them back through the class that TYPES selects for the id it read.

    The model follows the intended read order, not the crashes of the Python text:
    TAG_List gets id 9 (its index in TYPES), `from_buf` passes no name (None) except
    for TAG_Byte, which reads it through `meta_from_buf`, and TAG_End's check compares
    the byte it reads with 0.

    Each class has its own encoder and its own decoder here, as in the source; `Encode`
    and `ParseTag` only dispatch on the class. */
module Nbt {
  import opened Python
  import opened Unicode
  import opened WireBuffer

  type U32 = x: nat | x < 0x1_0000_0000
  type U64 = x: nat | x < 0x1_0000_0000_0000_0000

  type Name = Option<string>

  /** A tag of one of the ten classes of nbt.py. Float and Double carry their IEEE-754
      bit pattern; floating-point values are not interpreted. */
  datatype Tag =
    | TagEnd
    | TagByte(name: Name, value: int)
    | TagShort(name: Name, value: int)
    | TagInt(name: Name, value: int)
    | TagLong(name: Name, value: int)
    | TagFloat(name: Name, floatBits: U32)
    | TagDouble(name: Name, doubleBits: U64)
    | TagByteArray(name: Name, bytes: seq<Byte>)
    | TagString(name: Name, text: string)
    | TagList(name: Name, items: seq<Tag>)

  /** The classes of TYPES (nbt.py:7), in order: a type id read from the wire selects
      one by Python indexing. */
  datatype Kind = KEnd | KByte | KShort | KInt | KLong | KFloat | KDouble | KByteArray | KString | KList

  const TYPES: seq<Kind> := [KEnd, KByte, KShort, KInt, KLong, KFloat, KDouble, KByteArray, KString, KList]

  /** The class attribute `id`. */
  function TypeId(t: Tag): int
  {
    match t
    case TagEnd => 0
    case TagByte(_, _) => 1
    case TagShort(_, _) => 2
    case TagInt(_, _) => 3
    case TagLong(_, _) => 4
    case TagFloat(_, _) => 5
    case TagDouble(_, _) => 6
    case TagByteArray(_, _) => 7
    case TagString(_, _) => 8
    case TagList(_, _) => 9
  }

  /** The class that reads a tag back: the entry of TYPES at the tag's type id. */
  function KindOf(t: Tag): (k: Kind)
    ensures 0 <= TypeId(t) < |TYPES| && TYPES[TypeId(t)] == k
  {
    match t
    case TagEnd => KEnd
    case TagByte(_, _) => KByte
    case TagShort(_, _) => KShort
    case TagInt(_, _) => KInt
    case TagLong(_, _) => KLong
    case TagFloat(_, _) => KFloat
    case TagDouble(_, _) => KDouble
    case TagByteArray(_, _) => KByteArray
    case TagString(_, _) => KString
    case TagList(_, _) => KList
  }

  lemma Pow256Values()
    ensures Pow256(4) == 0x1_0000_0000 && Pow256(8) == 0x1_0000_0000_0000_0000
  {
  }

  // ---------------------------------------------------------------------------
  // Encoding, one function per class

  /** `TAG.encode_meta`: signed-byte type id, unsigned 2-byte length of the modified
      UTF-8 name, the name bytes. A tag without a name (None) cannot be encoded. */
  function EncodeMeta(id: int, name: Name): Result<seq<Byte>>
  {
    match name
    case None => Err(TypeError)
    case Some(s) =>
      var m := MUtf8Encode(s);
      var idBytes :- Pack(SByte, id);
      var lenBytes :- Pack(UShort, |m|);
      Ok(idBytes + lenBytes + m)
  }

  /** `Buffer.pack_array("b", values)`: one signed byte per value. */
  function PackSignedBytes(vs: seq<int>): (r: Result<seq<Byte>>)
    ensures r.Ok? ==> |r.value| == |vs|
  {
    if vs == [] then Ok([])
    else
      var head :- Pack(SByte, vs[0]);
      var tail :- PackSignedBytes(vs[1..]);
      Ok(head + tail)
  }

  /** TAG_Byte.encode: the meta, then the value as one signed byte. */
  function EncodeByte(name: Name, v: int): Result<seq<Byte>>
  {
    var meta :- EncodeMeta(1, name);
    var value :- Pack(SByte, v);
    Ok(meta + value)
  }

  /** TAG_Double.encode: the eight big-endian bytes of the IEEE-754 pattern. */
  function EncodeDouble(bits: U64): (r: seq<Byte>)
    ensures |r| == 8
  {
    Pow256Values();
    ToBigEndian(bits, 8)
  }

  /** TAG_Byte_Array.encode: a signed 4-byte count, then the bytes as signed bytes. */
  function EncodeByteArray(bs: seq<Byte>): Result<seq<Byte>>
  {
    var count :- Pack(Int, |bs|);
    var body :- PackSignedBytes(bs);
    Ok(count + body)
  }

  /** TAG_String.encode: a signed 2-byte count of UTF-8 bytes, then those bytes. */
  function EncodeString(s: string): Result<seq<Byte>>
  {
    var utf8 := Utf8Encode(s);
    var len :- Pack(Short, |utf8|);
    Ok(len + utf8)
  }

  /** The `encode` method of the tag's class. */
  function Encode(t: Tag): Result<seq<Byte>>
    decreases t, 0
  {
    match t
    case TagEnd => Ok([0])
    case TagByte(name, v) => EncodeByte(name, v)
    case TagShort(_, v) => Pack(Short, v)
    case TagInt(_, v) => Pack(Int, v)
    case TagLong(_, v) => Pack(Long, v)
    case TagFloat(_, _) => Err(NotImplemented)
    case TagDouble(_, bits) => Ok(EncodeDouble(bits))
    case TagByteArray(_, bs) => EncodeByteArray(bs)
    case TagString(_, s) => EncodeString(s)
    case TagList(_, items) => EncodeList(items)
  }

  /** TAG_List.encode: the first element's type id, a signed 4-byte count, then the
      elements' encodings; `value[0]` of an empty list is an IndexError. */
  function EncodeList(items: seq<Tag>): Result<seq<Byte>>
    decreases items, 2
  {
    if items == [] then Err(IndexError)
    else
      var id :- Pack(SByte, TypeId(items[0]));
      var count :- Pack(Int, |items|);
      var body :- EncodeAll(items);
      Ok(id + count + body)
  }

  /** `b"".join([value.encode() for value in items])`. */
  function EncodeAll(items: seq<Tag>): Result<seq<Byte>>
    decreases items, 1
  {
    if items == [] then Ok([])
    else
      var head :- Encode(items[0]);
      var tail :- EncodeAll(items[1..]);
      Ok(head + tail)
  }

  // ---------------------------------------------------------------------------
  // Decoding, as pure functions of the bytes and the cursor position

  /** `TAG.meta_from_buf`: the type id, then the name. */
  function ParseMeta(data: seq<Byte>, pos: nat): (r: Result<((int, string), nat)>)
    requires pos <= |data|
    ensures r.Ok? ==> pos + 3 <= r.value.1 <= |data|
  {
    var id :- UnpackAt(SByte, data, pos);
    var len :- UnpackAt(UShort, data, id.1);
    var raw :- ReadAt(data, len.1, len.0);
    match MUtf8Decode(raw.0)
    case None => Err(DecodeError)
    case Some(name) => Ok(((id.0, name), raw.1))
  }

  /** `Buffer.unpack_array("b", n)`: n signed bytes; a count of zero or less reads
      nothing. */
  function UnpackSignedBytes(data: seq<Byte>, pos: nat, n: int): (r: Result<(seq<int>, nat)>)
    requires pos <= |data|
    ensures r.Ok? ==> pos <= r.value.1 <= |data|
    ensures r.Ok? ==> |r.value.0| == (if n <= 0 then 0 else n)
    decreases if n <= 0 then 0 else n
  {
    if n <= 0 then Ok(([], pos))
    else
      var head :- UnpackAt(SByte, data, pos);
      var tail :- UnpackSignedBytes(data, head.1, n - 1);
      Ok(([head.0] + tail.0, tail.1))
  }

  /** TAG_End.from_buf: one byte, which must be 0. */
  function ParseEnd(data: seq<Byte>, pos: nat): (r: Result<(Tag, nat)>)
    requires pos <= |data|
    ensures r.Ok? ==> pos < r.value.1 <= |data|
  {
    var b :- UnpackAt(SByte, data, pos);
    if b.0 != 0 then Err(AssertionError) else Ok((TagEnd, b.1))
  }

  /** TAG_Byte.from_buf: the meta (its name is kept), then `value_from_buf`, one signed
      byte. */
  function ParseByte(data: seq<Byte>, pos: nat): (r: Result<(Tag, nat)>)
    requires pos <= |data|
    ensures r.Ok? ==> pos < r.value.1 <= |data|
  {
    var meta :- ParseMeta(data, pos);
    var v :- UnpackAt(SByte, data, meta.1);
    Ok((TagByte(Some(meta.0.1), v.0), v.1))
  }

  /** TAG_Short.from_buf / TAG_Int.from_buf / TAG_Long.from_buf: the value alone. */
  function ParseShort(data: seq<Byte>, pos: nat): (r: Result<(Tag, nat)>)
    requires pos <= |data|
    ensures r.Ok? ==> pos < r.value.1 <= |data|
  {
    var v :- UnpackAt(Short, data, pos);
    Ok((TagShort(None, v.0), v.1))
  }

  function ParseInt(data: seq<Byte>, pos: nat): (r: Result<(Tag, nat)>)
    requires pos <= |data|
    ensures r.Ok? ==> pos < r.value.1 <= |data|
  {
    var v :- UnpackAt(Int, data, pos);
    Ok((TagInt(None, v.0), v.1))
  }

  function ParseLong(data: seq<Byte>, pos: nat): (r: Result<(Tag, nat)>)
    requires pos <= |data|
    ensures r.Ok? ==> pos < r.value.1 <= |data|
  {
    var v :- UnpackAt(Long, data, pos);
    Ok((TagLong(None, v.0), v.1))
  }

  /** TAG_Float.from_buf / TAG_Double.from_buf: 4 or 8 bytes, kept as a bit pattern. */
  function ParseFloat(data: seq<Byte>, pos: nat): (r: Result<(Tag, nat)>)
    requires pos <= |data|
    ensures r.Ok? ==> pos < r.value.1 <= |data|
  {
    var raw :- ReadAt(data, pos, 4);
    Pow256Values();
    Ok((TagFloat(None, FromBigEndian(raw.0)), raw.1))
  }

  function ParseDouble(data: seq<Byte>, pos: nat): (r: Result<(Tag, nat)>)
    requires pos <= |data|
    ensures r.Ok? ==> pos < r.value.1 <= |data|
  {
    var raw :- ReadAt(data, pos, 8);
    Pow256Values();
    Ok((TagDouble(None, FromBigEndian(raw.0)), raw.1))
  }

  /** TAG_Byte_Array.from_buf: a signed 4-byte count, then that many signed bytes;
      bytearray() refuses the negative values a signed unpack yields. */
  function ParseByteArray(data: seq<Byte>, pos: nat): (r: Result<(Tag, nat)>)
    requires pos <= |data|
    ensures r.Ok? ==> pos < r.value.1 <= |data|
  {
    var n :- UnpackAt(Int, data, pos);
    var vs :- UnpackSignedBytes(data, n.1, n.0);
    if forall i :: 0 <= i < |vs.0| ==> 0 <= vs.0[i] < 256 then Ok((TagByteArray(None, vs.0), vs.1))
    else Err(ValueError)
  }

  /** TAG_String.from_buf: a signed 2-byte length, then that many UTF-8 bytes. */
  function ParseString(data: seq<Byte>, pos: nat): (r: Result<(Tag, nat)>)
    requires pos <= |data|
    ensures r.Ok? ==> pos < r.value.1 <= |data|
  {
    var n :- UnpackAt(Short, data, pos);
    var raw :- ReadAt(data, n.1, n.0);
    match Utf8Decode(raw.0)
    case None => Err(DecodeError)
    case Some(s) => Ok((TagString(None, s), raw.1))
  }

  /** TAG_List.from_buf: the element type id, a signed 4-byte count, the elements. The
      type id is looked up in TYPES only when there is an element to read. */
  function ParseList(data: seq<Byte>, pos: nat): (r: Result<(Tag, nat)>)
    requires pos <= |data|
    ensures r.Ok? ==> pos < r.value.1 <= |data|
    decreases |data| - pos, 0
  {
    var id :- UnpackAt(SByte, data, pos);
    var count :- UnpackAt(Int, data, id.1);
    if count.0 <= 0 then Ok((TagList(None, []), count.1))
    else match PyIndex(TYPES, id.0)
      case None => Err(IndexError)
      case Some(ek) => AsList(ParseItems(ek, count.0, data, count.1))
  }

  /** The list result built from the element parse. */
  function AsList(r: Result<(seq<Tag>, nat)>): Result<(Tag, nat)>
  {
    match r
    case Ok((items, p)) => Ok((TagList(None, items), p))
    case Err(e) => Err(e)
  }

  /** The `from_buf` of the class k: the tag read at pos and the position after it. */
  function ParseTag(k: Kind, data: seq<Byte>, pos: nat): (r: Result<(Tag, nat)>)
    requires pos <= |data|
    ensures r.Ok? ==> pos < r.value.1 <= |data|
    decreases |data| - pos, 1
  {
    match k
    case KEnd => ParseEnd(data, pos)
    case KByte => ParseByte(data, pos)
    case KShort => ParseShort(data, pos)
    case KInt => ParseInt(data, pos)
    case KLong => ParseLong(data, pos)
    case KFloat => ParseFloat(data, pos)
    case KDouble => ParseDouble(data, pos)
    case KByteArray => ParseByteArray(data, pos)
    case KString => ParseString(data, pos)
    case KList => ParseList(data, pos)
  }

  /** `[TYPES[type_id].from_buf(buf) for _ in range(count)]`. */
  function ParseItems(k: Kind, count: int, data: seq<Byte>, pos: nat): (r: Result<(seq<Tag>, nat)>)
    requires pos <= |data|
    ensures r.Ok? ==> pos <= r.value.1 <= |data|
    ensures r.Ok? ==> |r.value.0| == (if count <= 0 then 0 else count)
    decreases |data| - pos, 2
  {
    if count <= 0 then Ok(([], pos))
    else
      var first :- ParseTag(k, data, pos);
      var rest :- ParseItems(k, count - 1, data, first.1);
      Ok(([first.0] + rest.0, rest.1))
  }

  /** A parse result with xs put in front of the values it holds. */
  function Prepend<T>(xs: seq<T>, r: Result<(seq<T>, nat)>): Result<(seq<T>, nat)>
  {
    match r
    case Ok((rest, p)) => Ok((xs + rest, p))
    case Err(e) => Err(e)
  }

  lemma PrependAssoc<T>(xs: seq<T>, x: T, r: Result<(seq<T>, nat)>)
    ensures Prepend(xs, Prepend([x], r)) == Prepend(xs + [x], r)
    ensures Prepend([], r) == r
  {
    match r
    case Ok((rest, p)) =>
      assert xs + ([x] + rest) == (xs + [x]) + rest;
      assert [] + rest == rest;
    case Err(_) =>
  }

  /** ParseItems reads one element, then the others after it. */
  lemma ParseItemsCons(k: Kind, count: int, data: seq<Byte>, pos: nat, first: Tag, p: nat)
    requires count > 0 && pos <= |data| && ParseTag(k, data, pos) == Ok((first, p))
    ensures p <= |data|
    ensures ParseItems(k, count, data, pos) == Prepend([first], ParseItems(k, count - 1, data, p))
  {
  }

  /** One more element read: the loop invariant of the element loop carries over. */
  lemma ItemsAdvance(k: Kind, whole: Result<(seq<Tag>, nat)>, items: seq<Tag>, left: int, data: seq<Byte>,
                     before: nat, item: Tag, after: nat)
    requires before <= |data| && left > 0
    requires whole == Prepend(items, ParseItems(k, left, data, before))
    requires ParseTag(k, data, before) == Ok((item, after))
    ensures after <= |data|
    ensures whole == Prepend(items + [item], ParseItems(k, left - 1, data, after))
  {
    ParseItemsCons(k, left, data, before, item, after);
    PrependAssoc(items, item, ParseItems(k, left - 1, data, after));
  }

  /** An element that fails to read ends the element loop with its error. */
  lemma ItemsFail(k: Kind, whole: Result<(seq<Tag>, nat)>, items: seq<Tag>, left: int, data: seq<Byte>, before: nat, e: Error)
    requires before <= |data| && left > 0
    requires whole == Prepend(items, ParseItems(k, left, data, before))
    requires ParseTag(k, data, before) == Err(e)
    ensures whole == Err(e)
  {
  }

  /** No element left to read: the element loop has read them all. */
  lemma ItemsDone(k: Kind, whole: Result<(seq<Tag>, nat)>, items: seq<Tag>, data: seq<Byte>, pos: nat)
    requires pos <= |data|
    requires whole == Prepend(items, ParseItems(k, 0, data, pos))
    ensures whole == Ok((items, pos))
  {
    assert items + [] == items;
  }

  /** UnpackSignedBytes reads one byte, then the others after it. */
  lemma UnpackSignedBytesCons(data: seq<Byte>, pos: nat, n: int, v: int)
    requires n > 0 && pos < |data| && UnpackAt(SByte, data, pos) == Ok((v, pos + 1))
    ensures UnpackSignedBytes(data, pos, n) == Prepend([v], UnpackSignedBytes(data, pos + 1, n - 1))
  {
  }

  // ---------------------------------------------------------------------------
  // Round trip

  /** The tags that `from_buf` can give back exactly as `encode` wrote them: encodable
      values, the name that the class's decoder produces (TAG_Byte a name, the others
      None), non-negative bytes in a byte array (bytearray() refuses the negative
      values a signed unpack yields), and lists whose elements share the first
      element's class. */
  predicate RoundTrips(t: Tag)
    decreases t, 2
  {
    match t
    case TagEnd => true
    case TagByte(name, v) => name.Some? && Fits(SByte, v) && |MUtf8Encode(name.value)| <= MaxValue(UShort)
    case TagShort(name, v) => name.None? && Fits(Short, v)
    case TagInt(name, v) => name.None? && Fits(Int, v)
    case TagLong(name, v) => name.None? && Fits(Long, v)
    case TagFloat(_, _) => false
    case TagDouble(name, _) => name.None?
    case TagByteArray(name, bs) => name.None? && SignedBytes(bs)
    case TagString(name, s) => name.None? && |Utf8Encode(s)| <= MaxValue(Short)
    case TagList(name, items) => name.None? && Uniform(items)
  }

  /** Bytes a TAG_Byte_Array can carry through its signed encoding and back. */
  predicate SignedBytes(bs: seq<Byte>)
  {
    |bs| <= MaxValue(Int) && forall i :: 0 <= i < |bs| ==> bs[i] < 128
  }

  /** A non-empty list whose elements round-trip and are all read by the first
      element's class. */
  predicate Uniform(items: seq<Tag>)
    decreases items, 1
  {
    && 0 < |items| <= MaxValue(Int)
    && AllOfKind(items, KindOf(items[0]))
  }

  /** All elements round-trip and are read by the class k. */
  predicate AllOfKind(items: seq<Tag>, k: Kind)
    decreases items, 0
  {
    items == [] || (RoundTrips(items[0]) && KindOf(items[0]) == k && AllOfKind(items[1..], k))
  }

  lemma {:induction false} PackSignedBytesDefined(bs: seq<Byte>)
    requires forall i :: 0 <= i < |bs| ==> bs[i] < 128
    ensures PackSignedBytes(bs).Ok?
  {
    if bs != [] {
      FormatRanges();
      PackSignedBytesDefined(bs[1..]);
    }
  }

  /** Every tag in the round-trip domain can be encoded. */
  lemma {:induction false} EncodeDefined(t: Tag)
    requires RoundTrips(t)
    ensures Encode(t).Ok?
    decreases t, 1
  {
    FormatRanges();
    match t
    case TagByteArray(_, bs) => PackSignedBytesDefined(bs);
    case TagList(_, items) =>
      EncodeAllDefined(items, KindOf(items[0]));
    case _ =>
  }

  lemma {:induction false} EncodeAllDefined(items: seq<Tag>, k: Kind)
    requires AllOfKind(items, k)
    ensures EncodeAll(items).Ok?
    decreases items, 0
  {
    if items != [] {
      EncodeDefined(items[0]);
      EncodeAllDefined(items[1..], k);
    }
  }

  /** `meta_from_buf` reads back the id and name that `encode_meta` wrote. */
  lemma MetaRoundTrip(id: int, s: string, e: seq<Byte>, data: seq<Byte>, pos: nat)
    requires EncodeMeta(id, Some(s)) == Ok(e)
    requires Placed(data, pos, e)
    ensures ParseMeta(data, pos) == Ok(((id, s), pos + |e|))
  {
    var m := MUtf8Encode(s);
    assert Fits(SByte, id) && Fits(UShort, |m|);
    var idBytes, lenBytes := Pack(SByte, id).value, Pack(UShort, |m|).value;
    assert e == (idBytes + lenBytes) + m;
    PlacedSplit(data, pos, idBytes + lenBytes, m);
    PlacedSplit(data, pos, idBytes, lenBytes);
    UnpackPacked(SByte, id, data, pos);
    UnpackPacked(UShort, |m|, data, pos + 1);
    assert ReadAt(data, pos + 3, |m|) == Ok((m, pos + 3 + |m|));
    MUtf8RoundTrip(s);
  }

  /** The signed unpack of bytes below 128 gives the bytes themselves. */
  lemma {:induction false} UnpackSignedOfPacked(bs: seq<Byte>, e: seq<Byte>, data: seq<Byte>, pos: nat)
    requires forall i :: 0 <= i < |bs| ==> bs[i] < 128
    requires PackSignedBytes(bs) == Ok(e)
    requires Placed(data, pos, e)
    ensures UnpackSignedBytes(data, pos, |bs|) == Ok((bs, pos + |e|))
  {
    if bs != [] {
      var head := Pack(SByte, bs[0]).value;
      var tail := PackSignedBytes(bs[1..]).value;
      assert e == head + tail;
      PlacedSplit(data, pos, head, tail);
      assert UnpackAt(SByte, data, pos) == Ok((bs[0], pos + 1)) by {
        FormatRanges();
        UnpackPacked(SByte, bs[0], data, pos);
      }
      UnpackSignedOfPacked(bs[1..], tail, data, pos + 1);
      UnpackSignedBytesCons(data, pos, |bs|, bs[0]);
      assert [bs[0]] + bs[1..] == bs;
    }
  }

  lemma EndDecodes(data: seq<Byte>, pos: nat)
    requires Placed(data, pos, [0])
    ensures ParseEnd(data, pos) == Ok((TagEnd, pos + 1))
  {
    FormatRanges();
    assert [0] == Pack(SByte, 0).value;
    UnpackPacked(SByte, 0, data, pos);
  }

  lemma ByteDecodes(s: string, v: int, e: seq<Byte>, data: seq<Byte>, pos: nat)
    requires EncodeByte(Some(s), v) == Ok(e) && Placed(data, pos, e)
    ensures ParseByte(data, pos) == Ok((TagByte(Some(s), v), pos + |e|))
  {
    var meta := EncodeMeta(1, Some(s)).value;
    var value := Pack(SByte, v).value;
    assert e == meta + value;
    PlacedSplit(data, pos, meta, value);
    MetaRoundTrip(1, s, meta, data, pos);
    var p := pos + |meta|;
    assert Fits(SByte, v) && |value| == Width(SByte) == 1;
    UnpackPacked(SByte, v, data, p);
    assert UnpackAt(SByte, data, p) == Ok((v, pos + |e|));
  }

  lemma DoubleDecodes(bits: U64, data: seq<Byte>, pos: nat)
    requires Placed(data, pos, EncodeDouble(bits))
    ensures ParseDouble(data, pos) == Ok((TagDouble(None, bits), pos + 8))
  {
    Pow256Values();
    BigEndianRoundTrip(bits, 8);
  }

  lemma ByteArrayDecodes(bs: seq<Byte>, e: seq<Byte>, data: seq<Byte>, pos: nat)
    requires SignedBytes(bs) && EncodeByteArray(bs) == Ok(e) && Placed(data, pos, e)
    ensures ParseByteArray(data, pos) == Ok((TagByteArray(None, bs), pos + |e|))
  {
    var count := Pack(Int, |bs|).value;
    var body := PackSignedBytes(bs).value;
    assert e == count + body;
    PlacedSplit(data, pos, count, body);
    assert UnpackAt(Int, data, pos) == Ok((|bs|, pos + 4)) by {
      UnpackPacked(Int, |bs|, data, pos);
    }
    assert UnpackSignedBytes(data, pos + 4, |bs|) == Ok((bs, pos + |e|)) by {
      UnpackSignedOfPacked(bs, body, data, pos + 4);
    }
  }

  lemma StringDecodes(s: string, e: seq<Byte>, data: seq<Byte>, pos: nat)
    requires |Utf8Encode(s)| <= MaxValue(Short) && EncodeString(s) == Ok(e) && Placed(data, pos, e)
    ensures ParseString(data, pos) == Ok((TagString(None, s), pos + |e|))
  {
    var utf8 := Utf8Encode(s);
    var len := Pack(Short, |utf8|).value;
    assert e == len + utf8;
    PlacedSplit(data, pos, len, utf8);
    assert UnpackAt(Short, data, pos) == Ok((|utf8|, pos + 2)) by {
      UnpackPacked(Short, |utf8|, data, pos);
    }
    assert ReadAt(data, pos + 2, |utf8|) == Ok((utf8, pos + |e|));
    assert Utf8Decode(utf8) == Some(s) by {
      Utf8RoundTrip(s);
    }
  }

  lemma FixedDecodes(t: Tag, k: Kind, e: seq<Byte>, data: seq<Byte>, pos: nat)
    requires t.TagShort? || t.TagInt? || t.TagLong?
    requires RoundTrips(t) && KindOf(t) == k && Encode(t) == Ok(e) && Placed(data, pos, e)
    ensures ParseTag(k, data, pos) == Ok((t, pos + |e|))
  {
    UnpackPacked(FixedFormat(t), t.value, data, pos);
  }

  /** `from_buf` of the tag's class reads back exactly the tag that `encode` wrote,
      and stops right after it. */
  lemma {:induction false} DecodeEncoded(t: Tag, k: Kind, e: seq<Byte>, data: seq<Byte>, pos: nat)
    requires RoundTrips(t) && KindOf(t) == k && Encode(t) == Ok(e) && Placed(data, pos, e)
    ensures ParseTag(k, data, pos) == Ok((t, pos + |e|))
    decreases t, 1
  {
    var r := Ok((t, pos + |e|));
    match t
    case TagByteArray(_, bs) =>
      assert ParseByteArray(data, pos) == r by { ByteArrayDecodes(bs, e, data, pos); }
    case TagString(_, s) =>
      assert ParseString(data, pos) == r by { StringDecodes(s, e, data, pos); }
    case TagList(_, items) =>
      assert ParseList(data, pos) == r by { ListDecodes(items, e, data, pos); }
    case _ => ScalarDecodes(t, k, e, data, pos);
  }

  /** DecodeEncoded for the classes without a length prefix. */
  lemma ScalarDecodes(t: Tag, k: Kind, e: seq<Byte>, data: seq<Byte>, pos: nat)
    requires !(t.TagByteArray? || t.TagString? || t.TagList?)
    requires RoundTrips(t) && KindOf(t) == k && Encode(t) == Ok(e) && Placed(data, pos, e)
    ensures ParseTag(k, data, pos) == Ok((t, pos + |e|))
  {
    var r := Ok((t, pos + |e|));
    match t
    case TagEnd =>
      assert ParseEnd(data, pos) == r by { EndDecodes(data, pos); }
    case TagByte(name, v) =>
      assert ParseByte(data, pos) == r by { ByteDecodes(name.value, v, e, data, pos); }
    case TagDouble(_, bits) =>
      assert ParseDouble(data, pos) == r by { DoubleDecodes(bits, data, pos); }
    case _ => FixedDecodes(t, k, e, data, pos);
  }

  lemma {:induction false} ListDecodes(items: seq<Tag>, e: seq<Byte>, data: seq<Byte>, pos: nat)
    requires Uniform(items) && EncodeList(items) == Ok(e) && Placed(data, pos, e)
    ensures ParseList(data, pos) == Ok((TagList(None, items), pos + |e|))
    decreases items, 3
  {
    var body := ListHeaderDecodes(items, e, data, pos);
    var k := KindOf(items[0]);
    assert PyIndex(TYPES, TypeId(items[0])) == Some(k);
    ItemsDecodeEncoded(items, k, body, data, pos + 5);
  }

  /** The element type id and the count of an encoded list read back, and the
      elements' encodings follow them. */
  lemma ListHeaderDecodes(items: seq<Tag>, e: seq<Byte>, data: seq<Byte>, pos: nat) returns (body: seq<Byte>)
    requires items != [] && |items| <= MaxValue(Int) && EncodeList(items) == Ok(e) && Placed(data, pos, e)
    ensures UnpackAt(SByte, data, pos) == Ok((TypeId(items[0]), pos + 1))
    ensures UnpackAt(Int, data, pos + 1) == Ok((|items|, pos + 5))
    ensures EncodeAll(items) == Ok(body) && Placed(data, pos + 5, body) && pos + 5 + |body| == pos + |e|
  {
    var id := Pack(SByte, TypeId(items[0])).value;
    var count := Pack(Int, |items|).value;
    body := EncodeAll(items).value;
    assert e == (id + count) + body;
    PlacedSplit(data, pos, id + count, body);
    PlacedSplit(data, pos, id, count);
    UnpackPacked(SByte, TypeId(items[0]), data, pos);
    UnpackPacked(Int, |items|, data, pos + 1);
  }

  lemma {:induction false} ItemsDecodeEncoded(items: seq<Tag>, k: Kind, e: seq<Byte>, data: seq<Byte>, pos: nat)
    requires AllOfKind(items, k) && EncodeAll(items) == Ok(e) && Placed(data, pos, e)
    ensures ParseItems(k, |items|, data, pos) == Ok((items, pos + |e|))
    decreases items, 2
  {
    if items == [] {
      assert e == [];
    } else {
      var p, tail := FirstItemDecodes(items, k, e, data, pos);
      ItemsDecodeEncoded(items[1..], k, tail, data, p);
      ParseItemsStep(k, items, data, pos, p, p + |tail|);
    }
  }

  /** The first element of an encoded list reads back, and the others' encodings follow
      it. */
  lemma FirstItemDecodes(items: seq<Tag>, k: Kind, e: seq<Byte>, data: seq<Byte>, pos: nat)
      returns (p: nat, tail: seq<Byte>)
    requires items != [] && AllOfKind(items, k) && EncodeAll(items) == Ok(e) && Placed(data, pos, e)
    ensures pos <= p <= |data| && ParseTag(k, data, pos) == Ok((items[0], p))
    ensures AllOfKind(items[1..], k) && EncodeAll(items[1..]) == Ok(tail)
    ensures Placed(data, p, tail) && p + |tail| == pos + |e|
    decreases items, 1
  {
    var first, rest := items[0], items[1..];
    var head;
    head, tail := EncodeAllSplit(items);
    p := pos + |head|;
    assert Placed(data, pos, head) && Placed(data, p, tail) by {
      PlacedSplit(data, pos, head, tail);
    }
    assert ParseTag(k, data, pos) == Ok((first, p)) by {
      assert RoundTrips(first) && KindOf(first) == k;
      DecodeEncoded(first, k, head, data, pos);
    }
  }

  /** The encoding of a non-empty element list: the first element's bytes, then the
      others'. */
  lemma EncodeAllSplit(items: seq<Tag>) returns (head: seq<Byte>, tail: seq<Byte>)
    requires items != [] && EncodeAll(items).Ok?
    ensures Encode(items[0]) == Ok(head) && EncodeAll(items[1..]) == Ok(tail)
    ensures EncodeAll(items).value == head + tail
  {
    head, tail := Encode(items[0]).value, EncodeAll(items[1..]).value;
  }

  /** A list parse that reads a first element and then the rest. */
  lemma ParseItemsStep(k: Kind, items: seq<Tag>, data: seq<Byte>, pos: nat, p: nat, q: nat)
    requires items != [] && pos <= p <= |data|
    requires ParseTag(k, data, pos) == Ok((items[0], p))
    requires ParseItems(k, |items[1..]|, data, p) == Ok((items[1..], q))
    ensures ParseItems(k, |items|, data, pos) == Ok((items, q))
  {
    assert |items[1..]| == |items| - 1;
    assert [items[0]] + items[1..] == items;
  }

  /** The round trip on a buffer holding exactly one encoded tag. */
  lemma RoundTrip(t: Tag)
    requires RoundTrips(t)
    ensures Encode(t).Ok?
    ensures ParseTag(KindOf(t), Encode(t).value, 0) == Ok((t, |Encode(t).value|))
  {
    EncodeDefined(t);
    var e := Encode(t).value;
    assert Placed(e, 0, e) by {
      assert e[0..0 + |e|] == e;
    }
    DecodeEncoded(t, KindOf(t), e, e, 0);
  }

  // ---------------------------------------------------------------------------
  // Layout facts

  /** `encode_meta` layout: id byte, big-endian byte count of the modified UTF-8 name,
      the name bytes; it fails only for a missing name or a name over 65535 bytes. */
  lemma MetaLayout(id: int, s: string)
    requires Fits(SByte, id)
    ensures EncodeMeta(id, Some(s)).Ok? <==> |MUtf8Encode(s)| <= 65535
    ensures EncodeMeta(id, None) == Err(TypeError)
    ensures EncodeMeta(id, Some(s)).Ok? ==>
      var e := EncodeMeta(id, Some(s)).value;
      && |e| == 3 + |MUtf8Encode(s)|
      && Decode(SByte, e[..1]) == id
      && Decode(UShort, e[1..3]) == |MUtf8Encode(s)|
      && e[3..] == MUtf8Encode(s)
  {
    FormatRanges();
    var m := MUtf8Encode(s);
    if |m| <= 65535 {
      var e := EncodeMeta(id, Some(s)).value;
      assert e[..1] == Pack(SByte, id).value;
      assert e[1..3] == Pack(UShort, |m|).value;
      PackDecode(SByte, id);
      PackDecode(UShort, |m|);
    }
  }

  /** The struct format a TAG_Short, TAG_Int or TAG_Long value is written in. */
  function FixedFormat(t: Tag): (f: Format)
    requires t.TagShort? || t.TagInt? || t.TagLong?
    ensures Width(f) == (if t.TagShort? then 2 else if t.TagInt? then 4 else 8)
  {
    if t.TagShort? then Short else if t.TagInt? then Int else Long
  }

  /** The same TAG_Short, TAG_Int or TAG_Long value under another name. */
  function Renamed(t: Tag, other: Name): (r: Tag)
    requires t.TagShort? || t.TagInt? || t.TagLong?
    ensures TypeId(r) == TypeId(t) && r.value == t.value && r.name == other
  {
    match t
    case TagShort(_, v) => TagShort(other, v)
    case TagInt(_, v) => TagInt(other, v)
    case TagLong(_, v) => TagLong(other, v)
  }

  /** TAG_Short, TAG_Int and TAG_Long write their value alone, in exactly 2, 4 and 8
      bytes: no type id and no name, so the name has no effect on the bytes. */
  lemma FixedWidthLayout(t: Tag, other: Name)
    requires t.TagShort? || t.TagInt? || t.TagLong?
    ensures Encode(t).Ok? <==> Fits(FixedFormat(t), t.value)
    ensures Encode(t) == Encode(Renamed(t, other))
    ensures Encode(t).Ok? ==>
      |Encode(t).value| == Width(FixedFormat(t)) && Decode(FixedFormat(t), Encode(t).value) == t.value
  {
    if Fits(FixedFormat(t), t.value) {
      PackDecode(FixedFormat(t), t.value);
    }
  }

  /** TAG_Byte writes its meta, then exactly one signed byte. */
  lemma ByteLayout(s: string, v: int)
    requires -128 <= v <= 127 && |MUtf8Encode(s)| <= 65535
    ensures Encode(TagByte(Some(s), v)).Ok?
    ensures var e := Encode(TagByte(Some(s), v)).value;
      && |e| == |EncodeMeta(1, Some(s)).value| + 1
      && e[..|e| - 1] == EncodeMeta(1, Some(s)).value
      && Decode(SByte, e[|e| - 1..]) == v
  {
    FormatRanges();
    var meta := EncodeMeta(1, Some(s)).value;
    var value := Pack(SByte, v).value;
    assert Encode(TagByte(Some(s), v)) == Ok(meta + value);
    var e := meta + value;
    assert e[..|e| - 1] == meta;
    assert e[|e| - 1..] == value;
    PackDecode(SByte, v);
  }

  /** TAG_End is the single byte 0, and its decoder refuses any other byte. */
  lemma EndLayout(b: Byte)
    ensures Encode(TagEnd) == Ok([0])
    ensures ParseTag(KEnd, [b], 0) == (if b == 0 then Ok((TagEnd, 1)) else Err(AssertionError))
  {
    assert [b][0..1] == [b] && [b][..0] == [];
    assert FromBigEndian([b]) == b;
    assert Pow256(Width(SByte)) == 256;
    assert UnpackAt(SByte, [b], 0) == Ok((Decode(SByte, [b]), 1));
    assert Decode(SByte, [b]) == 0 <==> b == 0;
    assert ParseTag(KEnd, [b], 0) == ParseEnd([b], 0);
  }

  /** TAG_Byte_Array: a 4-byte count, then one byte per element. */
  lemma ByteArrayLayout(name: Name, bs: seq<Byte>)
    requires Encode(TagByteArray(name, bs)).Ok?
    ensures var e := Encode(TagByteArray(name, bs)).value;
      |e| == 4 + |bs| && Decode(Int, e[..4]) == |bs|
  {
    var e := Encode(TagByteArray(name, bs)).value;
    assert e[..4] == Pack(Int, |bs|).value;
    PackDecode(Int, |bs|);
  }

  /** TAG_String: the 2-byte prefix counts UTF-8 bytes, not characters. */
  lemma StringLayout(name: Name, s: string)
    requires Encode(TagString(name, s)).Ok?
    ensures var e := Encode(TagString(name, s)).value;
      && |e| == 2 + |Utf8Encode(s)|
      && Decode(Short, e[..2]) == |Utf8Encode(s)|
      && e[2..] == Utf8Encode(s)
  {
    var e := Encode(TagString(name, s)).value;
    assert e[..2] == Pack(Short, |Utf8Encode(s)|).value;
    PackDecode(Short, |Utf8Encode(s)|);
  }

  /** TAG_List: the first element's type id, a 4-byte element count, the elements'
      encodings in list order; an empty list cannot be encoded. */
  lemma ListLayout(name: Name, items: seq<Tag>)
    ensures Encode(TagList(name, items)) == EncodeList(items)
    ensures items == [] ==> EncodeList(items) == Err(IndexError)
    ensures EncodeList(items).Ok? ==>
      var e := EncodeList(items).value;
      && |items| > 0 && EncodeAll(items).Ok?
      && |e| == 5 + |EncodeAll(items).value|
      && Decode(SByte, e[..1]) == TypeId(items[0])
      && Decode(Int, e[1..5]) == |items|
      && e[5..] == EncodeAll(items).value
  {
    if EncodeList(items).Ok? {
      var e := EncodeList(items).value;
      var id := Pack(SByte, TypeId(items[0])).value;
      var count := Pack(Int, |items|).value;
      assert e == id + count + EncodeAll(items).value;
      assert e[..1] == id;
      assert e[1..5] == count;
      PackDecode(SByte, TypeId(items[0]));
      PackDecode(Int, |items|);
    }
  }

  /** The encoding of a list's elements is their encodings concatenated in order. */
  lemma {:induction false} EncodeAllConcat(items: seq<Tag>, more: seq<Tag>)
    requires EncodeAll(items).Ok? && EncodeAll(more).Ok?
    ensures EncodeAll(items + more) == Ok(EncodeAll(items).value + EncodeAll(more).value)
  {
    if items == [] {
      assert items + more == more;
      assert [] + EncodeAll(more).value == EncodeAll(more).value;
    } else {
      assert (items + more)[0] == items[0];
      assert (items + more)[1..] == items[1..] + more;
      EncodeAllConcat(items[1..], more);
      var h, t, m := Encode(items[0]).value, EncodeAll(items[1..]).value, EncodeAll(more).value;
      assert h + (t + m) == (h + t) + m;
    }
  }

  // ---------------------------------------------------------------------------
  // Decoding through a Buffer, step by step, one method per class

  /** `TAG.meta_from_buf(buf)`. */
  method MetaFromBuf(buf: Buffer) returns (r: Result<(int, string)>)
    requires buf.Valid()
    modifies buf
    ensures buf.Valid() && Follows(r, ParseMeta(buf.data, old(buf.pos)), buf.pos)
  {
    var id := buf.Unpack(SByte);
    if id.Err? { return Err(id.error); }
    var len := buf.Unpack(UShort);
    if len.Err? { return Err(len.error); }
    var raw := buf.Read(len.value);
    if raw.Err? { return Err(raw.error); }
    match MUtf8Decode(raw.value) {
      case None => return Err(DecodeError);
      case Some(name) => return Ok((id.value, name));
    }
  }

  /** `buf.unpack_array("b", n)`. */
  method UnpackSignedBytesFromBuf(buf: Buffer, n: int) returns (r: Result<seq<int>>)
    requires buf.Valid()
    modifies buf
    ensures buf.Valid() && Follows(r, UnpackSignedBytes(buf.data, old(buf.pos), n), buf.pos)
  {
    if n <= 0 { return Ok([]); }
    ghost var start := buf.pos;
    var vs: seq<int> := [];
    var i := 0;
    PrependAssoc([], 0, UnpackSignedBytes(buf.data, start, n));
    while i < n
      invariant buf.Valid() && 0 <= i <= n
      invariant UnpackSignedBytes(buf.data, start, n) == Prepend(vs, UnpackSignedBytes(buf.data, buf.pos, n - i))
      decreases n - i
    {
      ghost var before := buf.pos;
      var v := buf.Unpack(SByte);
      if v.Err? { return Err(v.error); }
      UnpackSignedBytesCons(buf.data, before, n - i, v.value);
      PrependAssoc(vs, v.value, UnpackSignedBytes(buf.data, buf.pos, n - i - 1));
      vs := vs + [v.value];
      i := i + 1;
    }
    assert vs + [] == vs;
    return Ok(vs);
  }

  method EndFromBuf(buf: Buffer) returns (r: Result<Tag>)
    requires buf.Valid()
    modifies buf
    ensures buf.Valid() && Follows(r, ParseEnd(buf.data, old(buf.pos)), buf.pos)
  {
    var b := buf.Unpack(SByte);
    if b.Err? { return Err(b.error); }
    if b.value != 0 { return Err(AssertionError); }
    return Ok(TagEnd);
  }

  method ByteFromBuf(buf: Buffer) returns (r: Result<Tag>)
    requires buf.Valid()
    modifies buf
    ensures buf.Valid() && Follows(r, ParseByte(buf.data, old(buf.pos)), buf.pos)
  {
    var meta := MetaFromBuf(buf);
    if meta.Err? { return Err(meta.error); }
    var v := buf.Unpack(SByte);
    if v.Err? { return Err(v.error); }
    return Ok(TagByte(Some(meta.value.1), v.value));
  }

  method ShortFromBuf(buf: Buffer) returns (r: Result<Tag>)
    requires buf.Valid()
    modifies buf
    ensures buf.Valid() && Follows(r, ParseShort(buf.data, old(buf.pos)), buf.pos)
  {
    var v := buf.Unpack(Short);
    if v.Err? { return Err(v.error); }
    return Ok(TagShort(None, v.value));
  }

  method IntFromBuf(buf: Buffer) returns (r: Result<Tag>)
    requires buf.Valid()
    modifies buf
    ensures buf.Valid() && Follows(r, ParseInt(buf.data, old(buf.pos)), buf.pos)
  {
    var v := buf.Unpack(Int);
    if v.Err? { return Err(v.error); }
    return Ok(TagInt(None, v.value));
  }

  method LongFromBuf(buf: Buffer) returns (r: Result<Tag>)
    requires buf.Valid()
    modifies buf
    ensures buf.Valid() && Follows(r, ParseLong(buf.data, old(buf.pos)), buf.pos)
  {
    var v := buf.Unpack(Long);
    if v.Err? { return Err(v.error); }
    return Ok(TagLong(None, v.value));
  }

  method FloatFromBuf(buf: Buffer) returns (r: Result<Tag>)
    requires buf.Valid()
    modifies buf
    ensures buf.Valid() && Follows(r, ParseFloat(buf.data, old(buf.pos)), buf.pos)
  {
    var raw := buf.Read(4);
    if raw.Err? { return Err(raw.error); }
    Pow256Values();
    return Ok(TagFloat(None, FromBigEndian(raw.value)));
  }

  method DoubleFromBuf(buf: Buffer) returns (r: Result<Tag>)
    requires buf.Valid()
    modifies buf
    ensures buf.Valid() && Follows(r, ParseDouble(buf.data, old(buf.pos)), buf.pos)
  {
    var raw := buf.Read(8);
    if raw.Err? { return Err(raw.error); }
    Pow256Values();
    return Ok(TagDouble(None, FromBigEndian(raw.value)));
  }

  method ByteArrayFromBuf(buf: Buffer) returns (r: Result<Tag>)
    requires buf.Valid()
    modifies buf
    ensures buf.Valid() && Follows(r, ParseByteArray(buf.data, old(buf.pos)), buf.pos)
  {
    var n := buf.Unpack(Int);
    if n.Err? { return Err(n.error); }
    var vs := UnpackSignedBytesFromBuf(buf, n.value);
    if vs.Err? { return Err(vs.error); }
    if forall i :: 0 <= i < |vs.value| ==> 0 <= vs.value[i] < 256 {
      return Ok(TagByteArray(None, vs.value));
    }
    return Err(ValueError);
  }

  method StringFromBuf(buf: Buffer) returns (r: Result<Tag>)
    requires buf.Valid()
    modifies buf
    ensures buf.Valid() && Follows(r, ParseString(buf.data, old(buf.pos)), buf.pos)
  {
    var n := buf.Unpack(Short);
    if n.Err? { return Err(n.error); }
    var raw := buf.Read(n.value);
    if raw.Err? { return Err(raw.error); }
    match Utf8Decode(raw.value) {
      case None => return Err(DecodeError);
      case Some(s) => return Ok(TagString(None, s));
    }
  }

  /** `cls.from_buf(buf)` for the class k. */
  method FromBuf(k: Kind, buf: Buffer) returns (r: Result<Tag>)
    requires buf.Valid()
    modifies buf
    ensures buf.Valid() && Follows(r, ParseTag(k, buf.data, old(buf.pos)), buf.pos)
    decreases |buf.data| - buf.pos, 1
  {
    match k {
      case KEnd => r := EndFromBuf(buf);
      case KByte => r := ByteFromBuf(buf);
      case KShort => r := ShortFromBuf(buf);
      case KInt => r := IntFromBuf(buf);
      case KLong => r := LongFromBuf(buf);
      case KFloat => r := FloatFromBuf(buf);
      case KDouble => r := DoubleFromBuf(buf);
      case KByteArray => r := ByteArrayFromBuf(buf);
      case KString => r := StringFromBuf(buf);
      case KList => r := ListFromBuf(buf);
    }
  }

  /** TAG_List.from_buf: the element type id, the count, then the elements. */
  method ListFromBuf(buf: Buffer) returns (r: Result<Tag>)
    requires buf.Valid()
    modifies buf
    ensures buf.Valid() && Follows(r, ParseList(buf.data, old(buf.pos)), buf.pos)
    decreases |buf.data| - buf.pos, 0
  {
    var id := buf.Unpack(SByte);
    if id.Err? { return Err(id.error); }
    var count := buf.Unpack(Int);
    if count.Err? { return Err(count.error); }
    if count.value <= 0 { return Ok(TagList(None, [])); }
    match PyIndex(TYPES, id.value) {
      case None => return Err(IndexError);
      case Some(ek) =>
        var items := ItemsFromBuf(ek, count.value, buf);
        if items.Err? { return Err(items.error); }
        return Ok(TagList(None, items.value));
    }
  }

  /** The counted loop of TAG_List.from_buf: `count` elements of the class k, in
      order; a count below one reads nothing. */
  method ItemsFromBuf(k: Kind, count: int, buf: Buffer) returns (r: Result<seq<Tag>>)
    requires buf.Valid()
    modifies buf
    ensures buf.Valid() && Follows(r, ParseItems(k, count, buf.data, old(buf.pos)), buf.pos)
    decreases |buf.data| - buf.pos, 3
  {
    if count <= 0 { return Ok([]); }
    ghost var whole := ParseItems(k, count, buf.data, buf.pos);
    var items: seq<Tag> := [];
    var i := 0;
    PrependAssoc([], TagEnd, whole);
    while i < count
      invariant buf.Valid() && 0 <= i <= count && buf.pos >= old(buf.pos)
      invariant whole == Prepend(items, ParseItems(k, count - i, buf.data, buf.pos))
      decreases count - i
    {
      var item := ReadItem(k, whole, items, count - i, buf);
      if item.Err? {
        return Err(item.error);
      }
      items := items + [item.value];
      i := i + 1;
    }
    ItemsDone(k, whole, items, buf.data, buf.pos);
    return Ok(items);
  }

  /** One turn of the counted loop: the next element is read, and what the loop has
      read so far followed by what is left still makes up the whole list. */
  method ReadItem(k: Kind, ghost whole: Result<(seq<Tag>, nat)>, items: seq<Tag>, left: int, buf: Buffer)
      returns (r: Result<Tag>)
    requires buf.Valid() && left > 0
    requires whole == Prepend(items, ParseItems(k, left, buf.data, buf.pos))
    modifies buf
    ensures buf.Valid() && (r.Ok? ==> buf.pos >= old(buf.pos))
    ensures r.Err? ==> whole == Err(r.error)
    ensures r.Ok? ==> whole == Prepend(items + [r.value], ParseItems(k, left - 1, buf.data, buf.pos))
    decreases |buf.data| - buf.pos, 2
  {
    ghost var before := buf.pos;
    r := FromBuf(k, buf);
    if r.Err? {
      ItemsFail(k, whole, items, left, buf.data, before, r.error);
    } else {
      ItemsAdvance(k, whole, items, left, buf.data, before, r.value, buf.pos);
    }
  }
}
