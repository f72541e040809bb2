/** Chunk sections and chunks as loaded from their NBT form (pymine/types/chunk.py).
    A ChunkSection holds a 16x16x16 block-state array and two light arrays; the
    arrays are flattened y-major, so the cell of (y, z, x) is BlockIndex(y, z, x).
    A Chunk holds its level compound, minus the entries it turns into attributes,
    and a table of its sections keyed by their Y. */
module Chunks {
  import opened Python
  import opened WireBuffer
  import opened ChunkBits

  /** The Palette entry of a section compound. Palettes are never resolved here:
      the decoded array holds raw palette indices. */
  datatype PaletteTag = PaletteTag(id: int)

  /** `DirectPalette`, or `IndirectPalette.from_nbt(tag["Palette"], bits_per_block)`. */
  datatype Palette = Direct | Indirect(source: PaletteTag, bitsPerBlock: nat)

  /** What a section's `y` attribute holds: the number inside the section's Y tag, or,
      for a section without block states, the Y tag itself rather than its number
      (chunk.py:109 passes `tag["Y"]` where chunk.py:84 passes `tag["Y"].data`). */
  datatype SectionY = YNumber(number: int) | YTag(tagged: int)

  /** The entries of a section compound that `from_nbt` reads; None where the entry
      is absent. */
  datatype SectionTag = SectionTag(
    y: Option<int>,
    blockStates: Option<seq<int>>,
    palette: Option<PaletteTag>,
    blockLight: Option<seq<Byte>>,
    skyLight: Option<seq<Byte>>)

  /** The attributes of a section as values; each array is flattened to 4096 cells. */
  datatype SectionValue = SectionValue(
    y: SectionY,
    palette: Option<Palette>,
    blockStates: Option<seq<int>>,
    blockLight: Option<seq<int>>,
    skyLight: Option<seq<int>>)

  // ---------------------------------------------------------------------------
  // Light arrays

  lemma Pow2Four()
    ensures Pow2(4) == 16 && Mask(4) == 0x0F
  {
  }

  /** `b & 0x0F`: the low nibble of a byte. */
  function LowNibble(b: Byte): (r: int)
    ensures r == b % 16
  {
    Pow2Four();
    MaskKeepsLowBits(b, 4);
    BitAnd(b, 0x0F)
  }

  /** `b >> 4 & 0x0F`: the high nibble of a byte. */
  function HighNibble(b: Byte): (r: int)
    ensures r == b / 16
  {
    var h := Shr(b, 4);
    Pow2Four();
    ShrIsDiv(b, 4);
    assert h == b / 16 < 16;
    DivModUnique(h, 16, 0, h);
    MaskKeepsLowBits(h, 4);
    BitAnd(h, 0x0F)
  }

  /** The comprehension over a light byte array: each byte gives its low nibble, then
      its high nibble. */
  function Nibbles(bs: seq<Byte>): (ns: seq<int>)
    ensures |ns| == 2 * |bs|
    ensures forall i :: 0 <= i < |ns| ==> 0 <= ns[i] < 16
  {
    seq(2 * |bs|, i requires 0 <= i < 2 * |bs| =>
      if i % 2 == 0 then LowNibble(bs[i / 2]) else HighNibble(bs[i / 2]))
  }

  lemma Halves(k: int)
    ensures (2 * k) % 2 == 0 && (2 * k) / 2 == k
    ensures (2 * k + 1) % 2 == 1 && (2 * k + 1) / 2 == k
  {
    DivModUnique(2 * k, 2, k, 0);
    DivModUnique(2 * k + 1, 2, k, 1);
  }

  /** Nibble 2k is the low nibble of byte k and nibble 2k+1 its high nibble. */
  lemma NibblePairs(bs: seq<Byte>)
    ensures forall k :: 0 <= k < |bs| ==> Nibbles(bs)[2 * k] == bs[k] % 16 && Nibbles(bs)[2 * k + 1] == bs[k] / 16
  {
    forall k | 0 <= k < |bs|
      ensures Nibbles(bs)[2 * k] == bs[k] % 16 && Nibbles(bs)[2 * k + 1] == bs[k] / 16
    {
      Halves(k);
    }
  }

  /** The inverse: each pair (low, high) of nibbles packed back into one byte. */
  function PackNibbles(ns: seq<int>): (bs: seq<int>)
    requires |ns| % 2 == 0
    ensures |bs| == |ns| / 2
    ensures forall k :: 0 <= k < |bs| ==> bs[k] == ns[2 * k] + 16 * ns[2 * k + 1]
  {
    seq(|ns| / 2, k requires 0 <= k < |ns| / 2 => ns[2 * k] + 16 * ns[2 * k + 1])
  }

  lemma NibbleSplit(v: int)
    ensures v == v % 16 + 16 * (v / 16)
  {
  }

  /** Unpacking the light bytes loses nothing: packing the nibbles gives the bytes back. */
  lemma NibblesRoundTrip(bs: seq<Byte>)
    ensures PackNibbles(Nibbles(bs)) == bs
  {
    var ns := Nibbles(bs);
    var packed := PackNibbles(ns);
    NibblePairs(bs);
    Halves(|bs|);
    forall k | 0 <= k < |bs|
      ensures packed[k] == bs[k]
    {
      var v, lo, hi := bs[k], ns[2 * k], ns[2 * k + 1];
      assert packed[k] == lo + 16 * hi;
      NibbleSplit(v);
    }
  }

  /** A light array: None when the entry is absent (not an array of zeros); otherwise
      the nibbles reshaped to 16x16x16, which numpy refuses with a ValueError unless
      there are exactly 4096 of them. */
  function Light(tag: Option<seq<Byte>>): (r: Result<Option<seq<int>>>)
    ensures tag.None? ==> r == Ok(None)
    ensures tag.Some? ==> (r.Ok? <==> 2 * |tag.value| == SECTION_BLOCKS)
    ensures r.Err? ==> r.error == ValueError
    ensures r.Ok? && tag.Some? ==> r.value.Some? && |r.value.value| == SECTION_BLOCKS
  {
    match tag
    case None => Ok(None)
    case Some(bs) =>
      var ns := Nibbles(bs);
      if |ns| == SECTION_BLOCKS then Ok(Some(ns)) else Err(ValueError)
  }

  /** Light value 2k is the low nibble of byte k, light value 2k+1 its high nibble,
      and every light value lies in [0, 15]. */
  lemma LightNibbles(bs: seq<Byte>, k: nat)
    requires Light(Some(bs)).Ok? && k < |bs|
    ensures Light(Some(bs)).value.value[2 * k] == bs[k] % 16
    ensures Light(Some(bs)).value.value[2 * k + 1] == bs[k] / 16
    ensures forall i :: 0 <= i < SECTION_BLOCKS ==> 0 <= Light(Some(bs)).value.value[i] < 16
  {
    NibblePairs(bs);
  }

  // ---------------------------------------------------------------------------
  // Decoding a section

  /** The first k cells of `states` hold what the loop body computes for them. */
  ghost predicate Decoded(states: seq<int>, cells: seq<nat>, b: nat, k: nat)
  {
    k <= |states| &&
    forall m :: 0 <= m < k ==> BlockValue(cells, b, m).Ok? && states[m] == BlockValue(cells, b, m).value
  }

  /** The whole block-state array the loop of from_nbt produces, or the IndexError of
      the first block whose cells are out of range. */
  function DecodeBlocks(cells: seq<nat>, b: nat): (r: Result<seq<int>>)
    ensures r.Ok? <==> forall n :: 0 <= n < SECTION_BLOCKS ==> BlockValue(cells, b, n).Ok?
    ensures r.Err? ==> r.error == IndexError
    ensures r.Ok? ==> |r.value| == SECTION_BLOCKS && forall n :: 0 <= n < SECTION_BLOCKS ==> 0 <= r.value[n] < Pow2(b)
  {
    if forall n :: 0 <= n < SECTION_BLOCKS ==> BlockValue(cells, b, n).Ok? then
      Ok(seq(SECTION_BLOCKS, n requires 0 <= n < SECTION_BLOCKS => BlockValue(cells, b, n).value))
    else
      Err(IndexError)
  }

  /** With L longs, decoding fails exactly when L is 0: then B is 0 and the first block
      reads index 0 of an empty byte string. Below 64 longs B is 0 and every block is
      0; from 64 longs on every index read is in range. */
  lemma DecodeBlocksOk(cells: seq<nat>, longCount: nat)
    requires |cells| == 8 * longCount
    ensures DecodeBlocks(cells, BitsPerBlock(longCount)).Ok? <==> longCount > 0
    ensures 0 < longCount < 64 ==>
      forall n :: 0 <= n < SECTION_BLOCKS ==> DecodeBlocks(cells, BitsPerBlock(longCount)).value[n] == 0
  {
    var b := BitsPerBlock(longCount);
    if longCount == 0 {
      BlockValueZeroBits(cells, 0);
    } else if longCount < 64 {
      forall n: nat ensures BlockValue(cells, b, n) == Ok(0) {
        BlockValueZeroBits(cells, n);
      }
    } else {
      forall n: nat | n < SECTION_BLOCKS ensures BlockValue(cells, b, n).Ok? {
        BlockValueDefined(cells, longCount, n);
      }
    }
  }

  /** Both light arrays, decoded in the order of from_nbt (BlockLight, then SkyLight). */
  function WithLights(tag: SectionTag, v: SectionValue): (r: Result<SectionValue>)
    ensures r.Ok? <==> Light(tag.blockLight).Ok? && Light(tag.skyLight).Ok?
    ensures r.Ok? ==> r.value.y == v.y && r.value.palette == v.palette && r.value.blockStates == v.blockStates
  {
    match (Light(tag.blockLight), Light(tag.skyLight))
    case (Err(e), _) => Err(e)
    case (_, Err(e)) => Err(e)
    case (Ok(bl), Ok(sl)) => Ok(v.(blockLight := bl, skyLight := sl))
  }

  /** What `ChunkSection.from_nbt(tag)` returns, or the exception it raises first:
      KeyError for a missing Y, struct.error for a long that does not fit 64 bits,
      IndexError from the unpacking loop, ValueError for a light array that does not
      reshape. */
  function SectionSpec(tag: SectionTag): (r: Result<SectionValue>)
    ensures r.Ok? ==> tag.y.Some?
    ensures r.Ok? ==> Light(tag.blockLight).Ok? && Light(tag.skyLight).Ok?
    ensures r.Ok? ==> r.value.blockLight == Light(tag.blockLight).value && r.value.skyLight == Light(tag.skyLight).value
  {
    if tag.y.None? then Err(KeyError)
    else
      match tag.blockStates
      case None => WithLights(tag, SectionValue(YTag(tag.y.value), None, None, None, None))
      case Some(longs) =>
        var b := BitsPerBlock(|longs|);
        var palette := if tag.palette.None? then Direct else Indirect(tag.palette.value, b);
        match StateBytes(longs)
        case Err(e) => Err(e)
        case Ok(bytes) =>
          match DecodeBlocks(bytes, b)
          case Err(e) => Err(e)
          case Ok(blocks) => WithLights(tag, SectionValue(YNumber(tag.y.value), Some(palette), Some(blocks), None, None))
  }

  predicate LightFits(tag: Option<seq<Byte>>)
  {
    tag.Some? ==> 2 * |tag.value| == SECTION_BLOCKS
  }

  /** from_nbt succeeds exactly when the section has a Y, its block states (if any) are
      a non-empty run of 64-bit longs, and each light array present has 2048 bytes. */
  lemma SectionSpecOk(tag: SectionTag)
    ensures SectionSpec(tag).Ok? <==>
      tag.y.Some? &&
      (tag.blockStates.Some? ==>
        |tag.blockStates.value| > 0 && forall i :: 0 <= i < |tag.blockStates.value| ==> Fits(Long, tag.blockStates.value[i])) &&
      LightFits(tag.blockLight) && LightFits(tag.skyLight)
  {
    if tag.blockStates.Some? && StateBytes(tag.blockStates.value).Ok? {
      var longs := tag.blockStates.value;
      DecodeBlocksOk(StateBytes(longs).value, |longs|);
    }
  }

  /** A decoded section with block states: B is the number of longs divided by 64, the
      palette is resolved with that B, and every block state lies in [0, 2^B). */
  lemma SectionBlocksInRange(tag: SectionTag)
    requires SectionSpec(tag).Ok? && tag.blockStates.Some?
    ensures var v, b := SectionSpec(tag).value, |tag.blockStates.value| / 64;
      v.y == YNumber(tag.y.value) &&
      v.palette == Some(if tag.palette.None? then Direct else Indirect(tag.palette.value, b)) &&
      v.blockStates.Some? && |v.blockStates.value| == SECTION_BLOCKS &&
      forall n :: 0 <= n < SECTION_BLOCKS ==> 0 <= v.blockStates.value[n] < Pow2(b)
  {
  }

  /** Fewer than 64 longs give zero bits per block, and every block state is 0. */
  lemma FewLongsGiveZeros(tag: SectionTag)
    requires SectionSpec(tag).Ok? && tag.blockStates.Some? && |tag.blockStates.value| < 64
    ensures forall n :: 0 <= n < SECTION_BLOCKS ==> SectionSpec(tag).value.blockStates.value[n] == 0
  {
    var longs := tag.blockStates.value;
    DecodeBlocksOk(StateBytes(longs).value, |longs|);
  }

  /** A section compound without block states keeps the Y tag itself and has no
      palette and no block states. */
  lemma SectionWithoutStates(tag: SectionTag)
    requires SectionSpec(tag).Ok? && tag.blockStates.None?
    ensures SectionSpec(tag).value.y == YTag(tag.y.value)
    ensures SectionSpec(tag).value.palette.None? && SectionSpec(tag).value.blockStates.None?
  {
  }

  // ---------------------------------------------------------------------------
  // Indexing the arrays

  /** One numpy axis of length 16: negative indices count from the end. */
  function Axis(i: int): (r: Option<nat>)
    ensures r.Some? <==> -16 <= i < 16
    ensures r.Some? ==> r.value < 16 && (r.value == i || r.value == i + 16)
  {
    if 0 <= i < 16 then Some(i) else if -16 <= i < 0 then Some(i + 16) else None
  }

  predicate InRange(y: int, z: int, x: int)
  {
    -16 <= y < 16 && -16 <= z < 16 && -16 <= x < 16
  }

  /** `array[y, z, x]` on a 16x16x16 array. */
  function At(cells: seq<int>, y: int, z: int, x: int): (r: Result<int>)
    requires |cells| == SECTION_BLOCKS
    ensures r.Ok? <==> InRange(y, z, x)
    ensures r.Err? ==> r.error == IndexError
    ensures InSection(y, z, x) ==> r == Ok(cells[BlockIndex(y, z, x)])
  {
    match (Axis(y), Axis(z), Axis(x))
    case (Some(i), Some(j), Some(k)) =>
      CoordsOfIndex(i, j, k);
      Ok(cells[BlockIndex(i, j, k)])
    case _ => Err(IndexError)
  }

  /** A negative coordinate names the same cell as that coordinate plus 16. */
  lemma AtWraps(cells: seq<int>, y: int, z: int, x: int)
    requires |cells| == SECTION_BLOCKS && InSection(y, z, x)
    ensures At(cells, y - 16, z, x) == At(cells, y, z, x)
    ensures At(cells, y, z - 16, x) == At(cells, y, z, x)
    ensures At(cells, y, z, x - 16) == At(cells, y, z, x)
  {
  }

  /** One component of `section[coords]`: None for an absent array. */
  function Component(cells: Option<seq<int>>, y: int, z: int, x: int): (r: Result<Option<int>>)
    requires cells.Some? ==> |cells.value| == SECTION_BLOCKS
    ensures r.Ok? <==> cells.None? || InRange(y, z, x)
  {
    match cells
    case None => Ok(None)
    case Some(c) =>
      match At(c, y, z, x)
      case Ok(v) => Ok(Some(v))
      case Err(e) => Err(e)
  }

  function Zeros(): (r: seq<int>)
    ensures |r| == SECTION_BLOCKS && forall n :: 0 <= n < SECTION_BLOCKS ==> r[n] == 0
  {
    seq(SECTION_BLOCKS, _ => 0)
  }

  // ---------------------------------------------------------------------------
  // The unpacking loop

  /** The triple loop of from_nbt: for each (y, z, x) it locates block_num's b bits in
      `cells` and stores them, masked, in place. It stops with IndexError at the first
      block whose cells are out of range, and otherwise fills the whole array with
      DecodeBlocks(cells, b). */
  method FillBlockStates(states: array<int>, cells: seq<nat>, b: nat, mask: nat) returns (r: Result<()>)
    requires states.Length == SECTION_BLOCKS && mask == Mask(b)
    modifies states
    ensures r.Ok? <==> DecodeBlocks(cells, b).Ok?
    ensures r.Err? ==> r.error == IndexError
    ensures r.Ok? ==> states[..] == DecodeBlocks(cells, b).value
  {
    var y := 0;
    while y < 16
      invariant 0 <= y <= 16
      invariant Decoded(states[..], cells, b, 256 * y)
    {
      var z := 0;
      while z < 16
        invariant 0 <= z <= 16
        invariant Decoded(states[..], cells, b, 256 * y + 16 * z)
      {
        var x := 0;
        while x < 16
          invariant 0 <= x <= 16
          invariant Decoded(states[..], cells, b, 256 * y + 16 * z + x)
        {
          var blockNum := ((y * 16) + z) * 16 + x;
          var startLong := (blockNum * b) / 64;
          var startOffset := (blockNum * b) % 64;
          var endLong := ((blockNum + 1) * b - 1) / 64;
          assert startLong == StartLong(b, blockNum) && startOffset == StartOffset(b, blockNum);
          assert endLong == EndLong(b, blockNum);
          var data: nat;
          if startLong == endLong {
            var lo := PyIndex(cells, startLong);
            if lo.None? {
              assert BlockValue(cells, b, blockNum).Err?;
              return Err(IndexError);
            }
            data := Shr(lo.value, startOffset);
          } else {
            var lo, hi := PyIndex(cells, startLong), PyIndex(cells, endLong);
            if lo.None? || hi.None? {
              assert BlockValue(cells, b, blockNum).Err?;
              return Err(IndexError);
            }
            data := BitOr(Shr(lo.value, startOffset), Shl(hi.value, LONG_BITS - startOffset));
          }
          assert BlockValue(cells, b, blockNum) == Ok(BitAnd(data, mask));
          states[blockNum] := BitAnd(data, mask);
          x := x + 1;
        }
        z := z + 1;
      }
      y := y + 1;
    }
    assert forall n :: 0 <= n < SECTION_BLOCKS ==> BlockValue(cells, b, n).Ok?;
    assert states[..] == DecodeBlocks(cells, b).value;
    r := Ok(());
  }

  // ---------------------------------------------------------------------------
  // ChunkSection

  /** A 16x16x16 area of blocks. */
  class ChunkSection {
    var y: SectionY
    var palette: Option<Palette>
    var blockStates: Option<array<int>>
    var blockLight: Option<seq<int>>
    var skyLight: Option<seq<int>>

    ghost function Footprint(): set<object>
      reads this
    {
      {this} + (if blockStates.Some? then {blockStates.value} else {})
    }

    /** Every array present has 4096 cells. */
    ghost predicate Valid()
      reads Footprint()
    {
      (blockStates.Some? ==> blockStates.value.Length == SECTION_BLOCKS) &&
      (blockLight.Some? ==> |blockLight.value| == SECTION_BLOCKS) &&
      (skyLight.Some? ==> |skyLight.value| == SECTION_BLOCKS)
    }

    /** The section's attributes as a value. */
    ghost function Value(): SectionValue
      reads Footprint()
    {
      SectionValue(y, palette, if blockStates.Some? then Some(blockStates.value[..]) else None, blockLight, skyLight)
    }

    /** `ChunkSection(y, palette)`: no arrays yet. */
    constructor (y: SectionY, palette: Option<Palette>)
      ensures Value() == SectionValue(y, palette, None, None, None)
      ensures Valid() && Footprint() == {this}
    {
      this.y := y;
      this.palette := palette;
      blockStates := None;
      blockLight := None;
      skyLight := None;
    }

    /** `ChunkSection.new(y, palette)`: three all-zero arrays. */
    static method New(y: SectionY, palette: Option<Palette>) returns (s: ChunkSection)
      ensures fresh(s.Footprint()) && s.Valid()
      ensures s.Value() == SectionValue(y, palette, Some(Zeros()), Some(Zeros()), Some(Zeros()))
    {
      s := new ChunkSection(y, palette);
      var states := new int[SECTION_BLOCKS](_ => 0);
      s.blockStates := Some(states);
      s.blockLight := Some(Zeros());
      s.skyLight := Some(Zeros());
      assert states[..] == Zeros();
    }

    /** `ChunkSection.from_nbt(tag)`. */
    static method FromNbt(tag: SectionTag) returns (r: Result<ChunkSection>)
      ensures r.Ok? <==> SectionSpec(tag).Ok?
      ensures r.Err? ==> SectionSpec(tag) == Err(r.error)
      ensures r.Ok? ==> fresh(r.value.Footprint()) && r.value.Valid() && r.value.Value() == SectionSpec(tag).value
    {
      var section: ChunkSection;
      if tag.blockStates.Some? {
        var longs := tag.blockStates.value;
        var bitsPerBlock := |longs| / 64;
        var mask := Shl(1, bitsPerBlock) - 1;
        var palette := if tag.palette.None? then Direct else Indirect(tag.palette.value, bitsPerBlock);
        if tag.y.None? {
          return Err(KeyError);
        }
        section := new ChunkSection(YNumber(tag.y.value), Some(palette));
        var states := new int[SECTION_BLOCKS];
        section.blockStates := Some(states);
        var stateBytes := StateBytes(longs);
        if stateBytes.Err? {
          return Err(stateBytes.error);
        }
        var filled := FillBlockStates(states, stateBytes.value, bitsPerBlock, mask);
        if filled.Err? {
          return Err(filled.error);
        }
      } else {
        if tag.y.None? {
          return Err(KeyError);
        }
        section := new ChunkSection(YTag(tag.y.value), None);
      }
      var blockLight := Light(tag.blockLight);
      if blockLight.Err? {
        return Err(blockLight.error);
      }
      section.blockLight := blockLight.value;
      var skyLight := Light(tag.skyLight);
      if skyLight.Err? {
        return Err(skyLight.error);
      }
      section.skyLight := skyLight.value;
      r := Ok(section);
    }

    /** `section[y, z, x]`: the block state and the two light values at those
        coordinates, None for an absent array. */
    function GetItem(y: int, z: int, x: int): (r: Result<(Option<int>, Option<int>, Option<int>)>)
      requires Valid()
      reads Footprint()
      ensures r.Ok? <==> InRange(y, z, x) || (blockStates.None? && blockLight.None? && skyLight.None?)
      ensures r.Err? ==> r.error == IndexError
      ensures r.Ok? && InSection(y, z, x) ==>
        var n := BlockIndex(y, z, x);
        r.value.0 == (if blockStates.Some? then Some(blockStates.value[n]) else None) &&
        r.value.1 == (if blockLight.Some? then Some(blockLight.value[n]) else None) &&
        r.value.2 == (if skyLight.Some? then Some(skyLight.value[n]) else None)
    {
      var states := if blockStates.Some? then Some(blockStates.value[..]) else None;
      match (Component(states, y, z, x), Component(blockLight, y, z, x), Component(skyLight, y, z, x))
      case (Err(e), _, _) => Err(e)
      case (_, Err(e), _) => Err(e)
      case (_, _, Err(e)) => Err(e)
      case (Ok(s), Ok(b), Ok(k)) => Ok((s, b, k))
    }

    /** `section.get(coords, default)`: the default replaces a KeyError from indexing.
        numpy reports a bad index with IndexError, never KeyError, so the handler never
        fires and `get` behaves exactly as indexing. */
    function Get(y: int, z: int, x: int, default: (Option<int>, Option<int>, Option<int>)):
      (r: Result<(Option<int>, Option<int>, Option<int>)>)
      requires Valid()
      reads Footprint()
      ensures r == GetItem(y, z, x)
    {
      ExceptKeyError(GetItem(y, z, x), default)
    }
  }

  // ---------------------------------------------------------------------------
  // Chunk

  /** A value held by a compound entry or by the section table: an integer tag, the
      list of section compounds, a section object, or any other tag. */
  datatype Item = Number(n: int) | SectionTags(tags: seq<SectionTag>) | Section(section: ChunkSection) | Other(id: int)

  /** A key of `chunk[key]`: a string, or anything else (a section's Y). */
  datatype Key = Name(name: string) | Index(index: int)

  /** The entries of a chunk compound that `Chunk.__init__` reads: DataVersion, and
      Level, itself a compound. */
  datatype ChunkTag = ChunkTag(dataVersion: Option<Item>, level: Option<map<string, Item>>)

  function Lookup(m: map<string, Item>, k: string): (r: Option<Item>)
    ensures r.Some? <==> k in m
    ensures r.Some? ==> r.value == m[k]
  {
    if k in m then Some(m[k]) else None
  }

  /** `tag[k].data` for an integer tag: KeyError when absent, TypeError for any other
      kind of tag. */
  function NumberOf(item: Option<Item>): (r: Result<int>)
    ensures r.Ok? <==> item.Some? && item.value.Number?
    ensures r.Ok? ==> r.value == item.value.n
  {
    match item
    case None => Err(KeyError)
    case Some(Number(n)) => Ok(n)
    case Some(_) => Err(TypeError)
  }

  /** `data["Sections"]` iterated as a list of section compounds. */
  function SectionTagsOf(item: Option<Item>): (r: Result<seq<SectionTag>>)
    ensures r.Ok? <==> item.Some? && item.value.SectionTags?
    ensures r.Ok? ==> r.value == item.value.tags
  {
    match item
    case None => Err(KeyError)
    case Some(SectionTags(tags)) => Ok(tags)
    case Some(_) => Err(TypeError)
  }

  /** The table the sections loop builds: each section from_nbt decodes, stored under
      its Y in order, so a later duplicate Y replaces an earlier one; the first section
      that fails to decode fails the whole load with its exception. */
  function SectionTable(tags: seq<SectionTag>): (r: Result<map<int, SectionValue>>)
  {
    if tags == [] then Ok(map[])
    else
      var last := tags[|tags| - 1];
      match SectionTable(tags[..|tags| - 1])
      case Err(e) => Err(e)
      case Ok(table) =>
        match SectionSpec(last)
        case Err(e) => Err(e)
        case Ok(v) => Ok(table[last.y.value := v])
  }

  /** The table is built exactly when every section decodes. */
  lemma {:induction false} SectionTableOk(tags: seq<SectionTag>)
    ensures SectionTable(tags).Ok? <==> forall i :: 0 <= i < |tags| ==> SectionSpec(tags[i]).Ok?
  {
    if tags != [] {
      var init := tags[..|tags| - 1];
      SectionTableOk(init);
      assert forall i :: 0 <= i < |init| ==> init[i] == tags[i];
    }
  }

  /** The keys of the table are the Ys of the sections. */
  lemma {:induction false} SectionTableKeys(tags: seq<SectionTag>)
    requires SectionTable(tags).Ok?
    ensures forall k :: k in SectionTable(tags).value <==> exists i :: 0 <= i < |tags| && tags[i].y == Some(k)
  {
    if tags != [] {
      var init, last := tags[..|tags| - 1], tags[|tags| - 1];
      var table := SectionTable(init).value;
      SectionTableKeys(init);
      assert SectionTable(tags).value == table[last.y.value := SectionSpec(last).value];
      forall k ensures k in SectionTable(tags).value <==> exists i :: 0 <= i < |tags| && tags[i].y == Some(k) {
        if k in table {
          var i :| 0 <= i < |init| && init[i].y == Some(k);
          assert tags[i].y == Some(k);
        }
        if k == last.y.value {
          assert tags[|tags| - 1].y == Some(k);
        }
        if exists i :: 0 <= i < |tags| && tags[i].y == Some(k) {
          var i :| 0 <= i < |tags| && tags[i].y == Some(k);
          if i < |init| {
            assert init[i].y == Some(k);
          }
        }
      }
    }
  }

  /** A section stored under its Y by no later section holds what from_nbt decoded
      from it: the last section with a given Y wins. */
  lemma {:induction false} SectionTableLast(tags: seq<SectionTag>, i: nat)
    requires SectionTable(tags).Ok? && i < |tags| && SectionSpec(tags[i]).Ok?
    requires forall j :: i < j < |tags| ==> tags[j].y != tags[i].y
    ensures tags[i].y.value in SectionTable(tags).value
    ensures SectionTable(tags).value[tags[i].y.value] == SectionSpec(tags[i]).value
  {
    var init := tags[..|tags| - 1];
    if i < |init| {
      assert init[i] == tags[i];
      assert forall j :: i < j < |init| ==> init[j] == tags[j];
      SectionTableLast(init, i);
    }
  }

  /** A failure stays a failure however many sections follow. */
  lemma {:induction false} SectionTablePrefixErr(tags: seq<SectionTag>, i: nat)
    requires i <= |tags| && SectionTable(tags[..i]).Err?
    ensures SectionTable(tags) == SectionTable(tags[..i])
  {
    if i < |tags| {
      assert tags[..|tags| - 1][..i] == tags[..i];
      SectionTablePrefixErr(tags[..|tags| - 1], i);
    } else {
      assert tags[..i] == tags;
    }
  }

  /** The attributes of a loaded chunk as values. */
  datatype ChunkValue = ChunkValue(dataVersion: int, data: map<string, Item>, x: int, z: int, sections: map<int, SectionValue>)

  /** What `Chunk(tag, timestamp)` holds, or the exception it raises first. */
  function ChunkSpec(tag: ChunkTag): (r: Result<ChunkValue>)
  {
    var dataVersion :- NumberOf(tag.dataVersion);
    var level :- if tag.level.Some? then Ok(tag.level.value) else Err(KeyError);
    var x :- NumberOf(Lookup(level, "xPos"));
    var z :- NumberOf(Lookup(level, "zPos"));
    var tags :- SectionTagsOf(Lookup(level, "Sections"));
    var table :- SectionTable(tags);
    Ok(ChunkValue(dataVersion, level - {"Sections", "xPos", "zPos"}, x, z, table))
  }

  /** A chunk loads exactly when DataVersion, xPos and zPos are integer tags, Sections is
      a list of sections, and each section decodes. */
  lemma ChunkSpecOk(tag: ChunkTag)
    ensures ChunkSpec(tag).Ok? <==>
      tag.dataVersion.Some? && tag.dataVersion.value.Number? && tag.level.Some? &&
      "xPos" in tag.level.value && tag.level.value["xPos"].Number? &&
      "zPos" in tag.level.value && tag.level.value["zPos"].Number? &&
      "Sections" in tag.level.value && tag.level.value["Sections"].SectionTags? &&
      forall i :: 0 <= i < |tag.level.value["Sections"].tags| ==> SectionSpec(tag.level.value["Sections"].tags[i]).Ok?
  {
    if tag.level.Some? && "Sections" in tag.level.value && tag.level.value["Sections"].SectionTags? {
      SectionTableOk(tag.level.value["Sections"].tags);
    }
  }

  /** A loaded chunk's x and z are xPos and zPos, its data version is DataVersion, and
      `data` is the level compound lacking exactly Sections, xPos and zPos, every other
      entry unchanged. */
  lemma ChunkSpecFields(tag: ChunkTag)
    requires ChunkSpec(tag).Ok?
    ensures tag.level.Some? && "xPos" in tag.level.value && "zPos" in tag.level.value && tag.dataVersion.Some?
    ensures var c, level := ChunkSpec(tag).value, tag.level.value;
      c.x == level["xPos"].n && c.z == level["zPos"].n && c.dataVersion == tag.dataVersion.value.n &&
      (forall k :: k in c.data <==> k in level && k != "Sections" && k != "xPos" && k != "zPos") &&
      (forall k :: k in c.data ==> c.data[k] == level[k])
  {
  }

  /** Every object of the sections stored in a table. */
  ghost function TableObjects(m: map<int, Item>): set<object>
    reads set k | k in m && m[k].Section? :: m[k].section
  {
    set k, o | k in m && m[k].Section? && o in m[k].section.Footprint() :: o
  }

  /** The sections of a table as values. */
  ghost function TableValues(m: map<int, Item>): map<int, SectionValue>
    reads (set k | k in m && m[k].Section? :: m[k].section), TableObjects(m)
  {
    map k | k in m && m[k].Section? :: m[k].section.Value()
  }

  /** A table whose sections have the given values, key by key, has those values. */
  lemma TableValuesOf(m: map<int, Item>, table: map<int, SectionValue>)
    requires m.Keys == table.Keys
    requires forall k :: k in m ==> m[k].Section? && m[k].section.Value() == table[k]
    ensures TableValues(m) == table
  {
    var values := TableValues(m);
    forall k | k in m
      ensures k in values && values[k] == table[k]
    {
    }
    assert values.Keys == table.Keys;
  }

  /** The sections loop of `Chunk.__init__`: each section compound decoded by from_nbt
      and stored under its Y. */
  method BuildSections(tags: seq<SectionTag>) returns (r: Result<map<int, Item>>)
    ensures r.Ok? <==> SectionTable(tags).Ok?
    ensures r.Err? ==> SectionTable(tags) == Err(r.error)
    ensures r.Ok? ==> (forall k :: k in r.value ==> r.value[k].Section?) && TableValues(r.value) == SectionTable(tags).value
    ensures r.Ok? ==> r.value.Keys == SectionTable(tags).value.Keys
    ensures r.Ok? ==> forall k :: k in r.value ==> r.value[k].Section? && r.value[k].section.Value() == SectionTable(tags).value[k]
  {
    var sections: map<int, Item> := map[];
    var i := 0;
    while i < |tags|
      invariant 0 <= i <= |tags|
      invariant SectionTable(tags[..i]).Ok?
      invariant sections.Keys == SectionTable(tags[..i]).value.Keys
      invariant forall k :: k in sections ==> sections[k].Section? && sections[k].section.Value() == SectionTable(tags[..i]).value[k]
    {
      var sectionTag := tags[i];
      assert tags[..i + 1][..i] == tags[..i] && tags[..i + 1][i] == sectionTag;
      var section := ChunkSection.FromNbt(sectionTag);
      if section.Err? {
        SectionTablePrefixErr(tags, i + 1);
        return Err(section.error);
      }
      sections := sections[sectionTag.y.value := Section(section.value)];
      i := i + 1;
    }
    assert tags[..i] == tags;
    TableValuesOf(sections, SectionTable(tags).value);
    r := Ok(sections);
  }

  class Chunk {
    var dataVersion: int
    var data: map<string, Item>
    var x: int
    var z: int
    var timestamp: int
    var sections: map<int, Item>

    constructor (dataVersion: int, data: map<string, Item>, x: int, z: int, timestamp: int, sections: map<int, Item>)
      ensures this.dataVersion == dataVersion && this.data == data && this.x == x && this.z == z
      ensures this.timestamp == timestamp && this.sections == sections
    {
      this.dataVersion := dataVersion;
      this.data := data;
      this.x := x;
      this.z := z;
      this.timestamp := timestamp;
      this.sections := sections;
    }

    /** `Chunk(tag, timestamp)`: reads the attributes out of the level compound, decodes
        every section into the table, and drops the entries it turned into attributes. */
    static method Load(tag: ChunkTag, timestamp: int) returns (r: Result<Chunk>)
      ensures r.Ok? <==> ChunkSpec(tag).Ok?
      ensures r.Err? ==> ChunkSpec(tag) == Err(r.error)
      ensures r.Ok? ==>
        var c, v := r.value, ChunkSpec(tag).value;
        fresh(c) && c.dataVersion == v.dataVersion && c.data == v.data && c.x == v.x && c.z == v.z &&
        c.timestamp == timestamp && (forall k :: k in c.sections ==> c.sections[k].Section?) &&
        TableValues(c.sections) == v.sections
    {
      var dataVersion := NumberOf(tag.dataVersion);
      if dataVersion.Err? {
        return Err(dataVersion.error);
      }
      if tag.level.None? {
        return Err(KeyError);
      }
      var data := tag.level.value;
      var x := NumberOf(Lookup(data, "xPos"));
      if x.Err? {
        return Err(x.error);
      }
      var z := NumberOf(Lookup(data, "zPos"));
      if z.Err? {
        return Err(z.error);
      }
      var tags := SectionTagsOf(Lookup(data, "Sections"));
      if tags.Err? {
        return Err(tags.error);
      }
      var sections := BuildSections(tags.value);
      if sections.Err? {
        return Err(sections.error);
      }
      data := data - {"Sections", "xPos", "zPos"};
      var chunk := new Chunk(dataVersion.value, data, x.value, z.value, timestamp, sections.value);
      TableValuesOf(chunk.sections, SectionTable(tags.value).value);
      r := Ok(chunk);
    }

    /** `chunk[key]`: a string key indexes `data`, any other key the section table;
        a missing key raises KeyError. */
    function GetItem(key: Key): (r: Result<Item>)
      reads this
      ensures r.Ok? <==> (if key.Name? then key.name in data else key.index in sections)
      ensures r.Ok? ==> r.value == (if key.Name? then data[key.name] else sections[key.index])
      ensures r.Err? ==> r.error == KeyError
    {
      match key
      case Name(s) => if s in data then Ok(data[s]) else Err(KeyError)
      case Index(k) => if k in sections then Ok(sections[k]) else Err(KeyError)
    }

    /** `chunk[key] = value`, routed as `chunk[key]` reads. */
    method SetItem(key: Key, value: Item)
      modifies this
      ensures GetItem(key) == Ok(value)
      ensures key.Name? ==> data == old(data)[key.name := value] && sections == old(sections)
      ensures key.Index? ==> sections == old(sections)[key.index := value] && data == old(data)
      ensures dataVersion == old(dataVersion) && x == old(x) && z == old(z) && timestamp == old(timestamp)
    {
      match key
      case Name(s) => data := data[s := value];
      case Index(k) => sections := sections[k := value];
    }

    /** `chunk.get(key, default)`: the default exactly when the key is missing. */
    function Get(key: Key, default: Item): (r: Item)
      reads this
      ensures GetItem(key).Ok? ==> r == GetItem(key).value
      ensures GetItem(key).Err? ==> r == default
    {
      var r := GetItem(key);
      if r.Ok? then r.value else default
    }
  }
}
