/** The packed block-state array of a chunk section (pymine/types/chunk.py, from_nbt):
    4096 block states of `b` bits each, stored in a run of 64-bit longs. This module
    holds the index arithmetic and the bit extraction as pure functions; the section
    class that fills its array with them is in module Chunks. */
module ChunkBits {
  import opened Python
  import opened WireBuffer

  /** The width of a long. */
  const LONG_BITS: nat := 64

  /** Blocks per section: 16 layers of 16 rows of 16. */
  const SECTION_BLOCKS: nat := 4096

  /** `block_num` of the coordinates (y, z, x): y-major, then z, then x. */
  function BlockIndex(y: int, z: int, x: int): int
  {
    ((y * 16) + z) * 16 + x
  }

  /** The coordinates (y, z, x) of block number n. */
  function Coords(n: nat): (int, int, int)
  {
    (n / 256, (n / 16) % 16, n % 16)
  }

  predicate InSection(y: int, z: int, x: int)
  {
    0 <= y < 16 && 0 <= z < 16 && 0 <= x < 16
  }

  /** The triple loop's block numbering sends every coordinate triple of the section to
      a distinct slot in 0..4095, from which Coords recovers it. */
  lemma CoordsOfIndex(y: int, z: int, x: int)
    ensures InSection(y, z, x) ==> 0 <= BlockIndex(y, z, x) < SECTION_BLOCKS
    ensures InSection(y, z, x) ==> Coords(BlockIndex(y, z, x)) == (y, z, x)
  {
    if InSection(y, z, x) {
      var k := BlockIndex(y, z, x);
      DivModUnique(k, 256, y, 16 * z + x);
      DivModUnique(k, 16, 16 * y + z, x);
      DivModUnique(16 * y + z, 16, y, z);
    }
  }

  /** ... and every slot in 0..4095 is the number of some triple: with CoordsOfIndex,
      the numbering is a bijection, so the loop writes each slot exactly once. */
  lemma IndexOfCoords(n: nat)
    ensures n < SECTION_BLOCKS ==> InSection(Coords(n).0, Coords(n).1, Coords(n).2)
    ensures n < SECTION_BLOCKS ==> BlockIndex(Coords(n).0, Coords(n).1, Coords(n).2) == n
  {
    if n < SECTION_BLOCKS {
      var q := n / 16;
      DivModUnique(n, 16, q, n % 16);
      DivDiv(n, 16, 16);
      DivModUnique(q, 16, q / 16, q % 16);
    }
  }

  /** `len(tag["BlockStates"]) // 64`: 4096 blocks of b bits fill 64*b longs. */
  function BitsPerBlock(longCount: nat): nat
  {
    longCount / 64
  }

  /** `(1 << bits_per_block) - 1`. */
  function Mask(b: nat): nat
  {
    Pow2(b) - 1
  }

  /** ANDing with the mask keeps exactly the b low bits: the result is below 2^b. */
  lemma MaskKeepsLowBits(v: nat, b: nat)
    ensures BitAnd(v, Mask(b)) == v % Pow2(b)
    ensures BitAnd(v, Mask(b)) < Pow2(b)
  {
    BitAndLowMask(v, b);
  }

  /** The bits-per-block count that 4096 blocks of b bits need, read back from the array
      length: a section serialized with b bits per block is decoded with b bits. */
  lemma BitsPerBlockOfLength(b: nat)
    ensures BitsPerBlock(SECTION_BLOCKS * b / 64) == b
  {
    assert SECTION_BLOCKS * b / 64 == 64 * b;
  }

  // ---------------------------------------------------------------------------
  // Which words a block's bits occupy

  /** `start_long`. */
  function StartLong(b: nat, n: nat): nat { (n * b) / 64 }

  /** `start_offset`. */
  function StartOffset(b: nat, n: nat): nat { (n * b) % 64 }

  /** `end_long` (floor division: -1 when b is 0). */
  function EndLong(b: nat, n: nat): int { ((n + 1) * b - 1) / 64 }

  /** A block of b (1..64) bits starts in word `start_long` and ends in the same word or
      the next; it stays in one word exactly when its bits end at or before bit 64. */
  lemma WordSpan(b: nat, n: nat)
    requires 1 <= b <= 64
    ensures StartLong(b, n) <= EndLong(b, n) <= StartLong(b, n) + 1
    ensures EndLong(b, n) == StartLong(b, n) <==> StartOffset(b, n) + b <= 64
  {
    var s, off := StartLong(b, n), StartOffset(b, n);
    assert n * b == 64 * s + off;
    assert (n + 1) * b - 1 == (off + b - 1) + 64 * s;
    DivModAddMultiple(off + b - 1, 64, s);
  }

  /** When b divides 64 no block straddles two words: the single-word branch is always
      taken. */
  lemma DivisorStaysInWord(b: nat, n: nat)
    requires 1 <= b <= 64 && 64 % b == 0
    ensures EndLong(b, n) == StartLong(b, n)
  {
    var m := 64 / b;
    assert 64 == b * m;
    var q, r := n / m, n % m;
    assert n * b == 64 * q + b * r by {
      assert n == m * q + r;
      assert n * b == (m * q) * b + r * b;
      assert (m * q) * b == 64 * q;
    }
    assert b * r <= 64 - b by {
      MulMonotone(b, r, m - 1);
      assert b * (m - 1) == 64 - b;
    }
    DivModUnique(n * b, 64, q, b * r);
    WordSpan(b, n);
  }

  /** With at least 64 longs (b >= 1 bits per block) every index the loop reads lies in
      range: both words of every block are below the number of longs, so below the 8 bytes
      per long of the byte string. */
  lemma IndicesInRange(longCount: nat, n: nat)
    requires longCount >= 64 && n < SECTION_BLOCKS
    ensures 0 <= StartLong(BitsPerBlock(longCount), n) < longCount
    ensures 0 <= EndLong(BitsPerBlock(longCount), n) < longCount
  {
    var b := BitsPerBlock(longCount);
    assert 64 * b <= longCount;
    assert n * b <= 4095 * b by { MulMonotone(b, n, 4095); }
    assert (n + 1) * b <= 4096 * b by { MulMonotone(b, n + 1, 4096); }
    assert (n + 1) * b - 1 >= 0 by { MulMonotone(b, 1, n + 1); }
    assert StartLong(b, n) <= (4096 * b - 1) / 64;
    assert (4096 * b - 1) / 64 < 64 * b;
  }

  // ---------------------------------------------------------------------------
  // Extraction

  /** Lines 98-107 of the loop body for block n, over the sequence `cells` the loop
      indexes: the bits from `start_offset` on of cell `start_long`, ORed with cell
      `end_long` shifted up when the block straddles two cells, then masked. */
  function BlockValue(cells: seq<nat>, b: nat, n: nat): (r: Result<nat>)
    ensures r.Ok? ==> r.value < Pow2(b)
    ensures r.Err? ==> r.error == IndexError
  {
    Extract(cells, b, StartLong(b, n), StartOffset(b, n), EndLong(b, n))
  }

  /** The same body with the three indices given. An index outside the sequence is an
      IndexError (Python's negative indices count back from the end). */
  function Extract(cells: seq<nat>, b: nat, startLong: int, startOffset: nat, endLong: int): (r: Result<nat>)
    requires startOffset < LONG_BITS
    ensures r.Ok? ==> r.value < Pow2(b)
    ensures r.Err? ==> r.error == IndexError
  {
    var data: Result<nat> :=
      if startLong == endLong then
        match PyIndex(cells, startLong)
        case None => Err(IndexError)
        case Some(lo) => Ok(Shr(lo, startOffset))
      else
        match (PyIndex(cells, startLong), PyIndex(cells, endLong))
        case (Some(lo), Some(hi)) => Ok(BitOr(Shr(lo, startOffset), Shl(hi, LONG_BITS - startOffset)))
        case _ => Err(IndexError);
    match data
    case Err(e) => Err(e)
    case Ok(v) => MaskKeepsLowBits(v, b); Ok(BitAnd(v, Mask(b)))
  }

  /** The indices of cells block n reads are defined whenever the sequence has at least
      `start_long + 2` cells or the block stays in one cell; in particular for a
      non-empty sequence and b == 0 (the block reads cell 0 and cell -1, the last). */
  lemma BlockValueZeroBits(cells: seq<nat>, n: nat)
    ensures BlockValue(cells, 0, n).Ok? <==> |cells| > 0
    ensures |cells| > 0 ==> BlockValue(cells, 0, n) == Ok(0)
  {
    assert StartLong(0, n) == 0 && StartOffset(0, n) == 0 && EndLong(0, n) == -1;
  }

  /** b >= 1 and enough cells: every block of the section decodes. */
  lemma BlockValueDefined(cells: seq<nat>, longCount: nat, n: nat)
    requires longCount >= 64 && |cells| >= longCount && n < SECTION_BLOCKS
    ensures BlockValue(cells, BitsPerBlock(longCount), n).Ok?
  {
    IndicesInRange(longCount, n);
  }

  /** `b"".join(struct.pack(">q", n) for n in longs)`: eight big-endian bytes per long;
      a long outside the signed 64-bit range is a struct.error. */
  function StateBytes(longs: seq<int>): (r: Result<seq<Byte>>)
    ensures r.Ok? <==> forall i :: 0 <= i < |longs| ==> Fits(Long, longs[i])
    ensures r.Ok? ==> |r.value| == 8 * |longs|
  {
    if longs == [] then Ok([])
    else
      match (Pack(Long, longs[0]), StateBytes(longs[1..]))
      case (Ok(head), Ok(tail)) => Ok(head + tail)
      case (Err(e), _) => Err(e)
      case (_, Err(e)) => Err(e)
  }

  /** The byte string starts with the pack of the first long. */
  lemma StateBytesHead(longs: seq<int>)
    requires StateBytes(longs).Ok? && |longs| > 0
    ensures StateBytes(longs).value[..8] == Pack(Long, longs[0]).value
  {
    var head := Pack(Long, longs[0]).value;
    assert StateBytes(longs).value == head + StateBytes(longs[1..]).value;
    assert (head + StateBytes(longs[1..]).value)[..8] == head;
  }

  /** The sequence a corrected loop indexes: each long's 64 bits read as an unsigned
      number. */
  function Words(longs: seq<int>): (ws: seq<nat>)
    requires forall i :: 0 <= i < |longs| ==> Fits(Long, longs[i])
    ensures |ws| == |longs|
    ensures forall i :: 0 <= i < |ws| ==> ws[i] == Unsigned(Long, longs[i])
    ensures AllWords(ws, LONG_BITS)
  {
    Pow256Is2To64();
    assert Pow256(Width(Long)) == Pow2(LONG_BITS);
    seq(|longs|, i requires 0 <= i < |longs| => Unsigned(Long, longs[i]))
  }

  lemma Pow256Is2To64()
    ensures Pow256(8) == Pow2(LONG_BITS)
  {
    Pow256AsPow2(8);
  }

  lemma {:induction false} Pow256AsPow2(w: nat)
    ensures Pow256(w) == Pow2(8 * w)
  {
    if w > 0 {
      Pow256AsPow2(w - 1);
      Pow2Add(8, 8 * (w - 1));
      assert Pow2(8) == 256;
    }
  }

  // ---------------------------------------------------------------------------
  // The intended layout: the longs read as one little-endian bit string

  /** Words of w bits as one number: word i holds bits w*i .. w*i + w - 1. */
  function Stream(ws: seq<nat>, w: nat): nat
  {
    if ws == [] then 0 else ws[0] + Pow2(w) * Stream(ws[1..], w)
  }

  predicate AllWords(ws: seq<nat>, w: nat)
  {
    forall i :: 0 <= i < |ws| ==> ws[i] < Pow2(w)
  }

  /** Splitting `x == w0 + p*t` with `t == low + q*rest` at the product p*q, with the
      low part below it. */
  lemma SplitArith(x: int, t: int, w0: int, p: int, low: int, q: int, rest: int)
    requires 0 <= w0 < p && 0 <= low < q && x == w0 + p * t && t == low + q * rest
    ensures x == (w0 + p * low) + (p * q) * rest
    ensures w0 + p * low < p * q
  {
    MulDistrib(p, low, q * rest);
    MulAssoc(p, q, rest);
    MulMonotone(p, low, q - 1);
    MulDistrib(p, q, -1);
  }

  /** The number of bits in s words of w bits, counted word by word. */
  function WordBits(w: nat, s: nat): nat
  {
    if s == 0 then 0 else w + WordBits(w, s - 1)
  }

  lemma {:induction false} WordBitsIsProduct(w: nat, s: nat)
    ensures WordBits(w, s) == w * s
  {
    if s > 0 {
      WordBitsIsProduct(w, s - 1);
      MulDistrib(w, 1, s - 1);
    }
  }

  /** The first s words of ws are its first word followed by the first s - 1 words of
      its tail. */
  lemma PrefixStep(ws: seq<nat>, w: nat, s: nat)
    requires 0 < s <= |ws|
    ensures Stream(ws[..s], w) == ws[0] + Pow2(w) * Stream(ws[1..][..s - 1], w)
    ensures ws[1..][s - 1..] == ws[s..]
  {
    assert ws[..s][1..] == ws[1..][..s - 1];
  }

  lemma {:induction false} StreamSplit(ws: seq<nat>, w: nat, s: nat)
    requires s <= |ws| && AllWords(ws, w)
    ensures Stream(ws, w) == Stream(ws[..s], w) + Pow2(WordBits(w, s)) * Stream(ws[s..], w)
    ensures Stream(ws[..s], w) < Pow2(WordBits(w, s))
  {
    if s == 0 {
      assert ws[..0] == [] && ws[0..] == ws;
    } else {
      StreamSplit(ws[1..], w, s - 1);
      PrefixStep(ws, w, s);
      Pow2Add(w, WordBits(w, s - 1));
      SplitArith(Stream(ws, w), Stream(ws[1..], w), ws[0], Pow2(w), Stream(ws[1..][..s - 1], w),
                 Pow2(WordBits(w, s - 1)), Stream(ws[s..], w));
    }
  }

  /** Dropping the low s words and then the low `off` bits of the rest is a division by
      2^k, k == w*s + off. */
  lemma StreamShift(ws: seq<nat>, w: nat, s: nat, off: nat, k: nat)
    requires s < |ws| && AllWords(ws, w) && k == w * s + off
    ensures Stream(ws, w) / Pow2(k) == Stream(ws[s..], w) / Pow2(off)
  {
    StreamSplit(ws, w, s);
    WordBitsIsProduct(w, s);
    Pow2Add(WordBits(w, s), off);
    DivDiv(Stream(ws, w), Pow2(WordBits(w, s)), Pow2(off));
    DivModUnique(Stream(ws, w), Pow2(WordBits(w, s)), Stream(ws[s..], w), Stream(ws[..s], w));
  }

  /** Dividing by a and reducing modulo m ignores any multiple of a*m*c. */
  lemma ShiftModOneWord(lo: nat, rest: nat, a: nat, m: nat, c: nat)
    requires a > 0 && m > 0
    ensures ((lo + (a * (m * c)) * rest) / a) % m == (lo / a) % m
  {
    var j := c * rest;
    MulAssoc(a, m * c, rest);
    MulAssoc(m, c, rest);
    DivModAddMultiple(lo, a, m * j);
    DivModAddMultiple(lo / a, m, j);
  }

  /** The same when the block straddles the first two words of base p == a*d, with
      d*p == m*e. */
  lemma ShiftModTwoWords(lo: nat, hi: nat, rest: nat, a: nat, d: nat, p: nat, m: nat, e: nat)
    requires a > 0 && m > 0 && p == a * d && d * p == m * e
    ensures ((lo + p * (hi + p * rest)) / a) % m == (lo / a + hi * d) % m
  {
    var j := e * rest;
    var k := hi * d + m * j;
    assert p * (hi + p * rest) == a * k by {
      MulDistrib(p, hi, p * rest);
      MulAssoc(a, d, hi);
      assert d * hi == hi * d;
      MulAssoc(p, p, rest);
      MulAssoc(a, d, p);
      MulAssoc(a, d * p, rest);
      MulAssoc(m, e, rest);
      MulDistrib(a, hi * d, m * j);
    }
    DivModAddMultiple(lo, a, k);
    DivModAddMultiple(lo / a + hi * d, m, j);
  }

  lemma SameLowBits(x: nat, y: nat, a: nat, m: nat)
    requires x == y && a > 0 && m > 0
    ensures (x / a) % m == (y / a) % m
  {
  }

  lemma ShrIsDiv(a: nat, n: nat)
    ensures Shr(a, n) == a / Pow2(n)
  {
  }

  lemma OneWordPowers(off: nat, b: nat, w: nat)
    requires off + b <= w
    ensures Pow2(w) == Pow2(off) * (Pow2(b) * Pow2(w - off - b))
  {
    Pow2Add(b, w - off - b);
    Pow2Add(off, w - off);
  }

  lemma TwoWordPowers(off: nat, b: nat, w: nat)
    requires off < w && b <= w
    ensures Pow2(w) == Pow2(off) * Pow2(w - off)
    ensures Pow2(w - off) * Pow2(w) == Pow2(b) * Pow2(2 * w - off - b)
  {
    Pow2Add(off, w - off);
    Pow2Add(w - off, w);
    Pow2Add(b, 2 * w - off - b);
  }

  lemma QuotientBound(x: nat, a: nat, d: nat)
    requires a > 0 && d > 0 && x < a * d
    ensures x / a < d
  {
    DivDiv(x, a, d);
  }

  /** The b bits from position `off` of `x == lo + 2^w * rest`, for a block inside the
      first w-bit word. */
  lemma LowBitsOneWord(x: nat, lo: nat, rest: nat, off: nat, b: nat, w: nat)
    requires off + b <= w && x == lo + Pow2(w) * rest
    ensures (x / Pow2(off)) % Pow2(b) == (lo / Pow2(off)) % Pow2(b)
  {
    OneWordPowers(off, b, w);
    ShiftModOneWord(lo, rest, Pow2(off), Pow2(b), Pow2(w - off - b));
  }

  /** The same for a block that straddles the first two words of
      `x == lo + 2^w * (hi + 2^w * rest)`. */
  lemma LowBitsTwoWordsEq(x: nat, lo: nat, hi: nat, rest: nat, off: nat, b: nat, w: nat)
    requires off < w && b <= w && lo < Pow2(w) && x == lo + Pow2(w) * (hi + Pow2(w) * rest)
    ensures (x / Pow2(off)) % Pow2(b) == BitOr(lo / Pow2(off), Shl(hi, w - off)) % Pow2(b)
  {
    TwoWordPowers(off, b, w);
    QuotientBound(lo, Pow2(off), Pow2(w - off));
    BitOrDisjoint(lo / Pow2(off), hi, w - off);
    ShiftModTwoWords(lo, hi, rest, Pow2(off), Pow2(w - off), Pow2(w), Pow2(b), Pow2(2 * w - off - b));
  }

  lemma LowBitsTwoWords(x: nat, lo: nat, hi: nat, rest: nat, off: nat, b: nat, w: nat)
    requires off < w && b <= w && lo < Pow2(w) && TwoWords(x, lo, hi, rest, w)
    ensures (x / Pow2(off)) % Pow2(b) == BitOr(lo / Pow2(off), Shl(hi, w - off)) % Pow2(b)
  {
    LowBitsTwoWordsEq(x, lo, hi, rest, off, b, w);
  }

  /** A block inside one cell: the masked bits from `start_offset` of that cell. */
  lemma BlockValueOneCell(cells: seq<nat>, b: nat, s: nat, off: nat)
    requires s < |cells| && off < LONG_BITS
    ensures Extract(cells, b, s, off, s) == Ok((cells[s] / Pow2(off)) % Pow2(b))
  {
    MaskKeepsLowBits(Shr(cells[s], off), b);
  }

  /** A block straddling two cells: the ORed bits of both, masked. */
  lemma BlockValueTwoCells(cells: seq<nat>, b: nat, s: nat, off: nat)
    requires s + 1 < |cells| && off < LONG_BITS
    ensures Extract(cells, b, s, off, s + 1)
         == Ok(BitOr(Shr(cells[s], off), Shl(cells[s + 1], LONG_BITS - off)) % Pow2(b))
  {
    MaskKeepsLowBits(BitOr(Shr(cells[s], off), Shl(cells[s + 1], LONG_BITS - off)), b);
  }

  /** The stream from word s on is word s followed by the stream after it. */
  lemma StreamAt(ws: seq<nat>, w: nat, s: nat)
    requires s < |ws|
    ensures Stream(ws[s..], w) == ws[s] + Pow2(w) * Stream(ws[s + 1..], w)
  {
    assert ws[s..][1..] == ws[s + 1..];
  }

  /** x is the number whose first two w-bit words are lo and hi, followed by rest. */
  predicate TwoWords(x: nat, lo: nat, hi: nat, rest: nat, w: nat)
  {
    x == lo + Pow2(w) * (hi + Pow2(w) * rest)
  }

  lemma StreamAtTwo(ws: seq<nat>, w: nat, s: nat)
    requires s + 1 < |ws|
    ensures TwoWords(Stream(ws[s..], w), ws[s], ws[s + 1], Stream(ws[s + 2..], w), w)
  {
    StreamAt(ws, w, s);
    StreamAt(ws, w, s + 1);
  }

  /** The b bits from `off` of the stream from word s on, for a block that straddles
      words s and s + 1. */
  /** A block inside word s is the b bits from `off` of the stream from word s on. */
  lemma OneWordBlock(ws: seq<nat>, b: nat, s: nat, off: nat)
    requires off + b <= LONG_BITS && s < |ws| && off < LONG_BITS
    ensures Extract(ws, b, s, off, s) == Ok((Stream(ws[s..], LONG_BITS) / Pow2(off)) % Pow2(b))
  {
    BlockValueOneCell(ws, b, s, off);
    StreamAt(ws, LONG_BITS, s);
    LowBitsOneWord(Stream(ws[s..], LONG_BITS), ws[s], Stream(ws[s + 1..], LONG_BITS), off, b, LONG_BITS);
  }

  /** The b bits from `off` of the stream from word s on, for a block that straddles
      words s and s + 1. */
  lemma TwoWordBits(ws: seq<nat>, b: nat, s: nat, off: nat)
    requires b <= LONG_BITS && off < LONG_BITS && s + 1 < |ws| && ws[s] < Pow2(LONG_BITS)
    ensures (Stream(ws[s..], LONG_BITS) / Pow2(off)) % Pow2(b)
         == BitOr(Shr(ws[s], off), Shl(ws[s + 1], LONG_BITS - off)) % Pow2(b)
  {
    ShrIsDiv(ws[s], off);
    StreamAtTwo(ws, LONG_BITS, s);
    LowBitsTwoWords(Stream(ws[s..], LONG_BITS), ws[s], ws[s + 1], Stream(ws[s + 2..], LONG_BITS), off, b, LONG_BITS);
  }
  /** The same for a block that straddles words s and s + 1. */
  lemma TwoWordBlock(ws: seq<nat>, b: nat, s: nat, off: nat)
    requires b <= LONG_BITS && off < LONG_BITS && AllWords(ws, LONG_BITS) && s + 1 < |ws|
    ensures Extract(ws, b, s, off, s + 1) == Ok((Stream(ws[s..], LONG_BITS) / Pow2(off)) % Pow2(b))
  {
    TwoWordBits(ws, b, s, off);
    BlockValueTwoCells(ws, b, s, off);
  }

  /** Over the words (the evidently intended operand), the loop body extracts exactly
      block n of the bit string: bits n*b .. n*b + b - 1 of the longs read as one
      little-endian number. */
  lemma BlockValueOfWords(ws: seq<nat>, b: nat, n: nat)
    requires 1 <= b <= 64 && AllWords(ws, LONG_BITS) && 0 <= EndLong(b, n) < |ws|
    ensures BlockValue(ws, b, n) == Ok((Stream(ws, LONG_BITS) / Pow2(n * b)) % Pow2(b))
  {
    var s, off := StartLong(b, n), StartOffset(b, n);
    WordSpan(b, n);
    StreamShift(ws, LONG_BITS, s, off, n * b);
    if EndLong(b, n) == s {
      OneWordBlock(ws, b, s, off);
    } else {
      TwoWordBlock(ws, b, s, off);
    }
  }

  /** What a corrected loop stores for block n: the same body over the unsigned longs. */
  function IntendedBlock(longs: seq<int>, n: nat): (r: Result<nat>)
    requires forall i :: 0 <= i < |longs| ==> Fits(Long, longs[i])
    ensures 64 <= |longs| < 65 * 64 && n < SECTION_BLOCKS ==>
      r == Ok((Stream(Words(longs), LONG_BITS) / Pow2(n * BitsPerBlock(|longs|))) % Pow2(BitsPerBlock(|longs|)))
  {
    var ws, b := Words(longs), BitsPerBlock(|longs|);
    if 64 <= |longs| < 65 * 64 && n < SECTION_BLOCKS then
      IndicesInRange(|longs|, n);
      BlockValueOfWords(ws, b, n);
      BlockValue(ws, b, n)
    else
      BlockValue(ws, b, n)
  }

  /** A number below 256^(w-1) has a zero high byte in w bytes. */
  lemma {:induction false} HighByteZero(x: nat, w: nat)
    requires 1 <= w && x < Pow256(w - 1)
    ensures x < Pow256(w) && ToBigEndian(x, w)[0] == 0
  {
    if w > 1 {
      HighByteZero(x / 256, w - 1);
    }
  }

  /** The first byte of the byte string is the high byte of the first long: 0 for a
      first long of 1. */
  lemma FirstByteOfOne(longs: seq<int>)
    requires StateBytes(longs).Ok? && |longs| > 0 && longs[0] == 1
    ensures StateBytes(longs).value[0] == 0
  {
    FormatRanges();
    StateBytesHead(longs);
    assert Pack(Long, 1).value == ToBigEndian(1, 8);
    HighByteZero(1, 8);
    var bytes := StateBytes(longs).value;
    assert bytes[0] == bytes[..8][0];
  }

  /** Block 0 of a one-bit-per-block section, as written: the low bit of byte 0. */
  lemma AsWrittenFirstBlock(longs: seq<int>)
    requires |longs| == 64 && longs[0] == 1
    requires forall i :: 0 <= i < |longs| ==> Fits(Long, longs[i])
    ensures StateBytes(longs).Ok?
    ensures BlockValue(StateBytes(longs).value, BitsPerBlock(|longs|), 0) == Ok(0)
  {
    FirstByteOfOne(longs);
    var bytes := StateBytes(longs).value;
    var b, n := BitsPerBlock(|longs|), 0;
    var s, off := StartLong(b, n), StartOffset(b, n);
    assert b == 1 && s == 0 && off == 0 && EndLong(b, n) == 0;
    BlockValueOneCell(bytes, b, s, off);
    assert bytes[s] == 0 && Pow2(off) == 1 && Pow2(b) == 2;
    DivModUnique(bytes[s], Pow2(off), 0, 0);
    DivModUnique(0, Pow2(b), 0, 0);
  }

  /** Block 0 of the same section, corrected: the low bit of the first long. */
  lemma IntendedFirstBlock(longs: seq<int>)
    requires |longs| == 64 && longs[0] == 1
    requires forall i :: 0 <= i < |longs| ==> Fits(Long, longs[i])
    ensures IntendedBlock(longs, 0) == Ok(1)
  {
    var ws := Words(longs);
    var b, n := BitsPerBlock(|longs|), 0;
    var s, off := StartLong(b, n), StartOffset(b, n);
    assert b == 1 && s == 0 && off == 0 && EndLong(b, n) == 0;
    assert IntendedBlock(longs, n) == BlockValue(ws, b, n);
    BlockValueOneCell(ws, b, s, off);
    assert ws[s] == 1 by { FormatRanges(); }
    assert Pow2(off) == 1 && Pow2(b) == 2;
    DivModUnique(ws[s], Pow2(off), 1, 0);
    DivModUnique(1, Pow2(b), 0, 1);
  }

  /** As written, the loop indexes the byte string: with 64 longs (one bit per block)
      whose first long is 1, block 0 reads byte 0, the high byte of the first long, and
      comes out 0, where the corrected loop reads the long's low bit, 1. */
  lemma ByteIndexingLosesBits(longs: seq<int>)
    requires |longs| == 64 && longs[0] == 1
    requires forall i :: 0 <= i < |longs| ==> Fits(Long, longs[i])
    ensures StateBytes(longs).Ok?
    ensures BlockValue(StateBytes(longs).value, BitsPerBlock(|longs|), 0) == Ok(0)
    ensures IntendedBlock(longs, 0) == Ok(1)
  {
    AsWrittenFirstBlock(longs);
    IntendedFirstBlock(longs);
  }
}
