/** The three text encodings the core uses, written out so that their round trips are
    proved rather than assumed:
    - UTF-8 (RFC 3629), Python's `str.encode("utf8")` / `bytes.decode("utf8")`, used
      for TAG_String values;
    - Java's "modified UTF-8" (java.io.DataInput), the `mutf8` package, used for tag
      names: U+0000 as the two bytes C0 80, supplementary code points as a surrogate
      pair of two three-byte groups;
    - UTF-16BE (RFC 2781, section 2.1, big-endian serialisation), used by the legacy
      server-list ping.
    Decoders return None where Python raises UnicodeDecodeError. A Dafny `char` is a
    Unicode scalar value, so strings holding lone surrogates are not represented. */
module Unicode {
  import opened Python

  predicate IsScalar(n: int) { 0 <= n < 0xD800 || 0xE000 <= n <= 0x10FFFF }

  predicate IsHighSurrogate(u: int) { 0xD800 <= u < 0xDC00 }
  predicate IsLowSurrogate(u: int) { 0xDC00 <= u < 0xE000 }

  predicate IsBmp(c: char) { (c as int) < 0x10000 }

  predicate AllBmp(s: string) { forall i :: 0 <= i < |s| ==> IsBmp(s[i]) }

  predicate NoNul(s: string) { forall i :: 0 <= i < |s| ==> s[i] != '\0' }

  /** High and low UTF-16 surrogate of a supplementary code point. */
  function HighOf(n: int): (u: int)
    requires 0x10000 <= n <= 0x10FFFF
    ensures IsHighSurrogate(u)
  {
    0xD800 + (n - 0x10000) / 1024
  }

  function LowOf(n: int): (u: int)
    requires 0x10000 <= n <= 0x10FFFF
    ensures IsLowSurrogate(u)
  {
    0xDC00 + (n - 0x10000) % 1024
  }

  function CombineSurrogates(hi: int, lo: int): (n: int)
    requires IsHighSurrogate(hi) && IsLowSurrogate(lo)
    ensures 0x10000 <= n <= 0x10FFFF
  {
    0x10000 + (hi - 0xD800) * 1024 + (lo - 0xDC00)
  }

  lemma SurrogatesRoundTrip(c: char)
    requires !IsBmp(c)
    ensures CombineSurrogates(HighOf(c as int), LowOf(c as int)) == c as int
  {
  }

  // ---------------------------------------------------------------------------
  // UTF-8

  predicate IsCont(b: Byte) { 0x80 <= b < 0xC0 }

  function Utf8Char(c: char): (r: seq<Byte>)
    ensures 1 <= |r| <= 4
  {
    var n := c as int;
    if n < 0x80 then [n]
    else if n < 0x800 then [0xC0 + n / 64, 0x80 + n % 64]
    else if n < 0x10000 then [0xE0 + n / 4096, 0x80 + (n / 64) % 64, 0x80 + n % 64]
    else [0xF0 + n / 0x40000, 0x80 + (n / 4096) % 64, 0x80 + (n / 64) % 64, 0x80 + n % 64]
  }

  function Utf8Encode(s: string): (r: seq<Byte>)
    ensures |r| >= |s|
  {
    if s == [] then [] else Utf8Char(s[0]) + Utf8Encode(s[1..])
  }

  /** Decodes the first code point of bs: the shortest form only, no surrogates, nothing
      above U+10FFFF (Python's strict decoder). Returns the char and its byte count. */
  function Utf8First(bs: seq<Byte>): (r: Option<(char, nat)>)
    requires |bs| > 0
    ensures r.Some? ==> 1 <= r.value.1 <= |bs|
  {
    var b0 := bs[0] as int;
    if b0 < 0x80 then Some((b0 as char, 1))
    else if 0xC0 <= b0 < 0xE0 && |bs| >= 2 && IsCont(bs[1]) then
      var n := (b0 - 0xC0) * 64 + (bs[1] as int - 0x80);
      if n >= 0x80 then Some((n as char, 2)) else None
    else if 0xE0 <= b0 < 0xF0 && |bs| >= 3 && IsCont(bs[1]) && IsCont(bs[2]) then
      var n := (b0 - 0xE0) * 4096 + (bs[1] as int - 0x80) * 64 + (bs[2] as int - 0x80);
      if n >= 0x800 && IsScalar(n) then Some((n as char, 3)) else None
    else if 0xF0 <= b0 < 0xF8 && |bs| >= 4 && IsCont(bs[1]) && IsCont(bs[2]) && IsCont(bs[3]) then
      var n := (b0 - 0xF0) * 0x40000 + (bs[1] as int - 0x80) * 4096 + (bs[2] as int - 0x80) * 64 + (bs[3] as int - 0x80);
      if 0x10000 <= n <= 0x10FFFF then Some((n as char, 4)) else None
    else None
  }

  function Utf8Decode(bs: seq<Byte>): Option<string>
    decreases |bs|
  {
    if bs == [] then Some([])
    else match Utf8First(bs)
      case None => None
      case Some((c, k)) =>
        match Utf8Decode(bs[k..])
        case None => None
        case Some(s) => Some([c] + s)
  }

  lemma Utf8CharDecodes(c: char, rest: seq<Byte>)
    ensures Utf8First(Utf8Char(c) + rest) == Some((c, |Utf8Char(c)|))
  {
    var n := c as int;
    var bs := Utf8Char(c) + rest;
    if n >= 0x10000 {
      var a := n / 64;
      var b := a / 64;
      assert n / 4096 == b by { DivDiv(n, 64, 64); }
      assert n / 0x40000 == b / 64 by { DivDiv(n, 4096, 64); }
      assert (bs[0] as int - 0xF0) * 0x40000 + (bs[1] as int - 0x80) * 4096 + (bs[2] as int - 0x80) * 64 + (bs[3] as int - 0x80) == n;
    } else if n >= 0x800 {
      assert n / 4096 == (n / 64) / 64 by { DivDiv(n, 64, 64); }
      assert (bs[0] as int - 0xE0) * 4096 + (bs[1] as int - 0x80) * 64 + (bs[2] as int - 0x80) == n;
    }
  }

  lemma {:induction false} Utf8RoundTrip(s: string)
    ensures Utf8Decode(Utf8Encode(s)) == Some(s)
  {
    if s != [] {
      var e := Utf8Encode(s);
      assert e == Utf8Char(s[0]) + Utf8Encode(s[1..]);
      Utf8CharDecodes(s[0], Utf8Encode(s[1..]));
      assert e[|Utf8Char(s[0])|..] == Utf8Encode(s[1..]);
      Utf8RoundTrip(s[1..]);
      assert [s[0]] + s[1..] == s;
    }
  }

  // ---------------------------------------------------------------------------
  // Modified UTF-8

  /** One UTF-16 code unit in Java's modified UTF-8: NUL takes two bytes, never one. */
  function MUtf8Unit(u: nat): (r: seq<Byte>)
    requires u < 0x10000
    ensures 1 <= |r| <= 3
  {
    if u == 0 then [0xC0, 0x80]
    else if u < 0x80 then [u]
    else if u < 0x800 then [0xC0 + u / 64, 0x80 + u % 64]
    else [0xE0 + u / 4096, 0x80 + (u / 64) % 64, 0x80 + u % 64]
  }

  function MUtf8Char(c: char): (r: seq<Byte>)
    ensures 1 <= |r| <= 6
  {
    var n := c as int;
    if n < 0x10000 then MUtf8Unit(n)
    else MUtf8Unit(HighOf(n)) + MUtf8Unit(LowOf(n))
  }

  function MUtf8Encode(s: string): (r: seq<Byte>)
    ensures |r| >= |s|
  {
    if s == [] then [] else MUtf8Char(s[0]) + MUtf8Encode(s[1..])
  }

  /** Reads one UTF-16 code unit in the one-, two- or three-byte form, as
      java.io.DataInput.readUTF does. */
  function MUtf8FirstUnit(bs: seq<Byte>): (r: Option<(nat, nat)>)
    requires |bs| > 0
    ensures r.Some? ==> r.value.0 < 0x10000 && 1 <= r.value.1 <= |bs|
  {
    var b0 := bs[0] as int;
    if b0 < 0x80 then Some((b0, 1))
    else if 0xC0 <= b0 < 0xE0 && |bs| >= 2 && IsCont(bs[1]) then
      Some(((b0 - 0xC0) * 64 + (bs[1] as int - 0x80), 2))
    else if 0xE0 <= b0 < 0xF0 && |bs| >= 3 && IsCont(bs[1]) && IsCont(bs[2]) then
      Some(((b0 - 0xE0) * 4096 + (bs[1] as int - 0x80) * 64 + (bs[2] as int - 0x80), 3))
    else None
  }

  /** Reads one code point: a unit that is not a surrogate, or a high surrogate unit
      followed by a low surrogate unit. A lone surrogate is rejected. */
  function MUtf8First(bs: seq<Byte>): (r: Option<(char, nat)>)
    requires |bs| > 0
    ensures r.Some? ==> 1 <= r.value.1 <= |bs|
  {
    match MUtf8FirstUnit(bs)
    case None => None
    case Some((u, k)) =>
      if IsScalar(u) then Some((u as char, k))
      else if IsHighSurrogate(u) && k < |bs| then
        match MUtf8FirstUnit(bs[k..])
        case None => None
        case Some((v, k2)) =>
          if IsLowSurrogate(v) then Some((CombineSurrogates(u, v) as char, k + k2)) else None
      else None
  }

  function MUtf8Decode(bs: seq<Byte>): Option<string>
    decreases |bs|
  {
    if bs == [] then Some([])
    else match MUtf8First(bs)
      case None => None
      case Some((c, k)) =>
        match MUtf8Decode(bs[k..])
        case None => None
        case Some(s) => Some([c] + s)
  }

  lemma MUtf8UnitDecodes(u: nat, rest: seq<Byte>)
    requires u < 0x10000
    ensures MUtf8FirstUnit(MUtf8Unit(u) + rest) == Some((u, |MUtf8Unit(u)|))
  {
    var bs := MUtf8Unit(u) + rest;
    if u >= 0x800 {
      assert u / 4096 == (u / 64) / 64 by { DivDiv(u, 64, 64); }
      assert (bs[0] as int - 0xE0) * 4096 + (bs[1] as int - 0x80) * 64 + (bs[2] as int - 0x80) == u;
    }
  }

  lemma MUtf8CharDecodes(c: char, rest: seq<Byte>)
    ensures MUtf8First(MUtf8Char(c) + rest) == Some((c, |MUtf8Char(c)|))
  {
    var n := c as int;
    if n < 0x10000 {
      MUtf8UnitDecodes(n, rest);
    } else {
      var hi, lo := MUtf8Unit(HighOf(n)), MUtf8Unit(LowOf(n));
      var bs := MUtf8Char(c) + rest;
      assert bs == hi + (lo + rest);
      MUtf8UnitDecodes(HighOf(n), lo + rest);
      assert bs[|hi|..] == lo + rest;
      MUtf8UnitDecodes(LowOf(n), rest);
      SurrogatesRoundTrip(c);
    }
  }

  lemma {:induction false} MUtf8RoundTrip(s: string)
    ensures MUtf8Decode(MUtf8Encode(s)) == Some(s)
  {
    if s != [] {
      var e := MUtf8Encode(s);
      assert e == MUtf8Char(s[0]) + MUtf8Encode(s[1..]);
      MUtf8CharDecodes(s[0], MUtf8Encode(s[1..]));
      assert e[|MUtf8Char(s[0])|..] == MUtf8Encode(s[1..]);
      MUtf8RoundTrip(s[1..]);
      assert [s[0]] + s[1..] == s;
    }
  }

  /** The modified form never contains a zero byte, which is what lets C strings carry it. */
  lemma {:induction false} MUtf8HasNoZeroByte(s: string)
    ensures forall i :: 0 <= i < |MUtf8Encode(s)| ==> MUtf8Encode(s)[i] != 0
  {
    if s != [] {
      MUtf8HasNoZeroByte(s[1..]);
      var head := MUtf8Char(s[0]);
      assert forall i :: 0 <= i < |head| ==> head[i] != 0;
      assert MUtf8Encode(s) == head + MUtf8Encode(s[1..]);
    }
  }

  // ---------------------------------------------------------------------------
  // UTF-16BE

  function Utf16Unit(u: nat): (r: seq<Byte>)
    requires u < 0x10000
    ensures |r| == 2
  {
    [u / 256, u % 256]
  }

  function Utf16Char(c: char): (r: seq<Byte>)
    ensures |r| == (if IsBmp(c) then 2 else 4)
  {
    var n := c as int;
    if n < 0x10000 then Utf16Unit(n) else Utf16Unit(HighOf(n)) + Utf16Unit(LowOf(n))
  }

  function Utf16BeEncode(s: string): seq<Byte>
  {
    if s == [] then [] else Utf16Char(s[0]) + Utf16BeEncode(s[1..])
  }

  function Utf16First(bs: seq<Byte>): (r: Option<(char, nat)>)
    requires |bs| > 0
    ensures r.Some? ==> 1 <= r.value.1 <= |bs|
  {
    if |bs| < 2 then None
    else
      var u := bs[0] as int * 256 + bs[1];
      if IsScalar(u) then Some((u as char, 2))
      else if IsHighSurrogate(u) && |bs| >= 4 then
        var v := bs[2] as int * 256 + bs[3];
        if IsLowSurrogate(v) then Some((CombineSurrogates(u, v) as char, 4)) else None
      else None
  }

  function Utf16BeDecode(bs: seq<Byte>): Option<string>
    decreases |bs|
  {
    if bs == [] then Some([])
    else match Utf16First(bs)
      case None => None
      case Some((c, k)) =>
        match Utf16BeDecode(bs[k..])
        case None => None
        case Some(s) => Some([c] + s)
  }

  lemma Utf16CharDecodes(c: char, rest: seq<Byte>)
    ensures Utf16First(Utf16Char(c) + rest) == Some((c, |Utf16Char(c)|))
  {
    if !IsBmp(c) {
      SurrogatesRoundTrip(c);
    }
  }

  lemma {:induction false} Utf16BeRoundTrip(s: string)
    ensures Utf16BeDecode(Utf16BeEncode(s)) == Some(s)
  {
    if s != [] {
      var e := Utf16BeEncode(s);
      assert e == Utf16Char(s[0]) + Utf16BeEncode(s[1..]);
      Utf16CharDecodes(s[0], Utf16BeEncode(s[1..]));
      assert e[|Utf16Char(s[0])|..] == Utf16BeEncode(s[1..]);
      Utf16BeRoundTrip(s[1..]);
      assert [s[0]] + s[1..] == s;
    }
  }

  /** Text inside the Basic Multilingual Plane takes exactly two bytes per character. */
  lemma {:induction false} Utf16BeLengthBmp(s: string)
    requires AllBmp(s)
    ensures |Utf16BeEncode(s)| == 2 * |s|
  {
    if s != [] {
      assert IsBmp(s[0]);
      Utf16BeLengthBmp(s[1..]);
    }
  }

  lemma {:induction false} Utf16BeAppend(s: string, t: string)
    ensures Utf16BeEncode(s + t) == Utf16BeEncode(s) + Utf16BeEncode(t)
  {
    if s != [] {
      assert (s + t)[1..] == s[1..] + t;
      Utf16BeAppend(s[1..], t);
    } else {
      assert s + t == t;
    }
  }

  // ---------------------------------------------------------------------------
  // Decimal rendering, as Python's str() of an int

  function DigitChar(d: nat): (c: char)
    requires d < 10
    ensures '0' <= c <= '9'
  {
    (48 + d) as char
  }

  function NatDecimal(n: nat): (s: string)
    ensures |s| >= 1
    decreases n
  {
    if n < 10 then [DigitChar(n)] else NatDecimal(n / 10) + [DigitChar(n % 10)]
  }

  function IntDecimal(n: int): string
  {
    if n < 0 then "-" + NatDecimal(-n) else NatDecimal(n)
  }

  /** A rendered number is a '-' sign followed by digits, or digits alone. */
  lemma {:induction false} NatDecimalDigits(n: nat)
    ensures forall i :: 0 <= i < |NatDecimal(n)| ==> '0' <= NatDecimal(n)[i] <= '9'
    decreases n
  {
    if n >= 10 {
      NatDecimalDigits(n / 10);
    }
  }

  lemma IntDecimalText(n: int)
    ensures NoNul(IntDecimal(n)) && AllBmp(IntDecimal(n))
    ensures forall i :: 0 <= i < |IntDecimal(n)| ==> IntDecimal(n)[i] == '-' || '0' <= IntDecimal(n)[i] <= '9'
  {
    if n < 0 {
      NatDecimalDigits(-n);
      assert IntDecimal(n) == "-" + NatDecimal(-n);
    } else {
      NatDecimalDigits(n);
    }
  }
}
