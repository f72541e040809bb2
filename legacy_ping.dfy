/** The legacy server-list ping (pymine/net/packets/handshaking/legacy_ping.py): the
    request a pre-1.7 client sends (a 15-byte header, a protocol byte, a length-prefixed
    UTF-16BE hostname and a port) and the server's reply (0xFF, a character count and
    the NUL-separated fields in UTF-16BE). */
module LegacyPing {
  import opened Python
  import opened WireBuffer
  import opened Unicode

  const HEADER_BYTES: nat := 15

  /** `HandshakeLegacyPingRequest(protocol, hostname, port)`; `protocol` is the raw
      one-byte string `buf.read(1)` returns. */
  datatype Request = Request(protocol: seq<Byte>, hostname: string, port: int)

  function DecodeText(raw: seq<Byte>): (r: Result<string>)
    ensures r.Ok? <==> Utf16BeDecode(raw).Some?
    ensures r.Ok? ==> Utf16BeDecode(raw) == Some(r.value)
    ensures r.Err? ==> r.error == DecodeError
  {
    match Utf16BeDecode(raw)
    case None => Err(DecodeError)
    case Some(s) => Ok(s)
  }

  /** `HandshakeLegacyPingRequest.decode` read from position pos: skip the header, read
      one byte, read a signed short n and then n bytes of UTF-16BE, and finally a
      signed int. The request and the position after it, or the first failure. */
  function ParseRequest(data: seq<Byte>, pos: nat): (r: Result<(Request, nat)>)
    requires pos <= |data|
    ensures r.Ok? ==> pos + HEADER_BYTES + 7 <= r.value.1 <= |data|
  {
    var header :- ReadAt(data, pos, HEADER_BYTES);
    var protocol :- ReadAt(data, header.1, 1);
    var n :- UnpackAt(Short, data, protocol.1);
    var raw :- ReadAt(data, n.1, n.0);
    var hostname :- DecodeText(raw.0);
    var port :- UnpackAt(Int, data, raw.1);
    Ok((Request(protocol.0, hostname, port.0), port.1))
  }

  /** `HandshakeLegacyPingRequest.decode(buf)`, consuming the buffer field by field. */
  method DecodeRequest(buf: Buffer) returns (r: Result<Request>)
    requires buf.Valid()
    modifies buf
    ensures buf.Valid() && Follows(r, ParseRequest(buf.data, old(buf.pos)), buf.pos)
  {
    var header := buf.Read(HEADER_BYTES);
    if header.Err? { return Err(header.error); }
    var protocol := buf.Read(1);
    if protocol.Err? { return Err(protocol.error); }
    var n := buf.Unpack(Short);
    if n.Err? { return Err(n.error); }
    var raw := buf.Read(n.value);
    if raw.Err? { return Err(raw.error); }
    var hostname := DecodeText(raw.value);
    if hostname.Err? { return Err(hostname.error); }
    var port := buf.Unpack(Int);
    if port.Err? { return Err(port.error); }
    r := Ok(Request(protocol.value, hostname.value, port.value));
  }

  /** The fields a decoded request came from: the protocol is the byte after the header,
      the hostname the UTF-16BE decoding of the n bytes after the signed short n that
      follows it, the port the int after those; 15 + 1 + 2 + n + 4 bytes in all. */
  lemma RequestLayout(data: seq<Byte>, pos: nat)
    requires pos <= |data| && ParseRequest(data, pos).Ok?
    ensures pos + HEADER_BYTES + 3 <= |data|
    ensures var n := Decode(Short, data[pos + 16..pos + 18]);
      var (req, end) := ParseRequest(data, pos).value;
      0 <= n && end == pos + HEADER_BYTES + 1 + 2 + n + 4 <= |data| &&
      req.protocol == data[pos + 15..pos + 16] &&
      Utf16BeDecode(data[pos + 18..pos + 18 + n]) == Some(req.hostname) &&
      req.port == Decode(Int, data[pos + 18 + n..end])
  {
  }

  /** A request laid out the way the decoder reads it: the hostname's byte count in the
      length field. */
  function RequestBytes(header: seq<Byte>, protocol: Byte, hostname: string, port: int): (r: Result<seq<Byte>>)
    ensures r.Ok? <==> |Utf16BeEncode(hostname)| <= 0x7FFF && Fits(Int, port)
  {
    FormatRanges();
    var text := Utf16BeEncode(hostname);
    var count :- Pack(Short, |text|);
    var portBytes :- Pack(Int, port);
    Ok(header + [protocol] + count + text + portBytes)
  }

  /** Decoding reads back every field of such a request, and stops right after it. */
  lemma RequestRoundTrip(header: seq<Byte>, protocol: Byte, hostname: string, port: int, rest: seq<Byte>)
    requires |header| == HEADER_BYTES && RequestBytes(header, protocol, hostname, port).Ok?
    ensures var bs := RequestBytes(header, protocol, hostname, port).value;
      ParseRequest(bs + rest, 0) == Ok((Request([protocol], hostname, port), |bs|))
  {
    var text := Utf16BeEncode(hostname);
    var count, portBytes := Pack(Short, |text|).value, Pack(Int, port).value;
    var bs := RequestBytes(header, protocol, hostname, port).value;
    var data := bs + rest;
    assert bs == header + [protocol] + count + text + portBytes;
    var p := 16 + |count| + |text|;
    assert data[..15] == header && data[15..16] == [protocol];
    assert Placed(data, 16, count) by {
      assert data[16..16 + |count|] == count;
    }
    UnpackPacked(Short, |text|, data, 16);
    assert data[18..18 + |text|] == text;
    Utf16BeRoundTrip(hostname);
    assert Placed(data, p, portBytes) by {
      assert data[p..p + |portBytes|] == portBytes;
    }
    UnpackPacked(Int, port, data, p);
  }

  // ---------------------------------------------------------------------------
  // The length field counts characters

  /** What a client of the legacy protocol sends: the hostname's length in UTF-16 code
      units (characters, for text inside the Basic Multilingual Plane), the same
      convention as the character count of the response. */
  function ClientRequest(header: seq<Byte>, protocol: Byte, hostname: string, port: int): (r: Result<seq<Byte>>)
    ensures r.Ok? <==> |Utf16BeEncode(hostname)| / 2 <= 0x7FFF && Fits(Int, port)
  {
    FormatRanges();
    var text := Utf16BeEncode(hostname);
    var count :- Pack(Short, |text| / 2);
    var portBytes :- Pack(Int, port);
    Ok(header + [protocol] + count + text + portBytes)
  }

  /** As written, the decoder takes that count as a byte count: for the one-character
      hostname "a" it reads the single byte 0x00, which is not UTF-16, and fails. */
  lemma ByteCountMisreadsHostname(header: seq<Byte>, protocol: Byte, port: int)
    requires |header| == HEADER_BYTES && Fits(Int, port)
    ensures ClientRequest(header, protocol, "a", port).Ok?
    ensures ParseRequest(ClientRequest(header, protocol, "a", port).value, 0) == Err(DecodeError)
  {
    var text := Utf16BeEncode("a");
    assert text == [0, 97];
    var count, portBytes := Pack(Short, 1).value, Pack(Int, port).value;
    var data := ClientRequest(header, protocol, "a", port).value;
    assert data == header + [protocol] + count + text + portBytes;
    assert Placed(data, 16, count) by {
      assert data[16..16 + |count|] == count;
    }
    FormatRanges();
    UnpackPacked(Short, 1, data, 16);
    assert data[18..19] == [0];
    assert Utf16BeDecode([0]) == None;
  }

  /** Text of whole UTF-16 code units: an even number of bytes. */
  lemma {:induction false} Utf16BeEven(s: string)
    ensures |Utf16BeEncode(s)| % 2 == 0
  {
    if s != [] {
      Utf16BeEven(s[1..]);
    }
  }

  /** The decoder as intended: the length field counts code units, so it reads twice as
      many bytes. */
  function ParseRequestIntended(data: seq<Byte>, pos: nat): (r: Result<(Request, nat)>)
    requires pos <= |data|
    ensures r.Ok? ==> pos + HEADER_BYTES + 7 <= r.value.1 <= |data|
  {
    var header :- ReadAt(data, pos, HEADER_BYTES);
    var protocol :- ReadAt(data, header.1, 1);
    var n :- UnpackAt(Short, data, protocol.1);
    var raw :- ReadAt(data, n.1, 2 * n.0);
    var hostname :- DecodeText(raw.0);
    var port :- UnpackAt(Int, data, raw.1);
    Ok((Request(protocol.0, hostname, port.0), port.1))
  }

  /** The intended decoder reads back every field a client sends. */
  lemma ClientRequestRoundTrip(header: seq<Byte>, protocol: Byte, hostname: string, port: int, rest: seq<Byte>)
    requires |header| == HEADER_BYTES && ClientRequest(header, protocol, hostname, port).Ok?
    ensures var bs := ClientRequest(header, protocol, hostname, port).value;
      ParseRequestIntended(bs + rest, 0) == Ok((Request([protocol], hostname, port), |bs|))
  {
    var text := Utf16BeEncode(hostname);
    Utf16BeEven(hostname);
    var units := |text| / 2;
    assert 2 * units == |text|;
    var count, portBytes := Pack(Short, units).value, Pack(Int, port).value;
    var bs := ClientRequest(header, protocol, hostname, port).value;
    var data := bs + rest;
    assert bs == header + [protocol] + count + text + portBytes;
    var p := 16 + |count| + |text|;
    assert data[..15] == header && data[15..16] == [protocol];
    assert Placed(data, 16, count) by {
      assert data[16..16 + |count|] == count;
    }
    UnpackPacked(Short, units, data, 16);
    assert data[18..18 + |text|] == text;
    Utf16BeRoundTrip(hostname);
    assert Placed(data, p, portBytes) by {
      assert data[p..p + |portBytes|] == portBytes;
    }
    UnpackPacked(Int, port, data, p);
  }

  // ---------------------------------------------------------------------------
  // The response

  /** `HandshakeLegacyPingResponse(version, motd, players_online, players_max)`. */
  datatype Response = Response(version: string, motd: string, playersOnline: int, playersMax: int)

  const NUL: char := '\0'

  /** The fields joined with NUL between them. */
  function JoinNul(fields: seq<string>): (s: string)
    requires |fields| >= 1
  {
    if |fields| == 1 then fields[0] else fields[0] + [NUL] + JoinNul(fields[1..])
  }

  /** The pieces of s between NULs. */
  function SplitNul(s: string): (r: seq<string>)
    ensures |r| >= 1
  {
    if s == [] then [[]]
    else if s[0] == NUL then [[]] + SplitNul(s[1..])
    else
      var rest := SplitNul(s[1..]);
      [[s[0]] + rest[0]] + rest[1..]
  }

  lemma {:induction false} SplitNulPiece(a: string, b: string)
    requires NoNul(a)
    ensures SplitNul(a) == [a]
    ensures SplitNul(a + [NUL] + b) == [a] + SplitNul(b)
  {
    if a != [] {
      assert (a + [NUL] + b)[1..] == a[1..] + [NUL] + b;
      SplitNulPiece(a[1..], b);
      assert [a[0]] + a[1..] == a;
    } else {
      assert a + [NUL] + b == [NUL] + b;
    }
  }

  /** Splitting at NUL undoes joining with NUL, when no field holds a NUL. */
  lemma {:induction false} SplitJoin(fields: seq<string>)
    requires |fields| >= 1 && forall i :: 0 <= i < |fields| ==> NoNul(fields[i])
    ensures SplitNul(JoinNul(fields)) == fields
  {
    SplitNulPiece(fields[0], []);
    if |fields| > 1 {
      SplitNulPiece(fields[0], JoinNul(fields[1..]));
      SplitJoin(fields[1..]);
      assert fields == [fields[0]] + fields[1..];
    }
  }

  lemma {:induction false} JoinNulBmp(fields: seq<string>)
    requires |fields| >= 1 && forall i :: 0 <= i < |fields| ==> AllBmp(fields[i])
    ensures AllBmp(JoinNul(fields))
  {
    if |fields| > 1 {
      JoinNulBmp(fields[1..]);
    }
  }

  /** The section sign (U+00A7) followed by "1", the marker that opens the reply. */
  const MARKER: string := "\U{A7}1"

  /** The protocol version the reply announces. */
  const PROTOCOL: string := "127"

  /** `out_string`: the marker, "127", the motd and the two player counts in decimal,
      separated by NUL. The version is not among them. */
  function OutString(r: Response): string
  {
    MARKER + [NUL] + PROTOCOL + [NUL] + r.motd + [NUL] + IntDecimal(r.playersOnline) + [NUL] + IntDecimal(r.playersMax)
  }

  function OutFields(r: Response): seq<string>
  {
    [MARKER, PROTOCOL, r.motd, IntDecimal(r.playersOnline), IntDecimal(r.playersMax)]
  }

  lemma OutStringFields(r: Response)
    ensures OutString(r) == JoinNul(OutFields(r))
  {
    var f := OutFields(r);
    assert JoinNul(f[4..]) == f[4];
    assert JoinNul(f[3..]) == f[3] + [NUL] + f[4];
    assert JoinNul(f[2..]) == f[2] + [NUL] + f[3] + [NUL] + f[4];
    assert JoinNul(f[1..]) == f[1] + [NUL] + f[2] + [NUL] + f[3] + [NUL] + f[4];
  }

  /** `HandshakeLegacyPingResponse.encode`: 0xFF, the character count of out_string as
      a signed short (struct.error past 32767), then out_string in UTF-16BE. */
  function EncodeResponse(r: Response): (bs: Result<seq<Byte>>)
    ensures bs.Ok? <==> |OutString(r)| <= 0x7FFF
  {
    FormatRanges();
    var out := OutString(r);
    var count :- Pack(Short, |out|);
    Ok([0xFF] + count + Utf16BeEncode(out))
  }

  /** The reply opens with 0xFF and the big-endian character count of out_string, and
      carries out_string in UTF-16BE after them. */
  lemma ResponseLayout(r: Response)
    requires EncodeResponse(r).Ok?
    ensures var bs := EncodeResponse(r).value;
      |bs| >= 3 && bs[0] == 0xFF && Decode(Short, bs[1..3]) == |OutString(r)| &&
      bs[3..] == Utf16BeEncode(OutString(r)) && Utf16BeDecode(bs[3..]) == Some(OutString(r))
  {
    FormatRanges();
    var bs := EncodeResponse(r).value;
    var count := Pack(Short, |OutString(r)|).value;
    assert bs[1..3] == count;
    PackDecode(Short, |OutString(r)|);
    Utf16BeRoundTrip(OutString(r));
  }

  /** A client splitting the reply's text at NUL gets the marker, "127", the motd and
      the two counts in decimal, in that order, when the motd holds no NUL. */
  lemma ResponseFields(r: Response)
    requires NoNul(r.motd)
    ensures SplitNul(OutString(r)) ==
      [MARKER, PROTOCOL, r.motd, IntDecimal(r.playersOnline), IntDecimal(r.playersMax)]
  {
    OutStringFields(r);
    IntDecimalText(r.playersOnline);
    IntDecimalText(r.playersMax);
    SplitJoin(OutFields(r));
  }

  /** For a motd inside the Basic Multilingual Plane the reply is 3 + 2 * len(out_string)
      bytes long. */
  lemma ResponseLength(r: Response)
    requires EncodeResponse(r).Ok? && AllBmp(r.motd)
    ensures |EncodeResponse(r).value| == 3 + 2 * |OutString(r)|
  {
    OutStringFields(r);
    IntDecimalText(r.playersOnline);
    IntDecimalText(r.playersMax);
    assert AllBmp(MARKER) && AllBmp(PROTOCOL);
    JoinNulBmp(OutFields(r));
    Utf16BeLengthBmp(OutString(r));
  }

  /** As written, the version never reaches the wire: two responses that differ only
      in their version encode to the same bytes. */
  lemma VersionIgnored(r: Response, version: string)
    ensures EncodeResponse(r.(version := version)) == EncodeResponse(r)
  {
    assert OutString(r.(version := version)) == OutString(r);
  }

  /** The reply as the example in the source lays it out: the version between the
      protocol and the motd. */
  function OutStringIntended(r: Response): string
  {
    MARKER + [NUL] + PROTOCOL + [NUL] + r.version + [NUL] + r.motd + [NUL] +
      IntDecimal(r.playersOnline) + [NUL] + IntDecimal(r.playersMax)
  }

  function EncodeResponseIntended(r: Response): (bs: Result<seq<Byte>>)
    ensures bs.Ok? <==> |OutStringIntended(r)| <= 0x7FFF
  {
    FormatRanges();
    var out := OutStringIntended(r);
    var count :- Pack(Short, |out|);
    Ok([0xFF] + count + Utf16BeEncode(out))
  }

  function OutFieldsIntended(r: Response): seq<string>
  {
    [MARKER, PROTOCOL, r.version, r.motd, IntDecimal(r.playersOnline), IntDecimal(r.playersMax)]
  }

  lemma OutStringIntendedFields(r: Response)
    ensures OutStringIntended(r) == JoinNul(OutFieldsIntended(r))
  {
    var f := OutFieldsIntended(r);
    assert JoinNul(f[5..]) == f[5];
    assert JoinNul(f[4..]) == f[4] + [NUL] + f[5];
    assert JoinNul(f[3..]) == f[3] + [NUL] + f[4] + [NUL] + f[5];
    assert JoinNul(f[2..]) == f[2] + [NUL] + f[3] + [NUL] + f[4] + [NUL] + f[5];
    assert JoinNul(f[1..]) == f[1] + [NUL] + f[2] + [NUL] + f[3] + [NUL] + f[4] + [NUL] + f[5];
  }

  /** The corrected reply opens with 0xFF and carries the corrected text. */
  lemma ResponseLayoutIntended(r: Response)
    requires EncodeResponseIntended(r).Ok?
    ensures var bs := EncodeResponseIntended(r).value;
      |bs| >= 3 && bs[0] == 0xFF && Decode(Short, bs[1..3]) == |OutStringIntended(r)| &&
      Utf16BeDecode(bs[3..]) == Some(OutStringIntended(r))
  {
    FormatRanges();
    var bs := EncodeResponseIntended(r).value;
    var count := Pack(Short, |OutStringIntended(r)|).value;
    assert bs[1..3] == count;
    PackDecode(Short, |OutStringIntended(r)|);
    assert bs[3..] == Utf16BeEncode(OutStringIntended(r));
    Utf16BeRoundTrip(OutStringIntended(r));
  }

  /** The corrected text carries all six fields, the version third. */
  lemma ResponseFieldsIntended(r: Response)
    requires NoNul(r.motd) && NoNul(r.version)
    ensures SplitNul(OutStringIntended(r)) ==
      [MARKER, PROTOCOL, r.version, r.motd, IntDecimal(r.playersOnline), IntDecimal(r.playersMax)]
  {
    OutStringIntendedFields(r);
    IntDecimalText(r.playersOnline);
    IntDecimalText(r.playersMax);
    SplitJoin(OutFieldsIntended(r));
  }

  /** Under the correction, responses that differ in their version encode differently. */
  lemma VersionDistinguished(r: Response, version: string)
    requires NoNul(r.motd) && NoNul(r.version) && NoNul(version) && version != r.version
    requires EncodeResponseIntended(r).Ok? && EncodeResponseIntended(r.(version := version)).Ok?
    ensures EncodeResponseIntended(r.(version := version)) != EncodeResponseIntended(r)
  {
    var r2 := r.(version := version);
    ResponseLayoutIntended(r);
    ResponseLayoutIntended(r2);
    ResponseFieldsIntended(r);
    ResponseFieldsIntended(r2);
    assert SplitNul(OutStringIntended(r))[2] != SplitNul(OutStringIntended(r2))[2];
  }
}
