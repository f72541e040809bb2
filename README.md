# PyMine core, modelled in Dafny

This project models the core of PyMine, a Minecraft server written in Python. It covers:

- **NBT** (`pymine/types/nbt.py`): the tag classes TAG_End … TAG_List, their `encode` methods, and their `from_buf` decoders over a byte-buffer cursor.
- **Chunk sections and chunks** (`pymine/types/chunk.py`):
  - unpacking of the `BlockStates` long array into 4096 block states, as written;
  - the light nibble arrays;
  - section loading and indexing;
  - the `Chunk` object over a level compound.
- **Players** (`pymine/types/player.py`): the `Player` object, its UUID packing into four signed 32-bit ints, and the fresh-player NBT template.
- **The plugin registry** (`pymine/api/register.py`): world generators, packet handlers in four per-state tables, and server start/stop events.
- **The handshake handler** (`pymine/logic/handle/handshaking.py`): it records a client's next state.
- **The legacy (pre-Netty) ping packets** (`pymine/net/packets/handshaking/legacy_ping.py`): decoding the request and encoding the response.
- **The chat-format tables** (`pymine/data/formats.py`): FORMAT_BY_CODE, FORMAT_BY_NAME and TERMINAL_CODES.

Modules:

- `Python`: `Result`/`Option`, the exception kinds, Python-style negative indexing, and bit operations on naturals.
- `Unicode`: concrete codecs with proved round trips. These are UTF-8 (`str.encode("utf8")`), modified UTF-8 (the `mutf8` package) and UTF-16BE.
- `WireBuffer`: the big-endian `struct` formats `b`, `h`, `H`, `i` and `q`, and a `Buffer` class.
  - The `Buffer` class has the byte string and a read cursor. `read(n)` fails past the end or for a negative `n`.
- `Nbt`: tags as a datatype, and encoders as functions.
  - Each decoder is a pure parser, `ParseX(data, pos)`.
  - Each decoder also has a `XFromBuf` method that advances a `Buffer` exactly as its parser says.
  - The counted loop of `TAG_List.from_buf` is a `while` loop proved against `ParseItems`.
- `ChunkBits`: the arithmetic of `ChunkSection.from_nbt`'s unpacking loop: indices, masks, word spans, and the value read for block n.
- `Chunks`:
  - `ChunkSection` is a class whose block-state and light arrays are Dafny `array`s. `FromNbt` fills the block-state array with the source's loop.
  - `Chunk` is a class with the level compound and a section table.
- `Players`: the `Player` class and the `new_nbt` template.
- `Registry`: the `Register` class with its four tables.
- `Handshaking`: the server's state cache and the handler.
- `LegacyPing`: the request decoder and the response encoder.
- `FormatRows` and `Formats`: the formats as a 22-constructor datatype, and the three tables derived from it.

Each method is proved against a function of its inputs and old state. The functions carry the source's promises as lemmas:

- NBT: decoding an encoded tag gives the tag back.
- Chunks:
  - block indices are a bijection onto 0..4095;
  - every unpacked state lies below 2^B;
  - loading fails with the source's exception exactly when the source would raise.
- Players: the UUID round trip.
- Registry:
  - registration frames;
  - overwrite and accumulation;
  - commutation.
- LegacyPing: the request and response layouts.
- Formats: the two format tables invert each other.

## Model

| member | source | states |
|---|---|---|
| ChunkBits.CoordsOfIndex | pymine/types/chunk.py:94-97 | every (y, z, x) in 0..15³ gets a block number in 0..4095 from which the three coordinates are recovered, so no two positions share a slot |
| ChunkBits.IndexOfCoords | pymine/types/chunk.py:94-97 | every slot 0..4095 is the block number of some in-range (y, z, x): the triple loop writes every cell of the section |
| ChunkBits.BitsPerBlockOfLength | pymine/types/chunk.py:72-75 | b bits per block serialise into 4096·b/64 longs, and `len(BlockStates) // 64` gives b back |
| ChunkBits.MaskKeepsLowBits | pymine/types/chunk.py:77 | `v & ((1 << B) - 1)` is v mod 2^B, hence below 2^B |
| ChunkBits.WordSpan | pymine/types/chunk.py:98-102 | a block of 1..64 bits ends in its start word or the next one, and it stays in its start word exactly when offset + B ≤ 64 |
| ChunkBits.DivisorStaysInWord | pymine/types/chunk.py:98-102 | when B divides 64, the single-word branch is always the one taken |
| ChunkBits.IndicesInRange | pymine/types/chunk.py:91-105 | with at least 64 longs, `start_long` and `end_long` of every block are valid indices below the number of longs |
| ChunkBits.BlockValue | pymine/types/chunk.py:98-107 | the value the loop stores for block n is below 2^B, or reading it raises IndexError |
| ChunkBits.Extract | pymine/types/chunk.py:102-107 | given explicit start and end indices, the one-word and two-word reads give a value below 2^B, or IndexError, with Python's negative indexing |
| ChunkBits.BlockValueZeroBits | pymine/types/chunk.py:75-107 | with B = 0, every block reads 0 when the byte string is non-empty, and an empty one raises IndexError |
| ChunkBits.BlockValueDefined | pymine/types/chunk.py:91-107 | with at least 64 longs, no block read fails |
| ChunkBits.StateBytes | pymine/types/chunk.py:91 | `b"".join([struct.pack(">q", n) for n in tag["BlockStates"]])` succeeds exactly when every long fits in 64 signed bits, and gives 8·L bytes, eight per long in order |
| ChunkBits.StateBytesHead | pymine/types/chunk.py:91 | the first eight bytes are the big-endian bytes of the first long |
| ChunkBits.Words | pymine/types/chunk.py:91 | the longs as unsigned 64-bit words, one per long, each the two's-complement reading |
| ChunkBits.BlockValueOfWords | pymine/types/chunk.py:98-107 | over 64-bit words, the loop body extracts exactly bits n·B … n·B+B-1 of the little-endian word stream, in both the one-word and the two-word branch |
| ChunkBits.IntendedBlock | pymine/types/chunk.py:98-107 | the corrected read is bits n·B … n·B+B-1 of the packed long array |
| ChunkBits.AsWrittenFirstBlock | pymine/types/chunk.py:91-105 | for 64 longs whose first is 1, the loop as written stores 0 for block 0 |
| ChunkBits.IntendedFirstBlock | pymine/types/chunk.py:98-107 | for the same input, the corrected read gives 1 for block 0 |
| ChunkBits.ByteIndexingLosesBits | pymine/types/chunk.py:103-105 | the two disagree: indexing the byte string instead of the longs loses the block's bits |
| Chunks.LowNibble | pymine/types/chunk.py:116 | `b & 0x0F` is b mod 16 |
| Chunks.HighNibble | pymine/types/chunk.py:116 | `(b >> 4) & 0x0F` is b div 16 |
| Chunks.Nibbles | pymine/types/chunk.py:113-118 | two nibbles per byte, each in 0..15 |
| Chunks.NibblePairs | pymine/types/chunk.py:116-118 | nibble 2k is byte k's low half and nibble 2k+1 its high half |
| Chunks.PackNibbles | pymine/types/chunk.py:116-118 | the inverse direction: byte k is nibble 2k + 16 · nibble 2k+1 |
| Chunks.NibblesRoundTrip | pymine/types/chunk.py:116-118 | packing the nibbles of a byte array gives the bytes back: no light information is lost |
| Chunks.Light | pymine/types/chunk.py:113-125 | a missing light array stays None; a present one decodes exactly when it has 2048 bytes (4096 nibbles), and a wrong size raises ValueError from the reshape |
| Chunks.LightNibbles | pymine/types/chunk.py:113-125 | a decoded light array holds byte k's low and high nibbles at 2k and 2k+1, all in 0..15 |
| Chunks.DecodeBlocks | pymine/types/chunk.py:93-107 | the block states succeed exactly when every one of the 4096 reads does, and each lies in [0, 2^B); IndexError otherwise |
| Chunks.DecodeBlocksOk | pymine/types/chunk.py:75-107 | the loop fails exactly when BlockStates is empty; with 1..63 longs every block state is 0 |
| Chunks.FillBlockStates | pymine/types/chunk.py:93-107 | the triple loop writes into the array exactly the block states DecodeBlocks describes, or raises the same IndexError |
| Chunks.WithLights | pymine/types/chunk.py:113-125 | the section gets its light arrays exactly when both decode; the y, palette and block states are kept |
| Chunks.SectionSpec | pymine/types/chunk.py:65-127 | a decoded section has its Y tag and both light arrays decoded from the tag |
| Chunks.SectionSpecOk | pymine/types/chunk.py:65-127 | `from_nbt` succeeds exactly when Y is present, any BlockStates array is non-empty with longs that fit 64 bits, and each present light array has 2048 bytes |
| Chunks.SectionBlocksInRange | pymine/types/chunk.py:72-107 | with BlockStates, y is the tag's number, the palette is resolved with B = len // 64 (direct when there is no Palette), and all 4096 states are below 2^B |
| Chunks.FewLongsGiveZeros | pymine/types/chunk.py:75-107 | fewer than 64 longs give zero bits per block and every block state 0 |
| Chunks.SectionWithoutStates | pymine/types/chunk.py:108-109 | without BlockStates the section keeps the Y tag itself and has no palette and no block states |
| Chunks.Axis | pymine/types/chunk.py:41-46 | a coordinate indexes a 16-long axis exactly when it lies in -16..15, counting negatives from the end |
| Chunks.At | pymine/types/chunk.py:41-46 | reading one cell succeeds exactly for in-range coordinates, gives the cell at `y*256 + z*16 + x` for 0..15, and raises IndexError otherwise |
| Chunks.AtWraps | pymine/types/chunk.py:41-46 | a coordinate minus 16 reads the same cell (Python negative indexing) |
| Chunks.Component | pymine/types/chunk.py:41-46 | a missing array reads None at any index; a present one reads as At |
| Chunks.Zeros | pymine/types/chunk.py:59-61 | `np.zeros((16, 16, 16))` flattened: 4096 zeros |
| Chunks.ChunkSection.constructor | pymine/types/chunk.py:30-36 | a new section holds its y and palette, and no arrays |
| Chunks.ChunkSection.New | pymine/types/chunk.py:54-63 | `ChunkSection.new` gives a fresh section whose three arrays are all zeros |
| Chunks.ChunkSection.FromNbt | pymine/types/chunk.py:65-127 | `from_nbt` succeeds exactly when SectionSpec does, raises SectionSpec's error otherwise, and the fresh section's state is SectionSpec's value |
| Chunks.ChunkSection.GetItem | pymine/types/chunk.py:41-46 | `section[y, z, x]` gives the (block state, block light, sky light) triple at the cell; it fails with IndexError exactly when an index is out of range for some present array |
| Chunks.ChunkSection.Get | pymine/types/chunk.py:48-52 | `get` returns the default when indexing raises KeyError; indexing only ever raises IndexError, which that handler does not catch, so `get` always equals `__getitem__` |
| Chunks.Lookup | pymine/types/chunk.py:132-143 | a compound lookup gives the entry exactly when the key is present |
| Chunks.NumberOf | pymine/types/chunk.py:132-136 | reading DataVersion, xPos or zPos succeeds exactly for a present numeric tag, and gives its number |
| Chunks.SectionTagsOf | pymine/types/chunk.py:140-142 | reading Sections succeeds exactly for a present list of section tags |
| Chunks.SectionTableOk | pymine/types/chunk.py:142-143 | the section table is built exactly when every section tag decodes |
| Chunks.SectionTableKeys | pymine/types/chunk.py:142-143 | its keys are exactly the sections' Y values |
| Chunks.SectionTableLast | pymine/types/chunk.py:142-143 | a section whose Y no later section repeats is the one stored under that Y (the loop's later assignment overwrites the earlier one) |
| Chunks.SectionTablePrefixErr | pymine/types/chunk.py:142-143 | the first failing section decides the error: later sections are not read |
| Chunks.BuildSections | pymine/types/chunk.py:142-143 | the loop builds a map of fresh ChunkSection objects with exactly SectionTable's keys and values, or fails with its error |
| Chunks.TableValuesOf | pymine/types/chunk.py:142-143 | a table of section objects whose values match a section table denotes that table |
| Chunks.ChunkSpecOk | pymine/types/chunk.py:131-148 | `Chunk(tag, timestamp)` succeeds exactly when DataVersion, Level, numeric xPos and zPos, and a Sections list whose every section decodes are present |
| Chunks.ChunkSpecFields | pymine/types/chunk.py:131-148 | the loaded chunk's x and z are xPos and zPos, its data version is DataVersion, and its data is Level minus exactly Sections, xPos and zPos, every other entry unchanged |
| Chunks.Chunk.constructor | pymine/types/chunk.py:131-148 | the object holds exactly the given fields |
| Chunks.Chunk.Load | pymine/types/chunk.py:131-148 | construction succeeds or raises exactly as ChunkSpec, and the new chunk's fields and section table are ChunkSpec's |
| Chunks.Chunk.GetItem | pymine/types/chunk.py:153-157 | a string key reads the level data and an integer key the section table; a missing key raises KeyError |
| Chunks.Chunk.SetItem | pymine/types/chunk.py:159-163 | assignment updates exactly the data or the section table entry for the key, after which it reads back the value; nothing else changes |
| Chunks.Chunk.Get | pymine/types/chunk.py:168-172 | `get` gives the item when `__getitem__` finds it and the default on KeyError |
| Nbt.KindOf | pymine/types/nbt.py:7 | each tag's class is the entry of TYPES at its type id |
| Nbt.MetaLayout | pymine/types/nbt.py:24-26 | `encode_meta` writes the id byte, the name's modified-UTF-8 length as an unsigned short and the name bytes; it fails only for a missing name or one over 65535 bytes |
| Nbt.ParseMeta | pymine/types/nbt.py:28-30 | a successful meta read consumes at least three bytes and stays in the data |
| Nbt.MetaRoundTrip | pymine/types/nbt.py:24-30 | `meta_from_buf` reads back the id and name that `encode_meta` wrote, and stops right after them |
| Nbt.MetaFromBuf | pymine/types/nbt.py:28-30 | the buffer method returns ParseMeta's result and leaves the cursor where ParseMeta ends; on error the cursor is left unspecified |
| Nbt.EndLayout | pymine/types/nbt.py:55-61 | TAG_End encodes as the single byte 0, and its decoder accepts exactly that byte (AssertionError for any other) |
| Nbt.EndDecodes | pymine/types/nbt.py:55-61 | decoding the encoded TAG_End gives TAG_End and consumes one byte |
| Nbt.EndFromBuf | pymine/types/nbt.py:58-61 | the buffer method follows ParseEnd |
| Nbt.ByteLayout | pymine/types/nbt.py:78-82 | TAG_Byte writes its meta and then one signed byte holding the value |
| Nbt.ByteDecodes | pymine/types/nbt.py:78-90 | TAG_Byte's decoder reads back the name and the value its encoder wrote |
| Nbt.ByteFromBuf | pymine/types/nbt.py:84-90 | the buffer method follows ParseByte |
| Nbt.FixedWidthLayout | pymine/types/nbt.py:107-152 | TAG_Short, TAG_Int and TAG_Long encode exactly when the value fits the format, as that value alone in 2, 4 or 8 big-endian bytes, with neither id nor name |
| Nbt.FixedDecodes | pymine/types/nbt.py:107-156 | their decoders read back the value their encoders wrote |
| Nbt.ShortFromBuf | pymine/types/nbt.py:110-112 | the buffer method follows ParseShort |
| Nbt.IntFromBuf | pymine/types/nbt.py:132-134 | the buffer method follows ParseInt |
| Nbt.LongFromBuf | pymine/types/nbt.py:154-156 | the buffer method follows ParseLong |
| Nbt.FloatFromBuf | pymine/types/nbt.py:176-178 | the buffer method follows ParseFloat: it reads a 4-byte bit pattern |
| Nbt.EncodeDouble | pymine/types/nbt.py:195-196 | TAG_Double writes eight bytes |
| Nbt.DoubleDecodes | pymine/types/nbt.py:195-200 | TAG_Double's decoder reads back the 64-bit pattern its encoder wrote |
| Nbt.DoubleFromBuf | pymine/types/nbt.py:198-200 | the buffer method follows ParseDouble |
| Nbt.PackSignedBytes | pymine/types/nbt.py:218 | `pack_array("b", ...)` writes one byte per element |
| Nbt.PackSignedBytesDefined | pymine/types/nbt.py:215-218 | the bytes of a byte array (0..127) always pack |
| Nbt.ByteArrayLayout | pymine/types/nbt.py:217-218 | TAG_Byte_Array writes a 4-byte element count, then one byte per element |
| Nbt.UnpackSignedBytes | pymine/types/nbt.py:222 | `unpack_array("b", n)` yields n values (none for n ≤ 0) and stays in the data |
| Nbt.UnpackSignedOfPacked | pymine/types/nbt.py:218-222 | unpacking the packed bytes gives them back |
| Nbt.UnpackSignedBytesFromBuf | pymine/types/nbt.py:222 | the counted unpack loop over the buffer follows UnpackSignedBytes |
| Nbt.ByteArrayDecodes | pymine/types/nbt.py:217-222 | TAG_Byte_Array's decoder reads back the bytes its encoder wrote |
| Nbt.ByteArrayFromBuf | pymine/types/nbt.py:220-222 | the buffer method follows ParseByteArray |
| Nbt.StringLayout | pymine/types/nbt.py:239-241 | TAG_String's 2-byte prefix counts UTF-8 bytes, not characters, and the UTF-8 bytes follow |
| Nbt.StringDecodes | pymine/types/nbt.py:239-245 | TAG_String's decoder reads back the string its encoder wrote |
| Nbt.StringFromBuf | pymine/types/nbt.py:243-245 | the buffer method follows ParseString |
| Nbt.ListLayout | pymine/types/nbt.py:260-265 | TAG_List writes the first element's type id, a 4-byte count and the elements' encodings in order; an empty list raises IndexError |
| Nbt.EncodeAllConcat | pymine/types/nbt.py:264 | the joined encodings of two lists concatenate |
| Nbt.ParseItems | pymine/types/nbt.py:270 | the counted read yields exactly `count` elements (none for count ≤ 0) and stays in the data |
| Nbt.ParseItemsCons | pymine/types/nbt.py:270 | the first element is read first, then the remaining count - 1 from where it ended |
| Nbt.ItemsDecodeEncoded | pymine/types/nbt.py:264-270 | reading as many elements of one class as were encoded back from their joined encodings gives the items and ends after them |
| Nbt.ListHeaderDecodes | pymine/types/nbt.py:262-270 | the decoder reads back the element type id and the element count the encoder wrote |
| Nbt.ListDecodes | pymine/types/nbt.py:260-270 | TAG_List's decoder reads back a uniform list its encoder wrote |
| Nbt.ItemsFromBuf | pymine/types/nbt.py:270 | the counted `for` loop over the buffer follows ParseItems: the same elements in order, or its first error |
| Nbt.ReadItem | pymine/types/nbt.py:270 | one turn of that loop: the element read extends the list read so far, or its error ends the whole read |
| Nbt.ListFromBuf | pymine/types/nbt.py:267-270 | the buffer method follows ParseList |
| Nbt.ParseTag | pymine/types/nbt.py:269-270 | dispatching on the class from TYPES: a successful read consumes at least one byte and stays in the data |
| Nbt.FromBuf | pymine/types/nbt.py:269-270 | `TYPES[type_id].from_buf(buf)` follows ParseTag |
| Nbt.EncodeDefined | pymine/types/nbt.py:55-265 | every round-tripping tag encodes without error |
| Nbt.DecodeEncoded | pymine/types/nbt.py:55-270 | every tag the decoders can give back, placed anywhere in a byte string, is decoded by its class's `from_buf` into itself, consuming exactly its encoding |
| Nbt.RoundTrip | pymine/types/nbt.py:55-270 | `from_buf(encode(t)) == t` for every such tag, ending at the end of the encoding |
| Registry.QualifiedName | pymine/api/register.py:61 | the key is the module name, a dot and the qualified name, each recoverable |
| Registry.StateIndex | pymine/api/register.py:61 | indexing the four-table tuple succeeds exactly for state ids -4..3, counting negatives from the end |
| Registry.AddHandler | pymine/api/register.py:60-63 | after registration the packet id is a key and the handler is stored under its qualified name; no other packet id appears |
| Registry.AddHandlerFrame | pymine/api/register.py:60-63 | registration changes no other packet id and no other name under the same packet id |
| Registry.AddHandlerNewId | pymine/api/register.py:62-63 | a packet id seen for the first time gets a table holding just this handler |
| Registry.AddHandlerOverwrites | pymine/api/register.py:61 | re-registering under the same qualified name replaces the earlier handler without trace |
| Registry.AddHandlerAccumulates | pymine/api/register.py:61 | handlers with distinct names accumulate under one packet id, independent of registration order |
| Registry.Register.constructor | pymine/api/register.py:26-36 | a new registry has all six tables empty |
| Registry.Register.AddWorldGenerator | pymine/api/register.py:38-47 | the class is stored under the name exactly when it is a world generator; otherwise ValueError and nothing changes |
| Registry.Register.OnPacket | pymine/api/register.py:49-67 | a non-coroutine raises ValueError; a bound method comes back as a PacketEvent, unstored; an out-of-range state raises IndexError; otherwise the state's table becomes AddHandler of it and the function comes back |
| Registry.Register.OnServerStart | pymine/api/register.py:69-73 | a coroutine function comes back wrapped in a ServerStartEvent, and anything else raises ValueError |
| Registry.Register.OnServerStop | pymine/api/register.py:75-79 | a coroutine function comes back wrapped in a ServerStopEvent, and anything else raises ValueError |
| Handshaking.HandshakeName | pymine/logic/handle/handshaking.py:7-8 | the handler is stored as `pymine.logic.handle.handshaking.handshake` |
| Handshaking.AfterHandshake | pymine/logic/handle/handshaking.py:9 | the remote's state becomes the requested next state, and every other remote keeps its entry |
| Handshaking.Handshake | pymine/logic/handle/handshaking.py:8-9 | the handler leaves the cache as AfterHandshake of the old cache |
| Handshaking.HandshakeOverwrites | pymine/logic/handle/handshaking.py:9 | a second handshake from the same remote overwrites the first |
| Handshaking.HandshakesCommute | pymine/logic/handle/handshaking.py:9 | handshakes from distinct remotes commute |
| Handshaking.HandshakeGrowsByOne | pymine/logic/handle/handshaking.py:9 | a handshake adds at most one remote, and none for a known remote |
| Handshaking.RegisterHandshake | pymine/logic/handle/handshaking.py:7 | the decorator stores the handler in the handshaking table under packet 0x00 and its name, leaves the other three tables, the generators and the start and stop handlers alone, and gives the function back |
| LegacyPing.DecodeText | pymine/net/packets/handshaking/legacy_ping.py:55 | `.decode("UTF-16BE")` succeeds exactly on valid UTF-16BE, else raises a decode error |
| LegacyPing.ParseRequest | pymine/net/packets/handshaking/legacy_ping.py:53-55 | a decoded request consumes at least 15 + 1 + 2 + 4 bytes |
| LegacyPing.DecodeRequest | pymine/net/packets/handshaking/legacy_ping.py:52-55 | the buffer method follows ParseRequest |
| LegacyPing.RequestLayout | pymine/net/packets/handshaking/legacy_ping.py:54-55 | after 15 skipped bytes, the protocol is the next byte, the hostname the UTF-16BE decoding of the n bytes after the signed short n, and the port the int after them |
| LegacyPing.RequestBytes | pymine/net/packets/handshaking/legacy_ping.py:55 | the bytes a request must have for this decoder: they exist exactly when the hostname's byte count fits a short and the port fits an int |
| LegacyPing.RequestRoundTrip | pymine/net/packets/handshaking/legacy_ping.py:55 | the decoder reads every field back from such bytes and stops right after them |
| LegacyPing.ClientRequest | pymine/net/packets/handshaking/legacy_ping.py:55 | what a client sends: the hostname's length in UTF-16 code units, the convention the response uses |
| LegacyPing.ByteCountMisreadsHostname | pymine/net/packets/handshaking/legacy_ping.py:55 | the decoder as written fails on the client request for hostname "a" |
| LegacyPing.Utf16BeEven | pymine/net/packets/handshaking/legacy_ping.py:55 | UTF-16BE text has an even number of bytes |
| LegacyPing.ParseRequestIntended | pymine/net/packets/handshaking/legacy_ping.py:55 | the corrected decoder, which reads twice the count in bytes, consumes at least 22 bytes |
| LegacyPing.ClientRequestRoundTrip | pymine/net/packets/handshaking/legacy_ping.py:55 | the corrected decoder reads every client request back and stops right after it |
| LegacyPing.SplitNul | pymine/net/packets/handshaking/legacy_ping.py:90 | splitting at NUL gives at least one field |
| LegacyPing.SplitNulPiece | pymine/net/packets/handshaking/legacy_ping.py:90 | a NUL-free piece is one field, and a piece followed by NUL is split off first |
| LegacyPing.SplitJoin | pymine/net/packets/handshaking/legacy_ping.py:90 | NUL-joined NUL-free fields split back into those fields |
| LegacyPing.JoinNulBmp | pymine/net/packets/handshaking/legacy_ping.py:90 | joining Basic-Multilingual-Plane fields stays in that plane |
| LegacyPing.OutStringFields | pymine/net/packets/handshaking/legacy_ping.py:90 | out_string is the marker, "127", the motd and the two counts, joined by NUL |
| LegacyPing.EncodeResponse | pymine/net/packets/handshaking/legacy_ping.py:90-91 | the response encodes exactly when out_string's length fits a signed short |
| LegacyPing.ResponseLayout | pymine/net/packets/handshaking/legacy_ping.py:90-91 | the reply is 0xFF, out_string's character count as a big-endian short, and out_string in UTF-16BE, which decodes back |
| LegacyPing.ResponseFields | pymine/net/packets/handshaking/legacy_ping.py:90 | a client splitting the text at NUL gets the marker, "127", the motd and the two counts in decimal, when the motd holds no NUL |
| LegacyPing.ResponseLength | pymine/net/packets/handshaking/legacy_ping.py:90-91 | for a motd in the Basic Multilingual Plane the reply is 3 + 2·len(out_string) bytes |
| LegacyPing.VersionIgnored | pymine/net/packets/handshaking/legacy_ping.py:78-91 | the encoder as written gives the same bytes whatever the version |
| LegacyPing.OutStringIntendedFields | pymine/net/packets/handshaking/legacy_ping.py:85-88 | the corrected out_string is the marker, "127", the version, the motd and the counts, joined by NUL, as in the example of the comment |
| LegacyPing.EncodeResponseIntended | pymine/net/packets/handshaking/legacy_ping.py:85-91 | the corrected response encodes exactly when its text's length fits a signed short |
| LegacyPing.ResponseLayoutIntended | pymine/net/packets/handshaking/legacy_ping.py:85-91 | the corrected reply has the layout of ResponseLayout with the corrected text |
| LegacyPing.ResponseFieldsIntended | pymine/net/packets/handshaking/legacy_ping.py:85-88 | a client splitting the corrected text gets the marker, "127", the version, the motd and the counts |
| LegacyPing.VersionDistinguished | pymine/net/packets/handshaking/legacy_ping.py:85-88 | in the corrected encoder, two different versions give different replies |
| Players.UuidBytes | pymine/types/player.py:98 | `uuid.bytes`: 16 big-endian bytes |
| Players.UnpackInts | pymine/types/player.py:98 | `struct.unpack(">iiii", ...)`: four signed 32-bit ints, the i-th read from bytes 4i..4i+3 |
| Players.PackInts | pymine/types/player.py:31 | `struct.pack(">iiii", ...)` succeeds exactly for four ints that fit 32 signed bits and gives 16 bytes; otherwise struct.error |
| Players.IntsOfUuid | pymine/types/player.py:98 | a UUID becomes four signed 32-bit ints |
| Players.UuidOfInts | pymine/types/player.py:31 | four ints give a UUID exactly when they pack, and struct.error otherwise |
| Players.UuidRoundTrip | pymine/types/player.py:31-98 | packing the template's four ints gives back the UUID they were made from |
| Players.IntsRoundTrip | pymine/types/player.py:31-98 | unpacking a packed UUID gives back the four ints |
| Players.UuidOf | pymine/types/player.py:31 | a player's UUID comes from `data["UUID"]`: KeyError when absent, TypeError when it is not an int array (the `*data["UUID"]` unpacking fails), struct.error when its ints do not pack |
| Players.NewNbt | pymine/types/player.py:84-256 | the template is built exactly when spawn has at least three coordinates, and raises IndexError otherwise |
| Players.PlacementSpawn | pymine/types/player.py:208-210 | the placement entries hold SpawnX, SpawnY and SpawnZ as given |
| Players.PlacementOthers | pymine/types/player.py:98-219 | the placement entries hold the UUID's four ints, the dimension and the XpSeed |
| Players.MovementKeys | pymine/types/player.py:88-90 | the movement entries are Pos, Motion and Rotation |
| Players.NewNbtChild | pymine/types/player.py:84-256 | every movement and placement entry appears in the template unchanged |
| Players.NewNbtSpawn | pymine/types/player.py:201-210 | the template spawns the player at the given coordinates, in the given dimension |
| Players.NewNbtXpSeed | pymine/types/player.py:219 | XpSeed is a TAG_Int within the signed 32-bit range |
| Players.NewNbtShape | pymine/types/player.py:88-90 | Pos and Motion are three-element lists, and Rotation is a two-element list |
| Players.NewNbtUuid | pymine/types/player.py:31-98 | the template's UUID is four signed 32-bit ints, from which a Player recovers the UUID |
| Players.Player.constructor | pymine/types/player.py:27-45 | the object holds the entity id, data and UUID, and every other attribute is None |
| Players.Player.FromData | pymine/types/player.py:27-45 | `Player(entity_id, data)` succeeds exactly when UuidOf(data) does, with UuidOf's error otherwise, and the new object's UUID is UuidOf(data) |
| Players.Player.New | pymine/types/player.py:79-81 | `Player.new` succeeds exactly when spawn has three coordinates; the new player's data is the template and its UUID the one given |
| Players.Player.GetItem | pymine/types/player.py:47-48 | `player[key]` is the data entry, or KeyError |
| Players.Player.SetItem | pymine/types/player.py:50-51 | assignment changes exactly that data entry, after which it reads back the value; the entity id, the UUID and every session field (stream, props, username, brand, locale, view distance, chat mode, chat colours, skin parts, main hand, teleport id) stay as they were |
| Players.Player.Get | pymine/types/player.py:53-57 | `get` gives the entry when present and the default otherwise |
| FormatRows.Code | pymine/data/formats.py:25-50 | each format's code is a single character |
| FormatRows.OrdInverse | pymine/data/formats.py:25-50 | the 22 formats are numbered 0..21 in table order, and the numbering is invertible |
| FormatRows.AtInverse | pymine/data/formats.py:25-50 | the numbering goes back from a row number to its format, for every number below 22 |
| FormatRows.CodeDetermines | pymine/data/formats.py:25-50 | a format is recovered from its code |
| FormatRows.CodeCharDetermines | pymine/data/formats.py:25-50 | a format is recovered from its code character |
| FormatRows.NameDetermines | pymine/data/formats.py:25-50 | a format is recovered from its name's length, first and last characters |
| FormatRows.NameDeterminesPart1 | pymine/data/formats.py:27-32 | the same for rows 0..5 |
| FormatRows.NameDeterminesPart2 | pymine/data/formats.py:33-38 | the same for rows 6..11 |
| FormatRows.NameDeterminesPart3 | pymine/data/formats.py:39-43 | the same for rows 12..16 |
| FormatRows.NameDeterminesPart4 | pymine/data/formats.py:44-48 | the same for rows 17..21 |
| FormatRows.NameFound | pymine/data/formats.py:25-50 | looking a format's name up finds that format |
| FormatRows.CodesInjective | pymine/data/formats.py:25-50 | no two formats share a code |
| FormatRows.NamesInjective | pymine/data/formats.py:25-52 | no two formats share a name, so inverting FORMAT_BY_CODE loses no row |
| Formats.Listed | pymine/data/formats.py:25-50 | every format is in the table |
| Formats.FormatCount | pymine/data/formats.py:25-50 | the table has 22 rows |
| Formats.CodesKnown | pymine/data/formats.py:25-50 | every code in the table belongs to its format |
| Formats.NamesKnown | pymine/data/formats.py:25-52 | every name in the table belongs to its format |
| Formats.Row | pymine/data/formats.py:25-79 | each format's row: FORMAT_BY_CODE maps its code to its name, FORMAT_BY_NAME its name to its code, and TERMINAL_CODES its code to its escape |
| Formats.CodeListed | pymine/data/formats.py:25-79 | every key of FORMAT_BY_CODE or TERMINAL_CODES is some format's code |
| Formats.NameListed | pymine/data/formats.py:52 | every key of FORMAT_BY_NAME is some format's name |
| Formats.ByNameInverts | pymine/data/formats.py:52 | a name is a key of FORMAT_BY_NAME exactly when it is a value of FORMAT_BY_CODE, and it maps back to the code with that name |
| Formats.CodeNameCode | pymine/data/formats.py:25-52 | code to name to code is the identity |
| Formats.NameCodeName | pymine/data/formats.py:25-52 | name to code to name is the identity |
| Formats.TerminalKeys | pymine/data/formats.py:25-79 | TERMINAL_CODES has exactly the keys of FORMAT_BY_CODE |
| Formats.CodeImageSize | pymine/data/formats.py:25-50 | distinct formats give as many distinct codes |
| Formats.NameImageSize | pymine/data/formats.py:25-52 | distinct formats give as many distinct names |
| Formats.TableSizes | pymine/data/formats.py:25-52 | both FORMAT_BY_CODE and FORMAT_BY_NAME have 22 entries |
| Formats.SgrEscape | pymine/data/formats.py:54-79 | `ESC [ n m` in decimal is an SGR escape |
| Formats.TerminalCodesAreSgr | pymine/data/formats.py:54-79 | every terminal code is an SGR escape sequence |
| WireBuffer.FormatRanges | pymine/types/nbt.py:26-30 | the ranges of the struct formats b, h, H, i and q |
| WireBuffer.Pack | pymine/types/nbt.py:26 | `Buffer.pack(f, v)` succeeds exactly when v fits the format, giving Width(f) bytes |
| WireBuffer.Decode | pymine/types/nbt.py:30 | the bytes of a format's width read as an in-range value |
| WireBuffer.PackDecode | pymine/types/nbt.py:26-30 | decoding what was packed gives the value back |
| WireBuffer.DecodePack | pymine/types/nbt.py:26-30 | packing what was decoded gives the bytes back |
| WireBuffer.BigEndianRoundTrip | pymine/types/nbt.py:26-30 | big-endian bytes read back as the number they were written from |
| WireBuffer.BigEndianOfBytes | pymine/types/nbt.py:26-30 | a number read from bytes writes back as those bytes |
| WireBuffer.ReadAt | pymine/types/nbt.py:30 | `buf.read(n)` succeeds exactly when 0 ≤ n and n bytes remain, giving the next n bytes |
| WireBuffer.UnpackAt | pymine/types/nbt.py:30 | `buf.unpack(f)` succeeds exactly when Width(f) bytes remain, giving an in-range value |
| WireBuffer.UnpackPacked | pymine/types/nbt.py:26-30 | unpacking a packed value in place gives it back |
| WireBuffer.PlacedSplit | pymine/types/nbt.py:26 | concatenated encodings placed in a byte string place each part in order |
| WireBuffer.Buffer.constructor | pymine/types/nbt.py:5 | a new buffer holds the bytes with its cursor at 0 |
| WireBuffer.Buffer.Read | pymine/types/nbt.py:30 | the method follows ReadAt, advancing the cursor by n |
| WireBuffer.Buffer.Unpack | pymine/types/nbt.py:30 | the method follows UnpackAt, advancing the cursor by the format's width |
| Unicode.Utf8RoundTrip | pymine/types/nbt.py:240-245 | UTF-8 decoding gives back every encoded string |
| Unicode.MUtf8RoundTrip | pymine/types/nbt.py:25-30 | modified-UTF-8 decoding gives back every encoded string |
| Unicode.MUtf8HasNoZeroByte | pymine/types/nbt.py:25 | modified UTF-8 never writes a zero byte |
| Unicode.Utf16BeRoundTrip | pymine/net/packets/handshaking/legacy_ping.py:55 | UTF-16BE decoding gives back every encoded string |
| Unicode.Utf16BeLengthBmp | pymine/net/packets/handshaking/legacy_ping.py:91 | Basic-Multilingual-Plane text takes two bytes per character |
| Unicode.Utf16BeAppend | pymine/net/packets/handshaking/legacy_ping.py:91 | UTF-16BE encoding distributes over concatenation |
| Unicode.SurrogatesRoundTrip | pymine/net/packets/handshaking/legacy_ping.py:55 | a surrogate pair recombines into its character |
| Unicode.NatDecimalDigits | pymine/net/packets/handshaking/legacy_ping.py:90 | the decimal rendering of a count is digits only |
| Unicode.IntDecimalText | pymine/net/packets/handshaking/legacy_ping.py:90 | the decimal rendering of an int is a sign and digits, so it contains no NUL |

## Left out

- `pymine/types/buffer.py` is not part of this model. `Buffer` is modelled as a byte string with a read cursor and big-endian `struct` formats, and:
  - `read(n)` fails past the end or for a negative n;
  - `unpack_array` with a count of zero or less yields nothing.
- The error after a failed buffer read leaves the cursor unspecified. Callers in the source do not use the buffer again after an exception.
- Several NBT decoders crash as Python. The model follows the wire layout and read order that the encoders and the surrounding code intend, rather than reproducing these crashes:
  - `TYPES` names the classes before they are defined (nbt.py:7);
  - most `from_buf` methods call the constructor without a name;
  - TAG_End's assert compares an int with `b"\x00"`, so it always fails;
  - TAG_Float defines `from_buf` twice and has no `encode`;
  - TAG_List has no `id` (it is taken as 9, its index in `TYPES`).

  With these choices, TAG_Byte's decoder reads its meta and the other decoders give name None.
- TAG_Float and TAG_Double carry their IEEE-754 bit patterns as naturals. Floating-point semantics are not modelled. TAG_Float is excluded from the round trip because it has no encoder.
- TAG_Compound, TAG_Int_Array and TAG_Long_Array are not classes of nbt.py. Compounds appear only as the keyed maps that Chunk and Player read (the last child with a key wins). Aliasing of the compound `tag["Level"]` between the tag and the chunk is not modelled.
- chunk.py reads numbers with `.data`: `tag["Y"].data`, `tag["DataVersion"].data`, `self.data["xPos"].data`, `self.data["zPos"].data` and `section_tag["Y"].data` (lines 84, 132, 135-136, 143). These reads are taken as the tag's numeric value (`Chunks.NumberOf`). nbt.py names that field `.value`, so against nbt.py as written each of them would raise AttributeError; that crash is not modelled.
- Chunks.SectionBlocksInRange: the Palette is kept as data (Direct or Indirect with the bits per block). Resolving palette entries to block states is not modelled.
- Chunks.ChunkSection.GetItem: the numpy arrays are flat 4096-element arrays. Only single-cell indexing is modelled, not numpy's slicing or partial indexing.
- Chunks.DecodeBlocks and Chunks.FillBlockStates: the decoded values, as wide as 2^B, are stored without wrapping to numpy's int32 element type (chunk.py:107 writes into the int32 array that `new` allocates at chunk.py:59; the model keeps the unbounded value).
- The chunk unpacking follows the code as written: it indexes the byte string. The corrected read, over the longs, is proved separately (see Findings).
- The Chunk `__del__` hook and every `__repr__`/`__str__` method are omitted: they have no observable state.
- Player: the `x`, `y`, `z`, `pos` and `rotation` properties are floating-point reads and are left out.
- Players.NewNbt: the template keeps only the entries with no float and no compound content: its integer, byte, short and string entries, and its lists of non-compound elements.
  - It leaves out the float entries: FallDistance, Health, AbsorptionAmount, the food and Xp floats, and the abilities speeds.
  - It leaves out the nested compounds and their contents: Brain, SelectedItem, abilities and recipeBook.
  - It leaves out `ivaributes`, a list of compounds holding doubles.
  - The Pos, Motion and Rotation elements are kept as TAG_Double/TAG_Float zero bit patterns.
- Randomness, `STATES.encode` and the stream are not computed:
  - `random.randint` becomes the `xpSeed` parameter of `Players.NewNbt`;
  - `STATES.encode(state)` becomes an input state number (handshaking is 0);
  - `stream.remote` becomes a `Remote` value.
- Registry: what the decorators test of the decorated object is an input. These tests are `asyncio.iscoroutinefunction`, `hasattr(func, "__self__")` and `issubclass`. The `_on_server_start` and `_on_server_stop` tables exist but are never written, as in the source.
- `immutables.Map` is modelled as a Dafny map, without its iteration order.
- VarInt encoding, `pymine/logic/handle/status.py`, the other packet classes and `pymine/util` are not part of this model.

## Findings

| source | as written | input that shows it | evidently intended | confidence | as-written member | corrected member |
|---|---|---|---|---|---|---|
| pymine/types/chunk.py:103-105 | `state_bytes[start_long]` indexes the packed `bytes`, so it reads one byte of the serialisation where one 64-bit long was meant | 64 longs with the first equal to 1 (B = 1): block 0 reads the high byte 0 of the first long | block n is bits n·B … n·B+B-1 of the long array, so block 0 is 1 | medium; not executed | ChunkBits.AsWrittenFirstBlock, ChunkBits.ByteIndexingLosesBits | ChunkBits.IntendedBlock, ChunkBits.IntendedFirstBlock, ChunkBits.BlockValueOfWords |
| pymine/net/packets/handshaking/legacy_ping.py:90 | out_string has no version field, though `version` is stored at :78 and the example reply at :85-88 carries "1.4.2" after the protocol | any two responses that differ only in version give identical bytes | marker, protocol, version, motd, online, max | high; not executed | LegacyPing.VersionIgnored | LegacyPing.EncodeResponseIntended, LegacyPing.ResponseFieldsIntended, LegacyPing.VersionDistinguished |
| pymine/net/packets/handshaking/legacy_ping.py:55 | the hostname is read as `unpack("h")` bytes, but the legacy protocol (and this server's own reply at :91) counts UTF-16 characters | a request for hostname "a" with its count 1: one byte is read and UTF-16BE decoding fails | read twice the count in bytes | medium; not executed | LegacyPing.ByteCountMisreadsHostname | LegacyPing.ParseRequestIntended, LegacyPing.ClientRequestRoundTrip |
