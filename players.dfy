/** The player container (pymine/types/player.py): a player's NBT data keyed by tag
    name, with the player's UUID taken from the data's four-int "UUID" array, and the
    template data a new player starts from. */
module Players {
  import opened Python
  import opened WireBuffer
  import opened Nbt

  /** A child of the player's compound: one of the tag classes of nbt.py, or the
      TAG_Int_Array that carries the UUID. */
  datatype Value = Tag(tag: Nbt.Tag) | IntArray(name: Name, ints: seq<int>)

  /** The compound as a map from a child's name to the child. */
  type Data = map<string, Value>

  /** A UUID is a 128-bit number: `uuid_.bytes` are its 16 big-endian bytes. */
  const UUID_BYTES: nat := 16

  const UUID_LIMIT: nat := 0x1_0000_0000_0000_0000_0000_0000_0000_0000

  predicate IsUuid(u: nat)
  {
    u < UUID_LIMIT
  }

  lemma UuidLimit()
    ensures Pow256(UUID_BYTES) == UUID_LIMIT
  {
    assert Pow256(8) == 0x1_0000_0000_0000_0000;
    assert Pow256(16) == 256 * 256 * 256 * 256 * 256 * 256 * 256 * 256 * Pow256(8);
  }

  /** `uuid_.bytes`. */
  function UuidBytes(u: nat): (bs: seq<Byte>)
    requires IsUuid(u)
    ensures |bs| == UUID_BYTES
  {
    UuidLimit();
    ToBigEndian(u, UUID_BYTES)
  }

  /** `struct.unpack(">iiii", bs)` for 16 bytes: four signed big-endian 32-bit ints. */
  function UnpackInts(bs: seq<Byte>): (vs: seq<int>)
    requires |bs| == UUID_BYTES
    ensures |vs| == 4 && forall i :: 0 <= i < 4 ==> Fits(Int, vs[i])
    ensures forall i :: 0 <= i < 4 ==> vs[i] == Decode(Int, bs[4 * i..4 * i + 4])
  {
    [Decode(Int, bs[0..4]), Decode(Int, bs[4..8]), Decode(Int, bs[8..12]), Decode(Int, bs[12..16])]
  }

  /** `struct.pack(">iiii", *vs)`: struct.error unless there are exactly four values,
      each in the signed 32-bit range. */
  function PackInts(vs: seq<int>): (r: Result<seq<Byte>>)
    ensures r.Ok? <==> |vs| == 4 && forall i :: 0 <= i < 4 ==> Fits(Int, vs[i])
    ensures r.Err? ==> r.error == StructError
    ensures r.Ok? ==> |r.value| == UUID_BYTES
  {
    if |vs| != 4 then Err(StructError)
    else
      var a :- Pack(Int, vs[0]);
      var b :- Pack(Int, vs[1]);
      var c :- Pack(Int, vs[2]);
      var d :- Pack(Int, vs[3]);
      Ok(a + b + c + d)
  }

  /** The four ints template data stores for a UUID (player.py:98). */
  function IntsOfUuid(u: nat): (vs: seq<int>)
    requires IsUuid(u)
    ensures |vs| == 4 && forall i :: 0 <= i < 4 ==> MinValue(Int) <= vs[i] <= MaxValue(Int)
  {
    UnpackInts(UuidBytes(u))
  }

  /** `uuid.UUID(bytes=struct.pack(">iiii", *ints))` (player.py:31). */
  function UuidOfInts(vs: seq<int>): (r: Result<nat>)
    ensures r.Ok? <==> PackInts(vs).Ok?
    ensures r.Err? ==> r.error == StructError
    ensures r.Ok? ==> IsUuid(r.value)
  {
    var bs :- PackInts(vs);
    UuidLimit();
    Ok(FromBigEndian(bs))
  }

  /** The UUID the stored ints stand for is the one they were made from. */
  lemma UuidRoundTrip(u: nat)
    requires IsUuid(u)
    ensures UuidOfInts(IntsOfUuid(u)) == Ok(u)
  {
    var bs := UuidBytes(u);
    var vs := IntsOfUuid(u);
    DecodePack(Int, bs[0..4]);
    DecodePack(Int, bs[4..8]);
    DecodePack(Int, bs[8..12]);
    DecodePack(Int, bs[12..16]);
    assert PackInts(vs) == Ok(bs) by {
      assert bs == bs[0..4] + bs[4..8] + bs[8..12] + bs[12..16];
    }
    UuidLimit();
    BigEndianRoundTrip(u, UUID_BYTES);
  }

  /** And the other way: four ints in range are the ints of the UUID they make. */
  lemma IntsRoundTrip(vs: seq<int>)
    requires |vs| == 4 && forall i :: 0 <= i < 4 ==> Fits(Int, vs[i])
    ensures UuidOfInts(vs).Ok? && IntsOfUuid(UuidOfInts(vs).value) == vs
  {
    var a, b, c, d := Pack(Int, vs[0]).value, Pack(Int, vs[1]).value, Pack(Int, vs[2]).value, Pack(Int, vs[3]).value;
    var bs := PackInts(vs).value;
    assert bs == a + b + c + d;
    BigEndianOfBytes(bs);
    assert bs[0..4] == a && bs[4..8] == b && bs[8..12] == c && bs[12..16] == d;
    PackDecode(Int, vs[0]);
    PackDecode(Int, vs[1]);
    PackDecode(Int, vs[2]);
    PackDecode(Int, vs[3]);
  }

  /** `data["UUID"]` turned into a UUID: KeyError without the tag, TypeError when it is
      not an int array, struct.error when its ints are not four 32-bit values. */
  function UuidOf(data: Data): (r: Result<nat>)
    ensures r.Ok? <==> "UUID" in data && data["UUID"].IntArray? && PackInts(data["UUID"].ints).Ok?
    ensures "UUID" !in data ==> r == Err(KeyError)
    ensures "UUID" in data && !data["UUID"].IntArray? ==> r == Err(TypeError)
    ensures r.Ok? ==> IsUuid(r.value) && UuidOfInts(data["UUID"].ints) == r
  {
    if "UUID" !in data then Err(KeyError)
    else match data["UUID"]
      case Tag(_) => Err(TypeError)
      case IntArray(_, ints) => UuidOfInts(ints)
  }

  // ---------------------------------------------------------------------------
  // The template

  /** An unnamed TAG_Double or TAG_Float of value 0: the bit pattern of +0.0. */
  const ZERO_DOUBLE: Nbt.Tag := TagDouble(None, 0)
  const ZERO_FLOAT: Nbt.Tag := TagFloat(None, 0)

  function ByteTag(name: string, v: int): Value { Tag(TagByte(Some(name), v)) }
  function ShortTag(name: string, v: int): Value { Tag(TagShort(Some(name), v)) }
  function IntTag(name: string, v: int): Value { Tag(TagInt(Some(name), v)) }
  function StringTag(name: string, s: string): Value { Tag(TagString(Some(name), s)) }
  function ListTag(name: string, items: seq<Nbt.Tag>): Value { Tag(TagList(Some(name), items)) }

  /** The template's position, motion and rotation: lists of zeros. */
  function Movement(): (m: Data)
  {
    map[
      "Pos" := ListTag("Pos", [ZERO_DOUBLE, ZERO_DOUBLE, ZERO_DOUBLE]),
      "Motion" := ListTag("Motion", [ZERO_DOUBLE, ZERO_DOUBLE, ZERO_DOUBLE]),
      "Rotation" := ListTag("Rotation", [ZERO_FLOAT, ZERO_FLOAT])
    ]
  }

  /** The template's fixed children that have no float and no compound content: its
      integer, byte, short and string entries and its lists of non-compound elements.
      The float entries (FallDistance, Health, AbsorptionAmount, the food and Xp
      floats), the compounds (Brain, SelectedItem, abilities, recipeBook) and the
      compound list ivaributes are not part of this map. */
  function Defaults(): (m: Data)
  {
    map[
      "Fire" := ShortTag("Fire", -20),
      "Air" := ShortTag("Air", 300),
      "OnGround" := ByteTag("OnGround", 1),
      "NoGravity" := ByteTag("NoGravity", 0),
      "Invulnerable" := ByteTag("Invulnerable", 0),
      "PortalCooldown" := IntTag("PortalCooldown", 0),
      "CustomName" := StringTag("CustomName", ""),
      "CustomNameVisible" := ByteTag("CustomNameVisible", 0),
      "Silent" := ByteTag("Silent", 0),
      "Passengers" := ListTag("Passengers", []),
      "Glowing" := ByteTag("Glowing", 0),
      "Tags" := ListTag("Tags", []),
      "HurtTime" := ShortTag("HurtTime", 0),
      "HurtByTimestamp" := IntTag("HurtByTimestamp", 0),
      "DeathTime" := ShortTag("DeathTime", 0),
      "FallFlying" := ByteTag("FallFlying", 0),
      "ActiveEffects" := ListTag("ActiveEffects", []),
      "DataVersion" := IntTag("DataVersion", 2586),
      "playerGameType" := IntTag("playerGameType", 0),
      "previousPlayerGameType" := IntTag("previousPlayerGameType", -1),
      "Score" := IntTag("Score", 0),
      "SelectedItemSlot" := IntTag("SelectedItemSlot", 0),
      "SpawnDimension" := StringTag("SpawnDimension", "overworld"),
      "SpawnForced" := ByteTag("SpawnForced", 0),
      "foodLevel" := IntTag("foodLevel", 20),
      "foodTickTimer" := IntTag("foodTickTimer", 0),
      "XpLevel" := IntTag("XpLevel", 0),
      "XpTotal" := IntTag("XpTotal", 0),
      "Inventory" := ListTag("Inventory", []),
      "EnderItems" := ListTag("EnderItems", []),
      "seenCredits" := ByteTag("seenCredits", 0)
    ]
  }

  /** The children new_nbt's arguments decide. */
  function Placement(uuid: nat, spawnX: int, spawnY: int, spawnZ: int, dimension: string, xpSeed: int): (m: Data)
    requires IsUuid(uuid)
  {
    map[
      "UUID" := IntArray(Some("UUID"), IntsOfUuid(uuid)),
      "Dimension" := StringTag("Dimension", dimension),
      "SpawnX" := IntTag("SpawnX", spawnX),
      "SpawnY" := IntTag("SpawnY", spawnY),
      "SpawnZ" := IntTag("SpawnZ", spawnZ),
      "XpSeed" := IntTag("XpSeed", xpSeed)
    ]
  }

  /** `Player.new_nbt(uuid_, spawn, dimension)`, its integer, string and list children;
      xpSeed is the draw of `random.randint(-2147483648, 2147483647)`. The spawn tuple is
      indexed at 0, 1 and 2 after the UUID is unpacked: a shorter one raises IndexError. */
  function NewNbt(uuid: nat, spawn: seq<int>, dimension: string, xpSeed: int): (r: Result<Data>)
    requires IsUuid(uuid) && Fits(Int, xpSeed)
    ensures r.Ok? <==> |spawn| >= 3
    ensures r.Err? ==> r.error == IndexError
  {
    if |spawn| < 3 then Err(IndexError)
    else Ok(Defaults() + Placement(uuid, spawn[0], spawn[1], spawn[2], dimension, xpSeed) + Movement())
  }

  /** The argument-dependent children are where Placement puts them. */
  lemma PlacementSpawn(uuid: nat, x: int, y: int, z: int, dimension: string, xpSeed: int)
    requires IsUuid(uuid)
    ensures var p := Placement(uuid, x, y, z, dimension, xpSeed);
      "SpawnX" in p && "SpawnY" in p && "SpawnZ" in p &&
      p["SpawnX"] == IntTag("SpawnX", x) && p["SpawnY"] == IntTag("SpawnY", y) && p["SpawnZ"] == IntTag("SpawnZ", z)
  {
  }

  lemma PlacementOthers(uuid: nat, x: int, y: int, z: int, dimension: string, xpSeed: int)
    requires IsUuid(uuid)
    ensures var p := Placement(uuid, x, y, z, dimension, xpSeed);
      "UUID" in p && "Dimension" in p && "XpSeed" in p &&
      p["UUID"] == IntArray(Some("UUID"), IntsOfUuid(uuid)) &&
      p["Dimension"] == StringTag("Dimension", dimension) && p["XpSeed"] == IntTag("XpSeed", xpSeed)
  {
  }

  lemma MovementKeys()
    ensures Movement().Keys == {"Pos", "Motion", "Rotation"}
  {
  }

  /** A child Placement or Movement holds is the template's child. */
  lemma NewNbtChild(uuid: nat, spawn: seq<int>, dimension: string, xpSeed: int, k: string)
    requires IsUuid(uuid) && Fits(Int, xpSeed) && |spawn| >= 3
    ensures var data := NewNbt(uuid, spawn, dimension, xpSeed).value;
      var p := Placement(uuid, spawn[0], spawn[1], spawn[2], dimension, xpSeed);
      (k in Movement() ==> k in data && data[k] == Movement()[k]) &&
      (k in p && k !in Movement() ==> k in data && data[k] == p[k])
  {
  }

  /** The template spawns the player where asked, in the dimension asked. */
  lemma NewNbtSpawn(uuid: nat, spawn: seq<int>, dimension: string, xpSeed: int)
    requires IsUuid(uuid) && Fits(Int, xpSeed) && |spawn| >= 3
    ensures var data := NewNbt(uuid, spawn, dimension, xpSeed).value;
      "SpawnX" in data && "SpawnY" in data && "SpawnZ" in data && "Dimension" in data &&
      data["SpawnX"] == IntTag("SpawnX", spawn[0]) && data["SpawnY"] == IntTag("SpawnY", spawn[1]) &&
      data["SpawnZ"] == IntTag("SpawnZ", spawn[2]) && data["Dimension"] == StringTag("Dimension", dimension)
  {
    PlacementSpawn(uuid, spawn[0], spawn[1], spawn[2], dimension, xpSeed);
    PlacementOthers(uuid, spawn[0], spawn[1], spawn[2], dimension, xpSeed);
    MovementKeys();
    NewNbtChild(uuid, spawn, dimension, xpSeed, "SpawnX");
    NewNbtChild(uuid, spawn, dimension, xpSeed, "SpawnY");
    NewNbtChild(uuid, spawn, dimension, xpSeed, "SpawnZ");
    NewNbtChild(uuid, spawn, dimension, xpSeed, "Dimension");
  }

  /** The template's XpSeed is a signed 32-bit int. */
  lemma NewNbtXpSeed(uuid: nat, spawn: seq<int>, dimension: string, xpSeed: int)
    requires IsUuid(uuid) && Fits(Int, xpSeed) && |spawn| >= 3
    ensures var data := NewNbt(uuid, spawn, dimension, xpSeed).value;
      "XpSeed" in data && data["XpSeed"].Tag? && data["XpSeed"].tag.TagInt? &&
      -0x8000_0000 <= data["XpSeed"].tag.value <= 0x7FFF_FFFF
  {
    FormatRanges();
    PlacementOthers(uuid, spawn[0], spawn[1], spawn[2], dimension, xpSeed);
    MovementKeys();
    NewNbtChild(uuid, spawn, dimension, xpSeed, "XpSeed");
  }

  /** Pos and Motion are three-element lists, Rotation a two-element one. */
  lemma NewNbtShape(uuid: nat, spawn: seq<int>, dimension: string, xpSeed: int)
    requires IsUuid(uuid) && Fits(Int, xpSeed) && |spawn| >= 3
    ensures var data := NewNbt(uuid, spawn, dimension, xpSeed).value;
      "Pos" in data && "Motion" in data && "Rotation" in data &&
      data["Pos"].Tag? && data["Pos"].tag.TagList? && |data["Pos"].tag.items| == 3 &&
      data["Motion"].Tag? && data["Motion"].tag.TagList? && |data["Motion"].tag.items| == 3 &&
      data["Rotation"].Tag? && data["Rotation"].tag.TagList? && |data["Rotation"].tag.items| == 2
  {
    NewNbtChild(uuid, spawn, dimension, xpSeed, "Pos");
    NewNbtChild(uuid, spawn, dimension, xpSeed, "Motion");
    NewNbtChild(uuid, spawn, dimension, xpSeed, "Rotation");
  }

  /** The template stores the UUID as four signed 32-bit ints, which give it back. */
  lemma NewNbtUuid(uuid: nat, spawn: seq<int>, dimension: string, xpSeed: int)
    requires IsUuid(uuid) && Fits(Int, xpSeed) && |spawn| >= 3
    ensures var data := NewNbt(uuid, spawn, dimension, xpSeed).value;
      "UUID" in data && data["UUID"].IntArray? && |data["UUID"].ints| == 4 &&
      (forall i :: 0 <= i < 4 ==> Fits(Int, data["UUID"].ints[i])) &&
      UuidOf(data) == Ok(uuid)
  {
    PlacementOthers(uuid, spawn[0], spawn[1], spawn[2], dimension, xpSeed);
    MovementKeys();
    NewNbtChild(uuid, spawn, dimension, xpSeed, "UUID");
    UuidRoundTrip(uuid);
  }

  // ---------------------------------------------------------------------------
  // The player

  class Player {
    var entityId: int
    var data: Data
    var uuid: nat

    /** The connection, an identifier where the source holds the stream object. */
    var stream: Option<int>
    /** Session state filled in later by the login and settings handlers. */
    var props: Option<string>
    var username: Option<string>
    var brand: Option<string>
    var locale: Option<string>
    var viewDistance: Option<int>
    var chatMode: Option<int>
    var chatColors: Option<bool>
    var displayedSkinParts: Option<int>
    var mainHand: Option<int>
    var teleportId: Option<int>

    /** Every session field unset. */
    predicate Fresh()
      reads this
    {
      stream.None? && props.None? && username.None? && brand.None? && locale.None? &&
      viewDistance.None? && chatMode.None? && chatColors.None? && displayedSkinParts.None? &&
      mainHand.None? && teleportId.None?
    }

    /** No session field differs from its value in the earlier state. */
    twostate predicate SessionUnchanged()
      reads this
    {
      stream == old(stream) && props == old(props) && username == old(username) &&
      brand == old(brand) && locale == old(locale) && viewDistance == old(viewDistance) &&
      chatMode == old(chatMode) && chatColors == old(chatColors) &&
      displayedSkinParts == old(displayedSkinParts) && mainHand == old(mainHand) &&
      teleportId == old(teleportId)
    }

    /** The body of `__init__` once the UUID is known. */
    constructor (entityId: int, data: Data, uuid: nat)
      ensures this.entityId == entityId && this.data == data && this.uuid == uuid
      ensures Fresh()
    {
      this.entityId := entityId;
      this.data := data;
      this.uuid := uuid;
      stream := None;
      props := None;
      username := None;
      brand := None;
      locale := None;
      viewDistance := None;
      chatMode := None;
      chatColors := None;
      displayedSkinParts := None;
      mainHand := None;
      teleportId := None;
    }

    /** `Player(entity_id, data)`: raises what reading the UUID out of the data raises. */
    static method FromData(entityId: int, data: Data) returns (r: Result<Player>)
      ensures r.Ok? <==> UuidOf(data).Ok?
      ensures r.Err? ==> r.error == UuidOf(data).error
      ensures r.Ok? ==> (fresh(r.value) && r.value.Fresh() &&
        r.value.entityId == entityId && r.value.data == data && r.value.uuid == UuidOf(data).value)
    {
      var u := UuidOf(data);
      if u.Err? {
        return Err(u.error);
      }
      var p := new Player(entityId, data, u.value);
      r := Ok(p);
    }

    /** `Player.new(entity_id, uuid_, spawn, dimension)`: a player on the template data,
        whose UUID is the one given. */
    static method New(entityId: int, uuid: nat, spawn: seq<int>, dimension: string, xpSeed: int) returns (r: Result<Player>)
      requires IsUuid(uuid) && Fits(Int, xpSeed)
      ensures r.Ok? <==> |spawn| >= 3
      ensures r.Err? ==> r.error == IndexError
      ensures r.Ok? ==> (fresh(r.value) && r.value.Fresh() && r.value.entityId == entityId &&
        r.value.data == NewNbt(uuid, spawn, dimension, xpSeed).value && r.value.uuid == uuid)
    {
      var data := NewNbt(uuid, spawn, dimension, xpSeed);
      if data.Err? {
        return Err(data.error);
      }
      NewNbtUuid(uuid, spawn, dimension, xpSeed);
      r := FromData(entityId, data.value);
    }

    /** `player[key]`: KeyError for a key the data does not hold. */
    function GetItem(key: string): (r: Result<Value>)
      reads this
      ensures r.Ok? <==> key in data
      ensures r.Ok? ==> r.value == data[key]
      ensures r.Err? ==> r.error == KeyError
    {
      if key in data then Ok(data[key]) else Err(KeyError)
    }

    /** `player[key] = value`: the key now gives value, every other key what it gave. */
    method SetItem(key: string, value: Value)
      modifies this
      ensures data == old(data)[key := value]
      ensures GetItem(key) == Ok(value)
      ensures forall k :: k != key ==> GetItem(k) == old(GetItem(k))
      ensures entityId == old(entityId) && uuid == old(uuid)
      ensures SessionUnchanged()
    {
      data := data[key := value];
    }

    /** `player.get(key, default)`: the stored value, or the default when the lookup
        raises KeyError. */
    function Get(key: string, default: Value): (r: Value)
      reads this
      ensures key in data ==> r == data[key]
      ensures key !in data ==> r == default
    {
      var v := GetItem(key);
      if v.Ok? then v.value else default
    }
  }
}
