/** The plugin API's handler registry (pymine/api/register.py). Decorators register
    packet handlers in one of four per-state tables, each mapping a packet id to the
    handlers registered for it by qualified name, and world generators by name.
    What the decorators test of the decorated object (`asyncio.iscoroutinefunction`,
    `hasattr(func, "__self__")`, `issubclass(cls, AbstractWorldGenerator)`) and the
    state number `STATES.encode(state)` are inputs. */
module Registry {
  import opened Python

  /** A decorated function as the registry sees it: `func.__module__`,
      `func.__qualname__`, whether it is a coroutine function, and whether it is a
      bound method (has `__self__`). */
  datatype Handler = Handler(moduleName: string, qualname: string, isCoroutine: bool, isBound: bool)

  /** `f"{func.__module__}.{func.__qualname__}"`. */
  function QualifiedName(h: Handler): (r: string)
    ensures |r| == |h.moduleName| + 1 + |h.qualname|
    ensures r[..|h.moduleName|] == h.moduleName && r[|h.moduleName|] == '.' && r[|h.moduleName| + 1..] == h.qualname
  {
    h.moduleName + "." + h.qualname
  }

  /** A class offered to `add_world_generator`, with whether it subclasses
      AbstractWorldGenerator. */
  datatype GeneratorClass = GeneratorClass(id: int, isWorldGenerator: bool)

  /** What a decorator gives back: the function itself, or an event object wrapping it. */
  datatype Decorated =
    | Function(handler: Handler)
    | PacketEvent(handler: Handler, stateId: int, packetId: int)
    | ServerStartEvent(handler: Handler)
    | ServerStopEvent(handler: Handler)

  /** One state's table: packet id to {qualified name: handler}. */
  type Table = map<int, map<string, Handler>>

  /** `_on_packet` holds one table per state: handshaking, login, play, status. */
  const STATE_COUNT: nat := 4

  /** Indexing the four-element tuple `_on_packet`: negative indices count from the end. */
  function StateIndex(stateId: int): (r: Option<nat>)
    ensures r.Some? <==> -(STATE_COUNT as int) <= stateId < STATE_COUNT as int
    ensures r.Some? ==> r.value < STATE_COUNT && (r.value == stateId || r.value == stateId + STATE_COUNT)
  {
    if 0 <= stateId < STATE_COUNT as int then Some(stateId as nat)
    else if -(STATE_COUNT as int) <= stateId < 0 then Some((stateId + STATE_COUNT) as nat)
    else None
  }

  /** A state's table after h is registered for packetId: the handler stored under its
      qualified name in the packet's inner table, which is created when the packet id
      is new. */
  function AddHandler(table: Table, packetId: int, h: Handler): (r: Table)
    ensures r.Keys == table.Keys + {packetId}
    ensures QualifiedName(h) in r[packetId] && r[packetId][QualifiedName(h)] == h
  {
    var name := QualifiedName(h);
    if packetId in table then table[packetId := table[packetId][name := h]]
    else table[packetId := map[name := h]]
  }

  /** Registration touches only the packet's inner table, and in it only the handler's
      own name: every other packet id and every other name keeps its handlers. */
  lemma AddHandlerFrame(table: Table, packetId: int, h: Handler, otherId: int, name: string)
    ensures otherId != packetId && otherId in table ==> AddHandler(table, packetId, h)[otherId] == table[otherId]
    ensures packetId in table && name != QualifiedName(h) ==>
      (name in AddHandler(table, packetId, h)[packetId] <==> name in table[packetId]) &&
      (name in table[packetId] ==> AddHandler(table, packetId, h)[packetId][name] == table[packetId][name])
  {
  }

  /** A packet id registered for the first time gets an inner table with exactly one
      entry. */
  lemma AddHandlerNewId(table: Table, packetId: int, h: Handler)
    requires packetId !in table
    ensures AddHandler(table, packetId, h)[packetId] == map[QualifiedName(h) := h]
  {
  }

  /** Registering under the same qualified name again replaces the earlier handler:
      the last registration wins and the first leaves no trace. */
  lemma AddHandlerOverwrites(table: Table, packetId: int, h1: Handler, h2: Handler)
    requires QualifiedName(h1) == QualifiedName(h2)
    ensures AddHandler(AddHandler(table, packetId, h1), packetId, h2) == AddHandler(table, packetId, h2)
  {
    var name := QualifiedName(h1);
    if packetId in table {
      assert table[packetId][name := h1][name := h2] == table[packetId][name := h2];
    } else {
      assert map[name := h1][name := h2] == map[name := h2];
    }
  }

  /** Handlers with distinct qualified names accumulate under the same packet id, in
      either order of registration. */
  lemma AddHandlerAccumulates(table: Table, packetId: int, h1: Handler, h2: Handler)
    requires QualifiedName(h1) != QualifiedName(h2)
    ensures var r := AddHandler(AddHandler(table, packetId, h1), packetId, h2);
      r[packetId][QualifiedName(h1)] == h1 && r[packetId][QualifiedName(h2)] == h2
    ensures AddHandler(AddHandler(table, packetId, h1), packetId, h2) == AddHandler(AddHandler(table, packetId, h2), packetId, h1)
  {
    var n1, n2 := QualifiedName(h1), QualifiedName(h2);
    if packetId in table {
      assert table[packetId][n1 := h1][n2 := h2] == table[packetId][n2 := h2][n1 := h1];
    } else {
      assert map[n1 := h1][n2 := h2] == map[n2 := h2][n1 := h1];
    }
  }

  class Register {
    /** `_generators`: {name: world generator class}. */
    var generators: map<string, GeneratorClass>
    /** `_on_packet`: the tuple of the four state tables. */
    var onPacket: seq<Table>
    /** `_on_server_start` and `_on_server_stop`: {qualified name: event}. */
    var onServerStart: map<string, Handler>
    var onServerStop: map<string, Handler>

    ghost predicate Valid()
      reads this
    {
      |onPacket| == STATE_COUNT
    }

    /** A fresh registry: every table empty. */
    constructor ()
      ensures Valid()
      ensures generators == map[] && onServerStart == map[] && onServerStop == map[]
      ensures forall i :: 0 <= i < STATE_COUNT ==> onPacket[i] == map[]
    {
      generators := map[];
      onPacket := [map[], map[], map[], map[]];
      onServerStart := map[];
      onServerStop := map[];
    }

    /** `add_world_generator(name)(cls)`: stores a world generator class under the name,
        or raises ValueError for a class that is not one. */
    method AddWorldGenerator(name: string, cls: GeneratorClass) returns (r: Result<GeneratorClass>)
      modifies this
      ensures r.Ok? <==> cls.isWorldGenerator
      ensures r.Err? ==> r.error == ValueError && generators == old(generators)
      ensures r.Ok? ==> r.value == cls && generators == old(generators)[name := cls]
      ensures onPacket == old(onPacket) && onServerStart == old(onServerStart) && onServerStop == old(onServerStop)
    {
      if !cls.isWorldGenerator {
        return Err(ValueError);
      }
      generators := generators[name := cls];
      r := Ok(cls);
    }

    /** `on_packet(state, packet_id)(func)`, where stateId is `STATES.encode(state)`. A
        function that is not a coroutine raises ValueError; a bound method is wrapped in
        a PacketEvent and not stored; anything else is stored in the state's table (an
        out-of-range state raises IndexError from the tuple) and given back. */
    method OnPacket(stateId: int, packetId: int, func: Handler) returns (r: Result<Decorated>)
      requires Valid()
      modifies this
      ensures Valid()
      ensures !func.isCoroutine ==> r == Err(ValueError) && onPacket == old(onPacket)
      ensures func.isCoroutine && func.isBound ==> r == Ok(PacketEvent(func, stateId, packetId)) && onPacket == old(onPacket)
      ensures func.isCoroutine && !func.isBound && StateIndex(stateId).None? ==> r == Err(IndexError) && onPacket == old(onPacket)
      ensures func.isCoroutine && !func.isBound && StateIndex(stateId).Some? ==>
        var i := StateIndex(stateId).value;
        r == Ok(Function(func)) && onPacket == old(onPacket)[i := AddHandler(old(onPacket)[i], packetId, func)]
      ensures generators == old(generators) && onServerStart == old(onServerStart) && onServerStop == old(onServerStop)
    {
      if !func.isCoroutine {
        return Err(ValueError);
      }
      if func.isBound {
        return Ok(PacketEvent(func, stateId, packetId));
      }
      var i := StateIndex(stateId);
      if i.None? {
        return Err(IndexError);
      }
      var name := QualifiedName(func);
      var table := onPacket[i.value];
      if packetId in table {
        onPacket := onPacket[i.value := table[packetId := table[packetId][name := func]]];
      } else {
        // the KeyError handler: a new inner table holding just this handler
        onPacket := onPacket[i.value := table[packetId := map[name := func]]];
      }
      r := Ok(Function(func));
    }

    /** `on_server_start(func)`: wraps a coroutine function in a ServerStartEvent; no
        table changes. */
    method OnServerStart(func: Handler) returns (r: Result<Decorated>)
      ensures r.Ok? <==> func.isCoroutine
      ensures r.Ok? ==> r.value == ServerStartEvent(func)
      ensures r.Err? ==> r.error == ValueError
    {
      if !func.isCoroutine {
        return Err(ValueError);
      }
      r := Ok(ServerStartEvent(func));
    }

    /** `on_server_stop(func)`: wraps a coroutine function in a ServerStopEvent; no
        table changes. */
    method OnServerStop(func: Handler) returns (r: Result<Decorated>)
      ensures r.Ok? <==> func.isCoroutine
      ensures r.Ok? ==> r.value == ServerStopEvent(func)
      ensures r.Err? ==> r.error == ValueError
    {
      if !func.isCoroutine {
        return Err(ValueError);
      }
      r := Ok(ServerStopEvent(func));
    }
  }
}
