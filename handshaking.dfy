/** The handshake packet handler (pymine/logic/handle/handshaking.py): it records the
    protocol state a client asked for in the server's state cache, and is registered
    for packet 0x00 of the handshaking state. */
module Handshaking {
  import opened Python
  import opened Registry

  /** `stream.remote`: the peer address a connection is keyed by. */
  datatype Remote = Remote(host: string, port: int)

  /** `server.cache`, of which the handler touches only `states`. */
  class Cache {
    var states: map<Remote, int>

    constructor (states: map<Remote, int>)
      ensures this.states == states
    {
      this.states := states;
    }
  }

  /** `STATES.encode("handshaking")`: the first of the four state tables. */
  const HANDSHAKING: int := 0

  /** The packet id the handler is registered for. */
  const HANDSHAKE_PACKET: int := 0x00

  /** The handler as the registry sees it: a coroutine function of the module, not a
      bound method. */
  const HANDSHAKE_HANDLER: Handler := Handler("pymine.logic.handle.handshaking", "handshake", true, false)

  /** The handler's qualified name, under which it is stored. */
  function HandshakeName(): (r: string)
    ensures r == "pymine.logic.handle.handshaking.handshake"
  {
    QualifiedName(HANDSHAKE_HANDLER)
  }

  /** The state cache after a handshake from `remote` asking for `nextState`. */
  function AfterHandshake(states: map<Remote, int>, remote: Remote, nextState: int): (r: map<Remote, int>)
    ensures remote in r && r[remote] == nextState
    ensures forall other :: other != remote ==> (other in r <==> other in states)
    ensures forall other :: other != remote && other in states ==> r[other] == states[other]
  {
    states[remote := nextState]
  }

  /** `handshake(stream, packet)`: `server.cache.states[stream.remote] = packet.next_state`. */
  method Handshake(cache: Cache, remote: Remote, nextState: int)
    modifies cache
    ensures cache.states == AfterHandshake(old(cache.states), remote, nextState)
  {
    cache.states := cache.states[remote := nextState];
  }

  /** A second handshake from the same remote overwrites the first. */
  lemma HandshakeOverwrites(states: map<Remote, int>, remote: Remote, first: int, second: int)
    ensures AfterHandshake(AfterHandshake(states, remote, first), remote, second) == AfterHandshake(states, remote, second)
  {
    assert states[remote := first][remote := second] == states[remote := second];
  }

  /** Handshakes from distinct remotes do not interfere, in either order. */
  lemma HandshakesCommute(states: map<Remote, int>, r1: Remote, s1: int, r2: Remote, s2: int)
    requires r1 != r2
    ensures AfterHandshake(AfterHandshake(states, r1, s1), r2, s2) == AfterHandshake(AfterHandshake(states, r2, s2), r1, s1)
  {
    assert states[r1 := s1][r2 := s2] == states[r2 := s2][r1 := s1];
  }

  /** A handshake adds at most one remote to the cache. */
  lemma HandshakeGrowsByOne(states: map<Remote, int>, remote: Remote, nextState: int)
    ensures |AfterHandshake(states, remote, nextState).Keys| <= |states.Keys| + 1
    ensures remote in states ==> |AfterHandshake(states, remote, nextState).Keys| == |states.Keys|
  {
    var r := AfterHandshake(states, remote, nextState);
    assert r.Keys == states.Keys + {remote};
    if remote in states {
      assert r.Keys == states.Keys;
    }
  }

  /** The `@server.api.register.on_packet("handshaking", 0x00)` line: the handler ends
      up in the handshaking table under packet 0x00 and its qualified name, and the
      decorator gives the function back. */
  method RegisterHandshake(register: Register) returns (r: Result<Decorated>)
    requires register.Valid()
    modifies register
    ensures register.Valid()
    ensures r == Ok(Function(HANDSHAKE_HANDLER))
    ensures register.onPacket[HANDSHAKING] == AddHandler(old(register.onPacket[HANDSHAKING]), HANDSHAKE_PACKET, HANDSHAKE_HANDLER)
    ensures HANDSHAKE_PACKET in register.onPacket[HANDSHAKING]
    ensures HandshakeName() in register.onPacket[HANDSHAKING][HANDSHAKE_PACKET]
    ensures register.onPacket[HANDSHAKING][HANDSHAKE_PACKET][HandshakeName()] == HANDSHAKE_HANDLER
    ensures forall i :: 0 < i < STATE_COUNT ==> register.onPacket[i] == old(register.onPacket[i])
    ensures register.generators == old(register.generators)
    ensures register.onServerStart == old(register.onServerStart) && register.onServerStop == old(register.onServerStop)
  {
    r := register.OnPacket(HANDSHAKING, HANDSHAKE_PACKET, HANDSHAKE_HANDLER);
  }
}
