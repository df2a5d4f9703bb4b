/** The socket membership registry: which party room, and as which participant, each connected socket
    joined. `join_room` registers a socket; `disconnect` unregisters it and tells the room. */
module SocketHandlers {
  import opened Records
  import opened Store

  datatype Membership = Membership(partyCode: Code, participantId: Id)

  /** A `set` on the map: this socket's entry becomes `m`, every other entry stays. */
  function Register(registry: map<SocketId, Membership>, socket: SocketId, m: Membership): (r: map<SocketId, Membership>)
    ensures socket in r && r[socket] == m
    ensures r.Keys == registry.Keys + {socket}
    ensures forall s :: s in registry && s != socket ==> r[s] == registry[s]
  {
    registry[socket := m]
  }

  /** A `delete` on the map: this socket's entry goes, every other entry stays. */
  function Unregister(registry: map<SocketId, Membership>, socket: SocketId): (r: map<SocketId, Membership>)
    ensures socket !in r
    ensures r.Keys == registry.Keys - {socket}
    ensures forall s :: s in r ==> r[s] == registry[s]
  {
    registry - {socket}
  }

  /** Registering a socket and then disconnecting it leaves the registry as it was before, when that
      socket had no entry. */
  lemma RegisterThenUnregister(registry: map<SocketId, Membership>, socket: SocketId, m: Membership)
    requires socket !in registry
    ensures Unregister(Register(registry, socket, m), socket) == registry
  {
  }

  /** A second `join_room` on the same socket replaces the first entry. */
  lemma RegisterOverwrites(registry: map<SocketId, Membership>, socket: SocketId, first: Membership, second: Membership)
    ensures Register(Register(registry, socket, first), socket, second) == Register(registry, socket, second)
  {
  }

  class Registry {
    /** `socketPartyMap`: socket id to the party and participant it joined as. */
    var socketPartyMap: map<SocketId, Membership>
    /** Everything emitted by these handlers, to one socket or to a party room, oldest first. */
    var outbox: seq<Delivery>

    constructor ()
      ensures socketPartyMap == map[] && outbox == []
    {
      socketPartyMap, outbox := map[], [];
    }

    /** `join_room`: an unknown party answers the socket with an error; otherwise the socket is
        registered and receives the party's full state. */
    method JoinRoom(db: Database, socket: SocketId, partyCode: Code, participantId: Id)
      modifies this
      ensures partyCode !in db.parties ==>
        && socketPartyMap == old(socketPartyMap)
        && outbox == old(outbox) + [ToSocket(socket, SocketError("Party not found"))]
      ensures partyCode in db.parties ==>
        && socketPartyMap == Register(old(socketPartyMap), socket, Membership(partyCode, participantId))
        && outbox == old(outbox) + [ToSocket(socket, PartyState(db.Snapshot(partyCode)))]
    {
      if partyCode !in db.parties {
        outbox := outbox + [ToSocket(socket, SocketError("Party not found"))];
        return;
      }
      socketPartyMap := socketPartyMap[socket := Membership(partyCode, participantId)];
      outbox := outbox + [ToSocket(socket, PartyState(db.Snapshot(partyCode)))];
    }

    /** `disconnect`: a registered socket is removed and its room told that the participant left;
        an unregistered one changes nothing and emits nothing. */
    method Disconnect(socket: SocketId)
      modifies this
      ensures socket !in old(socketPartyMap) ==> socketPartyMap == old(socketPartyMap) && outbox == old(outbox)
      ensures socket in old(socketPartyMap) ==>
        var info := old(socketPartyMap)[socket];
        && socketPartyMap == Unregister(old(socketPartyMap), socket)
        && outbox == old(outbox) + [ToRoom(RoomOf(info.partyCode), ParticipantLeft(info.participantId))]
    {
      if socket in socketPartyMap {
        var info := socketPartyMap[socket];
        socketPartyMap := socketPartyMap - {socket};
        outbox := outbox + [ToRoom(RoomOf(info.partyCode), ParticipantLeft(info.participantId))];
      }
    }
  }
}
