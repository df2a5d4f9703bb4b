/** The records of the party session: parties, participants, songs, and the events pushed to clients. */
module Records {
  import opened Common

  /** Record ids, handed out by the store in creation order. */
  type Id = nat

  /** The short, shareable party code; also the party's key. */
  type Code = string

  type SocketId = string

  datatype Status = Waiting | Active | Ended

  /** A party row. A cap is None when the creation request left it out (or gave a falsy value). */
  datatype PartyRow = PartyRow(
    name: string,
    status: Status,
    maxSongs: Option<int>,
    songsPerPerson: Option<int>,
    maxParticipants: Option<int>)

  datatype Participant = Participant(
    id: Id,
    partyCode: Code,
    displayName: string,
    isHost: bool,
    isSpectator: bool)

  /** A queued song; `playedAt` is None until the host advances to it. */
  datatype Song = Song(
    id: Id,
    partyCode: Code,
    spotifyId: string,
    title: string,
    artist: string,
    albumArt: string,
    previewUrl: Option<string>,
    durationMs: int,
    addedById: Id,
    queuePosition: nat,
    playedAt: Option<int>)

  /** A song of the final standings, with its raw vote counts and its dampened score. */
  datatype ScoredSong = ScoredSong(song: Song, upvotes: nat, downvotes: nat, score: int)

  /** What `GET /api/parties/:code` and the `party:state` event carry. */
  datatype PartySnapshot = PartySnapshot(
    code: Code,
    name: string,
    status: Status,
    maxSongs: Option<int>,
    songsPerPerson: Option<int>,
    maxParticipants: Option<int>,
    participants: seq<Participant>,
    songs: seq<Song>)

  /** The push-channel events. */
  datatype ServerEvent =
    | PartyState(party: PartySnapshot)
    | ParticipantJoined(participant: Participant)
    | ParticipantLeft(participantId: Id)
    | QueueUpdated(songs: seq<Song>)
    | SongPlaying(song: Song, startedAt: int)
    | PartyEnded(standings: seq<ScoredSong>)
    | SocketError(message: string)

  /** An emitted event: broadcast to a room, or sent to one socket only. */
  datatype Delivery = ToRoom(room: string, event: ServerEvent) | ToSocket(socket: SocketId, event: ServerEvent)

  /** The socket.io room of a party. */
  function RoomOf(code: Code): string
  {
    "party:" + code
  }

  /** The display name every spectator gets, whatever name they asked for. */
  const SpectatorName: string := "Spectator"
}
