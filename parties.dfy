/** The party routes: create, join, advance (`next`), end, and add a song. Each is one sequential step
    over the store: read the records, decide, write, then broadcast to the party's room. */
module PartyRoutes {
  import opened Common
  import opened Records
  import opened Store

  datatype Created = Created(party: PartySnapshot, participantId: Id)
  datatype Joined = Joined(participantId: Id, participant: Participant, isSpectator: bool)
  datatype Advanced = NowPlaying(song: Song, startedAt: int) | PartyOver(standings: seq<ScoredSong>)
  datatype Added = Added(song: Song, songs: seq<Song>)

  /** The body of an add-song request; an empty string stands for a missing or empty field. */
  datatype SongRequest = SongRequest(
    participantId: Option<Id>,
    spotifyId: string,
    title: string,
    artist: string,
    albumArt: string,
    previewUrl: string,
    durationMs: int)

  /** The truthiness test on an optional cap: absent or 0 limits nothing, a positive cap is reached at
      that count, and a negative one (truthy, and below every count) refuses everything. */
  function CapReached(cap: Option<int>, count: nat): (r: bool)
    ensures cap.None? || cap.value == 0 ==> !r
    ensures cap.Some? && cap.value < 0 ==> r
    ensures cap.Some? && cap.value > 0 ==> (r <==> count >= cap.value)
  {
    cap.Some? && cap.value != 0 && count >= cap.value
  }

  predicate FieldsPresent(req: SongRequest)
  {
    req.participantId.Some? && req.spotifyId != "" && req.title != "" && req.artist != ""
  }

  /** The first five add-song guards pass: fields present, the party exists and has not ended, and the
      requester is a regular (non-spectator) participant of it. */
  predicate MayAdd(parties: map<Code, PartyRow>, ps: seq<Participant>, code: Code, req: SongRequest)
  {
    && FieldsPresent(req) && code in parties && parties[code].status != Ended
    && req.participantId.value < |ps|
    && ps[req.participantId.value].partyCode == code && !ps[req.participantId.value].isSpectator
  }

  /** The add-song guards, in the order the route tests them; None when the song is accepted. */
  function AddSongVerdict(parties: map<Code, PartyRow>, ps: seq<Participant>, songs: seq<Song>, code: Code, req: SongRequest)
    : (r: Option<Error>)
    ensures !FieldsPresent(req) ==> r == Some(ValidationError("Missing required fields"))
    ensures FieldsPresent(req) && code !in parties ==> r == Some(NotFound("Party not found"))
    ensures FieldsPresent(req) && code in parties && parties[code].status == Ended ==> r == Some(AlreadyEnded("Party has ended"))
    ensures (&& FieldsPresent(req) && code in parties && parties[code].status != Ended
             && (req.participantId.value >= |ps| || ps[req.participantId.value].partyCode != code)) ==>
      r == Some(Forbidden("Not in this party"))
    ensures (&& FieldsPresent(req) && code in parties && parties[code].status != Ended
             && req.participantId.value < |ps| && ps[req.participantId.value].partyCode == code
             && ps[req.participantId.value].isSpectator) ==>
      r == Some(Forbidden("Spectators cannot add songs"))
    ensures MayAdd(parties, ps, code, req) && CapReached(parties[code].maxSongs, |Queue(songs, code)|) ==>
      r == Some(QueueFull("Queue is full"))
    ensures (&& MayAdd(parties, ps, code, req) && !CapReached(parties[code].maxSongs, |Queue(songs, code)|)
             && CapReached(parties[code].songsPerPerson, CountAddedBy(Queue(songs, code), req.participantId.value))) ==>
      r == Some(PerPersonLimitReached("Song limit reached"))
    ensures r.None? <==>
      && MayAdd(parties, ps, code, req)
      && !CapReached(parties[code].maxSongs, |Queue(songs, code)|)
      && !CapReached(parties[code].songsPerPerson, CountAddedBy(Queue(songs, code), req.participantId.value))
  {
    if !FieldsPresent(req) then Some(ValidationError("Missing required fields"))
    else if code !in parties then Some(NotFound("Party not found"))
    else if parties[code].status == Ended then Some(AlreadyEnded("Party has ended"))
    else if req.participantId.value >= |ps| || ps[req.participantId.value].partyCode != code then
      Some(Forbidden("Not in this party"))
    else if ps[req.participantId.value].isSpectator then Some(Forbidden("Spectators cannot add songs"))
    else if CapReached(parties[code].maxSongs, |Queue(songs, code)|) then Some(QueueFull("Queue is full"))
    else if CapReached(parties[code].songsPerPerson, CountAddedBy(Queue(songs, code), req.participantId.value)) then
      Some(PerPersonLimitReached("Song limit reached"))
    else None
  }

  /** `POST /api/parties`. The code is supplied fresh, as the collision loop around `generateCode` ensures. */
  method CreateParty(db: Database, code: Code, name: string, displayName: string,
                     maxSongs: Option<int>, songsPerPerson: Option<int>, maxParticipants: Option<int>)
    returns (r: Result<Created>)
    requires db.Valid()
    requires code !in db.parties
    modifies db
    ensures db.Valid()
    ensures unchanged(db`songs, db`votes, db`broadcasts)
    ensures name == "" || displayName == "" ==>
      && r == Err(ValidationError("name and displayName required"))
      && unchanged(db)
    ensures name != "" && displayName != "" ==>
      var host := Participant(|old(db.participants)|, code, displayName, true, false);
      && db.parties == old(db.parties)[code := PartyRow(name, Waiting, maxSongs, songsPerPerson, maxParticipants)]
      && db.participants == old(db.participants) + [host]
      && r == Ok(Created(PartySnapshot(code, name, Waiting, maxSongs, songsPerPerson, maxParticipants, [host], []), host.id))
      && db.Snapshot(code) == r.value.party
  {
    if name == "" || displayName == "" {
      return Err(ValidationError("name and displayName required"));
    }
    var host := Participant(|db.participants|, code, displayName, true, false);
    var row := PartyRow(name, Waiting, maxSongs, songsPerPerson, maxParticipants);
    db.AddParty(code, row, host);
    r := Ok(Created(db.Snapshot(code), host.id));
  }

  /** `POST /api/parties/:code/join`: a joiner past the participant cap becomes a spectator. */
  method Join(db: Database, code: Code, displayName: string) returns (r: Result<Joined>)
    requires db.Valid()
    modifies db
    ensures db.Valid()
    ensures db.parties == old(db.parties) && db.songs == old(db.songs) && db.votes == old(db.votes)
    ensures r.Err? ==> db.participants == old(db.participants) && db.broadcasts == old(db.broadcasts)
    ensures code !in old(db.parties) ==> r == Err(NotFound("Party not found"))
    ensures code in old(db.parties) && old(db.parties[code]).status == Ended ==> r == Err(AlreadyEnded("Party has ended"))
    ensures code in old(db.parties) && old(db.parties[code]).status != Ended ==>
      var cap := old(db.parties[code]).maxParticipants;
      var spectator := cap.Some? && NonSpectatorCount(old(db.participants), code) >= cap.value;
      if !spectator && displayName == "" then
        r == Err(ValidationError("displayName required"))
      else
        var p := Participant(|old(db.participants)|, code, if spectator then SpectatorName else displayName, false, spectator);
        && db.participants == old(db.participants) + [p]
        && db.broadcasts == old(db.broadcasts) + [ToRoom(RoomOf(code), ParticipantJoined(p))]
        && r == Ok(Joined(p.id, p, spectator))
  {
    if code !in db.parties {
      return Err(NotFound("Party not found"));
    }
    var party := db.parties[code];
    if party.status == Ended {
      return Err(AlreadyEnded("Party has ended"));
    }
    var nonSpectatorCount := NonSpectatorCount(db.participants, code);
    var isSpectator := party.maxParticipants.Some? && nonSpectatorCount >= party.maxParticipants.value;
    if !isSpectator && displayName == "" {
      return Err(ValidationError("displayName required"));
    }
    var p := Participant(|db.participants|, code, if isSpectator then SpectatorName else displayName, false, isSpectator);
    JoinKeepsConsistent(db.parties, db.participants, db.songs, db.votes, p);
    db.participants := db.participants + [p];
    db.broadcasts := db.broadcasts + [ToRoom(RoomOf(code), ParticipantJoined(p))];
    r := Ok(Joined(p.id, p, isSpectator));
  }

  /** `POST /api/parties/:code/next`: stamp the first unplayed song, or end the party with its standings.
      The route tests neither the party's status nor whether the host belongs to this party. */
  method Next(db: Database, code: Code, participantId: Id, now: int) returns (r: Result<Advanced>)
    requires db.Valid()
    modifies db
    ensures db.Valid()
    ensures db.participants == old(db.participants) && db.votes == old(db.votes)
    ensures PlayedAtKept(old(db.songs), db.songs)
    ensures r.Err? ==> db.parties == old(db.parties) && db.songs == old(db.songs) && db.broadcasts == old(db.broadcasts)
    ensures code !in old(db.parties) ==> r == Err(NotFound("Party not found"))
    ensures code in old(db.parties) && !old(IsHost(db.participants, participantId)) ==> r == Err(Forbidden("Only host can advance song"))
    ensures code in old(db.parties) && old(IsHost(db.participants, participantId)) ==>
      var queue := Queue(old(db.songs), code);
      match FirstUnplayed(queue)
      case None =>
        var standings := StandingsOf(queue, db.participants, db.votes);
        && db.songs == old(db.songs)
        && db.parties == old(db.parties)[code := old(db.parties[code]).(status := Ended)]
        && db.broadcasts == old(db.broadcasts) + [ToRoom(RoomOf(code), PartyEnded(standings))]
        && r == Ok(PartyOver(standings))
      case Some(k) =>
        var played := queue[k].(playedAt := Some(now));
        && queue[k].id < |old(db.songs)|
        && db.songs == old(db.songs)[queue[k].id := played]
        && db.parties == old(db.parties)[code := old(db.parties[code]).(status := Active)]
        && db.broadcasts == old(db.broadcasts) + [ToRoom(RoomOf(code), SongPlaying(played, now))]
        && r == Ok(NowPlaying(played, now))
  {
    if code !in db.parties {
      return Err(NotFound("Party not found"));
    }
    if !IsHost(db.participants, participantId) {
      return Err(Forbidden("Only host can advance song"));
    }
    var queue := Queue(db.songs, code);
    var next := FirstUnplayed(queue);
    if next.None? {
      db.SetStatus(code, Ended);
      var standings := StandingsOf(queue, db.participants, db.votes);
      db.broadcasts := db.broadcasts + [ToRoom(RoomOf(code), PartyEnded(standings))];
      return Ok(PartyOver(standings));
    }
    var song := queue[next.value];
    QueuedSongAtItsId(db.parties, db.participants, db.songs, code, next.value);
    var played := song.(playedAt := Some(now));
    db.Stamp(song.id, now);
    db.SetStatus(code, Active);
    db.broadcasts := db.broadcasts + [ToRoom(RoomOf(code), SongPlaying(played, now))];
    r := Ok(NowPlaying(played, now));
  }

  /** `POST /api/parties/:code/end`: the host ends the party, whatever its status, and gets the standings. */
  method End(db: Database, code: Code, participantId: Id) returns (r: Result<seq<ScoredSong>>)
    requires db.Valid()
    modifies db
    ensures db.Valid()
    ensures db.participants == old(db.participants) && db.songs == old(db.songs) && db.votes == old(db.votes)
    ensures r.Err? ==> db.parties == old(db.parties) && db.broadcasts == old(db.broadcasts)
    ensures code !in old(db.parties) ==> r == Err(NotFound("Party not found"))
    ensures code in old(db.parties) && !old(IsHost(db.participants, participantId)) ==> r == Err(Forbidden("Only host can end party"))
    ensures code in old(db.parties) && old(IsHost(db.participants, participantId)) ==>
      var standings := StandingsOf(Queue(db.songs, code), db.participants, db.votes);
      && db.parties == old(db.parties)[code := old(db.parties[code]).(status := Ended)]
      && db.broadcasts == old(db.broadcasts) + [ToRoom(RoomOf(code), PartyEnded(standings))]
      && r == Ok(standings)
  {
    if code !in db.parties {
      return Err(NotFound("Party not found"));
    }
    if !IsHost(db.participants, participantId) {
      return Err(Forbidden("Only host can end party"));
    }
    db.SetStatus(code, Ended);
    var standings := StandingsOf(Queue(db.songs, code), db.participants, db.votes);
    db.broadcasts := db.broadcasts + [ToRoom(RoomOf(code), PartyEnded(standings))];
    r := Ok(standings);
  }

  /** `POST /api/parties/:code/songs`: append the song at position "current song count". */
  method AddSong(db: Database, code: Code, req: SongRequest) returns (r: Result<Added>)
    requires db.Valid()
    modifies db
    ensures db.Valid()
    ensures db.parties == old(db.parties) && db.participants == old(db.participants) && db.votes == old(db.votes)
    ensures PlayedAtKept(old(db.songs), db.songs)
    ensures var verdict := AddSongVerdict(old(db.parties), old(db.participants), old(db.songs), code, req);
      verdict.Some? ==>
      && r == Err(verdict.value)
      && db.songs == old(db.songs) && db.broadcasts == old(db.broadcasts)
    ensures AddSongVerdict(old(db.parties), old(db.participants), old(db.songs), code, req).None? ==>
      var queue := Queue(old(db.songs), code);
      var song := Song(|old(db.songs)|, code, req.spotifyId, req.title, req.artist, req.albumArt,
        if req.previewUrl == "" then None else Some(req.previewUrl), req.durationMs, req.participantId.value, |queue|, None);
      && db.songs == old(db.songs) + [song]
      && Queue(db.songs, code) == queue + [song]
      && db.broadcasts == old(db.broadcasts) + [ToRoom(RoomOf(code), QueueUpdated(queue + [song]))]
      && r == Ok(Added(song, queue + [song]))
  {
    var verdict := AddSongVerdict(db.parties, db.participants, db.songs, code, req);
    if verdict.Some? {
      return Err(verdict.value);
    }
    var pid := req.participantId.value;
    var queue := Queue(db.songs, code);
    var previewUrl := if req.previewUrl == "" then None else Some(req.previewUrl);
    var song := Song(|db.songs|, code, req.spotifyId, req.title, req.artist, req.albumArt,
      previewUrl, req.durationMs, pid, |queue|, None);
    AppendSongKeepsConsistent(db.parties, db.participants, db.songs, db.votes, song);
    QueueAppend(db.songs, song, code);
    db.songs := db.songs + [song];
    db.broadcasts := db.broadcasts + [ToRoom(RoomOf(code), QueueUpdated(queue + [song]))];
    r := Ok(Added(song, queue + [song]));
  }
}
