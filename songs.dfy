/** The vote route: validate, look up the song and the voter, then upsert the vote keyed by
    (song, participant). Neither the song's `playedAt` nor its party's status is consulted. */
module SongRoutes {
  import opened Common
  import opened Records
  import opened Store

  datatype StoredVote = StoredVote(songId: Id, participantId: Id, value: int)

  /** The vote guards, in the order the route tests them; None when the vote is accepted. */
  function VoteVerdict(ps: seq<Participant>, songs: seq<Song>, songId: Id, participantId: Option<Id>, value: int): (r: Option<Error>)
    ensures r.None? <==> participantId.Some? && VoteFits(ps, songs, (songId, participantId.value), value)
    ensures (participantId.None? || (value != 1 && value != -1)) ==>
      r == Some(ValidationError("participantId and value (+1 or -1) required"))
    ensures participantId.Some? && (value == 1 || value == -1) && songId >= |songs| ==> r == Some(NotFound("Song not found"))
    ensures participantId.Some? && (value == 1 || value == -1) && songId < |songs| ==>
      (r == Some(Forbidden("Not in this party")) <==>
        participantId.value >= |ps| || ps[participantId.value].partyCode != songs[songId].partyCode)
  {
    if participantId.None? || (value != 1 && value != -1) then
      Some(ValidationError("participantId and value (+1 or -1) required"))
    else if songId >= |songs| then Some(NotFound("Song not found"))
    else if participantId.value >= |ps| || ps[participantId.value].partyCode != songs[songId].partyCode then
      Some(Forbidden("Not in this party"))
    else None
  }

  /** `upsert` keyed by (song, participant): set the value of that key, whether it existed or not. */
  function Upsert(votes: map<VoteKey, int>, key: VoteKey, value: int): (r: map<VoteKey, int>)
    ensures key in r && r[key] == value
    ensures r.Keys == votes.Keys + {key}
    ensures forall k :: k in votes && k != key ==> r[k] == votes[k]
  {
    votes[key := value]
  }

  /** Recasting the same vote twice stores it once: the upsert is idempotent. */
  lemma UpsertIdempotent(votes: map<VoteKey, int>, key: VoteKey, value: int)
    ensures Upsert(Upsert(votes, key, value), key, value) == Upsert(votes, key, value)
  {
  }

  /** A recast replaces the earlier value instead of adding to it: only the last cast counts. */
  lemma UpsertOverwrites(votes: map<VoteKey, int>, key: VoteKey, first: int, second: int)
    ensures Upsert(Upsert(votes, key, first), key, second) == Upsert(votes, key, second)
  {
  }

  /** `POST /api/songs/:id/vote`. */
  method CastVote(db: Database, songId: Id, participantId: Option<Id>, value: int) returns (r: Result<StoredVote>)
    requires db.Valid()
    modifies db
    ensures db.Valid()
    ensures db.parties == old(db.parties) && db.participants == old(db.participants) && db.songs == old(db.songs)
    ensures db.broadcasts == old(db.broadcasts)
    ensures var verdict := VoteVerdict(old(db.participants), old(db.songs), songId, participantId, value);
      if verdict.Some? then
        r == Err(verdict.value) && db.votes == old(db.votes)
      else
        && db.votes == Upsert(old(db.votes), (songId, participantId.value), value)
        && r == Ok(StoredVote(songId, participantId.value, value))
  {
    var verdict := VoteVerdict(db.participants, db.songs, songId, participantId, value);
    if verdict.Some? {
      return Err(verdict.value);
    }
    var voter := participantId.value;
    VoteKeepsConsistent(db.parties, db.participants, db.songs, db.votes, (songId, voter), value);
    db.votes := db.votes[(songId, voter) := value];
    r := Ok(StoredVote(songId, voter, value));
  }
}
