/** The backend's records held in memory: the party table, the participant, song and vote tables, and
    the log of events broadcast to party rooms. The queries here are the reads the routes make. */
module Store {
  import opened Common
  import opened Records
  import opened Scoring
  import opened Standings

  /** A vote's key: (song id, participant id); the store keeps at most one value per key. */
  type VoteKey = (Id, Id)

  /** A party's participants, in creation order. */
  function Members(ps: seq<Participant>, code: Code): seq<Participant>
  {
    if ps == [] then []
    else Members(ps[..|ps| - 1], code) + (if ps[|ps| - 1].partyCode == code then [ps[|ps| - 1]] else [])
  }

  /** The number of regular (non-spectator) participants of a list. */
  function CountRegular(ps: seq<Participant>): (r: nat)
    ensures r <= |ps|
  {
    if ps == [] then 0 else CountRegular(ps[..|ps| - 1]) + (if ps[|ps| - 1].isSpectator then 0 else 1)
  }

  /** No regular participant is counted exactly when everyone listed is a spectator. */
  lemma {:induction false} NoRegulars(ps: seq<Participant>)
    ensures CountRegular(ps) == 0 <==> forall p :: p in ps ==> p.isSpectator
  {
    if ps != [] {
      var init := ps[..|ps| - 1];
      NoRegulars(init);
      assert ps == init + [ps[|ps| - 1]];
    }
  }

  function CountHosts(ps: seq<Participant>): nat
  {
    if ps == [] then 0 else CountHosts(ps[..|ps| - 1]) + (if ps[|ps| - 1].isHost then 1 else 0)
  }

  /** The number of a party's non-spectator participants, the count `join` compares with the cap. */
  function NonSpectatorCount(ps: seq<Participant>, code: Code): (r: nat)
    ensures r <= |Members(ps, code)|
  {
    CountRegular(Members(ps, code))
  }

  /** The count `join` compares with the cap is zero exactly when every member of the party is a spectator. */
  lemma NoRegularMembers(ps: seq<Participant>, code: Code)
    ensures NonSpectatorCount(ps, code) == 0 <==> forall p :: p in ps && p.partyCode == code ==> p.isSpectator
  {
    MembersAreParticipants(ps, code);
    NoRegulars(Members(ps, code));
  }

  /** A party's songs in insertion order, which `DensePositions` makes their queue order. */
  function Queue(songs: seq<Song>, code: Code): seq<Song>
  {
    if songs == [] then []
    else Queue(songs[..|songs| - 1], code) + (if songs[|songs| - 1].partyCode == code then [songs[|songs| - 1]] else [])
  }

  /** How many songs of a queue one participant added. */
  function CountAddedBy(queue: seq<Song>, participantId: Id): (r: nat)
    ensures r <= |queue|
  {
    if queue == [] then 0
    else CountAddedBy(queue[..|queue| - 1], participantId) + (if queue[|queue| - 1].addedById == participantId then 1 else 0)
  }

  /** A participant has added none of a queue's songs exactly when the count is zero. */
  lemma {:induction false} NoneAddedBy(queue: seq<Song>, participantId: Id)
    ensures CountAddedBy(queue, participantId) == 0 <==> forall s :: s in queue ==> s.addedById != participantId
  {
    if queue != [] {
      var init := queue[..|queue| - 1];
      NoneAddedBy(init, participantId);
      assert queue == init + [queue[|queue| - 1]];
    }
  }

  /** Every song's queue position is the number of songs its party already had when it was added. */
  ghost predicate DensePositions(songs: seq<Song>)
  {
    forall i :: 0 <= i < |songs| ==> songs[i].queuePosition == |Queue(songs[..i], songs[i].partyCode)|
  }

  /** `find((s) => !s.playedAt)` over the queue: the index of the first unplayed song. */
  function FirstUnplayed(queue: seq<Song>): (r: Option<nat>)
    ensures r.None? <==> forall i :: 0 <= i < |queue| ==> queue[i].playedAt.Some?
    ensures r.Some? ==> r.value < |queue| && queue[r.value].playedAt.None?
    ensures r.Some? ==> forall i :: 0 <= i < r.value ==> queue[i].playedAt.Some?
  {
    if queue == [] then None
    else if queue[0].playedAt.None? then Some(0)
    else match FirstUnplayed(queue[1..])
      case None => None
      case Some(k) => Some(k + 1)
  }

  /** A song's votes, each joined with its voter's spectator flag, listed in participant order. */
  function VotesFor(songId: Id, ps: seq<Participant>, votes: map<VoteKey, int>): seq<Vote>
  {
    if ps == [] then []
    else
      var p := ps[|ps| - 1];
      VotesFor(songId, ps[..|ps| - 1], votes) + (if (songId, p.id) in votes then [Vote(votes[(songId, p.id)], p.isSpectator)] else [])
  }

  /** The standings of a queue: every song scored from its votes, then ranked. */
  function StandingsOf(queue: seq<Song>, ps: seq<Participant>, votes: map<VoteKey, int>): (r: seq<ScoredSong>)
    ensures |r| == |queue| && Ranked(r)
  {
    Rank(seq(|queue|, i requires 0 <= i < |queue| => ScoreSong(queue[i], VotesFor(queue[i].id, ps, votes))))
  }

  /** Once a song's `playedAt` is set it stays; songs are only ever appended. */
  ghost predicate PlayedAtKept(before: seq<Song>, after: seq<Song>)
  {
    |before| <= |after| &&
    forall i :: 0 <= i < |before| && before[i].playedAt.Some? ==> after[i].playedAt == before[i].playedAt
  }

  lemma MembersAppend(ps: seq<Participant>, p: Participant, code: Code)
    ensures Members(ps + [p], code) == Members(ps, code) + (if p.partyCode == code then [p] else [])
  {
    assert (ps + [p])[..|ps|] == ps;
  }

  lemma CountsAppend(ps: seq<Participant>, p: Participant)
    ensures CountRegular(ps + [p]) == CountRegular(ps) + (if p.isSpectator then 0 else 1)
    ensures CountHosts(ps + [p]) == CountHosts(ps) + (if p.isHost then 1 else 0)
  {
    assert (ps + [p])[..|ps|] == ps;
  }

  lemma {:induction false} NoMembers(ps: seq<Participant>, code: Code)
    requires forall i :: 0 <= i < |ps| ==> ps[i].partyCode != code
    ensures Members(ps, code) == []
  {
    if ps != [] {
      NoMembers(ps[..|ps| - 1], code);
    }
  }

  lemma QueueAppend(songs: seq<Song>, s: Song, code: Code)
    ensures Queue(songs + [s], code) == Queue(songs, code) + (if s.partyCode == code then [s] else [])
  {
    assert (songs + [s])[..|songs|] == songs;
  }

  lemma CountAddedByAppend(queue: seq<Song>, s: Song, participantId: Id)
    ensures CountAddedBy(queue + [s], participantId) == CountAddedBy(queue, participantId) + (if s.addedById == participantId then 1 else 0)
  {
    assert (queue + [s])[..|queue|] == queue;
  }

  /** Every song of a party's queue is one of the store's songs, and belongs to that party. */
  lemma {:induction false} QueueMembers(songs: seq<Song>, code: Code)
    ensures forall x :: x in Queue(songs, code) <==> x in songs && x.partyCode == code
  {
    if songs != [] {
      QueueMembers(songs[..|songs| - 1], code);
    }
  }

  /** The queue length counts songs by party only, so changes that keep every party code keep it. */
  lemma {:induction false} QueueLengthByCodes(a: seq<Song>, b: seq<Song>, code: Code)
    requires |a| == |b|
    requires forall i :: 0 <= i < |a| ==> a[i].partyCode == b[i].partyCode
    ensures |Queue(a, code)| == |Queue(b, code)|
  {
    if a != [] {
      QueueLengthByCodes(a[..|a| - 1], b[..|b| - 1], code);
    }
  }

  /** Dense positions make each party's queue positions exactly 0, 1, ..., N-1, in insertion order. */
  lemma {:induction false} QueuePositionsConsecutive(songs: seq<Song>, code: Code)
    requires DensePositions(songs)
    ensures forall k :: 0 <= k < |Queue(songs, code)| ==> Queue(songs, code)[k].queuePosition == k
  {
    if songs != [] {
      var init := songs[..|songs| - 1];
      assert DensePositions(init) by {
        forall i | 0 <= i < |init| ensures init[i].queuePosition == |Queue(init[..i], init[i].partyCode)| {
          assert init[..i] == songs[..i];
        }
      }
      QueuePositionsConsecutive(init, code);
      assert songs[..|songs| - 1] == init;
    }
  }

  /** Appending a song whose position is its party's current song count keeps positions dense. */
  lemma DenseAppend(songs: seq<Song>, s: Song)
    requires DensePositions(songs)
    requires s.queuePosition == |Queue(songs, s.partyCode)|
    ensures DensePositions(songs + [s])
  {
    var after := songs + [s];
    forall i | 0 <= i < |after| ensures after[i].queuePosition == |Queue(after[..i], after[i].partyCode)| {
      if i < |songs| {
        assert after[..i] == songs[..i];
      } else {
        assert after[..i] == songs;
      }
    }
  }

  /** Replacing one song by a copy with the same party code and position keeps positions dense. */
  lemma DenseReplace(songs: seq<Song>, k: nat, s: Song)
    requires DensePositions(songs)
    requires k < |songs| && s.partyCode == songs[k].partyCode && s.queuePosition == songs[k].queuePosition
    ensures DensePositions(songs[k := s])
  {
    var after := songs[k := s];
    forall i | 0 <= i < |after| ensures after[i].queuePosition == |Queue(after[..i], after[i].partyCode)| {
      QueueLengthByCodes(after[..i], songs[..i], after[i].partyCode);
    }
  }

  /** A new vote for one song leaves the vote list of every other song as it was. */
  lemma {:induction false} CastLeavesOtherSongs(ps: seq<Participant>, votes: map<VoteKey, int>, key: VoteKey, value: int, songId: Id)
    requires songId != key.0
    ensures VotesFor(songId, ps, votes[key := value]) == VotesFor(songId, ps, votes)
  {
    if ps != [] {
      CastLeavesOtherSongs(ps[..|ps| - 1], votes, key, value, songId);
    }
  }

  /** Recasting an existing vote replaces it: the song's number of votes does not grow. */
  lemma {:induction false} RecastKeepsVoteCount(ps: seq<Participant>, votes: map<VoteKey, int>, key: VoteKey, value: int)
    requires key in votes
    ensures |VotesFor(key.0, ps, votes[key := value])| == |VotesFor(key.0, ps, votes)|
  {
    if ps != [] {
      RecastKeepsVoteCount(ps[..|ps| - 1], votes, key, value);
    }
  }

  /** The standings list every song of the queue exactly once, each scored from its own votes, ranked. */
  lemma StandingsCoverQueue(queue: seq<Song>, ps: seq<Participant>, votes: map<VoteKey, int>)
    ensures var r := StandingsOf(queue, ps, votes);
      && |r| == |queue|
      && Ranked(r)
      && (forall x :: x in r ==> exists k :: 0 <= k < |queue| && x == ScoreSong(queue[k], VotesFor(queue[k].id, ps, votes)))
      && (forall k :: 0 <= k < |queue| ==> ScoreSong(queue[k], VotesFor(queue[k].id, ps, votes)) in r)
  {
    var scored := seq(|queue|, i requires 0 <= i < |queue| => ScoreSong(queue[i], VotesFor(queue[i].id, ps, votes)));
    var r := StandingsOf(queue, ps, votes);
    assert multiset(r) == multiset(scored);
    forall x | x in r ensures exists k :: 0 <= k < |queue| && x == ScoreSong(queue[k], VotesFor(queue[k].id, ps, votes)) {
      assert x in multiset(scored);
      var k :| 0 <= k < |scored| && scored[k] == x;
    }
    forall k | 0 <= k < |queue| ensures ScoreSong(queue[k], VotesFor(queue[k].id, ps, votes)) in r {
      assert scored[k] in multiset(r);
    }
  }

  /** With dense positions a party's standings have distinct queue positions, so by
      `Standings.RankedIsUnique` every ranked reordering of them is the standings themselves: the
      comparator alone fixes the order the routes return. */
  lemma StandingsDetermined(songs: seq<Song>, code: Code, ps: seq<Participant>, votes: map<VoteKey, int>,
                            other: seq<ScoredSong>)
    requires DensePositions(songs)
    requires Ranked(other) && multiset(other) == multiset(StandingsOf(Queue(songs, code), ps, votes))
    ensures DistinctPositions(StandingsOf(Queue(songs, code), ps, votes))
    ensures other == StandingsOf(Queue(songs, code), ps, votes)
  {
    var queue := Queue(songs, code);
    QueuePositionsConsecutive(songs, code);
    var scored := seq(|queue|, i requires 0 <= i < |queue| => ScoreSong(queue[i], VotesFor(queue[i].id, ps, votes)));
    forall i, j | 0 <= i < j < |scored| ensures scored[i].song.queuePosition != scored[j].song.queuePosition {
      assert scored[i].song == queue[i] && scored[j].song == queue[j];
    }
    RankDistinct(scored);
    RankedIsUnique(StandingsOf(queue, ps, votes), other);
  }

  /** A queued song sits in the song table at the index its id names. */
  lemma QueuedSongAtItsId(parties: map<Code, PartyRow>, ps: seq<Participant>, songs: seq<Song>, code: Code, k: nat)
    requires IdsIndexed(parties, ps, songs)
    requires k < |Queue(songs, code)|
    ensures Queue(songs, code)[k].id < |songs| && songs[Queue(songs, code)[k].id] == Queue(songs, code)[k]
  {
    QueueMembers(songs, code);
    assert Queue(songs, code)[k] in Queue(songs, code);
    var i :| 0 <= i < |songs| && songs[i] == Queue(songs, code)[k];
  }

  /** Ids are table indices, and every participant and song belongs to an existing party. */
  ghost predicate IdsAreIndices(ps: seq<Participant>)
  {
    forall i :: 0 <= i < |ps| ==> ps[i].id == i
  }

  /** `findUnique` of the requester by id, then the `isHost` test; the requester's party is not compared. */
  function IsHost(ps: seq<Participant>, participantId: Id): (r: bool)
    requires IdsAreIndices(ps)
    ensures r <==> exists p :: p in ps && p.id == participantId && p.isHost
  {
    if participantId < |ps| then
      assert ps[participantId] in ps;
      ps[participantId].isHost
    else
      false
  }

  ghost predicate IdsIndexed(parties: map<Code, PartyRow>, ps: seq<Participant>, songs: seq<Song>)
  {
    && IdsAreIndices(ps)
    && (forall i :: 0 <= i < |ps| ==> ps[i].partyCode in parties)
    && (forall i :: 0 <= i < |songs| ==> songs[i].id == i && songs[i].partyCode in parties)
  }

  /** A capped party never has more regular participants than its cap; the host always counts as one. */
  predicate WithinCap(cap: Option<int>, regulars: nat)
  {
    cap.Some? ==> regulars <= if cap.value < 1 then 1 else cap.value
  }

  /** Every party has exactly one host and keeps to its participant cap. */
  ghost predicate OneHostWithinCap(parties: map<Code, PartyRow>, ps: seq<Participant>)
  {
    forall code :: code in parties ==>
      CountHosts(Members(ps, code)) == 1 && WithinCap(parties[code].maxParticipants, NonSpectatorCount(ps, code))
  }

  /** A vote's song and voter exist, the voter is in the song's party, and the value is +1 or -1. */
  ghost predicate VoteFits(ps: seq<Participant>, songs: seq<Song>, key: VoteKey, value: int)
  {
    key.0 < |songs| && key.1 < |ps| && ps[key.1].partyCode == songs[key.0].partyCode && (value == 1 || value == -1)
  }

  ghost predicate VotesFit(ps: seq<Participant>, songs: seq<Song>, votes: map<VoteKey, int>)
  {
    forall key :: key in votes ==> VoteFits(ps, songs, key, votes[key])
  }

  /** The store invariant. */
  ghost predicate Consistent(parties: map<Code, PartyRow>, ps: seq<Participant>, songs: seq<Song>, votes: map<VoteKey, int>)
  {
    IdsIndexed(parties, ps, songs) && DensePositions(songs) && OneHostWithinCap(parties, ps) && VotesFit(ps, songs, votes)
  }

  lemma {:induction false} NoQueue(songs: seq<Song>, code: Code)
    requires forall i :: 0 <= i < |songs| ==> songs[i].partyCode != code
    ensures Queue(songs, code) == []
  {
    if songs != [] {
      NoQueue(songs[..|songs| - 1], code);
    }
  }

  /** A new participant with the next id, of a party in the (possibly grown) party table, keeps ids indexed. */
  lemma IdsGrow(parties: map<Code, PartyRow>, parties': map<Code, PartyRow>, ps: seq<Participant>, songs: seq<Song>, p: Participant)
    requires IdsIndexed(parties, ps, songs)
    requires parties.Keys <= parties'.Keys && p.id == |ps| && p.partyCode in parties'
    ensures IdsIndexed(parties', ps + [p], songs)
  {
    var ps' := ps + [p];
    forall i | 0 <= i < |ps'| ensures ps'[i].id == i && ps'[i].partyCode in parties' {
      if i < |ps| { assert ps'[i] == ps[i]; }
    }
  }

  /** Appending a participant keeps every stored vote well-formed. */
  lemma VotesFitGrow(ps: seq<Participant>, songs: seq<Song>, votes: map<VoteKey, int>, p: Participant)
    requires VotesFit(ps, songs, votes)
    ensures VotesFit(ps + [p], songs, votes)
  {
    var ps' := ps + [p];
    forall key | key in votes ensures VoteFits(ps', songs, key, votes[key]) {
      assert ps'[key.1] == ps[key.1];
    }
  }

  /** A party with a fresh code and its host as sole participant keeps the store consistent. */
  lemma CreateKeepsConsistent(parties: map<Code, PartyRow>, ps: seq<Participant>, songs: seq<Song>, votes: map<VoteKey, int>,
                              code: Code, row: PartyRow, host: Participant,
                              parties': map<Code, PartyRow>, ps': seq<Participant>)
    requires Consistent(parties, ps, songs, votes)
    requires code !in parties
    requires host == Participant(|ps|, code, host.displayName, true, false)
    requires parties' == parties[code := row] && ps' == ps + [host]
    ensures Consistent(parties', ps', songs, votes)
    ensures Members(ps', code) == [host] && Queue(songs, code) == []
  {
    IdsGrow(parties, parties[code := row], ps, songs, host);
    NoMembers(ps, code);
    MembersAppend(ps, host, code);
    CreateKeepsHosts(parties, ps, code, row, host);
    VotesFitGrow(ps, songs, votes, host);
    NoQueue(songs, code);
  }

  lemma CreateKeepsHosts(parties: map<Code, PartyRow>, ps: seq<Participant>, code: Code, row: PartyRow, host: Participant)
    requires OneHostWithinCap(parties, ps)
    requires code !in parties && host.partyCode == code && host.isHost && !host.isSpectator
    requires Members(ps + [host], code) == [host]
    ensures OneHostWithinCap(parties[code := row], ps + [host])
  {
    var ps' := ps + [host];
    forall c | c in parties[code := row]
      ensures CountHosts(Members(ps', c)) == 1 && WithinCap(parties[code := row][c].maxParticipants, NonSpectatorCount(ps', c))
    {
      if c == code {
        CountsAppend([], host);
        assert [] + [host] == [host];
      } else {
        MembersAppend(ps, host, c);
        assert Members(ps', c) == Members(ps, c);
      }
    }
  }

  /** A new non-host participant of an existing party keeps the store consistent, provided a regular
      joiner is only admitted below the cap. */
  lemma JoinKeepsConsistent(parties: map<Code, PartyRow>, ps: seq<Participant>, songs: seq<Song>, votes: map<VoteKey, int>,
                            p: Participant)
    requires Consistent(parties, ps, songs, votes)
    requires p.partyCode in parties && p.id == |ps| && !p.isHost
    requires !p.isSpectator && parties[p.partyCode].maxParticipants.Some? ==>
      NonSpectatorCount(ps, p.partyCode) < parties[p.partyCode].maxParticipants.value
    ensures Consistent(parties, ps + [p], songs, votes)
  {
    var ps' := ps + [p];
    IdsGrow(parties, parties, ps, songs, p);
    VotesFitGrow(ps, songs, votes, p);
    assert OneHostWithinCap(parties, ps') by {
      forall c | c in parties
        ensures CountHosts(Members(ps', c)) == 1 && WithinCap(parties[c].maxParticipants, NonSpectatorCount(ps', c))
      {
        MembersAppend(ps, p, c);
        if c == p.partyCode {
          CountsAppend(Members(ps, c), p);
          assert NonSpectatorCount(ps', c) == NonSpectatorCount(ps, c) + (if p.isSpectator then 0 else 1);
        } else {
          assert Members(ps', c) == Members(ps, c);
        }
      }
    }
  }

  /** Changing a party's status alone keeps the store consistent. */
  lemma StatusKeepsConsistent(parties: map<Code, PartyRow>, ps: seq<Participant>, songs: seq<Song>, votes: map<VoteKey, int>,
                              code: Code, status: Status)
    requires Consistent(parties, ps, songs, votes)
    requires code in parties
    ensures Consistent(parties[code := parties[code].(status := status)], ps, songs, votes)
  {
    var parties' := parties[code := parties[code].(status := status)];
    assert parties'.Keys == parties.Keys;
    assert OneHostWithinCap(parties', ps) by {
      forall c | c in parties'
        ensures CountHosts(Members(ps, c)) == 1 && WithinCap(parties'[c].maxParticipants, NonSpectatorCount(ps, c))
      {
        assert parties'[c].maxParticipants == parties[c].maxParticipants;
      }
    }
  }

  /** Replacing a song by a copy that differs only in `playedAt` keeps the store consistent. */
  lemma StampKeepsConsistent(parties: map<Code, PartyRow>, ps: seq<Participant>, songs: seq<Song>, votes: map<VoteKey, int>,
                             k: nat, now: int)
    requires Consistent(parties, ps, songs, votes)
    requires k < |songs|
    ensures Consistent(parties, ps, songs[k := songs[k].(playedAt := Some(now))], votes)
  {
    var s := songs[k].(playedAt := Some(now));
    var songs' := songs[k := s];
    DenseReplace(songs, k, s);
    assert IdsIndexed(parties, ps, songs') by {
      forall i | 0 <= i < |songs'| ensures songs'[i].id == i && songs'[i].partyCode in parties {
        assert songs'[i].id == songs[i].id && songs'[i].partyCode == songs[i].partyCode;
      }
    }
    assert VotesFit(ps, songs', votes) by {
      forall key | key in votes ensures VoteFits(ps, songs', key, votes[key]) {
        assert songs'[key.0].partyCode == songs[key.0].partyCode;
      }
    }
  }

  /** Appending a song of an existing party at its party's song count keeps the store consistent. */
  lemma AppendSongKeepsConsistent(parties: map<Code, PartyRow>, ps: seq<Participant>, songs: seq<Song>, votes: map<VoteKey, int>,
                                  s: Song)
    requires Consistent(parties, ps, songs, votes)
    requires s.id == |songs| && s.partyCode in parties && s.queuePosition == |Queue(songs, s.partyCode)|
    ensures Consistent(parties, ps, songs + [s], votes)
  {
    var songs' := songs + [s];
    DenseAppend(songs, s);
    assert IdsIndexed(parties, ps, songs') by {
      forall i | 0 <= i < |songs'| ensures songs'[i].id == i && songs'[i].partyCode in parties {
        if i < |songs| { assert songs'[i] == songs[i]; }
      }
    }
    assert VotesFit(ps, songs', votes) by {
      forall key | key in votes ensures VoteFits(ps, songs', key, votes[key]) {
        assert songs'[key.0] == songs[key.0];
      }
    }
  }

  /** Storing a well-formed vote keeps the store consistent. */
  lemma VoteKeepsConsistent(parties: map<Code, PartyRow>, ps: seq<Participant>, songs: seq<Song>, votes: map<VoteKey, int>,
                            key: VoteKey, value: int)
    requires Consistent(parties, ps, songs, votes)
    requires VoteFits(ps, songs, key, value)
    ensures Consistent(parties, ps, songs, votes[key := value])
  {
  }

  class Database {
    var parties: map<Code, PartyRow>
    /** The participant table; a participant's id is its index. */
    var participants: seq<Participant>
    /** The song table, in insertion order; a song's id is its index. */
    var songs: seq<Song>
    var votes: map<VoteKey, int>
    /** Everything the routes broadcast to party rooms, oldest first. */
    var broadcasts: seq<Delivery>

    ghost predicate Valid()
      reads this
    {
      Consistent(parties, participants, songs, votes)
    }

    constructor ()
      ensures Valid()
      ensures parties == map[] && participants == [] && songs == [] && votes == map[] && broadcasts == []
    {
      parties, participants, songs, votes, broadcasts := map[], [], [], map[], [];
    }

    /** The two writes of `POST /api/parties`: the party row under a fresh code and its host. */
    method AddParty(code: Code, row: PartyRow, host: Participant)
      requires Valid()
      requires code !in parties
      requires host == Participant(|participants|, code, host.displayName, true, false)
      modifies this
      ensures Valid()
      ensures parties == old(parties)[code := row] && participants == old(participants) + [host]
      ensures unchanged(this`songs, this`votes, this`broadcasts)
      ensures Members(participants, code) == [host] && Queue(songs, code) == []
    {
      var parties', participants' := parties[code := row], participants + [host];
      CreateKeepsConsistent(parties, participants, songs, votes, code, row, host, parties', participants');
      parties, participants := parties', participants';
      assert Consistent(parties, participants, songs, votes);
    }

    /** `prisma.party.update(... { status })`: only this party's status changes. */
    method SetStatus(code: Code, status: Status)
      requires Valid() && code in parties
      modifies this
      ensures Valid()
      ensures parties == old(parties)[code := old(parties[code]).(status := status)]
      ensures unchanged(this`participants, this`songs, this`votes, this`broadcasts)
    {
      var parties' := parties[code := parties[code].(status := status)];
      StatusKeepsConsistent(parties, participants, songs, votes, code, status);
      parties := parties';
      assert Consistent(parties, participants, songs, votes);
    }

    /** `prisma.song.update(... { playedAt })`: only this song's `playedAt` changes. */
    method Stamp(id: Id, now: int)
      requires Valid() && id < |songs|
      modifies this
      ensures Valid()
      ensures songs == old(songs)[id := old(songs[id]).(playedAt := Some(now))]
      ensures unchanged(this`parties, this`participants, this`votes, this`broadcasts)
    {
      var songs' := songs[id := songs[id].(playedAt := Some(now))];
      StampKeepsConsistent(parties, participants, songs, votes, id, now);
      songs := songs';
      assert Consistent(parties, participants, songs, votes);
    }

    /** `GET /api/parties/:code`: the party with its participants and its songs in queue order. */
    function Snapshot(code: Code): (r: PartySnapshot)
      reads this
      requires code in parties
      ensures r.code == code && r.status == parties[code].status && r.name == parties[code].name
      ensures r.maxSongs == parties[code].maxSongs && r.songsPerPerson == parties[code].songsPerPerson
      ensures r.maxParticipants == parties[code].maxParticipants
      ensures forall p :: p in r.participants <==> p in participants && p.partyCode == code
      ensures forall s :: s in r.songs <==> s in songs && s.partyCode == code
    {
      var row := parties[code];
      MembersAreParticipants(participants, code);
      QueueMembers(songs, code);
      PartySnapshot(code, row.name, row.status, row.maxSongs, row.songsPerPerson, row.maxParticipants,
        Members(participants, code), Queue(songs, code))
    }
  }

  /** In a consistent store, the snapshot lists the party's songs in queue order: the k-th has queue
      position k. */
  lemma SnapshotInQueueOrder(db: Database, code: Code)
    requires db.Valid() && code in db.parties
    ensures forall k :: 0 <= k < |db.Snapshot(code).songs| ==>
      db.Snapshot(code).songs[k].queuePosition == k && db.Snapshot(code).songs[k].partyCode == code
  {
    QueuePositionsConsecutive(db.songs, code);
    QueueMembers(db.songs, code);
    forall k | 0 <= k < |db.Snapshot(code).songs| ensures db.Snapshot(code).songs[k].partyCode == code {
      assert db.Snapshot(code).songs[k] in Queue(db.songs, code);
    }
  }

  /** Members of a list whose ids are its indices keep increasing ids, all below the list's length. */
  lemma {:induction false} MembersIdsIncrease(ps: seq<Participant>, code: Code)
    requires IdsAreIndices(ps)
    ensures forall i, j :: 0 <= i < j < |Members(ps, code)| ==> Members(ps, code)[i].id < Members(ps, code)[j].id
    ensures forall i :: 0 <= i < |Members(ps, code)| ==> Members(ps, code)[i].id < |ps|
  {
    if ps != [] {
      var init := ps[..|ps| - 1];
      assert IdsAreIndices(init) by {
        forall i | 0 <= i < |init| ensures init[i].id == i {
          assert init[i] == ps[i];
        }
      }
      MembersIdsIncrease(init, code);
    }
  }

  /** A party's queue, drawn from songs whose ids are their indices, keeps increasing ids. */
  lemma {:induction false} QueueIdsIncrease(songs: seq<Song>, code: Code)
    requires forall i :: 0 <= i < |songs| ==> songs[i].id == i
    ensures forall i, j :: 0 <= i < j < |Queue(songs, code)| ==> Queue(songs, code)[i].id < Queue(songs, code)[j].id
    ensures forall i :: 0 <= i < |Queue(songs, code)| ==> Queue(songs, code)[i].id < |songs|
  {
    if songs != [] {
      var init := songs[..|songs| - 1];
      assert forall i :: 0 <= i < |init| ==> init[i].id == i by {
        forall i | 0 <= i < |init| ensures init[i].id == i {
          assert init[i] == songs[i];
        }
      }
      QueueIdsIncrease(init, code);
    }
  }

  lemma {:induction false} MembersAreParticipants(ps: seq<Participant>, code: Code)
    ensures forall p :: p in Members(ps, code) <==> p in ps && p.partyCode == code
  {
    if ps != [] {
      MembersAreParticipants(ps[..|ps| - 1], code);
    }
  }
}
