# Party session model

A Dafny model of the party-session core of a collaborative listening-party app. A host creates a party
and others join it with its short code, becoming spectators once a participant cap is reached.
Participants queue songs, up- or down-vote them, and the host advances through the queue. The party
ends with standings ranked by score. Spectator votes together move a song's score by at most one.

The model has these parts:

- `common.dfy` and `records.dfy` hold the records (party rows, participants, songs, scored songs,
  snapshots, push events).
- `scoring.dfy` has the score aggregator. `standings.dfy` has the standings sort.
- `store.dfy` has the in-memory store (`Store.Database`): the party table, the participant, song and
  vote tables, and the log of room broadcasts. It also holds the queries the routes make and the
  store invariant.
- `parties.dfy` has the party routes: create, join, next, end and add song.
- `songs.dfy` has the vote route.
- `handlers.dfy` has the socket membership registry, with `join_room` and `disconnect`.
- `useparty.dfy` has the client's party view. `findCurrentSong`, the snapshot partition and every
  socket event are pure reducers over a `View` record.

Modelling choices:

- Record ids are natural numbers, and each is the record's index in its table.
- A party is keyed by its code.
- Songs are stored in insertion order. `Store.DensePositions` states that each song's queue position
  is the number of songs its party had before it. `Store.QueuePositionsConsecutive` proves that each
  party's positions are then exactly 0, 1, ..., N-1 in table order. For this reason the model reads
  "the party's songs ordered by `queuePosition`" as the party's songs in table order.
- A song's votes are listed in participant order. `Scoring.ScoreOrderIndependent` shows the score
  does not depend on that order.
- Caps are `Option<int>`. `None` stands for a request that gave no cap or a falsy one.
  - `addSong` treats a cap as set only when it is non-zero, because the code tests it for truthiness.
  - `join` treats any present cap as set, because the code tests it with `!== null`. So a cap of 0
    or less turns every joiner into a spectator.
- The party code, the current time and the socket id are parameters. The code is required to be
  fresh.

The code does four things that a reader might not expect. All four are modelled as written:

- `next` and `end` do not look at the party's status, so `next` on an ended party with an unplayed
  song sets it back to active.
- The host check looks up the requester by id only. It does not check that the requester belongs to
  this party.
- A snapshot with no song found playing keeps the view's earlier current song. That song can then
  also appear in the past list, and it stays apart from the queue only when the snapshot does not
  list it as unplayed (`ClientView.SnapshotSeparates`).
- Upvote and downvote counts include spectators' votes. For three regular votes +1, +1, -1 and two
  spectator votes +1, +1, the upvote count is 4 and the score is 2 (`Scoring.MixedVotesExample`).

## Model

| member | source | states |
|---|---|---|
| Scoring.RegularScore | backend/src/routes/parties.ts:12-14 | definition only: the sum of the non-spectators' values; its properties are in `SumWherePermutation`, `SpectatorsAddNoRegularScore` and `SpectatorBatchDampened` |
| Scoring.SpectatorNet | backend/src/routes/parties.ts:16-18 | definition only: the sum of the spectators' values; its properties are in `SumWherePermutation` and `SpectatorBatchDampened` |
| Scoring.CountValue | backend/src/routes/parties.ts:169-170 | the number of votes with one value never exceeds the number of votes; its other properties are in `CountsBounded`, `DisplayCountsCoverVotes` and `ScoreWithoutSpectators` |
| Scoring.ComputeScore | backend/src/routes/parties.ts:11-23 | the score is the regular voters' sum plus at most one; exactly +1 iff the spectators' net is positive, exactly -1 iff it is negative |
| Scoring.Sign | backend/src/routes/parties.ts:20 | the spectator contribution is 1, -1 or 0 exactly when the net is positive, negative or zero |
| Scoring.SumWherePermutation | backend/src/routes/parties.ts:12-18 | a filtered sum is the same for any reordering of the votes |
| Scoring.ScoreOrderIndependent | backend/src/routes/parties.ts:11-23 | the score does not depend on the order of the votes |
| Scoring.SpectatorsAddNoRegularScore | backend/src/routes/parties.ts:12-14 | votes cast only by spectators add nothing to the regular sum |
| Scoring.SpectatorBatchDampened | backend/src/routes/parties.ts:16-22 | adding any number of spectator votes leaves the regular sum unchanged and moves the score by at most one from it |
| Scoring.DisplayCountsCoverVotes | backend/src/routes/parties.ts:169-170 | with +1/-1 votes, upvotes plus downvotes is the number of votes |
| Scoring.ScoreWithoutSpectators | backend/src/routes/parties.ts:166-171 | with no spectators, the score is upvotes minus downvotes |
| Scoring.ScoreSong | backend/src/routes/parties.ts:167-171 | the scored song is the song itself, its score is `computeScore` of its votes, and its upvotes and downvotes are the raw counts of +1 and -1 over every voter; the two counts never exceed the votes and the score is within one of the regular sum |
| Scoring.CountsBounded | backend/src/routes/parties.ts:169-170 | no vote is counted both as an upvote and as a downvote |
| Scoring.MixedVotesExample | backend/src/routes/parties.ts:166-171 | the mixed example scores 2 with 4 upvotes (spectators counted) and 1 downvote |
| Standings.RanksAhead | backend/src/routes/parties.ts:230-233 | definition only: the comparator, higher score first, then lower queue position; `Rank` and `RankedIsUnique` carry its properties |
| Standings.NotBehind | backend/src/routes/parties.ts:173 | definition only: the comparator's "not after" order, which a ranked list keeps between every earlier and later entry; `InsertRanked` and `Rank` carry its properties |
| Standings.Insert | backend/src/routes/parties.ts:173 | inserting one scored song grows the list by exactly that song |
| Standings.InsertRanked | backend/src/routes/parties.ts:173 | insertion into a ranked list keeps it ranked by descending score, then ascending queue position |
| Standings.Rank | backend/src/routes/parties.ts:223-233 | the sorted standings have the same length and the same songs (a permutation), and are ranked |
| Standings.RankedIsUnique | backend/src/routes/parties.ts:230-233 | with distinct queue positions, two rankings of the same songs are equal, so the comparator fixes the standings |
| Standings.InsertDistinct | backend/src/routes/parties.ts:230-233 | inserting a song with a new queue position keeps positions distinct |
| Standings.RankDistinct | backend/src/routes/parties.ts:230-233 | sorting keeps queue positions distinct |
| Store.Members | backend/src/routes/parties.ts:99 | definition only: the party's participants in creation order; `MembersAreParticipants` and `MembersIdsIncrease` carry its properties |
| Store.Queue | backend/src/routes/parties.ts:160-164 | definition only: the party's songs in table order, which dense positions make queue order; `QueueMembers`, `QueuePositionsConsecutive` and `QueueIdsIncrease` carry its properties |
| Store.VotesFor | backend/src/routes/parties.ts:162 | definition only: one song's stored votes, each tagged with its voter's `isSpectator`; `CastLeavesOtherSongs` and `RecastKeepsVoteCount` carry its properties |
| Store.NonSpectatorCount | backend/src/routes/parties.ts:110 | the count `join` compares with the cap never exceeds the number of the party's members |
| Store.NoRegulars | backend/src/routes/parties.ts:110 | no regular is counted exactly when everyone listed is a spectator |
| Store.NoRegularMembers | backend/src/routes/parties.ts:110 | the party's non-spectator count is zero exactly when every participant stored with its code is a spectator |
| Store.CountAddedBy | backend/src/routes/parties.ts:281 | the per-person count never exceeds the queue's length |
| Store.NoneAddedBy | backend/src/routes/parties.ts:281 | the per-person count is zero exactly when no queued song was added by that participant |
| Store.QueueMembers | backend/src/routes/parties.ts:255-258 | a song is in a party's queue exactly when it is stored with that party's code |
| Store.MembersAreParticipants | backend/src/routes/parties.ts:110 | a participant is a party's member exactly when it is stored with that party's code |
| Store.IsHost | backend/src/routes/parties.ts:149-153 | true exactly when some stored participant with that id is a host, whatever its party |
| Store.StandingsOf | backend/src/routes/parties.ts:166-173 | one scored entry per queued song, and the list is ranked |
| Store.FirstUnplayed | backend/src/routes/parties.ts:156 | finds the first unplayed song in queue order; none exactly when every song is played |
| Store.StandingsCoverQueue | backend/src/routes/parties.ts:160-173 | the standings list every song of the party once, each scored from its own votes, and are ranked |
| Store.StandingsDetermined | backend/src/routes/parties.ts:166-173 | under dense positions a party's standings have distinct queue positions, and any ranked reordering of them equals them: the comparator fixes the order `next` and `end` return |
| Store.QueuePositionsConsecutive | backend/src/routes/parties.ts:287-298 | under dense positions, a party's queue positions are 0..N-1 in queue order, with no gaps or repeats |
| Store.DenseAppend | backend/src/routes/parties.ts:287-300 | appending a song at its party's current song count keeps positions dense |
| Store.DenseReplace | backend/src/routes/parties.ts:182-185 | stamping a song keeps positions dense |
| Store.CastLeavesOtherSongs | backend/src/routes/songs.ts:26-30 | a vote for one song leaves every other song's votes unchanged |
| Store.RecastKeepsVoteCount | backend/src/routes/songs.ts:26-30 | recasting an existing vote does not add a vote to the song |
| Store.CreateKeepsConsistent | backend/src/routes/parties.ts:38-58 | a new party whose only participant is its host keeps the store invariant; the party has exactly that participant and no songs |
| Store.JoinKeepsConsistent | backend/src/routes/parties.ts:109-125 | a non-host joiner admitted as a regular only below the cap keeps one host per party and every cap |
| Store.StatusKeepsConsistent | backend/src/routes/parties.ts:158 | a status change keeps the store invariant |
| Store.StampKeepsConsistent | backend/src/routes/parties.ts:182-185 | setting one song's `playedAt` keeps the store invariant |
| Store.AppendSongKeepsConsistent | backend/src/routes/parties.ts:287-300 | appending a song at position "current song count" keeps the store invariant |
| Store.VoteKeepsConsistent | backend/src/routes/songs.ts:26-30 | storing a vote that fits its song and party keeps the store invariant |
| Store.Database.AddParty | backend/src/routes/parties.ts:38-58 | writing a party under a fresh code with its host keeps the store invariant; the party then has exactly that participant and no songs, and nothing else changes |
| Store.Database.SetStatus | backend/src/routes/parties.ts:158 | a status write changes only that party's status and keeps the store invariant |
| Store.Database.Stamp | backend/src/routes/parties.ts:182-185 | a `playedAt` write changes only that song's stamp and keeps the store invariant |
| Store.Database.Snapshot | backend/src/socket/handlers.ts:12-18 | the party state carries the party row's code, name, status and caps, exactly the participants stored with this code, and exactly the songs stored with this code |
| Store.SnapshotInQueueOrder | backend/src/routes/parties.ts:70-78 | the snapshot's songs are this party's, in queue-position order: the k-th has position k |
| Store.MembersIdsIncrease | backend/src/routes/parties.ts:99 | a party's members, drawn from participants whose ids are their indices, have strictly increasing ids |
| Store.QueueIdsIncrease | backend/src/routes/parties.ts:160-164 | a party's queue, drawn from songs whose ids are their indices, has strictly increasing ids |
| SnapshotIds.SnapshotIdsUnique | backend/src/socket/handlers.ts:12-18 | the party state of a consistent store has unique song ids and unique participant ids, as the client reducers assume |
| PartyRoutes.FieldsPresent | backend/src/routes/parties.ts:251 | definition only: participant id, Spotify id, title and artist all given; `AddSongVerdict` states what follows from it |
| PartyRoutes.MayAdd | backend/src/routes/parties.ts:251-274 | definition only: the first five add-song guards pass; `AddSongVerdict` states what follows from it |
| PartyRoutes.CapReached | backend/src/routes/parties.ts:276-283 | an absent or zero cap limits nothing, a positive cap is reached at that count, a negative cap refuses every count |
| PartyRoutes.AddSongVerdict | backend/src/routes/parties.ts:251-285 | missing fields, unknown party, ended party, non-member, spectator, reached queue cap, then reached per-person cap, each give their error in that order; a request is accepted exactly when it passes all seven guards, so a negative cap refuses every request |
| PartyRoutes.CreateParty | backend/src/routes/parties.ts:26-64 | rejects a missing name or display name and changes nothing; otherwise adds the party as waiting with its single host participant and returns it with no songs, as the store now shows it |
| PartyRoutes.Join | backend/src/routes/parties.ts:92-135 | unknown party, ended party and missing name are rejected; joiner is a spectator iff a cap is set and reached, named "Spectator", never host; broadcast `participant:joined` |
| PartyRoutes.Next | backend/src/routes/parties.ts:138-197 | non-host rejected; otherwise the first unplayed song alone is stamped and the party turns active, or the party ends with its standings; `playedAt` is never changed once set |
| PartyRoutes.End | backend/src/routes/parties.ts:200-243 | non-host rejected; otherwise the party ends whatever its status, and the standings of all its songs are returned and broadcast |
| PartyRoutes.AddSong | backend/src/routes/parties.ts:246-315 | the guards in source order (fields, party, ended, membership, spectator, queue cap, per-person cap); on success exactly one song appended at position "song count" and the queue broadcast |
| SongRoutes.VoteVerdict | backend/src/routes/songs.ts:12-24 | a vote is accepted iff it has a voter, its value is +1 or -1, the song exists and the voter is in the song's party; each failure gives its error |
| SongRoutes.Upsert | backend/src/routes/songs.ts:26-30 | the key gets the new value; every other key keeps its value; one value per key |
| SongRoutes.UpsertIdempotent | backend/src/routes/songs.ts:26-30 | casting the same vote twice stores it once |
| SongRoutes.UpsertOverwrites | backend/src/routes/songs.ts:26-30 | a recast replaces the earlier value instead of accumulating |
| SongRoutes.CastVote | backend/src/routes/songs.ts:7-37 | a rejected vote changes nothing; an accepted one is the upsert, whatever the song's `playedAt` or the party's status |
| Records.RoomOf | backend/src/socket/handlers.ts:25 | definition only: the room name `party:` followed by the code; `JoinRoom` and `Disconnect` state their deliveries to it |
| SocketHandlers.Register | backend/src/socket/handlers.ts:26 | this socket maps to the membership; other entries are unchanged |
| SocketHandlers.Unregister | backend/src/socket/handlers.ts:39 | this socket's entry is gone; no other entry is touched |
| SocketHandlers.RegisterThenUnregister | backend/src/socket/handlers.ts:25-41 | joining a room and disconnecting restores the registry when the socket was not registered |
| SocketHandlers.RegisterOverwrites | backend/src/socket/handlers.ts:26 | a second `join_room` on one socket overwrites the first |
| SocketHandlers.Registry.JoinRoom | backend/src/socket/handlers.ts:10-33 | unknown party: error to the socket, map unchanged; otherwise registered and sent the party state |
| SocketHandlers.Registry.Disconnect | backend/src/socket/handlers.ts:35-43 | a registered socket is removed and exactly one `participant:left` goes to its party's room; an unregistered one changes nothing |
| ClientView.PlayedTime | frontend/src/hooks/useParty.ts:44 | definition only: a played song's `playedAt` as a number; `LatestIsEarliestLatest` and `FindCurrentSong` compare songs by it |
| ClientView.Filter | frontend/src/hooks/useParty.ts:74 | keeps exactly the elements that pass the test |
| ClientView.FilterAppend | frontend/src/hooks/useParty.ts:74-75 | filtering distributes over concatenation, so relative order is kept |
| ClientView.FilterKeepsAll | frontend/src/hooks/useParty.ts:128 | a filter every element passes returns the list itself |
| ClientView.Played | frontend/src/hooks/useParty.ts:41 | exactly the songs with a `playedAt`, never more than the list |
| ClientView.Unplayed | frontend/src/hooks/useParty.ts:74 | exactly the songs without a `playedAt`, never more than the list |
| ClientView.Past | frontend/src/hooks/useParty.ts:75 | exactly the played songs whose id differs from the playing song's, never more than the list |
| ClientView.Latest | frontend/src/hooks/useParty.ts:43-45 | the reduce returns one of the songs it was given |
| ClientView.LatestIsEarliestLatest | frontend/src/hooks/useParty.ts:43-45 | the reduce returns the first song with the latest stamp |
| ClientView.FindCurrentSong | frontend/src/hooks/useParty.ts:39-46 | nothing unless active and something was played; otherwise a played song with maximal stamp, the earliest such in list order |
| ClientView.ApplySnapshot | frontend/src/hooks/useParty.ts:106-118 | queue is exactly the unplayed songs, past exactly the played songs other than the current one; current and start time replaced only when a song is playing |
| ClientView.PlayedSplit | frontend/src/hooks/useParty.ts:74-75 | every song is in exactly one of the unplayed and played lists |
| ClientView.PastOfNothing | frontend/src/hooks/useParty.ts:75 | with nothing playing, the past list is every played song |
| ClientView.FilterSame | frontend/src/hooks/useParty.ts:75 | when no song has the current song's id, the past list is every played song |
| ClientView.DropById | frontend/src/hooks/useParty.ts:75 | with unique ids, the past list is the played songs minus exactly the current one |
| ClientView.Partition | frontend/src/hooks/useParty.ts:73-77 | unplayed, past and current together are all songs, each once |
| ClientView.SnapshotPartition | frontend/src/hooks/useParty.ts:109-113 | after a snapshot, queue, past and current are a partition of the snapshot's songs |
| ClientView.SnapshotKeepsOrder | frontend/src/hooks/useParty.ts:110-111 | queue and past keep the snapshot's order |
| ClientView.PartsSeparated | frontend/src/hooks/useParty.ts:109-113 | unplayed songs share no id with the past list or the current song |
| ClientView.SnapshotSeparates | frontend/src/hooks/useParty.ts:106-118 | after a snapshot, queue, past and current song are apart, provided a current song kept from before is not an unplayed song of the snapshot |
| ClientView.OnParticipantJoined | frontend/src/hooks/useParty.ts:120-125 | appends the participant iff its id is not listed; nothing else changes |
| ClientView.HasParticipant | frontend/src/hooks/useParty.ts:122 | definition only: some listed participant has the id; `OnParticipantJoined` and `JoinedIdempotent` state what follows from it |
| ClientView.JoinedIdempotent | frontend/src/hooks/useParty.ts:121-123 | a repeated join changes nothing |
| ClientView.JoinedKeepsUnique | frontend/src/hooks/useParty.ts:120-125 | participant ids stay unique |
| ClientView.OnParticipantLeft | frontend/src/hooks/useParty.ts:127-129 | no entry with that id remains; every entry with another id stays; nothing else changes |
| ClientView.LeftKeepsOrder | frontend/src/hooks/useParty.ts:128 | those who stay keep their order: splitting the list splits the result the same way |
| ClientView.LeftUnknownChangesNothing | frontend/src/hooks/useParty.ts:127-129 | leaving with an id nobody has returns the view unchanged |
| ClientView.JoinedThenLeft | frontend/src/hooks/useParty.ts:120-129 | joining then leaving restores the view for a new participant |
| ClientView.OnQueueUpdated | frontend/src/hooks/useParty.ts:131-134 | the queue holds the payload's unplayed songs and nothing else; nothing else in the view changes |
| ClientView.QueueUpdatedKeepsOrder | frontend/src/hooks/useParty.ts:133 | the queue keeps the payload's order: splitting the payload splits the queue the same way |
| ClientView.QueueUpdatedAllUnplayed | frontend/src/hooks/useParty.ts:133 | a payload with no played song becomes the queue as sent |
| ClientView.OnSongPlaying | frontend/src/hooks/useParty.ts:136-149 | previous current song added to past iff its id is absent; new song current and no song with its id left in the queue, every other queued song kept; status active if a party is loaded |
| ClientView.HasSong | frontend/src/hooks/useParty.ts:141 | definition only: some listed song has the id; `OnSongPlaying` and `SongPlayingUnqueuedKeepsQueue` state what follows from it |
| ClientView.SongPlayingKeepsOrder | frontend/src/hooks/useParty.ts:147 | the rest of the queue keeps its order: splitting the queue splits the result the same way |
| ClientView.SongPlayingUnqueuedKeepsQueue | frontend/src/hooks/useParty.ts:147 | a song that was not queued leaves the queue exactly as it was |
| ClientView.SongPlayingKeepsSeparated | frontend/src/hooks/useParty.ts:136-149 | `song:playing` keeps the queue apart from the past list and the current song |
| ClientView.OnPartyEnded | frontend/src/hooks/useParty.ts:151-154 | winners are the payload and the loaded party is ended; nothing else changes |

## Left out

- Prisma queries, Express request parsing, HTTP status codes and the `try`/`catch` internal-error path are left out. Each route is one atomic step over an in-memory store, and each error is a `Result` error that carries the route's message.
- `generateCode` and its collision loop depend on `Math.random`. The code is a parameter that must not be in use.
- `parseInt` is not modelled, including NaN from unparsable numbers. Caps and `durationMs` arrive as already-parsed integers.
- Prisma's string ids are left out. Ids are table indices handed out in creation order.
- Concurrency is not modelled. The read-then-write races in `join` and `addSong` do not arise, because every handler runs as one sequential step.
- Clocks are not modelled. `playedAt`, `startedAt` and `new Date()` are integer parameters, and the client compares stamps as integers.
- Socket transport is left out: room subscription (`socket.join`), connection state and `socket.io` delivery. Emitted events are appended to an output log.
- ClientView.OnSongPlaying reads the previous song from the view itself. The source reads it from `currentSongRef`, which is updated by an effect after render, so a render-lag difference is not captured.
- The hook's `loading`, `error` and `isConnected` flags, `reload`, and the effect's subscribe/unsubscribe wiring are not modelled.
- Timers, the Spotify integration, the UI components and the other routes (`GET /api/parties/:code` only as `Store.Database.Snapshot`, the Spotify routes) are not part of this model.
