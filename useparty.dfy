/** The client's view of a party, as the party hook holds it: the party record, the song now playing,
    the unplayed queue, the songs already played, the participants and, once the party ended, the
    winners. Every socket event is a reducer from the old view to the new one. */
module ClientView {
  import opened Common
  import opened Records

  datatype View = View(
    party: Option<PartySnapshot>,
    currentSong: Option<Song>,
    songs: seq<Song>,
    playedSongs: seq<Song>,
    participants: seq<Participant>,
    winners: Option<seq<ScoredSong>>,
    startedAt: Option<int>)

  /** `Array.prototype.filter`: the elements that pass `f`, in their order. */
  function Filter<T(!new)>(s: seq<T>, f: T -> bool): (r: seq<T>)
    ensures |r| <= |s|
    ensures forall x :: x in r <==> x in s && f(x)
  {
    if s == [] then []
    else (if f(s[0]) then [s[0]] else []) + Filter(s[1..], f)
  }

  /** Filtering distributes over concatenation, so it keeps the relative order of what it keeps. */
  lemma {:induction false} FilterAppend<T(!new)>(a: seq<T>, b: seq<T>, f: T -> bool)
    ensures Filter(a + b, f) == Filter(a, f) + Filter(b, f)
  {
    if a == [] {
      assert a + b == b;
    } else {
      assert (a + b)[1..] == a[1..] + b;
      FilterAppend(a[1..], b, f);
    }
  }

  /** A filter that every element passes returns the list itself. */
  lemma {:induction false} FilterKeepsAll<T(!new)>(s: seq<T>, f: T -> bool)
    requires forall x :: x in s ==> f(x)
    ensures Filter(s, f) == s
  {
    if s != [] {
      assert s == [s[0]] + s[1..];
      FilterKeepsAll(s[1..], f);
    }
  }

  /** The timestamp of a played song; only played songs are ever compared. */
  function PlayedTime(s: Song): int
  {
    if s.playedAt.Some? then s.playedAt.value else 0
  }

  function Played(songs: seq<Song>): (r: seq<Song>)
    ensures |r| <= |songs|
    ensures forall x :: x in r <==> x in songs && x.playedAt.Some?
  {
    Filter(songs, (s: Song) => s.playedAt.Some?)
  }

  function Unplayed(songs: seq<Song>): (r: seq<Song>)
    ensures |r| <= |songs|
    ensures forall x :: x in r <==> x in songs && x.playedAt.None?
  {
    Filter(songs, (s: Song) => s.playedAt.None?)
  }

  /** `r` is the first song of `l` with the largest stamp: no song of `l` is later, every song before
      `r` is strictly earlier. */
  ghost predicate EarliestLatest(l: seq<Song>, r: Song)
  {
    && (forall i :: 0 <= i < |l| ==> PlayedTime(l[i]) <= PlayedTime(r))
    && exists j :: 0 <= j < |l| && l[j] == r && forall i :: 0 <= i < j ==> PlayedTime(l[i]) < PlayedTime(r)
  }

  /** The callback of `reduce`: keep the latest song so far, replacing it only on a strictly later stamp. */
  function Latest(latest: Song, rest: seq<Song>): (r: Song)
    ensures r == latest || r in rest
    decreases |rest|
  {
    if rest == [] then latest
    else Latest(if PlayedTime(rest[0]) > PlayedTime(latest) then rest[0] else latest, rest[1..])
  }

  /** The reduce returns the first song of `[latest] + rest` whose stamp is the largest. */
  lemma {:induction false} LatestIsEarliestLatest(latest: Song, rest: seq<Song>)
    ensures EarliestLatest([latest] + rest, Latest(latest, rest))
    decreases |rest|
  {
    var l := [latest] + rest;
    if rest == [] {
      assert l[0] == latest;
    } else {
      var next := if PlayedTime(rest[0]) > PlayedTime(latest) then rest[0] else latest;
      var r := Latest(next, rest[1..]);
      LatestIsEarliestLatest(next, rest[1..]);
      var l' := [next] + rest[1..];
      assert forall i :: 2 <= i < |l| ==> l[i] == l'[i - 1];
      var j' :| 0 <= j' < |l'| && l'[j'] == r && forall i :: 0 <= i < j' ==> PlayedTime(l'[i]) < PlayedTime(r);
      if j' == 0 {
        if next == latest {
          assert l[0] == r;
        } else {
          assert l[1] == r && PlayedTime(l[0]) < PlayedTime(r);
        }
      } else {
        assert l[j' + 1] == r;
        forall i | 0 <= i < j' + 1 ensures PlayedTime(l[i]) < PlayedTime(r) {
          if i >= 2 {
            assert l[i] == l'[i - 1];
          } else {
            assert PlayedTime(l[i]) <= PlayedTime(l'[0]) < PlayedTime(r);
          }
        }
      }
      forall i | 0 <= i < |l| ensures PlayedTime(l[i]) <= PlayedTime(r) {
        if i >= 2 {
          assert l[i] == l'[i - 1];
        } else {
          assert PlayedTime(l[i]) <= PlayedTime(l'[0]);
        }
      }
    }
  }

  /** `findCurrentSong`: nothing unless the party is active and some song was played; otherwise the
      played song with the latest stamp, the earliest of them in list order on a tie. */
  function FindCurrentSong(songs: seq<Song>, status: Status): (r: Option<Song>)
    ensures r.None? <==> status != Active || forall i :: 0 <= i < |songs| ==> songs[i].playedAt.None?
    ensures r.Some? ==> r.value in songs && r.value.playedAt.Some?
    ensures r.Some? ==> forall x :: x in songs && x.playedAt.Some? ==> PlayedTime(x) <= PlayedTime(r.value)
    ensures r.Some? ==> EarliestLatest(Played(songs), r.value)
  {
    if status != Active then None
    else
      var played := Played(songs);
      if played == [] then
        assert forall i :: 0 <= i < |songs| ==> songs[i].playedAt.None? by {
          forall i | 0 <= i < |songs| ensures songs[i].playedAt.None? {
            assert songs[i] in songs;
          }
        }
        None
      else
        assert played == [played[0]] + played[1..];
        assert played[0] in played;
        var r := Latest(played[0], played[1..]);
        LatestIsEarliestLatest(played[0], played[1..]);
        assert EarliestLatest(played, r);
        assert forall x :: x in played ==> PlayedTime(x) <= PlayedTime(r) by {
          forall x | x in played ensures PlayedTime(x) <= PlayedTime(r) {
            var i :| 0 <= i < |played| && played[i] == x;
          }
        }
        Some(r)
  }

  /** The past list after a snapshot: the played songs other than the one now playing. */
  function Past(songs: seq<Song>, playing: Option<Song>): (r: seq<Song>)
    ensures |r| <= |songs|
    ensures forall x :: x in r <==> x in songs && x.playedAt.Some? && (playing.None? || x.id != playing.value.id)
  {
    Filter(songs, (s: Song) => s.playedAt.Some? && (playing.None? || s.id != playing.value.id))
  }

  /** Load and `party:state`: take the snapshot, split its songs into unplayed, past and current. The
      current song and its start time are replaced only when a song is found playing. */
  function ApplySnapshot(v: View, p: PartySnapshot): (r: View)
    ensures r.party == Some(p) && r.participants == p.participants && r.winners == v.winners
    ensures forall x :: x in r.songs <==> x in p.songs && x.playedAt.None?
    ensures FindCurrentSong(p.songs, p.status).None? ==>
      r.currentSong == v.currentSong && r.startedAt == v.startedAt &&
      forall x :: x in r.playedSongs <==> x in p.songs && x.playedAt.Some?
    ensures FindCurrentSong(p.songs, p.status).Some? ==>
      var c := FindCurrentSong(p.songs, p.status).value;
      && r.currentSong == Some(c) && r.startedAt == Some(PlayedTime(c))
      && forall x :: x in r.playedSongs <==> x in p.songs && x.playedAt.Some? && x.id != c.id
  {
    var playing := FindCurrentSong(p.songs, p.status);
    v.(party := Some(p), participants := p.participants,
       songs := Unplayed(p.songs), playedSongs := Past(p.songs, playing),
       currentSong := if playing.Some? then playing else v.currentSong,
       startedAt := if playing.Some? then Some(PlayedTime(playing.value)) else v.startedAt)
  }

  ghost predicate UniqueSongIds(songs: seq<Song>)
  {
    forall i, j :: 0 <= i < j < |songs| ==> songs[i].id != songs[j].id
  }

  /** Songs with a unique id: dropping the one with `c`'s id is dropping `c` itself. */
  lemma {:induction false} DropById(songs: seq<Song>, c: Song)
    requires UniqueSongIds(songs) && c in songs && c.playedAt.Some?
    ensures multiset(Played(songs)) == multiset(Past(songs, Some(c))) + multiset{c}
  {
    assert songs == [songs[0]] + songs[1..];
    var tail := songs[1..];
    assert UniqueSongIds(tail) by {
      forall i, j | 0 <= i < j < |tail| ensures tail[i].id != tail[j].id {
        assert tail[i] == songs[i + 1] && tail[j] == songs[j + 1];
      }
    }
    if songs[0] == c {
      assert forall x :: x in tail ==> x.id != c.id by {
        forall x | x in tail ensures x.id != c.id {
          var k :| 0 <= k < |tail| && tail[k] == x;
          assert songs[k + 1] == x;
        }
      }
      assert Filter(tail, (s: Song) => s.playedAt.Some?) == Filter(tail, (s: Song) => s.playedAt.Some? && (Some(c).None? || s.id != Some(c).value.id)) by {
        FilterSame(tail, c);
      }
    } else {
      assert c in tail;
      DistinctSongsDistinctIds(songs, songs[0], c);
      DropById(tail, c);
    }
  }

  /** On songs none of which has `c`'s id, the past list is the whole played list. */
  lemma {:induction false} FilterSame(songs: seq<Song>, c: Song)
    requires forall x :: x in songs ==> x.id != c.id
    ensures Played(songs) == Past(songs, Some(c))
  {
    if songs != [] {
      assert songs == [songs[0]] + songs[1..];
      assert forall x :: x in songs[1..] ==> x in songs;
      FilterSame(songs[1..], c);
    }
  }

  /** Every song is either unplayed or played. */
  lemma {:induction false} PlayedSplit(songs: seq<Song>)
    ensures multiset(songs) == multiset(Unplayed(songs)) + multiset(Played(songs))
  {
    if songs != [] {
      assert songs == [songs[0]] + songs[1..];
      PlayedSplit(songs[1..]);
    }
  }

  /** With nothing playing, the past list is the whole played list. */
  lemma {:induction false} PastOfNothing(songs: seq<Song>)
    ensures Past(songs, None) == Played(songs)
  {
    if songs != [] {
      PastOfNothing(songs[1..]);
    }
  }

  /** The three parts a snapshot's songs are split into, for any song found playing among them. */
  lemma Partition(songs: seq<Song>, playing: Option<Song>)
    requires UniqueSongIds(songs)
    requires playing.Some? ==> playing.value in songs && playing.value.playedAt.Some?
    ensures multiset(songs) == multiset(Unplayed(songs)) + multiset(Past(songs, playing))
      + (if playing.Some? then multiset{playing.value} else multiset{})
  {
    PlayedSplit(songs);
    if playing.Some? {
      DropById(songs, playing.value);
    } else {
      PastOfNothing(songs);
    }
  }

  /** After a snapshot with unique song ids, the unplayed list, the past list and the song found
      playing make up every song of the snapshot, each exactly once. */
  lemma SnapshotPartition(v: View, p: PartySnapshot)
    requires UniqueSongIds(p.songs)
    ensures var r := ApplySnapshot(v, p);
      var playing := FindCurrentSong(p.songs, p.status);
      multiset(p.songs) == multiset(r.songs) + multiset(r.playedSongs) + (if playing.Some? then multiset{playing.value} else multiset{})
  {
    Partition(p.songs, FindCurrentSong(p.songs, p.status));
  }

  /** The order of the snapshot is kept: splitting the snapshot's songs splits both lists the same way. */
  lemma SnapshotKeepsOrder(v: View, p: PartySnapshot, front: seq<Song>, back: seq<Song>)
    requires p.songs == front + back
    ensures ApplySnapshot(v, p).songs == Unplayed(front) + Unplayed(back)
    ensures var playing := FindCurrentSong(p.songs, p.status);
      ApplySnapshot(v, p).playedSongs == Past(front, playing) + Past(back, playing)
  {
    var playing := FindCurrentSong(p.songs, p.status);
    FilterAppend(front, back, (s: Song) => s.playedAt.None?);
    FilterAppend(front, back, (s: Song) => s.playedAt.Some? && (playing.None? || s.id != playing.value.id));
  }

  predicate HasParticipant(ps: seq<Participant>, id: Id)
  {
    exists i :: 0 <= i < |ps| && ps[i].id == id
  }

  ghost predicate UniqueParticipantIds(ps: seq<Participant>)
  {
    forall i, j :: 0 <= i < j < |ps| ==> ps[i].id != ps[j].id
  }

  /** `participant:joined`: append the participant unless one with its id is already listed. */
  function OnParticipantJoined(v: View, p: Participant): (r: View)
    ensures r.(participants := v.participants) == v
    ensures HasParticipant(v.participants, p.id) ==> r.participants == v.participants
    ensures !HasParticipant(v.participants, p.id) ==> r.participants == v.participants + [p]
    ensures HasParticipant(r.participants, p.id)
  {
    if HasParticipant(v.participants, p.id) then v
    else
      var ps := v.participants + [p];
      assert ps[|ps| - 1].id == p.id;
      v.(participants := ps)
  }

  /** A repeated `participant:joined` changes nothing. */
  lemma JoinedIdempotent(v: View, p: Participant)
    ensures OnParticipantJoined(OnParticipantJoined(v, p), p) == OnParticipantJoined(v, p)
  {
  }

  /** `participant:joined` keeps participant ids unique. */
  lemma JoinedKeepsUnique(v: View, p: Participant)
    requires UniqueParticipantIds(v.participants)
    ensures UniqueParticipantIds(OnParticipantJoined(v, p).participants)
  {
    var ps := OnParticipantJoined(v, p).participants;
    if !HasParticipant(v.participants, p.id) {
      forall i, j | 0 <= i < j < |ps| ensures ps[i].id != ps[j].id {
        if j == |ps| - 1 {
          assert ps[i] == v.participants[i];
        } else {
          assert ps[i] == v.participants[i] && ps[j] == v.participants[j];
        }
      }
    }
  }

  /** `participant:left`: drop every entry with that id, keep the others in order. */
  function OnParticipantLeft(v: View, id: Id): (r: View)
    ensures r.(participants := v.participants) == v
    ensures !HasParticipant(r.participants, id)
    ensures forall q :: q in r.participants <==> q in v.participants && q.id != id
  {
    var ps := Filter(v.participants, (q: Participant) => q.id != id);
    assert !HasParticipant(ps, id) by {
      forall i | 0 <= i < |ps| ensures ps[i].id != id {
        assert ps[i] in ps;
      }
    }
    v.(participants := ps)
  }

  /** `participant:left` keeps the order of those who stay: splitting the list splits the result the
      same way, and a list without that id is returned as it was. */
  lemma LeftKeepsOrder(v: View, id: Id, front: seq<Participant>, back: seq<Participant>)
    requires v.participants == front + back
    ensures OnParticipantLeft(v, id).participants
      == OnParticipantLeft(v.(participants := front), id).participants + OnParticipantLeft(v.(participants := back), id).participants
  {
    FilterAppend(front, back, (q: Participant) => q.id != id);
  }

  /** `participant:left` for an id nobody in the list has changes nothing. */
  lemma LeftUnknownChangesNothing(v: View, id: Id)
    requires !HasParticipant(v.participants, id)
    ensures OnParticipantLeft(v, id) == v
  {
    var keep := (q: Participant) => q.id != id;
    assert forall q :: q in v.participants ==> keep(q) by {
      forall q | q in v.participants ensures keep(q) {
        var i :| 0 <= i < |v.participants| && v.participants[i] == q;
      }
    }
    FilterKeepsAll(v.participants, keep);
  }

  /** A participant that joins and then leaves leaves the list as it was, when it was not listed before. */
  lemma JoinedThenLeft(v: View, p: Participant)
    requires !HasParticipant(v.participants, p.id)
    ensures OnParticipantLeft(OnParticipantJoined(v, p), p.id) == v
  {
    var keep := (q: Participant) => q.id != p.id;
    assert forall q :: q in v.participants ==> keep(q) by {
      forall q | q in v.participants ensures keep(q) {
        var i :| 0 <= i < |v.participants| && v.participants[i] == q;
      }
    }
    FilterAppend(v.participants, [p], keep);
    FilterKeepsAll(v.participants, keep);
    assert Filter([p], keep) == [] by {
      assert [p][1..] == [];
    }
  }

  /** `queue:updated`: the queue becomes the unplayed songs of the payload, in payload order. */
  function OnQueueUpdated(v: View, updated: seq<Song>): (r: View)
    ensures r.(songs := v.songs) == v
    ensures forall x :: x in r.songs <==> x in updated && x.playedAt.None?
  {
    v.(songs := Unplayed(updated))
  }

  /** `queue:updated` keeps the payload's order: splitting the payload splits the new queue the same way. */
  lemma QueueUpdatedKeepsOrder(v: View, updated: seq<Song>, front: seq<Song>, back: seq<Song>)
    requires updated == front + back
    ensures OnQueueUpdated(v, updated).songs == Unplayed(front) + Unplayed(back)
  {
    FilterAppend(front, back, (s: Song) => s.playedAt.None?);
  }

  /** A payload with no played song becomes the queue exactly as sent. */
  lemma QueueUpdatedAllUnplayed(v: View, updated: seq<Song>)
    requires forall x :: x in updated ==> x.playedAt.None?
    ensures OnQueueUpdated(v, updated).songs == updated
  {
    FilterKeepsAll(updated, (s: Song) => s.playedAt.None?);
  }

  predicate HasSong(songs: seq<Song>, id: Id)
  {
    exists i :: 0 <= i < |songs| && songs[i].id == id
  }

  /** `song:playing`: the song that was playing joins the past list unless a song with its id is there
      already; the new song becomes current, leaves the queue, and the party turns active. */
  function OnSongPlaying(v: View, song: Song, startedAt: int): (r: View)
    ensures r.currentSong == Some(song) && r.startedAt == Some(startedAt)
    ensures r.participants == v.participants && r.winners == v.winners
    ensures forall x :: x in r.songs <==> x in v.songs && x.id != song.id
    ensures !HasSong(r.songs, song.id)
    ensures v.currentSong.Some? && !HasSong(v.playedSongs, v.currentSong.value.id) ==>
      r.playedSongs == v.playedSongs + [v.currentSong.value]
    ensures v.currentSong.None? || HasSong(v.playedSongs, v.currentSong.value.id) ==> r.playedSongs == v.playedSongs
    ensures v.party.None? ==> r.party.None?
    ensures v.party.Some? ==> r.party == Some(v.party.value.(status := Active))
  {
    var past := if v.currentSong.Some? && !HasSong(v.playedSongs, v.currentSong.value.id)
      then v.playedSongs + [v.currentSong.value] else v.playedSongs;
    var queue := Filter(v.songs, (s: Song) => s.id != song.id);
    assert !HasSong(queue, song.id) by {
      forall i | 0 <= i < |queue| ensures queue[i].id != song.id {
        assert queue[i] in queue;
      }
    }
    View(if v.party.Some? then Some(v.party.value.(status := Active)) else None,
      Some(song), queue, past, v.participants, v.winners, Some(startedAt))
  }

  /** `song:playing` keeps the order of the remaining queue: splitting the queue splits the result the
      same way. */
  lemma SongPlayingKeepsOrder(v: View, song: Song, startedAt: int, front: seq<Song>, back: seq<Song>)
    requires v.songs == front + back
    ensures OnSongPlaying(v, song, startedAt).songs
      == Filter(front, (s: Song) => s.id != song.id) + Filter(back, (s: Song) => s.id != song.id)
  {
    FilterAppend(front, back, (s: Song) => s.id != song.id);
  }

  /** A `song:playing` for a song that is not queued leaves the queue as it was. */
  lemma SongPlayingUnqueuedKeepsQueue(v: View, song: Song, startedAt: int)
    requires !HasSong(v.songs, song.id)
    ensures OnSongPlaying(v, song, startedAt).songs == v.songs
  {
    var keep := (s: Song) => s.id != song.id;
    assert forall x :: x in v.songs ==> keep(x) by {
      forall x | x in v.songs ensures keep(x) {
        var i :| 0 <= i < |v.songs| && v.songs[i] == x;
      }
    }
    FilterKeepsAll(v.songs, keep);
  }

  /** The queue and the past list share no song id, and the current song is not queued. */
  ghost predicate Separated(v: View)
  {
    && (forall i, j :: 0 <= i < |v.songs| && 0 <= j < |v.playedSongs| ==> v.songs[i].id != v.playedSongs[j].id)
    && (v.currentSong.Some? ==> !HasSong(v.songs, v.currentSong.value.id))
  }

  /** With unique ids, two different songs of the list have different ids. */
  lemma DistinctSongsDistinctIds(songs: seq<Song>, a: Song, b: Song)
    requires UniqueSongIds(songs)
    requires a in songs && b in songs && a != b
    ensures a.id != b.id
  {
    var i :| 0 <= i < |songs| && songs[i] == a;
    var j :| 0 <= j < |songs| && songs[j] == b;
    assert i < j || j < i;
  }

  /** The unplayed list shares no id with the past list nor with the song found playing. */
  lemma PartsSeparated(songs: seq<Song>, playing: Option<Song>)
    requires UniqueSongIds(songs)
    requires playing.Some? ==> playing.value in songs && playing.value.playedAt.Some?
    ensures forall i, j :: 0 <= i < |Unplayed(songs)| && 0 <= j < |Past(songs, playing)| ==>
      Unplayed(songs)[i].id != Past(songs, playing)[j].id
    ensures playing.Some? ==> !HasSong(Unplayed(songs), playing.value.id)
  {
    var queue, past := Unplayed(songs), Past(songs, playing);
    forall i, j | 0 <= i < |queue| && 0 <= j < |past| ensures queue[i].id != past[j].id {
      assert queue[i] in queue && past[j] in past;
      DistinctSongsDistinctIds(songs, queue[i], past[j]);
    }
    if playing.Some? {
      forall i | 0 <= i < |queue| ensures queue[i].id != playing.value.id {
        assert queue[i] in queue;
        DistinctSongsDistinctIds(songs, queue[i], playing.value);
      }
    }
  }

  /** After a snapshot with unique song ids, queue, past list and current song are apart, provided a
      current song kept from before the snapshot is not an unplayed song of it. */
  lemma SnapshotSeparates(v: View, p: PartySnapshot)
    requires UniqueSongIds(p.songs)
    requires v.currentSong.Some? ==> forall s :: s in p.songs && s.id == v.currentSong.value.id ==> s.playedAt.Some?
    ensures Separated(ApplySnapshot(v, p))
  {
    var playing := FindCurrentSong(p.songs, p.status);
    PartsSeparated(p.songs, playing);
    if playing.None? && v.currentSong.Some? {
      var queue := Unplayed(p.songs);
      forall i | 0 <= i < |queue| ensures queue[i].id != v.currentSong.value.id {
        assert queue[i] in queue;
      }
    }
  }

  /** `song:playing` keeps the queue and the past list apart, and the new current song out of the queue. */
  lemma SongPlayingKeepsSeparated(v: View, song: Song, startedAt: int)
    requires Separated(v)
    ensures Separated(OnSongPlaying(v, song, startedAt))
  {
    var r := OnSongPlaying(v, song, startedAt);
    forall i, j | 0 <= i < |r.songs| && 0 <= j < |r.playedSongs| ensures r.songs[i].id != r.playedSongs[j].id {
      assert r.songs[i] in r.songs;
      var k :| 0 <= k < |v.songs| && v.songs[k] == r.songs[i];
      if j < |v.playedSongs| {
        assert r.playedSongs[j] == v.playedSongs[j];
      } else {
        assert r.playedSongs[j] == v.currentSong.value;
      }
    }
  }

  /** `party:ended`: the winners are the payload and the party, if loaded, is ended. */
  function OnPartyEnded(v: View, standings: seq<ScoredSong>): (r: View)
    ensures r.winners == Some(standings)
    ensures r.(winners := v.winners, party := v.party) == v
    ensures v.party.None? ==> r.party.None?
    ensures v.party.Some? ==> r.party == Some(v.party.value.(status := Ended))
  {
    v.(winners := Some(standings), party := if v.party.Some? then Some(v.party.value.(status := Ended)) else None)
  }
}
