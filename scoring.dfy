/** The score aggregator: a song's score from its votes, with spectators dampened to one unit. */
module Scoring {
  import opened Records

  /** One stored vote, joined with its voter's spectator flag. */
  datatype Vote = Vote(value: int, isSpectator: bool)

  /** What one vote adds to the sum over voters whose spectator flag equals `spectators`. */
  function Contribution(v: Vote, spectators: bool): int
  {
    if v.isSpectator == spectators then v.value else 0
  }

  /** Sum of the values of the votes whose voter's spectator flag equals `spectators`. */
  function SumWhere(votes: seq<Vote>, spectators: bool): int
  {
    if votes == [] then 0
    else Contribution(votes[0], spectators) + SumWhere(votes[1..], spectators)
  }

  /** The summed votes of regular (non-spectator) participants. */
  function RegularScore(votes: seq<Vote>): int
  {
    SumWhere(votes, false)
  }

  /** The summed votes of spectators, before dampening. */
  function SpectatorNet(votes: seq<Vote>): int
  {
    SumWhere(votes, true)
  }

  function Sign(x: int): (r: int)
    ensures r == 1 <==> x > 0
    ensures r == -1 <==> x < 0
    ensures r == 0 <==> x == 0
  {
    if x > 0 then 1 else if x < 0 then -1 else 0
  }

  /** `computeScore`: regular votes count fully; all spectators together move the score by at most one. */
  function ComputeScore(votes: seq<Vote>): (r: int)
    ensures -1 <= r - RegularScore(votes) <= 1
    ensures r - RegularScore(votes) == 1 <==> SpectatorNet(votes) > 0
    ensures r - RegularScore(votes) == -1 <==> SpectatorNet(votes) < 0
  {
    RegularScore(votes) + Sign(SpectatorNet(votes))
  }

  /** The number of votes with exactly this value (the display counts use 1 and -1). */
  function CountValue(votes: seq<Vote>, value: int): (r: nat)
    ensures r <= |votes|
  {
    if votes == [] then 0
    else (if votes[0].value == value then 1 else 0) + CountValue(votes[1..], value)
  }

  /** Upvotes and downvotes are raw counts over every voter, spectators included. */
  function ScoreSong(song: Song, votes: seq<Vote>): (r: ScoredSong)
    ensures r.song == song
    ensures r.upvotes + r.downvotes <= |votes|
    ensures -1 <= r.score - RegularScore(votes) <= 1
    ensures r.score == ComputeScore(votes)
    ensures r.upvotes == CountValue(votes, 1) && r.downvotes == CountValue(votes, -1)
  {
    CountsBounded(votes);
    ScoredSong(song, CountValue(votes, 1), CountValue(votes, -1), ComputeScore(votes))
  }

  /** No vote is both an upvote and a downvote. */
  lemma {:induction false} CountsBounded(votes: seq<Vote>)
    ensures CountValue(votes, 1) + CountValue(votes, -1) <= |votes|
  {
    if votes != [] {
      CountsBounded(votes[1..]);
    }
  }

  ghost predicate UnitVotes(votes: seq<Vote>)
  {
    forall i :: 0 <= i < |votes| ==> votes[i].value == 1 || votes[i].value == -1
  }

  lemma {:induction false} SumWhereAppend(a: seq<Vote>, b: seq<Vote>, spectators: bool)
    ensures SumWhere(a + b, spectators) == SumWhere(a, spectators) + SumWhere(b, spectators)
  {
    if a == [] {
      assert a + b == b;
    } else {
      assert (a + b)[1..] == a[1..] + b;
      SumWhereAppend(a[1..], b, spectators);
    }
  }

  /** Taking one vote out of a list takes its contribution out of the sum. */
  lemma SumWhereRemove(b: seq<Vote>, k: nat, spectators: bool)
    requires k < |b|
    ensures SumWhere(b, spectators) == Contribution(b[k], spectators) + SumWhere(b[..k] + b[k + 1..], spectators)
  {
    assert b == b[..k] + [b[k]] + b[k + 1..];
    SumWhereAppend(b[..k] + [b[k]], b[k + 1..], spectators);
    SumWhereAppend(b[..k], [b[k]], spectators);
    SumWhereAppend(b[..k], b[k + 1..], spectators);
    assert [b[k]][1..] == [];
  }

  lemma MultisetRemove(b: seq<Vote>, k: nat)
    requires k < |b|
    ensures multiset(b[..k] + b[k + 1..]) == multiset(b) - multiset{b[k]}
  {
    assert b == b[..k] + [b[k]] + b[k + 1..];
    assert multiset(b) == multiset(b[..k]) + multiset{b[k]} + multiset(b[k + 1..]);
  }

  /** A vote that occurs in a list occurs at some index of it. */
  lemma IndexOf(b: seq<Vote>, x: Vote) returns (k: nat)
    requires x in multiset(b)
    ensures k < |b| && b[k] == x
  {
    assert x in b;
    k :| k < |b| && b[k] == x;
  }

  /** Removing the first vote of `a` and the same vote from a reordering `b` leaves reorderings. */
  lemma PermutationRest(a: seq<Vote>, b: seq<Vote>, k: nat)
    requires multiset(a) == multiset(b) && a != [] && k < |b| && b[k] == a[0]
    ensures multiset(a[1..]) == multiset(b[..k] + b[k + 1..])
  {
    MultisetRemove(b, k);
    MultisetRemove(a, 0);
    assert a[..0] + a[1..] == a[1..];
  }

  /** Aggregation is commutative: any reordering of the same votes sums the same. */
  lemma {:induction false} SumWherePermutation(a: seq<Vote>, b: seq<Vote>, spectators: bool)
    requires multiset(a) == multiset(b)
    ensures SumWhere(a, spectators) == SumWhere(b, spectators)
  {
    if a == [] {
      assert |b| == |multiset(b)| == 0;
    } else {
      var k := IndexOf(b, a[0]);
      PermutationRest(a, b, k);
      SumWherePermutation(a[1..], b[..k] + b[k + 1..], spectators);
      SumWhereRemove(b, k, spectators);
    }
  }

  /** The score does not depend on the order in which the votes are listed. */
  lemma ScoreOrderIndependent(a: seq<Vote>, b: seq<Vote>)
    requires multiset(a) == multiset(b)
    ensures ComputeScore(a) == ComputeScore(b)
  {
    SumWherePermutation(a, b, false);
    SumWherePermutation(a, b, true);
  }

  lemma {:induction false} SpectatorsAddNoRegularScore(batch: seq<Vote>)
    requires forall i :: 0 <= i < |batch| ==> batch[i].isSpectator
    ensures RegularScore(batch) == 0
  {
    if batch != [] {
      SpectatorsAddNoRegularScore(batch[1..]);
    }
  }

  /** However many spectator votes are added, the score stays within one of the regular sum. */
  lemma SpectatorBatchDampened(votes: seq<Vote>, batch: seq<Vote>)
    requires forall i :: 0 <= i < |batch| ==> batch[i].isSpectator
    ensures RegularScore(votes + batch) == RegularScore(votes)
    ensures -1 <= ComputeScore(votes + batch) - RegularScore(votes) <= 1
  {
    SumWhereAppend(votes, batch, false);
    SpectatorsAddNoRegularScore(batch);
  }

  /** With only +1/-1 values, the two display counts together count every vote. */
  lemma {:induction false} DisplayCountsCoverVotes(votes: seq<Vote>)
    requires UnitVotes(votes)
    ensures CountValue(votes, 1) + CountValue(votes, -1) == |votes|
  {
    if votes != [] {
      DisplayCountsCoverVotes(votes[1..]);
    }
  }

  /** Without spectators, the score is upvotes minus downvotes. */
  lemma {:induction false} ScoreWithoutSpectators(votes: seq<Vote>)
    requires UnitVotes(votes)
    requires forall i :: 0 <= i < |votes| ==> !votes[i].isSpectator
    ensures SpectatorNet(votes) == 0
    ensures ComputeScore(votes) == CountValue(votes, 1) - CountValue(votes, -1)
  {
    if votes != [] {
      ScoreWithoutSpectators(votes[1..]);
    }
  }

  /** Three regular votes +1, +1, -1 and two spectator votes +1, +1: score 2, 4 up (spectators included), 1 down. */
  lemma MixedVotesExample()
    ensures var votes := [Vote(1, false), Vote(1, false), Vote(-1, false), Vote(1, true), Vote(1, true)];
      ComputeScore(votes) == 2 && CountValue(votes, 1) == 4 && CountValue(votes, -1) == 1
  {
  }
}
