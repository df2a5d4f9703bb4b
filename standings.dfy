/** Final standings: scored songs sorted by descending score, ties by ascending queue position. */
module Standings {
  import opened Records

  /** The sort comparator of the standings is negative: `a` ranks strictly ahead of `b`. */
  predicate RanksAhead(a: ScoredSong, b: ScoredSong)
  {
    a.score > b.score || (a.score == b.score && a.song.queuePosition < b.song.queuePosition)
  }

  /** `a` may stand before `b`: the comparator does not put `b` strictly ahead of `a`. */
  predicate NotBehind(a: ScoredSong, b: ScoredSong)
  {
    a.score > b.score || (a.score == b.score && a.song.queuePosition <= b.song.queuePosition)
  }

  /** Descending score; among equal scores, ascending queue position. */
  ghost predicate Ranked(s: seq<ScoredSong>)
  {
    forall i, j :: 0 <= i < j < |s| ==> NotBehind(s[i], s[j])
  }

  ghost predicate DistinctPositions(s: seq<ScoredSong>)
  {
    forall i, j :: 0 <= i < j < |s| ==> s[i].song.queuePosition != s[j].song.queuePosition
  }

  /** Puts `x` ahead of the first element it does not rank behind, so equal elements keep their order. */
  function Insert(x: ScoredSong, s: seq<ScoredSong>): (r: seq<ScoredSong>)
    ensures |r| == |s| + 1
    ensures multiset(r) == multiset(s) + multiset{x}
  {
    if s == [] || !RanksAhead(s[0], x) then
      [x] + s
    else
      assert s == [s[0]] + s[1..];
      [s[0]] + Insert(x, s[1..])
  }

  lemma {:induction false} InsertRanked(x: ScoredSong, s: seq<ScoredSong>)
    requires Ranked(s)
    ensures Ranked(Insert(x, s))
  {
    var r := Insert(x, s);
    if s == [] || !RanksAhead(s[0], x) {
      assert forall j :: 0 <= j < |s| ==> NotBehind(x, s[j]) by {
        forall j | 0 <= j < |s| ensures NotBehind(x, s[j]) {
          assert NotBehind(s[0], s[j]) || j == 0;
        }
      }
      forall i, j | 0 <= i < j < |r| ensures NotBehind(r[i], r[j]) {
        assert r[j] == s[j - 1];
        if i > 0 {
          assert r[i] == s[i - 1];
        }
      }
    } else {
      var tail := Insert(x, s[1..]);
      RankedTail(s);
      InsertRanked(x, s[1..]);
      assert forall k :: 0 <= k < |tail| ==> NotBehind(s[0], tail[k]) by {
        forall k | 0 <= k < |tail| ensures NotBehind(s[0], tail[k]) {
          assert tail[k] in multiset(tail);
          if tail[k] != x {
            assert tail[k] in multiset(s[1..]);
            var m :| 0 <= m < |s[1..]| && s[1..][m] == tail[k];
            assert s[m + 1] == tail[k];
          }
        }
      }
      forall i, j | 0 <= i < j < |r| ensures NotBehind(r[i], r[j]) {
        assert r[j] == tail[j - 1];
        if i > 0 {
          assert r[i] == tail[i - 1];
        }
      }
    }
  }

  /** The JavaScript sort the routes apply to the scored songs, as a stable insertion sort. */
  function Rank(xs: seq<ScoredSong>): (r: seq<ScoredSong>)
    ensures |r| == |xs|
    ensures multiset(r) == multiset(xs)
    ensures Ranked(r)
  {
    if xs == [] then []
    else
      assert xs == [xs[0]] + xs[1..];
      InsertRanked(xs[0], Rank(xs[1..]));
      Insert(xs[0], Rank(xs[1..]))
  }

  lemma RankedTail(s: seq<ScoredSong>)
    requires Ranked(s) && s != []
    ensures Ranked(s[1..])
  {
    forall i, j | 0 <= i < j < |s[1..]| ensures NotBehind(s[1..][i], s[1..][j]) {
      assert s[1..][i] == s[i + 1] && s[1..][j] == s[j + 1];
    }
  }

  lemma DistinctTail(s: seq<ScoredSong>)
    requires DistinctPositions(s) && s != []
    ensures DistinctPositions(s[1..])
  {
    forall i, j | 0 <= i < j < |s[1..]| ensures s[1..][i].song.queuePosition != s[1..][j].song.queuePosition {
      assert s[1..][i] == s[i + 1] && s[1..][j] == s[j + 1];
    }
  }

  /** Inserting a song whose queue position is new keeps positions distinct. */
  lemma {:induction false} InsertDistinct(x: ScoredSong, s: seq<ScoredSong>)
    requires DistinctPositions(s)
    requires forall y :: y in s ==> y.song.queuePosition != x.song.queuePosition
    ensures DistinctPositions(Insert(x, s))
  {
    var r := Insert(x, s);
    if s == [] || !RanksAhead(s[0], x) {
      forall i, j | 0 <= i < j < |r| ensures r[i].song.queuePosition != r[j].song.queuePosition {
        assert r[j] == s[j - 1];
        if i > 0 {
          assert r[i] == s[i - 1];
        }
      }
    } else {
      var tail := Insert(x, s[1..]);
      DistinctTail(s);
      InsertDistinct(x, s[1..]);
      forall k | 0 <= k < |tail| ensures s[0].song.queuePosition != tail[k].song.queuePosition {
        assert tail[k] in multiset(tail);
        if tail[k] != x {
          assert tail[k] in multiset(s[1..]);
          var m :| 0 <= m < |s[1..]| && s[1..][m] == tail[k];
          assert s[m + 1] == tail[k];
        }
      }
      forall i, j | 0 <= i < j < |r| ensures r[i].song.queuePosition != r[j].song.queuePosition {
        assert r[j] == tail[j - 1];
        if i > 0 {
          assert r[i] == tail[i - 1];
        }
      }
    }
  }

  /** Sorting keeps queue positions distinct. */
  lemma {:induction false} RankDistinct(xs: seq<ScoredSong>)
    requires DistinctPositions(xs)
    ensures DistinctPositions(Rank(xs))
  {
    if xs != [] {
      var rest := Rank(xs[1..]);
      DistinctTail(xs);
      RankDistinct(xs[1..]);
      forall y | y in rest ensures y.song.queuePosition != xs[0].song.queuePosition {
        assert y in multiset(xs[1..]);
        var m :| 0 <= m < |xs[1..]| && xs[1..][m] == y;
        assert xs[m + 1] == y;
      }
      InsertDistinct(xs[0], rest);
    }
  }

  /** Two rankings of the same songs start with the same song when queue positions are distinct. */
  lemma SameHead(a: seq<ScoredSong>, b: seq<ScoredSong>)
    requires Ranked(a) && Ranked(b)
    requires multiset(a) == multiset(b)
    requires DistinctPositions(a)
    requires a != [] && b != []
    ensures a[0] == b[0]
  {
    assert b[0] in multiset(a);
    var i :| 0 <= i < |a| && a[i] == b[0];
    assert a[0] in multiset(b);
    var j :| 0 <= j < |b| && b[j] == a[0];
    assert i == 0 || NotBehind(a[0], a[i]);
    assert j == 0 || NotBehind(b[0], b[j]);
  }

  /** With distinct queue positions the ranking is a strict total order, so the standings are determined. */
  lemma {:induction false} RankedIsUnique(a: seq<ScoredSong>, b: seq<ScoredSong>)
    requires Ranked(a) && Ranked(b)
    requires multiset(a) == multiset(b)
    requires DistinctPositions(a)
    ensures a == b
  {
    assert |a| == |multiset(a)| == |multiset(b)| == |b|;
    if a != [] {
      SameHead(a, b);
      assert a == [a[0]] + a[1..] && b == [b[0]] + b[1..];
      assert multiset(a[1..]) == multiset(a) - multiset{a[0]};
      assert multiset(b[1..]) == multiset(b) - multiset{b[0]};
      RankedTail(a);
      RankedTail(b);
      DistinctTail(a);
      RankedIsUnique(a[1..], b[1..]);
    }
  }
}
