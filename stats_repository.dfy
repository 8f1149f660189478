/**
 * The aggregate queries of `StatsRepository`
 * (app/repositories/stats_repository.py), stated as functions over the rows
 * of the catalogue and tracking tables. `ORDER BY` is the stable sort of
 * `Sorting`; the table order it keeps among equal keys is the model's, not
 * a promise of the database.
 */
module StatsRepository {
  import opened Wrappers
  import opened Models
  import Seqs
  import Sorting

  /** The tracking entries of one user, in table order. */
  function EntriesOf(entries: seq<UserAnime>, userId: int): (r: seq<UserAnime>)
    ensures forall k :: 0 <= k < |r| ==> r[k] in entries && r[k].userId == userId
    ensures forall e :: e in entries && e.userId == userId ==> e in r
  {
    Seqs.FilterComplete(entries, (e: UserAnime) => e.userId == userId);
    Seqs.Filter(entries, (e: UserAnime) => e.userId == userId)
  }

  /** The non-null scores of `entries`, in order (`score IS NOT NULL`). */
  function ScoresOf(entries: seq<UserAnime>): (r: seq<int>)
    ensures |r| <= |entries|
    ensures r == [] <==> forall k :: 0 <= k < |entries| ==> entries[k].score.None?
  {
    if entries == [] then []
    else (if entries[0].score.Some? then [entries[0].score.value] else []) + ScoresOf(entries[1..])
  }

  /** Every score collected is the score of one of the entries. */
  lemma {:induction false} ScoresOfComeFromEntries(entries: seq<UserAnime>)
    ensures forall x :: x in ScoresOf(entries) ==> exists e :: e in entries && e.score == Some(x)
  {
    if entries != [] {
      ScoresOfComeFromEntries(entries[1..]);
      forall x | x in ScoresOf(entries)
        ensures exists e :: e in entries && e.score == Some(x)
      {
        if entries[0].score == Some(x) {
        } else {
          assert x in ScoresOf(entries[1..]);
          var e :| e in entries[1..] && e.score == Some(x);
          assert e in entries;
        }
      }
    }
  }

  /** SQL `AVG`: nothing over no rows, otherwise the arithmetic mean. */
  function Mean(xs: seq<int>): (r: Option<real>)
    ensures r.None? <==> xs == []
  {
    if xs == [] then None else Some(Seqs.Sum(xs) as real / |xs| as real)
  }

  lemma {:induction false} SumBounds(xs: seq<int>, lo: int, hi: int)
    requires forall k :: 0 <= k < |xs| ==> lo <= xs[k] <= hi
    ensures lo * |xs| <= Seqs.Sum(xs) <= hi * |xs|
  {
    if xs != [] {
      SumBounds(xs[1..], lo, hi);
      assert lo * |xs| == lo + lo * |xs[1..]|;
      assert hi * |xs| == hi + hi * |xs[1..]|;
    }
  }

  lemma CastProduct(a: int, b: int)
    ensures (a * b) as real == a as real * b as real
  {
  }

  lemma DivAtLeast(s: real, n: real, c: real)
    requires n > 0.0 && c * n <= s
    ensures c <= s / n
  {
    var q := s / n;
    assert q * n == s;
    if q < c {
      assert q * n < c * n;
    }
  }

  lemma DivAtMost(s: real, n: real, c: real)
    requires n > 0.0 && s <= c * n
    ensures s / n <= c
  {
    var q := s / n;
    assert q * n == s;
    if q > c {
      assert q * n > c * n;
    }
  }

  lemma QuotientBounds(sum: int, n: int, lo: int, hi: int)
    requires n > 0 && lo * n <= sum <= hi * n
    ensures lo as real <= sum as real / n as real <= hi as real
  {
    CastProduct(lo, n);
    CastProduct(hi, n);
    DivAtLeast(sum as real, n as real, lo as real);
    DivAtMost(sum as real, n as real, hi as real);
  }

  /** A mean lies between the least and the greatest bound of the values. */
  lemma MeanBounds(xs: seq<int>, lo: int, hi: int)
    requires xs != [] && forall k :: 0 <= k < |xs| ==> lo <= xs[k] <= hi
    ensures lo as real <= Mean(xs).value <= hi as real
  {
    SumBounds(xs, lo, hi);
    QuotientBounds(Seqs.Sum(xs), |xs|, lo, hi);
  }

  /** `get_user_average_score`: the mean of the user's non-null scores, or nothing when there are none. */
  function AverageScore(entries: seq<UserAnime>, userId: int): (r: Option<real>)
    ensures r.None? <==> forall e :: e in entries && e.userId == userId ==> e.score.None?
  {
    var mine := EntriesOf(entries, userId);
    assert forall e :: e in entries && e.userId == userId ==> exists k :: 0 <= k < |mine| && mine[k] == e;
    Mean(ScoresOf(mine))
  }

  /** With every score in the schema's range and one scored entry of the user, the user average lies in [0, 10]. */
  lemma AverageScoreInRange(entries: seq<UserAnime>, userId: int)
    requires forall e :: e in entries ==> e.score.None? || 0 <= e.score.value <= 10
    requires exists e :: e in entries && e.userId == userId && e.score.Some?
    ensures AverageScore(entries, userId).Some? && 0.0 <= AverageScore(entries, userId).value <= 10.0
  {
    var scores := ScoresOf(EntriesOf(entries, userId));
    ScoresOfComeFromEntries(EntriesOf(entries, userId));
    assert forall k :: 0 <= k < |scores| ==> scores[k] in scores;
    MeanBounds(scores, 0, 10);
  }

  /** `get_user_total_watched_episodes`: the sum of `episodes_watched` over the user's entries, 0 for none. */
  function TotalWatched(entries: seq<UserAnime>, userId: int): (r: int)
    decreases |entries|
  {
    if entries == [] then 0
    else (if entries[0].userId == userId then entries[0].episodesWatched else 0) + TotalWatched(entries[1..], userId)
  }

  /** Progress is never negative, so neither is the total; it is 0 for a user with no entries. */
  lemma {:induction false} TotalWatchedBounds(entries: seq<UserAnime>, userId: int)
    requires forall e :: e in entries ==> e.episodesWatched >= 0
    ensures TotalWatched(entries, userId) >= 0
    ensures (forall e :: e in entries ==> e.userId != userId) ==> TotalWatched(entries, userId) == 0
  {
    if entries != [] {
      assert entries[0] in entries;
      assert forall e :: e in entries[1..] ==> e in entries;
      TotalWatchedBounds(entries[1..], userId);
    }
  }

  /** Other users' entries do not count, and a user's total adds over a split of the table. */
  lemma {:induction false} TotalWatchedAppend(a: seq<UserAnime>, b: seq<UserAnime>, userId: int)
    ensures TotalWatched(a + b, userId) == TotalWatched(a, userId) + TotalWatched(b, userId)
  {
    if a == [] {
      assert a + b == b;
    } else {
      assert (a + b)[1..] == a[1..] + b;
      TotalWatchedAppend(a[1..], b, userId);
    }
  }

  /** `get_user_total_completed`: how many of the user's entries are "completed". */
  function TotalCompleted(entries: seq<UserAnime>, userId: int): (r: nat)
    ensures r <= |EntriesOf(entries, userId)|
  {
    |Seqs.Filter(EntriesOf(entries, userId), (e: UserAnime) => e.status == "completed")|
  }

  // ---------------------------------------------------------------------
  // get_user_personal_ranking

  /** One row of the personal ranking: the joined title and the entry's tracking columns. */
  datatype RankingRow = RankingRow(animeId: int, title: string, status: string, score: Option<int>, episodesWatched: int)

  /** The user's entries whose title exists (the inner join), in table order. */
  function JoinedEntries(animes: seq<Anime>, entries: seq<UserAnime>, userId: int): (r: seq<UserAnime>)
    ensures forall k :: 0 <= k < |r| ==> r[k] in entries && r[k].userId == userId && FindAnime(animes, r[k].animeId).Some?
  {
    Seqs.Filter(entries, (e: UserAnime) => e.userId == userId && FindAnime(animes, e.animeId).Some?)
  }

  function RowOf(a: Anime, e: UserAnime): RankingRow {
    RankingRow(a.id, a.title, e.status, e.score, e.episodesWatched)
  }

  /** The join `Anime JOIN UserAnime` restricted to one user. */
  function JoinedRows(animes: seq<Anime>, entries: seq<UserAnime>, userId: int): (r: seq<RankingRow>)
    ensures var es := JoinedEntries(animes, entries, userId);
      |r| == |es| && forall k :: 0 <= k < |es| ==> r[k] == RowOf(FindAnime(animes, es[k].animeId).value, es[k])
  {
    var es := JoinedEntries(animes, entries, userId);
    seq(|es|, k requires 0 <= k < |es| => RowOf(FindAnime(animes, es[k].animeId).value, es[k]))
  }

  /**
   * `ORDER BY (score IS NULL), score DESC, episodes_watched DESC`: scored
   * rows first, higher scores first, then more progress first.
   */
  function RankedBefore(): (RankingRow, RankingRow) -> bool {
    (a: RankingRow, b: RankingRow) =>
      if a.score.Some? && b.score.Some? then
        a.score.value > b.score.value || (a.score.value == b.score.value && a.episodesWatched >= b.episodesWatched)
      else if a.score.None? && b.score.None? then a.episodesWatched >= b.episodesWatched
      else a.score.Some?
  }

  lemma RankedBeforeIsPreorder()
    ensures Sorting.TotalPreorder(RankedBefore())
  {
    var le := RankedBefore();
    forall a: RankingRow, b: RankingRow
      ensures le(a, b) || le(b, a)
    {
      if a.score.Some? && b.score.Some? {
        if a.score.value == b.score.value {
          assert a.episodesWatched >= b.episodesWatched ==> le(a, b);
          assert b.episodesWatched >= a.episodesWatched ==> le(b, a);
        }
      } else if a.score.None? && b.score.None? {
        assert a.episodesWatched >= b.episodesWatched ==> le(a, b);
        assert b.episodesWatched >= a.episodesWatched ==> le(b, a);
      }
    }
    forall a: RankingRow, b: RankingRow, c: RankingRow | le(a, b) && le(b, c)
      ensures le(a, c)
    {
    }
  }

  /** `get_user_personal_ranking(user_id, limit)` */
  function PersonalRanking(animes: seq<Anime>, entries: seq<UserAnime>, userId: int, limit: int): seq<RankingRow>
    requires limit >= 0
  {
    Seqs.Take(Sorting.SortBy(JoinedRows(animes, entries, userId), RankedBefore()), limit)
  }

  /**
   * The ranking keeps `limit` joined rows of the user (all of them when
   * there are fewer), null scores after every score, higher scores first
   * and more progress first among equal scores; no row is repeated beyond
   * its copies among the joined rows, and no row left out ranks strictly
   * ahead of a row kept.
   */
  lemma PersonalRankingProperties(animes: seq<Anime>, entries: seq<UserAnime>, userId: int, limit: int)
    requires limit >= 0
    ensures var top := PersonalRanking(animes, entries, userId, limit);
      var rows := JoinedRows(animes, entries, userId);
      && |top| == Seqs.Min(limit, |rows|)
      && multiset(top) <= multiset(rows)
      && (forall k :: 0 <= k < |top| ==> top[k] in rows)
      && (forall i, j :: 0 <= i < j < |top| && top[i].score.None? ==> top[j].score.None?)
      && (forall i, j :: 0 <= i < j < |top| && top[i].score.Some? && top[j].score.Some? ==>
            top[i].score.value >= top[j].score.value)
      && (forall i, j :: 0 <= i < j < |top| && top[i].score == top[j].score ==>
            top[i].episodesWatched >= top[j].episodesWatched)
      && (forall x, k :: x in rows && x !in top && 0 <= k < |top| ==> RankedBefore()(top[k], x))
  {
    RankedBeforeIsPreorder();
    Sorting.TakeSortedProperties(JoinedRows(animes, entries, userId), RankedBefore(), limit);
  }

  // ---------------------------------------------------------------------
  // Global rankings (`GROUP BY anime.id, anime.title`)

  /** A per-title aggregate: the mean score, or the number of entries. */
  datatype AverageMetric = AverageMetric(animeId: int, title: string, value: real)
  datatype CountMetric = CountMetric(animeId: int, title: string, value: int)

  /** The entries of one title, in table order. */
  function EntriesFor(entries: seq<UserAnime>, animeId: int): seq<UserAnime> {
    Seqs.Filter(entries, (e: UserAnime) => e.animeId == animeId)
  }

  function HasScores(entries: seq<UserAnime>): Anime -> bool {
    (a: Anime) => ScoresOf(EntriesFor(entries, a.id)) != []
  }

  /** One group per title with at least one non-null score, valued by its mean score. */
  function AverageRows(animes: seq<Anime>, entries: seq<UserAnime>): (r: seq<AverageMetric>)
    ensures var scored := Seqs.Filter(animes, HasScores(entries));
      |r| == |scored| && forall k :: 0 <= k < |r| ==>
        r[k] == AverageMetric(scored[k].id, scored[k].title, Mean(ScoresOf(EntriesFor(entries, scored[k].id))).value)
  {
    var scored := Seqs.Filter(animes, HasScores(entries));
    seq(|scored|, k requires 0 <= k < |scored| =>
      AverageMetric(scored[k].id, scored[k].title, Mean(ScoresOf(EntriesFor(entries, scored[k].id))).value))
  }

  /** `ORDER BY value DESC` */
  function ByAverageDesc(): (AverageMetric, AverageMetric) -> bool {
    (x: AverageMetric, y: AverageMetric) => x.value >= y.value
  }

  lemma ByAverageDescIsPreorder()
    ensures Sorting.TotalPreorder(ByAverageDesc())
  {
  }

  /** `get_global_average_scores(limit)` */
  function GlobalAverageScores(animes: seq<Anime>, entries: seq<UserAnime>, limit: int): seq<AverageMetric>
    requires limit >= 0
  {
    Seqs.Take(Sorting.SortBy(AverageRows(animes, entries), ByAverageDesc()), limit)
  }

  /**
   * Each listed title has at least one score and is valued by the mean of
   * its scores; the list is best first, holds `limit` titles when that many
   * are scored, and no scored title left out has a higher mean than one kept.
   */
  lemma GlobalAverageScoresProperties(animes: seq<Anime>, entries: seq<UserAnime>, limit: int)
    requires limit >= 0
    ensures var top := GlobalAverageScores(animes, entries, limit);
      var rows := AverageRows(animes, entries);
      && |top| == Seqs.Min(limit, |Seqs.Filter(animes, HasScores(entries))|)
      && multiset(top) <= multiset(rows)
      && (forall k :: 0 <= k < |top| ==> top[k] in rows)
      && (forall i, j :: 0 <= i < j < |top| ==> top[i].value >= top[j].value)
      && (forall x, k :: x in rows && x !in top && 0 <= k < |top| ==> top[k].value >= x.value)
  {
    ByAverageDescIsPreorder();
    Sorting.TakeSortedProperties(AverageRows(animes, entries), ByAverageDesc(), limit);
  }

  /** A row of the grouped averages belongs to a title that has scores, and carries their mean. */
  lemma AverageRowMeaning(animes: seq<Anime>, entries: seq<UserAnime>, x: AverageMetric)
    requires x in AverageRows(animes, entries)
    ensures exists a :: a in animes && a.id == x.animeId && a.title == x.title
    ensures ScoresOf(EntriesFor(entries, x.animeId)) != []
    ensures x.value == Mean(ScoresOf(EntriesFor(entries, x.animeId))).value
  {
    var scored := Seqs.Filter(animes, HasScores(entries));
    var k :| 0 <= k < |AverageRows(animes, entries)| && AverageRows(animes, entries)[k] == x;
    assert scored[k] in animes && HasScores(entries)(scored[k]);
  }

  /** `get_global_best_rated`: the first group of the averages by value, if any. */
  function BestRated(animes: seq<Anime>, entries: seq<UserAnime>): (r: Option<AverageMetric>)
    ensures r.None? <==> AverageRows(animes, entries) == []
  {
    var sorted := Sorting.SortBy(AverageRows(animes, entries), ByAverageDesc());
    ByAverageDescIsPreorder();
    Sorting.SortByProperties(AverageRows(animes, entries), ByAverageDesc());
    if sorted == [] then None else Some(sorted[0])
  }

  /** The best rated title is a scored title whose mean no other scored title exceeds. */
  lemma BestRatedIsMaximal(animes: seq<Anime>, entries: seq<UserAnime>)
    requires BestRated(animes, entries).Some?
    ensures BestRated(animes, entries).value in AverageRows(animes, entries)
    ensures forall x :: x in AverageRows(animes, entries) ==> BestRated(animes, entries).value.value >= x.value
  {
    ByAverageDescIsPreorder();
    Sorting.FirstIsLeast(AverageRows(animes, entries), ByAverageDesc());
  }

  function Watched(entries: seq<UserAnime>): Anime -> bool {
    (a: Anime) => EntriesFor(entries, a.id) != []
  }

  /** One group per title with at least one entry, valued by its number of entries. */
  function CountRows(animes: seq<Anime>, entries: seq<UserAnime>): (r: seq<CountMetric>)
    ensures var watched := Seqs.Filter(animes, Watched(entries));
      |r| == |watched| && forall k :: 0 <= k < |r| ==>
        r[k] == CountMetric(watched[k].id, watched[k].title, |EntriesFor(entries, watched[k].id)|)
  {
    var watched := Seqs.Filter(animes, Watched(entries));
    seq(|watched|, k requires 0 <= k < |watched| =>
      CountMetric(watched[k].id, watched[k].title, |EntriesFor(entries, watched[k].id)|))
  }

  function ByCountDesc(): (CountMetric, CountMetric) -> bool {
    (x: CountMetric, y: CountMetric) => x.value >= y.value
  }

  lemma ByCountDescIsPreorder()
    ensures Sorting.TotalPreorder(ByCountDesc())
  {
  }

  /** `get_global_most_watched`: the first group of the entry counts by value, if any. */
  function MostWatched(animes: seq<Anime>, entries: seq<UserAnime>): (r: Option<CountMetric>)
    ensures r.None? <==> CountRows(animes, entries) == []
  {
    var sorted := Sorting.SortBy(CountRows(animes, entries), ByCountDesc());
    ByCountDescIsPreorder();
    Sorting.SortByProperties(CountRows(animes, entries), ByCountDesc());
    if sorted == [] then None else Some(sorted[0])
  }

  /**
   * The most watched title is a title with at least one entry, and no
   * tracked title has more entries; there is none exactly when no entry
   * refers to a title of the catalogue.
   */
  lemma MostWatchedIsMaximal(animes: seq<Anime>, entries: seq<UserAnime>)
    ensures MostWatched(animes, entries).None? <==>
      forall a :: a in animes ==> EntriesFor(entries, a.id) == []
    ensures MostWatched(animes, entries).Some? ==>
      && MostWatched(animes, entries).value in CountRows(animes, entries)
      && MostWatched(animes, entries).value.value >= 1
      && forall x :: x in CountRows(animes, entries) ==> MostWatched(animes, entries).value.value >= x.value
  {
    var rows := CountRows(animes, entries);
    var watched := Seqs.Filter(animes, Watched(entries));
    if exists a :: a in animes && EntriesFor(entries, a.id) != [] {
      var a :| a in animes && EntriesFor(entries, a.id) != [];
      assert Watched(entries)(a);
      var j :| 0 <= j < |animes| && animes[j] == a;
      Seqs.FilterComplete(animes, Watched(entries));
      assert a in watched;
    }
    if MostWatched(animes, entries).Some? {
      ByCountDescIsPreorder();
      Sorting.FirstIsLeast(rows, ByCountDesc());
      var k :| 0 <= k < |rows| && rows[k] == MostWatched(animes, entries).value;
      assert Watched(entries)(watched[k]);
    }
  }

  /** The entries built by the statistics tests: scores 10 and 8, progress 87 and 20, one completed. */
  function TestEntries(userId: int, anime1: int, anime2: int, t: Timestamp): seq<UserAnime> {
    [UserAnime(1, userId, anime1, "completed", Some(10), 87, None, None, t),
     UserAnime(2, userId, anime2, "watching", Some(8), 20, None, None, t)]
  }

  /** The user totals the statistics test expects: average 9.0, 107 episodes, one completed. */
  lemma UserTotalsOfTestData(userId: int, anime1: int, anime2: int, t: Timestamp)
    ensures AverageScore(TestEntries(userId, anime1, anime2, t), userId) == Some(9.0)
    ensures TotalWatched(TestEntries(userId, anime1, anime2, t), userId) == 107
    ensures TotalCompleted(TestEntries(userId, anime1, anime2, t), userId) == 1
  {
    TestAverage(userId, anime1, anime2, t);
    TestWatched(userId, anime1, anime2, t);
    TestCompleted(userId, anime1, anime2, t);
  }

  lemma TestAverage(userId: int, anime1: int, anime2: int, t: Timestamp)
    ensures AverageScore(TestEntries(userId, anime1, anime2, t), userId) == Some(9.0)
  {
    var entries := TestEntries(userId, anime1, anime2, t);
    assert EntriesOf(entries, userId) == entries;
    assert ScoresOf(entries[1..]) == [8];
    assert ScoresOf(entries) == [10, 8];
    assert Seqs.Sum([10, 8]) == 18;
  }

  lemma TestWatched(userId: int, anime1: int, anime2: int, t: Timestamp)
    ensures TotalWatched(TestEntries(userId, anime1, anime2, t), userId) == 107
  {
    var entries := TestEntries(userId, anime1, anime2, t);
    assert entries[1..][1..] == [];
    assert TotalWatched(entries[1..], userId) == 20;
  }

  lemma TestCompleted(userId: int, anime1: int, anime2: int, t: Timestamp)
    ensures TotalCompleted(TestEntries(userId, anime1, anime2, t), userId) == 1
  {
    var entries := TestEntries(userId, anime1, anime2, t);
    assert EntriesOf(entries, userId) == entries;
    assert Seqs.Filter(entries, (e: UserAnime) => e.status == "completed") == [entries[0]];
  }

  /** The ranking the statistics test expects: both titles, the score 10 first. */
  lemma RankingOfTestData(a1: Anime, a2: Anime, userId: int, t: Timestamp)
    requires a1.id != a2.id
    ensures var ranking := PersonalRanking([a1, a2], TestEntries(userId, a1.id, a2.id, t), userId, 10);
      |ranking| == 2 && ranking[0].score == Some(10)
  {
    var entries := TestEntries(userId, a1.id, a2.id, t);
    assert FindAnime([a1, a2], a1.id) == Some(a1);
    assert FindAnime([a1, a2], a2.id) == Some(a2);
    var p := (e: UserAnime) => e.userId == userId && FindAnime([a1, a2], e.animeId).Some?;
    assert p(entries[0]) && p(entries[1]);
    assert entries[1..][1..] == [];
    assert Seqs.Filter(entries[1..], p) == [entries[1]];
    assert JoinedEntries([a1, a2], entries, userId) == entries;
    var rows := JoinedRows([a1, a2], entries, userId);
    assert rows == [RowOf(a1, entries[0]), RowOf(a2, entries[1])];
    RankedBeforeIsPreorder();
    Sorting.FirstIsLeast(rows, RankedBefore());
    var sorted := Sorting.SortBy(rows, RankedBefore());
    assert RankedBefore()(sorted[0], rows[0]);
  }
}
