/**
 * `StatsService` (app/services/stats_service.py): the user and global
 * statistics, computed from the repository queries and kept in the TTL
 * cache for 120 seconds under "stats:user:{id}" and "stats:global". The
 * process-wide cache store is modelled as one store per result type; the
 * two key families never meet.
 */
module StatsService {
  import opened Wrappers
  import opened Models
  import Strings
  import Seqs
  import Sorting
  import Cache
  import StatsRepository

  const StatsTtl := 120
  const GlobalKey := "stats:global"
  const UserNotFound := HttpError(404, "User not found")

  function UserKey(userId: int): string {
    "stats:user:" + Strings.IntToString(userId)
  }

  /** The global key is never a user key. */
  lemma GlobalKeyIsNotAUserKey(userId: int)
    ensures UserKey(userId) != GlobalKey
  {
    assert UserKey(userId)[6] == 'u' && GlobalKey[6] == 'g';
  }

  /** `UserStatsRead` */
  datatype UserStats = UserStats(
    averageScore: Option<real>,
    totalWatchedEpisodes: int,
    totalCompleted: int,
    personalRanking: seq<StatsRepository.RankingRow>)

  /** `GlobalStatsRead`: the most watched value is an entry count, the other two are means. */
  datatype GlobalStats = GlobalStats(
    averageScores: seq<StatsRepository.AverageMetric>,
    mostWatched: Option<StatsRepository.CountMetric>,
    bestRated: Option<StatsRepository.AverageMetric>)

  /** The result `get_user_stats` computes on a miss, the personal ranking limited to 10. */
  function UserStatsOf(db: Db, userId: int): UserStats {
    UserStats(
      StatsRepository.AverageScore(db.userAnimes, userId),
      StatsRepository.TotalWatched(db.userAnimes, userId),
      StatsRepository.TotalCompleted(db.userAnimes, userId),
      StatsRepository.PersonalRanking(db.animes, db.userAnimes, userId, 10))
  }

  /**
   * On rows that satisfy the schema's ranges the user statistics are in
   * range: a mean score in [0, 10], non-negative totals, the completed count
   * bounded by the user's entries, and ten ranked titles or all of them.
   */
  lemma UserStatsInRange(db: Db, userId: int)
    requires forall e :: e in db.userAnimes ==> (e.score.None? || 0 <= e.score.value <= 10) && e.episodesWatched >= 0
    ensures var s := UserStatsOf(db, userId);
      && (s.averageScore.Some? ==> 0.0 <= s.averageScore.value <= 10.0)
      && s.totalWatchedEpisodes >= 0
      && 0 <= s.totalCompleted <= |StatsRepository.EntriesOf(db.userAnimes, userId)|
      && |s.personalRanking| == Seqs.Min(10, |StatsRepository.JoinedRows(db.animes, db.userAnimes, userId)|)
  {
    if StatsRepository.AverageScore(db.userAnimes, userId).Some? {
      StatsRepository.AverageScoreInRange(db.userAnimes, userId);
    }
    StatsRepository.TotalWatchedBounds(db.userAnimes, userId);
    StatsRepository.PersonalRankingProperties(db.animes, db.userAnimes, userId, 10);
  }

  /** The result `get_global_stats` computes on a miss, the averages limited to 10. */
  function GlobalStatsOf(db: Db): GlobalStats {
    GlobalStats(
      StatsRepository.GlobalAverageScores(db.animes, db.userAnimes, 10),
      StatsRepository.MostWatched(db.animes, db.userAnimes),
      StatsRepository.BestRated(db.animes, db.userAnimes))
  }

  /** The best rated title heads the average list whenever there is one. */
  lemma BestRatedLeadsAverages(db: Db)
    requires GlobalStatsOf(db).bestRated.Some?
    ensures var g := GlobalStatsOf(db);
      g.averageScores != [] && g.averageScores[0].value == g.bestRated.value.value
  {
    var rows := StatsRepository.AverageRows(db.animes, db.userAnimes);
    StatsRepository.ByAverageDescIsPreorder();
    Sorting.FirstIsLeast(rows, StatsRepository.ByAverageDesc());
  }

  /**
   * `get_user_stats(user_id)` at instant `now`: a fresh cached value is
   * returned as it is, with no check that the user still exists; on a miss
   * an unknown user gives 404 and a known one gets the statistics of the
   * database as it stands, stored for 120 seconds.
   */
  method GetUserStats(db: Db, cache: Cache.CacheStore<UserStats>, userId: int, now: real)
    returns (r: Result<UserStats, HttpError>)
    modifies cache
    ensures var hit := Cache.Lookup(old(cache.data), UserKey(userId), now);
      hit.Some? ==> r == Ok(hit.value) && cache.data == old(cache.data)
    ensures Cache.Lookup(old(cache.data), UserKey(userId), now).None? && FindUser(db.users, userId).None? ==>
      r == Err(UserNotFound) && cache.data == Cache.AfterLookup(old(cache.data), UserKey(userId), now)
    ensures Cache.Lookup(old(cache.data), UserKey(userId), now).None? && FindUser(db.users, userId).Some? ==>
      && r == Ok(UserStatsOf(db, userId))
      && cache.data == old(cache.data)[UserKey(userId) := Cache.Entry(now + StatsTtl as real, UserStatsOf(db, userId))]
  {
    var key := UserKey(userId);
    ghost var before := cache.data;
    var cached := cache.Get(key, now);
    if cached.Some? {
      assert cache.data == Cache.AfterLookup(before, key, now) == before;
      return Ok(cached.value);
    }
    if FindUser(db.users, userId).None? {
      return Err(UserNotFound);
    }
    var result := UserStatsOf(db, userId);
    Cache.MissThenSet(before, key, now, Cache.Entry(now + StatsTtl as real, result));
    cache.Set(key, result, StatsTtl, now);
    r := Ok(result);
  }

  /**
   * `get_global_stats()` at instant `now`: a fresh cached value, or the
   * statistics of the database as it stands, stored for 120 seconds.
   */
  method GetGlobalStats(db: Db, cache: Cache.CacheStore<GlobalStats>, now: real) returns (g: GlobalStats)
    modifies cache
    ensures var hit := Cache.Lookup(old(cache.data), GlobalKey, now);
      hit.Some? ==> g == hit.value && cache.data == old(cache.data)
    ensures Cache.Lookup(old(cache.data), GlobalKey, now).None? ==>
      g == GlobalStatsOf(db) && cache.data == old(cache.data)[GlobalKey := Cache.Entry(now + StatsTtl as real, g)]
  {
    ghost var before := cache.data;
    var cached := cache.Get(GlobalKey, now);
    if cached.Some? {
      g := cached.value;
      assert cache.data == Cache.AfterLookup(before, GlobalKey, now) == before;
      return;
    }
    g := GlobalStatsOf(db);
    Cache.MissThenSet(before, GlobalKey, now, Cache.Entry(now + StatsTtl as real, g));
    cache.Set(GlobalKey, g, StatsTtl, now);
  }

  /** Once a user's key is invalidated, the next read recomputes from the current database. */
  lemma InvalidatedUserStatsAreRecomputed(data: map<string, Cache.Entry<UserStats>>, userId: int, now: real)
    ensures Cache.Lookup(data - {UserKey(userId)}, UserKey(userId), now).None?
  {
  }

  /** A value computed at `t` is served unchanged until `t + 120` inclusive, however the rows change. */
  lemma UserStatsServedWhileFresh(data: map<string, Cache.Entry<UserStats>>, db: Db, userId: int, t: real, now: real)
    requires now <= t + StatsTtl as real
    ensures Cache.Lookup(data[UserKey(userId) := Cache.Entry(t + StatsTtl as real, UserStatsOf(db, userId))],
                         UserKey(userId), now) == Some(UserStatsOf(db, userId))
  {
  }
}
