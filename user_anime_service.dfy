/**
 * `UserAnimeService` (app/services/user_anime_service.py): creating,
 * listing and updating a user's tracking entries. Creates and updates run a
 * fixed sequence of guards before they write, and a successful write drops
 * the cached statistics of the user and the global statistics.
 */
module UserAnimeService {
  import opened Wrappers
  import opened Models
  import Schemas
  import Seqs
  import Cache
  import StatsService

  const UserNotFound := HttpError(404, "User not found")
  const AnimeNotFound := HttpError(404, "Anime not found")
  const EntryExists := HttpError(400, "UserAnime entry already exists")
  const InvalidData := HttpError(400, "Invalid UserAnime data")
  const DatabaseUnavailable := HttpError(503, "Database unavailable")
  const EntryNotFound := HttpError(404, "UserAnime entry not found")
  const NotAllowed := HttpError(403, "Not allowed")
  const MixedProgress := HttpError(400, "Use episodes_watched or episodes_increment, not both")
  const ProgressAboveTotal := HttpError(400, "Episodes watched cannot exceed total anime episodes")

  /** `get_by_user_and_anime`: the first entry of the pair. */
  function FindEntry(entries: seq<UserAnime>, userId: int, animeId: int): (r: Option<UserAnime>)
    ensures r.None? <==> forall e :: e in entries ==> e.userId != userId || e.animeId != animeId
    ensures r.Some? ==> r.value in entries && r.value.userId == userId && r.value.animeId == animeId
  {
    if entries == [] then None
    else if entries[0].userId == userId && entries[0].animeId == animeId then Some(entries[0])
    else FindEntry(entries[1..], userId, animeId)
  }

  // ---------------------------------------------------------------------
  // create_user_anime

  /**
   * The guards of `create_user_anime`, in order: the user must exist, then
   * the title, and the pair must not be tracked yet.
   */
  function CreateRefusal(db: Db, p: Schemas.UserAnimeCreate): (r: Option<HttpError>)
    ensures r == Some(UserNotFound) <==> FindUser(db.users, p.userId).None?
    ensures r == Some(AnimeNotFound) <==>
      FindUser(db.users, p.userId).Some? && FindAnime(db.animes, p.animeId).None?
    ensures r == Some(EntryExists) <==>
      && FindUser(db.users, p.userId).Some? && FindAnime(db.animes, p.animeId).Some?
      && FindEntry(db.userAnimes, p.userId, p.animeId).Some?
    ensures r.None? <==>
      && FindUser(db.users, p.userId).Some? && FindAnime(db.animes, p.animeId).Some?
      && FindEntry(db.userAnimes, p.userId, p.animeId).None?
  {
    if FindUser(db.users, p.userId).None? then Some(UserNotFound)
    else if FindAnime(db.animes, p.animeId).None? then Some(AnimeNotFound)
    else if FindEntry(db.userAnimes, p.userId, p.animeId).Some? then Some(EntryExists)
    else None
  }

  /** The new entry holds every payload column, a key no entry uses, and the creation instant. */
  predicate CreatedFrom(db: Db, p: Schemas.UserAnimeCreate, now: Timestamp, e: UserAnime) {
    && e.id !in (set x | x in db.userAnimes :: x.id)
    && e.userId == p.userId && e.animeId == p.animeId && e.status == p.status && e.score == p.score
    && e.episodesWatched == p.episodesWatched && e.startDate == p.startDate && e.finishDate == p.finishDate
    && e.createdAt == now
  }

  /** What `create_user_anime` does to the database and what it answers. */
  ghost predicate CreateSpec(db: Db, p: Schemas.UserAnimeCreate, commit: Commit, now: Timestamp,
                             r: Result<UserAnime, HttpError>, db2: Db)
  {
    var refusal := CreateRefusal(db, p);
    && (refusal.Some? ==> r == Err(refusal.value) && db2 == db)
    && (refusal.None? && commit == IntegrityFailure ==> r == Err(InvalidData) && db2 == db)
    && (refusal.None? && commit == OperationalFailure ==> r == Err(DatabaseUnavailable) && db2 == db)
    && (refusal.None? && commit == Committed ==>
          r.Ok? && CreatedFrom(db, p, now, r.value) && db2 == db.(userAnimes := db.userAnimes + [r.value]))
  }

  /** The guards, then `create_entry` and its commit (a failed commit is rolled back). */
  method CreateEntry(db: Db, p: Schemas.UserAnimeCreate, commit: Commit, now: Timestamp)
    returns (r: Result<UserAnime, HttpError>, db2: Db)
    ensures CreateSpec(db, p, commit, now, r, db2)
  {
    var refusal := CreateRefusal(db, p);
    if refusal.Some? {
      return Err(refusal.value), db;
    }
    if commit == IntegrityFailure {
      return Err(InvalidData), db;
    }
    if commit == OperationalFailure {
      return Err(DatabaseUnavailable), db;
    }
    var ids := EntryIdList(db.userAnimes);
    var created := UserAnime(NextId(ids), p.userId, p.animeId, p.status, p.score, p.episodesWatched,
                             p.startDate, p.finishDate, now);
    assert forall x :: x in db.userAnimes ==> x.id < created.id by {
      forall x | x in db.userAnimes
        ensures x.id < created.id
      {
        var k :| 0 <= k < |db.userAnimes| && db.userAnimes[k] == x;
        assert ids[k] == x.id;
      }
    }
    r, db2 := Ok(created), db.(userAnimes := db.userAnimes + [created]);
  }

  /** A successful create keeps every declared constraint of the schema. */
  lemma CreateKeepsValid(db: Db, p: Schemas.UserAnimeCreate, commit: Commit, now: Timestamp,
                         r: Result<UserAnime, HttpError>, db2: Db)
    requires CreateSpec(db, p, commit, now, r, db2) && Valid(db)
    ensures Valid(db2)
  {
    if r.Ok? {
      var e := r.value;
      assert e.userId in UserIds(db) && e.animeId in AnimeIds(db);
      AppendEntryKeepsValid(db, e);
    }
  }

  /** Appending an entry with a fresh key, a fresh (user, title) pair and existing parents keeps every constraint. */
  lemma AppendEntryKeepsValid(db: Db, e: UserAnime)
    requires Valid(db) && e.userId in UserIds(db) && e.animeId in AnimeIds(db)
    requires e.id !in (set x | x in db.userAnimes :: x.id)
    requires forall x :: x in db.userAnimes ==> x.userId != e.userId || x.animeId != e.animeId
    ensures Valid(db.(userAnimes := db.userAnimes + [e]))
  {
    var db2 := db.(userAnimes := db.userAnimes + [e]);
    assert AnimeIds(db2) == AnimeIds(db) && UserIds(db2) == UserIds(db) && ReviewIds(db2) == ReviewIds(db);
    assert forall x :: x in db2.userAnimes ==> x in db.userAnimes || x == e;
    assert forall k :: 0 <= k < |db.userAnimes| ==> db.userAnimes[k] in db.userAnimes;
  }

  /** A payload that passes validation gives an entry whose columns are in the schema's ranges. */
  lemma CreatedEntryInRange(db: Db, p: Schemas.UserAnimeCreate, now: Timestamp, e: UserAnime)
    requires Schemas.ValidUserAnimeCreate(p) && CreatedFrom(db, p, now, e)
    ensures Schemas.IsTrackingStatus(e.status) && Schemas.ScoreInRange(e.score) && e.episodesWatched >= 0
  {
  }

  // ---------------------------------------------------------------------
  // list_user_animes

  /** `list_by_user(user_id, limit, offset)`: the user's entries in table order, `OFFSET` then `LIMIT`. */
  function ListUserAnimes(db: Db, userId: int, limit: int, offset: int): (r: seq<UserAnime>)
    requires limit >= 0 && offset >= 0
    ensures var mine := Seqs.Filter(db.userAnimes, (e: UserAnime) => e.userId == userId);
      && |r| == Seqs.Min(limit, Seqs.Max(0, |mine| - offset))
      && forall k :: 0 <= k < |r| ==> r[k] == mine[offset + k] && r[k].userId == userId
  {
    Seqs.Take(Seqs.Drop(Seqs.Filter(db.userAnimes, (e: UserAnime) => e.userId == userId), offset), limit)
  }

  // ---------------------------------------------------------------------
  // update_user_anime

  predicate ChangesProgress(p: Schemas.UserAnimeUpdate) {
    p.episodesWatched.Some? || p.episodesIncrement.Some?
  }

  /** The new progress: the absolute value when given, otherwise the old one plus the increment. */
  function Progress(e: UserAnime, p: Schemas.UserAnimeUpdate): (n: int)
    ensures p.episodesWatched.Some? ==> n == p.episodesWatched.value
    ensures p.episodesWatched.None? && p.episodesIncrement.Some? ==> n == e.episodesWatched + p.episodesIncrement.value
    ensures !ChangesProgress(p) ==> n == e.episodesWatched
  {
    if p.episodesWatched.Some? then p.episodesWatched.value
    else if p.episodesIncrement.Some? then e.episodesWatched + p.episodesIncrement.value
    else e.episodesWatched
  }

  /** The progress guards once the title is known: a known episode count (0 included) caps the progress. */
  function ProgressRefusal(e: UserAnime, p: Schemas.UserAnimeUpdate, anime: Option<Anime>): Option<HttpError> {
    if anime.None? then Some(AnimeNotFound)
    else if anime.value.episodes.Some? && Progress(e, p) > anime.value.episodes.value then Some(ProgressAboveTotal)
    else None
  }

  /**
   * The guards of `update_user_anime`, in order: the entry must exist, the
   * caller (when named) must own it, at most one progress field may be
   * given, and a progress change needs the title and respects its episode
   * count.
   */
  function UpdateRefusal(db: Db, entryId: int, p: Schemas.UserAnimeUpdate, currentUserId: Option<int>): (r: Option<HttpError>)
    ensures r == Some(EntryNotFound) <==> IndexOfEntry(db.userAnimes, entryId).None?
    ensures IndexOfEntry(db.userAnimes, entryId).Some? ==>
      var e := db.userAnimes[IndexOfEntry(db.userAnimes, entryId).value];
      var owned := currentUserId.None? || e.userId == currentUserId.value;
      && (r == Some(NotAllowed) <==> !owned)
      && (r == Some(MixedProgress) <==> owned && p.episodesWatched.Some? && p.episodesIncrement.Some?)
      && (owned && !(p.episodesWatched.Some? && p.episodesIncrement.Some?) ==>
            r == if ChangesProgress(p) then ProgressRefusal(e, p, FindAnime(db.animes, e.animeId)) else None)
  {
    match IndexOfEntry(db.userAnimes, entryId)
    case None => Some(EntryNotFound)
    case Some(k) =>
      var e := db.userAnimes[k];
      if currentUserId.Some? && e.userId != currentUserId.value then Some(NotAllowed)
      else if p.episodesWatched.Some? && p.episodesIncrement.Some? then Some(MixedProgress)
      else if ChangesProgress(p) then ProgressRefusal(e, p, FindAnime(db.animes, e.animeId))
      else None
  }

  /** `e` is `prev` with exactly the given fields written and the keys kept. */
  predicate PatchedFrom(prev: UserAnime, p: Schemas.UserAnimeUpdate, e: UserAnime) {
    && e.id == prev.id && e.userId == prev.userId && e.animeId == prev.animeId && e.createdAt == prev.createdAt
    && e.episodesWatched == Progress(prev, p)
    && e.status == (if p.status.Some? then p.status.value else prev.status)
    && e.score == (if p.score.Some? then p.score else prev.score)
    && e.startDate == (if p.startDate.Some? then p.startDate else prev.startDate)
    && e.finishDate == (if p.finishDate.Some? then p.finishDate else prev.finishDate)
  }

  /** What `update_user_anime` does to the database and what it answers. */
  ghost predicate UpdateSpec(db: Db, entryId: int, p: Schemas.UserAnimeUpdate, currentUserId: Option<int>,
                             available: bool, r: Result<UserAnime, HttpError>, db2: Db)
  {
    var refusal := UpdateRefusal(db, entryId, p, currentUserId);
    && (refusal.Some? ==> r == Err(refusal.value) && db2 == db)
    && (refusal.None? && !available ==> r == Err(DatabaseUnavailable) && db2 == db)
    && (refusal.None? && available ==>
          var k := IndexOfEntry(db.userAnimes, entryId).value;
          && r.Ok? && PatchedFrom(db.userAnimes[k], p, r.value)
          && db2 == db.(userAnimes := db.userAnimes[k := r.value]))
  }

  /**
   * The guards, then the field-by-field writes on the loaded entry and the
   * commit; `available` is false when the commit raises OperationalError,
   * which rolls the writes back.
   */
  method ApplyUpdate(db: Db, entryId: int, p: Schemas.UserAnimeUpdate, currentUserId: Option<int>, available: bool)
    returns (r: Result<UserAnime, HttpError>, db2: Db)
    ensures UpdateSpec(db, entryId, p, currentUserId, available, r, db2)
  {
    ghost var refusal := UpdateRefusal(db, entryId, p, currentUserId);
    var k := IndexOfEntry(db.userAnimes, entryId);
    if k.None? {
      RefusedUpdate(db, entryId, p, currentUserId, available, EntryNotFound);
      return Err(EntryNotFound), db;
    }
    var entry := db.userAnimes[k.value];
    ghost var prev := entry;
    if currentUserId.Some? && entry.userId != currentUserId.value {
      RefusedUpdate(db, entryId, p, currentUserId, available, NotAllowed);
      return Err(NotAllowed), db;
    }
    if p.episodesWatched.Some? && p.episodesIncrement.Some? {
      RefusedUpdate(db, entryId, p, currentUserId, available, MixedProgress);
      return Err(MixedProgress), db;
    }
    assert refusal == if ChangesProgress(p) then ProgressRefusal(prev, p, FindAnime(db.animes, prev.animeId)) else None;
    if p.episodesWatched.Some? || p.episodesIncrement.Some? {
      var anime := FindAnime(db.animes, entry.animeId);
      if anime.None? {
        RefusedUpdate(db, entryId, p, currentUserId, available, AnimeNotFound);
        return Err(AnimeNotFound), db;
      }
      var newProgress;
      if p.episodesWatched.Some? {
        newProgress := p.episodesWatched.value;
      } else {
        newProgress := entry.episodesWatched + p.episodesIncrement.value;
      }
      assert newProgress == Progress(prev, p);
      if anime.value.episodes.Some? && newProgress > anime.value.episodes.value {
        RefusedUpdate(db, entryId, p, currentUserId, available, ProgressAboveTotal);
        return Err(ProgressAboveTotal), db;
      }
      entry := entry.(episodesWatched := newProgress);
    }
    assert refusal.None?;
    assert entry == prev.(episodesWatched := Progress(prev, p));
    if p.status.Some? {
      entry := entry.(status := p.status.value);
    }
    if p.score.Some? {
      entry := entry.(score := p.score);
    }
    if p.startDate.Some? {
      entry := entry.(startDate := p.startDate);
    }
    if p.finishDate.Some? {
      entry := entry.(finishDate := p.finishDate);
    }
    if !available {
      RefusedUpdate(db, entryId, p, currentUserId, available, DatabaseUnavailable);
      return Err(DatabaseUnavailable), db;
    }
    assert PatchedFrom(prev, p, entry);
    CommittedUpdate(db, entryId, p, currentUserId, entry);
    r, db2 := Ok(entry), db.(userAnimes := db.userAnimes[k.value := entry]);
  }

  /** A guard that refuses, or a commit that fails once the guards pass, leaves the database as it was. */
  lemma RefusedUpdate(db: Db, entryId: int, p: Schemas.UserAnimeUpdate, currentUserId: Option<int>,
                      available: bool, err: HttpError)
    requires UpdateRefusal(db, entryId, p, currentUserId) == Some(err) ||
      (UpdateRefusal(db, entryId, p, currentUserId).None? && !available && err == DatabaseUnavailable)
    ensures UpdateSpec(db, entryId, p, currentUserId, available, Err(err), db)
  {
  }

  /** Once the guards pass and the commit succeeds, the patched entry replaces the old one. */
  lemma CommittedUpdate(db: Db, entryId: int, p: Schemas.UserAnimeUpdate, currentUserId: Option<int>, e: UserAnime)
    requires UpdateRefusal(db, entryId, p, currentUserId).None?
    requires PatchedFrom(db.userAnimes[IndexOfEntry(db.userAnimes, entryId).value], p, e)
    ensures var k := IndexOfEntry(db.userAnimes, entryId).value;
      UpdateSpec(db, entryId, p, currentUserId, true, Ok(e), db.(userAnimes := db.userAnimes[k := e]))
  {
  }

  /** After a successful progress change the progress never exceeds a known episode count. */
  lemma UpdateRespectsEpisodeCap(db: Db, entryId: int, p: Schemas.UserAnimeUpdate, currentUserId: Option<int>,
                                 available: bool, r: Result<UserAnime, HttpError>, db2: Db)
    requires UpdateSpec(db, entryId, p, currentUserId, available, r, db2) && r.Ok? && ChangesProgress(p)
    ensures var a := FindAnime(db.animes, r.value.animeId);
      a.Some? && (a.value.episodes.Some? ==> r.value.episodesWatched <= a.value.episodes.value)
  {
  }

  /** A successful update keeps every declared constraint of the schema: no key column changes. */
  lemma UpdateKeepsValid(db: Db, entryId: int, p: Schemas.UserAnimeUpdate, currentUserId: Option<int>,
                         available: bool, r: Result<UserAnime, HttpError>, db2: Db)
    requires UpdateSpec(db, entryId, p, currentUserId, available, r, db2) && Valid(db)
    ensures Valid(db2)
  {
    if r.Ok? {
      var k := IndexOfEntry(db.userAnimes, entryId).value;
      KeysKeptKeepsValid(db, db2.userAnimes);
    }
  }

  /** Rewriting entries without touching their key columns keeps every constraint. */
  lemma KeysKeptKeepsValid(db: Db, entries: seq<UserAnime>)
    requires Valid(db) && |entries| == |db.userAnimes|
    requires forall j :: 0 <= j < |entries| ==>
      entries[j].id == db.userAnimes[j].id && entries[j].userId == db.userAnimes[j].userId
      && entries[j].animeId == db.userAnimes[j].animeId
    ensures Valid(db.(userAnimes := entries))
  {
    var db2 := db.(userAnimes := entries);
    assert UserIds(db2) == UserIds(db) && AnimeIds(db2) == AnimeIds(db) && ReviewIds(db2) == ReviewIds(db);
    forall x | x in entries
      ensures x.userId in UserIds(db2) && x.animeId in AnimeIds(db2)
    {
      var j :| 0 <= j < |entries| && entries[j] == x;
      assert db.userAnimes[j] in db.userAnimes;
    }
    assert ForeignKeysExceptFollows(db2);
  }

  /** A valid payload applied to an entry in range leaves it in range. */
  lemma UpdateKeepsRanges(prev: UserAnime, p: Schemas.UserAnimeUpdate, e: UserAnime)
    requires Schemas.ValidUserAnimeUpdate(p) && PatchedFrom(prev, p, e)
    requires Schemas.IsTrackingStatus(prev.status) && Schemas.ScoreInRange(prev.score) && prev.episodesWatched >= 0
    ensures Schemas.IsTrackingStatus(e.status) && Schemas.ScoreInRange(e.score) && e.episodesWatched >= 0
  {
  }

  /** The progress tests: 100 + 20 is 120, and 1090 + 20 is refused for a title of 1100 episodes. */
  lemma ProgressExamples(e: UserAnime, a: Anime)
    requires a.episodes == Some(1100)
    ensures var inc := Schemas.UserAnimeUpdate(None, None, None, Some(20), None, None);
      && ProgressRefusal(e.(episodesWatched := 100), inc, Some(a)).None?
      && Progress(e.(episodesWatched := 100), inc) == 120
      && ProgressRefusal(e.(episodesWatched := 1090), inc, Some(a)) == Some(ProgressAboveTotal)
  {
  }

  // ---------------------------------------------------------------------
  // The service entry points, with the statistics cache

  /** `_invalidate_stats_cache(user_id)`: drops exactly "stats:user:{id}" and "stats:global". */
  method InvalidateStatsCache(userStats: Cache.CacheStore<StatsService.UserStats>,
                              globalStats: Cache.CacheStore<StatsService.GlobalStats>, userId: int)
    modifies userStats, globalStats
    ensures userStats.data == old(userStats.data) - {StatsService.UserKey(userId)}
    ensures globalStats.data == old(globalStats.data) - {StatsService.GlobalKey}
  {
    userStats.Invalidate(StatsService.UserKey(userId));
    globalStats.Invalidate(StatsService.GlobalKey);
  }

  /** `create_user_anime(payload)`: a successful create drops the two statistics keys, a failure none. */
  method CreateUserAnime(db: Db, p: Schemas.UserAnimeCreate, commit: Commit, now: Timestamp,
                         userStats: Cache.CacheStore<StatsService.UserStats>,
                         globalStats: Cache.CacheStore<StatsService.GlobalStats>)
    returns (r: Result<UserAnime, HttpError>, db2: Db)
    modifies userStats, globalStats
    ensures CreateSpec(db, p, commit, now, r, db2)
    ensures r.Ok? ==> userStats.data == old(userStats.data) - {StatsService.UserKey(p.userId)}
    ensures r.Ok? ==> globalStats.data == old(globalStats.data) - {StatsService.GlobalKey}
    ensures r.Err? ==> unchanged(userStats, globalStats)
  {
    r, db2 := CreateEntry(db, p, commit, now);
    if r.Ok? {
      InvalidateStatsCache(userStats, globalStats, p.userId);
    }
  }

  /** `update_user_anime(entry_id, payload, current_user_id)`: as for create, keyed by the owner. */
  method UpdateUserAnime(db: Db, entryId: int, p: Schemas.UserAnimeUpdate, currentUserId: Option<int>, available: bool,
                         userStats: Cache.CacheStore<StatsService.UserStats>,
                         globalStats: Cache.CacheStore<StatsService.GlobalStats>)
    returns (r: Result<UserAnime, HttpError>, db2: Db)
    modifies userStats, globalStats
    ensures UpdateSpec(db, entryId, p, currentUserId, available, r, db2)
    ensures r.Ok? ==> userStats.data == old(userStats.data) - {StatsService.UserKey(r.value.userId)}
    ensures r.Ok? ==> globalStats.data == old(globalStats.data) - {StatsService.GlobalKey}
    ensures r.Err? ==> unchanged(userStats, globalStats)
  {
    r, db2 := ApplyUpdate(db, entryId, p, currentUserId, available);
    if r.Ok? {
      InvalidateStatsCache(userStats, globalStats, r.value.userId);
    }
  }
}
