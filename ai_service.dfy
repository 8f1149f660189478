/**
 * The recommendation and automation service (app/services/ai_service.py):
 * catalogue ingestion from the Jikan client, the per-user genre profile,
 * the hybrid ranking, the news feed and the rule-based status automation.
 * Every operation takes the database as a value and returns the new one.
 */
module AiService {
  import opened Wrappers
  import opened Models
  import Strings
  import Seqs
  import Sorting
  import AnimeClient
  import Cache

  // ---------------------------------------------------------------------
  // Status automation

  /** `max(0, x or 0)` */
  function SafeCount(x: Option<int>): (n: nat)
    ensures x.Some? && x.value > 0 ==> n == x.value
    ensures x.None? || x.value <= 0 ==> n == 0
  {
    if x.Some? && x.value > 0 then x.value else 0
  }

  /** Whether the clamped progress reaches a known, positive episode count. */
  predicate Finished(progress: Option<int>, episodes: Option<int>) {
    SafeCount(episodes) > 0 && SafeCount(progress) >= SafeCount(episodes)
  }

  /**
   * `_infer_status`: "completed" once the progress reaches a positive episode
   * count; "watching" for a planned or paused entry with some progress;
   * otherwise the current status.
   */
  function InferStatus(progress: Option<int>, episodes: Option<int>, current: string): (s: string)
    ensures Finished(progress, episodes) ==> s == "completed"
    ensures !Finished(progress, episodes) && SafeCount(progress) > 0 && (current == "planned" || current == "on_hold")
      ==> s == "watching"
    ensures !Finished(progress, episodes) && !(SafeCount(progress) > 0 && (current == "planned" || current == "on_hold"))
      ==> s == current
  {
    if Finished(progress, episodes) then "completed"
    else if SafeCount(progress) > 0 && (current == "planned" || current == "on_hold") then "watching"
    else current
  }

  /** Applying the rule to its own answer changes nothing. */
  lemma InferStatusIdempotent(progress: Option<int>, episodes: Option<int>, current: string)
    ensures InferStatus(progress, episodes, InferStatus(progress, episodes, current)) == InferStatus(progress, episodes, current)
  {
  }

  /** The status a run of `auto_update_statuses(userId)` gives entry `e`; other users' entries and entries of missing titles keep theirs. */
  function NewStatus(e: UserAnime, animes: seq<Anime>, userId: int): string {
    if e.userId != userId then e.status
    else match FindAnime(animes, e.animeId)
      case None => e.status
      case Some(a) => InferStatus(Some(e.episodesWatched), a.episodes, e.status)
  }

  /** The detail line for `e`: "title: old -> new" when the status changes, nothing otherwise. */
  function DetailFor(e: UserAnime, animes: seq<Anime>, userId: int): (d: seq<string>)
    ensures |d| == (if NewStatus(e, animes, userId) != e.status then 1 else 0)
  {
    if NewStatus(e, animes, userId) == e.status then []
    else
      var a := FindAnime(animes, e.animeId);
      [DetailLine(a.value.title, e.status, NewStatus(e, animes, userId))]
  }

  /** `f"{anime.title}: {entry.status} -> {target}"` */
  function DetailLine(title: string, from: string, to: string): string {
    title + ": " + from + " -> " + to
  }

  /** The detail lines of a run over `entries`, in table order. */
  function TransitionDetails(entries: seq<UserAnime>, animes: seq<Anime>, userId: int): seq<string> {
    if entries == [] then []
    else TransitionDetails(entries[..|entries| - 1], animes, userId) + DetailFor(entries[|entries| - 1], animes, userId)
  }

  lemma DetailsOneMore(entries: seq<UserAnime>, animes: seq<Anime>, userId: int, i: nat)
    requires i < |entries|
    ensures TransitionDetails(entries[..i + 1], animes, userId) ==
            TransitionDetails(entries[..i], animes, userId) + DetailFor(entries[i], animes, userId)
  {
    assert entries[..i + 1][..i] == entries[..i];
  }

  /** The table after a run: each entry with its new status. */
  function Updated(entries: seq<UserAnime>, animes: seq<Anime>, userId: int): (r: seq<UserAnime>)
    ensures |r| == |entries|
    ensures forall k :: 0 <= k < |entries| ==> r[k] == entries[k].(status := NewStatus(entries[k], animes, userId))
  {
    seq(|entries|, k requires 0 <= k < |entries| => entries[k].(status := NewStatus(entries[k], animes, userId)))
  }

  /** `schemas.AutoStatusResult` */
  datatype AutoStatusResult = AutoStatusResult(updatedCount: int, details: seq<string>)

  /** The outcome of `auto_update_statuses(userId)` as a value: the result and the database after it. */
  function AutoStatusRun(db: Db, userId: int): (r: (AutoStatusResult, Db))
    ensures r.1 == db.(userAnimes := r.1.userAnimes)
  {
    var details := TransitionDetails(db.userAnimes, db.animes, userId);
    (AutoStatusResult(|details|, details), db.(userAnimes := Updated(db.userAnimes, db.animes, userId)))
  }

  /** How many entries changed status between `before` and `after`. */
  function ChangedCount(before: seq<UserAnime>, after: seq<UserAnime>): nat
    requires |before| == |after|
  {
    if before == [] then 0
    else ChangedCount(before[..|before| - 1], after[..|after| - 1])
         + (if before[|before| - 1].status != after[|after| - 1].status then 1 else 0)
  }

  lemma {:induction false} DetailsCountChanges(entries: seq<UserAnime>, animes: seq<Anime>, userId: int)
    ensures |TransitionDetails(entries, animes, userId)| == ChangedCount(entries, Updated(entries, animes, userId))
  {
    if entries != [] {
      var init := entries[..|entries| - 1];
      DetailsCountChanges(init, animes, userId);
      var u := Updated(entries, animes, userId);
      assert u[..|u| - 1] == Updated(init, animes, userId);
    }
  }

  /**
   * A run only rewrites `status`, only on the user's entries whose title
   * exists, and `updated_count` is the number of entries whose status changed
   * (ai_service.py:122-136).
   */
  lemma AutoStatusChangesOnlyStatus(db: Db, userId: int)
    ensures var (res, db2) := AutoStatusRun(db, userId);
      && res.updatedCount == |res.details|
      && res.updatedCount == ChangedCount(db.userAnimes, db2.userAnimes)
      && |db2.userAnimes| == |db.userAnimes|
      && (forall k :: 0 <= k < |db.userAnimes| ==> db2.userAnimes[k] == db.userAnimes[k].(status := db2.userAnimes[k].status))
      && (forall k :: 0 <= k < |db.userAnimes| && (db.userAnimes[k].userId != userId || FindAnime(db.animes, db.userAnimes[k].animeId).None?)
            ==> db2.userAnimes[k] == db.userAnimes[k])
  {
    DetailsCountChanges(db.userAnimes, db.animes, userId);
  }

  lemma {:induction false} StableEntriesGiveNoDetails(entries: seq<UserAnime>, animes: seq<Anime>, userId: int)
    requires forall k :: 0 <= k < |entries| ==> NewStatus(entries[k], animes, userId) == entries[k].status
    ensures TransitionDetails(entries, animes, userId) == []
  {
    if entries != [] {
      StableEntriesGiveNoDetails(entries[..|entries| - 1], animes, userId);
    }
  }

  /** A second run right after the first changes nothing and reports no update. */
  lemma AutoStatusSecondRunIsNoop(db: Db, userId: int)
    ensures var db2 := AutoStatusRun(db, userId).1;
      AutoStatusRun(db2, userId).0 == AutoStatusResult(0, []) && AutoStatusRun(db2, userId).1 == db2
  {
    var db2 := AutoStatusRun(db, userId).1;
    forall k | 0 <= k < |db2.userAnimes|
      ensures NewStatus(db2.userAnimes[k], db2.animes, userId) == db2.userAnimes[k].status
    {
      var e := db.userAnimes[k];
      if e.userId == userId && FindAnime(db.animes, e.animeId).Some? {
        InferStatusIdempotent(Some(e.episodesWatched), FindAnime(db.animes, e.animeId).value.episodes, e.status);
      }
    }
    StableEntriesGiveNoDetails(db2.userAnimes, db2.animes, userId);
    assert Updated(db2.userAnimes, db2.animes, userId) == db2.userAnimes;
  }

  /** `auto_update_statuses(user_id)`: the loop over the user's entries. */
  method AutoUpdateStatuses(db: Db, userId: int) returns (result: AutoStatusResult, db2: Db)
    ensures result == AutoStatusRun(db, userId).0
    ensures db2 == AutoStatusRun(db, userId).1
  {
    var entries := db.userAnimes;
    var details: seq<string> := [];
    var updated := 0;
    var i := 0;
    ghost var goal := Updated(db.userAnimes, db.animes, userId);
    while i < |entries|
      invariant 0 <= i <= |entries| == |db.userAnimes|
      invariant forall k :: 0 <= k < i ==> entries[k] == goal[k]
      invariant forall k :: i <= k < |entries| ==> entries[k] == db.userAnimes[k]
      invariant details == TransitionDetails(db.userAnimes[..i], db.animes, userId)
      invariant updated == |details|
    {
      var entry := entries[i];
      DetailsOneMore(db.userAnimes, db.animes, userId, i);
      var next, line := ReviewEntry(entry, db.animes, userId);
      details := details + line;
      entries := entries[i := next];
      updated := updated + |line|;
      Seqs.AgreeOneMore(entries, goal, i);
      i := i + 1;
    }
    assert db.userAnimes[..|db.userAnimes|] == db.userAnimes;
    assert entries == goal;
    result := AutoStatusResult(updated, details);
    db2 := db.(userAnimes := entries);
  }

  /**
   * One pass of the loop body: an entry of the user whose title exists gets
   * the inferred status, with its detail line when the status changes.
   */
  method ReviewEntry(entry: UserAnime, animes: seq<Anime>, userId: int) returns (next: UserAnime, line: seq<string>)
    ensures next == entry.(status := NewStatus(entry, animes, userId))
    ensures line == DetailFor(entry, animes, userId)
  {
    next, line := entry, [];
    if entry.userId == userId {
      var anime := FindAnime(animes, entry.animeId);
      if anime.Some? {
        var target := InferStatus(Some(entry.episodesWatched), anime.value.episodes, entry.status);
        if target != entry.status {
          line := [DetailLine(anime.value.title, entry.status, target)];
          next := entry.(status := target);
        }
      }
    }
  }

  /** The runs over the users in `userIds`, in order: the database after them, the summed count and every detail line. */
  function AllUsersRun(db: Db, userIds: seq<int>): (r: (Db, int, seq<string>))
  {
    if userIds == [] then (db, 0, [])
    else
      var before := AllUsersRun(db, userIds[..|userIds| - 1]);
      var step := AutoStatusRun(before.0, userIds[|userIds| - 1]);
      (step.1, before.1 + step.0.updatedCount, before.2 + step.0.details)
  }

  /** The summed count is the number of detail lines, so the 200-line cap never hides the true total. */
  lemma {:induction false} AllUsersCountsDetails(db: Db, userIds: seq<int>)
    ensures AllUsersRun(db, userIds).1 == |AllUsersRun(db, userIds).2|
  {
    if userIds != [] {
      AllUsersCountsDetails(db, userIds[..|userIds| - 1]);
    }
  }

  function UserIdList(users: seq<User>): (r: seq<int>)
    ensures |r| == |users| && forall k :: 0 <= k < |users| ==> r[k] == users[k].id
  {
    seq(|users|, k requires 0 <= k < |users| => users[k].id)
  }

  /** `auto_update_statuses_all_users`: every user in turn; the total is the sum, the details are capped at 200. */
  method AutoUpdateStatusesAllUsers(db: Db) returns (result: AutoStatusResult, db2: Db)
    ensures var run := AllUsersRun(db, UserIdList(db.users));
      db2 == run.0 && result == AutoStatusResult(run.1, Seqs.Take(run.2, 200))
    ensures result.updatedCount >= |result.details| && |result.details| <= 200
  {
    var users := UserIdList(db.users);
    var total := 0;
    var details: seq<string> := [];
    db2 := db;
    var i := 0;
    while i < |users|
      invariant 0 <= i <= |users|
      invariant (db2, total, details) == AllUsersRun(db, users[..i])
    {
      assert users[..i + 1][..i] == users[..i];
      var r;
      r, db2 := AutoUpdateStatuses(db2, users[i]);
      total := total + r.updatedCount;
      details := details + r.details;
      i := i + 1;
    }
    assert users[..|users|] == users;
    AllUsersCountsDetails(db, users);
    result := AutoStatusResult(total, Seqs.Take(details, 200));
  }

  // ---------------------------------------------------------------------
  // The genre profile

  /** The weight of a status: completed 1.5, watching 1.2, planned 0.8, anything else 1.0. */
  function StatusWeight(status: string): (w: real)
    ensures 0.8 <= w <= 1.5
  {
    if status == "completed" then 1.5
    else if status == "watching" then 1.2
    else if status == "planned" then 0.8
    else 1.0
  }

  /** `1.0 + (score or 0) / 20.0` */
  function ScoreWeight(score: Option<int>): real {
    1.0 + (score.GetOr(0) as real) / 20.0
  }

  function EntryWeight(e: UserAnime): real {
    StatusWeight(e.status) * ScoreWeight(e.score)
  }

  /** `raw.strip().lower()` */
  function NormalizeGenre(raw: string): string {
    Strings.Lower(Strings.Strip(raw))
  }

  /** `[raw.strip().lower() for raw in genre.split(",")]` */
  function GenreNames(genre: string): (names: seq<string>)
    ensures |names| == |Strings.Split(genre, ',')|
    ensures forall k :: 0 <= k < |names| ==> names[k] == NormalizeGenre(Strings.Split(genre, ',')[k])
  {
    var pieces := Strings.Split(genre, ',');
    seq(|pieces|, k requires 0 <= k < |pieces| => NormalizeGenre(pieces[k]))
  }

  /** `d.get(k, 0.0)` */
  function Get(w: map<string, real>, k: string): real {
    if k in w then w[k] else 0.0
  }

  /** Adds `x` to the weight of each non-empty name, once per occurrence; empty names are skipped. */
  function AddNames(w: map<string, real>, names: seq<string>, x: real): map<string, real> {
    if names == [] then w
    else
      var before := AddNames(w, names[..|names| - 1], x);
      var g := names[|names| - 1];
      if g == "" then before else before[g := Get(before, g) + x]
  }

  function Count(names: seq<string>, g: string): nat {
    if names == [] then 0 else Count(names[..|names| - 1], g) + (if names[|names| - 1] == g then 1 else 0)
  }

  /** `x` added `n` times to zero. */
  function Repeated(n: nat, x: real): real {
    if n == 0 then 0.0 else Repeated(n - 1, x) + x
  }

  lemma {:induction false} RepeatedIsProduct(n: nat, x: real)
    ensures Repeated(n, x) == (n as real) * x
  {
    if n > 0 {
      RepeatedIsProduct(n - 1, x);
      assert (n as real) * x == ((n - 1) as real) * x + x;
    }
  }

  /**
   * Every non-empty genre's weight grows by `x` per occurrence, only listed
   * genres gain a key, and the empty name never becomes one.
   */
  lemma {:induction false} AddNamesEffect(w: map<string, real>, names: seq<string>, x: real, g: string)
    ensures g != "" ==> Get(AddNames(w, names, x), g) == Get(w, g) + Repeated(Count(names, g), x)
    ensures g != "" ==> (g in AddNames(w, names, x) <==> g in w || g in names)
    ensures g == "" ==> (g in AddNames(w, names, x) <==> g in w)
  {
    if names != [] {
      var init := names[..|names| - 1];
      AddNamesEffect(w, init, x, g);
      assert g in names <==> g in init || g == names[|names| - 1] by {
        assert names == init + [names[|names| - 1]];
      }
    }
  }

  /** The profile contribution of one entry: nothing when the title is missing or has no genre. */
  function AddEntry(w: map<string, real>, e: UserAnime, animes: seq<Anime>): map<string, real> {
    match FindAnime(animes, e.animeId)
    case None => w
    case Some(a) =>
      if a.genre == "" then w else AddNames(w, GenreNames(a.genre), EntryWeight(e))
  }

  /** `_extract_preferred_genres` as a value: the contributions of the entries, in order. */
  function GenreWeights(entries: seq<UserAnime>, animes: seq<Anime>): map<string, real> {
    if entries == [] then map[]
    else AddEntry(GenreWeights(entries[..|entries| - 1], animes), entries[|entries| - 1], animes)
  }

  lemma GenreWeightsStep(entries: seq<UserAnime>, i: nat, animes: seq<Anime>)
    requires i < |entries|
    ensures GenreWeights(entries[..i + 1], animes) == AddEntry(GenreWeights(entries[..i], animes), entries[i], animes)
  {
    assert entries[..i + 1][..i] == entries[..i];
  }

  /** The profile never holds the empty genre name. */
  lemma {:induction false} GenreWeightsNoEmptyKey(entries: seq<UserAnime>, animes: seq<Anime>)
    ensures "" !in GenreWeights(entries, animes)
  {
    if entries != [] {
      var init := entries[..|entries| - 1];
      GenreWeightsNoEmptyKey(init, animes);
      var e := entries[|entries| - 1];
      var a := FindAnime(animes, e.animeId);
      if a.Some? && a.value.genre != "" {
        AddNamesEffect(GenreWeights(init, animes), GenreNames(a.value.genre), EntryWeight(e), "");
      }
    }
  }

  /** `_extract_preferred_genres(db, entries)`: the loop over entries. */
  method ExtractPreferredGenres(db: Db, entries: seq<UserAnime>) returns (weights: map<string, real>)
    ensures weights == GenreWeights(entries, db.animes)
  {
    weights := map[];
    var i := 0;
    while i < |entries|
      invariant 0 <= i <= |entries|
      invariant weights == GenreWeights(entries[..i], db.animes)
    {
      var entry := entries[i];
      GenreWeightsStep(entries, i, db.animes);
      var anime := FindAnime(db.animes, entry.animeId);
      if anime.Some? && anime.value.genre != "" {
        var weight := EntryWeight(entry);
        assert AddEntry(weights, entry, db.animes) == AddNames(weights, GenreNames(anime.value.genre), weight);
        weights := AddGenres(weights, GenreNames(anime.value.genre), weight);
      } else {
        assert AddEntry(weights, entry, db.animes) == weights;
      }
      i := i + 1;
    }
    assert entries[..|entries|] == entries;
  }

  /** The inner loop of `_extract_preferred_genres`: one title's genre names, empty names skipped. */
  method AddGenres(base: map<string, real>, names: seq<string>, weight: real) returns (weights: map<string, real>)
    ensures weights == AddNames(base, names, weight)
  {
    weights := base;
    var j := 0;
    while j < |names|
      invariant 0 <= j <= |names|
      invariant weights == AddNames(base, names[..j], weight)
    {
      assert names[..j + 1][..j] == names[..j];
      var genre := names[j];
      if genre != "" {
        weights := weights[genre := Get(weights, genre) + weight];
      }
      j := j + 1;
    }
    assert names[..|names|] == names;
  }

  // ---------------------------------------------------------------------
  // Scoring

  /** The summed profile weights of the genre pieces of a title (empty for a NULL genre). */
  function BoostOf(names: seq<string>, prefs: map<string, real>): real {
    if names == [] then 0.0 else BoostOf(names[..|names| - 1], prefs) + Get(prefs, names[|names| - 1])
  }

  function GenreBoost(genre: string, prefs: map<string, real>): real {
    if genre == "" then 0.0 else BoostOf(GenreNames(genre), prefs)
  }

  /** `min(2.0, boost / 5.0)` */
  function NormalizedBoost(boost: real): (n: real)
    ensures n <= 2.0 && n <= boost / 5.0
    ensures n == 2.0 || n == boost / 5.0
  {
    if boost / 5.0 <= 2.0 then boost / 5.0 else 2.0
  }

  const AffinityReason := "Alta afinidade com seus generos favoritos"
  const TrendingReason := "Em alta entre os usuarios"
  const ReleaseReason := "Lancamento com boa tendencia"
  const BalancedReason := "Boa combinacao de nota e popularidade"

  datatype Scored = Scored(total: real, reason: string)

  /**
   * `_score_anime`: a weighted sum of popularity, external score (on a 0-1
   * scale), the capped genre boost and freshness; the reason names the first
   * signal that clears its threshold, genre affinity first.
   */
  function ScoreAnime(a: Anime, popularity: real, freshness: real, prefs: map<string, real>): (s: Scored)
    ensures var b := NormalizedBoost(GenreBoost(a.genre, prefs));
      s.total == 0.45 * popularity + 0.35 * ((a.externalScore.GetOr(0) as real) / 10.0) + 0.15 * b + 0.05 * freshness
    ensures var b := NormalizedBoost(GenreBoost(a.genre, prefs));
      && (s.reason == AffinityReason <==> b >= 0.8)
      && (s.reason == TrendingReason <==> b < 0.8 && popularity >= 0.8)
      && (s.reason == ReleaseReason <==> b < 0.8 && popularity < 0.8 && freshness >= 0.03)
      && (s.reason == BalancedReason <==> b < 0.8 && popularity < 0.8 && freshness < 0.03)
  {
    var b := NormalizedBoost(GenreBoost(a.genre, prefs));
    var total := 0.45 * popularity + 0.35 * ((a.externalScore.GetOr(0) as real) / 10.0) + 0.15 * b + 0.05 * freshness;
    var reason :=
      if b >= 0.8 then AffinityReason
      else if popularity >= 0.8 then TrendingReason
      else if freshness >= 0.03 then ReleaseReason
      else BalancedReason;
    Scored(total, reason)
  }

  lemma {:induction false} BoostOfMonotone(names: seq<string>, prefs: map<string, real>, more: map<string, real>)
    requires forall g :: Get(prefs, g) <= Get(more, g)
    ensures BoostOf(names, prefs) <= BoostOf(names, more)
  {
    if names != [] {
      BoostOfMonotone(names[..|names| - 1], prefs, more);
      assert Get(prefs, names[|names| - 1]) <= Get(more, names[|names| - 1]);
    }
  }

  /** A profile that weighs every genre at least as much never lowers a title's score. */
  lemma ScoreMonotoneInProfile(a: Anime, popularity: real, freshness: real, prefs: map<string, real>, more: map<string, real>)
    requires forall g :: Get(prefs, g) <= Get(more, g)
    ensures ScoreAnime(a, popularity, freshness, prefs).total <= ScoreAnime(a, popularity, freshness, more).total
  {
    if a.genre != "" {
      BoostOfMonotone(GenreNames(a.genre), prefs, more);
    }
  }

  /** The genre term contributes at most 0.3 however strong the profile is. */
  lemma GenreTermCapped(a: Anime, popularity: real, freshness: real, prefs: map<string, real>)
    ensures ScoreAnime(a, popularity, freshness, prefs).total
      <= 0.45 * popularity + 0.35 * ((a.externalScore.GetOr(0) as real) / 10.0) + 0.3 + 0.05 * freshness
  {
  }

  // ---------------------------------------------------------------------
  /** `int(x)` on a float, which truncates toward zero. */
  function TruncDiv(x: int, d: int): int
    requires d > 0
  {
    if x >= 0 then x / d else -((-x) / d)
  }

  /**
   * The freshness term: 0 for a title never synced, otherwise one over its
   * age in whole days, the age taken between 1 and 30 (a sync in the future
   * counts as one day old).
   */
  function Freshness(a: Anime, now: Timestamp): (f: real)
    ensures a.lastSyncedAt.None? ==> f == 0.0
    ensures a.lastSyncedAt.Some? ==> 1.0 / 30.0 <= f <= 1.0
    ensures a.lastSyncedAt.Some? && now - a.lastSyncedAt.value < 2 * 86400 ==> f == 1.0
  {
    match a.lastSyncedAt
    case None => 0.0
    case Some(t) =>
      var ageDays := Seqs.Max(1, TruncDiv(now - t, 86400));
      1.0 / (Seqs.Min(30, ageDays) as real)
  }

  /**
   * Every synced title clears the 0.03 freshness threshold (1/30 > 0.03), so
   * the last reason is given only to titles never synced.
   */
  lemma BalancedOnlyWhenNeverSynced(a: Anime, popularity: real, now: Timestamp, prefs: map<string, real>)
    requires ScoreAnime(a, popularity, Freshness(a, now), prefs).reason == BalancedReason
    ensures a.lastSyncedAt.None?
  {
  }

  // Ranking

  /** `schemas.RecommendationRead` before rounding the score. */
  datatype Recommendation = Recommendation(anime: Anime, score: real, reason: string)

  /** Higher scores first; `sort(reverse=True)` keeps equal scores in input order. */
  function ByScoreDesc(): (Recommendation, Recommendation) -> bool {
    (x: Recommendation, y: Recommendation) => x.score >= y.score
  }

  lemma ByScoreDescIsPreorder()
    ensures Sorting.TotalPreorder(ByScoreDesc())
  {
  }

  /** `max(1, min(limit, 100))` */
  function RecommendLimit(limit: int): (n: int)
    ensures 1 <= n <= 100
  {
    Seqs.Clamp(limit, 1, 100)
  }

  /** The titles the user tracks none of, in table order. */
  function Candidates(animes: seq<Anime>, tracked: set<int>): (c: seq<Anime>)
    ensures forall k :: 0 <= k < |c| ==> c[k] in animes && c[k].id !in tracked
    ensures forall k :: 0 <= k < |animes| && animes[k].id !in tracked ==> animes[k] in c
  {
    Seqs.FilterComplete(animes, (a: Anime) => a.id !in tracked);
    Seqs.Filter(animes, (a: Anime) => a.id !in tracked)
  }

  function TrackedIds(entries: seq<UserAnime>): set<int> {
    set e | e in entries :: e.animeId
  }

  function UserEntries(db: Db, userId: int): (es: seq<UserAnime>)
    ensures forall k :: 0 <= k < |es| ==> es[k] in db.userAnimes && es[k].userId == userId
    ensures forall k :: 0 <= k < |db.userAnimes| && db.userAnimes[k].userId == userId ==> db.userAnimes[k] in es
  {
    Seqs.FilterComplete(db.userAnimes, (e: UserAnime) => e.userId == userId);
    Seqs.Filter(db.userAnimes, (e: UserAnime) => e.userId == userId)
  }

  function ScoreAll(cands: seq<Anime>, popularity: Anime -> real, now: Timestamp,
                    prefs: map<string, real>): (r: seq<Recommendation>)
    ensures |r| == |cands|
    ensures forall k :: 0 <= k < |cands| ==>
      var s := ScoreAnime(cands[k], popularity(cands[k]), Freshness(cands[k], now), prefs);
      r[k] == Recommendation(cands[k], s.total, s.reason)
  {
    seq(|cands|, k requires 0 <= k < |cands| =>
      var s := ScoreAnime(cands[k], popularity(cands[k]), Freshness(cands[k], now), prefs);
      Recommendation(cands[k], s.total, s.reason))
  }

  /** The ranking on a database as it stands (after seeding). */
  function Ranking(db: Db, userId: int, limit: int, popularity: Anime -> real, now: Timestamp): seq<Recommendation> {
    var entries := UserEntries(db, userId);
    var scored := ScoreAll(Candidates(db.animes, TrackedIds(entries)), popularity, now,
                           GenreWeights(entries, db.animes));
    Seqs.Take(Sorting.SortBy(scored, ByScoreDesc()), RecommendLimit(limit))
  }

  /**
   * The ranking recommends only titles the user does not track, best first,
   * as many as the clamped limit allows, each scored as `ScoreAnime` scores
   * it and none more often than it was scored; every untracked title is
   * scored, and one is left out only if every recommendation scores at
   * least as high.
   */
  lemma RankingProperties(db: Db, userId: int, limit: int, popularity: Anime -> real, now: Timestamp)
    ensures var recs := Ranking(db, userId, limit, popularity, now);
      var tracked := TrackedIds(UserEntries(db, userId));
      var cands := Candidates(db.animes, tracked);
      var scored := ScoreAll(cands, popularity, now, GenreWeights(UserEntries(db, userId), db.animes));
      && |recs| == Seqs.Min(|cands|, RecommendLimit(limit))
      && (forall k :: 0 <= k < |recs| ==> recs[k].anime in db.animes && recs[k].anime.id !in tracked)
      && (forall i, j :: 0 <= i < j < |recs| ==> recs[i].score >= recs[j].score)
      && (forall k :: 0 <= k < |recs| ==>
            var s := ScoreAnime(recs[k].anime, popularity(recs[k].anime), Freshness(recs[k].anime, now),
                                GenreWeights(UserEntries(db, userId), db.animes));
            recs[k].score == s.total && recs[k].reason == s.reason)
      && multiset(recs) <= multiset(scored)
      && (forall x, k :: x in scored && x !in recs && 0 <= k < |recs| ==> recs[k].score >= x.score)
  {
    RankingShape(db, userId, limit, popularity, now);
    RankingScored(db, userId, limit, popularity, now);
    RankingTop(db, userId, limit, popularity, now);
  }

  /** The ranking is a top-k of the scored candidates. */
  lemma RankingTop(db: Db, userId: int, limit: int, popularity: Anime -> real, now: Timestamp)
    ensures var recs := Ranking(db, userId, limit, popularity, now);
      var entries := UserEntries(db, userId);
      var scored := ScoreAll(Candidates(db.animes, TrackedIds(entries)), popularity, now, GenreWeights(entries, db.animes));
      && multiset(recs) <= multiset(scored)
      && (forall x, k :: x in scored && x !in recs && 0 <= k < |recs| ==> recs[k].score >= x.score)
  {
    var entries := UserEntries(db, userId);
    BestScored(ScoreAll(Candidates(db.animes, TrackedIds(entries)), popularity, now, GenreWeights(entries, db.animes)),
               RecommendLimit(limit));
  }

  lemma RankingShape(db: Db, userId: int, limit: int, popularity: Anime -> real, now: Timestamp)
    ensures var recs := Ranking(db, userId, limit, popularity, now);
      && |recs| == Seqs.Min(|Candidates(db.animes, TrackedIds(UserEntries(db, userId)))|, RecommendLimit(limit))
      && (forall i, j :: 0 <= i < j < |recs| ==> recs[i].score >= recs[j].score)
  {
    var entries := UserEntries(db, userId);
    BestScored(ScoreAll(Candidates(db.animes, TrackedIds(entries)), popularity, now, GenreWeights(entries, db.animes)),
               RecommendLimit(limit));
  }

  lemma RankingScored(db: Db, userId: int, limit: int, popularity: Anime -> real, now: Timestamp)
    ensures var recs := Ranking(db, userId, limit, popularity, now);
      var tracked := TrackedIds(UserEntries(db, userId));
      forall k :: 0 <= k < |recs| ==>
        && recs[k].anime in db.animes && recs[k].anime.id !in tracked
        && var s := ScoreAnime(recs[k].anime, popularity(recs[k].anime), Freshness(recs[k].anime, now),
                               GenreWeights(UserEntries(db, userId), db.animes));
           recs[k].score == s.total && recs[k].reason == s.reason
  {
    var entries := UserEntries(db, userId);
    var cands := Candidates(db.animes, TrackedIds(entries));
    var scored := ScoreAll(cands, popularity, now, GenreWeights(entries, db.animes));
    var recs := Ranking(db, userId, limit, popularity, now);
    assert recs == Seqs.Take(Sorting.SortBy(scored, ByScoreDesc()), RecommendLimit(limit));
    BestDrawn(scored, RecommendLimit(limit));
    forall k | 0 <= k < |recs|
      ensures recs[k].anime in db.animes && recs[k].anime.id !in TrackedIds(entries)
      ensures var s := ScoreAnime(recs[k].anime, popularity(recs[k].anime), Freshness(recs[k].anime, now),
                                  GenreWeights(entries, db.animes));
        recs[k].score == s.total && recs[k].reason == s.reason
    {
      var j :| 0 <= j < |scored| && scored[j] == recs[k];
      assert recs[k].anime == cands[j];
    }
  }

  /**
   * The best `n` of `scored`: as many as there are up to `n`, drawn from
   * `scored` with no more copies than it has, best first, and no element
   * left out scores higher than one kept.
   */
  lemma BestScored(scored: seq<Recommendation>, n: int)
    requires n >= 0
    ensures var top := Seqs.Take(Sorting.SortBy(scored, ByScoreDesc()), n);
      && |top| == Seqs.Min(|scored|, n)
      && multiset(top) <= multiset(scored)
      && (forall k :: 0 <= k < |top| ==> top[k] in scored)
      && (forall i, j :: 0 <= i < j < |top| ==> top[i].score >= top[j].score)
      && (forall x, k :: x in scored && x !in top && 0 <= k < |top| ==> top[k].score >= x.score)
  {
    ByScoreDescIsPreorder();
    Sorting.TakeSortedProperties(scored, ByScoreDesc(), n);
    var top := Seqs.Take(Sorting.SortBy(scored, ByScoreDesc()), n);
    forall i, j | 0 <= i < j < |top|
      ensures top[i].score >= top[j].score
    {
      assert ByScoreDesc()(top[i], top[j]);
    }
    forall x, k | x in scored && x !in top && 0 <= k < |top|
      ensures top[k].score >= x.score
    {
      assert ByScoreDesc()(top[k], x);
    }
  }

  lemma BestDrawn(scored: seq<Recommendation>, n: int)
    requires n >= 0
    ensures var top := Seqs.Take(Sorting.SortBy(scored, ByScoreDesc()), n);
      forall k :: 0 <= k < |top| ==> top[k] in scored
  {
    BestScored(scored, n);
  }

  /** Titles with equal scores keep the table order among them. */
  lemma RankingKeepsTies(scored: seq<Recommendation>, x: Recommendation)
    ensures Sorting.Ties(Sorting.SortBy(scored, ByScoreDesc()), x, ByScoreDesc()) == Sorting.Ties(scored, x, ByScoreDesc())
  {
    ByScoreDescIsPreorder();
    Sorting.SortByStable(scored, x, ByScoreDesc());
  }

  /** The scoring loop of `recommend_for_user`. */
  method ScoreCandidates(cands: seq<Anime>, popularity: Anime -> real, now: Timestamp,
                         prefs: map<string, real>) returns (scored: seq<Recommendation>)
    ensures scored == ScoreAll(cands, popularity, now, prefs)
  {
    scored := [];
    var i := 0;
    while i < |cands|
      invariant 0 <= i <= |cands|
      invariant scored == ScoreAll(cands[..i], popularity, now, prefs)
    {
      var anime := cands[i];
      var s := ScoreAnime(anime, popularity(anime), Freshness(anime, now), prefs);
      scored := scored + [Recommendation(anime, s.total, s.reason)];
      i := i + 1;
    }
    assert cands[..|cands|] == cands;
  }

  /** The ranking part of `recommend_for_user` on a seeded database. */
  method RankForUser(db: Db, userId: int, limit: int, popularity: Anime -> real, now: Timestamp)
    returns (recs: seq<Recommendation>)
    ensures recs == Ranking(db, userId, limit, popularity, now)
  {
    var entries := UserEntries(db, userId);
    var tracked := TrackedIds(entries);
    var prefs := ExtractPreferredGenres(db, entries);
    var candidates := Candidates(db.animes, tracked);
    var scored := ScoreCandidates(candidates, popularity, now, prefs);
    var sorted := Sorting.SortBy(scored, ByScoreDesc());
    recs := Seqs.Take(sorted, RecommendLimit(limit));
  }

  // ---------------------------------------------------------------------
  // Catalogue ingestion

  /** `if not mal_id: continue` lets through present, non-zero ids only. */
  predicate HasMalId(c: AnimeClient.CatalogItem) {
    c.malId.Some? && c.malId.value != 0
  }

  /** The nine columns one ingestion pass writes. */
  datatype SyncedFields = SyncedFields(
    title: string, genre: string, episodes: Option<int>, externalScore: Option<int>, members: Option<int>,
    externalStatus: Option<string>, imageUrl: Option<string>, synopsis: Option<string>, lastSyncedAt: Option<Timestamp>)

  function FieldsOf(a: Anime): SyncedFields {
    SyncedFields(a.title, a.genre, a.episodes, a.externalScore, a.members, a.externalStatus, a.imageUrl,
                 a.synopsis, a.lastSyncedAt)
  }

  /** The values written from a listing entry: empty title and genre fall back, the sync instant is `now`. */
  function FieldsFrom(c: AnimeClient.CatalogItem, now: Timestamp): (f: SyncedFields)
    ensures f.title != "" && f.genre != "" && f.episodes.Some? && f.lastSyncedAt == Some(now)
  {
    SyncedFields(
      if c.title == "" then "Unknown title" else c.title,
      if c.genre == "" then "Unknown" else c.genre,
      Some(c.episodes), c.externalScore, c.members, c.externalStatus, c.imageUrl, c.synopsis, Some(now))
  }

  /** Writes the synced columns of `a`; the key and `mal_id` stay. */
  function Synced(a: Anime, c: AnimeClient.CatalogItem, now: Timestamp): (r: Anime)
    ensures r.id == a.id && r.malId == a.malId && FieldsOf(r) == FieldsFrom(c, now)
  {
    var f := FieldsFrom(c, now);
    a.(title := f.title, genre := f.genre, episodes := f.episodes, externalScore := f.externalScore,
       members := f.members, externalStatus := f.externalStatus, imageUrl := f.imageUrl,
       synopsis := f.synopsis, lastSyncedAt := f.lastSyncedAt)
  }

  /** `models.Anime(mal_id=m)` once flushed: the next primary key and nothing else set. */
  function BlankAnime(id: int, m: int): Anime {
    Anime(id, "", "", None, Some(m), None, None, None, None, None, None)
  }

  /**
   * One iteration of the ingestion loop: the row with the entry's `mal_id`
   * is updated in place, or a new row is appended. The model keys the upsert
   * by `mal_id`, so a `mal_id` met twice in one batch updates one row (the
   * last write wins). The source differs here: its lookup is a SQL query and
   * the session does not autoflush (database.py:22), so a row added earlier
   * in the same batch is not found, a new `mal_id` met twice is added twice,
   * and the commit raises IntegrityError on the unique `mal_id`.
   */
  function UpsertItem(animes: seq<Anime>, c: AnimeClient.CatalogItem, now: Timestamp): seq<Anime> {
    if !HasMalId(c) then animes
    else match IndexOfMalId(animes, c.malId.value)
      case Some(k) => animes[k := Synced(animes[k], c, now)]
      case None => animes + [Synced(BlankAnime(NextId(AnimeIdList(animes)), c.malId.value), c, now)]
  }

  function UpsertAll(animes: seq<Anime>, items: seq<AnimeClient.CatalogItem>, now: Timestamp): seq<Anime> {
    if items == [] then animes
    else UpsertItem(UpsertAll(animes, items[..|items| - 1], now), items[|items| - 1], now)
  }

  /** `inserted_or_updated`: one per entry with a truthy `mal_id`, duplicates included. */
  function CountSynced(items: seq<AnimeClient.CatalogItem>): nat {
    if items == [] then 0 else CountSynced(items[..|items| - 1]) + (if HasMalId(items[|items| - 1]) then 1 else 0)
  }

  /** An upsert keeps every existing row's key and `mal_id`, and appends at most one row, with a fresh key. */
  lemma UpsertItemKeepsRows(animes: seq<Anime>, c: AnimeClient.CatalogItem, now: Timestamp)
    ensures var r := UpsertItem(animes, c, now);
      && |animes| <= |r| <= |animes| + 1
      && (forall k :: 0 <= k < |animes| ==> r[k].id == animes[k].id && r[k].malId == animes[k].malId)
      && (forall k :: 0 <= k < |animes| && (!HasMalId(c) || animes[k].malId != c.malId) ==> r[k] == animes[k])
      && (|r| == |animes| + 1 ==>
            HasMalId(c) && r[|animes|].malId == c.malId && forall k :: 0 <= k < |animes| ==> animes[k].id < r[|animes|].id)
  {
  }

  /** After an upsert the entry's `mal_id` leads to a row holding the entry's values; other ids lead where they did. */
  lemma {:induction false} UpsertItemEffect(animes: seq<Anime>, c: AnimeClient.CatalogItem, now: Timestamp, m: int)
    ensures var r := UpsertItem(animes, c, now); var i := IndexOfMalId(r, m);
      && (HasMalId(c) && m == c.malId.value ==> i.Some? && FieldsOf(r[i.value]) == FieldsFrom(c, now))
      && (!(HasMalId(c) && m == c.malId.value) ==>
            i == IndexOfMalId(animes, m) && (i.Some? ==> r[i.value] == animes[i.value]))
  {
    var r := UpsertItem(animes, c, now);
    UpsertItemKeepsRows(animes, c, now);
    if HasMalId(c) && m == c.malId.value {
      var j := IndexOfMalId(animes, m);
      if j.Some? {
        IndexOfMalIdSame(animes, r, m);
      } else {
        assert r[|animes|].malId == Some(m);
      }
    } else {
      IndexOfMalIdSame(animes, r, m);
    }
  }

  /**
   * Last write wins: when several entries carry one `mal_id`, the row with
   * that id ends up holding the values of the last of them.
   */
  lemma {:induction false} UpsertLastWins(animes: seq<Anime>, items: seq<AnimeClient.CatalogItem>, now: Timestamp, k: nat)
    requires k < |items| && HasMalId(items[k])
    requires forall j :: k < j < |items| ==> items[j].malId != items[k].malId
    ensures var r := UpsertAll(animes, items, now); var i := IndexOfMalId(r, items[k].malId.value);
      i.Some? && FieldsOf(r[i.value]) == FieldsFrom(items[k], now)
  {
    var init := items[..|items| - 1];
    var m := items[k].malId.value;
    UpsertItemEffect(UpsertAll(animes, init, now), items[|items| - 1], now, m);
    if k < |items| - 1 {
      UpsertLastWins(animes, init, now, k);
    }
  }

  /** Ingestion never makes two rows share a `mal_id`. */
  lemma {:induction false} UpsertAllKeepsMalIdUnique(animes: seq<Anime>, items: seq<AnimeClient.CatalogItem>, now: Timestamp)
    requires MalIdUnique(animes)
    ensures MalIdUnique(UpsertAll(animes, items, now))
  {
    if items != [] {
      var before := UpsertAll(animes, items[..|items| - 1], now);
      UpsertAllKeepsMalIdUnique(animes, items[..|items| - 1], now);
      var c := items[|items| - 1];
      UpsertItemKeepsRows(before, c, now);
      var r := UpsertItem(before, c, now);
      if |r| == |before| + 1 {
        assert IndexOfMalId(before, c.malId.value).None?;
      }
    }
  }

  /** The ingestion loop over the fetched entries (ai_service.py:36-56). */
  method UpsertItems(db: Db, items: seq<AnimeClient.CatalogItem>, now: Timestamp) returns (count: int, db2: Db)
    ensures db2 == db.(animes := UpsertAll(db.animes, items, now))
    ensures count == CountSynced(items)
  {
    var animes := db.animes;
    count := 0;
    var i := 0;
    while i < |items|
      invariant 0 <= i <= |items|
      invariant animes == UpsertAll(db.animes, items[..i], now)
      invariant count == CountSynced(items[..i])
    {
      var item := items[i];
      assert items[..i + 1][..i] == items[..i];
      if item.malId.Some? && item.malId.value != 0 {
        var m := item.malId.value;
        var found := IndexOfMalId(animes, m);
        if found.Some? {
          animes := animes[found.value := Synced(animes[found.value], item, now)];
        } else {
          animes := animes + [Synced(BlankAnime(NextId(AnimeIdList(animes)), m), item, now)];
        }
        count := count + 1;
      }
      i := i + 1;
    }
    assert items[..|items|] == items;
    db2 := db.(animes := animes);
  }

  lemma ListingKeysDiffer(limit: int)
    ensures AnimeClient.ListingKey("top", limit) != AnimeClient.ListingKey("season-now", limit)
  {
    assert AnimeClient.ListingKey("top", limit)[15] == 't';
    assert AnimeClient.ListingKey("season-now", limit)[15] == 's';
  }

  /**
   * What an ingestion left behind: on failure the database is as it was; on
   * success both listings are cached and the database holds their upsert,
   * top titles first, and the count is the number of entries with a truthy
   * `mal_id`.
   */
  ghost predicate Ingested(db: Db, limit: int, now: Timestamp,
                           cached: map<string, Cache.Entry<seq<AnimeClient.CatalogItem>>>,
                           r: Result<int, AnimeClient.ClientError>, db2: Db)
  {
    var top := AnimeClient.ListingKey("top", limit);
    var season := AnimeClient.ListingKey("season-now", limit);
    && (r.Err? ==> db2 == db)
    && (r.Ok? ==>
          && top in cached && season in cached
          && var items := cached[top].value + cached[season].value;
             r.value == CountSynced(items) && db2 == db.(animes := UpsertAll(db.animes, items, now)))
  }

  /** `ingest_trending_catalog(limit)`: top listing, then current season, then the upsert loop and one commit. */
  method IngestTrendingCatalog(db: Db, client: AnimeClient.JikanClient, limit: int, now: Timestamp)
    returns (r: Result<int, AnimeClient.ClientError>, db2: Db)
    modifies client, client.upstream, client.listCache
    ensures Ingested(db, limit, now, client.listCache.data, r, db2)
  {
    var top := client.FetchTop(limit, now as real);
    if top.Err? {
      return Err(top.error), db;
    }
    ghost var afterTop := client.listCache.data;
    assert AnimeClient.ListingKey("top", limit) in afterTop
        && afterTop[AnimeClient.ListingKey("top", limit)].value == top.value;
    var season := client.FetchCurrentSeason(limit, now as real);
    if season.Err? {
      return Err(season.error), db;
    }
    ListingKeysDiffer(limit);
    var count;
    count, db2 := UpsertItems(db, top.value + season.value, now);
    r := Ok(count);
  }

  /** `_ensure_catalog_seed`: a catalogue of fewer than 25 titles triggers an ingestion of 40 per listing. */
  method EnsureCatalogSeed(db: Db, client: AnimeClient.JikanClient, now: Timestamp)
    returns (r: Result<int, AnimeClient.ClientError>, db2: Db)
    modifies client, client.upstream, client.listCache
    ensures |db.animes| >= 25 ==>
      r == Ok(0) && db2 == db && unchanged(client, client.upstream, client.listCache)
    ensures |db.animes| < 25 ==> Ingested(db, 40, now, client.listCache.data, r, db2)
  {
    if |db.animes| < 25 {
      r, db2 := IngestTrendingCatalog(db, client, 40, now);
    } else {
      r, db2 := Ok(0), db;
    }
  }

  /**
   * `recommend_for_user(user_id, limit)`: seeding first (its failure
   * propagates), then the ranking on the database as seeded.
   */
  method RecommendForUser(db: Db, client: AnimeClient.JikanClient, userId: int, limit: int,
                          popularity: Anime -> real, now: Timestamp)
    returns (r: Result<seq<Recommendation>, AnimeClient.ClientError>, db2: Db)
    modifies client, client.upstream, client.listCache
    ensures |db.animes| >= 25 ==> db2 == db && unchanged(client, client.upstream, client.listCache)
    ensures |db.animes| < 25 ==> exists s :: Ingested(db, 40, now, client.listCache.data, s, db2) && (s.Err? <==> r.Err?)
    ensures r.Ok? ==> r.value == Ranking(db2, userId, limit, popularity, now)
  {
    var seeded;
    seeded, db2 := EnsureCatalogSeed(db, client, now);
    if seeded.Err? {
      return Err(seeded.error), db2;
    }
    var recs := RankForUser(db2, userId, limit, popularity, now);
    r := Ok(recs);
  }

  // ---------------------------------------------------------------------
  // News feed

  /** `schemas.NewsItemRead` */
  datatype NewsItem = NewsItem(source: string, title: string, url: Option<string>, summary: Option<string>,
                               publishedAt: Option<string>, category: string)

  /** One upcoming title as a news item: source "jikan", category "release", an empty title read as "Anime update". */
  function NewsOf(c: AnimeClient.CatalogItem): (n: NewsItem)
    ensures n.source == "jikan" && n.category == "release"
    ensures n.title != "" && (c.title != "" ==> n.title == c.title)
    ensures n.url == c.url && n.summary == c.synopsis && n.publishedAt == c.airedFrom
  {
    NewsItem("jikan", if c.title == "" then "Anime update" else c.title, c.url, c.synopsis, c.airedFrom, "release")
  }

  /** `max(1, min(limit, 50))` */
  function NewsLimit(limit: int): (n: int)
    ensures 1 <= n <= 50
  {
    Seqs.Clamp(limit, 1, 50)
  }

  /** The feed for the listing `items`: the first `NewsLimit(limit)` entries, each as a news item. */
  function NewsFeed(items: seq<AnimeClient.CatalogItem>, limit: int): (feed: seq<NewsItem>)
    ensures |feed| == Seqs.Min(|items|, NewsLimit(limit))
    ensures forall k :: 0 <= k < |feed| ==> feed[k] == NewsOf(items[k])
  {
    var n := Seqs.Min(|items|, NewsLimit(limit));
    seq(n, k requires 0 <= k < n => NewsOf(items[k]))
  }

  /** `get_news_feed(limit)`: the upcoming listing, truncated and mapped. */
  method GetNewsFeed(client: AnimeClient.JikanClient, limit: int, now: real)
    returns (r: Result<seq<NewsItem>, AnimeClient.ClientError>)
    modifies client, client.upstream, client.listCache
    ensures var key := AnimeClient.ListingKey("upcoming", limit);
      r.Ok? ==> key in client.listCache.data && r.value == NewsFeed(client.listCache.data[key].value, limit)
    ensures r.Err? ==> Cache.Lookup(old(client.listCache.data), AnimeClient.ListingKey("upcoming", limit), now).None?
  {
    var items := client.FetchUpcoming(limit, now);
    if items.Err? {
      return Err(items.error);
    }
    var feed := FeedOf(items.value, limit);
    r := Ok(feed);
  }

  /** The loop of `get_news_feed` over `items[:max(1, min(limit, 50))]`. */
  method FeedOf(items: seq<AnimeClient.CatalogItem>, limit: int) returns (feed: seq<NewsItem>)
    ensures feed == NewsFeed(items, limit)
  {
    var shown := Seqs.Take(items, NewsLimit(limit));
    feed := [];
    var i := 0;
    while i < |shown|
      invariant 0 <= i <= |shown|
      invariant |feed| == i && forall k :: 0 <= k < i ==> feed[k] == NewsOf(shown[k])
    {
      feed := feed + [NewsOf(shown[i])];
      i := i + 1;
    }
  }
}
