# Anime manager API: a verified model of its core

The anime manager API is a FastAPI and SQLAlchemy backend. It keeps a
catalogue of anime titles, imported from and re-synchronised with the
public Jikan (MyAnimeList) API. Users track their progress on each title
(status, score, episodes watched) and get personal and global statistics,
cached for two minutes. The social layer has reviews, comments, follows, an
activity feed and a dashboard, and every social write is announced on an
in-process event bus. An "AI" service builds genre-weighted recommendations
and a news feed from the upcoming listing, and it promotes tracking
statuses by rule. Around all of this sit a TTL cache, a sliding-window rate
limiter, the settings check made at start-up and the normalisation of the
database URL.

This Dafny project models that core, with one module per source file:

- `Models`: the tables and their constraints.
- `Schemas`: the validated payloads.
- `Config`, `Database`, `Cache`, `RateLimit` and `Events`: the
  infrastructure.
- `AnimeClient`: the Jikan client.
- `StatsRepository`, `StatsService`, `SocialRepository`, `SocialService`,
  `UserAnimeService`, `AnimeImport` and `AiService`: the queries and the
  services.

Four helper modules support them: `Wrappers`, `Strings`, `Seqs` and
`Sorting`.

How the model represents things:

- **The database is a value.** `Models.Db` holds one sequence of rows per
  table. A service returns the database as it leaves it.
- **Mutable objects are classes.** The cache store, the rate limiter, the
  event bus and the HTTP client are classes whose methods update their
  fields under `modifies`.
- **SQL ordering is a stable insertion sort.** `ORDER BY` is `Sorting.SortBy`.
  Rows with equal keys keep table order. That tie order is fixed by the
  model and is not something the database promises.
- **Time and failures are parameters.** The clock, the upstream's
  responses, which event handlers raise, and how a commit ends are all
  inputs to the operations.

## Model

Source paths are relative to the repository root.

| member | source | states |
|---|---|---|
| Models.NewUser | app/models.py:36-48 | a user created without explicit flags has role "user", is active, and keeps the given key and credentials |
| Models.NewUserAnime | app/models.py:51-67 | a tracking entry created without progress has 0 episodes watched and no score or dates |
| Models.FindAnime | app/services/user_anime_service.py:23-33 | the result is a row of the table with the requested key, and there is none only when no row has that key |
| Models.FindUser | app/services/user_anime_service.py:23-33 | the result is a user of the table with the requested key, and there is none only when no user has that key |
| Models.FindReview | app/services/social_service.py:54-58 | the result is a review with the requested key, and there is none only when no review has that key |
| Models.IndexOfMalId | app/services/anime_import_service.py:25 | the index is that of the first row whose `mal_id` equals the requested one, and there is none exactly when no row has it |
| Models.IndexOfMalIdSame | app/services/ai_service.py:41-44 | the lookup by `mal_id` depends only on that column, and rows appended without the id do not change its answer |
| Models.IndexOfEntry | app/services/user_anime_service.py:65-67 | the index points at the entry with the requested primary key, and there is none exactly when no entry has it |
| Models.NextId | app/models.py:22 | the new key is larger than every key in use, so no row has it |
| Models.AnimeIdList | app/models.py:22 | the list holds each row's key, in row order |
| Models.EntryIdList | app/models.py:59 | the list holds each tracking entry's key, in row order |
| Models.ReviewIdList | app/models.py:73-85 | the list holds each review's key, in row order |
| Models.CommentIdList | app/models.py:88-98 | the list holds each comment's key, in row order |
| Models.FollowIdList | app/models.py:101-110 | the list holds each follow's key, in row order |
| Models.DeleteReview | app/models.py:85 | a review or comment remains iff it was there and is not the review or one of its comments; every other table is unchanged |
| Models.DeleteAnime | app/models.py:33-34 | a title, entry or review remains iff it was there and is not that title or of it; a comment remains iff it was there and is not on a review of the title; users, follows and activities are unchanged |
| Models.DeleteUser | app/models.py:45-48 | a user, entry, review or activity remains iff it was there and is not that user or theirs; a comment remains iff it was there, not written by the user and not on one of the user's reviews; titles and follows are unchanged |
| Models.DeleteAnimeKeepsForeignKeys | app/models.py:33-34 | the anime cascade leaves a valid database valid |
| Models.DeleteReviewKeepsForeignKeys | app/models.py:85 | the review cascade leaves a valid database valid |
| Models.DeleteUserKeepsForeignKeys | app/models.py:45-48 | the user cascade leaves every foreign key except those of follows intact, and the deleted user's follow rows remain |
| Models.UserSurvives | app/models.py:45-48 | every other user survives a user deletion |
| Models.ReviewSurvives | app/models.py:46 | a review by another user survives a user deletion |
| Schemas.ParseTrackingStatus | app/schemas.py:58 | a status string is accepted exactly when it is one of the five literals, and it maps to the status whose text it is |
| Schemas.ParseTrackingStatusText | app/schemas.py:58 | every status written out is parsed back to itself |
| Schemas.ParseUserRole | app/schemas.py:59 | a role is accepted exactly when it is "admin" or "user" |
| Schemas.DefaultUserAnimeCreate | app/schemas.py:62-69 | a payload with only the required fields has no score, no dates and progress 0, and it is valid |
| Schemas.EmptyUserAnimeUpdate | app/schemas.py:86-92 | the update with every field omitted is valid |
| Config.Defaults | app/core/config.py:6-26 | the settings defaults: the default secret, development environment, 3 retries, 0.5 s backoff, 3600 s cache, both migration flags on |
| Config.ValidateSecurity | app/core/config.py:30-36 | production (in any casing) with the default secret fails with the secret message; otherwise production with both migration flags fails with the Alembic message; anything else is returned unchanged |
| Config.DefaultsFailInProduction | app/core/config.py:32-33 | the defaults deployed with any casing of "production" are refused on the secret |
| Config.ProductionNeedsMigrationFlagOff | app/core/config.py:34-35 | with a changed secret, production is still refused while the migration flags keep their defaults |
| Database.RewriteUrl | app/database.py:8-9 | a "postgres://" URL gets the "postgresql://" scheme with the rest kept; any other URL is unchanged |
| Database.RewriteUrlIdempotent | app/database.py:8-9 | rewriting twice is rewriting once |
| Database.EngineKwargsFor | app/database.py:11-16 | pre-ping always; SQLite URLs get `check_same_thread=False` and no pool settings; all others get pool size 10 and overflow 20 |
| Cache.Lookup | app/core/cache.py:43-51 | a present entry is returned while `now <= expiresAt`, and nothing otherwise |
| Cache.AfterLookup | app/core/cache.py:47-50 | only an expired entry for the key is dropped, and every other key is kept |
| Cache.WithoutPrefix | app/core/cache.py:76-79 | a key is kept exactly when it does not start with the prefix, and kept keys keep their entries |
| Cache.SetThenLookup | app/core/cache.py:58-59 | a value stored at `t` with `ttl` is read back until `t + ttl` inclusive and not after |
| Cache.SetOtherKey | app/core/cache.py:58-59 | storing one key does not change what any other key reads |
| Cache.CacheStore.Get | app/core/cache.py:32-51 | returns `Lookup` of the old table and leaves `AfterLookup` behind |
| Cache.CacheStore.Set | app/core/cache.py:53-59 | the key now maps to the value with expiry `now + ttl`, and every other key is kept |
| Cache.CacheStore.Invalidate | app/core/cache.py:61-67 | the key is removed and every other entry is kept |
| Cache.CacheStore.InvalidatePrefix | app/core/cache.py:69-79 | the table becomes `WithoutPrefix` of the old one, through a loop over the collected keys |
| RateLimit.EvictProperties | app/core/rate_limit.py:25-26 | the result is a suffix of the queue, every instant dropped is at or before the cutoff, and the first instant kept is after it |
| RateLimit.RetryAfterSeconds | app/core/rate_limit.py:29 | the `Retry-After` value is at least 1, and for a wait of at least 1 s it is the wait's integer part |
| RateLimit.CheckQueue | app/core/rate_limit.py:20-35 | after eviction, a full queue refuses with a `Retry-After` of at least 1 and is kept; otherwise the instant is appended; a limit of 0 or less on an empty queue crashes |
| RateLimit.CheckRetryAfter | app/core/rate_limit.py:28-29 | a refusal happens only on a non-empty full queue, and its `Retry-After` is `int(max(1, window − (now − oldest kept instant)))` |
| RateLimit.CheckKeepsBound | app/core/rate_limit.py:28-35 | a queue within the limit stays within it |
| RateLimit.NonPositiveLimitRejects | app/core/rate_limit.py:28-29 | with a limit of 0 or less no call is accepted |
| RateLimit.CheckKeepsOrder | app/core/rate_limit.py:25-35 | with a clock that does not go backwards the queue stays sorted |
| RateLimit.RunChecks | app/core/rate_limit.py:20-35 | one decision per instant |
| RateLimit.BurstFrom | app/core/rate_limit.py:20-35 | when every call comes less than a window after the first, calls pass until `limit` are recorded and the next one is refused |
| RateLimit.BurstIsCapped | app/tests/test_hardening.py:35-46 | `limit` calls in one window all pass, and the next one gets 429 |
| RateLimit.ClientIp | app/core/rate_limit.py:48-52 | the first `x-forwarded-for` element trimmed, otherwise the client host, otherwise "unknown" |
| RateLimit.InMemoryRateLimiter.Check | app/core/rate_limit.py:20-35 | the decision and the key's new queue are those of `CheckQueue`, and every other key's queue is unchanged |
| RateLimit.InMemoryRateLimiter.LimitRequests | app/core/rate_limit.py:55-76 | checks key "scope:ip" with a 60 s window, the ip being `ClientIp` |
| Events.Reached | app/events/bus.py:12-14 | a prefix of the handlers: all of them when none raises, otherwise ending at the first that raises |
| Events.Calls | app/events/bus.py:13-14 | one invocation per handler, in order, each with the payload |
| Events.DoubleSubscriptionRunsTwice | app/events/bus.py:9-10 | a handler subscribed twice more is called twice more |
| Events.ReachedStops | app/events/bus.py:12-14 | after a raising handler no further handler is called |
| Events.EventBus.Subscribe | app/events/bus.py:9-10 | appends the handler to that event's list only |
| Events.EventBus.Publish | app/events/bus.py:12-14 | calls exactly `Calls(Reached(...))`, raises exactly when a subscribed handler raises, and never changes the handler table |
| AnimeClient.NormalizeScore | app/external/anime_client.py:152-164 | a missing or unconvertible score gives nothing, and any other score gives its rounded value clamped to [0, 10] |
| AnimeClient.GenreNames | app/external/anime_client.py:121 | the truthy genre names, none empty, and none exactly when no genre has a truthy name |
| AnimeClient.GenreText | app/external/anime_client.py:121 | the ", "-join of the names, or "Unknown" when there is none; never empty |
| AnimeClient.ImageUrl | app/external/anime_client.py:126 | the jpg image URL when both objects are present, and nothing otherwise |
| AnimeClient.MapCatalogItem | app/external/anime_client.py:117-130 | the title falls back to "Unknown title", the genre is never empty, episodes fall back to 0, the score is normalised within [0, 10], and the other fields pass through |
| AnimeClient.MapAll | app/external/anime_client.py:62-68 | one mapped item per object, in order |
| AnimeClient.DetailFrom | app/external/anime_client.py:43-56 | missing or empty `data` is "not found", one object gives its detail, and a list is a malformed payload |
| AnimeClient.ListingFrom | app/external/anime_client.py:62-68 | the mapped `data or []`, and an object is a malformed payload |
| AnimeClient.WaitSeconds | app/external/anime_client.py:145-150 | a numeric `Retry-After` is the wait, otherwise `backoff * 2^(attempt-1)`; never negative |
| AnimeClient.BackoffDoubles | app/external/anime_client.py:148-149 | without `Retry-After`, each wait doubles the previous |
| AnimeClient.RetryRun | app/external/anime_client.py:132-150 | between 1 and `max_retries + 1` requests (one when `max_retries <= 0`), and one wait fewer than requests |
| AnimeClient.RetryRunSpec | app/external/anime_client.py:132-150 | every request but the last got 429 or 5xx and was followed by its wait; the last reply decides: below 400 the body, otherwise a status error that was not retryable or came after `max_retries` |
| AnimeClient.RetriesOnceAfter429 | app/tests/test_external_client.py:21-51 | a 429 with `Retry-After: 0` then a 200 gives the body after exactly two requests |
| AnimeClient.NoRetryOnClientError | app/external/anime_client.py:141-143 | a status of 400 or more that is neither 429 nor 5xx fails after one request |
| AnimeClient.RequestsBounded | app/external/anime_client.py:134-150 | at most `max_retries + 1` requests, and 1 when `max_retries <= 0` |
| AnimeClient.Request | app/external/anime_client.py:132-150 | the URL is logged once per request sent, between 1 and `max_retries + 1` times |
| AnimeClient.SeasonPagesStep | app/external/anime_client.py:104-112 | one unfolding of the page loop: a page's items are appended, a failure ends the loop, and no next page ends it |
| AnimeClient.SeasonRequestsBounded | app/external/anime_client.py:104-112 | the season loop sends at most `max_retries + 1` requests per page |
| AnimeClient.StripTrailingSlashes | app/external/anime_client.py:24 | the result is a prefix of the string that does not end in "/" |
| AnimeClient.Upstream.Get | app/external/anime_client.py:137 | the next scripted response (a transport failure when the script is exhausted), and the URL is logged |
| AnimeClient.JikanClient.GetWithRetry | app/external/anime_client.py:132-150 | the result, and the script left, the URLs sent and the sleeps afterwards, are exactly those of `Request` |
| AnimeClient.JikanClient.FetchListing | app/external/anime_client.py:58-68 | a fresh cache hit answers with no request, sleep or store; a miss answers as the uncached fetch and stores only a success, for the cache TTL |
| AnimeClient.JikanClient.FetchAnime | app/external/anime_client.py:30-56 | the same for the detail key "external:jikan:anime:{id}" and "/anime/{id}/full" |
| AnimeClient.JikanClient.FetchTop | app/external/anime_client.py:58-68 | `FetchListing` with the unclamped key and the URL clamped to [1, 50] |
| AnimeClient.JikanClient.FetchCurrentSeason | app/external/anime_client.py:70-80 | the same for "/seasons/now" |
| AnimeClient.JikanClient.FetchUpcoming | app/external/anime_client.py:82-92 | the same for "/seasons/upcoming" |
| AnimeClient.JikanClient.FetchSeasonCatalog | app/external/anime_client.py:94-115 | pages are clamped to [1, 10]; the answer comes from the cache, or from the page loop, stored on success |
| AnimeClient.JikanClient.FetchSeasonAndStore | app/external/anime_client.py:104-115 | the loop's result, stored only on success |
| AnimeClient.JikanClient.FetchSeasonPages | app/external/anime_client.py:104-112 | the result and the network are those of the page loop as a function |
| AnimeImport.ImportError | app/services/anime_import_service.py:18-23 | HTTP errors of the client pass through, and every other failure becomes 502 "External catalog unavailable" |
| AnimeImport.Refreshed | app/services/anime_import_service.py:40-49 | the detail's columns overwrite the row's, the key and `mal_id` stay, and the stamp is `now` |
| AnimeImport.NewRow | app/services/anime_import_service.py:26-39 | a new row with the given key, the detail's columns and `mal_id`, stamped `now` |
| AnimeImport.ImportRow | app/services/anime_import_service.py:25-49 | the first row with the id is refreshed in place, or a row with a fresh key is appended; only the catalogue changes |
| AnimeImport.ImportKeepsKeysUnique | app/services/anime_import_service.py:25-53 | an import that does not conflict keeps keys and `mal_id` unique |
| AnimeImport.ReimportOnlyRestamps | app/services/anime_import_service.py:25-49 | a second import of the same record only moves the sync stamp |
| AnimeImport.ReimportAppendsWhenIdDiffers | app/services/anime_import_service.py:25-39 | when the detail reports another id, every import appends a row |
| AnimeImport.ImportByMalId | app/services/anime_import_service.py:14-53 | a non-positive id gives 400 before any fetch; a failed fetch leaves the database as it was; a conflicting insert is a unique violation; otherwise the database is `ImportRow` |
| AnimeImport.OldestFirstIsPreorder | app/services/anime_import_service.py:59 | `NULLS FIRST, last_synced_at ASC` is a total preorder |
| AnimeImport.SyncSelectionProperties | app/services/anime_import_service.py:56-62 | only rows with a `mal_id`, none more often than in the table (multiset inclusion); never-synced rows first, then oldest; `limit` rows when there are enough; no row left out is older than one selected |
| AnimeImport.CountTrue | app/services/anime_import_service.py:63-70 | the count of successes, never more than the number of outcomes |
| AnimeImport.SyncRun | app/services/anime_import_service.py:63-70 | one outcome per selected id, and only the catalogue changes, with no row removed |
| AnimeImport.SyncRunOutcome | app/services/anime_import_service.py:63-70 | the k-th outcome is whether the k-th import succeeds against the database the first k iterations left |
| AnimeImport.SyncRunFailuresChangeNothing | app/services/anime_import_service.py:66-69 | when no import succeeds, every failure is rolled back and the database is unchanged |
| AnimeImport.SyncRunKeepsKeysUnique | app/services/anime_import_service.py:63-70 | the loop keeps the primary key and `mal_id` unique |
| AnimeImport.SyncOne | app/services/anime_import_service.py:63-69 | `ok` iff the id is positive, the client delivers a detail and the unique index accepts it; on success the database is `ImportRow`'s, otherwise it is rolled back; the `fetch_anime` cache and network contract of `ImportByMalId` |
| AnimeImport.SyncCatalog | app/services/anime_import_service.py:55-70 | one client answer per selected row; the outcomes and the final database are `SyncRun` over the selection's ids and those answers; the count is the number of imports that did not raise; only the catalogue changes; keys stay unique |
| StatsRepository.EntriesOf | app/repositories/stats_repository.py:22 | exactly the user's entries |
| StatsRepository.ScoresOf | app/repositories/stats_repository.py:13 | at most one score per entry, and none exactly when every score is null |
| StatsRepository.ScoresOfComeFromEntries | app/repositories/stats_repository.py:10-15 | every score collected is the score of some entry |
| StatsRepository.Mean | app/repositories/stats_repository.py:10 | `AVG`: nothing exactly when there are no values |
| StatsRepository.MeanBounds | app/repositories/stats_repository.py:10 | the mean lies between any lower and upper bound of the values |
| StatsRepository.AverageScore | app/repositories/stats_repository.py:8-17 | nothing exactly when the user has no scored entry |
| StatsRepository.AverageScoreInRange | app/repositories/stats_repository.py:8-17 | with schema-valid scores and one scored entry of the user, there is an average and it lies in [0, 10] |
| StatsRepository.TotalWatchedBounds | app/repositories/stats_repository.py:19-24 | the total is non-negative, and it is 0 for a user without entries |
| StatsRepository.TotalWatchedAppend | app/repositories/stats_repository.py:19-24 | the total adds up over a split of the table |
| StatsRepository.TotalCompleted | app/repositories/stats_repository.py:26-34 | never more than the number of the user's entries |
| StatsRepository.JoinedEntries | app/repositories/stats_repository.py:45-46 | only entries of the user whose title exists |
| StatsRepository.JoinedRows | app/repositories/stats_repository.py:38-46 | one row per joined entry, carrying its title and tracking columns |
| StatsRepository.RankedBeforeIsPreorder | app/repositories/stats_repository.py:47-51 | the ranking order is a total preorder |
| StatsRepository.PersonalRankingProperties | app/repositories/stats_repository.py:36-54 | `limit` rows or all of them, all the user's, none more often than among the joined rows; null scores last, higher scores and then more progress first; no row left out ranks strictly ahead of one kept |
| StatsRepository.AverageRows | app/repositories/stats_repository.py:56-65 | one row per scored title, valued by its mean |
| StatsRepository.ByAverageDescIsPreorder | app/repositories/stats_repository.py:66 | `value DESC` is a total preorder |
| StatsRepository.GlobalAverageScoresProperties | app/repositories/stats_repository.py:56-69 | scored titles valued by their mean, none repeated beyond the grouped rows, best first, `limit` of them when available, and no title left out is better |
| StatsRepository.AverageRowMeaning | app/repositories/stats_repository.py:58-65 | a row belongs to a title with scores and carries their mean |
| StatsRepository.BestRated | app/repositories/stats_repository.py:84-96 | nothing exactly when no title is scored |
| StatsRepository.BestRatedIsMaximal | app/repositories/stats_repository.py:84-96 | the best rated title is scored, and no scored title has a higher mean |
| StatsRepository.CountRows | app/repositories/stats_repository.py:71-79 | one row per tracked title, valued by its entry count |
| StatsRepository.ByCountDescIsPreorder | app/repositories/stats_repository.py:80 | `value DESC` is a total preorder |
| StatsRepository.MostWatched | app/repositories/stats_repository.py:71-82 | nothing exactly when there are no count rows |
| StatsRepository.MostWatchedIsMaximal | app/repositories/stats_repository.py:71-82 | the most watched title has entries, no title has more, and there is none exactly when no entry refers to a title |
| StatsRepository.UserTotalsOfTestData | app/tests/test_stats.py:73-84 | average 9.0, 107 episodes and one completed entry on the test data |
| StatsRepository.RankingOfTestData | app/tests/test_stats.py:83-84 | two ranked rows, the score 10 first |
| StatsService.GlobalKeyIsNotAUserKey | app/services/stats_service.py:14 | "stats:global" is never a user key |
| StatsService.UserStatsInRange | app/services/stats_service.py:23-44 | on schema-valid rows the average lies in [0, 10], the totals are non-negative, completed is at most the entries, and the ranking has min(10, rows) rows |
| StatsService.BestRatedLeadsAverages | app/services/stats_service.py:54-65 | the best rated value equals the first average's value |
| StatsService.GetUserStats | app/services/stats_service.py:13-46 | a fresh cache hit is returned as is; on a miss an unknown user gives 404, and a known user gets the current statistics, stored for 120 s |
| StatsService.GetGlobalStats | app/services/stats_service.py:48-89 | a fresh hit, or the current global statistics stored for 120 s |
| StatsService.InvalidatedUserStatsAreRecomputed | app/services/user_anime_service.py:111-113 | after invalidation the user key misses |
| StatsService.UserStatsServedWhileFresh | app/services/stats_service.py:15-17 | a stored value is served unchanged for 120 s whatever the rows do |
| UserAnimeService.FindEntry | app/services/user_anime_service.py:29-31 | an entry of the pair, and none exactly when the pair is untracked |
| UserAnimeService.CreateRefusal | app/services/user_anime_service.py:23-33 | 404 user, then 404 title, then 400 duplicate, each exactly when its condition holds and the earlier ones pass |
| UserAnimeService.CreateEntry | app/services/user_anime_service.py:22-53 | refused payloads change nothing; an integrity failure gives 400 and an operational failure 503 with the database unchanged; otherwise one entry with a fresh key and the payload is appended |
| UserAnimeService.CreateKeepsValid | app/services/user_anime_service.py:22-47 | a successful create keeps every schema constraint |
| UserAnimeService.CreatedEntryInRange | app/schemas.py:62-69 | a valid payload gives an entry in the schema's ranges |
| UserAnimeService.ListUserAnimes | app/services/user_anime_service.py:55-56 | the user's entries in table order from `offset`, as many as remain up to `limit` |
| UserAnimeService.Progress | app/services/user_anime_service.py:82-92 | the absolute value when given, otherwise old plus increment, otherwise unchanged |
| UserAnimeService.UpdateRefusal | app/services/user_anime_service.py:65-91 | 404 entry, 403 owner, 400 mixed progress, 404 title, 400 above total, in that order, each iff |
| UserAnimeService.ApplyUpdate | app/services/user_anime_service.py:58-109 | refused or unavailable updates change nothing; otherwise exactly the given fields of the entry are written |
| UserAnimeService.UpdateRespectsEpisodeCap | app/services/user_anime_service.py:82-92 | after a progress change the progress is at most a known episode count |
| UserAnimeService.UpdateKeepsValid | app/services/user_anime_service.py:94-109 | a successful update keeps every schema constraint |
| UserAnimeService.UpdateKeepsRanges | app/schemas.py:86-92 | a valid payload keeps an in-range entry in range |
| UserAnimeService.ProgressExamples | app/tests/test_user_animes.py:85-141 | 100 + 20 gives 120, and 1090 + 20 is refused for 1100 episodes |
| UserAnimeService.InvalidateStatsCache | app/services/user_anime_service.py:111-113 | exactly "stats:user:{id}" and "stats:global" are dropped |
| UserAnimeService.CreateUserAnime | app/services/user_anime_service.py:22-53 | `CreateEntry`, then on success the two statistics keys are dropped, and on failure none |
| UserAnimeService.UpdateUserAnime | app/services/user_anime_service.py:58-113 | `ApplyUpdate`, then on success the owner's and the global statistics are dropped |
| SocialRepository.FollowingCount | app/repositories/social_repository.py:87-88 | at most the number of follows, and 0 exactly when the user follows nobody |
| SocialRepository.FollowersCount | app/repositories/social_repository.py:84-85 | at most the number of follows, and 0 exactly when nobody follows the user |
| SocialRepository.FollowingIds | app/repositories/social_repository.py:52-54 | one id per follow, so its length is the following count |
| SocialRepository.FollowingIdsMeaning | app/repositories/social_repository.py:52-54 | an id is listed exactly when the user follows it |
| SocialRepository.FollowCountsAppend | app/repositories/social_repository.py:84-88 | a new follow adds one to the counts it concerns, and nothing else |
| SocialRepository.NewestFirstIsPreorder | app/repositories/social_repository.py:68 | `created_at DESC` is a total preorder |
| SocialRepository.Feed | app/repositories/social_repository.py:62-72 | an empty id list gives nothing, and at most `limit` activities |
| SocialRepository.FeedProperties | app/repositories/social_repository.py:62-72 | as many as remain after `offset`, up to `limit`; only activities of the listed users; newest first |
| SocialRepository.NoneMatchNobody | app/repositories/social_repository.py:63-64 | no activity matches an empty id list |
| SocialRepository.FirstPageIsNewest | app/repositories/social_repository.py:66-72 | the first page leaves out nothing newer than what it holds |
| SocialRepository.FeedPagesConcatenate | app/repositories/social_repository.py:70-71 | consecutive pages have no gaps or overlaps |
| SocialRepository.FeedHoldsAllWhenFew | app/repositories/social_repository.py:66-72 | a large enough page is a permutation of all matching activities |
| SocialRepository.RecentActivities | app/repositories/social_repository.py:74-82 | at most `limit` activities |
| SocialRepository.RecentActivitiesAreOwnFeed | app/repositories/social_repository.py:74-82 | the recent activities are the feed over the one user |
| SocialService.ReviewRefusal | app/services/social_service.py:21-24 | 404 user, then 404 title, each iff |
| SocialService.CreateReviewRow | app/services/social_service.py:20-33 | refused payloads change nothing; an unavailable database gives 503 unchanged; otherwise one review with a fresh key is appended |
| SocialService.CreateReview | app/services/social_service.py:20-51 | as `CreateReviewRow`; on success exactly the reached handlers get the review event, and the answer does not depend on which handlers raise |
| SocialService.ReviewKeepsValid | app/services/social_service.py:20-33 | a successful review keeps every constraint |
| SocialService.ReviewEventDescribesReview | app/services/social_service.py:34-47 | the event names the author, "review_created", the review and its score |
| SocialService.CommentRefusal | app/services/social_service.py:54-58 | 404 user, then 404 review, each iff |
| SocialService.CreateCommentRow | app/services/social_service.py:53-66 | as for reviews, with the comment row |
| SocialService.CreateComment | app/services/social_service.py:53-84 | as for reviews, with the comment event |
| SocialService.CommentKeepsValid | app/services/social_service.py:53-66 | a successful comment keeps every constraint |
| SocialService.FindFollow | app/repositories/social_repository.py:42-50 | the first follow of the pair, and none exactly when the pair is not followed |
| SocialService.FollowRefusal | app/services/social_service.py:87-94 | 400 self-follow before any lookup, then 404 for either user, then 400 already following, each iff |
| SocialService.CreateFollowRow | app/services/social_service.py:86-98 | refusals change nothing; an integrity failure gives 400, an operational failure 503; otherwise one follow with a fresh key |
| SocialService.FollowUser | app/services/social_service.py:86-119 | as `CreateFollowRow`, then the follow event to the reached handlers |
| SocialService.FollowEventDescribesFollow | app/services/social_service.py:99-112 | the event is "follow_created" on ("user", following id) by the follower |
| SocialService.FollowKeepsValid | app/services/social_service.py:86-98 | a successful follow keeps every constraint, one follow per pair included |
| SocialService.FollowIsCountedOnce | app/services/social_service.py:86-119 | counts go up by one, the followed id is listed, and a repeat is refused |
| SocialService.GetFeed | app/services/social_service.py:121-125 | 404 exactly for an unknown user |
| SocialService.FeedShowsFollowedUsers | app/services/social_service.py:121-125 | only followed users' activities, newest first, and empty when the user follows nobody |
| SocialService.DashboardMeaning | app/services/social_service.py:127-154 | the counts are the follow counts, 0 exactly when there are none, and the recent activities are the user's own, newest first |
| SocialService.GetDashboard | app/services/social_service.py:127-154 | 404 exactly when there is no fresh statistics hit and the user is unknown; otherwise the dashboard over those statistics, the cache as `get_user_stats` leaves it |
| AiService.SafeCount | app/services/ai_service.py:210-211 | `max(0, x or 0)`: non-negative, and the value itself when it is non-negative |
| AiService.InferStatus | app/services/ai_service.py:208-216 | "completed" once progress reaches a positive count; "watching" for planned or on-hold entries with progress; otherwise unchanged |
| AiService.InferStatusIdempotent | app/services/ai_service.py:208-216 | applying the rule twice is applying it once |
| AiService.DetailFor | app/services/ai_service.py:130-134 | a detail line exactly when the status changes |
| AiService.Updated | app/services/ai_service.py:122-134 | one entry per entry, with only the status possibly changed |
| AiService.AutoStatusRun | app/services/ai_service.py:110-136 | only the entries table changes |
| AiService.AutoStatusChangesOnlyStatus | app/services/ai_service.py:122-136 | only the status of the user's entries with existing titles changes, and the count is the number of changes |
| AiService.AutoStatusSecondRunIsNoop | app/services/ai_service.py:110-136 | a second run changes nothing and reports 0 |
| AiService.AutoUpdateStatuses | app/services/ai_service.py:110-136 | the loop's result and database are `AutoStatusRun` |
| AiService.ReviewEntry | app/services/ai_service.py:123-131 | one entry of the user gets the inferred status, and a detail line exactly when the status changes |
| AiService.AllUsersCountsDetails | app/services/ai_service.py:138-146 | the summed count equals the number of detail lines |
| AiService.UserIdList | app/services/ai_service.py:139 | each user's key, in order |
| AiService.AutoUpdateStatusesAllUsers | app/services/ai_service.py:138-146 | the total is the sum of all runs, and the details are their first 200 lines |
| AiService.StatusWeight | app/services/ai_service.py:158-163 | every status weight lies between 0.8 and 1.5 |
| AiService.GenreNames | app/services/ai_service.py:165-166 | one stripped, lower-cased name per comma-separated piece |
| AiService.AddNamesEffect | app/services/ai_service.py:165-169 | each non-empty name's weight grows by `x` per occurrence, no other key appears, and the empty name never becomes one |
| AiService.GenreWeightsNoEmptyKey | app/services/ai_service.py:148-170 | the profile never holds the empty name |
| AiService.ExtractPreferredGenres | app/services/ai_service.py:148-170 | the loop computes the profile `GenreWeights` |
| AiService.AddGenres | app/services/ai_service.py:165-169 | the inner loop computes `AddNames` |
| AiService.NormalizedBoost | app/services/ai_service.py:190 | `min(2.0, boost / 5.0)`, so at most 2 |
| AiService.ScoreAnime | app/services/ai_service.py:172-201 | the total is 0.45 popularity + 0.35 external score / 10 + 0.15 capped boost + 0.05 freshness; the reason is affinity iff the boost is at least 0.8, else trending iff popularity is at least 0.8, else release iff freshness is at least 0.03, else balanced |
| AiService.ScoreMonotoneInProfile | app/services/ai_service.py:185-192 | a stronger profile never lowers the score |
| AiService.GenreTermCapped | app/services/ai_service.py:192 | the genre term is at most 0.3 |
| AiService.Freshness | app/services/ai_service.py:177-183 | 0 when never synced, otherwise in [1/30, 1], and 1 within two days of the sync |
| AiService.BalancedOnlyWhenNeverSynced | app/services/ai_service.py:193-200 | the balanced reason is given only to titles never synced |
| AiService.ByScoreDescIsPreorder | app/services/ai_service.py:82 | `score DESC` is a total preorder |
| AiService.RecommendLimit | app/services/ai_service.py:83 | the limit clamped to [1, 100] |
| AiService.Candidates | app/services/ai_service.py:69-75 | exactly the titles the user does not track |
| AiService.UserEntries | app/services/ai_service.py:64-68 | exactly the user's entries |
| AiService.ScoreAll | app/services/ai_service.py:77-80 | one recommendation per candidate, in order |
| AiService.RankingProperties | app/services/ai_service.py:60-91 | only untracked titles, min(candidates, clamped limit) of them, best first, each scored by `ScoreAnime` under the user's genre profile; a sub-multiset of the scored candidates, and every scored candidate left out scores no higher than any recommendation (top-k) |
| AiService.RankingKeepsTies | app/services/ai_service.py:82 | equal scores keep table order |
| AiService.ScoreCandidates | app/services/ai_service.py:77-80 | the loop computes `ScoreAll` |
| AiService.RankForUser | app/services/ai_service.py:60-91 | the ranking of the seeded database |
| AiService.FieldsFrom | app/services/ai_service.py:46-54 | the title and genre are never empty, episodes are present, and the stamp is `now` |
| AiService.Synced | app/services/ai_service.py:46-54 | the nine columns are written, and the key and `mal_id` stay |
| AiService.UpsertItemKeepsRows | app/services/ai_service.py:36-56 | existing keys and ids are kept, and at most one row with a fresh key is added |
| AiService.UpsertItemEffect | app/services/ai_service.py:36-56 | the entry's id leads to a row holding its values, and other ids lead where they did |
| AiService.UpsertLastWins | app/services/ai_service.py:36-56 | a repeated id ends up holding the last entry's values |
| AiService.UpsertAllKeepsMalIdUnique | app/services/ai_service.py:36-56 | ingestion never makes two rows share a `mal_id` |
| AiService.UpsertItems | app/services/ai_service.py:36-56 | the loop computes `UpsertAll`, and the count is the number of truthy ids |
| AiService.ListingKeysDiffer | app/external/anime_client.py:60-72 | the top and the current-season cache keys differ |
| AiService.IngestTrendingCatalog | app/services/ai_service.py:30-58 | on failure the database is unchanged; on success both listings are cached and the database holds their upsert, top titles first, with the count of truthy ids |
| AiService.EnsureCatalogSeed | app/services/ai_service.py:203-206 | a catalogue of 25 or more is left alone; otherwise it is ingested with 40 per listing |
| AiService.RecommendForUser | app/services/ai_service.py:60-91 | seeding below 25 titles first, whose failure propagates; otherwise the ranking of the seeded database |
| AiService.NewsOf | app/services/ai_service.py:98-107 | source "jikan", category "release", and an empty title read as "Anime update" |
| AiService.NewsLimit | app/services/ai_service.py:97 | the limit clamped to [1, 50] |
| AiService.NewsFeed | app/services/ai_service.py:93-108 | the first `min(NewsLimit, |items|)` entries mapped, in order |
| AiService.GetNewsFeed | app/services/ai_service.py:93-108 | on success the feed of the cached upcoming listing; a failure happens only on a cache miss |
| AiService.FeedOf | app/services/ai_service.py:96-108 | the loop computes `NewsFeed` |
| Sorting.SortByProperties | app/repositories/stats_repository.py:47-51 | `ORDER BY` yields a sorted permutation of its rows |
| Sorting.SortByStable | app/repositories/stats_repository.py:47-51 | rows with equal keys keep table order |
| Sorting.PageOfSorted | app/repositories/social_repository.py:66-72 | an `OFFSET`/`LIMIT` page holds the sorted rows from the offset on (`page[k]` is sorted row `offset + k`), is sorted, is a sub-multiset of the rows, and is as long as what remains |
| Seqs.PagesConcatenate | app/repositories/social_repository.py:70-71 | consecutive `OFFSET`/`LIMIT` pages concatenate |
| Strings.StripSpec | app/core/rate_limit.py:51 | `strip()` gives a slice of its input with only whitespace outside it, neither starting nor ending with whitespace, and empty only when the input is all whitespace |

## Left out

- app/events/activity_handlers.py is not part of this model. The handler that persists activities is a subscriber, so the `activities` table is only read.
- Redis is left out: the cache and the rate limiter are modelled on their in-memory paths only.
- Threads and locks are left out: every operation runs to completion on its own.
- HTTP routing, JWT and the background sync job are left out. They only call the services.
- Popularity, `log10` and `round` are left out. Python floats are modelled as exact reals, so popularity is a parameter of the ranking and scores are not rounded to three decimals.
- ISO date parsing of `aired.from` is left out: the text is kept.
- `time.sleep` is not performed: each sleep is only recorded.
- Strings are ASCII only: `lower()` covers ASCII letters and `strip()` covers ASCII whitespace, as `str.isspace` defines it.
- The single process-wide cache store is modelled as one store per value type. Their key families never overlap.
- The Jikan upstream is a scripted sequence of responses.
- The `Rejected` client error stands for an `HTTPException` raised by a substituted client. `JikanClient` never produces it.
- Follows are not cascaded when a user is deleted, as in the source.
- The sync catalogue operation requires `limit >= 0`, which the router guarantees.
- The feed, list and dashboard operations require `limit >= 0` and `offset >= 0`, which the router guarantees.
- How a commit ends is an input: `Commit`, or `available` when only `OperationalError` is caught.
- Autoincrement keys are modelled by `NextId`.
- SocialService.CreateReview: only `OperationalError` on commit is modelled. An `IntegrityError` there is not caught by the source.
- SocialService.CreateComment: only `OperationalError` on commit is modelled, for the same reason.
- UserAnimeService.ApplyUpdate: an `IntegrityError` on update commit is not modelled. The source does not catch it, and no column of the update is constrained.
- SocialService.DashboardOf: the `or 0` fallback on the counts is not modelled, because `COUNT` always yields a number.
- UpsertItem, UpsertAll and IngestTrendingCatalog: the upsert is keyed by `mal_id`, so a new `mal_id` met twice in one batch updates one row. The source instead adds two rows, because its lookup is a SQL query that does not see unflushed rows (autoflush is off), and its commit then raises IntegrityError on the unique `mal_id`. This failure is not modelled.
- SQL tie order: rows with equal sort keys keep table order in the model. SQL does not fix this order.
