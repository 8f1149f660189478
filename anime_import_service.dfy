/**
 * `AnimeImportService` (app/services/anime_import_service.py): importing one
 * title from the external catalogue by its MyAnimeList id, and the periodic
 * re-synchronisation of the titles that carry such an id, least recently
 * synchronised first.
 */
module AnimeImport {
  import opened Wrappers
  import opened Models
  import Seqs
  import Sorting
  import Cache
  import AnimeClient

  const InvalidMalId := HttpError(400, "mal_id must be greater than zero")
  const CatalogUnavailable := HttpError(502, "External catalog unavailable")

  /**
   * Why an import did not happen: an HTTP error for the caller, or the
   * commit refused by the unique index on `mal_id` (an IntegrityError, which
   * is not an HTTPException and so reaches the caller unchanged).
   */
  datatype ImportFailure = Refused(error: HttpError) | UniqueViolation

  /** The client's HTTP errors pass through; any other failure becomes a 502. */
  function ImportError(e: AnimeClient.ClientError): (h: HttpError)
    ensures e.Rejected? ==> h == e.error
    ensures !e.Rejected? ==> h.status == 502 && h == CatalogUnavailable
  {
    if e.Rejected? then e.error else CatalogUnavailable
  }

  /** The row carries every column the detail record supplies, stamped at `now`. */
  predicate SyncedFrom(a: Anime, d: AnimeClient.Detail, now: Timestamp) {
    && a.title == d.title && a.genre == d.genre && a.episodes == Some(d.episodes)
    && a.externalScore == d.externalScore && a.members == d.members
    && a.externalStatus == d.externalStatus && a.imageUrl == d.imageUrl
    && a.synopsis == d.synopsis && a.lastSyncedAt == Some(now)
  }

  /** The update branch: the detail's columns overwrite the row's; `id` and `mal_id` stay. */
  function Refreshed(a: Anime, d: AnimeClient.Detail, now: Timestamp): (r: Anime)
    ensures r.id == a.id && r.malId == a.malId
    ensures SyncedFrom(r, d, now)
  {
    a.(title := d.title, genre := d.genre, episodes := Some(d.episodes),
       externalScore := d.externalScore, members := d.members, externalStatus := d.externalStatus,
       imageUrl := d.imageUrl, synopsis := d.synopsis, lastSyncedAt := Some(now))
  }

  /** The insert branch: a fresh key, and `mal_id` as the detail record reports it. */
  function NewRow(id: int, d: AnimeClient.Detail, now: Timestamp): (r: Anime)
    ensures r.id == id && r.malId == d.malId
    ensures SyncedFrom(r, d, now)
  {
    Anime(id, d.title, d.genre, Some(d.episodes), d.malId, d.externalScore, d.members,
          d.externalStatus, d.imageUrl, d.synopsis, Some(now))
  }

  /**
   * The insert would give a second row the `mal_id` of an existing one: no
   * row has the requested id, and the detail reports another id already taken.
   */
  predicate Conflicts(db: Db, malId: int, d: AnimeClient.Detail) {
    && IndexOfMalId(db.animes, malId).None?
    && d.malId.Some? && IndexOfMalId(db.animes, d.malId.value).Some?
  }

  /**
   * The database write of `import_by_mal_id` once the detail is in hand: the
   * first row with the requested `mal_id` is updated in place, or a row is
   * appended under a key no row uses. Only the catalogue table changes.
   */
  function ImportRow(db: Db, malId: int, d: AnimeClient.Detail, now: Timestamp): (r: (Anime, Db))
    ensures SyncedFrom(r.0, d, now)
    ensures r.1 == db.(animes := r.1.animes)
    ensures IndexOfMalId(db.animes, malId).Some? ==>
      var k := IndexOfMalId(db.animes, malId).value;
      r.1.animes == db.animes[k := r.0] && r.0.id == db.animes[k].id && r.0.malId == Some(malId)
    ensures IndexOfMalId(db.animes, malId).None? ==>
      r.1.animes == db.animes + [r.0] && r.0.malId == d.malId && r.0.id !in AnimeIds(db)
  {
    match IndexOfMalId(db.animes, malId)
    case Some(k) =>
      var a := Refreshed(db.animes[k], d, now);
      (a, db.(animes := db.animes[k := a]))
    case None =>
      var ids := AnimeIdList(db.animes);
      var a := NewRow(NextId(ids), d, now);
      assert forall k :: 0 <= k < |db.animes| ==> db.animes[k].id == ids[k] < a.id;
      (a, db.(animes := db.animes + [a]))
  }

  /** An import that the unique index accepts keeps both keys of the catalogue unique. */
  lemma ImportKeepsKeysUnique(db: Db, malId: int, d: AnimeClient.Detail, now: Timestamp)
    requires AnimeKeysUnique(db.animes) && MalIdUnique(db.animes)
    requires !Conflicts(db, malId, d)
    ensures AnimeKeysUnique(ImportRow(db, malId, d, now).1.animes)
    ensures MalIdUnique(ImportRow(db, malId, d, now).1.animes)
  {
    var (a, db2) := ImportRow(db, malId, d, now);
    if IndexOfMalId(db.animes, malId).None? {
      assert forall k :: 0 <= k < |db.animes| ==> db.animes[k] in db.animes;
      if d.malId.Some? {
        assert IndexOfMalId(db.animes, d.malId.value).None?;
      }
    }
  }

  /**
   * Importing the same record again, once it is stored under the requested
   * id, finds the row the first import wrote and only moves its sync stamp.
   */
  lemma ReimportOnlyRestamps(db: Db, malId: int, d: AnimeClient.Detail, t1: Timestamp, t2: Timestamp)
    requires IndexOfMalId(db.animes, malId).Some? || d.malId == Some(malId)
    ensures var (a1, db1) := ImportRow(db, malId, d, t1);
      var (a2, db2) := ImportRow(db1, malId, d, t2);
      var i := IndexOfMalId(db1.animes, malId);
      && i.Some? && db1.animes[i.value] == a1
      && a2 == a1.(lastSyncedAt := Some(t2))
      && db2 == db1.(animes := db1.animes[i.value := a2])
  {
    var (a1, db1) := ImportRow(db, malId, d, t1);
    match IndexOfMalId(db.animes, malId)
    case Some(k) =>
      IndexOfMalIdSame(db.animes, db1.animes, malId);
    case None =>
      var i := IndexOfMalId(db1.animes, malId);
      assert db1.animes[|db.animes|] == a1;
      assert i.Some? && i.value == |db.animes|;
  }

  /**
   * When the detail reports a different id than the one requested and no
   * row holds the requested one, every import of it appends another row.
   */
  lemma ReimportAppendsWhenIdDiffers(db: Db, malId: int, d: AnimeClient.Detail, t1: Timestamp, t2: Timestamp)
    requires IndexOfMalId(db.animes, malId).None? && d.malId != Some(malId)
    ensures var db1 := ImportRow(db, malId, d, t1).1;
      && IndexOfMalId(db1.animes, malId).None?
      && |ImportRow(db1, malId, d, t2).1.animes| == |db.animes| + 2
  {
  }

  /**
   * `import_by_mal_id(mal_id)` at instant `now`. A non-positive id is refused
   * before anything is fetched. Otherwise `fetched` is the answer of
   * `fetch_anime` (the detail cache first, the upstream on a miss); a failure
   * leaves the database as it was, and a detail is written by `ImportRow`
   * unless the unique index on `mal_id` refuses the commit.
   */
  method ImportByMalId(db: Db, client: AnimeClient.JikanClient, malId: int, now: Timestamp)
    returns (r: Result<Anime, ImportFailure>, db2: Db, ghost fetched: Result<AnimeClient.Detail, AnimeClient.ClientError>)
    modifies client, client.upstream, client.itemCache
    ensures malId <= 0 ==>
      r == Err(Refused(InvalidMalId)) && db2 == db && unchanged(client, client.upstream, client.itemCache)
    ensures malId > 0 ==>
      var key := AnimeClient.AnimeKey(malId);
      && AnimeClient.ServedFromCache(old(client.itemCache.data), client.itemCache.data, key, now as real,
                                     old(client.NetOf()), client.NetOf(), fetched)
      && AnimeClient.FetchedOnMiss(old(client.itemCache.data), key, now as real, client.NetOf(), fetched,
                                   client.DetailMiss(old(client.NetOf()), client.AnimeUrl(malId)))
      && AnimeClient.StoredOnMiss(old(client.itemCache.data), client.itemCache.data, key, now as real,
                                  client.cacheTtl, fetched)
    ensures malId > 0 && fetched.Err? ==> r == Err(Refused(ImportError(fetched.error))) && db2 == db
    ensures malId > 0 && fetched.Ok? && Conflicts(db, malId, fetched.value) ==>
      r == Err(UniqueViolation) && db2 == db
    ensures malId > 0 && fetched.Ok? && !Conflicts(db, malId, fetched.value) ==>
      r == Ok(ImportRow(db, malId, fetched.value, now).0) && db2 == ImportRow(db, malId, fetched.value, now).1
  {
    if malId <= 0 {
      return Err(Refused(InvalidMalId)), db, Err(AnimeClient.NotFound);
    }
    var external := client.FetchAnime(malId, now as real);
    fetched := external;
    if external.Err? {
      return Err(Refused(ImportError(external.error))), db, fetched;
    }
    if Conflicts(db, malId, external.value) {
      return Err(UniqueViolation), db, fetched;
    }
    var (anime, next) := ImportRow(db, malId, external.value, now);
    r, db2 := Ok(anime), next;
  }

  // ---------------------------------------------------------------------
  // sync_catalog

  /** `ORDER BY last_synced_at ASC NULLS FIRST`. */
  function OldestFirst(): (Anime, Anime) -> bool {
    (a: Anime, b: Anime) =>
      a.lastSyncedAt.None? || (b.lastSyncedAt.Some? && a.lastSyncedAt.value <= b.lastSyncedAt.value)
  }

  lemma OldestFirstIsPreorder()
    ensures Sorting.TotalPreorder(OldestFirst())
  {
    var le := OldestFirst();
    forall a: Anime, b: Anime
      ensures le(a, b) || le(b, a)
    {
      if a.lastSyncedAt.Some? && b.lastSyncedAt.Some? {
        assert a.lastSyncedAt.value <= b.lastSyncedAt.value || b.lastSyncedAt.value <= a.lastSyncedAt.value;
      }
    }
  }

  function HasMalId(): Anime -> bool {
    (a: Anime) => a.malId.Some?
  }

  /** The rows `sync_catalog(limit)` visits: those with a `mal_id`, oldest sync first, at most `limit`. */
  function SyncSelection(animes: seq<Anime>, limit: int): (sel: seq<Anime>)
    requires limit >= 0
    ensures forall k :: 0 <= k < |sel| ==> sel[k].malId.Some?
  {
    var eligible := Seqs.Filter(animes, HasMalId());
    OldestFirstIsPreorder();
    Sorting.TakeSortedProperties(eligible, OldestFirst(), limit);
    Seqs.Take(Sorting.SortBy(eligible, OldestFirst()), limit)
  }

  /**
   * The selection holds only rows with a `mal_id`, each no more often than
   * the table does, never-synced rows before synced ones and older stamps
   * before newer, `limit` of them when there are that many, and every
   * eligible row left out is synced no earlier than any row selected.
   */
  lemma SyncSelectionProperties(animes: seq<Anime>, limit: int)
    requires limit >= 0
    ensures var sel := SyncSelection(animes, limit);
      var eligible := Seqs.Filter(animes, HasMalId());
      && |sel| == Seqs.Min(limit, |eligible|)
      && multiset(sel) <= multiset(animes)
      && (forall k :: 0 <= k < |sel| ==> sel[k] in animes && sel[k].malId.Some?)
      && (forall i, j :: 0 <= i < j < |sel| ==> OldestFirst()(sel[i], sel[j]))
      && (forall a, k :: a in animes && a.malId.Some? && a !in sel && 0 <= k < |sel| ==> OldestFirst()(sel[k], a))
  {
    OldestFirstIsPreorder();
    Seqs.FilterComplete(animes, HasMalId());
    Seqs.FilterMultiset(animes, HasMalId());
    Sorting.TakeSortedProperties(Seqs.Filter(animes, HasMalId()), OldestFirst(), limit);
  }

  /** The number of successful imports. */
  function CountTrue(outcomes: seq<bool>): (n: nat)
    ensures n <= |outcomes|
  {
    if outcomes == [] then 0
    else CountTrue(outcomes[..|outcomes| - 1]) + (if outcomes[|outcomes| - 1] then 1 else 0)
  }

  lemma CountTrueOneMore(outcomes: seq<bool>, ok: bool)
    ensures CountTrue(outcomes + [ok]) == CountTrue(outcomes) + (if ok then 1 else 0)
  {
    assert (outcomes + [ok])[..|outcomes|] == outcomes;
  }

  /** The `mal_id` of each selected row, in the order of the selection. */
  function MalIds(sel: seq<Anime>): (ids: seq<int>)
    requires forall k :: 0 <= k < |sel| ==> sel[k].malId.Some?
    ensures |ids| == |sel| && forall k :: 0 <= k < |sel| ==> sel[k].malId == Some(ids[k])
  {
    seq(|sel|, k requires 0 <= k < |sel| => sel[k].malId.value)
  }

  /**
   * `import_by_mal_id` returns without raising exactly when the id is
   * positive, the client delivers a detail, and the unique index accepts
   * the commit.
   */
  predicate ImportSucceeds(db: Db, malId: int, fetched: Result<AnimeClient.Detail, AnimeClient.ClientError>) {
    malId > 0 && fetched.Ok? && !Conflicts(db, malId, fetched.value)
  }

  /** The database after one iteration: the import's write, or the rollback of a failed import. */
  function AfterSync(db: Db, malId: int, fetched: Result<AnimeClient.Detail, AnimeClient.ClientError>, now: Timestamp): Db {
    if ImportSucceeds(db, malId, fetched) then ImportRow(db, malId, fetched.value, now).1 else db
  }

  /**
   * The loop of `sync_catalog` over the ids `malIds`, given the answer
   * `fetches[k]` the client gave for the k-th of them: the outcome of every
   * iteration, and the database after the last. Each iteration sees the
   * database the previous ones left, and a failure does not end the loop.
   */
  function SyncRun(db: Db, malIds: seq<int>, fetches: seq<Result<AnimeClient.Detail, AnimeClient.ClientError>>,
                   now: Timestamp): (r: (seq<bool>, Db))
    requires |fetches| == |malIds|
    ensures |r.0| == |malIds|
    ensures r.1 == db.(animes := r.1.animes) && |r.1.animes| >= |db.animes|
    decreases |malIds|
  {
    if malIds == [] then ([], db)
    else
      var n := |malIds| - 1;
      var (outcomes, before) := SyncRun(db, malIds[..n], fetches[..n], now);
      (outcomes + [ImportSucceeds(before, malIds[n], fetches[n])], AfterSync(before, malIds[n], fetches[n], now))
  }

  /** One more iteration of the loop extends the run by that import's outcome and write. */
  lemma SyncRunOneMore(db: Db, malIds: seq<int>, fetches: seq<Result<AnimeClient.Detail, AnimeClient.ClientError>>,
                       f: Result<AnimeClient.Detail, AnimeClient.ClientError>, now: Timestamp)
    requires |fetches| < |malIds|
    ensures var (outcomes, before) := SyncRun(db, malIds[..|fetches|], fetches, now);
      var i := |fetches|;
      SyncRun(db, malIds[..i + 1], fetches + [f], now)
        == (outcomes + [ImportSucceeds(before, malIds[i], f)], AfterSync(before, malIds[i], f, now))
  {
    var i := |fetches|;
    assert malIds[..i + 1][..i] == malIds[..i];
    assert (fetches + [f])[..i] == fetches;
  }

  /**
   * The k-th outcome of the loop is whether the k-th import succeeds
   * against the database the first k iterations left.
   */
  lemma {:induction false} SyncRunOutcome(db: Db, malIds: seq<int>,
                                          fetches: seq<Result<AnimeClient.Detail, AnimeClient.ClientError>>,
                                          now: Timestamp, k: int)
    requires |fetches| == |malIds| && 0 <= k < |malIds|
    ensures SyncRun(db, malIds, fetches, now).0[k]
      == ImportSucceeds(SyncRun(db, malIds[..k], fetches[..k], now).1, malIds[k], fetches[k])
  {
    var n := |malIds| - 1;
    if k < n {
      var ids, fs := malIds[..n], fetches[..n];
      SyncRunOutcome(db, ids, fs, now, k);
      assert ids[..k] == malIds[..k] && fs[..k] == fetches[..k];
    }
  }

  /** A run in which every import fails leaves the database as it was: each failure is rolled back. */
  lemma {:induction false} SyncRunFailuresChangeNothing(db: Db, malIds: seq<int>,
                                                       fetches: seq<Result<AnimeClient.Detail, AnimeClient.ClientError>>,
                                                       now: Timestamp)
    requires |fetches| == |malIds|
    requires CountTrue(SyncRun(db, malIds, fetches, now).0) == 0
    ensures SyncRun(db, malIds, fetches, now).1 == db
  {
    if malIds != [] {
      var n := |malIds| - 1;
      var r := SyncRun(db, malIds, fetches, now);
      assert r.0[..n] == SyncRun(db, malIds[..n], fetches[..n], now).0;
      SyncRunFailuresChangeNothing(db, malIds[..n], fetches[..n], now);
    }
  }

  /** The loop keeps both keys of the catalogue unique. */
  lemma {:induction false} SyncRunKeepsKeysUnique(db: Db, malIds: seq<int>,
                                                  fetches: seq<Result<AnimeClient.Detail, AnimeClient.ClientError>>,
                                                  now: Timestamp)
    requires |fetches| == |malIds|
    requires AnimeKeysUnique(db.animes) && MalIdUnique(db.animes)
    ensures AnimeKeysUnique(SyncRun(db, malIds, fetches, now).1.animes)
    ensures MalIdUnique(SyncRun(db, malIds, fetches, now).1.animes)
  {
    if malIds != [] {
      var n := |malIds| - 1;
      var before := SyncRun(db, malIds[..n], fetches[..n], now).1;
      SyncRunKeepsKeysUnique(db, malIds[..n], fetches[..n], now);
      if ImportSucceeds(before, malIds[n], fetches[n]) {
        ImportKeepsKeysUnique(before, malIds[n], fetches[n].value, now);
      }
    }
  }

  /**
   * One iteration of the sync loop: `import_by_mal_id`, with the client
   * contract of `fetch_anime`, or the rollback of a failed import. `ok`
   * tells whether the import returned without raising.
   */
  method SyncOne(db: Db, client: AnimeClient.JikanClient, malId: int, now: Timestamp)
    returns (ok: bool, db2: Db, ghost fetched: Result<AnimeClient.Detail, AnimeClient.ClientError>)
    modifies client, client.upstream, client.itemCache
    ensures malId <= 0 ==> unchanged(client, client.upstream, client.itemCache)
    ensures malId > 0 ==>
      var key := AnimeClient.AnimeKey(malId);
      && AnimeClient.ServedFromCache(old(client.itemCache.data), client.itemCache.data, key, now as real,
                                     old(client.NetOf()), client.NetOf(), fetched)
      && AnimeClient.FetchedOnMiss(old(client.itemCache.data), key, now as real, client.NetOf(), fetched,
                                   client.DetailMiss(old(client.NetOf()), client.AnimeUrl(malId)))
      && AnimeClient.StoredOnMiss(old(client.itemCache.data), client.itemCache.data, key, now as real,
                                  client.cacheTtl, fetched)
    ensures ok == ImportSucceeds(db, malId, fetched)
    ensures db2 == AfterSync(db, malId, fetched, now)
    ensures ok ==> db2 == ImportRow(db, malId, fetched.value, now).1
    ensures !ok ==> db2 == db
  {
    var r, next;
    r, next, fetched := ImportByMalId(db, client, malId, now);
    ok := r.Ok?;
    db2 := if ok then next else db;
  }

  /**
   * `sync_catalog(limit)`: re-imports every selected row by its `mal_id`; a
   * failed import is rolled back and does not stop the loop. `fetches` are
   * the client's answers, one per selected row; the outcomes and the final
   * database are those of `SyncRun` on them, and the result counts the
   * imports that did not raise.
   */
  method SyncCatalog(db: Db, client: AnimeClient.JikanClient, limit: int, now: Timestamp)
    returns (synced: int, db2: Db, ghost outcomes: seq<bool>,
             ghost fetches: seq<Result<AnimeClient.Detail, AnimeClient.ClientError>>)
    requires limit >= 0
    modifies client, client.upstream, client.itemCache
    ensures |fetches| == |SyncSelection(db.animes, limit)|
    ensures (outcomes, db2) == SyncRun(db, MalIds(SyncSelection(db.animes, limit)), fetches, now)
    ensures synced == CountTrue(outcomes) && 0 <= synced <= |SyncSelection(db.animes, limit)|
    ensures db2 == db.(animes := db2.animes) && |db2.animes| >= |db.animes|
    ensures AnimeKeysUnique(db.animes) && MalIdUnique(db.animes) ==>
      AnimeKeysUnique(db2.animes) && MalIdUnique(db2.animes)
  {
    var animes := SyncSelection(db.animes, limit);
    ghost var ids := MalIds(animes);
    synced := 0;
    db2 := db;
    outcomes := [];
    fetches := [];
    var i := 0;
    while i < |animes|
      invariant 0 <= i <= |animes| && |fetches| == i
      invariant (outcomes, db2) == SyncRun(db, ids[..i], fetches, now)
      invariant synced == CountTrue(outcomes)
    {
      var ok;
      ghost var f;
      ok, db2, f := SyncOne(db2, client, animes[i].malId.value, now);
      SyncRunOneMore(db, ids, fetches, f, now);
      CountTrueOneMore(outcomes, ok);
      synced := synced + (if ok then 1 else 0);
      outcomes := outcomes + [ok];
      fetches := fetches + [f];
      i := i + 1;
    }
    assert ids[..i] == ids;
    if AnimeKeysUnique(db.animes) && MalIdUnique(db.animes) {
      SyncRunKeepsKeysUnique(db, ids, fetches, now);
    }
  }
}
