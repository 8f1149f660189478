/**
 * The Jikan catalogue client (app/external/anime_client.py): retry with
 * backoff, cache-first lookups and the mapping of Jikan's JSON into the
 * catalogue fields the services store. The HTTP upstream is an `Upstream`
 * object that answers from a script of responses and logs every URL it is
 * sent; `time.sleep` is recorded in the client's `sleeps` log.
 */
module AnimeClient {
  import opened Wrappers
  import Strings
  import Seqs
  import Cache
  import Config

  // ---------------------------------------------------------------------
  // Jikan's JSON, as far as the mapping reads it. `None` is a missing key or
  // a JSON null; both behave the same under `.get(...)`.

  /** `score` as `round(float(score))` sees it: absent, an integer after rounding, or a value `float` rejects. */
  datatype RawScore = NoScore | Rounded(n: int) | Unconvertible

  datatype RawGenre = RawGenre(name: Option<string>)
  datatype RawJpg = RawJpg(imageUrl: Option<string>)
  datatype RawImages = RawImages(jpg: Option<RawJpg>)

  /**
   * One anime object. A missing, null or empty `genres` list is `[]`; a
   * missing or empty `images` object is `None` (`or {}` makes them alike).
   */
  datatype RawItem = RawItem(
    malId: Option<int>,
    title: Option<string>,
    genres: seq<RawGenre>,
    episodes: Option<int>,
    score: RawScore,
    members: Option<int>,
    status: Option<string>,
    images: Option<RawImages>,
    synopsis: Option<string>,
    airedFrom: Option<string>,
    url: Option<string>)

  /** The `data` member of a reply: absent, one object, an empty object, or a list of objects. */
  datatype Data = NoData | Object(item: RawItem) | EmptyObject | Items(items: seq<RawItem>)

  /** A decoded reply body; `hasNextPage` is `pagination.has_next_page`. */
  datatype Payload = Payload(data: Data, hasNextPage: Option<bool>)

  /** What one `client.get(url)` yields: a reply, or an exception raised by the transport. */
  datatype Response = Reply(status: int, retryAfter: Option<string>, payload: Payload) | TransportFailure

  /**
   * How a client call fails: "External anime data not found", an
   * `HTTPStatusError`, a transport exception, a payload the mapping cannot
   * iterate, or an `HTTPException` (raised only by a substituted client,
   * never by `JikanClient`).
   */
  datatype ClientError = NotFound | StatusError(status: int) | TransportError | MalformedPayload
                       | Rejected(error: HttpError)

  /** A listing or season entry (`_map_catalog_item`). */
  datatype CatalogItem = CatalogItem(
    malId: Option<int>,
    title: string,
    genre: string,
    episodes: int,
    externalScore: Option<int>,
    members: Option<int>,
    externalStatus: Option<string>,
    imageUrl: Option<string>,
    synopsis: Option<string>,
    airedFrom: Option<string>,
    url: Option<string>)

  /** The detail record of `fetch_anime`: the catalogue fields without `aired_from` and `url`. */
  datatype Detail = Detail(
    malId: Option<int>,
    title: string,
    genre: string,
    episodes: int,
    externalScore: Option<int>,
    members: Option<int>,
    externalStatus: Option<string>,
    imageUrl: Option<string>,
    synopsis: Option<string>)

  // ---------------------------------------------------------------------
  // Normalisers

  /** `_normalize_score`: nothing for a missing or unconvertible score, otherwise the rounded score clamped to [0, 10]. */
  function NormalizeScore(s: RawScore): (r: Option<int>)
    ensures r.Some? <==> s.Rounded?
    ensures r.Some? ==> 0 <= r.value <= 10
    ensures s.Rounded? && 0 <= s.n <= 10 ==> r == Some(s.n)
    ensures s.Rounded? && s.n < 0 ==> r == Some(0)
    ensures s.Rounded? && s.n > 10 ==> r == Some(10)
  {
    match s
    case NoScore => None
    case Unconvertible => None
    case Rounded(n) => if n < 0 then Some(0) else if n > 10 then Some(10) else Some(n)
  }

  /** The truthy genre names, in order. */
  function GenreNames(genres: seq<RawGenre>): (names: seq<string>)
    ensures |names| <= |genres|
    ensures forall k :: 0 <= k < |names| ==> names[k] != ""
    ensures names == [] <==> forall k :: 0 <= k < |genres| ==> genres[k].name.None? || genres[k].name.value == ""
  {
    if genres == [] then []
    else
      var rest := GenreNames(genres[1..]);
      assert forall k :: 1 <= k < |genres| ==> genres[k] == genres[1..][k - 1];
      if genres[0].name.Some? && genres[0].name.value != "" then [genres[0].name.value] + rest else rest
  }

  /** The `genre` field: the ", "-join of the truthy names, or "Unknown" when there is none. */
  function GenreText(genres: seq<RawGenre>): (g: string)
    ensures g != ""
    ensures GenreNames(genres) == [] ==> g == "Unknown"
    ensures GenreNames(genres) != [] ==> g == Strings.Join(GenreNames(genres), ", ")
  {
    var names := GenreNames(genres);
    var joined := Strings.Join(names, ", ");
    assert names != [] ==> |joined| >= |names[0]|;
    if joined == "" then "Unknown" else joined
  }

  /** `((images or {}).get("jpg") or {}).get("image_url")` */
  function ImageUrl(images: Option<RawImages>): (u: Option<string>)
    ensures u.Some? <==> images.Some? && images.value.jpg.Some? && images.value.jpg.value.imageUrl.Some?
    ensures u.Some? ==> u == images.value.jpg.value.imageUrl
  {
    match images
    case None => None
    case Some(im) => match im.jpg { case None => None case Some(jpg) => jpg.imageUrl }
  }

  /**
   * `_map_catalog_item`: the title falls back to "Unknown title", the genre
   * is never empty, episodes fall back to 0, the score is normalised, and
   * the other fields pass through. An empty `aired.from` gives no date; the
   * ISO parsing of a non-empty one is not modelled, so its text is kept.
   */
  function MapCatalogItem(d: RawItem): (c: CatalogItem)
    ensures c.malId == d.malId
    ensures c.title != "" && (d.title.Some? && d.title.value != "" ==> c.title == d.title.value)
    ensures (d.title.None? || d.title.value == "") ==> c.title == "Unknown title"
    ensures c.genre == GenreText(d.genres)
    ensures d.episodes.None? ==> c.episodes == 0
    ensures d.episodes.Some? ==> c.episodes == d.episodes.value
    ensures c.externalScore == NormalizeScore(d.score)
    ensures c.members == d.members && c.externalStatus == d.status && c.synopsis == d.synopsis && c.url == d.url
    ensures c.imageUrl == ImageUrl(d.images)
    ensures c.airedFrom.Some? <==> d.airedFrom.Some? && d.airedFrom.value != ""
  {
    CatalogItem(
      malId := d.malId,
      title := if d.title.Some? && d.title.value != "" then d.title.value else "Unknown title",
      genre := GenreText(d.genres),
      episodes := if d.episodes.Some? then d.episodes.value else 0,
      externalScore := NormalizeScore(d.score),
      members := d.members,
      externalStatus := d.status,
      imageUrl := ImageUrl(d.images),
      synopsis := d.synopsis,
      airedFrom := if d.airedFrom.Some? && d.airedFrom.value != "" then d.airedFrom else None,
      url := d.url)
  }

  /** The detail fields of an entry; `fetch_anime` builds the same nine fields inline. */
  function DetailOf(c: CatalogItem): Detail {
    Detail(c.malId, c.title, c.genre, c.episodes, c.externalScore, c.members, c.externalStatus, c.imageUrl, c.synopsis)
  }

  function MapAll(xs: seq<RawItem>): (cs: seq<CatalogItem>)
    ensures |cs| == |xs| && forall k :: 0 <= k < |xs| ==> cs[k] == MapCatalogItem(xs[k])
  {
    seq(|xs|, k requires 0 <= k < |xs| => MapCatalogItem(xs[k]))
  }

  /** `fetch_anime` on a reply: "not found" when `data` is missing or empty. */
  function DetailFrom(p: Payload): (r: Result<Detail, ClientError>)
    ensures r == Err(NotFound) <==> p.data.NoData? || p.data.EmptyObject? || p.data == Items([])
    ensures p.data.Object? ==> r == Ok(DetailOf(MapCatalogItem(p.data.item)))
    ensures r.Err? ==> r.error == NotFound || r.error == MalformedPayload
  {
    match p.data
    case NoData => Err(NotFound)
    case EmptyObject => Err(NotFound)
    case Object(item) => Ok(DetailOf(MapCatalogItem(item)))
    case Items(xs) => if xs == [] then Err(NotFound) else Err(MalformedPayload)
  }

  /** The listing methods on a reply: the mapped `data or []`. */
  function ListingFrom(p: Payload): (r: Result<seq<CatalogItem>, ClientError>)
    ensures p.data.Items? ==> r == Ok(MapAll(p.data.items))
    ensures p.data.NoData? || p.data.EmptyObject? ==> r == Ok([])
    ensures r.Err? <==> p.data.Object?
  {
    match p.data
    case NoData => Ok([])
    case EmptyObject => Ok([])
    case Items(xs) => Ok(MapAll(xs))
    case Object(_) => Err(MalformedPayload)
  }

  /** `(payload.get("pagination") or {}).get("has_next_page", False)` */
  predicate HasNextPage(p: Payload) {
    p.hasNextPage == Some(true)
  }

  // ---------------------------------------------------------------------
  // Retry and backoff

  /** 429 and every 5xx status are retried; any other status of 400 or more is not. */
  predicate Retryable(status: int) {
    status == 429 || 500 <= status < 600
  }

  function Pow2(n: nat): (p: nat)
    ensures p >= 1
  {
    if n == 0 then 1 else 2 * Pow2(n - 1)
  }

  function RealMax(a: real, b: real): real { if a >= b then a else b }

  /** `backoff_seconds * 2 ** (attempt - 1)` */
  function Backoff(backoff: real, attempt: nat): real
    requires attempt >= 1
  {
    backoff * (Pow2(attempt - 1) as real)
  }

  /**
   * The sleep after failed attempt number `attempt`: a numeric `Retry-After`
   * header, otherwise `backoff * 2^(attempt - 1)`; never negative.
   */
  function WaitSeconds(retryAfter: Option<string>, attempt: nat, backoff: real): (w: real)
    requires attempt >= 1
    ensures w >= 0.0
    ensures retryAfter.Some? && Strings.IsDigits(retryAfter.value) ==> w == Strings.ParseNat(retryAfter.value) as real
    ensures !(retryAfter.Some? && Strings.IsDigits(retryAfter.value)) ==> w == RealMax(0.0, Backoff(backoff, attempt))
  {
    if retryAfter.Some? && Strings.IsDigits(retryAfter.value) then Strings.ParseNat(retryAfter.value) as real
    else RealMax(0.0, Backoff(backoff, attempt))
  }

  /** Without a usable `Retry-After`, each wait is twice the one before. */
  lemma BackoffDoubles(backoff: real, attempt: nat)
    requires attempt >= 1 && backoff >= 0.0
    ensures WaitSeconds(None, attempt + 1, backoff) == 2.0 * WaitSeconds(None, attempt, backoff)
  {
    assert Pow2(attempt) == 2 * Pow2(attempt - 1);
  }

  /** The outcome of `_get_with_retry`: its result, the number of requests sent, and the sleeps between them. */
  datatype RetryOutcome = RetryOutcome(result: Result<Payload, ClientError>, requests: nat, waits: seq<real>)

  /**
   * `_get_with_retry` from `attempt` requests made so far, answered by
   * `script` (an exhausted script fails like the transport). The first reply
   * below 400 is the result; a non-retryable status, or one past
   * `maxRetries` attempts, is the error; every retried reply was a 429 or 5xx.
   */
  function RetryRun(script: seq<Response>, attempt: nat, maxRetries: int, backoff: real): (r: RetryOutcome)
    ensures 1 <= r.requests <= |script| + 1
    ensures attempt + r.requests <= Seqs.Max(attempt + 1, maxRetries + 1)
    ensures |r.waits| == r.requests - 1
    decreases |script|
  {
    if script == [] then RetryOutcome(Err(TransportError), 1, [])
    else
      var response := script[0];
      var n := attempt + 1;
      if response.TransportFailure? then RetryOutcome(Err(TransportError), 1, [])
      else if response.status < 400 then RetryOutcome(Ok(response.payload), 1, [])
      else if !Retryable(response.status) || n > maxRetries then RetryOutcome(Err(StatusError(response.status)), 1, [])
      else
        var next := RetryRun(script[1..], n, maxRetries, backoff);
        RetryOutcome(next.result, next.requests + 1, [WaitSeconds(response.retryAfter, n, backoff)] + next.waits)
  }

  /**
   * What `RetryRun` means: every request but the last got a 429 or 5xx and
   * was followed by the wait `WaitSeconds` prescribes; the last request's
   * reply decides the result: below 400 it is the body, otherwise the
   * status error, which then was not retryable or came after `maxRetries`
   * attempts; a transport failure, or an exhausted script, is a transport error.
   */
  lemma RetryRunSpec(script: seq<Response>, attempt: nat, maxRetries: int, backoff: real)
    ensures var r := RetryRun(script, attempt, maxRetries, backoff);
      (forall k :: 0 <= k < r.requests - 1 ==>
        script[k].Reply? && Retryable(script[k].status)
        && r.waits[k] == WaitSeconds(script[k].retryAfter, attempt + k + 1, backoff))
      && (r.requests == |script| + 1 ==> r.result == Err(TransportError))
      && (r.requests <= |script| ==> var last := script[r.requests - 1];
        (last.TransportFailure? ==> r.result == Err(TransportError))
        && (last.Reply? && last.status < 400 ==> r.result == Ok(last.payload))
        && (last.Reply? && last.status >= 400 ==> r.result == Err(StatusError(last.status))
                                                  && (!Retryable(last.status) || attempt + r.requests > maxRetries)))
  {
    RetryRunRetried(script, attempt, maxRetries, backoff);
    RetryRunLast(script, attempt, maxRetries, backoff);
  }

  /** Every request but the last got a 429 or 5xx and was followed by the prescribed wait. */
  lemma {:induction false} RetryRunRetried(script: seq<Response>, attempt: nat, maxRetries: int, backoff: real)
    ensures var r := RetryRun(script, attempt, maxRetries, backoff);
      forall k :: 0 <= k < r.requests - 1 ==>
        script[k].Reply? && Retryable(script[k].status)
        && r.waits[k] == WaitSeconds(script[k].retryAfter, attempt + k + 1, backoff)
    decreases |script|
  {
    if script != [] && script[0].Reply? && script[0].status >= 400 && Retryable(script[0].status) && attempt + 1 <= maxRetries {
      RetryRunRetried(script[1..], attempt + 1, maxRetries, backoff);
      var next := RetryRun(script[1..], attempt + 1, maxRetries, backoff);
      var r := RetryRun(script, attempt, maxRetries, backoff);
      assert r.requests == next.requests + 1 && r.waits == [WaitSeconds(script[0].retryAfter, attempt + 1, backoff)] + next.waits;
      forall k | 0 <= k < r.requests - 1
        ensures script[k].Reply? && Retryable(script[k].status)
        ensures r.waits[k] == WaitSeconds(script[k].retryAfter, attempt + k + 1, backoff)
      {
        if k > 0 {
          assert script[k] == script[1..][k - 1] && r.waits[k] == next.waits[k - 1];
        }
      }
    }
  }

  /** The last request's reply, or the exhausted script, decides the result. */
  lemma {:induction false} RetryRunLast(script: seq<Response>, attempt: nat, maxRetries: int, backoff: real)
    ensures var r := RetryRun(script, attempt, maxRetries, backoff);
      && (r.requests == |script| + 1 ==> r.result == Err(TransportError))
      && (r.requests <= |script| ==> var last := script[r.requests - 1];
        (last.TransportFailure? ==> r.result == Err(TransportError))
        && (last.Reply? && last.status < 400 ==> r.result == Ok(last.payload))
        && (last.Reply? && last.status >= 400 ==> r.result == Err(StatusError(last.status))
                                                  && (!Retryable(last.status) || attempt + r.requests > maxRetries)))
    decreases |script|
  {
    if script != [] && script[0].Reply? && script[0].status >= 400 && Retryable(script[0].status) && attempt + 1 <= maxRetries {
      RetryRunLast(script[1..], attempt + 1, maxRetries, backoff);
      var next := RetryRun(script[1..], attempt + 1, maxRetries, backoff);
      var r := RetryRun(script, attempt, maxRetries, backoff);
      assert r.requests == next.requests + 1 && r.result == next.result;
      if r.requests <= |script| {
        assert script[r.requests - 1] == script[1..][next.requests - 1];
      }
    }
  }

  /** The reply the next request gets from `script`: its head, or a transport failure once it is exhausted. */
  function NextReply(script: seq<Response>): (r: Response)
    ensures script == [] ==> r.TransportFailure?
    ensures script != [] ==> r == script[0]
  {
    if script == [] then TransportFailure else script[0]
  }

  /** Whether `_get_with_retry` stops at `response`, the reply to request number `n`. */
  predicate StopsAt(response: Response, n: nat, maxRetries: int) {
    response.TransportFailure? || response.status < 400 || !Retryable(response.status) || n > maxRetries
  }

  /** What `_get_with_retry` gives when it stops at `response`: the body below 400, otherwise the error. */
  function StopResult(response: Response): (r: Result<Payload, ClientError>)
    ensures response.TransportFailure? ==> r == Err(TransportError)
    ensures response.Reply? && response.status < 400 ==> r == Ok(response.payload)
    ensures response.Reply? && response.status >= 400 ==> r == Err(StatusError(response.status))
  {
    if response.TransportFailure? then Err(TransportError)
    else if response.status < 400 then Ok(response.payload)
    else Err(StatusError(response.status))
  }

  /** One step of `RetryRun`: either it stops at the next reply, or it waits and goes on with the rest of the script. */
  lemma RetryRunStep(script: seq<Response>, attempt: nat, maxRetries: int, backoff: real)
    ensures var r := RetryRun(script, attempt, maxRetries, backoff);
      var response := NextReply(script);
      if StopsAt(response, attempt + 1, maxRetries) then r == RetryOutcome(StopResult(response), 1, [])
      else
        var next := RetryRun(script[1..], attempt + 1, maxRetries, backoff);
        r == RetryOutcome(next.result, next.requests + 1, [WaitSeconds(response.retryAfter, attempt + 1, backoff)] + next.waits)
  {
  }

  /** A 429 answered with `Retry-After: 0` and then a 200 gives the 200's body after exactly two requests. */
  lemma RetriesOnceAfter429(p0: Payload, p: Payload, maxRetries: int, backoff: real)
    requires maxRetries >= 1
    ensures var run := RetryRun([Reply(429, Some("0"), p0), Reply(200, None, p)], 0, maxRetries, backoff);
      run.result == Ok(p) && run.requests == 2 && run.waits == [0.0]
  {
    var script := [Reply(429, Some("0"), p0), Reply(200, None, p)];
    assert script[1..] == [Reply(200, None, p)];
    assert Strings.IsDigits("0");
    assert Strings.ParseNat("0") == 0 by {
      assert "0"[..0] == [];
    }
  }

  /** A status of 400 or more that is neither 429 nor 5xx fails after that single request. */
  lemma NoRetryOnClientError(script: seq<Response>, maxRetries: int, backoff: real)
    requires script != [] && script[0].Reply? && script[0].status >= 400 && !Retryable(script[0].status)
    ensures RetryRun(script, 0, maxRetries, backoff) == RetryOutcome(Err(StatusError(script[0].status)), 1, [])
  {
  }

  /** `_get_with_retry` sends at most `max_retries + 1` requests (one when `max_retries <= 0`). */
  lemma RequestsBounded(script: seq<Response>, maxRetries: int, backoff: real)
    ensures RetryRun(script, 0, maxRetries, backoff).requests <= Seqs.Max(0, maxRetries) + 1
  {
  }

  // ---------------------------------------------------------------------
  // The network as a value, for the specifications of the fetch methods

  /** The upstream's remaining script, the URLs sent so far and the sleeps recorded so far. */
  datatype Net = Net(script: seq<Response>, sent: seq<string>, sleeps: seq<real>)

  function Repeat(url: string, n: nat): (r: seq<string>)
    ensures |r| == n && forall k :: 0 <= k < n ==> r[k] == url
  {
    seq(n, _ => url)
  }

  lemma RepeatOneMore(url: string, n: nat)
    ensures Repeat(url, n) + [url] == Repeat(url, n + 1)
  {
  }

  /** One `_get_with_retry(url)` against the network `n`. */
  function Request(n: Net, url: string, maxRetries: int, backoff: real): (r: (Result<Payload, ClientError>, Net))
    ensures n.sent <= r.1.sent
    ensures 1 <= |r.1.sent| - |n.sent| <= Seqs.Max(0, maxRetries) + 1
    ensures forall k :: |n.sent| <= k < |r.1.sent| ==> r.1.sent[k] == url
  {
    var run := RetryRun(n.script, 0, maxRetries, backoff);
    (run.result, Net(Seqs.Drop(n.script, run.requests), n.sent + Repeat(url, run.requests), n.sleeps + run.waits))
  }

  /** `"{base}/seasons/{year}/{season}?page={page}&sfw=true"` */
  function SeasonUrl(base: string, year: int, season: string, page: int): string {
    base + "/seasons/" + Strings.IntToString(year) + "/" + season + "?page=" + Strings.IntToString(page) + "&sfw=true"
  }

  /** Prefixes the entries gathered so far to the outcome of the pages that follow. */
  function Prepend(items: seq<CatalogItem>, rest: Result<seq<CatalogItem>, ClientError>): Result<seq<CatalogItem>, ClientError> {
    match rest
    case Ok(more) => Ok(items + more)
    case Err(e) => Err(e)
  }

  lemma PrependTwice(a: seq<CatalogItem>, b: seq<CatalogItem>, rest: Result<seq<CatalogItem>, ClientError>)
    ensures Prepend(a, Prepend(b, rest)) == Prepend(a + b, rest)
  {
    if rest.Ok? {
      assert a + (b + rest.value) == (a + b) + rest.value;
    }
  }

  /**
   * The page loop of `fetch_season_catalog` from `page` to `lastPage`: each
   * page's entries are appended; a failure ends it with that failure; a page
   * without `has_next_page` ends it.
   */
  function SeasonPages(n: Net, base: string, year: int, season: string, page: int, lastPage: int,
                       maxRetries: int, backoff: real): (r: (Result<seq<CatalogItem>, ClientError>, Net))
    decreases lastPage - page
  {
    if page > lastPage then (Ok([]), n)
    else
      var step := Request(n, SeasonUrl(base, year, season, page), maxRetries, backoff);
      if step.0.Err? then (Err(step.0.error), step.1)
      else
        var listing := ListingFrom(step.0.value);
        if listing.Err? || !HasNextPage(step.0.value) then (listing, step.1)
        else
          var rest := SeasonPages(step.1, base, year, season, page + 1, lastPage, maxRetries, backoff);
          (Prepend(listing.value, rest.0), rest.1)
  }

  /** One unfolding of the page loop. */
  lemma SeasonPagesStep(n: Net, base: string, year: int, season: string, page: int, lastPage: int,
                        maxRetries: int, backoff: real)
    requires page <= lastPage
    ensures var step := Request(n, SeasonUrl(base, year, season, page), maxRetries, backoff);
      var r := SeasonPages(n, base, year, season, page, lastPage, maxRetries, backoff);
      if step.0.Err? then r == (Err(step.0.error), step.1)
      else if ListingFrom(step.0.value).Err? then r == (Err(ListingFrom(step.0.value).error), step.1)
      else if !HasNextPage(step.0.value) then r == (ListingFrom(step.0.value), step.1)
      else
        var rest := SeasonPages(step.1, base, year, season, page + 1, lastPage, maxRetries, backoff);
        r == (Prepend(ListingFrom(step.0.value).value, rest.0), rest.1)
  {
  }

  /** The most requests `pages` pages can take: `max_retries + 1` each. */
  function PagesBound(pages: int, maxRetries: int): int {
    pages * (Seqs.Max(0, maxRetries) + 1)
  }

  lemma PagesBoundStep(pages: int, maxRetries: int)
    ensures PagesBound(pages + 1, maxRetries) == PagesBound(pages, maxRetries) + Seqs.Max(0, maxRetries) + 1
    ensures pages >= 0 ==> PagesBound(pages, maxRetries) >= 0
  {
  }

  /** The season loop sends at most `max_retries + 1` requests per page, over at most `lastPage - page + 1` pages. */
  lemma {:induction false} SeasonRequestsBounded(n: Net, base: string, year: int, season: string, page: int,
                                                 lastPage: int, maxRetries: int, backoff: real)
    requires page <= lastPage + 1
    ensures var r := SeasonPages(n, base, year, season, page, lastPage, maxRetries, backoff);
      n.sent <= r.1.sent && |r.1.sent| - |n.sent| <= PagesBound(lastPage - page + 1, maxRetries)
    decreases lastPage - page
  {
    PagesBoundStep(lastPage - page, maxRetries);
    if page <= lastPage {
      SeasonPagesStep(n, base, year, season, page, lastPage, maxRetries, backoff);
      var step := Request(n, SeasonUrl(base, year, season, page), maxRetries, backoff);
      var r := SeasonPages(n, base, year, season, page, lastPage, maxRetries, backoff);
      if step.0.Ok? && ListingFrom(step.0.value).Ok? && HasNextPage(step.0.value) {
        SeasonRequestsBounded(step.1, base, year, season, page + 1, lastPage, maxRetries, backoff);
        var rest := SeasonPages(step.1, base, year, season, page + 1, lastPage, maxRetries, backoff);
        assert r.1 == rest.1;
        Seqs.PrefixTrans(n.sent, step.1.sent, rest.1.sent);
      } else {
        assert r.1 == step.1;
      }
    }
  }

  // The cache-first pattern shared by the fetch methods, in three parts.

  /** A hit answers with the cached value: nothing is sent, slept or stored. */
  ghost predicate ServedFromCache<V>(before: map<string, Cache.Entry<V>>, after: map<string, Cache.Entry<V>>,
                                     key: string, now: real, net0: Net, net1: Net, r: Result<V, ClientError>)
  {
    var hit := Cache.Lookup(before, key, now);
    hit.Some? ==> r == Ok(hit.value) && net1 == net0 && after == before
  }

  /** A miss answers, and moves the network, as the uncached fetch `miss` does. */
  ghost predicate FetchedOnMiss<V>(before: map<string, Cache.Entry<V>>, key: string, now: real, net1: Net,
                                   r: Result<V, ClientError>, miss: (Result<V, ClientError>, Net))
  {
    Cache.Lookup(before, key, now).None? ==> (r, net1) == miss
  }

  /** A miss stores a successful result under the same key for `ttl` seconds, and a failure stores nothing. */
  ghost predicate StoredOnMiss<V>(before: map<string, Cache.Entry<V>>, after: map<string, Cache.Entry<V>>,
                                  key: string, now: real, ttl: int, r: Result<V, ClientError>)
  {
    Cache.Lookup(before, key, now).None? ==>
      after == if r.Ok? then before[key := Cache.Entry(now + ttl as real, r.value)] else Cache.AfterLookup(before, key, now)
  }

  /** `season.lower().strip()` */
  function NormalizedSeason(season: string): string {
    Strings.Strip(Strings.Lower(season))
  }

  /** `rstrip("/")` */
  function StripTrailingSlashes(s: string): (r: string)
    ensures r <= s && (r == [] || r[|r| - 1] != '/')
  {
    if s != [] && s[|s| - 1] == '/' then StripTrailingSlashes(s[..|s| - 1]) else s
  }

  // ---------------------------------------------------------------------
  // The objects

  /** The HTTP upstream: answers each GET with the next scripted response and logs the URL. */
  class Upstream {
    var script: seq<Response>
    var sent: seq<string>

    constructor (script: seq<Response>)
      ensures this.script == script && sent == []
    {
      this.script := script;
      sent := [];
    }

    method Get(url: string) returns (r: Response)
      modifies this
      ensures sent == old(sent) + [url]
      ensures old(script) == [] ==> r == TransportFailure && script == []
      ensures old(script) != [] ==> r == old(script)[0] && script == old(script)[1..]
    {
      sent := sent + [url];
      if script == [] {
        return TransportFailure;
      }
      r := script[0];
      script := script[1..];
    }
  }

  /**
   * `JikanAnimeClient`. The process-wide cache store is split here into the
   * store for detail records and the store for listings; their key families
   * ("external:jikan:anime:", and the listing prefixes) never overlap.
   */
  class JikanClient {
    const baseUrl: string
    const cacheTtl: int
    const maxRetries: int
    const backoffSeconds: real
    const upstream: Upstream
    const itemCache: Cache.CacheStore<Detail>
    const listCache: Cache.CacheStore<seq<CatalogItem>>
    /** Every `time.sleep` argument, in order. */
    var sleeps: seq<real>

    constructor (settings: Config.Settings, upstream: Upstream,
                 itemCache: Cache.CacheStore<Detail>, listCache: Cache.CacheStore<seq<CatalogItem>>)
      ensures baseUrl == StripTrailingSlashes(settings.jikanBaseUrl)
      ensures cacheTtl == settings.externalCacheTtlSeconds
      ensures maxRetries == settings.externalApiMaxRetries
      ensures backoffSeconds == settings.externalApiBackoffSeconds
      ensures this.upstream == upstream && this.itemCache == itemCache && this.listCache == listCache
      ensures sleeps == []
    {
      baseUrl := StripTrailingSlashes(settings.jikanBaseUrl);
      cacheTtl := settings.externalCacheTtlSeconds;
      maxRetries := settings.externalApiMaxRetries;
      backoffSeconds := settings.externalApiBackoffSeconds;
      this.upstream := upstream;
      this.itemCache := itemCache;
      this.listCache := listCache;
      sleeps := [];
    }

    function NetOf(): Net
      reads this, upstream
    {
      Net(upstream.script, upstream.sent, sleeps)
    }

    /** `_get_with_retry(url)`: the loop with its `attempt` counter. */
    method GetWithRetry(url: string) returns (r: Result<Payload, ClientError>)
      modifies this, upstream
      ensures (r, NetOf()) == Request(old(NetOf()), url, maxRetries, backoffSeconds)
    {
      ghost var n0 := NetOf();
      ghost var run0 := RetryRun(n0.script, 0, maxRetries, backoffSeconds);
      ghost var waited: seq<real> := [];
      var attempt: nat := 0;
      while true
        invariant attempt <= |n0.script|
        invariant upstream.script == n0.script[attempt..]
        invariant upstream.sent == n0.sent + Repeat(url, attempt)
        invariant sleeps == n0.sleeps + waited
        invariant var rest := RetryRun(upstream.script, attempt, maxRetries, backoffSeconds);
          run0.result == rest.result && run0.requests == attempt + rest.requests && run0.waits == waited + rest.waits
        decreases |upstream.script|
      {
        ghost var before := upstream.script;
        RetryRunStep(before, attempt, maxRetries, backoffSeconds);
        RepeatOneMore(url, attempt);
        Seqs.AppendAssoc(n0.sent, Repeat(url, attempt), [url]);
        var response := upstream.Get(url);
        attempt := attempt + 1;
        if StopsAt(response, attempt, maxRetries) {
          r := StopResult(response);
          assert run0.result == r && run0.requests == attempt;
          assert run0.waits == waited + [] == waited;
          assert upstream.script == Seqs.Drop(n0.script, attempt) by {
            if before != [] {
              assert n0.script[attempt..] == before[1..];
            }
          }
          assert NetOf() == Net(Seqs.Drop(n0.script, run0.requests), n0.sent + Repeat(url, run0.requests), n0.sleeps + run0.waits);
          return;
        }
        assert n0.script[attempt..] == before[1..];
        var wait := WaitSeconds(response.retryAfter, attempt, backoffSeconds);
        ghost var next := RetryRun(upstream.script, attempt, maxRetries, backoffSeconds);
        Seqs.AppendAssoc(waited, [wait], next.waits);
        Seqs.AppendAssoc(n0.sleeps, waited, [wait]);
        sleeps := sleeps + [wait];
        waited := waited + [wait];
      }
    }

    /** The cache-first GET shared by every listing method. */
    method FetchListing(key: string, url: string, now: real) returns (r: Result<seq<CatalogItem>, ClientError>)
      modifies this, upstream, listCache
      ensures ServedFromCache(old(listCache.data), listCache.data, key, now, old(NetOf()), NetOf(), r)
      ensures FetchedOnMiss(old(listCache.data), key, now, NetOf(), r, ListingMiss(old(NetOf()), url))
      ensures StoredOnMiss(old(listCache.data), listCache.data, key, now, cacheTtl, r)
    {
      var cached := listCache.Get(key, now);
      if cached.Some? {
        return Ok(cached.value);
      }
      var payload := GetWithRetry(url);
      if payload.Err? {
        return Err(payload.error);
      }
      r := ListingFrom(payload.value);
      if r.Ok? {
        listCache.Set(key, r.value, cacheTtl, now);
      }
    }

    function ListingMiss(n: Net, url: string): (Result<seq<CatalogItem>, ClientError>, Net)
      reads this
    {
      var (res, n1) := Request(n, url, maxRetries, backoffSeconds);
      (if res.Ok? then ListingFrom(res.value) else Err(res.error), n1)
    }

    /** `fetch_anime(mal_id)`: key "external:jikan:anime:{id}", URL "/anime/{id}/full". */
    method FetchAnime(malId: int, now: real) returns (r: Result<Detail, ClientError>)
      modifies this, upstream, itemCache
      ensures ServedFromCache(old(itemCache.data), itemCache.data, AnimeKey(malId), now, old(NetOf()), NetOf(), r)
      ensures FetchedOnMiss(old(itemCache.data), AnimeKey(malId), now, NetOf(), r, DetailMiss(old(NetOf()), AnimeUrl(malId)))
      ensures StoredOnMiss(old(itemCache.data), itemCache.data, AnimeKey(malId), now, cacheTtl, r)
    {
      var key := AnimeKey(malId);
      var cached := itemCache.Get(key, now);
      if cached.Some? {
        return Ok(cached.value);
      }
      var payload := GetWithRetry(AnimeUrl(malId));
      if payload.Err? {
        return Err(payload.error);
      }
      r := DetailFrom(payload.value);
      if r.Ok? {
        itemCache.Set(key, r.value, cacheTtl, now);
      }
    }

    function AnimeUrl(malId: int): string
      reads this
    {
      baseUrl + "/anime/" + Strings.IntToString(malId) + "/full"
    }

    function DetailMiss(n: Net, url: string): (Result<Detail, ClientError>, Net)
      reads this
    {
      var (res, n1) := Request(n, url, maxRetries, backoffSeconds);
      (if res.Ok? then DetailFrom(res.value) else Err(res.error), n1)
    }

    /** `"{base}{path}?limit={clamp(limit, 1, 50)}&sfw=true"`: the URL clamps the limit, the key does not. */
    function ListingUrl(path: string, limit: int): string
      reads this
    {
      baseUrl + path + "?limit=" + Strings.IntToString(Seqs.Clamp(limit, 1, 50)) + "&sfw=true"
    }

    /** `fetch_top_anime(limit)` */
    method FetchTop(limit: int, now: real) returns (r: Result<seq<CatalogItem>, ClientError>)
      modifies this, upstream, listCache
      ensures ServedFromCache(old(listCache.data), listCache.data, ListingKey("top", limit), now, old(NetOf()), NetOf(), r)
      ensures FetchedOnMiss(old(listCache.data), ListingKey("top", limit), now, NetOf(), r,
                            ListingMiss(old(NetOf()), ListingUrl("/top/anime", limit)))
      ensures StoredOnMiss(old(listCache.data), listCache.data, ListingKey("top", limit), now, cacheTtl, r)
    {
      r := FetchListing(ListingKey("top", limit), ListingUrl("/top/anime", limit), now);
    }

    /** `fetch_current_season(limit)` */
    method FetchCurrentSeason(limit: int, now: real) returns (r: Result<seq<CatalogItem>, ClientError>)
      modifies this, upstream, listCache
      ensures ServedFromCache(old(listCache.data), listCache.data, ListingKey("season-now", limit), now, old(NetOf()), NetOf(), r)
      ensures FetchedOnMiss(old(listCache.data), ListingKey("season-now", limit), now, NetOf(), r,
                            ListingMiss(old(NetOf()), ListingUrl("/seasons/now", limit)))
      ensures StoredOnMiss(old(listCache.data), listCache.data, ListingKey("season-now", limit), now, cacheTtl, r)
    {
      r := FetchListing(ListingKey("season-now", limit), ListingUrl("/seasons/now", limit), now);
    }

    /** `fetch_upcoming(limit)` */
    method FetchUpcoming(limit: int, now: real) returns (r: Result<seq<CatalogItem>, ClientError>)
      modifies this, upstream, listCache
      ensures ServedFromCache(old(listCache.data), listCache.data, ListingKey("upcoming", limit), now, old(NetOf()), NetOf(), r)
      ensures FetchedOnMiss(old(listCache.data), ListingKey("upcoming", limit), now, NetOf(), r,
                            ListingMiss(old(NetOf()), ListingUrl("/seasons/upcoming", limit)))
      ensures StoredOnMiss(old(listCache.data), listCache.data, ListingKey("upcoming", limit), now, cacheTtl, r)
    {
      r := FetchListing(ListingKey("upcoming", limit), ListingUrl("/seasons/upcoming", limit), now);
    }

    /**
     * `fetch_season_catalog(year, season, pages)`: pages clamped to [1, 10];
     * the key holds the season as given, the URLs its lower-cased, stripped form.
     */
    method FetchSeasonCatalog(year: int, season: string, pages: int, now: real) returns (r: Result<seq<CatalogItem>, ClientError>)
      modifies this, upstream, listCache
      ensures ServedFromCache(old(listCache.data), listCache.data, SeasonKey(year, season, pages), now, old(NetOf()), NetOf(), r)
      ensures FetchedOnMiss(old(listCache.data), SeasonKey(year, season, pages), now, NetOf(), r,
                            SeasonMiss(old(NetOf()), year, season, Seqs.Clamp(pages, 1, 10)))
      ensures StoredOnMiss(old(listCache.data), listCache.data, SeasonKey(year, season, pages), now, cacheTtl, r)
    {
      var key := SeasonKey(year, season, pages);
      var cached := listCache.Get(key, now);
      if cached.Some? {
        return Ok(cached.value);
      }
      r := FetchSeasonAndStore(year, season, Seqs.Clamp(pages, 1, 10), key, now);
    }

    /** The miss path of `fetch_season_catalog`: the page loop, then `set` when it succeeds. */
    method FetchSeasonAndStore(year: int, season: string, safePages: int, key: string, now: real)
      returns (r: Result<seq<CatalogItem>, ClientError>)
      modifies this, upstream, listCache
      ensures (r, NetOf()) == SeasonMiss(old(NetOf()), year, season, safePages)
      ensures listCache.data == if r.Ok? then old(listCache.data)[key := Cache.Entry(now + cacheTtl as real, r.value)]
                                else old(listCache.data)
    {
      r := FetchSeasonPages(year, season, safePages);
      if r.Ok? {
        listCache.Set(key, r.value, cacheTtl, now);
      }
    }

    /** The page loop of `fetch_season_catalog`, extending `items` until a page has no successor. */
    method FetchSeasonPages(year: int, season: string, safePages: int) returns (r: Result<seq<CatalogItem>, ClientError>)
      modifies this, upstream
      ensures (r, NetOf()) == SeasonMiss(old(NetOf()), year, season, safePages)
    {
      var normalized := NormalizedSeason(season);
      ghost var whole := SeasonPages(NetOf(), baseUrl, year, normalized, 1, safePages, maxRetries, backoffSeconds);
      var items: seq<CatalogItem> := [];
      var page := 1;
      assert Prepend(items, whole.0) == whole.0 by {
        if whole.0.Ok? { assert [] + whole.0.value == whole.0.value; }
      }
      while page <= safePages
        invariant 1 <= page
        invariant var rest := SeasonPages(NetOf(), baseUrl, year, normalized, page, safePages, maxRetries, backoffSeconds);
          whole == (Prepend(items, rest.0), rest.1)
        decreases safePages - page
      {
        ghost var net := NetOf();
        var payload := GetWithRetry(SeasonUrl(baseUrl, year, normalized, page));
        SeasonPagesStep(net, baseUrl, year, normalized, page, safePages, maxRetries, backoffSeconds);
        if payload.Err? {
          return Err(payload.error);
        }
        var pageItems := ListingFrom(payload.value);
        if pageItems.Err? {
          return Err(pageItems.error);
        }
        ghost var rest := SeasonPages(NetOf(), baseUrl, year, normalized, page + 1, safePages, maxRetries, backoffSeconds);
        PrependTwice(items, pageItems.value, rest.0);
        items := items + pageItems.value;
        if !HasNextPage(payload.value) {
          return Ok(items);
        }
        page := page + 1;
      }
      assert items + [] == items;
      return Ok(items);
    }

    /** The miss path of `fetch_season_catalog`: the page loop from page 1 to `safePages`. */
    function SeasonMiss(n: Net, year: int, season: string, safePages: int): (Result<seq<CatalogItem>, ClientError>, Net)
      reads this
    {
      SeasonPages(n, baseUrl, year, NormalizedSeason(season), 1, safePages, maxRetries, backoffSeconds)
    }

    function SeasonKey(year: int, season: string, pages: int): string {
      "external:jikan:season:" + Strings.IntToString(year) + ":" + season + ":" + Strings.IntToString(Seqs.Clamp(pages, 1, 10))
    }
  }

  /** `"external:jikan:{kind}:{limit}"` with the limit as given. */
  function ListingKey(kind: string, limit: int): string {
    "external:jikan:" + kind + ":" + Strings.IntToString(limit)
  }

  function AnimeKey(malId: int): string {
    "external:jikan:anime:" + Strings.IntToString(malId)
  }
}
