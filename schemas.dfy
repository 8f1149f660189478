/**
 * Request payloads and the field constraints the API validates before any
 * service code runs (app/schemas.py): enumerations and numeric ranges.
 */
module Schemas {
  import opened Wrappers
  import Models

  /** `UserAnimeStatus = Literal["watching", "completed", "dropped", "on_hold", "planned"]` */
  datatype TrackingStatus = Watching | Completed | Dropped | OnHold | Planned {
    function Text(): string {
      match this
      case Watching => "watching"
      case Completed => "completed"
      case Dropped => "dropped"
      case OnHold => "on_hold"
      case Planned => "planned"
    }
  }

  predicate IsTrackingStatus(s: string) {
    s == "watching" || s == "completed" || s == "dropped" || s == "on_hold" || s == "planned"
  }

  /** Validation of a status string: accepted exactly when it is one of the five literals. */
  function ParseTrackingStatus(s: string): (r: Option<TrackingStatus>)
    ensures r.Some? <==> IsTrackingStatus(s)
    ensures r.Some? ==> r.value.Text() == s
  {
    if s == "watching" then Some(Watching)
    else if s == "completed" then Some(Completed)
    else if s == "dropped" then Some(Dropped)
    else if s == "on_hold" then Some(OnHold)
    else if s == "planned" then Some(Planned)
    else None
  }

  /** Every status written out is accepted back as the same status. */
  lemma ParseTrackingStatusText(t: TrackingStatus)
    ensures ParseTrackingStatus(t.Text()) == Some(t)
  {
  }

  /** `UserRole = Literal["admin", "user"]` */
  datatype UserRole = Admin | RegularUser {
    function Text(): string {
      match this
      case Admin => "admin"
      case RegularUser => "user"
    }
  }

  function ParseUserRole(s: string): (r: Option<UserRole>)
    ensures r.Some? <==> (s == "admin" || s == "user")
    ensures r.Some? ==> r.value.Text() == s
  {
    if s == "admin" then Some(Admin) else if s == "user" then Some(RegularUser) else None
  }

  /** `Field(ge=0, le=10)` on an optional score. */
  predicate ScoreInRange(score: Option<int>) {
    score.None? || 0 <= score.value <= 10
  }

  datatype UserAnimeCreate = UserAnimeCreate(
    userId: int,
    animeId: int,
    status: string,
    score: Option<int>,
    episodesWatched: int,
    startDate: Option<Models.Date>,
    finishDate: Option<Models.Date>)

  /** A create payload passes validation: a known status, score in [0,10] or absent, progress >= 0. */
  predicate ValidUserAnimeCreate(p: UserAnimeCreate) {
    IsTrackingStatus(p.status) && ScoreInRange(p.score) && p.episodesWatched >= 0
  }

  /** A create payload with only the required fields: no score, no dates, progress 0. */
  function DefaultUserAnimeCreate(userId: int, animeId: int, status: TrackingStatus): (p: UserAnimeCreate)
    ensures ValidUserAnimeCreate(p)
    ensures p.episodesWatched == 0 && p.score.None? && p.startDate.None? && p.finishDate.None?
    ensures p.userId == userId && p.animeId == animeId && p.status == status.Text()
  {
    UserAnimeCreate(userId, animeId, status.Text(), None, 0, None, None)
  }

  /** Every field optional; `episodes_watched >= 0`, `episodes_increment >= 1`. */
  datatype UserAnimeUpdate = UserAnimeUpdate(
    status: Option<string>,
    score: Option<int>,
    episodesWatched: Option<int>,
    episodesIncrement: Option<int>,
    startDate: Option<Models.Date>,
    finishDate: Option<Models.Date>)

  predicate ValidUserAnimeUpdate(p: UserAnimeUpdate) {
    && (p.status.Some? ==> IsTrackingStatus(p.status.value))
    && ScoreInRange(p.score)
    && (p.episodesWatched.Some? ==> p.episodesWatched.value >= 0)
    && (p.episodesIncrement.Some? ==> p.episodesIncrement.value >= 1)
  }

  /** The empty update (every field omitted) is a valid payload. */
  function EmptyUserAnimeUpdate(): (p: UserAnimeUpdate)
    ensures ValidUserAnimeUpdate(p)
    ensures p.status.None? && p.score.None? && p.episodesWatched.None? && p.episodesIncrement.None?
    ensures p.startDate.None? && p.finishDate.None?
  {
    UserAnimeUpdate(None, None, None, None, None, None)
  }

  /** A review's score is required and lies in [0,10]. */
  datatype ReviewCreate = ReviewCreate(userId: int, animeId: int, score: int, content: string)

  predicate ValidReviewCreate(p: ReviewCreate) {
    0 <= p.score <= 10
  }

  datatype CommentCreate = CommentCreate(userId: int, content: string)
}
