/**
 * The persisted entities (app/models.py) and the database as one value:
 * every table is a sequence of rows in insertion order, which is also the
 * order in which the model iterates query results.
 */
module Models {
  import opened Wrappers
  import Seqs

  /** A `DateTime` column; the model only compares timestamps. */
  type Timestamp = int
  /** A `Date` column. */
  type Date = int

  /**
   * A catalogue title. `genre` is the comma-separated genre string; the
   * empty string stands for a NULL genre (every use of the column tests its
   * truthiness, for which the two coincide).
   */
  datatype Anime = Anime(
    id: int,
    title: string,
    genre: string,
    episodes: Option<int>,
    malId: Option<int>,
    externalScore: Option<int>,
    members: Option<int>,
    externalStatus: Option<string>,
    imageUrl: Option<string>,
    synopsis: Option<string>,
    lastSyncedAt: Option<Timestamp>)

  datatype User = User(
    id: int,
    username: string,
    email: string,
    hashedPassword: string,
    isActive: bool,
    role: string)

  /** One user's tracking entry for one title. */
  datatype UserAnime = UserAnime(
    id: int,
    userId: int,
    animeId: int,
    status: string,
    score: Option<int>,
    episodesWatched: int,
    startDate: Option<Date>,
    finishDate: Option<Date>,
    createdAt: Timestamp)

  datatype Review = Review(id: int, userId: int, animeId: int, score: int, content: string, createdAt: Timestamp)

  datatype Comment = Comment(id: int, reviewId: int, userId: int, content: string, createdAt: Timestamp)

  datatype Follow = Follow(id: int, followerId: int, followingId: int, createdAt: Timestamp)

  datatype Activity = Activity(
    id: int,
    userId: int,
    activityType: string,
    targetType: string,
    targetId: int,
    message: string,
    createdAt: Timestamp)

  /** The database: one sequence of rows per table. */
  datatype Db = Db(
    animes: seq<Anime>,
    users: seq<User>,
    userAnimes: seq<UserAnime>,
    reviews: seq<Review>,
    comments: seq<Comment>,
    follows: seq<Follow>,
    activities: seq<Activity>)

  /** How a commit ends: stored, or refused with IntegrityError or OperationalError (and rolled back). */
  datatype Commit = Committed | IntegrityFailure | OperationalFailure

  // ---------------------------------------------------------------------
  // Column defaults

  /** A user row as created without explicit role or activity flag: role "user", active. */
  function NewUser(id: int, username: string, email: string, hashedPassword: string): (u: User)
    ensures u.role == "user" && u.isActive
    ensures u.id == id && u.username == username && u.email == email && u.hashedPassword == hashedPassword
  {
    User(id, username, email, hashedPassword, true, "user")
  }

  /** A tracking entry as created without explicit progress: `episodes_watched` is 0. */
  function NewUserAnime(id: int, userId: int, animeId: int, status: string, createdAt: Timestamp): (e: UserAnime)
    ensures e.episodesWatched == 0 && e.score == None && e.startDate == None && e.finishDate == None
    ensures e.id == id && e.userId == userId && e.animeId == animeId && e.status == status
  {
    UserAnime(id, userId, animeId, status, None, 0, None, None, createdAt)
  }

  // ---------------------------------------------------------------------
  // Primary-key lookups (`query(...).filter(X.id == id).first()`)

  function FindAnime(animes: seq<Anime>, id: int): (r: Option<Anime>)
    ensures r.Some? <==> exists k :: 0 <= k < |animes| && animes[k].id == id
    ensures r.Some? ==> r.value in animes && r.value.id == id
  {
    if animes == [] then None
    else if animes[0].id == id then Some(animes[0])
    else FindAnime(animes[1..], id)
  }

  function FindUser(users: seq<User>, id: int): (r: Option<User>)
    ensures r.Some? <==> exists k :: 0 <= k < |users| && users[k].id == id
    ensures r.Some? ==> r.value in users && r.value.id == id
  {
    if users == [] then None
    else if users[0].id == id then Some(users[0])
    else FindUser(users[1..], id)
  }

  function FindReview(reviews: seq<Review>, id: int): (r: Option<Review>)
    ensures r.Some? <==> exists k :: 0 <= k < |reviews| && reviews[k].id == id
    ensures r.Some? ==> r.value in reviews && r.value.id == id
  {
    if reviews == [] then None
    else if reviews[0].id == id then Some(reviews[0])
    else FindReview(reviews[1..], id)
  }

  /** `query(Anime).filter(Anime.mal_id == m).first()` under table order. */
  function IndexOfMalId(animes: seq<Anime>, m: int): (r: Option<nat>)
    ensures r.Some? ==> r.value < |animes| && animes[r.value].malId == Some(m)
    ensures r.Some? ==> forall k :: 0 <= k < r.value ==> animes[k].malId != Some(m)
    ensures r.None? ==> forall k :: 0 <= k < |animes| ==> animes[k].malId != Some(m)
  {
    if animes == [] then None
    else if animes[0].malId == Some(m) then Some(0)
    else match IndexOfMalId(animes[1..], m)
      case None => None
      case Some(k) => Some(k + 1)
  }

  /** The lookup by `mal_id` sees only the `mal_id` column, and rows appended without that id do not change it. */
  lemma {:induction false} IndexOfMalIdSame(a: seq<Anime>, b: seq<Anime>, m: int)
    requires |a| <= |b|
    requires forall k :: 0 <= k < |a| ==> a[k].malId == b[k].malId
    requires forall k :: |a| <= k < |b| ==> b[k].malId != Some(m)
    ensures IndexOfMalId(a, m) == IndexOfMalId(b, m)
  {
    if a == [] {
      if b != [] {
        IndexOfMalIdSame(a, b[1..], m);
      }
    } else if a[0].malId != Some(m) {
      IndexOfMalIdSame(a[1..], b[1..], m);
    }
  }

  /** Index of the tracking entry with primary key `id`. */
  function IndexOfEntry(entries: seq<UserAnime>, id: int): (r: Option<nat>)
    ensures r.Some? ==> r.value < |entries| && entries[r.value].id == id
    ensures r.Some? ==> forall k :: 0 <= k < r.value ==> entries[k].id != id
    ensures r.None? ==> forall k :: 0 <= k < |entries| ==> entries[k].id != id
  {
    if entries == [] then None
    else if entries[0].id == id then Some(0)
    else match IndexOfEntry(entries[1..], id)
      case None => None
      case Some(k) => Some(k + 1)
  }

  /** A primary key not used by any row: one more than the largest. */
  function NextId(ids: seq<int>): (r: int)
    ensures r >= 1
    ensures forall k :: 0 <= k < |ids| ==> ids[k] < r
  {
    if ids == [] then 1 else Seqs.Max(ids[0] + 1, NextId(ids[1..]))
  }

  function AnimeIdList(animes: seq<Anime>): (r: seq<int>)
    ensures |r| == |animes| && forall k :: 0 <= k < |animes| ==> r[k] == animes[k].id
  {
    seq(|animes|, k requires 0 <= k < |animes| => animes[k].id)
  }

  function EntryIdList(entries: seq<UserAnime>): (r: seq<int>)
    ensures |r| == |entries| && forall k :: 0 <= k < |entries| ==> r[k] == entries[k].id
  {
    seq(|entries|, k requires 0 <= k < |entries| => entries[k].id)
  }

  function ReviewIdList(reviews: seq<Review>): (r: seq<int>)
    ensures |r| == |reviews| && forall k :: 0 <= k < |reviews| ==> r[k] == reviews[k].id
  {
    seq(|reviews|, k requires 0 <= k < |reviews| => reviews[k].id)
  }

  function CommentIdList(comments: seq<Comment>): (r: seq<int>)
    ensures |r| == |comments| && forall k :: 0 <= k < |comments| ==> r[k] == comments[k].id
  {
    seq(|comments|, k requires 0 <= k < |comments| => comments[k].id)
  }

  function FollowIdList(follows: seq<Follow>): (r: seq<int>)
    ensures |r| == |follows| && forall k :: 0 <= k < |follows| ==> r[k] == follows[k].id
  {
    seq(|follows|, k requires 0 <= k < |follows| => follows[k].id)
  }

  // ---------------------------------------------------------------------
  // Constraints declared on the tables

  function AnimeIds(db: Db): set<int> { set a | a in db.animes :: a.id }
  function UserIds(db: Db): set<int> { set u | u in db.users :: u.id }
  function ReviewIds(db: Db): set<int> { set r | r in db.reviews :: r.id }

  /** `mal_id` is nullable but unique among non-null values (models.py:26). */
  ghost predicate MalIdUnique(animes: seq<Anime>) {
    forall i, j :: 0 <= i < j < |animes| && animes[i].malId.Some? ==> animes[i].malId != animes[j].malId
  }

  /** `UniqueConstraint("user_id", "anime_id")` (models.py:54). */
  ghost predicate UserAnimeUnique(entries: seq<UserAnime>) {
    forall i, j :: 0 <= i < j < |entries| ==>
      (entries[i].userId, entries[i].animeId) != (entries[j].userId, entries[j].animeId)
  }

  /** `UniqueConstraint("follower_id", "following_id")` (models.py:104). */
  ghost predicate FollowUnique(follows: seq<Follow>) {
    forall i, j :: 0 <= i < j < |follows| ==>
      (follows[i].followerId, follows[i].followingId) != (follows[j].followerId, follows[j].followingId)
  }

  ghost predicate AnimeKeysUnique(animes: seq<Anime>) {
    forall i, j :: 0 <= i < j < |animes| ==> animes[i].id != animes[j].id
  }

  ghost predicate EntryKeysUnique(entries: seq<UserAnime>) {
    forall i, j :: 0 <= i < j < |entries| ==> entries[i].id != entries[j].id
  }

  /** Foreign keys of every table except `follows` point at existing rows. */
  ghost predicate ForeignKeysExceptFollows(db: Db) {
    && (forall e :: e in db.userAnimes ==> e.userId in UserIds(db) && e.animeId in AnimeIds(db))
    && (forall r :: r in db.reviews ==> r.userId in UserIds(db) && r.animeId in AnimeIds(db))
    && (forall c :: c in db.comments ==> c.reviewId in ReviewIds(db) && c.userId in UserIds(db))
    && (forall a :: a in db.activities ==> a.userId in UserIds(db))
  }

  ghost predicate FollowForeignKeys(db: Db) {
    forall f :: f in db.follows ==> f.followerId in UserIds(db) && f.followingId in UserIds(db)
  }

  /** Every declared constraint of the schema. */
  ghost predicate Valid(db: Db) {
    && AnimeKeysUnique(db.animes)
    && EntryKeysUnique(db.userAnimes)
    && MalIdUnique(db.animes)
    && UserAnimeUnique(db.userAnimes)
    && FollowUnique(db.follows)
    && ForeignKeysExceptFollows(db)
    && FollowForeignKeys(db)
  }

  // ---------------------------------------------------------------------
  // ORM cascades ("all, delete-orphan")

  /**
   * Deleting a review deletes its comments (models.py:85); every other
   * review and comment, and every other table, is kept.
   */
  function DeleteReview(db: Db, reviewId: int): (r: Db)
    ensures forall v :: v in r.reviews <==> v in db.reviews && v.id != reviewId
    ensures forall c :: c in r.comments <==> c in db.comments && c.reviewId != reviewId
    ensures r.animes == db.animes && r.users == db.users && r.userAnimes == db.userAnimes
    ensures r.follows == db.follows && r.activities == db.activities
  {
    var isKept := (v: Review) => v.id != reviewId;
    var isOther := (c: Comment) => c.reviewId != reviewId;
    Seqs.FilterMembers(db.reviews, isKept);
    Seqs.FilterMembers(db.comments, isOther);
    db.(reviews := Seqs.Filter(db.reviews, isKept), comments := Seqs.Filter(db.comments, isOther))
  }

  /** The reviews owned by a deleted row, whose comments go with them. */
  function ReviewIdsWhere(reviews: seq<Review>, p: Review -> bool): set<int> {
    set v | v in reviews && p(v) :: v.id
  }

  /** The keys of the reviews of one title. */
  function ReviewIdsOfAnime(reviews: seq<Review>, animeId: int): set<int> {
    ReviewIdsWhere(reviews, (v: Review) => v.animeId == animeId)
  }

  /** The keys of the reviews of one user. */
  function ReviewIdsOfUser(reviews: seq<Review>, userId: int): set<int> {
    ReviewIdsWhere(reviews, (v: Review) => v.userId == userId)
  }

  /**
   * Deleting an anime deletes its tracking entries and its reviews, and so
   * their comments (models.py:33-34, 85); every row of another title, every
   * comment on another title's review, and the other tables are kept.
   */
  function DeleteAnime(db: Db, animeId: int): (r: Db)
    ensures forall a :: a in r.animes <==> a in db.animes && a.id != animeId
    ensures forall e :: e in r.userAnimes <==> e in db.userAnimes && e.animeId != animeId
    ensures forall v :: v in r.reviews <==> v in db.reviews && v.animeId != animeId
    ensures forall c :: c in r.comments <==> c in db.comments && c.reviewId !in ReviewIdsOfAnime(db.reviews, animeId)
    ensures r.users == db.users && r.follows == db.follows && r.activities == db.activities
  {
    var gone := ReviewIdsOfAnime(db.reviews, animeId);
    var isKept := (a: Anime) => a.id != animeId;
    var isOtherEntry := (e: UserAnime) => e.animeId != animeId;
    var isOtherReview := (v: Review) => v.animeId != animeId;
    var isOtherComment := (c: Comment) => c.reviewId !in gone;
    Seqs.FilterMembers(db.animes, isKept);
    Seqs.FilterMembers(db.userAnimes, isOtherEntry);
    Seqs.FilterMembers(db.reviews, isOtherReview);
    Seqs.FilterMembers(db.comments, isOtherComment);
    db.(animes := Seqs.Filter(db.animes, isKept),
        userAnimes := Seqs.Filter(db.userAnimes, isOtherEntry),
        reviews := Seqs.Filter(db.reviews, isOtherReview),
        comments := Seqs.Filter(db.comments, isOtherComment))
  }

  /**
   * Deleting a user deletes its tracking entries, reviews (with their
   * comments), comments and activities (models.py:45-48); every row of
   * another user that is not a comment on a deleted review is kept, and so
   * are the catalogue and the follow rows, which are not in the cascade.
   */
  function DeleteUser(db: Db, userId: int): (r: Db)
    ensures forall u :: u in r.users <==> u in db.users && u.id != userId
    ensures forall e :: e in r.userAnimes <==> e in db.userAnimes && e.userId != userId
    ensures forall v :: v in r.reviews <==> v in db.reviews && v.userId != userId
    ensures forall c :: c in r.comments <==>
      c in db.comments && c.userId != userId && c.reviewId !in ReviewIdsOfUser(db.reviews, userId)
    ensures forall a :: a in r.activities <==> a in db.activities && a.userId != userId
    ensures r.follows == db.follows && r.animes == db.animes
  {
    var gone := ReviewIdsOfUser(db.reviews, userId);
    var isKept := (u: User) => u.id != userId;
    var isOtherEntry := (e: UserAnime) => e.userId != userId;
    var isOtherReview := (v: Review) => v.userId != userId;
    var isOtherComment := (c: Comment) => c.userId != userId && c.reviewId !in gone;
    var isOtherActivity := (a: Activity) => a.userId != userId;
    Seqs.FilterMembers(db.users, isKept);
    Seqs.FilterMembers(db.userAnimes, isOtherEntry);
    Seqs.FilterMembers(db.reviews, isOtherReview);
    Seqs.FilterMembers(db.comments, isOtherComment);
    Seqs.FilterMembers(db.activities, isOtherActivity);
    db.(users := Seqs.Filter(db.users, isKept),
        userAnimes := Seqs.Filter(db.userAnimes, isOtherEntry),
        reviews := Seqs.Filter(db.reviews, isOtherReview),
        comments := Seqs.Filter(db.comments, isOtherComment),
        activities := Seqs.Filter(db.activities, isOtherActivity))
  }

  /** The anime cascade leaves no dangling reference behind. */
  lemma DeleteAnimeKeepsForeignKeys(db: Db, animeId: int)
    requires ForeignKeysExceptFollows(db) && FollowForeignKeys(db)
    ensures ForeignKeysExceptFollows(DeleteAnime(db, animeId)) && FollowForeignKeys(DeleteAnime(db, animeId))
  {
    var r := DeleteAnime(db, animeId);
    forall e | e in r.userAnimes ensures e.animeId in AnimeIds(r) {
      AnimeSurvives(db, animeId, e.animeId);
    }
    forall v | v in r.reviews ensures v.animeId in AnimeIds(r) {
      AnimeSurvives(db, animeId, v.animeId);
    }
    forall c | c in r.comments ensures c.reviewId in ReviewIds(r) {
      ReviewSurvivesAnime(db, animeId, c.reviewId);
    }
  }

  lemma AnimeSurvives(db: Db, animeId: int, id: int)
    requires id in AnimeIds(db) && id != animeId
    ensures id in AnimeIds(DeleteAnime(db, animeId))
  {
    var a :| a in db.animes && a.id == id;
    var k :| 0 <= k < |db.animes| && db.animes[k] == a;
    Seqs.FilterComplete(db.animes, (a: Anime) => a.id != animeId);
    assert a in DeleteAnime(db, animeId).animes;
  }

  lemma ReviewSurvivesAnime(db: Db, animeId: int, id: int)
    requires id in ReviewIds(db)
    requires id !in ReviewIdsOfAnime(db.reviews, animeId)
    ensures id in ReviewIds(DeleteAnime(db, animeId))
  {
    var v :| v in db.reviews && v.id == id;
    var k :| 0 <= k < |db.reviews| && db.reviews[k] == v;
    assert v.animeId != animeId;
    Seqs.FilterComplete(db.reviews, (v: Review) => v.animeId != animeId);
    assert v in DeleteAnime(db, animeId).reviews;
  }

  /** The review cascade leaves no dangling reference behind. */
  lemma DeleteReviewKeepsForeignKeys(db: Db, reviewId: int)
    requires ForeignKeysExceptFollows(db) && FollowForeignKeys(db)
    ensures ForeignKeysExceptFollows(DeleteReview(db, reviewId)) && FollowForeignKeys(DeleteReview(db, reviewId))
  {
    var r := DeleteReview(db, reviewId);
    forall c | c in r.comments ensures c.reviewId in ReviewIds(r) {
      var v :| v in db.reviews && v.id == c.reviewId;
      var k :| 0 <= k < |db.reviews| && db.reviews[k] == v;
      Seqs.FilterComplete(db.reviews, (v: Review) => v.id != reviewId);
      assert v in r.reviews;
    }
  }

  /**
   * The user cascade leaves every table but `follows` consistent; the
   * deleted user's follow rows are left in place (models.py:45-48 list no
   * relationship to Follow).
   */
  lemma DeleteUserKeepsForeignKeys(db: Db, userId: int)
    requires ForeignKeysExceptFollows(db)
    ensures ForeignKeysExceptFollows(DeleteUser(db, userId))
    ensures forall f :: f in db.follows && (f.followerId == userId || f.followingId == userId) ==>
      f in DeleteUser(db, userId).follows
  {
    var r := DeleteUser(db, userId);
    forall e | e in r.userAnimes ensures e.userId in UserIds(r) {
      UserSurvives(db, userId, e.userId);
    }
    forall v | v in r.reviews ensures v.userId in UserIds(r) {
      UserSurvives(db, userId, v.userId);
    }
    forall c | c in r.comments ensures c.reviewId in ReviewIds(r) && c.userId in UserIds(r) {
      UserSurvives(db, userId, c.userId);
      ReviewSurvives(db, userId, c.reviewId);
    }
    forall a | a in r.activities ensures a.userId in UserIds(r) {
      UserSurvives(db, userId, a.userId);
    }
  }

  lemma UserSurvives(db: Db, userId: int, id: int)
    requires id in UserIds(db) && id != userId
    ensures id in UserIds(DeleteUser(db, userId))
  {
    var u :| u in db.users && u.id == id;
    var k :| 0 <= k < |db.users| && db.users[k] == u;
    Seqs.FilterComplete(db.users, (u: User) => u.id != userId);
    assert u in DeleteUser(db, userId).users;
  }

  lemma ReviewSurvives(db: Db, userId: int, id: int)
    requires id in ReviewIds(db)
    requires id !in ReviewIdsOfUser(db.reviews, userId)
    ensures id in ReviewIds(DeleteUser(db, userId))
  {
    var v :| v in db.reviews && v.id == id;
    var k :| 0 <= k < |db.reviews| && db.reviews[k] == v;
    assert v.userId != userId;
    Seqs.FilterComplete(db.reviews, (v: Review) => v.userId != userId);
    assert v in DeleteUser(db, userId).reviews;
  }
}
