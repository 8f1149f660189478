/**
 * `SocialService` (app/services/social_service.py): reviews, comments and
 * follows, each behind a fixed sequence of guards, each announced on the
 * event bus as "activity.created" once committed; and the two read views,
 * the feed of followed users and the dashboard.
 *
 * A handler that raises while the activity is published is logged and
 * swallowed: the created row is returned whatever the handlers do. The
 * handler that persists activities is not part of this model, so the
 * `activities` table is only read here.
 */
module SocialService {
  import opened Wrappers
  import opened Models
  import Schemas
  import Strings
  import Cache
  import Events
  import StatsService
  import SocialRepository

  const UserNotFound := HttpError(404, "User not found")
  const AnimeNotFound := HttpError(404, "Anime not found")
  const ReviewNotFound := HttpError(404, "Review not found")
  const SelfFollow := HttpError(400, "You cannot follow yourself")
  const AlreadyFollowing := HttpError(400, "Already following this user")
  const InvalidFollow := HttpError(400, "Invalid follow relationship")
  const DatabaseUnavailable := HttpError(503, "Database unavailable")

  const ActivityCreated := "activity.created"

  /** The "activity.created" payload, without the session it also carries. */
  datatype ActivityEvent = ActivityEvent(
    userId: int,
    activityType: string,
    targetType: string,
    targetId: int,
    message: string)

  // ---------------------------------------------------------------------
  // create_review

  /** The guards of `create_review`, in order: the author must exist, then the title. */
  function ReviewRefusal(db: Db, p: Schemas.ReviewCreate): (r: Option<HttpError>)
    ensures r == Some(UserNotFound) <==> FindUser(db.users, p.userId).None?
    ensures r == Some(AnimeNotFound) <==> FindUser(db.users, p.userId).Some? && FindAnime(db.animes, p.animeId).None?
    ensures r.None? <==> FindUser(db.users, p.userId).Some? && FindAnime(db.animes, p.animeId).Some?
  {
    if FindUser(db.users, p.userId).None? then Some(UserNotFound)
    else if FindAnime(db.animes, p.animeId).None? then Some(AnimeNotFound)
    else None
  }

  /** The new review holds the payload, a key no review uses, and the creation instant. */
  predicate ReviewFrom(db: Db, p: Schemas.ReviewCreate, now: Timestamp, v: Review) {
    && v.id !in ReviewIds(db)
    && v.userId == p.userId && v.animeId == p.animeId && v.score == p.score && v.content == p.content
    && v.createdAt == now
  }

  /**
   * What `create_review` does to the database and answers; `available` is
   * false when the commit raises OperationalError, which is rolled back.
   */
  ghost predicate ReviewSpec(db: Db, p: Schemas.ReviewCreate, available: bool, now: Timestamp,
                             r: Result<Review, HttpError>, db2: Db)
  {
    var refusal := ReviewRefusal(db, p);
    && (refusal.Some? ==> r == Err(refusal.value) && db2 == db)
    && (refusal.None? && !available ==> r == Err(DatabaseUnavailable) && db2 == db)
    && (refusal.None? && available ==>
          r.Ok? && ReviewFrom(db, p, now, r.value) && db2 == db.(reviews := db.reviews + [r.value]))
  }

  /** The guards, then `repository.create_review` and its commit. */
  method CreateReviewRow(db: Db, p: Schemas.ReviewCreate, available: bool, now: Timestamp)
    returns (r: Result<Review, HttpError>, db2: Db)
    ensures ReviewSpec(db, p, available, now, r, db2)
  {
    var refusal := ReviewRefusal(db, p);
    if refusal.Some? {
      return Err(refusal.value), db;
    }
    if !available {
      return Err(DatabaseUnavailable), db;
    }
    var ids := ReviewIdList(db.reviews);
    var created := Review(NextId(ids), p.userId, p.animeId, p.score, p.content, now);
    assert forall x :: x in db.reviews ==> x.id < created.id by {
      forall x | x in db.reviews
        ensures x.id < created.id
      {
        var k :| 0 <= k < |db.reviews| && db.reviews[k] == x;
        assert ids[k] == x.id;
      }
    }
    r, db2 := Ok(created), db.(reviews := db.reviews + [created]);
  }

  /** The activity announced for a review: its author, the review's key and its score. */
  function ReviewEvent(v: Review): ActivityEvent {
    ActivityEvent(v.userId, "review_created", "review", v.id, "Published a review with score " + Strings.IntToString(v.score))
  }

  /**
   * `create_review(payload)`: once committed, one publication of the review
   * event on the bus; the answer does not depend on which handlers raise.
   */
  method CreateReview(db: Db, bus: Events.EventBus<ActivityEvent>, raising: set<Events.HandlerId>,
                      p: Schemas.ReviewCreate, available: bool, now: Timestamp)
    returns (r: Result<Review, HttpError>, db2: Db)
    modifies bus
    ensures ReviewSpec(db, p, available, now, r, db2)
    ensures bus.handlers == old(bus.handlers)
    ensures r.Ok? ==>
      bus.delivered == old(bus.delivered) + Events.Calls(Events.Reached(old(bus.HandlersOf(ActivityCreated)), raising), ReviewEvent(r.value))
    ensures r.Err? ==> bus.delivered == old(bus.delivered)
  {
    r, db2 := CreateReviewRow(db, p, available, now);
    if r.Ok? {
      var raised := bus.Publish(ActivityCreated, ReviewEvent(r.value), raising);
    }
  }

  /** A successful review keeps every declared constraint of the schema. */
  lemma ReviewKeepsValid(db: Db, p: Schemas.ReviewCreate, available: bool, now: Timestamp,
                         r: Result<Review, HttpError>, db2: Db)
    requires ReviewSpec(db, p, available, now, r, db2) && Valid(db)
    ensures Valid(db2)
  {
    if r.Ok? {
      var v := r.value;
      assert AnimeIds(db2) == AnimeIds(db) && UserIds(db2) == UserIds(db);
      assert ReviewIds(db) <= ReviewIds(db2);
      assert v.userId in UserIds(db) && v.animeId in AnimeIds(db);
      assert forall x :: x in db2.reviews ==> x in db.reviews || x == v;
    }
  }

  /** The published review event names the review's author, the review and its score. */
  lemma ReviewEventDescribesReview(v: Review)
    ensures var e := ReviewEvent(v);
      && e.userId == v.userId && e.activityType == "review_created"
      && e.targetType == "review" && e.targetId == v.id
      && e.message == "Published a review with score " + Strings.IntToString(v.score)
  {
  }

  // ---------------------------------------------------------------------
  // create_comment

  /** The guards of `create_comment`, in order: the author must exist, then the review. */
  function CommentRefusal(db: Db, reviewId: int, p: Schemas.CommentCreate): (r: Option<HttpError>)
    ensures r == Some(UserNotFound) <==> FindUser(db.users, p.userId).None?
    ensures r == Some(ReviewNotFound) <==> FindUser(db.users, p.userId).Some? && FindReview(db.reviews, reviewId).None?
    ensures r.None? <==> FindUser(db.users, p.userId).Some? && FindReview(db.reviews, reviewId).Some?
  {
    if FindUser(db.users, p.userId).None? then Some(UserNotFound)
    else if FindReview(db.reviews, reviewId).None? then Some(ReviewNotFound)
    else None
  }

  /** The new comment holds the payload, the review it answers, a key no comment uses, and the creation instant. */
  predicate CommentFrom(db: Db, reviewId: int, p: Schemas.CommentCreate, now: Timestamp, c: Comment) {
    && c.id !in (set x | x in db.comments :: x.id)
    && c.reviewId == reviewId && c.userId == p.userId && c.content == p.content && c.createdAt == now
  }

  /** What `create_comment` does to the database and answers. */
  ghost predicate CommentSpec(db: Db, reviewId: int, p: Schemas.CommentCreate, available: bool, now: Timestamp,
                              r: Result<Comment, HttpError>, db2: Db)
  {
    var refusal := CommentRefusal(db, reviewId, p);
    && (refusal.Some? ==> r == Err(refusal.value) && db2 == db)
    && (refusal.None? && !available ==> r == Err(DatabaseUnavailable) && db2 == db)
    && (refusal.None? && available ==>
          r.Ok? && CommentFrom(db, reviewId, p, now, r.value) && db2 == db.(comments := db.comments + [r.value]))
  }

  /** The guards, then `repository.create_comment` and its commit. */
  method CreateCommentRow(db: Db, reviewId: int, p: Schemas.CommentCreate, available: bool, now: Timestamp)
    returns (r: Result<Comment, HttpError>, db2: Db)
    ensures CommentSpec(db, reviewId, p, available, now, r, db2)
  {
    var refusal := CommentRefusal(db, reviewId, p);
    if refusal.Some? {
      return Err(refusal.value), db;
    }
    if !available {
      return Err(DatabaseUnavailable), db;
    }
    var ids := CommentIdList(db.comments);
    var created := Comment(NextId(ids), reviewId, p.userId, p.content, now);
    assert forall x :: x in db.comments ==> x.id < created.id by {
      forall x | x in db.comments
        ensures x.id < created.id
      {
        var k :| 0 <= k < |db.comments| && db.comments[k] == x;
        assert ids[k] == x.id;
      }
    }
    r, db2 := Ok(created), db.(comments := db.comments + [created]);
  }

  /** The activity announced for a comment: its author and the comment's key. */
  function CommentEvent(c: Comment): ActivityEvent {
    ActivityEvent(c.userId, "comment_created", "comment", c.id, "Posted a comment")
  }

  /** `create_comment(review_id, payload)`: as for reviews, with the comment event. */
  method CreateComment(db: Db, bus: Events.EventBus<ActivityEvent>, raising: set<Events.HandlerId>,
                       reviewId: int, p: Schemas.CommentCreate, available: bool, now: Timestamp)
    returns (r: Result<Comment, HttpError>, db2: Db)
    modifies bus
    ensures CommentSpec(db, reviewId, p, available, now, r, db2)
    ensures bus.handlers == old(bus.handlers)
    ensures r.Ok? ==>
      bus.delivered == old(bus.delivered) + Events.Calls(Events.Reached(old(bus.HandlersOf(ActivityCreated)), raising), CommentEvent(r.value))
    ensures r.Err? ==> bus.delivered == old(bus.delivered)
  {
    r, db2 := CreateCommentRow(db, reviewId, p, available, now);
    if r.Ok? {
      var raised := bus.Publish(ActivityCreated, CommentEvent(r.value), raising);
    }
  }

  /** A successful comment keeps every declared constraint of the schema. */
  lemma CommentKeepsValid(db: Db, reviewId: int, p: Schemas.CommentCreate, available: bool, now: Timestamp,
                          r: Result<Comment, HttpError>, db2: Db)
    requires CommentSpec(db, reviewId, p, available, now, r, db2) && Valid(db)
    ensures Valid(db2)
  {
    if r.Ok? {
      var c := r.value;
      assert UserIds(db2) == UserIds(db) && ReviewIds(db2) == ReviewIds(db) && AnimeIds(db2) == AnimeIds(db);
      assert c.userId in UserIds(db) && c.reviewId in ReviewIds(db);
      assert forall x :: x in db2.comments ==> x in db.comments || x == c;
    }
  }

  // ---------------------------------------------------------------------
  // follow_user

  /** `get_follow(follower, following)`: the first follow of the pair. */
  function FindFollow(follows: seq<Follow>, followerId: int, followingId: int): (r: Option<Follow>)
    ensures r.None? <==> forall f :: f in follows ==> f.followerId != followerId || f.followingId != followingId
    ensures r.Some? ==> r.value in follows && r.value.followerId == followerId && r.value.followingId == followingId
  {
    if follows == [] then None
    else if follows[0].followerId == followerId && follows[0].followingId == followingId then Some(follows[0])
    else FindFollow(follows[1..], followerId, followingId)
  }

  /**
   * The guards of `follow_user`, in order: no self-follow (before any
   * lookup), both users must exist, and the pair must not be followed yet.
   */
  function FollowRefusal(db: Db, followerId: int, followingId: int): (r: Option<HttpError>)
    ensures r == Some(SelfFollow) <==> followerId == followingId
    ensures r == Some(UserNotFound) <==>
      followerId != followingId && (FindUser(db.users, followerId).None? || FindUser(db.users, followingId).None?)
    ensures r == Some(AlreadyFollowing) <==>
      && followerId != followingId && FindUser(db.users, followerId).Some? && FindUser(db.users, followingId).Some?
      && FindFollow(db.follows, followerId, followingId).Some?
    ensures r.None? <==>
      && followerId != followingId && FindUser(db.users, followerId).Some? && FindUser(db.users, followingId).Some?
      && FindFollow(db.follows, followerId, followingId).None?
  {
    if followerId == followingId then Some(SelfFollow)
    else if FindUser(db.users, followerId).None? || FindUser(db.users, followingId).None? then Some(UserNotFound)
    else if FindFollow(db.follows, followerId, followingId).Some? then Some(AlreadyFollowing)
    else None
  }

  /** The new follow joins the pair under a key no follow uses, at the creation instant. */
  predicate FollowFrom(db: Db, followerId: int, followingId: int, now: Timestamp, f: Follow) {
    && f.id !in (set x | x in db.follows :: x.id)
    && f.followerId == followerId && f.followingId == followingId && f.createdAt == now
  }

  /** What `follow_user` does to the database and answers, for each way the commit can end. */
  ghost predicate FollowSpec(db: Db, followerId: int, followingId: int, commit: Commit, now: Timestamp,
                             r: Result<Follow, HttpError>, db2: Db)
  {
    var refusal := FollowRefusal(db, followerId, followingId);
    && (refusal.Some? ==> r == Err(refusal.value) && db2 == db)
    && (refusal.None? && commit == IntegrityFailure ==> r == Err(InvalidFollow) && db2 == db)
    && (refusal.None? && commit == OperationalFailure ==> r == Err(DatabaseUnavailable) && db2 == db)
    && (refusal.None? && commit == Committed ==>
          r.Ok? && FollowFrom(db, followerId, followingId, now, r.value) && db2 == db.(follows := db.follows + [r.value]))
  }

  /** The guards, then `repository.create_follow` and its commit. */
  method CreateFollowRow(db: Db, followerId: int, followingId: int, commit: Commit, now: Timestamp)
    returns (r: Result<Follow, HttpError>, db2: Db)
    ensures FollowSpec(db, followerId, followingId, commit, now, r, db2)
  {
    var refusal := FollowRefusal(db, followerId, followingId);
    if refusal.Some? {
      return Err(refusal.value), db;
    }
    if commit == IntegrityFailure {
      return Err(InvalidFollow), db;
    }
    if commit == OperationalFailure {
      return Err(DatabaseUnavailable), db;
    }
    var ids := FollowIdList(db.follows);
    var created := Follow(NextId(ids), followerId, followingId, now);
    assert forall x :: x in db.follows ==> x.id < created.id by {
      forall x | x in db.follows
        ensures x.id < created.id
      {
        var k :| 0 <= k < |db.follows| && db.follows[k] == x;
        assert ids[k] == x.id;
      }
    }
    r, db2 := Ok(created), db.(follows := db.follows + [created]);
  }

  /** The activity announced for a follow: by the follower, aimed at the followed user. */
  function FollowEvent(f: Follow): ActivityEvent {
    ActivityEvent(f.followerId, "follow_created", "user", f.followingId,
                  "Started following user " + Strings.IntToString(f.followingId))
  }

  /** `follow_user(follower_id, following_id)`: as for reviews, with the follow event. */
  method FollowUser(db: Db, bus: Events.EventBus<ActivityEvent>, raising: set<Events.HandlerId>,
                    followerId: int, followingId: int, commit: Commit, now: Timestamp)
    returns (r: Result<Follow, HttpError>, db2: Db)
    modifies bus
    ensures FollowSpec(db, followerId, followingId, commit, now, r, db2)
    ensures bus.handlers == old(bus.handlers)
    ensures r.Ok? ==>
      bus.delivered == old(bus.delivered) + Events.Calls(Events.Reached(old(bus.HandlersOf(ActivityCreated)), raising), FollowEvent(r.value))
    ensures r.Err? ==> bus.delivered == old(bus.delivered)
  {
    r, db2 := CreateFollowRow(db, followerId, followingId, commit, now);
    if r.Ok? {
      var raised := bus.Publish(ActivityCreated, FollowEvent(r.value), raising);
    }
  }

  /** The follow event is typed "follow_created" and targets ("user", following_id). */
  lemma FollowEventDescribesFollow(f: Follow)
    ensures var e := FollowEvent(f);
      && e.userId == f.followerId && e.activityType == "follow_created"
      && e.targetType == "user" && e.targetId == f.followingId
  {
  }

  /** A successful follow keeps every declared constraint, the one-follow-per-pair rule included. */
  lemma FollowKeepsValid(db: Db, followerId: int, followingId: int, commit: Commit, now: Timestamp,
                         r: Result<Follow, HttpError>, db2: Db)
    requires FollowSpec(db, followerId, followingId, commit, now, r, db2) && Valid(db)
    ensures Valid(db2)
  {
    if r.Ok? {
      var f := r.value;
      assert UserIds(db2) == UserIds(db) && ReviewIds(db2) == ReviewIds(db) && AnimeIds(db2) == AnimeIds(db);
      assert f.followerId in UserIds(db) && f.followingId in UserIds(db);
      assert forall k :: 0 <= k < |db.follows| ==> db.follows[k] in db.follows;
      assert forall x :: x in db2.follows ==> x in db.follows || x == f;
    }
  }

  /**
   * After a follow the follower follows one more user, the followed user has
   * one more follower, and following the same user again is refused.
   */
  lemma FollowIsCountedOnce(db: Db, followerId: int, followingId: int, commit: Commit, now: Timestamp,
                            r: Result<Follow, HttpError>, db2: Db)
    requires FollowSpec(db, followerId, followingId, commit, now, r, db2) && r.Ok?
    ensures SocialRepository.FollowingCount(db2.follows, followerId) == SocialRepository.FollowingCount(db.follows, followerId) + 1
    ensures SocialRepository.FollowersCount(db2.follows, followingId) == SocialRepository.FollowersCount(db.follows, followingId) + 1
    ensures SocialRepository.FollowingIds(db2.follows, followerId) == SocialRepository.FollowingIds(db.follows, followerId) + [followingId]
    ensures FollowRefusal(db2, followerId, followingId) == Some(AlreadyFollowing)
  {
    SocialRepository.FollowCountsAppend(db.follows, r.value, followerId);
    SocialRepository.FollowCountsAppend(db.follows, r.value, followingId);
    assert r.value in db2.follows;
  }

  // ---------------------------------------------------------------------
  // get_feed and get_dashboard

  /** `get_feed(user_id, limit, offset)`: 404 for an unknown user, else the feed over the users they follow. */
  function GetFeed(db: Db, userId: int, limit: int, offset: int): (r: Result<seq<Activity>, HttpError>)
    requires limit >= 0 && offset >= 0
    ensures r.Err? <==> FindUser(db.users, userId).None?
    ensures r.Err? ==> r.error == UserNotFound
  {
    if FindUser(db.users, userId).None? then Err(UserNotFound)
    else Ok(SocialRepository.Feed(db.activities, SocialRepository.FollowingIds(db.follows, userId), limit, offset))
  }

  /**
   * The feed shows activities of followed users only, newest first, and a
   * user who follows nobody gets an empty feed.
   */
  lemma FeedShowsFollowedUsers(db: Db, userId: int, limit: int, offset: int)
    requires limit >= 0 && offset >= 0
    ensures var r := GetFeed(db, userId, limit, offset);
      r.Ok? ==>
        && (forall k :: 0 <= k < |r.value| ==>
              && r.value[k] in db.activities
              && exists f :: f in db.follows && f.followerId == userId && f.followingId == r.value[k].userId)
        && (forall i, j :: 0 <= i < j < |r.value| ==> r.value[i].createdAt >= r.value[j].createdAt)
        && (SocialRepository.FollowingCount(db.follows, userId) == 0 ==> r.value == [])
  {
    var ids := SocialRepository.FollowingIds(db.follows, userId);
    SocialRepository.FeedProperties(db.activities, ids, limit, offset);
    var r := GetFeed(db, userId, limit, offset);
    if r.Ok? {
      forall k | 0 <= k < |r.value|
        ensures exists f :: f in db.follows && f.followerId == userId && f.followingId == r.value[k].userId
      {
        SocialRepository.FollowingIdsMeaning(db.follows, userId, r.value[k].userId);
      }
    }
  }

  /** The dashboard payload. */
  datatype Dashboard = Dashboard(
    userStats: StatsService.UserStats,
    followersCount: int,
    followingCount: int,
    recentActivities: seq<Activity>)

  /**
   * The dashboard around given statistics. `COUNT(...)` always yields a
   * number, so the `or 0` fallback of the source never applies.
   */
  function DashboardOf(db: Db, stats: StatsService.UserStats, userId: int, limit: int, offset: int): Dashboard
    requires limit >= 0 && offset >= 0
  {
    Dashboard(
      stats,
      SocialRepository.FollowersCount(db.follows, userId),
      SocialRepository.FollowingCount(db.follows, userId),
      SocialRepository.RecentActivities(db.activities, userId, limit, offset))
  }

  /**
   * The dashboard counts are the follows into and out of the user (zero
   * exactly when there are none), and the recent activities are the
   * user's own, newest first.
   */
  lemma DashboardMeaning(db: Db, stats: StatsService.UserStats, userId: int, limit: int, offset: int)
    requires limit >= 0 && offset >= 0
    ensures var d := DashboardOf(db, stats, userId, limit, offset);
      && 0 <= d.followersCount <= |db.follows| && 0 <= d.followingCount <= |db.follows|
      && (d.followersCount == 0 <==> forall f :: f in db.follows ==> f.followingId != userId)
      && (d.followingCount == 0 <==> forall f :: f in db.follows ==> f.followerId != userId)
      && |d.recentActivities| <= limit
      && (forall k :: 0 <= k < |d.recentActivities| ==>
            d.recentActivities[k] in db.activities && d.recentActivities[k].userId == userId)
      && (forall i, j :: 0 <= i < j < |d.recentActivities| ==>
            d.recentActivities[i].createdAt >= d.recentActivities[j].createdAt)
  {
    SocialRepository.RecentActivitiesAreOwnFeed(db.activities, userId, limit, offset);
    SocialRepository.FeedProperties(db.activities, [userId], limit, offset);
  }

  /**
   * `get_dashboard(user_id, activity_limit, activity_offset)`: the user
   * statistics first, whose 404 propagates (so a fresh cached value lets
   * the dashboard through even for a user no longer stored), then the
   * counts and the recent activities.
   */
  method GetDashboard(db: Db, cache: Cache.CacheStore<StatsService.UserStats>, userId: int,
                      activityLimit: int, activityOffset: int, now: real)
    returns (r: Result<Dashboard, HttpError>)
    requires activityLimit >= 0 && activityOffset >= 0
    modifies cache
    ensures var hit := Cache.Lookup(old(cache.data), StatsService.UserKey(userId), now);
      && (r.Err? <==> hit.None? && FindUser(db.users, userId).None?)
      && (r.Err? ==> r.error == UserNotFound)
      && (r.Ok? ==> r.value == DashboardOf(db, if hit.Some? then hit.value else StatsService.UserStatsOf(db, userId),
                                           userId, activityLimit, activityOffset))
    ensures var hit := Cache.Lookup(old(cache.data), StatsService.UserKey(userId), now);
      && (hit.Some? ==> cache.data == old(cache.data))
      && (hit.None? && FindUser(db.users, userId).None? ==>
            cache.data == Cache.AfterLookup(old(cache.data), StatsService.UserKey(userId), now))
      && (hit.None? && FindUser(db.users, userId).Some? ==>
            cache.data == old(cache.data)[StatsService.UserKey(userId) :=
              Cache.Entry(now + StatsService.StatsTtl as real, StatsService.UserStatsOf(db, userId))])
  {
    var stats := StatsService.GetUserStats(db, cache, userId, now);
    if stats.Err? {
      return Err(stats.error);
    }
    r := Ok(DashboardOf(db, stats.value, userId, activityLimit, activityOffset));
  }
}
