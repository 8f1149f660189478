/**
 * `SocialRepository` (app/repositories/social_repository.py): the queries
 * behind the social feed and the dashboard. `ORDER BY created_at DESC` is
 * the stable sort by `NewestFirst`, so activities with the same instant
 * keep table order; the model fixes that order where SQL leaves it open.
 */
module SocialRepository {
  import opened Models
  import Seqs
  import Sorting

  // ---------------------------------------------------------------------
  // Follows

  /** The follows whose follower is `userId`, in table order. */
  function FollowsBy(follows: seq<Follow>, userId: int): seq<Follow> {
    Seqs.Filter(follows, (f: Follow) => f.followerId == userId)
  }

  /** `get_following_count(u)`: the follows whose follower is `u`. */
  function FollowingCount(follows: seq<Follow>, userId: int): (r: nat)
    ensures r <= |follows|
    ensures r == 0 <==> forall f :: f in follows ==> f.followerId != userId
  {
    var mine := FollowsBy(follows, userId);
    assert mine != [] ==> mine[0] in follows && mine[0].followerId == userId;
    Seqs.FilterComplete(follows, (f: Follow) => f.followerId == userId);
    |mine|
  }

  /** `get_followers_count(u)`: the follows whose followed user is `u`. */
  function FollowersCount(follows: seq<Follow>, userId: int): (r: nat)
    ensures r <= |follows|
    ensures r == 0 <==> forall f :: f in follows ==> f.followingId != userId
  {
    var theirs := Seqs.Filter(follows, (f: Follow) => f.followingId == userId);
    assert theirs != [] ==> theirs[0] in follows && theirs[0].followingId == userId;
    Seqs.FilterComplete(follows, (f: Follow) => f.followingId == userId);
    |theirs|
  }

  /** `get_following_ids(u)`: the followed user of each of `u`'s follows, one per follow. */
  function FollowingIds(follows: seq<Follow>, userId: int): (r: seq<int>)
    ensures |r| == FollowingCount(follows, userId)
    ensures forall k :: 0 <= k < |r| ==> r[k] == FollowsBy(follows, userId)[k].followingId
  {
    var mine := FollowsBy(follows, userId);
    seq(|mine|, k requires 0 <= k < |mine| => mine[k].followingId)
  }

  /** The ids are exactly the users `u` follows. */
  lemma FollowingIdsMeaning(follows: seq<Follow>, userId: int, x: int)
    ensures x in FollowingIds(follows, userId) <==>
      exists f :: f in follows && f.followerId == userId && f.followingId == x
  {
    var mine := FollowsBy(follows, userId);
    var ids := FollowingIds(follows, userId);
    if x in ids {
      var k :| 0 <= k < |ids| && ids[k] == x;
      assert mine[k] in follows && mine[k].followerId == userId;
    }
    if f :| f in follows && f.followerId == userId && f.followingId == x {
      var j :| 0 <= j < |follows| && follows[j] == f;
      Seqs.FilterComplete(follows, (f: Follow) => f.followerId == userId);
      assert f in mine;
      var k :| 0 <= k < |mine| && mine[k] == f;
      assert ids[k] == x;
    }
  }

  /** A new follow adds one to the follower's following count and to the followed user's followers count, and nothing else. */
  lemma FollowCountsAppend(follows: seq<Follow>, f: Follow, userId: int)
    ensures FollowingCount(follows + [f], userId) ==
      FollowingCount(follows, userId) + (if f.followerId == userId then 1 else 0)
    ensures FollowersCount(follows + [f], userId) ==
      FollowersCount(follows, userId) + (if f.followingId == userId then 1 else 0)
    ensures FollowingIds(follows + [f], userId) ==
      FollowingIds(follows, userId) + (if f.followerId == userId then [f.followingId] else [])
  {
    var isBy := (g: Follow) => g.followerId == userId;
    Seqs.FilterAppend(follows, [f], isBy);
    Seqs.FilterAppend(follows, [f], (g: Follow) => g.followingId == userId);
    assert [f][1..] == [];
    var ids := FollowingIds(follows + [f], userId);
    var expected := FollowingIds(follows, userId) + (if f.followerId == userId then [f.followingId] else []);
    assert |ids| == |expected|;
    forall k | 0 <= k < |ids|
      ensures ids[k] == expected[k]
    {
      assert FollowsBy(follows + [f], userId) == FollowsBy(follows, userId) + Seqs.Filter([f], isBy);
    }
  }

  // ---------------------------------------------------------------------
  // Activities

  /** `ORDER BY created_at DESC`: `a` may come before `b` when it is not older. */
  function NewestFirst(): (Activity, Activity) -> bool {
    (a: Activity, b: Activity) => a.createdAt >= b.createdAt
  }

  lemma NewestFirstIsPreorder()
    ensures Sorting.TotalPreorder(NewestFirst())
  {
  }

  /** `Activity.user_id.in_(user_ids)` */
  function ByAnyOf(userIds: seq<int>): Activity -> bool {
    (a: Activity) => a.userId in userIds
  }

  /**
   * `get_feed(user_ids, limit, offset)`: nothing for an empty id list;
   * otherwise the activities of those users, newest first, skipping
   * `offset` and keeping at most `limit`.
   */
  function Feed(activities: seq<Activity>, userIds: seq<int>, limit: int, offset: int): (r: seq<Activity>)
    requires limit >= 0 && offset >= 0
    ensures userIds == [] ==> r == []
    ensures |r| <= limit
  {
    if userIds == [] then []
    else Seqs.Take(Seqs.Drop(Sorting.SortBy(Seqs.Filter(activities, ByAnyOf(userIds)), NewestFirst()), offset), limit)
  }

  /**
   * A feed page holds only activities of the listed users, newest first, and
   * as many as remain after `offset`, up to `limit`.
   */
  lemma FeedProperties(activities: seq<Activity>, userIds: seq<int>, limit: int, offset: int)
    requires limit >= 0 && offset >= 0
    ensures var r := Feed(activities, userIds, limit, offset);
      var matching := Seqs.Filter(activities, ByAnyOf(userIds));
      && |r| == Seqs.Min(limit, Seqs.Max(0, |matching| - offset))
      && (forall k :: 0 <= k < |r| ==> r[k] in activities && r[k].userId in userIds)
      && (forall i, j :: 0 <= i < j < |r| ==> r[i].createdAt >= r[j].createdAt)
  {
    FeedLength(activities, userIds, limit, offset);
    FeedDrawn(activities, userIds, limit, offset);
    FeedOrdered(activities, userIds, limit, offset);
  }

  lemma FeedLength(activities: seq<Activity>, userIds: seq<int>, limit: int, offset: int)
    requires limit >= 0 && offset >= 0
    ensures |Feed(activities, userIds, limit, offset)| ==
      Seqs.Min(limit, Seqs.Max(0, |Seqs.Filter(activities, ByAnyOf(userIds))| - offset))
  {
    if userIds != [] {
      NewestPage(Seqs.Filter(activities, ByAnyOf(userIds)), offset, limit);
    } else {
      NoneMatchNobody(activities);
    }
  }

  lemma FeedDrawn(activities: seq<Activity>, userIds: seq<int>, limit: int, offset: int)
    requires limit >= 0 && offset >= 0
    ensures var r := Feed(activities, userIds, limit, offset);
      forall k :: 0 <= k < |r| ==> r[k] in activities && r[k].userId in userIds
  {
    if userIds != [] {
      NewestPage(Seqs.Filter(activities, ByAnyOf(userIds)), offset, limit);
      FeedListed(activities, userIds, Feed(activities, userIds, limit, offset));
    }
  }

  lemma FeedOrdered(activities: seq<Activity>, userIds: seq<int>, limit: int, offset: int)
    requires limit >= 0 && offset >= 0
    ensures var r := Feed(activities, userIds, limit, offset);
      forall i, j :: 0 <= i < j < |r| ==> r[i].createdAt >= r[j].createdAt
  {
    if userIds != [] {
      NewestPage(Seqs.Filter(activities, ByAnyOf(userIds)), offset, limit);
    }
  }

  /** Whatever is drawn from the matching activities belongs to the listed users. */
  lemma FeedListed(activities: seq<Activity>, userIds: seq<int>, r: seq<Activity>)
    requires forall k :: 0 <= k < |r| ==> r[k] in Seqs.Filter(activities, ByAnyOf(userIds))
    ensures forall k :: 0 <= k < |r| ==> r[k] in activities && r[k].userId in userIds
  {
    forall k | 0 <= k < |r|
      ensures r[k] in activities && r[k].userId in userIds
    {
      MatchingIsListed(activities, userIds, r[k]);
    }
  }

  /** A page of the activities `s` sorted newest first: its length, where its elements come from, its order. */
  lemma NewestPage(s: seq<Activity>, offset: int, limit: int)
    requires offset >= 0 && limit >= 0
    ensures var page := Seqs.Take(Seqs.Drop(Sorting.SortBy(s, NewestFirst()), offset), limit);
      && |page| == Seqs.Min(limit, Seqs.Max(0, |s| - offset))
      && (forall k :: 0 <= k < |page| ==> page[k] in s)
      && (forall i, j :: 0 <= i < j < |page| ==> page[i].createdAt >= page[j].createdAt)
  {
    NewestFirstIsPreorder();
    Sorting.PageOfSorted(s, NewestFirst(), offset, limit);
    var page := Seqs.Take(Seqs.Drop(Sorting.SortBy(s, NewestFirst()), offset), limit);
    forall i, j | 0 <= i < j < |page|
      ensures page[i].createdAt >= page[j].createdAt
    {
      assert NewestFirst()(page[i], page[j]);
    }
  }

  /** The first `limit` of the activities `s` sorted newest first leave out nothing newer than what they hold. */
  lemma NewestTop(s: seq<Activity>, limit: int)
    requires limit >= 0
    ensures var top := Seqs.Take(Sorting.SortBy(s, NewestFirst()), limit);
      forall x, k :: x in s && x !in top && 0 <= k < |top| ==> top[k].createdAt >= x.createdAt
  {
    NewestFirstIsPreorder();
    Sorting.TakeSortedProperties(s, NewestFirst(), limit);
    var top := Seqs.Take(Sorting.SortBy(s, NewestFirst()), limit);
    forall x, k | x in s && x !in top && 0 <= k < |top|
      ensures top[k].createdAt >= x.createdAt
    {
      assert NewestFirst()(top[k], x);
    }
  }

  lemma MatchingIsListed(activities: seq<Activity>, userIds: seq<int>, a: Activity)
    requires a in Seqs.Filter(activities, ByAnyOf(userIds))
    ensures a in activities && a.userId in userIds
  {
    var matching := Seqs.Filter(activities, ByAnyOf(userIds));
    var j :| 0 <= j < |matching| && matching[j] == a;
  }

  lemma NoneMatchNobody(activities: seq<Activity>)
    ensures Seqs.Filter(activities, ByAnyOf([])) == []
  {
    if activities != [] {
      NoneMatchNobody(activities[1..]);
    }
  }

  /** The first page leaves out no activity that is newer than one it holds. */
  lemma FirstPageIsNewest(activities: seq<Activity>, userIds: seq<int>, limit: int)
    requires limit >= 0
    ensures var r := Feed(activities, userIds, limit, 0);
      forall a, k :: a in activities && a.userId in userIds && a !in r && 0 <= k < |r| ==> r[k].createdAt >= a.createdAt
  {
    if userIds != [] {
      var matching := Seqs.Filter(activities, ByAnyOf(userIds));
      NewestTop(matching, limit);
      var r := Feed(activities, userIds, limit, 0);
      assert r == Seqs.Take(Sorting.SortBy(matching, NewestFirst()), limit);
      forall a, k | a in activities && a.userId in userIds && a !in r && 0 <= k < |r|
        ensures r[k].createdAt >= a.createdAt
      {
        var j :| 0 <= j < |activities| && activities[j] == a;
        Seqs.FilterComplete(activities, ByAnyOf(userIds));
        assert a in matching;
      }
    }
  }

  /** Consecutive pages read the feed without gaps or overlaps. */
  lemma FeedPagesConcatenate(activities: seq<Activity>, userIds: seq<int>, offset: int, a: int, b: int)
    requires offset >= 0 && a >= 0 && b >= 0
    ensures Feed(activities, userIds, a, offset) + Feed(activities, userIds, b, offset + a) ==
            Feed(activities, userIds, a + b, offset)
  {
    if userIds != [] {
      Seqs.PagesConcatenate(Sorting.SortBy(Seqs.Filter(activities, ByAnyOf(userIds)), NewestFirst()), offset, a, b);
    }
  }

  /** A first page at least as long as the listed users' activities holds every one of them, each once. */
  lemma FeedHoldsAllWhenFew(activities: seq<Activity>, userIds: seq<int>, limit: int)
    requires limit >= |Seqs.Filter(activities, ByAnyOf(userIds))|
    ensures multiset(Feed(activities, userIds, limit, 0)) == multiset(Seqs.Filter(activities, ByAnyOf(userIds)))
  {
    var matching := Seqs.Filter(activities, ByAnyOf(userIds));
    if userIds != [] {
      Sorting.SortByProperties(matching, NewestFirst());
      assert Feed(activities, userIds, limit, 0) == Sorting.SortBy(matching, NewestFirst());
    } else {
      NoneMatchNobody(activities);
    }
  }

  /** `Activity.user_id == u` */
  function By(userId: int): Activity -> bool {
    (a: Activity) => a.userId == userId
  }

  /** `get_recent_activities_for_user(u, limit, offset)`: `u`'s activities, newest first, paginated. */
  function RecentActivities(activities: seq<Activity>, userId: int, limit: int, offset: int): (r: seq<Activity>)
    requires limit >= 0 && offset >= 0
    ensures |r| <= limit
  {
    Seqs.Take(Seqs.Drop(Sorting.SortBy(Seqs.Filter(activities, By(userId)), NewestFirst()), offset), limit)
  }

  /** A user's recent activities are the feed over that one user, so every feed property carries over. */
  lemma RecentActivitiesAreOwnFeed(activities: seq<Activity>, userId: int, limit: int, offset: int)
    requires limit >= 0 && offset >= 0
    ensures RecentActivities(activities, userId, limit, offset) == Feed(activities, [userId], limit, offset)
  {
    Seqs.FilterSame(activities, By(userId), ByAnyOf([userId]));
  }
}
