/**
 * The figures of the tutor dashboard. The tutor's profile id is not
 * known to this page directly: it is read off the first mirrored video
 * whose joined tutor carries the signed-in user's identity-provider id,
 * and every figure is derived from the tutor's videos under that id.
 */
module TutorDashboard {
  import opened Wrappers
  import opened Seqs
  import opened Supabase
  import opened Identity
  import opened VideoContext

  /**
   * `video.tutor?.clerk_id === user?.id`. Both sides may be undefined,
   * and undefined equals undefined: without a user, a video whose
   * tutor join is missing counts as the user's own.
   */
  predicate OwnedBy(v: Video, user: Option<User>) {
    match (v.tutor, user)
    case (None, None) => true
    case (Some(p), Some(u)) => p.clerkId == u.id
    case _ => false
  }

  function OwnedByUser(user: Option<User>): Video -> bool { (v: Video) => OwnedBy(v, user) }

  /** `userVideos[0]?.tutor_id`: the owner id of the first of the user's own videos. */
  function UserProfileId(videos: seq<Video>, user: Option<User>): (r: Option<string>)
    ensures r.None? <==> forall i :: 0 <= i < |videos| ==> !OwnedBy(videos[i], user)
    ensures r.Some? ==> exists i :: (0 <= i < |videos| && OwnedBy(videos[i], user) &&
      videos[i].tutorId == r.value && forall j :: 0 <= j < i ==> !OwnedBy(videos[j], user))
  {
    match Find(videos, OwnedByUser(user))
    case None => None
    case Some(v) => Some(v.tutorId)
  }

  /** `userProfileId ? getTutorVideos(userProfileId) : []`; an empty id is falsy. */
  function ShownTutorVideos(videos: seq<Video>, user: Option<User>): (r: seq<Video>)
    ensures !Truthy(UserProfileId(videos, user)) ==> r == []
    ensures Truthy(UserProfileId(videos, user)) ==>
      forall v :: v in r <==> v in videos && v.tutorId == UserProfileId(videos, user).value
    ensures Truthy(UserProfileId(videos, user)) ==>
      forall i :: 0 <= i < |videos| && videos[i].tutorId == UserProfileId(videos, user).value ==>
        multiset(r)[videos[i]] == multiset(videos)[videos[i]]
    ensures IsSubsequence(r, videos)
  {
    var id := UserProfileId(videos, user);
    if Truthy(id) then TutorVideos(videos, id.value) else []
  }

  function ViewsOf(v: Video): int { v.views }
  function LikesOf(v: Video): int { v.likes }
  function CommentCountOf(comments: seq<Comment>): Video -> int {
    (v: Video) => |CommentsByVideoId(comments, v.id)|
  }

  /**
   * `Math.round(total / count)` behind the `count > 0` guard: the
   * integer nearest to the quotient, halves rounded up.
   */
  function RoundedAverage(total: int, count: nat): (r: int)
    ensures count == 0 ==> r == 0
    ensures count > 0 ==> 2 * total - count < 2 * r * count <= 2 * total + count
    ensures total >= 0 ==> r >= 0
  {
    if count == 0 then 0
    else
      var q := (2 * total + count) / (2 * count);
      var m := (2 * total + count) % (2 * count);
      assert 2 * total + count == 2 * count * q + m && 0 <= m < 2 * count;
      assert 2 * q * count == 2 * count * q;
      assert total >= 0 ==> q >= 0;
      q
  }

  /** The figures the overview and analytics tabs show. */
  datatype Figures = Figures(
    tutorVideos: seq<Video>, totalViews: int, totalLikes: int, totalComments: int,
    subscriberCount: nat, recent: seq<Video>, averageViews: int, averageLikes: int)

  /** Every figure of the page, from the mirror and the signed-in user. */
  function FiguresOf(videos: seq<Video>, comments: seq<Comment>, subscriptions: seq<Subscription>,
                     user: Option<User>): (f: Figures)
    ensures f.tutorVideos == ShownTutorVideos(videos, user)
    ensures f.subscriberCount == (if Truthy(UserProfileId(videos, user))
      then SubscriptionCount(subscriptions, UserProfileId(videos, user).value) else 0)
    ensures |f.recent| == (if |f.tutorVideos| < 5 then |f.tutorVideos| else 5)
    ensures forall i :: 0 <= i < |f.recent| ==> f.recent[i] == f.tutorVideos[i]
    ensures f.totalViews == Sum(f.tutorVideos, ViewsOf) && f.totalLikes == Sum(f.tutorVideos, LikesOf)
    ensures f.totalComments == Sum(f.tutorVideos, CommentCountOf(comments)) && f.totalComments >= 0
    ensures f.averageViews == RoundedAverage(f.totalViews, |f.tutorVideos|)
    ensures f.averageLikes == RoundedAverage(f.totalLikes, |f.tutorVideos|)
  {
    var id := UserProfileId(videos, user);
    var shown := ShownTutorVideos(videos, user);
    var views := Sum(shown, ViewsOf);
    var likes := Sum(shown, LikesOf);
    SumNonNegative(shown, CommentCountOf(comments));
    Figures(
      shown, views, likes, Sum(shown, CommentCountOf(comments)),
      if Truthy(id) then SubscriptionCount(subscriptions, id.value) else 0,
      Take(shown, 5),
      RoundedAverage(views, |shown|), RoundedAverage(likes, |shown|))
  }

  /** Without a profile id read off the mirror, the page shows no videos and every figure is 0. */
  lemma NoProfileIdMeansZeros(videos: seq<Video>, comments: seq<Comment>, subscriptions: seq<Subscription>,
                              user: Option<User>)
    requires !Truthy(UserProfileId(videos, user))
    ensures var f := FiguresOf(videos, comments, subscriptions, user);
      && f.tutorVideos == [] && f.recent == []
      && f.totalViews == 0 && f.totalLikes == 0 && f.totalComments == 0 && f.subscriberCount == 0
      && f.averageViews == 0 && f.averageLikes == 0
  {
  }

  /** With non-negative counters on every video, the totals and averages are non-negative. */
  lemma FiguresNonNegative(videos: seq<Video>, comments: seq<Comment>, subscriptions: seq<Subscription>,
                           user: Option<User>)
    requires forall i :: 0 <= i < |videos| ==> videos[i].views >= 0 && videos[i].likes >= 0
    ensures var f := FiguresOf(videos, comments, subscriptions, user);
      f.totalViews >= 0 && f.totalLikes >= 0 && f.averageViews >= 0 && f.averageLikes >= 0
  {
    var shown := ShownTutorVideos(videos, user);
    assert forall i :: 0 <= i < |shown| ==> shown[i] in videos;
    SumNonNegative(shown, ViewsOf);
    SumNonNegative(shown, LikesOf);
    var f := FiguresOf(videos, comments, subscriptions, user);
    assert f.totalViews == Sum(shown, ViewsOf) && f.totalLikes == Sum(shown, LikesOf);
    assert f.averageViews == RoundedAverage(f.totalViews, |shown|);
    assert f.averageLikes == RoundedAverage(f.totalLikes, |shown|);
  }

  /**
   * With a profile id, the totals are the views and likes of every
   * mirrored video carrying that owner id, the others counting 0.
   */
  lemma TotalsCountTheOwnersVideos(videos: seq<Video>, comments: seq<Comment>, subscriptions: seq<Subscription>,
                                   user: Option<User>)
    requires Truthy(UserProfileId(videos, user))
    ensures var f := FiguresOf(videos, comments, subscriptions, user);
      var owner := VideoTutorIs(UserProfileId(videos, user).value);
      && f.totalViews == Sum(videos, Masked(owner, ViewsOf))
      && f.totalLikes == Sum(videos, Masked(owner, LikesOf))
  {
    var owner := VideoTutorIs(UserProfileId(videos, user).value);
    SumOfFilter(videos, owner, ViewsOf);
    SumOfFilter(videos, owner, LikesOf);
  }

  /**
   * A video with the tutor's owner id put first in the mirror, as a
   * confirmed upload does, is shown first and adds its views and likes
   * to the totals; the profile id and the subscriber count stay.
   */
  lemma UploadAddsToTotals(videos: seq<Video>, comments: seq<Comment>, subscriptions: seq<Subscription>,
                           user: Option<User>, v: Video)
    requires Truthy(UserProfileId(videos, user))
    requires v.tutorId == UserProfileId(videos, user).value
    ensures var before, after := FiguresOf(videos, comments, subscriptions, user),
                                 FiguresOf([v] + videos, comments, subscriptions, user);
      && UserProfileId([v] + videos, user) == UserProfileId(videos, user)
      && after.tutorVideos == [v] + before.tutorVideos
      && after.totalViews == before.totalViews + v.views
      && after.totalLikes == before.totalLikes + v.likes
      && after.subscriberCount == before.subscriberCount
  {
    var id := UserProfileId(videos, user);
    PrependKeepsProfileId(videos, user, v);
    var shown := TutorVideos(videos, id.value);
    assert TutorVideos([v] + videos, id.value) == [v] + shown by {
      assert ([v] + videos)[0] == v && ([v] + videos)[1..] == videos;
    }
    var after := [v] + shown;
    assert after[0] == v && after[1..] == shown;
  }

  /** A video put first in the mirror with the current profile id leaves that id in place. */
  lemma PrependKeepsProfileId(videos: seq<Video>, user: Option<User>, v: Video)
    requires UserProfileId(videos, user).Some? && v.tutorId == UserProfileId(videos, user).value
    ensures UserProfileId([v] + videos, user) == UserProfileId(videos, user)
  {
    var vs := [v] + videos;
    assert vs[0] == v && vs[1..] == videos;
    if OwnedBy(v, user) {
      assert FindIndex(vs, OwnedByUser(user)) == Some(0);
    } else {
      assert FindIndex(vs, OwnedByUser(user)) == match FindIndex(videos, OwnedByUser(user))
        case None => None case Some(i) => Some(i + 1);
    }
  }

  function VideoIds(vs: seq<Video>): (ids: seq<string>)
    ensures |ids| == |vs| && forall i :: 0 <= i < |vs| ==> ids[i] == vs[i].id
  {
    seq(|vs|, i requires 0 <= i < |vs| => vs[i].id)
  }

  function OnVideoIn(ids: seq<string>): Comment -> bool { (c: Comment) => c.videoId in ids }

  function IdOf(v: Video): string { v.id }

  /**
   * Summing per-video comment counts over videos with distinct ids
   * counts each comment on any of them exactly once.
   */
  lemma {:induction false} CommentSumCountsEachCommentOnce(vs: seq<Video>, comments: seq<Comment>)
    requires UniqueBy(vs, IdOf)
    ensures Sum(vs, CommentCountOf(comments)) == Count(comments, OnVideoIn(VideoIds(vs)))
  {
    if vs == [] {
      assert forall i :: 0 <= i < |comments| ==> !OnVideoIn(VideoIds(vs))(comments[i]);
    } else {
      var v, rest := vs[0], vs[1..];
      assert UniqueBy(rest, IdOf) by {
        forall i, j | 0 <= i < j < |rest| ensures IdOf(rest[i]) != IdOf(rest[j]) {
          assert rest[i] == vs[i + 1] && rest[j] == vs[j + 1];
        }
      }
      CommentSumCountsEachCommentOnce(rest, comments);
      var ids, restIds := VideoIds(vs), VideoIds(rest);
      assert v.id !in restIds by {
        forall k | 0 <= k < |restIds| ensures restIds[k] != v.id {
          assert restIds[k] == vs[k + 1].id;
        }
      }
      assert forall x :: x in ids <==> x == v.id || x in restIds by {
        assert ids == [v.id] + restIds;
      }
      CountDisjointUnion(comments, OnVideoIn(ids), CommentVideoIs(v.id), OnVideoIn(restIds));
    }
  }

  /** With distinct video ids, `totalComments` counts the comments on the tutor's videos, each once. */
  lemma TotalCommentsCountsComments(videos: seq<Video>, comments: seq<Comment>, subscriptions: seq<Subscription>,
                                    user: Option<User>)
    requires UniqueBy(videos, IdOf)
    ensures var f := FiguresOf(videos, comments, subscriptions, user);
      && f.totalComments == Count(comments, OnVideoIn(VideoIds(f.tutorVideos)))
      && f.totalComments <= |comments|
  {
    var shown := ShownTutorVideos(videos, user);
    var id := UserProfileId(videos, user);
    if Truthy(id) {
      FilterKeepsUnique(videos, VideoTutorIs(id.value), IdOf);
    }
    CommentSumCountsEachCommentOnce(shown, comments);
  }
}
