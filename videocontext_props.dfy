/**
 * Properties of the session engine's operations, stated over the step
 * functions of module VideoContext (which the `VideoProvider` methods
 * are proved to follow).
 */
module VideoContextProperties {
  import opened Wrappers
  import opened Seqs
  import opened Supabase
  import opened Identity
  import opened VideoContext

  // ---------------------------------------------------------------
  // Profile provisioning

  /**
   * An existing profile is returned without any write; on a miss
   * exactly one insert is issued, for the identity's id and with the
   * role chosen by the precedence chain (defaulting to "student"); a
   * failed insert resolves to no profile rather than an error.
   */
  lemma ProvisioningFindsBeforeCreating(user: User, storedRole: Option<string>, fetched: Reply<Profile>, created: Reply<Profile>)
    ensures ProvisionStep(None, storedRole, fetched, created) == Provisioning(None, [])
    ensures fetched.Ok? ==> ProvisionStep(Some(user), storedRole, fetched, created) == Provisioning(Some(fetched.row), [])
    ensures fetched.Failed? ==>
      var p := ProvisionStep(Some(user), storedRole, fetched, created);
      |p.sent| == 1 && p.sent[0].InsertProfile? &&
      p.sent[0].profile.clerkId == user.id &&
      p.sent[0].profile.role == SelectedRole(Some(user), storedRole).GetOr("student") &&
      p.sent[0].profile.role != "" &&
      p.profile == (if created.Ok? then Some(created.row) else None)
  {
  }

  // ---------------------------------------------------------------
  // Bulk load

  /** How many of the five reads, taken in load order, succeeded before the first failure. */
  function LoadedCount<A, B, C, D, E>(fv: Fetch<A>, fc: Fetch<B>, fl: Fetch<C>, fs: Fetch<D>, fh: Fetch<E>): (k: nat)
    ensures k <= 5
    ensures k == 5 <==> fv.Fetched? && fc.Fetched? && fl.Fetched? && fs.Fetched? && fh.Fetched?
  {
    if fv.FetchFailed? then 0
    else if fc.FetchFailed? then 1
    else if fl.FetchFailed? then 2
    else if fs.FetchFailed? then 3
    else if fh.FetchFailed? then 4
    else 5
  }

  /**
   * The load replaces exactly the collections whose reads succeeded
   * before the first failure, in the order videos, comments, likes,
   * subscriptions, history; the rest keep their old contents. A null
   * answer without error empties the collection.
   */
  lemma LoadReplacesAPrefix(m: Mirror, fv: Fetch<Video>, fc: Fetch<Comment>, fl: Fetch<VideoLike>,
                            fs: Fetch<Subscription>, fh: Fetch<VideoHistory>)
    ensures var r := LoadStep(m, fv, fc, fl, fs, fh);
      var k := LoadedCount(fv, fc, fl, fs, fh);
      r.videos == (if k >= 1 then fv.data.GetOr([]) else m.videos) &&
      r.comments == (if k >= 2 then fc.data.GetOr([]) else m.comments) &&
      r.likes == (if k >= 3 then fl.data.GetOr([]) else m.likes) &&
      r.subscriptions == (if k >= 4 then fs.data.GetOr([]) else m.subscriptions) &&
      r.history == (if k == 5 then fh.data.GetOr([]) else m.history)
    ensures LoadedCount(fv, fc, fl, fs, fh) < 5 ==>
      var k := LoadedCount(fv, fc, fl, fs, fh);
      (k == 0 ==> fv.FetchFailed?) && (k == 1 ==> fc.FetchFailed?) && (k == 2 ==> fl.FetchFailed?) &&
      (k == 3 ==> fs.FetchFailed?) && (k == 4 ==> fh.FetchFailed?)
  {
  }

  // ---------------------------------------------------------------
  // Insert then prepend

  /**
   * `uploadVideo` throws without a profile and writes nothing; it
   * inserts the video owned by the caller's profile; on success the
   * returned row is first and the old list follows unchanged; an
   * insert error leaves the mirror as it was. No other collection changes.
   */
  lemma UploadVideoPrepends(m: Mirror, profile: Option<Profile>, video: VideoDraft, reply: Reply<Video>)
    ensures var r := UploadVideoStep(m, profile, video, reply);
      (profile.None? ==> r == Step(m, Threw(ProfileNotFound), [])) &&
      (profile.Some? ==> r.sent == [InsertVideo(video, profile.value.id)]) &&
      (profile.Some? && reply.Failed? ==> r.mirror == m && r.status == Threw(StoreError(reply.message))) &&
      (profile.Some? && reply.Ok? ==>
        r.status == Done && |r.mirror.videos| == |m.videos| + 1 &&
        r.mirror.videos[0] == reply.row && r.mirror.videos[1..] == m.videos &&
        r.mirror.(videos := m.videos) == m)
  {
    var r := UploadVideoStep(m, profile, video, reply);
    if profile.Some? && reply.Ok? {
      assert r.mirror.videos == [reply.row] + m.videos;
      assert r.mirror.videos[1..] == m.videos;
    }
  }

  /**
   * `addComment` behaves the same way on comments, and sends the
   * content exactly as given: it neither trims nor rejects empty text.
   */
  lemma AddCommentPrepends(m: Mirror, profile: Option<Profile>, videoId: string, content: string, reply: Reply<Comment>)
    ensures var r := AddCommentStep(m, profile, videoId, content, reply);
      (profile.None? ==> r == Step(m, Threw(ProfileNotFound), [])) &&
      (profile.Some? ==> r.sent == [InsertComment(videoId, profile.value.id, content)]) &&
      (profile.Some? && reply.Failed? ==> r.mirror == m && r.status == Threw(StoreError(reply.message))) &&
      (profile.Some? && reply.Ok? ==>
        r.status == Done && |r.mirror.comments| == |m.comments| + 1 &&
        r.mirror.comments[0] == reply.row && r.mirror.comments[1..] == m.comments &&
        r.mirror.(comments := m.comments) == m)
  {
    var r := AddCommentStep(m, profile, videoId, content, reply);
    if profile.Some? && reply.Ok? {
      assert r.mirror.comments == [reply.row] + m.comments;
      assert r.mirror.comments[1..] == m.comments;
    }
  }

  // ---------------------------------------------------------------
  // Likes

  /** The new like the store returns is the one asked for, with an id not yet in the mirror. */
  predicate FreshLikeReply(reply: Reply<VideoLike>, likes: seq<VideoLike>, userId: string, videoId: string) {
    reply.Ok? ==>
      reply.row.userId == userId && reply.row.videoId == videoId &&
      forall i :: 0 <= i < |likes| ==> likes[i].id != reply.row.id
  }

  /** At most one like per (user, video), and like ids distinct. */
  ghost predicate LikesWellFormed(likes: seq<VideoLike>) {
    UniqueBy(likes, LikeKeyOf) && UniqueBy(likes, LikeIdOf)
  }

  /** The membership write of `toggleLike` (the delete or the insert) was confirmed. */
  predicate LikeWriteConfirmed(m: Mirror, userId: string, videoId: string, deleteAck: Ack, insertReply: Reply<VideoLike>) {
    match FindLike(m.likes, userId, videoId)
    case Some(_) => deleteAck.Acked?
    case None => insertReply.Ok?
  }

  /**
   * Add branch: taken only when no like with (profile, video) exists.
   * An insert error throws with the mirror unchanged; otherwise exactly
   * the returned like is appended and the counter is written; if that
   * write fails the like stays and the counts do not move; if it
   * succeeds, each video with that id gains one like and no other
   * video changes. Comments, subscriptions and history never change.
   */
  lemma ToggleLikeAdds(m: Mirror, profile: Option<Profile>, videoId: string,
                       deleteAck: Ack, insertReply: Reply<VideoLike>, counterAck: Ack)
    requires profile.Some? && !IsLiked(m.likes, profile, videoId)
    ensures var r := ToggleLikeStep(m, profile, videoId, deleteAck, insertReply, counterAck);
      var userId := profile.value.id;
      r.mirror.comments == m.comments && r.mirror.subscriptions == m.subscriptions && r.mirror.history == m.history &&
      (insertReply.Failed? ==> r == Step(m, Threw(StoreError(insertReply.message)), [InsertLike(userId, videoId)])) &&
      (insertReply.Ok? ==>
        r.mirror.likes == m.likes + [insertReply.row] &&
        r.sent == [InsertLike(userId, videoId), SetVideoLikes(videoId, LikesWrittenOnLike(m.videos, videoId))]) &&
      (insertReply.Ok? && counterAck.Rejected? ==>
        r.mirror.videos == m.videos && r.status == Threw(StoreError(counterAck.message))) &&
      (insertReply.Ok? && counterAck.Acked? ==>
        r.status == Done && |r.mirror.videos| == |m.videos| &&
        forall i :: 0 <= i < |m.videos| ==>
          r.mirror.videos[i] == if m.videos[i].id == videoId then m.videos[i].(likes := m.videos[i].likes + 1) else m.videos[i])
  {
    assert FindLike(m.likes, profile.value.id, videoId).None?;
  }

  /**
   * Remove branch: taken when a like with (profile, video) exists. A
   * delete error throws with the mirror unchanged; otherwise the like
   * is removed by id and the lowered counter is written; if that write
   * fails, the like is gone but the counts do not move (the mirror is
   * left half-updated) and the call throws; if it succeeds, each video
   * with that id has its count lowered by one, but never below zero.
   */
  lemma ToggleLikeRemoves(m: Mirror, profile: Option<Profile>, videoId: string, existing: VideoLike,
                          deleteAck: Ack, insertReply: Reply<VideoLike>, counterAck: Ack)
    requires profile.Some? && FindLike(m.likes, profile.value.id, videoId) == Some(existing)
    ensures existing in m.likes && existing.userId == profile.value.id && existing.videoId == videoId
    ensures var r := ToggleLikeStep(m, profile, videoId, deleteAck, insertReply, counterAck);
      r.mirror.comments == m.comments && r.mirror.subscriptions == m.subscriptions && r.mirror.history == m.history &&
      (deleteAck.Rejected? ==> r == Step(m, Threw(StoreError(deleteAck.message)), [DeleteLike(existing.id)])) &&
      (deleteAck.Acked? ==>
        r.mirror.likes == WithoutLike(m.likes, existing.id) &&
        r.sent == [DeleteLike(existing.id), SetVideoLikes(videoId, LikesWrittenOnUnlike(m.videos, videoId))]) &&
      (deleteAck.Acked? && counterAck.Rejected? ==>
        r.mirror.videos == m.videos && r.status == Threw(StoreError(counterAck.message))) &&
      (deleteAck.Acked? && counterAck.Acked? ==>
        r.status == Done && |r.mirror.videos| == |m.videos| &&
        forall i :: 0 <= i < |m.videos| ==>
          r.mirror.videos[i] == if m.videos[i].id == videoId then m.videos[i].(likes := Max0(m.videos[i].likes - 1)) else m.videos[i])
  {
    FoundLikeIsRemoved(m, profile, videoId, existing, deleteAck, insertReply, counterAck);
    if deleteAck.Acked? && counterAck.Acked? {
      DecrementLikesPointwise(m.videos, videoId);
    }
  }

  /** The remove branch of `toggleLike`, step by step. */
  lemma FoundLikeIsRemoved(m: Mirror, profile: Option<Profile>, videoId: string, existing: VideoLike,
                           deleteAck: Ack, insertReply: Reply<VideoLike>, counterAck: Ack)
    requires profile.Some? && FindLike(m.likes, profile.value.id, videoId) == Some(existing)
    ensures var r := ToggleLikeStep(m, profile, videoId, deleteAck, insertReply, counterAck);
      var sent := [DeleteLike(existing.id), SetVideoLikes(videoId, LikesWrittenOnUnlike(m.videos, videoId))];
      var m1 := m.(likes := WithoutLike(m.likes, existing.id));
      r == if deleteAck.Rejected? then Step(m, Threw(AckFailure(deleteAck)), [DeleteLike(existing.id)])
        else if counterAck.Rejected? then Step(m1, Threw(AckFailure(counterAck)), sent)
        else Step(m1.(videos := DecrementLikes(m.videos, videoId)), Done, sent)
  {
  }

  /** `DecrementLikes`, index by index. */
  lemma DecrementLikesPointwise(videos: seq<Video>, videoId: string)
    ensures |DecrementLikes(videos, videoId)| == |videos|
    ensures forall i :: 0 <= i < |videos| ==>
      DecrementLikes(videos, videoId)[i] == if videos[i].id == videoId then videos[i].(likes := Max0(videos[i].likes - 1)) else videos[i]
  {
  }

  /** The like counts of the mirror stay non-negative. */
  lemma ToggleLikeKeepsCountsNonNegative(m: Mirror, profile: Option<Profile>, videoId: string,
                                         deleteAck: Ack, insertReply: Reply<VideoLike>, counterAck: Ack)
    requires forall i :: 0 <= i < |m.videos| ==> m.videos[i].likes >= 0
    ensures var r := ToggleLikeStep(m, profile, videoId, deleteAck, insertReply, counterAck);
      forall i :: 0 <= i < |r.mirror.videos| ==> r.mirror.videos[i].likes >= 0
  {
    var r := ToggleLikeStep(m, profile, videoId, deleteAck, insertReply, counterAck);
    var up, down := IncrementLikes(m.videos, videoId), DecrementLikes(m.videos, videoId);
    assert r.mirror.videos == m.videos || r.mirror.videos == up || r.mirror.videos == down;
    assert forall i :: 0 <= i < |up| ==> up[i].likes >= 0;
    assert forall i :: 0 <= i < |down| ==> down[i].likes >= 0;
  }

  /**
   * The counter value written to the store is the count the mirror
   * gives the first video with that id after the change: the store's
   * `likes || 1` and `likes || 0` fallbacks agree with the mirror's
   * own arithmetic on every count, zero included.
   */
  lemma StoredLikesAgreeWithMirror(videos: seq<Video>, videoId: string, v: Video)
    requires GetVideoById(videos, videoId) == Some(v)
    ensures GetVideoById(IncrementLikes(videos, videoId), videoId) == Some(v.(likes := v.likes + 1))
    ensures LikesWrittenOnLike(videos, videoId) == v.likes + 1
    ensures GetVideoById(DecrementLikes(videos, videoId), videoId) == Some(v.(likes := Max0(v.likes - 1)))
    ensures LikesWrittenOnUnlike(videos, videoId) == Max0(v.likes - 1)
  {
    var k :| 0 <= k < |videos| && videos[k] == v && forall j :: 0 <= j < k ==> videos[j].id != videoId;
    LikedCountAgrees(videos, videoId, k);
    UnlikedCountAgrees(videos, videoId, k);
  }

  /** The like half: the first video with the id, at `k`, gains exactly the like the store is told of. */
  lemma LikedCountAgrees(videos: seq<Video>, videoId: string, k: nat)
    requires k < |videos| && videos[k].id == videoId && forall j :: 0 <= j < k ==> videos[j].id != videoId
    ensures GetVideoById(IncrementLikes(videos, videoId), videoId) == Some(videos[k].(likes := videos[k].likes + 1))
    ensures LikesWrittenOnLike(videos, videoId) == videos[k].likes + 1
  {
    FirstMatchAfterMap(videos, videos, videoId, k);
    FirstMatchAfterMap(videos, IncrementLikes(videos, videoId), videoId, k);
  }

  /** The unlike half: the first video with the id, at `k`, loses exactly the like the store is told of. */
  lemma UnlikedCountAgrees(videos: seq<Video>, videoId: string, k: nat)
    requires k < |videos| && videos[k].id == videoId && forall j :: 0 <= j < k ==> videos[j].id != videoId
    ensures GetVideoById(DecrementLikes(videos, videoId), videoId) == Some(videos[k].(likes := Max0(videos[k].likes - 1)))
    ensures LikesWrittenOnUnlike(videos, videoId) == Max0(videos[k].likes - 1)
  {
    FirstMatchAfterMap(videos, videos, videoId, k);
    FirstMatchAfterMap(videos, DecrementLikes(videos, videoId), videoId, k);
  }

  /**
   * If `after` keeps every video's id at its index, the first video
   * with an id is found at the same index after as before.
   */
  lemma FirstMatchAfterMap(before: seq<Video>, after: seq<Video>, videoId: string, k: nat)
    requires |after| == |before| && forall i :: 0 <= i < |before| ==> after[i].id == before[i].id
    requires k < |before| && before[k].id == videoId && forall j :: 0 <= j < k ==> before[j].id != videoId
    ensures GetVideoById(after, videoId) == Some(after[k])
  {
    assert VideoIdIs(videoId)(after[k]);
    assert forall j :: 0 <= j < k ==> !VideoIdIs(videoId)(after[j]);
  }

  /** With one like per (user, video), removing the found like by id leaves none for the pair. */
  lemma RemovedLikeIsTheOnlyOne(likes: seq<VideoLike>, userId: string, videoId: string, existing: VideoLike)
    requires UniqueBy(likes, LikeKeyOf) && FindLike(likes, userId, videoId) == Some(existing)
    ensures var after := WithoutLike(likes, existing.id);
      forall k :: 0 <= k < |after| ==> !(after[k].userId == userId && after[k].videoId == videoId)
  {
    var after := WithoutLike(likes, existing.id);
    FilterMembers(likes, LikeIdIsNot(existing.id));
    var i :| 0 <= i < |likes| && likes[i] == existing;
    forall k | 0 <= k < |after| ensures !LikeIs(userId, videoId)(after[k]) {
      var j :| 0 <= j < |likes| && likes[j] == after[k];
      assert LikeIdIsNot(existing.id)(after[k]);
      assert LikeKeyOf(likes[j]) == LikeKeyOf(likes[i]) ==> i == j;
    }
  }

  /** `toggleLike` keeps at most one like per (user, video) and like ids distinct. */
  lemma ToggleLikeKeepsLikesWellFormed(m: Mirror, profile: Option<Profile>, videoId: string,
                                       deleteAck: Ack, insertReply: Reply<VideoLike>, counterAck: Ack)
    requires LikesWellFormed(m.likes)
    requires profile.Some? ==> FreshLikeReply(insertReply, m.likes, profile.value.id, videoId)
    ensures LikesWellFormed(ToggleLikeStep(m, profile, videoId, deleteAck, insertReply, counterAck).mirror.likes)
  {
    if profile.Some? {
      var userId := profile.value.id;
      match FindLike(m.likes, userId, videoId)
      case Some(existing) =>
        FilterKeepsUnique(m.likes, LikeIdIsNot(existing.id), LikeKeyOf);
        FilterKeepsUnique(m.likes, LikeIdIsNot(existing.id), LikeIdOf);
      case None =>
        if insertReply.Ok? {
          var row := insertReply.row;
          forall i | 0 <= i < |m.likes| ensures LikeKeyOf(m.likes[i]) != LikeKeyOf(row) {
            assert !LikeIs(userId, videoId)(m.likes[i]);
          }
          AppendKeepsUnique(m.likes, row, LikeKeyOf);
          AppendKeepsUnique(m.likes, row, LikeIdOf);
        }
    }
  }

  /**
   * Once its membership write is confirmed, `toggleLike` flips
   * `isLiked` for that video; when it is not, the call has thrown and
   * the mirror is unchanged.
   */
  lemma ToggleLikeFlipsIsLiked(m: Mirror, profile: Option<Profile>, videoId: string,
                               deleteAck: Ack, insertReply: Reply<VideoLike>, counterAck: Ack)
    requires UniqueBy(m.likes, LikeKeyOf)
    requires profile.Some? ==> FreshLikeReply(insertReply, m.likes, profile.value.id, videoId)
    ensures var r := ToggleLikeStep(m, profile, videoId, deleteAck, insertReply, counterAck);
      if profile.Some? && LikeWriteConfirmed(m, profile.value.id, videoId, deleteAck, insertReply)
      then IsLiked(r.mirror.likes, profile, videoId) == !IsLiked(m.likes, profile, videoId)
      else r.mirror == m && r.status.Threw?
  {
    if profile.Some? {
      var userId := profile.value.id;
      var r := ToggleLikeStep(m, profile, videoId, deleteAck, insertReply, counterAck);
      match FindLike(m.likes, userId, videoId)
      case Some(existing) =>
        if deleteAck.Acked? {
          assert r.mirror.likes == WithoutLike(m.likes, existing.id);
          RemovedLikeIsTheOnlyOne(m.likes, userId, videoId, existing);
        }
      case None =>
        if insertReply.Ok? {
          var after := m.likes + [insertReply.row];
          assert r.mirror.likes == after;
          assert LikeIs(userId, videoId)(after[|m.likes|]);
        }
    }
  }

  /**
   * Two consecutive toggles on a video the caller has not liked, with
   * every write confirmed, restore the likes and the videos exactly
   * (counts were non-negative); the video is liked in between and not
   * liked afterwards.
   */
  lemma ToggleLikeTwiceRestores(m: Mirror, profile: Option<Profile>, videoId: string, row: VideoLike,
                                deleteAck1: Ack, insertReply2: Reply<VideoLike>)
    requires profile.Some? && !IsLiked(m.likes, profile, videoId)
    requires FreshLikeReply(Ok(row), m.likes, profile.value.id, videoId)
    requires forall i :: 0 <= i < |m.videos| ==> m.videos[i].likes >= 0
    ensures var r1 := ToggleLikeStep(m, profile, videoId, deleteAck1, Ok(row), Acked);
      var r2 := ToggleLikeStep(r1.mirror, profile, videoId, Acked, insertReply2, Acked);
      r1.status == Done && IsLiked(r1.mirror.likes, profile, videoId) &&
      r2.status == Done && r2.mirror == m && !IsLiked(r2.mirror.likes, profile, videoId)
  {
    var userId := profile.value.id;
    assert FindLike(m.likes, userId, videoId).None?;
    var likes1 := m.likes + [row];
    var videos1 := IncrementLikes(m.videos, videoId);
    AppendedLikeIsFoundAndRemoved(m.likes, row, userId, videoId);
    IncrementThenDecrementLikes(m.videos, videoId);
    var r1 := ToggleLikeStep(m, profile, videoId, deleteAck1, Ok(row), Acked);
    assert r1.mirror == m.(likes := likes1, videos := videos1);
  }

  /** A fresh like appended for (user, video) is the one found afterwards, and removing it by id gives back the list. */
  lemma AppendedLikeIsFoundAndRemoved(likes: seq<VideoLike>, row: VideoLike, userId: string, videoId: string)
    requires FindLike(likes, userId, videoId).None?
    requires FreshLikeReply(Ok(row), likes, userId, videoId)
    ensures FindLike(likes + [row], userId, videoId) == Some(row)
    ensures WithoutLike(likes + [row], row.id) == likes
  {
    var p := LikeIs(userId, videoId);
    assert p((likes + [row])[|likes|]);
    FindAppendOnly(likes, row, p);
    FilterAppend(likes, [row], LikeIdIsNot(row.id));
    FilterKeepsAll(likes, LikeIdIsNot(row.id));
  }

  /** Over non-negative counts, a like gained and then lost leaves every video as it was. */
  lemma IncrementThenDecrementLikes(videos: seq<Video>, videoId: string)
    requires forall i :: 0 <= i < |videos| ==> videos[i].likes >= 0
    ensures DecrementLikes(IncrementLikes(videos, videoId), videoId) == videos
  {
    var after := DecrementLikes(IncrementLikes(videos, videoId), videoId);
    assert forall i | 0 <= i < |videos| :: after[i] == videos[i];
  }

  // ---------------------------------------------------------------
  // Subscriptions

  /** The new subscription the store returns is the one asked for, with an id not yet in the mirror. */
  predicate FreshSubscriptionReply(reply: Reply<Subscription>, subscriptions: seq<Subscription>, studentId: string, tutorId: string) {
    reply.Ok? ==>
      reply.row.studentId == studentId && reply.row.tutorId == tutorId &&
      forall i :: 0 <= i < |subscriptions| ==> subscriptions[i].id != reply.row.id
  }

  /** At most one subscription per (student, tutor), and subscription ids distinct. */
  ghost predicate SubscriptionsWellFormed(subscriptions: seq<Subscription>) {
    UniqueBy(subscriptions, SubscriptionKeyOf) && UniqueBy(subscriptions, SubscriptionIdOf)
  }

  /** The delete or insert of `toggleSubscription` was confirmed. */
  predicate SubscriptionWriteConfirmed(m: Mirror, studentId: string, tutorId: string, deleteAck: Ack, insertReply: Reply<Subscription>) {
    match FindSubscription(m.subscriptions, studentId, tutorId)
    case Some(_) => deleteAck.Acked?
    case None => insertReply.Ok?
  }

  /**
   * Only a profile whose role is "student" passes the gate; anyone
   * else gets the error with no write and no change. Past the gate an
   * existing (student, tutor) row is deleted by id, otherwise the
   * returned row is appended; a store error throws with the mirror
   * unchanged; nothing but the subscriptions ever changes.
   */
  lemma ToggleSubscriptionGatedToggle(m: Mirror, profile: Option<Profile>, tutorId: string,
                                      deleteAck: Ack, insertReply: Reply<Subscription>)
    ensures var r := ToggleSubscriptionStep(m, profile, tutorId, deleteAck, insertReply);
      r.mirror.(subscriptions := m.subscriptions) == m &&
      ((profile.None? || profile.value.role != "student") ==> r == Step(m, Threw(OnlyStudents), [])) &&
      (profile.Some? && profile.value.role == "student" ==>
        var studentId := profile.value.id;
        match FindSubscription(m.subscriptions, studentId, tutorId)
        case Some(existing) =>
          r.sent == [DeleteSubscription(existing.id)] &&
          (if deleteAck.Acked? then r.status == Done && r.mirror.subscriptions == WithoutSubscription(m.subscriptions, existing.id)
           else r.status == Threw(StoreError(deleteAck.message)) && r.mirror == m)
        case None =>
          r.sent == [InsertSubscription(studentId, tutorId)] &&
          (if insertReply.Ok? then r.status == Done && r.mirror.subscriptions == m.subscriptions + [insertReply.row]
           else r.status == Threw(StoreError(insertReply.message)) && r.mirror == m))
  {
  }

  /** `toggleSubscription` keeps at most one row per (student, tutor) and ids distinct. */
  lemma ToggleSubscriptionKeepsWellFormed(m: Mirror, profile: Option<Profile>, tutorId: string,
                                          deleteAck: Ack, insertReply: Reply<Subscription>)
    requires SubscriptionsWellFormed(m.subscriptions)
    requires profile.Some? ==> FreshSubscriptionReply(insertReply, m.subscriptions, profile.value.id, tutorId)
    ensures SubscriptionsWellFormed(ToggleSubscriptionStep(m, profile, tutorId, deleteAck, insertReply).mirror.subscriptions)
  {
    if profile.Some? && profile.value.role == "student" {
      var studentId := profile.value.id;
      match FindSubscription(m.subscriptions, studentId, tutorId)
      case Some(existing) =>
        FilterKeepsUnique(m.subscriptions, SubscriptionIdIsNot(existing.id), SubscriptionKeyOf);
        FilterKeepsUnique(m.subscriptions, SubscriptionIdIsNot(existing.id), SubscriptionIdOf);
      case None =>
        if insertReply.Ok? {
          var row := insertReply.row;
          forall i | 0 <= i < |m.subscriptions| ensures SubscriptionKeyOf(m.subscriptions[i]) != SubscriptionKeyOf(row) {
            assert !SubscriptionIs(studentId, tutorId)(m.subscriptions[i]);
          }
          AppendKeepsUnique(m.subscriptions, row, SubscriptionKeyOf);
          AppendKeepsUnique(m.subscriptions, row, SubscriptionIdOf);
        }
    }
  }

  /**
   * Once its write is confirmed, `toggleSubscription` flips
   * `isSubscribed` for that tutor, moves that tutor's subscriber count
   * by one (down when it was subscribed, up otherwise) and leaves every
   * other tutor's count as it was.
   */
  lemma ToggleSubscriptionFlipsAndCounts(m: Mirror, profile: Option<Profile>, tutorId: string,
                                         deleteAck: Ack, insertReply: Reply<Subscription>)
    requires SubscriptionsWellFormed(m.subscriptions)
    requires profile.Some? && profile.value.role == "student"
    requires FreshSubscriptionReply(insertReply, m.subscriptions, profile.value.id, tutorId)
    requires SubscriptionWriteConfirmed(m, profile.value.id, tutorId, deleteAck, insertReply)
    ensures var r := ToggleSubscriptionStep(m, profile, tutorId, deleteAck, insertReply);
      var was := IsSubscribed(m.subscriptions, profile, tutorId);
      r.status == Done &&
      IsSubscribed(r.mirror.subscriptions, profile, tutorId) == !was &&
      SubscriptionCount(r.mirror.subscriptions, tutorId) == SubscriptionCount(m.subscriptions, tutorId) + (if was then -1 else 1) &&
      forall t :: t != tutorId ==> SubscriptionCount(r.mirror.subscriptions, t) == SubscriptionCount(m.subscriptions, t)
  {
    var studentId := profile.value.id;
    var subs := m.subscriptions;
    var r := ToggleSubscriptionStep(m, profile, tutorId, deleteAck, insertReply);
    match FindSubscription(subs, studentId, tutorId)
    case Some(existing) =>
      assert r.mirror.subscriptions == WithoutSubscription(subs, existing.id);
      UnsubscribeFlipsAndCounts(subs, profile, tutorId, existing);
    case None =>
      assert r.mirror.subscriptions == subs + [insertReply.row];
      SubscribeFlipsAndCounts(subs, profile, tutorId, insertReply.row);
  }

  /** Removing the found subscription by id ends it and lowers only its tutor's count, by one. */
  lemma UnsubscribeFlipsAndCounts(subs: seq<Subscription>, profile: Option<Profile>, tutorId: string, existing: Subscription)
    requires SubscriptionsWellFormed(subs)
    requires profile.Some? && FindSubscription(subs, profile.value.id, tutorId) == Some(existing)
    ensures var after := WithoutSubscription(subs, existing.id);
      IsSubscribed(subs, profile, tutorId) && !IsSubscribed(after, profile, tutorId) &&
      forall t :: SubscriptionCount(after, t) + (if t == tutorId then 1 else 0) == SubscriptionCount(subs, t)
  {
    var studentId := profile.value.id;
    var after := WithoutSubscription(subs, existing.id);
    FilterMembers(subs, SubscriptionIdIsNot(existing.id));
    var i :| 0 <= i < |subs| && subs[i] == existing;
    assert IsSubscribed(subs, profile, tutorId) by {
      assert SubscriptionIs(studentId, tutorId)(subs[i]);
    }
    forall j | 0 <= j < |subs| && j != i ensures SubscriptionIdIsNot(existing.id)(subs[j]) {
      assert SubscriptionIdOf(subs[i]) != SubscriptionIdOf(subs[j]);
    }
    forall k | 0 <= k < |after| ensures !SubscriptionIs(studentId, tutorId)(after[k]) {
      var j :| 0 <= j < |subs| && subs[j] == after[k];
      assert SubscriptionIdIsNot(existing.id)(after[k]);
      assert SubscriptionKeyOf(subs[j]) == SubscriptionKeyOf(subs[i]) ==> i == j;
    }
    forall t ensures SubscriptionCount(after, t) + (if t == tutorId then 1 else 0) == SubscriptionCount(subs, t) {
      CountAfterRemovingOne(subs, SubscriptionIdIsNot(existing.id), SubscriptionTutorIs(t), i);
    }
  }

  /** Appending a subscription for a pair that had none starts it and raises only its tutor's count, by one. */
  lemma SubscribeFlipsAndCounts(subs: seq<Subscription>, profile: Option<Profile>, tutorId: string, row: Subscription)
    requires profile.Some? && FindSubscription(subs, profile.value.id, tutorId).None?
    requires row.studentId == profile.value.id && row.tutorId == tutorId
    ensures !IsSubscribed(subs, profile, tutorId) && IsSubscribed(subs + [row], profile, tutorId)
    ensures forall t :: SubscriptionCount(subs + [row], t) == SubscriptionCount(subs, t) + (if t == tutorId then 1 else 0)
  {
    var after := subs + [row];
    assert SubscriptionIs(profile.value.id, tutorId)(after[|subs|]);
    forall t ensures SubscriptionCount(after, t) == SubscriptionCount(subs, t) + (if t == tutorId then 1 else 0) {
      CountAppend(subs, row, SubscriptionTutorIs(t));
    }
  }

  // ---------------------------------------------------------------
  // Watch history

  /**
   * The store answers the history writes with the row written: an
   * update returns the same row (id, user and video) with new fields,
   * an insert returns a row for (user, video) with an id not yet in
   * the mirror.
   */
  predicate FaithfulHistoryReplies(m: Mirror, userId: string, videoId: string,
                                   updateReply: Reply<VideoHistory>, insertReply: Reply<VideoHistory>) {
    match FindHistory(m.history, userId, videoId)
    case Some(existing) =>
      updateReply.Ok? ==> updateReply.row.id == existing.id && HistoryKeyOf(updateReply.row) == HistoryKeyOf(existing)
    case None =>
      insertReply.Ok? ==>
        insertReply.row.userId == userId && insertReply.row.videoId == videoId &&
        forall i :: 0 <= i < |m.history| ==> m.history[i].id != insertReply.row.id
  }

  /** At most one history row per (user, video), and history ids distinct. */
  ghost predicate HistoryWellFormed(history: seq<VideoHistory>) {
    UniqueBy(history, HistoryKeyOf) && UniqueBy(history, HistoryIdOf)
  }

  /** The update or insert of `addToHistory` was confirmed. */
  predicate HistoryWriteConfirmed(m: Mirror, userId: string, videoId: string,
                                  updateReply: Reply<VideoHistory>, insertReply: Reply<VideoHistory>) {
    match FindHistory(m.history, userId, videoId)
    case Some(_) => updateReply.Ok?
    case None => insertReply.Ok?
  }

  /** With distinct ids, replacing the row with a given id by id changes that one index only. */
  lemma ReplaceHistoryInPlace(history: seq<VideoHistory>, i: nat, row: VideoHistory)
    requires UniqueBy(history, HistoryIdOf) && i < |history|
    ensures ReplaceHistory(history, history[i].id, row) == history[i := row]
  {
    var r := ReplaceHistory(history, history[i].id, row);
    forall j | 0 <= j < |history| ensures r[j] == history[i := row][j] {
      if j != i {
        assert HistoryIdOf(history[j]) != HistoryIdOf(history[i]);
      }
    }
  }

  /**
   * `addToHistory` without a profile returns silently with no write.
   * With one, an existing (user, video) row has its watch time set to
   * the given time and is replaced, at its own index, by the returned
   * row; otherwise a row with progress 0 is inserted and the returned
   * row is put first. A store error throws with the mirror unchanged.
   * Comments, likes and subscriptions never change.
   */
  lemma AddToHistoryUpserts(m: Mirror, profile: Option<Profile>, videoId: string, now: string,
                            updateReply: Reply<VideoHistory>, insertReply: Reply<VideoHistory>, viewsAck: Ack)
    requires UniqueBy(m.history, HistoryIdOf)
    ensures AddToHistoryStep(m, None, videoId, now, updateReply, insertReply, viewsAck) == Step(m, Done, [])
    ensures var r := AddToHistoryStep(m, profile, videoId, now, updateReply, insertReply, viewsAck);
      r.mirror.(history := m.history, videos := m.videos) == m &&
      (profile.Some? ==>
        var userId := profile.value.id;
        match FindHistory(m.history, userId, videoId)
        case Some(existing) =>
          r.sent[0] == SetHistoryWatchedAt(existing.id, now) &&
          (updateReply.Failed? ==> r == Step(m, Threw(StoreError(updateReply.message)), [r.sent[0]])) &&
          (updateReply.Ok? ==>
            exists i :: 0 <= i < |m.history| && m.history[i] == existing &&
              r.mirror.history == m.history[i := updateReply.row])
        case None =>
          r.sent[0] == InsertHistory(userId, videoId, 0) &&
          (insertReply.Failed? ==> r == Step(m, Threw(StoreError(insertReply.message)), [r.sent[0]])) &&
          (insertReply.Ok? ==> r.mirror.history == [insertReply.row] + m.history))
  {
    if profile.Some? {
      var userId := profile.value.id;
      match FindHistory(m.history, userId, videoId)
      case Some(existing) =>
        if updateReply.Ok? {
          var i :| 0 <= i < |m.history| && m.history[i] == existing;
          ReplaceHistoryInPlace(m.history, i, updateReply.row);
          BumpViewsShape(m.(history := ReplaceHistory(m.history, existing.id, updateReply.row)),
                         [SetHistoryWatchedAt(existing.id, now)], videoId, viewsAck);
        }
      case None =>
        if insertReply.Ok? {
          BumpViewsShape(m.(history := [insertReply.row] + m.history), [InsertHistory(userId, videoId, 0)], videoId, viewsAck);
        }
    }
  }

  /**
   * After a confirmed history write, views are bumped only for a video
   * in the mirror, with the store given the mirrored count plus one;
   * every video with that id gains one view if that write is
   * confirmed, and nothing changes if it is not. Either way the call
   * returns normally. An unconfirmed history write throws before any
   * view write.
   */
  lemma AddToHistoryBumpsViews(m: Mirror, profile: Option<Profile>, videoId: string, now: string,
                               updateReply: Reply<VideoHistory>, insertReply: Reply<VideoHistory>, viewsAck: Ack)
    requires profile.Some?
    ensures var r := AddToHistoryStep(m, profile, videoId, now, updateReply, insertReply, viewsAck);
      if !HistoryWriteConfirmed(m, profile.value.id, videoId, updateReply, insertReply) then
        r.status.Threw? && r.mirror == m && |r.sent| == 1
      else
        r.status == Done &&
        match GetVideoById(m.videos, videoId)
        case None => |r.sent| == 1 && r.mirror.videos == m.videos
        case Some(v) =>
          |r.sent| == 2 && r.sent[1] == SetVideoViews(videoId, v.views + 1) &&
          (viewsAck.Rejected? ==> r.mirror.videos == m.videos) &&
          (viewsAck.Acked? ==> (|r.mirror.videos| == |m.videos| &&
            forall i :: 0 <= i < |m.videos| ==>
              r.mirror.videos[i] == if m.videos[i].id == videoId then m.videos[i].(views := m.videos[i].views + 1) else m.videos[i]))
  {
    if HistoryWriteConfirmed(m, profile.value.id, videoId, updateReply, insertReply) {
      ConfirmedHistoryThenBumps(m, profile, videoId, now, updateReply, insertReply, viewsAck);
    } else {
      UnconfirmedHistoryThrows(m, profile, videoId, now, updateReply, insertReply, viewsAck);
    }
  }

  /** The confirmed half of `AddToHistoryBumpsViews`. */
  lemma ConfirmedHistoryThenBumps(m: Mirror, profile: Option<Profile>, videoId: string, now: string,
                                  updateReply: Reply<VideoHistory>, insertReply: Reply<VideoHistory>, viewsAck: Ack)
    requires profile.Some? && HistoryWriteConfirmed(m, profile.value.id, videoId, updateReply, insertReply)
    ensures ViewsBumped(AddToHistoryStep(m, profile, videoId, now, updateReply, insertReply, viewsAck), m.videos, videoId, viewsAck)
  {
    var userId := profile.value.id;
    match FindHistory(m.history, userId, videoId)
    case Some(existing) =>
      var m1 := m.(history := ReplaceHistory(m.history, existing.id, updateReply.row));
      UpdatedHistoryThenBump(m, profile, videoId, now, updateReply, insertReply, viewsAck, existing);
      BumpViewsEffect(m1, [SetHistoryWatchedAt(existing.id, now)], videoId, viewsAck);
    case None =>
      var m1 := m.(history := [insertReply.row] + m.history);
      InsertedHistoryThenBump(m, profile, videoId, now, updateReply, insertReply, viewsAck);
      BumpViewsEffect(m1, [InsertHistory(userId, videoId, 0)], videoId, viewsAck);
  }

  /** An unconfirmed history write throws with the mirror unchanged, after that one write. */
  lemma UnconfirmedHistoryThrows(m: Mirror, profile: Option<Profile>, videoId: string, now: string,
                                 updateReply: Reply<VideoHistory>, insertReply: Reply<VideoHistory>, viewsAck: Ack)
    requires profile.Some? && !HistoryWriteConfirmed(m, profile.value.id, videoId, updateReply, insertReply)
    ensures var r := AddToHistoryStep(m, profile, videoId, now, updateReply, insertReply, viewsAck);
      r.status.Threw? && r.mirror == m && |r.sent| == 1
  {
  }

  /** A confirmed refresh of the existing row is followed by the view bump over the mirrored videos. */
  lemma UpdatedHistoryThenBump(m: Mirror, profile: Option<Profile>, videoId: string, now: string,
                               updateReply: Reply<VideoHistory>, insertReply: Reply<VideoHistory>, viewsAck: Ack,
                               existing: VideoHistory)
    requires profile.Some? && FindHistory(m.history, profile.value.id, videoId) == Some(existing) && updateReply.Ok?
    ensures AddToHistoryStep(m, profile, videoId, now, updateReply, insertReply, viewsAck) ==
      BumpViews(m.(history := ReplaceHistory(m.history, existing.id, updateReply.row)),
                [SetHistoryWatchedAt(existing.id, now)], m.videos, videoId, viewsAck)
  {
  }

  /** A confirmed insert of a new row is followed by the view bump over the mirrored videos. */
  lemma InsertedHistoryThenBump(m: Mirror, profile: Option<Profile>, videoId: string, now: string,
                                updateReply: Reply<VideoHistory>, insertReply: Reply<VideoHistory>, viewsAck: Ack)
    requires profile.Some? && FindHistory(m.history, profile.value.id, videoId).None? && insertReply.Ok?
    ensures AddToHistoryStep(m, profile, videoId, now, updateReply, insertReply, viewsAck) ==
      BumpViews(m.(history := [insertReply.row] + m.history),
                [InsertHistory(profile.value.id, videoId, 0)], m.videos, videoId, viewsAck)
  {
  }

  /** After one write, the view bump returns normally with the view write second and each matching video one view up. */
  lemma BumpViewsEffect(m: Mirror, sent: seq<Request>, videoId: string, viewsAck: Ack)
    requires |sent| == 1
    ensures ViewsBumped(BumpViews(m, sent, m.videos, videoId, viewsAck), m.videos, videoId, viewsAck)
  {
  }

  /**
   * What a step ending in the view bump after one history write looks
   * like: it returns normally; the view write comes second, only for a
   * mirrored video, with the mirrored count plus one; each video with
   * the id gains one view exactly when that write is confirmed.
   */
  predicate ViewsBumped(r: Step, videos: seq<Video>, videoId: string, viewsAck: Ack) {
    r.status == Done &&
    match GetVideoById(videos, videoId)
    case None => |r.sent| == 1 && r.mirror.videos == videos
    case Some(v) =>
      |r.sent| == 2 && r.sent[1] == SetVideoViews(videoId, v.views + 1) &&
      (viewsAck.Rejected? ==> r.mirror.videos == videos) &&
      (viewsAck.Acked? ==> (|r.mirror.videos| == |videos| &&
        forall i :: 0 <= i < |videos| ==>
          r.mirror.videos[i] == if videos[i].id == videoId then videos[i].(views := videos[i].views + 1) else videos[i]))
  }

  /** The closing view bump returns normally, touches only the videos and adds at most one write. */
  lemma BumpViewsShape(m: Mirror, sent: seq<Request>, videoId: string, viewsAck: Ack)
    ensures var r := BumpViews(m, sent, m.videos, videoId, viewsAck);
      r.status == Done && r.mirror.(videos := m.videos) == m &&
      match GetVideoById(m.videos, videoId)
      case None => r.sent == sent && r.mirror.videos == m.videos
      case Some(v) =>
        |r.sent| == |sent| + 1 && r.sent[..|sent|] == sent && r.sent[|sent|] == SetVideoViews(videoId, v.views + 1) &&
        r.mirror.videos == if viewsAck.Acked? then IncrementViews(m.videos, videoId) else m.videos
  {
  }

  /** `addToHistory` keeps at most one row per (user, video) and ids distinct. */
  lemma AddToHistoryKeepsWellFormed(m: Mirror, profile: Option<Profile>, videoId: string, now: string,
                                    updateReply: Reply<VideoHistory>, insertReply: Reply<VideoHistory>, viewsAck: Ack)
    requires HistoryWellFormed(m.history)
    requires profile.Some? ==> FaithfulHistoryReplies(m, profile.value.id, videoId, updateReply, insertReply)
    ensures HistoryWellFormed(AddToHistoryStep(m, profile, videoId, now, updateReply, insertReply, viewsAck).mirror.history)
  {
    if profile.Some? {
      var userId := profile.value.id;
      match FindHistory(m.history, userId, videoId)
      case Some(existing) =>
        if updateReply.Ok? {
          var i :| 0 <= i < |m.history| && m.history[i] == existing;
          ReplaceHistoryInPlace(m.history, i, updateReply.row);
          UpdateKeepsUnique(m.history, i, updateReply.row, HistoryKeyOf);
          UpdateKeepsUnique(m.history, i, updateReply.row, HistoryIdOf);
        }
      case None =>
        if insertReply.Ok? {
          var row := insertReply.row;
          forall i | 0 <= i < |m.history| ensures HistoryKeyOf(m.history[i]) != HistoryKeyOf(row) {
            assert !HistoryIs(userId, videoId)(m.history[i]);
          }
          PrependKeepsUnique(row, m.history, HistoryKeyOf);
          PrependKeepsUnique(row, m.history, HistoryIdOf);
        }
    }
  }

  /**
   * Watching a video twice, starting with no history row for it and
   * with every write confirmed, leaves exactly one history row for
   * (user, video), the one the second write returned, at the front;
   * the videos have had two view bumps, which ViewsTwice turns into
   * two more views for every video with that id.
   */
  lemma AddToHistoryTwice(m: Mirror, profile: Option<Profile>, videoId: string, now1: string, now2: string,
                          row1: VideoHistory, row2: VideoHistory, updateReply1: Reply<VideoHistory>, insertReply2: Reply<VideoHistory>)
    requires profile.Some?
    requires forall i :: 0 <= i < |m.history| ==> !HistoryIs(profile.value.id, videoId)(m.history[i]) && m.history[i].id != row1.id
    requires row1.userId == profile.value.id && row1.videoId == videoId
    requires row2.id == row1.id && HistoryKeyOf(row2) == HistoryKeyOf(row1)
    requires GetVideoById(m.videos, videoId).Some?
    ensures var r1 := AddToHistoryStep(m, profile, videoId, now1, updateReply1, Ok(row1), Acked);
      var r2 := AddToHistoryStep(r1.mirror, profile, videoId, now2, Ok(row2), insertReply2, Acked);
      r1.status == Done && r2.status == Done && r2.mirror.history == [row2] + m.history &&
      Count(r2.mirror.history, HistoryIs(profile.value.id, videoId)) == 1 &&
      r2.mirror.videos == IncrementViews(IncrementViews(m.videos, videoId), videoId)
  {
    var userId := profile.value.id;
    var p := HistoryIs(userId, videoId);
    var videos1 := IncrementViews(m.videos, videoId);
    FirstWatch(m, profile, videoId, now1, updateReply1, row1);
    var m1 := m.(history := [row1] + m.history, videos := videos1);
    assert FindHistory(m1.history, userId, videoId) == Some(row1) by {
      assert p(m1.history[0]);
    }
    ViewsStillFound(m.videos, videoId);
    SecondWatch(m1, profile, videoId, now2, row1, row2, insertReply2);
    SecondWatchReplacesFront(m.history, row1, row2, p);
  }

  /** Two view bumps add two views to each video with the id. */
  lemma ViewsTwice(videos: seq<Video>, videoId: string)
    ensures var after := IncrementViews(IncrementViews(videos, videoId), videoId);
      |after| == |videos| &&
      forall i :: 0 <= i < |videos| ==>
        after[i] == if videos[i].id == videoId then videos[i].(views := videos[i].views + 2) else videos[i]
  {
  }

  /** A first watch of a mirrored video, every write confirmed: the row goes first and views rise. */
  lemma FirstWatch(m: Mirror, profile: Option<Profile>, videoId: string, now: string,
                   updateReply: Reply<VideoHistory>, row: VideoHistory)
    requires profile.Some?
    requires forall i :: 0 <= i < |m.history| ==> !HistoryIs(profile.value.id, videoId)(m.history[i])
    requires GetVideoById(m.videos, videoId).Some?
    ensures AddToHistoryStep(m, profile, videoId, now, updateReply, Ok(row), Acked).mirror ==
      m.(history := [row] + m.history, videos := IncrementViews(m.videos, videoId))
    ensures AddToHistoryStep(m, profile, videoId, now, updateReply, Ok(row), Acked).status == Done
  {
    assert FindHistory(m.history, profile.value.id, videoId).None?;
  }

  /** A repeated watch of a mirrored video, every write confirmed: the row is replaced and views rise. */
  lemma SecondWatch(m: Mirror, profile: Option<Profile>, videoId: string, now: string,
                    existing: VideoHistory, row: VideoHistory, insertReply: Reply<VideoHistory>)
    requires profile.Some?
    requires FindHistory(m.history, profile.value.id, videoId) == Some(existing)
    requires GetVideoById(m.videos, videoId).Some?
    ensures AddToHistoryStep(m, profile, videoId, now, Ok(row), insertReply, Acked).mirror ==
      m.(history := ReplaceHistory(m.history, existing.id, row), videos := IncrementViews(m.videos, videoId))
    ensures AddToHistoryStep(m, profile, videoId, now, Ok(row), insertReply, Acked).status == Done
  {
  }

  /** The second watch replaces the front row by id, and the pair's row is the only one for its key. */
  lemma SecondWatchReplacesFront(history: seq<VideoHistory>, row1: VideoHistory, row2: VideoHistory, p: VideoHistory -> bool)
    requires forall i :: 0 <= i < |history| ==> !p(history[i]) && history[i].id != row1.id
    requires row2.id == row1.id && p(row2)
    ensures ReplaceHistory([row1] + history, row1.id, row2) == [row2] + history
    ensures Count([row2] + history, p) == 1
  {
    var history1 := [row1] + history;
    var history2 := ReplaceHistory(history1, row1.id, row2);
    forall j | 0 <= j < |history1| ensures history2[j] == ([row2] + history)[j] {
      if j > 0 { assert history1[j] == history[j - 1]; }
    }
    assert Filter(history, p) == [] by {
      assert Count(history, p) == 0;
    }
    assert ([row2] + history)[1..] == history;
  }

  /** A video found before a view bump is still found after it. */
  lemma ViewsStillFound(videos: seq<Video>, videoId: string)
    requires GetVideoById(videos, videoId).Some?
    ensures GetVideoById(IncrementViews(videos, videoId), videoId).Some?
  {
    var v := GetVideoById(videos, videoId).value;
    var k :| 0 <= k < |videos| && videos[k] == v && forall j :: 0 <= j < k ==> !VideoIdIs(videoId)(videos[j]);
    FirstMatchAfterMap(videos, IncrementViews(videos, videoId), videoId, k);
  }
}
