/**
 * The client-side session engine: the in-memory mirror of the five
 * remote collections, the signed-in person's resolved profile, and the
 * operations that write to the remote store and then apply the
 * confirmed result to the mirror.
 *
 * Every remote call is an outcome passed in by the caller. Each
 * operation is described twice: once as a pure step function from
 * the old mirror to the new mirror, the status (returned, or thrown
 * with a reason) and the remote writes issued in order; and once as a
 * method of `VideoProvider` that changes the fields step by step and
 * is proved to agree with the step function. The properties of the
 * operations are lemmas about the step functions (module
 * VideoContextProperties).
 */
module VideoContext {
  import opened Wrappers
  import opened Seqs
  import opened Supabase
  import opened Identity

  /** The five mirrored collections. */
  datatype Mirror = Mirror(
    videos: seq<Video>, comments: seq<Comment>, likes: seq<VideoLike>,
    subscriptions: seq<Subscription>, history: seq<VideoHistory>)

  /** Why an operation threw; no profile and the role gate carry the source's two messages. */
  datatype Failure = ProfileNotFound | OnlyStudents | StoreError(message: string)

  /** How an operation ended: returned normally, or threw. */
  datatype Status = Done | Threw(failure: Failure)

  /** The data `uploadVideo` receives: a video row without id, counters, timestamps, owner and join. */
  datatype VideoDraft = VideoDraft(
    title: string, description: string, category: string, tags: seq<string>,
    thumbnailUrl: string, videoUrl: string, duration: int)

  /** The profile row `ensureUserProfile` inserts. */
  datatype ProfileDraft = ProfileDraft(
    clerkId: string, email: string, name: string, role: string, avatarUrl: string)

  /** A write issued to the remote store, with the values it carries. */
  datatype Request =
    | InsertProfile(profile: ProfileDraft)
    | InsertVideo(video: VideoDraft, tutorId: string)
    | InsertComment(videoId: string, userId: string, content: string)
    | DeleteLike(likeId: string)
    | InsertLike(userId: string, videoId: string)
    | SetVideoLikes(videoId: string, likes: int)
    | DeleteSubscription(subscriptionId: string)
    | InsertSubscription(studentId: string, tutorId: string)
    | SetHistoryWatchedAt(historyId: string, watchedAt: string)
    | InsertHistory(userId: string, videoId: string, progress: int)
    | SetVideoViews(videoId: string, views: int)

  /** The effect of one operation: new mirror, how it ended, and the writes it issued in order. */
  datatype Step = Step(mirror: Mirror, status: Status, sent: seq<Request>)

  /** The effect of provisioning: the profile it resolved (null on failure) and the writes it issued. */
  datatype Provisioning = Provisioning(profile: Option<Profile>, sent: seq<Request>)

  // Natural keys and ids of the membership rows.

  function LikeKeyOf(l: VideoLike): (string, string) { (l.userId, l.videoId) }
  function LikeIdOf(l: VideoLike): string { l.id }
  function SubscriptionKeyOf(s: Subscription): (string, string) { (s.studentId, s.tutorId) }
  function SubscriptionIdOf(s: Subscription): string { s.id }
  function HistoryKeyOf(h: VideoHistory): (string, string) { (h.userId, h.videoId) }
  function HistoryIdOf(h: VideoHistory): string { h.id }

  // The predicates the source's `find`/`filter`/`some` calls test.

  function VideoIdIs(id: string): Video -> bool { (v: Video) => v.id == id }
  function VideoTutorIs(tutorId: string): Video -> bool { (v: Video) => v.tutorId == tutorId }
  function CommentVideoIs(videoId: string): Comment -> bool { (c: Comment) => c.videoId == videoId }
  function LikeIs(userId: string, videoId: string): VideoLike -> bool {
    (l: VideoLike) => l.videoId == videoId && l.userId == userId
  }
  function LikeIdIsNot(id: string): VideoLike -> bool { (l: VideoLike) => l.id != id }
  function SubscriptionIs(studentId: string, tutorId: string): Subscription -> bool {
    (s: Subscription) => s.tutorId == tutorId && s.studentId == studentId
  }
  function SubscriptionTutorIs(tutorId: string): Subscription -> bool {
    (s: Subscription) => s.tutorId == tutorId
  }
  function SubscriptionIdIsNot(id: string): Subscription -> bool { (s: Subscription) => s.id != id }
  function HistoryIs(userId: string, videoId: string): VideoHistory -> bool {
    (h: VideoHistory) => h.videoId == videoId && h.userId == userId
  }

  // Selectors.

  /** `getVideoById`: the first video with that id. */
  function GetVideoById(videos: seq<Video>, id: string): (r: Option<Video>)
    ensures r.Some? ==> r.value in videos && r.value.id == id
    ensures r.Some? ==> exists i :: (0 <= i < |videos| && videos[i] == r.value &&
      forall j :: 0 <= j < i ==> videos[j].id != id)
    ensures r.None? <==> forall i :: 0 <= i < |videos| ==> videos[i].id != id
  {
    Find(videos, VideoIdIs(id))
  }

  /** `getCommentsByVideoId`: the comments on one video, in mirror order. */
  function CommentsByVideoId(comments: seq<Comment>, videoId: string): (r: seq<Comment>)
    ensures forall i :: 0 <= i < |r| ==> r[i] in comments && r[i].videoId == videoId
    ensures forall i :: 0 <= i < |comments| && comments[i].videoId == videoId ==> comments[i] in r
    ensures IsSubsequence(r, comments)
    ensures forall i :: 0 <= i < |comments| && comments[i].videoId == videoId ==>
      multiset(r)[comments[i]] == multiset(comments)[comments[i]]
  {
    FilterMembers(comments, CommentVideoIs(videoId));
    FilterKeepsMultiplicity(comments, CommentVideoIs(videoId));
    FilterIsSubsequence(comments, CommentVideoIs(videoId));
    Filter(comments, CommentVideoIs(videoId))
  }

  /** `isLiked`: false without a profile, else whether a like with (profile, video) exists. */
  function IsLiked(likes: seq<VideoLike>, profile: Option<Profile>, videoId: string): (r: bool)
    ensures r <==> (profile.Some? &&
      exists i :: 0 <= i < |likes| && likes[i].userId == profile.value.id && likes[i].videoId == videoId)
  {
    profile.Some? && Any(likes, LikeIs(profile.value.id, videoId))
  }

  /** `isSubscribed`: false without a profile, else whether (profile, tutor) is subscribed. */
  function IsSubscribed(subscriptions: seq<Subscription>, profile: Option<Profile>, tutorId: string): (r: bool)
    ensures r <==> (profile.Some? &&
      exists i :: 0 <= i < |subscriptions| && subscriptions[i].studentId == profile.value.id &&
        subscriptions[i].tutorId == tutorId)
  {
    profile.Some? && Any(subscriptions, SubscriptionIs(profile.value.id, tutorId))
  }

  /** `getSubscriptionCount`: the number of subscription rows naming the tutor, counted afresh. */
  function SubscriptionCount(subscriptions: seq<Subscription>, tutorId: string): (n: nat)
    ensures n <= |subscriptions|
    ensures n == 0 <==> forall i :: 0 <= i < |subscriptions| ==> subscriptions[i].tutorId != tutorId
  {
    Count(subscriptions, SubscriptionTutorIs(tutorId))
  }

  /** `getTutorVideos`: the tutor's videos, in mirror order. */
  function TutorVideos(videos: seq<Video>, tutorId: string): (r: seq<Video>)
    ensures forall i :: 0 <= i < |r| ==> r[i] in videos && r[i].tutorId == tutorId
    ensures forall i :: 0 <= i < |videos| && videos[i].tutorId == tutorId ==> videos[i] in r
    ensures IsSubsequence(r, videos)
    ensures forall i :: 0 <= i < |videos| && videos[i].tutorId == tutorId ==>
      multiset(r)[videos[i]] == multiset(videos)[videos[i]]
  {
    FilterMembers(videos, VideoTutorIs(tutorId));
    FilterKeepsMultiplicity(videos, VideoTutorIs(tutorId));
    FilterIsSubsequence(videos, VideoTutorIs(tutorId));
    Filter(videos, VideoTutorIs(tutorId))
  }

  // Mirror edits applied after a confirmed write.

  function FindLike(likes: seq<VideoLike>, userId: string, videoId: string): Option<VideoLike> {
    Find(likes, LikeIs(userId, videoId))
  }

  function FindSubscription(subscriptions: seq<Subscription>, studentId: string, tutorId: string): Option<Subscription> {
    Find(subscriptions, SubscriptionIs(studentId, tutorId))
  }

  function FindHistory(history: seq<VideoHistory>, userId: string, videoId: string): Option<VideoHistory> {
    Find(history, HistoryIs(userId, videoId))
  }

  /** `prev.filter(like => like.id !== id)`. */
  function WithoutLike(likes: seq<VideoLike>, id: string): seq<VideoLike> {
    Filter(likes, LikeIdIsNot(id))
  }

  /** `prev.filter(sub => sub.id !== id)`. */
  function WithoutSubscription(subscriptions: seq<Subscription>, id: string): seq<Subscription> {
    Filter(subscriptions, SubscriptionIdIsNot(id))
  }

  /** `prev.map(h => h.id === id ? row : h)`. */
  function ReplaceHistory(history: seq<VideoHistory>, id: string, row: VideoHistory): seq<VideoHistory> {
    seq(|history|, i requires 0 <= i < |history| => if history[i].id == id then row else history[i])
  }

  function Max0(x: int): int { if x < 0 then 0 else x }

  /** `x || d` for a number: 0 counts as false. */
  function NumberOr(x: int, d: int): int { if x != 0 then x else d }

  /** Every video with the id gains a like. */
  function IncrementLikes(videos: seq<Video>, videoId: string): seq<Video> {
    seq(|videos|, i requires 0 <= i < |videos| =>
      if videos[i].id == videoId then videos[i].(likes := videos[i].likes + 1) else videos[i])
  }

  /** Every video with the id loses a like, floored at zero. */
  function DecrementLikes(videos: seq<Video>, videoId: string): seq<Video> {
    seq(|videos|, i requires 0 <= i < |videos| =>
      if videos[i].id == videoId then videos[i].(likes := Max0(videos[i].likes - 1)) else videos[i])
  }

  /** Every video with the id gains a view. */
  function IncrementViews(videos: seq<Video>, videoId: string): seq<Video> {
    seq(|videos|, i requires 0 <= i < |videos| =>
      if videos[i].id == videoId then videos[i].(views := videos[i].views + 1) else videos[i])
  }

  /** The count written to the store when a like is removed: `max(0, (found?.likes || 1) - 1)`. */
  function LikesWrittenOnUnlike(videos: seq<Video>, videoId: string): int {
    var before := match GetVideoById(videos, videoId)
      case None => 1
      case Some(v) => NumberOr(v.likes, 1);
    Max0(before - 1)
  }

  /** The count written to the store when a like is added: `(found?.likes || 0) + 1`. */
  function LikesWrittenOnLike(videos: seq<Video>, videoId: string): int {
    var before := match GetVideoById(videos, videoId)
      case None => 0
      case Some(v) => NumberOr(v.likes, 0);
    before + 1
  }

  function AckFailure(a: Ack): Failure {
    match a
    case Acked => StoreError("")
    case Rejected(e) => StoreError(e)
  }

  /** `data || []`. */
  function RowsOf<T>(data: Option<seq<T>>): seq<T> {
    data.GetOr([])
  }

  // The operations as step functions.

  /** The profile row created on first sight of an identity. */
  function NewProfile(user: User, storedRole: Option<string>): ProfileDraft {
    ProfileDraft(user.id, PrimaryEmail(user), DisplayName(user), ProvisionedRole(user, storedRole), user.imageUrl)
  }

  /** `ensureUserProfile`: look up by external id; insert on a miss; an insert error yields null. */
  function ProvisionStep(user: Option<User>, storedRole: Option<string>, fetched: Reply<Profile>, created: Reply<Profile>): Provisioning {
    if user.None? then Provisioning(None, [])
    else if fetched.Ok? then Provisioning(Some(fetched.row), [])
    else
      var sent := [InsertProfile(NewProfile(user.value, storedRole))];
      match created
      case Failed(_) => Provisioning(None, sent)
      case Ok(p) => Provisioning(Some(p), sent)
  }

  /**
   * `loadData`: read videos, comments, likes, subscriptions and history
   * in that order, replacing each collection as soon as its read
   * succeeds; the first failed read ends the load, and the error is
   * swallowed.
   */
  function LoadStep(m: Mirror, fv: Fetch<Video>, fc: Fetch<Comment>, fl: Fetch<VideoLike>,
                    fs: Fetch<Subscription>, fh: Fetch<VideoHistory>): Mirror {
    if fv.FetchFailed? then m else
    var m1 := m.(videos := RowsOf(fv.data));
    if fc.FetchFailed? then m1 else
    var m2 := m1.(comments := RowsOf(fc.data));
    if fl.FetchFailed? then m2 else
    var m3 := m2.(likes := RowsOf(fl.data));
    if fs.FetchFailed? then m3 else
    var m4 := m3.(subscriptions := RowsOf(fs.data));
    if fh.FetchFailed? then m4 else
    m4.(history := RowsOf(fh.data))
  }

  /** `uploadVideo`: insert with the caller as owner, then put the returned row first. */
  function UploadVideoStep(m: Mirror, profile: Option<Profile>, video: VideoDraft, reply: Reply<Video>): Step {
    if profile.None? then Step(m, Threw(ProfileNotFound), [])
    else
      var sent := [InsertVideo(video, profile.value.id)];
      match reply
      case Failed(e) => Step(m, Threw(StoreError(e)), sent)
      case Ok(row) => Step(m.(videos := [row] + m.videos), Done, sent)
  }

  /** `addComment`: insert with the caller as author, then put the returned row first. */
  function AddCommentStep(m: Mirror, profile: Option<Profile>, videoId: string, content: string, reply: Reply<Comment>): Step {
    if profile.None? then Step(m, Threw(ProfileNotFound), [])
    else
      var sent := [InsertComment(videoId, profile.value.id, content)];
      match reply
      case Failed(e) => Step(m, Threw(StoreError(e)), sent)
      case Ok(row) => Step(m.(comments := [row] + m.comments), Done, sent)
  }

  /**
   * `toggleLike`: with an existing like, delete it, then write the
   * lowered count; otherwise insert one, then write the raised count.
   * Each mirror change follows the write it depends on.
   */
  function ToggleLikeStep(m: Mirror, profile: Option<Profile>, videoId: string,
                          deleteAck: Ack, insertReply: Reply<VideoLike>, counterAck: Ack): Step {
    if profile.None? then Step(m, Threw(ProfileNotFound), [])
    else
      var userId := profile.value.id;
      match FindLike(m.likes, userId, videoId)
      case Some(existing) =>
        var sent1 := [DeleteLike(existing.id)];
        if deleteAck.Rejected? then Step(m, Threw(AckFailure(deleteAck)), sent1)
        else
          var m1 := m.(likes := WithoutLike(m.likes, existing.id));
          var sent2 := sent1 + [SetVideoLikes(videoId, LikesWrittenOnUnlike(m.videos, videoId))];
          if counterAck.Rejected? then Step(m1, Threw(AckFailure(counterAck)), sent2)
          else Step(m1.(videos := DecrementLikes(m.videos, videoId)), Done, sent2)
      case None =>
        var sent1 := [InsertLike(userId, videoId)];
        match insertReply
        case Failed(e) => Step(m, Threw(StoreError(e)), sent1)
        case Ok(row) =>
          var m1 := m.(likes := m.likes + [row]);
          var sent2 := sent1 + [SetVideoLikes(videoId, LikesWrittenOnLike(m.videos, videoId))];
          if counterAck.Rejected? then Step(m1, Threw(AckFailure(counterAck)), sent2)
          else Step(m1.(videos := IncrementLikes(m.videos, videoId)), Done, sent2)
  }

  /** `toggleSubscription`: students only; delete the existing subscription or insert one. */
  function ToggleSubscriptionStep(m: Mirror, profile: Option<Profile>, tutorId: string,
                                  deleteAck: Ack, insertReply: Reply<Subscription>): Step {
    if profile.None? || profile.value.role != "student" then Step(m, Threw(OnlyStudents), [])
    else
      var studentId := profile.value.id;
      match FindSubscription(m.subscriptions, studentId, tutorId)
      case Some(existing) =>
        var sent := [DeleteSubscription(existing.id)];
        if deleteAck.Rejected? then Step(m, Threw(AckFailure(deleteAck)), sent)
        else Step(m.(subscriptions := WithoutSubscription(m.subscriptions, existing.id)), Done, sent)
      case None =>
        var sent := [InsertSubscription(studentId, tutorId)];
        match insertReply
        case Failed(e) => Step(m, Threw(StoreError(e)), sent)
        case Ok(row) => Step(m.(subscriptions := m.subscriptions + [row]), Done, sent)
  }

  /** The view bump that ends `addToHistory`: only for a mirrored video, and a failed write is ignored. */
  function BumpViews(m: Mirror, sent: seq<Request>, videos: seq<Video>, videoId: string, viewsAck: Ack): Step {
    match GetVideoById(videos, videoId)
    case None => Step(m, Done, sent)
    case Some(v) =>
      var sent' := sent + [SetVideoViews(videoId, v.views + 1)];
      if viewsAck.Acked? then Step(m.(videos := IncrementViews(m.videos, videoId)), Done, sent')
      else Step(m, Done, sent')
  }

  /**
   * `addToHistory`: silently nothing without a profile; otherwise
   * refresh the watch time of the existing (user, video) row in place,
   * or insert a row with progress 0 at the front; then bump the views.
   */
  function AddToHistoryStep(m: Mirror, profile: Option<Profile>, videoId: string, now: string,
                            updateReply: Reply<VideoHistory>, insertReply: Reply<VideoHistory>, viewsAck: Ack): Step {
    if profile.None? then Step(m, Done, [])
    else
      var userId := profile.value.id;
      match FindHistory(m.history, userId, videoId)
      case Some(existing) =>
        var sent := [SetHistoryWatchedAt(existing.id, now)];
        (match updateReply
         case Failed(e) => Step(m, Threw(StoreError(e)), sent)
         case Ok(row) => BumpViews(m.(history := ReplaceHistory(m.history, existing.id, row)), sent, m.videos, videoId, viewsAck))
      case None =>
        var sent := [InsertHistory(userId, videoId, 0)];
        match insertReply
        case Failed(e) => Step(m, Threw(StoreError(e)), sent)
        case Ok(row) => BumpViews(m.(history := [row] + m.history), sent, m.videos, videoId, viewsAck)
  }

  /** The engine's state: the mirror, the loading flag and the resolved profile. */
  class VideoProvider {
    var videos: seq<Video>
    var comments: seq<Comment>
    var likes: seq<VideoLike>
    var subscriptions: seq<Subscription>
    var videoHistory: seq<VideoHistory>
    var loading: bool
    var userProfile: Option<Profile>

    function State(): Mirror
      reads this
    {
      Mirror(videos, comments, likes, subscriptions, videoHistory)
    }

    /** A fresh session: empty mirror, loading, no profile. */
    constructor ()
      ensures State() == Mirror([], [], [], [], [])
      ensures loading && userProfile.None?
    {
      videos, comments, likes, subscriptions, videoHistory := [], [], [], [], [];
      loading := true;
      userProfile := None;
    }

    method EnsureUserProfile(user: Option<User>, storedRole: Option<string>, fetched: Reply<Profile>, created: Reply<Profile>)
      returns (profile: Option<Profile>, sent: seq<Request>)
      modifies this
      ensures Provisioning(profile, sent) == ProvisionStep(user, storedRole, fetched, created)
      ensures userProfile == if profile.Some? then profile else old(userProfile)
      ensures State() == old(State()) && loading == old(loading)
    {
      sent := [];
      if user.None? {
        return None, sent;
      }
      if fetched.Ok? {
        userProfile := Some(fetched.row);
        return userProfile, sent;
      }
      var draft := NewProfile(user.value, storedRole);
      sent := [InsertProfile(draft)];
      if created.Failed? {
        return None, sent;
      }
      userProfile := Some(created.row);
      profile := userProfile;
    }

    method LoadData(fv: Fetch<Video>, fc: Fetch<Comment>, fl: Fetch<VideoLike>,
                    fs: Fetch<Subscription>, fh: Fetch<VideoHistory>)
      modifies this
      ensures State() == LoadStep(old(State()), fv, fc, fl, fs, fh)
      ensures !loading && userProfile == old(userProfile)
    {
      loading := true;
      if fv.Fetched? {
        videos := RowsOf(fv.data);
        if fc.Fetched? {
          comments := RowsOf(fc.data);
          if fl.Fetched? {
            likes := RowsOf(fl.data);
            if fs.Fetched? {
              subscriptions := RowsOf(fs.data);
              if fh.Fetched? {
                videoHistory := RowsOf(fh.data);
              }
            }
          }
        }
      }
      loading := false;
    }

    /** `refreshData`: a full reload. */
    method RefreshData(fv: Fetch<Video>, fc: Fetch<Comment>, fl: Fetch<VideoLike>,
                       fs: Fetch<Subscription>, fh: Fetch<VideoHistory>)
      modifies this
      ensures State() == LoadStep(old(State()), fv, fc, fl, fs, fh)
      ensures !loading && userProfile == old(userProfile)
    {
      LoadData(fv, fc, fl, fs, fh);
    }

    method UploadVideo(video: VideoDraft, reply: Reply<Video>) returns (status: Status, sent: seq<Request>)
      modifies this
      ensures Step(State(), status, sent) == UploadVideoStep(old(State()), old(userProfile), video, reply)
      ensures userProfile == old(userProfile) && loading == old(loading)
    {
      if userProfile.None? {
        return Threw(ProfileNotFound), [];
      }
      sent := [InsertVideo(video, userProfile.value.id)];
      if reply.Failed? {
        return Threw(StoreError(reply.message)), sent;
      }
      videos := [reply.row] + videos;
      status := Done;
    }

    method AddComment(videoId: string, content: string, reply: Reply<Comment>) returns (status: Status, sent: seq<Request>)
      modifies this
      ensures Step(State(), status, sent) == AddCommentStep(old(State()), old(userProfile), videoId, content, reply)
      ensures userProfile == old(userProfile) && loading == old(loading)
    {
      if userProfile.None? {
        return Threw(ProfileNotFound), [];
      }
      sent := [InsertComment(videoId, userProfile.value.id, content)];
      if reply.Failed? {
        return Threw(StoreError(reply.message)), sent;
      }
      comments := [reply.row] + comments;
      status := Done;
    }

    method ToggleLike(videoId: string, deleteAck: Ack, insertReply: Reply<VideoLike>, counterAck: Ack)
      returns (status: Status, sent: seq<Request>)
      modifies this
      ensures Step(State(), status, sent) ==
        ToggleLikeStep(old(State()), old(userProfile), videoId, deleteAck, insertReply, counterAck)
      ensures userProfile == old(userProfile) && loading == old(loading)
    {
      if userProfile.None? {
        return Threw(ProfileNotFound), [];
      }
      var userId := userProfile.value.id;
      var existing := FindLike(likes, userId, videoId);
      if existing.Some? {
        sent := [DeleteLike(existing.value.id)];
        if deleteAck.Rejected? {
          return Threw(AckFailure(deleteAck)), sent;
        }
        likes := WithoutLike(likes, existing.value.id);
        sent := sent + [SetVideoLikes(videoId, LikesWrittenOnUnlike(videos, videoId))];
        if counterAck.Rejected? {
          return Threw(AckFailure(counterAck)), sent;
        }
        videos := DecrementLikes(videos, videoId);
      } else {
        sent := [InsertLike(userId, videoId)];
        if insertReply.Failed? {
          return Threw(StoreError(insertReply.message)), sent;
        }
        likes := likes + [insertReply.row];
        sent := sent + [SetVideoLikes(videoId, LikesWrittenOnLike(videos, videoId))];
        if counterAck.Rejected? {
          return Threw(AckFailure(counterAck)), sent;
        }
        videos := IncrementLikes(videos, videoId);
      }
      status := Done;
    }

    method ToggleSubscription(tutorId: string, deleteAck: Ack, insertReply: Reply<Subscription>)
      returns (status: Status, sent: seq<Request>)
      modifies this
      ensures Step(State(), status, sent) ==
        ToggleSubscriptionStep(old(State()), old(userProfile), tutorId, deleteAck, insertReply)
      ensures userProfile == old(userProfile) && loading == old(loading)
    {
      if userProfile.None? || userProfile.value.role != "student" {
        return Threw(OnlyStudents), [];
      }
      var studentId := userProfile.value.id;
      var existing := FindSubscription(subscriptions, studentId, tutorId);
      if existing.Some? {
        sent := [DeleteSubscription(existing.value.id)];
        if deleteAck.Rejected? {
          return Threw(AckFailure(deleteAck)), sent;
        }
        subscriptions := WithoutSubscription(subscriptions, existing.value.id);
      } else {
        sent := [InsertSubscription(studentId, tutorId)];
        if insertReply.Failed? {
          return Threw(StoreError(insertReply.message)), sent;
        }
        subscriptions := subscriptions + [insertReply.row];
      }
      status := Done;
    }

    method AddToHistory(videoId: string, now: string, updateReply: Reply<VideoHistory>,
                        insertReply: Reply<VideoHistory>, viewsAck: Ack)
      returns (status: Status, sent: seq<Request>)
      modifies this
      ensures Step(State(), status, sent) ==
        AddToHistoryStep(old(State()), old(userProfile), videoId, now, updateReply, insertReply, viewsAck)
      ensures userProfile == old(userProfile) && loading == old(loading)
    {
      if userProfile.None? {
        return Done, [];
      }
      var userId := userProfile.value.id;
      var existing := FindHistory(videoHistory, userId, videoId);
      if existing.Some? {
        sent := [SetHistoryWatchedAt(existing.value.id, now)];
        if updateReply.Failed? {
          return Threw(StoreError(updateReply.message)), sent;
        }
        videoHistory := ReplaceHistory(videoHistory, existing.value.id, updateReply.row);
      } else {
        sent := [InsertHistory(userId, videoId, 0)];
        if insertReply.Failed? {
          return Threw(StoreError(insertReply.message)), sent;
        }
        videoHistory := [insertReply.row] + videoHistory;
      }
      sent := BumpVideoViews(sent, videoId, viewsAck);
      status := Done;
    }

    /** The view bump that ends `addToHistory`, on the fields: `sent` grows by the write it issues. */
    method BumpVideoViews(before: seq<Request>, videoId: string, viewsAck: Ack) returns (sent: seq<Request>)
      modifies this
      ensures Step(State(), Done, sent) == BumpViews(old(State()), before, old(videos), videoId, viewsAck)
      ensures userProfile == old(userProfile) && loading == old(loading)
    {
      sent := before;
      var video := GetVideoById(videos, videoId);
      if video.Some? {
        sent := sent + [SetVideoViews(videoId, video.value.views + 1)];
        if viewsAck.Acked? {
          videos := IncrementViews(videos, videoId);
        }
      }
    }
  }
}
