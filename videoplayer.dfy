/**
 * The video page: what it derives from the session engine for one
 * video id (the video, its comments, the liked and subscribed flags,
 * the subscriber count, fallback names), and its three handlers
 * (posting a comment, toggling a like, toggling a subscription), which
 * guard and then call into the engine.
 */
module VideoPlayer {
  import opened Wrappers
  import opened Strings
  import opened Supabase
  import opened Identity
  import opened VideoContext

  const UnknownTutor := "Unknown Tutor"
  const UnknownUser := "Unknown User"

  /** What the page renders: a spinner while loading, a not-found notice, or the player. */
  datatype Page = Spinner | NotFound | Player(video: Video)

  /** `id ? getVideoById(id) : undefined`: none without an id, the empty id included. */
  function ShownVideo(videos: seq<Video>, id: Option<string>): (r: Option<Video>)
    ensures r.None? <==> !Truthy(id) || forall i :: 0 <= i < |videos| ==> videos[i].id != id.value
    ensures r.Some? ==> exists i :: (0 <= i < |videos| && videos[i] == r.value && videos[i].id == id.value &&
      forall j :: 0 <= j < i ==> videos[j].id != id.value)
  {
    if !Truthy(id) then None else GetVideoById(videos, id.value)
  }

  function PageFor(loading: bool, video: Option<Video>): Page {
    if loading then Spinner
    else if video.None? then NotFound
    else Player(video.value)
  }

  /** `isVideoLiked`: false without a signed-in user or a non-empty id. */
  function VideoLikedFlag(likes: seq<VideoLike>, profile: Option<Profile>, user: Option<User>, id: Option<string>): (r: bool)
    ensures r <==> (user.Some? && Truthy(id) && profile.Some? &&
      exists l :: l in likes && l.userId == profile.value.id && l.videoId == id.value)
  {
    if user.Some? && Truthy(id) then IsLiked(likes, profile, id.value) else false
  }

  /** `isUserSubscribed`: false without a signed-in user or a video. */
  function UserSubscribedFlag(subscriptions: seq<Subscription>, profile: Option<Profile>, user: Option<User>, video: Option<Video>): (r: bool)
    ensures r <==> (user.Some? && video.Some? && profile.Some? &&
      exists s :: s in subscriptions && s.studentId == profile.value.id && s.tutorId == video.value.tutorId)
  {
    if user.Some? && video.Some? then IsSubscribed(subscriptions, profile, video.value.tutorId) else false
  }

  /** `subscriberCount`: the owner's subscriber count, and 0 when the video is missing. */
  function ShownSubscriberCount(subscriptions: seq<Subscription>, video: Option<Video>): (n: nat)
    ensures n <= |subscriptions|
    ensures n == 0 <==> video.None? || forall s :: s in subscriptions ==> s.tutorId != video.value.tutorId
    ensures video.Some? ==> n == SubscriptionCount(subscriptions, video.value.tutorId)
  {
    if video.Some? then SubscriptionCount(subscriptions, video.value.tutorId) else 0
  }

  /** `name || fallback` over an optional joined profile. */
  function NameOr(p: Option<Profile>, fallback: string): string {
    if p.Some? && p.value.name != "" then p.value.name else fallback
  }

  function TutorName(v: Video): string { NameOr(v.tutor, UnknownTutor) }

  function AuthorName(c: Comment): string { NameOr(c.user, UnknownUser) }

  /** The author badge: the first letter of the name, else "U". */
  function AuthorInitial(c: Comment): (r: string)
    ensures |r| == 1
    ensures c.user.Some? && c.user.value.name != "" ==> r == [c.user.value.name[0]]
    ensures (c.user.None? || c.user.value.name == "") ==> r == "U"
  {
    if c.user.Some? && c.user.value.name != "" then [c.user.value.name[0]] else "U"
  }

  /** The subscribe button is rendered only when the resolved role is "student". */
  predicate SubscribeButtonShown(user: Option<User>, storedRole: Option<string>) {
    RoleIs(user, storedRole, "student")
  }

  /** The comment button is enabled for non-blank text when no post is in flight. */
  function CommentButtonEnabled(comment: string, isSubmitting: bool): (enabled: bool)
    ensures enabled <==> !isSubmitting && exists i :: 0 <= i < |comment| && !IsSpace(comment[i])
  {
    Trim(comment) != "" && !isSubmitting
  }

  /** The comment box's state. */
  datatype CommentBox = CommentBox(comment: string, isSubmitting: bool)

  /** The effect of a comment submit: the new box and the engine's step when it was called. */
  datatype CommentSubmission = CommentSubmission(box: CommentBox, engine: Option<VideoContext.Step>)

  /**
   * `handleCommentSubmit`: nothing without a user or with blank text;
   * otherwise the trimmed text goes to the engine; the box is cleared
   * only when the engine succeeded, and the in-flight flag ends false
   * either way (an engine error is caught).
   */
  function CommentSubmitStep(box: CommentBox, user: Option<User>, videoId: string,
                             m: Mirror, profile: Option<Profile>, reply: Reply<Comment>): CommentSubmission {
    if user.None? || Trim(box.comment) == "" then CommentSubmission(box, None)
    else
      var step := AddCommentStep(m, profile, videoId, Trim(box.comment), reply);
      var text := if step.status.Done? then "" else box.comment;
      CommentSubmission(CommentBox(text, false), Some(step))
  }

  /** `handleLike`: the engine's toggle, only with a signed-in user. */
  function LikeStep(user: Option<User>, videoId: string, m: Mirror, profile: Option<Profile>,
                    deleteAck: Ack, insertReply: Reply<VideoLike>, counterAck: Ack): Option<VideoContext.Step> {
    if user.None? then None
    else Some(ToggleLikeStep(m, profile, videoId, deleteAck, insertReply, counterAck))
  }

  /** `handleSubscribe`: the engine's toggle, only with a signed-in user whose resolved role is "student". */
  function SubscribeStep(user: Option<User>, storedRole: Option<string>, tutorId: string, m: Mirror, profile: Option<Profile>,
                         deleteAck: Ack, insertReply: Reply<Subscription>): Option<VideoContext.Step> {
    if user.Some? && SelectedRole(user, storedRole) == Some("student")
    then Some(ToggleSubscriptionStep(m, profile, tutorId, deleteAck, insertReply))
    else None
  }

  /** The mirror after a handler: the engine's, or the old one when the engine was not called. */
  function MirrorAfter(old_: Mirror, engine: Option<VideoContext.Step>): Mirror {
    if engine.Some? then engine.value.mirror else old_
  }

  /** The page's own state, and the handlers acting on it and on the engine. */
  class PlayerState {
    var comment: string
    var isSubmittingComment: bool

    function Box(): CommentBox
      reads this
    {
      CommentBox(comment, isSubmittingComment)
    }

    constructor ()
      ensures Box() == CommentBox("", false)
    {
      comment, isSubmittingComment := "", false;
    }

    /** The text area's change event. */
    method SetComment(text: string)
      modifies this
      ensures Box() == old(Box()).(comment := text)
    {
      comment := text;
    }

    method HandleCommentSubmit(user: Option<User>, videoId: string, store: VideoProvider, reply: Reply<Comment>)
      returns (sent: seq<Request>)
      modifies this, store
      ensures var r := CommentSubmitStep(old(Box()), user, videoId, old(store.State()), old(store.userProfile), reply);
        Box() == r.box && store.State() == MirrorAfter(old(store.State()), r.engine) &&
        sent == (if r.engine.Some? then r.engine.value.sent else [])
      ensures store.userProfile == old(store.userProfile) && store.loading == old(store.loading)
    {
      sent := [];
      var text := Trim(comment);
      if user.None? || text == "" {
        return;
      }
      isSubmittingComment := true;
      var status;
      status, sent := store.AddComment(videoId, text, reply);
      if status.Done? {
        comment := "";
      }
      isSubmittingComment := false;
    }

    /** Engine errors are caught, so the status is dropped. */
    method HandleLike(user: Option<User>, videoId: string, store: VideoProvider,
                      deleteAck: Ack, insertReply: Reply<VideoLike>, counterAck: Ack)
      returns (sent: seq<Request>)
      modifies store
      ensures var e := LikeStep(user, videoId, old(store.State()), old(store.userProfile), deleteAck, insertReply, counterAck);
        store.State() == MirrorAfter(old(store.State()), e) && sent == (if e.Some? then e.value.sent else [])
      ensures store.userProfile == old(store.userProfile) && store.loading == old(store.loading)
    {
      sent := [];
      if user.Some? {
        var status;
        status, sent := store.ToggleLike(videoId, deleteAck, insertReply, counterAck);
      }
    }

    method HandleSubscribe(user: Option<User>, storedRole: Option<string>, tutorId: string, store: VideoProvider,
                           deleteAck: Ack, insertReply: Reply<Subscription>)
      returns (sent: seq<Request>)
      modifies store
      ensures var e := SubscribeStep(user, storedRole, tutorId, old(store.State()), old(store.userProfile), deleteAck, insertReply);
        store.State() == MirrorAfter(old(store.State()), e) && sent == (if e.Some? then e.value.sent else [])
      ensures store.userProfile == old(store.userProfile) && store.loading == old(store.loading)
    {
      sent := [];
      if user.Some? && SelectedRole(user, storedRole) == Some("student") {
        var status;
        status, sent := store.ToggleSubscription(tutorId, deleteAck, insertReply);
      }
    }
  }

  // Properties of the page.

  /**
   * A comment reaches the engine only with a user and non-blank text,
   * and then as the trimmed, non-empty text; the box is cleared exactly
   * when the engine stored the comment, and the in-flight flag is off
   * afterwards.
   */
  lemma CommentSubmitSendsTrimmedText(box: CommentBox, user: Option<User>, videoId: string,
                                      m: Mirror, profile: Option<Profile>, reply: Reply<Comment>)
    ensures var r := CommentSubmitStep(box, user, videoId, m, profile, reply);
      (r.engine.None? <==> user.None? || forall i :: 0 <= i < |box.comment| ==> IsSpace(box.comment[i])) &&
      (r.engine.None? ==> r.box == box) &&
      (r.engine.Some? ==>
        !r.box.isSubmitting &&
        (r.box.comment == "" <==> r.engine.value.status.Done? || box.comment == "") &&
        (profile.Some? ==> r.engine.value.sent == [InsertComment(videoId, profile.value.id, Trim(box.comment))]) &&
        Trim(box.comment) != "")
  {
  }

  /** Without a user the like and subscribe handlers leave the engine alone; only students reach the subscription toggle. */
  lemma HandlersGuardTheEngine(user: Option<User>, storedRole: Option<string>, id: string, m: Mirror, profile: Option<Profile>,
                               deleteAck: Ack, insertReply: Reply<VideoLike>, counterAck: Ack, subscriptionReply: Reply<Subscription>)
    ensures LikeStep(None, id, m, profile, deleteAck, insertReply, counterAck).None?
    ensures user.Some? ==> (LikeStep(user, id, m, profile, deleteAck, insertReply, counterAck) ==
      Some(ToggleLikeStep(m, profile, id, deleteAck, insertReply, counterAck)))
    ensures SubscribeStep(user, storedRole, id, m, profile, deleteAck, subscriptionReply).Some? <==>
      user.Some? && SubscribeButtonShown(user, storedRole)
  {
  }

  /** The derived flags are false, and the count 0, when there is nothing to derive them from. */
  lemma FlagsDefaultWhenMissing(m: Mirror, profile: Option<Profile>, user: Option<User>, id: Option<string>)
    ensures (user.None? || !Truthy(id)) ==> !VideoLikedFlag(m.likes, profile, user, id)
    ensures ShownVideo(m.videos, id).None? ==>
      !UserSubscribedFlag(m.subscriptions, profile, user, ShownVideo(m.videos, id)) &&
      ShownSubscriberCount(m.subscriptions, ShownVideo(m.videos, id)) == 0
    ensures profile.None? ==> !VideoLikedFlag(m.likes, profile, user, id)
  {
  }
  /**
   * The page shows the spinner while loading; after that, the player on
   * the first mirrored video with the route's id, and the not-found
   * notice exactly when there is no id or no such video.
   */
  lemma PageShowsTheRoutedVideo(loading: bool, videos: seq<Video>, id: Option<string>)
    ensures loading ==> PageFor(loading, ShownVideo(videos, id)) == Spinner
    ensures !loading ==> (PageFor(loading, ShownVideo(videos, id)) == NotFound <==>
      !Truthy(id) || forall i :: 0 <= i < |videos| ==> videos[i].id != id.value)
    ensures PageFor(loading, ShownVideo(videos, id)).Player? ==>
      var v := PageFor(loading, ShownVideo(videos, id)).video;
      !loading && Truthy(id) && v.id == id.value && v in videos &&
      exists i :: 0 <= i < |videos| && videos[i] == v && forall j :: 0 <= j < i ==> videos[j].id != id.value
  {
  }

  /**
   * The names shown are never blank: the joined name when it has one,
   * else the fallback; the comment badge is always the first letter of
   * the author name shown beside it.
   */
  lemma FallbackNamesNeverBlank(v: Video, c: Comment)
    ensures TutorName(v) != "" && AuthorName(c) != ""
    ensures v.tutor.Some? && v.tutor.value.name != "" ==> TutorName(v) == v.tutor.value.name
    ensures (v.tutor.None? || v.tutor.value.name == "") ==> TutorName(v) == UnknownTutor
    ensures c.user.Some? && c.user.value.name != "" ==> AuthorName(c) == c.user.value.name
    ensures (c.user.None? || c.user.value.name == "") ==> AuthorName(c) == UnknownUser
    ensures AuthorInitial(c) == [AuthorName(c)[0]]
  {
  }

  /**
   * The subscribe button agrees with the engine's own gate: for a profile
   * provisioned from the same role signals, the button is shown exactly
   * when the engine lets the toggle through, except that with no role
   * signal at all the engine's `"student"` default opens the gate while
   * the button stays hidden.
   */
  lemma SubscribeButtonMatchesEngineGate(user: User, storedRole: Option<string>, profile: Profile,
                                         m: Mirror, tutorId: string, deleteAck: Ack, insertReply: Reply<Subscription>)
    requires profile.role == ProvisionedRole(user, storedRole)
    ensures var gateShut := ToggleSubscriptionStep(m, Some(profile), tutorId, deleteAck, insertReply).status == Threw(OnlyStudents);
      && (SubscribeButtonShown(Some(user), storedRole) ==> !gateShut)
      && (SelectedRole(Some(user), storedRole).Some? ==> (SubscribeButtonShown(Some(user), storedRole) <==> !gateShut))
      && (SelectedRole(Some(user), storedRole).None? ==> !SubscribeButtonShown(Some(user), storedRole) && !gateShut)
  {
  }
}
