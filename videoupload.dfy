/**
 * The tutor's upload form: field edits, the checks applied to a chosen
 * video or thumbnail file, clearing a choice, and the submit sequence
 * (guards, video upload, thumbnail upload from one of three sources,
 * saving the video through the session engine).
 *
 * The form's state is a `Form` value; each handler is a pure step
 * function on it, and the `UploadForm` class holds the same state in
 * fields, with one method per handler proved to follow its step.
 */
module VideoUpload {
  import opened Wrappers
  import opened Seqs
  import opened Strings
  import opened Supabase
  import opened Identity
  import opened VideoContext

  const MaxVideoBytes: int := 500 * 1024 * 1024
  const MaxThumbnailBytes: int := 10 * 1024 * 1024

  const InvalidVideoMessage := "Please select a valid video file"
  const VideoTooLargeMessage := "Video file size must be less than 500MB"
  const InvalidThumbnailMessage := "Please select a valid image file for thumbnail"
  const ThumbnailTooLargeMessage := "Thumbnail file size must be less than 10MB"
  const NotLoggedInMessage := "You must be logged in to upload videos"
  const RequiredFieldsMessage := "Please fill in all required fields"
  const NoVideoMessage := "Please select a video file"
  const UploadFailedMessage := "Failed to upload video. Please try again."

  const DefaultThumbnailUrl := "https://images.pexels.com/photos/1114690/pexels-photo-1114690.jpeg?auto=compress&cs=tinysrgb&w=800"
  const DefaultDuration := 1800
  const DashboardPath := "/dashboard"

  /** The file a generated preview is uploaded as; its size does not affect the request. */
  const GeneratedThumbnail := File("thumbnail.jpg", "image/jpeg", 0)

  const Categories := ["Programming", "Design", "Business", "Science", "Language", "Other"]

  /** The text fields a change event can name. */
  datatype Field = Title | Description | Category | Tags

  /** Everything the form holds. */
  datatype Form = Form(
    title: string, description: string, category: string, tags: string,
    videoFile: Option<File>, thumbnailFile: Option<File>,
    videoPreview: string, thumbnailPreview: string,
    isUploading: bool, uploadProgress: int, error: string, videoDuration: int)

  const InitialForm := Form("", "", "Programming", "", None, None, "", "", false, 0, "", 0)

  // File checks and small decisions.

  /** Why a chosen video file is refused: the type is checked before the size. */
  function VideoFileError(file: File): (r: Option<string>)
    ensures r.None? <==> StartsWith(file.mimeType, "video/") && file.size <= MaxVideoBytes
    ensures !StartsWith(file.mimeType, "video/") ==> r == Some(InvalidVideoMessage)
    ensures StartsWith(file.mimeType, "video/") && file.size > MaxVideoBytes ==> r == Some(VideoTooLargeMessage)
  {
    if !StartsWith(file.mimeType, "video/") then Some(InvalidVideoMessage)
    else if file.size > MaxVideoBytes then Some(VideoTooLargeMessage)
    else None
  }

  /** Why a chosen thumbnail is refused: the type is checked before the size. */
  function ThumbnailFileError(file: File): (r: Option<string>)
    ensures r.None? <==> StartsWith(file.mimeType, "image/") && file.size <= MaxThumbnailBytes
    ensures !StartsWith(file.mimeType, "image/") ==> r == Some(InvalidThumbnailMessage)
    ensures StartsWith(file.mimeType, "image/") && file.size > MaxThumbnailBytes ==> r == Some(ThumbnailTooLargeMessage)
  {
    if !StartsWith(file.mimeType, "image/") then Some(InvalidThumbnailMessage)
    else if file.size > MaxThumbnailBytes then Some(ThumbnailTooLargeMessage)
    else None
  }

  /** Each comma-separated piece, trimmed. */
  function TrimAll(pieces: seq<string>): (r: seq<string>)
    ensures |r| == |pieces| && forall i :: 0 <= i < |pieces| ==> r[i] == Trim(pieces[i])
  {
    seq(|pieces|, i requires 0 <= i < |pieces| => Trim(pieces[i]))
  }

  function NonEmpty(s: string): bool { s != "" }

  /** `tags.split(',').map(tag => tag.trim()).filter(tag => tag)`. */
  function ParseTags(tags: string): (r: seq<string>)
    ensures forall i :: 0 <= i < |r| ==> r[i] != ""
    ensures IsSubsequence(r, TrimAll(Split(tags, ',')))
    ensures var pieces := Split(tags, ',');
      forall i :: 0 <= i < |pieces| && Trim(pieces[i]) != "" ==> Trim(pieces[i]) in r
    ensures multiset(r) <= multiset(TrimAll(Split(tags, ',')))
    ensures var pieces := Split(tags, ',');
      forall i :: 0 <= i < |pieces| && Trim(pieces[i]) != "" ==>
        multiset(r)[Trim(pieces[i])] == multiset(TrimAll(pieces))[Trim(pieces[i])]
  {
    var pieces := Split(tags, ',');
    TagsKept(pieces);
    FilterIsSubsequence(TrimAll(pieces), NonEmpty);
    Filter(TrimAll(pieces), NonEmpty)
  }

  /** Filtering the trimmed pieces keeps every non-empty one, as often as it occurs. */
  lemma TagsKept(pieces: seq<string>)
    ensures var r := Filter(TrimAll(pieces), NonEmpty);
      forall i :: 0 <= i < |pieces| && Trim(pieces[i]) != "" ==> Trim(pieces[i]) in r
    ensures var r := Filter(TrimAll(pieces), NonEmpty);
      multiset(r) <= multiset(TrimAll(pieces))
    ensures var r := Filter(TrimAll(pieces), NonEmpty);
      forall i :: 0 <= i < |pieces| && Trim(pieces[i]) != "" ==>
        multiset(r)[Trim(pieces[i])] == multiset(TrimAll(pieces))[Trim(pieces[i])]
  {
    var trimmed := TrimAll(pieces);
    FilterMembers(trimmed, NonEmpty);
    FilterKeepsMultiplicity(trimmed, NonEmpty);
  }

  /** A tag written twice is kept twice. */
  lemma RepeatedTagsAreKept()
    ensures ParseTags("a, a") == ["a", "a"]
  {
    SplitTwoTags();
    TrimTwoTags();
    var trimmed := TrimAll(["a", " a"]);
    assert trimmed[1..] == ["a"] && trimmed[1..][1..] == [];
    assert Filter(trimmed, NonEmpty) == ["a", "a"];
  }

  lemma SplitTwoTags()
    ensures Split("a, a", ',') == ["a", " a"]
  {
    assert "a, a" == "a" + [','] + " a";
    SplitAroundOne("a", " a", ',');
  }

  lemma TrimTwoTags()
    ensures TrimAll(["a", " a"]) == ["a", "a"]
  {
    assert IsSpace(' ') && !IsSpace('a');
    assert TrimStart("a") == "a";
    assert " a"[1..] == "a";
    assert TrimStart(" a") == "a";
    assert TrimEnd("a") == "a";
    var r := TrimAll(["a", " a"]);
    assert r[0] == Trim("a") && r[1] == Trim(" a");
  }

  /** `videoDuration || 1800`: an unknown (zero) duration becomes 30 minutes. */
  function DurationOrDefault(duration: int): (r: int)
    ensures r != 0
    ensures duration != 0 ==> r == duration
    ensures duration == 0 ==> r == DefaultDuration
  {
    if duration != 0 then duration else DefaultDuration
  }

  /** Where the submitted thumbnail comes from. */
  datatype ThumbnailChoice = SelectedFile(file: File) | GeneratedPreview(url: string) | DefaultImage

  /** The selected file first, then a generated preview, then the fixed default image. */
  function ThumbnailSource(f: Form): ThumbnailChoice {
    if f.thumbnailFile.Some? then SelectedFile(f.thumbnailFile.value)
    else if f.thumbnailPreview != "" then GeneratedPreview(f.thumbnailPreview)
    else DefaultImage
  }

  /** The form is offered only when the resolved role is exactly "tutor"; there is no default role here. */
  predicate FormShown(user: Option<User>, storedRole: Option<string>) {
    RoleIs(user, storedRole, "tutor")
  }

  // The handlers as step functions.

  /** `handleChange`: one named field takes the new value. */
  function ChangeStep(f: Form, field: Field, value: string): Form {
    match field
    case Title => f.(title := value)
    case Description => f.(description := value)
    case Category => f.(category := value)
    case Tags => f.(tags := value)
  }

  /**
   * `handleVideoSelect`: no file does nothing; a refused file sets the
   * error and nothing else; an accepted one is kept with its preview and
   * the error cleared; then a known duration is stored, and, when no
   * thumbnail file is chosen, a generated preview replaces the
   * thumbnail preview. A failed duration read skips the thumbnail too.
   */
  function VideoSelectStep(f: Form, file: Option<File>, previewUrl: string,
                           duration: Option<int>, generated: Option<string>): Form {
    if file.None? then f
    else match VideoFileError(file.value)
      case Some(e) => f.(error := e)
      case None =>
        var f1 := f.(videoFile := file, videoPreview := previewUrl, error := "");
        if duration.None? then f1
        else
          var f2 := f1.(videoDuration := duration.value);
          if f.thumbnailFile.None? && generated.Some? then f2.(thumbnailPreview := generated.value) else f2
  }

  /** `handleThumbnailSelect`: the same checks with the image limits. */
  function ThumbnailSelectStep(f: Form, file: Option<File>, previewUrl: string): Form {
    if file.None? then f
    else match ThumbnailFileError(file.value)
      case Some(e) => f.(error := e)
      case None => f.(thumbnailFile := file, thumbnailPreview := previewUrl, error := "")
  }

  function RemoveVideoStep(f: Form): Form {
    f.(videoFile := None, videoPreview := "", videoDuration := 0)
  }

  function RemoveThumbnailStep(f: Form): Form {
    f.(thumbnailFile := None, thumbnailPreview := "")
  }

  /**
   * The result of a submit: the final form, the storage uploads issued
   * in order, the values `uploadProgress` took in order, the session
   * engine's step when the video was handed to it, and the page
   * navigated to.
   */
  datatype Submission = Submission(
    form: Form, uploads: seq<UploadRequest>, progress: seq<int>,
    engine: Option<VideoContext.Step>, navigateTo: Option<string>)

  /** The video record saved for a completed upload. */
  function DraftOf(f: Form, thumbnailUrl: string, videoUrl: string): VideoDraft {
    VideoDraft(f.title, f.description, f.category, ParseTags(f.tags), thumbnailUrl, videoUrl,
               DurationOrDefault(f.videoDuration))
  }

  /** The thumbnail upload the choice issues, and the URL it yields. */
  function ThumbnailUpload(c: ThumbnailChoice, userId: string, now: nat, reply: StorageReply): (seq<UploadRequest>, Reply<string>) {
    match c
    case SelectedFile(file) =>
      var req := ThumbnailUploadRequest(file, userId, now);
      ([req], UploadFile(req, reply))
    case GeneratedPreview(_) =>
      var req := ThumbnailUploadRequest(GeneratedThumbnail, userId, now);
      ([req], UploadFile(req, reply))
    case DefaultImage => ([], Ok(DefaultThumbnailUrl))
  }

  /**
   * `handleSubmit`: clear the error; stop with a message when there is
   * no user, then when title or description is empty, then when no
   * video is chosen; otherwise upload the video, then the thumbnail,
   * then save the record through the engine, and go to the dashboard.
   * Any failure on the way sets the generic failure message; the
   * uploading flag and the progress are reset in every case.
   */
  function SubmitStep(f: Form, user: Option<User>, nowVideo: nat, nowThumbnail: nat,
                      videoReply: StorageReply, thumbnailReply: StorageReply,
                      m: Mirror, profile: Option<Profile>, saveReply: Reply<Video>): Submission {
    match SubmitGuard(f, user)
    case Some(message) => Submission(f.(error := message), [], [], None, None)
    case None =>
      var userId := user.value.id;
      var videoRequest := VideoUploadRequest(f.videoFile.value, userId, nowVideo);
      match UploadFile(videoRequest, videoReply)
      case Failed(_) => Submission(SettledWithError(f), [videoRequest], [0, 25, 0], None, None)
      case Ok(videoUrl) =>
        var thumbnail := ThumbnailUpload(ThumbnailSource(f), userId, nowThumbnail, thumbnailReply);
        var uploads := [videoRequest] + thumbnail.0;
        match thumbnail.1
        case Failed(_) => Submission(SettledWithError(f), uploads, [0, 25, 50, 0], None, None)
        case Ok(url) =>
          var step := UploadVideoStep(m, profile, DraftOf(f, url, videoUrl), saveReply);
          if step.status.Threw? then Submission(SettledWithError(f), uploads, [0, 25, 50, 75, 0], Some(step), None)
          else Submission(Settled(f), uploads, [0, 25, 50, 75, 100, 0], Some(step), Some(DashboardPath))
  }

  /** The first guard of `handleSubmit` that fails, in order: user, required fields, video file. */
  function SubmitGuard(f: Form, user: Option<User>): (r: Option<string>)
    ensures r.None? <==> user.Some? && f.title != "" && f.description != "" && f.videoFile.Some?
    ensures user.None? ==> r == Some(NotLoggedInMessage)
    ensures user.Some? && (f.title == "" || f.description == "") ==> r == Some(RequiredFieldsMessage)
    ensures user.Some? && f.title != "" && f.description != "" && f.videoFile.None? ==> r == Some(NoVideoMessage)
  {
    if user.None? then Some(NotLoggedInMessage)
    else if f.title == "" || f.description == "" then Some(RequiredFieldsMessage)
    else if f.videoFile.None? then Some(NoVideoMessage)
    else None
  }

  /** The form after an upload attempt ends: no error, no longer uploading, progress reset. */
  function Settled(f: Form): Form {
    f.(error := "", isUploading := false, uploadProgress := 0)
  }

  /** The form after an upload attempt fails. */
  function SettledWithError(f: Form): Form {
    Settled(f).(error := UploadFailedMessage)
  }

  /** The upload form's state, held in fields. */
  class UploadForm {
    var title: string
    var description: string
    var category: string
    var tags: string
    var videoFile: Option<File>
    var thumbnailFile: Option<File>
    var videoPreview: string
    var thumbnailPreview: string
    var isUploading: bool
    var uploadProgress: int
    var error: string
    var videoDuration: int

    function State(): Form
      reads this
    {
      Form(title, description, category, tags, videoFile, thumbnailFile, videoPreview, thumbnailPreview,
           isUploading, uploadProgress, error, videoDuration)
    }

    constructor ()
      ensures State() == InitialForm
    {
      title, description, category, tags := "", "", "Programming", "";
      videoFile, thumbnailFile := None, None;
      videoPreview, thumbnailPreview := "", "";
      isUploading, uploadProgress, error, videoDuration := false, 0, "", 0;
    }

    method HandleChange(field: Field, value: string)
      modifies this
      ensures State() == ChangeStep(old(State()), field, value)
    {
      match field
      case Title => title := value;
      case Description => description := value;
      case Category => category := value;
      case Tags => tags := value;
    }

    /** `duration` and `generated` are the outcomes of the two media probes; None when a probe failed. */
    method HandleVideoSelect(file: Option<File>, previewUrl: string, duration: Option<int>, generated: Option<string>)
      modifies this
      ensures State() == VideoSelectStep(old(State()), file, previewUrl, duration, generated)
    {
      if file.None? {
        return;
      }
      var problem := VideoFileError(file.value);
      if problem.Some? {
        error := problem.value;
        return;
      }
      videoFile := file;
      videoPreview := previewUrl;
      error := "";
      if duration.Some? {
        videoDuration := duration.value;
        if thumbnailFile.None? && generated.Some? {
          thumbnailPreview := generated.value;
        }
      }
    }

    method HandleThumbnailSelect(file: Option<File>, previewUrl: string)
      modifies this
      ensures State() == ThumbnailSelectStep(old(State()), file, previewUrl)
    {
      if file.None? {
        return;
      }
      var problem := ThumbnailFileError(file.value);
      if problem.Some? {
        error := problem.value;
        return;
      }
      thumbnailFile := file;
      thumbnailPreview := previewUrl;
      error := "";
    }

    method RemoveVideo()
      modifies this
      ensures State() == RemoveVideoStep(old(State()))
    {
      videoFile := None;
      videoPreview := "";
      videoDuration := 0;
    }

    method RemoveThumbnail()
      modifies this
      ensures State() == RemoveThumbnailStep(old(State()))
    {
      thumbnailFile := None;
      thumbnailPreview := "";
    }

    /** Submits the form, handing the finished record to `store`; the storage answers are parameters. */
    method HandleSubmit(user: Option<User>, nowVideo: nat, nowThumbnail: nat,
                        videoReply: StorageReply, thumbnailReply: StorageReply,
                        store: VideoProvider, saveReply: Reply<Video>)
      returns (uploads: seq<UploadRequest>, progress: seq<int>, navigateTo: Option<string>)
      modifies this, store
      ensures var r := SubmitStep(old(State()), user, nowVideo, nowThumbnail, videoReply, thumbnailReply,
                                  old(store.State()), old(store.userProfile), saveReply);
        State() == r.form && uploads == r.uploads && progress == r.progress && navigateTo == r.navigateTo &&
        store.State() == (if r.engine.Some? then r.engine.value.mirror else old(store.State()))
      ensures store.userProfile == old(store.userProfile) && store.loading == old(store.loading)
    {
      uploads, progress, navigateTo := [], [], None;
      var form := State();
      var problem := SubmitGuard(form, user);
      if problem.Some? {
        error := problem.value;
        return;
      }
      var userId := user.value.id;
      isUploading := true;
      uploadProgress := 0;
      uploadProgress := 25;
      var videoRequest := VideoUploadRequest(videoFile.value, userId, nowVideo);
      uploads := [videoRequest];
      var videoUrl := UploadFile(videoRequest, videoReply);
      if videoUrl.Failed? {
        Finish(form, true);
        progress := [0, 25, 0];
        return;
      }
      uploadProgress := 50;
      var thumbnail := ThumbnailUpload(ThumbnailSource(form), userId, nowThumbnail, thumbnailReply);
      uploads := uploads + thumbnail.0;
      if thumbnail.1.Failed? {
        Finish(form, true);
        progress := [0, 25, 50, 0];
        return;
      }
      uploadProgress := 75;
      var status, sent := store.UploadVideo(DraftOf(form, thumbnail.1.row, videoUrl.row), saveReply);
      if status.Done? {
        uploadProgress := 100;
        navigateTo := Some(DashboardPath);
        progress := [0, 25, 50, 75, 100, 0];
      } else {
        progress := [0, 25, 50, 75, 0];
      }
      Finish(form, status.Threw?);
    }

    /** The `catch`/`finally` of a started upload: back to `form` with the flag and progress reset. */
    method Finish(form: Form, failed: bool)
      modifies this
      ensures State() == if failed then SettledWithError(form) else Settled(form)
    {
      var settled := if failed then SettledWithError(form) else Settled(form);
      title, description, category, tags := settled.title, settled.description, settled.category, settled.tags;
      videoFile, thumbnailFile := settled.videoFile, settled.thumbnailFile;
      videoPreview, thumbnailPreview := settled.videoPreview, settled.thumbnailPreview;
      isUploading, uploadProgress := settled.isUploading, settled.uploadProgress;
      error, videoDuration := settled.error, settled.videoDuration;
    }
  }

  // Properties of the form.

  /** The size limits are inclusive: exactly 500 MiB (10 MiB for images) passes, one byte more does not. */
  lemma SizeLimitsAreInclusive(name: string, mimeType: string)
    ensures MaxVideoBytes == 524288000 && MaxThumbnailBytes == 10485760
    ensures StartsWith(mimeType, "video/") ==>
      VideoFileError(File(name, mimeType, MaxVideoBytes)).None? &&
      VideoFileError(File(name, mimeType, MaxVideoBytes + 1)) == Some(VideoTooLargeMessage)
    ensures StartsWith(mimeType, "image/") ==>
      ThumbnailFileError(File(name, mimeType, MaxThumbnailBytes)).None? &&
      ThumbnailFileError(File(name, mimeType, MaxThumbnailBytes + 1)) == Some(ThumbnailTooLargeMessage)
  {
  }

  /**
   * A refused video sets its message and changes nothing else; an
   * accepted one is kept with its preview, clears the error, keeps the
   * text fields and the chosen thumbnail file, records a known
   * duration, and takes a generated preview only when no thumbnail file
   * is chosen.
   */
  lemma VideoSelectChecksBeforeKeeping(f: Form, file: File, previewUrl: string, duration: Option<int>, generated: Option<string>)
    ensures var g := VideoSelectStep(f, Some(file), previewUrl, duration, generated);
      (VideoFileError(file).Some? ==> g == f.(error := VideoFileError(file).value)) &&
      (VideoFileError(file).None? ==>
        g.videoFile == Some(file) && g.videoPreview == previewUrl && g.error == "" &&
        g.(videoFile := f.videoFile, videoPreview := f.videoPreview, error := f.error,
           videoDuration := f.videoDuration, thumbnailPreview := f.thumbnailPreview) == f &&
        g.videoDuration == (if duration.Some? then duration.value else f.videoDuration) &&
        g.thumbnailPreview ==
          (if duration.Some? && f.thumbnailFile.None? && generated.Some? then generated.value else f.thumbnailPreview))
    ensures VideoSelectStep(f, None, previewUrl, duration, generated) == f
  {
  }

  /** A refused thumbnail sets its message and changes nothing else; an accepted one is kept with its preview. */
  lemma ThumbnailSelectChecksBeforeKeeping(f: Form, file: File, previewUrl: string)
    ensures var g := ThumbnailSelectStep(f, Some(file), previewUrl);
      (ThumbnailFileError(file).Some? ==> g == f.(error := ThumbnailFileError(file).value)) &&
      (ThumbnailFileError(file).None? ==>
        g == f.(thumbnailFile := Some(file), thumbnailPreview := previewUrl, error := ""))
    ensures ThumbnailSelectStep(f, None, previewUrl) == f
  {
  }

  /**
   * Removing a video right after choosing it, on a form with no video,
   * restores the form apart from the cleared error and a thumbnail
   * preview the choice may have generated.
   */
  lemma RemoveVideoUndoesSelect(f: Form, file: File, previewUrl: string, duration: Option<int>, generated: Option<string>)
    requires f.videoFile.None? && f.videoPreview == "" && f.videoDuration == 0
    requires VideoFileError(file).None?
    ensures var g := VideoSelectStep(f, Some(file), previewUrl, duration, generated);
      RemoveVideoStep(g) == f.(error := "", thumbnailPreview := g.thumbnailPreview)
  {
  }

  /**
   * A failing guard sets its message, uploads nothing and saves
   * nothing; the messages come in the order user, required fields,
   * video file.
   */
  lemma SubmitGuardsComeFirst(f: Form, user: Option<User>, nowVideo: nat, nowThumbnail: nat,
                              videoReply: StorageReply, thumbnailReply: StorageReply,
                              m: Mirror, profile: Option<Profile>, saveReply: Reply<Video>)
    requires SubmitGuard(f, user).Some?
    ensures var r := SubmitStep(f, user, nowVideo, nowThumbnail, videoReply, thumbnailReply, m, profile, saveReply);
      r == Submission(f.(error := SubmitGuard(f, user).value), [], [], None, None)
  {
  }

  /**
   * Past the guards, the video is uploaded first to the videos bucket
   * under the signed-in identity; then the thumbnail by priority: the
   * chosen file, else the generated preview as "thumbnail.jpg", else no
   * upload at all. A failed video upload stops before the thumbnail.
   */
  lemma SubmitUploadsInOrder(f: Form, user: Option<User>, nowVideo: nat, nowThumbnail: nat,
                             videoReply: StorageReply, thumbnailReply: StorageReply,
                             m: Mirror, profile: Option<Profile>, saveReply: Reply<Video>)
    requires SubmitGuard(f, user).None?
    ensures var r := SubmitStep(f, user, nowVideo, nowThumbnail, videoReply, thumbnailReply, m, profile, saveReply);
      var userId := user.value.id;
      var first := VideoUploadRequest(f.videoFile.value, userId, nowVideo);
      (videoReply.StorageFailed? ==> r.uploads == [first] && r.engine.None? && r.navigateTo.None?) &&
      (videoReply.Stored? ==>
        match ThumbnailSource(f)
        case SelectedFile(file) => r.uploads == [first, ThumbnailUploadRequest(file, userId, nowThumbnail)]
        case GeneratedPreview(_) => r.uploads == [first, ThumbnailUploadRequest(GeneratedThumbnail, userId, nowThumbnail)]
        case DefaultImage => r.uploads == [first])
  {
    if videoReply.Stored? {
      SubmitThenUploadsThumbnail(f, user, nowVideo, nowThumbnail, videoReply, thumbnailReply, m, profile, saveReply);
      var r := SubmitStep(f, user, nowVideo, nowThumbnail, videoReply, thumbnailReply, m, profile, saveReply);
      ThumbnailRequests(r.uploads, VideoUploadRequest(f.videoFile.value, user.value.id, nowVideo), ThumbnailSource(f),
                        user.value.id, nowThumbnail, thumbnailReply);
    } else {
      SubmitStopsOnFailedVideo(f, user, nowVideo, nowThumbnail, videoReply, thumbnailReply, m, profile, saveReply);
    }
  }

  /** A submit past the guards whose video upload fails sends only the video's request and stops. */
  lemma SubmitStopsOnFailedVideo(f: Form, user: Option<User>, nowVideo: nat, nowThumbnail: nat,
                                 videoReply: StorageReply, thumbnailReply: StorageReply,
                                 m: Mirror, profile: Option<Profile>, saveReply: Reply<Video>)
    requires SubmitGuard(f, user).None? && videoReply.StorageFailed?
    ensures var r := SubmitStep(f, user, nowVideo, nowThumbnail, videoReply, thumbnailReply, m, profile, saveReply);
      r.uploads == [VideoUploadRequest(f.videoFile.value, user.value.id, nowVideo)] && r.engine.None? && r.navigateTo.None?
  {
    assert UploadFile(VideoUploadRequest(f.videoFile.value, user.value.id, nowVideo), videoReply).Failed?;
  }

  /** A submit past the guards whose video is stored sends the video's request, then the thumbnail's. */
  lemma SubmitThenUploadsThumbnail(f: Form, user: Option<User>, nowVideo: nat, nowThumbnail: nat,
                                   videoReply: StorageReply, thumbnailReply: StorageReply,
                                   m: Mirror, profile: Option<Profile>, saveReply: Reply<Video>)
    requires SubmitGuard(f, user).None? && videoReply.Stored?
    ensures SubmitStep(f, user, nowVideo, nowThumbnail, videoReply, thumbnailReply, m, profile, saveReply).uploads ==
      [VideoUploadRequest(f.videoFile.value, user.value.id, nowVideo)] +
      ThumbnailUpload(ThumbnailSource(f), user.value.id, nowThumbnail, thumbnailReply).0
  {
    var first := VideoUploadRequest(f.videoFile.value, user.value.id, nowVideo);
    assert UploadFile(first, videoReply) == Ok(PublicUrl(VideosBucket, videoReply.path));
  }

  /** The video's request followed by the thumbnail's, which go by priority: the chosen file, else the generated preview, else none. */
  lemma ThumbnailRequests(uploads: seq<UploadRequest>, first: UploadRequest, c: ThumbnailChoice, userId: string, now: nat,
                          reply: StorageReply)
    requires uploads == [first] + ThumbnailUpload(c, userId, now, reply).0
    ensures match c
      case SelectedFile(file) => uploads == [first, ThumbnailUploadRequest(file, userId, now)]
      case GeneratedPreview(_) => uploads == [first, ThumbnailUploadRequest(GeneratedThumbnail, userId, now)]
      case DefaultImage => uploads == [first]
  {
  }

  /**
   * Once past the guards, the uploading flag and the progress always
   * end reset, and the form either leaves for the dashboard or shows
   * the generic failure message.
   */
  lemma SubmitAlwaysSettles(f: Form, user: Option<User>, nowVideo: nat, nowThumbnail: nat,
                            videoReply: StorageReply, thumbnailReply: StorageReply,
                            m: Mirror, profile: Option<Profile>, saveReply: Reply<Video>)
    requires SubmitGuard(f, user).None?
    ensures var r := SubmitStep(f, user, nowVideo, nowThumbnail, videoReply, thumbnailReply, m, profile, saveReply);
      !r.form.isUploading && r.form.uploadProgress == 0 &&
      (r.navigateTo.None? <==> r.form.error == UploadFailedMessage) &&
      (r.navigateTo.Some? ==> r.form.error == "" && r.navigateTo == Some(DashboardPath))
  {
  }

  /**
   * When both uploads succeed, the record handed to the engine carries
   * the form's text, the parsed tags, the stored URLs (or the default
   * image) and the duration with its default; the dashboard is opened
   * exactly when the engine saved it.
   */
  lemma SubmitSavesRecord(f: Form, user: Option<User>, nowVideo: nat, nowThumbnail: nat,
                          videoReply: StorageReply, thumbnailReply: StorageReply,
                          m: Mirror, profile: Option<Profile>, saveReply: Reply<Video>)
    requires SubmitGuard(f, user).None? && videoReply.Stored?
    requires ThumbnailSource(f).DefaultImage? || thumbnailReply.Stored?
    ensures var r := SubmitStep(f, user, nowVideo, nowThumbnail, videoReply, thumbnailReply, m, profile, saveReply);
      var thumbnailUrl := if ThumbnailSource(f).DefaultImage? then DefaultThumbnailUrl else PublicUrl(ThumbnailsBucket, thumbnailReply.path);
      var draft := VideoDraft(f.title, f.description, f.category, ParseTags(f.tags), thumbnailUrl,
                              PublicUrl(VideosBucket, videoReply.path), DurationOrDefault(f.videoDuration));
      r.engine == Some(UploadVideoStep(m, profile, draft, saveReply)) &&
      (r.navigateTo == Some(DashboardPath) <==> profile.Some? && saveReply.Ok?)
  {
    var userId := user.value.id;
    var videoRequest := VideoUploadRequest(f.videoFile.value, userId, nowVideo);
    var videoUrl := PublicUrl(VideosBucket, videoReply.path);
    assert UploadFile(videoRequest, videoReply) == Ok(videoUrl);
    var thumbnailUrl := if ThumbnailSource(f).DefaultImage? then DefaultThumbnailUrl else PublicUrl(ThumbnailsBucket, thumbnailReply.path);
    var thumbnail := ThumbnailUpload(ThumbnailSource(f), userId, nowThumbnail, thumbnailReply);
    assert thumbnail.1 == Ok(thumbnailUrl);
    var step := UploadVideoStep(m, profile, DraftOf(f, thumbnailUrl, videoUrl), saveReply);
    assert step.status.Threw? <==> profile.None? || saveReply.Failed?;
  }

  /**
   * Public metadata decides first; a self-declared student never sees
   * the form, and with no role signal at all the form is not shown
   * either (there is no default here).
   */
  lemma UploadFormOnlyForTutors(user: User, storedRole: Option<string>)
    ensures user.publicRole == Some("tutor") ==> FormShown(Some(user), storedRole)
    ensures user.publicRole == Some("student") ==> !FormShown(Some(user), storedRole)
    ensures !Truthy(user.publicRole) && !Truthy(user.unsafeRole) && !Truthy(storedRole) ==> !FormShown(Some(user), storedRole)
    ensures FormShown(None, storedRole) <==> storedRole == Some("tutor")
  {
  }
  /**
   * The form agrees with the profile the engine provisions from the same
   * signals: where it is shown, that profile is a tutor's; a provisioned
   * tutor always sees it, since the engine's default is `"student"`.
   */
  lemma FormAgreesWithProvisionedRole(user: User, storedRole: Option<string>)
    ensures FormShown(Some(user), storedRole) <==> ProvisionedRole(user, storedRole) == "tutor"
  {
  }
}
