# Learn: a Dafny model of the video-learning client

Learn is a browser client for a video-learning platform. Tutors upload
lessons. Students browse them, watch, like and comment on them, and
subscribe to tutors. All persistent data lives in a hosted Postgres
store with file storage, reached through its client library. Sign-in is
handled by an external identity provider.

This project models the client's core:

- **The session engine** (`VideoProvider`). It provisions the signed-in
  person's profile and loads five collections into an in-memory mirror:
  videos, comments, likes, subscriptions and watch history. It then runs
  the mutations: upload a video, add a comment, toggle a like, toggle a
  subscription, record a watch. Each mutation writes to the store first
  and patches the mirror only after the store confirms.
  - Module `VideoContext` holds the engine as a class whose fields are
    the mirror.
  - Each method is proved equal to a pure step function, which returns
    the new mirror, the outcome (done, or thrown with a reason) and the
    remote writes issued, in order.
  - Module `VideoContextProperties` proves the behavioural properties
    about those step functions.
- **Storage naming and the upload error contract** (module `Supabase`),
  together with the row types of the store.
- **The upload form** (module `VideoUpload`, class `UploadForm`) and
  **the video page** (module `VideoPlayer`, class `PlayerState`). These
  guard their inputs, then call into the engine.
- **The two dashboards** (modules `StudentDashboard` and
  `TutorDashboard`), **the video card's text** (module `VideoCard`) and
  **the top-level role dispatch and route table** (module `App`).
- **Shared building blocks.**
  - Module `Identity` resolves a role from the identity provider's
    metadata and the locally cached `userRole`.
  - Modules `Seqs` and `Strings` model the JavaScript array and string
    operations the code relies on: `filter`, `find`, `some`, `reduce`,
    `slice`, `split`, `trim`, `toLowerCase`, `includes`, `padStart` and
    number-to-string.

## How the outside world is modelled

- Every answer from the remote store is a parameter of the operation
  that receives it, so the model covers each failure path exactly:
  - `Reply<T>` is a selected-back row or an error;
  - `Ack` is an acknowledgement or an error;
  - `Fetch<T>` is the rows (possibly null) or an error;
  - `StorageReply` is the path of the stored object or an error.
- Other external inputs are parameters too:
  - the clock reading used in storage paths;
  - the timestamp sent as `watched_at`;
  - the locally stored role;
  - the signed-in identity.
- Each engine method also returns the sequence of writes it issued.
  This is how the model states that a counter write comes only after
  its row write has been confirmed.

## Behaviour of the code worth knowing

- **The bulk load replaces collections one by one.**
  - It goes in the order videos, comments, likes, subscriptions,
    history.
  - A failed read keeps every collection that was already replaced, and
    leaves the rest as they were.
  - See `LoadReplacesAPrefix`.
- **Recording a watch bumps views only conditionally.**
  - Views are bumped only when the video is in the mirror.
  - A failed view write is swallowed, so the call still returns
    normally (`AddToHistoryBumpsViews`).
- **Provisioning does not throw.** A failed profile insert resolves to
  "no profile" instead of an error (`ProvisioningFindsBeforeCreating`).
- **The two student tabs do not filter by user.**
  - The history tab uses every history row in the mirror, whoever it
    belongs to.
  - The subscriptions tab uses every subscription row, whichever
    student holds it.
  - See `HistoryVideos` and `SubscribedVideos`.

## Model

| member | source | states |
|---|---|---|
| Supabase.UploadFile | src/lib/supabase.ts:13-30 | A URL is returned exactly when storage accepted the file. It is the public-object URL of the path the store reports, in the bucket the request named. A storage error is passed on with its message. |
| Supabase.PublicUrlsIdentifyObjects | src/lib/supabase.ts:25-27 | For bucket names without a slash, two public URLs are equal exactly when their buckets and paths are. |
| Supabase.VideoAndThumbnailUrlsDiffer | src/lib/supabase.ts:25-42 | Even for the same stored path, a video's URL and a thumbnail's URL differ. |
| Supabase.FileExtIsTextAfterLastDot | src/lib/supabase.ts:33 | The extension is the text after the last dot. It contains no dot, and it is the whole name when the name has no dot. |
| Supabase.StoragePathParts | src/lib/supabase.ts:32-42 | A storage path splits back into the owner id as its first segment and the clock reading as decimal digits, followed by the extension. |
| Supabase.UploadRequestsDifferOnlyInBucket | src/lib/supabase.ts:16-42 | Videos go to the `videos` bucket and thumbnails to the `thumbnails` bucket, under the same path scheme. Neither upload overwrites an existing object. |
| Identity.FirstTruthy | src/App.tsx:28-30 | The result is the first non-empty signal in order, and none exactly when every signal is empty. |
| Identity.SelectedRole | src/App.tsx:28-30 | Public metadata first, then unsafe metadata, then the stored role. There is no default. |
| Identity.ProvisionedRole | src/contexts/VideoContext.tsx:68-71 | The same precedence as `SelectedRole`, with `"student"` when no signal is set. The result is never empty. |
| Identity.DisplayName | src/contexts/VideoContext.tsx:76 | The first name when it is non-empty. Otherwise the primary e-mail when it is non-empty. Otherwise `"User"`. The result is never empty. |
| VideoContext.GetVideoById | src/contexts/VideoContext.tsx:357 | The first video with that id, or none exactly when no video has that id. |
| VideoContext.CommentsByVideoId | src/contexts/VideoContext.tsx:358 | Exactly the comments on that video, in mirror order. Each is kept as often as it occurs in the mirror. |
| VideoContext.IsLiked | src/contexts/VideoContext.tsx:359 | False without a profile. Otherwise true exactly when some like pairs the profile with the video. |
| VideoContext.IsSubscribed | src/contexts/VideoContext.tsx:360 | False without a profile. Otherwise true exactly when some subscription pairs the profile with the tutor. |
| VideoContext.SubscriptionCount | src/contexts/VideoContext.tsx:361 | The number of subscription rows naming the tutor. It is 0 exactly when there are none. |
| VideoContext.TutorVideos | src/contexts/VideoContext.tsx:362 | Exactly the tutor's videos, in mirror order. Each is kept as often as it occurs in the mirror. |
| VideoContext.VideoProvider.constructor | src/contexts/VideoContext.tsx:42-48 | Every collection starts empty, loading is on, and there is no profile. |
| VideoContext.VideoProvider.EnsureUserProfile | src/contexts/VideoContext.tsx:51-98 | Follows the provisioning step. The profile field is set only when a profile was found or created. The mirror is untouched. |
| VideoContext.VideoProvider.LoadData | src/contexts/VideoContext.tsx:101-159 | The new mirror is the load step of the old mirror and the five fetch outcomes. Loading ends false. |
| VideoContext.VideoProvider.RefreshData | src/contexts/VideoContext.tsx:364-366 | The same as `LoadData`. |
| VideoContext.VideoProvider.UploadVideo | src/contexts/VideoContext.tsx:172-190 | The new mirror, the outcome and the writes are those of the upload step. The profile and the loading flag are unchanged. |
| VideoContext.VideoProvider.AddComment | src/contexts/VideoContext.tsx:192-211 | The new mirror, the outcome and the writes are those of the comment step. |
| VideoContext.VideoProvider.ToggleLike | src/contexts/VideoContext.tsx:213-267 | The new mirror, the outcome and the writes are those of the like-toggle step. |
| VideoContext.VideoProvider.ToggleSubscription | src/contexts/VideoContext.tsx:269-301 | The new mirror, the outcome and the writes are those of the subscription-toggle step. |
| VideoContext.VideoProvider.AddToHistory | src/contexts/VideoContext.tsx:303-355 | The new mirror, the outcome and the writes are those of the watch-recording step. |
| VideoContextProperties.ProvisioningFindsBeforeCreating | src/contexts/VideoContext.tsx:51-98 | Without a user: nothing is written and there is no profile. A found profile is used, with no write. Otherwise exactly one insert is sent, carrying the identity id and the provisioned role. A failed insert gives no profile. |
| VideoContextProperties.LoadedCount | src/contexts/VideoContext.tsx:114-152 | Counts the reads that succeeded before the first failure. All five are counted exactly when every read succeeded. |
| VideoContextProperties.LoadReplacesAPrefix | src/contexts/VideoContext.tsx:101-159 | Exactly the collections read before the first failure are replaced, a null answer empties its collection, and the rest keep their contents. |
| VideoContextProperties.UploadVideoPrepends | src/contexts/VideoContext.tsx:172-190 | No profile: a throw with no write. Otherwise one insert owned by the profile. On success the returned row goes first and the old list follows. On error the mirror is unchanged. No other collection changes. |
| VideoContextProperties.AddCommentPrepends | src/contexts/VideoContext.tsx:192-211 | Like the upload, for comments. The content is sent exactly as given. |
| VideoContextProperties.ToggleLikeAdds | src/contexts/VideoContext.tsx:241-266 | Add branch, in order: insert, then counter write. An insert error changes nothing. The like is appended and the counter written with the mirror's count plus one. Only a confirmed counter write bumps the videos. |
| VideoContextProperties.ToggleLikeRemoves | src/contexts/VideoContext.tsx:216-240 | Remove branch: delete by id, then write the lowered counter, which is at least 0. A rejected counter write leaves the like gone but the counts unchanged. |
| VideoContextProperties.ToggleLikeKeepsCountsNonNegative | src/contexts/VideoContext.tsx:232-239 | Like counts stay non-negative. |
| VideoContextProperties.StoredLikesAgreeWithMirror | src/contexts/VideoContext.tsx:229-266 | The counter value written to the store equals the count the mirror then shows for that video. |
| VideoContextProperties.ToggleLikeKeepsLikesWellFormed | src/contexts/VideoContext.tsx:213-267 | There stays at most one like per (user, video), and like ids stay distinct. |
| VideoContextProperties.ToggleLikeFlipsIsLiked | src/contexts/VideoContext.tsx:213-267 | A confirmed membership write flips `isLiked`. Otherwise the call throws with the mirror unchanged. |
| VideoContextProperties.ToggleLikeTwiceRestores | src/contexts/VideoContext.tsx:213-267 | Like then unlike, all writes confirmed, restores the whole mirror. |
| VideoContextProperties.ToggleSubscriptionGatedToggle | src/contexts/VideoContext.tsx:269-301 | Only a student profile passes, and anyone else gets the error with no write. Past the gate the subscription is deleted by id or appended. A store error changes nothing. Only subscriptions ever change. |
| VideoContextProperties.ToggleSubscriptionKeepsWellFormed | src/contexts/VideoContext.tsx:269-301 | There stays at most one row per (student, tutor), and ids stay distinct. |
| VideoContextProperties.ToggleSubscriptionFlipsAndCounts | src/contexts/VideoContext.tsx:269-301 | A confirmed toggle flips `isSubscribed` and moves that tutor's count by one. Every other tutor's count is unchanged. |
| VideoContextProperties.ReplaceHistoryInPlace | src/contexts/VideoContext.tsx:321-323 | With distinct ids, the replacement by id changes only that row's index. |
| VideoContextProperties.AddToHistoryUpserts | src/contexts/VideoContext.tsx:303-340 | No profile: silent, and nothing is written. An existing row has its watch time set and is replaced in place. Otherwise a row with progress 0 is inserted at the front. A store error throws with no change. |
| VideoContextProperties.AddToHistoryBumpsViews | src/contexts/VideoContext.tsx:342-354 | Views are written, as the mirrored count plus one, only after a confirmed history write and for a video in the mirror. A failed view write is swallowed. |
| VideoContextProperties.AddToHistoryKeepsWellFormed | src/contexts/VideoContext.tsx:303-340 | There stays at most one history row per (user, video), and ids stay distinct. |
| VideoContextProperties.AddToHistoryTwice | src/contexts/VideoContext.tsx:303-355 | Watching twice leaves one history row for the pair, at the front, and two view bumps. |
| VideoContextProperties.ViewsTwice | src/contexts/VideoContext.tsx:350-352 | Two view bumps add two views to each video with that id and change nothing else. |
| VideoContextProperties.FirstWatch | src/contexts/VideoContext.tsx:325-353 | A first watch with every write confirmed puts the returned row first and bumps the views. |
| VideoContextProperties.SecondWatch | src/contexts/VideoContext.tsx:311-353 | A repeat watch with every write confirmed replaces the row and bumps the views again. |
| VideoUpload.VideoFileError | src/components/Upload/VideoUpload.tsx:51-63 | A file is accepted exactly when it has a `video/` type and at most 500 MiB. The type is checked first, then the size, each with its exact message. |
| VideoUpload.ThumbnailFileError | src/components/Upload/VideoUpload.tsx:91-103 | The same as `VideoFileError`, for `image/` types and 10 MiB. |
| VideoUpload.SizeLimitsAreInclusive | src/components/Upload/VideoUpload.tsx:57-98 | Exactly the limit passes, and one byte more is refused. |
| VideoUpload.ParseTags | src/components/Upload/VideoUpload.tsx:176 | No empty tags. The tags are an order-preserving subsequence of the trimmed pieces. Every non-blank piece is kept as often as it occurs. |
| VideoUpload.RepeatedTagsAreKept | src/components/Upload/VideoUpload.tsx:176 | `"a, a"` gives two tags `"a"`, so repeats are not merged. |
| VideoUpload.DurationOrDefault | src/components/Upload/VideoUpload.tsx:179 | An unknown (zero) duration becomes 1800. Any other duration is kept. |
| VideoUpload.FormAgreesWithProvisionedRole | src/components/Upload/VideoUpload.tsx:35-37 | The form is shown exactly when the profile provisioned from the same role signals is a tutor's. |
| VideoUpload.UploadFormOnlyForTutors | src/components/Upload/VideoUpload.tsx:35-37 | Public metadata decides first. With no role signal, the form is not shown. |
| VideoUpload.SubmitGuard | src/components/Upload/VideoUpload.tsx:129-142 | The guards run in order: user, then title and description, then video file. It passes exactly when all three hold. |
| VideoUpload.UploadForm.constructor | src/components/Upload/VideoUpload.tsx:16-30 | The initial form. |
| VideoUpload.UploadForm.HandleChange | src/components/Upload/VideoUpload.tsx:39-44 | One named field takes the new value. |
| VideoUpload.UploadForm.HandleVideoSelect | src/components/Upload/VideoUpload.tsx:46-84 | The new form is the video-select step of the old form. |
| VideoUpload.UploadForm.HandleThumbnailSelect | src/components/Upload/VideoUpload.tsx:86-106 | The new form is the thumbnail-select step of the old form. |
| VideoUpload.UploadForm.RemoveVideo | src/components/Upload/VideoUpload.tsx:108-115 | The video, its preview and its duration are cleared. |
| VideoUpload.UploadForm.RemoveThumbnail | src/components/Upload/VideoUpload.tsx:117-123 | The thumbnail and its preview are cleared. |
| VideoUpload.UploadForm.HandleSubmit | src/components/Upload/VideoUpload.tsx:125-199 | The form, the uploads, the progress trace and the navigation are those of the submit step. The engine's mirror is the one its upload produced. |
| VideoUpload.UploadForm.Finish | src/components/Upload/VideoUpload.tsx:192-198 | After a started upload: the generic message on failure, and the uploading flag and progress reset. |
| VideoUpload.VideoSelectChecksBeforeKeeping | src/components/Upload/VideoUpload.tsx:46-84 | A refused file sets only the error. An accepted file is kept and clears the error. A generated preview is taken only when no thumbnail file is chosen. |
| VideoUpload.ThumbnailSelectChecksBeforeKeeping | src/components/Upload/VideoUpload.tsx:86-106 | A refused file sets only the error. An accepted file is kept with its preview. |
| VideoUpload.RemoveVideoUndoesSelect | src/components/Upload/VideoUpload.tsx:46-115 | Removing a video just chosen restores the form, apart from the error and any generated preview. |
| VideoUpload.SubmitGuardsComeFirst | src/components/Upload/VideoUpload.tsx:127-142 | A failing guard sets its message, uploads nothing and saves nothing. |
| VideoUpload.SubmitUploadsInOrder | src/components/Upload/VideoUpload.tsx:148-167 | The video is uploaded first, then the thumbnail by priority. A failed video upload stops the submit. |
| VideoUpload.SubmitAlwaysSettles | src/components/Upload/VideoUpload.tsx:183-198 | Flag and progress are reset, and the form either opens the dashboard or shows the failure message. |
| VideoUpload.SubmitSavesRecord | src/components/Upload/VideoUpload.tsx:172-191 | The saved record carries the form's fields, the parsed tags, the stored URLs and the defaulted duration. The dashboard opens exactly when the engine saved the record. |
| VideoPlayer.ShownVideo | src/components/Video/VideoPlayer.tsx:37 | The first mirrored video carrying the route's id. None exactly when there is no non-empty id or no video has it. An empty id counts as no id. |
| VideoPlayer.PageShowsTheRoutedVideo | src/components/Video/VideoPlayer.tsx:54-76 | A spinner while loading. After that, not-found exactly when there is no non-empty id or no video has it. Otherwise the player on the first mirrored video with that id. |
| VideoPlayer.VideoLikedFlag | src/components/Video/VideoPlayer.tsx:39 | True exactly with a user, a non-empty id and a profile, and some like row pairing that profile with that video. |
| VideoPlayer.UserSubscribedFlag | src/components/Video/VideoPlayer.tsx:40 | True exactly with a user, a video and a profile, and some subscription row pairing that profile with the video's tutor. |
| VideoPlayer.ShownSubscriberCount | src/components/Video/VideoPlayer.tsx:41 | At most the number of subscription rows. It is 0 exactly when there is no video or no row names its tutor. Otherwise it is the engine's count for that tutor. |
| VideoPlayer.FallbackNamesNeverBlank | src/components/Video/VideoPlayer.tsx:168-265 | The tutor and author names shown are never blank. Each is the joined name when there is one, else `Unknown Tutor` or `Unknown User`. The comment badge is always the first letter of the author name shown. |
| VideoPlayer.AuthorInitial | src/components/Video/VideoPlayer.tsx:261 | One character. It is the first letter of the joined name when there is one, otherwise `U`. |
| VideoPlayer.SubscribeButtonMatchesEngineGate | src/components/Video/VideoPlayer.tsx:44-46 | Take a profile provisioned from the same signals. Where a role signal is set, the button is shown exactly when the engine would let the subscription toggle through. With no signal, the button stays hidden although the engine's `"student"` default would admit the toggle. |
| VideoPlayer.CommentButtonEnabled | src/components/Video/VideoPlayer.tsx:246 | Enabled exactly when no post is in flight and the text has a non-space character. |
| VideoPlayer.PlayerState.constructor | src/components/Video/VideoPlayer.tsx:34-35 | Empty text, and no post in flight. |
| VideoPlayer.PlayerState.SetComment | src/components/Video/VideoPlayer.tsx:239 | Only the text changes. |
| VideoPlayer.PlayerState.HandleCommentSubmit | src/components/Video/VideoPlayer.tsx:98-111 | The box, the engine mirror and the writes are those of the comment-submit step. |
| VideoPlayer.PlayerState.HandleLike | src/components/Video/VideoPlayer.tsx:78-86 | The engine toggles only with a user. Errors are swallowed. |
| VideoPlayer.PlayerState.HandleSubscribe | src/components/Video/VideoPlayer.tsx:88-96 | The engine toggles only for a signed-in student. Errors are swallowed. |
| VideoPlayer.CommentSubmitSendsTrimmedText | src/components/Video/VideoPlayer.tsx:98-111 | The engine is called exactly with a user and non-blank text, with the trimmed text. The box is cleared exactly when the comment was stored. The flag ends off. |
| VideoPlayer.HandlersGuardTheEngine | src/components/Video/VideoPlayer.tsx:78-96 | No user means no like toggle. The subscription toggle is reached exactly when the subscribe button is shown. |
| VideoPlayer.FlagsDefaultWhenMissing | src/components/Video/VideoPlayer.tsx:39-41 | The flags are false and the count is 0 when their inputs are missing. |
| StudentDashboard.FilteredVideos | src/components/Dashboard/StudentDashboard.tsx:16-22 | An order-preserving subsequence, holding exactly the videos matching both search and category, each as often as in the mirror. `"all"` imposes no category. |
| StudentDashboard.EmptySearchShowsEverything | src/components/Dashboard/StudentDashboard.tsx:16-22 | The empty search with `"all"` shows every video, in order. |
| StudentDashboard.VerbatimTextMatches | src/components/Dashboard/StudentDashboard.tsx:17-19 | A search text that occurs in the title, description or tutor name matches. |
| StudentDashboard.SearchIgnoresCase | src/components/Dashboard/StudentDashboard.tsx:17-19 | Lower-casing the search text changes nothing. |
| StudentDashboard.HistoryVideos | src/components/Dashboard/StudentDashboard.tsx:25-26 | Exactly the videos some history row points at, in mirror order, each as often as in the mirror. |
| StudentDashboard.SubscribedVideos | src/components/Dashboard/StudentDashboard.tsx:29-30 | Exactly the videos of tutors named by any subscription row, in mirror order, each as often as in the mirror. |
| StudentDashboard.TabsListEachVideoOnce | src/components/Dashboard/StudentDashboard.tsx:16-30 | With distinct ids in the mirror, no tab repeats a video. |
| TutorDashboard.UserProfileId | src/components/Dashboard/TutorDashboard.tsx:32-33 | The owner id of the first video the user owns, and none exactly when the user owns none. |
| TutorDashboard.ShownTutorVideos | src/components/Dashboard/TutorDashboard.tsx:35 | Empty without a non-empty profile id. Otherwise exactly the videos with that owner id, in order, each as often as in the mirror. |
| TutorDashboard.RoundedAverage | src/components/Dashboard/TutorDashboard.tsx:177-183 | 0 for no videos. Otherwise the integer nearest to total/count, with halves rounded up. Non-negative for a non-negative total. |
| TutorDashboard.FiguresOf | src/components/Dashboard/TutorDashboard.tsx:32-39 | Total views, likes and comments are the sums of each shown video's views, likes and comment count. The subscriber count is 0 without a profile id. Recent activity is the first five videos. The average views and likes shown at lines 177-183 are the rounded averages of those totals over the number of shown videos. |
| TutorDashboard.TotalsCountTheOwnersVideos | src/components/Dashboard/TutorDashboard.tsx:35-36 | With a profile id, total views and likes equal the sum over the whole mirror, counting a video only when it carries that owner id. |
| TutorDashboard.UploadAddsToTotals | src/components/Dashboard/TutorDashboard.tsx:31-36 | A video with the tutor's owner id put first in the mirror keeps the profile id and is shown first. It adds exactly its views and likes to the totals, and the subscriber count stays. |
| TutorDashboard.NoProfileIdMeansZeros | src/components/Dashboard/TutorDashboard.tsx:35-39 | Without a profile id, every list is empty and every figure is 0. |
| TutorDashboard.FiguresNonNegative | src/components/Dashboard/TutorDashboard.tsx:36-37 | Non-negative counters give non-negative totals and averages. |
| TutorDashboard.CommentSumCountsEachCommentOnce | src/components/Dashboard/TutorDashboard.tsx:38 | Summing per-video comment counts over videos with distinct ids counts every comment on them once. |
| TutorDashboard.TotalCommentsCountsComments | src/components/Dashboard/TutorDashboard.tsx:38 | `totalComments` is the number of comments on the tutor's videos, and at most the number of comments. |
| VideoCard.DurationParts | src/components/Video/VideoCard.tsx:12-16 | minutes·60 + rem = s and rem < 60. The text is the minutes, a colon and two digits. |
| VideoCard.DurationRoundTrip | src/components/Video/VideoCard.tsx:12-16 | Reading a formatted duration back gives the seconds. |
| VideoCard.AnHourShowsAsSixtyMinutes | src/components/Video/VideoCard.tsx:13-15 | 3600 shows as `60:00`. |
| VideoCard.SecondsPart | src/components/Video/VideoCard.tsx:15 | Always two digits, reading back as the remainder. |
| VideoCard.FormatNumber | src/components/Video/VideoCard.tsx:18-25 | At least 1,000,000 takes the M branch. From 1,000 up to that takes the K branch. Anything smaller is the plain integer text. |
| VideoCard.NumberLabelsReadBack | src/components/Video/VideoCard.tsx:19-24 | Plain text has at most three digits and reads back as the number. In the K branch the integer quotient num/1000 is from 1 to 999. |
| VideoCard.ShownTags | src/components/Video/VideoCard.tsx:67 | At most the first two tags, in order. |
| App.DashboardFor | src/App.tsx:14-37 | A spinner before load, nothing without a user, and the role choice when no role is set. `"student"` shows the student dashboard and any other role the tutor dashboard. |
| App.DashboardAgreesWithProvisionedRole | src/App.tsx:28-36 | The role choice appears exactly where the engine writes its `"student"` default. Otherwise the dashboard agrees with the provisioned role. |
| App.VideoParam | src/App.tsx:57 | `/video/:id` matches exactly one non-empty segment after the prefix. |
| App.Route | src/App.tsx:56-69 | Signed in: exactly `/dashboard` gives the dashboard, `/upload` the upload form, and a `/video/:id` path the player. Every other path redirects to `/dashboard`. Signed out: exactly `/login` and `/register` give their pages. Every other path redirects to `/login`. |
| App.AppScreen | src/App.tsx:39-48 | Only a spinner until the identity provider has loaded. |
| App.VideoPathsOpenThePlayer | src/App.tsx:57 | Every single-segment id under `/video/` opens the player on that id. |
| App.RedirectsLand | src/App.tsx:59-69 | A redirect lands, in one step, on a page that is not a redirect. |
| App.AuthPagesOnlyWhenSignedOut | src/App.tsx:53-71 | A signed-in visitor never sees login or register. Every path outside the signed-in table redirects to `/dashboard`, and every path outside the signed-out table to `/login`. |

## Left out

- Supabase.PublicUrl: is relative to the project's base URL. That URL comes from the build environment and is not modelled.
- AuthorInitial: takes the first character of the name, as a Unicode scalar. JavaScript's `charAt(0)` takes the first UTF-16 code unit, which is half of a surrogate pair when the first letter lies outside the Basic Multilingual Plane.
- React scheduling is not modelled.
  - This covers `useEffect` triggers, re-renders and the `useState`
    update queue.
  - Each handler is one atomic step over the state it reads.
  - Concurrency between overlapping async calls is out of scope. So is
    a stale closure reading an older mirror.
- The effect that runs provisioning and then the load on a user change
  (src/contexts/VideoContext.tsx:162-170) is not modelled as one
  composed operation. Its two steps are modelled separately.
- The video page's effect that records a watch
  (src/components/Video/VideoPlayer.tsx:48-52) is not modelled. Its
  target, `AddToHistory`, is.
- `generateThumbnail` and `getVideoDuration` (src/lib/supabase.ts:45-99)
  are not modelled. They are DOM media probes; their outcomes enter
  `HandleVideoSelect` as parameters.
- The blob fetch of a generated preview
  (src/components/Upload/VideoUpload.tsx:160-162) is folded into the
  thumbnail upload's outcome.
- The generated `File`'s size is not carried.
- Revoking object URLs (src/components/Upload/VideoUpload.tsx:186-189)
  is not modelled, because it has no effect on state.
- Timestamps and the clock are parameters: `Date.now()` in storage paths
  and the ISO time sent as `watched_at`.
- `localStorage.getItem('userRole')` is a parameter.
- `console.error` logging is not modelled.
- Strings.ToLower: lower-cases ASCII letters only, because JavaScript's
  full Unicode case mapping is not modelled.
- VideoCard.FormatNumber: gives the branch, divisor and suffix, but not
  the decimal text of `toFixed(1)`. That text depends on binary
  floating-point rounding.
- VideoCard.NumberLabelsReadBack: bounds the integer quotient num/1000,
  not the shown text. `toFixed(1)` rounds 999.95 and above up, so every
  num from 999950 to 999999 is shown as `1000.0K`.
- TutorDashboard.RoundedAverage: works in exact integer arithmetic. It
  does not model floating-point division error for very large totals.
- The engagement rate (src/components/Dashboard/TutorDashboard.tsx:189)
  is left out, because it is float formatting.
- Relative dates (`formatDistanceToNow`) are left out, because they come
  from a date library.
- VideoCard.FormatDuration: covers whole seconds only. JavaScript
  numbers may be fractional or `NaN`.
- VideoUpload.UploadForm.HandleChange: covers the four field names the
  form uses. The source writes any `name` attribute into the form
  object.
- VideoUpload.DurationOrDefault: takes an integer duration. A `NaN`
  duration is left out; in the source it would also fall back to 1800.
- App.Route: matches paths exactly. React Router's case-insensitive
  matching, percent-decoding and tolerance of trailing slashes are not
  modelled.
- The loading spinners of the two dashboards and the tab switching are
  rendering only, so they are left out.
- The row types' joined `tutor`/`user` profiles are taken as given by
  the store's join; the join itself is not modelled.
- Ordering by `created_at`/`watched_at` is the store's job. The model
  keeps whatever order the store returned.
