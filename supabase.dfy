/**
 * The database row shapes of the platform, the shapes in which the
 * remote store answers a call, and the naming of uploaded media
 * files in storage.
 */
module Supabase {
  import opened Wrappers
  import opened Strings

  /** A row of `profiles`; `role` is whatever string was stored at creation. */
  datatype Profile = Profile(
    id: string, clerkId: string, email: string, name: string, role: string,
    avatarUrl: Option<string>, createdAt: string, updatedAt: string)

  /** A row of `videos`; `tutor` is the joined owner profile, absent when the join found none. */
  datatype Video = Video(
    id: string, title: string, description: string, thumbnailUrl: string,
    videoUrl: string, tutorId: string, duration: int, views: int, likes: int,
    category: string, tags: seq<string>, createdAt: string, updatedAt: string,
    tutor: Option<Profile>)

  /** A row of `comments`; `user` is the joined author profile. */
  datatype Comment = Comment(
    id: string, videoId: string, userId: string, content: string, likes: int,
    createdAt: string, updatedAt: string, user: Option<Profile>)

  datatype VideoLike = VideoLike(id: string, userId: string, videoId: string, createdAt: string)

  datatype Subscription = Subscription(id: string, studentId: string, tutorId: string, createdAt: string)

  datatype VideoHistory = VideoHistory(
    id: string, userId: string, videoId: string, progress: int,
    watchedAt: string, createdAt: string, updatedAt: string)

  /** The answer to an insert or update that selects the written row back (`.select().single()`). */
  datatype Reply<T> = Ok(row: T) | Failed(message: string)

  /** The answer to a delete, or to an update that selects nothing back. */
  datatype Ack = Acked | Rejected(message: string)

  /** The answer to a select of many rows: `data` may be null without an error. */
  datatype Fetch<T> = Fetched(data: Option<seq<T>>) | FetchFailed(message: string)

  /** A file handed over by the browser: name, MIME type and size in bytes. */
  datatype File = File(name: string, mimeType: string, size: int)

  const VideosBucket := "videos"
  const ThumbnailsBucket := "thumbnails"

  /** Options every upload passes: an hour of caching, and never overwrite an existing object. */
  datatype UploadOptions = UploadOptions(cacheControl: string, upsert: bool)
  const UploadDefaults := UploadOptions("3600", false)

  /** One storage upload as issued: target bucket, object path and options. */
  datatype UploadRequest = UploadRequest(bucket: string, path: string, options: UploadOptions)

  /** The storage layer's answer to an upload: the path of the stored object, or an error. */
  datatype StorageReply = Stored(path: string) | StorageFailed(message: string)

  /** `file.name.split('.').pop()`. */
  function FileExt(fileName: string): (ext: string)
  {
    Last(Split(fileName, '.'))
  }

  /** The extension is the text after the last dot, or the whole name when it has none. */
  lemma FileExtIsTextAfterLastDot(fileName: string)
    ensures var ext := FileExt(fileName);
      && '.' !in ext
      && |ext| <= |fileName| && ext == fileName[|fileName| - |ext|..]
      && (|ext| < |fileName| ==> fileName[|fileName| - |ext| - 1] == '.')
      && ('.' !in fileName ==> ext == fileName)
  {
    LastPieceIsSuffix(fileName, '.');
  }

  /** `${userId}/${Date.now()}.${fileExt}`, with the millisecond clock reading as a parameter. */
  function StoragePath(userId: string, now: nat, fileName: string): (path: string)
  {
    userId + "/" + NatToString(now) + "." + FileExt(fileName)
  }

  /** The path splits back into owner, clock reading and extension. */
  lemma StoragePathParts(userId: string, now: nat, fileName: string)
    requires '/' !in userId
    ensures var path := StoragePath(userId, now, fileName);
      && var parts := Split(path, '/');
      && |parts| >= 2 && parts[0] == userId
      && path == userId + "/" + NatToString(now) + "." + FileExt(fileName)
      && DecimalValue(path[|userId| + 1..|userId| + 1 + |NatToString(now)|]) == now
  {
    PathParts(userId, NatToString(now), FileExt(fileName));
    NatToStringRoundTrip(now);
  }

  /** In `owner + "/" + digits + "." + ext`, the owner comes first and the digits right after the slash. */
  lemma PathParts(owner: string, digits: string, ext: string)
    requires '/' !in owner
    ensures var path := owner + "/" + digits + "." + ext;
      && var parts := Split(path, '/');
      && |parts| >= 2 && parts[0] == owner
      && path[|owner| + 1..|owner| + 1 + |digits|] == digits
  {
    var rest := digits + "." + ext;
    var path := owner + "/" + digits + "." + ext;
    assert path == owner + "/" + rest;
    SplitAtFirst(owner, rest, '/');
    assert path[|owner| + 1..] == rest;
    assert rest[..|digits|] == digits;
  }

  /** Splitting `a + [sep] + b`, where `a` has no separator, yields `a` first. */
  lemma {:induction false} SplitAtFirst(a: string, b: string, sep: char)
    requires sep !in a
    ensures var parts := Split(a + [sep] + b, sep); |parts| >= 2 && parts[0] == a
  {
    if a == [] {
      assert ([sep] + b)[1..] == b;
    } else {
      assert (a + [sep] + b)[1..] == a[1..] + [sep] + b;
      SplitAtFirst(a[1..], b, sep);
    }
  }

  /** `uploadVideo(file, userId)`: the request it issues to storage. */
  function VideoUploadRequest(file: File, userId: string, now: nat): UploadRequest {
    UploadRequest(VideosBucket, StoragePath(userId, now, file.name), UploadDefaults)
  }

  /** `uploadThumbnail(file, userId)`: the request it issues to storage. */
  function ThumbnailUploadRequest(file: File, userId: string, now: nat): UploadRequest {
    UploadRequest(ThumbnailsBucket, StoragePath(userId, now, file.name), UploadDefaults)
  }

  /** Videos and thumbnails are named alike and differ only in their bucket; neither overwrites. */
  lemma UploadRequestsDifferOnlyInBucket(file: File, userId: string, now: nat)
    ensures VideoUploadRequest(file, userId, now).path == ThumbnailUploadRequest(file, userId, now).path
    ensures VideoUploadRequest(file, userId, now).bucket == "videos"
    ensures ThumbnailUploadRequest(file, userId, now).bucket == "thumbnails"
    ensures !VideoUploadRequest(file, userId, now).options.upsert
    ensures !ThumbnailUploadRequest(file, userId, now).options.upsert
  {
  }

  /**
   * Where `getPublicUrl` serves an object of a public bucket, relative to
   * the project's base URL: `/storage/v1/object/public/<bucket>/<path>`.
   */
  const PublicObjectPrefix := "/storage/v1/object/public/"

  function PublicUrl(bucket: string, path: string): string {
    PublicObjectPrefix + bucket + "/" + path
  }

  /**
   * `uploadFile`: a storage error is rethrown; after a successful store
   * the result is the public URL of the object the store reports, in the
   * bucket the request named.
   */
  function UploadFile(req: UploadRequest, reply: StorageReply): (r: Reply<string>)
    ensures r.Ok? <==> reply.Stored?
    ensures r.Ok? ==> (StartsWith(r.row, PublicObjectPrefix) &&
      r.row[|PublicObjectPrefix|..] == req.bucket + "/" + reply.path)
    ensures r.Failed? ==> r.message == reply.message
  {
    match reply
    case Stored(path) =>
      assert (PublicObjectPrefix + req.bucket + "/" + path)[|PublicObjectPrefix|..] == req.bucket + "/" + path;
      Ok(PublicUrl(req.bucket, path))
    case StorageFailed(e) => Failed(e)
  }

  /**
   * Public URLs name their objects: over bucket names without a slash,
   * two URLs are equal exactly when bucket and path are.
   */
  lemma PublicUrlsIdentifyObjects(bucket1: string, path1: string, bucket2: string, path2: string)
    requires '/' !in bucket1 && '/' !in bucket2
    ensures PublicUrl(bucket1, path1) == PublicUrl(bucket2, path2) <==> bucket1 == bucket2 && path1 == path2
  {
    if PublicUrl(bucket1, path1) == PublicUrl(bucket2, path2) {
      var k := |PublicObjectPrefix|;
      var tail1, tail2 := bucket1 + "/" + path1, bucket2 + "/" + path2;
      assert PublicUrl(bucket1, path1)[k..] == tail1;
      assert PublicUrl(bucket2, path2)[k..] == tail2;
      SplitAtFirst(bucket1, path1, '/');
      SplitAtFirst(bucket2, path2, '/');
      assert bucket1 == bucket2;
      assert path1 == tail1[|bucket1| + 1..] && path2 == tail2[|bucket2| + 1..];
    }
  }

  /** A video and a thumbnail never receive the same URL, even for the same stored path. */
  lemma VideoAndThumbnailUrlsDiffer(file: File, thumbnail: File, userId: string, now: nat, now2: nat,
                                    videoReply: StorageReply, thumbnailReply: StorageReply)
    requires videoReply.Stored? && thumbnailReply.Stored?
    ensures UploadFile(VideoUploadRequest(file, userId, now), videoReply).row !=
      UploadFile(ThumbnailUploadRequest(thumbnail, userId, now2), thumbnailReply).row
  {
    PublicUrlsIdentifyObjects(VideosBucket, videoReply.path, ThumbnailsBucket, thumbnailReply.path);
  }
}
