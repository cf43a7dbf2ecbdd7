/**
 * The three video lists of the student dashboard: the browse tab
 * (search text and category), the history tab and the subscriptions
 * tab. Each is a filter over the mirrored `videos`, so each keeps the
 * mirror's order and never repeats a video.
 */
module StudentDashboard {
  import opened Seqs
  import opened Strings
  import opened Supabase

  /** The category choice that imposes no constraint. */
  const AllCategories := "all"

  /** The category choices offered, `AllCategories` first. */
  const Categories := [AllCategories, "Programming", "Design", "Business", "Science", "Language"]

  /** `video.tutor?.name || ''`. */
  function TutorNameOrEmpty(v: Video): string {
    if v.tutor.Some? then v.tutor.value.name else ""
  }

  /** The search text occurs, ignoring case, in the title, the description or the tutor's name. */
  predicate MatchesSearch(v: Video, term: string) {
    var t := ToLower(term);
    Contains(ToLower(v.title), t) || Contains(ToLower(v.description), t) || Contains(ToLower(TutorNameOrEmpty(v)), t)
  }

  predicate MatchesCategory(v: Video, category: string) {
    category == AllCategories || v.category == category
  }

  function BrowseFilter(term: string, category: string): Video -> bool {
    (v: Video) => MatchesSearch(v, term) && MatchesCategory(v, category)
  }

  /** `filteredVideos`: the browse tab. */
  function FilteredVideos(videos: seq<Video>, term: string, category: string): (r: seq<Video>)
    ensures IsSubsequence(r, videos)
    ensures forall v :: v in r <==> v in videos && MatchesSearch(v, term) && MatchesCategory(v, category)
    ensures category == AllCategories ==> forall v :: v in r <==> v in videos && MatchesSearch(v, term)
    ensures category != AllCategories ==> forall v :: v in r ==> v.category == category
    ensures forall i :: 0 <= i < |videos| && MatchesSearch(videos[i], term) && MatchesCategory(videos[i], category) ==>
      multiset(r)[videos[i]] == multiset(videos)[videos[i]]
  {
    FilterMembers(videos, BrowseFilter(term, category));
    FilterKeepsMultiplicity(videos, BrowseFilter(term, category));
    FilterIsSubsequence(videos, BrowseFilter(term, category));
    Filter(videos, BrowseFilter(term, category))
  }

  /** The empty search with every category shows the whole mirror, unchanged. */
  lemma EmptySearchShowsEverything(videos: seq<Video>)
    ensures FilteredVideos(videos, "", AllCategories) == videos
  {
    forall i | 0 <= i < |videos| ensures BrowseFilter("", AllCategories)(videos[i]) {
      ContainsEmpty(ToLower(videos[i].title));
    }
    FilterKeepsAll(videos, BrowseFilter("", AllCategories));
  }

  /** A search text found verbatim in the title, the description or the tutor's name matches. */
  lemma VerbatimTextMatches(v: Video, term: string)
    requires Contains(v.title, term) || Contains(v.description, term) || Contains(TutorNameOrEmpty(v), term)
    ensures MatchesSearch(v, term)
  {
    if Contains(v.title, term) {
      var i :| OccursAt(v.title, term, i);
      ToLowerKeepsOccurrence(v.title, term, i);
    } else if Contains(v.description, term) {
      var i :| OccursAt(v.description, term, i);
      ToLowerKeepsOccurrence(v.description, term, i);
    } else {
      var i :| OccursAt(TutorNameOrEmpty(v), term, i);
      ToLowerKeepsOccurrence(TutorNameOrEmpty(v), term, i);
    }
  }

  /** The letter case of the search text does not matter. */
  lemma SearchIgnoresCase(videos: seq<Video>, term: string, category: string)
    ensures forall v :: v in FilteredVideos(videos, term, category) <==> v in FilteredVideos(videos, ToLower(term), category)
  {
    ToLowerIdempotent(term);
  }

  /** `videoHistory.map(h => h.video_id)`. */
  function WatchedIds(history: seq<VideoHistory>): (ids: seq<string>)
    ensures |ids| == |history|
    ensures forall i :: 0 <= i < |history| ==> ids[i] == history[i].videoId
  {
    seq(|history|, i requires 0 <= i < |history| => history[i].videoId)
  }

  /** `subscriptions.map(s => s.tutor_id)`. */
  function SubscribedTutorIds(subscriptions: seq<Subscription>): (ids: seq<string>)
    ensures |ids| == |subscriptions|
    ensures forall i :: 0 <= i < |subscriptions| ==> ids[i] == subscriptions[i].tutorId
  {
    seq(|subscriptions|, i requires 0 <= i < |subscriptions| => subscriptions[i].tutorId)
  }

  function IdIn(ids: seq<string>): Video -> bool { (v: Video) => v.id in ids }
  function TutorIdIn(ids: seq<string>): Video -> bool { (v: Video) => v.tutorId in ids }
  function IdOf(v: Video): string { v.id }

  /**
   * `historyVideos`: the videos some history row points at. The rows
   * are those in the mirror, whoever they belong to.
   */
  function HistoryVideos(videos: seq<Video>, history: seq<VideoHistory>): (r: seq<Video>)
    ensures IsSubsequence(r, videos)
    ensures forall v :: v in r <==> v in videos && exists h :: h in history && h.videoId == v.id
    ensures forall i :: 0 <= i < |videos| && (exists h :: h in history && h.videoId == videos[i].id) ==>
      multiset(r)[videos[i]] == multiset(videos)[videos[i]]
  {
    var ids := WatchedIds(history);
    assert forall v: Video :: v.id in ids <==> exists h :: h in history && h.videoId == v.id by {
      forall v: Video ensures v.id in ids <==> exists h :: h in history && h.videoId == v.id {
        if v.id in ids {
          var i :| 0 <= i < |ids| && ids[i] == v.id;
          assert history[i] in history;
        }
      }
    }
    FilterMembers(videos, IdIn(ids));
    FilterIsSubsequence(videos, IdIn(ids));
    FilterKeepsMultiplicity(videos, IdIn(ids));
    Filter(videos, IdIn(ids))
  }

  /**
   * `subscribedVideos`: the videos of every tutor some subscription row
   * names. The rows are those in the mirror, whichever student holds them.
   */
  function SubscribedVideos(videos: seq<Video>, subscriptions: seq<Subscription>): (r: seq<Video>)
    ensures IsSubsequence(r, videos)
    ensures forall v :: v in r <==> v in videos && exists s :: s in subscriptions && s.tutorId == v.tutorId
    ensures forall i :: 0 <= i < |videos| && (exists s :: s in subscriptions && s.tutorId == videos[i].tutorId) ==>
      multiset(r)[videos[i]] == multiset(videos)[videos[i]]
  {
    var ids := SubscribedTutorIds(subscriptions);
    assert forall v: Video :: v.tutorId in ids <==> exists s :: s in subscriptions && s.tutorId == v.tutorId by {
      forall v: Video ensures v.tutorId in ids <==> exists s :: s in subscriptions && s.tutorId == v.tutorId {
        if v.tutorId in ids {
          var i :| 0 <= i < |ids| && ids[i] == v.tutorId;
          assert subscriptions[i] in subscriptions;
        }
      }
    }
    FilterMembers(videos, TutorIdIn(ids));
    FilterIsSubsequence(videos, TutorIdIn(ids));
    FilterKeepsMultiplicity(videos, TutorIdIn(ids));
    Filter(videos, TutorIdIn(ids))
  }

  /** With distinct video ids in the mirror, no tab lists a video twice, however many rows point at it. */
  lemma TabsListEachVideoOnce(videos: seq<Video>, term: string, category: string,
                              history: seq<VideoHistory>, subscriptions: seq<Subscription>)
    requires UniqueBy(videos, IdOf)
    ensures UniqueBy(FilteredVideos(videos, term, category), IdOf)
    ensures UniqueBy(HistoryVideos(videos, history), IdOf)
    ensures UniqueBy(SubscribedVideos(videos, subscriptions), IdOf)
  {
    FilterKeepsUnique(videos, BrowseFilter(term, category), IdOf);
    FilterKeepsUnique(videos, IdIn(WatchedIds(history)), IdOf);
    FilterKeepsUnique(videos, TutorIdIn(SubscribedTutorIds(subscriptions)), IdOf);
  }
}
