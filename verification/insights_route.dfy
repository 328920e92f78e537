/** The engagement leaderboard route (app/api/facebook/insights/route.ts): ranks the account's
    recent media by likes plus comments and reports the top post and the top five; maps Graph
    errors to HTTP statuses. */
module InsightsRoute {
  import opened Wrappers
  import Graph
  import Session

  datatype Media = Media(
    id: string,
    caption: Option<string>,
    mediaType: string,
    mediaUrl: Option<string>,
    thumbnailUrl: Option<string>,
    permalink: string,
    timestamp: string,
    likeCount: Option<int>,
    commentsCount: Option<int>)

  /** A media item with its engagement score attached (`{ ...item, engagement }`). */
  datatype RankedMedia = RankedMedia(media: Media, engagement: int)

  /** Likes plus comments, a missing count reading as 0. */
  function Engagement(m: Media): int {
    m.likeCount.GetOr(0) + m.commentsCount.GetOr(0)
  }

  /** The `map` step of `rankMediaByEngagement`. */
  function Scored(media: seq<Media>): (r: seq<RankedMedia>)
    ensures |r| == |media|
    ensures forall i :: 0 <= i < |r| ==> r[i] == RankedMedia(media[i], Engagement(media[i]))
  {
    if media == [] then [] else [RankedMedia(media[0], Engagement(media[0]))] + Scored(media[1..])
  }

  predicate NonIncreasing(s: seq<RankedMedia>) {
    forall i, j :: 0 <= i < j < |s| ==> s[i].engagement >= s[j].engagement
  }

  /** The items of `s` whose engagement is `e`, in their order in `s`. */
  function Tier(s: seq<RankedMedia>, e: int): seq<RankedMedia> {
    if s == [] then []
    else if s[0].engagement == e then [s[0]] + Tier(s[1..], e)
    else Tier(s[1..], e)
  }

  /** Puts `x` before the first item whose engagement does not exceed its own. */
  function Insert(x: RankedMedia, s: seq<RankedMedia>): seq<RankedMedia> {
    if s == [] || x.engagement >= s[0].engagement then [x] + s
    else [s[0]] + Insert(x, s[1..])
  }

  /** `.sort((a, b) => b.engagement - a.engagement)`: a stable sort, highest engagement first. */
  function SortByEngagement(s: seq<RankedMedia>): seq<RankedMedia> {
    if s == [] then [] else Insert(s[0], SortByEngagement(s[1..]))
  }

  /** `rankMediaByEngagement`: the scored media, highest engagement first. */
  function RankMediaByEngagement(media: seq<Media>): (ranked: seq<RankedMedia>)
    ensures NonIncreasing(ranked)
    ensures multiset(ranked) == multiset(Scored(media))
  {
    SortIsOrderedPermutation(Scored(media));
    SortByEngagement(Scored(media))
  }

  /** Every item of `s` has engagement at most `b`. */
  predicate AllAtMost(s: seq<RankedMedia>, b: int) {
    forall k :: 0 <= k < |s| ==> s[k].engagement <= b
  }

  lemma {:induction false} InsertAtMost(x: RankedMedia, s: seq<RankedMedia>, b: int)
    requires AllAtMost(s, b) && x.engagement <= b
    ensures AllAtMost(Insert(x, s), b)
  {
    if s != [] && x.engagement < s[0].engagement {
      InsertAtMost(x, s[1..], b);
      assert Insert(x, s) == [s[0]] + Insert(x, s[1..]);
    }
  }

  lemma {:induction false} InsertPermutes(x: RankedMedia, s: seq<RankedMedia>)
    ensures multiset(Insert(x, s)) == multiset(s) + multiset{x}
  {
    if s != [] && x.engagement < s[0].engagement {
      InsertPermutes(x, s[1..]);
      assert s == [s[0]] + s[1..];
    }
  }

  lemma {:induction false} InsertKeepsOrder(x: RankedMedia, s: seq<RankedMedia>)
    requires NonIncreasing(s)
    ensures NonIncreasing(Insert(x, s))
    ensures multiset(Insert(x, s)) == multiset(s) + multiset{x}
  {
    InsertPermutes(x, s);
    if s == [] {
      ConsNonIncreasing(x, s);
    } else if x.engagement >= s[0].engagement {
      HeadBounds(s);
      ConsNonIncreasing(x, s);
    } else {
      InsertKeepsOrder(x, s[1..]);
      HeadBounds(s);
      InsertAtMost(x, s[1..], s[0].engagement);
      ConsNonIncreasing(s[0], Insert(x, s[1..]));
    }
  }

  /** In a non-increasing list the head bounds the tail, which is itself non-increasing. */
  lemma HeadBounds(s: seq<RankedMedia>)
    requires NonIncreasing(s) && s != []
    ensures AllAtMost(s, s[0].engagement)
    ensures AllAtMost(s[1..], s[0].engagement)
    ensures NonIncreasing(s[1..])
  {
    forall k | 0 <= k < |s[1..]| ensures s[1..][k].engagement <= s[0].engagement {
      assert s[1..][k] == s[k + 1];
    }
  }

  /** Putting an item in front of a non-increasing list it bounds keeps the list non-increasing. */
  lemma ConsNonIncreasing(h: RankedMedia, r: seq<RankedMedia>)
    requires NonIncreasing(r) && AllAtMost(r, h.engagement)
    ensures NonIncreasing([h] + r)
  {
    var s := [h] + r;
    forall i, j | 0 <= i < j < |s| ensures s[i].engagement >= s[j].engagement {
      assert s[j] == r[j - 1];
      if i > 0 {
        assert s[i] == r[i - 1];
      }
    }
  }

  /** Inserting `x` adds it to the front of its own tier and leaves every other tier alone. */
  lemma {:induction false} InsertTier(x: RankedMedia, s: seq<RankedMedia>, e: int)
    ensures Tier(Insert(x, s), e) == if x.engagement == e then [x] + Tier(s, e) else Tier(s, e)
  {
    if s == [] || x.engagement >= s[0].engagement {
      assert ([x] + s)[1..] == s;
    } else {
      InsertTier(x, s[1..], e);
      assert ([s[0]] + Insert(x, s[1..]))[1..] == Insert(x, s[1..]);
    }
  }

  /** The sort gives a non-increasing permutation of its input. */
  lemma {:induction false} SortIsOrderedPermutation(s: seq<RankedMedia>)
    ensures NonIncreasing(SortByEngagement(s))
    ensures multiset(SortByEngagement(s)) == multiset(s)
  {
    if s != [] {
      SortIsOrderedPermutation(s[1..]);
      InsertKeepsOrder(s[0], SortByEngagement(s[1..]));
      assert s == [s[0]] + s[1..];
    }
  }

  /** The sort is stable: items of equal engagement keep their input order. */
  lemma {:induction false} SortIsStable(s: seq<RankedMedia>, e: int)
    ensures Tier(SortByEngagement(s), e) == Tier(s, e)
  {
    if s != [] {
      SortIsStable(s[1..], e);
      InsertTier(s[0], SortByEngagement(s[1..]), e);
    }
  }

  /** The ranking: every input item once, each scored as likes plus comments, highest first,
      ties in input order. */
  lemma RankingIsStableSort(media: seq<Media>)
    ensures var ranked := RankMediaByEngagement(media);
      && NonIncreasing(ranked)
      && multiset(ranked) == multiset(Scored(media))
      && |ranked| == |media|
      && (forall i :: 0 <= i < |ranked| ==> ranked[i].engagement == Engagement(ranked[i].media))
      && (forall e :: Tier(ranked, e) == Tier(Scored(media), e))
  {
    var ranked := RankMediaByEngagement(media);
    assert |ranked| == |multiset(ranked)| == |multiset(Scored(media))| == |media|;
    forall i | 0 <= i < |ranked| ensures ranked[i].engagement == Engagement(ranked[i].media) {
      assert ranked[i] in multiset(Scored(media));
    }
    forall e ensures Tier(ranked, e) == Tier(Scored(media), e) {
      SortIsStable(Scored(media), e);
    }
  }

  // ---------------------------------------------------------------------------
  // The route's JSON answer
  // ---------------------------------------------------------------------------

  datatype LeaderboardEntry = LeaderboardEntry(
    position: nat,
    id: string,
    caption: Option<string>,
    engagement: int,
    likeCount: int,
    commentsCount: int,
    timestamp: string,
    permalink: string,
    mediaUrl: Option<string>)

  const LEADERBOARD_SIZE: nat := 5

  function Entry(item: RankedMedia, position: nat): LeaderboardEntry {
    LeaderboardEntry(position, item.media.id, item.media.caption, item.engagement,
                     item.media.likeCount.GetOr(0), item.media.commentsCount.GetOr(0),
                     item.media.timestamp, item.media.permalink,
                     if item.media.mediaUrl.Some? then item.media.mediaUrl else item.media.thumbnailUrl)
  }

  function Entries(items: seq<RankedMedia>, first: nat): (r: seq<LeaderboardEntry>)
    ensures |r| == |items|
    ensures forall i :: 0 <= i < |r| ==> r[i] == Entry(items[i], first + i)
  {
    if items == [] then [] else [Entry(items[0], first)] + Entries(items[1..], first + 1)
  }

  /** `ranked.slice(0, 5).map(...)`: the first five ranked items, numbered from 1. */
  function Leaderboard(ranked: seq<RankedMedia>): (board: seq<LeaderboardEntry>)
    ensures |board| == if |ranked| < LEADERBOARD_SIZE then |ranked| else LEADERBOARD_SIZE
    ensures forall i :: 0 <= i < |board| ==>
      && board[i].position == i + 1
      && board[i].id == ranked[i].media.id
      && board[i].caption == ranked[i].media.caption
      && board[i].engagement == ranked[i].engagement
      && board[i].likeCount == ranked[i].media.likeCount.GetOr(0)
      && board[i].commentsCount == ranked[i].media.commentsCount.GetOr(0)
      && board[i].timestamp == ranked[i].media.timestamp
      && board[i].permalink == ranked[i].media.permalink
      && board[i].mediaUrl == (if ranked[i].media.mediaUrl.Some? then ranked[i].media.mediaUrl
                               else ranked[i].media.thumbnailUrl)
  {
    var top := if |ranked| < LEADERBOARD_SIZE then ranked else ranked[..LEADERBOARD_SIZE];
    Entries(top, 1)
  }

  /** What the media fetch gave: the `data` list (possibly missing), a Graph error, or another failure. */
  datatype MediaResult =
    | Fetched(media: Option<seq<Media>>)
    | GraphFailed(error: Graph.GraphError)
    | OtherFailed(description: string)

  datatype InsightsResponse =
    | NotAuthenticated(message: Option<string>)
    | Summary(pageName: string, instagramBusinessId: string, totalPosts: nat,
              topPost: Option<RankedMedia>, leaderboard: seq<LeaderboardEntry>)
    | InsightsFailed(status: int, message: Option<string>, facebookError: Option<Graph.ErrorDetail>,
                     details: Option<string>)

  /** The HTTP status each answer is sent with. */
  function Status(r: InsightsResponse): int {
    match r
    case NotAuthenticated(_) => 401
    case Summary(_, _, _, _, _) => 200
    case InsightsFailed(status, _, _, _) => status
  }

  const MEDIA_LIMIT: nat := 25

  function ErrorDetailOf(e: Graph.GraphError): Option<Graph.ErrorDetail> {
    if e.payload.Some? then e.payload.value.error else None
  }

  /** Graph error code 190: the access token has expired or been revoked. */
  predicate IsExpiredToken(e: Graph.GraphError) {
    ErrorDetailOf(e).Some? && ErrorDetailOf(e).value.code == Some(190)
  }

  /** The catch block: an expired token (Graph code 190) reads as not authenticated, any other
      Graph error keeps its status, and anything else is a 500. */
  function FailureResponse(failure: MediaResult): (r: InsightsResponse)
    requires !failure.Fetched?
    ensures failure.GraphFailed? && IsExpiredToken(failure.error) ==> r == NotAuthenticated(Some(failure.error.message))
    ensures failure.GraphFailed? && !IsExpiredToken(failure.error) ==>
          r.InsightsFailed? && Status(r) == failure.error.status && r.message == Some(failure.error.message)
          && r.facebookError == ErrorDetailOf(failure.error) && r.details == failure.error.responseBody
    ensures failure.OtherFailed? ==> r == InsightsFailed(500, None, None, Some(failure.description))
  {
    match failure
    case GraphFailed(e) =>
      var detail := ErrorDetailOf(e);
      if IsExpiredToken(e) then NotAuthenticated(Some(e.message))
      else InsightsFailed(e.status, Some(e.message), detail, e.responseBody)
    case OtherFailed(d) => InsightsFailed(500, None, None, Some(d))
  }

  /** `GET`: the session cookie, then the media fetch (`fetchMedia(session, limit)`), then the summary. */
  function InsightsGet(cookies: map<string, string>,
                       fetchMedia: (Session.FacebookSession, nat) -> MediaResult): InsightsResponse {
    match Session.ReadSession(cookies)
    case None => NotAuthenticated(None)
    case Some(session) =>
      match fetchMedia(session, MEDIA_LIMIT)
      case Fetched(media) =>
        if media.None? || media.value == [] then
          Summary(session.pageName, session.instagramBusinessId, 0, None, [])
        else
          var ranked := RankMediaByEngagement(media.value);
          Summary(session.pageName, session.instagramBusinessId, |ranked|, Some(ranked[0]), Leaderboard(ranked))
      case failure => FailureResponse(failure)
  }

  /** A summary counts every fetched post; its top post is the first of the ranking and scores at least
      as high as any post, and the leaderboard is built from the ranking, holding its first `min(5, n)`.
      No posts give an empty summary. */
  lemma SummaryFacts(cookies: map<string, string>, fetchMedia: (Session.FacebookSession, nat) -> MediaResult)
    requires Session.ReadSession(cookies).Some?
    requires fetchMedia(Session.ReadSession(cookies).value, MEDIA_LIMIT).Fetched?
    ensures var media := fetchMedia(Session.ReadSession(cookies).value, MEDIA_LIMIT).media.GetOr([]);
      var r := InsightsGet(cookies, fetchMedia);
      && r.Summary?
      && r.totalPosts == |media|
      && (media == [] ==> r.topPost.None? && r.leaderboard == [])
      && (media != [] ==> r.topPost.Some? && forall m :: m in media ==> r.topPost.value.engagement >= Engagement(m))
      && (media != [] ==> r.topPost == Some(RankMediaByEngagement(media)[0])
                          && r.leaderboard == Leaderboard(RankMediaByEngagement(media)))
      && |r.leaderboard| == (if |media| < LEADERBOARD_SIZE then |media| else LEADERBOARD_SIZE)
  {
    var media := fetchMedia(Session.ReadSession(cookies).value, MEDIA_LIMIT).media.GetOr([]);
    if media != [] {
      var ranked := RankMediaByEngagement(media);
      RankingIsStableSort(media);
      forall m | m in media ensures ranked[0].engagement >= Engagement(m) {
        var i :| 0 <= i < |media| && media[i] == m;
        var item := Scored(media)[i];
        assert item in multiset(Scored(media));
        assert item in multiset(ranked);
        var j :| 0 <= j < |ranked| && ranked[j] == item;
      }
    }
  }

  /** The status the route answers with, by case. */
  lemma StatusMapping(cookies: map<string, string>, fetchMedia: (Session.FacebookSession, nat) -> MediaResult)
    ensures Session.ReadSession(cookies).None? ==> Status(InsightsGet(cookies, fetchMedia)) == 401
    ensures Session.ReadSession(cookies).Some? ==>
      var result := fetchMedia(Session.ReadSession(cookies).value, MEDIA_LIMIT);
      && (result.Fetched? ==> Status(InsightsGet(cookies, fetchMedia)) == 200)
      && (result.GraphFailed? && IsExpiredToken(result.error) ==>
            InsightsGet(cookies, fetchMedia) == NotAuthenticated(Some(result.error.message)))
      && (result.GraphFailed? && !IsExpiredToken(result.error) ==>
            Status(InsightsGet(cookies, fetchMedia)) == result.error.status)
      && (result.OtherFailed? ==> Status(InsightsGet(cookies, fetchMedia)) == 500)
  {
  }
}
