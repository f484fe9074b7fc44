/** app/api/crawler/blog-metadata/route.ts: a blog's nickname, category and
    seeded statistics, from its RSS channel.

    The XML and HTML libraries are not modelled: the RSS step receives the
    channel's texts and item count (`None` when the fetch failed, the answer
    was not `ok` or parsing threw), and the OpenGraph step receives the
    page's `og:title` (`None` when the fetch failed, the answer was not `ok`
    or the page has none). */
module BlogMetadataRoute {
  import opened Common
  import opened Text
  import opened CategoryRules
  import opened Nicknames

  const MissingIdMessage: string := "블로그 ID가 필요합니다."
  const NotFoundMessage: string := "블로그를 찾을 수 없습니다."
  const ServerErrorMessage: string := "서버 오류가 발생했습니다."

  /** What the RSS document yields: the first `channel > title`,
      `channel > description` and `channel > category` texts ("" when
      absent) and the number of `item` elements. */
  datatype FeedChannel = FeedChannel(title: string, description: string, category: string, itemCount: nat)

  /** `realData`. */
  datatype RealData = RealData(blogId: string, nickname: string, category: string, postCount: nat,
                               title: string, description: string)

  /** The seeded `blogStats`. */
  datatype EstimatedStats = EstimatedStats(
    subscriberCount: nat, postCount: nat, scrapCount: nat, averageViews: nat, postFrequency: real,
    totalVisitorCount: nat, dailyVisitorCount: nat, averageVisitorCount: nat)

  /** The route's answer: the blog id, nickname and category spread with the stats. */
  datatype BlogMetadata = BlogMetadata(blogId: string, nickname: string, category: string, stats: EstimatedStats)

  // ---------------------------------------------------------------------------
  // Step 1: the RSS channel

  /** The nickname step 1 settles on: the blog id, unless the title is
      non-empty and differs from it, in which case the title decides. */
  function ChannelNickname(blogId: string, title: string): string {
    if title != "" && title != blogId then NicknameOr(title, blogId) else blogId
  }

  /** For a non-empty blog id the nickname is never empty: a capture has at
      least one character, and the title is used only when non-empty. */
  lemma ChannelNicknameNonEmpty(blogId: string, title: string)
    requires blogId != ""
    ensures ChannelNickname(blogId, title) != ""
  {
    if title != "" && title != blogId {
      match NicknameCapture(title)
      case Some(n) =>
      case None =>
    }
  }

  /** "X님의 블로그" (or "X님 Blog", …) names its author X. */
  lemma ChannelNicknameOfBlogTitle(blogId: string, x: string, ui: string, spaces: string, word: string)
    requires |x| >= 1 && '님' !in x && forall m :: 0 <= m < |x| ==> !IsLineTerminator(x[m])
    requires ui == "" || ui == "의"
    requires forall m :: 0 <= m < |spaces| ==> IsJsSpace(spaces[m])
    requires word == KoreanBlogWord || word == EnglishBlogWord
    requires x + "님" + ui + spaces + word != blogId
    ensures ChannelNickname(blogId, x + "님" + ui + spaces + word) == x
  {
    NicknameOfBlogTitle(x, ui, spaces, word, blogId);
  }

  /** A title without `님` that mentions "blog" leaves the nickname at the blog id. */
  lemma ChannelNicknameFallsBack(blogId: string, title: string)
    requires '님' !in title && Includes(title, "blog")
    ensures ChannelNickname(blogId, title) == blogId
  {
    if title != "" && title != blogId {
      BlogTitleFallsBack(title, blogId);
    }
  }

  /** `realData` after step 1: `None` when the feed could not be read. */
  function RssStep(blogId: string, rss: Option<FeedChannel>): (r: Option<RealData>)
    ensures r.Some? <==> rss.Some?
  {
    match rss
    case None => None
    case Some(c) =>
      Some(RealData(blogId, ChannelNickname(blogId, c.title),
        if c.category != "" then c.category else NoCategory, c.itemCount, c.title, c.description))
  }

  // ---------------------------------------------------------------------------
  // Step 2: the OpenGraph title

  /** Step 2 as written: it may only fill in a missing nickname, and only of
      a `realData` that exists. */
  function OpenGraphStep(realData: Option<RealData>, ogTitle: Option<string>): Option<RealData> {
    if (realData.None? || realData.value.nickname == "") && ogTitle.Some? && ogTitle.value != "" then
      match NicknameCapture(ogTitle.value)
      case Some(n) => if realData.Some? then Some(realData.value.(nickname := n)) else realData
      case None => realData
    else realData
  }

  /** Step 2 never changes anything: when step 1 produced nothing there is
      nothing to write to, and when it produced data the nickname is already set. */
  lemma OpenGraphNoEffect(blogId: string, rss: Option<FeedChannel>, ogTitle: Option<string>)
    requires blogId != ""
    ensures OpenGraphStep(RssStep(blogId, rss), ogTitle) == RssStep(blogId, rss)
  {
    if rss.Some? {
      ChannelNicknameNonEmpty(blogId, rss.value.title);
    }
  }

  // ---------------------------------------------------------------------------
  // Step 3: the seeded statistics

  /** `Math.round(((seed % 300) / 100) * 10) / 10`: tenths in [0, 3]. */
  function PostFrequency(seed: nat): (r: real)
    ensures r == ((seed % 300 + 5) / 10) as real / 10.0
    ensures 0.0 <= r <= 3.0
  {
    var m := seed % 300;
    var tenths := RoundHalfUp((m as real / 100.0) * 10.0);
    assert (m as real / 100.0) * 10.0 + 0.5 == (m + 5) as real / 10.0;
    assert tenths == (m + 5) / 10 by {
      var q := (m + 5) / 10;
      assert (10 * q) as real <= (m + 5) as real < (10 * q + 10) as real;
    }
    tenths as real / 10.0
  }

  /** `realData?.postCount || (seed % 500) + 10`. */
  function EstimatedPostCount(seed: nat, realData: Option<RealData>): (n: nat)
    ensures realData.Some? && realData.value.postCount > 0 ==> n == realData.value.postCount
    ensures !(realData.Some? && realData.value.postCount > 0) ==> 10 <= n < 510 && n == seed % 500 + 10
  {
    if realData.Some? && realData.value.postCount > 0 then realData.value.postCount else seed % 500 + 10
  }

  function StatsFor(blogId: string, realData: Option<RealData>): EstimatedStats {
    var seed := Seed(blogId);
    var posts := EstimatedPostCount(seed, realData);
    EstimatedStats(seed % 5000 + 2 * posts, posts, seed % 2000, seed % 10000 + 500, PostFrequency(seed),
      seed % 50000 + 1000, seed % 500 + 50, seed % 2000 + 100)
  }

  /** The statistics depend on the blog id and the feed's item count only,
      and fall in the ranges the formulas allow. */
  lemma StatsRanges(blogId: string, realData: Option<RealData>)
    ensures var s := StatsFor(blogId, realData);
      && s.subscriberCount == Seed(blogId) % 5000 + 2 * s.postCount
      && s.subscriberCount >= 2 * s.postCount
      && s.scrapCount < 2000 && 500 <= s.averageViews < 10500
      && 0.0 <= s.postFrequency <= 3.0
      && 1000 <= s.totalVisitorCount < 51000 && 50 <= s.dailyVisitorCount < 550
      && 100 <= s.averageVisitorCount < 2100
  {
  }

  // ---------------------------------------------------------------------------
  // Step 4: the result

  /** crawlBlogMetadata as a value: `None` (the thrown "not found" error,
      caught into `null`) when there is no `realData`. */
  function MetadataOf(blogId: string, rss: Option<FeedChannel>, ogTitle: Option<string>): Option<BlogMetadata> {
    var realData := OpenGraphStep(RssStep(blogId, rss), ogTitle);
    match realData
    case None => None
    case Some(d) =>
      Some(BlogMetadata(blogId, if d.nickname != "" then d.nickname else blogId,
        if d.category != "" then d.category else NoCategory, StatsFor(blogId, realData)))
  }

  /** There is a result exactly when the feed was read; its nickname is the
      channel title's, its category the channel's (or "주제 없음"), and its
      post count the number of items unless there are none. */
  lemma MetadataSpec(blogId: string, rss: Option<FeedChannel>, ogTitle: Option<string>)
    requires blogId != ""
    ensures MetadataOf(blogId, rss, ogTitle).Some? <==> rss.Some?
    ensures rss.Some? ==>
      var m := MetadataOf(blogId, rss, ogTitle).value;
      && m.blogId == blogId
      && m.nickname == ChannelNickname(blogId, rss.value.title) && m.nickname != ""
      && (rss.value.category != "" ==> m.category == rss.value.category)
      && (rss.value.category == "" ==> m.category == NoCategory)
      && (rss.value.itemCount > 0 ==> m.stats.postCount == rss.value.itemCount)
      && (rss.value.itemCount == 0 ==> m.stats.postCount == Seed(blogId) % 500 + 10)
  {
    OpenGraphNoEffect(blogId, rss, ogTitle);
    if rss.Some? {
      ChannelNicknameNonEmpty(blogId, rss.value.title);
    }
  }

  /** crawlBlogMetadata: the steps in order, each updating `realData`. */
  method CrawlBlogMetadata(blogId: string, rss: Option<FeedChannel>, ogTitle: Option<string>)
    returns (r: Option<BlogMetadata>)
    ensures r == MetadataOf(blogId, rss, ogTitle)
  {
    var realData: Option<RealData> := None;
    if rss.Some? {
      var c := rss.value;
      var category := if c.category != "" then c.category else NoCategory;
      var nickname := blogId;
      if c.title != "" && c.title != blogId {
        var capture := NicknameCapture(c.title);
        if capture.Some? {
          nickname := capture.value;
        } else if !Includes(ToLower(c.title), "blog") {
          nickname := c.title;
        }
      }
      realData := Some(RealData(blogId, nickname, category, c.itemCount, c.title, c.description));
    }
    if (realData.None? || realData.value.nickname == "") && ogTitle.Some? && ogTitle.value != "" {
      var capture := NicknameCapture(ogTitle.value);
      if capture.Some? && realData.Some? {
        realData := Some(realData.value.(nickname := capture.value));
      }
    }
    var stats := StatsFor(blogId, realData);
    if realData.Some? {
      var d := realData.value;
      r := Some(BlogMetadata(blogId, if d.nickname != "" then d.nickname else blogId,
        if d.category != "" then d.category else NoCategory, stats));
    } else {
      r := None;
    }
  }

  // ---------------------------------------------------------------------------
  // The route

  /** The JSON body: `blogId` ("" when missing or empty). */
  datatype MetadataRequest = MetadataRequest(blogId: string)

  /** POST: 500 when the request body is unreadable or `null` (`None`), 400
      without an id, 404 when the feed could not be read, 200 with the
      metadata otherwise. */
  method Post(body: Option<MetadataRequest>, rss: Option<FeedChannel>, ogTitle: Option<string>)
    returns (reply: Reply<BlogMetadata>)
    ensures body.None? <==> reply.status == 500
    ensures body.None? ==> reply.payload == Failure(ServerErrorMessage)
    ensures body.Some? && body.value.blogId == "" <==> reply.status == 400
    ensures body.Some? && body.value.blogId == "" ==> reply.payload == Failure(MissingIdMessage)
    ensures body.Some? && body.value.blogId != "" && rss.None? ==>
              reply.status == 404 && reply.payload == Failure(NotFoundMessage)
    ensures body.Some? && body.value.blogId != "" && rss.Some? ==>
              reply.status == 200 && reply.payload == Success(MetadataOf(body.value.blogId, rss, ogTitle).value)
  {
    if body.None? {
      return Reply(500, Failure(ServerErrorMessage));
    }
    var blogId := body.value.blogId;
    if blogId == "" {
      return Reply(400, Failure(MissingIdMessage));
    }
    var data := CrawlBlogMetadata(blogId, rss, ogTitle);
    MetadataSpec(blogId, rss, ogTitle);
    if data.None? {
      return Reply(404, Failure(NotFoundMessage));
    }
    reply := Reply(200, Success(data.value));
  }
}
