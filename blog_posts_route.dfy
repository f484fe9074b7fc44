/** app/api/crawler/blog-posts/route.ts: the post list of a blog, from the
    post-list API, else from the first usable RSS feed, else synthesised.

    The XML library is not modelled: a feed body arrives already split into
    its `<item>` elements (`None` when the parser threw), and the text of an
    HTML fragment is the parameter `htmlText`. Date parsing is `parse`, the
    current time `now` (milliseconds). */
module BlogPostsRoute {
  import opened Common
  import opened Text
  import opened BlogAnalysis
  import opened NaverApiClient

  const MissingIdMessage: string := "블로그 ID가 필요합니다."
  const ServerErrorMessage: string := "서버 오류가 발생했습니다."
  const DefaultLimit: nat := 20

  /** The texts of one `<item>`'s children (the author is read but unused). */
  datatype FeedItem = FeedItem(title: string, description: string, pubDateText: string, link: string)

  /** A post parsed from a feed, with its link. */
  datatype FeedPost = FeedPost(post: PostData, link: string)

  /** What crawlBlogPosts returns, by where it came from. */
  datatype CrawledPosts =
    | FromApi(listed: seq<ListedPost>)
    | FromFeed(parsed: seq<FeedPost>)
    | Synthesised(posts: seq<PostData>)
  {
    function Count(): nat {
      match this
      case FromApi(l) => |l|
      case FromFeed(p) => |p|
      case Synthesised(p) => |p|
    }
  }

  // ---------------------------------------------------------------------------
  // Synthetic posts

  const SampleTitles: seq<string> := [
    "오늘의 일상 기록", "맛있는 음식 후기", "여행지 추천과 팁", "제품 사용 후기", "일상 속 소소한 이야기",
    "취미 활동 공유", "건강 관리 노하우", "문화 생활 후기", "개인적인 생각 정리", "유용한 정보 공유"
  ]

  function FallbackContent(blogId: string): string {
    blogId + " 블로그의 포스팅 내용입니다. 다양한 주제로 포스팅하며 독자들과 소통하고 있습니다. "
    + "일상의 소중한 순간들을 기록하고, 유용한 정보를 공유하며, 개인적인 경험을 통해 얻은 깨달음을 나누고 있습니다. "
    + "블로그를 통해 더 많은 사람들과 연결되고 함께 성장하는 공간을 만들어가고 있습니다."
  }

  /** The `i`-th synthetic post: two days apart, counts from `seed + i`. */
  function FallbackPost(blogId: string, seed: nat, i: nat, now: int): (p: PostData)
    ensures p.title == SampleTitles[i % 10] + " - " + NatToString(i + 1)
    ensures 1 <= p.imageCount <= 12 && p.videoCount <= 1
    ensures 800 <= p.characterCount <= 3299 && 200 <= p.viewCount <= 8199
    ensures p.commentCount < 40 && p.likeCount < 150
    ensures p.publishDate == now - 2 * i * DayMs
  {
    var postSeed := seed + i;
    PostData(SampleTitles[i % |SampleTitles|] + " - " + NatToString(i + 1), FallbackContent(blogId),
      now - 2 * i * DayMs,
      postSeed % 12 + 1, postSeed % 2, postSeed % 2500 + 800,
      postSeed % 40, postSeed % 150, postSeed % 8000 + 200)
  }

  /** generateFallbackPosts: exactly `count` posts seeded from the blog id. */
  method GenerateFallbackPosts(blogId: string, count: nat, now: int) returns (posts: seq<PostData>)
    ensures |posts| == count
    ensures forall i :: 0 <= i < count ==> posts[i] == FallbackPost(blogId, Seed(blogId), i, now)
  {
    var seed := Seed(blogId);
    posts := [];
    var i := 0;
    while i < count
      invariant i <= count && |posts| == i
      invariant forall j :: 0 <= j < i ==> posts[j] == FallbackPost(blogId, seed, j, now)
    {
      posts := posts + [FallbackPost(blogId, seed, i, now)];
      i := i + 1;
    }
  }

  /** The synthetic list as a value. */
  function FallbackPosts(blogId: string, count: nat, now: int): (r: seq<PostData>)
    ensures |r| == count
    ensures forall i :: 0 <= i < count ==> r[i] == FallbackPost(blogId, Seed(blogId), i, now)
  {
    seq(count, i requires 0 <= i < count => FallbackPost(blogId, Seed(blogId), i, now))
  }

  // ---------------------------------------------------------------------------
  // One feed item

  const CdataOpen: string := "<![CDATA["
  const CdataClose: string := "]]>"
  const UntitledPost: string := "제목 없음"

  /** The description with a CDATA wrapper removed (`/<!\[CDATA\[(.*?)\]\]>/s`). */
  function CleanDescription(description: string): string {
    if Includes(description, CdataOpen) then
      match FirstCapture(description, CdataOpen, CdataClose, true)
      case Some(c) => c.text
      case None => description
    else description
  }

  /** Where a `<name[^>]*>` match starting at `i` ends, for the first of the
      names that follows `<` there in any letter case. */
  function TagEndAt(s: string, i: nat, names: seq<string>): (r: Option<nat>)
    ensures r.Some? ==> i < r.value <= |s|
  {
    if exists k :: 0 <= k < |names| && OccursAt(ToLower(s), "<" + names[k], i) then
      match IndexOfFrom(s, ">", i + 1)
      case Some(j) => Some(j + 1)
      case None => None
    else None
  }

  /** The number of matches of `/<(?:names)[^>]*>/gi` from `from` on. */
  function CountTagsFrom(s: string, names: seq<string>, from: nat): (n: nat)
    decreases |s| - from
    ensures from <= |s| ==> n <= |s| - from
  {
    if from >= |s| then 0
    else
      match TagEndAt(s, from, names)
      case Some(e) => 1 + CountTagsFrom(s, names, e)
      case None => CountTagsFrom(s, names, from + 1)
  }

  /** The interaction base of a feed post, in integers. */
  function FeedInteraction(characters: nat, images: nat): (base: nat)
    ensures base <= 10
  {
    MinI(10, (characters + 50 * images) / 100)
  }

  /** It is `Math.floor(Math.min(100, chars / 10 + images * 5) / 10)`
      computed over the reals. */
  lemma FeedInteractionFormula(characters: nat, images: nat)
    ensures FeedInteraction(characters, images)
            == Floor(MinR(100.0, characters as real / 10.0 + (5 * images) as real) / 10.0)
  {
    var x := characters as real / 10.0 + (5 * images) as real;
    var m := characters + 50 * images;
    assert x == m as real / 10.0;
    var f := Floor(MinR(100.0, x) / 10.0);
    if m >= 1000 {
      assert MinR(100.0, x) == 100.0;
    } else {
      assert MinR(100.0, x) / 10.0 == m as real / 100.0;
      assert (m / 100) as real <= m as real / 100.0 < (m / 100) as real + 1.0;
    }
  }

  /** The post parseRSSToRealPosts builds for the `i`-th item. */
  function ItemPost(item: FeedItem, i: nat, htmlText: string -> string, parse: string -> Option<int>, now: int): FeedPost {
    var title := if Trim(item.title) != "" then Trim(item.title) else UntitledPost;
    var clean := CleanDescription(item.description);
    var content := Trim(htmlText(clean));
    var images := CountTagsFrom(clean, ["img"], 0);
    var videos := CountTagsFrom(clean, ["video", "iframe"], 0);
    var date := if item.pubDateText != "" then parse(item.pubDateText).GetOr(now) else now;
    var seed := Seed(title + item.link + NatToString(i));
    var base := FeedInteraction(|content|, images);
    FeedPost(PostData(title, content, date, images, videos, |content|,
      MaxI(0, seed % 30 + base / 2), MaxI(0, seed % 100 + base), MaxI(100, seed % 5000 + base * 10)),
      item.link)
  }

  /** The title defaults to "제목 없음", the date to now; the interaction base
      is at most 10 and the view count at least 100. */
  lemma ItemPostShape(item: FeedItem, i: nat, htmlText: string -> string, parse: string -> Option<int>, now: int)
    ensures var p := ItemPost(item, i, htmlText, parse, now).post;
      && p.title != "" && (Trim(item.title) != "" ==> p.title == Trim(item.title))
      && (Trim(item.title) == "" ==> p.title == UntitledPost)
      && p.characterCount == |p.content|
      && (item.pubDateText == "" ==> p.publishDate == now)
      && (item.pubDateText != "" && parse(item.pubDateText).Some? ==> p.publishDate == parse(item.pubDateText).value)
      && (item.pubDateText != "" && parse(item.pubDateText).None? ==> p.publishDate == now)
      && p.viewCount >= 100
    ensures ItemPost(item, i, htmlText, parse, now).link == item.link
  {
  }

  /** `f` applied to each of the first `n` elements with its index. */
  function MapIndexed<A, B>(xs: seq<A>, n: nat, f: (A, nat) -> B): (r: seq<B>)
    requires n <= |xs|
    ensures |r| == n
  {
    if n == 0 then [] else MapIndexed(xs, n - 1, f) + [f(xs[n - 1], n - 1)]
  }

  /** The `j`-th result is `f` of the `j`-th element, whatever the number
      mapped: mapping more elements never changes the earlier results. */
  lemma {:induction false} MapIndexedAt<A, B>(xs: seq<A>, n: nat, j: nat, f: (A, nat) -> B)
    requires j < n <= |xs|
    ensures MapIndexed(xs, n, f)[j] == f(xs[j], j)
    decreases n
  {
    if j < n - 1 {
      MapIndexedAt(xs, n - 1, j, f);
    }
  }

  /** ItemPost with the parsers and the clock fixed. */
  function ItemParser(htmlText: string -> string, parse: string -> Option<int>, now: int): (FeedItem, nat) -> FeedPost {
    (item: FeedItem, i: nat) => ItemPost(item, i, htmlText, parse, now)
  }

  /** The parsed posts of the first `n` items, in item order. */
  function ItemPosts(items: seq<FeedItem>, n: nat, htmlText: string -> string, parse: string -> Option<int>, now: int): (r: seq<FeedPost>)
    requires n <= |items|
    ensures |r| == n
  {
    MapIndexed(items, n, ItemParser(htmlText, parse, now))
  }

  /** The `j`-th parsed post is the `j`-th item's. */
  lemma ItemPostsAt(items: seq<FeedItem>, n: nat, j: nat, htmlText: string -> string, parse: string -> Option<int>, now: int)
    requires j < n <= |items|
    ensures ItemPosts(items, n, htmlText, parse, now)[j] == ItemPost(items[j], j, htmlText, parse, now)
  {
    MapIndexedAt(items, n, j, ItemParser(htmlText, parse, now));
  }

  /** parseRSSToRealPosts as a value: `min(items, limit)` parsed posts, the
      synthetic list when there are none or the parser threw. */
  function ParseFeed(blogId: string, limit: nat, items: Option<seq<FeedItem>>,
                     htmlText: string -> string, parse: string -> Option<int>, now: int): (r: CrawledPosts)
    ensures items.Some? && MinI(|items.value|, limit) > 0 ==>
              r == FromFeed(ItemPosts(items.value, MinI(|items.value|, limit), htmlText, parse, now))
    ensures (items.None? || MinI(|items.value|, limit) == 0) ==> r == Synthesised(FallbackPosts(blogId, limit, now))
    ensures limit >= 1 ==> r.Count() >= 1
  {
    if items.Some? && MinI(|items.value|, limit) > 0 then
      FromFeed(ItemPosts(items.value, MinI(|items.value|, limit), htmlText, parse, now))
    else Synthesised(FallbackPosts(blogId, limit, now))
  }

  /** The loop of parseRSSToRealPosts over its first `n` items, for any
      per-item step `f`. */
  method MapIndexedLoop<A, B>(xs: seq<A>, n: nat, f: (A, nat) -> B) returns (ys: seq<B>)
    requires n <= |xs|
    ensures ys == MapIndexed(xs, n, f)
  {
    ys := [];
    var i := 0;
    while i < n
      invariant i <= n && ys == MapIndexed(xs, i, f)
    {
      ys := ys + [f(xs[i], i)];
      i := i + 1;
    }
  }

  /** parseRSSToRealPosts: the item loop, then the empty-list fallback. */
  method ParseRssToRealPosts(blogId: string, limit: nat, items: Option<seq<FeedItem>>,
                             htmlText: string -> string, parse: string -> Option<int>, now: int) returns (r: CrawledPosts)
    ensures r == ParseFeed(blogId, limit, items, htmlText, parse, now)
  {
    if items.None? {
      var fallback := GenerateFallbackPosts(blogId, limit, now);
      return Synthesised(fallback);
    }
    var all := items.value;
    var posts := MapIndexedLoop(all, MinI(|all|, limit), ItemParser(htmlText, parse, now));
    if |posts| == 0 {
      var fallback := GenerateFallbackPosts(blogId, limit, now);
      return Synthesised(fallback);
    }
    r := FromFeed(posts);
  }

  // ---------------------------------------------------------------------------
  // The ladder

  function FeedUrls(blogId: string): (r: seq<string>)
    ensures |r| == 3
  {
    [ "https://rss.blog.naver.com/" + blogId + ".xml",
      "https://blog.naver.com/rss.naver?blogId=" + blogId,
      "https://blog.naver.com/" + blogId + "/rss" ]
  }

  /** What the route learns from outside. */
  datatype PostSources = PostSources(
    api: Result<seq<ListedPost>>,
    respond: string -> Fetched<string>,
    items: string -> Option<seq<FeedItem>>,
    htmlText: string -> string,
    parse: string -> Option<int>,
    now: int)

  /** A feed answer is tried when it is `ok` and looks like RSS or Atom. */
  predicate FeedUsable(f: Fetched<string>) {
    f.Answered? && f.ok && LooksLikeFeed(f.body)
  }

  /** What one feed URL yields, `None` when the loop moves on. */
  function FeedAttempt(blogId: string, limit: nat, url: string, src: PostSources): Option<CrawledPosts> {
    var answer := src.respond(url);
    if FeedUsable(answer) then
      var r := ParseFeed(blogId, limit, src.items(answer.body), src.htmlText, src.parse, src.now);
      if r.Count() > 0 then Some(r) else None
    else None
  }

  /** What each feed URL yields, in order. */
  function FeedAttempts(blogId: string, limit: nat, urls: seq<string>, src: PostSources): (r: seq<Option<CrawledPosts>>)
    ensures |r| == |urls|
  {
    seq(|urls|, k requires 0 <= k < |urls| => FeedAttempt(blogId, limit, urls[k], src))
  }

  /** The first attempt, from index `k` on, that yields something. */
  function FirstSome<T>(attempts: seq<Option<T>>, k: nat): (r: Option<T>)
    requires k <= |attempts|
    decreases |attempts| - k
  {
    if k == |attempts| then None
    else if attempts[k].Some? then attempts[k]
    else FirstSome(attempts, k + 1)
  }

  /** The first feed, from index `k` on, whose attempt yields posts. */
  function FirstFeed(blogId: string, limit: nat, urls: seq<string>, k: nat, src: PostSources): (r: Option<CrawledPosts>)
    requires k <= |urls|
  {
    FirstSome(FeedAttempts(blogId, limit, urls, src), k)
  }

  /** crawlBlogPosts as a value. */
  function CrawledPostsOf(blogId: string, limit: nat, src: PostSources): CrawledPosts {
    if src.api.Success? && |src.api.value| > 0 then FromApi(Take(src.api.value, limit))
    else
      match FirstFeed(blogId, limit, FeedUrls(blogId), 0, src)
      case Some(p) => p
      case None => Synthesised(FallbackPosts(blogId, limit, src.now))
  }

  /** crawlBlogPosts: the API first, then the feeds in order (`continue` on a
      failed, non-`ok` or non-feed answer), then the synthetic list. */
  method CrawlBlogPosts(blogId: string, limit: nat, src: PostSources) returns (r: CrawledPosts)
    ensures r == CrawledPostsOf(blogId, limit, src)
  {
    if src.api.Success? && |src.api.value| > 0 {
      return FromApi(Take(src.api.value, limit));
    }
    var urls := FeedUrls(blogId);
    ghost var attempts := FeedAttempts(blogId, limit, urls, src);
    var i := 0;
    while i < |urls|
      invariant 0 <= i <= |urls|
      invariant FirstSome(attempts, 0) == FirstSome(attempts, i)
    {
      var answer := src.respond(urls[i]);
      if !(answer.Answered? && answer.ok) {
        i := i + 1;
        continue;
      }
      if !Includes(answer.body, "<rss") && !Includes(answer.body, "<feed") {
        i := i + 1;
        continue;
      }
      var posts := ParseRssToRealPosts(blogId, limit, src.items(answer.body), src.htmlText, src.parse, src.now);
      if posts.Count() > 0 {
        return posts;
      }
      i := i + 1;
    }
    var fallback := GenerateFallbackPosts(blogId, limit, src.now);
    r := Synthesised(fallback);
  }

  /** With a positive limit, the first usable feed ends the search: what it
      parses (or the synthetic list its parse falls back on) is the answer. */
  lemma FirstUsableFeedDecides(blogId: string, limit: nat, src: PostSources, k: nat)
    requires limit >= 1 && k < 3
    requires src.api.Failure? || |src.api.value| == 0
    requires FeedUsable(src.respond(FeedUrls(blogId)[k]))
    requires forall j :: 0 <= j < k ==> !FeedUsable(src.respond(FeedUrls(blogId)[j]))
    ensures CrawledPostsOf(blogId, limit, src) ==
              ParseFeed(blogId, limit, src.items(src.respond(FeedUrls(blogId)[k]).body), src.htmlText, src.parse, src.now)
  {
    var attempts := FeedAttempts(blogId, limit, FeedUrls(blogId), src);
    forall j | 0 <= j < k
      ensures attempts[j].None?
    {
      assert !FeedUsable(src.respond(FeedUrls(blogId)[j]));
    }
    FirstSomeSkips(attempts, 0, k);
  }

  /** Attempts that yield nothing are passed over. */
  lemma {:induction false} FirstSomeSkips<T>(attempts: seq<Option<T>>, from: nat, k: nat)
    requires from <= k <= |attempts|
    requires forall j :: from <= j < k ==> attempts[j].None?
    ensures FirstSome(attempts, from) == FirstSome(attempts, k)
    decreases k - from
  {
    if from < k {
      FirstSomeSkips(attempts, from + 1, k);
    }
  }

  /** crawlBlogPosts never comes back empty-handed for a positive limit, and
      never returns more than `limit` posts. */
  lemma CrawledPostsCount(blogId: string, limit: nat, src: PostSources)
    ensures 1 <= limit ==> CrawledPostsOf(blogId, limit, src).Count() >= 1
    ensures CrawledPostsOf(blogId, limit, src).Count() <= limit
  {
    FirstFeedBounded(blogId, limit, FeedUrls(blogId), 0, src);
  }

  /** What the search finds is one of the attempts. */
  lemma {:induction false} FirstSomeFound<T>(attempts: seq<Option<T>>, k: nat)
    requires k <= |attempts|
    ensures FirstSome(attempts, k).Some? ==>
              exists j :: k <= j < |attempts| && FirstSome(attempts, k) == attempts[j]
    decreases |attempts| - k
  {
    if k < |attempts| && attempts[k].None? {
      FirstSomeFound(attempts, k + 1);
    }
  }

  /** A feed that yields posts yields between one and `limit` of them. */
  lemma FeedAttemptBounded(blogId: string, limit: nat, url: string, src: PostSources)
    ensures FeedAttempt(blogId, limit, url, src).Some? ==>
              1 <= FeedAttempt(blogId, limit, url, src).value.Count() <= limit
  {
  }

  lemma FirstFeedBounded(blogId: string, limit: nat, urls: seq<string>, k: nat, src: PostSources)
    requires k <= |urls|
    ensures FirstFeed(blogId, limit, urls, k, src).Some? ==>
              1 <= FirstFeed(blogId, limit, urls, k, src).value.Count() <= limit
  {
    var attempts := FeedAttempts(blogId, limit, urls, src);
    FirstSomeFound(attempts, k);
    if FirstSome(attempts, k).Some? {
      var j :| k <= j < |attempts| && FirstSome(attempts, k) == attempts[j];
      FeedAttemptBounded(blogId, limit, urls[j], src);
    }
  }

  // ---------------------------------------------------------------------------
  // The route

  /** The JSON body: `blogId` ("" when missing or empty) and `limit` (`None`
      when missing). */
  datatype PostsRequest = PostsRequest(blogId: string, limit: Option<nat>)

  /** POST. `body` is `None` when the request body is unreadable or `null`,
      which the route's catch answers with 500. */
  method Post(body: Option<PostsRequest>, src: PostSources) returns (reply: Reply<CrawledPosts>)
    ensures body.None? <==> reply.status == 500
    ensures body.None? ==> reply.payload == Failure(ServerErrorMessage)
    ensures body.Some? && body.value.blogId == "" <==> reply.status == 400
    ensures body.Some? && body.value.blogId == "" ==> reply.payload == Failure(MissingIdMessage)
    ensures body.Some? && body.value.blogId != "" ==>
              reply.status == 200
              && reply.payload == Success(CrawledPostsOf(body.value.blogId, body.value.limit.GetOr(DefaultLimit), src))
  {
    if body.None? {
      return Reply(500, Failure(ServerErrorMessage));
    }
    var req := body.value;
    if req.blogId == "" {
      return Reply(400, Failure(MissingIdMessage));
    }
    var posts := CrawlBlogPosts(req.blogId, req.limit.GetOr(DefaultLimit), src);
    reply := Reply(200, Success(posts));
  }
}
