/** lib/playwright-crawler.ts: what the browser-driven crawler makes of the
    pages it visits. The browser itself (launch, navigation, DOM queries) is
    not modelled: what the page evaluations return arrives as values — the
    blog page's title, description and positive stat counters, the post list
    page's links in selector order, and for each post link the scraped post
    or nothing when scraping it failed. Date parsing is the parameter `parse`
    and the current time is `now` (milliseconds). */
module PlaywrightCrawler {
  import opened Common
  import opened Text
  import opened CategoryRules
  import opened BlogAnalysis
  import opened Nicknames

  // ---------------------------------------------------------------------------
  // Hash and estimates

  /** generateHash: the loop form of the hash every fallback seeds from; it
      computes exactly the reduce form of lib/blog-crawler.ts. */
  method GenerateHash(input: string) returns (h: nat)
    ensures h == Seed(input)
  {
    var hash := 0;
    var i := 0;
    while i < |input|
      invariant 0 <= i <= |input|
      invariant hash == StringHash(input[..i])
    {
      // `((hash << 5) - hash) + char`, then `hash & hash`
      hash := ToInt32(ToInt32(hash * 32) - hash + input[i] as int);
      assert input[..i + 1][..i] == input[..i];
      i := i + 1;
    }
    assert input[..|input|] == input;
    h := Abs(hash);
  }

  /** generateEstimate: `min + hash % (max - min)`; every caller passes
      constant bounds with `max > min`. */
  function Estimate(hash: nat, min: int, max: int): (r: int)
    requires min < max
    ensures min <= r < max
  {
    min + hash % (max - min)
  }

  // ---------------------------------------------------------------------------
  // Category

  /** The `categoryKeywords` object, in insertion order (which
      `Object.entries` keeps for these non-numeric keys). */
  const CategoryKeywords: seq<Rule> := [
    Rule("IT·컴퓨터", ["개발", "programming", "code", "tech", "기술", "컴퓨터", "it", "프로그래밍"]),
    Rule("맛집", ["음식", "맛집", "레시피", "요리", "food", "recipe", "카페", "맛"]),
    Rule("여행", ["여행", "관광", "travel", "휴가", "여행기", "해외", "국내여행"]),
    Rule("패션·미용", ["패션", "뷰티", "화장품", "스타일", "fashion", "beauty", "옷", "미용"]),
    Rule("건강·의학", ["건강", "운동", "의학", "병원", "health", "다이어트", "헬스"]),
    Rule("일상·생각", ["일상", "생각", "일기", "에세이", "감상", "개인"])
  ]

  /** The text estimateCategory searches. */
  function CategoryText(title: string, description: string): string {
    ToLower(title + " " + description)
  }

  /** estimateCategory: the nested loops return the category of the first
      keyword found, scanning categories and then keywords in order. */
  method EstimateCategory(title: string, description: string) returns (category: string)
    ensures category == Categorize(CategoryKeywords, CategoryText(title, description), NoCategory)
  {
    var text := CategoryText(title, description);
    var i := 0;
    while i < |CategoryKeywords|
      invariant 0 <= i <= |CategoryKeywords|
      invariant forall r :: 0 <= r < i ==> !RuleMatches(CategoryKeywords[r], text)
    {
      var keywords := CategoryKeywords[i].keywords;
      var j := 0;
      while j < |keywords|
        invariant 0 <= j <= |keywords|
        invariant forall k :: 0 <= k < j ==> !Includes(text, keywords[k])
      {
        if Includes(text, keywords[j]) {
          assert RuleMatches(CategoryKeywords[i], text);
          CategorizeSpec(CategoryKeywords, text, NoCategory);
          return CategoryKeywords[i].category;
        }
        j := j + 1;
      }
      i := i + 1;
    }
    CategorizeSpec(CategoryKeywords, text, NoCategory);
    category := NoCategory;
  }

  // ---------------------------------------------------------------------------
  // Blog metadata

  /** The stat counters the page evaluation found: a counter is kept only
      when it parsed to a positive number (the visitor counter it also
      collects is never read). */
  datatype PageStats = PageStats(postCount: Option<nat>, subscriberCount: Option<nat>)

  /** What the blog page's evaluations returned; an empty title stands for
      the `null` of no title found. */
  datatype BlogPage = BlogPage(title: string, description: string, stats: PageStats)

  /** A counter the page gave (`stats.x || estimate`). */
  function CounterOr(counter: Option<nat>, estimate: nat): nat {
    if counter.Some? && counter.value > 0 then counter.value else estimate
  }

  /** The nickname: `blogId` unless the title gives one. */
  function PageNickname(blogId: string, title: string): string {
    if title == "" then blogId else NicknameOr(title, blogId)
  }

  /** `Math.round((estimate / 10) * 100) / 100` for an estimate in [1, 10). */
  function Frequency(hash: nat): (r: real)
    ensures r == Estimate(hash, 1, 10) as real / 10.0
    ensures 0.1 <= r <= 0.9
  {
    var e := Estimate(hash, 1, 10);
    var hundredths := RoundHalfUp((e as real / 10.0) * 100.0);
    assert (e as real / 10.0) * 100.0 == (10 * e) as real;
    assert hundredths == 10 * e;
    hundredths as real / 100.0
  }

  /** extractBlogMetadata's record, every missing figure estimated from the
      hash of the blog id. */
  function MetadataEstimate(blogId: string, page: BlogPage): (r: BlogData)
    ensures r.blogId == blogId
    ensures r.nickname == PageNickname(blogId, page.title)
    ensures r.category == Categorize(CategoryKeywords, CategoryText(page.title, page.description), NoCategory)
    ensures page.stats.subscriberCount.Some? && page.stats.subscriberCount.value > 0 ==>
              r.subscriberCount == page.stats.subscriberCount.value
    ensures !(page.stats.subscriberCount.Some? && page.stats.subscriberCount.value > 0) ==> 100 <= r.subscriberCount < 5000
    ensures page.stats.postCount.Some? && page.stats.postCount.value > 0 ==> r.postCount == page.stats.postCount.value
    ensures !(page.stats.postCount.Some? && page.stats.postCount.value > 0) ==> 10 <= r.postCount < 500
    ensures r.scrapCount < 2000 && 500 <= r.averageViews < 10000
    ensures 0.1 <= r.postFrequency <= 0.9
  {
    var hash := Seed(blogId);
    BlogData(blogId, PageNickname(blogId, page.title),
      Categorize(CategoryKeywords, CategoryText(page.title, page.description), NoCategory),
      CounterOr(page.stats.subscriberCount, Estimate(hash, 100, 5000)),
      CounterOr(page.stats.postCount, Estimate(hash, 10, 500)),
      Estimate(hash, 0, 2000),
      Estimate(hash, 500, 10000),
      Frequency(hash),
      Some(Estimate(hash, 1000, 50000)),
      Some(Estimate(hash, 50, 500)),
      Some(Estimate(hash, 100, 2000)))
  }

  /** extractBlogMetadata, with the hash and the category computed by their loops. */
  method ExtractBlogMetadata(blogId: string, page: BlogPage) returns (r: BlogData)
    ensures r == MetadataEstimate(blogId, page)
  {
    var category := EstimateCategory(page.title, page.description);
    var hash := GenerateHash(blogId);
    r := BlogData(blogId, PageNickname(blogId, page.title), category,
      CounterOr(page.stats.subscriberCount, Estimate(hash, 100, 5000)),
      CounterOr(page.stats.postCount, Estimate(hash, 10, 500)),
      Estimate(hash, 0, 2000),
      Estimate(hash, 500, 10000),
      Frequency(hash),
      Some(Estimate(hash, 1000, 50000)),
      Some(Estimate(hash, 50, 500)),
      Some(Estimate(hash, 100, 2000)));
  }

  // ---------------------------------------------------------------------------
  // Posts

  /** What one post page's evaluation returned; an empty text stands for
      "nothing found". */
  datatype ScrapedPost = ScrapedPost(title: string, content: string, imageCount: nat, videoCount: nat, publishDateText: string)

  const UntitledPost: string := "제목 없음"
  const DatelessStepDays: nat := 3

  /** `Math.floor(Math.min(100, chars / 20 + images * 3) / 5)`. */
  function BaseInteraction(characters: nat, images: nat): (base: nat)
    ensures base <= 20
    ensures characters / 20 + 3 * images >= 100 ==> base == 20
  {
    var quality := MinR(100.0, characters as real / 20.0 + (3 * images) as real);
    assert 0.0 <= quality <= 100.0;
    assert characters / 20 + 3 * images >= 100 ==> quality == 100.0 by {
      assert characters as real / 20.0 >= (characters / 20) as real;
    }
    Floor(quality / 5.0)
  }

  /** The publish date: the parsed text when it is a valid date, the current
      time when the text is present but unparseable, and `3 * index` days
      back from now when there is no text. */
  function PublishDate(text: string, parse: string -> Option<int>, index: nat, now: int): (d: int)
    ensures text != "" && parse(text).Some? ==> d == parse(text).value
    ensures text != "" && parse(text).None? ==> d == now
    ensures text == "" ==> d == now - DatelessStepDays * index * DayMs
  {
    if text != "" then parse(text).GetOr(now) else now - DatelessStepDays * index * DayMs
  }

  /** The post extractSinglePost returns for a scraped page. */
  function PostEstimate(s: ScrapedPost, index: nat, parse: string -> Option<int>, now: int): (p: PostData)
    ensures p.title != "" && (s.title != "" ==> p.title == s.title)
    ensures p.content == s.content && p.characterCount == |s.content|
    ensures p.imageCount == s.imageCount && p.videoCount == s.videoCount
    ensures p.viewCount >= 100
    ensures p.commentCount >= BaseInteraction(|s.content|, s.imageCount) / 3
    ensures p.likeCount >= BaseInteraction(|s.content|, s.imageCount) / 2
    ensures p.commentCount < 30 + 7 && p.likeCount < 100 + 11
  {
    var title := if s.title != "" then s.title else UntitledPost;
    var hash := Seed(title + NatToString(index));
    var base := BaseInteraction(|s.content|, s.imageCount);
    PostData(title, s.content, PublishDate(s.publishDateText, parse, index, now),
      s.imageCount, s.videoCount, |s.content|,
      MaxI(0, Estimate(hash, 0, 30) + base / 3),
      MaxI(0, Estimate(hash, 0, 100) + base / 2),
      MaxI(100, Estimate(hash, 100, 5000) + base * 5))
  }

  const MaxPostLinks: nat := 20
  const MaxPosts: nat := 10

  /** The links gathered in order: non-empty hrefs containing "PostView",
      each kept once. */
  function Gathered(hrefs: seq<string>): (links: seq<string>)
    ensures |links| <= |hrefs|
  {
    if |hrefs| == 0 then []
    else
      var before := Gathered(hrefs[..|hrefs| - 1]);
      var h := hrefs[|hrefs| - 1];
      if h != "" && Includes(h, "PostView") && h !in before then before + [h] else before
  }

  /** Gathered links are distinct post links, and every post link among the
      hrefs is gathered. */
  lemma {:induction false} GatheredSpec(hrefs: seq<string>)
    ensures forall i, j :: 0 <= i < j < |Gathered(hrefs)| ==> Gathered(hrefs)[i] != Gathered(hrefs)[j]
    ensures forall l :: l in Gathered(hrefs) <==> l in hrefs && l != "" && Includes(l, "PostView")
  {
    if |hrefs| > 0 {
      var init := hrefs[..|hrefs| - 1];
      GatheredSpec(init);
      assert hrefs == init + [hrefs[|hrefs| - 1]];
    }
  }

  /** The link-collecting evaluation: gathers across the selectors' hrefs
      (given in selector order) and keeps the first 20. */
  method CollectPostLinks(hrefs: seq<string>) returns (links: seq<string>)
    ensures links == Gathered(hrefs)[..MinI(|Gathered(hrefs)|, MaxPostLinks)]
  {
    var all: seq<string> := [];
    var i := 0;
    while i < |hrefs|
      invariant 0 <= i <= |hrefs|
      invariant all == Gathered(hrefs[..i])
    {
      var h := hrefs[i];
      assert hrefs[..i + 1][..i] == hrefs[..i];
      if h != "" && Includes(h, "PostView") && h !in all {
        all := all + [h];
      }
      i := i + 1;
    }
    assert hrefs[..|hrefs|] == hrefs;
    links := all[..MinI(|all|, MaxPostLinks)];
  }

  /** The posts of the first `n` links, skipping those that failed. */
  function PostsOf(links: seq<string>, scrape: (string, nat) -> Option<ScrapedPost>,
                   parse: string -> Option<int>, now: int, n: nat): (posts: seq<PostData>)
    requires n <= |links|
    ensures |posts| <= n
  {
    if n == 0 then []
    else
      var before := PostsOf(links, scrape, parse, now, n - 1);
      match scrape(links[n - 1], n - 1)
      case Some(s) => before + [PostEstimate(s, n - 1, parse, now)]
      case None => before
  }

  /** When every page scrapes, each of the first `n` links gives its post. */
  lemma {:induction false} PostsOfAllScraped(links: seq<string>, scrape: (string, nat) -> Option<ScrapedPost>,
                                             parse: string -> Option<int>, now: int, n: nat)
    requires n <= |links|
    requires forall i :: 0 <= i < n ==> scrape(links[i], i).Some?
    ensures |PostsOf(links, scrape, parse, now, n)| == n
    ensures forall i :: 0 <= i < n ==> PostsOf(links, scrape, parse, now, n)[i] == PostEstimate(scrape(links[i], i).value, i, parse, now)
  {
    if n > 0 {
      PostsOfAllScraped(links, scrape, parse, now, n - 1);
      var before := PostsOf(links, scrape, parse, now, n - 1);
      var last := PostEstimate(scrape(links[n - 1], n - 1).value, n - 1, parse, now);
      assert PostsOf(links, scrape, parse, now, n) == before + [last];
      forall i | 0 <= i < n - 1 ensures (before + [last])[i] == before[i] { }
    }
  }

  /** extractBlogPosts after the links are collected: the first 10 links are
      scraped in order and the posts of those that succeeded kept. */
  method ExtractBlogPosts(links: seq<string>, scrape: (string, nat) -> Option<ScrapedPost>,
                          parse: string -> Option<int>, now: int) returns (posts: seq<PostData>)
    ensures posts == PostsOf(links, scrape, parse, now, MinI(|links|, MaxPosts))
    ensures |posts| <= MaxPosts
  {
    posts := [];
    var i := 0;
    while i < MinI(|links|, MaxPosts)
      invariant 0 <= i <= MinI(|links|, MaxPosts)
      invariant posts == PostsOf(links, scrape, parse, now, i)
    {
      var scraped := scrape(links[i], i);
      if scraped.Some? {
        posts := posts + [PostEstimate(scraped.value, i, parse, now)];
      }
      i := i + 1;
    }
  }

  // ---------------------------------------------------------------------------
  // The crawl

  /** What crawlBlogWithPlaywright resolves to (the error message is not modelled). */
  datatype PlaywrightOutcome = PlaywrightOutcome(success: bool, data: Option<BlogData>, posts: Option<seq<PostData>>)

  /** What the visit of a loaded blog gave: the blog page's evaluations, or
      `None` when one of them threw (extractBlogMetadata then answers `null`);
      and the hrefs of the post list page in selector order, or `None` when
      navigating to it or evaluating it threw (extractBlogPosts then answers
      no posts). */
  datatype Visit = Visit(metadata: Option<BlogPage>, postListHrefs: Option<seq<string>>)

  /** The posts the post list page gives: those of its first 20 gathered
      links, scraped up to 10. */
  function ListedPosts(hrefs: seq<string>, scrape: (string, nat) -> Option<ScrapedPost>,
                       parse: string -> Option<int>, now: int): (posts: seq<PostData>)
    ensures |posts| <= MaxPosts
  {
    var links := Gathered(hrefs)[..MinI(|Gathered(hrefs)|, MaxPostLinks)];
    PostsOf(links, scrape, parse, now, MinI(|links|, MaxPosts))
  }

  /** crawlBlogWithPlaywright: `visit` is `None` when launching the browser or
      loading the blog failed; otherwise a success carrying the metadata
      (`null` when its evaluations threw) and the posts (none when the post
      list failed). */
  method CrawlWithPlaywright(blogId: string, visit: Option<Visit>, scrape: (string, nat) -> Option<ScrapedPost>,
                             parse: string -> Option<int>, now: int) returns (r: PlaywrightOutcome)
    ensures visit.None? ==> !r.success && r.data.None? && r.posts.None?
    ensures visit.Some? ==> r.success && r.posts.Some?
    ensures visit.Some? ==>
              r.data == if visit.value.metadata.Some? then Some(MetadataEstimate(blogId, visit.value.metadata.value)) else None
    ensures visit.Some? && visit.value.postListHrefs.None? ==> r.posts.value == []
    ensures visit.Some? && visit.value.postListHrefs.Some? ==>
              r.posts.value == ListedPosts(visit.value.postListHrefs.value, scrape, parse, now)
  {
    if visit.None? {
      return PlaywrightOutcome(false, None, None);
    }
    var data: Option<BlogData> := None;
    if visit.value.metadata.Some? {
      var d := ExtractBlogMetadata(blogId, visit.value.metadata.value);
      data := Some(d);
    }
    var posts: seq<PostData> := [];
    if visit.value.postListHrefs.Some? {
      var links := CollectPostLinks(visit.value.postListHrefs.value);
      posts := ExtractBlogPosts(links, scrape, parse, now);
    }
    r := PlaywrightOutcome(true, data, Some(posts));
  }
}
