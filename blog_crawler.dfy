/** lib/blog-crawler.ts: the blog id taken from user input, the seeded
    synthetic blogs and posts that stand in when nothing can be fetched, the
    daily crawling limits, and `crawlBlog`, the ladder of acquisition
    strategies with the metadata that tags how the data was obtained.

    `Math.random` draws are parameters or nondeterministic choices; the
    current time is the parameter `now` (milliseconds). */
module BlogCrawler {
  import opened Common
  import opened Text
  import opened CategoryRules
  import opened Plans
  import opened Templates
  import opened BlogAnalysis
  import opened NaverApiClient
  import PlaywrightCrawler

  // ---------------------------------------------------------------------------
  // Blog id from user input

  /** `/<lit>([^<stop>]+)/`: the literal and the characters that end the captured id. */
  datatype UrlPattern = UrlPattern(lit: string, stop: set<char>)

  const NaverHost: string := "blog.naver.com/"
  const PostViewPage: string := "PostView.naver"
  const PostListPage: string := "PostList.naver"
  const IdQuery: string := "?blogId="
  const PostViewQuery: string := PostViewPage + IdQuery
  const PostListQuery: string := PostListPage + IdQuery

  const HostPattern: UrlPattern := UrlPattern(NaverHost, {'/', '?'})
  const PostViewPattern: UrlPattern := UrlPattern(NaverHost + PostViewQuery, {'&'})
  const PostListPattern: UrlPattern := UrlPattern(NaverHost + PostListQuery, {'&'})

  /** The patterns in the order lib/blog-crawler.ts:21-25 lists them. */
  const UrlPatternsAsWritten: seq<UrlPattern> := [HostPattern, PostViewPattern, PostListPattern]

  /** The same patterns with the two page-specific ones tried first. */
  const UrlPatterns: seq<UrlPattern> := [PostViewPattern, PostListPattern, HostPattern]

  /** The capture of the first pattern, in list order, that matches. */
  function FirstPatternMatch(input: string, patterns: seq<UrlPattern>): (r: Option<string>)
    ensures r.Some? ==> |r.value| >= 1
    ensures r.None? <==> forall k :: 0 <= k < |patterns| ==> MatchLiteralRun(input, patterns[k].lit, patterns[k].stop, 0).None?
  {
    if |patterns| == 0 then None
    else
      match MatchLiteralRun(input, patterns[0].lit, patterns[0].stop, 0)
      case Some(id) => Some(id)
      case None =>
        var rest := FirstPatternMatch(input, patterns[1..]);
        assert forall k :: 1 <= k < |patterns| ==> patterns[k] == patterns[1..][k - 1];
        rest
  }

  /** extractBlogId with a given pattern order: a URL match, else the trimmed
      input when it is a plain id, else `null`. */
  function ExtractWith(patterns: seq<UrlPattern>, input: string): (r: Option<string>)
    ensures r.Some? ==> |r.value| >= 1
  {
    match FirstPatternMatch(input, patterns)
    case Some(id) => Some(id)
    case None => if IsIdString(Trim(input)) then Some(Trim(input)) else None
  }

  /** extractBlogId as lib/blog-crawler.ts:19-38 writes it, which crawlBlog runs (see README, Findings). */
  function ExtractBlogIdAsWritten(input: string): (r: Option<string>)
    ensures r.Some? ==> |r.value| >= 1
  {
    ExtractWith(UrlPatternsAsWritten, input)
  }

  /** extractBlogId with the page-specific patterns first: the intended order (see README, Findings). */
  function ExtractBlogId(input: string): (r: Option<string>)
    ensures r.Some? ==> |r.value| >= 1
  {
    ExtractWith(UrlPatterns, input)
  }

  /** The first pattern matches any `blog.naver.com/<segment>`: a post-page
      URL yields the page name, never the `blogId` query parameter. */
  lemma HostPatternShadows(p: string, page: string, rest: string)
    requires 'b' !in p
    requires |page| >= 1 && '/' !in page && '?' !in page
    requires |rest| >= 1 && rest[0] == '?'
    ensures ExtractBlogIdAsWritten(p + NaverHost + page + rest) == Some(page)
  {
    var s := p + NaverHost + page + rest;
    forall j | 0 <= j < |p|
      ensures !OccursAt(s, NaverHost, j)
    {
      assert s[j] == p[j];
      if j + |NaverHost| <= |s| {
        assert s[j..j + |NaverHost|][0] == s[j];
      }
    }
    MatchLiteralRunSkip(s, NaverHost, {'/', '?'}, 0, |p|);
    var start := |p| + |NaverHost|;
    assert s[|p|..start] == NaverHost;
    assert s[start..start + |page|] == page;
    assert s[start + |page|] == '?';
    assert s[start] == page[0];
    RunUntilAt(s, start, {'/', '?'}, start + |page|);
    assert MatchLiteralRun(s, NaverHost, {'/', '?'}, |p|) == Some(page);
  }

  /** A post-view URL loses its id as written. */
  lemma PostViewShadowed(p: string, id: string)
    requires 'b' !in p
    ensures ExtractBlogIdAsWritten(p + NaverHost + PostViewQuery + id) == Some("PostView.naver")
  {
    assert p + NaverHost + PostViewQuery + id == p + NaverHost + PostViewPage + (IdQuery + id);
    HostPatternShadows(p, PostViewPage, IdQuery + id);
  }

  /** A post-list URL loses its id as written. */
  lemma PostListShadowed(p: string, id: string)
    requires 'b' !in p
    ensures ExtractBlogIdAsWritten(p + NaverHost + PostListQuery + id) == Some("PostList.naver")
  {
    assert p + NaverHost + PostListQuery + id == p + NaverHost + PostListPage + (IdQuery + id);
    HostPatternShadows(p, PostListPage, IdQuery + id);
  }

  /** A literal first found right after `p` captures the rest when the rest has no stop character. */
  lemma RunAfterLiteral(p: string, lit: string, id: string, stop: set<char>)
    requires |lit| >= 1 && lit[0] !in p
    requires |id| >= 1 && forall k :: 0 <= k < |id| ==> id[k] !in stop
    ensures MatchLiteralRun(p + lit + id, lit, stop, 0) == Some(id)
  {
    var s := p + lit + id;
    forall j | 0 <= j < |p|
      ensures !OccursAt(s, lit, j)
    {
      assert s[j] == p[j];
      if j + |lit| <= |s| {
        assert s[j..j + |lit|][0] == s[j];
      }
    }
    MatchLiteralRunSkip(s, lit, stop, 0, |p|);
    var start := |p| + |lit|;
    assert s[|p|..start] == lit;
    assert s[start..|s|] == id;
    assert s[start] == id[0] && id[0] !in stop;
    assert OccursAt(s, lit, |p|);
    RunUntilAt(s, start, stop, |s|);
    assert MatchLiteralRun(s, lit, stop, |p|) == Some(id);
  }

  /** With the page-specific pattern first, a post-page URL yields its `blogId`. */
  lemma PostViewUrlYieldsId(p: string, id: string)
    requires 'b' !in p
    requires |id| >= 1 && '&' !in id
    ensures ExtractBlogId(p + NaverHost + PostViewQuery + id) == Some(id)
  {
    var lit := NaverHost + PostViewQuery;
    assert lit[0] == 'b';
    assert p + NaverHost + PostViewQuery + id == p + lit + id;
    RunAfterLiteral(p, lit, id, {'&'});
  }

  /** A plain id (`/^[a-zA-Z0-9_-]+$/`) is returned unchanged by both orders:
      every pattern holds a `.`, which an id lacks. */
  lemma PlainIdKept(id: string)
    requires IsIdString(id)
    ensures ExtractBlogId(id) == Some(id)
    ensures ExtractBlogIdAsWritten(id) == Some(id)
  {
    assert '.' !in id;
    NoPatternMatches(id, HostPattern);
    NoPatternMatches(id, PostViewPattern);
    NoPatternMatches(id, PostListPattern);
    assert FirstPatternMatch(id, UrlPatterns).None?;
    assert FirstPatternMatch(id, UrlPatternsAsWritten).None?;
    IdStringHasNoSpace(id);
    TrimSpec(id);
  }

  lemma NoPatternMatches(id: string, pat: UrlPattern)
    requires |pat.lit| > 4 && pat.lit[4] == '.' && '.' !in id
    ensures MatchLiteralRun(id, pat.lit, pat.stop, 0).None?
  {
    NoOccurrenceWithout(id, pat.lit, 4);
    MatchLiteralRunNone(id, pat.lit, pat.stop, 0);
  }

  /** Input that matches no pattern and is not an id after trimming gives `null`. */
  lemma RejectsNonId(input: string)
    requires forall k :: 0 <= k < |UrlPatterns| ==> MatchLiteralRun(input, UrlPatterns[k].lit, UrlPatterns[k].stop, 0).None?
    requires !IsIdString(Trim(input))
    ensures ExtractBlogId(input) == None
    ensures ExtractBlogIdAsWritten(input) == None
  {
    assert MatchLiteralRun(input, HostPattern.lit, HostPattern.stop, 0).None? by { assert UrlPatterns[2] == HostPattern; }
    assert MatchLiteralRun(input, PostViewPattern.lit, PostViewPattern.stop, 0).None? by { assert UrlPatterns[0] == PostViewPattern; }
    assert MatchLiteralRun(input, PostListPattern.lit, PostListPattern.stop, 0).None? by { assert UrlPatterns[1] == PostListPattern; }
  }

  /** The two pattern orders reject the same inputs: reordering only changes
      which capture wins. */
  lemma OrdersRejectAlike(input: string)
    ensures ExtractBlogIdAsWritten(input).None? <==> ExtractBlogId(input).None?
  {
    var h := MatchLiteralRun(input, HostPattern.lit, HostPattern.stop, 0);
    var v := MatchLiteralRun(input, PostViewPattern.lit, PostViewPattern.stop, 0);
    var l := MatchLiteralRun(input, PostListPattern.lit, PostListPattern.stop, 0);
    assert FirstPatternMatch(input, UrlPatternsAsWritten).None? <==> h.None? && v.None? && l.None? by {
      assert UrlPatternsAsWritten[0] == HostPattern && UrlPatternsAsWritten[1] == PostViewPattern
          && UrlPatternsAsWritten[2] == PostListPattern;
    }
    assert FirstPatternMatch(input, UrlPatterns).None? <==> h.None? && v.None? && l.None? by {
      assert UrlPatterns[0] == PostViewPattern && UrlPatterns[1] == PostListPattern && UrlPatterns[2] == HostPattern;
    }
  }

  // ---------------------------------------------------------------------------
  // Seeded synthetic blogs

  /** The categories generateMockBlogData draws from. */
  const MockCategories: seq<string> := [
    "일상·생각", "맛집", "여행", "패션·미용", "스타·연예인",
    "취미·게임", "인테리어·DIY", "비즈니스·경제", "IT·컴퓨터",
    "건강·의학", "교육·학문", "문화·예술", "주제 없음"
  ]

  /** generateMockBlogData: every count is a residue of the seed; only the
      category is random, and `pick` is the index `Math.random` chose. */
  function MockBlogData(blogId: string, pick: nat): (r: BlogData)
    requires pick < |MockCategories|
    ensures r.blogId == blogId && r.nickname == blogId + "님" && r.category == MockCategories[pick]
    ensures 10 <= r.subscriberCount <= 10009 && 5 <= r.postCount <= 1004
    ensures r.scrapCount < 5000 && 100 <= r.averageViews <= 50099
    ensures 0.0 <= r.postFrequency <= 5.0
  {
    var seed := Seed(blogId);
    var tenths := RoundHalfUp((seed % 500) as real / 100.0 * 10.0);
    assert 0 <= tenths <= 50;
    BlogData(blogId, blogId + "님", MockCategories[pick],
      seed % 10000 + 10, seed % 1000 + 5, seed % 5000, seed % 50000 + 100,
      tenths as real / 10.0,
      Some(seed % 100000), Some(seed % 1000), Some(seed % 5000))
  }

  /** Two draws of the category give the same blog in every other field. */
  lemma MockBlogDataDeterministic(blogId: string, a: nat, b: nat)
    requires a < |MockCategories| && b < |MockCategories|
    ensures MockBlogData(blogId, a) == MockBlogData(blogId, b).(category := MockCategories[a])
  {
  }

  const MockTitles: seq<string> := [
    "오늘의 일상 공유", "맛있는 레시피 소개", "여행 후기와 팁", "최신 트렌드 정보",
    "개인적인 생각과 경험", "유용한 정보 공유", "제품 리뷰와 추천", "취미 활동 기록",
    "건강 관리 팁", "문화 생활 후기"
  ]

  const MockContentTail: string :=
    "다양한 정보와 개인적인 경험을 공유하며, 독자들에게 유용한 콘텐츠를 제공하고자 합니다. "
    + "블로그를 통해 소통하고 함께 성장하는 공간을 만들어가고 있습니다."

  /** Post `i` of generateMockPostData, seeded with `seed + i`, dated `3·i` days back. */
  function MockPost(blogId: string, seed: nat, i: nat, now: int): (p: PostData)
    ensures p.title == MockTitles[i % |MockTitles|] + " " + NatToString(i + 1)
    ensures p.publishDate == now - 3 * i * DayMs
    ensures 1 <= p.imageCount <= 15 && p.videoCount <= 2 && 500 <= p.characterCount <= 3499
    ensures p.commentCount < 50 && p.likeCount < 200 && 100 <= p.viewCount <= 10099
  {
    var ps := seed + i;
    PostData(MockTitles[i % |MockTitles|] + " " + NatToString(i + 1),
      "이것은 " + blogId + " 블로그의 " + NatToString(i + 1) + "번째 포스트 내용입니다. " + MockContentTail,
      now - 3 * i * DayMs,
      ps % 15 + 1, ps % 3, ps % 3000 + 500, ps % 50, ps % 200, ps % 10000 + 100)
  }

  /** generateMockPostData: the for-loop pushing `count` posts. */
  method GenerateMockPostData(blogId: string, count: nat, now: int) returns (posts: seq<PostData>)
    ensures |posts| == count
    ensures forall i :: 0 <= i < count ==> posts[i] == MockPost(blogId, Seed(blogId), i, now)
  {
    var seed := Seed(blogId);
    posts := [];
    var i := 0;
    while i < count
      invariant i <= count && |posts| == i
      invariant forall j :: 0 <= j < i ==> posts[j] == MockPost(blogId, seed, j, now)
    {
      posts := posts + [MockPost(blogId, seed, i, now)];
      i := i + 1;
    }
  }

  // ---------------------------------------------------------------------------
  // The enhanced synthetic blog

  datatype Range = Range(lo: nat, hi: nat)

  /** An entry of `realBlogPatterns`: a known blog name and its figures. */
  datatype BlogPattern = BlogPattern(key: string, category: string, subscribers: Range, posts: Range)

  /** `realBlogPatterns`, in the order `Object.entries` lists it. */
  const BlogPatterns: seq<BlogPattern> := [
    BlogPattern("macgii", "IT·컴퓨터", Range(3000, 8000), Range(200, 800)),
    BlogPattern("soyoung-choi", "패션·미용", Range(1000, 5000), Range(100, 500)),
    BlogPattern("happylife", "일상·생각", Range(500, 3000), Range(50, 300)),
    BlogPattern("cooking_mom", "맛집", Range(2000, 6000), Range(150, 600)),
    BlogPattern("travel_blog", "여행", Range(4000, 10000), Range(200, 700))
  ]

  /** The id contains the key, or the key contains the id, ignoring case. */
  predicate PatternMatches(blogId: string, pattern: BlogPattern) {
    Includes(ToLower(blogId), ToLower(pattern.key)) || Includes(ToLower(pattern.key), ToLower(blogId))
  }

  /** The first pattern, in table order, that matches. */
  function FindPatternFrom(blogId: string, k: nat): (r: Option<nat>)
    requires k <= |BlogPatterns|
    decreases |BlogPatterns| - k
    ensures r.Some? ==> k <= r.value < |BlogPatterns| && PatternMatches(blogId, BlogPatterns[r.value])
    ensures r.Some? ==> forall j :: k <= j < r.value ==> !PatternMatches(blogId, BlogPatterns[j])
    ensures r.None? <==> forall j :: k <= j < |BlogPatterns| ==> !PatternMatches(blogId, BlogPatterns[j])
  {
    if k == |BlogPatterns| then None
    else if PatternMatches(blogId, BlogPatterns[k]) then Some(k)
    else FindPatternFrom(blogId, k + 1)
  }

  function FindPattern(blogId: string): Option<nat> {
    FindPatternFrom(blogId, 0)
  }

  /** The case-sensitive keyword heuristic tried when no pattern matches. */
  const HeuristicRules: seq<Rule> := [
    Rule("IT·컴퓨터", ["tech", "dev", "code"]),
    Rule("패션·미용", ["beauty", "fashion", "style"]),
    Rule("맛집", ["food", "cook", "recipe"]),
    Rule("여행", ["travel", "trip"]),
    Rule("일상·생각", ["life", "daily"])
  ]

  const FallbackCategories: seq<string> := ["일상·생각", "맛집", "여행", "패션·미용", "IT·컴퓨터", "건강·의학"]

  /** `s.split('').reduce((a, b) => a + b.charCodeAt(0), 0)`: the sum of the
      character codes, without wrap-around. */
  function CodeSum(s: string): nat {
    if |s| == 0 then 0 else CodeSum(s[..|s| - 1]) + s[|s| - 1] as nat
  }

  function EnhancedCategory(blogId: string): string {
    match FindPattern(blogId)
    case Some(k) => BlogPatterns[k].category
    case None => Categorize(HeuristicRules, blogId, FallbackCategories[CodeSum(blogId) % |FallbackCategories|])
  }

  /** The subscriber and post ranges: the pattern's, else [100, 5000) and [10, 500). */
  function EnhancedRanges(blogId: string): (r: (Range, Range))
    ensures r.0.lo < r.0.hi && r.1.lo < r.1.hi
  {
    match FindPattern(blogId)
    case Some(k) => (BlogPatterns[k].subscribers, BlogPatterns[k].posts)
    case None => (Range(100, 5000), Range(10, 500))
  }

  /** `Math.floor(n * f)` for a non-negative factor. */
  function FloorScaled(n: nat, f: real): (r: nat)
    requires f >= 0.0
    ensures r as real <= n as real * f < r as real + 1.0
  {
    Floor(n as real * f)
  }

  /** generateEnhancedMockData. */
  function EnhancedMockData(blogId: string): (r: BlogData)
    ensures r.blogId == blogId && r.nickname == RealisticNickname(blogId)
    ensures r.category == EnhancedCategory(blogId)
    ensures EnhancedRanges(blogId).0.lo <= r.subscriberCount < EnhancedRanges(blogId).0.hi
    ensures EnhancedRanges(blogId).1.lo <= r.postCount < EnhancedRanges(blogId).1.hi
    ensures r.scrapCount >= r.subscriberCount * 3 / 10 && r.averageViews >= r.subscriberCount
  {
    var seed := Seed(blogId);
    var (subs, posts) := EnhancedRanges(blogId);
    var subscriberCount := subs.lo + seed % (subs.hi - subs.lo);
    var postCount := posts.lo + seed % (posts.hi - posts.lo);
    BlogData(blogId, RealisticNickname(blogId), EnhancedCategory(blogId),
      subscriberCount, postCount,
      FloorScaled(subscriberCount, 0.3) + seed % 1000,
      FloorScaled(subscriberCount, 1.5) + seed % 5000,
      RoundHalfUp(postCount as real / 365.0 * 100.0) as real / 100.0,
      Some(subscriberCount * 10 + seed % 50000),
      Some(FloorScaled(subscriberCount, 0.1) + seed % 500),
      Some(FloorScaled(subscriberCount, 0.5) + seed % 2000))
  }

  /** The enhanced category is a matching pattern's (the first one), or,
      without a pattern, the heuristic's or a fallback: always one of six. */
  lemma EnhancedCategorySpec(blogId: string)
    ensures FindPattern(blogId).Some? ==> EnhancedCategory(blogId) == BlogPatterns[FindPattern(blogId).value].category
    ensures EnhancedCategory(blogId) in FallbackCategories
  {
    if FindPattern(blogId).Some? {
      PatternCategoriesKnown();
    } else {
      HeuristicCategoriesKnown();
      var i := CodeSum(blogId) % |FallbackCategories|;
      assert FallbackCategories[i] in FallbackCategories;
    }
  }

  lemma PatternCategoriesKnown()
    ensures forall j :: 0 <= j < |BlogPatterns| ==> BlogPatterns[j].category in FallbackCategories
  {
  }

  lemma HeuristicCategoriesKnown()
    ensures forall j :: 0 <= j < |HeuristicRules| ==> HeuristicRules[j].category in FallbackCategories
  {
  }

  lemma PatternKeysLower(k: nat)
    requires k < |BlogPatterns|
    ensures NoUpperAscii(BlogPatterns[k].key)
  {
    assert forall j :: 0 <= j < |BlogPatterns| ==> NoUpperAscii(BlogPatterns[j].key);
  }

  /** A known blog name in the id selects that blog's figures. */
  lemma KnownBlogPattern(prefix: string, k: nat, suffix: string)
    requires k < |BlogPatterns|
    requires forall j :: 0 <= j < k ==> !PatternMatches(prefix + BlogPatterns[k].key + suffix, BlogPatterns[j])
    ensures FindPattern(prefix + BlogPatterns[k].key + suffix) == Some(k)
  {
    var id := prefix + BlogPatterns[k].key + suffix;
    var key := BlogPatterns[k].key;
    PatternKeysLower(k);
    ToLowerSpec(key);
    assert OccursAt(id, key, |prefix|) by {
      assert id[|prefix|..|prefix| + |key|] == key;
    }
    IncludesAt(id, key, |prefix|);
    IncludesSurvivesLower(id, key);
    assert PatternMatches(id, BlogPatterns[k]);
  }

  const CommonNicknames: seq<string> := [
    "블로거", "일상기록자", "취미생활", "소소한일상", "생활정보",
    "맛집탐방", "여행러버", "책읽는사람", "운동매니아", "요리연구가"
  ]

  /** generateRealisticNickname: a short plain id is kept, anything else gets
      a stock nickname chosen by the character-code sum. */
  function RealisticNickname(blogId: string): (r: string)
    ensures |r| >= 1
    ensures |blogId| <= 10 && IsIdString(blogId) ==> r == blogId
    ensures !(|blogId| <= 10 && IsIdString(blogId)) ==> r in CommonNicknames
  {
    if |blogId| <= 10 && IsIdString(blogId) then blogId
    else
      var r := CommonNicknames[CodeSum(blogId) % |CommonNicknames|];
      assert forall j :: 0 <= j < |CommonNicknames| ==> |CommonNicknames[j]| >= 1;
      r
  }

  // ---------------------------------------------------------------------------
  // Daily crawling limits

  /** `remaining` is `None` where the source computes NaN. */
  datatype CrawlingLimits = CrawlingLimits(allowed: bool, limit: LimitValue, remaining: Option<nat>)

  /** checkCrawlingLimits: remaining is max(0, limit − usage), and crawling
      is allowed exactly when something remains. */
  function CheckCrawlingLimits(userPlan: string, todayUsage: int): (r: CrawlingLimits)
    ensures r.limit == LimitOrZero(userPlan)
    ensures r.allowed <==> r.limit.Number? && todayUsage < r.limit.n
    ensures r.remaining.Some? <==> r.limit.Number?
    ensures r.remaining.Some? ==> r.remaining.value + todayUsage >= r.limit.n
    ensures r.remaining.Some? && r.remaining.value > 0 ==> r.remaining.value + todayUsage == r.limit.n
  {
    var limit := LimitOrZero(userPlan);
    match limit
    case Number(n) =>
      var remaining := MaxI(0, n - todayUsage);
      CrawlingLimits(remaining > 0, limit, Some(remaining))
    case NonNumeric =>
      CrawlingLimits(false, limit, None)
  }

  /** Unknown plans and the free plan never allow a crawl once usage is counted from 0. */
  lemma NoCrawlWithoutPaidPlan(userPlan: string, todayUsage: int)
    requires userPlan !in {"basic", "standard"} && todayUsage >= 0
    ensures !CheckCrawlingLimits(userPlan, todayUsage).allowed
  {
  }

  // ---------------------------------------------------------------------------
  // Realistic synthetic posts

  /** The placeholders the title templates use. */
  const SlotNames: set<string> := {"주제", "계절", "활동", "제품명", "장소"}

  /** `titleTemplates`, each written as its pieces: `Slot("주제")` stands for `{주제}`. */
  const TitleTemplates: seq<seq<Piece>> := [
    [Lit("오늘의 "), Slot("주제"), Lit(" 이야기")],
    [Slot("계절"), Lit(" "), Slot("활동"), Lit(" 후기")],
    [Slot("제품명"), Lit(" 솔직 리뷰")],
    [Slot("장소"), Lit(" 방문 기록")],
    [Slot("주제"), Lit("에 대한 개인적인 생각")],
    [Lit("최근에 "), Slot("활동"), Lit("한 경험")],
    [Slot("주제"), Lit(" 관련 유용한 팁")],
    [Lit("일상 속 "), Slot("주제"), Lit(" 발견")],
    [Slot("주제"), Lit(" 추천과 후기")],
    [Slot("계절"), Lit("에 어울리는 "), Slot("활동")]
  ]

  const Subjects: seq<string> := ["요리", "독서", "영화", "음악", "운동", "여행", "카페", "맛집", "쇼핑", "취미"]
  const Seasons: seq<string> := ["봄", "여름", "가을", "겨울"]
  const Activities: seq<string> := ["체험", "탐방", "도전", "경험", "시도"]
  const Places: seq<string> := ["카페", "맛집", "공원", "전시회", "서점", "영화관"]

  /** The five `title.replace('{…}', value)` calls of
      lib/blog-crawler.ts:488-492 on a template text. */
  function FillTitle(template: string, subject: string, season: string, activity: string, place: string): string {
    var t1 := ReplaceFirst(template, Placeholder("주제"), subject);
    var t2 := ReplaceFirst(t1, Placeholder("계절"), season);
    var t3 := ReplaceFirst(t2, Placeholder("활동"), activity);
    var t4 := ReplaceFirst(t3, Placeholder("제품명"), subject);
    ReplaceFirst(t4, Placeholder("장소"), place)
  }

  /** The title before its ` #n` suffix: the template and the values chosen by `postSeed`. */
  function RealisticTitle(postSeed: nat): string {
    FillTitle(Render(TitleTemplates[postSeed % |TitleTemplates|]),
      Subjects[postSeed % |Subjects|], Seasons[postSeed % |Seasons|],
      Activities[postSeed % |Activities|], Places[postSeed % |Places|])
  }

  /** The title of post `i`: the filled template and the post's number. */
  function NumberedTitle(postSeed: nat, i: nat): string {
    RealisticTitle(postSeed) + " #" + NatToString(i + 1)
  }

  lemma TemplatesWellFormed()
    ensures forall k :: 0 <= k < |TitleTemplates| ==> WellFormed(TitleTemplates[k]) && SlotsAmong(TitleTemplates[k], SlotNames)
  {
    forall k | 0 <= k < |TitleTemplates|
      ensures WellFormed(TitleTemplates[k]) && SlotsAmong(TitleTemplates[k], SlotNames)
    {
      TemplateWellFormed(k);
    }
  }

  lemma TemplateWellFormed(k: nat)
    requires k < |TitleTemplates|
    ensures WellFormed(TitleTemplates[k]) && SlotsAmong(TitleTemplates[k], SlotNames)
  {
    if k < 3 {
      FirstTemplatesWellFormed(k);
    } else if k < 6 {
      MiddleTemplatesWellFormed(k);
    } else {
      LastTemplatesWellFormed(k);
    }
  }

  lemma FirstTemplatesWellFormed(k: nat)
    requires k < 3
    ensures WellFormed(TitleTemplates[k]) && SlotsAmong(TitleTemplates[k], SlotNames)
  {
    var t := TitleTemplates[k];
    if k == 0 {
      assert t == [Lit("오늘의 "), Slot("주제"), Lit(" 이야기")];
    }
  }

  lemma MiddleTemplatesWellFormed(k: nat)
    requires 3 <= k < 6
    ensures WellFormed(TitleTemplates[k]) && SlotsAmong(TitleTemplates[k], SlotNames)
  {
  }

  lemma LastTemplatesWellFormed(k: nat)
    requires 6 <= k < |TitleTemplates|
    ensures WellFormed(TitleTemplates[k]) && SlotsAmong(TitleTemplates[k], SlotNames)
  {
  }

  lemma ValuesBraceFree(postSeed: nat)
    ensures '{' !in Subjects[postSeed % |Subjects|] && '{' !in Seasons[postSeed % |Seasons|]
    ensures '{' !in Activities[postSeed % |Activities|] && '{' !in Places[postSeed % |Places|]
  {
    assert forall k :: 0 <= k < |Subjects| ==> '{' !in Subjects[k];
    assert forall k :: 0 <= k < |Seasons| ==> '{' !in Seasons[k];
    assert forall k :: 0 <= k < |Activities| ==> '{' !in Activities[k];
    assert forall k :: 0 <= k < |Places| ==> '{' !in Places[k];
  }

  /** One `replace` on a rendered template: the placeholder is filled, and
      the pieces stay well formed with one name fewer in use. */
  lemma FillStep(ps: seq<Piece>, names: set<string>, name: string, value: string)
    requires WellFormed(ps) && SlotsAmong(ps, names)
    requires BraceFree(name) && '{' !in value
    ensures ReplaceFirst(Render(ps), Placeholder(name), value) == Render(Fill(ps, name, value))
    ensures WellFormed(Fill(ps, name, value)) && SlotsAmong(Fill(ps, name, value), names - {name})
  {
    ReplaceFills(ps, name, value);
    FillRemoves(ps, names, name, value);
  }

  /** Filling a well-formed template whose placeholders are among the five
      names, with values free of `{`, leaves no `{`. */
  lemma FillTitleComplete(p0: seq<Piece>, v1: string, v2: string, v3: string, v5: string)
    requires WellFormed(p0) && SlotsAmong(p0, SlotNames)
    requires '{' !in v1 && '{' !in v2 && '{' !in v3 && '{' !in v5
    ensures '{' !in FillTitle(Render(p0), v1, v2, v3, v5)
  {
    var n1, n2, n3, n4 := "주제", "계절", "활동", "제품명";
    var s1 := SlotNames - {n1};
    var s2 := s1 - {n2};
    var s3 := s2 - {n3};
    var s4 := s3 - {n4};
    FillStep(p0, SlotNames, n1, v1);
    var p1 := Fill(p0, n1, v1);
    FillStep(p1, s1, n2, v2);
    var p2 := Fill(p1, n2, v2);
    FillStep(p2, s2, n3, v3);
    var p3 := Fill(p2, n3, v3);
    FillStep(p3, s3, n4, v1);
    var p4 := Fill(p3, n4, v1);
    FillStep(p4, s4, "장소", v5);
    var p5 := Fill(p4, "장소", v5);
    assert s4 - {"장소"} == {};
    NoNamesNoSlots(p5);
    RenderBraceFree(p5);
  }

  /** Every template has all its placeholders replaced: no `{` is left. */
  lemma RealisticTitleComplete(postSeed: nat)
    ensures '{' !in RealisticTitle(postSeed)
  {
    TemplatesWellFormed();
    ValuesBraceFree(postSeed);
    FillTitleComplete(TitleTemplates[postSeed % |TitleTemplates|],
      Subjects[postSeed % |Subjects|], Seasons[postSeed % |Seasons|],
      Activities[postSeed % |Activities|], Places[postSeed % |Places|]);
  }

  lemma NoNamesNoSlots(ps: seq<Piece>)
    requires SlotsAmong(ps, {})
    ensures NoSlots(ps)
  {
  }

  const ContentSections: seq<string> := [
    "먼저 개인적인 경험을 공유해드리자면, 이 주제에 대해 평소에 관심이 많았어요.",
    "여러 가지 정보를 찾아보고 직접 경험해본 결과를 솔직하게 말씀드릴게요.",
    "처음에는 잘 몰랐지만, 시간이 지나면서 많은 것을 배우게 되었습니다.",
    "같은 관심사를 가진 분들에게 도움이 되었으면 좋겠어요.",
    "앞으로도 이런 유용한 정보들을 계속 공유하도록 하겠습니다.",
    "궁금한 점이 있으시면 언제든지 댓글로 남겨주세요!",
    "다음에는 더 자세한 내용으로 찾아뵙겠습니다.",
    "읽어주셔서 감사하고, 좋은 하루 되세요!"
  ]

  /** The opening paragraph of a generated post, with its blank line. */
  function ContentHead(title: string): string {
    "안녕하세요! 오늘은 " + title + "에 대해 이야기해보려고 합니다." + "\n\n"
  }

  /** generateRealisticContent: sections drawn at random are appended until
      the target length is reached, then the text is cut to exactly that length. */
  method GenerateRealisticContent(title: string, targetLength: nat) returns (content: string)
    ensures |content| == targetLength
    ensures content[..MinI(targetLength, |ContentHead(title)|)] == ContentHead(title)[..MinI(targetLength, |ContentHead(title)|)]
  {
    var head := ContentHead(title);
    var text := head;
    while |text| < targetLength
      invariant |text| >= |head| && text[..|head|] == head
      decreases targetLength - |text|
    {
      var k :| 0 <= k < |ContentSections|;
      text := text + ContentSections[k] + " ";
      // `content.length < targetLength * 0.8`, scaled to integers
      if 5 * |text| < 4 * targetLength {
        text := text + "\n\n";
      }
    }
    content := text[..targetLength];
    assert content[..MinI(targetLength, |head|)] == text[..|head|][..MinI(targetLength, |head|)];
  }

  /** The view count: the base views scaled by the quality factor
      `min(2, length/1000 + images/10)`, rounded down. */
  function RealisticViews(postSeed: nat): (views: nat)
    ensures 500 <= views <= 2 * (500 + postSeed % 5000)
  {
    var contentLength := 800 + postSeed % 2000;
    var imageCount := 3 + postSeed % 10;
    var qualityFactor := MinR(2.0, contentLength as real / 1000.0 + imageCount as real / 10.0);
    assert 1.0 <= qualityFactor <= 2.0;
    var base := 500 + postSeed % 5000;
    FloorScaledBounds(base, qualityFactor);
    FloorScaled(base, qualityFactor)
  }

  /** Post `i` of generateRealisticPostData apart from its random content,
      seeded with `postSeed = seed + i`. */
  function RealisticPostShape(seed: nat, i: nat, now: int): (p: PostData)
    ensures 800 <= p.characterCount <= 2799 && 3 <= p.imageCount <= 12 && p.videoCount <= 2
    ensures p.viewCount >= 500 && p.commentCount >= p.viewCount / 100 && p.likeCount >= p.viewCount / 50
    ensures p.content == ""
  {
    var ps := seed + i;
    var views := RealisticViews(ps);
    PostData(NumberedTitle(ps, i), "",
      now - (7 * i + ps % 7) * DayMs,
      3 + ps % 10, ps % 3, 800 + ps % 2000,
      views / 100 + ps % 20, views / 50 + ps % 50, views)
  }

  /** Scaling by a factor in [1, 2] and rounding down stays in [n, 2n]. */
  lemma FloorScaledBounds(n: nat, f: real)
    requires 1.0 <= f <= 2.0
    ensures n <= FloorScaled(n, f) <= 2 * n
  {
    var x := n as real * f;
    assert n as real <= x <= 2.0 * n as real;
    var r := FloorScaled(n, f);
    assert r as real <= x < r as real + 1.0;
    assert (n as real) < r as real + 1.0;
  }

  /** Titles carry no placeholder and end with ` #` and the post's number. */
  lemma NumberedTitleShape(postSeed: nat, i: nat)
    ensures '{' !in NumberedTitle(postSeed, i)
    ensures EndsWith(NumberedTitle(postSeed, i), " #" + NatToString(i + 1))
  {
    RealisticTitleComplete(postSeed);
    SuffixedShape(RealisticTitle(postSeed), NatToString(i + 1));
  }

  lemma SuffixedShape(t: string, n: string)
    requires '{' !in t && forall k :: 0 <= k < |n| ==> IsDigit(n[k])
    ensures '{' !in t + " #" + n
    ensures EndsWith(t + " #" + n, " #" + n)
  {
    var suffix := " #" + n;
    assert '{' !in suffix;
    assert t + " #" + n == t + suffix;
    assert (t + suffix)[|t|..] == suffix;
  }

  /** One pushed post: the shape, with the generated content of its length. */
  method RealisticPost(seed: nat, i: nat, now: int) returns (post: PostData)
    ensures post.(content := "") == RealisticPostShape(seed, i, now)
    ensures |post.content| == post.characterCount
  {
    var shape := RealisticPostShape(seed, i, now);
    var content := GenerateRealisticContent(RealisticTitle(seed + i), shape.characterCount);
    post := shape.(content := content);
  }

  /** generateRealisticPostData: `count` posts, each of them the seeded
      shape with a content of exactly `characterCount` characters. */
  method GenerateRealisticPostData(blogId: string, count: nat, now: int) returns (posts: seq<PostData>)
    ensures |posts| == count
    ensures forall i :: 0 <= i < count ==> posts[i].(content := "") == RealisticPostShape(Seed(blogId), i, now)
    ensures forall i :: 0 <= i < count ==> |posts[i].content| == posts[i].characterCount
  {
    var seed := Seed(blogId);
    posts := [];
    var i := 0;
    while i < count
      invariant i <= count && |posts| == i
      invariant forall j :: 0 <= j < i ==> posts[j].(content := "") == RealisticPostShape(seed, j, now)
      invariant forall j :: 0 <= j < i ==> |posts[j].content| == posts[j].characterCount
    {
      var post := RealisticPost(seed, i, now);
      posts := posts + [post];
      i := i + 1;
    }
  }

  // ---------------------------------------------------------------------------
  // crawlBlog: the acquisition ladder

  const InvalidIdMessage: string := "올바른 블로그 ID 또는 URL을 입력해주세요."

  /** The labels `crawlingMethod` takes. */
  const Simulated: string := "시뮬레이션"
  const PlaywrightLive: string := "Playwright 실시간"
  const ApiReal: string := "네이버 API 실제"
  const RssReal: string := "RSS 실제"
  const ApiRealPosts: string := "네이버 API 실제 포스트"
  const HighQualitySimulated: string := "고품질 시뮬레이션"

  /** The `Math.random` draws of the RSS step, already scaled to their ranges. */
  datatype RssDraw = RssDraw(subscribers: nat, scraps: nat, averageViews: nat, totalVisitors: nat, dailyVisitors: nat, averageVisitors: nat)

  /** The `Math.random` draws of one converted post, already scaled. */
  datatype PostDraw = PostDraw(images: nat, videos: nat, characters: nat, comments: nat, likes: nat, views: nat)

  /** Everything crawlBlog learns from outside:
      - `playwright`: the Playwright crawler's answer, `None` when it threw;
      - `statsRespond`/`statsFeed`: the answers getBlogStats reads;
      - `feed`: the answer getBlogStatsFromRSS reads;
      - `realPosts`: what getRealPosts returned, `Failure` when that step threw;
      - `postDate`: a listed post's `publishDate`, `None` when falsy;
      - `postStats`: getPostStats for a `logNo`, `None` for `null` or a throw;
      - `postDraw`, `rssDraw`: the random draws;
      - `fetchedPosts`: what fetchBlogPosts(blogId, 30) returned;
      - `now`: the current time in milliseconds. */
  datatype Sources = Sources(
    playwright: Option<PlaywrightCrawler.PlaywrightOutcome>,
    statsRespond: string -> Fetched<Option<StatsJson>>,
    statsFeed: Fetched<string>,
    feed: Fetched<string>,
    realPosts: Result<seq<ListedPost>>,
    postDate: ListedPost -> Option<int>,
    postStats: string -> Option<PostStats>,
    postDraw: nat -> PostDraw,
    rssDraw: RssDraw,
    fetchedPosts: seq<PostData>,
    now: int)

  /** The three variables crawlBlog updates step by step. */
  datatype Stage = Stage(data: Option<BlogData>, posts: seq<PostData>, crawlingMethod: string)

  /** The blog record the API step builds from getBlogStats. */
  function ApiBlogData(blogId: string, s: BlogStats): (r: BlogData)
    ensures r.nickname == (if s.nickname != "" then s.nickname else blogId)
    ensures r.category != ""
    ensures r.averageViews * MaxI(1, s.postCount) <= s.totalViews < (r.averageViews + 1) * MaxI(1, s.postCount)
    ensures r.postFrequency > 0.0
  {
    var perPost := if s.postCount != 0 then s.postCount else 1;
    BlogData(s.blogId, if s.nickname != "" then s.nickname else blogId,
      if s.category != "" then s.category else NoCategory,
      s.subscriberCount, s.postCount, s.scrapCount, s.totalViews / perPost,
      if s.postCount != 0 then s.postCount as real / 365.0 else 0.1,
      Some(s.totalViews), Some(s.todayViews), Some(s.totalViews / 30))
  }

  /** The blog record the RSS step builds from getBlogStatsFromRSS and the draws. */
  function RssBlogData(blogId: string, s: BlogStats, d: RssDraw): (r: BlogData)
    ensures r.nickname == (if s.nickname != "" then s.nickname else blogId)
    ensures r.category != ""
    ensures r.postCount == s.postCount
    ensures r.postFrequency > 0.0
  {
    BlogData(s.blogId, if s.nickname != "" then s.nickname else blogId,
      if s.category != "" then s.category else NoCategory,
      d.subscribers, s.postCount, d.scraps, d.averageViews,
      if s.postCount != 0 then s.postCount as real / 365.0 else 0.1,
      Some(d.totalVisitors), Some(d.dailyVisitors), Some(d.averageVisitors))
  }

  const RealPostSuffix: string := "에 대한 실제 포스트 내용입니다."
  const ConvertedPostCap: nat := 15

  /** getPostStats is asked only for a post with a non-empty `logNo`. */
  function StatsFor(p: ListedPost, src: Sources): Option<PostStats> {
    if p.logNo.Some? && p.logNo.value != "" then src.postStats(p.logNo.value) else None
  }

  /** `postStats?.n || draw`: a missing or zero count gives the draw. */
  function CountOr(count: Option<nat>, draw: nat): nat {
    if count.Some? && count.value != 0 then count.value else draw
  }

  /** One listed post in the PostData shape (the `link` field is not part of it). */
  function ConvertRealPost(p: ListedPost, index: nat, src: Sources): (r: PostData)
    ensures r.title == p.title && r.content == p.title + RealPostSuffix
    ensures src.postDate(p).Some? ==> r.publishDate == src.postDate(p).value
    ensures src.postDate(p).None? ==> r.publishDate == src.now - index * DayMs
    ensures StatsFor(p, src).Some? && StatsFor(p, src).value.viewCount != 0 ==> r.viewCount == StatsFor(p, src).value.viewCount
    ensures StatsFor(p, src).None? ==> r.viewCount == src.postDraw(index).views
  {
    var stats := StatsFor(p, src);
    var d := src.postDraw(index);
    PostData(p.title, p.title + RealPostSuffix, src.postDate(p).GetOr(src.now - index * DayMs),
      d.images, d.videos, d.characters,
      CountOr(if stats.Some? then Some(stats.value.commentCount) else None, d.comments),
      CountOr(if stats.Some? then Some(stats.value.likeCount) else None, d.likes),
      CountOr(if stats.Some? then Some(stats.value.viewCount) else None, d.views))
  }

  /** The first 15 listed posts, converted with their index. */
  function ConvertedPosts(list: seq<ListedPost>, src: Sources): (r: seq<PostData>)
    ensures |r| == MinI(|list|, ConvertedPostCap)
    ensures forall i :: 0 <= i < |r| ==> r[i] == ConvertRealPost(list[i], i, src)
  {
    var first := Take(list, ConvertedPostCap);
    seq(|first|, i requires 0 <= i < |first| => ConvertRealPost(first[i], i, src))
  }

  /** Step 2-1: a successful Playwright crawl with data sets all three. */
  function PlaywrightStep(src: Sources): Stage {
    match src.playwright
    case Some(o) =>
      if o.success && o.data.Some? then Stage(o.data, o.posts.GetOr([]), PlaywrightLive)
      else Stage(None, [], Simulated)
    case None => Stage(None, [], Simulated)
  }

  /** Step 2-2: without data yet, getBlogStats' real answer. */
  function ApiStep(blogId: string, src: Sources, st: Stage): Stage {
    if st.data.Some? then st
    else
      match BlogStatsOf(blogId, src.statsRespond, src.statsFeed)
      case Some(s) => if s.isReal then Stage(Some(ApiBlogData(blogId, s)), st.posts, ApiReal) else st
      case None => st
  }

  /** Step 2-3: without data yet, getBlogStatsFromRSS' real answer. */
  function RssStep(blogId: string, src: Sources, st: Stage): Stage {
    if st.data.Some? then st
    else
      match BlogStatsFromRss(blogId, src.feed)
      case Some(s) => if s.isReal then Stage(Some(RssBlogData(blogId, s, src.rssDraw)), st.posts, RssReal) else st
      case None => st
  }

  /** The posts step: without posts yet, the converted real posts; when that
      step threw, the fetched posts. */
  function PostsStep(src: Sources, st: Stage): Stage {
    if |st.posts| > 0 then st
    else
      match src.realPosts
      case Success(list) =>
        if |list| > 0 then Stage(st.data, ConvertedPosts(list, src), ApiRealPosts) else st
      case Failure(_) =>
        if |src.fetchedPosts| > 0 then
          Stage(st.data, src.fetchedPosts, if st.crawlingMethod == Simulated then RssReal else st.crawlingMethod)
        else st
  }

  /** The enhanced-mock step: without data, the enhanced mock blog. */
  function MockStep(blogId: string, st: Stage): Stage {
    if st.data.None? then Stage(Some(EnhancedMockData(blogId)), st.posts, HighQualitySimulated) else st
  }

  /** The state before the last step (synthetic posts). */
  function Ladder(blogId: string, src: Sources): Stage {
    MockStep(blogId, PostsStep(src, RssStep(blogId, src, ApiStep(blogId, src, PlaywrightStep(src)))))
  }

  /** The final `crawlingMethod`: the synthetic-posts step relabels only the initial label. */
  function FinalMethod(blogId: string, src: Sources): string {
    var st := Ladder(blogId, src);
    if |st.posts| == 0 && st.crawlingMethod == Simulated then HighQualitySimulated else st.crawlingMethod
  }

  /** The substrings the tags look for: "real" and "high quality". */
  const RealTag: string := "실제"
  const PremiumTag: string := "고품질"

  datatype DataQuality = High | SimulatedQuality

  datatype CrawlMetadata = CrawlMetadata(crawlingMethod: string, timestamp: int, dataQuality: DataQuality, commercialReady: bool)

  /** The metadata tags of a method label. */
  function MetadataFor(crawlingMethod: string, now: int): CrawlMetadata {
    CrawlMetadata(crawlingMethod, now,
      if Includes(crawlingMethod, RealTag) then High else SimulatedQuality,
      Includes(crawlingMethod, RealTag) || Includes(crawlingMethod, PremiumTag))
  }

  datatype CrawlerResult =
    | CrawlFailure(error: string)
    | CrawlSuccess(data: BlogData, posts: seq<PostData>, metadata: CrawlMetadata)

  /** Step 2-1 as the source runs it. */
  method TryPlaywright(src: Sources) returns (st: Stage)
    ensures st == PlaywrightStep(src)
  {
    st := Stage(None, [], Simulated);
    if src.playwright.Some? && src.playwright.value.success && src.playwright.value.data.Some? {
      st := Stage(src.playwright.value.data, src.playwright.value.posts.GetOr([]), PlaywrightLive);
    }
  }

  /** Step 2-2 as the source runs it, through getBlogStats. */
  method TryApiStats(blogId: string, src: Sources, st: Stage) returns (next: Stage)
    ensures next == ApiStep(blogId, src, st)
  {
    next := st;
    if st.data.None? {
      var realStats := GetBlogStats(blogId, src.statsRespond, src.statsFeed);
      if realStats.Some? && realStats.value.isReal {
        next := st.(data := Some(ApiBlogData(blogId, realStats.value)), crawlingMethod := ApiReal);
      }
    }
  }

  /** Step 2-3 as the source runs it. */
  method TryRssStats(blogId: string, src: Sources, st: Stage) returns (next: Stage)
    ensures next == RssStep(blogId, src, st)
  {
    next := st;
    if st.data.None? {
      var rssData := BlogStatsFromRss(blogId, src.feed);
      if rssData.Some? && rssData.value.isReal {
        next := st.(data := Some(RssBlogData(blogId, rssData.value, src.rssDraw)), crawlingMethod := RssReal);
      }
    }
  }

  /** The posts step as the source runs it. */
  method TryRealPosts(src: Sources, st: Stage) returns (next: Stage)
    ensures next == PostsStep(src, st)
  {
    next := st;
    if |st.posts| == 0 {
      match src.realPosts
      case Success(list) =>
        if |list| > 0 {
          next := st.(posts := ConvertedPosts(list, src), crawlingMethod := ApiRealPosts);
        }
      case Failure(_) =>
        if |src.fetchedPosts| > 0 {
          next := st.(posts := src.fetchedPosts);
          if st.crawlingMethod == Simulated {
            next := next.(crawlingMethod := RssReal);
          }
        }
    }
  }

  /** crawlBlog: the id check, then the strategies in order, then the
      synthetic fallbacks for whatever is still missing. */
  method CrawlBlog(input: string, src: Sources) returns (r: CrawlerResult)
    ensures r.CrawlFailure? <==> ExtractBlogIdAsWritten(input).None?
    ensures r.CrawlFailure? ==> r.error == InvalidIdMessage
    ensures r.CrawlSuccess? ==>
      var blogId := ExtractBlogIdAsWritten(input).value;
      var st := Ladder(blogId, src);
      && Some(r.data) == st.data
      && r.metadata == MetadataFor(FinalMethod(blogId, src), src.now)
      && (|st.posts| > 0 ==> r.posts == st.posts)
      && (|st.posts| == 0 ==>
            && |r.posts| == 20
            && forall i :: 0 <= i < 20 ==> r.posts[i].(content := "") == RealisticPostShape(Seed(blogId), i, src.now))
  {
    var id := ExtractBlogIdAsWritten(input);
    if id.None? {
      return CrawlFailure(InvalidIdMessage);
    }
    var blogId := id.value;
    var st := TryPlaywright(src);
    st := TryApiStats(blogId, src, st);
    st := TryRssStats(blogId, src, st);
    st := TryRealPosts(src, st);
    var blogData, posts, crawlingMethod := st.data, st.posts, st.crawlingMethod;
    if blogData.None? {
      blogData := Some(EnhancedMockData(blogId));
      crawlingMethod := HighQualitySimulated;
    }
    if |posts| == 0 {
      posts := GenerateRealisticPostData(blogId, 20, src.now);
      if crawlingMethod == Simulated {
        crawlingMethod := HighQualitySimulated;
      }
    }
    r := CrawlSuccess(blogData.value, posts, MetadataFor(crawlingMethod, src.now));
  }

  /** The tags of each label: only the three "실제" labels are high quality,
      and only the Playwright label (besides the initial one) is not
      commercially ready, although it is the one crawled live. */
  lemma MethodTags(now: int)
    ensures MetadataFor(ApiReal, now).dataQuality == High && MetadataFor(ApiReal, now).commercialReady
    ensures MetadataFor(RssReal, now).dataQuality == High && MetadataFor(RssReal, now).commercialReady
    ensures MetadataFor(ApiRealPosts, now).dataQuality == High && MetadataFor(ApiRealPosts, now).commercialReady
    ensures MetadataFor(HighQualitySimulated, now).dataQuality == SimulatedQuality
    ensures MetadataFor(HighQualitySimulated, now).commercialReady
    ensures MetadataFor(PlaywrightLive, now).dataQuality == SimulatedQuality
    ensures !MetadataFor(PlaywrightLive, now).commercialReady
    ensures MetadataFor(Simulated, now).dataQuality == SimulatedQuality
    ensures !MetadataFor(Simulated, now).commercialReady
  {
    RealLabelsTagged();
    HighQualityTagged();
    PlaywrightUntagged();
    SimulatedUntagged();
  }

  lemma RealLabelsTagged()
    ensures Includes(ApiReal, RealTag) && Includes(RssReal, RealTag) && Includes(ApiRealPosts, RealTag)
  {
    TagAt(ApiReal, RealTag, 8);
    TagAt(RssReal, RealTag, 4);
    TagAt(ApiRealPosts, RealTag, 8);
  }

  lemma HighQualityTagged()
    ensures !Includes(HighQualitySimulated, RealTag) && Includes(HighQualitySimulated, PremiumTag)
  {
    TagAt(HighQualitySimulated, PremiumTag, 0);
    NotIncludesWithout(HighQualitySimulated, RealTag, 0);
  }

  lemma PlaywrightUntagged()
    ensures !Includes(PlaywrightLive, RealTag) && !Includes(PlaywrightLive, PremiumTag)
  {
    PlaywrightNotReal();
    PlaywrightNotPremium();
  }

  lemma PlaywrightNotReal()
    ensures !Includes(PlaywrightLive, RealTag)
  {
    NotIncludesWithout(PlaywrightLive, RealTag, 1);
  }

  lemma PlaywrightNotPremium()
    ensures !Includes(PlaywrightLive, PremiumTag)
  {
    NotIncludesWithout(PlaywrightLive, PremiumTag, 0);
  }

  lemma SimulatedUntagged()
    ensures !Includes(Simulated, RealTag) && !Includes(Simulated, PremiumTag)
  {
    NotIncludesWithout(Simulated, RealTag, 0);
    NotIncludesWithout(Simulated, PremiumTag, 0);
  }

  /** A tag found at a known position. */
  lemma TagAt(name: string, tag: string, i: nat)
    requires i + |tag| <= |name| && name[i..i + |tag|] == tag
    ensures Includes(name, tag)
  {
    IncludesAt(name, tag, i);
  }

  /** The final label is one of the five acquisition labels, never the
      initial "시뮬레이션". */
  lemma FinalMethodKnown(blogId: string, src: Sources)
    ensures FinalMethod(blogId, src) in {PlaywrightLive, ApiReal, RssReal, ApiRealPosts, HighQualitySimulated}
  {
  }

  /** crawlBlog's tags as a consequence: never the initial label, 'high'
      exactly for the three "실제" labels, commercially ready for all but the
      Playwright label. */
  lemma CrawlMetadataTags(blogId: string, src: Sources)
    ensures MetadataFor(FinalMethod(blogId, src), src.now).dataQuality == High <==>
              FinalMethod(blogId, src) in {ApiReal, RssReal, ApiRealPosts}
    ensures MetadataFor(FinalMethod(blogId, src), src.now).commercialReady <==>
              FinalMethod(blogId, src) != PlaywrightLive
  {
    FinalMethodKnown(blogId, src);
    MethodTags(src.now);
  }

  /** The blog record comes from the first strategy that produced one:
      Playwright, the statistics endpoints, the feed, or the enhanced mock. */
  lemma LadderDataOrder(blogId: string, src: Sources)
    ensures PlaywrightStep(src).data.Some? ==> Ladder(blogId, src).data == PlaywrightStep(src).data
    ensures PlaywrightStep(src).data.None? && BlogStatsOf(blogId, src.statsRespond, src.statsFeed).Some? ==>
              Ladder(blogId, src).data == Some(ApiBlogData(blogId, BlogStatsOf(blogId, src.statsRespond, src.statsFeed).value))
    ensures PlaywrightStep(src).data.None? && BlogStatsOf(blogId, src.statsRespond, src.statsFeed).None? &&
            BlogStatsFromRss(blogId, src.feed).Some? ==>
              Ladder(blogId, src).data == Some(RssBlogData(blogId, BlogStatsFromRss(blogId, src.feed).value, src.rssDraw))
    ensures PlaywrightStep(src).data.None? && BlogStatsOf(blogId, src.statsRespond, src.statsFeed).None? &&
            BlogStatsFromRss(blogId, src.feed).None? ==>
              Ladder(blogId, src).data == Some(EnhancedMockData(blogId))
  {
    var pre := RssStep(blogId, src, ApiStep(blogId, src, PlaywrightStep(src)));
    PostsStepKeepsData(src, pre);
    BlogStatsAlwaysReal(blogId, src.statsRespond, src.statsFeed);
  }

  /** The posts step never touches the blog record. */
  lemma PostsStepKeepsData(src: Sources, st: Stage)
    ensures PostsStep(src, st).data == st.data
  {
  }

  /** getBlogStats already falls back on the same feed that the RSS step
      reads, so when both read the same answer the RSS step never decides:
      it leaves whatever the API step left. */
  lemma RssStepRedundant(blogId: string, src: Sources, st: Stage)
    requires src.statsFeed == src.feed
    ensures RssStep(blogId, src, ApiStep(blogId, src, st)) == ApiStep(blogId, src, st)
  {
    var api := ApiStep(blogId, src, st);
    if api.data.None? {
      assert st.data.None?;
      BlogStatsAlwaysReal(blogId, src.statsRespond, src.statsFeed);
      assert BlogStatsOf(blogId, src.statsRespond, src.statsFeed).None?;
      assert FirstUsableStats(StatsEndpoints(blogId), src.statsRespond).None?;
    }
  }

  /** A Playwright crawl that found the blog but no posts keeps its
      hash-estimated record, yet real post titles from the API relabel the
      result "네이버 API 실제 포스트", tagged high quality. */
  lemma EstimatedDataTaggedHigh(blogId: string, src: Sources, d: BlogData, list: seq<ListedPost>)
    requires src.playwright == Some(PlaywrightCrawler.PlaywrightOutcome(true, Some(d), Some([])))
    requires src.realPosts == Success(list) && |list| > 0
    ensures Ladder(blogId, src).data == Some(d)
    ensures FinalMethod(blogId, src) == ApiRealPosts
    ensures MetadataFor(FinalMethod(blogId, src), src.now).dataQuality == High
  {
    RealLabelsTagged();
  }
}
