/** lib/naver-api-client.ts: the client that asks Naver's blog endpoints for
    statistics and post lists, falling back from endpoint to endpoint and
    finally to the RSS feed, and the parsers that turn the answers into
    records.

    Every network request becomes a parameter `respond`, a function from the
    URL to what came back (`Fetched`): nothing at all (the request threw), or
    a response with its `ok` flag and its body. Bodies that the source hands
    to `response.json()` or to the HTML scraper arrive already parsed. */
module NaverApiClient {
  import opened Common
  import opened Text
  import opened CategoryRules

  const BaseUrl: string := "https://blog.naver.com"

  /** What a request produced: it threw, or it answered. */
  datatype Fetched<T> = Unreachable | Answered(ok: bool, body: T)

  // ---------------------------------------------------------------------------
  // Statistics endpoints

  /** The JSON object a statistics endpoint returns: `keyCount` is
      `Object.keys(data).length`; an absent or `null` field is `None`. */
  datatype StatsJson = StatsJson(
    keyCount: nat,
    subscriberCount: Option<nat>,
    followerCount: Option<nat>,
    postCount: Option<nat>,
    totalPosts: Option<nat>,
    totalViews: Option<nat>,
    totalVisits: Option<nat>,
    todayViews: Option<nat>,
    dailyVisits: Option<nat>,
    scrapCount: Option<nat>,
    category: Option<string>)

  /** The record both `parseStatsData` and `parseRSSData` return. A field one
      of them does not set is the falsy value every caller's `||` turns into
      its default: `""` for the nickname, 0 for the counts. */
  datatype BlogStats = BlogStats(
    blogId: string,
    nickname: string,
    subscriberCount: nat,
    postCount: nat,
    totalViews: nat,
    todayViews: nat,
    scrapCount: nat,
    category: string,
    isReal: bool,
    fromRss: bool)

  /** A number field is truthy when present and non-zero. */
  predicate Truthy(x: Option<nat>) { x.Some? && x.value != 0 }

  /** `a || b || 0` on number fields. */
  function Or2(a: Option<nat>, b: Option<nat>): (r: nat)
    ensures Truthy(a) ==> r == a.value
    ensures !Truthy(a) && Truthy(b) ==> r == b.value
    ensures r == 0 <==> !Truthy(a) && !Truthy(b)
  {
    if Truthy(a) then a.value else if Truthy(b) then b.value else 0
  }

  /** `s || fallback` on a string field. */
  function OrText(s: Option<string>, fallback: string): (r: string)
    ensures s.Some? && s.value != "" ==> r == s.value
    ensures s.None? || s.value == "" ==> r == fallback
  {
    if s.Some? && s.value != "" then s.value else fallback
  }


  /** parseStatsData: each field takes the first truthy alternative. */
  function ParseStatsData(data: StatsJson, blogId: string): (r: BlogStats)
    ensures r.blogId == blogId && r.isReal && !r.fromRss && r.nickname == ""
    ensures r.subscriberCount == Or2(data.subscriberCount, data.followerCount)
    ensures r.postCount == Or2(data.postCount, data.totalPosts)
    ensures r.totalViews == Or2(data.totalViews, data.totalVisits)
    ensures r.todayViews == Or2(data.todayViews, data.dailyVisits)
    ensures r.scrapCount == Or2(data.scrapCount, None)
    ensures r.category == OrText(data.category, NoCategory) && r.category != ""
  {
    BlogStats(blogId, "",
      Or2(data.subscriberCount, data.followerCount),
      Or2(data.postCount, data.totalPosts),
      Or2(data.totalViews, data.totalVisits),
      Or2(data.todayViews, data.dailyVisits),
      Or2(data.scrapCount, None),
      OrText(data.category, NoCategory),
      true, false)
  }

  /** The four statistics endpoints, in the order they are tried. */
  function StatsEndpoints(blogId: string): (r: seq<string>)
    ensures |r| == 4
  {
    [ BaseUrl + "/api/blogs/" + blogId + "/stats",
      BaseUrl + "/BlogStatistics.naver?blogId=" + blogId,
      BaseUrl + "/BlogDashboard.naver?blogId=" + blogId,
      BaseUrl + "/" + blogId + "/statistics" ]
  }

  /** An endpoint decides when it answered `ok` with a non-empty JSON object. */
  predicate StatsUsable(f: Fetched<Option<StatsJson>>) {
    f.Answered? && f.ok && f.body.Some? && f.body.value.keyCount > 0
  }

  /** The first URL whose answer is usable. */
  function FirstUsableStats(urls: seq<string>, respond: string -> Fetched<Option<StatsJson>>): (r: Option<nat>)
    ensures r.Some? ==> r.value < |urls| && StatsUsable(respond(urls[r.value]))
    ensures r.Some? ==> forall j :: 0 <= j < r.value ==> !StatsUsable(respond(urls[j]))
    ensures r.None? ==> forall j :: 0 <= j < |urls| ==> !StatsUsable(respond(urls[j]))
  {
    if |urls| == 0 then None
    else if StatsUsable(respond(urls[0])) then Some(0)
    else
      var rest := FirstUsableStats(urls[1..], respond);
      if rest.Some? then Some(rest.value + 1) else None
  }

  /** getBlogStats as a function of the answers: the first usable endpoint's
      parse, otherwise whatever the RSS feed gives. */
  function BlogStatsOf(blogId: string, respond: string -> Fetched<Option<StatsJson>>, rss: Fetched<string>): Option<BlogStats> {
    var urls := StatsEndpoints(blogId);
    match FirstUsableStats(urls, respond)
    case Some(i) => Some(ParseStatsData(respond(urls[i]).body.value, blogId))
    case None => BlogStatsFromRss(blogId, rss)
  }

  /** getBlogStats: tries the endpoints in order and returns at the first usable one. */
  method GetBlogStats(blogId: string, respond: string -> Fetched<Option<StatsJson>>, rss: Fetched<string>)
    returns (r: Option<BlogStats>)
    ensures r == BlogStatsOf(blogId, respond, rss)
  {
    var urls := StatsEndpoints(blogId);
    var i := 0;
    while i < |urls|
      invariant 0 <= i <= |urls|
      invariant forall j :: 0 <= j < i ==> !StatsUsable(respond(urls[j]))
    {
      var answer := respond(urls[i]);
      if answer.Answered? && answer.ok && answer.body.Some? && answer.body.value.keyCount > 0 {
        assert FirstUsableStats(urls, respond) == Some(i) by {
          var f := FirstUsableStats(urls, respond);
          if f.None? || f.value > i {
            assert StatsUsable(respond(urls[i]));
          }
        }
        return Some(ParseStatsData(answer.body.value, blogId));
      }
      i := i + 1;
    }
    r := BlogStatsFromRss(blogId, rss);
  }

  /** Whatever getBlogStats returns is marked as real data, and it came from
      a statistics endpoint exactly when one of them was usable. */
  lemma BlogStatsAlwaysReal(blogId: string, respond: string -> Fetched<Option<StatsJson>>, rss: Fetched<string>)
    ensures BlogStatsOf(blogId, respond, rss).Some? ==> BlogStatsOf(blogId, respond, rss).value.isReal
    ensures (exists j :: 0 <= j < 4 && StatsUsable(respond(StatsEndpoints(blogId)[j]))) ==>
              BlogStatsOf(blogId, respond, rss).Some? && !BlogStatsOf(blogId, respond, rss).value.fromRss
    ensures (forall j :: 0 <= j < 4 ==> !StatsUsable(respond(StatsEndpoints(blogId)[j]))) ==>
              BlogStatsOf(blogId, respond, rss) == BlogStatsFromRss(blogId, rss)
  {
    var r := BlogStatsOf(blogId, respond, rss);
    if r.Some? && r.value.fromRss {
      assert r == BlogStatsFromRss(blogId, rss);
    }
  }

  // ---------------------------------------------------------------------------
  // RSS feed

  const TitleOpen: string := "<title><![CDATA["
  const TitleClose: string := "]]></title>"

  /** `body.includes('<rss') || body.includes('<feed')`. */
  predicate LooksLikeFeed(body: string) {
    Includes(body, "<rss") || Includes(body, "<feed")
  }

  /** getBlogStatsFromRSS: a failed request, a non-`ok` status or a body that
      is not a feed all give `null`. */
  function BlogStatsFromRss(blogId: string, rss: Fetched<string>): (r: Option<BlogStats>)
    ensures r.Some? <==> rss.Answered? && rss.ok && LooksLikeFeed(rss.body)
    ensures r.Some? ==> r.value == ParseRssData(rss.body, blogId)
  {
    if rss.Answered? && rss.ok && LooksLikeFeed(rss.body) then Some(ParseRssData(rss.body, blogId))
    else None
  }

  /** The nickname as lib/naver-api-client.ts:231-233 computes it: `의 블로그`
      is stripped first, so the `님의 블로그` strip that follows only ever
      sees what is left of the first (see README, Findings). */
  function RssNicknameAsWritten(title: string): (r: string)
    ensures |r| <= |title|
    ensures !EndsWith(title, "의 블로그") ==> r == title
  {
    StripSuffix(StripSuffix(title, "의 블로그"), "님의 블로그")
  }

  /** A feed titled "X님의 블로그" gives the nickname "X님". */
  lemma RssNicknameKeepsHonorific(x: string)
    ensures RssNicknameAsWritten(x + "님의 블로그") == x + "님"
  {
    var t := x + "님의 블로그";
    assert t[|t| - |"의 블로그"|..] == "의 블로그";
    var once := StripSuffix(t, "의 블로그");
    assert once == x + "님";
    assert once[|once| - 1] == '님';
  }

  /** The nickname with the two strips in the intended order: the longer
      suffix `님의 블로그` first, then `의 블로그`. */
  function RssNickname(title: string): (r: string)
    ensures |r| <= |title|
  {
    var once := StripSuffix(title, "님의 블로그");
    if once != title then once else StripSuffix(title, "의 블로그")
  }

  /** "X님의 블로그" gives X and "X의 블로그" gives X; other titles are kept. */
  lemma RssNicknameStrips(x: string)
    ensures RssNickname(x + "님의 블로그") == x
    ensures !EndsWith(x, "님") ==> RssNickname(x + "의 블로그") == x
    ensures !EndsWith(x, "의 블로그") ==> RssNickname(x) == x
  {
    var t := x + "님의 블로그";
    assert t[|t| - |"님의 블로그"|..] == "님의 블로그";
    assert t[..|x|] == x;
    var u := x + "의 블로그";
    assert u[|u| - |"의 블로그"|..] == "의 블로그";
    assert u[..|x|] == x;
    if |x| >= 1 {
      assert u[|u| - 6..] == [x[|x| - 1]] + "의 블로그";
      assert x[|x| - 1..] == [x[|x| - 1]];
    }
    if |x| >= 6 {
      assert x[|x| - 6..][1..] == x[|x| - 5..];
    }
  }

  /** parseRSSData: the channel title gives the nickname, stripped in the
      order the source writes (or the id when there is none), `<item>` is
      counted, and the category is guessed. */
  function ParseRssData(body: string, blogId: string): (r: BlogStats)
    ensures r.blogId == blogId && r.isReal && r.fromRss
    ensures FirstCapture(body, TitleOpen, TitleClose, false).None? ==> r.nickname == blogId
    ensures FirstCapture(body, TitleOpen, TitleClose, false).Some? ==>
              r.nickname == RssNicknameAsWritten(FirstCapture(body, TitleOpen, TitleClose, false).value.text)
    ensures r.postCount == CountOccurrences(body, "<item>")
    ensures r.postCount == 0 <==> !Includes(body, "<item>")
    ensures r.category == ExtractCategoryFromRss(body)
    ensures r.subscriberCount == 0 && r.totalViews == 0 && r.todayViews == 0 && r.scrapCount == 0
  {
    var nickname :=
      match FirstCapture(body, TitleOpen, TitleClose, false)
      case Some(c) => RssNicknameAsWritten(c.text)
      case None => blogId;
    CountOccurrencesZero(body, "<item>");
    BlogStats(blogId, nickname, 0, CountOccurrences(body, "<item>"), 0, 0, 0,
      ExtractCategoryFromRss(body), true, true)
  }

  /** The table extractCategoryFromRSS guesses from post titles. */
  const RssCategoryRules: seq<Rule> := [
    Rule("맛집", ["맛집", "음식", "레시피", "요리", "카페"]),
    Rule("여행", ["여행", "관광", "호텔", "축제"]),
    Rule("IT·컴퓨터", ["프로그래밍", "코딩", "개발", "앱"]),
    Rule("패션·미용", ["패션", "뷰티", "화장품", "스타일"]),
    Rule("건강·의학", ["건강", "운동", "의학", "다이어트"]),
    Rule("교육·학문", ["교육", "학습", "공부", "책"]),
    Rule("취미·게임", ["게임", "취미", "만화", "영화"])
  ]

  const DailyLife: string := "일상·생각"

  /** The text the title keywords are looked for in: every whole
      `<title><![CDATA[…]]></title>` match, joined by spaces, lower-cased. */
  function AllTitlesText(body: string): string {
    ToLower(Join(AllMatches(body, TitleOpen, TitleClose, false), " "))
  }

  /** extractCategoryFromRSS: an explicit `<category>` CDATA wins (even an
      empty one), then the first table category with a keyword in the titles,
      then '일상·생각'. */
  function ExtractCategoryFromRss(body: string): (r: string)
    ensures FirstCapture(body, "<category><![CDATA[", "]]></category>", false).Some? ==>
              r == FirstCapture(body, "<category><![CDATA[", "]]></category>", false).value.text
  {
    match FirstCapture(body, "<category><![CDATA[", "]]></category>", false)
    case Some(c) => c.text
    case None => Categorize(RssCategoryRules, AllTitlesText(body), DailyLife)
  }

  /** Without an explicit category the result is a table category or '일상·생각',
      and it is '일상·생각' exactly when no keyword occurs in the titles. */
  lemma RssCategoryGuess(body: string)
    requires FirstCapture(body, "<category><![CDATA[", "]]></category>", false).None?
    ensures ExtractCategoryFromRss(body) == DailyLife || exists i :: 0 <= i < |RssCategoryRules| && ExtractCategoryFromRss(body) == RssCategoryRules[i].category
    ensures (forall i :: 0 <= i < |RssCategoryRules| ==> !RuleMatches(RssCategoryRules[i], AllTitlesText(body))) <==>
              ExtractCategoryFromRss(body) == DailyLife
  {
    var text := AllTitlesText(body);
    var f := FirstRule(RssCategoryRules, text);
    if f.Some? {
      var c := RssCategoryRules[f.value].category;
      assert c != DailyLife by {
        assert forall i :: 0 <= i < |RssCategoryRules| ==> RssCategoryRules[i].category != DailyLife;
      }
    }
  }

  // ---------------------------------------------------------------------------
  // Post lists

  /** A post as the list scrapers return it: the RSS path also carries the
      `<pubDate>` text (`None` means the date is the time of the call). */
  datatype ListedPost = ListedPost(title: string, url: string, logNo: Option<string>, pubDate: Option<string>, fromRss: bool)

  const MaxListedPosts: nat := 20

  function Take<T>(s: seq<T>, n: nat): (r: seq<T>)
    ensures |r| == MinI(|s|, n) && r == s[..|r|]
  {
    if |s| <= n then s else s[..n]
  }

  /** The three post-list pages, in the order they are tried. */
  function PostListUrls(blogId: string, page: nat): (r: seq<string>)
    ensures |r| == 3
  {
    [ BaseUrl + "/PostList.naver?blogId=" + blogId + "&from=postList&categoryNo=0&currentPage=" + NatToString(page),
      BaseUrl + "/api/blogs/" + blogId + "/posts?page=" + NatToString(page),
      BaseUrl + "/" + blogId + "/PostList?currentPage=" + NatToString(page) ]
  }

  /** A list page decides when it answered `ok` and the scraper found posts. */
  predicate ListUsable(f: Fetched<seq<ListedPost>>) {
    f.Answered? && f.ok && |Take(f.body, MaxListedPosts)| > 0
  }

  function FirstUsableList(urls: seq<string>, respond: string -> Fetched<seq<ListedPost>>): (r: Option<nat>)
    ensures r.Some? ==> r.value < |urls| && ListUsable(respond(urls[r.value]))
    ensures r.Some? ==> forall j :: 0 <= j < r.value ==> !ListUsable(respond(urls[j]))
    ensures r.None? ==> forall j :: 0 <= j < |urls| ==> !ListUsable(respond(urls[j]))
  {
    if |urls| == 0 then None
    else if ListUsable(respond(urls[0])) then Some(0)
    else
      var rest := FirstUsableList(urls[1..], respond);
      if rest.Some? then Some(rest.value + 1) else None
  }

  const LogNoLabel: string := "logNo="

  /** One `<item>…</item>` of the feed: a post when it has both a CDATA title and a link. */
  function ItemPost(item: string): Option<ListedPost> {
    match (FirstCapture(item, TitleOpen, TitleClose, false), FirstCapture(item, "<link>", "</link>", false))
    case (Some(t), Some(l)) =>
      var pub := FirstCapture(item, "<pubDate>", "</pubDate>", false);
      Some(ListedPost(t.text, l.text, DigitsAfter(l.text, LogNoLabel, false),
        if pub.Some? then Some(pub.value.text) else None, true))
    case _ => None
  }

  /** The post an item match contributes: none when it lacks a title or a link. */
  function CapturePosts(c: Capture): (r: seq<ListedPost>)
    ensures |r| <= 1
  {
    match ItemPost(c.text)
    case Some(p) => [p]
    case None => []
  }

  /** The next match of `/<item>(.*?)<\/item>/gs` at or after `from`. */
  function NextItem(body: string, from: nat): (r: Option<Capture>)
    ensures r.Some? ==> from < r.value.end
  {
    FirstCaptureFrom(body, "<item>", "</item>", from, true)
  }

  /** The posts of every item from index `from` on, scanning with `/<item>(.*?)<\/item>/gs`. */
  function ItemPostsFrom(body: string, from: nat): seq<ListedPost>
    decreases |body| - from
  {
    match NextItem(body, from)
    case None => []
    case Some(c) => CapturePosts(c) + ItemPostsFrom(body, c.end)
  }

  /** getPostsFromRSS: the body is read whatever the status; a request that
      threw gives no posts. */
  function RssPosts(rss: Fetched<string>): (r: seq<ListedPost>)
    ensures |r| <= MaxListedPosts
  {
    if rss.Unreachable? then [] else Take(ItemPostsFrom(rss.body, 0), MaxListedPosts)
  }

  /** The exec-and-push loop of getPostsFromRSS. */
  method PostsFromRss(rss: Fetched<string>) returns (posts: seq<ListedPost>)
    ensures posts == RssPosts(rss)
  {
    if rss.Unreachable? {
      return [];
    }
    var body := rss.body;
    var acc: seq<ListedPost> := [];
    var from := 0;
    var next := NextItem(body, from);
    while next.Some?
      invariant next == NextItem(body, from)
      invariant acc + ItemPostsFrom(body, from) == ItemPostsFrom(body, 0)
      decreases |body| - from
    {
      var c := next.value;
      ghost var before := acc;
      var p := ItemPost(c.text);
      if p.Some? {
        acc := acc + [p.value];
      }
      PushedPosts(body, from, before, acc);
      from := c.end;
      next := NextItem(body, from);
    }
    posts := Take(acc, MaxListedPosts);
  }

  /** One turn of the exec loop keeps `acc + (posts still to come)` equal to all posts. */
  lemma PushedPosts(body: string, from: nat, before: seq<ListedPost>, after: seq<ListedPost>)
    requires NextItem(body, from).Some?
    requires before + ItemPostsFrom(body, from) == ItemPostsFrom(body, 0)
    requires var c := NextItem(body, from).value;
      after == if ItemPost(c.text).Some? then before + [ItemPost(c.text).value] else before
    ensures after + ItemPostsFrom(body, NextItem(body, from).value.end) == ItemPostsFrom(body, 0)
  {
    var c := NextItem(body, from).value;
    ItemPostsStep(body, from);
    assert after == before + CapturePosts(c);
    Regroup(before, ItemPostsFrom(body, from), CapturePosts(c), ItemPostsFrom(body, c.end), after);
  }

  lemma Regroup<T>(before: seq<T>, cur: seq<T>, mid: seq<T>, rest: seq<T>, after: seq<T>)
    requires cur == mid + rest && after == before + mid
    ensures after + rest == before + cur
  {
  }

  lemma ItemPostsStep(body: string, from: nat)
    requires NextItem(body, from).Some?
    ensures var c := NextItem(body, from).value;
      from < c.end && ItemPostsFrom(body, from) == CapturePosts(c) + ItemPostsFrom(body, c.end)
  {
  }

  /** Every post read from the feed comes from an item that has a title and a link. */
  lemma {:induction false} ItemPostsFromItems(body: string, from: nat, k: nat)
    requires k < |ItemPostsFrom(body, from)|
    ensures ItemPostsFrom(body, from)[k].fromRss
    decreases |body| - from
  {
    var c := NextItem(body, from).value;
    if k >= |CapturePosts(c)| {
      ItemPostsFromItems(body, c.end, k - |CapturePosts(c)|);
    }
  }

  /** getRealPosts as a function of the answers. */
  function RealPostsOf(blogId: string, page: nat, respond: string -> Fetched<seq<ListedPost>>, rss: Fetched<string>): seq<ListedPost> {
    var urls := PostListUrls(blogId, page);
    match FirstUsableList(urls, respond)
    case Some(i) => Take(respond(urls[i]).body, MaxListedPosts)
    case None => RssPosts(rss)
  }

  /** getRealPosts: the first page whose scrape is non-empty, else the feed. */
  method GetRealPosts(blogId: string, page: nat, respond: string -> Fetched<seq<ListedPost>>, rss: Fetched<string>)
    returns (posts: seq<ListedPost>)
    ensures posts == RealPostsOf(blogId, page, respond, rss)
  {
    var urls := PostListUrls(blogId, page);
    var i := 0;
    while i < |urls|
      invariant 0 <= i <= |urls|
      invariant forall j :: 0 <= j < i ==> !ListUsable(respond(urls[j]))
    {
      var answer := respond(urls[i]);
      if answer.Answered? && answer.ok {
        var scraped := Take(answer.body, MaxListedPosts);
        if |scraped| > 0 {
          assert FirstUsableList(urls, respond) == Some(i) by {
            var f := FirstUsableList(urls, respond);
            if f.None? || f.value > i {
              assert ListUsable(respond(urls[i]));
            }
          }
          return scraped;
        }
      }
      i := i + 1;
    }
    posts := PostsFromRss(rss);
  }

  /** Both sources are capped at 20 posts, and a non-empty page scrape always
      beats the feed. */
  lemma RealPostsCapped(blogId: string, page: nat, respond: string -> Fetched<seq<ListedPost>>, rss: Fetched<string>)
    ensures |RealPostsOf(blogId, page, respond, rss)| <= MaxListedPosts
    ensures (exists j :: 0 <= j < 3 && ListUsable(respond(PostListUrls(blogId, page)[j]))) ==>
              |RealPostsOf(blogId, page, respond, rss)| > 0
  {
  }

  // ---------------------------------------------------------------------------
  // Numbers after a tag

  function DigitEnd(s: string, j: nat): (k: nat)
    requires j <= |s|
    decreases |s| - j
    ensures j <= k <= |s| && (k == |s| || !IsDigit(s[k]))
    ensures forall m :: j <= m < k ==> IsDigit(s[m])
  {
    if j == |s| || !IsDigit(s[j]) then j else DigitEnd(s, j + 1)
  }

  /** Where the digits start when `tag` occurs at `i` (after white space
      when `spaces` is set, that is `tag\s*`). */
  function DigitStart(s: string, tag: string, i: nat, spaces: bool): nat
    requires OccursAt(s, tag, i)
  {
    if spaces then SpaceEnd(s, i + |tag|) else i + |tag|
  }

  /** `/tag\s*(\d+)/` (or `/tag(\d+)/`) can match at `i`. */
  predicate LabelledAt(s: string, tag: string, i: nat, spaces: bool) {
    OccursAt(s, tag, i) && DigitStart(s, tag, i, spaces) < |s| && IsDigit(s[DigitStart(s, tag, i, spaces)])
  }

  /** The leftmost position where the pattern matches. */
  function FirstLabelledFrom(s: string, tag: string, from: nat, spaces: bool): (r: Option<nat>)
    decreases |s| - from
    ensures r.Some? ==> from <= r.value && LabelledAt(s, tag, r.value, spaces)
    ensures r.Some? ==> forall j :: from <= j < r.value ==> !LabelledAt(s, tag, j, spaces)
    ensures r.None? ==> forall j :: from <= j ==> !LabelledAt(s, tag, j, spaces)
  {
    if from >= |s| then None
    else if LabelledAt(s, tag, from, spaces) then Some(from)
    else FirstLabelledFrom(s, tag, from + 1, spaces)
  }

  /** The captured digits of the first match. */
  function DigitsAfter(s: string, tag: string, spaces: bool): (r: Option<string>)
    ensures r.Some? ==> |r.value| >= 1 && forall k :: 0 <= k < |r.value| ==> IsDigit(r.value[k])
  {
    match FirstLabelledFrom(s, tag, 0, spaces)
    case None => None
    case Some(i) =>
      var j := DigitStart(s, tag, i, spaces);
      Some(s[j..DigitEnd(s, j)])
  }

  /** `m ? parseInt(m[1]) : 0` for `/tag\s*(\d+)/`. */
  function CountAfter(html: string, tag: string): (n: nat)
    ensures DigitsAfter(html, tag, true).Some? ==> n == ParseDigits(DigitsAfter(html, tag, true).value)
    ensures DigitsAfter(html, tag, true).None? ==> n == 0
  {
    match DigitsAfter(html, tag, true)
    case Some(d) => ParseDigits(d)
    case None => 0
  }

  datatype PostStats = PostStats(blogId: string, logNo: string, viewCount: nat, commentCount: nat, likeCount: nat, isReal: bool)

  /** parsePostStatsHTML: the first number after each tag, else 0. */
  function ParsePostStatsHtml(html: string, blogId: string, logNo: string): (r: PostStats)
    ensures r.blogId == blogId && r.logNo == logNo && r.isReal
    ensures r.viewCount == CountAfter(html, "조회")
    ensures r.commentCount == CountAfter(html, "댓글")
    ensures r.likeCount == CountAfter(html, "좋아요")
    ensures DigitsAfter(html, "조회", true).None? ==> r.viewCount == 0
    ensures DigitsAfter(html, "댓글", true).None? ==> r.commentCount == 0
    ensures DigitsAfter(html, "좋아요", true).None? ==> r.likeCount == 0
  {
    PostStats(blogId, logNo, CountAfter(html, "조회"), CountAfter(html, "댓글"), CountAfter(html, "좋아요"), true)
  }

  /** A page that prints a count right after its tag, where the tag does
      not occur earlier, yields that count: parsing reads back what the page
      shows. */
  lemma CountAfterPrinted(prefix: string, tag: string, n: nat, suffix: string)
    requires IndexOf(prefix + tag, tag) == Some(|prefix|)
    requires |suffix| == 0 || !IsDigit(suffix[0])
    ensures CountAfter(prefix + tag + " " + NatToString(n) + suffix, tag) == n
  {
    var digits := NatToString(n);
    var head := prefix + tag;
    var s := head + " " + digits + suffix;
    var i := |prefix|;
    var j := |head| + 1;
    assert s[..|head|] == head;
    forall m | 0 <= m <= i
      ensures OccursAt(s, tag, m) <==> OccursAt(head, tag, m)
    {
      assert m + |tag| <= |head|;
      assert s[m..m + |tag|] == head[m..m + |tag|];
    }
    assert s[|head|] == ' ' && s[j..j + |digits|] == digits;
    FirstLabelledAfterSpace(s, tag, i);
    DigitEndOver(s, j, digits);
    ParseNatToString(n);
  }

  /** When the tag first occurs at `i` and is followed by one space and a
      digit, the pattern matches there. */
  lemma FirstLabelledAfterSpace(s: string, tag: string, i: nat)
    requires i + |tag| + 1 < |s| && OccursAt(s, tag, i)
    requires s[i + |tag|] == ' ' && IsDigit(s[i + |tag| + 1])
    requires forall m :: 0 <= m < i ==> !OccursAt(s, tag, m)
    ensures FirstLabelledFrom(s, tag, 0, true) == Some(i)
    ensures DigitStart(s, tag, i, true) == i + |tag| + 1
  {
    assert SpaceEnd(s, i + |tag| + 1) == i + |tag| + 1;
    assert LabelledAt(s, tag, i, true);
  }

  lemma {:induction false} DigitEndOver(s: string, j: nat, digits: string)
    requires j + |digits| <= |s| && s[j..j + |digits|] == digits
    requires forall k :: 0 <= k < |digits| ==> IsDigit(digits[k])
    requires j + |digits| == |s| || !IsDigit(s[j + |digits|])
    ensures DigitEnd(s, j) == j + |digits|
    decreases |digits|
  {
    if |digits| > 0 {
      assert s[j] == digits[0];
      assert s[j + 1..j + |digits|] == digits[1..];
      DigitEndOver(s, j + 1, digits[1..]);
    }
  }

  /** getPostStats: a request that threw or answered with an error status gives `null`. */
  function PostStatsOf(blogId: string, logNo: string, page: Fetched<string>): (r: Option<PostStats>)
    ensures r.Some? <==> page.Answered? && page.ok
  {
    if page.Answered? && page.ok then Some(ParsePostStatsHtml(page.body, blogId, logNo)) else None
  }
}
