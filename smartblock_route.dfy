/** app/api/ranking/smartblock/route.ts: the blog search results for a
    keyword, each with an "index" label computed from its post's details,
    and their averages.

    The browser is not modelled: the search arrives as its result list
    (`Failure` carrying the message when the browser threw), a post page's
    details as `fetch(link)` (`None` when the page could not be read), date
    parsing as `parse`, the clock as `now` and `today` (the locale date
    text), and every `Math.random()` draw as a natural number. */
module SmartblockRoute {
  import opened Common
  import opened Text

  const MissingKeywordMessage: string := "검색 키워드를 입력해주세요."
  const CollectFailedMessage: string := "순위 데이터를 수집할 수 없습니다."
  const ServerErrorMessage: string := "순위 데이터 수집 중 오류가 발생했습니다."
  const NotComputableLabel: string := "계산 불가"
  const RecentLabel: string := "최근"

  /** Only the first 20 results are kept, and the first 10 of them visited. */
  const SearchCap: nat := 20
  const DetailedCap: nat := 10

  /** One search result as the page yields it: its 1-based position among
      the result blocks, and the `blogId=` of its link when there is one. */
  datatype SearchResult = SearchResult(rank: nat, title: string, link: string, blogId: Option<string>,
                                       nickname: string, content: string, dateText: string)

  /** What a post page yields. */
  datatype PostDetails = PostDetails(visitorCount: nat, wordCount: nat, keywordCount: nat, imageCount: nat,
                                     publishDate: string)

  // ---------------------------------------------------------------------------
  // The index label of a post

  /** The labels from best to worst. */
  const IndexLabels: seq<string> := ["최적 1", "최적 2", "최적 3", "최적 4", "준최 1", "준최 2", "준최 3", "준최 4", "준최 5", "없음"]

  /** The score calculateBlogIndices accumulates: views, length, keywords and
      images, each capped. */
  function IndexScore(d: PostDetails): (score: real)
    ensures 0.0 <= score <= 100.0
  {
    MinR(30.0, (d.visitorCount as real / 1000.0) * 10.0) + MinR(40.0, (d.wordCount as real / 100.0) * 2.0)
    + MinR(20.0, (d.keywordCount * 2) as real) + MinR(10.0, d.imageCount as real)
  }

  /** The position in IndexLabels of the label a score earns: label `t`
      needs at least `90 - 10t` points and falls short of the one above it. */
  function IndexTier(score: real): (t: nat)
    ensures t < |IndexLabels|
    ensures t < 9 ==> score >= (90 - 10 * t) as real
    ensures t > 0 ==> score < (100 - 10 * t) as real
  {
    if score >= 90.0 then 0
    else if score >= 80.0 then 1
    else if score >= 70.0 then 2
    else if score >= 60.0 then 3
    else if score >= 50.0 then 4
    else if score >= 40.0 then 5
    else if score >= 30.0 then 6
    else if score >= 20.0 then 7
    else if score >= 10.0 then 8
    else 9
  }

  /** A higher score never earns a worse label. */
  lemma IndexTierMonotone(s1: real, s2: real)
    requires s1 <= s2
    ensures IndexTier(s2) <= IndexTier(s1)
  {
  }

  /** More views, words, keywords or images never lower a post's label. */
  lemma IndexScoreMonotone(d1: PostDetails, d2: PostDetails)
    requires d1.visitorCount <= d2.visitorCount && d1.wordCount <= d2.wordCount
    requires d1.keywordCount <= d2.keywordCount && d1.imageCount <= d2.imageCount
    ensures IndexScore(d1) <= IndexScore(d2)
    ensures IndexTier(IndexScore(d2)) <= IndexTier(IndexScore(d1))
  {
    IndexTierMonotone(IndexScore(d1), IndexScore(d2));
  }

  /** calculateBlogIndices: the score summed step by step, then the ladder. */
  method CalculateBlogIndices(d: PostDetails) returns (grade: string)
    ensures grade == IndexLabels[IndexTier(IndexScore(d))]
  {
    var score := 0.0;
    score := score + MinR(30.0, (d.visitorCount as real / 1000.0) * 10.0);
    score := score + MinR(40.0, (d.wordCount as real / 100.0) * 2.0);
    score := score + MinR(20.0, (d.keywordCount * 2) as real);
    score := score + MinR(10.0, d.imageCount as real);
    if score >= 90.0 { return "최적 1"; }
    if score >= 80.0 { return "최적 2"; }
    if score >= 70.0 { return "최적 3"; }
    if score >= 60.0 { return "최적 4"; }
    if score >= 50.0 { return "준최 1"; }
    if score >= 40.0 { return "준최 2"; }
    if score >= 30.0 { return "준최 3"; }
    if score >= 20.0 { return "준최 4"; }
    if score >= 10.0 { return "준최 5"; }
    return "없음";
  }

  /** The label itself, as a function. */
  function BlogIndices(d: PostDetails): string {
    IndexLabels[IndexTier(IndexScore(d))]
  }

  /** calculateMockIndices with the draw `draw` standing for `Math.random()`:
      the top three take one of the two best labels, the rest of the top ten
      one of labels 2 to 5, the next ten one of labels 5 to 8, the others
      one of the two worst. */
  function MockIndices(index: nat, draw: nat): (grade: string)
    ensures index < 3 ==> grade in IndexLabels[..2]
    ensures 3 <= index < 10 ==> grade in IndexLabels[1..5]
    ensures 10 <= index < 20 ==> grade in IndexLabels[4..8]
    ensures 20 <= index ==> grade in IndexLabels[8..]
  {
    if index < 3 then IndexLabels[draw % 2]
    else if index < 10 then IndexLabels[draw % 4 + 1]
    else if index < 20 then IndexLabels[draw % 4 + 4]
    else IndexLabels[draw % 2 + 8]
  }

  // ---------------------------------------------------------------------------
  // Score labels

  const ScoreLabels: seq<string> := ["최적", "양호", "보통", "미흡", "부족"]
  const ScoreThresholds: seq<int> := [90, 70, 50, 30]

  /** The position in ScoreLabels of calculateScoreLabel's answer: label `t`
      needs `ScoreThresholds[t]` and falls short of the one above it. */
  function ScoreTier(score: int): (t: nat)
    ensures t < |ScoreLabels|
    ensures t < 4 ==> score >= ScoreThresholds[t]
    ensures t > 0 ==> score < ScoreThresholds[t - 1]
  {
    if score >= 90 then 0
    else if score >= 70 then 1
    else if score >= 50 then 2
    else if score >= 30 then 3
    else 4
  }

  function CalculateScoreLabel(score: int): string {
    ScoreLabels[ScoreTier(score)]
  }

  /** A higher score never earns a worse label. */
  lemma ScoreTierMonotone(s1: int, s2: int)
    requires s1 <= s2
    ensures ScoreTier(s2) <= ScoreTier(s1)
  {
  }

  // ---------------------------------------------------------------------------
  // Synthetic details

  /** generateMockPostData: counts seeded from the title alone. */
  function MockPostData(title: string, today: string): (d: PostDetails)
    ensures 100 <= d.visitorCount <= 5099 && 500 <= d.wordCount <= 2499
    ensures 3 <= d.keywordCount <= 12 && 1 <= d.imageCount <= 8
    ensures d.publishDate == today
  {
    var seed := Seed(title);
    PostDetails(seed % 5000 + 100, seed % 2000 + 500, seed % 10 + 3, seed % 8 + 1, today)
  }

  /** Two results with the same title get the same synthetic counts. */
  lemma MockPostDataByTitle(a: SearchResult, b: SearchResult, today: string)
    requires a.title == b.title
    ensures MockPostData(a.title, today) == MockPostData(b.title, today)
  {
  }

  // ---------------------------------------------------------------------------
  // Dates

  /** `Math.floor((now - date) / day)`. */
  function DayDiff(now: int, date: int): (days: int)
    ensures days * DayMs <= now - date < (days + 1) * DayMs
  {
    (now - date) / DayMs
  }

  /** formatSimpleDate; `None` is a date text `Date` cannot parse, for which
      every comparison with NaN fails. */
  function FormatSimpleDate(now: int, date: Option<int>): string {
    match date
    case None => "NaN개월 전"
    case Some(t) =>
      var days := DayDiff(now, t);
      if days == 0 then "오늘"
      else if days == 1 then "어제"
      else if days < 7 then IntToString(days) + "일 전"
      else if days < 30 then NatToString(days / 7) + "주 전"
      else NatToString(days / 30) + "개월 전"
  }

  /** A date from one to four weeks back reads as 1 to 4 weeks ago. */
  lemma FormatSimpleDateWeeks(now: int, date: int)
    requires 7 * DayMs <= now - date < 30 * DayMs
    ensures exists w :: 1 <= w <= 4 && FormatSimpleDate(now, Some(date)) == NatToString(w) + "주 전"
  {
    var days := DayDiff(now, date);
    assert 7 <= days < 30;
    assert FormatSimpleDate(now, Some(date)) == NatToString(days / 7) + "주 전";
  }

  /** A date in the future reads as a negative number of days ago. */
  lemma FormatSimpleDateFuture(now: int, date: int)
    requires date > now
    ensures exists n: nat :: n >= 1 && FormatSimpleDate(now, Some(date)) == "-" + NatToString(n) + "일 전"
  {
    var days := DayDiff(now, date);
    assert days < 0;
    assert FormatSimpleDate(now, Some(date)) == "-" + NatToString(-days) + "일 전";
  }

  // ---------------------------------------------------------------------------
  // Enrichment

  /** What the enrichment consults besides the results. */
  datatype Sources = Sources(
    fetch: string -> Option<PostDetails>,
    parse: string -> Option<int>,
    draws: nat -> nat,
    now: int,
    today: string)

  /** One enriched entry: the result spread with its details, its label, its
      position as `channelRank` and its date text. */
  datatype Enriched = Enriched(result: SearchResult, details: PostDetails, indices: string, channelRank: nat, simpleDate: string)

  /** extractPostDetails: the page's details, or generateMockPostData({})
      when the page could not be read. */
  function PageDetails(link: string, src: Sources): PostDetails {
    match src.fetch(link)
    case Some(d) => d
    case None => MockPostData("", src.today)
  }

  /** An entry of the first loop: the page visited. */
  function DetailedEntry(r: SearchResult, src: Sources): Enriched {
    var d := PageDetails(r.link, src);
    Enriched(r, d, BlogIndices(d), r.rank, FormatSimpleDate(src.now, src.parse(d.publishDate)))
  }

  /** An entry of the second loop: synthetic details, a drawn label. */
  function BasicEntry(r: SearchResult, i: nat, src: Sources): Enriched {
    Enriched(r, MockPostData(r.title, src.today), MockIndices(i, src.draws(i)), r.rank, RecentLabel)
  }

  function EntryAt(results: seq<SearchResult>, i: nat, src: Sources): Enriched
    requires i < |results|
  {
    if i < DetailedCap then DetailedEntry(results[i], src) else BasicEntry(results[i], i, src)
  }

  /** enrichSearchResults: the first ten visited, the others synthesised,
      one entry per result in order. */
  method EnrichSearchResults(results: seq<SearchResult>, src: Sources) returns (enriched: seq<Enriched>)
    ensures |enriched| == |results|
    ensures forall i :: 0 <= i < |results| ==> enriched[i] == EntryAt(results, i, src)
  {
    enriched := [];
    var i := 0;
    while i < MinI(|results|, DetailedCap)
      invariant i <= MinI(|results|, DetailedCap) && |enriched| == i
      invariant forall j :: 0 <= j < i ==> enriched[j] == EntryAt(results, j, src)
    {
      enriched := enriched + [DetailedEntry(results[i], src)];
      i := i + 1;
    }
    i := DetailedCap;
    if |results| < DetailedCap {
      return;
    }
    while i < |results|
      invariant DetailedCap <= i <= |results| && |enriched| == i
      invariant forall j :: 0 <= j < i ==> enriched[j] == EntryAt(results, j, src)
    {
      enriched := enriched + [BasicEntry(results[i], i, src)];
      i := i + 1;
    }
  }

  /** Every entry keeps its result and its rank; only the first ten depend
      on the pages fetched. */
  lemma EntryAtSpec(results: seq<SearchResult>, i: nat, src: Sources, other: string -> Option<PostDetails>)
    requires i < |results|
    ensures EntryAt(results, i, src).result == results[i]
    ensures EntryAt(results, i, src).channelRank == results[i].rank
    ensures i >= DetailedCap ==> EntryAt(results, i, src) == EntryAt(results, i, src.(fetch := other))
    ensures i >= DetailedCap ==> EntryAt(results, i, src).simpleDate == RecentLabel
  {
  }

  /** `blogId ? results.filter(post => post.blogId === blogId) : results`. */
  function FilterByBlog(posts: seq<Enriched>, blogId: string): (r: seq<Enriched>)
    ensures |r| <= |posts|
    ensures blogId == "" ==> r == posts
    ensures blogId != "" ==> forall p :: p in r <==> p in posts && p.result.blogId == Some(blogId)
    ensures blogId != "" ==>
              forall p :: multiset(r)[p] == if p.result.blogId == Some(blogId) then multiset(posts)[p] else 0
    ensures IsSubsequenceOf(r, posts)
  {
    if blogId == "" then SubsequenceOfSelf(posts); posts
    else Filter(posts, (p: Enriched) => p.result.blogId == Some(blogId))
  }

  // ---------------------------------------------------------------------------
  // Averages

  /** `indicesMap[grade] || 5`. */
  function IndexWeight(grade: string): (w: nat)
    ensures 5 <= w <= 95
    ensures forall t :: 0 <= t < |IndexLabels| && IndexLabels[t] == grade ==> w == 95 - 10 * t
  {
    if grade == "최적 1" then 95
    else if grade == "최적 2" then 85
    else if grade == "최적 3" then 75
    else if grade == "최적 4" then 65
    else if grade == "준최 1" then 55
    else if grade == "준최 2" then 45
    else if grade == "준최 3" then 35
    else if grade == "준최 4" then 25
    else if grade == "준최 5" then 15
    else 5
  }

  /** The first label, from position `k` on in the map's key order, whose
      weight is at most `avg`. */
  function FirstLabelWithin(avg: real, k: nat): (r: Option<nat>)
    requires k <= |IndexLabels|
    decreases |IndexLabels| - k
    ensures r.Some? ==> k <= r.value < |IndexLabels| && (95 - 10 * r.value) as real <= avg
    ensures r.Some? ==> forall j :: k <= j < r.value ==> (95 - 10 * j) as real > avg
    ensures r.None? ==> forall j :: k <= j < |IndexLabels| ==> (95 - 10 * j) as real > avg
  {
    if k == |IndexLabels| then None
    else if (95 - 10 * k) as real <= avg then Some(k)
    else FirstLabelWithin(avg, k + 1)
  }

  /** `Object.keys(indicesMap).find(key => indicesMap[key] <= avg) || '없음'`. */
  function AverageIndexLabel(avg: real): string {
    match FirstLabelWithin(avg, 0)
    case Some(t) => IndexLabels[t]
    case None => "없음"
  }

  /** For an average of weights (never below 5) the search always finds a
      label: the best one whose weight the average reaches. */
  lemma AverageIndexLabelSpec(avg: real)
    requires avg >= 5.0
    ensures exists t :: 0 <= t < |IndexLabels| && AverageIndexLabel(avg) == IndexLabels[t]
              && (95 - 10 * t) as real <= avg && (t == 0 || (105 - 10 * t) as real > avg)
  {
    var r := FirstLabelWithin(avg, 0);
    assert (95 - 10 * 9) as real <= avg;
    assert r.Some?;
    var t := r.value;
    assert t > 0 ==> (95 - 10 * (t - 1)) as real > avg;
    assert AverageIndexLabel(avg) == IndexLabels[t];
  }

  /** calculateAverageData's answer. */
  datatype AverageData =
    | NotComputable
    | Average(indices: string, rank: int, visitorCount: int, date: nat, wordCount: int,
              titleLength: int, keywordCount: int, imageCount: int)
  {
    function Indices(): string {
      if NotComputable? then NotComputableLabel else indices
    }
  }

  const AssumedDaysAgo: nat := 7

  function CalculateAverageData(posts: seq<Enriched>): (r: AverageData)
    ensures r.NotComputable? <==> |posts| == 0
  {
    if |posts| == 0 then NotComputable
    else
      var avgWeight := Mean(posts, (p: Enriched) => IndexWeight(p.indices) as real);
      Average(AverageIndexLabel(avgWeight),
        RoundHalfUp(Mean(posts, (p: Enriched) => p.channelRank as real)),
        RoundHalfUp(Mean(posts, (p: Enriched) => p.details.visitorCount as real)),
        AssumedDaysAgo,
        RoundHalfUp(Mean(posts, (p: Enriched) => p.details.wordCount as real)),
        RoundHalfUp(Mean(posts, (p: Enriched) => |p.result.title| as real)),
        RoundHalfUp(Mean(posts, (p: Enriched) => p.details.keywordCount as real)),
        RoundHalfUp(Mean(posts, (p: Enriched) => p.details.imageCount as real)))
  }

  /** The average label is one of the ten labels, never the fallback by
      default; the average rank and visitor count lie between the smallest
      and the largest of the posts'. */
  lemma AverageDataSpec(posts: seq<Enriched>, rankLo: nat, rankHi: nat, viewsLo: nat, viewsHi: nat)
    requires |posts| > 0
    requires forall p :: p in posts ==> rankLo <= p.channelRank <= rankHi
    requires forall p :: p in posts ==> viewsLo <= p.details.visitorCount <= viewsHi
    ensures CalculateAverageData(posts).indices in IndexLabels
    ensures rankLo <= CalculateAverageData(posts).rank <= rankHi
    ensures viewsLo <= CalculateAverageData(posts).visitorCount <= viewsHi
  {
    var weight := (p: Enriched) => IndexWeight(p.indices) as real;
    MeanBounds(posts, weight, 5.0, 95.0);
    AverageIndexLabelSpec(Mean(posts, weight));
    RoundedMeanBounds(posts, (p: Enriched) => p.channelRank as real, rankLo, rankHi);
    RoundedMeanBounds(posts, (p: Enriched) => p.details.visitorCount as real, viewsLo, viewsHi);
  }

  // ---------------------------------------------------------------------------
  // The route

  /** The body of a successful answer (the random `orgScore` fields left out). */
  datatype SmartBlockData = SmartBlockData(posts: seq<Enriched>, averageData: AverageData, searchCount: nat)

  /** collectActualRankings after the search: the first 20 results enriched,
      then filtered by blog. */
  function RankingsOf(results: seq<SearchResult>, blogId: string, src: Sources): seq<Enriched> {
    var kept := if |results| <= SearchCap then results else results[..SearchCap];
    FilterByBlog(seq(|kept|, i requires 0 <= i < |kept| => EntryAt(kept, i, src)), blogId)
  }

  /** The JSON body: `keyword` and `blogId` ("" when missing or empty). */
  datatype SmartBlockRequest = SmartBlockRequest(keyword: string, blogId: string)

  /** POST. `body` is `None` when the request body is unreadable or `null`,
      which the route's catch answers with 500. */
  method Post(body: Option<SmartBlockRequest>, search: Result<seq<SearchResult>>, src: Sources)
    returns (reply: Reply<SmartBlockData>)
    ensures body.None? ==> reply == Reply(500, Failure(ServerErrorMessage))
    ensures body.Some? && body.value.keyword == "" <==> reply.status == 400
    ensures body.Some? && body.value.keyword == "" ==> reply.payload == Failure(MissingKeywordMessage)
    ensures body.Some? && body.value.keyword != "" && search.Failure? ==> reply.status == 500
    ensures body.Some? && body.value.keyword != "" && search.Failure? && search.error != "" ==>
              reply.payload == Failure(search.error)
    ensures body.Some? && body.value.keyword != "" && search.Failure? && search.error == "" ==>
              reply.payload == Failure(CollectFailedMessage)
    ensures body.Some? && body.value.keyword != "" && search.Success? ==>
              var posts := RankingsOf(search.value, body.value.blogId, src);
              reply.status == 200 && reply.payload == Success(SmartBlockData(posts, CalculateAverageData(posts), |posts|))
  {
    if body.None? {
      return Reply(500, Failure(ServerErrorMessage));
    }
    var req := body.value;
    if req.keyword == "" {
      return Reply(400, Failure(MissingKeywordMessage));
    }
    if search.Failure? {
      var message := if search.error != "" then search.error else CollectFailedMessage;
      return Reply(500, Failure(message));
    }
    var results := search.value;
    if |results| > SearchCap {
      results := results[..SearchCap];
    }
    var enriched := EnrichSearchResults(results, src);
    assert enriched == seq(|results|, i requires 0 <= i < |results| => EntryAt(results, i, src));
    var posts := FilterByBlog(enriched, req.blogId);
    reply := Reply(200, Success(SmartBlockData(posts, CalculateAverageData(posts), |posts|)));
  }

  /** With a blog id, every post answered comes from that blog. */
  lemma RankingsOfBlog(results: seq<SearchResult>, blogId: string, src: Sources)
    requires blogId != ""
    ensures forall p :: p in RankingsOf(results, blogId, src) ==> p.result.blogId == Some(blogId)
    ensures |RankingsOf(results, blogId, src)| <= SearchCap
  {
  }
}
