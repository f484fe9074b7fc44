/** app/api/analysis/blog/route.ts: the blog analysis endpoint. POST checks
    the request, gates it on the plan's daily limit, crawls the blog, asks
    the ranking client about the blog's three main keywords, scores the blog
    and assembles the detailed result; the file's helpers extract the main
    keywords, compute the progress towards the next grade, compare the
    content with category averages and phrase elapsed time.

    The crawler's sources, `Math.log10`, the ranking client's requests and
    the current time are parameters; numbers are exact reals. */
module AnalysisRoute {
  import opened Common
  import opened Text
  import opened Plans
  import K = Keywords
  import BA = BlogAnalysis
  import BC = BlogCrawler
  import RC = RankingClient

  const MissingUrlMessage: string := "블로그 URL 또는 ID를 입력해주세요."
  const LimitMessage: string := "일일 분석 한도를 초과했습니다. 플랜을 업그레이드하거나 내일 다시 시도해주세요."
  const CrawlFailedMessage: string := "블로그 정보를 가져올 수 없습니다."
  const ServerErrorMessage: string := "블로그 분석 중 오류가 발생했습니다."

  // ---------------------------------------------------------------------------
  // The plan gate

  /** The gate as written: `todayUsage >= (limits[userPlan] || 0)`, where the
      lookup also reaches the members every object inherits. */
  predicate RejectedAsWritten(userPlan: string, todayUsage: int) {
    UsageReached(todayUsage, LimitOrZero(userPlan))
  }

  /** The gate as intended: only the plans the table lists have a limit, any
      other name counting as a limit of 0. */
  predicate Rejected(userPlan: string, todayUsage: int) {
    todayUsage >= OwnLimit(userPlan)
  }

  /** The free plan is rejected at any usage, by either gate. */
  lemma FreePlanAlwaysRejected(todayUsage: int)
    requires todayUsage >= 0
    ensures RejectedAsWritten("free", todayUsage) && Rejected("free", todayUsage)
  {
    assert LimitOrZero("free") == Number(0);
  }

  /** Only a paid plan below its limit passes the intended gate. */
  lemma AdmittedIff(userPlan: string, todayUsage: int)
    requires todayUsage >= 0
    ensures !Rejected(userPlan, todayUsage) <==>
              (userPlan == "basic" && todayUsage < 50) || (userPlan == "standard" && todayUsage < 100)
  {
    if userPlan == "basic" || userPlan == "standard" || userPlan == "free" {
      assert userPlan in OwnLimits;
    }
  }

  /** The two gates disagree only on inherited member names. */
  lemma GatesAgree(userPlan: string, todayUsage: int)
    requires userPlan !in InheritedMembers
    ensures RejectedAsWritten(userPlan, todayUsage) <==> Rejected(userPlan, todayUsage)
  {
    LookupsAgree(userPlan);
  }

  /** A plan named like an inherited member ("toString", "constructor", …)
      passes the gate as written at any usage, though the intended gate
      rejects it from a usage of 0 on. */
  lemma InheritedPlanPassesGate(userPlan: string, todayUsage: int)
    requires userPlan in InheritedMembers && todayUsage >= 0
    ensures !RejectedAsWritten(userPlan, todayUsage) && Rejected(userPlan, todayUsage)
  {
    assert userPlan !in OwnLimits;
  }

  /** The concrete request body `{ userPlan: "toString", todayUsage: 1000000 }`. */
  lemma ToStringPlanPassesGate()
    ensures !RejectedAsWritten("toString", 1000000) && Rejected("toString", 1000000)
  {
    InheritedPlanPassesGate("toString", 1000000);
  }

  // ---------------------------------------------------------------------------
  // extractTopKeywords

  /** At most 8 Hangul words of 2 to 6 syllables seen at least 3 times in the
      titles and contents, most frequent first. */
  function TopKeywordsOf(posts: seq<BA.PostData>): seq<string> {
    K.TopWords(HangulWords(BA.PostsText(posts)), Some(6), 8)
  }

  method ExtractTopKeywords(posts: seq<BA.PostData>) returns (keywords: seq<string>)
    ensures keywords == TopKeywordsOf(posts)
  {
    keywords := K.RankKeywords(BA.PostsText(posts), 6, 8);
  }

  /** What extractTopKeywords promises: at most 8 distinct Hangul words of 2 to
      6 syllables, each occurring at least 3 times in the text, in order of
      non-increasing frequency, and none left out unless 8 at least as
      frequent were kept. */
  lemma TopKeywordsSpec(posts: seq<BA.PostData>)
    ensures var words := HangulWords(BA.PostsText(posts));
      var r := TopKeywordsOf(posts);
      && |r| <= 8
      && K.NoDup(r)
      && (forall i :: 0 <= i < |r| ==> IsHangulWord(r[i]) && 2 <= |r[i]| <= 6 && K.Count(words, r[i]) >= 3)
      && (forall i, j :: 0 <= i < j < |r| ==> K.Count(words, r[i]) >= K.Count(words, r[j]))
      && (forall w :: w in words && |w| <= 6 && K.Count(words, w) >= 3 && w !in r ==> |r| == 8)
  {
    var words := HangulWords(BA.PostsText(posts));
    K.TopWordsSpec(words, Some(6), 8);
    var r := TopKeywordsOf(posts);
    forall i | 0 <= i < |r|
      ensures IsHangulWord(r[i])
    {
      var k :| 0 <= k < |words| && words[k] == r[i];
    }
  }

  /** `.slice(0, 3)`: the keywords sent for ranking. */
  function RankingKeywords(keywords: seq<string>): (r: seq<string>)
    ensures |r| <= 3 && |r| <= |keywords| && r == keywords[..|r|]
    ensures |keywords| >= 3 ==> |r| == 3
  {
    RC.Take(keywords, 3)
  }

  // ---------------------------------------------------------------------------
  // The ranking step

  /** `actualRankings`: the report's keyword details, or `[]` when no keyword
      was extracted or the client could not be loaded (the error is caught). */
  function RankingsFor(cache: map<string, RC.Entry>, keys: seq<string>, blogId: string,
                       keywords: seq<string>, env: nat -> RC.Call, unavailable: bool): seq<RC.KeywordResult> {
    var top := RankingKeywords(keywords);
    if unavailable || |top| == 0 then []
    else RC.AnalyzeUpTo(cache, keys, blogId, top, env, |top|).results
  }

  /** The ranking step yields one well-formed result per keyword sent, for the
      first three keywords in order, and nothing when it failed or had nothing
      to send. */
  lemma RankingsSpec(cache: map<string, RC.Entry>, keys: seq<string>, blogId: string,
                     keywords: seq<string>, env: nat -> RC.Call, unavailable: bool)
    ensures var rs := RankingsFor(cache, keys, blogId, keywords, env, unavailable);
      && (unavailable || |keywords| == 0 ==> rs == [])
      && (!unavailable ==> |rs| == MinI(3, |keywords|))
      && forall j :: 0 <= j < |rs| ==> rs[j].keyword == keywords[j] && RC.WellFormedResult(rs[j])
  {
    var top := RankingKeywords(keywords);
    if !unavailable && |top| > 0 {
      RC.AnalyzeShape(cache, keys, blogId, top, env);
    }
  }

  /** The client's cache after the ranking step. */
  function CacheAfter(cache: map<string, RC.Entry>, keys: seq<string>, blogId: string,
                      keywords: seq<string>, env: nat -> RC.Call, unavailable: bool): RC.CacheState {
    var top := RankingKeywords(keywords);
    if unavailable || |top| == 0 then RC.CacheState(cache, keys)
    else
      var a := RC.AnalyzeUpTo(cache, keys, blogId, top, env, |top|);
      RC.CacheState(a.cache, a.keys)
  }

  // ---------------------------------------------------------------------------
  // calculateProgressToNext

  /** How far, in percent, a score is through its band. */
  function ProgressToNext(score: real): real {
    if score >= 90.0 then 100.0
    else if score >= 85.0 then (score - 85.0) / 5.0 * 100.0
    else if score >= 80.0 then (score - 80.0) / 5.0 * 100.0
    else if score >= 70.0 then (score - 70.0) / 10.0 * 100.0
    else if score >= 55.0 then (score - 55.0) / 15.0 * 100.0
    else score / 55.0 * 100.0
  }

  /** For a non-negative score the progress lies in [0, 100], and it is 100
      exactly from 90 on. */
  lemma ProgressBounds(score: real)
    ensures score >= 0.0 ==> 0.0 <= ProgressToNext(score) <= 100.0
    ensures ProgressToNext(score) == 100.0 <==> score >= 90.0
  {
  }

  /** `Math.round(progress * 100) / 100`. */
  function ShownProgress(score: real): (r: real)
    ensures -0.005 < r - ProgressToNext(score) <= 0.005
  {
    RoundHalfUp(ProgressToNext(score) * 100.0) as real / 100.0
  }

  /** An integral score below 90 is at most 54/55 of the way through its band,
      so the progress shown never reaches 100: overall scores, which stop at
      85, never show a full bar. */
  lemma ShownProgressBelowFull(overall: int)
    requires 0 <= overall < 90
    ensures 0.0 <= ShownProgress(overall as real) < 100.0
  {
    var s := overall as real;
    assert ProgressToNext(s) <= 54.0 / 55.0 * 100.0 by {
      if overall >= 85 {
        assert ProgressToNext(s) == (s - 85.0) / 5.0 * 100.0;
      } else if overall >= 80 {
        assert ProgressToNext(s) == (s - 80.0) / 5.0 * 100.0;
      } else if overall >= 70 {
        assert ProgressToNext(s) == (s - 70.0) / 10.0 * 100.0;
      } else if overall >= 55 {
        assert ProgressToNext(s) == (s - 55.0) / 15.0 * 100.0;
      }
    }
  }

  // ---------------------------------------------------------------------------
  // Evaluations against averages

  datatype Eval = Below | Average | Above {
    function Label(): string {
      match this
      case Below => "평균 이하"
      case Average => "평균"
      case Above => "평균 이상"
    }

    function Tier(): nat {
      match this
      case Below => 0
      case Average => 1
      case Above => 2
    }
  }

  /** `x > avg ? '평균 이상' : x > floor ? '평균' : '평균 이하'`. */
  function Evaluate(x: real, avg: real, floor: real): Eval {
    if x > avg then Above else if x > floor then Average else Below
  }

  /** The evaluation names the interval the value falls in, and a larger
      value is never evaluated lower. */
  lemma EvaluateSpec(x: real, y: real, avg: real, floor: real)
    requires floor <= avg
    ensures Evaluate(x, avg, floor) == Above <==> x > avg
    ensures Evaluate(x, avg, floor) == Average <==> floor < x <= avg
    ensures Evaluate(x, avg, floor) == Below <==> x <= floor
    ensures x <= y ==> Evaluate(x, avg, floor).Tier() <= Evaluate(y, avg, floor).Tier()
  {
  }

  /** `Math.round(x * 100) / 100`: within half a hundredth of `x`. */
  function Hundredths(x: real): (r: real)
    ensures -0.005 < r - x <= 0.005
  {
    RoundHalfUp(x * 100.0) as real / 100.0
  }

  /** One row of `scoreComparison`. */
  datatype ScoreComparison = ScoreComparison(myScore: real, categoryAverage: real, difference: real, evaluation: Eval)

  /** The benchmark of one score: the category average and the floor of '평균'. */
  datatype Benchmark = Benchmark(average: real, floor: real)

  const ExpertiseBenchmark: Benchmark := Benchmark(88.24, 85.0)
  const TrustBenchmark: Benchmark := Benchmark(79.94, 75.0)
  const RelevanceBenchmark: Benchmark := Benchmark(75.0, 70.0)

  function Compare(score: real, b: Benchmark): ScoreComparison {
    ScoreComparison(score, b.average, Hundredths(score - b.average), Evaluate(score, b.average, b.floor))
  }

  /** The expertise score never exceeds 85, so its evaluation is always
      '평균 이하' and its difference from the average is negative. */
  lemma ExpertiseAlwaysBelow(log: real -> real, blog: BA.BlogData, posts: seq<BA.PostData>)
    ensures var c := Compare(BA.ExpertiseScore(log, blog, posts), ExpertiseBenchmark);
      c.evaluation == Below && c.evaluation.Label() == "평균 이하" && c.difference < 0.0
  {
  }

  /** The trust score stops at 80, so it is above average only in (79.94, 80]
      and average in (75, 79.94]. */
  lemma TrustEvaluation(log: real -> real, blog: BA.BlogData, posts: seq<BA.PostData>)
    ensures var t := BA.TrustScore(log, blog, posts);
      var c := Compare(t, TrustBenchmark);
      && (c.evaluation == Above <==> 79.94 < t <= 80.0)
      && (c.evaluation == Average <==> 75.0 < t <= 79.94)
      && (c.evaluation == Below <==> t <= 75.0)
  {
  }

  /** The relevance score (at most 85) is above average exactly above 75. */
  lemma RelevanceEvaluation(posts: seq<BA.PostData>, targets: seq<string>)
    ensures var r := BA.RelevanceScore(posts, targets);
      var c := Compare(r, RelevanceBenchmark);
      && (c.evaluation == Above <==> 75.0 < r <= 85.0)
      && (c.evaluation == Average <==> 70.0 < r <= 75.0)
      && (c.evaluation == Below <==> r <= 70.0)
  {
  }

  // ---------------------------------------------------------------------------
  // analyzeContentPattern

  /** The top bloggers' averages of one category. */
  datatype Averages = Averages(characters: nat, images: nat, titleLength: nat)

  const DailyLife: string := "일상·생각"

  const CategoryAverages: map<string, Averages> := map[
    "스타·연예인" := Averages(1365, 11, 30),
    "맛집" := Averages(1500, 15, 28),
    "여행" := Averages(1800, 20, 32),
    "패션·미용" := Averages(1200, 12, 26),
    "IT·컴퓨터" := Averages(2000, 8, 35),
    DailyLife := Averages(1000, 6, 25)
  ]

  /** `categoryAverages[category] || categoryAverages['일상·생각']`. */
  function AveragesFor(category: string): (a: Averages)
    ensures a.characters > 0 && a.images > 0 && a.titleLength > 0
  {
    if category in CategoryAverages then CategoryAverages[category] else CategoryAverages[DailyLife]
  }

  /** One row of the content pattern. */
  datatype Measure = Measure(myAverage: real, categoryAverage: nat, difference: real, evaluation: Eval)

  datatype ContentPattern = ContentPattern(characterCount: Measure, titleLength: Measure, imageCount: Measure)

  function CharactersOf(p: BA.PostData): real { p.characterCount as real }
  function ImagesOf(p: BA.PostData): real { p.imageCount as real }
  function TitleLengthOf(p: BA.PostData): real { |p.title| as real }

  /** `Math.round(x * 10) / 10`: within half a tenth of `x`. */
  function Tenths(x: real): (r: real)
    ensures -0.05 < r - x <= 0.05
  {
    RoundHalfUp(x * 10.0) as real / 10.0
  }

  /** The title evaluation as written: '평균' strictly between 0.9 and 1.2 times
      the average, '평균 이상' strictly above 1.2 times it, and '평균 이하'
      otherwise, so a mean of exactly 1.2 times the average falls to the bottom. */
  function TitleEvaluationAsWritten(x: real, avg: real): Eval {
    if x > avg * 0.9 && x < avg * 1.2 then Average
    else if x > avg * 1.2 then Above
    else Below
  }

  /** The title evaluation with the upper boundary counted as '평균 이상'. */
  function TitleEvaluation(x: real, avg: real): Eval {
    if x > avg * 0.9 && x < avg * 1.2 then Average
    else if x >= avg * 1.2 then Above
    else Below
  }

  /** At exactly 1.2 times the average, the title evaluation as written
      reports '평균 이하' while a slightly shorter mean gets '평균': one post with
      a 30-character title in a category without its own averages. */
  lemma TitleBoundaryDrops()
    ensures TitleEvaluationAsWritten(30.0, 25.0) == Below
    ensures TitleEvaluationAsWritten(29.0, 25.0) == Average
    ensures TitleEvaluation(30.0, 25.0) == Above
  {
  }

  /** The corrected title evaluation is '평균' exactly strictly between 0.9 and
      1.2 times the average, '평균 이상' from 1.2 times on, never lower for a
      longer mean, and agrees with the one as written everywhere but at 1.2
      times the average. */
  lemma TitleEvaluationSpec(x: real, y: real, avg: real)
    requires avg > 0.0
    ensures TitleEvaluation(x, avg) == Average <==> avg * 0.9 < x < avg * 1.2
    ensures TitleEvaluation(x, avg) == Above <==> x >= avg * 1.2
    ensures x <= y ==> TitleEvaluation(x, avg).Tier() <= TitleEvaluation(y, avg).Tier()
    ensures x != avg * 1.2 ==> TitleEvaluation(x, avg) == TitleEvaluationAsWritten(x, avg)
  {
  }

  /** analyzeContentPattern: `None` (the source's `null`) without posts. */
  function AnalyzeContentPattern(posts: seq<BA.PostData>, category: string): (r: Option<ContentPattern>)
    ensures r.None? <==> |posts| == 0
  {
    if |posts| == 0 then None
    else
      var avg := AveragesFor(category);
      var characters := Mean(posts, CharactersOf);
      var images := Mean(posts, ImagesOf);
      var titles := Mean(posts, TitleLengthOf);
      Some(ContentPattern(
        Measure(RoundHalfUp(characters) as real, avg.characters, RoundHalfUp(characters - avg.characters as real) as real,
                Evaluate(characters, avg.characters as real, avg.characters as real * 0.8)),
        Measure(RoundHalfUp(titles) as real, avg.titleLength, RoundHalfUp(titles - avg.titleLength as real) as real,
                TitleEvaluationAsWritten(titles, avg.titleLength as real)),
        Measure(Tenths(images), avg.images, Tenths(images - avg.images as real),
                Evaluate(images, avg.images as real, avg.images as real * 0.8))))
  }

  /** A category without its own averages is compared with '일상·생각'. */
  lemma UnknownCategoryIsDailyLife(posts: seq<BA.PostData>, category: string)
    requires category !in CategoryAverages
    ensures AnalyzeContentPattern(posts, category) == AnalyzeContentPattern(posts, DailyLife)
  {
  }

  /** Each row compares the posts' mean with the category's average: the
      shown mean is the mean rounded, and the evaluations name the intervals
      the means fall in; the title row keeps the source's strict comparisons,
      so a mean of exactly 1.2 times the average is rated '평균 이하'. */
  lemma ContentPatternSpec(posts: seq<BA.PostData>, category: string)
    requires |posts| > 0
    ensures var p := AnalyzeContentPattern(posts, category).value;
      var a := AveragesFor(category);
      var characters := Mean(posts, CharactersOf);
      var titles := Mean(posts, TitleLengthOf);
      var images := Mean(posts, ImagesOf);
      && -0.5 < p.characterCount.myAverage - characters <= 0.5
      && -0.5 < p.titleLength.myAverage - titles <= 0.5
      && -0.05 < p.imageCount.myAverage - images <= 0.05
      && p.characterCount.categoryAverage == a.characters
      && (p.characterCount.evaluation == Above <==> characters > a.characters as real)
      && (p.characterCount.evaluation == Below <==> characters <= a.characters as real * 0.8)
      && (p.titleLength.evaluation == Average <==>
            a.titleLength as real * 0.9 < titles < a.titleLength as real * 1.2)
      && (p.titleLength.evaluation == Above <==> titles > a.titleLength as real * 1.2)
      && (titles == a.titleLength as real * 1.2 ==> p.titleLength.evaluation == Below)
      && (p.imageCount.evaluation == Above <==> images > a.images as real)
      && (p.imageCount.evaluation == Below <==> images <= a.images as real * 0.8)
  {
    var a := AveragesFor(category);
    TitleEvaluationSpec(Mean(posts, TitleLengthOf), Mean(posts, TitleLengthOf), a.titleLength as real);
  }

  // ---------------------------------------------------------------------------
  // getRelativeTime

  const MinuteMs: int := 60000
  const HourMs: int := 3600000

  datatype Elapsed = DaysAgo(days: nat) | HoursAgo(hours: nat) | MinutesAgo(minutes: nat)

  /** `(d / 3600000) / 24` floored twice is `d / 86400000` floored once. */
  lemma DaysFromHours(d: int)
    ensures (d / HourMs) / 24 == d / DayMs
  {
    var h := d / HourMs;
    var q := h / 24;
    assert HourMs * h <= d < HourMs * h + HourMs;
    assert 24 * q <= h < 24 * q + 24;
    assert DayMs * q <= d < DayMs * q + DayMs;
  }

  /** The time between publication and `now`, as getRelativeTime measures it:
      whole days from a day on, whole hours from an hour on, otherwise whole
      minutes but at least one, so that a date in the future reads as one
      minute ago. */
  function ElapsedSince(now: int, publishDate: int): (e: Elapsed)
    ensures var d := now - publishDate;
      && (e.DaysAgo? <==> d >= DayMs)
      && (e.DaysAgo? ==> e.days == d / DayMs && e.days >= 1)
      && (e.HoursAgo? <==> HourMs <= d < DayMs)
      && (e.HoursAgo? ==> e.hours == d / HourMs && 1 <= e.hours <= 23)
      && (e.MinutesAgo? <==> d < HourMs)
      && (e.MinutesAgo? ==> e.minutes == MaxI(1, d / MinuteMs) && 1 <= e.minutes <= 59)
  {
    var diffMs := now - publishDate;
    var diffHours := diffMs / HourMs;
    var diffDays := diffHours / 24;
    DaysFromHours(diffMs);
    if diffDays > 0 then DaysAgo(diffDays)
    else if diffHours > 0 then HoursAgo(diffHours)
    else MinutesAgo(MaxI(1, diffMs / MinuteMs))
  }

  function ElapsedText(e: Elapsed): string {
    match e
    case DaysAgo(n) => NatToString(n) + "일 전"
    case HoursAgo(n) => NatToString(n) + "시간 전"
    case MinutesAgo(n) => NatToString(n) + "분 전"
  }

  /** getRelativeTime with the current time as a parameter. */
  function GetRelativeTime(now: int, publishDate: int): string {
    ElapsedText(ElapsedSince(now, publishDate))
  }

  /** A date in the future, or less than two minutes past, reads "1분 전". */
  lemma FutureReadsOneMinute(now: int, publishDate: int)
    requires now - publishDate < 2 * MinuteMs
    ensures GetRelativeTime(now, publishDate) == "1분 전"
  {
    var e := ElapsedSince(now, publishDate);
    assert e == MinutesAgo(1);
    assert NatToString(1) == "1";
  }

  /** Exactly one day reads "1일 전", and 23 hours and 59 minutes read "23시간 전". */
  lemma DayBoundary(now: int)
    ensures GetRelativeTime(now, now - DayMs) == "1일 전"
    ensures GetRelativeTime(now, now - DayMs + MinuteMs) == "23시간 전"
  {
    assert ElapsedSince(now, now - DayMs) == DaysAgo(1);
    assert NatToString(1) == "1";
    assert ElapsedSince(now, now - DayMs + MinuteMs) == HoursAgo(23);
    assert NatToString(23) == NatToString(2) + [DigitChar(3)];
  }

  // ---------------------------------------------------------------------------
  // The detailed result

  /** One post of a keyword ranking: its rank and address. */
  datatype RankedPostView = RankedPostView(rank: nat, url: string)

  /** One entry of `keywordRankings`. */
  datatype KeywordRanking = KeywordRanking(keyword: string, bestRank: Option<RC.Bound>, averageRank: Option<int>,
                                           totalPosts: nat, rankedPosts: seq<RankedPostView>)

  function RankingView(r: RC.KeywordResult): (v: KeywordRanking)
    ensures v.keyword == r.keyword && v.totalPosts == r.totalPosts && |v.rankedPosts| == |r.posts|
    ensures forall i :: 0 <= i < |r.posts| ==> v.rankedPosts[i] == RankedPostView(r.posts[i].channelRank, r.posts[i].url)
  {
    KeywordRanking(r.keyword, r.bestRank, r.averageRank, r.totalPosts,
      seq(|r.posts|, i requires 0 <= i < |r.posts| => RankedPostView(r.posts[i].channelRank, r.posts[i].url)))
  }

  /** `metrics.actualRankings`. */
  datatype RankingStats = RankingStats(totalKeywords: nat, rankedKeywords: nat, averageRank: real, topRankedPosts: nat)

  predicate HasPosts(r: RC.KeywordResult) { r.totalPosts > 0 }

  /** `r.averageRank` is truthy: present and not 0. */
  predicate HasAverage(r: RC.KeywordResult) { r.averageRank.Some? && r.averageRank.value != 0 }

  function AverageValue(r: RC.KeywordResult): real {
    if r.averageRank.Some? then r.averageRank.value as real else 0.0
  }

  /** `reduce((sum, r) => sum + r.totalPosts, 0)`. */
  function TotalPosts(rs: seq<RC.KeywordResult>): nat {
    if |rs| == 0 then 0 else TotalPosts(rs[..|rs| - 1]) + rs[|rs| - 1].totalPosts
  }

  /** `null` without rankings; otherwise the keyword count, the keywords with
      posts, the mean of the (truthy) average ranks and the number of posts. */
  function RankingStatsOf(rs: seq<RC.KeywordResult>): (s: Option<RankingStats>)
    ensures s.None? <==> |rs| == 0
    ensures s.Some? ==> s.value.totalKeywords == |rs| && s.value.rankedKeywords <= |rs|
  {
    if |rs| == 0 then None
    else
      var averaged := Filter(rs, HasAverage);
      Some(RankingStats(|rs|, |Filter(rs, HasPosts)|,
        Sum(averaged, AverageValue) / MaxI(1, |averaged|) as real, TotalPosts(rs)))
  }

  /** `r.bestRank || 1000` when that is below 1000: a best rank that is
      finite, non-zero and under 1000. */
  function RankBelow1000(r: RC.KeywordResult): Option<nat> {
    if r.bestRank.Some? && r.bestRank.value.Finite? && 0 < r.bestRank.value.n < 1000
    then Some(r.bestRank.value.n) else None
  }

  /** `Math.min(...rankings.map(r => r.bestRank || 1000).filter(r => r < 1000))`:
      the smallest best rank below 1000, or `Infinity` (serialised as `null`)
      when there is none. Either is truthy, so the drawn fallback after `||`
      is never reached when there are rankings. */
  function BestRankMetric(rs: seq<RC.KeywordResult>): (b: RC.Bound)
    ensures b.Infinity? <==> forall i :: 0 <= i < |rs| ==> RankBelow1000(rs[i]).None?
    ensures b.Finite? ==> exists i :: 0 <= i < |rs| && RankBelow1000(rs[i]) == Some(b.n)
    ensures b.Finite? ==>
              forall i :: 0 <= i < |rs| && RankBelow1000(rs[i]).Some? ==> b.n <= RankBelow1000(rs[i]).value
  {
    if |rs| == 0 then RC.Infinity
    else
      var init := rs[..|rs| - 1];
      var rest := BestRankMetric(init);
      var last := RankBelow1000(rs[|rs| - 1]);
      assert forall i :: 0 <= i < |init| ==> rs[i] == init[i];
      if last.None? then rest
      else if rest.Finite? && rest.n <= last.value then rest
      else RC.Finite(last.value)
  }

  /** One entry of `recentPosts`: what formatDetailedPosts copies from the
      post (`x || 0` of a count is the count), with the publication time as
      getRelativeTime words it. */
  datatype RecentPost = RecentPost(title: string, publishTime: string, imageCount: nat, videoCount: nat,
                                   characterCount: nat, commentCount: nat, likeCount: nat, viewCount: nat)

  function RecentPostOf(p: BA.PostData, now: int): RecentPost {
    RecentPost(p.title, GetRelativeTime(now, p.publishDate), p.imageCount, p.videoCount,
               p.characterCount, p.commentCount, p.likeCount, p.viewCount)
  }

  /** `bestRank` is `None` where the source draws it at random (no rankings). */
  datatype DetailedResult = DetailedResult(
    blogId: string, nickname: string, title: string, url: string, category: string, neighborCount: nat,
    grade: string, baseScore: int, progressToNext: real,
    expertise: real, trust: real, relevance: real,
    validKeywordCount: nat, totalRank: int, categoryRank: int, postFrequency: real,
    bestRank: Option<RC.Bound>,
    actualRankings: Option<RankingStats>,
    expertiseComparison: ScoreComparison, trustComparison: ScoreComparison, relevanceComparison: ScoreComparison,
    contentPattern: Option<ContentPattern>,
    keywords: seq<string>, keywordRankings: seq<KeywordRanking>,
    recentPosts: seq<RecentPost>,
    recommendations: seq<string>,
    dailyVisitors: nat, averageVisitors: nat, totalVisitors: nat)

  /** The response body on success: the result and the usage counted with this request. */
  datatype AnalysisResponse = AnalysisResponse(result: DetailedResult, usage: int)

  /** `detailedResult`, from the crawled blog and posts, the engine's
      analysis, the ranking results and the current time. */
  function DetailedResultOf(url: string, blog: BA.BlogData, posts: seq<BA.PostData>, a: BA.AnalysisResult,
                            rankings: seq<RC.KeywordResult>, now: int): DetailedResult {
    DetailedResult(
      blog.blogId, blog.nickname, blog.nickname + "의 블로그", url, blog.category, blog.subscriberCount,
      a.blogIndex, a.overallScore, ShownProgress(a.overallScore as real),
      a.expertiseScore, a.trustScore, a.relevanceScore,
      a.validKeywordCount, a.totalRank, a.categoryRank, Hundredths(blog.postFrequency),
      if |rankings| > 0 then Some(BestRankMetric(rankings)) else None,
      RankingStatsOf(rankings),
      Compare(a.expertiseScore, ExpertiseBenchmark), Compare(a.trustScore, TrustBenchmark),
      Compare(a.relevanceScore, RelevanceBenchmark),
      AnalyzeContentPattern(posts, blog.category),
      TopKeywordsOf(posts), seq(|rankings|, i requires 0 <= i < |rankings| => RankingView(rankings[i])),
      seq(MinI(|posts|, 10), i requires 0 <= i < MinI(|posts|, 10) => RecentPostOf(posts[i], now)),
      a.recommendations,
      blog.dailyVisitorCount.GetOr(0), blog.averageVisitorCount.GetOr(0), blog.totalVisitorCount.GetOr(0))
  }

  /** The result reports the keywords extracted, one ranking per ranking
      result in order, ranking statistics exactly when there are rankings, a
      content pattern exactly when there are posts, the first ten posts with
      their relative publication time, the best rank below 1000 whenever there
      are rankings, and, for an overall score in the engine's range, a
      progress short of 100 and an expertise evaluation of '평균 이하'. */
  lemma DetailedResultSpec(url: string, blog: BA.BlogData, posts: seq<BA.PostData>, a: BA.AnalysisResult,
                           rankings: seq<RC.KeywordResult>, now: int)
    requires 20 <= a.overallScore <= 85 && a.expertiseScore <= 85.0
    ensures var d := DetailedResultOf(url, blog, posts, a, rankings, now);
      && d.keywords == TopKeywordsOf(posts)
      && |d.keywordRankings| == |rankings|
      && (forall i :: 0 <= i < |rankings| ==> d.keywordRankings[i].keyword == rankings[i].keyword)
      && (d.actualRankings.None? <==> rankings == [])
      && (d.contentPattern.None? <==> posts == [])
      && 0.0 <= d.progressToNext < 100.0
      && d.expertiseComparison.evaluation == Below
      && d.baseScore == a.overallScore
      && |d.recentPosts| == MinI(|posts|, 10)
      && (forall i :: 0 <= i < |d.recentPosts| ==>
            && d.recentPosts[i].title == posts[i].title
            && d.recentPosts[i].publishTime == GetRelativeTime(now, posts[i].publishDate)
            && d.recentPosts[i].imageCount == posts[i].imageCount)
      && (d.bestRank.None? <==> rankings == [])
      && (rankings != [] ==> d.bestRank == Some(BestRankMetric(rankings)))
  {
    ShownProgressBelowFull(a.overallScore);
  }

  // ---------------------------------------------------------------------------
  // POST

  /** The JSON body; absent fields are `None`, and a missing or empty
      `blogUrl` is "". */
  datatype AnalysisRequest = AnalysisRequest(blogUrl: string, userPlan: Option<string>, todayUsage: Option<int>)

  function PlanOf(req: AnalysisRequest): string { req.userPlan.GetOr("free") }
  function UsageOf(req: AnalysisRequest): int { req.todayUsage.GetOr(0) }

  /** The answer given before any crawling, if any: 500 when the body is unreadable or
      JSON, 400 without a blog URL, 429 when the plan's limit is reached. */
  function Admission(body: Option<AnalysisRequest>): (r: Option<Reply<AnalysisResponse>>)
    ensures r.None? <==> body.Some? && body.value.blogUrl != "" && !RejectedAsWritten(PlanOf(body.value), UsageOf(body.value))
    ensures body.None? ==> r == Some(Reply(500, Failure(ServerErrorMessage)))
    ensures body.Some? && body.value.blogUrl == "" ==> r == Some(Reply(400, Failure(MissingUrlMessage)))
    ensures r.Some? && body.Some? && body.value.blogUrl != "" ==> r == Some(Reply(429, Failure(LimitMessage)))
  {
    match body
    case None => Some(Reply(500, Failure(ServerErrorMessage)))
    case Some(req) =>
      if req.blogUrl == "" then Some(Reply(400, Failure(MissingUrlMessage)))
      else if RejectedAsWritten(PlanOf(req), UsageOf(req)) then Some(Reply(429, Failure(LimitMessage)))
      else None
  }

  /** A request without a plan or usage is a free request at usage 0, which
      is always rejected; so is one naming the free plan or an unknown plan
      that no object inherits. */
  lemma DefaultRequestRejected(url: string, userPlan: Option<string>)
    requires url != ""
    requires userPlan.None? || userPlan.value == "free"
             || (userPlan.value !in OwnLimits && userPlan.value !in InheritedMembers)
    ensures Admission(Some(AnalysisRequest(url, userPlan, None))) == Some(Reply(429, Failure(LimitMessage)))
  {
    if userPlan.Some? && userPlan.value != "free" {
      LookupsAgree(userPlan.value);
    }
  }

  /** A request naming an inherited member as its plan is admitted at any
      usage, as the gate is written (see README, Findings). */
  lemma InheritedPlanAdmitted(url: string, userPlan: string, todayUsage: Option<int>)
    requires url != "" && userPlan in InheritedMembers
    ensures Admission(Some(AnalysisRequest(url, Some(userPlan), todayUsage))).None?
  {
    assert userPlan !in OwnLimits;
  }

  /** `crawlResult.error || '블로그 정보를 가져올 수 없습니다.'`. */
  function CrawlErrorMessage(error: string): (m: string)
    ensures m != ""
    ensures error != "" ==> m == error
  {
    if error != "" then error else CrawlFailedMessage
  }

  /** What crawlBlog yields for the id extracted from `blogUrl`: the record
      of its ladder, and the ladder's posts or, when it found none, 20
      realistic posts seeded from the id. */
  predicate CrawledFrom(blogUrl: string, src: BC.Sources, blog: BA.BlogData, posts: seq<BA.PostData>)
    requires BC.ExtractBlogIdAsWritten(blogUrl).Some?
  {
    var blogId := BC.ExtractBlogIdAsWritten(blogUrl).value;
    var st := BC.Ladder(blogId, src);
    && Some(blog) == st.data
    && (|st.posts| > 0 ==> posts == st.posts)
    && (|st.posts| == 0 ==>
          && |posts| == 20
          && forall i :: 0 <= i < 20 ==> posts[i].(content := "") == BC.RealisticPostShape(Seed(blogId), i, src.now))
  }

  /** The crawl as POST uses it: the blog and posts, or nothing when the
      input names no blog. */
  method Crawl(blogUrl: string, src: BC.Sources) returns (r: Result<(BA.BlogData, seq<BA.PostData>)>)
    ensures r.Failure? <==> BC.ExtractBlogIdAsWritten(blogUrl).None?
    ensures r.Failure? ==> r.error == BC.InvalidIdMessage
    ensures r.Success? ==> CrawledFrom(blogUrl, src, r.value.0, r.value.1)
  {
    var crawl := BC.CrawlBlog(blogUrl, src);
    if crawl.CrawlFailure? {
      return Failure(crawl.error);
    }
    r := Success((crawl.data, crawl.posts));
  }

  /** What a successful POST answers and leaves in the client, given the
      crawled blog and posts and the engine's analysis of them. */
  ghost predicate Served(req: AnalysisRequest, blog: BA.BlogData, posts: seq<BA.PostData>, a: BA.AnalysisResult,
                         log: real -> real, env: nat -> RC.Call, rankingUnavailable: bool,
                         cache: map<string, RC.Entry>, keys: seq<string>, now: int, reply: Reply<AnalysisResponse>,
                         cacheAfter: RC.CacheState)
  {
    var keywords := TopKeywordsOf(posts);
    && reply == Reply(200, Success(AnalysisResponse(
         DetailedResultOf(req.blogUrl, blog, posts, a,
                          RankingsFor(cache, keys, blog.blogId, keywords, env, rankingUnavailable), now),
         UsageOf(req) + 1)))
    && cacheAfter == CacheAfter(cache, keys, blog.blogId, keywords, env, rankingUnavailable)
    && a.expertiseScore == BA.ExpertiseScore(log, blog, posts)
    && a.trustScore == BA.TrustScore(log, blog, posts)
    && a.relevanceScore == BA.RelevanceScore(posts, keywords)
    && a.overallScore == BA.OverallScore(a.expertiseScore, a.trustScore, a.relevanceScore, Some(blog))
    && 20 <= a.overallScore <= 85
    && a.blogIndex == BA.BlogGrade(a.overallScore as real).Label()
    && a.validKeywordCount == BA.ValidKeywordCount(posts)
    && a.totalRank == BA.CalculateBlogRank(blog, []).totalRank
    && a.categoryRank == BA.CalculateBlogRank(blog, []).categoryRank
    && a.recommendations == BA.Advice(a.expertiseScore, a.trustScore, a.relevanceScore, blog)
  }

  /** The report's keyword details are the analysed results. */
  lemma ReportDetails(keywordCount: nat, results: seq<RC.KeywordResult>)
    ensures RC.ReportOf(keywordCount, results).keywordDetails == results
  {
  }

  /** Step 2: the report on the first three keywords, whose details become
      `actualRankings`; a failure to load the client is caught and leaves `[]`. */
  method RankingStep(blogId: string, keywords: seq<string>, client: RC.RankingDataClient, rankingUnavailable: bool,
                     env: nat -> RC.Call)
    returns (rankings: seq<RC.KeywordResult>)
    requires client.Valid()
    modifies client
    ensures client.Valid()
    ensures rankings == RankingsFor(old(client.cache), old(client.keys), blogId, keywords, env, rankingUnavailable)
    ensures RC.CacheState(client.cache, client.keys)
            == CacheAfter(old(client.cache), old(client.keys), blogId, keywords, env, rankingUnavailable)
  {
    var top := RankingKeywords(keywords);
    rankings := [];
    if !rankingUnavailable && |top| > 0 {
      var report := client.GenerateRankingReport(blogId, top, env);
      ReportDetails(|top|, RC.AnalyzeUpTo(old(client.cache), old(client.keys), blogId, top, env, |top|).results);
      rankings := report.keywordDetails;
    }
  }

  /** Steps 2 and 3 and the result: rank the first three keywords, analyse
      the blog against all of them, assemble the result and count the usage.
      The ghost output is the engine's analysis. */
  method Respond(req: AnalysisRequest, blog: BA.BlogData, posts: seq<BA.PostData>, log: real -> real,
                 client: RC.RankingDataClient, rankingUnavailable: bool, env: nat -> RC.Call, now: int)
    returns (reply: Reply<AnalysisResponse>, ghost analysis: BA.AnalysisResult)
    requires client.Valid()
    modifies client
    ensures client.Valid()
    ensures Served(req, blog, posts, analysis, log, env, rankingUnavailable, old(client.cache), old(client.keys),
                   now, reply, RC.CacheState(client.cache, client.keys))
  {
    var keywords := ExtractTopKeywords(posts);
    var rankings := RankingStep(blog.blogId, keywords, client, rankingUnavailable, env);
    var a := BA.AnalyzeBlog(log, blog, posts, keywords);
    reply := Reply(200, Success(AnalysisResponse(DetailedResultOf(req.blogUrl, blog, posts, a, rankings, now),
                                                 UsageOf(req) + 1)));
    analysis := a;
  }

  /** POST. The crawl and the analysis happen in the crawler and the engine;
      `rankingUnavailable` says the ranking client could not be loaded, which
      the route catches. On success the ghost outputs are the crawled blog and
      posts and the engine's analysis. */
  method Post(body: Option<AnalysisRequest>, src: BC.Sources, log: real -> real, client: RC.RankingDataClient,
              rankingUnavailable: bool, env: nat -> RC.Call)
    returns (reply: Reply<AnalysisResponse>, ghost blog: BA.BlogData, ghost posts: seq<BA.PostData>,
             ghost analysis: BA.AnalysisResult)
    requires client.Valid()
    modifies client
    ensures client.Valid()
    ensures Admission(body).Some? ==>
              reply == Admission(body).value && client.cache == old(client.cache) && client.keys == old(client.keys)
    ensures Admission(body).None? && BC.ExtractBlogIdAsWritten(body.value.blogUrl).None? ==>
              reply == Reply(400, Failure(BC.InvalidIdMessage))
              && client.cache == old(client.cache) && client.keys == old(client.keys)
    ensures Admission(body).None? && BC.ExtractBlogIdAsWritten(body.value.blogUrl).Some? ==>
              && CrawledFrom(body.value.blogUrl, src, blog, posts)
              && Served(body.value, blog, posts, analysis, log, env, rankingUnavailable, old(client.cache),
                        old(client.keys), src.now, reply, RC.CacheState(client.cache, client.keys))
  {
    blog :| true;
    posts := [];
    analysis :| true;
    var admission := Admission(body);
    if admission.Some? {
      reply := admission.value;
      return;
    }
    var req := body.value;
    var crawl := Crawl(req.blogUrl, src);
    if crawl.Failure? {
      reply := Reply(400, Failure(CrawlErrorMessage(crawl.error)));
      return;
    }
    blog, posts := crawl.value.0, crawl.value.1;
    reply, analysis := Respond(req, crawl.value.0, crawl.value.1, log, client, rankingUnavailable, env, src.now);
  }

  /** A request whose ranking step fails still succeeds: the result carries
      no keyword rankings and no ranking statistics. */
  lemma RankingFailureSwallowed(url: string, blog: BA.BlogData, posts: seq<BA.PostData>, a: BA.AnalysisResult,
                                cache: map<string, RC.Entry>, keys: seq<string>, env: nat -> RC.Call, now: int)
    ensures var d := DetailedResultOf(url, blog, posts, a,
                                      RankingsFor(cache, keys, blog.blogId, TopKeywordsOf(posts), env, true), now);
      d.keywordRankings == [] && d.actualRankings.None? && d.bestRank.None?
  {
  }
}
