/** The scoring engine of lib/blog-analysis.ts: expertise, trust and relevance
    scores built from banded components and clamped, the weighted overall
    score, the grade ladder, the rank estimate, the keyword counts and the
    recommendations.

    Numbers are exact reals. `Math.log10` is a parameter `log`; the lemmas
    that need its shape assume `IsLog10(log)`. */
module BlogAnalysis {
  import opened Common
  import opened Text
  import opened Keywords

  datatype BlogData = BlogData(
    blogId: string,
    nickname: string,
    category: string,
    subscriberCount: nat,
    postCount: nat,
    scrapCount: nat,
    averageViews: nat,
    postFrequency: real,
    totalVisitorCount: Option<nat>,
    dailyVisitorCount: Option<nat>,
    averageVisitorCount: Option<nat>)

  /** A post; `publishDate` is a time in milliseconds. */
  datatype PostData = PostData(
    title: string,
    content: string,
    publishDate: int,
    imageCount: nat,
    videoCount: nat,
    characterCount: nat,
    commentCount: nat,
    likeCount: nat,
    viewCount: nat)

  /** What the scores need of `Math.log10`: monotone from 1 on, with its
      values at 1, 10, 100 and 1000. */
  ghost predicate IsLog10(log: real -> real) {
    && (forall x, y :: 1.0 <= x <= y ==> log(x) <= log(y))
    && log(1.0) == 0.0 && log(10.0) == 1.0 && log(100.0) == 2.0 && log(1000.0) == 3.0
  }

  // ---------------------------------------------------------------------------
  // Grade ladder

  datatype Grade = NoGrade | Semi4 | Semi3 | Semi2 | Semi1 | Opt4 | Opt3 | Opt2 | Opt1 {
    /** The label the source returns. */
    function Label(): string {
      match this
      case NoGrade => "없음"
      case Semi4 => "준최 4"
      case Semi3 => "준최 3"
      case Semi2 => "준최 2"
      case Semi1 => "준최 1"
      case Opt4 => "최적 4"
      case Opt3 => "최적 3"
      case Opt2 => "최적 2"
      case Opt1 => "최적 1"
    }

    /** Position on the ladder, 0 for '없음' up to 8 for '최적 1'. */
    function Tier(): nat {
      match this
      case NoGrade => 0
      case Semi4 => 1
      case Semi3 => 2
      case Semi2 => 3
      case Semi1 => 4
      case Opt4 => 5
      case Opt3 => 6
      case Opt2 => 7
      case Opt1 => 8
    }
  }

  /** The score at which each grade above '없음' begins. */
  const GradeBreakpoints: seq<real> := [20.0, 35.0, 45.0, 55.0, 65.0, 72.0, 78.0, 85.0]

  /** How many of the breakpoints the score has reached. */
  function Reached(breakpoints: seq<real>, score: real): nat {
    if |breakpoints| == 0 then 0
    else (if breakpoints[0] <= score then 1 else 0) + Reached(breakpoints[1..], score)
  }

  /** `calculateBlogGrade`: strict `<` tests from the bottom of the ladder. */
  function BlogGrade(score: real): (g: Grade)
    ensures g.Tier() == Reached(GradeBreakpoints, score)
  {
    ReachedGradeBreakpoints(score);
    if score < 20.0 then NoGrade
    else if score < 35.0 then Semi4
    else if score < 45.0 then Semi3
    else if score < 55.0 then Semi2
    else if score < 65.0 then Semi1
    else if score < 72.0 then Opt4
    else if score < 78.0 then Opt3
    else if score < 85.0 then Opt2
    else Opt1
  }

  lemma ReachedGradeBreakpoints(score: real)
    ensures Reached(GradeBreakpoints, score)
         == (if 20.0 <= score then 1 else 0) + (if 35.0 <= score then 1 else 0)
          + (if 45.0 <= score then 1 else 0) + (if 55.0 <= score then 1 else 0)
          + (if 65.0 <= score then 1 else 0) + (if 72.0 <= score then 1 else 0)
          + (if 78.0 <= score then 1 else 0) + (if 85.0 <= score then 1 else 0)
  {
    assert Reached([], score) == 0;
    assert Reached([85.0], score) == (if 85.0 <= score then 1 else 0) + Reached([], score);
    assert Reached([78.0, 85.0], score) == (if 78.0 <= score then 1 else 0) + Reached([85.0], score);
    assert Reached([72.0, 78.0, 85.0], score)
        == (if 72.0 <= score then 1 else 0) + Reached([78.0, 85.0], score);
    assert Reached([65.0, 72.0, 78.0, 85.0], score)
        == (if 65.0 <= score then 1 else 0) + Reached([72.0, 78.0, 85.0], score);
    assert Reached([55.0, 65.0, 72.0, 78.0, 85.0], score)
        == (if 55.0 <= score then 1 else 0) + Reached([65.0, 72.0, 78.0, 85.0], score);
    assert Reached([45.0, 55.0, 65.0, 72.0, 78.0, 85.0], score)
        == (if 45.0 <= score then 1 else 0) + Reached([55.0, 65.0, 72.0, 78.0, 85.0], score);
    assert Reached([35.0, 45.0, 55.0, 65.0, 72.0, 78.0, 85.0], score)
        == (if 35.0 <= score then 1 else 0) + Reached([45.0, 55.0, 65.0, 72.0, 78.0, 85.0], score);
    assert Reached(GradeBreakpoints, score)
        == (if 20.0 <= score then 1 else 0) + Reached([35.0, 45.0, 55.0, 65.0, 72.0, 78.0, 85.0], score);
  }

  lemma {:induction false} ReachedMonotone(breakpoints: seq<real>, s1: real, s2: real)
    requires s1 <= s2
    ensures Reached(breakpoints, s1) <= Reached(breakpoints, s2)
  {
    if |breakpoints| > 0 {
      ReachedMonotone(breakpoints[1..], s1, s2);
    }
  }

  /** A higher score never gets a lower grade. */
  lemma GradeMonotone(s1: real, s2: real)
    requires s1 <= s2
    ensures BlogGrade(s1).Tier() <= BlogGrade(s2).Tier()
  {
    ReachedMonotone(GradeBreakpoints, s1, s2);
  }

  /** The breakpoints are strict: 34 and 35, 84.9 and 85 fall on different grades. */
  lemma GradeBoundaries()
    ensures BlogGrade(34.0).Label() == "준최 4"
    ensures BlogGrade(35.0).Label() == "준최 3"
    ensures BlogGrade(84.9).Label() == "최적 2"
    ensures BlogGrade(85.0).Label() == "최적 1"
    ensures BlogGrade(19.9).Label() == "없음"
  {
  }

  // ---------------------------------------------------------------------------
  // Means over posts

  function AvgCharacters(posts: seq<PostData>): real requires |posts| > 0 {
    Mean(posts, (p: PostData) => p.characterCount as real)
  }

  function AvgImages(posts: seq<PostData>): real requires |posts| > 0 {
    Mean(posts, (p: PostData) => p.imageCount as real)
  }

  function AvgComments(posts: seq<PostData>): real requires |posts| > 0 {
    Mean(posts, (p: PostData) => p.commentCount as real)
  }

  function AvgLikes(posts: seq<PostData>): real requires |posts| > 0 {
    Mean(posts, (p: PostData) => p.likeCount as real)
  }

  function AvgViews(posts: seq<PostData>): real requires |posts| > 0 {
    Mean(posts, (p: PostData) => p.viewCount as real)
  }

  lemma AveragesNonNegative(posts: seq<PostData>)
    requires |posts| > 0
    ensures AvgCharacters(posts) >= 0.0 && AvgImages(posts) >= 0.0
    ensures AvgComments(posts) >= 0.0 && AvgLikes(posts) >= 0.0 && AvgViews(posts) >= 0.0
  {
    SumNonNegative(posts, (p: PostData) => p.characterCount as real);
    SumNonNegative(posts, (p: PostData) => p.imageCount as real);
    SumNonNegative(posts, (p: PostData) => p.commentCount as real);
    SumNonNegative(posts, (p: PostData) => p.likeCount as real);
    SumNonNegative(posts, (p: PostData) => p.viewCount as real);
  }

  // ---------------------------------------------------------------------------
  // Expertise

  /** `categoryWeights[category] || 0.8`. */
  function CategoryWeight(category: string): real {
    if category == "IT·컴퓨터" then 1.1
    else if category == "건강·의학" then 1.1
    else if category == "교육·학문" then 1.05
    else if category == "비즈니스·경제" then 1.05
    else if category == "맛집" then 0.95
    else if category == "여행" then 0.9
    else if category == "패션·미용" then 0.9
    else if category == "일상·생각" then 0.7
    else 0.8
  }

  /** The category component: 5 for the two general categories, otherwise
      12 scaled by the category's weight and rounded. */
  function CategoryComponent(category: string): (r: int)
    ensures r == 5 || r == 10 || r == 11 || r == 13
    ensures category == "주제 없음" || category == "일상·생각" <==> r == 5
  {
    if category == "주제 없음" || category == "일상·생각" then 5
    else
      var w := CategoryWeight(category);
      assert w == 1.1 || w == 1.05 || w == 0.95 || w == 0.9 || w == 0.8;
      assert RoundHalfUp(12.0 * 1.1) == 13;
      assert RoundHalfUp(12.0 * 1.05) == 13;
      assert RoundHalfUp(12.0 * 0.95) == 11;
      assert RoundHalfUp(12.0 * 0.9) == 11;
      assert RoundHalfUp(12.0 * 0.8) == 10;
      RoundHalfUp(12.0 * w)
  }

  function PostCountComponent(log: real -> real, postCount: nat): real {
    MinR(25.0, log(postCount as real + 1.0) * 8.0)
  }

  /** The length band of the average post. */
  function LengthBand(avgCharacters: real): real {
    if 800.0 <= avgCharacters <= 2000.0 then 12.0
    else if 500.0 <= avgCharacters < 800.0 then 8.0
    else if 300.0 <= avgCharacters < 500.0 then 5.0
    else if avgCharacters > 2000.0 then 10.0
    else 2.0
  }

  function MediaBand(avgImages: real): real {
    if 2.0 <= avgImages <= 8.0 then 8.0
    else if 1.0 <= avgImages < 2.0 then 5.0
    else if avgImages > 8.0 then 6.0
    else 1.0
  }

  /** The content component: nothing without posts. */
  function ContentComponent(posts: seq<PostData>): (r: real)
    ensures |posts| == 0 ==> r == 0.0
    ensures 3.0 <= r <= 20.0 || |posts| == 0
  {
    if |posts| == 0 then 0.0
    else MinR(25.0, LengthBand(AvgCharacters(posts)) + MediaBand(AvgImages(posts)))
  }

  function ActivityComponent(postFrequency: real): (r: real)
    ensures postFrequency <= 0.0 <==> r == 0.0
  {
    if postFrequency > 0.0 then
      if 0.1 <= postFrequency <= 1.0 then 12.0
      else if postFrequency > 1.0 then 8.0
      else 5.0
    else 0.0
  }

  function SubscriberComponent(log: real -> real, subscriberCount: nat): real {
    if subscriberCount > 0 then MinR(15.0, log(subscriberCount as real + 1.0) * 3.0) else 0.0
  }

  /** `calculateExpertiseScore`. */
  function ExpertiseScore(log: real -> real, blog: BlogData, posts: seq<PostData>): (r: real)
    ensures 15.0 <= r <= 85.0
  {
    Clamp(PostCountComponent(log, blog.postCount) + CategoryComponent(blog.category) as real
          + ContentComponent(posts) + ActivityComponent(blog.postFrequency)
          + SubscriberComponent(log, blog.subscriberCount), 15.0, 85.0)
  }

  lemma MinRMonotone(c: real, a: real, b: real)
    requires a <= b
    ensures MinR(c, a) <= MinR(c, b)
  {
  }

  lemma ClampMonotone(a: real, b: real, lo: real, hi: real)
    requires a <= b && lo <= hi
    ensures Clamp(a, lo, hi) <= Clamp(b, lo, hi)
  {
  }

  /** More subscribers or more posts never lower the expertise score. */
  lemma ExpertiseMonotone(log: real -> real, blog: BlogData, posts: seq<PostData>, subscribers: nat, postCount: nat)
    requires IsLog10(log)
    requires blog.subscriberCount <= subscribers && blog.postCount <= postCount
    ensures ExpertiseScore(log, blog, posts)
         <= ExpertiseScore(log, blog.(subscriberCount := subscribers, postCount := postCount), posts)
  {
    var blog2 := blog.(subscriberCount := subscribers, postCount := postCount);
    var s1, s2 := blog.subscriberCount as real + 1.0, subscribers as real + 1.0;
    assert log(s1) <= log(s2);
    assert log(1.0) <= log(s1);
    MinRMonotone(15.0, log(s1) * 3.0, log(s2) * 3.0);
    assert SubscriberComponent(log, blog.subscriberCount) <= SubscriberComponent(log, subscribers);
    var p1, p2 := blog.postCount as real + 1.0, postCount as real + 1.0;
    assert log(p1) <= log(p2);
    MinRMonotone(25.0, log(p1) * 8.0, log(p2) * 8.0);
    ClampMonotone(
      PostCountComponent(log, blog.postCount) + CategoryComponent(blog.category) as real
        + ContentComponent(posts) + ActivityComponent(blog.postFrequency)
        + SubscriberComponent(log, blog.subscriberCount),
      PostCountComponent(log, postCount) + CategoryComponent(blog.category) as real
        + ContentComponent(posts) + ActivityComponent(blog.postFrequency)
        + SubscriberComponent(log, subscribers),
      15.0, 85.0);
  }

  // ---------------------------------------------------------------------------
  // Trust

  /** `((avgComments + avgLikes) / avgViews) * 100`, or 0 without views. */
  function TrustEngagementRate(posts: seq<PostData>): real
    requires |posts| > 0
  {
    if AvgViews(posts) > 0.0 then (AvgComments(posts) + AvgLikes(posts)) / AvgViews(posts) * 100.0 else 0.0
  }

  function TrustEngagementBand(rate: real): (r: real)
    ensures r == 15.0 || r == 12.0 || r == 8.0 || r == 5.0 || r == 2.0
  {
    if rate > 5.0 then 15.0
    else if rate > 2.0 then 12.0
    else if rate > 1.0 then 8.0
    else if rate > 0.5 then 5.0
    else 2.0
  }

  function TrustEngagementComponent(posts: seq<PostData>): (r: real)
    ensures |posts| == 0 ==> r == 0.0
    ensures |posts| > 0 ==> r == 15.0 || r == 12.0 || r == 8.0 || r == 5.0 || r == 2.0
    ensures |posts| > 0 && AvgViews(posts) == 0.0 ==> r == 2.0
  {
    if |posts| == 0 then 0.0 else MinR(20.0, TrustEngagementBand(TrustEngagementRate(posts)))
  }

  function SubscriberTrust(log: real -> real, subscriberCount: nat, postCount: nat): real {
    if subscriberCount > 0 then
      MinR(15.0, log(subscriberCount as real + 1.0) * 3.5)
      + (if postCount as real / MaxR(1.0, subscriberCount as real) < 10.0 then 5.0 else 0.0)
    else 0.0
  }

  function QualityComponent(posts: seq<PostData>): (r: real)
    ensures |posts| == 0 ==> r == 0.0
    ensures |posts| > 0 ==> 2.0 <= r <= 15.0
  {
    if |posts| == 0 then 0.0
    else
      var avgLength := AvgCharacters(posts);
      var lengthScore := if avgLength > 500.0 then 10.0 else if avgLength > 200.0 then 6.0 else 2.0;
      MinR(15.0, lengthScore + (if AvgImages(posts) > 1.0 then 5.0 else 0.0))
  }

  /** `calculateTrustScore`. */
  function TrustScore(log: real -> real, blog: BlogData, posts: seq<PostData>): (r: real)
    ensures 10.0 <= r <= 80.0
  {
    Clamp(MinR(20.0, log(blog.postCount as real + 1.0) * 6.0)
          + (if blog.postFrequency > 0.05 then 5.0 else 0.0)
          + TrustEngagementComponent(posts)
          + SubscriberTrust(log, blog.subscriberCount, blog.postCount)
          + QualityComponent(posts), 10.0, 80.0)
  }

  /** More subscribers never lower the trust score: the logarithmic part
      grows and the posts-per-subscriber test only gets easier to pass. */
  lemma TrustMonotoneInSubscribers(log: real -> real, blog: BlogData, posts: seq<PostData>, subscribers: nat)
    requires IsLog10(log)
    requires blog.subscriberCount <= subscribers
    ensures TrustScore(log, blog, posts) <= TrustScore(log, blog.(subscriberCount := subscribers), posts)
  {
    SubscriberTrustMonotone(log, blog.subscriberCount, subscribers, blog.postCount);
    var rest := MinR(20.0, log(blog.postCount as real + 1.0) * 6.0) + (if blog.postFrequency > 0.05 then 5.0 else 0.0)
      + TrustEngagementComponent(posts) + QualityComponent(posts);
    ClampMonotone(rest + SubscriberTrust(log, blog.subscriberCount, blog.postCount),
                  rest + SubscriberTrust(log, subscribers, blog.postCount), 10.0, 80.0);
  }

  /** The subscriber part of trust never falls as subscribers grow. */
  lemma SubscriberTrustMonotone(log: real -> real, s1: nat, s2: nat, postCount: nat)
    requires IsLog10(log)
    requires s1 <= s2
    ensures SubscriberTrust(log, s1, postCount) <= SubscriberTrust(log, s2, postCount)
  {
    var l1, l2 := s1 as real + 1.0, s2 as real + 1.0;
    assert log(l1) <= log(l2);
    assert log(1.0) <= log(l1);
    MinRMonotone(15.0, log(l1) * 3.5, log(l2) * 3.5);
    if s1 > 0 {
      RatioMonotone(postCount as real, s1 as real, s2 as real);
    }
  }

  lemma RatioMonotone(pc: real, s1: real, s2: real)
    requires pc >= 0.0 && 1.0 <= s1 <= s2
    ensures pc / MaxR(1.0, s2) <= pc / MaxR(1.0, s1)
  {
    assert MaxR(1.0, s1) == s1 && MaxR(1.0, s2) == s2;
    assert pc / s2 * s2 == pc / s1 * s1;
  }

  // ---------------------------------------------------------------------------
  // Relevance

  /** The title band of one post, with the bonus for a mostly-Hangul title
      (an empty title gives a NaN ratio and no bonus). */
  function TitleScore(title: string): (r: real)
    ensures 5.0 <= r <= 18.0
  {
    var len := |title|;
    var lengthScore := if 10 <= len <= 50 then 15.0 else if 5 <= len <= 80 then 10.0 else 5.0;
    lengthScore + (if len > 0 && HangulCount(title) as real / len as real > 0.5 then 3.0 else 0.0)
  }

  /** The content band of one post plus its image-to-text balance. */
  function ContentScore(p: PostData): (r: real)
    ensures 5.0 <= r <= 23.0
  {
    var c := p.characterCount as real;
    var lengthScore := if 300.0 <= c <= 2000.0 then 15.0 else if c >= 100.0 then 10.0 else 5.0;
    var ratio := p.imageCount as real / MaxR(1.0, c / 300.0);
    lengthScore + (if 0.3 <= ratio <= 3.0 then 8.0 else if ratio > 0.0 then 4.0 else 0.0)
  }

  /** `(comments + likes * 0.5) / max(1, views) * 100`. */
  function PostEngagement(p: PostData): real {
    (p.commentCount as real + p.likeCount as real * 0.5) / MaxR(1.0, p.viewCount as real) * 100.0
  }

  function RelevanceEngagementBand(avgEngagement: real): (r: real)
    ensures r == 20.0 || r == 15.0 || r == 10.0 || r == 5.0 || r == 2.0
  {
    if avgEngagement > 3.0 then 20.0
    else if avgEngagement > 1.0 then 15.0
    else if avgEngagement > 0.5 then 10.0
    else if avgEngagement > 0.1 then 5.0
    else 2.0
  }

  /** `posts.map(p => p.title + ' ' + p.content).join(' ')`. */
  function PostsText(posts: seq<PostData>): string {
    Join(seq(|posts|, i requires 0 <= i < |posts| => posts[i].title + " " + posts[i].content), " ")
  }

  /** `extractAutoKeywords`: at most 10 keywords of 2 to 10 syllables. */
  function AutoKeywords(posts: seq<PostData>): seq<string> {
    TopWords(HangulWords(PostsText(posts)), Some(10), 10)
  }

  method ExtractAutoKeywords(posts: seq<PostData>) returns (keywords: seq<string>)
    ensures keywords == AutoKeywords(posts)
  {
    keywords := RankKeywords(PostsText(posts), 10, 10);
  }

  /** The keyword component: two points per automatic keyword, at most 15. */
  function KeywordComponent(posts: seq<PostData>): (r: real)
    ensures 0.0 <= r <= 15.0
  {
    MinR(15.0, |AutoKeywords(posts)| as real * 2.0)
  }

  /** `calculateRelevanceScore`; `targetKeywords` is accepted and never read. */
  function RelevanceScore(posts: seq<PostData>, targetKeywords: seq<string>): (r: real)
    ensures |posts| == 0 ==> r == 20.0
    ensures 20.0 <= r <= 85.0
  {
    if |posts| == 0 then 20.0
    else
      var titles := Mean(posts, (p: PostData) => TitleScore(p.title));
      var contents := Mean(posts, ContentScore);
      var engagement := Mean(posts, PostEngagement);
      Clamp(5.0 + MinR(25.0, titles) + MinR(25.0, contents)
            + RelevanceEngagementBand(engagement) + KeywordComponent(posts), 20.0, 85.0)
  }

  /** The target keywords never influence the relevance score. */
  lemma RelevanceIgnoresTargets(posts: seq<PostData>, t1: seq<string>, t2: seq<string>)
    ensures RelevanceScore(posts, t1) == RelevanceScore(posts, t2)
  {
  }

  /** The 25-point caps on the title and content means never bind: a title
      scores at most 18 and a post's content at most 23. */
  lemma RelevanceCapsSlack(posts: seq<PostData>)
    requires |posts| > 0
    ensures Mean(posts, (p: PostData) => TitleScore(p.title)) <= 18.0
    ensures Mean(posts, ContentScore) <= 23.0
  {
    MeanBounds(posts, (p: PostData) => TitleScore(p.title), 5.0, 18.0);
    MeanBounds(posts, ContentScore, 5.0, 23.0);
  }

  // ---------------------------------------------------------------------------
  // Overall score

  datatype Weights = Weights(expertise: real, trust: real, relevance: real)

  /** The weights, nudged toward trust above 500 subscribers and toward
      expertise above 50 posts. */
  function OverallWeights(blog: Option<BlogData>): (w: Weights)
    ensures w.expertise + w.trust + w.relevance == 1.0
    ensures w.expertise >= 0.335 && w.trust >= 0.335 && w.relevance >= 0.27
    ensures blog.None? ==> w == Weights(0.35, 0.35, 0.30)
  {
    var bySubscribers := blog.Some? && blog.value.subscriberCount > 500;
    var byPosts := blog.Some? && blog.value.postCount > 50;
    Weights(
      0.35 - (if bySubscribers then 0.015 else 0.0) + (if byPosts then 0.03 else 0.0),
      0.35 + (if bySubscribers then 0.03 else 0.0) - (if byPosts then 0.015 else 0.0),
      0.30 - (if bySubscribers then 0.015 else 0.0) - (if byPosts then 0.015 else 0.0))
  }

  function Min3(a: real, b: real, c: real): real { MinR(a, MinR(b, c)) }
  function Max3(a: real, b: real, c: real): real { MaxR(a, MaxR(b, c)) }

  function BalanceBonus(minScore: real): (b: real)
    ensures 0.0 <= b <= 3.0
    ensures b > 0.0 <==> minScore > 50.0
  {
    if minScore > 50.0 then MinR(3.0, (minScore - 50.0) * 0.2) else 0.0
  }

  function VariancePenalty(spread: real): (p: real)
    ensures 0.0 <= p <= 2.0
    ensures p > 0.0 <==> spread > 40.0
  {
    if spread > 40.0 then MinR(2.0, (spread - 40.0) * 0.05) else 0.0
  }

  /** The weighted mean of the three scores. */
  function Weighted(e: real, t: real, r: real, w: Weights): real {
    e * w.expertise + t * w.trust + r * w.relevance
  }

  /** The balance bonus less the spread penalty. */
  function Adjustment(e: real, t: real, r: real): (a: real)
    ensures -2.0 <= a <= 3.0
  {
    BalanceBonus(Min3(e, t, r)) - VariancePenalty(Max3(e, t, r) - Min3(e, t, r))
  }

  /** The score before clamping and rounding. */
  function OverallRaw(e: real, t: real, r: real, blog: Option<BlogData>): real {
    Weighted(e, t, r, OverallWeights(blog)) + Adjustment(e, t, r)
  }

  /** `calculateOverallScore`: an integer from 20 to 85. */
  function OverallScore(e: real, t: real, r: real, blog: Option<BlogData>): (s: int)
    ensures 20 <= s <= 85
  {
    RoundHalfUp(Clamp(OverallRaw(e, t, r, blog), 20.0, 85.0))
  }

  lemma ScaleLe(a: real, b: real, w: real)
    requires a <= b && w >= 0.0
    ensures a * w <= b * w
  {
  }

  lemma Distribute(x: real, a: real, b: real, c: real)
    ensures x * a + x * b + x * c == x * (a + b + c)
  {
  }

  lemma AddLe(x1: real, y1: real, x2: real, y2: real, x3: real, y3: real)
    requires x1 <= y1 && x2 <= y2 && x3 <= y3
    ensures x1 + x2 + x3 <= y1 + y2 + y3
  {
  }

  /** A weighted mean lies between the smallest and the largest value. */
  lemma WeightedBetween(e: real, t: real, r: real, w: Weights, lo: real, hi: real)
    requires lo <= e <= hi && lo <= t <= hi && lo <= r <= hi
    requires w.expertise >= 0.0 && w.trust >= 0.0 && w.relevance >= 0.0
    requires w.expertise + w.trust + w.relevance == 1.0
    ensures lo <= Weighted(e, t, r, w) <= hi
  {
    var a, b, c := w.expertise, w.trust, w.relevance;
    ScaleLe(lo, e, a);
    ScaleLe(lo, t, b);
    ScaleLe(lo, r, c);
    ScaleLe(e, hi, a);
    ScaleLe(t, hi, b);
    ScaleLe(r, hi, c);
    AddLe(lo * a, e * a, lo * b, t * b, lo * c, r * c);
    AddLe(e * a, hi * a, t * b, hi * b, r * c, hi * c);
    Distribute(lo, a, b, c);
    Distribute(hi, a, b, c);
    MulOne(lo, a + b + c);
    MulOne(hi, a + b + c);
  }

  lemma MulOne(x: real, s: real)
    requires s == 1.0
    ensures x * s == x
  {
  }

  /** The weighted mean stays between the smallest and the largest score, so
      the raw score is within 2 below the smallest and 3 above the largest. */
  lemma OverallRawNearScores(e: real, t: real, r: real, blog: Option<BlogData>)
    ensures Min3(e, t, r) - 2.0 <= OverallRaw(e, t, r, blog) <= Max3(e, t, r) + 3.0
  {
    WeightedBetween(e, t, r, OverallWeights(blog), Min3(e, t, r), Max3(e, t, r));
  }

  lemma PenaltyLipschitz(v1: real, v2: real)
    requires v1 <= v2
    ensures VariancePenalty(v1) <= VariancePenalty(v2) <= VariancePenalty(v1) + (v2 - v1) * 0.05
  {
  }

  lemma BonusMonotone(m1: real, m2: real)
    requires m1 <= m2
    ensures BalanceBonus(m1) <= BalanceBonus(m2)
  {
  }

  lemma RoundMonotone(a: real, b: real)
    requires a <= b
    ensures RoundHalfUp(a) <= RoundHalfUp(b)
  {
  }

  lemma WeightedStep(a1: real, a2: real, w: real)
    requires a1 <= a2 && w >= 0.27
    ensures a1 * w + (a2 - a1) * 0.27 <= a2 * w
  {
    assert (a2 - a1) * w >= (a2 - a1) * 0.27;
  }

  /** The weighted part grows by at least 0.27 per point of increase. */
  lemma WeightedGrowth(e1: real, t1: real, r1: real, e2: real, t2: real, r2: real, w: Weights)
    requires e1 <= e2 && t1 <= t2 && r1 <= r2
    requires w.expertise >= 0.27 && w.trust >= 0.27 && w.relevance >= 0.27
    ensures Weighted(e2, t2, r2, w) - Weighted(e1, t1, r1, w) >= ((e2 - e1) + (t2 - t1) + (r2 - r1)) * 0.27
  {
    WeightedStep(e1, e2, w.expertise);
    WeightedStep(t1, t2, w.trust);
    WeightedStep(r1, r2, w.relevance);
  }

  /** The spread grows by at most the total increase. */
  lemma SpreadGrowth(e1: real, t1: real, r1: real, e2: real, t2: real, r2: real)
    requires e1 <= e2 && t1 <= t2 && r1 <= r2
    ensures Min3(e1, t1, r1) <= Min3(e2, t2, r2)
    ensures (Max3(e2, t2, r2) - Min3(e2, t2, r2)) - (Max3(e1, t1, r1) - Min3(e1, t1, r1))
         <= (e2 - e1) + (t2 - t1) + (r2 - r1)
  {
  }

  /** The bonus never falls and the penalty rises by at most 0.05 per point. */
  lemma AdjustmentGrowth(e1: real, t1: real, r1: real, e2: real, t2: real, r2: real)
    requires e1 <= e2 && t1 <= t2 && r1 <= r2
    ensures Adjustment(e1, t1, r1) - Adjustment(e2, t2, r2) <= ((e2 - e1) + (t2 - t1) + (r2 - r1)) * 0.05
  {
    SpreadGrowth(e1, t1, r1, e2, t2, r2);
    BonusMonotone(Min3(e1, t1, r1), Min3(e2, t2, r2));
    var sp1, sp2 := Max3(e1, t1, r1) - Min3(e1, t1, r1), Max3(e2, t2, r2) - Min3(e2, t2, r2);
    if sp1 <= sp2 {
      PenaltyLipschitz(sp1, sp2);
    } else {
      PenaltyLipschitz(sp2, sp1);
    }
  }

  lemma OverallRawMonotone(e1: real, t1: real, r1: real, e2: real, t2: real, r2: real, blog: Option<BlogData>)
    requires e1 <= e2 && t1 <= t2 && r1 <= r2
    ensures OverallRaw(e1, t1, r1, blog) <= OverallRaw(e2, t2, r2, blog)
  {
    WeightedGrowth(e1, t1, r1, e2, t2, r2, OverallWeights(blog));
    AdjustmentGrowth(e1, t1, r1, e2, t2, r2);
  }

  /** Raising any of the three scores never lowers the overall score: each
      weight is at least 0.27, while the spread penalty grows by at most
      0.05 per point. */
  lemma OverallMonotone(e1: real, t1: real, r1: real, e2: real, t2: real, r2: real, blog: Option<BlogData>)
    requires e1 <= e2 && t1 <= t2 && r1 <= r2
    ensures OverallScore(e1, t1, r1, blog) <= OverallScore(e2, t2, r2, blog)
  {
    var raw1, raw2 := OverallRaw(e1, t1, r1, blog), OverallRaw(e2, t2, r2, blog);
    OverallRawMonotone(e1, t1, r1, e2, t2, r2, blog);
    ClampMonotone(raw1, raw2, 20.0, 85.0);
    RoundMonotone(Clamp(raw1, 20.0, 85.0), Clamp(raw2, 20.0, 85.0));
  }

  // ---------------------------------------------------------------------------
  // Rank estimate

  datatype BlogRank = BlogRank(totalRank: int, categoryRank: int)

  const TotalBlogs: int := 1000000
  const DefaultCategoryBlogs: int := 50000

  function RankScore(blog: BlogData): (r: real)
    ensures r >= 0.0
  {
    blog.subscriberCount as real * 0.3 + blog.postCount as real * 0.2 + blog.scrapCount as real * 0.5
  }

  /** `Math.max(1, Math.floor(n * (1 - score / scale)))`. */
  function RankFormula(n: nat, score: real, scale: real): (r: int)
    requires score >= 0.0 && scale > 0.0
    ensures 1 <= r <= MaxI(1, n)
  {
    assert n as real * (1.0 - score / scale) <= n as real;
    MaxI(1, Floor(n as real * (1.0 - score / scale)))
  }

  /** `calculateBlogRank`: only the number of category blogs is read, and an
      empty list counts as 50000. */
  function CalculateBlogRank(blog: BlogData, categoryBlogs: seq<BlogData>): (r: BlogRank)
    ensures 1 <= r.totalRank <= TotalBlogs
    ensures 1 <= r.categoryRank
    ensures |categoryBlogs| > 0 ==> r.categoryRank <= MaxI(1, |categoryBlogs|)
    ensures |categoryBlogs| == 0 ==> r.categoryRank <= DefaultCategoryBlogs
  {
    var n := if |categoryBlogs| > 0 then |categoryBlogs| else DefaultCategoryBlogs;
    BlogRank(RankFormula(TotalBlogs, RankScore(blog), 10000.0), RankFormula(n, RankScore(blog), 5000.0))
  }

  lemma RankFormulaMonotone(n: nat, s1: real, s2: real, scale: real)
    requires 0.0 <= s1 <= s2 && scale > 0.0
    ensures RankFormula(n, s2, scale) <= RankFormula(n, s1, scale)
  {
    ScaledMonotone(n as real, s1, s2, scale);
    FloorMonotone(n as real * (1.0 - s2 / scale), n as real * (1.0 - s1 / scale));
  }

  /** A blog with a higher subscriber/post/scrap score never ranks behind. */
  lemma RankMonotone(b1: BlogData, b2: BlogData, categoryBlogs: seq<BlogData>)
    requires RankScore(b1) <= RankScore(b2)
    ensures CalculateBlogRank(b2, categoryBlogs).totalRank <= CalculateBlogRank(b1, categoryBlogs).totalRank
    ensures CalculateBlogRank(b2, categoryBlogs).categoryRank <= CalculateBlogRank(b1, categoryBlogs).categoryRank
  {
    var n := if |categoryBlogs| > 0 then |categoryBlogs| else DefaultCategoryBlogs;
    RankFormulaMonotone(TotalBlogs, RankScore(b1), RankScore(b2), 10000.0);
    RankFormulaMonotone(n, RankScore(b1), RankScore(b2), 5000.0);
  }

  lemma ScaledMonotone(n: real, s1: real, s2: real, d: real)
    requires n >= 0.0 && d > 0.0 && s1 <= s2
    ensures n * (1.0 - s2 / d) <= n * (1.0 - s1 / d)
  {
    assert s1 / d <= s2 / d;
  }

  lemma FloorMonotone(a: real, b: real)
    requires a <= b
    ensures Floor(a) <= Floor(b)
  {
  }

  // ---------------------------------------------------------------------------
  // Valid keywords and recommendations

  /** `calculateValidKeywords`: 0 without posts, otherwise the number of words
      occurring at least three times, with no length filter and no cut. */
  function ValidKeywordCount(posts: seq<PostData>): nat {
    if |posts| == 0 then 0 else FrequentCount(HangulWords(PostsText(posts)))
  }

  method CalculateValidKeywords(posts: seq<PostData>) returns (n: nat)
    ensures n == ValidKeywordCount(posts)
  {
    if |posts| == 0 {
      return 0;
    }
    n := CountFrequentWords(PostsText(posts));
  }

  /** Every automatic keyword is a valid keyword, and there are none without posts. */
  lemma ValidKeywordsBoundAutoKeywords(posts: seq<PostData>)
    ensures |AutoKeywords(posts)| <= ValidKeywordCount(posts)
    ensures |posts| == 0 ==> ValidKeywordCount(posts) == 0 && AutoKeywords(posts) == []
  {
    if |posts| == 0 {
      HangulWordsNone(PostsText(posts), 0);
      assert TopWords([], Some(10), 10) == [] by {
        assert Tally(Eligible([], Some(10))) == [];
      }
    } else {
      ValidCountBoundsKeywords(HangulWords(PostsText(posts)), 10, 10);
    }
  }

  const ExpertiseAdvice: seq<string> := [
    "블로그 주제를 명확히 하고 전문성을 높이는 콘텐츠를 작성하세요",
    "포스팅 길이를 늘리고 더 상세한 정보를 제공하세요"]
  const TrustAdvice: seq<string> := [
    "독자와의 상호작용을 늘리기 위해 댓글에 적극적으로 응답하세요",
    "꾸준한 포스팅으로 블로그 활동량을 증가시키세요"]
  const RelevanceAdvice: seq<string> := [
    "제목에 핵심 키워드를 포함하여 검색 최적화를 개선하세요",
    "이미지와 텍스트의 균형을 맞춰 콘텐츠 구조를 개선하세요"]
  const FrequencyAdvice: string := "포스팅 주기를 더 일정하게 유지하세요"

  /** The advice for the three scores and the blog: two messages for each
      score below 60, in the order expertise, trust, relevance, then one for
      a posting frequency below 0.5. */
  function Advice(e: real, t: real, r: real, blog: BlogData): seq<string> {
    (if e < 60.0 then ExpertiseAdvice else [])
    + (if t < 60.0 then TrustAdvice else [])
    + (if r < 60.0 then RelevanceAdvice else [])
    + (if blog.postFrequency < 0.5 then [FrequencyAdvice] else [])
  }

  /** `generateRecommendations`: the pushes build the advice. */
  method GenerateRecommendations(e: real, t: real, r: real, blog: BlogData) returns (recs: seq<string>)
    ensures recs == Advice(e, t, r, blog)
    ensures |recs| == 2 * ((if e < 60.0 then 1 else 0) + (if t < 60.0 then 1 else 0) + (if r < 60.0 then 1 else 0))
                      + (if blog.postFrequency < 0.5 then 1 else 0)
    ensures |recs| <= 7
    ensures recs == [] <==> e >= 60.0 && t >= 60.0 && r >= 60.0 && blog.postFrequency >= 0.5
  {
    recs := [];
    if e < 60.0 {
      recs := recs + [ExpertiseAdvice[0]];
      recs := recs + [ExpertiseAdvice[1]];
    }
    if t < 60.0 {
      recs := recs + [TrustAdvice[0]];
      recs := recs + [TrustAdvice[1]];
    }
    if r < 60.0 {
      recs := recs + [RelevanceAdvice[0]];
      recs := recs + [RelevanceAdvice[1]];
    }
    if blog.postFrequency < 0.5 {
      recs := recs + [FrequencyAdvice];
    }
  }

  // ---------------------------------------------------------------------------
  // analyzeBlog

  datatype AnalysisResult = AnalysisResult(
    blogId: string,
    nickname: string,
    category: string,
    blogIndex: string,
    validKeywordCount: nat,
    totalRank: int,
    categoryRank: int,
    expertiseScore: real,
    trustScore: real,
    relevanceScore: real,
    overallScore: int,
    recommendations: seq<string>)

  /** Every overall score earns a grade: the lowest, 20, is already '준최 4'. */
  lemma OverallAlwaysGraded(overall: int)
    requires 20 <= overall <= 85
    ensures BlogGrade(overall as real) != NoGrade
    ensures BlogGrade(overall as real).Label() != NoGrade.Label()
  {
  }

  /** `analyzeBlog`: the scores, the grade of the overall score, the rank
      estimate against no category blogs, the valid keyword count and the
      recommendations. */
  method AnalyzeBlog(log: real -> real, blog: BlogData, posts: seq<PostData>, targetKeywords: seq<string>)
    returns (result: AnalysisResult)
    ensures result.expertiseScore == ExpertiseScore(log, blog, posts)
    ensures result.trustScore == TrustScore(log, blog, posts)
    ensures result.relevanceScore == RelevanceScore(posts, targetKeywords)
    ensures result.overallScore
         == OverallScore(result.expertiseScore, result.trustScore, result.relevanceScore, Some(blog))
    ensures 20 <= result.overallScore <= 85
    ensures result.blogIndex == BlogGrade(result.overallScore as real).Label()
    ensures result.blogIndex != NoGrade.Label()
    ensures result.validKeywordCount == ValidKeywordCount(posts)
    ensures result.totalRank == CalculateBlogRank(blog, []).totalRank
    ensures result.categoryRank == CalculateBlogRank(blog, []).categoryRank
    ensures result.recommendations
         == Advice(result.expertiseScore, result.trustScore, result.relevanceScore, blog)
    ensures |result.recommendations| <= 7
    ensures (blog.blogId, blog.nickname, blog.category) == (result.blogId, result.nickname, result.category)
  {
    var e := ExpertiseScore(log, blog, posts);
    var t := TrustScore(log, blog, posts);
    var r := RelevanceScore(posts, targetKeywords);
    var overall := OverallScore(e, t, r, Some(blog));
    var grade := BlogGrade(overall as real);
    OverallAlwaysGraded(overall);
    var rank := CalculateBlogRank(blog, []);
    var valid := CalculateValidKeywords(posts);
    var recs := GenerateRecommendations(e, t, r, blog);
    result := AnalysisResult(blog.blogId, blog.nickname, blog.category, grade.Label(), valid,
                             rank.totalRank, rank.categoryRank, e, t, r, overall, recs);
  }
}

/** The blog and posts that the repository's scoring script feeds to the
    engine, and what the engine must make of them. */
module ScoringFixture {
  import opened Common
  import opened BlogAnalysis

  function TestBlog(): BlogData {
    BlogData("testblog123", "testblog123", "IT·컴퓨터", 150, 45, 23, 850, 0.3, Some(5500), Some(45), Some(180))
  }

  /** The three posts; their bodies only feed the keyword component, so
      they are left as parameters. */
  function TestPosts(c1: string, c2: string, c3: string): seq<PostData> {
    [PostData("프로그래밍 기초 학습법", c1, 1736899200000, 3, 0, 1200, 8, 15, 420),
     PostData("JavaScript 최신 기능들", c2, 1736467200000, 5, 1, 1800, 12, 28, 650),
     PostData("React Hook 사용법", c3, 1736035200000, 4, 0, 1500, 6, 18, 380)]
  }

  lemma Sum3<T>(a: T, b: T, c: T, f: T -> real)
    ensures Sum([a, b, c], f) == f(a) + f(b) + f(c)
  {
    assert [a][..0] == [];
    assert Sum([a], f) == f(a);
    assert [a, b][..1] == [a];
    assert Sum([a, b], f) == f(a) + f(b);
    assert [a, b, c][..2] == [a, b];
  }

  lemma FixtureAverages(c1: string, c2: string, c3: string)
    ensures AvgCharacters(TestPosts(c1, c2, c3)) == 1500.0
    ensures AvgImages(TestPosts(c1, c2, c3)) == 4.0
    ensures TrustEngagementRate(TestPosts(c1, c2, c3)) == 6.0
  {
    var ps := TestPosts(c1, c2, c3);
    Sum3(ps[0], ps[1], ps[2], (p: PostData) => p.characterCount as real);
    Sum3(ps[0], ps[1], ps[2], (p: PostData) => p.imageCount as real);
    Sum3(ps[0], ps[1], ps[2], (p: PostData) => p.commentCount as real);
    Sum3(ps[0], ps[1], ps[2], (p: PostData) => p.likeCount as real);
    Sum3(ps[0], ps[1], ps[2], (p: PostData) => p.viewCount as real);
    assert AvgComments(ps) == 26.0 / 3.0;
    assert AvgLikes(ps) == 61.0 / 3.0;
    assert AvgViews(ps) == 1450.0 / 3.0;
  }

  lemma LogBetween(log: real -> real, x: real, lo: real, hi: real, a: real, b: real)
    requires IsLog10(log)
    requires 1.0 <= lo <= x <= hi && log(lo) == a && log(hi) == b
    ensures a <= log(x) <= b
  {
  }

  lemma FixtureExpertise(log: real -> real, c1: string, c2: string, c3: string)
    requires IsLog10(log)
    ensures 59.0 <= ExpertiseScore(log, TestBlog(), TestPosts(c1, c2, c3)) <= 70.0
  {
    LogBetween(log, 46.0, 10.0, 100.0, 1.0, 2.0);
    LogBetween(log, 151.0, 100.0, 1000.0, 2.0, 3.0);
    FixtureAverages(c1, c2, c3);
    assert CategoryComponent("IT·컴퓨터") == 13;
    assert ContentComponent(TestPosts(c1, c2, c3)) == 20.0;
  }

  lemma FixtureTrust(log: real -> real, c1: string, c2: string, c3: string)
    requires IsLog10(log)
    ensures 53.0 <= TrustScore(log, TestBlog(), TestPosts(c1, c2, c3)) <= 62.5
  {
    LogBetween(log, 46.0, 10.0, 100.0, 1.0, 2.0);
    LogBetween(log, 151.0, 100.0, 1000.0, 2.0, 3.0);
    FixtureAverages(c1, c2, c3);
    assert TrustEngagementComponent(TestPosts(c1, c2, c3)) == 15.0;
    assert QualityComponent(TestPosts(c1, c2, c3)) == 15.0;
    assert SubscriberTrust(log, 150, 45) >= 12.0;
    assert SubscriberTrust(log, 150, 45) <= 15.5;
  }

  lemma FixtureRelevance(c1: string, c2: string, c3: string)
    ensures 63.0 <= RelevanceScore(TestPosts(c1, c2, c3), []) <= 81.0
  {
    var ps := TestPosts(c1, c2, c3);
    assert |ps[0].title| == 12 && |ps[1].title| == 17 && |ps[2].title| == 14;
    MeanBounds(ps, (p: PostData) => TitleScore(p.title), 15.0, 18.0);
    assert ContentScore(ps[0]) == 23.0 && ContentScore(ps[1]) == 23.0 && ContentScore(ps[2]) == 23.0;
    MeanBounds(ps, ContentScore, 23.0, 23.0);
    assert 3.5 <= PostEngagement(ps[0]) <= 5.0;
    assert 3.5 <= PostEngagement(ps[1]) <= 5.0;
    assert 3.5 <= PostEngagement(ps[2]) <= 5.0;
    MeanBounds(ps, PostEngagement, 3.5, 5.0);
  }

  lemma OverallBounds(e: real, t: real, r: real)
    requires 59.0 <= e <= 70.0 && 53.0 <= t <= 62.5 && 63.0 <= r <= 81.0
    ensures 59 <= OverallScore(e, t, r, Some(TestBlog())) <= 74
  {
    var blog := Some(TestBlog());
    assert OverallWeights(blog) == Weights(0.35, 0.35, 0.30);
    assert 53.0 <= Min3(e, t, r) && Max3(e, t, r) <= 81.0;
    var bonus := BalanceBonus(Min3(e, t, r));
    assert VariancePenalty(Max3(e, t, r) - Min3(e, t, r)) == 0.0;
    assert 0.6 <= bonus <= 3.0;
    var base := Weighted(e, t, r, Weights(0.35, 0.35, 0.30));
    assert 58.1 <= base <= 70.675;
    assert Adjustment(e, t, r) == bonus;
    assert OverallRaw(e, t, r, blog) == base + bonus;
    assert 58.7 <= Clamp(OverallRaw(e, t, r, blog), 20.0, 85.0) <= 73.675;
  }

  /** The script's expectations: each score in its band, the overall score
      from 59 to 74, and so a grade below '최적 1' whatever the post bodies. */
  lemma TestBlogScores(log: real -> real, c1: string, c2: string, c3: string)
    requires IsLog10(log)
    ensures var e := ExpertiseScore(log, TestBlog(), TestPosts(c1, c2, c3));
            var t := TrustScore(log, TestBlog(), TestPosts(c1, c2, c3));
            var r := RelevanceScore(TestPosts(c1, c2, c3), []);
            var overall := OverallScore(e, t, r, Some(TestBlog()));
            && 15.0 <= e <= 85.0 && 10.0 <= t <= 80.0 && 20.0 <= r <= 85.0
            && 59 <= overall <= 74
            && BlogGrade(overall as real).Label() != "최적 1"
  {
    FixtureExpertise(log, c1, c2, c3);
    FixtureTrust(log, c1, c2, c3);
    FixtureRelevance(c1, c2, c3);
    var e := ExpertiseScore(log, TestBlog(), TestPosts(c1, c2, c3));
    var t := TrustScore(log, TestBlog(), TestPosts(c1, c2, c3));
    var r := RelevanceScore(TestPosts(c1, c2, c3), []);
    OverallBounds(e, t, r);
    GradeBelowTop(OverallScore(e, t, r, Some(TestBlog())));
  }

  /** A score of at most 84 is not graded '최적 1'. */
  lemma GradeBelowTop(overall: int)
    requires overall <= 84
    ensures BlogGrade(overall as real).Label() != "최적 1"
  {
    GradeMonotone(overall as real, 84.0);
    assert BlogGrade(84.0) == Opt2;
  }
}
