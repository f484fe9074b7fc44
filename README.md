# blogtalk-clone core, modelled in Dafny

This project models the decision logic of a Naver blog analysis service. That service scores a blog, grades it, and estimates its search ranking. Where nothing can be fetched, it fills in seeded synthetic data. The model covers:

- **Scoring and grading** (`BlogAnalysis`, `Keywords`, `Sorting`, and `ScoringFixture` for the repository's `testblog123` fixture):
  - the expertise, trust, relevance and overall scores over exact reals, with their bands and clamps;
  - the nine-label grade ladder and the rank estimate;
  - keyword frequency analysis (a counting loop over a map, then a stable sort) and the recommendation list.
- **The analysis endpoint** (`AnalysisRoute`, `Plans`): the input checks, the plan/usage gate, the top-keyword extraction, the progress towards the next grade, the comparison with category averages, the content pattern and the relative time.
- **The crawler** (`BlogCrawler`, `Templates`, `CategoryRules`, `Common`):
  - the blog id taken from user input;
  - the 32-bit polynomial string hash and its seed;
  - the seeded synthetic blogs, posts and contents;
  - the daily crawling limits;
  - `crawlBlog`, the ladder of acquisition strategies, with the metadata that tags how the data was obtained.
- **The Naver API client** (`NaverApiClient`): the first-success loops over the statistics and post-list endpoints, the RSS fallback, and the parsers for stats JSON, RSS text and post HTML.
- **The Playwright crawler** (`PlaywrightCrawler`, `Nicknames`): what it derives from scraped pages, namely the hash, the estimates, the category, the nickname, the interaction counts, the publish date and the caps on links and posts.
- **The crawler endpoints** (`BlogPostsRoute`, `BlogMetadataRoute`): the post ladder (API, then RSS feeds, then synthetic posts) and the metadata composition, with their status codes.
- **Ranking** (`RankingClient`, `SmartblockRoute`):
  - the ranking client, a class whose `Map` cache has a five-minute time to live;
  - the per-keyword analysis with error isolation, the rank report and the recommendations;
  - the search-result enrichment, index labels and averages of the SmartBlock endpoint.
- **Authentication** (`Auth`): credential lookup in a constant table, returning users without their password.
- **JavaScript string behaviour** (`Text`): `includes`, `indexOf`, `trim`, `toLowerCase`, `replace`, `parseInt`, and the regular-expression scans the code relies on, each written as a function with the engine's leftmost-match semantics.

Where the source is pure, the model is pure: datatypes, functions and lemmas. Where the source changes state, the model does too:

- The ranking client is a class whose methods change its cache.
- Frequency counting, post generation, the hash loop, URL loops, feed item loops and enrichment loops are methods with `while` loops. Each is proved against a specification function.

Everything outside the program becomes a parameter:

- `now` (milliseconds since the epoch) and date parsing (`parse`);
- `Math.log10` (`log`, with the predicate `IsLog10` stating its shape);
- the outcome of every `fetch` or browser evaluation, as an `Option`, a `Result` or a `Fetched` value;
- every `Math.random()` draw, as a natural number or a nondeterministic choice.

Numbers are exact reals or unbounded integers. `Math.round` is round-half-up. The 32-bit wrap-around of the hash is written out.

## Model

| member | source | states |
|---|---|---|
| `Text.HangulWordsFrom` | lib/blog-analysis.ts:304 | `match(/[가-힣]{2,}/g)` yields only runs of at least two Hangul syllables |
| `Text.HangulWordsOfWord` | lib/blog-analysis.ts:304 | a text that is one Hangul word yields exactly that word |
| `Text.HangulWordsNone` | lib/blog-analysis.ts:304 | a text without Hangul yields no words (the `|| []` fallback) |
| `Text.HangulCount` | lib/blog-analysis.ts:236 | `match(/[가-힣]/g)` counts at most one match per character |
| `Text.MatchLiteralRun` | lib/blog-crawler.ts:28 | a capture of `lit([^stop]+)` is non-empty and holds no stop character |
| `Text.MatchLiteralRunFinds` | lib/blog-crawler.ts:28 | an occurrence of the literal followed by a non-stop character is always matched |
| `Text.MatchLiteralRunNone` | lib/blog-crawler.ts:28 | without an occurrence of the literal there is no match |
| `Text.ParseNatToString` | lib/naver-api-client.ts:320-322 | `parseInt` of the digits `(\d+)` captures reads back the number they print |
| `Common.ToInt32` | lib/blog-crawler.ts:107-110 | `a & a` yields the unique signed 32-bit value congruent to the sum modulo 2^32 |
| `Common.HashStepIsPolynomial` | lib/blog-crawler.ts:107-110 | the step `((a << 5) - a) + code`, wrapped by the shift and by `& a`, equals int32(31·a + code) |
| `Common.StringHash` | lib/blog-crawler.ts:107-110 | the left fold of that step over the characters stays a signed 32-bit integer |
| `Common.Seed` | lib/blog-crawler.ts:112 | `Math.abs(hash)` lies in [0, 2^31] |
| `Common.RoundHalfUp` | lib/blog-crawler.ts:122 | Math.round lands within (x − 0.5, x + 0.5] |
| `Common.Clamp` | lib/blog-analysis.ts:143 | `Math.min(hi, Math.max(lo, x))` lies in [lo, hi], is x inside the interval and the nearer end outside it |
| `Common.MeanBounds` | lib/blog-analysis.ts:92-93 | a reduce-then-divide mean of values in [lo, hi] lies in [lo, hi] |
| `Plans.LimitOrZero` | app/api/analysis/blog/route.ts:17-23 | `limits[userPlan] \|\| 0` gives free 0, basic 50, standard 100, 0 for other names, and a non-number exactly for the names `Object.prototype` supplies |
| `Plans.OwnLimit` | app/api/analysis/blog/route.ts:17-23 | the limit of a listed plan, 0 for any other name |
| `Plans.LookupsAgree` | app/api/analysis/blog/route.ts:23 | for every name that is not an inherited member, the property lookup is the own-limit lookup |
| `CategoryRules.FirstRule` | lib/playwright-crawler.ts:397-403 | the nested scan returns the first rule, in table order, with a keyword in the text; none exactly when no rule has one |
| `CategoryRules.CategorizeSpec` | lib/playwright-crawler.ts:397-405 | the category is the fallback exactly when no keyword occurs, and otherwise that of the first matching rule |
| `CategoryRules.KeywordFound` | lib/naver-api-client.ts:374-380 | a table keyword present in the text always yields a table category, from its own rule or an earlier one |
| `Auth.WithoutPassword` | lib/auth.ts:43-44 | the returned user keeps id, email, name, role and plan of the entry, and has no password field |
| `Auth.FindFrom` | lib/auth.ts:40 | `Array.find`: the first matching entry's index, none exactly when no entry matches |
| `Auth.EmailsDistinct` | lib/auth.ts:11-36 | no two entries of the table share an email |
| `Auth.AuthenticateSpec` | lib/auth.ts:38-48 | a user comes back exactly when some entry has both the email and the password, and it is that entry without its password |
| `Auth.GetUserByEmailSpec` | lib/auth.ts:50-57 | the lookup ignores passwords: a user exactly when some entry has the email, that entry without its password |
| `Auth.AuthenticateAgreesWithLookup` | lib/auth.ts:38-57 | a successful login returns the same user as the lookup by email |
| `Auth.KnownLogins` | lib/auth.ts:20-27 | the admin's own password logs in as the admin, another entry's password does not |
| `BlogAnalysis.BlogGrade` | lib/blog-analysis.ts:45-55 | the grade's tier is the number of breakpoints 20/35/45/55/65/72/78/85 the score has reached (strict `<` tests) |
| `BlogAnalysis.ReachedGradeBreakpoints` | lib/blog-analysis.ts:45-55 | the tier spelled out breakpoint by breakpoint |
| `BlogAnalysis.GradeMonotone` | lib/blog-analysis.ts:45-55 | a higher score never gets a lower grade |
| `BlogAnalysis.GradeBoundaries` | lib/blog-analysis.ts:46-54 | 34 → '준최 4', 35 → '준최 3', 84.9 → '최적 2', 85 → '최적 1', 19.9 → '없음' |
| `BlogAnalysis.AveragesNonNegative` | lib/blog-analysis.ts:92-93 | the per-post means the scores read are never negative |
| `BlogAnalysis.CategoryComponent` | lib/blog-analysis.ts:66-85 | the category component is 5 exactly for '주제 없음' and '일상·생각', and otherwise round(12 × weight) ∈ {10, 11, 13} with 0.8 for unknown categories |
| `BlogAnalysis.ContentComponent` | lib/blog-analysis.ts:88-120 | no content points without posts, else between 3 and 20 |
| `BlogAnalysis.ActivityComponent` | lib/blog-analysis.ts:123-133 | activity points are 0 exactly when the posting frequency is not positive |
| `BlogAnalysis.ExpertiseScore` | lib/blog-analysis.ts:58-147 | calculateExpertiseScore lies in [15, 85] |
| `BlogAnalysis.ExpertiseMonotone` | lib/blog-analysis.ts:62-143 | more subscribers or more posts never lower the expertise score (with a monotone log10) |
| `BlogAnalysis.TrustEngagementBand` | lib/blog-analysis.ts:169-173 | the engagement band is one of 15, 12, 8, 5, 2 |
| `BlogAnalysis.TrustEngagementComponent` | lib/blog-analysis.ts:160-176 | nothing without posts, else one of 15, 12, 8, 5, 2; a rate of 0 (so 2 points) when the average views are 0 |
| `BlogAnalysis.QualityComponent` | lib/blog-analysis.ts:192-205 | nothing without posts, else between 2 and 15 |
| `BlogAnalysis.TrustScore` | lib/blog-analysis.ts:151-213 | calculateTrustScore lies in [10, 80] |
| `BlogAnalysis.TrustMonotoneInSubscribers` | lib/blog-analysis.ts:178-189 | more subscribers never lower the trust score |
| `BlogAnalysis.SubscriberTrustMonotone` | lib/blog-analysis.ts:179-188 | the subscriber part of trust (log term plus the ratio bonus) never falls as subscribers grow |
| `BlogAnalysis.TitleScore` | lib/blog-analysis.ts:222-240 | one title scores between 5 and 18 (length band plus the Hangul-ratio bonus) |
| `BlogAnalysis.ContentScore` | lib/blog-analysis.ts:245-266 | one post's content scores between 5 and 23 (length band plus image balance) |
| `BlogAnalysis.RelevanceEngagementBand` | lib/blog-analysis.ts:278-283 | the engagement band is one of 20, 15, 10, 5, 2 |
| `BlogAnalysis.ExtractAutoKeywords` | lib/blog-analysis.ts:302-318 | the frequency-table method returns the ranked-keyword specification (at most 10 words of 2 to 10 syllables) |
| `BlogAnalysis.KeywordComponent` | lib/blog-analysis.ts:289-291 | two points per automatic keyword, capped at 15 |
| `BlogAnalysis.RelevanceScore` | lib/blog-analysis.ts:216-299 | exactly 20 without posts, otherwise in [20, 85] |
| `BlogAnalysis.RelevanceIgnoresTargets` | lib/blog-analysis.ts:216 | the target keywords never influence the relevance score |
| `BlogAnalysis.RelevanceCapsSlack` | lib/blog-analysis.ts:242-268 | the 25-point caps on the title and content means never bind |
| `BlogAnalysis.OverallWeights` | lib/blog-analysis.ts:344-363 | the weights sum to 1, each nudge applies independently, and without blog data they are 0.35/0.35/0.30 |
| `BlogAnalysis.BalanceBonus` | lib/blog-analysis.ts:369-370 | the balance bonus lies in [0, 3] and is positive exactly when the minimum exceeds 50 |
| `BlogAnalysis.VariancePenalty` | lib/blog-analysis.ts:373-375 | the spread penalty lies in [0, 2] and is positive exactly when the spread exceeds 40 |
| `BlogAnalysis.Adjustment` | lib/blog-analysis.ts:369-377 | bonus less penalty lies in [−2, 3] |
| `BlogAnalysis.OverallScore` | lib/blog-analysis.ts:337-385 | calculateOverallScore is an integer in [20, 85] |
| `BlogAnalysis.WeightedBetween` | lib/blog-analysis.ts:366 | a weighted mean with non-negative weights summing to 1 lies between the smallest and largest score |
| `BlogAnalysis.OverallRawNearScores` | lib/blog-analysis.ts:366-377 | before clamping, the overall score lies within [min − 2, max + 3] of the three scores |
| `BlogAnalysis.PenaltyLipschitz` | lib/blog-analysis.ts:375 | the penalty never falls as the spread grows, and grows by at most 0.05 per point |
| `BlogAnalysis.BonusMonotone` | lib/blog-analysis.ts:370 | the bonus never falls as the minimum grows |
| `BlogAnalysis.WeightedGrowth` | lib/blog-analysis.ts:366 | raising the scores raises the weighted part by at least 0.27 per point |
| `BlogAnalysis.SpreadGrowth` | lib/blog-analysis.ts:369-374 | raising the scores never lowers the minimum and widens the spread by at most the total increase |
| `BlogAnalysis.AdjustmentGrowth` | lib/blog-analysis.ts:369-377 | raising the scores lowers the adjustment by at most 0.05 per point |
| `BlogAnalysis.OverallRawMonotone` | lib/blog-analysis.ts:366-377 | before clamping, raising any score never lowers the overall score |
| `BlogAnalysis.OverallMonotone` | lib/blog-analysis.ts:337-385 | raising any of the three scores never lowers the overall score |
| `BlogAnalysis.RankScore` | lib/blog-analysis.ts:394 | the rank score is never negative |
| `BlogAnalysis.RankFormula` | lib/blog-analysis.ts:397-402 | `Math.max(1, Math.floor(n × (1 − score/scale)))` lies in [1, max(1, n)] |
| `BlogAnalysis.CalculateBlogRank` | lib/blog-analysis.ts:388-404 | total rank in [1, 1000000]; category rank at least 1 and at most the category's size, 50000 when the list is empty |
| `BlogAnalysis.RankFormulaMonotone` | lib/blog-analysis.ts:397-398 | a higher score never gives a larger rank number |
| `BlogAnalysis.RankMonotone` | lib/blog-analysis.ts:388-404 | a blog with a higher subscriber/post/scrap score never ranks behind, in total or in its category |
| `BlogAnalysis.CalculateValidKeywords` | lib/blog-analysis.ts:407-426 | the frequency-table loop counts the words seen at least 3 times, 0 without posts |
| `BlogAnalysis.ValidKeywordsBoundAutoKeywords` | lib/blog-analysis.ts:302-318 | the valid-keyword count is at least the number of automatic keywords, and both are empty without posts |
| `BlogAnalysis.GenerateRecommendations` | lib/blog-analysis.ts:429-457 | the pushes build exactly `Advice`: the two messages for each score below 60 in fixed order, then the frequency message; length 2k + [frequency < 0.5] ≤ 7, empty exactly when nothing is low |
| `BlogAnalysis.OverallAlwaysGraded` | lib/blog-analysis.ts:46-47 | every overall score (20 to 85) earns a grade: never '없음' |
| `BlogAnalysis.AnalyzeBlog` | lib/blog-analysis.ts:460-498 | the result carries the three scores, their overall score and its grade, the rank with no category blogs, the valid-keyword count, and exactly the recommendations generated from the three scores and the blog (at most 7) |
| `ScoringFixture.FixtureAverages` | direct-test.mjs:4-82 | the fixture's three posts average 1500 characters, 4 images and an engagement rate of 6 % |
| `ScoringFixture.FixtureExpertise` | direct-test.mjs:4-82 | the fixture's expertise score lies in [59, 70] |
| `ScoringFixture.FixtureTrust` | direct-test.mjs:4-82 | the fixture's trust score lies in [53, 62.5] |
| `ScoringFixture.FixtureRelevance` | direct-test.mjs:4-82 | the fixture's relevance score lies in [63, 81] |
| `ScoringFixture.OverallBounds` | lib/blog-analysis.ts:337-385 | scores in the fixture's bands give an overall score in [59, 74] |
| `ScoringFixture.TestBlogScores` | direct-test.mjs:4-82 | each fixture score lies in its band and the grade is not '최적 1' |
| `ScoringFixture.GradeBelowTop` | lib/blog-analysis.ts:53-54 | a score of at most 84 is not '최적 1' |
| `Sorting.SortBy` | lib/blog-analysis.ts:315 | the comparator sort returns a sorted permutation of its input |
| `Sorting.SortByStable` | lib/blog-analysis.ts:315 | the sort is stable: entries with equal counts keep their first-occurrence order |
| `Keywords.Count` | lib/blog-analysis.ts:309 | a word's count is positive exactly when it occurs, and never exceeds the number of words |
| `Keywords.Distinct` | lib/blog-analysis.ts:313 | the object's key order holds each word once, exactly the words seen |
| `Keywords.Eligible` | lib/blog-analysis.ts:308 | the counted words are exactly those that pass the length filter |
| `Keywords.CountEligible` | lib/blog-analysis.ts:308-309 | filtering by length does not change the count of a word that passes the filter |
| `Keywords.Tally` | lib/blog-analysis.ts:313 | `Object.entries(wordFreq)` pairs every word seen with its true count, and holds nothing else |
| `Keywords.Frequent` | lib/blog-analysis.ts:314 | the filter keeps exactly the entries counted at least 3 times |
| `Keywords.CountWords` | lib/blog-analysis.ts:306-311 | the counting loop leaves the words in first-occurrence order with a count per word equal to its occurrences |
| `Keywords.RankKeywords` | lib/blog-analysis.ts:302-318 | the keyword extraction returns the ranked-keyword specification of the Hangul words of the text |
| `Keywords.CountFrequentWords` | lib/blog-analysis.ts:411-423 | the counting loop returns the number of distinct words seen at least 3 times |
| `Keywords.RankedMembers` | lib/blog-analysis.ts:313-315 | every entry after the filter and the sort is a fitting word of the text with its true count, at least 3 |
| `Keywords.RankedNoDup` | lib/blog-analysis.ts:313-315 | no word is ranked twice |
| `Keywords.RankedComplete` | lib/blog-analysis.ts:313-315 | every fitting word occurring at least 3 times is ranked |
| `Keywords.TopWordsSpec` | lib/blog-analysis.ts:302-318 | the keywords: at most `limit` distinct fitting words, each occurring at least 3 times, in non-increasing order of count; a frequent word is left out only when the list is full of words at least as frequent |
| `Keywords.TopWordsMembers` | lib/blog-analysis.ts:313-317 | at most `limit` distinct words, each fitting and occurring at least 3 times |
| `Keywords.TopWordsOrdered` | lib/blog-analysis.ts:315 | the words come in non-increasing order of count |
| `Keywords.TopWordsComplete` | lib/blog-analysis.ts:314-316 | a frequent fitting word is missing only when `limit` words at least as frequent fill the list |
| `Keywords.ValidCountBoundsKeywords` | lib/blog-analysis.ts:421-423 | the number of valid keywords is at least the number of automatic keywords |
| `Keywords.FrequentWordListed` | lib/blog-analysis.ts:421-422 | every word occurring at least 3 times counts as a valid keyword |
| `Templates.Fill` | lib/blog-crawler.ts:488-492 | one `replace` of a placeholder keeps the template's length in pieces |
| `Templates.FillRemoves` | lib/blog-crawler.ts:488-492 | filling a placeholder used at most once removes its name from the template and keeps it well formed |
| `Templates.FillKeeps` | lib/blog-crawler.ts:488-492 | a placeholder left after a fill was there before, at the same place |
| `Templates.RenderBraceFree` | lib/blog-crawler.ts:464-475 | a template with no placeholder left renders without `{` |
| `Templates.ReplaceFills` | lib/blog-crawler.ts:488 | `title.replace('{name}', value)` on the rendered template is the rendering of the template with its first `name` placeholder filled |
| `BlogCrawler.FirstPatternMatch` | lib/blog-crawler.ts:27-30 | the capture of a pattern in list order; none exactly when no pattern matches |
| `BlogCrawler.ExtractWith` | lib/blog-crawler.ts:19-38 | an extracted id is never empty |
| `BlogCrawler.ExtractBlogIdAsWritten` | lib/blog-crawler.ts:19-38 | extractBlogId with its patterns in the written order never returns an empty id |
| `BlogCrawler.ExtractBlogId` | lib/blog-crawler.ts:19-38 | extractBlogId with the page-specific patterns first never returns an empty id |
| `BlogCrawler.HostPatternShadows` | lib/blog-crawler.ts:21-29 | as written, any `blog.naver.com/<segment>?…` yields the segment, whatever follows |
| `BlogCrawler.PostViewShadowed` | lib/blog-crawler.ts:21-29 | as written, a `PostView.naver?blogId=<id>` URL yields "PostView.naver" instead of the id |
| `BlogCrawler.PostListShadowed` | lib/blog-crawler.ts:21-29 | as written, a `PostList.naver?blogId=<id>` URL yields "PostList.naver" instead of the id |
| `BlogCrawler.RunAfterLiteral` | lib/blog-crawler.ts:22-24 | a literal followed by an id free of stop characters captures that id |
| `BlogCrawler.PostViewUrlYieldsId` | lib/blog-crawler.ts:23 | with the page patterns first, a post-view URL yields its `blogId` |
| `BlogCrawler.PlainIdKept` | lib/blog-crawler.ts:33-34 | a plain id `[a-zA-Z0-9_-]+` is returned unchanged, in either pattern order |
| `BlogCrawler.NoPatternMatches` | lib/blog-crawler.ts:22-24 | text without `.` matches none of the URL patterns |
| `BlogCrawler.RejectsNonId` | lib/blog-crawler.ts:32-37 | input that matches no pattern and is not an id after trimming gives `null`, in either pattern order |
| `BlogCrawler.OrdersRejectAlike` | lib/blog-crawler.ts:19-38 | the written and the page-specific-first pattern orders reject exactly the same inputs |
| `BlogCrawler.MockBlogData` | lib/blog-crawler.ts:96-127 | the mock blog: the id, `<id>님`, the drawn category, and every count in the range its seed residue allows |
| `BlogCrawler.MockBlogDataDeterministic` | lib/blog-crawler.ts:104-126 | apart from the drawn category, the mock blog depends on the id alone |
| `BlogCrawler.MockPost` | lib/blog-crawler.ts:153-169 | post `i`: title `sampleTitles[i mod 10] i+1`, dated 3·i days back, counts in their residue ranges |
| `BlogCrawler.GenerateMockPostData` | lib/blog-crawler.ts:130-173 | the loop pushes exactly `count` posts, post `i` seeded with `seed + i` |
| `BlogCrawler.FindPatternFrom` | lib/blog-crawler.ts:375-382 | the first table entry, in order, whose key and the id contain one another ignoring case; none exactly when no entry matches |
| `BlogCrawler.EnhancedRanges` | lib/blog-crawler.ts:415-416 | the subscriber and post ranges are never empty |
| `BlogCrawler.FloorScaled` | lib/blog-crawler.ts:427-432 | `Math.floor(n × f)` is the integer part of the product |
| `BlogCrawler.EnhancedMockData` | lib/blog-crawler.ts:364-434 | the enhanced mock blog: its nickname, its category, counts inside the chosen ranges, scraps at least 0.3 × subscribers and average views at least the subscribers |
| `BlogCrawler.EnhancedCategorySpec` | lib/blog-crawler.ts:384-404 | a matching pattern's category is used; the category is always one of the six fallback categories |
| `BlogCrawler.KnownBlogPattern` | lib/blog-crawler.ts:376-381 | an id containing a known blog name, and matching no earlier entry, selects that entry |
| `BlogCrawler.RealisticNickname` | lib/blog-crawler.ts:437-451 | an id of at most 10 plain characters is kept, anything else gets one of the common nicknames |
| `BlogCrawler.CheckCrawlingLimits` | lib/blog-crawler.ts:572-587 | limit is `limits[plan] \|\| 0`; crawling is allowed exactly when usage is below a numeric limit; remaining is max(0, limit − usage) |
| `BlogCrawler.NoCrawlWithoutPaidPlan` | lib/blog-crawler.ts:573-583 | the free plan and unknown plans never allow a crawl |
| `BlogCrawler.FillStep` | lib/blog-crawler.ts:488-492 | one `replace` fills its placeholder and keeps the template well formed with one name fewer |
| `BlogCrawler.FillTitleComplete` | lib/blog-crawler.ts:488-492 | after the five replacements no `{` is left in a well-formed template |
| `BlogCrawler.TemplatesWellFormed` | lib/blog-crawler.ts:464-475 | every title template uses only the five placeholder names, each at most once |
| `BlogCrawler.RealisticTitleComplete` | lib/blog-crawler.ts:484-492 | every generated title has all its placeholders filled |
| `BlogCrawler.GenerateRealisticContent` | lib/blog-crawler.ts:525-551 | the content has exactly the target length and starts with the greeting built from the title |
| `BlogCrawler.RealisticViews` | lib/blog-crawler.ts:504-506 | views lie between the base views and twice them, at least 500 |
| `BlogCrawler.RealisticPostShape` | lib/blog-crawler.ts:483-518 | 800 to 2799 characters, 3 to 12 images, at most 2 videos, comments and likes at least views/100 and views/50 |
| `BlogCrawler.FloorScaledBounds` | lib/blog-crawler.ts:504-506 | scaling by a quality factor in [1, 2] keeps the views in [base, 2·base] |
| `BlogCrawler.NumberedTitleShape` | lib/blog-crawler.ts:509 | every title has no placeholder and ends with ` #` and the post's number |
| `BlogCrawler.RealisticPost` | lib/blog-crawler.ts:483-518 | one pushed post: the seeded shape with content as long as its character count |
| `BlogCrawler.GenerateRealisticPostData` | lib/blog-crawler.ts:454-522 | exactly `count` posts, post `i` the shape seeded by `seed + i`, each with content as long as its character count |
| `BlogCrawler.ApiBlogData` | lib/blog-crawler.ts:224-236 | the API blog record: the nickname or the id, a category, average views the floor of total views per post, a positive frequency |
| `BlogCrawler.RssBlogData` | lib/blog-crawler.ts:253-265 | the RSS blog record: the nickname or the id, a category, the feed's post count, a positive frequency |
| `BlogCrawler.ConvertRealPost` | lib/blog-crawler.ts:293-304 | a converted post keeps its title and date (else index days back) and uses a non-zero fetched view count over the draw |
| `BlogCrawler.ConvertedPosts` | lib/blog-crawler.ts:282 | the first 15 listed posts, converted with their index |
| `BlogCrawler.TryPlaywright` | lib/blog-crawler.ts:194-214 | step 2-1 is the Playwright step of the ladder |
| `BlogCrawler.TryApiStats` | lib/blog-crawler.ts:216-243 | step 2-2 is the API step of the ladder |
| `BlogCrawler.TryRssStats` | lib/blog-crawler.ts:245-272 | step 2-3 is the RSS step of the ladder |
| `BlogCrawler.TryRealPosts` | lib/blog-crawler.ts:274-325 | the posts step is the ladder's posts step |
| `BlogCrawler.CrawlBlog` | lib/blog-crawler.ts:176-352 | failure exactly when extractBlogId, with its patterns in the written order, finds no id (with the fixed message); otherwise, for the id it extracts, the ladder's record, its posts or 20 realistic posts, and the tags of the final label |
| `BlogCrawler.MethodTags` | lib/blog-crawler.ts:349-350 | only the three '실제' labels are 'high'; every label but '시뮬레이션' and 'Playwright 실시간' is commercial-ready |
| `BlogCrawler.RealLabelsTagged` | lib/blog-crawler.ts:349 | the API, RSS and API-posts labels contain '실제' |
| `BlogCrawler.HighQualityTagged` | lib/blog-crawler.ts:349-350 | the high-quality label contains '고품질' and not '실제' |
| `BlogCrawler.PlaywrightUntagged` | lib/blog-crawler.ts:349-350 | the Playwright label contains neither tag |
| `BlogCrawler.SimulatedUntagged` | lib/blog-crawler.ts:349-350 | the initial label contains neither tag |
| `BlogCrawler.FinalMethodKnown` | lib/blog-crawler.ts:192-337 | the final label is one of the five acquisition labels, never the initial one |
| `BlogCrawler.CrawlMetadataTags` | lib/blog-crawler.ts:346-350 | a crawl is 'high' exactly when its label is a '실제' one, and commercial-ready exactly when it is not Playwright's |
| `BlogCrawler.LadderDataOrder` | lib/blog-crawler.ts:190-332 | the blog record comes from the first of Playwright, the API, the RSS feed and the enhanced mock that produced one |
| `BlogCrawler.PostsStepKeepsData` | lib/blog-crawler.ts:274-325 | the posts step never changes the blog record |
| `BlogCrawler.RssStepRedundant` | lib/blog-crawler.ts:245-272 | when getBlogStats reads the same feed, the RSS step never adds anything after the API step |
| `BlogCrawler.EstimatedDataTaggedHigh` | lib/blog-crawler.ts:204-307 | a Playwright crawl with a blog but no posts, followed by real posts, is labelled '네이버 API 실제 포스트' and tagged 'high' |
| `Nicknames.FirstCaptureEnd` | lib/playwright-crawler.ts:155 | the lazy group `(.+?)` stops at the first position where the rest of the pattern matches |
| `Nicknames.NicknameCapture` | lib/playwright-crawler.ts:155 | `title.match(/^(.+?)님의?\s*(블로그\|Blog)/)[1]`: the shortest non-empty prefix after which the honorific and the blog word follow; none exactly when no prefix works |
| `Nicknames.CaptureEndsAtHonorific` | app/api/crawler/blog-metadata/route.ts:62-64 | the group can end right before the `님` of "X님의 블로그", "X님 Blog" and the like |
| `Nicknames.NoCaptureEndInside` | app/api/crawler/blog-metadata/route.ts:62-64 | the group cannot end inside a prefix without `님` |
| `Nicknames.NicknameOfBlogTitle` | app/api/crawler/blog-metadata/route.ts:62-71 | "X님의 블로그", "X님 Blog" and the like give X, for any X without `님` |
| `Nicknames.TitleWithoutHonorific` | app/api/crawler/blog-metadata/route.ts:62-71 | a title with neither `님` nor "blog" (any case) is itself the nickname |
| `Nicknames.BlogTitleFallsBack` | app/api/crawler/blog-metadata/route.ts:62-71 | a title with "blog" but no `님` gives the fallback |
| `NaverApiClient.Or2` | lib/naver-api-client.ts:216-219 | `a \|\| b \|\| 0`: the first truthy alternative, 0 exactly when neither is truthy |
| `NaverApiClient.OrText` | lib/naver-api-client.ts:221 | `s \|\| fallback` on a string: a non-empty string wins |
| `NaverApiClient.ParseStatsData` | lib/naver-api-client.ts:212-224 | each field takes its first truthy alternative, else 0; the category is `data.category || '주제 없음'`, so never empty; the record is always marked real |
| `NaverApiClient.StatsEndpoints` | lib/naver-api-client.ts:21-26 | the four statistics endpoints |
| `NaverApiClient.FirstUsableStats` | lib/naver-api-client.ts:28-51 | the first endpoint whose `ok` answer holds a non-empty JSON object; none exactly when no endpoint does |
| `NaverApiClient.GetBlogStats` | lib/naver-api-client.ts:16-60 | the loop returns the parse of the first usable endpoint, else the RSS result |
| `NaverApiClient.BlogStatsAlwaysReal` | lib/naver-api-client.ts:21-54 | every result is marked real; a usable endpoint always decides; without one the answer is the feed's |
| `NaverApiClient.BlogStatsFromRss` | lib/naver-api-client.ts:67-94 | a result exactly when the feed answered `ok` with `<rss` or `<feed` in its body, and then it is the parse of that body |
| `NaverApiClient.RssNicknameAsWritten` | lib/naver-api-client.ts:231-233 | as written, a title that does not end in '의 블로그' is kept whole, and no title grows |
| `NaverApiClient.RssNicknameKeepsHonorific` | lib/naver-api-client.ts:231-233 | as written, "X님의 블로그" gives "X님" |
| `NaverApiClient.RssNickname` | lib/naver-api-client.ts:231-233 | the stripped nickname is never longer than the title |
| `NaverApiClient.RssNicknameStrips` | lib/naver-api-client.ts:231-233 | with the longer suffix stripped first, "X님의 블로그" gives X, "X의 블로그" gives X, other titles are kept |
| `NaverApiClient.ParseRssData` | lib/naver-api-client.ts:226-243 | real RSS data; the id as nickname without a title, otherwise the title with its suffixes stripped in the written order; the post count is the number of `<item>` occurrences (0 exactly when none occurs); the category is the one extractCategoryFromRSS finds in the body |
| `NaverApiClient.ExtractCategoryFromRss` | lib/naver-api-client.ts:353-358 | an explicit `<category>` CDATA wins, even an empty one |
| `NaverApiClient.RssCategoryGuess` | lib/naver-api-client.ts:360-380 | otherwise a table category or '일상·생각', and '일상·생각' exactly when no table keyword occurs in the lower-cased titles |
| `NaverApiClient.Take` | lib/naver-api-client.ts:270 | `slice(0, n)` keeps the first min(length, n) elements |
| `NaverApiClient.PostListUrls` | lib/naver-api-client.ts:107-111 | the three post-list pages |
| `NaverApiClient.FirstUsableList` | lib/naver-api-client.ts:113-136 | the first page that answered `ok` with posts; none exactly when no page did |
| `NaverApiClient.CapturePosts` | lib/naver-api-client.ts:289-300 | an item contributes at most one post |
| `NaverApiClient.NextItem` | lib/naver-api-client.ts:280-283 | each `exec` of `/<item>(.*?)<\/item>/gs` moves past its start |
| `NaverApiClient.RssPosts` | lib/naver-api-client.ts:273-309 | the feed gives at most 20 posts |
| `NaverApiClient.PostsFromRss` | lib/naver-api-client.ts:279-303 | the exec-and-push loop returns the feed's posts capped at 20 |
| `NaverApiClient.PushedPosts` | lib/naver-api-client.ts:283-301 | one turn of the loop keeps the pushed posts plus the posts still to come equal to all the feed's posts |
| `NaverApiClient.ItemPostsStep` | lib/naver-api-client.ts:283-301 | the posts from a position are the next item's post followed by the posts after it |
| `NaverApiClient.ItemPostsFromItems` | lib/naver-api-client.ts:292-299 | every post read from the feed is marked as coming from RSS |
| `NaverApiClient.GetRealPosts` | lib/naver-api-client.ts:102-145 | the loop returns the first usable page's posts, else the feed's posts |
| `NaverApiClient.RealPostsCapped` | lib/naver-api-client.ts:102-303 | both sources give at most 20 posts, and a usable page always gives some |
| `NaverApiClient.FirstLabelledFrom` | lib/naver-api-client.ts:313-315 | the leftmost position where `tag\s*(\d+)` matches; none exactly when it matches nowhere |
| `NaverApiClient.DigitsAfter` | lib/naver-api-client.ts:313-315 | the captured group is a non-empty run of digits |
| `NaverApiClient.ParsePostStatsHtml` | lib/naver-api-client.ts:311-325 | the ids are copied, the record is real, and the view, comment and like counts are each the number that follows the first occurrence of '조회', '댓글' and '좋아요', or 0 when no number follows |
| `NaverApiClient.CountAfter` | lib/naver-api-client.ts:313-322 | the count is the parsed digits captured after the tag, and 0 when the pattern captures nothing |
| `NaverApiClient.CountAfterPrinted` | lib/naver-api-client.ts:313-322 | a page that prints a count after the first occurrence of its tag yields that count |
| `NaverApiClient.FirstLabelledAfterSpace` | lib/naver-api-client.ts:313 | a tag first found at `i` and followed by a space and a digit is matched at `i`, its digits starting after the space |
| `NaverApiClient.PostStatsOf` | lib/naver-api-client.ts:153-176 | post statistics exactly when the page answered `ok` |
| `PlaywrightCrawler.GenerateHash` | lib/playwright-crawler.ts:408-416 | the loop's hash is the seed the crawler's reduce form computes |
| `PlaywrightCrawler.Estimate` | lib/playwright-crawler.ts:418-420 | `min + hash % (max − min)` lies in [min, max) |
| `PlaywrightCrawler.EstimateCategory` | lib/playwright-crawler.ts:385-406 | the nested loops return the category of the first table entry with a keyword in the lower-cased title and description, else '주제 없음' |
| `PlaywrightCrawler.Frequency` | lib/playwright-crawler.ts:196 | the posting frequency is the estimate in [1, 10) divided by 10, so in [0.1, 0.9] |
| `PlaywrightCrawler.MetadataEstimate` | lib/playwright-crawler.ts:152-200 | the nickname from the title, the estimated category, positive page counters kept as they are, and otherwise subscribers in [100, 5000), posts in [10, 500), frequency in [0.1, 0.9] |
| `PlaywrightCrawler.ExtractBlogMetadata` | lib/playwright-crawler.ts:105-206 | the method computes the metadata estimate, with the hash and category from their loops |
| `PlaywrightCrawler.BaseInteraction` | lib/playwright-crawler.ts:364-365 | `⌊min(100, chars/20 + 3·images)/5⌋` is at most 20, and exactly 20 once the quality score reaches 100 |
| `PlaywrightCrawler.PublishDate` | lib/playwright-crawler.ts:351-360 | the parsed text when it is a valid date; now when the text does not parse; 3·index days back when there is no text |
| `PlaywrightCrawler.PostEstimate` | lib/playwright-crawler.ts:340-377 | the scraped title (or '제목 없음'), content and media, at least 100 views, comments and likes at least their share of the base interaction |
| `PlaywrightCrawler.Gathered` | lib/playwright-crawler.ts:231-240 | the gathered links are never more than the hrefs seen |
| `PlaywrightCrawler.GatheredSpec` | lib/playwright-crawler.ts:231-240 | the gathered links are distinct, and are exactly the non-empty hrefs containing "PostView" |
| `PlaywrightCrawler.CollectPostLinks` | lib/playwright-crawler.ts:222-243 | the collecting loop returns the first 20 gathered links |
| `PlaywrightCrawler.PostsOf` | lib/playwright-crawler.ts:250-259 | the first `n` links give at most `n` posts |
| `PlaywrightCrawler.PostsOfAllScraped` | lib/playwright-crawler.ts:250-259 | when every page scrapes, link `i` gives post `i` |
| `PlaywrightCrawler.ExtractBlogPosts` | lib/playwright-crawler.ts:247-261 | the loop returns the posts of the first 10 links, failed ones skipped, so at most 10 |
| `PlaywrightCrawler.ListedPosts` | lib/playwright-crawler.ts:222-259 | the post list page gives at most 10 posts |
| `PlaywrightCrawler.CrawlWithPlaywright` | lib/playwright-crawler.ts:65-100 | a failed launch or navigation gives failure without data; otherwise success with the metadata estimate, or `null` when the metadata evaluations threw, and the posts of the first 20 gathered links scraped up to 10, or none when the post list failed |
| `BlogPostsRoute.FallbackPost` | app/api/crawler/blog-posts/route.ts:233-250 | post `i`: title `template[i mod 10] - i+1`, 1 to 12 images, at most one video, 800 to 3299 characters, 200 to 8199 views, dated 2·i days back |
| `BlogPostsRoute.GenerateFallbackPosts` | app/api/crawler/blog-posts/route.ts:211-254 | the loop pushes exactly `count` posts, post `i` seeded with `seed + i` |
| `BlogPostsRoute.FallbackPosts` | app/api/crawler/blog-posts/route.ts:211-254 | the synthetic list has `count` posts, post `i` the seeded one |
| `BlogPostsRoute.TagEndAt` | app/api/crawler/blog-posts/route.ts:141-145 | a `<name[^>]*>` match ends after its start and inside the text |
| `BlogPostsRoute.CountTagsFrom` | app/api/crawler/blog-posts/route.ts:141-146 | the number of tag matches never exceeds the characters left |
| `BlogPostsRoute.FeedInteraction` | app/api/crawler/blog-posts/route.ts:170-171 | the interaction base is at most 10 |
| `BlogPostsRoute.FeedInteractionFormula` | app/api/crawler/blog-posts/route.ts:170-171 | the integer form equals `⌊min(100, chars/10 + 5·images)/10⌋` |
| `BlogPostsRoute.ItemPostShape` | app/api/crawler/blog-posts/route.ts:121-185 | the trimmed title or '제목 없음'; the character count is the content's length; the date is the parsed one, else now; at least 100 views; the link is kept |
| `BlogPostsRoute.MapIndexed` | app/api/crawler/blog-posts/route.ts:117 | the loop over the first `n` items gives `n` results |
| `BlogPostsRoute.MapIndexedAt` | app/api/crawler/blog-posts/route.ts:117-188 | result `j` is the `j`-th item's |
| `BlogPostsRoute.ItemPosts` | app/api/crawler/blog-posts/route.ts:115-189 | the first `n` items give `n` posts |
| `BlogPostsRoute.ItemPostsAt` | app/api/crawler/blog-posts/route.ts:117-188 | post `j` is built from item `j` with index `j` |
| `BlogPostsRoute.ParseFeed` | app/api/crawler/blog-posts/route.ts:103-209 | the posts of the first min(items, limit) items; the synthetic list when there are none or the document is unreadable; never empty for a positive limit |
| `BlogPostsRoute.MapIndexedLoop` | app/api/crawler/blog-posts/route.ts:117-189 | the for-loop pushes the indexed results in order |
| `BlogPostsRoute.ParseRssToRealPosts` | app/api/crawler/blog-posts/route.ts:103-209 | the method returns the feed parse |
| `BlogPostsRoute.FeedUrls` | app/api/crawler/blog-posts/route.ts:47-51 | the three feed URLs |
| `BlogPostsRoute.FeedAttempts` | app/api/crawler/blog-posts/route.ts:53-88 | one attempt per feed URL |
| `BlogPostsRoute.CrawlBlogPosts` | app/api/crawler/blog-posts/route.ts:29-100 | the API's posts cut to the limit, else the first usable feed's posts, else the synthetic list |
| `BlogPostsRoute.FirstUsableFeedDecides` | app/api/crawler/blog-posts/route.ts:53-83 | with a positive limit, the first `ok` feed that looks like RSS decides the answer |
| `BlogPostsRoute.FirstSomeSkips` | app/api/crawler/blog-posts/route.ts:66-76 | feeds that are not `ok` or not RSS are passed over |
| `BlogPostsRoute.CrawledPostsCount` | app/api/crawler/blog-posts/route.ts:29-100 | never more than `limit` posts, and at least one for a positive limit |
| `BlogPostsRoute.FirstSomeFound` | app/api/crawler/blog-posts/route.ts:53-88 | what the loop returns is one of the feeds' answers |
| `BlogPostsRoute.FeedAttemptBounded` | app/api/crawler/blog-posts/route.ts:79-83 | a feed that ends the loop gives between 1 and `limit` posts |
| `BlogPostsRoute.FirstFeedBounded` | app/api/crawler/blog-posts/route.ts:53-88 | the feed that ends the loop gives between 1 and `limit` posts |
| `BlogPostsRoute.Post` | app/api/crawler/blog-posts/route.ts:4-27 | 500 with the server-error message exactly when the body cannot be read; 400 exactly when the blog id is missing; otherwise 200 with the crawled posts, limit defaulting to 20 |
| `BlogMetadataRoute.ChannelNicknameNonEmpty` | app/api/crawler/blog-metadata/route.ts:62-71 | the nickname of a non-empty blog id is never empty |
| `BlogMetadataRoute.ChannelNicknameOfBlogTitle` | app/api/crawler/blog-metadata/route.ts:62-71 | "X님의 블로그" and the like name their author X |
| `BlogMetadataRoute.ChannelNicknameFallsBack` | app/api/crawler/blog-metadata/route.ts:62-71 | a title without `님` that mentions "blog" leaves the blog id |
| `BlogMetadataRoute.RssStep` | app/api/crawler/blog-metadata/route.ts:40-86 | step 1 gives data exactly when the feed was read |
| `BlogMetadataRoute.OpenGraphNoEffect` | app/api/crawler/blog-metadata/route.ts:110-117 | the OpenGraph step never changes the data |
| `BlogMetadataRoute.PostFrequency` | app/api/crawler/blog-metadata/route.ts:148 | the frequency is `round(10·(seed mod 300)/100)/10`, in [0, 3] |
| `BlogMetadataRoute.EstimatedPostCount` | app/api/crawler/blog-metadata/route.ts:141 | the feed's non-zero item count, else `(seed mod 500) + 10` |
| `BlogMetadataRoute.StatsRanges` | app/api/crawler/blog-metadata/route.ts:133-152 | subscribers are `seed mod 5000 + 2·posts`, and every other figure lies in its seeded range |
| `BlogMetadataRoute.MetadataSpec` | app/api/crawler/blog-metadata/route.ts:36-174 | a result exactly when the feed was read: the id, the title's nickname (never empty), the channel category or '주제 없음', the item count or the seeded post count |
| `BlogMetadataRoute.CrawlBlogMetadata` | app/api/crawler/blog-metadata/route.ts:36-174 | the steps in order compute the metadata |
| `BlogMetadataRoute.Post` | app/api/crawler/blog-metadata/route.ts:4-34 | 500 with the server-error message for an unreadable body, 400 without a blog id, 404 when the feed could not be read, else 200 with the metadata |
| `SmartblockRoute.IndexScore` | app/api/ranking/smartblock/route.ts:313-325 | `min(30, v/100) + min(40, w/50) + min(20, 2k) + min(10, i)` lies in [0, 100] |
| `SmartblockRoute.IndexTier` | app/api/ranking/smartblock/route.ts:328-338 | label `t` is earned exactly when the score reaches 90 − 10t and not the label above it |
| `SmartblockRoute.IndexTierMonotone` | app/api/ranking/smartblock/route.ts:328-338 | a higher score never earns a worse label |
| `SmartblockRoute.IndexScoreMonotone` | app/api/ranking/smartblock/route.ts:309-339 | more views, words, keywords or images never lower the score or the label |
| `SmartblockRoute.CalculateBlogIndices` | app/api/ranking/smartblock/route.ts:309-339 | the step-by-step sum and the if-ladder give the label of the score's tier |
| `SmartblockRoute.MockIndices` | app/api/ranking/smartblock/route.ts:342-351 | the drawn label lies in the band of the result's position: 최적 1-2, 최적 2-준최 1, 준최 1-4, 준최 5-없음 |
| `SmartblockRoute.ScoreTier` | app/api/ranking/smartblock/route.ts:458-464 | label `t` is earned exactly when the score reaches its threshold (90/70/50/30) and not the one above |
| `SmartblockRoute.ScoreTierMonotone` | app/api/ranking/smartblock/route.ts:458-464 | a higher score never earns a worse label |
| `SmartblockRoute.MockPostData` | app/api/ranking/smartblock/route.ts:291-306 | views in [100, 5099], words in [500, 2499], keywords in [3, 12], images in [1, 8], dated today |
| `SmartblockRoute.MockPostDataByTitle` | app/api/ranking/smartblock/route.ts:292-297 | the synthetic counts depend on the title alone |
| `SmartblockRoute.DayDiff` | app/api/ranking/smartblock/route.ts:358 | the day difference is the floor of the elapsed time in days |
| `SmartblockRoute.FormatSimpleDateWeeks` | app/api/ranking/smartblock/route.ts:362-363 | a date 7 to 29 days back reads as 1 to 4 weeks ago |
| `SmartblockRoute.FormatSimpleDateFuture` | app/api/ranking/smartblock/route.ts:358-362 | a date in the future reads as a negative number of days ago |
| `SmartblockRoute.EnrichSearchResults` | app/api/ranking/smartblock/route.ts:179-232 | one entry per result, in order: the first ten with their page's details, the rest synthesised |
| `SmartblockRoute.EntryAtSpec` | app/api/ranking/smartblock/route.ts:194-228 | every entry keeps its result and has its rank as channel rank; entries past the tenth never depend on the pages and read '최근' |
| `SmartblockRoute.FilterByBlog` | app/api/ranking/smartblock/route.ts:83-85 | with a blog id, the results of that blog, each as often as in the input and in input order; without one, all of them |
| `SmartblockRoute.IndexWeight` | app/api/ranking/smartblock/route.ts:441-442 | label `t` weighs 95 − 10t and unknown labels 5 |
| `SmartblockRoute.FirstLabelWithin` | app/api/ranking/smartblock/route.ts:443 | `find` returns the first label in key order whose weight is at most the average |
| `SmartblockRoute.AverageIndexLabelSpec` | app/api/ranking/smartblock/route.ts:441-443 | for an average of weights a label is always found: the best one whose weight does not exceed the average |
| `SmartblockRoute.CalculateAverageData` | app/api/ranking/smartblock/route.ts:408-420 | '계산 불가' exactly when there are no posts |
| `SmartblockRoute.AverageDataSpec` | app/api/ranking/smartblock/route.ts:408-455 | the average label is one of the ten labels, and the rounded averages lie within the posts' bounds |
| `SmartblockRoute.Post` | app/api/ranking/smartblock/route.ts:5-50 | 500 with the collection-error message for an unreadable body; 400 exactly when the keyword is missing; a failed collection gives 500 with its message or the default; otherwise 200 with the posts, their averages and their count |
| `SmartblockRoute.RankingsOfBlog` | app/api/ranking/smartblock/route.ts:83-85 | with a blog id every answered post is that blog's, and there are at most 20 |
| `AnalysisRoute.FreePlanAlwaysRejected` | app/api/analysis/blog/route.ts:17-29 | the free plan (limit 0) is answered 429 at every usage, by the gate as written and as corrected |
| `AnalysisRoute.AdmittedIff` | app/api/analysis/blog/route.ts:17-29 | the corrected gate admits exactly basic below 50 and standard below 100 |
| `AnalysisRoute.GatesAgree` | app/api/analysis/blog/route.ts:23-24 | the gate as written and the corrected gate agree on every plan name that is not an `Object.prototype` member |
| `AnalysisRoute.InheritedPlanPassesGate` | app/api/analysis/blog/route.ts:23-24 | as written, a plan named like an inherited member is never rejected, whatever the usage (see Findings) |
| `AnalysisRoute.ToStringPlanPassesGate` | app/api/analysis/blog/route.ts:23-24 | the body `{ userPlan: "toString", todayUsage: 1000000 }` passes the gate as written and not the corrected one |
| `AnalysisRoute.ExtractTopKeywords` | app/api/analysis/blog/route.ts:198-218 | the frequency-table loop returns the ranked-keyword specification of the posts' text |
| `AnalysisRoute.TopKeywordsSpec` | app/api/analysis/blog/route.ts:198-218 | at most 8 distinct Hangul words of 2 to 6 syllables, each seen at least 3 times, in non-increasing frequency, and every such word is listed unless 8 already are |
| `AnalysisRoute.RankingKeywords` | app/api/analysis/blog/route.ts:50 | `.slice(0, 3)`: a prefix of the keywords, three of them when there are at least three |
| `AnalysisRoute.RankingsSpec` | app/api/analysis/blog/route.ts:44-65 | the rankings are empty when the ranking step throws or no keyword exists, else one well-formed result per keyword sent, in order |
| `AnalysisRoute.ProgressBounds` | app/api/analysis/blog/route.ts:232-240 | for a non-negative score the progress lies in [0, 100], and it is 100 exactly when the score is at least 90 |
| `AnalysisRoute.ShownProgress` | app/api/analysis/blog/route.ts:94 | the rounded progress is within half a hundredth of the progress |
| `AnalysisRoute.ShownProgressBelowFull` | app/api/analysis/blog/route.ts:94 | an integral score in [0, 90) shows a progress in [0, 100) |
| `AnalysisRoute.EvaluateSpec` | app/api/analysis/blog/route.ts:131-143 | '평균 이상' exactly above the average, '평균' exactly in (floor, average], '평균 이하' otherwise; the verdict is monotone in the score |
| `AnalysisRoute.Hundredths` | app/api/analysis/blog/route.ts:130 | `Math.round(x * 100) / 100` is within half a hundredth of x |
| `AnalysisRoute.ExpertiseAlwaysBelow` | app/api/analysis/blog/route.ts:127-132 | the expertise score never exceeds 85, so it is always '평균 이하' with a negative difference |
| `AnalysisRoute.TrustEvaluation` | app/api/analysis/blog/route.ts:133-138 | trust is '평균 이상' exactly in (79.94, 80], '평균' in (75, 79.94] and '평균 이하' up to 75 |
| `AnalysisRoute.RelevanceEvaluation` | app/api/analysis/blog/route.ts:139-144 | relevance is '평균 이상' exactly in (75, 85], '평균' in (70, 75] and '평균 이하' up to 70 |
| `AnalysisRoute.AveragesFor` | app/api/analysis/blog/route.ts:251-260 | the category's averages, or those of '일상·생각'; every average is positive |
| `AnalysisRoute.Tenths` | app/api/analysis/blog/route.ts:278 | `Math.round(x * 10) / 10` is within half a tenth of x |
| `AnalysisRoute.TitleBoundaryDrops` | app/api/analysis/blog/route.ts:274-275 | as written, a mean title length of exactly 1.2 times the average (30 against 25) reads '평균 이하' while 29 reads '평균'; corrected, 30 reads '평균 이상' |
| `AnalysisRoute.TitleEvaluationSpec` | app/api/analysis/blog/route.ts:274-275 | corrected: '평균' exactly strictly between 0.9 and 1.2 times the average, '평균 이상' from 1.2 times on, monotone, and equal to the written form off the boundary |
| `AnalysisRoute.AnalyzeContentPattern` | app/api/analysis/blog/route.ts:243-284 | `null` exactly when there are no posts; otherwise the content pattern of the specification, its title verdict by the strict comparisons as written |
| `AnalysisRoute.UnknownCategoryIsDailyLife` | app/api/analysis/blog/route.ts:260 | a category without its own averages gives the same pattern as '일상·생각' |
| `AnalysisRoute.ContentPatternSpec` | app/api/analysis/blog/route.ts:246-284 | each row's own average is the rounded mean of the posts and its verdict compares that mean with the category's average (and 0.8 or 0.9/1.2 of it); the title is '평균 이상' exactly above 1.2 times the average, and a mean of exactly 1.2 times reads '평균 이하' |
| `AnalysisRoute.DaysFromHours` | app/api/analysis/blog/route.ts:334-335 | flooring to hours then dividing by 24 gives the floored number of days |
| `AnalysisRoute.ElapsedSince` | app/api/analysis/blog/route.ts:331-341 | days exactly from one day on, else hours (1 to 23) exactly from one hour on, else max(1, minutes) (1 to 59) |
| `AnalysisRoute.FutureReadsOneMinute` | app/api/analysis/blog/route.ts:339-340 | a future date, or one less than two minutes old, reads '1분 전' |
| `AnalysisRoute.DayBoundary` | app/api/analysis/blog/route.ts:337-338 | exactly one day reads '1일 전' and one minute less reads '23시간 전' |
| `AnalysisRoute.RankingView` | app/api/analysis/blog/route.ts:154-166 | one `keywordRankings` entry keeps the keyword, the totals and each post's rank and url, in order |
| `AnalysisRoute.RankingStatsOf` | app/api/analysis/blog/route.ts:117-122 | `null` exactly without rankings; otherwise it counts every keyword, and the ranked ones are among them |
| `AnalysisRoute.DetailedResultSpec` | app/api/analysis/blog/route.ts:75-180 | the result reports the extracted keywords, one ranking view per ranking, statistics exactly when rankings exist, a pattern exactly when posts exist, a progress in [0, 100) and expertise '평균 이하'; `bestRank` is, when rankings exist, the least `bestRank || 1000` below 1000, or Infinity (serialised null) when none is; `recentPosts` are the first 10 posts (fewer when fewer exist) with each title, `getRelativeTime` of its publish date and image count |
| `AnalysisRoute.BestRankMetric` | app/api/analysis/blog/route.ts:113-114 | Infinity exactly when no ranking has a `bestRank` in (0, 1000); otherwise one such ranking's value, and no larger than any of them |
| `AnalysisRoute.Admission` | app/api/analysis/blog/route.ts:5-29 | 500 for an unreadable body, 400 without a blog URL before the gate, 429 exactly when the gate as written rejects (`todayUsage >= (limits[plan] \|\| 0)`, inherited members included), and nothing (go on) otherwise |
| `AnalysisRoute.DefaultRequestRejected` | app/api/analysis/blog/route.ts:7-29 | a body without plan or usage defaults to free at usage 0, and so does any plan that is neither listed nor an `Object.prototype` member: 429 |
| `AnalysisRoute.InheritedPlanAdmitted` | app/api/analysis/blog/route.ts:17-29 | a request whose plan is named like an `Object.prototype` member is admitted, whatever its usage (see Findings) |
| `AnalysisRoute.CrawlErrorMessage` | app/api/analysis/blog/route.ts:37 | the crawler's message when it has one, the fixed message otherwise; never empty |
| `AnalysisRoute.Crawl` | app/api/analysis/blog/route.ts:33-40 | the crawl fails exactly when extractBlogId as written finds no blog id, with the crawler's invalid-id message; on success the blog is crawlBlog's record for the extracted id and the posts are its posts, or its 20 realistic posts when the ladder found none |
| `AnalysisRoute.ReportDetails` | app/api/analysis/blog/route.ts:60 | `rankingReport.keywordDetails` are the per-keyword results |
| `AnalysisRoute.RankingStep` | app/api/analysis/blog/route.ts:44-65 | the rankings and the client's new cache are those of the report on the first three keywords, or none and an untouched cache when it throws |
| `AnalysisRoute.Respond` | app/api/analysis/blog/route.ts:42-186 | 200 with the detailed result and usage + 1, the scores, overall score, grade, valid-keyword count, total and category ranks and recommendations being the engine's of the blog, posts and extracted keywords, and the client left with the ranking step's cache |
| `AnalysisRoute.Post` | app/api/analysis/blog/route.ts:5-195 | the admission answer (the gate as written) with the cache untouched, 400 with the crawler's message when extractBlogId as written finds no id, otherwise the served response for exactly the blog and posts crawlBlog produced |
| `AnalysisRoute.RankingFailureSwallowed` | app/api/analysis/blog/route.ts:63-65 | when the ranking step throws the response still succeeds, with no keyword rankings and `actualRankings` null |
| `RankingClient.CacheKey` | lib/ranking-client.ts:21 | the key starts with the keyword followed by `_` |
| `RankingClient.CacheKeyMissingBlogId` | lib/ranking-client.ts:21 | a request without a blog id shares its entry with the blog id "all" |
| `RankingClient.CacheAnswersExactlyWhenFresh` | lib/ranking-client.ts:24-30 | a fresh entry (younger than 300000 ms) answers whatever the request would give and changes nothing; otherwise a thrown request's error is the answer |
| `RankingClient.RefetchStores` | lib/ranking-client.ts:32-63 | a stale or missing entry is refetched: an answer becomes the key's entry with the store time, every other entry is untouched, a new key goes last |
| `RankingClient.FailureKeepsCache` | lib/ranking-client.ts:49-68 | a failed request leaves the cache as it was, a stale entry included, and its error propagates ('순위 데이터 요청 실패' without a message) |
| `RankingClient.StoredAnswersWithinTimeout` | lib/ranking-client.ts:24-60 | what was just stored answers every later check within five minutes of its store time |
| `RankingClient.RankDataStepWellKeyed` | lib/ranking-client.ts:20-69 | every call keeps the map's entries and its key order in step |
| `RankingClient.KeysCount` | lib/ranking-client.ts:244 | the map's size is the number of its keys |
| `RankingClient.Unprefixed` | lib/ranking-client.ts:235-239 | the keys left are exactly those that do not start with the keyword |
| `RankingClient.UnprefixedNoDup` | lib/ranking-client.ts:235-239 | filtering keeps the keys distinct |
| `RankingClient.Pruned` | lib/ranking-client.ts:235-239 | the entries left are exactly those whose key does not start with the keyword, unchanged |
| `RankingClient.DeleteVisited` | lib/ranking-client.ts:237 | deleting the key being visited removes it from its position |
| `RankingClient.RemoveUpToSpec` | lib/ranking-client.ts:235-239 | after visiting `i` keys, the visited ones are filtered and the rest are untouched, in order |
| `RankingClient.RemoveBounds` | lib/ranking-client.ts:235-239 | the walk starts from the whole cache and ends with the pruned, well-keyed cache |
| `RankingClient.RemoveVisitKeys` | lib/ranking-client.ts:236-238 | one turn of the walk deletes the visited key exactly when it starts with the keyword |
| `RankingClient.RemovalReachesLongerKeywords` | lib/ranking-client.ts:236 | removing a keyword also drops the entries of longer keywords that start with it |
| `RankingClient.BlogPosts` | lib/ranking-client.ts:105-107 | the blog's posts are those with a url that contains the blog id, or with a nickname that contains it, each as often as in the input and in input order |
| `RankingClient.BestRank` | lib/ranking-client.ts:113 | the smallest positive rank among the posts, and Infinity exactly when no post has one |
| `RankingClient.RankCeiling` | lib/ranking-client.ts:114 | a bound on the ranks averaged (a missing rank counting as 100) |
| `RankingClient.BestAtMostRoundedMean` | lib/ranking-client.ts:113-114 | when every post has a rank, the best rank is at most the rounded average |
| `RankingClient.RanksThreeAndSeven` | lib/ranking-client.ts:113-114 | ranks 3 and 7 give best rank 3 and average rank 5 |
| `RankingClient.ResultFor` | lib/ranking-client.ts:102-139 | a failure gives the keyword with its error, no posts, null ranks and 0 posts; an answer gives no error and the blog's posts; ranks are present exactly when there are posts |
| `RankingClient.ProgressUpTo` | lib/ranking-client.ts:98-141 | after `n` keywords there are exactly `n` outcomes |
| `RankingClient.ResultsOf` | lib/ranking-client.ts:98-141 | one entry per outcome, each the entry for its keyword |
| `RankingClient.AnalyzeStep` | lib/ranking-client.ts:98-141 | one more keyword pushes its lookup's entry and keeps its cache |
| `RankingClient.AnalyzeKeepsCache` | lib/ranking-client.ts:98-141 | the loop keeps the cache well-keyed |
| `RankingClient.OutcomesPrefix` | lib/ranking-client.ts:98-141 | later keywords only append outcomes |
| `RankingClient.AnalyzeResultAt` | lib/ranking-client.ts:98-141 | the entry for keyword `j` is pushed once and never changed afterwards |
| `RankingClient.AnalyzeShape` | lib/ranking-client.ts:95-144 | exactly one result per keyword, in input order, each well formed |
| `RankingClient.FailingKeywordIsolated` | lib/ranking-client.ts:130-139 | a failing keyword gets its request's message, no posts, null ranks and 0 posts, and the loop goes on |
| `RankingClient.AllPosts` | lib/ranking-client.ts:158 | `flatMap` holds exactly the posts of the results |
| `RankingClient.Ranked` | lib/ranking-client.ts:159 | the ranked posts are those with a positive rank, each as often as in the input and in input order |
| `RankingClient.CountWhere` | lib/ranking-client.ts:162-165 | a band never counts more posts than there are |
| `RankingClient.DistributionPartitions` | lib/ranking-client.ts:161-166 | over positive ranks the four bands add up to the ranked posts |
| `Common.Filter` | lib/ranking-client.ts:175 | `Array.filter`: the elements that pass, each as often as in the input, in input order (a subsequence) |
| `RankingClient.Take` | lib/ranking-client.ts:177 | `slice(0, n)` keeps the first min(n, length) results |
| `RankingClient.TopKeywordsSpec` | lib/ranking-client.ts:174-177 | at most five top keywords, each a result with a best rank of at most 10, in ascending best rank, and all of them when there are at most five |
| `RankingClient.TopKeywordsMembers` | lib/ranking-client.ts:174-175 | every top keyword is a result with a best rank of at most 10 |
| `RankingClient.TopKeywordsOrdered` | lib/ranking-client.ts:176 | top keywords come in ascending best rank |
| `RankingClient.TopKeywordsComplete` | lib/ranking-client.ts:174-177 | when at most five results qualify, all of them are top keywords |
| `RankingClient.ImproveKeywordsSpec` | lib/ranking-client.ts:180-182 | at most five keywords to improve: the first results without posts or with a best rank beyond 30 |
| `RankingClient.TopNeverNeedsImprovement` | lib/ranking-client.ts:175-181 | a top keyword is never one to improve |
| `RankingClient.RecommendationsSpec` | lib/ranking-client.ts:252-281 | one to three pieces of advice, each present exactly when its condition holds, the two general ones exactly when none of the others is given |
| `RankingClient.ReportSpec` | lib/ranking-client.ts:152-198 | the bands add up to the ranked posts; average and best rank exist exactly when there are ranked posts, best ≤ average; at most five top and five improve keywords; recommendations never empty |
| `RankingClient.RankingDataClient.constructor` | lib/ranking-client.ts:7-11 | a new client starts with an empty cache |
| `RankingClient.RankingDataClient.GetActualRankData` | lib/ranking-client.ts:20-69 | the result and the new cache are one lookup step on the old cache, under the request's key |
| `RankingClient.RankingDataClient.ClearCache` | lib/ranking-client.ts:228-231 | the cache is empty afterwards |
| `RankingClient.RankingDataClient.RemoveFromCache` | lib/ranking-client.ts:233-240 | afterwards exactly the entries and keys that do not start with the keyword are left, in order |
| `RankingClient.RankingDataClient.GetCacheStats` | lib/ranking-client.ts:242-248 | the count is the map's size, the timeout 300000 ms, and the entries the keys in insertion order |
| `RankingClient.RankingDataClient.AnalyzeBlogKeywordRankings` | lib/ranking-client.ts:95-144 | the results and the new cache are those of the keyword-by-keyword analysis |
| `RankingClient.RankingDataClient.GenerateRankingReport` | lib/ranking-client.ts:152-198 | the report is that of the analysis' results, and the cache is the analysis' |
| `RankingClient.GenerateRankingRecommendations` | lib/ranking-client.ts:252-281 | the pushes give the recommendations of the distribution and the results |

## Left out

- UI: React pages and components, `AuthContext` (React state and `localStorage`), and the membership, pricing and FAQ content.
- Browser and network I/O. This covers Playwright launch, navigation and `page.evaluate`, `fetch`, per-call timeouts and the `setTimeout` delays between requests. Their results are parameters of the model.
- `parsePostListHTML`, `parseSearchResults` and `getActualSearchRanking` (which only wraps them). These are regular-expression scrapers over whole HTML pages that rely on the global flag's `lastIndex` state. The model receives their output: the scraped post list, and the search results as `SmartblockRoute` takes them.
- cheerio XML and HTML parsing. A feed arrives already split into its items (`FeedItem`) or channel fields (`FeedChannel`). An HTML fragment's text arrives as a value.
- Fields drawn from `Math.random`, outside the bounds stated on them:
  - the per-post scores, exposure status, grade and fallback link of `formatDetailedPosts` (its `publishDate` locale string `toLocaleDateString('ko-KR')` is not modelled either; `recentPosts` carries the deterministic fields);
  - `rankChange`, `weeklyTrend` and the `bestRank` fallback of the analysis endpoint, drawn only when there are no rankings (`AnalysisRoute.DetailedResult` has `bestRank` `None` then);
  - the orgScore fields;
  - `trackRankingChanges`;
  - the RSS backfill counts and random post statistics in `crawlBlog`;
  - the category of `generateMockBlogData`;
  - the section choice of `generateRealisticContent`, which is a nondeterministic choice.
- `calculateMockIndices`: its `Math.random()` draw is a parameter, so only the range of labels open to each position is stated.
- `extractPostDetails`: its random fallbacks are left out, and the page details it reads are a parameter.
- IEEE-754 rounding: scores are exact reals. Text is `seq<char>`, one element per Unicode character. Every character the code tests (Hangul U+AC00–U+D7A3, ASCII) is a single UTF-16 code unit, so lengths agree with the source for such text. A character outside the Basic Multilingual Plane (an emoji, say) is one element in the model but a surrogate pair, two `length` units and two `charCodeAt` steps, in the source; the members below differ from the source for scraped text that holds one.
- Common.StringHash: folds once per character, where the source folds once per UTF-16 code unit, so the hash of text with characters outside the Basic Multilingual Plane differs.
- Common.Seed: inherits the per-character fold of `Common.StringHash`.
- PlaywrightCrawler.GenerateHash: loops once per character, not per UTF-16 code unit.
- PlaywrightCrawler.PostEstimate: the character count, and the interaction estimate built on it, count characters, not UTF-16 code units.
- BlogPostsRoute.ItemPostShape: the character count is the content's length in characters, not in UTF-16 code units.
- AnalysisRoute.ContentPatternSpec: the mean title length is counted in characters, not in UTF-16 code units.
- BlogAnalysis.CategoryComponent: a category named like an `Object.prototype` member (such as "toString" or "constructor", which an RSS `<category>` can carry) reads a function from `categoryWeights`, so `12 * weight` and the rounded component are NaN in the source; the model gives every category outside the table the weight 0.8, and its bounds hold for the other names only.
- BlogAnalysis.ExpertiseScore: for such a category the source's score is NaN, which `Math.max(15, Math.min(85, …))` keeps; the [15, 85] bound is stated for the modelled weight of 0.8.
- BlogPostsRoute.Post: `limit` is a natural number, while a JSON body can carry a negative limit (`slice(0, -2)` drops the last two posts), a fractional one, or a non-number.
- AnalysisRoute.Admission: `todayUsage` is an integer, while a JSON body can carry a fraction, a string or `null` that JavaScript compares by coercion.
- BlogCrawler.CrawlBlog: the posts step's sources (`realPosts`, `postDate`, `postStats`) are parameters; they are not derived from `NaverApiClient.GetRealPosts` and `NaverApiClient.PostStatsOf` within the model.
- Text.LowerChar: `toLowerCase` is modelled on ASCII letters only; the category keyword tables hold only ASCII and Hangul.
- JavaScript `Date`:
  - Parsing of date strings is the parameter `parse`.
  - `toLocaleDateString` output is a parameter.
  - `setDate(getDate() - k)` is modelled as subtracting k·86400000 ms, ignoring daylight-saving shifts.
  - An unparseable date in `formatSimpleDate` is `None`, which gives "NaN개월 전" as every comparison with NaN fails. How `Date` decides what is unparseable is not modelled.
- Logging (`console.log`/`console.error`), including the trust-score breakdown that prints fixed numbers.
- `generatedAt`, the report's ISO timestamp, and other timestamps put into responses that the model does not compute from `now`.
- Thrown values that are not `Error` objects, which the keyword analysis reports as '분석 실패': every failure in the model carries a message.
- Errors thrown inside the analysis endpoint other than an unreadable request body; all of them give status 500.
- Extra `blogInfo` fields that only copy crawler output.
- `analyzeContentPattern`: a category name that is an inherited object member (such as "toString") is not modelled; the model's table lookup treats it as unknown.
- `getTrafficRankData` and `getBacklinkRankData`: thin wrappers that call `getActualRankData` with a fixed type.
- Thin wrappers and dead code:
  - `app/api/crawler/playwright/route.ts`;
  - `test-scoring.js` and `app/api/test-scoring/route.ts`;
  - `formatRecentPosts`, `analyzeContentQuality` and `evaluateKeywordConsistency`;
  - the bodies of `fetchBlogMetadata`, `fetchBlogPosts` and `validateBlogExists`.
- The post list that `crawlBlog` obtains through `fetchBlogPosts` is an abstract outcome of the ladder.

## Findings

| source | as written | input that shows it | evidently intended | confidence | as-written member | corrected member |
|---|---|---|---|---|---|---|
| lib/blog-crawler.ts:21-30 | the generic `blog.naver.com/<segment>` pattern is tried first, so it captures the page name of post-view and post-list URLs and the two specific patterns never decide | `blog.naver.com/PostView.naver?blogId=abc` gives "PostView.naver" | the `blogId` query value ("abc"): the page-specific patterns tried before the generic one | high (not executed) | `BlogCrawler.PostViewShadowed` | `BlogCrawler.PostViewUrlYieldsId` |
| lib/naver-api-client.ts:231-233 | the suffix '의 블로그' is stripped before '님의 블로그', so the second replace never applies | an RSS title "X님의 블로그" gives the nickname "X님" | "X": the longer suffix stripped first | high (not executed) | `NaverApiClient.RssNicknameKeepsHonorific` | `NaverApiClient.RssNicknameStrips` |
| app/api/analysis/blog/route.ts:23-24 | `limits[userPlan] \|\| 0` also reads members inherited from `Object.prototype`; the value is a function, `todayUsage >= fn` is false, and the request passes the daily-limit gate | body `{ "userPlan": "toString", "todayUsage": 1000000 }` | an unknown plan has limit 0 and is rejected with 429 | high (not executed) | `AnalysisRoute.ToStringPlanPassesGate` | `AnalysisRoute.AdmittedIff` |
| app/api/analysis/blog/route.ts:274-275 | a mean title length of exactly 1.2 times the category average matches neither strict comparison and is rated '평균 이하' | one post with a 30-character title in a category without its own averages (average 25) | '평균 이상' from 1.2 times the average on | medium (not executed) | `AnalysisRoute.TitleBoundaryDrops` | `AnalysisRoute.TitleEvaluationSpec` |

The model of the program runs each of these as written: `BlogCrawler.CrawlBlog`, `AnalysisRoute.Crawl` and `AnalysisRoute.Post` extract the id with `BlogCrawler.ExtractBlogIdAsWritten`; `NaverApiClient.ParseRssData` strips the suffixes with `NaverApiClient.RssNicknameAsWritten`; `AnalysisRoute.Admission` gates with `AnalysisRoute.RejectedAsWritten`; and `AnalysisRoute.AnalyzeContentPattern` rates titles with `AnalysisRoute.TitleEvaluationAsWritten`. The corrected definitions stand beside them with their intended properties proved, and `BlogCrawler.OrdersRejectAlike`, `AnalysisRoute.GatesAgree` and the last clause of `AnalysisRoute.TitleEvaluationSpec` state where the two halves agree.
