/** lib/ranking-client.ts: the ranking client. An object keeps the answers of
    the SmartBlock ranking endpoint in a `Map` for five minutes; on top of it
    sit the per-keyword analysis of one blog, the report over those results
    and the advice derived from the report.

    The network call is not modelled: each request receives the endpoint's
    outcome as a value (`Call`), together with the two clock readings the
    source takes (before the cache check and after the answer arrives). */
module RankingClient {
  import opened Common
  import opened Text
  import opened Sorting
  import Keywords

  /** `5 * 60 * 1000` ms. */
  const CacheTimeout: int := 300000
  const RequestFailedMessage: string := "순위 데이터 요청 실패"

  /** One post of the endpoint's answer: its url ("" when absent), its
      author's nickname and its `channelRank` (0 when absent). */
  datatype RankPost = RankPost(url: string, nickName: Option<string>, channelRank: nat)

  /** The endpoint's JSON answer; `posts` may be absent. */
  datatype RankData = RankData(posts: Option<seq<RankPost>>)

  /** What the request ends in: a thrown error (network, JSON), an answer
      that is not `ok` carrying `error` ("" when absent), or the data. */
  datatype FetchOutcome = Thrown(message: string) | NotOk(error: string) | Answered(data: RankData)

  /** One `getActualRankData` call's environment: `Date.now()` at the cache
      check, `Date.now()` when the answer is stored, and the request's outcome
      (consulted only when the cache does not answer). */
  datatype Call = Call(checkedAt: int, storedAt: int, outcome: FetchOutcome)

  /** A cache entry `{ data, timestamp }`. */
  datatype Entry = Entry(data: RankData, timestamp: int)

  /** The cache as a JavaScript `Map`: its entries and its keys in insertion order. */
  ghost predicate WellKeyed(cache: map<string, Entry>, keys: seq<string>) {
    Keywords.NoDup(keys) && forall k :: k in cache <==> k in keys
  }

  // ---------------------------------------------------------------------------
  // The cache

  /** `${keyword}_${type}_${blogId || 'all'}`, with "" for a missing blog id. */
  function CacheKey(keyword: string, kind: string, blogId: string): (k: string)
    ensures |k| > |keyword| && StartsWith(k, keyword) && k[|keyword|] == '_'
  {
    keyword + "_" + kind + "_" + (if blogId != "" then blogId else "all")
  }

  /** A request without a blog id shares its entry with the blog id "all". */
  lemma CacheKeyMissingBlogId(keyword: string, kind: string)
    ensures CacheKey(keyword, kind, "") == CacheKey(keyword, kind, "all")
  {
  }

  /** The cached entry answers a check at `now`. */
  predicate Fresh(cache: map<string, Entry>, key: string, now: int) {
    key in cache && now - cache[key].timestamp < CacheTimeout
  }

  /** The message of the error a failed request throws. */
  function ThrownMessage(o: FetchOutcome): string
    requires !o.Answered?
  {
    match o
    case Thrown(m) => m
    case NotOk(e) => if e != "" then e else RequestFailedMessage
  }

  /** The outcome of one call and the cache after it. */
  datatype Lookup = Lookup(result: Result<RankData>, cache: map<string, Entry>, keys: seq<string>)

  /** getActualRankData on values. */
  function RankDataStep(cache: map<string, Entry>, keys: seq<string>, key: string, call: Call): Lookup {
    if Fresh(cache, key, call.checkedAt) then Lookup(Success(cache[key].data), cache, keys)
    else
      match call.outcome
      case Answered(d) =>
        Lookup(Success(d), cache[key := Entry(d, call.storedAt)], if key in cache then keys else keys + [key])
      case _ => Lookup(Failure(ThrownMessage(call.outcome)), cache, keys)
  }

  /** The cache answers without consulting the request exactly when its entry
      is younger than five minutes: then the outcome is irrelevant and nothing
      changes; otherwise a thrown error surfaces as the result. */
  lemma CacheAnswersExactlyWhenFresh(cache: map<string, Entry>, keys: seq<string>, key: string, now: int)
    ensures Fresh(cache, key, now) ==> forall s, o ::
              RankDataStep(cache, keys, key, Call(now, s, o)) == Lookup(Success(cache[key].data), cache, keys)
    ensures !Fresh(cache, key, now) ==> forall s, m ::
              RankDataStep(cache, keys, key, Call(now, s, Thrown(m))).result == Failure(m)
  {
  }

  /** A stale or missing entry is refetched: a successful answer replaces the
      key's entry with the new data stamped at the second clock reading and
      leaves every other entry alone; the key joins the key order only if new. */
  lemma RefetchStores(cache: map<string, Entry>, keys: seq<string>, key: string, call: Call)
    requires !Fresh(cache, key, call.checkedAt) && call.outcome.Answered?
    ensures var l := RankDataStep(cache, keys, key, call);
      && l.result == Success(call.outcome.data)
      && l.cache[key] == Entry(call.outcome.data, call.storedAt)
      && (forall k :: k != key ==> (k in l.cache <==> k in cache))
      && (forall k :: k != key && k in cache ==> l.cache[k] == cache[k])
      && (key in cache ==> l.keys == keys)
      && (key !in cache ==> l.keys == keys + [key])
  {
  }

  /** A failed request leaves the cache as it was, a stale entry included,
      and the error propagates. */
  lemma FailureKeepsCache(cache: map<string, Entry>, keys: seq<string>, key: string, call: Call)
    requires !Fresh(cache, key, call.checkedAt) && !call.outcome.Answered?
    ensures RankDataStep(cache, keys, key, call) == Lookup(Failure(ThrownMessage(call.outcome)), cache, keys)
    ensures call.outcome.NotOk? && call.outcome.error == "" ==>
              RankDataStep(cache, keys, key, call).result == Failure(RequestFailedMessage)
  {
  }

  /** What was just fetched answers every later check within five minutes of
      its timestamp, whatever that request would have returned. */
  lemma StoredAnswersWithinTimeout(cache: map<string, Entry>, keys: seq<string>, key: string,
                                   first: Call, d: RankData, later: Call)
    requires !Fresh(cache, key, first.checkedAt) && first.outcome == Answered(d)
    requires later.checkedAt - first.storedAt < CacheTimeout
    ensures var l := RankDataStep(cache, keys, key, first);
      RankDataStep(l.cache, l.keys, key, later) == Lookup(Success(d), l.cache, l.keys)
  {
  }

  /** Every call keeps the entries and the key order in step. */
  lemma {:induction false} RankDataStepWellKeyed(cache: map<string, Entry>, keys: seq<string>, key: string, call: Call)
    requires WellKeyed(cache, keys)
    ensures var l := RankDataStep(cache, keys, key, call); WellKeyed(l.cache, l.keys)
  {
    var l := RankDataStep(cache, keys, key, call);
    if !Fresh(cache, key, call.checkedAt) && call.outcome.Answered? && key !in cache {
      assert l.keys == keys + [key];
      assert key !in keys;
      assert Keywords.NoDup(l.keys) by {
        forall i, j | 0 <= i < j < |l.keys| ensures l.keys[i] != l.keys[j] {
          if j == |keys| {
            assert l.keys[i] == keys[i];
          } else {
            assert l.keys[i] == keys[i] && l.keys[j] == keys[j];
          }
        }
      }
    }
  }

  /** A map's size is the number of its keys in insertion order. */
  lemma {:induction false} KeysCount(cache: map<string, Entry>, keys: seq<string>)
    requires WellKeyed(cache, keys)
    ensures |keys| == |cache|
  {
    if |keys| == 0 {
      assert cache.Keys == {};
    } else {
      var last := keys[|keys| - 1];
      var init := keys[..|keys| - 1];
      var smaller := cache - {last};
      assert keys == init + [last];
      assert last !in init by {
        forall i | 0 <= i < |init| ensures init[i] != last {
          assert init[i] == keys[i];
        }
      }
      assert last in cache;
      assert forall k :: k in smaller <==> k in init by {
        forall k ensures k in smaller <==> k in init {
          assert k in cache <==> k in keys;
          assert k in keys <==> k in init || k == last;
        }
      }
      assert Keywords.NoDup(init) by {
        forall i, j | 0 <= i < j < |init| ensures init[i] != init[j] {
          assert init[i] == keys[i] && init[j] == keys[j];
        }
      }
      KeysCount(smaller, init);
      assert smaller.Keys == cache.Keys - {last};
    }
  }

  /** The keys that do not start with `keyword`, in order. */
  function Unprefixed(keys: seq<string>, keyword: string): (r: seq<string>)
    ensures forall k :: k in r <==> k in keys && !StartsWith(k, keyword)
  {
    if |keys| == 0 then []
    else
      var init, last := keys[..|keys| - 1], keys[|keys| - 1];
      assert keys == init + [last];
      Unprefixed(init, keyword) + (if StartsWith(last, keyword) then [] else [last])
  }

  /** Filtering keeps the keys distinct. */
  lemma {:induction false} UnprefixedNoDup(keys: seq<string>, keyword: string)
    requires Keywords.NoDup(keys)
    ensures Keywords.NoDup(Unprefixed(keys, keyword))
  {
    if |keys| > 0 {
      var init, last := keys[..|keys| - 1], keys[|keys| - 1];
      assert keys == init + [last];
      assert Keywords.NoDup(init) && last !in init by {
        forall i, j | 0 <= i < j < |init| ensures init[i] != init[j] {
          assert init[i] == keys[i] && init[j] == keys[j];
        }
      }
      UnprefixedNoDup(init, keyword);
    }
  }

  /** The entries whose key does not start with `keyword`. */
  function Pruned(cache: map<string, Entry>, keyword: string): (m: map<string, Entry>)
    ensures forall k :: k in m <==> k in cache && !StartsWith(k, keyword)
    ensures forall k :: k in m ==> m[k] == cache[k]
  {
    map k | k in cache && !StartsWith(k, keyword) :: cache[k]
  }

  /** The position of a key in the key order. */
  function IndexOfKey(keys: seq<string>, key: string): (j: nat)
    requires key in keys
    ensures j < |keys| && keys[j] == key && key !in keys[..j]
  {
    if keys[0] == key then 0
    else
      var j := 1 + IndexOfKey(keys[1..], key);
      assert keys[..j] == [keys[0]] + keys[1..][..j - 1];
      j
  }

  /** `Map.delete` on the key order: the key leaves its position. */
  function Delete(keys: seq<string>, key: string): seq<string> {
    if key in keys then
      var j := IndexOfKey(keys, key);
      keys[..j] + keys[j + 1..]
    else keys
  }

  /** Deleting the key at the head of the unvisited keys. */
  lemma DeleteVisited(done: seq<string>, key: string, rest: seq<string>)
    requires key !in done
    ensures Delete(done + ([key] + rest), key) == done + rest
  {
    var keys := done + ([key] + rest);
    assert keys[|done|] == key;
    var j := IndexOfKey(keys, key);
    assert keys[..j] == done;
    assert keys[j + 1..] == rest;
  }

  /** The entries left once the keys in `done` have been visited. */
  function PrunedAmong(cache: map<string, Entry>, done: seq<string>, keyword: string): map<string, Entry> {
    map k | k in cache && !(k in done && StartsWith(k, keyword)) :: cache[k]
  }

  lemma PrunedAmongStep(cache: map<string, Entry>, done: seq<string>, key: string, keyword: string)
    ensures PrunedAmong(cache, done + [key], keyword)
         == if StartsWith(key, keyword) then PrunedAmong(cache, done, keyword) - {key} else PrunedAmong(cache, done, keyword)
  {
  }

  lemma PrunedAmongAll(cache: map<string, Entry>, keys: seq<string>, keyword: string)
    requires forall k :: k in cache ==> k in keys
    ensures PrunedAmong(cache, keys, keyword) == Pruned(cache, keyword)
  {
  }

  /** Filtering one more key appends it unless it starts with `keyword`. */
  lemma UnprefixedSnoc(keys: seq<string>, i: nat, keyword: string)
    requires i < |keys|
    ensures Unprefixed(keys[..i + 1], keyword)
         == Unprefixed(keys[..i], keyword) + (if StartsWith(keys[i], keyword) then [] else [keys[i]])
  {
    assert keys[..i + 1][..i] == keys[..i];
  }

  /** Visiting key `i`: the keys before it are filtered, it is deleted when it
      starts with `keyword`, and the keys after it are untouched. */
  lemma UnprefixedStep(snapshot: seq<string>, i: nat, keyword: string)
    requires i < |snapshot| && snapshot[i] !in snapshot[..i] && snapshot[i] !in snapshot[i + 1..]
    ensures Unprefixed(snapshot[..i + 1], keyword) + snapshot[i + 1..]
         == if StartsWith(snapshot[i], keyword) then Delete(Unprefixed(snapshot[..i], keyword) + snapshot[i..], snapshot[i])
            else Unprefixed(snapshot[..i], keyword) + snapshot[i..]
  {
    var key := snapshot[i];
    var done := Unprefixed(snapshot[..i], keyword);
    var rest := snapshot[i + 1..];
    UnprefixedSnoc(snapshot, i, keyword);
    assert snapshot[i..] == [key] + rest;
    if StartsWith(key, keyword) {
      assert key !in done;
      DeleteVisited(done, key, rest);
    } else {
      assert done + [key] + rest == done + ([key] + rest);
    }
  }

  /** The cache as a value. */
  datatype CacheState = CacheState(cache: map<string, Entry>, keys: seq<string>)

  /** removeFromCache's loop after visiting the first `i` keys of `snapshot`. */
  function RemoveUpTo(cache: map<string, Entry>, snapshot: seq<string>, keyword: string, i: nat): CacheState
    requires i <= |snapshot|
  {
    if i == 0 then CacheState(cache, snapshot)
    else
      var prev := RemoveUpTo(cache, snapshot, keyword, i - 1);
      var key := snapshot[i - 1];
      if StartsWith(key, keyword) then CacheState(prev.cache - {key}, Delete(prev.keys, key)) else prev
  }

  /** After `i` visits, the visited keys are filtered and the rest untouched. */
  lemma RemoveUpToSpec(cache: map<string, Entry>, snapshot: seq<string>, keyword: string, i: nat)
    requires Keywords.NoDup(snapshot) && i <= |snapshot|
    ensures RemoveUpTo(cache, snapshot, keyword, i)
         == CacheState(PrunedAmong(cache, snapshot[..i], keyword), Unprefixed(snapshot[..i], keyword) + snapshot[i..])
  {
    RemoveUpToKeys(cache, snapshot, keyword, i);
    RemoveUpToCache(cache, snapshot, keyword, i);
  }

  lemma {:induction false} RemoveUpToKeys(cache: map<string, Entry>, snapshot: seq<string>, keyword: string, i: nat)
    requires Keywords.NoDup(snapshot) && i <= |snapshot|
    ensures RemoveUpTo(cache, snapshot, keyword, i).keys == Unprefixed(snapshot[..i], keyword) + snapshot[i..]
  {
    if i == 0 {
      assert snapshot[..0] == [] && snapshot[0..] == snapshot;
    } else {
      RemoveUpToKeys(cache, snapshot, keyword, i - 1);
      RemoveVisitKeys(snapshot, i - 1, keyword);
    }
  }

  lemma {:induction false} RemoveUpToCache(cache: map<string, Entry>, snapshot: seq<string>, keyword: string, i: nat)
    requires i <= |snapshot|
    ensures RemoveUpTo(cache, snapshot, keyword, i).cache == PrunedAmong(cache, snapshot[..i], keyword)
  {
    if i == 0 {
      assert snapshot[..0] == [];
      assert PrunedAmong(cache, [], keyword) == cache;
    } else {
      RemoveUpToCache(cache, snapshot, keyword, i - 1);
      assert snapshot[..i] == snapshot[..i - 1] + [snapshot[i - 1]];
      PrunedAmongStep(cache, snapshot[..i - 1], snapshot[i - 1], keyword);
    }
  }

  /** Where removeFromCache's loop starts and what it ends with. */
  lemma RemoveBounds(cache: map<string, Entry>, snapshot: seq<string>, keyword: string)
    requires WellKeyed(cache, snapshot)
    ensures Unprefixed(snapshot[..0], keyword) + snapshot[0..] == snapshot
    ensures PrunedAmong(cache, snapshot[..0], keyword) == cache
    ensures Unprefixed(snapshot[..|snapshot|], keyword) + snapshot[|snapshot|..] == Unprefixed(snapshot, keyword)
    ensures PrunedAmong(cache, snapshot[..|snapshot|], keyword) == Pruned(cache, keyword)
    ensures WellKeyed(Pruned(cache, keyword), Unprefixed(snapshot, keyword))
  {
    assert snapshot[..|snapshot|] == snapshot;
    PrunedAmongAll(cache, snapshot, keyword);
    UnprefixedNoDup(snapshot, keyword);
  }

  /** One turn of removeFromCache's loop on the key order. */
  lemma RemoveVisitKeys(snapshot: seq<string>, i: nat, keyword: string)
    requires Keywords.NoDup(snapshot) && i < |snapshot|
    ensures var key := snapshot[i];
      var keys := Unprefixed(snapshot[..i], keyword) + snapshot[i..];
      && (StartsWith(key, keyword) ==> Delete(keys, key) == Unprefixed(snapshot[..i + 1], keyword) + snapshot[i + 1..])
      && (!StartsWith(key, keyword) ==> keys == Unprefixed(snapshot[..i + 1], keyword) + snapshot[i + 1..])
  {
    var key := snapshot[i];
    assert key !in snapshot[..i] && key !in snapshot[i + 1..] by {
      forall j | 0 <= j < |snapshot| && j != i ensures snapshot[j] != key { }
    }
    UnprefixedStep(snapshot, i, keyword);
  }

  /** Removing by prefix also drops longer keywords that share it: the
      entries of "맛집추천" go with those of "맛집". */
  lemma RemovalReachesLongerKeywords(keyword: string, suffix: string, kind: string, blogId: string)
    ensures CacheKey(keyword + suffix, kind, blogId) !in Pruned(map[CacheKey(keyword + suffix, kind, blogId) := Entry(RankData(None), 0)], keyword)
  {
    var k := CacheKey(keyword + suffix, kind, blogId);
    assert k[..|keyword|] == (keyword + suffix)[..|keyword|] == keyword;
  }

  /** `getCacheStats()`. */
  datatype CacheStats = CacheStats(totalCached: nat, cacheTimeout: int, entries: seq<string>)

  // ---------------------------------------------------------------------------
  // The per-keyword analysis

  /** `post.url && (post.url.includes(blogId) || post.nickName?.includes(blogId))`. */
  predicate MatchesBlog(p: RankPost, blogId: string) {
    p.url != "" && (Includes(p.url, blogId) || (p.nickName.Some? && Includes(p.nickName.value, blogId)))
  }

  /** `rankData.posts?.filter(..) || []`: the posts of the answer, or none. */
  function PostsOf(d: RankData): seq<RankPost> {
    if d.posts.Some? then d.posts.value else []
  }

  function BlogPosts(posts: seq<RankPost>, blogId: string): (r: seq<RankPost>)
    ensures |r| <= |posts|
    ensures forall p :: p in r <==> p in posts && MatchesBlog(p, blogId)
    ensures forall p :: multiset(r)[p] == if MatchesBlog(p, blogId) then multiset(posts)[p] else 0
    ensures IsSubsequenceOf(r, posts)
  {
    Filter(posts, p => MatchesBlog(p, blogId))
  }

  /** `Math.min(...)` over `channelRank || Infinity`. */
  datatype Bound = Finite(n: nat) | Infinity

  function MinBound(a: Bound, b: Bound): Bound {
    match (a, b)
    case (Infinity, _) => b
    case (_, Infinity) => a
    case (Finite(x), Finite(y)) => if x <= y then a else b
  }

  function RankBound(p: RankPost): Bound {
    if p.channelRank > 0 then Finite(p.channelRank) else Infinity
  }

  /** The best (smallest) rank among the posts that have one. */
  function BestRank(posts: seq<RankPost>): (b: Bound)
    ensures b.Finite? ==> b.n > 0 && exists i :: 0 <= i < |posts| && posts[i].channelRank == b.n
    ensures b.Finite? ==> forall p :: p in posts && p.channelRank > 0 ==> b.n <= p.channelRank
    ensures b.Infinity? <==> forall p :: p in posts ==> p.channelRank == 0
  {
    if |posts| == 0 then Infinity
    else
      var init, last := posts[..|posts| - 1], posts[|posts| - 1];
      assert posts == init + [last];
      var b := BestRank(init);
      assert b.Finite? ==> exists i :: 0 <= i < |posts| && posts[i].channelRank == b.n by {
        if b.Finite? {
          var i :| 0 <= i < |init| && init[i].channelRank == b.n;
          assert posts[i] == init[i];
        }
      }
      MinBound(b, RankBound(last))
  }

  /** `channelRank || 100`: a missing rank counts as 100 in the average. */
  function RankOr100(p: RankPost): real {
    if p.channelRank > 0 then p.channelRank as real else 100.0
  }

  function AverageRank(posts: seq<RankPost>): int
    requires |posts| > 0
  {
    RoundHalfUp(Mean(posts, RankOr100))
  }

  /** An upper bound of the values averaged. */
  function RankCeiling(posts: seq<RankPost>): (m: nat)
    ensures forall p :: p in posts ==> RankOr100(p) <= m as real
  {
    if |posts| == 0 then 0
    else
      var init, last := posts[..|posts| - 1], posts[|posts| - 1];
      assert posts == init + [last];
      MaxI(RankCeiling(init), if last.channelRank > 0 then last.channelRank else 100)
  }

  /** When every post has a rank, the best rank is at most the rounded average
      of any measure that agrees with the ranks. */
  lemma BestAtMostRoundedMean(posts: seq<RankPost>, f: RankPost -> real)
    requires |posts| > 0
    requires forall p :: p in posts ==> p.channelRank > 0 && f(p) == p.channelRank as real
    ensures BestRank(posts).Finite? && BestRank(posts).n <= RoundHalfUp(Mean(posts, f))
  {
    assert posts[0] in posts;
    var best := BestRank(posts);
    var ceiling := RankCeiling(posts);
    forall p | p in posts ensures best.n as real <= f(p) <= ceiling as real {
      assert RankOr100(p) == f(p);
    }
    RoundedMeanBounds(posts, f, best.n, ceiling);
  }

  /** Two matched posts ranked 3 and 7: best 3, average 5. */
  lemma RanksThreeAndSeven(a: RankPost, b: RankPost)
    requires a.channelRank == 3 && b.channelRank == 7
    ensures BestRank([a, b]) == Finite(3) && AverageRank([a, b]) == 5
  {
    assert [a, b][..1] == [a];
    assert [a][..0] == [];
    assert Sum([a], RankOr100) == Sum([], RankOr100) + RankOr100(a) == 3.0;
    assert Sum([a, b], RankOr100) == Sum([a], RankOr100) + RankOr100(b) == 10.0;
  }

  /** One entry of `results`. */
  datatype KeywordResult = KeywordResult(
    keyword: string, posts: seq<RankPost>, bestRank: Option<Bound>, averageRank: Option<int>,
    totalPosts: nat, error: Option<string>)

  /** A result carries ranks exactly when it has posts, and counts them. */
  predicate WellFormedResult(r: KeywordResult) {
    && r.totalPosts == |r.posts|
    && (r.bestRank.Some? <==> r.totalPosts > 0)
    && (r.averageRank.Some? <==> r.totalPosts > 0)
    && (r.error.Some? ==> r.totalPosts == 0)
  }

  /** The entry pushed for one keyword, given what `getActualRankData` gave. */
  function ResultFor(keyword: string, blogId: string, r: Result<RankData>): (res: KeywordResult)
    ensures res.keyword == keyword && WellFormedResult(res)
    ensures r.Failure? ==> res == KeywordResult(keyword, [], None, None, 0, Some(r.error))
    ensures r.Success? ==> res.error.None? && res.posts == BlogPosts(PostsOf(r.value), blogId)
  {
    match r
    case Failure(m) => KeywordResult(keyword, [], None, None, 0, Some(m))
    case Success(d) =>
      var posts := BlogPosts(PostsOf(d), blogId);
      if |posts| > 0 then KeywordResult(keyword, posts, Some(BestRank(posts)), Some(AverageRank(posts)), |posts|, None)
      else KeywordResult(keyword, [], None, None, 0, None)
  }

  /** The loop's state after some keywords: the results and the cache. */
  datatype Analysis = Analysis(results: seq<KeywordResult>, cache: map<string, Entry>, keys: seq<string>)

  /** The same state with each keyword's raw `getActualRankData` outcome in
      place of the entry built from it. */
  datatype Progress = Progress(outcomes: seq<Result<RankData>>, cache: map<string, Entry>, keys: seq<string>)

  /** The `getActualRankData` call made for keyword `j`. */
  function LookupAt(cache: map<string, Entry>, keys: seq<string>, blogId: string, keywords: seq<string>,
                    env: nat -> Call, j: nat): Lookup
    requires j < |keywords|
    decreases j, 1
  {
    var before := ProgressUpTo(cache, keys, blogId, keywords, env, j);
    RankDataStep(before.cache, before.keys, CacheKey(keywords[j], "rank", blogId), env(j))
  }

  /** The outcomes and the cache after the first `n` keywords: one outcome
      per keyword. */
  function ProgressUpTo(cache: map<string, Entry>, keys: seq<string>, blogId: string, keywords: seq<string>,
                        env: nat -> Call, n: nat): (p: Progress)
    requires n <= |keywords|
    ensures |p.outcomes| == n
    decreases n, 0
  {
    if n == 0 then Progress([], cache, keys)
    else
      var before := ProgressUpTo(cache, keys, blogId, keywords, env, n - 1);
      var step := LookupAt(cache, keys, blogId, keywords, env, n - 1);
      Progress(before.outcomes + [step.result], step.cache, step.keys)
  }

  /** The entry pushed for each outcome, keyword by keyword. */
  function ResultsOf(keywords: seq<string>, blogId: string, outcomes: seq<Result<RankData>>): (rs: seq<KeywordResult>)
    requires |outcomes| <= |keywords|
    ensures |rs| == |outcomes|
    ensures forall j :: 0 <= j < |rs| ==> rs[j] == ResultFor(keywords[j], blogId, outcomes[j])
  {
    seq(|outcomes|, j requires 0 <= j < |outcomes| => ResultFor(keywords[j], blogId, outcomes[j]))
  }

  /** analyzeBlogKeywordRankings after its first `n` keywords. */
  function AnalyzeUpTo(cache: map<string, Entry>, keys: seq<string>, blogId: string, keywords: seq<string>,
                       env: nat -> Call, n: nat): Analysis
    requires n <= |keywords|
  {
    var p := ProgressUpTo(cache, keys, blogId, keywords, env, n);
    Analysis(ResultsOf(keywords, blogId, p.outcomes), p.cache, p.keys)
  }

  /** One more keyword: its lookup's result is pushed, its cache kept. */
  lemma AnalyzeStep(cache: map<string, Entry>, keys: seq<string>, blogId: string,
                    keywords: seq<string>, env: nat -> Call, i: nat)
    requires i < |keywords|
    ensures var l := LookupAt(cache, keys, blogId, keywords, env, i);
      AnalyzeUpTo(cache, keys, blogId, keywords, env, i + 1)
      == Analysis(AnalyzeUpTo(cache, keys, blogId, keywords, env, i).results + [ResultFor(keywords[i], blogId, l.result)],
                  l.cache, l.keys)
  {
    var l := LookupAt(cache, keys, blogId, keywords, env, i);
    var outs := ProgressUpTo(cache, keys, blogId, keywords, env, i).outcomes;
    assert ProgressUpTo(cache, keys, blogId, keywords, env, i + 1).outcomes == outs + [l.result];
    var pushed := ResultFor(keywords[i], blogId, l.result);
    var before := ResultsOf(keywords, blogId, outs);
    var after := ResultsOf(keywords, blogId, outs + [l.result]);
    assert |after| == |before + [pushed]|;
    forall j | 0 <= j < |after| ensures after[j] == (before + [pushed])[j] {
      if j < i {
        assert (outs + [l.result])[j] == outs[j];
      }
    }
    assert after == before + [pushed];
  }

  /** The loop keeps the cache well-keyed. */
  lemma {:induction false} AnalyzeKeepsCache(cache: map<string, Entry>, keys: seq<string>, blogId: string,
                                             keywords: seq<string>, env: nat -> Call, n: nat)
    requires n <= |keywords|
    requires WellKeyed(cache, keys)
    ensures var p := ProgressUpTo(cache, keys, blogId, keywords, env, n);
      WellKeyed(p.cache, p.keys)
  {
    if n > 0 {
      AnalyzeKeepsCache(cache, keys, blogId, keywords, env, n - 1);
      var before := ProgressUpTo(cache, keys, blogId, keywords, env, n - 1);
      RankDataStepWellKeyed(before.cache, before.keys, CacheKey(keywords[n - 1], "rank", blogId), env(n - 1));
    }
  }

  /** Later keywords only append: the outcomes so far stay a prefix. */
  lemma {:induction false} OutcomesPrefix(cache: map<string, Entry>, keys: seq<string>, blogId: string,
                                          keywords: seq<string>, env: nat -> Call, m: nat, n: nat)
    requires m <= n <= |keywords|
    ensures ProgressUpTo(cache, keys, blogId, keywords, env, m).outcomes
            <= ProgressUpTo(cache, keys, blogId, keywords, env, n).outcomes
  {
    if m < n {
      OutcomesPrefix(cache, keys, blogId, keywords, env, m, n - 1);
      var a := ProgressUpTo(cache, keys, blogId, keywords, env, m).outcomes;
      var b := ProgressUpTo(cache, keys, blogId, keywords, env, n - 1).outcomes;
      var c := ProgressUpTo(cache, keys, blogId, keywords, env, n).outcomes;
      assert b == c[..|b|];
      assert a == c[..|a|] by {
        assert a == b[..|a|];
      }
    }
  }

  /** The result for keyword `j` is pushed once and never changed afterwards. */
  lemma AnalyzeResultAt(cache: map<string, Entry>, keys: seq<string>, blogId: string,
                        keywords: seq<string>, env: nat -> Call, n: nat, j: nat)
    requires j < n <= |keywords|
    ensures var rs := AnalyzeUpTo(cache, keys, blogId, keywords, env, n).results;
      j < |rs| && rs[j] == ResultFor(keywords[j], blogId, LookupAt(cache, keys, blogId, keywords, env, j).result)
  {
    OutcomesPrefix(cache, keys, blogId, keywords, env, j + 1, n);
    var outs := ProgressUpTo(cache, keys, blogId, keywords, env, j + 1).outcomes;
    assert outs[j] == LookupAt(cache, keys, blogId, keywords, env, j).result;
    assert ProgressUpTo(cache, keys, blogId, keywords, env, n).outcomes[j] == outs[j];
  }

  /** One result per keyword, in input order, each the entry for that
      keyword's own lookup; a failing keyword gets its error and no ranks, and
      the keywords after it are still processed. */
  lemma AnalyzeShape(cache: map<string, Entry>, keys: seq<string>, blogId: string,
                     keywords: seq<string>, env: nat -> Call)
    ensures var rs := AnalyzeUpTo(cache, keys, blogId, keywords, env, |keywords|).results;
      && |rs| == |keywords|
      && forall j :: 0 <= j < |keywords| ==>
           && rs[j] == ResultFor(keywords[j], blogId, LookupAt(cache, keys, blogId, keywords, env, j).result)
           && rs[j].keyword == keywords[j]
           && WellFormedResult(rs[j])
  {
    forall j | 0 <= j < |keywords|
      ensures AnalyzeUpTo(cache, keys, blogId, keywords, env, |keywords|).results[j]
           == ResultFor(keywords[j], blogId, LookupAt(cache, keys, blogId, keywords, env, j).result)
    {
      AnalyzeResultAt(cache, keys, blogId, keywords, env, |keywords|, j);
    }
  }

  /** A keyword whose request fails gets that request's message, and no posts. */
  lemma FailingKeywordIsolated(cache: map<string, Entry>, keys: seq<string>, blogId: string,
                               keywords: seq<string>, env: nat -> Call, j: nat)
    requires j < |keywords|
    requires LookupAt(cache, keys, blogId, keywords, env, j).result.Failure?
    ensures var rs := AnalyzeUpTo(cache, keys, blogId, keywords, env, |keywords|).results;
      && j < |rs|
      && rs[j].error == Some(LookupAt(cache, keys, blogId, keywords, env, j).result.error)
      && rs[j].posts == [] && rs[j].bestRank.None? && rs[j].averageRank.None? && rs[j].totalPosts == 0
  {
    AnalyzeResultAt(cache, keys, blogId, keywords, env, |keywords|, j);
  }

  // ---------------------------------------------------------------------------
  // The report

  /** `keywordResults.flatMap(result => result.posts)`. */
  function AllPosts(results: seq<KeywordResult>): (r: seq<RankPost>)
    ensures forall p :: p in r <==> exists j :: 0 <= j < |results| && p in results[j].posts
  {
    if |results| == 0 then []
    else
      var init := results[..|results| - 1];
      assert results == init + [results[|results| - 1]];
      var rest := AllPosts(init);
      assert forall p :: p in rest ==> exists j :: 0 <= j < |results| && p in results[j].posts by {
        forall p | p in rest ensures exists j :: 0 <= j < |results| && p in results[j].posts {
          var j :| 0 <= j < |init| && p in init[j].posts;
          assert results[j] == init[j];
        }
      }
      rest + results[|results| - 1].posts
  }

  /** `.filter(post => post.channelRank > 0)`. */
  function Ranked(posts: seq<RankPost>): (r: seq<RankPost>)
    ensures forall p :: p in r <==> p in posts && p.channelRank > 0
    ensures forall p :: multiset(r)[p] == if p.channelRank > 0 then multiset(posts)[p] else 0
    ensures IsSubsequenceOf(r, posts)
  {
    Filter(posts, (p: RankPost) => p.channelRank > 0)
  }

  function RankedPosts(results: seq<KeywordResult>): seq<RankPost> {
    Ranked(AllPosts(results))
  }

  predicate IsTop(p: RankPost) { p.channelRank <= 3 }
  predicate IsHigh(p: RankPost) { 4 <= p.channelRank <= 10 }
  predicate IsMedium(p: RankPost) { 11 <= p.channelRank <= 30 }
  predicate IsLow(p: RankPost) { p.channelRank >= 31 }

  /** `posts.filter(keep).length`. */
  function CountWhere(posts: seq<RankPost>, keep: RankPost -> bool): (n: nat)
    ensures n <= |posts|
  {
    if |posts| == 0 then 0
    else CountWhere(posts[..|posts| - 1], keep) + (if keep(posts[|posts| - 1]) then 1 else 0)
  }

  datatype RankDistribution = RankDistribution(top: nat, high: nat, medium: nat, low: nat)

  function DistributionOf(ranked: seq<RankPost>): RankDistribution {
    RankDistribution(CountWhere(ranked, IsTop), CountWhere(ranked, IsHigh),
      CountWhere(ranked, IsMedium), CountWhere(ranked, IsLow))
  }

  /** Over positive ranks the four bands partition the posts. */
  lemma {:induction false} DistributionPartitions(ranked: seq<RankPost>)
    requires forall p :: p in ranked ==> p.channelRank > 0
    ensures var d := DistributionOf(ranked); d.top + d.high + d.medium + d.low == |ranked|
  {
    if |ranked| > 0 {
      var init := ranked[..|ranked| - 1];
      assert ranked == init + [ranked[|ranked| - 1]];
      DistributionPartitions(init);
    }
  }

  /** `result.bestRank && result.bestRank <= 10`. */
  predicate IsTopKeyword(r: KeywordResult) {
    r.bestRank.Some? && r.bestRank.value.Finite? && 0 < r.bestRank.value.n <= 10
  }

  /** `result.totalPosts === 0 || (result.bestRank && result.bestRank > 30)`;
      `Infinity` is truthy and above 30. */
  predicate NeedsImprovement(r: KeywordResult) {
    r.totalPosts == 0 || (r.bestRank.Some? && (r.bestRank.value.Infinity? || r.bestRank.value.n > 30))
  }

  /** The sort key `a.bestRank || Infinity`; the results sorted all have a
      finite best rank, so the last case never orders anything. */
  function TopKey(r: KeywordResult): int {
    if r.bestRank.Some? && r.bestRank.value.Finite? then r.bestRank.value.n else 11
  }

  /** `.slice(0, n)`. */
  function Take<T>(s: seq<T>, n: nat): (r: seq<T>)
    ensures |r| == MinI(n, |s|) && r == s[..|r|]
  {
    s[..MinI(n, |s|)]
  }

  function TopKeywords(results: seq<KeywordResult>): seq<KeywordResult> {
    Take(SortBy(Filter(results, IsTopKeyword), TopKey), 5)
  }

  function ImproveKeywords(results: seq<KeywordResult>): seq<KeywordResult> {
    Take(Filter(results, NeedsImprovement), 5)
  }

  /** At most five top keywords, each one of the results with a best rank in
      1..10, in ascending order of best rank; when there are at most five
      candidates, all of them. */
  lemma TopKeywordsSpec(results: seq<KeywordResult>)
    ensures var top := TopKeywords(results);
      && |top| <= 5
      && (forall i :: 0 <= i < |top| ==> top[i] in results && IsTopKeyword(top[i]))
      && (forall i, j :: 0 <= i < j < |top| ==> top[i].bestRank.value.n <= top[j].bestRank.value.n)
      && (|Filter(results, IsTopKeyword)| <= 5 ==>
            forall r :: r in results && IsTopKeyword(r) ==> r in top)
  {
    TopKeywordsMembers(results);
    TopKeywordsOrdered(results);
    TopKeywordsComplete(results);
  }

  lemma TopKeywordsMembers(results: seq<KeywordResult>)
    ensures var top := TopKeywords(results);
      forall i :: 0 <= i < |top| ==> top[i] in results && IsTopKeyword(top[i])
  {
    var sorted := SortBy(Filter(results, IsTopKeyword), TopKey);
    var top := TopKeywords(results);
    forall i | 0 <= i < |top| ensures top[i] in results && IsTopKeyword(top[i]) {
      assert top[i] == sorted[i];
      assert sorted[i] in multiset(sorted);
    }
  }

  lemma TopKeywordsOrdered(results: seq<KeywordResult>)
    ensures var top := TopKeywords(results);
      forall i, j :: 0 <= i < j < |top| ==> TopKey(top[i]) <= TopKey(top[j])
  {
    var sorted := SortBy(Filter(results, IsTopKeyword), TopKey);
    var top := TopKeywords(results);
    forall i, j | 0 <= i < j < |top| ensures TopKey(top[i]) <= TopKey(top[j]) {
      assert top[i] == sorted[i] && top[j] == sorted[j];
    }
  }

  lemma TopKeywordsComplete(results: seq<KeywordResult>)
    ensures var top := TopKeywords(results);
      |Filter(results, IsTopKeyword)| <= 5 ==> forall r :: r in results && IsTopKeyword(r) ==> r in top
  {
    var candidates := Filter(results, IsTopKeyword);
    var sorted := SortBy(candidates, TopKey);
    var top := TopKeywords(results);
    if |candidates| <= 5 {
      assert top == sorted;
      forall r | r in results && IsTopKeyword(r) ensures r in top {
        assert r in multiset(candidates);
      }
    }
  }

  /** At most five keywords to improve, each one of the results without posts
      or whose best rank is beyond 30, in the results' order. */
  lemma ImproveKeywordsSpec(results: seq<KeywordResult>)
    ensures var improve := ImproveKeywords(results);
      && |improve| <= 5
      && improve == Filter(results, NeedsImprovement)[..|improve|]
      && forall i :: 0 <= i < |improve| ==> improve[i] in results && NeedsImprovement(improve[i])
  {
    var improve := ImproveKeywords(results);
    var all := Filter(results, NeedsImprovement);
    forall i | 0 <= i < |improve| ensures improve[i] in results && NeedsImprovement(improve[i]) {
      assert improve[i] == all[i];
    }
  }

  /** A keyword with posts is never both a top keyword and one to improve. */
  lemma TopNeverNeedsImprovement(r: KeywordResult)
    requires WellFormedResult(r) && IsTopKeyword(r)
    ensures !NeedsImprovement(r)
  {
  }

  datatype Summary = Summary(totalKeywords: nat, rankedKeywords: nat, totalRankedPosts: nat,
                             averageRank: Option<int>, bestRank: Option<nat>)

  predicate HasPosts(r: KeywordResult) { r.totalPosts > 0 }

  function RankValue(p: RankPost): real { p.channelRank as real }

  function SummaryOf(keywordCount: nat, results: seq<KeywordResult>): Summary {
    var ranked := RankedPosts(results);
    Summary(keywordCount, |Filter(results, HasPosts)|, |ranked|,
      if |ranked| > 0 then Some(RoundHalfUp(Mean(ranked, RankValue))) else None,
      if |ranked| > 0 then (match BestRank(ranked) case Finite(n) => Some(n) case Infinity => None) else None)
  }

  // ---------------------------------------------------------------------------
  // The recommendations

  const TopAdvice: string := "상위권(1-3위) 진입을 위해 콘텐츠 품질을 높이고 키워드 최적화를 강화하세요"
  const UnrankedAdvice: string := "순위권 밖 키워드가 많습니다. 해당 키워드로 새로운 포스트를 작성해보세요"
  const MediumAdvice: string := "중간 순위 포스트들이 많습니다. 내용을 보강하고 이미지를 추가하여 상위권으로 올려보세요"
  const KeepAdvice: string := "꾸준한 포스팅과 키워드 최적화로 현재 순위를 유지하세요"
  const EngageAdvice: string := "독자와의 상호작용을 늘려 블로그 활성도를 높이세요"

  predicate Unranked(r: KeywordResult) { r.totalPosts == 0 }

  /** `unrankedKeywords > keywordResults.length * 0.3`. */
  predicate ManyUnranked(results: seq<KeywordResult>) {
    |Filter(results, Unranked)| as real > |results| as real * 0.3
  }

  predicate MediumHeavy(d: RankDistribution) { d.medium > d.high + d.top }

  /** generateRankingRecommendations on values. */
  function RecommendationsOf(d: RankDistribution, results: seq<KeywordResult>): seq<string> {
    var specific := (if d.top < 3 then [TopAdvice] else [])
      + (if ManyUnranked(results) then [UnrankedAdvice] else [])
      + (if MediumHeavy(d) then [MediumAdvice] else []);
    if |specific| == 0 then [KeepAdvice, EngageAdvice] else specific
  }

  /** Each specific piece of advice appears exactly when its condition holds,
      the two general ones exactly when none does; so the list is never empty. */
  lemma RecommendationsSpec(d: RankDistribution, results: seq<KeywordResult>)
    ensures var r := RecommendationsOf(d, results);
      && 1 <= |r| <= 3
      && (TopAdvice in r <==> d.top < 3)
      && (UnrankedAdvice in r <==> ManyUnranked(results))
      && (MediumAdvice in r <==> MediumHeavy(d))
      && (KeepAdvice in r <==> !(d.top < 3 || ManyUnranked(results) || MediumHeavy(d)))
      && (KeepAdvice in r <==> EngageAdvice in r)
  {
    assert TopAdvice != UnrankedAdvice && TopAdvice != MediumAdvice && UnrankedAdvice != MediumAdvice;
    assert KeepAdvice != TopAdvice && KeepAdvice != UnrankedAdvice && KeepAdvice != MediumAdvice;
    assert EngageAdvice != TopAdvice && EngageAdvice != UnrankedAdvice && EngageAdvice != MediumAdvice;
    assert KeepAdvice != EngageAdvice;
  }

  /** The full report, less its `generatedAt` time stamp. */
  datatype Report = Report(summary: Summary, rankDistribution: RankDistribution,
                           topKeywords: seq<KeywordResult>, improveKeywords: seq<KeywordResult>,
                           keywordDetails: seq<KeywordResult>, recommendations: seq<string>)

  function ReportOf(keywordCount: nat, results: seq<KeywordResult>): Report {
    var d := DistributionOf(RankedPosts(results));
    Report(SummaryOf(keywordCount, results), d, TopKeywords(results), ImproveKeywords(results), results,
      RecommendationsOf(d, results))
  }

  /** The report's figures agree: the bands add up to the ranked posts, an
      average and a best rank exist exactly when some post is ranked, the best
      is at least 1 and at most the average, no more keywords are ranked than
      analysed, and the advice is never empty. */
  lemma ReportSpec(keywordCount: nat, results: seq<KeywordResult>)
    ensures var r := ReportOf(keywordCount, results);
      var s := r.summary;
      var d := r.rankDistribution;
      && d.top + d.high + d.medium + d.low == s.totalRankedPosts
      && (s.averageRank.Some? <==> s.totalRankedPosts > 0)
      && (s.bestRank.Some? <==> s.totalRankedPosts > 0)
      && (s.bestRank.Some? ==> 1 <= s.bestRank.value <= s.averageRank.value)
      && s.rankedKeywords <= |results|
      && |r.topKeywords| <= 5 && |r.improveKeywords| <= 5
      && |r.recommendations| > 0
  {
    var ranked := RankedPosts(results);
    DistributionPartitions(ranked);
    if |ranked| > 0 {
      BestAtMostRoundedMean(ranked, RankValue);
    }
    TopKeywordsSpec(results);
    ImproveKeywordsSpec(results);
    RecommendationsSpec(DistributionOf(ranked), results);
  }

  // ---------------------------------------------------------------------------
  // The client

  class RankingDataClient {
    var cache: map<string, Entry>
    var keys: seq<string>

    ghost predicate Valid()
      reads this
    {
      WellKeyed(cache, keys)
    }

    constructor()
      ensures cache == map[] && keys == [] && Valid()
    {
      cache := map[];
      keys := [];
    }

    /** getActualRankData: the cached data while it is fresh, otherwise the
        request's answer, stored on success. */
    method GetActualRankData(keyword: string, kind: string, blogId: string, call: Call) returns (r: Result<RankData>)
      requires Valid()
      modifies this
      ensures Valid()
      ensures Lookup(r, cache, keys) == RankDataStep(old(cache), old(keys), CacheKey(keyword, kind, blogId), call)
    {
      var key := CacheKey(keyword, kind, blogId);
      RankDataStepWellKeyed(cache, keys, key, call);
      if key in cache {
        var cached := cache[key];
        if call.checkedAt - cached.timestamp < CacheTimeout {
          return Success(cached.data);
        }
      }
      match call.outcome {
        case Thrown(m) =>
          r := Failure(m);
        case NotOk(e) =>
          r := Failure(if e != "" then e else RequestFailedMessage);
        case Answered(d) =>
          if key !in cache {
            keys := keys + [key];
          }
          cache := cache[key := Entry(d, call.storedAt)];
          r := Success(d);
      }
    }

    method ClearCache()
      modifies this
      ensures cache == map[] && keys == [] && Valid()
    {
      cache := map[];
      keys := [];
    }

    /** removeFromCache: deletes, while walking the keys, each one that starts
        with `keyword`. */
    method RemoveFromCache(keyword: string)
      requires Valid()
      modifies this
      ensures Valid()
      ensures cache == Pruned(old(cache), keyword) && keys == Unprefixed(old(keys), keyword)
    {
      var snapshot := keys;
      var i := 0;
      while i < |snapshot|
        invariant 0 <= i <= |snapshot|
        invariant CacheState(cache, keys) == RemoveUpTo(old(cache), snapshot, keyword, i)
      {
        var key := snapshot[i];
        if StartsWith(key, keyword) {
          cache := cache - {key};
          keys := Delete(keys, key);
        }
        i := i + 1;
      }
      RemoveUpToSpec(old(cache), snapshot, keyword, |snapshot|);
      RemoveBounds(old(cache), snapshot, keyword);
    }

    method GetCacheStats() returns (s: CacheStats)
      requires Valid()
      ensures s.totalCached == |cache| && s.cacheTimeout == CacheTimeout && s.entries == keys
      ensures |s.entries| == s.totalCached && forall k :: k in s.entries <==> k in cache
    {
      KeysCount(cache, keys);
      s := CacheStats(|cache|, CacheTimeout, keys);
    }

    /** analyzeBlogKeywordRankings: one request per keyword, `env(i)` being the
        environment of the `i`-th. */
    method AnalyzeBlogKeywordRankings(blogId: string, keywords: seq<string>, env: nat -> Call)
      returns (results: seq<KeywordResult>)
      requires Valid()
      modifies this
      ensures Valid()
      ensures Analysis(results, cache, keys) == AnalyzeUpTo(old(cache), old(keys), blogId, keywords, env, |keywords|)
    {
      results := [];
      var i := 0;
      while i < |keywords|
        invariant 0 <= i <= |keywords|
        invariant Valid()
        invariant Analysis(results, cache, keys) == AnalyzeUpTo(old(cache), old(keys), blogId, keywords, env, i)
      {
        var keyword := keywords[i];
        ghost var lookup := LookupAt(old(cache), old(keys), blogId, keywords, env, i);
        var rankData := GetActualRankData(keyword, "rank", blogId, env(i));
        assert Lookup(rankData, cache, keys) == lookup;
        var entry := ResultFor(keyword, blogId, rankData);
        results := results + [entry];
        AnalyzeStep(old(cache), old(keys), blogId, keywords, env, i);
        i := i + 1;
      }
    }

    /** generateRankingReport. */
    method GenerateRankingReport(blogId: string, keywords: seq<string>, env: nat -> Call) returns (report: Report)
      requires Valid()
      modifies this
      ensures Valid()
      ensures var a := AnalyzeUpTo(old(cache), old(keys), blogId, keywords, env, |keywords|);
        report == ReportOf(|keywords|, a.results) && cache == a.cache && keys == a.keys
    {
      var keywordResults := AnalyzeBlogKeywordRankings(blogId, keywords, env);
      var d := DistributionOf(RankedPosts(keywordResults));
      var recommendations := GenerateRankingRecommendations(d, keywordResults);
      report := Report(SummaryOf(|keywords|, keywordResults), d, TopKeywords(keywordResults),
        ImproveKeywords(keywordResults), keywordResults, recommendations);
    }
  }

  /** generateRankingRecommendations: pushes the advice one by one. */
  method GenerateRankingRecommendations(d: RankDistribution, results: seq<KeywordResult>) returns (recs: seq<string>)
    ensures recs == RecommendationsOf(d, results)
  {
    recs := [];
    if d.top < 3 {
      recs := recs + [TopAdvice];
    }
    var unranked := |Filter(results, Unranked)|;
    if unranked as real > |results| as real * 0.3 {
      recs := recs + [UnrankedAdvice];
    }
    if d.medium > d.high + d.top {
      recs := recs + [MediumAdvice];
    }
    if |recs| == 0 {
      recs := recs + [KeepAdvice];
      recs := recs + [EngageAdvice];
    }
  }
}
