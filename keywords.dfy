/** Keyword frequency analysis shared by the scoring engine and the analysis
    route. Three copies exist in the source (`extractAutoKeywords`,
    `extractTopKeywords`, `calculateValidKeywords`); they differ only in the
    longest word they count and in how many keywords they keep, so one model
    serves all three:

      text.match(/[가-힣]{2,}/g)      -> HangulWords
      forEach: wordFreq[w] = (wordFreq[w] || 0) + 1     -> CountWords (a loop)
      Object.entries(wordFreq).filter(count >= 3)       -> Frequent(Tally(..))
      .sort((a, b) => b - a).slice(0, limit)            -> SortBy, take */
module Keywords {
  import opened Common
  import opened Text
  import opened Sorting

  /** The least number of occurrences that makes a word a keyword. */
  const MinFrequency: nat := 3

  /** Occurrences of `w` in `words`. */
  function Count(words: seq<string>, w: string): (n: nat)
    ensures n > 0 <==> w in words
    ensures n <= |words|
  {
    if |words| == 0 then 0
    else
      assert words == words[..|words| - 1] + [words[|words| - 1]];
      Count(words[..|words| - 1], w) + (if words[|words| - 1] == w then 1 else 0)
  }

  predicate NoDup<T(==)>(s: seq<T>) {
    forall i, j :: 0 <= i < j < |s| ==> s[i] != s[j]
  }

  /** The words in order of first occurrence: the key order of a JavaScript
      object filled by the counting loop (no key is an array index). */
  function Distinct(words: seq<string>): (r: seq<string>)
    ensures forall w :: w in r <==> w in words
    ensures NoDup(r)
  {
    if |words| == 0 then []
    else
      var d := Distinct(words[..|words| - 1]);
      var last := words[|words| - 1];
      assert words == words[..|words| - 1] + [last];
      if last in d then d else d + [last]
  }

  /** The length filter of the counting loop; `None` counts every word. */
  predicate Fits(w: string, maxLen: Option<nat>) {
    maxLen.None? || |w| <= maxLen.value
  }

  /** The words the counting loop counts. */
  function Eligible(words: seq<string>, maxLen: Option<nat>): (r: seq<string>)
    ensures forall w :: w in r <==> w in words && Fits(w, maxLen)
  {
    if |words| == 0 then []
    else
      var init, last := words[..|words| - 1], words[|words| - 1];
      assert words == init + [last];
      if Fits(last, maxLen) then Eligible(init, maxLen) + [last] else Eligible(init, maxLen)
  }

  /** The length filter does not change how often a word that passes it occurs. */
  lemma {:induction false} CountEligible(words: seq<string>, maxLen: Option<nat>, w: string)
    requires Fits(w, maxLen)
    ensures Count(Eligible(words, maxLen), w) == Count(words, w)
  {
    if |words| > 0 {
      var init, last := words[..|words| - 1], words[|words| - 1];
      CountEligible(init, maxLen, w);
      if Fits(last, maxLen) {
        assert (Eligible(init, maxLen) + [last])[..|Eligible(init, maxLen)|] == Eligible(init, maxLen);
      }
    }
  }

  /** One entry of `Object.entries(wordFreq)`. */
  datatype Entry = Entry(word: string, count: nat)

  /** `Object.entries(wordFreq)` once every word has been counted. */
  function Tally(words: seq<string>): (r: seq<Entry>)
    ensures forall e :: e in r ==> e.word in words && e.count == Count(words, e.word)
    ensures forall w :: w in words ==> Entry(w, Count(words, w)) in r
  {
    var d := Distinct(words);
    var r := seq(|d|, i requires 0 <= i < |d| => Entry(d[i], Count(words, d[i])));
    assert forall w :: w in words ==> Entry(w, Count(words, w)) in r by {
      forall w | w in words ensures Entry(w, Count(words, w)) in r {
        var i :| 0 <= i < |d| && d[i] == w;
        assert r[i] == Entry(w, Count(words, w));
      }
    }
    r
  }

  function WordsOf(es: seq<Entry>): (r: seq<string>)
    ensures |r| == |es|
  {
    seq(|es|, i requires 0 <= i < |es| => es[i].word)
  }

  lemma TallyNoDupWords(words: seq<string>)
    ensures NoDup(WordsOf(Tally(words)))
  {
    assert WordsOf(Tally(words)) == Distinct(words);
  }

  /** `.filter(([_, count]) => count >= min)`. */
  function Frequent(es: seq<Entry>, min: nat): (r: seq<Entry>)
    ensures forall e :: e in r <==> e in es && e.count >= min
    ensures |r| <= |es|
  {
    if |es| == 0 then []
    else
      var init, last := es[..|es| - 1], es[|es| - 1];
      assert es == init + [last];
      if last.count >= min then Frequent(init, min) + [last] else Frequent(init, min)
  }

  lemma {:induction false} FrequentNoDupWords(es: seq<Entry>, min: nat)
    requires NoDup(WordsOf(es))
    ensures NoDup(WordsOf(Frequent(es, min)))
  {
    if |es| > 0 {
      var init, last := es[..|es| - 1], es[|es| - 1];
      assert WordsOf(init) == WordsOf(es)[..|es| - 1];
      FrequentNoDupWords(init, min);
      if last.count >= min {
        var f := Frequent(init, min);
        forall i | 0 <= i < |f| ensures f[i].word != last.word {
          assert f[i] in init;
          var j :| 0 <= j < |init| && init[j] == f[i];
          assert WordsOf(es)[j] == f[i].word && WordsOf(es)[|es| - 1] == last.word;
        }
        assert WordsOf(f + [last]) == WordsOf(f) + [last.word];
      }
    }
  }

  /** The sort key of `.sort(([, a], [, b]) => b - a)`: most frequent first. */
  function ByCountDesc(e: Entry): int {
    -(e.count as int)
  }

  /** The filter, the stable sort by descending count and `.slice(0, limit)`. */
  function RankEntries(tally: seq<Entry>, limit: nat): seq<string> {
    var ranked := SortBy(Frequent(tally, MinFrequency), ByCountDesc);
    WordsOf(ranked[..MinI(limit, |ranked|)])
  }

  /** The keywords of a word list: at most `limit` words of at most `maxLen`
      characters occurring at least three times, most frequent first. */
  function TopWords(words: seq<string>, maxLen: Option<nat>, limit: nat): seq<string> {
    RankEntries(Tally(Eligible(words, maxLen)), limit)
  }

  /** `Object.entries(wordFreq).filter(count >= 3).length` with no length filter. */
  function FrequentCount(words: seq<string>): nat {
    |Frequent(Tally(words), MinFrequency)|
  }

  lemma CountSnoc(s: seq<string>, x: string, w: string)
    ensures Count(s + [x], w) == Count(s, w) + (if x == w then 1 else 0)
  {
    assert (s + [x])[..|s|] == s;
  }

  lemma DistinctSnoc(s: seq<string>, x: string)
    ensures Distinct(s + [x]) == if x in Distinct(s) then Distinct(s) else Distinct(s) + [x]
  {
    assert (s + [x])[..|s|] == s;
  }

  lemma EligibleSnoc(s: seq<string>, x: string, maxLen: Option<nat>)
    ensures Eligible(s + [x], maxLen) == if Fits(x, maxLen) then Eligible(s, maxLen) + [x] else Eligible(s, maxLen)
  {
    assert (s + [x])[..|s|] == s;
  }

  lemma EligiblePrefix(words: seq<string>, i: nat, maxLen: Option<nat>)
    requires i < |words|
    ensures Eligible(words[..i + 1], maxLen)
            == if Fits(words[i], maxLen) then Eligible(words[..i], maxLen) + [words[i]] else Eligible(words[..i], maxLen)
  {
    assert words[..i + 1] == words[..i] + [words[i]];
    EligibleSnoc(words[..i], words[i], maxLen);
  }

  /** What the counting loop knows about the words counted so far. */
  ghost predicate Counted(seen: seq<string>, order: seq<string>, freq: map<string, nat>) {
    && order == Distinct(seen)
    && (forall w :: w in freq <==> w in order)
    && (forall w :: w in freq ==> freq[w] == Count(seen, w))
  }

  /** `wordFreq[w] = (wordFreq[w] || 0) + 1`. */
  function Bump(freq: map<string, nat>, w: string): map<string, nat> {
    freq[w := (if w in freq then freq[w] else 0) + 1]
  }

  lemma BumpCounts(seen: seq<string>, order: seq<string>, freq: map<string, nat>, w: string)
    requires Counted(seen, order, freq)
    ensures Counted(seen + [w], if w in freq then order else order + [w], Bump(freq, w))
  {
    DistinctSnoc(seen, w);
    forall x | x in Bump(freq, w) ensures Bump(freq, w)[x] == Count(seen + [w], x) {
      CountSnoc(seen, w, x);
    }
  }

  /** The counting loop of every copy: `wordFreq[w] = (wordFreq[w] || 0) + 1`
      for each word that fits, with the object's key order kept in `order`. */
  method CountWords(words: seq<string>, maxLen: Option<nat>) returns (order: seq<string>, freq: map<string, nat>)
    ensures order == Distinct(Eligible(words, maxLen))
    ensures forall w :: w in freq <==> w in order
    ensures forall w :: w in freq ==> freq[w] == Count(Eligible(words, maxLen), w)
  {
    order, freq := [], map[];
    var i := 0;
    while i < |words|
      invariant 0 <= i <= |words|
      invariant Counted(Eligible(words[..i], maxLen), order, freq)
    {
      var w := words[i];
      EligiblePrefix(words, i, maxLen);
      if Fits(w, maxLen) {
        BumpCounts(Eligible(words[..i], maxLen), order, freq, w);
        if w !in freq {
          order := order + [w];
        }
        freq := Bump(freq, w);
      }
      i := i + 1;
    }
    assert words[..|words|] == words;
  }

  /** The whole keyword extraction of `extractAutoKeywords` (maxLen 10,
      limit 10) and of `extractTopKeywords` (maxLen 6, limit 8). */
  method RankKeywords(text: string, maxLen: nat, limit: nat) returns (r: seq<string>)
    ensures r == TopWords(HangulWords(text), Some(maxLen), limit)
  {
    var words := HangulWords(text);
    var order, freq := CountWords(words, Some(maxLen));
    var tally := seq(|order|, i requires 0 <= i < |order| => Entry(order[i], freq[order[i]]));
    assert tally == Tally(Eligible(words, Some(maxLen)));
    r := RankEntries(tally, limit);
  }

  /** `calculateValidKeywords` after its empty-input guard. */
  method CountFrequentWords(text: string) returns (n: nat)
    ensures n == FrequentCount(HangulWords(text))
  {
    var words := HangulWords(text);
    var order, freq := CountWords(words, None);
    var tally := seq(|order|, i requires 0 <= i < |order| => Entry(order[i], freq[order[i]]));
    assert Eligible(words, None) == words by {
      EligibleNone(words);
    }
    assert tally == Tally(words);
    n := |Frequent(tally, MinFrequency)|;
  }

  lemma {:induction false} EligibleNone(words: seq<string>)
    ensures Eligible(words, None) == words
  {
    if |words| > 0 {
      EligibleNone(words[..|words| - 1]);
      assert words == words[..|words| - 1] + [words[|words| - 1]];
    }
  }

  // ---------------------------------------------------------------------------
  // What the keyword list promises

  lemma {:induction false} NoDupMultiset<T>(s: seq<T>, x: T)
    requires NoDup(s)
    ensures multiset(s)[x] <= 1
  {
    if |s| > 0 {
      var init, last := s[..|s| - 1], s[|s| - 1];
      assert s == init + [last];
      assert NoDup(init);
      NoDupMultiset(init, x);
      if x == last {
        assert x !in init;
      }
    }
  }

  lemma NoDupFromMultiset<T>(a: seq<T>, b: seq<T>)
    requires multiset(a) == multiset(b)
    requires NoDup(b)
    ensures NoDup(a)
  {
    forall i, j | 0 <= i < j < |a| ensures a[i] != a[j] {
      if a[i] == a[j] {
        var x := a[i];
        assert a == a[..j] + [a[j]] + a[j + 1..];
        assert x in a[..j];
        assert multiset(a)[x] == multiset(a[..j])[x] + 1 + multiset(a[j + 1..])[x];
        NoDupMultiset(b, x);
        assert false;
      }
    }
  }

  /** The entries that survive the filter, sorted by descending count. */
  function Ranked(words: seq<string>, maxLen: Option<nat>): seq<Entry> {
    SortBy(Frequent(Tally(Eligible(words, maxLen)), MinFrequency), ByCountDesc)
  }

  /** Every ranked entry is a fitting word of the input with its true count. */
  lemma RankedMembers(words: seq<string>, maxLen: Option<nat>, i: nat)
    requires i < |Ranked(words, maxLen)|
    ensures var e := Ranked(words, maxLen)[i];
      e.word in words && Fits(e.word, maxLen) && e.count == Count(words, e.word) >= MinFrequency
  {
    var ranked := Ranked(words, maxLen);
    var elig := Eligible(words, maxLen);
    assert ranked[i] in multiset(ranked);
    assert ranked[i] in Frequent(Tally(elig), MinFrequency);
    assert ranked[i] in Tally(elig);
    CountEligible(words, maxLen, ranked[i].word);
  }

  /** No word is ranked twice. */
  lemma RankedNoDup(words: seq<string>, maxLen: Option<nat>)
    ensures NoDup(WordsOf(Ranked(words, maxLen)))
  {
    var ranked := Ranked(words, maxLen);
    var freqEs := Frequent(Tally(Eligible(words, maxLen)), MinFrequency);
    TallyNoDupWords(Eligible(words, maxLen));
    FrequentNoDupWords(Tally(Eligible(words, maxLen)), MinFrequency);
    NoDupWordsNoDup(freqEs);
    NoDupFromMultiset(ranked, freqEs);
    forall i, j | 0 <= i < j < |ranked| ensures ranked[i].word != ranked[j].word {
      RankedMembers(words, maxLen, i);
      RankedMembers(words, maxLen, j);
    }
  }

  /** Every fitting word that occurs at least three times is ranked. */
  lemma RankedComplete(words: seq<string>, maxLen: Option<nat>, w: string) returns (p: nat)
    requires w in words && Fits(w, maxLen) && Count(words, w) >= MinFrequency
    ensures p < |Ranked(words, maxLen)| && Ranked(words, maxLen)[p].word == w
  {
    var elig := Eligible(words, maxLen);
    CountEligible(words, maxLen, w);
    var entry := Entry(w, Count(elig, w));
    assert entry in Tally(elig);
    assert entry in Frequent(Tally(elig), MinFrequency);
    assert entry in multiset(Ranked(words, maxLen));
    p :| 0 <= p < |Ranked(words, maxLen)| && Ranked(words, maxLen)[p] == entry;
  }

  /** The keyword list keeps its promise: at most `limit` words, each of at
      most `maxLen` characters and occurring at least three times, no word
      twice, most frequent first, and no left-out word more frequent than a
      kept one (one is left out only when the list is full). */
  lemma TopWordsSpec(words: seq<string>, maxLen: Option<nat>, limit: nat)
    ensures var r := TopWords(words, maxLen, limit);
      && |r| <= limit
      && (forall i :: 0 <= i < |r| ==> r[i] in words && Fits(r[i], maxLen) && Count(words, r[i]) >= MinFrequency)
      && NoDup(r)
      && (forall i, j :: 0 <= i < j < |r| ==> Count(words, r[i]) >= Count(words, r[j]))
      && (forall w :: w in words && Fits(w, maxLen) && Count(words, w) >= MinFrequency && w !in r ==>
            |r| == limit && forall i :: 0 <= i < |r| ==> Count(words, r[i]) >= Count(words, w))
  {
    TopWordsMembers(words, maxLen, limit);
    TopWordsOrdered(words, maxLen, limit);
    TopWordsComplete(words, maxLen, limit);
  }

  lemma TopWordsMembers(words: seq<string>, maxLen: Option<nat>, limit: nat)
    ensures var r := TopWords(words, maxLen, limit);
      && |r| <= limit
      && (forall i :: 0 <= i < |r| ==> r[i] in words && Fits(r[i], maxLen) && Count(words, r[i]) >= MinFrequency)
      && NoDup(r)
  {
    var ranked := Ranked(words, maxLen);
    var m := MinI(limit, |ranked|);
    var r := WordsOf(ranked[..m]);
    assert r == TopWords(words, maxLen, limit);
    forall i | 0 <= i < |r|
      ensures r[i] in words && Fits(r[i], maxLen) && Count(words, r[i]) >= MinFrequency
    {
      RankedMembers(words, maxLen, i);
    }
    RankedNoDup(words, maxLen);
    assert forall i :: 0 <= i < |r| ==> r[i] == WordsOf(ranked)[i];
  }

  lemma TopWordsOrdered(words: seq<string>, maxLen: Option<nat>, limit: nat)
    ensures var r := TopWords(words, maxLen, limit);
      forall i, j :: 0 <= i < j < |r| ==> Count(words, r[i]) >= Count(words, r[j])
  {
    var ranked := Ranked(words, maxLen);
    var m := MinI(limit, |ranked|);
    var r := WordsOf(ranked[..m]);
    assert r == TopWords(words, maxLen, limit);
    forall i, j | 0 <= i < j < |r| ensures Count(words, r[i]) >= Count(words, r[j]) {
      RankedMembers(words, maxLen, i);
      RankedMembers(words, maxLen, j);
      assert ByCountDesc(ranked[i]) <= ByCountDesc(ranked[j]);
    }
  }

  lemma TopWordsComplete(words: seq<string>, maxLen: Option<nat>, limit: nat)
    ensures var r := TopWords(words, maxLen, limit);
      forall w :: w in words && Fits(w, maxLen) && Count(words, w) >= MinFrequency && w !in r ==>
        |r| == limit && forall i :: 0 <= i < |r| ==> Count(words, r[i]) >= Count(words, w)
  {
    var ranked := Ranked(words, maxLen);
    var m := MinI(limit, |ranked|);
    var r := WordsOf(ranked[..m]);
    assert r == TopWords(words, maxLen, limit);
    WordsOfTake(ranked, m);
    forall w | w in words && Fits(w, maxLen) && Count(words, w) >= MinFrequency && w !in r
      ensures |r| == limit && forall i :: 0 <= i < |r| ==> Count(words, r[i]) >= Count(words, w)
    {
      var p := RankedComplete(words, maxLen, w);
      RankedMembers(words, maxLen, p);
      forall i | 0 <= i < |r| ensures Count(words, r[i]) >= Count(words, w) {
        RankedMembers(words, maxLen, i);
        assert ByCountDesc(ranked[i]) <= ByCountDesc(ranked[p]);
      }
    }
  }

  lemma WordsOfTake(es: seq<Entry>, m: nat)
    requires m <= |es|
    ensures forall p :: 0 <= p < m ==> es[p].word in WordsOf(es[..m])
  {
    forall p | 0 <= p < m ensures es[p].word in WordsOf(es[..m]) {
      assert WordsOf(es[..m])[p] == es[p].word;
    }
  }

  lemma NoDupWordsNoDup(es: seq<Entry>)
    requires NoDup(WordsOf(es))
    ensures NoDup(es)
  {
    forall i, j | 0 <= i < j < |es| ensures es[i] != es[j] {
      assert WordsOf(es)[i] != WordsOf(es)[j];
    }
  }

  lemma {:induction false} NoDupSetCard(s: seq<string>)
    requires NoDup(s)
    ensures |set w | w in s| == |s|
  {
    if |s| > 0 {
      var init, last := s[..|s| - 1], s[|s| - 1];
      assert NoDup(init);
      NoDupSetCard(init);
      assert s == init + [last];
      assert (set w | w in s) == (set w | w in init) + {last};
      assert last !in (set w | w in init);
    }
  }

  /** The number of valid keywords is never smaller than the number of
      automatic keywords: every automatic keyword is a valid keyword. */
  lemma ValidCountBoundsKeywords(words: seq<string>, maxLen: nat, limit: nat)
    ensures |TopWords(words, Some(maxLen), limit)| <= FrequentCount(words)
  {
    var r := TopWords(words, Some(maxLen), limit);
    TopWordsMembers(words, Some(maxLen), limit);
    var valid := WordsOf(Frequent(Tally(words), MinFrequency));
    TallyNoDupWords(words);
    FrequentNoDupWords(Tally(words), MinFrequency);
    forall w | w in r ensures w in valid {
      FrequentWordListed(words, w);
    }
    NoDupSetCard(r);
    NoDupSetCard(valid);
    SubsetCard(set w | w in r, set w | w in valid);
  }

  /** A word occurring at least three times is among the frequent words. */
  lemma FrequentWordListed(words: seq<string>, w: string)
    requires w in words && Count(words, w) >= MinFrequency
    ensures w in WordsOf(Frequent(Tally(words), MinFrequency))
  {
    var entry := Entry(w, Count(words, w));
    assert entry in Tally(words);
    assert entry in Frequent(Tally(words), MinFrequency);
    var j :| 0 <= j < |Frequent(Tally(words), MinFrequency)| && Frequent(Tally(words), MinFrequency)[j] == entry;
    assert WordsOf(Frequent(Tally(words), MinFrequency))[j] == w;
  }

  lemma SubsetCard<T>(a: set<T>, b: set<T>)
    requires a <= b
    ensures |a| <= |b|
  {
    assert b == a + (b - a);
  }
}
