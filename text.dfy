/** The JavaScript string operations and the regular-expression scans the
    crawler and the scoring engine rely on, each written out as a function on
    `seq<char>` with the leftmost-match semantics of the JavaScript engine. */
module Text {
  import opened Common

  // ---------------------------------------------------------------------------
  // Searching

  /** `sub` occurs in `s` starting at index `i`. */
  predicate OccursAt(s: string, sub: string, i: nat) {
    i + |sub| <= |s| && s[i..i + |sub|] == sub
  }

  /** `s.indexOf(sub, from)`: the first occurrence at or after `from`. */
  function IndexOfFrom(s: string, sub: string, from: nat): (r: Option<nat>)
    decreases |s| - from
    ensures r.Some? ==> from <= r.value && OccursAt(s, sub, r.value)
    ensures r.Some? ==> forall j :: from <= j < r.value ==> !OccursAt(s, sub, j)
    ensures r.None? ==> forall j :: from <= j ==> !OccursAt(s, sub, j)
  {
    if from + |sub| > |s| then None
    else if OccursAt(s, sub, from) then Some(from)
    else IndexOfFrom(s, sub, from + 1)
  }

  function IndexOf(s: string, sub: string): Option<nat> {
    IndexOfFrom(s, sub, 0)
  }

  /** `s.includes(sub)`. */
  predicate Includes(s: string, sub: string) {
    IndexOf(s, sub).Some?
  }

  lemma IncludesAt(s: string, sub: string, i: nat)
    requires OccursAt(s, sub, i)
    ensures Includes(s, sub)
  {
  }

  /** `includes` holds exactly when there is an occurrence. */
  lemma IncludesIff(s: string, sub: string)
    ensures Includes(s, sub) <==> exists i: nat :: OccursAt(s, sub, i)
  {
    if Includes(s, sub) {
      assert OccursAt(s, sub, IndexOf(s, sub).value);
    }
  }

  /** An occurrence inside a part is an occurrence inside the whole. */
  lemma IncludesInConcat(a: string, b: string, sub: string)
    requires Includes(a, sub) || Includes(b, sub)
    ensures Includes(a + b, sub)
  {
    if Includes(a, sub) {
      var i := IndexOf(a, sub).value;
      assert (a + b)[i..i + |sub|] == a[i..i + |sub|];
      IncludesAt(a + b, sub, i);
    } else {
      var i := IndexOf(b, sub).value;
      assert (a + b)[|a| + i..|a| + i + |sub|] == b[i..i + |sub|];
      IncludesAt(a + b, sub, |a| + i);
    }
  }

  /** `s.startsWith(p)`. */
  predicate StartsWith(s: string, p: string) {
    p <= s
  }

  predicate EndsWith(s: string, suffix: string) {
    |suffix| <= |s| && s[|s| - |suffix|..] == suffix
  }

  /** `s.replace(/suffix$/, '')`: drops the suffix when the string ends with it. */
  function StripSuffix(s: string, suffix: string): (r: string)
    ensures EndsWith(s, suffix) ==> r + suffix == s
    ensures !EndsWith(s, suffix) ==> r == s
  {
    if EndsWith(s, suffix) then s[..|s| - |suffix|] else s
  }

  /** `s.replace(pat, rep)` with a string pattern: only the first occurrence is replaced. */
  function ReplaceFirst(s: string, pat: string, rep: string): string {
    match IndexOf(s, pat)
    case None => s
    case Some(k) => s[..k] + rep + s[k + |pat|..]
  }

  /** Number of occurrences of the character `c`. */
  function CharCount(s: string, c: char): nat {
    if |s| == 0 then 0 else CharCount(s[..|s| - 1], c) + (if s[|s| - 1] == c then 1 else 0)
  }

  lemma {:induction false} CharCountAppend(a: string, b: string, c: char)
    ensures CharCount(a + b, c) == CharCount(a, c) + CharCount(b, c)
  {
    if |b| > 0 {
      assert (a + b)[..|a + b| - 1] == a + b[..|b| - 1];
      CharCountAppend(a, b[..|b| - 1], c);
    } else {
      assert a + b == a;
    }
  }

  /** Replacing the first occurrence of `pat` trades the characters of `pat`
      for those of `rep` and leaves the rest of the string alone; without an
      occurrence nothing changes. */
  lemma ReplaceFirstCharCount(s: string, pat: string, rep: string, c: char)
    ensures Includes(s, pat) ==>
      CharCount(ReplaceFirst(s, pat, rep), c) + CharCount(pat, c) == CharCount(s, c) + CharCount(rep, c)
    ensures !Includes(s, pat) ==> ReplaceFirst(s, pat, rep) == s
  {
    if Includes(s, pat) {
      var k := IndexOf(s, pat).value;
      var pre, post := s[..k], s[k + |pat|..];
      assert s == pre + pat + post;
      CharCountAppend(pre + pat, post, c);
      CharCountAppend(pre, pat, c);
      CharCountAppend(pre + rep, post, c);
      CharCountAppend(pre, rep, c);
    }
  }

  /** `s.match(/lit/g).length`: the number of non-overlapping occurrences from `from`. */
  function CountOccurrencesFrom(s: string, lit: string, from: nat): nat
    requires |lit| > 0
    decreases |s| - from
  {
    match IndexOfFrom(s, lit, from)
    case None => 0
    case Some(k) => 1 + CountOccurrencesFrom(s, lit, k + |lit|)
  }

  function CountOccurrences(s: string, lit: string): nat
    requires |lit| > 0
  {
    CountOccurrencesFrom(s, lit, 0)
  }

  /** The count is zero exactly when the literal does not occur. */
  lemma CountOccurrencesZero(s: string, lit: string)
    requires |lit| > 0
    ensures CountOccurrences(s, lit) == 0 <==> !Includes(s, lit)
  {
  }

  // ---------------------------------------------------------------------------
  // Case and white space

  predicate IsUpperAscii(c: char) { 'A' <= c <= 'Z' }

  /** `toLowerCase` on one character (ASCII letters only; see README). */
  function LowerChar(c: char): (r: char)
    ensures !IsUpperAscii(r)
    ensures IsUpperAscii(c) ==> r as int == c as int + 32
    ensures !IsUpperAscii(c) ==> r == c
  {
    if IsUpperAscii(c) then (c as int + 32) as char else c
  }

  function ToLower(s: string): (r: string)
    ensures |r| == |s|
  {
    seq(|s|, i requires 0 <= i < |s| => LowerChar(s[i]))
  }

  predicate NoUpperAscii(s: string) {
    forall i :: 0 <= i < |s| ==> !IsUpperAscii(s[i])
  }

  /** Lower-casing leaves no upper-case letter and changes nothing else. */
  lemma ToLowerSpec(s: string)
    ensures NoUpperAscii(ToLower(s))
    ensures NoUpperAscii(s) ==> ToLower(s) == s
    ensures ToLower(ToLower(s)) == ToLower(s)
  {
  }

  lemma ToLowerAppend(a: string, b: string)
    ensures ToLower(a + b) == ToLower(a) + ToLower(b)
  {
  }

  /** A keyword without upper-case letters found in a text is still found in
      the lower-cased text: the category heuristics never miss a Korean keyword
      because of lower-casing. */
  lemma IncludesSurvivesLower(s: string, kw: string)
    requires NoUpperAscii(kw)
    requires Includes(s, kw)
    ensures Includes(ToLower(s), kw)
  {
    var i := IndexOf(s, kw).value;
    assert ToLower(s)[i..i + |kw|] == ToLower(s[i..i + |kw|]);
    ToLowerSpec(kw);
    IncludesAt(ToLower(s), kw, i);
  }

  /** The characters `String.prototype.trim` and `\s` treat as white space. */
  predicate IsJsSpace(c: char) {
    c == ' ' || c == '\t' || c == '\n' || c == '\r' || c == '\U{B}' || c == '\U{C}'
    || c == '\U{A0}' || c == '\U{FEFF}' || c == '\U{1680}' || ('\U{2000}' <= c <= '\U{200A}')
    || c == '\U{2028}' || c == '\U{2029}' || c == '\U{202F}' || c == '\U{205F}' || c == '\U{3000}'
  }

  function TrimStart(s: string): (r: string)
    ensures |r| <= |s| && r == s[|s| - |r|..]
    ensures forall k :: 0 <= k < |s| - |r| ==> IsJsSpace(s[k])
    ensures |r| > 0 ==> !IsJsSpace(r[0])
  {
    if |s| > 0 && IsJsSpace(s[0]) then TrimStart(s[1..]) else s
  }

  function TrimEnd(s: string): (r: string)
    ensures |r| <= |s| && r == s[..|r|]
    ensures forall k :: |r| <= k < |s| ==> IsJsSpace(s[k])
    ensures |r| > 0 ==> !IsJsSpace(r[|r| - 1])
  {
    if |s| > 0 && IsJsSpace(s[|s| - 1]) then TrimEnd(s[..|s| - 1]) else s
  }

  /** `s.trim()`: white space removed from both ends. */
  function Trim(s: string): (r: string)
    ensures |r| <= |s|
    ensures |r| > 0 ==> !IsJsSpace(r[0]) && !IsJsSpace(r[|r| - 1])
  {
    TrimEnd(TrimStart(s))
  }

  /** What trimming keeps is the infix of `s` that only white space surrounds. */
  lemma TrimIsInfix(s: string)
    ensures exists i: nat ::
              OccursAt(s, Trim(s), i)
              && (forall k :: 0 <= k < i ==> IsJsSpace(s[k]))
              && (forall k :: i + |Trim(s)| <= k < |s| ==> IsJsSpace(s[k]))
  {
    var t := TrimStart(s);
    var r := TrimEnd(t);
    var i := |s| - |t|;
    assert r == s[i..i + |r|];
    assert forall k :: i + |r| <= k < |s| ==> s[k] == t[k - i];
    assert r == Trim(s);
    assert forall k :: 0 <= k < i ==> IsJsSpace(s[k]);
    assert OccursAt(s, r, i);
  }

  /** The end of the run of white space starting at `j` (what `\s*` consumes). */
  function SpaceEnd(s: string, j: nat): (k: nat)
    requires j <= |s|
    decreases |s| - j
    ensures j <= k <= |s| && (k == |s| || !IsJsSpace(s[k]))
    ensures forall m :: j <= m < k ==> IsJsSpace(s[m])
  {
    if j == |s| || !IsJsSpace(s[j]) then j else SpaceEnd(s, j + 1)
  }

  /** A run of white space from `j` ended at `k` by a non-space or the end of the text. */
  lemma SpaceEndAt(s: string, j: nat, k: nat)
    requires j <= k <= |s|
    requires forall m :: j <= m < k ==> IsJsSpace(s[m])
    requires k == |s| || !IsJsSpace(s[k])
    ensures SpaceEnd(s, j) == k
  {
  }

  predicate NoSpace(s: string) {
    forall i :: 0 <= i < |s| ==> !IsJsSpace(s[i])
  }

  /** Trimming a string without white space, or one already trimmed, changes nothing. */
  lemma TrimSpec(s: string)
    ensures NoSpace(s) ==> Trim(s) == s
    ensures Trim(Trim(s)) == Trim(s)
  {
    var r := Trim(s);
    if |r| > 0 {
      assert TrimStart(r) == r;
      assert TrimEnd(r) == r;
    }
  }

  // ---------------------------------------------------------------------------
  // Numbers as text

  predicate IsDigit(c: char) { '0' <= c <= '9' }

  function DigitChar(d: nat): (c: char)
    requires d < 10
    ensures IsDigit(c)
  {
    ('0' as int + d) as char
  }

  /** `String(n)` for a non-negative integer. */
  function NatToString(n: nat): (r: string)
    ensures |r| >= 1
    ensures forall i :: 0 <= i < |r| ==> IsDigit(r[i])
  {
    if n < 10 then [DigitChar(n)] else NatToString(n / 10) + [DigitChar(n % 10)]
  }

  /** `String(n)` for any integer: a minus sign before the digits of a negative one. */
  function IntToString(n: int): (r: string)
    ensures n >= 0 ==> r == NatToString(n)
    ensures n < 0 ==> |r| >= 2 && r[0] == '-' && r[1..] == NatToString(-n)
  {
    if n >= 0 then NatToString(n) else "-" + NatToString(-n)
  }

  /** `parseInt` on a string of decimal digits (what `(\d+)` captures). */
  function ParseDigits(s: string): nat
    requires forall i :: 0 <= i < |s| ==> IsDigit(s[i])
  {
    if |s| == 0 then 0
    else 10 * ParseDigits(s[..|s| - 1]) + DigitValue(s[|s| - 1])
  }

  function DigitValue(c: char): (d: nat)
    requires IsDigit(c)
    ensures d < 10
  {
    c as int - '0' as int
  }

  /** Printing a number and parsing it back gives the number. */
  lemma {:induction false} ParseNatToString(n: nat)
    ensures ParseDigits(NatToString(n)) == n
  {
    if n >= 10 {
      var p := NatToString(n / 10);
      var r := NatToString(n);
      assert r[..|r| - 1] == p;
      ParseNatToString(n / 10);
    }
  }

  // ---------------------------------------------------------------------------
  // Joining

  /** `parts.join(sep)`. */
  function Join(parts: seq<string>, sep: string): string {
    if |parts| == 0 then []
    else if |parts| == 1 then parts[0]
    else Join(parts[..|parts| - 1], sep) + sep + parts[|parts| - 1]
  }

  /** Every part occurs in the joined string. */
  lemma {:induction false} JoinIncludes(parts: seq<string>, sep: string, k: nat, sub: string)
    requires k < |parts|
    requires Includes(parts[k], sub)
    ensures Includes(Join(parts, sep), sub)
  {
    if |parts| > 1 {
      var init := parts[..|parts| - 1];
      if k < |parts| - 1 {
        JoinIncludes(init, sep, k, sub);
        IncludesInConcat(Join(init, sep), sep, sub);
        IncludesInConcat(Join(init, sep) + sep, parts[|parts| - 1], sub);
      } else {
        IncludesInConcat(Join(init, sep) + sep, parts[|parts| - 1], sub);
      }
    }
  }

  // ---------------------------------------------------------------------------
  // Regular-expression scans

  /** The characters `.` does not match without the `s` flag. */
  predicate IsLineTerminator(c: char) {
    c == '\n' || c == '\r' || c == '\U{2028}' || c == '\U{2029}'
  }

  /** A match of `open(.*?)close`: where it starts, what the group captured,
      and where the match ends. */
  datatype Capture = Capture(start: nat, text: string, end: nat)

  /** The lazy group: the first position at or after `j` where `close` occurs,
      provided `.` can cover everything from `j` up to it. */
  function LazyClose(s: string, close: string, j: nat, dotAll: bool): (r: Option<nat>)
    decreases |s| - j
    ensures r.Some? ==> j <= r.value && OccursAt(s, close, r.value)
    ensures r.Some? && !dotAll ==> forall k :: j <= k < r.value ==> !IsLineTerminator(s[k])
  {
    if j + |close| > |s| then None
    else if OccursAt(s, close, j) then Some(j)
    else if !dotAll && IsLineTerminator(s[j]) then None
    else LazyClose(s, close, j + 1, dotAll)
  }

  predicate WellFormedCapture(s: string, open: string, close: string, dotAll: bool, c: Capture) {
    c.end == c.start + |open| + |c.text| + |close| <= |s|
    && s[c.start..c.end] == open + c.text + close
    && (!dotAll ==> forall k :: 0 <= k < |c.text| ==> !IsLineTerminator(c.text[k]))
  }

  /** `s.match(/open(.*?)close/)` searching from `from` (the `s` flag is `dotAll`). */
  function FirstCaptureFrom(s: string, open: string, close: string, from: nat, dotAll: bool): (r: Option<Capture>)
    decreases |s| - from
    ensures r.Some? ==> from <= r.value.start && WellFormedCapture(s, open, close, dotAll, r.value)
  {
    if from + |open| > |s| then None
    else if OccursAt(s, open, from) && LazyClose(s, close, from + |open|, dotAll).Some? then
      var k := LazyClose(s, close, from + |open|, dotAll).value;
      var c := Capture(from, s[from + |open|..k], k + |close|);
      assert s[from..c.end] == s[from..from + |open|] + s[from + |open|..k] + s[k..k + |close|];
      Some(c)
    else FirstCaptureFrom(s, open, close, from + 1, dotAll)
  }

  function FirstCapture(s: string, open: string, close: string, dotAll: bool): Option<Capture> {
    FirstCaptureFrom(s, open, close, 0, dotAll)
  }

  /** The captured groups of every match of `/open(.*?)close/g`, in order. */
  function AllCapturesFrom(s: string, open: string, close: string, from: nat, dotAll: bool): (r: seq<string>)
    requires |open| > 0
    decreases |s| - from
    ensures !dotAll ==> forall i, k :: 0 <= i < |r| && 0 <= k < |r[i]| ==> !IsLineTerminator(r[i][k])
  {
    match FirstCaptureFrom(s, open, close, from, dotAll)
    case None => []
    case Some(c) => [c.text] + AllCapturesFrom(s, open, close, c.end, dotAll)
  }

  function AllCaptures(s: string, open: string, close: string, dotAll: bool): seq<string>
    requires |open| > 0
  {
    AllCapturesFrom(s, open, close, 0, dotAll)
  }

  /** The whole matched texts of `/open(.*?)close/g` (what `match` with the `g` flag returns). */
  function AllMatches(s: string, open: string, close: string, dotAll: bool): (r: seq<string>)
    requires |open| > 0
  {
    var caps := AllCaptures(s, open, close, dotAll);
    seq(|caps|, i requires 0 <= i < |caps| => open + caps[i] + close)
  }

  /** Every whole match occurs in the scanned text. */
  lemma {:induction false} AllCapturesOccur(s: string, open: string, close: string, from: nat, dotAll: bool, i: nat)
    requires |open| > 0
    requires i < |AllCapturesFrom(s, open, close, from, dotAll)|
    ensures Includes(s, open + AllCapturesFrom(s, open, close, from, dotAll)[i] + close)
    decreases |s| - from
  {
    var c := FirstCaptureFrom(s, open, close, from, dotAll).value;
    if i == 0 {
      IncludesAt(s, open + c.text + close, c.start);
    } else {
      AllCapturesOccur(s, open, close, c.end, dotAll, i - 1);
    }
  }

  /** `[^stop]+` greedily from `j`: the first index at or after `j` holding a stop character. */
  function RunUntil(s: string, j: nat, stop: set<char>): (k: nat)
    requires j <= |s|
    decreases |s| - j
    ensures j <= k <= |s| && (k == |s| || s[k] in stop)
    ensures forall m :: j <= m < k ==> s[m] !in stop
  {
    if j == |s| || s[j] in stop then j else RunUntil(s, j + 1, stop)
  }

  /** `s.match(/lit([^stop]+)/)[1]`, searching from `from`. */
  function MatchLiteralRun(s: string, lit: string, stop: set<char>, from: nat): (r: Option<string>)
    decreases |s| - from
    ensures r.Some? ==> |r.value| >= 1 && forall k :: 0 <= k < |r.value| ==> r.value[k] !in stop
  {
    if from + |lit| >= |s| then None
    else if OccursAt(s, lit, from) && s[from + |lit|] !in stop then
      Some(s[from + |lit|..RunUntil(s, from + |lit|, stop)])
    else MatchLiteralRun(s, lit, stop, from + 1)
  }

  /** An occurrence followed by a non-stop character is always found. */
  lemma {:induction false} MatchLiteralRunFinds(s: string, lit: string, stop: set<char>, from: nat, i: nat)
    requires from <= i && OccursAt(s, lit, i) && i + |lit| < |s| && s[i + |lit|] !in stop
    ensures MatchLiteralRun(s, lit, stop, from).Some?
    decreases i - from
  {
    if from < i && !(OccursAt(s, lit, from) && s[from + |lit|] !in stop) {
      MatchLiteralRunFinds(s, lit, stop, from + 1, i);
    }
  }

  /** The search skips start positions where the literal does not occur. */
  lemma {:induction false} MatchLiteralRunSkip(s: string, lit: string, stop: set<char>, from: nat, i: nat)
    requires from <= i
    requires forall j :: from <= j < i ==> !OccursAt(s, lit, j)
    ensures MatchLiteralRun(s, lit, stop, from) == MatchLiteralRun(s, lit, stop, i)
    decreases i - from
  {
    if from < i && from + |lit| < |s| {
      MatchLiteralRunSkip(s, lit, stop, from + 1, i);
    }
  }

  /** Without an occurrence of the literal there is no match. */
  lemma {:induction false} MatchLiteralRunNone(s: string, lit: string, stop: set<char>, from: nat)
    requires forall j :: from <= j ==> !OccursAt(s, lit, j)
    ensures MatchLiteralRun(s, lit, stop, from) == None
    decreases |s| - from
  {
    if from + |lit| < |s| {
      MatchLiteralRunNone(s, lit, stop, from + 1);
    }
  }

  /** A literal holding a character that the text lacks occurs nowhere in it. */
  lemma NoOccurrenceWithout(s: string, lit: string, k: nat)
    requires k < |lit| && lit[k] !in s
    ensures forall j :: !OccursAt(s, lit, j)
  {
    forall j: nat
      ensures !OccursAt(s, lit, j)
    {
      if j + |lit| <= |s| {
        assert s[j..j + |lit|][k] == s[j + k];
      }
    }
  }

  /** A text lacking one of the characters of `sub` does not include it. */
  lemma NotIncludesWithout(s: string, sub: string, k: nat)
    requires k < |sub| && sub[k] !in s
    ensures !Includes(s, sub)
  {
    NoOccurrenceWithout(s, sub, k);
  }

  /** A run of non-stop characters ended by a stop character or the end of the text. */
  lemma RunUntilAt(s: string, j: nat, stop: set<char>, k: nat)
    requires j <= k <= |s|
    requires forall m :: j <= m < k ==> s[m] !in stop
    requires k == |s| || s[k] in stop
    ensures RunUntil(s, j, stop) == k
  {
  }

  predicate IsHangul(c: char) { '가' <= c <= '힣' }

  /** A word `/[가-힣]{2,}/` can match. */
  predicate IsHangulWord(w: string) {
    |w| >= 2 && forall k :: 0 <= k < |w| ==> IsHangul(w[k])
  }

  function HangulRunEnd(s: string, i: nat): (j: nat)
    requires i <= |s|
    decreases |s| - i
    ensures i <= j <= |s| && (j == |s| || !IsHangul(s[j]))
    ensures forall k :: i <= k < j ==> IsHangul(s[k])
  {
    if i == |s| || !IsHangul(s[i]) then i else HangulRunEnd(s, i + 1)
  }

  /** `s.match(/[가-힣]{2,}/g)` from index `i`: every maximal run of at least two syllables. */
  function HangulWordsFrom(s: string, i: nat): (r: seq<string>)
    requires i <= |s|
    decreases |s| - i
    ensures forall k :: 0 <= k < |r| ==> IsHangulWord(r[k])
  {
    if i == |s| then []
    else if !IsHangul(s[i]) then HangulWordsFrom(s, i + 1)
    else
      var j := HangulRunEnd(s, i);
      if j - i >= 2 then [s[i..j]] + HangulWordsFrom(s, j) else HangulWordsFrom(s, j)
  }

  function HangulWords(s: string): seq<string> {
    HangulWordsFrom(s, 0)
  }

  /** A text that is one Hangul word yields exactly that word. */
  lemma HangulWordsOfWord(w: string)
    requires IsHangulWord(w)
    ensures HangulWords(w) == [w]
  {
    assert HangulRunEnd(w, 0) == |w| by {
      HangulRunEndAll(w, 0);
    }
    assert w[0..|w|] == w;
    assert HangulWordsFrom(w, |w|) == [];
  }

  lemma {:induction false} HangulRunEndAll(w: string, i: nat)
    requires i <= |w|
    requires forall k :: i <= k < |w| ==> IsHangul(w[k])
    ensures HangulRunEnd(w, i) == |w|
    decreases |w| - i
  {
    if i < |w| {
      HangulRunEndAll(w, i + 1);
    }
  }

  /** A text without Hangul yields no words. */
  lemma {:induction false} HangulWordsNone(s: string, i: nat)
    requires i <= |s|
    requires forall k :: 0 <= k < |s| ==> !IsHangul(s[k])
    ensures HangulWordsFrom(s, i) == []
    decreases |s| - i
  {
    if i < |s| {
      HangulWordsNone(s, i + 1);
    }
  }

  /** `(s.match(/[가-힣]/g) || []).length`. */
  function HangulCount(s: string): (n: nat)
    ensures n <= |s|
  {
    if |s| == 0 then 0 else HangulCount(s[..|s| - 1]) + (if IsHangul(s[|s| - 1]) then 1 else 0)
  }

  /** `[a-zA-Z0-9_-]`. */
  predicate IsIdChar(c: char) {
    ('a' <= c <= 'z') || ('A' <= c <= 'Z') || ('0' <= c <= '9') || c == '_' || c == '-'
  }

  /** `/^[a-zA-Z0-9_-]+$/.test(s)`. */
  predicate IsIdString(s: string) {
    |s| >= 1 && forall k :: 0 <= k < |s| ==> IsIdChar(s[k])
  }

  lemma IdStringHasNoSpace(s: string)
    requires IsIdString(s)
    ensures NoSpace(s)
  {
  }
}
