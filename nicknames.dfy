/** The nickname both the Playwright crawler (lib/playwright-crawler.ts:153-161)
    and the blog-metadata route (app/api/crawler/blog-metadata/route.ts:62-71)
    read off a blog title: the lazy prefix that `/^(.+?)님의?\s*(블로그|Blog)/`
    captures; failing a match, the whole title when it does not mention
    "blog" in any letter case; otherwise the caller's fallback. */
module Nicknames {
  import opened Common
  import opened Text

  const KoreanBlogWord: string := "블로그"
  const EnglishBlogWord: string := "Blog"

  /** `(블로그|Blog)` matches at `i`. */
  predicate BlogWordAt(s: string, i: nat) {
    OccursAt(s, KoreanBlogWord, i) || OccursAt(s, EnglishBlogWord, i)
  }

  /** `님의?\s*(블로그|Blog)` matches at `k`: the optional `의` is tried first,
      and `\s*` takes the whole run of white space (giving some back cannot
      help, since the next character must be `블` or `B`). */
  predicate HonorificAt(s: string, k: nat) {
    && k < |s| && s[k] == '님'
    && (|| BlogWordAt(s, SpaceEnd(s, k + 1))
        || (k + 1 < |s| && s[k + 1] == '의' && BlogWordAt(s, SpaceEnd(s, k + 2))))
  }

  /** The group `(.+?)` can end at `k`: at least one character, none of them a
      line terminator, followed by the honorific. */
  predicate CaptureEndsAt(s: string, k: nat) {
    1 <= k && HonorificAt(s, k) && forall m :: 0 <= m < k ==> !IsLineTerminator(s[m])
  }

  /** The lazy group stops at the first end that works. */
  function FirstCaptureEnd(s: string, k: nat): (r: Option<nat>)
    decreases |s| - k
    ensures r.Some? ==> k <= r.value < |s| && CaptureEndsAt(s, r.value)
    ensures r.Some? ==> forall j :: k <= j < r.value ==> !CaptureEndsAt(s, j)
    ensures r.None? ==> forall j :: k <= j ==> !CaptureEndsAt(s, j)
  {
    if k >= |s| then None
    else if CaptureEndsAt(s, k) then Some(k)
    else FirstCaptureEnd(s, k + 1)
  }

  /** `nicknameMatch[1]`, or `None` when the title does not match. */
  function NicknameCapture(title: string): (r: Option<string>)
    ensures r.Some? ==> 1 <= |r.value| < |title| && r.value == title[..|r.value|]
    ensures r.Some? ==> CaptureEndsAt(title, |r.value|) && forall j :: 1 <= j < |r.value| ==> !CaptureEndsAt(title, j)
    ensures r.None? <==> forall j :: 1 <= j ==> !CaptureEndsAt(title, j)
  {
    match FirstCaptureEnd(title, 1)
    case Some(k) => Some(title[..k])
    case None => None
  }

  /** The nickname of a non-empty title, `fallback` standing for the value the
      caller started from. */
  function NicknameOr(title: string, fallback: string): string {
    match NicknameCapture(title)
    case Some(n) => n
    case None => if Includes(ToLower(title), "blog") then fallback else title
  }

  /** A blog word right after `t` matches there, and starts with no white space. */
  lemma BlogWordAfter(t: string, word: string)
    requires word == KoreanBlogWord || word == EnglishBlogWord
    ensures BlogWordAt(t + word, |t|) && !IsJsSpace((t + word)[|t|])
  {
    assert (t + word)[|t|..|t| + |word|] == word;
    assert (t + word)[|t|] == word[0];
  }

  /** `\s*` after `pre` takes exactly the white space before the blog word. */
  lemma SpacesBeforeWord(pre: string, spaces: string, word: string)
    requires forall m :: 0 <= m < |spaces| ==> IsJsSpace(spaces[m])
    requires word == KoreanBlogWord || word == EnglishBlogWord
    ensures SpaceEnd(pre + spaces + word, |pre|) == |pre| + |spaces|
    ensures BlogWordAt(pre + spaces + word, |pre| + |spaces|)
  {
    var s := pre + spaces + word;
    BlogWordAfter(pre + spaces, word);
    forall m | |pre| <= m < |pre| + |spaces|
      ensures IsJsSpace(s[m])
    {
      assert s[m] == spaces[m - |pre|];
    }
    SpaceEndAt(s, |pre|, |pre| + |spaces|);
  }

  /** The group can end right before the `님` of "X님의 블로그" and the like. */
  lemma CaptureEndsAtHonorific(x: string, ui: string, spaces: string, word: string)
    requires |x| >= 1 && forall m :: 0 <= m < |x| ==> !IsLineTerminator(x[m])
    requires ui == "" || ui == "의"
    requires forall m :: 0 <= m < |spaces| ==> IsJsSpace(spaces[m])
    requires word == KoreanBlogWord || word == EnglishBlogWord
    ensures CaptureEndsAt(x + "님" + ui + spaces + word, |x|)
  {
    var pre := x + "님" + ui;
    var s := pre + spaces + word;
    var k := |x|;
    SpacesBeforeWord(pre, spaces, word);
    assert s[k] == '님';
    if ui == "의" {
      assert s[k + 1] == '의';
    }
    assert HonorificAt(s, k);
    forall m | 0 <= m < k
      ensures !IsLineTerminator(s[m])
    {
      assert s[m] == x[m];
    }
  }

  /** The group cannot end inside a prefix without `님`. */
  lemma NoCaptureEndInside(x: string, rest: string)
    requires '님' !in x
    ensures forall j :: 1 <= j < |x| ==> !CaptureEndsAt(x + rest, j)
  {
    forall j | 1 <= j < |x|
      ensures !CaptureEndsAt(x + rest, j)
    {
      assert (x + rest)[j] == x[j];
    }
  }

  /** "X님의 블로그", "X님 Blog" and the like give X, for any X without `님`
      or a line break. */
  lemma NicknameOfBlogTitle(x: string, ui: string, spaces: string, word: string, fallback: string)
    requires |x| >= 1 && '님' !in x && forall m :: 0 <= m < |x| ==> !IsLineTerminator(x[m])
    requires ui == "" || ui == "의"
    requires forall m :: 0 <= m < |spaces| ==> IsJsSpace(spaces[m])
    requires word == KoreanBlogWord || word == EnglishBlogWord
    ensures NicknameOr(x + "님" + ui + spaces + word, fallback) == x
  {
    var s := x + "님" + ui + spaces + word;
    CaptureEndsAtHonorific(x, ui, spaces, word);
    NoCaptureEndInside(x, "님" + ui + spaces + word);
    assert s == x + ("님" + ui + spaces + word);
    var r := NicknameCapture(s);
    assert r.Some?;
    assert |r.value| == |x|;
    assert s[..|x|] == x;
  }

  /** A title with neither `님` nor "blog" is itself the nickname: "여행 블로그"
      names its author "여행 블로그". */
  lemma TitleWithoutHonorific(title: string, fallback: string)
    requires '님' !in title && !Includes(ToLower(title), "blog")
    ensures NicknameOr(title, fallback) == title
  {
    forall j | 1 <= j
      ensures !CaptureEndsAt(title, j)
    {
    }
  }

  /** A title with "blog" but no `님` gives the fallback. */
  lemma BlogTitleFallsBack(title: string, fallback: string)
    requires '님' !in title && Includes(title, "blog")
    ensures NicknameOr(title, fallback) == fallback
  {
    forall j | 1 <= j
      ensures !CaptureEndsAt(title, j)
    {
    }
    IncludesSurvivesLower(title, "blog");
  }
}
