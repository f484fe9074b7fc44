/** The ordered "category → keywords" tables the crawler consults in three
    places: the first category, in table order, one of whose keywords occurs
    in the text wins. */
module CategoryRules {
  import opened Common
  import opened Text

  /** The category every table falls back to: "no topic". */
  const NoCategory: string := "주제 없음"

  datatype Rule = Rule(category: string, keywords: seq<string>)

  /** Some keyword of the rule occurs in the text (`keywords.some(k => text.includes(k))`). */
  predicate RuleMatches(rule: Rule, text: string) {
    exists k :: 0 <= k < |rule.keywords| && Includes(text, rule.keywords[k])
  }

  /** The index of the first rule that matches, scanning the table in order. */
  function FirstRule(rules: seq<Rule>, text: string): (r: Option<nat>)
    ensures r.Some? ==> r.value < |rules| && RuleMatches(rules[r.value], text)
    ensures r.Some? ==> forall j :: 0 <= j < r.value ==> !RuleMatches(rules[j], text)
    ensures r.None? <==> forall j :: 0 <= j < |rules| ==> !RuleMatches(rules[j], text)
  {
    if |rules| == 0 then None
    else if RuleMatches(rules[0], text) then Some(0)
    else
      var rest := FirstRule(rules[1..], text);
      assert forall j :: 1 <= j < |rules| ==> rules[j] == rules[1..][j - 1];
      if rest.Some? then Some(rest.value + 1) else None
  }

  /** The winning category, or `fallback` when no keyword occurs. */
  function Categorize(rules: seq<Rule>, text: string, fallback: string): string {
    match FirstRule(rules, text)
    case Some(i) => rules[i].category
    case None => fallback
  }

  /** The category chosen is the fallback exactly when no rule matches, and is
      otherwise the category of a matching rule that no earlier rule pre-empts. */
  lemma CategorizeSpec(rules: seq<Rule>, text: string, fallback: string)
    ensures (forall j :: 0 <= j < |rules| ==> !RuleMatches(rules[j], text)) ==>
              Categorize(rules, text, fallback) == fallback
    ensures forall i ::
              (0 <= i < |rules| && RuleMatches(rules[i], text) && forall j :: 0 <= j < i ==> !RuleMatches(rules[j], text))
              ==> Categorize(rules, text, fallback) == rules[i].category
  {
    forall i | 0 <= i < |rules| && RuleMatches(rules[i], text)
      && (forall j :: 0 <= j < i ==> !RuleMatches(rules[j], text))
      ensures Categorize(rules, text, fallback) == rules[i].category
    {
      var r := FirstRule(rules, text);
      assert r.Some?;
      assert r.value == i;
    }
  }

  /** A keyword of the table that occurs in the text always yields a category
      from the table, never the fallback, unless an earlier one already did. */
  lemma KeywordFound(rules: seq<Rule>, text: string, fallback: string, i: nat, k: nat)
    requires i < |rules| && k < |rules[i].keywords|
    requires Includes(text, rules[i].keywords[k])
    ensures exists j :: 0 <= j <= i && Categorize(rules, text, fallback) == rules[j].category
  {
    assert RuleMatches(rules[i], text);
    var r := FirstRule(rules, text);
    assert r.Some? && r.value <= i;
  }
}
