/** The deterministic helpers of the news workflow: title-based
  * de-duplication of fetched articles, the de-duplicated list of source
  * names, and the rule-based selection used when no analyzer agent is
  * available. */
module NewsWorkflow {
  import opened Wrappers
  import opened Text
  import opened Dedup
  import opened Keywords

  /** A fetched news article. */
  datatype Article = Article(
    title: String, content: String, summary: String, url: String,
    publishedAt: String, source: String, author: Option<String>, category: Option<String>)

  /** The de-duplication key of a title: lower-cased, all white space removed. */
  function KeyOf(title: String): String {
    RemoveSpaces(Lower(title))
  }

  function TitleKey(a: Article): String {
    KeyOf(a.title)
  }

  lemma LowerAppend(s: String, t: String)
    ensures Lower(s + t) == Lower(s) + Lower(t)
  {
  }

  lemma {:induction false} RemoveSpacesAppend(s: String, t: String)
    ensures RemoveSpaces(s + t) == RemoveSpaces(s) + RemoveSpaces(t)
  {
    if s != [] {
      assert (s + t)[0] == s[0] && (s + t)[1..] == s[1..] + t;
      RemoveSpacesAppend(s[1..], t);
    } else {
      assert s + t == t;
    }
  }

  /** Titles that differ only in white space or in the case of ASCII
    * letters share a key. */
  lemma KeyIgnoresSpacing(s: String, space: String, t: String)
    requires AllSpace(space)
    ensures KeyOf(s + space + t) == KeyOf(s + t)
  {
    LowerAppend(s + space, t);
    LowerAppend(s, space);
    LowerAppend(s, t);
    var ls := Lower(space);
    assert ls == space by {
      assert forall i :: 0 <= i < |space| ==> ls[i] == LowerChar(space[i]) == space[i];
    }
    RemoveSpacesAppend(Lower(s) + space, Lower(t));
    RemoveSpacesAppend(Lower(s), space);
    RemoveSpacesAppend(Lower(s), Lower(t));
    AllSpaceRemoved(space);
  }

  lemma {:induction false} AllSpaceRemoved(space: String)
    requires AllSpace(space)
    ensures RemoveSpaces(space) == []
  {
    if space != [] {
      AllSpaceRemoved(space[1..]);
    }
  }

  /** `removeDuplicateArticles`: a `filter` that records each key in a
    * `seen` set and drops an article whose key is already there. */
  method RemoveDuplicateArticles(articles: seq<Article>) returns (r: seq<Article>)
    ensures r == DedupBy(articles, TitleKey)
  {
    var seen: set<String> := {};
    r := [];
    for i := 0 to |articles|
      invariant r == DedupBy(articles[..i], TitleKey)
      invariant seen == KeysOf(r, TitleKey)
    {
      var key := TitleKey(articles[i]);
      DedupPush(articles, TitleKey, i);
      if key !in seen {
        KeysOfPush(r, TitleKey, articles[i]);
        seen := seen + {key};
        r := r + [articles[i]];
      }
    }
    assert articles[..|articles|] == articles;
  }

  /** The kept articles are the first article of each key, in input order;
    * no two share a key; every key of the input survives; and running the
    * de-duplication again changes nothing. */
  lemma RemoveDuplicatesMeaning(articles: seq<Article>)
    ensures var r := DedupBy(articles, TitleKey);
      && r == FirstOccurrences(articles, TitleKey, |articles|)
      && UniqueKeys(r, TitleKey)
      && KeysOf(r, TitleKey) == KeysOf(articles, TitleKey)
      && DedupBy(r, TitleKey) == r
  {
    DedupFirstOccurrences(articles, TitleKey, |articles|);
    assert articles[..|articles|] == articles;
    DedupUnique(articles, TitleKey);
    DedupKeys(articles, TitleKey);
    DedupIdempotent(articles, TitleKey);
  }

  /** `[...new Set(processedSources)]`. */
  function SourceNames(processed: seq<String>): (r: seq<String>)
    ensures |r| <= |processed|
  {
    DedupBy(processed, Id)
  }

  /** The source names hold each processed name once, at the place of its
    * first occurrence. */
  lemma SourceNamesMeaning(processed: seq<String>)
    ensures var r := SourceNames(processed);
      && r == FirstOccurrences(processed, Id, |processed|)
      && Distinct(r)
      && (forall n :: n in processed <==> n in r)
  {
    var r := SourceNames(processed);
    DedupFirstOccurrences(processed, Id, |processed|);
    assert processed[..|processed|] == processed;
    DedupUnique(processed, Id);
    DedupKeys(processed, Id);
    forall n
      ensures n in processed <==> n in r
    {
      KeysOfMembers(processed, Id, n);
      KeysOfMembers(r, Id, n);
    }
  }

  /** An article the rule-based selection accepts. */
  predicate Qualifies(a: Article) {
    |a.content| > 100 && |a.title| > 10
  }

  /** `articles.filter(...)` with the rule above. */
  function Qualified(articles: seq<Article>): (r: seq<Article>)
    ensures |r| <= |articles|
    ensures forall k :: 0 <= k < |r| ==> Qualifies(r[k]) && r[k] in articles
    ensures forall a :: a in articles && Qualifies(a) ==> a in r
  {
    if articles == [] then []
    else (if Qualifies(articles[0]) then [articles[0]] else []) + Qualified(articles[1..])
  }

  /** The filter keeps input order and multiplicity: nothing comes from no
    * articles, and one more article at the end is appended exactly when it
    * qualifies. */
  lemma {:induction false} QualifiedSnoc(articles: seq<Article>, a: Article)
    ensures Qualified([]) == []
    ensures Qualified(articles + [a]) == Qualified(articles) + (if Qualifies(a) then [a] else [])
  {
    if articles != [] {
      assert (articles + [a])[0] == articles[0] && (articles + [a])[1..] == articles[1..] + [a];
      QualifiedSnoc(articles[1..], a);
    }
  }

  /** `xs.slice(0, n)`: a negative `n` counts from the end. */
  function SlicePrefix<T>(xs: seq<T>, n: int): (r: seq<T>)
    ensures |r| <= |xs| && r == xs[..|r|]
    ensures n >= 0 ==> |r| == if n < |xs| then n else |xs|
    ensures n < 0 ==> |r| == if |xs| + n > 0 then |xs| + n else 0
  {
    if n >= 0 then Take(xs, n)
    else if |xs| + n > 0 then xs[..|xs| + n] else []
  }

  /** A selected article with its score and reason. */
  datatype Selected = Selected(article: Article, qualityScore: int, analysisReason: String)

  datatype Analysis = Analysis(selectedArticles: seq<Selected>, rejectedCount: int)

  const FallbackReason: String := "基于基础规则筛选"

  /** The analysis step without an analyzer agent. Every selected article
    * qualifies and scores 7; the selection is the first qualifying articles
    * in input order, at most `maxArticles` of them when that is not
    * negative; selected and rejected add up to the input. */
  function FallbackAnalysis(articles: seq<Article>, maxArticles: int): (res: Analysis)
    ensures var s := res.selectedArticles; var q := Qualified(articles);
      && |s| <= |q|
      && (forall i :: 0 <= i < |s| ==>
            Qualifies(s[i].article) && s[i].qualityScore == 7 && s[i].analysisReason == FallbackReason
            && s[i].article == q[i])
      && (maxArticles >= 0 ==> |s| == if maxArticles < |q| then maxArticles else |q|)
      && res.rejectedCount + |s| == |articles|
      && res.rejectedCount >= |articles| - |q| >= 0
  {
    var kept := SlicePrefix(Qualified(articles), maxArticles);
    var selected := seq(|kept|, i requires 0 <= i < |kept| => Selected(kept[i], 7, FallbackReason));
    Analysis(selected, |articles| - |selected|)
  }
}
