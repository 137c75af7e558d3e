/** The text helpers of the WeChat article tools: title variants, subtitle,
  * summary, paragraph layout, tags, SEO title and description, and the
  * word count and reading time. */
module FormatConverter {
  import opened Wrappers
  import opened Text
  import opened Dedup
  import opened Keywords

  /** The emoji for "neutral" (`中性`), used when no category emoji applies. */
  const NeutralEmoji: String := "📰"

  /** `EMOJI_MAP`. */
  const EmojiMap: map<String, String> := map[
    "科技" := "🔬", "财经" := "💰", "体育" := "⚽", "娱乐" := "🎭",
    "政治" := "🏛️", "社会" := "👥", "国际" := "🌍", "军事" := "⚔️",
    "教育" := "📚", "健康" := "🏥", "环境" := "🌱", "汽车" := "🚗",
    "积极" := "✨", "中性" := "📰", "关注" := "⚠️", "重要" := "🔥",
    "突发" := "🚨", "深度" := "🔍",
    "分析" := "📊", "解读" := "💡", "观点" := "💭", "预测" := "🔮",
    "回顾" := "📅", "前瞻" := "🚀"
  ]

  /** A category is used only when present and non-empty (JavaScript truthiness). */
  predicate Given(category: Option<String>) {
    category.Some? && category.value != ""
  }

  /** The emoji for a category: the mapped one when the category is given and
    * known, the neutral one otherwise (so exactly for an absent or unknown
    * category, or for `中性` itself). */
  function Emoji(category: Option<String>): (e: String)
    ensures e == NeutralEmoji <==>
      (category.None? || category.value !in EmojiMap || category.value == "中性")
    ensures e in EmojiMap.Values
  {
    assert EmojiMap["中性"] == NeutralEmoji;
    if Given(category) && category.value in EmojiMap then EmojiMap[category.value] else NeutralEmoji
  }

  /** The `style` enum of the title tool. */
  datatype Style = Professional | Casual | Engaging | News

  /** `generateOptimizedTitle`; its `keywords` argument is never read. */
  function OptimizedTitle(original: String, category: Option<String>, style: Style): (r: String)
    ensures style == Professional ==> r == Emoji(category) + " " + original
    ensures style == Casual ==> r == Emoji(category) + " " + original + "，你怎么看？"
    ensures style == Engaging ==> r == Emoji(category) + " " + original + "！"
    ensures style == News ==>
      (var name := if Given(category) then category.value else "资讯";
       r == "【" + name + "】" + original)
  {
    var emoji := Emoji(category);
    match style
    case Professional => emoji + " " + original
    case Casual => emoji + " " + original + "，你怎么看？"
    case Engaging => emoji + " " + original + "！"
    case News => "【" + (if Given(category) then category.value else "资讯") + "】" + original
  }

  /** Apart from the news style, an absent, empty or unknown category gives
    * the same title as the neutral category. */
  lemma OptimizedTitleFallback(original: String, category: Option<String>, style: Style)
    requires style != News && (category.None? || category.value !in EmojiMap)
    ensures OptimizedTitle(original, category, style) == OptimizedTitle(original, Some("中性"), style)
  {
  }

  /** `generateSubtitle`: the first sentence plus `。`, when it is longer than
    * ten and shorter than fifty characters. */
  function Subtitle(content: String): (r: Option<String>)
    ensures r.Some? <==> 10 < |Split(content)[0]| < 50
  {
    var first := Split(content)[0];
    if |first| > 10 && |first| < 50 then Some(first + "。") else None
  }

  /** The subtitle is the text up to its first terminator, followed by `。`. */
  lemma SubtitleMeaning(content: String)
    ensures var r := Subtitle(content);
      r.Some? ==>
        (var n := |r.value| - 1;
         && 10 < n < 50 && r.value[n] == '。'
         && n <= |content| && r.value[..n] == content[..n]
         && NoStop(content[..n]) && (n == |content| || IsStop(content[n])))
  {
    SplitFirst(content);
  }

  /** `filter(s => s.trim().length > 10)`. */
  function LongSentences(sentences: seq<String>): (r: seq<String>)
    ensures |r| <= |sentences|
    ensures forall k :: 0 <= k < |r| ==> |Trim(r[k])| > 10 && r[k] in sentences
    ensures forall x :: x in r <==> x in sentences && |Trim(x)| > 10
  {
    if sentences == [] then []
    else (if |Trim(sentences[0])| > 10 then [sentences[0]] else []) + LongSentences(sentences[1..])
  }

  /** The filter keeps the order of the sentences: filtering a concatenation
    * concatenates the filtered parts. */
  lemma {:induction false} LongSentencesAppend(a: seq<String>, b: seq<String>)
    ensures LongSentences(a + b) == LongSentences(a) + LongSentences(b)
  {
    if a == [] {
      assert a + b == b;
    } else {
      assert (a + b)[0] == a[0] && (a + b)[1..] == a[1..] + b;
      LongSentencesAppend(a[1..], b);
    }
  }

  /** `generateSummary`: the first two sentences whose trimmed length exceeds
    * ten, joined and closed by `。`. */
  function Summary(content: String): (r: String)
    ensures |r| >= 1 && r[|r| - 1] == '。'
  {
    LongSentencesClosed(Split(content));
    Join(Take(LongSentences(Split(content)), 2), "。") + "。"
  }

  lemma {:induction false} JoinEmpty(parts: seq<String>, sep: String)
    requires forall k :: 0 <= k < |parts| ==> parts[k] != []
    ensures Join(parts, sep) == [] <==> parts == []
    ensures parts != [] ==> |parts[0]| <= |Join(parts, sep)| && Join(parts, sep)[..|parts[0]|] == parts[0]
  {
  }

  /** Non-empty parts joined and closed by `。`. */
  lemma ClosedJoin(parts: seq<String>)
    requires forall k :: 0 <= k < |parts| ==> parts[k] != []
    ensures var r := Join(parts, "。") + "。";
      && |r| >= 1 && r[|r| - 1] == '。'
      && (r == "。" <==> parts == [])
      && (parts != [] ==> |parts[0]| < |r| && r[..|parts[0]|] == parts[0])
  {
    JoinEmpty(parts, "。");
    var j := Join(parts, "。");
    assert j + "。" == "。" <==> j == [];
    if parts != [] {
      assert (j + "。")[..|parts[0]|] == j[..|parts[0]|];
    }
  }

  /** The summary always ends with `。`; it is `。` alone exactly when no
    * sentence is long enough, and otherwise it begins with the first long
    * sentence. */
  lemma SummaryMeaning(content: String)
    ensures var r := Summary(content); |r| >= 1 && r[|r| - 1] == '。'
    ensures Summary(content) == "。" <==> LongSentences(Split(content)) == []
    ensures var r := Summary(content); var long := LongSentences(Split(content));
      long != [] ==> |long[0]| < |r| && r[..|long[0]|] == long[0]
    ensures var r := Summary(content); var long := LongSentences(Split(content));
      |long| == 1 ==> r == long[0] + "。"
    ensures var r := Summary(content); var long := LongSentences(Split(content));
      |long| >= 2 ==> r == long[0] + "。" + long[1] + "。"
  {
    var ss := Split(content);
    var long := LongSentences(ss);
    assert Summary(content) == Join(Take(long, 2), "。") + "。";
    LongSentencesClosed(ss);
    FirstTwoClosed(long);
  }

  /** The first one or two parts, joined and closed by `。`. */
  lemma FirstTwoClosed(parts: seq<String>)
    ensures |parts| == 1 ==> Join(Take(parts, 2), "。") + "。" == parts[0] + "。"
    ensures |parts| >= 2 ==> Join(Take(parts, 2), "。") + "。" == parts[0] + "。" + parts[1] + "。"
  {
    if |parts| >= 2 {
      var two := Take(parts, 2);
      assert two == [parts[0], parts[1]];
      assert Join(two, "。") == parts[0] + "。" + Join(two[1..], "。");
      assert Join(two[1..], "。") == parts[1];
    }
  }

  lemma LongSentencesClosed(sentences: seq<String>)
    ensures var r := Join(Take(LongSentences(sentences), 2), "。") + "。"; var long := LongSentences(sentences);
      && |r| >= 1 && r[|r| - 1] == '。'
      && (r == "。" <==> long == [])
      && (long != [] ==> |long[0]| < |r| && r[..|long[0]|] == long[0])
  {
    var long := LongSentences(sentences);
    var parts := Take(long, 2);
    forall k | 0 <= k < |parts|
      ensures parts[k] != []
    {
      assert |Trim(long[k])| > 10;
      TrimShorter(long[k]);
    }
    ClosedJoin(parts);
  }

  /** The state of the `formatParagraphs` loop: the finished paragraphs and
    * the paragraph being built. */
  datatype Layout = Layout(paragraphs: seq<String>, current: String)

  /** One iteration of the loop, as written: a full paragraph is closed with
    * an extra `。`, and the sentence that starts the next one loses its own. */
  function LayoutStep(acc: Layout, sentence: String, maxLength: int): Layout {
    if Trim(sentence) == [] then acc
    else if |acc.current| + |sentence| > maxLength && acc.current != [] then
      Layout(acc.paragraphs + [Trim(acc.current) + "。"], sentence)
    else Layout(acc.paragraphs, acc.current + sentence + "。")
  }

  function LayoutFold(sentences: seq<String>, maxLength: int): Layout {
    if sentences == [] then Layout([], [])
    else LayoutStep(LayoutFold(sentences[..|sentences| - 1], maxLength), sentences[|sentences| - 1], maxLength)
  }

  /** The paragraphs once the last one is flushed. */
  function Paragraphs(sentences: seq<String>, maxLength: int): seq<String> {
    var acc := LayoutFold(sentences, maxLength);
    if Trim(acc.current) != [] then acc.paragraphs + [Trim(acc.current)] else acc.paragraphs
  }

  /** `formatParagraphs(content, maxLength)`. */
  method FormatParagraphs(content: String, maxLength: int) returns (r: String)
    ensures r == Join(Paragraphs(Split(content), maxLength), "\n\n")
  {
    var sentences := Split(content);
    var paragraphs: seq<String> := [];
    var current: String := [];
    for i := 0 to |sentences|
      invariant Layout(paragraphs, current) == LayoutFold(sentences[..i], maxLength)
    {
      var sentence := sentences[i];
      assert sentences[..i + 1][..i] == sentences[..i];
      if Trim(sentence) != [] {
        if |current| + |sentence| > maxLength && current != [] {
          paragraphs := paragraphs + [Trim(current) + "。"];
          current := sentence;
        } else {
          current := current + sentence + "。";
        }
      }
    }
    assert sentences[..|sentences|] == sentences;
    if Trim(current) != [] {
      paragraphs := paragraphs + [Trim(current)];
    }
    r := Join(paragraphs, "\n\n");
  }

  /** A paragraph closed by exactly one `。`. */
  predicate EndsOnce(p: String) {
    |p| >= 2 && p[|p| - 1] == '。' && p[|p| - 2] != '。'
  }

  /** As written, three sentences where the first two overflow a paragraph
    * and the last two fit in one (the text "AB。C。D" with at most two
    * characters per paragraph) give a first paragraph closed by two `。`
    * and a second one in which the last two sentences run together. */
  lemma AsWrittenGluesSentences(a: String, b: String, c: String, maxLength: int)
    requires NoStop(a) && Trim(a) != [] && Trim(b) != [] && Trim(c) != []
    requires |a| + 1 + |b| > maxLength && |b| + |c| <= maxLength
    ensures Paragraphs([a, b, c], maxLength) == [Trim(a + "。") + "。", Trim(b + c + "。")]
    ensures !EndsOnce(Trim(a + "。") + "。")
  {
    var t := b + c + "。";
    var p := Trim(a + "。") + "。";
    assert LayoutFold([a, b, c], maxLength) == Layout([p], t) by {
      LayoutThree(a, b, c, maxLength);
    }
    assert Trim(t) != [] by {
      NonBlankExtended(b, c + "。");
      assert t == b + (c + "。");
    }
    ParagraphsFlushed([a, b, c], maxLength, [p], t);
    assert !EndsOnce(p) by {
      AppendBuilding([], a);
      assert [] + a + "。" == a + "。";
      TrimBuilding(a + "。");
    }
  }

  lemma ParagraphsFlushed(sentences: seq<String>, maxLength: int, closed: seq<String>, open: String)
    requires LayoutFold(sentences, maxLength) == Layout(closed, open) && Trim(open) != []
    ensures Paragraphs(sentences, maxLength) == closed + [Trim(open)]
  {
  }

  lemma LayoutThree(a: String, b: String, c: String, maxLength: int)
    requires Trim(a) != [] && Trim(b) != [] && Trim(c) != []
    requires |a| + 1 + |b| > maxLength && |b| + |c| <= maxLength
    ensures LayoutFold([a, b, c], maxLength) == Layout([Trim(a + "。") + "。"], b + c + "。")
  {
    var ss := [a, b, c];
    assert ss[..2] == [a, b] && ss[..2][..1] == [a] && ss[..2][..1][..0] == [];
    assert [] + a + "。" == a + "。";
    assert LayoutFold([a], maxLength) == Layout([], a + "。");
    assert LayoutFold([a, b], maxLength) == Layout([Trim(a + "。") + "。"], b);
  }

  /** The evidently intended loop: a paragraph is closed as it stands and the
    * next one starts with the sentence and its `。`. */
  function CorrectedStep(acc: Layout, sentence: String, maxLength: int): Layout {
    if Trim(sentence) == [] then acc
    else if |acc.current| + |sentence| > maxLength && acc.current != [] then
      Layout(acc.paragraphs + [Trim(acc.current)], sentence + "。")
    else Layout(acc.paragraphs, acc.current + sentence + "。")
  }

  function CorrectedFold(sentences: seq<String>, maxLength: int): Layout {
    if sentences == [] then Layout([], [])
    else CorrectedStep(CorrectedFold(sentences[..|sentences| - 1], maxLength), sentences[|sentences| - 1], maxLength)
  }

  function CorrectedParagraphs(sentences: seq<String>, maxLength: int): seq<String> {
    var acc := CorrectedFold(sentences, maxLength);
    if Trim(acc.current) != [] then acc.paragraphs + [Trim(acc.current)] else acc.paragraphs
  }

  /** A paragraph under construction: it ends with one `。` and holds a
    * non-blank character before it. */
  predicate Building(t: String) {
    EndsOnce(t) && exists i :: 0 <= i < |t| - 1 && !IsSpace(t[i])
  }

  lemma {:induction false} TrimStartBuilding(t: String)
    requires Building(t)
    ensures Building(TrimStart(t))
  {
    if IsSpace(t[0]) {
      var i :| 0 <= i < |t| - 1 && !IsSpace(t[i]);
      assert t[1..][i - 1] == t[i];
      TrimStartBuilding(t[1..]);
    }
  }

  lemma TrimBuilding(t: String)
    requires Building(t)
    ensures EndsOnce(Trim(t))
  {
    TrimStartBuilding(t);
  }

  /** Appending a non-blank, terminator-free sentence and its `。` gives a
    * paragraph under construction. */
  lemma AppendBuilding(t: String, sentence: String)
    requires NoStop(sentence) && Trim(sentence) != []
    ensures Building(t + sentence + "。")
  {
    TrimEmpty(sentence);
    var i :| 0 <= i < |sentence| && !IsSpace(sentence[i]);
    var u := t + sentence + "。";
    assert u[|t| + i] == sentence[i];
    assert u[|u| - 2] == sentence[|sentence| - 1];
  }

  /** What the corrected loop keeps: closed paragraphs end with one `。` and
    * the open one is empty or under construction. */
  predicate LayoutGood(acc: Layout) {
    (forall k :: 0 <= k < |acc.paragraphs| ==> EndsOnce(acc.paragraphs[k]))
    && (acc.current == [] || Building(acc.current))
  }

  lemma CorrectedStepGood(acc: Layout, sentence: String, maxLength: int)
    requires LayoutGood(acc) && NoStop(sentence)
    ensures LayoutGood(CorrectedStep(acc, sentence, maxLength))
  {
    var next := CorrectedStep(acc, sentence, maxLength);
    if Trim(sentence) != [] {
      if |acc.current| + |sentence| > maxLength && acc.current != [] {
        assert next == Layout(acc.paragraphs + [Trim(acc.current)], sentence + "。");
        TrimBuilding(acc.current);
        AppendBuilding([], sentence);
        assert [] + sentence + "。" == sentence + "。";
        forall k | 0 <= k < |next.paragraphs|
          ensures EndsOnce(next.paragraphs[k])
        {
          if k < |acc.paragraphs| {
            assert next.paragraphs[k] == acc.paragraphs[k];
          }
        }
      } else {
        assert next == Layout(acc.paragraphs, acc.current + sentence + "。");
        AppendBuilding(acc.current, sentence);
      }
    }
  }

  lemma {:induction false} CorrectedFoldInvariant(sentences: seq<String>, maxLength: int)
    requires forall k :: 0 <= k < |sentences| ==> NoStop(sentences[k])
    ensures LayoutGood(CorrectedFold(sentences, maxLength))
  {
    if sentences != [] {
      var init := sentences[..|sentences| - 1];
      CorrectedFoldInvariant(init, maxLength);
      CorrectedStepGood(CorrectedFold(init, maxLength), sentences[|sentences| - 1], maxLength);
    }
  }

  /** With the corrected loop every paragraph ends with exactly one `。`. */
  lemma CorrectedParagraphsEndOnce(content: String, maxLength: int)
    ensures forall p :: p in CorrectedParagraphs(Split(content), maxLength) ==> EndsOnce(p)
  {
    var sentences := Split(content);
    CorrectedFoldInvariant(sentences, maxLength);
    var acc := CorrectedFold(sentences, maxLength);
    if Trim(acc.current) != [] {
      TrimBuilding(acc.current);
    }
  }

  /** `generateAlternativeTitles`: three variants; the keyword variant is
    * pushed fourth and then cut by `slice(0, 3)`. */
  method AlternativeTitles(original: String, keywords: seq<String>, category: Option<String>) returns (r: seq<String>)
    ensures |r| == 3
    ensures var e := Emoji(category);
      r == [e + " 重磅！" + original, e + " 最新：" + original, e + " 关注：" + original]
  {
    var emoji := Emoji(category);
    var alternatives: seq<String> := [];
    alternatives := alternatives + [emoji + " 重磅！" + original];
    alternatives := alternatives + [emoji + " 最新：" + original];
    alternatives := alternatives + [emoji + " 关注：" + original];
    if |keywords| > 0 {
      alternatives := alternatives + [emoji + " " + keywords[0] + "相关：" + original];
    }
    r := Take(alternatives, 3);
  }

  /** The category (when given) followed by the first five keywords. */
  function TagCandidates(keywords: seq<String>, category: Option<String>): seq<String> {
    (if Given(category) then [category.value] else []) + Take(keywords, 5)
  }

  /** `extractTags(title, content, category)`. */
  function TagsSpec(title: String, content: String, category: Option<String>): (r: seq<String>)
    ensures |r| <= 6
  {
    Take(DedupBy(TagCandidates(KeywordsSpec(title + content), category), Id), 8)
  }

  method ExtractTags(title: String, content: String, category: Option<String>) returns (r: seq<String>)
    ensures r == TagsSpec(title, content, category)
  {
    var tags: seq<String> := [];
    if Given(category) {
      tags := tags + [category.value];
    }
    var keywords := ExtractKeywords(title + content);
    tags := tags + Take(keywords, 5);
    assert tags == TagCandidates(keywords, category);
    r := Take(DedupBy(tags, Id), 8);
  }

  /** The tags hold no duplicate, at most six entries, start with the given
    * category, and are otherwise keywords of the title and content. */
  lemma TagsMeaning(title: String, content: String, category: Option<String>)
    ensures var r := TagsSpec(title, content, category);
      && |r| <= 6
      && UniqueKeys(r, Id)
      && (Given(category) ==> |r| >= 1 && r[0] == category.value)
      && (forall i :: 0 <= i < |r| ==>
            (Given(category) && r[i] == category.value) || r[i] in KeywordsSpec(title + content))
  {
    var tags := TagCandidates(KeywordsSpec(title + content), category);
    var d := DedupBy(tags, Id);
    DedupUnique(tags, Id);
    DedupFirstOccurrences(tags, Id, |tags|);
    assert tags[..|tags|] == tags;
    forall i | 0 <= i < |d|
      ensures (Given(category) && d[i] == category.value) || d[i] in KeywordsSpec(title + content)
    {
      FirstOccurrencesMembers(tags, Id, |tags|, d[i]);
    }
    if Given(category) {
      FirstOccurrencesMembers(tags, Id, |tags|, category.value);
      assert IsFirst(tags, Id, 0);
      DedupHead(tags, Id);
    }
  }

  /** `generateSEOTitle`. */
  function SeoTitle(title: String): (r: String)
    ensures |r| <= 60
    ensures |title| <= 60 ==> r == title
    ensures |title| > 60 ==> |r| == 60 && r[..57] == title[..57] && r[57..] == "..."
  {
    if |title| > 60 then title[..57] + "..." else title
  }

  lemma SeoTitleIdempotent(title: String)
    ensures SeoTitle(SeoTitle(title)) == SeoTitle(title)
  {
  }

  /** The SEO description: the summary cut to 120 characters plus `...`. */
  function SeoDescription(summary: String): (r: String)
    ensures |r| <= 123
    ensures |summary| <= 120 ==> r == summary
    ensures |summary| > 120 ==> |r| == 123 && r[..120] == summary[..120] && r[120..] == "..."
  {
    if |summary| > 120 then summary[..120] + "..." else summary
  }

  /** An over-long description is cut again to itself. */
  lemma SeoDescriptionIdempotent(summary: String)
    ensures SeoDescription(SeoDescription(summary)) == SeoDescription(summary)
  {
    var r := SeoDescription(summary);
    if |summary| > 120 {
      assert r[..120] == summary[..120];
    }
  }

  /** `estimatedReadTime = Math.ceil(wordCount / 200)` with `wordCount = content.length`. */
  function ReadTime(content: String): (r: nat)
    ensures 200 * r >= |content|
    ensures r > 0 ==> 200 * (r - 1) < |content|
  {
    (|content| + 199) / 200
  }
}
