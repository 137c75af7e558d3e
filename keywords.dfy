/** `extractKeywords`: the runs of at least two CJK ideographs in a text,
  * counted in a `Map` (which remembers first-insertion order), stably sorted
  * by decreasing count and cut to the first twenty. */
module Keywords {
  import opened Text
  import opened Dedup

  /** The regex class `[一-龥]`. */
  predicate IsHan(c: char) {
    '\U{4E00}' <= c <= '\U{9FA5}'
  }

  predicate AllHan(s: String) {
    forall i :: 0 <= i < |s| ==> IsHan(s[i])
  }

  /** Length of the longest prefix made of ideographs. */
  function HanPrefix(s: String): (n: nat)
    ensures n <= |s| && AllHan(s[..n]) && (n == |s| || !IsHan(s[n]))
  {
    if s != [] && IsHan(s[0]) then
      var m := HanPrefix(s[1..]);
      assert s[..1 + m] == [s[0]] + s[1..][..m];
      1 + m
    else 0
  }

  /** `s[a..b]` is a run of two or more ideographs that cannot be extended
    * on either side. */
  predicate MaximalRun(s: String, a: int, b: int) {
    0 <= a && a + 2 <= b <= |s| && AllHan(s[a..b])
    && (a == 0 || !IsHan(s[a - 1])) && (b == |s| || !IsHan(s[b]))
  }

  /** `sp` lists the maximal runs that start at `i` or later, each once,
    * left to right: every entry is one, a span ends before the next one
    * begins, and none is missing. */
  ghost predicate Matches(s: String, i: nat, sp: seq<(nat, nat)>) {
    && (forall k :: 0 <= k < |sp| ==> i <= sp[k].0 && MaximalRun(s, sp[k].0, sp[k].1))
    && (forall k, l :: 0 <= k < l < |sp| ==> sp[k].1 < sp[l].0)
    && (forall a, b :: i <= a && MaximalRun(s, a, b) ==> (a, b) in sp)
  }

  /** The bounds of the matches of the greedy `[一-龥]{2,}` from index `i` on. */
  function Spans(s: String, i: nat): (sp: seq<(nat, nat)>)
    requires i <= |s| && (i == 0 || !IsHan(s[i - 1]))
    ensures Matches(s, i, sp)
    decreases |s| - i
  {
    if i == |s| then []
    else if !IsHan(s[i]) then
      var rest := Spans(s, i + 1);
      SpansSkip(s, i, rest);
      rest
    else
      var n := HanPrefix(s[i..]);
      assert n >= 1 by { assert s[i..][0] == s[i]; }
      assert s[i..][..n] == s[i..i + n];
      var rest := if i + n == |s| then [] else Spans(s, i + n + 1);
      SpansCons(s, i, n, rest);
      (if n >= 2 then [(i, i + n)] else []) + rest
  }

  /** No match starts at a character that is not an ideograph. */
  lemma SpansSkip(s: String, i: nat, rest: seq<(nat, nat)>)
    requires i < |s| && !IsHan(s[i]) && Matches(s, i + 1, rest)
    ensures Matches(s, i, rest)
  {
    forall a, b | i <= a && MaximalRun(s, a, b)
      ensures (a, b) in rest
    {
      assert s[a..b][0] == s[a];
    }
  }

  /** A run of `n` ideographs at `i`, not extendable on either side, followed
    * by the matches that start after it. */
  ghost predicate RunThenMatches(s: String, i: nat, n: nat, rest: seq<(nat, nat)>) {
    && i + n <= |s| && AllHan(s[i..i + n]) && (i + n == |s| || !IsHan(s[i + n]))
    && (i == 0 || !IsHan(s[i - 1])) && n >= 1
    && (if i + n == |s| then rest == [] else Matches(s, i + n + 1, rest))
  }

  /** That run is matched when it has two or more ideographs, and the
    * matches after it follow. */
  lemma SpansCons(s: String, i: nat, n: nat, rest: seq<(nat, nat)>)
    requires RunThenMatches(s, i, n, rest)
    ensures Matches(s, i, (if n >= 2 then [(i, i + n)] else []) + rest)
  {
    ConsEntries(s, i, n, rest);
    ConsOrdered(s, i, n, rest);
    ConsComplete(s, i, n, rest);
  }

  lemma ConsEntries(s: String, i: nat, n: nat, rest: seq<(nat, nat)>)
    requires RunThenMatches(s, i, n, rest)
    ensures var sp := (if n >= 2 then [(i, i + n)] else []) + rest;
      forall k :: 0 <= k < |sp| ==> i <= sp[k].0 && MaximalRun(s, sp[k].0, sp[k].1)
  {
    var head: seq<(nat, nat)> := if n >= 2 then [(i, i + n)] else [];
    var sp := head + rest;
    forall k | 0 <= k < |sp|
      ensures i <= sp[k].0 && MaximalRun(s, sp[k].0, sp[k].1)
    {
      if k >= |head| {
        assert sp[k] == rest[k - |head|];
      }
    }
  }

  lemma ConsOrdered(s: String, i: nat, n: nat, rest: seq<(nat, nat)>)
    requires RunThenMatches(s, i, n, rest)
    ensures var sp := (if n >= 2 then [(i, i + n)] else []) + rest;
      forall k, l :: 0 <= k < l < |sp| ==> sp[k].1 < sp[l].0
  {
    var head: seq<(nat, nat)> := if n >= 2 then [(i, i + n)] else [];
    var sp := head + rest;
    forall k, l | 0 <= k < l < |sp|
      ensures sp[k].1 < sp[l].0
    {
      if k >= |head| {
        assert sp[k] == rest[k - |head|] && sp[l] == rest[l - |head|];
      } else {
        assert sp[l] == rest[l - 1];
      }
    }
  }

  lemma ConsComplete(s: String, i: nat, n: nat, rest: seq<(nat, nat)>)
    requires RunThenMatches(s, i, n, rest)
    ensures var sp := (if n >= 2 then [(i, i + n)] else []) + rest;
      forall a, b :: i <= a && MaximalRun(s, a, b) ==> (a, b) in sp
  {
    var head: seq<(nat, nat)> := if n >= 2 then [(i, i + n)] else [];
    var sp := head + rest;
    forall a, b | i <= a && MaximalRun(s, a, b)
      ensures (a, b) in sp
    {
      if a <= i + n {
        RunStartsAt(s, i, n);
        assert (a, b) == (i, i + n);
        assert sp[0] == (a, b);
      } else {
        assert (a, b) in rest;
      }
    }
  }

  /** Where a run of `n` ideographs starts at `i`, a maximal run starting in
    * `[i, i + n]` is that run itself. */
  lemma RunStartsAt(s: String, i: nat, n: nat)
    requires i + n <= |s| && AllHan(s[i..i + n]) && (i + n == |s| || !IsHan(s[i + n]))
    requires (i == 0 || !IsHan(s[i - 1])) && n >= 1
    ensures forall a, b :: i <= a <= i + n && MaximalRun(s, a, b) ==> a == i && b == i + n
  {
    forall a, b | i <= a <= i + n && MaximalRun(s, a, b)
      ensures a == i && b == i + n
    {
      assert IsHan(s[a]) by { assert s[a..b][0] == s[a]; }
      assert a < i + n;
    }
  }

  /** `content.match(/[一-龥]{2,}/g) || []`: the text of each span, in order. */
  function Runs(s: String): (r: seq<String>)
    ensures forall k :: 0 <= k < |r| ==> |r[k]| >= 2 && AllHan(r[k])
  {
    var sp := Spans(s, 0);
    seq(|sp|, k requires 0 <= k < |sp| => s[sp[k].0..sp[k].1])
  }

  /** The matches are exactly the maximal ideograph runs of the text, from
    * left to right: each match is one, every one is matched, and a match
    * ends before the next begins. */
  lemma RunsMeaning(s: String)
    ensures var r := Runs(s); var sp := Spans(s, 0);
      && |r| == |sp|
      && (forall k :: 0 <= k < |r| ==> r[k] == s[sp[k].0..sp[k].1] && MaximalRun(s, sp[k].0, sp[k].1))
      && (forall k, l :: 0 <= k < l < |sp| ==> sp[k].1 < sp[l].0)
      && (forall a, b :: MaximalRun(s, a, b) ==> exists k :: 0 <= k < |sp| && sp[k] == (a, b) && r[k] == s[a..b])
  {
    var r := Runs(s);
    var sp := Spans(s, 0);
    forall a, b | MaximalRun(s, a, b)
      ensures exists k :: 0 <= k < |sp| && sp[k] == (a, b) && r[k] == s[a..b]
    {
      assert (a, b) in sp;
      var k :| 0 <= k < |sp| && sp[k] == (a, b);
      assert r[k] == s[a..b];
    }
  }

  /** Every match is a maximal run of the text. */
  lemma RunsAreMaximal(s: String, w: String)
    requires w in Runs(s)
    ensures exists a, b :: MaximalRun(s, a, b) && w == s[a..b]
  {
    var sp := Spans(s, 0);
    var k :| 0 <= k < |Runs(s)| && Runs(s)[k] == w;
    assert MaximalRun(s, sp[k].0, sp[k].1) && w == s[sp[k].0..sp[k].1];
  }

  /** The value a `Map` counter holds for `w` after the words have been fed to it. */
  function Occ(words: seq<String>, w: String): nat {
    if words == [] then 0
    else Occ(words[..|words| - 1], w) + (if words[|words| - 1] == w then 1 else 0)
  }

  /** The element itself as its own key, as in a `Set` or a `Map` key. */
  function Id(w: String): String {
    w
  }

  type Entry = (String, nat)

  /** `Array.from(wordCount.entries())`: one entry per distinct word, in the
    * order the words were first seen. */
  function Entries(words: seq<String>): (es: seq<Entry>)
    ensures |es| == |DedupBy(words, Id)|
  {
    var d := DedupBy(words, Id);
    seq(|d|, j requires 0 <= j < |d| => (d[j], Occ(words, d[j])))
  }

  /** Places `e` after every entry whose count is at least its own. */
  function Insert(e: Entry, sorted: seq<Entry>): (r: seq<Entry>)
    ensures |r| == |sorted| + 1
  {
    if sorted == [] then [e]
    else if sorted[0].1 >= e.1 then [sorted[0]] + Insert(e, sorted[1..])
    else [e] + sorted
  }

  /** `sort((a, b) => b[1] - a[1])`, which is stable: a stable insertion sort
    * by decreasing count. */
  function SortByCount(es: seq<Entry>): (r: seq<Entry>)
    ensures |r| == |es|
  {
    if es == [] then [] else Insert(es[|es| - 1], SortByCount(es[..|es| - 1]))
  }

  function Names(es: seq<Entry>): (r: seq<String>)
    ensures |r| == |es| && forall i :: 0 <= i < |es| ==> r[i] == es[i].0
  {
    seq(|es|, i requires 0 <= i < |es| => es[i].0)
  }

  /** The keywords of `content`. */
  function KeywordsSpec(content: String): (r: seq<String>)
    ensures |r| <= 20
  {
    Names(Take(SortByCount(Entries(Runs(content))), 20))
  }

  predicate NonIncreasing(es: seq<Entry>) {
    forall i, j :: 0 <= i < j < |es| ==> es[i].1 >= es[j].1
  }

  predicate Distinct<T(==)>(xs: seq<T>) {
    forall i, j :: 0 <= i < j < |xs| ==> xs[i] != xs[j]
  }

  lemma {:induction false} InsertPermutes(e: Entry, sorted: seq<Entry>)
    ensures multiset(Insert(e, sorted)) == multiset(sorted) + multiset{e}
  {
    if sorted != [] && sorted[0].1 >= e.1 {
      InsertPermutes(e, sorted[1..]);
      assert sorted == [sorted[0]] + sorted[1..];
    }
  }

  /** Inserting keeps every count under a common bound. */
  lemma {:induction false} InsertBounded(e: Entry, s: seq<Entry>, bound: nat)
    requires e.1 <= bound && forall k :: 0 <= k < |s| ==> s[k].1 <= bound
    ensures forall k :: 0 <= k < |Insert(e, s)| ==> Insert(e, s)[k].1 <= bound
  {
    if s != [] && s[0].1 >= e.1 {
      InsertBounded(e, s[1..], bound);
    }
  }

  lemma {:induction false} InsertSorted(e: Entry, sorted: seq<Entry>)
    requires NonIncreasing(sorted)
    ensures NonIncreasing(Insert(e, sorted))
  {
    if sorted != [] && sorted[0].1 >= e.1 {
      var tail := sorted[1..];
      InsertSorted(e, tail);
      InsertBounded(e, tail, sorted[0].1);
    }
  }

  lemma {:induction false} InsertDistinct(e: Entry, sorted: seq<Entry>)
    requires Distinct(sorted) && e !in multiset(sorted)
    ensures Distinct(Insert(e, sorted))
  {
    if sorted != [] {
      var r := Insert(e, sorted);
      assert sorted == [sorted[0]] + sorted[1..];
      if sorted[0].1 >= e.1 {
        var tail := sorted[1..];
        InsertDistinct(e, tail);
        InsertPermutes(e, tail);
        forall j | 1 <= j < |r|
          ensures r[0] != r[j]
        {
          var x := Insert(e, tail)[j - 1];
          assert x in multiset(Insert(e, tail));
        }
      } else {
        forall j | 1 <= j < |r|
          ensures r[0] != r[j]
        {
          assert r[j] == sorted[j - 1];
          assert r[j] in multiset(sorted);
        }
      }
    }
  }

  /** The sort permutes its input, orders it by decreasing count and keeps it
    * free of repeated entries. */
  lemma {:induction false} SortByCountMeaning(es: seq<Entry>)
    ensures multiset(SortByCount(es)) == multiset(es)
    ensures NonIncreasing(SortByCount(es))
    ensures Distinct(es) ==> Distinct(SortByCount(es))
  {
    if es != [] {
      var init := es[..|es| - 1];
      var e := es[|es| - 1];
      assert es == init + [e];
      SortByCountMeaning(init);
      InsertPermutes(e, SortByCount(init));
      InsertSorted(e, SortByCount(init));
      if Distinct(es) {
        assert Distinct(init) by {
          forall i, j | 0 <= i < j < |init|
            ensures init[i] != init[j]
          {
            assert init[i] == es[i] && init[j] == es[j];
          }
        }
        InsertDistinct(e, SortByCount(init));
      }
    }
  }

  /** The entries carry each distinct word once, with its occurrence count. */
  lemma EntriesMeaning(words: seq<String>)
    ensures Distinct(Entries(words))
    ensures forall e: Entry :: e in multiset(Entries(words)) ==> e.0 in words && e.1 == Occ(words, e.0)
    ensures forall w :: w in words ==> (w, Occ(words, w)) in multiset(Entries(words))
  {
    var d := DedupBy(words, Id);
    var es := Entries(words);
    DedupUnique(words, Id);
    DedupKeys(words, Id);
    forall e: Entry | e in multiset(es)
      ensures e.0 in words && e.1 == Occ(words, e.0)
    {
      var j :| 0 <= j < |es| && es[j] == e;
      KeysOfMembers(d, Id, e.0);
      KeysOfMembers(words, Id, e.0);
    }
    forall w | w in words
      ensures (w, Occ(words, w)) in multiset(es)
    {
      var i :| 0 <= i < |words| && words[i] == w;
      KeysOfMembers(words, Id, w);
      KeysOfMembers(d, Id, w);
      var j :| 0 <= j < |d| && Id(d[j]) == w;
      assert es[j] == (w, Occ(words, w));
    }
  }

  /** The sorted entries: each word once with its count, by decreasing count. */
  lemma SortedEntriesMeaning(words: seq<String>)
    ensures var sorted := SortByCount(Entries(words));
      && NonIncreasing(sorted)
      && (forall i :: 0 <= i < |sorted| ==> sorted[i].0 in words && sorted[i].1 == Occ(words, sorted[i].0))
      && (forall i, j :: 0 <= i < j < |sorted| ==> sorted[i].0 != sorted[j].0)
      && (forall w :: w in words ==> exists m :: 0 <= m < |sorted| && sorted[m] == (w, Occ(words, w)))
  {
    var es := Entries(words);
    var sorted := SortByCount(es);
    EntriesMeaning(words);
    SortByCountMeaning(es);
    assert multiset(sorted) == multiset(es);
    forall i | 0 <= i < |sorted|
      ensures sorted[i].0 in words && sorted[i].1 == Occ(words, sorted[i].0)
    {
      assert sorted[i] in multiset(es);
    }
    assert Distinct(sorted);
    forall i, j | 0 <= i < j < |sorted|
      ensures sorted[i].0 != sorted[j].0
    {
      assert sorted[i] != sorted[j];
    }
    forall w | w in words
      ensures exists m :: 0 <= m < |sorted| && sorted[m] == (w, Occ(words, w))
    {
      assert (w, Occ(words, w)) in multiset(sorted);
    }
  }

  /** At most twenty distinct ideograph runs of the text, ordered by
    * non-increasing count. */
  lemma KeywordsMeaning(content: String)
    ensures var r := KeywordsSpec(content); var words := Runs(content);
      && |r| <= 20
      && (forall i :: 0 <= i < |r| ==> r[i] in words)
      && Distinct(r)
      && (forall i, j :: 0 <= i < j < |r| ==> Occ(words, r[i]) >= Occ(words, r[j]))
      && (forall i :: 0 <= i < |r| ==> exists a, b :: MaximalRun(content, a, b) && r[i] == content[a..b])
  {
    var words := Runs(content);
    var sorted := SortByCount(Entries(words));
    var r := Names(Take(sorted, 20));
    SortedEntriesMeaning(words);
    assert forall i :: 0 <= i < |r| ==> r[i] == sorted[i].0;
    forall i | 0 <= i < |r|
      ensures exists a, b :: MaximalRun(content, a, b) && r[i] == content[a..b]
    {
      RunsAreMaximal(content, r[i]);
    }
  }

  /** A run left out occurs no more often than any keyword, and is left out
    * only when twenty were kept. */
  lemma KeywordsCutoff(content: String, w: String)
    requires w in Runs(content) && w !in KeywordsSpec(content)
    ensures var r := KeywordsSpec(content);
      |r| == 20 && forall i :: 0 <= i < |r| ==> Occ(Runs(content), r[i]) >= Occ(Runs(content), w)
  {
    var words := Runs(content);
    var sorted := SortByCount(Entries(words));
    var r := Names(Take(sorted, 20));
    SortedEntriesMeaning(words);
    var m :| 0 <= m < |sorted| && sorted[m] == (w, Occ(words, w));
    assert forall i :: 0 <= i < |r| ==> r[i] == sorted[i].0;
  }

  /** The loop that feeds the words to the `Map` counter: `order` is the
    * counter's key order and `counts` its values. */
  method CountWords(words: seq<String>) returns (order: seq<String>, counts: map<String, nat>)
    ensures order == DedupBy(words, Id)
    ensures forall w :: w in counts <==> w in order
    ensures forall w :: w in counts ==> counts[w] == Occ(words, w)
  {
    order := [];
    counts := map[];
    for i := 0 to |words|
      invariant order == DedupBy(words[..i], Id)
      invariant forall w :: w in counts <==> w in order
      invariant forall w :: w in counts ==> counts[w] == Occ(words[..i], w)
      invariant forall w :: w !in counts ==> Occ(words[..i], w) == 0
    {
      var w := words[i];
      var before := counts;
      assert words[..i + 1][..i] == words[..i];
      DedupPush(words, Id, i);
      KeysOfMembers(order, Id, w);
      if w in counts {
        counts := counts[w := counts[w] + 1];
      } else {
        order := order + [w];
        counts := counts[w := 1];
      }
      forall x
        ensures x in counts ==> counts[x] == Occ(words[..i + 1], x)
        ensures x !in counts ==> Occ(words[..i + 1], x) == 0
      {
        assert Occ(words[..i + 1], x) == Occ(words[..i], x) + (if w == x then 1 else 0);
        if x != w {
          assert x in counts <==> x in before;
        }
      }
    }
    assert words[..|words|] == words;
  }

  /** `extractKeywords(content)`. */
  method ExtractKeywords(content: String) returns (r: seq<String>)
    ensures r == KeywordsSpec(content)
  {
    var words := Runs(content);
    var order, counts := CountWords(words);
    var entries := seq(|order|, j requires 0 <= j < |order| => (order[j], counts[order[j]]));
    assert entries == Entries(words);
    var sorted := SortByCount(entries);
    r := Names(Take(sorted, 20));
  }
}
