/** The JavaScript string operations the article helpers are built from:
  * `trim`, `split(/[。！？]/)`, `join`, `slice(0, n)`, `toLowerCase` and
  * `replace(/\s+/g, '')`. Strings are sequences of code points. */
module Text {

  type String = seq<char>

  /** The characters JavaScript's `trim` and the regex class `\s` treat as
    * white space (WhiteSpace and LineTerminator of ECMA-262). */
  predicate IsSpace(c: char) {
    c == '\t' || c == '\n' || c == '\U{000B}' || c == '\U{000C}' || c == '\r' || c == ' '
    || c == '\U{00A0}' || c == '\U{1680}' || ('\U{2000}' <= c <= '\U{200A}')
    || c == '\U{2028}' || c == '\U{2029}' || c == '\U{202F}' || c == '\U{205F}'
    || c == '\U{3000}' || c == '\U{FEFF}'
  }

  /** The sentence terminators of the pattern `/[。！？]/`. */
  predicate IsStop(c: char) {
    c == '。' || c == '！' || c == '？'
  }

  predicate AllSpace(s: String) {
    forall i :: 0 <= i < |s| ==> IsSpace(s[i])
  }

  predicate NoStop(s: String) {
    forall i :: 0 <= i < |s| ==> !IsStop(s[i])
  }

  /** Leading white space removed. */
  function TrimStart(s: String): String {
    if s != [] && IsSpace(s[0]) then TrimStart(s[1..]) else s
  }

  /** Trailing white space removed. */
  function TrimEnd(s: String): String {
    if s != [] && IsSpace(s[|s| - 1]) then TrimEnd(s[..|s| - 1]) else s
  }

  /** `s.trim()`. */
  function Trim(s: String): String {
    TrimEnd(TrimStart(s))
  }

  /** `TrimStart` drops a white-space prefix and stops at the first other character. */
  lemma {:induction false} TrimStartMeaning(s: String)
    ensures var r := TrimStart(s);
      |r| <= |s| && r == s[|s| - |r|..] && AllSpace(s[..|s| - |r|]) && (r == [] || !IsSpace(r[0]))
  {
    if s != [] && IsSpace(s[0]) {
      var tail := s[1..];
      TrimStartMeaning(tail);
      var r := TrimStart(tail);
      var k := |s| - |r|;
      assert AllSpace(tail[..k - 1]);
      assert r == s[k..] by {
        assert tail[|tail| - |r|..] == s[k..];
      }
      forall i | 0 <= i < k
        ensures IsSpace(s[..k][i])
      {
        if i > 0 {
          assert s[..k][i] == tail[..k - 1][i - 1];
        }
      }
    }
  }

  /** `TrimEnd` drops a white-space suffix and stops at the last other character. */
  lemma {:induction false} TrimEndMeaning(s: String)
    ensures var r := TrimEnd(s);
      |r| <= |s| && r == s[..|r|] && AllSpace(s[|r|..]) && (r == [] || !IsSpace(r[|r| - 1]))
  {
    if s != [] && IsSpace(s[|s| - 1]) {
      var init := s[..|s| - 1];
      TrimEndMeaning(init);
      var r := TrimEnd(s);
      forall i | |r| <= i < |s|
        ensures IsSpace(s[i])
      {
        if i < |s| - 1 {
          assert s[i] == init[|r|..][i - |r|];
        }
      }
    }
  }

  /** Trimming never lengthens. */
  lemma TrimShorter(s: String)
    ensures |Trim(s)| <= |s|
  {
    TrimStartMeaning(s);
    TrimEndMeaning(TrimStart(s));
  }

  /** `s.trim()` is empty (falsy) exactly when every character is white space. */
  lemma TrimEmpty(s: String)
    ensures Trim(s) == [] <==> AllSpace(s)
  {
    var t := TrimStart(s);
    TrimStartMeaning(s);
    TrimEndMeaning(t);
    var k := |s| - |t|;
    if Trim(s) == [] {
      assert t == [];
      assert s == s[..k];
    } else {
      assert t != [];
      assert t[0] == s[k];
    }
  }

  /** Text that begins with non-blank text is non-blank. */
  lemma NonBlankExtended(s: String, t: String)
    requires Trim(s) != []
    ensures Trim(s + t) != []
  {
    TrimEmpty(s);
    TrimEmpty(s + t);
    if AllSpace(s + t) {
      forall i | 0 <= i < |s|
        ensures IsSpace(s[i])
      {
        assert s[i] == (s + t)[i];
      }
    }
  }

  /** Text that starts and ends with non-space characters is left as it is. */
  lemma TrimKeeps(s: String)
    requires s != [] && !IsSpace(s[0]) && !IsSpace(s[|s| - 1])
    ensures Trim(s) == s
  {
    assert TrimStart(s) == s;
  }

  /** `s.split(/[。！？]/)`: the pieces between terminators, empty ones included. */
  function Split(s: String): (r: seq<String>)
    ensures |r| >= 1
    ensures forall k :: 0 <= k < |r| ==> NoStop(r[k])
  {
    if s == [] then [[]]
    else
      var rest := Split(s[1..]);
      if IsStop(s[0]) then [[]] + rest
      else [[s[0]] + rest[0]] + rest[1..]
  }

  /** `parts.join(sep)`. */
  function Join(parts: seq<String>, sep: String): String {
    if |parts| == 0 then []
    else if |parts| == 1 then parts[0]
    else parts[0] + sep + Join(parts[1..], sep)
  }

  /** Every terminator replaced by `。`. */
  function NormalizeStops(s: String): (r: String)
    ensures |r| == |s|
  {
    if s == [] then [] else [if IsStop(s[0]) then '。' else s[0]] + NormalizeStops(s[1..])
  }

  /** Splitting and re-joining with `。` gives the text back, up to which
    * terminator stood between two sentences. */
  lemma {:induction false} JoinSplit(s: String)
    ensures Join(Split(s), "。") == NormalizeStops(s)
  {
    if s != [] {
      JoinSplit(s[1..]);
      var rest := Split(s[1..]);
      if !IsStop(s[0]) && |rest| > 1 {
        assert [s[0]] + rest[0] + "。" + Join(rest[1..], "。") == [s[0]] + Join(rest, "。");
      }
    }
  }

  /** The first piece of the split is the longest terminator-free prefix. */
  lemma {:induction false} SplitFirst(s: String)
    ensures var f := Split(s)[0];
      |f| <= |s| && f == s[..|f|] && NoStop(f) && (|f| == |s| || IsStop(s[|f|]))
  {
    if s != [] && !IsStop(s[0]) {
      SplitFirst(s[1..]);
    }
  }

  /** `xs.slice(0, n)` for a non-negative count. */
  function Take<T>(xs: seq<T>, n: nat): (r: seq<T>)
    ensures |r| == if n < |xs| then n else |xs|
    ensures r == xs[..|r|]
  {
    if n < |xs| then xs[..n] else xs
  }

  /** `toLowerCase` on the ASCII letters. */
  function LowerChar(c: char): char {
    if 'A' <= c <= 'Z' then (c as int + 32) as char else c
  }

  function Lower(s: String): (r: String)
    ensures |r| == |s|
    ensures forall i :: 0 <= i < |s| ==> r[i] == LowerChar(s[i])
  {
    if s == [] then [] else [LowerChar(s[0])] + Lower(s[1..])
  }

  /** `replace(/\s+/g, '')`: every white-space character removed. */
  function RemoveSpaces(s: String): (r: String)
    ensures |r| <= |s|
    ensures forall i :: 0 <= i < |r| ==> !IsSpace(r[i])
  {
    if s == [] then []
    else if IsSpace(s[0]) then RemoveSpaces(s[1..])
    else [s[0]] + RemoveSpaces(s[1..])
  }
}
