/**
 * The string helpers the game relies on from Rust's standard library:
 * ASCII lower-casing, substring search and splitting on whitespace.
 */
module Text {
  /** ASCII lower-casing of one character. */
  function Lower(c: char): (l: char)
    ensures 'A' <= c <= 'Z' ==> 'a' <= l <= 'z'
    ensures !('A' <= c <= 'Z') ==> l == c
  {
    if 'A' <= c <= 'Z' then (c as int - 'A' as int + 'a' as int) as char else c
  }

  function LowerString(s: string): (r: string)
    ensures |r| == |s| && forall k :: 0 <= k < |s| ==> r[k] == Lower(s[k])
  {
    seq(|s|, k requires 0 <= k < |s| => Lower(s[k]))
  }

  lemma LowerStringIdempotent(s: string)
    ensures LowerString(LowerString(s)) == LowerString(s)
  {
  }

  /** The query occurs in the text starting at position k. */
  predicate OccursAt(text: string, query: string, k: int)
  {
    0 <= k && k + |query| <= |text| && text[k..k + |query|] == query
  }

  /** `str::contains`: the query occurs as a contiguous piece of the text. */
  function Contains(text: string, query: string): (r: bool)
    ensures r <==> exists k :: OccursAt(text, query, k)
    decreases |text|
  {
    if |query| > |text| then false
    else if text[..|query|] == query then
      assert OccursAt(text, query, 0);
      true
    else
      var r := Contains(text[1..], query);
      assert forall k :: OccursAt(text[1..], query, k) <==> OccursAt(text, query, k + 1);
      assert !OccursAt(text, query, 0);
      assert forall k :: OccursAt(text, query, k) ==> k == 0 || OccursAt(text[1..], query, k - 1);
      r
  }

  /** ASCII whitespace, the only whitespace the console's keys can type. */
  predicate IsWhitespace(c: char)
  {
    c == ' ' || c == '\t' || c == '\n' || c == '\r' || c == '\U{0B}' || c == '\U{0C}'
  }

  /** The length of the run of non-whitespace characters that starts the text. */
  function WordLength(s: string): (n: nat)
    ensures n <= |s|
    ensures forall k :: 0 <= k < n ==> !IsWhitespace(s[k])
    ensures n < |s| ==> IsWhitespace(s[n])
  {
    if s == [] || IsWhitespace(s[0]) then 0 else 1 + WordLength(s[1..])
  }

  /** `str::split_whitespace`: the maximal runs of non-whitespace characters, in order. */
  function SplitWhitespace(s: string): (words: seq<string>)
    ensures forall w :: w in words ==> w != [] && forall c :: c in w ==> !IsWhitespace(c)
    ensures words == [] <==> forall k :: 0 <= k < |s| ==> IsWhitespace(s[k])
    decreases |s|
  {
    if s == [] then []
    else if IsWhitespace(s[0]) then
      var rest := SplitWhitespace(s[1..]);
      assert forall k :: 1 <= k < |s| ==> s[1..][k - 1] == s[k];
      rest
    else
      var n := WordLength(s);
      assert forall c :: c in s[..n] ==> !IsWhitespace(c);
      [s[..n]] + SplitWhitespace(s[n..])
  }

  /** A single word, with any whitespace around it, splits into just that word. */
  lemma {:induction false} SplitPaddedWord(pre: string, w: string, post: string)
    requires w != [] && forall c :: c in w ==> !IsWhitespace(c)
    requires forall c :: c in pre ==> IsWhitespace(c)
    requires forall c :: c in post ==> IsWhitespace(c)
    ensures SplitWhitespace(pre + w + post) == [w]
    decreases |pre|
  {
    if pre == [] {
      var s := w + post;
      assert pre + w + post == s;
      WordLengthOfWord(w, post);
      assert s[..|w|] == w && s[|w|..] == post;
      assert SplitWhitespace(post) == [];
    } else {
      assert (pre + w + post)[1..] == pre[1..] + w + post;
      assert (pre + w + post)[0] == pre[0];
      SplitPaddedWord(pre[1..], w, post);
    }
  }

  lemma {:induction false} WordLengthOfWord(w: string, post: string)
    requires forall c :: c in w ==> !IsWhitespace(c)
    requires post == [] || IsWhitespace(post[0])
    ensures WordLength(w + post) == |w|
    decreases |w|
  {
    if w != [] {
      assert (w + post)[1..] == w[1..] + post;
      WordLengthOfWord(w[1..], post);
    } else {
      assert w + post == post;
    }
  }
}
