/** Pulling the JSON out of a model reply (code.ts `extractJsonFromMarkdown`): the
    content of the first fenced block tagged json, else of the first fenced block,
    else the whole reply, trimmed of white space. The two regular expressions are
    modelled as searches for the opening and the closing fence. */
module Markdown {
  import opened Wrappers

  const Fence := "```"
  const JsonFence := "```json"

  /** White space as JavaScript's `\s` and `trim` see it: the WhiteSpace and
      LineTerminator characters of ECMAScript. */
  predicate IsSpace(c: char) {
    c == '\t' || c == '\n' || c == '\U{000B}' || c == '\U{000C}' || c == '\r' || c == ' '
    || c == '\U{00A0}' || c == '\U{1680}' || ('\U{2000}' <= c <= '\U{200A}')
    || c == '\U{2028}' || c == '\U{2029}' || c == '\U{202F}' || c == '\U{205F}'
    || c == '\U{3000}' || c == '\U{FEFF}'
  }

  /** Every character is white space. */
  ghost predicate AllSpace(s: string) {
    forall i :: 0 <= i < |s| ==> IsSpace(s[i])
  }

  /** The characters from `lo` up to `hi` are white space. */
  ghost predicate SpaceBetween(s: string, lo: int, hi: int) {
    forall i :: lo <= i < hi && 0 <= i < |s| ==> IsSpace(s[i])
  }

  /** Neither the first nor the last character is white space. */
  predicate Trimmed(s: string) {
    s == [] || (!IsSpace(s[0]) && !IsSpace(s[|s| - 1]))
  }

  /** The number of white-space characters `s` begins with. */
  function LeadingSpace(s: string): (n: nat)
    ensures n <= |s|
  {
    if s != [] && IsSpace(s[0]) then 1 + LeadingSpace(s[1..]) else 0
  }

  /** The number of white-space characters `s` ends with. */
  function TrailingSpace(s: string): (n: nat)
    ensures n <= |s|
  {
    if s != [] && IsSpace(s[|s| - 1]) then 1 + TrailingSpace(s[..|s| - 1]) else 0
  }

  /** `String.prototype.trim`: the string without its leading white space and then
      without its trailing white space. */
  function Trim(s: string): string {
    s[LeadingSpace(s)..TrimEnd(s)]
  }

  /** Where the trimmed text ends: before the white space that follows the
      leading white space. */
  function TrimEnd(s: string): (b: nat)
    ensures LeadingSpace(s) <= b <= |s|
  {
    |s| - TrailingSpace(s[LeadingSpace(s)..])
  }

  /** The leading count covers white space only. */
  lemma {:induction false} LeadingSpaceSpec(s: string)
    ensures SpaceBetween(s, 0, LeadingSpace(s))
  {
    if s != [] && IsSpace(s[0]) {
      var n := LeadingSpace(s[1..]);
      LeadingSpaceSpec(s[1..]);
      forall i | 0 <= i < n + 1 ensures IsSpace(s[i]) {
        if i > 0 { assert s[i] == s[1..][i - 1]; }
      }
    }
  }

  /** The leading count stops at a character that is not white space. */
  lemma {:induction false} LeadingSpaceStops(s: string)
    ensures LeadingSpace(s) < |s| ==> !IsSpace(s[LeadingSpace(s)])
  {
    if s != [] && IsSpace(s[0]) {
      var n := LeadingSpace(s[1..]);
      LeadingSpaceStops(s[1..]);
      assert n < |s| - 1 ==> s[n + 1] == s[1..][n];
    }
  }

  /** The trailing count covers white space only. */
  lemma {:induction false} TrailingSpaceSpec(s: string)
    ensures SpaceBetween(s, |s| - TrailingSpace(s), |s|)
  {
    if s != [] && IsSpace(s[|s| - 1]) {
      var u := s[..|s| - 1];
      var n := TrailingSpace(u);
      TrailingSpaceSpec(u);
      forall i | |s| - 1 - n <= i < |s| ensures IsSpace(s[i]) {
        if i < |s| - 1 { assert s[i] == u[i]; }
      }
    }
  }

  /** The trailing count stops at a character that is not white space. */
  lemma {:induction false} TrailingSpaceStops(s: string)
    ensures TrailingSpace(s) < |s| ==> !IsSpace(s[|s| - 1 - TrailingSpace(s)])
  {
    if s != [] && IsSpace(s[|s| - 1]) {
      var u := s[..|s| - 1];
      var n := TrailingSpace(u);
      TrailingSpaceStops(u);
      assert n < |u| ==> s[|s| - 2 - n] == u[|u| - 1 - n];
    }
  }

  /** White space in a suffix is white space in the whole string. */
  lemma SpaceInSuffix(s: string, a: nat, lo: int, hi: int)
    requires a <= |s| && 0 <= lo && SpaceBetween(s[a..], lo, hi)
    ensures SpaceBetween(s, a + lo, a + hi)
  {
    forall i | a + lo <= i < a + hi && 0 <= i < |s| ensures IsSpace(s[i]) {
      assert s[i] == s[a..][i - a];
    }
  }

  /** `trim` keeps the stretch between white space at both ends, and what it keeps
      neither begins nor ends with white space. */
  lemma TrimSpec(s: string)
    ensures SpaceBetween(s, 0, LeadingSpace(s)) && SpaceBetween(s, TrimEnd(s), |s|)
    ensures Trimmed(Trim(s))
  {
    TrimCutsSpace(s);
    TrimKeepsNoSpaceAtEnds(s);
  }

  /** What `trim` cuts off is white space. */
  lemma TrimCutsSpace(s: string)
    ensures SpaceBetween(s, 0, LeadingSpace(s)) && SpaceBetween(s, TrimEnd(s), |s|)
  {
    var a := LeadingSpace(s);
    var t := s[a..];
    LeadingSpaceSpec(s);
    TrailingSpaceSpec(t);
    SpaceInSuffix(s, a, |t| - TrailingSpace(t), |t|);
  }

  /** What `trim` keeps neither begins nor ends with white space. */
  lemma TrimKeepsNoSpaceAtEnds(s: string)
    ensures Trimmed(Trim(s))
  {
    var a := LeadingSpace(s);
    var t := s[a..];
    var n := TrailingSpace(t);
    LeadingSpaceStops(s);
    TrailingSpaceStops(t);
    assert t != [] ==> t[0] == s[a];
    assert Trim(s) == t[..|t| - n];
    TrimmedPrefix(t, n);
  }

  /** What is left of a string whose first character is not white space, once
      its trailing white space is cut, is trimmed. */
  lemma TrimmedPrefix(t: string, n: nat)
    requires n <= |t| && (n < |t| ==> !IsSpace(t[|t| - 1 - n]))
    requires t != [] ==> !IsSpace(t[0])
    ensures Trimmed(t[..|t| - n])
  {
  }

  /** A string that neither begins nor ends with white space is its own trim, and
      only such a string is. */
  lemma TrimFixedIff(s: string)
    ensures Trim(s) == s <==> Trimmed(s)
  {
    TrimSpec(s);
    if Trimmed(s) && s != [] {
      assert LeadingSpace(s) == 0;
      assert s[0..] == s;
      assert TrailingSpace(s) == 0;
    }
  }

  /** Trimming twice trims nothing more. */
  lemma TrimIdempotent(s: string)
    ensures Trim(Trim(s)) == Trim(s)
  {
    TrimSpec(s);
    TrimFixedIff(Trim(s));
  }

  /** White space on both sides of a trimmed middle is what `trim` removes. This is
      also why trimming the lazy capture of `/```\s*([\s\S]*?)\s*```/` gives the
      same text as trimming the whole block between the fences. */
  lemma TrimSurrounded(pre: string, mid: string, post: string)
    requires AllSpace(pre) && AllSpace(post) && Trimmed(mid)
    ensures Trim(pre + mid + post) == mid
  {
    var s := pre + mid + post;
    LeadingPast(pre, mid + post);
    assert s == pre + (mid + post);
    var a := LeadingSpace(s);
    if mid == [] {
      assert AllSpace(s) by {
        forall i | 0 <= i < |s| ensures IsSpace(s[i]) {
          if i < |pre| { assert s[i] == pre[i]; } else { assert s[i] == post[i - |pre|]; }
        }
      }
      LeadingPast(s, []);
      assert s + [] == s;
    } else {
      assert a == |pre|;
      assert s[a..] == mid + post;
      TrailingPast(mid, post);
      assert s[a..|s| - |post|] == mid;
    }
  }

  /** The leading count skips white space to the first other character. */
  lemma {:induction false} LeadingPast(pre: string, rest: string)
    requires AllSpace(pre)
    ensures LeadingSpace(pre + rest) == |pre| + LeadingSpace(rest)
    decreases |pre|
  {
    if pre != [] {
      assert (pre + rest)[0] == pre[0];
      assert (pre + rest)[1..] == pre[1..] + rest;
      LeadingPast(pre[1..], rest);
    } else {
      assert pre + rest == rest;
    }
  }

  /** The trailing count stops at a last character that is not white space. */
  lemma {:induction false} TrailingPast(mid: string, post: string)
    requires AllSpace(post) && mid != [] && !IsSpace(mid[|mid| - 1])
    ensures TrailingSpace(mid + post) == |post|
    decreases |post|
  {
    var s := mid + post;
    if post != [] {
      assert s[..|s| - 1] == mid + post[..|post| - 1];
      TrailingPast(mid, post[..|post| - 1]);
    } else {
      assert s == mid;
    }
  }

  /** `pat` occurs in `s` at position `i`. */
  predicate OccursAt(s: string, pat: string, i: nat) {
    i + |pat| <= |s| && s[i..i + |pat|] == pat
  }

  /** `i` is the first position at or after `from` where `pat` occurs. */
  ghost predicate FirstFrom(s: string, pat: string, from: nat, i: nat) {
    from <= i && OccursAt(s, pat, i) && forall j :: from <= j < i ==> !OccursAt(s, pat, j)
  }

  /** `pat` does not occur at or after `from`. */
  ghost predicate AbsentFrom(s: string, pat: string, from: nat) {
    forall j :: from <= j ==> !OccursAt(s, pat, j)
  }

  /** The first position at or after `from` where `pat` occurs, if any. */
  function Find(s: string, pat: string, from: nat): (r: Option<nat>)
    ensures r.Some? ==> FirstFrom(s, pat, from, r.value)
    ensures r.None? ==> AbsentFrom(s, pat, from)
    decreases |s| - from
  {
    if from + |pat| > |s| then None
    else if s[from..from + |pat|] == pat then Some(from)
    else Find(s, pat, from + 1)
  }

  /** The text between the first `opener` and the first fence after it; nothing
      when there is no such block. The lazy pattern matches at the leftmost opener
      that has a fence after it, and a later opener has one only when the first
      does, so this is the block both regular expressions find. */
  function FenceBody(text: string, opener: string): (r: Option<string>)
    ensures r.Some? ==> AbsentFrom(r.value, Fence, 0)
  {
    match Find(text, opener, 0)
    case None => None
    case Some(i) =>
      match Find(text, Fence, i + |opener|)
      case None => None
      case Some(k) =>
        SliceHasNoFence(text, i + |opener|, k);
        Some(text[i + |opener|..k])
  }

  /** code.ts `extractJsonFromMarkdown`: the result never begins or ends with
      white space. */
  function ExtractJsonFromMarkdown(text: string): (r: string)
    ensures Trimmed(r)
  {
    match FenceBody(text, JsonFence)
    case Some(body) => TrimSpec(body); Trim(body)
    case None =>
      match FenceBody(text, Fence)
      case Some(body) => TrimSpec(body); Trim(body)
      case None => TrimSpec(text); Trim(text)
  }

  /** There is no block after `opener`: no opener at all, or no fence after the
      first one. */
  ghost predicate NoBlock(text: string, opener: string) {
    AbsentFrom(text, opener, 0) ||
    exists i: nat :: FirstFrom(text, opener, 0, i) && AbsentFrom(text, Fence, i + |opener|)
  }

  /** The block is the one between the first opener and the first fence after it. */
  lemma FenceBodyAt(text: string, opener: string, i: nat, k: nat)
    requires FirstFrom(text, opener, 0, i) && FirstFrom(text, Fence, i + |opener|, k)
    ensures FenceBody(text, opener) == Some(text[i + |opener|..k])
  {
    FindUnique(text, opener, 0, i);
    FindUnique(text, Fence, i + |opener|, k);
  }

  /** There is no block when there is no opener, or no fence after the first one. */
  lemma FenceBodyNone(text: string, opener: string)
    ensures FenceBody(text, opener).None? <==>
      AbsentFrom(text, opener, 0) ||
      exists i: nat :: FirstFrom(text, opener, 0, i) && AbsentFrom(text, Fence, i + |opener|)
  {
    var f := Find(text, opener, 0);
    if f.Some? {
      var i := f.value;
      forall i' | FirstFrom(text, opener, 0, i') ensures i' == i {
        FirstUnique(text, opener, 0, i, i');
      }
      assert !AbsentFrom(text, opener, 0);
      var g := Find(text, Fence, i + |opener|);
      if g.Some? {
        assert !AbsentFrom(text, Fence, i + |opener|);
      }
    } else {
      assert AbsentFrom(text, opener, 0);
    }
  }

  /** Two first occurrences are the same. */
  lemma FirstUnique(s: string, pat: string, from: nat, i: nat, j: nat)
    requires FirstFrom(s, pat, from, i) && FirstFrom(s, pat, from, j)
    ensures i == j
  {
  }

  /** The search returns the first occurrence. */
  lemma FindUnique(s: string, pat: string, from: nat, i: nat)
    requires FirstFrom(s, pat, from, i)
    ensures Find(s, pat, from) == Some(i)
  {
    var r := Find(s, pat, from);
    if r.Some? {
      FirstUnique(s, pat, from, r.value, i);
    }
  }

  /** The precedence, first: a json block (the text between the first json opener
      and the first fence after it) is returned trimmed, whatever else the reply
      holds. */
  lemma ExtractJsonBlock(text: string, i: nat, k: nat)
    requires FirstFrom(text, JsonFence, 0, i) && FirstFrom(text, Fence, i + |JsonFence|, k)
    ensures ExtractJsonFromMarkdown(text) == Trim(text[i + |JsonFence|..k])
  {
    FenceBodyAt(text, JsonFence, i, k);
  }

  /** Second: without a json block, the text between the first fence and the next
      one is returned trimmed. */
  lemma ExtractPlainBlock(text: string, p: nat, q: nat)
    requires NoBlock(text, JsonFence)
    requires FirstFrom(text, Fence, 0, p) && FirstFrom(text, Fence, p + |Fence|, q)
    ensures ExtractJsonFromMarkdown(text) == Trim(text[p + |Fence|..q])
  {
    FenceBodyNone(text, JsonFence);
    FenceBodyAt(text, Fence, p, q);
  }

  /** Last: without either kind of block, the whole reply is returned trimmed. */
  lemma ExtractWholeReply(text: string)
    requires NoBlock(text, JsonFence) && NoBlock(text, Fence)
    ensures ExtractJsonFromMarkdown(text) == Trim(text)
  {
    FenceBodyNone(text, JsonFence);
    FenceBodyNone(text, Fence);
  }

  /** A json opener is a fence followed by the tag. */
  lemma JsonOpensWithFence(s: string, i: nat)
    requires OccursAt(s, JsonFence, i)
    ensures OccursAt(s, Fence, i)
  {
    assert s[i..i + 3] == s[i..i + 7][..3];
  }

  /** Without any fence in the reply, the reply itself is returned, trimmed. */
  lemma NoFenceKeepsText(text: string)
    requires AbsentFrom(text, Fence, 0)
    ensures ExtractJsonFromMarkdown(text) == Trim(text)
  {
    var j := Find(text, JsonFence, 0);
    if j.Some? {
      JsonOpensWithFence(text, j.value);
    }
    var f := Find(text, Fence, 0);
  }

  /** No fence begins inside a stretch of text without fences. */
  lemma SliceHasNoFence(text: string, j: nat, k: nat)
    requires j <= k <= |text|
    requires forall i :: j <= i < k ==> !OccursAt(text, Fence, i)
    ensures AbsentFrom(text[j..k], Fence, 0)
  {
    forall q | 0 <= q ensures !OccursAt(text[j..k], Fence, q) {
      if q + 3 <= k - j {
        var u := text[j..k];
        var x, y := u[q..q + 3], text[j + q..j + q + 3];
        forall d | 0 <= d < 3 ensures x[d] == y[d] {
          assert x[d] == u[q + d] && y[d] == text[j + q + d];
        }
        assert x == y;
        assert !OccursAt(text, Fence, j + q);
      }
    }
  }

  /** A stretch of a text without fences has none either. */
  lemma SubHasNoFence(s: string, a: nat, b: nat)
    requires a <= b <= |s| && AbsentFrom(s, Fence, 0)
    ensures AbsentFrom(s[a..b], Fence, 0)
  {
    SliceHasNoFence(s, a, b);
  }

  /** The block the reply yields, once trimmed, holds no fence either. */
  lemma BlockHasNoFence(text: string, opener: string)
    requires FenceBody(text, opener).Some?
    ensures AbsentFrom(Trim(FenceBody(text, opener).value), Fence, 0)
  {
    TrimHasNoFence(FenceBody(text, opener).value);
  }

  /** Trimming a text without fences leaves none. */
  lemma TrimHasNoFence(s: string)
    requires AbsentFrom(s, Fence, 0)
    ensures AbsentFrom(Trim(s), Fence, 0)
  {
    SubHasNoFence(s, LeadingSpace(s), TrimEnd(s));
  }

  /** No character of `s` is a backtick. */
  ghost predicate NoBacktick(s: string) {
    forall i :: 0 <= i < |s| ==> s[i] != '`'
  }

  /** The first occurrence after `from` of a pattern beginning with a fence, when
      none of the characters in between is a backtick. */
  lemma FirstAfterPlainText(s: string, pat: string, from: nat, k: nat)
    requires |pat| >= 1 && pat[0] == '`'
    requires from <= k && OccursAt(s, pat, k)
    requires forall i :: from <= i < k ==> s[i] != '`'
    ensures FirstFrom(s, pat, from, k)
  {
    forall i | from <= i < k ensures !OccursAt(s, pat, i) {
      NotAt(s, pat, i, 0);
    }
  }

  /** A json block after text without backticks is found, whatever follows it. */
  lemma JsonBlockFound(pre: string, body: string, post: string)
    requires NoBacktick(pre) && NoBacktick(body)
    ensures ExtractJsonFromMarkdown(pre + JsonFence + body + Fence + post) == Trim(body)
  {
    var text := pre + JsonFence + body + Fence + post;
    var j, k := |pre| + 7, |pre| + 7 + |body|;
    assert text[|pre|..j] == JsonFence;
    FirstAfterPlainText(text, JsonFence, 0, |pre|);
    assert text[k..k + 3] == Fence;
    forall i | j <= i < k ensures text[i] != '`' {
      assert text[i] == body[i - j];
    }
    FirstAfterPlainText(text, Fence, j, k);
    FenceBodyAt(text, JsonFence, |pre|, k);
    assert text[j..k] == body;
  }

  /** A pattern does not occur where one of its characters differs. */
  lemma NotAt(s: string, pat: string, i: nat, d: nat)
    requires d < |pat| && (i + |pat| <= |s| ==> s[i + d] != pat[d])
    ensures !OccursAt(s, pat, i)
  {
    if i + |pat| <= |s| {
      assert s[i..i + |pat|][d] == s[i + d];
    }
  }

  /** The only backticks are those of two fences at `p` and `q`, and the text
      right after the first is not the json tag. */
  ghost predicate TwoFences(text: string, p: nat, q: nat) {
    p + 3 < q && q + 3 <= |text| && OccursAt(text, Fence, p) && OccursAt(text, Fence, q)
    && text[p + 3] != 'j'
    && forall i :: 0 <= i < |text| && !(p <= i < p + 3) && !(q <= i < q + 3) ==> text[i] != '`'
  }

  /** In such a text a json opener can only be the second fence. */
  lemma JsonOpenerOnlyAtSecond(text: string, p: nat, q: nat, i: nat)
    requires TwoFences(text, p, q) && i != q
    ensures !OccursAt(text, JsonFence, i)
  {
    if i + 7 <= |text| {
      if i < p || (p + 3 <= i < q) || q + 3 <= i {
        NotAt(text, JsonFence, i, 0);
      } else if i == p {
        NotAt(text, JsonFence, i, 3);
      } else if i < p + 3 {
        NotAt(text, JsonFence, i, p + 3 - i);
      } else {
        assert text[q + 3] != '`';
        NotAt(text, JsonFence, i, q + 3 - i);
      }
    }
  }

  /** In such a text no fence follows a json opener, so there is no json block. */
  lemma NoJsonBlock(text: string, p: nat, q: nat)
    requires TwoFences(text, p, q)
    ensures FenceBody(text, JsonFence).None?
  {
    var f := Find(text, JsonFence, 0);
    if f.Some? {
      var i := f.value;
      if i != q {
        JsonOpenerOnlyAtSecond(text, p, q, i);
      }
      forall m: nat | q + 7 <= m ensures !OccursAt(text, Fence, m) {
        NotAt(text, Fence, m, 0);
      }
      assert Find(text, Fence, q + 7).None?;
    }
  }

  /** A block without the json tag is found when the reply has no other
      backticks. */
  lemma PlainBlockFound(pre: string, body: string, post: string)
    requires NoBacktick(pre) && NoBacktick(body) && NoBacktick(post)
    requires body != [] && body[0] != 'j'
    ensures ExtractJsonFromMarkdown(pre + Fence + body + Fence + post) == Trim(body)
  {
    var text := pre + Fence + body + Fence + post;
    var j, k := |pre| + 3, |pre| + 3 + |body|;
    assert text[|pre|..j] == Fence;
    assert text[k..k + 3] == Fence;
    assert TwoFences(text, |pre|, k) by {
      assert text[j] == body[0];
      forall i | 0 <= i < |text| && !(|pre| <= i < j) && !(k <= i < k + 3) ensures text[i] != '`' {
        if i < |pre| {
          assert text[i] == pre[i];
        } else if i < k {
          assert text[i] == body[i - j];
        } else {
          assert text[i] == post[i - k - 3];
        }
      }
    }
    NoJsonBlock(text, |pre|, k);
    FirstAfterPlainText(text, Fence, 0, |pre|);
    FirstAfterPlainText(text, Fence, j, k);
    FenceBodyAt(text, Fence, |pre|, k);
    assert text[j..k] == body;
  }

  /** A reply that is just a json block with the object on its own line, such as
      "```json", a line break, `{"summary":"ok"}`, a line break and "```", yields
      the object's text exactly. */
  lemma JsonLineBlock(obj: string)
    requires Trimmed(obj) && NoBacktick(obj)
    ensures ExtractJsonFromMarkdown(JsonFence + "\n" + obj + "\n" + Fence) == obj
  {
    var nl := "\n";
    var body := nl + obj + nl;
    assert NoBacktick(body) by {
      forall i | 0 <= i < |body| ensures body[i] != '`' {
        if 0 < i < |body| - 1 { assert body[i] == obj[i - 1]; }
      }
    }
    assert JsonFence + nl + obj + nl + Fence == [] + JsonFence + body + Fence + [];
    JsonBlockFound([], body, []);
    TrimSurrounded(nl, obj, nl);
  }
}
