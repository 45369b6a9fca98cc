/**
 * The text helpers of script.js: `escapeHTML`, the tag stripping and word
 * counting of `stripWords`, and the `trim` the comment form applies to its inputs.
 */
module Text {
  import opened Wrappers

  /**
   * The characters matched by the JavaScript pattern `\s` and removed by
   * `String.prototype.trim`: the WhiteSpace and LineTerminator productions
   * of ECMAScript (the two sets agree).
   */
  predicate IsSpace(c: char)
    ensures IsSpace(c) ==> c != '<' && c != '>' && c != '&'
    ensures c < '\U{80}' ==> (IsSpace(c) <==> c == ' ' || '\t' <= c <= '\r')
  {
    || c == '\t' || c == '\n' || c == '\U{B}' || c == '\U{C}' || c == '\r'
    || c == ' ' || c == '\U{A0}' || c == '\U{1680}'
    || ('\U{2000}' <= c <= '\U{200A}')
    || c == '\U{2028}' || c == '\U{2029}' || c == '\U{202F}' || c == '\U{205F}'
    || c == '\U{3000}' || c == '\U{FEFF}'
  }

  // ---------------------------------------------------------------------------
  // escapeHTML

  const Amp: string := "&amp;"
  const Lt: string := "&lt;"

  /** `s.replace(/c/g, rep)` for a one-character pattern: every `c`, left to right, becomes `rep`. */
  function ReplaceAll(s: string, c: char, rep: string): (r: string)
    ensures c !in rep ==> c !in r
    ensures c !in s ==> r == s
    ensures |s| == 1 ==> r == (if s[0] == c then rep else s)
  {
    if s == [] then []
    else (if s[0] == c then rep else [s[0]]) + ReplaceAll(s[1..], c, rep)
  }

  /** The escape of one character, as a reference for what the two passes do together. */
  function EscapeChar(c: char): string {
    if c == '&' then Amp else if c == '<' then Lt else [c]
  }

  /** A one-pass reference escape: each character replaced by its own escape. */
  function EscapeEach(s: string): (r: string) {
    if s == [] then [] else EscapeChar(s[0]) + EscapeEach(s[1..])
  }

  /** Position `i` of `r` begins one of the two entities escaping produces. */
  predicate EntityAt(r: string, i: nat)
    requires i <= |r|
  {
    Amp <= r[i..] || Lt <= r[i..]
  }

  /** Decodes the two entities back to `&` and `<`; every other character is kept. */
  function Unescape(r: string): string
    decreases |r|
  {
    if r == [] then []
    else if Amp <= r then ['&'] + Unescape(r[|Amp|..])
    else if Lt <= r then ['<'] + Unescape(r[|Lt|..])
    else [r[0]] + Unescape(r[1..])
  }

  /**
   * `escapeHTML(s)` (script.js:175): first every `&` becomes `&amp;`, then every
   * `<` becomes `&lt;`. A missing value (`undefined`, `null`) is `None`.
   */
  function EscapeHtml(s: Option<string>): (r: string)
    ensures s.None? || s == Some([]) ==> r == []
    ensures '<' !in r
    ensures forall i :: 0 <= i < |r| && r[i] == '&' ==> EntityAt(r, i)
    ensures Unescape(r) == s.GetOr([])
    ensures '&' !in s.GetOr([]) && '<' !in s.GetOr([]) ==> r == s.GetOr([])
  {
    var t := s.GetOr([]);
    TwoPassIsEachChar(t);
    EscapeEachIsSafe(t);
    EscapeEachRoundTrip(t);
    ReplaceAll(ReplaceAll(t, '&', Amp), '<', Lt)
  }

  lemma {:induction false} ReplaceAllAppend(a: string, b: string, c: char, rep: string)
    ensures ReplaceAll(a + b, c, rep) == ReplaceAll(a, c, rep) + ReplaceAll(b, c, rep)
  {
    if a == [] {
      assert a + b == b;
    } else {
      assert (a + b)[0] == a[0];
      assert (a + b)[1..] == a[1..] + b;
      ReplaceAllAppend(a[1..], b, c, rep);
    }
  }

  /** The two passes of `escapeHTML` equal the one-pass escape: `&amp;` holds no `<`. */
  lemma {:induction false} TwoPassIsEachChar(s: string)
    ensures ReplaceAll(ReplaceAll(s, '&', Amp), '<', Lt) == EscapeEach(s)
  {
    if s != [] {
      var head := if s[0] == '&' then Amp else [s[0]];
      var inner := ReplaceAll(s[1..], '&', Amp);
      assert ReplaceAll(s, '&', Amp) == head + inner;
      ReplaceAllAppend(head, inner, '<', Lt);
      assert ReplaceAll(head, '<', Lt) == EscapeChar(s[0]) by {
        if s[0] == '&' {
          assert ReplaceAll(Amp, '<', Lt) == Amp by { assert '<' !in Amp; }
        } else {
          assert ReplaceAll([s[0]], '<', Lt) == (if s[0] == '<' then Lt else [s[0]]) + ReplaceAll([], '<', Lt);
        }
      }
      TwoPassIsEachChar(s[1..]);
    }
  }

  /** The one-pass escape leaves no `<`, and each `&` it leaves starts an entity. */
  lemma {:induction false} EscapeEachIsSafe(s: string)
    ensures '<' !in EscapeEach(s)
    ensures forall i :: 0 <= i < |EscapeEach(s)| && EscapeEach(s)[i] == '&' ==> EntityAt(EscapeEach(s), i)
  {
    if s != [] {
      EscapeEachIsSafe(s[1..]);
      var head, rest := EscapeChar(s[0]), EscapeEach(s[1..]);
      var r := head + rest;
      assert r == EscapeEach(s);
      assert '<' !in head;
      forall i | 0 <= i < |r| && r[i] == '&'
        ensures EntityAt(r, i)
      {
        if i < |head| {
          assert head == Amp || head == Lt;
          assert i == 0;
          assert r[0..] == head + rest;
        } else {
          assert rest[i - |head|] == '&';
          assert r[i..] == rest[i - |head|..];
        }
      }
    }
  }

  /** Unescaping the one-pass escape gives the input back. */
  lemma {:induction false} EscapeEachRoundTrip(s: string)
    ensures Unescape(EscapeEach(s)) == s
  {
    if s != [] {
      var head, rest := EscapeChar(s[0]), EscapeEach(s[1..]);
      var r := head + rest;
      assert r == EscapeEach(s);
      EscapeEachRoundTrip(s[1..]);
      if s[0] == '&' {
        assert Amp <= r;
        assert r[|Amp|..] == rest;
      } else if s[0] == '<' {
        assert !(Amp <= r) by { assert r[1] == 'l'; }
        assert Lt <= r;
        assert r[|Lt|..] == rest;
      } else {
        assert r[0] == s[0] && r[1..] == rest;
        assert !(Amp <= r) && !(Lt <= r) by { assert r[0] != '&'; }
      }
    }
  }

  // ---------------------------------------------------------------------------
  // stripWords

  /** The index of the first `c` in `s`. */
  function FirstIndex(s: string, c: char): (i: nat)
    requires c in s
    ensures i < |s| && s[i] == c && c !in s[..i]
  {
    if s[0] == c then 0
    else
      var j := FirstIndex(s[1..], c);
      assert s[..j + 1] == [s[0]] + s[1..][..j];
      j + 1
  }

  /**
   * `s.replace(/<[^>]*>/g, '')`: a `<` with some `>` after it is deleted up to and
   * including the first such `>`; a `<` with none after it stays, and scanning
   * goes on after it. Nothing is inserted in place of a deleted span.
   */
  function StripTags(s: string): (r: string)
    ensures multiset(r) <= multiset(s)
    ensures forall i, j :: 0 <= i < j < |r| && r[i] == '<' ==> r[j] != '>'
    ensures '<' !in s ==> r == s
    ensures '>' !in s ==> r == s
    decreases |s|
  {
    if s == [] then []
    else if s[0] == '<' && '>' in s[1..] then
      var close := 1 + FirstIndex(s[1..], '>');
      assert s == s[..close + 1] + s[close + 1..];
      StripTags(s[close + 1..])
    else
      var rest := StripTags(s[1..]);
      assert s == [s[0]] + s[1..];
      assert s[0] == '<' ==> '>' !in rest by {
        if '>' in rest {
          assert '>' in multiset(rest);
        }
      }
      [s[0]] + rest
  }

  /** Where the run of non-whitespace characters starting at `i` ends. */
  function WordEnd(s: string, i: nat): (e: nat)
    requires i <= |s|
    ensures i <= e <= |s|
    ensures forall j :: i <= j < e ==> !IsSpace(s[j])
    ensures e < |s| ==> IsSpace(s[e])
    decreases |s| - i
  {
    if i == |s| || IsSpace(s[i]) then i else WordEnd(s, i + 1)
  }

  /** Where the run of whitespace starting at `i` ends. */
  function SpaceEnd(s: string, i: nat): (e: nat)
    requires i <= |s|
    ensures i <= e <= |s|
    ensures forall j :: i <= j < e ==> IsSpace(s[j])
    ensures e < |s| ==> !IsSpace(s[e])
    decreases |s| - i
  {
    if i == |s| || !IsSpace(s[i]) then i else SpaceEnd(s, i + 1)
  }

  /** The length of the longest suffix of `t` made of whitespace. */
  function TrailingSpaceLen(t: string): (n: nat)
    ensures n <= |t|
    ensures forall j :: |t| - n <= j < |t| ==> IsSpace(t[j])
    ensures n < |t| ==> !IsSpace(t[|t| - n - 1])
  {
    if t == [] || !IsSpace(t[|t| - 1]) then 0 else 1 + TrailingSpaceLen(t[..|t| - 1])
  }

  /** The pieces of `s[i..]` between maximal runs of whitespace. */
  function SplitFrom(s: string, i: nat): (parts: seq<string>)
    requires i <= |s|
    ensures |parts| >= 1
    ensures forall k, j :: 0 <= k < |parts| && 0 <= j < |parts[k]| ==> !IsSpace(parts[k][j])
    decreases |s| - i
  {
    var e := WordEnd(s, i);
    if e == |s| then [s[i..]]
    else [s[i..e]] + SplitFrom(s, SpaceEnd(s, e))
  }

  /**
   * `t.split(/\s+/)`: the pieces between maximal runs of whitespace. A leading
   * or trailing run yields an empty first or last piece; `""` splits into `[""]`.
   */
  function Split(t: string): (parts: seq<string>)
    ensures |parts| >= 1
    ensures forall k, j :: 0 <= k < |parts| && 0 <= j < |parts[k]| ==> !IsSpace(parts[k][j])
    ensures NonEmptyPieces(parts) == RunsOf(t, 0)
  {
    SplitPiecesAreRuns(t, 0);
    SplitFrom(t, 0)
  }

  /** `parts.filter(Boolean)`: the non-empty pieces, in order. */
  function NonEmptyPieces(parts: seq<string>): seq<string> {
    if parts == [] then []
    else (if parts[0] == [] then [] else [parts[0]]) + NonEmptyPieces(parts[1..])
  }

  /** `parts.filter(Boolean).length`: the number of non-empty pieces. */
  function CountNonEmpty(parts: seq<string>): (n: nat)
    ensures n == |NonEmptyPieces(parts)|
    ensures n <= |parts|
  {
    if parts == [] then 0
    else (if parts[0] == [] then 0 else 1) + CountNonEmpty(parts[1..])
  }

  /** Position `i` of `s` is the first character of a maximal run of non-whitespace. */
  predicate RunStart(s: string, i: int) {
    0 <= i < |s| && !IsSpace(s[i]) && (i == 0 || IsSpace(s[i - 1]))
  }

  /** The number of run starts at positions `i` and later. */
  function RunsFrom(s: string, i: nat): nat
    decreases |s| - i
  {
    if i >= |s| then 0 else (if RunStart(s, i) then 1 else 0) + RunsFrom(s, i + 1)
  }

  /** The maximal runs of non-whitespace characters starting at `i` or later, in order. */
  function RunsOf(s: string, i: nat): (runs: seq<string>)
    ensures |runs| == RunsFrom(s, i)
    decreases |s| - i
  {
    if i >= |s| then []
    else (if RunStart(s, i) then [s[i..WordEnd(s, i)]] else []) + RunsOf(s, i + 1)
  }

  /** The number of maximal runs of non-whitespace characters in `s`. */
  function RunCount(s: string): nat {
    RunsFrom(s, 0)
  }

  /**
   * `stripWords(html)` (script.js:316): strip the tags, split on whitespace, count
   * the non-empty pieces. A missing value counts 0.
   */
  function StripWords(html: Option<string>): (n: nat)
    ensures n == RunCount(StripTags(html.GetOr([])))
    ensures html.None? || html == Some([]) ==> n == 0
  {
    var text := StripTags(html.GetOr([]));
    SplitCountsRuns(text, 0);
    CountNonEmpty(Split(text))
  }

  lemma {:induction false} RunsFromSkip(s: string, i: nat, k: nat)
    requires i <= k <= |s|
    requires forall j :: i <= j < k ==> !RunStart(s, j)
    ensures RunsOf(s, i) == RunsOf(s, k)
    ensures RunsFrom(s, i) == RunsFrom(s, k)
    decreases k - i
  {
    if i < k {
      RunsFromSkip(s, i + 1, k);
    }
  }

  /** From a position that follows whitespace, the first run is the word at that position. */
  lemma {:induction false} RunsOfWord(s: string, i: nat)
    requires i <= |s|
    requires i == 0 || IsSpace(s[i - 1])
    ensures RunsOf(s, i) == (if i < WordEnd(s, i) then [s[i..WordEnd(s, i)]] else []) + RunsOf(s, WordEnd(s, i))
  {
    var e := WordEnd(s, i);
    if i < e {
      assert RunStart(s, i);
      forall j | i + 1 <= j < e ensures !RunStart(s, j) { assert !IsSpace(s[j - 1]); }
      RunsFromSkip(s, i + 1, e);
    }
  }

  /**
   * Splitting from a position that follows whitespace: the non-empty pieces are
   * exactly the runs of non-whitespace, in order.
   */
  lemma {:induction false} SplitPiecesAreRuns(s: string, i: nat)
    requires i <= |s|
    requires i == 0 || IsSpace(s[i - 1])
    ensures NonEmptyPieces(SplitFrom(s, i)) == RunsOf(s, i)
    decreases |s| - i
  {
    var e := WordEnd(s, i);
    var parts := SplitFrom(s, i);
    var first := if i < e then [s[i..e]] else [];
    RunsOfWord(s, i);
    if e < |s| {
      var next := SpaceEnd(s, e);
      RunsFromSkip(s, e, next);
      SplitPiecesAreRuns(s, next);
      assert parts[0] == s[i..e];
      assert parts[1..] == SplitFrom(s, next);
      assert NonEmptyPieces(parts) == first + NonEmptyPieces(parts[1..]);
    } else {
      assert s[i..] == s[i..e];
      assert parts == [s[i..e]];
      assert NonEmptyPieces(parts) == first + NonEmptyPieces([]);
    }
  }

  /** Splitting from a position that follows whitespace yields one non-empty piece per run. */
  lemma SplitCountsRuns(s: string, i: nat)
    requires i <= |s|
    requires i == 0 || IsSpace(s[i - 1])
    ensures CountNonEmpty(SplitFrom(s, i)) == RunsFrom(s, i)
  {
    SplitPiecesAreRuns(s, i);
  }

  /** A complete tag at the front is deleted outright. */
  lemma StripTagsLeadingTag(tag: string, rest: string)
    requires |tag| >= 2 && tag[0] == '<' && tag[|tag| - 1] == '>'
    requires '>' !in tag[..|tag| - 1]
    ensures StripTags(tag + rest) == StripTags(rest)
  {
    var s := tag + rest;
    assert s[1..][|tag| - 2] == '>';
    assert s[|tag|..] == rest;
  }

  /** Any character other than `<` at the front is kept. */
  lemma StripTagsLeadingChar(c: char, rest: string)
    requires c != '<'
    ensures StripTags([c] + rest) == [c] + StripTags(rest)
  {
    assert ([c] + rest)[1..] == rest;
  }

  /** A one-character paragraph `<p>c</p>` strips to `c`. */
  lemma StripTagsParagraph(c: char, rest: string)
    requires c != '<'
    ensures StripTags("<p>" + [c] + "</p>" + rest) == [c] + StripTags(rest)
  {
    var open, close := "<p>", "</p>";
    assert "<p>" + [c] + "</p>" + rest == open + ([c] + (close + rest));
    StripTagsLeadingTag(close, rest);
    StripTagsLeadingChar(c, close + rest);
    StripTagsLeadingTag(open, [c] + (close + rest));
  }

  /**
   * Deleting a tag inserts no separator: two one-letter paragraphs with no
   * whitespace between them, as in `<p>a</p><p>b</p>`, make one word.
   */
  lemma AdjacentParagraphsAreOneWord(a: char, b: char)
    requires a != '<' && b != '<' && !IsSpace(a) && !IsSpace(b)
    ensures StripWords(Some(("<p>" + [a] + "</p>") + ("<p>" + [b] + "</p>"))) == 1
  {
    var second := "<p>" + [b] + "</p>";
    StripTagsParagraph(b, []);
    assert second + [] == second;
    StripTagsParagraph(a, second);
    var t := [a, b];
    assert StripTags(("<p>" + [a] + "</p>") + second) == t;
    assert RunStart(t, 0) && !RunStart(t, 1);
    assert RunsFrom(t, 1) == RunsFrom(t, 2) == 0;
  }

  // ---------------------------------------------------------------------------
  // trim

  /** Every character of `s` is whitespace. */
  predicate AllSpace(s: string) {
    forall j :: 0 <= j < |s| ==> IsSpace(s[j])
  }

  /** `s.trim()`: `s` without its leading and trailing whitespace. */
  function Trim(s: string): (r: string)
    ensures r == [] <==> AllSpace(s)
    ensures r != [] ==> !IsSpace(r[0]) && !IsSpace(r[|r| - 1])
    ensures exists a :: 0 <= a <= |s| - |r| && r == s[a..a + |r|]
                        && AllSpace(s[..a]) && AllSpace(s[a + |r|..])
  {
    var a := SpaceEnd(s, 0);
    if a == |s| then
      TrimBounds(s, 0, 0);
      []
    else
      var b := TrailingSpaceLen(s);
      assert !IsSpace(s[a]);
      assert a + b < |s|;
      TrimBounds(s, a, |s| - b);
      s[a..|s| - b]
  }

  /** The slice `s[a..e]` with whitespace on both sides of it. */
  lemma TrimBounds(s: string, a: nat, e: nat)
    requires a <= e <= |s|
    requires forall j :: 0 <= j < a ==> IsSpace(s[j])
    requires forall j :: e <= j < |s| ==> IsSpace(s[j])
    ensures AllSpace(s[..a]) && AllSpace(s[e..])
  {
  }

  /** Trimming twice is trimming once. */
  lemma TrimIdempotent(s: string)
    ensures Trim(Trim(s)) == Trim(s)
  {
    var r := Trim(s);
    if r != [] {
      assert SpaceEnd(r, 0) == 0;
      assert TrailingSpaceLen(r) == 0;
      assert r[0..|r|] == r;
    }
  }
}
