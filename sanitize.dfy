/**
 * Escaping and screening of user-generated content: the single-pass
 * `escapeHtml`, its alias `safeText`, and the `isContentSafe` pattern screen.
 */
module Sanitize {
  import opened Text
  import Validation

  // ---------------------------------------------------------------------------
  // escapeHtml
  // ---------------------------------------------------------------------------

  /** The `htmlEntities` table, and the character itself for every other character. */
  function Entity(c: char): (r: string)
    ensures Validation.IsHtmlSpecial(c) ==> |r| >= 4 && r[0] == '&' && r[|r| - 1] == ';'
    ensures !Validation.IsHtmlSpecial(c) ==> r == [c]
    ensures '<' !in r && '>' !in r && '"' !in r && '\'' !in r && '/' !in r
  {
    match c
    case '&' => "&amp;"
    case '<' => "&lt;"
    case '>' => "&gt;"
    case '"' => "&quot;"
    case '\'' => "&#x27;"
    case '/' => "&#x2F;"
    case _ => [c]
  }

  /** `escapeHtml`: one pass over the text, each character replaced by its entry. */
  function EscapeHtml(content: string): (r: string)
    ensures '<' !in r && '>' !in r && '"' !in r && '\'' !in r && '/' !in r
    ensures (forall k :: 0 <= k < |content| ==> !Validation.IsHtmlSpecial(content[k])) ==> r == content
    decreases |content|
  {
    if |content| == 0 then ""
    else
      var rest := EscapeHtml(content[1..]);
      assert content == [content[0]] + content[1..];
      Entity(content[0]) + rest
  }

  /** Escaping distributes over concatenation. */
  lemma {:induction false} EscapeHtmlAppend(a: string, b: string)
    ensures EscapeHtml(a + b) == EscapeHtml(a) + EscapeHtml(b)
    decreases |a|
  {
    if |a| == 0 {
      assert a + b == b;
    } else {
      assert (a + b)[1..] == a[1..] + b;
      EscapeHtmlAppend(a[1..], b);
    }
  }

  /** Replacing in a one-character text: the entity when it is that character, the text itself otherwise. */
  lemma ReplaceOne(c: char, d: char, entity: string)
    ensures Validation.ReplaceAll([c], d, entity) == if c == d then entity else [c]
  {
    assert [c][1..] == [];
  }

  /**
   * One replacement of the chain, applied to a special character that is
   * either still itself or already its entity.
   */
  lemma ChainStep(c: char, s: string, d: char, f: string)
    requires Validation.IsHtmlSpecial(c)
    requires s == [c] || (s == Entity(c) && d !in s)
    requires c == d ==> f == Entity(c)
    ensures Validation.ReplaceAll(s, d, f) == if s == [c] && c == d then Entity(c) else s
  {
    if s == [c] {
      ReplaceOne(c, d, f);
    } else {
      Validation.ReplaceAllIdentity(s, d, f);
    }
  }

  /** The chained replacements turn a special character into its entity. */
  lemma ChainSpecial(c: char)
    requires Validation.IsHtmlSpecial(c)
    ensures Validation.Chain([c]) == Entity(c)
  {
    var s1 := Validation.ReplaceAll([c], '&', "&amp;");
    ChainStep(c, [c], '&', "&amp;");
    var s2 := Validation.ReplaceAll(s1, '<', "&lt;");
    ChainStep(c, s1, '<', "&lt;");
    var s3 := Validation.ReplaceAll(s2, '>', "&gt;");
    ChainStep(c, s2, '>', "&gt;");
    var s4 := Validation.ReplaceAll(s3, '"', "&quot;");
    ChainStep(c, s3, '"', "&quot;");
    var s5 := Validation.ReplaceAll(s4, '\'', "&#x27;");
    ChainStep(c, s4, '\'', "&#x27;");
    ChainStep(c, s5, '/', "&#x2F;");
  }

  /** The chained replacements turn one character into its entity. */
  lemma SanitizeOneChar(c: char)
    ensures Validation.SanitizeHtml([c]) == Entity(c)
  {
    if Validation.IsHtmlSpecial(c) {
      ChainSpecial(c);
    } else {
      assert forall k :: 0 <= k < |[c]| ==> !Validation.IsHtmlSpecial([c][k]);
    }
  }

  /** The single pass and the chained `replace` of the validation helpers agree on every input. */
  lemma {:induction false} EscapeHtmlIsSanitizeHtml(content: string)
    ensures EscapeHtml(content) == Validation.SanitizeHtml(content)
    decreases |content|
  {
    if |content| > 0 {
      assert content == [content[0]] + content[1..];
      Validation.SanitizeHtmlAppend([content[0]], content[1..]);
      SanitizeOneChar(content[0]);
      EscapeHtmlIsSanitizeHtml(content[1..]);
    }
  }

  /** Reading entities back: the inverse of the escaping. */
  function UnescapeHtml(s: string): string
    decreases |s|
  {
    if |s| == 0 then ""
    else if StartsWith(s, "&amp;") then "&" + UnescapeHtml(s[5..])
    else if StartsWith(s, "&lt;") then "<" + UnescapeHtml(s[4..])
    else if StartsWith(s, "&gt;") then ">" + UnescapeHtml(s[4..])
    else if StartsWith(s, "&quot;") then "\"" + UnescapeHtml(s[6..])
    else if StartsWith(s, "&#x27;") then "'" + UnescapeHtml(s[6..])
    else if StartsWith(s, "&#x2F;") then "/" + UnescapeHtml(s[6..])
    else [s[0]] + UnescapeHtml(s[1..])
  }

  /** Reading back one entity, whatever follows it. */
  lemma UnescapeStep(e: string, c: char, rest: string)
    requires Validation.IsHtmlSpecial(c) && e == Entity(c)
    ensures UnescapeHtml(e + rest) == [c] + UnescapeHtml(rest)
  {
    var s := e + rest;
    assert s[..|e|] == e && s[|e|..] == rest;
    assert s[0] == '&' && s[1] == e[1];
  }

  /** A text that does not start with `&` reads back its first character unchanged. */
  lemma UnescapePlain(s: string)
    requires |s| > 0 && s[0] != '&'
    ensures UnescapeHtml(s) == [s[0]] + UnescapeHtml(s[1..])
  {
    assert !StartsWith(s, "&amp;") && !StartsWith(s, "&lt;") && !StartsWith(s, "&gt;");
    assert !StartsWith(s, "&quot;") && !StartsWith(s, "&#x27;") && !StartsWith(s, "&#x2F;");
  }

  /** Reading back the entity of a character, whatever follows it. */
  lemma UnescapeEntity(c: char, rest: string)
    ensures UnescapeHtml(Entity(c) + rest) == [c] + UnescapeHtml(rest)
  {
    if Validation.IsHtmlSpecial(c) {
      UnescapeStep(Entity(c), c, rest);
    } else {
      var s := Entity(c) + rest;
      assert s[0] == c && s[1..] == rest;
      UnescapePlain(s);
    }
  }

  /** Escaping loses nothing: reading the entities back restores the text. */
  lemma {:induction false} EscapeHtmlRoundTrip(content: string)
    ensures UnescapeHtml(EscapeHtml(content)) == content
    decreases |content|
  {
    if |content| > 0 {
      EscapeHtmlRoundTrip(content[1..]);
      UnescapeEntity(content[0], EscapeHtml(content[1..]));
      assert content == [content[0]] + content[1..];
    }
  }

  /** Different texts never escape to the same output. */
  lemma EscapeHtmlInjective(a: string, b: string)
    requires EscapeHtml(a) == EscapeHtml(b)
    ensures a == b
  {
    EscapeHtmlRoundTrip(a);
    EscapeHtmlRoundTrip(b);
  }

  /** Already-escaped text is escaped again: `&lt;` becomes `&amp;lt;`. */
  lemma EscapedTextIsEscapedAgain()
    ensures EscapeHtml("&lt;") == "&amp;lt;"
    ensures EscapeHtml("") == ""
  {
    var tail := "lt;";
    assert forall k :: 0 <= k < |tail| ==> !Validation.IsHtmlSpecial(tail[k]);
    assert "&lt;"[1..] == tail;
  }

  /** `safeText` is `escapeHtml`. */
  function SafeText(content: string): (r: string)
    ensures UnescapeHtml(r) == content
    ensures '<' !in r && '>' !in r && '"' !in r && '\'' !in r && '/' !in r
  {
    EscapeHtmlRoundTrip(content);
    EscapeHtml(content)
  }

  // ---------------------------------------------------------------------------
  // isContentSafe
  // ---------------------------------------------------------------------------

  /** The entries of `dangerousPatterns`. */
  datatype Pattern =
    /** A fixed lower-case text, searched case-insensitively. */
    | Literal(text: string)
    /** `/on\w+\s*=/i` */
    | EventHandler
    /** `/data:(?!image\/)/i` */
    | DataUri

  const DangerousPatterns: seq<Pattern> :=
    [Literal("<script"), Literal("javascript:"), EventHandler, Literal("<iframe"),
     Literal("<object"), Literal("<embed"), DataUri]

  /**
   * A match of `on\w+\s*=` in the lower-cased text `l`: `on` at `i`, word
   * characters up to `j`, white space up to `m`, and `=` at `m`.
   */
  predicate HandlerMatch(l: string, i: int, j: int, m: int) {
    OccursAt(l, "on", i) && i + 2 < j <= m < |l|
    && (forall k :: i + 2 <= k < j ==> IsWordChar(l[k]))
    && (forall k :: j <= k < m ==> IsWhitespace(l[k]))
    && l[m] == '='
  }

  /** A match of the pattern starting at `i` of the lower-cased text `l`, as the regular expression defines it. */
  ghost predicate MatchesAt(p: Pattern, l: string, i: int) {
    match p
    case Literal(text) => OccursAt(l, text, i)
    case EventHandler => exists j, m :: HandlerMatch(l, i, j, m)
    case DataUri => OccursAt(l, "data:", i) && !OccursAt(l, "image/", i + 5)
  }

  /** Trying the pattern at `i` with greedy runs: `\w+` then `\s*`, no backtracking. */
  predicate TryAt(p: Pattern, l: string, i: nat)
    requires i <= |l|
  {
    match p
    case Literal(text) => OccursAt(l, text, i)
    case EventHandler =>
      OccursAt(l, "on", i)
      && var w := WordRun(l, i + 2);
         w > 0 && var sp := SpaceRun(l, i + 2 + w); i + 2 + w + sp < |l| && l[i + 2 + w + sp] == '='
    case DataUri => OccursAt(l, "data:", i) && !OccursAt(l, "image/", i + 5)
  }

  /**
   * Greedy runs lose nothing: a word character is neither white space nor
   * `=`, and white space is not `=`, so a backtracking match exists only
   * where the greedy one succeeds.
   */
  lemma TryAtIff(p: Pattern, l: string, i: nat)
    requires i <= |l|
    ensures TryAt(p, l, i) <==> MatchesAt(p, l, i)
  {
    if p.EventHandler? {
      if TryAt(p, l, i) {
        var w := WordRun(l, i + 2);
        var sp := SpaceRun(l, i + 2 + w);
        assert HandlerMatch(l, i, i + 2 + w, i + 2 + w + sp);
      }
      forall j, m | HandlerMatch(l, i, j, m) ensures TryAt(p, l, i) {
        HandlerMatchIsGreedy(l, i, j, m);
      }
    }
  }

  /** Any match of `on\w+\s*=` at `i` is found by the greedy runs. */
  lemma HandlerMatchIsGreedy(l: string, i: nat, j: int, m: int)
    requires i <= |l| && HandlerMatch(l, i, j, m)
    ensures TryAt(EventHandler, l, i)
  {
    HandlerWordRun(l, i, j, m);
    HandlerSpaceRun(l, i, j, m);
    GreedyHandlerAt(l, i, j - i - 2, m - j);
  }

  /** The word run of a handler match ends where its white space begins. */
  lemma HandlerWordRun(l: string, i: nat, j: int, m: int)
    requires i <= |l| && HandlerMatch(l, i, j, m)
    ensures WordRun(l, i + 2) == j - i - 2
  {
    assert !IsWordChar(l[j]) by {
      if j < m { assert IsWhitespace(l[j]); } else { assert l[j] == '='; }
    }
    WordRunOf(l, i + 2, j - i - 2);
  }

  /** The white-space run of a handler match ends at its `=`. */
  lemma HandlerSpaceRun(l: string, i: nat, j: int, m: int)
    requires i <= |l| && HandlerMatch(l, i, j, m)
    ensures SpaceRun(l, j) == m - j
  {
    assert !IsWhitespace(l[m]) by { assert l[m] == '='; }
    SpaceRunOf(l, j, m - j);
  }

  /** The greedy handler match, from the lengths of its two runs. */
  lemma GreedyHandlerAt(l: string, i: nat, w: nat, sp: nat)
    requires i + 2 + w + sp < |l| && OccursAt(l, "on", i)
    requires w > 0 && WordRun(l, i + 2) == w && SpaceRun(l, i + 2 + w) == sp
    requires l[i + 2 + w + sp] == '='
    ensures TryAt(EventHandler, l, i)
  {
  }

  /** `pattern.test` scanning start positions from `from` on. */
  function Search(p: Pattern, l: string, from: nat): (found: bool)
    requires from <= |l|
    ensures found <==> exists i :: from <= i <= |l| && MatchesAt(p, l, i)
    decreases |l| - from
  {
    TryAtIff(p, l, from);
    if TryAt(p, l, from) then true
    else if from == |l| then false
    else
      var later := Search(p, l, from + 1);
      assert forall i :: from <= i <= |l| && MatchesAt(p, l, i) ==> i == from || from + 1 <= i;
      later
  }

  /** `pattern.test(content)`, case-insensitively. */
  function Test(p: Pattern, content: string): (found: bool)
    ensures found <==> exists i :: 0 <= i <= |content| && MatchesAt(p, ToLowerAscii(content), i)
  {
    Search(p, ToLowerAscii(content), 0)
  }

  /** `patterns.some((pattern) => pattern.test(content))`, tried in order. */
  function AnyMatches(patterns: seq<Pattern>, content: string): (r: bool)
    ensures r <==> exists n :: 0 <= n < |patterns| && Test(patterns[n], content)
    decreases |patterns|
  {
    if |patterns| == 0 then false
    else if Test(patterns[0], content) then true
    else
      var rest := AnyMatches(patterns[1..], content);
      assert forall n :: 1 <= n < |patterns| ==> patterns[n] == patterns[1..][n - 1];
      rest
  }

  /** `isContentSafe`: no dangerous pattern matches anywhere in the text, in any ASCII case. */
  function IsContentSafe(content: string): (safe: bool)
    ensures safe <==> forall n :: 0 <= n < |DangerousPatterns| ==>
                        forall i :: 0 <= i <= |content| ==> !MatchesAt(DangerousPatterns[n], ToLowerAscii(content), i)
  {
    !AnyMatches(DangerousPatterns, content)
  }

  /** Lower-casing the middle of a text lower-cases the same slice of the whole. */
  lemma LowerSlice(pre: string, mid: string, post: string)
    ensures ToLowerAscii(pre + mid + post)[|pre|..|pre| + |mid|] == ToLowerAscii(mid)
  {
  }

  /** A tag or protocol written in any ASCII case makes the content unsafe. */
  lemma LiteralMakesUnsafe(pre: string, written: string, post: string, n: nat)
    requires n < |DangerousPatterns| && DangerousPatterns[n].Literal?
    requires ToLowerAscii(written) == DangerousPatterns[n].text
    ensures !IsContentSafe(pre + written + post)
  {
    var content := pre + written + post;
    LowerSlice(pre, written, post);
    assert MatchesAt(DangerousPatterns[n], ToLowerAscii(content), |pre|);
    assert Test(DangerousPatterns[n], content);
  }

  /** `data:` not followed by `image/` is unsafe. */
  lemma DataUriMakesUnsafe(pre: string, post: string)
    requires !StartsWith(ToLowerAscii(post), "image/")
    ensures !IsContentSafe(pre + "data:" + post)
  {
    var content := pre + "data:" + post;
    var l := ToLowerAscii(content);
    LowerSlice(pre, "data:", post);
    assert ToLowerAscii("data:") == "data:";
    assert OccursAt(l, "data:", |pre|);
    assert MatchesAt(DataUri, l, |pre|);
    assert Test(DangerousPatterns[6], content);
  }

  /** `data:image/` is never flagged by the data pattern at that position. */
  lemma ImageDataUriPasses(pre: string, post: string)
    ensures !MatchesAt(DataUri, ToLowerAscii(pre + "data:image/" + post), |pre|)
  {
    LowerSlice(pre, "data:image/", post);
    assert ToLowerAscii("data:image/") == "data:image/";
    var l := ToLowerAscii(pre + "data:image/" + post);
    assert l[|pre| + 5..|pre| + 11] == "image/";
  }

  /**
   * A lower-cased text that starts with `data:image/` and whose only colon
   * is the one of `data:`, with no `<` and no `=`.
   */
  predicate ImageOnly(l: string) {
    |l| >= 11 && l[..11] == "data:image/"
    && forall k :: 0 <= k < |l| ==> l[k] != '<' && l[k] != '=' && (l[k] == ':' ==> k == 4)
  }

  /**
   * No pattern matches anywhere in such a text: no tag can open,
   * `javascript:` and `data:` can only end at the one colon, which is
   * followed by `image/`, and no handler has its `=`.
   */
  lemma ImageOnlyMatchesNothing(p: Pattern, l: string, i: nat)
    requires p in DangerousPatterns && ImageOnly(l) && i <= |l|
    ensures !MatchesAt(p, l, i)
  {
    match p
    case Literal(text) =>
      if i + |text| <= |l| {
        if text == "javascript:" {
          assert l[i..i + |text|][10] == l[i + 10] != ':';
        } else {
          assert l[i..i + |text|][0] == l[i] != '<';
        }
      }
    case EventHandler =>
    case DataUri =>
      if i == 0 {
        assert l[5..11] == "image/";
      } else if i + 5 <= |l| {
        assert l[i..i + 5][4] == l[i + 4] != ':';
      }
  }

  /** An image data URI whose remainder holds no `<`, `:` or `=` is safe. */
  lemma ImageDataUriSafe(post: string)
    requires '<' !in post && ':' !in post && '=' !in post
    ensures IsContentSafe("data:image/" + post)
  {
    var content := "data:image/" + post;
    var l := ToLowerAscii(content);
    assert l[..11] == "data:image/";
    forall k | 0 <= k < |l|
      ensures l[k] != '<' && l[k] != '=' && (l[k] == ':' ==> k == 4)
    {
      if k >= 11 { assert content[k] == post[k - 11]; }
    }
    forall n, i | 0 <= n < |DangerousPatterns| && 0 <= i <= |content|
      ensures !MatchesAt(DangerousPatterns[n], l, i)
    {
      ImageOnlyMatchesNothing(DangerousPatterns[n], l, i);
    }
  }

  /** The image data URIs the unit tests expect to pass: `data:image/<format>;base64,abc123`. */
  lemma TestedImageDataUrisSafe(format: string)
    requires format in {"png", "gif", "jpeg", "webp"}
    ensures IsContentSafe("data:image/" + (format + ";base64,abc123"))
  {
    var post := format + ";base64,abc123";
    assert '<' !in post && ':' !in post && '=' !in post;
    ImageDataUriSafe(post);
  }

  /** An event-handler attribute, in any case and with white space before `=`, is unsafe. */
  lemma HandlerMakesUnsafe(pre: string, name: string, space: string, post: string)
    requires |name| > 0 && forall k :: 0 <= k < |name| ==> IsWordChar(name[k])
    requires forall k :: 0 <= k < |space| ==> IsWhitespace(space[k])
    ensures !IsContentSafe(pre + "on" + name + space + "=" + post)
  {
    var content := pre + "on" + name + space + "=" + post;
    var l := ToLowerAscii(content);
    var i := |pre|;
    var j := i + 2 + |name|;
    var m := j + |space|;
    assert l[i..i + 2] == "on" by {
      assert content[i] == 'o' && content[i + 1] == 'n';
    }
    forall k | i + 2 <= k < j ensures IsWordChar(l[k]) {
      assert content[k] == name[k - i - 2];
    }
    forall k | j <= k < m ensures IsWhitespace(l[k]) {
      assert content[k] == space[k - j];
    }
    assert content[m] == '=';
    assert HandlerMatch(l, i, j, m);
    assert MatchesAt(EventHandler, l, i);
    assert Test(DangerousPatterns[2], content);
  }

  /** A line break between the handler name and `=` does not hide it. */
  lemma LineBreakHandlerUnsafe()
    ensures !IsContentSafe("onclick\n=alert(1)")
  {
    assert "" + "on" + "click" + "\n" + "=" + "alert(1)" == "onclick\n=alert(1)";
    HandlerMakesUnsafe("", "click", "\n", "alert(1)");
  }
}
