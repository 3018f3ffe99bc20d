/**
 * String operations of JavaScript used by the chat proxy, stated over `seq<char>`:
 * `startsWith`, `includes`, `split("\n")`, `join`, `indexOf`, `trim`, ASCII
 * case folding (what the `i` flag of a non-Unicode regular expression does),
 * and decimal printing of integers.
 */
module Text {

  /** `s.startsWith(prefix)` */
  predicate StartsWith(s: string, prefix: string) {
    |prefix| <= |s| && s[..|prefix|] == prefix
  }

  /** `sub` occurs in `s` starting at index `i`. */
  predicate OccursAt(s: string, sub: string, i: int) {
    0 <= i && i + |sub| <= |s| && s[i..i + |sub|] == sub
  }

  /** `s.includes(sub)`, searched left to right. */
  predicate Contains(s: string, sub: string)
    decreases |s|
  {
    StartsWith(s, sub) || (|s| > 0 && Contains(s[1..], sub))
  }

  /** The search agrees with the declarative "occurs somewhere" reading. */
  lemma {:induction false} ContainsIff(s: string, sub: string)
    ensures Contains(s, sub) <==> exists i :: OccursAt(s, sub, i)
    decreases |s|
  {
    assert |sub| == 0 ==> StartsWith(s, sub) by {
      if |sub| == 0 { assert s[..0] == sub; }
    }
    assert OccursAt(s, sub, 0) <==> StartsWith(s, sub) by {
      if |sub| <= |s| { assert s[0..|sub|] == s[..|sub|]; }
    }
    if StartsWith(s, sub) {
      assert OccursAt(s, sub, 0);
    } else if |s| > 0 {
      ContainsIff(s[1..], sub);
      if Contains(s[1..], sub) {
        var i :| OccursAt(s[1..], sub, i);
        OccursShift(s, sub, i);
      }
      if i :| OccursAt(s, sub, i) {
        assert i != 0;
        OccursShift(s, sub, i - 1);
      }
    } else {
      assert |sub| > 0;
    }
  }

  /** An occurrence in the text after its first character is one index later in the text. */
  lemma OccursShift(s: string, sub: string, i: int)
    requires |s| > 0 && 0 <= i
    ensures OccursAt(s[1..], sub, i) <==> OccursAt(s, sub, i + 1)
  {
    if 0 <= i && i + 1 + |sub| <= |s| {
      assert s[1..][i..i + |sub|] == s[i + 1..i + 1 + |sub|];
    }
  }

  /** An occurrence at a known index makes `Contains` true. */
  lemma ContainsAt(s: string, sub: string, i: int)
    requires OccursAt(s, sub, i)
    ensures Contains(s, sub)
  {
    ContainsIff(s, sub);
  }

  /** A string contains itself inside any context. */
  lemma ContainsMiddle(a: string, sub: string, b: string)
    ensures Contains(a + sub + b, sub)
  {
    assert (a + sub + b)[|a|..|a| + |sub|] == sub;
    ContainsAt(a + sub + b, sub, |a|);
  }

  // ---------------------------------------------------------------------------
  // Case folding and character classes
  // ---------------------------------------------------------------------------

  /** ASCII lower-casing of one character. */
  function LowerChar(c: char): char {
    if 'A' <= c <= 'Z' then (c as int + 32) as char else c
  }

  /** ASCII lower-casing of a string, character by character. */
  function ToLowerAscii(s: string): (r: string)
    ensures |r| == |s|
    ensures forall k :: 0 <= k < |s| ==> r[k] == LowerChar(s[k])
  {
    seq(|s|, k requires 0 <= k < |s| => LowerChar(s[k]))
  }

  /**
   * A case-insensitive search for a lower-case ASCII pattern, as a regular
   * expression literal with the `i` flag (and no `u` flag) performs it.
   */
  predicate ContainsCI(s: string, pattern: string) {
    Contains(ToLowerAscii(s), pattern)
  }

  /**
   * `c` matches `\s` in a JavaScript regular expression, and is removed by
   * `trim`: the white-space characters (tab, vertical tab, form feed, the
   * byte-order mark and every space separator) and the line terminators
   * (line feed, carriage return, U+2028 and U+2029).
   */
  predicate IsWhitespace(c: char) {
    c == '\t' || c == '\n' || c == '\U{B}' || c == '\U{C}' || c == '\r' || c == ' '
    || c == '\U{A0}' || c == '\U{1680}' || ('\U{2000}' <= c <= '\U{200A}')
    || c == '\U{2028}' || c == '\U{2029}' || c == '\U{202F}' || c == '\U{205F}'
    || c == '\U{3000}' || c == '\U{FEFF}'
  }

  /** `c` matches `\w`: `[A-Za-z0-9_]`. */
  predicate IsWordChar(c: char) {
    ('a' <= c <= 'z') || ('A' <= c <= 'Z') || ('0' <= c <= '9') || c == '_'
  }

  // ---------------------------------------------------------------------------
  // trim
  // ---------------------------------------------------------------------------

  function TrimStart(s: string): (r: string)
    ensures |r| <= |s| && r == s[|s| - |r|..]
    ensures r == [] || !IsWhitespace(r[0])
    ensures forall k :: 0 <= k < |s| - |r| ==> IsWhitespace(s[k])
  {
    if |s| > 0 && IsWhitespace(s[0]) then TrimStart(s[1..]) else s
  }

  function TrimEnd(s: string): (r: string)
    ensures |r| <= |s| && r == s[..|r|]
    ensures r == [] || !IsWhitespace(r[|r| - 1])
    ensures forall k :: |r| <= k < |s| ==> IsWhitespace(s[k])
  {
    if |s| > 0 && IsWhitespace(s[|s| - 1]) then TrimEnd(s[..|s| - 1]) else s
  }

  /** `s.trim()`: the longest slice of `s` that neither starts nor ends with white space. */
  function Trim(s: string): (r: string)
    ensures r == [] || (!IsWhitespace(r[0]) && !IsWhitespace(r[|r| - 1]))
    ensures exists i :: OccursAt(s, r, i)
  {
    var t := TrimStart(s);
    var r := TrimEnd(t);
    PrefixOfSuffix(s, |s| - |t|, t, r);
    r
  }

  /** A prefix of a suffix of `s` occurs in `s` where the suffix starts. */
  lemma PrefixOfSuffix(s: string, i: nat, t: string, r: string)
    requires i <= |s| && t == s[i..] && |r| <= |t| && r == t[..|r|]
    ensures OccursAt(s, r, i)
    ensures r != [] ==> r[0] == t[0]
  {
    assert s[i..][..|r|] == s[i..i + |r|];
  }

  /** Trimming the start of a concatenation: the first part's trimmed start, or, when that is empty, the second's. */
  lemma {:induction false} TrimStartAppend(a: string, b: string)
    ensures TrimStart(a + b) == if TrimStart(a) == [] then TrimStart(b) else TrimStart(a) + b
    decreases |a|
  {
    if |a| == 0 {
      assert a + b == b;
    } else if IsWhitespace(a[0]) {
      assert (a + b)[1..] == a[1..] + b;
      TrimStartAppend(a[1..], b);
    }
  }

  /** One more white-space character at the end changes nothing for `trim()`. */
  lemma TrimDropsLast(s: string, c: char)
    requires IsWhitespace(c)
    ensures Trim(s + [c]) == Trim(s)
  {
    TrimStartAppend(s, [c]);
    var t := TrimStart(s);
    if t != [] {
      assert (t + [c])[..|t|] == t;
    }
  }

  /** White space around a text changes nothing for `trim()`. */
  lemma {:induction false} TrimPadded(pre: string, s: string, post: string)
    requires forall k :: 0 <= k < |pre| ==> IsWhitespace(pre[k])
    requires forall k :: 0 <= k < |post| ==> IsWhitespace(post[k])
    ensures Trim(pre + s + post) == Trim(s)
    decreases |post|
  {
    if |post| == 0 {
      assert pre + s + post == pre + s;
      assert TrimStart(pre) == [];
      TrimStartAppend(pre, s);
    } else {
      var last := post[|post| - 1];
      var front := post[..|post| - 1];
      assert pre + s + post == (pre + s + front) + [last];
      TrimDropsLast(pre + s + front, last);
      TrimPadded(pre, s, front);
    }
  }

  /** Text that neither starts nor ends with white space is its own `trim()`. */
  lemma TrimUnchanged(s: string)
    requires |s| > 0 && !IsWhitespace(s[0]) && !IsWhitespace(s[|s| - 1])
    ensures Trim(s) == s
  {
    assert TrimStart(s) == s;
    assert TrimEnd(s) == s;
  }

  // ---------------------------------------------------------------------------
  // indexOf, split and join
  // ---------------------------------------------------------------------------

  /** `s.indexOf(c)`: the first index holding `c`, or -1. */
  function IndexOf(s: string, c: char): (i: int)
    ensures -1 <= i < |s|
    ensures i == -1 <==> c !in s
    ensures 0 <= i ==> s[i] == c && c !in s[..i]
  {
    if |s| == 0 then -1
    else if s[0] == c then 0
    else
      var j := IndexOf(s[1..], c);
      assert s == [s[0]] + s[1..];
      if j == -1 then -1
      else
        assert s[..j + 1] == [s[0]] + s[1..][..j];
        j + 1
  }

  /** `s.split("\n")`: the newline-free pieces between newlines; never empty. */
  function Split(s: string): (pieces: seq<string>)
    ensures |pieces| >= 1
    ensures forall k :: 0 <= k < |pieces| ==> '\n' !in pieces[k]
  {
    if s == [] then [""]
    else if s[0] == '\n' then [""] + Split(s[1..])
    else
      var rest := Split(s[1..]);
      [[s[0]] + rest[0]] + rest[1..]
  }

  /** `parts.join(sep)`; the join of no parts is empty. */
  function Join(parts: seq<string>, sep: string): string {
    if |parts| == 0 then ""
    else if |parts| == 1 then parts[0]
    else parts[0] + sep + Join(parts[1..], sep)
  }

  /** A character that is in no part and not in the separator is not in the join. */
  lemma {:induction false} JoinAvoids(parts: seq<string>, sep: string, c: char)
    requires forall k :: 0 <= k < |parts| ==> c !in parts[k]
    requires c !in sep
    ensures c !in Join(parts, sep)
    decreases |parts|
  {
    if |parts| > 1 {
      assert forall k :: 0 <= k < |parts[1..]| ==> parts[1..][k] == parts[k + 1];
      JoinAvoids(parts[1..], sep, c);
      assert c !in parts[0];
    }
  }

  /** The lines that a newline ends: every piece of `Split(s)` but the last. */
  function Lines(s: string): seq<string> {
    var p := Split(s);
    p[..|p| - 1]
  }

  /** The trailing piece after the last newline: what `lines.pop()` takes back. */
  function Rest(s: string): string {
    var p := Split(s);
    p[|p| - 1]
  }

  /** Splitting then joining with the separator gives the text back. */
  lemma {:induction false} JoinSplit(s: string)
    ensures Join(Split(s), "\n") == s
    decreases |s|
  {
    if s == [] {
    } else if s[0] == '\n' {
      JoinSplit(s[1..]);
      assert s == "\n" + s[1..];
    } else {
      JoinSplit(s[1..]);
      var rest := Split(s[1..]);
      assert Split(s) == PrependChar(s[0], rest);
      if |rest| == 1 {
        assert s == [s[0]] + rest[0];
      } else {
        JoinPrependChar(s[0], rest);
        assert s == [s[0]] + s[1..];
      }
    }
  }

  /** Prepending a character to the first of several pieces prepends it to the joined text. */
  lemma JoinPrependChar(c: char, p: seq<string>)
    requires |p| > 1
    ensures Join(PrependChar(c, p), "\n") == [c] + Join(p, "\n")
  {
    var q := PrependChar(c, p);
    assert |q| == |p| && q[0] == [c] + p[0];
    assert q[1..] == p[1..];
    var j := Join(p[1..], "\n");
    assert ([c] + p[0]) + "\n" + j == [c] + (p[0] + "\n" + j);
  }

  /** A newline-free string is a single piece. */
  lemma {:induction false} SplitNoNewline(s: string)
    requires '\n' !in s
    ensures Split(s) == [s]
    decreases |s|
  {
    if s != [] {
      assert s[0] != '\n';
      SplitNoNewline(s[1..]);
      assert s == [s[0]] + s[1..];
    }
  }

  /** Joining newline-free parts with newlines and splitting again gives the parts back. */
  lemma {:induction false} SplitJoin(parts: seq<string>)
    requires |parts| >= 1
    requires forall k :: 0 <= k < |parts| ==> '\n' !in parts[k]
    ensures Split(Join(parts, "\n")) == parts
    decreases |parts|
  {
    SplitNoNewline(parts[0]);
    if |parts| > 1 {
      var rest := parts[1..];
      assert forall k :: 0 <= k < |rest| ==> rest[k] == parts[k + 1];
      SplitJoin(rest);
      var j := Join(rest, "\n");
      assert Join(parts, "\n") == parts[0] + ("\n" + j);
      SplitAppend(parts[0], "\n" + j);
      assert ("\n" + j)[0] == '\n' && ("\n" + j)[1..] == j;
      assert Split("\n" + j) == [""] + rest;
      assert parts[0] + "" == parts[0];
      assert parts == [parts[0]] + rest;
    }
  }

  /** The pieces of `a + b` given those of `a` and of `b`: the two boundary pieces fuse. */
  function Fuse(pa: seq<string>, pb: seq<string>): seq<string>
    requires |pa| >= 1 && |pb| >= 1
  {
    pa[..|pa| - 1] + [pa[|pa| - 1] + pb[0]] + pb[1..]
  }

  /** Prepends a character to the first piece. */
  function PrependChar(c: char, p: seq<string>): seq<string>
    requires |p| >= 1
  {
    [[c] + p[0]] + p[1..]
  }

  lemma FusePrependPiece(pt: seq<string>, pb: seq<string>)
    requires |pt| >= 1 && |pb| >= 1
    ensures Fuse([""] + pt, pb) == [""] + Fuse(pt, pb)
  {
    assert ([""] + pt)[..|pt|] == [""] + pt[..|pt| - 1];
  }

  lemma FusePrependChar(c: char, pt: seq<string>, pb: seq<string>)
    requires |pt| >= 1 && |pb| >= 1
    ensures Fuse(PrependChar(c, pt), pb) == PrependChar(c, Fuse(pt, pb))
  {
    var r := Fuse(pt, pb);
    if |pt| == 1 {
      assert r == [pt[0] + pb[0]] + pb[1..];
      assert PrependChar(c, pt) == [[c] + pt[0]];
      assert [c] + (pt[0] + pb[0]) == ([c] + pt[0]) + pb[0];
    } else {
      assert r[0] == pt[0];
      assert r[1..] == pt[1..|pt| - 1] + [pt[|pt| - 1] + pb[0]] + pb[1..];
    }
  }

  /** How `split` distributes over concatenation. */
  lemma {:induction false} SplitAppend(a: string, b: string)
    ensures Split(a + b) == Fuse(Split(a), Split(b))
    decreases |a|
  {
    var pb := Split(b);
    if a == [] {
      assert a + b == b;
      assert [""][..0] == [];
      assert "" + pb[0] == pb[0];
      assert Fuse([""], pb) == [pb[0]] + pb[1..];
      assert [pb[0]] + pb[1..] == pb;
    } else {
      var tail := a[1..];
      assert (a + b)[0] == a[0] && (a + b)[1..] == tail + b;
      SplitAppend(tail, b);
      var pt := Split(tail);
      if a[0] == '\n' {
        FusePrependPiece(pt, pb);
      } else {
        assert Split(a) == PrependChar(a[0], pt);
        assert Split(a + b) == PrependChar(a[0], Split(tail + b));
        FusePrependChar(a[0], pt, pb);
      }
    }
  }

  /**
   * Feeding text in two parts and carrying the unterminated rest over gives
   * the same lines and the same rest as feeding it whole.
   */
  lemma LinesAppend(a: string, b: string)
    ensures Lines(a + b) == Lines(a) + Lines(Rest(a) + b)
    ensures Rest(a + b) == Rest(Rest(a) + b)
  {
    var pa := Split(a);
    var ra := Rest(a);
    var pb := Split(b);
    SplitAppend(a, b);
    SplitNoNewline(ra);
    SplitAppend(ra, b);
    FuseLast(pa, pb);
    var prb := Split(ra + b);
    calc {
      Split(a + b);
      Fuse(pa, pb);
      pa[..|pa| - 1] + Fuse([pa[|pa| - 1]], pb);
      { assert pa[|pa| - 1] == ra; }
      pa[..|pa| - 1] + Fuse(Split(ra), pb);
      pa[..|pa| - 1] + prb;
    }
    PiecesLinesRest(a + b, pa[..|pa| - 1], prb);
    PiecesLinesRest(ra + b, [], prb);
  }

  /** Only the last piece of the left side takes part in the fusion. */
  lemma FuseLast(pa: seq<string>, pb: seq<string>)
    requires |pa| >= 1 && |pb| >= 1
    ensures Fuse(pa, pb) == pa[..|pa| - 1] + Fuse([pa[|pa| - 1]], pb)
  {
    assert [pa[|pa| - 1]][..0] == [];
  }

  /** The complete lines and the rest of a text whose pieces end with those of `y`. */
  lemma PiecesLinesRest(s: string, x: seq<string>, y: seq<string>)
    requires |y| >= 1 && Split(s) == x + y
    ensures Lines(s) == x + y[..|y| - 1]
    ensures Rest(s) == y[|y| - 1]
  {
    DropLastAppend(x, y);
  }

  /** Dropping the last element of a concatenation drops it from the second part. */
  lemma DropLastAppend(x: seq<string>, y: seq<string>)
    requires |y| >= 1
    ensures (x + y)[..|x + y| - 1] == x + y[..|y| - 1]
    ensures (x + y)[|x + y| - 1] == y[|y| - 1]
  {
  }

  /** Text without a newline adds no line: it is held back whole. */
  lemma UnterminatedHeldBack(a: string, b: string)
    requires '\n' !in b
    requires Rest(a) == ""
    ensures Lines(a + b) == Lines(a)
    ensures Rest(a + b) == b
  {
    LinesAppend(a, b);
    assert Rest(a) + b == b;
    SplitNoNewline(b);
  }

  lemma SplitLeadingNewline(y: string)
    ensures Split("\n" + y) == [""] + Split(y)
  {
    var x := "\n" + y;
    assert x[0] == '\n' && x[1..] == y;
  }

  /** Cutting at the first newline yields the first line and splits the remainder. */
  lemma {:induction false} SplitAtFirstNewline(s: string)
    requires IndexOf(s, '\n') >= 0
    ensures var i := IndexOf(s, '\n');
            Split(s) == [s[..i]] + Split(s[i + 1..])
    decreases |s|
  {
    var i := IndexOf(s, '\n');
    if s[0] == '\n' {
      assert i == 0 && s[..0] == "";
    } else {
      var t := s[1..];
      assert IndexOf(t, '\n') == i - 1;
      SplitAtFirstNewline(t);
      assert t[i..] == s[i + 1..];
      assert [s[0]] + t[..i - 1] == s[..i];
    }
  }

  /** The first complete line of a text ends at its first newline. */
  lemma LinesAtFirstNewline(s: string)
    requires IndexOf(s, '\n') >= 0
    ensures var i := IndexOf(s, '\n');
            && Lines(s) == [s[..i]] + Lines(s[i + 1..])
            && Rest(s) == Rest(s[i + 1..])
  {
    var i := IndexOf(s, '\n');
    var tail := s[i + 1..];
    SplitAtFirstNewline(s);
    PiecesLinesRest(s, [s[..i]], Split(tail));
  }

  /** Joining the complete lines and the rest gives the text back. */
  lemma JoinLinesRest(s: string)
    ensures Join(Lines(s) + [Rest(s)], "\n") == s
  {
    var p := Split(s);
    assert Lines(s) == p[..|p| - 1] && Rest(s) == p[|p| - 1];
    assert p[..|p| - 1] + [p[|p| - 1]] == p;
    JoinSplit(s);
  }

  /** A newline-terminated line in front of a text is its first complete line. */
  lemma LinesOfTerminatedLine(line: string, post: string)
    requires '\n' !in line
    ensures Lines(line + "\n" + post) == [line] + Lines(post)
    ensures Rest(line + "\n" + post) == Rest(post)
  {
    SplitNoNewline(line);
    SplitLeadingNewline(post);
    assert line + "\n" + post == line + ("\n" + post);
    calc {
      Split(line + "\n" + post);
      { SplitAppend(line, "\n" + post); }
      Fuse([line], [""] + Split(post));
      { assert [line][..0] == [] && line + "" == line; }
      [line] + Split(post);
    }
    PiecesLinesRest(line + "\n" + post, [line], Split(post));
  }

  // ---------------------------------------------------------------------------
  // Chunked text
  // ---------------------------------------------------------------------------

  /** The text of a sequence of network reads, in order. */
  function Concat(chunks: seq<string>): string
    decreases |chunks|
  {
    if |chunks| == 0 then "" else Concat(chunks[..|chunks| - 1]) + chunks[|chunks| - 1]
  }

  /** A character in none of the pieces is not in their concatenation. */
  lemma {:induction false} ConcatAvoids(parts: seq<string>, c: char)
    requires forall k :: 0 <= k < |parts| ==> c !in parts[k]
    ensures c !in Concat(parts)
    decreases |parts|
  {
    if |parts| > 0 {
      var n := |parts| - 1;
      assert forall k :: 0 <= k < n ==> parts[..n][k] == parts[k];
      ConcatAvoids(parts[..n], c);
      assert c !in parts[n];
    }
  }

  /** Reading one more chunk appends its text. */
  lemma ConcatStep(chunks: seq<string>, i: nat)
    requires i < |chunks|
    ensures Concat(chunks[..i + 1]) == Concat(chunks[..i]) + chunks[i]
  {
    assert chunks[..i + 1][..i] == chunks[..i];
  }

  /** The text of all reads is the first read followed by the text of the others. */
  lemma {:induction false} ConcatFirst(chunks: seq<string>)
    requires |chunks| > 0
    ensures Concat(chunks) == chunks[0] + Concat(chunks[1..])
    decreases |chunks|
  {
    var n := |chunks| - 1;
    if n == 0 {
      assert chunks[..n] == [] && chunks[1..] == [];
      assert Concat(chunks) == "" + chunks[0];
    } else {
      var t := chunks[1..];
      calc {
        Concat(chunks);
        Concat(chunks[..n]) + chunks[n];
        { ConcatFirst(chunks[..n]); assert chunks[..n][0] == chunks[0]; }
        (chunks[0] + Concat(chunks[..n][1..])) + chunks[n];
        { assert chunks[..n][1..] == t[..n - 1]; }
        chunks[0] + (Concat(t[..n - 1]) + t[n - 1]);
        chunks[0] + Concat(t);
      }
    }
  }

  /** The text of all reads is the text of the first `k` followed by that of the others. */
  lemma {:induction false} ConcatSplit(chunks: seq<string>, k: nat)
    requires k <= |chunks|
    ensures Concat(chunks) == Concat(chunks[..k]) + Concat(chunks[k..])
    decreases |chunks|
  {
    if k == |chunks| {
      assert chunks[..k] == chunks;
      assert chunks[k..] == [];
    } else {
      var n := |chunks| - 1;
      ConcatSplit(chunks[..n], k);
      assert chunks[..n][..k] == chunks[..k];
      assert chunks[k..][..|chunks[k..]| - 1] == chunks[..n][k..];
      assert chunks[k..][|chunks[k..]| - 1] == chunks[n];
    }
  }

  /** The lines complete after `k` reads come first among the lines of the whole text. */
  lemma LinesOfPrefix(chunks: seq<string>, k: nat)
    requires k <= |chunks|
    ensures Lines(Concat(chunks)) == Lines(Concat(chunks[..k])) + Lines(Rest(Concat(chunks[..k])) + Concat(chunks[k..]))
  {
    ConcatSplit(chunks, k);
    LinesAppend(Concat(chunks[..k]), Concat(chunks[k..]));
  }

  // ---------------------------------------------------------------------------
  // Runs of a character class (greedy `\w+` and `\s*`)
  // ---------------------------------------------------------------------------

  /** The length of the run of word characters starting at `i`. */
  function WordRun(s: string, i: nat): (n: nat)
    requires i <= |s|
    ensures i + n <= |s|
    ensures forall k :: i <= k < i + n ==> IsWordChar(s[k])
    ensures i + n == |s| || !IsWordChar(s[i + n])
    decreases |s| - i
  {
    if i < |s| && IsWordChar(s[i]) then 1 + WordRun(s, i + 1) else 0
  }

  /** A word run of known length. */
  lemma {:induction false} WordRunOf(s: string, i: nat, n: nat)
    requires i + n <= |s|
    requires forall k :: i <= k < i + n ==> IsWordChar(s[k])
    requires i + n == |s| || !IsWordChar(s[i + n])
    ensures WordRun(s, i) == n
    decreases n
  {
    if n > 0 {
      WordRunOf(s, i + 1, n - 1);
    }
  }

  /** The length of the run of white space starting at `i`. */
  function SpaceRun(s: string, i: nat): (n: nat)
    requires i <= |s|
    ensures i + n <= |s|
    ensures forall k :: i <= k < i + n ==> IsWhitespace(s[k])
    ensures i + n == |s| || !IsWhitespace(s[i + n])
    decreases |s| - i
  {
    if i < |s| && IsWhitespace(s[i]) then 1 + SpaceRun(s, i + 1) else 0
  }

  /** A white-space run of known length. */
  lemma {:induction false} SpaceRunOf(s: string, i: nat, n: nat)
    requires i + n <= |s|
    requires forall k :: i <= k < i + n ==> IsWhitespace(s[k])
    requires i + n == |s| || !IsWhitespace(s[i + n])
    ensures SpaceRun(s, i) == n
    decreases n
  {
    if n > 0 {
      SpaceRunOf(s, i + 1, n - 1);
    }
  }

  // ---------------------------------------------------------------------------
  // Decimal printing
  // ---------------------------------------------------------------------------

  function DigitChar(d: nat): char
    requires d < 10
  {
    ('0' as int + d) as char
  }

  /** `String(n)` for a natural number. */
  function NatToString(n: nat): (r: string)
    ensures |r| >= 1
    ensures forall k :: 0 <= k < |r| ==> '0' <= r[k] <= '9'
  {
    if n < 10 then [DigitChar(n)] else NatToString(n / 10) + [DigitChar(n % 10)]
  }

  /** `String(i)` for an integer. */
  function IntToString(i: int): string {
    if i < 0 then "-" + NatToString(-i) else NatToString(i)
  }
}
