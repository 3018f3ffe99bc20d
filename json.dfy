/**
 * The JSON values the proxy reads and writes, JavaScript truthiness on them,
 * the optional-chaining accessors the decoders use (`x?.key`, `x?.[0]`), and
 * `JSON.stringify` for these values.
 *
 * `JSON.parse` is not defined here: every decoder takes it as a parameter
 * `parse: string -> Option<Json>` whose `None` stands for "throws".
 */
module Json {
  import opened Wrappers
  import opened Text

  /**
   * A JSON value. Object members keep their insertion order, which is the
   * order `JSON.stringify` prints them in. A number is held as its canonical
   * literal text (`"2000"`, `"0.7"`), as `JSON.stringify` prints it.
   */
  datatype Json =
    | JNull
    | JBool(b: bool)
    | JNum(literal: string)
    | JStr(s: string)
    | JArr(items: seq<Json>)
    | JObj(members: seq<(string, Json)>)

  /** The JSON number for a natural number. */
  function Int(n: nat): Json {
    JNum(NatToString(n))
  }

  /** JavaScript truthiness: `null`, `false`, `0` and `""` are falsy, everything else truthy. */
  predicate Truthy(j: Json) {
    match j
    case JNull => false
    case JBool(b) => b
    case JNum(lit) => lit != "0"
    case JStr(s) => s != ""
    case _ => true
  }

  /** `o?.[key]` on a value that came from `JSON.parse`; the last duplicate key wins. */
  function Get(j: Json, key: string): (r: Option<Json>)
    ensures r.Some? ==> j.JObj?
  {
    match j
    case JObj(members) => Lookup(members, key)
    case _ => None
  }

  /** The value of the last member named `key`. */
  function Lookup(members: seq<(string, Json)>, key: string): Option<Json> {
    if |members| == 0 then None
    else
      var last := members[|members| - 1];
      if last.0 == key then Some(last.1) else Lookup(members[..|members| - 1], key)
  }

  /** The member found is the last one with that name. */
  lemma {:induction false} LookupFound(members: seq<(string, Json)>, k: nat, key: string)
    requires k < |members| && members[k].0 == key
    requires forall j :: k < j < |members| ==> members[j].0 != key
    ensures Lookup(members, key) == Some(members[k].1)
    decreases |members|
  {
    var n := |members| - 1;
    if k != n {
      assert forall j :: k < j < n ==> members[..n][j] == members[j];
      LookupFound(members[..n], k, key);
    }
  }

  /** A name no member has is not found. */
  lemma {:induction false} LookupMissing(members: seq<(string, Json)>, key: string)
    requires forall j :: 0 <= j < |members| ==> members[j].0 != key
    ensures Lookup(members, key) == None
    decreases |members|
  {
    if |members| > 0 {
      var n := |members| - 1;
      assert forall j :: 0 <= j < n ==> members[..n][j] == members[j];
      LookupMissing(members[..n], key);
    }
  }

  /** `o?.[i]` for an array index: an array element, or the member named by the index. */
  function At(j: Json, i: nat): Option<Json> {
    match j
    case JArr(items) => if i < |items| then Some(items[i]) else None
    case JObj(members) => Lookup(members, NatToString(i))
    case _ => None
  }

  /** A step of an optional-chaining path. */
  datatype Step = Key(name: string) | Index(i: nat)

  /** `j?.s1?.s2...`: follows the path and stops at the first missing value. */
  function Path(j: Json, steps: seq<Step>): Option<Json>
    decreases |steps|
  {
    if |steps| == 0 then Some(j)
    else
      var next := match steps[0]
        case Key(name) => Get(j, name)
        case Index(i) => At(j, i);
      match next
      case None => None
      case Some(v) => Path(v, steps[1..])
  }

  // ---------------------------------------------------------------------------
  // JSON.stringify
  // ---------------------------------------------------------------------------

  function HexDigit(d: nat): char
    requires d < 16
  {
    if d < 10 then ('0' as int + d) as char else ('a' as int + d - 10) as char
  }

  /** How `JSON.stringify` writes one character inside a string literal. */
  function EscapeChar(c: char): string {
    if c == '"' then "\\\""
    else if c == '\\' then "\\\\"
    else if c == '\U{0008}' then "\\b"
    else if c == '\U{000C}' then "\\f"
    else if c == '\n' then "\\n"
    else if c == '\r' then "\\r"
    else if c == '\t' then "\\t"
    else if (c as int) < 0x20 then "\\u00" + [HexDigit(c as int / 16), HexDigit(c as int % 16)]
    else [c]
  }

  /** Each character written as `EscapeChar` writes it, in order. */
  function Escape(s: string): string {
    Concat(seq(|s|, k requires 0 <= k < |s| => EscapeChar(s[k])))
  }

  /** A string as a JSON string literal. */
  function Quote(s: string): string {
    "\"" + Escape(s) + "\""
  }

  /** `JSON.stringify(j)`, compact, members in insertion order. */
  function Serialize(j: Json): (r: string)
    ensures j.JObj? ==> |r| >= 2 && r[0] == '{' && r[|r| - 1] == '}'
    ensures j.JArr? ==> |r| >= 2 && r[0] == '['
    ensures j.JStr? ==> |r| >= 2 && r[0] == '"'
  {
    match j
    case JNull => "null"
    case JBool(b) => if b then "true" else "false"
    case JNum(lit) => lit
    case JStr(s) => Quote(s)
    case JArr(items) =>
      "[" + Join(seq(|items|, k requires 0 <= k < |items| => Serialize(items[k])), ",") + "]"
    case JObj(members) =>
      "{" + Join(seq(|members|, k requires 0 <= k < |members| =>
                   Quote(members[k].0) + ":" + Serialize(members[k].1)), ",") + "}"
  }

  /** Every number literal inside `j` is free of line breaks (true of every literal `JSON.stringify` prints). */
  predicate PlainNumbers(j: Json)
    decreases j
  {
    match j
    case JNum(lit) => '\n' !in lit
    case JArr(items) => forall k :: 0 <= k < |items| ==> PlainNumbers(items[k])
    case JObj(members) => forall k :: 0 <= k < |members| ==> PlainNumbers(members[k].1)
    case _ => true
  }

  /** A string literal never holds a raw line break: `JSON.stringify` writes it as `\n`. */
  lemma EscapeSingleLine(s: string)
    ensures '\n' !in Escape(s)
  {
    var parts := seq(|s|, k requires 0 <= k < |s| => EscapeChar(s[k]));
    forall k | 0 <= k < |parts| ensures '\n' !in parts[k] {
      var c := s[k];
      if (c as int) < 0x20 && c != '\n' && c != '\r' && c != '\t' && c != '\U{0008}' && c != '\U{000C}' {
        assert parts[k] == "\\u00" + [HexDigit(c as int / 16), HexDigit(c as int % 16)];
      }
    }
    ConcatAvoids(parts, '\n');
  }

  /** Compact `JSON.stringify` output is a single line, so it fits one `data: ` line of an event stream. */
  lemma {:induction false} SerializeSingleLine(j: Json)
    requires PlainNumbers(j)
    ensures '\n' !in Serialize(j)
    decreases j
  {
    match j
    case JStr(s) =>
      EscapeSingleLine(s);
    case JArr(items) =>
      var parts := seq(|items|, k requires 0 <= k < |items| => Serialize(items[k]));
      forall k | 0 <= k < |items| ensures '\n' !in parts[k] {
        SerializeSingleLine(items[k]);
      }
      JoinAvoids(parts, ",", '\n');
    case JObj(members) =>
      var parts := seq(|members|, k requires 0 <= k < |members| =>
                     Quote(members[k].0) + ":" + Serialize(members[k].1));
      forall k | 0 <= k < |members| ensures '\n' !in parts[k] {
        SerializeSingleLine(members[k].1);
        EscapeSingleLine(members[k].0);
      }
      JoinAvoids(parts, ",", '\n');
    case _ =>
  }

  /** One server-sent event carrying a JSON payload: `data: <JSON>` and a blank line. */
  function DataFrame(payload: Json): string {
    "data: " + Serialize(payload) + "\n\n"
  }

  /** The terminal sentinel frame of the OpenAI streaming format. */
  const DoneFrame: string := "data: [DONE]\n\n"

  /** A frame carrying an object can never be mistaken for the sentinel. */
  lemma ObjectFrameIsNotDone(payload: Json)
    requires payload.JObj?
    ensures DataFrame(payload) != DoneFrame
  {
    var f := DataFrame(payload);
    assert f[6] == Serialize(payload)[0] == '{';
    assert DoneFrame[6] == '[';
  }
}
