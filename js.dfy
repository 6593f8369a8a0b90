/**
  The handful of JavaScript value semantics the dashboard's handlers rely on:
  optional values and their truthiness, `String.prototype.startsWith`,
  `String.prototype.trim`, `Array.prototype.splice(start, 1)` and the string
  quoting of `JSON.stringify`.
 */
module Js {

  /** A value that may be `undefined` or `null`. */
  datatype Option<+T> = None | Some(value: T) {
    /** `x ?? default` */
    function GetOr(default: T): T {
      match this
      case Some(v) => v
      case None => default
    }
  }

  /** A result or a thrown error. */
  datatype Result<+T, +E> = Success(value: T) | Failure(error: E)

  /** A possibly absent string is truthy exactly when it is present and non-empty. */
  predicate Truthy(s: Option<string>) {
    s.Some? && s.value != ""
  }

  /** `s.startsWith(prefix)` */
  predicate StartsWith(s: string, prefix: string) {
    |prefix| <= |s| && s[..|prefix|] == prefix
  }

  // ---------------------------------------------------------------------------
  // String.prototype.trim

  /** The ECMAScript WhiteSpace and LineTerminator code points: what `trim` strips. */
  predicate IsJsSpace(c: char) {
    || c == '\t' || c == '\U{000B}' || c == '\U{000C}' || c == ' '
    || c == '\U{00A0}' || c == '\U{FEFF}' || c == '\U{1680}'
    || ('\U{2000}' <= c <= '\U{200A}')
    || c == '\U{202F}' || c == '\U{205F}' || c == '\U{3000}'
    || c == '\n' || c == '\r' || c == '\U{2028}' || c == '\U{2029}'
  }

  /** The length of the longest prefix of `s` made of white space. */
  function LeadingSpaces(s: string): (n: nat)
    ensures n <= |s|
    ensures forall i :: 0 <= i < n ==> IsJsSpace(s[i])
    ensures n < |s| ==> !IsJsSpace(s[n])
  {
    if s != [] && IsJsSpace(s[0]) then 1 + LeadingSpaces(s[1..]) else 0
  }

  /** The length of the longest suffix of `s` made of white space. */
  function TrailingSpaces(s: string): (n: nat)
    ensures n <= |s|
    ensures forall i :: |s| - n <= i < |s| ==> IsJsSpace(s[i])
    ensures n < |s| ==> !IsJsSpace(s[|s| - n - 1])
  {
    if s != [] && IsJsSpace(s[|s| - 1]) then 1 + TrailingSpaces(s[..|s| - 1]) else 0
  }

  /** `s.trim()`: `s` without its leading and trailing white space. */
  function Trim(s: string): (r: string)
    ensures |r| <= |s|
    ensures r == "" || (!IsJsSpace(r[0]) && !IsJsSpace(r[|r| - 1]))
  {
    var t := s[LeadingSpaces(s)..];
    t[..|t| - TrailingSpaces(t)]
  }

  /** A string trims to "" exactly when every one of its characters is white space. */
  lemma TrimEmptyIff(s: string)
    ensures Trim(s) == "" <==> forall i :: 0 <= i < |s| ==> IsJsSpace(s[i])
  {
  }

  // ---------------------------------------------------------------------------
  // Array.prototype.splice(start, 1)

  /** The position `splice` starts at: a negative `start` counts from the end, and both ends clamp. */
  function SpliceStart(len: nat, start: int): (k: nat)
    ensures k <= len
    ensures 0 <= start <= len ==> k == start
    ensures 0 <= len + start && start < 0 ==> k == len + start
    ensures start > len ==> k == len
    ensures len + start < 0 ==> k == 0
  {
    if start < 0 then (if len + start < 0 then 0 else len + start)
    else if start > len then len
    else start
  }

  /** The array `a` becomes after `a.splice(start, 1)`. */
  function SpliceOne<T>(s: seq<T>, start: int): (r: seq<T>)
    ensures SpliceStart(|s|, start) < |s| ==> |r| == |s| - 1
    ensures SpliceStart(|s|, start) == |s| ==> r == s
    ensures forall j :: 0 <= j < SpliceStart(|s|, start) && j < |r| ==> r[j] == s[j]
    ensures forall j :: SpliceStart(|s|, start) <= j < |r| ==> r[j] == s[j + 1]
  {
    var k := SpliceStart(|s|, start);
    if k < |s| then s[..k] + s[k + 1..] else s
  }

  // ---------------------------------------------------------------------------
  // JSON.stringify of a string

  /** A lower-case hexadecimal digit. */
  function HexDigit(n: nat): char
    requires n < 16
  {
    if n < 10 then ('0' as int + n) as char else ('a' as int + n - 10) as char
  }

  /** Characters `JSON.stringify` does not copy verbatim into a string literal. */
  predicate NeedsEscape(c: char) {
    c == '"' || c == '\\' || (c as int) < 0x20
  }

  /** How `JSON.stringify` writes one character inside a string literal. */
  function EscapeChar(c: char): (r: string)
    ensures !NeedsEscape(c) ==> r == [c]
    ensures NeedsEscape(c) ==> |r| >= 2 && r[0] == '\\'
  {
    if c == '"' then "\\\""
    else if c == '\\' then "\\\\"
    else if c == '\U{0008}' then "\\b"
    else if c == '\t' then "\\t"
    else if c == '\n' then "\\n"
    else if c == '\U{000C}' then "\\f"
    else if c == '\r' then "\\r"
    else if (c as int) < 0x20 then "\\u00" + [HexDigit(c as int / 16), HexDigit(c as int % 16)]
    else [c]
  }

  /** The body of the JSON string literal for `s`: `s` itself when nothing in it needs escaping. */
  function JsonEscape(s: string): (r: string)
    ensures |r| >= |s|
    ensures (forall i :: 0 <= i < |s| ==> !NeedsEscape(s[i])) ==> r == s
  {
    if s == [] then [] else EscapeChar(s[0]) + JsonEscape(s[1..])
  }

  /**
    `JSON.stringify(s)` for a string `s`: a literal between double quotes,
    which is `s` verbatim when `s` holds no quote, backslash or control character.
   */
  function JsonString(s: string): (r: string)
    ensures |r| >= |s| + 2 && r[0] == '"' && r[|r| - 1] == '"'
    ensures (forall i :: 0 <= i < |s| ==> !NeedsEscape(s[i])) ==> r == "\"" + s + "\""
  {
    "\"" + JsonEscape(s) + "\""
  }
}
