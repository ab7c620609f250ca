/**
 * The pieces of JavaScript semantics the components rely on: nullable
 * values, the truthiness of strings and `String.prototype.trim`.
 */
module Js {

  /** A `T | null` value. */
  datatype Option<T> = None | Some(value: T)

  /** A string is truthy in JavaScript exactly when it is not empty, so `!s` holds only for "". */
  predicate Truthy(s: string) {
    s != ""
  }

  /**
   * An image slot of type `string | null`: `!selectedImage` is true for a missing
   * image and for an empty string alike, so an image is present only when both fail.
   */
  predicate HasImage(image: Option<string>) {
    image.Some? && Truthy(image.value)
  }

  /**
   * The code points `trim` removes: ECMAScript's WhiteSpace (tab, vertical tab,
   * form feed, the byte order mark and the Unicode space separators) and its
   * LineTerminator code points.
   */
  predicate IsWhitespace(c: char) {
    || c == '\t' || c == '\n' || c == '\U{000B}' || c == '\U{000C}' || c == '\r'
    || c == ' ' || c == '\U{00A0}' || c == '\U{1680}'
    || ('\U{2000}' <= c <= '\U{200A}')
    || c == '\U{2028}' || c == '\U{2029}' || c == '\U{202F}' || c == '\U{205F}'
    || c == '\U{3000}' || c == '\U{FEFF}'
  }

  /** Drops the leading whitespace: what is left is a suffix that starts with a visible character. */
  function TrimStart(s: string): (r: string)
    ensures |r| <= |s| && r == s[|s| - |r|..]
    ensures r != [] ==> !IsWhitespace(r[0])
    ensures forall k :: 0 <= k < |s| - |r| ==> IsWhitespace(s[k])
  {
    if s != [] && IsWhitespace(s[0]) then TrimStart(s[1..]) else s
  }

  /** Drops the trailing whitespace: what is left is a prefix that ends with a visible character. */
  function TrimEnd(s: string): (r: string)
    ensures |r| <= |s| && r == s[..|r|]
    ensures r != [] ==> !IsWhitespace(r[|r| - 1])
    ensures forall k :: |r| <= k < |s| ==> IsWhitespace(s[k])
  {
    if s != [] && IsWhitespace(s[|s| - 1]) then TrimEnd(s[..|s| - 1]) else s
  }

  /**
   * `s.trim()`: the contiguous part of `s` between its leading and its trailing
   * whitespace; it neither starts nor ends with whitespace.
   */
  function Trim(s: string): (r: string)
    ensures var a := |s| - |TrimStart(s)|;
      && a + |r| <= |s|
      && r == s[a..a + |r|]
      && (forall k :: 0 <= k < a ==> IsWhitespace(s[k]))
      && (forall k :: a + |r| <= k < |s| ==> IsWhitespace(s[k]))
    ensures r != [] ==> !IsWhitespace(r[0]) && !IsWhitespace(r[|r| - 1])
  {
    var t := TrimStart(s);
    var r := TrimEnd(t);
    assert r == s[|s| - |t|..][..|r|];
    r
  }

  /** `!s.trim()`: the string holds nothing but whitespace. */
  predicate IsBlank(s: string) {
    Trim(s) == ""
  }

  /** A string is blank exactly when every one of its characters is whitespace. */
  lemma BlankIffAllWhitespace(s: string)
    ensures IsBlank(s) <==> forall k :: 0 <= k < |s| ==> IsWhitespace(s[k])
  {
    var a := |s| - |TrimStart(s)|;
    var r := Trim(s);
    if r != "" {
      assert s[a] == r[0];
    }
  }

  /** Trimming twice changes nothing more than trimming once. */
  lemma TrimIdempotent(s: string)
    ensures Trim(Trim(s)) == Trim(s)
  {
    var r := Trim(s);
    assert TrimStart(r) == r;
    assert TrimEnd(r) == r;
  }
}
