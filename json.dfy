/** JSON values as `JSON.parse` produces them, and the JavaScript notions the
    import and export code applies to them: optional member access (`v?.key`),
    truthiness and `String.prototype.trim`. */
module JsonValues {
  import opened Wrappers

  /** A parsed JSON value. An object is a map because a JavaScript object holds
      each key once; numbers are integers in this model. */
  datatype Json =
    | JNull
    | JBool(b: bool)
    | JNumber(n: int)
    | JString(s: string)
    | JArray(items: seq<Json>)
    | JObject(members: map<string, Json>)

  /** What a `throw` carries: an `Error` instance (a `SyntaxError` from
      `JSON.parse`, a `ZodError` from a schema) has a message; any other thrown
      value has none. */
  datatype Thrown = ErrorInstance(message: string) | NonErrorValue

  /** `JSON.parse`, which lies outside the model: it returns a value or throws. */
  type JsonParser = string -> Result<Json, Thrown>

  /** `v?.key`: the member when `v` is an object holding `key`, otherwise `undefined`. */
  function Field(v: Json, key: string): Option<Json>
  {
    if v.JObject? && key in v.members then Some(v.members[key]) else None
  }

  /** JavaScript truthiness of a JSON value. */
  predicate Truthy(v: Json)
  {
    match v
    case JNull => false
    case JBool(b) => b
    case JNumber(n) => n != 0
    case JString(s) => s != ""
    case JArray(_) => true
    case JObject(_) => true
  }

  /** Truthiness of a possibly `undefined` value. */
  predicate TruthyOpt(o: Option<Json>)
  {
    o.Some? && Truthy(o.value)
  }

  /** The characters `trim` removes: ECMAScript's white space (tab, vertical
      tab, form feed, the byte-order mark and every space separator) and its
      line terminators. */
  predicate IsWhitespace(c: char)
  {
    || c == '\t' || c == '\U{B}' || c == '\U{C}' || c == ' ' || c == '\U{A0}' || c == '\U{FEFF}'
    || c == '\U{1680}' || ('\U{2000}' <= c <= '\U{200A}') || c == '\U{202F}' || c == '\U{205F}'
    || c == '\U{3000}'
    || c == '\n' || c == '\r' || c == '\U{2028}' || c == '\U{2029}'
  }

  /** A string made of white space only (the empty string included). */
  predicate Blank(s: string)
  {
    forall i :: 0 <= i < |s| ==> IsWhitespace(s[i])
  }

  /** Leading white space removed: what remains is a suffix that does not
      start with white space, and everything removed is white space. */
  function TrimStart(s: string): (r: string)
    ensures |r| <= |s| && r == s[|s| - |r|..]
    ensures r == [] || !IsWhitespace(r[0])
    ensures forall k | 0 <= k < |s| - |r| :: IsWhitespace(s[k])
  {
    if s != [] && IsWhitespace(s[0]) then TrimStart(s[1..]) else s
  }

  /** Trailing white space removed: what remains is a prefix that does not
      end with white space, and everything removed is white space. */
  function TrimEnd(s: string): (r: string)
    ensures |r| <= |s| && r == s[..|r|]
    ensures r == [] || !IsWhitespace(r[|r| - 1])
    ensures forall k | |r| <= k < |s| :: IsWhitespace(s[k])
  {
    if s != [] && IsWhitespace(s[|s| - 1]) then TrimEnd(s[..|s| - 1]) else s
  }

  /** `s.trim()`: a contiguous part of `s` that neither starts nor ends with
      white space. */
  function Trim(s: string): (r: string)
    ensures |r| <= |s|
    ensures r == [] || (!IsWhitespace(r[0]) && !IsWhitespace(r[|r| - 1]))
    ensures exists i, j | 0 <= i <= j <= |s| :: r == s[i..j] && (forall k | 0 <= k < i :: IsWhitespace(s[k])) && (forall k | j <= k < |s| :: IsWhitespace(s[k]))
  {
    var rest := TrimStart(s);
    var r := TrimEnd(rest);
    TrimWitness(s, rest, r);
    r
  }

  /** A suffix cut after leading white space, then a prefix of it cut before
      trailing white space, is a part of the text with only white space on
      either side. */
  lemma TrimWitness(s: string, rest: string, r: string)
    requires |rest| <= |s| && rest == s[|s| - |rest|..]
    requires forall k | 0 <= k < |s| - |rest| :: IsWhitespace(s[k])
    requires |r| <= |rest| && r == rest[..|r|]
    requires forall k | |r| <= k < |rest| :: IsWhitespace(rest[k])
    ensures exists i, j | 0 <= i <= j <= |s| :: r == s[i..j] && (forall k | 0 <= k < i :: IsWhitespace(s[k])) && (forall k | j <= k < |s| :: IsWhitespace(s[k]))
  {
    var i := |s| - |rest|;
    var j := i + |r|;
    assert r == s[i..j] by {
      forall k | 0 <= k < |r| ensures r[k] == s[i..j][k] {
        assert r[k] == rest[k] == s[i + k];
      }
    }
    forall k | j <= k < |s| ensures IsWhitespace(s[k]) {
      assert s[k] == rest[k - i];
    }
  }

  /** `trim` leaves the empty string exactly when the input is blank, so
      `!s.trim()` and `s.trim().length > 0` test blankness. */
  lemma TrimEmptyIffBlank(s: string)
    ensures Trim(s) == "" <==> Blank(s)
  {
  }
}
