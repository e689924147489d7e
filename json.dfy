/**
 * Request and response bodies as the HTTP layer sees them after JSON parsing:
 * objects mapping keys to scalar values.  Numbers are integers in this model.
 */
module Json {
  import opened Wrappers

  /** Entity identifiers (`_id`) are strings; object-id strings are 24 hexadecimal digits. */
  type Id = string

  datatype Json = JString(s: string) | JNumber(n: int) | JBool(b: bool) | JNull

  /** A parsed JSON object (a request body, or a document rendered as a response). */
  type Object = map<string, Json>

  /** True when `key` is present in `o` and holds a string. */
  predicate HasString(o: Object, key: string)
  {
    key in o && o[key].JString?
  }

  /** lodash `_.pick(o, keys)`: the entries of `o` whose key is one of `keys`. */
  function Pick(o: Object, keys: set<string>): (r: Object)
    ensures r.Keys == o.Keys * keys
    ensures forall k :: k in r ==> r[k] == o[k]
  {
    map k | k in o && k in keys :: o[k]
  }

  /** How many UTF-16 code units encode `c`: characters beyond the Basic Multilingual Plane take a
      surrogate pair. */
  function Utf16Units(c: char): nat
  {
    if c <= '\U{FFFF}' then 1 else 2
  }

  /** A JavaScript string's `.length`: the number of UTF-16 code units encoding it. */
  function Utf16Length(s: string): (n: nat)
    ensures |s| <= n <= 2 * |s|
  {
    if s == [] then 0 else Utf16Units(s[0]) + Utf16Length(s[1..])
  }

  /** Within the Basic Multilingual Plane `.length` counts characters. */
  lemma {:induction false} Utf16LengthOfBmp(s: string)
    requires forall i :: 0 <= i < |s| ==> s[i] <= '\U{FFFF}'
    ensures Utf16Length(s) == |s|
  {
    if s != [] {
      assert forall i :: 0 <= i < |s[1..]| ==> s[1..][i] == s[i + 1];
      Utf16LengthOfBmp(s[1..]);
    }
  }

  /** Three U+1F600 emoji have `.length` 6, so they meet a minimum length of 5. */
  lemma ThreeEmojiAreSixUnits()
    ensures Utf16Length("\U{1F600}\U{1F600}\U{1F600}") == 6
  {
    var s := "\U{1F600}\U{1F600}\U{1F600}";
    assert s[1..][1..][1..] == [];
  }

  /** The characters `String.prototype.trim` removes: ECMAScript's WhiteSpace (tab, vertical tab,
      form feed, space, no-break space, byte order mark and the other Zs space separators) and
      LineTerminator (line feed, carriage return, line and paragraph separators). */
  predicate IsWhitespace(c: char)
  {
    || c == '\t' || c == '\U{B}' || c == '\U{C}' || c == ' ' || c == '\U{A0}' || c == '\U{FEFF}'
    || c == '\U{1680}' || ('\U{2000}' <= c <= '\U{200A}') || c == '\U{202F}' || c == '\U{205F}'
    || c == '\U{3000}'
    || c == '\n' || c == '\r' || c == '\U{2028}' || c == '\U{2029}'
  }

  predicate NoWhitespace(s: string)
  {
    forall i :: 0 <= i < |s| ==> !IsWhitespace(s[i])
  }

  function TrimStart(s: string): (r: string)
    ensures |r| <= |s|
    ensures r == [] || !IsWhitespace(r[0])
  {
    if |s| > 0 && IsWhitespace(s[0]) then TrimStart(s[1..]) else s
  }

  function TrimEnd(s: string): (r: string)
    ensures |r| <= |s|
    ensures |r| > 0 ==> r[0] == s[0]
    ensures r == [] || !IsWhitespace(r[|r| - 1])
  {
    if |s| > 0 && IsWhitespace(s[|s| - 1]) then TrimEnd(s[..|s| - 1]) else s
  }

  /** The `trim: true` setter of a mongoose string path. */
  function Trim(s: string): (r: string)
    ensures |r| <= |s|
    ensures r == [] || (!IsWhitespace(r[0]) && !IsWhitespace(r[|r| - 1]))
  {
    TrimEnd(TrimStart(s))
  }

  /** Every character of `s` in positions `lo` up to `hi` is whitespace. */
  predicate WhitespaceBetween(s: string, lo: int, hi: int)
    requires 0 <= lo <= hi <= |s|
  {
    forall i :: lo <= i < hi ==> IsWhitespace(s[i])
  }

  /** `TrimStart` removes a prefix made only of whitespace, and nothing else; `a` is its length. */
  lemma {:induction false} TrimStartDropsPrefix(s: string) returns (a: nat)
    ensures a <= |s| && TrimStart(s) == s[a..] && WhitespaceBetween(s, 0, a)
  {
    if |s| > 0 && IsWhitespace(s[0]) {
      var t := s[1..];
      var a' := TrimStartDropsPrefix(t);
      a := a' + 1;
      assert t[a'..] == s[a..];
      forall i | 0 <= i < a
        ensures IsWhitespace(s[i])
      {
        if i > 0 {
          assert s[i] == t[i - 1];
        }
      }
    } else {
      a := 0;
      assert s[0..] == s;
    }
  }

  /** `TrimEnd` removes a suffix made only of whitespace, and nothing else; `b` is what it keeps. */
  lemma {:induction false} TrimEndDropsSuffix(s: string) returns (b: nat)
    ensures b <= |s| && TrimEnd(s) == s[..b] && WhitespaceBetween(s, b, |s|)
  {
    if |s| > 0 && IsWhitespace(s[|s| - 1]) {
      var t := s[..|s| - 1];
      b := TrimEndDropsSuffix(t);
      assert t[..b] == s[..b];
      forall i | b <= i < |s|
        ensures IsWhitespace(s[i])
      {
        if i < |s| - 1 {
          assert s[i] == t[i];
        }
      }
    } else {
      b := |s|;
      assert s[..|s|] == s;
    }
  }

  /** Whitespace from position `c` of a suffix `s[a..]` on is whitespace from `a + c` on in `s`. */
  lemma WhitespaceInSuffix(s: string, a: nat, c: nat)
    requires a + c <= |s| && WhitespaceBetween(s[a..], c, |s| - a)
    ensures WhitespaceBetween(s, a + c, |s|)
  {
    forall i | a + c <= i < |s|
      ensures IsWhitespace(s[i])
    {
      assert s[i] == s[a..][i - a];
    }
  }

  /** Trimming keeps a contiguous slice of the value and removes only whitespace around it; with
      `Trim`'s own contract (no whitespace left at either end) this determines the result. */
  lemma TrimRemovesOnlyEdgeWhitespace(s: string)
    ensures exists a, b :: 0 <= a <= b <= |s| && Trim(s) == s[a..b]
                           && WhitespaceBetween(s, 0, a) && WhitespaceBetween(s, b, |s|)
  {
    var a := TrimStartDropsPrefix(s);
    var c := TrimEndDropsSuffix(s[a..]);
    var b := a + c;
    assert s[a..][..c] == s[a..b];
    WhitespaceInSuffix(s, a, c);
    assert Trim(s) == s[a..b];
  }

  /** Trimming leaves a value unchanged exactly when it neither starts nor ends with whitespace. */
  lemma TrimIdentity(s: string)
    ensures Trim(s) == s <==> (s == [] || (!IsWhitespace(s[0]) && !IsWhitespace(s[|s| - 1])))
  {
  }
}
