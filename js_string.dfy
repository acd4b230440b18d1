/**
 * The JavaScript string operations the core performs:
 * `String.prototype.trim` (ECMA-262, section 22.1.3.32), which removes
 * leading and trailing WhiteSpace and LineTerminator code points
 * (ECMA-262, sections 12.2 and 12.3), and the truthiness of an optional
 * string. `EndsWith` is not called by the core; contracts use it to state
 * what a string ends with.
 */
module JsString {
  import opened Wrappers

  /** WhiteSpace or LineTerminator as ECMA-262 defines them: TAB, VT, FF,
      ZWNBSP, the space separators (category Zs) and LF, CR, LS, PS. */
  predicate IsWhiteSpace(c: char) {
    c == '\t' || c == '\n' || c == '\U{000B}' || c == '\U{000C}' || c == '\r'
    || c == ' ' || c == '\U{00A0}' || c == '\U{1680}'
    || ('\U{2000}' <= c <= '\U{200A}')
    || c == '\U{2028}' || c == '\U{2029}' || c == '\U{202F}' || c == '\U{205F}'
    || c == '\U{3000}' || c == '\U{FEFF}'
  }

  /** Every character of `s` is white space (the empty string included). */
  predicate IsBlank(s: string) {
    forall i :: 0 <= i < |s| ==> IsWhiteSpace(s[i])
  }

  /** `s` with its leading white space removed: a suffix of `s` that does
      not start with white space, and what was dropped is all white space. */
  function TrimStart(s: string): (r: string)
    ensures |r| <= |s| && r == s[|s| - |r|..]
    ensures r == [] || !IsWhiteSpace(r[0])
    ensures forall i :: 0 <= i < |s| - |r| ==> IsWhiteSpace(s[i])
  {
    if s != [] && IsWhiteSpace(s[0]) then TrimStart(s[1..]) else s
  }

  /** `s` with its trailing white space removed: a prefix of `s` that does
      not end with white space, and what was dropped is all white space. */
  function TrimEnd(s: string): (r: string)
    ensures |r| <= |s| && r == s[..|r|]
    ensures r == [] || !IsWhiteSpace(r[|r| - 1])
    ensures forall i :: |r| <= i < |s| ==> IsWhiteSpace(s[i])
  {
    if s != [] && IsWhiteSpace(s[|s| - 1]) then TrimEnd(s[..|s| - 1]) else s
  }

  /** `String.prototype.trim`: the contiguous middle of `s` between a blank
      prefix and a blank suffix, neither starting nor ending with white space;
      it is empty exactly when `s` is blank. */
  function Trim(s: string): (r: string)
    ensures var k := |s| - |TrimStart(s)|;
      && k + |r| <= |s| && r == s[k..k + |r|]
      && (forall i :: 0 <= i < k ==> IsWhiteSpace(s[i]))
      && (forall i :: k + |r| <= i < |s| ==> IsWhiteSpace(s[i]))
    ensures r == [] || (!IsWhiteSpace(r[0]) && !IsWhiteSpace(r[|r| - 1]))
    ensures r == [] <==> IsBlank(s)
  {
    var t := TrimStart(s);
    var r := TrimEnd(t);
    MiddleOfBlanks(s, |s| - |t|, t, r);
    r
  }

  /** The facts `Trim` rests on, stated for any `t` that drops a blank
      prefix of `s` and any `r` that then drops a blank suffix of `t`. */
  lemma MiddleOfBlanks(s: string, k: nat, t: string, r: string)
    requires k <= |s| && t == s[k..] && (t == [] || !IsWhiteSpace(t[0]))
    requires forall i :: 0 <= i < k ==> IsWhiteSpace(s[i])
    requires |r| <= |t| && r == t[..|r|]
    requires forall i :: |r| <= i < |t| ==> IsWhiteSpace(t[i])
    ensures k + |r| <= |s| && r == s[k..k + |r|]
    ensures forall i :: k + |r| <= i < |s| ==> IsWhiteSpace(s[i])
    ensures r == [] || r[0] == t[0]
    ensures r == [] <==> IsBlank(s)
  {
  }

  /** Trimming twice is trimming once. */
  lemma TrimIdempotent(s: string)
    ensures Trim(Trim(s)) == Trim(s)
  {
    var r := Trim(s);
    if r != [] {
      assert TrimStart(r) == r;
      assert TrimEnd(r) == r;
    }
  }

  /** Trimming keeps every character that is not white space: a character
      of `s` that is not white space lies inside the trimmed text. */
  lemma TrimKeepsContent(s: string, i: nat)
    requires i < |s| && !IsWhiteSpace(s[i])
    ensures var k := |s| - |TrimStart(s)|;
      k <= i < k + |Trim(s)| && Trim(s)[i - k] == s[i]
  {
  }

  /** An optional string read for its truthiness (`s || undefined`):
      `null`, `undefined` and the empty string all count as absent. */
  function Truthy(s: Option<string>): (r: Option<string>)
    ensures r.Some? <==> s.Some? && s.value != ""
    ensures r.Some? ==> r == s
  {
    if s.Some? && s.value != "" then s else None
  }

  /** `s` ends with `suffix` (as `s.endsWith(suffix)` would say); used in
      contracts only. */
  predicate EndsWith(s: string, suffix: string) {
    |suffix| <= |s| && s[|s| - |suffix|..] == suffix
  }
}
