/**
 * The JavaScript string built-ins the browser code relies on: `trim`, `toUpperCase` (as far
 * as status names are concerned), `includes`/`indexOf` and `replace` with a string pattern.
 */
module JsStrings {
  import opened Wrappers

  // ---------------------------------------------------------------------------------------
  // String.prototype.trim
  // ---------------------------------------------------------------------------------------

  /** The ECMAScript WhiteSpace and LineTerminator code points that `trim` strips. */
  predicate IsJsWhitespace(c: char) {
    || c == '\t' || c == '\n' || c == '\U{000B}' || c == '\U{000C}' || c == '\r' || c == ' '
    || c == '\U{00A0}' || c == '\U{1680}' || ('\U{2000}' <= c <= '\U{200A}')
    || c == '\U{2028}' || c == '\U{2029}' || c == '\U{202F}' || c == '\U{205F}'
    || c == '\U{3000}' || c == '\U{FEFF}'
  }

  /** The number of white-space characters `s` starts with. */
  function LeadingSpace(s: string): (k: nat)
    ensures k <= |s|
    ensures forall i :: 0 <= i < k ==> IsJsWhitespace(s[i])
    ensures k < |s| ==> !IsJsWhitespace(s[k])
  {
    if s != [] && IsJsWhitespace(s[0]) then 1 + LeadingSpace(s[1..]) else 0
  }

  /** The number of white-space characters `s` ends with. */
  function TrailingSpace(s: string): (k: nat)
    ensures k <= |s|
    ensures forall i :: |s| - k <= i < |s| ==> IsJsWhitespace(s[i])
    ensures k < |s| ==> !IsJsWhitespace(s[|s| - 1 - k])
  {
    if s != [] && IsJsWhitespace(s[|s| - 1]) then 1 + TrailingSpace(s[..|s| - 1]) else 0
  }

  /** `s[i..j]` leaves out only white space at either end of `s`. */
  predicate OnlySpaceOutside(s: string, i: int, j: int)
  {
    0 <= i <= j <= |s| &&
    (forall k :: 0 <= k < i ==> IsJsWhitespace(s[k])) &&
    (forall k :: j <= k < |s| ==> IsJsWhitespace(s[k]))
  }

  /**
   * `s.trim()`: the string without leading and trailing white space. The result is a slice
   * of `s` that leaves out only white space and neither starts nor ends with white space.
   */
  function Trim(s: string): (r: string)
    ensures exists i, j :: OnlySpaceOutside(s, i, j) && r == s[i..j]
    ensures r != [] ==> !IsJsWhitespace(r[0]) && !IsJsWhitespace(r[|r| - 1])
  {
    var a := LeadingSpace(s);
    var t := s[a..];
    var b := |t| - TrailingSpace(t);
    assert s[a..a + b] == t[..b];
    assert forall k :: a + b <= k < |s| ==> s[k] == t[k - a];
    assert OnlySpaceOutside(s, a, a + b);
    t[..b]
  }

  /** `!s.trim()` holds exactly when every character of `s` is white space. */
  lemma TrimIsEmptyIff(s: string)
    ensures Trim(s) == "" <==> forall i :: 0 <= i < |s| ==> IsJsWhitespace(s[i])
  {
    var k := LeadingSpace(s);
    var t := s[k..];
    if forall i :: 0 <= i < |s| ==> IsJsWhitespace(s[i]) {
      assert k == |s|;
    } else {
      var i :| 0 <= i < |s| && !IsJsWhitespace(s[i]);
      assert k <= i && t[i - k] == s[i];
      assert TrailingSpace(t) < |t|;
    }
  }

  // ---------------------------------------------------------------------------------------
  // String.prototype.toUpperCase, as far as it matters for status names
  // ---------------------------------------------------------------------------------------

  /**
   * Upper-cases the characters whose JavaScript upper-case form is a single ASCII letter:
   * `a`-`z`, and U+0131 (dotless i), which becomes `I`. Every other character is kept. The
   * only other characters whose upper-case form is made of ASCII letters (U+017F, U+00DF and
   * the Latin ligatures U+FB00-U+FB06) produce S, SS, FF, FI, FL, FFI, FFL or ST, none of which
   * occurs in a status name, so comparing against upper-case status names gives the same
   * answer as with the full mapping.
   */
  function UpperChar(c: char): (u: char)
    ensures 'a' <= c <= 'z' ==> u as int == c as int - 32
    ensures !('a' <= u <= 'z')
  {
    if 'a' <= c <= 'z' then (c as int - 32) as char
    else if c == '\U{0131}' then 'I'
    else c
  }

  function Upper(s: string): (r: string)
    ensures |r| == |s|
    ensures forall i :: 0 <= i < |s| ==> r[i] == UpperChar(s[i])
  {
    if s == [] then [] else [UpperChar(s[0])] + Upper(s[1..])
  }

  /** Upper-casing twice is the same as once. */
  lemma UpperIdempotent(s: string)
    ensures Upper(Upper(s)) == Upper(s)
  {
    var u := Upper(s);
    forall i | 0 <= i < |s| ensures Upper(u)[i] == u[i] {
      assert UpperChar(UpperChar(s[i])) == UpperChar(s[i]);
    }
  }

  // ---------------------------------------------------------------------------------------
  // includes / indexOf
  // ---------------------------------------------------------------------------------------

  /** `p` occurs in `s` starting at index `i`. */
  predicate OccursAt(s: string, p: string, i: int) {
    0 <= i && i + |p| <= |s| && s[i..i + |p|] == p
  }

  /** `s.indexOf(p, from)`, with a miss as `None`: the first occurrence at or after `from`. */
  function IndexOfFrom(s: string, p: string, from: nat): (r: Option<nat>)
    decreases |s| - from
    ensures r.Some? ==> from <= r.value && OccursAt(s, p, r.value)
    ensures r.Some? ==> forall j :: from <= j < r.value ==> !OccursAt(s, p, j)
    ensures r.None? ==> forall j :: from <= j ==> !OccursAt(s, p, j)
  {
    if from + |p| > |s| then None
    else if s[from..from + |p|] == p then Some(from)
    else IndexOfFrom(s, p, from + 1)
  }

  function IndexOf(s: string, p: string): Option<nat> {
    IndexOfFrom(s, p, 0)
  }

  /** `s.includes(p)`. */
  predicate Includes(s: string, p: string) {
    IndexOf(s, p).Some?
  }

  // ---------------------------------------------------------------------------------------
  // String.prototype.replace with a string pattern
  // ---------------------------------------------------------------------------------------

  /**
   * GetSubstitution for a string pattern (no capture groups): in the replacement, `$$` stands
   * for `$`, `$&` for the matched text, `` $` `` for the text before the match and `$'` for the
   * text after it; every other `$` (including `$1` and `$<`) is taken literally.
   */
  function Substitution(repl: string, matched: string, before: string, after: string): string
  {
    if repl == [] then []
    else if repl[0] == '$' && |repl| >= 2 && repl[1] in "$&`'" then
      var piece := match repl[1]
        case '$' => "$"
        case '&' => matched
        case '`' => before
        case _ => after;
      piece + Substitution(repl[2..], matched, before, after)
    else [repl[0]] + Substitution(repl[1..], matched, before, after)
  }

  /** A replacement without `$` is inserted literally. */
  lemma {:induction false} SubstitutionLiteral(repl: string, matched: string, before: string, after: string)
    requires '$' !in repl
    ensures Substitution(repl, matched, before, after) == repl
  {
    if repl != [] {
      assert repl[0] != '$';
      assert '$' !in repl[1..] by { assert forall i :: 0 <= i < |repl[1..]| ==> repl[1..][i] == repl[i + 1]; }
      SubstitutionLiteral(repl[1..], matched, before, after);
    }
  }

  /** `s.replace(p, repl)`: only the first occurrence of `p` is replaced. */
  function ReplaceFirst(s: string, p: string, repl: string): (r: string)
    ensures IndexOf(s, p).None? ==> r == s
  {
    match IndexOf(s, p)
    case None => s
    case Some(i) =>
      var before, after := s[..i], s[i + |p|..];
      before + Substitution(repl, p, before, after) + after
  }

  /** With a replacement free of `$`, the first occurrence of `p` is swapped for it verbatim. */
  lemma ReplaceFirstLiteral(s: string, p: string, repl: string)
    requires '$' !in repl
    requires IndexOf(s, p).Some?
    ensures var i := IndexOf(s, p).value; ReplaceFirst(s, p, repl) == s[..i] + repl + s[i + |p|..]
  {
    var i := IndexOf(s, p).value;
    SubstitutionLiteral(repl, p, s[..i], s[i + |p|..]);
  }
}
