/**
 * The JavaScript string primitives the search engine and the chat widget
 * rely on: the `\s` whitespace class and `String.prototype.trim`,
 * `startsWith`, `includes`, `toLowerCase`, `Array.prototype.join` and the
 * `^\d+$` digit test, and the truthiness of optional strings.
 */
module Text {
  import opened Wrappers

  /** A character of the ECMAScript WhiteSpace or LineTerminator sets (what `\s` and `trim` use). */
  predicate IsSpace(c: char) {
    var n := c as int;
    n == 0x09 || n == 0x0A || n == 0x0B || n == 0x0C || n == 0x0D || n == 0x20 ||
    n == 0xA0 || n == 0x1680 || (0x2000 <= n <= 0x200A) || n == 0x2028 || n == 0x2029 ||
    n == 0x202F || n == 0x205F || n == 0x3000 || n == 0xFEFF
  }

  /** The characters a regular-expression `.` does not match (no `s` flag). */
  predicate IsLineTerminator(c: char) {
    c == '\n' || c == '\r' || c as int == 0x2028 || c as int == 0x2029
  }

  predicate IsBlank(s: string) {
    forall i :: 0 <= i < |s| ==> IsSpace(s[i])
  }

  predicate IsDigit(c: char) {
    '0' <= c <= '9'
  }

  /** `/^\d+$/.test(s)`: at least one character, and all of them ASCII digits. */
  predicate IsDigits(s: string) {
    |s| > 0 && forall i :: 0 <= i < |s| ==> IsDigit(s[i])
  }

  /** JavaScript truthiness of an optional string: present and not empty. */
  predicate Truthy(o: Option<string>) {
    o.Some? && o.value != ""
  }

  /** `a || b` on optional strings, where `b` is a string. */
  function Or(a: Option<string>, b: string): string {
    if Truthy(a) then a.value else b
  }

  /** A value interpolated into a template literal; an absent field prints as `undefined`. */
  function Interpolate(o: Option<string>): string {
    if o.Some? then o.value else "undefined"
  }

  predicate StartsWith(s: string, prefix: string) {
    |prefix| <= |s| && s[..|prefix|] == prefix
  }

  /** A string shorter than `p`, or differing from it in the first character, does not start with it. */
  lemma NotPrefix(s: string, p: string)
    requires |s| < |p| || (s != [] && p != [] && s[0] != p[0])
    ensures !StartsWith(s, p)
  {
    if |p| <= |s| {
      assert s[..|p|][0] == s[0];
    }
  }

  predicate OccursAt(s: string, sub: string, i: int) {
    0 <= i && i + |sub| <= |s| && s[i..i + |sub|] == sub
  }

  /** `s.includes(sub)`. */
  predicate Contains(s: string, sub: string) {
    exists i :: 0 <= i <= |s| - |sub| && OccursAt(s, sub, i)
  }

  /** `toLowerCase` on one character; only ASCII letters are folded in this model. */
  function LowerChar(c: char): char {
    if 'A' <= c <= 'Z' then (c as int + 32) as char else c
  }

  function Lower(s: string): string {
    seq(|s|, i requires 0 <= i < |s| => LowerChar(s[i]))
  }

  /** `parts.join(sep)`. */
  function Join(parts: seq<string>, sep: string): string {
    if parts == [] then ""
    else if |parts| == 1 then parts[0]
    else parts[0] + sep + Join(parts[1..], sep)
  }

  /** The index of the first non-whitespace character at or after `i`, or `|s|`. */
  function SkipBlanks(s: string, i: nat): (k: nat)
    requires i <= |s|
    decreases |s| - i
    ensures i <= k <= |s|
    ensures forall j :: i <= j < k ==> IsSpace(s[j])
    ensures k < |s| ==> !IsSpace(s[k])
  {
    if i < |s| && IsSpace(s[i]) then SkipBlanks(s, i + 1) else i
  }

  /** The index just past the last non-whitespace character before `j`, or 0. */
  function SkipBlanksBack(s: string, j: nat): (k: nat)
    requires j <= |s|
    ensures k <= j
    ensures forall i :: k <= i < j ==> IsSpace(s[i])
    ensures 0 < k ==> !IsSpace(s[k - 1])
  {
    if 0 < j && IsSpace(s[j - 1]) then SkipBlanksBack(s, j - 1) else j
  }

  /** `s.trimStart()`: what is left after the leading whitespace. */
  function TrimStart(s: string): (r: string)
    ensures |r| <= |s| && r == s[|s| - |r|..]
    ensures r == [] || !IsSpace(r[0])
    ensures IsBlank(s[..|s| - |r|])
  {
    s[SkipBlanks(s, 0)..]
  }

  /** `s.trimEnd()`: what is left before the trailing whitespace. */
  function TrimEnd(s: string): (r: string)
    ensures |r| <= |s| && r == s[..|r|]
    ensures r == [] || !IsSpace(r[|r| - 1])
    ensures IsBlank(s[|r|..])
  {
    s[..SkipBlanksBack(s, |s|)]
  }

  /** `s.trim()`. */
  function Trim(s: string): string {
    TrimEnd(TrimStart(s))
  }

  /** Blanks in front of a string that starts with a non-blank are exactly what `trimStart` removes. */
  lemma TrimStartPadded(pre: string, x: string)
    requires IsBlank(pre) && (x == [] || !IsSpace(x[0]))
    ensures TrimStart(pre + x) == x
  {
    var s := pre + x;
    var k := SkipBlanks(s, 0);
    assert forall j :: 0 <= j < |pre| ==> s[j] == pre[j];
    assert k >= |pre|;
    assert |pre| < |s| ==> s[|pre|] == x[0];
    assert k == |pre|;
    assert s[k..] == x;
  }

  /** Blanks after a string that ends with a non-blank are exactly what `trimEnd` removes. */
  lemma TrimEndPadded(x: string, post: string)
    requires IsBlank(post) && (x == [] || !IsSpace(x[|x| - 1]))
    ensures TrimEnd(x + post) == x
  {
    var s := x + post;
    var k := SkipBlanksBack(s, |s|);
    assert forall j :: |x| <= j < |s| ==> s[j] == post[j - |x|];
    assert k <= |x|;
    assert 0 < |x| ==> s[|x| - 1] == x[|x| - 1];
    assert k == |x|;
    assert s[..k] == x;
  }

  /** `trim` undoes padding with blanks on either side of a text without blank ends. */
  lemma TrimPadded(pre: string, x: string, post: string)
    requires IsBlank(pre) && IsBlank(post)
    requires x != [] && !IsSpace(x[0]) && !IsSpace(x[|x| - 1])
    ensures Trim(pre + x + post) == x
  {
    assert pre + x + post == pre + (x + post);
    TrimStartPadded(pre, x + post);
    TrimEndPadded(x, post);
  }

  /** `trim` leaves no whitespace at either end, and removes only whitespace. */
  lemma TrimShape(s: string)
    ensures var t := Trim(s);
      && (t == [] || (!IsSpace(t[0]) && !IsSpace(t[|t| - 1])))
      && exists i :: 0 <= i <= |s| - |t| && OccursAt(s, t, i) && IsBlank(s[..i]) && IsBlank(s[i + |t|..])
  {
    var u := TrimStart(s);
    var t := TrimEnd(u);
    var i := |s| - |u|;
    assert t == [] || !IsSpace(t[0]) by {
      if t != [] {
        assert t[0] == u[0];
      }
    }
    assert OccursAt(s, t, i) by {
      assert s[i..] == u;
      assert s[i..i + |t|] == t;
    }
    assert IsBlank(s[i + |t|..]) by {
      assert s[i + |t|..] == u[|t|..];
    }
    assert 0 <= i <= |s| - |t| && OccursAt(s, t, i) && IsBlank(s[..i]) && IsBlank(s[i + |t|..]);
  }

  /** A string trims to nothing exactly when it is all whitespace (`!s.trim()` in JavaScript). */
  lemma TrimEmptyIffBlank(s: string)
    ensures Trim(s) == "" <==> IsBlank(s)
  {
    if !IsBlank(s) {
      var k :| 0 <= k < |s| && !IsSpace(s[k]);
      NonBlankSurvivesTrim(s, k);
    }
  }

  lemma NonBlankSurvivesTrim(s: string, k: int)
    requires 0 <= k < |s| && !IsSpace(s[k])
    ensures Trim(s) != ""
  {
    var u := TrimStart(s);
    var d := |s| - |u|;
    forall i | 0 <= i < d ensures IsSpace(s[i]) {
      assert s[..d][i] == s[i];
    }
    assert u[k - d] == s[k];
    var t := TrimEnd(u);
    forall i | |t| <= i < |u| ensures IsSpace(u[i]) {
      assert u[|t|..][i - |t|] == u[i];
    }
  }
}
