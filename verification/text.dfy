/** The three JavaScript string operations the UI relies on, over `string` (= `seq<char>`):
    `toLowerCase` (its ASCII part), `includes` and `trim`. */
module Text {

  predicate IsUpper(c: char) {
    'A' <= c <= 'Z'
  }

  /** ASCII lower-casing of one character; everything outside 'A'..'Z' is left alone. */
  function LowerChar(c: char): (r: char)
    ensures !IsUpper(r)
    ensures IsUpper(c) ==> 'a' <= r <= 'z' && r as int - c as int == 'a' as int - 'A' as int
    ensures !IsUpper(c) ==> r == c
  {
    if IsUpper(c) then (c as int - 'A' as int + 'a' as int) as char else c
  }

  /** `s.toLowerCase()` restricted to ASCII letters. */
  function ToLower(s: string): (r: string)
    ensures |r| == |s|
    ensures forall i :: 0 <= i < |s| ==> r[i] == LowerChar(s[i])
    ensures forall i :: 0 <= i < |r| ==> !IsUpper(r[i])
  {
    seq(|s|, i requires 0 <= i < |s| => LowerChar(s[i]))
  }

  /** Lower-casing twice is lower-casing once. */
  lemma ToLowerIdempotent(s: string)
    ensures ToLower(ToLower(s)) == ToLower(s)
  {
    var once := ToLower(s);
    assert forall i :: 0 <= i < |once| ==> LowerChar(once[i]) == once[i];
  }

  /** `t` occurs in `s` starting at position `i`. */
  predicate OccursAt(s: string, t: string, i: int) {
    0 <= i && i + |t| <= |s| && s[i..i + |t|] == t
  }

  /** `s.includes(t)`: `t` is a prefix of `s` or of one of its suffixes. */
  function Includes(s: string, t: string): bool
    decreases |s|
  {
    if |t| > |s| then false
    else if t == s[..|t|] then true
    else Includes(s[1..], t)
  }

  /** `Includes` agrees with the positional definition: `s` includes `t` exactly when
      some position of `s` starts a copy of `t`. */
  lemma {:induction false} IncludesIffOccurs(s: string, t: string)
    ensures Includes(s, t) <==> exists i :: OccursAt(s, t, i)
    decreases |s|
  {
    if |t| > |s| {
      assert forall i :: !OccursAt(s, t, i);
    } else if t == s[..|t|] {
      assert OccursAt(s, t, 0);
    } else {
      IncludesIffOccurs(s[1..], t);
      assert forall j :: OccursAt(s[1..], t, j) <==> OccursAt(s, t, j + 1) by {
        forall j ensures OccursAt(s[1..], t, j) <==> OccursAt(s, t, j + 1) {
          if 0 <= j && j + |t| <= |s| - 1 {
            assert s[1..][j..j + |t|] == s[j + 1..j + 1 + |t|];
          }
        }
      }
      assert !OccursAt(s, t, 0);
      if exists i :: OccursAt(s, t, i) {
        var i :| OccursAt(s, t, i);
        assert OccursAt(s[1..], t, i - 1);
      }
    }
  }

  /** Every string includes the empty string. */
  lemma IncludesEmpty(s: string)
    ensures Includes(s, "")
  {
    IncludesIffOccurs(s, "");
    assert OccursAt(s, "", 0);
  }

  /** A copy of `t` at a known position means `s` includes `t`. */
  lemma IncludesAt(s: string, t: string, i: int)
    requires OccursAt(s, t, i)
    ensures Includes(s, t)
  {
    IncludesIffOccurs(s, t);
  }

  /** A string that lacks the first character of `t` does not include `t`. */
  lemma NotIncludedWithoutFirstChar(s: string, t: string)
    requires |t| > 0 && t[0] !in s
    ensures !Includes(s, t)
  {
    IncludesIffOccurs(s, t);
  }

  /** The characters `String.prototype.trim` strips: the ECMAScript WhiteSpace
      code points (TAB, VT, FF, SP, NBSP, ZWNBSP and the Zs category) and the
      LineTerminator code points (LF, CR, LS, PS). */
  const JsWhitespace: set<char> := {
    '\t', '\n', '\r', ' ', '\U{000B}', '\U{000C}', '\U{00A0}', '\U{1680}',
    '\U{2000}', '\U{2001}', '\U{2002}', '\U{2003}', '\U{2004}', '\U{2005}',
    '\U{2006}', '\U{2007}', '\U{2008}', '\U{2009}', '\U{200A}',
    '\U{2028}', '\U{2029}', '\U{202F}', '\U{205F}', '\U{3000}', '\U{FEFF}'
  }

  predicate IsJsWhitespace(c: char) {
    c in JsWhitespace
  }

  predicate AllWhitespace(s: string) {
    forall i :: 0 <= i < |s| ==> IsJsWhitespace(s[i])
  }

  /** Length of the maximal whitespace prefix of `s`. */
  function LeadingWhitespace(s: string): (k: nat)
    ensures k <= |s|
    ensures AllWhitespace(s[..k])
    ensures k < |s| ==> !IsJsWhitespace(s[k])
  {
    if |s| > 0 && IsJsWhitespace(s[0]) then
      var k := 1 + LeadingWhitespace(s[1..]);
      assert s[..k] == [s[0]] + s[1..][..k - 1];
      k
    else 0
  }

  /** Length of the maximal whitespace suffix of `s`. */
  function TrailingWhitespace(s: string): (k: nat)
    ensures k <= |s|
    ensures AllWhitespace(s[|s| - k..])
    ensures k < |s| ==> !IsJsWhitespace(s[|s| - k - 1])
  {
    if |s| > 0 && IsJsWhitespace(s[|s| - 1]) then
      var k := 1 + TrailingWhitespace(s[..|s| - 1]);
      assert s[|s| - k..] == s[..|s| - 1][|s| - k..] + [s[|s| - 1]];
      k
    else 0
  }

  /** `r` is `s` with the whitespace-only prefix `s[..k]` and a whitespace-only suffix cut off. */
  predicate TrimmedAt(s: string, r: string, k: int) {
    && 0 <= k && k + |r| <= |s|
    && s[k..k + |r|] == r
    && AllWhitespace(s[..k])
    && AllWhitespace(s[k + |r|..])
  }

  /** `s.trim()`: `s` without its leading and trailing whitespace (see `TrimSpec`). */
  function Trim(s: string): string {
    var k := LeadingWhitespace(s);
    var m := TrailingWhitespace(s[k..]);
    s[k..][..|s| - k - m]
  }

  /** `trim` cuts off only a whitespace prefix and a whitespace suffix, leaves a string
      that neither starts nor ends with whitespace, and leaves nothing exactly when the
      whole string is whitespace. */
  lemma TrimSpec(s: string)
    ensures exists k :: TrimmedAt(s, Trim(s), k)
    ensures |Trim(s)| > 0 ==> !IsJsWhitespace(Trim(s)[0]) && !IsJsWhitespace(Trim(s)[|Trim(s)| - 1])
    ensures |Trim(s)| == 0 <==> AllWhitespace(s)
  {
    var k := LeadingWhitespace(s);
    var m := TrailingWhitespace(s[k..]);
    var r := Trim(s);
    assert r == s[k..][..|s| - k - m];
    TrimCut(s, k, m);
    assert TrimmedAt(s, r, k);
  }

  /** Cutting the maximal leading whitespace `k` and then the maximal trailing whitespace
      `m` of what remains leaves a trimmed string. */
  lemma TrimCut(s: string, k: nat, m: nat)
    requires k == LeadingWhitespace(s) && m == TrailingWhitespace(s[k..])
    ensures TrimmedAt(s, s[k..][..|s| - k - m], k)
    ensures var r := s[k..][..|s| - k - m];
      && (|r| > 0 ==> !IsJsWhitespace(r[0]) && !IsJsWhitespace(r[|r| - 1]))
      && (|r| == 0 <==> AllWhitespace(s))
  {
    var rest := s[k..];
    var r := rest[..|rest| - m];
    assert s[k..k + |r|] == r;
    assert s[k + |r|..] == rest[|rest| - m..];
    if |r| == 0 {
      assert s[..k] == s;
    } else {
      assert r[0] == s[k];
      assert r[|r| - 1] == rest[|rest| - m - 1];
    }
  }

  /** `!s.trim()`: the trimmed string is empty, and so falsy in JavaScript. */
  predicate IsBlank(s: string) {
    |Trim(s)| == 0
  }

  /** A string is blank exactly when every character in it is whitespace. */
  lemma BlankIffAllWhitespace(s: string)
    ensures IsBlank(s) <==> AllWhitespace(s)
  {
    TrimSpec(s);
  }
}
