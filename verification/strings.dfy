/** The JavaScript string operations the chat application relies on:
    `includes`, `toLowerCase`, `trim` and number-to-decimal rendering.
    Strings are sequences of characters; no encoding is modelled. */
module Strings {

  /** `w` occurs in `s` starting at index `i`. */
  predicate OccursAt(s: string, w: string, i: int) {
    0 <= i && i + |w| <= |s| && s[i..i + |w|] == w
  }

  /** JavaScript `s.includes(w)`: `w` occurs somewhere in `s` as a
      contiguous block. Every string includes the empty string. */
  predicate Contains(s: string, w: string) {
    exists i :: 0 <= i <= |s| - |w| && OccursAt(s, w, i)
  }

  /** `s` begins with `p`. */
  predicate StartsWith(s: string, p: string) {
    |p| <= |s| && s[..|p|] == p
  }

  /** `s` finishes with `x`. */
  predicate EndsWith(s: string, x: string) {
    |x| <= |s| && s[|s| - |x|..] == x
  }

  /** Text appended after a prefix keeps the prefix. */
  lemma AppendKeepsStart(s: string, t: string, p: string)
    requires StartsWith(s, p)
    ensures StartsWith(s + t, p)
  {
    assert (s + t)[..|p|] == s[..|p|];
  }

  /** Text put in front keeps an occurrence (shifted) and keeps the end. */
  lemma PrependKeeps(a: string, s: string, w: string, x: string)
    requires Contains(s, w) && EndsWith(s, x)
    ensures Contains(a + s, w) && EndsWith(a + s, x)
  {
    var i :| 0 <= i <= |s| - |w| && OccursAt(s, w, i);
    assert (a + s)[|a| + i..|a| + i + |w|] == s[i..i + |w|];
    assert OccursAt(a + s, w, |a| + i);
    assert (a + s)[|a + s| - |x|..] == s[|s| - |x|..];
  }

  /** A text framed by two others occurs in the whole, which ends with the
      second frame. */
  lemma Framed(a: string, w: string, b: string)
    ensures Contains(a + w + b, w) && EndsWith(a + w + b, b)
  {
    assert (a + w + b)[|a|..|a| + |w|] == w;
    assert OccursAt(a + w + b, w, |a|);
  }

  /** Ending is transitive. */
  lemma EndsWithTransitive(s: string, m: string, x: string)
    requires EndsWith(s, m) && EndsWith(m, x)
    ensures EndsWith(s, x)
  {
    assert s[|s| - |x|..] == s[|s| - |m|..][|m| - |x|..];
  }

  /** Containment is transitive: an occurrence of an occurrence is an occurrence. */
  lemma ContainsTransitive(t: string, m: string, k: string)
    requires Contains(t, m) && Contains(m, k)
    ensures Contains(t, k)
  {
    var i :| 0 <= i <= |t| - |m| && OccursAt(t, m, i);
    var j :| 0 <= j <= |m| - |k| && OccursAt(m, k, j);
    forall x | 0 <= x < |k|
      ensures t[i + j + x] == k[x]
    {
      assert m[j + x] == k[x];
      assert t[i + j + x] == t[i..i + |m|][j + x];
    }
    assert t[i + j..i + j + |k|] == k;
    assert OccursAt(t, k, i + j);
  }

  /** A string containing a character that `s` lacks cannot occur in `s`. */
  lemma MissingCharNotContained(s: string, w: string, c: char)
    requires c in w && c !in s
    ensures !Contains(s, w)
  {
    var k :| 0 <= k < |w| && w[k] == c;
    forall i
      ensures !OccursAt(s, w, i)
    {
      if 0 <= i && i + |w| <= |s| {
        assert s[i..i + |w|][k] == s[i + k] != c;
      }
    }
  }

  /** Each `ws[i]` holds the character `cs[i]` that `s` lacks, so none of
      them occurs in `s`. */
  lemma NoneContained(s: string, ws: seq<string>, cs: seq<char>)
    requires |cs| == |ws|
    requires forall i :: 0 <= i < |ws| ==> cs[i] in ws[i] && cs[i] !in s
    ensures forall i :: 0 <= i < |ws| ==> !Contains(s, ws[i])
  {
    forall i | 0 <= i < |ws|
      ensures !Contains(s, ws[i])
    {
      MissingCharNotContained(s, ws[i], cs[i]);
    }
  }

  /** JavaScript `toLowerCase` on one character, for the ASCII capitals;
      every other character is left as it is. */
  function LowerChar(c: char): char {
    if 'A' <= c <= 'Z' then (c as int + 32) as char else c
  }

  /** JavaScript `toLowerCase` applied character by character. */
  function Lower(s: string): (r: string)
    ensures |r| == |s|
    ensures forall i :: 0 <= i < |s| ==> r[i] == LowerChar(s[i])
  {
    seq(|s|, i requires 0 <= i < |s| => LowerChar(s[i]))
  }

  /** Lower-casing preserves containment: if `s` includes `w`, then the
      lower-cased `s` includes the lower-cased `w`. */
  lemma LowerPreservesContains(s: string, w: string)
    requires Contains(s, w)
    ensures Contains(Lower(s), Lower(w))
  {
    var i :| 0 <= i <= |s| - |w| && OccursAt(s, w, i);
    assert Lower(s)[i..i + |w|] == Lower(w) by {
      forall k | 0 <= k < |w|
        ensures Lower(s)[i..i + |w|][k] == Lower(w)[k]
      {
        assert s[i + k] == w[k];
      }
    }
    assert OccursAt(Lower(s), Lower(w), i);
  }

  /** The characters `String.prototype.trim` removes: the ECMAScript
      WhiteSpace and LineTerminator code points (section 12.2 and 12.3 of
      ECMA-262). */
  predicate IsJsSpace(c: char) {
    var n := c as int;
    n == 0x09 || n == 0x0A || n == 0x0B || n == 0x0C || n == 0x0D || n == 0x20
    || n == 0xA0 || n == 0x1680 || (0x2000 <= n <= 0x200A)
    || n == 0x2028 || n == 0x2029 || n == 0x202F || n == 0x205F
    || n == 0x3000 || n == 0xFEFF
  }

  /** Every character of `s` is white space (vacuously so for ""). */
  predicate IsBlank(s: string) {
    forall i :: 0 <= i < |s| ==> IsJsSpace(s[i])
  }

  /** Removes the white space at the front of `s`. */
  function TrimStart(s: string): (r: string)
    ensures |r| <= |s| && r == s[|s| - |r|..]
    ensures forall k :: 0 <= k < |s| - |r| ==> IsJsSpace(s[k])
    ensures r != [] ==> !IsJsSpace(r[0])
  {
    if |s| > 0 && IsJsSpace(s[0]) then TrimStart(s[1..]) else s
  }

  /** Removes the white space at the back of `s`. */
  function TrimEnd(s: string): (r: string)
    ensures |r| <= |s| && r == s[..|r|]
    ensures forall k :: |r| <= k < |s| ==> IsJsSpace(s[k])
    ensures r != [] ==> !IsJsSpace(r[|r| - 1])
  {
    if |s| > 0 && IsJsSpace(s[|s| - 1]) then TrimEnd(s[..|s| - 1]) else s
  }

  /** JavaScript `s.trim()`. The result is empty exactly when `s` is blank,
      and otherwise starts and ends with a character that is not white space. */
  function Trim(s: string): (r: string)
    ensures r == "" <==> IsBlank(s)
    ensures r != "" ==> !IsJsSpace(r[0]) && !IsJsSpace(r[|r| - 1])
    ensures |r| <= |s|
  {
    var front := TrimStart(s);
    var r := TrimEnd(front);
    assert r != "" ==> r[0] == front[0];
    assert front != "" ==> !IsJsSpace(front[0]);
    assert r == "" ==> front == "";
    assert IsBlank(s) ==> front == "";
    r
  }

  /** The decimal digit for `d`. */
  function DigitChar(d: nat): char
    requires d < 10
  {
    ('0' as int + d) as char
  }

  /** JavaScript's rendering of a non-negative integer in a template
      literal: its decimal digits, without leading zeros. */
  function DecimalString(n: nat): (r: string)
    ensures |r| > 0
    ensures forall i :: 0 <= i < |r| ==> '0' <= r[i] <= '9'
    ensures |r| > 1 ==> r[0] != '0'
  {
    if n < 10 then [DigitChar(n)] else DecimalString(n / 10) + [DigitChar(n % 10)]
  }

  /** Reads a string of decimal digits back as a number. */
  function ParseDecimal(s: string): nat
    requires forall i :: 0 <= i < |s| ==> '0' <= s[i] <= '9'
  {
    if s == [] then 0 else ParseDecimal(s[..|s| - 1]) * 10 + (s[|s| - 1] as int - '0' as int)
  }

  /** Rendering loses nothing: the digits read back as the number. */
  lemma {:induction false} DecimalRoundTrip(n: nat)
    ensures ParseDecimal(DecimalString(n)) == n
  {
    var r := DecimalString(n);
    if n >= 10 {
      DecimalRoundTrip(n / 10);
      assert r[..|r| - 1] == DecimalString(n / 10);
    }
  }
}
