/**
 * The JavaScript string operations the components rely on, over `seq<char>`:
 * `toLowerCase` (ASCII letters only), `includes`, `startsWith`, `trim`, `join('\n')`,
 * `split('\n')` and the decimal rendering of integers (`String(n)`, template literals).
 */
module Text {

  /** `c.toLowerCase()` for ASCII: upper-case letters map to lower case, all else is kept. */
  function LowerChar(c: char): (r: char)
    ensures !('A' <= r <= 'Z')
    ensures !('A' <= c <= 'Z') ==> r == c
  {
    if 'A' <= c <= 'Z' then (c as int - 'A' as int + 'a' as int) as char else c
  }

  /** `s.toLowerCase()`, character by character. */
  function Lower(s: string): (r: string)
    ensures |r| == |s|
    ensures forall i :: 0 <= i < |s| ==> r[i] == LowerChar(s[i])
  {
    seq(|s|, i requires 0 <= i < |s| => LowerChar(s[i]))
  }

  /** Lower-casing twice is lower-casing once. */
  lemma LowerIdempotent(s: string)
    ensures Lower(Lower(s)) == Lower(s)
  {
    assert forall i :: 0 <= i < |s| ==> LowerChar(LowerChar(s[i])) == LowerChar(s[i]);
  }

  /** `t` occurs in `s` starting at index `i`. */
  predicate OccursAt(s: string, t: string, i: int) {
    0 <= i && i + |t| <= |s| && s[i..i + |t|] == t
  }

  /** `s.includes(t)`. */
  predicate Contains(s: string, t: string) {
    exists i | 0 <= i <= |s| - |t| :: OccursAt(s, t, i)
  }

  /** Whatever contains `t + u` also contains `t`. */
  lemma ContainsPrefix(s: string, t: string, u: string)
    requires Contains(s, t + u)
    ensures Contains(s, t)
  {
    var i :| 0 <= i <= |s| - |t + u| && OccursAt(s, t + u, i);
    assert s[i..i + |t|] == (t + u)[..|t|] == t;
    assert OccursAt(s, t, i);
  }

  /** An occurrence survives lower-casing of both strings: `includes` after `toLowerCase` ignores case. */
  lemma ContainsLower(s: string, t: string)
    requires Contains(s, t)
    ensures Contains(Lower(s), Lower(t))
  {
    var i :| 0 <= i <= |s| - |t| && OccursAt(s, t, i);
    assert Lower(s)[i..i + |t|] == Lower(t) by {
      forall k | 0 <= k < |t| ensures Lower(s)[i..i + |t|][k] == Lower(t)[k] {
        assert s[i + k] == t[k];
      }
    }
    assert OccursAt(Lower(s), Lower(t), i);
  }

  /** `s.startsWith(p)`. */
  predicate StartsWith(s: string, p: string) {
    |p| <= |s| && s[..|p|] == p
  }

  /** `s.endsWith(t)`. */
  predicate EndsWith(s: string, t: string) {
    |t| <= |s| && s[|s| - |t|..] == t
  }

  /** Appending `t` to `p` keeps `p` in front, puts `t` right after it, and ends with `t`. */
  lemma Appended(p: string, t: string)
    ensures StartsWith(p + t, p)
    ensures OccursAt(p + t, t, |p|)
    ensures EndsWith(p + t, t)
  {
    assert (p + t)[..|p|] == p;
    assert (p + t)[|p|..|p| + |t|] == t;
    assert (p + t)[|p + t| - |t|..] == t;
  }

  /** What a prefix holds at some position, every extension of it holds at the same position. */
  lemma OccursKept(s: string, s': string, t: string, i: int)
    requires OccursAt(s, t, i) && StartsWith(s', s)
    ensures OccursAt(s', t, i)
  {
    assert s'[i..i + |t|] == s[i..i + |t|];
  }

  lemma StartsWithTransitive(a: string, b: string, c: string)
    requires StartsWith(c, b) && StartsWith(b, a)
    ensures StartsWith(c, a)
  {
    assert c[..|a|] == c[..|b|][..|a|];
  }

  /**
   * The characters `String.prototype.trim` removes: ECMAScript's WhiteSpace (tab, vertical tab,
   * form feed, U+FEFF and every space separator, from U+0020 to U+3000) and LineTerminator
   * (line feed, carriage return, U+2028, U+2029).
   */
  predicate IsWhitespace(c: char) {
    || c == '\t' || c == '\U{B}' || c == '\U{C}' || c == ' ' || c == '\U{A0}' || c == '\U{FEFF}'
    || c == '\U{1680}' || '\U{2000}' <= c <= '\U{200A}' || c == '\U{202F}' || c == '\U{205F}' || c == '\U{3000}'
    || c == '\n' || c == '\r' || c == '\U{2028}' || c == '\U{2029}'
  }

  /** `s.trim()`: leading and trailing white space removed. */
  function Trim(s: string): (r: string)
    ensures |r| <= |s|
    ensures r != [] ==> !IsWhitespace(r[0]) && !IsWhitespace(r[|r| - 1])
    decreases |s|
  {
    if s == [] then []
    else if IsWhitespace(s[0]) then Trim(s[1..])
    else if IsWhitespace(s[|s| - 1]) then Trim(s[..|s| - 1])
    else s
  }

  /** The string holds white space only (possibly none). */
  predicate IsBlank(s: string) {
    forall i :: 0 <= i < |s| ==> IsWhitespace(s[i])
  }

  /** `!s.trim()` holds exactly of the blank strings. */
  lemma {:induction false} TrimEmptyIffBlank(s: string)
    ensures Trim(s) == [] <==> IsBlank(s)
    decreases |s|
  {
    if s == [] {
    } else if IsWhitespace(s[0]) {
      TrimEmptyIffBlank(s[1..]);
      assert IsBlank(s) <==> IsBlank(s[1..]) by {
        if IsBlank(s[1..]) {
          forall i | 0 <= i < |s| ensures IsWhitespace(s[i]) {
            if i > 0 { assert s[i] == s[1..][i - 1]; }
          }
        }
      }
    } else {
      assert !IsBlank(s);
      if IsWhitespace(s[|s| - 1]) {
        assert !IsBlank(s[..|s| - 1]) by { assert s[..|s| - 1][0] == s[0]; }
        TrimEmptyIffBlank(s[..|s| - 1]);
      }
    }
  }

  /** `lines.join('\n')`. */
  function JoinLines(lines: seq<string>): (r: string)
    ensures lines == [] ==> r == ""
    decreases |lines|
  {
    if lines == [] then ""
    else if |lines| == 1 then lines[0]
    else lines[0] + "\n" + JoinLines(lines[1..])
  }

  /** `s.split('\n')`: the pieces between line breaks; always at least one piece. */
  function SplitLines(s: string): (r: seq<string>)
    ensures |r| >= 1
    decreases |s|
  {
    if s == [] then [""]
    else if s[0] == '\n' then [""] + SplitLines(s[1..])
    else
      var rest := SplitLines(s[1..]);
      [[s[0]] + rest[0]] + rest[1..]
  }

  /** A string without line breaks is one piece, and a break after it starts the next piece. */
  lemma {:induction false} SplitAfterLine(line: string, t: string)
    requires '\n' !in line
    ensures SplitLines(line) == [line]
    ensures SplitLines(line + "\n" + t) == [line] + SplitLines(t)
    decreases |line|
  {
    if line == [] {
      assert line + "\n" + t == "\n" + t;
      assert ("\n" + t)[1..] == t;
    } else {
      assert '\n' !in line[1..];
      SplitAfterLine(line[1..], t);
      assert (line + "\n" + t)[1..] == line[1..] + "\n" + t;
      assert [line[0]] + line[1..] == line;
    }
  }

  /**
   * `join('\n')` followed by `split('\n')` gives back the lines, provided there is at least
   * one line and no line contains a break: one output line per input item, in order.
   */
  lemma {:induction false} SplitJoinLines(lines: seq<string>)
    requires |lines| >= 1
    requires forall i :: 0 <= i < |lines| ==> '\n' !in lines[i]
    ensures SplitLines(JoinLines(lines)) == lines
    decreases |lines|
  {
    if |lines| == 1 {
      SplitAfterLine(lines[0], "");
    } else {
      SplitJoinLines(lines[1..]);
      SplitAfterLine(lines[0], JoinLines(lines[1..]));
    }
  }

  /** The decimal digit for `d`. */
  function DigitChar(d: int): (c: char)
    requires 0 <= d < 10
    ensures '0' <= c <= '9'
  {
    ('0' as int + d) as char
  }

  /** `String(n)` for a natural number: its decimal digits, without leading zeros. */
  function NatToString(n: nat): (r: string)
    ensures |r| >= 1
    ensures forall i :: 0 <= i < |r| ==> '0' <= r[i] <= '9'
    ensures n >= 10 <==> |r| >= 2
  {
    if n < 10 then [DigitChar(n)] else NatToString(n / 10) + [DigitChar(n % 10)]
  }

  /** Different numbers have different decimal renderings. */
  lemma {:induction false} NatToStringInjective(a: nat, b: nat)
    requires NatToString(a) == NatToString(b)
    ensures a == b
  {
    if a >= 10 && b >= 10 {
      var sa, sb := NatToString(a), NatToString(b);
      assert sa[|sa| - 1] == sb[|sb| - 1];
      assert a % 10 == b % 10;
      assert sa[..|sa| - 1] == NatToString(a / 10);
      assert sb[..|sb| - 1] == NatToString(b / 10);
      NatToStringInjective(a / 10, b / 10);
    }
  }

  /** The template-literal rendering of an integer: a minus sign before negative ones. */
  function IntToString(n: int): (r: string)
    ensures |r| >= 1
    ensures n < 0 <==> r[0] == '-'
  {
    if n < 0 then "-" + NatToString(-n) else NatToString(n)
  }
}
