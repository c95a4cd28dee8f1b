/**
 * The string operations of Go's `strings` package that the wordlist parser
 * and the banner classifier use. Strings are sequences of Unicode code
 * points: the bytes read are taken as already decoded. On valid UTF-8 the
 * byte-wise Split, HasPrefix, Contains and TrimSpace of Go agree with these.
 */
module Text {

  /** The code points unicode.IsSpace accepts: the Latin-1 spaces and the other White_Space characters. */
  const WhiteSpace: set<char> := {
    ' ', '\t', '\n', '\U{0B}', '\U{0C}', '\r', '\U{85}', '\U{A0}', '\U{1680}',
    '\U{2000}', '\U{2001}', '\U{2002}', '\U{2003}', '\U{2004}', '\U{2005}',
    '\U{2006}', '\U{2007}', '\U{2008}', '\U{2009}', '\U{200A}',
    '\U{2028}', '\U{2029}', '\U{202F}', '\U{205F}', '\U{3000}'
  }

  /** unicode.IsSpace. */
  predicate IsSpace(c: char) {
    c in WhiteSpace
  }

  /** The number of white-space characters s starts with. */
  function LeadingSpaces(s: string): (k: nat)
    ensures k <= |s|
    ensures forall i :: 0 <= i < k ==> IsSpace(s[i])
    ensures k < |s| ==> !IsSpace(s[k])
  {
    if |s| > 0 && IsSpace(s[0]) then 1 + LeadingSpaces(s[1..]) else 0
  }

  /** Where the white space that s ends with begins. */
  function TrailingStart(s: string): (e: nat)
    ensures e <= |s|
    ensures forall i :: e <= i < |s| ==> IsSpace(s[i])
    ensures e > 0 ==> !IsSpace(s[e - 1])
  {
    if |s| > 0 && IsSpace(s[|s| - 1]) then TrailingStart(s[..|s| - 1]) else |s|
  }

  /** Drops the leading white space. */
  function TrimLeft(s: string): string {
    s[LeadingSpaces(s)..]
  }

  /** Drops the trailing white space. */
  function TrimRight(s: string): string {
    s[..TrailingStart(s)]
  }

  /**
   * strings.TrimSpace: r is the slice of s left after removing white space at
   * both ends; every removed character is a space, and r neither starts nor
   * ends with one.
   */
  function TrimSpace(s: string): (r: string)
    ensures var k := LeadingSpaces(s);
      && k + |r| <= |s| && r == s[k..k + |r|]
      && (forall i :: 0 <= i < k ==> IsSpace(s[i]))
      && (forall i :: k + |r| <= i < |s| ==> IsSpace(s[i]))
    ensures r == [] || (!IsSpace(r[0]) && !IsSpace(r[|r| - 1]))
  {
    var k := LeadingSpaces(s);
    var l := s[k..];
    var e := TrailingStart(l);
    assert l[..e] == s[k..k + e];
    forall i | k + e <= i < |s|
      ensures IsSpace(s[i])
    {
      assert s[i] == l[i - k];
    }
    assert e > 0 ==> l[0] == s[k];
    l[..e]
  }

  /** A slice of s that starts and ends with non-space characters is kept whole by TrimSpace. */
  lemma TrimKeepsInner(s: string, i: nat, n: nat) returns (j: nat)
    requires 0 < n && i + n <= |s| && !IsSpace(s[i]) && !IsSpace(s[i + n - 1])
    ensures j + n <= |TrimSpace(s)| && TrimSpace(s)[j..j + n] == s[i..i + n]
  {
    var k := LeadingSpaces(s);
    assert k <= i;
    var r := TrimSpace(s);
    assert i + n - 1 < k + |r|;
    j := i - k;
    assert r[j..j + n] == s[i..i + n];
  }

  /** strings.HasPrefix. */
  predicate HasPrefix(s: string, p: string) {
    |p| <= |s| && s[..|p|] == p
  }

  /** strings.Contains, scanning s from the left. */
  predicate Contains(s: string, t: string)
    decreases |s|
  {
    HasPrefix(s, t) || (|s| > 0 && Contains(s[1..], t))
  }

  /** Contains agrees with "t occurs in s at some offset", in both directions. */
  lemma {:induction false} ContainsAt(s: string, t: string, i: nat)
    requires i + |t| <= |s|
    ensures s[i..i + |t|] == t ==> Contains(s, t)
    decreases i
  {
    if i > 0 && s[i..i + |t|] == t {
      assert s[1..][i - 1..i - 1 + |t|] == s[i..i + |t|];
      ContainsAt(s[1..], t, i - 1);
    }
  }

  lemma {:induction false} ContainsWitness(s: string, t: string) returns (i: nat)
    requires Contains(s, t)
    ensures i + |t| <= |s| && s[i..i + |t|] == t
    decreases |s|
  {
    if HasPrefix(s, t) {
      i := 0;
    } else {
      var j := ContainsWitness(s[1..], t);
      assert s[1..][j..j + |t|] == s[j + 1..j + 1 + |t|];
      i := j + 1;
    }
  }

  /** The pieces of strings.Split(s, string([sep])): the text between separators, in order. */
  function Split(s: string, sep: char): (r: seq<string>)
    ensures |r| >= 1
    ensures forall i :: 0 <= i < |r| ==> sep !in r[i]
  {
    if s == [] then [[]]
    else
      var rest := Split(s[1..], sep);
      if s[0] == sep then [[]] + rest else [[s[0]] + rest[0]] + rest[1..]
  }

  /** strings.Join(parts, string([sep])). */
  function Join(parts: seq<string>, sep: char): string
    requires |parts| >= 1
  {
    if |parts| == 1 then parts[0] else parts[0] + [sep] + Join(parts[1..], sep)
  }

  /** Joining the pieces of a split with the same separator gives the string back. */
  lemma {:induction false} JoinSplit(s: string, sep: char)
    ensures Join(Split(s, sep), sep) == s
  {
    if s != [] {
      var rest := Split(s[1..], sep);
      JoinSplit(s[1..], sep);
      if s[0] == sep {
        assert Split(s, sep)[1..] == rest;
      } else {
        var r := Split(s, sep);
        if |rest| == 1 {
          assert r == [[s[0]] + rest[0]];
        } else {
          assert r[1..] == rest[1..];
          assert Join(r, sep) == [s[0]] + rest[0] + [sep] + Join(rest[1..], sep);
        }
      }
    }
  }

  /**
   * Go's unicode.ToLower on the ASCII capitals and on the two code points
   * outside ASCII whose lower case is an ASCII letter: U+0130 (capital I with
   * dot above) becomes 'i' and U+212A (Kelvin sign) becomes 'k'. Every other
   * code point is left as it is.
   */
  function LowerChar(c: char): char {
    if 'A' <= c <= 'Z' then (c as int + 32) as char
    else if c == '\U{0130}' then 'i'
    else if c == '\U{212A}' then 'k'
    else c
  }

  /** strings.ToLower, code point by code point. */
  function ToLower(s: string): (r: string)
    ensures |r| == |s|
    ensures forall i :: 0 <= i < |s| ==> r[i] == LowerChar(s[i])
  {
    if s == [] then [] else [LowerChar(s[0])] + ToLower(s[1..])
  }
}
