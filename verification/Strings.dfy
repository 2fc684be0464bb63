/** String helpers shared by the extractor and the form: JavaScript's `trim`
    and the substring test that a keyword-alternation regex performs. */
module Strings {

  /** The characters `String.prototype.trim` removes: ECMAScript WhiteSpace
      and LineTerminator code points. */
  predicate IsSpace(c: char)
  {
    || c == ' ' || c == '\t' || c == '\n' || c == '\r'
    || c == '\U{000B}' || c == '\U{000C}' || c == '\U{00A0}' || c == '\U{1680}'
    || ('\U{2000}' <= c <= '\U{200A}')
    || c == '\U{2028}' || c == '\U{2029}' || c == '\U{202F}' || c == '\U{205F}'
    || c == '\U{3000}' || c == '\U{FEFF}'
  }

  predicate AllSpace(s: string)
  {
    forall i :: 0 <= i < |s| ==> IsSpace(s[i])
  }

  /** The number of white-space characters `s` starts with. */
  function LeadingSpaces(s: string): (n: nat)
    ensures n <= |s| && AllSpace(s[..n])
    ensures n < |s| ==> !IsSpace(s[n])
  {
    if s != [] && IsSpace(s[0]) then 1 + LeadingSpaces(s[1..]) else 0
  }

  /** The number of white-space characters `s` ends with. */
  function TrailingSpaces(s: string): (n: nat)
    ensures n <= |s| && AllSpace(s[|s| - n..])
    ensures n < |s| ==> !IsSpace(s[|s| - 1 - n])
  {
    if s != [] && IsSpace(s[|s| - 1]) then 1 + TrailingSpaces(s[..|s| - 1]) else 0
  }

  /** `s.trim()`: the text without leading and trailing white space. */
  function Trim(s: string): (r: string)
    ensures r == [] <==> AllSpace(s)
    ensures r != [] ==> !IsSpace(r[0]) && !IsSpace(r[|r| - 1])
    ensures exists a :: 0 <= a && a + |r| <= |s| && AllSpace(s[..a]) && s[a..a + |r|] == r && AllSpace(s[a + |r|..])
  {
    var a := LeadingSpaces(s);
    var t := s[a..];
    var b := TrailingSpaces(t);
    TrimmedMiddle(s, a, t, b);
    t[..|t| - b]
  }

  /** The part of `s` between `a` leading and `b` trailing white-space
      characters, each run as long as it can be. */
  lemma TrimmedMiddle(s: string, a: nat, t: string, b: nat)
    requires a <= |s| && AllSpace(s[..a]) && (a < |s| ==> !IsSpace(s[a]))
    requires t == s[a..]
    requires b <= |t| && AllSpace(t[|t| - b..]) && (b < |t| ==> !IsSpace(t[|t| - 1 - b]))
    ensures var r := t[..|t| - b];
      && (r == [] <==> AllSpace(s))
      && (r != [] ==> !IsSpace(r[0]) && !IsSpace(r[|r| - 1]))
      && a + |r| <= |s| && s[a..a + |r|] == r && AllSpace(s[a + |r|..])
  {
    var r := t[..|t| - b];
    assert s[a..a + |r|] == r;
    var rest, ends := s[a + |r|..], t[|t| - b..];
    assert AllSpace(rest) by {
      forall i | 0 <= i < |rest| ensures IsSpace(rest[i]) {
        assert rest[i] == ends[i];
      }
    }
    if a == |s| {
      assert s[..a] == s;
    } else {
      assert t[0] == s[a] && t[0..] == t;
      assert r[0] == s[a];
    }
  }

  /** Trimming a trimmed text changes nothing. */
  lemma TrimIdempotent(s: string)
    ensures Trim(Trim(s)) == Trim(s)
  {
    var r := Trim(s);
    if r != [] {
      assert LeadingSpaces(r) == 0;
      assert TrailingSpaces(r) == 0;
      assert r[0..][..|r| - 0] == r;
    }
  }

  predicate StartsWith(s: string, prefix: string)
  {
    |prefix| <= |s| && s[..|prefix|] == prefix
  }

  /** `s.includes(k)`; the regex `/k/.test(s)` for a pattern `k` without metacharacters. */
  predicate Contains(s: string, k: string)
    decreases |s|
  {
    StartsWith(s, k) || (s != [] && Contains(s[1..], k))
  }

  /** The keyword test `/k1|k2|.../.test(s)`. */
  predicate ContainsAny(s: string, keywords: seq<string>)
  {
    exists k :: k in keywords && Contains(s, k)
  }

  lemma {:induction false} ContainsAt(s: string, k: string, i: nat)
    requires i + |k| <= |s| && s[i..i + |k|] == k
    ensures Contains(s, k)
    decreases i
  {
    if i > 0 {
      assert s[1..][i - 1..i - 1 + |k|] == k;
      ContainsAt(s[1..], k, i - 1);
    }
  }

  lemma {:induction false} ContainsFirstChar(s: string, k: string)
    requires Contains(s, k) && k != []
    ensures exists i :: 0 <= i < |s| && s[i] == k[0]
    decreases |s|
  {
    if !StartsWith(s, k) {
      ContainsFirstChar(s[1..], k);
      var i :| 0 <= i < |s[1..]| && s[1..][i] == k[0];
      assert s[i + 1] == k[0];
    } else {
      assert s[0] == k[0];
    }
  }

  /** Trimming only removes characters. */
  lemma TrimKeepsChars(s: string, i: nat)
    requires i < |Trim(s)|
    ensures Trim(s)[i] in s
  {
    var a := LeadingSpaces(s);
    var t := s[a..];
    assert Trim(s)[i] == t[i] == s[a + i];
  }
}
