/** Digit normalisation and amount extraction of the heuristic transaction
    extractor (`numberMap`, `convertToEnglishNumbers`, `extractAmount`). */
module Numerals {
  import opened Wrappers

  /** `numberMap`: each Arabic-Indic digit (U+0660..U+0669) and each Extended
      Arabic-Indic digit (U+06F0..U+06F9) to the ASCII digit of equal value. */
  const NumberMap: map<char, char> := map[
    '٠' := '0', '١' := '1', '٢' := '2', '٣' := '3', '٤' := '4',
    '٥' := '5', '٦' := '6', '٧' := '7', '٨' := '8', '٩' := '9',
    '۰' := '0', '۱' := '1', '۲' := '2', '۳' := '3', '۴' := '4',
    '۵' := '5', '۶' := '6', '۷' := '7', '۸' := '8', '۹' := '9'
  ]

  /** The character class `[٠-٩۰-۹]` of the replacement regex. */
  predicate IsLocalDigit(c: char)
  {
    ('\U{0660}' <= c <= '\U{0669}') || ('\U{06F0}' <= c <= '\U{06F9}')
  }

  /** The value a local digit glyph stands for. */
  function GlyphValue(c: char): nat
    requires IsLocalDigit(c)
  {
    if c <= '\U{0669}' then c as int - 0x0660 else c as int - 0x06F0
  }

  /** `\d` of a regex without the `u` flag: an ASCII digit. */
  predicate IsDigit(c: char)
  {
    '0' <= c <= '9'
  }

  function DigitValue(c: char): nat
    requires IsDigit(c)
  {
    c as int - '0' as int
  }

  predicate AllDigits(s: string)
  {
    forall i :: 0 <= i < |s| ==> IsDigit(s[i])
  }

  predicate HasDigit(s: string)
  {
    exists i :: 0 <= i < |s| && IsDigit(s[i])
  }

  /** The replacement callback `numberMap[match] || match`, applied to every
      character the class matches; other characters are left as they are. */
  function EnglishDigit(c: char): (r: char)
    ensures IsLocalDigit(c) ==> IsDigit(r) && DigitValue(r) == GlyphValue(c)
    ensures !IsLocalDigit(c) ==> r == c
  {
    if IsLocalDigit(c) then
      var d := if c in NumberMap then NumberMap[c] else c;
      assert c in NumberMap && d == ('0' as int + GlyphValue(c)) as char by {
        var v := GlyphValue(c);
        assert v < 10;
        if c <= '\U{0669}' {
          assert c == (0x0660 + v) as char;
        } else {
          assert c == (0x06F0 + v) as char;
        }
        assert v == 0 || v == 1 || v == 2 || v == 3 || v == 4 || v == 5 || v == 6 || v == 7 || v == 8 || v == 9;
      }
      d
    else c
  }

  /** `convertToEnglishNumbers(text)` */
  function ToEnglishNumbers(s: string): (r: string)
    ensures |r| == |s|
    ensures forall i :: 0 <= i < |s| ==> r[i] == EnglishDigit(s[i])
  {
    if s == [] then [] else [EnglishDigit(s[0])] + ToEnglishNumbers(s[1..])
  }

  /** Normalisation is idempotent. */
  lemma {:induction false} ToEnglishNumbersIdempotent(s: string)
    ensures ToEnglishNumbers(ToEnglishNumbers(s)) == ToEnglishNumbers(s)
  {
    var t := ToEnglishNumbers(s);
    forall i | 0 <= i < |t|
      ensures ToEnglishNumbers(t)[i] == t[i]
    {
      assert !IsLocalDigit(t[i]);
    }
  }

  /** Normalisation works character by character. */
  lemma {:induction false} ToEnglishNumbersAppend(a: string, b: string)
    ensures ToEnglishNumbers(a + b) == ToEnglishNumbers(a) + ToEnglishNumbers(b)
  {
    var l, r := ToEnglishNumbers(a + b), ToEnglishNumbers(a) + ToEnglishNumbers(b);
    forall i | 0 <= i < |a + b| ensures l[i] == r[i] {
      if i < |a| { assert (a + b)[i] == a[i]; } else { assert (a + b)[i] == b[i - |a|]; }
    }
  }

  /** Text without local digit glyphs is left unchanged. */
  lemma {:induction false} ToEnglishNumbersIdentity(s: string)
    requires forall i :: 0 <= i < |s| ==> !IsLocalDigit(s[i])
    ensures ToEnglishNumbers(s) == s
  {
    var t := ToEnglishNumbers(s);
    assert forall i :: 0 <= i < |s| ==> t[i] == s[i];
  }

  /** The Arabic-Indic glyph for an ASCII digit. */
  function ArabicIndicDigit(c: char): (r: char)
    requires IsDigit(c)
    ensures IsLocalDigit(r) && GlyphValue(r) == DigitValue(c)
  {
    (0x0660 + DigitValue(c)) as char
  }

  /** The text with every ASCII digit written as its Arabic-Indic glyph. */
  function ToArabicIndic(s: string): (r: string)
    ensures |r| == |s|
    ensures forall i :: 0 <= i < |s| ==> r[i] == if IsDigit(s[i]) then ArabicIndicDigit(s[i]) else s[i]
  {
    if s == [] then []
    else [if IsDigit(s[0]) then ArabicIndicDigit(s[0]) else s[0]] + ToArabicIndic(s[1..])
  }

  /** A match of `\d+(?:\.\d+)?`: the digits before the point and those after
      it (`fraction` is empty when the match has no point). */
  datatype Numeral = Numeral(whole: string, fraction: string)
  {
    predicate Valid()
    {
      whole != [] && AllDigits(whole) && AllDigits(fraction)
    }

    /** The matched text. */
    function Text(): string
    {
      if fraction == [] then whole else whole + "." + fraction
    }

    /** `parseFloat` of the matched text, as an exact decimal. */
    function Value(): (r: real)
      requires Valid()
      ensures r >= 0.0
      ensures r == WholeValue(whole) as real + FractionValue(fraction)
    {
      WholeValue(whole) as real + FractionValue(fraction)
    }
  }

  /** The integer a run of decimal digits denotes. */
  function WholeValue(ds: string): nat
    requires AllDigits(ds)
  {
    if ds == [] then 0 else 10 * WholeValue(ds[..|ds| - 1]) + DigitValue(ds[|ds| - 1])
  }

  /** The value of the digits after a decimal point, `0.d1d2...`. */
  function FractionValue(ds: string): (r: real)
    requires AllDigits(ds)
    ensures 0.0 <= r < 1.0
  {
    if ds == [] then 0.0 else (DigitValue(ds[0]) as real + FractionValue(ds[1..])) / 10.0
  }

  /** The length of the longest prefix of `s` made of ASCII digits. */
  function DigitRun(s: string): (n: nat)
    ensures n <= |s| && forall i :: 0 <= i < n ==> IsDigit(s[i])
    ensures n < |s| ==> !IsDigit(s[n])
  {
    if s != [] && IsDigit(s[0]) then 1 + DigitRun(s[1..]) else 0
  }

  /** The match of `\d+(?:\.\d+)?` that starts at the first character of `s`,
      and its length: the greedy digit run, then a point and a second digit
      run when the point is followed by a digit. */
  function ScanNumeral(s: string): (r: (Numeral, nat))
    requires s != [] && IsDigit(s[0])
    ensures r.0.Valid() && 0 < r.1 <= |s| && s[..r.1] == r.0.Text()
    ensures r.1 < |s| ==> !IsDigit(s[r.1])
    ensures r.0.fraction == [] && r.1 + 1 < |s| && s[r.1] == '.' ==> !IsDigit(s[r.1 + 1])
  {
    var w := DigitRun(s);
    if w + 1 < |s| && s[w] == '.' && IsDigit(s[w + 1]) then WithFraction(s, w, DigitRun(s[w + 1..]))
    else
      assert AllDigits(s[..w]);
      (Numeral(s[..w], ""), w)
  }

  /** The match of `w` digits, a point and `f` more digits. */
  function WithFraction(s: string, w: nat, f: nat): (r: (Numeral, nat))
    requires 0 < w && 0 < f && w + 1 + f <= |s| && s[w] == '.'
    requires forall i :: 0 <= i < w ==> IsDigit(s[i])
    requires forall i :: w + 1 <= i < w + 1 + f ==> IsDigit(s[i])
    requires w + 1 + f < |s| ==> !IsDigit(s[w + 1 + f])
    ensures r.0.Valid() && r.0.fraction != [] && 0 < r.1 <= |s| && s[..r.1] == r.0.Text()
    ensures r.1 < |s| ==> !IsDigit(s[r.1])
  {
    var n := Numeral(s[..w], s[w + 1..w + 1 + f]);
    assert AllDigits(n.whole) && AllDigits(n.fraction);
    assert s[..w + 1 + f] == s[..w] + "." + s[w + 1..w + 1 + f];
    (n, w + 1 + f)
  }

  /** The list of matches of the global regex `/\d+(?:\.\d+)?/g`, scanned left
      to right; empty when `String.prototype.match` returns `null`. */
  function Tokens(s: string): (r: seq<Numeral>)
    ensures forall k :: 0 <= k < |r| ==> r[k].Valid()
    ensures r == [] <==> !HasDigit(s)
    decreases |s|
  {
    if s == [] then []
    else if !IsDigit(s[0]) then
      var r := Tokens(s[1..]);
      assert HasDigit(s[1..]) <==> HasDigit(s) by {
        if HasDigit(s) {
          var i :| 0 <= i < |s| && IsDigit(s[i]);
          assert s[1..][i - 1] == s[i];
        }
      }
      r
    else
      var (n, len) := ScanNumeral(s);
      [n] + Tokens(s[len..])
  }

  /** A prefix without digits contributes no match. */
  lemma {:induction false} TokensSkipPrefix(a: string, b: string)
    requires !HasDigit(a)
    ensures Tokens(a + b) == Tokens(b)
    decreases |a|
  {
    if a != [] {
      assert !IsDigit(a[0]);
      assert (a + b)[1..] == a[1..] + b;
      assert !HasDigit(a[1..]) by {
        forall i | 0 <= i < |a[1..]| ensures !IsDigit(a[1..][i]) {
          assert a[1..][i] == a[i + 1];
        }
      }
      TokensSkipPrefix(a[1..], b);
    } else {
      assert a + b == b;
    }
  }

  /** The text of a numeral has no local digit glyph. */
  lemma NumeralTextAscii(n: Numeral)
    requires n.Valid()
    ensures forall i :: 0 <= i < |n.Text()| ==> !IsLocalDigit(n.Text()[i])
  {
    if n.fraction != [] {
      var t := n.Text();
      forall i | 0 <= i < |t| ensures !IsLocalDigit(t[i]) {
        if i < |n.whole| {
          assert t[i] == n.whole[i];
        } else if i > |n.whole| {
          assert t[i] == n.fraction[i - |n.whole| - 1];
        }
      }
    }
  }

  /** The scan of a point-free numeral followed by anything the regex cannot
      extend it with is that numeral. */
  lemma ScanOfWhole(d: string, tail: string)
    requires d != [] && AllDigits(d)
    requires tail != [] ==> !IsDigit(tail[0])
    requires |tail| >= 2 && tail[0] == '.' ==> !IsDigit(tail[1])
    ensures ScanNumeral(d + tail) == (Numeral(d, ""), |d|)
  {
    DigitRunOfRun(d, tail);
    assert (d + tail)[..|d|] == d;
  }

  /** Where the parts of `d.f` followed by `tail` sit in the text. */
  lemma FractionParts(d: string, f: string, tail: string)
    ensures var s := d + ("." + f + tail);
      && |d| + 1 + |f| <= |s| && s[|d|] == '.'
      && s[..|d|] == d && s[|d| + 1..] == f + tail && s[|d| + 1..|d| + 1 + |f|] == f
  {
    var s := d + ("." + f + tail);
    assert s[|d| + 1..] == f + tail;
    assert (f + tail)[..|f|] == f;
  }

  /** The scan of a numeral with a fraction, followed by a non-digit, is
      that numeral. */
  lemma ScanOfFraction(d: string, f: string, tail: string)
    requires d != [] && AllDigits(d) && f != [] && AllDigits(f)
    requires tail != [] ==> !IsDigit(tail[0])
    ensures ScanNumeral(d + ("." + f + tail)) == (Numeral(d, f), |d| + 1 + |f|)
  {
    var s := d + ("." + f + tail);
    FractionParts(d, f, tail);
    DigitRunOfRun(d, "." + f + tail);
    DigitRunOfRun(f, tail);
    assert IsDigit(s[|d| + 1]) by { assert s[|d| + 1] == (f + tail)[0] == f[0]; }
    ScanWithFraction(s, |d|, |f|);
  }

  /** `ScanNumeral` when a point and a digit follow the first run. */
  lemma ScanWithFraction(s: string, w: nat, f: nat)
    requires s != [] && IsDigit(s[0]) && DigitRun(s) == w
    requires w + 1 < |s| && s[w] == '.' && IsDigit(s[w + 1]) && DigitRun(s[w + 1..]) == f
    ensures ScanNumeral(s) == (Numeral(s[..w], s[w + 1..w + 1 + f]), w + 1 + f)
  {
    assert ScanNumeral(s) == WithFraction(s, w, f);
  }

  /** The scan of a numeral's own text, followed by anything the regex
      cannot extend it with, is that numeral. */
  lemma ScanOfNumeral(n: Numeral, tail: string)
    requires n.Valid()
    requires tail != [] ==> !IsDigit(tail[0])
    requires n.fraction == [] && |tail| >= 2 && tail[0] == '.' ==> !IsDigit(tail[1])
    ensures ScanNumeral(n.Text() + tail) == (n, |n.Text()|)
  {
    if n.fraction == [] {
      ScanOfWhole(n.whole, tail);
    } else {
      ScanOfFraction(n.whole, n.fraction, tail);
      TextWithFraction(n.whole, n.fraction, tail);
    }
  }

  lemma TextWithFraction(d: string, f: string, tail: string)
    requires f != []
    ensures Numeral(d, f).Text() + tail == d + ("." + f + tail)
  {
  }

  /** The matches of a text made of a digit-free `head`, one numeral and a
      `tail` that does not extend it: that numeral, then the matches of the
      tail. With `TokensSkipPrefix` this fixes every match, in order. */
  lemma TokensOfNumeral(head: string, n: Numeral, tail: string)
    requires !HasDigit(head) && n.Valid()
    requires tail != [] ==> !IsDigit(tail[0])
    requires n.fraction == [] && |tail| >= 2 && tail[0] == '.' ==> !IsDigit(tail[1])
    ensures Tokens(head + (n.Text() + tail)) == [n] + Tokens(tail)
  {
    TokensSkipPrefix(head, n.Text() + tail);
    ScanOfNumeral(n, tail);
    var s := n.Text() + tail;
    assert s[0] == n.whole[0];
    assert s[|n.Text()|..] == tail;
  }

  /** `parseFloat` of each match. */
  function Values(ns: seq<Numeral>): (r: seq<real>)
    requires forall k :: 0 <= k < |ns| ==> ns[k].Valid()
    ensures |r| == |ns|
    ensures forall k :: 0 <= k < |ns| ==> r[k] == ns[k].Value()
  {
    if ns == [] then [] else [ns[0].Value()] + Values(ns[1..])
  }

  /** `Math.max(...xs)` of a non-empty list. */
  function MaxOf(xs: seq<real>): (m: real)
    requires xs != []
    ensures m in xs
    ensures forall k :: 0 <= k < |xs| ==> xs[k] <= m
  {
    if |xs| == 1 then xs[0]
    else
      var m := MaxOf(xs[..|xs| - 1]);
      if xs[|xs| - 1] > m then xs[|xs| - 1] else m
  }

  /** `v` is the value of one of the numerals and no numeral is larger. */
  predicate IsLargest(v: real, ns: seq<Numeral>)
    requires forall k :: 0 <= k < |ns| ==> ns[k].Valid()
  {
    && (exists k :: 0 <= k < |ns| && v == ns[k].Value())
    && (forall k :: 0 <= k < |ns| ==> ns[k].Value() <= v)
  }

  /** `extractAmount(text)`: the largest number in the normalised text, or
      `None` when it has no number at all. */
  function ExtractAmount(text: string): (r: Option<real>)
    ensures r.None? <==> !HasDigit(ToEnglishNumbers(text))
    ensures r.Some? ==> r.value >= 0.0 && IsLargest(r.value, Tokens(ToEnglishNumbers(text)))
  {
    var matches := Tokens(ToEnglishNumbers(text));
    if matches == [] then None
    else
      var values := Values(matches);
      var m := MaxOf(values);
      assert IsLargest(m, matches) by {
        var k :| 0 <= k < |values| && values[k] == m;
        assert m == matches[k].Value();
      }
      Some(m)
  }

  /** Normalising the Arabic-Indic glyph of an ASCII digit gives the digit back. */
  lemma EnglishOfArabicIndic(c: char)
    requires IsDigit(c)
    ensures EnglishDigit(ArabicIndicDigit(c)) == c
  {
    var e := EnglishDigit(ArabicIndicDigit(c));
    assert e as int - '0' as int == c as int - '0' as int;
  }

  /** No amount is found exactly when the original text holds neither an
      ASCII digit nor a local digit glyph. */
  lemma {:induction false} NoAmountIffNoDigit(s: string)
    ensures ExtractAmount(s).None? <==>
      forall i :: 0 <= i < |s| ==> !IsDigit(s[i]) && !IsLocalDigit(s[i])
  {
    var t := ToEnglishNumbers(s);
    if HasDigit(t) {
      var i :| 0 <= i < |t| && IsDigit(t[i]);
      assert IsDigit(s[i]) || IsLocalDigit(s[i]);
    } else {
      forall i | 0 <= i < |s|
        ensures !IsDigit(s[i]) && !IsLocalDigit(s[i])
      {
        assert !IsDigit(t[i]);
      }
    }
  }

  /** Writing the digits of a text in Arabic-Indic glyphs does not change its
      normalised form, so it does not change the amount extracted from it. */
  lemma {:induction false} ArabicIndicSameAmount(s: string)
    ensures ToEnglishNumbers(ToArabicIndic(s)) == ToEnglishNumbers(s)
    ensures ExtractAmount(ToArabicIndic(s)) == ExtractAmount(s)
  {
    var a := ToArabicIndic(s);
    var ea, es := ToEnglishNumbers(a), ToEnglishNumbers(s);
    forall i | 0 <= i < |s|
      ensures ea[i] == es[i]
    {
      if IsDigit(s[i]) {
        EnglishOfArabicIndic(s[i]);
      }
    }
    assert ea == es;
  }

  /** A digit run followed by a non-digit scans as exactly that run. */
  lemma {:induction false} DigitRunOfRun(d: string, tail: string)
    requires AllDigits(d)
    requires tail != [] ==> !IsDigit(tail[0])
    ensures DigitRun(d + tail) == |d|
    decreases |d|
  {
    if d != [] {
      assert (d + tail)[1..] == d[1..] + tail;
      DigitRunOfRun(d[1..], tail);
    } else {
      assert d + tail == tail;
    }
  }

  /** Normalising leaves glyph-free surroundings alone. */
  lemma {:induction false} NormaliseBetween(head: string, digits: string, tail: string)
    requires forall i :: 0 <= i < |head| ==> !IsLocalDigit(head[i])
    requires forall i :: 0 <= i < |tail| ==> !IsLocalDigit(tail[i])
    ensures ToEnglishNumbers(head + digits + tail) == head + (ToEnglishNumbers(digits) + tail)
  {
    assert head + digits + tail == head + (digits + tail);
    ToEnglishNumbersAppend(head, digits + tail);
    ToEnglishNumbersAppend(digits, tail);
    ToEnglishNumbersIdentity(head);
    ToEnglishNumbersIdentity(tail);
  }

  /** The only match in a text whose only digits form one run is that run. */
  lemma {:induction false} TokensOfLoneRun(head: string, d: string, tail: string)
    requires !HasDigit(head) && !HasDigit(tail)
    requires d != [] && AllDigits(d)
    ensures Tokens(head + (d + tail)) == [Numeral(d, "")]
  {
    TokensSkipPrefix(head, d + tail);
    assert tail != [] ==> !IsDigit(tail[0]);
    DigitRunOfRun(d, tail);
    assert (d + tail)[..|d|] == d && (d + tail)[|d|..] == tail;
    assert ScanNumeral(d + tail) == (Numeral(d, ""), |d|);
  }

  /** A text whose only number is the digit run `digits` (in any of the three
      digit scripts) yields the value of that run. */
  lemma {:induction false} OnlyNumberIsAmount(head: string, digits: string, tail: string)
    requires forall i :: 0 <= i < |head| ==> !IsDigit(head[i]) && !IsLocalDigit(head[i])
    requires forall i :: 0 <= i < |tail| ==> !IsDigit(tail[i]) && !IsLocalDigit(tail[i])
    requires digits != [] && forall i :: 0 <= i < |digits| ==> IsDigit(digits[i]) || IsLocalDigit(digits[i])
    ensures AllDigits(ToEnglishNumbers(digits))
    ensures ExtractAmount(head + digits + tail) == Some(WholeValue(ToEnglishNumbers(digits)) as real)
  {
    var d := ToEnglishNumbers(digits);
    assert AllDigits(d);
    NormaliseBetween(head, digits, tail);
    assert !HasDigit(head) && !HasDigit(tail);
    TokensOfLoneRun(head, d, tail);
    assert Numeral(d, "").Value() == WholeValue(d) as real;
  }

  lemma FiftyNormalised()
    ensures ToEnglishNumbers("٥٠") == "50"
  {
    assert EnglishDigit('٥') == '5' && EnglishDigit('٠') == '0';
  }

  lemma FiftyValue()
    ensures WholeValue("50") == 50
  {
    assert "50"[..1] == "5";
    assert WholeValue("5") == 5 by { assert "5"[..0] == ""; }
  }

  /** A text whose only number is "٥٠" yields the amount 50, whatever
      surrounds it; "٥٠" alone is the case of empty `head` and `tail`. */
  lemma ArabicFiftyIsFifty(head: string, tail: string)
    requires forall i :: 0 <= i < |head| ==> !IsDigit(head[i]) && !IsLocalDigit(head[i])
    requires forall i :: 0 <= i < |tail| ==> !IsDigit(tail[i]) && !IsLocalDigit(tail[i])
    ensures ExtractAmount(head + "٥٠" + tail) == Some(50.0)
  {
    OnlyNumberIsAmount(head, "٥٠", tail);
    FiftyNormalised();
    FiftyValue();
  }

  /** Text without local digit glyphs is its own normal form. */
  lemma {:induction false} NormalForm3(a: string, b: string, c: string)
    requires forall i :: 0 <= i < |a| ==> !IsLocalDigit(a[i])
    requires forall i :: 0 <= i < |b| ==> !IsLocalDigit(b[i])
    requires forall i :: 0 <= i < |c| ==> !IsLocalDigit(c[i])
    ensures ToEnglishNumbers(a + b + c) == a + b + c
  {
    ToEnglishNumbersAppend(a + b, c);
    ToEnglishNumbersAppend(a, b);
    ToEnglishNumbersIdentity(a);
    ToEnglishNumbersIdentity(b);
    ToEnglishNumbersIdentity(c);
  }

  /** A text whose only number is one numeral, with or without a fraction,
      yields that numeral's value. */
  lemma NumeralIsAmount(head: string, n: Numeral, tail: string)
    requires forall i :: 0 <= i < |head| ==> !IsDigit(head[i]) && !IsLocalDigit(head[i])
    requires forall i :: 0 <= i < |tail| ==> !IsDigit(tail[i]) && !IsLocalDigit(tail[i])
    requires n.Valid()
    ensures ExtractAmount(head + n.Text() + tail) == Some(n.Value())
  {
    NumeralTextAscii(n);
    NormalForm3(head, n.Text(), tail);
    assert !HasDigit(head) && !HasDigit(tail);
    TokensOfNumeral(head, n, tail);
    assert head + n.Text() + tail == head + (n.Text() + tail);
    assert Tokens(head + n.Text() + tail) == [n];
  }

  /** The matches of two numerals apart: both, in order. The separator must
      not start with a point, which could join them. */
  lemma TwoNumerals(n1: Numeral, sep: string, n2: Numeral)
    requires n1.Valid() && n2.Valid()
    requires sep != [] && sep[0] != '.' && !HasDigit(sep)
    ensures Tokens(n1.Text() + sep + n2.Text()) == [n1, n2]
  {
    var t1, t2 := n1.Text(), n2.Text();
    var rest := sep + t2;
    Regroup(t1, sep, t2);
    TokensOfNumeral(sep, n2, []);
    assert Tokens(rest) == [n2];
    TokensOfNumeral([], n1, rest);
  }

  lemma Regroup(a: string, b: string, c: string)
    ensures b + (c + []) == b + c
    ensures [] + (a + (b + c)) == a + b + c
  {
  }

  /** When the matches are two numerals, the amount is the larger value. */
  lemma AmountOfTwo(text: string, n1: Numeral, n2: Numeral)
    requires n1.Valid() && n2.Valid()
    requires Tokens(ToEnglishNumbers(text)) == [n1, n2]
    ensures ExtractAmount(text) ==
      Some(if n1.Value() >= n2.Value() then n1.Value() else n2.Value())
  {
  }

  /** Of two numbers, the larger is the amount, whichever comes first. */
  lemma LargestWins(n1: Numeral, sep: string, n2: Numeral)
    requires n1.Valid() && n2.Valid()
    requires sep != [] && sep[0] != '.'
    requires forall i :: 0 <= i < |sep| ==> !IsDigit(sep[i]) && !IsLocalDigit(sep[i])
    ensures ExtractAmount(n1.Text() + sep + n2.Text()) ==
      Some(if n1.Value() >= n2.Value() then n1.Value() else n2.Value())
  {
    NumeralTextAscii(n1);
    NumeralTextAscii(n2);
    NormalForm3(n1.Text(), sep, n2.Text());
    TwoNumerals(n1, sep, n2);
    AmountOfTwo(n1.Text() + sep + n2.Text(), n1, n2);
  }

  lemma OneAndAHalfNormalised()
    ensures ToEnglishNumbers("١٫٥") == "1٫5"
  {
    assert EnglishDigit('١') == '1' && EnglishDigit('٥') == '5' && EnglishDigit('٫') == '٫';
  }

  lemma OneAndAHalfSplit()
    ensures Tokens("1٫5") == [Numeral("1", ""), Numeral("5", "")]
  {
    var one, five := Numeral("1", ""), Numeral("5", "");
    assert one.Text() + "٫" + five.Text() == "1٫5";
    TwoNumerals(one, "٫", five);
  }

  lemma OneAndFiveValues()
    ensures Numeral("1", "").Value() == 1.0 && Numeral("5", "").Value() == 5.0
  {
    assert WholeValue("1") == 1 by { assert "1"[..0] == ""; }
    assert WholeValue("5") == 5 by { assert "5"[..0] == ""; }
  }

  /** The Arabic decimal separator U+066B is not a point, so "١٫٥" (one and a
      half) is read as the two numbers 1 and 5, and the amount is 5. */
  lemma ArabicDecimalSeparatorSplits()
    ensures ExtractAmount("١٫٥") == Some(5.0)
  {
    OneAndAHalfNormalised();
    OneAndAHalfSplit();
    OneAndFiveValues();
    AmountOfTwo("١٫٥", Numeral("1", ""), Numeral("5", ""));
  }
}
