/** Character and string helpers shared by the model: decimal rendering of
    integers as JavaScript template literals print them, `String.prototype.split`
    on a one-character separator and `Array.prototype.join`. */
module Text {

  /** `\d` of a JavaScript regular expression without the `u` flag. */
  predicate IsDigit(c: char) {
    '0' <= c <= '9'
  }

  /** The strings that the regular expression `^\d+$` matches. */
  predicate AllDigits(s: string) {
    |s| > 0 && forall i :: 0 <= i < |s| ==> IsDigit(s[i])
  }

  function DigitValue(c: char): (d: nat)
    requires IsDigit(c)
    ensures d < 10
  {
    c as int - '0' as int
  }

  function DigitChar(d: nat): (c: char)
    requires d < 10
    ensures IsDigit(c) && DigitValue(c) == d
  {
    ('0' as int + d) as char
  }

  /** Decimal digits of `n`, most significant first, with no leading zero. */
  function NatToString(n: nat): (s: string)
    ensures AllDigits(s)
    ensures |s| > 1 ==> s[0] != '0'
    decreases n
  {
    if n < 10 then [DigitChar(n)] else NatToString(n / 10) + [DigitChar(n % 10)]
  }

  /** The number a string of decimal digits denotes. */
  function DigitsValue(s: string): nat
    requires forall i :: 0 <= i < |s| ==> IsDigit(s[i])
    decreases |s|
  {
    if s == [] then 0 else DigitsValue(s[..|s| - 1]) * 10 + DigitValue(s[|s| - 1])
  }

  /** Reading back the decimal rendering gives the number again. */
  lemma {:induction false} DigitsValueOfNatToString(n: nat)
    ensures DigitsValue(NatToString(n)) == n
  {
    if n >= 10 {
      var s := NatToString(n / 10);
      DigitsValueOfNatToString(n / 10);
      assert (s + [DigitChar(n % 10)])[..|s|] == s;
    }
  }

  /** `${i}` for an integer-valued JavaScript number. */
  function IntToString(i: int): (s: string)
    ensures |s| > 0
  {
    if i < 0 then "-" + NatToString(-i) else NatToString(i)
  }

  /** Different integers are rendered differently. */
  lemma IntToStringInjective(a: int, b: int)
    ensures IntToString(a) == IntToString(b) ==> a == b
  {
    if IntToString(a) == IntToString(b) {
      var s := IntToString(a);
      assert (a < 0) == (s[0] == '-') by {
        if a >= 0 { assert IsDigit(NatToString(a)[0]); }
      }
      assert (b < 0) == (s[0] == '-') by {
        if b >= 0 { assert IsDigit(NatToString(b)[0]); }
      }
      if a < 0 {
        assert NatToString(-a) == s[1..] == NatToString(-b);
        DigitsValueOfNatToString(-a);
        DigitsValueOfNatToString(-b);
      } else {
        DigitsValueOfNatToString(a);
        DigitsValueOfNatToString(b);
      }
    }
  }

  /** The first position of `c` in `s`. */
  function IndexOf(s: string, c: char): (k: nat)
    requires c in s
    ensures k < |s| && s[k] == c && c !in s[..k]
  {
    if s[0] == c then 0
    else
      var k := 1 + IndexOf(s[1..], c);
      assert s[..k] == [s[0]] + s[1..][..k - 1];
      k
  }

  /** `s.split(sep)` for a one-character separator: the pieces between
      separators, keeping empty pieces. */
  function Split(s: string, sep: char): (parts: seq<string>)
    ensures |parts| > 0
    ensures forall k :: 0 <= k < |parts| ==> sep !in parts[k]
    decreases |s|
  {
    if sep !in s then [s]
    else
      var k := IndexOf(s, sep);
      [s[..k]] + Split(s[k + 1..], sep)
  }

  /** `parts.join(sep)`. */
  function Join(parts: seq<string>, sep: string): string
    decreases |parts|
  {
    if |parts| == 0 then ""
    else if |parts| == 1 then parts[0]
    else parts[0] + sep + Join(parts[1..], sep)
  }

  /** Splitting loses nothing: joining the pieces with the separator gives
      back the original string. */
  lemma {:induction false} JoinSplit(s: string, sep: char)
    ensures Join(Split(s, sep), [sep]) == s
    decreases |s|
  {
    if sep in s {
      var k := IndexOf(s, sep);
      var rest := Split(s[k + 1..], sep);
      JoinSplit(s[k + 1..], sep);
      assert Split(s, sep) == [s[..k]] + rest;
      assert ([s[..k]] + rest)[1..] == rest;
      assert s == s[..k] + [sep] + s[k + 1..];
    }
  }

  /** A separator-free word followed by the separator becomes the first piece. */
  lemma SplitAfterWord(word: string, rest: string, sep: char)
    requires sep !in word
    ensures Split(word + [sep] + rest, sep) == [word] + Split(rest, sep)
  {
    var s := word + [sep] + rest;
    var k := IndexOf(s, sep);
    assert forall j :: 0 <= j < |word| ==> s[j] == word[j];
    assert k >= |word|;
    assert s[..k + 1][|word|] == sep;
    assert s[..k] == word;
    assert s[k + 1..] == rest;
  }

  /** `x` occurs in `s` starting at position `i`. */
  predicate OccursAt(x: string, s: string, i: int) {
    0 <= i && i + |x| <= |s| && s[i..i + |x|] == x
  }

  /** `s.includes(x)`. */
  ghost predicate Contains(s: string, x: string) {
    exists i :: OccursAt(x, s, i)
  }

  lemma OccursAtShift(x: string, p: string, s: string, i: int)
    requires OccursAt(x, s, i)
    ensures OccursAt(x, p + s, |p| + i)
  {
    assert (p + s)[|p| + i..|p| + i + |x|] == s[i..i + |x|];
  }

  /** Every part is listed in the joined string. */
  lemma {:induction false} JoinContainsPart(parts: seq<string>, sep: string, k: nat)
    requires k < |parts|
    ensures Contains(Join(parts, sep), parts[k])
    decreases |parts|
  {
    if k == 0 {
      if |parts| == 1 {
        assert OccursAt(parts[0], Join(parts, sep), 0);
      } else {
        var j := Join(parts, sep);
        assert j == parts[0] + (sep + Join(parts[1..], sep));
        assert j[0..|parts[0]|] == parts[0];
        assert OccursAt(parts[0], j, 0);
      }
    } else {
      JoinContainsPart(parts[1..], sep, k - 1);
      var i :| OccursAt(parts[k], Join(parts[1..], sep), i);
      OccursAtShift(parts[k], parts[0] + sep, Join(parts[1..], sep), i);
      assert Join(parts, sep) == (parts[0] + sep) + Join(parts[1..], sep);
    }
  }
}
