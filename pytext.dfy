/**
 The few Python string and integer built-ins the client relies on, written out
 over `seq<char>`: `str.strip()`, `str.lower()`, `str.split(sep)`, the
 substring test `a in b`, `int(s)` on a decimal string and `str(n)`.
 */
module PyText {
  import opened Wrappers

  /** Python's `str.isspace()`: the characters `strip()` and `int()` skip. */
  predicate IsSpace(c: char)
  {
    var k := c as int;
    (9 <= k <= 13) || (28 <= k <= 32) || k == 0x85 || k == 0xA0 || k == 0x1680
    || (0x2000 <= k <= 0x200A) || k == 0x2028 || k == 0x2029 || k == 0x202F
    || k == 0x205F || k == 0x3000
  }

  predicate AllSpace(s: string)
  {
    forall i :: 0 <= i < |s| ==> IsSpace(s[i])
  }

  function TrimLeft(s: string): (r: string)
    ensures |r| <= |s| && r == s[|s| - |r|..]
    ensures AllSpace(s[..|s| - |r|])
    ensures |r| > 0 ==> !IsSpace(r[0])
  {
    if |s| > 0 && IsSpace(s[0]) then TrimLeft(s[1..]) else s
  }

  function TrimRight(s: string): (r: string)
    ensures |r| <= |s| && r == s[..|r|]
    ensures AllSpace(s[|r|..])
    ensures |r| > 0 ==> !IsSpace(r[|r| - 1])
  {
    if |s| > 0 && IsSpace(s[|s| - 1]) then TrimRight(s[..|s| - 1]) else s
  }

  /** `s.strip()`: `s` without its leading and trailing whitespace. */
  function Strip(s: string): (r: string)
    ensures |r| <= |s|
    ensures |r| > 0 ==> !IsSpace(r[0]) && !IsSpace(r[|r| - 1])
  {
    TrimRight(TrimLeft(s))
  }

  /** `c.lower()` for ASCII and Latin-1 capitals. */
  function LowerChar(c: char): char
  {
    var k := c as int;
    if 'A' as int <= k <= 'Z' as int || (0xC0 <= k <= 0xDE && k != 0xD7)
    then (k + 32) as char
    else c
  }

  /** `s.lower()`: it keeps the length, and whitespace stays whitespace and
      nothing else becomes whitespace, so it commutes with `strip()`. */
  function Lower(s: string): (r: string)
    ensures |r| == |s|
    ensures forall i :: 0 <= i < |s| ==> (IsSpace(r[i]) <==> IsSpace(s[i]))
  {
    seq(|s|, i requires 0 <= i < |s| => LowerChar(s[i]))
  }

  /** Python's `needle in hay` on strings. */
  predicate IsSubstring(needle: string, hay: string)
  {
    exists i :: 0 <= i <= |hay| - |needle| && needle <= hay[i..]
  }

  /** `s.split(sep)` with an explicit one-character separator. */
  function Split(s: string, sep: char): (r: seq<string>)
    ensures |r| >= 1
  {
    if |s| == 0 then [""]
    else if s[0] == sep then [""] + Split(s[1..], sep)
    else var t := Split(s[1..], sep); [[s[0]] + t[0]] + t[1..]
  }

  predicate IsDigit(c: char)
  {
    '0' <= c <= '9'
  }

  predicate AllDigits(s: string)
  {
    forall i :: 0 <= i < |s| ==> IsDigit(s[i])
  }

  function DigitValue(c: char): nat
    requires IsDigit(c)
  {
    c as int - '0' as int
  }

  function DigitChar(d: nat): (c: char)
    requires d < 10
    ensures IsDigit(c) && DigitValue(c) == d
  {
    ('0' as int + d) as char
  }

  /** The number a string of decimal digits denotes. */
  function DigitsValue(s: string): nat
    requires AllDigits(s)
  {
    if |s| == 0 then 0 else DigitsValue(s[..|s| - 1]) * 10 + DigitValue(s[|s| - 1])
  }

  /** `int(s)`: surrounding whitespace, an optional sign, then decimal digits. */
  function ParseInt(s: string): Option<int>
  {
    ParseStripped(Strip(s))
  }

  /** `int()` once the surrounding whitespace is gone. */
  function ParseStripped(t: string): Option<int>
  {
    if |t| > 0 && (t[0] == '-' || t[0] == '+') then
      var d := t[1..];
      if |d| > 0 && AllDigits(d) then
        var v: int := if t[0] == '-' then -(DigitsValue(d) as int) else DigitsValue(d);
        Some(v)
      else None
    else if |t| > 0 && AllDigits(t) then Some(DigitsValue(t))
    else None
  }

  /** `str(n)` for `n >= 0`. */
  function ShowNat(n: nat): (r: string)
    ensures |r| > 0 && AllDigits(r)
  {
    if n < 10 then [DigitChar(n)] else ShowNat(n / 10) + [DigitChar(n % 10)]
  }

  /** `str(n)`, also the text an f-string puts in a cache key. */
  function ShowInt(n: int): (r: string)
    ensures |r| > 0 && (IsDigit(r[0]) || r[0] == '-')
    ensures n >= 0 ==> AllDigits(r)
  {
    if n < 0 then "-" + ShowNat(-n) else ShowNat(n)
  }

  // ---------------------------------------------------------------- lemmas

  /** Stripping a string that has no whitespace at its ends changes nothing,
      and trailing whitespace added to it is what `strip()` removes. */
  lemma {:induction false} StripPadded(s: string, pad: string)
    requires |s| > 0 && !IsSpace(s[0]) && !IsSpace(s[|s| - 1])
    requires AllSpace(pad)
    ensures Strip(s + pad) == s
  {
    assert TrimLeft(s + pad) == s + pad;
    TrimRightPadded(s, pad);
  }

  lemma {:induction false} TrimRightPadded(s: string, pad: string)
    requires |s| > 0 && !IsSpace(s[|s| - 1])
    requires AllSpace(pad)
    ensures TrimRight(s + pad) == s
    decreases |pad|
  {
    if |pad| == 0 {
      assert s + pad == s;
    } else {
      var p := pad[..|pad| - 1];
      assert (s + pad)[..|s + pad| - 1] == s + p;
      TrimRightPadded(s, p);
    }
  }

  lemma {:induction false} DigitsValueShowNat(n: nat)
    ensures DigitsValue(ShowNat(n)) == n
    decreases n
  {
    if n >= 10 {
      var s := ShowNat(n);
      assert s[..|s| - 1] == ShowNat(n / 10);
      DigitsValueShowNat(n / 10);
    }
  }

  /** `int(str(n) + pad) == n` for any whitespace `pad`: the round trip the
      client relies on when it reads numbers back out of provider labels. */
  lemma ParseShowPadded(n: int, pad: string)
    requires AllSpace(pad)
    ensures ParseInt(ShowInt(n) + pad) == Some(n)
  {
    if n < 0 {
      var m: nat := -n;
      assert ShowInt(n) + pad == "-" + ShowNat(m) + pad;
      ParseNegative(m, pad);
    } else {
      assert ShowInt(n) + pad == ShowNat(n) + pad;
      ParseNonNegative(n, pad);
    }
  }

  lemma ParseNonNegative(m: nat, pad: string)
    requires AllSpace(pad)
    ensures ParseInt(ShowNat(m) + pad) == Some(m as int)
  {
    var s := ShowNat(m);
    StripPadded(s, pad);
    assert Strip(s + pad) == s;
    assert !(s[0] == '-' || s[0] == '+');
    DigitsValueShowNat(m);
  }

  lemma ParseNegative(m: nat, pad: string)
    requires m > 0 && AllSpace(pad)
    ensures ParseInt("-" + ShowNat(m) + pad) == Some(-(m as int))
  {
    var t := ShowNat(m);
    var s := "-" + t;
    assert s[|s| - 1] == t[|t| - 1];
    StripPadded(s, pad);
    NegativeShown(m);
  }

  lemma NegativeShown(m: nat)
    ensures ParseStripped("-" + ShowNat(m)) == Some(-(m as int))
  {
    NegativeStripped(ShowNat(m));
    DigitsValueShowNat(m);
  }

  lemma NegativeStripped(t: string)
    requires |t| > 0 && AllDigits(t)
    ensures ParseStripped("-" + t) == Some(-(DigitsValue(t) as int))
  {
    assert ("-" + t)[1..] == t;
  }

  /** `int(str(n)) == n`. */
  lemma ParseShow(n: int)
    ensures ParseInt(ShowInt(n)) == Some(n)
  {
    ParseShowPadded(n, "");
    assert ShowInt(n) + "" == ShowInt(n);
  }

  /** `str` is injective. */
  lemma ShowIntInjective(a: int, b: int)
    ensures ShowInt(a) == ShowInt(b) ==> a == b
  {
    ParseShow(a);
    ParseShow(b);
  }

  /** Splitting at the first separator: the part before it, then the split of
      the rest. */
  lemma {:induction false} SplitAtFirst(a: string, sep: char, b: string)
    requires sep !in a
    ensures Split(a + [sep] + b, sep) == [a] + Split(b, sep)
    decreases |a|
  {
    if |a| == 0 {
      assert a + [sep] + b == [sep] + b;
      assert ([sep] + b)[1..] == b;
    } else {
      var s := a + [sep] + b;
      assert s[0] == a[0] && s[1..] == a[1..] + [sep] + b;
      SplitAtFirst(a[1..], sep, b);
      assert [a[0]] + a[1..] == a;
    }
  }

  /** A string without the separator splits into itself alone. */
  lemma {:induction false} SplitNoSeparator(a: string, sep: char)
    requires sep !in a
    ensures Split(a, sep) == [a]
    decreases |a|
  {
    if |a| > 0 {
      SplitNoSeparator(a[1..], sep);
      assert [a[0]] + a[1..] == a;
    }
  }

  /** Lowercasing twice is lowercasing once. */
  lemma LowerIdempotent(s: string)
    ensures Lower(Lower(s)) == Lower(s)
  {
  }

  /** `s.strip()` is always `in s`. */
  lemma StripIsSubstring(s: string)
    ensures IsSubstring(Strip(s), s)
  {
    var l := TrimLeft(s);
    var r := Strip(s);
    var a := |s| - |l|;
    assert r == s[a..a + |r|];
    assert r <= s[a..];
  }

  /** The empty string is in every string, and every string is in itself. */
  lemma SubstringBasics(s: string)
    ensures IsSubstring("", s)
    ensures IsSubstring(s, s)
  {
    assert "" <= s[0..];
    assert s <= s[0..];
  }
}
