/**
 * The Python `str` operations the modelled code relies on, over
 * `string` = `seq<char>` (Unicode scalar values, as Python's code points).
 *
 * Whitespace is modelled exactly as Python's `str.isspace()` (which is also
 * what `str.strip()` removes and what `\s` matches in a `str` regex).
 * Case mapping (`lower`, `upper`) is modelled for ASCII letters only.
 */
module PyStr {

  /** Python's `str.isspace()` for one character. */
  predicate IsSpace(c: char) {
    ('\t' <= c <= '\r') || ('\U{001C}' <= c <= '\U{001F}') || c == ' ' ||
    c == '\U{0085}' || c == '\U{00A0}' || c == '\U{1680}' ||
    ('\U{2000}' <= c <= '\U{200A}') || c == '\U{2028}' || c == '\U{2029}' ||
    c == '\U{202F}' || c == '\U{205F}' || c == '\U{3000}'
  }

  predicate IsAsciiDigit(c: char) { '0' <= c <= '9' }
  predicate IsAsciiLetter(c: char) { ('a' <= c <= 'z') || ('A' <= c <= 'Z') }
  predicate IsAsciiAlnum(c: char) { IsAsciiLetter(c) || IsAsciiDigit(c) }
  predicate IsAsciiUpper(c: char) { 'A' <= c <= 'Z' }
  predicate IsAsciiLower(c: char) { 'a' <= c <= 'z' }

  /** `n` is one of the ten code points from `zero` on. */
  predicate InRun(n: int, zero: int) { zero <= n < zero + 10 }

  /** `\d` in a `str` pattern: any Unicode decimal digit (general category
      Nd, Unicode 15.0), not only `0`-`9`. Each run of ten digits is named by
      its digit zero. */
  predicate IsDecimal(c: char) {
    var n := c as int;
    InRun(n, 0x30) || InRun(n, 0x660) || InRun(n, 0x6F0) || InRun(n, 0x7C0) || InRun(n, 0x966) ||
    InRun(n, 0x9E6) || InRun(n, 0xA66) || InRun(n, 0xAE6) || InRun(n, 0xB66) || InRun(n, 0xBE6) ||
    InRun(n, 0xC66) || InRun(n, 0xCE6) || InRun(n, 0xD66) || InRun(n, 0xDE6) || InRun(n, 0xE50) ||
    InRun(n, 0xED0) || InRun(n, 0xF20) || InRun(n, 0x1040) || InRun(n, 0x1090) || InRun(n, 0x17E0) ||
    InRun(n, 0x1810) || InRun(n, 0x1946) || InRun(n, 0x19D0) || InRun(n, 0x1A80) || InRun(n, 0x1A90) ||
    InRun(n, 0x1B50) || InRun(n, 0x1BB0) || InRun(n, 0x1C40) || InRun(n, 0x1C50) || InRun(n, 0xA620) ||
    InRun(n, 0xA8D0) || InRun(n, 0xA900) || InRun(n, 0xA9D0) || InRun(n, 0xA9F0) || InRun(n, 0xAA50) ||
    InRun(n, 0xABF0) || InRun(n, 0xFF10) || InRun(n, 0x104A0) || InRun(n, 0x10D30) || InRun(n, 0x11066) ||
    InRun(n, 0x110F0) || InRun(n, 0x11136) || InRun(n, 0x111D0) || InRun(n, 0x112F0) || InRun(n, 0x11450) ||
    InRun(n, 0x114D0) || InRun(n, 0x11650) || InRun(n, 0x116C0) || InRun(n, 0x11730) || InRun(n, 0x118E0) ||
    InRun(n, 0x11950) || InRun(n, 0x11C50) || InRun(n, 0x11D50) || InRun(n, 0x11DA0) || InRun(n, 0x11F50) ||
    InRun(n, 0x16A60) || InRun(n, 0x16AC0) || InRun(n, 0x16B50) || InRun(n, 0x1D7CE) || InRun(n, 0x1D7D8) ||
    InRun(n, 0x1D7E2) || InRun(n, 0x1D7EC) || InRun(n, 0x1D7F6) || InRun(n, 0x1E140) || InRun(n, 0x1E2F0) ||
    InRun(n, 0x1E4F0) || InRun(n, 0x1E950) || InRun(n, 0x1FBF0)
  }

  /** Every ASCII digit is a decimal digit. */
  lemma AsciiDigitIsDecimal(c: char)
    requires IsAsciiDigit(c)
    ensures IsDecimal(c)
  {
  }

  /** No decimal digit is whitespace. */
  lemma DecimalNotSpace(c: char)
    requires IsDecimal(c)
    ensures !IsSpace(c)
  {
  }

  /** `str.lstrip()`: drops leading whitespace. */
  function LStrip(s: string): (r: string)
    ensures |r| <= |s| && r == s[|s| - |r|..]
    ensures r == [] || !IsSpace(r[0])
    ensures forall i :: 0 <= i < |s| - |r| ==> IsSpace(s[i])
  {
    if |s| > 0 && IsSpace(s[0]) then LStrip(s[1..]) else s
  }

  /** `str.rstrip()`: drops trailing whitespace. */
  function RStrip(s: string): (r: string)
    ensures |r| <= |s| && r == s[..|r|]
    ensures r == [] || !IsSpace(r[|r| - 1])
    ensures forall i :: |r| <= i < |s| ==> IsSpace(s[i])
  {
    if |s| > 0 && IsSpace(s[|s| - 1]) then RStrip(s[..|s| - 1]) else s
  }

  /** `str.strip()`: drops leading and trailing whitespace. */
  function Strip(s: string): string {
    RStrip(LStrip(s))
  }

  /** Where `Strip` cuts: the result is `s[i..j]`, and everything cut
      away is whitespace. */
  lemma StripBounds(s: string) returns (i: nat, j: nat)
    ensures i <= j <= |s| && Strip(s) == s[i..j]
    ensures forall k :: 0 <= k < i ==> IsSpace(s[k])
    ensures forall k :: j <= k < |s| ==> IsSpace(s[k])
  {
    var l := LStrip(s);
    var r := RStrip(l);
    i := |s| - |l|;
    j := i + |r|;
    assert l == s[i..];
    assert r == l[..|r|];
    forall k | j <= k < |s|
      ensures IsSpace(s[k])
    {
      assert s[k] == l[k - i];
    }
  }

  /** What `Strip` returns: a slice of the input, free of whitespace at
      either end, and everything cut away is whitespace. */
  lemma StripIsTrimmedSlice(s: string)
    ensures var r := Strip(s);
      exists i, j :: 0 <= i <= j <= |s| && r == s[i..j] &&
        (forall k :: 0 <= k < i ==> IsSpace(s[k])) &&
        (forall k :: j <= k < |s| ==> IsSpace(s[k]))
    ensures var r := Strip(s); r == [] || (!IsSpace(r[0]) && !IsSpace(r[|r| - 1]))
  {
    var i, j := StripBounds(s);
    var l := LStrip(s);
    var r := RStrip(l);
    if r != [] {
      assert r[0] == l[0];
    }
  }

  /** Stripping twice is stripping once. */
  lemma StripIdempotent(s: string)
    ensures Strip(Strip(s)) == Strip(s)
  {
    var r := Strip(s);
    StripIsTrimmedSlice(s);
    if r != [] {
      assert LStrip(r) == r;
      assert RStrip(r) == r;
    }
  }

  function LowerChar(c: char): char {
    if 'A' <= c <= 'Z' then (c as int + 32) as char else c
  }

  function UpperChar(c: char): char {
    if 'a' <= c <= 'z' then (c as int - 32) as char else c
  }

  /** `str.lower()` (ASCII letters). */
  function Lower(s: string): (r: string)
    ensures |r| == |s|
    ensures forall i :: 0 <= i < |s| ==> r[i] == LowerChar(s[i])
  {
    if s == [] then [] else [LowerChar(s[0])] + Lower(s[1..])
  }

  /** `str.upper()` (ASCII letters). */
  function Upper(s: string): (r: string)
    ensures |r| == |s|
    ensures forall i :: 0 <= i < |s| ==> r[i] == UpperChar(s[i])
  {
    if s == [] then [] else [UpperChar(s[0])] + Upper(s[1..])
  }

  /** `s.startswith(p)`. */
  predicate StartsWith(s: string, p: string) {
    |p| <= |s| && s[..|p|] == p
  }

  /** `s.endswith(p)`. */
  predicate EndsWith(s: string, p: string) {
    |p| <= |s| && s[|s| - |p|..] == p
  }

  /** `sub in s` for strings (the empty string occurs everywhere). */
  predicate Contains(s: string, sub: string) {
    StartsWith(s, sub) || (s != [] && Contains(s[1..], sub))
  }

  /** `s.count(c)` for a one-character argument. */
  function CountChar(s: string, c: char): (n: nat)
    ensures n <= |s|
    ensures n == 0 <==> c !in s
  {
    if s == [] then 0 else (if s[0] == c then 1 else 0) + CountChar(s[1..], c)
  }

  /** `s[:n]` for a non-negative `n`. */
  function Take<T>(s: seq<T>, n: nat): (r: seq<T>)
    ensures |r| == (if n < |s| then n else |s|)
    ensures r == s[..|r|]
  {
    if n < |s| then s[..n] else s
  }

  /** `s[start:]` for any integer `start`; a negative start counts from
      the end, so the result is the suffix of the stated length. */
  function SliceFrom<T>(s: seq<T>, start: int): (r: seq<T>)
    ensures |r| <= |s| && r == s[|s| - |r|..]
    ensures start >= 0 ==> |r| == (if start <= |s| then |s| - start else 0)
    ensures start < 0 ==> |r| == (if -start <= |s| then -start else |s|)
  {
    if start >= 0 then (if start <= |s| then s[start..] else [])
    else if -start <= |s| then s[|s| + start..]
    else s
  }

  /** `s.split(c)` for a one-character separator: always one more field
      than there are separators, empty fields kept. */
  function Split(s: string, c: char): (r: seq<string>)
    ensures |r| >= 1
  {
    if s == [] then [[]]
    else
      var rest := Split(s[1..], c);
      if s[0] == c then [[]] + rest else [[s[0]] + rest[0]] + rest[1..]
  }

  /** `c.join(xs)` for a one-character separator. */
  function Join(xs: seq<string>, c: char): string {
    if |xs| == 0 then []
    else if |xs| == 1 then xs[0]
    else xs[0] + [c] + Join(xs[1..], c)
  }

  /** No field of a split contains the separator. */
  lemma {:induction false} SplitFieldsFree(s: string, c: char)
    ensures forall k :: 0 <= k < |Split(s, c)| ==> c !in Split(s, c)[k]
  {
    if s != [] {
      SplitFieldsFree(s[1..], c);
    }
  }

  /** The number of fields is one more than the number of separators. */
  lemma {:induction false} SplitCount(s: string, c: char)
    ensures |Split(s, c)| == CountChar(s, c) + 1
  {
    if s != [] {
      SplitCount(s[1..], c);
    }
  }

  lemma JoinCons(x: string, xs: seq<string>, c: char)
    requires |xs| >= 1
    ensures Join([x] + xs, c) == x + [c] + Join(xs, c)
  {
    assert ([x] + xs)[1..] == xs;
  }

  /** Joining the fields of a split gives back the original string. */
  lemma {:induction false} JoinSplit(s: string, c: char)
    ensures Join(Split(s, c), c) == s
  {
    if s != [] {
      var rest := Split(s[1..], c);
      JoinSplit(s[1..], c);
      if s[0] == c {
        JoinCons([], rest, c);
      } else if |rest| == 1 {
        assert Split(s, c) == [[s[0]] + rest[0]];
      } else {
        var r := Split(s, c);
        assert r == [[s[0]] + rest[0]] + rest[1..];
        JoinCons([s[0]] + rest[0], rest[1..], c);
        assert rest == [rest[0]] + rest[1..];
        JoinCons(rest[0], rest[1..], c);
      }
    }
  }

  /** A separator between `x` and `y` ends the last field of `x`: the split
      of `x + [c] + y` is the split of `x` followed by the split of `y`. */
  lemma {:induction false} SplitConcat(x: string, y: string, c: char)
    ensures var sx := Split(x, c); var sy := Split(y, c);
      Split(x + [c] + y, c) == sx + sy
  {
    if x == [] {
      assert x + [c] + y == [c] + y;
      assert ([c] + y)[1..] == y;
    } else {
      assert (x + [c] + y)[1..] == x[1..] + [c] + y;
      SplitConcat(x[1..], y, c);
    }
  }

  /** A string without the separator splits into itself. */
  lemma {:induction false} SplitNoSep(y: string, c: char)
    requires c !in y
    ensures Split(y, c) == [y]
  {
    if y != [] {
      SplitNoSep(y[1..], c);
      assert [y[0]] + y[1..] == y;
    }
  }

  /** Splitting a joined list of separator-free fields gives the list. */
  lemma {:induction false} SplitJoin(xs: seq<string>, c: char)
    requires |xs| >= 1
    requires forall k :: 0 <= k < |xs| ==> c !in xs[k]
    ensures Split(Join(xs, c), c) == xs
  {
    if |xs| == 1 {
      SplitNoSep(xs[0], c);
    } else {
      SplitJoin(xs[1..], c);
      SplitNoSep(xs[0], c);
      SplitConcat(xs[0], Join(xs[1..], c), c);
      assert xs == [xs[0]] + xs[1..];
    }
  }

  function DigitChar(d: nat): char
    requires d < 10
  {
    ('0' as int + d) as char
  }

  /** `str(n)` for a natural number: its decimal digits, no leading zero. */
  function NatToString(n: nat): (r: string)
    ensures |r| >= 1
    ensures forall k :: 0 <= k < |r| ==> IsAsciiDigit(r[k])
    ensures (r[0] == '0') ==> n == 0
  {
    if n < 10 then [DigitChar(n)] else NatToString(n / 10) + [DigitChar(n % 10)]
  }

  /** `str(i)` for any integer. */
  function IntToString(i: int): (r: string)
    ensures |r| >= 1
  {
    if i < 0 then "-" + NatToString(-i) else NatToString(i)
  }

  /** The value of a string of ASCII decimal digits. */
  function DigitsValue(s: string): nat
    requires forall k :: 0 <= k < |s| ==> IsAsciiDigit(s[k])
  {
    if s == [] then 0
    else
      assert IsAsciiDigit(s[|s| - 1]);
      DigitsValue(s[..|s| - 1]) * 10 + (s[|s| - 1] as int - '0' as int)
  }

  /** Reading back a rendered natural number gives the number back,
      so distinct numbers render as distinct strings. */
  lemma {:induction false} NatToStringRoundTrip(n: nat)
    ensures DigitsValue(NatToString(n)) == n
  {
    if n >= 10 {
      var r := NatToString(n);
      NatToStringRoundTrip(n / 10);
      assert r[..|r| - 1] == NatToString(n / 10);
    }
  }

  lemma NatToStringInjective(m: nat, n: nat)
    requires NatToString(m) == NatToString(n)
    ensures m == n
  {
    NatToStringRoundTrip(m);
    NatToStringRoundTrip(n);
  }

  /** A number below 1000 renders in at most three digits. */
  lemma NatToStringShort(n: nat)
    requires n < 1000
    ensures |NatToString(n)| <= 3
  {
    if n >= 10 {
      assert |NatToString(n / 10 / 10)| == 1;
    }
  }

  /** `sep.join(xs)` for a separator of any length. */
  function JoinBy(xs: seq<string>, sep: string): (r: string)
    ensures |xs| == 1 ==> r == xs[0]
  {
    if |xs| == 0 then []
    else if |xs| == 1 then xs[0]
    else xs[0] + sep + JoinBy(xs[1..], sep)
  }

  /** Where `Contains` finds `sub`. */
  lemma {:induction false} ContainsWitness(s: string, sub: string) returns (i: nat)
    requires Contains(s, sub)
    ensures i + |sub| <= |s| && s[i..i + |sub|] == sub
  {
    if StartsWith(s, sub) {
      i := 0;
    } else {
      var j := ContainsWitness(s[1..], sub);
      assert s[1..][j..j + |sub|] == s[j + 1..j + 1 + |sub|];
      i := j + 1;
    }
  }

  /** An occurrence at any index is found by `Contains`. */
  lemma {:induction false} ContainsAt(s: string, sub: string, i: nat)
    requires i + |sub| <= |s| && s[i..i + |sub|] == sub
    ensures Contains(s, sub)
  {
    if i > 0 {
      assert s[1..][i - 1..i - 1 + |sub|] == s[i..i + |sub|];
      ContainsAt(s[1..], sub, i - 1);
    }
  }

  /** Lower-casing twice is lower-casing once. */
  lemma LowerIdempotent(s: string)
    ensures Lower(Lower(s)) == Lower(s)
  {
    assert forall i :: 0 <= i < |s| ==> LowerChar(LowerChar(s[i])) == LowerChar(s[i]);
  }

  /** No character of `s` is whitespace. */
  predicate NoSpace(s: string) {
    forall k :: 0 <= k < |s| ==> !IsSpace(s[k])
  }

  /** A string without whitespace is its own strip. */
  lemma StripNoSpace(s: string)
    requires NoSpace(s)
    ensures Strip(s) == s
  {
  }

  /** Printable ASCII, `!` to `~`, holds no whitespace. */
  lemma PrintableNoSpace(s: string)
    requires forall k :: 0 <= k < |s| ==> '!' <= s[k] <= '~'
    ensures NoSpace(s)
  {
  }

  lemma NoSpaceConcat(a: string, b: string)
    requires NoSpace(a) && NoSpace(b)
    ensures NoSpace(a + b)
  {
    forall k | 0 <= k < |a + b|
      ensures !IsSpace((a + b)[k])
    {
      if k < |a| {
        assert (a + b)[k] == a[k];
      } else {
        assert (a + b)[k] == b[k - |a|];
      }
    }
  }

  /** Joining whitespace-free fields with a non-space separator gives a
      whitespace-free string. */
  lemma {:induction false} JoinNoSpace(xs: seq<string>, c: char)
    requires !IsSpace(c)
    requires forall j :: 0 <= j < |xs| ==> NoSpace(xs[j])
    ensures NoSpace(Join(xs, c))
  {
    if |xs| > 1 {
      JoinNoSpace(xs[1..], c);
      NoSpaceConcat(xs[0], [c]);
      NoSpaceConcat(xs[0] + [c], Join(xs[1..], c));
    }
  }

  /** `s.count(c)` adds up over a concatenation. */
  lemma {:induction false} CountCharConcat(x: string, y: string, c: char)
    ensures CountChar(x + y, c) == CountChar(x, c) + CountChar(y, c)
  {
    if x != [] {
      assert (x + y)[1..] == x[1..] + y;
      CountCharConcat(x[1..], y, c);
    } else {
      assert x + y == y;
    }
  }

  /** A string that starts with the separator splits with an empty first field. */
  lemma SplitLeadingSep(y: string, c: char)
    ensures Split([c] + y, c)[0] == []
  {
    assert ([c] + y)[0] == c && ([c] + y)[1..] == y;
  }

  /** An empty first field of `y` is a field of `x + [c] + y`. */
  lemma SplitEmptyAfter(x: string, y: string, c: char)
    requires Split(y, c)[0] == []
    ensures [] in Split(x + [c] + y, c)
  {
    SplitConcat(x, y, c);
    var sx := Split(x, c);
    assert Split(x + [c] + y, c)[|sx|] == Split(y, c)[0];
  }

  /** A string splits with an empty field exactly when it starts or ends
      with the separator or holds two separators in a row (or is empty). */
  lemma SplitEmptyField(s: string, c: char)
    requires s == [] || s[0] == c || s[|s| - 1] == c || Contains(s, [c, c])
    ensures [] in Split(s, c)
  {
    if s == [] {
    } else if s[0] == c {
      SplitLeadingSep(s[1..], c);
      assert [c] + s[1..] == s;
    } else if s[|s| - 1] == c {
      var x := s[..|s| - 1];
      assert s == x + [c] + [];
      SplitEmptyAfter(x, [], c);
    } else {
      var i := ContainsWitness(s, [c, c]);
      var x, y := s[..i], s[i + 2..];
      assert s == x + [c] + ([c] + y);
      SplitLeadingSep(y, c);
      SplitEmptyAfter(x, [c] + y, c);
    }
  }
}
