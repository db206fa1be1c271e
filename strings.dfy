/** The JavaScript string built-ins the chat code relies on: `trim`, `join`,
    `slice(0, n)`, `String(n)` for an integral number and `parseInt(s, 10)`.
    Strings are sequences of Unicode scalar values. */
module Strings {
  import opened Wrappers

  /** The ECMAScript WhiteSpace and LineTerminator code points, which is the set
      `String.prototype.trim` removes from both ends. */
  predicate IsSpace(c: char) {
    || c == '\t' || c == '\n' || c == '\U{B}' || c == '\U{C}' || c == '\r' || c == ' '
    || c == '\U{A0}' || c == '\U{1680}' || ('\U{2000}' <= c <= '\U{200A}')
    || c == '\U{2028}' || c == '\U{2029}' || c == '\U{202F}' || c == '\U{205F}'
    || c == '\U{3000}' || c == '\U{FEFF}'
  }

  predicate AllSpace(s: string) {
    forall i :: 0 <= i < |s| ==> IsSpace(s[i])
  }

  /** `s.trimStart()`: the suffix left after dropping the leading whitespace. */
  function TrimStart(s: string): (r: string)
    ensures |r| <= |s| && r == s[|s| - |r|..]
    ensures AllSpace(s[..|s| - |r|])
    ensures r == [] || !IsSpace(r[0])
  {
    if s != [] && IsSpace(s[0]) then
      var r := TrimStart(s[1..]);
      assert s[1..][..|s| - 1 - |r|] == s[1..|s| - |r|];
      r
    else
      s
  }

  /** `s.trimEnd()`: the prefix left after dropping the trailing whitespace. */
  function TrimEnd(s: string): (r: string)
    ensures |r| <= |s| && r == s[..|r|]
    ensures AllSpace(s[|r|..])
    ensures r == [] || !IsSpace(r[|r| - 1])
  {
    if s != [] && IsSpace(s[|s| - 1]) then
      var r := TrimEnd(s[..|s| - 1]);
      assert s[..|s| - 1][|r|..] == s[|r|..|s| - 1];
      r
    else
      s
  }

  /** `s.trim()`. The result is empty exactly when `s` is all whitespace,
      and otherwise starts and ends with a non-whitespace character. */
  function Trim(s: string): (r: string)
    ensures r == [] <==> AllSpace(s)
    ensures r == [] || (!IsSpace(r[0]) && !IsSpace(r[|r| - 1]))
  {
    var t := TrimStart(s);
    var r := TrimEnd(t);
    assert r == [] && AllSpace(t) ==> s == s[..|s| - |t|] + t;
    assert AllSpace(s) && t != [] ==> IsSpace(s[|s| - |t|]);
    r
  }

  /** A string is blank when it is missing or made of whitespace only; by the
      contract of `Trim` this is the test `!s || !s.trim()`. */
  predicate IsBlank(s: Option<string>) {
    s.None? || AllSpace(s.value)
  }

  /** JavaScript truthiness of a string that may be missing. */
  predicate Truthy(s: Option<string>) {
    s.Some? && s.value != []
  }

  /** TrimStart is the unique split into a whitespace prefix and a rest that
      does not start with whitespace. */
  lemma {:induction false} TrimStartAt(s: string, i: nat)
    requires i <= |s| && AllSpace(s[..i])
    requires i == |s| || !IsSpace(s[i])
    ensures TrimStart(s) == s[i..]
  {
    if i > 0 {
      assert IsSpace(s[..i][0]);
      assert s[1..][..i - 1] == s[1..i];
      TrimStartAt(s[1..], i - 1);
      assert s[1..][i - 1..] == s[i..];
    }
  }

  /** TrimEnd is the unique split into a rest that does not end with
      whitespace and a whitespace suffix. */
  lemma {:induction false} TrimEndAt(s: string, j: nat)
    requires j <= |s| && AllSpace(s[j..])
    requires j == 0 || !IsSpace(s[j - 1])
    ensures TrimEnd(s) == s[..j]
  {
    if j < |s| {
      assert IsSpace(s[j..][|s| - 1 - j]);
      assert s[..|s| - 1][j..] == s[j..|s| - 1];
      TrimEndAt(s[..|s| - 1], j);
      assert s[..|s| - 1][..j] == s[..j];
    }
  }

  /** Reference definition of `trim`: whatever is left between a whitespace
      prefix and a whitespace suffix, when it neither starts nor ends with
      whitespace, is the trimmed string. */
  lemma TrimIsCore(s: string, i: nat, j: nat)
    requires i <= j <= |s|
    requires AllSpace(s[..i]) && AllSpace(s[j..])
    requires i == j || (!IsSpace(s[i]) && !IsSpace(s[j - 1]))
    ensures Trim(s) == s[i..j]
  {
    if i == j {
      TrimOfAllSpace(s, i);
    } else {
      TrimStartAt(s, i);
      TrimEndOfSuffix(s, i, j);
    }
  }

  /** TrimEndAt, for the suffix of `s` that starts at `i`. */
  lemma TrimEndOfSuffix(s: string, i: nat, j: nat)
    requires i < j <= |s| && AllSpace(s[j..]) && !IsSpace(s[j - 1])
    ensures TrimEnd(s[i..]) == s[i..j]
  {
    var t := s[i..];
    assert t[j - i..] == s[j..];
    TrimEndAt(t, j - i);
    assert t[..j - i] == s[i..j];
  }

  /** A whitespace prefix followed by a whitespace suffix trims to nothing. */
  lemma TrimOfAllSpace(s: string, i: nat)
    requires i <= |s| && AllSpace(s[..i]) && AllSpace(s[i..])
    ensures Trim(s) == []
  {
    forall k | 0 <= k < |s| ensures IsSpace(s[k]) {
      if k < i { assert s[k] == s[..i][k]; } else { assert s[k] == s[i..][k - i]; }
    }
  }

  /** Trimming twice changes nothing. */
  lemma TrimIdempotent(s: string)
    ensures Trim(Trim(s)) == Trim(s)
  {
    var r := Trim(s);
    TrimIsCore(r, 0, |r|);
    assert r[0..|r|] == r;
  }

  /** `parts.join(sep)`: the parts in order with `sep` between neighbours;
      no parts give the empty string. */
  function Join(parts: seq<string>, sep: string): (r: string)
    ensures |parts| == 0 ==> r == []
    ensures |parts| > 0 ==> parts[0] <= r
  {
    if |parts| == 0 then []
    else if |parts| == 1 then parts[0]
    else parts[0] + sep + Join(parts[1..], sep)
  }

  /** One more part adds the separator and that part at the end. */
  lemma {:induction false} JoinAppend(parts: seq<string>, p: string, sep: string)
    requires parts != []
    ensures Join(parts + [p], sep) == Join(parts, sep) + sep + p
  {
    var all := parts + [p];
    assert all[0] == parts[0];
    if |parts| == 1 {
      assert all[1..] == [p];
    } else {
      assert all[1..] == parts[1..] + [p];
      JoinAppend(parts[1..], p, sep);
    }
  }

  /** With a whitespace separator, the joined string is all whitespace exactly
      when every part is. */
  lemma {:induction false} JoinAllSpace(parts: seq<string>, sep: string)
    requires AllSpace(sep)
    ensures AllSpace(Join(parts, sep)) <==> forall k :: 0 <= k < |parts| ==> AllSpace(parts[k])
  {
    if |parts| > 1 {
      JoinAllSpace(parts[1..], sep);
      var rest := Join(parts[1..], sep);
      var j := parts[0] + sep + rest;
      assert j == Join(parts, sep);
      assert AllSpace(j) ==> AllSpace(parts[0]) && AllSpace(rest) by {
        if AllSpace(j) {
          forall i | 0 <= i < |parts[0]| ensures IsSpace(parts[0][i]) { assert parts[0][i] == j[i]; }
          forall i | 0 <= i < |rest| ensures IsSpace(rest[i]) { assert rest[i] == j[|parts[0]| + |sep| + i]; }
        }
      }
      assert AllSpace(parts[0]) && AllSpace(rest) ==> AllSpace(j) by {
        if AllSpace(parts[0]) && AllSpace(rest) {
          forall i | 0 <= i < |j| ensures IsSpace(j[i]) {
            if i < |parts[0]| { assert j[i] == parts[0][i]; }
            else if i < |parts[0]| + |sep| { assert j[i] == sep[i - |parts[0]|]; }
            else { assert j[i] == rest[i - |parts[0]| - |sep|]; }
          }
        }
      }
      assert (forall k :: 0 <= k < |parts| ==> AllSpace(parts[k]))
         <==> AllSpace(parts[0]) && (forall k :: 0 <= k < |parts[1..]| ==> AllSpace(parts[1..][k])) by {
        if forall k :: 0 <= k < |parts[1..]| ==> AllSpace(parts[1..][k]) {
          forall k | 1 <= k < |parts| ensures AllSpace(parts[k]) { assert parts[k] == parts[1..][k - 1]; }
        }
      }
    }
  }

  /** `s.slice(0, n)` for a non-negative `n`: the first `n` characters, or all
      of `s` when it is shorter. */
  function Take(s: string, n: nat): (r: string)
    ensures r <= s
    ensures |r| == if |s| < n then |s| else n
  {
    if |s| <= n then s else s[..n]
  }

  predicate IsDigit(c: char) {
    '0' <= c <= '9'
  }

  predicate AllDigits(s: string) {
    forall i :: 0 <= i < |s| ==> IsDigit(s[i])
  }

  function DigitChar(d: nat): (c: char)
    requires d < 10
    ensures IsDigit(c)
  {
    ('0' as int + d) as char
  }

  function DigitValue(c: char): nat
    requires IsDigit(c)
  {
    c as int - '0' as int
  }

  /** The decimal digits of `n`, most significant first, without leading zeros. */
  function Digits(n: nat): (r: string)
    ensures r != [] && AllDigits(r)
    ensures r[0] == '0' <==> n == 0
  {
    if n < 10 then [DigitChar(n)] else Digits(n / 10) + [DigitChar(n % 10)]
  }

  /** `String(n)` for an integral number `n` (below 10^21 in magnitude, where
      JavaScript still writes every digit). */
  function DecimalString(n: int): (r: string)
    ensures n >= 0 ==> r != [] && AllDigits(r) && (r[0] == '0' <==> n == 0)
    ensures n < 0 ==> |r| >= 2 && r[0] == '-' && AllDigits(r[1..]) && r[1] != '0'
  {
    if n < 0 then "-" + Digits(-n) else Digits(n)
  }

  /** The number a string of decimal digits denotes. */
  function DigitsValue(d: string): nat
    requires AllDigits(d)
  {
    if d == [] then 0 else 10 * DigitsValue(d[..|d| - 1]) + DigitValue(d[|d| - 1])
  }

  /** The longest prefix of `s` made of decimal digits. */
  function DigitPrefix(s: string): (r: string)
    ensures r <= s && AllDigits(r)
    ensures |r| == |s| || !IsDigit(s[|r|])
  {
    if s != [] && IsDigit(s[0]) then [s[0]] + DigitPrefix(s[1..]) else []
  }

  /** `parseInt(s, 10)`: skip leading whitespace, take an optional sign, then
      the longest run of decimal digits; `None` stands for `NaN` (no digits). */
  function ParseInt(s: string): Option<int> {
    var t := TrimStart(s);
    var negative := t != [] && t[0] == '-';
    var unsigned := if t != [] && (t[0] == '-' || t[0] == '+') then t[1..] else t;
    var d := DigitPrefix(unsigned);
    var v: int := if d == [] then 0 else DigitsValue(d);
    if d == [] then None else if negative then Some(-v) else Some(v)
  }

  lemma {:induction false} DigitsValueOfDigits(n: nat)
    ensures DigitsValue(Digits(n)) == n
  {
    var d := Digits(n);
    if n < 10 {
      assert d[..0] == [];
    } else {
      DigitsValueOfDigits(n / 10);
      assert d[..|d| - 1] == Digits(n / 10);
    }
  }

  lemma {:induction false} DigitPrefixOfDigits(s: string)
    requires AllDigits(s)
    ensures DigitPrefix(s) == s
  {
    if s != [] {
      DigitPrefixOfDigits(s[1..]);
    }
  }

  /** A run of digits reads as its value, with or without a minus sign. */
  lemma ParseIntOfDigits(d: string)
    requires d != [] && AllDigits(d)
    ensures ParseInt(d) == Some(DigitsValue(d))
    ensures ParseInt("-" + d) == Some(-(DigitsValue(d) as int))
  {
    DigitPrefixOfDigits(d);
    assert !IsSpace(d[0]);
    TrimStartAt(d, 0);
    var m := "-" + d;
    assert !IsSpace(m[0]);
    TrimStartAt(m, 0);
    assert m[0..] == m && d[0..] == d;
    assert m[1..] == d;
  }

  /** `parseInt(String(n), 10) == n`: a number written with `String` reads
      back as the same number. */
  lemma ParseIntOfDecimal(n: int)
    ensures ParseInt(DecimalString(n)) == Some(n)
  {
    var m: nat := if n < 0 then -n else n;
    var d := Digits(m);
    var s := DecimalString(n);
    ParseIntOfDigits(d);
    DigitsValueOfDigits(m);
    if n < 0 {
      assert s == "-" + d;
      assert ParseInt(s) == Some(-(DigitsValue(d) as int));
    } else {
      assert s == d;
    }
  }
}
