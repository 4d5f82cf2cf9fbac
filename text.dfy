/** The pieces of JavaScript's string handling the application relies on:
    `String.prototype.trim`, `parseInt` (base 10), `Number.prototype.toString`
    for integers, and the code-unit order used when strings are compared. */
module Text {
  import opened Wrappers

  /** JavaScript's WhiteSpace and LineTerminator characters, the set `trim()`
      removes and `parseInt` skips. */
  predicate IsSpace(c: char) {
    c == ' ' || c == '\t' || c == '\n' || c == '\r' || c == '\U{000B}' || c == '\U{000C}'
    || c == '\U{00A0}' || c == '\U{1680}' || ('\U{2000}' <= c <= '\U{200A}')
    || c == '\U{2028}' || c == '\U{2029}' || c == '\U{202F}' || c == '\U{205F}'
    || c == '\U{3000}' || c == '\U{FEFF}'
  }

  predicate IsDigit(c: char) {
    '0' <= c <= '9'
  }

  predicate AllSpace(s: string) {
    forall i :: 0 <= i < |s| ==> IsSpace(s[i])
  }

  predicate AllDigits(s: string) {
    forall i :: 0 <= i < |s| ==> IsDigit(s[i])
  }

  /** Drops the leading white space. */
  function TrimStart(s: string): (r: string)
    ensures |r| <= |s|
    ensures r == [] || !IsSpace(r[0])
  {
    if |s| > 0 && IsSpace(s[0]) then TrimStart(s[1..]) else s
  }

  /** Drops the trailing white space. */
  function TrimEnd(s: string): (r: string)
    ensures |r| <= |s|
    ensures r == [] || !IsSpace(r[|r| - 1])
  {
    if |s| > 0 && IsSpace(s[|s| - 1]) then TrimEnd(s[..|s| - 1]) else s
  }

  /** `s.trim()`: a piece of `s` that neither starts nor ends with white
      space. */
  function Trim(s: string): (r: string)
    ensures |r| <= |s|
    ensures r == [] || (!IsSpace(r[0]) && !IsSpace(r[|r| - 1]))
  {
    TrimEndKeepsStart(TrimStart(s));
    TrimEnd(TrimStart(s))
  }

  /** Dropping trailing white space keeps a prefix. */
  lemma {:induction false} TrimEndKeepsStart(s: string)
    ensures TrimEnd(s) == s[..|TrimEnd(s)|]
  {
    if |s| > 0 && IsSpace(s[|s| - 1]) {
      TrimEndKeepsStart(s[..|s| - 1]);
    }
  }

  /** `TrimStart` drops a run of white space from the front and nothing else. */
  lemma {:induction false} TrimStartDrops(s: string)
    ensures exists i :: 0 <= i <= |s| && TrimStart(s) == s[i..] && AllSpace(s[..i])
  {
    if |s| > 0 && IsSpace(s[0]) {
      TrimStartDrops(s[1..]);
      var i :| 0 <= i <= |s[1..]| && TrimStart(s[1..]) == s[1..][i..] && AllSpace(s[1..][..i]);
      assert s[1..][i..] == s[i + 1..];
      var dropped, rest := s[..i + 1], s[1..][..i];
      assert AllSpace(dropped) by {
        forall k | 0 <= k < |dropped| ensures IsSpace(dropped[k]) {
          if k > 0 { assert dropped[k] == rest[k - 1]; }
        }
      }
    } else {
      assert TrimStart(s) == s[0..] && AllSpace(s[..0]);
    }
  }

  /** `TrimEnd` drops a run of white space from the back and nothing else. */
  lemma {:induction false} TrimEndDrops(s: string)
    ensures exists j :: 0 <= j <= |s| && TrimEnd(s) == s[..j] && AllSpace(s[j..])
  {
    if |s| > 0 && IsSpace(s[|s| - 1]) {
      var init := s[..|s| - 1];
      TrimEndDrops(init);
      var j :| 0 <= j <= |init| && TrimEnd(init) == init[..j] && AllSpace(init[j..]);
      assert init[..j] == s[..j];
      assert AllSpace(s[j..]) by {
        forall k | 0 <= k < |s| - j ensures IsSpace(s[j..][k]) {
          if k < |s| - 1 - j { assert s[j..][k] == init[j..][k]; }
        }
      }
    } else {
      assert TrimEnd(s) == s[..|s|] && AllSpace(s[|s|..]);
    }
  }

  /** `s.trim()` is the middle of `s` once the white space at both ends is
      cut off: what is dropped on either side is all white space. */
  lemma TrimIsMiddle(s: string)
    ensures exists i, j :: 0 <= i <= j <= |s| && Trim(s) == s[i..j] && AllSpace(s[..i]) && AllSpace(s[j..])
  {
    TrimStartDrops(s);
    var i :| 0 <= i <= |s| && TrimStart(s) == s[i..] && AllSpace(s[..i]);
    TrimEndDrops(s[i..]);
    var j :| 0 <= j <= |s[i..]| && TrimEnd(s[i..]) == s[i..][..j] && AllSpace(s[i..][j..]);
    TrimCuts(s, i, j);
  }

  lemma TrimCuts(s: string, i: nat, j: nat)
    requires i <= |s| && j <= |s| - i
    requires TrimStart(s) == s[i..] && TrimEnd(s[i..]) == s[i..][..j] && AllSpace(s[i..][j..])
    ensures Trim(s) == s[i..i + j] && AllSpace(s[i + j..])
  {
    assert s[i..][..j] == s[i..i + j];
    assert s[i..][j..] == s[i + j..];
  }

  lemma {:induction false} TrimStartEmptyIff(s: string)
    ensures TrimStart(s) == [] <==> AllSpace(s)
  {
    if |s| > 0 {
      TrimStartEmptyIff(s[1..]);
      if IsSpace(s[0]) && AllSpace(s[1..]) {
        forall i | 0 <= i < |s| ensures IsSpace(s[i]) {
          if i > 0 { assert s[i] == s[1..][i - 1]; }
        }
      }
      if AllSpace(s) {
        assert AllSpace(s[1..]) by {
          forall i | 0 <= i < |s| - 1 ensures IsSpace(s[1..][i]) {
            assert s[1..][i] == s[i + 1];
          }
        }
      }
    }
  }

  lemma {:induction false} TrimEndOfNonSpaceStart(s: string)
    requires s != [] && !IsSpace(s[0])
    ensures TrimEnd(s) != []
  {
    if |s| > 1 && IsSpace(s[|s| - 1]) {
      TrimEndOfNonSpaceStart(s[..|s| - 1]);
    }
  }

  /** `s.trim()` is the empty (falsy) string exactly when `s` is all white space. */
  lemma TrimEmptyIff(s: string)
    ensures Trim(s) == [] <==> AllSpace(s)
  {
    TrimStartEmptyIff(s);
    var t := TrimStart(s);
    if t != [] {
      TrimEndOfNonSpaceStart(t);
    }
  }

  function DigitValue(c: char): nat
    requires IsDigit(c)
  {
    (c as int - '0' as int) as nat
  }

  function DigitChar(d: nat): (c: char)
    requires d < 10
    ensures IsDigit(c) && DigitValue(c) == d
  {
    ('0' as int + d) as char
  }

  function Pow10(k: nat): (r: nat)
    ensures r >= 1
  {
    if k == 0 then 1 else 10 * Pow10(k - 1)
  }

  /** The value of a string of decimal digits (most significant first). */
  function ValueOf(s: string): nat
    requires AllDigits(s)
  {
    if s == [] then 0 else 10 * ValueOf(s[..|s| - 1]) + DigitValue(s[|s| - 1])
  }

  /** The canonical decimal digits of `n`: no leading zero, "0" for zero. */
  function DigitsOf(n: nat): (s: string)
    ensures |s| >= 1 && AllDigits(s)
    ensures ValueOf(s) == n
    ensures |s| > 1 ==> s[0] != '0'
  {
    if n < 10 then [DigitChar(n)]
    else
      var s := DigitsOf(n / 10) + [DigitChar(n % 10)];
      assert s[..|s| - 1] == DigitsOf(n / 10);
      s
  }

  /** `i.toString()` for an integer value: a minus sign exactly for a
      negative value, then the canonical digits of its magnitude. */
  function IntToString(i: int): (s: string)
    ensures |s| >= 1
    ensures s[0] == '-' <==> i < 0
    ensures i >= 0 ==> AllDigits(s) && ValueOf(s) == i
    ensures i < 0 ==> AllDigits(s[1..]) && ValueOf(s[1..]) == -i
  {
    if i < 0 then "-" + DigitsOf(-i) else DigitsOf(i)
  }

  /** The longest prefix of `s` made of decimal digits. */
  function DigitPrefix(s: string): (r: string)
    ensures AllDigits(r)
  {
    if |s| > 0 && IsDigit(s[0]) then [s[0]] + DigitPrefix(s[1..]) else []
  }

  /** `parseInt(s)` in base 10: leading white space is skipped, one optional
      sign is read, then the longest run of digits; no digit at all is `NaN`,
      modelled as `None`. */
  function ParseInt(s: string): (r: Option<int>)
    ensures r.None? <==> (var u := Unsigned(TrimStart(s)); u == [] || !IsDigit(u[0]))
    ensures r.Some? && r.value < 0 ==> TrimStart(s)[0] == '-'
  {
    ParseSigned(TrimStart(s))
  }

  /** `parseInt` once the leading white space is gone. */
  function ParseSigned(t: string): (r: Option<int>)
    ensures r.None? <==> (var u := Unsigned(t); u == [] || !IsDigit(u[0]))
    ensures r.Some? && r.value < 0 ==> t[0] == '-'
  {
    var ds := DigitPrefix(Unsigned(t));
    if ds == [] then None
    else if |t| > 0 && t[0] == '-' then Some(0 - ValueOf(ds))
    else Some(ValueOf(ds))
  }

  /** What follows an optional leading sign. */
  function Unsigned(t: string): (r: string)
    ensures |r| <= |t|
  {
    if |t| > 0 && (t[0] == '-' || t[0] == '+') then t[1..] else t
  }

  lemma {:induction false} DigitPrefixOfDigits(a: string, rest: string)
    requires AllDigits(a)
    requires rest == [] || !IsDigit(rest[0])
    ensures DigitPrefix(a + rest) == a
  {
    if a != [] {
      assert (a + rest)[1..] == a[1..] + rest;
      DigitPrefixOfDigits(a[1..], rest);
      assert a == [a[0]] + a[1..];
    } else {
      assert a + rest == rest;
    }
  }

  lemma TrimStartKeeps(s: string)
    requires s != [] && !IsSpace(s[0])
    ensures TrimStart(s) == s
  {
  }

  lemma ParseIntOfDigits(sign: string, ds: string, rest: string)
    requires sign == "" || sign == "-" || sign == "+"
    requires ds != [] && AllDigits(ds)
    requires rest == [] || !IsDigit(rest[0])
    ensures ParseInt(sign + ds + rest) == Some(if sign == "-" then 0 - ValueOf(ds) else ValueOf(ds))
  {
    var s := sign + ds + rest;
    var c := s[0];
    assert c == '-' || c == '+' || IsDigit(c);
    assert !IsSpace(c);
    TrimStartKeeps(s);
    ParseSignedOfDigits(sign, ds, rest);
  }

  lemma ParseSignedOfDigits(sign: string, ds: string, rest: string)
    requires sign == "" || sign == "-" || sign == "+"
    requires ds != [] && AllDigits(ds)
    requires rest == [] || !IsDigit(rest[0])
    ensures ParseSigned(sign + ds + rest) == Some(if sign == "-" then 0 - ValueOf(ds) else ValueOf(ds))
  {
    var u := ds + rest;
    var t := sign + u;
    assert sign + ds + rest == t;
    assert IsDigit(u[0]) by {
      assert u[0] == ds[0];
    }
    SignSplit(sign, u);
    DigitPrefixOfDigits(ds, rest);
    assert DigitPrefix(Unsigned(t)) == ds;
    if sign == "-" {
      assert |t| > 0 && t[0] == '-';
    } else {
      assert !(|t| > 0 && t[0] == '-');
    }
  }

  lemma SignSplit(sign: string, u: string)
    requires sign == "" || sign == "-" || sign == "+"
    requires u != [] && IsDigit(u[0])
    ensures Unsigned(sign + u) == u
    ensures (|sign + u| > 0 && (sign + u)[0] == '-') <==> sign == "-"
  {
    assert u[0] != '-' && u[0] != '+';
    if sign == "-" {
      assert (sign + u)[0] == '-';
      assert (sign + u)[1..] == u;
    } else if sign == "+" {
      assert (sign + u)[0] == '+';
      assert (sign + u)[1..] == u;
    } else {
      assert sign + u == u;
      assert Unsigned(u) == u;
    }
  }

  /** Leading white space is dropped whatever follows it. */
  lemma {:induction false} TrimStartOfSpaces(ws: string, t: string)
    requires AllSpace(ws)
    ensures TrimStart(ws + t) == TrimStart(t)
  {
    if ws != [] {
      assert (ws + t)[0] == ws[0];
      assert (ws + t)[1..] == ws[1..] + t;
      assert AllSpace(ws[1..]) by {
        forall k | 0 <= k < |ws| - 1 ensures IsSpace(ws[1..][k]) {
          assert ws[1..][k] == ws[k + 1];
        }
      }
      TrimStartOfSpaces(ws[1..], t);
    } else {
      assert ws + t == t;
    }
  }

  /** `parseInt` ignores leading white space: `parseInt(" 10003")` is
      `parseInt("10003")`. */
  lemma ParseIntSkipsSpace(ws: string, t: string)
    requires AllSpace(ws)
    ensures ParseInt(ws + t) == ParseInt(t)
  {
    TrimStartOfSpaces(ws, t);
  }

  /** `parseInt` reads back what `toString` writes for every integer, even
      when other text follows that does not start with a digit. */
  lemma ParseIntOfToString(i: int, rest: string)
    requires rest == [] || !IsDigit(rest[0])
    ensures ParseInt(IntToString(i) + rest) == Some(i)
  {
    if i < 0 {
      ParseIntOfDigits("-", DigitsOf(-i), rest);
    } else {
      ParseIntOfDigits("", DigitsOf(i), rest);
      assert "" + DigitsOf(i) == DigitsOf(i);
    }
  }

  /** `a <= b` on strings: code-unit by code-unit, a proper prefix first. */
  predicate LexLe(a: string, b: string) {
    a == [] || (b != [] && (a[0] < b[0] || (a[0] == b[0] && LexLe(a[1..], b[1..]))))
  }

  lemma ConsDigits(c: char, s: string)
    requires IsDigit(c) && AllDigits(s)
    ensures AllDigits([c] + s)
  {
    var cs := [c] + s;
    forall i | 0 <= i < |cs| ensures IsDigit(cs[i]) {
      if i > 0 { assert cs[i] == s[i - 1]; }
    }
  }

  lemma {:induction false} ValueOfCons(c: char, s: string)
    requires IsDigit(c) && AllDigits(s)
    ensures AllDigits([c] + s)
    ensures ValueOf([c] + s) == DigitValue(c) * Pow10(|s|) + ValueOf(s)
  {
    ConsDigits(c, s);
    if s != [] {
      var cs := [c] + s;
      var init := s[..|s| - 1];
      var last := DigitValue(s[|s| - 1]);
      assert cs[..|cs| - 1] == [c] + init;
      ValueOfCons(c, init);
      assert ValueOf(cs) == 10 * ValueOf([c] + init) + last;
      assert ValueOf(s) == 10 * ValueOf(init) + last;
      ShiftPlace(DigitValue(c), Pow10(|init|), ValueOf(init), last);
    } else {
      assert ([c] + s)[..0] == [];
    }
  }

  lemma ShiftPlace(d: nat, p: nat, v: nat, last: nat)
    ensures 10 * (d * p + v) + last == d * (10 * p) + (10 * v + last)
  {
  }

  lemma {:induction false} ValueOfBound(s: string)
    requires AllDigits(s)
    ensures ValueOf(s) < Pow10(|s|)
  {
    if s != [] {
      ValueOfBound(s[..|s| - 1]);
    }
  }

  lemma PlaceValueOrder(da: nat, db: nat, p: nat, va: nat, vb: nat)
    requires da < db && va < p
    ensures da * p + va < db * p + vb
  {
    assert (db - da) * p >= p by {
      assert db - da >= 1;
    }
    assert db * p - da * p == (db - da) * p;
  }

  lemma {:induction false} Pow10Mono(j: nat, k: nat)
    requires j <= k
    ensures Pow10(j) <= Pow10(k)
  {
    if j < k {
      Pow10Mono(j, k - 1);
    }
  }

  /** The leading digit of a digit string fixes its value to one slice of
      width `10^(|s| - 1)`. */
  lemma LeadingDigitBounds(s: string)
    requires s != [] && AllDigits(s)
    ensures DigitValue(s[0]) * Pow10(|s| - 1) <= ValueOf(s)
    ensures ValueOf(s) < DigitValue(s[0]) * Pow10(|s| - 1) + Pow10(|s| - 1)
  {
    assert s == [s[0]] + s[1..];
    assert AllDigits(s[1..]);
    ValueOfCons(s[0], s[1..]);
    ValueOfBound(s[1..]);
  }

  lemma LeadingOneArith(v: nat, d: nat, q: nat, t: nat)
    requires t >= 10 && q >= t
    requires d >= 1 && d * q <= v && v < t + 4
    ensures d == 1 && v >= t
  {
  }

  lemma LeadingSixArith(x: nat, c: nat, p: nat)
    requires p >= 1 && x + 4 >= 10 * p && x < c * p + p
    ensures c >= 6
  {
  }

  /** A digit string longer than `k` digits, without a leading zero, below
      `10^k + 4` starts with 1 and is at least `10^k`. */
  lemma LeadIsOne(b: string, k: nat)
    requires AllDigits(b) && |b| > k >= 1 && b[0] != '0'
    requires ValueOf(b) < Pow10(k) + 4
    ensures b[0] == '1' && ValueOf(b) >= Pow10(k)
  {
    LeadingDigitBounds(b);
    Pow10Mono(k, |b| - 1);
    Pow10Mono(1, k);
    LeadingOneArith(ValueOf(b), DigitValue(b[0]), Pow10(|b| - 1), Pow10(k));
  }

  /** A `k`-digit string within 4 of `10^k` starts with 6 or more. */
  lemma LeadAtLeastSix(a: string, k: nat)
    requires AllDigits(a) && |a| == k >= 1
    requires ValueOf(a) + 4 >= Pow10(k)
    ensures a[0] >= '6'
  {
    LeadingDigitBounds(a);
    LeadingSixArith(ValueOf(a), DigitValue(a[0]), Pow10(k - 1));
  }

  /** When adding 4 to `x` adds a digit, the decimal text of `x` starts with a
      larger digit than that of `x + 4` (at least 6 against 1). */
  lemma CarryLeadingDigits(x: nat)
    requires |DigitsOf(x)| < |DigitsOf(x + 4)|
    ensures DigitsOf(x)[0] > DigitsOf(x + 4)[0]
  {
    var a, b := DigitsOf(x), DigitsOf(x + 4);
    ValueOfBound(a);
    LeadIsOne(b, |a|);
    LeadAtLeastSix(a, |a|);
  }

  /** A string at or above a non-empty one is non-empty and does not start lower. */
  lemma LexLeHead(a: string, b: string)
    requires a != [] && LexLe(a, b)
    ensures b != [] && a[0] <= b[0]
  {
  }

  /** For digit strings of equal length, string order is numeric order. */
  lemma {:induction false} LexLeIsNumeric(a: string, b: string)
    requires AllDigits(a) && AllDigits(b) && |a| == |b|
    ensures LexLe(a, b) <==> ValueOf(a) <= ValueOf(b)
  {
    if a != [] {
      var a', b' := a[1..], b[1..];
      assert a == [a[0]] + a' && b == [b[0]] + b';
      assert AllDigits(a') && AllDigits(b');
      ValueOfCons(a[0], a');
      ValueOfCons(b[0], b');
      ValueOfBound(a');
      ValueOfBound(b');
      var p := Pow10(|a'|);
      if a[0] < b[0] {
        PlaceValueOrder(DigitValue(a[0]), DigitValue(b[0]), p, ValueOf(a'), ValueOf(b'));
      } else if a[0] > b[0] {
        PlaceValueOrder(DigitValue(b[0]), DigitValue(a[0]), p, ValueOf(b'), ValueOf(a'));
      } else {
        LexLeIsNumeric(a', b');
      }
    }
  }
}
