/** Version directories: digit strings of any length, compared without converting them. */
module Versions {
  predicate IsDigit(c: char) {
    '0' <= c <= '9'
  }

  predicate AllDigits(s: string) {
    forall i :: 0 <= i < |s| ==> IsDigit(s[i])
  }

  predicate IsNumericVersion(name: string) {
    name != "" && AllDigits(name)
  }

  const DIGITS: set<char> := {'0', '1', '2', '3', '4', '5', '6', '7', '8', '9'}

  lemma DigitIs(c: char)
    ensures IsDigit(c) <==> c in DIGITS
  {
    var n := c as int;
    assert c == n as char;
    if 48 <= n <= 57 {
      assert n == 48 || n == 49 || n == 50 || n == 51 || n == 52 || n == 53 || n == 54 || n == 55 || n == 56 || n == 57;
    }
  }

  /** The names that count as versions: digits, at least one of them, and nothing else. */
  lemma NumericExactly(name: string)
    ensures IsNumericVersion(name) <==> name != "" && forall i :: 0 <= i < |name| ==> name[i] in DIGITS
  {
    forall i | 0 <= i < |name| ensures IsDigit(name[i]) <==> name[i] in DIGITS {
      DigitIs(name[i]);
    }
  }

  function Digit(c: char): nat
    requires IsDigit(c)
  {
    (c as int) - ('0' as int)
  }

  function Pow10(n: nat): nat {
    if n == 0 then 1 else 10 * Pow10(n - 1)
  }

  /** The number a digit string stands for. */
  function Value(s: string): nat
    requires AllDigits(s)
  {
    if s == "" then 0 else Digit(s[0]) * Pow10(|s| - 1) + Value(s[1..])
  }

  /** Drops leading zeros; all zeros become "0". */
  function Canonical(raw: string): (r: string)
    ensures AllDigits(raw) ==> AllDigits(r)
  {
    if raw == "" then "0" else if raw[0] == '0' then Canonical(raw[1..]) else raw
  }

  /** Lexicographic `>` of strings. */
  predicate LexGreater(a: string, b: string) {
    a != "" && (b == "" || a[0] > b[0] || (a[0] == b[0] && LexGreater(a[1..], b[1..])))
  }

  predicate IsHigherVersion(candidate: string, current: string) {
    var lhs, rhs := Canonical(candidate), Canonical(current);
    if |lhs| != |rhs| then |lhs| > |rhs| else LexGreater(lhs, rhs)
  }

  predicate IsCanonical(s: string) {
    s == "0" || (s != "" && s[0] != '0')
  }

  lemma {:induction false} CanonicalForm(raw: string)
    requires AllDigits(raw)
    ensures IsCanonical(Canonical(raw)) && Value(Canonical(raw)) == Value(raw)
  {
    if raw != "" && raw[0] == '0' {
      CanonicalForm(raw[1..]);
    } else if raw == "" {
      assert "0"[1..] == "";
      assert Value("0") == 0 * Pow10(0) + Value("");
    }
  }

  lemma {:induction false} ValueBound(s: string)
    requires AllDigits(s)
    ensures Value(s) < Pow10(|s|)
  {
    if s != "" {
      ValueBound(s[1..]);
      TimesAtMost(Digit(s[0]), 9, Pow10(|s| - 1));
    }
  }

  lemma TimesAtMost(a: nat, b: nat, p: nat)
    requires a <= b
    ensures a * p <= b * p
  {
    assert b * p == a * p + (b - a) * p;
  }

  lemma {:induction false} Pow10Grows(m: nat, n: nat)
    requires m <= n
    ensures Pow10(m) <= Pow10(n)
    decreases n
  {
    if m < n {
      Pow10Grows(m, n - 1);
    }
  }

  /** A string with a non-zero first digit is at least a power of ten. */
  lemma LeadingDigit(s: string)
    requires AllDigits(s) && s != "" && s[0] != '0'
    ensures Value(s) >= Pow10(|s| - 1)
  {
    TimesAtMost(1, Digit(s[0]), Pow10(|s| - 1));
  }

  /** More digits, a higher number. */
  lemma LongerIsHigher(a: string, b: string)
    requires AllDigits(a) && AllDigits(b) && IsCanonical(a) && |a| > |b| > 0
    ensures Value(a) > Value(b)
  {
    LeadingDigit(a);
    ValueBound(b);
    Pow10Grows(|b|, |a| - 1);
  }

  /** Among strings of one length, lexicographic order is numeric order. */
  lemma {:induction false} LexIsNumeric(a: string, b: string)
    requires AllDigits(a) && AllDigits(b) && |a| == |b|
    ensures LexGreater(a, b) <==> Value(a) > Value(b)
    ensures a == b <==> Value(a) == Value(b)
  {
    if a != "" {
      LexIsNumeric(a[1..], b[1..]);
      ValueBound(a[1..]);
      ValueBound(b[1..]);
      var p := Pow10(|a| - 1);
      if Digit(a[0]) > Digit(b[0]) {
        LeadDiffers(Digit(a[0]), Digit(b[0]), p, Value(a[1..]), Value(b[1..]));
      } else if Digit(a[0]) < Digit(b[0]) {
        LeadDiffers(Digit(b[0]), Digit(a[0]), p, Value(b[1..]), Value(a[1..]));
      } else {
        assert a[0] == b[0];
        assert a == [a[0]] + a[1..] && b == [b[0]] + b[1..];
      }
    }
  }

  lemma LeadDiffers(x: nat, y: nat, p: nat, u: nat, v: nat)
    requires x > y && v < p
    ensures x * p + u > y * p + v
  {
    TimesAtMost(y + 1, x, p);
    assert (y + 1) * p == y * p + p;
  }

  lemma CanonicalOrder(a: string, b: string)
    requires AllDigits(a) && AllDigits(b) && IsCanonical(a) && IsCanonical(b)
    ensures (if |a| != |b| then |a| > |b| else LexGreater(a, b)) <==> Value(a) > Value(b)
    ensures a == b <==> Value(a) == Value(b)
  {
    if |a| > |b| {
      LongerIsHigher(a, b);
    } else if |b| > |a| {
      LongerIsHigher(b, a);
    } else {
      LexIsNumeric(a, b);
    }
  }

  /** The digit comparison is exactly numeric greater-than, whatever the lengths and leading zeros. */
  lemma HigherIsNumeric(a: string, b: string)
    requires AllDigits(a) && AllDigits(b)
    ensures IsHigherVersion(a, b) <==> Value(a) > Value(b)
  {
    CanonicalForm(a);
    CanonicalForm(b);
    CanonicalOrder(Canonical(a), Canonical(b));
  }

  /** Two spellings have one canonical form exactly when they are one number. */
  lemma SameCanonicalIsSameValue(a: string, b: string)
    requires AllDigits(a) && AllDigits(b)
    ensures Canonical(a) == Canonical(b) <==> Value(a) == Value(b)
  {
    CanonicalForm(a);
    CanonicalForm(b);
    CanonicalOrder(Canonical(a), Canonical(b));
  }
}
