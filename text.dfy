/**
 * String helpers shared by the form formatters, the display helpers and the
 * search filter: the `/\D/g` digit filter, ASCII case mapping, and
 * substring containment (`String.prototype.includes`).
 */
module Text {

  predicate IsDigit(c: char) { '0' <= c <= '9' }

  predicate AllDigits(s: string) { forall i :: 0 <= i < |s| ==> IsDigit(s[i]) }

  predicate NoDigits(s: string) { forall i :: 0 <= i < |s| ==> !IsDigit(s[i]) }

  function Min(a: int, b: int): int { if a <= b then a else b }

  /** The first `n` characters of `s`, or all of `s` when it is shorter. */
  function Take(s: string, n: nat): (r: string)
    ensures |r| == Min(|s|, n)
    ensures r <= s
  {
    if |s| <= n then s else s[..n]
  }

  /** `s.replace(/\D/g, "")`: keeps the ASCII digits of `s`, in order. */
  function Digits(s: string): (r: string)
    ensures AllDigits(r)
    ensures |r| <= |s|
  {
    if s == [] then []
    else (if IsDigit(s[0]) then [s[0]] else []) + Digits(s[1..])
  }

  lemma {:induction false} DigitsConcat(a: string, b: string)
    ensures Digits(a + b) == Digits(a) + Digits(b)
  {
    if a == [] {
      assert a + b == b;
    } else {
      assert (a + b)[1..] == a[1..] + b;
      DigitsConcat(a[1..], b);
    }
  }

  lemma {:induction false} DigitsOfDigitString(s: string)
    requires AllDigits(s)
    ensures Digits(s) == s
  {
    if s != [] {
      DigitsOfDigitString(s[1..]);
    }
  }

  lemma {:induction false} DigitsOfSeparators(s: string)
    requires NoDigits(s)
    ensures Digits(s) == []
  {
    if s != [] {
      DigitsOfSeparators(s[1..]);
    }
  }

  /** Digits of `a + sep + b`, where the separator holds no digit, are those of `a` and `b`. */
  lemma DigitsAcrossSeparator(a: string, sep: string, b: string)
    requires NoDigits(sep)
    ensures Digits(a + sep + b) == Digits(a) + Digits(b)
  {
    DigitsConcat(a + sep, b);
    DigitsConcat(a, sep);
    DigitsOfSeparators(sep);
  }

  predicate IsUpperAscii(c: char) { 'A' <= c <= 'Z' }

  predicate IsLowerAscii(c: char) { 'a' <= c <= 'z' }

  function LowerChar(c: char): char
  {
    if IsUpperAscii(c) then (c as int + 32) as char else c
  }

  function UpperChar(c: char): char
  {
    if IsLowerAscii(c) then (c as int - 32) as char else c
  }

  /** `toLowerCase()`, restricted to the ASCII letters. */
  function Lower(s: string): (r: string)
    ensures |r| == |s|
  {
    seq(|s|, i requires 0 <= i < |s| => LowerChar(s[i]))
  }

  /** `toUpperCase()`, restricted to the ASCII letters. */
  function Upper(s: string): (r: string)
    ensures |r| == |s|
  {
    seq(|s|, i requires 0 <= i < |s| => UpperChar(s[i]))
  }

  /** `s.includes(t)`: `t` occurs in `s` at some position. */
  predicate Contains(s: string, t: string)
    ensures Contains(s, t) ==> |t| <= |s|
  {
    t <= s || (s != [] && Contains(s[1..], t))
  }

  /** `t` occurs in `s` starting at index `i`. */
  predicate OccursAt(s: string, t: string, i: int)
  {
    0 <= i && i + |t| <= |s| && s[i..i + |t|] == t
  }

  /** `Contains` holds exactly when `t` occurs in `s` at some index. */
  lemma {:induction false} ContainsIffOccurs(s: string, t: string)
    ensures Contains(s, t) <==> exists i :: OccursAt(s, t, i)
  {
    if s == [] {
      if t == [] {
        assert OccursAt(s, t, 0);
      }
    } else {
      ContainsIffOccurs(s[1..], t);
      if t <= s {
        assert OccursAt(s, t, 0);
      }
      if exists i :: OccursAt(s[1..], t, i) {
        var i :| OccursAt(s[1..], t, i);
        assert s[i + 1..i + 1 + |t|] == s[1..][i..i + |t|];
        assert OccursAt(s, t, i + 1);
      }
      if exists i :: OccursAt(s, t, i) {
        var i :| OccursAt(s, t, i);
        if i == 0 {
          assert t <= s;
        } else {
          assert s[1..][i - 1..i - 1 + |t|] == s[i..i + |t|];
          assert OccursAt(s[1..], t, i - 1);
        }
      }
    }
  }
}
