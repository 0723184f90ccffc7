/** Decimal renderings of counts, and the sums of line lengths that the size
    bounds are about. */
module Decimal {
  import opened Basics

  predicate IsDigit(c: char) {
    '0' <= c <= '9'
  }

  function Digit(d: nat): (c: char)
    requires d < 10
    ensures IsDigit(c)
  {
    '0' + d as char
  }

  function DigitValue(c: char): (d: nat)
    requires IsDigit(c)
    ensures d < 10 && Digit(d) == c
  {
    (c - '0') as nat
  }

  function Itoa(n: nat): (s: string)
    ensures s != [] && forall k :: 0 <= k < |s| ==> IsDigit(s[k])
  {
    if n < 10 then [Digit(n)] else Itoa(n / 10) + [Digit(n % 10)]
  }

  function Natural(s: string): Option<int> {
    if s == [] || !IsDigit(s[|s| - 1]) then None
    else if |s| == 1 then Some(DigitValue(s[0]))
    else match Natural(s[..|s| - 1])
         case None => None
         case Some(n) => Some(10 * n + DigitValue(s[|s| - 1]))
  }

  /** strconv.Atoi: an optional sign and at least one digit. */
  function Atoi(s: string): Option<int> {
    if s != [] && s[0] == '-' then
      match Natural(s[1..]) case None => None case Some(n) => Some(-n)
    else
      Natural(if s != [] && s[0] == '+' then s[1..] else s)
  }

  lemma {:induction false} NaturalOfItoa(n: nat)
    ensures Natural(Itoa(n)) == Some(n)
  {
    if n >= 10 {
      NaturalOfItoa(n / 10);
      assert Itoa(n)[..|Itoa(n)| - 1] == Itoa(n / 10);
    }
  }

  /** A rendered count reads back as itself. */
  lemma AtoiOfItoa(n: nat)
    ensures Atoi(Itoa(n)) == Some(n)
  {
    NaturalOfItoa(n);
    assert IsDigit(Itoa(n)[0]);
  }

  /** A larger count never renders shorter. */
  lemma {:induction false} LongerIfLarger(m: nat, n: nat)
    requires m <= n
    ensures |Itoa(m)| <= |Itoa(n)|
  {
    if m >= 10 {
      LongerIfLarger(m / 10, n / 10);
    }
  }

  lemma Associative(a: string, b: string, c: string)
    ensures a + b + c == a + (b + c)
  {
  }

  function Concat(lines: seq<string>): string {
    if lines == [] then "" else lines[0] + Concat(lines[1..])
  }

  lemma {:induction false} ConcatBoth(a: seq<string>, b: seq<string>)
    ensures Concat(a + b) == Concat(a) + Concat(b)
  {
    if a == [] {
      assert a + b == b;
    } else {
      ConcatBoth(a[1..], b);
      assert (a + b)[1..] == a[1..] + b;
      Associative(a[0], Concat(a[1..]), Concat(b));
    }
  }

  lemma ConcatLast(a: seq<string>, s: string)
    ensures Concat(a + [s]) == Concat(a) + s
  {
    ConcatBoth(a, [s]);
    assert Concat([s]) == s + Concat([]) == s;
  }
}
