/** Decimal numerals as the pod index label carries them.

    The controller prints a bucket number with `strconv.Itoa`, reads it back
    with `strconv.Atoi`, and sorts labels by length and then byte order.  This
    module defines the three and proves that they fit together. */
module Decimal {
  datatype Option<+T> = None | Some(value: T)

  /** Largest value of Go's 64-bit `int`. */
  const MAX_INT := 0x7fff_ffff_ffff_ffff

  predicate IsDigit(c: char) {
    '0' <= c <= '9'
  }

  function Digit(d: nat): (c: char)
    requires d < 10
    ensures IsDigit(c) && DigitValue(c) == d
  {
    ('0' as int + d) as char
  }

  function DigitValue(c: char): (d: nat)
    requires IsDigit(c)
    ensures d < 10
  {
    c as int - '0' as int
  }

  /** `strconv.Itoa` on a non-negative number. */
  function Itoa(n: nat): (s: string)
    ensures s != "" && forall c <- s :: IsDigit(c)
  {
    if n < 10 then [Digit(n)] else Itoa(n / 10) + [Digit(n % 10)]
  }

  function DigitsValue(s: string): nat
    requires forall c <- s :: IsDigit(c)
  {
    if s == "" then 0 else 10 * DigitsValue(s[..|s| - 1]) + DigitValue(s[|s| - 1])
  }

  /** `strconv.Atoi`: an optional sign, at least one digit, and a value that
      fits 64 bits; `None` stands for its error. */
  function Atoi(s: string): Option<int> {
    var signed := s != "" && (s[0] == '-' || s[0] == '+');
    var digits := if signed then s[1..] else s;
    if digits == "" || exists c <- digits :: !IsDigit(c) then
      None
    else
      var magnitude: int := DigitsValue(digits);
      var v := if signed && s[0] == '-' then -magnitude else magnitude;
      if -MAX_INT - 1 <= v <= MAX_INT then Some(v) else None
  }

  lemma {:induction false} DigitsValueOfItoa(n: nat)
    ensures DigitsValue(Itoa(n)) == n
  {
    if n >= 10 {
      DigitsValueOfItoa(n / 10);
      assert Itoa(n)[..|Itoa(n)| - 1] == Itoa(n / 10);
    } else {
      assert [Digit(n)][..0] == "";
    }
  }

  /** Reading back a printed index gives the index. */
  lemma AtoiOfItoa(n: nat)
    requires n <= MAX_INT
    ensures Atoi(Itoa(n)) == Some(n)
  {
    DigitsValueOfItoa(n);
    assert IsDigit(Itoa(n)[0]);
  }

  /** Two indices never print alike. */
  lemma ItoaInjective(a: nat, b: nat)
    requires Itoa(a) == Itoa(b)
    ensures a == b
  {
    DigitsValueOfItoa(a);
    DigitsValueOfItoa(b);
  }

  /** Go's `<` on strings. */
  predicate StringLess(s: string, t: string) {
    if t == "" then false
    else if s == "" then true
    else if s[0] != t[0] then s[0] < t[0]
    else StringLess(s[1..], t[1..])
  }

  lemma {:induction false} StringLessTotal(s: string, t: string)
    ensures s == t <==> !StringLess(s, t) && !StringLess(t, s)
    ensures !(StringLess(s, t) && StringLess(t, s))
  {
    if s != "" && t != "" && s[0] == t[0] {
      StringLessTotal(s[1..], t[1..]);
      assert s == [s[0]] + s[1..] && t == [t[0]] + t[1..];
    }
  }

  lemma {:induction false} StringLessTransitive(s: string, t: string, u: string)
    requires StringLess(s, t) && StringLess(t, u)
    ensures StringLess(s, u)
  {
    if s != "" && s[0] == t[0] && t[0] == u[0] {
      StringLessTransitive(s[1..], t[1..], u[1..]);
    }
  }

  /** The label comparison of `SortPodsByRoleAndIndex`: shorter labels first,
      labels of one length in byte order. */
  predicate LabelLess(s: string, t: string) {
    if |s| == |t| then StringLess(s, t) else |s| < |t|
  }

  lemma {:induction false} StringLessSnoc(s: string, t: string, c: char, d: char)
    requires |s| == |t|
    ensures StringLess(s + [c], t + [d]) <==> StringLess(s, t) || (s == t && c < d)
  {
    if s == "" {
      assert s + [c] == [c] && t + [d] == [d];
      assert [c][1..] == "" && [d][1..] == "";
    } else {
      StringLessSnoc(s[1..], t[1..], c, d);
      assert (s + [c])[1..] == s[1..] + [c] && (t + [d])[1..] == t[1..] + [d];
      assert s == [s[0]] + s[1..] && t == [t[0]] + t[1..];
    }
  }

  /** On printed indices the label comparison is numeric order. */
  lemma {:induction false} LabelOrderIsNumeric(a: nat, b: nat)
    ensures LabelLess(Itoa(a), Itoa(b)) <==> a < b
  {
    if a < 10 && b < 10 {
      StringLessSnoc("", "", Digit(a), Digit(b));
      assert "" + [Digit(a)] == Itoa(a) && "" + [Digit(b)] == Itoa(b);
    } else if a >= 10 && b >= 10 {
      LabelOrderIsNumeric(a / 10, b / 10);
      if |Itoa(a / 10)| == |Itoa(b / 10)| {
        StringLessSnoc(Itoa(a / 10), Itoa(b / 10), Digit(a % 10), Digit(b % 10));
        if Itoa(a / 10) == Itoa(b / 10) {
          ItoaInjective(a / 10, b / 10);
        }
      }
    }
  }
}
