/** Printing and parsing decimal integers, as fmt's %d and strconv.Atoi do on a 64-bit platform. */
module Decimal {
  import opened Wrappers

  type Int = x: int | -0x8000_0000_0000_0000 <= x < 0x8000_0000_0000_0000

  const DIGITS := "0123456789"

  function Digit(d: nat): (c: char)
    requires d < 10
    ensures '0' <= c <= '9' && c as int - '0' as int == d
  {
    DIGITS[d]
  }

  function Digits(n: nat): (s: string)
    ensures s != []
  {
    if n < 10 then [Digit(n)] else Digits(n / 10) + [Digit(n % 10)]
  }

  function Itoa(n: int): (s: string) {
    if n < 0 then "-" + Digits(-n) else Digits(n)
  }

  /** The value of a run of digits; nothing else is accepted, and not the empty string. */
  function Value(s: string): (r: Option<nat>) {
    if s == [] || !('0' <= s[|s| - 1] <= '9') then None
    else
      var d := s[|s| - 1] as int - '0' as int;
      if |s| == 1 then Some(d)
      else match Value(s[..|s| - 1]) case None => None case Some(n) => Some(10 * n + d)
  }

  function InRange(n: int): (r: Option<Int>) {
    if -0x8000_0000_0000_0000 <= n < 0x8000_0000_0000_0000 then Some(n) else None
  }

  /** An optional sign, then digits, within the range of an int. */
  function Atoi(s: string): (r: Option<Int>) {
    if s != [] && (s[0] == '-' || s[0] == '+') then
      match Value(s[1..]) case None => None case Some(n) => InRange(if s[0] == '-' then 0 - n else n)
    else
      match Value(s) case None => None case Some(n) => InRange(n)
  }

  lemma {:induction false} ValueOfDigits(n: nat)
    ensures Value(Digits(n)) == Some(n)
    ensures forall c :: c in Digits(n) ==> '0' <= c <= '9'
  {
    if n >= 10 {
      ValueOfDigits(n / 10);
      var s := Digits(n);
      assert s[..|s| - 1] == Digits(n / 10);
    }
  }

  /** Every int is read back as it was printed. */
  lemma AtoiItoa(n: Int)
    ensures Atoi(Itoa(n)) == Some(n)
    ensures ':' !in Itoa(n) && '/' !in Itoa(n)
  {
    var m: int := n;
    ValueOfDigits(if m < 0 then -m else m);
    if m < 0 {
      assert ("-" + Digits(-m))[1..] == Digits(-m);
    } else {
      assert Digits(n)[0] in Digits(n);
    }
  }

  /** A positive number is printed without a leading zero. */
  lemma {:induction false} NoLeadingZero(n: nat)
    ensures Digits(n)[0] == '0' <==> n == 0
  {
    if n >= 10 {
      NoLeadingZero(n / 10);
    }
  }

  predicate AllDigits(s: string) {
    forall c :: c in s ==> '0' <= c <= '9'
  }

  function Zeros(k: nat): (s: string) {
    seq(k, _ => '0')
  }

  /** Exactly the non-empty runs of digits have a value. */
  lemma {:induction false} HasValueExactly(s: string)
    ensures Value(s).Some? <==> s != [] && AllDigits(s)
  {
    if s != [] {
      var front, c := s[..|s| - 1], s[|s| - 1];
      assert s == front + [c];
      assert AllDigits(s) <==> AllDigits(front) && '0' <= c <= '9' by {
        assert c in s && forall x :: x in front ==> x in s;
      }
      HasValueExactly(front);
    }
  }

  /** One more digit at the end. */
  lemma DigitsSnoc(n: nat, c: char)
    requires '0' <= c <= '9'
    ensures var d := c as int - '0' as int;
            Digits(d) == [c] && (n > 0 ==> Digits(10 * n + d) == Digits(n) + [c])
  {
    var d := c as int - '0' as int;
    assert Digit(d) == c;
    assert (10 * n + d) / 10 == n && (10 * n + d) % 10 == d;
  }

  lemma ZerosSnoc(k: nat, n: nat, c: char)
    requires '0' <= c <= '9'
    ensures var d := c as int - '0' as int;
            Zeros(k) + Digits(n) + [c] == Zeros(if n == 0 then k + 1 else k) + Digits(10 * n + d)
  {
    DigitsSnoc(n, c);
    if n == 0 {
      DigitsSnoc(0, '0');
      assert Zeros(k) + ['0'] == Zeros(k + 1);
    } else {
      Assoc(Zeros(k), Digits(n), [c]);
    }
  }

  lemma ValueSnoc(front: string, c: char)
    requires front != []
    ensures Value(front + [c]).Some? <==> Value(front).Some? && '0' <= c <= '9'
    ensures Value(front + [c]).Some? ==> Value(front + [c]).value == 10 * Value(front).value + (c as int - '0' as int)
  {
    assert (front + [c])[..|front|] == front;
  }

  /** And it is the number that they print, after leading zeros. */
  lemma {:induction false} ValueExactly(s: string) returns (k: nat)
    requires Value(s).Some?
    ensures s == Zeros(k) + Digits(Value(s).value)
  {
    var front, c := s[..|s| - 1], s[|s| - 1];
    assert s == front + [c];
    if front == [] {
      k := 0;
      DigitsSnoc(0, c);
    } else {
      ValueSnoc(front, c);
      var n := Value(front).value;
      k := ValueExactly(front);
      ZerosSnoc(k, n, c);
      k := if n == 0 then k + 1 else k;
    }
  }

  lemma ZerosCarry(k: nat, front: string, c: char)
    requires front != [] && Value(Zeros(k) + front) == Value(front)
    ensures Value(Zeros(k) + (front + [c])) == Value(front + [c])
  {
    Assoc(Zeros(k), front, [c]);
    ValueSnoc(front, c);
    ValueSnoc(Zeros(k) + front, c);
  }

  lemma ZerosBeforeOne(k: nat, c: char)
    ensures Value(Zeros(k) + [c]) == Value([c])
  {
    if k == 0 {
      assert Zeros(k) + [c] == [c];
    } else {
      ZerosAreNothing(k);
      ValueSnoc(Zeros(k), c);
    }
  }

  lemma {:induction false} ZerosCountNothing(k: nat, s: string)
    requires s != []
    ensures Value(Zeros(k) + s) == Value(s)
  {
    var front, c := s[..|s| - 1], s[|s| - 1];
    assert s == front + [c];
    if front == [] {
      ZerosBeforeOne(k, c);
    } else {
      ZerosCountNothing(k, front);
      ZerosCarry(k, front, c);
    }
  }

  lemma {:induction false} ZerosAreNothing(k: nat)
    requires k > 0
    ensures Value(Zeros(k)) == Some(0)
  {
    if k > 1 {
      ZerosAreNothing(k - 1);
      ValueSnoc(Zeros(k - 1), '0');
      assert Zeros(k) == Zeros(k - 1) + ['0'];
    } else {
      assert Zeros(k) == ['0'];
    }
  }

  /** What Atoi makes of digits with leading zeros and an optional sign. */
  lemma AtoiForms(k: nat, n: nat)
    ensures var s := Zeros(k) + Digits(n);
            Atoi(s) == InRange(n) && Atoi("+" + s) == InRange(n) && Atoi("-" + s) == InRange(0 - n)
  {
    var s := Zeros(k) + Digits(n);
    ValueOfDigits(n);
    ZerosCountNothing(k, Digits(n));
    HasValueExactly(s);
    SignedForms(s, n);
  }

  lemma SignedForms(s: string, n: nat)
    requires Value(s) == Some(n) && s != [] && AllDigits(s)
    ensures Atoi(s) == InRange(n) && Atoi("+" + s) == InRange(n) && Atoi("-" + s) == InRange(0 - n)
  {
    assert s[0] in s;
    assert ("+" + s)[1..] == s && ("-" + s)[1..] == s;
  }

  /** It accepts nothing else. */
  lemma AtoiAccepts(s: string)
    requires Atoi(s).Some?
    ensures s != [] && (AllDigits(s) || ((s[0] == '-' || s[0] == '+') && |s| > 1 && AllDigits(s[1..])))
  {
    HasValueExactly(s);
    if s != [] {
      HasValueExactly(s[1..]);
    }
  }
}
