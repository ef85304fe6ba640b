// The card-number check of the redactor (shared/redaction.py): `_luhn_ok` and the digits that the
// card replacer gives it. The algorithm is that of Annex B of ISO/IEC 7812-1.
module Luhn {
  import opened Common

  type Digit = n: nat | n < 10

  // A digit of the check at a place counted from the right: every second one is doubled and the
  // digits of the product are added.
  function Term(n: Digit, place: nat): Digit {
    if place % 2 == 0 then n else 2 * n / 10 + 2 * n % 10
  }

  function Sum(d: seq<Digit>): nat {
    if d == [] then 0 else Term(d[0], |d| - 1) + Sum(d[1..])
  }

  predicate Valid(d: seq<Digit>) { Sum(d) % 10 == 0 }

  // The values of a text, if every character is a digit.
  function Values(value: char -> Option<Digit>, s: string): Option<seq<Digit>> {
    if s == "" then Some([])
    else match (value(s[0]), Values(value, s[1..]))
      case (Some(n), Some(rest)) => Some([n] + rest)
      case _ => None
  }

  lemma {:induction false} NonDigitSpoils(value: char -> Option<Digit>, s: string, i: nat)
    requires i < |s| && value(s[i]) == None
    ensures Values(value, s) == None
  {
    if i > 0 {
      NonDigitSpoils(value, s[1..], i - 1);
    }
  }

  // `value` is the decimal value of a character, if it is a digit.
  method LuhnOk(value: char -> Option<Digit>, digits: string) returns (ok: bool)
    ensures ok <==> Values(value, digits).Some? && Valid(Values(value, digits).value)
  {
    var s := 0;
    var n := |digits|;
    for i := 0 to n
      invariant Values(value, digits[n - i..]).Some?
      invariant s == Sum(Values(value, digits[n - i..]).value) && |Values(value, digits[n - i..]).value| == i
    {
      var ch := digits[n - 1 - i];
      assert digits[n - 1 - i..][1..] == digits[n - i..];
      if value(ch) == None {
        NonDigitSpoils(value, digits, n - 1 - i);
        return false;
      }
      var x: nat := value(ch).value;
      ghost var rest := Values(value, digits[n - i..]).value;
      assert Values(value, digits[n - 1 - i..]) == Some([value(ch).value] + rest);
      assert ([value(ch).value] + rest)[1..] == rest;
      if i % 2 == 1 {
        x := x * 2;
        if x > 9 {
          x := x - 9;
        }
      }
      s := s + x;
    }
    assert digits[n - n..] == digits;
    ok := s % 10 == 0;
  }

  // ----- What the check detects -----

  lemma {:induction false} SumUpdate(d: seq<Digit>, i: nat, x: Digit)
    requires i < |d|
    ensures Sum(d[i := x]) + Term(d[i], |d| - 1 - i) == Sum(d) + Term(x, |d| - 1 - i)
  {
    if i == 0 {
      assert d[0 := x][1..] == d[1..];
    } else {
      SumUpdate(d[1..], i - 1, x);
      assert d[i := x][1..] == d[1..][i - 1 := x];
    }
  }

  // What a digit adds: itself in the last place and every second one before it, and in the others its
  // double, less 9 if that has two digits.
  lemma DigitAdds(d: seq<Digit>, i: nat, x: Digit)
    requires i < |d|
    ensures Sum(d[i := x]) == Sum(d[i := 0]) + if (|d| - 1 - i) % 2 == 0 then x else if x < 5 then 2 * x else 2 * x - 9
  {
    SumUpdate(d[i := 0], i, x);
    assert d[i := 0][i := x] == d[i := x];
    DoubledTerm(x);
    hide Sum;
  }

  lemma {:induction false} ZeroesAddNothing(d: seq<Digit>)
    requires forall i :: 0 <= i < |d| ==> d[i] == 0
    ensures Sum(d) == 0 && Valid(d)
  {
    if d != [] {
      ZeroesAddNothing(d[1..]);
    }
  }

  // At each place the terms of the ten digits are the ten digits.
  lemma TermInjective(x: Digit, y: Digit, place: nat)
    requires Term(x, place) == Term(y, place)
    ensures x == y
  {}

  function Undo(t: Digit, place: nat): (n: Digit)
    ensures Term(n, place) == t
  {
    if place % 2 == 0 then t else if t % 2 == 0 then t / 2 else (t + 9) / 2
  }

  // Sums that differ by the difference of two digits leave the same remainder only for equal digits.
  lemma SameRemainder(a: nat, b: nat, x: Digit, y: Digit)
    requires a + x == b + y
    ensures a % 10 == b % 10 <==> x == y
  {
    assert -10 < a - b < 10;
    assert a == a / 10 * 10 + a % 10 && b == b / 10 * 10 + b % 10;
  }

  predicate Accepts(d: seq<Digit>, i: nat, x: Digit)
    requires i < |d|
  {
    Valid(d[i := x])
  }

  // Any single wrong digit is detected.
  lemma SingleErrorIsDetected(d: seq<Digit>, i: nat, x: Digit)
    requires Valid(d) && i < |d| && x != d[i]
    ensures !Accepts(d, i, x)
  {
    var place := |d| - 1 - i;
    SumUpdate(d, i, x);
    if Term(x, place) == Term(d[i], place) {
      TermInjective(x, d[i], place);
    }
    hide Term, Sum;
    SameRemainder(Sum(d[i := x]), Sum(d), Term(d[i], place), Term(x, place));
  }

  // At each position exactly one digit makes the number valid.
  lemma OneDigitFits(d: seq<Digit>, i: nat) returns (x: Digit)
    requires i < |d|
    ensures Accepts(d, i, x)
    ensures forall y: Digit :: Accepts(d, i, y) ==> y == x
  {
    x := FittingDigit(d, i);
    assert Accepts(d, i, x);
    forall y: Digit | Accepts(d, i, y) ensures y == x {
      assert d[i := x][i := y] == d[i := y];
      if y != x {
        SingleErrorIsDetected(d[i := x], i, y);
      }
    }
  }

  lemma FittingDigit(d: seq<Digit>, i: nat) returns (x: Digit)
    requires i < |d|
    ensures Accepts(d, i, x)
  {
    var place := |d| - 1 - i;
    var blank := d[i := 0];
    var need: Digit := (10 - Sum(blank) % 10) % 10;
    x := Undo(need, place);
    SumUpdate(blank, i, x);
    assert blank[i := x] == d[i := x] && Term(0, place) == 0;
    hide Term, Sum;
    Completes(Sum(blank), need);
  }

  lemma Completes(a: nat, need: Digit)
    requires need == (10 - a % 10) % 10
    ensures (a + need) % 10 == 0
  {
    assert a == a / 10 * 10 + a % 10;
  }

  // Swapping neighbours is detected, except a 0 with a 9.
  lemma SwapIsDetected(d: seq<Digit>, i: nat)
    requires Valid(d) && i + 1 < |d| && d[i] != d[i + 1]
    ensures Accepts(d[i := d[i + 1]], i + 1, d[i]) <==> {d[i], d[i + 1]} == {0, 9}
  {
    var a, b, place := d[i], d[i + 1], |d| - 1 - i;
    var once := d[i := b];
    SumUpdate(d, i, b);
    SumUpdate(once, i + 1, a);
    SwapTerms(a, b, place);
    hide Term, Sum;
    var was, now := Term(a, place) + Term(b, place - 1), Term(b, place) + Term(a, place - 1);
    assert Sum(once[i + 1 := a]) + was == Sum(d) + now;
    SameRemainders(Sum(once[i + 1 := a]), Sum(d), was, now);
  }

  lemma SameRemainders(a: nat, b: nat, x: nat, y: nat)
    requires a + x == b + y && x <= 18 && y <= 18
    ensures a % 10 == b % 10 <==> x == y || x == y + 10 || y == x + 10
  {
    assert -20 < a - b < 20;
    assert a == a / 10 * 10 + a % 10 && b == b / 10 * 10 + b % 10;
  }

  lemma SwapTerms(a: Digit, b: Digit, place: nat)
    requires place > 0 && a != b
    ensures
      var x, y := Term(a, place) + Term(b, place - 1), Term(b, place) + Term(a, place - 1);
      (x == y || x == y + 10 || y == x + 10) <==> {a, b} == {0, 9}
  {
    assert {a, b} == {0, 9} <==> (a == 0 && b == 9) || (a == 9 && b == 0);
    DoubledTerm(a);
    DoubledTerm(b);
  }

  // Doubling and subtracting 9 from what exceeds 9 adds the digits of the product.
  lemma DoubledTerm(n: Digit)
    ensures 2 * n / 10 + 2 * n % 10 == if 2 * n > 9 then 2 * n - 9 else 2 * n
  {}

  // ----- The card replacer -----

  // re.sub(r"\D", "", m)
  function KeepDigits(value: char -> Option<Digit>, m: string): string {
    if m == "" then "" else (if value(m[0]).Some? then m[..1] else "") + KeepDigits(value, m[1..])
  }

  predicate IsCard(value: char -> Option<Digit>, m: string) {
    var digits := KeepDigits(value, m);
    13 <= |digits| <= 19 && Values(value, digits).Some? && Valid(Values(value, digits).value)
  }

  // What becomes of a matched text: the mark, or the text as it was.
  method ReplaceCard(value: char -> Option<Digit>, m: string, mark: string, count: nat) returns (r: string, n: nat)
    ensures if IsCard(value, m) then r == mark && n == count + 1 else r == m && n == count
  {
    var digits := KeepDigits(value, m);
    var ok := LuhnOk(value, digits);
    if 13 <= |digits| <= 19 && ok {
      return mark, count + 1;
    }
    return m, count;
  }

  // The values of the digits of a text, wherever its separators are.
  function DigitsOf(value: char -> Option<Digit>, m: string): seq<Digit> {
    if m == "" then [] else (if value(m[0]).Some? then [value(m[0]).value] else []) + DigitsOf(value, m[1..])
  }

  lemma {:induction false} KeptDigits(value: char -> Option<Digit>, m: string)
    ensures Values(value, KeepDigits(value, m)) == Some(DigitsOf(value, m))
    ensures |KeepDigits(value, m)| == |DigitsOf(value, m)|
  {
    if m != "" {
      KeptDigits(value, m[1..]);
      var kept := KeepDigits(value, m);
      if value(m[0]).Some? {
        assert kept == [m[0]] + KeepDigits(value, m[1..]) && kept[1..] == KeepDigits(value, m[1..]);
        assert Values(value, kept) == Some([value(m[0]).value] + DigitsOf(value, m[1..]));
      } else {
        assert kept == KeepDigits(value, m[1..]) && DigitsOf(value, m) == DigitsOf(value, m[1..]);
      }
    }
  }

  lemma {:induction false} DigitsOneByOne(value: char -> Option<Digit>, m: string, c: char)
    ensures DigitsOf(value, "") == []
    ensures DigitsOf(value, m + [c])
         == DigitsOf(value, m) + match value(c) case Some(n) => [n] case None => []
  {
    if m == "" {
      assert [c][1..] == "" && m + [c] == [c];
    } else {
      DigitsOneByOne(value, m[1..], c);
      assert (m + [c])[1..] == m[1..] + [c] && (m + [c])[0] == m[0];
    }
  }

  // A match is a card number when its digits, whatever stands between them, are 13 to 19 and pass.
  lemma CardMeans(value: char -> Option<Digit>, m: string)
    ensures IsCard(value, m) <==> 13 <= |DigitsOf(value, m)| <= 19 && Valid(DigitsOf(value, m))
  {
    KeptDigits(value, m);
  }

  lemma {:induction false} DigitReplaced(value: char -> Option<Digit>, m: string, i: nat, c: char) returns (j: nat)
    requires i < |m| && value(m[i]).Some? && value(c).Some?
    ensures j < |DigitsOf(value, m)| && DigitsOf(value, m)[j] == value(m[i]).value
    ensures DigitsOf(value, m[i := c]) == DigitsOf(value, m)[j := value(c).value]
  {
    if i == 0 {
      assert m[0 := c][1..] == m[1..];
      j := 0;
    } else {
      var k := DigitReplaced(value, m[1..], i - 1, c);
      assert m[i := c][1..] == m[1..][i - 1 := c] && m[i := c][0] == m[0];
      j := if value(m[0]).Some? then k + 1 else k;
    }
  }

  // A card number with one digit mistyped, however it is spaced, is not taken for a card.
  lemma MistypedCardIsKept(value: char -> Option<Digit>, m: string, i: nat, c: char)
    requires IsCard(value, m) && i < |m| && value(m[i]).Some? && value(c).Some? && value(c) != value(m[i])
    ensures !IsCard(value, m[i := c])
  {
    KeptDigits(value, m);
    KeptDigits(value, m[i := c]);
    var j := DigitReplaced(value, m, i, c);
    SingleErrorIsDetected(DigitsOf(value, m), j, value(c).value);
  }
}
