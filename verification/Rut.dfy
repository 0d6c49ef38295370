/** The tax number's check character, modulo 11 with weights 2 to 7 from the right. */
module Rut {
  import opened Wrappers

  predicate Digit(c: char) { '0' <= c <= '9' }

  function Value(c: char): (v: int)
    requires Digit(c)
    ensures 0 <= v <= 9
  {
    c as int - '0' as int
  }

  predicate AllDigits(body: string) { forall i :: 0 <= i < |body| ==> Digit(body[i]) }

  /** Weight of the digit with `k` digits to its right. */
  function Weight(k: nat): (w: nat)
    ensures 2 <= w <= 7
  {
    2 + k % 6
  }

  function Weighed(c: char, weight: nat): int
    requires Digit(c)
  {
    Value(c) * weight
  }

  function Term(c: char, k: nat): int
    requires Digit(c)
  {
    Weighed(c, Weight(k))
  }

  function Sum(body: string): int
    requires AllDigits(body)
  {
    if body == [] then 0 else Term(body[0], |body| - 1) + Sum(body[1..])
  }

  function CheckOf(sum: int): char {
    var dvr := 11 - sum % 11;
    if dvr == 10 then 'K' else if dvr == 11 then '0' else ('0' as int + dvr) as char
  }

  function CheckChar(body: string): char
    requires AllDigits(body)
  {
    CheckOf(Sum(body))
  }

  function Kept(c: char): string {
    if Digit(c) || c == 'K' then [c] else if c == 'k' then ['K'] else []
  }

  /** Digits and K stay, in upper case; everything else goes. */
  function Clean(rut: string): string {
    if rut == [] then [] else Clean(rut[..|rut| - 1]) + Kept(rut[|rut| - 1])
  }

  /** Eight or nine characters: a body of digits and its check character. */
  predicate Valid(rut: string) {
    var clean := Clean(rut);
    8 <= |clean| <= 9 && AllDigits(clean[..|clean| - 1]) && clean[|clean| - 1] == CheckChar(clean[..|clean| - 1])
  }

  /** The sum of the characters from position `i` on, absent if one of them is not a digit. */
  function SumFrom(body: string, i: nat): Option<int>
    requires i <= |body|
  {
    if AllDigits(body[i..]) then Some(Sum(body[i..])) else None
  }

  lemma SumEnds(body: string)
    ensures SumFrom(body, |body|) == Some(0)
    ensures SumFrom(body, 0) == if AllDigits(body) then Some(Sum(body)) else None
  {
    assert body[0..] == body;
  }

  lemma SumStep(body: string, i: nat)
    requires i < |body|
    ensures SumFrom(body, i) == if SumFrom(body, i + 1).Some? && Digit(body[i])
                                then Some(SumFrom(body, i + 1).value + Term(body[i], |body| - 1 - i)) else None
  {
    assert body[i..] == [body[i]] + body[i + 1..];
    assert body[i..][1..] == body[i + 1..];
  }

  lemma Weights(k: nat)
    ensures Weight(0) == 2
    ensures Weight(k + 1) == if Weight(k) == 7 then 2 else Weight(k) + 1
  {}

  /** The loop over the body, from the right; the sum is absent once a character is not a digit. */
  method WeightedSum(body: string) returns (sum: Option<int>)
    ensures sum == if AllDigits(body) then Some(Sum(body)) else None
  {
    hide Weight, Sum, SumFrom, Weighed, AllDigits;
    SumEnds(body);
    Weights(0);
    sum := Some(0);
    var multiplier := 2;
    var i := |body| - 1;
    while i >= 0
      invariant -1 <= i < |body|
      invariant multiplier == Weight(|body| - 1 - i)
      invariant sum == SumFrom(body, i + 1)
    {
      SumStep(body, i);
      Weights(|body| - 1 - i);
      if sum.Some? && Digit(body[i]) {
        sum := Some(sum.value + Weighed(body[i], multiplier));
      } else {
        sum := None;
      }
      multiplier := if multiplier == 7 then 2 else multiplier + 1;
      i := i - 1;
    }
  }

  method ValidateRut(rut: string) returns (ok: bool)
    ensures ok <==> Valid(rut)
  {
    hide Clean, Sum;
    var clean := Clean(rut);
    if |clean| < 8 || |clean| > 9 {
      return false;
    }
    var body, dv := clean[..|clean| - 1], clean[|clean| - 1];
    var sum := WeightedSum(body);
    if sum.None? {
      return false;
    }
    var dvr := 11 - sum.value % 11;
    var expected := '0';
    if dvr == 10 {
      expected := 'K';
    } else if dvr == 11 {
      expected := '0';
    } else {
      expected := ('0' as int + dvr) as char;
    }
    ok := expected == dv;
  }

  // ------------------------------------------------------------ what it catches

  /** Different remainders give different characters, all of them digits or K. */
  lemma CheckTellsRemainders(a: int, b: int)
    ensures CheckOf(a) == CheckOf(b) <==> (a - b) % 11 == 0
    ensures Digit(CheckOf(a)) || CheckOf(a) == 'K'
  {
    assert (a - b) % 11 == 0 <==> a % 11 == b % 11;
  }

  /** Changing one digit moves the sum by the change times its weight. */
  lemma {:induction false} SumUpdate(body: string, i: nat, c: char)
    requires AllDigits(body) && i < |body| && Digit(c)
    ensures AllDigits(body[i := c])
    ensures Sum(body[i := c]) == Sum(body) + Term(c, |body| - 1 - i) - Term(body[i], |body| - 1 - i)
  {
    hide Term;
    if i == 0 {
      assert body[0 := c][1..] == body[1..];
    } else {
      SumUpdate(body[1..], i - 1, c);
      assert body[i := c][1..] == body[1..][i - 1 := c];
    }
  }

  lemma Difference(a: char, b: char, k: nat)
    requires Digit(a) && Digit(b)
    ensures Term(a, k) - Term(b, k) == (Value(a) - Value(b)) * Weight(k)
  {}

  lemma Exchange(a: char, b: char, k: nat, l: nat)
    requires Digit(a) && Digit(b)
    ensures Term(b, k) - Term(a, k) + Term(a, l) - Term(b, l) == (Value(b) - Value(a)) * (Weight(k) - Weight(l))
  {
    var d, w, v := Value(b) - Value(a), Weight(k), Weight(l);
    Difference(b, a, k);
    Difference(b, a, l);
    assert d * w - d * v == d * (w - v);
  }

  /** Eleven divides no product of a digit difference and a weight, or a weight difference. */
  lemma NoZeroProduct(d: int, w: int)
    requires -9 <= d <= 9 && -7 <= w <= 7
    ensures (d * w) % 11 == 0 <==> d == 0 || w == 0
  {
    if d != 0 && w != 0 {
      assert -63 <= d * w <= 63;
      match w
      case 1 => case 2 => case 3 => case 4 => case 5 => case 6 => case 7 =>
      case -1 => case -2 => case -3 => case -4 => case -5 => case -6 => case -7 =>
      case _ =>
    }
  }

  /** Changing any single digit of a body, whatever its length, changes its check character. */
  lemma SingleChangeDetected(body: string, i: nat, c: char)
    requires AllDigits(body) && i < |body| && Digit(c) && c != body[i]
    ensures AllDigits(body[i := c]) && CheckChar(body[i := c]) != CheckChar(body)
  {
    hide Term, Sum, CheckOf, Weight;
    SumUpdate(body, i, c);
    Difference(c, body[i], |body| - 1 - i);
    NoZeroProduct(Value(c) - Value(body[i]), Weight(|body| - 1 - i));
    CheckTellsRemainders(Sum(body[i := c]), Sum(body));
  }

  lemma WeightsDiffer(n: nat, i: nat, j: nat)
    requires i < j < n
    ensures Weight(n - 1 - i) != Weight(n - 1 - j) <==> (j - i) % 6 != 0
  {
    var k, l := n - 1 - i, n - 1 - j;
    assert (k - l) % 6 == 0 <==> k % 6 == l % 6;
  }

  lemma ExchangeSum(body: string, i: nat, j: nat)
    requires AllDigits(body) && i < j < |body|
    ensures var swapped := body[i := body[j]][j := body[i]];
            && AllDigits(swapped)
            && Sum(swapped) - Sum(body)
               == (Value(body[j]) - Value(body[i])) * (Weight(|body| - 1 - i) - Weight(|body| - 1 - j))
  {
    hide Term, Sum, Value, Weight;
    var once := body[i := body[j]];
    SumUpdate(body, i, body[j]);
    SumUpdate(once, j, body[i]);
    Exchange(body[i], body[j], |body| - 1 - i, |body| - 1 - j);
  }

  /** Exchanging two distinct digits is detected exactly when their distance is
      not a multiple of six; in particular for neighbours, always. */
  lemma ExchangeDetected(body: string, i: nat, j: nat)
    requires AllDigits(body) && i < j < |body| && body[i] != body[j]
    ensures var swapped := body[i := body[j]][j := body[i]];
            AllDigits(swapped) && (CheckChar(swapped) != CheckChar(body) <==> (j - i) % 6 != 0)
  {
    hide Term, Sum, CheckOf, Weight;
    ExchangeSum(body, i, j);
    WeightsDiffer(|body|, i, j);
    assert Value(body[j]) != Value(body[i]);
    hide Value;
    NoZeroProduct(Value(body[j]) - Value(body[i]), Weight(|body| - 1 - i) - Weight(|body| - 1 - j));
    CheckTellsRemainders(Sum(body[i := body[j]][j := body[i]]), Sum(body));
  }

  lemma {:induction false} CleanDigits(body: string)
    requires AllDigits(body)
    ensures Clean(body) == body
  {
    if body != [] { CleanDigits(body[..|body| - 1]); }
  }

  /** Seven or eight digits and one more character are accepted if and only if that
      character, in upper case, is the check character; a character that cleaning
      drops leaves the digits to stand for themselves. */
  lemma CheckCharacterDecides(body: string, c: char)
    requires AllDigits(body) && 7 <= |body| <= 8
    ensures Kept(c) != [] ==> (Valid(body + [c]) <==> Kept(c) == [CheckChar(body)])
    ensures Kept(c) == [] ==> (Valid(body + [c]) <==> Valid(body))
  {
    hide CheckChar, Clean, Kept;
    CleanEnd(body, c);
    CleanDigits(body);
    if Kept(c) == [] {
      assert body + Kept(c) == body;
    } else {
      assert (body + Kept(c))[..|body|] == body;
      assert Kept(c) == [Kept(c)[0]];
    }
  }

  lemma CleanEnd(body: string, c: char)
    ensures Clean(body + [c]) == Clean(body) + Kept(c) && |Kept(c)| <= 1
  {
    assert (body + [c])[..|body|] == body;
  }

  /** An accepted number stays accepted under punctuation and case, and never with another check character. */
  lemma OneCheckCharacter(rut: string, other: string)
    requires Valid(rut)
    requires |Clean(other)| == |Clean(rut)| && Clean(other)[..|Clean(rut)| - 1] == Clean(rut)[..|Clean(rut)| - 1]
    ensures Valid(other) <==> Clean(other) == Clean(rut)
  {
    hide CheckChar, Clean;
    var n := |Clean(rut)| - 1;
    assert Clean(other) == Clean(other)[..n] + [Clean(other)[n]];
    assert Clean(rut) == Clean(rut)[..n] + [Clean(rut)[n]];
  }
}
