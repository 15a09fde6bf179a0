// How two image tags are ordered: digits compared as numbers, and only where the
// difference is a number.
module VersionTags {
  import opened Wrappers
  import opened Strings
  import opened GitTags

  predicate Digits(s: string) {
    forall i :: 0 <= i < |s| ==> IsDigit(s[i])
  }

  // --- the value of a run of digits ---

  function Pow10(n: nat): (p: nat)
    ensures p > 0
  {
    if n == 0 then 1 else 10 * Pow10(n - 1)
  }

  function Digit(c: char): (d: nat)
    requires IsDigit(c)
    ensures d < 10
  {
    c as nat - '0' as nat
  }

  function Value(s: string): nat
    requires Digits(s)
  {
    if s == "" then 0 else Digit(s[0]) * Pow10(|s| - 1) + Value(s[1..])
  }

  lemma TimesMonotone(a: nat, b: nat, p: nat)
    requires a <= b
    ensures a * p <= b * p
  {
  }

  lemma {:induction false} ValueBelow(s: string)
    requires Digits(s)
    ensures Value(s) < Pow10(|s|)
  {
    if s != "" {
      ValueBelow(s[1..]);
      TimesMonotone(Digit(s[0]), 9, Pow10(|s| - 1));
    }
  }

  lemma {:induction false} PowMonotone(m: nat, n: nat)
    requires m <= n
    ensures Pow10(m) <= Pow10(n)
  {
    if m < n {
      PowMonotone(m, n - 1);
    }
  }

  function TrimZeros(s: string): (t: string)
    ensures t == "" || t[0] != '0'
    ensures Digits(s) ==> Digits(t)
  {
    if s != "" && s[0] == '0' then TrimZeros(s[1..]) else s
  }

  lemma {:induction false} TrimKeepsValue(s: string)
    requires Digits(s)
    ensures Value(TrimZeros(s)) == Value(s)
  {
    if s != "" && s[0] == '0' {
      TrimKeepsValue(s[1..]);
    }
  }

  // Without leading zeros, a longer run is a larger number.
  lemma LongerLarger(a: string, b: string)
    requires Digits(a) && Digits(b) && |a| < |b| && b[0] != '0'
    ensures Value(a) < Value(b)
  {
    ValueBelow(a);
    PowMonotone(|a|, |b| - 1);
    TimesMonotone(1, Digit(b[0]), Pow10(|b| - 1));
  }

  // Of runs of one length, the order of bytes is that of numbers.
  lemma {:induction false} SameLengthLarger(a: string, b: string)
    requires Digits(a) && Digits(b) && |a| == |b| && StringLess(a, b)
    ensures Value(a) < Value(b)
  {
    if a[0] == b[0] {
      SameLengthLarger(a[1..], b[1..]);
    } else {
      ValueBelow(a[1..]);
      TimesMonotone(Digit(a[0]) + 1, Digit(b[0]), Pow10(|a| - 1));
      assert (Digit(a[0]) + 1) * Pow10(|a| - 1) == Digit(a[0]) * Pow10(|a| - 1) + Pow10(|a| - 1);
    }
  }

  function Sign(n: int): int {
    if n < 0 then -1 else if n > 0 then 1 else 0
  }

  function CompareStrings(a: string, b: string): int {
    if a == b then 0 else if StringLess(a, b) then -1 else 1
  }

  // compareNumbers: the order of the values, however long the runs.
  function CompareNumbers(a: string, b: string): (order: int)
    requires Digits(a) && Digits(b)
    ensures order == Sign(Value(a) - Value(b))
  {
    var x, y := TrimZeros(a), TrimZeros(b);
    TrimKeepsValue(a);
    TrimKeepsValue(b);
    if |x| != |y| then
      (if |x| < |y| then LongerLarger(x, y); -1 else LongerLarger(y, x); 1)
    else
      StringTotal(x, y);
      if StringLess(x, y) then
        SameLengthLarger(x, y);
        CompareStrings(x, y)
      else if x == y then
        CompareStrings(x, y)
      else
        SameLengthLarger(y, x);
        CompareStrings(x, y)
  }

  // Two runs of one value differ in leading zeros only.
  lemma EqualUpToZeros(a: string, b: string)
    requires Digits(a) && Digits(b)
    ensures Value(a) == Value(b) <==> TrimZeros(a) == TrimZeros(b)
  {
    TrimKeepsValue(a);
    TrimKeepsValue(b);
    assert CompareNumbers(a, b) == Sign(Value(a) - Value(b));
  }

  // --- a string as runs of digits and other characters ---

  datatype Token = Number(n: nat) | Other(c: char)

  function RunLength(s: string): (n: nat)
    ensures n <= |s| && Digits(s[..n])
    ensures n < |s| ==> !IsDigit(s[n])
    ensures s != "" && IsDigit(s[0]) ==> n > 0
  {
    if s == "" || !IsDigit(s[0]) then 0
    else
      assert s[..1 + RunLength(s[1..])] == [s[0]] + s[1..][..RunLength(s[1..])];
      1 + RunLength(s[1..])
  }

  function Tokens(s: string): seq<Token>
    decreases |s|
  {
    if s == "" then []
    else if IsDigit(s[0]) then [Token.Number(Value(s[..RunLength(s)]))] + Tokens(s[RunLength(s)..])
    else [Other(s[0])] + Tokens(s[1..])
  }

  // The order of tokens: the first difference decides, when both are numbers;
  // a string orders before what it begins.
  function CompareTokens(x: seq<Token>, y: seq<Token>): Option<int> {
    if x == [] || y == [] then Some(Sign(|x| - |y|))
    else if x[0] == y[0] then CompareTokens(x[1..], y[1..])
    else if x[0].Number? && y[0].Number? then Some(Sign(x[0].n - y[0].n))
    else None
  }

  // digitRun.
  method DigitRun(s: string) returns (i: nat)
    ensures i == RunLength(s)
  {
    i := 0;
    while i < |s| && IsDigit(s[i])
      invariant i <= |s| && RunLength(s) == i + RunLength(s[i..])
    {
      assert s[i..][1..] == s[i + 1..];
      i := i + 1;
    }
  }

  // naturalCompare.
  method NaturalCompare(a: string, b: string) returns (r: Option<int>)
    ensures r == CompareTokens(Tokens(a), Tokens(b))
  {
    var x, y := a, b;
    while x != "" && y != ""
      invariant CompareTokens(Tokens(a), Tokens(b)) == CompareTokens(Tokens(x), Tokens(y))
      decreases |x|
    {
      if IsDigit(x[0]) && IsDigit(y[0]) {
        var i := DigitRun(x);
        var j := DigitRun(y);
        var order := CompareNumbers(x[..i], y[..j]);
        if order != 0 {
          return Some(order);
        }
        x, y := x[i..], y[j..];
      } else if x[0] != y[0] {
        return None;
      } else {
        x, y := x[1..], y[1..];
      }
    }
    r := Some(Sign(|x| - |y|));
  }

  function Opposite(r: Option<int>): Option<int> {
    match r case None => None case Some(n) => Some(-n)
  }

  lemma {:induction false} TokensAntisymmetric(x: seq<Token>, y: seq<Token>)
    ensures CompareTokens(y, x) == Opposite(CompareTokens(x, y))
  {
    if x != [] && y != [] {
      TokensAntisymmetric(x[1..], y[1..]);
    }
  }

  lemma {:induction false} TokensEqual(x: seq<Token>, y: seq<Token>)
    ensures CompareTokens(x, y) == Some(0) <==> x == y
  {
    if x != [] && y != [] {
      TokensEqual(x[1..], y[1..]);
      if x[0] == y[0] && x[1..] == y[1..] {
        assert x == [x[0]] + x[1..] && y == [y[0]] + y[1..];
      }
    }
  }

  predicate AtMost(r: Option<int>) {
    r.Some? && r.value <= 0
  }

  lemma {:induction false} TokensTransitive(x: seq<Token>, y: seq<Token>, z: seq<Token>)
    requires AtMost(CompareTokens(x, y)) && AtMost(CompareTokens(y, z))
    ensures AtMost(CompareTokens(x, z))
    ensures CompareTokens(x, z) == Some(0) ==> CompareTokens(x, y) == Some(0) && CompareTokens(y, z) == Some(0)
  {
    if x != [] && y != [] && z != [] && x[0] == y[0] == z[0] {
      TokensTransitive(x[1..], y[1..], z[1..]);
    }
  }

  // What is ordered is ordered as a partial order, and equal only up to the
  // leading zeros of its numbers.
  lemma NaturalOrder(a: string, b: string, c: string)
    ensures CompareTokens(Tokens(b), Tokens(a)) == Opposite(CompareTokens(Tokens(a), Tokens(b)))
    ensures CompareTokens(Tokens(a), Tokens(b)) == Some(0) <==> Tokens(a) == Tokens(b)
    ensures AtMost(CompareTokens(Tokens(a), Tokens(b))) && AtMost(CompareTokens(Tokens(b), Tokens(c))) ==>
              AtMost(CompareTokens(Tokens(a), Tokens(c)))
  {
    TokensAntisymmetric(Tokens(a), Tokens(b));
    TokensEqual(Tokens(a), Tokens(b));
    if AtMost(CompareTokens(Tokens(a), Tokens(b))) && AtMost(CompareTokens(Tokens(b), Tokens(c))) {
      TokensTransitive(Tokens(a), Tokens(b), Tokens(c));
    }
  }
}
