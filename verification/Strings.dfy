// The byte order of strings, and lists kept in it.
module Strings {

  predicate IsDigit(c: char) {
    '0' <= c <= '9'
  }

  predicate StringLess(a: string, b: string) {
    if b == [] then false
    else if a == [] then true
    else a[0] < b[0] || (a[0] == b[0] && StringLess(a[1..], b[1..]))
  }

  lemma {:induction false} StringTotal(a: string, b: string)
    ensures a == b || StringLess(a, b) || StringLess(b, a)
    ensures !(StringLess(a, b) && StringLess(b, a))
    ensures a == b ==> !StringLess(a, b)
  {
    if a != [] && b != [] {
      StringTotal(a[1..], b[1..]);
      if a[0] == b[0] && a[1..] == b[1..] {
        assert a == [a[0]] + a[1..] && b == [b[0]] + b[1..];
      }
    }
  }

  lemma {:induction false} StringTransitive(a: string, b: string, c: string)
    requires StringLess(a, b) && StringLess(b, c)
    ensures StringLess(a, c)
  {
    if a != [] && a[0] == b[0] && b[0] == c[0] {
      StringTransitive(a[1..], b[1..], c[1..]);
    }
  }

  predicate Sorted(s: seq<string>) {
    forall i, j :: 0 <= i < j < |s| ==> !StringLess(s[j], s[i])
  }

  // In order and each once.
  predicate Ascending(s: seq<string>) {
    forall i, j :: 0 <= i < j < |s| ==> StringLess(s[i], s[j])
  }

  // A string at its place in a sorted list.
  method InsertSorted(s: seq<string>, x: string) returns (r: seq<string>)
    requires Sorted(s)
    ensures Sorted(r) && forall y :: y in r <==> y in s || y == x
    ensures Ascending(s) && x !in s ==> Ascending(r)
  {
    var i := 0;
    while i < |s| && !StringLess(x, s[i])
      invariant i <= |s| && forall j :: 0 <= j < i ==> !StringLess(x, s[j])
    {
      i := i + 1;
    }
    forall j | i <= j < |s|
      ensures StringLess(x, s[j])
    {
      StringTotal(s[i], s[j]);
      if i < j && s[i] != s[j] {
        StringTransitive(x, s[i], s[j]);
      }
    }
    r := InsertAt(s, x, i);
  }

  // What precedes a place is not above the new string, what follows is.
  method InsertAt(s: seq<string>, x: string, i: nat) returns (r: seq<string>)
    requires Sorted(s) && i <= |s|
    requires forall j :: 0 <= j < i ==> !StringLess(x, s[j])
    requires forall j :: i <= j < |s| ==> StringLess(x, s[j])
    ensures Sorted(r) && forall y :: y in r <==> y in s || y == x
    ensures Ascending(s) && x !in s ==> Ascending(r)
  {
    r := s[..i] + [x] + s[i..];
    forall j | i <= j < |s|
      ensures !StringLess(s[j], x)
    {
      StringTotal(x, s[j]);
    }
    forall j | 0 <= j < i && x !in s
      ensures StringLess(s[j], x)
    {
      StringTotal(s[j], x);
      assert s[j] in s;
    }
    assert forall y :: y in r <==> y in s || y == x;
  }
}
