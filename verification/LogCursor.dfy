// Cursors as clients pass them: written, read back, and refused.
module LogCursor {
  import opened Wrappers
  import opened LogOrder
  import opened Strings

  const Int64: int := 0x8000_0000_0000_0000

  function DigitChar(d: nat): (c: char)
    requires d < 10
    ensures IsDigit(c) && c as int - '0' as int == d
  {
    '0' + d as char
  }

  function ShowNat(n: nat): (s: string)
    ensures s != "" && forall c <- s :: IsDigit(c)
  {
    (if n < 10 then "" else ShowNat(n / 10)) + [DigitChar(n % 10)]
  }

  // strconv.FormatInt.
  function ShowInt(n: int): string {
    if n < 0 then "-" + ShowNat(-n) else ShowNat(n)
  }

  function ReadNat(s: string): (r: Option<int>)
    ensures r.Some? ==> 0 <= r.value
  {
    if s == "" then None
    else if !IsDigit(s[|s| - 1]) then None
    else
      var d := s[|s| - 1] as int - '0' as int;
      if |s| == 1 then Some(d)
      else match ReadNat(s[..|s| - 1]) case None => None case Some(n) => Some(10 * n + d)
  }

  // strconv.ParseInt, base 10, 64 bits.
  function ReadInt(s: string): Option<int> {
    var negative, digits := s != "" && s[0] == '-', if s != "" && (s[0] == '-' || s[0] == '+') then s[1..] else s;
    match ReadNat(digits)
    case None => None
    case Some(n) => if negative then (if n <= Int64 then Some(-n) else None) else if n < Int64 then Some(n) else None
  }

  lemma {:induction false} NatReads(n: nat)
    ensures ReadNat(ShowNat(n)) == Some(n)
  {
    var s := ShowNat(n);
    if n >= 10 {
      NatReads(n / 10);
      assert s[..|s| - 1] == ShowNat(n / 10);
    }
  }

  lemma IntReads(n: int)
    requires -Int64 <= n < Int64
    ensures ReadInt(ShowInt(n)) == Some(n)
    ensures ':' !in ShowInt(n)
  {
    if n < 0 {
      NatReads(-n);
      SignedReads(ShowNat(-n), -n);
    } else {
      NatReads(n);
      UnsignedReads(ShowNat(n), n);
    }
  }

  lemma SignedReads(s: string, n: int)
    requires ReadNat(s) == Some(n) && 0 < n <= Int64 && forall c <- s :: IsDigit(c)
    ensures ReadInt("-" + s) == Some(-n) && ':' !in "-" + s
  {
    var t := "-" + s;
    assert t[0] == '-' && t[1..] == s;
  }

  lemma UnsignedReads(s: string, n: int)
    requires ReadNat(s) == Some(n) && 0 <= n < Int64 && s != "" && forall c <- s :: IsDigit(c)
    ensures ReadInt(s) == Some(n) && ':' !in s
  {
    assert s[0] in s;
  }

  // Where c first is in s, or the length of s.
  function Find(s: string, c: char): (k: nat)
    ensures k <= |s| && c !in s[..k] && (k < |s| ==> s[k] == c)
  {
    if s == "" || s[0] == c then 0
    else
      assert s[..1 + Find(s[1..], c)] == [s[0]] + s[1..][..Find(s[1..], c)];
      1 + Find(s[1..], c)
  }

  lemma FindAfter(a: string, c: char, b: string)
    requires c !in a
    ensures Find(a + [c] + b, c) == |a|
  {
    var s := a + [c] + b;
    assert s[..|a|] == a;
    FindIs(s, c, |a|);
  }

  lemma {:induction false} FindIs(s: string, c: char, k: nat)
    requires k < |s| && s[k] == c && c !in s[..k]
    ensures Find(s, c) == k
  {
    if k > 0 {
      assert s[..k][0] == s[0];
      assert s[..k] == [s[0]] + s[1..][..k - 1];
      FindIs(s[1..], c, k - 1);
    }
  }

  // The parts of a path.
  function Parts(s: string): seq<string>
    decreases |s|
  {
    var k := Find(s, '/');
    if k == |s| then [s] else [s[..k]] + Parts(s[k + 1..])
  }

  // A path that stays under the root: relative, and it never goes up.
  predicate Inside(file: string) {
    file != "" && file[0] != '/' && '\\' !in file && ".." !in Parts(file)
  }

  // Cursor.String.
  function Show(c: Cursor): string {
    ShowInt(c.at) + ":" + ShowInt(c.start) + ":" + c.file
  }

  // ParseCursor.
  function Parse(s: string): Option<Cursor> {
    var i := Find(s, ':');
    if i == |s| then None
    else
      var rest := s[i + 1..];
      var j := Find(rest, ':');
      if j == |rest| then None
      else match (ReadInt(s[..i]), ReadInt(rest[..j]))
        case (Some(at), Some(start)) =>
          if start >= 0 && Inside(rest[j + 1..]) then Some(Cursor(at, rest[j + 1..], start)) else None
        case _ => None
  }

  // A cursor reads back as itself, whatever colons are in its file's name,
  // exactly when that name stays under the root; times and offsets are 64 bits.
  lemma CursorReads(c: Cursor)
    requires -Int64 <= c.at < Int64 && c.start < Int64
    ensures Parse(Show(c)) == if Inside(c.file) then Some(c) else None
  {
    var a, b := ShowInt(c.at), ShowInt(c.start);
    IntReads(c.at);
    IntReads(c.start);
    var rest := b + ":" + c.file;
    assert Show(c) == a + ":" + rest;
    ColonCuts(a, rest, Show(c));
    ColonCuts(b, c.file, rest);
  }

  lemma ColonCuts(a: string, rest: string, s: string)
    requires ':' !in a && s == a + ":" + rest
    ensures Find(s, ':') == |a| < |s| && s[..|a|] == a && s[|a| + 1..] == rest
  {
    FindAfter(a, ':', rest);
  }
}
