// The update of an app from its catalogue: whether it is offered, what it
// writes, and what the list of updates shows.
module UpdateOffer {
  import opened Wrappers
  import opened Strings
  import opened GitTags
  import opened VersionTags

  // --- references to images ---

  // One past the last c in s, or 0.
  function PastLast(s: string, c: char): (k: nat)
    ensures k <= |s|
    ensures 0 < k ==> s[k - 1] == c
    ensures forall i :: k <= i < |s| ==> s[i] != c
  {
    if s == "" || s[|s| - 1] == c then |s| else PastLast(s[..|s| - 1], c)
  }

  // A reference and its tag: none when it is pinned by digest, `latest` when it
  // names none.
  datatype Reference = Reference(image: string, tag: string)

  // ExtractImageAndTag.
  function Extract(s: string): Reference {
    if '@' in s then Reference(s, "")
    else
      var colon := PastLast(s, ':');
      if colon == 0 || colon < PastLast(s, '/') then Reference(s, "latest")
      else Reference(s[..colon - 1], s[colon..])
  }

  lemma PastLastIs(s: string, c: char, k: nat)
    requires k <= |s| && (0 < k ==> s[k - 1] == c) && forall i :: k <= i < |s| ==> s[i] != c
    ensures PastLast(s, c) == k
  {
  }

  // A tag comes after the last slash, so a registry's port is none: joined to
  // any image, it is split off again.
  lemma JoinExtracts(image: string, tag: string)
    requires '@' !in image && '@' !in tag && ':' !in tag && '/' !in tag
    ensures Extract(image + ":" + tag) == Reference(image, tag)
  {
    var s, colon := image + ":" + tag, |image| + 1;
    assert forall i :: colon <= i < |s| ==> s[i] == tag[i - colon];
    PastLastIs(s, ':', colon);
    assert PastLast(s, '/') <= colon;
    assert s[..colon - 1] == image && s[colon..] == tag;
  }

  // The tags republished under the same name as new images are built.
  const Streams: seq<string> := [
    "latest", "stable", "edge", "beta", "alpha",
    "main", "master", "develop", "dev",
    "nightly", "canary", "rolling", "unstable", "testing", "preview", "insiders"]

  const Blacklist: seq<string> := ["johnguan/stable-diffusion-webui:latest"]

  // referenceFloats: whether a pull can move it.
  predicate Floats(image: string) {
    Extract(image).tag in Streams
  }

  // updateWritesStoreImage.
  predicate Writes(localImage: string, storeImage: string) {
    !Floats(localImage) && !Floats(storeImage)
  }

  // --- the order of tags ---

  // A tag as a version, with its pre-release as written.
  datatype Parsed = Parsed(version: Version, pre: string)

  type Reader = string -> Option<Parsed>

  function Precedence(a: Version, b: Version): int {
    if Lower(a, b) then -1 else if Lower(b, a) then 1 else 0
  }

  // versionLike: what follows a leading v, when it opens with a digit.
  function VersionLike(tag: string): Option<string> {
    var t := if tag != "" && tag[0] == 'v' then tag[1..] else tag;
    if t != "" && IsDigit(t[0]) then Some(t) else None
  }

  function TagOrder(read: Reader, a: string, b: string): Option<int> {
    if a == b then Some(0)
    else match (read(a), read(b))
      case (Some(x), Some(y)) =>
        if x.pre != "" && y.pre != "" && x.version.major == y.version.major
           && x.version.minor == y.version.minor && x.version.patch == y.version.patch
           && CompareTokens(Tokens(x.pre), Tokens(y.pre)).Some?
        then CompareTokens(Tokens(x.pre), Tokens(y.pre))
        else Some(Precedence(x.version, y.version))
      case _ =>
        match (VersionLike(a), VersionLike(b))
        case (Some(x), Some(y)) => CompareTokens(Tokens(x), Tokens(y))
        case _ => None
  }

  // compareTags.
  method CompareTags(read: Reader, a: string, b: string) returns (r: Option<int>)
    ensures r == TagOrder(read, a, b)
  {
    if a == b {
      return Some(0);
    }
    var x, y := read(a), read(b);
    if x.Some? && y.Some? {
      var v, w := x.value.version, y.value.version;
      if x.value.pre != "" && y.value.pre != "" && v.major == w.major && v.minor == w.minor && v.patch == w.patch {
        r := NaturalCompare(x.value.pre, y.value.pre);
        if r.Some? {
          return;
        }
      }
      return Some(Precedence(v, w));
    }
    var s, t := VersionLike(a), VersionLike(b);
    if s.Some? && t.Some? {
      r := NaturalCompare(s.value, t.value);
    } else {
      r := None;
    }
  }

  // Which of two tags is asked about first does not matter.
  lemma TagOrderAntisymmetric(read: Reader, a: string, b: string)
    ensures TagOrder(read, b, a) == Opposite(TagOrder(read, a, b))
  {
    match (read(a), read(b))
    case (Some(x), Some(y)) =>
      TokensAntisymmetric(Tokens(x.pre), Tokens(y.pre));
      LowerTotal(x.version, y.version);
    case _ =>
      match (VersionLike(a), VersionLike(b))
      case (Some(s), Some(t)) => TokensAntisymmetric(Tokens(s), Tokens(t));
      case _ =>
  }

  // --- what the order means ---

  // The reader tells apart what the order of versions does.
  ghost predicate Sound(read: Reader) {
    && (forall a :: read(a).Some? ==> (read(a).value.pre == "" <==> read(a).value.version.pre == []))
    && forall a, b :: read(a).Some? && read(b).Some? ==>
         (read(a).value.pre == read(b).value.pre <==> read(a).value.version.pre == read(b).value.version.pre)
  }

  predicate SameCore(v: Version, w: Version) {
    v.major == w.major && v.minor == w.minor && v.patch == w.patch
  }

  // Of two upstream versions the later is later, whatever builds they are.
  lemma CoreDecides(read: Reader, a: string, b: string)
    requires read(a).Some? && read(b).Some? && !SameCore(read(a).value.version, read(b).value.version)
    ensures var v, w := read(a).value.version, read(b).value.version;
            TagOrder(read, a, b) == Some(if Lower(v.(pre := []), w.(pre := [])) then -1 else 1)
  {
    LowerTotal(read(a).value.version, read(b).value.version);
  }

  // Of two builds of one version, the first number they differ in decides, as a
  // number: ls99 comes before ls124.
  lemma BuildDecides(read: Reader, a: string, b: string, p: string, m: string, n: string, x: string, y: string)
    requires read(a).Some? && read(b).Some? && SameCore(read(a).value.version, read(b).value.version)
    requires read(a).value.pre == p + m + x && read(b).value.pre == p + n + y
    requires Run(p, m, x) && Run(p, n, y) && Value(m) != Value(n)
    ensures TagOrder(read, a, b) == Some(Sign(Value(m) - Value(n)))
  {
    RunsDecide(p, m, n, x, y);
    assert a != b;
  }

  // A tag of four numbers, read as no version: the same of the whole tag.
  lemma NumberDecides(read: Reader, a: string, b: string, p: string, m: string, n: string, x: string, y: string)
    requires read(a).None? && VersionLike(a) == Some(p + m + x) && VersionLike(b) == Some(p + n + y)
    requires Run(p, m, x) && Run(p, n, y) && Value(m) != Value(n)
    ensures TagOrder(read, a, b) == Some(Sign(Value(m) - Value(n)))
    ensures TagOrder(read, b, a) == Some(Sign(Value(n) - Value(m)))
  {
    RunsDecide(p, m, n, x, y);
    RunsDecide(p, n, m, y, x);
    assert a != b;
  }

  // A whole run of digits between two texts.
  predicate Run(p: string, m: string, x: string) {
    m != "" && Digits(m) && (p == "" || !IsDigit(p[|p| - 1])) && (x == "" || !IsDigit(x[0]))
  }

  lemma RunLengthIs(m: string, x: string)
    requires Digits(m) && (x == "" || !IsDigit(x[0]))
    ensures RunLength(m + x) == |m|
  {
    if m != "" {
      assert (m + x)[1..] == m[1..] + x;
      RunLengthIs(m[1..], x);
    } else {
      assert m + x == x;
    }
  }

  lemma NumberFirst(m: string, x: string)
    requires m != "" && Digits(m) && (x == "" || !IsDigit(x[0]))
    ensures Tokens(m + x) == [Token.Number(Value(m))] + Tokens(x)
  {
    RunLengthIs(m, x);
    assert (m + x)[..|m|] == m && (m + x)[|m|..] == x;
    assert IsDigit((m + x)[0]);
  }

  lemma OtherFirst(c: char, x: string)
    requires !IsDigit(c)
    ensures Tokens([c] + x) == [Other(c)] + Tokens(x)
  {
    assert ([c] + x)[1..] == x;
  }

  // Where no run of digits is cut, the tokens of a text are those of its parts.
  lemma {:induction false} TokensAppend(p: string, s: string)
    requires p == "" || s == "" || !IsDigit(p[|p| - 1]) || !IsDigit(s[0])
    ensures Tokens(p + s) == Tokens(p) + Tokens(s)
    decreases |p|
  {
    if p == "" {
      assert p + s == s;
    } else {
      var k := if IsDigit(p[0]) then RunLength(p) else 1;
      var m, r := p[..k], p[k..];
      assert p == m + r && p + s == m + (r + s);
      TokensAppend(r, s);
      if IsDigit(p[0]) {
        AppendRun(m, r, r + s);
        Regroup([Token.Number(Value(m))], Tokens(r), Tokens(s));
      } else {
        OtherFirst(p[0], r);
        OtherFirst(p[0], r + s);
        Regroup([Other(p[0])], Tokens(r), Tokens(s));
      }
    }
  }

  lemma Regroup(x: seq<Token>, y: seq<Token>, z: seq<Token>)
    ensures x + (y + z) == x + y + z
  {
  }

  lemma AppendRun(m: string, r: string, rs: string)
    requires m != "" && Digits(m) && (r == "" || !IsDigit(r[0])) && (rs == "" || !IsDigit(rs[0]))
    ensures Tokens(m + r) == [Token.Number(Value(m))] + Tokens(r)
    ensures Tokens(m + rs) == [Token.Number(Value(m))] + Tokens(rs)
  {
    NumberFirst(m, r);
    NumberFirst(m, rs);
  }

  // A text comes before what it begins.
  lemma BeginsBehind(s: string, x: string)
    requires x != "" && (s == "" || !IsDigit(s[|s| - 1]) || !IsDigit(x[0]))
    ensures CompareTokens(Tokens(s), Tokens(s + x)) == Some(-1)
  {
    TokensAppend(s, x);
    CommonFirst(Tokens(s), [], Tokens(x));
    assert Tokens(s) + [] == Tokens(s);
    assert Tokens(x) != [];
  }

  lemma {:induction false} CommonFirst(x: seq<Token>, y: seq<Token>, z: seq<Token>)
    ensures CompareTokens(x + y, x + z) == CompareTokens(y, z)
  {
    if x == [] {
      assert x + y == y && x + z == z;
    } else {
      assert (x + y)[1..] == x[1..] + y && (x + z)[1..] == x[1..] + z;
      CommonFirst(x[1..], y, z);
    }
  }

  lemma RunsDecide(p: string, m: string, n: string, x: string, y: string)
    requires Run(p, m, x) && Run(p, n, y) && Value(m) != Value(n)
    ensures CompareTokens(Tokens(p + m + x), Tokens(p + n + y)) == Some(Sign(Value(m) - Value(n)))
    ensures p + m + x != p + n + y
  {
    RunTokens(p, m, x);
    RunTokens(p, n, y);
    FirstDecides(Tokens(p), Tokens(x), Tokens(y), Value(m), Value(n));
    TokensEqual(Tokens(p + m + x), Tokens(p + n + y));
  }

  lemma RunTokens(p: string, m: string, x: string)
    requires Run(p, m, x)
    ensures Tokens(p + m + x) == Tokens(p) + ([Token.Number(Value(m))] + Tokens(x))
  {
    assert p + m + x == p + (m + x);
    NumberFirst(m, x);
    TokensAppend(p, m + x);
  }

  lemma FirstDecides(p: seq<Token>, x: seq<Token>, y: seq<Token>, m: nat, n: nat)
    requires m != n
    ensures CompareTokens(p + ([Token.Number(m)] + x), p + ([Token.Number(n)] + y)) == Some(Sign(m - n))
  {
    CommonFirst(p, [Token.Number(m)] + x, [Token.Number(n)] + y);
  }

  // --- where it is an order ---

  // The order by digits of two tags' pre-releases.
  function Builds(read: Reader, a: string, b: string): Option<int>
    requires read(a).Some? && read(b).Some?
  {
    CompareTokens(Tokens(read(a).value.pre), Tokens(read(b).value.pre))
  }

  predicate Behind(read: Reader, a: string, b: string)
    requires read(a).Some? && read(b).Some?
  {
    Lower(read(a).value.version, read(b).value.version)
  }

  // a and b are ordered by their digits and neither is so with c, which the order
  // of characters puts between them the other way round.
  predicate Between(read: Reader, a: string, b: string, c: string)
    requires read(a).Some? && read(b).Some? && read(c).Some?
  {
    && AtMost(Builds(read, a, b)) && Builds(read, a, c).None? && Builds(read, b, c).None?
    && Behind(read, b, c) && Behind(read, c, a)
  }

  predicate Builds3(read: Reader, a: string, b: string, c: string)
    requires read(a).Some? && read(b).Some? && read(c).Some?
  {
    var v, w, u := read(a).value, read(b).value, read(c).value;
    v.pre != "" && w.pre != "" && u.pre != "" && SameCore(v.version, w.version) && SameCore(w.version, u.version)
  }

  // Each at most the next, all the way round, and not all level.
  predicate Circle(read: Reader, a: string, b: string, c: string) {
    && AtMost(TagOrder(read, a, b)) && AtMost(TagOrder(read, b, c)) && AtMost(TagOrder(read, c, a))
    && !(TagOrder(read, a, b) == TagOrder(read, b, c) == TagOrder(read, c, a) == Some(0))
  }

  // Of versions the order of tags is transitive but in one case: builds of one
  // version, two of them ordered by digits around a third that is not.
  lemma TagOrderTransitive(read: Reader, a: string, b: string, c: string)
    requires Sound(read) && read(a).Some? && read(b).Some? && read(c).Some?
    ensures AtMost(TagOrder(read, a, b)) && AtMost(TagOrder(read, b, c)) && !AtMost(TagOrder(read, a, c)) ==>
              Circle(read, a, b, c)
    ensures Circle(read, a, b, c) <==>
              Builds3(read, a, b, c) && (Between(read, a, b, c) || Between(read, b, c, a) || Between(read, c, a, b))
  {
    TagOrderAntisymmetric(read, a, c);
    if Builds3(read, a, b, c) {
      BuildsInCircle(read, a, b, c);
    } else if Circle(read, a, b, c) {
      CircleOfBuilds(read, a, b, c);
    }
  }

  lemma AtMostMeans(read: Reader, a: string, b: string)
    requires Sound(read) && read(a).Some? && read(b).Some? && AtMost(TagOrder(read, a, b))
    ensures var v, w := read(a).value.version, read(b).value.version;
            v.major < w.major
                || (v.major == w.major && (v.minor < w.minor || (v.minor == w.minor && v.patch <= w.patch)))
    ensures SameCore(read(a).value.version, read(b).value.version) && read(a).value.pre == "" ==>
              read(b).value.pre == "" && TagOrder(read, a, b) == Some(0)
  {
    LowerTotal(read(a).value.version, read(b).value.version);
  }

  lemma CircleOfBuilds(read: Reader, a: string, b: string, c: string)
    requires Sound(read) && read(a).Some? && read(b).Some? && read(c).Some? && Circle(read, a, b, c)
    ensures Builds3(read, a, b, c)
  {
    AtMostMeans(read, a, b);
    AtMostMeans(read, b, c);
    AtMostMeans(read, c, a);
  }

  // Two builds that the digits do not order are two versions.
  lemma UnorderedMeans(read: Reader, a: string, b: string)
    requires Sound(read) && read(a).Some? && read(b).Some?
    requires SameCore(read(a).value.version, read(b).value.version)
    requires read(a).value.pre != "" && read(b).value.pre != ""
    ensures Builds(read, b, a) == Opposite(Builds(read, a, b))
    ensures Builds(read, a, b).Some? ==> TagOrder(read, a, b) == Builds(read, a, b)
    ensures Builds(read, a, b).None? ==> (AtMost(TagOrder(read, a, b)) <==> Behind(read, a, b))
    ensures Builds(read, a, b).None? ==> TagOrder(read, a, b) != Some(0)
  {
    TokensAntisymmetric(Tokens(read(a).value.pre), Tokens(read(b).value.pre));
    TokensEqual(Tokens(read(a).value.pre), Tokens(read(b).value.pre));
    LowerTotal(read(a).value.version, read(b).value.version);
  }

  lemma BuildsInCircle(read: Reader, a: string, b: string, c: string)
    requires Sound(read) && read(a).Some? && read(b).Some? && read(c).Some? && Builds3(read, a, b, c)
    ensures Circle(read, a, b, c) <==> Between(read, a, b, c) || Between(read, b, c, a) || Between(read, c, a, b)
  {
    UnorderedMeans(read, a, b);
    UnorderedMeans(read, b, c);
    UnorderedMeans(read, c, a);
    if Circle(read, a, b, c) {
      if Builds(read, a, b).Some? && Builds(read, b, c).Some? {
        OrderedRound(read, a, b, c);
      } else if Builds(read, b, c).Some? && Builds(read, c, a).Some? {
        OrderedRound(read, b, c, a);
      } else if Builds(read, c, a).Some? && Builds(read, a, b).Some? {
        OrderedRound(read, c, a, b);
      } else if Behind(read, a, b) && Behind(read, b, c) {
        LowerTransitive(read(a).value.version, read(b).value.version, read(c).value.version);
        LowerTotal(read(a).value.version, read(c).value.version);
      }
    }
  }

  // Digits that order two steps order the third.
  lemma OrderedRound(read: Reader, a: string, b: string, c: string)
    requires read(a).Some? && read(b).Some? && read(c).Some?
    requires AtMost(Builds(read, a, b)) && AtMost(Builds(read, b, c))
    ensures AtMost(Builds(read, a, c))
    ensures AtMost(Builds(read, c, a)) ==> Builds(read, a, b) == Builds(read, b, c) == Builds(read, c, a) == Some(0)
  {
    var x, y, z := Tokens(read(a).value.pre), Tokens(read(b).value.pre), Tokens(read(c).value.pre);
    TokensTransitive(x, y, z);
    TokensAntisymmetric(x, z);
  }

  // Digits order two of them one way and characters the other, around a third:
  // each of these tags is behind the next.
  lemma TagOrderNotTransitive(read: Reader, v: Version)
    requires read("1.0.0-9x") == Some(Parsed(v.(pre := [Word("9x")]), "9x"))
    requires read("1.0.0-10") == Some(Parsed(v.(pre := [Ident.Number(10)]), "10"))
    requires read("1.0.0--") == Some(Parsed(v.(pre := [Word("-")]), "-"))
    ensures TagOrder(read, "1.0.0-9x", "1.0.0-10") == Some(-1)
    ensures TagOrder(read, "1.0.0-10", "1.0.0--") == Some(-1)
    ensures TagOrder(read, "1.0.0--", "1.0.0-9x") == Some(-1)
  {
    TokensOfCycle();
    assert Lower(v.(pre := [Ident.Number(10)]), v.(pre := [Word("-")]));
    assert Lower(v.(pre := [Word("-")]), v.(pre := [Word("9x")]));
  }

  lemma TokensOfCycle()
    ensures Tokens("9x") == [Token.Number(9), Other('x')]
    ensures Tokens("10") == [Token.Number(10)]
    ensures Tokens("-") == [Other('-')]
  {
    assert Tokens("9x") == [Token.Number(9), Other('x')] by {
      assert "9x"[1..] == "x" && "x"[1..] == "" && "9x"[..1] == "9" && "9"[1..] == "";
    }
    assert Tokens("10") == [Token.Number(10)] by {
      assert "10"[1..] == "0" && "0"[1..] == "" && "10"[..2] == "10" && "10"[2..] == "" && Pow10(1) == 10;
    }
    assert Tokens("-") == [Other('-')] by { assert "-"[1..] == ""; }
  }

  // The same with a level pair, by a leading zero.
  lemma TagOrderNotTransitiveLevel(read: Reader, v: Version)
    requires read("1.0.0-09b") == Some(Parsed(v.(pre := [Word("09b")]), "09b"))
    requires read("1.0.0-9a") == Some(Parsed(v.(pre := [Word("9a")]), "9a"))
    requires read("1.0.0-9b") == Some(Parsed(v.(pre := [Word("9b")]), "9b"))
    ensures TagOrder(read, "1.0.0-09b", "1.0.0-9a") == Some(-1)
    ensures TagOrder(read, "1.0.0-9a", "1.0.0-9b") == Some(-1)
    ensures TagOrder(read, "1.0.0-09b", "1.0.0-9b") == Some(0)
  {
    TokensOfThree();
    var na, nb := [Token.Number(9), Other('a')], [Token.Number(9), Other('b')];
    assert na[1..] == [Other('a')] && nb[1..] == [Other('b')];
    TokensEqual(nb, nb);
    assert StringLess("09b", "9a");
    assert StringLess("9a", "9b") by { assert "9a"[1..] == "a" && "9b"[1..] == "b"; }
    assert Lower(v.(pre := [Word("09b")]), v.(pre := [Word("9a")]));
    assert Lower(v.(pre := [Word("9a")]), v.(pre := [Word("9b")]));
  }

  // The order of two tags by their digits, whatever they read as.
  function Whole(a: string, b: string): Option<int> {
    if a == b then Some(0)
    else match (VersionLike(a), VersionLike(b))
      case (Some(x), Some(y)) => CompareTokens(Tokens(x), Tokens(y))
      case _ => None
  }

  // With tags among them that read as no version the order is transitive all the
  // same, but where two read as versions that their whole tags order another way.
  lemma WholeTransitive(read: Reader, a: string, b: string, c: string)
    requires read(a).Some? && read(b).Some? ==> TagOrder(read, a, b) == Whole(a, b)
    requires read(b).Some? && read(c).Some? ==> TagOrder(read, b, c) == Whole(b, c)
    requires read(a).Some? && read(c).Some? ==> TagOrder(read, a, c) == Whole(a, c)
    requires AtMost(TagOrder(read, a, b)) && AtMost(TagOrder(read, b, c))
    ensures AtMost(TagOrder(read, a, c))
  {
    if a != b && b != c {
      TokensTransitive(Tokens(VersionLike(a).value), Tokens(VersionLike(b).value), Tokens(VersionLike(c).value));
    }
  }

  // Two that read as versions and one that does not go round exactly when that one
  // stands between them in the order of whole tags, and that order is not the one of
  // the versions.
  lemma CircleThroughNumber(read: Reader, a: string, b: string, c: string)
    requires read(a).Some? && read(b).Some? && read(c).None?
    ensures Circle(read, a, b, c) <==>
              && AtMost(Whole(b, c)) && AtMost(Whole(c, a))
              && AtMost(TagOrder(read, a, b)) && TagOrder(read, a, b) != Whole(a, b)
  {
    if AtMost(Whole(b, c)) && AtMost(Whole(c, a)) {
      var x, y, z := Tokens(VersionLike(a).value), Tokens(VersionLike(b).value), Tokens(VersionLike(c).value);
      TokensTransitive(y, z, x);
      TokensAntisymmetric(x, y);
      TokensEqual(x, y);
      TokensEqual(y, z);
      TokensEqual(z, x);
    }
  }

  // One that does not read as a version can stand between two that do: a tag
  // comes before what it begins, and a release after its pre-releases.
  lemma NumberBetweenVersions(read: Reader, a: string, b: string, c: string, x: string, y: string)
    requires b == a + x && c == b + y && x != "" && y != "" && a != "" && IsDigit(a[0])
    requires !IsDigit(x[0]) && !IsDigit(y[0])
    requires Sound(read) && read(a).Some? && read(b).None? && read(c).Some?
    requires SameCore(read(a).value.version, read(c).value.version)
    requires read(a).value.pre == "" && read(c).value.pre != ""
    ensures TagOrder(read, a, b) == TagOrder(read, b, c) == TagOrder(read, c, a) == Some(-1)
  {
    BeginsBehind(a, x);
    BeginsBehind(b, y);
    assert VersionLike(a) == Some(a) && VersionLike(b) == Some(b) && VersionLike(c) == Some(c);
    assert |a| < |b| < |c|;
  }

  lemma TokensOfThree()
    ensures Tokens("9a") == [Token.Number(9), Other('a')]
    ensures Tokens("9b") == Tokens("09b") == [Token.Number(9), Other('b')]
  {
    assert Tokens("09b") == [Token.Number(9), Other('b')] by {
      assert "09b"[1..] == "9b" && "9b"[1..] == "b" && "b"[1..] == "";
      assert "09b"[..2] == "09" && "09"[1..] == "9" && "9"[1..] == "" && "09b"[2..] == "b";
    }
    assert Tokens("9a") == [Token.Number(9), Other('a')] by {
      assert "9a"[1..] == "a" && "a"[1..] == "" && "9a"[..1] == "9" && "9"[1..] == "";
    }
    assert Tokens("9b") == [Token.Number(9), Other('b')] by {
      assert "9b"[1..] == "b" && "b"[1..] == "" && "9b"[..1] == "9" && "9"[1..] == "";
    }
  }

  // --- services ---

  // Services and their images.
  type Services = map<string, string>

  // The services' names, sorted.
  method SortedNames(services: Services) returns (names: seq<string>)
    ensures Ascending(names) && forall n :: n in names <==> n in services
  {
    names := [];
    var left := services.Keys;
    while left != {}
      invariant left <= services.Keys && Sorted(names) && Ascending(names)
      invariant forall n :: n in names <==> n in services && n !in left
      decreases left
    {
      var name :| name in left;
      names := InsertSorted(names, name);
      left := left - {name};
    }
  }

  // The services an update would write another image for.
  function Changes(local: Services, store: Services): set<string> {
    set n | n in local && n in store && store[n] != local[n] && Writes(local[n], store[n])
  }

  // What an update writes: the catalogue's image where it moves a reference that
  // a pull cannot.
  function Updated(local: Services, store: Services): Services {
    map n | n in local :: if n in Changes(local, store) then store[n] else local[n]
  }

  // servicesUpdateCannotCreate.
  function Missing(local: Services, store: Services): set<string> {
    store.Keys - local.Keys
  }

  // The tag of the store would not be a step back, as far as anything can tell.
  predicate Forward(read: Reader, localImage: string, storeImage: string) {
    var l, s := Extract(localImage).tag, Extract(storeImage).tag;
    || l == "" || s == "" || l == s
    || (TagOrder(read, s, l).Some? && TagOrder(read, s, l).value >= 0)
  }

  // backwardsReason, without its words.
  method Backwards(read: Reader, localImage: string, storeImage: string) returns (back: bool)
    ensures back == !Forward(read, localImage, storeImage)
  {
    var l, s := Extract(localImage).tag, Extract(storeImage).tag;
    if l == "" || s == "" || l == s {
      return false;
    }
    var order := CompareTags(read, s, l);
    back := order.None? || order.value < 0;
  }

  // A move and the way back are both forward only between tags nothing can order:
  // absent, the same, or level.
  lemma ForwardOneWay(read: Reader, localImage: string, storeImage: string)
    ensures Forward(read, localImage, storeImage) && Forward(read, storeImage, localImage) <==>
              var l, s := Extract(localImage).tag, Extract(storeImage).tag;
              l == "" || s == "" || l == s || TagOrder(read, s, l) == Some(0)
  {
    TagOrderAntisymmetric(read, Extract(localImage).tag, Extract(storeImage).tag);
  }

  // What makes an update be refused over one service.
  predicate Refuses(read: Reader, local: Services, store: Services, n: string)
    requires n in local
  {
    local[n] in Blacklist || (n in Changes(local, store) && !Forward(read, local[n], store[n]))
  }

  datatype Answer = Offered | Repull(available: bool) | CannotCreate(names: set<string>) | Refused(service: string)

  // What one service has to say: whether it stands in the way of the update, and
  // whether the update would move it.
  method Judge(read: Reader, local: Services, store: Services, n: string) returns (refused: bool, moved: bool)
    requires n in local
    ensures refused <==> n in Refusing(read, local, store)
    ensures !refused ==> (moved <==> n in Changes(local, store))
  {
    refused, moved := local[n] in Blacklist, false;
    if !refused && n in store && store[n] != local[n] && Writes(local[n], store[n]) {
      moved := true;
      refused := Backwards(read, local[n], store[n]);
    }
  }

  // What an answer says; newer: the registries say an image it runs has moved.
  ghost predicate Answers(read: Reader, local: Services, store: Services, newer: bool, a: Answer) {
    && (a.CannotCreate? <==> Missing(local, store) != {})
    && (a.CannotCreate? ==> a.names == Missing(local, store))
    && (a.Refused? ==> a.service in local && Refuses(read, local, store, a.service))
    && (a.Refused? ==> forall n <- local :: StringLess(n, a.service) ==> !Refuses(read, local, store, n))
    && (a.Offered? || a.Repull? ==> forall n <- local :: !Refuses(read, local, store, n))
    && (a.Offered? ==> Changes(local, store) != {})
    && (a.Repull? ==> Changes(local, store) == {} && a.available == newer)
  }

  // The services that make it refused.
  function Refusing(read: Reader, local: Services, store: Services): set<string> {
    set n | n in local && Refuses(read, local, store, n)
  }

  ghost predicate NoneOf(names: seq<string>, i: nat, some: set<string>) {
    i <= |names| && forall j :: 0 <= j < i ==> names[j] !in some
  }

  // IsUpdateAvailableWith.
  method IsUpdateAvailable(read: Reader, local: Services, store: Services, newer: bool) returns (a: Answer)
    ensures Answers(read, local, store, newer, a)
  {
    if Missing(local, store) != {} {
      return CannotCreate(Missing(local, store));
    }
    var names := SortedNames(local);
    var first, changed := JudgeAll(read, local, store, names);
    if first < |names| {
      FirstRefused(names, first, Refusing(read, local, store));
      return Refused(names[first]);
    }
    assert Changes(local, store) <= local.Keys;
    NoneRefused(names, local.Keys, Refusing(read, local, store));
    NoneRefused(names, local.Keys, Changes(local, store));
    a := if changed then Offered else Repull(newer);
  }

  // The services one by one, up to the first that stands in the way.
  method JudgeAll(read: Reader, local: Services, store: Services, names: seq<string>) returns (i: nat, changed: bool)
    requires forall n <- names :: n in local
    ensures NoneOf(names, i, Refusing(read, local, store))
    ensures i < |names| ==> names[i] in Refusing(read, local, store)
    ensures i == |names| ==> (changed <==> !NoneOf(names, i, Changes(local, store)))
  {
    i, changed := 0, false;
    ghost var refusing, changes := Refusing(read, local, store), Changes(local, store);
    while i < |names|
      invariant NoneOf(names, i, refusing) && (changed <==> !NoneOf(names, i, changes))
    {
      var refused, moved := Judge(read, local, store, names[i]);
      if refused {
        return;
      }
      changed := changed || moved;
      i := i + 1;
    }
  }

  lemma FirstRefused(names: seq<string>, i: nat, refusing: set<string>)
    requires Ascending(names) && i < |names| && NoneOf(names, i, refusing)
    ensures forall n <- names :: StringLess(n, names[i]) ==> n !in refusing
  {
    forall n <- names | StringLess(n, names[i])
      ensures n !in refusing
    {
      var j :| 0 <= j < |names| && names[j] == n;
      StringTotal(names[i], names[j]);
    }
  }

  lemma NoneRefused(names: seq<string>, services: set<string>, some: set<string>)
    requires (forall n :: n in names <==> n in services) && some <= services
    ensures NoneOf(names, |names|, some) <==> some == {}
  {
    if some != {} {
      var n :| n in some;
      assert n in names;
    }
  }

  function Result(local: Services, store: Services): Option<Services> {
    if Missing(local, store) == {} then Some(Updated(local, store)) else None
  }

  // updatedComposeYAML, on the images: nothing when it refuses.
  method UpdatedCompose(local: Services, store: Services) returns (r: Option<Services>)
    ensures r == Result(local, store)
  {
    if Missing(local, store) != {} {
      return None;
    }
    var now := local;
    var left := store.Keys;
    while left != {}
      invariant left <= store.Keys && Written(local, store, left, now)
      decreases left
    {
      var n :| n in left;
      assert n !in Missing(local, store);
      if Writes(local[n], store[n]) {
        now := now[n := store[n]];
      }
      left := left - {n};
    }
    AllWritten(local, store, now);
    r := Some(now);
  }

  lemma AllWritten(local: Services, store: Services, now: Services)
    requires Written(local, store, {}, now)
    ensures now == Updated(local, store)
  {
  }

  // The update written but for some services.
  ghost predicate Written(local: Services, store: Services, left: set<string>, now: Services) {
    && now.Keys == local.Keys
    && forall n <- local :: now[n] == if n in Changes(local, store) && n !in left then store[n] else local[n]
  }

  datatype Move = Move(service: string, was: string, now: string)

  // What an update does to each service it changes.
  function Plan(local: Services, store: Option<Services>): map<string, Move> {
    if store.None? then map[]
    else map n | n in Changes(local, store.value) :: Move(n, local[n], store.value[n])
  }

  // The moves of some services, in their order.
  function Listing(names: seq<string>, plan: map<string, Move>): seq<Move> {
    if names == [] then []
    else
      var k := |names| - 1;
      Listing(names[..k], plan) + if names[k] in plan then [plan[names[k]]] else []
  }

  predicate InOrder(moves: seq<Move>) {
    forall i, j :: 0 <= i < j < |moves| ==> StringLess(moves[i].service, moves[j].service)
  }

  lemma {:induction false} ListingIs(names: seq<string>, plan: map<string, Move>)
    requires Ascending(names) && forall n <- plan :: plan[n].service == n
    ensures forall m: Move :: m in Listing(names, plan) <==>
        m.service in names && m.service in plan && plan[m.service] == m
    ensures InOrder(Listing(names, plan))
  {
    if names != [] {
      var k := |names| - 1;
      var first, last := names[..k], names[k];
      ListingIs(first, plan);
      assert names == first + [last];
      ListedLast(first, last, plan, Listing(first, plan));
    }
  }

  lemma ListedLast(first: seq<string>, last: string, plan: map<string, Move>, moves: seq<Move>)
    requires forall n <- first :: StringLess(n, last)
    requires last in plan ==> plan[last].service == last
    requires InOrder(moves) && forall m <- moves :: m.service in first
    ensures InOrder(moves + if last in plan then [plan[last]] else [])
  {
    forall i | 0 <= i < |moves|
      ensures StringLess(moves[i].service, last)
    {
      assert moves[i] in moves;
    }
  }

  // The first i services as they are.
  predicate AsTheyAre(names: seq<string>, i: nat, local: Services, all: seq<Move>)
    requires i <= |names| && forall n <- names :: n in local
  {
    |all| == i && forall j :: 0 <= j < i ==> all[j] == Move(names[j], local[names[j]], local[names[j]])
  }

  // What an app's update is shown as.
  ghost predicate Shown(local: Services, store: Option<Services>, catalogue: bool, moves: seq<Move>) {
    && (catalogue <==> store.Some? && Changes(local, store.value) != {})
    && InOrder(moves)
    && (catalogue ==> forall m: Move :: m in moves <==>
          m.service in Changes(local, store.value) && m.was == local[m.service] && m.now == store.value[m.service])
    && (!catalogue ==> forall m: Move :: m in moves <==> m.service in local && m.was == m.now == local[m.service])
  }

  // PlanUpdateAll, for one app: the services the catalogue moves, or all of them
  // as they are when it moves none.
  method PlanServices(local: Services, store: Option<Services>) returns (catalogue: bool, moves: seq<Move>)
    ensures Shown(local, store, catalogue, moves)
  {
    var names := SortedNames(local);
    var changed, all := Gather(names, local, store);
    catalogue := changed != [];
    moves := if catalogue then changed else all;
    ghost var plan := Plan(local, store);
    ListingIs(names, plan);
    ListingSome(plan, changed);
    AllAsTheyAre(names, local, all);
    assert plan.Keys == if store.None? then {} else Changes(local, store.value);
  }

  lemma ListingSome(plan: map<string, Move>, moves: seq<Move>)
    requires forall m: Move :: m in moves <==> m.service in plan && plan[m.service] == m
    requires forall n <- plan :: plan[n].service == n
    ensures moves == [] <==> plan.Keys == {}
  {
    if moves != [] {
      assert moves[0] in moves;
    }
    if plan.Keys != {} {
      var n :| n in plan.Keys;
      assert plan[n] in moves;
    }
  }

  method Gather(names: seq<string>, local: Services, store: Option<Services>)
      returns (changed: seq<Move>, all: seq<Move>)
    requires Ascending(names) && forall n <- names :: n in local
    ensures AsTheyAre(names, |names|, local, all) && changed == Listing(names, Plan(local, store))
  {
    changed, all := [], [];
    ghost var plan := Plan(local, store);
    for i := 0 to |names|
      invariant AsTheyAre(names, i, local, all) && changed == Listing(names[..i], plan)
    {
      var n := names[i];
      assert names[..i + 1][..i] == names[..i];
      all := all + [Move(n, local[n], local[n])];
      var moved := false;
      if store.Some? && n in store.value {
        moved := Moved(local, store.value, n);
      }
      if moved {
        changed := changed + [Move(n, local[n], store.value[n])];
      }
    }
    assert names[..|names|] == names;
  }

  method Moved(local: Services, store: Services, n: string) returns (moved: bool)
    requires n in local && n in store
    ensures moved <==> n in Changes(local, store)
  {
    moved := store[n] != local[n] && Writes(local[n], store[n]);
  }

  lemma AllAsTheyAre(names: seq<string>, local: Services, all: seq<Move>)
    requires (forall n :: n in names <==> n in local) && AsTheyAre(names, |names|, local, all)
    ensures Ascending(names) ==> InOrder(all)
    ensures forall m: Move :: m in all <==> m.service in local && m.was == m.now == local[m.service]
  {
    forall m: Move | m.service in local && m.was == m.now == local[m.service]
      ensures m in all
    {
      var j :| 0 <= j < |names| && names[j] == m.service;
      assert all[j] == m;
    }
  }

  // From the answer to the list and the write: an offer can be carried out, goes
  // nowhere back, and writes exactly what is listed; what is not offered for its
  // images is written as it is.
  lemma OfferIsWritten(read: Reader, local: Services, store: Services, newer: bool, a: Answer, catalogue: bool,
                       moves: seq<Move>)
    requires Answers(read, local, store, newer, a) && Shown(local, Some(store), catalogue, moves)
    ensures a.CannotCreate? <==> Result(local, store).None?
    ensures a.Offered? ==> catalogue && moves != [] && Result(local, store).value != local
    ensures a.Offered? ==> forall n <- local ::
                Result(local, store).value[n] != local[n] <==> exists m :: m in moves && m.service == n
    ensures a.Offered? ==> forall m <- moves ::
                && m.service in local && m.was == local[m.service] && m.now == Result(local, store).value[m.service]
                && Forward(read, m.was, m.now) && !Floats(m.was) && !Floats(m.now)
    ensures a.Offered? ==> Changes(Result(local, store).value, store) == {}
    ensures a.Repull? ==> !catalogue && Result(local, store) == Some(local)
  {
    if a.Offered? {
      var now := Updated(local, store);
      UpdateSettles(local, store);
      forall n <- local
        ensures now[n] != local[n] <==> exists m :: m in moves && m.service == n
      {
        if n in Changes(local, store) {
          assert Move(n, local[n], store[n]) in moves;
        }
      }
      var n :| n in Changes(local, store);
      assert Move(n, local[n], store[n]) in moves;
    } else if a.Repull? {
      assert Updated(local, store) == local;
    }
  }

  // Once written, the catalogue has nothing more to change.
  lemma UpdateSettles(local: Services, store: Services)
    ensures Changes(Updated(local, store), store) == {}
    ensures Updated(Updated(local, store), store) == Updated(local, store)
    ensures Missing(Updated(local, store), store) == Missing(local, store)
  {
    assert forall n <- local :: n !in Changes(Updated(local, store), store);
  }
}
