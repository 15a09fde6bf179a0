// The tags an app may deploy, and their order: that of the versions they name.
module GitTags {
  import opened Wrappers
  import opened Strings

  type Commit = nat

  // An identifier of a pre-release.
  datatype Ident = Number(n: nat) | Word(s: string)

  datatype Version = Version(major: nat, minor: nat, patch: nat, pre: seq<Ident>)

  predicate IdentLess(a: Ident, b: Ident) {
    match (a, b)
    case (Number(m), Number(n)) => m < n
    case (Number(_), Word(_)) => true
    case (Word(_), Number(_)) => false
    case (Word(s), Word(t)) => StringLess(s, t)
  }

  predicate PreLess(a: seq<Ident>, b: seq<Ident>) {
    if b == [] then false
    else if a == [] then true
    else IdentLess(a[0], b[0]) || (a[0] == b[0] && PreLess(a[1..], b[1..]))
  }

  // Precedence, section 11 of Semantic Versioning 2.0.0: a release is higher
  // than its pre-releases.
  predicate Lower(a: Version, b: Version) {
    if a.major != b.major then a.major < b.major
    else if a.minor != b.minor then a.minor < b.minor
    else if a.patch != b.patch then a.patch < b.patch
    else if a.pre == [] || b.pre == [] then a.pre != [] && b.pre == []
    else PreLess(a.pre, b.pre)
  }

  lemma IdentTotal(a: Ident, b: Ident)
    ensures a == b || IdentLess(a, b) || IdentLess(b, a)
    ensures !(IdentLess(a, b) && IdentLess(b, a))
  {
    if a.Word? && b.Word? {
      StringTotal(a.s, b.s);
    }
  }

  lemma IdentTransitive(a: Ident, b: Ident, c: Ident)
    requires IdentLess(a, b) && IdentLess(b, c)
    ensures IdentLess(a, c)
  {
    if a.Word? && b.Word? && c.Word? {
      StringTransitive(a.s, b.s, c.s);
    }
  }

  lemma {:induction false} PreTotal(a: seq<Ident>, b: seq<Ident>)
    ensures a == b || PreLess(a, b) || PreLess(b, a)
    ensures !(PreLess(a, b) && PreLess(b, a))
  {
    if a != [] && b != [] {
      IdentTotal(a[0], b[0]);
      PreTotal(a[1..], b[1..]);
      if a[0] == b[0] && a[1..] == b[1..] {
        assert a == [a[0]] + a[1..] && b == [b[0]] + b[1..];
      }
    }
  }

  lemma {:induction false} PreTransitive(a: seq<Ident>, b: seq<Ident>, c: seq<Ident>)
    requires PreLess(a, b) && PreLess(b, c)
    ensures PreLess(a, c)
  {
    if a != [] {
      if IdentLess(a[0], b[0]) && IdentLess(b[0], c[0]) {
        IdentTransitive(a[0], b[0], c[0]);
      } else if a[0] == b[0] && b[0] == c[0] {
        PreTransitive(a[1..], b[1..], c[1..]);
      }
    }
  }

  // Precedence is a total order of versions.
  lemma LowerTotal(a: Version, b: Version)
    ensures a == b || Lower(a, b) || Lower(b, a)
    ensures !(Lower(a, b) && Lower(b, a))
    ensures a == b ==> !Lower(a, b)
  {
    PreTotal(a.pre, b.pre);
    PreTotal(b.pre, b.pre);
  }

  lemma LowerTransitive(a: Version, b: Version, c: Version)
    requires Lower(a, b) && Lower(b, c)
    ensures Lower(a, c)
  {
    if PreLess(a.pre, b.pre) && PreLess(b.pre, c.pre) {
      PreTransitive(a.pre, b.pre, c.pre);
    }
  }

  // How a tag's name reads as a version; most names are none.
  type Reading = string -> Option<Version>

  // gitTagHigher, where no tag is none.
  predicate Higher(read: Reading, a: Option<string>, b: Option<string>) {
    && a.Some? && b.Some? && read(a.value).Some? && read(b.value).Some?
    && Lower(read(b.value).value, read(a.value).value)
  }

  // The tag did not go down.
  predicate NotDown(read: Reading, was: Option<string>, now: Option<string>) {
    now == was || Higher(read, now, was)
  }

  lemma NotDownTransitive(read: Reading, a: Option<string>, b: Option<string>, c: Option<string>)
    requires NotDown(read, a, b) && NotDown(read, b, c)
    ensures NotDown(read, a, c)
  {
    if a != b && b != c {
      LowerTransitive(read(a.value).value, read(b.value).value, read(c.value).value);
    }
  }

  // --- the eligible tags ---

  datatype Tag = Tag(name: string, commit: Commit)

  // What an app asks of a tag: a name its pattern matches, and whether
  // pre-releases count.
  datatype Wanted = Wanted(read: Reading, matches: string -> bool, prereleases: bool)

  predicate Eligible(w: Wanted, name: string) {
    w.read(name).Some? && w.matches(name) && (w.read(name).value.pre != [] ==> w.prereleases)
  }

  // The order of the list: the highest version first, equal versions by name.
  predicate Before(w: Wanted, a: Tag, b: Tag)
    requires w.read(a.name).Some? && w.read(b.name).Some?
  {
    Lower(w.read(b.name).value, w.read(a.name).value) ||
    (w.read(a.name) == w.read(b.name) && StringLess(a.name, b.name))
  }

  predicate Listed(w: Wanted, s: seq<Tag>) {
    && (forall i :: 0 <= i < |s| ==> w.read(s[i].name).Some?)
    && forall i, j :: 0 <= i < j < |s| ==> Before(w, s[i], s[j])
  }

  lemma BeforeTotal(w: Wanted, a: Tag, b: Tag)
    requires w.read(a.name).Some? && w.read(b.name).Some?
    ensures a.name == b.name || Before(w, a, b) || Before(w, b, a)
    ensures !(Before(w, a, b) && Before(w, b, a))
    ensures a.name == b.name ==> !Before(w, a, b)
  {
    LowerTotal(w.read(a.name).value, w.read(b.name).value);
    StringTotal(a.name, b.name);
  }

  lemma BeforeTransitive(w: Wanted, a: Tag, b: Tag, c: Tag)
    requires w.read(a.name).Some? && w.read(b.name).Some? && w.read(c.name).Some?
    requires Before(w, a, b) && Before(w, b, c)
    ensures Before(w, a, c)
  {
    var x, y, z := w.read(a.name).value, w.read(b.name).value, w.read(c.name).value;
    if Lower(y, x) && Lower(z, y) {
      LowerTransitive(z, y, x);
    } else if x == y == z {
      StringTransitive(a.name, b.name, c.name);
    }
  }

  // Where a tag goes in a list.
  method InsertTag(w: Wanted, s: seq<Tag>, t: Tag) returns (r: seq<Tag>)
    requires Listed(w, s) && w.read(t.name).Some? && forall x <- s :: x.name != t.name
    ensures Listed(w, r) && forall x :: x in r <==> x in s || x == t
  {
    var i := 0;
    while i < |s| && Before(w, s[i], t)
      invariant i <= |s| && forall j :: 0 <= j < i ==> Before(w, s[j], t)
    {
      i := i + 1;
    }
    r := s[..i] + [t] + s[i..];
    if i < |s| {
      BeforeTotal(w, s[i], t);
      forall j | i < j < |s|
        ensures Before(w, t, s[j])
      {
        BeforeTransitive(w, t, s[i], s[j]);
      }
    }
  }

  // eligibleGitTags: every tag of the remote the app may deploy and no other,
  // the highest first.
  method EligibleTags(w: Wanted, tags: map<string, Commit>) returns (s: seq<Tag>)
    ensures Listed(w, s)
    ensures forall t :: t in s <==> t.name in tags && tags[t.name] == t.commit && Eligible(w, t.name)
  {
    s := [];
    var left := tags.Keys;
    while left != {}
      invariant left <= tags.Keys && Listed(w, s)
      invariant forall t :: t in s <==>
          t.name in tags && t.name !in left && tags[t.name] == t.commit && Eligible(w, t.name)
      decreases left
    {
      var name :| name in left;
      if Eligible(w, name) {
        s := InsertTag(w, s, Tag(name, tags[name]));
      }
      left := left - {name};
    }
  }

  lemma FirstIn(s: seq<Tag>)
    ensures s != [] ==> s[0] in s
  {
  }

  // The list is the same whatever order the tags came in.
  lemma {:induction false} OneList(w: Wanted, a: seq<Tag>, b: seq<Tag>)
    requires Listed(w, a) && Listed(w, b) && forall t :: t in a <==> t in b
    ensures a == b
  {
    FirstIn(a);
    FirstIn(b);
    if a != [] && b != [] {
      SameFirst(w, a, b);
      SameTails(w, a, b);
      OneList(w, a[1..], b[1..]);
    }
  }

  lemma SameFirst(w: Wanted, a: seq<Tag>, b: seq<Tag>)
    requires Listed(w, a) && Listed(w, b) && a != [] && b != [] && a[0] in b && b[0] in a
    ensures a[0] == b[0]
  {
    if a[0] != b[0] {
      BeforeTotal(w, a[0], b[0]);
    }
  }

  lemma SameTails(w: Wanted, a: seq<Tag>, b: seq<Tag>)
    requires Listed(w, a) && Listed(w, b) && a != [] && b != [] && a[0] == b[0]
    requires forall t :: t in a <==> t in b
    ensures forall t :: t in a[1..] <==> t in b[1..]
  {
    BeforeTotal(w, a[0], a[0]);
    assert a == [a[0]] + a[1..] && b == [b[0]] + b[1..];
    assert a[0] !in a[1..] && b[0] !in b[1..];
    forall t
      ensures t in a[1..] <==> t in b[1..]
    {
      assert t in a[1..] <==> t in a && t != a[0];
      assert t in b[1..] <==> t in b && t != b[0];
    }
  }

  // The first of the list is what a check takes: no eligible tag is higher.
  lemma FirstHighest(w: Wanted, s: seq<Tag>, t: Tag)
    requires Listed(w, s) && t in s
    ensures !Higher(w.read, Some(t.name), Some(s[0].name))
  {
    var i :| 0 <= i < |s| && s[i] == t;
    LowerTotal(w.read(s[0].name).value, w.read(t.name).value);
  }

  lemma HighestFirst(w: Wanted, tags: map<string, Commit>, s: seq<Tag>)
    requires Listed(w, s)
    requires forall t :: t in s <==> t.name in tags && tags[t.name] == t.commit && Eligible(w, t.name)
    ensures s != [] ==> forall name <- tags :: Eligible(w, name) ==> !Higher(w.read, Some(name), Some(s[0].name))
  {
    forall name <- tags | s != [] && Eligible(w, name)
      ensures !Higher(w.read, Some(name), Some(s[0].name))
    {
      var t := Tag(name, tags[name]);
      assert t in s;
      FirstHighest(w, s, t);
    }
  }
}
