// Which log files a purge removes: days past the retention, then whole oldest
// days until the rest fits.
module LogPurge {
  import opened Wrappers

  // A file under the root; no day when its name is not one the layout knows.
  datatype FileInfo = FileInfo(path: string, day: Option<int>, size: nat)

  function Size(files: seq<FileInfo>): nat {
    FrontSize(files, |files|)
  }

  // The size of the first n files.
  function FrontSize(s: seq<FileInfo>, n: nat): nat
    requires n <= |s|
  {
    if n == 0 then 0 else FrontSize(s, n - 1) + s[n - 1].size
  }

  // A purge is right when it removes the dated files up to some day.
  predicate Goes(f: FileInfo, upTo: Option<int>) {
    f.day.Some? && upTo.Some? && f.day.value <= upTo.value
  }

  function Gone(files: seq<FileInfo>, upTo: Option<int>): seq<FileInfo> {
    if files == [] then []
    else (if Goes(files[0], upTo) then [files[0]] else []) + Gone(files[1..], upTo)
  }

  function Spared(files: seq<FileInfo>, upTo: Option<int>): seq<FileInfo> {
    if files == [] then []
    else (if Goes(files[0], upTo) then [] else [files[0]]) + Spared(files[1..], upTo)
  }

  function Dated(files: seq<FileInfo>): seq<FileInfo> {
    if files == [] then []
    else (if files[0].day.Some? then [files[0]] else []) + Dated(files[1..])
  }

  // --- files in whatever order ---

  lemma {:induction false} FrontSizeIs(s: seq<FileInfo>, n: nat, k: nat)
    requires k <= n <= |s|
    ensures FrontSize(s[..n], k) == FrontSize(s, k)
  {
    if k > 0 {
      FrontSizeIs(s, n, k - 1);
    }
  }

  lemma {:induction false} FrontSizeConcat(a: seq<FileInfo>, b: seq<FileInfo>, k: nat)
    requires k <= |b|
    ensures FrontSize(a + b, |a| + k) == Size(a) + FrontSize(b, k)
  {
    if k > 0 {
      FrontSizeConcat(a, b, k - 1);
    } else {
      FrontSizeIs(a + b, |a|, |a|);
      assert (a + b)[..|a|] == a;
    }
  }

  lemma SizeConcat(a: seq<FileInfo>, b: seq<FileInfo>)
    ensures Size(a + b) == Size(a) + Size(b)
  {
    FrontSizeConcat(a, b, |b|);
  }

  lemma OneOut(s: seq<FileInfo>, i: nat) returns (rest: seq<FileInfo>)
    requires i < |s|
    ensures multiset(rest) + multiset{s[i]} == multiset(s)
    ensures Size(rest) + s[i].size == Size(s)
    ensures |rest| == |s| - 1
  {
    var a, b := s[..i], s[i + 1..];
    rest := a + b;
    assert s == a + ([s[i]] + b);
    SizeConcat(a, [s[i]] + b);
    SizeConcat([s[i]], b);
    assert Size([s[i]]) == FrontSize([s[i]], 0) + s[i].size;
    SizeConcat(a, b);
  }

  // The same files are as big in any order.
  lemma {:induction false} SizeAnyOrder(a: seq<FileInfo>, b: seq<FileInfo>)
    requires multiset(a) == multiset(b)
    ensures Size(a) == Size(b)
    decreases |a|
  {
    if a == [] {
      assert |multiset(b)| == 0;
    } else {
      assert a[0] in multiset(b);
      var i :| 0 <= i < |b| && b[i] == a[0];
      var restA := OneOut(a, 0);
      var restB := OneOut(b, i);
      assert multiset(restA) == multiset(a) - multiset{a[0]};
      assert multiset(restB) == multiset(b) - multiset{a[0]};
      SizeAnyOrder(restA, restB);
    }
  }

  lemma {:induction false} Counts(files: seq<FileInfo>, upTo: Option<int>, f: FileInfo)
    ensures multiset(Gone(files, upTo))[f] == if Goes(f, upTo) then multiset(files)[f] else 0
    ensures multiset(Spared(files, upTo))[f] == if Goes(f, upTo) then 0 else multiset(files)[f]
    ensures multiset(Dated(files))[f] == if f.day.Some? then multiset(files)[f] else 0
  {
    if files != [] {
      var x, rest := files[0], files[1..];
      Counts(rest, upTo, f);
      assert files == [x] + rest;
      ConsCounts(x, rest, f);
      ConsCounts(x, Gone(rest, upTo), f);
      ConsCounts(x, Spared(rest, upTo), f);
      ConsCounts(x, Dated(rest), f);
    }
  }

  lemma ConsCounts(x: FileInfo, files: seq<FileInfo>, f: FileInfo)
    ensures multiset([x] + files)[f] == (if x == f then 1 else 0) + multiset(files)[f]
  {
  }

  lemma GoneAnyOrder(a: seq<FileInfo>, b: seq<FileInfo>, upTo: Option<int>)
    requires multiset(a) == multiset(b)
    ensures multiset(Gone(a, upTo)) == multiset(Gone(b, upTo))
  {
    forall f
      ensures multiset(Gone(a, upTo))[f] == multiset(Gone(b, upTo))[f]
    {
      Counts(a, upTo, f);
      Counts(b, upTo, f);
    }
  }

  lemma SparedAndGone(files: seq<FileInfo>, upTo: Option<int>)
    ensures multiset(Spared(files, upTo) + Gone(files, upTo)) == multiset(files)
    ensures Size(Spared(files, upTo)) + Size(Gone(files, upTo)) == Size(files)
  {
    forall f
      ensures multiset(Spared(files, upTo) + Gone(files, upTo))[f] == multiset(files)[f]
    {
      Counts(files, upTo, f);
    }
    SizeAnyOrder(Spared(files, upTo) + Gone(files, upTo), files);
    SizeConcat(Spared(files, upTo), Gone(files, upTo));
  }

  // What a later day adds to what an earlier one removes.
  lemma GoneLater(files: seq<FileInfo>, first: Option<int>, upTo: Option<int>)
    requires first.Some? ==> upTo.Some? && first.value <= upTo.value
    ensures multiset(Gone(files, upTo)) == multiset(Gone(files, first) + Gone(Dated(Spared(files, first)), upTo))
  {
    forall f
      ensures multiset(Gone(files, upTo))[f] == multiset(Gone(files, first) + Gone(Dated(Spared(files, first)),
          upTo))[f]
    {
      Counts(files, upTo, f);
      Counts(files, first, f);
      Counts(Spared(files, first), upTo, f);
      Counts(Dated(Spared(files, first)), upTo, f);
    }
  }

  // --- the stable sort on days ---

  predicate DaySorted(s: seq<FileInfo>) {
    (forall i :: 0 <= i < |s| ==> s[i].day.Some?) &&
    forall i, j :: 0 <= i < j < |s| ==> s[i].day.value <= s[j].day.value
  }

  function Insert(f: FileInfo, s: seq<FileInfo>): seq<FileInfo>
    requires f.day.Some? && forall x <- s :: x.day.Some?
  {
    if s == [] || f.day.value <= s[0].day.value then [f] + s else [s[0]] + Insert(f, s[1..])
  }

  function SortByDay(s: seq<FileInfo>): (t: seq<FileInfo>)
    requires forall x <- s :: x.day.Some?
    ensures multiset(t) == multiset(s)
  {
    if s == [] then []
    else
      assert s == [s[0]] + s[1..];
      assert forall x <- SortByDay(s[1..]) :: x in multiset(SortByDay(s[1..]));
      InsertMultiset(s[0], SortByDay(s[1..]));
      Insert(s[0], SortByDay(s[1..]))
  }

  lemma {:induction false} InsertMultiset(f: FileInfo, s: seq<FileInfo>)
    requires f.day.Some? && forall x <- s :: x.day.Some?
    ensures multiset(Insert(f, s)) == multiset(s) + multiset{f}
  {
    if s != [] && f.day.value > s[0].day.value {
      assert s == [s[0]] + s[1..];
      InsertMultiset(f, s[1..]);
    }
  }

  lemma {:induction false} InsertMembers(f: FileInfo, s: seq<FileInfo>, x: FileInfo)
    requires f.day.Some? && (forall y <- s :: y.day.Some?) && x in Insert(f, s)
    ensures x == f || x in s
  {
    if s != [] && f.day.value > s[0].day.value && x != s[0] {
      InsertMembers(f, s[1..], x);
    }
  }

  lemma {:induction false} InsertSorted(f: FileInfo, s: seq<FileInfo>)
    requires f.day.Some? && DaySorted(s)
    ensures DaySorted(Insert(f, s))
  {
    if s != [] && f.day.value > s[0].day.value {
      var rest := Insert(f, s[1..]);
      InsertSorted(f, s[1..]);
      forall x <- rest
        ensures x.day.Some? && s[0].day.value <= x.day.value
      {
        InsertMembers(f, s[1..], x);
      }
    }
  }

  lemma {:induction false} SortSorts(s: seq<FileInfo>)
    requires forall x <- s :: x.day.Some?
    ensures DaySorted(SortByDay(s))
  {
    if s != [] {
      SortSorts(s[1..]);
      InsertSorted(s[0], SortByDay(s[1..]));
    }
  }

  // The first n of sorted files are those up to a day.
  predicate Splits(s: seq<FileInfo>, n: nat, upTo: Option<int>)
    requires DaySorted(s)
  {
    && n <= |s| && upTo.Some?
    && (forall j :: 0 <= j < n ==> s[j].day.value <= upTo.value)
    && (forall j :: n <= j < |s| ==> s[j].day.value > upTo.value)
  }

  // Of sorted files, those up to a day are the first ones.
  lemma {:induction false} GonePrefix(s: seq<FileInfo>, i: nat, upTo: Option<int>)
    requires DaySorted(s) && Splits(s, i, upTo)
    ensures Gone(s, upTo) == s[..i]
  {
    if s != [] {
      GonePrefix(s[1..], if i == 0 then 0 else i - 1, upTo);
      assert i > 0 ==> s[..i] == [s[0]] + s[1..][..i - 1];
    }
  }

  // --- the plan ---

  // The last day past the retention.
  function Cutoff(today: int, retentionDays: int): Option<int> {
    if retentionDays > 0 then Some(today - retentionDays) else None
  }

  lemma FromHere(s: seq<FileInfo>, f: FileInfo, rest: seq<FileInfo>, cutoff: Option<int>, plan: seq<FileInfo>,
      kept: seq<FileInfo>)
    requires s == [f] + rest
    ensures plan + Gone(s, cutoff) == (if Goes(f, cutoff) then plan + [f] else plan) + Gone(rest, cutoff)
    ensures kept + Spared(s, cutoff) == (if Goes(f, cutoff) then kept else kept + [f]) + Spared(rest, cutoff)
  {
    assert s[0] == f && s[1..] == rest;
  }

  // The files past the retention, in order, and the others.
  method Expired(files: seq<FileInfo>, cutoff: Option<int>) returns (plan: seq<FileInfo>, kept: seq<FileInfo>)
    ensures plan == Gone(files, cutoff) && kept == Spared(files, cutoff)
  {
    plan, kept := [], [];
    for i := 0 to |files|
      invariant plan + Gone(files[i..], cutoff) == Gone(files, cutoff)
      invariant kept + Spared(files[i..], cutoff) == Spared(files, cutoff)
    {
      FromHere(files[i..], files[i], files[i + 1..], cutoff, plan, kept);
      if Goes(files[i], cutoff) {
        plan := plan + [files[i]];
      } else {
        kept := kept + [files[i]];
      }
    }
  }

  // No day is split at i.
  predicate DayEdge(s: seq<FileInfo>, i: nat) {
    i <= |s| && (0 < i < |s| ==> s[i - 1].day != s[i].day)
  }

  // The day of i, with what it takes off the total.
  method TakeDay(s: seq<FileInfo>, i: nat, total: int, ghost all: int) returns (j: nat, left: int)
    requires DaySorted(s) && i < |s| && total == all - FrontSize(s, i)
    ensures i < j <= |s| && left == all - FrontSize(s, j)
    ensures forall k :: i <= k < j ==> s[k].day == s[i].day
    ensures j < |s| ==> s[j].day != s[i].day
  {
    j, left := i, total;
    while j < |s| && s[j].day == s[i].day
      invariant i <= j <= |s| && left == all - FrontSize(s, j)
      invariant forall k :: i <= k < j ==> s[k].day == s[i].day
    {
      left := left - s[j].size;
      j := j + 1;
    }
  }

  // The last day taken, from m to n, had to be: the rest was over the cap with it.
  predicate Needed(s: seq<FileInfo>, m: nat, n: nat, all: int, maxBytes: int)
    requires n <= |s|
  {
    n > 0 ==> m < n && DayEdge(s, m) && all - FrontSize(s, m) > maxBytes && s[m].day == s[n - 1].day
  }

  // Whole days off the front, while the rest is over the cap: where it stops.
  method OldestOver(s: seq<FileInfo>, all: int, maxBytes: int) returns (n: nat, total: int, ghost m: nat)
    requires DaySorted(s)
    ensures DayEdge(s, n) && total == all - FrontSize(s, n) && Needed(s, m, n, all, maxBytes)
    ensures total <= maxBytes || n == |s|
  {
    n, total, m := 0, all, 0;
    while total > maxBytes && n < |s|
      invariant DayEdge(s, n) && total == all - FrontSize(s, n) && Needed(s, m, n, all, maxBytes)
      decreases |s| - n
    {
      m := n;
      n, total := TakeDay(s, n, total, all);
    }
  }

  function DayBefore(day: Option<int>): Option<int> {
    match day case None => None case Some(d) => Some(d - 1)
  }

  lemma EdgeSplits(s: seq<FileInfo>, n: nat)
    requires DaySorted(s) && DayEdge(s, n)
    ensures n > 0 ==> Splits(s, n, s[n - 1].day)
    ensures n < |s| ==> Splits(s, n, DayBefore(s[n].day))
  {
    if 0 < n < |s| {
      assert s[n - 1].day.value < s[n].day.value;
    }
  }

  // The dated files that are not past the retention, sorted.
  ghost predicate Came(files: seq<FileInfo>, cutoff: Option<int>, s: seq<FileInfo>) {
    DaySorted(s) && multiset(s) == multiset(Dated(Spared(files, cutoff)))
  }

  lemma CameMembers(files: seq<FileInfo>, cutoff: Option<int>, s: seq<FileInfo>, f: FileInfo)
    requires Came(files, cutoff, s)
    ensures f in s <==> f in files && f.day.Some? && !Goes(f, cutoff)
  {
    Counts(files, cutoff, f);
    Counts(Spared(files, cutoff), cutoff, f);
    assert f in s <==> multiset(s)[f] > 0;
    assert f in files <==> multiset(files)[f] > 0;
  }

  lemma CameLater(files: seq<FileInfo>, cutoff: Option<int>, s: seq<FileInfo>, k: nat)
    requires Came(files, cutoff, s) && k < |s| && cutoff.Some?
    ensures cutoff.value < s[k].day.value
  {
    CameMembers(files, cutoff, s, s[k]);
  }

  // The first n of the sorted files, with those past the retention, are the
  // files up to a day.
  lemma PrefixPlans(files: seq<FileInfo>, cutoff: Option<int>, s: seq<FileInfo>, n: nat, upTo: Option<int>)
    requires Came(files, cutoff, s) && Splits(s, n, upTo)
    requires cutoff.Some? ==> cutoff.value <= upTo.value
    ensures multiset(Gone(files, cutoff) + s[..n]) == multiset(Gone(files, upTo))
    ensures Size(Spared(files, upTo)) == Size(Spared(files, cutoff)) - FrontSize(s, n)
  {
    GonePrefix(s, n, upTo);
    GoneLater(files, cutoff, upTo);
    GoneAnyOrder(s, Dated(Spared(files, cutoff)), upTo);
    SparedAndGone(files, upTo);
    SparedAndGone(files, cutoff);
    SizeAnyOrder(Gone(files, upTo), Gone(files, cutoff) + s[..n]);
    SizeConcat(Gone(files, cutoff), s[..n]);
    FrontSizeIs(s, n, n);
  }

  lemma AllDatedGone(files: seq<FileInfo>, cutoff: Option<int>, s: seq<FileInfo>, upTo: Option<int>)
    requires Came(files, cutoff, s)
    requires cutoff.Some? ==> upTo.Some? && cutoff.value <= upTo.value
    requires s != [] ==> Splits(s, |s|, upTo)
    ensures Dated(Spared(files, upTo)) == []
  {
    var left := Dated(Spared(files, upTo));
    if left != [] {
      var f := left[0];
      assert multiset(left)[f] > 0;
      Counts(files, upTo, f);
      Counts(Spared(files, upTo), upTo, f);
      CameMembers(files, cutoff, s, f);
      assert false;
    }
  }

  // The day up to which a plan that takes n of the sorted files goes.
  function UpTo(cutoff: Option<int>, s: seq<FileInfo>, n: nat): Option<int>
    requires n <= |s|
  {
    if n == 0 then cutoff else s[n - 1].day
  }

  lemma CapPlans(files: seq<FileInfo>, cutoff: Option<int>, s: seq<FileInfo>, n: nat, upTo: Option<int>)
    requires Came(files, cutoff, s) && DayEdge(s, n) && upTo == UpTo(cutoff, s, n)
    ensures multiset(Gone(files, cutoff) + s[..n]) == multiset(Gone(files, upTo))
    ensures Size(Spared(files, upTo)) == Size(Spared(files, cutoff)) - FrontSize(s, n)
    ensures cutoff.Some? ==> upTo.Some? && cutoff.value <= upTo.value
    ensures n == |s| ==> Dated(Spared(files, upTo)) == []
  {
    EdgeSplits(s, n);
    if n > 0 {
      if cutoff.Some? {
        CameLater(files, cutoff, s, n - 1);
      }
      PrefixPlans(files, cutoff, s, n, upTo);
    } else {
      assert Gone(files, cutoff) + s[..n] == Gone(files, cutoff);
    }
    if n == |s| {
      AllDatedGone(files, cutoff, s, upTo);
    }
  }

  lemma CapNeeded(files: seq<FileInfo>, cutoff: Option<int>, s: seq<FileInfo>, m: nat, n: nat, maxBytes: int,
      before: Option<int>)
    requires Came(files, cutoff, s) && 0 < n <= |s|
    requires Needed(s, m, n, Size(Spared(files, cutoff)), maxBytes) && before == DayBefore(s[n - 1].day)
    ensures Size(Spared(files, before)) > maxBytes
  {
    EdgeSplits(s, m);
    if cutoff.Some? {
      CameLater(files, cutoff, s, m);
    }
    PrefixPlans(files, cutoff, s, m, before);
  }

  lemma AllDated(files: seq<FileInfo>)
    ensures forall f <- Dated(files) :: f.day.Some?
  {
  }

  // A plan that removes the dated files up to one day: that of the retention, or
  // a later one when the rest would not fit, and no later than needed for it to.
  ghost predicate RightPlan(
      files: seq<FileInfo>, today: int, retentionDays: int, maxBytes: int, plan: seq<FileInfo>, upTo: Option<int>)
  {
    && multiset(plan) == multiset(Gone(files, upTo))
    && (retentionDays > 0 ==> upTo.Some? && today - retentionDays <= upTo.value)
    && (maxBytes > 0 ==> Size(Spared(files, upTo)) <= maxBytes || Dated(Spared(files, upTo)) == [])
    && (upTo != Cutoff(today, retentionDays) ==>
          maxBytes > 0 && upTo.Some? && Size(Spared(files, DayBefore(upTo))) > maxBytes)
  }

  // PlanPurge.
  method PlanPurge(files: seq<FileInfo>, today: int, retentionDays: int, maxBytes: int) returns (plan: seq<FileInfo>)
    ensures exists upTo :: RightPlan(files, today, retentionDays, maxBytes, plan, upTo)
  {
    var cutoff := Cutoff(today, retentionDays);
    var kept;
    plan, kept := Expired(files, cutoff);
    ghost var upTo := cutoff;
    if maxBytes > 0 {
      var more;
      more, upTo := Capped(files, cutoff, kept, maxBytes);
      plan := plan + more;
    }
    assert RightPlan(files, today, retentionDays, maxBytes, plan, upTo);
  }

  // The whole oldest days the cap takes of the files kept.
  method Capped(files: seq<FileInfo>, cutoff: Option<int>, kept: seq<FileInfo>, maxBytes: int)
      returns (more: seq<FileInfo>, ghost upTo: Option<int>)
    requires kept == Spared(files, cutoff)
    ensures multiset(Gone(files, cutoff) + more) == multiset(Gone(files, upTo))
    ensures cutoff.Some? ==> upTo.Some? && cutoff.value <= upTo.value
    ensures Size(Spared(files, upTo)) <= maxBytes || Dated(Spared(files, upTo)) == []
    ensures upTo != cutoff ==> upTo.Some? && Size(Spared(files, DayBefore(upTo))) > maxBytes
  {
    AllDated(kept);
    var dated := SortByDay(Dated(kept));
    SortSorts(Dated(kept));
    var n, total;
    ghost var m;
    n, total, m := OldestOver(dated, Size(kept), maxBytes);
    more := dated[..n];
    upTo := UpTo(cutoff, dated, n);
    CapPlans(files, cutoff, dated, n, upTo);
    if n > 0 {
      CapNeeded(files, cutoff, dated, m, n, maxBytes, DayBefore(upTo));
    }
  }
}
