// One page of log history: a merge of the day files on (time, file, offset), in
// either direction, up to a number of lines and of bytes.
module LogPager {
  import opened Wrappers
  import opened LogLines
  import opened LogSeek
  import opened LogOrder
  import opened Strings

  datatype Result<T> = Ok(value: T) | BothDirections

  // A day file of one container.
  datatype LogFile = LogFile(rel: string, day: int, bytes: Bytes)

  datatype Entry = Entry(file: string, rec: Rec)

  datatype Query = Query(since: Option<int>, until: Option<int>, before: Option<Cursor>, after: Option<Cursor>,
      limit: int)

  // What stays the same over a read: how a timestamp reads, which lines match,
  // what a line costs of a page, and the time up to which lines are not held
  // back, a second before the read.
  datatype Terms = Terms(stamp: Stamp, match_: Entry -> bool, cost: Entry -> nat, hold: int)

  datatype Page = Page(lines: seq<Entry>, next: Option<Cursor>, full: bool)

  const MaxLinesBytes: nat := 1835008
  const DayLength: int := 86400000000000

  function Key(e: Entry): Cursor {
    Cursor(e.rec.at, e.file, e.rec.start)
  }

  function Records(stamp: Stamp, f: LogFile): seq<Rec> {
    LinesIn(RawParser(stamp), f.bytes, 0, |f.bytes|)
  }

  // Every line of some files.
  ghost function Entries(stamp: Stamp, files: seq<LogFile>): set<Entry> {
    set f, r | f in files && r in Records(stamp, f) :: Entry(f.rel, r)
  }

  function DayOf(t: int): int {
    t / DayLength
  }

  // What the writer makes of a file: lines in time order, all of its day.
  ghost predicate Written(stamp: Stamp, f: LogFile) {
    && NoLongLine(f.bytes)
    && InTimeOrder(stamp, f.bytes)
    && forall r <- Records(stamp, f) :: DayOf(r.at) == f.day
  }

  ghost predicate WellFormed(stamp: Stamp, files: seq<LogFile>) {
    && ShortStamps(stamp)
    && (forall f <- files :: Written(stamp, f))
    && (forall i, j :: 0 <= i < j < |files| ==> files[i].rel != files[j].rel)
  }

  // A cursor that was read off a line of its file, when the file is still there.
  ghost predicate Genuine(stamp: Stamp, files: seq<LogFile>, c: Option<Cursor>) {
    c.Some? ==> forall f <- files | f.rel == c.value.file ::
      exists r :: r in Records(stamp, f) && r.start == c.value.start && r.at == c.value.at
  }

  predicate WithinFrom(t: Option<int>, at: int) {
    t.Some? ==> t.value <= at
  }

  predicate WithinTo(t: Option<int>, at: int) {
    t.Some? ==> at <= t.value
  }

  // The lines a query is about.
  predicate Asked(q: Query, t: Terms, e: Entry) {
    && t.match_(e)
    && WithinFrom(q.since, e.rec.at) && WithinTo(q.until, e.rec.at)
    && (if q.after.Some? then Less(q.after.value, Key(e)) && e.rec.at <= t.hold
        else if q.before.Some? then Less(Key(e), q.before.value)
        else q.until.None? ==> e.rec.at <= t.hold)
  }

  // The bound a walk stops at: nothing after it is asked for.
  predicate Past(q: Query, t: Terms, at: int) {
    if q.after.Some? then t.hold < at || !WithinTo(q.until, at) else !WithinFrom(q.since, at)
  }

  predicate Sorted(forwards: bool, lines: seq<Entry>) {
    forall i, j :: 0 <= i < j < |lines| ==> Ahead(forwards, Key(lines[i]), Key(lines[j]))
  }

  function TotalCost(cost: Entry -> nat, lines: seq<Entry>): nat {
    if lines == [] then 0 else TotalCost(cost, lines[..|lines| - 1]) + cost(lines[|lines| - 1])
  }

  function Limit(q: Query): (n: nat)
    ensures 0 < n <= 1000
  {
    if q.limit <= 0 then 500 else if q.limit < 1000 then q.limit else 1000
  }

  // --- the merge of one day ---

  // What a file's reader has left to give, in the order of the walk.
  datatype Source = Source(file: string, rest: seq<Rec>)

  ghost function Left(srcs: seq<Source>): set<Entry> {
    set s, r | s in srcs && r in s.rest :: Entry(s.file, r)
  }

  ghost predicate Walked(forwards: bool, file: string, rest: seq<Rec>) {
    forall i, j :: 0 <= i < j < |rest| ==> Ahead(forwards, Key(Entry(file, rest[i])), Key(Entry(file, rest[j])))
  }

  ghost predicate Mergeable(forwards: bool, srcs: seq<Source>) {
    && (forall s <- srcs :: Walked(forwards, s.file, s.rest))
    && (forall i, j :: 0 <= i < j < |srcs| ==> srcs[i].file != srcs[j].file)
  }

  // --- what the readers are opened on ---

  // A part of a file's lines that has all that is asked of it, as the walk goes.
  ghost predicate Opened(q: Query, t: Terms, f: LogFile, rest: seq<Rec>) {
    && Walked(q.after.Some?, f.rel, rest)
    && (forall r <- rest :: r in Records(t.stamp, f))
    && (forall r <- Records(t.stamp, f) :: Asked(q, t, Entry(f.rel, r)) ==> r in rest)
  }

  // The lines of a file, split where a cursor of it is.
  predicate SplitAt(all: seq<Rec>, c: Cursor, pre: seq<Rec>, post: seq<Rec>) {
    && all == pre + post && InOrder(pre) && InOrder(post)
    && (forall r <- pre :: r.at <= c.at && r.start < c.start)
    && (forall r <- post :: c.at <= r.at && c.start <= r.start)
  }

  lemma PartsSplitAt(all: seq<Rec>, c: Cursor, pre: seq<Rec>, post: seq<Rec>)
    requires all == pre + post && InOrder(all)
    requires exists r :: r in all && r.start == c.start && r.at == c.at
    requires (forall r <- pre :: r.start < c.start) && (forall r <- post :: c.start <= r.start)
    ensures SplitAt(all, c, pre, post)
  {
    var r :| r in all && r.start == c.start && r.at == c.at;
    InOrderAround(pre, post, r);
  }

  lemma CursorSplits(stamp: Stamp, f: LogFile, c: Cursor)
    requires ShortStamps(stamp) && Written(stamp, f) && Genuine(stamp, [f], Some(c)) && f.rel == c.file
    ensures c.start <= |f.bytes| && LineStart(f.bytes, c.start)
    ensures SplitAt(Records(stamp, f), c, LinesIn(RawParser(stamp), f.bytes, 0, c.start),
                    LinesIn(RawParser(stamp), f.bytes, c.start, |f.bytes|))
  {
    CursorAtLine(stamp, f, c);
    PartsInOrder(stamp, f, c.start);
    LinesSplit(RawParser(stamp), f.bytes, 0, c.start, |f.bytes|);
    PartsSplitAt(Records(stamp, f), c, LinesIn(RawParser(stamp), f.bytes, 0, c.start),
                 LinesIn(RawParser(stamp), f.bytes, c.start, |f.bytes|));
  }

  lemma PartsInOrder(stamp: Stamp, f: LogFile, mid: nat)
    requires ShortStamps(stamp) && Written(stamp, f) && mid <= |f.bytes| && LineStart(f.bytes, mid)
    ensures InOrder(Records(stamp, f))
    ensures forall r <- LinesIn(RawParser(stamp), f.bytes, 0, mid) :: r.start < mid
    ensures forall r <- LinesIn(RawParser(stamp), f.bytes, mid, |f.bytes|) :: mid <= r.start
  {
    RecordsInOrder(stamp, f.bytes, 0, |f.bytes|);
    RecordsInOrder(stamp, f.bytes, 0, mid);
    RecordsInOrder(stamp, f.bytes, mid, |f.bytes|);
  }

  lemma CursorAtLine(stamp: Stamp, f: LogFile, c: Cursor)
    requires Genuine(stamp, [f], Some(c)) && f.rel == c.file
    ensures c.start <= |f.bytes| && LineStart(f.bytes, c.start)
    ensures exists r :: r in Records(stamp, f) && r.start == c.start && r.at == c.at
  {
    assert f in [f];
    var all := Records(stamp, f);
    LinesOrdered(RawParser(stamp), f.bytes, 0, |f.bytes|);
    var r :| r in all && r.start == c.start && r.at == c.at;
    var i :| 0 <= i < |all| && all[i] == r;
    assert LineStart(f.bytes, all[i].start);
  }

  // Lines in order are walked forwards, and reversed, backwards.
  lemma WalkedLines(file: string, s: seq<Rec>)
    requires InOrder(s)
    ensures Walked(true, file, s) && Walked(false, file, Reverse(s))
    ensures forall r :: r in s <==> r in Reverse(s)
  {
    ReverseMembers(s);
    forall i, j | 0 <= i < j < |Reverse(s)|
      ensures Ahead(false, Key(Entry(file, Reverse(s)[i])), Key(Entry(file, Reverse(s)[j])))
    {
      ReverseAt(s, i);
      ReverseAt(s, j);
    }
  }

  lemma {:induction false} ReverseMembers(s: seq<Rec>)
    ensures |Reverse(s)| == |s|
    ensures forall r :: r in s <==> r in Reverse(s)
  {
    if s != [] {
      ReverseMembers(s[1..]);
      assert s == [s[0]] + s[1..];
    }
  }

  // openReader. Backwards it reads from the end of the file, or from where the
  // cursor is in it; forwards from there too, or from where a search by time ends.
  method OpenReader(q: Query, t: Terms, f: LogFile) returns (rest: seq<Rec>)
    requires ShortStamps(t.stamp) && Written(t.stamp, f)
    requires Genuine(t.stamp, [f], q.before) && Genuine(t.stamp, [f], q.after)
    ensures Opened(q, t, f, rest)
  {
    if q.after.Some? {
      rest := OpenForwards(q, t, f, q.after.value);
    } else {
      rest := OpenBackwards(q, t, f);
    }
  }

  method OpenBackwards(q: Query, t: Terms, f: LogFile) returns (rest: seq<Rec>)
    requires ShortStamps(t.stamp) && Written(t.stamp, f) && q.after == None
    requires Genuine(t.stamp, [f], q.before)
    ensures Opened(q, t, f, rest)
  {
    if q.before.Some? && q.before.value.file == f.rel {
      var c := q.before.value;
      CursorSplits(t.stamp, f, c);
      rest := ReadBackwards(RawParser(t.stamp), f.bytes, c.start);
      OpenedBefore(q, t, f, Records(t.stamp, f), c, LinesIn(RawParser(t.stamp), f.bytes, 0, c.start),
                   LinesIn(RawParser(t.stamp), f.bytes, c.start, |f.bytes|));
    } else {
      RecordsInOrder(t.stamp, f.bytes, 0, |f.bytes|);
      rest := ReadBackwards(RawParser(t.stamp), f.bytes, |f.bytes|);
      WalkedLines(f.rel, Records(t.stamp, f));
    }
  }

  lemma OpenedBefore(q: Query, t: Terms, f: LogFile, all: seq<Rec>, c: Cursor, pre: seq<Rec>, post: seq<Rec>)
    requires q.after == None && q.before == Some(c) && f.rel == c.file
    requires all == Records(t.stamp, f) && SplitAt(all, c, pre, post)
    ensures Opened(q, t, f, Reverse(pre))
  {
    WalkedLines(f.rel, pre);
    StringTotal(f.rel, f.rel);
  }

  method OpenForwards(q: Query, t: Terms, f: LogFile, c: Cursor) returns (rest: seq<Rec>)
    requires ShortStamps(t.stamp) && Written(t.stamp, f) && q.after == Some(c)
    requires Genuine(t.stamp, [f], q.after)
    ensures Opened(q, t, f, rest)
  {
    if c.file == f.rel {
      CursorSplits(t.stamp, f, c);
      rest := ReadForwards(RawParser(t.stamp), f.bytes, c.start);
      OpenedAfter(q, t, f, Records(t.stamp, f), c, LinesIn(RawParser(t.stamp), f.bytes, 0, c.start), rest);
    } else {
      var start := SeekTime(t.stamp, f.bytes, c.at);
      SeekMissesNone(t.stamp, f.bytes, start, c.at);
      RecordsInOrder(t.stamp, f.bytes, start, |f.bytes|);
      rest := ReadForwards(RawParser(t.stamp), f.bytes, start);
      OpenedFrom(q, t, f, Records(t.stamp, f), c, LinesIn(RawParser(t.stamp), f.bytes, 0, start), rest);
    }
  }

  lemma OpenedAfter(q: Query, t: Terms, f: LogFile, all: seq<Rec>, c: Cursor, pre: seq<Rec>, post: seq<Rec>)
    requires q.after == Some(c) && f.rel == c.file
    requires all == Records(t.stamp, f) && SplitAt(all, c, pre, post)
    ensures Opened(q, t, f, post)
  {
    WalkedLines(f.rel, post);
    StringTotal(f.rel, f.rel);
  }

  lemma OpenedFrom(q: Query, t: Terms, f: LogFile, all: seq<Rec>, c: Cursor, pre: seq<Rec>, post: seq<Rec>)
    requires q.after == Some(c)
    requires all == Records(t.stamp, f) && all == pre + post && InOrder(post) && forall r <- pre :: r.at < c.at
    ensures Opened(q, t, f, post)
  {
    WalkedLines(f.rel, post);
  }

  function Head(s: Source): Entry
    requires s.rest != []
  {
    Entry(s.file, s.rest[0])
  }

  // Of the lines of a store, `lines` were collected and `left` are still to be
  // looked at: what is missing is in `left`, or after a page that is full.
  ghost predicate Collected(q: Query, t: Terms, lines: seq<Entry>, full: bool, done: bool, all: set<Entry>,
      left: set<Entry>) {
    && Sorted(q.after.Some?, lines)
    && (forall e <- lines :: e in all && Asked(q, t, e))
    && (if full then lines != [] && AllAfter(q, t, lines, all)
        else if done then forall e <- all :: Asked(q, t, e) ==> e in lines
        else (forall e <- all :: Asked(q, t, e) ==> e in lines || e in left) &&
             (forall e <- lines, x <- left :: Ahead(q.after.Some?, Key(e), Key(x))))
  }

  // What a full page misses comes after its last line.
  ghost predicate AllAfter(q: Query, t: Terms, lines: seq<Entry>, all: set<Entry>)
    requires lines != []
  {
    forall e <- all :: Asked(q, t, e) ==> e in lines || Ahead(q.after.Some?, Key(lines[|lines| - 1]), Key(e))
  }

  // A line the walk comes to before the others left.
  ghost predicate Foremost(q: Query, e: Entry, left: set<Entry>) {
    e in left && forall x <- left - {e} :: Ahead(q.after.Some?, Key(e), Key(x))
  }

  lemma PastAll(q: Query, t: Terms, e: Entry, x: Entry)
    requires Past(q, t, e.rec.at) && Ahead(q.after.Some?, Key(e), Key(x))
    ensures !Asked(q, t, x)
  {
  }

  // What becomes of a line: passed over, the end of the walk, or in the page.
  datatype Verdict = Skip | Stop | Keep

  function Judge(q: Query, t: Terms, e: Entry): (v: Verdict)
    ensures v == Skip ==> !Asked(q, t, e)
    ensures v == Stop ==> !Asked(q, t, e) && Past(q, t, e.rec.at)
    ensures v == Keep ==> Asked(q, t, e)
  {
    var at, key := e.rec.at, Key(e);
    if q.after.Some? then
      if !Less(q.after.value, key) || !WithinFrom(q.since, at) then Skip
      else if t.hold < at || !WithinTo(q.until, at) then Stop
      else if t.match_(e) then Keep else Skip
    else
      if (q.before.Some? && !Less(key, q.before.value)) || !WithinTo(q.until, at) then Skip
      else if q.before.None? && q.until.None? && at > t.hold then Skip
      else if !WithinFrom(q.since, at) then Stop
      else if t.match_(e) then Keep else Skip
  }

  // The walk stops at a line nothing after which is asked for.
  lemma StopCollects(q: Query, t: Terms, lines: seq<Entry>, e: Entry, all: set<Entry>, left: set<Entry>)
    requires Collected(q, t, lines, false, false, all, left)
    requires Foremost(q, e, left) && Past(q, t, e.rec.at) && !Asked(q, t, e)
    ensures Collected(q, t, lines, false, true, all, left - {e})
  {
    forall x <- all | Asked(q, t, x) && x !in lines
      ensures false
    {
      assert x in left - {e};
      PastAll(q, t, e, x);
    }
  }

  // A line that does not fit ends the page.
  lemma FullCollects(q: Query, t: Terms, lines: seq<Entry>, e: Entry, all: set<Entry>, left: set<Entry>)
    requires Collected(q, t, lines, false, false, all, left) && left <= all && lines != []
    requires Foremost(q, e, left) && Asked(q, t, e)
    ensures Collected(q, t, lines, true, true, all, left - {e})
    ensures NextAsked(q, t, lines, all, e)
  {
    LessTotal(Key(e), Key(e));
    assert lines[|lines| - 1] in lines;
  }

  lemma AddCollects(q: Query, t: Terms, lines: seq<Entry>, full: bool, e: Entry, all: set<Entry>, left: set<Entry>)
    requires Collected(q, t, lines, false, false, all, left) && left <= all
    requires Foremost(q, e, left) && Asked(q, t, e)
    ensures Collected(q, t, lines + [e], full, full, all, left - {e})
  {
    var now := lines + [e];
    assert forall i :: 0 <= i < |lines| ==> now[i] == lines[i] && lines[i] in lines;
    assert forall x <- lines :: x in now;
    assert e in now;
  }

  // Lines nobody asked for need not be looked at.
  lemma NarrowCollects(
      q: Query, t: Terms, lines: seq<Entry>, full: bool, done: bool, all: set<Entry>, left: set<Entry>,
          fewer: set<Entry>)
    requires Collected(q, t, lines, full, done, all, left) && fewer <= left
    requires done || forall e <- left - fewer :: !Asked(q, t, e)
    ensures Collected(q, t, lines, full, done, all, fewer)
  {
    if !full && !done {
      forall e <- all | Asked(q, t, e)
        ensures e in lines || e in fewer
      {
        assert e in lines || e in fewer || e in left - fewer;
      }
    }
  }

  // --- the sources of a day ---

  // The source a walk takes its next line from.
  ghost predicate IsBest(forwards: bool, srcs: seq<Source>, k: nat)
    requires k < |srcs|
  {
    && srcs[k].rest != []
    && forall i :: 0 <= i < |srcs| && i != k && srcs[i].rest != [] ==>
        Ahead(forwards, Key(Head(srcs[k])), Key(Head(srcs[i])))
  }

  // The head of the best source is ahead of all that is left.
  lemma BestForemost(q: Query, srcs: seq<Source>, k: nat)
    requires Mergeable(q.after.Some?, srcs) && k < |srcs| && IsBest(q.after.Some?, srcs, k)
    ensures Foremost(q, Head(srcs[k]), Left(srcs))
  {
    var best := Head(srcs[k]);
    assert srcs[k] in srcs && srcs[k].rest[0] in srcs[k].rest;
    forall e <- Left(srcs) - {best}
      ensures Ahead(q.after.Some?, Key(best), Key(e))
    {
      var s, r :| s in srcs && r in s.rest && e == Entry(s.file, r);
      var i :| 0 <= i < |srcs| && srcs[i] == s;
      var j :| 0 <= j < |s.rest| && s.rest[j] == r;
      if i != k && j > 0 {
        AheadTransitive(q.after.Some?, Key(best), Key(Head(s)), Key(e));
      }
    }
  }

  function Advanced(srcs: seq<Source>, k: nat): seq<Source>
    requires k < |srcs| && srcs[k].rest != []
  {
    srcs[k := Source(srcs[k].file, srcs[k].rest[1..])]
  }

  // Taking a head off leaves the others.
  lemma AdvanceLeaves(forwards: bool, srcs: seq<Source>, k: nat)
    requires Mergeable(forwards, srcs) && k < |srcs| && srcs[k].rest != []
    ensures Mergeable(forwards, Advanced(srcs, k))
    ensures Left(Advanced(srcs, k)) == Left(srcs) - {Head(srcs[k])}
  {
    var now, best := Advanced(srcs, k), Head(srcs[k]);
    forall e | e in Left(now)
      ensures e in Left(srcs) && e != best
    {
      var s, r :| s in now && r in s.rest && e == Entry(s.file, r);
      var i :| 0 <= i < |now| && now[i] == s;
      assert srcs[i] in srcs && r in srcs[i].rest;
      if i == k {
        var j :| 0 <= j < |s.rest| && s.rest[j] == r;
        assert srcs[k].rest[j + 1] == r;
        LessTotal(Key(e), Key(best));
      }
    }
    forall e | e in Left(srcs) && e != best
      ensures e in Left(now)
    {
      var s, r :| s in srcs && r in s.rest && e == Entry(s.file, r);
      var i :| 0 <= i < |srcs| && srcs[i] == s;
      assert now[i] in now;
      if i == k {
        var j :| 0 <= j < |s.rest| && s.rest[j] == r;
        assert now[k].rest[j - 1] == r;
      }
    }
  }

  lemma NoneLeft(srcs: seq<Source>)
    requires forall s <- srcs :: s.rest == []
    ensures Left(srcs) == {}
  {
  }

  // The head that comes first in the walk; none when no source has one.
  method FindBest(forwards: bool, srcs: seq<Source>) returns (k: nat, some: bool)
    requires Mergeable(forwards, srcs)
    ensures some ==> k < |srcs| && IsBest(forwards, srcs, k)
    ensures !some ==> forall s <- srcs :: s.rest == []
  {
    k, some := 0, false;
    for i := 0 to |srcs|
      invariant !some ==> forall j :: 0 <= j < i ==> srcs[j].rest == []
      invariant some ==> k < i && srcs[k].rest != []
      invariant some ==> forall j :: 0 <= j < i && j != k && srcs[j].rest != [] ==>
                  Ahead(forwards, Key(Head(srcs[k])), Key(Head(srcs[j])))
    {
      if srcs[i].rest != [] {
        if some {
          LessTotal(Key(Head(srcs[i])), Key(Head(srcs[k])));
        }
        if !some || Ahead(forwards, Key(Head(srcs[i])), Key(Head(srcs[k]))) {
          if some {
            AheadOfAll(forwards, srcs, i, k);
          }
          k, some := i, true;
        }
      }
    }
  }

  lemma AheadOfAll(forwards: bool, srcs: seq<Source>, i: nat, k: nat)
    requires k < i < |srcs| && srcs[k].rest != [] && srcs[i].rest != []
    requires Ahead(forwards, Key(Head(srcs[i])), Key(Head(srcs[k])))
    requires forall j :: 0 <= j < i && j != k && srcs[j].rest != [] ==>
        Ahead(forwards, Key(Head(srcs[k])), Key(Head(srcs[j])))
    ensures forall j :: 0 <= j < i && srcs[j].rest != [] ==> Ahead(forwards, Key(Head(srcs[i])), Key(Head(srcs[j])))
  {
    forall j | 0 <= j < i && srcs[j].rest != []
      ensures Ahead(forwards, Key(Head(srcs[i])), Key(Head(srcs[j])))
    {
      if j != k {
        AheadTransitive(forwards, Key(Head(srcs[i])), Key(Head(srcs[k])), Key(Head(srcs[j])));
      }
    }
  }

  // The files of a day, opened: what they leave out was not asked for.
  ghost predicate SourcesOf(q: Query, t: Terms, files: seq<LogFile>, srcs: seq<Source>) {
    && |srcs| == |files|
    && forall i :: 0 <= i < |files| ==> srcs[i].file == files[i].rel && Opened(q, t, files[i], srcs[i].rest)
  }

  lemma SourcesCover(q: Query, t: Terms, files: seq<LogFile>, srcs: seq<Source>)
    requires WellFormed(t.stamp, files) && SourcesOf(q, t, files, srcs)
    ensures Mergeable(q.after.Some?, srcs)
    ensures Left(srcs) <= Entries(t.stamp, files)
    ensures forall e <- Entries(t.stamp, files) - Left(srcs) :: !Asked(q, t, e)
  {
    forall e | e in Left(srcs)
      ensures e in Entries(t.stamp, files)
    {
      var s, r :| s in srcs && r in s.rest && e == Entry(s.file, r);
      var i :| 0 <= i < |srcs| && srcs[i] == s;
      assert files[i] in files;
    }
    forall e | e in Entries(t.stamp, files) && Asked(q, t, e)
      ensures e in Left(srcs)
    {
      var f, r :| f in files && r in Records(t.stamp, f) && e == Entry(f.rel, r);
      var i :| 0 <= i < |files| && files[i] == f;
      assert srcs[i] in srcs;
    }
  }

  method OpenDay(q: Query, t: Terms, files: seq<LogFile>) returns (srcs: seq<Source>)
    requires WellFormed(t.stamp, files) && Genuine(t.stamp, files, q.before) && Genuine(t.stamp, files, q.after)
    ensures SourcesOf(q, t, files, srcs)
  {
    srcs := [];
    for i := 0 to |files|
      invariant SourcesOf(q, t, files[..i], srcs)
    {
      var f := files[i];
      assert f in files;
      var rest := OpenReader(q, t, f);
      srcs := srcs + [Source(f.rel, rest)];
    }
    assert files[..|files|] == files;
  }

  // The first line asked for that is not in the page.
  ghost predicate NextAsked(q: Query, t: Terms, lines: seq<Entry>, all: set<Entry>, e: Entry) {
    && e in all && e !in lines && Asked(q, t, e)
    && forall x <- all :: Asked(q, t, x) && x !in lines && x != e ==> Ahead(q.after.Some?, Key(e), Key(x))
  }

  // A page is full at its limit, or when its next line would be too much.
  ghost predicate WhyFull(q: Query, t: Terms, lines: seq<Entry>, all: set<Entry>) {
    || |lines| == Limit(q)
    || exists e :: NextAsked(q, t, lines, all, e) && TotalCost(t.cost, lines) + t.cost(e) > MaxLinesBytes
  }

  class Pager {
    const q: Query
    const terms: Terms
    const limit: nat
    var lines: seq<Entry>
    var bytes: nat
    var last: Option<Cursor>
    var full: bool
    var done: bool

    constructor (q: Query, terms: Terms)
      ensures this.q == q && this.terms == terms && limit == Limit(q)
      ensures lines == [] && bytes == 0 && last == None && !full && !done
    {
      this.q, this.terms, limit := q, terms, Limit(q);
      lines, bytes, last, full, done := [], 0, None, false, false;
    }

    ghost predicate Counted()
      reads this
    {
      && limit == Limit(q)
      && bytes == TotalCost(terms.cost, lines)
      && (full ==> done && lines != [])
      && (!full ==> |lines| < limit) && |lines| <= limit
      && (bytes <= MaxLinesBytes || |lines| == 1)
      && last == (if lines == [] then None else Some(Key(lines[|lines| - 1])))
    }

    // Of the lines of a store, `left` are still to be looked at.
    ghost predicate Valid(all: set<Entry>, left: set<Entry>)
      reads this
    {
      && Counted() && left <= all && Collected(q, terms, lines, full, done, all, left)
      && (full ==> WhyFull(q, terms, lines, all))
    }

    // take: one line of the merge, the first of those left.
    method Take(e: Entry, ghost all: set<Entry>, ghost left: set<Entry>)
      requires Valid(all, left) && !done && Foremost(q, e, left)
      modifies this
      ensures Valid(all, left - {e})
    {
      var verdict := Judge(q, terms, e);
      if verdict == Stop {
        StopCollects(q, terms, lines, e, all, left);
        done := true;
      } else if verdict == Keep {
        var cost := terms.cost(e);
        if |lines| > 0 && bytes + cost > MaxLinesBytes {
          FullCollects(q, terms, lines, e, all, left);
          full, done := true, true;
        } else {
          AddCollects(q, terms, lines, |lines| + 1 == limit, e, all, left);
          Append(e, cost);
        }
      }
    }

    method Append(e: Entry, cost: nat)
      requires Counted() && !done && cost == terms.cost(e)
      requires |lines| == 0 || bytes + cost <= MaxLinesBytes
      modifies this
      ensures Counted() && lines == old(lines) + [e]
      ensures full == done == (|lines| == limit)
    {
      assert (lines + [e])[..|lines|] == lines;
      lines := lines + [e];
      bytes := bytes + cost;
      last := Some(Key(e));
      if |lines| == limit {
        full, done := true, true;
      }
    }

    // A merge under way: what the sources have left comes before what is later.
    ghost predicate Merging(srcs: seq<Source>, all: set<Entry>, later: set<Entry>)
      reads this
    {
      && Valid(all, Left(srcs) + later)
      && Mergeable(q.after.Some?, srcs)
      && forall e <- Left(srcs), x <- later :: Ahead(q.after.Some?, Key(e), Key(x))
    }

    // One line of the merge.
    method Step(srcs: seq<Source>, k: nat, ghost all: set<Entry>, ghost later: set<Entry>)
      requires Merging(srcs, all, later) && !done && k < |srcs| && IsBest(q.after.Some?, srcs, k)
      modifies this
      ensures Merging(Advanced(srcs, k), all, later)
      ensures Left(Advanced(srcs, k)) < Left(srcs)
    {
      BestForemost(q, srcs, k);
      AdvanceLeaves(q.after.Some?, srcs, k);
      var best := Head(srcs[k]);
      assert best !in later by { LessTotal(Key(best), Key(best)); }
      assert Left(srcs) + later - {best} == Left(Advanced(srcs, k)) + later;
      Take(best, all, Left(srcs) + later);
    }

    // readDay: the day's files merged, the rest of the store after them.
    method ReadDay(files: seq<LogFile>, ghost all: set<Entry>, ghost later: set<Entry>)
      requires WellFormed(terms.stamp, files)
      requires Genuine(terms.stamp, files, q.before) && Genuine(terms.stamp, files, q.after)
      requires !done && Valid(all, Entries(terms.stamp, files) + later)
      requires forall e <- Entries(terms.stamp, files), x <- later :: Ahead(q.after.Some?, Key(e), Key(x))
      modifies this
      ensures Valid(all, later)
    {
      var srcs := OpenDay(q, terms, files);
      SourcesCover(q, terms, files, srcs);
      NarrowCollects(q, terms, lines, full, done, all, Entries(terms.stamp, files) + later, Left(srcs) + later);
      while !done
        invariant Merging(srcs, all, later)
        decreases Left(srcs)
      {
        var k, some := FindBest(q.after.Some?, srcs);
        if !some {
          NoneLeft(srcs);
          assert Left(srcs) + later == later;
          return;
        }
        Step(srcs, k, all, later);
        srcs := Advanced(srcs, k);
      }
      NarrowCollects(q, terms, lines, full, done, all, Left(srcs) + later, later);
    }
  }

  // --- a read ---

  function Pick(files: seq<LogFile>, keep: LogFile -> bool): (some: seq<LogFile>)
    ensures forall f :: f in some <==> f in files && keep(f)
    ensures |some| <= |files|
    ensures (exists f <- files :: !keep(f)) ==> |some| < |files|
  {
    if files == [] then []
    else (if keep(files[0]) then [files[0]] else []) + Pick(files[1..], keep)
  }

  lemma {:induction false} PickWellFormed(stamp: Stamp, files: seq<LogFile>, keep: LogFile -> bool)
    requires WellFormed(stamp, files)
    ensures WellFormed(stamp, Pick(files, keep))
  {
    if files != [] {
      assert forall f <- files[1..] :: f in files;
      PickWellFormed(stamp, files[1..], keep);
      assert forall f <- files[1..] :: f.rel != files[0].rel;
    }
  }

  // The days a query can be about, so the files opened.
  function FirstDay(q: Query): Option<int> {
    match (q.since, q.after)
    case (None, None) => None
    case (Some(t), None) => Some(DayOf(t))
    case (None, Some(c)) => Some(DayOf(c.at))
    case (Some(t), Some(c)) => Some(if DayOf(t) < DayOf(c.at) then DayOf(c.at) else DayOf(t))
  }

  function LastDay(q: Query): Option<int> {
    var hi := match q.until case None => None case Some(t) => Some(DayOf(t));
    if q.after.None? && q.before.Some? && (hi.None? || DayOf(q.before.value.at) < hi.value)
    then Some(DayOf(q.before.value.at)) else hi
  }

  predicate InDays(q: Query, day: int) {
    WithinFrom(FirstDay(q), day) && WithinTo(LastDay(q), day)
  }

  lemma AskedInDays(q: Query, t: Terms, e: Entry)
    requires Asked(q, t, e)
    ensures InDays(q, DayOf(e.rec.at))
  {
    DayMonotone();
  }

  lemma DayMonotone()
    ensures forall s: int, t: int :: s <= t ==> DayOf(s) <= DayOf(t)
  {
  }

  lemma SomeDaysCover(q: Query, t: Terms, files: seq<LogFile>, keep: LogFile -> bool)
    requires WellFormed(t.stamp, files) && forall f :: keep(f) == InDays(q, f.day)
    ensures Entries(t.stamp, Pick(files, keep)) <= Entries(t.stamp, files)
    ensures forall e <- Entries(t.stamp, files) :: Asked(q, t, e) ==> e in Entries(t.stamp, Pick(files, keep))
  {
    forall e <- Entries(t.stamp, files) | Asked(q, t, e)
      ensures e in Entries(t.stamp, Pick(files, keep))
    {
      AskedInDays(q, t, e);
    }
  }

  // The day the walk comes to first.
  function NextDay(forwards: bool, files: seq<LogFile>): (day: int)
    requires files != []
    ensures exists f <- files :: f.day == day
    ensures forall f <- files :: if forwards then day <= f.day else f.day <= day
  {
    if |files| == 1 then files[0].day
    else
      var rest := NextDay(forwards, files[1..]);
      if (if forwards then files[0].day < rest else rest < files[0].day) then files[0].day else rest
  }

  lemma DaysApart(t: Terms, forwards: bool, today: seq<LogFile>, others: seq<LogFile>, day: int)
    requires WellFormed(t.stamp, today) && WellFormed(t.stamp, others)
    requires forall f <- today :: f.day == day
    requires forall f <- others :: if forwards then day < f.day else f.day < day
    ensures forall e <- Entries(t.stamp, today), x <- Entries(t.stamp, others) :: Ahead(forwards, Key(e), Key(x))
  {
    DayMonotone();
  }

  lemma PartedEntries(stamp: Stamp, files: seq<LogFile>, some: seq<LogFile>, others: seq<LogFile>)
    requires forall f :: f in files <==> f in some || f in others
    ensures Entries(stamp, files) == Entries(stamp, some) + Entries(stamp, others)
  {
  }

  // A page is what is asked for up to where it stops, in order and each once.
  ghost predicate IsPage(q: Query, t: Terms, all: set<Entry>, page: Page) {
    && Sorted(q.after.Some?, page.lines)
    && (forall e <- page.lines :: e in all && Asked(q, t, e))
    && |page.lines| <= Limit(q) && (!page.full ==> |page.lines| < Limit(q))
    && (TotalCost(t.cost, page.lines) <= MaxLinesBytes || |page.lines| == 1)
    && (if page.full then page.lines != [] && AllAfter(q, t, page.lines, all) && WhyFull(q, t, page.lines, all)
        else forall e <- all :: Asked(q, t, e) ==> e in page.lines)
    && page.next == (if page.full || (q.after.Some? && page.lines != [])
        then Some(Key(page.lines[|page.lines| - 1])) else None)
  }

  method Read(files: seq<LogFile>, q: Query, t: Terms) returns (r: Result<Page>)
    requires WellFormed(t.stamp, files) && Genuine(t.stamp, files, q.before) && Genuine(t.stamp, files, q.after)
    ensures r.BothDirections? <==> q.after.Some? && q.before.Some?
    ensures r.Ok? ==> IsPage(q, t, Entries(t.stamp, files), r.value)
  {
    if q.after.Some? && q.before.Some? {
      return BothDirections;
    }
    var p := new Pager(q, t);
    var some := FilesInDays(files, q, t);
    ReadDays(p, some, Entries(t.stamp, files));
    var next := if p.full || (q.after.Some? && p.lines != []) then p.last else None;
    r := Ok(Page(p.lines, next, p.full));
  }

  // The files of the days a query can be about.
  method FilesInDays(files: seq<LogFile>, q: Query, t: Terms) returns (some: seq<LogFile>)
    requires WellFormed(t.stamp, files)
    ensures WellFormed(t.stamp, some) && forall f <- some :: f in files
    ensures Entries(t.stamp, some) <= Entries(t.stamp, files)
    ensures forall e <- Entries(t.stamp, files) :: Asked(q, t, e) ==> e in Entries(t.stamp, some)
  {
    var inDays := (f: LogFile) => InDays(q, f.day);
    some := Pick(files, inDays);
    PickWellFormed(t.stamp, files, inDays);
    SomeDaysCover(q, t, files, inDays);
  }

  // The days of the files, in the order of the walk, until the page is done.
  method ReadDays(p: Pager, files: seq<LogFile>, ghost all: set<Entry>)
    requires WellFormed(p.terms.stamp, files) && !p.done && p.Valid(all, Entries(p.terms.stamp, files))
    requires Genuine(p.terms.stamp, files, p.q.before) && Genuine(p.terms.stamp, files, p.q.after)
    modifies p
    ensures p.Valid(all, {})
  {
    var left := files;
    while left != [] && !p.done
      invariant WellFormed(p.terms.stamp, left) && p.Valid(all, Entries(p.terms.stamp, left))
      invariant Genuine(p.terms.stamp, left, p.q.before) && Genuine(p.terms.stamp, left, p.q.after)
      decreases |left|
    {
      var day := NextDay(p.q.after.Some?, left);
      var ofDay, ofOther := (f: LogFile) => f.day == day, (f: LogFile) => f.day != day;
      var today, others := Pick(left, ofDay), Pick(left, ofOther);
      PickWellFormed(p.terms.stamp, left, ofDay);
      PickWellFormed(p.terms.stamp, left, ofOther);
      DaysApart(p.terms, p.q.after.Some?, today, others, day);
      PartedEntries(p.terms.stamp, left, today, others);
      p.ReadDay(today, all, Entries(p.terms.stamp, others));
      left := others;
    }
    NarrowCollects(p.q, p.terms, p.lines, p.full, p.done, all, Entries(p.terms.stamp, left), {});
  }

  // --- one page is right ---

  // Two lines at one place are the same line.
  ghost predicate KeysApart(all: set<Entry>) {
    forall e <- all, x <- all :: Key(e) == Key(x) ==> e == x
  }

  lemma EntriesApart(stamp: Stamp, files: seq<LogFile>)
    requires WellFormed(stamp, files)
    ensures KeysApart(Entries(stamp, files))
  {
    forall e <- Entries(stamp, files), x <- Entries(stamp, files) | Key(e) == Key(x)
      ensures e == x
    {
      var f, r :| f in files && r in Records(stamp, f) && e == Entry(f.rel, r);
      var g, s :| g in files && s in Records(stamp, g) && x == Entry(g.rel, s);
      SameFile(stamp, files, f, g);
      SameRecord(stamp, f, r, s);
    }
  }

  lemma SameFile(stamp: Stamp, files: seq<LogFile>, f: LogFile, g: LogFile)
    requires WellFormed(stamp, files) && f in files && g in files && f.rel == g.rel
    ensures f == g
  {
    var i :| 0 <= i < |files| && files[i] == f;
    var j :| 0 <= j < |files| && files[j] == g;
    assert i == j;
  }

  lemma SameRecord(stamp: Stamp, f: LogFile, r: Rec, s: Rec)
    requires ShortStamps(stamp) && Written(stamp, f)
    requires r in Records(stamp, f) && s in Records(stamp, f) && r.start == s.start
    ensures r == s
  {
    RecordsInOrder(stamp, f.bytes, 0, |f.bytes|);
    InOrderOnce(Records(stamp, f), r, s);
  }

  lemma InOrderOnce(all: seq<Rec>, r: Rec, s: Rec)
    requires InOrder(all) && r in all && s in all && r.start == s.start
    ensures r == s
  {
    var k :| 0 <= k < |all| && all[k] == r;
    var l :| 0 <= l < |all| && all[l] == s;
    assert k == l;
  }

  // All that is asked for up to the last line of a page is in it.
  lemma PageHasAllTo(q: Query, t: Terms, all: set<Entry>, page: Page, e: Entry, k: nat)
    requires IsPage(q, t, all, page) && e in all && Asked(q, t, e) && k < |page.lines|
    requires Ahead(q.after.Some?, Key(e), Key(page.lines[k]))
    ensures exists j :: 0 <= j < k && page.lines[j] == e
  {
    var last := page.lines[|page.lines| - 1];
    if e !in page.lines {
      if k < |page.lines| - 1 {
        AheadTransitive(q.after.Some?, Key(e), Key(page.lines[k]), Key(last));
      }
      LessTotal(Key(e), Key(last));
      assert false;
    }
    var j :| 0 <= j < |page.lines| && page.lines[j] == e;
    LessTotal(Key(e), Key(page.lines[k]));
  }

  lemma NotBefore(q: Query, t: Terms, all: set<Entry>, a: Page, b: Page, n: nat)
    requires IsPage(q, t, all, a) && IsPage(q, t, all, b)
    requires n < |a.lines| && n < |b.lines| && a.lines[..n] == b.lines[..n]
    ensures !Ahead(q.after.Some?, Key(a.lines[n]), Key(b.lines[n]))
  {
    var e := a.lines[n];
    assert e in a.lines;
    LessTotal(Key(e), Key(e));
    if Ahead(q.after.Some?, Key(e), Key(b.lines[n])) {
      PageHasAllTo(q, t, all, b, e, n);
    }
  }

  lemma SameNext(q: Query, t: Terms, all: set<Entry>, a: Page, b: Page, n: nat)
    requires IsPage(q, t, all, a) && IsPage(q, t, all, b) && KeysApart(all)
    requires n < |a.lines| && n < |b.lines| && a.lines[..n] == b.lines[..n]
    ensures a.lines[n] == b.lines[n]
  {
    NotBefore(q, t, all, a, b, n);
    NotBefore(q, t, all, b, a, n);
    var e, x := a.lines[n], b.lines[n];
    assert e in a.lines && x in b.lines;
    LessTotal(Key(e), Key(x));
  }

  lemma {:induction false} PagesAgree(q: Query, t: Terms, all: set<Entry>, a: Page, b: Page, n: nat)
    requires IsPage(q, t, all, a) && IsPage(q, t, all, b) && KeysApart(all)
    requires n <= |a.lines| && n <= |b.lines|
    ensures a.lines[..n] == b.lines[..n]
  {
    if n > 0 {
      var m := n - 1;
      PagesAgree(q, t, all, a, b, m);
      SameNext(q, t, all, a, b, m);
      OneMoreAgrees(a.lines, b.lines, m, n);
    }
  }

  lemma OneMoreAgrees(a: seq<Entry>, b: seq<Entry>, m: nat, n: nat)
    requires n == m + 1 <= |a| && n <= |b| && a[..m] == b[..m] && a[m] == b[m]
    ensures a[..n] == b[..n]
  {
    assert a[..n] == a[..m] + [a[m]] && b[..n] == b[..m] + [b[m]];
  }

  lemma {:induction false} CostGrows(cost: Entry -> nat, lines: seq<Entry>, n: nat)
    requires n < |lines|
    ensures TotalCost(cost, lines[..n]) + cost(lines[n]) <= TotalCost(cost, lines)
    decreases |lines|
  {
    var front := lines[..|lines| - 1];
    if n < |front| {
      assert lines[..n] == front[..n];
      CostGrows(cost, front, n);
    } else {
      assert lines[..n] == front;
    }
  }

  lemma NoLonger(q: Query, t: Terms, all: set<Entry>, a: Page, b: Page)
    requires IsPage(q, t, all, a) && IsPage(q, t, all, b) && KeysApart(all)
    ensures |b.lines| <= |a.lines|
  {
    var n := |a.lines|;
    if n < |b.lines| {
      PagesAgree(q, t, all, a, b, n);
      assert a.lines[..n] == a.lines && b.lines[n] in b.lines;
      var x := b.lines[n];
      LessTotal(Key(x), Key(x));
      assert x !in a.lines;
      var e :| NextAsked(q, t, a.lines, all, e) && TotalCost(t.cost, a.lines) + t.cost(e) > MaxLinesBytes;
      if e != x {
        PageHasAllTo(q, t, all, b, e, n);
        assert false;
      }
      CostGrows(t.cost, b.lines, n);
    }
  }

  // There is one right page: the longest, within the limit and the bytes, of
  // what is asked for in order.
  lemma OnePage(q: Query, t: Terms, all: set<Entry>, a: Page, b: Page)
    requires IsPage(q, t, all, a) && IsPage(q, t, all, b) && KeysApart(all)
    ensures a == b
  {
    NoLonger(q, t, all, a, b);
    NoLonger(q, t, all, b, a);
    PagesAgree(q, t, all, a, b, |a.lines|);
    assert a.lines[..|a.lines|] == a.lines && b.lines[..|a.lines|] == b.lines;
  }
}
