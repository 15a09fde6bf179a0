// A client that follows the cursors of its pages, over files that keep growing.
module LogPaging {
  import opened Wrappers
  import opened LogLines
  import opened LogSeek
  import opened LogOrder
  import opened LogPager

  // The files of a store at each read.
  type Growth = nat -> seq<LogFile>

  // From one read to the next no line goes, and what comes is after `line`.
  ghost predicate GrewAfter(stamp: Stamp, was: seq<LogFile>, now: seq<LogFile>, line: int) {
    && Entries(stamp, was) <= Entries(stamp, now)
    && forall e <- Entries(stamp, now) - Entries(stamp, was) :: line < e.rec.at
  }

  // What appending to files keeps: every line read before is read again.
  lemma AppendKeepsLines(stamp: Stamp, f: LogFile, g: LogFile)
    requires f.rel == g.rel && f.bytes <= g.bytes
    ensures Records(stamp, f) <= Records(stamp, g)
    ensures Entries(stamp, [f]) <= Entries(stamp, [g])
  {
    var parse, end := RawParser(stamp), PastLast(f.bytes, NL, |f.bytes|);
    LinesTrim(parse, f.bytes, 0, end, |f.bytes|);
    LinesGrow(parse, f.bytes, g.bytes, 0, end);
    assert end > 0 ==> g.bytes[end - 1] == NL;
    LinesSplit(parse, g.bytes, 0, end, |g.bytes|);
  }

  // A cursor read off a line stays good while the line stays.
  lemma CursorStays(stamp: Stamp, files: seq<LogFile>, e: Entry)
    requires WellFormed(stamp, files) && e in Entries(stamp, files)
    ensures Genuine(stamp, files, Some(Key(e)))
  {
    var g, s :| g in files && s in Records(stamp, g) && e == Entry(g.rel, s);
    forall f <- files | f.rel == e.file
      ensures exists r :: r in Records(stamp, f) && r.start == e.rec.start && r.at == e.rec.at
    {
      var i :| 0 <= i < |files| && files[i] == f;
      var j :| 0 <= j < |files| && files[j] == g;
      assert i == j;
    }
  }

  // The lines asked for, of some.
  ghost function AskedOf(q: Query, t: Terms, all: set<Entry>): set<Entry> {
    set e | e in all && Asked(q, t, e)
  }

  // Lines got of those asked for: in order, each once, and none passed over.
  ghost predicate Got(forwards: bool, asked: set<Entry>, got: seq<Entry>) {
    && Sorted(forwards, got)
    && (forall e <- got :: e in asked)
    && (got != [] ==> forall e <- asked :: e in got || Ahead(forwards, Key(got[|got| - 1]), Key(e)))
  }

  // All of them.
  ghost predicate GotAll(forwards: bool, asked: set<Entry>, got: seq<Entry>) {
    Got(forwards, asked, got) && forall e <- asked :: e in got
  }

  // Those still to come.
  ghost function ToCome(forwards: bool, asked: set<Entry>, got: seq<Entry>): set<Entry> {
    set e | e in asked && (got != [] ==> Ahead(forwards, Key(got[|got| - 1]), Key(e)))
  }

  lemma PageGets(q: Query, t: Terms, all: set<Entry>, page: Page)
    requires IsPage(q, t, all, page)
    ensures Got(q.after.Some?, AskedOf(q, t, all), page.lines)
    ensures !page.full ==> GotAll(q.after.Some?, AskedOf(q, t, all), page.lines)
  {
  }

  lemma GotMore(forwards: bool, asked: set<Entry>, got: seq<Entry>, more: seq<Entry>)
    requires Got(forwards, asked, got) && Got(forwards, ToCome(forwards, asked, got), more)
    ensures Got(forwards, asked, got + more)
    ensures GotAll(forwards, ToCome(forwards, asked, got), more) ==> GotAll(forwards, asked, got + more)
  {
    if got != [] {
      var last := got[|got| - 1];
      forall i, j | 0 <= i < |got| && 0 <= j < |more|
        ensures Ahead(forwards, Key(got[i]), Key(more[j]))
      {
        assert more[j] in more;
        if i < |got| - 1 {
          AheadTransitive(forwards, Key(got[i]), Key(last), Key(more[j]));
        }
      }
      assert forall k :: 0 <= k < |got + more| ==> (got + more)[k] == if k < |got| then got[k] else more[k - |got|];
      forall e <- asked | e !in got && more != [] && e !in more
        ensures Ahead(forwards, Key(more[|more| - 1]), Key(e))
      {
        assert e in ToCome(forwards, asked, got);
      }
    } else {
      assert got + more == more && ToCome(forwards, asked, got) == asked;
    }
  }

  // Every line got is one fewer to come.
  lemma FewerToCome(forwards: bool, asked: set<Entry>, got: seq<Entry>, more: seq<Entry>)
    requires Got(forwards, asked, got) && Got(forwards, ToCome(forwards, asked, got), more) && more != []
    ensures ToCome(forwards, asked, got + more) < ToCome(forwards, asked, got)
  {
    GotMore(forwards, asked, got, more);
    var first, last := more[0], more[|more| - 1];
    assert first in more && last in more && (got + more)[|got + more| - 1] == last;
    LessTotal(Key(last), Key(last));
    forall e <- ToCome(forwards, asked, got + more)
      ensures e in ToCome(forwards, asked, got)
    {
      if got != [] {
        AheadTransitive(forwards, Key(got[|got| - 1]), Key(last), Key(e));
      }
    }
    assert last in ToCome(forwards, asked, got) && last !in ToCome(forwards, asked, got + more);
  }

  function LastOf(got: seq<Entry>, start: Option<Cursor>): Option<Cursor> {
    if got == [] then start else Some(Key(got[|got| - 1]))
  }

  // --- backwards ---

  // The time up to which the lines of a walk back are those of its first page.
  function Horizon(q: Query, hold: int): int {
    match q.until case None => hold case Some(t) => t
  }

  ghost predicate Settled(t: Terms, stores: Growth, horizon: int) {
    forall i: nat :: WellFormed(t.stamp, stores(i)) && GrewAfter(t.stamp, stores(0), stores(i), horizon)
  }

  // A later page is asked for exactly what is still to come.
  lemma AskedLater(q: Query, t: Terms, stores: Growth, i: nat, got: seq<Entry>)
    requires q.after == None && q.before == None && Settled(t, stores, Horizon(q, t.hold))
    requires Got(false, AskedOf(q, t, Entries(t.stamp, stores(0))), got)
    ensures AskedOf(q.(before := LastOf(got, None)), t, Entries(t.stamp, stores(i))) ==
            ToCome(false, AskedOf(q, t, Entries(t.stamp, stores(0))), got)
    ensures Genuine(t.stamp, stores(i), LastOf(got, None))
  {
    assert GrewAfter(t.stamp, stores(0), stores(i), Horizon(q, t.hold)) && WellFormed(t.stamp, stores(i));
    if got != [] {
      var last := got[|got| - 1];
      assert last in got;
      CursorStays(t.stamp, stores(i), last);
    }
  }

  // Following the cursors back from the newest page gets every line asked for
  // that was there when the walk began, newest first, each once; and it ends.
  method WalkBack(stores: Growth, q: Query, t: Terms) returns (got: seq<Entry>)
    requires q.after == None && q.before == None && Settled(t, stores, Horizon(q, t.hold))
    ensures GotAll(false, AskedOf(q, t, Entries(t.stamp, stores(0))), got)
  {
    got := [];
    ghost var asked := AskedOf(q, t, Entries(t.stamp, stores(0)));
    var i: nat, more := 0, true;
    while more
      invariant Got(false, asked, got)
      invariant !more ==> GotAll(false, asked, got)
      decreases ToCome(false, asked, got), more
    {
      AskedLater(q, t, stores, i, got);
      var q' := q.(before := LastOf(got, None));
      var r := Read(stores(i), q', t);
      var page := r.value;
      PageGets(q', t, Entries(t.stamp, stores(i)), page);
      GotMore(false, asked, got, page.lines);
      if page.lines != [] {
        FewerToCome(false, asked, got, page.lines);
      } else {
        assert got + page.lines == got;
      }
      got, more, i := got + page.lines, page.next.Some?, i + 1;
    }
  }

  // --- backwards, over anything that comes meanwhile ---

  // Lines got, in order and each once, of those seen so far; of those due, none
  // was passed over.
  ghost predicate GotDue(due: set<Entry>, seen: set<Entry>, got: seq<Entry>) {
    && Sorted(false, got)
    && (forall e <- got :: e in seen)
    && (got != [] ==> forall e <- due :: e in got || Ahead(false, Key(got[|got| - 1]), Key(e)))
  }

  lemma GotDueMore(due: set<Entry>, was: set<Entry>, now: set<Entry>, got: seq<Entry>, more: seq<Entry>)
    requires GotDue(due, was, got) && was <= now && due <= now && Got(false, ToCome(false, now, got), more)
    ensures GotDue(due, now, got + more)
    ensures GotAll(false, ToCome(false, now, got), more) ==> forall e <- due :: e in got + more
  {
    var some := set e | e in now && (e in got || e in ToCome(false, now, got));
    assert forall e <- got :: e in some;
    assert ToCome(false, some, got) == ToCome(false, now, got);
    GotMore(false, some, got, more);
    assert forall e <- due :: e in some;
  }

  // Following the cursors back for any number of pages, over stores that lose no
  // line whatever they gain, an upper bound still to come included: the lines got
  // are in order, each once, and once there is no next page every line asked for
  // that was there when the walk began is among them.
  method WalkBackOver(stores: Growth, q: Query, t: Terms, pages: nat)
    returns (got: seq<Entry>, more: bool, ghost seen: set<Entry>)
    requires q.after == None && q.before == None
    requires forall i: nat ::
        WellFormed(t.stamp, stores(i)) && Entries(t.stamp, stores(i)) <= Entries(t.stamp, stores(i + 1))
    ensures seen <= AskedOf(q, t, Entries(t.stamp, stores(pages)))
    ensures GotDue(AskedOf(q, t, Entries(t.stamp, stores(0))), seen, got)
    ensures !more ==> forall e <- AskedOf(q, t, Entries(t.stamp, stores(0))) :: e in got
    ensures more ==> |got| >= pages
  {
    got, more, seen := [], true, {};
    ghost var due := AskedOf(q, t, Entries(t.stamp, stores(0)));
    var i := 0;
    while more && i < pages
      invariant i <= pages && due <= AskedOf(q, t, Entries(t.stamp, stores(i)))
      invariant seen <= AskedOf(q, t, Entries(t.stamp, stores(i)))
      invariant (more ==> |got| >= i) && GotDue(due, seen, got) && (!more ==> forall e <- due :: e in got)
    {
      ghost var now := AskedOf(q, t, Entries(t.stamp, stores(i)));
      AskedBefore(q, t, stores(i), seen, got);
      var q' := q.(before := LastOf(got, None));
      var r := Read(stores(i), q', t);
      PageGets(q', t, Entries(t.stamp, stores(i)), r.value);
      GotDueMore(due, seen, now, got, r.value.lines);
      got, more, seen := got + r.value.lines, r.value.next.Some?, now;
      i := i + 1;
    }
    StoresGrow(t.stamp, stores, i, pages);
  }

  lemma {:induction false} StoresGrow(stamp: Stamp, stores: Growth, i: nat, j: nat)
    requires i <= j && forall k: nat :: Entries(stamp, stores(k)) <= Entries(stamp, stores(k + 1))
    ensures Entries(stamp, stores(i)) <= Entries(stamp, stores(j))
    decreases j - i
  {
    if i < j {
      StoresGrow(stamp, stores, i + 1, j);
    }
  }

  // A page before the last line got is asked for what is after it in the walk.
  lemma AskedBefore(q: Query, t: Terms, files: seq<LogFile>, seen: set<Entry>, got: seq<Entry>)
    requires q.after == None && q.before == None && WellFormed(t.stamp, files)
    requires seen <= AskedOf(q, t, Entries(t.stamp, files)) && forall e <- got :: e in seen
    ensures AskedOf(q.(before := LastOf(got, None)), t, Entries(t.stamp, files)) ==
            ToCome(false, AskedOf(q, t, Entries(t.stamp, files)), got)
    ensures Genuine(t.stamp, files, LastOf(got, None))
  {
    if got != [] {
      var last := got[|got| - 1];
      assert last in got;
      CursorStays(t.stamp, files, last);
    }
  }

  // --- forwards ---

  // The stores at each poll, and the hold-back line of each: a line the store
  // gains between two polls is after the line of the first.
  ghost predicate Polled(t: Terms, stores: Growth, holds: nat -> int) {
    forall i: nat ::
      && WellFormed(t.stamp, stores(i)) && holds(i) <= holds(i + 1)
      && GrewAfter(t.stamp, stores(i), stores(i + 1), holds(i))
  }

  function At(t: Terms, holds: nat -> int, i: nat): Terms {
    t.(hold := holds(i))
  }

  // What was got by one poll was not passed over by the next.
  lemma StillGot(q: Query, t: Terms, stores: Growth, holds: nat -> int, i: nat, got: seq<Entry>)
    requires q.after.Some? && q.before == None && Polled(t, stores, holds)
    requires Got(true, AskedOf(q, At(t, holds, i), Entries(t.stamp, stores(i))), got)
    ensures Got(true, AskedOf(q, At(t, holds, i + 1), Entries(t.stamp, stores(i + 1))), got)
  {
    var was := AskedOf(q, At(t, holds, i), Entries(t.stamp, stores(i)));
    var now := AskedOf(q, At(t, holds, i + 1), Entries(t.stamp, stores(i + 1)));
    assert GrewAfter(t.stamp, stores(i), stores(i + 1), holds(i));
    assert was <= now;
    if got != [] {
      assert got[|got| - 1] in got;
      forall e <- now | e !in got
        ensures Ahead(true, Key(got[|got| - 1]), Key(e))
      {
        assert e in was || holds(i) < e.rec.at;
      }
    }
  }

  lemma AskedNext(q: Query, t: Terms, stores: Growth, holds: nat -> int, i: nat, got: seq<Entry>)
    requires q.after.Some? && q.before == None && Polled(t, stores, holds)
    requires Genuine(t.stamp, stores(i), q.after)
    requires Got(true, AskedOf(q, At(t, holds, i), Entries(t.stamp, stores(i))), got)
    ensures AskedOf(q.(after := LastOf(got, q.after)), At(t, holds, i), Entries(t.stamp, stores(i))) ==
            ToCome(true, AskedOf(q, At(t, holds, i), Entries(t.stamp, stores(i))), got)
    ensures Genuine(t.stamp, stores(i), LastOf(got, q.after))
  {
    assert WellFormed(t.stamp, stores(i));
    if got != [] {
      var last := got[|got| - 1];
      assert last in got;
      CursorStays(t.stamp, stores(i), last);
      forall e | Less(Key(last), Key(e))
        ensures Less(q.after.value, Key(e))
      {
        LessTransitive(q.after.value, Key(last), Key(e));
      }
    }
  }

  // Polling forwards gets every line asked for, oldest first, each once; and
  // after a page that is not full, all of those not held back.
  method Poll(stores: Growth, holds: nat -> int, q: Query, t: Terms, polls: nat) returns (got: seq<Entry>, full: bool)
    requires q.after.Some? && q.before == None && Polled(t, stores, holds)
    requires forall i: nat :: Genuine(t.stamp, stores(i), q.after)
    ensures Got(true, AskedOf(q, At(t, holds, polls), Entries(t.stamp, stores(polls))), got)
    ensures !full ==> GotAll(true, AskedOf(q, At(t, holds, polls), Entries(t.stamp, stores(polls))), got)
  {
    got, full := [], true;
    var cursor := q.after;
    for i := 0 to polls + 1
      invariant cursor == LastOf(got, q.after)
      invariant i <= polls ==> Got(true, AskedOf(q, At(t, holds, i), Entries(t.stamp, stores(i))), got)
      invariant i == polls + 1 ==> Got(true, AskedOf(q, At(t, holds, polls), Entries(t.stamp, stores(polls))), got)
      invariant i == polls + 1 && !full ==>
          GotAll(true, AskedOf(q, At(t, holds, polls), Entries(t.stamp, stores(polls))), got)
    {
      AskedNext(q, t, stores, holds, i, got);
      var q' := q.(after := cursor);
      var r := Read(stores(i), q', At(t, holds, i));
      var page := r.value;
      PageGets(q', At(t, holds, i), Entries(t.stamp, stores(i)), page);
      GotMore(true, AskedOf(q, At(t, holds, i), Entries(t.stamp, stores(i))), got, page.lines);
      assert page.lines == [] ==> got + page.lines == got;
      got, full := got + page.lines, page.full;
      if page.next.Some? {
        cursor := page.next;
      }
      if i < polls {
        StillGot(q, t, stores, holds, i, got);
      }
    }
  }
}
