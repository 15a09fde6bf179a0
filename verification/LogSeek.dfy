// Where a forwards read starts in a day file: a binary search on the timestamps.
module LogSeek {
  import opened Wrappers
  import opened LogLines

  // What lineFrom reads of a line's start to find its timestamp.
  const HeadBytes: nat := 64
  const Block: nat := 4096

  function HeadEnd(file: Bytes, s: nat): (e: nat)
    requires s <= |file|
    ensures s <= e <= |file|
  {
    if |file| - s < HeadBytes then |file| else s + HeadBytes
  }

  // The time of the line that starts at s, read from its first bytes.
  function TimeAt(stamp: Stamp, file: Bytes, s: nat): Option<int>
    requires s <= |file|
  {
    var i := IndexOf(file, Space, s, HeadEnd(file, s));
    if i == HeadEnd(file, s) then None else stamp(file[s..i])
  }

  // A line's newline is written: only then is it a line for the readers.
  predicate Complete(file: Bytes, s: nat) {
    LineStart(file, s) && IndexOf(file, NL, s, |file|) < |file|
  }

  // Where a line starts and a time reads.
  predicate TimedStart(stamp: Stamp, file: Bytes, s: nat) {
    LineStart(file, s) && TimeAt(stamp, file, s).Some?
  }

  // The lines are in time order, as the writer appends them.
  ghost predicate InTimeOrder(stamp: Stamp, file: Bytes) {
    forall r: nat, s: nat :: r < s && TimedStart(stamp, file, r) && TimedStart(stamp, file, s) ==>
      TimeAt(stamp, file, r).value <= TimeAt(stamp, file, s).value
  }

  ghost predicate AllTimed(stamp: Stamp, file: Bytes) {
    forall s: nat :: Complete(file, s) ==> TimedStart(stamp, file, s)
  }

  // Every line that starts before s is before t.
  ghost predicate EarlierBefore(stamp: Stamp, file: Bytes, s: nat, t: int) {
    forall r: nat :: r < s && TimedStart(stamp, file, r) ==> TimeAt(stamp, file, r).value < t
  }

  // No complete line that starts at hi or after is before t.
  ghost predicate LaterFrom(stamp: Stamp, file: Bytes, hi: nat, t: int) {
    forall s: nat :: hi <= s && Complete(file, s) && TimedStart(stamp, file, s) ==> t <= TimeAt(stamp, file, s).value
  }

  // lineFrom: the first line that starts at off or after, and its time.
  method LineFrom(stamp: Stamp, file: Bytes, off: nat) returns (start: nat, at: Option<int>)
    requires 0 < off <= |file|
    ensures at.Some? ==> off <= start && TimedStart(stamp, file, start) && TimeAt(stamp, file, start) == at
    ensures at.Some? ==> Without(file, NL, off - 1, start - 1)
    ensures at.None? ==> forall s: nat :: off <= s && Complete(file, s) ==>
              exists r: nat :: off <= r && Complete(file, r) && TimeAt(stamp, file, r).None?
  {
    var pos := off - 1;
    var nl := pos;
    while true
      invariant off - 1 <= pos <= |file| && Without(file, NL, off - 1, pos)
      decreases |file| - pos
    {
      var n := if |file| - pos < Block then |file| - pos else Block;
      nl := IndexOf(file, NL, pos, pos + n);
      if nl < pos + n {
        break;
      }
      if n < Block {
        NoLineFrom(file, off);
        return 0, None;
      }
      pos := pos + n;
    }
    start := nl + 1;
    at := TimeAt(stamp, file, start);
    if at.None? {
      FirstLineFrom(file, off, start);
    }
  }

  lemma NoLineFrom(file: Bytes, off: nat)
    requires 0 < off <= |file| && Without(file, NL, off - 1, |file|)
    ensures forall s: nat :: off <= s ==> !Complete(file, s)
  {
  }

  // The line at start is the first from off on, and complete when another follows.
  lemma FirstLineFrom(file: Bytes, off: nat, start: nat)
    requires 0 < off <= start && LineStart(file, start) && Without(file, NL, off - 1, start - 1)
    ensures forall s: nat :: off <= s && LineStart(file, s) ==> start <= s
    ensures forall s: nat :: off <= s && Complete(file, s) ==> Complete(file, start)
  {
    forall s: nat | off <= s && LineStart(file, s)
      ensures start <= s && (Complete(file, s) ==> Complete(file, start))
    {
      assert file[s - 1] == NL;
      if start < s {
        assert !Without(file, NL, start, |file|);
      }
    }
  }

  // seekTime: a line start no later than the file's first line at or after t.
  // With every line timed and in order, the last line before t starts less than
  // a chunk after it.
  method SeekTime(stamp: Stamp, file: Bytes, t: int) returns (lo: nat)
    ensures LineStart(file, lo)
    ensures InTimeOrder(stamp, file) ==> EarlierBefore(stamp, file, lo, t)
    ensures InTimeOrder(stamp, file) && AllTimed(stamp, file) ==> LaterFrom(stamp, file, lo + ReadChunk, t)
  {
    lo := 0;
    var hi := |file|;
    while hi - lo > ReadChunk
      invariant lo <= hi <= |file| && LineStart(file, lo)
      invariant InTimeOrder(stamp, file) ==> EarlierBefore(stamp, file, lo, t)
      invariant InTimeOrder(stamp, file) && AllTimed(stamp, file) ==> LaterFrom(stamp, file, hi, t)
      decreases hi - lo
    {
      var mid := lo + (hi - lo) / 2;
      var s, at := LineFrom(stamp, file, mid);
      if at.Some? {
        FirstLineFrom(file, mid, s);
      }
      if at.Some? && s < hi && at.value < t {
        lo := s;
      } else {
        hi := mid;
      }
    }
  }

  // --- what the time of a line is worth to the readers ---

  function RawParser(stamp: Stamp): Parser {
    (b: Bytes, start: nat) => ParseRaw(stamp, b, start)
  }

  // A timestamp is shorter than what lineFrom reads.
  ghost predicate ShortStamps(stamp: Stamp) {
    forall b :: stamp(b).Some? ==> |b| < HeadBytes
  }

  lemma IndexInSlice(s: Bytes, b: byte, lo: nat, hi: nat)
    requires lo <= hi <= |s|
    ensures IndexOf(s, b, lo, hi) == lo + IndexOf(s[lo..hi], b, 0, hi - lo)
  {
    var k := IndexOf(s[lo..hi], b, 0, hi - lo);
    forall j | lo <= j < lo + k
      ensures s[j] != b
    {
      assert s[lo..hi][j - lo] != b;
    }
    IndexIs(s, b, lo, lo + k, hi);
  }

  // The time a reader reads of a line is the one the search reads.
  lemma ParsedTime(stamp: Stamp, file: Bytes, lo: nat, nl: nat)
    requires ShortStamps(stamp) && lo <= nl <= |file| && LineStart(file, lo)
    ensures var r := ParseRaw(stamp, file[lo..nl], lo);
      r.Some? ==> r.value.start == lo && TimedStart(stamp, file, lo) && TimeAt(stamp, file, lo) == Some(r.value.at)
  {
    var r := ParseRaw(stamp, file[lo..nl], lo);
    if r.Some? {
      IndexInSlice(file, Space, lo, nl);
      var i := IndexOf(file, Space, lo, nl);
      assert file[lo..nl][..i - lo] == file[lo..i];
      assert |file[lo..i]| < HeadBytes;
      IndexIs(file, Space, lo, i, HeadEnd(file, lo));
    }
  }

  // A record carries the time of its line.
  predicate Timed(stamp: Stamp, file: Bytes, r: Rec) {
    TimedStart(stamp, file, r.start) && TimeAt(stamp, file, r.start) == Some(r.at)
  }

  lemma {:induction false} LinesTimed(stamp: Stamp, file: Bytes, lo: nat, hi: nat)
    requires ShortStamps(stamp) && lo <= hi <= |file| && LineStart(file, lo)
    ensures forall r <- LinesIn(RawParser(stamp), file, lo, hi) :: Timed(stamp, file, r)
    decreases hi - lo
  {
    var nl := IndexOf(file, NL, lo, hi);
    if nl < hi {
      ParsedTime(stamp, file, lo, nl);
      LinesTimed(stamp, file, nl + 1, hi);
    }
  }

  // Read from where the search says, no line at or after t is missed; and the
  // records of a file are in time order.
  lemma SeekMissesNone(stamp: Stamp, file: Bytes, lo: nat, t: int)
    requires ShortStamps(stamp) && LineStart(file, lo) && EarlierBefore(stamp, file, lo, t)
    ensures LinesIn(RawParser(stamp), file, 0, |file|) ==
            LinesIn(RawParser(stamp), file, 0, lo) + LinesIn(RawParser(stamp), file, lo, |file|)
    ensures forall r <- LinesIn(RawParser(stamp), file, 0, lo) :: r.at < t
  {
    LinesSplit(RawParser(stamp), file, 0, lo, |file|);
    LinesTimed(stamp, file, 0, lo);
    LinesOrdered(RawParser(stamp), file, 0, lo);
    var all := LinesIn(RawParser(stamp), file, 0, lo);
    forall r | r in all
      ensures r.at < t
    {
      var i :| 0 <= i < |all| && all[i] == r;
      assert r.start < lo;
    }
  }

  // Lines as a file has them.
  predicate InOrder(s: seq<Rec>) {
    forall i, j :: 0 <= i < j < |s| ==> s[i].at <= s[j].at && s[i].start < s[j].start
  }

  lemma RecordsInOrder(stamp: Stamp, file: Bytes, lo: nat, hi: nat)
    requires ShortStamps(stamp) && InTimeOrder(stamp, file) && lo <= hi <= |file| && LineStart(file, lo)
    ensures InOrder(LinesIn(RawParser(stamp), file, lo, hi))
    ensures forall r <- LinesIn(RawParser(stamp), file, lo, hi) :: lo <= r.start < hi
  {
    LinesTimed(stamp, file, lo, hi);
    LinesOrdered(RawParser(stamp), file, lo, hi);
    var all := LinesIn(RawParser(stamp), file, lo, hi);
    forall i, j | 0 <= i < j < |all|
      ensures all[i].at <= all[j].at
    {
      assert Timed(stamp, file, all[i]) && Timed(stamp, file, all[j]);
    }
  }

  // Lines in order, on both sides of an offset that one of them starts at.
  lemma InOrderAround(pre: seq<Rec>, post: seq<Rec>, c: Rec)
    requires InOrder(pre + post) && c in pre + post
    requires (forall r <- pre :: r.start < c.start) && (forall r <- post :: c.start <= r.start)
    ensures InOrder(pre) && InOrder(post)
    ensures forall r <- pre :: r.at <= c.at
    ensures forall r <- post :: c.at <= r.at
  {
    var all := pre + post;
    assert forall i :: 0 <= i < |pre| ==> all[i] == pre[i];
    assert forall i :: 0 <= i < |post| ==> all[|pre| + i] == post[i];
    var k :| 0 <= k < |all| && all[k] == c;
    assert k >= |pre|;
    forall r | r in post
      ensures c.at <= r.at
    {
      var i :| 0 <= i < |post| && post[i] == r;
      assert all[|pre| + i] == r;
    }
  }
}
