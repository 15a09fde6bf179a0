// The lines of a day file of pkg/logstore, and the two readers of them: forwards
// from a line start, and backwards by chunks of 64 KiB.
module LogLines {
  import opened Wrappers

  newtype byte = b: int | 0 <= b < 256

  type Bytes = seq<byte>

  // How a timestamp reads: nothing when it does not parse.
  type Stamp = Bytes -> Option<int>

  const NL: byte := 10
  const Space: byte := 32
  const Out: byte := 111
  const Err: byte := 101

  const ReadChunk: nat := 65536
  const MaxReadLine: nat := 1048576

  // A line as a reader gives it: `start` is the offset of its first byte.
  datatype Rec = Rec(at: int, start: nat, stream: byte, text: Bytes)

  // No b in s[lo..hi].
  predicate Without(s: Bytes, b: byte, lo: nat, hi: nat)
    requires hi <= |s|
  {
    forall k :: lo <= k < hi ==> s[k] != b
  }

  // The first b in s[lo..hi], or hi.
  function IndexOf(s: Bytes, b: byte, lo: nat, hi: nat): (k: nat)
    requires lo <= hi <= |s|
    ensures lo <= k <= hi && Without(s, b, lo, k)
    ensures k < hi ==> s[k] == b
    decreases hi - lo
  {
    if lo == hi || s[lo] == b then lo else IndexOf(s, b, lo + 1, hi)
  }

  lemma IndexIs(s: Bytes, b: byte, lo: nat, k: nat, hi: nat)
    requires lo <= k <= hi <= |s| && Without(s, b, lo, k) && (k < hi ==> s[k] == b)
    ensures IndexOf(s, b, lo, hi) == k
  {
  }

  // One past the last b in s[..hi], or 0.
  function PastLast(s: Bytes, b: byte, hi: nat): (k: nat)
    requires hi <= |s|
    ensures k <= hi && Without(s, b, k, hi)
    ensures 0 < k ==> s[k - 1] == b
  {
    if hi == 0 || s[hi - 1] == b then hi else PastLast(s, b, hi - 1)
  }

  // How the readers read a line and its start.
  type Parser = (Bytes, nat) -> Option<Rec>

  // A parser says where the line it read starts.
  ghost predicate Marks(parse: Parser) {
    forall b, start :: parse(b, start).Some? ==> parse(b, start).value.start == start
  }

  // The record in a line that starts at `start`; its newline is not in b.
  function ParseRaw(stamp: Stamp, b: Bytes, start: nat): Option<Rec> {
    var i := IndexOf(b, Space, 0, |b|);
    if i == |b| || |b| < i + 3 || (b[i + 1] != Out && b[i + 1] != Err) || b[i + 2] != Space then None
    else match stamp(b[..i])
      case None => None
      case Some(at) => Some(Rec(at, start, b[i + 1], b[i + 3..]))
  }

  function Listed<T>(o: Option<T>): seq<T> {
    match o
    case None => []
    case Some(v) => [v]
  }

  // The complete lines of file[lo..hi] from the line start lo on, those that parse.
  function LinesIn(parse: Parser, file: Bytes, lo: nat, hi: nat): seq<Rec>
    requires lo <= hi <= |file|
    decreases hi - lo
  {
    var nl := IndexOf(file, NL, lo, hi);
    if nl == hi then []
    else LineAt(parse, file, lo, nl) + LinesIn(parse, file, nl + 1, hi)
  }

  // The line file[lo..nl], if it parses.
  function LineAt(parse: Parser, file: Bytes, lo: nat, nl: nat): seq<Rec>
    requires lo <= nl <= |file|
  {
    Listed(parse(file[lo..nl], lo))
  }

  lemma LinesUnfold(parse: Parser, file: Bytes, lo: nat, nl: nat, hi: nat)
    requires lo <= nl <= hi <= |file| && Without(file, NL, lo, nl) && (nl < hi ==> file[nl] == NL)
    ensures LinesIn(parse, file, lo, hi) ==
            if nl == hi then [] else LineAt(parse, file, lo, nl) + LinesIn(parse, file, nl + 1, hi)
  {
    IndexIs(file, NL, lo, nl, hi);
  }

  predicate LineStart(file: Bytes, i: nat) {
    i <= |file| && (i == 0 || file[i - 1] == NL)
  }

  // No line is longer than what the readers keep of one.
  ghost predicate NoLongLine(file: Bytes) {
    forall i: nat, j: nat :: j <= |file| && Without(file, NL, i, j) ==> j <= i + MaxReadLine
  }

  lemma Associative<T>(r: seq<T>, s: seq<T>, t: seq<T>)
    ensures r + (s + t) == (r + s) + t
  {
  }

  lemma Regroup<T>(whole: seq<T>, front: seq<T>, back: seq<T>, r: seq<T>, s: seq<T>, t: seq<T>)
    requires whole == r + back && back == s + t && front == r + s
    ensures whole == front + t
  {
  }

  lemma LinesStep(parse: Parser, file: Bytes, lo: nat, nl: nat, next: nat, hi: nat)
    requires lo <= nl < hi <= |file| && next == nl + 1 && Without(file, NL, lo, nl) && file[nl] == NL
    ensures LinesIn(parse, file, lo, hi) == LineAt(parse, file, lo, nl) + LinesIn(parse, file, next, hi)
  {
    IndexIs(file, NL, lo, nl, hi);
  }

  // Both sides of a split begin with the same line.
  lemma SplitStep(parse: Parser, file: Bytes, lo: nat, nl: nat, next: nat, mid: nat, hi: nat)
    requires lo <= nl < mid <= hi <= |file| && next == nl + 1 && Without(file, NL, lo, nl) && file[nl] == NL
    requires LinesIn(parse, file, next, hi) == LinesIn(parse, file, next, mid) + LinesIn(parse, file, mid, hi)
    ensures LinesIn(parse, file, lo, hi) == LinesIn(parse, file, lo, mid) + LinesIn(parse, file, mid, hi)
  {
    LinesStep(parse, file, lo, nl, next, mid);
    LinesStep(parse, file, lo, nl, next, hi);
    Regroup(LinesIn(parse, file, lo, hi), LinesIn(parse, file, lo, mid), LinesIn(parse, file, next, hi),
            LineAt(parse, file, lo, nl), LinesIn(parse, file, next, mid), LinesIn(parse, file, mid, hi));
  }

  lemma NoLines(parse: Parser, file: Bytes, lo: nat)
    requires lo <= |file|
    ensures LinesIn(parse, file, lo, lo) == []
  {
  }

  // Lines split at any line start.
  lemma {:induction false} LinesSplit(parse: Parser, file: Bytes, lo: nat, mid: nat, hi: nat)
    requires lo <= mid <= hi <= |file|
    requires mid == lo || file[mid - 1] == NL
    ensures LinesIn(parse, file, lo, hi) == LinesIn(parse, file, lo, mid) + LinesIn(parse, file, mid, hi)
    decreases mid - lo
  {
    if lo == mid {
      NoLines(parse, file, lo);
    } else {
      var nl := IndexOf(file, NL, lo, mid);
      var next := nl + 1;
      LinesSplit(parse, file, next, mid, hi);
      SplitStep(parse, file, lo, nl, next, mid, hi);
    }
  }

  // What follows the last newline is no complete line.
  lemma {:induction false} LinesTrim(parse: Parser, file: Bytes, lo: nat, mid: nat, hi: nat)
    requires lo <= mid <= hi <= |file|
    requires Without(file, NL, mid, hi)
    ensures LinesIn(parse, file, lo, hi) == LinesIn(parse, file, lo, mid)
    decreases mid - lo
  {
    var nl := IndexOf(file, NL, lo, mid);
    if nl < mid {
      IndexIs(file, NL, lo, nl, hi);
      LinesTrim(parse, file, nl + 1, mid, hi);
    } else {
      IndexIs(file, NL, lo, hi, hi);
    }
  }

  // One line, whose newline is the last byte.
  lemma LinesOne(parse: Parser, file: Bytes, lo: nat, hi: nat)
    requires lo < hi <= |file| && file[hi - 1] == NL
    requires Without(file, NL, lo, hi - 1)
    ensures LinesIn(parse, file, lo, hi) == LineAt(parse, file, lo, hi - 1)
  {
    LinesUnfold(parse, file, lo, hi - 1, hi);
    LinesUnfold(parse, file, hi, hi, hi);
  }

  lemma GrowStep(parse: Parser, file: Bytes, whole: Bytes, lo: nat, nl: nat, next: nat, hi: nat)
    requires lo <= nl < hi <= |file| && next == nl + 1 && Without(file, NL, lo, nl) && file[nl] == NL
    requires file <= whole && LinesIn(parse, whole, next, hi) == LinesIn(parse, file, next, hi)
    ensures LinesIn(parse, whole, lo, hi) == LinesIn(parse, file, lo, hi)
  {
    assert whole[lo..nl] == file[lo..nl];
    LinesStep(parse, file, lo, nl, next, hi);
    LinesStep(parse, whole, lo, nl, next, hi);
  }

  // A file that grew keeps its lines.
  lemma {:induction false} LinesGrow(parse: Parser, file: Bytes, whole: Bytes, lo: nat, hi: nat)
    requires lo <= hi <= |file| && file <= whole
    ensures LinesIn(parse, whole, lo, hi) == LinesIn(parse, file, lo, hi)
    decreases hi - lo
  {
    var nl := IndexOf(file, NL, lo, hi);
    if nl < hi {
      var next := nl + 1;
      LinesGrow(parse, file, whole, next, hi);
      GrowStep(parse, file, whole, lo, nl, next, hi);
    } else {
      IndexIs(whole, NL, lo, nl, hi);
    }
  }

  // Records in the order of their starts, each at a line start of file[lo..hi].
  predicate Starts(file: Bytes, s: seq<Rec>, lo: nat, hi: nat) {
    && (forall i :: 0 <= i < |s| ==> lo <= s[i].start < hi && LineStart(file, s[i].start))
    && (forall i, j :: 0 <= i < j < |s| ==> s[i].start < s[j].start)
  }

  lemma StartsBefore(file: Bytes, r: seq<Rec>, s: seq<Rec>, lo: nat, mid: nat, hi: nat)
    requires |r| <= 1 && lo < mid <= hi && Starts(file, s, mid, hi) && LineStart(file, lo)
    requires r != [] ==> r[0].start == lo
    ensures Starts(file, r + s, lo, hi)
  {
    if r == [] {
      assert r + s == s;
    } else {
      StartsAfter(file, r[0], s, lo, mid, hi);
      assert r == [r[0]];
    }
  }

  lemma StartsAfter(file: Bytes, r: Rec, s: seq<Rec>, lo: nat, mid: nat, hi: nat)
    requires r.start == lo < mid <= hi && Starts(file, s, mid, hi) && LineStart(file, lo)
    ensures Starts(file, [r] + s, lo, hi)
  {
    var all := [r] + s;
    forall i | 0 <= i < |all|
      ensures lo <= all[i].start < hi && LineStart(file, all[i].start) && (i > 0 ==> mid <= all[i].start)
    {
      if i > 0 {
        assert all[i] == s[i - 1];
      }
    }
    forall i, j | 0 <= i < j < |all|
      ensures all[i].start < all[j].start
    {
      assert all[j] == s[j - 1];
      if i > 0 {
        assert all[i] == s[i - 1];
      }
    }
  }

  lemma OrderedStep(parse: Parser, file: Bytes, lo: nat, nl: nat, next: nat, hi: nat)
    requires lo <= nl < hi <= |file| && next == nl + 1 && Without(file, NL, lo, nl) && file[nl] == NL
    requires Marks(parse) && LineStart(file, lo) && Starts(file, LinesIn(parse, file, next, hi), next, hi)
    ensures Starts(file, LinesIn(parse, file, lo, hi), lo, hi)
  {
    LinesStep(parse, file, lo, nl, next, hi);
    StartsBefore(file, LineAt(parse, file, lo, nl), LinesIn(parse, file, next, hi), lo, next, hi);
  }

  lemma {:induction false} LinesOrdered(parse: Parser, file: Bytes, lo: nat, hi: nat)
    requires Marks(parse) && lo <= hi <= |file| && LineStart(file, lo)
    ensures Starts(file, LinesIn(parse, file, lo, hi), lo, hi)
    decreases hi - lo
  {
    var nl := IndexOf(file, NL, lo, hi);
    if nl < hi {
      var next := nl + 1;
      LinesOrdered(parse, file, next, hi);
      OrderedStep(parse, file, lo, nl, next, hi);
    }
  }

  // --- forwards ---

  class FwdReader {
    const parse: Parser
    const file: Bytes
    var pos: nat

    ghost predicate Valid()
      reads this
    {
      pos <= |file|
    }

    // What is left to read.
    ghost function Rest(): seq<Rec>
      reads this
      requires Valid()
    {
      LinesIn(parse, file, pos, |file|)
    }

    constructor (parse: Parser, file: Bytes, start: nat)
      requires start <= |file|
      ensures Valid() && this.file == file && this.parse == parse && pos == start
    {
      this.parse, this.file, pos := parse, file, start;
    }

    // The next line that parses; a last line without its newline is still
    // being written.
    method Next() returns (r: Option<Rec>)
      requires Valid()
      modifies this
      ensures Valid()
      ensures old(Rest()) == Listed(r) + Rest()
      ensures r.None? ==> old(Rest()) == []
    {
      r := None;
      while true
        invariant Valid() && r == None && Rest() == old(Rest())
        decreases |file| - pos
      {
        var start := pos;
        var nl := IndexOf(file, NL, start, |file|);
        if nl == |file| {
          pos := nl;
          return;
        }
        pos := nl + 1;
        r := parse(file[start..nl], start);
        if r.Some? {
          return;
        }
      }
    }
  }

  // --- backwards ---

  // A line cut to what is kept of it while the bytes before it are read.
  function Kept(keep: Bytes): Bytes {
    if |keep| > MaxReadLine then keep[..MaxReadLine] + [NL] else keep
  }

  // buf is what file holds from off on.
  predicate Holds(file: Bytes, off: nat, buf: Bytes) {
    off + |buf| <= |file| && forall k :: 0 <= k < |buf| ==> buf[k] == file[off + k]
  }

  lemma HoldsSlice(file: Bytes, off: nat, buf: Bytes, lo: nat, hi: nat)
    requires Holds(file, off, buf) && lo <= hi <= |buf|
    ensures buf[lo..hi] == file[off + lo..off + hi]
    ensures Holds(file, off + lo, buf[lo..hi])
  {
  }

  // Whole lines read from off on: the last byte is a newline.
  predicate Buffered(file: Bytes, off: nat, buf: Bytes) {
    && Holds(file, off, buf)
    && (buf != [] ==> buf[|buf| - 1] == NL)
  }

  // The buffer holds the tail of one line only.
  predicate Tail(buf: Bytes) {
    buf == [] || Without(buf, NL, 0, |buf| - 1)
  }

  lemma WithoutThere(file: Bytes, off: nat, buf: Bytes, lo: nat, hi: nat)
    requires Holds(file, off, buf) && hi <= |buf| && Without(buf, NL, lo, hi)
    ensures Without(file, NL, off + lo, off + hi)
  {
    forall k | off + lo <= k < off + hi
      ensures file[k] != NL
    {
      assert buf[k - off] != NL;
    }
  }

  // The last line of the buffer is the last line left.
  lemma LastOfBuffer(
      parse: Parser, file: Bytes, off: nat, buf: Bytes, line: Bytes, start: nat, j: nat, upTo: nat)
    requires Buffered(file, off, buf) && j < |buf| && Without(buf, NL, j, |buf| - 1)
    requires if j == 0 then off == 0 else buf[j - 1] == NL
    requires upTo == off + |buf| && line == buf[j..|buf| - 1] && start == off + j
    ensures LinesIn(parse, file, 0, upTo) == LinesIn(parse, file, 0, start) + Listed(parse(line, start))
    ensures Buffered(file, off, buf[..j])
  {
    LineInFile(file, off, buf, line, start, j, upTo);
    LinesSplit(parse, file, 0, start, upTo);
    LinesOne(parse, file, start, upTo);
  }

  lemma LineInFile(file: Bytes, off: nat, buf: Bytes, line: Bytes, start: nat, j: nat, upTo: nat)
    requires Buffered(file, off, buf) && j < |buf| && Without(buf, NL, j, |buf| - 1)
    requires j == 0 || buf[j - 1] == NL
    requires upTo == off + |buf| && line == buf[j..|buf| - 1] && start == off + j
    ensures line == file[start..upTo - 1] && Without(file, NL, start, upTo - 1) && file[upTo - 1] == NL
    ensures start == 0 || j == 0 || file[start - 1] == NL
    ensures Buffered(file, off, buf[..j])
  {
    WithoutThere(file, off, buf, j, |buf| - 1);
    HoldsSlice(file, off, buf, j, |buf| - 1);
    HoldsSlice(file, off, buf, 0, j);
  }

  lemma HoldsBefore(file: Bytes, off: nat, n: nat, keep: Bytes)
    requires Holds(file, off, keep) && n <= off
    ensures Holds(file, off - n, file[off - n..off] + keep)
    ensures |file[off - n..off] + keep| == n + |keep|
    ensures keep != [] ==> (file[off - n..off] + keep)[n + |keep| - 1] == keep[|keep| - 1]
  {
  }

  // The bytes after the last newline belong to no complete line.
  lemma TrimBuffer(parse: Parser, file: Bytes, off: nat, b: Bytes, i: nat, now: nat, upTo: nat)
    requires Holds(file, off, b) && i <= |b| && Without(b, NL, i, |b|) && (0 < i ==> b[i - 1] == NL)
    requires now == off + i && upTo == off + |b|
    ensures Buffered(file, off, b[..i])
    ensures LinesIn(parse, file, 0, now) == LinesIn(parse, file, 0, upTo)
  {
    WithoutThere(file, off, b, i, |b|);
    LinesTrim(parse, file, 0, now, upTo);
    HoldsSlice(file, off, b, 0, i);
  }

  // Nothing is cut from a line the readers keep whole.
  lemma KeptWhole(file: Bytes, off: nat, buf: Bytes)
    requires NoLongLine(file) && Buffered(file, off, buf) && Tail(buf)
    ensures Kept(buf) == buf
  {
    if |buf| > MaxReadLine {
      WithoutThere(file, off, buf, 0, |buf| - 1);
    }
  }

  class RevReader {
    const parse: Parser
    const file: Bytes
    var off: nat       // file[..off] is not read yet
    var buf: Bytes     // whole lines from off on, not returned yet
    var trimmed: bool  // the bytes after the last newline were dropped
    ghost var upTo: nat // the end of the buffer in the file

    ghost predicate Valid()
      reads this
    {
      && NoLongLine(file) && Buffered(file, off, buf) && upTo == off + |buf|
      && if trimmed then buf == [] ==> off == 0 else buf == []
    }

    // What is left to read, in the order of the file.
    ghost function Rest(): seq<Rec>
      reads this
      requires Valid()
    {
      LinesIn(parse, file, 0, upTo)
    }

    constructor (parse: Parser, file: Bytes, end: nat)
      requires end <= |file| && NoLongLine(file)
      ensures Valid() && this.file == file && this.parse == parse
      ensures Rest() == LinesIn(parse, file, 0, end)
    {
      this.parse, this.file := parse, file;
      off, buf, trimmed, upTo := end, [], false, end;
    }

    // The last of the lines left.
    method Next() returns (r: Option<Rec>)
      requires Valid()
      modifies this
      ensures Valid()
      ensures old(Rest()) == Rest() + Listed(r)
      ensures r.None? ==> old(Rest()) == []
    {
      r := None;
      while true
        invariant Valid() && r == None && Rest() == old(Rest())
        decreases off, |buf|
      {
        if buf == [] && off == 0 {
          return;
        }
        var j := if buf == [] then 0 else PastLast(buf, NL, |buf| - 1);
        if j == 0 && (off > 0 || !trimmed) {
          Fill();
        } else {
          r := TakeLast(j);
          if r.Some? {
            return;
          }
        }
      }
    }

    // The line from j to the end of the buffer.
    method TakeLast(j: nat) returns (r: Option<Rec>)
      requires Valid() && j < |buf| && Without(buf, NL, j, |buf| - 1)
      requires if j == 0 then off == 0 && trimmed else buf[j - 1] == NL
      modifies `buf, `upTo
      ensures Valid() && off == old(off) && |buf| < |old(buf)|
      ensures old(Rest()) == Rest() + Listed(r)
    {
      var line, start := buf[j..|buf| - 1], off + j;
      LastOfBuffer(parse, file, off, buf, line, start, j, upTo);
      buf, upTo := buf[..j], start;
      r := parse(line, start);
    }

    // The previous chunk, read in front of the tail of a line.
    method Fill()
      requires Valid() && off > 0 && Tail(buf)
      modifies this
      ensures Valid() && off < old(off)
      ensures Rest() == old(Rest())
    {
      KeptWhole(file, off, buf);
      var n := if off < ReadChunk then off else ReadChunk;
      var b;
      b, upTo := ReadBefore(parse, file, off, Kept(buf), n, trimmed, upTo);
      trimmed := trimmed || b != [] || off == n;
      off, buf := off - n, b;
    }
  }

  // The n bytes before off and what is kept of the line after them; the bytes
  // after the last newline are dropped once.
  method ReadBefore(
      parse: Parser, file: Bytes, off: nat, keep: Bytes, n: nat, trimmed: bool, ghost upTo: nat)
      returns (b: Bytes, ghost now: nat)
    requires Buffered(file, off, keep) && n <= off && (if trimmed then keep != [] else keep == [])
    requires upTo == off + |keep|
    ensures Buffered(file, off - n, b) && now == off - n + |b|
    ensures LinesIn(parse, file, 0, now) == LinesIn(parse, file, 0, upTo)
    ensures trimmed ==> b != []
  {
    b := file[off - n..off] + keep;
    HoldsBefore(file, off, n, keep);
    if !trimmed {
      var i := PastLast(b, NL, |b|);
      now := off - n + i;
      TrimBuffer(parse, file, off - n, b, i, now, upTo);
      b := b[..i];
    } else {
      now := upTo;
    }
  }

  function Reverse<T>(s: seq<T>): seq<T> {
    if s == [] then [] else Reverse(s[1..]) + [s[0]]
  }

  lemma {:induction false} ReverseSnoc<T>(s: seq<T>, x: T)
    ensures Reverse(s + [x]) == [x] + Reverse(s)
    decreases |s|
  {
    if s == [] {
      assert s + [x] == [x];
    } else {
      assert (s + [x])[1..] == s[1..] + [x];
      ReverseSnoc(s[1..], x);
    }
  }

  lemma {:induction false} ReverseAt<T>(s: seq<T>, k: nat)
    requires k < |s|
    ensures |Reverse(s)| == |s| && Reverse(s)[k] == s[|s| - 1 - k]
  {
    if |s| > 1 {
      ReverseAt(s[1..], if k < |s| - 1 then k else 0);
    }
  }

  // Every line before end, read backwards: the reverse of what is read
  // forwards, whatever the bytes and wherever the chunks fall.
  method ReadBackwards(parse: Parser, file: Bytes, end: nat) returns (all: seq<Rec>)
    requires end <= |file| && NoLongLine(file)
    ensures all == Reverse(LinesIn(parse, file, 0, end))
  {
    var reader := new RevReader(parse, file, end);
    all := [];
    while true
      invariant fresh(reader) && reader.Valid()
      invariant Reverse(LinesIn(parse, file, 0, end)) == all + Reverse(reader.Rest())
      decreases |reader.Rest()|
    {
      var r := reader.Next();
      if r.None? {
        return;
      }
      ReverseSnoc(reader.Rest(), r.value);
      all := all + [r.value];
    }
  }

  method ReadForwards(parse: Parser, file: Bytes, start: nat) returns (all: seq<Rec>)
    requires start <= |file|
    ensures all == LinesIn(parse, file, start, |file|)
  {
    var reader := new FwdReader(parse, file, start);
    all := [];
    while true
      invariant fresh(reader) && reader.Valid()
      invariant LinesIn(parse, file, start, |file|) == all + reader.Rest()
      decreases |reader.Rest()|
    {
      var r := reader.Next();
      if r.None? {
        return;
      }
      all := all + [r.value];
    }
  }
}
