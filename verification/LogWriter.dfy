// The writer of one container's lines, and what its readers rely on: every file
// holds the lines of its day, whole, in the order they were written.
module LogWriter {
  import opened Wrappers
  import opened LogLines
  import opened LogSeek
  import opened LogPager

  const MaxLineBytes: nat := 16384
  const FlushThreshold: nat := 65536
  const CR: byte := 13

  // " …[tronqué]"
  const TruncatedMark: Bytes := [32, 226, 128, 166, 91, 116, 114, 111, 110, 113, 117, 195, 169, 93]

  // A byte that starts a UTF-8 sequence.
  predicate RuneStart(b: byte) {
    b < 128 || 192 <= b
  }

  function RuneCut(text: Bytes, cut: nat): (k: nat)
    requires cut < |text|
    ensures k <= cut && (k == 0 || RuneStart(text[k]))
    ensures forall j :: k < j <= cut ==> !RuneStart(text[j])
  {
    if cut == 0 || RuneStart(text[cut]) then cut else RuneCut(text, cut - 1)
  }

  // A long text is cut at the last start of a UTF-8 sequence that fits, and marked.
  function Truncate(text: Bytes): (t: Bytes)
    ensures |t| <= MaxLineBytes + |TruncatedMark|
    ensures |text| <= MaxLineBytes ==> t == text
    ensures |text| > MaxLineBytes ==>
              exists k :: 0 <= k <= MaxLineBytes && t == text[..k] + TruncatedMark && (k == 0 || RuneStart(text[k]))
                && forall j :: k < j <= MaxLineBytes ==> !RuneStart(text[j])
  {
    if |text| <= MaxLineBytes then text else text[..RuneCut(text, MaxLineBytes)] + TruncatedMark
  }

  // A line's text on one line.
  function OneLine(text: Bytes): (t: Bytes)
    ensures |t| == |text| && Without(t, NL, 0, |t|)
    ensures forall i :: 0 <= i < |t| ==> t[i] == if text[i] == NL || text[i] == CR then Space else text[i]
  {
    seq(|text|, i requires 0 <= i < |text| => if text[i] == NL || text[i] == CR then Space else text[i])
  }

  // A line as it is kept.
  datatype Line = Line(at: int, stream: byte, text: Bytes)

  // How a time is written, and that it reads back.
  type Format = int -> Bytes

  ghost predicate Clock(format: Format, stamp: Stamp) {
    && ShortStamps(stamp)
    && forall at :: stamp(format(at)) == Some(at) &&
         Without(format(at), NL, 0, |format(at)|) && Without(format(at), Space, 0, |format(at)|)
  }

  predicate Sane(l: Line) {
    (l.stream == Out || l.stream == Err) && Without(l.text, NL, 0, |l.text|)
        && |l.text| <= MaxLineBytes + |TruncatedMark|
  }

  // FormatLine, without the newline.
  function Body(format: Format, l: Line): Bytes {
    format(l.at) + [Space, l.stream, Space] + l.text
  }

  function Encoded(format: Format, lines: seq<Line>): Bytes {
    if lines == [] then []
    else Encoded(format, lines[..|lines| - 1]) + (Body(format, lines[|lines| - 1]) + [NL])
  }

  function Decoded(format: Format, lines: seq<Line>): seq<Rec> {
    if lines == [] then []
    else
      var front, l := lines[..|lines| - 1], lines[|lines| - 1];
      Decoded(format, front) + [Rec(l.at, |Encoded(format, front)|, l.stream, l.text)]
  }

  // ParseLine undoes FormatLine.
  lemma BodyParses(format: Format, stamp: Stamp, l: Line, start: nat)
    requires Clock(format, stamp) && Sane(l)
    ensures ParseRaw(stamp, Body(format, l), start) == Some(Rec(l.at, start, l.stream, l.text))
    ensures Without(Body(format, l), NL, 0, |Body(format, l)|)
    ensures |Body(format, l)| < MaxReadLine
  {
    var b, t := Body(format, l), format(l.at);
    assert stamp(t).Some?;
    assert b[..|t|] == t;
    IndexIs(b, Space, 0, |t|, |b|);
    assert b[|t| + 3..] == l.text;
    forall k | 0 <= k < |b|
      ensures b[k] != NL
    {
      if k < |t| {
        assert b[k] == t[k];
      } else if k >= |t| + 3 {
        assert b[k] == l.text[k - |t| - 3];
      }
    }
  }

  // --- what is written is what is read ---

  predicate AllSane(lines: seq<Line>) {
    forall l <- lines :: Sane(l)
  }

  // One line more at the end of a file of whole lines.
  lemma LinesAppend(parse: Parser, file: Bytes, body: Bytes, more: Bytes, n: nat, end: nat)
    requires LineStart(file, n) && n == |file| && end == |more|
    requires Without(body, NL, 0, |body|) && more == file + (body + [NL])
    ensures LinesIn(parse, more, 0, end) == LinesIn(parse, file, 0, n) + Listed(parse(body, n))
    ensures LineStart(more, end)
  {
    LinesGrow(parse, file, more, 0, n);
    AppendedLine(file, body, more);
    LastLine(parse, more, body, n, end);
    LinesSplit(parse, more, 0, n, end);
  }

  lemma LastLine(parse: Parser, more: Bytes, body: Bytes, n: nat, end: nat)
    requires n < end == |more| && more[end - 1] == NL && Without(more, NL, n, end - 1) && more[n..end - 1] == body
    ensures LinesIn(parse, more, n, end) == Listed(parse(body, n))
  {
    LinesOne(parse, more, n, end);
  }

  lemma AppendedLine(file: Bytes, body: Bytes, more: Bytes)
    requires Without(body, NL, 0, |body|) && more == file + (body + [NL])
    ensures |more| == |file| + |body| + 1
    ensures Without(more, NL, |file|, |more| - 1) && more[|more| - 1] == NL
    ensures more[|file|..|more| - 1] == body && more[..|file|] == file
  {
    forall k | |file| <= k < |more| - 1
      ensures more[k] != NL
    {
      assert more[k] == body[k - |file|];
    }
  }

  // A written file reads back: the same lines, in order, each at its offset.
  lemma {:induction false} EncodedReads(format: Format, stamp: Stamp, lines: seq<Line>)
    requires Clock(format, stamp) && AllSane(lines)
    ensures var e := Encoded(format, lines);
      LinesIn(RawParser(stamp), e, 0, |e|) == Decoded(format, lines) && LineStart(e, |e|)
    decreases |lines|
  {
    if lines != [] {
      var front, l := lines[..|lines| - 1], lines[|lines| - 1];
      EncodedReads(format, stamp, front);
      BodyParses(format, stamp, l, |Encoded(format, front)|);
      LinesAppend(RawParser(stamp), Encoded(format, front), Body(format, l), Encoded(format, lines),
                  |Encoded(format, front)|, |Encoded(format, lines)|);
    }
  }

  lemma {:induction false} DecodedAt(format: Format, lines: seq<Line>, k: nat)
    requires k < |lines|
    ensures |Decoded(format, lines)| == |lines| && Decoded(format, lines)[k].at == lines[k].at
    decreases |lines|
  {
    var front := lines[..|lines| - 1];
    if k < |front| {
      DecodedAt(format, front, k);
    } else if front != [] {
      DecodedAt(format, front, 0);
    }
  }

  // Every line start of a written file is that of one of its lines.
  lemma {:induction false} StartIsLine(format: Format, stamp: Stamp, lines: seq<Line>, r: nat) returns (k: nat)
    requires Clock(format, stamp) && AllSane(lines)
    requires r < |Encoded(format, lines)| && LineStart(Encoded(format, lines), r)
    ensures k < |Decoded(format, lines)| == |lines| && Decoded(format, lines)[k].start == r
    decreases |lines|
  {
    var front, l := lines[..|lines| - 1], lines[|lines| - 1];
    var file, body := Encoded(format, front), Body(format, l);
    BodyParses(format, stamp, l, |file|);
    AppendedLine(file, body, Encoded(format, lines));
    DecodedAt(format, lines, 0);
    if r < |file| {
      assert LineStart(file, r);
      k := StartIsLine(format, stamp, front, r);
    } else {
      k := |lines| - 1;
    }
  }

  predicate TimesRise(lines: seq<Line>) {
    forall i, j :: 0 <= i < j < |lines| ==> lines[i].at <= lines[j].at
  }

  lemma StartTime(format: Format, stamp: Stamp, lines: seq<Line>, r: nat) returns (k: nat)
    requires Clock(format, stamp) && AllSane(lines) && TimedStart(stamp, Encoded(format, lines), r)
    ensures k < |lines| == |Decoded(format, lines)| && Decoded(format, lines)[k].start == r
    ensures TimeAt(stamp, Encoded(format, lines), r) == Some(lines[k].at)
  {
    var e := Encoded(format, lines);
    k := StartIsLine(format, stamp, lines, r);
    DecodedAt(format, lines, k);
    EncodedReads(format, stamp, lines);
    LinesTimed(stamp, e, 0, |e|);
    assert Timed(stamp, e, Decoded(format, lines)[k]);
  }

  // Later lines have later starts, so lines in the order of their times are
  // timed in the order of their starts.
  lemma StartsInOrder(format: Format, stamp: Stamp, lines: seq<Line>, r: nat, s: nat)
    requires Clock(format, stamp) && AllSane(lines) && TimesRise(lines) && r < s
    requires TimedStart(stamp, Encoded(format, lines), r) && TimedStart(stamp, Encoded(format, lines), s)
    ensures TimeAt(stamp, Encoded(format, lines), r).value <= TimeAt(stamp, Encoded(format, lines), s).value
  {
    var i := StartTime(format, stamp, lines, r);
    var j := StartTime(format, stamp, lines, s);
    DecodedStartsRise(format, stamp, lines, i, j);
  }

  lemma DecodedStartsRise(format: Format, stamp: Stamp, lines: seq<Line>, i: nat, j: nat)
    requires Clock(format, stamp) && AllSane(lines)
    requires i < |Decoded(format, lines)| && j < |Decoded(format, lines)|
    requires Decoded(format, lines)[i].start < Decoded(format, lines)[j].start
    ensures i < j
  {
    EncodedReads(format, stamp, lines);
    LinesOrdered(RawParser(stamp), Encoded(format, lines), 0, |Encoded(format, lines)|);
  }

  lemma EncodedInTimeOrder(format: Format, stamp: Stamp, lines: seq<Line>)
    requires Clock(format, stamp) && AllSane(lines) && TimesRise(lines)
    ensures InTimeOrder(stamp, Encoded(format, lines))
  {
    var e := Encoded(format, lines);
    forall r: nat, s: nat | r < s && TimedStart(stamp, e, r) && TimedStart(stamp, e, s)
      ensures TimeAt(stamp, e, r).value <= TimeAt(stamp, e, s).value
    {
      StartsInOrder(format, stamp, lines, r, s);
    }
  }

  lemma {:induction false} EncodedShortLines(format: Format, stamp: Stamp, lines: seq<Line>, i: nat, j: nat)
    requires Clock(format, stamp) && AllSane(lines)
    requires j <= |Encoded(format, lines)| && Without(Encoded(format, lines), NL, i, j)
    ensures j <= i + MaxReadLine
    decreases |lines|
  {
    if lines != [] && i < j {
      var front, l := lines[..|lines| - 1], lines[|lines| - 1];
      var file, body := Encoded(format, front), Body(format, l);
      BodyParses(format, stamp, l, |file|);
      AppendedLine(file, body, Encoded(format, lines));
      if i < |file| {
        EncodedReads(format, stamp, front);
        assert Encoded(format, lines)[|file| - 1] == NL;
        assert Without(file, NL, i, j);
        EncodedShortLines(format, stamp, front, i, j);
      }
    }
  }

  // A file of one day's lines, in the order of their times, is what the pager
  // takes a day file to be.
  lemma EncodedIsWritten(format: Format, stamp: Stamp, lines: seq<Line>, rel: string, day: int)
    requires Clock(format, stamp) && AllSane(lines) && TimesRise(lines)
    requires forall l <- lines :: DayOf(l.at) == day
    ensures Written(stamp, LogFile(rel, day, Encoded(format, lines)))
  {
    var e, d := Encoded(format, lines), Decoded(format, lines);
    EncodedInTimeOrder(format, stamp, lines);
    EncodedReads(format, stamp, lines);
    forall i: nat, j: nat | j <= |e| && Without(e, NL, i, j)
      ensures j <= i + MaxReadLine
    {
      EncodedShortLines(format, stamp, lines, i, j);
    }
    forall r | r in d
      ensures DayOf(r.at) == day
    {
      DecodedCame(format, lines, r);
    }
  }

  lemma DecodedCame(format: Format, lines: seq<Line>, r: Rec)
    requires r in Decoded(format, lines)
    ensures exists l :: l in lines && l.at == r.at
  {
    var d := Decoded(format, lines);
    var k :| 0 <= k < |d| && d[k] == r;
    if lines != [] {
      DecodedAt(format, lines, 0);
      DecodedAt(format, lines, k);
      assert lines[k] in lines;
    }
  }

  // --- the writer ---

  // A file of some day's lines.
  ghost predicate HoldsDay(format: Format, day: int, file: Bytes, lines: seq<Line>) {
    file == Encoded(format, lines) && AllSane(lines) && forall l <- lines :: DayOf(l.at) == day
  }

  lemma HoldsMore(format: Format, day: int, a: Bytes, was: seq<Line>, b: Bytes, more: seq<Line>)
    requires HoldsDay(format, day, a, was) && HoldsDay(format, day, b, more)
    ensures HoldsDay(format, day, a + b, was + more)
  {
    EncodedConcat(format, was, more);
  }

  class Writer {
    const format: Format
    const well: bool            // no write of a file fails
    var buf: Bytes
    var day: int             // of the buffer and of the open file
    var open: bool
    var closed: bool
    var disk: map<int, Bytes>

    ghost var held: seq<Line>             // what the buffer holds
    ghost var kept: map<int, seq<Line>>   // what reached each day's file

    ghost predicate Valid()
      reads this
    {
      && HoldsDay(format, day, buf, held)
      && disk.Keys == kept.Keys
      && forall d <- kept :: HoldsDay(format, d, disk[d], kept[d])
    }

    constructor (format: Format, well: bool)
      ensures Valid() && this.format == format && this.well == well && held == [] && kept == map[] && !closed
    {
      this.format, this.well := format, well;
      buf, day, open, closed, disk := [], 0, false, false, map[];
      held, kept := [], map[];
    }

    ghost function KeptOn(d: int): seq<Line>
      reads this
    {
      if d in kept then kept[d] else []
    }

    // The buffer's bytes at the end of its day's file.
    method AppendToFile()
      requires Valid()
      modifies `disk, `kept
      ensures Valid() && kept == old(kept)[day := old(KeptOn(day)) + held]
    {
      var was := if day in disk then disk[day] else [];
      HoldsMore(format, day, was, KeptOn(day), buf, held);
      kept := kept[day := KeptOn(day) + held];
      disk := disk[day := was + buf];
    }

    // The lines of a day, in its file and held.
    ghost function AllOf(d: int): seq<Line>
      reads this
    {
      KeptOn(d) + if d == day then held else []
    }

    // flushLocked: the buffer goes to the file of its day, or is dropped.
    method FlushLocked() returns (ok: bool)
      requires Valid()
      modifies `buf, `open, `disk, `held, `kept
      ensures Valid() && held == [] && buf == [] && (well ==> ok)
      ensures forall d :: KeptOn(d) == if ok then old(AllOf(d)) else old(KeptOn(d))
    {
      ok := true;
      if |buf| == 0 {
        EncodedEmpty(format, held);
        return;
      }
      ok := *;
      ok := ok || well;
      open := open || ok;
      if ok {
        AppendToFile();
      }
      buf, held := [], [];
    }

    // The line goes to the buffer.
    method Hold(l: Line)
      requires Valid() && Sane(l) && DayOf(l.at) == day
      modifies `buf, `held
      ensures Valid() && day == old(day) && kept == old(kept)
      ensures forall d :: AllOf(d) == old(AllOf(d)) + Added(l, d)
    {
      HoldsLine(format, day, buf, held, l);
      buf := buf + (Body(format, l) + [NL]);
      held := held + [l];
      assert forall d :: old(KeptOn(d)) == KeptOn(d);
    }

    // A full buffer goes to its file.
    method FlushFull() returns (ok: bool)
      requires Valid()
      modifies `buf, `open, `disk, `held, `kept
      ensures Valid() && |buf| < FlushThreshold && (well ==> ok)
      ensures forall d :: old(KeptOn(d)) <= KeptOn(d)
      ensures ok ==> forall d :: AllOf(d) == old(AllOf(d))
    {
      ok := true;
      if |buf| >= FlushThreshold {
        ok := FlushLocked();
      }
    }

    // A buffer never holds two days.
    method TurnTo(d: int) returns (ok: bool)
      requires Valid()
      modifies `buf, `open, `disk, `held, `kept, `day
      ensures Valid() && day == d && (well ==> ok)
      ensures forall c :: old(KeptOn(c)) <= KeptOn(c)
      ensures ok ==> forall c :: AllOf(c) == old(AllOf(c))
    {
      ok := true;
      if d != day {
        ok := FlushLocked();
        open, day := false, d;
      }
    }

    // Write: the line comes after those of its day. Lines are lost only when it
    // fails, and never one that reached a file.
    method Write(at: int, stream: byte, text: Bytes) returns (ok: bool)
      requires Valid() && (stream == Out || stream == Err)
      modifies this
      ensures Valid() && closed == old(closed)
      ensures if old(closed) then !ok else |buf| < FlushThreshold && (well ==> ok)
      ensures forall d :: old(KeptOn(d)) <= KeptOn(d)
      ensures ok ==> forall d :: AllOf(d) == old(AllOf(d)) + Added(Line(at, stream, OneLine(Truncate(text))), d)
    {
      if closed {
        return false;
      }
      ok := TurnTo(DayOf(at));
      Hold(Line(at, stream, OneLine(Truncate(text))));
      var flushed := FlushFull();
      ok := ok && flushed;
    }

    method Close() returns (ok: bool)
      requires Valid()
      modifies this
      ensures Valid() && closed && (well ==> ok)
      ensures forall d :: KeptOn(d) == if ok then old(AllOf(d)) else old(KeptOn(d))
    {
      ok := FlushLocked();
      open, closed := false, true;
    }

    // Each day's file is what the pager takes it to be, when the lines of the
    // day came in the order of their times.
    lemma FilesAreWritten(stamp: Stamp, rel: string, d: int)
      requires Valid() && Clock(format, stamp) && d in kept && TimesRise(kept[d])
      ensures Written(stamp, LogFile(rel, d, disk[d]))
    {
      EncodedIsWritten(format, stamp, kept[d], rel, d);
    }
  }

  function Added(l: Line, d: int): seq<Line> {
    if d == DayOf(l.at) then [l] else []
  }

  lemma HoldsLine(format: Format, day: int, buf: Bytes, held: seq<Line>, l: Line)
    requires HoldsDay(format, day, buf, held) && Sane(l) && DayOf(l.at) == day
    ensures HoldsDay(format, day, buf + (Body(format, l) + [NL]), held + [l])
  {
    assert (held + [l])[..|held|] == held;
  }

  lemma EncodedEmpty(format: Format, lines: seq<Line>)
    requires Encoded(format, lines) == []
    ensures lines == []
  {
  }

  lemma {:induction false} EncodedConcat(format: Format, a: seq<Line>, b: seq<Line>)
    ensures Encoded(format, a + b) == Encoded(format, a) + Encoded(format, b)
    decreases |b|
  {
    if b == [] {
      assert a + b == a;
    } else {
      var front, whole, last := b[..|b| - 1], a + b, b[|b| - 1];
      assert whole[..|whole| - 1] == a + front && whole[|whole| - 1] == last;
      EncodedConcat(format, a, front);
      Associative(Encoded(format, a), Encoded(format, front), Body(format, last) + [NL]);
    }
  }
}
