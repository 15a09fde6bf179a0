// Docker's multiplexed log stream: frames of several streams, each stream's
// bytes split into lines wherever the frames fall.
module LogFrames {
  import opened LogLines

  const FrameChunk: nat := 65536
  const CR: byte := 13

  // --- a stream's bytes as lines ---

  function TrimEnd(s: Bytes): (t: Bytes)
    ensures t <= s && (t == [] || t[|t| - 1] != CR)
    ensures forall i :: |t| <= i < |s| ==> s[i] == CR
  {
    if s == [] || s[|s| - 1] != CR then s else TrimEnd(s[..|s| - 1])
  }

  // What follows the last newline.
  function Unfinished(s: Bytes): Bytes {
    if s == [] then []
    else if s[|s| - 1] == NL then [] else Unfinished(s[..|s| - 1]) + [s[|s| - 1]]
  }

  // The lines that end, without their line endings.
  function Finished(s: Bytes): seq<Bytes> {
    if s == [] then []
    else
      var front := s[..|s| - 1];
      Finished(front) + if s[|s| - 1] == NL then [TrimEnd(Unfinished(front))] else []
  }

  function AllLines(s: Bytes): seq<Bytes> {
    Finished(s) + Rest(s)
  }

  function Rest(s: Bytes): seq<Bytes> {
    if Unfinished(s) == [] then [] else [Unfinished(s)]
  }

  lemma {:induction false} UnfinishedHasNone(s: Bytes)
    ensures NL !in Unfinished(s)
  {
    if s != [] && s[|s| - 1] != NL {
      UnfinishedHasNone(s[..|s| - 1]);
    }
  }

  lemma {:induction false} NoneFinished(s: Bytes)
    requires NL !in s
    ensures Unfinished(s) == s && Finished(s) == []
  {
    if s != [] {
      assert s[|s| - 1] in s;
      NoneFinished(s[..|s| - 1]);
      assert s == s[..|s| - 1] + [s[|s| - 1]];
    }
  }

  lemma PieceMore(a: Bytes, front: Bytes, last: byte, whole: Bytes)
    requires whole == a + (front + [last])
    ensures Finished(whole) == Finished(a + front) + if last == NL then [TrimEnd(Unfinished(a + front))] else []
    ensures Unfinished(whole) == if last == NL then [] else Unfinished(a + front) + [last]
  {
    assert whole[..|whole| - 1] == a + front && whole[|whole| - 1] == last;
  }

  // Bytes may come in any pieces: what was unfinished is kept for the next.
  lemma {:induction false} InPieces(a: Bytes, b: Bytes)
    ensures Finished(a + b) == Finished(a) + Finished(Unfinished(a) + b)
    ensures Unfinished(a + b) == Unfinished(Unfinished(a) + b)
    decreases |b|
  {
    UnfinishedHasNone(a);
    NoneFinished(Unfinished(a));
    if b == [] {
      assert a + b == a && Unfinished(a) + b == Unfinished(a);
    } else {
      var front, last := b[..|b| - 1], b[|b| - 1];
      assert b == front + [last];
      InPieces(a, front);
      PieceMore(a, front, last, a + b);
      PieceMore(Unfinished(a), front, last, Unfinished(a) + b);
      var end := if last == NL then [TrimEnd(Unfinished(a + front))] else [];
      Associative(Finished(a), Finished(Unfinished(a) + front), end);
    }
  }

  lemma OneLine(line: Bytes, a: Bytes)
    requires NL !in line && a == line + [NL]
    ensures Finished(a) == [TrimEnd(line)] && Unfinished(a) == []
  {
    NoneFinished(line);
    assert a[..|a| - 1] == line;
  }

  lemma LineThen(line: Bytes, a: Bytes, rest: Bytes, s: Bytes)
    requires NL !in line && a == line + [NL] && s == a + rest
    ensures Finished(s) == [TrimEnd(line)] + Finished(rest)
    ensures Unfinished(s) == Unfinished(rest)
  {
    OneLine(line, a);
    InPieces(a, rest);
    assert [] + rest == rest;
  }

  // The first line of some bytes.
  lemma FirstLine(s: Bytes, i: nat)
    requires i < |s| && s[i] == NL && Without(s, NL, 0, i)
    ensures Finished(s) == [TrimEnd(s[..i])] + Finished(s[i + 1..])
    ensures Unfinished(s) == Unfinished(s[i + 1..])
  {
    var line, rest := s[..i], s[i + 1..];
    LineThen(line, line + [NL], rest, s);
  }

  // --- the frames ---

  type Given = seq<(byte, Bytes)>

  // The lines given of one stream.
  function GivenOf(lines: Given, b: byte): seq<Bytes> {
    if lines == [] then []
    else GivenOf(lines[..|lines| - 1], b) + if lines[|lines| - 1].0 == b then [lines[|lines| - 1].1] else []
  }

  lemma GivenMore(lines: Given, b: byte, stream: byte, line: Bytes)
    ensures GivenOf(lines + [(stream, line)], b) == GivenOf(lines, b) + if stream == b then [line] else []
  {
    assert (lines + [(stream, line)])[..|lines|] == lines;
  }

  type Pending = map<byte, Bytes>

  function PendingOf(p: Pending, b: byte): Bytes {
    if b in p then p[b] else []
  }

  // What was fed of one stream: the lines given of it, and what is pending.
  predicate FedStream(lines: Given, pending: Pending, b: byte, fed: Bytes) {
    GivenOf(lines, b) == Finished(fed) && PendingOf(pending, b) == Unfinished(fed)
  }

  // Every line in data, given; what follows them.
  method GiveLines(stream: byte, data: Bytes, lines: Given) returns (now: Given, rest: Bytes)
    ensures forall b :: GivenOf(now, b) == GivenOf(lines, b) + if b == stream then Finished(data) else []
    ensures rest == Unfinished(data)
  {
    now := lines;
    var left := data;
    var i := IndexOf(left, NL, 0, |left|);
    while i < |left|
      invariant i == IndexOf(left, NL, 0, |left|)
      invariant forall b :: GivenOf(now, b) + (if b == stream then Finished(left) else []) ==
                            GivenOf(lines, b) + if b == stream then Finished(data) else []
      invariant Unfinished(left) == Unfinished(data)
      decreases |left|
    {
      FirstLine(left, i);
      var line, was := TrimEnd(left[..i]), now;
      now := now + [(stream, line)];
      left := left[i + 1..];
      i := IndexOf(left, NL, 0, |left|);
      forall b
        ensures GivenOf(now, b) == GivenOf(was, b) + if stream == b then [line] else []
      {
        GivenMore(was, b, stream, line);
      }
    }
    NoneFinished(left);
    rest := left;
  }

  // No line is longer than what is kept of one.
  ghost predicate LinesFit(s: Bytes) {
    forall p: Bytes :: p <= s ==> |Unfinished(p)| <= MaxReadLine
  }

  // The size in a frame's header, big-endian.
  function Big(b: Bytes): nat
    requires |b| == 4
  {
    ((b[0] as nat * 256 + b[1] as nat) * 256 + b[2] as nat) * 256 + b[3] as nat
  }

  // Where a frame's bytes end: where it says, or where the stream was cut.
  function FrameEnd(raw: Bytes, pos: nat, size: nat): (end: nat)
    requires pos <= |raw|
    ensures pos <= end <= |raw| && end <= pos + size
  {
    if pos + size <= |raw| then pos + size else |raw|
  }

  // What a stream's frames hold, from a header on.
  function Payload(raw: Bytes, pos: nat, b: byte): Bytes
    requires pos <= |raw|
    decreases |raw| - pos, 0
  {
    if |raw| - pos < 8 then [] else FrameRest(raw, pos + 8, Big(raw[pos + 4..pos + 8]), raw[pos], b)
  }

  // The same, from inside a frame of which size bytes are to come.
  function FrameRest(raw: Bytes, pos: nat, size: nat, stream: byte, b: byte): Bytes
    requires pos <= |raw|
    decreases |raw| - pos, 1
  {
    Part(raw, pos, FrameEnd(raw, pos, size), stream, b) +
    if FrameEnd(raw, pos, size) < pos + size then [] else Payload(raw, pos + size, b)
  }

  function Part(raw: Bytes, lo: nat, hi: nat, stream: byte, b: byte): Bytes
    requires lo <= hi <= |raw|
  {
    if stream == b then raw[lo..hi] else []
  }

  lemma FrameStep(raw: Bytes, pos: nat, size: nat, n: nat, stream: byte, b: byte)
    requires pos + n <= |raw| && n <= size
    ensures FrameRest(raw, pos, size, stream, b) ==
            Part(raw, pos, pos + n, stream, b) + FrameRest(raw, pos + n, size - n, stream, b)
  {
    var end := FrameEnd(raw, pos, size);
    assert end == FrameEnd(raw, pos + n, size - n);
    assert raw[pos..end] == raw[pos..pos + n] + raw[pos + n..end];
  }

  // All that was fed so far, stream by stream.
  ghost predicate Fed(lines: Given, pending: Pending, fed: Pending) {
    forall b :: FedStream(lines, pending, b, PendingOf(fed, b))
  }

  // What was fed, and what is to come, are the whole.
  ghost predicate FedTo(raw: Bytes, fed: Pending, pos: nat)
    requires pos <= |raw|
  {
    forall b :: PendingOf(fed, b) + Payload(raw, pos, b) == Payload(raw, 0, b)
  }

  ghost predicate FedInto(raw: Bytes, fed: Pending, pos: nat, size: nat, stream: byte)
    requires pos <= |raw|
  {
    forall b :: PendingOf(fed, b) + FrameRest(raw, pos, size, stream, b) == Payload(raw, 0, b)
  }

  function Joined(fed: Pending, stream: byte, chunk: Bytes): Pending {
    fed[stream := PendingOf(fed, stream) + chunk]
  }

  lemma FedOne(
      lines: Given, pending: Pending, fed: Pending, now: Given, nowPending: Pending,
      stream: byte, chunk: Bytes, rest: Bytes, b: byte)
    requires Fed(lines, pending, fed) && nowPending == pending[stream := rest]
    requires GivenOf(now, b) == GivenOf(lines, b) + if b == stream then Finished(PendingOf(pending, stream) + chunk)
        else []
    requires rest == Unfinished(PendingOf(pending, stream) + chunk)
    ensures FedStream(now, nowPending, b, PendingOf(Joined(fed, stream, chunk), b))
  {
    assert FedStream(lines, pending, b, PendingOf(fed, b));
    if b == stream {
      InPieces(PendingOf(fed, stream), chunk);
      assert PendingOf(Joined(fed, stream, chunk), b) == PendingOf(fed, stream) + chunk;
    } else {
      assert PendingOf(Joined(fed, stream, chunk), b) == PendingOf(fed, b);
    }
  }

  // One chunk of a stream.
  method Feed(stream: byte, chunk: Bytes, pending: Pending, lines: Given, ghost fed: Pending)
      returns (nowPending: Pending, now: Given)
    requires Fed(lines, pending, fed)
    requires |Unfinished(PendingOf(fed, stream) + chunk)| <= MaxReadLine
    ensures Fed(now, nowPending, Joined(fed, stream, chunk))
  {
    assert FedStream(lines, pending, stream, PendingOf(fed, stream));
    InPieces(PendingOf(fed, stream), chunk);
    var rest;
    now, rest := GiveLines(stream, PendingOf(pending, stream) + chunk, lines);
    if |rest| > MaxReadLine {
      now, rest := now + [(stream, rest)], [];
    }
    nowPending := pending[stream := rest];
    forall b
      ensures FedStream(now, nowPending, b, PendingOf(Joined(fed, stream, chunk), b))
    {
      FedOne(lines, pending, fed, now, nowPending, stream, chunk, rest, b);
    }
  }

  // A chunk read inside a frame.
  lemma FedMoreOne(raw: Bytes, fed: Pending, pos: nat, size: nat, stream: byte, n: nat, b: byte, next: nat, left: nat)
    requires pos + n <= |raw| && n <= size && next == pos + n && left == size - n
    requires PendingOf(fed, b) + FrameRest(raw, pos, size, stream, b) == Payload(raw, 0, b)
    ensures PendingOf(Joined(fed, stream, raw[pos..next]), b) + FrameRest(raw, next, left, stream, b) == Payload(raw,
        0, b)
    ensures b == stream ==> PendingOf(fed, b) + raw[pos..next] <= Payload(raw, 0, b)
  {
    var p, part, rest := PendingOf(fed, b), Part(raw, pos, next, stream, b), FrameRest(raw, next, left, stream, b);
    FrameStep(raw, pos, size, n, stream, b);
    Associative(p, part, rest);
    assert PendingOf(Joined(fed, stream, raw[pos..next]), b) == p + part;
  }

  lemma FedMore(raw: Bytes, fed: Pending, pos: nat, size: nat, stream: byte, n: nat, next: nat, left: nat)
    requires pos + n <= |raw| && n <= size && next == pos + n && left == size - n
    requires FedInto(raw, fed, pos, size, stream)
    ensures FedInto(raw, Joined(fed, stream, raw[pos..next]), next, left, stream)
    ensures PendingOf(fed, stream) + raw[pos..next] <= Payload(raw, 0, stream)
  {
    forall b
      ensures PendingOf(Joined(fed, stream, raw[pos..next]), b) + FrameRest(raw, next, left, stream,
          b) == Payload(raw, 0, b)
    {
      assert PendingOf(fed, b) + FrameRest(raw, pos, size, stream, b) == Payload(raw, 0, b);
      FedMoreOne(raw, fed, pos, size, stream, n, b, next, left);
    }
    assert PendingOf(fed, stream) + FrameRest(raw, pos, size, stream, stream) == Payload(raw, 0, stream);
    FedMoreOne(raw, fed, pos, size, stream, n, stream, next, left);
  }

  // A read inside a frame under way.
  ghost predicate Reading(raw: Bytes, pos: nat, size: nat, stream: byte, pending: Pending, lines: Given, fed: Pending) {
    pos <= |raw| && FedInto(raw, fed, pos, size, stream) && Fed(lines, pending, fed)
        && LinesFit(Payload(raw, 0, stream))
  }

  // The next chunk of a frame; short: the stream ends before it.
  method ReadChunk(raw: Bytes, pos: nat, size: nat, stream: byte, pending: Pending, lines: Given, ghost fed: Pending)
      returns (next: nat, left: nat, short: bool, nowPending: Pending, now: Given, ghost nowFed: Pending)
    requires Reading(raw, pos, size, stream, pending, lines, fed) && size > 0
    ensures Reading(raw, next, left, stream, nowPending, now, nowFed)
    ensures pos <= next && next + left == pos + size
    ensures if short then next == |raw| && left > 0 else left < size
  {
    var want := if size < FrameChunk then size else FrameChunk;
    var n := if want <= |raw| - pos then want else |raw| - pos;
    next, left, short := pos + n, size - n, n < want;
    var chunk := raw[pos..next];
    FedMore(raw, fed, pos, size, stream, n, next, left);
    nowPending, now := FeedFit(stream, chunk, pending, lines, fed, Payload(raw, 0, stream));
    nowFed := Joined(fed, stream, chunk);
  }

  // A chunk of bytes whose lines all fit.
  method FeedFit(stream: byte, chunk: Bytes, pending: Pending, lines: Given, ghost fed: Pending, ghost whole: Bytes)
      returns (nowPending: Pending, now: Given)
    requires Fed(lines, pending, fed) && LinesFit(whole) && PendingOf(fed, stream) + chunk <= whole
    ensures Fed(now, nowPending, Joined(fed, stream, chunk))
  {
    nowPending, now := Feed(stream, chunk, pending, lines, fed);
  }

  // One frame, in chunks; cut when the stream ends inside it.
  method ReadFrame(raw: Bytes, start: nat, length: nat, stream: byte, pending0: Pending, lines0: Given,
      ghost fed0: Pending)
      returns (pos: nat, cut: bool, pending: Pending, lines: Given, ghost fed: Pending)
    requires Reading(raw, start, length, stream, pending0, lines0, fed0)
    ensures start <= pos <= |raw| && Fed(lines, pending, fed) && FedTo(raw, fed, pos)
    ensures cut ==> pos == |raw| < start + length
  {
    pos, cut, pending, lines, fed := start, false, pending0, lines0, fed0;
    var size: nat := length;
    while size > 0
      invariant start <= pos && pos + size == start + length
      invariant Reading(raw, pos, size, stream, pending, lines, fed)
    {
      pos, size, cut, pending, lines, fed := ReadChunk(raw, pos, size, stream, pending, lines, fed);
      if cut {
        CutHere(raw, fed, pos, size, stream);
        return;
      }
    }
    FrameDone(raw, fed, pos, size, stream);
  }

  lemma CutHere(raw: Bytes, fed: Pending, pos: nat, size: nat, stream: byte)
    requires pos == |raw| && size > 0 && FedInto(raw, fed, pos, size, stream)
    ensures FedTo(raw, fed, pos)
  {
    forall b
      ensures PendingOf(fed, b) + Payload(raw, pos, b) == Payload(raw, 0, b)
    {
      assert PendingOf(fed, b) + FrameRest(raw, pos, size, stream, b) == Payload(raw, 0, b);
    }
  }

  lemma FrameDone(raw: Bytes, fed: Pending, pos: nat, size: nat, stream: byte)
    requires pos <= |raw| && size == 0 && FedInto(raw, fed, pos, size, stream)
    ensures FedTo(raw, fed, pos)
  {
    forall b
      ensures PendingOf(fed, b) + Payload(raw, pos, b) == Payload(raw, 0, b)
    {
      assert PendingOf(fed, b) + FrameRest(raw, pos, size, stream, b) == Payload(raw, 0, b);
      assert FrameRest(raw, pos, size, stream, b) == Payload(raw, pos, b);
    }
  }

  lemma HeaderRead(raw: Bytes, fed: Pending, pos: nat, size: nat, stream: byte)
    requires pos + 8 <= |raw| && FedTo(raw, fed, pos)
    requires size == Big(raw[pos + 4..pos + 8]) && stream == raw[pos]
    ensures FedInto(raw, fed, pos + 8, size, stream)
  {
    forall b
      ensures PendingOf(fed, b) + FrameRest(raw, pos + 8, size, stream, b) == Payload(raw, 0, b)
    {
      assert PendingOf(fed, b) + Payload(raw, pos, b) == Payload(raw, 0, b);
    }
  }

  // All a stream's frames hold was fed.
  ghost predicate FedAll(raw: Bytes, fed: Pending) {
    forall b :: PendingOf(fed, b) == Payload(raw, 0, b)
  }

  lemma NothingLeft(raw: Bytes, fed: Pending, pos: nat)
    requires pos <= |raw| < pos + 8 && FedTo(raw, fed, pos)
    ensures FedAll(raw, fed)
  {
    forall b
      ensures PendingOf(fed, b) == Payload(raw, 0, b)
    {
      var p := PendingOf(fed, b);
      assert p + Payload(raw, pos, b) == Payload(raw, 0, b);
      assert Payload(raw, pos, b) == [];
      assert p + [] == p;
    }
  }

  // What is unfinished when the stream ends is given, stream by stream.
  method GiveRests(pending: Pending, lines: Given) returns (now: Given)
    ensures forall b ::
        GivenOf(now, b) == GivenOf(lines, b) + if PendingOf(pending, b) == [] then [] else [PendingOf(pending, b)]
  {
    now := lines;
    var left := pending.Keys;
    while left != {}
      invariant left <= pending.Keys
      invariant forall b :: GivenOf(now, b) == GivenOf(lines, b) +
                  if b in left || PendingOf(pending, b) == [] then [] else [PendingOf(pending, b)]
      decreases left
    {
      var stream :| stream in left;
      if pending[stream] != [] {
        forall b
          ensures GivenOf(now + [(stream, pending[stream])], b) == GivenOf(now, b) + if stream == b
              then [pending[stream]] else []
        {
          GivenMore(now, b, stream, pending[stream]);
        }
        now := now + [(stream, pending[stream])];
      }
      left := left - {stream};
    }
  }

  // Frame after frame, until the stream ends.
  method ReadAll(raw: Bytes) returns (lines: Given, pending: Pending, ghost fed: Pending)
    requires forall b :: LinesFit(Payload(raw, 0, b))
    ensures Fed(lines, pending, fed) && FedAll(raw, fed)
  {
    var pos: nat := 0;
    pending, lines, fed := map[], [], map[];
    while |raw| - pos >= 8
      invariant pos <= |raw| && Fed(lines, pending, fed) && FedTo(raw, fed, pos)
      decreases |raw| - pos
    {
      var stream, size := raw[pos], Big(raw[pos + 4..pos + 8]);
      HeaderRead(raw, fed, pos, size, stream);
      var cut;
      pos, cut, pending, lines, fed := ReadFrame(raw, pos + 8, size, stream, pending, lines, fed);
      if cut {
        break;
      }
    }
    NothingLeft(raw, fed, pos);
  }

  // readFrames: what is given of each stream is its bytes split into lines, in
  // their order, wherever the frames and the chunks fall.
  method ReadFrames(raw: Bytes) returns (lines: Given)
    requires forall b :: LinesFit(Payload(raw, 0, b))
    ensures forall b :: GivenOf(lines, b) == AllLines(Payload(raw, 0, b))
  {
    var pending;
    ghost var fed;
    lines, pending, fed := ReadAll(raw);
    ghost var given := lines;
    lines := GiveRests(pending, lines);
    forall b
      ensures GivenOf(lines, b) == AllLines(Payload(raw, 0, b))
    {
      assert FedStream(given, pending, b, PendingOf(fed, b));
      assert PendingOf(fed, b) == Payload(raw, 0, b);
    }
  }

  // --- frames written ---

  datatype Frame = Frame(stream: byte, payload: Bytes)

  lemma Digits256(n: nat)
    requires n < 0x1_0000_0000
    ensures n / 16777216 < 256
    ensures n == ((n / 16777216 * 256 + n / 65536 % 256) * 256 + n / 256 % 256) * 256 + n % 256
  {
    assert n == n / 256 * 256 + n % 256;
    assert n / 256 / 256 == n / 65536 && n / 65536 / 256 == n / 16777216;
  }

  function BigBytes(n: nat): (b: Bytes)
    requires n < 0x1_0000_0000
    ensures |b| == 4 && Big(b) == n
  {
    Digits256(n);
    [(n / 16777216) as byte, (n / 65536 % 256) as byte, (n / 256 % 256) as byte, (n % 256) as byte]
  }

  function Header(f: Frame): (h: Bytes)
    requires |f.payload| < 0x1_0000_0000
    ensures |h| == 8 && h[0] == f.stream && h[4..8] == BigBytes(|f.payload|)
  {
    [f.stream, 0, 0, 0] + BigBytes(|f.payload|)
  }

  predicate Sendable(frames: seq<Frame>) {
    forall f <- frames :: |f.payload| < 0x1_0000_0000
  }

  function Raw(frames: seq<Frame>): Bytes
    requires Sendable(frames)
  {
    if frames == [] then [] else Header(frames[0]) + (frames[0].payload + Raw(frames[1..]))
  }

  // What a program wrote to a stream.
  function Wrote(frames: seq<Frame>, b: byte): Bytes {
    if frames == [] then []
    else (if frames[0].stream == b then frames[0].payload else []) + Wrote(frames[1..], b)
  }

  lemma {:induction false} PayloadIsWrote(pre: Bytes, frames: seq<Frame>, b: byte)
    requires Sendable(frames)
    ensures Payload(pre + Raw(frames), |pre|, b) == Wrote(frames, b)
    decreases |frames|
  {
    if frames != [] {
      var f := frames[0];
      var more := pre + Header(f) + f.payload;
      assert pre + Raw(frames) == more + Raw(frames[1..]);
      PayloadIsWrote(more, frames[1..], b);
      FrameThere(pre, f, Raw(frames[1..]), b, more + Raw(frames[1..]), |more|);
    }
  }

  lemma FrameThere(pre: Bytes, f: Frame, rest: Bytes, b: byte, raw: Bytes, next: nat)
    requires |f.payload| < 0x1_0000_0000
    requires raw == pre + Header(f) + f.payload + rest && next == |pre| + 8 + |f.payload|
    ensures Payload(raw, |pre|, b) == (if f.stream == b then f.payload else []) + Payload(raw, next, b)
  {
    var pos := |pre|;
    assert raw[pos] == f.stream;
    assert raw[pos + 4..pos + 8] == Header(f)[4..8];
    assert FrameEnd(raw, pos + 8, |f.payload|) == next;
    assert raw[pos + 8..next] == f.payload;
  }

  // Two ways of cutting into frames what was written give the same lines.
  lemma FramingIrrelevant(a: seq<Frame>, c: seq<Frame>, b: byte)
    requires Sendable(a) && Sendable(c) && Wrote(a, b) == Wrote(c, b)
    ensures AllLines(Payload(Raw(a), 0, b)) == AllLines(Payload(Raw(c), 0, b)) == AllLines(Wrote(a, b))
  {
    PayloadIsWrote([], a, b);
    PayloadIsWrote([], c, b);
    assert [] + Raw(a) == Raw(a) && [] + Raw(c) == Raw(c);
  }
}
