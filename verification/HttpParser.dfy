/** The incremental HTTP message parser as a small-step machine over the bytes
    received so far. One step is what `analysis` does with one byte, or one jump
    back to its first label. Lengths and sizes the code keeps in `size_t` wrap
    where it lets them wrap. */
module HttpParser {
  import opened Common
  import opened HttpText

  datatype HttpState =
    | Start | ReadHeader | ReadBody | ChunkHeader | ChunkBody | ChunkFooter | Done | Bad

  /** `(size_t)-1` marks a line whose end has not been seen yet. */
  datatype Length = Unknown | Known(n: nat)
  datatype Line = Line(first: nat, length: Length)
  datatype Chunk = Chunk(first: nat, length: nat)

  datatype Flags = Flags(keepAlive: bool, chunked: bool, contentLength: nat)

  datatype Parse = Parse(
    data: string,          // the received bytes, with the parser's own overwrites
    index: nat,            // how many of them are analysed
    state: HttpState,
    lines: seq<Line>,
    headerSize: nat,
    flags: Flags,
    chunkSize: nat,
    sizeStart: bool,
    sizeDone: bool,
    chunks: seq<Chunk>)

  const NO_FLAGS := Flags(false, false, 0)

  /** A context just (re)initialised, holding bytes nobody has looked at. */
  function Load(data: string): Parse {
    Parse(data, 0, Start, [], 0, NO_FLAGS, 0, false, false, [])
  }

  /** More bytes arrive. */
  function Extend(p: Parse, more: string): Parse {
    p.(data := p.data + more)
  }

  // ------------------------------------------------------------- well-formed

  /** A closed line lies in the data and two NULs follow it. */
  predicate LineIn(data: string, l: Line) {
    l.length.Known? ==>
      && l.first + l.length.n + 2 <= |data|
      && data[l.first + l.length.n] == NUL
      && data[l.first + l.length.n + 1] == NUL
  }

  predicate AllIn(data: string, lines: seq<Line>) {
    forall i :: 0 <= i < |lines| ==> LineIn(data, lines[i])
  }

  function LineText(data: string, l: Line): string
    requires LineIn(data, l) && l.length.Known?
  {
    data[l.first..l.first + l.length.n]
  }

  predicate ReadingLine(state: HttpState) {
    state == ReadHeader || state == ChunkFooter
  }

  /** Closed lines are non-empty, NUL-terminated, in order, disjoint, and all end,
      their two NULs included, by `limit`. */
  ghost predicate ClosedLines(data: string, lines: seq<Line>, limit: nat) {
    lines == [] ||
    var last := lines[|lines| - 1];
    && last.length.Known? && last.length.n > 0 && LineIn(data, last)
    && last.first + last.length.n + 2 <= limit
    && ClosedLines(data, lines[..|lines| - 1], last.first)
  }

  predicate HasOpenLine(lines: seq<Line>) {
    lines != [] && lines[|lines| - 1].length.Unknown?
  }

  /** Only the last recorded line may be open, and only while lines are read. */
  ghost predicate LinesOk(p: Parse) {
    if HasOpenLine(p.lines) then
      && (ReadingLine(p.state) || p.state == Bad)
      && p.lines[|p.lines| - 1].first <= p.index
      && ClosedLines(p.data, p.lines[..|p.lines| - 1], p.lines[|p.lines| - 1].first)
    else
      ClosedLines(p.data, p.lines, p.index)
  }

  /** While a line is being read, the byte in front of its start has already been
      overwritten with NUL, or there is none and the first byte is no line feed. */
  ghost predicate OpenLineOk(p: Parse) {
    ReadingLine(p.state) ==>
      && HasOpenLine(p.lines)
      && p.index <= |p.data|
      && var last := p.lines[|p.lines| - 1];
         && last.first <= p.index
         && (last.first > 0 ==> p.data[last.first - 1] == NUL)
         && (p.index == 0 ==> p.state == ReadHeader && p.data != "" && p.data[0] != '\n')
  }

  /** Only sizes so large that `size + 2` wraps escape the buffer check. */
  predicate NoWrap(chunks: seq<Chunk>) {
    forall i :: 0 <= i < |chunks| ==> chunks[i].length < SIZE_T - 2
  }

  /** Bytes a chunk must leave in front of the index: its closing CRLF while the
      message is chunked, nothing after a Content-Length body. */
  function Tail(p: Parse): nat {
    if p.flags.chunked then 2 else 0
  }

  /** Body spans in order and disjoint, between `low` and `high`, each followed by
      `tail` bytes that belong to no span. */
  ghost predicate ChunksIn(chunks: seq<Chunk>, low: nat, tail: nat, high: nat) {
    chunks == [] ||
    var last := chunks[|chunks| - 1];
    && low <= last.first && last.first + last.length + tail <= high
    && ChunksIn(chunks[..|chunks| - 1], low, tail, last.first)
  }

  /** Unless a chunk size wrapped, the body spans lie in the consumed body. */
  ghost predicate ChunksOk(p: Parse) {
    NoWrap(p.chunks) ==> ChunksIn(p.chunks, p.headerSize, Tail(p), p.index)
  }

  ghost predicate StateOk(p: Parse) {
    && p.index <= |p.data|
    && p.chunkSize < SIZE_T
    && (p.state == Start ==> p == Load(p.data))
    && (p.state == ReadHeader ==> p.chunks == [] && p.headerSize == 0 && p.flags == NO_FLAGS && p.chunkSize == 0 && !p.sizeStart && !p.sizeDone)
    && (p.state in {ReadBody, ChunkHeader, ChunkBody, ChunkFooter, Done} ==> 2 <= p.headerSize <= p.index)
    && (p.state in {ChunkHeader, ChunkBody, ChunkFooter} ==> p.flags.chunked)
    && (p.state == ReadBody ==> !p.flags.chunked && p.chunks == [] && p.flags.contentLength > 0)
    && (p.state in {Start, ReadHeader} || p.flags.chunked || |p.chunks| <= 1)
    && (p.state == Bad ==> p.headerSize <= p.index)
  }

  /** What holds of the parser in every reachable state. */
  ghost predicate Wf(p: Parse) {
    StateOk(p) && LinesOk(p) && OpenLineOk(p) && ChunksOk(p)
  }

  // -------------------------------------------------------------- the header

  /** `kvDecoder`. */
  function KvDecode(f: Flags, h: Header): Flags {
    if SameWord("Connection", h.name) then f.(keepAlive := SameWord("Keep-Alive", h.value))
    else if SameWord("Content-Length", h.name) then f.(contentLength := AtoiSize(h.value))
    else if SameWord("Transfer-Encoding", h.name) then f.(chunked := SameWord("chunked", h.value))
    else f
  }

  function DecodeText(f: Flags, line: string): Flags {
    match Split(line)
    case None => f
    case Some(h) => KvDecode(f, h)
  }

  /** The loop of `decoderHeaderAndUpdateState` over the recorded lines. */
  function DecodeLines(data: string, lines: seq<Line>, headerSize: nat, f: Flags): Flags
    requires AllIn(data, lines)
    decreases |lines|
  {
    if lines == [] || lines[0].first > headerSize then f
    else
      DecodeLines(data, lines[1..], headerSize,
                  if lines[0].length.Unknown? then f else DecodeText(f, LineText(data, lines[0])))
  }

  /** A chunked transfer coding decides the framing before any Content-Length. */
  function SelectFraming(p: Parse): Parse {
    if p.flags.chunked then p.(state := ChunkHeader, chunkSize := 0, sizeStart := false, sizeDone := false)
    else if p.flags.contentLength > 0 then p.(state := ReadBody)
    else p.(state := Done)
  }

  /** `decoderHeaderAndUpdateState`. */
  function EndHeader(p: Parse): Parse
    requires AllIn(p.data, p.lines)
  {
    SelectFraming(p.(flags := DecodeLines(p.data, p.lines, p.headerSize, p.flags)))
  }

  // --------------------------------------------------------------- one step

  predicate IsHex(c: char) {
    '0' <= c <= '9' || 'a' <= c <= 'f' || 'A' <= c <= 'F'
  }

  function HexDigit(c: char): (v: nat)
    requires IsHex(c)
    ensures v < 16
  {
    if c <= '9' then (c as int) - ('0' as int)
    else if c <= 'F' then (c as int) - ('A' as int) + 10
    else (c as int) - ('a' as int) + 10
  }

  /** `(size << 4) + digit` on 64 bits. */
  function PushHex(size: nat, c: char): (n: nat)
    requires IsHex(c)
    ensures n < SIZE_T
  {
    (size * 16 + HexDigit(c)) % SIZE_T
  }

  /** `m_nowChunkSize + 2` on 64 bits. */
  function Need(size: nat): nat {
    (size + 2) % SIZE_T
  }

  /** `analysis` returns without touching anything. */
  predicate Blocked(p: Parse) {
    || p.state == Done || p.state == Bad
    || |p.data| <= p.index
    || (p.state == ReadBody && |p.data| - p.index < p.flags.contentLength)
    || (p.state == ChunkBody && |p.data| - p.index < Need(p.chunkSize))
  }

  /** The two bytes ending a line are overwritten with NUL. */
  function Terminate(data: string, index: nat): (d: string)
    requires 0 < index < |data|
    ensures |d| == |data| && d[index - 1] == NUL && d[index] == NUL
    ensures forall i :: 0 <= i < |data| && i != index - 1 && i != index ==> d[i] == data[i]
  {
    data[index - 1 := NUL][index := NUL]
  }

  /** The bytes at the index and before it may close the open last line. */
  ghost predicate Closing(p: Parse) {
    && HasOpenLine(p.lines)
    && 0 < p.index < |p.data|
    && p.lines[|p.lines| - 1].first <= p.index - 1
    && ClosedLines(p.data, p.lines[..|p.lines| - 1], p.lines[|p.lines| - 1].first)
  }

  /** A line feed that closes the open line, in the header or in the trailer. */
  function CloseLine(p: Parse): Parse
    requires Closing(p)
  {
    var last := p.lines[|p.lines| - 1];
    var length := p.index - 1 - last.first;
    var closed := p.lines[..|p.lines| - 1];
    ClosedLinesIn(p.data, closed, last.first);
    TerminateKeepsLines(p.data, p.index, closed);
    var q := p.(data := Terminate(p.data, p.index), index := p.index + 1);
    if length > 0 then
      q.(lines := closed + [Line(last.first, Known(length)), Line(p.index + 1, Unknown)])
    else if p.state == ReadHeader then
      EndHeader(q.(lines := closed, headerSize := p.index + 1))
    else
      q.(lines := closed, state := Done)
  }

  function LineByte(p: Parse): Parse
    requires Wf(p) && ReadingLine(p.state) && p.index < |p.data|
  {
    if p.data[p.index] != '\n' then p.(index := p.index + 1)
    else if p.data[p.index - 1] != '\r' then p.(state := Bad)
    else CloseLine(p)
  }

  /** The end of a chunk size line. */
  function SizeLine(p: Parse): Parse
    requires 0 < p.index < |p.data|
  {
    var q := p.(data := Terminate(p.data, p.index), index := p.index + 1);
    if p.chunkSize > 0 then q.(state := ChunkBody)
    else q.(state := ChunkFooter, lines := p.lines + [Line(p.index + 1, Unknown)])
  }

  function SizeByte(p: Parse): Parse
    requires Wf(p) && p.state == ChunkHeader && p.index < |p.data|
  {
    var c := p.data[p.index];
    if c == '\n' then
      if p.data[p.index - 1] != '\r' then p.(state := Bad) else SizeLine(p)
    else if p.sizeDone then p.(index := p.index + 1)
    else if IsHex(c) then p.(index := p.index + 1, chunkSize := PushHex(p.chunkSize, c), sizeStart := true)
    else if p.sizeStart || !IsSpace(c) then p.(index := p.index + 1, sizeDone := true)
    else p.(index := p.index + 1)
  }

  function Step(p: Parse): Parse
    requires Wf(p) && !Blocked(p)
  {
    match p.state
    case Start =>
      if p.index != 0 || p.data[0] == '\n' then p.(state := Bad)
      else p.(state := ReadHeader, lines := [Line(0, Unknown)])
    case ReadHeader => LineByte(p)
    case ChunkFooter => LineByte(p)
    case ReadBody =>
      p.(chunks := p.chunks + [Chunk(p.index, p.flags.contentLength)],
         index := p.index + p.flags.contentLength, state := Done)
    case ChunkHeader => SizeByte(p)
    case ChunkBody =>
      p.(chunks := p.chunks + [Chunk(p.index, p.chunkSize)],
         index := p.index + Need(p.chunkSize), state := ChunkHeader,
         chunkSize := 0, sizeStart := false, sizeDone := false)
  }

  function Rank(state: HttpState): nat {
    match state
    case Start => 2
    case ReadHeader => 1
    case ReadBody => 1
    case ChunkBody => 2
    case ChunkHeader => 1
    case ChunkFooter => 1
    case Done => 0
    case Bad => 0
  }

  // -------------------------------------------------- every step keeps Wf

  /** Overwriting two bytes with NUL leaves closed lines closed. */
  lemma TerminateKeepsLines(data: string, index: nat, lines: seq<Line>)
    requires 0 < index < |data|
    requires AllIn(data, lines)
    ensures AllIn(Terminate(data, index), lines)
  {
    forall i | 0 <= i < |lines| ensures LineIn(Terminate(data, index), lines[i]) {
      assert LineIn(data, lines[i]);
    }
  }

  lemma {:induction false} TerminateKeepsClosed(data: string, index: nat, lines: seq<Line>, limit: nat, later: nat)
    requires 0 < index < |data| && limit <= later
    requires ClosedLines(data, lines, limit)
    ensures ClosedLines(Terminate(data, index), lines, later)
    decreases |lines|
  {
    if lines != [] {
      var last := lines[|lines| - 1];
      TerminateKeepsClosed(data, index, lines[..|lines| - 1], last.first, last.first);
    }
  }

  /** One more closed line, and a new open one after it. */
  lemma NextLine(data: string, closed: seq<Line>, l: Line, next: Line)
    requires ClosedLines(data, closed, l.first)
    requires l.length.Known? && l.length.n > 0 && LineIn(data, l)
    requires next.first == l.first + l.length.n + 2
    ensures var lines := closed + [l, next]; ClosedLines(data, lines[..|lines| - 1], next.first)
  {
    var lines := closed + [l, next];
    var front := lines[..|lines| - 1];
    assert front == closed + [l];
    assert front[..|front| - 1] == closed;
  }

  /** The open line is empty: the blank line that ends a header or a trailer. */
  predicate Blank(p: Parse) {
    HasOpenLine(p.lines) && p.index - 1 == p.lines[|p.lines| - 1].first
  }

  lemma CloseTextLines(p: Parse)
    requires Closing(p) && ReadingLine(p.state) && !Blank(p)
    ensures LinesOk(CloseLine(p))
  {
    var last := p.lines[|p.lines| - 1];
    var closed := p.lines[..|p.lines| - 1];
    TerminateKeepsClosed(p.data, p.index, closed, last.first, last.first);
    NextLine(Terminate(p.data, p.index), closed, Line(last.first, Known(p.index - 1 - last.first)), Line(p.index + 1, Unknown));
  }

  lemma CloseBlankLines(p: Parse)
    requires Closing(p) && ReadingLine(p.state) && Blank(p)
    ensures LinesOk(CloseLine(p))
  {
    hide DecodeLines;
    var closed := p.lines[..|p.lines| - 1];
    TerminateKeepsClosed(p.data, p.index, closed, p.lines[|p.lines| - 1].first, p.index + 1);
  }

  lemma CloseLineWf(p: Parse)
    requires Wf(p) && ReadingLine(p.state) && p.index < |p.data|
    requires p.data[p.index] == '\n' && p.data[p.index - 1] == '\r'
    ensures Closing(p) && Wf(CloseLine(p))
  {
    if Blank(p) { CloseBlankLines(p); } else { CloseTextLines(p); }
    var q := CloseLine(p);
    assert q.chunks == p.chunks && q.index == p.index + 1;
    if p.state == ReadHeader {
      assert q.chunks == [];
    } else {
      assert Tail(q) == Tail(p) && q.headerSize == p.headerSize;
    }
    assert StateOk(q);
    assert ChunksOk(q);
    assert OpenLineOk(q);
  }

  lemma ChunkBodyWf(p: Parse)
    requires Wf(p) && !Blocked(p) && p.state == ChunkBody
    ensures Wf(Step(p))
  {
    var q := Step(p);
    assert q.chunks[..|p.chunks|] == p.chunks;
    if NoWrap(q.chunks) {
      assert q.chunks[|p.chunks|].length == p.chunkSize;
      forall i | 0 <= i < |p.chunks| ensures p.chunks[i].length < SIZE_T - 2 {
        assert q.chunks[i] == p.chunks[i];
      }
    }
    ClosedLinesLater(p.data, p.lines, p.index, q.index);
  }

  lemma ClosedLinesLater(data: string, lines: seq<Line>, limit: nat, later: nat)
    requires ClosedLines(data, lines, limit) && limit <= later
    ensures ClosedLines(data, lines, later)
  {
  }

  lemma {:induction false} ClosedLinesIn(data: string, lines: seq<Line>, limit: nat)
    requires ClosedLines(data, lines, limit)
    ensures AllIn(data, lines)
    decreases |lines|
  {
    if lines != [] {
      var front := lines[..|lines| - 1];
      ClosedLinesIn(data, front, lines[|lines| - 1].first);
      forall i | 0 <= i < |lines| ensures LineIn(data, lines[i]) {
        if i < |front| { assert lines[i] == front[i]; }
      }
    }
  }

  lemma {:induction false} ClosedLinesExtend(data: string, more: string, lines: seq<Line>, limit: nat)
    requires ClosedLines(data, lines, limit)
    ensures ClosedLines(data + more, lines, limit)
    decreases |lines|
  {
    if lines != [] {
      ClosedLinesExtend(data, more, lines[..|lines| - 1], lines[|lines| - 1].first);
    }
  }

  lemma SizeLineLines(p: Parse)
    requires LinesOk(p) && p.state == ChunkHeader && 0 < p.index < |p.data|
    ensures LinesOk(SizeLine(p))
  {
    TerminateKeepsClosed(p.data, p.index, p.lines, p.index, p.index + 1);
    var q := SizeLine(p);
    if q.state == ChunkFooter {
      assert q.lines[..|q.lines| - 1] == p.lines;
    }
  }

  /** A byte of the size line that does not end it, or giving up on it. */
  lemma SizeTextWf(p: Parse, q: Parse, size: nat, start: bool, done: bool)
    requires Wf(p) && p.state == ChunkHeader && p.index < |p.data| && size < SIZE_T
    requires q == p.(index := p.index + 1, chunkSize := size, sizeStart := start, sizeDone := done) || q == p.(state := Bad)
    ensures Wf(q)
  {
  }

  lemma SizeLineWf(p: Parse)
    requires Wf(p) && p.state == ChunkHeader && 0 < p.index < |p.data|
    ensures Wf(SizeLine(p))
  {
    SizeLineLines(p);
  }

  lemma SizeByteWf(p: Parse)
    requires Wf(p) && p.state == ChunkHeader && p.index < |p.data|
    ensures Wf(SizeByte(p))
  {
    hide SizeLine, HexDigit;
    var q := SizeByte(p);
    if p.data[p.index] == '\n' && p.data[p.index - 1] == '\r' {
      SizeLineWf(p);
    } else {
      SizeTextWf(p, q, q.chunkSize, q.sizeStart, q.sizeDone);
    }
  }

  /** Taking a byte into the open line, or giving up on it. */
  lemma SameTextWf(p: Parse, q: Parse)
    requires Wf(p) && ReadingLine(p.state) && p.index < |p.data|
    requires q == p.(index := p.index + 1) || (q == p.(state := Bad) && p.index > 0)
    ensures Wf(q)
  {
  }

  lemma LineByteWf(p: Parse)
    requires Wf(p) && ReadingLine(p.state) && p.index < |p.data|
    ensures Wf(LineByte(p))
  {
    hide CloseLine;
    if p.data[p.index] == '\n' && p.data[p.index - 1] == '\r' {
      CloseLineWf(p);
    } else {
      SameTextWf(p, LineByte(p));
    }
  }

  lemma StepWf(p: Parse)
    requires Wf(p) && !Blocked(p)
    ensures Wf(Step(p))
  {
    hide LineByte, SizeByte;
    match p.state
    case Start =>
    case ReadHeader => LineByteWf(p);
    case ChunkFooter => LineByteWf(p);
    case ReadBody =>
    case ChunkHeader => SizeByteWf(p);
    case ChunkBody => ChunkBodyWf(p);
  }

  lemma CloseLineProgress(p: Parse)
    requires Closing(p)
    ensures |CloseLine(p).data| == |p.data| && CloseLine(p).index == p.index + 1
  {
  }

  lemma LineByteProgress(p: Parse)
    requires Wf(p) && ReadingLine(p.state) && p.index < |p.data|
    ensures var q := LineByte(p);
      && |q.data| == |p.data|
      && (q.index > p.index || (q.index == p.index && Rank(q.state) < Rank(p.state)))
  {
    hide CloseLine;
    if p.data[p.index] == '\n' && p.data[p.index - 1] == '\r' {
      CloseLineProgress(p);
    }
  }

  /** Each step consumes bytes, or moves to a lower-ranked state on the spot. */
  lemma StepProgress(p: Parse)
    requires Wf(p) && !Blocked(p)
    ensures var q := Step(p);
      && |q.data| == |p.data|
      && (q.index > p.index || (q.index == p.index && Rank(q.state) < Rank(p.state)))
  {
    hide LineByte;
    if ReadingLine(p.state) {
      LineByteProgress(p);
    }
  }

  // ------------------------------------------------------------- analysis

  /** `analysis`: step until nothing more can be done. */
  function Analyze(p: Parse): (r: Parse)
    requires Wf(p)
    ensures Wf(r) && Blocked(r) && |r.data| == |p.data|
    decreases |p.data| - p.index, Rank(p.state)
  {
    if Blocked(p) then p
    else
      StepWf(p);
      StepProgress(p);
      Analyze(Step(p))
  }

  /** Analysis of a parser that can do nothing leaves it alone. */
  lemma Stay(p: Parse)
    requires Wf(p) && Blocked(p)
    ensures Analyze(p) == p
  {
  }

  lemma LoadWf(data: string)
    ensures Wf(Load(data))
  {
  }

  lemma ExtendWf(p: Parse, more: string)
    requires Wf(p)
    ensures Wf(Extend(p, more))
  {
    if HasOpenLine(p.lines) {
      ClosedLinesExtend(p.data, more, p.lines[..|p.lines| - 1], p.lines[|p.lines| - 1].first);
    } else {
      ClosedLinesExtend(p.data, more, p.lines, p.index);
    }
  }

  lemma {:induction false} DecodeLinesExtend(data: string, more: string, lines: seq<Line>, headerSize: nat, f: Flags)
    requires AllIn(data, lines)
    ensures AllIn(data + more, lines)
    ensures DecodeLines(data + more, lines, headerSize, f) == DecodeLines(data, lines, headerSize, f)
    decreases |lines|
  {
    if lines != [] && lines[0].first <= headerSize {
      if lines[0].length.Known? {
        assert LineText(data + more, lines[0]) == LineText(data, lines[0]);
      }
      DecodeLinesExtend(data, more, lines[1..], headerSize,
                        if lines[0].length.Unknown? then f else DecodeText(f, LineText(data, lines[0])));
    }
  }

  lemma TerminateExtend(data: string, index: nat, more: string)
    requires 0 < index < |data|
    ensures Terminate(data + more, index) == Terminate(data, index) + more
  {
  }

  lemma EndHeaderExtend(p: Parse, more: string)
    requires AllIn(p.data, p.lines)
    ensures AllIn(p.data + more, p.lines)
    ensures EndHeader(Extend(p, more)) == Extend(EndHeader(p), more)
  {
    DecodeLinesExtend(p.data, more, p.lines, p.headerSize, p.flags);
  }

  lemma ClosingExtend(p: Parse, more: string)
    requires Closing(p)
    ensures Closing(Extend(p, more))
  {
    ClosedLinesExtend(p.data, more, p.lines[..|p.lines| - 1], p.lines[|p.lines| - 1].first);
  }

  lemma CloseTextExtend(p: Parse, more: string)
    requires Closing(p) && Closing(Extend(p, more)) && !Blank(p)
    ensures CloseLine(Extend(p, more)) == Extend(CloseLine(p), more)
  {
    TerminateExtend(p.data, p.index, more);
  }

  lemma CloseBlankExtend(p: Parse, more: string)
    requires Closing(p) && Closing(Extend(p, more)) && Blank(p)
    ensures CloseLine(Extend(p, more)) == Extend(CloseLine(p), more)
  {
    hide DecodeLines, LineIn;
    TerminateExtend(p.data, p.index, more);
    var d := Terminate(p.data, p.index);
    var closed := p.lines[..|p.lines| - 1];
    ClosedLinesIn(p.data, closed, p.lines[|p.lines| - 1].first);
    TerminateKeepsLines(p.data, p.index, closed);
    if p.state == ReadHeader {
      var q := p.(data := d, index := p.index + 1, lines := closed, headerSize := p.index + 1);
      EndHeaderExtend(q, more);
      assert CloseLine(p) == EndHeader(q);
      assert Extend(p, more).lines[..|p.lines| - 1] == closed;
      assert CloseLine(Extend(p, more)) == EndHeader(Extend(q, more));
    }
  }

  lemma LineByteExtend(p: Parse, more: string)
    requires Wf(p) && Wf(Extend(p, more)) && ReadingLine(p.state) && p.index < |p.data|
    ensures LineByte(Extend(p, more)) == Extend(LineByte(p), more)
  {
    hide CloseLine;
    if p.data[p.index] == '\n' && p.data[p.index - 1] == '\r' {
      ClosingExtend(p, more);
      if Blank(p) { CloseBlankExtend(p, more); } else { CloseTextExtend(p, more); }
    }
  }

  lemma SizeByteExtend(p: Parse, more: string)
    requires Wf(p) && Wf(Extend(p, more)) && p.state == ChunkHeader && p.index < |p.data|
    ensures SizeByte(Extend(p, more)) == Extend(SizeByte(p), more)
  {
    hide HexDigit;
    if p.data[p.index] == '\n' {
      TerminateExtend(p.data, p.index, more);
    }
  }

  /** A step that can be taken now is the same step after more bytes arrived. */
  lemma StepExtend(p: Parse, more: string)
    requires Wf(p) && !Blocked(p)
    ensures Wf(Extend(p, more)) && !Blocked(Extend(p, more))
    ensures Step(Extend(p, more)) == Extend(Step(p), more)
  {
    hide LineByte, SizeByte;
    ExtendWf(p, more);
    if ReadingLine(p.state) {
      LineByteExtend(p, more);
    } else if p.state == ChunkHeader {
      SizeByteExtend(p, more);
    }
  }

  /** Analysing early changes nothing: analysis of what has arrived, followed by
      analysis when the rest is there, is one analysis of everything. */
  lemma {:induction false} AnalyzeEarly(p: Parse, more: string)
    requires Wf(p)
    ensures Wf(Extend(p, more)) && Wf(Extend(Analyze(p), more))
    ensures Analyze(Extend(Analyze(p), more)) == Analyze(Extend(p, more))
    decreases |p.data| - p.index, Rank(p.state)
  {
    hide Wf, Step;
    ExtendWf(p, more);
    ExtendWf(Analyze(p), more);
    if !Blocked(p) {
      StepWf(p);
      StepProgress(p);
      StepExtend(p, more);
      AnalyzeEarly(Step(p), more);
    }
  }

  function Concat(parts: seq<string>): string {
    if parts == [] then "" else parts[0] + Concat(parts[1..])
  }

  /** Push each part and analyse after every push. */
  function Feed(p: Parse, parts: seq<string>): (r: Parse)
    requires Wf(p)
    ensures Wf(r)
    decreases |parts|
  {
    if parts == [] then p
    else
      ExtendWf(p, parts[0]);
      Feed(Analyze(Extend(p, parts[0])), parts[1..])
  }

  lemma ExtendTwice(p: Parse, a: string, b: string)
    ensures Extend(Extend(p, a), b) == Extend(p, a + b)
  {
    assert p.data + a + b == p.data + (a + b);
  }

  /** Fragmentation independence. However the bytes are cut into pushes, the
      parser ends in the state, indices, lines, flags, chunks and buffer bytes of
      one push followed by one analysis. */
  lemma {:induction false} FragmentationIndependent(p: Parse, parts: seq<string>)
    requires Wf(p) && Blocked(p)
    ensures Wf(Extend(p, Concat(parts)))
    ensures Feed(p, parts) == Analyze(Extend(p, Concat(parts)))
    decreases |parts|
  {
    hide Wf, Analyze;
    ExtendWf(p, Concat(parts));
    if parts == [] {
      assert Extend(p, "") == p;
      Stay(p);
    } else {
      var first := Extend(p, parts[0]);
      var rest := Concat(parts[1..]);
      ExtendWf(p, parts[0]);
      FragmentationIndependent(Analyze(first), parts[1..]);
      AnalyzeEarly(first, rest);
      ExtendTwice(p, parts[0], rest);
    }
  }

  /** From the first byte of a connection on: every way to cut the same bytes ends in
      the same parser. */
  lemma FragmentationFromStart(parts: seq<string>)
    ensures Wf(Load("")) && Wf(Load(Concat(parts)))
    ensures Feed(Load(""), parts) == Analyze(Load(Concat(parts)))
  {
    LoadWf("");
    LoadWf(Concat(parts));
    hide Wf, Analyze, Feed;
    FragmentationIndependent(Load(""), parts);
    assert "" + Concat(parts) == Concat(parts);
  }
}
