/** `ChttpContext`: the parser over its buffer, byte loops and in-place writes
    included, proved to compute the machine of HttpParser. */
module HttpContext {
  import opened Common
  import opened HttpText
  import opened HttpParser
  import opened HttpHeaders
  import opened HttpSpans
  import opened HttpPipeline
  import opened Buffer

  /** At `first` the memory holds `text` and a NUL behind it. */
  ghost predicate CString(ptr: array<char>, first: nat, text: string)
    reads ptr
  {
    && first + |text| < ptr.Length
    && ptr[first + |text|] == NUL
    && forall k :: 0 <= k < |text| ==> ptr[first + k] == text[k]
  }

  /** `while (isspace(*p)) ++p;` */
  method PastSpaces(ptr: array<char>, from: nat, ghost first: nat, ghost text: string) returns (at: nat)
    requires CString(ptr, first, text) && first <= from <= first + |text|
    ensures from <= at <= first + |text| && at == first + SkipSpaces(text, from - first)
  {
    at := from;
    while IsSpace(ptr[at])
      invariant from <= at <= first + |text|
      invariant SkipSpaces(text, from - first) == SkipSpaces(text, at - first)
      decreases first + |text| - at
    {
      assert ptr[at] == text[at - first];
      at := at + 1;
    }
    assert at < first + |text| ==> ptr[at] == text[at - first];
  }

  /** `strchr(p, ':')`, which stops at a NUL. */
  method ToColon(ptr: array<char>, from: nat, ghost first: nat, ghost text: string) returns (at: nat)
    requires CString(ptr, first, text) && first <= from <= first + |text|
    ensures from <= at <= first + |text| && at == first + FindColon(text, from - first)
  {
    at := from;
    while ptr[at] != ':' && ptr[at] != NUL
      invariant from <= at <= first + |text|
      invariant FindColon(text, from - first) == FindColon(text, at - first)
      decreases first + |text| - at
    {
      assert ptr[at] == text[at - first];
      at := at + 1;
    }
    assert at < first + |text| ==> ptr[at] == text[at - first];
  }

  /** `while (isspace(*(p - 1))) --p;` down to a byte that is no white space. */
  method BackOverSpaces(ptr: array<char>, head: nat, from: nat, ghost first: nat, ghost text: string) returns (at: nat)
    requires CString(ptr, first, text) && first <= head < from <= first + |text|
    requires !IsSpace(ptr[head])
    ensures !IsSpace(text[head - first])
    ensures head < at <= from && at == first + TrimTail(text, head - first, from - first)
  {
    assert ptr[head] == text[head - first];
    at := from;
    while IsSpace(ptr[at - 1])
      invariant head < at <= from
      invariant TrimTail(text, head - first, from - first) == TrimTail(text, head - first, at - first)
      decreases at
    {
      assert ptr[at - 1] == text[at - 1 - first];
      at := at - 1;
    }
    assert ptr[at - 1] == text[at - 1 - first];
  }

  lemma CStringLine(ptr: array<char>, n: nat, line: Line)
    requires n <= ptr.Length && LineIn(ptr[..n], line) && line.length.Known?
    ensures CString(ptr, line.first, LineText(ptr[..n], line))
  {
  }

  lemma CStringPart(ptr: array<char>, first: nat, text: string, a: nat, b: nat)
    requires CString(ptr, first, text) && a <= b <= |text|
    ensures ptr[first + a..first + b] == text[a..b]
  {
  }

  /** The name part of the scan: `ok` when there is a colon with a name before it. */
  method ScanName(ptr: array<char>, first: nat, ghost text: string) returns (ok: bool, head: nat, tail: nat, colon: nat)
    requires CString(ptr, first, text)
    ensures var a := SkipSpaces(text, 0); var c := FindColon(text, a);
      && (ok <==> c < |text| && text[c] == ':' && a < c)
      && (ok ==> head == first + a && tail == first + TrimTail(text, a, c) && colon == first + c)
  {
    tail := 0;
    head := PastSpaces(ptr, first, first, text);
    colon := ToColon(ptr, head, first, text);
    assert colon < first + |text| ==> ptr[colon] == text[colon - first];
    ok := ptr[colon] != NUL && colon != head;
    if ok {
      assert ptr[head] == text[head - first];
      tail := BackOverSpaces(ptr, head, colon, first, text);
    }
  }

  /** The value part: `ok` when something other than white space follows. */
  method ScanValue(ptr: array<char>, from: nat, end: nat, ghost first: nat, ghost text: string) returns (ok: bool, head: nat, tail: nat)
    requires CString(ptr, first, text) && first <= from <= end == first + |text|
    ensures var d := SkipSpaces(text, from - first);
      && (ok <==> d < |text|)
      && (ok ==> head == first + d && tail == first + TrimTail(text, d, |text|))
  {
    head := PastSpaces(ptr, from, first, text);
    tail := end;
    ok := tail != head;
    if ok {
      assert ptr[head] == text[head - first];
      tail := BackOverSpaces(ptr, head, tail, first, text);
    }
  }

  /** The pointer scan of one line: it never leaves the line and its terminator, and
      it finds what `Split` finds in the line's text. */
  method ScanText(ptr: array<char>, first: nat, length: nat, ghost text: string) returns (h: Option<Header>)
    requires CString(ptr, first, text) && length == |text|
    ensures h == Split(text)
  {
    hide Split, SkipSpaces, FindColon, TrimTail, CString;
    var named, nameHead, nameTail, colon := ScanName(ptr, first, text);
    ghost var a := SkipSpaces(text, 0);
    if !named {
      SplitNone(text, a, FindColon(text, a));
      return None;
    }
    var valued, valueHead, valueTail := ScanValue(ptr, colon + 1, first + length, first, text);
    if !valued {
      SplitNone(text, a, FindColon(text, a));
      return None;
    }
    ScanFound(ptr, first, text, a, nameTail - first, colon - first, valueHead - first, valueTail - first);
    h := Some(Header(ptr[nameHead..nameTail], ptr[valueHead..valueTail]));
  }

  /** The header found between these positions of the text, read from memory. */
  lemma ScanFound(ptr: array<char>, first: nat, text: string, a: nat, b: nat, c: nat, d: nat, e: nat)
    requires CString(ptr, first, text)
    requires SkipSpaces(text, 0) == a && FindColon(text, a) == c < |text| && text[c] == ':' && a < c && TrimTail(text, a, c) == b
    requires SkipSpaces(text, c + 1) == d < |text| && TrimTail(text, d, |text|) == e
    ensures first + e <= ptr.Length
    ensures Split(text) == Some(Header(ptr[first + a..first + b], ptr[first + d..first + e]))
  {
    hide Split, SkipSpaces, FindColon, TrimTail;
    CStringPart(ptr, first, text, a, b);
    CStringPart(ptr, first, text, d, e);
    SplitParts(text, a, b, c, d, e, Header(text[a..b], text[d..e]));
  }

  /** The open line is gone, and its CRLF overwritten. */
  ghost function Dropped(p: Parse): Parse
    requires Closing(p)
  {
    p.(data := Terminate(p.data, p.index), index := p.index + 1, lines := p.lines[..|p.lines| - 1])
  }

  /** What a blank line comes to. */
  lemma CloseIs(p: Parse)
    requires Closing(p) && ReadingLine(p.state) && Blank(p)
    ensures AllIn(Dropped(p).data, Dropped(p).lines)
    ensures CloseLine(p) ==
      if p.state == ReadHeader then EndHeader(Dropped(p).(headerSize := p.index + 1)) else Dropped(p).(state := Done)
  {
    hide EndHeader;
    ClosedLinesIn(p.data, p.lines[..|p.lines| - 1], p.lines[|p.lines| - 1].first);
    TerminateKeepsLines(p.data, p.index, p.lines[..|p.lines| - 1]);
  }

  /** Analysis may take one step first; the step makes progress. */
  lemma AnalyzeStep(p: Parse)
    requires Wf(p) && !Blocked(p)
    ensures Wf(Step(p)) && Analyze(Step(p)) == Analyze(p) && Later(p, Step(p))
  {
    hide Wf, Step;
    StepWf(p);
    StepProgress(p);
  }

  lemma LineStep(p: Parse)
    requires Wf(p) && ReadingLine(p.state) && p.index < |p.data|
    ensures Wf(LineByte(p)) && Analyze(LineByte(p)) == Analyze(p) && Later(p, LineByte(p))
  {
    AnalyzeStep(p);
  }

  /** What a line feed finds. */
  lemma LineFacts(p: Parse)
    requires Wf(p) && ReadingLine(p.state) && p.index < |p.data|
    ensures HasOpenLine(p.lines) && p.lines[|p.lines| - 1].first <= p.index
    ensures p.data[p.index] == '\n' ==>
      p.index > 0 && (p.data[p.index - 1] == '\r' ==> Closing(p) && p.lines[|p.lines| - 1].first <= p.index - 1)
  {
  }

  lemma ChunkStep(p: Parse)
    requires Wf(p) && !Blocked(p) && p.state == ChunkBody
    ensures Step(p) == p.(chunks := p.chunks + [Chunk(p.index, p.chunkSize)], index := p.index + Need(p.chunkSize),
                          state := ChunkHeader, chunkSize := 0, sizeStart := false, sizeDone := false)
  {
    hide Wf;
  }

  lemma DoneFacts(p: Parse)
    requires Wf(p) && p.state == Done
    ensures 0 < p.index <= |p.data|
  {
  }

  /** `q` comes after `p` in an analysis. */
  predicate Later(p: Parse, q: Parse) {
    |q.data| == |p.data| && (q.index > p.index || (q.index == p.index && Rank(q.state) < Rank(p.state)))
  }

  /** What `getContent` comes to: no message yet, the body, an exception, or a copy from
      outside the buffer, which is undefined. */
  datatype Got = Incomplete | Content | Thrown | OutOfBounds

  class ChttpContext {
    var maxBufferSize: nat
    const buffer: Cbuffer
    var nowIndex: nat
    var analysisIndex: nat
    var state: HttpState
    var lines: seq<Line>
    var headerSize: nat
    var keepAlive: bool
    var chunked: bool
    var contentLength: nat
    var nowChunkSize: nat
    var chunkSizeStart: bool
    var chunkSizeDone: bool
    var chunks: seq<Chunk>

    /** The buffer holds a block, so the fields have been initialised. */
    ghost predicate Inited()
      reads buffer
    {
      buffer.data != null
    }

    ghost predicate Bounded()
      reads this, buffer
    {
      buffer.Valid() && (Inited() ==> nowIndex <= buffer.length)
    }

    ghost function View(): (p: Parse)
      reads this, buffer, buffer.data
      requires Bounded() && Inited()
      ensures |p.data| == nowIndex
    {
      Parse(buffer.data[..nowIndex], analysisIndex, state, lines, headerSize,
            HttpParser.Flags(keepAlive, chunked, contentLength), nowChunkSize, chunkSizeStart, chunkSizeDone, chunks)
    }

    ghost predicate Valid()
      reads this, buffer, buffer.data
    {
      Bounded() && (Inited() ==> buffer.length <= maxBufferSize && Wf(View()))
    }

    constructor (maxSize: nat)
      ensures Valid() && !Inited() && fresh(buffer) && maxBufferSize == maxSize
    {
      maxBufferSize := maxSize;
      buffer := new Cbuffer();
      nowIndex, analysisIndex, state, lines, headerSize := 0, 0, Start, [], 0;
      keepAlive, chunked, contentLength := false, false, 0;
      nowChunkSize, chunkSizeStart, chunkSizeDone, chunks := 0, false, false, [];
    }

    /** `init`: the first 4 KB, once. `memory` is whether a block can be had; if not, the
        context is still to be initialised. */
    method Init(memory: bool) returns (thrown: bool)
      requires Valid()
      modifies this, buffer
      ensures Valid()
      ensures thrown <==> !old(Inited()) && !memory
      ensures Inited() <==> !thrown
      ensures buffer.data == old(buffer.data) || fresh(buffer.data)
      ensures thrown ==> nowIndex == old(nowIndex) && buffer.length == old(buffer.length)
      ensures old(Inited()) ==> View() == old(View()) && unchanged(this) && unchanged(buffer)
      ensures !old(Inited()) && !thrown ==> View() == Load("") && buffer.length == 0x1000
    {
      hide Wf;
      thrown := false;
      if 0 == buffer.maxLength {
        if maxBufferSize < 0x1000 {
          maxBufferSize := 0x1000;
        }
        thrown := buffer.Resize(0x1000, 0, memory);
        if thrown {
          return;
        }
        nowIndex := 0;
        Reset();
        LoadWf("");
      }
    }

    /** The length the buffer grows to. */
    ghost function Target(): nat
      reads this, buffer
    {
      if buffer.length * 2 > maxBufferSize then maxBufferSize else buffer.length * 2
    }

    /** More room is wanted, and takes another block. */
    ghost predicate Grows()
      reads this, buffer
    {
      !Inited() || (buffer.length < nowIndex + 0x800 && Target() > buffer.maxLength)
    }

    /** Nothing has been received, so that the block is freed before another one is
        allocated. */
    ghost predicate Replaces()
      reads this, buffer
    {
      Inited() && nowIndex == 0
    }

    /** Makes room for more bytes behind the received ones, which survive: at least
        2 KB unless the buffer has reached its maximum. When there is no memory the
        parser and its bytes are as before, except that an initialised context without
        any bytes has lost its block; that one had less than 2 KB. */
    method PrepareBuffer(memory: bool) returns (offset: nat, room: nat, thrown: bool)
      requires Valid()
      modifies this, buffer
      ensures thrown <==> old(Grows()) && !memory
      ensures thrown && !old(Replaces()) ==>
        Valid() && (Inited() <==> old(Inited())) && (Inited() ==> View() == old(View()) && buffer.data == old(buffer.data))
      ensures thrown && old(Replaces()) ==> buffer.data == null && buffer.length == old(buffer.length) < 0x800
      ensures !thrown ==> Valid() && Inited()
      ensures !thrown ==> View() == if old(Inited()) then old(View()) else Load("")
      ensures buffer.data == null || buffer.data == old(buffer.data) || fresh(buffer.data)
      ensures !thrown ==> offset == nowIndex && offset + room == buffer.length <= maxBufferSize
      ensures !thrown && old(Inited() ==> buffer.length >= 0x1000) ==> room >= 0x800 || buffer.length == maxBufferSize
    {
      hide Wf;
      offset, room := 0, 0;
      thrown := Init(memory);
      if thrown {
        return;
      }
      label ready:
      if buffer.length - nowIndex < 0x800 {
        if buffer.length * 2 > maxBufferSize {
          thrown := buffer.Resize(maxBufferSize, nowIndex, memory);
        } else {
          thrown := buffer.Resize(buffer.length * 2, nowIndex, memory);
        }
        if thrown {
          return;
        }
      }
      if nowIndex > 0 {
        assert buffer.data[..nowIndex] == old@ready(buffer.data[..nowIndex]);
      } else {
        assert buffer.data[..nowIndex] == "";
      }
      assert View() == old@ready(View());
      offset, room := nowIndex, buffer.length - nowIndex;
    }

    /** Takes in the bytes written behind the received ones, if they fit. */
    method RecvPush(length: nat)
      requires Valid() && Inited()
      modifies this`nowIndex
      ensures Valid()
      ensures View() == if old(nowIndex) + length <= buffer.length
                        then Extend(old(View()), buffer.data[old(nowIndex)..old(nowIndex) + length])
                        else old(View())
    {
      hide Wf;
      ghost var was := View();
      if nowIndex + length <= buffer.length {
        ghost var more := buffer.data[nowIndex..nowIndex + length];
        ExtendWf(was, more);
        assert buffer.data[..nowIndex] + more == buffer.data[..nowIndex + length];
        nowIndex := nowIndex + length;
        assert View() == Extend(was, more);
      }
    }

    // ------------------------------------------------------- header lines

    ghost predicate ScanReady(line: Line)
      reads this, buffer, buffer.data
    {
      Bounded() && Inited() && LineIn(buffer.data[..nowIndex], line) && line.length.Known?
    }

    /** The scan the header decoder and `getParameter` share. */
    method ScanLine(line: Line) returns (h: Option<Header>)
      requires ScanReady(line)
      ensures h == Split(LineText(buffer.data[..nowIndex], line))
    {
      ghost var text := LineText(buffer.data[..nowIndex], line);
      CStringLine(buffer.data, nowIndex, line);
      h := ScanText(buffer.data, line.first, line.length.n, text);
    }

    method KvDecoder(h: Header)
      modifies this`keepAlive, this`contentLength, this`chunked
      ensures HttpParser.Flags(keepAlive, chunked, contentLength)
           == KvDecode(old(HttpParser.Flags(keepAlive, chunked, contentLength)), h)
    {
      if SameWord("Connection", h.name) {
        keepAlive := SameWord("Keep-Alive", h.value);
      } else if SameWord("Content-Length", h.name) {
        contentLength := AtoiSize(h.value);
      } else if SameWord("Transfer-Encoding", h.name) {
        chunked := SameWord("chunked", h.value);
      }
    }

    method DecodeLineHere(line: Line)
      requires ScanReady(line)
      modifies this`keepAlive, this`contentLength, this`chunked
      ensures HttpParser.Flags(keepAlive, chunked, contentLength)
           == DecodeText(old(HttpParser.Flags(keepAlive, chunked, contentLength)), LineText(buffer.data[..nowIndex], line))
    {
      var h := ScanLine(line);
      if h.Some? {
        KvDecoder(h.value);
      }
    }

    method DecoderHeaderAndUpdateState()
      requires Bounded() && Inited() && AllIn(buffer.data[..nowIndex], lines)
      modifies this`keepAlive, this`contentLength, this`chunked, this`state, this`nowChunkSize, this`chunkSizeStart, this`chunkSizeDone
      ensures Bounded() && View() == EndHeader(old(View()))
    {
      hide DecodeText, LineText;
      ghost var data := buffer.data[..nowIndex];
      ghost var goal := DecodeLines(data, lines, headerSize, HttpParser.Flags(keepAlive, chunked, contentLength));
      var i := 0;
      while i < |lines|
        invariant 0 <= i <= |lines| && Bounded()
        invariant DecodeLines(data, lines[i..], headerSize, HttpParser.Flags(keepAlive, chunked, contentLength)) == goal
        modifies this`keepAlive, this`contentLength, this`chunked
      {
        var line := lines[i];
        assert lines[i..][0] == line && lines[i..][1..] == lines[i + 1..];
        if line.first > headerSize {
          break;
        }
        if line.length.Known? {
          DecodeLineHere(line);
        }
        i := i + 1;
      }
      SwitchState();
    }

    /** The end of `decoderHeaderAndUpdateState`: which framing the header selected. */
    method SwitchState()
      requires Bounded() && Inited()
      modifies this`state, this`nowChunkSize, this`chunkSizeStart, this`chunkSizeDone
      ensures Bounded() && View() == SelectFraming(old(View()))
    {
      if chunked {
        state, nowChunkSize, chunkSizeStart, chunkSizeDone := ChunkHeader, 0, false, false;
      } else if contentLength > 0 {
        state := ReadBody;
      } else {
        state := Done;
      }
    }

    // ----------------------------------------------------------- analysis

    /** Overwrites the line end at the index with NULs. */
    method NulHere()
      requires Bounded() && Inited() && 0 < analysisIndex < nowIndex
      modifies buffer.data
      ensures Bounded() && View() == old(View()).(data := Terminate(old(View()).data, analysisIndex))
    {
      ghost var was := View();
      var ptr := buffer.data;
      ptr[analysisIndex - 1], ptr[analysisIndex] := NUL, NUL;
      assert ptr[..nowIndex] == Terminate(was.data, was.index);
    }

    /** A line feed closing a line with text: overwrite the CRLF with NULs, fix the
        length of the open line, and open the next one. */
    method CloseTextHere()
      requires Bounded() && Inited() && Closing(View()) && !Blank(View())
      modifies this`analysisIndex, this`lines, buffer.data
      ensures Bounded() && Closing(old(View())) && View() == CloseLine(old(View()))
    {
      NulHere();
      var last := lines[|lines| - 1];
      lines := lines[..|lines| - 1] + [Line(last.first, Known(analysisIndex - 1 - last.first)), Line(analysisIndex + 1, Unknown)];
      analysisIndex := analysisIndex + 1;
    }

    /** Drops the open line, whose CRLF is overwritten. */
    method DropLine()
      requires Bounded() && Inited() && Closing(View())
      modifies this`analysisIndex, this`lines, buffer.data
      ensures Bounded() && Closing(old(View()))
      ensures View() == Dropped(old(View()))
    {
      NulHere();
      lines := lines[..|lines| - 1];
      analysisIndex := analysisIndex + 1;
    }

    /** The blank line: the open line is dropped, and the header or the message is
        over. */
    method CloseBlankHere()
      requires Bounded() && Inited() && ReadingLine(state) && Closing(View()) && Blank(View())
      modifies this`analysisIndex, this`state, this`lines, this`headerSize, this`keepAlive, this`contentLength, this`chunked,
        this`nowChunkSize, this`chunkSizeStart, this`chunkSizeDone, this`chunks, buffer.data
      ensures Bounded() && Closing(old(View())) && View() == CloseLine(old(View()))
    {
      CloseIs(View());
      hide EndHeader, CloseLine, Blank, Closing;
      DropLine();
      if state == ReadHeader {
        headerSize := analysisIndex;
        DecoderHeaderAndUpdateState();
      } else {
        state := Done;
      }
    }

    /** One turn of the loops of `state_read_header` and `state_read_chunk_footer`. */
    method LineByteHere()
      requires Valid() && Inited() && ReadingLine(state) && analysisIndex < nowIndex
      modifies this`analysisIndex, this`state, this`lines, this`headerSize, this`keepAlive, this`contentLength, this`chunked,
        this`nowChunkSize, this`chunkSizeStart, this`chunkSizeDone, this`chunks, buffer.data
      ensures Bounded() && View() == LineByte(old(View()))
    {
      LineFacts(View());
      hide Wf, Closing, CloseLine;
      if '\n' == buffer.data[analysisIndex] {
        if buffer.data[analysisIndex - 1] != '\r' {
          state := Bad;
        } else if analysisIndex - 1 - lines[|lines| - 1].first == 0 {
          CloseBlankHere();
        } else {
          CloseTextHere();
        }
      } else {
        analysisIndex := analysisIndex + 1;
      }
    }

    /** The do-while loops of `state_read_header` and `state_read_chunk_footer`. */
    method ReadLines()
      requires Valid() && Inited() && ReadingLine(state) && analysisIndex < nowIndex
      modifies this`analysisIndex, this`state, this`lines, this`headerSize, this`keepAlive, this`contentLength, this`chunked,
        this`nowChunkSize, this`chunkSizeStart, this`chunkSizeDone, this`chunks, buffer.data
      ensures Valid() && Analyze(View()) == Analyze(old(View()))
      ensures Later(old(View()), View())
    {
      hide Wf, Step, Analyze, LineByte;
      ghost var start := View();
      while true
        invariant Valid() && Inited() && ReadingLine(state) && start.index <= analysisIndex < nowIndex
        invariant Analyze(View()) == Analyze(start)
        invariant View() == start || Later(start, View())
        decreases nowIndex - analysisIndex
      {
        LineStep(View());
        LineByteHere();
        if !ReadingLine(state) || !(analysisIndex < nowIndex) {
          return;
        }
        assert state != Bad;
      }
    }

    /** One byte of a chunk size line, other than its line feed. */
    method SizeByteHere()
      requires Valid() && Inited() && state == ChunkHeader && analysisIndex < nowIndex
      requires buffer.data[analysisIndex] != '\n'
      modifies this`analysisIndex, this`nowChunkSize, this`chunkSizeStart, this`chunkSizeDone
      ensures Bounded() && View() == SizeByte(old(View()))
    {
      hide Wf;
      var ch := buffer.data[analysisIndex];
      if !chunkSizeDone {
        if '0' <= ch <= '9' {
          nowChunkSize := (nowChunkSize * 16 + ((ch as int) - ('0' as int))) % SIZE_T;
          chunkSizeStart := true;
        } else if 'a' <= ch <= 'f' {
          nowChunkSize := (nowChunkSize * 16 + ((ch as int) - ('a' as int)) + 10) % SIZE_T;
          chunkSizeStart := true;
        } else if 'A' <= ch <= 'F' {
          nowChunkSize := (nowChunkSize * 16 + ((ch as int) - ('A' as int)) + 10) % SIZE_T;
          chunkSizeStart := true;
        } else if chunkSizeStart || !IsSpace(ch) {
          chunkSizeDone := true;
        }
      }
      analysisIndex := analysisIndex + 1;
    }

    /** The accepted end of a chunk size line. */
    method SizeEnd()
      requires Bounded() && Inited() && 0 < analysisIndex < nowIndex
      modifies this`analysisIndex, this`state, this`lines, buffer.data
      ensures Bounded() && View() == SizeLine(old(View()))
    {
      NulHere();
      analysisIndex := analysisIndex + 1;
      if nowChunkSize > 0 {
        state := ChunkBody;
      } else {
        state := ChunkFooter;
        lines := lines + [Line(analysisIndex, Unknown)];
      }
    }

    /** The line feed of a chunk size line. */
    method SizeLineHere()
      requires Valid() && Inited() && state == ChunkHeader && analysisIndex < nowIndex
      requires buffer.data[analysisIndex] == '\n'
      modifies this`analysisIndex, this`state, this`lines, buffer.data
      ensures Bounded() && View() == SizeByte(old(View()))
    {
      hide SizeLine;
      if buffer.data[analysisIndex - 1] != '\r' {
        state := Bad;
      } else {
        SizeEnd();
      }
    }

    /** The do-while loop of `state_read_chunk_header`. */
    method ReadSize()
      requires Valid() && Inited() && state == ChunkHeader && analysisIndex < nowIndex
      modifies this`analysisIndex, this`state, this`lines, this`headerSize, this`keepAlive, this`contentLength, this`chunked,
        this`nowChunkSize, this`chunkSizeStart, this`chunkSizeDone, this`chunks, buffer.data
      ensures Valid() && Analyze(View()) == Analyze(old(View()))
      ensures Later(old(View()), View())
    {
      hide Wf;
      ghost var start := View();
      while true
        invariant Valid() && Inited() && state == ChunkHeader && start.index <= analysisIndex < nowIndex
        invariant Analyze(View()) == Analyze(start)
        invariant View() == start || Later(start, View())
        decreases nowIndex - analysisIndex
      {
        ghost var p := View();
        AnalyzeStep(p);
        if '\n' == buffer.data[analysisIndex] {
          SizeLineHere();
          return;
        }
        SizeByteHere();
        if !(analysisIndex < nowIndex) {
          return;
        }
      }
    }

    method StartHere()
      requires Valid() && Inited() && state == Start && analysisIndex < nowIndex
      modifies this`state, this`lines
      ensures Bounded() && View() == Step(old(View()))
    {
      if analysisIndex != 0 || '\n' == buffer.data[0] {
        state := Bad;
      } else {
        state := ReadHeader;
        lines := lines + [Line(0, Unknown)];
      }
    }

    /** The Content-Length body, once all of it has arrived. */
    method BodyHere()
      requires Valid() && Inited() && state == ReadBody && !Blocked(View())
      modifies this`analysisIndex, this`state, this`chunks
      ensures Bounded() && View() == Step(old(View()))
    {
      hide Wf;
      chunks := chunks + [Chunk(analysisIndex, contentLength)];
      analysisIndex := analysisIndex + contentLength;
      state := Done;
    }

    /** The bytes of a chunk and its closing CRLF, once all have arrived. */
    method ChunkBodyHere()
      requires Valid() && Inited() && state == ChunkBody && !Blocked(View())
      modifies this`analysisIndex, this`state, this`chunks, this`nowChunkSize, this`chunkSizeStart, this`chunkSizeDone
      ensures Bounded() && View() == Step(old(View()))
    {
      ChunkStep(View());
      hide Wf, Step, Blocked, Need;
      chunks := chunks + [Chunk(analysisIndex, nowChunkSize)];
      analysisIndex := analysisIndex + Need(nowChunkSize);
      state, nowChunkSize, chunkSizeStart, chunkSizeDone := ChunkHeader, 0, false, false;
    }

    /** Whether something can be decoded: at least one new byte, and for a body all of
        it, the closing CRLF of a chunk included. */
    method Enough() returns (enough: bool)
      requires Valid() && Inited() && state != Done && state != Bad
      ensures enough <==> !Blocked(View())
    {
      enough :=
        && analysisIndex < nowIndex
        && (state == ReadBody ==> nowIndex - analysisIndex >= contentLength)
        && (state == ChunkBody ==> nowIndex - analysisIndex >= (nowChunkSize + 2) % SIZE_T);
    }

    /** The switch over the state. */
    method Dispatch()
      requires Valid() && Inited() && !Blocked(View())
      modifies this`analysisIndex, this`state, this`lines, this`headerSize, this`keepAlive, this`contentLength, this`chunked,
        this`nowChunkSize, this`chunkSizeStart, this`chunkSizeDone, this`chunks, buffer.data
      ensures Valid() && Analyze(View()) == Analyze(old(View())) && Later(old(View()), View())
    {
      hide Wf;
      AnalyzeStep(View());
      match state {
        case Start => StartHere();
        case ReadHeader => ReadLines();
        case ReadBody => BodyHere();
        case ChunkHeader => ReadSize();
        case ChunkBody => ChunkBodyHere();
        case ChunkFooter => ReadLines();
      }
    }

    /** `analysis`: true when the message is complete or malformed. */
    method Analysis() returns (stop: bool)
      requires Valid() && Inited()
      modifies this`analysisIndex, this`state, this`lines, this`headerSize, this`keepAlive, this`contentLength, this`chunked,
        this`nowChunkSize, this`chunkSizeStart, this`chunkSizeDone, this`chunks, buffer.data
      ensures Valid() && View() == Analyze(old(View()))
      ensures stop <==> state == Done || state == Bad
    {
      hide Wf;
      ghost var goal := Analyze(View());
      while true
        invariant Valid() && Inited() && Analyze(View()) == goal
        decreases nowIndex - analysisIndex, Rank(state)
      {
        if state == Done || state == Bad {
          return true;
        }
        var enough := Enough();
        if !enough {
          return false;
        }
        Dispatch();
      }
    }

    // --------------------------------------------------------- what it got

    /** The headers of all recorded lines, trailer included, in order: one for each line
        that reads as a header. */
    method GetParameter() returns (ok: bool, parameters: seq<Header>)
      requires Valid() && Inited()
      ensures ok <==> state == Done
      ensures ok ==> AllClosed(View().data, lines) && Lists(Texts(View().data, lines), parameters)
      ensures ok ==> parameters == Pairs(Texts(View().data, lines))
      ensures !ok ==> parameters == []
    {
      if state != Done {
        return false, [];
      }
      ClosedOrder(View().data, lines, analysisIndex);
      PairsAre(Texts(View().data, lines));
      hide Wf, Lists, Pairs, Texts;
      parameters := CollectHeaders();
      ok := true;
    }

    /** The loop over the recorded lines. */
    method CollectHeaders() returns (parameters: seq<Header>)
      requires Bounded() && Inited() && AllClosed(View().data, lines)
      ensures parameters == Pairs(Texts(View().data, lines))
    {
      parameters := [];
      ghost var texts := Texts(View().data, lines);
      var i := 0;
      while i < |lines|
        invariant 0 <= i <= |lines|
        invariant parameters == Pairs(texts[..i])
      {
        var line := lines[i];
        assert texts[..i + 1][..i] == texts[..i];
        if line.length.Known? {
          var h := ScanLine(line);
          if h.Some? {
            parameters := parameters + [h.value];
          }
        }
        i := i + 1;
      }
      assert texts[..|lines|] == texts;
    }

    method TotalLength(ghost data: string) returns (total: nat)
      requires Inside(data, chunks)
      ensures total == |Body(data, chunks)|
    {
      total := 0;
      var k := 0;
      while k < |chunks|
        invariant 0 <= k <= |chunks| && total == |Body(data, chunks[..k])|
      {
        assert chunks[..k + 1][..k] == chunks[..k];
        total := total + chunks[k].length;
        k := k + 1;
      }
      assert chunks[..|chunks|] == chunks;
    }

    /** Whether a recorded span leaves the received bytes. (The code does not ask: it
        copies what lies behind its buffer.) */
    method SpansInside() returns (inside: bool)
      requires Valid() && Inited()
      ensures inside <==> Inside(View().data, chunks)
    {
      var k := 0;
      while k < |chunks|
        invariant 0 <= k <= |chunks|
        invariant forall i :: 0 <= i < k ==> chunks[i].first + chunks[i].length <= nowIndex
      {
        if chunks[k].first + chunks[k].length > nowIndex {
          return false;
        }
        k := k + 1;
      }
      return true;
    }

    /** Copies the body, or the merged chunks, into `out`; `memory` is whether a block
        of that size can be had. */
    method GetContent(out: Cbuffer, memory: bool) returns (r: Got)
      requires Valid() && Inited()
      requires out.Valid() && out != buffer && out.data != buffer.data
      modifies out, out.data
      ensures r.Incomplete? <==> state != Done
      ensures r.OutOfBounds? <==> state == Done && !Inside(View().data, chunks)
      ensures nowIndex < SIZE_T - 2 ==> (r.OutOfBounds? <==> state == Done && !NoWrap(chunks))
      ensures r.Thrown? <==> state == Done && Inside(View().data, chunks) && !memory && |Body(View().data, chunks)| > old(out.maxLength)
      ensures !r.Thrown? ==> out.Valid() && (out.data == null || out.data == old(out.data) || fresh(out.data))
      ensures r.Content? ==> out.Contents() == Body(View().data, chunks)
      ensures r.Incomplete? || r.OutOfBounds? ==> unchanged(out)
    {
      if nowIndex < SIZE_T - 2 {
        ChunkSpans(View());
      }
      if state != Done {
        return Incomplete;
      }
      ghost var data := View().data;
      var inside := SpansInside();
      if !inside {
        return OutOfBounds;
      }
      var total := TotalLength(data);
      var thrown := out.Resize(total, 0, memory);
      if thrown {
        return Thrown;
      }
      if total > 0 {
        CopyChunks(buffer.data, out.data, chunks, data);
      } else {
        assert Body(data, chunks) == "";
      }
      return Content;
    }

    /** `former` gets the analysed bytes. */
    method FillBytes(former: ChttpContext, memory: bool) returns (thrown: bool)
      requires Bounded() && Inited() && 0 < analysisIndex <= nowIndex && former != this
      requires former.buffer != buffer && former.buffer.Valid() && former.buffer.data != buffer.data
      modifies former, former.buffer, former.buffer.data
      ensures thrown <==> analysisIndex > old(former.buffer.maxLength) && !memory
      ensures thrown ==> former.buffer.data == null && former.buffer.length == old(former.buffer.length) && former.buffer.maxLength == old(former.buffer.maxLength)
      ensures former.buffer.data == null || former.buffer.data == old(former.buffer.data) || fresh(former.buffer.data)
      ensures !thrown ==> former.Bounded() && former.Inited() && former.nowIndex == former.buffer.length == analysisIndex
      ensures !thrown ==> former.buffer.data[..former.nowIndex] == buffer.data[..nowIndex][..analysisIndex]
      ensures former.maxBufferSize == maxBufferSize
    {
      former.maxBufferSize := maxBufferSize;
      thrown := former.buffer.Set(buffer.data, analysisIndex, memory);
      if !thrown {
        former.nowIndex := analysisIndex;
      }
    }

    /** The indices and the recorded spans. */
    method TakeSpans(index: nat, lines: seq<Line>, headerSize: nat, chunks: seq<Chunk>)
      requires Bounded() && Inited()
      modifies this`analysisIndex, this`state, this`lines, this`headerSize, this`chunks
      ensures Bounded()
      ensures View() == old(View()).(index := index, state := Done, lines := lines, headerSize := headerSize, chunks := chunks)
    {
      this.analysisIndex, this.state := index, Done;
      this.lines, this.headerSize, this.chunks := lines, headerSize, chunks;
    }

    /** What the header said, and no chunk size in progress. */
    method TakeFlags(keepAlive: bool, chunked: bool, contentLength: nat)
      requires Bounded() && Inited()
      modifies this`keepAlive, this`contentLength, this`chunked, this`nowChunkSize, this`chunkSizeStart, this`chunkSizeDone
      ensures Bounded()
      ensures View() == old(View()).(flags := HttpParser.Flags(keepAlive, chunked, contentLength),
                                     chunkSize := 0, sizeStart := false, sizeDone := false)
    {
      this.keepAlive, this.chunked, this.contentLength := keepAlive, chunked, contentLength;
      nowChunkSize, chunkSizeStart, chunkSizeDone := 0, false, false;
    }

    /** Moves the analysed message and everything known about it to `former`. */
    method FillFormer(former: ChttpContext, memory: bool) returns (thrown: bool)
      requires Valid() && Inited() && state == Done && former != this
      requires former.buffer != buffer && former.buffer.Valid() && former.buffer.data != buffer.data
      modifies former, former.buffer, former.buffer.data
      ensures thrown <==> analysisIndex > old(former.buffer.maxLength) && !memory
      ensures thrown ==> former.buffer.data == null && former.buffer.length == old(former.buffer.length) && former.buffer.maxLength == old(former.buffer.maxLength)
      ensures former.buffer.data == null || former.buffer.data == old(former.buffer.data) || fresh(former.buffer.data)
      ensures !thrown ==> former.Valid() && former.Inited() && former.View() == Former(View())
    {
      hide Wf;
      DoneFacts(View());
      thrown := FillBytes(former, memory);
      if thrown {
        return;
      }
      former.TakeSpans(analysisIndex, lines, headerSize, chunks);
      former.TakeFlags(keepAlive, chunked, contentLength);
      assert former.View() == Former(View());
      FormerWf(View());
    }

    /** Back to the start of a message. */
    method Reset()
      requires Bounded() && Inited() && buffer.length <= maxBufferSize
      modifies this`analysisIndex, this`state, this`lines, this`headerSize, this`keepAlive, this`contentLength, this`chunked,
        this`nowChunkSize, this`chunkSizeStart, this`chunkSizeDone, this`chunks
      ensures Valid() && View() == Load(old(View()).data)
    {
      hide Wf;
      TakeFlags(false, false, 0);
      analysisIndex, state, lines, headerSize, chunks := 0, Start, [], 0, [];
      LoadWf(View().data);
    }

    /** Hands a complete message over to `former` and slides the bytes behind it to
        the front, ready to be parsed as the next message. When there is no memory for
        the message it stays here, and `former` has no block. */
    method ReinitForNext(former: ChttpContext, memory: bool) returns (ok: bool, thrown: bool)
      requires Valid() && Inited() && former != this
      requires former.buffer != buffer && former.buffer.Valid() && former.buffer.data != buffer.data
      modifies this, buffer.data, former, former.buffer, former.buffer.data
      ensures Valid() && Inited()
      ensures thrown <==> old(state) == Done && old(analysisIndex) > old(former.buffer.maxLength) && !memory
      ensures ok <==> old(state) == Done && !thrown
      ensures maxBufferSize == old(maxBufferSize)
      ensures former.buffer.data == null || former.buffer.data == old(former.buffer.data) || fresh(former.buffer.data)
      ensures ok ==> former.Valid() && former.Inited()
      ensures ok ==> View() == Next(old(View())) && former.View() == Former(old(View()))
      ensures !ok ==> View() == old(View()) && unchanged(this)
      ensures !ok && !thrown ==> unchanged(former) && unchanged(former.buffer)
      ensures thrown ==> former.buffer.data == null && former.buffer.length == old(former.buffer.length) && former.buffer.maxLength == old(former.buffer.maxLength)
    {
      hide Wf;
      thrown := false;
      if state != Done {
        return false, false;
      }
      DoneFacts(View());
      thrown := FillFormer(former, memory);
      if thrown {
        return false, true;
      }
      SlideDown();
      Reset();
      return true, false;
    }

    /** The `memmove` of what has not been analysed. */
    method SlideDown()
      requires Bounded() && Inited() && analysisIndex <= nowIndex
      modifies this`nowIndex, buffer.data
      ensures Bounded() && nowIndex == old(nowIndex) - analysisIndex
      ensures buffer.data[..nowIndex] == old(buffer.data[analysisIndex..nowIndex])
    {
      var extra := nowIndex - analysisIndex;
      var ptr := buffer.data;
      forall i | 0 <= i < extra { ptr[i] := ptr[analysisIndex + i]; }
      nowIndex := extra;
    }
  }

  method Memcpy(dst: array<char>, at: nat, src: array<char>, from: nat, length: nat, ghost data: string)
    requires src != dst && from + length <= |data| <= src.Length && src[..|data|] == data
    requires at + length <= dst.Length
    modifies dst
    ensures dst[..at + length] == old(dst[..at]) + data[from..from + length]
  {
    assert forall i :: 0 <= i < |data| ==> src[i] == src[..|data|][i];
    forall i | 0 <= i < length { dst[at + i] := src[from + i]; }
  }

  /** One `memcpy` per chunk, each behind the one before. */
  method CopyChunks(src: array<char>, dst: array<char>, chunks: seq<Chunk>, ghost data: string)
    requires src != dst && |data| <= src.Length && src[..|data|] == data
    requires Inside(data, chunks) && |Body(data, chunks)| <= dst.Length
    modifies dst
    ensures dst[..|Body(data, chunks)|] == Body(data, chunks)
  {
    var at := 0;
    var k := 0;
    while k < |chunks|
      invariant 0 <= k <= |chunks| && at == |Body(data, chunks[..k])| <= dst.Length
      invariant dst[..at] == Body(data, chunks[..k])
    {
      assert chunks[..k + 1][..k] == chunks[..k];
      var c := chunks[k];
      BodyGrows(data, chunks, k + 1);
      Memcpy(dst, at, src, c.first, c.length, data);
      at := at + c.length;
      k := k + 1;
    }
    assert chunks[..|chunks|] == chunks;
  }

  lemma {:induction false} BodyGrows(data: string, chunks: seq<Chunk>, k: nat)
    requires Inside(data, chunks) && k <= |chunks|
    ensures |Body(data, chunks[..k])| <= |Body(data, chunks)|
    decreases |chunks| - k
  {
    if k < |chunks| {
      assert chunks[..k + 1][..k] == chunks[..k];
      BodyGrows(data, chunks, k + 1);
    } else {
      assert chunks[..k] == chunks;
    }
  }
}
