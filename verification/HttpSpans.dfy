/** What the recorded spans mean: order and disjointness read off the parser
    invariant, the text of the header lines, the body bytes, and how both relate
    to the bytes that were received. */
module HttpSpans {
  import opened Common
  import opened HttpText
  import opened HttpParser

  // ------------------------------------------------------------ span order

  /** The recorded lines in every reachable state: each closed line ends before
      the index with two NULs behind it, and lines come in order without overlap.
      Only the last can be open. */
  lemma LineSpans(p: Parse)
    requires Wf(p)
    ensures forall i :: 0 <= i < |p.lines| && p.lines[i].length.Known? ==>
              var end := p.lines[i].first + p.lines[i].length.n;
              end + 2 <= p.index <= |p.data| && p.data[end] == NUL && p.data[end + 1] == NUL
    ensures forall i, j :: 0 <= i < j < |p.lines| ==>
              p.lines[i].length.Known? && p.lines[i].first + p.lines[i].length.n + 2 <= p.lines[j].first
  {
    if HasOpenLine(p.lines) {
      var closed := p.lines[..|p.lines| - 1];
      ClosedOrder(p.data, closed, p.lines[|p.lines| - 1].first);
      forall i, j | 0 <= i < j < |p.lines|
        ensures p.lines[i].length.Known? && p.lines[i].first + p.lines[i].length.n + 2 <= p.lines[j].first
      {
        assert p.lines[i] == closed[i];
        if j < |closed| { assert p.lines[j] == closed[j]; }
      }
    } else {
      ClosedOrder(p.data, p.lines, p.index);
    }
  }

  lemma {:induction false} ClosedOrder(data: string, lines: seq<Line>, limit: nat)
    requires ClosedLines(data, lines, limit)
    ensures AllIn(data, lines)
    ensures forall i :: 0 <= i < |lines| ==>
              lines[i].length.Known? && lines[i].first + lines[i].length.n + 2 <= limit
    ensures forall i, j :: 0 <= i < j < |lines| ==>
              lines[i].length.Known? && lines[i].first + lines[i].length.n + 2 <= lines[j].first
    decreases |lines|
  {
    if lines != [] {
      var front := lines[..|lines| - 1];
      ClosedOrder(data, front, lines[|front|].first);
      forall i | 0 <= i < |lines| ensures lines[i] == if i < |front| then front[i] else lines[|front|] {}
    }
  }

  predicate Inside(data: string, chunks: seq<Chunk>) {
    forall i :: 0 <= i < |chunks| ==> chunks[i].first + chunks[i].length <= |data|
  }

  lemma {:induction false} ChunkOrder(chunks: seq<Chunk>, low: nat, tail: nat, high: nat)
    requires ChunksIn(chunks, low, tail, high)
    ensures forall i :: 0 <= i < |chunks| ==>
              low <= chunks[i].first && chunks[i].first + chunks[i].length + tail <= high
    ensures forall i, j :: 0 <= i < j < |chunks| ==>
              chunks[i].first + chunks[i].length + tail <= chunks[j].first
    decreases |chunks|
  {
    if chunks != [] {
      var front := chunks[..|chunks| - 1];
      ChunkOrder(front, low, tail, chunks[|front|].first);
      forall i | 0 <= i < |chunks| ensures chunks[i] == if i < |front| then front[i] else chunks[|front|] {}
    }
  }

  /** The body spans of a reachable state lie in the consumed bytes exactly when
      no recorded chunk size is one of the two largest 64-bit values, the ones for
      which `size + 2` wraps past the check of what has arrived. (A buffer is
      shorter than those sizes.) */
  lemma ChunkSpans(p: Parse)
    requires Wf(p) && |p.data| < SIZE_T - 2
    ensures NoWrap(p.chunks) <==> Inside(p.data, p.chunks)
    ensures NoWrap(p.chunks) ==>
              && (forall i :: 0 <= i < |p.chunks| ==>
                    p.headerSize <= p.chunks[i].first && p.chunks[i].first + p.chunks[i].length <= p.index)
              && (forall i, j :: 0 <= i < j < |p.chunks| ==>
                    p.chunks[i].first + p.chunks[i].length <= p.chunks[j].first)
  {
    if NoWrap(p.chunks) {
      ChunkOrder(p.chunks, p.headerSize, Tail(p), p.index);
    }
  }

  // --------------------------------------------------------- text and body

  predicate AllClosed(data: string, lines: seq<Line>) {
    AllIn(data, lines) && forall i :: 0 <= i < |lines| ==> lines[i].length.Known?
  }

  function Texts(data: string, lines: seq<Line>): seq<string>
    requires AllClosed(data, lines)
  {
    seq(|lines|, i requires 0 <= i < |lines| => LineText(data, lines[i]))
  }

  /** The recorded body: the chunks one after the other. */
  function Body(data: string, chunks: seq<Chunk>): string
    requires Inside(data, chunks)
    decreases |chunks|
  {
    if chunks == [] then ""
    else
      var last := chunks[|chunks| - 1];
      Body(data, chunks[..|chunks| - 1]) + data[last.first..last.first + last.length]
  }

  lemma {:induction false} BodyAgrees(a: string, b: string, chunks: seq<Chunk>, low: nat, tail: nat, high: nat)
    requires ChunksIn(chunks, low, tail, high)
    requires tail <= high ==> high - tail <= |a| && high - tail <= |b|
    requires forall i :: 0 <= i < high - tail ==> a[i] == b[i]
    ensures Inside(a, chunks) && Inside(b, chunks) && Body(a, chunks) == Body(b, chunks)
    decreases |chunks|
  {
    ChunkOrder(chunks, low, tail, high);
    if chunks != [] {
      var last := chunks[|chunks| - 1];
      BodyAgrees(a, b, chunks[..|chunks| - 1], low, tail, last.first);
      assert a[last.first..last.first + last.length] == b[last.first..last.first + last.length];
    }
  }

  lemma LineTextAgrees(a: string, b: string, l: Line)
    requires LineIn(a, l) && LineIn(b, l) && l.length.Known?
    requires forall i :: 0 <= i < l.first + l.length.n ==> a[i] == b[i]
    ensures LineText(a, l) == LineText(b, l)
  {
  }

  /** Bytes from the last line's second NUL on do not matter to the texts. */
  lemma {:induction false} TextsAgree(a: string, b: string, lines: seq<Line>, limit: nat)
    requires ClosedLines(a, lines, limit) && limit <= |a| && limit <= |b|
    requires forall i :: 0 <= i < limit ==> a[i] == b[i]
    ensures ClosedLines(b, lines, limit)
    ensures AllClosed(a, lines) && AllClosed(b, lines) && Texts(a, lines) == Texts(b, lines)
    decreases |lines|
  {
    if lines != [] {
      var front, last := lines[..|lines| - 1], lines[|lines| - 1];
      TextsAgree(a, b, front, last.first);
      LineTextAgrees(a, b, last);
      assert lines == front + [last];
      TextsSnoc(a, front, last);
      TextsSnoc(b, front, last);
    }
  }

  lemma TextsSnoc(data: string, lines: seq<Line>, l: Line)
    requires AllClosed(data, lines) && LineIn(data, l) && l.length.Known?
    ensures AllClosed(data, lines + [l])
    ensures Texts(data, lines + [l]) == Texts(data, lines) + [LineText(data, l)]
  {
  }

  // -------------------------------------------------- the received bytes

  /** The buffer still shows the received bytes, except that line ends already
      analysed may read NUL. */
  ghost predicate Mirror(data: string, index: nat, input: string) {
    && |data| == |input|
    && forall i :: 0 <= i < |data| ==>
         data[i] == input[i] || (i < index && data[i] == NUL && (input[i] == '\r' || input[i] == '\n'))
  }

  /** The body spans show the received bytes unchanged. */
  ghost predicate BodyIntact(p: Parse, input: string) {
    NoWrap(p.chunks) ==>
      Inside(p.data, p.chunks) && Inside(input, p.chunks) && Body(p.data, p.chunks) == Body(input, p.chunks)
  }

  ghost predicate Shows(p: Parse, input: string) {
    Mirror(p.data, p.index, input) && BodyIntact(p, input)
  }

  lemma MirrorTerminate(data: string, index: nat, input: string)
    requires Mirror(data, index, input) && 0 < index < |data|
    requires data[index] == '\n' && data[index - 1] == '\r'
    ensures Mirror(Terminate(data, index), index + 1, input)
  {
  }

  lemma BodyTerminate(p: Parse)
    requires ChunksIn(p.chunks, p.headerSize, Tail(p), p.index)
    requires 0 < p.index < |p.data| && (p.chunks != [] ==> p.flags.chunked)
    ensures Inside(p.data, p.chunks) && Inside(Terminate(p.data, p.index), p.chunks)
    ensures Body(Terminate(p.data, p.index), p.chunks) == Body(p.data, p.chunks)
  {
    if p.chunks != [] {
      BodyAgrees(p.data, Terminate(p.data, p.index), p.chunks, p.headerSize, 2, p.index);
    }
  }

  lemma ShowsAddChunk(p: Parse, input: string, c: Chunk)
    requires BodyIntact(p, input) && Mirror(p.data, p.index, input) && p.index == c.first
    requires c.length < SIZE_T - 2 ==> c.first + c.length <= |p.data|
    ensures BodyIntact(p.(chunks := p.chunks + [c]), input)
  {
    var more := p.chunks + [c];
    assert more[..|p.chunks|] == p.chunks;
    if NoWrap(more) {
      assert more[|p.chunks|] == c;
      forall i | 0 <= i < |p.chunks| ensures p.chunks[i].length < SIZE_T - 2 { assert more[i] == p.chunks[i]; }
      assert p.data[c.first..c.first + c.length] == input[c.first..c.first + c.length];
    }
  }

  /** What a step over a byte of a line does to the buffer. */
  lemma LineStepData(p: Parse)
    requires Wf(p) && !Blocked(p) && (ReadingLine(p.state) || p.state == ChunkHeader)
    ensures p.index > 0 || p.data[p.index] != '\n'
    ensures var q := Step(p);
      && q.chunks == p.chunks
      && if p.data[p.index] == '\n' && p.data[p.index - 1] == '\r' then
           q.index == p.index + 1 && q.data == Terminate(p.data, p.index)
         else
           q.index >= p.index && q.data == p.data
  {
  }

  lemma StepShowsLine(p: Parse, input: string)
    requires Wf(p) && !Blocked(p) && Shows(p, input)
    requires ReadingLine(p.state) || p.state == ChunkHeader
    ensures Shows(Step(p), input)
  {
    hide Step;
    LineStepData(p);
    if p.data[p.index] == '\n' && p.data[p.index - 1] == '\r' {
      MirrorTerminate(p.data, p.index, input);
      if NoWrap(p.chunks) {
        BodyTerminate(p);
      }
    }
  }

  lemma StepShows(p: Parse, input: string)
    requires Wf(p) && !Blocked(p) && Shows(p, input)
    ensures Shows(Step(p), input)
  {
    if p.state == ReadBody {
      ShowsAddChunk(p, input, Chunk(p.index, p.flags.contentLength));
    } else if p.state == ChunkBody {
      ShowsAddChunk(p, input, Chunk(p.index, p.chunkSize));
    } else if p.state != Start {
      StepShowsLine(p, input);
    }
  }

  lemma {:induction false} AnalyzeShows(p: Parse, input: string)
    requires Wf(p) && Shows(p, input)
    ensures Shows(Analyze(p), input)
    decreases |p.data| - p.index, Rank(p.state)
  {
    if !Blocked(p) {
      StepWf(p);
      StepProgress(p);
      StepShows(p, input);
      AnalyzeShows(Step(p), input);
    }
  }

  /** Overwriting line ends in place never damages what is handed out: after any
      bytes are parsed, the body read from the buffer is the body as received, and
      every byte that changed was a carriage return or a line feed. */
  lemma BufferFaithful(input: string)
    ensures Wf(Load(input))
    ensures Shows(Analyze(Load(input)), input)
  {
    LoadWf(input);
    AnalyzeShows(Load(input), input);
  }

  // ---------------------------------------------------- header precedence

  function DecodeTexts(f: Flags, texts: seq<string>): Flags
    decreases |texts|
  {
    if texts == [] then f else DecodeTexts(DecodeText(f, texts[0]), texts[1..])
  }

  lemma {:induction false} DecodeLinesTexts(data: string, lines: seq<Line>, headerSize: nat, f: Flags)
    requires AllClosed(data, lines)
    requires forall i :: 0 <= i < |lines| ==> lines[i].first <= headerSize
    ensures DecodeLines(data, lines, headerSize, f) == DecodeTexts(f, Texts(data, lines))
    decreases |lines|
  {
    if lines != [] {
      assert Texts(data, lines)[1..] == Texts(data, lines[1..]);
      DecodeLinesTexts(data, lines[1..], headerSize, DecodeText(f, LineText(data, lines[0])));
    }
  }

  predicate Names(text: string, word: string) {
    Split(text).Some? && AnyCase(word, Split(text).value.name)
  }

  predicate NoneNames(texts: seq<string>, word: string) {
    forall i :: 0 <= i < |texts| ==> !Names(texts[i], word)
  }

  lemma NoneNamesRest(texts: seq<string>, word: string)
    requires texts != []
    ensures NoneNames(texts, word) ==> !Names(texts[0], word) && NoneNames(texts[1..], word)
  {
  }

  lemma UnnamedLineKeeps(f: Flags, text: string)
    ensures Names(text, "Connection") || DecodeText(f, text).keepAlive == f.keepAlive
    ensures Names(text, "Content-Length") || DecodeText(f, text).contentLength == f.contentLength
    ensures Names(text, "Transfer-Encoding") || DecodeText(f, text).chunked == f.chunked
  {
    if Split(text).Some? {
      KnownNames(Split(text).value);
    }
    hide SameWord, AnyCase, Split;
  }

  lemma KnownNames(h: Header)
    ensures SameWord("Connection", h.name) <==> AnyCase("Connection", h.name)
    ensures SameWord("Content-Length", h.name) <==> AnyCase("Content-Length", h.name)
    ensures SameWord("Transfer-Encoding", h.name) <==> AnyCase("Transfer-Encoding", h.name)
    ensures SameWord("Keep-Alive", h.value) <==> AnyCase("Keep-Alive", h.value)
    ensures SameWord("chunked", h.value) <==> AnyCase("chunked", h.value)
  {
    hide SameWord, AnyCase;
    SameWordIs("Connection", h.name);
    SameWordIs("Content-Length", h.name);
    SameWordIs("Transfer-Encoding", h.name);
    SameWordIs("Keep-Alive", h.value);
    SameWordIs("chunked", h.value);
  }

  lemma NamesApart(name: string)
    ensures AnyCase("Connection", name) ==> !AnyCase("Content-Length", name) && !AnyCase("Transfer-Encoding", name)
    ensures AnyCase("Content-Length", name) ==> !AnyCase("Transfer-Encoding", name)
  {
  }

  /** What a line naming a header makes of its flag. */
  lemma NamedLineSets(f: Flags, text: string)
    requires Split(text).Some?
    ensures var value := Split(text).value.value; var g := DecodeText(f, text);
      && (Names(text, "Connection") ==> g.keepAlive == AnyCase("Keep-Alive", value))
      && (Names(text, "Content-Length") ==> g.contentLength == AtoiSize(value))
      && (Names(text, "Transfer-Encoding") ==> g.chunked == AnyCase("chunked", value))
  {
    KnownNames(Split(text).value);
    NamesApart(Split(text).value.name);
    hide SameWord, AnyCase, Split, AtoiSize;
  }

  lemma {:induction false} UnnamedKeep(f: Flags, texts: seq<string>)
    ensures NoneNames(texts, "Connection") ==> DecodeTexts(f, texts).keepAlive == f.keepAlive
    ensures NoneNames(texts, "Content-Length") ==> DecodeTexts(f, texts).contentLength == f.contentLength
    ensures NoneNames(texts, "Transfer-Encoding") ==> DecodeTexts(f, texts).chunked == f.chunked
    decreases |texts|
  {
    if texts != [] {
      UnnamedKeep(DecodeText(f, texts[0]), texts[1..]);
      UnnamedLineKeeps(f, texts[0]);
      NoneNamesRest(texts, "Connection");
      NoneNamesRest(texts, "Content-Length");
      NoneNamesRest(texts, "Transfer-Encoding");
    }
  }

  /** The last line naming a header, in any letter case, decides its value, whatever came
      before. */
  lemma {:induction false} LastWins(f: Flags, texts: seq<string>, k: nat)
    requires k < |texts| && Split(texts[k]).Some?
    ensures var value := Split(texts[k]).value.value;
      && (Names(texts[k], "Connection") && NoneNames(texts[k + 1..], "Connection") ==>
            DecodeTexts(f, texts).keepAlive == AnyCase("Keep-Alive", value))
      && (Names(texts[k], "Content-Length") && NoneNames(texts[k + 1..], "Content-Length") ==>
            DecodeTexts(f, texts).contentLength == AtoiSize(value))
      && (Names(texts[k], "Transfer-Encoding") && NoneNames(texts[k + 1..], "Transfer-Encoding") ==>
            DecodeTexts(f, texts).chunked == AnyCase("chunked", value))
    decreases k
  {
    hide AnyCase, Split, AtoiSize, DecodeText;
    if k == 0 {
      NamedLineSets(f, texts[0]);
      UnnamedKeep(DecodeText(f, texts[0]), texts[1..]);
    } else {
      assert texts[1..][k - 1..][1..] == texts[k + 1..] && texts[1..][k - 1 + 1..] == texts[k + 1..];
      LastWins(DecodeText(f, texts[0]), texts[1..], k - 1);
    }
  }
}
