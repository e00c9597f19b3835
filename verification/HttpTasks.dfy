/** What a task gets: the lines, the flags, the body and the headers of the message as it
    was written, whatever follows it in the stream. */
module HttpTasks {
  import opened Common
  import opened HttpText
  import opened HttpHeaders
  import opened HttpParser
  import opened HttpSpans
  import opened HttpRoundTrip
  import opened HttpNumbers
  import opened HttpPipeline

  /** A finished context that shows these lines, flags and this body. */
  ghost predicate Holds(f: Parse, texts: seq<string>, flags: Flags, body: string) {
    && f.state == Done && AtEnd(f) && f.flags == flags
    && AllClosed(f.data, f.lines) && Texts(f.data, f.lines) == texts
    && Inside(f.data, f.chunks) && Body(f.data, f.chunks) == body
  }

  /** What is handed over is everything the analysis found out: the analysed bytes, the
      lines, the flags and the body spans, and with them the texts and the body. */
  lemma HandedOver(a: Parse)
    requires Wf(a) && a.state == Done
    ensures var f := Former(a);
      && f.state == Done && f.data == a.data[..a.index] && f.index == a.index == |f.data|
      && f.lines == a.lines && f.flags == a.flags && f.headerSize == a.headerSize && f.chunks == a.chunks
      && AllClosed(a.data, a.lines) && AllClosed(f.data, f.lines) && Texts(f.data, f.lines) == Texts(a.data, a.lines)
      && (NoWrap(a.chunks) ==>
            Inside(a.data, a.chunks) && Inside(f.data, f.chunks) && Body(f.data, f.chunks) == Body(a.data, a.chunks))
  {
    var f := Former(a);
    TextsAgree(a.data, f.data, a.lines, a.index);
    if NoWrap(a.chunks) {
      BodyAgrees(a.data, f.data, a.chunks, a.headerSize, Tail(a), a.index);
    }
  }

  /** The task of the message at the front of a stream, whatever follows. */
  lemma TaskHolds(m: string, rest: string, texts: seq<string>, flags: Flags, body: string)
    requires Wf(Load(m)) && Holds(Analyze(Load(m)), texts, flags, body)
    ensures Wf(Load(m + rest)) && Wf(Load(rest))
    ensures var tasks := Serve(Load(m + rest)).tasks;
      tasks != [] && Holds(tasks[0], texts, flags, body) && tasks[1..] == Serve(Load(rest)).tasks
  {
    AnalyzeSize(Load(m));
    var a := Analyze(Load(m));
    assert a.data[..a.index] == a.data;
    AloneIs(m);
    hide Wf, Analyze, Serve;
    FirstMessage(m, rest);
    var tasks := Serve(Load(m + rest)).tasks;
    assert tasks == [tasks[0]] + tasks[1..];
  }

  /** The context made for a message alone. */
  lemma AloneIs(m: string)
    requires Wf(Load(m)) && Analyze(Load(m)).state == Done && AtEnd(Analyze(Load(m))) && |Analyze(Load(m)).data| == |m|
    ensures Complete(m)
    ensures Alone(m) == Analyze(Load(m)).(chunkSize := 0, sizeStart := false, sizeDone := false)
  {
    hide Analyze;
    var a := Analyze(Load(m));
    assert a.data[..a.index] == a.data;
  }

  lemma AnalyzeSize(p: Parse)
    requires Wf(p)
    ensures |Analyze(p).data| == |p.data|
  {
    ChunksGrow(p);
  }

  /** A message with a Content-Length, wherever its bytes end in the stream. */
  lemma LengthTask(texts: seq<string>, body: string, rest: string)
    requires AllLines(texts)
    requires !DecodeTexts(NO_FLAGS, texts).chunked && DecodeTexts(NO_FLAGS, texts).contentLength == |body| < SIZE_T - 2
    ensures var stream := Head(texts) + body + rest;
      && Wf(Load(stream)) && Wf(Load(rest))
      && var tasks := Serve(Load(stream)).tasks;
         tasks != [] && Holds(tasks[0], texts, DecodeTexts(NO_FLAGS, texts), body) && tasks[1..] == Serve(Load(rest)).tasks
  {
    hide Analyze, Serve, DecodeTexts, Wf;
    ContentLengthRoundTrip(texts, body);
    TaskHolds(Head(texts) + body, rest, texts, DecodeTexts(NO_FLAGS, texts), body);
  }

  /** A chunked message. */
  lemma ChunkedTask(texts: seq<string>, xs: seq<Piece>, digits: string, extension: string, trailer: seq<string>, rest: string)
    requires AllLines(texts) && DecodeTexts(NO_FLAGS, texts).chunked
    requires forall i :: 0 <= i < |xs| ==> PieceOk(xs[i])
    requires SizeText(digits, extension) && HexValue(0, digits) == 0
    requires AllLines(trailer)
    ensures var stream := Head(texts) + ChunkedText(xs, digits, extension, trailer) + rest;
      && Wf(Load(stream)) && Wf(Load(rest))
      && var tasks := Serve(Load(stream)).tasks;
         tasks != [] && Holds(tasks[0], texts + trailer, DecodeTexts(NO_FLAGS, texts), Bodies(xs)) && tasks[1..] == Serve(Load(rest)).tasks
  {
    hide Analyze, Serve, DecodeTexts, Wf, PieceOk;
    ChunkedRoundTrip(texts, xs, digits, extension, trailer);
    TaskHolds(Head(texts) + ChunkedText(xs, digits, extension, trailer), rest, texts + trailer, DecodeTexts(NO_FLAGS, texts), Bodies(xs));
  }

  /** In a stream of any complete messages, each task gets what the analysis of its message
      alone finds out, apart from the size of a chunk under way, of which there is none. */
  lemma {:induction false} EachTask(ms: seq<string>, tail: string, i: nat)
    requires AllComplete(ms) && Incomplete(tail) && i < |ms|
    ensures Wf(Load(Concat(ms) + tail))
    ensures var tasks := Serve(Load(Concat(ms) + tail)).tasks;
      && |tasks| == |ms|
      && tasks[i] == Analyze(Load(ms[i])).(chunkSize := 0, sizeStart := false, sizeDone := false)
  {
    hide Analyze, Serve;
    PipelineSplits(ms, tail);
    AloneAt(ms, i);
    AnalyzeSize(Load(ms[i]));
    AloneIs(ms[i]);
  }

  lemma {:induction false} AloneAt(ms: seq<string>, i: nat)
    requires AllComplete(ms) && i < |ms|
    ensures |AllAlone(ms)| == |ms| && AllAlone(ms)[i] == Alone(ms[i])
    decreases |ms|
  {
    hide Complete, Alone;
    if i > 0 {
      AloneAt(ms[1..], i - 1);
    } else {
      AloneCount(ms[1..]);
    }
  }

  lemma {:induction false} AloneCount(ms: seq<string>)
    requires AllComplete(ms)
    ensures |AllAlone(ms)| == |ms|
    decreases |ms|
  {
    hide Complete, Alone;
    if ms != [] { AloneCount(ms[1..]); }
  }

  // ------------------------------------------------------------------ headers

  /** A line of a header: a name and a value, or text that reads as neither. */
  datatype Item = Field(h: Header) | Junk(text: string)

  predicate ItemOk(x: Item) {
    match x
    case Field(h) => Writable(h)
    case Junk(text) => OneLine(text) && Split(text).None?
  }

  function ItemText(x: Item): string {
    match x
    case Field(h) => HeaderLine(h)
    case Junk(text) => text
  }

  function ItemTexts(xs: seq<Item>): seq<string> {
    seq(|xs|, i requires 0 <= i < |xs| => ItemText(xs[i]))
  }

  /** The names and values among them. */
  function Fields(xs: seq<Item>): seq<Header>
    decreases |xs|
  {
    if xs == [] then [] else (if xs[0].Field? then [xs[0].h] else []) + Fields(xs[1..])
  }

  lemma ItemReads(x: Item)
    requires ItemOk(x)
    ensures OneLine(ItemText(x)) && Pairs([ItemText(x)]) == if x.Field? then [x.h] else []
  {
    if x.Field? { HeaderLineReads(x.h); }
    hide Split, HeaderLine, Writable, OneLine;
    assert [ItemText(x)][..0] == [] && Pairs([]) == [];
  }

  lemma {:induction false} FieldsRead(xs: seq<Item>)
    requires forall i :: 0 <= i < |xs| ==> ItemOk(xs[i])
    ensures AllLines(ItemTexts(xs)) && Pairs(ItemTexts(xs)) == Fields(xs)
    decreases |xs|
  {
    hide ItemOk, ItemText, OneLine, Pairs;
    if xs == [] {
      assert ItemTexts(xs) == [];
      NoPairs();
    } else {
      ItemReads(xs[0]);
      FieldsRead(xs[1..]);
      var first, others := [ItemText(xs[0])], ItemTexts(xs[1..]);
      assert ItemTexts(xs) == first + others;
      PairsAppend(first, others);
      AllLinesAppend(first, others);
    }
  }

  lemma NoPairs()
    ensures Pairs([]) == []
  {
  }

  lemma AllLinesAppend(a: seq<string>, b: seq<string>)
    requires AllLines(a) && AllLines(b)
    ensures AllLines(a + b)
  {
    hide OneLine;
  }

  /** The headers written are the headers read back from the task, in order, whatever
      lines that are no headers stand between them, the body and the rest. */
  lemma HeadersReadBack(xs: seq<Item>, body: string, rest: string)
    requires forall i :: 0 <= i < |xs| ==> ItemOk(xs[i])
    requires var f := DecodeTexts(NO_FLAGS, ItemTexts(xs)); !f.chunked && f.contentLength == |body| < SIZE_T - 2
    ensures var stream := Head(ItemTexts(xs)) + body + rest;
      && Wf(Load(stream))
      && var tasks := Serve(Load(stream)).tasks;
         tasks != [] && AllClosed(tasks[0].data, tasks[0].lines) && Pairs(Texts(tasks[0].data, tasks[0].lines)) == Fields(xs)
  {
    hide Serve, DecodeTexts, Wf, ItemOk, Fields, ItemTexts, Pairs;
    FieldsRead(xs);
    LengthTask(ItemTexts(xs), body, rest);
  }

  /** With the chunked coding the headers of the trailer follow. */
  lemma TrailerReadBack(xs: seq<Item>, pieces: seq<Piece>, digits: string, extension: string, trailer: seq<Item>, rest: string)
    requires forall i :: 0 <= i < |xs| ==> ItemOk(xs[i])
    requires forall i :: 0 <= i < |trailer| ==> ItemOk(trailer[i])
    requires DecodeTexts(NO_FLAGS, ItemTexts(xs)).chunked && forall i :: 0 <= i < |pieces| ==> PieceOk(pieces[i])
    requires SizeText(digits, extension) && HexValue(0, digits) == 0
    ensures var stream := Head(ItemTexts(xs)) + ChunkedText(pieces, digits, extension, ItemTexts(trailer)) + rest;
      && Wf(Load(stream))
      && var tasks := Serve(Load(stream)).tasks;
         tasks != [] && AllClosed(tasks[0].data, tasks[0].lines) && Pairs(Texts(tasks[0].data, tasks[0].lines)) == Fields(xs) + Fields(trailer)
  {
    hide Serve, DecodeTexts, Wf, ItemOk, Fields, ItemTexts, Pairs, PieceOk;
    FieldsRead(xs);
    FieldsRead(trailer);
    PairsAppend(ItemTexts(xs), ItemTexts(trailer));
    ChunkedTask(ItemTexts(xs), pieces, digits, extension, ItemTexts(trailer), rest);
  }
}
