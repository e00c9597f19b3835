/** Writing a message and parsing it back: header lines, Content-Length bodies and
    the chunked coding of section 7.1 of RFC 9112. */
module HttpRoundTrip {
  import opened Common
  import opened HttpText
  import opened HttpParser
  import opened HttpSpans

  const CRLF := "\r\n"

  /** Text that can stand on one line. */
  predicate OneLine(s: string) {
    s != "" && '\n' !in s
  }

  // ----------------------------------------------------- feeding in pieces

  /** All received bytes are analysed. */
  predicate AtEnd(p: Parse) {
    p.index == |p.data|
  }

  /** Analysis of two further pieces, when the first one leaves the parser in `q`. */
  lemma Two(p: Parse, a: string, b: string, q: Parse)
    requires Wf(p) && Wf(Extend(p, a)) && Analyze(Extend(p, a)) == q
    ensures Wf(Extend(p, a + b)) && Wf(Extend(q, b))
    ensures Analyze(Extend(p, a + b)) == Analyze(Extend(q, b))
  {
    hide Wf, Analyze;
    AnalyzeEarly(Extend(p, a), b);
    ExtendTwice(p, a, b);
  }

  /** A step that uses up all bytes is a whole analysis. */
  lemma LastStep(p: Parse)
    requires Wf(p) && !Blocked(p)
    requires AtEnd(Step(p)) && |Step(p).data| == |p.data|
    ensures Wf(Step(p)) && Analyze(p) == Step(p)
  {
    hide Wf, Step;
    StepWf(p);
    StepProgress(p);
  }

  // ----------------------------------------------------------------- lines

  /** Ready to read a line: in the header or trailer, at the start of a line. */
  ghost predicate AtLine(p: Parse) {
    && Wf(p) && ReadingLine(p.state) && AtEnd(p) && p.index > 0
    && p.lines[|p.lines| - 1].first == p.index
  }

  /** Bytes other than line feeds are taken into the open line. */
  lemma {:induction false} RunPlain(p: Parse)
    requires Wf(p) && ReadingLine(p.state) && '\n' !in p.data[p.index..]
    ensures Analyze(p) == p.(index := |p.data|)
    decreases |p.data| - p.index
  {
    if p.index < |p.data| {
      assert p.data[p.index] == p.data[p.index..][0];
      StepWf(p);
      var q := Step(p);
      assert q == p.(index := p.index + 1);
      assert q.data[q.index..] == p.data[p.index..][1..];
      RunPlain(q);
    }
  }

  /** One line fed to a parser that has already taken its text and its carriage
      return. */
  lemma FeedLineEnd(p: Parse)
    requires Wf(p) && ReadingLine(p.state) && p.index + 1 == |p.data|
    requires p.data[p.index] == '\n' && p.data[p.index - 1] == '\r'
    ensures Closing(p) && Analyze(p) == CloseLine(p)
  {
    hide CloseLine;
    CloseLineWf(p);
    CloseLineProgress(p);
    LastStep(p);
  }

  /** Analysis of one whole line from the start of a line. */
  lemma FeedLine(p: Parse, text: string)
    requires AtLine(p) && '\n' !in text
    ensures var q := Extend(p, text + CRLF).(index := p.index + |text| + 1);
      Wf(Extend(p, text + CRLF)) && Closing(q) && Analyze(Extend(p, text + CRLF)) == CloseLine(q)
  {
    hide Analyze, CloseLine;
    var a := text + "\r";
    assert text + CRLF == a + "\n";
    var e := Extend(p, a);
    ExtendWf(p, a);
    assert e.data[e.index..] == a;
    RunPlain(e);
    var r := Analyze(e);
    Two(p, a, "\n", r);
    var q := Extend(r, "\n");
    assert q == Extend(p, text + CRLF).(index := p.index + |text| + 1) by {
      ExtendTwice(p, a, "\n");
    }
    FeedLineEnd(q);
  }

  ghost predicate OpenAfterClosed(p: Parse) {
    HasOpenLine(p.lines) && ClosedLines(p.data, p.lines[..|p.lines| - 1], p.lines[|p.lines| - 1].first)
  }

  /** The texts of the lines closed so far, while another one is open. */
  function Read(p: Parse): seq<string>
    requires OpenAfterClosed(p)
  {
    var closed := p.lines[..|p.lines| - 1];
    ClosedOrder(p.data, closed, p.lines[|p.lines| - 1].first);
    Texts(p.data, closed)
  }

  /** Everything a line leaves alone. */
  predicate SameBut(p: Parse, q: Parse) {
    && q.state == p.state && q.flags == p.flags && q.headerSize == p.headerSize && q.chunks == p.chunks
    && q.chunkSize == p.chunkSize && q.sizeStart == p.sizeStart && q.sizeDone == p.sizeDone
  }

  /** Closing a non-empty line records its text. */
  lemma ClosedText(q: Parse, text: string)
    requires Closing(q) && ReadingLine(q.state) && !Blank(q)
    requires q.data[q.lines[|q.lines| - 1].first..q.index - 1] == text
    ensures OpenAfterClosed(q) && OpenAfterClosed(CloseLine(q))
    ensures Read(CloseLine(q)) == Read(q) + [text]
  {
    CloseTextLines(q);
    var last := q.lines[|q.lines| - 1];
    var closed := q.lines[..|q.lines| - 1];
    var l := Line(last.first, Known(q.index - 1 - last.first));
    var d := Terminate(q.data, q.index);
    var r := CloseLine(q);
    assert r.lines[..|r.lines| - 1] == closed + [l];
    TextsAgree(q.data, d, closed, last.first);
    TextsSnoc(d, closed, l);
    assert LineText(d, l) == text;
  }

  lemma ReadExtend(p: Parse, more: string)
    requires OpenAfterClosed(p) && p.lines[|p.lines| - 1].first <= |p.data|
    ensures OpenAfterClosed(Extend(p, more)) && Read(Extend(p, more)) == Read(p)
  {
    TextsAgree(p.data, p.data + more, p.lines[..|p.lines| - 1], p.lines[|p.lines| - 1].first);
  }

  /** A non-empty line ends up recorded, and the parser is ready for the next. */
  lemma LineFed(p: Parse, text: string)
    requires AtLine(p) && OneLine(text)
    ensures Wf(Extend(p, text + CRLF))
    ensures var r := Analyze(Extend(p, text + CRLF));
      && AtLine(r) && SameBut(p, r) && p.data <= r.data
      && OpenAfterClosed(p) && OpenAfterClosed(r) && Read(r) == Read(p) + [text]
  {
    hide Analyze;
    FeedLine(p, text);
    var e := Extend(p, text + CRLF);
    var q := e.(index := p.index + |text| + 1);
    var r := CloseLine(q);
    assert q.data[p.index..q.index - 1] == text;
    assert !Blank(q);
    ClosedText(q, text);
    ReadExtend(p, text + CRLF);
    assert Read(q) == Read(p);
    assert r.data[..|p.data|] == p.data;
  }

  /** A blank line drops the open line and keeps the texts. */
  lemma BlankText(q: Parse)
    requires Closing(q) && ReadingLine(q.state) && Blank(q)
    ensures var closed := q.lines[..|q.lines| - 1]; var d := Terminate(q.data, q.index);
      && OpenAfterClosed(q) && AllClosed(d, closed) && Texts(d, closed) == Read(q)
      && forall i :: 0 <= i < |closed| ==> closed[i].first <= q.index + 1
  {
    var last := q.lines[|q.lines| - 1];
    var closed := q.lines[..|q.lines| - 1];
    var d := Terminate(q.data, q.index);
    TextsAgree(q.data, d, closed, last.first);
    ClosedOrder(d, closed, last.first);
  }

  lemma BlankHeader(q: Parse)
    requires Closing(q) && q.state == ReadHeader && Blank(q)
    ensures OpenAfterClosed(q)
    ensures var r := CloseLine(q);
      && AllClosed(r.data, r.lines) && Texts(r.data, r.lines) == Read(q)
      && r.flags == DecodeTexts(q.flags, Read(q))
  {
    hide DecodeLines, DecodeTexts, Texts;
    BlankText(q);
    var closed := q.lines[..|q.lines| - 1];
    var d := Terminate(q.data, q.index);
    var h := q.(data := d, index := q.index + 1, lines := closed, headerSize := q.index + 1);
    assert CloseLine(q) == EndHeader(h);
    DecodeLinesTexts(d, closed, q.index + 1, q.flags);
    assert EndHeader(h).lines == closed && EndHeader(h).data == d;
  }

  /** Where the blank line leaves the parser. */
  lemma FeedBlank(p: Parse)
    requires AtLine(p)
    ensures Wf(Extend(p, CRLF))
    ensures var q := Extend(p, CRLF).(index := p.index + 1);
      && Closing(q) && Blank(q) && Analyze(Extend(p, CRLF)) == CloseLine(q)
      && OpenAfterClosed(p) && OpenAfterClosed(q) && Read(q) == Read(p)
      && p.data <= Terminate(q.data, q.index)
  {
    hide Analyze, CloseLine;
    assert "" + CRLF == CRLF;
    FeedLine(p, "");
    ReadExtend(p, CRLF);
    var q := Extend(p, CRLF).(index := p.index + 1);
    assert Read(q) == Read(Extend(p, CRLF));
    assert Terminate(q.data, q.index)[..|p.data|] == p.data;
  }

  /** The blank line after a header. */
  lemma HeaderEnd(p: Parse)
    requires AtLine(p) && p.state == ReadHeader
    ensures Wf(Extend(p, CRLF))
    ensures var r := Analyze(Extend(p, CRLF));
      && AtEnd(r) && r.headerSize == r.index && r.chunks == []
      && OpenAfterClosed(p) && AllClosed(r.data, r.lines) && Texts(r.data, r.lines) == Read(p)
      && r.flags == DecodeTexts(NO_FLAGS, Read(p))
      && HeaderState(r)
  {
    hide Analyze, DecodeTexts, DecodeLines;
    FeedBlank(p);
    BlankHeader(Extend(p, CRLF).(index := p.index + 1));
  }

  /** The framing the header selects: chunked wins over any Content-Length, and
      without either the message has no body (section 6.3 of RFC 9112). */
  predicate HeaderState(r: Parse) {
    && r.state == (if r.flags.chunked then ChunkHeader
                   else if r.flags.contentLength > 0 then ReadBody
                   else Done)
    && r.chunkSize == 0 && !r.sizeStart && !r.sizeDone
  }

  /** The blank line after the trailer completes the message. */
  lemma TrailerEnd(p: Parse)
    requires AtLine(p) && p.state == ChunkFooter
    ensures Wf(Extend(p, CRLF))
    ensures var r := Analyze(Extend(p, CRLF));
      && AtEnd(r) && r.state == Done && r.headerSize == p.headerSize && r.chunks == p.chunks && r.flags == p.flags
      && p.data <= r.data
      && OpenAfterClosed(p) && AllClosed(r.data, r.lines) && Texts(r.data, r.lines) == Read(p)
  {
    hide Analyze;
    FeedBlank(p);
    BlankText(Extend(p, CRLF).(index := p.index + 1));
  }

  /** Lines one after the other, each closed by CRLF. */
  function Lines(texts: seq<string>): string {
    if texts == [] then "" else texts[0] + CRLF + Lines(texts[1..])
  }

  predicate AllLines(texts: seq<string>) {
    forall i :: 0 <= i < |texts| ==> OneLine(texts[i])
  }

  /** `r` is `p` after `texts` were read as lines. */
  ghost predicate ReadOn(p: Parse, texts: seq<string>, r: Parse) {
    && AtLine(p) && AtLine(r) && SameBut(p, r) && p.data <= r.data
    && OpenAfterClosed(p) && OpenAfterClosed(r) && Read(r) == Read(p) + texts
  }

  lemma ReadOnTwice(p: Parse, a: seq<string>, q: Parse, b: seq<string>, r: Parse)
    requires ReadOn(p, a, q) && ReadOn(q, b, r)
    ensures ReadOn(p, a + b, r)
  {
    assert Read(p) + a + b == Read(p) + (a + b);
  }

  lemma {:induction false} LinesFed(p: Parse, texts: seq<string>)
    requires AtLine(p) && AllLines(texts)
    ensures Wf(Extend(p, Lines(texts))) && ReadOn(p, texts, Analyze(Extend(p, Lines(texts))))
    decreases |texts|
  {
    hide Analyze;
    if texts == [] {
      assert Extend(p, "") == p;
      Stay(p);
      assert Read(p) + texts == Read(p);
    } else {
      LineFed(p, texts[0]);
      var q := Analyze(Extend(p, texts[0] + CRLF));
      LinesFed(q, texts[1..]);
      Two(p, texts[0] + CRLF, Lines(texts[1..]), q);
      ReadOnTwice(p, [texts[0]], q, texts[1..], Analyze(Extend(q, Lines(texts[1..]))));
      assert [texts[0]] + texts[1..] == texts;
    }
  }

  /** The first byte of a message opens the first line. */
  lemma Opening(data: string)
    requires data != "" && data[0] != '\n'
    ensures Wf(Load(data))
    ensures var q := Load(data).(state := ReadHeader, lines := [Line(0, Unknown)]);
      Wf(q) && Analyze(Load(data)) == Analyze(q)
  {
    LoadWf(data);
    StepWf(Load(data));
  }

  /** Up to the line feed of the first line. */
  lemma FirstLineText(text: string)
    requires '\n' !in text
    ensures Wf(Load(text + CRLF))
    ensures var q := Load(text + CRLF).(state := ReadHeader, lines := [Line(0, Unknown)], index := |text| + 1);
      Closing(q) && Analyze(Load(text + CRLF)) == CloseLine(q)
  {
    hide CloseLine;
    var a := text + "\r";
    assert text + CRLF == a + "\n";
    Opening(a);
    var b := Load(a).(state := ReadHeader, lines := [Line(0, Unknown)]);
    assert b.data[b.index..] == a;
    RunPlain(b);
    var r := b.(index := |a|);
    AnalyzeEarly(Load(a), "\n");
    assert Extend(Load(a), "\n") == Load(text + CRLF);
    FeedLineEnd(Extend(r, "\n"));
  }

  lemma FirstLine(text: string)
    requires OneLine(text)
    ensures Wf(Load(text + CRLF))
    ensures var r := Analyze(Load(text + CRLF));
      && AtLine(r) && r.state == ReadHeader && OpenAfterClosed(r) && Read(r) == [text]
  {
    hide Analyze;
    FirstLineText(text);
    var q := Load(text + CRLF).(state := ReadHeader, lines := [Line(0, Unknown)], index := |text| + 1);
    assert q.data[0..|text|] == text;
    assert !Blank(q);
    ClosedText(q, text);
  }

  /** The header of a message: its lines and a blank line. */
  function Head(texts: seq<string>): string {
    Lines(texts) + CRLF
  }

  /** A message may start with its blank line: it is complete and has no lines. */
  lemma EmptyHead()
    ensures Wf(Load("" + CRLF))
    ensures var r := Analyze(Load("" + CRLF));
      AtEnd(r) && r.headerSize == r.index && r.chunks == [] && r.lines == [] && r.flags == NO_FLAGS && HeaderState(r)
  {
    hide Analyze;
    FirstLineText("");
  }

  /** Any block of non-empty lines parses to exactly those lines, with the flags
      and the framing they select, the whole block consumed. */
  lemma HeadParsed(texts: seq<string>)
    requires AllLines(texts)
    ensures Wf(Load(Head(texts)))
    ensures var r := Analyze(Load(Head(texts)));
      && AtEnd(r) && r.headerSize == r.index && r.chunks == []
      && AllClosed(r.data, r.lines) && Texts(r.data, r.lines) == texts
      && r.flags == DecodeTexts(NO_FLAGS, texts)
      && HeaderState(r)
  {
    hide Analyze;
    if texts == [] {
      assert Head(texts) == "" + CRLF;
      EmptyHead();
    } else {
      FirstLine(texts[0]);
      var p := Load(texts[0] + CRLF);
      var q := Analyze(p);
      LinesFed(q, texts[1..]);
      var r := Analyze(Extend(q, Lines(texts[1..])));
      HeaderEnd(r);
      AnalyzeEarly(p, Lines(texts[1..]));
      var p2 := Extend(p, Lines(texts[1..]));
      assert p2 == Load(Lines(texts));
      AnalyzeEarly(p2, CRLF);
      assert Extend(p2, CRLF) == Load(Head(texts));
      assert [texts[0]] + texts[1..] == texts;
    }
  }

  // -------------------------------------------------- Content-Length bodies

  /** `r` has the header of `p` and a body of `body` on top of the one of `p`. */
  ghost predicate BodyOn(p: Parse, body: string, r: Parse) {
    && Wf(p) && Wf(r) && p.data <= r.data && AtEnd(p) && AtEnd(r)
    && r.flags == p.flags && r.headerSize == p.headerSize && r.lines == p.lines
    && Inside(p.data, p.chunks) && Inside(r.data, r.chunks) && NoWrap(p.chunks) && NoWrap(r.chunks)
    && Body(r.data, r.chunks) == Body(p.data, p.chunks) + body
  }

  /** Appending the span of new bytes appends those bytes to the body. */
  lemma BodySnoc(a: string, b: string, chunks: seq<Chunk>, c: Chunk)
    requires Inside(a, chunks) && a <= b && c.first + c.length <= |b|
    ensures Inside(b, chunks + [c])
    ensures Body(b, chunks + [c]) == Body(a, chunks) + b[c.first..c.first + c.length]
  {
    assert (chunks + [c])[..|chunks|] == chunks;
    BodyPrefix(a, b, chunks);
  }

  lemma {:induction false} BodyPrefix(a: string, b: string, chunks: seq<Chunk>)
    requires Inside(a, chunks) && a <= b
    ensures Inside(b, chunks) && Body(b, chunks) == Body(a, chunks)
    decreases |chunks|
  {
    if chunks != [] {
      var last := chunks[|chunks| - 1];
      BodyPrefix(a, b, chunks[..|chunks| - 1]);
      assert a[last.first..last.first + last.length] == b[last.first..last.first + last.length];
    }
  }

  /** Where the bytes of a Content-Length body take the parser. */
  lemma BodyStep(p: Parse, body: string)
    requires Wf(p) && AtEnd(p) && p.state == ReadBody && p.flags.contentLength == |body|
    ensures var e := Extend(p, body);
      && Wf(e) && !Blocked(e) && p.chunks == []
      && Step(e) == e.(chunks := [Chunk(p.index, |body|)], index := |e.data|, state := Done)
  {
    ExtendWf(p, body);
  }

  lemma BodyFed(p: Parse, body: string)
    requires Wf(p) && AtEnd(p) && p.state == ReadBody && p.flags.contentLength == |body| < SIZE_T - 2
    ensures Wf(Extend(p, body))
    ensures var r := Analyze(Extend(p, body)); r.state == Done && BodyOn(p, body, r)
  {
    hide Wf, Step, Analyze, Blocked;
    BodyStep(p, body);
    var e := Extend(p, body);
    LastStep(e);
    var c := Chunk(p.index, |body|);
    assert e.data[c.first..c.first + c.length] == body;
    BodySnoc(p.data, e.data, [], c);
  }

  /** The header texts are those of the state the body was read from. */
  lemma TextsKept(p: Parse, body: string, r: Parse)
    requires BodyOn(p, body, r) && AllClosed(p.data, p.lines) && !HasOpenLine(p.lines)
    ensures AllClosed(r.data, r.lines) && Texts(r.data, r.lines) == Texts(p.data, p.lines)
  {
    hide Body;
    TextsAgree(p.data, r.data, p.lines, p.index);
  }

  /** A message delimited by its Content-Length parses back to its header lines and
      exactly its body, and is complete exactly at its last byte. */
  lemma ContentLengthRoundTrip(texts: seq<string>, body: string)
    requires AllLines(texts)
    requires !DecodeTexts(NO_FLAGS, texts).chunked && DecodeTexts(NO_FLAGS, texts).contentLength == |body| < SIZE_T - 2
    ensures Wf(Load(Head(texts) + body))
    ensures var r := Analyze(Load(Head(texts) + body));
      && r.state == Done && AtEnd(r) && r.flags == DecodeTexts(NO_FLAGS, texts)
      && AllClosed(r.data, r.lines) && Texts(r.data, r.lines) == texts
      && Inside(r.data, r.chunks) && Body(r.data, r.chunks) == body
  {
    hide Analyze, DecodeTexts;
    HeadParsed(texts);
    var p := Analyze(Load(Head(texts)));
    AnalyzeEarly(Load(Head(texts)), body);
    assert Extend(Load(Head(texts)), body) == Load(Head(texts) + body);
    if body == "" {
      assert Extend(p, body) == p;
      Stay(p);
    } else {
      BodyFed(p, body);
      TextsKept(p, body, Analyze(Extend(p, body)));
    }
  }

  // ---------------------------------------------------------- chunked bodies

  predicate AllHex(s: string) {
    forall i :: 0 <= i < |s| ==> IsHex(s[i])
  }

  /** The number a chunk size line announces, unbounded. */
  function HexValue(acc: nat, digits: string): nat
    requires AllHex(digits)
    decreases |digits|
  {
    if digits == "" then acc else HexValue(acc * 16 + HexDigit(digits[0]), digits[1..])
  }

  lemma SameRemainder(a: nat, digit: nat)
    ensures (a % SIZE_T * 16 + digit) % SIZE_T == (a * 16 + digit) % SIZE_T
  {
    var k := a / SIZE_T;
    assert a == SIZE_T * k + a % SIZE_T;
  }

  /** Dropping whole multiples of 2^64 on the way does not change the remainder. */
  lemma {:induction false} HexRemainder(acc: nat, digits: string)
    requires AllHex(digits)
    ensures HexValue(acc % SIZE_T, digits) % SIZE_T == HexValue(acc, digits) % SIZE_T
    decreases |digits|
  {
    hide HexDigit;
    if digits != "" {
      var v := HexDigit(digits[0]);
      HexRemainder(acc * 16 + v, digits[1..]);
      HexRemainder(acc % SIZE_T * 16 + v, digits[1..]);
      SameRemainder(acc, v);
    }
  }

  /** Ready for a chunk size line. */
  ghost predicate AtSize(p: Parse) {
    Wf(p) && p.state == ChunkHeader && AtEnd(p) && p.chunkSize == 0 && !p.sizeStart && !p.sizeDone
  }

  lemma DigitStep(p: Parse)
    requires Wf(p) && p.state == ChunkHeader && !p.sizeDone && p.index < |p.data|
    requires IsHex(p.data[p.index])
    ensures Step(p) == p.(index := p.index + 1, chunkSize := (p.chunkSize * 16 + HexDigit(p.data[p.index])) % SIZE_T, sizeStart := true)
  {
    hide HexDigit;
  }

  /** The digits are gathered on 64 bits. */
  lemma {:induction false} RunDigits(p: Parse)
    requires Wf(p) && p.state == ChunkHeader && !p.sizeDone && AllHex(p.data[p.index..])
    ensures Analyze(p) == p.(index := |p.data|, chunkSize := HexValue(p.chunkSize, p.data[p.index..]) % SIZE_T,
                             sizeStart := p.sizeStart || p.index < |p.data|)
    decreases |p.data| - p.index
  {
    hide HexDigit, Step;
    if p.index < |p.data| {
      var rest := p.data[p.index..];
      assert rest[0] == p.data[p.index];
      HexRemainder(p.chunkSize * 16 + HexDigit(rest[0]), rest[1..]);
      StepWf(p);
      DigitStep(p);
      var q := Step(p);
      assert q.data[q.index..] == rest[1..];
      RunDigits(q);
    }
  }

  /** What follows the digits on the size line is skipped. */
  lemma {:induction false} RunExtension(p: Parse)
    requires Wf(p) && p.state == ChunkHeader && p.sizeStart
    requires '\n' !in p.data[p.index..]
    requires p.sizeDone || (p.index < |p.data| && !IsHex(p.data[p.index]))
    ensures Analyze(p) == p.(index := |p.data|, sizeDone := true)
    decreases |p.data| - p.index
  {
    if p.index < |p.data| {
      assert p.data[p.index] == p.data[p.index..][0];
      StepWf(p);
      var q := Step(p);
      assert q == p.(index := p.index + 1, sizeDone := true);
      assert q.data[q.index..] == p.data[p.index..][1..];
      RunExtension(q);
    }
  }

  /** A size line: digits, and an extension that does not go on with a digit. */
  predicate SizeText(digits: string, extension: string) {
    digits != "" && AllHex(digits) && '\n' !in extension && (extension == "" || !IsHex(extension[0]))
  }

  /** The size line up to its line feed. */
  lemma SizeLineText(p: Parse, digits: string, extension: string)
    requires AtSize(p) && SizeText(digits, extension)
    ensures Wf(Extend(p, digits + (extension + "\r")))
    ensures var e := Extend(p, digits + (extension + "\r"));
      Analyze(e) == e.(index := |e.data|, chunkSize := HexValue(0, digits) % SIZE_T, sizeStart := true, sizeDone := true)
  {
    var d := Extend(p, digits);
    ExtendWf(p, digits);
    assert d.data[d.index..] == digits;
    RunDigits(d);
    var q := Analyze(d);
    var tail := extension + "\r";
    Two(p, digits, tail, q);
    var e := Extend(q, tail);
    assert e.data[e.index..] == tail;
    assert e.data[e.index] == tail[0];
    RunExtension(e);
    ExtendTwice(p, digits, tail);
  }

  /** A whole size line. */
  lemma SizeFed(p: Parse, digits: string, extension: string)
    requires AtSize(p) && SizeText(digits, extension)
    ensures var line := digits + (extension + "\r") + "\n";
      && Wf(Extend(p, line))
      && var q := Extend(p, line).(index := p.index + |line| - 1, chunkSize := HexValue(0, digits) % SIZE_T, sizeStart := true, sizeDone := true);
         Analyze(Extend(p, line)) == SizeLine(q)
  {
    var text := digits + (extension + "\r");
    SizeLineText(p, digits, extension);
    var r := Analyze(Extend(p, text));
    Two(p, text, "\n", r);
    ExtendTwice(p, text, "\n");
    var q := Extend(r, "\n");
    LastStep(q);
  }

  /** A chunk: its size line, its bytes, and the two bytes behind them, which nobody looks
      at; they should be a CRLF. */
  datatype Piece = Piece(digits: string, extension: string, body: string, end: string)

  predicate PieceOk(x: Piece) {
    SizeText(x.digits, x.extension) && x.body != "" && |x.end| == 2 && HexValue(0, x.digits) == |x.body| < SIZE_T - 2
  }

  function PieceSize(x: Piece): string {
    x.digits + (x.extension + "\r") + "\n"
  }

  function PieceText(x: Piece): string {
    PieceSize(x) + (x.body + x.end)
  }

  /** After the size line of a non-empty chunk the parser waits for its bytes. */
  lemma PieceSizeFed(p: Parse, x: Piece)
    requires AtSize(p) && PieceOk(x)
    ensures Wf(Extend(p, PieceSize(x)))
    ensures var q := Analyze(Extend(p, PieceSize(x)));
      && q.state == ChunkBody && AtEnd(q) && q.chunkSize == |x.body| && p.data <= q.data
      && q.flags == p.flags && q.headerSize == p.headerSize && q.lines == p.lines && q.chunks == p.chunks
  {
    assert HexValue(0, x.digits) % SIZE_T == |x.body|;
    hide Analyze, Wf, HexValue, SizeText;
    SizeFed(p, x.digits, x.extension);
    var line := PieceSize(x);
    var q := Extend(p, line).(index := p.index + |line| - 1, chunkSize := |x.body|, sizeStart := true, sizeDone := true);
    assert Terminate(q.data, q.index)[..|p.data|] == p.data;
  }

  lemma PieceBodyFed(q: Parse, body: string, end: string)
    requires Wf(q) && q.state == ChunkBody && AtEnd(q) && q.chunkSize == |body| < SIZE_T - 2 && |end| == 2
    requires NoWrap(q.chunks)
    ensures Wf(Extend(q, body + end))
    ensures var r := Analyze(Extend(q, body + end)); AtSize(r) && BodyOn(q, body, r)
  {
    ExtendWf(q, body + end);
    var e := Extend(q, body + end);
    LastStep(e);
    var c := Chunk(q.index, |body|);
    ChunkOrder(q.chunks, q.headerSize, Tail(q), q.index);
    assert e.data[c.first..c.first + c.length] == body;
    BodySnoc(q.data, e.data, q.chunks, c);
  }

  lemma PieceFed(p: Parse, x: Piece)
    requires AtSize(p) && NoWrap(p.chunks) && PieceOk(x)
    ensures Wf(Extend(p, PieceText(x)))
    ensures var r := Analyze(Extend(p, PieceText(x))); AtSize(r) && BodyOn(p, x.body, r)
  {
    hide Analyze;
    PieceSizeFed(p, x);
    var q := Analyze(Extend(p, PieceSize(x)));
    PieceBodyFed(q, x.body, x.end);
    Two(p, PieceSize(x), x.body + x.end, q);
    ChunkOrder(p.chunks, p.headerSize, Tail(p), p.index);
    BodyPrefix(p.data, q.data, p.chunks);
  }

  function PiecesText(xs: seq<Piece>): string {
    if xs == [] then "" else PieceText(xs[0]) + PiecesText(xs[1..])
  }

  function Bodies(xs: seq<Piece>): string {
    if xs == [] then "" else xs[0].body + Bodies(xs[1..])
  }

  lemma BodyOnTwice(p: Parse, a: string, q: Parse, b: string, r: Parse)
    requires BodyOn(p, a, q) && BodyOn(q, b, r)
    ensures BodyOn(p, a + b, r)
  {
    assert Body(p.data, p.chunks) + a + b == Body(p.data, p.chunks) + (a + b);
  }

  lemma {:induction false} PiecesFed(p: Parse, xs: seq<Piece>)
    requires AtSize(p) && NoWrap(p.chunks) && forall i :: 0 <= i < |xs| ==> PieceOk(xs[i])
    ensures Wf(Extend(p, PiecesText(xs)))
    ensures var r := Analyze(Extend(p, PiecesText(xs))); AtSize(r) && BodyOn(p, Bodies(xs), r)
    decreases |xs|
  {
    hide Analyze;
    if xs == [] {
      assert Extend(p, "") == p;
      Stay(p);
      ChunkOrder(p.chunks, p.headerSize, Tail(p), p.index);
      assert Body(p.data, p.chunks) + "" == Body(p.data, p.chunks);
    } else {
      PieceFed(p, xs[0]);
      var q := Analyze(Extend(p, PieceText(xs[0])));
      PiecesFed(q, xs[1..]);
      Two(p, PieceText(xs[0]), PiecesText(xs[1..]), q);
      BodyOnTwice(p, xs[0].body, q, Bodies(xs[1..]), Analyze(Extend(q, PiecesText(xs[1..]))));
    }
  }

  /** A size line announcing zero starts the trailer. */
  lemma LastChunkFed(p: Parse, digits: string, extension: string)
    requires AtSize(p) && SizeText(digits, extension) && HexValue(0, digits) == 0
    requires AllClosed(p.data, p.lines) && !HasOpenLine(p.lines)
    ensures var line := digits + (extension + "\r") + "\n";
      && Wf(Extend(p, line))
      && var q := Analyze(Extend(p, line));
         && AtLine(q) && q.state == ChunkFooter && p.data <= q.data
         && q.flags == p.flags && q.headerSize == p.headerSize && q.chunks == p.chunks
         && OpenAfterClosed(q) && Read(q) == Texts(p.data, p.lines)
  {
    hide Analyze, HexValue, SizeText;
    SizeFed(p, digits, extension);
    var line := digits + (extension + "\r") + "\n";
    var q := Extend(p, line).(index := p.index + |line| - 1, chunkSize := 0, sizeStart := true, sizeDone := true);
    var r := SizeLine(q);
    assert r.data[..|p.data|] == p.data;
    assert r.lines[..|r.lines| - 1] == p.lines;
    ClosedLinesLater(p.data, p.lines, p.index, q.index + 1);
    TextsAgree(p.data, r.data, p.lines, p.index);
  }

  /** The chunked coding: chunks, a last chunk of size zero, trailer lines, CRLF. */
  function ChunkedText(xs: seq<Piece>, digits: string, extension: string, trailer: seq<string>): string {
    PiecesText(xs) + (digits + (extension + "\r") + "\n") + (Lines(trailer) + CRLF)
  }

  /** Parsing the chunked coding of section 7.1 of RFC 9112 from a header that
      selects it: the message is complete exactly at the last byte, its body is the
      chunks' bytes in order, and its lines are the header's and the trailer's. */
  lemma ChunkedBodyParsed(p: Parse, xs: seq<Piece>, digits: string, extension: string, trailer: seq<string>)
    requires AtSize(p) && p.chunks == [] && AllClosed(p.data, p.lines) && !HasOpenLine(p.lines)
    requires forall i :: 0 <= i < |xs| ==> PieceOk(xs[i])
    requires SizeText(digits, extension) && HexValue(0, digits) == 0
    requires AllLines(trailer)
    ensures Wf(Extend(p, ChunkedText(xs, digits, extension, trailer)))
    ensures var r := Analyze(Extend(p, ChunkedText(xs, digits, extension, trailer)));
      && r.state == Done && AtEnd(r) && r.flags == p.flags
      && AllClosed(r.data, r.lines) && Texts(r.data, r.lines) == Texts(p.data, p.lines) + trailer
      && Inside(r.data, r.chunks) && Body(r.data, r.chunks) == Bodies(xs)
  {
    hide Analyze;
    var t1 := PiecesText(xs);
    var t2 := digits + (extension + "\r") + "\n";
    PiecesFed(p, xs);
    var a := Analyze(Extend(p, t1));
    TextsKept(p, Bodies(xs), a);
    LastChunkFed(a, digits, extension);
    var b := Analyze(Extend(a, t2));
    Two(p, t1, t2, a);
    LinesFed(b, trailer);
    var c := Analyze(Extend(b, Lines(trailer)));
    TrailerEnd(c);
    Two(b, Lines(trailer), CRLF, c);
    Two(p, t1 + t2, Lines(trailer) + CRLF, b);
    BodyPrefix(a.data, Analyze(Extend(c, CRLF)).data, a.chunks);
  }

  /** Chunked round trip, from the first header byte to the last trailer byte. */
  lemma ChunkedRoundTrip(texts: seq<string>, xs: seq<Piece>, digits: string, extension: string, trailer: seq<string>)
    requires AllLines(texts) && DecodeTexts(NO_FLAGS, texts).chunked
    requires forall i :: 0 <= i < |xs| ==> PieceOk(xs[i])
    requires SizeText(digits, extension) && HexValue(0, digits) == 0
    requires AllLines(trailer)
    ensures var message := Head(texts) + ChunkedText(xs, digits, extension, trailer);
      && Wf(Load(message))
      && var r := Analyze(Load(message));
         && r.state == Done && AtEnd(r) && r.flags == DecodeTexts(NO_FLAGS, texts)
         && AllClosed(r.data, r.lines) && Texts(r.data, r.lines) == texts + trailer
         && Inside(r.data, r.chunks) && Body(r.data, r.chunks) == Bodies(xs)
  {
    hide Analyze, DecodeTexts;
    HeadParsed(texts);
    var p := Analyze(Load(Head(texts)));
    var body := ChunkedText(xs, digits, extension, trailer);
    ChunkedBodyParsed(p, xs, digits, extension, trailer);
    AnalyzeEarly(Load(Head(texts)), body);
    assert Extend(Load(Head(texts)), body) == Load(Head(texts) + body);
  }

  /** A message complete exactly at its last byte is not complete any earlier. */
  lemma NotBefore(message: string, k: nat)
    requires k < |message| && Wf(Load(message)) && AtEnd(Analyze(Load(message)))
    ensures Wf(Load(message[..k])) && Analyze(Load(message[..k])).state != Done
  {
    LoadWf(message[..k]);
    AnalyzeEarly(Load(message[..k]), message[k..]);
    assert Extend(Load(message[..k]), message[k..]) == Load(message);
  }
}
