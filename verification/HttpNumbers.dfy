/** The numbers of a message in text: the decimal digits of a `Content-Length` and the
    hexadecimal digits of a chunk size, what the parser makes of them for every number,
    and messages written with them and parsed back. */
module HttpNumbers {
  import opened Common
  import opened HttpText
  import opened HttpParser
  import opened HttpSpans
  import opened HttpRoundTrip

  // ---------------------------------------------------------------- decimal

  function DigitChar(d: nat): (c: char)
    requires d < 10
    ensures IsDigit(c) && (c as int) - ('0' as int) == d
  {
    (d + ('0' as int)) as char
  }

  /** `n` in decimal, without leading zeros. */
  function Digits(n: nat): string {
    if n < 10 then [DigitChar(n)] else Digits(n / 10) + [DigitChar(n % 10)]
  }

  predicate AllDigits(s: string) {
    forall i :: 0 <= i < |s| ==> IsDigit(s[i])
  }

  lemma {:induction false} DecimalSnoc(s: string, c: char, acc: nat)
    requires AllDigits(s) && IsDigit(c)
    ensures Decimal(s + [c], acc) == Decimal(s, acc) * 10 + ((c as int) - ('0' as int))
    decreases |s|
  {
    if s == "" {
      assert s + [c] == [c] && [c][1..] == "";
    } else {
      assert (s + [c])[1..] == s[1..] + [c];
      DecimalSnoc(s[1..], c, acc * 10 + ((s[0] as int) - ('0' as int)));
    }
  }

  lemma {:induction false} DecimalDigits(n: nat)
    ensures Digits(n) != "" && AllDigits(Digits(n)) && Decimal(Digits(n), 0) == n
  {
    if n < 10 {
      assert Digits(n) == "" + [DigitChar(n)];
      DecimalSnoc("", DigitChar(n), 0);
    } else {
      DecimalDigits(n / 10);
      DecimalSnoc(Digits(n / 10), DigitChar(n % 10), 0);
    }
  }

  /** The parser reads back a length exactly if it fits an `int`. (The largest 64-bit
      number is read back by accident: its digits saturate to -1.) */
  lemma LengthReadBack(n: nat)
    ensures AtoiSize(Digits(n)) == n <==> n < 0x8000_0000 || n == SIZE_T - 1
  {
    DecimalDigits(n);
    var s := Digits(n);
    assert IsDigit(s[0]);
  }

  /** What `atoi` and the conversion to `size_t` make of any digits with an optional sign:
      the number, held within 64 signed bits, modulo 2^32, in the range of a converted
      `int`. */
  lemma LengthOf(sign: string, digits: string)
    requires sign in {"", "+", "-"} && AllDigits(digits)
    ensures var n: int := Decimal(digits, 0); var v := if sign == "-" then -n else n;
      var long := if v > 0x7FFF_FFFF_FFFF_FFFF then 0x7FFF_FFFF_FFFF_FFFF
                  else if v < -0x8000_0000_0000_0000 then -0x8000_0000_0000_0000 else v;
      var r := AtoiSize(sign + digits);
      && (r - long) % 0x1_0000_0000 == 0
      && (r < 0x8000_0000 || SIZE_T - 0x8000_0000 <= r < SIZE_T)
  {
    var n: int := Decimal(digits, 0);
    var v := if sign == "-" then -n else n;
    LengthIs(sign, digits);
    hide *;
    Converted(if v > 0x7FFF_FFFF_FFFF_FFFF then 0x7FFF_FFFF_FFFF_FFFF else if v < -0x8000_0000_0000_0000 then -0x8000_0000_0000_0000 else v);
  }

  /** The low 32 bits as a signed number, converted to 64 bits. */
  function Narrow(long: int): int {
    var low := long % 0x1_0000_0000;
    if low < 0x8000_0000 then low else SIZE_T + low - 0x1_0000_0000
  }

  lemma LengthIs(sign: string, digits: string)
    requires sign in {"", "+", "-"} && AllDigits(digits)
    ensures var n: int := Decimal(digits, 0); var v := if sign == "-" then -n else n;
      AtoiSize(sign + digits) == Narrow(
        if v > 0x7FFF_FFFF_FFFF_FFFF then 0x7FFF_FFFF_FFFF_FFFF
        else if v < -0x8000_0000_0000_0000 then -0x8000_0000_0000_0000 else v)
  {
    hide Decimal;
    var s := sign + digits;
    assert sign == "" ==> s == digits;
    assert sign != "" ==> s[0] == sign[0] && s[1..] == digits;
  }

  lemma Converted(long: int)
    ensures var r := Narrow(long); (r - long) % 0x1_0000_0000 == 0 && (0 <= r < 0x8000_0000 || SIZE_T - 0x8000_0000 <= r < SIZE_T)
  {
    var high := long / 0x1_0000_0000;
    assert long == high * 0x1_0000_0000 + long % 0x1_0000_0000;
    var r := Narrow(long);
    assert r - long == (if r < 0x8000_0000 then -high else 0xFFFF_FFFF - high) * 0x1_0000_0000;
  }

  /** Text that starts with neither a digit nor a sign announces no bytes. */
  lemma NoNumber(s: string)
    requires s == "" || (!IsDigit(s[0]) && s[0] != '+' && s[0] != '-')
    ensures AtoiSize(s) == 0
  {
  }

  /** A header line. */
  function HeaderLine(h: Header): string {
    h.name + ": " + h.value
  }

  /** A name and a value that survive being put on a line. */
  predicate Writable(h: Header) {
    && Trimmed(h.name) && ':' !in h.name && NUL !in h.name && '\n' !in h.name
    && Trimmed(h.value) && '\n' !in h.value
  }

  /** Splitting a header line gives back what was written. */
  lemma HeaderLineReads(h: Header)
    requires Writable(h)
    ensures Split(HeaderLine(h)) == Some(h) && OneLine(HeaderLine(h))
  {
    var line, n := HeaderLine(h), |h.name|;
    assert line[0..n] == h.name && line[n + 1..n + 2] == " " && line[n + 2..|line|] == h.value;
    hide Split, Trimmed;
    SplitComplete(line, h, 0, n, n, n + 2, |line|);
  }

  const LENGTH := "Content-Length"
  const CONNECTION := "Connection"
  const CODING := Header("Transfer-Encoding", "chunked")

  /** In any letter case the same characters other than letters occur. */
  lemma CaseKeeps(word: string, s: string, c: char)
    requires AnyCase(word, s) && c !in word && c as int < 0x41
    ensures c !in s
  {
    forall i | 0 <= i < |s| ensures s[i] != c {
      assert SameLetter(word[i], s[i]) && word[i] != c;
    }
  }

  predicate Plain(word: string) {
    Trimmed(word) && ':' !in word && NUL !in word && '\n' !in word
  }

  lemma CasePlain(word: string, s: string)
    requires AnyCase(word, s) && Plain(word)
    ensures Plain(s)
  {
    CaseKeeps(word, s, ':');
    CaseKeeps(word, s, NUL);
    CaseKeeps(word, s, '\n');
    assert SameLetter(word[0], s[0]) && SameLetter(word[|s| - 1], s[|s| - 1]);
    hide AnyCase;
  }

  lemma PlainWords()
    ensures Plain(LENGTH) && Plain(CONNECTION) && Plain(CODING.name) && Plain(CODING.value)
  {
    TrimmedWords();
    hide Trimmed;
    PlainName();
    PlainValue();
    var length, connection := LENGTH, CONNECTION;
    assert ':' !in length && NUL !in length && '\n' !in length;
    assert ':' !in connection && NUL !in connection && '\n' !in connection;
  }

  lemma TrimmedWords()
    ensures Trimmed(LENGTH) && Trimmed(CONNECTION) && Trimmed(CODING.name) && Trimmed(CODING.value)
  {
  }

  lemma PlainName()
    ensures var name := CODING.name; ':' !in name && NUL !in name && '\n' !in name
  {
  }

  lemma PlainValue()
    ensures var value := CODING.value; ':' !in value && NUL !in value && '\n' !in value
  {
  }

  lemma DigitsPlain(n: nat)
    ensures Plain(Digits(n))
  {
    DecimalDigits(n);
    var s := Digits(n);
    assert IsDigit(s[0]) && IsDigit(s[|s| - 1]);
    hide Digits, Decimal;
  }

  lemma {:induction false} DecodeSnoc(f: Flags, texts: seq<string>, text: string)
    ensures DecodeTexts(f, texts + [text]) == DecodeText(DecodeTexts(f, texts), text)
    decreases |texts|
  {
    if texts == [] {
      assert texts + [text] == [text] && [text][1..] == [];
    } else {
      assert (texts + [text])[1..] == texts[1..] + [text];
      DecodeSnoc(DecodeText(f, texts[0]), texts[1..], text);
    }
  }

  /** What a header line adds to the flags of the lines before it, for the three headers
      the parser knows, in any letter case. */
  lemma LineDecodes(f: Flags, h: Header)
    requires Writable(h)
    ensures OneLine(HeaderLine(h))
    ensures AnyCase(CONNECTION, h.name) ==> DecodeText(f, HeaderLine(h)) == f.(keepAlive := AnyCase("Keep-Alive", h.value))
    ensures AnyCase(LENGTH, h.name) ==> DecodeText(f, HeaderLine(h)) == f.(contentLength := AtoiSize(h.value))
    ensures AnyCase(CODING.name, h.name) ==> DecodeText(f, HeaderLine(h)) == f.(chunked := AnyCase(CODING.value, h.value))
  {
    HeaderLineReads(h);
    KnownNames(h);
    NamesApart(h.name);
    hide AtoiSize, Split, HeaderLine, AnyCase, SameWord, Writable;
  }

  lemma OneMoreLine(texts: seq<string>, text: string)
    requires AllLines(texts) && OneLine(text)
    ensures AllLines(texts + [text])
  {
  }

  lemma LengthWritable(name: string, n: nat)
    requires AnyCase(LENGTH, name)
    ensures Writable(Header(name, Digits(n)))
  {
    PlainWords();
    CasePlain(LENGTH, name);
    DigitsPlain(n);
  }

  /** A message written with a Content-Length in decimal, its name in any letter case, is
      read back, header lines and body, whatever other header lines there are as long as
      they select no chunking. */
  lemma LengthWritten(texts: seq<string>, name: string, body: string)
    requires AllLines(texts) && !DecodeTexts(NO_FLAGS, texts).chunked && |body| < 0x8000_0000
    requires AnyCase(LENGTH, name)
    ensures var lines := texts + [HeaderLine(Header(name, Digits(|body|)))]; var message := Head(lines) + body;
      && Wf(Load(message))
      && var r := Analyze(Load(message));
         && r.state == Done && AtEnd(r) && r.flags.contentLength == |body|
         && AllClosed(r.data, r.lines) && Texts(r.data, r.lines) == lines
         && Inside(r.data, r.chunks) && Body(r.data, r.chunks) == body
  {
    var h := Header(name, Digits(|body|));
    LengthWritable(name, |body|);
    hide Writable, Analyze, DecodeTexts, DecodeText, AtoiSize, Wf, HeaderLine, AllLines, AnyCase, Plain, Digits;
    DecodeSnoc(NO_FLAGS, texts, HeaderLine(h));
    LineDecodes(DecodeTexts(NO_FLAGS, texts), h);
    LengthReadBack(|body|);
    OneMoreLine(texts, HeaderLine(h));
    ContentLengthRoundTrip(texts + [HeaderLine(h)], body);
  }

  /** The Connection header, in any letter case, keeps the connection alive exactly if it
      says Keep-Alive in any letter case. */
  lemma KeepAliveWritten(texts: seq<string>, h: Header)
    requires AllLines(texts) && AnyCase(CONNECTION, h.name) && Trimmed(h.value) && '\n' !in h.value
    ensures var message := Head(texts + [HeaderLine(h)]);
      Wf(Load(message)) && (Analyze(Load(message)).flags.keepAlive <==> AnyCase("Keep-Alive", h.value))
  {
    PlainWords();
    CasePlain(CONNECTION, h.name);
    assert Writable(h);
    hide Analyze, DecodeTexts, DecodeText, Wf, HeaderLine, AllLines, AnyCase, Plain, Writable;
    DecodeSnoc(NO_FLAGS, texts, HeaderLine(h));
    LineDecodes(DecodeTexts(NO_FLAGS, texts), h);
    OneMoreLine(texts, HeaderLine(h));
    HeadParsed(texts + [HeaderLine(h)]);
  }

  // ------------------------------------------------------------ hexadecimal

  const UPPER := "0123456789ABCDEF"
  const LOWER := "0123456789abcdef"

  /** The hexadecimal digits and their values, in both cases. */
  lemma HexIs(c: char, v: nat)
    requires v < 16
    ensures IsHex(c) && HexDigit(c) == v <==> c == UPPER[v] || c == LOWER[v]
  {
  }

  function HexChar(d: nat): (c: char)
    requires d < 16
    ensures IsHex(c) && HexDigit(c) == d
  {
    if d < 10 then (d + ('0' as int)) as char else (d - 10 + ('a' as int)) as char
  }

  /** `n` in hexadecimal, without leading zeros. */
  function Hex(n: nat): string {
    if n < 16 then [HexChar(n)] else Hex(n / 16) + [HexChar(n % 16)]
  }

  lemma {:induction false} HexAppend(acc: nat, a: string, b: string)
    requires AllHex(a) && AllHex(b)
    ensures AllHex(a + b) && HexValue(acc, a + b) == HexValue(HexValue(acc, a), b)
    decreases |a|
  {
    hide HexDigit;
    if a == "" {
      assert a + b == b;
    } else {
      assert (a + b)[1..] == a[1..] + b;
      HexAppend(acc * 16 + HexDigit(a[0]), a[1..], b);
    }
  }

  lemma HexOne(acc: nat, c: char)
    requires IsHex(c)
    ensures AllHex([c]) && HexValue(acc, [c]) == acc * 16 + HexDigit(c)
  {
    assert [c][1..] == "";
  }

  lemma {:induction false} HexReadBack(n: nat)
    ensures Hex(n) != "" && AllHex(Hex(n)) && HexValue(0, Hex(n)) == n
  {
    if n < 16 {
      HexOne(0, HexChar(n));
    } else {
      HexReadBack(n / 16);
      HexAppend(0, Hex(n / 16), [HexChar(n % 16)]);
      HexOne(n / 16, HexChar(n % 16));
    }
  }

  /** The pieces of the chunked coding for these bodies. */
  function Pieces(bodies: seq<string>): seq<Piece> {
    seq(|bodies|, i requires 0 <= i < |bodies| => Piece(Hex(|bodies[i]|), "", bodies[i], CRLF))
  }

  function Joined(bodies: seq<string>): string {
    if bodies == [] then "" else bodies[0] + Joined(bodies[1..])
  }

  lemma {:induction false} BodiesJoined(bodies: seq<string>)
    ensures Bodies(Pieces(bodies)) == Joined(bodies)
    decreases |bodies|
  {
    if bodies != [] {
      assert Pieces(bodies)[1..] == Pieces(bodies[1..]);
      BodiesJoined(bodies[1..]);
    }
  }

  /** A message written in chunks with their sizes in hexadecimal is read back, with the
      header announcing them in any letter case. */
  lemma ChunksWritten(texts: seq<string>, h: Header, bodies: seq<string>)
    requires AllLines(texts) && forall i :: 0 <= i < |bodies| ==> 0 < |bodies[i]| < SIZE_T - 2
    requires AnyCase(CODING.name, h.name) && AnyCase(CODING.value, h.value)
    ensures var lines := texts + [HeaderLine(h)]; var message := Head(lines) + ChunkedText(Pieces(bodies), "0", "", []);
      && Wf(Load(message))
      && var r := Analyze(Load(message));
         && r.state == Done && AtEnd(r)
         && AllClosed(r.data, r.lines) && Texts(r.data, r.lines) == lines
         && Inside(r.data, r.chunks) && Body(r.data, r.chunks) == Joined(bodies)
  {
    var lines, xs := texts + [HeaderLine(h)], Pieces(bodies);
    forall i | 0 <= i < |xs| ensures PieceOk(xs[i]) { HexReadBack(|bodies[i]|); }
    HexOne(0, '0');
    BodiesJoined(bodies);
    PlainWords();
    CasePlain(CODING.name, h.name);
    CasePlain(CODING.value, h.value);
    assert Writable(h);
    hide Writable, AnyCase, Plain, Analyze, DecodeTexts, DecodeText, Wf, HeaderLine, AllLines, CODING, Bodies, Joined, Hex, HexValue, PieceOk, Pieces;
    DecodeSnoc(NO_FLAGS, texts, HeaderLine(h));
    LineDecodes(DecodeTexts(NO_FLAGS, texts), h);
    OneMoreLine(texts, HeaderLine(h));
    ChunkedRoundTrip(lines, xs, "0", "", []);
    assert lines + [] == lines;
  }

  // ------------------------------------------------- sizes that do not fit

  /** What a size line leaves: the number its digits spell, on 64 bits. */
  function SizeOf(digits: string): (n: nat)
    requires AllHex(digits)
    ensures n < SIZE_T
  {
    HexValue(0, digits) % SIZE_T
  }

  lemma SizeLineFed(p: Parse, digits: string, extension: string)
    requires AtSize(p) && SizeText(digits, extension) && SizeOf(digits) > 0
    ensures var line := digits + (extension + "\r") + "\n";
      && Wf(Extend(p, line))
      && var q := Analyze(Extend(p, line));
         && Wf(q) && q.state == ChunkBody && AtEnd(q) && q.chunkSize == SizeOf(digits) && q.chunks == p.chunks
         && |q.data| == |p.data| + |line|
  {
    hide Analyze, Wf, HexValue, SizeText;
    var line := digits + (extension + "\r") + "\n";
    SizeFed(p, digits, extension);
  }

  /** The bytes a chunk waits for have come. */
  lemma ChunkTaken(q: Parse, more: string)
    requires Wf(q) && q.state == ChunkBody && AtEnd(q) && more != "" && |more| >= Need(q.chunkSize)
    ensures Wf(Extend(q, more))
    ensures var r := Analyze(Extend(q, more));
      q.chunks + [Chunk(q.index, q.chunkSize)] <= r.chunks && |r.data| == |q.data| + |more|
  {
    ExtendWf(q, more);
    var e := Extend(q, more);
    StepWf(e);
    ChunksGrow(Step(e));
  }

  /** A recorded span stays recorded. */
  lemma {:induction false} ChunksGrow(p: Parse)
    requires Wf(p)
    ensures p.chunks <= Analyze(p).chunks && |Analyze(p).data| == |p.data|
    decreases |p.data| - p.index, Rank(p.state)
  {
    if !Blocked(p) {
      StepWf(p);
      StepProgress(p);
      StepGrows(p);
      hide Wf, Step;
      ChunksGrow(Step(p));
    }
  }

  lemma StepGrows(p: Parse)
    requires Wf(p) && !Blocked(p)
    ensures p.chunks <= Step(p).chunks && |Step(p).data| == |p.data|
  {
    hide DecodeLines;
    if ReadingLine(p.state) || p.state == ChunkHeader {
      LineStepData(p);
      hide Step;
    }
  }

  /** The span of a chunk lies in the buffer exactly if the digits of its size line do
      not spell 2^64 - 2 or 2^64 - 1, on 64 bits: those two pass the check of what has
      arrived. (A buffer is shorter than that.) */
  lemma SpanInsideIff(p: Parse, digits: string, extension: string, more: string)
    requires AtSize(p) && SizeText(digits, extension) && SizeOf(digits) > 0
    requires more != "" && |more| >= Need(SizeOf(digits))
    requires |p.data| + |digits + (extension + "\r") + "\n"| + |more| < SIZE_T - 2
    ensures var line := digits + (extension + "\r") + "\n"; var at := |p.data| + |line|;
      && Wf(Extend(p, line + more))
      && var r := Analyze(Extend(p, line + more));
         && p.chunks + [Chunk(at, SizeOf(digits))] <= r.chunks
         && (at + SizeOf(digits) <= |r.data| <==> SizeOf(digits) < SIZE_T - 2)
  {
    hide Analyze, Wf, HexValue, SizeText, SizeOf;
    var line := digits + (extension + "\r") + "\n";
    SizeLineFed(p, digits, extension);
    var q := Analyze(Extend(p, line));
    ChunkTaken(q, more);
    Two(p, line, more, q);
  }

  lemma HexFour(acc: nat, c: char)
    requires c == 'E' || c == 'F'
    ensures AllHex("FFF" + [c]) && HexValue(acc, "FFF" + [c]) == acc * 0x1_0000 + 0xFFF0 + HexDigit(c)
  {
    HexAppend(acc, "FFF", [c]);
    HexAppend(acc, "FF", "F");
    HexAppend(acc, "F", "F");
    HexOne(acc, 'F');
    HexOne(acc * 16 + 15, 'F');
    HexOne(acc * 256 + 255, 'F');
    HexOne(acc * 4096 + 4095, c);
    assert "FF" == "F" + "F" && "FFF" == "FF" + "F";
  }

  const HUGE := "FFF" + ['F'] + ("FFF" + ['F']) + ("FFF" + ['F']) + ("FFF" + ['E'])

  lemma HugeSize()
    ensures AllHex(HUGE) && SizeOf(HUGE) == SIZE_T - 2
  {
    var f := "FFF" + ['F'];
    HexFour(0, 'F');
    HexFour(0xFFFF, 'F');
    HexFour(0xFFFF_FFFF, 'F');
    HexFour(0xFFFF_FFFF_FFFF, 'E');
    HexAppend(0, f, f);
    HexAppend(0, f + f, f);
    HexAppend(0, f + f + f, "FFF" + ['E']);
  }

  lemma SameCase(word: string)
    ensures AnyCase(word, word)
  {
  }

  lemma HugeLengths()
    ensures |HUGE| == 16 && |Head([HeaderLine(CODING)])| == 30
  {
    var text := HeaderLine(CODING);
    assert |text| == 26;
    assert Lines([text]) == text + CRLF + Lines([]) && Lines([]) == "";
  }

  /** A chunked message with the size line FFFFFFFFFFFFFFFE and one byte behind it: the
      recorded span leaves the buffer. */
  lemma HugeSizeEscapes()
    ensures var message := Head([HeaderLine(CODING)]) + (HUGE + ("" + "\r") + "\n" + "x");
      && Wf(Load(message))
      && var r := Analyze(Load(message)); r.chunks != [] && !Inside(r.data, r.chunks)
  {
    var text, line := HeaderLine(CODING), HUGE + ("" + "\r") + "\n";
    HugeSize();
    HugeLengths();
    PlainWords();
    SameCase(CODING.name);
    SameCase(CODING.value);
    assert Writable(CODING);
    hide Writable, Plain, AnyCase, Head, Analyze, DecodeTexts, DecodeText, HeaderLine, CODING, AllLines, HexValue, SizeOf, HUGE, Wf;
    assert [] + [text] == [text];
    DecodeSnoc(NO_FLAGS, [], text);
    LineDecodes(DecodeTexts(NO_FLAGS, []), CODING);
    OneMoreLine([], text);
    HeadParsed([text]);
    ChunksGrow(Load(Head([text])));
    var p := Analyze(Load(Head([text])));
    AnalyzeEarly(Load(Head([text])), line + "x");
    assert Extend(Load(Head([text])), line + "x") == Load(Head([text]) + (line + "x"));
    SpanInsideIff(p, HUGE, "", "x");
    var r := Analyze(Extend(p, line + "x"));
    assert r.chunks[0] == Chunk(|p.data| + |line|, SizeOf(HUGE));
  }
}
