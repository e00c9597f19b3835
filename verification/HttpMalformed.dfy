/** Which bytes the parser refuses, and what it makes of a size line that does not start
    with its digits. */
module HttpMalformed {
  import opened Common
  import opened HttpText
  import opened HttpParser
  import opened HttpSpans
  import opened HttpRoundTrip

  // ------------------------------------------------------------- refused bytes

  /** A line feed without a carriage return in front of it. */
  predicate BareLineFeed(s: string, i: nat) {
    i < |s| && s[i] == '\n' && (i == 0 || s[i - 1] != '\r')
  }

  predicate InLine(state: HttpState) {
    state == Start || ReadingLine(state) || state == ChunkHeader
  }

  /** A step refuses exactly a bare line feed in the header, on a size line or in the
      trailer. */
  lemma StepRefuses(p: Parse)
    requires Wf(p) && !Blocked(p)
    ensures Step(p).state == Bad <==> InLine(p.state) && BareLineFeed(p.data, p.index)
    ensures Step(p).state == Bad ==> Step(p) == p.(state := Bad)
  {
    hide DecodeLines;
    if p.state == Start {
      assert p == Load(p.data);
    }
    if ReadingLine(p.state) && p.data[p.index] == '\n' && p.index > 0 && p.data[p.index - 1] == '\r' {
      ClosingKeepsOn(p);
    }
  }

  lemma ClosingKeepsOn(p: Parse)
    requires Wf(p) && ReadingLine(p.state) && p.index < |p.data| && p.data[p.index] == '\n' && p.index > 0 && p.data[p.index - 1] == '\r'
    ensures Closing(p) && CloseLine(p).state != Bad
  {
    hide DecodeLines;
    CloseLineWf(p);
  }

  /** The byte in front of the index is a carriage return if that was received. */
  ghost predicate Before(data: string, index: nat, input: string) {
    0 < index <= |input| && |data| == |input| && input[index - 1] == '\r' ==> data[index - 1] == '\r'
  }

  lemma StepBefore(p: Parse, input: string)
    requires Wf(p) && !Blocked(p) && Mirror(p.data, p.index, input) && Before(p.data, p.index, input)
    ensures Before(Step(p).data, Step(p).index, input)
  {
    if ReadingLine(p.state) || p.state == ChunkHeader {
      LineStepData(p);
      LineStepIndex(p);
      hide Step, Wf;
    }
  }

  lemma LineStepIndex(p: Parse)
    requires Wf(p) && !Blocked(p) && (ReadingLine(p.state) || p.state == ChunkHeader)
    ensures p.index <= Step(p).index <= p.index + 1
  {
    hide DecodeLines;
  }

  lemma {:induction false} RunRefuses(p: Parse, input: string)
    requires Wf(p) && p.state != Bad && Shows(p, input) && Before(p.data, p.index, input)
    ensures var r := Analyze(p); r.state == Bad ==> BareLineFeed(input, r.index)
    decreases |p.data| - p.index, Rank(p.state)
  {
    hide Wf, Step, BodyIntact, Before, BareLineFeed;
    if !Blocked(p) {
      StepWf(p);
      StepProgress(p);
      StepRefuses(p);
      StepShows(p, input);
      StepBefore(p, input);
      if Step(p).state == Bad {
        SameLineFeed(p, input);
      } else {
        RunRefuses(Step(p), input);
      }
    }
  }

  lemma SameLineFeed(p: Parse, input: string)
    requires Mirror(p.data, p.index, input) && Before(p.data, p.index, input) && BareLineFeed(p.data, p.index)
    ensures BareLineFeed(input, p.index)
  {
  }

  /** A message is refused only for a bare line feed, and the index stays at it. */
  lemma RefusedFor(input: string)
    ensures Wf(Load(input))
    ensures var r := Analyze(Load(input)); r.state == Bad ==> BareLineFeed(input, r.index)
  {
    LoadWf(input);
    assert Shows(Load(input), input);
    hide Wf, Shows;
    RunRefuses(Load(input), input);
  }

  // -------------------------------------------------- a bare line feed is refused

  /** Text without line feed that does not end with a carriage return. */
  predicate Unended(text: string) {
    '\n' !in text && (text == "" || text[|text| - 1] != '\r')
  }

  /** The bytes end without a carriage return. */
  predicate NoReturn(data: string) {
    data == "" || data[|data| - 1] != '\r'
  }

  lemma NoReturnAfter(data: string, text: string)
    requires Unended(text) && (text == "" ==> NoReturn(data))
    ensures NoReturn(data + text) && (data + text)[|data|..] == text
  {
  }

  /** A line feed comes next. */
  lemma LineFeedNext(d: Parse, rest: string)
    requires Wf(d) && InLine(d.state) && d.index == |d.data| && NoReturn(d.data)
    ensures Wf(Extend(d, "\n" + rest)) && Analyze(Extend(d, "\n" + rest)) == Extend(d, "\n" + rest).(state := Bad)
  {
    ExtendWf(d, "\n" + rest);
    hide Wf, Analyze;
    var q := Extend(d, "\n" + rest);
    assert q.data[q.index] == '\n';
    RefusedNow(q);
  }

  /** On a line, the rest of which has come without a carriage return. */
  lemma LineRefused(p: Parse, text: string, rest: string)
    requires AtLine(p) && Unended(text)
    ensures Wf(Extend(p, text + ("\n" + rest)))
    ensures var r := Analyze(Extend(p, text + ("\n" + rest))); r.state == Bad && r.index == |p.data| + |text|
  {
    LineBegins(p);
    NoReturnAfter(p.data, text);
    hide Wf, Analyze, AtLine, Unended, NoReturn, Step, Blocked;
    ExtendWf(p, text);
    RunPlain(Extend(p, text));
    var d := Extend(p, text).(index := |p.data| + |text|);
    Two(p, text, "\n" + rest, d);
    LineFeedNext(d, rest);
  }

  lemma LineBegins(p: Parse)
    requires AtLine(p)
    ensures Wf(p) && ReadingLine(p.state) && p.index == |p.data| && NoReturn(p.data)
  {
  }

  lemma RefusedNow(q: Parse)
    requires Wf(q) && InLine(q.state) && BareLineFeed(q.data, q.index)
    ensures Analyze(q) == q.(state := Bad)
  {
    StepRefuses(q);
    StepWf(q);
  }

  /** In a header: after any lines, one that ends without its carriage return. */
  lemma HeaderRefused(texts: seq<string>, text: string, rest: string)
    requires AllLines(texts) && Unended(text)
    ensures var message := Lines(texts) + (text + ("\n" + rest));
      && Wf(Load(message))
      && var r := Analyze(Load(message)); r.state == Bad && r.index == |Lines(texts)| + |text|
  {
    if texts == [] {
      assert Lines(texts) + (text + ("\n" + rest)) == text + ("\n" + rest);
      FirstRefused(text, rest);
    } else {
      HeaderLines(texts);
      var p := Analyze(Load(Lines(texts)));
      AnalyzeEarly(Load(Lines(texts)), text + ("\n" + rest));
      hide Analyze, AtLine;
      LineRefused(p, text, rest);
      assert Extend(Load(Lines(texts)), text + ("\n" + rest)) == Load(Lines(texts) + (text + ("\n" + rest)));
    }
  }

  /** The parser after the lines of a header. */
  lemma HeaderLines(texts: seq<string>)
    requires AllLines(texts) && texts != []
    ensures Wf(Load(Lines(texts)))
    ensures var p := Analyze(Load(Lines(texts))); AtLine(p) && p.state == ReadHeader && |p.data| == |Lines(texts)|
  {
    hide Analyze;
    FirstLine(texts[0]);
    var q := Analyze(Load(texts[0] + CRLF));
    LinesFed(q, texts[1..]);
    AnalyzeEarly(Load(texts[0] + CRLF), Lines(texts[1..]));
    assert Extend(Load(texts[0] + CRLF), Lines(texts[1..])) == Load(Lines(texts));
    SameSize(Load(Lines(texts)));
  }

  lemma {:induction false} SameSize(p: Parse)
    requires Wf(p)
    ensures |Analyze(p).data| == |p.data|
    decreases |p.data| - p.index, Rank(p.state)
  {
    hide Wf, Step;
    if !Blocked(p) {
      StepWf(p);
      StepProgress(p);
      SameSize(Step(p));
    }
  }

  lemma FirstRefused(text: string, rest: string)
    requires Unended(text)
    ensures Wf(Load(text + ("\n" + rest)))
    ensures var r := Analyze(Load(text + ("\n" + rest))); r.state == Bad && r.index == |text|
  {
    var data := text + ("\n" + rest);
    LoadWf(data);
    if text == "" {
      assert data[0] == '\n';
      RefusedNow(Load(data));
    } else {
      Opening(text);
      var b := Load(text).(state := ReadHeader, lines := [Line(0, Unknown)]);
      assert b.data[b.index..] == text;
      RunPlain(b);
      AnalyzeEarly(Load(text), "\n" + rest);
      assert Extend(Load(text), "\n" + rest) == Load(data);
      var q := Extend(b.(index := |text|), "\n" + rest);
      assert q.data[q.index] == '\n' && q.data[q.index - 1] == text[|text| - 1];
      RefusedNow(q);
    }
  }

  // -------------------------------------------------------------- size lines

  /** On a size line, digits or not, a bare line feed is refused too. */
  lemma SizeRefused(p: Parse, text: string, rest: string)
    requires AtSize(p) && Unended(text)
    requires text == "" ==> p.index > 0 && p.data[p.index - 1] != '\r'
    ensures Wf(Extend(p, text + ("\n" + rest)))
    ensures var r := Analyze(Extend(p, text + ("\n" + rest))); r.state == Bad && r.index == |p.data| + |text|
  {
    NoReturnAfter(p.data, text);
    ExtendWf(p, text);
    hide Wf, Analyze, Unended, NoReturn, Step, Blocked;
    RunSize(Extend(p, text));
    var d := Analyze(Extend(p, text));
    Two(p, text, "\n" + rest, d);
    LineFeedNext(d, rest);
  }

  /** Bytes of a size line other than its line feed are taken in. */
  lemma {:induction false} RunSize(p: Parse)
    requires Wf(p) && p.state == ChunkHeader && '\n' !in p.data[p.index..]
    ensures Analyze(p).state == ChunkHeader && AtEnd(Analyze(p)) && Analyze(p).data == p.data
    decreases |p.data| - p.index
  {
    if p.index < |p.data| {
      assert p.data[p.index] == p.data[p.index..][0];
      StepWf(p);
      var q := Step(p);
      assert q.index == p.index + 1 && q.data == p.data && q.state == ChunkHeader;
      assert q.data[q.index..] == p.data[p.index..][1..];
      hide Step, Wf;
      RunSize(q);
    }
  }

  /** White space in front of the digits is skipped, as if the line began behind it. */
  lemma {:induction false} SpacesSkipped(p: Parse)
    requires Wf(p) && p.state == ChunkHeader && !p.sizeStart && !p.sizeDone
    requires AllSpace(p.data[p.index..]) && '\n' !in p.data[p.index..]
    ensures Analyze(p) == p.(index := |p.data|)
    decreases |p.data| - p.index
  {
    if p.index < |p.data| {
      assert p.data[p.index] == p.data[p.index..][0];
      SpaceIs(p.data[p.index]);
      StepWf(p);
      var q := Step(p);
      assert q == p.(index := p.index + 1);
      assert q.data[q.index..] == p.data[p.index..][1..];
      hide Step, Wf;
      SpacesSkipped(q);
    }
  }

  /** A padded size line begins where its padding ends. */
  lemma PaddedSize(p: Parse, pad: string)
    requires AtSize(p) && AllSpace(pad) && '\n' !in pad
    ensures Wf(Extend(p, pad)) && Analyze(Extend(p, pad)) == Extend(p, pad).(index := |p.data| + |pad|)
    ensures AtSize(Analyze(Extend(p, pad)))
  {
    ExtendWf(p, pad);
    var e := Extend(p, pad);
    assert e.data[e.index..] == pad;
    SpacesSkipped(e);
  }

  /** A size line that starts with neither white space nor a digit announces no bytes,
      whatever digits follow: it is the last chunk. */
  lemma NoDigits(p: Parse, text: string)
    requires AtSize(p) && text != "" && !IsHex(text[0]) && !IsSpace(text[0]) && '\n' !in text
    ensures Wf(Extend(p, text + CRLF)) && Analyze(Extend(p, text + CRLF)).state == ChunkFooter
  {
    var a := text + "\r";
    assert text + CRLF == a + "\n";
    ExtendWf(p, a);
    NoDigitFirst(p, a);
    var e := Extend(p, a);
    var f := e.(index := |e.data|, sizeDone := true);
    Two(p, a, "\n", f);
    hide Wf, Analyze;
    LastStep(Extend(f, "\n"));
  }

  lemma NoDigitFirst(p: Parse, a: string)
    requires AtSize(p) && a != "" && !IsHex(a[0]) && !IsSpace(a[0]) && '\n' !in a && Wf(Extend(p, a))
    ensures Analyze(Extend(p, a)) == Extend(p, a).(index := |p.data| + |a|, sizeDone := true)
  {
    var e := Extend(p, a);
    assert e.data[e.index..] == a && e.data[e.index] == a[0];
    StepWf(e);
    var f := e.(index := e.index + 1, sizeDone := true);
    assert Step(e) == f;
    assert f.data[f.index..] == a[1..];
    hide Wf, Step;
    RunDone(f);
  }

  lemma {:induction false} RunDone(p: Parse)
    requires Wf(p) && p.state == ChunkHeader && p.sizeDone && '\n' !in p.data[p.index..]
    ensures Analyze(p) == p.(index := |p.data|)
    decreases |p.data| - p.index
  {
    if p.index < |p.data| {
      assert p.data[p.index] == p.data[p.index..][0];
      StepWf(p);
      var q := Step(p);
      assert q == p.(index := p.index + 1);
      assert q.data[q.index..] == p.data[p.index..][1..];
      hide Step, Wf;
      RunDone(q);
    }
  }
}
