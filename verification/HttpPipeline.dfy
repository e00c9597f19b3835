/** Pipelining: the server's loop around the parser, which hands every complete
    message to a task and goes on with the bytes behind it. */
module HttpPipeline {
  import opened HttpText
  import opened HttpParser

  /** What `reinitForNext` moves into the task's context. */
  function Former(a: Parse): Parse
    requires Wf(a) && a.state == Done
  {
    a.(data := a.data[..a.index], chunkSize := 0, sizeStart := false, sizeDone := false)
  }

  /** What `reinitForNext` leaves behind: the bytes after the message, unread. */
  function Next(a: Parse): Parse
    requires Wf(a) && a.state == Done
  {
    Load(a.data[a.index..])
  }

  /** The handed-over context is well formed by itself: nothing in it points past
      the message. */
  lemma FormerWf(a: Parse)
    requires Wf(a) && a.state == Done
    ensures Wf(Former(a)) && Former(a).index == |Former(a).data|
  {
    CutLines(a.data, a.lines, a.index);
  }

  lemma {:induction false} CutLines(data: string, lines: seq<Line>, limit: nat)
    requires ClosedLines(data, lines, limit) && limit <= |data|
    ensures ClosedLines(data[..limit], lines, limit)
    decreases |lines|
  {
    if lines != [] {
      var last := lines[|lines| - 1];
      CutLines(data, lines[..|lines| - 1], last.first);
      ClosedLinesExtend(data[..last.first], data[last.first..limit], lines[..|lines| - 1], last.first);
      assert data[..last.first] + data[last.first..limit] == data[..limit];
    }
  }

  datatype Outcome = Outcome(tasks: seq<Parse>, rest: Parse)

  /** The loop of `ChttpServer::message` when every task can be allocated. */
  function Serve(p: Parse): Outcome
    requires Wf(p)
    decreases |p.data|
  {
    var a := Analyze(p);
    if a.state == Done then
      LoadWf(a.data[a.index..]);
      var later := Serve(Next(a));
      Outcome([Former(a)] + later.tasks, later.rest)
    else Outcome([], a)
  }

  /** The same loop when only the next `budget` task allocations succeed. */
  function ServeUpTo(p: Parse, budget: nat): Outcome
    requires Wf(p)
    decreases budget
  {
    var a := Analyze(p);
    if a.state == Done && budget > 0 then
      LoadWf(a.data[a.index..]);
      var later := ServeUpTo(Next(a), budget - 1);
      Outcome([Former(a)] + later.tasks, later.rest)
    else Outcome([], a)
  }

  /** Running out of memory only cuts the list of tasks short, and with enough
      memory nothing is cut: the two loops agree. */
  lemma {:induction false} ServeUpToIsPrefix(p: Parse, budget: nat)
    requires Wf(p)
    ensures ServeUpTo(p, budget).tasks <= Serve(p).tasks
    ensures |ServeUpTo(p, budget).tasks| == if budget < |Serve(p).tasks| then budget else |Serve(p).tasks|
    ensures budget >= |Serve(p).tasks| ==> ServeUpTo(p, budget) == Serve(p)
    decreases budget
  {
    hide Wf, Analyze;
    var a := Analyze(p);
    if a.state == Done && budget > 0 {
      LoadWf(Next(a).data);
      ServeUpToIsPrefix(Next(a), budget - 1);
    }
  }

  // --------------------------------------------------- pushing in fragments

  /** Bytes behind a complete message stay behind it. */
  lemma DoneExtend(a: Parse, more: string)
    requires Wf(a) && a.state == Done
    ensures Wf(Extend(a, more)) && Blocked(Extend(a, more))
    ensures Former(Extend(a, more)) == Former(a)
    ensures Next(Extend(a, more)) == Extend(Next(a), more)
    ensures Analyze(Extend(a, more)) == Extend(a, more)
  {
    ExtendWf(a, more);
    assert (a.data + more)[..a.index] == a.data[..a.index];
    assert (a.data + more)[a.index..] == a.data[a.index..] + more;
  }

  lemma ConsAppend(f: Parse, a: seq<Parse>, b: seq<Parse>)
    ensures [f] + (a + b) == ([f] + a) + b
  {
  }

  /** One turn of the loop. */
  lemma ServeTurn(p: Parse, a: Parse)
    requires Wf(p) && Wf(a) && Analyze(p) == a && a.state == Done
    ensures Wf(Next(a)) && |Next(a).data| < |p.data|
    ensures Serve(p).tasks == [Former(a)] + Serve(Next(a)).tasks && Serve(p).rest == Serve(Next(a)).rest
  {
    LoadWf(a.data[a.index..]);
  }

  /** Serving early changes nothing: the tasks made so far, then those made when
      more bytes arrive, are the tasks made from all the bytes at once. */
  lemma {:induction false} ServeEarly(p: Parse, more: string)
    requires Wf(p)
    ensures Wf(Extend(p, more)) && Wf(Serve(p).rest) && Wf(Extend(Serve(p).rest, more))
    ensures Serve(Extend(p, more)).tasks == Serve(p).tasks + Serve(Extend(Serve(p).rest, more)).tasks
    ensures Serve(Extend(p, more)).rest == Serve(Extend(Serve(p).rest, more)).rest
    decreases |p.data|
  {
    hide Wf, Analyze;
    var a := Analyze(p);
    AnalyzeEarly(p, more);
    if a.state == Done {
      DoneExtend(a, more);
      var n := Next(a);
      ServeTurn(p, a);
      ServeTurn(Extend(p, more), Extend(a, more));
      ServeEarly(n, more);
      ConsAppend(Former(a), Serve(n).tasks, Serve(Extend(Serve(n).rest, more)).tasks);
    }
  }

  /** `message` called once per pushed part. */
  function ServeParts(p: Parse, parts: seq<string>): Outcome
    requires Wf(p)
    decreases |parts|
  {
    if parts == [] then Outcome([], p)
    else
      ServeEarly(p, parts[0]);
      ServeRestWf(Extend(p, parts[0]));
      var first := Serve(Extend(p, parts[0]));
      var later := ServeParts(first.rest, parts[1..]);
      Outcome(first.tasks + later.tasks, later.rest)
  }

  lemma {:induction false} ServeRestWf(p: Parse)
    requires Wf(p)
    ensures Wf(Serve(p).rest) && Blocked(Serve(p).rest) && Serve(p).rest.state != Done
    decreases |p.data|
  {
    var a := Analyze(p);
    if a.state == Done {
      LoadWf(a.data[a.index..]);
      ServeRestWf(Next(a));
    }
  }

  /** A parser that has nothing to hand over stays as it is. */
  lemma ServeQuiet(p: Parse)
    requires Wf(p) && Blocked(p) && p.state != Done
    ensures Serve(p) == Outcome([], p)
  {
  }

  /** Fragmentation independence of the whole server loop: however a stream is cut
      into pushes, the same tasks are created, in the same order, with the same
      contexts, and the same bytes wait for the rest of their message. */
  lemma {:induction false} PipelineFragmentationIndependent(p: Parse, parts: seq<string>)
    requires Wf(p) && Blocked(p) && p.state != Done
    ensures Wf(Extend(p, Concat(parts)))
    ensures ServeParts(p, parts) == Serve(Extend(p, Concat(parts)))
    decreases |parts|
  {
    hide Analyze;
    ExtendWf(p, Concat(parts));
    if parts == [] {
      assert Extend(p, "") == p;
      ServeQuiet(p);
    } else {
      var e := Extend(p, parts[0]);
      ExtendWf(p, parts[0]);
      ServeRestWf(e);
      PipelineFragmentationIndependent(Serve(e).rest, parts[1..]);
      ServeEarly(e, Concat(parts[1..]));
      ExtendTwice(p, parts[0], Concat(parts[1..]));
    }
  }

  // ---------------------------------------------------------- exact splits

  /** A message by itself: parsing it ends in `state_done` at its last byte. */
  ghost predicate Complete(m: string) {
    Wf(Load(m)) && Analyze(Load(m)).state == Done && Analyze(Load(m)).index == |m|
  }

  /** No complete message at the front. */
  ghost predicate Incomplete(m: string) {
    Wf(Load(m)) && Analyze(Load(m)).state != Done
  }

  ghost predicate AllComplete(ms: seq<string>) {
    forall i :: 0 <= i < |ms| ==> Complete(ms[i])
  }

  /** The context of a task that got exactly this message. */
  ghost function Alone(m: string): Parse
    requires Complete(m)
  {
    Former(Analyze(Load(m)))
  }

  ghost function AllAlone(ms: seq<string>): seq<Parse>
    requires AllComplete(ms)
    decreases |ms|
  {
    if ms == [] then [] else [Alone(ms[0])] + AllAlone(ms[1..])
  }

  /** The first of several messages is handed over alone. */
  lemma FirstMessage(m: string, rest: string)
    requires Complete(m)
    ensures Wf(Load(m + rest)) && Wf(Load(rest))
    ensures Serve(Load(m + rest)).tasks == [Alone(m)] + Serve(Load(rest)).tasks
    ensures Serve(Load(m + rest)).rest == Serve(Load(rest)).rest
  {
    hide Analyze;
    var a := Analyze(Load(m));
    AnalyzeEarly(Load(m), rest);
    assert Extend(Load(m), rest) == Load(m + rest);
    DoneExtend(a, rest);
    assert a.data[a.index..] == "" && "" + rest == rest;
    ServeTurn(Load(m + rest), Extend(a, rest));
  }

  lemma Regroup(a: string, b: string, c: string)
    ensures a + (b + c) == (a + b) + c
  {
  }

  /** Pipelined messages split exactly: one task per message, each with the context
      of parsing that message alone, and the tail is left over byte for byte. */
  lemma {:induction false} PipelineSplits(ms: seq<string>, tail: string)
    requires AllComplete(ms) && Incomplete(tail)
    ensures Wf(Load(Concat(ms) + tail))
    ensures Serve(Load(Concat(ms) + tail)) == Outcome(AllAlone(ms), Analyze(Load(tail)))
    decreases |ms|
  {
    hide Analyze;
    LoadWf(Concat(ms) + tail);
    if ms == [] {
      assert Concat(ms) + tail == tail;
    } else {
      var others := Concat(ms[1..]);
      PipelineSplits(ms[1..], tail);
      FirstMessage(ms[0], others + tail);
      Regroup(ms[0], others, tail);
    }
  }

  /** Completing a message takes at least one byte more, and all of a pending body. */
  lemma {:induction false} Advance(p: Parse)
    requires Wf(p) && p.state != Done && Analyze(p).state == Done
    ensures Analyze(p).index > p.index
    ensures p.state == ReadBody ==> Analyze(p).index >= p.index + p.flags.contentLength
    ensures p.state == ChunkBody ==> Analyze(p).index >= p.index + Need(p.chunkSize)
    decreases |p.data| - p.index, Rank(p.state)
  {
    StepWf(p);
    StepProgress(p);
    if Step(p).state != Done {
      Advance(Step(p));
    } else {
      StepToDone(p);
    }
  }

  lemma StepToDone(p: Parse)
    requires Wf(p) && !Blocked(p) && Step(p).state == Done
    ensures Step(p).index > p.index
  {
  }

  /** A complete message does not depend on the bytes behind it. */
  lemma DoneIsLocal(q: Parse, more: string)
    requires Wf(q) && Wf(Extend(q, more))
    requires Analyze(Extend(q, more)).state == Done && Analyze(Extend(q, more)).index <= |q.data|
    ensures Analyze(q).state == Done && Analyze(q).index == Analyze(Extend(q, more)).index
  {
    hide Step;
    var a := Analyze(q);
    AnalyzeEarly(q, more);
    if a.state != Done {
      Advance(Extend(a, more));
      assert false;
    }
  }

  /** Every stream is a run of complete messages and an incomplete tail, so with
      `PipelineSplits` what the loop makes of it is determined on all streams. */
  lemma {:induction false} StreamSplits(stream: string) returns (ms: seq<string>, tail: string)
    ensures stream == Concat(ms) + tail && AllComplete(ms) && Incomplete(tail)
    decreases |stream|
  {
    LoadWf(stream);
    var a := Analyze(Load(stream));
    if a.state != Done {
      ms, tail := [], stream;
    } else {
      var m, rest := stream[..a.index], stream[a.index..];
      LoadWf(m);
      assert Extend(Load(m), rest) == Load(stream);
      DoneIsLocal(Load(m), rest);
      var later;
      later, tail := StreamSplits(rest);
      ms := ConsComplete(m, later);
      Regroup(m, Concat(later), tail);
    }
  }

  lemma ConsComplete(m: string, later: seq<string>) returns (ms: seq<string>)
    requires Complete(m) && AllComplete(later)
    ensures AllComplete(ms) && Concat(ms) == m + Concat(later)
  {
    ms := [m] + later;
    assert ms[1..] == later;
  }
}
