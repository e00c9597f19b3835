/** The headers a list of lines holds. */
module HttpHeaders {
  import opened Common
  import opened HttpText

  /** The name and value pairs of the lines that hold one. */
  function Pairs(texts: seq<string>): seq<Header>
    decreases |texts|
  {
    if texts == [] then []
    else
      var last := Split(texts[|texts| - 1]);
      Pairs(texts[..|texts| - 1]) + (if last.Some? then [last.value] else [])
  }

  /** The line reads as this header. */
  ghost predicate ReadsAs(line: string, h: Header) {
    exists a, b, c, d, e :: Reads(line, h, a, b, c, d, e)
  }

  ghost predicate IsHeader(line: string) {
    exists h :: ReadsAs(line, h)
  }

  /** `at` are the lines that read as a header, in order, and `headers` what they read as. */
  ghost predicate Listed(texts: seq<string>, headers: seq<Header>, at: seq<nat>) {
    && |at| == |headers|
    && (forall j :: 0 <= j < |at| ==> at[j] < |texts| && ReadsAs(texts[at[j]], headers[j]))
    && (forall i, j :: 0 <= i < j < |at| ==> at[i] < at[j])
    && (forall i :: 0 <= i < |texts| && IsHeader(texts[i]) ==> i in at)
  }

  /** One header for each line that reads as one, in the order of the lines, with the
      name and the value of its line; all other lines are left out. */
  ghost predicate Lists(texts: seq<string>, headers: seq<Header>) {
    exists at :: Listed(texts, headers, at)
  }

  lemma SplitReads(line: string)
    ensures Split(line).Some? ==> ReadsAs(line, Split(line).value)
    ensures IsHeader(line) ==> Split(line).Some?
  {
    if Split(line).Some? {
      var a, b, c, d, e := SplitSound(line);
    }
    hide Reads, Split;
    if h :| ReadsAs(line, h) {
      SplitExact(line, h);
    }
  }

  lemma {:induction false} PairsListed(texts: seq<string>) returns (at: seq<nat>)
    ensures Listed(texts, Pairs(texts), at)
    decreases |texts|
  {
    hide Split, ReadsAs, IsHeader, Listed;
    if texts == [] {
      at := [];
      NoneListed();
    } else {
      var n := |texts| - 1;
      var before := PairsListed(texts[..n]);
      SplitReads(texts[n]);
      if Split(texts[n]).Some? {
        ListedAdd(texts, Pairs(texts[..n]), before, Split(texts[n]).value);
        at := before + [n];
      } else {
        ListedSkip(texts, Pairs(texts[..n]), before);
        at := before;
        assert Pairs(texts[..n]) + [] == Pairs(texts[..n]);
      }
    }
  }

  lemma NoneListed()
    ensures Listed([], [], [])
  {
  }

  lemma ListedSkip(texts: seq<string>, headers: seq<Header>, before: seq<nat>)
    requires texts != [] && Listed(texts[..|texts| - 1], headers, before)
    requires !IsHeader(texts[|texts| - 1])
    ensures Listed(texts, headers, before)
  {
    hide ReadsAs, IsHeader;
    var front := texts[..|texts| - 1];
    forall i | 0 <= i < |texts| && IsHeader(texts[i]) ensures i in before {
      assert i < |front| && front[i] == texts[i];
    }
  }

  lemma ListedAdd(texts: seq<string>, headers: seq<Header>, before: seq<nat>, h: Header)
    requires texts != [] && Listed(texts[..|texts| - 1], headers, before)
    requires ReadsAs(texts[|texts| - 1], h)
    ensures Listed(texts, headers + [h], before + [|texts| - 1])
  {
    hide ReadsAs, IsHeader;
    var n := |texts| - 1;
    var front, at, all := texts[..n], before + [n], headers + [h];
    forall i | 0 <= i < |texts| && IsHeader(texts[i]) ensures i in at {
      if i < n {
        assert front[i] == texts[i];
        assert i in before;
      } else {
        assert at[|before|] == n;
      }
    }
    forall j | 0 <= j < |at| ensures at[j] < |texts| && ReadsAs(texts[at[j]], all[j]) {
      if j < |before| { assert front[before[j]] == texts[before[j]]; }
    }
  }

  /** The list is determined by the lines: the headers of the lines that read as one. */
  lemma PairsAre(texts: seq<string>)
    ensures Lists(texts, Pairs(texts))
  {
    var at := PairsListed(texts);
  }

  lemma {:induction false} PairsAppend(a: seq<string>, b: seq<string>)
    ensures Pairs(a + b) == Pairs(a) + Pairs(b)
    decreases |b|
  {
    hide Split;
    if b == [] {
      assert a + b == a;
    } else {
      var n := |b| - 1;
      assert (a + b)[..|a| + n] == a + b[..n] && (a + b)[|a| + n] == b[n];
      PairsAppend(a, b[..n]);
    }
  }
}
