/** Character-level pieces of the HTTP parser: the C library classifications it
    relies on, the decimal reader behind `Content-Length`, and the split of one
    header line into a trimmed name and value. */
module HttpText {
  import opened Common

  const NUL: char := '\0'

  /** `isspace` in the C locale. */
  predicate IsSpace(c: char) {
    c == ' ' || '\t' <= c <= '\r'
  }

  predicate IsDigit(c: char) {
    '0' <= c <= '9'
  }

  function Lower(c: char): char {
    if 'A' <= c <= 'Z' then ((c as int) + 32) as char else c
  }

  /** `length == |word| && strncasecmp(word, s, length) == 0` for a word without NUL. */
  predicate SameWord(word: string, s: string) {
    |s| == |word| && forall i :: 0 <= i < |s| ==> Lower(s[i]) == Lower(word[i])
  }

  /** The same character, or the upper- and the lower-case form of one ASCII letter. */
  predicate SameLetter(a: char, b: char) {
    var x, y := a as int, b as int;
    || x == y
    || (0x41 <= x <= 0x5A && y == x + 0x20)
    || (0x41 <= y <= 0x5A && x == y + 0x20)
  }

  /** `s` is `word` in some mixture of upper and lower case. */
  predicate AnyCase(word: string, s: string) {
    |s| == |word| && forall i :: 0 <= i < |s| ==> SameLetter(word[i], s[i])
  }

  /** The comparison of names and values ignores the case of ASCII letters and nothing
      else. */
  lemma SameWordIs(word: string, s: string)
    ensures SameWord(word, s) <==> AnyCase(word, s)
  {
    forall a: char, b: char ensures Lower(a) == Lower(b) <==> SameLetter(a, b) { SameLetterIs(a, b); }
  }

  lemma SameLetterIs(a: char, b: char)
    ensures Lower(a) == Lower(b) <==> SameLetter(a, b)
  {
  }

  /** White space is space, tab, line feed, vertical tab, form feed and carriage return. */
  lemma SpaceIs(c: char)
    ensures IsSpace(c) <==> c as int in {0x20, 0x09, 0x0A, 0x0B, 0x0C, 0x0D}
  {
  }

  // ---------------------------------------------------------------- numbers

  function Decimal(s: string, acc: nat): nat
    decreases |s|
  {
    if s == "" || !IsDigit(s[0]) then acc
    else Decimal(s[1..], acc * 10 + ((s[0] as int) - ('0' as int)))
  }

  const LONG_MAX: int := 0x7FFF_FFFF_FFFF_FFFF

  /** `(size_t)atoi(s)` for text that does not start with white space, where
      `atoi` is `(int)strtol`: saturate to a long, keep the low 32 bits as a
      signed int, then convert to the unsigned 64-bit length. */
  function AtoiSize(s: string): (n: nat)
    ensures n < SIZE_T
  {
    var negative := s != "" && s[0] == '-';
    var digits := if s != "" && (s[0] == '-' || s[0] == '+') then s[1..] else s;
    var magnitude: int := Decimal(digits, 0);
    var asLong := if negative then (if magnitude > LONG_MAX + 1 then -LONG_MAX - 1 else -magnitude)
                  else (if magnitude > LONG_MAX then LONG_MAX else magnitude);
    var low := asLong % 0x1_0000_0000;
    if low < 0x8000_0000 then low else SIZE_T + low - 0x1_0000_0000
  }

  /** Decimal digits stop at the first other character, so text after the number
      is never looked at. */
  lemma {:induction false} DecimalStops(s: string, rest: string, acc: nat)
    requires rest == "" || !IsDigit(rest[0])
    ensures Decimal(s + rest, acc) == Decimal(s, acc)
    decreases |s|
  {
    if s == "" {
      assert s + rest == rest;
    } else if IsDigit(s[0]) {
      assert (s + rest)[1..] == s[1..] + rest;
      DecimalStops(s[1..], rest, acc * 10 + ((s[0] as int) - ('0' as int)));
    }
  }

  /** Reading on past a trimmed value gives the same number as reading the value. */
  lemma AtoiIgnoresTrailingText(s: string, rest: string)
    requires s != ""
    requires rest == "" || !IsDigit(rest[0])
    ensures AtoiSize(s + rest) == AtoiSize(s)
  {
    assert (s + rest)[1..] == s[1..] + rest;
    DecimalStops(s, rest, 0);
    DecimalStops(s[1..], rest, 0);
  }

  // ------------------------------------------------------- splitting a line

  datatype Header = Header(name: string, value: string)

  /** The first index from `i` on that holds no white space. */
  function SkipSpaces(s: string, i: nat): (j: nat)
    requires i <= |s|
    ensures i <= j <= |s|
    ensures j < |s| ==> !IsSpace(s[j])
    decreases |s| - i
  {
    if i < |s| && IsSpace(s[i]) then SkipSpaces(s, i + 1) else i
  }

  /** Where `strchr` for a colon stops: at the colon, at a NUL, or at the end. */
  function FindColon(s: string, i: nat): (j: nat)
    requires i <= |s|
    ensures i <= j <= |s|
    ensures j < |s| ==> s[j] == ':' || s[j] == NUL
    decreases |s| - i
  {
    if i < |s| && s[i] != ':' && s[i] != NUL then FindColon(s, i + 1) else i
  }

  /** The end of `s[lo..hi]` once trailing white space is dropped. */
  function TrimTail(s: string, lo: nat, hi: nat): (j: nat)
    requires lo < hi <= |s| && !IsSpace(s[lo])
    ensures lo < j <= hi
    ensures !IsSpace(s[j - 1])
    decreases hi
  {
    if IsSpace(s[hi - 1]) then TrimTail(s, lo, hi - 1) else hi
  }

  /** The name and value found in one line; None for a line the parser skips. */
  function Split(line: string): Option<Header> {
    var head := SkipSpaces(line, 0);
    var colon := FindColon(line, head);
    if colon == |line| || line[colon] == NUL || colon == head then None
    else
      var valueHead := SkipSpaces(line, colon + 1);
      if valueHead == |line| then None
      else Some(Header(line[head..TrimTail(line, head, colon)],
                       line[valueHead..TrimTail(line, valueHead, |line|)]))
  }

  lemma SplitParts(line: string, a: nat, b: nat, c: nat, d: nat, e: nat, h: Header)
    requires SkipSpaces(line, 0) == a && FindColon(line, a) == c < |line| && line[c] == ':' && a < c
    requires TrimTail(line, a, c) == b
    requires SkipSpaces(line, c + 1) == d < |line| && TrimTail(line, d, |line|) == e
    requires h.name == line[a..b] && h.value == line[d..e]
    ensures Split(line) == Some(h)
  {
  }

  lemma SplitNone(line: string, a: nat, c: nat)
    requires SkipSpaces(line, 0) == a && FindColon(line, a) == c
    requires c == |line| || line[c] == NUL || c == a || SkipSpaces(line, c + 1) == |line|
    ensures Split(line) == None
  {
  }

  predicate AllSpace(s: string) {
    forall i :: 0 <= i < |s| ==> IsSpace(s[i])
  }

  /** Neither end of `s` is white space. */
  predicate Trimmed(s: string) {
    s != "" && !IsSpace(s[0]) && !IsSpace(s[|s| - 1])
  }

  /** What a header line is, said without any scanning: white space up to `a`,
      the name up to `b`, white space up to the colon at `c`, white space up to
      `d`, the value up to `e`, white space to the end; the name holds no colon
      and no NUL. */
  ghost predicate Reads(line: string, h: Header, a: nat, b: nat, c: nat, d: nat, e: nat) {
    && a <= b <= c < d <= e <= |line|
    && AllSpace(line[0..a]) && h.name == line[a..b] && AllSpace(line[b..c])
    && line[c] == ':'
    && AllSpace(line[c + 1..d]) && h.value == line[d..e] && AllSpace(line[e..|line|])
    && Trimmed(h.name) && ':' !in h.name && NUL !in h.name
    && Trimmed(h.value)
  }

  /** What is skipped is white space, and nothing but its first end stops it. */
  lemma {:induction false} SkipSpacesIs(s: string, i: nat, j: nat)
    requires i <= j <= |s|
    ensures SkipSpaces(s, i) == j <==> AllSpace(s[i..j]) && (j < |s| ==> !IsSpace(s[j]))
    decreases |s| - i
  {
    if i < |s| && IsSpace(s[i]) {
      if i < j {
        SkipSpacesIs(s, i + 1, j);
        assert s[i..j] == [s[i]] + s[i + 1..j];
      }
    } else if i < j {
      assert s[i..j][0] == s[i];
    }
  }

  lemma {:induction false} FindColonIs(s: string, i: nat, j: nat)
    requires i <= j < |s|
    ensures FindColon(s, i) == j <==> ':' !in s[i..j] && NUL !in s[i..j] && (s[j] == ':' || s[j] == NUL)
    decreases |s| - i
  {
    if i < j {
      assert s[i..j] == [s[i]] + s[i + 1..j];
      if s[i] != ':' && s[i] != NUL {
        FindColonIs(s, i + 1, j);
      }
    }
  }

  lemma SpaceSnoc(s: string, c: char)
    ensures AllSpace(s + [c]) <==> AllSpace(s) && IsSpace(c)
  {
    if AllSpace(s + [c]) {
      assert (s + [c])[|s|] == c;
      forall i | 0 <= i < |s| ensures IsSpace(s[i]) { assert (s + [c])[i] == s[i]; }
    }
  }

  lemma {:induction false} TrimTailIs(s: string, lo: nat, hi: nat, j: nat)
    requires lo < j <= hi <= |s| && !IsSpace(s[lo])
    ensures TrimTail(s, lo, hi) == j <==> AllSpace(s[j..hi]) && !IsSpace(s[j - 1])
    decreases hi
  {
    if j < hi {
      if IsSpace(s[hi - 1]) {
        TrimTailIs(s, lo, hi - 1, j);
        SpaceSnoc(s[j..hi - 1], s[hi - 1]);
        assert s[j..hi] == s[j..hi - 1] + [s[hi - 1]];
      } else {
        assert s[j..hi][hi - 1 - j] == s[hi - 1];
        assert !AllSpace(s[j..hi]);
        assert TrimTail(s, lo, hi) == hi;
      }
    }
  }

  lemma NotInEither(x: char, s: string, a: nat, b: nat, c: nat)
    requires a <= b <= c <= |s| && x !in s[a..b] && AllSpace(s[b..c]) && !IsSpace(x)
    ensures x !in s[a..c]
  {
    forall k | a <= k < c ensures s[k] != x {
      if k < b { assert s[k] == s[a..b][k - a]; } else { assert s[k] == s[b..c][k - b]; }
    }
  }

  lemma SplitComplete(line: string, h: Header, a: nat, b: nat, c: nat, d: nat, e: nat)
    requires Reads(line, h, a, b, c, d, e)
    ensures Split(line) == Some(h)
  {
    assert line[a] == h.name[0] && line[b - 1] == h.name[|h.name| - 1];
    assert line[d] == h.value[0] && line[e - 1] == h.value[|h.value| - 1];
    SkipSpacesIs(line, 0, a);
    NotInEither(':', line, a, b, c);
    NotInEither(NUL, line, a, b, c);
    FindColonIs(line, a, c);
    TrimTailIs(line, a, c, b);
    SkipSpacesIs(line, c + 1, d);
    TrimTailIs(line, d, |line|, e);
    SplitParts(line, a, b, c, d, e, h);
  }

  lemma NotInPart(x: char, s: string, a: nat, b: nat, c: nat)
    requires a <= b <= c <= |s| && x !in s[a..c]
    ensures x !in s[a..b]
  {
    assert forall k :: a <= k < b ==> s[k] == s[a..c][k - a];
  }

  /** The name part of a line that splits. */
  lemma SplitSoundName(line: string) returns (a: nat, b: nat, c: nat)
    requires Split(line).Some?
    ensures a == SkipSpaces(line, 0) && c == FindColon(line, a) && a < b <= c < |line| && line[c] == ':'
    ensures b == TrimTail(line, a, c) && Split(line).value.name == line[a..b]
    ensures AllSpace(line[0..a]) && AllSpace(line[b..c]) && Trimmed(line[a..b]) && ':' !in line[a..b] && NUL !in line[a..b]
  {
    a := SkipSpaces(line, 0);
    c := FindColon(line, a);
    b := TrimTail(line, a, c);
    SkipSpacesIs(line, 0, a);
    FindColonIs(line, a, c);
    TrimTailIs(line, a, c, b);
    NotInPart(':', line, a, b, c);
    NotInPart(NUL, line, a, b, c);
  }

  lemma SplitSound(line: string) returns (a: nat, b: nat, c: nat, d: nat, e: nat)
    requires Split(line).Some?
    ensures Reads(line, Split(line).value, a, b, c, d, e)
  {
    a, b, c := SplitSoundName(line);
    d := SkipSpaces(line, c + 1);
    e := TrimTail(line, d, |line|);
    SkipSpacesIs(line, c + 1, d);
    TrimTailIs(line, d, |line|, e);
  }

  /** Scanning a line finds a header exactly when the line reads as one, and then
      it is that header: the reading of a line is unique. */
  lemma SplitExact(line: string, h: Header)
    ensures Split(line) == Some(h) <==> exists a, b, c, d, e :: Reads(line, h, a, b, c, d, e)
  {
    if Split(line).Some? {
      var a, b, c, d, e := SplitSound(line);
    }
    forall a, b, c, d, e | Reads(line, h, a, b, c, d, e) ensures Split(line) == Some(h) {
      SplitComplete(line, h, a, b, c, d, e);
    }
  }
}
