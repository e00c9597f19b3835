/** Messages between peers: four bytes of length, least significant first as on the
    machines the program is built for, then that many bytes. A character stands for
    the byte that is its code modulo 256. */
module PeerFraming {
  import opened Buffer
  import opened Common

  const HEADER: nat := 4
  const UINT32: nat := 0x1_0000_0000

  // ------------------------------------------------------------ frames, purely

  function ByteOf(c: char): (n: nat)
    ensures n < 256
  {
    c as int % 256
  }

  /** The `uint32_t` four bytes of memory hold. */
  function Number(s: string): (n: nat)
    requires |s| == HEADER
    ensures n < UINT32
  {
    ByteOf(s[0]) + 0x100 * ByteOf(s[1]) + 0x10000 * ByteOf(s[2]) + 0x1000000 * ByteOf(s[3])
  }

  function Digits(n: nat): (s: string)
    requires n < UINT32
    ensures |s| == HEADER
  {
    var a := n / 0x100;
    var b := a / 0x100;
    [(n % 0x100) as char, (a % 0x100) as char, (b % 0x100) as char, (b / 0x100) as char]
  }

  /** The length in four bytes, the least significant one first, and the content. */
  function Frame(content: string): (f: string)
    requires |content| < UINT32
    ensures |f| == 4 + |content| && f[4..] == content
    ensures f[0] as int < 256 && f[1] as int < 256 && f[2] as int < 256 && f[3] as int < 256
    ensures |content| == f[0] as int + 0x100 * f[1] as int + 0x10000 * f[2] as int + 0x1000000 * f[3] as int
  {
    Digits(|content|) + content
  }

  predicate Sendable(contents: seq<string>) {
    forall i :: 0 <= i < |contents| ==> |contents[i]| < UINT32
  }

  function Encode(contents: seq<string>): string
    requires Sendable(contents)
    decreases |contents|
  {
    if contents == [] then "" else Frame(contents[0]) + Encode(contents[1..])
  }

  /** A whole frame is at the front. */
  predicate Complete(s: string) {
    |s| >= HEADER && |s| >= HEADER + Number(s[..HEADER])
  }

  /** Where the frame at the front ends. */
  function FrameEnd(s: string): nat
    requires Complete(s)
  {
    HEADER + Number(s[..HEADER])
  }

  /** The contents of the whole frames at the front, in order. */
  function Decode(s: string): seq<string>
    decreases |s|
  {
    if !Complete(s) then [] else [s[HEADER..FrameEnd(s)]] + Decode(s[FrameEnd(s)..])
  }

  /** What is left behind them. */
  function Rest(s: string): string
    decreases |s|
  {
    if !Complete(s) then s else Rest(s[FrameEnd(s)..])
  }

  lemma Regroup<T>(a: seq<T>, b: seq<T>, c: seq<T>)
    ensures a + b + c == a + (b + c)
  {
  }

  // ----------------------------------------------------------------- round trips

  lemma NumberDigits(n: nat)
    requires n < UINT32
    ensures Number(Digits(n)) == n
  {
    var a := n / 0x100;
    var b := a / 0x100;
    assert n == n % 0x100 + 0x100 * a && a == a % 0x100 + 0x100 * b && b == b % 0x100 + 0x100 * (b / 0x100);
  }

  predicate Bytes(s: string) {
    forall i :: 0 <= i < |s| ==> s[i] as int < 256
  }

  lemma DigitsNumber(s: string)
    requires |s| == HEADER && Bytes(s)
    ensures Digits(Number(s)) == s
  {
    var p, q, r, t := s[0] as int, s[1] as int, s[2] as int, s[3] as int;
    DigitsOf(p, q, r, t);
    assert Number(s) == p + 0x100 * q + 0x10000 * r + 0x1000000 * t;
  }

  lemma DigitsOf(p: nat, q: nat, r: nat, t: nat)
    requires p < 256 && q < 256 && r < 256 && t < 256
    ensures var n := p + 0x100 * q + 0x10000 * r + 0x1000000 * t;
      n < UINT32 && Digits(n) == [p as char, q as char, r as char, t as char]
  {
    var n := p + 0x100 * q + 0x10000 * r + 0x1000000 * t;
    assert n / 0x100 == q + 0x100 * r + 0x10000 * t && n % 0x100 == p;
    assert n / 0x100 / 0x100 == r + 0x100 * t && n / 0x100 % 0x100 == q;
  }

  lemma FrontFrame(content: string, tail: string)
    requires |content| < UINT32
    ensures var s := Frame(content) + tail;
      && Complete(s) && FrameEnd(s) == HEADER + |content|
      && s[HEADER..FrameEnd(s)] == content && s[FrameEnd(s)..] == tail
  {
    var s := Frame(content) + tail;
    assert s[..HEADER] == Digits(|content|);
    NumberDigits(|content|);
  }

  /** Decoding undoes encoding, whatever incomplete frame follows, and keeps that. */
  lemma {:induction false} DecodeEncode(contents: seq<string>, tail: string)
    requires Sendable(contents) && !Complete(tail)
    ensures Decode(Encode(contents) + tail) == contents && Rest(Encode(contents) + tail) == tail
    decreases |contents|
  {
    if contents == [] {
      assert Encode(contents) + tail == tail;
    } else {
      DecodeEncode(contents[1..], tail);
      var later := Encode(contents[1..]) + tail;
      assert Encode(contents) + tail == Frame(contents[0]) + later;
      FrontFrame(contents[0], later);
    }
  }

  /** One step of the decoder. */
  lemma DecodeFirst(s: string)
    requires Complete(s)
    ensures Decode(s) == [s[HEADER..FrameEnd(s)]] + Decode(s[FrameEnd(s)..]) && Rest(s) == Rest(s[FrameEnd(s)..])
  {
  }

  lemma EncodeFirst(content: string, later: seq<string>)
    requires |content| < UINT32 && Sendable(later)
    ensures Sendable([content] + later) && Encode([content] + later) == Frame(content) + Encode(later)
  {
    assert ([content] + later)[1..] == later;
  }

  lemma FirstFrame(s: string)
    requires Complete(s) && Bytes(s)
    ensures var content := s[HEADER..FrameEnd(s)]; |content| < UINT32 && Frame(content) + s[FrameEnd(s)..] == s
  {
    hide Digits, Number;
    DigitsNumber(s[..HEADER]);
  }

  /** Nothing gets lost: the frames and the rest spell the input again, and no whole
      frame is in the rest. */
  lemma {:induction false} EncodeDecode(s: string)
    requires Bytes(s)
    ensures Sendable(Decode(s)) && Encode(Decode(s)) + Rest(s) == s && !Complete(Rest(s))
    decreases |s|
  {
    hide Encode, Frame, Number, Sendable;
    if Complete(s) {
      hide Decode, Rest;
      var content, later := s[HEADER..FrameEnd(s)], s[FrameEnd(s)..];
      EncodeDecode(later);
      DecodeFirst(s);
      FirstFrame(s);
      EncodeFirst(content, Decode(later));
      Regroup(Frame(content), Encode(Decode(later)), Rest(later));
    } else {
      NothingEncoded(s);
    }
  }

  lemma NothingEncoded(s: string)
    ensures Sendable([]) && Encode([]) + s == s
  {
  }

  // ------------------------------------------------------------------- streaming

  /** More bytes never change the frames already decoded. */
  lemma {:induction false} DecodeMore(a: string, b: string)
    ensures Decode(a + b) == Decode(a) + Decode(Rest(a) + b)
    ensures Rest(a + b) == Rest(Rest(a) + b)
    decreases |a|
  {
    if Complete(a) {
      var end := FrameEnd(a);
      assert (a + b)[..HEADER] == a[..HEADER];
      assert (a + b)[HEADER..end] == a[HEADER..end] && (a + b)[end..] == a[end..] + b;
      DecodeMore(a[end..], b);
    }
  }

  function Flat(pieces: seq<string>): string
    decreases |pieces|
  {
    if pieces == [] then "" else pieces[0] + Flat(pieces[1..])
  }

  datatype Stream = Stream(frames: seq<string>, kept: string)

  /** One `message` callback: the piece goes behind what was kept, then every whole
      frame is taken out. */
  function Push(st: Stream, piece: string): Stream {
    Stream(st.frames + Decode(st.kept + piece), Rest(st.kept + piece))
  }

  function PushAll(st: Stream, pieces: seq<string>): Stream
    decreases |pieces|
  {
    if pieces == [] then st else PushAll(Push(st, pieces[0]), pieces[1..])
  }

  lemma {:induction false} PushAllIs(st: Stream, seen: string, pieces: seq<string>)
    requires st == Stream(Decode(seen), Rest(seen))
    ensures PushAll(st, pieces) == Stream(Decode(seen + Flat(pieces)), Rest(seen + Flat(pieces)))
    decreases |pieces|
  {
    hide Decode, Rest;
    if pieces == [] {
      assert seen + "" == seen;
    } else {
      DecodeMore(seen, pieces[0]);
      PushAllIs(Push(st, pieces[0]), seen + pieces[0], pieces[1..]);
      assert seen + pieces[0] + Flat(pieces[1..]) == seen + (pieces[0] + Flat(pieces[1..]));
    }
  }

  /** However a stream is cut into pieces, the frames handed out are those of the
      one-shot decoder on the whole, and the bytes kept are its incomplete end. */
  lemma StreamingIsOneShot(pieces: seq<string>)
    ensures PushAll(Stream([], ""), pieces) == Stream(Decode(Flat(pieces)), Rest(Flat(pieces)))
  {
    assert "" + Flat(pieces) == Flat(pieces);
    PushAllIs(Stream([], ""), "", pieces);
  }

  /** The frames a sender put on the wire arrive, in any fragmentation, with nothing
      but the incomplete frame kept. */
  lemma FramesArrive(contents: seq<string>, tail: string, pieces: seq<string>)
    requires Sendable(contents) && !Complete(tail) && Flat(pieces) == Encode(contents) + tail
    ensures PushAll(Stream([], ""), pieces) == Stream(contents, tail)
  {
    StreamingIsOneShot(pieces);
    DecodeEncode(contents, tail);
  }

  lemma {:induction false} RestIncomplete(s: string)
    ensures !Complete(Rest(s)) && |Rest(s)| <= |s|
    decreases |s|
  {
    if Complete(s) { RestIncomplete(s[FrameEnd(s)..]); }
  }

  // -------------------------------------------------------------- the context

  lemma SliceOfSlice(data: string, at: nat, m: nat, n: nat)
    requires m <= n && at + n <= |data|
    ensures data[at..][m..n] == data[at + m..at + n] && data[at..][n..] == data[at + n..]
  {
  }

  lemma Chain<T>(whole: seq<T>, done: seq<T>, todo: seq<T>, x: T, later: seq<T>)
    requires whole == done + todo && todo == [x] + later
    ensures whole == done + [x] + later
  {
  }

  lemma HeaderAt(data: array<char>, length: nat, at: nat)
    requires at + HEADER <= length <= data.Length
    ensures data[..length][at..][..HEADER] == data[at..at + HEADER]
  {
  }

  /** The static `getContent`, for a datagram. */
  method GetContentOf(data: array<char>, length: nat) returns (frames: seq<string>)
    requires length <= data.Length
    ensures frames == Decode(data[..length])
  {
    var nowCheck;
    frames, nowCheck := Scan(data, length);
  }

  /** The loop the two decoders share, and how far it came. */
  method Scan(data: array<char>, length: nat) returns (frames: seq<string>, nowCheck: nat)
    requires length <= data.Length
    ensures nowCheck <= length
    ensures frames == Decode(data[..length]) && data[nowCheck..length] == Rest(data[..length])
  {
    hide Number;
    ghost var all := data[..length];
    assert all[0..] == all;
    frames, nowCheck := [], 0;
    while true
      invariant nowCheck <= length
      invariant Decode(all) == frames + Decode(all[nowCheck..]) && Rest(all) == Rest(all[nowCheck..])
      decreases length - nowCheck
    {
      assert all[nowCheck..] == data[nowCheck..length];
      if length < nowCheck + HEADER {
        break;
      }
      HeaderAt(data, length, nowCheck);
      var packLength := Number(data[nowCheck..nowCheck + HEADER]);
      if length < nowCheck + HEADER + packLength {
        break;
      }
      var next := nowCheck + HEADER + packLength;
      var content := data[nowCheck + HEADER..next];
      assert content == all[nowCheck + HEADER..next];
      DecodeFirst(all[nowCheck..]);
      SliceOfSlice(all, nowCheck, HEADER, HEADER + packLength);
      hide *;
      Chain(Decode(all), frames, Decode(all[nowCheck..]), content, Decode(all[next..]));
      frames := frames + [content];
      nowCheck := next;
    }
  }

  /** The difference on 64 bits. */
  function Minus(a: size_t, b: size_t): size_t {
    if a >= b then a - b else SIZE_T + a - b
  }

  class CpeerContext {
    const maxBufferSize: size_t
    const buffer: Cbuffer
    var nowIndex: nat

    ghost predicate Valid()
      reads this, buffer
    {
      && buffer.Valid() && nowIndex <= buffer.length && buffer.maxLength < SIZE_T
      && (maxBufferSize >= 0x1000 ==> buffer.length <= maxBufferSize && (buffer.maxLength > 0 ==> buffer.length >= 0x1000))
      && (maxBufferSize < 0x1000 && buffer.maxLength > 0 ==> buffer.length == 0x1000 || buffer.length == maxBufferSize)
    }

    /** The bytes received and not yet handed out. */
    ghost function Kept(): string
      reads this, buffer, buffer.data
      requires buffer.Valid() && nowIndex <= buffer.maxLength
    {
      if buffer.data == null then "" else buffer.data[..nowIndex]
    }

    constructor (maxBufferSize: size_t)
      ensures Valid() && Kept() == "" && this.maxBufferSize == maxBufferSize && fresh(buffer) && buffer.data == null
    {
      this.maxBufferSize := maxBufferSize;
      buffer := new Cbuffer();
      nowIndex := 0;
    }

    /** The first 4 KB, once; `memory` is whether a block can be had. */
    method Init(memory: bool) returns (thrown: bool)
      requires Valid()
      modifies buffer
      ensures Valid() && Kept() == old(Kept())
      ensures thrown <==> old(buffer.maxLength) == 0 && !memory
      ensures !thrown ==> buffer.data != null
      ensures buffer.length == if old(buffer.maxLength) == 0 && memory then 0x1000 else old(buffer.length)
      ensures thrown ==> buffer.maxLength == 0
      ensures buffer.data == old(buffer.data) || fresh(buffer.data)
      ensures old(buffer.maxLength) > 0 ==> unchanged(buffer)
    {
      thrown := false;
      if 0 == buffer.maxLength {
        thrown := buffer.Resize(0x1000, 0, memory);
      }
    }

    /** The bytes kept fit the largest buffer allowed, or there is still room enough. */
    ghost predicate Roomy()
      reads this, buffer
    {
      nowIndex <= maxBufferSize || buffer.length >= nowIndex + 0x800
    }

    /** Room is wanted, and takes another block. */
    ghost predicate Grows()
      reads this, buffer
    {
      || buffer.maxLength == 0
      || (buffer.length < nowIndex + 0x800
          && buffer.maxLength < if buffer.length * 2 > maxBufferSize then maxBufferSize else buffer.length * 2)
    }

    /** Where to receive next, and how much fits. If the bytes kept exceed the largest
        buffer allowed and room is short, which takes a largest buffer of less than
        4 KB, the subtraction wraps and the room reaches far behind the block. When
        there is no memory for more room, nothing has changed. */
    method PrepareBuffer(memory: bool) returns (offset: nat, room: nat, thrown: bool)
      requires Valid()
      modifies buffer
      ensures thrown <==> old(Grows()) && !memory
      ensures thrown ==> Valid() && Kept() == old(Kept()) && buffer.data == old(buffer.data)
      ensures !thrown ==> offset == nowIndex && buffer.data != null && buffer.Valid() && nowIndex <= buffer.maxLength && Kept() == old(Kept())
      ensures !thrown ==> offset + room <= buffer.maxLength || offset + room >= SIZE_T
      ensures !thrown ==> (offset + room < SIZE_T <==> old(Roomy()))
      ensures !thrown && old(Roomy()) ==> Valid() && offset + room == buffer.length && (room >= 0x800 || buffer.length == maxBufferSize)
      ensures !thrown && old(Roomy()) && maxBufferSize >= 0x1000 ==> (room == 0 <==> nowIndex == maxBufferSize)
      ensures maxBufferSize >= 0x1000 ==> old(Roomy())
      ensures !thrown && old(buffer.maxLength) == 0 ==> buffer.length == 0x1000
      ensures buffer.data == old(buffer.data) || fresh(buffer.data)
    {
      offset, room := 0, 0;
      thrown := Init(memory);
      if thrown {
        return;
      }
      label ready:
      if buffer.length - nowIndex < 0x800 {
        if buffer.length * 2 > maxBufferSize {
          thrown := buffer.Resize(maxBufferSize, nowIndex, memory);
        } else {
          thrown := buffer.Resize(buffer.length * 2, nowIndex, memory);
        }
        if thrown {
          return;
        }
      }
      offset, room := nowIndex, Minus(buffer.length, nowIndex);
    }

    /** Takes in the bytes written behind the kept ones, if they fit. */
    method PushBuffer(length: nat)
      requires Valid()
      modifies this`nowIndex
      ensures Valid()
      ensures Kept() == if old(nowIndex) + length <= buffer.length
                        then old(Kept()) + buffer.Contents()[old(nowIndex)..old(nowIndex) + length]
                        else old(Kept())
    {
      if nowIndex + length <= buffer.length {
        ghost var all := buffer.Contents();
        assert all[..nowIndex] + all[nowIndex..nowIndex + length] == all[..nowIndex + length];
        if buffer.data != null {
          assert all[..nowIndex] == buffer.data[..nowIndex] && all[..nowIndex + length] == buffer.data[..nowIndex + length];
        }
        nowIndex := nowIndex + length;
      }
    }

    /** Takes every whole frame out and moves the incomplete one to the front. */
    method GetContent() returns (frames: seq<string>)
      requires Valid()
      modifies this`nowIndex, buffer.data
      ensures Valid() && frames == Decode(old(Kept())) && Kept() == Rest(old(Kept()))
    {
      if buffer.data == null {
        // Fewer bytes than a header.
        return [];
      }
      var nowCheck;
      assert Kept() == buffer.data[..nowIndex];
      frames, nowCheck := Scan(buffer.data, nowIndex);
      if nowCheck > 0 {
        var extra := nowIndex - nowCheck;
        var ptr := buffer.data;
        ghost var rest := ptr[nowCheck..nowIndex];
        forall i | 0 <= i < extra { ptr[i] := ptr[nowCheck + i]; }
        assert ptr[..extra] == rest;
        nowIndex := extra;
      }
    }

    /** `message` for a TCP peer: what the socket wrote into the prepared room is taken
        in, if it fits, and the whole frames come out. */
    method Message(length: nat) returns (frames: seq<string>)
      requires Valid()
      modifies this`nowIndex, buffer.data
      ensures Valid()
      ensures Stream(frames, Kept()) == Push(Stream([], old(Kept())),
        if old(nowIndex) + length <= old(buffer.length) then old(buffer.Contents()[nowIndex..nowIndex + length]) else "")
    {
      hide Decode, Rest;
      assert Kept() + "" == Kept();
      PushBuffer(length);
      frames := GetContent();
    }
  }

  lemma LongFrame(s: string)
    requires HEADER <= |s| < 0x1000000 && s[3] == 'x'
    ensures Rest(s) == s
  {
  }

  /** The run of a context whose largest buffer is 2 KB and one byte: 2,050 bytes of a
      long frame arrive in the 4 KB every context starts with, and the room offered next
      is more than any block has. */
  method SmallMaximum() returns (offset: nat, room: nat)
    ensures room > SIZE_T - 0x1000
  {
    var ctx := new CpeerContext(0x801);
    var thrown;
    offset, room, thrown := ctx.PrepareBuffer(true);
    var ptr := ctx.buffer.data;
    ptr[3] := 'x';
    ghost var piece := ctx.buffer.Contents()[0..0x802];
    assert "" + piece == piece;
    LongFrame(piece);
    hide Rest, Decode;
    var frames := ctx.Message(0x802);
    offset, room, thrown := ctx.PrepareBuffer(true);
  }

  /** Receiving stalls for want of room only on a frame too long for the largest
      buffer: as long as the frame under way fits, what is kept does not fill it. */
  lemma StallsOnlyOnLongFrame(received: string, maxBufferSize: nat)
    requires HEADER <= maxBufferSize <= |Rest(received)|
    ensures HEADER + Number(Rest(received)[..HEADER]) > maxBufferSize
  {
    RestIncomplete(received);
  }
}
