/** Addresses of peers: hashing, equality and order. `size_t` has 64 bits. */
module NetworkNode {
  import opened Common

  type uint16 = n: nat | n < 0x1_0000
  type uint32 = n: nat | n < 0x1_0000_0000

  /** `Csockaddr`: family 0, AF_INET or AF_INET6, with the numbers as they are stored. */
  datatype Address =
    | NoAddress
    | V4(port4: uint16, addr: uint32)
    | V6(port6: uint16, a0: uint32, a1: uint32, a2: uint32, a3: uint32, flowinfo: uint32, scope: uint32)

  datatype Protocol = Tcp | Udp

  const AF_INET := 2
  const AF_INET6 := 10

  function Family(a: Address): nat {
    match a
    case NoAddress => 0
    case V4(_, _) => AF_INET
    case V6(_, _, _, _, _, _, _) => AF_INET6
  }

  // ----------------------------------------------------------------- hashing

  function Add(h: size_t, n: uint32): size_t {
    (h + n) % SIZE_T
  }

  /** `hash * 0xFFFF + n`. */
  function Mix(h: size_t, n: uint32): size_t {
    (h * 0xFFFF + n) % SIZE_T
  }

  /** `(hash << 16) | port`. */
  function Shift(h: size_t, port: uint16): size_t {
    (h * 0x1_0000 + port) % SIZE_T
  }

  /** `Csockaddr::getHash`. */
  function Hash(a: Address, seed: size_t): size_t {
    match a
    case NoAddress => Add(seed, 0)
    case V4(port, addr) => Shift(Add(seed, addr), port)
    case V6(port, a0, a1, a2, a3, _, _) => Shift(Mix(Mix(Mix(Add(seed, a0), a1), a2), a3), port)
  }

  function Seed(p: Protocol): size_t {
    if p.Tcp? then 0 else 31
  }

  function NodeHash(p: Protocol, a: Address): size_t {
    Hash(a, Seed(p))
  }

  function PairHash(p: Protocol, local: Address, remote: Address): size_t {
    Hash(remote, Hash(local, Seed(p)))
  }

  /** `x - y` is `d`, up to a multiple of 2^64. */
  ghost predicate Off(x: int, y: int, d: int) {
    exists k: int :: x - y == d + k * SIZE_T
  }

  lemma OffModulo(x: int, y: int, d: int)
    requires Off(x, y, d)
    ensures Off(x % SIZE_T, y % SIZE_T, d)
  {
    var k :| x - y == d + k * SIZE_T;
    var i, j := x / SIZE_T, y / SIZE_T;
    assert x % SIZE_T == x - i * SIZE_T && y % SIZE_T == y - j * SIZE_T;
    assert x % SIZE_T - y % SIZE_T == d + (k - i + j) * SIZE_T;
  }

  lemma AddOff(x: size_t, y: size_t, d: int, n: uint32)
    requires Off(x, y, d)
    ensures Off(Add(x, n), Add(y, n), d)
  {
    var k: int :| x - y == d + k * SIZE_T;
    assert (x + n) - (y + n) == d + k * SIZE_T;
    OffModulo(x + n, y + n, d);
  }

  lemma MixOff(x: size_t, y: size_t, d: int, n: uint32)
    requires Off(x, y, d)
    ensures Off(Mix(x, n), Mix(y, n), d * 0xFFFF)
  {
    var k: int :| x - y == d + k * SIZE_T;
    assert (x * 0xFFFF + n) - (y * 0xFFFF + n) == d * 0xFFFF + (k * 0xFFFF) * SIZE_T;
    OffModulo(x * 0xFFFF + n, y * 0xFFFF + n, d * 0xFFFF);
  }

  lemma ShiftOff(x: size_t, y: size_t, d: int, port: uint16)
    requires Off(x, y, d)
    ensures Off(Shift(x, port), Shift(y, port), d * 0x1_0000)
  {
    var k: int :| x - y == d + k * SIZE_T;
    assert (x * 0x1_0000 + port) - (y * 0x1_0000 + port) == d * 0x1_0000 + (k * 0x1_0000) * SIZE_T;
    OffModulo(x * 0x1_0000 + port, y * 0x1_0000 + port, d * 0x1_0000);
  }

  /** How far an address spreads a difference of seeds. */
  function Factor(a: Address): int {
    match a
    case NoAddress => 1
    case V4(_, _) => 0x1_0000
    case V6(_, _, _, _, _, _, _) => 0xFFFF * 0xFFFF * 0xFFFF * 0x1_0000
  }

  lemma HashOff(a: Address, x: size_t, y: size_t, d: int)
    requires Off(x, y, d)
    ensures Off(Hash(a, x), Hash(a, y), d * Factor(a))
  {
    hide Off, Add, Mix, Shift;
    match a
    case NoAddress =>
      AddOff(x, y, d, 0);
    case V4(port, addr) =>
      AddOff(x, y, d, addr);
      ShiftOff(Add(x, addr), Add(y, addr), d, port);
    case V6(port, a0, a1, a2, a3, _, _) =>
      var x0, y0 := Add(x, a0), Add(y, a0);
      AddOff(x, y, d, a0);
      MixOff(x0, y0, d, a1);
      MixOff(Mix(x0, a1), Mix(y0, a1), d * 0xFFFF, a2);
      MixOff(Mix(Mix(x0, a1), a2), Mix(Mix(y0, a1), a2), d * 0xFFFF * 0xFFFF, a3);
      ShiftOff(Mix(Mix(Mix(x0, a1), a2), a3), Mix(Mix(Mix(y0, a1), a2), a3), d * 0xFFFF * 0xFFFF * 0xFFFF, port);
  }

  /** The seeds of the two protocols never lead to the same hash: their difference, 31,
      times an odd number times at most 2^32 is not a multiple of 2^64. */
  lemma HashSeparatesProtocols(local: Address, remote: Address)
    ensures PairHash(Tcp, local, remote) != PairHash(Udp, local, remote)
  {
    assert 31 - 0 == 31 + 0 * SIZE_T;
    assert Off(Seed(Udp), Seed(Tcp), 31);
    HashOff(local, Seed(Udp), Seed(Tcp), 31);
    HashOff(remote, Hash(local, Seed(Udp)), Hash(local, Seed(Tcp)), 31 * Factor(local));
    hide Off, Hash;
    NoMultiple(local, remote);
    NotOff(PairHash(Udp, local, remote), PairHash(Tcp, local, remote), 31 * Factor(local) * Factor(remote));
  }

  lemma NotOff(x: int, y: int, d: int)
    requires Off(x, y, d) && d % SIZE_T != 0
    ensures x != y
  {
    var k: int :| x - y == d + k * SIZE_T;
    assert (-k * SIZE_T) % SIZE_T == 0;
  }

  lemma NoMultiple(local: Address, remote: Address)
    ensures 31 * Factor(local) * Factor(remote) % SIZE_T != 0
  {
  }

  /** The powers of 0xFFFF a word of an address is multiplied with. */
  function Weight(k: nat): (w: nat)
    requires k < 4
  {
    if k == 0 then 1 else if k == 1 then 0xFFFF else if k == 2 then 0xFFFE_0001 else 0xFFFD_0002_FFFF
  }

  /** An odd number times something smaller than 2^32 is no multiple of 2^48, and times
      2^16 none of 2^64. */
  lemma SmallTimesWeight(d: int, k: nat)
    requires k < 4 && d != 0 && -0x1_0000_0000 < d < 0x1_0000_0000
    ensures d * Weight(k) * 0x1_0000 % SIZE_T != 0
  {
    var m := d * Weight(k) * 0x1_0000 / SIZE_T;
    if d * Weight(k) * 0x1_0000 % SIZE_T == 0 {
      assert d * Weight(k) == m * 0x1_0000_0000_0000;
      Inverse(d, m, k);
    }
  }

  /** The weights have inverses modulo 2^48. */
  lemma Inverse(d: int, m: int, k: nat)
    requires k < 4 && d * Weight(k) == m * 0x1_0000_0000_0000
    ensures d % 0x1_0000_0000_0000 == 0
  {
    if k == 0 {
    } else if k == 1 {
      assert d == (m * 0xFFFE_FFFE_FFFF - d * 0xFFFE) * 0x1_0000_0000_0000;
    } else if k == 2 {
      assert d == (m * 0x3_0002_0001 - d * 0x2_FFFC) * 0x1_0000_0000_0000;
    } else {
      assert d == (m * 0xFFF9_FFFC_FFFF - d * 0xFFF7_0011_FFF5) * 0x1_0000_0000_0000;
    }
  }

  lemma AddTells(x: size_t, n: uint32, m: uint32)
    ensures Off(Add(x, n), Add(x, m), n - m)
  {
    assert (x + n) - (x + m) == (n - m) + 0 * SIZE_T;
    OffModulo(x + n, x + m, n - m);
  }

  lemma MixTells(x: size_t, n: uint32, m: uint32)
    ensures Off(Mix(x, n), Mix(x, m), n - m)
  {
    assert (x * 0xFFFF + n) - (x * 0xFFFF + m) == (n - m) + 0 * SIZE_T;
    OffModulo(x * 0xFFFF + n, x * 0xFFFF + m, n - m);
  }

  lemma ShiftTells(x: size_t, n: uint16, m: uint16)
    ensures Shift(x, n) == Shift(x, m) <==> n == m
  {
  }

  function MixAll(h: size_t, words: seq<uint32>): size_t
    decreases |words|
  {
    if words == [] then h else MixAll(Mix(h, words[0]), words[1..])
  }

  /** Mixing more words into two hashes spreads their difference. */
  lemma {:induction false} MixAllOff(x: size_t, y: size_t, d: int, k: nat, words: seq<uint32>)
    requires k + |words| < 4 && Off(x, y, d * Weight(k))
    ensures Off(MixAll(x, words), MixAll(y, words), d * Weight(k + |words|))
    decreases |words|
  {
    hide Off, Mix, Weight;
    if words != [] {
      MixOff(x, y, d * Weight(k), words[0]);
      NextWeight(d, k);
      MixAllOff(Mix(x, words[0]), Mix(y, words[0]), d, k + 1, words[1..]);
    }
  }

  lemma NextWeight(d: int, k: nat)
    requires k < 3
    ensures d * Weight(k) * 0xFFFF == d * Weight(k + 1)
  {
  }

  /** Two hashes a little apart stay apart, whatever words and port are mixed in. */
  lemma StillApart(x: size_t, y: size_t, d: int, words: seq<uint32>, port: uint16)
    requires Off(x, y, d) && d != 0 && -0x1_0000_0000 < d < 0x1_0000_0000 && |words| < 4
    ensures Shift(MixAll(x, words), port) != Shift(MixAll(y, words), port)
  {
    assert d * Weight(0) == d;
    SmallTimesWeight(d, |words|);
    hide Off, Shift, Mix, MixAll, Weight;
    MixAllOff(x, y, d, 0, words);
    ShiftOff(MixAll(x, words), MixAll(y, words), d * Weight(|words|), port);
    NotOff(Shift(MixAll(x, words), port), Shift(MixAll(y, words), port), d * Weight(|words|) * 0x1_0000);
  }

  /** What the hash of a V6 address is made of: the four words and the port. */
  function Hashed(a: Address): seq<nat>
    requires a.V6?
  {
    [a.a0, a.a1, a.a2, a.a3, a.port6]
  }

  /** The lists are different at this place and nowhere else. */
  predicate DifferAt(x: seq<nat>, y: seq<nat>, i: nat) {
    |x| == |y| && i < |x| && x[i] != y[i] && forall j :: 0 <= j < |x| && j != i ==> x[j] == y[j]
  }

  /** The hash of a V6 address, with one to all of its words still to come. */
  lemma HashIs(a: Address, seed: size_t)
    requires a.V6?
    ensures var x := Add(seed, a.a0); var y := Mix(x, a.a1); var z := Mix(y, a.a2); var h := Hash(a, seed);
      && h == Shift(MixAll(x, [a.a1, a.a2, a.a3]), a.port6) == Shift(MixAll(y, [a.a2, a.a3]), a.port6)
      && h == Shift(MixAll(z, [a.a3]), a.port6) == Shift(MixAll(Mix(z, a.a3), []), a.port6)
      && h == Shift(Mix(z, a.a3), a.port6)
  {
    hide Mix, Shift, Add;
    var x := Add(seed, a.a0);
    var y := Mix(x, a.a1);
    assert [a.a1, a.a2, a.a3][1..] == [a.a2, a.a3] && [a.a2, a.a3][1..] == [a.a3];
    assert MixAll(x, [a.a1, a.a2, a.a3]) == MixAll(y, [a.a2, a.a3]) == MixAll(Mix(y, a.a2), [a.a3]);
  }

  lemma HashDiffersAt(a: Address, b: Address, seed: size_t, i: nat)
    requires a.V6? && b.V6? && DifferAt(Hashed(a), Hashed(b), i)
    ensures Hash(a, seed) != Hash(b, seed)
  {
    WordsHashed(a, b, i);
    HashIs(a, seed);
    HashIs(b, seed);
    hide *;
    var x, y := Add(seed, a.a0), Add(seed, b.a0);
    if i == 0 {
      AddTells(seed, a.a0, b.a0);
      StillApart(x, y, a.a0 - b.a0, [a.a1, a.a2, a.a3], a.port6);
    } else if i == 1 {
      MixTells(x, a.a1, b.a1);
      StillApart(Mix(x, a.a1), Mix(x, b.a1), a.a1 - b.a1, [a.a2, a.a3], a.port6);
    } else {
      var z := Mix(Mix(x, a.a1), a.a2);
      if i == 2 {
        MixTells(Mix(x, a.a1), a.a2, b.a2);
        StillApart(z, Mix(Mix(x, a.a1), b.a2), a.a2 - b.a2, [a.a3], a.port6);
      } else if i == 3 {
        MixTells(z, a.a3, b.a3);
        StillApart(Mix(z, a.a3), Mix(z, b.a3), a.a3 - b.a3, [], a.port6);
      } else {
        ShiftTells(Mix(z, a.a3), a.port6, b.port6);
      }
    }
  }

  lemma WordsHashed(a: Address, b: Address, i: nat)
    requires a.V6? && b.V6? && DifferAt(Hashed(a), Hashed(b), i)
    ensures if i == 0 then a.a0 != b.a0 else a.a0 == b.a0
    ensures if i == 1 then a.a1 != b.a1 else a.a1 == b.a1
    ensures if i == 2 then a.a2 != b.a2 else a.a2 == b.a2
    ensures if i == 3 then a.a3 != b.a3 else a.a3 == b.a3
    ensures i < 5 && if i == 4 then a.port6 != b.port6 else a.port6 == b.port6
  {
    assert Hashed(a)[0] == a.a0 && Hashed(a)[1] == a.a1 && Hashed(a)[2] == a.a2 && Hashed(a)[3] == a.a3 && Hashed(a)[4] == a.port6;
    assert Hashed(b)[0] == b.a0 && Hashed(b)[1] == b.a1 && Hashed(b)[2] == b.a2 && Hashed(b)[3] == b.a3 && Hashed(b)[4] == b.port6;
  }

  /** Two nodes of one protocol: with V4 addresses their hashes tell them apart
      completely, with V6 addresses at least if one of the four words or the port is
      different, alone; flow and scope do not count. */
  lemma HashTellsApart(p: Protocol, a: Address, b: Address)
    ensures a.V4? && b.V4? ==> (NodeHash(p, a) == NodeHash(p, b) <==> a == b)
    ensures a.V6? && b.V6? && (exists i :: DifferAt(Hashed(a), Hashed(b), i)) ==> NodeHash(p, a) != NodeHash(p, b)
    ensures a.V6? && b.V6? && Hashed(a) == Hashed(b) ==> NodeHash(p, a) == NodeHash(p, b)
  {
    if a.V4? && b.V4? {
      V4HashesDiffer(p, a, b);
    } else if a.V6? && b.V6? {
      hide Hash;
      if i: nat :| DifferAt(Hashed(a), Hashed(b), i) { HashDiffersAt(a, b, Seed(p), i); }
      if Hashed(a) == Hashed(b) { SameHashed(a, b, Seed(p)); }
    }
  }

  lemma V4HashesDiffer(p: Protocol, a: Address, b: Address)
    requires a.V4? && b.V4?
    ensures NodeHash(p, a) == NodeHash(p, b) <==> a == b
  {
    NoWrap(Seed(p), a.addr, a.port4);
    NoWrap(Seed(p), b.addr, b.port4);
    hide Add, Shift;
  }

  lemma NoWrap(seed: size_t, addr: uint32, port: uint16)
    requires seed < 0x100
    ensures Shift(Add(seed, addr), port) == (seed + addr) * 0x1_0000 + port
  {
  }

  lemma SameHashed(a: Address, b: Address, seed: size_t)
    requires a.V6? && b.V6? && Hashed(a) == Hashed(b)
    ensures Hash(a, seed) == Hash(b, seed)
  {
    assert Hashed(a)[0] == Hashed(b)[0] && Hashed(a)[1] == Hashed(b)[1] && Hashed(a)[2] == Hashed(b)[2];
    assert Hashed(a)[3] == Hashed(b)[3] && Hashed(a)[4] == Hashed(b)[4];
    hide Add, Mix, Shift;
  }

  // ------------------------------------------------------------------- order

  /** The numbers an address is compared by, most significant first. */
  function Key(a: Address): seq<nat> {
    match a
    case NoAddress => [0]
    case V4(port, addr) => [AF_INET, port, addr]
    case V6(port, a0, a1, a2, a3, flowinfo, scope) => [AF_INET6, port, a0, a1, a2, a3, flowinfo, scope]
  }

  /** Lexicographic order. */
  predicate Lex(x: seq<nat>, y: seq<nat>)
    decreases |x|
  {
    if x == [] || y == [] then x == [] && y != []
    else if x[0] != y[0] then x[0] < y[0]
    else Lex(x[1..], y[1..])
  }

  lemma {:induction false} LexTotal(x: seq<nat>, y: seq<nat>)
    ensures if x == y then !Lex(x, y) && !Lex(y, x) else Lex(x, y) != Lex(y, x)
    decreases |x|
  {
    if x != [] && y != [] && x[0] == y[0] {
      LexTotal(x[1..], y[1..]);
      assert x == [x[0]] + x[1..] && y == [y[0]] + y[1..];
    }
  }

  lemma {:induction false} LexTransitive(x: seq<nat>, y: seq<nat>, z: seq<nat>)
    requires Lex(x, y) && Lex(y, z)
    ensures Lex(x, z)
    decreases |x|
  {
    if x != [] && y != [] && z != [] && x[0] == y[0] == z[0] {
      LexTransitive(x[1..], y[1..], z[1..]);
    }
  }

  lemma KeyInjective(a: Address, b: Address)
    ensures Key(a) == Key(b) <==> a == b
  {
    if Key(a) == Key(b) {
      assert Key(a)[0] == Key(b)[0];
      match a
      case NoAddress =>
      case V4(_, _) =>
        assert Key(a)[1] == Key(b)[1] && Key(a)[2] == Key(b)[2];
      case V6(_, _, _, _, _, _, _) =>
        assert forall i :: 1 <= i < 8 ==> Key(a)[i] == Key(b)[i];
        assert Key(a)[1] == Key(b)[1] && Key(a)[2] == Key(b)[2] && Key(a)[3] == Key(b)[3] && Key(a)[4] == Key(b)[4];
        assert Key(a)[5] == Key(b)[5] && Key(a)[6] == Key(b)[6] && Key(a)[7] == Key(b)[7];
    }
  }

  /** Unless one list starts with the other, what follows matters only when they are
      equal. */
  lemma {:induction false} LexAppend(x: seq<nat>, y: seq<nat>, u: seq<nat>, v: seq<nat>)
    requires |x| == |y| || (x != [] && y != [] && x[0] != y[0])
    ensures Lex(x + u, y + v) == if x == y then Lex(u, v) else Lex(x, y)
    decreases |x|
  {
    if x == [] {
      assert x + u == u && y + v == v;
    } else {
      assert (x + u)[0] == x[0] && (y + v)[0] == y[0];
      if x[0] == y[0] {
        LexAppend(x[1..], y[1..], u, v);
        assert (x + u)[1..] == x[1..] + u && (y + v)[1..] == y[1..] + v;
        assert x == [x[0]] + x[1..] && y == [y[0]] + y[1..];
      }
    }
  }

  lemma KeyShape(a: Address, b: Address)
    ensures |Key(a)| == |Key(b)| || Key(a)[0] != Key(b)[0]
  {
  }

  function Words(a: Address): seq<uint32>
    requires a.V6?
  {
    [a.a0, a.a1, a.a2, a.a3]
  }

  lemma {:induction false} LexSkip(x: seq<nat>, y: seq<nat>, k: nat)
    requires k <= |x| && k <= |y| && x[..k] == y[..k]
    ensures Lex(x, y) == Lex(x[k..], y[k..])
    decreases k
  {
    if k == 0 {
      assert x[0..] == x && y[0..] == y;
    } else {
      assert x[..k][0] == y[..k][0];
      assert x[1..][..k - 1] == x[..k][1..] && y[1..][..k - 1] == y[..k][1..];
      LexSkip(x[1..], y[1..], k - 1);
      assert x[1..][k - 1..] == x[k..] && y[1..][k - 1..] == y[k..];
    }
  }

  /** Where two lists differ first decides. */
  lemma LexAt(x: seq<nat>, y: seq<nat>, k: nat)
    requires k < |x| && k < |y| && x[..k] == y[..k]
    ensures x[k] != y[k] ==> Lex(x, y) == (x[k] < y[k])
  {
    LexSkip(x, y, k);
  }

  /** The loop over the four words of two addresses of the second family, up to the
      first difference. */
  method FirstDifference(a: Address, b: Address) returns (i: nat)
    requires a.V6? && b.V6?
    ensures i <= 4 && Words(a)[..i] == Words(b)[..i] && (i < 4 ==> Words(a)[i] != Words(b)[i])
  {
    i := 0;
    while i < 4
      invariant i <= 4 && forall j :: 0 <= j < i ==> Words(a)[j] == Words(b)[j]
    {
      if Words(a)[i] != Words(b)[i] {
        return;
      }
      i := i + 1;
    }
  }

  lemma KeyWords(a: Address, b: Address, i: nat)
    requires a.V6? && b.V6? && a.port6 == b.port6 && i <= 4 && Words(a)[..i] == Words(b)[..i]
    ensures Key(a)[..2 + i] == Key(b)[..2 + i] && (i < 4 ==> Key(a)[2 + i] == Words(a)[i] && Key(b)[2 + i] == Words(b)[i])
  {
    assert Key(a)[2..6] == Words(a) && Key(b)[2..6] == Words(b);
    assert Key(a)[..2 + i] == Key(a)[..2] + Words(a)[..i] && Key(b)[..2 + i] == Key(b)[..2] + Words(b)[..i];
  }

  method LessV6(a: Address, b: Address) returns (less: bool)
    requires a.V6? && b.V6?
    ensures less == Lex(Key(a), Key(b))
  {
    ghost var x, y := Key(a), Key(b);
    LexAt(x, y, 1);
    if a.port6 != b.port6 {
      return a.port6 < b.port6;
    }
    var i := FirstDifference(a, b);
    KeyWords(a, b, i);
    LexAt(x, y, 2 + i);
    if i < 4 {
      return Words(a)[i] < Words(b)[i];
    }
    if a.flowinfo != b.flowinfo {
      return a.flowinfo < b.flowinfo;
    }
    assert x[..7] == x[..6] + [x[6]] && y[..7] == y[..6] + [y[6]];
    LexAt(x, y, 7);
    LexSame(x, y);
    less := a.scope < b.scope;
  }

  /** `Csockaddr::operator<`. */
  method LessAddress(a: Address, b: Address) returns (less: bool)
    ensures less == Lex(Key(a), Key(b))
  {
    ghost var x, y := Key(a), Key(b);
    LexAt(x, y, 0);
    if Family(a) != Family(b) {
      return Family(a) < Family(b);
    }
    match a {
      case V4(port, addr) =>
        LexAt(x, y, 1);
        if port != b.port4 {
          return port < b.port4;
        }
        LexAt(x, y, 2);
        LexSame(x, y);
        return addr < b.addr;
      case V6(_, _, _, _, _, _, _) =>
        less := LessV6(a, b);
      case NoAddress =>
        LexSame(x, y);
        return false;
    }
  }

  lemma LexSame(x: seq<nat>, y: seq<nat>)
    ensures x == y ==> !Lex(x, y)
  {
    LexTotal(x, y);
  }

  /** `Csockaddr::operator==`. */
  method EqualAddress(a: Address, b: Address) returns (equal: bool)
    ensures equal <==> a == b
  {
    if Family(a) != Family(b) {
      return false;
    }
    match a {
      case V4(port, addr) =>
        if port != b.port4 {
          return false;
        }
        return addr == b.addr;
      case V6(port, _, _, _, _, flowinfo, scope) =>
        if port != b.port6 {
          return false;
        }
        var i := FirstDifference(a, b);
        if i < 4 {
          return false;
        }
        assert Words(a) == Words(b) && Words(a)[0] == a.a0 && Words(a)[1] == a.a1 && Words(a)[2] == a.a2 && Words(a)[3] == a.a3;
        if flowinfo != b.flowinfo {
          return false;
        }
        return scope == b.scope;
      case NoAddress =>
        return true;
    }
  }

  function Number(p: Protocol): nat {
    if p.Tcp? then 0 else 1
  }

  class CnetworkNode {
    var protocol: Protocol
    var sockaddr: Address
    var hash: size_t

    /** The stored hash is that of the fields. */
    ghost predicate Valid()
      reads this
    {
      hash == NodeHash(protocol, sockaddr)
    }

    ghost function OrderKey(): seq<nat>
      reads this
    {
      [hash as nat, Number(protocol)] + Key(sockaddr)
    }

    constructor ()
      ensures Valid() && protocol == Tcp && sockaddr == NoAddress
    {
      protocol, sockaddr, hash := Tcp, NoAddress, 0;
    }

    method Set(protocol: Protocol, sockaddr: Address)
      modifies this
      ensures Valid() && this.protocol == protocol && this.sockaddr == sockaddr
    {
      this.protocol := protocol;
      this.sockaddr := sockaddr;
      hash := NodeHash(protocol, sockaddr);
    }

    method Assign(another: CnetworkNode)
      requires another.Valid()
      modifies this
      ensures Valid() && protocol == old(another.protocol) && sockaddr == old(another.sockaddr)
    {
      protocol := another.protocol;
      sockaddr := another.sockaddr;
      hash := another.hash;
    }

    method EqualTo(another: CnetworkNode) returns (equal: bool)
      requires Valid() && another.Valid()
      ensures equal <==> protocol == another.protocol && sockaddr == another.sockaddr
    {
      if hash != another.hash || protocol != another.protocol {
        return false;
      }
      equal := EqualAddress(sockaddr, another.sockaddr);
    }

    method LessThan(another: CnetworkNode) returns (less: bool)
      ensures less == Lex(OrderKey(), another.OrderKey())
    {
      ghost var x, y := OrderKey(), another.OrderKey();
      assert x[1..] == [Number(protocol)] + Key(sockaddr) && y[1..] == [Number(another.protocol)] + Key(another.sockaddr);
      assert x[1..][1..] == Key(sockaddr) && y[1..][1..] == Key(another.sockaddr);
      if hash != another.hash {
        return hash < another.hash;
      }
      if protocol != another.protocol {
        return Number(protocol) < Number(another.protocol);
      }
      less := LessAddress(sockaddr, another.sockaddr);
    }
  }

  class CnetworkPair {
    var protocol: Protocol
    var local: Address
    var remote: Address
    var hash: size_t

    /** The stored hash is that of the addresses and this protocol. */
    ghost predicate HashedFor(p: Protocol)
      reads this
    {
      hash == PairHash(p, local, remote)
    }

    /** The stored hash is that of the fields. */
    ghost predicate Consistent()
      reads this
    {
      HashedFor(protocol)
    }

    ghost function OrderKey(): seq<nat>
      reads this
    {
      [hash as nat] + (Key(remote) + Key(local))
    }

    constructor ()
      ensures Consistent() && protocol == Tcp && local == NoAddress && remote == NoAddress
    {
      protocol, local, remote, hash := Tcp, NoAddress, NoAddress, 0;
    }

    constructor From(protocol: Protocol, local: Address, remote: Address)
      ensures Consistent() && this.protocol == protocol && this.local == local && this.remote == remote
    {
      this.protocol, this.local, this.remote := protocol, local, remote;
      hash := PairHash(protocol, local, remote);
    }

    method SetProtocol(protocol: Protocol)
      modifies this`protocol, this`hash
      ensures Consistent() && this.protocol == protocol
    {
      this.protocol := protocol;
      Rehash();
    }

    method SetLocal(local: Address)
      modifies this`local, this`hash
      ensures Consistent() && this.local == local
    {
      this.local := local;
      Rehash();
    }

    method SetRemote(remote: Address)
      modifies this`remote, this`hash
      ensures Consistent() && this.remote == remote
    {
      this.remote := remote;
      Rehash();
    }

    method Rehash()
      modifies this`hash
      ensures Consistent()
    {
      hash := PairHash(protocol, local, remote);
    }

    /** Copy and move assignment take everything but the protocol over. So the pair
        fits its hash afterwards if and only if the hash taken over was made for its own
        protocol; a source that fits its hash carries the one made for its protocol, and
        one that was itself assigned to may carry the other. */
    method Assign(another: CnetworkPair)
      modifies this`local, this`remote, this`hash
      ensures local == another.local && remote == another.remote && hash == another.hash
      ensures forall p :: old(another.HashedFor(p)) ==> (Consistent() <==> protocol == p)
      ensures old(another.Consistent()) ==> (Consistent() <==> protocol == another.protocol)
    {
      local := another.local;
      remote := another.remote;
      hash := another.hash;
      HashSeparatesProtocols(local, remote);
    }

    /** Equality looks at the hash and the addresses only. */
    method EqualTo(another: CnetworkPair) returns (equal: bool)
      ensures equal <==> hash == another.hash && remote == another.remote && local == another.local
      ensures Consistent() && another.Consistent() ==>
        (equal <==> protocol == another.protocol && remote == another.remote && local == another.local)
    {
      HashSeparatesProtocols(local, remote);
      if hash != another.hash {
        return false;
      }
      var same := EqualAddress(remote, another.remote);
      if !same {
        return false;
      }
      equal := EqualAddress(local, another.local);
    }

    method LessThan(another: CnetworkPair) returns (less: bool)
      ensures less == Lex(OrderKey(), another.OrderKey())
    {
      ghost var x, y := OrderKey(), another.OrderKey();
      assert x[1..] == Key(remote) + Key(local) && y[1..] == Key(another.remote) + Key(another.local);
      KeyShape(remote, another.remote);
      LexAppend(Key(remote), Key(another.remote), Key(local), Key(another.local));
      KeyInjective(remote, another.remote);
      if hash != another.hash {
        return hash < another.hash;
      }
      var same := EqualAddress(remote, another.remote);
      if !same {
        less := LessAddress(remote, another.remote);
      } else {
        less := LessAddress(local, another.local);
      }
    }
  }

  /** Equality of consistent pairs separates protocols. */
  lemma PairEqualityIsExact(p: Protocol, local: Address, remote: Address, p': Protocol, local': Address, remote': Address)
    ensures (PairHash(p, local, remote) == PairHash(p', local', remote') && remote == remote' && local == local')
        <==> (p == p' && local == local' && remote == remote')
  {
    HashSeparatesProtocols(local, remote);
  }

  /** The order of nodes is total and agrees with equality: for two nodes exactly one
      of less, equal and greater holds, and less is transitive. */
  lemma NodeOrder(p: Protocol, a: Address, q: Protocol, b: Address, r: Protocol, c: Address)
    ensures var x := [NodeHash(p, a), Number(p)] + Key(a); var y := [NodeHash(q, b), Number(q)] + Key(b);
      (if p == q && a == b then !Lex(x, y) && !Lex(y, x) else Lex(x, y) != Lex(y, x))
    ensures var x := [NodeHash(p, a), Number(p)] + Key(a); var y := [NodeHash(q, b), Number(q)] + Key(b);
      var z := [NodeHash(r, c), Number(r)] + Key(c); Lex(x, y) && Lex(y, z) ==> Lex(x, z)
  {
    hide Lex, Hash, Key;
    var x, y, z := [NodeHash(p, a), Number(p)] + Key(a), [NodeHash(q, b), Number(q)] + Key(b), [NodeHash(r, c), Number(r)] + Key(c);
    LexTotal(x, y);
    assert x[1] == Number(p) && y[1] == Number(q) && x[2..] == Key(a) && y[2..] == Key(b);
    KeyInjective(a, b);
    if Lex(x, y) && Lex(y, z) { LexTransitive(x, y, z); }
  }

  /** Two consistent pairs that are neither less than the other are equal in all three
      fields, protocol included. */
  lemma PairOrder(p: Protocol, local: Address, remote: Address, p': Protocol, local': Address, remote': Address)
    ensures var x := [PairHash(p, local, remote)] + (Key(remote) + Key(local));
      var y := [PairHash(p', local', remote')] + (Key(remote') + Key(local'));
      !Lex(x, y) && !Lex(y, x) <==> p == p' && local == local' && remote == remote'
  {
    HashSeparatesProtocols(local, remote);
    hide Lex, Hash, Key;
    var x := [PairHash(p, local, remote)] + (Key(remote) + Key(local));
    var y := [PairHash(p', local', remote')] + (Key(remote') + Key(local'));
    LexTotal(x, y);
    if x == y {
      assert x[0] == y[0] && x[1..] == Key(remote) + Key(local) && y[1..] == Key(remote') + Key(local');
      KeysSplit(remote, local, remote', local');
    }
  }

  lemma KeysSplit(a: Address, b: Address, c: Address, d: Address)
    requires Key(a) + Key(b) == Key(c) + Key(d)
    ensures a == c && b == d
  {
    var x, y := Key(a) + Key(b), Key(c) + Key(d);
    assert x[0] == Key(a)[0] && y[0] == Key(c)[0];
    KeyShape(a, c);
    assert x[..|Key(a)|] == Key(a) && y[..|Key(a)|] == Key(c);
    assert x[|Key(a)|..] == Key(b) && y[|Key(a)|..] == Key(d);
    KeyInjective(a, c);
    KeyInjective(b, d);
  }

  /** With assignment equality stops meaning that: a pair for one protocol assigned to
      one for the other is equal to it and still says the other protocol. */
  method AssignedPairsLie() returns (a: CnetworkPair, b: CnetworkPair, equal: bool)
    ensures equal && a.protocol == Udp && b.protocol == Tcp
  {
    a := new CnetworkPair.From(Udp, NoAddress, NoAddress);
    b := new CnetworkPair();
    b.Assign(a);
    equal := b.EqualTo(a);
  }
}
