/** Who owns which block: any number of `Cbuffer` objects over one memory trace, with
    allocations that may fail and throw at any point. */
module BufferOwners {
  import opened Common
  import opened FastAllocator
  import opened MemoryTrace

  datatype Buf = Buf(data: nat, length: nat, maxLength: nat)

  const EMPTY := Buf(0, 0, 0)

  /** `given` holds the blocks `transfer` has handed to libuv requests. */
  datatype World = World(bufs: map<nat, Buf>, given: set<nat>, t: Trace)

  /** The call that may throw names the answer of `malloc`. Copy construction is
      `Make` with the other buffer's length, copy assignment and `set` are `Assign`. */
  datatype Op =
    | Make(made: nat, n: nat, answer: nat)
    | Move(moved: nat, from: nat)
    | Destroy(gone: nat)
    | Assign(id: nat, length: nat, answer: nat)
    | MoveAssign(into: nat, from: nat)
    | Resize(resized: nat, preferLength: nat, validLength: nat, answer: nat)
    | Transfer(giver: nat)
    | FreeGiven(block: nat)

  predicate Fits(t: Trace, n: nat, answer: nat) {
    HEADER + n < SIZE_T && Answers(t.store, answer)
  }

  predicate Enabled(w: World, op: Op) {
    match op
    case Make(id, n, answer) => id !in w.bufs && Fits(w.t, n, answer)
    case Move(id, from) => id !in w.bufs && from in w.bufs
    case Destroy(id) => id in w.bufs
    case Assign(id, n, answer) =>
      && id in w.bufs && HEADER + n < SIZE_T
      && (n > w.bufs[id].maxLength && Traced(w.t, w.bufs[id].data) ==> Answers(Release(w.t, w.bufs[id].data).store, answer))
    case MoveAssign(id, from) => id in w.bufs && from in w.bufs
    case Resize(id, n, valid, answer) =>
      && id in w.bufs && HEADER + n < SIZE_T
      && (n > w.bufs[id].maxLength && Min(valid, w.bufs[id].length) > 0 ==> Answers(w.t.store, answer))
      && (n > w.bufs[id].maxLength && Min(valid, w.bufs[id].length) == 0 && Traced(w.t, w.bufs[id].data) ==> Answers(Release(w.t, w.bufs[id].data).store, answer))
    case Transfer(id) => id in w.bufs
    case FreeGiven(ptr) => ptr in w.given
  }

  predicate Traced(t: Trace, ptr: nat) {
    ptr == 0 || ptr in t.traced
  }

  /** A block for `n` bytes, or 0 when the allocation throws. */
  function Acquire(t: Trace, n: nat, answer: nat): (Trace, nat)
    requires n < SIZE_T
  {
    var (r, made) := Malloc(t, n, answer);
    if made.Block? then (r, made.ptr) else (t, 0)
  }

  function Drop(t: Trace, ptr: nat): Trace {
    if Traced(t, ptr) then Release(t, ptr) else t
  }

  /** Free first, then allocate: if that throws, the buffer is left without a block but
      with its old lengths. */
  function Replace(w: World, id: nat, n: nat, answer: nat): World
    requires id in w.bufs && n < SIZE_T
  {
    var (t, ptr) := Acquire(Drop(w.t, w.bufs[id].data), n, answer);
    w.(t := t, bufs := w.bufs[id := if ptr == 0 then w.bufs[id].(data := 0) else Buf(ptr, n, n)])
  }

  /** Allocate, copy, then free: if the allocation throws nothing has happened. */
  function Grow(w: World, id: nat, n: nat, answer: nat): World
    requires id in w.bufs && n < SIZE_T
  {
    var (t, ptr) := Acquire(w.t, n, answer);
    if ptr == 0 then w
    else w.(t := Drop(t, w.bufs[id].data), bufs := w.bufs[id := Buf(ptr, n, n)])
  }

  function Step(w: World, op: Op): World
    requires Enabled(w, op)
  {
    match op
    case Make(id, n, answer) =>
      if n == 0 then w.(bufs := w.bufs[id := EMPTY])
      else
        var (t, ptr) := Acquire(w.t, n, answer);
        if ptr == 0 then w else w.(t := t, bufs := w.bufs[id := Buf(ptr, n, n)])
    case Move(id, from) => w.(bufs := w.bufs[id := w.bufs[from]][from := EMPTY])
    case Destroy(id) => w.(t := Drop(w.t, w.bufs[id].data), bufs := w.bufs - {id})
    case Assign(id, n, answer) =>
      if n <= w.bufs[id].maxLength then w.(bufs := w.bufs[id := w.bufs[id].(length := n)])
      else Replace(w, id, n, answer)
    case MoveAssign(id, from) =>
      w.(t := Drop(w.t, w.bufs[id].data), bufs := w.bufs[id := w.bufs[from]][from := EMPTY])
    case Resize(id, n, valid, answer) =>
      if n <= w.bufs[id].maxLength then w.(bufs := w.bufs[id := w.bufs[id].(length := n)])
      else if Min(valid, w.bufs[id].length) > 0 then Grow(w, id, n, answer)
      else Replace(w, id, n, answer)
    case Transfer(id) =>
      w.(bufs := w.bufs[id := EMPTY], given := w.given + if w.bufs[id].data == 0 then {} else {w.bufs[id].data})
    case FreeGiven(ptr) => w.(given := w.given - {ptr}, t := Drop(w.t, ptr))
  }

  // -------------------------------------------------------------- invariant

  /** The buffer holds a traced block of its size, or none. */
  predicate BufOk(b: Buf, given: set<nat>, traced: map<nat, nat>) {
    b.length <= b.maxLength
    && (b.data != 0 ==> b.data in traced && traced[b.data] == HEADER + b.maxLength && b.data !in given)
  }

  ghost predicate Held(bufs: map<nat, Buf>, given: set<nat>, ptr: nat) {
    ptr in given || exists id :: id in bufs && bufs[id].data == ptr
  }

  /** Every traced block has exactly one owner, and every owner a block it may free. */
  ghost predicate Owned(bufs: map<nat, Buf>, given: set<nat>, traced: map<nat, nat>) {
    && (forall id :: id in bufs ==> BufOk(bufs[id], given, traced))
    && (forall i, j :: i in bufs && j in bufs && i != j && bufs[i].data != 0 ==> bufs[i].data != bufs[j].data)
    && (forall ptr :: ptr in given ==> ptr in traced)
    && (forall ptr :: ptr in traced ==> ptr != 0 && Held(bufs, given, ptr))
  }

  ghost predicate WorldInv(w: World) {
    MemoryTrace.Inv(w.t) && Owned(w.bufs, w.given, w.t.traced)
  }

  lemma AcquireInv(t: Trace, n: nat, answer: nat)
    requires MemoryTrace.Inv(t) && Fits(t, n, answer)
    ensures var (r, ptr) := Acquire(t, n, answer);
      && MemoryTrace.Inv(r)
      && (if ptr == 0 then r == t else ptr !in t.traced && r.traced == t.traced[ptr := HEADER + n])
  {
    hide MemoryTrace.Inv, Malloc;
    MallocInv(t, n, answer);
  }

  lemma DropInv(t: Trace, ptr: nat)
    requires MemoryTrace.Inv(t) && Traced(t, ptr)
    ensures MemoryTrace.Inv(Drop(t, ptr)) && Drop(t, ptr).traced == Without(t.traced, ptr)
  {
    hide MemoryTrace.Inv;
    ReleaseInv(t, ptr);
  }

  function Without(traced: map<nat, nat>, ptr: nat): map<nat, nat> {
    if ptr == 0 then traced else traced - {ptr}
  }

  /** A buffer gives up its block. */
  lemma OwnedWithout(bufs: map<nat, Buf>, given: set<nat>, traced: map<nat, nat>, id: nat, b: Buf)
    requires Owned(bufs, given, traced) && id in bufs && b.data == 0 && b.length <= b.maxLength
    ensures Owned(bufs[id := b], given, Without(traced, bufs[id].data))
  {
    var r := bufs[id := b];
    forall ptr | ptr in traced && ptr != bufs[id].data ensures Held(r, given, ptr) {
      assert Held(bufs, given, ptr);
      if ptr !in given {
        var i :| i in bufs && bufs[i].data == ptr;
        assert r[i].data == ptr;
      }
    }
  }

  /** A buffer without a block gets a new one. */
  lemma OwnedWith(bufs: map<nat, Buf>, given: set<nat>, traced: map<nat, nat>, id: nat, ptr: nat, n: nat)
    requires Owned(bufs, given, traced) && (id in bufs ==> bufs[id].data == 0) && ptr != 0 && ptr !in traced
    ensures Owned(bufs[id := Buf(ptr, n, n)], given, traced[ptr := HEADER + n])
  {
    var r, later := bufs[id := Buf(ptr, n, n)], traced[ptr := HEADER + n];
    forall p | p in later ensures Held(r, given, p) {
      if p == ptr {
        assert r[id].data == p;
      } else {
        assert Held(bufs, given, p);
        if p !in given {
          var i :| i in bufs && bufs[i].data == p;
          assert r[i].data == p;
        }
      }
    }
  }

  lemma OwnedReplaced(bufs: map<nat, Buf>, given: set<nat>, traced: map<nat, nat>, id: nat, ptr: nat, n: nat)
    requires Owned(bufs, given, traced) && id in bufs && bufs[id].length <= bufs[id].maxLength
    requires ptr != 0 && ptr !in Without(traced, bufs[id].data)
    ensures Owned(bufs[id := Buf(ptr, n, n)], given, Without(traced, bufs[id].data)[ptr := HEADER + n])
  {
    hide Owned, Without;
    var none := bufs[id].(data := 0);
    OwnedWithout(bufs, given, traced, id, none);
    OwnedWith(bufs[id := none], given, Without(traced, bufs[id].data), id, ptr, n);
    assert bufs[id := none][id := Buf(ptr, n, n)] == bufs[id := Buf(ptr, n, n)];
  }

  lemma WithoutLater(traced: map<nat, nat>, gone: nat, ptr: nat, size: nat)
    requires ptr !in traced && ptr != gone
    ensures Without(traced[ptr := size], gone) == Without(traced, gone)[ptr := size] && ptr !in Without(traced, gone)
  {
  }

  /** The block goes from one buffer to another that has none. */
  lemma OwnedMoved(bufs: map<nat, Buf>, given: set<nat>, traced: map<nat, nat>, id: nat, from: nat)
    requires Owned(bufs, given, traced) && from in bufs && (id in bufs && id != from ==> bufs[id].data == 0)
    requires id == from ==> bufs[id].data == 0
    ensures Owned(bufs[id := bufs[from]][from := EMPTY], given, traced)
  {
    var r := bufs[id := bufs[from]][from := EMPTY];
    forall p | p in traced ensures Held(r, given, p) {
      assert Held(bufs, given, p);
      if p !in given {
        var i :| i in bufs && bufs[i].data == p;
        assert r[if i == from then id else i].data == p;
      }
    }
  }

  lemma OwnedGone(bufs: map<nat, Buf>, given: set<nat>, traced: map<nat, nat>, id: nat)
    requires Owned(bufs, given, traced) && id in bufs && bufs[id].data == 0
    ensures Owned(bufs - {id}, given, traced)
  {
    var r := bufs - {id};
    forall p | p in traced ensures Held(r, given, p) {
      assert Held(bufs, given, p);
      if p !in given {
        var i :| i in bufs && bufs[i].data == p;
        assert i != id;
        assert r[i].data == p;
      }
    }
  }

  lemma OwnedGiven(bufs: map<nat, Buf>, given: set<nat>, traced: map<nat, nat>, id: nat)
    requires Owned(bufs, given, traced) && id in bufs
    ensures Owned(bufs[id := EMPTY], given + (if bufs[id].data == 0 then {} else {bufs[id].data}), traced)
  {
    var r, more := bufs[id := EMPTY], given + if bufs[id].data == 0 then {} else {bufs[id].data};
    forall p | p in traced ensures Held(r, more, p) {
      assert Held(bufs, given, p);
      if p !in more {
        var i :| i in bufs && bufs[i].data == p;
        assert r[i].data == p;
      }
    }
  }

  lemma OwnedFreed(bufs: map<nat, Buf>, given: set<nat>, traced: map<nat, nat>, ptr: nat)
    requires Owned(bufs, given, traced) && ptr in given
    ensures Owned(bufs, given - {ptr}, traced - {ptr})
  {
    forall p | p in traced && p != ptr ensures Held(bufs, given - {ptr}, p) {
      assert Held(bufs, given, p);
    }
  }

  lemma OwnedShorter(bufs: map<nat, Buf>, given: set<nat>, traced: map<nat, nat>, id: nat, n: nat)
    requires Owned(bufs, given, traced) && id in bufs && n <= bufs[id].maxLength
    ensures Owned(bufs[id := bufs[id].(length := n)], given, traced)
  {
    var r := bufs[id := bufs[id].(length := n)];
    forall p | p in traced ensures Held(r, given, p) {
      assert Held(bufs, given, p);
      if p !in given {
        var i :| i in bufs && bufs[i].data == p;
        assert r[i].data == p;
      }
    }
  }

  lemma BufTraced(w: World, id: nat)
    requires WorldInv(w) && id in w.bufs
    ensures Traced(w.t, w.bufs[id].data) && w.bufs[id].length <= w.bufs[id].maxLength
  {
  }

  lemma ReplaceInv(w: World, id: nat, n: nat, answer: nat)
    requires WorldInv(w) && id in w.bufs && Fits(Drop(w.t, w.bufs[id].data), n, answer)
    ensures WorldInv(Replace(w, id, n, answer))
  {
    BufTraced(w, id);
    hide MemoryTrace.Inv, Owned, Drop, Acquire, Answers, Without;
    var b := w.bufs[id];
    DropInv(w.t, b.data);
    var t := Drop(w.t, b.data);
    AcquireInv(t, n, answer);
    var (r, ptr) := Acquire(t, n, answer);
    if ptr == 0 {
      OwnedWithout(w.bufs, w.given, w.t.traced, id, b.(data := 0));
    } else {
      OwnedReplaced(w.bufs, w.given, w.t.traced, id, ptr, n);
    }
  }

  /** The new block takes the place of the old one. */
  lemma SwappedInv(w: World, id: nat, n: nat, t: Trace, ptr: nat)
    requires WorldInv(w) && id in w.bufs && MemoryTrace.Inv(t)
    requires ptr != 0 && ptr !in w.t.traced && t.traced == w.t.traced[ptr := HEADER + n]
    ensures WorldInv(w.(t := Drop(t, w.bufs[id].data), bufs := w.bufs[id := Buf(ptr, n, n)]))
  {
    BufTraced(w, id);
    var gone := w.bufs[id].data;
    assert ptr != gone && Traced(t, gone) && ptr !in Without(w.t.traced, gone);
    hide MemoryTrace.Inv, Owned, Drop, Without;
    DropInv(t, gone);
    WithoutLater(w.t.traced, gone, ptr, HEADER + n);
    OwnedReplaced(w.bufs, w.given, w.t.traced, id, ptr, n);
  }

  lemma GrowInv(w: World, id: nat, n: nat, answer: nat)
    requires WorldInv(w) && id in w.bufs && Fits(w.t, n, answer)
    ensures WorldInv(Grow(w, id, n, answer))
  {
    assert MemoryTrace.Inv(w.t) && forall ptr :: ptr in w.t.traced ==> ptr != 0;
    hide WorldInv, MemoryTrace.Inv, Drop, Acquire, Answers;
    AcquireInv(w.t, n, answer);
    var (t, ptr) := Acquire(w.t, n, answer);
    if ptr != 0 {
      SwappedInv(w, id, n, t, ptr);
    }
  }

  lemma MakeInv(w: World, id: nat, n: nat, answer: nat)
    requires WorldInv(w) && Enabled(w, Make(id, n, answer))
    ensures WorldInv(Step(w, Make(id, n, answer)))
  {
    hide MemoryTrace.Inv, Acquire, Answers;
    AcquireInv(w.t, n, answer);
    if n == 0 {
      OwnedMore(w.bufs, w.given, w.t.traced, id);
    } else {
      var (t, ptr) := Acquire(w.t, n, answer);
      if ptr != 0 { OwnedWith(w.bufs, w.given, w.t.traced, id, ptr, n); }
    }
  }

  lemma OwnedMore(bufs: map<nat, Buf>, given: set<nat>, traced: map<nat, nat>, id: nat)
    requires Owned(bufs, given, traced) && id !in bufs
    ensures Owned(bufs[id := EMPTY], given, traced)
  {
    var r := bufs[id := EMPTY];
    forall p | p in traced ensures Held(r, given, p) {
      assert Held(bufs, given, p);
      if p !in given {
        var i :| i in bufs && bufs[i].data == p;
        assert r[i].data == p;
      }
    }
  }

  /** The block goes to a buffer whose own block has been freed. */
  lemma OwnedTaken(bufs: map<nat, Buf>, given: set<nat>, traced: map<nat, nat>, id: nat, from: nat)
    requires Owned(bufs, given, traced) && id in bufs && from in bufs
    ensures Owned(bufs[id := bufs[from]][from := EMPTY], given, Without(traced, bufs[id].data))
  {
    hide Owned, Without;
    OwnedWithout(bufs, given, traced, id, EMPTY);
    var none := bufs[id := EMPTY];
    OwnedMoved(none, given, Without(traced, bufs[id].data), id, from);
    assert none[id := none[from]][from := EMPTY] == bufs[id := bufs[from]][from := EMPTY];
  }

  lemma MoveAssignInv(w: World, id: nat, from: nat)
    requires WorldInv(w) && id in w.bufs && from in w.bufs
    ensures WorldInv(Step(w, MoveAssign(id, from)))
  {
    BufTraced(w, id);
    assert MemoryTrace.Inv(w.t) && Owned(w.bufs, w.given, w.t.traced);
    hide MemoryTrace.Inv, Owned, Drop, Without, Release, Replace, Grow;
    DropInv(w.t, w.bufs[id].data);
    OwnedTaken(w.bufs, w.given, w.t.traced, id, from);
  }

  lemma DestroyInv(w: World, id: nat)
    requires WorldInv(w) && id in w.bufs
    ensures WorldInv(Step(w, Destroy(id)))
  {
    BufTraced(w, id);
    hide MemoryTrace.Inv, Owned, Drop;
    DropInv(w.t, w.bufs[id].data);
    OwnedWithout(w.bufs, w.given, w.t.traced, id, EMPTY);
    OwnedGone(w.bufs[id := EMPTY], w.given, Drop(w.t, w.bufs[id].data).traced, id);
    assert w.bufs[id := EMPTY] - {id} == w.bufs - {id};
  }

  lemma GivenTraced(w: World, ptr: nat)
    requires WorldInv(w) && ptr in w.given
    ensures ptr in w.t.traced && ptr != 0
  {
  }

  /** Whatever is done to buffers, and whichever allocation throws, each block keeps
      exactly one owner: none is lost and none can be freed twice. */
  lemma StepOwned(w: World, op: Op)
    requires WorldInv(w) && Enabled(w, op)
    ensures WorldInv(Step(w, op))
  {
    match op
    case Make(id, n, answer) => MakeInv(w, id, n, answer);
    case Move(id, from) => OwnedMoved(w.bufs, w.given, w.t.traced, id, from);
    case Destroy(id) => DestroyInv(w, id);
    case Assign(id, n, answer) =>
      BufTraced(w, id);
      if n <= w.bufs[id].maxLength { OwnedShorter(w.bufs, w.given, w.t.traced, id, n); } else { ReplaceInv(w, id, n, answer); }
    case MoveAssign(id, from) => MoveAssignInv(w, id, from);
    case Resize(id, n, valid, answer) =>
      BufTraced(w, id);
      if n <= w.bufs[id].maxLength {
        OwnedShorter(w.bufs, w.given, w.t.traced, id, n);
      } else if Min(valid, w.bufs[id].length) > 0 {
        GrowInv(w, id, n, answer);
      } else {
        ReplaceInv(w, id, n, answer);
      }
    case Transfer(id) => OwnedGiven(w.bufs, w.given, w.t.traced, id);
    case FreeGiven(ptr) =>
      GivenTraced(w, ptr);
      DropInv(w.t, ptr);
      OwnedFreed(w.bufs, w.given, w.t.traced, ptr);
  }

  /** Before anything is allocated. */
  function Start(limits: seq<nat>): World {
    World(map[], {}, Trace(Empty(limits), map[], 0, 0))
  }

  lemma StartInv(limits: seq<nat>)
    requires |limits| == SLOTS
    ensures WorldInv(Start(limits))
  {
    EmptyGood(limits);
    hide Good, Empty;
  }

  predicate Legal(w: World, ops: seq<Op>)
    decreases |ops|
  {
    ops == [] || (Enabled(w, ops[0]) && Legal(Step(w, ops[0]), ops[1..]))
  }

  function After(w: World, ops: seq<Op>): World
    requires Legal(w, ops)
    decreases |ops|
  {
    if ops == [] then w else After(Step(w, ops[0]), ops[1..])
  }

  lemma {:induction false} RunOwned(w: World, ops: seq<Op>)
    requires WorldInv(w) && Legal(w, ops)
    ensures WorldInv(After(w, ops))
    decreases |ops|
  {
    hide WorldInv, Enabled, Step;
    if ops != [] {
      StepOwned(w, ops[0]);
      RunOwned(Step(w, ops[0]), ops[1..]);
    }
  }

  /** Over every sequence of operations from the start: no two buffers share a block, a
      buffer's block has the size it says, and a transferred block belongs to none. */
  lemma OwnersApart(limits: seq<nat>, ops: seq<Op>, i: nat, j: nat)
    requires |limits| == SLOTS && Legal(Start(limits), ops)
    ensures var w := After(Start(limits), ops);
      && (i in w.bufs && j in w.bufs && i != j && w.bufs[i].data != 0 ==> w.bufs[i].data != w.bufs[j].data)
      && (i in w.bufs ==> w.bufs[i].length <= w.bufs[i].maxLength)
      && (i in w.bufs && w.bufs[i].data != 0 ==>
            w.bufs[i].data in w.t.traced && w.t.traced[w.bufs[i].data] == HEADER + w.bufs[i].maxLength && w.bufs[i].data !in w.given)
  {
    StartInv(limits);
    RunOwned(Start(limits), ops);
    hide MemoryTrace.Inv, Legal, After, Start;
  }

  /** When every buffer is destroyed and every transferred block freed, the trace
      reports nothing in use. */
  lemma NothingLeft(limits: seq<nat>, ops: seq<Op>)
    requires |limits| == SLOTS && Legal(Start(limits), ops)
    requires var w := After(Start(limits), ops); w.bufs == map[] && w.given == {}
    ensures var r := After(Start(limits), ops); r.t.traced == map[] && r.t.size == 0 && r.t.count == 0
  {
    StartInv(limits);
    RunOwned(Start(limits), ops);
    var r := After(Start(limits), ops);
    forall ptr ensures ptr !in r.t.traced {
      assert !Held(r.bufs, r.given, ptr);
    }
    assert r.t.traced.Keys == {};
    assert r.t.traced == map[];
  }

  // ---------------------------------------------------------- failed allocations

  /** The buffer can be used: it has a block exactly if it says it has room. */
  predicate Intact(b: Buf) {
    b.data == 0 <==> b.maxLength == 0
  }

  ghost predicate AllIntact(bufs: map<nat, Buf>) {
    forall id :: id in bufs ==> Intact(bufs[id])
  }

  /** The step frees a buffer's block before it allocates another one. */
  predicate FreesFirst(w: World, op: Op) {
    match op
    case Assign(id, n, _) => id in w.bufs && n > w.bufs[id].maxLength
    case Resize(id, n, valid, _) => id in w.bufs && n > w.bufs[id].maxLength && Min(valid, w.bufs[id].length) == 0
    case _ => false
  }

  function Target(op: Op): nat {
    match op
    case Assign(id, _, _) => id
    case Resize(id, _, _, _) => id
    case _ => 0
  }

  /** The size of the block the step asks for. */
  function Asked(op: Op): nat {
    match op
    case Assign(_, n, _) => HEADER + n
    case Resize(_, n, _, _) => HEADER + n
    case _ => 0
  }

  function AnswerTo(op: Op): nat {
    match op
    case Assign(_, _, answer) => answer
    case Resize(_, _, _, answer) => answer
    case _ => 0
  }

  /** There is a block of this size to be had: a kept one, or one from `malloc`. */
  predicate Served(s: Store, size: nat, answer: nat) {
    answer != 0 || (Kept(s, size) && size < |s.lists| && s.lists[size] != [])
  }

  /** A step leaves every buffer usable if and only if it does not free a block when
      there is no other one to be had. After such a step the buffer still claims the
      room of the block that is gone. */
  lemma StepIntact(w: World, op: Op)
    requires WorldInv(w) && AllIntact(w.bufs) && Enabled(w, op)
    ensures AllIntact(Step(w, op).bufs) <==>
      (FreesFirst(w, op) && w.bufs[Target(op)].maxLength != 0 ==> Served(w.t.store, Asked(op), AnswerTo(op)))
  {
    if FreesFirst(w, op) {
      FreesFirstIs(w, op);
      hide *;
      ReplacedIntact(w, Target(op), Asked(op) - HEADER, AnswerTo(op));
    } else {
      OthersIntact(w, op);
    }
  }

  lemma FreesFirstIs(w: World, op: Op)
    requires Enabled(w, op) && FreesFirst(w, op)
    ensures Target(op) in w.bufs && HEADER <= Asked(op) < SIZE_T && Asked(op) - HEADER > w.bufs[Target(op)].maxLength
    ensures Step(w, op) == Replace(w, Target(op), Asked(op) - HEADER, AnswerTo(op))
  {
    hide Replace, Grow, Answers, Release, Traced;
  }

  lemma OthersIntact(w: World, op: Op)
    requires WorldInv(w) && AllIntact(w.bufs) && Enabled(w, op) && !FreesFirst(w, op)
    ensures AllIntact(Step(w, op).bufs)
  {
    hide MemoryTrace.Inv, Owned, WorldInv, Drop, Acquire, Answers, Replace;
    match op
    case Make(id, n, answer) =>
    case Move(id, from) =>
    case Destroy(id) =>
    case Assign(id, n, answer) =>
    case MoveAssign(id, from) =>
    case Resize(id, n, valid, answer) => if n > w.bufs[id].maxLength { hide Enabled; }
    case Transfer(id) =>
    case FreeGiven(ptr) =>
  }

  lemma ReplacedIntact(w: World, id: nat, n: nat, answer: nat)
    requires WorldInv(w) && AllIntact(w.bufs) && id in w.bufs && HEADER + n < SIZE_T && n > w.bufs[id].maxLength
    ensures AllIntact(Replace(w, id, n, answer).bufs) <==> w.bufs[id].maxLength == 0 || Served(w.t.store, HEADER + n, answer)
  {
    ReplacedServed(w, id, n, answer);
    hide Acquire, Drop, WorldInv, Served;
    var r := Replace(w, id, n, answer);
    assert Intact(w.bufs[id]);
    assert id in r.bufs;
  }

  /** Freeing the old, smaller block does not change what there is for the new one. */
  lemma ReplacedServed(w: World, id: nat, n: nat, answer: nat)
    requires WorldInv(w) && id in w.bufs && HEADER + n < SIZE_T && n > w.bufs[id].maxLength
    ensures Acquire(Drop(w.t, w.bufs[id].data), n, answer).1 != 0 <==> Served(w.t.store, HEADER + n, answer)
  {
    assert BufOk(w.bufs[id], w.given, w.t.traced) && Good(w.t.store);
    hide WorldInv, MemoryTrace.Inv, Owned, Acquire, Drop, Served, Good;
    ListServes(w.t.store, HEADER + n);
    DropServes(w.t, w.bufs[id].data, HEADER + n, answer);
    AcquireServed(Drop(w.t, w.bufs[id].data), n, answer);
  }

  /** A block to be had is obtained. */
  lemma AcquireServed(t: Trace, n: nat, answer: nat)
    requires HEADER + n < SIZE_T && |t.store.lists| == |t.store.limits|
    requires Kept(t.store, HEADER + n) && t.store.lists[HEADER + n] != [] ==> t.store.lists[HEADER + n][0] != 0
    ensures Acquire(t, n, answer).1 != 0 <==> Served(t.store, HEADER + n, answer)
  {
  }

  lemma DropServes(t: Trace, ptr: nat, size: nat, answer: nat)
    requires ptr == 0 || (ptr in t.traced && t.traced[ptr] != size)
    ensures var r := Drop(t, ptr).store;
      && |r.lists| == |t.store.lists| && r.limits == t.store.limits
      && (size < |r.lists| ==> r.lists[size] == t.store.lists[size])
      && (Served(r, size, answer) <==> Served(t.store, size, answer))
  {
    if ptr != 0 { FreedServed(t.store, ptr, t.traced[ptr], size); }
    hide Freed;
  }

  lemma ListServes(s: Store, size: nat)
    requires Good(s)
    ensures |s.lists| == |s.limits| && (Kept(s, size) && s.lists[size] != [] ==> s.lists[size][0] != 0)
  {
    if Kept(s, size) && s.lists[size] != [] {
      assert Idle(s, size, s.lists[size][0]);
    }
  }

  lemma FreedServed(s: Store, ptr: nat, was: nat, size: nat)
    requires was != size
    ensures var r := Freed(s, ptr, was);
      && |r.lists| == |s.lists| && r.limits == s.limits
      && (size < |s.lists| ==> r.lists[size] == s.lists[size])
  {
  }

  // ---------------------------------------------------------- what a step does

  /** No other buffer has changed, come or gone, and no other block was given away. */
  ghost predicate OthersSame(w: World, r: World, ids: set<nat>) {
    forall k :: k !in ids ==> (k in r.bufs <==> k in w.bufs) && (k in w.bufs ==> r.bufs[k] == w.bufs[k])
  }

  /** The buffer has a new block of exactly this size, and `gone` is freed. */
  ghost predicate Renewed(w: World, r: World, id: nat, n: nat, gone: nat) {
    && id in r.bufs && r.bufs[id].length == n == r.bufs[id].maxLength
    && var ptr := r.bufs[id].data; var left := Without(w.t.traced, gone);
      ptr != 0 && ptr !in left && r.t.traced == left[ptr := HEADER + n]
  }

  /** The block of `id`, which had one or not, is freed; it has that of `from` now. */
  ghost predicate TookOver(w: World, r: World, id: nat, from: nat, gone: nat)
    requires from in w.bufs
  {
    && id in r.bufs && from in r.bufs && r.bufs[from] == EMPTY && (id != from ==> r.bufs[id] == w.bufs[from])
    && r.t.traced == Without(w.t.traced, gone)
  }

  /** A larger block is wanted and, freed first or not, there is none. */
  ghost predicate Failed(w: World, r: World, id: nat, freed: bool)
    requires id in w.bufs
  {
    if freed then
      id in r.bufs && r.bufs[id] == w.bufs[id].(data := 0) && r.t.traced == Without(w.t.traced, w.bufs[id].data)
    else r.bufs == w.bufs && r.t.traced == w.t.traced
  }

  /** A buffer that is to hold `n` bytes: in the room it has, or else in a new block. */
  ghost predicate Refilled(w: World, r: World, id: nat, n: nat, served: bool, freed: bool)
    requires id in w.bufs
  {
    if n <= w.bufs[id].maxLength then
      id in r.bufs && r.bufs[id] == Buf(w.bufs[id].data, n, w.bufs[id].maxLength) && r.t.traced == w.t.traced
    else if served then Renewed(w, r, id, n, w.bufs[id].data)
    else Failed(w, r, id, freed)
  }

  lemma AcquireOutcome(t: Trace, n: nat, answer: nat)
    requires MemoryTrace.Inv(t) && Fits(t, n, answer)
    ensures var (r, ptr) := Acquire(t, n, answer);
      && MemoryTrace.Inv(r) && (ptr != 0 <==> Served(t.store, HEADER + n, answer))
      && (if ptr == 0 then r == t else ptr !in t.traced && r.traced == t.traced[ptr := HEADER + n])
  {
    hide Acquire, Malloc, Served, Good;
    ListServes(t.store, HEADER + n);
    AcquireServed(t, n, answer);
    AcquireInv(t, n, answer);
  }

  lemma ReplaceOutcome(w: World, id: nat, n: nat, answer: nat)
    requires WorldInv(w) && id in w.bufs && n > w.bufs[id].maxLength && Fits(Drop(w.t, w.bufs[id].data), n, answer)
    ensures Refilled(w, Replace(w, id, n, answer), id, n, Served(w.t.store, HEADER + n, answer), true)
    ensures OthersSame(w, Replace(w, id, n, answer), {id}) && Replace(w, id, n, answer).given == w.given
  {
    hide WorldInv, MemoryTrace.Inv, Owned, Drop, Acquire, Answers, Served, Without;
    WorldTrace(w);
    BufTraced(w, id);
    ReplacedServed(w, id, n, answer);
    DropInv(w.t, w.bufs[id].data);
    AcquireInv(Drop(w.t, w.bufs[id].data), n, answer);
  }

  lemma GrowOutcome(w: World, id: nat, n: nat, answer: nat)
    requires WorldInv(w) && id in w.bufs && n > w.bufs[id].maxLength && Fits(w.t, n, answer)
    ensures Refilled(w, Grow(w, id, n, answer), id, n, Served(w.t.store, HEADER + n, answer), false)
    ensures OthersSame(w, Grow(w, id, n, answer), {id}) && Grow(w, id, n, answer).given == w.given
  {
    hide WorldInv, MemoryTrace.Inv, Owned, Drop, Acquire, Answers, Served, Renewed;
    WorldTrace(w);
    AcquireOutcome(w.t, n, answer);
    var (t, ptr) := Acquire(w.t, n, answer);
    if ptr != 0 {
      SwappedOutcome(w, id, n, t, ptr, answer);
    }
  }

  lemma WorldTrace(w: World)
    requires WorldInv(w)
    ensures MemoryTrace.Inv(w.t)
  {
    hide MemoryTrace.Inv;
  }

  lemma SwappedOutcome(w: World, id: nat, n: nat, t: Trace, ptr: nat, answer: nat)
    requires WorldInv(w) && id in w.bufs && MemoryTrace.Inv(t) && n < SIZE_T
    requires ptr != 0 && ptr !in w.t.traced && t.traced == w.t.traced[ptr := HEADER + n] && Acquire(w.t, n, answer) == (t, ptr)
    ensures Renewed(w, Grow(w, id, n, answer), id, n, w.bufs[id].data)
  {
    hide WorldInv, MemoryTrace.Inv, Owned, Drop, Acquire, Without;
    var gone := w.bufs[id].data;
    BufTraced(w, id);
    assert 0 !in w.t.traced by { NoNullTraced(w); }
    DropInv(t, gone);
    WithoutLater(w.t.traced, gone, ptr, HEADER + n);
  }

  lemma NoNullTraced(w: World)
    requires WorldInv(w)
    ensures 0 !in w.t.traced
  {
    hide MemoryTrace.Inv;
  }

  /** What each operation comes to. A new buffer holds its bytes in a block of their
      size, unless there is none to be had and nothing is made. Moving takes the block
      over and leaves the other buffer empty. A buffer given `n` bytes uses the room it
      has, else gets a block of that size; when there is none, one that frees first loses
      its own. A transferred block belongs to the request until that frees it. */
  ghost predicate StepOutcome(w: World, op: Op, r: World)
    requires Enabled(w, op)
  {
    match op
    case Make(id, n, answer) =>
      && OthersSame(w, r, {id}) && r.given == w.given
      && (if n == 0 then id in r.bufs && r.bufs[id] == EMPTY && r.t.traced == w.t.traced
          else if Served(w.t.store, HEADER + n, answer) then Renewed(w, r, id, n, 0)
          else id !in r.bufs && r.t.traced == w.t.traced)
    case Move(id, from) => OthersSame(w, r, {id, from}) && r.given == w.given && TookOver(w, r, id, from, 0)
    case Destroy(id) =>
      OthersSame(w, r, {id}) && r.given == w.given && id !in r.bufs && r.t.traced == Without(w.t.traced, w.bufs[id].data)
    case Assign(id, n, answer) =>
      OthersSame(w, r, {id}) && r.given == w.given && Refilled(w, r, id, n, Served(w.t.store, HEADER + n, answer), true)
    case MoveAssign(id, from) =>
      OthersSame(w, r, {id, from}) && r.given == w.given && TookOver(w, r, id, from, w.bufs[id].data)
    case Resize(id, n, valid, answer) =>
      && OthersSame(w, r, {id}) && r.given == w.given
      && Refilled(w, r, id, n, Served(w.t.store, HEADER + n, answer), valid == 0 || w.bufs[id].length == 0)
    case Transfer(id) =>
      && OthersSame(w, r, {id}) && id in r.bufs && r.bufs[id] == EMPTY && r.t.traced == w.t.traced
      && (forall ptr :: ptr in r.given <==> ptr in w.given || (ptr == w.bufs[id].data && ptr != 0))
    case FreeGiven(ptr) =>
      && r.bufs == w.bufs && r.t.traced == Without(w.t.traced, ptr)
      && (forall p :: p in r.given <==> p in w.given && p != ptr)
  }

  lemma StepDoes(w: World, op: Op)
    requires WorldInv(w) && Enabled(w, op)
    ensures StepOutcome(w, op, Step(w, op))
  {
    hide *;
    match op
    case Make(id, n, answer) => MakeDoes(w, id, n, answer);
    case Move(id, from) => MoveDoes(w, op);
    case Destroy(id) => FreeDoes(w, op);
    case Assign(id, n, answer) => AssignDoes(w, id, n, answer);
    case MoveAssign(id, from) => FreeDoes(w, op);
    case Resize(id, n, valid, answer) => ResizeDoes(w, id, n, valid, answer);
    case Transfer(id) => MoveDoes(w, op);
    case FreeGiven(ptr) => FreeDoes(w, op);
  }

  lemma MoveDoes(w: World, op: Op)
    requires Enabled(w, op) && (op.Move? || op.Transfer?)
    ensures StepOutcome(w, op, Step(w, op))
  {
    hide Drop, Acquire, Replace, Grow, Served, Answers, Renewed, Failed;
  }

  lemma FreeDoes(w: World, op: Op)
    requires WorldInv(w) && Enabled(w, op) && (op.Destroy? || op.MoveAssign? || op.FreeGiven?)
    ensures StepOutcome(w, op, Step(w, op))
  {
    hide WorldInv, MemoryTrace.Inv, Owned, Drop, Acquire, Replace, Grow, Served, Answers, Renewed, Failed, Without;
    WorldTrace(w);
    match op {
      case Destroy(id) => BufTraced(w, id); DropInv(w.t, w.bufs[id].data);
      case MoveAssign(id, from) => BufTraced(w, id); DropInv(w.t, w.bufs[id].data);
      case FreeGiven(ptr) => GivenTraced(w, ptr); DropInv(w.t, ptr);
    }
  }

  lemma MakeDoes(w: World, id: nat, n: nat, answer: nat)
    requires WorldInv(w) && Enabled(w, Make(id, n, answer))
    ensures StepOutcome(w, Make(id, n, answer), Step(w, Make(id, n, answer)))
  {
    hide WorldInv, MemoryTrace.Inv, Owned, Drop, Acquire, Replace, Grow, Served, Answers;
    WorldTrace(w);
    if n > 0 { AcquireOutcome(w.t, n, answer); }
  }

  lemma AssignDoes(w: World, id: nat, n: nat, answer: nat)
    requires WorldInv(w) && Enabled(w, Assign(id, n, answer))
    ensures StepOutcome(w, Assign(id, n, answer), Step(w, Assign(id, n, answer)))
  {
    hide WorldInv, MemoryTrace.Inv, Owned, Drop, Acquire, Replace, Grow, Served, Answers, Renewed, Failed;
    BufTraced(w, id);
    if n > w.bufs[id].maxLength {
      FitsLater(w, id, answer);
      ReplaceOutcome(w, id, n, answer);
    }
  }

  /** What the allocator may answer once the old block is freed. */
  lemma FitsLater(w: World, id: nat, answer: nat)
    requires WorldInv(w) && id in w.bufs && (Traced(w.t, w.bufs[id].data) ==> Answers(Release(w.t, w.bufs[id].data).store, answer))
    ensures Answers(Drop(w.t, w.bufs[id].data).store, answer)
  {
    hide Answers, WorldInv, Release;
    BufTraced(w, id);
  }

  lemma ResizeDoes(w: World, id: nat, n: nat, valid: nat, answer: nat)
    requires WorldInv(w) && Enabled(w, Resize(id, n, valid, answer))
    ensures StepOutcome(w, Resize(id, n, valid, answer), Step(w, Resize(id, n, valid, answer)))
  {
    hide WorldInv, MemoryTrace.Inv, Owned, Drop, Acquire, Replace, Grow, Served, Answers, Renewed, Failed;
    BufTraced(w, id);
    if n > w.bufs[id].maxLength {
      if Min(valid, w.bufs[id].length) > 0 {
        GrowOutcome(w, id, n, answer);
      } else {
        FitsLater(w, id, answer);
        ReplaceOutcome(w, id, n, answer);
      }
    }
  }

  /** The run: one byte is stored, then two are assigned and `malloc` fails. The buffer
      has no block and says it has room for one byte, so that the next assignment of one
      byte would copy to the null pointer. */
  lemma FailedAssign(limits: seq<nat>)
    requires |limits| == SLOTS
    ensures var ops := [Make(0, 1, 1), Assign(0, 2, 0)];
      && Legal(Start(limits), ops)
      && After(Start(limits), ops).bufs == map[0 := Buf(0, 1, 1)]
      && !AllIntact(After(Start(limits), ops).bufs)
      && AllIntact(After(Start(limits), ops[..1]).bufs)
  {
  }
}
